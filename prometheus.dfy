/**
 * The boundary to the Prometheus client library: metric descriptors, constant
 * gauge samples, and the channel a collector sends its samples to.
 */
module Prometheus {
  import opened Compute

  /** A metric descriptor: fully-qualified name, help text and variable label names. */
  datatype Desc = Desc(fqName: string, help: string, variableLabels: seq<string>)

  /** A constant gauge sample: its descriptor, its value and one value per variable label. */
  datatype Metric = ConstMetric(desc: Desc, value: Float64, labelValues: seq<string>)

  /**
   * `MustNewConstMetric` with a gauge value type. The library panics when the
   * number of label values differs from the descriptor's variable labels; here
   * that is a precondition every caller discharges.
   */
  function MustNewConstMetric(desc: Desc, value: Float64, labelValues: seq<string>): (m: Metric)
    requires |labelValues| == |desc.variableLabels|
  {
    ConstMetric(desc, value, labelValues)
  }

  /** The send-only channel handed to a collector, as the sequence of samples sent on it. */
  class MetricChannel {
    var sent: seq<Metric>

    constructor ()
      ensures sent == []
    {
      sent := [];
    }

    /** A send on the channel. */
    method Send(m: Metric)
      modifies this
      ensures sent == old(sent) + [m]
    {
      sent := sent + [m];
    }
  }
}
