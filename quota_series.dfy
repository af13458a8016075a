/**
 * The flattening shared by both versions of the exporter: every quota becomes
 * a limit sample followed by a usage sample, labelled (project, region, metric);
 * project-level quotas carry the empty region label, region quotas the region's
 * name, and regions and quotas are visited in list order.
 */
module QuotaSeries {
  import opened Compute
  import opened Prometheus

  /** The variable labels of the limit and usage descriptors, in this order. */
  const QuotaLabels: seq<string> := ["project", "region", "metric"]

  /** The pair of descriptors a version of the exporter publishes quotas under. */
  datatype QuotaDescs = QuotaDescs(limit: Desc, usage: Desc) {
    predicate Valid() {
      limit.variableLabels == QuotaLabels && usage.variableLabels == QuotaLabels
    }
  }

  /** m is a limit or usage sample of d carrying the project label, with its three label values. */
  predicate IsQuotaSample(d: QuotaDescs, project: string, m: Metric)
  {
    (m.desc == d.limit || m.desc == d.usage) && |m.labelValues| == 3 && m.labelValues[0] == project
  }

  /** One labelled quota sample. */
  function QuotaMetric(desc: Desc, value: Float64, project: string, region: string, metric: string): Metric
    requires desc.variableLabels == QuotaLabels
  {
    MustNewConstMetric(desc, value, [project, region, metric])
  }

  /** The limit sample of a quota. */
  function LimitMetric(d: QuotaDescs, project: string, region: string, q: Quota): Metric
    requires d.Valid()
  {
    QuotaMetric(d.limit, q.limit, project, region, q.metric)
  }

  /** The usage sample of a quota. */
  function UsageMetric(d: QuotaDescs, project: string, region: string, q: Quota): Metric
    requires d.Valid()
  {
    QuotaMetric(d.usage, q.usage, project, region, q.metric)
  }

  /** The samples of one quota list under one region label: limit then usage, quota by quota. */
  function QuotaPairs(d: QuotaDescs, project: string, region: string, quotas: seq<Quota>): (r: seq<Metric>)
    requires d.Valid()
    ensures |r| == 2 * |quotas|
  {
    if quotas == [] then []
    else [LimitMetric(d, project, region, quotas[0]), UsageMetric(d, project, region, quotas[0])]
         + QuotaPairs(d, project, region, quotas[1..])
  }

  /** The number of quota entries over all regions. */
  function TotalQuotas(regions: seq<Region>): nat
  {
    if regions == [] then 0 else |regions[0].quotas| + TotalQuotas(regions[1..])
  }

  /** The samples of all regions, region by region, each under its own name. */
  function RegionRecords(d: QuotaDescs, project: string, regions: seq<Region>): (r: seq<Metric>)
    requires d.Valid()
    ensures |r| == 2 * TotalQuotas(regions)
  {
    if regions == [] then []
    else QuotaPairs(d, project, regions[0].name, regions[0].quotas) + RegionRecords(d, project, regions[1..])
  }

  /** The quota samples of one cycle: the project's quotas first, then every region's. */
  function QuotaRecords(d: QuotaDescs, project: string, p: Project, rl: RegionList): (r: seq<Metric>)
    requires d.Valid()
    ensures |r| == 2 * |p.quotas| + 2 * TotalQuotas(rl.items)
  {
    QuotaPairs(d, project, "", p.quotas) + RegionRecords(d, project, rl.items)
  }

  /** Quota i of the list yields samples 2i (limit) and 2i+1 (usage), with its figures unchanged. */
  lemma {:induction false} QuotaPairsAt(d: QuotaDescs, project: string, region: string, quotas: seq<Quota>, i: nat)
    requires d.Valid() && i < |quotas|
    ensures QuotaPairs(d, project, region, quotas)[2 * i] == LimitMetric(d, project, region, quotas[i])
    ensures QuotaPairs(d, project, region, quotas)[2 * i + 1] == UsageMetric(d, project, region, quotas[i])
  {
    if i > 0 {
      QuotaPairsAt(d, project, region, quotas[1..], i - 1);
    }
  }

  /** Flattening a concatenation is concatenating the flattenings: list order is kept. */
  lemma {:induction false} QuotaPairsAppend(d: QuotaDescs, project: string, region: string, a: seq<Quota>, b: seq<Quota>)
    requires d.Valid()
    ensures QuotaPairs(d, project, region, a + b)
         == QuotaPairs(d, project, region, a) + QuotaPairs(d, project, region, b)
  {
    if a == [] {
      assert a + b == b;
    } else {
      assert (a + b)[1..] == a[1..] + b;
      QuotaPairsAppend(d, project, region, a[1..], b);
    }
  }

  /** Region order is kept: the records of a concatenation of region lists concatenate. */
  lemma {:induction false} RegionRecordsAppend(d: QuotaDescs, project: string, a: seq<Region>, b: seq<Region>)
    requires d.Valid()
    ensures RegionRecords(d, project, a + b) == RegionRecords(d, project, a) + RegionRecords(d, project, b)
  {
    if a == [] {
      assert a + b == b;
    } else {
      assert (a + b)[1..] == a[1..] + b;
      RegionRecordsAppend(d, project, a[1..], b);
    }
  }

  /** Extending a quota list by its next entry extends its samples by that entry's limit and usage. */
  lemma QuotaPairsSnoc(d: QuotaDescs, project: string, region: string, quotas: seq<Quota>, i: nat)
    requires d.Valid() && i < |quotas|
    ensures QuotaPairs(d, project, region, quotas[..i + 1])
         == QuotaPairs(d, project, region, quotas[..i])
            + [LimitMetric(d, project, region, quotas[i]), UsageMetric(d, project, region, quotas[i])]
  {
    assert quotas[..i + 1] == quotas[..i] + [quotas[i]];
    QuotaPairsAppend(d, project, region, quotas[..i], [quotas[i]]);
    assert [quotas[i]][1..] == [];
  }

  /** Extending a region list by its next region extends its samples by that region's quota samples. */
  lemma RegionRecordsSnoc(d: QuotaDescs, project: string, regions: seq<Region>, j: nat)
    requires d.Valid() && j < |regions|
    ensures RegionRecords(d, project, regions[..j + 1])
         == RegionRecords(d, project, regions[..j]) + QuotaPairs(d, project, regions[j].name, regions[j].quotas)
  {
    assert regions[..j + 1] == regions[..j] + [regions[j]];
    RegionRecordsAppend(d, project, regions[..j], [regions[j]]);
    assert [regions[j]][1..] == [];
  }

  /** The quotas of the first j regions: those of the first region plus those of the next j - 1. */
  lemma TotalQuotasPrefix(regions: seq<Region>, j: nat)
    requires 0 < j <= |regions|
    ensures TotalQuotas(regions[..j]) == |regions[0].quotas| + TotalQuotas(regions[1..][..j - 1])
  {
    assert regions[..j][1..] == regions[1..][..j - 1];
  }

  /**
   * Quota k of region j lands right after the samples of the regions before j
   * and of the quotas before k in region j, labelled with region j's name.
   */
  lemma {:induction false} RegionRecordsAt(d: QuotaDescs, project: string, regions: seq<Region>, j: nat, k: nat)
    requires d.Valid() && j < |regions| && k < |regions[j].quotas|
    ensures var at := 2 * TotalQuotas(regions[..j]) + 2 * k;
            var r := RegionRecords(d, project, regions);
            at + 1 < |r|
            && r[at] == LimitMetric(d, project, regions[j].name, regions[j].quotas[k])
            && r[at + 1] == UsageMetric(d, project, regions[j].name, regions[j].quotas[k])
  {
    var r := RegionRecords(d, project, regions);
    var here := QuotaPairs(d, project, regions[0].name, regions[0].quotas);
    var rest := RegionRecords(d, project, regions[1..]);
    assert r == here + rest;
    var region := regions[j];
    var limit := LimitMetric(d, project, region.name, region.quotas[k]);
    var usage := UsageMetric(d, project, region.name, region.quotas[k]);
    if j == 0 {
      assert regions[..0] == [];
      QuotaPairsAt(d, project, region.name, region.quotas, k);
      assert r[2 * k] == here[2 * k] == limit;
      assert r[2 * k + 1] == here[2 * k + 1] == usage;
    } else {
      RegionRecordsAt(d, project, regions[1..], j - 1, k);
      assert regions[1..][j - 1] == region;
      TotalQuotasPrefix(regions, j);
      var at := 2 * TotalQuotas(regions[1..][..j - 1]) + 2 * k;
      assert rest[at] == limit && rest[at + 1] == usage;
      assert r[|here| + at] == rest[at];
      assert r[|here| + at + 1] == rest[at + 1];
    }
  }

  /** Every sample of a quota list is a limit or usage sample carrying the given project and region. */
  lemma {:induction false} QuotaPairsLabelled(d: QuotaDescs, project: string, region: string, quotas: seq<Quota>)
    requires d.Valid()
    ensures forall m <- QuotaPairs(d, project, region, quotas) ::
              IsQuotaSample(d, project, m) && m.labelValues[1] == region
  {
    if quotas != [] {
      QuotaPairsLabelled(d, project, region, quotas[1..]);
    }
  }

  /**
   * Every region sample is a limit or usage sample carrying the project and the
   * name of one of the listed regions.
   */
  lemma {:induction false} RegionRecordsLabelled(d: QuotaDescs, project: string, regions: seq<Region>)
    requires d.Valid()
    ensures forall m <- RegionRecords(d, project, regions) ::
              IsQuotaSample(d, project, m)
              && exists j :: 0 <= j < |regions| && m.labelValues[1] == regions[j].name
  {
    if regions != [] {
      var head := QuotaPairs(d, project, regions[0].name, regions[0].quotas);
      var tail := RegionRecords(d, project, regions[1..]);
      QuotaPairsLabelled(d, project, regions[0].name, regions[0].quotas);
      RegionRecordsLabelled(d, project, regions[1..]);
      forall m: Metric <- head + tail
        ensures IsQuotaSample(d, project, m)
                && exists j :: 0 <= j < |regions| && m.labelValues[1] == regions[j].name
      {
        if m in head {
          assert m.labelValues[1] == regions[0].name;
        } else {
          assert m in tail;
          var j :| 0 <= j < |regions[1..]| && m.labelValues[1] == regions[1..][j].name;
          assert m.labelValues[1] == regions[j + 1].name;
        }
      }
    }
  }

  /**
   * The shape of one cycle's quota samples: the first 2·|project quotas| are the
   * project's, with the empty region label; every later one names a listed region;
   * all carry the project label and are limit or usage samples.
   */
  lemma QuotaRecordsLabelled(d: QuotaDescs, project: string, p: Project, rl: RegionList)
    requires d.Valid()
    ensures var r := QuotaRecords(d, project, p, rl);
            forall i :: 0 <= i < |r| ==>
              IsQuotaSample(d, project, r[i])
              && (i < 2 * |p.quotas| ==> r[i].labelValues[1] == "")
              && (2 * |p.quotas| <= i ==> exists j :: 0 <= j < |rl.items| && r[i].labelValues[1] == rl.items[j].name)
  {
    var head := QuotaPairs(d, project, "", p.quotas);
    var tail := RegionRecords(d, project, rl.items);
    QuotaPairsLabelled(d, project, "", p.quotas);
    RegionRecordsLabelled(d, project, rl.items);
    forall i | 0 <= i < |head + tail|
      ensures var m: Metric := (head + tail)[i];
              IsQuotaSample(d, project, m)
              && (i < 2 * |p.quotas| ==> m.labelValues[1] == "")
              && (2 * |p.quotas| <= i ==> exists j :: 0 <= j < |rl.items| && m.labelValues[1] == rl.items[j].name)
    {
      if i < |head| {
        assert (head + tail)[i] == head[i] && head[i] in head;
      } else {
        assert (head + tail)[i] == tail[i - |head|] && tail[i - |head|] in tail;
      }
    }
  }

  /** The quota loop: for each quota in order, send its limit sample and then its usage sample under one region label. */
  method SendQuotaPairs(ch: MetricChannel, d: QuotaDescs, project: string, region: string, quotas: seq<Quota>)
    requires d.Valid()
    modifies ch
    ensures ch.sent == old(ch.sent) + QuotaPairs(d, project, region, quotas)
  {
    var i := 0;
    while i < |quotas|
      invariant 0 <= i <= |quotas|
      invariant ch.sent == old(ch.sent) + QuotaPairs(d, project, region, quotas[..i])
    {
      var quota := quotas[i];
      ch.Send(LimitMetric(d, project, region, quota));
      ch.Send(UsageMetric(d, project, region, quota));
      QuotaPairsSnoc(d, project, region, quotas, i);
      i := i + 1;
    }
    assert quotas[..i] == quotas;
  }

  /** The nested region loop: for each region in order, run the quota loop under the region's name. */
  method SendRegionRecords(ch: MetricChannel, d: QuotaDescs, project: string, items: seq<Region>)
    requires d.Valid()
    modifies ch
    ensures ch.sent == old(ch.sent) + RegionRecords(d, project, items)
  {
    var j := 0;
    while j < |items|
      invariant 0 <= j <= |items|
      invariant ch.sent == old(ch.sent) + RegionRecords(d, project, items[..j])
    {
      var region := items[j];
      SendQuotaPairs(ch, d, project, region.name, region.quotas);
      RegionRecordsSnoc(d, project, items, j);
      j := j + 1;
    }
    assert items[..j] == items;
  }
}
