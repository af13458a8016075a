/**
 * The earlier version of the exporter (gce_quota_exporter.go): `Collect` runs
 * `getProjectQuotas` and then `getRegionQuotas`; an API error in either ends
 * the process, and there is no `up` gauge.
 */
module GceQuotaExporter {
  import opened Compute
  import opened Prometheus
  import opened QuotaSeries

  const LimitDesc: Desc := Desc("gce_quota_limit", "quota limits for GCE components", QuotaLabels)
  const UsageDesc: Desc := Desc("gce_quota_usage", "quota usage for GCE components", QuotaLabels)
  const Descs: QuotaDescs := QuotaDescs(LimitDesc, UsageDesc)

  /** How a call ends: normally, or with `log.Fatalf` ending the process after the failed request. */
  datatype Outcome = Completed | Fatal(failed: Request)

  /** Everything one completed collection sends: the project's quota samples, then every region's. */
  function CycleMetrics(project: string, p: Project, rl: RegionList): (r: seq<Metric>)
    ensures |r| == 2 * |p.quotas| + 2 * TotalQuotas(rl.items)
  {
    QuotaRecords(Descs, project, p, rl)
  }

  /** The collector. Its lock is not modelled: one cycle runs at a time. */
  class Exporter {
    const service: Service
    const project: string

    constructor (service: Service, project: string)
      ensures this.service == service && this.project == project
    {
      this.service := service;
      this.project := project;
    }

    /** `getProjectQuotas`: fetch the project, then send its quota samples with the empty region label. */
    method GetProjectQuotas(ch: MetricChannel) returns (outcome: Outcome, requests: seq<Request>)
      modifies ch
      ensures requests == [ProjectsGet(project)]
      ensures service.projectsGet(project).Failure? ==>
                outcome == Fatal(ProjectsGet(project)) && ch.sent == old(ch.sent)
      ensures service.projectsGet(project).Success? ==>
                outcome == Completed
                && ch.sent == old(ch.sent) + QuotaPairs(Descs, project, "", service.projectsGet(project).value.quotas)
    {
      requests := [ProjectsGet(project)];
      var response := service.projectsGet(project);
      if response.Failure? {
        return Fatal(ProjectsGet(project)), requests;
      }
      SendQuotaPairs(ch, Descs, project, "", response.value.quotas);
      outcome := Completed;
    }

    /** `getRegionQuotas`: list the regions, then send each region's quota samples under its name. */
    method GetRegionQuotas(ch: MetricChannel) returns (outcome: Outcome, requests: seq<Request>)
      modifies ch
      ensures requests == [RegionsList(project)]
      ensures service.regionsList(project).Failure? ==>
                outcome == Fatal(RegionsList(project)) && ch.sent == old(ch.sent)
      ensures service.regionsList(project).Success? ==>
                outcome == Completed
                && ch.sent == old(ch.sent) + RegionRecords(Descs, project, service.regionsList(project).value.items)
    {
      requests := [RegionsList(project)];
      var response := service.regionsList(project);
      if response.Failure? {
        return Fatal(RegionsList(project)), requests;
      }
      SendRegionRecords(ch, Descs, project, response.value.items);
      outcome := Completed;
    }

    /**
     * `Collect`: project quotas, then region quotas. A failed project call ends
     * the process before the regions are queried; a failed region call ends it
     * after the project samples were sent.
     */
    method Collect(ch: MetricChannel) returns (outcome: Outcome, requests: seq<Request>)
      modifies ch
      ensures var prj := service.projectsGet(project);
              var rgl := service.regionsList(project);
              && (prj.Failure? ==>
                    outcome == Fatal(ProjectsGet(project)) && requests == [ProjectsGet(project)]
                    && ch.sent == old(ch.sent))
              && (prj.Success? && rgl.Failure? ==>
                    outcome == Fatal(RegionsList(project))
                    && requests == [ProjectsGet(project), RegionsList(project)]
                    && ch.sent == old(ch.sent) + QuotaPairs(Descs, project, "", prj.value.quotas))
              && (prj.Success? && rgl.Success? ==>
                    outcome == Completed
                    && requests == [ProjectsGet(project), RegionsList(project)]
                    && ch.sent == old(ch.sent) + CycleMetrics(project, prj.value, rgl.value))
    {
      outcome, requests := GetProjectQuotas(ch);
      if outcome.Fatal? {
        return;
      }
      var more;
      outcome, more := GetRegionQuotas(ch);
      requests := requests + more;
    }
  }

  /** Project quota i yields samples 2i (limit) and 2i+1 (usage) with the empty region label, figures unchanged. */
  lemma CycleProjectRecordsAt(project: string, p: Project, rl: RegionList, i: nat)
    requires i < |p.quotas|
    ensures var r := CycleMetrics(project, p, rl);
            r[2 * i] == ConstMetric(LimitDesc, p.quotas[i].limit, [project, "", p.quotas[i].metric])
            && r[2 * i + 1] == ConstMetric(UsageDesc, p.quotas[i].usage, [project, "", p.quotas[i].metric])
  {
    QuotaPairsAt(Descs, project, "", p.quotas, i);
  }

  /** Quota k of region j: after all project samples and all earlier region samples, under the region's name. */
  lemma CycleRegionRecordsAt(project: string, p: Project, rl: RegionList, j: nat, k: nat)
    requires j < |rl.items| && k < |rl.items[j].quotas|
    ensures var at := 2 * |p.quotas| + 2 * TotalQuotas(rl.items[..j]) + 2 * k;
            var r := CycleMetrics(project, p, rl);
            var q := rl.items[j].quotas[k];
            at + 1 < |r|
            && r[at] == ConstMetric(LimitDesc, q.limit, [project, rl.items[j].name, q.metric])
            && r[at + 1] == ConstMetric(UsageDesc, q.usage, [project, rl.items[j].name, q.metric])
  {
    RegionRecordsAt(Descs, project, rl.items, j, k);
  }

  /**
   * Only limit and usage samples exist (no health sample), all with the project
   * label; the first 2·|project quotas| carry the empty region label, every
   * later one the name of a listed region.
   */
  lemma CycleLabels(project: string, p: Project, rl: RegionList)
    ensures var r := CycleMetrics(project, p, rl);
            forall i :: 0 <= i < |r| ==>
              (r[i].desc == LimitDesc || r[i].desc == UsageDesc)
              && |r[i].labelValues| == 3 && r[i].labelValues[0] == project
              && (i < 2 * |p.quotas| ==> r[i].labelValues[1] == "")
              && (2 * |p.quotas| <= i ==> exists j :: 0 <= j < |rl.items| && r[i].labelValues[1] == rl.items[j].name)
  {
    QuotaRecordsLabelled(Descs, project, p, rl);
  }
}
