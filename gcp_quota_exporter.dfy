/**
 * The later version of the exporter (main.go): one `scrape` of two upstream
 * calls with an all-or-nothing `up` gauge, a `Collect` that flattens the
 * result onto the channel, and the startup rule that picks the project id.
 */
module GcpQuotaExporter {
  import opened Wrappers
  import opened Compute
  import opened Prometheus
  import opened QuotaSeries

  const LimitDesc: Desc := Desc("gcp_quota_limit", "quota limits for GCP components", QuotaLabels)
  const UsageDesc: Desc := Desc("gcp_quota_usage", "quota usage for GCP components", QuotaLabels)
  const UpDesc: Desc := Desc("up", "Was the last scrape of the Google API successful.", [])
  const Descs: QuotaDescs := QuotaDescs(LimitDesc, UsageDesc)

  /** The float64 values 0.0 and 1.0 the `up` gauge takes. */
  const Zero: Float64 := Float64(0)
  const One: Float64 := Float64(0x3FF0_0000_0000_0000)

  /** The unlabelled `up` sample. */
  function UpMetric(up: Float64): Metric
  {
    MustNewConstMetric(UpDesc, up, [])
  }

  /** What `scrape` returns (`up`, the project, the region list; None for nil) and the calls it made. */
  datatype ScrapeResult = ScrapeResult(
    up: Float64,
    project: Option<Project>,
    regionList: Option<RegionList>,
    requests: seq<Request>)

  /**
   * `scrape`: query the project, then (only if that succeeded) the regions;
   * any failure gives (0, nil, nil).
   */
  function Scrape(service: Service, project: string): (r: ScrapeResult)
    ensures |r.requests| >= 1 && r.requests[0] == ProjectsGet(project)
    ensures service.projectsGet(project).Failure? ==> r.requests == [ProjectsGet(project)]
    ensures service.projectsGet(project).Success? ==> r.requests == [ProjectsGet(project), RegionsList(project)]
    ensures r.up == One <==> service.projectsGet(project).Success? && service.regionsList(project).Success?
    ensures r.up == One ==> r.project == Some(service.projectsGet(project).value)
                            && r.regionList == Some(service.regionsList(project).value)
    ensures r.up != One ==> r.up == Zero && r.project == None && r.regionList == None
  {
    match service.projectsGet(project)
    case Failure(_) => ScrapeResult(Zero, None, None, [ProjectsGet(project)])
    case Success(prj) =>
      match service.regionsList(project)
      case Failure(_) => ScrapeResult(Zero, None, None, [ProjectsGet(project), RegionsList(project)])
      case Success(rgl) => ScrapeResult(One, Some(prj), Some(rgl), [ProjectsGet(project), RegionsList(project)])
  }

  /** Everything one completed collection sends: the quota samples, then the `up` sample. */
  function CycleMetrics(project: string, p: Project, rl: RegionList, up: Float64): (r: seq<Metric>)
    ensures |r| == 2 * |p.quotas| + 2 * TotalQuotas(rl.items) + 1
    ensures r[|r| - 1] == UpMetric(up)
  {
    QuotaRecords(Descs, project, p, rl) + [UpMetric(up)]
  }

  /** What the evidently intended collection sends: whatever was fetched, then `up` in every case. */
  function GuardedCycleMetrics(project: string, s: ScrapeResult): (r: seq<Metric>)
    ensures |r| >= 1 && r[|r| - 1] == UpMetric(s.up)
  {
    (if s.project.Some? then QuotaPairs(Descs, project, "", s.project.value.quotas) else [])
    + (if s.regionList.Some? then RegionRecords(Descs, project, s.regionList.value.items) else [])
    + [UpMetric(s.up)]
  }

  /** How a call of `Collect` ends: normally, or by dereferencing the nil project of a failed scrape. */
  datatype CollectOutcome = Completed | NilDereference

  /** The collector. Its lock is not modelled: one cycle runs at a time. */
  class Exporter {
    const service: Service
    const project: string

    constructor (service: Service, project: string)
      ensures this.service == service && this.project == project
    {
      this.service := service;
      this.project := project;
    }

    /**
     * `Collect` as written: on a successful scrape it sends every quota sample
     * and `up`; on a failed one it dereferences the nil project before sending
     * anything, so not even `up = 0` is sent.
     */
    method Collect(ch: MetricChannel) returns (outcome: CollectOutcome)
      modifies ch
      ensures var s := Scrape(service, project);
              && (outcome == Completed <==> s.up == One)
              && (outcome == NilDereference ==> ch.sent == old(ch.sent))
              && (outcome == Completed ==>
                    ch.sent == old(ch.sent) + CycleMetrics(project, s.project.value, s.regionList.value, s.up))
    {
      var s := Scrape(service, project);
      if s.project.None? {
        // the loop over the project's quotas reads through a nil pointer
        return NilDereference;
      }
      SendQuotaPairs(ch, Descs, project, "", s.project.value.quotas);
      // the scrape returned both values or neither, so the region list is not nil here
      SendRegionRecords(ch, Descs, project, s.regionList.value.items);
      ch.Send(UpMetric(s.up));
      outcome := Completed;
    }

    /**
     * `Collect` as evidently intended: a nil project or region list contributes
     * no samples, and the `up` sample is sent on every cycle.
     */
    method CollectWithHealth(ch: MetricChannel)
      modifies ch
      ensures ch.sent == old(ch.sent) + GuardedCycleMetrics(project, Scrape(service, project))
    {
      var s := Scrape(service, project);
      if s.project.Some? {
        SendQuotaPairs(ch, Descs, project, "", s.project.value.quotas);
      }
      if s.regionList.Some? {
        SendRegionRecords(ch, Descs, project, s.regionList.value.items);
      }
      ch.Send(UpMetric(s.up));
    }
  }

  /**
   * The samples of a completed cycle: project quota i is samples 2i (limit) and
   * 2i+1 (usage) with the empty region label and its figures unchanged; region
   * samples follow all project samples; the last sample is `up`.
   */
  lemma CycleProjectRecordsAt(project: string, p: Project, rl: RegionList, up: Float64, i: nat)
    requires i < |p.quotas|
    ensures var r := CycleMetrics(project, p, rl, up);
            r[2 * i] == ConstMetric(LimitDesc, p.quotas[i].limit, [project, "", p.quotas[i].metric])
            && r[2 * i + 1] == ConstMetric(UsageDesc, p.quotas[i].usage, [project, "", p.quotas[i].metric])
  {
    QuotaPairsAt(Descs, project, "", p.quotas, i);
  }

  /** Quota k of region j: after all project samples and all earlier region samples, under the region's name. */
  lemma CycleRegionRecordsAt(project: string, p: Project, rl: RegionList, up: Float64, j: nat, k: nat)
    requires j < |rl.items| && k < |rl.items[j].quotas|
    ensures var at := 2 * |p.quotas| + 2 * TotalQuotas(rl.items[..j]) + 2 * k;
            var r := CycleMetrics(project, p, rl, up);
            var q := rl.items[j].quotas[k];
            at + 1 < |r| - 1
            && r[at] == ConstMetric(LimitDesc, q.limit, [project, rl.items[j].name, q.metric])
            && r[at + 1] == ConstMetric(UsageDesc, q.usage, [project, rl.items[j].name, q.metric])
  {
    RegionRecordsAt(Descs, project, rl.items, j, k);
  }

  /**
   * Every sample but the last is a limit or usage sample with the project label
   * (region "" for the first 2·|project quotas|, a listed region's name after);
   * the last is the unlabelled `up` sample.
   */
  lemma CycleLabels(project: string, p: Project, rl: RegionList, up: Float64)
    ensures var r := CycleMetrics(project, p, rl, up);
            && (forall i :: 0 <= i < |r| - 1 ==>
                  (r[i].desc == LimitDesc || r[i].desc == UsageDesc)
                  && |r[i].labelValues| == 3 && r[i].labelValues[0] == project
                  && (i < 2 * |p.quotas| ==> r[i].labelValues[1] == "")
                  && (2 * |p.quotas| <= i ==> exists j :: 0 <= j < |rl.items| && r[i].labelValues[1] == rl.items[j].name))
            && r[|r| - 1].desc == UpDesc && r[|r| - 1].labelValues == [] && r[|r| - 1].value == up
  {
    var q := QuotaRecords(Descs, project, p, rl);
    QuotaRecordsLabelled(Descs, project, p, rl);
    var r := CycleMetrics(project, p, rl, up);
    forall i | 0 <= i < |r| - 1
      ensures r[i] == q[i]
    {
    }
  }

  /**
   * The `up = 0` sample is never sent. Whichever call fails, the scrape hands
   * `Collect` a nil project, so `Collect` ends in `NilDereference` with nothing
   * sent (its postcondition); and the up value such a scrape carries occurs in
   * no cycle `Collect` completes, since those end with `up = 1`. This lemma and
   * `Exporter.Collect`'s postcondition together are the as-written behaviour.
   */
  lemma UpZeroNeverSent(service: Service, project: string)
    requires Scrape(service, project).up != One
    ensures Scrape(service, project).project == None
    ensures forall p: Project, rl: RegionList ::
              UpMetric(Scrape(service, project).up) !in CycleMetrics(project, p, rl, One)
  {
    forall p: Project, rl: RegionList
      ensures UpMetric(Scrape(service, project).up) !in CycleMetrics(project, p, rl, One)
    {
      CycleLabels(project, p, rl, One);
    }
  }

  /**
   * The intended collection always ends with `up`, which is 1 exactly when both
   * calls succeed; a failed scrape sends `up = 0` alone; a successful one sends
   * exactly what `Collect` as written sends.
   */
  lemma GuardedCycleReportsHealth(service: Service, project: string)
    ensures var s := Scrape(service, project);
            var r := GuardedCycleMetrics(project, s);
            && (r[|r| - 1] == UpMetric(One)
                <==> service.projectsGet(project).Success? && service.regionsList(project).Success?)
            && (s.up == One ==> r == CycleMetrics(project, s.project.value, s.regionList.value, One))
            && (s.up != One ==> r == [UpMetric(Zero)])
  {
  }

  /**
   * One project quota CPUS (limit 24, usage 10) and one region us-central1 with
   * quota DISKS (limit 100, usage 5): a cycle sends the CPUS pair with region "",
   * the DISKS pair with region "us-central1", then `up = 1`.
   */
  lemma ExampleCycle(project: string)
    ensures var cpus := Quota("CPUS", Float64(0x4038_0000_0000_0000), Float64(0x4024_0000_0000_0000));
            var disks := Quota("DISKS", Float64(0x4059_0000_0000_0000), Float64(0x4014_0000_0000_0000));
            var service := Service(
              id => Success(Project([cpus])),
              id => Success(RegionList([Region("us-central1", [disks])])));
            var s := Scrape(service, project);
            && s.up == One
            && CycleMetrics(project, s.project.value, s.regionList.value, s.up)
               == [ ConstMetric(LimitDesc, cpus.limit, [project, "", "CPUS"]),
                    ConstMetric(UsageDesc, cpus.usage, [project, "", "CPUS"]),
                    ConstMetric(LimitDesc, disks.limit, [project, "us-central1", "DISKS"]),
                    ConstMetric(UsageDesc, disks.usage, [project, "us-central1", "DISKS"]),
                    ConstMetric(UpDesc, One, []) ]
  {
  }

  /** Where the monitored project's id comes from, past the file read and JSON parse. */
  datatype Credentials =
    | Unreadable                          // reading the credentials file failed
    | Malformed                           // the file is not a JSON service account
    | ServiceAccount(projectId: string)   // the parsed `project_id`, "" when absent

  /** The fatal startup errors of project-id resolution. */
  datatype StartupError = CannotReadCredentials | CannotParseCredentials | NoProjectId

  /**
   * Project-id resolution at startup: a non-empty argument is used as given;
   * otherwise the credentials' `project_id`; a failed read or parse, or an
   * empty `project_id`, is fatal.
   */
  function ResolveProjectId(arg: string, creds: Credentials): (r: Result<string, StartupError>)
    ensures arg != "" ==> r == Success(arg)
    ensures arg == "" && r.Success? ==> creds.ServiceAccount? && r.value == creds.projectId
    ensures arg == "" ==> (r.Success? <==> creds.ServiceAccount? && creds.projectId != "")
    ensures r.Failure? ==> arg == "" && (r.error == CannotReadCredentials <==> creds.Unreadable?)
                                     && (r.error == CannotParseCredentials <==> creds.Malformed?)
    ensures r.Success? ==> r.value != ""
  {
    if arg != "" then Success(arg)
    else match creds
      case Unreadable => Failure(CannotReadCredentials)
      case Malformed => Failure(CannotParseCredentials)
      case ServiceAccount(id) => if id == "" then Failure(NoProjectId) else Success(id)
  }
}
