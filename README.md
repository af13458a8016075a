# gcp-quota-exporter, modelled in Dafny

The GCP quota exporter is a Prometheus exporter. On every scrape it asks the
Google Compute Engine API for the monitored project (`Projects.Get`) and for
the project's regions (`Regions.List`). It then turns the nested quota lists
into flat gauge samples labelled `(project, region, metric)`: a limit sample
and a usage sample per quota. Project-level quotas get the empty region label.
Region quotas get their region's name.

The repository holds two versions of the same program, and each is modelled
in its own module:

- `GcpQuotaExporter` (main.go), the later version. `scrape` makes the two
  calls with early return and yields an all-or-nothing `up` value. `Collect`
  sends the project samples, the region samples and the unlabelled `up`
  sample. At startup the project id is taken from the command line or from the
  credentials' `project_id`.
- `GceQuotaExporter` (gce_quota_exporter.go), the earlier version.
  `getProjectQuotas` and `getRegionQuotas` each make one call and send their
  samples. An API error ends the process (`log.Fatalf`). There is no `up`
  gauge.

Shared modules:

- `Compute`: the API values (`Quota`, `Project`, `Region`, `RegionList`). It
  also holds the `Service`, which gives the answer of each call for each
  project id, and `Request`, which records which calls a cycle issued.
  `Float64` is a float64 kept as its bit pattern. The exporter only forwards
  quota figures, so no arithmetic on them is modelled.
- `Prometheus`: `Desc`, constant gauge samples (`Metric`),
  `MustNewConstMetric` and `MetricChannel`. `MustNewConstMetric` requires one
  label value per variable label, which is the condition under which the
  library would panic. `MetricChannel` models the collector's channel as the
  append-only sequence of samples sent on it.
- `QuotaSeries`: the flattening that both versions share. It has the
  specification functions `QuotaPairs`, `RegionRecords` and `QuotaRecords`,
  the lemmas about them, and the two loops (`SendQuotaPairs`,
  `SendRegionRecords`), each proved against its function.
- `Wrappers`: `Option` for Go's nil pointers and `Result` for
  value-or-error returns.

Each `Collect` is a method of an `Exporter` class whose `service` and
`project` are constant. It modifies only the channel, and its postcondition
gives the channel's new contents as the old contents followed by a
specification function of the API answers. The lemmas about those functions
state the following:

- the number of samples;
- where each quota's limit and usage samples sit;
- that every region sample comes after all project samples;
- the labels, and that figures are passed through unchanged;
- for main.go, that the last sample is `up`.

Neither version of the code retries a call or looks the project id up from
a metadata service. main.go has a single `up` gauge rather than one per API
call, and it is 1 only when both calls succeed. In both versions a failed
project call skips the region call.

The helpers `Prometheus.MustNewConstMetric` (whose precondition stands for
the library's panic on a wrong label count), `GcpQuotaExporter.UpMetric` (the
`up` sample of main.go:82), and `QuotaSeries.LimitMetric` and
`QuotaSeries.UsageMetric` (the samples of main.go:70-71 and
gce_quota_exporter.go:41-42) build single samples. The lemmas below state
their contents.

## Model

| member | source | states |
|---|---|---|
| `GcpQuotaExporter.Scrape` | main.go:38-53 | The project call always comes first. The region call is made, for the same project id, only if the project call succeeded. `up` is 1 exactly when both succeed, and then both values are returned. Otherwise `up` is 0 and both values are nil. |
| `GcpQuotaExporter.CycleMetrics` | main.go:69-82 | A completed cycle sends 2·\|project quotas\| + 2·Σ\|region quotas\| + 1 samples, and the last one is the `up` sample. |
| `GcpQuotaExporter.Exporter.constructor` | main.go:101-104 | The exporter holds the given service and project id. |
| `GcpQuotaExporter.Exporter.Collect` | main.go:63-83 | `Collect` completes exactly when the scrape succeeded, and then appends `CycleMetrics` to the channel. After a failed scrape it dereferences the nil project and sends nothing. |
| `GcpQuotaExporter.Exporter.CollectWithHealth` | main.go:63-83 | Corrected `Collect`: it skips a nil project or region list and always appends the `up` sample (`GuardedCycleMetrics`). |
| `GcpQuotaExporter.GuardedCycleMetrics` | main.go:67-82 | The samples the corrected `Collect` sends always end with the `up` sample. |
| `GcpQuotaExporter.CycleProjectRecordsAt` | main.go:69-72 | Project quota i gives sample 2i (limit) and sample 2i+1 (usage). Both carry the labels (project, "", metric) and the quota's own figures. |
| `GcpQuotaExporter.CycleRegionRecordsAt` | main.go:74-80 | Quota k of region j comes at 2·\|project quotas\| + 2·(quotas of regions before j) + 2k, as limit then usage. It carries the region's name and its figures, and comes before the final `up` sample. |
| `GcpQuotaExporter.CycleLabels` | main.go:69-82 | Every sample but the last is a limit or usage sample with the project label. The first 2·\|project quotas\| have region "". Every later one names a listed region. The last is the unlabelled `up` sample with the scrape's value. |
| `GcpQuotaExporter.UpZeroNeverSent` | main.go:67-82 | If either call fails, the scrape hands `Collect` a nil project, which `Collect` dereferences. The `up` value of that failed scrape occurs in no cycle `Collect` completes. Together with `Exporter.Collect`'s postcondition, this is the as-written behaviour. |
| `GcpQuotaExporter.GuardedCycleReportsHealth` | main.go:82 | With the correction, the last sample is `up = 1` exactly when both calls succeed. A failed scrape sends `up = 0` alone. A successful one sends the same samples as `Collect`. |
| `GcpQuotaExporter.ExampleCycle` | main.go:69-82 | Example: the project quota CPUS and the region us-central1 with quota DISKS give the CPUS pair, then the DISKS pair, then `up = 1`. |
| `GcpQuotaExporter.ResolveProjectId` | main.go:126-144 | A non-empty argument is used verbatim. Otherwise the credentials' `project_id` is used. An unreadable file, unparsable JSON or an empty `project_id` is a fatal error. A resolved id is never empty. |
| `QuotaSeries.QuotaPairs` | main.go:69-72 | A quota list gives exactly two samples per quota. |
| `QuotaSeries.RegionRecords` | main.go:74-80 | A region list gives exactly two samples per quota over all regions. |
| `QuotaSeries.QuotaRecords` | gce_quota_exporter.go:67-72 | The samples of one cycle number 2·\|project quotas\| + 2·Σ\|region quotas\|. |
| `QuotaSeries.QuotaPairsAt` | main.go:69-72 | Quota i gives sample 2i (limit) and sample 2i+1 (usage), with its metric and figures unchanged. |
| `QuotaSeries.QuotaPairsAppend` | main.go:69-72 | Flattening keeps list order: the samples of `a + b` are the samples of `a` followed by those of `b`. |
| `QuotaSeries.QuotaPairsSnoc` | gce_quota_exporter.go:40-43 | One more loop iteration appends that quota's limit sample and then its usage sample. |
| `QuotaSeries.RegionRecordsAppend` | main.go:74-80 | Region order is kept: the samples of `a + b` are those of `a` followed by those of `b`. |
| `QuotaSeries.RegionRecordsSnoc` | gce_quota_exporter.go:52-58 | One more region appends that region's quota samples, labelled with its name. |
| `QuotaSeries.RegionRecordsAt` | main.go:74-80 | Quota k of region j comes after the samples of all earlier regions and earlier quotas, as limit then usage, labelled with region j's name. |
| `QuotaSeries.QuotaPairsLabelled` | gce_quota_exporter.go:40-43 | Every sample of a quota list is a limit or usage sample carrying the given project and region labels. |
| `QuotaSeries.RegionRecordsLabelled` | gce_quota_exporter.go:52-58 | Every region sample is a limit or usage sample carrying the project and the name of a listed region. |
| `QuotaSeries.QuotaRecordsLabelled` | gce_quota_exporter.go:67-72 | In one cycle every sample carries the project label. The first 2·\|project quotas\| have region "". Every later one names a listed region. |
| `QuotaSeries.SendQuotaPairs` | gce_quota_exporter.go:40-43 | The quota loop appends exactly `QuotaPairs` to the channel. |
| `QuotaSeries.SendRegionRecords` | gce_quota_exporter.go:52-58 | The nested region/quota loops append exactly `RegionRecords` to the channel. |
| `Prometheus.MetricChannel.Send` | main.go:70 | A send appends one sample to the channel and changes nothing else. |
| `GceQuotaExporter.CycleMetrics` | gce_quota_exporter.go:67-72 | A completed cycle sends 2·\|project quotas\| + 2·Σ\|region quotas\| samples. |
| `GceQuotaExporter.Exporter.constructor` | gce_quota_exporter.go:90-93 | The exporter holds the given service and project id. |
| `GceQuotaExporter.Exporter.GetProjectQuotas` | gce_quota_exporter.go:35-44 | Makes exactly one project call. On success it appends the project's quota pairs with region "". On error it is fatal and sends nothing. |
| `GceQuotaExporter.Exporter.GetRegionQuotas` | gce_quota_exporter.go:47-59 | Makes exactly one region call. On success it appends every region's quota pairs under the region's name, in region order. On error it is fatal and sends nothing. |
| `GceQuotaExporter.Exporter.Collect` | gce_quota_exporter.go:67-72 | A failed project call is fatal before the region call is made, and nothing is sent. A failed region call is fatal after the project samples. When both calls succeed the cycle appends `CycleMetrics`. |
| `GceQuotaExporter.CycleProjectRecordsAt` | gce_quota_exporter.go:40-43 | Project quota i gives sample 2i (limit) and sample 2i+1 (usage), labelled (project, "", metric), with its figures unchanged. |
| `GceQuotaExporter.CycleRegionRecordsAt` | gce_quota_exporter.go:52-58 | Quota k of region j comes after all project samples and all earlier region samples, labelled with the region's name. |
| `GceQuotaExporter.CycleLabels` | gce_quota_exporter.go:23-24 | Only the limit and usage descriptors occur, so there is no health sample. Every sample carries the project label. Region "" comes first, then the listed regions' names. |

## Findings

| source | as written | input that shows it | evidently intended | confidence | as-written member | corrected member |
|---|---|---|---|---|---|---|
| main.go:67-69 | When `scrape` fails it returns a nil project. `Collect` then ranges over `project.Quotas`, a nil pointer dereference, before it sends anything. The `up` sample at main.go:82 is never reached, so `up = 0` is never exported. | `Projects.Get` returns an error, e.g. a permission error, for any project id. | Send no quota samples and `up = 0` (proved in `GuardedCycleReportsHealth`). | high; not executed | `GcpQuotaExporter.UpZeroNeverSent` | `GcpQuotaExporter.Exporter.CollectWithHealth` |

## Left out

- Mutex locking in `Collect` (`sync.RWMutex`): the model is one sequential collection cycle, so the exclusion between concurrent scrapes is not modelled.
- Channel semantics: the channel is an append-only sequence, with no blocking and no consumer.
- The HTTP server, the `promhttp` handler and the landing page (main.go:155-170, gce_quota_exporter.go:118-132): these are I/O.
- kingpin flag parsing, logging setup and the version collector: these are command-line wiring. In the gce version the project id is a required flag, so that version has no resolution logic to model.
- `NewExporter`: reading the credentials file and building the client (`compute.NewService`) are file I/O and library construction. The constructors model only the struct literal that is returned.
- The reading of the credentials file and `json.Unmarshal`: only their outcome (unreadable, malformed, or a parsed `project_id`) is an input to `ResolveProjectId`.
- `Describe` / `DescribeByCollect`: this is the Prometheus registration protocol.
- The `BasePath` override (main.go:151-153): it only redirects the client for tests.
- float64 semantics: limits and usages are forwarded, never computed on, so they are kept as opaque bit patterns.
- `MustNewConstMetric`'s check that label values are valid UTF-8: strings are `seq<char>`, so this check is not modelled.
- The upstream API is a pure function from project id to response. Changes in the upstream between or during cycles are not modelled, nor is the network.
- The process termination done by `log.Fatalf` and the log messages: only the outcome (`Fatal`, `NilDereference`) is modelled.
- The API's quota and region lists are Go slices of pointers. The model uses sequences of values and so assumes no nil element; the API never returns null entries.
- main_test.go: it is a stale test of a function that no longer has that signature, and it needs network access.
