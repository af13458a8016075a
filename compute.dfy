/**
 * The part of the Google Compute Engine API that the exporter consumes:
 * a project with its quotas, the list of regions with theirs, and the two
 * read-only calls that fetch them.
 */
module Compute {
  import opened Wrappers

  /**
   * A float64 as its IEEE 754 bit pattern. The exporter never computes on
   * quota figures, it only forwards them, so equality of bit patterns is all
   * the model needs.
   */
  datatype Float64 = Float64(bits: bv64)

  /** One quota entry: the metric it limits, its limit and its current usage. */
  datatype Quota = Quota(metric: string, limit: Float64, usage: Float64)

  /** A project resource; only its quota list is read. */
  datatype Project = Project(quotas: seq<Quota>)

  /** A region resource: its name and its own quota list. */
  datatype Region = Region(name: string, quotas: seq<Quota>)

  /** The response of the region listing. */
  datatype RegionList = RegionList(items: seq<Region>)

  /** Whatever error the client library returns from a call. */
  datatype ApiError = ApiError(message: string)

  /**
   * The upstream API as seen by one collection cycle: what `Projects.Get(id)`
   * and `Regions.List(id)` answer for each project id.
   */
  datatype Service = Service(
    projectsGet: string -> Result<Project, ApiError>,
    regionsList: string -> Result<RegionList, ApiError>)

  /** A call issued to the upstream API, recorded to state which calls a cycle makes. */
  datatype Request = ProjectsGet(project: string) | RegionsList(project: string)
}
