/** The scraper's configuration, as the loader hands it over (Config in cmd/scrape.go). */
module ScrapeConfig {
  import opened Wrappers
  import opened Labels

  /** Options of the project-count collector; IncludeSubGroups may be absent. */
  datatype ProjectCountConfig = ProjectCountConfig(includeSubGroups: Option<bool>)

  /** The member-count collector has no options. */
  datatype MemberCountConfig = MemberCountConfig

  /** One group; a collector runs for it exactly when its option record is present. */
  datatype GroupConfig = GroupConfig(
    id: string,
    projectCount: Option<ProjectCountConfig>,
    memberCount: Option<MemberCountConfig>)

  datatype Config = Config(defaultLabels: Labels, groups: seq<GroupConfig>)
}
