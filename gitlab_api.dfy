/** The requests the scraper sends to the GitLab API and the part of the responses it reads. */
module GitLabApi {
  import opened Wrappers

  /** Pagination of a list call. */
  datatype ListOptions = ListOptions(page: int, perPage: int)

  /** Options of "list the projects of a group"; every field is an optional pointer in Go. */
  datatype ListGroupProjectsOptions =
    ListGroupProjectsOptions(includeSubGroups: Option<bool>, listOptions: ListOptions, simple: Option<bool>)

  /** Options of "list the members of a group". */
  datatype ListGroupMembersOptions = ListGroupMembersOptions(listOptions: ListOptions)

  /** One call to the platform. */
  datatype Request =
    | ProjectsRequest(gid: string, projectOptions: ListGroupProjectsOptions)
    | MembersRequest(gid: string, memberOptions: ListGroupMembersOptions)

  /** The response metadata the scraper reads: the total number of items of the listing. */
  datatype Response = Response(totalItems: int)
}
