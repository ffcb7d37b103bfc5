/** The two collectors, getProjectCount and getGroupMembersCount: each asks the platform
    for a one-item page and reads the reported total, without changing it. */
module Collectors {
  import opened Wrappers
  import opened GitLabApi
  import opened GitLab
  import opened Traffic
  import opened ScrapeConfig

  /** The request getProjectCount sends for a group. */
  function ProjectCountRequest(group: GroupConfig): (req: Request)
    requires group.projectCount.Some?
    ensures req.ProjectsRequest? && req.gid == group.id
    ensures group.projectCount.value.includeSubGroups.None? ==>
      req.projectOptions.includeSubGroups == Some(false)
    ensures group.projectCount.value.includeSubGroups.Some? ==>
      req.projectOptions.includeSubGroups == group.projectCount.value.includeSubGroups
    ensures req.projectOptions.listOptions == ListOptions(1, 1)
    ensures req.projectOptions.simple == Some(true)
  {
    var includeSubGroups := group.projectCount.value.includeSubGroups;
    ProjectsRequest(group.id, ListGroupProjectsOptions(
      Some(includeSubGroups.Some? && includeSubGroups.value), ListOptions(1, 1), Some(true)))
  }

  /** The request getGroupMembersCount sends for a group. */
  function MemberCountRequest(group: GroupConfig): (req: Request)
    ensures req.MembersRequest? && req.gid == group.id
    ensures req.memberOptions.listOptions == ListOptions(1, 1)
  {
    MembersRequest(group.id, ListGroupMembersOptions(ListOptions(1, 1)))
  }

  /** The count a collector reports for a response: its total, or the call's error. */
  function TotalItems(r: Result<Response>): Result<int>
  {
    match r
    case Ok(resp) => Ok(resp.totalItems)
    case Err(msg) => Err(msg)
  }

  /** getProjectCount; the process exit on a failed call becomes an Err result. */
  method GetProjectCount(git: Client, group: GroupConfig) returns (count: Result<int>)
    requires group.projectCount.Some?
    modifies git.journal
    ensures git.journal.events == old(git.journal.events) + [Sent(ProjectCountRequest(group))]
    ensures count == TotalItems(git.respond(ProjectCountRequest(group)))
  {
    var includeSubGroups := false;
    if group.projectCount.value.includeSubGroups.Some? {
      includeSubGroups := group.projectCount.value.includeSubGroups.value;
    }
    var resp := git.ListGroupProjects(group.id, ListGroupProjectsOptions(
      Some(includeSubGroups), ListOptions(1, 1), Some(true)));
    if resp.Err? {
      return Err(resp.message);
    }
    return Ok(resp.value.totalItems);
  }

  /** getGroupMembersCount; the process exit on a failed call becomes an Err result. */
  method GetGroupMembersCount(git: Client, group: GroupConfig) returns (count: Result<int>)
    modifies git.journal
    ensures git.journal.events == old(git.journal.events) + [Sent(MemberCountRequest(group))]
    ensures count == TotalItems(git.respond(MemberCountRequest(group)))
  {
    var options := ListGroupMembersOptions(ListOptions(1, 1));
    var resp := git.ListGroupMembers(group.id, options);
    if resp.Err? {
      return Err(resp.message);
    }
    return Ok(resp.value.totalItems);
  }
}
