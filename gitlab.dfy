/** The part of the GitLab API client that the scraper uses. The platform itself is
    an oracle: a fixed function from request to response, fixed for the whole run. */
module GitLab {
  import opened Wrappers
  import opened GitLabApi
  import opened Traffic

  /** A client bound to the platform's answers; every request it sends goes to the journal. */
  class Client {
    const respond: Request -> Result<Response>
    ghost const journal: Journal

    constructor (respond: Request -> Result<Response>, ghost journal: Journal)
      ensures this.respond == respond && this.journal == journal
    {
      this.respond := respond;
      this.journal := journal;
    }

    /** Groups.ListGroupProjects */
    method ListGroupProjects(gid: string, opt: ListGroupProjectsOptions) returns (r: Result<Response>)
      modifies journal
      ensures journal.events == old(journal.events) + [Sent(ProjectsRequest(gid, opt))]
      ensures r == respond(ProjectsRequest(gid, opt))
    {
      r := respond(ProjectsRequest(gid, opt));
      journal.events := journal.events + [Sent(ProjectsRequest(gid, opt))];
    }

    /** Groups.ListGroupMembers */
    method ListGroupMembers(gid: string, opt: ListGroupMembersOptions) returns (r: Result<Response>)
      modifies journal
      ensures journal.events == old(journal.events) + [Sent(MembersRequest(gid, opt))]
      ensures r == respond(MembersRequest(gid, opt))
    {
      r := respond(MembersRequest(gid, opt));
      journal.events := journal.events + [Sent(MembersRequest(gid, opt))];
    }
  }
}
