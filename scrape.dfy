/** scrape: the loop over the configured groups, the collectors it calls, the samples it
    registers with the pusher, and the single push at the end. A failed request ends
    the run before anything else is sent or pushed. */
module Scrape {
  import opened Wrappers
  import opened Labels
  import opened GitLabApi
  import opened GitLab
  import opened Metrics
  import opened Push
  import opened Traffic
  import opened ScrapeConfig
  import opened Collectors
  import opened Pipeline

  /** The body of the loop for one group: the project count if configured, then the
      member count if configured, each registered as a sample. It sends the requests
      RunGroup adds to the trace t and registers the samples RunGroup adds to its batch;
      it reports false exactly when RunGroup aborts. */
  method ScrapeGroup(defaults: Labels, group: GroupConfig, git: Client, pusher: Pusher,
                     ghost base: seq<Event>, ghost t: Trace)
    returns (ok: bool)
    requires git.journal.events == base + Sends(t.requests)
    requires t.outcome == Completed(pusher.collectors)
    modifies git.journal, pusher
    ensures git.journal.events == base + Sends(RunGroup(t, defaults, group, git.respond).requests)
    ensures ok == RunGroup(t, defaults, group, git.respond).outcome.Completed?
    ensures ok ==> RunGroup(t, defaults, group, git.respond).outcome == Completed(pusher.collectors)
  {
    if group.projectCount.Some? {
      var projectCount := GetProjectCount(git, group);
      SendsAppend(t.requests, [ProjectCountRequest(group)]);
      if projectCount.Err? {
        return false;
      }
      var labels := MergeLabels([defaults, map[GroupIdLabel := group.id]]);
      pusher.Collector(Sample(ProjectCountMetric, projectCount.value, labels));
    }
    ghost var sent := if group.projectCount.Some? then t.requests + [ProjectCountRequest(group)] else t.requests;
    if group.memberCount.Some? {
      var groupMembersCount := GetGroupMembersCount(git, group);
      SendsAppend(sent, [MemberCountRequest(group)]);
      if groupMembersCount.Err? {
        return false;
      }
      var labels := MergeLabels([defaults, map[GroupIdLabel := group.id]]);
      pusher.Collector(Sample(MembersCountMetric, groupMembersCount.value, labels));
    }
    return true;
  }

  /** Runs one scrape against the client git and the gateway at pushGatewayURL. What it
      sends, in order, is every request of Run and then, only when Run completes, one
      push of Run's batch under job gitlab_scrape. It succeeds exactly when Run completes
      and the gateway accepts the push. */
  method Scrape(config: Config, git: Client, pushGatewayURL: string,
                gateway: (string, string, seq<Sample>) -> bool)
    returns (ok: bool, pusher: Pusher)
    modifies git.journal
    ensures fresh(pusher) && pusher.url == pushGatewayURL && pusher.job == JobName
    ensures Run(config, git.respond).outcome.Completed? ==>
      && git.journal.events == old(git.journal.events) + Sends(Run(config, git.respond).requests)
                               + [Pushed(Run(config, git.respond).outcome.batch)]
      && ok == gateway(pushGatewayURL, JobName, Run(config, git.respond).outcome.batch)
    ensures Run(config, git.respond).outcome.Aborted? ==>
      && git.journal.events == old(git.journal.events) + Sends(Run(config, git.respond).requests)
      && !ok
  {
    pusher := new Pusher(pushGatewayURL, JobName, gateway, git.journal);
    ghost var start := git.journal.events;
    var groups := config.groups;
    for i := 0 to |groups|
      invariant fresh(pusher) && pusher.url == pushGatewayURL && pusher.job == JobName
      invariant pusher.gateway == gateway && pusher.journal == git.journal
      invariant git.journal.events == start + Sends(RunGroups(config.defaultLabels, groups[..i], git.respond).requests)
      invariant RunGroups(config.defaultLabels, groups[..i], git.respond).outcome == Completed(pusher.collectors)
    {
      assert groups[..i + 1][..i] == groups[..i];
      ghost var t := RunGroups(config.defaultLabels, groups[..i], git.respond);
      var groupOk := ScrapeGroup(config.defaultLabels, groups[i], git, pusher, start, t);
      if !groupOk {
        RunGroupsAbortIsFinal(config.defaultLabels, groups, i + 1, git.respond);
        return false, pusher;
      }
    }
    assert groups[..|groups|] == groups;
    ok := pusher.Push();
  }
}
