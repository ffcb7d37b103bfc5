/** Concrete runs: label precedence, the sub-group toggle, a no-op group, an abort in the
    middle of the groups, and a complete run with two groups. */
module Scenarios {
  import opened Wrappers
  import opened Labels
  import opened GitLabApi
  import opened Metrics
  import opened ScrapeConfig
  import opened Collectors
  import opened Pipeline

  /** Later label sets win on shared keys. */
  lemma LabelPrecedence()
    ensures Merge([map["env" := "prod"], map["group_id" := "42", "env" := "staging"]])
         == map["env" := "staging", "group_id" := "42"]
  {
    var sets := [map["env" := "prod"], map["group_id" := "42", "env" := "staging"]];
    forall k ensures k in Merge(sets) <==> k in {"env", "group_id"} {
      MergeKeys(sets, k);
    }
    MergeLastWins(sets, 1, "env");
    MergeLastWins(sets, 1, "group_id");
  }

  /** A platform that reports 25 projects when sub-groups are included and 10 otherwise. */
  function SubGroupPlatform(r: Request): Result<Response>
  {
    match r
    case ProjectsRequest(_, opt) => Ok(Response(if opt.includeSubGroups == Some(true) then 25 else 10))
    case MembersRequest(_, _) => Ok(Response(0))
  }

  /** An absent IncludeSubGroups counts without sub-groups; an explicit true with them. */
  lemma SubGroupToggle(id: string)
    ensures Run(Config(map[], [GroupConfig(id, Some(ProjectCountConfig(None)), None)]), SubGroupPlatform).outcome
         == Completed([Sample(ProjectCountMetric, 10, map[GroupIdLabel := id])])
    ensures Run(Config(map[], [GroupConfig(id, Some(ProjectCountConfig(Some(true))), None)]), SubGroupPlatform).outcome
         == Completed([Sample(ProjectCountMetric, 25, map[GroupIdLabel := id])])
  {
    var off := GroupConfig(id, Some(ProjectCountConfig(None)), None);
    var on := GroupConfig(id, Some(ProjectCountConfig(Some(true))), None);
    assert [off][..0] == [] && [on][..0] == [];
    assert GroupLabels(map[], id) == map[GroupIdLabel := id];
    assert RunGroups(map[], [off], SubGroupPlatform) == RunGroup(Start, map[], off, SubGroupPlatform);
    assert RunGroups(map[], [on], SubGroupPlatform) == RunGroup(Start, map[], on, SubGroupPlatform);
  }

  /** A group with no collector configured sends nothing and yields nothing, whatever
      the platform answers. */
  lemma NoOpGroup(defaults: Labels, id: string, respond: Request -> Result<Response>)
    ensures Run(Config(defaults, [GroupConfig(id, None, None)]), respond) == Start
  {
    var g := GroupConfig(id, None, None);
    assert [g][..0] == [];
    assert RunGroups(defaults, [g], respond) == RunGroup(Start, defaults, g, respond);
  }

  /** A platform on which every request about group "B" fails. */
  function FailingOnB(r: Request): Result<Response>
  {
    if r.gid == "B" then Err("forbidden") else Ok(Response(1))
  }

  /** With three groups of which the second fails, the third group's collectors are never
      called and the run aborts, so nothing is pushed. */
  lemma AbortSkipsLaterGroups()
    ensures
      var config := Config(map[], [
        GroupConfig("A", None, Some(MemberCountConfig)),
        GroupConfig("B", None, Some(MemberCountConfig)),
        GroupConfig("C", None, Some(MemberCountConfig))]);
      Run(config, FailingOnB)
        == Trace([MemberCountRequest(config.groups[0]), MemberCountRequest(config.groups[1])], Aborted)
  {
    var config := Config(map[], [
      GroupConfig("A", None, Some(MemberCountConfig)),
      GroupConfig("B", None, Some(MemberCountConfig)),
      GroupConfig("C", None, Some(MemberCountConfig))]);
    var groups := config.groups;
    assert groups[..1][..0] == groups[..0] == [];
    var t1 := RunGroups(map[], groups[..1], FailingOnB);
    assert RunGroups(map[], groups[..1][..0], FailingOnB) == Start;
    assert groups[..1][0] == groups[0];
    assert t1 == RunGroup(Start, map[], groups[0], FailingOnB);
    var jobA := MemberCountJob(map[], groups[0]);
    assert FailingOnB(jobA.request) == Ok(Response(1));
    assert t1 == Collect(Start, jobA, FailingOnB);
    assert t1.outcome.Completed? && t1.requests == [jobA.request];
    assert groups[..2][..1] == groups[..1];
    var t2 := RunGroups(map[], groups[..2], FailingOnB);
    assert groups[..2][1] == groups[1];
    assert t2 == RunGroup(t1, map[], groups[1], FailingOnB);
    assert t2 == Trace([MemberCountRequest(groups[0]), MemberCountRequest(groups[1])], Aborted);
    RunGroupsAbortIsFinal(map[], groups, 2, FailingOnB);
  }

  /** A platform holding 3 projects in G1, 7 in G2 and 2 members in G2. */
  function TwoGroupPlatform(r: Request): Result<Response>
  {
    match r
    case ProjectsRequest(gid, _) => Ok(Response(if gid == "G1" then 3 else 7))
    case MembersRequest(_, _) => Ok(Response(2))
  }

  /** Two groups, the first counting projects and the second counting both, with the
      default label team=x: three samples, in group order, project count first. */
  lemma TwoGroupRun()
    ensures
      var config := Config(map["team" := "x"], [
        GroupConfig("G1", Some(ProjectCountConfig(None)), None),
        GroupConfig("G2", Some(ProjectCountConfig(None)), Some(MemberCountConfig))]);
      Run(config, TwoGroupPlatform).outcome == Completed([
        Sample(ProjectCountMetric, 3, map["team" := "x", GroupIdLabel := "G1"]),
        Sample(ProjectCountMetric, 7, map["team" := "x", GroupIdLabel := "G2"]),
        Sample(MembersCountMetric, 2, map["team" := "x", GroupIdLabel := "G2"])])
  {
    var groups := [
      GroupConfig("G1", Some(ProjectCountConfig(None)), None),
      GroupConfig("G2", Some(ProjectCountConfig(None)), Some(MemberCountConfig))];
    var defaults := map["team" := "x"];
    assert groups[..1] == groups[..|groups| - 1];
    assert groups[..1][..0] == [];
    var l1, l2 := GroupLabels(defaults, "G1"), GroupLabels(defaults, "G2");
    assert l1 == map["team" := "x", GroupIdLabel := "G1"];
    assert l2 == map["team" := "x", GroupIdLabel := "G2"];
    var t1 := RunGroups(defaults, groups[..1], TwoGroupPlatform);
    assert RunGroups(defaults, groups[..1][..0], TwoGroupPlatform) == Start;
    assert groups[..1][0] == groups[0];
    assert t1 == RunGroup(Start, defaults, groups[0], TwoGroupPlatform);
    assert t1.outcome == Completed([Sample(ProjectCountMetric, 3, l1)]);
    assert RunGroups(defaults, groups, TwoGroupPlatform) == RunGroup(t1, defaults, groups[1], TwoGroupPlatform);
  }
}
