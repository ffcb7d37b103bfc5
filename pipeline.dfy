/** What one run of scrape does, as a function of the configuration and of the platform's
    answers: which requests it sends, in which order, and whether it ends with a batch
    to push or aborts. Beside it, a flat reference: the plan of collector jobs the
    configuration asks for, and the closed-form result of running that plan. */
module Pipeline {
  import opened Wrappers
  import opened Labels
  import opened GitLabApi
  import opened Metrics
  import opened ScrapeConfig
  import opened Collectors

  const ProjectCountMetric := "gitlab_group_project_count"
  const MembersCountMetric := "gitlab_group_members_count"
  const GroupIdLabel := "group_id"
  const JobName := "gitlab_scrape"

  /** The labels of every sample of a group: the defaults, then the group's id. */
  function GroupLabels(defaults: Labels, groupId: string): (labels: Labels)
    ensures labels.Keys == defaults.Keys + {GroupIdLabel}
    ensures labels[GroupIdLabel] == groupId
    ensures forall k :: k in defaults && k != GroupIdLabel ==> labels[k] == defaults[k]
  {
    var sets := [defaults, map[GroupIdLabel := groupId]];
    MergeLastWins(sets, 1, GroupIdLabel);
    forall k | k in defaults && k != GroupIdLabel
      ensures Merge(sets)[k] == defaults[k]
    {
      MergeLastWins(sets, 0, k);
    }
    forall k
      ensures k in Merge(sets) <==> k in defaults.Keys + {GroupIdLabel}
    {
      MergeKeys(sets, k);
    }
    Merge(sets)
  }

  /** One collector invocation: the metric it feeds, the request it sends and the
      labels of the sample it yields. */
  datatype Job = Job(metric: string, request: Request, labels: Labels)

  /** How a run ends: with the batch to push, or aborted by a failed request. */
  datatype Outcome = Completed(batch: seq<Sample>) | Aborted

  /** The requests sent so far and the outcome so far. */
  datatype Trace = Trace(requests: seq<Request>, outcome: Outcome)

  /** Nothing sent, nothing collected. */
  const Start := Trace([], Completed([]))

  /** The sample a job yields for a response. */
  function SampleOf(job: Job, resp: Response): Sample
  {
    Sample(job.metric, resp.totalItems, job.labels)
  }

  /** Runs one collector: an aborted run stays as it is; otherwise the request is sent,
      and the run either gains one sample or aborts. */
  function Collect(t: Trace, job: Job, respond: Request -> Result<Response>): Trace
  {
    match t.outcome
    case Aborted => t
    case Completed(batch) =>
      match respond(job.request)
      case Err(_) => Trace(t.requests + [job.request], Aborted)
      case Ok(resp) => Trace(t.requests + [job.request], Completed(batch + [SampleOf(job, resp)]))
  }

  function ProjectCountJob(defaults: Labels, group: GroupConfig): Job
    requires group.projectCount.Some?
  {
    Job(ProjectCountMetric, ProjectCountRequest(group), GroupLabels(defaults, group.id))
  }

  function MemberCountJob(defaults: Labels, group: GroupConfig): Job
  {
    Job(MembersCountMetric, MemberCountRequest(group), GroupLabels(defaults, group.id))
  }

  /** The body of the loop over groups: the project count if configured, then the
      member count if configured. */
  function RunGroup(t: Trace, defaults: Labels, group: GroupConfig, respond: Request -> Result<Response>): (r: Trace)
    ensures t.outcome.Aborted? ==> r == t
    ensures group.projectCount.None? && group.memberCount.None? ==> r == t
    ensures |r.requests| <= |t.requests| + 2
  {
    var afterProjects :=
      if group.projectCount.Some? then Collect(t, ProjectCountJob(defaults, group), respond) else t;
    if group.memberCount.Some? then Collect(afterProjects, MemberCountJob(defaults, group), respond)
    else afterProjects
  }

  /** The loop over groups, in configuration order. */
  function RunGroups(defaults: Labels, groups: seq<GroupConfig>, respond: Request -> Result<Response>): Trace
    decreases |groups|
  {
    if groups == [] then Start
    else RunGroup(RunGroups(defaults, groups[..|groups| - 1], respond), defaults, groups[|groups| - 1], respond)
  }

  /** The collection phase of scrape; the push follows exactly when it completes. */
  function Run(config: Config, respond: Request -> Result<Response>): Trace
  {
    RunGroups(config.defaultLabels, config.groups, respond)
  }

  // ---------------------------------------------------------------------------
  // The reference: the plan of jobs and its execution

  /** The jobs a group asks for, project count first. */
  function GroupJobs(defaults: Labels, group: GroupConfig): (jobs: seq<Job>)
    ensures |jobs| == Enabled(group) <= 2
    ensures jobs == [] <==> group.projectCount.None? && group.memberCount.None?
    ensures group.projectCount.Some? ==>
      jobs[0].metric == ProjectCountMetric && jobs[0].request == ProjectCountRequest(group)
    ensures group.memberCount.Some? ==>
      jobs[|jobs| - 1].metric == MembersCountMetric && jobs[|jobs| - 1].request == MemberCountRequest(group)
    ensures forall i :: 0 <= i < |jobs| ==> jobs[i].labels == GroupLabels(defaults, group.id)
  {
    (if group.projectCount.Some? then [ProjectCountJob(defaults, group)] else [])
    + (if group.memberCount.Some? then [MemberCountJob(defaults, group)] else [])
  }

  /** The jobs of all groups, group after group. */
  function Plan(defaults: Labels, groups: seq<GroupConfig>): seq<Job>
    decreases |groups|
  {
    if groups == [] then []
    else Plan(defaults, groups[..|groups| - 1]) + GroupJobs(defaults, groups[|groups| - 1])
  }

  /** Runs a list of jobs one after the other. */
  function Execute(t: Trace, jobs: seq<Job>, respond: Request -> Result<Response>): Trace
    decreases |jobs|
  {
    if jobs == [] then t
    else Collect(Execute(t, jobs[..|jobs| - 1], respond), jobs[|jobs| - 1], respond)
  }

  /** The number of collectors a group enables. */
  function Enabled(group: GroupConfig): nat
  {
    (if group.projectCount.Some? then 1 else 0) + (if group.memberCount.Some? then 1 else 0)
  }

  /** The number of collectors all groups enable. */
  function EnabledCount(groups: seq<GroupConfig>): nat
    decreases |groups|
  {
    if groups == [] then 0
    else EnabledCount(groups[..|groups| - 1]) + Enabled(groups[|groups| - 1])
  }

  // ---------------------------------------------------------------------------
  // Properties of the plan

  /** Every request of a list of jobs is answered with success. */
  ghost predicate AllSucceed(jobs: seq<Job>, respond: Request -> Result<Response>)
  {
    forall i :: 0 <= i < |jobs| ==> respond(jobs[i].request).Ok?
  }

  /** Job f is the first of the list whose request fails. */
  ghost predicate FirstFailure(jobs: seq<Job>, respond: Request -> Result<Response>, f: nat)
  {
    && f < |jobs|
    && respond(jobs[f].request).Err?
    && forall i :: 0 <= i < f ==> respond(jobs[i].request).Ok?
  }

  /** The requests sent are exactly those of the jobs, in order. */
  ghost predicate Sent(requests: seq<Request>, jobs: seq<Job>)
  {
    |requests| == |jobs| && forall i :: 0 <= i < |jobs| ==> requests[i] == jobs[i].request
  }

  /** The batch holds one sample per job, in order, each carrying the reported total. */
  ghost predicate Yields(batch: seq<Sample>, jobs: seq<Job>, respond: Request -> Result<Response>)
  {
    && |batch| == |jobs|
    && forall i :: 0 <= i < |jobs| ==>
         respond(jobs[i].request).Ok? && batch[i] == SampleOf(jobs[i], respond(jobs[i].request).value)
  }

  /** The plan has one job per enabled collector. */
  lemma {:induction false} PlanLength(defaults: Labels, groups: seq<GroupConfig>)
    ensures |Plan(defaults, groups)| == EnabledCount(groups)
    decreases |groups|
  {
    if groups != [] {
      PlanLength(defaults, groups[..|groups| - 1]);
    }
  }

  /** The jobs of earlier groups come before the jobs of later groups. */
  lemma {:induction false} PlanAppend(defaults: Labels, a: seq<GroupConfig>, b: seq<GroupConfig>)
    ensures Plan(defaults, a + b) == Plan(defaults, a) + Plan(defaults, b)
    decreases |b|
  {
    if b == [] {
      assert a + b == a;
    } else {
      var n := |b| - 1;
      DropLast(a, b);
      PlanAppend(defaults, a, b[..n]);
      var last := GroupJobs(defaults, b[n]);
      calc {
        Plan(defaults, a + b);
        Plan(defaults, a + b[..n]) + last;
        (Plan(defaults, a) + Plan(defaults, b[..n])) + last;
        Plan(defaults, a) + (Plan(defaults, b[..n]) + last);
        Plan(defaults, a) + Plan(defaults, b);
      }
    }
  }

  /** Running two lists of jobs one after the other is running their concatenation. */
  lemma {:induction false} ExecuteAppend(t: Trace, a: seq<Job>, b: seq<Job>, respond: Request -> Result<Response>)
    ensures Execute(t, a + b, respond) == Execute(Execute(t, a, respond), b, respond)
    decreases |b|
  {
    if b == [] {
      assert a + b == a;
    } else {
      DropLast(a, b);
      ExecuteAppend(t, a, b[..|b| - 1], respond);
    }
  }

  /** Once aborted, a run sends nothing more and collects nothing more. */
  lemma {:induction false} AbortIsFinal(t: Trace, jobs: seq<Job>, respond: Request -> Result<Response>)
    requires t.outcome.Aborted?
    ensures Execute(t, jobs, respond) == t
    decreases |jobs|
  {
    if jobs != [] {
      AbortIsFinal(t, jobs[..|jobs| - 1], respond);
    }
  }

  /** Running one job is collecting it. */
  lemma ExecuteOne(t: Trace, job: Job, respond: Request -> Result<Response>)
    ensures Execute(t, [job], respond) == Collect(t, job, respond)
  {
    assert [job][..0] == [];
  }

  /** The loop body runs exactly the group's jobs. */
  lemma RunGroupFollowsPlan(t: Trace, defaults: Labels, group: GroupConfig, respond: Request -> Result<Response>)
    ensures RunGroup(t, defaults, group, respond) == Execute(t, GroupJobs(defaults, group), respond)
  {
    var projects := if group.projectCount.Some? then [ProjectCountJob(defaults, group)] else [];
    var members := if group.memberCount.Some? then [MemberCountJob(defaults, group)] else [];
    assert GroupJobs(defaults, group) == projects + members;
    ExecuteAppend(t, projects, members, respond);
    var afterProjects := Execute(t, projects, respond);
    if group.projectCount.Some? {
      ExecuteOne(t, ProjectCountJob(defaults, group), respond);
    }
    if group.memberCount.Some? {
      ExecuteOne(afterProjects, MemberCountJob(defaults, group), respond);
    }
  }

  /** The loop over groups runs exactly the plan of all groups. */
  lemma {:induction false} RunGroupsFollowsPlan(defaults: Labels, groups: seq<GroupConfig>, respond: Request -> Result<Response>)
    ensures RunGroups(defaults, groups, respond) == Execute(Start, Plan(defaults, groups), respond)
    decreases |groups|
  {
    if groups != [] {
      var n := |groups| - 1;
      RunGroupsFollowsPlan(defaults, groups[..n], respond);
      RunGroupFollowsPlan(RunGroups(defaults, groups[..n], respond), defaults, groups[n], respond);
      ExecuteAppend(Start, Plan(defaults, groups[..n]), GroupJobs(defaults, groups[n]), respond);
    }
  }

  /** When every request succeeds, every job's request is sent, in order, and the
      batch holds every job's sample, in order. */
  lemma {:induction false} ExecuteAllSucceed(jobs: seq<Job>, respond: Request -> Result<Response>)
    requires AllSucceed(jobs, respond)
    ensures Execute(Start, jobs, respond).outcome.Completed?
    ensures Sent(Execute(Start, jobs, respond).requests, jobs)
    ensures Yields(Execute(Start, jobs, respond).outcome.batch, jobs, respond)
    decreases |jobs|
  {
    if jobs != [] {
      var n := |jobs| - 1;
      var init := jobs[..n];
      assert forall i :: 0 <= i < n ==> init[i] == jobs[i];
      ExecuteAllSucceed(init, respond);
    }
  }

  /** When job f is the first to fail, the requests of jobs 0..f and no others are sent,
      and the run aborts. */
  lemma {:induction false} ExecuteFirstFailure(jobs: seq<Job>, respond: Request -> Result<Response>, f: nat)
    requires FirstFailure(jobs, respond, f)
    ensures Execute(Start, jobs, respond).outcome.Aborted?
    ensures Sent(Execute(Start, jobs, respond).requests, jobs[..f + 1])
  {
    var done, rest := jobs[..f + 1], jobs[f + 1..];
    assert jobs == done + rest;
    ExecuteAppend(Start, done, rest, respond);
    var init := done[..f];
    assert init == jobs[..f];
    assert AllSucceed(init, respond);
    ExecuteAllSucceed(init, respond);
    AbortIsFinal(Execute(Start, done, respond), rest, respond);
  }

  /** A list in which some request fails has a first failing job. */
  lemma {:induction false} FirstFailureExists(jobs: seq<Job>, respond: Request -> Result<Response>) returns (f: nat)
    requires !AllSucceed(jobs, respond)
    ensures FirstFailure(jobs, respond, f)
    decreases |jobs|
  {
    var n := |jobs| - 1;
    var init := jobs[..n];
    if AllSucceed(init, respond) {
      f := n;
    } else {
      f := FirstFailureExists(init, respond);
      assert init[f] == jobs[f];
    }
  }

  /** A run completes exactly when every collector the configuration enables succeeds. */
  lemma RunCompletesIffAllSucceed(config: Config, respond: Request -> Result<Response>)
    ensures Run(config, respond).outcome.Completed? <==>
      AllSucceed(Plan(config.defaultLabels, config.groups), respond)
  {
    var jobs := Plan(config.defaultLabels, config.groups);
    RunGroupsFollowsPlan(config.defaultLabels, config.groups, respond);
    if AllSucceed(jobs, respond) {
      ExecuteAllSucceed(jobs, respond);
    } else {
      var f := FirstFailureExists(jobs, respond);
      ExecuteFirstFailure(jobs, respond, f);
    }
  }

  /** A completed run has sent every planned request once, in order, and its batch holds
      one sample per enabled collector, group after group, each carrying the total the
      platform reported for that request. */
  lemma RunCompleted(config: Config, respond: Request -> Result<Response>)
    requires Run(config, respond).outcome.Completed?
    ensures |Run(config, respond).outcome.batch| == EnabledCount(config.groups)
    ensures Sent(Run(config, respond).requests, Plan(config.defaultLabels, config.groups))
    ensures Yields(Run(config, respond).outcome.batch, Plan(config.defaultLabels, config.groups), respond)
  {
    var jobs := Plan(config.defaultLabels, config.groups);
    RunCompletesIffAllSucceed(config, respond);
    RunGroupsFollowsPlan(config.defaultLabels, config.groups, respond);
    ExecuteAllSucceed(jobs, respond);
    PlanLength(config.defaultLabels, config.groups);
  }

  /** When the f-th planned collector is the first to fail, the run aborts right after
      sending its request: no later collector is called. */
  lemma RunAborted(config: Config, respond: Request -> Result<Response>, f: nat)
    requires FirstFailure(Plan(config.defaultLabels, config.groups), respond, f)
    ensures Run(config, respond).outcome.Aborted?
    ensures Sent(Run(config, respond).requests, Plan(config.defaultLabels, config.groups)[..f + 1])
  {
    RunGroupsFollowsPlan(config.defaultLabels, config.groups, respond);
    ExecuteFirstFailure(Plan(config.defaultLabels, config.groups), respond, f);
  }

  /** Once the loop over groups has aborted, later groups change nothing. */
  lemma {:induction false} RunGroupsAbortIsFinal(defaults: Labels, groups: seq<GroupConfig>, i: nat, respond: Request -> Result<Response>)
    requires i <= |groups|
    requires RunGroups(defaults, groups[..i], respond).outcome.Aborted?
    ensures RunGroups(defaults, groups, respond) == RunGroups(defaults, groups[..i], respond)
    decreases |groups| - i
  {
    if i < |groups| {
      var next := groups[..i + 1];
      assert next[..|next| - 1] == groups[..i];
      RunGroupsAbortIsFinal(defaults, groups, i + 1, respond);
    } else {
      assert groups[..i] == groups;
    }
  }
}
