# gitlab-scraper: a Dafny model of the scrape command

The `scrape` command of gitlab-scraper reads a configuration listing GitLab groups,
asks the GitLab API, for every group, for the number of its projects and/or members,
turns every count into a Prometheus gauge labelled with the default labels and the
group's id, and pushes all gauges to a Prometheus Push Gateway in one push. Any failed
GitLab request ends the process at once, before any later group is asked and before
the push.

This project models that pipeline. The GitLab platform is an oracle, a function from
request to response fixed for the run, behind a `Client` class. The Push Gateway is an
oracle behind a `Pusher` class that holds the samples registered with it. Both classes
append what they send to one shared ghost journal, so the order of requests and the
push is part of what is proved. The process exit on a
failed request (`os.Exit(1)`) becomes an `Err` result of the collector and an
`Aborted` outcome of the run.

Modules, leaf first:

- `Wrappers` (wrappers.dfy): `Option` for Go's nil pointers, `Result` for error returns, and a sequence fact used by the inductive proofs.
- `Labels` (labels.dfy): label sets, `Merge` (the fold that specifies `mergeLabels`),
  its key and precedence lemmas, and the imperative `MergeLabels`.
- `GitLabApi` (gitlab_api.dfy): request options, requests and responses.
- `Metrics` (metrics.dfy): metric samples.
- `Traffic` (traffic.dfy): the journal of events sent, a request or a pushed batch.
- `GitLab` (gitlab.dfy): the `Client` class.
- `Push` (push.dfy): the `Pusher` class.
- `ScrapeConfig` (config.dfy): `Config`, `GroupConfig`, `ProjectCountConfig`, `MemberCountConfig`.
- `Collectors` (collectors.dfy): the requests both collectors send, and the
  imperative `GetProjectCount` and `GetGroupMembersCount`.
- `Pipeline` (pipeline.dfy): `Run`, a pure description of the loop over groups
  (requests sent and the outcome). It also holds a flat reference for `Run`: the `Plan`
  of collector jobs a configuration asks for and its `Execute`. The lemmas connect the
  two and give the run's result in closed form.
- `Scrape` (scrape.dfy): the imperative `scrape` loop, proved to send exactly the
  requests of `Run`, in order. After the last of them, it pushes `Run`'s batch exactly
  once when `Run` completes; it pushes nothing when `Run` aborts.
- `Scenarios` (scenarios.dfy): concrete runs. They cover label precedence, the
  sub-group toggle, a no-op group, an abort on the second of three groups, and a
  complete run over two groups.

The code does not check that a group's `ID` is non-empty; the model accepts any string.

## Model

| member | source | states |
|---|---|---|
| `Labels.MergeKeys` | cmd/scrape.go:176-182 | a key is in the merged label set exactly when some input set holds it |
| `Labels.MergeLastWins` | cmd/scrape.go:176-182 | a key of the merged set takes its value from the last input set that holds it |
| `Labels.MergeAppend` | cmd/scrape.go:176-182 | merging two lists in turn equals the union of their merges, with the second winning on shared keys |
| `Labels.MergeLabels` | cmd/scrape.go:176-182 | the loop that copies each set into a fresh map returns the fold `Merge`, so it has the key and precedence properties above |
| `GitLab.Client.constructor` | cmd/scrape.go:90 | a new client answers as the platform does and records into the given journal |
| `GitLab.Client.ListGroupProjects` | cmd/scrape.go:144 | one project listing is appended to the journal; its answer is the platform's answer |
| `GitLab.Client.ListGroupMembers` | cmd/scrape.go:168 | one member listing is appended to the journal; its answer is the platform's answer |
| `Push.Pusher.constructor` | cmd/scrape.go:96 | a new pusher for a gateway URL and job holds no samples |
| `Push.Pusher.Collector` | cmd/scrape.go:112 | registering a sample appends it to the batch and sends nothing |
| `Push.Pusher.Push` | cmd/scrape.go:132 | a push appends the whole registered batch to the journal once; its success is the gateway oracle's answer |
| `Collectors.ProjectCountRequest` | cmd/scrape.go:139-151 | the project request names the group and asks for page 1 with page size 1 in simple form; it includes sub-groups as configured, or excludes them when the option is absent |
| `Collectors.MemberCountRequest` | cmd/scrape.go:161-168 | the member request names the group and asks for page 1 with page size 1 |
| `Collectors.GetProjectCount` | cmd/scrape.go:138-158 | appends exactly the project request to the journal and returns the reported total unchanged, or the error |
| `Collectors.GetGroupMembersCount` | cmd/scrape.go:160-174 | appends exactly the member request to the journal and returns the reported total unchanged, or the error |
| `Pipeline.GroupLabels` | cmd/scrape.go:103 | a sample's labels are the defaults plus `group_id`; `group_id` maps to the group's id whatever the defaults say; every other default keeps its value |
| `Pipeline.RunGroup` | cmd/scrape.go:99-129 | a group with no collector configured, or a run that has already aborted, sends nothing and adds nothing; a group sends at most two requests |
| `Pipeline.GroupJobs` | cmd/scrape.go:99-129 | a group asks for one job per configured collector, at most two; the project count comes first and the member count last; every job carries the group's labels |
| `Pipeline.PlanLength` | cmd/scrape.go:98-130 | the plan has one job per configured collector across all groups |
| `Pipeline.PlanAppend` | cmd/scrape.go:98 | the jobs of earlier groups come before those of later groups |
| `Pipeline.AbortIsFinal` | cmd/scrape.go:152-155 | after a failed request, no further job sends anything or adds any sample |
| `Pipeline.RunGroupFollowsPlan` | cmd/scrape.go:99-129 | one pass of the loop body runs exactly the group's jobs, in order |
| `Pipeline.RunGroupsFollowsPlan` | cmd/scrape.go:98-130 | the loop over groups runs exactly the plan of all groups, in order |
| `Pipeline.ExecuteAllSucceed` | cmd/scrape.go:98-130 | when every request succeeds, every job's request is sent in order, and the batch holds each job's sample in order with the reported total |
| `Pipeline.ExecuteFirstFailure` | cmd/scrape.go:152-155 | when job f is the first to fail, exactly the requests of jobs 0..f are sent and the run aborts |
| `Pipeline.RunCompletesIffAllSucceed` | cmd/scrape.go:98-135 | a run reaches the push exactly when every configured collector succeeds |
| `Pipeline.RunCompleted` | cmd/scrape.go:98-130 | a completed run sent every planned request once, in order; its batch has one sample per configured collector, in group order, each carrying the total reported for its request |
| `Pipeline.RunAborted` | cmd/scrape.go:169-172 | when the f-th planned collector is the first to fail, the run aborts just after its request, and no later collector is called |
| `Pipeline.RunGroupsAbortIsFinal` | cmd/scrape.go:152-155 | once the loop has aborted at some group, the later groups change nothing |
| `Scrape.ScrapeGroup` | cmd/scrape.go:99-129 | the loop body appends the requests of `RunGroup` to the journal and registers its samples; it reports failure exactly when `RunGroup` aborts |
| `Scrape.Scrape` | cmd/scrape.go:89-136 | the journal gains exactly the requests of `Run`, in order; when `Run` completes, it then gains one push of `Run`'s batch as the last event, under job `gitlab_scrape`, and the result is the gateway's answer; when `Run` aborts, nothing is pushed and the result is failure |
| `Scenarios.LabelPrecedence` | cmd/scrape.go:176-182 | merging {env: prod} then {group_id: 42, env: staging} gives {env: staging, group_id: 42} |
| `Scenarios.SubGroupToggle` | cmd/scrape.go:139-145 | against a platform answering 10 without sub-groups and 25 with them, an absent option yields 10 and an explicit true yields 25 |
| `Scenarios.NoOpGroup` | cmd/scrape.go:99-129 | a group with neither collector sends no request and yields no sample |
| `Scenarios.AbortSkipsLaterGroups` | cmd/scrape.go:168-172 | with three groups where the second's request fails, the third group is never asked and the run aborts |
| `Scenarios.TwoGroupRun` | cmd/scrape.go:98-130 | two groups with default label team=x yield three samples, in order: the project counts of G1 and G2, then G2's member count |

## Left out

- Command-line flags, environment variables and `getRequiredValue` (cmd/scrape.go:42-87): these are CLI plumbing over cobra and viper.
- Reading the configuration file and decoding it into `Config` (cmd/scrape.go:47-65): the model starts from a built `Config` value.
- `gitlab.NewClient` and its failure path (cmd/scrape.go:90-94): the client is a parameter of `Scrape`, built by the caller.
- The HTTP transport of both services. The platform and the gateway are oracles, fixed functions of the request. A platform that answers two identical requests differently within one run is not modelled.
- The listed project and member records: only the response's total-item count is modelled, because the scraper reads nothing else.
- Gauge construction (cmd/scrape.go:105-110, 121-126): a sample keeps the metric name, value and constant labels. The help text and Prometheus's validation of metric and label names are not modelled.
- The `float64` conversion of counts (cmd/scrape.go:110, 126): floating point; sample values stay integers.
- The 64-bit width of Go's `int` for `TotalItems`: the count is passed on unchanged, so it is modelled as an unbounded integer.
- `fmt.Printf` logging: it has no effect on the outcome.
- `os.Exit(1)`: on a failed request it becomes an `Err` result and an `Aborted` run. On a failed push it becomes `Scrape` returning false. Process termination itself is not modelled.
- `maps.Copy`: it is modelled as map union where the source's pairs overwrite the destination's, which is its documented behaviour.
- `Push.Pusher.Push`: the Prometheus client's own refusals before any network call are folded into the `gateway` oracle. These are a second gauge with the same name and label values (a group listed twice for the same collector), a `job` key among the default labels, and invalid metric or label names. The model registers and pushes such samples, and a `Pushed` journal event records a push attempt, not a network send. The client library's registry is not part of this model.
