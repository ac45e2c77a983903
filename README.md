# RunBook Ranger remediation pipeline in Dafny

This project models the core of RunBook Ranger, an incident-remediation engine. The pipeline has five stages:

- **Ingest.** An alarm state-change event is validated. A state other than `ALARM` is ignored. Otherwise a new OPEN, HIGH-severity incident is saved.
- **Matching.** The incident is matched against an ordered catalog of runbooks on the alarm-name prefix and the metric namespace. The first match wins.
- **Planning.** Every `${a.b.c}` token in the runbook's parameters is resolved against the event, and a remediation plan is saved. The plan needs approval exactly when one of its actions does.
- **Execution, or a pause.** The plan either pauses for approval, or its actions run in order against the infrastructure and stop at the first failure. Every step writes action-log entries.
- **Final state.** The incident ends RESOLVED or FAILED.

One module per source file:

| module | file | what it holds |
|---|---|---|
| `Models` | `models.dfy` | incident, plan and action-log records, their enums and defaults |
| `RunbookModels` | `runbook_models.dfy` | action definitions, match criteria, runbooks |
| `Loader` | `loader.dfy` | `find_matching_runbook` as a recursive first-match search |
| `Resolver` | `resolver.dfy` | `_resolve_vars` / `_resolve_params`: token scanning, path walking and substitution |
| `Planner` | `planner.dfy` | context building, the plan-building loop, `handler_manual_trigger` |
| `Storage` | `storage.dfy` | the store's value (`Store`) and the `LocalStorage` class |
| `Ingest` | `ingest.dfy` | event classification and the ingest `handler` |
| `Executor` | `executor.dfy` | `execute_plan`: the action loop, log entries, final state |
| `Orchestrator` | `orchestrator.dfy` | `process_event` and `resume_approval` |
| `Actions` | `actions.dfy` | `ActionHandler`'s four handlers and the `execute` dispatch |
| `AwsMock` | `aws_mock.dfy` | the mocked auto-scaling, ECS and SSM clients and their shared state tables |

Three further modules support these, and none of them has a source file of its own:

- `Wrappers` holds `Option` and `Result`.
- `Values` holds the JSON-like `Value` type with Python truthiness, `dict.get`, `str()` and `int()`.
- `Scenario` holds the end-to-end run of a high-CPU alarm.

Every state-changing stage is written twice:

- a pure function over the `Store` value, for example `Executor.Execute` or `Orchestrator.Process`;
- an imperative method on the `LocalStorage` object, for example `Executor.ExecutePlan` or `Orchestrator.Pipeline.ProcessEvent`.

Each method is proved to leave the object in exactly the state the function computes. The properties are then proved as lemmas about the functions.

The executor is generic in the infrastructure state `S`. The action-execution capability it calls takes `S`, an action type and parameters, and returns the action's result or error together with the new `S`. `Actions.Perform` is the capability the repository's handlers implement on the mock auto-scaling table. The methods of `Actions.ActionHandler` are proved to compute `Perform` on the shared mock tables.

Nondeterministic inputs and formatting are parameters:

- uuid4 ids and clock readings are passed in. `Orchestrator.Drawn` bundles them for one run. An action's log timestamp is `stamps(k)` for the k-th action.
- `str()` of a list or a dict is left to a `repr` parameter. Strings, integers, booleans and None are rendered as Python renders them.

Points where the code does less than its surroundings suggest, which the model keeps as the code has them:

- There is no idempotency check and no resource lock. They appear only as TODO comments at `src/executor/handler.py:25-26`. The locks table that `infra/stacks/ranger_stack.py:50-55` provisions is never read or written by the executor.
- `resume_approval` does not check the incident's state (`Orchestrator.ResumeIgnoresState`).
- A failing action's FAILED status and error are set on the log object but never stored, because the `break` skips the second `log_action`. So only the failing action's IN_PROGRESS entry is kept.
- A successful action stores two entries, IN_PROGRESS and then SUCCESS, so the end-to-end run leaves two entries for its one action (`Scenario.EndToEnd`).

## Model

| member | source | states |
|---|---|---|
| Models.ParseIncidentState | src/shared/models.py:7-11 | a stored state string is read back as the state whose value it is, and exactly the four strings OPEN, MITIGATING, RESOLVED, FAILED are accepted |
| Models.IncidentStateRoundTrip | src/shared/models.py:7-11 | every incident state survives being stored as its string value and read back |
| Models.ParseActionStatus | src/shared/models.py:36-41 | exactly PENDING, IN_PROGRESS, SUCCESS, FAILED, SKIPPED are action statuses, each read back as itself |
| Models.ActionStatusRoundTrip | src/shared/models.py:36-41 | every action status survives being stored as its string value and read back |
| Models.NewIncident | src/shared/models.py:19-27 | a new incident carries the given fresh id, alarm name, summary and time, and defaults to OPEN, MEDIUM, no resolution time and an empty event |
| Models.NewPlan | src/shared/models.py:29-34 | a new plan is version "v1", needs no approval and has no actions |
| Models.NewActionLog | src/shared/models.py:43-48 | a new log entry has the required status it is given and empty details |
| RunbookModels.NewActionDef | src/shared/runbook_models.py:6-10 | id, type and params are required and safety defaults to the empty map |
| RunbookModels.NoCriteria | src/shared/runbook_models.py:12-15 | every match criterion defaults to None |
| Loader.FindMatchingRunbook | src/planner/loader.py:23-39 | a returned runbook is in the catalog, satisfies both criteria, and no earlier runbook does; None exactly when no runbook satisfies them |
| Loader.FirstMatchIsReturned | src/planner/loader.py:29-38 | if the i-th runbook matches and none before it does, the i-th runbook is the result, whatever later runbooks match |
| Loader.DimensionsAreIgnored | src/planner/loader.py:29-38 | two catalogs that differ only in the runbooks' `dimensions` criteria give the same result |
| Loader.HighCpuCatalogExpectations | tests/unit/test_loader.py:6-14 | ("ec2-high-cpu-prod", "AWS/EC2") finds `high_cpu_ec2_mitigate` and ("random-alarm", "AWS/RDS") finds nothing |
| Resolver.SplitThenJoin | src/planner/handler.py:18 | joining the parts of a split with the separator gives back the original path |
| Resolver.SplitNoSeparator | src/planner/handler.py:18 | a path without a dot is a single key |
| Resolver.SplitAtSeparator | src/planner/handler.py:18 | splitting "key.rest" gives key followed by the parts of rest |
| Resolver.JoinThenSplit | src/planner/handler.py:18 | splitting the join of dot-free keys gives back the keys |
| Resolver.Walk | src/planner/handler.py:19-26 | a walk that succeeds along a non-empty path never ends on None |
| Resolver.WalkAppend | src/planner/handler.py:19-26 | walking p followed by q is walking p and then walking q from where p ended |
| Resolver.WalkFailsIffBlocked | src/planner/handler.py:20-26 | a walk fails exactly when at some step the current value is not a dict, or the key is missing or maps to None |
| Resolver.CloseBrace | src/planner/handler.py:15 | the brace found is the first `}` from the start position, with no newline before it |
| Resolver.CloseBraceAfter | src/planner/handler.py:15 | a `}` preceded only by characters other than `}` and newline is the one found |
| Resolver.ResolveParams | src/planner/handler.py:31-35 | resolution returns a map with exactly the input's keys |
| Resolver.NonStringParamUnchanged | src/planner/handler.py:12-13 | a non-string parameter value is returned unchanged |
| Resolver.NoTokenUnchanged | src/planner/handler.py:15-29 | text in which the token pattern matches at no position is returned unchanged, even if it contains `${` |
| Resolver.UnclosedOpenerUnchanged | src/planner/handler.py:15 | an opener with no closing brace, or with a newline before it, is not a token: `"${abc"` and `"${\n}"` come back as they are |
| Resolver.PlainParamsUnchanged | src/planner/handler.py:31-35 | parameters whose strings contain no `$` resolve to themselves |
| Resolver.PlainPrefixCopied | src/planner/handler.py:29 | text without `$` is copied and the rest is scanned on its own |
| Resolver.TokenReplaced | src/planner/handler.py:17-27 | a token becomes `str()` of what its path walks to, or stays verbatim when the walk fails, and the text after it is resolved independently |
| Resolver.SingleKeyToken | src/planner/handler.py:17-27 | a one-key token resolves to the key's rendered value when present and not None, and stays verbatim otherwise |
| Resolver.AbsentFirstKeyVerbatim | src/planner/handler.py:20-26 | a token whose first key is absent stays verbatim |
| Resolver.AbsentDottedPathVerbatim | src/planner/handler.py:20-26 | a dotted token `${first.rest}` whose first key is absent stays verbatim |
| Resolver.FalsyValuesSubstitute | src/planner/handler.py:25-27 | falsy values "" and 0 still substitute |
| Resolver.MissingPathVerbatim | src/planner/handler.py:20-26 | `${missing.path}` in an empty context stays verbatim |
| Resolver.SubstitutedTextNotRescanned | src/planner/handler.py:29 | a substituted value that itself looks like a token is inserted as it is, not resolved again |
| Values.GetDict | src/planner/handler.py:50-51 | `d.get(key, {})` followed by `.get`: a missing key gives the empty dict, a dict value is returned, and any other value raises |
| Values.ParseShowInt | src/shared/actions.py:6 | `int()` of an integer's decimal rendering gives the integer back |
| Values.IntOfRenderedInt | src/planner/handler.py:27 | an integer substituted into a parameter string, alone, is read back by `int()` as that integer |
| Planner.ContextFromDetail | src/planner/handler.py:50-66 | the context is the event's detail changed only in `dimensions` and `namespace`; with metrics both are the first metric's `metricStat.metric` values, defaulting to "Unknown" and the empty dict; without metrics the context is the detail and the namespace is "Unknown" |
| Planner.PlanActions | src/planner/handler.py:79-87 | the reference definition the plan-building loop (`Planner.BuildActions`) is proved against: one plan entry per runbook action, in order, each with id, type, resolved params and the safety map |
| Planner.BuildActions | src/planner/handler.py:76-89 | the loop builds exactly the runbook-ordered plan entries, and raises the approval flag exactly when some action's `approval_required` is truthy |
| Planner.PlanFailures | src/planner/handler.py:45-73 | a missing incident raises; the result is None exactly when no runbook matches; neither saves anything |
| Planner.GeneratedPlan | src/planner/handler.py:79-97 | a generated plan belongs to the incident, is "v1", lists the matched runbook's actions in order with resolved params and verbatim safety, needs approval exactly when some action does, and is the plan saved |
| Planner.HandlerManualTrigger | src/planner/handler.py:37-99 | the handler returns what `Plan` specifies and leaves the store as `AfterPlan` specifies |
| Storage.EmptyStore | src/shared/storage.py:17-21 | a store over empty files is well formed |
| Storage.FreshStoreIsEmpty | src/shared/storage.py:37-57 | a never-saved id has no incident, no plan and no log entries |
| Storage.SaveIncidentThenGet | src/shared/storage.py:32-41 | after saving, the incident is what its id looks up; other incidents, plans and logs are unchanged |
| Storage.SavePlanOverwrites | src/shared/storage.py:48-51 | a saved plan replaces any earlier plan of that incident whatever the versions; other plans are unchanged |
| Storage.LogActionAppends | src/shared/storage.py:60-65 | logging appends after the incident's earlier entries, creating the list if absent, and leaves other incidents' lists alone |
| Storage.LogActionIsAppend | src/shared/storage.py:60-65 | logging entries one at a time is appending them all in order |
| Storage.AppendLogsAppends | src/shared/storage.py:60-65 | appending entries extends exactly that incident's list and changes nothing else |
| Storage.OperationsPreserveWellFormed | src/shared/storage.py:32-65 | every save keeps each record under its own id and the incident key order duplicate-free |
| Storage.SaveIncidentKeepsWellFormed | src/shared/storage.py:32-35 | saving an incident keeps each record under its own id and the key order duplicate-free; a new id goes to the end of the key order and an existing id keeps its place |
| Storage.SavePlanKeepsWellFormed | src/shared/storage.py:48-51 | saving a plan keeps every plan under its own incident id |
| Storage.LogActionKeepsWellFormed | src/shared/storage.py:60-65 | logging an entry keeps every log entry under its own incident |
| Storage.ListIncidentsExact | src/shared/storage.py:43-45 | an id is listed exactly when it was saved, once, with its latest value |
| Storage.LocalStorage.constructor | src/shared/storage.py:10-21 | a store over absent files is empty and well formed |
| Storage.LocalStorage.SaveIncident | src/shared/storage.py:32-35 | the object's new state is the old state with the incident saved |
| Storage.LocalStorage.GetIncident | src/shared/storage.py:37-41 | returns the saved incident, or None |
| Storage.LocalStorage.ListIncidents | src/shared/storage.py:43-45 | the loop returns the stored incidents in key order |
| Storage.LocalStorage.SavePlan | src/shared/storage.py:48-51 | the object's new state is the old state with the plan saved |
| Storage.LocalStorage.GetPlan | src/shared/storage.py:53-57 | returns the saved plan, or None |
| Storage.LocalStorage.LogAction | src/shared/storage.py:60-65 | the object's new state is the old state with the entry appended |
| Ingest.RejectAndIgnore | src/ingest/handler.py:15-25 | 400 exactly when alarm name or state value is missing or falsy, "Ignored" exactly when both are present and the state is not "ALARM", and neither saves anything |
| Ingest.AlarmCreatesIncident | src/ingest/handler.py:27-57 | an ALARM event with a string reason saves one incident under the fresh id (OPEN, HIGH, the reason as summary, the whole event) and answers 200 with that id; without a reason the summary is "No reason provided" |
| Ingest.IngestKeepsWellFormed | src/ingest/handler.py:39 | ingestion keeps the store well formed |
| Ingest.Handler | src/ingest/handler.py:7-57 | the handler returns the response or error `Ingestion` specifies and leaves the store as it specifies |
| Executor.RunShape | src/executor/handler.py:20-48 | at most one outcome per action, all but the last succeeded, and the run either completes every action or ends with an error |
| Executor.RunSnoc | src/executor/handler.py:20-50 | after successes, one more action runs on the state they left |
| Executor.RunStopsAtFailure | src/executor/handler.py:43-48 | after a failure no later action runs or changes the state |
| Executor.RunInOrder | src/executor/handler.py:20-37 | the k-th outcome is the capability applied to the k-th action on the state the first k actions left, and all of those succeeded |
| Executor.RunLogEntries | src/executor/handler.py:28-50 | action k has an IN_PROGRESS entry at index 2k and, if it succeeded, a SUCCESS entry with its result at 2k+1; every entry belongs to the incident |
| Executor.ExecuteWithoutPlanOrIncident | src/executor/handler.py:7-16 | with no plan, or no incident record, nothing changes |
| Executor.ExecuteFinalState | src/executor/handler.py:53-61 | RESOLVED with the resolution time exactly when every action succeeded, else FAILED with `resolved_at` untouched; other incidents and plans unchanged |
| Executor.ExecuteLogs | src/executor/handler.py:20-50 | the incident's log grows by 2n when all n actions succeed and by 2k+1 when action k+1 fails first; other logs untouched |
| Executor.ExecuteKeepsWellFormed | src/executor/handler.py:14-61 | execution keeps the store well formed |
| Executor.EmptyPlanResolves | src/executor/handler.py:18-61 | an empty plan resolves the incident and writes no log entry |
| Executor.LoggedSuccess | src/executor/handler.py:33-50 | storing a succeeding action's two entries extends the run's log by its step |
| Executor.LoggedFailure | src/executor/handler.py:33-48 | storing a failing action's IN_PROGRESS entry extends the run's log by its step |
| Executor.RunContinues | src/executor/handler.py:35-50 | a succeeding action extends a run that has succeeded so far |
| Executor.RunEnds | src/executor/handler.py:43-48 | a failing action ends the whole run with its error |
| Executor.RunActions | src/executor/handler.py:18-50 | the loop runs only once the incident is saved as MITIGATING; its flag is whether every action succeeded, it leaves the infrastructure and the log as the run specifies, and it changes no incident or plan, so the incident stays MITIGATING while the actions run |
| Executor.ExecutePlan | src/executor/handler.py:6-61 | `execute_plan` leaves store and infrastructure as `Execute` specifies |
| Orchestrator.IngestionGate | src/simulation/orchestrator.py:20-23 | a raising, non-200 or ignored ingestion stops before planning, with no plan and no action run |
| Orchestrator.NoRunbookStaysOpen | src/simulation/orchestrator.py:31-34 | without a matching runbook the new incident stays OPEN, and no plan or log is written |
| Orchestrator.ApprovalPauses | src/simulation/orchestrator.py:37-44 | a plan needing approval is saved, the incident becomes MITIGATING, and no log entry or infrastructure change happens |
| Orchestrator.AutoExecution | src/simulation/orchestrator.py:47-49 | a plan needing no approval is executed at once on the store holding it |
| Orchestrator.ResumeIgnoresState | src/simulation/orchestrator.py:51-55 | execution does not depend on the incident's recorded state, so resuming a RESOLVED or FAILED incident runs its plan again |
| Orchestrator.Pipeline.ProcessEvent | src/simulation/orchestrator.py:17-49 | `process_event` leaves the store and the infrastructure as `Process` specifies |
| Orchestrator.Pipeline.ResumeApproval | src/simulation/orchestrator.py:51-55 | `resume_approval` is execution of the stored plan |
| Actions.ScaleAsgOnExistingGroup | src/shared/actions.py:4-21 | scaling an existing group sets its capacity to old plus adjustment and reports both; other groups unchanged |
| Actions.DefaultAdjustmentIsOne | src/shared/actions.py:6 | with no adjustment given, scaling adds one |
| Actions.ScaleAsgFailureChangesNothing | src/shared/actions.py:10-13 | an unknown group, or an adjustment `int()` rejects, raises and changes no capacity |
| Actions.OnlyScaleAsgChangesState | src/shared/actions.py:23-52 | only a successful `scale_asg` changes infrastructure state |
| Actions.DispatchOutcomes | src/shared/actions.py:54-57 | an unknown action type raises; the other handlers return their fixed payloads |
| Actions.ActionHandler.ScaleAsg | src/shared/actions.py:4-21 | the read–add–write on the shared table computes `ScaleAsgEffect` |
| Actions.ActionHandler.SsmRestartService | src/shared/actions.py:23-34 | returns the mock's fixed command id |
| Actions.ActionHandler.ScaleEcsService | src/shared/actions.py:37-44 | returns the fixed payload unless `int()` rejects the adjustment |
| Actions.ActionHandler.RollbackDeployment | src/shared/actions.py:46-52 | returns the fixed payload |
| Actions.ActionHandler.Execute | src/shared/actions.py:54-57 | dispatch computes `Perform` on the shared table |
| AwsMock.DescribedConcat | src/shared/aws_mock.py:24-33 | describing a + b is describing a, then b |
| AwsMock.DescribedSingle | src/shared/aws_mock.py:24-33 | one name gives its current values if it exists, nothing otherwise |
| AwsMock.DescribedSound | src/shared/aws_mock.py:24-33 | every described entry is a requested, existing group with its current values |
| AwsMock.DescribedComplete | src/shared/aws_mock.py:24-33 | every requested existing name is described |
| AwsMock.SetCapacity | src/shared/aws_mock.py:35-42 | only an existing group's desired capacity changes |
| AwsMock.SetCapacityAbsentIsNoOp | src/shared/aws_mock.py:36 | setting an absent group's capacity changes nothing |
| AwsMock.SetCapacityAboveMax | src/shared/aws_mock.py:38-41 | a capacity above MaxSize is still stored |
| AwsMock.WithServiceCount | src/shared/aws_mock.py:48-52 | only the "cluster/service" entry's count changes, and only if it exists |
| AwsMock.MockAutoScaling.DescribeAutoScalingGroups | src/shared/aws_mock.py:24-33 | the loop returns `Described` of the requested names |
| AwsMock.MockAutoScaling.SetDesiredCapacity | src/shared/aws_mock.py:35-42 | the shared table becomes `SetCapacity` of its old value |
| AwsMock.MockECS.UpdateService | src/shared/aws_mock.py:48-52 | the shared table becomes `WithServiceCount` of its old value |
| AwsMock.MockSSM.SendCommand | src/shared/aws_mock.py:55-57 | always returns the fixed command id |
| AwsMock.MockBoto3.constructor | src/shared/aws_mock.py:6-8 | initial state: app-prod-asg at capacity 2 of max 5, my-cluster/my-service at count 2 |
| AwsMock.MockBoto3.Client | src/shared/aws_mock.py:10-18 | clients are built over the one shared table; an unknown service raises |
| AwsMock.ClientsShareState | src/shared/aws_mock.py:10-18 | a capacity set through one client is what a later client describes |
| Scenario.ScenarioIngest | src/ingest/handler.py:15-28 | the high-CPU alarm is accepted with the default summary |
| Scenario.ScenarioContext | src/planner/handler.py:50-66 | matching uses the first metric's namespace AWS/EC2 |
| Scenario.ScenarioParams | src/planner/handler.py:31-35 | the runbook's parameters hold no token and resolve to themselves |
| Scenario.ScenarioAction | src/shared/actions.py:4-21 | the action scales app-prod-asg from 2 to 3 |
| Scenario.ScenarioPlan | src/planner/handler.py:37-99 | the plan is the scale-out action with its parameters as written, needing no approval |
| Scenario.ScenarioExecute | src/executor/handler.py:14-61 | executing the one-action scale-out plan on the initial mock table succeeds, resolves the incident at the given time, logs IN_PROGRESS then SUCCESS with {"old": 2, "new": 3}, and leaves app-prod-asg at capacity 3 |
| Scenario.EndToEnd | src/simulation/orchestrator.py:17-49 | the alarm ends RESOLVED, with one IN_PROGRESS and one SUCCESS entry ({"old": 2, "new": 3}), and app-prod-asg at capacity 3 |

## Left out

- File I/O: `LocalStorage`'s JSON files, directory setup and reads/writes (`src/shared/storage.py:10-29`) are in-memory maps; the incident file's key order is kept as a sequence, because `list_incidents` returns it.
- Storage.LocalStorage.constructor: starts from absent files only. Incidents, plans and logs already in an existing `.rr_db` directory are not loaded (`src/shared/storage.py:17-21` writes `{}` only to missing files). A store that already holds records is covered by the `st` parameter of the pure functions (`Ingestion`, `Plan`, `Execute`, `Process`), which is an arbitrary `Store`.
- `DynamoDBStorage` and the backend switch: managed-table calls and environment inspection.
- Catalog loading (`load_all_runbooks`, `Runbook.load_from_file`): a catalog is a parameter. The runbooks directory is not part of this model, so `Loader.HighCpuEc2Runbook` is reconstructed from the loader test's expectations; its action parameters are illustrative.
- The Step Functions `start_execution` call in ingest, the environment variable it reads, and all console output.
- uuid4 ids and clock readings: parameters (`Orchestrator.Drawn`, `stamps`, `resolvedTime`).
- The orchestrator's `eval` of the ingest body: the ingest result is a datatype. For an ignored event the source's `eval("Ignored")` raises; the model stops cleanly with `Ignored`.
- Idempotency checks and resource locks: the code has none (TODO comments only), so the model has none.
- The regex engine: a token is `${`, at least one character, then the first `}`, with no newline in between, which is what the pattern matches.
- `str()` of lists and dicts: an abstract `repr` parameter.
- Values.Value: has no float case, so a float in an event or in runbook parameters cannot be represented, and neither can its `str()` or `int()`.
- Values.IntOf: `int()` accepts only an integer, a boolean, or an ASCII optionally-signed decimal string; surrounding whitespace, underscores and non-ASCII digits are not modelled.
- Actions.Perform: an action type naming a Python attribute other than the four handlers (such as `execute` or a dunder method) is treated as not implemented.
- Error messages: the model's error strings describe the failure, but they are not the source's exact exception texts. The executor never stores them.
- Pydantic validation is modelled only where ingestion builds the incident: a non-string alarm name or reason raises. Plans and logs are built from already-typed values.
- The `region_name` argument of `MockBoto3.client`, which the mock ignores.
- The command text, document name and instance ids given to `send_command`.
- The `cluster`, `service`, `target_type` and `target_id` parameters, which the mock handlers only print.
- The CDK infrastructure and the command-line front end.
