/**
 * A high-CPU alarm on an EC2 auto-scaling group, end to end: the alarm
 * event, a catalog holding the high-CPU runbook, and the mock auto-scaling
 * table as infrastructure.
 */
module Scenario {
  import opened Wrappers
  import opened Values
  import opened Models
  import opened RunbookModels
  import opened Loader
  import opened Resolver
  import opened Storage
  import opened AwsMock
  import opened Actions
  import opened Ingest
  import opened Planner
  import opened Executor
  import opened Orchestrator

  const AlarmName := "ec2-high-cpu-prod"

  function Metric(): map<string, Value>
  {
    map["namespace" := VStr("AWS/EC2"), "dimensions" := VMap(map["InstanceId" := VStr("i-123")])]
  }

  function Detail(): map<string, Value>
  {
    map[
      "alarmName" := VStr(AlarmName),
      "state" := VMap(map["value" := VStr("ALARM")]),
      "configuration" := VMap(map["metrics" := VList([VMap(map["metricStat" := VMap(map["metric" := VMap(Metric())])])])])]
  }

  /** The alarm event: alarm "ec2-high-cpu-prod" in state ALARM, one metric in namespace AWS/EC2 on instance i-123. */
  function AlarmEvent(): map<string, Value>
  {
    map["detail" := VMap(Detail())]
  }

  /** The action handlers over the mock auto-scaling table, as the executor's capability. */
  function HandlerCapability(): Capability<AsgGroups>
  {
    (groups: AsgGroups, actionType: string, params: map<string, Value>) => Perform(groups, actionType, params)
  }

  /** The event is accepted with the default summary. */
  lemma ScenarioIngest()
    ensures Classify(AlarmEvent()) == Ok(Accept(AlarmName, "No reason provided"))
  {
    var detail := Detail();
    assert GetDict(AlarmEvent(), "detail") == Ok(detail);
    var state := map["value" := VStr("ALARM")];
    assert GetDict(detail, "state") == Ok(state);
    assert Get(detail, "alarmName", VNull) == VStr(AlarmName);
    assert Get(state, "value", VNull) == VStr("ALARM");
    assert "reason" !in state;
  }

  /** Matching uses namespace AWS/EC2, taken from the first metric. */
  lemma ScenarioContext()
    ensures BuildContext(AlarmEvent()).Ok?
    ensures BuildContext(AlarmEvent()).value.namespace == VStr("AWS/EC2")
  {
    var detail := Detail();
    assert GetDict(AlarmEvent(), "detail") == Ok(detail);
    var configuration := map["metrics" := VList([VMap(map["metricStat" := VMap(map["metric" := VMap(Metric())])])])];
    assert GetDict(detail, "configuration") == Ok(configuration);
    var metrics := Get(configuration, "metrics", VList([]));
    assert metrics == VList([VMap(map["metricStat" := VMap(map["metric" := VMap(Metric())])])]);
    assert Truthy(metrics);
    var first := map["metricStat" := VMap(map["metric" := VMap(Metric())])];
    assert metrics.items[0] == VMap(first);
    assert GetDict(first, "metricStat") == Ok(map["metric" := VMap(Metric())]);
    assert GetDict(map["metric" := VMap(Metric())], "metric") == Ok(Metric());
    assert Get(Metric(), "namespace", VStr("Unknown")) == VStr("AWS/EC2");
  }

  /** The runbook's parameters hold no token, so they pass through resolution unchanged. */
  lemma ScenarioParams(ctx: Context, repr: Value -> string)
    ensures ResolveParams(HighCpuEc2Runbook().actions[0].params, ctx, repr) == HighCpuEc2Runbook().actions[0].params
  {
    var params := HighCpuEc2Runbook().actions[0].params;
    assert '$' !in "app-prod-asg";
    PlainParamsUnchanged(params, ctx, repr);
  }

  /** The one action scales app-prod-asg from 2 to 3. */
  lemma ScenarioAction()
    ensures var params := HighCpuEc2Runbook().actions[0].params;
      Perform(InitialAsgGroups(), "scale_asg", params) ==
        (Ok(map["old" := VInt(2), "new" := VInt(3)]), InitialAsgGroups()["app-prod-asg" := AsgGroup(3, 5)])
  {
    var params := HighCpuEc2Runbook().actions[0].params;
    assert Get(params, "asg_name", VNull) == VStr("app-prod-asg");
    assert Get(params, "adjustment", VInt(1)) == VInt(1);
    assert Adjustment(params) == Ok(1);
    ScaleAsgOnExistingGroup(InitialAsgGroups(), params, "app-prod-asg", 1);
  }

  /** The plan: the scale-out action with its parameters as written, and no approval. */
  lemma ScenarioPlan(st: Store, repr: Value -> string, id: string, createdAt: string, plannedAt: string)
    ensures var ingested := Ingestion(st, AlarmEvent(), id, createdAt);
      ingested.Ok? && ingested.value.response == IngestResponse(200, Created(id)) &&
      Plan(ingested.value.store, [HighCpuEc2Runbook()], repr, id, plannedAt) ==
        Ok(Some(RemediationPlan(id, "v1", false, [PlanAction("scale_out", "scale_asg", HighCpuEc2Runbook().actions[0].params, map[])], plannedAt)))
  {
    ScenarioIngest();
    ScenarioContext();
    var ingested := Ingestion(st, AlarmEvent(), id, createdAt).value;
    assert ingested.store.incidents[id].cloudwatchEvent == AlarmEvent();
    assert ingested.store.incidents[id].alarmName == AlarmName;
    var pc := BuildContext(AlarmEvent()).value;
    HighCpuCatalogExpectations();
    var rb := HighCpuEc2Runbook();
    assert FindMatchingRunbook([rb], AlarmName, pc.namespace) == Some(rb);
    ScenarioParams(pc.vars, repr);
    var acts := PlanActions(rb.actions, pc.vars, repr);
    assert acts == [PlanAction("scale_out", "scale_asg", rb.actions[0].params, map[])];
    assert !AnyNeedsApproval(rb.actions);
  }

  /** The scenario's one planned action. */
  function ScaleOut(): PlanAction
  {
    PlanAction("scale_out", "scale_asg", HighCpuEc2Runbook().actions[0].params, map[])
  }

  /**
   * Executing a stored plan that holds just the scale-out action, on the
   * initial mock table: the action succeeds, the incident is resolved at the
   * given time, and the log gains the IN_PROGRESS and SUCCESS entries.
   */
  lemma ScenarioExecute(planned: Store, id: string, stamps: nat -> string, resolvedAt: string)
    requires id in planned.plans && id in planned.incidents && planned.plans[id].actions == [ScaleOut()]
    requires planned.incidents[id].incidentId == id
    ensures var e := Execute(planned, HandlerCapability(), InitialAsgGroups(), id, stamps, resolvedAt);
      var pending := ActionLog(id, "scale_out", stamps(0), InProgress, map[]);
      e.outcome == AllSucceeded &&
      id in e.store.incidents &&
      e.store.incidents[id].state == IncidentState.Resolved &&
      e.store.incidents[id].resolvedAt == Some(resolvedAt) &&
      e.store.LogsOf(id) == planned.LogsOf(id) + [pending, pending.(status := Success, details := map["old" := VInt(2), "new" := VInt(3)])] &&
      e.infra == InitialAsgGroups()["app-prod-asg" := AsgGroup(3, 5)]
  {
    ScenarioAction();
    var cap := HandlerCapability();
    var acts := planned.plans[id].actions;
    var result := Ok(map["old" := VInt(2), "new" := VInt(3)]);
    var after := InitialAsgGroups()["app-prod-asg" := AsgGroup(3, 5)];
    assert cap(InitialAsgGroups(), acts[0].actionType, acts[0].params) == (result, after);
    assert acts[1..] == [];
    assert Run(cap, InitialAsgGroups(), acts) == RunResult([result], after);
    assert AllOk([result]);
    ExecuteLogs(planned, cap, InitialAsgGroups(), id, stamps, resolvedAt, id);
    ExecuteSteps(planned, cap, InitialAsgGroups(), id, stamps, resolvedAt);
    var pending := NewActionLog(id, "scale_out", InProgress, stamps(0));
    assert RunLog(id, acts, [result], stamps) ==
      [pending, pending.(status := Success, details := result.value)] by {
      assert [result][..0] == [];
    }
  }

  /**
   * Processing the alarm resolves the incident: the action runs once, the
   * log gains its IN_PROGRESS and SUCCESS entries (the latter with the old and
   * new capacity), and app-prod-asg ends at capacity 3.
   */
  lemma EndToEnd(st: Store, repr: Value -> string, drawn: Drawn)
    ensures var p := Process(st, [HighCpuEc2Runbook()], repr, HandlerCapability(), InitialAsgGroups(), AlarmEvent(), drawn);
      var id := drawn.incidentId;
      var pending := ActionLog(id, "scale_out", drawn.actionStamps(0), InProgress, map[]);
      p.outcome == Executed(id, AllSucceeded) &&
      id in p.store.incidents &&
      p.store.incidents[id].state == IncidentState.Resolved &&
      p.store.incidents[id].resolvedAt == Some(drawn.resolvedAt) &&
      p.store.LogsOf(id) == st.LogsOf(id) + [pending, pending.(status := Success, details := map["old" := VInt(2), "new" := VInt(3)])] &&
      p.infra == InitialAsgGroups()["app-prod-asg" := AsgGroup(3, 5)]
  {
    var id := drawn.incidentId;
    ScenarioPlan(st, repr, id, drawn.createdAt, drawn.plannedAt);
    var ingested := Ingestion(st, AlarmEvent(), id, drawn.createdAt).value;
    var plan := Plan(ingested.store, [HighCpuEc2Runbook()], repr, id, drawn.plannedAt).value.value;
    var planned := ingested.store.SavePlan(plan);
    assert id in planned.incidents;
    assert planned.LogsOf(id) == st.LogsOf(id);
    ScenarioExecute(planned, id, drawn.actionStamps, drawn.resolvedAt);
  }
}
