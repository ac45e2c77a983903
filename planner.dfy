/**
 * Plan generation (src/planner/handler.py, `handler_manual_trigger`): load
 * the incident, build the resolution context from its alarm event, match a
 * runbook on the alarm name and the first metric's namespace, resolve every
 * action's parameters and save the plan.
 */
module Planner {
  import opened Wrappers
  import opened Values
  import opened Models
  import opened RunbookModels
  import opened Loader
  import opened Resolver
  import opened Storage

  /** The resolution context and the namespace matching uses. */
  datatype PlanningContext = PlanningContext(vars: Context, namespace: Value)

  /**
   * The context: a copy of the event's `detail`, plus `dimensions` and
   * `namespace` of the first metric when `configuration.metrics` is truthy.
   * The namespace is "Unknown" without metrics, or when the metric has none.
   * A `detail`, `configuration` or metric part that is not a dict, or truthy
   * metrics that are not a list, raise in the source.
   */
  function BuildContext(event: map<string, Value>): Result<PlanningContext, string>
  {
    match GetDict(event, "detail")
    case Err(e) => Err(e)
    case Ok(detail) =>
      match GetDict(detail, "configuration")
      case Err(e) => Err(e)
      case Ok(configuration) =>
        var metrics := Get(configuration, "metrics", VList([]));
        if !Truthy(metrics) then Ok(PlanningContext(detail, VStr("Unknown")))
        else if !metrics.VList? || !metrics.items[0].VMap? then Err("metrics[0] is not a dict")
        else
          match GetDict(metrics.items[0].fields, "metricStat")
          case Err(e) => Err(e)
          case Ok(metricStat) =>
            match GetDict(metricStat, "metric")
            case Err(e) => Err(e)
            case Ok(metric) =>
              var namespace := Get(metric, "namespace", VStr("Unknown"));
              var dimensions := Get(metric, "dimensions", VMap(map[]));
              Ok(PlanningContext(detail["dimensions" := dimensions]["namespace" := namespace], namespace))
  }

  /** The event's `configuration.metrics` value is truthy. */
  predicate HasMetrics(event: map<string, Value>)
  {
    GetDict(event, "detail").Ok? && GetDict(GetDict(event, "detail").value, "configuration").Ok? &&
    Truthy(Get(GetDict(GetDict(event, "detail").value, "configuration").value, "metrics", VList([])))
  }

  /**
   * The context is the event's detail, changed only in the `dimensions` and
   * `namespace` keys, and only when there are metrics; without them the
   * namespace is "Unknown". With metrics, both come from the first metric's
   * `metricStat.metric`, defaulting to "Unknown" and the empty dict.
   */
  lemma ContextFromDetail(event: map<string, Value>, key: string)
    requires BuildContext(event).Ok?
    ensures GetDict(event, "detail").Ok?
    ensures var detail := GetDict(event, "detail").value;
      var pc := BuildContext(event).value;
      (key != "dimensions" && key != "namespace" ==> (key in pc.vars <==> key in detail)) &&
      (key != "dimensions" && key != "namespace" && key in detail ==> pc.vars[key] == detail[key]) &&
      (!HasMetrics(event) ==> pc.vars == detail && pc.namespace == VStr("Unknown")) &&
      (HasMetrics(event) ==> "dimensions" in pc.vars && pc.vars["namespace"] == pc.namespace)
    ensures HasMetrics(event) ==>
      var configuration := GetDict(GetDict(event, "detail").value, "configuration").value;
      var metrics := Get(configuration, "metrics", VList([]));
      metrics.VList? && |metrics.items| > 0 && metrics.items[0].VMap? &&
      GetDict(metrics.items[0].fields, "metricStat").Ok? &&
      GetDict(GetDict(metrics.items[0].fields, "metricStat").value, "metric").Ok? &&
      var metric := GetDict(GetDict(metrics.items[0].fields, "metricStat").value, "metric").value;
      BuildContext(event).value.namespace == Get(metric, "namespace", VStr("Unknown")) &&
      BuildContext(event).value.vars["dimensions"] == Get(metric, "dimensions", VMap(map[]))
  {
  }

  /** One plan entry: id, type, resolved params, and the safety block verbatim as its sanity checks. */
  function PlanActionOf(def: ActionDef, ctx: Context, repr: Value -> string): PlanAction
  {
    PlanAction(def.id, def.actionType, ResolveParams(def.params, ctx, repr), def.safety)
  }

  /** The plan's actions, in runbook order. */
  function PlanActions(defs: seq<ActionDef>, ctx: Context, repr: Value -> string): (r: seq<PlanAction>)
    ensures |r| == |defs|
    ensures forall i :: 0 <= i < |defs| ==> r[i] == PlanActionOf(defs[i], ctx, repr)
  {
    seq(|defs|, i requires 0 <= i < |defs| => PlanActionOf(defs[i], ctx, repr))
  }

  /** `action_def.safety.get("approval_required", False)` is truthy. */
  predicate NeedsApproval(def: ActionDef)
  {
    "approval_required" in def.safety && Truthy(def.safety["approval_required"])
  }

  /** Some action of the runbook needs approval. */
  predicate AnyNeedsApproval(defs: seq<ActionDef>)
  {
    exists i :: 0 <= i < |defs| && NeedsApproval(defs[i])
  }

  /** The loop of the planner: appends each resolved action and raises the approval flag when one needs it. */
  method BuildActions(defs: seq<ActionDef>, ctx: Context, repr: Value -> string)
    returns (actions: seq<PlanAction>, requiresApproval: bool)
    ensures actions == PlanActions(defs, ctx, repr)
    ensures requiresApproval <==> AnyNeedsApproval(defs)
  {
    actions := [];
    requiresApproval := false;
    var i := 0;
    while i < |defs|
      invariant 0 <= i <= |defs|
      invariant actions == PlanActions(defs[..i], ctx, repr)
      invariant requiresApproval <==> AnyNeedsApproval(defs[..i])
    {
      var def := defs[i];
      actions := actions + [PlanActionOf(def, ctx, repr)];
      if NeedsApproval(def) {
        requiresApproval := true;
      }
      assert defs[..i + 1] == defs[..i] + [def];
      i := i + 1;
    }
    assert defs[..i] == defs;
  }

  /** The plan for an incident matched to a runbook. */
  function PlanOf(incidentId: string, runbook: Runbook, ctx: Context, repr: Value -> string, createdAt: string): RemediationPlan
  {
    NewPlan(incidentId, createdAt).(
      requiresApproval := AnyNeedsApproval(runbook.actions),
      actions := PlanActions(runbook.actions, ctx, repr))
  }

  /**
   * What `handler_manual_trigger` returns on the given store: raises when the
   * incident is missing or its event is malformed, None when no runbook
   * matches, and otherwise the plan it saves.
   */
  function Plan(st: Store, catalog: seq<Runbook>, repr: Value -> string, incidentId: string, now: string)
    : Result<Option<RemediationPlan>, string>
  {
    if incidentId !in st.incidents then Err("Incident " + incidentId + " not found")
    else
      var incident := st.incidents[incidentId];
      match BuildContext(incident.cloudwatchEvent)
      case Err(e) => Err(e)
      case Ok(pc) =>
        match FindMatchingRunbook(catalog, incident.alarmName, pc.namespace)
        case None => Ok(None)
        case Some(runbook) => Ok(Some(PlanOf(incidentId, runbook, pc.vars, repr, now)))
  }

  /** The store after planning: the plan saved, or nothing changed when there is none. */
  function AfterPlan(st: Store, result: Result<Option<RemediationPlan>, string>): Store
  {
    if result.Ok? && result.value.Some? then st.SavePlan(result.value.value) else st
  }

  /** A missing incident raises, and no runbook gives None: in both cases nothing is saved. */
  lemma PlanFailures(st: Store, catalog: seq<Runbook>, repr: Value -> string, incidentId: string, now: string)
    ensures incidentId !in st.incidents ==> Plan(st, catalog, repr, incidentId, now).Err?
    ensures Plan(st, catalog, repr, incidentId, now) == Ok(None) <==>
      incidentId in st.incidents &&
      BuildContext(st.incidents[incidentId].cloudwatchEvent).Ok? &&
      forall i :: 0 <= i < |catalog| ==>
        !Matches(catalog[i], st.incidents[incidentId].alarmName, BuildContext(st.incidents[incidentId].cloudwatchEvent).value.namespace)
    ensures !(Plan(st, catalog, repr, incidentId, now).Ok? && Plan(st, catalog, repr, incidentId, now).value.Some?) ==>
      AfterPlan(st, Plan(st, catalog, repr, incidentId, now)) == st
  {
  }

  /**
   * A generated plan belongs to the incident, is version "v1", lists the
   * matched runbook's actions in order with their resolved parameters and
   * safety blocks, and requires approval exactly when one of them does.
   */
  lemma GeneratedPlan(st: Store, catalog: seq<Runbook>, repr: Value -> string, incidentId: string, now: string)
    requires Plan(st, catalog, repr, incidentId, now).Ok? && Plan(st, catalog, repr, incidentId, now).value.Some?
    ensures incidentId in st.incidents && BuildContext(st.incidents[incidentId].cloudwatchEvent).Ok?
    ensures var incident := st.incidents[incidentId];
      var pc := BuildContext(incident.cloudwatchEvent).value;
      var rb := FindMatchingRunbook(catalog, incident.alarmName, pc.namespace);
      var p := Plan(st, catalog, repr, incidentId, now).value.value;
      rb.Some? &&
      p.incidentId == incidentId && p.planVersion == "v1" &&
      |p.actions| == |rb.value.actions| &&
      (forall i :: 0 <= i < |p.actions| ==>
        p.actions[i].id == rb.value.actions[i].id &&
        p.actions[i].actionType == rb.value.actions[i].actionType &&
        p.actions[i].params == ResolveParams(rb.value.actions[i].params, pc.vars, repr) &&
        p.actions[i].sanityChecks == rb.value.actions[i].safety) &&
      (p.requiresApproval <==> exists i :: 0 <= i < |rb.value.actions| && NeedsApproval(rb.value.actions[i]))
    ensures AfterPlan(st, Plan(st, catalog, repr, incidentId, now)).plans ==
      st.plans[incidentId := Plan(st, catalog, repr, incidentId, now).value.value]
  {
  }

  /** `handler_manual_trigger(incident_id)` on the store object. */
  method HandlerManualTrigger(store: LocalStorage, catalog: seq<Runbook>, repr: Value -> string, incidentId: string, now: string)
    returns (r: Result<Option<RemediationPlan>, string>)
    requires store.Valid()
    modifies store
    ensures store.Valid()
    ensures r == Plan(old(store.State()), catalog, repr, incidentId, now)
    ensures store.State() == AfterPlan(old(store.State()), r)
  {
    var found := store.GetIncident(incidentId);
    if found.None? {
      return Err("Incident " + incidentId + " not found");
    }
    var incident := found.value;
    var built := BuildContext(incident.cloudwatchEvent);
    if built.Err? {
      return Err(built.error);
    }
    var runbook := FindMatchingRunbook(catalog, incident.alarmName, built.value.namespace);
    if runbook.None? {
      return Ok(None);
    }
    var actions, requiresApproval := BuildActions(runbook.value.actions, built.value.vars, repr);
    var plan := NewPlan(incidentId, now).(requiresApproval := requiresApproval, actions := actions);
    store.SavePlan(plan);
    r := Ok(Some(plan));
  }
}
