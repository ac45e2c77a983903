/**
 * The local pipeline (src/simulation/orchestrator.py, `Orchestrator`):
 * ingest the event, plan the new incident, then either pause for approval
 * or execute the plan at once; `resume_approval` executes a paused plan.
 */
module Orchestrator {
  import opened Wrappers
  import opened Values
  import opened Models
  import opened RunbookModels
  import opened Storage
  import opened Ingest
  import opened Planner
  import opened Executor

  /** What one run draws from uuid and the clock: the new id and the timestamps. */
  datatype Drawn = Drawn(incidentId: string, createdAt: string, plannedAt: string, actionStamps: nat -> string, resolvedAt: string)

  /**
   * Where `process_event` stops: ingestion raised or answered non-200, the
   * event was ignored, planning raised or found no runbook, the plan awaits
   * approval, or the plan was executed with the given outcome.
   */
  datatype Outcome =
    | IngestRaised(ingestError: string)
    | IngestFailed(statusCode: int)
    | Ignored
    | PlanningRaised(planError: string)
    | NoRunbook(incidentId: string)
    | AwaitingApproval(incidentId: string)
    | Executed(incidentId: string, result: ExecOutcome)

  datatype ProcessResult<S> = ProcessResult(outcome: Outcome, store: Store, infra: S)

  /** What `process_event(alarm_event)` does to the store and the infrastructure. */
  function Process<S>(st: Store, catalog: seq<Runbook>, repr: Value -> string, cap: Capability<S>, infra: S,
                      event: map<string, Value>, drawn: Drawn): ProcessResult<S>
  {
    match Ingestion(st, event, drawn.incidentId, drawn.createdAt)
    case Err(e) => ProcessResult(IngestRaised(e), st, infra)
    case Ok(step) =>
      if step.response.statusCode != 200 then ProcessResult(IngestFailed(step.response.statusCode), step.store, infra)
      else if !step.response.body.Created? then ProcessResult(Ignored, step.store, infra)
      else
        var id := step.response.body.incidentId;
        match Plan(step.store, catalog, repr, id, drawn.plannedAt)
        case Err(e) => ProcessResult(PlanningRaised(e), step.store, infra)
        case Ok(None) => ProcessResult(NoRunbook(id), step.store, infra)
        case Ok(Some(plan)) =>
          var planned := step.store.SavePlan(plan);
          if plan.requiresApproval then ProcessResult(AwaitingApproval(id), Executor.Mitigating(planned, id), infra)
          else
            var e := Execute(planned, cap, infra, id, drawn.actionStamps, drawn.resolvedAt);
            ProcessResult(Executed(id, e.outcome), e.store, e.infra)
  }

  /** A non-200 ingestion, a raising one and an ignored event stop before planning: no plan, no action runs. */
  lemma IngestionGate<S>(st: Store, catalog: seq<Runbook>, repr: Value -> string, cap: Capability<S>, infra: S,
                         event: map<string, Value>, drawn: Drawn)
    requires var step := Ingestion(st, event, drawn.incidentId, drawn.createdAt);
      step.Err? || step.value.response.statusCode != 200 || !step.value.response.body.Created?
    ensures var p := Process(st, catalog, repr, cap, infra, event, drawn);
      p.store == st && p.infra == infra &&
      (p.outcome.IngestRaised? || p.outcome.IngestFailed? || p.outcome.Ignored?)
  {
  }

  /** Without a matching runbook processing stops: the new incident stays OPEN, and no plan or log is written. */
  lemma NoRunbookStaysOpen<S>(st: Store, catalog: seq<Runbook>, repr: Value -> string, cap: Capability<S>, infra: S,
                              event: map<string, Value>, drawn: Drawn)
    requires Process(st, catalog, repr, cap, infra, event, drawn).outcome.NoRunbook?
    ensures var p := Process(st, catalog, repr, cap, infra, event, drawn);
      p.outcome.incidentId == drawn.incidentId &&
      drawn.incidentId in p.store.incidents &&
      p.store.incidents[drawn.incidentId].state == IncidentState.Open &&
      p.store.plans == st.plans && p.store.actionLogs == st.actionLogs && p.infra == infra
  {
  }

  /**
   * A plan that requires approval is saved, the incident becomes MITIGATING,
   * and nothing is executed: no log entry and no infrastructure change.
   */
  lemma ApprovalPauses<S>(st: Store, catalog: seq<Runbook>, repr: Value -> string, cap: Capability<S>, infra: S,
                          event: map<string, Value>, drawn: Drawn)
    requires Process(st, catalog, repr, cap, infra, event, drawn).outcome.AwaitingApproval?
    ensures var p := Process(st, catalog, repr, cap, infra, event, drawn);
      var id := drawn.incidentId;
      p.outcome.incidentId == id &&
      id in p.store.plans && p.store.plans[id].requiresApproval &&
      id in p.store.incidents && p.store.incidents[id].state == IncidentState.Mitigating &&
      p.store.actionLogs == st.actionLogs && p.infra == infra
  {
  }

  /** A plan that requires no approval is executed at once, on the store holding it. */
  lemma AutoExecution<S>(st: Store, catalog: seq<Runbook>, repr: Value -> string, cap: Capability<S>, infra: S,
                         event: map<string, Value>, drawn: Drawn)
    requires Process(st, catalog, repr, cap, infra, event, drawn).outcome.Executed?
    ensures var p := Process(st, catalog, repr, cap, infra, event, drawn);
      var step := Ingestion(st, event, drawn.incidentId, drawn.createdAt).value;
      var plan := Plan(step.store, catalog, repr, drawn.incidentId, drawn.plannedAt);
      var e := Execute(step.store.SavePlan(plan.value.value), cap, infra, drawn.incidentId, drawn.actionStamps, drawn.resolvedAt);
      plan.Ok? && plan.value.Some? && !plan.value.value.requiresApproval &&
      (p.outcome.result == AllSucceeded || p.outcome.result == Halted) &&
      p.store == e.store && p.infra == e.infra && p.outcome.result == e.outcome
  {
  }

  /**
   * `resume_approval` checks nothing: execution does not depend on the
   * incident's recorded state, so a RESOLVED or FAILED incident is executed
   * again just like a waiting one.
   */
  lemma ResumeIgnoresState<S>(st: Store, cap: Capability<S>, infra: S, id: string, stamps: nat -> string, resolvedTime: string, state: IncidentState)
    requires id in st.incidents
    ensures var changed := st.(incidents := st.incidents[id := st.incidents[id].(state := state)]);
      Execute(changed, cap, infra, id, stamps, resolvedTime).outcome == Execute(st, cap, infra, id, stamps, resolvedTime).outcome &&
      Execute(changed, cap, infra, id, stamps, resolvedTime).infra == Execute(st, cap, infra, id, stamps, resolvedTime).infra &&
      (id in st.plans ==>
        Execute(changed, cap, infra, id, stamps, resolvedTime).store.actionLogs == Execute(st, cap, infra, id, stamps, resolvedTime).store.actionLogs)
  {
  }

  /** The orchestrator object: `process_event` and `resume_approval` on a store. */
  class Pipeline {
    const store: LocalStorage
    const catalog: seq<Runbook>
    const repr: Value -> string

    constructor (store: LocalStorage, catalog: seq<Runbook>, repr: Value -> string)
      ensures this.store == store && this.catalog == catalog && this.repr == repr
    {
      this.store := store;
      this.catalog := catalog;
      this.repr := repr;
    }

    method ProcessEvent<S>(cap: Capability<S>, infra: S, event: map<string, Value>, drawn: Drawn)
      returns (outcome: Outcome, infraAfter: S)
      requires store.Valid()
      modifies store
      ensures store.Valid()
      ensures var p := Process(old(store.State()), catalog, repr, cap, infra, event, drawn);
        outcome == p.outcome && store.State() == p.store && infraAfter == p.infra
    {
      infraAfter := infra;
      var ingested := Handler(store, event, drawn.incidentId, drawn.createdAt);
      if ingested.Err? {
        return IngestRaised(ingested.error), infraAfter;
      }
      var response := ingested.value;
      if response.statusCode != 200 {
        return IngestFailed(response.statusCode), infraAfter;
      }
      if !response.body.Created? {
        return Ignored, infraAfter;
      }
      var id := response.body.incidentId;
      var planned := HandlerManualTrigger(store, catalog, repr, id, drawn.plannedAt);
      if planned.Err? {
        return PlanningRaised(planned.error), infraAfter;
      }
      if planned.value.None? {
        return NoRunbook(id), infraAfter;
      }
      if planned.value.value.requiresApproval {
        var incident := store.GetIncident(id);
        if incident.None? {
          assert false;
        }
        store.SaveIncident(incident.value.(state := IncidentState.Mitigating));
        return AwaitingApproval(id), infraAfter;
      }
      var result;
      result, infraAfter := ExecutePlan(store, cap, infra, id, drawn.actionStamps, drawn.resolvedAt);
      outcome := Executed(id, result);
    }

    /** `resume_approval(incident_id)`: executes the stored plan without looking at the incident's state. */
    method ResumeApproval<S>(cap: Capability<S>, infra: S, incidentId: string, stamps: nat -> string, resolvedTime: string)
      returns (outcome: ExecOutcome, infraAfter: S)
      requires store.Valid()
      modifies store
      ensures store.Valid()
      ensures var e := Execute(old(store.State()), cap, infra, incidentId, stamps, resolvedTime);
        outcome == e.outcome && store.State() == e.store && infraAfter == e.infra
    {
      outcome, infraAfter := ExecutePlan(store, cap, infra, incidentId, stamps, resolvedTime);
    }
  }
}
