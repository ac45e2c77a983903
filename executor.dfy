/**
 * The execution engine (src/executor/handler.py, `execute_plan`). It is
 * generic in the infrastructure state `S`: the action-execution capability
 * takes that state, an action type and its parameters, and returns the
 * action's result (or the error it raised) together with the new state.
 * `Actions.Perform` is the capability the repository's handlers implement.
 *
 * Each action gets an IN_PROGRESS log entry before it runs and, if it
 * succeeds, a SUCCESS entry carrying its result. Both entries are snapshots
 * of one log object, so they share its timestamp: `stamps(k)` is the
 * timestamp of the k-th action's log object. At the first failure the loop
 * stops; the failing action's log object is marked FAILED but never stored
 * again, so only its IN_PROGRESS entry is kept.
 */
module Executor {
  import opened Wrappers
  import opened Values
  import opened Models
  import opened Storage
  import opened Actions

  type Capability<!S> = (S, string, map<string, Value>) -> (ActionResult, S)

  /** How `execute_plan` ends: no plan, the incident record missing (the source raises), every action succeeded (RESOLVED), or one failed (FAILED). */
  datatype ExecOutcome = NoPlan | IncidentMissing | AllSucceeded | Halted

  /** The results of the actions that ran, in order, and the state they left. */
  datatype RunResult<S> = RunResult(outcomes: seq<ActionResult>, infra: S)

  /** The store, the infrastructure state and the outcome after one execution. */
  datatype ExecResult<S> = ExecResult(outcome: ExecOutcome, store: Store, infra: S)

  predicate AllOk(outs: seq<ActionResult>)
  {
    forall k :: 0 <= k < |outs| ==> outs[k].Ok?
  }

  /** Runs the actions in order, stopping after the first that fails; that one's error is the last outcome. */
  function Run<S>(cap: Capability<S>, s: S, acts: seq<PlanAction>): RunResult<S>
    decreases |acts|
  {
    if |acts| == 0 then RunResult([], s)
    else
      var (res, next) := cap(s, acts[0].actionType, acts[0].params);
      if res.Err? then RunResult([res], next)
      else
        var rest := Run(cap, next, acts[1..]);
        RunResult([res] + rest.outcomes, rest.infra)
  }

  /** The entries stored for one action: IN_PROGRESS, then SUCCESS with the result if it succeeded. */
  function StepLog(id: string, act: PlanAction, out: ActionResult, stamp: string): seq<ActionLog>
  {
    var pending := NewActionLog(id, act.id, InProgress, stamp);
    if out.Ok? then [pending, pending.(status := Success, details := out.value)] else [pending]
  }

  /** The entries stored for the actions that ran, with outcomes `outs`, in order. */
  function RunLog(id: string, acts: seq<PlanAction>, outs: seq<ActionResult>, stamps: nat -> string): seq<ActionLog>
    requires |outs| <= |acts|
    decreases |outs|
  {
    if |outs| == 0 then []
    else
      var k := |outs| - 1;
      RunLog(id, acts, outs[..k], stamps) + StepLog(id, acts[k], outs[k], stamps(k))
  }

  /** The incident's final record: RESOLVED with its resolution time, or FAILED with `resolved_at` untouched. */
  function Finalize(incident: Incident, allSuccess: bool, resolvedTime: string): Incident
  {
    if allSuccess then incident.(state := IncidentState.Resolved, resolvedAt := Some(resolvedTime))
    else incident.(state := IncidentState.Failed)
  }

  /** The store once the incident has been saved as MITIGATING, before any action runs. */
  function Mitigating(st: Store, id: string): Store
    requires id in st.incidents
  {
    st.SaveIncident(st.incidents[id].(state := IncidentState.Mitigating))
  }

  /** What `execute_plan(id)` does to the store and the infrastructure. */
  function Execute<S>(st: Store, cap: Capability<S>, infra: S, id: string, stamps: nat -> string, resolvedTime: string)
    : ExecResult<S>
  {
    if id !in st.plans then ExecResult(NoPlan, st, infra)
    else if id !in st.incidents then ExecResult(IncidentMissing, st, infra)
    else
      var acts := st.plans[id].actions;
      var run := Run(cap, infra, acts);
      RunShape(cap, infra, acts);
      var ok := AllOk(run.outcomes);
      var logged := Mitigating(st, id).AppendLogs(id, RunLog(id, acts, run.outcomes, stamps));
      ExecResult(
        if ok then AllSucceeded else Halted,
        logged.SaveIncident(Finalize(st.incidents[id].(state := IncidentState.Mitigating), ok, resolvedTime)),
        run.infra)
  }

  /**
   * Fail-fast: at most one outcome per action, every outcome but the last
   * succeeded, and the run either completes every action or ends with an error.
   */
  lemma {:induction false} RunShape<S>(cap: Capability<S>, s: S, acts: seq<PlanAction>)
    ensures var outs := Run(cap, s, acts).outcomes;
      |outs| <= |acts| &&
      (forall k :: 0 <= k < |outs| - 1 ==> outs[k].Ok?) &&
      (AllOk(outs) ==> |outs| == |acts|) &&
      (!AllOk(outs) ==> |outs| > 0 && outs[|outs| - 1].Err?)
    decreases |acts|
  {
    if |acts| > 0 {
      var (res, next) := cap(s, acts[0].actionType, acts[0].params);
      if res.Ok? {
        RunShape(cap, next, acts[1..]);
        var rest := Run(cap, next, acts[1..]).outcomes;
        var outs := Run(cap, s, acts).outcomes;
        assert outs == [res] + rest;
        if !AllOk(outs) {
          assert !AllOk(rest) by {
            var k :| 0 <= k < |outs| && !outs[k].Ok?;
            assert !rest[k - 1].Ok?;
          }
        } else {
          assert AllOk(rest) by {
            forall k | 0 <= k < |rest| ensures rest[k].Ok? {
              assert rest[k] == outs[k + 1];
            }
          }
        }
      } else {
        assert Run(cap, s, acts).outcomes == [res];
        assert !Run(cap, s, acts).outcomes[0].Ok?;
      }
    }
  }

  /** When every action so far succeeded, one more action runs on the state they left. */
  lemma {:induction false} RunSnoc<S>(cap: Capability<S>, s: S, p: seq<PlanAction>, a: PlanAction)
    requires AllOk(Run(cap, s, p).outcomes)
    ensures var prev := Run(cap, s, p);
      var (res, next) := cap(prev.infra, a.actionType, a.params);
      Run(cap, s, p + [a]) == RunResult(prev.outcomes + [res], next)
    decreases |p|
  {
    if |p| == 0 {
      assert p + [a] == [a];
    } else {
      var (res0, next0) := cap(s, p[0].actionType, p[0].params);
      assert Run(cap, s, p).outcomes[0] == res0;
      assert (p + [a])[1..] == p[1..] + [a];
      var rest := Run(cap, next0, p[1..]);
      assert Run(cap, s, p).outcomes == [res0] + rest.outcomes;
      assert AllOk(rest.outcomes) by {
        forall k | 0 <= k < |rest.outcomes| ensures rest.outcomes[k].Ok? {
          assert rest.outcomes[k] == Run(cap, s, p).outcomes[k + 1];
        }
      }
      RunSnoc(cap, next0, p[1..], a);
    }
  }

  /** After a failure nothing more runs: later actions neither yield outcomes nor change the state. */
  lemma {:induction false} RunStopsAtFailure<S>(cap: Capability<S>, s: S, p: seq<PlanAction>, more: seq<PlanAction>)
    requires !AllOk(Run(cap, s, p).outcomes)
    ensures Run(cap, s, p + more) == Run(cap, s, p)
    decreases |p|
  {
    assert |p| > 0;
    var (res0, next0) := cap(s, p[0].actionType, p[0].params);
    assert (p + more)[0] == p[0];
    if res0.Ok? {
      assert (p + more)[1..] == p[1..] + more;
      var rest := Run(cap, next0, p[1..]);
      assert Run(cap, s, p).outcomes == [res0] + rest.outcomes;
      assert !AllOk(rest.outcomes) by {
        var k :| 0 <= k < |Run(cap, s, p).outcomes| && !Run(cap, s, p).outcomes[k].Ok?;
        assert !rest.outcomes[k - 1].Ok?;
      }
      RunStopsAtFailure(cap, next0, p[1..], more);
    }
  }

  /**
   * Actions run in plan order: the k-th outcome is the capability applied to
   * the k-th action on the state the first k actions left, all of which succeeded.
   */
  lemma {:induction false} RunInOrder<S>(cap: Capability<S>, s: S, acts: seq<PlanAction>, k: nat)
    requires k < |Run(cap, s, acts).outcomes|
    ensures k < |acts|
    ensures AllOk(Run(cap, s, acts[..k]).outcomes)
    ensures Run(cap, s, acts[..k]).outcomes == Run(cap, s, acts).outcomes[..k]
    ensures Run(cap, s, acts).outcomes[k] == cap(Run(cap, s, acts[..k]).infra, acts[k].actionType, acts[k].params).0
    decreases k
  {
    assert |acts| > 0;
    var (res0, next0) := cap(s, acts[0].actionType, acts[0].params);
    if k == 0 {
      assert acts[..0] == [];
    } else {
      assert res0.Ok?;
      var rest := Run(cap, next0, acts[1..]);
      assert Run(cap, s, acts).outcomes == [res0] + rest.outcomes;
      RunInOrder(cap, next0, acts[1..], k - 1);
      var inner := Run(cap, next0, acts[1..][..k - 1]);
      assert acts[..k][0] == acts[0];
      assert acts[..k][1..] == acts[1..][..k - 1];
      assert Run(cap, s, acts[..k]) == RunResult([res0] + inner.outcomes, inner.infra);
      assert acts[1..][k - 1] == acts[k];
    }
  }

  /**
   * The stored entries: two per successful action and one for a failing one;
   * entry 2k is action k's IN_PROGRESS entry and, when it succeeded, entry
   * 2k+1 its SUCCESS entry with the result as details. All belong to the incident.
   */
  lemma {:induction false} RunLogEntries(id: string, acts: seq<PlanAction>, outs: seq<ActionResult>, stamps: nat -> string)
    requires |outs| <= |acts|
    requires forall k :: 0 <= k < |outs| - 1 ==> outs[k].Ok?
    ensures var log := RunLog(id, acts, outs, stamps);
      |log| == (if |outs| > 0 && outs[|outs| - 1].Err? then 2 * |outs| - 1 else 2 * |outs|) &&
      (forall k :: 0 <= k < |outs| ==>
        log[2 * k] == NewActionLog(id, acts[k].id, InProgress, stamps(k)) &&
        (outs[k].Ok? ==> log[2 * k + 1] == NewActionLog(id, acts[k].id, InProgress, stamps(k)).(status := Success, details := outs[k].value))) &&
      (forall j :: 0 <= j < |log| ==> log[j].incidentId == id)
    decreases |outs|
  {
    if |outs| > 0 {
      var n := |outs| - 1;
      var prefix := outs[..n];
      RunLogEntries(id, acts, prefix, stamps);
      var before := RunLog(id, acts, prefix, stamps);
      var step := StepLog(id, acts[n], outs[n], stamps(n));
      assert |before| == 2 * n;
      assert RunLog(id, acts, outs, stamps) == before + step;
      forall k | 0 <= k < n
        ensures before[2 * k] == NewActionLog(id, acts[k].id, InProgress, stamps(k))
        ensures outs[k].Ok? ==> before[2 * k + 1] == NewActionLog(id, acts[k].id, InProgress, stamps(k)).(status := Success, details := outs[k].value)
      {
        assert prefix[k] == outs[k];
      }
    }
  }

  /** With no plan stored, or no incident record, nothing changes. */
  lemma ExecuteWithoutPlanOrIncident<S>(st: Store, cap: Capability<S>, infra: S, id: string, stamps: nat -> string, resolvedTime: string)
    ensures id !in st.plans ==> Execute(st, cap, infra, id, stamps, resolvedTime) == ExecResult(NoPlan, st, infra)
    ensures id in st.plans && id !in st.incidents ==>
      Execute(st, cap, infra, id, stamps, resolvedTime) == ExecResult(IncidentMissing, st, infra)
  {
  }

  /**
   * The incident ends RESOLVED, with its resolution time, exactly when every
   * action succeeded, and FAILED with `resolved_at` untouched otherwise; its
   * other fields, the other incidents and the plans are unchanged, and the
   * infrastructure is in the state the actions that ran left it.
   */
  lemma ExecuteFinalState<S>(st: Store, cap: Capability<S>, infra: S, id: string, stamps: nat -> string, resolvedTime: string)
    requires st.WellFormed() && id in st.plans && id in st.incidents
    ensures var e := Execute(st, cap, infra, id, stamps, resolvedTime);
      var run := Run(cap, infra, st.plans[id].actions);
      var before := st.incidents[id];
      (e.outcome == AllSucceeded <==> AllOk(run.outcomes)) &&
      (e.outcome == Halted <==> !AllOk(run.outcomes)) &&
      e.infra == run.infra &&
      e.store.incidents.Keys == st.incidents.Keys &&
      e.store.incidentOrder == st.incidentOrder &&
      (forall other :: other in st.incidents && other != id ==> e.store.incidents[other] == st.incidents[other]) &&
      (AllOk(run.outcomes) ==>
        e.store.incidents[id] == before.(state := IncidentState.Resolved, resolvedAt := Some(resolvedTime))) &&
      (!AllOk(run.outcomes) ==> e.store.incidents[id] == before.(state := IncidentState.Failed)) &&
      e.store.plans == st.plans
  {
    var acts := st.plans[id].actions;
    var run := Run(cap, infra, acts);
    RunShape(cap, infra, acts);
    AppendLogsAppends(Mitigating(st, id), id, RunLog(id, acts, run.outcomes, stamps), id);
  }

  /**
   * The incident's log grows by the entries of the actions that ran, 2n when
   * all n actions succeed and 2k+1 when action k+1 is the first to fail;
   * other incidents' logs are untouched.
   */
  lemma ExecuteLogs<S>(st: Store, cap: Capability<S>, infra: S, id: string, stamps: nat -> string, resolvedTime: string, other: string)
    requires id in st.plans && id in st.incidents
    ensures var e := Execute(st, cap, infra, id, stamps, resolvedTime);
      var acts := st.plans[id].actions;
      var outs := Run(cap, infra, acts).outcomes;
      |outs| <= |acts| &&
      e.store.LogsOf(id) == st.LogsOf(id) + RunLog(id, acts, outs, stamps) &&
      (AllOk(outs) ==> |e.store.LogsOf(id)| == |st.LogsOf(id)| + 2 * |acts|) &&
      (!AllOk(outs) ==> |outs| > 0 && |e.store.LogsOf(id)| == |st.LogsOf(id)| + 2 * (|outs| - 1) + 1) &&
      (other != id ==> e.store.LogsOf(other) == st.LogsOf(other))
  {
    var acts := st.plans[id].actions;
    var outs := Run(cap, infra, acts).outcomes;
    RunShape(cap, infra, acts);
    ExecuteSteps(st, cap, infra, id, stamps, resolvedTime);
    var entries := RunLog(id, acts, outs, stamps);
    assert |entries| == (if |outs| > 0 && outs[|outs| - 1].Err? then 2 * |outs| - 1 else 2 * |outs|) by {
      RunLogEntries(id, acts, outs, stamps);
    }
    var mid := Mitigating(st, id);
    AppendLogsAppends(mid, id, entries, other);
    var logged := mid.AppendLogs(id, entries);
    var final := Finalize(st.incidents[id].(state := IncidentState.Mitigating), AllOk(outs), resolvedTime);
    var e := Execute(st, cap, infra, id, stamps, resolvedTime);
    assert e.store == logged.SaveIncident(final);
    assert e.store.LogsOf(id) == logged.LogsOf(id);
    assert e.store.LogsOf(other) == logged.LogsOf(other);
  }

  /** Execution keeps the store well formed. */
  lemma ExecuteKeepsWellFormed<S>(st: Store, cap: Capability<S>, infra: S, id: string, stamps: nat -> string, resolvedTime: string)
    requires st.WellFormed()
    ensures Execute(st, cap, infra, id, stamps, resolvedTime).store.WellFormed()
  {
    if id in st.plans && id in st.incidents {
      var acts := st.plans[id].actions;
      var outs := Run(cap, infra, acts).outcomes;
      RunShape(cap, infra, acts);
      var entries := RunLog(id, acts, outs, stamps);
      RunLogEntries(id, acts, outs, stamps);
      var mitigating := st.incidents[id].(state := IncidentState.Mitigating);
      SaveIncidentKeepsWellFormed(st, mitigating);
      var mid := Mitigating(st, id);
      AppendLogsAppends(mid, id, entries, id);
      var logged := mid.AppendLogs(id, entries);
      var final := Finalize(mitigating, AllOk(outs), resolvedTime);
      SaveIncidentKeepsWellFormed(logged, final);
    }
  }

  /** An empty plan resolves the incident and writes no log entry. */
  lemma EmptyPlanResolves<S>(st: Store, cap: Capability<S>, infra: S, id: string, stamps: nat -> string, resolvedTime: string)
    requires st.WellFormed() && id in st.plans && id in st.incidents && st.plans[id].actions == []
    ensures var e := Execute(st, cap, infra, id, stamps, resolvedTime);
      e.outcome == AllSucceeded && e.infra == infra &&
      e.store.incidents[id].state == IncidentState.Resolved &&
      e.store.incidents[id].resolvedAt == Some(resolvedTime) &&
      e.store.actionLogs == st.actionLogs
  {
  }

  /** Storing a succeeding action's two entries extends the run's log by its step. */
  lemma LoggedSuccess(mid: Store, id: string, acts: seq<PlanAction>, outs: seq<ActionResult>, stamps: nat -> string, result: ActionResult)
    requires |outs| < |acts| && result.Ok?
    ensures var pending := NewActionLog(id, acts[|outs|].id, InProgress, stamps(|outs|));
      mid.AppendLogs(id, RunLog(id, acts, outs, stamps)).LogAction(pending).LogAction(pending.(status := Success, details := result.value))
        == mid.AppendLogs(id, RunLog(id, acts, outs + [result], stamps))
  {
    var pending := NewActionLog(id, acts[|outs|].id, InProgress, stamps(|outs|));
    var done := pending.(status := Success, details := result.value);
    var before := RunLog(id, acts, outs, stamps);
    LogActionIsAppend(mid, id, before, pending);
    LogActionIsAppend(mid, id, before + [pending], done);
    assert (outs + [result])[..|outs|] == outs;
    assert RunLog(id, acts, outs + [result], stamps) == before + [pending, done];
    assert before + [pending] + [done] == before + [pending, done];
  }

  /** Storing a failing action's IN_PROGRESS entry extends the run's log by its step. */
  lemma LoggedFailure(mid: Store, id: string, acts: seq<PlanAction>, outs: seq<ActionResult>, stamps: nat -> string, result: ActionResult)
    requires |outs| < |acts| && result.Err?
    ensures var pending := NewActionLog(id, acts[|outs|].id, InProgress, stamps(|outs|));
      mid.AppendLogs(id, RunLog(id, acts, outs, stamps)).LogAction(pending)
        == mid.AppendLogs(id, RunLog(id, acts, outs + [result], stamps))
  {
    var pending := NewActionLog(id, acts[|outs|].id, InProgress, stamps(|outs|));
    var before := RunLog(id, acts, outs, stamps);
    LogActionIsAppend(mid, id, before, pending);
    assert (outs + [result])[..|outs|] == outs;
    assert RunLog(id, acts, outs + [result], stamps) == before + [pending];
  }

  /** Unfolds `Execute` for a stored plan and incident (a helper for the proofs about it). */
  lemma ExecuteSteps<S>(st: Store, cap: Capability<S>, infra: S, id: string, stamps: nat -> string, resolvedTime: string)
    requires id in st.plans && id in st.incidents
    ensures |Run(cap, infra, st.plans[id].actions).outcomes| <= |st.plans[id].actions|
    ensures var acts := st.plans[id].actions;
      var run := Run(cap, infra, acts);
      var ok := AllOk(run.outcomes);
      Execute(st, cap, infra, id, stamps, resolvedTime) == ExecResult(
        if ok then AllSucceeded else Halted,
        Mitigating(st, id).AppendLogs(id, RunLog(id, acts, run.outcomes, stamps))
          .SaveIncident(Finalize(st.incidents[id].(state := IncidentState.Mitigating), ok, resolvedTime)),
        run.infra)
  {
    RunShape(cap, infra, st.plans[id].actions);
  }

  /** One more successful action extends a run that has succeeded so far. */
  lemma {:induction false} RunContinues<S>(cap: Capability<S>, s: S, acts: seq<PlanAction>, i: nat, outs: seq<ActionResult>, before: S, result: ActionResult, next: S)
    requires i < |acts| && |outs| == i && AllOk(outs)
    requires Run(cap, s, acts[..i]) == RunResult(outs, before)
    requires (result, next) == cap(before, acts[i].actionType, acts[i].params) && result.Ok?
    ensures AllOk(outs + [result])
    ensures Run(cap, s, acts[..i + 1]) == RunResult(outs + [result], next)
  {
    RunSnoc(cap, s, acts[..i], acts[i]);
    assert acts[..i + 1] == acts[..i] + [acts[i]];
  }

  /** A failing action ends the whole run with its error. */
  lemma {:induction false} RunEnds<S>(cap: Capability<S>, s: S, acts: seq<PlanAction>, i: nat, outs: seq<ActionResult>, before: S, result: ActionResult, next: S)
    requires i < |acts| && |outs| == i && AllOk(outs)
    requires Run(cap, s, acts[..i]) == RunResult(outs, before)
    requires (result, next) == cap(before, acts[i].actionType, acts[i].params) && result.Err?
    ensures !AllOk(outs + [result])
    ensures Run(cap, s, acts) == RunResult(outs + [result], next)
  {
    RunSnoc(cap, s, acts[..i], acts[i]);
    assert acts[..i + 1] == acts[..i] + [acts[i]];
    assert !(outs + [result])[i].Ok?;
    RunStopsAtFailure(cap, s, acts[..i + 1], acts[i + 1..]);
    assert acts[..i + 1] + acts[i + 1..] == acts;
  }

  /**
   * The loop of `execute_plan`: logs and runs each action in order and stops
   * at the first failure, returning whether every action succeeded. It runs
   * only once the incident is saved as MITIGATING, and it writes log entries
   * and nothing else, so the incident stays MITIGATING throughout.
   */
  method RunActions<S>(store: LocalStorage, cap: Capability<S>, infra: S, incidentId: string, acts: seq<PlanAction>, stamps: nat -> string)
    returns (allSuccess: bool, infraAfter: S)
    requires store.Valid()
    requires incidentId in store.State().incidents
    requires store.State().incidents[incidentId].state == IncidentState.Mitigating
    modifies store
    ensures store.Valid()
    ensures |Run(cap, infra, acts).outcomes| <= |acts|
    ensures var run := Run(cap, infra, acts);
      allSuccess == AllOk(run.outcomes) && infraAfter == run.infra &&
      store.State() == old(store.State()).AppendLogs(incidentId, RunLog(incidentId, acts, run.outcomes, stamps))
    ensures store.State().incidents == old(store.State()).incidents
    ensures store.State().plans == old(store.State()).plans
  {
    ghost var mid := store.State();
    assert mid.AppendLogs(incidentId, []) == mid;
    RunShape(cap, infra, acts);
    infraAfter := infra;
    allSuccess := true;
    ghost var outs: seq<ActionResult> := [];
    var i := 0;
    assert acts[..0] == [];
    while i < |acts|
      invariant 0 <= i <= |acts|
      invariant store.Valid() && allSuccess
      invariant |outs| == i && AllOk(outs)
      invariant Run(cap, infra, acts[..i]) == RunResult(outs, infraAfter)
      invariant store.State() == mid.AppendLogs(incidentId, RunLog(incidentId, acts, outs, stamps))
    {
      var action := acts[i];
      var log := NewActionLog(incidentId, action.id, InProgress, stamps(i));
      store.LogAction(log);
      var (result, next) := cap(infraAfter, action.actionType, action.params);
      if result.Err? {
        RunEnds(cap, infra, acts, i, outs, infraAfter, result, next);
        LoggedFailure(mid, incidentId, acts, outs, stamps, result);
        allSuccess := false;
        infraAfter := next;
        outs := outs + [result];
        break;
      }
      RunContinues(cap, infra, acts, i, outs, infraAfter, result, next);
      log := log.(status := Success, details := result.value);
      store.LogAction(log);
      LoggedSuccess(mid, incidentId, acts, outs, stamps, result);
      infraAfter := next;
      outs := outs + [result];
      i := i + 1;
    }
    if allSuccess {
      assert acts[..i] == acts;
    }
    AppendLogsAppends(mid, incidentId, RunLog(incidentId, acts, outs, stamps), incidentId);
  }

  /** `execute_plan(incident_id)` on the store object, with the capability's state threaded through. */
  method ExecutePlan<S>(store: LocalStorage, cap: Capability<S>, infra: S, incidentId: string, stamps: nat -> string, resolvedTime: string)
    returns (outcome: ExecOutcome, infraAfter: S)
    requires store.Valid()
    modifies store
    ensures store.Valid()
    ensures var e := Execute(old(store.State()), cap, infra, incidentId, stamps, resolvedTime);
      outcome == e.outcome && infraAfter == e.infra && store.State() == e.store
  {
    ghost var st := store.State();
    infraAfter := infra;
    var plan := store.GetPlan(incidentId);
    if plan.None? {
      return NoPlan, infraAfter;
    }
    var found := store.GetIncident(incidentId);
    if found.None? {
      return IncidentMissing, infraAfter;
    }
    var incident := found.value;
    incident := incident.(state := IncidentState.Mitigating);
    store.SaveIncident(incident);
    assert store.State() == Mitigating(st, incidentId);
    var allSuccess;
    allSuccess, infraAfter := RunActions(store, cap, infra, incidentId, plan.value.actions, stamps);
    ExecuteSteps(st, cap, infra, incidentId, stamps, resolvedTime);
    if allSuccess {
      incident := incident.(state := IncidentState.Resolved, resolvedAt := Some(resolvedTime));
      outcome := AllSucceeded;
    } else {
      incident := incident.(state := IncidentState.Failed);
      outcome := Halted;
    }
    store.SaveIncident(incident);
  }
}
