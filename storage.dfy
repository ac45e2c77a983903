/**
 * The local store (src/shared/storage.py, `LocalStorage`): incidents and
 * plans keyed by incident id, overwritten on save, and one append-only list
 * of action-log entries per incident. The three JSON files become in-memory
 * maps; Python dicts keep insertion order, so the incident file's key order
 * is kept as `incidentOrder`, which is the order `list_incidents` returns.
 *
 * `Store` is the value the files hold, with the store's operations as pure
 * functions; `LocalStorage` is the object whose methods update its fields in
 * place, each proved against the corresponding function.
 */
module Storage {
  import opened Wrappers
  import opened Models

  datatype Store = Store(
    incidents: map<string, Incident>,
    incidentOrder: seq<string>,
    plans: map<string, RemediationPlan>,
    actionLogs: map<string, seq<ActionLog>>)
  {
    /**
     * What every reachable store satisfies: the key order lists each saved
     * incident exactly once, and every record sits under its own incident id.
     */
    ghost predicate WellFormed()
    {
      && (forall i, j :: 0 <= i < j < |incidentOrder| ==> incidentOrder[i] != incidentOrder[j])
      && (forall id :: id in incidents <==> id in incidentOrder)
      && (forall id :: id in incidents ==> incidents[id].incidentId == id)
      && (forall id :: id in plans ==> plans[id].incidentId == id)
      && (forall id, k :: id in actionLogs && 0 <= k < |actionLogs[id]| ==> actionLogs[id][k].incidentId == id)
    }

    /** `data[incident.incident_id] = incident`: a new id goes to the end of the key order. */
    function SaveIncident(incident: Incident): Store
    {
      Store(
        incidents[incident.incidentId := incident],
        if incident.incidentId in incidents then incidentOrder else incidentOrder + [incident.incidentId],
        plans, actionLogs)
    }

    function GetIncident(id: string): Option<Incident>
    {
      if id in incidents then Some(incidents[id]) else None
    }

    /** The stored incidents in key order. */
    function ListIncidents(): seq<Incident>
      requires WellFormed()
    {
      seq(|incidentOrder|, k requires 0 <= k < |incidentOrder| => incidents[incidentOrder[k]])
    }

    /** `data[plan.incident_id] = plan`, whatever the plan's version. */
    function SavePlan(plan: RemediationPlan): Store
    {
      Store(incidents, incidentOrder, plans[plan.incidentId := plan], actionLogs)
    }

    function GetPlan(id: string): Option<RemediationPlan>
    {
      if id in plans then Some(plans[id]) else None
    }

    /** The action-log list of an incident; none yet is the empty list. */
    function LogsOf(id: string): seq<ActionLog>
    {
      if id in actionLogs then actionLogs[id] else []
    }

    /** Appends a snapshot of the entry to its incident's list, creating the list if absent. */
    function LogAction(log: ActionLog): Store
    {
      Store(incidents, incidentOrder, plans, actionLogs[log.incidentId := LogsOf(log.incidentId) + [log]])
    }

    /** Several entries of one incident appended in order; appending none creates no list. */
    function AppendLogs(id: string, entries: seq<ActionLog>): Store
    {
      if |entries| == 0 then this
      else Store(incidents, incidentOrder, plans, actionLogs[id := LogsOf(id) + entries])
    }
  }

  /** The store a fresh `LocalStorage` starts from: three empty files. */
  function EmptyStore(): (st: Store)
    ensures st.WellFormed()
  {
    Store(map[], [], map[], map[])
  }

  /** A fresh store holds no incident, plan or log for any id. */
  lemma FreshStoreIsEmpty(id: string)
    ensures EmptyStore().GetIncident(id) == None && EmptyStore().GetPlan(id) == None
    ensures EmptyStore().LogsOf(id) == [] && EmptyStore().ListIncidents() == []
  {
  }

  /** After saving an incident it is what a lookup of its id returns; every other incident is unchanged. */
  lemma SaveIncidentThenGet(st: Store, incident: Incident, id: string)
    ensures st.SaveIncident(incident).GetIncident(incident.incidentId) == Some(incident)
    ensures id != incident.incidentId ==> st.SaveIncident(incident).GetIncident(id) == st.GetIncident(id)
    ensures st.SaveIncident(incident).plans == st.plans && st.SaveIncident(incident).actionLogs == st.actionLogs
  {
  }

  /** Saving a plan replaces any earlier plan of that incident, whatever either plan's version. */
  lemma SavePlanOverwrites(st: Store, p1: RemediationPlan, p2: RemediationPlan, id: string)
    requires p1.incidentId == p2.incidentId
    ensures st.SavePlan(p1).SavePlan(p2).GetPlan(p2.incidentId) == Some(p2)
    ensures id != p2.incidentId ==> st.SavePlan(p2).GetPlan(id) == st.GetPlan(id)
  {
  }

  /** Logging appends after the earlier entries of that incident and leaves other incidents' lists alone. */
  lemma LogActionAppends(st: Store, log: ActionLog, id: string)
    ensures st.LogAction(log).LogsOf(log.incidentId) == st.LogsOf(log.incidentId) + [log]
    ensures id != log.incidentId ==> st.LogAction(log).LogsOf(id) == st.LogsOf(id)
    ensures st.LogAction(log).incidents == st.incidents && st.LogAction(log).plans == st.plans
  {
  }

  /** Logging one entry at a time is appending them all at once. */
  lemma LogActionIsAppend(st: Store, id: string, entries: seq<ActionLog>, log: ActionLog)
    requires log.incidentId == id
    ensures st.AppendLogs(id, entries).LogAction(log) == st.AppendLogs(id, entries + [log])
  {
    if |entries| == 0 {
      assert entries + [log] == [log];
    } else {
      assert st.LogsOf(id) + entries + [log] == st.LogsOf(id) + (entries + [log]);
    }
  }

  /** Appending entries extends that incident's list by exactly them and changes nothing else. */
  lemma AppendLogsAppends(st: Store, id: string, entries: seq<ActionLog>, other: string)
    ensures st.AppendLogs(id, entries).LogsOf(id) == st.LogsOf(id) + entries
    ensures other != id ==> st.AppendLogs(id, entries).LogsOf(other) == st.LogsOf(other)
    ensures st.AppendLogs(id, entries).incidents == st.incidents
    ensures st.AppendLogs(id, entries).incidentOrder == st.incidentOrder
    ensures st.AppendLogs(id, entries).plans == st.plans
    ensures (st.WellFormed() && forall k :: 0 <= k < |entries| ==> entries[k].incidentId == id) ==>
      st.AppendLogs(id, entries).WellFormed()
  {
    if |entries| == 0 {
      assert st.LogsOf(id) + entries == st.LogsOf(id);
    }
  }

  /**
   * Saving an incident keeps the store well formed; a new id goes to the end
   * of the key order and an existing id keeps its place.
   */
  lemma SaveIncidentKeepsWellFormed(st: Store, incident: Incident)
    requires st.WellFormed()
    ensures st.SaveIncident(incident).WellFormed()
    ensures incident.incidentId !in st.incidents ==>
      st.SaveIncident(incident).incidentOrder == st.incidentOrder + [incident.incidentId]
    ensures incident.incidentId in st.incidents ==> st.SaveIncident(incident).incidentOrder == st.incidentOrder
  {
    var id := incident.incidentId;
    var s1 := st.SaveIncident(incident);
    if id !in st.incidents {
      assert id !in st.incidentOrder;
      forall i, j | 0 <= i < j < |s1.incidentOrder| ensures s1.incidentOrder[i] != s1.incidentOrder[j] {
        if j == |st.incidentOrder| {
          assert s1.incidentOrder[i] == st.incidentOrder[i];
        }
      }
      forall x ensures x in s1.incidents <==> x in s1.incidentOrder {
        assert x in s1.incidentOrder <==> x in st.incidentOrder || x == id;
      }
    }
  }

  /** Saving a plan keeps the store well formed. */
  lemma SavePlanKeepsWellFormed(st: Store, plan: RemediationPlan)
    requires st.WellFormed()
    ensures st.SavePlan(plan).WellFormed()
  {
    var s2 := st.SavePlan(plan);
    forall x | x in s2.plans ensures s2.plans[x].incidentId == x {
      if x != plan.incidentId {
        assert s2.plans[x] == st.plans[x];
      }
    }
  }

  /** Logging an action keeps the store well formed. */
  lemma LogActionKeepsWellFormed(st: Store, log: ActionLog)
    requires st.WellFormed()
    ensures st.LogAction(log).WellFormed()
  {
    var s3 := st.LogAction(log);
    forall x, k | x in s3.actionLogs && 0 <= k < |s3.actionLogs[x]| ensures s3.actionLogs[x][k].incidentId == x {
      if x == log.incidentId && k == |s3.actionLogs[x]| - 1 {
        assert s3.actionLogs[x][k] == log;
      } else if x == log.incidentId {
        assert s3.actionLogs[x][k] == st.LogsOf(x)[k];
      }
    }
  }

  /** Every store operation keeps the store well formed. */
  lemma {:induction false} OperationsPreserveWellFormed(st: Store, incident: Incident, plan: RemediationPlan, log: ActionLog)
    requires st.WellFormed()
    ensures st.SaveIncident(incident).WellFormed()
    ensures st.SavePlan(plan).WellFormed()
    ensures st.LogAction(log).WellFormed()
  {
    SaveIncidentKeepsWellFormed(st, incident);
    SavePlanKeepsWellFormed(st, plan);
    LogActionKeepsWellFormed(st, log);
  }

  /** `list_incidents` holds exactly one entry per saved incident id, and it is that id's latest value. */
  lemma {:induction false} ListIncidentsExact(st: Store, id: string)
    requires st.WellFormed()
    ensures id in st.incidents ==>
      exists k :: 0 <= k < |st.ListIncidents()| && st.ListIncidents()[k] == st.incidents[id]
    ensures forall k :: 0 <= k < |st.ListIncidents()| ==> st.ListIncidents()[k].incidentId in st.incidents
    ensures forall j, k :: 0 <= j < k < |st.ListIncidents()| ==> st.ListIncidents()[j].incidentId != st.ListIncidents()[k].incidentId
  {
    var r := st.ListIncidents();
    if id in st.incidents {
      assert id in st.incidentOrder;
      var k :| 0 <= k < |st.incidentOrder| && st.incidentOrder[k] == id;
      assert r[k] == st.incidents[id];
    }
    forall j, k | 0 <= j < k < |r| ensures r[j].incidentId != r[k].incidentId {
      assert r[j].incidentId == st.incidentOrder[j];
      assert r[k].incidentId == st.incidentOrder[k];
    }
  }

  /** The store object. Its fields are those of `Store`. */
  class LocalStorage {
    var incidents: map<string, Incident>
    var incidentOrder: seq<string>
    var plans: map<string, RemediationPlan>
    var actionLogs: map<string, seq<ActionLog>>

    function State(): Store
      reads this
    {
      Store(incidents, incidentOrder, plans, actionLogs)
    }

    ghost predicate Valid()
      reads this
    {
      State().WellFormed()
    }

    /** A store over three empty files. */
    constructor ()
      ensures Valid() && State() == EmptyStore()
    {
      incidents, incidentOrder, plans, actionLogs := map[], [], map[], map[];
    }

    method SaveIncident(incident: Incident)
      requires Valid()
      modifies this
      ensures Valid()
      ensures State() == old(State()).SaveIncident(incident)
    {
      SaveIncidentKeepsWellFormed(State(), incident);
      if incident.incidentId !in incidents {
        incidentOrder := incidentOrder + [incident.incidentId];
      }
      incidents := incidents[incident.incidentId := incident];
    }

    method GetIncident(id: string) returns (r: Option<Incident>)
      ensures r == State().GetIncident(id)
    {
      r := if id in incidents then Some(incidents[id]) else None;
    }

    /** Reads the incidents back one by one, in key order. */
    method ListIncidents() returns (r: seq<Incident>)
      requires Valid()
      ensures r == State().ListIncidents()
    {
      r := [];
      var i := 0;
      while i < |incidentOrder|
        invariant 0 <= i <= |incidentOrder|
        invariant |r| == i
        invariant forall k :: 0 <= k < i ==> r[k] == incidents[incidentOrder[k]]
      {
        r := r + [incidents[incidentOrder[i]]];
        i := i + 1;
      }
    }

    method SavePlan(plan: RemediationPlan)
      requires Valid()
      modifies this
      ensures Valid()
      ensures State() == old(State()).SavePlan(plan)
    {
      SavePlanKeepsWellFormed(State(), plan);
      plans := plans[plan.incidentId := plan];
    }

    method GetPlan(id: string) returns (r: Option<RemediationPlan>)
      ensures r == State().GetPlan(id)
    {
      r := if id in plans then Some(plans[id]) else None;
    }

    method LogAction(log: ActionLog)
      requires Valid()
      modifies this
      ensures Valid()
      ensures State() == old(State()).LogAction(log)
    {
      LogActionKeepsWellFormed(State(), log);
      if log.incidentId !in actionLogs {
        actionLogs := actionLogs[log.incidentId := []];
      }
      actionLogs := actionLogs[log.incidentId := actionLogs[log.incidentId] + [log]];
    }
  }
}
