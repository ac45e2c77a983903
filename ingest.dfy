/**
 * Alarm ingestion (src/ingest/handler.py, `handler`): validates an alarm
 * state-change event, ignores every state but "ALARM", and otherwise saves a
 * new OPEN incident of severity HIGH holding the whole event. The incident's
 * fresh id and creation time are parameters.
 */
module Ingest {
  import opened Wrappers
  import opened Values
  import opened Models
  import opened Storage

  /** The response body: the "Invalid event" text, the "Ignored" text, or the JSON carrying the new id. */
  datatype IngestBody = InvalidEvent | IgnoredBody | Created(incidentId: string)

  datatype IngestResponse = IngestResponse(statusCode: int, body: IngestBody)

  /** What the handler decides about an event. */
  datatype Decision = Reject | Ignore | Accept(alarmName: string, summary: string)

  /**
   * The decision: reject when the alarm name or the new state value is
   * missing or falsy, ignore a state value other than "ALARM", and accept
   * otherwise with the state reason (or "No reason provided") as summary.
   * A `detail` or `state` that is not a dict raises, and building the
   * incident raises when the alarm name or the summary is not a string.
   */
  function Classify(event: map<string, Value>): Result<Decision, string>
  {
    match GetDict(event, "detail")
    case Err(e) => Err(e)
    case Ok(detail) =>
      var alarmName := Get(detail, "alarmName", VNull);
      match GetDict(detail, "state")
      case Err(e) => Err(e)
      case Ok(state) =>
        var newState := Get(state, "value", VNull);
        if !Truthy(alarmName) || !Truthy(newState) then Ok(Reject)
        else if newState != VStr("ALARM") then Ok(Ignore)
        else
          var summary := Get(state, "reason", VStr("No reason provided"));
          if !alarmName.VStr? then Err("alarm_name: Input should be a valid string")
          else if !summary.VStr? then Err("summary: Input should be a valid string")
          else Ok(Accept(alarmName.s, summary.s))
  }

  /** The incident an accepted event creates. */
  function IncidentFor(event: map<string, Value>, alarmName: string, summary: string, freshId: string, now: string): Incident
  {
    NewIncident(freshId, alarmName, summary, now).(severity := High, cloudwatchEvent := event)
  }

  datatype IngestStep = IngestStep(response: IngestResponse, store: Store)

  /** The response and the store after `handler(event)`, or the error it raises (nothing saved). */
  function Ingestion(st: Store, event: map<string, Value>, freshId: string, now: string): Result<IngestStep, string>
  {
    match Classify(event)
    case Err(e) => Err(e)
    case Ok(Reject) => Ok(IngestStep(IngestResponse(400, InvalidEvent), st))
    case Ok(Ignore) => Ok(IngestStep(IngestResponse(200, IgnoredBody), st))
    case Ok(Accept(alarmName, summary)) =>
      Ok(IngestStep(IngestResponse(200, Created(freshId)), st.SaveIncident(IncidentFor(event, alarmName, summary, freshId, now))))
  }

  /** The event's detail and state parts, as the handler reads them. */
  predicate Readable(event: map<string, Value>)
  {
    GetDict(event, "detail").Ok? && GetDict(GetDict(event, "detail").value, "state").Ok?
  }

  function AlarmNameOf(event: map<string, Value>): Value
    requires Readable(event)
  {
    Get(GetDict(event, "detail").value, "alarmName", VNull)
  }

  function StateValueOf(event: map<string, Value>): Value
    requires Readable(event)
  {
    Get(GetDict(GetDict(event, "detail").value, "state").value, "value", VNull)
  }

  /**
   * 400 exactly when the alarm name or state value is missing or falsy, and
   * 200 "Ignored" exactly when both are present and the state is not "ALARM";
   * neither saves anything.
   */
  lemma RejectAndIgnore(st: Store, event: map<string, Value>, freshId: string, now: string)
    ensures Ingestion(st, event, freshId, now).Err? <==> Classify(event).Err?
    ensures (Ingestion(st, event, freshId, now).Ok? && Ingestion(st, event, freshId, now).value.response.statusCode == 400) <==>
      Readable(event) && (!Truthy(AlarmNameOf(event)) || !Truthy(StateValueOf(event)))
    ensures (Ingestion(st, event, freshId, now).Ok? && Ingestion(st, event, freshId, now).value.response.body == IgnoredBody) <==>
      Readable(event) && Truthy(AlarmNameOf(event)) && Truthy(StateValueOf(event)) && StateValueOf(event) != VStr("ALARM")
    ensures Ingestion(st, event, freshId, now).Ok? && !Ingestion(st, event, freshId, now).value.response.body.Created? ==>
      Ingestion(st, event, freshId, now).value.store == st
  {
  }

  /**
   * An "ALARM" event with a string alarm name saves exactly one incident,
   * under the fresh id: OPEN, severity HIGH, the reason (or "No reason
   * provided") as summary, no resolution time and the whole event; the
   * response is 200 with that id.
   */
  lemma AlarmCreatesIncident(st: Store, event: map<string, Value>, freshId: string, now: string, other: string)
    requires Readable(event) && StateValueOf(event) == VStr("ALARM") && AlarmNameOf(event).VStr? && AlarmNameOf(event).s != ""
    ensures var state := GetDict(GetDict(event, "detail").value, "state").value;
      var reason := Get(state, "reason", VStr("No reason provided"));
      (reason.VStr? <==> Ingestion(st, event, freshId, now).Ok?) &&
      (reason.VStr? ==>
        var step := Ingestion(st, event, freshId, now).value;
        step.response == IngestResponse(200, Created(freshId)) &&
        freshId in step.store.incidents &&
        step.store.incidents[freshId] == Incident(freshId, AlarmNameOf(event).s, Open, High, reason.s, now, None, event) &&
        (other != freshId ==> step.store.GetIncident(other) == st.GetIncident(other)) &&
        step.store.plans == st.plans && step.store.actionLogs == st.actionLogs)
    ensures var state := GetDict(GetDict(event, "detail").value, "state").value;
      "reason" !in state ==>
        (Ingestion(st, event, freshId, now).Ok? &&
         Ingestion(st, event, freshId, now).value.store.incidents[freshId].summary == "No reason provided")
  {
  }

  /** Ingestion keeps the store well formed. */
  lemma IngestKeepsWellFormed(st: Store, event: map<string, Value>, freshId: string, now: string)
    requires st.WellFormed() && Ingestion(st, event, freshId, now).Ok?
    ensures Ingestion(st, event, freshId, now).value.store.WellFormed()
  {
    var decision := Classify(event).value;
    if decision.Accept? {
      SaveIncidentKeepsWellFormed(st, IncidentFor(event, decision.alarmName, decision.summary, freshId, now));
    }
  }

  /** `handler(event)` on the store object. */
  method Handler(store: LocalStorage, event: map<string, Value>, freshId: string, now: string)
    returns (r: Result<IngestResponse, string>)
    requires store.Valid()
    modifies store
    ensures store.Valid()
    ensures var expected := Ingestion(old(store.State()), event, freshId, now);
      (r.Err? <==> expected.Err?) &&
      (r.Ok? ==> r.value == expected.value.response && store.State() == expected.value.store) &&
      (r.Err? ==> r.error == expected.error && store.State() == old(store.State()))
  {
    var decision := Classify(event);
    if decision.Err? {
      return Err(decision.error);
    }
    match decision.value
    case Reject =>
      r := Ok(IngestResponse(400, InvalidEvent));
    case Ignore =>
      r := Ok(IngestResponse(200, IgnoredBody));
    case Accept(alarmName, summary) =>
      var incident := IncidentFor(event, alarmName, summary, freshId, now);
      store.SaveIncident(incident);
      r := Ok(IngestResponse(200, Created(incident.incidentId)));
  }
}
