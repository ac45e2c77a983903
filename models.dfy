/**
 * The persisted records of the remediation pipeline (src/shared/models.py):
 * the incident, its remediation plan and the action-log entries, with the
 * defaults their constructors supply. Generated identifiers and timestamps
 * are parameters.
 */
module Models {
  import opened Wrappers
  import opened Values

  /** Lifecycle of an incident. */
  datatype IncidentState = Open | Mitigating | Resolved | Failed
  {
    /** The enum's string value, as stored. */
    function Text(): string
    {
      match this
      case Open => "OPEN"
      case Mitigating => "MITIGATING"
      case Resolved => "RESOLVED"
      case Failed => "FAILED"
    }
  }

  datatype Severity = Critical | High | Medium | Low
  {
    function Text(): string
    {
      match this
      case Critical => "CRITICAL"
      case High => "HIGH"
      case Medium => "MEDIUM"
      case Low => "LOW"
    }
  }

  /** Status of one action-log entry. */
  datatype ActionStatus = Pending | InProgress | Success | ActionFailed | Skipped
  {
    function Text(): string
    {
      match this
      case Pending => "PENDING"
      case InProgress => "IN_PROGRESS"
      case Success => "SUCCESS"
      case ActionFailed => "FAILED"
      case Skipped => "SKIPPED"
    }
  }

  /** Reading a stored state string back: `IncidentState(s)`, which raises for any other string. */
  function ParseIncidentState(s: string): (r: Option<IncidentState>)
    ensures r.Some? ==> r.value.Text() == s
    ensures r.None? <==> s !in {"OPEN", "MITIGATING", "RESOLVED", "FAILED"}
  {
    if s == "OPEN" then Some(Open)
    else if s == "MITIGATING" then Some(Mitigating)
    else if s == "RESOLVED" then Some(Resolved)
    else if s == "FAILED" then Some(Failed)
    else None
  }

  function ParseActionStatus(s: string): (r: Option<ActionStatus>)
    ensures r.Some? ==> r.value.Text() == s
    ensures r.None? <==> s !in {"PENDING", "IN_PROGRESS", "SUCCESS", "FAILED", "SKIPPED"}
  {
    if s == "PENDING" then Some(Pending)
    else if s == "IN_PROGRESS" then Some(InProgress)
    else if s == "SUCCESS" then Some(Success)
    else if s == "FAILED" then Some(ActionFailed)
    else if s == "SKIPPED" then Some(Skipped)
    else None
  }

  /** Every state survives being stored as its string value and read back. */
  lemma IncidentStateRoundTrip(st: IncidentState)
    ensures ParseIncidentState(st.Text()) == Some(st)
  {
  }

  lemma ActionStatusRoundTrip(st: ActionStatus)
    ensures ParseActionStatus(st.Text()) == Some(st)
  {
  }

  /** One remediation case. */
  datatype Incident = Incident(
    incidentId: string,
    alarmName: string,
    state: IncidentState,
    severity: Severity,
    summary: string,
    createdAt: string,
    resolvedAt: Option<string>,
    cloudwatchEvent: map<string, Value>)

  /**
   * `Incident(alarm_name=..., summary=...)` with every other field defaulted;
   * `incidentId` stands for the fresh uuid4 and `createdAt` for the current time.
   */
  function NewIncident(incidentId: string, alarmName: string, summary: string, createdAt: string): (i: Incident)
    ensures i.incidentId == incidentId && i.alarmName == alarmName && i.summary == summary
    ensures i.createdAt == createdAt
    ensures i.state == Open && i.severity == Medium
    ensures i.resolvedAt == None && i.cloudwatchEvent == map[]
  {
    Incident(incidentId, alarmName, Open, Medium, summary, createdAt, None, map[])
  }

  /** One planned action: the dictionary with keys id, type, params and sanity_checks. */
  datatype PlanAction = PlanAction(
    id: string,
    actionType: string,
    params: map<string, Value>,
    sanityChecks: map<string, Value>)

  datatype RemediationPlan = RemediationPlan(
    incidentId: string,
    planVersion: string,
    requiresApproval: bool,
    actions: seq<PlanAction>,
    createdAt: string)

  /** `RemediationPlan(incident_id=...)` with every other field defaulted. */
  function NewPlan(incidentId: string, createdAt: string): (p: RemediationPlan)
    ensures p.incidentId == incidentId && p.createdAt == createdAt
    ensures p.planVersion == "v1" && !p.requiresApproval && p.actions == []
  {
    RemediationPlan(incidentId, "v1", false, [], createdAt)
  }

  /** One action-log entry. */
  datatype ActionLog = ActionLog(
    incidentId: string,
    actionId: string,
    timestamp: string,
    status: ActionStatus,
    details: map<string, Value>)

  /** `ActionLog(incident_id=..., action_id=..., status=...)`: the status is required, details default to {}. */
  function NewActionLog(incidentId: string, actionId: string, status: ActionStatus, timestamp: string): (l: ActionLog)
    ensures l.incidentId == incidentId && l.actionId == actionId && l.status == status
    ensures l.timestamp == timestamp && l.details == map[]
  {
    ActionLog(incidentId, actionId, timestamp, status, map[])
  }
}
