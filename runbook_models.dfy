/**
 * The declarative runbook records (src/shared/runbook_models.py). Loading
 * them from YAML files is not part of this model: a catalog is a sequence.
 */
module RunbookModels {
  import opened Wrappers
  import opened Values

  /** One step of a runbook: `params` may hold `${...}` tokens, `safety` is opaque except `approval_required`. */
  datatype ActionDef = ActionDef(
    id: string,
    actionType: string,
    params: map<string, Value>,
    safety: map<string, Value>)

  /** `ActionDef(id, type, params)`: the first three fields are required, `safety` defaults to {}. */
  function NewActionDef(id: string, actionType: string, params: map<string, Value>): (a: ActionDef)
    ensures a.id == id && a.actionType == actionType && a.params == params && a.safety == map[]
  {
    ActionDef(id, actionType, params, map[])
  }

  /** Match criteria; every field is optional, `dimensions` is a string-to-string map. */
  datatype MatchCriteria = MatchCriteria(
    alarmNamePrefix: Option<string>,
    namespace: Option<string>,
    dimensions: Option<map<string, string>>)

  /** `MatchCriteria()`: all three fields default to None. */
  function NoCriteria(): (c: MatchCriteria)
    ensures c.alarmNamePrefix == None && c.namespace == None && c.dimensions == None
  {
    MatchCriteria(None, None, None)
  }

  /** A runbook: its identifier, its `match` block and its ordered actions. */
  datatype Runbook = Runbook(runbookId: string, criteria: MatchCriteria, actions: seq<ActionDef>)
}
