/**
 * The action handlers (src/shared/actions.py). `Perform` is the action
 * capability as a function of the auto-scaling state: it is what the
 * executor is given. `ActionHandler` is the handler object of the source,
 * working on the mock's shared tables; each of its methods is proved to
 * compute `Perform`'s result and new state.
 */
module Actions {
  import opened Wrappers
  import opened Values
  import opened AwsMock

  /** What an action returns: its result payload, or the message of the exception it raised. */
  type ActionResult = Result<map<string, Value>, string>

  /** The four handlers `execute` can dispatch to. */
  predicate IsHandlerName(actionType: string)
  {
    actionType in {"scale_asg", "ssm_restart_service", "scale_ecs_service", "rollback_deployment"}
  }

  /** `int(params.get("adjustment", 1))`. */
  function Adjustment(params: map<string, Value>): Result<int, string>
  {
    IntOf(Get(params, "adjustment", VInt(1)))
  }

  /** `scale_asg`: read the group's capacity, add the adjustment, write it back. */
  function ScaleAsgEffect(groups: AsgGroups, params: map<string, Value>): (ActionResult, AsgGroups)
  {
    var name := Get(params, "asg_name", VNull);
    match Adjustment(params)
    case Err(e) => (Err(e), groups)
    case Ok(adjustment) =>
      if name.VStr? && name.s in groups then
        var current := groups[name.s].desiredCapacity;
        (Ok(map["old" := VInt(current), "new" := VInt(current + adjustment)]),
         SetCapacity(groups, name.s, current + adjustment))
      else
        (Err("ASG not found"), groups)
  }

  const EcsScaledPayload: map<string, Value> := map["status" := VStr("scaled"), "new_count" := VInt(5)]
  const RollbackPayload: map<string, Value> := map["status" := VStr("rolled_back"), "previous_version" := VStr("v1")]

  /**
   * `ActionHandler.execute(action_type, params)` on the auto-scaling state
   * `groups`: the result, and the state afterwards. An action type naming no
   * handler raises NotImplementedError.
   */
  function Perform(groups: AsgGroups, actionType: string, params: map<string, Value>): (ActionResult, AsgGroups)
  {
    if actionType == "scale_asg" then ScaleAsgEffect(groups, params)
    else if actionType == "ssm_restart_service" then (Ok(map["command_id" := VStr(MockCommandId)]), groups)
    else if actionType == "scale_ecs_service" then
      (match Adjustment(params)
       case Err(e) => (Err(e), groups)
       case Ok(_) => (Ok(EcsScaledPayload), groups))
    else if actionType == "rollback_deployment" then (Ok(RollbackPayload), groups)
    else (Err("Action " + actionType + " not implemented"), groups)
  }

  /** Scaling an existing group sets its capacity to old plus adjustment and reports both; nothing else changes. */
  lemma ScaleAsgOnExistingGroup(groups: AsgGroups, params: map<string, Value>, name: string, adjustment: int)
    requires Get(params, "asg_name", VNull) == VStr(name) && name in groups
    requires Adjustment(params) == Ok(adjustment)
    ensures var (r, after) := Perform(groups, "scale_asg", params);
      var current := groups[name].desiredCapacity;
      r == Ok(map["old" := VInt(current), "new" := VInt(current + adjustment)]) &&
      after.Keys == groups.Keys &&
      after[name] == groups[name].(desiredCapacity := current + adjustment) &&
      forall other :: other in groups && other != name ==> after[other] == groups[other]
  {
  }

  /** With no adjustment given, scaling adds one. */
  lemma DefaultAdjustmentIsOne(params: map<string, Value>)
    requires "adjustment" !in params
    ensures Adjustment(params) == Ok(1)
  {
  }

  /** Scaling an unknown group, or with an adjustment `int()` rejects, raises and changes no capacity. */
  lemma ScaleAsgFailureChangesNothing(groups: AsgGroups, params: map<string, Value>)
    requires var name := Get(params, "asg_name", VNull);
      Adjustment(params).Err? || !(name.VStr? && name.s in groups)
    ensures Perform(groups, "scale_asg", params).0.Err?
    ensures Perform(groups, "scale_asg", params).1 == groups
  {
  }

  /** Only `scale_asg` changes infrastructure state, and only when it succeeds. */
  lemma OnlyScaleAsgChangesState(groups: AsgGroups, actionType: string, params: map<string, Value>)
    requires actionType != "scale_asg" || Perform(groups, actionType, params).0.Err?
    ensures Perform(groups, actionType, params).1 == groups
  {
  }

  /** `execute` raises for any action type that names no handler, and the other handlers' fixed payloads. */
  lemma DispatchOutcomes(groups: AsgGroups, actionType: string, params: map<string, Value>)
    ensures !IsHandlerName(actionType) ==> Perform(groups, actionType, params).0.Err?
    ensures actionType == "ssm_restart_service" ==>
      Perform(groups, actionType, params).0 == Ok(map["command_id" := VStr("mock-command-id-12345")])
    ensures actionType == "rollback_deployment" ==>
      Perform(groups, actionType, params).0 == Ok(map["status" := VStr("rolled_back"), "previous_version" := VStr("v1")])
    ensures actionType == "scale_ecs_service" && Adjustment(params).Ok? ==>
      Perform(groups, actionType, params).0 == Ok(map["status" := VStr("scaled"), "new_count" := VInt(5)])
  {
  }

  /** The handler object; `boto` is the mock module whose tables it acts on. */
  class ActionHandler {
    const boto: MockBoto3

    constructor (boto: MockBoto3)
      ensures this.boto == boto
    {
      this.boto := boto;
    }

    method ScaleAsg(params: map<string, Value>) returns (r: ActionResult)
      modifies boto.asgState
      ensures (r, boto.asgState.groups) == ScaleAsgEffect(old(boto.asgState.groups), params)
    {
      var name := Get(params, "asg_name", VNull);
      var adjustment := Adjustment(params);
      if adjustment.Err? {
        return Err(adjustment.error);
      }
      var client := boto.Client("autoscaling");
      if !(client.Ok? && client.value.AutoScalingClient?) {
        assert false;
      }
      var asg := client.value.asg;
      if !name.VStr? {
        return Err("ASG not found");
      }
      var groupsFound := asg.DescribeAutoScalingGroups([name.s]);
      DescribedSingle(name.s, asg.state.groups);
      if |groupsFound| == 0 {
        return Err("ASG not found");
      }
      var current := groupsFound[0].desiredCapacity;
      var newCapacity := current + adjustment.value;
      asg.SetDesiredCapacity(name.s, newCapacity);
      r := Ok(map["old" := VInt(current), "new" := VInt(newCapacity)]);
    }

    method SsmRestartService(params: map<string, Value>) returns (r: ActionResult)
      ensures r == Ok(map["command_id" := VStr(MockCommandId)])
    {
      var instanceId := Get(params, "instance_id", VNull);
      var client := boto.Client("ssm");
      if !(client.Ok? && client.value.SsmClient?) {
        assert false;
      }
      var res := client.value.ssm.SendCommand([instanceId], "AWS-RunShellScript", map[]);
      r := Ok(map["command_id" := res["Command"].fields["CommandId"]]);
    }

    method ScaleEcsService(params: map<string, Value>) returns (r: ActionResult)
      ensures r == if Adjustment(params).Err? then Err(Adjustment(params).error) else Ok(EcsScaledPayload)
    {
      var adjustment := Adjustment(params);
      if adjustment.Err? {
        return Err(adjustment.error);
      }
      r := Ok(EcsScaledPayload);
    }

    method RollbackDeployment(params: map<string, Value>) returns (r: ActionResult)
      ensures r == Ok(RollbackPayload)
    {
      r := Ok(RollbackPayload);
    }

    /** `execute(action_type, params)`: dispatch by name. */
    method Execute(actionType: string, params: map<string, Value>) returns (r: ActionResult)
      modifies boto.asgState
      ensures (r, boto.asgState.groups) == Perform(old(boto.asgState.groups), actionType, params)
    {
      if actionType == "scale_asg" {
        r := ScaleAsg(params);
      } else if actionType == "ssm_restart_service" {
        r := SsmRestartService(params);
      } else if actionType == "scale_ecs_service" {
        r := ScaleEcsService(params);
      } else if actionType == "rollback_deployment" {
        r := RollbackDeployment(params);
      } else {
        r := Err("Action " + actionType + " not implemented");
      }
    }
  }
}
