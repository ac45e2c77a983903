/**
 * The mocked cloud clients (src/shared/aws_mock.py). The auto-scaling and
 * ECS state tables are objects created once by `MockBoto3` and handed by
 * reference to every client it makes, so a change made through one client
 * is seen through every later one.
 */
module AwsMock {
  import opened Wrappers
  import opened Values

  datatype AsgGroup = AsgGroup(desiredCapacity: int, maxSize: int)
  datatype EcsService = EcsService(desiredCount: int)

  /** One entry of `describe_auto_scaling_groups`. */
  datatype AsgDescription = AsgDescription(name: string, desiredCapacity: int, maxSize: int)

  type AsgGroups = map<string, AsgGroup>
  type EcsServices = map<string, EcsService>

  function InitialAsgGroups(): AsgGroups
  {
    map["app-prod-asg" := AsgGroup(2, 5)]
  }

  function InitialEcsServices(): EcsServices
  {
    map["my-cluster/my-service" := EcsService(2)]
  }

  /** The command id every `send_command` returns. */
  const MockCommandId := "mock-command-id-12345"

  /** The described groups: one entry per requested name that exists, in request order. */
  function Described(names: seq<string>, groups: AsgGroups): seq<AsgDescription>
    decreases |names|
  {
    if |names| == 0 then []
    else
      var last := names[|names| - 1];
      Described(names[..|names| - 1], groups) +
        (if last in groups then [AsgDescription(last, groups[last].desiredCapacity, groups[last].maxSize)] else [])
  }

  /** Describing two request lists one after the other is describing their concatenation. */
  lemma {:induction false} DescribedConcat(a: seq<string>, b: seq<string>, groups: AsgGroups)
    ensures Described(a + b, groups) == Described(a, groups) + Described(b, groups)
    decreases |b|
  {
    if |b| == 0 {
      assert a + b == a;
    } else {
      var ab := a + b;
      assert ab[..|ab| - 1] == a + b[..|b| - 1];
      assert ab[|ab| - 1] == b[|b| - 1];
      DescribedConcat(a, b[..|b| - 1], groups);
    }
  }

  /** Describing one name: its current values when it exists, nothing otherwise. */
  lemma DescribedSingle(name: string, groups: AsgGroups)
    ensures Described([name], groups) ==
      if name in groups then [AsgDescription(name, groups[name].desiredCapacity, groups[name].maxSize)] else []
  {
    assert [name][..0] == [];
  }

  /** Every described entry is a requested, existing group with its current values. */
  lemma {:induction false} DescribedSound(names: seq<string>, groups: AsgGroups, k: nat)
    requires k < |Described(names, groups)|
    ensures Described(names, groups)[k].name in names
    ensures Described(names, groups)[k].name in groups
    ensures Described(names, groups)[k] ==
      AsgDescription(Described(names, groups)[k].name,
        groups[Described(names, groups)[k].name].desiredCapacity, groups[Described(names, groups)[k].name].maxSize)
    decreases |names|
  {
    var init := names[..|names| - 1];
    if k < |Described(init, groups)| {
      DescribedSound(init, groups, k);
      assert Described(names, groups)[k] == Described(init, groups)[k];
      assert forall x :: x in init ==> x in names;
    }
  }

  /** Every requested name that exists is described. */
  lemma {:induction false} DescribedComplete(names: seq<string>, groups: AsgGroups, i: nat)
    requires i < |names| && names[i] in groups
    ensures AsgDescription(names[i], groups[names[i]].desiredCapacity, groups[names[i]].maxSize) in Described(names, groups)
    decreases |names|
  {
    if i < |names| - 1 {
      DescribedComplete(names[..|names| - 1], groups, i);
    }
  }

  /** `set_desired_capacity`: only an existing group's desired capacity changes, even beyond its MaxSize. */
  function SetCapacity(groups: AsgGroups, name: string, capacity: int): (r: AsgGroups)
    ensures r.Keys == groups.Keys
    ensures name in groups ==> r[name] == AsgGroup(capacity, groups[name].maxSize)
    ensures forall other :: other in groups && other != name ==> r[other] == groups[other]
  {
    if name in groups then groups[name := groups[name].(desiredCapacity := capacity)] else groups
  }

  /** Setting a capacity on a name that does not exist changes nothing. */
  lemma SetCapacityAbsentIsNoOp(groups: AsgGroups, name: string, capacity: int)
    requires name !in groups
    ensures SetCapacity(groups, name, capacity) == groups
  {
  }

  /** A capacity above the group's MaxSize is stored as it is. */
  lemma SetCapacityAboveMax(groups: AsgGroups, name: string, capacity: int)
    requires name in groups && capacity > groups[name].maxSize
    ensures SetCapacity(groups, name, capacity)[name].desiredCapacity == capacity
  {
  }

  /** `update_service`: sets `desiredCount` of the service keyed "cluster/service", when it exists. */
  function WithServiceCount(services: EcsServices, cluster: string, service: string, desiredCount: int): (r: EcsServices)
    ensures var key := cluster + "/" + service;
      r.Keys == services.Keys &&
      (key in services ==> r[key] == EcsService(desiredCount)) &&
      (forall other :: other in services && other != key ==> r[other] == services[other])
  {
    var key := cluster + "/" + service;
    if key in services then services[key := EcsService(desiredCount)] else services
  }

  /** The auto-scaling state table, shared by reference. */
  class AsgTable {
    var groups: AsgGroups
    constructor (groups: AsgGroups)
      ensures this.groups == groups
    {
      this.groups := groups;
    }
  }

  /** The ECS state table, shared by reference. */
  class EcsTable {
    var services: EcsServices
    constructor (services: EcsServices)
      ensures this.services == services
    {
      this.services := services;
    }
  }

  class MockAutoScaling {
    const state: AsgTable

    constructor (state: AsgTable)
      ensures this.state == state
    {
      this.state := state;
    }

    method DescribeAutoScalingGroups(names: seq<string>) returns (r: seq<AsgDescription>)
      ensures r == Described(names, state.groups)
    {
      r := [];
      var i := 0;
      while i < |names|
        invariant 0 <= i <= |names|
        invariant r == Described(names[..i], state.groups)
      {
        var name := names[i];
        assert names[..i + 1][..i] == names[..i];
        if name in state.groups {
          r := r + [AsgDescription(name, state.groups[name].desiredCapacity, state.groups[name].maxSize)];
        }
        i := i + 1;
      }
      assert names[..i] == names;
    }

    method SetDesiredCapacity(name: string, capacity: int)
      modifies state
      ensures state.groups == SetCapacity(old(state.groups), name, capacity)
    {
      if name in state.groups {
        state.groups := state.groups[name := state.groups[name].(desiredCapacity := capacity)];
      }
    }
  }

  class MockECS {
    const state: EcsTable

    constructor (state: EcsTable)
      ensures this.state == state
    {
      this.state := state;
    }

    method UpdateService(cluster: string, service: string, desiredCount: int)
      modifies state
      ensures state.services == WithServiceCount(old(state.services), cluster, service, desiredCount)
    {
      var key := cluster + "/" + service;
      if key in state.services {
        state.services := state.services[key := EcsService(desiredCount)];
      }
    }
  }

  class MockSSM {
    constructor ()
    {
    }

    /** Always succeeds with the fixed command id; records nothing. */
    method SendCommand(instanceIds: seq<Value>, documentName: string, parameters: map<string, Value>)
      returns (r: map<string, Value>)
      ensures r == map["Command" := VMap(map["CommandId" := VStr(MockCommandId)])]
    {
      r := map["Command" := VMap(map["CommandId" := VStr(MockCommandId)])];
    }
  }

  datatype MockClient =
    | AutoScalingClient(asg: MockAutoScaling)
    | EcsClient(ecs: MockECS)
    | SsmClient(ssm: MockSSM)

  /** The mock boto3 module: owns the two state tables. */
  class MockBoto3 {
    const asgState: AsgTable
    const ecsState: EcsTable

    constructor ()
      ensures fresh(asgState) && fresh(ecsState)
      ensures asgState.groups == InitialAsgGroups() && ecsState.services == InitialEcsServices()
    {
      asgState := new AsgTable(InitialAsgGroups());
      ecsState := new EcsTable(InitialEcsServices());
    }

    /** `client(service_name)`: a new client over the shared table; an unknown service raises. */
    method Client(serviceName: string) returns (r: Result<MockClient, string>)
      ensures serviceName == "autoscaling" ==> r.Ok? && r.value.AutoScalingClient? && r.value.asg.state == asgState
      ensures serviceName == "ecs" ==> r.Ok? && r.value.EcsClient? && r.value.ecs.state == ecsState
      ensures serviceName == "ssm" ==> r.Ok? && r.value.SsmClient?
      ensures serviceName !in {"autoscaling", "ecs", "ssm"} ==> r.Err?
    {
      if serviceName == "autoscaling" {
        var c := new MockAutoScaling(asgState);
        r := Ok(AutoScalingClient(c));
      } else if serviceName == "ecs" {
        var c := new MockECS(ecsState);
        r := Ok(EcsClient(c));
      } else if serviceName == "ssm" {
        var c := new MockSSM();
        r := Ok(SsmClient(c));
      } else {
        r := Err("Mock for " + serviceName + " not implemented");
      }
    }
  }

  /** A capacity set through one client is what a client made later describes. */
  method ClientsShareState() returns (seen: seq<AsgDescription>)
    ensures seen == [AsgDescription("app-prod-asg", 4, 5)]
  {
    var boto := new MockBoto3();
    var first := boto.Client("autoscaling");
    first.value.asg.SetDesiredCapacity("app-prod-asg", 4);
    var second := boto.Client("autoscaling");
    seen := second.value.asg.DescribeAutoScalingGroups(["app-prod-asg"]);
    DescribedSingle("app-prod-asg", boto.asgState.groups);
  }
}
