/**
 * Runbook matching (src/planner/loader.py, `find_matching_runbook`): a
 * first-match-wins search over a catalog in load order. The catalog is a
 * parameter; reading it from the runbooks directory is not modelled.
 */
module Loader {
  import opened Wrappers
  import opened Values
  import opened RunbookModels

  /**
   * An unset or empty namespace criterion accepts every namespace; otherwise
   * the namespace must equal it. The namespace the planner passes is whatever
   * the metric held, so a non-string never equals a set criterion.
   */
  predicate NamespaceMatches(c: MatchCriteria, namespace: Value)
  {
    c.namespace.None? || c.namespace.value == "" || VStr(c.namespace.value) == namespace
  }

  /** An unset or empty prefix criterion accepts every alarm name; otherwise the name must start with it. */
  predicate PrefixMatches(c: MatchCriteria, alarmName: string)
  {
    c.alarmNamePrefix.None? || c.alarmNamePrefix.value == "" || c.alarmNamePrefix.value <= alarmName
  }

  /** The two criteria the loop checks; `dimensions` is not one of them. */
  predicate Matches(rb: Runbook, alarmName: string, namespace: Value)
  {
    NamespaceMatches(rb.criteria, namespace) && PrefixMatches(rb.criteria, alarmName)
  }

  /** The first runbook of the catalog whose criteria hold, or None. */
  function FindMatchingRunbook(catalog: seq<Runbook>, alarmName: string, namespace: Value): (r: Option<Runbook>)
    ensures r.Some? ==>
      exists i :: 0 <= i < |catalog| && catalog[i] == r.value && Matches(catalog[i], alarmName, namespace) &&
        forall j :: 0 <= j < i ==> !Matches(catalog[j], alarmName, namespace)
    ensures r.None? <==> forall i :: 0 <= i < |catalog| ==> !Matches(catalog[i], alarmName, namespace)
    decreases |catalog|
  {
    if |catalog| == 0 then None
    else if Matches(catalog[0], alarmName, namespace) then Some(catalog[0])
    else
      var r := FindMatchingRunbook(catalog[1..], alarmName, namespace);
      assert forall i :: 1 <= i < |catalog| ==> catalog[i] == catalog[1..][i - 1];
      r
  }

  /** The runbook returned is exactly the first one that matches: no later one, however well it matches. */
  lemma {:induction false} FirstMatchIsReturned(catalog: seq<Runbook>, alarmName: string, namespace: Value, i: nat)
    requires i < |catalog| && Matches(catalog[i], alarmName, namespace)
    requires forall j :: 0 <= j < i ==> !Matches(catalog[j], alarmName, namespace)
    ensures FindMatchingRunbook(catalog, alarmName, namespace) == Some(catalog[i])
    decreases i
  {
    if i > 0 {
      assert !Matches(catalog[0], alarmName, namespace);
      FirstMatchIsReturned(catalog[1..], alarmName, namespace, i - 1);
    }
  }

  /** Two runbooks that differ at most in their `dimensions` criterion. */
  predicate SameButDimensions(a: Runbook, b: Runbook)
  {
    a.runbookId == b.runbookId && a.actions == b.actions &&
    a.criteria.alarmNamePrefix == b.criteria.alarmNamePrefix &&
    a.criteria.namespace == b.criteria.namespace
  }

  /** Changing the `dimensions` criteria of a catalog never changes which runbook is selected. */
  lemma {:induction false} DimensionsAreIgnored(c1: seq<Runbook>, c2: seq<Runbook>, alarmName: string, namespace: Value)
    requires |c1| == |c2|
    requires forall i :: 0 <= i < |c1| ==> SameButDimensions(c1[i], c2[i])
    ensures FindMatchingRunbook(c1, alarmName, namespace).None? == FindMatchingRunbook(c2, alarmName, namespace).None?
    ensures FindMatchingRunbook(c1, alarmName, namespace).Some? ==>
      SameButDimensions(FindMatchingRunbook(c1, alarmName, namespace).value, FindMatchingRunbook(c2, alarmName, namespace).value)
    decreases |c1|
  {
    if |c1| > 0 {
      assert SameButDimensions(c1[0], c2[0]);
      assert Matches(c1[0], alarmName, namespace) == Matches(c2[0], alarmName, namespace);
      if !Matches(c1[0], alarmName, namespace) {
        forall i | 0 <= i < |c1[1..]|
          ensures SameButDimensions(c1[1..][i], c2[1..][i])
        {
          assert c1[1..][i] == c1[i + 1] && c2[1..][i] == c2[i + 1];
        }
        DimensionsAreIgnored(c1[1..], c2[1..], alarmName, namespace);
      }
    }
  }

  /** The high-CPU EC2 runbook the loader's unit test expects in the catalog. */
  function HighCpuEc2Runbook(): Runbook
  {
    Runbook("high_cpu_ec2_mitigate",
      MatchCriteria(Some("ec2-high-cpu"), Some("AWS/EC2"), None),
      [NewActionDef("scale_out", "scale_asg", map["asg_name" := VStr("app-prod-asg"), "adjustment" := VInt(1)])])
  }

  /** The unit test's two expectations, on a catalog holding that runbook. */
  lemma HighCpuCatalogExpectations()
    ensures FindMatchingRunbook([HighCpuEc2Runbook()], "ec2-high-cpu-prod", VStr("AWS/EC2")).Some?
    ensures FindMatchingRunbook([HighCpuEc2Runbook()], "ec2-high-cpu-prod", VStr("AWS/EC2")).value.runbookId == "high_cpu_ec2_mitigate"
    ensures FindMatchingRunbook([HighCpuEc2Runbook()], "random-alarm", VStr("AWS/RDS")).None?
  {
    assert "ec2-high-cpu" <= "ec2-high-cpu-prod";
    assert !("ec2-high-cpu" <= "random-alarm") by {
      assert "random-alarm"[0] != "ec2-high-cpu"[0];
    }
  }
}
