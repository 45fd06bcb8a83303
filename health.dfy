// The overall status the health monitor reports: the worst status among
// its component checks, where an error outranks a warning and a warning
// outranks healthy.

module Health {
  datatype Status = Healthy | Warning | Error

  /** The component checks, by name, in the order they were recorded. */
  type Components = seq<(string, Status)>

  /** The statuses of the components, in order. */
  function Statuses(components: Components): (r: seq<Status>)
    ensures |r| == |components|
    ensures forall i :: 0 <= i < |components| ==> r[i] == components[i].1
  {
    seq(|components|, i requires 0 <= i < |components| => components[i].1)
  }

  /** calculateOverallHealth: error if any check failed, else warning if any warned, else healthy. */
  function OverallHealth(components: Components): (r: Status)
    ensures r == Error <==> Error in Statuses(components)
    ensures r == Warning <==> Error !in Statuses(components) && Warning in Statuses(components)
    ensures r == Healthy <==> forall i :: 0 <= i < |components| ==> components[i].1 == Healthy
  {
    var statuses := Statuses(components);
    if Error in statuses then Error
    else if Warning in statuses then Warning
    else
      assert forall i :: 0 <= i < |components| ==> statuses[i] == components[i].1;
      Healthy
  }

  function Severity(s: Status): int {
    match s
    case Healthy => 0
    case Warning => 1
    case Error => 2
  }

  /** The most severe of the statuses, healthy for none: an independent, fold-style definition. */
  function Worst(statuses: seq<Status>): Status {
    if statuses == [] then Healthy
    else
      var rest := Worst(statuses[1..]);
      if Severity(statuses[0]) >= Severity(rest) then statuses[0] else rest
  }

  /** The worst status is one of the statuses (or healthy for none), and no status is worse. */
  lemma {:induction false} WorstIsMaximum(statuses: seq<Status>)
    ensures statuses == [] ==> Worst(statuses) == Healthy
    ensures statuses != [] ==> Worst(statuses) in statuses
    ensures forall s :: s in statuses ==> Severity(s) <= Severity(Worst(statuses))
  {
    if statuses != [] {
      WorstIsMaximum(statuses[1..]);
      assert forall s :: s in statuses ==> s == statuses[0] || s in statuses[1..];
    }
  }

  /** The overall status is the worst component status. */
  lemma OverallIsWorst(components: Components)
    ensures OverallHealth(components) == Worst(Statuses(components))
  {
    var statuses := Statuses(components);
    WorstIsMaximum(statuses);
    var w := Worst(statuses);
    if w == Healthy && statuses != [] {
      assert forall s :: s in statuses ==> s == Healthy;
    }
  }

  /** The overall status depends on which statuses occur and how often, not on their order. */
  lemma OrderIndependent(a: Components, b: Components)
    requires multiset(Statuses(a)) == multiset(Statuses(b))
    ensures OverallHealth(a) == OverallHealth(b)
  {
    assert Error in Statuses(a) <==> Error in multiset(Statuses(a));
    assert Error in Statuses(b) <==> Error in multiset(Statuses(b));
    assert Warning in Statuses(a) <==> Warning in multiset(Statuses(a));
    assert Warning in Statuses(b) <==> Warning in multiset(Statuses(b));
  }

  /** A monitor with no component checks reports healthy. */
  lemma NoComponentsIsHealthy()
    ensures OverallHealth([]) == Healthy
  {
  }

  /** Adding a check never makes the overall status better. */
  lemma AddingCheckNeverImproves(components: Components, name: string, s: Status)
    ensures Severity(OverallHealth(components)) <= Severity(OverallHealth(components + [(name, s)]))
  {
    var before, after := Statuses(components), Statuses(components + [(name, s)]);
    assert forall x :: x in before ==> x in after by {
      forall x | x in before
        ensures x in after
      {
        var i :| 0 <= i < |before| && before[i] == x;
        assert after[i] == x;
      }
    }
  }
}
