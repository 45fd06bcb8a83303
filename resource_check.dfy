/**
 * The resource conflict checker of the agent-coordination scripts
 * (scripts/resource-check.js): a static table of agent profiles, the
 * conflict relation it induces, the parallel-safety analysis of a batch,
 * the greedy split of a batch into conflict-free phases, the efficiency
 * figure printed by `suggest`, and the in-memory active-work registry.
 */
module ResourceCheck {
  import opened Wrappers
  import opened Text

  datatype AccessType = Read | Write | External | Compute

  /** An entry of `agentResources`. */
  datatype Profile = Profile(kind: AccessType, resources: seq<string>, conflicts: seq<string>)

  const AgentResources: map<string, Profile> := map[
    "corpus-searcher" := Profile(Read, ["corpus-index", "corpus-entries"], ["corpus-enricher"]),
    "corpus-enricher" := Profile(Write, ["corpus-index", "corpus-entries"], ["corpus-searcher", "corpus-enricher"]),
    "web-researcher" := Profile(External, ["web-apis"], []),
    "source-validator" := Profile(Compute, [], []),
    "session-manager" := Profile(Write, ["session-state"], ["session-manager"]),
    "frontend-planner" := Profile(Read, ["codebase"], []),
    "code-writer" := Profile(Write, ["codebase"], ["code-writer", "quality-checker"]),
    "quality-checker" := Profile(Read, ["codebase"], ["code-writer"]),
    "test-writer" := Profile(Write, ["test-files"], ["test-writer"])
  ]

  /**
   * The functions below take the profile table as their first argument;
   * the scripts always pass `AgentResources`.
   */
  datatype Conflict = Conflict(agent1: string, agent2: string, reason: string)

  const UnknownAgentReason := "Unknown agent resource definition"
  const BothWriteReason := "Both agents write to shared resources"
  const WriteReadReason := "Write/Read conflict on shared resources"
  const AccessReason := "Resource access conflict"

  // ---------------------------------------------------------------------
  // The conflict relation
  // ---------------------------------------------------------------------

  /** `getConflictReason`: classified by how many of the two profiles write. */
  function GetConflictReason(p1: Profile, p2: Profile): (r: string)
    ensures r == BothWriteReason <==> p1.kind == Write && p2.kind == Write
    ensures r == WriteReadReason <==> (p1.kind == Write) != (p2.kind == Write)
    ensures r == AccessReason <==> p1.kind != Write && p2.kind != Write
  {
    if p1.kind == Write && p2.kind == Write then BothWriteReason
    else if p1.kind == Write || p2.kind == Write then WriteReadReason
    else AccessReason
  }

  /** `checkAgentConflict`: a conflict record, or None when the pair may run together. */
  function CheckAgentConflict(profiles: map<string, Profile>, agent1: string, agent2: string): (r: Option<Conflict>)
    ensures r.Some? ==> r.value.agent1 == agent1 && r.value.agent2 == agent2
    ensures agent1 !in profiles || agent2 !in profiles ==>
              r == Some(Conflict(agent1, agent2, UnknownAgentReason))
    ensures agent1 in profiles && agent2 in profiles ==>
              (r.Some? <==> agent2 in profiles[agent1].conflicts || agent1 in profiles[agent2].conflicts)
  {
    if agent1 !in profiles || agent2 !in profiles then
      Some(Conflict(agent1, agent2, UnknownAgentReason))
    else
      var res1 := profiles[agent1];
      var res2 := profiles[agent2];
      if agent2 in res1.conflicts || agent1 in res2.conflicts then
        Some(Conflict(agent1, agent2, GetConflictReason(res1, res2)))
      else
        None
  }

  predicate Conflicts(profiles: map<string, Profile>, agent1: string, agent2: string) {
    CheckAgentConflict(profiles, agent1, agent2).Some?
  }

  /** The conflict relation and its reason do not depend on the order of the pair. */
  lemma ConflictSymmetric(profiles: map<string, Profile>, a: string, b: string)
    ensures Conflicts(profiles, a, b) == Conflicts(profiles, b, a)
    ensures Conflicts(profiles, a, b) ==> CheckAgentConflict(profiles, a, b).value.reason == CheckAgentConflict(profiles, b, a).value.reason
  {
  }

  lemma SearcherEnricherIsWriteRead()
    ensures CheckAgentConflict(AgentResources, "corpus-searcher", "corpus-enricher")
            == Some(Conflict("corpus-searcher", "corpus-enricher", WriteReadReason))
    ensures !Conflicts(AgentResources, "web-researcher", "corpus-enricher")
  {
  }

  /** No two positions of `s` hold conflicting agents. */
  predicate ConflictFree(profiles: map<string, Profile>, s: seq<string>) {
    forall i, j :: 0 <= i < j < |s| ==> !Conflicts(profiles, s[i], s[j])
  }

  /** `currentPhase.every(existing => !checkAgentConflict(agent, existing))`. */
  predicate CanJoin(profiles: map<string, Profile>, agent: string, phase: seq<string>) {
    forall e :: e in phase ==> !Conflicts(profiles, agent, e)
  }

  lemma ConflictFreeExtend(profiles: map<string, Profile>, phase: seq<string>, agent: string)
    requires ConflictFree(profiles, phase) && CanJoin(profiles, agent, phase)
    ensures ConflictFree(profiles, phase + [agent])
  {
    var s := phase + [agent];
    forall i, j | 0 <= i < j < |s|
      ensures !Conflicts(profiles, s[i], s[j])
    {
      if j == |phase| {
        assert s[i] in phase;
        ConflictSymmetric(profiles, s[i], agent);
      } else {
        assert s[i] == phase[i] && s[j] == phase[j];
      }
    }
  }

  lemma CannotJoinGrows(profiles: map<string, Profile>, agent: string, phase: seq<string>, extra: string)
    requires !CanJoin(profiles, agent, phase)
    ensures !CanJoin(profiles, agent, phase + [extra])
  {
    var e :| e in phase && Conflicts(profiles, agent, e);
    assert e in phase + [extra];
  }

  lemma UnknownConflictsWithAll(profiles: map<string, Profile>, agent: string, other: string)
    requires agent !in profiles
    ensures Conflicts(profiles, agent, other) && Conflicts(profiles, other, agent)
  {
  }

  /** An agent with no profile conflicts with everyone, so a conflict-free group holding it is just that agent. */
  lemma UnknownAgentAlone(profiles: map<string, Profile>, phase: seq<string>, agent: string)
    requires agent in phase && agent !in profiles
    ensures ConflictFree(profiles, phase) <==> phase == [agent]
  {
    var k :| 0 <= k < |phase| && phase[k] == agent;
    if |phase| >= 2 {
      var other := if k == 0 then 1 else 0;
      UnknownConflictsWithAll(profiles, agent, phase[other]);
      if k < other {
        assert Conflicts(profiles, phase[k], phase[other]);
      } else {
        assert Conflicts(profiles, phase[other], phase[k]);
      }
    }
  }

  lemma TwoOccurrences(s: seq<string>, x: string)
    requires multiset(s)[x] >= 2
    ensures exists a, b :: 0 <= a < b < |s| && s[a] == x && s[b] == x
  {
    var a := IndexOf(s, x);
    assert s == s[..a] + [x] + s[a + 1..];
    assert multiset(s[..a])[x] == 0;
    assert x in multiset(s[a + 1..]);
    var b :| 0 <= b < |s[a + 1..]| && s[a + 1..][b] == x;
    assert s[a + 1 + b] == x;
  }

  lemma CountAtLeastTwo(s: seq<string>, i: int, j: int)
    requires 0 <= i < j < |s| && s[i] == s[j]
    ensures multiset(s)[s[i]] >= 2
  {
    assert s == s[..j] + [s[j]] + s[j + 1..];
    assert s[..j][i] == s[i];
    assert s[i] in multiset(s[..j]);
  }

  /** Conflict-freedom depends only on which agents are present and how often. */
  lemma ConflictFreePermutation(profiles: map<string, Profile>, a: seq<string>, b: seq<string>)
    requires multiset(a) == multiset(b) && ConflictFree(profiles, a)
    ensures ConflictFree(profiles, b)
  {
    forall i, j | 0 <= i < j < |b|
      ensures !Conflicts(profiles, b[i], b[j])
    {
      if b[i] == b[j] {
        CountAtLeastTwo(b, i, j);
        TwoOccurrences(a, b[i]);
      } else {
        assert b[i] in multiset(a) && b[j] in multiset(a);
        var x :| 0 <= x < |a| && a[x] == b[i];
        var y :| 0 <= y < |a| && a[y] == b[j];
        ConflictSymmetric(profiles, b[i], b[j]);
        if x < y {
          assert !Conflicts(profiles, a[x], a[y]);
        } else {
          assert !Conflicts(profiles, a[y], a[x]);
        }
      }
    }
  }

  // ---------------------------------------------------------------------
  // The pairwise scan of `checkParallel`
  // ---------------------------------------------------------------------

  function ConflictList(profiles: map<string, Profile>, agent1: string, agent2: string): seq<Conflict> {
    match CheckAgentConflict(profiles, agent1, agent2)
    case Some(c) => [c]
    case None => []
  }

  /** Conflicts of the pairs (i, k) with i < k < j, in the order of k. */
  function RowConflicts(profiles: map<string, Profile>, agents: seq<string>, i: nat, j: nat): seq<Conflict>
    requires i < |agents| && j <= |agents|
    decreases j
  {
    if j <= i + 1 then [] else RowConflicts(profiles, agents, i, j - 1) + ConflictList(profiles, agents[i], agents[j - 1])
  }

  /** Conflicts of the pairs whose first index is below i, in scan order. */
  function PairsBefore(profiles: map<string, Profile>, agents: seq<string>, i: nat): seq<Conflict>
    requires i <= |agents|
  {
    if i == 0 then [] else PairsBefore(profiles, agents, i - 1) + RowConflicts(profiles, agents, i - 1, |agents|)
  }

  function PairConflicts(profiles: map<string, Profile>, agents: seq<string>): seq<Conflict> {
    PairsBefore(profiles, agents, |agents|)
  }

  /** A pair contributes an entry exactly when it conflicts. */
  lemma ConflictListEmptyIff(profiles: map<string, Profile>, a: string, b: string)
    ensures ConflictList(profiles, a, b) == [] <==> !Conflicts(profiles, a, b)
  {
  }

  /** An empty row has no conflicting pair. */
  lemma {:induction false} RowConflictsEmptyNone(profiles: map<string, Profile>, agents: seq<string>, i: nat, j: nat)
    requires i < |agents| && j <= |agents|
    requires RowConflicts(profiles, agents, i, j) == []
    ensures forall k :: i < k < j ==> !Conflicts(profiles, agents[i], agents[k])
    decreases j
  {
    if j > i + 1 {
      var prev := RowConflicts(profiles, agents, i, j - 1);
      var last := ConflictList(profiles, agents[i], agents[j - 1]);
      assert prev + last == [];
      assert |prev + last| == |prev| + |last|;
      RowConflictsEmptyNone(profiles, agents, i, j - 1);
      ConflictListEmptyIff(profiles, agents[i], agents[j - 1]);
      forall k | i < k < j
        ensures !Conflicts(profiles, agents[i], agents[k])
      {
        if k < j - 1 {
          assert i < k < j - 1;
        }
      }
    }
  }

  /** A row without a conflicting pair is empty. */
  lemma {:induction false} RowConflictsClear(profiles: map<string, Profile>, agents: seq<string>, i: nat, j: nat)
    requires i < |agents| && j <= |agents|
    requires forall k :: i < k < j ==> !Conflicts(profiles, agents[i], agents[k])
    ensures RowConflicts(profiles, agents, i, j) == []
    decreases j
  {
    if j > i + 1 {
      RowConflictsClear(profiles, agents, i, j - 1);
      ConflictListEmptyIff(profiles, agents[i], agents[j - 1]);
      assert RowConflicts(profiles, agents, i, j) == [] + [];
    }
  }

  lemma RowConflictsEmptyIff(profiles: map<string, Profile>, agents: seq<string>, i: nat, j: nat)
    requires i < |agents| && j <= |agents|
    ensures RowConflicts(profiles, agents, i, j) == [] <==>
            forall k :: i < k < j ==> !Conflicts(profiles, agents[i], agents[k])
  {
    if RowConflicts(profiles, agents, i, j) == [] {
      RowConflictsEmptyNone(profiles, agents, i, j);
    }
    if forall k :: i < k < j ==> !Conflicts(profiles, agents[i], agents[k]) {
      RowConflictsClear(profiles, agents, i, j);
    }
  }

  lemma {:induction false} PairsBeforeEmptyIff(profiles: map<string, Profile>, agents: seq<string>, i: nat)
    requires i <= |agents|
    ensures PairsBefore(profiles, agents, i) == [] <==>
            forall a, b :: 0 <= a < i && a < b < |agents| ==> !Conflicts(profiles, agents[a], agents[b])
  {
    if i > 0 {
      PairsBeforeEmptyIff(profiles, agents, i - 1);
      RowConflictsEmptyIff(profiles, agents, i - 1, |agents|);
      var before := PairsBefore(profiles, agents, i - 1);
      var row := RowConflicts(profiles, agents, i - 1, |agents|);
      assert PairsBefore(profiles, agents, i) == before + row;
      assert before + row == [] <==> before == [] && row == [];
      if before == [] && row == [] {
        forall a, b | 0 <= a < i && a < b < |agents|
          ensures !Conflicts(profiles, agents[a], agents[b])
        {
          if a == i - 1 {
            assert i - 1 < b < |agents|;
          }
        }
      } else if before != [] {
        var a, b :| 0 <= a < i - 1 && a < b < |agents| && Conflicts(profiles, agents[a], agents[b]);
        assert 0 <= a < i;
      } else {
        var b :| i - 1 < b < |agents| && Conflicts(profiles, agents[i - 1], agents[b]);
        assert 0 <= i - 1 < i;
      }
    }
  }

  /** The scan reports no conflict exactly when the batch is conflict-free. */
  lemma PairConflictsEmptyIff(profiles: map<string, Profile>, agents: seq<string>)
    ensures PairConflicts(profiles, agents) == [] <==> ConflictFree(profiles, agents)
  {
    PairsBeforeEmptyIff(profiles, agents, |agents|);
  }

  // ---------------------------------------------------------------------
  // Phases
  // ---------------------------------------------------------------------

  function Flatten(phases: seq<seq<string>>): seq<string> {
    if phases == [] then [] else Flatten(phases[..|phases| - 1]) + phases[|phases| - 1]
  }

  lemma FlattenSnoc(phases: seq<seq<string>>, phase: seq<string>)
    ensures Flatten(phases + [phase]) == Flatten(phases) + phase
  {
    assert (phases + [phase])[..|phases|] == phases;
  }

  /**
   * What `generatePhases` promises: the phases together are a permutation
   * of the batch, each is non-empty, conflict-free and in batch order, and
   * (first fit) every agent of a later phase conflicts with some member of
   * each earlier phase.
   */
  predicate IsPhasePlan(profiles: map<string, Profile>, agents: seq<string>, phases: seq<seq<string>>) {
    multiset(Flatten(phases)) == multiset(agents) &&
    (forall p :: 0 <= p < |phases| ==> phases[p] != []) &&
    (forall p :: 0 <= p < |phases| ==> ConflictFree(profiles, phases[p])) &&
    (forall p :: 0 <= p < |phases| ==> IsSubseq(phases[p], agents)) &&
    (forall p, q, x :: 0 <= p < q < |phases| && x in phases[q] ==> !CanJoin(profiles, x, phases[p]))
  }

  /** After scanning `prefix`: `current` is an ordered, conflict-free pick, and every agent left out was turned away. */
  predicate ScanInv(profiles: map<string, Profile>, prefix: seq<string>, current: seq<string>) {
    IsSubseq(current, prefix) &&
    ConflictFree(profiles, current) &&
    forall x :: x in multiset(prefix) - multiset(current) ==> !CanJoin(profiles, x, current)
  }

  lemma ScanStep(profiles: map<string, Profile>, prefix: seq<string>, current: seq<string>, agent: string)
    requires ScanInv(profiles, prefix, current)
    ensures CanJoin(profiles, agent, current) ==> ScanInv(profiles, prefix + [agent], current + [agent])
    ensures !CanJoin(profiles, agent, current) ==> ScanInv(profiles, prefix + [agent], current)
  {
    SubseqSnoc(current, prefix, agent);
    SubseqMultiset(current, prefix);
    if CanJoin(profiles, agent, current) {
      ConflictFreeExtend(profiles, current, agent);
      assert multiset(prefix + [agent]) - multiset(current + [agent]) == multiset(prefix) - multiset(current);
      forall x | x in multiset(prefix) - multiset(current)
        ensures !CanJoin(profiles, x, current + [agent])
      {
        CannotJoinGrows(profiles, x, current, agent);
      }
    } else {
      assert multiset(prefix + [agent]) - multiset(current) == multiset(prefix) - multiset(current) + multiset{agent};
    }
  }

  /** The scan of `remaining` that fills one phase. */
  method BuildPhase(profiles: map<string, Profile>, remaining: seq<string>) returns (current: seq<string>)
    requires remaining != []
    ensures current != [] && current[0] == remaining[0]
    ensures ScanInv(profiles, remaining, current)
  {
    current := [];
    for k := 0 to |remaining|
      invariant ScanInv(profiles, remaining[..k], current)
      invariant k > 0 ==> current != [] && current[0] == remaining[0]
    {
      var agent := remaining[k];
      ScanStep(profiles, remaining[..k], current, agent);
      assert remaining[..k + 1] == remaining[..k] + [agent];
      if CanJoin(profiles, agent, current) {
        current := current + [agent];
      }
    }
    assert remaining[..|remaining|] == remaining;
  }

  lemma NextStillPresent(remaining: seq<string>, toRemove: seq<string>, rest: seq<string>, t: int)
    requires 0 <= t < |toRemove|
    requires multiset(toRemove) <= multiset(remaining)
    requires multiset(rest) + multiset(toRemove[..t]) == multiset(remaining)
    ensures toRemove[t] in rest
  {
    var a := toRemove[t];
    var pre := toRemove[..t];
    assert toRemove[..t + 1] == pre + [a];
    assert toRemove == toRemove[..t + 1] + toRemove[t + 1..];
    assert multiset(pre)[a] + 1 <= multiset(toRemove)[a];
    assert multiset(toRemove)[a] <= multiset(remaining)[a];
    assert multiset(remaining)[a] == multiset(rest)[a] + multiset(pre)[a];
    assert a in multiset(rest);
  }

  lemma DeleteMultiset(s: seq<string>, i: int)
    requires 0 <= i < |s|
    ensures multiset(s[..i] + s[i + 1..]) + multiset{s[i]} == multiset(s)
  {
    assert s == s[..i] + [s[i]] + s[i + 1..];
  }

  /** After removing `toRemove[..t]`: what is left, with the removed agents, makes up `remaining`. */
  predicate RemoveInv(remaining: seq<string>, removed: seq<string>, rest: seq<string>) {
    multiset(rest) + multiset(removed) == multiset(remaining) &&
    |rest| == |remaining| - |removed| &&
    IsSubseq(rest, remaining)
  }

  lemma RemoveStep(remaining: seq<string>, removed: seq<string>, rest: seq<string>, index: int)
    requires RemoveInv(remaining, removed, rest) && 0 <= index < |rest|
    ensures RemoveInv(remaining, removed + [rest[index]], rest[..index] + rest[index + 1..])
  {
    DeleteMultiset(rest, index);
    DeleteIsSubseq(rest, index);
    SubseqTrans(rest[..index] + rest[index + 1..], rest, remaining);
  }

  /** `toRemove.forEach(agent => remaining.splice(remaining.indexOf(agent), 1))`. */
  method RemoveEach(remaining: seq<string>, toRemove: seq<string>) returns (rest: seq<string>)
    requires multiset(toRemove) <= multiset(remaining)
    ensures RemoveInv(remaining, toRemove, rest)
  {
    rest := remaining;
    SubseqRefl(remaining);
    for t := 0 to |toRemove|
      invariant RemoveInv(remaining, toRemove[..t], rest)
    {
      var agent := toRemove[t];
      NextStillPresent(remaining, toRemove, rest, t);
      var index := IndexOf(rest, agent);
      RemoveStep(remaining, toRemove[..t], rest, index);
      assert toRemove[..t + 1] == toRemove[..t] + [agent];
      rest := rest[..index] + rest[index + 1..];
    }
    assert toRemove[..|toRemove|] == toRemove;
  }

  /** Every phase is non-empty, conflict-free and in batch order. */
  predicate PhasesWellFormed(profiles: map<string, Profile>, agents: seq<string>, phases: seq<seq<string>>) {
    (forall p :: 0 <= p < |phases| ==> phases[p] != []) &&
    (forall p :: 0 <= p < |phases| ==> ConflictFree(profiles, phases[p])) &&
    (forall p :: 0 <= p < |phases| ==> IsSubseq(phases[p], agents))
  }

  /** Every agent of a later phase was turned away by each earlier one. */
  predicate FirstFit(profiles: map<string, Profile>, phases: seq<seq<string>>) {
    forall p, q, x :: 0 <= p < q < |phases| && x in phases[q] ==> !CanJoin(profiles, x, phases[p])
  }

  /** Every agent still waiting was turned away by each phase built so far. */
  predicate TurnedAway(profiles: map<string, Profile>, phases: seq<seq<string>>, remaining: seq<string>) {
    forall p, x :: 0 <= p < |phases| && x in remaining ==> !CanJoin(profiles, x, phases[p])
  }

  /** The loop invariant of `generatePhases`: placed agents plus `remaining` make up the batch. */
  predicate PlanInv(profiles: map<string, Profile>, agents: seq<string>, phases: seq<seq<string>>, remaining: seq<string>) {
    multiset(Flatten(phases)) + multiset(remaining) == multiset(agents) &&
    IsSubseq(remaining, agents) &&
    PhasesWellFormed(profiles, agents, phases) &&
    FirstFit(profiles, phases) &&
    TurnedAway(profiles, phases, remaining) &&
    |phases| + |remaining| <= |agents|
  }

  lemma WellFormedStep(profiles: map<string, Profile>, agents: seq<string>, phases: seq<seq<string>>, current: seq<string>)
    requires PhasesWellFormed(profiles, agents, phases)
    requires current != [] && ConflictFree(profiles, current) && IsSubseq(current, agents)
    ensures PhasesWellFormed(profiles, agents, phases + [current])
  {
    var phases' := phases + [current];
    forall p | 0 <= p < |phases'|
      ensures phases'[p] != [] && ConflictFree(profiles, phases'[p]) && IsSubseq(phases'[p], agents)
    {
      if p < |phases| {
        assert phases'[p] == phases[p];
      }
    }
  }

  lemma InSubMultiset(x: string, a: seq<string>, b: seq<string>)
    requires multiset(a) <= multiset(b) && x in a
    ensures x in b
  {
    assert x in multiset(a);
  }

  lemma FirstFitStep(profiles: map<string, Profile>, phases: seq<seq<string>>, remaining: seq<string>, current: seq<string>)
    requires FirstFit(profiles, phases) && TurnedAway(profiles, phases, remaining)
    requires multiset(current) <= multiset(remaining)
    ensures FirstFit(profiles, phases + [current])
  {
    var phases' := phases + [current];
    forall x | x in current
      ensures x in remaining
    {
      InSubMultiset(x, current, remaining);
    }
    forall p, q, x | 0 <= p < q < |phases'| && x in phases'[q]
      ensures !CanJoin(profiles, x, phases'[p])
    {
      assert phases'[p] == phases[p];
      if q < |phases| {
        assert phases'[q] == phases[q];
      }
    }
  }

  lemma TurnedAwayStep(profiles: map<string, Profile>, phases: seq<seq<string>>, remaining: seq<string>, current: seq<string>, rest: seq<string>)
    requires TurnedAway(profiles, phases, remaining)
    requires forall x :: x in multiset(remaining) - multiset(current) ==> !CanJoin(profiles, x, current)
    requires multiset(rest) + multiset(current) == multiset(remaining)
    ensures TurnedAway(profiles, phases + [current], rest)
  {
    var phases' := phases + [current];
    assert multiset(rest) <= multiset(remaining);
    forall p, x | 0 <= p < |phases'| && x in rest
      ensures !CanJoin(profiles, x, phases'[p])
    {
      assert x in multiset(rest);
      assert x in multiset(remaining);
      if p < |phases| {
        assert phases'[p] == phases[p];
        assert x in remaining;
      } else {
        assert phases'[p] == current;
        assert x in multiset(remaining) - multiset(current);
      }
    }
  }

  lemma PlanStep(profiles: map<string, Profile>, agents: seq<string>, phases: seq<seq<string>>, remaining: seq<string>,
                 current: seq<string>, rest: seq<string>)
    requires PlanInv(profiles, agents, phases, remaining)
    requires current != [] && IsSubseq(current, remaining) && ConflictFree(profiles, current)
    requires forall x :: x in multiset(remaining) - multiset(current) ==> !CanJoin(profiles, x, current)
    requires multiset(rest) + multiset(current) == multiset(remaining)
    requires |rest| == |remaining| - |current| && IsSubseq(rest, remaining)
    ensures PlanInv(profiles, agents, phases + [current], rest)
  {
    var phases' := phases + [current];
    assert multiset(Flatten(phases')) + multiset(rest) == multiset(agents) by {
      FlattenSnoc(phases, current);
    }
    assert IsSubseq(rest, agents) by {
      SubseqTrans(rest, remaining, agents);
    }
    assert PhasesWellFormed(profiles, agents, phases') by {
      SubseqTrans(current, remaining, agents);
      WellFormedStep(profiles, agents, phases, current);
    }
    assert FirstFit(profiles, phases') by {
      FirstFitStep(profiles, phases, remaining, current);
    }
    assert TurnedAway(profiles, phases', rest) by {
      TurnedAwayStep(profiles, phases, remaining, current, rest);
    }
  }

  /** `generatePhases`: greedy first-fit split of a batch into phases. */
  method GeneratePhases(profiles: map<string, Profile>, agents: seq<string>) returns (phases: seq<seq<string>>)
    ensures IsPhasePlan(profiles, agents, phases)
    ensures |phases| <= |agents|
    ensures agents != [] ==> phases != [] && phases[0][0] == agents[0]
  {
    phases := [];
    var remaining := agents;
    SubseqRefl(agents);
    while |remaining| > 0
      invariant PlanInv(profiles, agents, phases, remaining)
      invariant phases == [] ==> remaining == agents
      invariant agents != [] && phases != [] ==> phases[0][0] == agents[0]
      decreases |remaining|
    {
      var current := BuildPhase(profiles, remaining);
      // the source pushes every added agent to both `currentPhase` and `toRemove`
      var toRemove := current;
      SubseqMultiset(current, remaining);
      var rest := RemoveEach(remaining, toRemove);
      PlanStep(profiles, agents, phases, remaining, current, rest);
      remaining := rest;
      phases := phases + [current];
    }
  }

  /** A batch split into a single phase is conflict-free, so an unsafe batch needs at least two phases. */
  lemma UnsafeNeedsTwoPhases(profiles: map<string, Profile>, agents: seq<string>, phases: seq<seq<string>>)
    requires IsPhasePlan(profiles, agents, phases)
    ensures !ConflictFree(profiles, agents) ==> |phases| >= 2
  {
    if |phases| == 1 {
      assert Flatten(phases) == phases[0];
      ConflictFreePermutation(profiles, phases[0], agents);
    } else if |phases| == 0 {
      assert agents == [] by {
        assert |multiset(agents)| == 0;
      }
    }
  }

  lemma PhaseNoLongerThanBatch(profiles: map<string, Profile>, agents: seq<string>, phases: seq<seq<string>>, p: int)
    requires IsPhasePlan(profiles, agents, phases) && 0 <= p < |phases|
    ensures 1 <= |phases[p]| <= |agents|
  {
    SubseqMultiset(phases[p], agents);
    assert |multiset(phases[p])| <= |multiset(agents)|;
  }

  datatype ParallelAnalysis = ParallelAnalysis(
    safe: bool,
    conflicts: seq<Conflict>,
    phases: seq<seq<string>>,
    recommendation: string)

  /** The inner loop of `checkParallel`: agent i against every later agent, in order. */
  method ScanRow(profiles: map<string, Profile>, agents: seq<string>, i: nat) returns (row: seq<Conflict>)
    requires i < |agents|
    ensures row == RowConflicts(profiles, agents, i, |agents|)
  {
    row := [];
    for j := i + 1 to |agents|
      invariant row == RowConflicts(profiles, agents, i, j)
    {
      var conflict := CheckAgentConflict(profiles, agents[i], agents[j]);
      ghost var found := ConflictList(profiles, agents[i], agents[j]);
      assert RowConflicts(profiles, agents, i, j + 1) == row + found;
      if conflict.Some? {
        row := row + [conflict.value];
      }
    }
  }

  /** The pairwise loops of `checkParallel`: every pair i < j, in order. */
  method ScanPairs(profiles: map<string, Profile>, agents: seq<string>) returns (conflicts: seq<Conflict>)
    ensures conflicts == PairConflicts(profiles, agents)
  {
    conflicts := [];
    for i := 0 to |agents|
      invariant conflicts == PairsBefore(profiles, agents, i)
    {
      var row := ScanRow(profiles, agents, i);
      conflicts := conflicts + row;
    }
  }

  /** `checkParallel`: safe exactly when no pair conflicts; otherwise a phase plan is attached. */
  method CheckParallel(profiles: map<string, Profile>, agents: seq<string>) returns (r: ParallelAnalysis)
    ensures r.conflicts == PairConflicts(profiles, agents)
    ensures r.safe <==> ConflictFree(profiles, agents)
    ensures r.safe ==> r.conflicts == [] && r.phases == [agents] && r.recommendation == "parallel"
    ensures !r.safe ==> r.recommendation == "sequential" && IsPhasePlan(profiles, agents, r.phases) && |r.phases| >= 2
  {
    var conflicts := ScanPairs(profiles, agents);
    PairConflictsEmptyIff(profiles, agents);
    if |conflicts| == 0 {
      return ParallelAnalysis(true, [], [agents], "parallel");
    }
    var phases := GeneratePhases(profiles, agents);
    UnsafeNeedsTwoPhases(profiles, agents, phases);
    r := ParallelAnalysis(false, conflicts, phases, "sequential");
  }

  // ---------------------------------------------------------------------
  // The efficiency figure of `suggest`
  // ---------------------------------------------------------------------

  function MaxPhaseSize(phases: seq<seq<string>>): (m: nat)
    requires phases != []
    ensures forall p :: 0 <= p < |phases| ==> |phases[p]| <= m
    ensures exists p :: 0 <= p < |phases| && |phases[p]| == m
  {
    if |phases| == 1 then |phases[0]|
    else
      var m := MaxPhaseSize(phases[1..]);
      assert forall p :: 1 <= p < |phases| ==> phases[p] == phases[1..][p - 1];
      if |phases[0]| >= m then |phases[0]| else m
  }

  /** A share of at most the whole, as a percentage: between 0 and 100, and 100 for the whole. */
  lemma RatioBounds(m: nat, n: nat)
    requires 0 < n && m <= n
    ensures 0.0 <= (m as real / n as real) * 100.0 <= 100.0
    ensures m == n ==> (m as real / n as real) * 100.0 == 100.0
  {
    DivLeOne(m as real, n as real);
  }

  /** A part of a positive whole is at most one whole of it, and exactly one when it is the whole. */
  lemma DivLeOne(part: real, whole: real)
    requires 0.0 < whole && 0.0 <= part <= whole
    ensures 0.0 <= part / whole <= 1.0
    ensures part == whole ==> part / whole == 1.0
  {
    var rest := (whole - part) / whole;
    assert part / whole + rest == whole / whole;
  }

  /** `Math.round(maxPhaseSize / agentNames.length * 100)`. */
  function Efficiency(phases: seq<seq<string>>, n: nat): (r: int)
    requires n > 0 && phases != []
    requires forall p :: 0 <= p < |phases| ==> |phases[p]| <= n
    ensures 0 <= r <= 100
    ensures MaxPhaseSize(phases) == n ==> r == 100
  {
    var largest :| 0 <= largest < |phases| && |phases[largest]| == MaxPhaseSize(phases);
    assert MaxPhaseSize(phases) <= n;
    var ratio := MaxPhaseSize(phases) as real / n as real;
    RatioBounds(MaxPhaseSize(phases), n);
    Round(ratio * 100.0)
  }

  // ---------------------------------------------------------------------
  // Active-work registry
  // ---------------------------------------------------------------------

  /** `{ agent, ...workDetails, startTime, pid }`; `details` holds the other spread fields. */
  datatype WorkRecord = WorkRecord(agent: string, details: map<string, string>, startTime: int, pid: int)

  datatype CompletedWork = CompletedWork(work: WorkRecord, endTime: int, duration: int)

  /** The registry file `active_work_registry.json`, held in memory. */
  class Registry {
    var activeWork: map<string, WorkRecord>
    var completedWork: seq<CompletedWork>

    constructor()
      ensures activeWork == map[] && completedWork == []
    {
      activeWork := map[];
      completedWork := [];
    }

    /**
     * `registerWork`: overwrites the entry of `agent`. A spread `agent` key of
     * the details wins over the argument; `startTime` and `pid` are set last.
     */
    method RegisterWork(agent: string, workDetails: map<string, string>, now: int, pid: int)
      modifies this
      ensures activeWork == old(activeWork)[agent := WorkRecord(
                if "agent" in workDetails then workDetails["agent"] else agent,
                workDetails - {"agent", "startTime", "pid"}, now, pid)]
      ensures completedWork == old(completedWork)
    {
      var name := if "agent" in workDetails then workDetails["agent"] else agent;
      activeWork := activeWork[agent := WorkRecord(name, workDetails - {"agent", "startTime", "pid"}, now, pid)];
    }

    /** `unregisterWork`: moves the entry to the end of the completed list; no-op when absent. */
    method UnregisterWork(agent: string, now: int)
      modifies this
      ensures agent in old(activeWork) ==>
                activeWork == old(activeWork) - {agent} &&
                completedWork == old(completedWork) +
                  [CompletedWork(old(activeWork)[agent], now, now - old(activeWork)[agent].startTime)]
      ensures agent !in old(activeWork) ==>
                activeWork == old(activeWork) && completedWork == old(completedWork)
    {
      if agent in activeWork {
        var work := activeWork[agent];
        var duration := now - work.startTime;
        completedWork := completedWork + [CompletedWork(work, now, duration)];
        activeWork := activeWork - {agent};
      }
    }
  }

  /** Registering then unregistering records exactly the elapsed time and leaves the agent inactive. */
  method RegisterThenUnregister(reg: Registry, agent: string, start: int, stop: int, pid: int)
    modifies reg
    ensures agent !in reg.activeWork
    ensures |reg.completedWork| == |old(reg.completedWork)| + 1
    ensures reg.completedWork[|reg.completedWork| - 1].duration == stop - start
  {
    reg.RegisterWork(agent, map[], start, pid);
    reg.UnregisterWork(agent, stop);
  }
}
