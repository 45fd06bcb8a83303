/**
 * The workflow tracer of the agent-coordination scripts
 * (scripts/workflow-trace.js): one JSON trace document per workflow, with
 * an append-only list of steps. Steps are stamped when they complete or
 * fail, and the workflow is stamped when it finishes. The trace directory
 * is a map from workflow id to document; clock readings are parameters.
 */
module WorkflowTrace {
  import opened Wrappers
  import opened Text

  const Running := "running"
  const Completed := "completed"
  const Failed := "error"

  /** One entry of `steps`; `data`, `result` and `error` are already strings (JSON-stringified by the caller). */
  datatype Step = Step(
    stepId: int,
    agent: string,
    action: string,
    timestamp: int,
    data: string,
    status: string,
    duration: Option<int>,
    endTime: Option<int>,
    result: Option<string>,
    error: Option<string>)

  datatype Metadata = Metadata(user: string, version: string, orchestrator: string)

  datatype Workflow = Workflow(
    workflowId: string,
    description: string,
    domain: string,
    startTime: int,
    status: string,
    steps: seq<Step>,
    metadata: Metadata,
    endTime: Option<int>,
    totalDuration: Option<int>)

  /** Step ids are the positions of the steps, and every status is one the tracer writes. */
  predicate WellFormed(w: Workflow) {
    forall i :: 0 <= i < |w.steps| ==>
      w.steps[i].stepId == i && w.steps[i].status in {Running, Completed, Failed}
  }

  /** The document `start` writes. `envUser` is `process.env.USER`, "" when unset. */
  function NewWorkflow(workflowId: string, description: string, domain: string, now: int, envUser: string): (w: Workflow)
    ensures w.status == Running && w.steps == [] && w.startTime == now
    ensures w.endTime == None && w.totalDuration == None
    ensures w.metadata.user == if envUser == "" then "unknown" else envUser
    ensures WellFormed(w)
  {
    Workflow(workflowId, description, domain, now, Running, [],
             Metadata(if envUser == "" then "unknown" else envUser, "1.0.0", "claude-orchestrator"),
             None, None)
  }

  /** `step`: the new step goes to the end, with the next dense id. */
  function AppendStep(w: Workflow, agent: string, action: string, data: string, now: int): (r: Workflow)
    ensures |r.steps| == |w.steps| + 1
    ensures r.steps[..|w.steps|] == w.steps
    ensures r.steps[|w.steps|] == Step(|w.steps|, agent, action, now, data, Running, None, None, None, None)
    ensures r == w.(steps := r.steps)
  {
    w.(steps := w.steps + [Step(|w.steps|, agent, action, now, data, Running, None, None, None, None)])
  }

  /**
   * The stamping shared by `complete` and `error`: step `i`, when it exists,
   * gets the status, the end time and its duration, whatever its current
   * status; any other index changes nothing.
   */
  function StampStep(w: Workflow, i: int, status: string, now: int, result: Option<string>, error: Option<string>): (r: Workflow)
    ensures |r.steps| == |w.steps|
    ensures forall k :: 0 <= k < |w.steps| && k != i ==> r.steps[k] == w.steps[k]
    ensures 0 <= i < |w.steps| ==>
              r.steps[i].status == status && r.steps[i].endTime == Some(now) &&
              r.steps[i].duration == Some(now - w.steps[i].timestamp)
    ensures !(0 <= i < |w.steps|) ==> r == w
    ensures r == w.(steps := r.steps)
  {
    if 0 <= i < |w.steps| then
      var s := w.steps[i];
      var stamped := s.(status := status, endTime := Some(now), duration := Some(now - s.timestamp),
                        result := if result.Some? then result else s.result,
                        error := if error.Some? then error else s.error);
      w.(steps := w.steps[i := stamped])
    else
      w
  }

  /** `complete(i, result)`. */
  function CompleteStep(w: Workflow, i: int, result: string, now: int): (r: Workflow)
    ensures |r.steps| == |w.steps|
    ensures 0 <= i < |w.steps| ==> r.steps[i].status == Completed && r.steps[i].result == Some(result)
    ensures 0 <= i < |w.steps| ==> r.steps[i].error == w.steps[i].error
  {
    StampStep(w, i, Completed, now, Some(result), None)
  }

  /** `error(i, message)`. */
  function FailStep(w: Workflow, i: int, message: string, now: int): (r: Workflow)
    ensures |r.steps| == |w.steps|
    ensures 0 <= i < |w.steps| ==> r.steps[i].status == Failed && r.steps[i].error == Some(message)
    ensures 0 <= i < |w.steps| ==> r.steps[i].result == w.steps[i].result
  {
    StampStep(w, i, Failed, now, None, Some(message))
  }

  /** `finish(status)`: end time, total duration and final status, whatever the prior status. */
  function FinishWorkflow(w: Workflow, status: string, now: int): (r: Workflow)
    ensures r.endTime == Some(now) && r.totalDuration == Some(now - w.startTime) && r.status == status
    ensures r.steps == w.steps && r.startTime == w.startTime && r.workflowId == w.workflowId
  {
    w.(endTime := Some(now), totalDuration := Some(now - w.startTime), status := status)
  }

  lemma AppendKeepsWellFormed(w: Workflow, agent: string, action: string, data: string, now: int)
    requires WellFormed(w)
    ensures WellFormed(AppendStep(w, agent, action, data, now))
  {
    var r := AppendStep(w, agent, action, data, now);
    forall i | 0 <= i < |r.steps|
      ensures r.steps[i].stepId == i && r.steps[i].status in {Running, Completed, Failed}
    {
      if i < |w.steps| {
        assert r.steps[i] == r.steps[..|w.steps|][i];
      }
    }
  }

  lemma StampKeepsWellFormed(w: Workflow, i: int, now: int, text: string)
    requires WellFormed(w)
    ensures WellFormed(CompleteStep(w, i, text, now))
    ensures WellFormed(FailStep(w, i, text, now))
    ensures WellFormed(FinishWorkflow(w, text, now))
  {
  }

  // ---------------------------------------------------------------------
  // The step counts of `analyze`
  // ---------------------------------------------------------------------

  /** `steps.filter(s => s.status === status).length`. */
  function CountStatus(steps: seq<Step>, status: string): (n: nat)
    ensures n <= |steps|
  {
    if steps == [] then 0
    else (if steps[0].status == status then 1 else 0) + CountStatus(steps[1..], status)
  }

  /** When every status is one the tracer writes, the three counts add up to the step count. */
  lemma {:induction false} CountsAddUp(steps: seq<Step>)
    requires forall i :: 0 <= i < |steps| ==> steps[i].status in {Running, Completed, Failed}
    ensures CountStatus(steps, Completed) + CountStatus(steps, Failed) + CountStatus(steps, Running) == |steps|
  {
    if steps != [] {
      CountsAddUp(steps[1..]);
    }
  }

  lemma AnalyzeTotals(w: Workflow)
    requires WellFormed(w)
    ensures CountStatus(w.steps, Completed) + CountStatus(w.steps, Failed) + CountStatus(w.steps, Running) == |w.steps|
  {
    CountsAddUp(w.steps);
  }

  // ---------------------------------------------------------------------
  // The ordering of `list`
  // ---------------------------------------------------------------------

  function IsJson(f: string): bool {
    EndsWith(f, ".json")
  }

  function JsonFiles(files: seq<string>): (r: seq<string>)
    ensures IsSubseq(r, files)
    ensures forall f :: f in r <==> f in files && EndsWith(f, ".json")
  {
    Filter(files, IsJson)
  }

  /** The files `list(limit)` shows: the `.json` names, newest name first, cut to `limit`. */
  function RecentTraceFiles(files: seq<string>, limit: int): (r: seq<string>)
    ensures forall f :: f in r ==> f in files && EndsWith(f, ".json")
    ensures SortedDesc(r)
    ensures r <= SortDesc(JsonFiles(files))
    ensures limit >= 0 ==> |r| == if limit < |JsonFiles(files)| then limit else |JsonFiles(files)|
  {
    var sorted := SortDesc(JsonFiles(files));
    var r := SliceTo(sorted, limit);
    assert forall k :: 0 <= k < |r| ==> r[k] == sorted[k];
    forall f | f in r
      ensures f in files && EndsWith(f, ".json")
    {
      assert f in multiset(sorted);
    }
    SortPreservesCount(JsonFiles(files));
    r
  }

  lemma SortPreservesCount(s: seq<string>)
    ensures |SortDesc(s)| == |s|
  {
    assert |multiset(SortDesc(s))| == |multiset(s)|;
  }

  /** Every `.json` name left out by the cut sorts at or below every name shown. */
  lemma RecentAreNewest(files: seq<string>, limit: int, shown: string, hidden: string)
    requires shown in RecentTraceFiles(files, limit)
    requires hidden in SortDesc(JsonFiles(files)) && hidden !in RecentTraceFiles(files, limit)
    ensures LexLeq(hidden, shown)
  {
    var sorted := SortDesc(JsonFiles(files));
    var r := RecentTraceFiles(files, limit);
    var i :| 0 <= i < |r| && r[i] == shown;
    var j :| 0 <= j < |sorted| && sorted[j] == hidden;
    assert sorted[i] == shown;
    if j < |r| {
      assert r[j] == hidden;
    }
  }

  // ---------------------------------------------------------------------
  // The trace directory
  // ---------------------------------------------------------------------

  class Tracer {
    /** `.claude/state/traces/<workflowId>.json`, by workflow id. */
    var traces: map<string, Workflow>

    constructor()
      ensures traces == map[]
    {
      traces := map[];
    }

    /** Every stored trace has dense step ids and known step statuses. */
    predicate Valid()
      reads this
    {
      forall id :: id in traces ==> WellFormed(traces[id])
    }

    /** `start`: writes (or overwrites) the trace of `workflowId`. */
    method Start(workflowId: string, description: string, domain: string, now: int, envUser: string)
      returns (w: Workflow)
      modifies this
      ensures w == NewWorkflow(workflowId, description, domain, now, envUser)
      ensures traces == old(traces)[workflowId := w]
      ensures old(Valid()) ==> Valid()
    {
      w := NewWorkflow(workflowId, description, domain, now, envUser);
      traces := traces[workflowId := w];
    }

    /** `step`: the id of the appended step, or -1 when the trace cannot be loaded. */
    method AddStep(workflowId: string, agent: string, action: string, data: string, now: int)
      returns (stepId: int)
      modifies this
      ensures workflowId !in old(traces) ==> stepId == -1 && traces == old(traces)
      ensures workflowId in old(traces) ==>
                stepId == |old(traces)[workflowId].steps| &&
                traces == old(traces)[workflowId := AppendStep(old(traces)[workflowId], agent, action, data, now)]
      ensures old(Valid()) ==> Valid()
    {
      if workflowId !in traces {
        return -1;
      }
      var workflow := traces[workflowId];
      stepId := |workflow.steps|;
      if Valid() {
        AppendKeepsWellFormed(workflow, agent, action, data, now);
      }
      traces := traces[workflowId := AppendStep(workflow, agent, action, data, now)];
    }

    /** `complete`: stamps step `stepId` when the trace and the step exist. */
    method Complete(workflowId: string, stepId: int, result: string, now: int)
      modifies this
      ensures workflowId !in old(traces) ==> traces == old(traces)
      ensures workflowId in old(traces) ==>
                traces == old(traces)[workflowId := CompleteStep(old(traces)[workflowId], stepId, result, now)]
      ensures old(Valid()) ==> Valid()
    {
      if workflowId in traces {
        var workflow := traces[workflowId];
        if Valid() {
          StampKeepsWellFormed(workflow, stepId, now, result);
        }
        traces := traces[workflowId := CompleteStep(workflow, stepId, result, now)];
      }
    }

    /** `error`: stamps step `stepId` as failed when the trace and the step exist. */
    method Error(workflowId: string, stepId: int, message: string, now: int)
      modifies this
      ensures workflowId !in old(traces) ==> traces == old(traces)
      ensures workflowId in old(traces) ==>
                traces == old(traces)[workflowId := FailStep(old(traces)[workflowId], stepId, message, now)]
      ensures old(Valid()) ==> Valid()
    {
      if workflowId in traces {
        var workflow := traces[workflowId];
        if Valid() {
          StampKeepsWellFormed(workflow, stepId, now, message);
        }
        traces := traces[workflowId := FailStep(workflow, stepId, message, now)];
      }
    }

    /** `finish`: stamps the workflow with its end time and final status. */
    method Finish(workflowId: string, status: string, now: int)
      modifies this
      ensures workflowId !in old(traces) ==> traces == old(traces)
      ensures workflowId in old(traces) ==>
                traces == old(traces)[workflowId := FinishWorkflow(old(traces)[workflowId], status, now)]
      ensures old(Valid()) ==> Valid()
    {
      if workflowId in traces {
        var workflow := traces[workflowId];
        if Valid() {
          StampKeepsWellFormed(workflow, 0, now, status);
        }
        traces := traces[workflowId := FinishWorkflow(workflow, status, now)];
      }
    }
  }

  /** A traced run: the ids handed out by `step` index the steps, and stamping one leaves the other alone. */
  method TraceTwoSteps(t: Tracer, id: string, t0: int, t1: int, t2: int, t3: int)
    modifies t
    ensures id in t.traces && |t.traces[id].steps| == 2
    ensures t.traces[id].steps[0].status == Completed && t.traces[id].steps[0].duration == Some(t3 - t1)
    ensures t.traces[id].steps[1].status == Running && t.traces[id].steps[1].duration == None
  {
    var w := t.Start(id, "demo", "research", t0, "");
    var first := t.AddStep(id, "corpus-searcher", "search", "{}", t1);
    var second := t.AddStep(id, "web-researcher", "fetch", "{}", t2);
    assert first == 0 && second == 1;
    t.Complete(id, first, "{}", t3);
  }
}
