/**
 * The session checkpoint store of the agent-coordination scripts
 * (scripts/session-checkpoint.js): one JSON document per long-running
 * session, with an append-only list of checkpoints, status transitions
 * (create, resume, complete), the filters and ordering of `list`, the
 * selection of `archive` and the per-status tally of `globalAnalytics`.
 * The sessions directory is a map from session id to document; ISO dates
 * are modelled as millisecond clock readings, passed as parameters.
 */
module SessionCheckpoint {
  import opened Wrappers
  import opened Text

  const Active := "active"
  const CompletedStatus := "completed"
  const FinalCheckpointDescription := "WORKFLOW_COMPLETED"
  /** The error `fs.readFile` raises for a session file that does not exist. */
  const NoSessionMessage := "ENOENT: no such file or directory"
  const DayMs := 24 * 60 * 60 * 1000

  /** An entry of a workflow plan, as `resume` reads it. */
  datatype PlannedStep = PlannedStep(agent: string, description: string)

  /** The `workflow` object of a session. */
  datatype WorkflowState = WorkflowState(
    workflowId: string,
    currentStep: int,
    steps: seq<PlannedStep>,
    context: map<string, string>,
    variables: map<string, string>,
    lastAgent: Option<string>,
    lastOutput: Option<string>)

  /** The `state` argument of `saveCheckpoint`; an absent property is `None`. */
  datatype StateUpdate = StateUpdate(
    currentStep: Option<int>,
    steps: Option<seq<PlannedStep>>,
    context: Option<map<string, string>>,
    variables: Option<map<string, string>>,
    lastAgent: Option<string>,
    lastOutput: Option<string>,
    memoryUsage: Option<int>,
    activeAgents: Option<seq<string>>)

  /** The `workflowState` a checkpoint records. */
  datatype CheckpointState = CheckpointState(
    currentStep: int,
    steps: seq<PlannedStep>,
    context: map<string, string>,
    variables: map<string, string>,
    lastAgent: Option<string>,
    lastOutput: Option<string>)

  datatype Checkpoint = Checkpoint(
    checkpointId: string,
    timestamp: int,
    description: string,
    phase: string,
    completedSteps: int,
    workflowState: CheckpointState,
    duration: int,
    memoryUsage: Option<int>,
    activeAgents: seq<string>)

  datatype SessionMetadata = SessionMetadata(estimatedDuration: string, complexity: string, requiresUserInput: bool)

  datatype Session = Session(
    sessionId: string,
    title: string,
    domain: string,
    status: string,
    createdAt: int,
    lastUpdated: int,
    currentPhase: string,
    totalSteps: int,
    completedSteps: int,
    workflow: WorkflowState,
    checkpoints: seq<Checkpoint>,
    metadata: SessionMetadata,
    completedAt: Option<int>)

  /** The `initialState` argument of `create`; an absent property is `None`. */
  datatype InitialState = InitialState(
    estimatedSteps: Option<int>,
    workflowId: Option<string>,
    context: Option<map<string, string>>,
    variables: Option<map<string, string>>,
    estimatedDuration: Option<string>,
    complexity: Option<string>,
    requiresUserInput: bool)

  // ---------------------------------------------------------------------
  // JavaScript `||` defaults
  // ---------------------------------------------------------------------

  /** `x || d` for a number: 0 and absence are falsy. */
  function OrInt(x: Option<int>, d: int): (r: int)
    ensures x.Some? && x.value != 0 ==> r == x.value
    ensures x.None? || x.value == 0 ==> r == d
  {
    if x.Some? && x.value != 0 then x.value else d
  }

  /** `x || d` for a string: "" and absence are falsy. */
  function OrString(x: Option<string>, d: string): (r: string)
    ensures x.Some? && x.value != "" ==> r == x.value
    ensures x.None? || x.value == "" ==> r == d
  {
    if x.Some? && x.value != "" then x.value else d
  }

  // ---------------------------------------------------------------------
  // create
  // ---------------------------------------------------------------------

  /** `session-${domain}-${Date.now()}`. */
  function SessionId(domain: string, now: int): string {
    "session-" + domain + "-" + IntToString(now)
  }

  function NewSession(title: string, domain: string, init: InitialState, now: int): (s: Session)
    ensures s.sessionId == SessionId(domain, now)
    ensures s.status == Active && s.currentPhase == "planning"
    ensures s.completedSteps == 0 && s.checkpoints == [] && s.completedAt == None
    ensures s.totalSteps == if init.estimatedSteps.Some? then init.estimatedSteps.value else 0
    ensures s.workflow.currentStep == 0 && s.workflow.steps == []
    ensures s.createdAt == now && s.lastUpdated == now
  {
    var sessionId := SessionId(domain, now);
    Session(sessionId, title, domain, Active, now, now, "planning",
            OrInt(init.estimatedSteps, 0), 0,
            WorkflowState(OrString(init.workflowId, "wf-" + sessionId), 0, [],
                          init.context.GetOr(map[]), init.variables.GetOr(map[]), None, None),
            [],
            SessionMetadata(OrString(init.estimatedDuration, "unknown"), OrString(init.complexity, "high"),
                            init.requiresUserInput),
            None)
  }

  // ---------------------------------------------------------------------
  // saveCheckpoint
  // ---------------------------------------------------------------------

  /** The checkpoint's `workflowState`: each property from `state` when truthy, else the session's. */
  function CheckpointStateOf(w: WorkflowState, state: StateUpdate): (c: CheckpointState)
    ensures c.currentStep == OrInt(state.currentStep, w.currentStep)
    ensures c.steps == state.steps.GetOr(w.steps)
    ensures c.context == state.context.GetOr(w.context)
    ensures c.variables == state.variables.GetOr(w.variables)
    ensures c.lastAgent == state.lastAgent && c.lastOutput == state.lastOutput
  {
    CheckpointState(OrInt(state.currentStep, w.currentStep),
                    state.steps.GetOr(w.steps),
                    state.context.GetOr(w.context),
                    state.variables.GetOr(w.variables),
                    state.lastAgent, state.lastOutput)
  }

  /** `{ ...session.workflow, ...checkpoint.workflowState }`: `workflowId` survives, the rest is overwritten. */
  function MergeWorkflow(w: WorkflowState, c: CheckpointState): (r: WorkflowState)
    ensures r.workflowId == w.workflowId
    ensures r.currentStep == c.currentStep && r.steps == c.steps && r.context == c.context
    ensures r.variables == c.variables && r.lastAgent == c.lastAgent && r.lastOutput == c.lastOutput
  {
    WorkflowState(w.workflowId, c.currentStep, c.steps, c.context, c.variables, c.lastAgent, c.lastOutput)
  }

  function NewCheckpoint(s: Session, state: StateUpdate, description: string, now: int): (c: Checkpoint)
    ensures c.phase == s.currentPhase && c.completedSteps == s.completedSteps
    ensures c.description == description && c.timestamp == now && c.duration == now - s.createdAt
    ensures c.workflowState == CheckpointStateOf(s.workflow, state)
  {
    Checkpoint("cp-" + IntToString(now), now, description, s.currentPhase, s.completedSteps,
               CheckpointStateOf(s.workflow, state), now - s.createdAt,
               state.memoryUsage, state.activeAgents.GetOr([]))
  }

  /** The session `saveCheckpoint` writes back, with the checkpoint it returns. */
  function SaveCheckpointSpec(s: Session, state: StateUpdate, description: string, now: int): (r: (Checkpoint, Session))
    ensures r.0 == NewCheckpoint(s, state, description, now)
    ensures r.1.checkpoints == s.checkpoints + [r.0]
    ensures r.1.completedSteps == s.completedSteps && r.1.currentPhase == s.currentPhase
    ensures r.1.status == s.status && r.1.totalSteps == s.totalSteps && r.1.lastUpdated == now
    ensures r.1 == s.(checkpoints := r.1.checkpoints, lastUpdated := now, workflow := r.1.workflow)
  {
    var c := NewCheckpoint(s, state, description, now);
    (c, s.(checkpoints := s.checkpoints + [c], lastUpdated := now,
           completedSteps := c.completedSteps, workflow := MergeWorkflow(s.workflow, c.workflowState)))
  }

  /** A state with no truthy property keeps the plan, the step, the context and the variables. */
  lemma EmptyStateKeepsWorkflow(s: Session, description: string, now: int)
    ensures var w := SaveCheckpointSpec(s, StateUpdate(None, None, None, None, None, None, None, None), description, now).1.workflow;
            w.currentStep == s.workflow.currentStep && w.steps == s.workflow.steps &&
            w.context == s.workflow.context && w.variables == s.workflow.variables &&
            w.workflowId == s.workflow.workflowId
  {
  }

  /** Step 0 is falsy, so a state asking for step 0 keeps the session's current step. */
  lemma StepZeroIsIgnored(s: Session, state: StateUpdate, description: string, now: int)
    requires state.currentStep == Some(0)
    ensures SaveCheckpointSpec(s, state, description, now).1.workflow.currentStep == s.workflow.currentStep
  {
  }

  /** `saveCheckpoint` called once per state, in order. */
  function SaveAll(s: Session, states: seq<StateUpdate>, description: string, now: int): Session
    decreases |states|
  {
    if states == [] then s
    else SaveAll(SaveCheckpointSpec(s, states[0], description, now).1, states[1..], description, now)
  }

  /**
   * However many checkpoints are saved, the earlier ones stay as they were,
   * one is added per call, and progress and phase never move.
   */
  lemma {:induction false} CheckpointsAppendOnly(s: Session, states: seq<StateUpdate>, description: string, now: int)
    ensures var r := SaveAll(s, states, description, now);
            |r.checkpoints| == |s.checkpoints| + |states| &&
            r.checkpoints[..|s.checkpoints|] == s.checkpoints &&
            r.completedSteps == s.completedSteps && r.currentPhase == s.currentPhase &&
            r.status == s.status
    decreases |states|
  {
    if states != [] {
      var next := SaveCheckpointSpec(s, states[0], description, now).1;
      CheckpointsAppendOnly(next, states[1..], description, now);
      var r := SaveAll(next, states[1..], description, now);
      assert r.checkpoints[..|s.checkpoints|] == r.checkpoints[..|next.checkpoints|][..|s.checkpoints|];
    }
  }

  // ---------------------------------------------------------------------
  // resume and complete
  // ---------------------------------------------------------------------

  /** `resume`: a completed session is returned as it is; any other becomes active. */
  function ResumeSession(s: Session, now: int): (r: Session)
    ensures s.status == CompletedStatus ==> r == s
    ensures s.status != CompletedStatus ==> r == s.(status := Active, lastUpdated := now)
  {
    if s.status == CompletedStatus then s else s.(status := Active, lastUpdated := now)
  }

  lemma ResumeIdempotent(s: Session, t1: int, t2: int)
    ensures ResumeSession(ResumeSession(s, t1), t2).status == ResumeSession(s, t1).status
    ensures ResumeSession(s, t1).status in {Active, CompletedStatus}
    ensures ResumeSession(s, t1).checkpoints == s.checkpoints
  {
  }

  /**
   * The document `complete` writes: the copy loaded BEFORE the final
   * checkpoint was saved, with the completion fields set.
   */
  function CompleteSession(stale: Session, now: int): (r: Session)
    ensures r.status == CompletedStatus && r.currentPhase == CompletedStatus
    ensures r.completedAt == Some(now) && r.lastUpdated == now
    ensures r.completedSteps == if stale.totalSteps != 0 then stale.totalSteps else |stale.checkpoints|
    ensures r.checkpoints == stale.checkpoints && r.workflow == stale.workflow
  {
    stale.(status := CompletedStatus, completedAt := Some(now), lastUpdated := now,
           completedSteps := OrInt(Some(stale.totalSteps), |stale.checkpoints|),
           currentPhase := CompletedStatus)
  }

  /** A completed session cannot be reactivated by `resume`. */
  lemma CompletedStaysCompleted(s: Session, t1: int, t2: int)
    ensures ResumeSession(CompleteSession(s, t1), t2) == CompleteSession(s, t1)
  {
  }

  // ---------------------------------------------------------------------
  // list, archive, globalAnalytics
  // ---------------------------------------------------------------------

  /** The `options` of `list`; a falsy option does not filter. */
  datatype ListOptions = ListOptions(status: Option<string>, domain: Option<string>, recoverable: bool)

  function StatusIs(status: string): Session -> bool {
    (s: Session) => s.status == status
  }

  function DomainIs(domain: string): Session -> bool {
    (s: Session) => s.domain == domain
  }

  predicate Recoverable(s: Session) {
    s.status == Active && |s.checkpoints| > 0
  }

  /** The three filters of `list`, applied one after the other. */
  function ListFilters(sessions: seq<Session>, opts: ListOptions): seq<Session> {
    var byStatus := if opts.status.Some? && opts.status.value != "" then Filter(sessions, StatusIs(opts.status.value)) else sessions;
    var byDomain := if opts.domain.Some? && opts.domain.value != "" then Filter(byStatus, DomainIs(opts.domain.value)) else byStatus;
    if opts.recoverable then Filter(byDomain, Recoverable) else byDomain
  }

  /** A session passes `list` iff it passes every truthy option. */
  predicate Selected(opts: ListOptions, s: Session) {
    (opts.status.Some? && opts.status.value != "" ==> s.status == opts.status.value) &&
    (opts.domain.Some? && opts.domain.value != "" ==> s.domain == opts.domain.value) &&
    (opts.recoverable ==> Recoverable(s))
  }

  function Newest(s: Session): int {
    -s.lastUpdated
  }

  /** `list(options)`: the sessions passing every filter, last updated first. */
  function ListSessions(sessions: seq<Session>, opts: ListOptions): (r: seq<Session>)
    ensures forall s :: s in r <==> s in sessions && Selected(opts, s)
    ensures multiset(r) == multiset(ListFilters(sessions, opts))
    ensures forall i, j :: 0 <= i < j < |r| ==> r[i].lastUpdated >= r[j].lastUpdated
  {
    var filtered := ListFilters(sessions, opts);
    var r := SortByKey(filtered, Newest);
    ListFiltersSelect(sessions, opts);
    SameMembers(filtered, r);
    r
  }

  /** The three filters in a row keep exactly the sessions that pass every truthy option. */
  lemma ListFiltersSelect(sessions: seq<Session>, opts: ListOptions)
    ensures forall s :: s in ListFilters(sessions, opts) <==> s in sessions && Selected(opts, s)
  {
  }

  /** `archive(days)`: a completed session whose completion precedes the cutoff. */
  predicate Archivable(s: Session, cutoff: int) {
    s.status == CompletedStatus && s.completedAt.Some? && s.completedAt.value < cutoff
  }

  function Cutoff(now: int, olderThanDays: int): int {
    now - olderThanDays * DayMs
  }

  function ArchiveSelection(sessions: seq<Session>, olderThanDays: int, now: int): (r: seq<Session>)
    ensures IsSubseq(r, sessions)
    ensures forall s :: s in r <==> s in sessions && s.status == CompletedStatus &&
                                    s.completedAt.Some? && s.completedAt.value < now - olderThanDays * 86400000
  {
    Filter(sessions, (s: Session) => Archivable(s, Cutoff(now, olderThanDays)))
  }

  /** One entry of the `byStatus` object, in insertion order. */
  datatype Tally = Tally(status: string, count: nat)

  /** `acc[status] = (acc[status] || 0) + 1`. */
  function Bump(acc: seq<Tally>, status: string): (r: seq<Tally>)
    ensures |r| == |acc| || |r| == |acc| + 1
    decreases |acc|
  {
    if acc == [] then [Tally(status, 1)]
    else if acc[0].status == status then [acc[0].(count := acc[0].count + 1)] + acc[1..]
    else [acc[0]] + Bump(acc[1..], status)
  }

  /** The `reduce` of `globalAnalytics` over the sessions' statuses. */
  function ByStatus(statuses: seq<string>): seq<Tally>
    decreases |statuses|
  {
    if statuses == [] then []
    else Bump(ByStatus(statuses[..|statuses| - 1]), statuses[|statuses| - 1])
  }

  function Total(acc: seq<Tally>): nat
    decreases |acc|
  {
    if acc == [] then 0 else acc[0].count + Total(acc[1..])
  }

  function Occurrences(statuses: seq<string>, status: string): nat
    decreases |statuses|
  {
    if statuses == [] then 0
    else Occurrences(statuses[..|statuses| - 1], status) + (if statuses[|statuses| - 1] == status then 1 else 0)
  }

  function Lookup(acc: seq<Tally>, status: string): nat
    decreases |acc|
  {
    if acc == [] then 0 else if acc[0].status == status then acc[0].count else Lookup(acc[1..], status)
  }

  lemma {:induction false} BumpTotal(acc: seq<Tally>, status: string)
    ensures Total(Bump(acc, status)) == Total(acc) + 1
    ensures forall other :: other != status ==> Lookup(Bump(acc, status), other) == Lookup(acc, other)
    ensures Lookup(Bump(acc, status), status) == Lookup(acc, status) + 1
    decreases |acc|
  {
    if acc != [] && acc[0].status != status {
      BumpTotal(acc[1..], status);
      var r := Bump(acc, status);
      assert r[1..] == Bump(acc[1..], status);
    } else if acc != [] {
      var r := Bump(acc, status);
      assert r[1..] == acc[1..];
    }
  }

  /** The status counts add up to the number of sessions, and each is the number of sessions with that status. */
  lemma {:induction false} ByStatusCounts(statuses: seq<string>)
    ensures Total(ByStatus(statuses)) == |statuses|
    ensures forall status :: Lookup(ByStatus(statuses), status) == Occurrences(statuses, status)
    decreases |statuses|
  {
    if statuses != [] {
      ByStatusCounts(statuses[..|statuses| - 1]);
      BumpTotal(ByStatus(statuses[..|statuses| - 1]), statuses[|statuses| - 1]);
    }
  }

  function StatusesOf(sessions: seq<Session>): (r: seq<string>)
    ensures |r| == |sessions|
  {
    seq(|sessions|, i requires 0 <= i < |sessions| => sessions[i].status)
  }

  lemma ByStatusSumsToSessions(sessions: seq<Session>)
    ensures Total(ByStatus(StatusesOf(sessions))) == |sessions|
  {
    ByStatusCounts(StatusesOf(sessions));
  }

  // ---------------------------------------------------------------------
  // The sessions directory
  // ---------------------------------------------------------------------

  class SessionStore {
    /** `.claude/state/sessions/<sessionId>.json`, by session id. */
    var sessions: map<string, Session>

    constructor()
      ensures sessions == map[]
    {
      sessions := map[];
    }

    /** `create`: writes the new session, returns its id. */
    method Create(title: string, domain: string, init: InitialState, now: int) returns (sessionId: string)
      modifies this
      ensures sessionId == SessionId(domain, now)
      ensures sessions == old(sessions)[sessionId := NewSession(title, domain, init, now)]
    {
      var session := NewSession(title, domain, init, now);
      sessionId := session.sessionId;
      sessions := sessions[sessionId := session];
    }

    /** `saveCheckpoint`: appends one checkpoint; throws when the session file is missing. */
    method SaveCheckpoint(sessionId: string, state: StateUpdate, description: string, now: int)
      returns (r: Result<Checkpoint>)
      modifies this
      ensures sessionId !in old(sessions) ==> r == Err(NoSessionMessage) && sessions == old(sessions)
      ensures sessionId in old(sessions) ==>
                var (c, updated) := SaveCheckpointSpec(old(sessions)[sessionId], state, description, now);
                r == Ok(c) && sessions == old(sessions)[sessionId := updated]
    {
      if sessionId !in sessions {
        return Err(NoSessionMessage);
      }
      var (c, updated) := SaveCheckpointSpec(sessions[sessionId], state, description, now);
      sessions := sessions[sessionId := updated];
      r := Ok(c);
    }

    /** `resume`: a completed session is not written back. */
    method Resume(sessionId: string, now: int) returns (r: Result<Session>)
      modifies this
      ensures sessionId !in old(sessions) ==> r == Err(NoSessionMessage) && sessions == old(sessions)
      ensures sessionId in old(sessions) ==>
                r == Ok(ResumeSession(old(sessions)[sessionId], now)) &&
                sessions == old(sessions)[sessionId := ResumeSession(old(sessions)[sessionId], now)]
    {
      if sessionId !in sessions {
        return Err(NoSessionMessage);
      }
      var session := sessions[sessionId];
      if session.status == CompletedStatus {
        return Ok(session);
      }
      session := session.(status := Active, lastUpdated := now);
      sessions := sessions[sessionId := session];
      r := Ok(session);
    }

    /**
     * `complete`: saves a final checkpoint, then overwrites the document
     * with the copy loaded before it, so the final checkpoint is lost.
     */
    method Complete(sessionId: string, finalState: StateUpdate, now: int) returns (r: Result<Session>)
      modifies this
      ensures sessionId !in old(sessions) ==> r == Err(NoSessionMessage) && sessions == old(sessions)
      ensures sessionId in old(sessions) ==>
                r == Ok(CompleteSession(old(sessions)[sessionId], now)) &&
                sessions == old(sessions)[sessionId := CompleteSession(old(sessions)[sessionId], now)]
      ensures sessionId in old(sessions) ==>
                sessions[sessionId].checkpoints == old(sessions)[sessionId].checkpoints
    {
      if sessionId !in sessions {
        return Err(NoSessionMessage);
      }
      var session := sessions[sessionId];
      var saved := SaveCheckpoint(sessionId, finalState, FinalCheckpointDescription, now);
      session := CompleteSession(session, now);
      sessions := sessions[sessionId := session];
      r := Ok(session);
    }

    /** `archive`: moves every selected session out of the directory. */
    method Archive(olderThanDays: int, now: int)
      modifies this
      ensures forall k :: k in sessions <==> k in old(sessions) && !Archivable(old(sessions)[k], Cutoff(now, olderThanDays))
      ensures forall k :: k in sessions ==> sessions[k] == old(sessions)[k]
    {
      var cutoff := Cutoff(now, olderThanDays);
      var pending := sessions.Keys;
      ghost var start := sessions;
      while pending != {}
        invariant pending <= start.Keys
        invariant forall k :: k in sessions <==> k in start && (k in pending || !Archivable(start[k], cutoff))
        invariant forall k :: k in sessions ==> sessions[k] == start[k]
        decreases pending
      {
        var k :| k in pending;
        if Archivable(sessions[k], cutoff) {
          sessions := sessions - {k};
        }
        pending := pending - {k};
      }
    }
  }

  /** A session created, checkpointed and completed ends with the count of its checkpoints before completion. */
  method CreateCheckpointComplete(store: SessionStore, state: StateUpdate, t0: int, t1: int, t2: int)
    modifies store
    ensures var id := SessionId("research", t0);
            id in store.sessions &&
            store.sessions[id].status == CompletedStatus &&
            |store.sessions[id].checkpoints| == 1 &&
            store.sessions[id].completedSteps == 1
  {
    var id := store.Create("demo", "research", InitialState(None, None, None, None, None, None, false), t0);
    var cp := store.SaveCheckpoint(id, state, "searched", t1);
    var done := store.Complete(id, state, t2);
  }
}
