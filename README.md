# jdr-coffee core, modelled in Dafny

This project models the deterministic core of jdr-coffee, a tabletop
role-playing toolkit, and proves properties of it. The core has four parts.

- **Agent-coordination scripts.** These are:
  - the resource conflict checker and its greedy split of a batch of agents into conflict-free phases (`resource_check.dfy`);
  - the reader/writer corpus lock (`corpus_lock.dfy`);
  - the workflow trace documents (`workflow_trace.dfy`);
  - the session checkpoint documents (`session_checkpoint.dfy`);
  - the overall-health fold of the health monitor (`health.dfy`).

  Each JSON file store is a map from id to document, held in a class whose methods update it. Clock readings, process ids and random id parts are parameters.
- **Game-data library.** This part covers:
  - currency decomposition and conversion (`currencies.dfy`);
  - item availability, filters, prices and encumbrance (`items.dfy`);
  - material lookups, filters and sorts (`materials.dfy`);
  - material formulas over reals (`material_calculations.dfy`).
- **Task classifiers.** These are the rule-based complexity diagnostic (`diagnose_task.dfy`) and the workflow starter's scoring and suggestions (`start_workflow.dfy`). Both score a request by the keywords its lower-cased text contains and map the score to a level.
- **Universe selection.** This part models:
  - the universe catalog (`universe_catalog.dfy`);
  - the search filters (`universe_filter.dfy`) and the data helpers built on them (`universe_data.dfy`);
  - the selection store with its two setters (`universe_store.dfy`);
  - the wrap-around keyboard cursor (`universe_nav.dfy`).

`text.dfy` gives the string and sequence semantics the sources rely on: `toLowerCase`, `includes`, `join`, `filter` and a stable `sort`. `wrappers.dfy` holds the `Option` and `Result` types. A thrown `Error` becomes a `Result` failure carrying the message.

Loops that accumulate in the source are methods with loop invariants, each proved against a specification function. The properties the sources promise are proved as lemmas about those functions.

`task_examples.dfy` proves what the diagnostic as written gives for the four requests of `scripts/test-enforcement.js`.
- Two requests get the level the test expects:
  - "How does this component work?" is DIRECT.
  - "récupérer menu de ../jdr-coffee pour layout" is COMPLEX.
- The other two do not:
  - "create a new button component" scores at least 7 and is COMPLEX, not WORKFLOW. Two frontend keywords with an action word give 4 points, "button" gives 1 user-facing point, and the frontend and product domains add the 2-point bonus.
  - "implement user authentication system with dashboard" scores exactly 1 and is DIRECT, not COMPLEX. Only the user-facing keyword "dashboard" matches, and only the product domain is detected.

The model follows `analyzeTask` as written and proves the levels it actually gives. For these two requests, `CreateButtonComponentIsComplex` and `ImplementAuthenticationIsDirect` state levels that differ from the test's expectations.

## Model

| member | source | states |
|---|---|---|
| Text.LowerIsLower | scripts/diagnose-task.js:72 | lower-casing keeps the length, leaves no upper-case letter, changes nothing in text without one, and is idempotent |
| Text.ContainsIff | scripts/diagnose-task.js:83 | `includes` holds exactly when the pattern occurs at some position of the text |
| Text.SortByKey | scripts/start-workflow.js:94 | the sorted list is a permutation of the input in non-decreasing key order |
| Text.FilterCount | legacy/static-data/src/lib/items/items.helpers.ts:177 | `filter` keeps every copy of a passing element and drops every copy of a failing one |
| Text.Round | legacy/static-data/src/lib/items/items.helpers.ts:137 | `Math.round` lands on a whole number within half a unit of the value, halves rounding up |
| ResourceCheck.GetConflictReason | scripts/resource-check.js:151-159 | "both write" exactly when both profiles write, "write/read" exactly when one of them writes, the generic reason exactly when neither does |
| ResourceCheck.CheckAgentConflict | scripts/resource-check.js:124-142 | an agent without a profile yields the unknown-definition conflict; two known agents conflict exactly when either conflict list names the other; a record always names the pair in call order |
| ResourceCheck.ConflictSymmetric | scripts/resource-check.js:137-142 | the conflict relation and its reason are the same for (a, b) and (b, a) |
| ResourceCheck.SearcherEnricherIsWriteRead | scripts/resource-check.js:19-28 | with the agent table, corpus-searcher against corpus-enricher gives the write/read reason, and web-researcher does not conflict with corpus-enricher |
| ResourceCheck.UnknownConflictsWithAll | scripts/resource-check.js:128-134 | an agent without a profile conflicts with every agent, in both orders |
| ResourceCheck.UnknownAgentAlone | scripts/resource-check.js:128-134 | a conflict-free group holding an agent without a profile is that agent alone |
| ResourceCheck.ConflictFreeExtend | scripts/resource-check.js:176-182 | adding an agent that passes the `every` test to a conflict-free phase keeps it conflict-free |
| ResourceCheck.CannotJoinGrows | scripts/resource-check.js:176-178 | an agent refused by a phase is still refused once the phase has grown |
| ResourceCheck.ConflictFreePermutation | scripts/resource-check.js:80-90 | whether a batch is conflict-free depends only on its multiset of agents, not on their order |
| ResourceCheck.RowConflictsEmptyIff | scripts/resource-check.js:81-89 | the inner scan for agent i finds nothing exactly when i conflicts with no later agent |
| ResourceCheck.PairsBeforeEmptyIff | scripts/resource-check.js:80-90 | the scan of the first i rows finds nothing exactly when no pair starting in them conflicts |
| ResourceCheck.PairConflictsEmptyIff | scripts/resource-check.js:80-92 | the pairwise scan reports no conflict exactly when no pair i < j conflicts |
| ResourceCheck.ScanStep | scripts/resource-check.js:175-184 | one pass of the phase-building loop keeps the phase an ordered, conflict-free pick and records every refused agent as refused |
| ResourceCheck.BuildPhase | scripts/resource-check.js:175-184 | the phase built from the waiting agents starts with the first of them, is conflict-free, keeps their order, and every agent left out conflicts with it |
| ResourceCheck.RemoveStep | scripts/resource-check.js:187-190 | removing one waiting agent keeps the remainder an order-keeping subsequence whose multiset, with the removed agents, is the original |
| ResourceCheck.RemoveEach | scripts/resource-check.js:187-190 | removing each placed agent by `indexOf`/`splice` leaves an order-keeping subsequence holding the original multiset minus the placed agents; `indexOf` never returns -1 there |
| ResourceCheck.WellFormedStep | scripts/resource-check.js:170-193 | appending a non-empty, conflict-free, order-keeping phase keeps every phase so |
| ResourceCheck.FirstFitStep | scripts/resource-check.js:170-193 | each agent of a new phase was refused by every earlier phase |
| ResourceCheck.TurnedAwayStep | scripts/resource-check.js:170-193 | after a pass, every agent still waiting was refused by every phase built so far |
| ResourceCheck.PlanStep | scripts/resource-check.js:170-193 | one round of the `while` loop keeps its invariant: the phases plus the waiting agents make up the batch |
| ResourceCheck.GeneratePhases | scripts/resource-check.js:166-196 | the phases are non-empty and conflict-free, keep batch order, together are a permutation of the batch, follow first fit, number at most the batch size, and the first phase starts with the first agent |
| ResourceCheck.UnsafeNeedsTwoPhases | scripts/resource-check.js:103-115 | when the batch is not conflict-free, the phase plan has at least two phases |
| ResourceCheck.PhaseNoLongerThanBatch | scripts/resource-check.js:166-196 | every phase holds between one agent and the whole batch |
| ResourceCheck.ScanRow | scripts/resource-check.js:81-89 | the inner loop collects the conflicts of agent i with each later agent, in order |
| ResourceCheck.ScanPairs | scripts/resource-check.js:80-90 | the nested loops collect the conflicts of every pair i < j, in scan order |
| ResourceCheck.CheckParallel | scripts/resource-check.js:71-116 | safe exactly when the batch is conflict-free, then with one phase holding the whole batch and 'parallel'; otherwise 'sequential' with the listed conflicts and a phase plan of at least two phases |
| ResourceCheck.MaxPhaseSize | scripts/resource-check.js:314 | the largest phase size: no phase is larger and some phase has it |
| ResourceCheck.Efficiency | scripts/resource-check.js:314-315 | the rounded percentage lies in 0..100 and is 100 when the largest phase is the whole batch |
| ResourceCheck.RatioBounds | scripts/resource-check.js:315 | the share of the largest phase, as a percentage, lies in 0..100 and is exactly 100 when that phase holds the whole batch |
| ResourceCheck.Registry.constructor | scripts/resource-check.js:327-336 | a missing registry reads as no active work and no completed work |
| ResourceCheck.Registry.RegisterWork | scripts/resource-check.js:209-214 | the agent's entry is overwritten with the spread details, the start time and the pid, and nothing else changes |
| ResourceCheck.Registry.UnregisterWork | scripts/resource-check.js:231-242 | a registered agent's entry moves to the end of the completed list with duration = now - start and its key is deleted; an unregistered agent changes nothing |
| ResourceCheck.RegisterThenUnregister | scripts/resource-check.js:209-242 | registering then unregistering leaves the agent inactive and appends one completed record whose duration is the elapsed time |
| CorpusLock.IsClearMeansNoActiveLocks | scripts/corpus-lock.js:71-76 | the model's clear conditions coincide with the active-lock tests: no parsed record at all, or no parsed record in mode 'write' |
| CorpusLock.UnparseableIgnored | scripts/corpus-lock.js:117-125 | a lock file that does not parse is skipped, so it affects admission exactly as if it were absent |
| CorpusLock.Reap | scripts/corpus-lock.js:136-150 | the cleaned table keeps exactly the files that are not parsed records older than the timeout, unchanged |
| CorpusLock.ReapBoundary | scripts/corpus-lock.js:141 | a record exactly 30000 ms old is not stale (the comparison is strict) |
| CorpusLock.Wait | scripts/corpus-lock.js:68-106 | the polling loop succeeds only with its condition holding, and only ever removes files |
| CorpusLock.SubTableKeepsExclusion | scripts/corpus-lock.js:136-150 | removing lock files never breaks writer exclusion |
| CorpusLock.AcquireKeepsExclusion | scripts/corpus-lock.js:24-63 | for modes 'read' and 'write', a table in which a 'write' record is the only record stays so after an acquire |
| CorpusLock.RemovalKeepsExclusion | scripts/corpus-lock.js:52-59 | reaping stale records and releasing one lock both keep writer exclusion |
| CorpusLock.OtherModeBreaksExclusion | scripts/corpus-lock.js:38-46 | a mode other than 'read'/'write' (such as "WRITE") is inserted without waiting and can sit beside a live writer |
| CorpusLock.OtherModeNoWait | scripts/corpus-lock.js:38-49 | any other mode string skips both waits and inserts its record at once |
| CorpusLock.AcquireOutcome | scripts/corpus-lock.js:24-63 | a granted lock returns the id `agent-now-nonce` and adds exactly that record stamped with the request time; a refusal adds nothing and carries the matching timeout message |
| CorpusLock.AdmissionRules | scripts/corpus-lock.js:38-46 | a granted write finds no other parsed record; a granted read finds no parsed 'write' record |
| CorpusLock.LiveWriterBlocksReaders | scripts/corpus-lock.js:90-106 | a 'write' record that never becomes stale during the wait keeps every reader waiting until it times out |
| CorpusLock.LockTable.constructor | scripts/corpus-lock.js:195-197 | the lock directory starts empty |
| CorpusLock.LockTable.CleanStaleLocks | scripts/corpus-lock.js:136-150 | the table becomes its reaped form |
| CorpusLock.LockTable.PollUntilClear | scripts/corpus-lock.js:71-82 | the `while` loop computes the polling function's verdict and table |
| CorpusLock.LockTable.WaitForExclusiveAccess | scripts/corpus-lock.js:68-85 | waits until no lock is active, with the exclusive-access timeout error otherwise |
| CorpusLock.LockTable.WaitForWriteLocksToClean | scripts/corpus-lock.js:90-106 | waits until no 'write' lock is active, with the write-lock timeout error otherwise |
| CorpusLock.LockTable.Acquire | scripts/corpus-lock.js:24-63 | the acquire step computes the admission function's result and table |
| CorpusLock.LockTable.Release | scripts/corpus-lock.js:52-59 | the release closure removes exactly its own lock file, and reports whether the file was there |
| CorpusLock.LockTable.ForceCleanup | scripts/corpus-lock.js:177-190 | every lock file is removed |
| WorkflowTrace.NewWorkflow | scripts/workflow-trace.js:23-38 | a new trace is running, has no steps, starts at the given time, has no end time and no duration, records the user (or "unknown" when unset), and is well-formed |
| WorkflowTrace.AppendStep | scripts/workflow-trace.js:63-73 | the step list grows by exactly one at the end: the new step's id is its position, it is running with no duration, and nothing else in the trace changes |
| WorkflowTrace.StampStep | scripts/workflow-trace.js:96-103 | stamping step `i` changes only that step's status, end time and duration (duration = end time - start); any other step stays as it was, and an id that is not a position leaves the trace unchanged |
| WorkflowTrace.CompleteStep | scripts/workflow-trace.js:93-115 | a completed step has status "completed" and the result, and keeps its error |
| WorkflowTrace.FailStep | scripts/workflow-trace.js:123-145 | a failed step has status "error" and the message, and keeps its result |
| WorkflowTrace.FinishWorkflow | scripts/workflow-trace.js:152-160 | a finished trace has the end time, total duration = end - start and the final status; its steps, start and id are unchanged |
| WorkflowTrace.AppendKeepsWellFormed | scripts/workflow-trace.js:63-73 | appending a step keeps step ids equal to positions and every status known |
| WorkflowTrace.StampKeepsWellFormed | scripts/workflow-trace.js:93-160 | completing, failing and finishing keep the trace well-formed |
| WorkflowTrace.CountStatus | scripts/workflow-trace.js:265-267 | a status count never exceeds the number of steps |
| WorkflowTrace.CountsAddUp | scripts/workflow-trace.js:264-267 | when every status is running, completed or error, the three counts of `analyze` add up to the number of steps |
| WorkflowTrace.AnalyzeTotals | scripts/workflow-trace.js:264-267 | for every well-formed trace, completed + error + running steps = total steps |
| WorkflowTrace.JsonFiles | scripts/workflow-trace.js:221 | keeps, in order, exactly the names ending in ".json" |
| WorkflowTrace.RecentTraceFiles | scripts/workflow-trace.js:220-223 | the listed names are trace files, sorted newest name first, a prefix of all sorted trace files, and exactly `limit` of them (or all, when there are fewer) |
| WorkflowTrace.SortPreservesCount | scripts/workflow-trace.js:222 | sorting keeps the number of names |
| WorkflowTrace.RecentAreNewest | scripts/workflow-trace.js:220-223 | every trace file cut off by the limit sorts at or below every file shown |
| WorkflowTrace.Tracer.constructor | scripts/workflow-trace.js:13-15 | the trace directory starts empty |
| WorkflowTrace.Tracer.Start | scripts/workflow-trace.js:23-48 | writes (or overwrites) the new trace under its id, returns it, and keeps every trace well-formed |
| WorkflowTrace.Tracer.AddStep | scripts/workflow-trace.js:57-85 | an unknown workflow gives -1 and changes nothing; otherwise the step is appended to that trace alone and its id (the old step count) is returned |
| WorkflowTrace.Tracer.Complete | scripts/workflow-trace.js:93-115 | an unknown workflow changes nothing; otherwise only that trace changes, as CompleteStep says |
| WorkflowTrace.Tracer.Error | scripts/workflow-trace.js:123-145 | an unknown workflow changes nothing; otherwise only that trace changes, as FailStep says |
| WorkflowTrace.Tracer.Finish | scripts/workflow-trace.js:152-170 | an unknown workflow changes nothing; otherwise only that trace changes, as FinishWorkflow says |
| WorkflowTrace.TraceTwoSteps | scripts/workflow-trace.js:57-115 | after two steps with the first completed, the first is completed with duration = completion - start and the second is still running with no duration |
| SessionCheckpoint.OrInt | scripts/session-checkpoint.js:80 | `x \|\| d` on a number: the value when present and non-zero, the default when absent or 0 |
| SessionCheckpoint.OrString | scripts/session-checkpoint.js:38 | `x \|\| d` on a string: the value when present and non-empty, the default otherwise |
| SessionCheckpoint.NewSession | scripts/session-checkpoint.js:23-50 | a new session is active, in the planning phase, with no steps done, no checkpoints, no completion time, step 0 of an empty plan, the estimated step count (or 0), and created and updated at the same time |
| SessionCheckpoint.CheckpointStateOf | scripts/session-checkpoint.js:79-86 | each recorded field is the given one when truthy and the session's own otherwise; a step of 0 counts as absent; last agent and output are copied as given |
| SessionCheckpoint.MergeWorkflow | scripts/session-checkpoint.js:98 | the spread merge keeps the workflow id and takes every other field from the checkpoint |
| SessionCheckpoint.NewCheckpoint | scripts/session-checkpoint.js:73-92 | the checkpoint records the session's phase and step count, the description, the time, the time since creation, and the merged state |
| SessionCheckpoint.SaveCheckpointSpec | scripts/session-checkpoint.js:69-111 | saving appends exactly that checkpoint, sets the update time and the merged workflow, and leaves step count, phase, status, planned step count and everything else alone |
| SessionCheckpoint.EmptyStateKeepsWorkflow | scripts/session-checkpoint.js:79-98 | saving an empty state leaves the workflow's step, plan, context, variables and id unchanged |
| SessionCheckpoint.StepZeroIsIgnored | scripts/session-checkpoint.js:80 | a state at step 0 cannot move the workflow to step 0: the session's current step is kept |
| SessionCheckpoint.CheckpointsAppendOnly | scripts/session-checkpoint.js:95-97 | a run of saves grows the checkpoint list by one per save, keeps the earlier checkpoints as a prefix, and never changes step count, phase or status |
| SessionCheckpoint.ResumeSession | scripts/session-checkpoint.js:122-171 | a completed session comes back unchanged; any other becomes active with a new update time and nothing else changed |
| SessionCheckpoint.ResumeIdempotent | scripts/session-checkpoint.js:126-166 | resuming twice gives the status of resuming once; the result is active or completed, and the checkpoints are untouched |
| SessionCheckpoint.CompleteSession | scripts/session-checkpoint.js:248-258 | the session read before the final checkpoint becomes completed (status and phase), completed and updated now, with step count = planned steps, or the checkpoint count when none are planned; its checkpoints and workflow are those of that stale copy |
| SessionCheckpoint.CompletedStaysCompleted | scripts/session-checkpoint.js:126-129 | resuming a completed session changes nothing |
| SessionCheckpoint.ListSessions | scripts/session-checkpoint.js:202-214 | the listed sessions are exactly those passing every truthy option, a permutation of the filtered list, ordered last updated first |
| SessionCheckpoint.ListFiltersSelect | scripts/session-checkpoint.js:203-211 | the three filters in a row keep exactly the sessions that pass every truthy option |
| SessionCheckpoint.ArchiveSelection | scripts/session-checkpoint.js:284-288 | keeps, in order, exactly the completed sessions completed before now minus the given number of days |
| SessionCheckpoint.Bump | scripts/session-checkpoint.js:379 | counting one more status adds at most one entry to the tally |
| SessionCheckpoint.BumpTotal | scripts/session-checkpoint.js:379 | counting a status raises its count and the total by one and leaves every other count alone |
| SessionCheckpoint.ByStatusCounts | scripts/session-checkpoint.js:378-381 | each status's count is its number of occurrences, and the counts add up to the number of statuses |
| SessionCheckpoint.StatusesOf | scripts/session-checkpoint.js:378-381 | one status per session |
| SessionCheckpoint.ByStatusSumsToSessions | scripts/session-checkpoint.js:378-381 | the status counts of the global analytics add up to the number of sessions |
| SessionCheckpoint.SessionStore.constructor | scripts/session-checkpoint.js:13-15 | the sessions directory starts empty |
| SessionCheckpoint.SessionStore.Create | scripts/session-checkpoint.js:23-61 | writes the new session under `session-<domain>-<time>` and returns that id |
| SessionCheckpoint.SessionStore.SaveCheckpoint | scripts/session-checkpoint.js:69-116 | a missing session file is an error and changes nothing; otherwise returns the checkpoint and stores the updated session as SaveCheckpointSpec says |
| SessionCheckpoint.SessionStore.Resume | scripts/session-checkpoint.js:122-176 | a missing session is an error; otherwise returns and stores the resumed session |
| SessionCheckpoint.SessionStore.Complete | scripts/session-checkpoint.js:246-275 | a missing session is an error; otherwise the stale copy, completed, overwrites the session, so the final checkpoint just saved is lost from the session file |
| SessionCheckpoint.SessionStore.Archive | scripts/session-checkpoint.js:281-304 | exactly the archivable sessions leave the directory; every other session stays, unchanged |
| SessionCheckpoint.CreateCheckpointComplete | scripts/session-checkpoint.js:23-275 | create, one checkpoint, then complete: the session is completed, with one checkpoint and one step done |
| Currencies.Hierarchy | legacy/static-data/src/lib/currencies/currencies.helpers.ts:14-20 | the hierarchy holds exactly the currencies with a base value, as a permutation of the filtered list, sorted by base value descending |
| Currencies.HierarchicalIffHierarchy | legacy/static-data/src/lib/currencies/currencies.helpers.ts:6-8 | a system is hierarchical iff its hierarchy is non-empty; the empty system is not hierarchical |
| Currencies.FloorDiv | legacy/static-data/src/lib/currencies/currencies.helpers.ts:45 | `Math.floor(a / b)`: for a positive divisor, the quotient q satisfies q·b ≤ a < q·b + b |
| Currencies.DecomposeNothing | legacy/static-data/src/lib/currencies/currencies.helpers.ts:40-52 | a value of 0 formats to no entries |
| Currencies.GreedyStep | legacy/static-data/src/lib/currencies/currencies.helpers.ts:45-49 | one step takes a non-negative amount, leaves a remainder below the base value, takes at least one base value when the amount is positive, and leaves nothing for a base value of 1 |
| Currencies.DecomposeEntries | legacy/static-data/src/lib/currencies/currencies.helpers.ts:42-50 | every entry is a currency of the hierarchy with a positive base value and a positive amount |
| Currencies.DecomposeDescending | legacy/static-data/src/lib/currencies/currencies.helpers.ts:42-50 | the entries come in strictly descending base value |
| Currencies.DecomposeWorth | legacy/static-data/src/lib/currencies/currencies.helpers.ts:40-52 | the entries are worth between 0 and the value; exactly the value when the hierarchy has a unit of base value 1 |
| Currencies.DecomposeFrom | legacy/static-data/src/lib/currencies/currencies.helpers.ts:42-50 | one loop iteration: a currency with base value 0 is skipped, a positive floor quotient pushes an entry and lowers the remainder, a zero quotient moves on |
| Currencies.Greedy | legacy/static-data/src/lib/currencies/currencies.helpers.ts:38-52 | the loop computes exactly the greedy decomposition |
| Currencies.FormatCurrency | legacy/static-data/src/lib/currencies/currencies.helpers.ts:30-53 | a non-hierarchical system gives the error, and only it does; otherwise the greedy decomposition over the hierarchy |
| Currencies.FormatCurrencyExact | legacy/static-data/src/lib/currencies/currencies.helpers.ts:30-53 | with a base unit of value 1 and a non-negative value, formatting succeeds, is worth exactly the value, in strictly descending currencies, with only positive amounts |
| Currencies.ZeroIsEmpty | legacy/static-data/src/lib/currencies/currencies.helpers.ts:30-53 | 0 in a hierarchical system formats to the empty list |
| Currencies.ToBaseValue | legacy/static-data/src/lib/currencies/currencies.helpers.ts:62-67 | a currency with no (or a zero) base value is an error, and only such a currency is |
| Currencies.FromBaseValue | legacy/static-data/src/lib/currencies/currencies.helpers.ts:76-81 | a currency with no (or a zero) base value is an error, and only such a currency is |
| Currencies.ConversionRoundTrip | legacy/static-data/src/lib/currencies/currencies.helpers.ts:62-81 | converting to the base unit and back, or back and then to the base unit, gives the amount again |
| Currencies.BaseUnit | legacy/static-data/src/lib/currencies/currencies.helpers.ts:98 | the first currency of base value 1, when one exists; none exactly when there is none |
| Currencies.TextEntry | legacy/static-data/src/lib/currencies/currencies.helpers.ts:102 | the amount, a space and the name, with an "s" exactly when the amount exceeds 1 |
| Currencies.MapEntries | legacy/static-data/src/lib/currencies/currencies.helpers.ts:102 | one text per entry, in order |
| Currencies.FormatCurrencyText | legacy/static-data/src/lib/currencies/currencies.helpers.ts:91-103 | fails exactly when formatting fails; an empty decomposition reads "0 " and the base unit's name (or "unités"); otherwise the entries' texts, each the amount, a space and the name, joined by ", " in hierarchy order |
| Currencies.FormatCurrencySymbols | legacy/static-data/src/lib/currencies/currencies.helpers.ts:114-130 | fails exactly when formatting fails; an empty decomposition reads "0 " and the base unit's symbol, name or "unités"; otherwise every entry's amount and symbol joined by ", ", whatever `showZero` says |
| Currencies.DecomposeHasNoZero | legacy/static-data/src/lib/currencies/currencies.helpers.ts:46-47 | no entry has amount 0 |
| Currencies.ShowZeroHasNoEffect | legacy/static-data/src/lib/currencies/currencies.helpers.ts:117-127 | the `showZero` flag never changes the text, since no entry has amount 0 |
| Currencies.CeilTenth | legacy/static-data/src/lib/currencies/currencies.helpers.ts:154 | rounding up to the tenth gives a value at least x and less than x + 0.1 |
| Currencies.FirstFit | legacy/static-data/src/lib/currencies/currencies.helpers.ts:147-157 | the first currency of the hierarchy in which the value is at least 1, every earlier one being too large; none exactly when no currency fits |
| Currencies.ChooseCurrency | legacy/static-data/src/lib/currencies/currencies.helpers.ts:147-157 | the loop with its early exit picks exactly the first fitting currency |
| Currencies.FirstFitHighest | legacy/static-data/src/lib/currencies/currencies.helpers.ts:147-157 | in a hierarchy sorted by descending base value, no fitting currency has a larger base value than the one picked |
| Currencies.SimpleSpec | legacy/static-data/src/lib/currencies/currencies.helpers.ts:140-162 | a listed currency is used only when the value fits it, with the value in it rounded up to a tenth and its label, and no fitting currency is larger; the base-unit fallback happens exactly when nothing fits and shows the value with the base unit's label |
| Currencies.FormatCurrencySimple | legacy/static-data/src/lib/currencies/currencies.helpers.ts:140-162 | the method computes exactly the specified simple format |
| Currencies.FirstFitIsHighest | legacy/static-data/src/lib/currencies/currencies.helpers.ts:147-156 | in a hierarchy sorted descending, the first fitting currency has the highest base value among all fitting ones |
| Currencies.DndExample | legacy/static-data/src/lib/currencies/currencies.helpers.test.ts:101-110 | 156 copper is 1 gold, 5 silver, 6 copper; 100 copper is 1 gold |
| Currencies.DndHierarchy | legacy/static-data/src/lib/currencies/currencies.helpers.test.ts:43-49 | the D&D hierarchy is gold, silver, copper |
| Currencies.DndSimpleGold | legacy/static-data/src/lib/currencies/currencies.helpers.test.ts:261-271 | 156 copper reads 1.6 in "po" and 150 copper reads 1.5 in "po" |
| Currencies.DndSimpleSilver | legacy/static-data/src/lib/currencies/currencies.helpers.test.ts:279-295 | 50 copper reads 5 in "pa" and 15 copper reads 1.5 in "pa" |
| Currencies.DndSimpleCopper | legacy/static-data/src/lib/currencies/currencies.helpers.test.ts:285-289 | 5 copper stays 5 in "pc" |
| Currencies.DndText156 | legacy/static-data/src/lib/currencies/currencies.helpers.test.ts:195-201 | 156 copper reads "1 Pièce d'or, 5 Pièce d'argents, 6 Pièce de cuivres" |
| Currencies.DndText111 | legacy/static-data/src/lib/currencies/currencies.helpers.test.ts:221-225 | 111 copper reads "1 Pièce d'or, 1 Pièce d'argent, 1 Pièce de cuivre" |
| Currencies.DndTextZero | legacy/static-data/src/lib/currencies/currencies.helpers.test.ts:215-219 | 0 copper reads "0 Pièce de cuivre" |
| Currencies.DndSymbols156 | legacy/static-data/src/lib/currencies/currencies.helpers.test.ts:229-233 | 156 copper reads "1 po, 5 pa, 6 pc" |
| Currencies.DndSymbols100 | legacy/static-data/src/lib/currencies/currencies.helpers.test.ts:235-245 | 100 copper reads "1 po", with or without `showZero` |
| Currencies.DndSymbols56 | legacy/static-data/src/lib/currencies/currencies.helpers.test.ts:253-257 | 56 copper reads "5 pa, 6 pc" |
| Currencies.DndSymbolsZero | legacy/static-data/src/lib/currencies/currencies.helpers.test.ts:247-251 | 0 copper reads "0 pc" |
| Materials.MultiplierFor | legacy/static-data/src/lib/materials/materials.helpers.ts:59 | a period has a multiplier iff the record has an entry for it, and the multiplier found is that entry's |
| Materials.Keys | legacy/static-data/src/lib/materials/materials.helpers.ts:27 | one key per entry, in order |
| Materials.AvailablePeriods | legacy/static-data/src/lib/materials/materials.helpers.ts:26-28 | the periods listed are exactly those with a multiplier, one per entry |
| Materials.MaterialsForPeriod | legacy/static-data/src/lib/materials/materials.helpers.ts:33-37 | keeps, in order, exactly the materials with a multiplier for the period |
| Materials.UnknownPeriodSelectsNothing | legacy/static-data/src/lib/materials/materials.helpers.ts:33-37 | a period no material lists selects nothing |
| Materials.MaterialById | legacy/static-data/src/lib/materials/materials.helpers.ts:75-77 | none exactly when no material has the id; otherwise the first material with that id |
| Materials.IsMaterialAvailableInPeriod | legacy/static-data/src/lib/materials/materials.helpers.ts:42-48 | false for an unknown id; for a known id, true iff the first material with it lists the period |
| Materials.MaterialPrice | legacy/static-data/src/lib/materials/materials.helpers.ts:54-70 | an error, with its message, exactly when the material does not list the period; otherwise the base cost times that period's multiplier |
| Materials.MaterialPriceDefault | legacy/static-data/src/lib/materials/materials.helpers.ts:57 | with the default base cost, a listed period costs 100 times its multiplier |
| Materials.PriceIsLinearInBaseCost | legacy/static-data/src/lib/materials/materials.helpers.ts:54-70 | availability does not depend on the base cost, and the price of a sum of base costs is the sum of the prices |
| Materials.MaterialsByCategory | legacy/static-data/src/lib/materials/materials.helpers.ts:82-88 | keeps, in order, exactly the materials of the category |
| Materials.MaterialsByProperty | legacy/static-data/src/lib/materials/materials.helpers.ts:93-99 | keeps, in order, exactly the materials with the special property |
| Materials.MaterialsSortedByCost | legacy/static-data/src/lib/materials/materials.helpers.ts:104-110 | a permutation of the table in ascending cost, a missing cost counting as 0 |
| Materials.MaterialsSortedByRarity | legacy/static-data/src/lib/materials/materials.helpers.ts:115-121 | a permutation of the table in ascending rarity, a missing rarity counting as 0 |
| Materials.MissingCostSortsFirst | legacy/static-data/src/lib/materials/materials.helpers.ts:105-109 | a material with no cost sorts before every material with a positive cost |
| Materials.MaterialsByMinSharpness | legacy/static-data/src/lib/materials/materials.helpers.ts:126-131 | keeps, in order, exactly the materials whose overall sharpness (0 when unscored) reaches the threshold |
| Materials.UnscoredBelowPositiveThreshold | legacy/static-data/src/lib/materials/materials.helpers.ts:128 | an unscored material never passes a positive threshold |
| Materials.MaterialsByDensityRange | legacy/static-data/src/lib/materials/materials.helpers.ts:136-144 | keeps, in order, exactly the materials whose density lies in the closed range |
| Materials.DensityBoundsInclusive | legacy/static-data/src/lib/materials/materials.helpers.ts:142 | a density equal to either bound is inside the range |
| MaterialCalculations.CalculateWeight | legacy/static-data/src/lib/materials/materials.calculations.ts:9-16 | a zero volume weighs nothing, and non-negative inputs give a non-negative weight |
| MaterialCalculations.WeightIsAdditive | legacy/static-data/src/lib/materials/materials.calculations.ts:15 | the weight of two volumes together is the sum of their weights |
| MaterialCalculations.CalculateDurability | legacy/static-data/src/lib/materials/materials.calculations.ts:24-29 | a factor of 1 keeps the base durability; non-negative inputs give a non-negative result |
| MaterialCalculations.CalculateEffectiveness | legacy/static-data/src/lib/materials/materials.calculations.ts:37-42 | a factor of 1 keeps the base effectiveness; non-negative inputs give a non-negative result |
| MaterialCalculations.CalculatePrice | legacy/static-data/src/lib/materials/materials.calculations.ts:52-68 | an error, with its message, exactly when the period is not listed; otherwise base price times the multiplier plus material cost (0 when absent) times complexity |
| MaterialCalculations.CalculatePriceDefault | legacy/static-data/src/lib/materials/materials.calculations.ts:56 | with the default complexity of 1, the price adds the material cost once |
| MaterialCalculations.ItemPriceExtendsMaterialPrice | legacy/static-data/src/lib/materials/materials.calculations.ts:52-68 | the item price is available exactly when the material price is, and exceeds it by cost times complexity |
| MaterialCalculations.NormalizeHardness | legacy/static-data/src/lib/materials/materials.calculations.ts:75-94 | Mohs is kept; HRC is scaled from 0-70 and Vickers from 0-1000 onto 0-10 |
| MaterialCalculations.NormalizedHardnessInRange | legacy/static-data/src/lib/materials/materials.calculations.ts:78-90 | a hardness within its scale's range normalizes into 0-10 |
| MaterialCalculations.CalculateSharpnessScore | legacy/static-data/src/lib/materials/materials.calculations.ts:102-117 | always within 0-10; 0 when unscored; the raw weighted score when it lies in range, clamped to 0 or 10 otherwise |
| MaterialCalculations.StrengthToWeight | legacy/static-data/src/lib/materials/materials.calculations.ts:124-126 | no ratio exactly for density 0; otherwise the ratio times the density is the tensile strength |
| MaterialCalculations.CompareForWeapons | legacy/static-data/src/lib/materials/materials.calculations.ts:134-149 | positive iff the first material's weapon score is higher; zero iff the scores are equal |
| MaterialCalculations.WeaponComparatorAntisymmetric | legacy/static-data/src/lib/materials/materials.calculations.ts:134-149 | the comparator is antisymmetric, zero on equal materials, and transitive, so it is a valid sort order |
| MaterialCalculations.ArmorScore | legacy/static-data/src/lib/materials/materials.calculations.ts:161-164 | no score exactly for weight factor 0; otherwise 0.4 hardness + 4 durability + 2 / weight factor |
| MaterialCalculations.CompareForArmor | legacy/static-data/src/lib/materials/materials.calculations.ts:157-172 | defined exactly when both weight factors are non-zero, and then positive iff the first armor score is higher |
| MaterialCalculations.ArmorComparatorAntisymmetric | legacy/static-data/src/lib/materials/materials.calculations.ts:157-172 | the armor comparator is antisymmetric and zero on equal materials |
| MaterialCalculations.LighterArmorWins | legacy/static-data/src/lib/materials/materials.calculations.ts:164 | with equal hardness and durability, the lighter material compares higher |
| MaterialCalculations.RequiredForgingTemperature | legacy/static-data/src/lib/materials/materials.calculations.ts:179-193 | none exactly for a non-metal or a missing or zero melting point; otherwise 65% of the melting point, rounded |
| MaterialCalculations.CanBeQuenched | legacy/static-data/src/lib/materials/materials.calculations.ts:200-206 | true exactly for the metals "steel" and "stainless_steel" |
| MaterialCalculations.QuenchingIgnoresData | legacy/static-data/src/lib/materials/materials.calculations.ts:200-206 | only the category and the id decide quenching |
| MaterialCalculations.QuenchingCases | legacy/static-data/src/lib/materials/materials.calculations.test.ts:365-390 | steel and stainless steel can be quenched; iron, wood, aluminium and every non-metal cannot |
| MaterialCalculations.QuenchableIsForgeable | legacy/static-data/src/lib/materials/materials.calculations.ts:179-206 | a quenchable material with a non-zero melting point has a forging temperature; a non-metal has none and cannot be quenched |
| MaterialCalculations.ForgingTemperatureExample | legacy/static-data/src/lib/materials/materials.calculations.ts:179-193 | a metal melting at 1500 forges at 975 |
| MaterialCalculations.NormalizeThermalConductivity | legacy/static-data/src/lib/materials/materials.calculations.ts:213-217 | never above 1; 0 without thermal data; non-negative for a non-negative conductivity; exactly 1 from 5000 W/m·K up |
| Items.IsItemAvailable | legacy/static-data/src/lib/items/items.helpers.ts:23-65 | the loop with its early exits decides exactly the availability rules: no restrictions admit; a forbidden category, all materials forbidden or a forbidden property exclude; then the item's universe list, when present, decides |
| Items.AvailabilityRules | legacy/static-data/src/lib/items/items.helpers.ts:31-57 | no restrictions admit every item; a forbidden category excludes; a forbidden property excludes; forbidden materials exclude an item with no materials at all |
| Items.ListedUniversesDecide | legacy/static-data/src/lib/items/items.helpers.ts:60-64 | once no restriction applies, the item's universe list decides by id, and an item without one is available; an empty list admits nothing |
| Items.FilterItemsByUniverse | legacy/static-data/src/lib/items/items.helpers.ts:172-178 | keeps, in order, exactly the items available in the universe |
| Items.FilterItemsByPeriod | legacy/static-data/src/lib/items/items.helpers.ts:187-196 | keeps, in order, exactly the items listing the period, or tagged with it when they list no periods |
| Items.PeriodListOverridesTags | legacy/static-data/src/lib/items/items.helpers.ts:190-192 | an item with a period list is kept iff the list names the period, whatever its tags |
| Items.ProductAppend | legacy/static-data/src/lib/items/items.helpers.ts:123-135 | the product of the factors of two lists is the product of their products |
| Items.Factors | legacy/static-data/src/lib/items/items.helpers.ts:123-135 | one factor per property, in order |
| Items.PropertiesFactorAppend | legacy/static-data/src/lib/items/items.helpers.ts:123-135 | the property factor of two lists of properties is the product of their factors |
| Items.PropertyOrderIrrelevant | legacy/static-data/src/lib/items/items.helpers.ts:123-135 | the order of the properties does not change the price |
| Items.ItemPrice | legacy/static-data/src/lib/items/items.helpers.ts:87-137 | an error, with its message, exactly when the material is known and has no multiplier for the period; otherwise the whole number nearest the unrounded price (base price × material factor × rarity × property factors) |
| Items.UnknownMaterialNoFactor | legacy/static-data/src/lib/items/items.helpers.ts:102-137 | an unknown material id contributes no factor: the price is base price × rarity × the property factors, rounded to the nearest whole piece |
| Items.UnknownMaterialRounds | legacy/static-data/src/lib/items/items.helpers.ts:137 | the final rounding is to the nearest whole piece: a base price of 1.5 costs 2 and one of 2.4 costs 2 |
| Items.PropertiesFactorStep | legacy/static-data/src/lib/items/items.helpers.ts:123-134 | one iteration of the property loop multiplies the running price by that property's factor; a factor of 1 (no multiplier) leaves it alone |
| Items.ItemPriceIs | legacy/static-data/src/lib/items/items.helpers.ts:87-137 | a price built from the price before properties and the property factors, rounded, is the item price, and lies within half a piece of the unrounded price |
| Items.CalculateItemPrice | legacy/static-data/src/lib/items/items.helpers.ts:87-137 | the method, with its loop and final rounding, computes exactly the specified price or error |
| Items.ApplyPropertyMultipliers | legacy/static-data/src/lib/items/items.helpers.ts:123-135 | the loop multiplies the start price by every property's factor, a universe override replacing the property's own multiplier |
| Items.TotalSlotsAppend | legacy/static-data/src/lib/items/items.helpers.ts:253-257 | the slots of two lists of items add up |
| Items.LevelFromSlots | legacy/static-data/src/lib/items/items.helpers.ts:280-287 | negligible exactly at 0 slots, light up to 3, normal up to 6, cumbersome up to 10, heavy up to 15, very heavy above |
| Items.LevelMonotone | legacy/static-data/src/lib/items/items.helpers.ts:280-287 | more slots never give a lighter level |
| Items.AddingItemNeverLightens | legacy/static-data/src/lib/items/items.helpers.ts:249-265 | adding an item to the list never lowers the encumbrance level |
| Items.RoundToCents | legacy/static-data/src/lib/items/items.helpers.ts:243 | rounding to two decimals stays within half a cent |
| Items.CalculateTotalWeight | legacy/static-data/src/lib/items/items.helpers.ts:207-271 | 0 kg for no items; the first item picks the system: the kg total, rounded to cents, or the slot total and its level, or 0 kg when it has neither |
| Items.AvailableMaterialsForPeriod | legacy/static-data/src/lib/items/items.helpers.ts:327-336 | keeps, in order, exactly the item's materials that are known and have a multiplier for the period |
| Items.CanItemBeCraftedInPeriod | legacy/static-data/src/lib/items/items.helpers.ts:347-358 | true iff some material of the item can be had in the period |
| Items.IsItemMaterialAvailableInPeriod | legacy/static-data/src/lib/items/items.helpers.ts:369-383 | true iff the material is in the item's list of materials available in the period |
| Items.CraftableIffSomeMaterialAvailable | legacy/static-data/src/lib/items/items.helpers.ts:347-383 | an item can be crafted in a period iff some material id passes the per-material check |
| DiagnoseTask.AnyContainedIff | scripts/diagnose-task.js:83-84 | the question and action-word tests hold exactly when some word of their list occurs in the lower-cased request |
| DiagnoseTask.MatchedKeywordsIff | scripts/diagnose-task.js:109-111 | a rule's matched keywords are, in table order, exactly its keywords whose lower-cased form occurs in the content |
| DiagnoseTask.TriggerMatches | scripts/diagnose-task.js:133 | a pattern's matches are, in table order, exactly its triggers that occur in the content as written |
| DiagnoseTask.UpperTriggerNeverMatches | scripts/diagnose-task.js:133 | a trigger with an upper-case letter never matches the lower-cased request, since triggers are not lower-cased |
| DiagnoseTask.UiNeverDetected | scripts/diagnose-task.js:40 | the frontend pattern's "UI" trigger can never be among the detected matches |
| DiagnoseTask.RulePoints | scripts/diagnose-task.js:113-119 | a matched rule earns its points, doubled only for the frontend rule with action words and more than one matched keyword |
| DiagnoseTask.FrontendCap | scripts/diagnose-task.js:116-119 | a matched frontend rule earns 4 points exactly when the request has action words and two or more keywords match, and 2 otherwise |
| DiagnoseTask.SumPointsSnoc | scripts/diagnose-task.js:121-127 | recording one more applied rule adds exactly its points to the total |
| DiagnoseTask.RulesScoreIsAppliedSum | scripts/diagnose-task.js:108-129 | the points the rule loop adds equal the sum of the points of the applied rules it records |
| DiagnoseTask.DetectDomains | scripts/diagnose-task.js:132-142 | every detected domain has at least one match and its confidence is its number of matches |
| DiagnoseTask.DomainNames | scripts/diagnose-task.js:149 | the bonus rule's keywords are the detected domain names, one per domain, in order |
| DiagnoseTask.LevelOf | scripts/diagnose-task.js:156-163 | DIRECT exactly up to 2 points, WORKFLOW exactly from 3 to 5, COMPLEX exactly from 6 |
| DiagnoseTask.Recommendations | scripts/diagnose-task.js:178-211 | the first recommendation is direct execution exactly for DIRECT and a workflow requirement otherwise; a start-with step for the first domain exactly when a domain was found; session tracking exactly for COMPLEX; nothing else |
| DiagnoseTask.GenerateRecommendations | scripts/diagnose-task.js:178-211 | the recommendation list built step by step is the one specified by Recommendations |
| DiagnoseTask.ScoreRules | scripts/diagnose-task.js:108-129 | the loop over the rule table returns the total and the applied rules the rule functions specify |
| DiagnoseTask.FindDomains | scripts/diagnose-task.js:132-142 | the loop over the pattern table returns the detected domains DetectDomains specifies |
| DiagnoseTask.AnalyzeWith | scripts/diagnose-task.js:71-173 | the analysis of a request under given tables is the one Analyze specifies |
| DiagnoseTask.AnalyzeScored | scripts/diagnose-task.js:107-173 | after the pure-question exit, scoring, domain detection, the bonus, the level and the sorted domains give the specified analysis |
| DiagnoseTask.AnalyzeTask | scripts/diagnose-task.js:71-173 | analyzeTask with the script's own rule and pattern tables is Analyze of those tables |
| DiagnoseTask.PureQuestionIsDirect | scripts/diagnose-task.js:87-105 | a question without action words gets 0 points, DIRECT, no domains, the single pure-question rule and the single pure-question recommendation, whatever the tables |
| DiagnoseTask.TotalIsSumOfAppliedRules | scripts/diagnose-task.js:121-153 | the total points always equal the sum of the points of the applied rules reported |
| DiagnoseTask.BonusIffSeveralDomains | scripts/diagnose-task.js:144-153 | the multiple-domains rule worth 2 is appended after the scored rules exactly when more than one domain is detected |
| DiagnoseTask.DomainsByConfidence | scripts/diagnose-task.js:170 | the reported domains come highest confidence first and are a permutation of the detected ones |
| DiagnoseTask.RecommendationsFollowLevel | scripts/diagnose-task.js:171 | in every analysis, execution is recommended exactly at DIRECT, a start-with step exactly when a domain is reported, and session tracking exactly at COMPLEX |
| DiagnoseTask.AnalyzedPoints | scripts/diagnose-task.js:121-153 | outside the pure-question case the total is the rule score plus 2 exactly when more than one domain is detected |
| DiagnoseTask.RulesScoreNonNegative | scripts/diagnose-task.js:15-36 | with rules of non-negative points the rule score is never negative |
| DiagnoseTask.TableScore | scripts/diagnose-task.js:15-36 | the score over the rule table is the sum of the frontend, cross-project, user-facing and multiple-files scores |
| DiagnoseTask.TwoFrontendKeywordsScoreFour | scripts/diagnose-task.js:116-119 | two different frontend keywords in a request with action words earn exactly 4 points |
| DiagnoseTask.KeywordEarnsRulePoints | scripts/diagnose-task.js:113-115 | one keyword of a rule other than frontend is enough to earn that rule's points |
| DiagnoseTask.NoKeywordNoPoints | scripts/diagnose-task.js:113 | a rule none of whose keywords occurs earns nothing |
| DiagnoseTask.NoTriggerNoMatches | scripts/diagnose-task.js:133-134 | a pattern none of whose triggers occurs has no matches |
| DiagnoseTask.DomainCount | scripts/diagnose-task.js:132-142 | over three patterns, the number of detected domains is the number of patterns with a match |
| DiagnoseTask.HowDoesQuestionIsDirect | scripts/diagnose-task.js:78-105 | a request containing "how does" and no action word scores 0 and is DIRECT |
| DiagnoseTask.CopyingMenuAndLayoutIsComplex | scripts/diagnose-task.js:108-163 | a request with an action word, "menu", "layout" and "../" scores at least 7 and is COMPLEX |
| DiagnoseTask.CreatingButtonComponentIsComplex | scripts/diagnose-task.js:108-163 | a request containing "create", "button" and "component" scores at least 7 and is COMPLEX |
| DiagnoseTask.OnlyUserFacingIsDirect | scripts/diagnose-task.js:108-163 | a request that is not a pure question, matches only a user-facing keyword and names at most one domain scores exactly 1 and is DIRECT |
| TaskExamples.HowDoesThisComponentWorkIsDirect | scripts/test-enforcement.js:18-22 | "How does this component work?" scores 0 and is DIRECT, as the test expects |
| TaskExamples.RecupererMenuIsComplex | scripts/test-enforcement.js:11-15 | "récupérer menu de ../jdr-coffee pour layout" scores at least 7 and is COMPLEX, so the test's expectation of COMPLEX with at least 6 points holds |
| TaskExamples.CreateButtonComponentIsComplex | scripts/test-enforcement.js:25-29 | "create a new button component" scores at least 7 and is COMPLEX, so it meets the test's minimum of 3 points but not its expected level WORKFLOW |
| TaskExamples.ImplementAuthenticationIsDirect | scripts/test-enforcement.js:32-36 | "implement user authentication system with dashboard" scores exactly 1 and is DIRECT, so it meets neither the test's expected level COMPLEX nor its minimum of 6 points |
| StartWorkflow.PresentIff | scripts/start-workflow.js:84 | the triggers found are, in table order, exactly the listed triggers that occur in the lower-cased request |
| StartWorkflow.PresentCountsDistinctWords | scripts/start-workflow.js:58-71 | over a list without repeats, the number of triggers found is the number of distinct listed triggers that occur |
| StartWorkflow.CalculateComplexity | scripts/start-workflow.js:52-74 | the two trigger loops return the points and the detected triggers of Score on the lower-cased request |
| StartWorkflow.ScoreCountsDistinctTriggers | scripts/start-workflow.js:57-71 | the score is 2 per distinct frontend trigger present plus 3 per distinct cross-project trigger present; the frontend triggers found come first, each group in table order; the score lies between 0 and its maximum |
| StartWorkflow.SameTriggersSameScore | scripts/start-workflow.js:58-71 | two requests in which the same triggers occur get the same points and triggers, so a repeated trigger counts once |
| StartWorkflow.CalculatedComplexityBounds | scripts/start-workflow.js:52-74 | every request scores between 0 and 24, counting each trigger once |
| StartWorkflow.AnalyzeLevel | scripts/start-workflow.js:173 | DIRECT exactly below 3 points, WORKFLOW exactly from 3 below 6, COMPLEX exactly from 6 |
| StartWorkflow.AnalyzeLevelAgreesWithDiagnostic | scripts/start-workflow.js:173 | the starter's level boundaries coincide with the complexity diagnostic's for every score |
| StartWorkflow.SuggestWorkflow | scripts/start-workflow.js:79-95 | the loop over the workflow table returns the workflows with a match, sorted by priority, as Suggestions specifies |
| StartWorkflow.CandidatesIff | scripts/start-workflow.js:83-92 | a workflow is a candidate exactly when it has a match, and every candidate is some workflow's suggestion with its number of matches as priority |
| StartWorkflow.SuggestedIffSomeTriggerMatches | scripts/start-workflow.js:79-95 | a workflow is suggested exactly when one of its triggers occurs in the lower-cased request; each suggestion carries that workflow's key, its matches and their number; suggestions come highest priority first |
| StartWorkflow.PresentShorterWhenAbsent | scripts/start-workflow.js:84 | a listed trigger that does not occur leaves fewer matches than triggers |
| StartWorkflow.UiNeverSuggested | scripts/start-workflow.js:21 | the frontend workflow's upper-case "UI" trigger never matches, so its priority is at most 5 |
| UniverseCatalog.AllUniverses | features/universe-selection/data/universes.data.ts:118 | the list holds the record's universes, one per key, in key order |
| UniverseCatalog.UniverseById | features/universe-selection/data/universes.data.ts:119-120 | a universe is found exactly when the record has the key, and it is the one stored under that key |
| UniverseCatalog.FoundUniverseIsListed | features/universe-selection/data/universes.data.ts:118-120 | a universe found by key is among all universes |
| UniverseCatalog.DefaultUniverse | features/universe-selection/data/universes.data.ts:121 | the default is the universe stored under "medieval-generic" and is among all universes |
| UniverseFilter.FilterUniverses | features/universe-selection/helpers/universe-filter.helper.ts:3-39 | keeps, in order, exactly the universes whose name or description mentions the term, some genre of which mentions some requested genre, and whose period mentions some requested period, ignoring case, an empty criterion keeping all |
| UniverseFilter.AbsentIsEmpty | features/universe-selection/helpers/universe-filter.helper.ts:11 | an absent criterion filters like an empty one |
| UniverseFilter.SearchIsFilter | features/universe-selection/helpers/universe-filter.helper.ts:41-51 | searchUniverses gives what filterUniverses gives with the same three criteria |
| UniverseFilter.EmptyCriteriaKeepAll | features/universe-selection/helpers/universe-filter.helper.ts:14-35 | with no term, no genres and no periods every universe is kept, in order |
| UniverseFilter.FilterIdempotent | features/universe-selection/helpers/universe-filter.helper.ts:13-38 | filtering a filtered list again with the same options changes nothing |
| UniverseFilter.TermCaseInsensitive | features/universe-selection/helpers/universe-filter.helper.ts:16-18 | a term matches exactly when its lower-cased form does |
| UniverseData.FindUniverseById | features/universe-selection/helpers/universe-data.helper.ts:10-11 | a universe is found exactly when the catalog has the id, and it is one of the catalog's universes |
| UniverseData.FindUniversesByGenre | features/universe-selection/helpers/universe-data.helper.ts:13-16 | keeps, in catalog order, exactly the universes with a genre that mentions the query, ignoring case |
| UniverseData.FindUniversesByPeriod | features/universe-selection/helpers/universe-data.helper.ts:18-21 | keeps, in catalog order, exactly the universes whose period mentions the query, ignoring case |
| UniverseData.UniverseDescriptionById | features/universe-selection/helpers/universe-data.helper.ts:23-26 | the description of the universe found, or "No description available" when none is found or its description is absent or empty; never empty |
| UniverseData.GenreSearchIsGenreFilter | features/universe-selection/helpers/universe-data.helper.ts:13-16 | searching by one genre is the filter with that genre alone |
| UniverseData.PeriodSearchIsPeriodFilter | features/universe-selection/helpers/universe-data.helper.ts:18-21 | searching by one period is the filter with that period alone |
| UniverseStore.SelectionAfter | features/universe-selection/stores/universe.store.ts:13-16 | a known id selects its universe, an unknown id keeps the current selection, and a listed selection stays listed |
| UniverseStore.UniverseSelection.constructor | features/universe-selection/stores/universe.store.ts:11-25 | the store starts on the default universe with every universe on offer and shown and an empty term |
| UniverseStore.UniverseSelection.SetSelectedUniverse | features/universe-selection/stores/universe.store.ts:13-16 | only the selection changes, to SelectionAfter of the id, and the store invariant is kept |
| UniverseStore.UniverseSelection.SetSearchTerm | features/universe-selection/stores/universe.store.ts:18-24 | the term is recorded and the shown list becomes the offer filtered by the term alone; the selection and the offer are unchanged; the store invariant is kept |
| UniverseStore.FilteredMatchesTerm | features/universe-selection/stores/universe.store.ts:21-23 | the shown list holds, in order, exactly the offered universes that match the term |
| UniverseStore.EmptyTermShowsAll | features/universe-selection/stores/universe.store.ts:17-25 | the empty term shows every universe on offer, as the initial state does |
| UniverseStore.SelectionIdempotent | features/universe-selection/stores/universe.store.ts:13-16 | selecting the same id twice leaves the selection of selecting it once |
| UniverseStore.SelectThenSearch | features/universe-selection/stores/universe.store.ts:11-25 | after creating the store, selecting an id and setting a term, the invariant holds, the term is recorded, and the selection is that id's universe or the default one for an unknown id |
| UniverseNav.Request | features/universe-selection/hooks/use-universe-nav.hook.ts:23-26 | Enter asks for the id of the universe under the cursor, or reads past the list when the cursor is off it; other keys ask for nothing |
| UniverseNav.MoveStaysInRange | features/universe-selection/hooks/use-universe-nav.hook.ts:11-22 | in a non-empty list any key leaves the cursor on an entry |
| UniverseNav.DownUpRestores | features/universe-selection/hooks/use-universe-nav.hook.ts:11-22 | ArrowDown then ArrowUp, or ArrowUp then ArrowDown, returns the cursor to its entry |
| UniverseNav.DownsCompose | features/universe-selection/hooks/use-universe-nav.hook.ts:11-16 | a presses of ArrowDown followed by b presses equal a + b presses |
| UniverseNav.DownsClimb | features/universe-selection/hooks/use-universe-nav.hook.ts:13-15 | short of the last entry, k presses of ArrowDown move the cursor k entries on |
| UniverseNav.FullCycleReturns | features/universe-selection/hooks/use-universe-nav.hook.ts:11-16 | in a list of n entries, n presses of ArrowDown bring the cursor back where it started |
| UniverseNav.EmptyListUpIsMinusOne | features/universe-selection/hooks/use-universe-nav.hook.ts:11-22 | in an empty list ArrowUp from the top sets the cursor to -1, and ArrowDown then sets it to 0 |
| UniverseNav.Navigation.constructor | features/universe-selection/hooks/use-universe-nav.hook.ts:6 | the cursor starts on the first entry |
| UniverseNav.Navigation.HandleKey | features/universe-selection/hooks/use-universe-nav.hook.ts:8-30 | the arrows move the cursor with wrap-around, Enter returns the request for the entry under the old cursor and leaves the cursor alone, other keys do nothing, and a cursor on an entry stays on one; on a valid cursor, Enter reports a missing entry exactly when the list is empty |
| UniverseNav.EnterSelectsListed | features/universe-selection/hooks/use-universe-nav.hook.ts:23-26 | on a cursor within a non-empty list, Enter selects the id of a listed universe; it reports a missing entry exactly when the list is empty |
| UniverseNav.CursorStaysInRange | features/universe-selection/hooks/use-universe-nav.hook.ts:8-22 | from an entry of a non-empty list, any sequence of keys leaves the cursor on an entry |
| UniverseNav.EnterAfterKeys | features/universe-selection/hooks/use-universe-nav.hook.ts:8-30 | after any keys from the first entry, Enter in a non-empty list selects the universe under the cursor |
| Health.Statuses | scripts/health-monitor.js:383 | one status per component, in order, each the component's own |
| Health.OverallHealth | scripts/health-monitor.js:382-388 | error exactly when some component failed, warning exactly when none failed and some warned, healthy exactly when every component is healthy |
| Health.WorstIsMaximum | scripts/health-monitor.js:382-388 | the worst status is healthy for no components, otherwise one of the statuses, and no status is more severe |
| Health.OverallIsWorst | scripts/health-monitor.js:382-388 | the overall status is the most severe component status |
| Health.OrderIndependent | scripts/health-monitor.js:382-388 | components with the same statuses, in any order, give the same overall status |
| Health.NoComponentsIsHealthy | scripts/health-monitor.js:387 | a monitor with no component checks reports healthy |
| Health.AddingCheckNeverImproves | scripts/health-monitor.js:382-388 | adding a component check never makes the overall status less severe |

## Left out

**Text and number semantics**
- `toLowerCase` is modelled for ASCII and Latin-1 upper-case letters only. Other Unicode case mappings are not modelled.
- `localeCompare` in `scripts/workflow-trace.js:222` is modelled as code-unit lexicographic order. Locale collation rules are not modelled.
- Floating-point numbers are modelled as reals, so rounding error and `NaN` are absent. A division by zero, which gives a non-finite number in the library, is modelled as `None`.
- Currency base values are integers, as in every currency table of the library. `formatCurrency` takes a whole number of base units; a fractional value is not modelled. `toBaseValue` and `fromBaseValue` work over reals.
- `normalizeHardness` has a `default` branch returning 0. With the three hardness scales as a datatype that branch cannot be reached, so it is not modelled.

**Time, I/O and concurrency**
- Clocks, ISO date strings, process ids and random id parts are parameters. Dates are millisecond clock readings.
- The following are replaced by maps held in classes:
  - filesystem reads, writes, renames and deletions;
  - JSON parsing and rendering;
  - console output;
  - the command-line front ends, including `displayWorkflow` and `main` of `scripts/start-workflow.js` except its level thresholds.
- The corpus lock's check-then-insert race between processes is not modelled: the check and the insertion are one step. Polling with `setTimeout` is a loop over supplied clock readings.
- The health monitor's checks, `monitor` and `quick` are I/O and timers and are not modelled; only `calculateOverallHealth` is.
- React rendering and the `zustand` store machinery are not modelled. The store is a class whose setters update its fields, and the keyboard hook is a class holding the cursor.

**Modelling choices**
- `isItemAvailable` never reads its `_materials` parameter, so the model omits it.
- `priceMultiplier` records are association lists in record order. Absent property or material multiplier records are empty maps.
- The complexity diagnostic's recommendations and applied-rule sources are datatypes. Their type and message strings are rendered by `RecommendationType` and `RecommendationMessage`.
- The workflow starter's `name` and `description` fields are omitted because no modelled operation reads them.
- The universe catalog omits each universe's `restrictions`. Item availability reads restrictions through its own universe record.
- `availableUniverses[activeIndex]` past the end of the list would throw in the browser. Enter then yields `MissingEntry`.
- The constant tables (`UNIVERSES`, the materials table, the currency systems, the universe files) are parameters or small fixtures, not copied in full.
- Default argument values are not defaults in the model; callers pass them. These are the lock mode `'read'` of `scripts/corpus-lock.js:24`, the `list` limit 10 of `scripts/workflow-trace.js:218`, the archive age of 30 days of `scripts/session-checkpoint.js:281`, and the empty `{}` states of `scripts/session-checkpoint.js:23` and `:246`.
- The comments on `universes` and `periods` at `legacy/static-data/src/lib/items/items.types.ts:62-65` say an empty list means every universe or every period. The code admits no universe for an empty `universes` list (`legacy/static-data/src/lib/items/items.helpers.ts:60-64`) and no period for an empty `periods` list (`items.helpers.ts:190-191`). The model follows the code (`Items.ListedUniversesDecide`, `Items.PeriodListOverridesTags`).
- The fourth request of `scripts/test-enforcement.js` is stated as its six words joined by single spaces, which is the same string.

**Operations not modelled**
- `convertWeight` and `calculateItemWeight` are float unit conversions with rounding.
- The averages in workflow `analyze`, session `analytics` and `globalAnalytics` are floating-point averages with rounding and are not modelled. The counts are modelled.

**Weaker contracts**
- UniverseFilter.SearchUniverses: carries no contract of its own; `SearchIsFilter` proves it equal to `FilterUniverses` with the same criteria.
- Text.SortByKey: states sorted order and permutation, but not stability (equal keys keep their input order), which `Array.prototype.sort` guarantees.
- DiagnoseTask.DetectDomains: states what each detected domain holds, but not which patterns are detected. `DomainCount` and `NoTriggerNoMatches` cover that for the pattern table.
- TaskExamples.CreateButtonComponentIsComplex: states at least 7 points rather than exactly 7, because that already decides the level.
