# A verified model of the packtrail workflow engine

packtrail runs workflows as event-sourced executions. A deterministic state
machine turns commands into events (`Decide`) and folds events into a state
(`Apply`); engines append decisions to a log under an expected-sequence check; a
loader rebuilds states from a log, archived segments and snapshots; a dispatcher
turns stored events into effects. This project models those four layers and proves
what they promise about each other.

| file | what it holds |
|---|---|
| `values.dfy`, `memory.dfy` | JSON values, channel reducers, the bounded memory of seen ids |
| `flows.dfy`, `graphs.dfy`, `validator.dfy` | flow definitions; when one is well formed; the imperative validator |
| `state.dfy` | the state of an execution and the fold of every event |
| `invariants.dfy` | what holds between decisions |
| `guards.dfy` | when each event may be emitted, where control may go next, and what a legal history is |
| `joins.dfy` | join verdicts |
| `controlsteps.dfy`, `outcomes.dfy` | one lemma per transition of the control part |
| `commands.dfy`, `forks.dfy`, `decider.dfy` | commands, forks, and the decider as a class |
| `runs.dfy`, `ledgers.dfy`, `children.dfy`, `mapruns.dfy`, `reuse.dfy` | what holds along every legal history; a signal id used again |
| `trails.dfy`, `fleet.dfy` | executions driven by any sequence of commands, forks and continuations |
| `logprotocol.dfy`, `system.dfy` | engines that cache, decide and append concurrently, and the decider at work in them |
| `histories.dfy`, `written.dfy`, `loader.dfy` | stored histories, continuation as new, and reading them back |
| `dispatcher.dfy`, `delivery.dfy`, `quarantine.dfy` | applying stored decisions, delivery to several dispatchers, suppressing jobs, quarantine and replay |

How the parts fit. `Guards.Legal` says when a sequence of events is legal: every
event is guarded in the state folded from what precedes it, every node is entered
where the event before leads, every failure has a cause, and every timer is due when
its node says. Each method
of `Deciders.Decider` keeps the events it emitted legal and folding to its current
state, and ends where `Invariants.Boundary` holds. Three methods then run whole
systems on arbitrary input and promise, without any assumption on it, what holds at
the end:

- `Fleets.Serve` validates a definition and feeds any sequence of commands, forks and
  continuations to executions of it through the decider. Its postconditions are what
  `runs.dfy` and the files beside it prove of legal histories.
- `Systems.Serve` does the same with any number of engines whose steps interleave in any
  order. Every turn it takes is shown to be a step of the protocol of `logprotocol.dfy`,
  with the decider in the place of the protocol's machine.
- `Deliveries.Run` stores, snapshots, continues, purges, delivers, fails, skips, crashes and
  acknowledges in any order.

One thing the code does is not legal: a decision that forks a live execution with
children and is too large to be stored is replaced by a failure that names the source's
children (`Runs.Misaborted`). The results say exactly where that matters.

Another loses work: decisions skipped while an execution is quarantined are acknowledged, so
a continuation may purge them before a replay reads them, and the replay ends without an
error (`Quarantines.PurgeLoses`). A due decision runs if and only if no purge takes it away
first; for that it is enough that purges stop at the mark and at the position of every
replay that has not ended (`Quarantines.HeededRan`), and not enough that they stop at the mark
(`Quarantines.MarkIsNotEnough`).

Decisions that shaped the model. Absent, nil and null JSON values are one value.
Expressions and output schemas are deterministic functions of what they see, an
expression that fails being one outcome. Times and durations are integers,
counters are reals. Keys `node#i` of map items, timer ids and child ids are data
(`Item(node, i)`, a number, `ChildId(parent, n)`): node ids contain no `#` and the
numbers come from one counter. Go iterates over sorted keys; the model leaves the
order open, so what is proved holds for any order. Cancel lists are sets.

## Model

| member | source | states |
|---|---|---|
| Values.Reduce | internal/fold/reduce.go:37-50 | a channel of a reducer's type keeps that type, and on such a channel a write reduces if and only if its value is one the reducer takes |
| Values.MergeFields | internal/fold/reduce.go:83-102 | the loop over the delta's fields, in any order, computes the merge |
| Memory.Capped | internal/fold/state.go:838-852 | keeps exactly the cap when there are more ids, and every id forgotten is older (time, then id) than every id kept |
| Memory.Remember | internal/fold/state.go:825-853 | at most the cap is kept; what is kept is the new id or an unchanged id within the window; below the cap nothing in the window is lost |
| Memory.FindOldest | internal/fold/state.go:841-848 | the loop finds the unique oldest id of the order by time and id |
| Memory.RememberId | internal/fold/state.go:828-853 | the two deleting loops compute `Remember` |
| Flows.Backoff | flow/flow.go:467-511 | with wrapping 64-bit arithmetic, a retry delay is positive and at most the cap; without a retry policy it is 0 |
| Flows.MaxAttempts | flow/flow.go:453-459 | at least one attempt, and more than one only with a retry policy |
| Graphs.IndexHolds | flow/validate.go:76-95 | every node id is in the index, every entry is a node with that id, and with distinct ids every node is its own entry |
| Graphs.ClosedHolds | flow/graph.go:300-322 | a set closed under successors that holds the start holds every node reachable by a path |
| Graphs.WellFormedIsSound | flow/graph.go:43-52 | a well-formed definition with its indexes is sound: all routing leads to enterable nodes, every fan-out is closed by its own join, branches neither route nor fail onward, budgets are positive, defaults fit |
| Validation.Validator.IndexNodes | flow/validate.go:76-95 | builds the index; reports nothing if and only if ids are valid tokens and distinct |
| Validation.Validator.ValidateFlowLevel | flow/validate.go:118-166 | reports nothing if and only if max_steps is not negative, channel names and defaults and budgets are in order |
| Validation.Validator.ValidateNodes | flow/validate.go:234-256 | reports nothing if and only if every node is in order on its own and all its references resolve |
| Validation.Validator.RejectForeignFields | flow/validate.go:340-400 | reports nothing if and only if no field is set that does not apply to the node's type |
| Validation.Validator.ValidateChoice | flow/validate.go:524-568 | reports nothing if and only if there are rules, exactly one is the default, and all targets resolve |
| Validation.Validator.ValidateJoin | flow/validate.go:587-617 | reports nothing if and only if awaited branches resolve without repetition and the policy is one of the four with a possible count |
| Validation.Validator.ValidateMap | flow/validate.go:636-684 | reports nothing if and only if the item kind, limits and attempt policy of a map are in order |
| Validation.Validator.ValidateFanBranches | flow/graph.go:100-133 | reports nothing if and only if branches are distinct, belong to no earlier fan-out and have a branch's shape; branchOf then holds exactly the branches seen |
| Validation.Validator.ValidateJoinFan | flow/graph.go:135-158 | reports nothing if and only if the join closes a fan-out, waits only for its branches and can reach its count |
| Validation.Validator.ValidateFans | flow/graph.go:43-87 | reports nothing if and only if every fan-out and join fits and no two fan-outs share a branch or join; branchOf and joinOf are then the maps of the definition |
| Validation.Validator.RejectBranchEntry | flow/graph.go:208-230 | reports nothing if and only if no route leads into a branch, nor into a join except from the fan-out it closes |
| Validation.Validator.Entrances | flow/graph.go:257-275 | returns, in order, exactly the nodes nothing leads to |
| Validation.Validator.ResolveStart | flow/graph.go:232-295 | succeeds if and only if a start exists: the named node when it may be entered, or the only node nothing leads to |
| Validation.Validator.Walk | flow/graph.go:300-315 | the worklist visits a node if and only if a path leads to it from the start |
| Validation.Validator.RejectUnreachable | flow/graph.go:297-322 | reports nothing if and only if every node is reachable from the start |
| Validation.Validator.Validate | flow/validate.go:32-74 | accepts a definition if and only if it is well formed, and what it accepts is sound |
| Fold.FirstId | internal/fold/state.go:797-801 | the first buffered signal with an id, or none |
| Fold.FoldAllConcat | internal/fold/state.go:347-361 | folding a history is folding its parts one after another |
| Invariants.NeverStuck | internal/fold/decide.go:356-404 | at rest on a sound flow, a live execution has an open task, await or child |
| Guards.GuardFoldable | internal/fold/state.go:364-400 | no event the decider may emit is ever rejected by the fold |
| Guards.LegalFolds | internal/fold/decide.go:62-65 | no event of a legal history is rejected by the fold |
| Guards.LegalConcat | internal/fold/decide.go:62-65 | a legal decision on the state a legal history folds to extends that history |
| Joins.VerdictStable | internal/fold/decide.go:876-920 | a verdict stands whatever the branches still pending do |
| Joins.VerdictFinal | internal/fold/decide.go:880-920 | a join with no pending branch is decided, as OK exactly when enough branches succeeded |
| Joins.DecidedIff | internal/fold/decide.go:876-920 | all, any and quorum joins are decided as OK or not if and only if every way the pending branches may end gives that verdict |
| Joins.MinDecidedIff | internal/fold/decide.go:879-911 | a min join is decided if and only if no branch is pending |
| Joins.OrderIndependent | internal/fold/decide.go:880-966 | in whatever order branches settle, the join closes on the way and its verdict is that of the final outcomes |
| Deciders.Decider.constructor | internal/fold/decide.go:79-80 | a decider starts with no events on the given state |
| Deciders.Decider.Emit | internal/fold/decide.go:273-290 | an emitted event is folded at once: the events stay legal, fold to the current state and have one cause, nothing from outside being recorded after the first but what belongs to it |
| Deciders.Decider.CancelChildren | internal/fold/decide.go:440-450 | exactly the open children that are neither abandoned by policy nor inherited |
| Deciders.Decider.OwnedChildren | internal/fold/decide.go:452-464 | exactly the children of a fan-out or map that are not abandoned by policy |
| Deciders.Decider.Fail | internal/fold/decide.go:466-470 | with cause, finishes the execution as failed with the given reason; nothing stays in flight and its own cancellable children are named |
| Deciders.Decider.Cancel | internal/fold/decide.go:472-474 | finishes the execution as cancelled, naming its own cancellable children |
| Deciders.Decider.Schedule | internal/fold/decide.go:478-501 | schedules an attempt with its timeout timer; the new control part is that of the two events |
| Deciders.Decider.StartChild | internal/fold/decide.go:1124-1171 | starts the child with the input its node defines, or fails the execution |
| Deciders.Decider.Complete | internal/fold/decide.go:406-438 | where the last event leads to completion, finishes: completed with exactly the flow's output if there is one, otherwise failed for an expression |
| Deciders.Decider.Advance | internal/fold/decide.go:391-404 | with nothing in flight, goes on exactly where the last event leads: the first event enters that node unless the limit of entries is reached, or the execution completes; it ends at rest or finished |
| Deciders.Decider.Enter | internal/fold/decide.go:357-389 | the first event enters the node unless the limit of entries is reached; ends at rest or finished, reaches no unknown node, and terminates by the node entries left |
| Deciders.Decider.Choose | internal/fold/decide.go:793-826 | the first event is the choice of the first rule that applies or else the last default, or of a rule that fails the execution; ends at rest or finished |
| Deciders.Decider.StartAwait | internal/fold/decide.go:971-988 | opens the await with its own timer; with no buffered signal of its name that is all it does, otherwise it goes on |
| Deciders.Decider.Consume | internal/fold/decide.go:990-1004 | with a buffered signal of the name the first event consumes the oldest of them; otherwise nothing changes |
| Deciders.Decider.StartFanout | internal/fold/decide.go:847-874 | the first event starts the fan-out; then every branch is open, each counted as one entry, and the join undecided, or the execution failed for cause |
| Deciders.Decider.StartMap | internal/fold/decide.go:1051-1078 | the first event starts the map over exactly the list its expression gives; without a list the execution fails for an expression |
| Deciders.Decider.MapProgress | internal/fold/decide.go:1080-1115 | a map whose items are all done completes with the first event and leads on; any other rests with as many items running as the limit allows, or the execution failed for cause |
| Deciders.Decider.AbortMap | internal/fold/decide.go:681-700 | an event closes the map with the given item as the failed one, naming exactly its cancellable children, and the execution goes on at on_failure |
| Deciders.Decider.Tally | internal/fold/decide.go:885-898 | lists, in order, exactly the awaited branches that succeeded and exactly those that failed or were dropped, and counts the pending ones |
| Deciders.Decider.EvalJoin | internal/fold/decide.go:876-920 | without a verdict nothing changes; with one an event settles the join with it and with exactly the branches that succeeded |
| Deciders.Decider.CloseJoin | internal/fold/decide.go:922-966 | an event settles the join as told, and the execution goes on at next or on_failure, or fails for the join |
| Deciders.Decider.EndFan | internal/fold/decide.go:922-958 | whatever is left of the fan-out is cancelled, and the last event settles its join as told; nothing is in flight then |
| Deciders.Decider.CheckWrites | internal/fold/decide.go:178-193 | accepts writes if and only if every channel is declared and every value reduces |
| Deciders.Decider.OverBudget | internal/fold/decide.go:591-601 | reports over if and only if some counter plus the usage exceeds its budget |
| Deciders.Decider.CompleteTask | internal/fold/decide.go:527-587 | a stale completion changes nothing; a current one is recorded as done if and only if it is acceptable, otherwise as a failed attempt, and the execution ends at rest or finished |
| Deciders.Decider.FailTask | internal/fold/decide.go:620-632 | a stale failure changes nothing; a current one is recorded with its reason and usage |
| Deciders.Decider.TaskFailed | internal/fold/decide.go:634-679 | records the failure, to be retried exactly while it is retryable and attempts and budget last; a retry waits for its timer, anything else reaches the owner |
| Deciders.Decider.Interrupt | internal/fold/decide.go:702-723 | a stale interrupt changes nothing; a current one parks the attempt, or fails an execution over budget |
| Deciders.Decider.Resume | internal/fold/decide.go:725-751 | runs an interrupted instance that matches again under a new generation; without one nothing happens |
| Deciders.Decider.Timer | internal/fold/decide.go:753-788 | a timer not pending changes nothing; one pending fires first, and the second event is exactly what is due: the next attempt of a retry, the failure of a timed out attempt, the end of the await; if it serves none of these, nothing follows |
| Deciders.Decider.AwaitTimeout | internal/fold/decide.go:1028-1046 | closes the await its timer belongs to, and fails for the timeout or goes on at on_timeout; the timer of no open await changes nothing |
| Deciders.Decider.ReceiveSignal | internal/fold/decide.go:1006-1026 | a signal seen before changes nothing; a new one is buffered, and delivered if an await of its name is open |
| Deciders.Decider.ChildFinished | internal/fold/decide.go:1186-1250 | a report of no open child changes nothing; otherwise the child settles once and its owner goes on |
| Deciders.Decider.Update | internal/fold/decide.go:195-210 | refused exactly when it has no writes or they do not fit; an update seen before changes nothing |
| Deciders.Decider.Start | internal/fold/decide.go:297-331 | joins an existing execution of the same flow, conflicts with one of another, refuses an input that is no object, otherwise starts |
| Deciders.Decider.Decide | internal/fold/decide.go:76-124 | which error is returned, exactly when there are no events, which event is recorded first and, for a timer, second, that no later event records anything from outside, and that a decision with events is legal and ends at rest or finished |
| Deciders.Decider.Fork | internal/fold/decide.go:135-176 | refused exactly when an edit does not fit or the source has finished; the first event is the fork; a live fork keeps the source's data with the edit, re-schedules every task that is not interrupted at attempt 1 under a generation the source never used, leaves interrupted ones as they are, gives every await a new timer and every child a new id, and carries no source timer |
| Deciders.Decider.Rekick | internal/fold/decide.go:1255-1300 | everything in flight in a forked state starts again, or a child that cannot start fails the fork |
| Deciders.Decider.Continue | internal/fold/decide.go:212-244 | a continuation changes nothing but the book: the segment is added and the base moves |
| Deciders.Decider.Abort | internal/fold/decide.go:246-271 | the execution is finished, the events are the creating one if needed and the failure, and fold to its state; they are legal if and only if the aborted decision is not a fork of a live source with children to cancel |
| Forks.AbortNamesSource | internal/fold/decide.go:246-271 | an aborted fork of an execution with a running child asks to cancel that child of the source |
| Runs.DeadForever | internal/fold/decide.go:512-525 | a scheduled attempt is live or dead ever after, and once dead it stays dead |
| Runs.ScheduledOnce | internal/fold/decide.go:292 | no (key, generation, attempt) is scheduled twice in a run |
| Runs.SettledOnce | internal/fold/decide.go:512-559 | no attempt settles twice, nor is scheduled after it settled |
| Runs.InterruptedOnce | internal/fold/decide.go:702-751 | once a generation of an instance was interrupted, no attempt of that generation is scheduled, completes, fails or is interrupted any more |
| Runs.Idempotent | internal/fold/decide.go:512-559 | a complete, fail, interrupt, timer or child-done command that took effect is ignored at every later point of the run |
| Runs.SuppressedForever | internal/dispatch/dispatch.go:425-434 | an attempt that is not running at some point after it was scheduled is never running later |
| Runs.AlwaysNumbered | internal/fold/decide.go:292 | generations, timers and children in use were allocated, and child ids are distinct, at every point of a run |
| Runs.JoinVerdictStands | internal/fold/decide.go:880-966 | a join settles as OK exactly when enough branches succeed, however its pending branches might have ended |
| Runs.RunIsLegal | internal/fold/decide.go:62-65 | the events of any run of decisions fold to its last state, and are one legal history if and only if it is not an aborted fork that names children of its source |
| Runs.MisabortedIllegal | internal/fold/decide.go:246-271 | the failure of an aborted fork of a live source with children is not one the fold's rules allow |
| Runs.NothingAfter | internal/fold/state.go:466-478 | nothing is decided in a finished execution |
| Ledgers.CountersConserved | internal/fold/state.go:593-598 | every counter is what it started as plus all usage reported by ended attempts and children, across forks |
| Ledgers.SignalsConserved | internal/fold/state.go:797-816 | for every name, signals buffered and received are, in order, those taken followed by those still buffered, if and only if no signal is ever consumed while an earlier one under its id is still buffered |
| Ledgers.FreshIdsSuffice | internal/fold/state.go:797-853 | an id that is not used again while its signal is buffered is enough for that |
| Ledgers.TakesOldestIff | internal/fold/state.go:797-806 | a consuming event takes the oldest signal of the await's name if and only if no earlier buffered signal has the same id |
| Reuse.ReuseTakesWrong | internal/fold/state.go:797-853 | in a legal history of a sound flow, an id used again once the bounded memory forgot it gives an await the payload of a signal of another name |
| Children.ChildrenConserved | internal/fold/state.go:712-775 | every child open or started is, exactly once, still open, reported, named in a cancel list or abandoned |
| Children.BegunOnce | internal/fold/decide.go:1128-1171 | no child id is given twice |
| Children.ChildFate | internal/fold/decide.go:440-474 | a child started has exactly one fate: open, reported once, named in one cancel list, or abandoned by policy when its owner or parent closed |
| MapRuns.RunTracks | internal/fold/state.go:523-564 | an open map holds the outputs of exactly the items that completed, none of which is open |
| MapRuns.CompletesOnce | internal/fold/state.go:531-565 | an item completes at most once per run of its map, across retries, interrupts, resumes and forks |
| MapRuns.MapResult | internal/fold/state.go:643-657 | when a map completes, every item has completed and its result lists their outputs in item order |
| MapRuns.OpenItems | internal/fold/decide.go:1080-1115 | between two decisions of a run, the open instances of a map are exactly its started and unfinished items, and no more than may run at once |
| Trails.BoundaryUnstuck | internal/fold/decide.go:829-842 | between two decisions on a sound flow a live execution has exactly one unowned task, fan-out, map, await or unowned child open, everything owned belongs to that, something is in flight, every wait has its timer and no budget is exceeded; a finished one has nothing in flight; and of both, channels have their types and node entries never exceed max_steps by more than one fan-out and one |
| Trails.Redelivered | internal/fold/decide.go:512-559 | a complete, fail, interrupt, timer or child-done command that was stored is ignored in every later state of the execution |
| Trails.LineAccounts | internal/fold/state.go:593-598 | the events of an execution and of those it descends from by forks account for its counters, its signals, and the items and results of its maps |
| Fleets.Decide | internal/fold/decide.go:76-244 | for a command, a fork or a continuation: which error, exactly when there are no events, which event is first, what a timer leads to, that the events are a legal decision, and what a fork leaves: of a live source its data with the edit and all its work started again, unless a child cannot be started; a finished source as it was |
| Fleets.Abort | internal/engine/engine.go:417-455 | an oversized decision is replaced by the event that creates the execution if needed and its failure, for being too large and naming the children in flight, or by nothing if it has finished |
| Fleets.Fleet.Handle | internal/engine/engine.go:459-484 | a request that is declined or has nothing to do changes nothing; any other adds exactly one decision, which answers it, to the execution it is for; a fork carries over what its source had, or is cut short as too large; all executions stay in order |
| Fleets.Serve | internal/fold/decide.go:62-124 | for every definition validation accepts and every sequence of commands, forks and continuations, each handled as promised: no execution is ever stuck, and node entries stay bounded also of those that end; no command that took effect has any effect again; unless it is an aborted fork that names the source's children (if and only if), every decision has one cause and every event of an execution keeps within its node's attempts, follows the edges, fails only for cause, cancels only own children and follows no terminal event, no attempt is scheduled or settled twice or settles after an interrupt, and every child has one fate; and its events, after those of its source up to where it was forked, account for counters, signals and maps |
| LogProtocol.AppendKeeps | internal/eventlog/eventlog.go:102-136 | a decision the log takes under the expected sequence was decided on all of the log |
| LogProtocol.NextInv | internal/engine/engine.go:337-396 | every step of every engine (load, decide, replace, append, conflict, lost answer, failure, continue, evict, crash) keeps the log and all caches in order, for every machine that decides nothing once finished |
| LogProtocol.NothingKeeps | internal/engine/engine.go:417-455 | when a replaced decision turns out empty, the state cached for it is still the fold of a prefix of the log, of a finished execution if its sequence is older |
| LogProtocol.StoredIsDecided | internal/engine/engine.go:337-396 | in any interleaving every stored decision is one its command produces on the fold of the log before it, and every idle cache entry is the fold of a prefix |
| Systems.MachineryIsSane | internal/engine/engine.go:417-497 | the decider, with aborts of oversized decisions, is such a machine |
| Systems.LogIsTrail | internal/engine/engine.go:337-396 | a log that is in order is a run of the fold machine, every decision answering its request |
| Systems.LogReadable | internal/engine/engine.go:337-396 | a log that is in order can be read back by the loader |
| Systems.Cluster.Take | internal/engine/engine.go:337-497 | whatever turn an engine takes with the decider is a step of the log protocol, so all logs and caches stay in order, what is forked is the state after some stored decision of the source, and the lines of executions go back through their forks |
| Systems.Serve | internal/engine/engine.go:337-497 | for every definition validation accepts and every interleaving of engines, each turn being a step of the protocol: every stored decision is what its request produces on the fold of the log before it, no execution is ever stuck, commands that took effect have none again, events are in order exactly as for a single engine, every log can be read back, and the events of an execution, after those of its source up to where it was forked, account for counters, signals and maps |
| WrittenLogs.LegalIsHistory | internal/fold/state.go:364-388 | a legal history of one execution is one the loader can read back: it starts or forks first and only then, and every event carries its position |
| Histories.FoldFromBase | internal/loader/loader.go:86-94 | folding from the last base gives the state of the whole history |
| Histories.StateCounts | internal/fold/state.go:385-389 | the state after k events has counted k |
| Histories.BaseIs | internal/fold/state.go:412-420 | the base and the segments of a state are those of its last continuation |
| Loading.Store.Read | internal/eventlog/eventlog.go:138-154 | returns exactly the stored events between two sequences |
| Loading.Store.SnapshotFor | internal/loader/loader.go:165-178 | a snapshot is used only when it is not later than what is asked for |
| Loading.Store.Continues | internal/loader/loader.go:122-134 | events said to continue a snapshot are exactly the history after it |
| Loading.Store.LastBase | internal/loader/loader.go:136-147 | the position of the last base |
| Loading.Store.WithSegments | internal/loader/loader.go:320-358 | the archived segments and the live events from the last continuation are the full history |
| Loading.Store.LoadFromHistory | internal/loader/loader.go:149-163 | the state at a sequence older than the live log is the fold of the full history up to it |
| Loading.Store.FoldUpTo | internal/loader/loader.go:360-388 | folds exactly the events up to the sequence |
| Loading.Store.Load | internal/loader/loader.go:50-120 | the state loaded at any sequence is the fold of the full history up to it, whatever snapshot exists and however much was purged |
| Loading.Store.History | internal/loader/loader.go:302-318 | returns exactly the full history |
| Loading.Store.Append | internal/eventlog/eventlog.go:102-136 | storing a decision keeps the store readable |
| Loading.Store.SaveSnapshot | internal/engine/engine.go:568-577 | saving the state after any decision keeps the store readable |
| Loading.Store.PutArchive | internal/engine/engine.go:695-723 | writing a segment under a new name keeps what is archived |
| Loading.Store.AppendContinuation | internal/engine/engine.go:632-647 | a continuation whose segment is archived keeps the full history readable |
| Loading.Store.PurgeBefore | internal/eventlog/eventlog.go:368-377 | purging up to the last base keeps the store readable and removes only older events |
| Loading.Store.ContinueAsNew | internal/engine/engine.go:585-670 | stopping after any of its steps, with or without the snapshot saved, leaves the full history readable; it changes nothing of the state but its book, and purges only what is stored up to the given sequence |
| Dispatching.Dispatcher.StateBefore | internal/dispatch/dispatch.go:274-320 | the state a decision is applied to is the fold of exactly the events before it, or for a continuation gives the same state after it |
| Dispatching.Dispatcher.ApplyDecision | internal/dispatch/dispatch.go:185-232 | each effect runs with the state right after its event; a failure anywhere drops the cached state, success leaves the state after the decision |
| Dispatching.Dispatcher.EndedAtHead | internal/dispatch/dispatch.go:394-420 | an attempt is called over only because a state that has folded its scheduling does not show it running |
| Dispatching.SuppressionLosesNothing | internal/dispatch/dispatch.go:346-358 | an attempt not started because a later state does not show it running is running at no later point of the log |
| Deliveries.LoadedStays | internal/dispatch/dispatch.go:274-284 | what a dispatcher keeps stays the state after some decision, whatever else is stored |
| Deliveries.Delivery.Pending | internal/dispatch/dispatch.go:84-106 | the next decision to deliver is the first one not acknowledged, whole, and it is in the live log |
| Deliveries.Delivery.Continue | internal/engine/engine.go:585-693 | a continuation whose purge goes up to what was acknowledged keeps every decision that is not in the live log, and what all dispatchers keep |
| Deliveries.Delivery.Deliver | internal/dispatch/dispatch.go:108-232 | delivering the next decision to any dispatcher, failing or not, keeps all that is recorded of applications true |
| Deliveries.Delivery.Skip | internal/dispatch/quarantine.go:156-184 | a quarantined decision is acknowledged whole without being applied, and is recorded as skipped |
| Deliveries.Run | internal/dispatch/dispatch.go:84-320 | in any order of writes, snapshots, continuations, purges, deliveries to several dispatchers, failures, crashes, look-ups, acknowledgements and skips of quarantined decisions, each doing what it is said to: every decision is applied, in order, to the fold of exactly the events before it; every acknowledged one was applied with all its effects or skipped; every other one is still in the live log; and an attempt is left out only if a later state does not show it running, and then, in a history engines write, it is not running from there on |
| Quarantines.NextInv | internal/dispatch/quarantine.go:299-355 | every step of appends, skips, failures, acknowledgements, purges and replays keeps what replays have covered: all of it ran, or was purged before it could |
| Quarantines.SkippedRanIff | internal/dispatch/quarantine.go:295-355 | when a replay has finished, a decision from its mark on that any dispatcher had acknowledged or found to be skipped before the mark was removed, the one that failed included, has had its effects run if and only if no purge removed it before they ran, unless a dispatcher still holding it ran them since |
| Quarantines.LostIff | internal/engine/engine.go:661-670 | a decision is lost if and only if some purge removed it before its effects ran and no dispatcher still holding it ran them since |
| Quarantines.HeededRan | internal/dispatch/quarantine.go:295-355 | in every run in which no purge passes the mark while it is set, nor the position of a replay that has not ended, and marks are set only for decisions in the log, every decision that was due has run when the replay has finished |
| Quarantines.PurgeLoses | internal/dispatch/quarantine.go:156-184 | a run in which a continuation purges a skipped decision: the replay finishes and its effects never ran |
| Quarantines.MarkIsNotEnough | internal/dispatch/quarantine.go:325-355 | a run in which no purge passes a mark, and one between the removal of the mark and the catching up takes a skipped decision |
| Quarantines.NothingSkippedAfter | internal/dispatch/quarantine.go:70-90 | once the mark is removed nothing more is skipped without a new quarantine |

## Left out

- The state is a value: the fold is a function of it, so what Go's in-place updates of maps and slices could alias is not modelled.
- Search attributes, parents, traces, worker kinds, names, messages and creation times are not part of the state: nothing decided depends on them.
- The status shown while an execution is live (running or waiting) is derived from what is open and not modelled.
- Flow versions and hashes: one definition is given for an execution.
- Event indexes of 0 (logs older than indexes) are not part of histories the loader reads.
- NATS, blobs, claim checks, provisioning, clients, CLI, UI, metrics and logging.
- JSON encoding, the expression language, JSON Schema, YAML and hashing; child ids are pairs, so a collision of hashed long ids is not modelled.
- `Archive`, `LoadArchived` and `Delete`, and executions whose id is reused.
- Overlapping continuations of one execution by two engines: a segment object is named by its first index alone.
- Worker semaphores, readiness, cron, triggers, schedules, the index projection and the stop notices of the dispatcher.
- Compiling expressions and schemas, rule names, worker kinds, meta, expiry and the rule that a backoff needs two attempts are not part of validation here; a policy that is not set is `all`.
- Deciders.Decider.Abort: its reason is always that the decision is too large, as its one caller passes; an aborted fork of a live source with children to cancel names children of the source, so child conservation is stated for all executions but those.
- Children.ChildrenConserved: counts the children of one execution; those of the source of a fork are the source's.
- Memory.RememberId: the sort of the ids is replaced by taking the oldest one repeatedly.
- LogProtocol.StoredIsDecided: decisions without events are not stored and nothing is claimed of them; reads of the log return at least what was stored when they began.
- Quarantines.SkippedRanIff: nothing is said of decisions before the mark the replay read; reading the mark is one step that succeeds; the closing effects that still run for a skipped terminal event are not modelled.
- Flows.Backoff: nothing is said of the lower bound beyond being positive, since an overflowing shift can wrap to a small positive value.
- Fleets.Serve: executions of one definition; the accounting says nothing of forks of finished executions, which copy the state and end there.
- Systems.Serve: an execution forked from itself is declined also when another engine created it meanwhile (the code decides it and then fails to append).
- Deliveries.Run: one execution; marks and replays are the matter of `quarantine.dfy`, so any decision may be skipped; the ack floor is read when a continuation begins.
- Loading.Store.Load: its reads happen at once; a purge between them is not modelled.
- The replacement of an oversized decision whose state cannot be loaded is a failed step of the engine.
