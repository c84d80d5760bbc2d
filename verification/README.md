# Verified model of the ymh agent harness

ymh is an event-sourced coding-agent harness. This project models its protocols over the
append-only session log, and the algorithms that bound text, in Dafny, and proves what
their documentation and tests promise, or exactly when they meet it. `dafny verify
dfyconfig.toml` checks everything.

Every protocol folds and extends the same kind of log (`SessionLog.dfy`); every text
algorithm rests on one theory of well-formed UTF-8 (`Utf8.dfy`, section 4 of RFC 3629).
Objects whose methods update fields are classes, loops are loops, and each method is proved
against a function or a relation whose own properties are proved beside it. What the code
does not decide (the provider, the tools, permissions, cancellation, other threads, the
clock) is a parameter about which nothing is assumed but that cancellation is never taken
back.

An operation that changes state is proved against a function of the old state, and beside it
against laws that never mention that function: what permission, plan mode and the tool make of
a call (`ToolScheduler.MayRun`, `ToolScheduler.IsDue`), what the projection shows after a goal
operation (`GoalService.Allowed`, `GoalService.HasEffect`), what the fields of the ledger and
of the plan-mode controller are afterwards, and what each oracle of a step leads to
(`StepTable`).

| files | subject |
|---|---|
| `ToolScheduler`, `SchedulerRun` | the tool scheduler: parallel up to a bound, committing in call order, exclusive tools alone behind a barrier, and cancellation |
| `TurnBudget`, `TurnGrammar`, `TurnWorld`, `TurnOutcome`, `AgentInbox`, `StepLog`, `StepTable`, `AgentLoop` | the step loop with its budgets, the inbox and the activation loop, proved to log nothing but words of a grammar of turns, and exactly what the oracles and the inbox dictate |
| `Settlement`, `SettlementLedger`, `SettlementRuns`, `SettlementFlags` | subagent settlements: live notices against the replay after a crash, and against the flag an epoch was opened with |
| `GoalProjection`, `GoalService`, `GoalRuns`, `GoalLaws`, `UngatedRounds`, `LateRound` | the goal fold with its sticky failure, the service and the round driver, with and without admission of rounds |
| `PlanModeController`, `PlanModeCache`, `PlanModeSelections` | plan mode under interleaved readers and committers: the memo, and the way of a selection to the log |
| `Glob`, `PathGlob` | the wildcard matcher with one backtrack point, and its lifting to path segments |
| `Utf8`, `Sanitizer`, `Output`, `PtyRing` | the UTF-8 sanitiser and the bounded output rings |
| `Retention`, `TextRetainer`, `CodePoints`, `Pruner` | head and tail retention, pruning of tool results |
| `Base64Url`, `Base64RoundTrip`, `Decimal`, `Cursor` | event cursors |
| `TextLines`, `SummarySections`, `SummaryNormalForm`, `HandoffView` | hand-off summaries and the view they are asked about |

## Reading the turn engine

`TurnGrammar.NextTurn` reads a log event by event and is the specification of the agent
loop. It admits a step only within the ceiling and only where the tool steps logged so far
permit it (`TurnBudget.MayContinue`, stated on the history: never after three consecutive
steps without novelty, never after a segment without success, never beyond the segment
cap), pruned copies only in pairs with their markers and only before an answer, two settled
attempts in a step, tools only after one that completed, the compactions its origin allows,
one nudge, which owes another step, one terminal event a turn, and a recoverable stop only
for one of its reasons.

`AgentLoop.Valid`, which every public method keeps, ties the log to the inbox: the user
messages that are not nudges are those of the items used, in order; every item used has its
own place in the log; the turns started are those the items ask for; the settle generation
counts the terminal events but those that follow a schedule. `TurnWorld.World` holds what the
loop does not decide, and each method says what it logs as a function of it.
`TurnOutcome.TurnComesTo` says from it which steps of a turn go on and what ends the last one,
and every turn the agent runs comes to that. `StepLog.StepLogged` says what each step logs: its
start and the queued selections, exactly the items that lead the inbox and fold, and then the
work of the step, so that nothing that folds leads the inbox when a request is built
(`StepLog.NothingWaitsAtUse`). `AgentLoop.RoundTaken` does the same for one round of the
activation loop on a snapshot of the agent, for any inbox and any arrivals, and every call from
outside sets off a chain of such rounds (`AgentLoop.Activated`). The loop reaches the scheduler
and the pruner through their contracts, so a step of the grammar holds exactly the calls and results
of one schedule, and pruning is `Pruner.PruneSession` itself.

## Where the obvious claim is false

- A star in the *text* defeats the matcher, because a literal match is tried before the
  wildcard (`src/execution/glob.cpp:17`): pattern `*a` misses text `*ba`. It agrees with the
  wildcard meaning on all patterns exactly when the text holds no star
  (`Glob.LoopAgreesExactlyOnStarFreeTexts`), and so for paths
  (`PathGlob.PathsAgreeExactlyOnStarFreeTexts`).
- The retained head need not be a prefix: a narrow byte is still taken after a wide one did
  not fit (`src/core/retention.cpp:89-92`), and when head and tail then meet, the "whole"
  text is wrong (`TextRetainers.MisfitCorruptsWholeText`). It is a prefix exactly when no
  byte after the first misfit fits (`Retention.HeadIsPrefixExactlyWhenNothingFitsLater`). That
  text need not even be well-formed when the stream is: it is exactly when the half character
  that ends the head and the one that follows fit together, or there is none
  (`TextRetainers.RetainedIsWellFormedExactly`, `TextRetainers.IllFormedWholeTextIsReached`).
  A text with something reported as omitted always is.
- One pruning pass suffices exactly when head, marker and tail fit the threshold, or nothing
  was oversized (`Pruner.OnePassSuffices`).
- A read of the terminal ring is well-formed exactly when the ring does not start inside a
  character, which an eviction may have cut in half (`PtyRing.ReadIsWellFormedExactly`,
  `PtyRing.HalfCharacterIsRead`).
- A cursor resolves to its session exactly when the id holds no colon and the sequence is
  not negative (`Cursor.CursorRoundTrip`).
- Inside the window of a commit the plan-mode memo may answer a value that is neither logged
  nor about to be (`PlanModeCache.WindowMayServeStaleMemo`). A true memo goes stale exactly
  by a reader storing an outdated fold there, or by the append over a memo filled there
  (`PlanModeCache.MemoGoesStaleExactly`); `set` is never misled.
- A replay reports a fan-in twice exactly when its notice is queued, or its fan-in is logged
  and the job is still to queue it: `settle_epoch` does not hold its lock from the append to
  the notice (`SettlementRuns.ReplayIsSafeExactly`, `SettlementRuns.UnsafeReplayDoubles`).
- The ordinal in a live notice is the one a later scan gives its fan-in exactly as long as no
  fan-in of the child is logged between naming the job and recording the epoch, and none
  stands between claim and append at that moment: `open_epoch` holds no lock from its count to
  its record, `settle_epoch` none from its claim to its append
  (`SettlementRuns.OpeningIsSafeExactlyOutsideWindows`). All windows are reached
  (`SettlementRuns.WindowsAreReached`).
- Nothing in the repository calls `GoalRoundDriver::admit_round`: `run_turn_end` hands a round
  to the agent's inbox (`src/goal/round_driver.cpp:140`), and the loop logs it unasked
  (`src/agent/agent_loop.cpp:1163-1174`). The goal projection then survives exactly when every
  round is logged while its goal, revision and round count are as they were when it was queued
  (`UngatedRounds.RunsSurviveExactly`); any accepted operation in between fails it for good
  (`UngatedRounds.OperationBeforeMessageFails`, and `LateRound.EditedRoundFails` for a run
  that does). `GoalRuns` shows what admission would ensure.
- The settle generation misses exactly the cancellations noticed after a schedule
  (`src/agent/agent_loop.cpp:1544-1548`;
  `AgentLoops.AgentLoop.SettleGenerationMissesLateCancels`), and there are such
  (`AgentLoops.LateCancelIsReached`).
- A steering message to an idle agent is logged and starts no turn
  (`AgentLoops.AgentLoop.Enqueue`).
- A failed agent recovers on the next accepted message (`AgentLoops.AgentLoop.Enqueue`), but
  one that failed while its inbox was full never does, whatever arrives: every message is
  refused, and a compaction request only logs another failed turn
  (`AgentLoops.AgentLoop.Serve`). One refused compaction request is enough to get there
  (`AgentLoops.WedgeIsReached`).
- Bounding a view while asked to keep no turn reads past the list of turns exactly when no
  cut fits (`HandoffView.BoundView`).

## Model

| member | source | states |
|---|---|---|
| SchedulerRun.ExecuteToolCalls | src/agent/agent_loop.cpp:1592-1709 | For any calls, bound, exclusivity, permissions, tools and monotone cancellation: the tool of a call starts only if permission was granted and the call is no `exit_plan_mode` outside plan mode or without a plan, and each such call among the first `committed` starts exactly once; exactly one result per call is logged and returned, in call order: for the first `committed` the Error or Denied result of a call that may not run, else what its own tool answered, with an empty id or name filled in, and for the rest Cancelled, none of them unless the token was found cancelled and all of them if it was cancelled from the start; calls are announced in order, each with what the gate said unless it was rejected unasked, at most one of them without a commit, and no real result is logged before its own call is; exactly the reminders of committed calls are logged; never more than max(1, limit) tools run at once, and between two successive calls in parallel a tool is awaited only with that many in flight; a tool runs alone, nothing in flight when it starts and nothing started before it ends, exactly when it is exclusive; none is left running; every tool starts right after the token denied being cancelled; an exit from plan mode is requested exactly when a committed `exit_plan_mode` succeeded |
| SchedulerRun.ScheduleCall | src/agent/agent_loop.cpp:1635-1677 | One round of the loop starts, runs or commits its call, an exclusive one alone and only when nothing is in flight, one in parallel without awaiting any tool unless the bound is reached, or stops because the token was found cancelled, in which case the call is at most announced |
| SchedulerRun.DrainAll | src/agent/agent_loop.cpp:1628-1633 | Commits every call in flight, oldest first, and leaves none |
| SchedulerRun.JoinOldest | src/agent/agent_loop.cpp:1652-1659 | Commits exactly the oldest call in flight |
| SchedulerRun.RunOrCommit | src/agent/agent_loop.cpp:1641-1666 | With nothing in flight: a runnable tool runs alone right after a denied cancellation, a decided call is committed unrun |
| SchedulerRun.FillCancelled | src/agent/agent_loop.cpp:1691-1706 | Every call without a result gets exactly one made-up Cancelled result, in call order |
| SchedulerRun.JoinProgress | src/agent/agent_loop.cpp:1652-1659 | The oldest call in flight is the next one to commit, so joining it keeps the log in call order |
| SchedulerRun.CommitAlone | src/agent/agent_loop.cpp:1039-1048 | A decided or exclusive call commits next because nothing before it is outstanding |
| SchedulerRun.StartsArePermitted | src/agent/agent_loop.cpp:1645-1684 | Whatever tools a schedule started, each was permitted, and started once |
| SchedulerRun.OutcomesAreDue | src/agent/agent_loop.cpp:831-974 | The results of a schedule are those its calls are due by permission, plan mode and their tools alone |
| SchedulerRun.NotYetLaunched | src/agent/agent_loop.cpp:1635-1677 | No tool of a call that is exclusive, decided or still to come was started in parallel |
| ToolScheduler.Prepare | src/agent/agent_loop.cpp:831-974 | A call is announced first; its tool is run exactly when permission is granted and it is no `exit_plan_mode` outside plan mode or without a plan; the latter is rejected with an Error and permission is not even asked, any other denied call gets the Denied result, and what the gate said is logged |
| TurnBudget.CountToolStep | src/agent/agent_loop.cpp:1549-1588 | The counters the loop keeps (segment step, segments, streak, success flag, seen signatures) let the turn go on exactly when the whole history permits it: fewer than three consecutive steps without novelty, no segment without success, segments left |
| TurnBudget.StreakOneMore | src/agent/agent_loop.cpp:1557-1558 | The streak counter reaches three exactly when the last three tool steps made no progress |
| TurnBudget.SegmentOneMore | src/agent/agent_loop.cpp:1567-1588 | The segment counters are the quotient and the remainder of the number of tool steps by the segment length, and the flag says whether the segment under way succeeded |
| TurnBudget.ProgressOfLast | src/agent/agent_loop.cpp:1550-1557 | The two sets decide novelty: an action or a successful result never seen before in the turn |
| TurnGrammar.AcceptedTurnsAreBounded | src/agent/agent_loop.cpp:1195-1590 | In an accepted log, counted independently of the grammar: at most max(1, max_turn_steps) steps a turn, two settled attempts a step, as many compactions as the origin of the turn allows (one for a maintenance turn, the cap otherwise), one nudge a turn, one terminal event a turn, and exactly one once the turn is closed |
| TurnGrammar.EveryTurnIsBounded | src/agent/agent_loop.cpp:1195-1590 | The same at every moment of the log, so for every turn ever run |
| TurnGrammar.BrokenForGood | src/agent/agent_loop.cpp:1195-1590 | Every prefix of an accepted log is accepted |
| TurnGrammar.SettledMissesLateCancels | src/agent/agent_loop.cpp:1544-1548 | In an accepted log the terminal events number those counted as settled plus the cancellations right behind the end of a step |
| TurnGrammar.PruningIsRead | src/agent/tool_result_pruner.cpp:82-124 | The shadow markers and pruned copies that a pruning pass appends leave the step as it was |
| TurnGrammar.ScheduleIsRead | src/agent/agent_loop.cpp:1592-1709 | What a schedule logs adds exactly its calls and its results to the step under way |
| AgentInbox.PostedOneMore | src/agent/agent_loop.cpp:805-829 | Each message item gets a place of its own in the log, in the order the items are used |
| AgentInbox.AdmittedOneMore | src/agent/agent_loop.cpp:321-336 | Item by item, a batch joins as far as there is room, and a compaction request is refused exactly when it finds none |
| AgentInbox.RefusalFills | src/agent/agent_loop.cpp:403-409 | A compaction request is refused only by an inbox that is then full |
| AgentInbox.DrainStops | src/agent/agent_loop.cpp:805-821 | Draining takes everything exactly when everything folds, and nothing when the first item starts a turn |
| AgentInbox.SteeringAlone | src/agent/agent_loop.cpp:267-278 | A steering message alone wakes the loop, folds, and is logged as one user message |
| AgentInbox.TriggersStartTurns | src/agent/agent_loop.cpp:288-317 | What does not fold starts one turn, of the origin its kind stands for |
| AgentInbox.DrainTakesFolded | src/agent/agent_loop.cpp:805-829 | Draining takes exactly the longest beginning of the inbox that folds, and logs it in order |
| AgentInbox.NothingLeads | src/agent/agent_loop.cpp:805-829 | Once a step has drained the inbox, its first item, if any, does not fold |
| AgentLoops.AgentLoop.constructor | src/agent/agent_loop.cpp:209-228 | An agent starts at rest on whatever log it is given |
| AgentLoops.AgentLoop.Accept | src/agent/agent_loop.cpp:321-336 | An item is accepted exactly when the inbox is below its limit; only an accepted item resets a failed agent |
| AgentLoops.AgentLoop.ReceiveBatch | src/agent/agent_loop.cpp:321-336 | Of a batch exactly the beginning that finds room joins the inbox, in order, resetting a failed agent; a compaction request that finds none leaves a failure to record |
| AgentLoops.AgentLoop.Receive | src/agent/agent_loop.cpp:321-336 | The same for the next batch that other threads send while the agent runs |
| AgentLoops.AgentLoop.Take | src/agent/agent_loop.cpp:1145-1178 | The first item leaves the inbox and is logged once, a message as one and a context as such, without disturbing a turn under way |
| AgentLoops.AgentLoop.DrainFolded | src/agent/agent_loop.cpp:805-829 | Exactly the leading steering messages and contexts that start no turn move from the inbox to the log, in order |
| AgentLoops.AgentLoop.HasTurnTrigger | src/agent/agent_loop.cpp:267-283 | True exactly when a compaction failure is pending or some item is a prompt, a steering message, a compaction request or a context that starts a turn |
| AgentLoops.AgentLoop.Conclude | src/agent/agent_loop.cpp:512-515 | A terminal event that `noteTerminal` hears of raises the settle generation by one |
| AgentLoops.AgentLoop.CancelAfterTools | src/agent/agent_loop.cpp:1544-1548 | The cancellation after a schedule closes the turn and leaves the settle generation alone |
| AgentLoops.AgentLoop.Fail | src/agent/agent_loop.cpp:632-641 | A failure is logged; only a recoverable one leaves the agent idle |
| AgentLoops.AgentLoop.PruneLog | src/agent/tool_result_pruner.cpp:82-124 | One pass over the session: every oversized result of the surface gets its marker and its pruned copy, and the step stays unanswered |
| AgentLoops.AgentLoop.AssembleMessages | src/agent/agent_loop.cpp:1195-1202 | Logs exactly one pruning pass and then the changed contexts |
| AgentLoops.AgentLoop.BuildRequest | src/agent/agent_loop.cpp:725-800 | Logs exactly another pruning pass and, when the request changed, its header |
| AgentLoops.AgentLoop.CommitSelections | src/agent/agent_loop.cpp:1250-1255 | Logs the queued plan-mode selection and then the queued model selection, and nothing else |
| AgentLoops.AgentLoop.CommitCompaction | src/agent/agent_loop.cpp:643-652 | A compaction that succeeded is logged, with its usage, and counted; nothing else is |
| AgentLoops.AgentLoop.RunCompaction | src/agent/agent_loop.cpp:654-680 | The same within a turn, counted against its cap |
| AgentLoops.AgentLoop.BeginStep | src/agent/agent_loop.cpp:1248-1255 | A step starts only within the ceiling and where the history permits it; the queued selections are logged right behind its start |
| AgentLoops.AgentLoop.FoldArrivals | src/agent/agent_loop.cpp:805-829 | When a turn or a step looks at its inbox, one batch joins as far as there is room, and exactly the longest beginning that folds moves to the log; nothing else leaves the inbox |
| AgentLoops.AgentLoop.OpenStep | src/agent/agent_loop.cpp:1248-1258 | A step logs its start, the queued selections, and then exactly the items that lead the inbox and fold, those that arrived meanwhile included; what is left waits in order |
| AgentLoops.AgentLoop.AssembleRequest | src/agent/agent_loop.cpp:1265-1289 | Instructions, pruning and contexts are logged in this order; a request that is too long is compacted once and assembled again while the turn may compact; the turn fails exactly when an assembly does |
| AgentLoops.AgentLoop.PrepareRequest | src/agent/agent_loop.cpp:1260-1304 | A request is built exactly when there is an assembler and a provider and no assembly fails; otherwise the turn ends in the failure that belongs to what is missing |
| AgentLoops.AgentLoop.TryProvider | src/agent/agent_loop.cpp:1306-1405 | Without a slot the attempt counts as cancelled; one that was not dispatched logs nothing and fails as a provider error; a failed flush ends the turn; any other settles in exactly one event, and only a completed one lets tools run |
| AgentLoops.AgentLoop.PrepareRetry | src/agent/agent_loop.cpp:1419-1428 | Between two attempts exactly a compaction, an assembly and a header are logged, or the turn fails |
| AgentLoops.AgentLoop.Converse | src/agent/agent_loop.cpp:1306-1434 | At most two attempts, the second exactly after an overflow with a compaction to spare; the reply of the last one counts, and the log holds exactly what the attempts and what comes between them log; the turn fails exactly when a flush or an assembly does, with the code that belongs to it |
| AgentLoops.AgentLoop.CallTools | src/agent/agent_loop.cpp:1527-1544 | The step logs exactly one schedule of its calls, and all of them unless the token is cancelled |
| AgentLoops.AgentLoop.Answer | src/agent/agent_loop.cpp:1467-1519 | The turn goes on exactly after a first non-action, with one nudge; a second one stops it recoverably, and any other answer ends it |
| AgentLoops.AgentLoop.Act | src/agent/agent_loop.cpp:1527-1588 | The turn goes on after its tools exactly when the token denies being cancelled and the whole history, this step included, permits it; the log holds the schedule, the usage, the end of the step and, when the turn does not go on, its cancellation or its recoverable stop, and nothing else |
| AgentLoops.AgentLoop.ActOn | src/agent/agent_loop.cpp:1527-1588 | The turn goes on only if the token is not cancelled from the start and the history with this step permits it; it ends cancelled only if the token ever is, and stopped only if the history asks for it |
| AgentLoops.AgentLoop.Respond | src/agent/agent_loop.cpp:1446-1588 | A cancelled stream ends the turn cancelled, a failed one with the code of its error, an answer and tool calls lead where `Answer` and `ActOn` say; what is logged is exactly the ending, the answer, or the schedule with the end of the step; what the turn carries on is the nudge and the history with this step |
| AgentLoops.AgentLoop.WorkOn | src/agent/agent_loop.cpp:1260-1589 | Behind what it folded a step logs the preparation of its request, then its attempts, then what the response leads to, each as its oracles dictate, and goes on or ends the turn as they dictate |
| TurnOutcome.TurnIsDetermined | src/agent/agent_loop.cpp:1239-1589 | With a token that is never cancelled the replies of the provider decide how many steps a turn takes and which event ends it |
| TurnOutcome.LateTurn | src/agent/agent_loop.cpp:1544-1548 | A turn whose token is cancelled before its first tools start takes one step and ends behind it |
| AgentLoops.AgentLoop.RunStep | src/agent/agent_loop.cpp:1238-1589 | One round takes one step: behind its start and the queued selections the log holds exactly the items that led the inbox and fold, one batch of arrivals included, then the preparation, the attempts and the events of the response; the first item left waiting does not fold; the step goes on or ends the turn as the assemblies, the provider, the answer and the tools of that step dictate, carrying on exactly what they make of compactions, nudge and history |
| AgentLoops.AgentLoop.RunSteps | src/agent/agent_loop.cpp:1195-1590 | The step loop ends after at least one step and at most max(1, max_turn_steps); every step logs what it folded and did as its oracles dictate, each looking once at the inbox; every step but the last goes on as its oracles dictate, and the ending is what those of the last step dictate, or the stop at the ceiling; the agent is idle or failed as that event says |
| StepLog.FoldedBeforeUse | src/agent/agent_loop.cpp:1247-1289 | Whatever uses the context of a step (a request header, a settled attempt, a tool call) is logged behind the start of the step and all items that folded into it |
| StepLog.NothingWaitsAtUse | src/agent/agent_loop.cpp:1247-1289 | Whenever in a turn a request is built, an attempt settles or a tool is called, the step under way has logged all that led the inbox and folds, and nothing that folds leads what still waits |
| StepLog.StepsGrow | src/agent/agent_loop.cpp:1239-1589 | Each step of a turn adds to the log and takes nothing back |
| StepTable.UnpreparedTable | src/agent/agent_loop.cpp:1260-1304 | A missing assembler or a failing assembly, the second one only if the request was too long and the turn could compact, ends the turn in ContextAssemblyFailed, a missing provider otherwise in ProviderFailed |
| StepTable.AttemptTable | src/agent/agent_loop.cpp:1306-1434 | The first attempt counts (no slot, not dispatched, flush failed, or what it settled) unless it overflowed, the compactor retries and a compaction is left; then the second one does, unless the assembly before it fails |
| StepTable.CompactionTable | src/agent/agent_loop.cpp:643-680 | A step adds one compaction for a request that was too long and one for an overflow, each only if carried out, and never passes the cap of the turn |
| StepTable.FailureTable | src/agent/agent_loop.cpp:1446-1464 | Which event ends the turn for every failure, cancellation and error code of a step |
| StepTable.AnswerTable | src/agent/agent_loop.cpp:1467-1519 | Without calls an answer ends the turn, a first non-action goes on nudged, and a second one stops the turn |
| StepTable.CallsTable | src/agent/agent_loop.cpp:1527-1588 | With calls, a token cancelled from the start ends the turn cancelled behind its step, and one never cancelled leaves it to the budgets |
| StepTable.BudgetTable | src/agent/agent_loop.cpp:1549-1588 | Behind its last tool step a turn stops exactly when its last three tool steps repeated actions and brought no new success, or, at the end of a segment, when no step of the segment succeeded or none is left of the segments allowed |
| StepTable.HistoryTable | src/agent/agent_loop.cpp:1549-1556 | The history that the budgets read gets the signatures of the calls and of the results they were due, and counts the step as a success exactly when one of those is Ok |
| StepTable.ContextsOneByOne | src/agent/agent_loop.cpp:1195-1202 | Each context that changed is one event, in order |
| StepTable.AssemblyTable | src/agent/agent_loop.cpp:1195-1202 | The pruning pass comes before the contexts, and before the header |
| StepTable.NothingIsLost | src/agent/agent_loop.cpp:805-829 | Over the steps of a turn nothing is lost and nothing jumps the queue: what waited and what was admitted is what folded and what still waits, in the same order |
| AgentLoops.AgentLoop.Maintain | src/agent/agent_loop.cpp:1060-1104 | A maintenance turn logs its step, one pruning pass and what its one compaction is, or fails on a missing assembler or a failing assembly, and ends accordingly |
| AgentLoops.AgentLoop.CompactNow | src/agent/agent_loop.cpp:1084-1104 | It logs exactly what its compaction and its ending are |
| AgentLoops.AgentLoop.MaintenanceIsPruned | src/agent/agent_loop.cpp:1060-1083 | The step of a maintenance turn is pruned once, unless the assembler is missing, whatever becomes of it then |
| AgentLoops.AgentLoop.MaintenanceTable | src/agent/agent_loop.cpp:1084-1104 | A compaction turn ends cancelled or failed as its compaction does, and otherwise logs the compaction, if there was something to do, with its usage, and ends |
| AgentLoops.AgentLoop.FlushSelections | src/agent/agent_loop.cpp:186-199 | Behind the ending exactly the selections still queued are logged |
| AgentLoops.AgentLoop.OpenTurn | src/agent/agent_loop.cpp:1145-1193 | A turn logs its opening contexts (only for a message), its trigger and its start with the origin of the trigger, in this order |
| AgentLoops.AgentLoop.OpenCompaction | src/agent/agent_loop.cpp:1154-1157 | A compaction request leaves the inbox without a trace of its own, and a maintenance turn starts |
| AgentLoops.AgentLoop.ServeCompaction | src/agent/agent_loop.cpp:1143-1158 | A compaction request is served by one maintenance turn, which folds nothing; then the queued selections are flushed |
| AgentLoops.AgentLoop.ServeItem | src/agent/agent_loop.cpp:1145-1590 | The first item starts a turn; every step of it folds and logs what `RunSteps` says; the turn comes to what the oracles of its steps dictate, its terminal event is followed only by flushed selections, what waits afterwards is exactly what the looks at the inbox leave, and the agent is failed exactly when that event is a failure that is not recoverable |
| AgentLoops.AgentLoop.RunTurn | src/agent/agent_loop.cpp:1143-1590 | One look at the inbox; the items that lead it and fold are logged and, alone, start no turn; the first one left is served by a whole turn or a compaction turn, which determines the log, what waits and whether the agent is failed |
| AgentLoops.AgentLoop.RejectCompaction | src/agent/agent_loop.cpp:358-364 | A refused compaction request is recorded as exactly a turn that starts and fails at once with InboxFull |
| AgentLoops.AgentLoop.LookForWork | src/agent/agent_loop.cpp:349-357 | The loop goes on exactly when something wakes it; looking never fails an agent |
| AgentLoops.AgentLoop.Round | src/agent/agent_loop.cpp:349-370 | After one look at the inbox: a refused compaction request is recorded first, a failed agent and one that nothing wakes rest unchanged, and otherwise exactly one `RunTurn` follows; with something waking a healthy agent an item is used; an agent that refuses a compaction request with a full inbox ends failed and full |
| AgentLoops.AgentLoop.Activate | src/agent/agent_loop.cpp:341-376 | It is a chain of such rounds that ends with the one in which the loop rests: with nothing waking an idle agent, or with the agent failed and that failure the last ending in the log; a healthy agent with something waking it uses an item, and a doomed one uses none and is wedged |
| AgentLoops.AgentLoop.FirstRoundServes | src/agent/agent_loop.cpp:341-376 | When an item wakes the loop and neither a failure nor a refused request is in its way, the first round runs a turn |
| AgentLoops.AgentLoop.Rest | src/agent/agent_loop.cpp:370-373 | The loop stops running; a failed agent stays failed, any other is idle |
| AgentLoops.AgentLoop.Enqueue | src/agent/agent_loop.cpp:321-339 | Accepted exactly when the inbox is below its limit, else nothing changes; with room a failed agent recovers, and the chain of rounds of `Activate` follows, whatever arrives meanwhile: an accepted waking item gets an item used exactly when the next batch brings no compaction request that is refused, and otherwise the agent is wedged; a steering message to an idle agent is logged and starts no turn |
| AgentLoops.AgentLoop.RequestCompaction | src/agent/agent_loop.cpp:398-446 | Queued exactly when the inbox is below its limit; on a full inbox a maintenance turn that starts and fails is logged and the agent is left wedged; either way the chain of rounds of `Activate` follows |
| AgentLoops.AgentLoop.Serve | src/agent/agent_loop.cpp:289-446 | Any calls are handled one after another, each with the chain of rounds it sets off, whatever arrives: the log stays accepted by the turn grammar, every accepted item is used in order or still queued, each user message in the log is a used item or a nudge, each trigger starts one turn of its origin, a failed agent has logged the failure, and a wedged agent stays wedged and uses nothing |
| AgentLoops.AgentLoop.SettleGenerationMissesLateCancels | src/agent/agent_loop.cpp:512-515 | The settle generation is short of the endings by the late cancellations, and equals them exactly when there is none |
| AgentLoops.AgentLoop.LateTurnIsCounted | src/agent/agent_loop.cpp:1544-1548 | A turn cancelled before its first tools start adds one late cancellation |
| AgentLoops.WedgeIsReached | src/agent/agent_loop.cpp:321-376 | An inbox for one item and one compaction request while it waits: a wedged agent |
| AgentLoops.LateCancelIsReached | src/agent/agent_loop.cpp:1544-1548 | A turn cancelled before its first tool starts ends without being counted as settled |
| Settlement.CorrelationIsInjective | src/agent/subagent_service.cpp:125-127 | Child and ordinal can be read off a correlation id, whatever the child id holds |
| Settlement.CountFanIn | src/agent/subagent_service.cpp:136-147 | Counts the fan-ins of one child |
| Settlement.ScanLog | src/agent/subagent_service.cpp:891-907 | One scan finds the fan-ins that expect a notice with their ordinals, and every settlement notice already logged |
| Settlement.Replay | src/agent/subagent_service.cpp:879-923 | Appends a notice for exactly the expected fan-ins whose correlation id is not in the log yet |
| SettlementLedger.Ledger.StartJob | src/agent/subagent_service.cpp:391-424 | A job is named one more than the fan-ins logged so far, before its own exists |
| SettlementLedger.Ledger.RecordEpoch | src/agent/subagent_service.cpp:426-429 | The epoch is recorded open, in the place of any other |
| SettlementLedger.Ledger.OpenEpoch | src/agent/subagent_service.cpp:383-433 | When nothing comes between, the epoch is recorded open in the place of any other; exactly if a notice is expected it gets a job of its own, named with the next ordinal of the child; nothing is logged or queued |
| SettlementLedger.Ledger.ClaimEpoch | src/agent/subagent_service.cpp:533-545 | A closed epoch stops the call; an open one is closed and claimed with its job; an absent one is settled without a job |
| SettlementLedger.Ledger.LogFanIn | src/agent/subagent_service.cpp:547-552 | A claim logs its fan-in with the flag it was claimed with, once |
| SettlementLedger.Ledger.SettleEpoch | src/agent/subagent_service.cpp:515-564 | When nothing comes between: a child settled before changes nothing; otherwise exactly one fan-in is logged; without a job no notice is queued, and with one the job is settled and its notice queued exactly when nobody settled or reported it and the parent takes it |
| SettlementLedger.Ledger.SettleJob | src/jobs/job_registry.cpp:170-202 | A job settles once, whoever comes first, and only who came first still owes its notice |
| SettlementLedger.Ledger.HandNotice | src/jobs/job_wakeup.cpp:102-151 | Its notice is queued exactly when the job was not reported meanwhile and the parent takes it |
| SettlementLedger.Ledger.KillJob | src/jobs/job_registry.cpp:130-160 | An unsettled job that is killed is settled and reported, so it never queues a notice; a settled one is left alone |
| SettlementLedger.Ledger.ReadJob | src/jobs/job_registry.cpp:114-128 | Reading a settled job counts as its report |
| SettlementLedger.Ledger.ReplayUnreported | src/agent/subagent_service.cpp:879-923 | Replay changes nothing but the log |
| SettlementRuns.StartKeepsInv | src/agent/subagent_service.cpp:391-424 | A new job carries the next ordinal of its child and adds no notice |
| SettlementRuns.RecordKeepsInv | src/agent/subagent_service.cpp:426-429 | An epoch recorded while its job carries the next ordinal, with no claim of the child open, keeps the invariant and adds no notice |
| SettlementRuns.ClaimKeepsInv | src/agent/subagent_service.cpp:533-545 | A claim reserves the next ordinal of its child until its fan-in is logged |
| SettlementRuns.FanInKeepsInv | src/agent/subagent_service.cpp:547-552 | The fan-in gets the ordinal its job was named with |
| SettlementRuns.SettleJobKeepsInv | src/agent/subagent_service.cpp:554-562 | Settling the job logs and queues nothing and leaves nothing more to queue |
| SettlementRuns.HandKeepsInv | src/jobs/job_wakeup.cpp:102-151 | A queued notice reports a fan-in already logged, and no other notice reports it |
| SettlementRuns.ReportedKeepsInv | src/jobs/job_registry.cpp:130-160 | Killing or reading a job logs and queues nothing, then or later |
| SettlementRuns.DeliverKeepsInv | src/jobs/job_wakeup.cpp:129-151 | Delivery moves a notice from the queue to the log |
| SettlementRuns.ReplayAddsNotices | src/agent/subagent_service.cpp:908-922 | After a replay every expected fan-in has its notice |
| SettlementRuns.ReplayIsIdempotent | src/agent/subagent_service.cpp:908-922 | Replaying twice is replaying once, on any log |
| SettlementRuns.RunsKeepInv | src/agent/subagent_service.cpp:383-564 | Every interleaving of the steps of any number of settlements with opening, killing, reading, delivering, dropping, crashes and replays keeps the invariant, as long as no epoch is recorded with a job that no longer carries the next ordinal, or between claim and append of its child, and no replay finds a notice of a logged fan-in on its way |
| SettlementRuns.NoticesFollowTheirFanIns | src/agent/subagent_service.cpp:515-564 | No notice, queued or logged, precedes the fan-in it reports, and none occurs twice |
| SettlementRuns.LiveAgreesWithReplay | src/agent/subagent_service.cpp:383-433 | A live notice carries the ordinal that a later scan gives the fan-in it was queued with |
| SettlementRuns.ReplayIsSafeExactly | src/agent/subagent_service.cpp:879-923 | Notices stay distinct over a replay exactly when no notice of an expected fan-in is queued or still to be queued behind its fan-in |
| SettlementRuns.UnsafeReplayDoubles | src/agent/subagent_service.cpp:554-562 | From every state where that fails, the replay and the steps still owed log some notice twice |
| SettlementRuns.ReplayLeavesExactlyOne | src/agent/subagent_service.cpp:879-923 | After a safe replay every fan-in that expects a notice has exactly one, and none is on its way |
| SettlementRuns.RunsNumberRight | src/agent/subagent_service.cpp:383-433 | Along every such run each fan-in gets the ordinal its job was named with |
| SettlementRuns.RecordingIsSafeExactly | src/agent/subagent_service.cpp:426-429 | After an epoch is recorded every continuation numbers its fan-ins right exactly when its job still carries the next ordinal and no settlement of the child stands between claim and append |
| SettlementRuns.OpeningIsSafeExactlyOutsideWindows | src/agent/subagent_service.cpp:383-433 | `open_epoch` names its job, any run without a crash follows, and it records the epoch: every continuation numbers right exactly when meanwhile no fan-in of the child was logged and none is claimed and still to be logged |
| SettlementRuns.RecordedTooLate | src/agent/subagent_service.cpp:426-429 | An epoch recorded after its number is taken leads to a fan-in under a number that is not its own |
| SettlementRuns.RecordedTooEarly | src/agent/subagent_service.cpp:534-552 | So does one recorded between claim and append of an earlier settlement |
| SettlementRuns.WindowsAreReached | src/agent/subagent_service.cpp:383-562 | All windows are reached: between naming the job and recording the epoch, between claim and append, and, with nothing queued, between append and notice |
| SettlementFlags.UnaskedSettlesSilently | src/agent/subagent_service.cpp:391-428 | On any state: after a child is opened without `notice_expected`, its settlement, whatever it says, logs one fan-in and leaves jobs and queue alone |
| SettlementFlags.AskedSettlesWithNotice | src/agent/subagent_service.cpp:391-564 | On any state: after a child is opened with it, its settlement queues exactly one notice, named with the ordinal of the very fan-in it logs, if the parent takes it, and settles the job either way |
| SettlementFlags.SecondSettlementIsVoid | src/agent/subagent_service.cpp:529-545 | Settling a child again changes nothing |
| SettlementFlags.KilledQueuesNothing | src/jobs/job_registry.cpp:130-202 | A job killed before its settlement gets as far never queues its notice |
| SettlementFlags.NoticesAreAskedFor | src/agent/subagent_service.cpp:391-564 | Over every run whose claims carry the flag their epoch was opened with, crashes and replays included, each notice logged, queued or still to be queued is one that a fan-in of the log expects |
| SettlementFlags.OnlyAskedNoticesAreSeen | src/agent/subagent_service.cpp:391-564 | The same where whole openings carry the flag: an open epoch owns a job exactly when it was opened with it, and no notice is seen that no fan-in expects |
| SettlementFlags.ForgottenFlagIsUnasked | src/agent/subagent_service.cpp:515-564 | One claim that drops its flag is enough: its notice is queued and no fan-in in the log expects it |
| GoalProjection.Project | src/goal/goal_service.cpp:160-170 | The loop over the log computes the fold |
| GoalProjection.FailureSticks | src/goal/goal_service.cpp:72-76 | Nothing logged later heals a failed projection |
| GoalLaws.ProjectsExactlyWhenAllFit | src/goal/goal_service.cpp:72-155 | The projection fails exactly on the logs in which some event does not fit the projection before it: a round other than the next of the current active goal, a creation over an unfinished goal or under a used id, or another change of a goal that is not current |
| GoalService.IsLowerKebab | src/goal/goal_service.cpp:32-53 | Accepts exactly non-empty runs of lower-case letters and digits joined by single hyphens |
| GoalService.TrimIsTight | src/goal/goal_service.cpp:23-30 | Trimming cuts exactly the blank ends; nothing is left exactly of a blank text |
| GoalService.RefusalsAreExplained | src/goal/goal_service.cpp:172-377 | An operation is refused exactly when its own conditions fail, and each refusal is for the reason it names |
| GoalService.GoalSession.Create | src/goal/goal_service.cpp:207-236 | Carried out exactly on a sound projection without an unfinished goal, with an objective that is not blank and a positive cap: the projection then shows that objective and cap, active at revision 1 with no rounds, under one more than every id used, and the session is armed; otherwise nothing changes and the refusal says why |
| GoalService.GoalSession.RequireCurrent | src/goal/goal_service.cpp:172-181 | A request must name the current goal at its current revision |
| GoalService.GoalSession.EditGoal | src/goal/goal_service.cpp:238-266 | Carried out exactly for the current goal at its revision with something to change and neither a blank objective nor a cap of zero: the next revision shows the texts and cap given and keeps everything else, phase, block and rounds included; otherwise nothing changes and the refusal says why |
| GoalService.GoalSession.PauseGoal | src/goal/goal_service.cpp:268-287 | Carried out exactly for the current active goal at its revision: the next revision is paused, without a block, with objective, cap and rounds kept, and the session is disarmed |
| GoalService.GoalSession.ResumeGoal | src/goal/goal_service.cpp:289-315 | Carried out exactly for the current unfinished goal at its revision with rounds left that is not already active and armed: the next revision is active, without a block, with objective, cap and rounds kept, and the session is armed |
| GoalService.GoalSession.CompleteGoal | src/goal/goal_service.cpp:317-336 | Carried out exactly for the current unfinished goal at its revision: the next revision is complete, without a block, with id, objective, cap and rounds kept, and the session is disarmed |
| GoalService.GoalSession.BlockGoal | src/goal/goal_service.cpp:338-364 | Carried out exactly for the current active goal at its revision with a kebab-case code and a message that is not blank: the next revision is blocked for that code and the trimmed message, with objective, cap and rounds kept, and the session is disarmed |
| GoalService.GoalSession.ClearGoal | src/goal/goal_service.cpp:366-377 | Carried out exactly for the current goal at its revision: no goal is current any more, its id counts as used, and the session is disarmed |
| GoalService.GoalSession.Disarm | src/goal/goal_service.cpp:379-389 | Disarming touches no log |
| GoalService.GoalSession.RunTurnEnd | src/goal/round_driver.cpp:113-146 | For an armed session with an active goal: the next round is remembered when rounds are left and the message is accepted, and otherwise the goal is blocked, as round-limit or queue-failed; in any other case nothing changes |
| GoalService.GoalSession.OfferRound | src/goal/round_driver.cpp:148-172 | A round is admitted, and logged, exactly when it is the remembered one and the next round of the armed, active goal at its revision; the remembered one is forgotten either way, and one that no longer fits blocks an active goal as prompt-rejected |
| GoalRuns.ActionKeepsGood | src/goal/goal_service.cpp:207-389 | Every operation, turn end, admitted round, unrelated event and restart keeps the invariant of the log |
| GoalRuns.AppendCreate | src/goal/goal_service.cpp:207-236 | A new goal never reuses an id |
| GoalRuns.AppendMutation | src/goal/goal_service.cpp:238-364 | Edits, pauses, resumes, completions and blocks are accepted by the fold |
| GoalRuns.AppendRound | src/goal/round_driver.cpp:148-172 | An admitted round passes every check of the fold, the cap included |
| GoalRuns.RunsAreGood | src/goal/goal_service.cpp:72-155 | The invariant holds after every run |
| GoalRuns.ProjectionNeverFails | src/goal/goal_service.cpp:72-155 | When every round is logged by its admission, no run of the service and the driver ever logs an event that fails the projection |
| GoalRuns.RoundsAreContiguous | src/goal/goal_service.cpp:128-152 | When every round is logged by its admission, the rounds logged for a goal are 1, 2, .., n, and n is the count of the projection |
| GoalRuns.IdsAndCapsAreStable | src/goal/goal_service.cpp:59-68 | No id is created twice, and a goal at one revision has one round cap |
| GoalRuns.ArmedGoalIsActive | src/goal/goal_service.cpp:183-193 | Armed always means a current, active goal |
| GoalRuns.AdmittedRoundIsWithinCap | src/goal/round_driver.cpp:148-172 | An admitted round is within the cap although admission never compares it |
| GoalRuns.DriverBlocksAreAccepted | src/goal/round_driver.cpp:113-172 | The blocks the driver asks for are never refused |
| GoalLaws.CompletedGoalIsClosed | src/goal/goal_service.cpp:289-364 | After an accepted completion every pause, resume, block and completion is refused, and a valid creation is accepted under another id |
| GoalLaws.ResumeUndoes | src/goal/goal_service.cpp:268-364 | A paused or blocked goal can be resumed exactly while rounds remain, and is then as it was but for two revisions |
| GoalLaws.ClearedGoalIsGone | src/goal/goal_service.cpp:366-377 | After a clear nothing but a creation is possible, under a higher id |
| GoalLaws.RevisionIsUsedOnce | src/goal/goal_service.cpp:238-377 | Of two operations naming the same revision the second one is refused |
| GoalLaws.GoalsAreSound | src/goal/goal_service.cpp:207-389 | In every run the current goal has an objective, a positive cap and revision, and a well-formed reason exactly when it is blocked |
| GoalLaws.CompletionIsFinal | src/goal/goal_service.cpp:289-364 | In every run a completed goal stays complete and gets no further round until another is created or it is cleared |
| UngatedRounds.QueuedRoundSurvivesExactly | src/goal/goal_service.cpp:128-152 | A queued round logged unasked passes the checks of the fold exactly when the goal is current at the same revision with the round next; phase and cap then follow |
| UngatedRounds.RunsSurviveExactly | src/goal/round_driver.cpp:113-146 | Over every run in which the agent loop logs queued rounds unasked, the projection survives exactly when each is logged in time |
| UngatedRounds.OperationBeforeMessageFails | src/goal/goal_service.cpp:128-152 | Any accepted operation on the goal between the turn end and the logged message fails the projection |
| LateRound.EditedRoundFails | src/goal/round_driver.cpp:113-146 | A goal is created, a turn end queues its first round, the goal is edited, and the round is logged: the projection fails |
| UngatedRounds.ActionKeepsGoodHost | src/goal/goal_service.cpp:207-389 | Everything but logging a queued round keeps every queued round within what its revision allows |
| PlanModeController.ProjectPlanMode | src/agent/plan_mode_controller.cpp:10-27 | The fold is the last logged selection, inactive when there is none |
| PlanModeController.LastSelectionDecides | src/agent/plan_mode_controller.cpp:10-27 | Plan mode is on exactly when some event turned it on and no later one selects anything |
| PlanModeController.Controller.Fill | src/agent/plan_mode_controller.cpp:10-27 | A reader fills an invalid memo and never overwrites a valid one |
| PlanModeController.Controller.Decide | src/agent/plan_mode_controller.cpp:29-62 | A selection equal to the logged one cancels exactly an opposite pending one; a different one is queued exactly in an open turn, and outside of one nothing stays pending and it is left to commit; a pending exit is dropped, and nothing is logged yet |
| PlanModeController.Controller.RequestExit | src/agent/plan_mode_controller.cpp:64-68 | An exit replaces a pending selection |
| PlanModeController.Controller.TakePending | src/agent/plan_mode_controller.cpp:70-95 | A pending selection goes first, else a pending exit, and is taken once |
| PlanModeController.Controller.CommitLocked | src/agent/plan_mode_controller.cpp:143-153 | A commit alone leaves the memo equal to the logged selection |
| PlanModeController.Controller.Active | src/agent/plan_mode_controller.cpp:10-27 | Run alone it answers what the log says, and logs nothing |
| PlanModeController.Controller.Set | src/agent/plan_mode_controller.cpp:29-62 | Run alone, whatever was queued before, its target is what is selected afterwards; it is logged exactly outside an open turn and when it differs from the logged selection, and queued exactly inside one |
| PlanModeController.Controller.CommitPending | src/agent/plan_mode_controller.cpp:70-124 | Run alone, a step start or turn end logs what is selected, unless nothing is queued, and leaves nothing queued |
| PlanModeCache.NextKeepsInv | src/agent/plan_mode_controller.cpp:10-153 | Every atomic scope of every thread keeps the invariant |
| PlanModeCache.RunsKeepInv | src/agent/plan_mode_controller.cpp:10-153 | The invariant holds over every interleaving of any number of readers and committers |
| PlanModeCache.MemoIsCoherent | src/agent/plan_mode_controller.cpp:138-153 | Outside a commit window a valid memo equals the fold of the log, and a pending selection never coexists with a pending exit |
| PlanModeCache.SetComparesWithLog | src/agent/plan_mode_controller.cpp:29-62 | `set` always compares against the logged selection |
| PlanModeCache.SetNeverCommitsNoChange | src/agent/plan_mode_controller.cpp:29-62 | What `set` commits differs from the logged selection |
| PlanModeSelections.SetInsideTurnWaits | src/agent/plan_mode_controller.cpp:53-56 | In whatever state, a `set` inside an open turn lets go of the lock and logs nothing, and a target other than the logged selection is then queued |
| PlanModeSelections.SetOfLoggedCancels | src/agent/plan_mode_controller.cpp:45-51 | A `set` of the logged selection cancels the opposite one if that is queued, and nothing else |
| PlanModeSelections.SetOutsideTurnCommits | src/agent/plan_mode_controller.cpp:53-61 | Outside an open turn a `set` of another selection drops what is queued and, if nothing comes between, logs exactly its target |
| PlanModeSelections.SetSelects | src/agent/plan_mode_controller.cpp:29-62 | In every interleaving `set` selects its target, at once or by the commit it begins |
| PlanModeSelections.EveryCommitIsOwed | src/agent/plan_mode_controller.cpp:29-153 | In every interleaving each selection that is logged is the target of its own thread from a `set` outside any turn, or what that thread took from the queue, and each is logged once; so one set inside an open turn reaches the log only by a later step start or turn end |
| PlanModeSelections.QueuedWasSetInside | src/agent/plan_mode_controller.cpp:53-56 | A queued selection was queued by a `set` inside an open turn and not taken since |
| PlanModeSelections.ExitWasRequested | src/agent/plan_mode_controller.cpp:64-68 | A queued exit was requested, and not dropped or taken since |
| PlanModeSelections.CommitsGoOn | src/agent/plan_mode_controller.cpp:138-153 | Only its own thread moves a commit on, and the log grows by its value in exactly one step |
| PlanModeSelections.SelectionWaitsItsTurn | src/agent/plan_mode_controller.cpp:53-95 | A run in which a selection set inside an open turn is not logged until a step start takes it |
| PlanModeCache.MemoGoesStaleExactly | src/agent/plan_mode_controller.cpp:143-153 | Exactly two steps make a true memo stale, both inside a commit window: a reader storing what it folded before the append, and the append over a memo filled with another value |
| PlanModeCache.RecordingRestoresMemo | src/agent/plan_mode_controller.cpp:143-153 | The end of the commit makes the memo true again |
| PlanModeCache.WindowMayServeStaleMemo | src/agent/plan_mode_controller.cpp:143-153 | Inside the window the memo may answer what is neither logged nor about to be |
| Glob.FlatMatch | src/execution/glob.cpp:10-34 | The loop with one backtrack point terminates and decides a declarative meaning in which a star facing a literal star is taken literally |
| Glob.LaterStartsEndLater | src/execution/glob.cpp:23-25 | Retrying only the last star loses nothing: an alternative never reaches further than the current alignment |
| Glob.LoopSound | src/execution/glob.cpp:10-34 | Whatever the loop matches, the wildcard meaning matches |
| Glob.LoopComplete | src/execution/glob.cpp:10-34 | On texts without a star it finds every match |
| Glob.StarInTextDefeatsLoop | src/execution/glob.cpp:17-18 | For every text with a star some matching pattern is missed |
| Glob.LoopAgreesExactlyOnStarFreeTexts | src/execution/glob.cpp:10-34 | The loop agrees with the wildcard meaning on all patterns exactly when the text holds no star |
| PathGlob.SplitSegments | src/execution/glob.cpp:36-51 | Splitting yields the non-empty stretches between slashes |
| PathGlob.SplitUndoesJoin | src/execution/glob.cpp:36-51 | Splitting undoes joining |
| PathGlob.SegmentsAreSegments | src/execution/glob.cpp:36-51 | No segment is empty or holds a slash |
| PathGlob.LeadingAndTrailingSlashes | src/execution/glob.cpp:36-51 | Leading and trailing slashes never change the segments |
| PathGlob.RepeatedSlashes | src/execution/glob.cpp:36-51 | A doubled slash separates like a single one |
| PathGlob.RecursionMeansCoverage | src/execution/glob.cpp:53-75 | The recursion decides whether the text can be cut so that each pattern segment covers its stretch |
| PathGlob.MatchSegments | src/execution/glob.cpp:53-75 | The method decides the same, in any state of the recursion |
| PathGlob.PathSemanticsAgree | src/execution/glob.cpp:53-75 | With star-free text segments the cuts may be judged by the wildcard meaning |
| PathGlob.PathsAgreeExactlyOnStarFreeTexts | src/execution/glob.cpp:10-87 | The matcher agrees with the wildcard meaning on all path patterns exactly when the path holds no star |
| PathGlob.PathGlobMatch | src/execution/glob.cpp:83-87 | A path matches exactly when its segments can be cut as the pattern asks |
| Utf8.ValidUtf8Sequence | src/execution/output.cpp:25-51 | Accepts exactly one character of the grammar of section 4 of RFC 3629 |
| Utf8.LeadFixesLength | src/execution/output.cpp:15-23 | The first byte fixes the length of a character |
| Utf8.TrimToUtf8Start | src/execution/output.cpp:78-85 | Drops exactly the leading tail bytes |
| Utf8.TrimmedSuffixIsWellFormed | src/execution/output.cpp:78-85 | Any cut into well-formed text is well-formed once trimmed, at a cost of at most three bytes |
| Sanitizer.SanitizeUtf8 | src/execution/output.cpp:55-76 | Computes the sanitised text; the flag is raised exactly when something was replaced |
| Sanitizer.SanitizedIsWellFormed | src/execution/output.cpp:55-76 | The result is well-formed for every input |
| Sanitizer.SanitizeIsIdentityExactlyOnWellFormed | src/execution/output.cpp:55-76 | The input is unchanged exactly when it is well-formed |
| Sanitizer.SanitizeIsIdempotent | src/execution/output.cpp:55-76 | Sanitising twice is sanitising once |
| Sanitizer.SanitizeReplacesOneByte | src/execution/output.cpp:55-76 | A byte that starts no character is replaced alone, and scanning resumes right after it |
| Output.OutputRing.Append | src/execution/output.cpp:90-110 | The ring holds the last bytes of everything appended, up to its capacity, and its flag says whether more was appended |
| Output.OutputRing.Tail | src/execution/output.cpp:114-123 | Returns the last bytes without a character cut in half at the front |
| Output.OutputRing.Clear | src/execution/output.cpp:125-129 | Clearing forgets content, total and flag |
| Output.RingOutputSink.Write | src/execution/output.cpp:133-139 | Every chunk is sanitised into the ring; loss is remembered exactly when a chunk was not well-formed |
| Output.RingOutputSink.Materialize | src/execution/output.cpp:157-159 | The result is the last bytes of what the ring received that fit both limits, cut forward to a character start, and well-formed |
| Output.CallOutputSink.Write | src/execution/output.cpp:165-174 | Every chunk reaches the ring of the call and the live ring |
| Output.CallOutputSink.Truncated | src/execution/output.cpp:191-193 | Truncated exactly when the ring overflowed or a chunk was not well-formed |
| Output.CallOutputSink.Materialize | src/execution/output.cpp:195-197 | For any sequence of writes: well-formed, and everything written when nothing was truncated and the limit suffices |
| Output.TrimmedTailIsWellFormed | src/execution/output.cpp:114-123 | The trimmed tail of well-formed text is well-formed |
| Output.SanitizedAllIsWellFormed | src/execution/output.cpp:165-189 | Chunkwise sanitised output is well-formed |
| Output.NothingLostWhenAllWellFormed | src/execution/output.cpp:165-189 | It is the written text exactly when every chunk was well-formed |
| PtyRing.PtyOutputRing.Append | src/execution/pty.cpp:76-85 | What is held is the end of everything appended |
| PtyRing.PtyOutputRing.Read | src/execution/pty.cpp:87-103 | A read takes the longest prefix within the limit that ends no character in half, and is flagged exactly when bytes were evicted since the last read |
| PtyRing.LongestCut | src/execution/pty.cpp:91-95 | The cut is the longest within the limit that splits no character |
| PtyRing.ReadIsWellFormedExactly | src/execution/pty.cpp:87-103 | What a read hands out of sanitised output is well-formed exactly when the ring starts at a character, that is unless an eviction has cut one in half |
| PtyRing.HalfCharacterIsRead | src/execution/pty.cpp:76-103 | Room for one byte and a character of two: the read hands out its second half |
| PtyRing.UnflaggedReadsLoseNothing | src/execution/pty.cpp:87-103 | Reads that were never flagged deliver a gapless prefix of the output |
| PtyRing.UnflaggedReadsAndHeld | src/execution/pty.cpp:76-103 | Together with what is still held they are the whole output |
| PtyRing.FourBytesMakeProgress | src/execution/pty.cpp:91-95 | A limit of four bytes always makes progress on sanitised output |
| PtyRing.ThreeBytesMayStall | src/execution/pty.cpp:91-95 | A limit of three may not |
| PtyRing.PtyCapture.OnMasterRead | src/execution/pty.cpp:545-563 | Every chunk is sanitised before it is held |
| PtyRing.PtyCapture.Read | src/execution/pty.cpp:307-311 | If no read was flagged, the reads and what is held are exactly what the child wrote; a read is well-formed exactly when it starts with no tail byte |
| Retention.HeadFitsBudget | src/core/retention.cpp:84-107 | The head never exceeds its escaped budget |
| Retention.LongestFittingSuffixIsUnique | src/core/retention.cpp:93-105 | The tail is determined by the stream |
| Retention.HeadIsPrefixExactlyWhenNothingFitsLater | src/core/retention.cpp:89-92 | The head is a prefix of the stream exactly when no byte after the first misfit fits |
| Retention.PlainStreamsKeepPrefix | src/core/retention.cpp:89-92 | It is for streams without escapes |
| TextRetainers.TrimTrailingPartial | src/core/retention.cpp:25-50 | Cuts a beginning of well-formed text back to whole characters, at a cost of at most three bytes |
| TextRetainers.CutLeavesWholeCharacters | src/core/retention.cpp:25-50 | Cutting a beginning of well-formed text leaves whole characters, and whole characters are not cut |
| TextRetainers.HeadStartsWellFormed | src/core/retention.cpp:84-107 | The head of well-formed text is a beginning of well-formed text, whatever the budget: only ASCII is left out while there is room |
| TextRetainers.TextRetainer.PushByte | src/core/retention.cpp:88-105 | One byte keeps head and tail what the stream determines |
| TextRetainers.TextRetainer.Push | src/core/retention.cpp:84-107 | Head and tail depend on the stream alone, not on its chunks; the decision says whether more was omitted |
| TextRetainers.TextRetainer.Finish | src/core/retention.cpp:109-136 | Where head and tail meet, nothing counts as omitted and the text is the head and the stream from its length on: the stream itself exactly when the head is a prefix, and of well-formed streams well-formed exactly when the seam fits; else head and tail without the characters cut in half, well-formed for every well-formed stream at a cost of at most three bytes each, with the exact number of bytes left out |
| TextRetainers.TrimmedEndsAreWellFormed | src/core/retention.cpp:124-133 | Cutting both ends of well-formed text back to whole characters leaves well-formed text |
| TextRetainers.WholeTextIsWellFormedExactly | src/core/retention.cpp:114-122 | The text put together where head and tail meet is well-formed exactly when the half character ending the head and the half one that follows make up one character, or there is none |
| TextRetainers.RetainedIsWellFormedExactly | src/core/retention.cpp:109-136 | What is retained of well-formed text is well-formed exactly when something counts as omitted or the seam fits |
| TextRetainers.RetainBehindControl | src/core/retention.cpp:114-122 | Every well-formed text of at most five unescaped bytes that ends in a tail byte, put behind a control byte and retained with a budget of twice its length, comes out ill-formed with nothing reported as omitted |
| TextRetainers.IllFormedWholeTextIsReached | src/core/retention.cpp:114-122 | An instance: budget ten and six well-formed bytes come out as six ill-formed ones |
| TextRetainers.MisfitCorruptsWholeText | src/core/retention.cpp:114-122 | Two bytes of which only the second fits: the retained "whole" text differs from the stream |
| CodePoints.CodePointLength | src/agent/tool_result_pruner.cpp:21-29 | Counts the bytes that start a code point |
| CodePoints.CodePointHead | src/agent/tool_result_pruner.cpp:31-64 | The head holds the first code points, all of them if there are fewer |
| CodePoints.CodePointTail | src/agent/tool_result_pruner.cpp:45-68 | The tail holds the last code points, all of them if there are fewer |
| Pruner.ScanSurface | src/agent/tool_result_pruner.cpp:83-91 | The surface holds the latest result of each call |
| Pruner.PruneText | src/agent/tool_result_pruner.cpp:105-109 | The replacement keeps the first code points of the output, the marker and the last code points, and is well-formed when output and marker are |
| Pruner.PrunedIsWellFormed | src/agent/tool_result_pruner.cpp:105-109 | That follows for every replacement cut at those places |
| Pruner.PruneSession | src/agent/tool_result_pruner.cpp:82-124 | One pass shadows and replaces exactly the oversized results of the surface, one pair of events each, and reports where |
| Pruner.PassTable | src/agent/tool_result_pruner.cpp:92-124 | After a pass the model still sees every loaded skill and every result within the threshold unchanged, and of any other one the pruned copy |
| Pruner.SurfaceIsLatest | src/agent/tool_result_pruner.cpp:83-91 | The surface shows no result that a later one of the same call replaced |
| Pruner.PrunedLength | src/agent/tool_result_pruner.cpp:105-109 | The exact length of a replacement in code points |
| Pruner.OnePassSuffices | src/agent/tool_result_pruner.cpp:82-124 | After a pass nothing is oversized, exactly when nothing was or head, marker and tail fit the threshold |
| Pruner.SecondPassIsSilent | src/agent/tool_result_pruner.cpp:82-124 | A second pass appends nothing, under exactly the same condition |
| Pruner.MarkerIsWellFormed | include/ymh/agent/tool_result_pruner.hpp:25-26 | The shipped marker is well-formed |
| Pruner.DefaultsFit | include/ymh/agent/tool_result_pruner.hpp:20-22 | The shipped configuration meets it |
| Base64Url.Base64UrlEncode | src/host/host_runtime.cpp:48-77 | Writes the unpadded alphabet of section 5 of RFC 4648 |
| Base64Url.Base64UrlDecode | src/host/host_runtime.cpp:79-113 | Accepts exactly canonical texts, with the pad bits of section 3.5 of RFC 4648 zero, despite the wrapping 32-bit buffer |
| Base64Url.BufferHoldsNextByte | src/host/host_runtime.cpp:92-106 | The next byte depends only on the last two symbols, so the wrapped bits never matter |
| Base64Url.TakeSymbol | src/host/host_runtime.cpp:92-103 | One symbol keeps the low bits of the wrapping buffer, the bit count and the output what the symbols read so far determine |
| Base64RoundTrip.DecodeUndoesEncode | src/host/host_runtime.cpp:48-113 | decode(encode(s)) is s |
| Base64RoundTrip.EncodeUndoesDecode | src/host/host_runtime.cpp:48-113 | Every accepted text is the encoding of what it decodes to |
| Decimal.FromCharsReadsNumeral | src/host/host_runtime.cpp:1402-1407 | Reading undoes writing over the whole 64-bit range |
| Cursor.CursorFor | src/host/host_runtime.cpp:1422-1427 | The cursor is the encoding of prefix, id and sequence |
| Cursor.ResolveCursor | src/host/host_runtime.cpp:1381-1420 | Every malformed, foreign or unreadable cursor is refused, anything beyond the head answers the head |
| Cursor.TokenNamesOnlyItsSession | src/host/host_runtime.cpp:1388-1407 | A token speaks for its own session exactly when the id holds no colon and the sequence is not negative, and for no other |
| Cursor.CursorRoundTrip | src/host/host_runtime.cpp:1381-1427 | Resolving a cursor gives min(sequence, head) for its session and nothing for another, under exactly that condition |
| TextLines.LinesOfJoin | src/agent/handoff.cpp:187-188 | How lines split again once joined by newlines |
| TextLines.PopTrailingSpace | src/agent/handoff.cpp:189-193 | Removes exactly the trailing white space |
| SummarySections.FindHeading | src/agent/handoff.cpp:194-200 | Finds the heading a line shows but for trailing white space |
| SummarySections.NormalizeSummarySections | src/agent/handoff.cpp:183-231 | The two loops compute the normal form of the text |
| SummaryNormalForm.OutputHasEachHeadingOnce | src/agent/handoff.cpp:183-231 | The output holds the six headings once each, in order, whatever the text |
| SummaryNormalForm.OutputIsNormal | src/agent/handoff.cpp:183-231 | Every body of the output is in normal form |
| SummaryNormalForm.NormalBodiesArePreserved | src/agent/handoff.cpp:183-231 | Bodies in normal form survive unchanged |
| SummaryNormalForm.NormalizingIsIdempotent | src/agent/handoff.cpp:183-231 | Normalising twice is normalising once |
| SummaryNormalForm.ReadingUndoesRendering | src/agent/handoff.cpp:183-231 | Reading rendered sections gives the bodies back |
| HandoffView.TurnStarts | src/agent/handoff.cpp:264-272 | Lists exactly the positions of user messages, in order |
| HandoffView.BoundView | src/agent/handoff.cpp:274-294 | Answers the whole view if it fits, else the widest cut at a later turn that fits and leaves the turns to keep, else those turns alone; it reads past the list of turns exactly when asked to keep none and no cut fits |
| HandoffView.WidestFitBeatsEveryFit | src/agent/handoff.cpp:280-288 | No cut that fits is wider than the one chosen |

## Left out

- The exception path of the scheduler (`src/agent/agent_loop.cpp:1679-1689`) and appends that throw: the log accepts every event.
- The provider's stream and its live chunks, prompt assembly, what a request header or a model selection says: oracles of the step, logged as bare events; loading the workspace instructions does not fail.
- When an answer counts as blank or repeated (`src/agent/agent_loop.cpp:1113-1141`): an oracle of the step.
- `cancel`, `suspend`, `dispose` and the settle and idle callbacks: cancellation is an oracle; disposal would only clear the inbox.
- Signatures of actions and results are arbitrary functions of the calls and results, so nothing rests on SHA-256 being injective.
- The permission gate's own logging and memory, path targets and tool deadlines: the answer of the permission check is an oracle, logged as one event.
- AgentLoops.AgentLoop.Receive: other threads act where the loop looks at its inbox, in finitely many batches; between two looks their effects are the same.
- AgentLoops.AgentLoop.Take: an item is removed and logged in one step, although the code logs contexts in between; only the loop removes items.
- TurnGrammar.EveryTurnIsBounded: speaks of the events the loop, its scheduler and its pruner log; goal changes and subagent events that tools log are not part of those runs.
- PlanModeCache.RunsKeepInv: the interleavings are on values, one atomic scope a step; commits whose append throws and erasing a live session are not among the steps.
- SettlementRuns.RunsKeepInv: counting the fan-ins and starting the job are one step, for the job depends on nothing but the count, and a replay is one step; an epoch is recorded only outside its windows and a replay runs only when it is safe, because both are shown to go wrong otherwise.
- SettlementFlags.OnlyAskedNoticesAreSeen: an opening is one step there; openings that other steps interrupt are runs of `SettlementFlags.NoticesAreAskedFor`.
- Jobs beyond settling and killing (listing, reading, waiting, owners) and the wake counters of `src/jobs/job_wakeup.cpp`: whether a notice is taken is an oracle.
- Rendered wordings (denials, notices, prompts, block messages) stand for themselves; timestamps and the widths of revision and round numbers are not modelled.
- GoalService.GoalSession.OfferRound: the message of a round is logged in the step that admits it; the repository has no caller of `admit_round`, and `UngatedRounds` states what holds without one.
- GoalService.GoalSession.RunTurnEnd: the follow-up only queues its message before the pending round is recorded; a turn it starts at once is another step of `UngatedRounds`.
- `RingOutputSink::writeErr` and `CallOutputSink::writeErr`: the same bodies as `write`.
- The life cycle of a terminal session, its callbacks and time limits (`src/execution/pty.cpp`): only its ring and its sanitising reader.
- `glob_match` on undivided texts is `Glob.FlatMatch` itself.
- HandoffView.BoundView: a message is its speaker and the length it serializes to.
- The request pool (`src/agent/llm_pool.cpp`) and the choice of compaction boundaries (`src/agent/compactor.cpp`): they would add only easy members.
- Configuration, stores, sockets, file-system walks, presets and their restrictions.
