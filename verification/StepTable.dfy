/** How every way a step can go reads off the oracles, case by case, without the functions
    that compute it; and what a whole turn keeps of the inbox. */
module StepTable {
  import opened Wrappers
  import opened SessionLog
  import opened TurnBudget
  import opened TurnWorld
  import opened TurnOutcome
  import opened AgentInbox
  import opened StepLog
  import Pruner
  import SchedulerRun

  // ---------------------------------------------------------------------------
  // The request
  // ---------------------------------------------------------------------------

  /** The turn may compact, and the request is too long. */
  predicate IsTooLong(rules: Rules, world: World, step: nat, compactions: nat) {
    compactions < rules.compactionCap && world.pressure(step)
  }

  /** There is an assembler and a provider, and no assembly fails. */
  predicate GetsToProvider(rules: Rules, world: World, step: nat, compactions: nat) {
    && !world.contextMissing && !world.runtimeMissing && !world.assembly(step, 0).fails
    && (IsTooLong(rules, world, step, compactions) ==> !world.assembly(step, 1).fails)
  }

  /** The first compaction of the step is carried out. */
  predicate CompactsFirst(rules: Rules, world: World, step: nat, compactions: nat) {
    IsTooLong(rules, world, step, compactions) && world.compaction(step, 0).Compacted?
  }

  /** Which failure comes first. */
  lemma UnpreparedTable(rules: Rules, world: World, step: nat, compactions: nat)
    ensures var reply := StepReply(rules, world, step, compactions);
            && (world.contextMissing ==> reply == Failing(ContextAssemblyFailed))
            && (world.assembly(step, 0).fails ==> reply == Failing(ContextAssemblyFailed))
            && (IsTooLong(rules, world, step, compactions) && world.assembly(step, 1).fails ==>
                  reply == Failing(ContextAssemblyFailed))
            && (world.runtimeMissing && !world.contextMissing && !world.assembly(step, 0).fails
                && !(IsTooLong(rules, world, step, compactions) && world.assembly(step, 1).fails) ==>
                  reply == Failing(ProviderFailed))
  {
  }

  // ---------------------------------------------------------------------------
  // The attempts
  // ---------------------------------------------------------------------------

  /** What one attempt comes to. */
  predicate AttemptIs(world: World, step: nat, attempt: nat, reply: Reply) {
    if !world.slot(step, attempt) then reply == Replying(StreamCancelled)
    else
      match world.attempt(step, attempt)
      case NotDispatched => reply == Replying(StreamFailed(ProviderError))
      case FlushFailed => reply == Failing(Internal)
      case Settled(response) => reply == Replying(response)
  }

  predicate Overflows(world: World, step: nat) {
    world.slot(step, 0) && world.attempt(step, 0) == Settled(StreamFailed(ContextTooLong))
  }

  /** Whether an overflow is met by a second attempt: a compaction is left, after the one that
      may have come first, and the compactor retries. */
  predicate TriesAgain(rules: Rules, world: World, step: nat, compactions: nat) {
    && Overflows(world, step) && world.retriesOnOverflow
    && compactions + (if CompactsFirst(rules, world, step, compactions) then 1 else 0) < rules.compactionCap
  }

  /** The first attempt counts unless it overflowed and there is a second one. */
  lemma AttemptTable(rules: Rules, world: World, step: nat, compactions: nat)
    requires GetsToProvider(rules, world, step, compactions)
    ensures var reply := StepReply(rules, world, step, compactions);
            if !TriesAgain(rules, world, step, compactions) then AttemptIs(world, step, 0, reply)
            else if world.assembly(step, 2).fails then reply == Failing(ContextAssemblyFailed)
            else AttemptIs(world, step, 1, reply)
  {
  }

  /** The compactions a step adds to those of its turn. */
  lemma CompactionTable(rules: Rules, world: World, step: nat, compactions: nat)
    requires GetsToProvider(rules, world, step, compactions)
    ensures SpentInAll(rules, world, step, compactions) ==
            compactions
            + (if CompactsFirst(rules, world, step, compactions) then 1 else 0)
            + (if TriesAgain(rules, world, step, compactions) && world.compaction(step, 1).Compacted? then 1 else 0)
    ensures compactions <= rules.compactionCap ==> SpentInAll(rules, world, step, compactions) <= rules.compactionCap
  {
  }

  // ---------------------------------------------------------------------------
  // What a reply leads to
  // ---------------------------------------------------------------------------

  /** The step ends its turn with exactly this event. */
  ghost predicate EndsWith(rules: Rules, world: World, step: nat, progress: Progress, turn: nat, event: Event) {
    && !GoesOn(rules, world, step, progress)
    && forall log: Log :: EndsAs(rules, world, step, progress, turn, log) <==> log != [] && log[|log| - 1] == event
  }

  lemma FailureTable(rules: Rules, world: World, step: nat, progress: Progress, turn: nat)
    ensures match StepReply(rules, world, step, progress.compactions)
            case Failing(code) => EndsWith(rules, world, step, progress, turn, TurnFailed(turn, code))
            case Replying(StreamCancelled) => EndsWith(rules, world, step, progress, turn, TurnCancelled(turn))
            case Replying(StreamFailed(Interrupted)) =>
              EndsWith(rules, world, step, progress, turn, TurnFailed(turn, Aborted))
            case Replying(StreamFailed(ContextTooLong)) =>
              EndsWith(rules, world, step, progress, turn, TurnFailed(turn, CompactionFailed))
            case Replying(StreamFailed(ProviderError)) =>
              EndsWith(rules, world, step, progress, turn, TurnFailed(turn, ProviderFailed))
            case Replying(StreamFailed(Unspecified)) =>
              EndsWith(rules, world, step, progress, turn, TurnFailed(turn, NoCode))
            case Replying(Completed(_, _)) => true
  {
    hide StepReply;
  }

  /** A completed response without calls: an answer ends the turn, a first non-action is nudged
      once, a second one stops the turn. */
  lemma AnswerTable(rules: Rules, world: World, step: nat, progress: Progress, turn: nat, usage: bool)
    requires StepReply(rules, world, step, progress.compactions) == Replying(Completed([], usage))
    ensures !world.nonAction(step) ==> EndsWith(rules, world, step, progress, turn, TurnEnded(turn))
    ensures world.nonAction(step) && progress.nudged ==>
              EndsWith(rules, world, step, progress, turn, TurnFailed(turn, StepLimitExceeded))
    ensures world.nonAction(step) && !progress.nudged ==>
              && GoesOn(rules, world, step, progress)
              && AfterStep(rules, world, step, progress).nudged
              && AfterStep(rules, world, step, progress).history == progress.history
  {
    hide StepReply, SpentInAll;
  }

  /** A response with calls: a token cancelled from the start ends the turn cancelled; one never
      cancelled leaves it to the budgets, which end the turn recoverably or let it go on. */
  lemma CallsTable(
    rules: Rules, world: World, step: nat, progress: Progress, turn: nat, calls: seq<Call>, usage: bool, log: Log)
    requires StepReply(rules, world, step, progress.compactions) == Replying(Completed(calls, usage)) && calls != []
    ensures world.schedule(step).cancelled(0) ==> !GoesOn(rules, world, step, progress)
    ensures world.schedule(step).cancelled(0) && EndsAs(rules, world, step, progress, turn, log) ==>
              |log| > 1 && log[|log| - 2].StepEnded? && log[|log| - 1] == TurnCancelled(turn)
    ensures (forall k: nat :: !world.schedule(step).cancelled(k)) ==>
              && (GoesOn(rules, world, step, progress) <==>
                    MayContinue(rules, HistoryWith(rules, world, step, calls, progress.history)))
              && (EndsAs(rules, world, step, progress, turn, log) ==>
                    log != [] && log[|log| - 1] == TurnFailed(turn, StepLimitExceeded))
    ensures GoesOn(rules, world, step, progress) ==>
              && AfterStep(rules, world, step, progress).nudged == progress.nudged
              && |AfterStep(rules, world, step, progress).history| == |progress.history| + 1
  {
    hide StepReply, SpentInAll, MayContinue, ToolStepOf;
  }

  // ---------------------------------------------------------------------------
  // The budgets
  // ---------------------------------------------------------------------------

  /** The step tried an action tried before, and brought no result that is a new success. */
  ghost predicate Repeats(history: seq<ToolStep>, i: nat)
    requires i < |history|
  {
    && (exists j :: 0 <= j < i && history[j].action == history[i].action)
    && (history[i].success ==> exists j :: 0 <= j < i && history[j].outcome == history[i].outcome)
  }

  ghost predicate LastThreeRepeat(history: seq<ToolStep>) {
    && |history| >= 3
    && Repeats(history, |history| - 3) && Repeats(history, |history| - 2) && Repeats(history, |history| - 1)
  }

  /** `n` whole segments are behind the turn. */
  predicate SegmentsBehind(rules: Rules, history: seq<ToolStep>, n: nat) {
    |history| == n * rules.SegmentLength()
  }

  lemma WholeSegments(rules: Rules, history: seq<ToolStep>, n: nat)
    requires SegmentsBehind(rules, history, n) && n > 0
    ensures SegmentClosed(rules, history) && |history| / rules.SegmentLength() == n
    ensures rules.SegmentLength() <= |history|
  {
    DivisionOf(|history|, rules.SegmentLength(), n, 0);
    AtLeastOne(n, rules.SegmentLength());
  }

  /** What stops the turn behind its last tool step: three repetitions in a row, and, at the end
      of a segment, that none of its steps succeeded or that no segment is left. */
  lemma BudgetTable(rules: Rules, history: seq<ToolStep>, n: nat)
    requires history != []
    ensures LastThreeRepeat(history) ==> !MayContinue(rules, history)
    ensures SegmentsBehind(rules, history, n) ==>
              && rules.SegmentLength() <= |history|
              && (MayContinue(rules, history) <==>
                    && !LastThreeRepeat(history)
                    && (exists i :: |history| - rules.SegmentLength() <= i < |history| && history[i].success)
                    && (rules.maxSegments != 0 ==> n < rules.maxSegments))
    ensures (forall m: nat :: !SegmentsBehind(rules, history, m)) ==>
              (MayContinue(rules, history) <==> !LastThreeRepeat(history))
  {
    ThreeRepeatWhenStalled(history);
    if SegmentsBehind(rules, history, n) {
      if n == 0 {
        assert false;
      }
      WholeSegments(rules, history, n);
    } else if SegmentClosed(rules, history) {
      assert |history| == |history| / rules.SegmentLength() * rules.SegmentLength();
      assert SegmentsBehind(rules, history, |history| / rules.SegmentLength());
    }
  }

  lemma ThreeRepeatWhenStalled(history: seq<ToolStep>)
    ensures Stalled(history) <==> LastThreeRepeat(history)
  {
    if |history| >= 3 {
      forall i | |history| - 3 <= i < |history| ensures MadeProgress(history, i) <==> !Repeats(history, i) {
      }
    }
  }

  /** What a step that called tools adds to the history: the signatures of its calls and of the
      results they were due, and whether any of them succeeded. */
  lemma HistoryTable(
    rules: Rules, world: World, step: nat, calls: seq<Call>, results: seq<Result>, history: seq<ToolStep>)
    requires SchedulerRun.ResultsAreDue(world.schedule(step), calls, results, |calls|)
    ensures HistoryWith(rules, world, step, calls, history) ==
            history + [ToolStep(rules.actionDigest(calls), rules.resultDigest(results),
                                exists i :: 0 <= i < |results| && results[i].outcome == Ok)]
  {
    var env, outcomes := world.schedule(step), SchedulerRun.Outcomes(world.schedule(step), calls, |calls|);
    SchedulerRun.OutcomesAreDue(env, calls, |calls|);
    forall i | 0 <= i < |calls| ensures results[i] == outcomes[i] {
    }
    assert results == outcomes;
  }

  // ---------------------------------------------------------------------------
  // The log of an assembly
  // ---------------------------------------------------------------------------

  lemma {:induction false} ContextsOneByOne(contexts: seq<Message>)
    ensures |ContextEvents(contexts)| == |contexts|
    ensures forall i :: 0 <= i < |contexts| ==> ContextEvents(contexts)[i] == ContextInjected(contexts[i])
  {
    if contexts != [] {
      ContextsOneByOne(contexts[..|contexts| - 1]);
    }
  }

  /** Pruning comes first, and what is pruned afterwards are not the new contexts. */
  lemma AssemblyTable(world: World, step: nat, occasion: nat, before: Log, after: Log)
    ensures IsAssembly(world, step, occasion, before, after) <==>
            exists pruned ::
              && Pruner.PassedOnce(world.pruning, before, pruned)
              && after == pruned + ContextEvents(world.assembly(step, occasion).contexts)
    ensures IsRequest(world, step, occasion, before, after) <==>
            exists pruned ::
              && Pruner.PassedOnce(world.pruning, before, pruned)
              && after == pruned + if world.header(step, occasion) then [RequestHeader] else []
  {
  }

  // ---------------------------------------------------------------------------
  // The inbox over a turn
  // ---------------------------------------------------------------------------

  /** What the first `n` steps folded, in order. */
  function AllFolded(queue: Queue, maxInbox: nat, n: nat): seq<InboxItem> {
    if n == 0 then [] else AllFolded(queue, maxInbox, n - 1) + FoldedIn(queue, maxInbox, n - 1)
  }

  /** What the first `n` looks at the inbox admitted, in order. */
  function AllAdmitted(queue: Queue, maxInbox: nat, n: nat): seq<InboxItem> {
    if n == 0 then []
    else
      var earlier := QueueAfter(queue, maxInbox, n - 1);
      AllAdmitted(queue, maxInbox, n - 1) + Admitted(earlier.inbox, NextBatch(earlier.arrivals), maxInbox)
  }

  /** Over the steps of a turn nothing is lost and nothing jumps the queue: what waited and what
      was admitted is what folded and what waits, in the same order. */
  lemma {:induction false} NothingIsLost(queue: Queue, maxInbox: nat, n: nat)
    ensures queue.inbox + AllAdmitted(queue, maxInbox, n) ==
            AllFolded(queue, maxInbox, n) + QueueAfter(queue, maxInbox, n).inbox
  {
    hide LeadingFolds, Admitted, AllFold, Looked, Folded, Unfolded, FoldedIn;
    if n == 0 {
      assert queue.inbox + [] == [] + queue.inbox;
    } else {
      NothingIsLost(queue, maxInbox, n - 1);
      hide QueueAfter;
      var earlier := QueueAfter(queue, maxInbox, n - 1);
      var seen := Looked(earlier, maxInbox).inbox;
      LookSplits(queue, maxInbox, n - 1, seen);
      Regroup(queue.inbox, AllAdmitted(queue, maxInbox, n - 1),
              Admitted(earlier.inbox, NextBatch(earlier.arrivals), maxInbox),
              AllFolded(queue, maxInbox, n - 1), earlier.inbox, Folded(seen), Unfolded(seen));
    }
  }

  lemma LookSplits(queue: Queue, maxInbox: nat, n: nat, seen: seq<InboxItem>)
    requires seen == Looked(QueueAfter(queue, maxInbox, n), maxInbox).inbox
    ensures var earlier := QueueAfter(queue, maxInbox, n);
            seen == earlier.inbox + Admitted(earlier.inbox, NextBatch(earlier.arrivals), maxInbox)
    ensures FoldedIn(queue, maxInbox, n) == Folded(seen) && QueueAfter(queue, maxInbox, n + 1).inbox == Unfolded(seen)
    ensures Folded(seen) + Unfolded(seen) == seen
  {
    hide LeadingFolds, AllFold, Admitted;
  }

  lemma Regroup<T>(inbox: seq<T>, earlier: seq<T>, admitted: seq<T>, folded: seq<T>, waiting: seq<T>, more: seq<T>,
    rest: seq<T>)
    requires inbox + earlier == folded + waiting && more + rest == waiting + admitted
    ensures inbox + (earlier + admitted) == (folded + more) + rest
  {
    assert inbox + (earlier + admitted) == (inbox + earlier) + admitted;
    assert folded + (waiting + admitted) == (folded + waiting) + admitted;
    assert folded + (more + rest) == (folded + more) + rest;
  }
}
