/** What a turn comes to: which steps go on, and how the last one ends it, read off the
    oracles alone. */
module TurnOutcome {
  import opened SessionLog
  import opened TurnBudget
  import opened TurnWorld
  import SchedulerRun

  // ---------------------------------------------------------------------------
  // One step
  // ---------------------------------------------------------------------------

  /** What a turn carries from step to step. */
  datatype Progress = Progress(compactions: nat, nudged: bool, history: seq<ToolStep>)

  const NOTHING_YET := Progress(0, false, [])

  /** The history with a step that called tools, all of whose calls were carried out. */
  ghost function HistoryWith(rules: Rules, world: World, step: nat, calls: seq<Call>, history: seq<ToolStep>):
    seq<ToolStep>
  {
    history + [ToolStepOf(rules, calls, SchedulerRun.Outcomes(world.schedule(step), calls, |calls|))]
  }

  /** A step that calls tools may go on unless the token is cancelled from the start. */
  ghost predicate CallsGoOn(rules: Rules, world: World, step: nat, calls: seq<Call>, history: seq<ToolStep>) {
    !world.schedule(step).cancelled(0) && MayContinue(rules, HistoryWith(rules, world, step, calls, history))
  }

  /** A cancellation right behind the end of a step. */
  predicate EndsLate(log: Log) {
    |log| > 1 && log[|log| - 2].StepEnded? && log[|log| - 1].TurnCancelled?
  }

  /** It ends the turn cancelled if the token ever is, or stopped if the history asks for it. */
  ghost predicate CallsEndAs(
    rules: Rules, world: World, step: nat, calls: seq<Call>, history: seq<ToolStep>, turn: nat, log: Log)
  {
    || (EndsLate(log) && log[|log| - 1] == TurnCancelled(turn) && exists k: nat :: world.schedule(step).cancelled(k))
    || (log != [] && log[|log| - 1] == TurnFailed(turn, StepLimitExceeded)
        && !world.schedule(step).cancelled(0) && !MayContinue(rules, HistoryWith(rules, world, step, calls, history)))
  }

  /** A step without calls goes on after a first non-action. */
  predicate AnswerGoesOn(world: World, step: nat, nudged: bool) {
    world.nonAction(step) && !nudged
  }

  function AnswerEnd(world: World, step: nat, turn: nat): Event {
    if world.nonAction(step) then TurnFailed(turn, StepLimitExceeded) else TurnEnded(turn)
  }

  ghost predicate ResponseGoesOn(rules: Rules, world: World, step: nat, response: Response, progress: Progress) {
    && response.Completed?
    && if response.calls == [] then AnswerGoesOn(world, step, progress.nudged)
       else CallsGoOn(rules, world, step, response.calls, progress.history)
  }

  ghost predicate ResponseEndsAs(
    rules: Rules, world: World, step: nat, response: Response, progress: Progress, turn: nat, log: Log)
  {
    && log != []
    && match response
       case StreamCancelled => log[|log| - 1] == TurnCancelled(turn)
       case StreamFailed(error) => log[|log| - 1] == TurnFailed(turn, FailureFor(error))
       case Completed(calls, _) =>
         if calls == [] then
           !AnswerGoesOn(world, step, progress.nudged) && log[|log| - 1] == AnswerEnd(world, step, turn)
         else CallsEndAs(rules, world, step, calls, progress.history, turn, log)
  }

  ghost predicate GoesOn(rules: Rules, world: World, step: nat, progress: Progress) {
    var reply := StepReply(rules, world, step, progress.compactions);
    reply.Replying? && ResponseGoesOn(rules, world, step, reply.response, progress)
  }

  ghost predicate EndsAs(rules: Rules, world: World, step: nat, progress: Progress, turn: nat, log: Log) {
    match StepReply(rules, world, step, progress.compactions)
    case Failing(code) => log != [] && log[|log| - 1] == TurnFailed(turn, code)
    case Replying(response) => ResponseEndsAs(rules, world, step, response, progress, turn, log)
  }

  ghost function WithResponse(
    rules: Rules, world: World, step: nat, response: Response, progress: Progress, compactions: nat): Progress
  {
    if !response.Completed? then progress.(compactions := compactions)
    else if response.calls == [] then Progress(compactions, true, progress.history)
    else Progress(compactions, progress.nudged, HistoryWith(rules, world, step, response.calls, progress.history))
  }

  /** What is carried on from a step that goes on. */
  ghost function AfterStep(rules: Rules, world: World, step: nat, progress: Progress): Progress {
    match StepReply(rules, world, step, progress.compactions)
    case Failing(_) => progress
    case Replying(response) =>
      WithResponse(rules, world, step, response, progress, SpentInAll(rules, world, step, progress.compactions))
  }

  // ---------------------------------------------------------------------------
  // A turn
  // ---------------------------------------------------------------------------

  /** What `n` steps from step `first` on have carried so far. */
  ghost function ProgressAfter(rules: Rules, world: World, first: nat, n: nat): Progress {
    if n == 0 then NOTHING_YET
    else AfterStep(rules, world, first + n - 1, ProgressAfter(rules, world, first, n - 1))
  }

  ghost predicate AllGoOn(rules: Rules, world: World, first: nat, n: nat) {
    forall i :: 0 <= i < n ==> GoesOn(rules, world, first + i, ProgressAfter(rules, world, first, i))
  }

  /** The turn of `count` steps from step `first` on: all but the last go on, and the last
      ends it, or goes on too at the ceiling. */
  ghost predicate TurnComesTo(rules: Rules, world: World, turn: nat, first: nat, count: nat, log: Log) {
    && 0 < count <= rules.TurnCeiling() && AllGoOn(rules, world, first, count - 1)
    && var last := ProgressAfter(rules, world, first, count - 1);
       || EndsAs(rules, world, first + count - 1, last, turn, log)
       || (count == rules.TurnCeiling() && GoesOn(rules, world, first + count - 1, last)
           && log != [] && log[|log| - 1] == TurnFailed(turn, StepLimitExceeded))
  }

  lemma {:induction false} OneMoreGoesOn(rules: Rules, world: World, first: nat, n: nat)
    requires AllGoOn(rules, world, first, n)
    requires GoesOn(rules, world, first + n, ProgressAfter(rules, world, first, n))
    ensures AllGoOn(rules, world, first, n + 1)
    ensures ProgressAfter(rules, world, first, n + 1) ==
            AfterStep(rules, world, first + n, ProgressAfter(rules, world, first, n))
  {
    hide GoesOn, AfterStep;
  }

  lemma StepEndsTurn(rules: Rules, world: World, turn: nat, first: nat, n: nat, log: Log)
    requires n < rules.TurnCeiling() && AllGoOn(rules, world, first, n)
    requires EndsAs(rules, world, first + n, ProgressAfter(rules, world, first, n), turn, log)
    ensures TurnComesTo(rules, world, turn, first, n + 1, log)
  {
    hide AllGoOn, EndsAs, GoesOn, ProgressAfter;
  }

  lemma CeilingEndsTurn(rules: Rules, world: World, turn: nat, first: nat, log: Log)
    requires AllGoOn(rules, world, first, rules.TurnCeiling())
    requires log != [] && log[|log| - 1] == TurnFailed(turn, StepLimitExceeded)
    ensures TurnComesTo(rules, world, turn, first, rules.TurnCeiling(), log)
  {
    LastOfAll(rules, world, first, rules.TurnCeiling());
    hide AllGoOn, EndsAs, GoesOn, ProgressAfter;
  }

  lemma GoesOnAt(rules: Rules, world: World, first: nat, n: nat, i: nat)
    requires AllGoOn(rules, world, first, n) && i < n
    ensures GoesOn(rules, world, first + i, ProgressAfter(rules, world, first, i))
  {
  }

  lemma LastOfAll(rules: Rules, world: World, first: nat, n: nat)
    requires n > 0 && AllGoOn(rules, world, first, n)
    ensures AllGoOn(rules, world, first, n - 1)
    ensures GoesOn(rules, world, first + n - 1, ProgressAfter(rules, world, first, n - 1))
  {
    GoesOnAt(rules, world, first, n, n - 1);
    hide GoesOn, ProgressAfter;
  }

  /** A turn whose token is cancelled before its first tools start ends behind that step. */
  lemma LateTurn(rules: Rules, world: World, turn: nat, first: nat, count: nat, log: Log)
    requires TurnComesTo(rules, world, turn, first, count, log) && IsCancelledLate(rules, world, first, 0)
    ensures count == 1 && EndsLate(log)
  {
    hide MayContinue, HistoryWith, AllGoOn, GoesOn;
    if count > 1 {
      GoesOnAt(rules, world, first, count - 1, 0);
    }
    assert ProgressAfter(rules, world, first, 0) == NOTHING_YET;
    LateStepEnds(rules, world, first);
  }

  lemma LateStepEnds(rules: Rules, world: World, step: nat)
    ensures IsCancelledLate(rules, world, step, 0) ==> !GoesOn(rules, world, step, NOTHING_YET)
  {
    hide MayContinue, HistoryWith, StepReply;
  }

  /** With a token that is never cancelled the oracles decide how many steps a turn takes and
      how it ends. */
  lemma {:induction false} TurnIsDetermined(
    rules: Rules, world: World, turn: nat, first: nat, m: nat, before: Log, n: nat, after: Log)
    requires forall step: nat, k: nat :: !world.schedule(step).cancelled(k)
    requires TurnComesTo(rules, world, turn, first, m, before) && TurnComesTo(rules, world, turn, first, n, after)
    ensures m == n && before[|before| - 1] == after[|after| - 1]
  {
    hide AllGoOn, GoesOn, EndsAs, ProgressAfter;
    if m < n {
      GoesOnAt(rules, world, first, n - 1, m - 1);
    } else if n < m {
      GoesOnAt(rules, world, first, m - 1, n - 1);
    }
    EndedDoesNotGoOn(rules, world, first + m - 1, ProgressAfter(rules, world, first, m - 1), turn, before, after);
    EndedDoesNotGoOn(rules, world, first + n - 1, ProgressAfter(rules, world, first, n - 1), turn, after, before);
  }

  lemma EndedDoesNotGoOn(
    rules: Rules, world: World, step: nat, progress: Progress, turn: nat, log: Log, other: Log)
    requires forall k: nat :: !world.schedule(step).cancelled(k)
    ensures EndsAs(rules, world, step, progress, turn, log) ==> log != [] && !GoesOn(rules, world, step, progress)
    ensures EndsAs(rules, world, step, progress, turn, log) && EndsAs(rules, world, step, progress, turn, other) ==>
              log[|log| - 1] == other[|other| - 1]
  {
    hide MayContinue, HistoryWith, StepReply;
  }
}
