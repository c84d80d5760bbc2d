/** What the agent loop may log: a grammar of turns and steps, read off the events alone. */
module TurnGrammar {
  import opened Wrappers
  import opened SessionLog
  import opened TurnBudget
  import Pruner
  import ToolScheduler

  const MAX_ATTEMPTS := 2

  /** Between steps: whether the last one called tools. Nudged: the loop has spoken and owes
      a step. Within a step: the attempts
      settled, whether the last of them answered, and what its tools have logged. While
      pruning: a shadow marker awaits its pruned copy. */
  datatype Phase =
    | Between(acted: bool)
    | Nudged
    | Pruning(attempts: nat)
    | Within(attempts: nat, answered: bool, calls: seq<Call>, results: seq<Result>)

  /** The turn under way: `steps` started, `compactions` still allowed, the finished tool
      steps in `history`. */
  datatype Turn =
    | Closed
    | Open(steps: nat, compactions: nat, nudged: bool, history: seq<ToolStep>, phase: Phase)
    | Broken

  function OpenAs(turn: Turn, phase: Phase): Turn
    requires turn.Open?
  {
    turn.(phase := phase)
  }

  /** `max_compactions_per_turn`; a maintenance turn exists for one compaction. */
  function CompactionsOf(rules: Rules, origin: TurnOrigin): nat {
    if origin.Maintenance? then 1 else rules.compactionCap
  }

  /** A recoverable stop needs a reason: the budget, the ceiling, or a second non-action. */
  ghost predicate MayStop(rules: Rules, turn: Turn)
    requires turn.Open?
  {
    && (turn.phase.Between? || turn.phase.Nudged?)
    && (|| !MayContinue(rules, turn.history) || turn.steps == rules.TurnCeiling()
        || (turn.nudged && turn.phase == Between(false)))
  }

  ghost function NextTurn(rules: Rules, turn: Turn, event: Event): Turn {
    match turn
    case Broken => Broken
    case Closed =>
      if event.TurnStarted? then Open(0, CompactionsOf(rules, event.origin), false, [], Between(false))
      else if event.UserMessage? || event.ContextInjected? || event.PlanMode? || event.ModelSelected? then Closed
      else Broken
    case Open(steps, compactions, nudged, history, Between(acted)) =>
      if event.StepStarted? && steps < rules.TurnCeiling() && MayContinue(rules, history)
      then turn.(steps := steps + 1, phase := Within(0, false, [], []))
      else if event.UserMessage? && steps > 0 && !acted && !nudged then turn.(nudged := true, phase := Nudged)
      else if event.TurnEnded? && steps > 0 && !acted then Closed
      else if event.TurnCancelled? && acted then Closed
      else if event.TurnFailed? && event.code == StepLimitExceeded && MayStop(rules, turn) then Closed
      else if event.TurnFailed? && event.code == InboxFull && steps == 0 then Closed
      else Broken
    case Open(steps, _, _, history, Nudged) =>
      if event.StepStarted? && steps < rules.TurnCeiling() && MayContinue(rules, history)
      then turn.(steps := steps + 1, phase := Within(0, false, [], []))
      else if event.TurnFailed? && event.code == StepLimitExceeded && MayStop(rules, turn) then Closed
      else Broken
    case Open(_, _, _, _, Pruning(attempts)) =>
      if event.ToolResult? then OpenAs(turn, Within(attempts, false, [], [])) else Broken
    case Open(_, compactions, _, history, Within(attempts, answered, calls, results)) =>
      match event
      case AssistantAttempt =>
        if attempts < MAX_ATTEMPTS && !answered then OpenAs(turn, Within(attempts + 1, false, [], [])) else Broken
      case AssistantMessage =>
        if attempts < MAX_ATTEMPTS && !answered then OpenAs(turn, Within(attempts + 1, true, [], [])) else Broken
      case ContextCompaction => if compactions > 0 then turn.(compactions := compactions - 1) else Broken
      case ToolCall(call) => if answered then OpenAs(turn, Within(attempts, true, calls + [call], results)) else Broken
      case ToolResult(result) =>
        if answered then OpenAs(turn, Within(attempts, true, calls, results + [result])) else Broken
      case PermissionDecision(_, _) => if answered then turn else Broken
      case StepEnded(_, _) =>
        if results == [] then OpenAs(turn, Between(false))
        else turn.(history := history + [ToolStepOf(rules, calls, results)], phase := Between(true))
      case TurnFailed(_, code) => if code.StepLimitExceeded? || code.InboxFull? then Broken else Closed
      case TurnCancelled(_) => Closed
      case ContextPrune(_) => if answered then Broken else OpenAs(turn, Pruning(attempts))
      case UserMessage(_) | ContextInjected(_) | PlanMode(_) | ModelSelected | TokenUsage | RequestHeader => turn
      case _ => Broken
  }

  predicate IsTerminal(event: Event) {
    event.TurnEnded? || event.TurnFailed? || event.TurnCancelled?
  }

  predicate IsSettling(turn: Turn, event: Event) {
    IsTerminal(event) && !(event.TurnCancelled? && turn.Open? && turn.phase.Between?)
  }

  /** A user message that is not the loop's own nudge. */
  predicate IsSaid(turn: Turn, event: Event) {
    event.UserMessage? && !(turn.Open? && turn.phase.Between?)
  }

  /** `settled` counts the turns that ended, but for those cancelled after their tools ran;
      `started` are the origins of the turns not rejected at once; `said` are the user
      messages that are not nudges. */
  datatype Ledger = Ledger(turn: Turn, settled: nat, started: seq<TurnOrigin>, said: seq<Message>)

  function NextStarted(started: seq<TurnOrigin>, event: Event): seq<TurnOrigin> {
    if event.TurnStarted? then started + [event.origin]
    else if event.TurnFailed? && event.code.InboxFull? && started != [] then started[..|started| - 1]
    else started
  }

  ghost function NextLedger(rules: Rules, ledger: Ledger, event: Event): Ledger {
    Ledger(
      NextTurn(rules, ledger.turn, event),
      ledger.settled + if IsSettling(ledger.turn, event) then 1 else 0,
      NextStarted(ledger.started, event),
      ledger.said + if IsSaid(ledger.turn, event) then [event.message] else [])
  }

  /** Reads the log from `base` on. */
  ghost function Read(rules: Rules, base: nat, log: Log): Ledger {
    if |log| <= base then Ledger(Closed, 0, [], [])
    else NextLedger(rules, Read(rules, base, log[..|log| - 1]), log[|log| - 1])
  }

  ghost predicate Accepted(rules: Rules, base: nat, log: Log) {
    !Read(rules, base, log).turn.Broken?
  }

  lemma ReadOneMore(rules: Rules, base: nat, log: Log, event: Event)
    requires base <= |log|
    ensures Read(rules, base, log + [event]) == NextLedger(rules, Read(rules, base, log), event)
  {
    assert (log + [event])[..|log|] == log;
  }

  // ---------------------------------------------------------------------------
  // What the grammar bounds, counted independently
  // ---------------------------------------------------------------------------

  /** Events of one kind since the last one of another. */
  function CountSince(log: Log, base: nat, counted: Event -> bool, reset: Event -> bool): nat {
    if |log| <= base || reset(log[|log| - 1]) then 0
    else CountSince(log[..|log| - 1], base, counted, reset) + if counted(log[|log| - 1]) then 1 else 0
  }

  predicate IsTurnStart(event: Event) { event.TurnStarted? }
  predicate IsStepStart(event: Event) { event.StepStarted? }
  predicate IsSettledAttempt(event: Event) { event.AssistantMessage? || event.AssistantAttempt? }
  predicate IsCompaction(event: Event) { event.ContextCompaction? }

  function StepsOfTurn(log: Log, base: nat): nat { CountSince(log, base, IsStepStart, IsTurnStart) }
  function AttemptsOfStep(log: Log, base: nat): nat { CountSince(log, base, IsSettledAttempt, IsStepStart) }
  function CompactionsOfTurn(log: Log, base: nat): nat { CountSince(log, base, IsCompaction, IsTurnStart) }
  function EndsOfTurn(log: Log, base: nat): nat { CountSince(log, base, IsTerminal, IsTurnStart) }
  function TurnStarts(log: Log, base: nat): nat { CountSince(log, base, IsTurnStart, _ => false) }

  /** User messages right behind the end of a step: nobody but the loop speaks there. */
  function NudgesOfTurn(log: Log, base: nat): nat {
    if |log| <= base || log[|log| - 1].TurnStarted? then 0
    else
      var nudge := log[|log| - 1].UserMessage? && |log| > base + 1 && log[|log| - 2].StepEnded?;
      NudgesOfTurn(log[..|log| - 1], base) + if nudge then 1 else 0
  }

  /** What the last turn to start allows in compactions. */
  function CompactionLimit(rules: Rules, log: Log, base: nat): nat {
    if |log| <= base then 0
    else if log[|log| - 1].TurnStarted? then CompactionsOf(rules, log[|log| - 1].origin)
    else CompactionLimit(rules, log[..|log| - 1], base)
  }

  ghost predicate Bounded(rules: Rules, base: nat, log: Log) {
    && StepsOfTurn(log, base) <= rules.TurnCeiling()
    && AttemptsOfStep(log, base) <= MAX_ATTEMPTS
    && CompactionsOfTurn(log, base) <= CompactionLimit(rules, log, base)
    && NudgesOfTurn(log, base) <= 1
    && EndsOfTurn(log, base) <= 1
    && (Read(rules, base, log).turn.Closed? && TurnStarts(log, base) > 0 ==> EndsOfTurn(log, base) == 1)
  }

  /** How the reader's state relates to the independent counts. */
  ghost predicate CountsAgree(rules: Rules, base: nat, log: Log) {
    var turn := Read(rules, base, log).turn;
    && (turn.Open? ==>
          && StepsOfTurn(log, base) == turn.steps <= rules.TurnCeiling()
          && CompactionsOfTurn(log, base) + turn.compactions == CompactionLimit(rules, log, base)
          && EndsOfTurn(log, base) == 0 && TurnStarts(log, base) > 0
          && NudgesOfTurn(log, base) == (if turn.nudged then 1 else 0)
          && (turn.phase.Within? || turn.phase.Pruning? ==>
                AttemptsOfStep(log, base) == turn.phase.attempts <= MAX_ATTEMPTS))
    && (turn.Closed? ==> EndsOfTurn(log, base) == if TurnStarts(log, base) > 0 then 1 else 0)
  }

  /** Between two steps a user message follows the end of a step, elsewhere it does not. */
  ghost predicate StepsEndWhereRead(rules: Rules, base: nat, log: Log) {
    var turn := Read(rules, base, log).turn;
    |log| > base ==>
      && (log[|log| - 1].StepEnded? ==> turn.Open? && turn.phase.Between?)
      && (turn.Open? && turn.phase.Between? && (turn.steps > 0 || turn.phase.acted) ==> log[|log| - 1].StepEnded?)
  }

  lemma {:induction false} AcceptedTurnsAreBounded(rules: Rules, base: nat, log: Log)
    requires Accepted(rules, base, log)
    ensures Bounded(rules, base, log) && CountsAgree(rules, base, log)
  {
    hide MayContinue, MayStop, ToolStepOf;
    if |log| > base {
      var init := log[..|log| - 1];
      BrokenForGood(rules, base, log, |init|);
      AcceptedTurnsAreBounded(rules, base, init);
      StepEndsAreRead(rules, base, init);
      CountsAgreeOneMore(rules, base, log);
    }
  }

  /** The independent counts follow the reader by one event. */
  lemma {:induction false} CountsAgreeOneMore(rules: Rules, base: nat, log: Log)
    requires |log| > base && Accepted(rules, base, log)
    requires CountsAgree(rules, base, log[..|log| - 1]) && StepsEndWhereRead(rules, base, log[..|log| - 1])
    ensures CountsAgree(rules, base, log)
  {
    hide MayContinue, MayStop, ToolStepOf;
  }

  lemma {:induction false} StepEndsAreRead(rules: Rules, base: nat, log: Log)
    requires Accepted(rules, base, log)
    ensures StepsEndWhereRead(rules, base, log)
  {
    hide MayContinue, MayStop, ToolStepOf;
    if |log| > base {
      BrokenForGood(rules, base, log, |log| - 1);
      StepEndsAreRead(rules, base, log[..|log| - 1]);
    }
  }

  lemma {:induction false} BrokenForGood(rules: Rules, base: nat, log: Log, n: nat)
    requires n <= |log| && Accepted(rules, base, log)
    ensures Accepted(rules, base, log[..n])
  {
    if n < |log| {
      assert Accepted(rules, base, log[..|log| - 1]) by {
        hide MayContinue, MayStop, ToolStepOf;
      }
      BrokenForGood(rules, base, log[..|log| - 1], n);
      assert log[..|log| - 1][..n] == log[..n];
    } else {
      assert log[..n] == log;
    }
  }

  /** Every turn of an accepted log, at every moment. */
  lemma EveryTurnIsBounded(rules: Rules, base: nat, log: Log)
    requires Accepted(rules, base, log)
    ensures forall n :: 0 <= n <= |log| ==> Bounded(rules, base, log[..n])
  {
    forall n | 0 <= n <= |log| ensures Bounded(rules, base, log[..n]) {
      BrokenForGood(rules, base, log, n);
      AcceptedTurnsAreBounded(rules, base, log[..n]);
    }
  }

  // ---------------------------------------------------------------------------
  // Terminal events
  // ---------------------------------------------------------------------------

  function Terminals(log: Log, base: nat): nat { CountSince(log, base, IsTerminal, _ => false) }

  /** Cancellations right behind the end of a step. */
  function LateCancels(log: Log, base: nat): nat {
    if |log| <= base then 0
    else
      var late := log[|log| - 1].TurnCancelled? && |log| > base + 1 && log[|log| - 2].StepEnded?;
      LateCancels(log[..|log| - 1], base) + if late then 1 else 0
  }

  /** The terminal events are those counted as settled and the late cancellations. */
  lemma {:induction false} SettledMissesLateCancels(rules: Rules, base: nat, log: Log)
    requires Accepted(rules, base, log)
    ensures Terminals(log, base) == Read(rules, base, log).settled + LateCancels(log, base)
  {
    hide MayContinue, MayStop, ToolStepOf;
    if |log| > base {
      var init := log[..|log| - 1];
      BrokenForGood(rules, base, log, |init|);
      SettledMissesLateCancels(rules, base, init);
      StepEndsAreRead(rules, base, init);
    }
  }

  lemma {:induction false} LateCancelsStay(log: Log, more: Log, base: nat)
    requires log <= more
    ensures LateCancels(log, base) <= LateCancels(more, base)
    decreases |more|
  {
    if |log| < |more| {
      assert log <= more[..|more| - 1];
      LateCancelsStay(log, more[..|more| - 1], base);
    } else {
      assert log == more;
    }
  }

  /** The last terminal event. */
  function LastEnd(log: Log, base: nat): Option<Event> {
    if |log| <= base then None
    else if IsTerminal(log[|log| - 1]) then Some(log[|log| - 1])
    else LastEnd(log[..|log| - 1], base)
  }

  lemma LastEndOneMore(log: Log, base: nat, event: Event)
    requires base <= |log|
    ensures LastEnd(log + [event], base) == if IsTerminal(event) then Some(event) else LastEnd(log, base)
  {
    assert (log + [event])[..|log|] == log;
  }

  // ---------------------------------------------------------------------------
  // What pruning adds
  // ---------------------------------------------------------------------------

  /** A pruning pass leaves the step as it was. */
  lemma {:induction false} PruningIsRead(rules: Rules, base: nat, log: Log, more: Log)
    requires base <= |log| && Read(rules, base, log).turn.Open? && Read(rules, base, log).turn.phase.Within?
    requires Read(rules, base, log).turn.phase == Within(Read(rules, base, log).turn.phase.attempts, false, [], [])
    requires Pruner.AppendsPairs(log, more)
    ensures Read(rules, base, more) == Read(rules, base, log) && LastEnd(more, base) == LastEnd(log, base)
    ensures log <= more
    decreases |more|
  {
    hide Read, NextLedger, LastEnd;
    if more != log {
      var init, marker, copy := more[..|more| - 2], more[|more| - 2], more[|more| - 1];
      PruningIsRead(rules, base, log, init);
      assert more == init + [marker] + [copy];
      ReadOneMore(rules, base, init, marker);
      ReadOneMore(rules, base, init + [marker], copy);
      PairIsRead(rules, Read(rules, base, init), marker, copy);
      LastEndOneMore(init, base, marker);
      LastEndOneMore(init + [marker], base, copy);
    }
  }

  lemma PairIsRead(rules: Rules, ledger: Ledger, marker: Event, copy: Event)
    requires ledger.turn.Open? && ledger.turn.phase.Within? && marker.ContextPrune? && copy.ToolResult?
    requires ledger.turn.phase == Within(ledger.turn.phase.attempts, false, [], [])
    ensures NextLedger(rules, NextLedger(rules, ledger, marker), copy) == ledger
  {
    assert ledger.said + [] == ledger.said;
  }

  // ---------------------------------------------------------------------------
  // What a schedule adds
  // ---------------------------------------------------------------------------

  /** The reader's state once a schedule has logged `calls` and `results`. */
  ghost function AfterSchedule(ledger: Ledger, calls: seq<Call>, results: seq<Result>): Ledger
    requires ledger.turn.Open? && ledger.turn.phase.Within? && ledger.turn.phase.answered
  {
    var step := ledger.turn.phase;
    ledger.(turn := OpenAs(ledger.turn, Within(step.attempts, true, step.calls + calls, step.results + results)))
  }

  lemma ScheduledTwice(
    ledger: Ledger, calls: seq<Call>, results: seq<Result>, moreCalls: seq<Call>, moreResults: seq<Result>)
    requires ledger.turn.Open? && ledger.turn.phase.Within? && ledger.turn.phase.answered
    ensures AfterSchedule(AfterSchedule(ledger, calls, results), moreCalls, moreResults) ==
            AfterSchedule(ledger, calls + moreCalls, results + moreResults)
  {
    var step := ledger.turn.phase;
    assert step.calls + calls + moreCalls == step.calls + (calls + moreCalls);
    assert step.results + results + moreResults == step.results + (results + moreResults);
  }

  lemma ScheduleEventIsRead(rules: Rules, ledger: Ledger, event: Event)
    requires ledger.turn.Open? && ledger.turn.phase.Within? && ledger.turn.phase.answered
    requires ToolScheduler.LoggedBySchedule(event)
    ensures NextLedger(rules, ledger, event) ==
            AfterSchedule(ledger,
                          if event.ToolCall? then [event.call] else [],
                          if event.ToolResult? then [event.result] else [])
  {
    hide MayContinue, MayStop, ToolStepOf;
    var step := ledger.turn.phase;
    assert step.calls + [] == step.calls && step.results + [] == step.results && ledger.said + [] == ledger.said;
  }

  /** A schedule's events add its calls and its results to the step. */
  lemma {:induction false} ScheduleIsRead(rules: Rules, base: nat, log: Log, chunk: Log)
    requires base <= |log| && Read(rules, base, log).turn.Open? && Read(rules, base, log).turn.phase.Within?
    requires Read(rules, base, log).turn.phase.answered
    requires forall i :: 0 <= i < |chunk| ==> ToolScheduler.LoggedBySchedule(chunk[i])
    ensures Read(rules, base, log + chunk) ==
            AfterSchedule(Read(rules, base, log), ToolScheduler.CallsIn(chunk), ToolScheduler.ResultsIn(chunk))
  {
    hide Read, NextLedger;
    var ledger := Read(rules, base, log);
    if chunk == [] {
      assert log + chunk == log;
      assert ledger.turn.phase.calls + [] == ledger.turn.phase.calls;
      assert ledger.turn.phase.results + [] == ledger.turn.phase.results;
    } else {
      var init, last := chunk[..|chunk| - 1], chunk[|chunk| - 1];
      ScheduleIsRead(rules, base, log, init);
      assert log + chunk == log + init + [last];
      ReadOneMore(rules, base, log + init, last);
      ScheduleEventIsRead(rules, Read(rules, base, log + init), last);
      ScheduledTwice(ledger, ToolScheduler.CallsIn(init), ToolScheduler.ResultsIn(init),
                     if last.ToolCall? then [last.call] else [], if last.ToolResult? then [last.result] else []);
    }
  }
}
