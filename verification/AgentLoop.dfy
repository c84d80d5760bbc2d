/** The agent loop: an inbox, and turns that run in steps until a budget, an answer, a
    failure or cancellation ends them. */
module AgentLoops {
  import opened Wrappers
  import opened SessionLog
  import opened TurnBudget
  import opened TurnGrammar
  import opened TurnWorld
  import opened TurnOutcome
  import opened AgentInbox
  import opened StepLog
  import Pruner
  import Scheduler = ToolScheduler
  import SchedulerRun

  /** Where a step may start. */
  predicate BetweenSteps(turn: Turn) {
    turn.Open? && (turn.phase.Between? || turn.phase.Nudged?)
  }

  /** A step under way, nothing but `attempts` settled in it. */
  ghost predicate Asking(turn: Turn, attempts: nat) {
    turn.Open? && turn.phase == Within(attempts, false, [], []) && turn.steps > 0
  }

  /** A step under way that no attempt has answered yet. */
  ghost predicate Unanswered(turn: Turn) {
    turn.Open? && turn.phase.Within? && Asking(turn, turn.phase.attempts)
  }

  /** A step under way whose tools have not been called. */
  ghost predicate Responded(turn: Turn) {
    turn.Open? && turn.phase.Within? && turn.phase.calls == [] && turn.phase.results == [] && turn.steps > 0
  }

  ghost predicate Answered(turn: Turn) {
    Responded(turn) && turn.phase.answered
  }

  /** The same step of the same turn, but for compactions and what the step did. */
  ghost predicate SameStep(before: Turn, after: Turn) {
    && before.Open? && after.Open?
    && after.steps == before.steps && after.nudged == before.nudged && after.history == before.history
  }

  /** Where items and contexts may be logged. */
  predicate TakesMessages(turn: Turn) {
    turn.Closed? || (turn.Open? && turn.phase.Within?)
  }

  /** A turn's last event is its terminal, but for the flushed selections. */
  ghost predicate EndsTurn(log: Log, flushed: Log) {
    |log| > |flushed| && log[|log| - |flushed|..] == flushed && IsTerminal(log[|log| - |flushed| - 1])
  }

  lemma MessageIsRead(rules: Rules, ledger: Ledger, event: Event)
    requires TakesMessages(ledger.turn) && (event.UserMessage? || event.ContextInjected?)
    ensures NextLedger(rules, ledger, event) ==
            ledger.(said := ledger.said + if event.UserMessage? then [event.message] else [])
  {
    hide MayContinue, MayStop, ToolStepOf;
  }

  lemma LateCancelIsRead(rules: Rules, ledger: Ledger, event: Event)
    requires ledger.turn.Open? && ledger.turn.phase == Between(true) && event.TurnCancelled?
    ensures NextLedger(rules, ledger, event) == ledger.(turn := Closed)
  {
    assert ledger.said + [] == ledger.said;
  }

  lemma StartIsRead(rules: Rules, ledger: Ledger, event: Event)
    requires ledger.turn.Closed? && event.TurnStarted?
    ensures NextLedger(rules, ledger, event) ==
            ledger.(turn := Open(0, CompactionsOf(rules, event.origin), false, [], Between(false)),
                    started := ledger.started + [event.origin])
  {
    assert ledger.said + [] == ledger.said;
  }

  lemma RejectionIsRead(rules: Rules, ledger: Ledger, started: Event, failed: Event)
    requires ledger.turn.Closed? && started.TurnStarted? && failed.TurnFailed? && failed.code == InboxFull
    ensures NextLedger(rules, NextLedger(rules, ledger, started), failed) == ledger.(settled := ledger.settled + 1)
  {
    StartIsRead(rules, ledger, started);
    assert (ledger.started + [started.origin])[..|ledger.started|] == ledger.started;
    assert ledger.said + [] == ledger.said;
  }

  /** Items are logged without disturbing the turn. */
  lemma {:induction false} ItemIsRead(rules: Rules, base: nat, log: Log, item: InboxItem)
    requires base <= |log| && TakesMessages(Read(rules, base, log).turn)
    ensures var before, after := Read(rules, base, log), Read(rules, base, log + Posts(item));
            && after.turn == before.turn && after.settled == before.settled && after.started == before.started
            && after.said == before.said + if item.Prompt? || item.Steering? then [item.message] else []
    ensures LastEnd(log + Posts(item), base) == LastEnd(log, base)
  {
    hide Read, NextLedger, TakesMessages;
    if item.CompactionRequest? {
      assert log + [] == log;
      assert Read(rules, base, log).said + [] == Read(rules, base, log).said;
    } else {
      ReadOneMore(rules, base, log, Posts(item)[0]);
      MessageIsRead(rules, Read(rules, base, log), Posts(item)[0]);
      LastEndOneMore(log, base, Posts(item)[0]);
    }
  }

  lemma SameSuffix<T>(a: seq<T>, b: seq<T>, c: seq<T>)
    requires a + b == a + c
    ensures b == c
  {
    assert (a + b)[|a|..] == b;
    assert (a + c)[|a|..] == c;
  }

  /** The agent between two scopes of its lock: the log, what waits, whether it failed, and the
      numbers the next turn and step will get. */
  datatype Snapshot = Snapshot(log: Log, queue: Queue, failed: bool, turns: nat, steps: nat)

  /** An ending that leaves the agent failed. */
  predicate Fails(event: Event) {
    event.TurnFailed? && event.code != StepLimitExceeded
  }

  /** A call from outside. */
  datatype Request = Send(item: InboxItem) | Compact | Run

  class AgentLoop {
    const rules: Rules
    const maxInbox: nat
    const maxParallel: nat
    const world: World
    const base: nat

    var log: Log
    var inbox: seq<InboxItem>
    var state: AgentState
    var running: bool
    var pendingFailure: bool
    var settleGeneration: nat
    var compactions: nat
    var turns: nat
    var steps: nat
    /** What other threads send, batch by batch, whenever the loop looks at its inbox. */
    var arrivals: seq<seq<InboxItem>>

    ghost var accepted: seq<InboxItem>
    ghost var consumed: seq<InboxItem>
    ghost var places: seq<nat>
    /** The turn that an item already used has yet to start. */
    ghost var owed: seq<TurnOrigin>

    ghost function Current(): Turn
      reads `log
    {
      Read(rules, base, log).turn
    }

    /** The last terminal event logged. */
    ghost function End(): Option<Event>
      reads `log
    {
      LastEnd(log, base)
    }

    ghost predicate Valid()
      reads `log, `inbox, `accepted, `consumed, `places, `settleGeneration, `owed
    {
      && base <= |log| && |inbox| <= maxInbox
      && accepted == consumed + inbox
      && PostedAt(log, base, consumed, places)
      && Read(rules, base, log).said == SaidBy(consumed)
      && Read(rules, base, log).settled == settleGeneration
      && Read(rules, base, log).started + owed == TurnsFor(consumed)
      && forall step: nat :: Scheduler.Monotone(world.schedule(step))
    }

    /** A failed agent has logged the failure that made it so, as its last ending. */
    ghost predicate Explained()
      reads `log, `state
    {
      state.Errored? ==> End().Some? && StateAfter(End().value).Errored?
    }

    /** Nothing logged, accepted or used is ever taken back. */
    twostate predicate Grows()
      reads `log, `accepted, `consumed
    {
      old(log) <= log && old(accepted) <= accepted && old(consumed) <= consumed
    }

    constructor (
      rules: Rules, maxInbox: nat, maxParallel: nat, world: World, log: Log, arrivals: seq<seq<InboxItem>>)
      requires forall step: nat :: Scheduler.Monotone(world.schedule(step))
      ensures AtRest() && state == Idle && inbox == [] && accepted == [] && steps == 0 && turns == 0
      ensures this.log == log && base == |log| && this.arrivals == arrivals
      ensures this.rules == rules && this.maxInbox == maxInbox && this.world == world
    {
      this.rules, this.maxInbox, this.maxParallel, this.world, this.log := rules, maxInbox, maxParallel, world, log;
      this.base, this.arrivals := |log|, arrivals;
      inbox, state, running, pendingFailure := [], Idle, false, false;
      settleGeneration, compactions, turns, steps := 0, 0, 0, 0;
      accepted, consumed, places, owed := [], [], [], [];
    }

    // -------------------------------------------------------------------------
    // Writing the log
    // -------------------------------------------------------------------------

    method Append(event: Event)
      requires Valid() && !IsTerminal(event) && !event.TurnStarted? && !IsSaid(Current(), event)
      modifies `log
      ensures Valid() && log == old(log) + [event] && Current() == NextTurn(rules, old(Current()), event)
      ensures End() == old(End())
    {
      hide NextTurn, LastEnd;
      ReadOneMore(rules, base, log, event);
      LastEndOneMore(log, base, event);
      PostedStays(log, base, consumed, places, event);
      log := log + [event];
    }

    /** A terminal event and `noteTerminal`. */
    method Conclude(event: Event, next: AgentState)
      requires Valid() && IsSettling(Current(), event) && (event.TurnFailed? ==> !event.code.InboxFull?)
      modifies `log, `state, `settleGeneration
      ensures Valid() && log == old(log) + [event] && Current() == NextTurn(rules, old(Current()), event)
      ensures state == next && settleGeneration == old(settleGeneration) + 1 && End() == Some(event)
    {
      hide NextTurn, LastEnd;
      ReadOneMore(rules, base, log, event);
      LastEndOneMore(log, base, event);
      PostedStays(log, base, consumed, places, event);
      log := log + [event];
      state := next;
      settleGeneration := settleGeneration + 1;
    }

    /** The one ending that `noteTerminal` does not hear of. */
    method CancelAfterTools(turn: nat)
      requires Valid() && Current().Open? && Current().phase == Between(true)
      modifies `log, `state
      ensures Valid() && log == old(log) + [TurnCancelled(turn)] && Current().Closed? && state == Idle
      ensures End() == Some(TurnCancelled(turn))
    {
      hide LastEnd, Read, NextLedger, PostedAt, SaidBy, TurnsFor;
      ReadOneMore(rules, base, log, TurnCancelled(turn));
      LateCancelIsRead(rules, Read(rules, base, log), TurnCancelled(turn));
      LastEndOneMore(log, base, TurnCancelled(turn));
      PostedStays(log, base, consumed, places, TurnCancelled(turn));
      log := log + [TurnCancelled(turn)];
      state := Idle;
    }

    /** `appendTurnFailed` */
    method Fail(turn: nat, code: FailureCode, recoverable: bool)
      requires Valid() && Current().Open? && !code.InboxFull?
      modifies `log, `state, `settleGeneration
      ensures Valid() && log == old(log) + [TurnFailed(turn, code)]
      ensures Current() == NextTurn(rules, old(Current()), TurnFailed(turn, code))
      ensures state == (if recoverable then Idle else Errored) && End() == Some(TurnFailed(turn, code))
    {
      Conclude(TurnFailed(turn, code), if recoverable then Idle else Errored);
    }

    // -------------------------------------------------------------------------
    // The inbox
    // -------------------------------------------------------------------------

    /** Accepting an item: `enqueue` up to its unlock. */
    method Accept(item: InboxItem) returns (ok: bool)
      requires Valid()
      modifies `inbox, `state, `accepted
      ensures Valid() && (ok <==> |old(inbox)| < maxInbox)
      ensures inbox == (if ok then old(inbox) + [item] else old(inbox))
      ensures accepted == if ok then old(accepted) + [item] else old(accepted)
      ensures state == if ok && old(state).Errored? then Idle else old(state)
      ensures ok ==> Snap() == old(Snap()).(queue := old(Waiting()).(inbox := old(inbox) + [item]), failed := false)
    {
      hide Read, PostedAt, TurnsFor, SaidBy;
      if |inbox| >= maxInbox {
        return false;
      }
      if state == Errored {
        state := Idle;
      }
      assert consumed + inbox + [item] == consumed + (inbox + [item]);
      inbox := inbox + [item];
      accepted := accepted + [item];
      return true;
    }

    /** A batch from other threads: what finds room joins the inbox, in order, and a
        compaction request that finds none leaves a failure to record. */
    method ReceiveBatch(batch: seq<InboxItem>)
      requires Valid()
      modifies `inbox, `state, `accepted, `pendingFailure
      ensures Grows() && Valid()
      ensures inbox == old(inbox) + Admitted(old(inbox), batch, maxInbox)
      ensures accepted == old(accepted) + Admitted(old(inbox), batch, maxInbox)
      ensures pendingFailure == (old(pendingFailure) || RefusesCompaction(old(inbox), batch, maxInbox))
      ensures state == if Admitted(old(inbox), batch, maxInbox) != [] && old(state).Errored? then Idle else old(state)
    {
      hide Valid, Admitted, RefusesCompaction;
      NothingArrives(inbox, batch, maxInbox);
      for i := 0 to |batch|
        invariant Grows() && Valid()
        invariant inbox == old(inbox) + Admitted(old(inbox), batch[..i], maxInbox)
        invariant accepted == old(accepted) + Admitted(old(inbox), batch[..i], maxInbox)
        invariant pendingFailure == (old(pendingFailure) || RefusesCompaction(old(inbox), batch[..i], maxInbox))
        invariant state == if Admitted(old(inbox), batch[..i], maxInbox) != [] && old(state).Errored? then Idle
                           else old(state)
      {
        AdmittedOneMore(old(inbox), batch, maxInbox, i);
        var ok := Accept(batch[i]);
        if !ok && batch[i].CompactionRequest? {
          pendingFailure := true;
        }
      }
      assert batch[..|batch|] == batch;
    }

    /** What other threads do while the loop does not hold its lock. */
    method Receive()
      requires Valid()
      modifies `inbox, `state, `accepted, `arrivals, `pendingFailure
      ensures Grows() && Valid()
      ensures arrivals == if old(arrivals) == [] then [] else old(arrivals)[1..]
      ensures inbox == old(inbox) + Admitted(old(inbox), NextBatch(old(arrivals)), maxInbox)
      ensures accepted == old(accepted) + Admitted(old(inbox), NextBatch(old(arrivals)), maxInbox)
      ensures pendingFailure ==
              (old(pendingFailure) || RefusesCompaction(old(inbox), NextBatch(old(arrivals)), maxInbox))
      ensures state == if old(state).Errored? && Admitted(old(inbox), NextBatch(old(arrivals)), maxInbox) != []
                       then Idle else old(state)
    {
      hide Valid, Admitted, RefusesCompaction;
      var batch := NextBatch(arrivals);
      if arrivals != [] {
        arrivals := arrivals[1..];
      }
      ReceiveBatch(batch);
    }

    /** Removes the first item and logs it. */
    method Take() returns (item: InboxItem)
      requires Valid() && inbox != [] && owed == [] && TakesMessages(Current())
      modifies `log, `inbox, `consumed, `places, `owed
      ensures Grows()
      ensures Valid() && item == old(inbox)[0] && inbox == old(inbox)[1..] && consumed == old(consumed) + [item]
      ensures log == old(log) + Posts(item) && Current() == old(Current()) && owed == TurnFor(item)
      ensures item.Prompt? || item.Steering? ==> log == old(log) + [UserMessage(item.message)]
      ensures item.Context? ==> log == old(log) + [ContextInjected(item.message)]
      ensures End() == old(End())
    {
      hide Read, PostedAt, AllPosts, SaidBy, TurnsFor, TurnFor, LastEnd;
      item := inbox[0];
      PostedOneMore(log, base, consumed, places, item);
      OneMoreItem(consumed, item);
      ItemIsRead(rules, base, log, item);
      assert consumed + inbox == consumed + [item] + inbox[1..];
      places := places + if item.CompactionRequest? then [] else [|log|];
      log := log + Posts(item);
      inbox := inbox[1..];
      consumed := consumed + [item];
      owed := TurnFor(item);
    }

    /** `drainFoldedItems` */
    method DrainFolded() returns (ghost n: nat)
      requires Valid() && owed == [] && TakesMessages(Current())
      modifies `log, `inbox, `consumed, `places, `owed
      ensures Grows()
      ensures Valid() && Current() == old(Current()) && End() == old(End()) && owed == []
      ensures inbox == [] || !Folds(inbox[0])
      ensures Drained(old(inbox), inbox, old(log), log, n) && |consumed| == |old(consumed)| + n
    {
      hide Valid, Current, End, Drained, Posts, Folds;
      n := 0;
      NothingDrained(inbox, log);
      while inbox != [] && Folds(inbox[0])
        invariant Grows() && Valid() && Current() == old(Current()) && End() == old(End()) && owed == []
        invariant Drained(old(inbox), inbox, old(log), log, n) && |consumed| == |old(consumed)| + n
        decreases |inbox|
      {
        DrainedOneMore(old(inbox), inbox, old(log), log, n);
        FoldingOwesNothing(inbox[0]);
        var item := Take();
        n := n + 1;
      }
    }

    /** `hasTurnTrigger` */
    method HasTurnTrigger() returns (any: bool)
      ensures any <==> AnyWakes(inbox) || pendingFailure
      ensures any <==> pendingFailure || exists i :: 0 <= i < |inbox| && (inbox[i].Context? ==> inbox[i].startsTurn)
    {
      for i := 0 to |inbox|
        invariant forall j :: 0 <= j < i ==> !Wakes(inbox[j])
      {
        if Wakes(inbox[i]) {
          return true;
        }
      }
      return pendingFailure;
    }

    // -------------------------------------------------------------------------
    // One step
    // -------------------------------------------------------------------------

    /** No arrivals: then nothing joined the inbox. */
    twostate predicate Shrinks()
      reads `arrivals, `inbox, `pendingFailure
    {
      || |arrivals| < |old(arrivals)|
      || (old(arrivals) == [] && arrivals == [] && |inbox| <= |old(inbox)| && pendingFailure == old(pendingFailure))
    }

    /** The turn's own count and the reader's agree on the compactions left. */
    ghost predicate Budgeted()
      reads `log, `compactions
    {
      Current().Open? && Current().compactions + compactions == rules.compactionCap
    }

    /** A turn has just ended, and left the agent as its ending says. */
    ghost predicate Ended()
      reads `log, `state
    {
      && Current().Closed? && log != [] && IsTerminal(log[|log| - 1])
      && End() == Some(log[|log| - 1]) && state == StateAfter(log[|log| - 1])
    }

    method AppendContexts(contexts: seq<Message>)
      requires Valid() && TakesMessages(Current())
      modifies `log
      ensures Grows()
      ensures Valid() && Current() == old(Current()) && End() == old(End())
      ensures log == old(log) + ContextEvents(contexts)
      ensures |log| == |old(log)| + |contexts|
      ensures forall i :: 0 <= i < |contexts| ==> log[|old(log)| + i] == ContextInjected(contexts[i])
    {
      hide Valid, Current, End;
      for i := 0 to |contexts|
        invariant Grows() && Valid() && Current() == old(Current()) && End() == old(End())
        invariant log == old(log) + ContextEvents(contexts[..i]) && |log| == |old(log)| + i
        invariant forall j :: 0 <= j < i ==> log[|old(log)| + j] == ContextInjected(contexts[j])
      {
        assert contexts[..i + 1][..i] == contexts[..i];
        Append(ContextInjected(contexts[i]));
      }
      assert contexts[..|contexts|] == contexts;
    }

    /** One pass of the pruner over the session. */
    method PruneLog()
      requires Valid() && Unanswered(Current())
      modifies `log
      ensures Grows()
      ensures Valid() && Current() == old(Current()) && End() == old(End())
      ensures Pruner.PassedOnce(world.pruning, old(log), log)
    {
      hide Read, LastEnd, PostedAt, SaidBy, TurnsFor, Pruner.PassedOnce, Pruner.AppendsPairs;
      var pruned, places' := Pruner.PruneSession(world.pruning, log);
      PruningIsRead(rules, base, log, pruned);
      PostedExtends(log, pruned, base, consumed, places);
      log := pruned;
    }

    /** `assemble_messages` */
    method AssembleMessages(step: nat, occasion: nat) returns (ok: bool)
      requires Valid() && Unanswered(Current())
      modifies `log
      ensures Grows()
      ensures Valid() && Current() == old(Current()) && End() == old(End())
      ensures ok == !world.assembly(step, occasion).fails && IsAssembly(world, step, occasion, old(log), log)
    {
      hide Valid, Current, End, Pruner.PassedOnce;
      PruneLog();
      AppendContexts(world.assembly(step, occasion).contexts);
      ok := !world.assembly(step, occasion).fails;
    }

    /** `buildRequest` */
    method BuildRequest(step: nat, occasion: nat)
      requires Valid() && Unanswered(Current())
      modifies `log
      ensures Grows()
      ensures Valid() && Current() == old(Current()) && End() == old(End())
      ensures IsRequest(world, step, occasion, old(log), log)
    {
      hide Valid, Current, End, Pruner.PassedOnce;
      PruneLog();
      ghost var pruned := log;
      if world.header(step, occasion) {
        Append(RequestHeader);
      }
      assert log == pruned + if world.header(step, occasion) then [RequestHeader] else [];
    }

    /** Queued selections take effect. */
    method CommitSelections(selection: Option<bool>, model: bool)
      requires Valid() && TakesMessages(Current())
      modifies `log
      ensures Grows()
      ensures Valid() && Current() == old(Current()) && End() == old(End())
      ensures log == old(log) + SelectionEvents(selection, model)
      ensures log == old(log) + (if selection.Some? then [PlanMode(selection.value)] else [])
                     + if model then [ModelSelected] else []
    {
      hide Valid, Current, End;
      if selection.Some? {
        Append(PlanMode(selection.value));
      }
      if model {
        Append(ModelSelected);
      }
    }

    /** `commitCompactionResult` */
    method CommitCompaction(compaction: Compaction)
      requires Valid() && Unanswered(Current()) && Current().compactions > 0
      modifies `log, `compactions
      ensures Grows()
      ensures Valid() && End() == old(End())
      ensures Current() == old(Current()).(compactions := old(Current().compactions) - CompactionsIn(compaction))
      ensures log == old(log) + CompactionEvents(compaction)
      ensures compactions == old(compactions) + CompactionsIn(compaction)
      ensures log == old(log) + (if compaction.Compacted? then [ContextCompaction] else [])
                     + if compaction.Compacted? && compaction.usage then [TokenUsage] else []
      ensures compactions == old(compactions) + if compaction.Compacted? then 1 else 0
    {
      hide Valid, Current, End;
      if compaction.Compacted? {
        Append(ContextCompaction);
        compactions := compactions + 1;
        if compaction.usage {
          Append(TokenUsage);
        }
      }
    }

    /** `runCompaction`, called only while a compaction is available. */
    method RunCompaction(step: nat, occasion: nat)
      requires Valid() && Budgeted() && Unanswered(Current()) && compactions < rules.compactionCap
      modifies `log, `compactions
      ensures Grows()
      ensures Valid() && Budgeted() && End() == old(End())
      ensures Current() == old(Current()).(compactions := Current().compactions)
      ensures log == old(log) + CompactionEvents(world.compaction(step, occasion))
      ensures compactions == old(compactions) + CompactionsIn(world.compaction(step, occasion))
    {
      hide Valid, Current, End, CompactionEvents, CompactionsIn;
      CommitCompaction(world.compaction(step, occasion));
    }

    /** What waits for the loop. */
    function Waiting(): Queue
      reads `inbox, `arrivals, `pendingFailure
    {
      Queue(inbox, arrivals, pendingFailure)
    }

    /** The inbox once the next batch has arrived. */
    function Seen(): seq<InboxItem>
      reads `inbox, `arrivals
    {
      inbox + Admitted(inbox, NextBatch(arrivals), maxInbox)
    }

    /** The inbox's part in the start of a step, or of a turn. */
    method FoldArrivals() returns (ghost n: nat)
      requires Valid() && TakesMessages(Current()) && owed == []
      modifies `log, `inbox, `state, `accepted, `consumed, `places, `arrivals, `pendingFailure, `owed
      ensures Grows()
      ensures Valid() && owed == [] && Shrinks() && Current() == old(Current()) && End() == old(End())
      ensures Drained(old(Seen()), inbox, old(log), log, n) && (inbox == [] || !Folds(inbox[0]))
      ensures Waiting() == QueueAfter(old(Waiting()), maxInbox, 1) && |consumed| == |old(consumed)| + n
      ensures log == old(log) + AllPosts(FoldedIn(old(Waiting()), maxInbox, 0))
      ensures state == if old(state).Errored? && Admitted(old(inbox), NextBatch(old(arrivals)), maxInbox) != []
                       then Idle else old(state)
    {
      hide Valid, Current, End, Folds, Drained, Admitted, RefusesCompaction, LeadingFolds, AllPosts;
      Receive();
      NothingArrives(old(inbox), [], maxInbox);
      assert Waiting() == Looked(old(Waiting()), maxInbox);
      n := DrainFolded();
      DrainedShrinks(old(Seen()), inbox, old(log), log, n);
      DrainTakesFolded(old(Seen()), inbox, old(log), log, n);
    }

    method BeginStep(turn: nat) returns (step: nat)
      requires Valid() && Budgeted() && BetweenSteps(Current())
      requires Current().steps < rules.TurnCeiling() && MayContinue(rules, Current().history)
      modifies `log, `steps
      ensures Grows() && step == old(steps) && steps == step + 1
      ensures Valid() && Budgeted() && End() == old(End())
      ensures Current() == old(Current()).(steps := old(Current().steps) + 1, phase := Within(0, false, [], []))
      ensures log == old(log) + OpeningEvents(world, turn, step)
      ensures log == old(log) + [StepStarted(turn, step)]
                     + (if world.selection(step).Some? then [PlanMode(world.selection(step).value)] else [])
                     + if world.modelSelection(step) then [ModelSelected] else []
    {
      hide Valid, Current, End, MayContinue, SelectionEvents;
      step := steps;
      steps := steps + 1;
      Append(StepStarted(turn, step));
      CommitSelections(world.selection(step), world.modelSelection(step));
      assert log == old(log) + OpeningEvents(world, turn, step);
    }

    /** `StepStarted` and what comes before the request is assembled: the selections that
        were queued, and the items that fold, arrived ones included. */
    method OpenStep(turn: nat) returns (step: nat, ghost n: nat)
      requires Valid() && owed == [] && Budgeted() && BetweenSteps(Current())
      requires Current().steps < rules.TurnCeiling() && MayContinue(rules, Current().history)
      modifies this
      ensures Grows() && owed == [] && step == old(steps) && steps == step + 1 && turns == old(turns)
      ensures Valid() && Shrinks() && running == old(running) && compactions == old(compactions)
      ensures Budgeted() && End() == old(End())
      ensures Current() == old(Current()).(steps := old(Current().steps) + 1, phase := Within(0, false, [], []))
      ensures Drained(old(Seen()), inbox, old(log) + OpeningEvents(world, turn, step), log, n)
      ensures inbox == [] || !Folds(inbox[0])
      ensures Waiting() == QueueAfter(old(Waiting()), maxInbox, 1)
      ensures log == old(log) + OpeningEvents(world, turn, step) + AllPosts(FoldedIn(old(Waiting()), maxInbox, 0))
    {
      hide Valid, Current, End, MayContinue, Drained, Folds, Seen, OpeningEvents, QueueAfter, FoldedIn, AllPosts;
      step := BeginStep(turn);
      n := FoldArrivals();
      state := Thinking;
    }

    /** The workspace instructions, logged once, then the messages. */
    method AssembleFirst(step: nat) returns (ok: bool)
      requires Valid() && Unanswered(Current())
      modifies `log
      ensures Grows()
      ensures Valid() && Current() == old(Current()) && End() == old(End())
      ensures ok == !world.assembly(step, 0).fails
      ensures IsAssembly(world, step, 0, old(log) + ContextEvents(world.instructions(step)), log)
    {
      hide Valid, Current, End, IsAssembly, ContextEvents;
      AppendContexts(world.instructions(step));
      ok := AssembleMessages(step, 0);
    }

    /** The messages of a request, compacted once if they are too long. */
    method AssembleRequest(turn: nat, step: nat) returns (ok: bool, ghost assembled: Log)
      requires Valid() && Budgeted() && Asking(Current(), 0)
      modifies `log, `state, `compactions, `settleGeneration
      ensures Grows()
      ensures Valid() && (ok <==> CanAssemble(rules, world, step, old(compactions)))
      ensures !ok ==> Ended() && log[|log| - 1] == TurnFailed(turn, ContextAssemblyFailed)
      ensures ok ==> Budgeted() && Asking(Current(), 0) && SameStep(old(Current()), Current())
      ensures ok ==> compactions == Spent(rules, world, step, old(compactions))
      ensures ok ==> IsCompactedAssembly(rules, world, step, old(compactions), old(log), assembled, log)
      ensures ok ==> if old(compactions) < rules.compactionCap && world.pressure(step)
                     then compactions == old(compactions) + CompactionsIn(world.compaction(step, 0))
                     else compactions == old(compactions) && log == assembled
    {
      hide Valid, Current, End, IsAssembly, CompactionEvents, CompactionsIn, ContextEvents;
      ok := AssembleFirst(step);
      assembled := log;
      if ok && compactions < rules.compactionCap && world.pressure(step) {
        RunCompaction(step, 0);
        ok := AssembleMessages(step, 1);
      }
      if !ok {
        Fail(turn, ContextAssemblyFailed, false);
      }
    }

    /** Everything up to the request; `!ok` when the turn failed on the way. */
    method PrepareRequest(turn: nat, step: nat) returns (ok: bool)
      requires Valid() && Budgeted() && Asking(Current(), 0)
      modifies `log, `state, `compactions, `settleGeneration
      ensures Grows()
      ensures Valid() && (ok <==> CanPrepare(rules, world, step, old(compactions)))
      ensures !ok ==>
        Ended() && log[|log| - 1] == TurnFailed(turn, PreparationFailure(rules, world, step, old(compactions)))
      ensures ok ==> Budgeted() && Asking(Current(), 0) && SameStep(old(Current()), Current())
      ensures ok ==> compactions == Spent(rules, world, step, old(compactions))
      ensures ok ==> IsPreparation(rules, world, step, old(compactions), old(log), log)
    {
      hide Valid, Current, End, IsCompactedAssembly, IsRequest, Spent, CanAssemble;
      if world.contextMissing {
        Fail(turn, ContextAssemblyFailed, false);
        return false;
      }
      ghost var assembled;
      ok, assembled := AssembleRequest(turn, step);
      if !ok {
        return;
      }
      ghost var ready := log;
      BuildRequest(step, 0);
      if world.runtimeMissing {
        Fail(turn, ProviderFailed, false);
        return false;
      }
      assert IsCompactedAssembly(rules, world, step, old(compactions), old(log), assembled, ready);
    }

    /** One attempt: its reply, settled in the log unless it was never dispatched. */
    method TryProvider(turn: nat, step: nat, attempt: nat) returns (response: Response, ok: bool)
      requires Valid() && Budgeted() && Asking(Current(), attempt) && attempt < MAX_ATTEMPTS
      modifies `log, `state, `settleGeneration
      ensures Grows()
      ensures Valid() && response == ReplyTo(world, step, attempt) && (ok <==> Flushes(world, step, attempt))
      ensures !ok ==> Ended() && log == old(log) + [TurnFailed(turn, Internal)]
      ensures ok ==> log == old(log) + SettledEvents(world, step, attempt)
      ensures ok ==> Budgeted() && SameStep(old(Current()), Current()) && Responded(Current())
      ensures ok && response.Completed? ==> Answered(Current())
      ensures ok && response == StreamFailed(ContextTooLong) ==> Asking(Current(), attempt + 1)
      ensures !world.slot(step, attempt) ==> ok && response == StreamCancelled && log == old(log)
      ensures world.slot(step, attempt) ==>
                match world.attempt(step, attempt)
                case NotDispatched => ok && response == StreamFailed(ProviderError) && log == old(log)
                case FlushFailed => !ok
                case Settled(reply) =>
                  && ok && response == reply
                  && log == old(log) + [if reply.Completed? then AssistantMessage else AssistantAttempt]
    {
      hide Valid, Current, End;
      ok := true;
      if !world.slot(step, attempt) {
        response := StreamCancelled;
        return;
      }
      var outcome := world.attempt(step, attempt);
      response := StreamFailed(ProviderError);
      match outcome {
        case NotDispatched =>
        case FlushFailed =>
          Fail(turn, Internal, false);
          ok := false;
        case Settled(reply) =>
          response := reply;
          Append(if reply.Completed? then AssistantMessage else AssistantAttempt);
      }
    }

    /** Between two attempts: compact, assemble and build again. */
    method PrepareRetry(turn: nat, step: nat) returns (ok: bool, ghost assembled: Log)
      requires Valid() && Budgeted() && Asking(Current(), 1) && compactions < rules.compactionCap
      modifies `log, `state, `compactions, `settleGeneration
      ensures Grows()
      ensures Valid() && (ok <==> !world.assembly(step, 2).fails)
      ensures !ok ==> Ended() && log[|log| - 1] == TurnFailed(turn, ContextAssemblyFailed)
      ensures ok ==> Budgeted() && Asking(Current(), 1) && SameStep(old(Current()), Current())
      ensures ok ==> IsAssembly(world, step, 2, old(log) + CompactionEvents(world.compaction(step, 1)), assembled)
      ensures ok ==> IsRequest(world, step, 1, assembled, log)
      ensures ok ==> compactions == old(compactions) + CompactionsIn(world.compaction(step, 1))
    {
      hide Valid, Current, End, IsAssembly, IsRequest, CompactionEvents, CompactionsIn;
      RunCompaction(step, 1);
      ok := AssembleMessages(step, 2);
      assembled := log;
      if !ok {
        Fail(turn, ContextAssemblyFailed, false);
        return;
      }
      BuildRequest(step, 1);
    }

    /** At most two attempts, the second exactly after an overflow with a compaction to
        spare; `last` is the one whose reply counts. `!ok` when the turn failed on the way. */
    method Converse(turn: nat, step: nat) returns (response: Response, ok: bool, ghost last: nat)
      requires Valid() && Budgeted() && Asking(Current(), 0)
      modifies `log, `state, `compactions, `settleGeneration
      ensures Grows()
      ensures Valid() && (ok <==> CanConverse(rules, world, step, old(compactions)))
      ensures !ok ==> Ended() && log[|log| - 1] == TurnFailed(turn, ConversationFailure(world, step))
      ensures ok ==> response == ReplyTo(world, step, last)
      ensures ok ==> last == if Retries(rules, world, step, old(compactions)) then 1 else 0
      ensures ok ==> compactions == WithRetry(rules, world, step, old(compactions))
      ensures ok ==> IsConversation(rules, world, step, old(compactions), old(log), log)
      ensures ok ==> Budgeted() && SameStep(old(Current()), Current()) && Responded(Current())
      ensures ok && response.Completed? ==> Answered(Current())
      ensures ok && last == 1 ==> old(compactions) < rules.compactionCap && world.retriesOnOverflow
    {
      hide Valid, Current, End, IsAssembly, IsRequest, CompactionEvents, CompactionsIn, SettledEvents, Flushes, ReplyTo;
      response, ok, last := StreamCancelled, true, 0;
      var attempt: nat := 0;
      ghost var assembled, ready := log, log;
      while attempt < MAX_ATTEMPTS
        modifies `log, `state, `compactions, `settleGeneration
        invariant Grows() && Valid() && Budgeted() && SameStep(old(Current()), Current()) && Asking(Current(), attempt)
        invariant attempt == 0 ==> compactions == old(compactions) && log == old(log)
        invariant attempt > 0 ==>
          && attempt == 1 && compactions == WithRetry(rules, world, step, old(compactions))
          && Retries(rules, world, step, old(compactions))
          && Flushes(world, step, 0) && !world.assembly(step, 2).fails && ready == log
          && IsAssembly(
            world, step, 2,
            old(log) + SettledEvents(world, step, 0) + CompactionEvents(world.compaction(step, 1)), assembled)
          && IsRequest(world, step, 1, assembled, ready)
      {
        last := attempt;
        response, ok := TryProvider(turn, step, attempt);
        if !ok || response != StreamFailed(ContextTooLong) {
          break;
        }
        if attempt == 1 || compactions >= rules.compactionCap || !world.retriesOnOverflow {
          break;
        }
        ok, assembled := PrepareRetry(turn, step);
        if !ok {
          break;
        }
        ready := log;
        attempt := attempt + 1;
      }
    }

    method FinishStep(turn: nat, step: nat, usage: bool)
      requires Valid() && Current().Open? && Current().phase.Within?
      modifies `log
      ensures Grows()
      ensures Valid() && Current() == NextTurn(rules, old(Current()), StepEnded(turn, step)) && End() == old(End())
      ensures log == old(log) + UsageEvents(usage) + [StepEnded(turn, step)]
      ensures log == old(log) + (if usage then [TokenUsage] else []) + [StepEnded(turn, step)]
    {
      hide Valid, Current, End;
      if usage {
        Append(TokenUsage);
      }
      Append(StepEnded(turn, step));
    }

    /** Hands the calls to the scheduler and asks the token once more. */
    method CallTools(step: nat, calls: seq<Call>)
      returns (results: seq<Result>, cancelled: bool, ghost committed: nat, ghost asked: nat)
      requires Valid() && Answered(Current())
      modifies `log, `state
      ensures Grows()
      ensures Valid() && results == SchedulerRun.Outcomes(world.schedule(step), calls, committed)
      ensures cancelled == world.schedule(step).cancelled(asked) && (!cancelled ==> committed == |calls|)
      ensures Current().Open? && Current().phase.Within? && Current() == OpenAs(old(Current()), Current().phase)
      ensures Current().phase.results == results && (!cancelled ==> Current().phase.calls == calls)
      ensures IsSchedule(world.schedule(step), calls, old(log), log)
    {
      hide PostedAt, Read, Scheduler.RespectsBound, Scheduler.AsksBeforeStarting, Scheduler.RespectsModes,
           Scheduler.Started, Scheduler.Running, Scheduler.Runnable, Scheduler.ExtendedBySchedule,
           Scheduler.ResultsIn, Scheduler.ContextsIn, Scheduler.RemindersOf, Scheduler.WaitsOnlyWhenFull,
           Scheduler.StartsEachOnce, Scheduler.StartsPermitted, SchedulerRun.Announced, SchedulerRun.Outcomes,
           SchedulerRun.ResultsAreDue, SchedulerRun.ExitSucceeded;
      state := CallingTool;
      var env := world.schedule(step);
      var aborted, schedule, polls;
      results, aborted, schedule, polls, committed := SchedulerRun.ExecuteToolCalls(env, calls, maxParallel, log);
      ScheduleIsLogged(env, calls, schedule.log, results, committed);
      assert IsScheduleOf(env, calls, log, schedule.log, results, committed);
      log := schedule.log;
      asked := polls;
      cancelled := env.cancelled(polls);
    }

    lemma ScheduleIsLogged(
      env: Scheduler.Environment, calls: seq<Call>, more: Log, results: seq<Result>, committed: nat)
      requires Valid() && Answered(Current())
      requires Scheduler.ExtendedBySchedule(log, more) && SchedulerRun.Announced(env, calls, log, more, committed)
      requires Scheduler.ResultsIn(more) == Scheduler.ResultsIn(log) + results
      ensures log <= more && PostedAt(more, base, consumed, places)
      ensures var before, after := Read(rules, base, log), Read(rules, base, more);
              && after.said == before.said && after.settled == before.settled && after.started == before.started
              && after.turn.Open? && after.turn.phase.Within? && after.turn == OpenAs(before.turn, after.turn.phase)
              && after.turn.phase.results == results
              && (committed == |calls| ==> after.turn.phase.calls == calls)
    {
      hide Read, NextLedger, PostedAt, MayContinue, MayStop, Scheduler.ResultsIn, Scheduler.CallsIn;
      var chunk := more[|log|..];
      assert more == log + chunk;
      PostedExtends(log, more, base, consumed, places);
      assert forall i :: 0 <= i < |chunk| ==> chunk[i] == more[|log| + i];
      ScheduleIsRead(rules, base, log, chunk);
      SchedulerRun.ProjectionsOfConcat(log, chunk);
      SameSuffix(Scheduler.ResultsIn(log), Scheduler.ResultsIn(chunk), results);
      if committed == |calls| {
        assert calls[..|calls|] == calls;
        SameSuffix(Scheduler.CallsIn(log), Scheduler.CallsIn(chunk), calls);
      }
    }

    // -------------------------------------------------------------------------
    // One turn
    // -------------------------------------------------------------------------

    /** Before step `stepNumber`. */
    ghost predicate AtStep(stepNumber: nat, nudged: bool, counters: Counters)
      reads `log, `inbox, `accepted, `consumed, `places, `settleGeneration, `owed, `compactions
    {
      && Valid() && Budgeted() && BetweenSteps(Current())
      && Current().steps + 1 == stepNumber && Current().nudged == nudged
      && Counts(rules, Current().history, counters) && counters.streak < STREAK_LIMIT
      && MayContinue(rules, Current().history)
    }

    /** A step that called no tools: an answer, a first non-action (nudged), or a second. */
    method Answer(turn: nat, step: nat, usage: bool, nudged: bool) returns (proceed: bool)
      requires Valid() && Responded(Current()) && Current().nudged == nudged
      modifies `log, `state, `settleGeneration
      ensures Grows()
      ensures Valid() && (proceed <==> world.nonAction(step) && !nudged)
      ensures proceed ==> Current() == old(Current()).(phase := Nudged, nudged := true)
      ensures !proceed ==> Ended()
      ensures log == old(log) + UsageEvents(usage)
                     + [StepEnded(turn, step),
                        if world.nonAction(step) then if nudged then TurnFailed(turn, StepLimitExceeded)
                                                      else UserMessage(NUDGE)
                        else TurnEnded(turn)]
    {
      hide Valid, Current, End, MayContinue;
      FinishStep(turn, step, usage);
      var nonAction := world.nonAction(step);
      if nonAction && !nudged {
        Append(UserMessage(NUDGE));
        return true;
      }
      if nonAction {
        Fail(turn, StepLimitExceeded, true);
        return false;
      }
      Conclude(TurnEnded(turn), Idle);
      return false;
    }

    /** A step that calls tools, and the budgets after it. */
    method Act(turn: nat, step: nat, calls: seq<Call>, usage: bool, counters: Counters)
      returns (proceed: bool, next: Counters, ghost cancelled: bool, ghost results: seq<Result>, ghost asked: nat,
        ghost scheduled: Log)
      requires Valid() && Answered(Current()) && calls != []
      requires Counts(rules, Current().history, counters) && counters.streak < STREAK_LIMIT
      modifies `log, `state, `settleGeneration
      ensures Grows()
      ensures Valid() && cancelled == world.schedule(step).cancelled(asked)
      ensures !cancelled ==> results == SchedulerRun.Outcomes(world.schedule(step), calls, |calls|)
      ensures var history := old(Current().history) + [ToolStepOf(rules, calls, results)];
              && (proceed <==> !cancelled && MayContinue(rules, history))
              && (proceed ==> Current() == old(Current()).(phase := Between(true), history := history)
                              && Counts(rules, history, next) && next.streak < STREAK_LIMIT)
      ensures !proceed ==> Ended()
      ensures old(log) <= scheduled && IsSchedule(world.schedule(step), calls, old(log), scheduled)
      ensures log == scheduled + UsageEvents(usage) + [StepEnded(turn, step)]
                     + if proceed then [] else [if cancelled then TurnCancelled(turn)
                                                else TurnFailed(turn, StepLimitExceeded)]
    {
      hide Valid, Current, End, MayContinue, Counts, ToolStepOf, SchedulerRun.Outcomes, IsSchedule, UsageEvents;
      ghost var history := Current().history;
      next := counters;
      var outcomes, stopped;
      ghost var committed;
      outcomes, stopped, committed, asked := CallTools(step, calls);
      OutcomePerCall(step, calls, committed);
      results, cancelled, scheduled := outcomes, stopped, log;
      FinishStep(turn, step, usage);
      if stopped {
        CancelAfterTools(turn);
        return false, next, cancelled, results, asked, scheduled;
      }
      proceed, next := CountToolStep(rules, counters, ToolStepOf(rules, calls, outcomes), history);
      if !proceed {
        Fail(turn, StepLimitExceeded, true);
      }
    }

    lemma OutcomePerCall(step: nat, calls: seq<Call>, committed: nat)
      ensures |SchedulerRun.Outcomes(world.schedule(step), calls, committed)| == |calls|
    {
    }

    /** What the turn carries on. */
    ghost function Made(): Progress
      reads `log, `compactions
    {
      if Current().Open? then Progress(compactions, Current().nudged, Current().history) else NOTHING_YET
    }

    /** `Act`, with what the token's answers come to. */
    method ActOn(turn: nat, step: nat, calls: seq<Call>, usage: bool, counters: Counters)
      returns (proceed: bool, next: Counters)
      requires Valid() && Budgeted() && Answered(Current()) && calls != []
      requires Counts(rules, Current().history, counters) && counters.streak < STREAK_LIMIT
      modifies `log, `state, `settleGeneration
      ensures Grows()
      ensures Valid() && (!proceed ==> Ended())
      ensures proceed ==> AtStep(old(Current().steps) + 1, old(Current().nudged), next)
      ensures proceed ==> CallsGoOn(rules, world, step, calls, old(Current().history))
      ensures proceed ==> Current().history == HistoryWith(rules, world, step, calls, old(Current().history))
      ensures !proceed ==> CallsEndAs(rules, world, step, calls, old(Current().history), turn, log)
      ensures CallsLogged(world, turn, step, calls, usage, old(log), log)
    {
      hide Valid, Current, End, MayContinue, Counts, ToolStepOf, SchedulerRun.Outcomes, IsSchedule, UsageEvents;
      ghost var cancelled, results, asked, scheduled;
      ghost var history := Current().history;
      proceed, next, cancelled, results, asked, scheduled := Act(turn, step, calls, usage, counters);
      TokenDecides(step, asked);
      ghost var ending := log[|log| - if proceed then 0 else 1..];
      assert CallsLoggedAs(world, turn, step, calls, usage, old(log), scheduled, ending, log);
    }

    lemma TokenDecides(step: nat, asked: nat)
      requires Valid()
      ensures world.schedule(step).cancelled(0) ==> world.schedule(step).cancelled(asked)
    {
      assert Scheduler.Monotone(world.schedule(step));
    }

    /** What the response leads to; `!proceed` when the turn has ended. */
    method Respond(turn: nat, step: nat, response: Response, nudged: bool, counters: Counters)
      returns (proceed: bool, nudgedNow: bool, next: Counters)
      requires Valid() && Budgeted() && Responded(Current()) && Current().nudged == nudged
      requires response.Completed? ==> Answered(Current())
      requires Counts(rules, Current().history, counters) && counters.streak < STREAK_LIMIT
      requires MayContinue(rules, Current().history)
      modifies `log, `state, `settleGeneration
      ensures Grows()
      ensures Valid() && (!proceed ==> Ended())
      ensures proceed ==> AtStep(old(Current().steps) + 1, nudgedNow, next)
      ensures proceed ==> ResponseGoesOn(rules, world, step, response, old(Made()))
      ensures proceed ==> Made() == WithResponse(rules, world, step, response, old(Made()), compactions)
      ensures !proceed ==> ResponseEndsAs(rules, world, step, response, old(Made()), turn, log)
      ensures ResponseLogged(world, turn, step, response, nudged, old(log), log)
    {
      hide Valid, Current, End, MayContinue, Counts, CallsGoOn, CallsEndAs, HistoryWith, CallsLogged, UsageEvents;
      proceed, nudgedNow, next := false, nudged, counters;
      match response {
        case StreamCancelled =>
          Conclude(TurnCancelled(turn), Idle);
        case StreamFailed(error) =>
          Fail(turn, FailureFor(error), false);
        case Completed(calls, usage) =>
          if calls == [] {
            proceed := Answer(turn, step, usage, nudged);
            nudgedNow := true;
          } else {
            proceed, next := ActOn(turn, step, calls, usage, counters);
          }
      }
    }

    /** The work of a step that has begun: the request, the attempts, and what they lead to. */
    method WorkOn(turn: nat, step: nat, nudged: bool, counters: Counters)
      returns (proceed: bool, nudgedNow: bool, next: Counters)
      requires Valid() && Budgeted() && Asking(Current(), 0) && Current().nudged == nudged
      requires Counts(rules, Current().history, counters) && counters.streak < STREAK_LIMIT
      requires MayContinue(rules, Current().history)
      modifies `log, `state, `compactions, `settleGeneration
      ensures Grows()
      ensures Valid() && (!proceed ==> Ended())
      ensures proceed ==> AtStep(old(Current().steps) + 1, nudgedNow, next)
      ensures proceed ==> GoesOn(rules, world, step, old(Made()))
      ensures proceed ==> Made() == AfterStep(rules, world, step, old(Made()))
      ensures !proceed ==> EndsAs(rules, world, step, old(Made()), turn, log)
      ensures WorkLogged(rules, world, turn, step, old(Made()), old(log), log)
    {
      hide Valid, Current, End, MayContinue, Counts, ResponseGoesOn, ResponseEndsAs, WithResponse, CanPrepare,
           CanConverse, Retries, ReplyTo, Spent, WithRetry, PreparationFailure, ConversationFailure, IsPreparation,
           IsConversation, WorkLogged, RequestLogged, ResponseLogged;
      proceed, nudgedNow, next := false, nudged, counters;
      ghost var before := Made();
      var ok := PrepareRequest(turn, step);
      if !ok {
        UnpreparedIsLogged(rules, world, turn, step, before, old(log), log);
        return;
      }
      ghost var prepared, spent := log, compactions;
      var response;
      ghost var last;
      response, ok, last := Converse(turn, step);
      if ok {
        ghost var conversed := log;
        ResponseFitsProgress(step, response, before);
        proceed, nudgedNow, next := Respond(turn, step, response, nudged, counters);
        ConversationIsLogged(rules, world, turn, step, before, spent, prepared, conversed, log);
      } else {
        UnansweredIsLogged(rules, world, turn, step, before, spent, prepared, log);
      }
      PreparedIsLogged(rules, world, turn, step, before, old(log), prepared, log);
    }

    /** One round of the step loop: what the oracles say of the step decides it. Behind its start
        the log holds exactly the items that led the inbox and fold, then the work of the step. */
    method RunStep(turn: nat, stepNumber: nat, nudged: bool, counters: Counters)
      returns (proceed: bool, nudgedNow: bool, next: Counters)
      requires AtStep(stepNumber, nudged, counters) && owed == [] && stepNumber <= rules.TurnCeiling()
      modifies this
      ensures Grows() && owed == [] && steps == old(steps) + 1 && turns == old(turns)
      ensures Valid() && Shrinks() && running == old(running)
      ensures !proceed ==> Ended()
      ensures proceed ==> AtStep(stepNumber + 1, nudgedNow, next)
      ensures proceed ==> GoesOn(rules, world, old(steps), old(Made()))
      ensures proceed ==> Made() == AfterStep(rules, world, old(steps), old(Made()))
      ensures !proceed ==> EndsAs(rules, world, old(steps), old(Made()), turn, log)
      ensures inbox == Unfolded(old(Seen()))
      ensures old(log) + OpeningEvents(world, turn, old(steps)) + AllPosts(Folded(old(Seen()))) <= log
      ensures StepLogged(rules, world, turn, old(steps), old(Made()), FoldedIn(old(Waiting()), maxInbox, 0),
                         old(log), log)
      ensures Waiting() == QueueAfter(old(Waiting()), maxInbox, 1)
    {
      OneLook(Waiting(), maxInbox);
      hide Valid, Current, End, MayContinue, Counts, GoesOn, EndsAs, AfterStep, Drained, Folds, WorkLogged,
           OpeningEvents, FoldedIn, QueueAfter, AllPosts, Folded, Unfolded, Admitted;
      var step;
      ghost var n;
      step, n := OpenStep(turn);
      proceed, nudgedNow, next := WorkOn(turn, step, nudged, counters);
    }

    /** Compactions do not decide what a response leads to. */
    lemma ResponseFitsProgress(step: nat, response: Response, progress: Progress)
      ensures forall n: nat ::
        ResponseGoesOn(rules, world, step, response, progress.(compactions := n))
        == ResponseGoesOn(rules, world, step, response, progress)
      ensures forall n: nat, turn: nat, log: Log ::
        ResponseEndsAs(rules, world, step, response, progress.(compactions := n), turn, log)
        == ResponseEndsAs(rules, world, step, response, progress, turn, log)
      ensures forall n: nat, m: nat ::
        WithResponse(rules, world, step, response, progress.(compactions := n), m)
        == WithResponse(rules, world, step, response, progress, m)
    {
    }

    method StopAtCeiling(turn: nat, ghost nudged: bool, ghost counters: Counters)
      requires AtStep(rules.TurnCeiling() + 1, nudged, counters)
      modifies `log, `state, `settleGeneration
      ensures Grows()
      ensures Valid() && Ended() && log == old(log) + [TurnFailed(turn, StepLimitExceeded)]
    {
      hide Valid, Current, End, MayContinue;
      Fail(turn, StepLimitExceeded, true);
    }

    /** `runTurn` from the step loop on. */
    method RunSteps(turn: nat)
      requires Valid() && owed == [] && Budgeted()
      requires Current() == Open(0, rules.compactionCap, false, [], Between(false))
      modifies this
      ensures Grows() && owed == [] && turns == old(turns)
      ensures Valid() && Shrinks() && Ended() && running == old(running)
      ensures old(steps) < steps && TurnComesTo(rules, world, turn, old(steps), steps - old(steps), log)
      ensures TurnLogged(rules, world, maxInbox, turn, old(steps), steps - old(steps), old(Waiting()), old(log), log)
      ensures Waiting() == QueueAfter(old(Waiting()), maxInbox, steps - old(steps))
    {
      hide Valid, Current, End, Ended, MayContinue, Counts, GoesOn, EndsAs, AllGoOn, AfterStep, ProgressAfter,
           TurnComesTo, StepLogged, StepsLogged, TurnLogged, QueueAfter, FoldedIn, Seen, Folded, Unfolded,
           OpeningEvents, AllPosts, AtStep, Made, Budgeted;
      var stepNumber: nat, nudged, counters, proceed := 1, false, NOTHING_COUNTED, true;
      StepsBegin();
      NoStepsYet(turn, steps, Waiting(), log);
      while proceed
        invariant Grows() && Valid() && running == old(running) && owed == [] && turns == old(turns)
        invariant || Shrinks()
                  || (proceed && stepNumber == 1 && unchanged(`arrivals, `inbox, `pendingFailure))
        invariant if proceed then AtStep(stepNumber, nudged, counters) else Ended()
        invariant 0 < stepNumber <= rules.TurnCeiling() + 1
        invariant proceed ==>
          && steps == old(steps) + stepNumber - 1 && AllGoOn(rules, world, old(steps), stepNumber - 1)
          && Made() == ProgressAfter(rules, world, old(steps), stepNumber - 1)
          && StepsLogged(rules, world, maxInbox, turn, old(steps), stepNumber - 1, old(Waiting()), old(log), log)
        invariant !proceed ==>
          && steps == old(steps) + stepNumber
          && TurnComesTo(rules, world, turn, old(steps), stepNumber, log)
          && TurnLogged(rules, world, maxInbox, turn, old(steps), stepNumber, old(Waiting()), old(log), log)
        invariant Waiting() == QueueAfter(old(Waiting()), maxInbox, steps - old(steps))
        decreases if proceed then rules.TurnCeiling() + 2 - stepNumber else 0
      {
        if stepNumber > rules.TurnCeiling() {
          CeilingLogged(rules, world, maxInbox, turn, old(steps), old(Waiting()), old(log), log);
          StopAtCeiling(turn, nudged, counters);
          CeilingEndsTurn(rules, world, turn, old(steps), log);
          return;
        }
        ghost var middle := log;
        QueueAfterMore(old(Waiting()), maxInbox, stepNumber - 1);
        proceed, nudged, counters := RunStep(turn, stepNumber, nudged, counters);
        OneMoreLogged(rules, world, maxInbox, turn, old(steps), stepNumber - 1, old(Waiting()), old(log), middle, log);
        if proceed {
          OneMoreGoesOn(rules, world, old(steps), stepNumber - 1);
          stepNumber := stepNumber + 1;
        } else {
          StepEndsTurn(rules, world, turn, old(steps), stepNumber - 1, log);
        }
      }
    }

    lemma StepsBegin()
      requires Valid() && Budgeted() && Current() == Open(0, rules.compactionCap, false, [], Between(false))
      ensures AtStep(1, false, NOTHING_COUNTED) && Made() == NOTHING_YET
    {
      hide Valid, Current, MayContinue, Counts;
      NothingCounted(rules);
    }

    lemma NoStepsYet(turn: nat, first: nat, queue: Queue, log: Log)
      ensures AllGoOn(rules, world, first, 0) && ProgressAfter(rules, world, first, 0) == NOTHING_YET
      ensures StepsLogged(rules, world, maxInbox, turn, first, 0, queue, log, log)
      ensures QueueAfter(queue, maxInbox, 0) == queue
    {
    }

    // -------------------------------------------------------------------------
    // Maintenance turns
    // -------------------------------------------------------------------------

    /** The start of a maintenance turn's one step; nothing is folded into it. */
    method OpenMaintenance(turn: nat) returns (step: nat)
      requires Valid() && Current() == Open(0, 1, false, [], Between(false))
      modifies `log, `state, `compactions, `steps
      ensures Grows() && step == old(steps) && steps == step + 1
      ensures Valid() && Asking(Current(), 0) && Current().compactions == 1
      ensures log == old(log) + OpeningEvents(world, turn, step)
    {
      NothingCounted(rules);
      hide Valid, Current, End, MayContinue, SelectionEvents;
      compactions := 0;
      step := steps;
      steps := steps + 1;
      Append(StepStarted(turn, step));
      CommitSelections(world.selection(step), world.modelSelection(step));
      state := Thinking;
      assert log == old(log) + OpeningEvents(world, turn, step);
    }

    /** What ends a maintenance turn. */
    function MaintenanceEnd(turn: nat, step: nat): Event {
      if world.contextMissing || world.assembly(step, 0).fails then TurnFailed(turn, ContextAssemblyFailed)
      else
        match world.maintenance(step)
        case CompactionCancelled => TurnCancelled(turn)
        case CompactionUnsuccessful => TurnFailed(turn, CompactionFailed)
        case _ => TurnEnded(turn)
    }

    /** What the compaction of a maintenance turn logs, its ending included. */
    function CompactionTurnEvents(turn: nat, step: nat): Log {
      var compaction := world.maintenance(step);
      CompactionEvents(compaction) +
      match compaction
      case CompactionCancelled => [TurnCancelled(turn)]
      case CompactionUnsuccessful => [TurnFailed(turn, CompactionFailed)]
      case _ => [StepEnded(turn, step), TurnEnded(turn)]
    }

    /** The step of a maintenance turn is pruned once, whatever becomes of it then. */
    lemma MaintenanceIsPruned(turn: nat, step: nat, before: Log, after: Log)
      requires MaintenanceLogged(turn, step, before, after)
      ensures world.contextMissing ==> after == before + OpeningEvents(world, turn, step)
                                                + [TurnFailed(turn, ContextAssemblyFailed)]
      ensures !world.contextMissing ==>
                exists pruned ::
                  && Pruner.PassedOnce(world.pruning, before + OpeningEvents(world, turn, step), pruned)
                  && if world.assembly(step, 0).fails then after == pruned + [TurnFailed(turn, ContextAssemblyFailed)]
                     else pruned <= after && |after| > |pruned|
    {
      hide OpeningEvents, Pruner.PassedOnce;
    }

    lemma MaintenanceTable(turn: nat, step: nat)
      ensures CompactionTurnEvents(turn, step) ==
              match world.maintenance(step)
              case CompactionCancelled => [TurnCancelled(turn)]
              case CompactionUnsuccessful => [TurnFailed(turn, CompactionFailed)]
              case NothingToDo => [StepEnded(turn, step), TurnEnded(turn)]
              case Compacted(usage) =>
                if usage then [ContextCompaction, TokenUsage, StepEnded(turn, step), TurnEnded(turn)]
                else [ContextCompaction, StepEnded(turn, step), TurnEnded(turn)]
    {
    }

    /** `runCompactionNow` and the end of the maintenance turn. */
    method CompactNow(turn: nat, step: nat)
      requires Valid() && Asking(Current(), 0) && Current().compactions == 1
      modifies `log, `state, `compactions, `settleGeneration
      ensures Grows()
      ensures Valid() && Ended() && log == old(log) + CompactionTurnEvents(turn, step)
    {
      hide Valid, Current, End, MayContinue, CompactionEvents, CompactionsIn;
      var compaction := world.maintenance(step);
      CommitCompaction(compaction);
      if compaction.CompactionCancelled? {
        Conclude(TurnCancelled(turn), Idle);
        return;
      }
      if compaction.CompactionUnsuccessful? {
        Fail(turn, CompactionFailed, false);
        return;
      }
      FinishStep(turn, step, false);
      Conclude(TurnEnded(turn), Idle);
    }

    /** A maintenance turn's one step, behind `before`. */
    ghost predicate MaintenanceLogged(turn: nat, step: nat, before: Log, after: Log) {
      var begun := before + OpeningEvents(world, turn, step);
      if world.contextMissing then after == begun + [TurnFailed(turn, ContextAssemblyFailed)]
      else
        exists pruned ::
          && Pruner.PassedOnce(world.pruning, begun, pruned)
          && after == pruned + if world.assembly(step, 0).fails then [TurnFailed(turn, ContextAssemblyFailed)]
                               else CompactionTurnEvents(turn, step)
    }

    /** A maintenance turn's one step. */
    method Maintain(turn: nat)
      requires Valid() && Current() == Open(0, 1, false, [], Between(false))
      modifies `log, `state, `compactions, `steps, `settleGeneration
      ensures Grows()
      ensures Valid() && Ended() && log[|log| - 1] == MaintenanceEnd(turn, old(steps)) && steps == old(steps) + 1
      ensures MaintenanceLogged(turn, old(steps), old(log), log)
    {
      hide Valid, Current, End, Pruner.PassedOnce, OpeningEvents;
      var step := OpenMaintenance(turn);
      if world.contextMissing {
        Fail(turn, ContextAssemblyFailed, false);
        return;
      }
      PruneLog();
      if world.assembly(step, 0).fails {
        Fail(turn, ContextAssemblyFailed, false);
        return;
      }
      CompactNow(turn, step);
    }

    // -------------------------------------------------------------------------
    // Serving the inbox
    // -------------------------------------------------------------------------

    method StartTurn(origin: TurnOrigin) returns (turn: nat)
      requires Valid() && Current().Closed? && owed == [origin]
      modifies `log, `turns, `owed
      ensures Grows()
      ensures turn == old(turns) && turns == turn + 1 && Valid() && owed == []
      ensures Current() == Open(0, CompactionsOf(rules, origin), false, [], Between(false))
      ensures log == old(log) + [TurnStarted(turn, origin)]
    {
      hide LastEnd, Read, NextLedger, PostedAt, SaidBy, TurnsFor;
      turn := turns;
      turns := turns + 1;
      ReadOneMore(rules, base, log, TurnStarted(turn, origin));
      StartIsRead(rules, Read(rules, base, log), TurnStarted(turn, origin));
      PostedStays(log, base, consumed, places, TurnStarted(turn, origin));
      log := log + [TurnStarted(turn, origin)];
      owed := [];
    }

    /** The selections still queued when turn number `turn` ends. */
    function Flushed(turn: nat): Log {
      SelectionEvents(world.flush(turn), world.modelFlush(turn))
    }

    /** A turn has been served: its ending, then what was flushed. */
    ghost predicate Served(turn: nat)
      reads `log, `state
    {
      && Current().Closed? && EndsTurn(log, Flushed(turn))
      && End() == Some(log[|log| - |Flushed(turn)| - 1]) && state == StateAfter(End().value)
    }

    method FlushSelections(turn: nat)
      requires Valid() && Ended()
      modifies `log
      ensures Grows()
      ensures Valid() && Served(turn) && log == old(log) + Flushed(turn)
      ensures log == old(log) + (if world.flush(turn).Some? then [PlanMode(world.flush(turn).value)] else [])
                     + if world.modelFlush(turn) then [ModelSelected] else []
    {
      hide Valid, Current, End;
      CommitSelections(world.flush(turn), world.modelFlush(turn));
    }

    /** What a snapshot shows. */
    ghost function Snap(): Snapshot
      reads `log, `inbox, `arrivals, `pendingFailure, `state, `turns, `steps
    {
      Snapshot(log, Waiting(), state.Errored?, turns, steps)
    }

    /** A compaction request is taken from the queue and served by a turn of its own. */
    ghost predicate CompactionServed(s: Snapshot, t: Snapshot) {
      && s.queue.inbox != [] && t.queue == s.queue.(inbox := s.queue.inbox[1..])
      && t.turns == s.turns + 1 && t.steps == s.steps + 1
      && exists ended :: CompactionServedVia(s, t, ended)
    }

    ghost predicate CompactionServedVia(s: Snapshot, t: Snapshot, ended: Log) {
      && MaintenanceLogged(s.turns, s.steps, s.log + [TurnStarted(s.turns, Maintenance)], ended)
      && t.log == ended + Flushed(s.turns) && ended != [] && (t.failed <==> Fails(ended[|ended| - 1]))
    }

    /** A compaction request leaves the queue, and its turn starts. */
    method OpenCompaction() returns (turn: nat)
      requires Valid() && owed == [] && Current().Closed? && inbox != [] && inbox[0].CompactionRequest?
      modifies `log, `inbox, `consumed, `places, `owed, `turns
      ensures Grows() && owed == [] && inbox == old(inbox)[1..] && |consumed| > |old(consumed)|
      ensures turn == old(turns) && turns == turn + 1
      ensures Valid() && Current() == Open(0, 1, false, [], Between(false))
      ensures log == old(log) + [TurnStarted(turn, Maintenance)]
    {
      hide Valid, Current, End, Posts;
      RequestLeavesNoTrace(inbox[0], log);
      var _ := Take();
      assert log == old(log);
      turn := StartTurn(Maintenance);
    }

    method ServeCompaction()
      requires Valid() && owed == [] && Current().Closed? && inbox != [] && inbox[0].CompactionRequest?
      modifies this
      ensures Grows() && owed == []
      ensures Valid() && Served(old(turns)) && running == old(running) && |consumed| > |old(consumed)|
      ensures arrivals == old(arrivals) && |inbox| < |old(inbox)| && pendingFailure == old(pendingFailure)
      ensures CompactionServed(old(Snap()), Snap())
    {
      hide Valid, Current, End, Ended, Served, MaintenanceLogged, Flushed, MaintenanceEnd, Fails, CompactionServed;
      var turn := OpenCompaction();
      Maintain(turn);
      ghost var ended := log;
      EndingDecides();
      FlushSelections(turn);
      CompactionIsServed(old(Snap()), Snap(), ended);
    }

    lemma CompactionIsServed(s: Snapshot, t: Snapshot, ended: Log)
      requires s.queue.inbox != [] && t.queue == s.queue.(inbox := s.queue.inbox[1..])
      requires t.turns == s.turns + 1 && t.steps == s.steps + 1
      requires MaintenanceLogged(s.turns, s.steps, s.log + [TurnStarted(s.turns, Maintenance)], ended)
      requires t.log == ended + Flushed(s.turns) && ended != [] && (t.failed <==> Fails(ended[|ended| - 1]))
      ensures CompactionServed(s, t)
    {
      hide MaintenanceLogged, Fails, Flushed;
      assert CompactionServedVia(s, t, ended);
    }

    lemma RequestLeavesNoTrace(item: InboxItem, before: Log)
      requires item.CompactionRequest?
      ensures before + Posts(item) == before
    {
    }

    method OpenTurn() returns (turn: nat)
      requires Valid() && owed == [] && Current().Closed?
      requires inbox != [] && !inbox[0].CompactionRequest? && !Folds(inbox[0])
      modifies `log, `inbox, `consumed, `places, `owed, `turns, `compactions
      ensures Grows() && owed == [] && inbox == old(inbox)[1..] && compactions == 0
      ensures turn == old(turns) && turns == turn + 1
      ensures consumed == old(consumed) + [old(inbox)[0]]
      ensures Valid() && Budgeted() && Current() == Open(0, rules.compactionCap, false, [], Between(false))
      ensures var trigger := old(inbox)[0];
              log == old(log) + (if trigger.Context? then [] else ContextEvents(world.opening(turn)))
                     + Posts(trigger) + [TurnStarted(turn, OriginOf(trigger))]
      ensures old(inbox)[0].Prompt? ==>
                log[|log| - 1] == TurnStarted(turn, if old(inbox)[0].followUp then FollowUp else User)
      ensures old(inbox)[0].Context? ==> log[|log| - 1] == TurnStarted(turn, Injection)
    {
      hide Valid, Current, End, Posts, Folds, TurnFor, OriginOf, ContextEvents;
      TriggersStartTurns(inbox[0]);
      if !inbox[0].Context? {
        AppendContexts(world.opening(turns));
      }
      var trigger := Take();
      turn := StartTurn(OriginOf(trigger));
      compactions := 0;
    }

    /** The log once the turn of `trigger` has started. */
    function TurnBegun(trigger: InboxItem, turn: nat, before: Log): Log {
      before + (if trigger.Context? then [] else ContextEvents(world.opening(turn)))
      + Posts(trigger) + [TurnStarted(turn, OriginOf(trigger))]
    }

    /** The ending alone decides whether the agent is left failed. */
    lemma EndingDecides()
      requires Ended()
      ensures log != [] && (state.Errored? <==> Fails(log[|log| - 1])) && (state.Errored? || state.Idle?)
    {
    }

    /** The first item in the queue is taken and served by a turn, which starts with that item,
        takes the steps its oracles dictate, folding what arrives, and ends as they dictate. */
    ghost predicate ItemServed(s: Snapshot, t: Snapshot) {
      && s.queue.inbox != [] && t.turns == s.turns + 1 && s.steps < t.steps
      && t.queue == QueueAfter(s.queue.(inbox := s.queue.inbox[1..]), maxInbox, t.steps - s.steps)
      && exists ended :: ItemServedVia(s, t, ended)
    }

    ghost predicate ItemServedVia(s: Snapshot, t: Snapshot, ended: Log)
      requires s.queue.inbox != [] && s.steps < t.steps
    {
      && TurnLogged(rules, world, maxInbox, s.turns, s.steps, t.steps - s.steps,
                    s.queue.(inbox := s.queue.inbox[1..]), TurnBegun(s.queue.inbox[0], s.turns, s.log), ended)
      && TurnComesTo(rules, world, s.turns, s.steps, t.steps - s.steps, ended)
      && t.log == ended + Flushed(s.turns) && ended != [] && (t.failed <==> Fails(ended[|ended| - 1]))
    }

    method ServeItem()
      requires Valid() && owed == [] && Current().Closed?
      requires inbox != [] && !inbox[0].CompactionRequest? && !Folds(inbox[0])
      modifies this
      ensures Grows() && owed == []
      ensures Valid() && Served(old(turns)) && running == old(running) && |consumed| > |old(consumed)|
      ensures |arrivals| < |old(arrivals)|
              || (arrivals == old(arrivals) && |inbox| < |old(inbox)| && pendingFailure == old(pendingFailure))
      ensures ItemServed(old(Snap()), Snap())
    {
      hide Valid, Read, End, Ended, Served, Posts, TurnComesTo, TurnLogged, QueueAfter, OriginOf, ContextEvents,
           Flushed, Fails;
      var turn := OpenTurn();
      RunSteps(turn);
      ghost var ended := log;
      EndingDecides();
      FlushSelections(turn);
      assert ItemServedVia(old(Snap()), Snap(), ended);
    }

    lemma TurnBeginsBehind(trigger: InboxItem, turn: nat, before: Log)
      ensures before <= TurnBegun(trigger, turn, before) && |TurnBegun(trigger, turn, before)| > |before|
    {
      hide Posts, ContextEvents, OriginOf;
    }

    /** A turn whose token is cancelled before its first tools start adds a late cancellation. */
    lemma LateTurnIsCounted(s: Snapshot, t: Snapshot)
      requires ItemServed(s, t) && IsCancelledLate(rules, world, s.steps, 0)
      requires base <= |s.log| && t.log <= log
      ensures LateCancels(log, base) > LateCancels(s.log, base)
    {
      hide TurnComesTo, TurnLogged, QueueAfter, TurnBegun, IsCancelledLate, Flushed, Fails;
      TurnBeginsBehind(s.queue.inbox[0], s.turns, s.log);
      var ended :| ItemServedVia(s, t, ended);
      TurnGrows(rules, world, maxInbox, s.turns, s.steps, t.steps - s.steps,
                s.queue.(inbox := s.queue.inbox[1..]), TurnBegun(s.queue.inbox[0], s.turns, s.log), ended);
      LateTurn(rules, world, s.turns, s.steps, t.steps - s.steps, ended);
      LateCancelsStay(s.log, ended[..|ended| - 1], base);
      LateCancelsStay(ended, log, base);
    }

    /** The inbox is looked at: what finds room joins it, and a failed agent that accepts an
        item has not failed any more. */
    function AfterLook(s: Snapshot): Snapshot {
      s.(queue := Looked(s.queue, maxInbox),
         failed := s.failed && Admitted(s.queue.inbox, NextBatch(s.queue.arrivals), maxInbox) == [])
    }

    /** What folds at the head of the inbox is logged. */
    function AfterFolding(s: Snapshot): Snapshot {
      s.(log := s.log + AllPosts(Folded(s.queue.inbox)), queue := s.queue.(inbox := Unfolded(s.queue.inbox)))
    }

    lemma LookThenFold(s: Snapshot)
      ensures AfterFolding(AfterLook(s)) ==
              Snapshot(s.log + AllPosts(FoldedIn(s.queue, maxInbox, 0)), QueueAfter(s.queue, maxInbox, 1),
                       s.failed && Admitted(s.queue.inbox, NextBatch(s.queue.arrivals), maxInbox) == [],
                       s.turns, s.steps)
    {
      hide Looked, LeadingFolds, AllPosts;
      assert QueueAfter(s.queue, maxInbox, 0) == s.queue;
    }

    /** One call of `runTurn`: it looks, folds, and serves the first item that is left, if any. */
    ghost predicate TurnServed(s: Snapshot, t: Snapshot) {
      var folded := AfterFolding(AfterLook(s));
      if folded.queue.inbox == [] then t == folded
      else if folded.queue.inbox[0].CompactionRequest? then CompactionServed(folded, t)
      else ItemServed(folded, t)
    }

    /** `runTurn`. Items that only fold are logged and, alone, start no turn. */
    method RunTurn()
      requires Valid() && owed == [] && Current().Closed? && inbox != [] && Explained()
      modifies this
      ensures Grows() && owed == []
      ensures Valid() && Current().Closed? && running == old(running) && Explained() && |consumed| > |old(consumed)|
      ensures || |arrivals| < |old(arrivals)|
              || (old(arrivals) == [] && arrivals == []
                  && |inbox| < |old(inbox)| && pendingFailure == old(pendingFailure))
      ensures old(arrivals) == [] && AllFold(old(inbox)) ==>
                log == old(log) + AllPosts(old(inbox)) && inbox == [] && state == old(state)
      ensures TurnServed(old(Snap()), Snap())
    {
      hide Valid, Current, End, Folds, AllPosts, AllFold, Admitted, RefusesCompaction, Drained, Served,
           CompactionServed, ItemServed, LeadingFolds, QueueAfter, FoldedIn, Folded, Unfolded, AfterLook, AfterFolding;
      NothingArrives(inbox, [], maxInbox);
      LookThenFold(Snap());
      ghost var n := FoldArrivals();
      DrainStops(old(Seen()), inbox, old(log), log, n);
      if inbox == [] {
        return;
      }
      if inbox[0].CompactionRequest? {
        ServeCompaction();
      } else {
        ServeItem();
      }
      ServedIsExplained(old(turns));
    }

    lemma ServedIsExplained(turn: nat)
      requires Served(turn)
      ensures Explained() && Current().Closed?
    {
    }

    // -------------------------------------------------------------------------
    // The loop and its callers
    // -------------------------------------------------------------------------

    function Rejection(turn: nat): Log {
      [TurnStarted(turn, Maintenance), TurnFailed(turn, InboxFull)]
    }

    /** A turn only to say that a compaction request found the inbox full. */
    method RejectCompaction()
      requires Valid() && owed == [] && Current().Closed?
      modifies `log, `state, `turns, `settleGeneration
      ensures Grows()
      ensures Valid() && Current().Closed? && state == Errored && Explained()
      ensures log == old(log) + Rejection(old(turns)) && settleGeneration == old(settleGeneration) + 1
      ensures turns == old(turns) + 1
      ensures log == old(log) + [TurnStarted(old(turns), Maintenance)] + [TurnFailed(old(turns), InboxFull)]
    {
      hide PostedAt, TurnsFor, SaidBy, Read, NextLedger, LastEnd;
      var turn := turns;
      turns := turns + 1;
      var started, failed := TurnStarted(turn, Maintenance), TurnFailed(turn, InboxFull);
      ReadOneMore(rules, base, log, started);
      PostedStays(log, base, consumed, places, started);
      ReadOneMore(rules, base, log + [started], failed);
      RejectionIsRead(rules, Read(rules, base, log), started, failed);
      PostedStays(log + [started], base, consumed, places, failed);
      LastEndOneMore(log + [started], base, failed);
      log := log + [started];
      log := log + [failed];
      state := Errored;
      settleGeneration := settleGeneration + 1;
    }

    /** Between two rounds of the loop. */
    ghost predicate Resting()
      reads `log, `inbox, `accepted, `consumed, `places, `settleGeneration, `owed, `state
    {
      Valid() && owed == [] && Current().Closed? && Explained()
    }

    /** Between two calls from outside. */
    ghost predicate AtRest()
      reads `log, `inbox, `accepted, `consumed, `places, `settleGeneration, `owed, `state, `running, `pendingFailure
    {
      Resting() && !running && !pendingFailure
    }

    /** Failed with a full inbox. */
    predicate Wedged()
      reads `inbox, `state, `running, `pendingFailure
    {
      !running && state.Errored? && |inbox| == maxInbox && !pendingFailure
    }

    /** A compaction request is refused next, or the inbox is full and the agent failed or
        about to record such a refusal. */
    predicate Doomed()
      reads `inbox, `state, `pendingFailure, `arrivals
    {
      || RefusesCompaction(inbox, NextBatch(arrivals), maxInbox)
      || (|inbox| >= maxInbox && (state.Errored? || pendingFailure))
    }

    /** Nothing is in the way of the items in the inbox. */
    predicate Healthy()
      reads `inbox, `state, `pendingFailure, `arrivals
    {
      !state.Errored? && !pendingFailure && !RefusesCompaction(inbox, NextBatch(arrivals), maxInbox)
    }

    /** One round of `activate`: a refusal is recorded first, a failed agent and one that nothing
        wakes rest, and otherwise a turn is run. */
    ghost predicate RoundTaken(s: Snapshot, t: Snapshot, again: bool) {
      var looked := AfterLook(s);
      && s.log <= t.log
      && if looked.queue.refused then
           && again && t.log == s.log + Rejection(s.turns) && t.queue == looked.queue.(refused := false)
           && t.failed && t.turns == s.turns + 1 && t.steps == s.steps
         else if !AnyWakes(looked.queue.inbox) || looked.failed then !again && t == looked
         else again && TurnServed(looked, t)
    }

    /** Rounds from `s` on, and the one with which the loop rests. */
    ghost predicate IsTrail(s: Snapshot, trail: seq<Snapshot>, t: Snapshot) {
      && Rounds(s, trail) && RoundTaken(trail[|trail| - 1], t, false)
    }

    ghost predicate Rounds(s: Snapshot, trail: seq<Snapshot>) {
      && trail != [] && trail[0] == s
      && forall k {:trigger trail[k]} :: 0 < k < |trail| ==> RoundTaken(trail[k - 1], trail[k], true)
    }

    ghost predicate Activated(s: Snapshot, t: Snapshot) {
      exists trail :: IsTrail(s, trail, t)
    }

    /** When an item wakes the loop and nothing is in its way, a turn is run at once. */
    lemma FirstRoundServes(s: Snapshot, t: Snapshot) returns (first: Snapshot)
      requires Activated(s, t)
      requires var looked := AfterLook(s); !looked.queue.refused && !looked.failed && AnyWakes(looked.queue.inbox)
      ensures TurnServed(AfterLook(s), first) && s.log <= first.log <= t.log
    {
      hide AfterLook, TurnServed, AnyWakes;
      var trail :| IsTrail(s, trail, t);
      first := trail[1];
      assert RoundTaken(trail[0], trail[1], true);
      RoundsGrow(s, trail, t, 1);
    }

    lemma {:induction false} RoundsGrow(s: Snapshot, trail: seq<Snapshot>, t: Snapshot, k: nat)
      requires IsTrail(s, trail, t) && k < |trail|
      ensures trail[k].log <= t.log
      decreases |trail| - k
    {
      hide AfterLook, TurnServed, AnyWakes;
      if k + 1 < |trail| {
        RoundsGrow(s, trail, t, k + 1);
        assert RoundTaken(trail[k + 1 - 1], trail[k + 1], true);
      }
    }

    lemma NoRoundYet(s: Snapshot)
      ensures Rounds(s, [s])
    {
    }

    lemma OneMoreRound(s: Snapshot, trail: seq<Snapshot>, t: Snapshot)
      requires Rounds(s, trail) && RoundTaken(trail[|trail| - 1], t, true)
      ensures Rounds(s, trail + [t])
    {
      hide RoundTaken;
      var more := trail + [t];
      forall k | 0 < k < |more| ensures RoundTaken(more[k - 1], more[k], true) {
        assert k < |trail| ==> more[k - 1] == trail[k - 1] && more[k] == trail[k];
      }
    }

    lemma FullStaysFull()
      requires |inbox| >= maxInbox
      ensures Seen() == inbox && (state.Errored? ==> Doomed())
    {
      FullAdmitsNothing(inbox, NextBatch(arrivals), maxInbox);
    }

    lemma InboxIsBounded()
      requires Resting()
      ensures |inbox| <= maxInbox
    {
    }

    /** The loop looks at its inbox, where a batch may have arrived. */
    method LookForWork() returns (any: bool)
      requires Resting()
      modifies `inbox, `state, `accepted, `arrivals, `pendingFailure
      ensures Grows() && Resting() && (any <==> AnyWakes(inbox) || pendingFailure)
      ensures || |arrivals| < |old(arrivals)|
              || (old(arrivals) == [] && unchanged(`inbox, `state, `accepted, `arrivals, `pendingFailure))
      ensures old(Doomed()) ==> |inbox| == maxInbox && inbox == old(Seen()) && (state.Errored? || pendingFailure)
      ensures old(Healthy() && AnyWakes(inbox)) ==> any && !pendingFailure && !state.Errored?
      ensures state.Errored? ==> old(state).Errored?
      ensures Snap() == AfterLook(old(Snap()))
    {
      hide Valid, Current, End, AnyWakes, Wakes, Admitted, RefusesCompaction;
      InboxIsBounded();
      RefusalFills(inbox, NextBatch(arrivals), maxInbox);
      NothingArrives(inbox, [], maxInbox);
      assert accepted + [] == accepted;
      Receive();
      if old(AnyWakes(inbox)) {
        MoreStillWakes(old(inbox), inbox);
      }
      any := HasTurnTrigger();
    }

    /** One round of `activate`; `!again` when the loop rests. */
    method Round() returns (again: bool)
      requires Resting()
      modifies this
      ensures Grows() && Resting() && running == old(running)
      ensures again ==>
        || |arrivals| < |old(arrivals)|
        || (arrivals == old(arrivals) && |inbox| < |old(inbox)|)
        || (arrivals == old(arrivals) && |inbox| == |old(inbox)| && old(pendingFailure) && !pendingFailure)
      ensures old(arrivals) == [] ==> arrivals == []
      ensures !again ==> !pendingFailure && log == old(log) && consumed == old(consumed)
      ensures !again ==> if state.Errored? then old(state).Errored? else !AnyWakes(inbox)
      ensures old(Doomed()) ==>
                && state.Errored? && |inbox| == maxInbox && !pendingFailure
                && inbox == old(Seen()) && consumed == old(consumed)
      ensures old(Healthy() && AnyWakes(inbox)) ==> again && |consumed| > |old(consumed)|
      ensures old(arrivals == [] && pendingFailure) ==> log == old(log) + Rejection(old(turns))
      ensures old(arrivals == [] && !state.Errored? && !pendingFailure && AllFold(inbox)) ==>
                && arrivals == [] && !pendingFailure && state == old(state)
                && if AnyWakes(old(inbox)) then log == old(log) + AllPosts(old(inbox)) && inbox == []
                   else log == old(log) && inbox == old(inbox)
      ensures RoundTaken(old(Snap()), Snap(), again)
    {
      hide Valid, Current, End, AllFold, AnyWakes, AllPosts, Folds, Seen, Rejection, AfterLook, TurnServed;
      var any := LookForWork();
      if !any {
        return false;
      }
      if pendingFailure {
        pendingFailure := false;
        RejectCompaction();
        return true;
      }
      if state == Errored {
        return false;
      }
      AWakingItemIsThere(inbox);
      RunTurn();
      return true;
    }

    /** `activate`, for an agent at rest but for a failure to record. It ends: each round
        receives a batch, uses an item or drops the pending failure. */
    method Activate()
      requires Resting() && !running
      modifies this
      ensures Grows() && AtRest()
      ensures state.Errored? || (state.Idle? && !AnyWakes(inbox))
      ensures old(Doomed()) ==> Wedged() && inbox == old(Seen()) && consumed == old(consumed)
      ensures old(Healthy() && AnyWakes(inbox)) ==> |consumed| > |old(consumed)|
      ensures old(Doomed() && arrivals == []) ==>
                log == old(log) + if old(pendingFailure) then Rejection(old(turns)) else []
      ensures old(arrivals == [] && !state.Errored? && !pendingFailure && AllFold(inbox) && AnyWakes(inbox)) ==>
                log == old(log) + AllPosts(old(inbox)) && inbox == [] && state.Idle?
      ensures Activated(old(Snap()), Snap())
    {
      hide Valid, Current, End, AllFold, AnyWakes, AllPosts, Folds, Admitted, Healthy, Rejection, RoundTaken, Rounds,
           Snap, Seen, Doomed;
      ghost var rounds, trail := 0, [Snap()];
      NoRoundYet(Snap());
      running := true;
      var again := true;
      NothingWakes();
      while again
        invariant Grows() && Resting()
        invariant rounds == 0 ==>
          again && unchanged(`log, `inbox, `state, `pendingFailure, `arrivals, `steps, `turns, `accepted, `consumed)
        invariant !again ==> !pendingFailure && (state.Errored? || !AnyWakes(inbox))
        invariant rounds > 0 && old(Doomed()) ==>
          state.Errored? && |inbox| == maxInbox && !pendingFailure && inbox == old(Seen()) && consumed == old(consumed)
        invariant rounds > 0 && old(Healthy() && AnyWakes(inbox)) ==> |consumed| > |old(consumed)|
        invariant rounds > 0 && old(Doomed() && arrivals == []) ==>
          arrivals == [] && log == old(log) + if old(pendingFailure) then Rejection(old(turns)) else []
        invariant old(arrivals == [] && !state.Errored? && !pendingFailure && AllFold(inbox) && AnyWakes(inbox)) ==>
          && arrivals == [] && !pendingFailure && !state.Errored?
          && (rounds > 0 ==> inbox == [] && log == old(log) + AllPosts(old(inbox)))
        invariant trail != [] && Rounds(old(Snap()), trail) && (again ==> trail[|trail| - 1] == Snap())
        invariant !again ==> IsTrail(old(Snap()), trail, Snap())
        decreases again, |arrivals|, |inbox|, pendingFailure
      {
        if |inbox| >= maxInbox {
          FullStaysFull();
        }
        again := Round();
        if again {
          OneMoreRound(old(Snap()), trail, Snap());
          trail := trail + [Snap()];
        }
        rounds := rounds + 1;
      }
      Rest();
    }

    /** The loop stops running. */
    method Rest()
      requires Resting() && !pendingFailure
      modifies `running, `state
      ensures AtRest() && Snap() == old(Snap()) && state == if old(state).Errored? then Errored else Idle
    {
      hide Valid, Current, End;
      running := false;
      if state != Errored {
        state := Idle;
      }
    }

    /** `enqueue`, for an agent at rest, failed or not. With room, a waking item gets an item
        used exactly when no compaction request is refused first; otherwise the agent is
        wedged. A steering message alone is logged and starts no turn. */
    method Enqueue(item: InboxItem) returns (ok: bool)
      requires AtRest()
      modifies this
      ensures Grows() && AtRest() && (ok <==> old(|inbox|) < maxInbox)
      ensures ok ==> old(accepted) + [item] <= accepted
      ensures !ok ==> unchanged(this)
      ensures ok ==> state.Errored? || (state.Idle? && !AnyWakes(inbox))
      ensures ok && Wakes(item) ==>
        (|consumed| > |old(consumed)| <==> !RefusesCompaction(old(inbox) + [item], NextBatch(old(arrivals)), maxInbox))
      ensures ok && RefusesCompaction(old(inbox) + [item], NextBatch(old(arrivals)), maxInbox) ==>
        Wedged() && consumed == old(consumed)
      ensures ok && old(arrivals) == [] && old(inbox) == [] && item.Steering? ==>
                log == old(log) + [UserMessage(item.message)] && inbox == [] && state.Idle?
      ensures ok ==> Activated(old(Snap()).(queue := Queue(old(inbox) + [item], old(arrivals), false), failed := false),
                               Snap())
    {
      hide Valid, Current, End, AllFold, AnyWakes, AllPosts, Admitted, RefusesCompaction, Activated, Wakes, Folds,
           Rejection, Snap;
      ok := Accept(item);
      if !ok {
        return;
      }
      NothingArrives(inbox, [], maxInbox);
      if Wakes(item) {
        OneWakes(old(inbox), item);
      }
      if item.Steering? {
        SteeringAlone(item);
      }
      assert old(inbox) == [] ==> inbox == [item];
      Activate();
    }

    /** `requestCompaction`, for an agent at rest: queued, or recorded as a failed maintenance
        turn when the inbox is full, which leaves the agent wedged. */
    method RequestCompaction() returns (ok: bool)
      requires AtRest()
      modifies this
      ensures Grows() && AtRest() && (ok <==> old(|inbox|) < maxInbox)
      ensures ok ==> old(accepted) + [CompactionRequest] <= accepted
      ensures ok ==>
        (|consumed| > |old(consumed)|
         <==> !RefusesCompaction(old(inbox) + [CompactionRequest], NextBatch(old(arrivals)), maxInbox))
      ensures !ok ==> Wedged() && inbox == old(inbox) && consumed == old(consumed)
      ensures !ok && old(arrivals) == [] ==> log == old(log) + Rejection(old(turns))
      ensures Activated(old(Snap()).(queue := Queue(if ok then old(inbox) + [CompactionRequest] else old(inbox),
                                                    old(arrivals), !ok), failed := false),
                        Snap())
    {
      hide Valid, Current, End, AllFold, AllPosts, AnyWakes, Admitted, RefusesCompaction, Activated, Folds, Rejection;
      if |inbox| >= maxInbox {
        FullAdmitsNothing(inbox, NextBatch(arrivals), maxInbox);
        pendingFailure := true;
        if state == Errored {
          state := Idle;
        }
        Activate();
        return false;
      }
      ok := Enqueue(CompactionRequest);
    }

    // -------------------------------------------------------------------------
    // Every run
    // -------------------------------------------------------------------------

    /** What one call from outside comes to, for an agent at rest. */
    ghost predicate Handled(request: Request, s: Snapshot, t: Snapshot) {
      var full := |s.queue.inbox| >= maxInbox;
      match request
      case Send(item) =>
        if full then t == s
        else Activated(s.(queue := s.queue.(inbox := s.queue.inbox + [item]), failed := false), t)
      case Compact =>
        Activated(s.(queue := if full then s.queue.(refused := true)
                              else s.queue.(inbox := s.queue.inbox + [CompactionRequest]), failed := false), t)
      case Run => Activated(s, t)
    }

    ghost predicate HandledAll(requests: seq<Request>, states: seq<Snapshot>) {
      && |states| == |requests| + 1
      && forall i {:trigger requests[i]} :: 0 <= i < |requests| ==> Handled(requests[i], states[i], states[i + 1])
    }

    lemma NothingHandled(s: Snapshot)
      ensures HandledAll([], [s])
    {
    }

    lemma OneMoreHandled(requests: seq<Request>, request: Request, states: seq<Snapshot>, t: Snapshot)
      requires HandledAll(requests, states) && Handled(request, states[|requests|], t)
      ensures HandledAll(requests + [request], states + [t])
    {
      hide Handled;
      var all, more := requests + [request], states + [t];
      forall i | 0 <= i < |all| ensures Handled(all[i], more[i], more[i + 1]) {
        assert more[i] == states[i];
        assert i < |requests| ==> all[i] == requests[i] && more[i + 1] == states[i + 1];
      }
    }

    /** Any calls, in any order: the log stays within the grammar, what was accepted is
        used in order or still queued, and a wedged agent stays wedged whatever arrives. */
    method Serve(requests: seq<Request>)
      requires AtRest()
      modifies this
      ensures Grows() && AtRest() && Accepted(rules, base, log)
      ensures old(Wedged()) ==>
                Wedged() && inbox == old(inbox) && accepted == old(accepted) && consumed == old(consumed)
      ensures exists states :: HandledAll(requests, states) && states[0] == old(Snap()) && states[|requests|] == Snap()
    {
      hide Valid, Current, End, AllFold, AllPosts, AnyWakes, Admitted, Activated, Folds, Wakes, Rejection, HandledAll;
      RestingIsAccepted();
      ghost var states := [Snap()];
      NothingHandled(Snap());
      assert requests[..0] == [];
      for i := 0 to |requests|
        invariant Grows() && AtRest()
        invariant HandledAll(requests[..i], states) && |states| == i + 1
        invariant states[0] == old(Snap()) && states[i] == Snap()
        invariant old(Wedged()) ==> Wedged() && inbox == old(inbox) && consumed == old(consumed)
      {
        if |inbox| >= maxInbox {
          FullAdmitsNothing(inbox, NextBatch(arrivals), maxInbox);
        }
        match requests[i] {
          case Send(item) => var _ := Enqueue(item);
          case Compact => var _ := RequestCompaction();
          case Run => Activate();
        }
        OneMoreHandled(requests[..i], requests[i], states, Snap());
        states := states + [Snap()];
        assert requests[..i + 1] == requests[..i] + [requests[i]];
      }
      assert requests[..|requests|] == requests;
      RestingIsAccepted();
    }

    lemma RestingIsAccepted()
      requires Resting()
      ensures Valid() && Accepted(rules, base, log) && accepted == consumed + inbox
    {
    }

    /** The settle generation is short of the turns that ended by the late cancellations,
        and agrees with them exactly when there is none. */
    lemma SettleGenerationMissesLateCancels()
      requires Valid() && Accepted(rules, base, log)
      ensures Terminals(log, base) == settleGeneration + LateCancels(log, base)
      ensures Terminals(log, base) == settleGeneration <==> LateCancels(log, base) == 0
    {
      SettledMissesLateCancels(rules, base, log);
    }
  }

  // ---------------------------------------------------------------------------
  // Two agents
  // ---------------------------------------------------------------------------

  /** An inbox for one item, and a compaction request while it waits: a wedged agent. */
  method WedgeIsReached(rules: Rules, world: World, message: Message) returns (agent: AgentLoop)
    requires forall step: nat :: Scheduler.Monotone(world.schedule(step))
    ensures fresh(agent) && agent.AtRest() && agent.Wedged() && agent.inbox == [Prompt(false, message)]
  {
    var prompt := Prompt(false, message);
    agent := new AgentLoop(rules, 1, 1, world, [], [[CompactionRequest]]);
    FullAdmitsNothing([prompt], [CompactionRequest], 1);
    assert [] + [prompt] == [prompt];
    var _ := agent.Enqueue(prompt);
  }

  /** A provider that asks for one tool, and a token that is cancelled by then. */
  function CancelledAtOnce(): World {
    World(
      Pruner.Config(0, 0, 0, []), false, false, false,
      turn => [], step => [], step => None, step => false, turn => None, turn => false,
      (step, occasion) => Assembly([], false), (step, occasion) => false, step => false,
      (step, occasion) => NothingToDo, step => NothingToDo,
      (step, attempt) => true, (step, attempt) => Settled(Completed([Call([], [], [])], false)), step => false,
      step => Scheduler.Environment(
          name => false, arguments => false, i => false, i => true,
          i => Result([], [], Ok, []), i => None, k => true))
  }

  lemma CancelledAtOnceIsLate(rules: Rules)
    ensures IsCancelledLate(rules, CancelledAtOnce(), 0, 0)
    ensures forall step: nat :: Scheduler.Monotone(CancelledAtOnce().schedule(step))
  {
  }

  /** A turn cancelled before its first tool starts ends without being counted as settled. */
  method LateCancelIsReached(rules: Rules, message: Message) returns (agent: AgentLoop)
    ensures fresh(agent) && agent.AtRest() && Terminals(agent.log, agent.base) > agent.settleGeneration
  {
    CancelledAtOnceIsLate(rules);
    hide CancelledAtOnce, IsCancelledLate, LateCancels, Terminals, Accepted, AgentLoop.Activated, AgentLoop.Resting,
         AgentLoop.Valid, AgentLoop.ItemServed, AgentLoop.TurnServed,
         AgentLoop.Current, AgentLoop.End, AllFold, AnyWakes, Admitted, RefusesCompaction, AgentLoop.Wedged;
    var prompt := Prompt(false, message);
    agent := new AgentLoop(rules, 1, 1, CancelledAtOnce(), [], []);
    var ok := agent.Enqueue(prompt);
    ghost var start := Snapshot([], Queue([prompt], [], false), false, 0, 0);
    assert [] + [prompt] == [prompt];
    PromptIsNext(agent, start, prompt);
    ghost var first := agent.FirstRoundServes(start, agent.Snap());
    PromptIsServed(agent, start, first, prompt);
    agent.RestingIsAccepted();
    agent.LateTurnIsCounted(start, first);
    agent.SettleGenerationMissesLateCancels();
  }

  lemma PromptIsNext(agent: AgentLoop, start: Snapshot, prompt: InboxItem)
    requires prompt.Prompt? && start.queue == Queue([prompt], [], false)
    ensures agent.AfterLook(start) == start.(failed := start.failed)
    ensures AnyWakes([prompt])
  {
    NothingArrives([prompt], [], agent.maxInbox);
    assert Wakes([prompt][0]);
  }

  lemma PromptIsServed(agent: AgentLoop, start: Snapshot, first: Snapshot, prompt: InboxItem)
    requires prompt.Prompt? && start.queue == Queue([prompt], [], false) && agent.TurnServed(start, first)
    ensures agent.ItemServed(start, first)
  {
    hide AgentLoop.ItemServed, AgentLoop.CompactionServed;
    PromptIsNext(agent, start, prompt);
    assert !Folds([prompt][0]);
    assert start.log + [] == start.log;
  }
}
