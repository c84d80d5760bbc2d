/** Every run of goal operations, turn ends, offered rounds, unrelated events and
    restarts keeps the projection from failing. */
module GoalRuns {
  import opened Wrappers
  import opened SessionLog
  import opened GoalProjection
  import opened GoalService

  // ---------------------------------------------------------------------------
  // Runs
  // ---------------------------------------------------------------------------

  datatype Action =
    | Operate(request: Request)
    | DisarmSession
    | EndTurn(accepted: bool)
    | OfferRound(round: GoalRoundRef, text: Text)
    | AppendOther(event: Event)
    | Restart

  /** Events of other kinds may enter the log at any time. */
  predicate IsPossible(action: Action) {
    action.AppendOther? ==> !IsGoalEvent(action.event)
  }

  ghost function After(state: State, action: Action, defaultMaxRounds: nat): State {
    match action
    case Operate(request) => Performed(state, request, defaultMaxRounds)
    case DisarmSession => state.(armed := false)
    case EndTurn(accepted) => AfterTurnEnd(state, accepted)
    case OfferRound(round, text) => RoundOffered(state, round, text).0
    case AppendOther(event) => state.(log := state.log + [event])
    case Restart => State(state.log, false, None)
  }

  ghost function Run(actions: seq<Action>, defaultMaxRounds: nat): State {
    if actions == [] then State([], false, None)
    else After(Run(actions[..|actions| - 1], defaultMaxRounds), actions[|actions| - 1], defaultMaxRounds)
  }

  // ---------------------------------------------------------------------------
  // The invariant
  // ---------------------------------------------------------------------------

  /** The rounds of a goal are 1, 2, .., n. */
  function UpTo(n: nat): seq<nat> {
    seq(n, i requires 0 <= i => i + 1)
  }

  ghost predicate RoundsCountUp(log: Log) {
    forall goal :: RoundsOf(log, goal) == UpTo(|RoundsOf(log, goal)|)
  }

  ghost predicate CurrentRoundsLogged(log: Log, fold: Fold) {
    fold.current.Some? ==> RoundsOf(log, fold.current.value.goal.id) == UpTo(fold.current.value.rounds)
  }

  /** Only goals already seen have rounds, and every id was created at most once. */
  ghost predicate IdsAreFresh(log: Log, fold: Fold)
  {
    && (forall goal :: goal !in fold.seen ==> RoundsOf(log, goal) == [])
    && (forall i, j :: 0 <= i < j < |CreatedIds(log)| ==> CreatedIds(log)[i] != CreatedIds(log)[j])
    && (forall goal :: goal in CreatedIds(log) ==> goal in fold.seen)
    && (fold.current.Some? ==> fold.current.value.goal.id in fold.seen)
  }

  /** No snapshot of the current goal is ahead of its revision, and none at its
      revision disagrees about the cap; snapshots of unseen goals do not exist. */
  ghost predicate SnapshotIsOld(snapshot: GoalSnapshot, fold: Fold)
  {
    && snapshot.id in fold.seen
    && (fold.current.Some? && fold.current.value.goal.id == snapshot.id ==>
          && snapshot.revision <= fold.current.value.goal.revision
          && (snapshot.revision == fold.current.value.goal.revision ==>
                snapshot.maxRounds == fold.current.value.goal.maxRounds))
  }

  ghost predicate SnapshotsAreOld(log: Log, fold: Fold) {
    forall i :: 0 <= i < |log| && HasSnapshot(log[i]) ==> SnapshotIsOld(log[i].change.goal.value, fold)
  }

  /** A queued round stays within the cap of the revision it was planned for. */
  ghost predicate PendingIsCapped(pending: Option<GoalRoundRef>, fold: Fold)
  {
    pending.Some? ==>
      && pending.value.goal in fold.seen
      && (fold.current.Some? && fold.current.value.goal.id == pending.value.goal ==>
            && pending.value.revision <= fold.current.value.goal.revision
            && (pending.value.revision == fold.current.value.goal.revision ==>
                  pending.value.round <= fold.current.value.goal.maxRounds))
  }

  ghost predicate ArmedMeansActive(armed: bool, fold: Fold) {
    armed ==> fold.current.Some? && fold.current.value.goal.phase == Active
  }

  ghost predicate Good(state: State)
  {
    var fold := Projected(state.log);
    && fold.failure.None?
    && RoundsCountUp(state.log) && CurrentRoundsLogged(state.log, fold)
    && IdsAreFresh(state.log, fold)
    && SnapshotsAreOld(state.log, fold) && RevisionFixesCap(state.log)
    && PendingIsCapped(state.pending, fold)
    && ArmedMeansActive(state.armed, fold)
  }

  // ---------------------------------------------------------------------------
  // One appended event
  // ---------------------------------------------------------------------------

  /** Appending a snapshot no earlier one contradicts keeps caps fixed. */
  lemma AddSnapshot(log: Log, event: Event)
    requires RevisionFixesCap(log)
    requires HasSnapshot(event) ==>
               forall i :: 0 <= i < |log| && HasSnapshot(log[i]) ==>
                 var g, h := log[i].change.goal.value, event.change.goal.value;
                 g.id == h.id && g.revision == h.revision ==> g.maxRounds == h.maxRounds
    ensures RevisionFixesCap(log + [event])
  {
    var more := log + [event];
    forall i, j | 0 <= i < |more| && 0 <= j < |more| && HasSnapshot(more[i]) && HasSnapshot(more[j])
      ensures var g, h := more[i].change.goal.value, more[j].change.goal.value;
              g.id == h.id && g.revision == h.revision ==> g.maxRounds == h.maxRounds
    {
    }
  }

  lemma {:induction false} AppendUnrelated(state: State, event: Event)
    requires Good(state) && !IsGoalEvent(event)
    ensures Good(state.(log := state.log + [event]))
  {
    ProjectOneMore(state.log, event);
    CreatedIdsOneMore(state.log, event);
    RoundsStay(state.log, event);
    AddSnapshot(state.log, event);
    hide RoundsOf, CreatedIds, Projected, RevisionFixesCap, RoundsCountUp;
  }

  lemma {:induction false} AppendCreate(state: State, change: GoalChange)
    requires Good(state) && change.operation == Create && change.goal.Some? && change.rounds == 0
    requires var fold := Projected(state.log);
             && (fold.current.Some? ==> fold.current.value.goal.phase == Complete)
             && change.goal.value.id == NextGoalId(fold) && change.goal.value.phase == Active
    ensures Good(state.(log := state.log + [GoalChanged(change)], armed := true))
  {
    hide NextGoalId, Projected, RoundsOf, Apply;
    var fold, event := Projected(state.log), GoalChanged(change);
    var next := Fold(Some(Current(change.goal.value, 0)), fold.seen + [change.goal.value.id], None);
    CreateApplies(fold, change);
    ProjectOneMore(state.log, event);
    HighestIsAbove(fold);
    RoundsStay(state.log, event);
    CreatedIsFresh(state.log, event, fold, next);
    SnapshotsStayOld(state.log, event, fold, next);
    hide SnapshotsAreOld, IdsAreFresh, RoundsCountUp;
    SnapshotsAreOthers(state.log, fold, change.goal.value);
    AddSnapshot(state.log, event);
  }

  lemma CreateApplies(fold: Fold, change: GoalChange)
    requires change.operation == Create && change.goal.Some? && change.rounds == 0 && fold.failure.None?
    requires fold.current.Some? ==> fold.current.value.goal.phase == Complete
    requires change.goal.value.id == NextGoalId(fold)
    ensures Apply(fold, GoalChanged(change)) ==
            Fold(Some(Current(change.goal.value, 0)), fold.seen + [change.goal.value.id], None)
  {
    HighestIsAbove(fold);
  }

  lemma RoundsStay(log: Log, event: Event)
    requires !IsRound(event)
    ensures forall goal :: RoundsOf(log + [event], goal) == RoundsOf(log, goal)
    ensures RoundsCountUp(log) ==> RoundsCountUp(log + [event])
  {
    hide RoundsOf;
    forall goal ensures RoundsOf(log + [event], goal) == RoundsOf(log, goal) {
      RoundsOfOneMore(log, event, goal);
    }
  }

  lemma CreatedIsFresh(log: Log, event: Event, fold: Fold, next: Fold)
    requires IdsAreFresh(log, fold) && event.GoalChanged? && event.change.operation == Create && event.change.goal.Some?
    requires event.change.goal.value.id !in fold.seen && next.seen == fold.seen + [event.change.goal.value.id]
    requires next.current.Some? && next.current.value.goal == event.change.goal.value
    ensures IdsAreFresh(log + [event], next) && RoundsOf(log + [event], event.change.goal.value.id) == UpTo(0)
  {
    CreatedIdsOneMore(log, event);
    RoundsStay(log, event);
    hide RoundsOf, CreatedIds;
    assert UpTo(0) == [];
  }

  /** A snapshot of a goal just created outdates no earlier one. */
  lemma SnapshotsStayOld(log: Log, event: Event, fold: Fold, next: Fold)
    requires SnapshotsAreOld(log, fold) && HasSnapshot(event) && event.change.goal.value.id !in fold.seen
    requires next.seen == fold.seen + [event.change.goal.value.id]
    requires next.current.Some? && next.current.value.goal == event.change.goal.value
    ensures SnapshotsAreOld(log + [event], next)
  {
    var more := log + [event];
    forall i | 0 <= i < |more| && HasSnapshot(more[i]) ensures SnapshotIsOld(more[i].change.goal.value, next) {
      if i < |log| {
        assert more[i] == log[i] && SnapshotIsOld(log[i].change.goal.value, fold);
      }
    }
  }

  lemma SnapshotsAreOthers(log: Log, fold: Fold, snapshot: GoalSnapshot)
    requires SnapshotsAreOld(log, fold) && snapshot.id !in fold.seen
    ensures forall i :: 0 <= i < |log| && HasSnapshot(log[i]) ==> log[i].change.goal.value.id != snapshot.id
  {
    forall i | 0 <= i < |log| && HasSnapshot(log[i]) ensures log[i].change.goal.value.id != snapshot.id {
      assert SnapshotIsOld(log[i].change.goal.value, fold);
    }
  }

  /** A change of the current goal at its next revision that keeps its id and rounds. */
  lemma AppendMutation(state: State, change: GoalChange, armed: bool)
    requires Good(state) && change.operation != Create && change.operation != Clear && change.goal.Some?
    requires var fold := Projected(state.log);
             && fold.current.Some?
             && change.goal.value.id == fold.current.value.goal.id
             && change.goal.value.revision == fold.current.value.goal.revision + 1
             && change.rounds == fold.current.value.rounds
             && (armed ==> change.goal.value.phase == Active)
    ensures Good(state.(log := state.log + [GoalChanged(change)], armed := armed))
  {
    var fold, event := Projected(state.log), GoalChanged(change);
    var log := state.log + [event];
    ProjectOneMore(state.log, event);
    CreatedIdsOneMore(state.log, event);
    forall goal ensures RoundsOf(log, goal) == RoundsOf(state.log, goal) {
      RoundsOfOneMore(state.log, event, goal);
    }
    var next := Projected(log);
    assert next == fold.(current := Some(Current(change.goal.value, change.rounds)));
    forall i | 0 <= i < |log| && HasSnapshot(log[i]) ensures SnapshotIsOld(log[i].change.goal.value, next) {
      if i < |state.log| {
        assert log[i] == state.log[i];
        assert SnapshotIsOld(state.log[i].change.goal.value, fold);
      }
    }
    forall i | 0 <= i < |state.log| && HasSnapshot(state.log[i])
      ensures state.log[i].change.goal.value.id == change.goal.value.id ==>
                state.log[i].change.goal.value.revision < change.goal.value.revision
    {
      assert SnapshotIsOld(state.log[i].change.goal.value, fold);
    }
    AddSnapshot(state.log, event);
  }

  lemma AppendClear(state: State, change: GoalChange)
    requires Good(state) && change.operation == Clear && change.goal.None?
    requires Projected(state.log).current.Some? && change.cleared == Some(Projected(state.log).current.value.goal.id)
    ensures Good(state.(log := state.log + [GoalChanged(change)], armed := false))
  {
    var fold, event := Projected(state.log), GoalChanged(change);
    var log := state.log + [event];
    ProjectOneMore(state.log, event);
    CreatedIdsOneMore(state.log, event);
    forall goal ensures RoundsOf(log, goal) == RoundsOf(state.log, goal) {
      RoundsOfOneMore(state.log, event, goal);
    }
    forall i | 0 <= i < |log| && HasSnapshot(log[i]) ensures SnapshotIsOld(log[i].change.goal.value, Projected(log)) {
      assert log[i] == state.log[i];
      assert SnapshotIsOld(state.log[i].change.goal.value, fold);
    }
    AddSnapshot(state.log, event);
  }

  /** The round the fold waits for. */
  lemma AppendNextRound(state: State, round: GoalRoundRef, text: Text)
    requires Good(state) && Projected(state.log).current.Some?
    requires Admissible(Projected(state.log).current.value, true, round)
    requires round.round <= Projected(state.log).current.value.goal.maxRounds
    ensures var next := State(state.log + [UserMessage(Message(FromGoal(round), text))], state.armed, None);
            var fold := Projected(state.log);
            Good(next) && Projected(next.log) == fold.(current := Some(fold.current.value.(rounds := round.round)))
  {
    var fold, event := Projected(state.log), UserMessage(Message(FromGoal(round), text));
    var log := state.log + [event];
    ProjectOneMore(state.log, event);
    CreatedIdsOneMore(state.log, event);
    NextRoundCounts(state.log, event, fold.current.value.rounds);
    AddSnapshot(state.log, event);
    hide RoundsOf, UpTo, RoundsCountUp, RevisionFixesCap, Projected;
    forall i | 0 <= i < |log| && HasSnapshot(log[i]) ensures SnapshotIsOld(log[i].change.goal.value, Projected(log)) {
      assert log[i] == state.log[i];
      assert SnapshotIsOld(state.log[i].change.goal.value, fold);
    }
  }

  lemma NextRoundCounts(log: Log, event: Event, rounds: nat)
    requires RoundsCountUp(log) && IsRound(event)
    requires RoundsOf(log, event.message.source.ref.goal) == UpTo(rounds)
    requires event.message.source.ref.round == rounds + 1
    ensures RoundsCountUp(log + [event])
    ensures RoundsOf(log + [event], event.message.source.ref.goal) == UpTo(rounds + 1)
    ensures forall goal :: goal != event.message.source.ref.goal ==>
              RoundsOf(log + [event], goal) == RoundsOf(log, goal)
  {
    hide RoundsOf;
    assert UpTo(rounds) + [rounds + 1] == UpTo(rounds + 1) && |UpTo(rounds + 1)| == rounds + 1;
    forall goal ensures RoundsOf(log + [event], goal) ==
                        if goal == event.message.source.ref.goal then UpTo(rounds + 1) else RoundsOf(log, goal)
    {
      RoundsOfOneMore(log, event, goal);
    }
  }

  /** An admitted round passes the fold's cap check, which admission never tests. */
  lemma AppendRound(state: State, round: GoalRoundRef, text: Text)
    requires Good(state) && state.pending == Some(round) && Projected(state.log).current.Some?
    requires Admissible(Projected(state.log).current.value, state.armed, round)
    ensures round.round <= Projected(state.log).current.value.goal.maxRounds
    ensures Good(State(state.log + [UserMessage(Message(FromGoal(round), text))], state.armed, None))
  {
    PendingFits(state, round);
    hide Good;
    AppendNextRound(state, round, text);
  }

  lemma PendingFits(state: State, round: GoalRoundRef)
    requires Good(state) && state.pending == Some(round) && Projected(state.log).current.Some?
    requires Admissible(Projected(state.log).current.value, state.armed, round)
    ensures round.round <= Projected(state.log).current.value.goal.maxRounds
  {
  }

  // ---------------------------------------------------------------------------
  // One action
  // ---------------------------------------------------------------------------

  lemma {:induction false} OperationKeepsGood(state: State, request: Request, defaultMaxRounds: nat)
    requires Good(state)
    ensures Good(Performed(state, request, defaultMaxRounds))
  {
    hide Good, LowerKebab, Trim, NextGoalId, SnapshotsAreOld, RevisionFixesCap, RoundsCountUp;
    if Refused(state, request, defaultMaxRounds).None? {
      GoodMeansActiveWhenArmed(state);
      var change := ChangeFor(Projected(state.log), request, defaultMaxRounds);
      match request
      case RequestCreate(_, _) => AppendCreate(state, change);
      case RequestClear(_) => AppendClear(state, change);
      case _ => AppendMutation(state, change, ArmedAfter(state.armed, request));
    }
  }

  lemma GoodMeansActiveWhenArmed(state: State)
    requires Good(state)
    ensures state.armed ==>
              Projected(state.log).current.Some? && Projected(state.log).current.value.goal.phase == Active
    ensures Projected(state.log).failure.None?
  {
  }

  lemma ForgetPending(state: State)
    requires Good(state)
    ensures Good(state.(pending := None)) && Good(state.(armed := false)) && Good(State(state.log, false, None))
  {
  }

  lemma QueueRound(state: State, current: Current)
    requires Good(state) && Projected(state.log).current == Some(current)
    requires PlanGoalRound(current, state.armed) == Enqueue
    ensures Good(state.(pending := Some(GoalRoundRef(current.goal.id, current.goal.revision, current.rounds + 1))))
  {
  }

  lemma {:induction false} ActionKeepsGood(state: State, action: Action, defaultMaxRounds: nat)
    requires Good(state) && IsPossible(action)
    ensures Good(After(state, action, defaultMaxRounds))
  {
    hide Good, Performed, Projected, BlockCurrent;
    ForgetPending(state);
    match action
    case Operate(request) => OperationKeepsGood(state, request, defaultMaxRounds);
    case DisarmSession =>
    case AppendOther(event) => AppendUnrelated(state, event);
    case Restart =>
    case EndTurn(accepted) =>
      var fold := Projected(state.log);
      if fold.current.Some? {
        OperationKeepsGood(state, BlockCurrent(fold.current.value, ROUND_LIMIT), 0);
        OperationKeepsGood(state, BlockCurrent(fold.current.value, QUEUE_FAILED), 0);
        if PlanGoalRound(fold.current.value, state.armed) == Enqueue {
          QueueRound(state, fold.current.value);
        }
      }
    case OfferRound(round, text) =>
      var fold := Projected(state.log);
      if state.pending == Some(round) && fold.current.Some? {
        OperationKeepsGood(state.(pending := None), BlockCurrent(fold.current.value, PROMPT_REJECTED), 0);
        if Admissible(fold.current.value, state.armed, round) {
          AppendRound(state, round, text);
        }
      }
  }

  // ---------------------------------------------------------------------------
  // Every run
  // ---------------------------------------------------------------------------

  lemma {:induction false} RunsAreGood(actions: seq<Action>, defaultMaxRounds: nat)
    requires forall i :: 0 <= i < |actions| ==> IsPossible(actions[i])
    ensures Good(Run(actions, defaultMaxRounds))
  {
    if actions == [] {
      EmptyIsGood();
    } else {
      RunsAreGood(actions[..|actions| - 1], defaultMaxRounds);
      ActionKeepsGood(Run(actions[..|actions| - 1], defaultMaxRounds), actions[|actions| - 1], defaultMaxRounds);
    }
  }

  lemma EmptyIsGood()
    ensures Good(State([], false, None))
  {
  }

  /** The projection never fails, in any interleaving. */
  lemma {:induction false} ProjectionNeverFails(actions: seq<Action>, defaultMaxRounds: nat)
    requires forall i :: 0 <= i < |actions| ==> IsPossible(actions[i])
    ensures Projected(Run(actions, defaultMaxRounds).log).failure.None?
  {
    RunsAreGood(actions, defaultMaxRounds);
  }

  /** The rounds logged for any goal are 1, 2, .., n; for the current goal n is the
      projection's count, whatever edits, pauses, blocks and resumes came between. */
  lemma {:induction false} RoundsAreContiguous(actions: seq<Action>, defaultMaxRounds: nat, goal: nat)
    requires forall i :: 0 <= i < |actions| ==> IsPossible(actions[i])
    ensures var log := Run(actions, defaultMaxRounds).log;
            var current := Projected(log).current;
            && (forall i :: 0 <= i < |RoundsOf(log, goal)| ==> RoundsOf(log, goal)[i] == i + 1)
            && (current.Some? && current.value.goal.id == goal ==> |RoundsOf(log, goal)| == current.value.rounds)
  {
    RunsAreGood(actions, defaultMaxRounds);
    var log := Run(actions, defaultMaxRounds).log;
    assert RoundsOf(log, goal) == UpTo(|RoundsOf(log, goal)|);
    assert forall n :: |UpTo(n)| == n;
  }

  /** No id is created twice, and an id at one revision has one cap. */
  lemma {:induction false} IdsAndCapsAreStable(actions: seq<Action>, defaultMaxRounds: nat)
    requires forall i :: 0 <= i < |actions| ==> IsPossible(actions[i])
    ensures var log := Run(actions, defaultMaxRounds).log;
            && (forall i, j :: 0 <= i < j < |CreatedIds(log)| ==> CreatedIds(log)[i] != CreatedIds(log)[j])
            && RevisionFixesCap(log)
  {
    RunsAreGood(actions, defaultMaxRounds);
  }

  /** Armed always means a current, active goal. */
  lemma {:induction false} ArmedGoalIsActive(actions: seq<Action>, defaultMaxRounds: nat)
    requires forall i :: 0 <= i < |actions| ==> IsPossible(actions[i])
    ensures var state := Run(actions, defaultMaxRounds);
            var current := Projected(state.log).current;
            state.armed ==> current.Some? && current.value.goal.phase == Active
  {
    RunsAreGood(actions, defaultMaxRounds);
  }

  /** Whenever a round is admitted its number is within the goal's cap, although
      admission compares everything but the cap. */
  lemma {:induction false} AdmittedRoundIsWithinCap(
    actions: seq<Action>, defaultMaxRounds: nat, round: GoalRoundRef, text: Text)
    requires forall i :: 0 <= i < |actions| ==> IsPossible(actions[i])
    requires RoundOffered(Run(actions, defaultMaxRounds), round, text).1
    ensures var current := Projected(Run(actions, defaultMaxRounds).log).current;
            current.Some? && 0 < round.round <= current.value.goal.maxRounds
  {
    RunsAreGood(actions, defaultMaxRounds);
    AppendRound(Run(actions, defaultMaxRounds), round, text);
  }

  /** The driver's own block requests are never refused. */
  lemma {:induction false} DriverBlocksAreAccepted(state: State, current: Current, code: Text)
    requires Good(state) && Projected(state.log).current == Some(current) && current.goal.phase == Active
    requires code == ROUND_LIMIT || code == QUEUE_FAILED || code == PROMPT_REJECTED
    ensures Refused(state, BlockCurrent(current, code), 0).None?
  {
    hide LowerKebab, Trim;
    DriverTextsAreValid();
  }
}
