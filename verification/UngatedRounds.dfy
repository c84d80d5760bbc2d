/** Goal rounds as the agent loop logs them: the driver hands the round's message to the
    agent's inbox, and the loop logs it when its turn comes, without asking the driver. */
module UngatedRounds {
  import opened Wrappers
  import opened SessionLog
  import opened GoalProjection
  import opened GoalService
  import opened GoalRuns

  /** `queued` are the round messages in the inbox, oldest first. What the driver remembers
      of them is read by nothing but an admission, so it is left out here. */
  datatype Host = Host(state: State, queued: seq<GoalRoundRef>)

  datatype Action =
    | Operate(request: Request)
    | DisarmSession
    | EndTurn(accepted: bool)
    | LogNext(text: Text)
    | AppendOther(event: Event)
    | Restart

  predicate IsPossible(action: Action) {
    action.AppendOther? ==> !IsGoalEvent(action.event)
  }

  /** The round a turn end queues, if it does. */
  ghost function PlannedRound(state: State, accepted: bool): Option<GoalRoundRef> {
    var fold := Projected(state.log);
    if accepted && fold.failure.None? && fold.current.Some?
       && PlanGoalRound(fold.current.value, state.armed) == Enqueue
    then Some(GoalRoundRef(fold.current.value.goal.id, fold.current.value.goal.revision, fold.current.value.rounds + 1))
    else None
  }

  ghost function After(host: Host, action: Action, defaultMaxRounds: nat): Host {
    var state := host.state;
    match action
    case Operate(request) => host.(state := Performed(state, request, defaultMaxRounds))
    case DisarmSession => host.(state := state.(armed := false))
    case EndTurn(accepted) =>
      (match PlannedRound(state, accepted)
       case Some(round) => host.(queued := host.queued + [round])
       case None => host.(state := AfterTurnEnd(state, accepted).(pending := None)))
    case LogNext(text) =>
      if host.queued == [] then host
      else Host(state.(log := state.log + [UserMessage(Message(FromGoal(host.queued[0]), text))]), host.queued[1..])
    case AppendOther(event) => host.(state := state.(log := state.log + [event]))
    case Restart => Host(State(state.log, false, None), [])
  }

  ghost function Run(actions: seq<Action>, defaultMaxRounds: nat): Host {
    if actions == [] then Host(State([], false, None), [])
    else After(Run(actions[..|actions| - 1], defaultMaxRounds), actions[|actions| - 1], defaultMaxRounds)
  }

  /** Since the round was queued no operation changed the goal and no round was logged. */
  ghost predicate StillNext(state: State, round: GoalRoundRef) {
    var current := Projected(state.log).current;
    && current.Some? && current.value.goal.id == round.goal
    && current.value.goal.revision == round.revision && current.value.rounds + 1 == round.round
  }

  /** Every round is logged in time. */
  ghost predicate AllInTime(actions: seq<Action>, defaultMaxRounds: nat) {
    actions == []
    || (var before := Run(actions[..|actions| - 1], defaultMaxRounds);
        AllInTime(actions[..|actions| - 1], defaultMaxRounds)
        && (actions[|actions| - 1].LogNext? && before.queued != [] ==> StillNext(before.state, before.queued[0])))
  }

  // ---------------------------------------------------------------------------
  // What a queued round can rely on
  // ---------------------------------------------------------------------------

  /** While its goal is at its revision, the goal is active and the round within the cap. */
  ghost predicate FitsItsRevision(round: GoalRoundRef, fold: Fold) {
    && round.goal in fold.seen
    && (fold.current.Some? && fold.current.value.goal.id == round.goal ==>
          && round.revision <= fold.current.value.goal.revision
          && (round.revision == fold.current.value.goal.revision ==>
                fold.current.value.goal.phase == Active && round.round <= fold.current.value.goal.maxRounds))
  }

  ghost predicate AllFit(queued: seq<GoalRoundRef>, fold: Fold) {
    forall i :: 0 <= i < |queued| ==> FitsItsRevision(queued[i], fold)
  }

  ghost predicate GoodHost(host: Host) {
    Good(host.state) && host.state.pending.None? && AllFit(host.queued, Projected(host.state.log))
  }

  /** A fold moves on: to an unseen goal, a later revision, or the same snapshot. */
  ghost predicate Moves(fold: Fold, next: Fold) {
    && (forall goal :: goal in fold.seen ==> goal in next.seen)
    && (next.current.Some? ==>
          || next.current.value.goal.id !in fold.seen
          || (&& fold.current.Some? && fold.current.value.goal.id == next.current.value.goal.id
              && (fold.current.value.goal.revision < next.current.value.goal.revision
                  || fold.current.value.goal == next.current.value.goal)))
  }

  lemma {:induction false} AllStillFit(queued: seq<GoalRoundRef>, fold: Fold, next: Fold)
    requires AllFit(queued, fold) && Moves(fold, next)
    ensures AllFit(queued, next)
  {
    forall i | 0 <= i < |queued| ensures FitsItsRevision(queued[i], next) {
      assert FitsItsRevision(queued[i], fold);
    }
  }

  lemma {:induction false} OperationMoves(state: State, request: Request, defaultMaxRounds: nat)
    requires Good(state)
    ensures Moves(Projected(state.log), Projected(Performed(state, request, defaultMaxRounds).log))
    ensures Performed(state, request, defaultMaxRounds).pending == state.pending
  {
    hide LowerKebab, Trim, NextGoalId, Projected, Moves, ChangeFor, SnapshotsAreOld, RevisionFixesCap, RoundsCountUp,
         CurrentRoundsLogged;
    var fold := Projected(state.log);
    StillMoves(fold);
    if Refused(state, request, defaultMaxRounds).None? {
      ChangeMoves(fold, request, defaultMaxRounds);
      ProjectOneMore(state.log, GoalChanged(ChangeFor(fold, request, defaultMaxRounds)));
    }
  }

  lemma {:induction false} StillMoves(fold: Fold)
    ensures Moves(fold, fold)
  {
  }

  lemma {:induction false} ChangeMoves(fold: Fold, request: Request, defaultMaxRounds: nat)
    requires fold.failure.None? && (request.RequestCreate? || fold.current.Some?)
    ensures Moves(fold, Apply(fold, GoalChanged(ChangeFor(fold, request, defaultMaxRounds))))
  {
    HighestIsAbove(fold);
    hide NextGoalId, Trim;
  }

  lemma {:induction false} EndTurnKeepsGood(host: Host, accepted: bool)
    requires GoodHost(host)
    ensures GoodHost(After(host, Action.EndTurn(accepted), 0))
  {
    hide Good, Performed, Projected, BlockCurrent, Moves, FitsItsRevision;
    var state, fold := host.state, Projected(host.state.log);
    match PlannedRound(state, accepted)
    case Some(round) => PlannedFits(state, accepted);
    case None =>
      if fold.current.Some? {
        var limit := BlockCurrent(fold.current.value, ROUND_LIMIT);
        var failed := BlockCurrent(fold.current.value, QUEUE_FAILED);
        OperationKeepsGood(state, limit, 0);
        OperationMoves(state, limit, 0);
        AllStillFit(host.queued, fold, Projected(Performed(state, limit, 0).log));
        OperationKeepsGood(state, failed, 0);
        OperationMoves(state, failed, 0);
        AllStillFit(host.queued, fold, Projected(Performed(state, failed, 0).log));
      }
  }

  lemma {:induction false} PlannedFits(state: State, accepted: bool)
    requires Good(state) && PlannedRound(state, accepted).Some?
    ensures FitsItsRevision(PlannedRound(state, accepted).value, Projected(state.log))
  {
  }

  /** The fold accepts a queued round exactly when it is still the next one: phase and cap
      cannot have changed unless the revision did. */
  lemma {:induction false} QueuedRoundSurvivesExactly(host: Host, text: Text)
    requires GoodHost(host) && host.queued != []
    ensures var next := After(host, LogNext(text), 0);
            && (Projected(next.state.log).failure.None? <==> StillNext(host.state, host.queued[0]))
            && (StillNext(host.state, host.queued[0]) ==> GoodHost(next))
  {
    var state, round, fold := host.state, host.queued[0], Projected(host.state.log);
    assert FitsItsRevision(round, fold);
    ProjectOneMore(state.log, UserMessage(Message(FromGoal(round), text)));
    NotFailed(state);
    hide Good, Projected;
    if StillNext(state, round) {
      AppendNextRound(state, round, text);
      assert AllFit(host.queued[1..], fold) by {
        assert forall i :: 0 <= i < |host.queued| - 1 ==> host.queued[1..][i] == host.queued[i + 1];
      }
      AllStillFit(host.queued[1..], fold, fold.(current := Some(fold.current.value.(rounds := round.round))));
    }
  }

  lemma {:induction false} NotFailed(state: State)
    requires Good(state)
    ensures Projected(state.log).failure.None?
  {
  }

  lemma {:induction false} ActionKeepsGoodHost(host: Host, action: Action, defaultMaxRounds: nat)
    requires GoodHost(host) && IsPossible(action) && !action.LogNext?
    ensures GoodHost(After(host, action, defaultMaxRounds))
  {
    hide Good, Performed, Projected, Moves, FitsItsRevision;
    ForgetPending(host.state);
    match action
    case Operate(request) =>
      OperationKeepsGood(host.state, request, defaultMaxRounds);
      OperationMoves(host.state, request, defaultMaxRounds);
      var performed := Performed(host.state, request, defaultMaxRounds);
      AllStillFit(host.queued, Projected(host.state.log), Projected(performed.log));
    case DisarmSession =>
    case EndTurn(accepted) => EndTurnKeepsGood(host, accepted);
    case AppendOther(event) =>
      AppendUnrelated(host.state, event);
      OtherEventsMoveNothing(host.state.log, event);
    case Restart =>
  }

  lemma {:induction false} OtherEventsMoveNothing(log: Log, event: Event)
    requires !IsGoalEvent(event)
    ensures Projected(log + [event]) == Projected(log)
  {
    ProjectOneMore(log, event);
  }

  lemma {:induction false} FailureOutlivesAction(host: Host, action: Action, defaultMaxRounds: nat)
    requires Projected(host.state.log).failure.Some?
    ensures Projected(After(host, action, defaultMaxRounds).state.log).failure.Some?
  {
    hide Refused, ChangeFor;
    var log, next := host.state.log, After(host, action, defaultMaxRounds).state.log;
    assert log <= next;
    FailureSticks(log, next[|log|..]);
    assert log + next[|log|..] == next;
  }

  /** Over every run: the projection survives exactly when each queued round is logged while
      its goal, its revision and its count of rounds are as they were when it was queued. */
  lemma {:induction false} RunsSurviveExactly(actions: seq<Action>, defaultMaxRounds: nat)
    requires forall i :: 0 <= i < |actions| ==> IsPossible(actions[i])
    ensures var host := Run(actions, defaultMaxRounds);
            && (Projected(host.state.log).failure.None? <==> AllInTime(actions, defaultMaxRounds))
            && (Projected(host.state.log).failure.None? ==> GoodHost(host))
  {
    if actions == [] {
      EmptyIsGood();
    } else {
      var earlier, action := actions[..|actions| - 1], actions[|actions| - 1];
      var before := Run(earlier, defaultMaxRounds);
      RunsSurviveExactly(earlier, defaultMaxRounds);
      hide Good, Projected, Performed, AllFit, StillNext, AfterTurnEnd;
      if Projected(before.state.log).failure.Some? {
        FailureOutlivesAction(before, action, defaultMaxRounds);
      } else if action.LogNext? {
        if before.queued != [] {
          QueuedRoundSurvivesExactly(before, action.text);
        }
      } else {
        ActionKeepsGoodHost(before, action, defaultMaxRounds);
        NotFailed(After(before, action, defaultMaxRounds).state);
      }
    }
  }

  /** Any accepted operation on the goal between the turn end and the logged message fails
      the projection, for good. */
  lemma {:induction false} OperationBeforeMessageFails(host: Host, request: Request, defaultMaxRounds: nat, text: Text)
    requires GoodHost(host) && host.queued != [] && StillNext(host.state, host.queued[0])
    requires Refused(host.state, request, defaultMaxRounds).None?
    ensures var operated := After(host, Action.Operate(request), defaultMaxRounds);
            var fold := Projected(After(operated, LogNext(text), defaultMaxRounds).state.log);
            fold.failure == Some(if request.RequestClear? then RoundWithoutGoal else InvalidRound)
  {
    var fold, operated := Projected(host.state.log), Performed(host.state, request, defaultMaxRounds);
    var round := host.queued[0];
    assert FitsItsRevision(round, fold);
    NotFailed(host.state);
    hide Good, Projected, NextGoalId, AllFit, LowerKebab, Trim, ChangeFor;
    assert !request.RequestCreate?;
    ChangedRoundFails(fold, request, defaultMaxRounds, round, text);
    ProjectOneMore(host.state.log, GoalChanged(ChangeFor(fold, request, defaultMaxRounds)));
    ProjectOneMore(operated.log, UserMessage(Message(FromGoal(round), text)));
  }

  /** Any change of the goal outdates the round. */
  lemma {:induction false} ChangedRoundFails(
    fold: Fold, request: Request, defaultMaxRounds: nat, round: GoalRoundRef, text: Text)
    requires fold.failure.None? && fold.current.Some? && !request.RequestCreate?
    requires round.goal == fold.current.value.goal.id && round.revision == fold.current.value.goal.revision
    ensures var changed := Apply(fold, GoalChanged(ChangeFor(fold, request, defaultMaxRounds)));
            Apply(changed, UserMessage(Message(FromGoal(round), text))).failure ==
            Some(if request.RequestClear? then RoundWithoutGoal else InvalidRound)
  {
    hide NextGoalId, Trim;
  }
}
