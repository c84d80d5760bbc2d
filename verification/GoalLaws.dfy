/** What the goal operations mean to each other, and what every run keeps of a goal. */
module GoalLaws {
  import opened Wrappers
  import opened SessionLog
  import opened GoalProjection
  import opened GoalService
  import opened GoalRuns

  // ---------------------------------------------------------------------------
  // Which logs project
  // ---------------------------------------------------------------------------

  /** The event may follow a log that projects to `fold`. */
  predicate Fits(fold: Fold, event: Event) {
    if IsRound(event) then
      var round := event.message.source.ref;
      && fold.current.Some?
      && var Current(goal, rounds) := fold.current.value;
         && round == GoalRoundRef(goal.id, goal.revision, rounds + 1)
         && goal.phase == Active && rounds < goal.maxRounds
    else if event.GoalChanged? && event.change.operation == Create then
      && event.change.goal.Some? && event.change.goal.value.id !in fold.seen
      && (fold.current.Some? ==> fold.current.value.goal.phase == Complete)
    else if event.GoalChanged? && event.change.operation != Clear then
      && event.change.goal.Some? && fold.current.Some?
      && event.change.goal.value.id == fold.current.value.goal.id
    else true
  }

  /** The projection fails exactly on the logs in which some event does not fit. */
  lemma {:induction false} ProjectsExactlyWhenAllFit(log: Log)
    ensures Projected(log).failure.None? <==>
            forall n {:trigger log[n]} :: 0 <= n < |log| ==> Fits(Projected(log[..n]), log[n])
  {
    if log != [] {
      var init, last := log[..|log| - 1], log[|log| - 1];
      ProjectsExactlyWhenAllFit(init);
      assert forall n :: 0 <= n < |init| ==> init[..n] == log[..n] && init[n] == log[n];
      FitsExactly(Projected(init), last);
      hide Fits, Apply;
      assert log[..|init|] == init;
      if Projected(log).failure.None? {
        assert Projected(init).failure.None?;
        forall n | 0 <= n < |log| ensures Fits(Projected(log[..n]), log[n]) {
          assert n < |init| ==> Fits(Projected(init[..n]), init[n]);
        }
      } else if Projected(init).failure.None? {
        assert !Fits(Projected(log[..|init|]), log[|init|]);
      } else {
        var n :| 0 <= n < |init| && !Fits(Projected(init[..n]), init[n]);
        assert !Fits(Projected(log[..n]), log[n]);
      }
    }
  }

  lemma FitsExactly(fold: Fold, event: Event)
    ensures Apply(fold, event).failure.None? <==> fold.failure.None? && Fits(fold, event)
  {
  }

  // ---------------------------------------------------------------------------
  // One operation after another
  // ---------------------------------------------------------------------------

  /** A completed goal can be neither paused, resumed, blocked nor completed again, and makes
      room for another, under an id of its own. */
  lemma CompletedGoalIsClosed(
    state: State, ref: GoalRef, defaultMaxRounds: nat, next: State, request: Request, refusal: Option<Refusal>,
    last: State)
    requires Operated(state, RequestComplete(ref), defaultMaxRounds, None, next)
    requires Operated(next, request, defaultMaxRounds, refusal, last)
    ensures request.RequestPause? || request.RequestResume? || request.RequestBlock? || request.RequestComplete? ==>
              refusal.Some? && last == next
    ensures request.RequestCreate? && !Blank(request.objective) && MaxRoundsOf(request, defaultMaxRounds) > 0 ==>
              && refusal.None? && last.armed
              && Projected(last.log).current.Some? && Projected(last.log).current.value.goal.id != ref.id
  {
    hide Projected, LowerKebab, Blank, Explains;
  }

  /** Whatever stops a goal, it can be resumed while rounds remain, and is then as it was
      before, but for two revisions. */
  lemma ResumeUndoes(
    state: State, stop: Request, defaultMaxRounds: nat, next: State, resume: Request, refusal: Option<Refusal>,
    last: State)
    requires (stop.RequestPause? || stop.RequestBlock?) && Operated(state, stop, defaultMaxRounds, None, next)
    requires resume == RequestResume(GoalRef(stop.ref.id, stop.ref.revision + 1))
    requires Operated(next, resume, defaultMaxRounds, refusal, last)
    ensures !next.armed
    ensures var was, now := Projected(state.log).current, Projected(last.log).current;
            && was.Some? && was.value.goal.phase == Active
            && (refusal.None? <==> was.value.rounds < was.value.goal.maxRounds)
            && (refusal.None? ==> last.armed && now.Some? && now.value.rounds == was.value.rounds
                                  && now.value.goal == was.value.goal.(revision := was.value.goal.revision + 2,
                                                                       blocked := None))
  {
    hide Projected, LowerKebab, Blank, IsTrimOf, Explains;
  }

  /** A cleared goal is gone for good: no operation finds it, and its id is never given again. */
  lemma ClearedGoalIsGone(
    state: State, ref: GoalRef, defaultMaxRounds: nat, next: State, request: Request, refusal: Option<Refusal>,
    last: State)
    requires Operated(state, RequestClear(ref), defaultMaxRounds, None, next)
    requires Operated(next, request, defaultMaxRounds, refusal, last)
    ensures !request.RequestCreate? ==> refusal == Some(NotFound)
    ensures request.RequestCreate? && refusal.None? ==>
              Projected(last.log).current.Some? && Projected(last.log).current.value.goal.id > ref.id
  {
    hide Projected, LowerKebab, Blank;
    assert ref.id in Projected(next.log).seen;
  }

  /** Of two operations that name the same revision the second one is refused. */
  lemma RevisionIsUsedOnce(
    state: State, first: Request, defaultMaxRounds: nat, next: State, second: Request, refusal: Option<Refusal>,
    last: State)
    requires !first.RequestCreate? && !second.RequestCreate? && first.ref == second.ref
    requires Operated(state, first, defaultMaxRounds, None, next)
    requires Operated(next, second, defaultMaxRounds, refusal, last)
    ensures refusal == Some(if first.RequestClear? then NotFound else StaleRevision) && last == next
  {
    hide Projected, LowerKebab, Blank, IsTrimOf;
  }

  // ---------------------------------------------------------------------------
  // Every run
  // ---------------------------------------------------------------------------

  /** The current goal has an objective and a cap, and a reason exactly when it is blocked. */
  ghost predicate IsSound(fold: Fold) {
    fold.current.Some? ==>
      var goal := fold.current.value.goal;
      && !Blank(goal.objective) && goal.maxRounds > 0 && goal.revision > 0
      && (goal.blocked.Some? <==> goal.phase == Blocked)
      && (goal.blocked.Some? ==> LowerKebab(goal.blocked.value.code) && !Blank(goal.blocked.value.message))
  }

  lemma TrimKeepsInk(text: Text, trimmed: Text)
    requires IsTrimOf(text, trimmed) && !Blank(text)
    ensures !Blank(trimmed)
  {
    hide IsTrimmed;
    var i, j :| IsTrimBetween(text, i, j, trimmed);
    var k :| 0 <= k < |text| && !IsTrimmed(text[k]);
    assert trimmed[k - i] == text[k];
  }

  lemma {:induction false} EffectIsSound(was: Fold, armed: bool, request: Request, defaultMaxRounds: nat, now: Fold)
    requires IsSound(was) && Allowed(was, armed, request, defaultMaxRounds)
    requires HasEffect(was, request, defaultMaxRounds, now)
    ensures IsSound(now)
  {
    hide LowerKebab, Blank, IsTrimOf;
    if request.RequestBlock? {
      TrimKeepsInk(request.reason.message, now.current.value.goal.blocked.value.message);
    }
  }

  lemma OperationIsSound(state: State, request: Request, defaultMaxRounds: nat)
    requires IsSound(Projected(state.log))
    ensures IsSound(Projected(Performed(state, request, defaultMaxRounds).log))
  {
    hide IsSound, Projected, Performed, Refused, HasEffect, Allowed, Explains;
    PerformedIsOperated(state, request, defaultMaxRounds);
    if Refused(state, request, defaultMaxRounds).None? {
      EffectIsSound(Projected(state.log), state.armed, request, defaultMaxRounds,
                    Projected(Performed(state, request, defaultMaxRounds).log));
    }
  }

  /** An action appends nothing, one event of another kind, one round, or what an operation does. */
  lemma ActionIsSound(state: State, action: Action, defaultMaxRounds: nat)
    requires IsSound(Projected(state.log)) && IsPossible(action)
    ensures IsSound(Projected(After(state, action, defaultMaxRounds).log))
  {
    hide Performed, Projected, BlockCurrent, LowerKebab, Blank;
    match action
    case Operate(request) => OperationIsSound(state, request, defaultMaxRounds);
    case AppendOther(event) => ProjectOneMore(state.log, event);
    case EndTurn(accepted) =>
      var fold := Projected(state.log);
      if fold.current.Some? {
        OperationIsSound(state, BlockCurrent(fold.current.value, ROUND_LIMIT), 0);
        OperationIsSound(state, BlockCurrent(fold.current.value, QUEUE_FAILED), 0);
      }
    case OfferRound(round, text) =>
      var fold := Projected(state.log);
      ProjectOneMore(state.log, UserMessage(Message(FromGoal(round), text)));
      if fold.current.Some? {
        OperationIsSound(state.(pending := None), BlockCurrent(fold.current.value, PROMPT_REJECTED), 0);
      }
    case _ =>
  }

  /** In every run the current goal has an objective, a positive cap and revision, and a
      well-formed reason exactly when it is blocked. */
  lemma {:induction false} GoalsAreSound(actions: seq<Action>, defaultMaxRounds: nat)
    requires forall i :: 0 <= i < |actions| ==> IsPossible(actions[i])
    ensures IsSound(Projected(Run(actions, defaultMaxRounds).log))
  {
    hide IsSound, After, Projected;
    if actions == [] {
      NoGoalYet();
    } else {
      var earlier := actions[..|actions| - 1];
      GoalsAreSound(earlier, defaultMaxRounds);
      ActionIsSound(Run(earlier, defaultMaxRounds), actions[|actions| - 1], defaultMaxRounds);
    }
  }

  lemma NoGoalYet()
    ensures IsSound(Projected([]))
  {
  }

  /** Creates or clears a goal. */
  predicate Replaces(action: Action) {
    action.Operate? && (action.request.RequestCreate? || action.request.RequestClear?)
  }

  predicate IsComplete(fold: Fold, goal: nat) {
    fold.failure.None? && InPhase(fold, Complete) && fold.current.value.goal.id == goal
  }

  lemma OperationKeepsComplete(state: State, request: Request, defaultMaxRounds: nat, goal: nat)
    requires IsComplete(Projected(state.log), goal) && !request.RequestCreate? && !request.RequestClear?
    ensures var next := Performed(state, request, defaultMaxRounds);
            IsComplete(Projected(next.log), goal) && RoundsOf(next.log, goal) == RoundsOf(state.log, goal)
  {
    hide Projected, Blank, LowerKebab, IsTrimOf, Explains, RoundsOf, Refused, Performed;
    var next := Performed(state, request, defaultMaxRounds);
    PerformedIsOperated(state, request, defaultMaxRounds);
    if Refused(state, request, defaultMaxRounds).None? {
      var change := PerformedAppends(state, request, defaultMaxRounds);
      RoundsOfOneMore(state.log, GoalChanged(change), goal);
    }
  }

  lemma PerformedAppends(state: State, request: Request, defaultMaxRounds: nat) returns (change: GoalChange)
    requires Refused(state, request, defaultMaxRounds).None?
    ensures Performed(state, request, defaultMaxRounds).log == state.log + [GoalChanged(change)]
  {
    change := ChangeFor(Projected(state.log), request, defaultMaxRounds);
  }

  lemma ActionKeepsComplete(state: State, action: Action, defaultMaxRounds: nat, goal: nat)
    requires IsComplete(Projected(state.log), goal) && IsPossible(action) && !Replaces(action)
    ensures var next := After(state, action, defaultMaxRounds);
            IsComplete(Projected(next.log), goal) && RoundsOf(next.log, goal) == RoundsOf(state.log, goal)
  {
    hide Projected, Performed, RoundsOf;
    match action
    case Operate(request) => OperationKeepsComplete(state, request, defaultMaxRounds, goal);
    case AppendOther(event) =>
      ProjectOneMore(state.log, event);
      RoundsOfOneMore(state.log, event, goal);
    case _ =>
  }

  /** In every run a completed goal stays complete, and has no further round, until another is
      created or it is cleared. */
  lemma {:induction false} CompletionIsFinal(actions: seq<Action>, more: seq<Action>, defaultMaxRounds: nat, goal: nat)
    requires IsComplete(Projected(Run(actions, defaultMaxRounds).log), goal)
    requires forall i :: 0 <= i < |more| ==> IsPossible(more[i]) && !Replaces(more[i])
    ensures var before, after := Run(actions, defaultMaxRounds), Run(actions + more, defaultMaxRounds);
            IsComplete(Projected(after.log), goal) && RoundsOf(after.log, goal) == RoundsOf(before.log, goal)
    decreases |more|
  {
    hide IsComplete, After, Projected, RoundsOf;
    if more == [] {
      assert actions + more == actions;
    } else {
      var init, last := more[..|more| - 1], more[|more| - 1];
      CompletionIsFinal(actions, init, defaultMaxRounds, goal);
      ActionKeepsComplete(Run(actions + init, defaultMaxRounds), last, defaultMaxRounds, goal);
      var all := actions + more;
      assert all[..|all| - 1] == actions + init && all[|all| - 1] == last;
    }
  }
}
