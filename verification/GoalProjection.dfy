/** The goal projection: a fold of the log whose first failure sticks. */
module GoalProjection {
  import opened Wrappers
  import opened SessionLog

  datatype Failure =
    | MissingSnapshot | CreateWhileOpen | IdReused | NotCurrent | RoundWithoutGoal | InvalidRound

  datatype Current = Current(goal: GoalSnapshot, rounds: nat)

  datatype Fold = Fold(current: Option<Current>, seen: seq<nat>, failure: Option<Failure>)

  const EMPTY: Fold := Fold(None, [], None)

  function Fail(fold: Fold, failure: Failure): Fold {
    fold.(failure := Some(failure))
  }

  predicate IsRound(event: Event) {
    event.UserMessage? && event.message.source.FromGoal?
  }

  predicate IsGoalEvent(event: Event) {
    event.GoalChanged? || IsRound(event)
  }

  function ApplyClear(fold: Fold, cleared: Option<nat>): Fold {
    var seen :=
      if cleared.Some? then fold.seen + [cleared.value]
      else if fold.current.Some? then fold.seen + [fold.current.value.goal.id]
      else fold.seen;
    fold.(current := None, seen := seen)
  }

  function ApplyChange(fold: Fold, change: GoalChange): Fold {
    if change.operation == Clear then ApplyClear(fold, change.cleared)
    else if change.goal.None? then Fail(fold, MissingSnapshot)
    else
      var goal := change.goal.value;
      var sameGoal := fold.current.Some? && fold.current.value.goal.id == goal.id;
      var next := fold.(current := Some(Current(goal, change.rounds)));
      if change.operation == Create then
        if fold.current.Some? && fold.current.value.goal.phase != Complete then Fail(fold, CreateWhileOpen)
        else if goal.id in fold.seen then Fail(fold, IdReused)
        else next.(seen := fold.seen + [goal.id])
      else if !sameGoal then Fail(fold, NotCurrent)
      else next
  }

  function ApplyRound(fold: Fold, round: GoalRoundRef): Fold {
    if fold.current.None? then Fail(fold, RoundWithoutGoal)
    else
      var current := fold.current.value;
      var admitted := && round.goal == current.goal.id
                      && round.revision == current.goal.revision
                      && current.goal.phase == Active
                      && round.round == current.rounds + 1
                      && round.round <= current.goal.maxRounds;
      if admitted then fold.(current := Some(current.(rounds := round.round))) else Fail(fold, InvalidRound)
  }

  /** `apply_goal_projection` */
  function Apply(fold: Fold, event: Event): Fold {
    if fold.failure.Some? then fold
    else if event.GoalChanged? then ApplyChange(fold, event.change)
    else if IsRound(event) then ApplyRound(fold, event.message.source.ref)
    else fold
  }

  function Projected(log: Log): Fold {
    if log == [] then EMPTY else Apply(Projected(log[..|log| - 1]), log[|log| - 1])
  }

  lemma ProjectOneMore(log: Log, event: Event)
    ensures Projected(log + [event]) == Apply(Projected(log), event)
  {
    assert (log + [event])[..|log|] == log;
  }

  /** `projection`: folds the log from its start. */
  method Project(log: Log) returns (fold: Fold)
    ensures fold == Projected(log)
  {
    fold := EMPTY;
    for i := 0 to |log|
      invariant fold == Projected(log[..i])
    {
      assert log[..i + 1] == log[..i] + [log[i]];
      ProjectOneMore(log[..i], log[i]);
      fold := Apply(fold, log[i]);
    }
    assert log[..|log|] == log;
  }

  /** A failure, once there, survives every further event. */
  lemma {:induction false} FailureSticks(log: Log, more: Log)
    requires Projected(log).failure.Some?
    ensures Projected(log + more) == Projected(log)
  {
    if more == [] {
      assert log + more == log;
    } else {
      FailureSticks(log, more[..|more| - 1]);
      assert log + more == (log + more[..|more| - 1]) + [more[|more| - 1]];
      ProjectOneMore(log + more[..|more| - 1], more[|more| - 1]);
    }
  }

  // ---------------------------------------------------------------------------
  // What the log says about rounds, ids and caps
  // ---------------------------------------------------------------------------

  /** The rounds logged for one goal, in order. */
  function RoundsOf(log: Log, goal: nat): seq<nat> {
    if log == [] then []
    else
      var earlier, last := RoundsOf(log[..|log| - 1], goal), log[|log| - 1];
      if IsRound(last) && last.message.source.ref.goal == goal then earlier + [last.message.source.ref.round]
      else earlier
  }

  lemma RoundsOfOneMore(log: Log, event: Event, goal: nat)
    ensures RoundsOf(log + [event], goal) ==
            if IsRound(event) && event.message.source.ref.goal == goal
            then RoundsOf(log, goal) + [event.message.source.ref.round] else RoundsOf(log, goal)
  {
    assert (log + [event])[..|log|] == log;
  }

  /** The ids of the goals ever created, in order. */
  function CreatedIds(log: Log): seq<nat> {
    if log == [] then []
    else
      var earlier, last := CreatedIds(log[..|log| - 1]), log[|log| - 1];
      if last.GoalChanged? && last.change.operation == Create && last.change.goal.Some?
      then earlier + [last.change.goal.value.id] else earlier
  }

  lemma CreatedIdsOneMore(log: Log, event: Event)
    ensures CreatedIds(log + [event]) ==
            if event.GoalChanged? && event.change.operation == Create && event.change.goal.Some?
            then CreatedIds(log) + [event.change.goal.value.id] else CreatedIds(log)
  {
    assert (log + [event])[..|log|] == log;
  }

  predicate HasSnapshot(event: Event) {
    event.GoalChanged? && event.change.goal.Some?
  }

  /** One id at one revision always carries one round cap. */
  ghost predicate RevisionFixesCap(log: Log) {
    forall i, j :: 0 <= i < |log| && 0 <= j < |log| && HasSnapshot(log[i]) && HasSnapshot(log[j]) ==>
      var g, h := log[i].change.goal.value, log[j].change.goal.value;
      g.id == h.id && g.revision == h.revision ==> g.maxRounds == h.maxRounds
  }
}
