/** A run in which a queued round is logged too late. */
module LateRound {
  import opened Wrappers
  import opened SessionLog
  import opened GoalProjection
  import opened GoalService
  import GoalRuns
  import opened UngatedRounds

  lemma RunOneMore(actions: seq<Action>, action: Action, defaultMaxRounds: nat)
    ensures Run(actions + [action], defaultMaxRounds) ==
            After(Run(actions, defaultMaxRounds), action, defaultMaxRounds)
  {
    assert (actions + [action])[..|actions|] == actions;
  }

  const TURN_END := Action.EndTurn(true)
  const CREATE := Action.Operate(RequestCreate([0x61], Some(3)))
  const EDIT := Action.Operate(RequestEdit(GoalRef(1, 1), None, Some(4)))

  const GOAL := GoalSnapshot(1, 1, [0x61], Active, None, 3)
  const CREATED := GoalChanged(GoalChange(GoalOperation.Create, Some(GOAL), None, 0))

  lemma CreateIsAccepted(defaultMaxRounds: nat)
    ensures Performed(State([], false, None), CREATE.request, defaultMaxRounds) == State([CREATED], true, None)
  {
    assert Trim([0x61]) == [0x61];
    assert NextGoalId(EMPTY) == 1;
    hide Trim, NextGoalId;
    NothingProjected();
  }

  lemma NothingProjected()
    ensures Projected([]) == EMPTY
  {
  }

  lemma CreatedIsProjected()
    ensures Projected([CREATED]) == Fold(Some(Current(GOAL, 0)), [1], None)
  {
    NothingProjected();
    ProjectOneMore([], CREATED);
    assert [] + [CREATED] == [CREATED];
    hide Projected;
  }

  lemma GoalIsCreated(defaultMaxRounds: nat)
    ensures var host := Run([CREATE], defaultMaxRounds);
            && GoodHost(host) && host == Host(State([CREATED], true, None), [])
            && Projected(host.state.log) == Fold(Some(Current(GOAL, 0)), [1], None)
  {
    assert [CREATE] == [] + [CREATE];
    RunOneMore([], CREATE, defaultMaxRounds);
    GoalRuns.EmptyIsGood();
    assert Run([], defaultMaxRounds) == Host(State([], false, None), []);
    assert GoodHost(Run([], defaultMaxRounds));
    hide GoodHost, Projected, Performed, Run;
    ActionKeepsGoodHost(Host(State([], false, None), []), CREATE, defaultMaxRounds);
    CreateIsAccepted(defaultMaxRounds);
    CreatedIsProjected();
  }

  /** A goal is created, and the end of a turn queues its first round. */
  lemma {:induction false} FirstRoundIsQueued(defaultMaxRounds: nat)
    ensures var host := Run([CREATE, TURN_END], defaultMaxRounds);
            && GoodHost(host) && host.queued == [GoalRoundRef(1, 1, 1)] && StillNext(host.state, host.queued[0])
            && Projected(host.state.log).current.Some?
            && Projected(host.state.log).current.value.goal == GOAL
  {
    var d := defaultMaxRounds;
    GoalIsCreated(d);
    assert [CREATE, TURN_END] == [CREATE] + [TURN_END];
    RunOneMore([CREATE], TURN_END, d);
    hide GoodHost, Projected, Run;
    ActionKeepsGoodHost(Run([CREATE], d), TURN_END, d);
  }

  lemma EditIsAccepted(defaultMaxRounds: nat)
    ensures Refused(Run([CREATE, TURN_END], defaultMaxRounds).state, EDIT.request, defaultMaxRounds).None?
  {
    FirstRoundIsQueued(defaultMaxRounds);
    hide Run, Projected, GoalRuns.Good;
    NotFailed(Run([CREATE, TURN_END], defaultMaxRounds).state);
  }

  /** It is logged after an edit, and the projection fails. */
  lemma EditedRoundFails(text: Text, defaultMaxRounds: nat)
    ensures var actions := [CREATE, TURN_END, EDIT, LogNext(text)];
            && (forall i :: 0 <= i < |actions| ==> IsPossible(actions[i]))
            && Projected(Run(actions, defaultMaxRounds).state.log).failure == Some(InvalidRound)
  {
    var queued, d := [CREATE, TURN_END], defaultMaxRounds;
    FirstRoundIsQueued(d);
    EditIsAccepted(d);
    hide Run, After, GoodHost, Projected, Refused, StillNext;
    assert queued + [EDIT] + [LogNext(text)] == [CREATE, TURN_END, EDIT, LogNext(text)];
    RunOneMore(queued, EDIT, d);
    RunOneMore(queued + [EDIT], LogNext(text), d);
    OperationBeforeMessageFails(Run(queued, d), EDIT.request, d, text);
  }
}
