/** What becomes of a selection in every interleaving: set inside an open turn it waits for
    the step start or turn end that takes it, set outside it is committed by its own thread. */
module PlanModeSelections {
  import opened Wrappers
  import opened SessionLog
  import opened PlanModeController
  import opened PlanModeCache

  // ---------------------------------------------------------------------------
  // One comparison
  // ---------------------------------------------------------------------------

  /** Inside an open turn `set` logs nothing and lets go of the lock. */
  lemma SetInsideTurnWaits(state: State, t: Thread, target: bool, logged: bool)
    requires At(state, t) == Compared(true, target, logged)
    ensures var next := Next(state, Compare(t));
            && At(next, t) == Idle && next.commitLock == None
            && next.shared.log == state.shared.log && !next.shared.pendingExit
            && (logged != target ==> next.shared.pending == Some(target))
  {
  }

  /** A target that is logged already cancels the opposite selection, and nothing else. */
  lemma SetOfLoggedCancels(state: State, t: Thread, turnOpen: bool, target: bool)
    requires At(state, t) == Compared(turnOpen, target, target)
    ensures var next := Next(state, Compare(t));
            && At(next, t) == Idle && next.commitLock == None
            && next.shared.log == state.shared.log && !next.shared.pendingExit
            && next.shared.pending == if state.shared.pending == Some(!target) then None else state.shared.pending
  {
  }

  /** Outside, a `set` that changes the logged selection keeps the lock, drops what is queued,
      and, when nothing comes in between, logs exactly its target. */
  lemma SetOutsideTurnCommits(state: State, t: Thread, target: bool, logged: bool)
    requires At(state, t) == Compared(false, target, logged) && logged != target
    ensures var decided := Next(state, Compare(t));
            && At(decided, t) == Committing(target, true) && decided.commitLock == state.commitLock
            && decided.shared.log == state.shared.log
            && decided.shared.pending == None && !decided.shared.pendingExit
    ensures var last := Next(Next(Next(Next(state, Compare(t)), Invalidate(t)), AppendSelection(t)), RecordMemo(t));
            && last.shared == Shared(state.shared.log + [PlanMode(target)], Some(target), None, false)
            && last.commitLock == None && At(last, t) == Idle
  {
    var decided := Next(state, Compare(t));
    var invalidated := Next(decided, Invalidate(t));
    assert At(invalidated, t) == Invalidated(target);
    var appended := Next(invalidated, AppendSelection(t));
    assert At(appended, t) == Appended(target);
  }

  /** Among the threads, too, `set` selects its target: at once, or by the commit it begins. */
  lemma SetSelects(log: Log, steps: seq<Step>, t: Thread)
    requires IsRun(log, steps) && Enabled(Reached(log, steps), Compare(t))
    ensures var state := Reached(log, steps);
            var next := Next(state, Compare(t));
            At(next, t) == Committing(At(state, t).target, true) || Selected(next.shared) == At(state, t).target
  {
    SetComparesWithLog(log, steps, t);
  }

  // ---------------------------------------------------------------------------
  // Where a commit comes from
  // ---------------------------------------------------------------------------

  /** `step`, taken in `state`, is a `set` outside any turn that thread `t` begins to commit. */
  ghost predicate SetsOutside(state: State, step: Step, t: Thread, value: bool) {
    && step == Compare(t) && At(state, t).Compared?
    && !At(state, t).turnOpen && At(state, t).target == value != At(state, t).logged
  }

  /** `step`, taken in `state`, is a `set` inside an open turn of a selection not logged. */
  ghost predicate SetsInside(state: State, step: Step, value: bool) {
    && step.Compare? && At(state, step.t).Compared?
    && At(state, step.t).turnOpen && At(state, step.t).target == value != At(state, step.t).logged
  }

  /** `step`, taken in `state`, is a step start or turn end of thread `t` that takes `value`. */
  ghost predicate Takes(state: State, step: Step, t: Thread, value: bool) {
    && step == TakeSelection(t)
    && (state.shared.pending == Some(value) || (state.shared.pending == None && state.shared.pendingExit && !value))
  }

  /** The state the run has reached before its step `m`. */
  ghost function Before(log: Log, steps: seq<Step>, m: nat): (state: State)
    requires IsRun(log, steps) && m <= |steps|
    ensures m == |steps| ==> state == Reached(log, steps)
  {
    PrefixIsRun(log, steps, m);
    assert m == |steps| ==> steps[..m] == steps;
    Reached(log, steps[..m])
  }

  lemma {:induction false} PrefixIsRun(log: Log, steps: seq<Step>, m: nat)
    requires IsRun(log, steps) && m <= |steps|
    ensures IsRun(log, steps[..m])
  {
    if m < |steps| {
      var init := steps[..|steps| - 1];
      PrefixIsRun(log, init, m);
      assert init[..m] == steps[..m];
    } else {
      assert steps[..m] == steps;
    }
  }

  /** Step `m` gives thread `t` the value it commits, and `t` logs nothing between `m` and `n`. */
  ghost predicate Owes(log: Log, steps: seq<Step>, m: nat, n: nat, t: Thread, value: bool)
    requires IsRun(log, steps) && n <= |steps|
  {
    && m < n
    && (SetsOutside(Before(log, steps, m), steps[m], t, value) || Takes(Before(log, steps, m), steps[m], t, value))
    && forall k :: m < k < n ==> steps[k] != AppendSelection(t)
  }

  /** On its way to the log. */
  predicate Carries(place: Place) {
    place.Wants? || place.Committing? || place.Invalidated?
  }

  lemma BeforeOfInit(log: Log, steps: seq<Step>, m: nat)
    requires IsRun(log, steps) && m < |steps|
    ensures IsRun(log, steps[..|steps| - 1])
    ensures Before(log, steps, m) == Before(log, steps[..|steps| - 1], m)
  {
    var init := steps[..|steps| - 1];
    PrefixIsRun(log, steps, |init|);
    assert init[..m] == steps[..m];
  }

  lemma StillOwes(log: Log, steps: seq<Step>, m: nat, t: Thread, value: bool)
    requires IsRun(log, steps) && steps != [] && IsRun(log, steps[..|steps| - 1])
    requires Owes(log, steps[..|steps| - 1], m, |steps| - 1, t, value) && steps[|steps| - 1] != AppendSelection(t)
    ensures Owes(log, steps, m, |steps|, t, value)
  {
    hide Before, IsRun, SetsOutside, Takes;
    BeforeOfInit(log, steps, m);
    var init := steps[..|steps| - 1];
    forall k | m < k < |steps| ensures steps[k] != AppendSelection(t) {
      assert k < |init| ==> steps[k] == init[k];
    }
  }

  /** How a thread comes to carry a value: it did so before, or this step gave it. */
  lemma CarriedSince(state: State, step: Step, t: Thread)
    requires Enabled(state, step) && Carries(At(Next(state, step), t))
    ensures var value := At(Next(state, step), t).value;
            || SetsOutside(state, step, t, value) || Takes(state, step, t, value)
            || (Carries(At(state, t)) && At(state, t).value == value && step != AppendSelection(t))
  {
  }

  lemma {:induction false} CarriedIsOwed(log: Log, steps: seq<Step>, t: Thread) returns (m: nat)
    requires IsRun(log, steps) && Carries(At(Reached(log, steps), t))
    ensures Owes(log, steps, m, |steps|, t, At(Reached(log, steps), t).value)
  {
    var init, step := steps[..|steps| - 1], steps[|steps| - 1];
    var state := Reached(log, init);
    var value := At(Reached(log, steps), t).value;
    CarriedSince(state, step, t);
    if SetsOutside(state, step, t, value) || Takes(state, step, t, value) {
      m := |init|;
      assert Before(log, steps, m) == state;
    } else {
      m := CarriedIsOwed(log, init, t);
      StillOwes(log, steps, m, t, value);
    }
  }

  /** In every interleaving a commit logs exactly one selection: the target of its thread's own
      `set` outside any turn, or what its step start or turn end took from the queue; and it
      logs that once. A selection set inside an open turn gets into the log in no other way. */
  lemma EveryCommitIsOwed(log: Log, steps: seq<Step>, n: nat) returns (m: nat, value: bool)
    requires IsRun(log, steps) && n < |steps| && steps[n].AppendSelection?
    ensures Owes(log, steps, m, n, steps[n].t, value)
    ensures Before(log, steps, n + 1).shared.log == Before(log, steps, n).shared.log + [PlanMode(value)]
  {
    hide Before, Reached, Takes, SetsOutside;
    OneStepOn(log, steps, n);
    var t, state := steps[n].t, Before(log, steps, n);
    value := At(state, t).value;
    assert steps[..n + 1] == steps[..n] + [steps[n]];
    PrefixIsRun(log, steps, n);
    BeforeIsReached(log, steps, n);
    m := CarriedIsOwed(log, steps[..n], t);
    OwesInPrefix(log, steps, m, n, t, value);
  }

  lemma BeforeIsReached(log: Log, steps: seq<Step>, n: nat)
    requires IsRun(log, steps) && n <= |steps|
    ensures IsRun(log, steps[..n]) && Before(log, steps, n) == Reached(log, steps[..n])
  {
    PrefixIsRun(log, steps, n);
  }

  lemma OneStepOn(log: Log, steps: seq<Step>, n: nat)
    requires IsRun(log, steps) && n < |steps|
    ensures Enabled(Before(log, steps, n), steps[n])
    ensures Before(log, steps, n + 1) == Next(Before(log, steps, n), steps[n])
  {
    PrefixIsRun(log, steps, n + 1);
    var more := steps[..n + 1];
    assert more[..n] == steps[..n];
  }

  lemma OwesInPrefix(log: Log, steps: seq<Step>, m: nat, n: nat, t: Thread, value: bool)
    requires IsRun(log, steps) && n <= |steps| && IsRun(log, steps[..n])
    requires Owes(log, steps[..n], m, n, t, value)
    ensures Owes(log, steps, m, n, t, value)
  {
    hide IsRun, SetsOutside, Takes;
    var prefix := steps[..n];
    BeforeOfPrefix(log, steps, m, n);
    forall k | m < k < n ensures steps[k] != AppendSelection(t) {
      assert steps[k] == prefix[k];
    }
  }

  lemma BeforeOfPrefix(log: Log, steps: seq<Step>, m: nat, n: nat)
    requires IsRun(log, steps) && m <= n <= |steps| && IsRun(log, steps[..n])
    ensures Before(log, steps[..n], m) == Before(log, steps, m)
  {
    assert steps[..n][..m] == steps[..m];
  }

  // ---------------------------------------------------------------------------
  // Where a queued selection comes from
  // ---------------------------------------------------------------------------

  /** Step `m` queued the selection: a `set` inside an open turn; it is queued ever since. */
  ghost predicate QueuedSince(log: Log, steps: seq<Step>, m: nat, value: bool)
    requires IsRun(log, steps)
  {
    && m < |steps| && SetsInside(Before(log, steps, m), steps[m], value)
    && forall k :: m < k <= |steps| ==> Before(log, steps, k).shared.pending == Some(value)
  }

  ghost predicate ExitSince(log: Log, steps: seq<Step>, m: nat)
    requires IsRun(log, steps)
  {
    && m < |steps| && steps[m] == RequestExit
    && forall k :: m < k <= |steps| ==> Before(log, steps, k).shared.pendingExit
  }

  lemma QueuedBy(state: State, step: Step)
    requires Enabled(state, step)
    ensures var next := Next(state, step);
            && (next.shared.pending.Some? ==>
                  next.shared.pending == state.shared.pending || SetsInside(state, step, next.shared.pending.value))
            && (next.shared.pendingExit ==> state.shared.pendingExit || step == RequestExit)
  {
  }

  lemma StillQueued(log: Log, steps: seq<Step>, m: nat, value: bool)
    requires IsRun(log, steps) && steps != [] && IsRun(log, steps[..|steps| - 1])
    requires QueuedSince(log, steps[..|steps| - 1], m, value)
    requires Reached(log, steps).shared.pending == Some(value)
    ensures QueuedSince(log, steps, m, value)
  {
    hide IsRun, SetsInside, Reached;
    var init := steps[..|steps| - 1];
    BeforeOfInit(log, steps, m);
    BeforeIsReached(log, steps, |steps|);
    assert steps[..|steps|] == steps;
    forall k | m < k <= |steps| ensures Before(log, steps, k).shared.pending == Some(value) {
      if k < |steps| {
        BeforeOfInit(log, steps, k);
      }
    }
  }

  lemma StillExiting(log: Log, steps: seq<Step>, m: nat)
    requires IsRun(log, steps) && steps != [] && IsRun(log, steps[..|steps| - 1])
    requires ExitSince(log, steps[..|steps| - 1], m) && Reached(log, steps).shared.pendingExit
    ensures ExitSince(log, steps, m)
  {
    hide IsRun, Reached;
    var init := steps[..|steps| - 1];
    BeforeIsReached(log, steps, |steps|);
    assert steps[..|steps|] == steps;
    forall k | m < k <= |steps| ensures Before(log, steps, k).shared.pendingExit {
      if k < |steps| {
        BeforeOfInit(log, steps, k);
      }
    }
  }

  /** In every interleaving a queued selection was queued by a `set` inside an open turn, of a
      selection other than the logged one, and was never taken since. */
  lemma {:induction false} QueuedWasSetInside(log: Log, steps: seq<Step>) returns (m: nat)
    requires IsRun(log, steps) && Reached(log, steps).shared.pending.Some?
    ensures QueuedSince(log, steps, m, Reached(log, steps).shared.pending.value)
  {
    var value := Reached(log, steps).shared.pending.value;
    var init, step := steps[..|steps| - 1], steps[|steps| - 1];
    var state := Reached(log, init);
    QueuedBy(state, step);
    if SetsInside(state, step, value) {
      m := |init|;
      BeforeIsReached(log, steps, |init|);
      BeforeIsReached(log, steps, |steps|);
      assert steps[..|steps|] == steps && steps[..|init|] == init;
    } else {
      m := QueuedWasSetInside(log, init);
      StillQueued(log, steps, m, value);
    }
  }

  /** And a queued exit was requested, with nothing taking it since. */
  lemma {:induction false} ExitWasRequested(log: Log, steps: seq<Step>) returns (m: nat)
    requires IsRun(log, steps) && Reached(log, steps).shared.pendingExit
    ensures ExitSince(log, steps, m)
  {
    var init, step := steps[..|steps| - 1], steps[|steps| - 1];
    var state := Reached(log, init);
    QueuedBy(state, step);
    if step == RequestExit {
      m := |init|;
      BeforeIsReached(log, steps, |steps|);
      assert steps[..|steps|] == steps;
    } else {
      m := ExitWasRequested(log, init);
      StillExiting(log, steps, m);
    }
  }

  // ---------------------------------------------------------------------------
  // A commit that began is carried out
  // ---------------------------------------------------------------------------

  /** Nobody but its own thread moves a commit on, and only towards the log. */
  lemma CommitsGoOn(state: State, step: Step, t: Thread)
    requires Enabled(state, step) && (Carries(At(state, t)) || At(state, t).Appended?)
    ensures var place, next := At(state, t), At(Next(state, step), t);
            if step == AcquireLock(t) then next == Committing(place.value, false)
            else if step == Invalidate(t) then next == Invalidated(place.value)
            else if step == AppendSelection(t) then next == Appended(place.value)
            else if step == RecordMemo(t) then next == Idle
            else next == place
    ensures Next(state, step).shared.log == state.shared.log +
            if step.AppendSelection? then [PlanMode(At(state, step.t).value)]
            else if step.AppendOther? then [step.event]
            else []
  {
    assert state.shared.log + [] == state.shared.log;
  }

  /** A `set` inside an open turn, and the step start that takes its selection, in one run. */
  function WaitingRun(): seq<Step> {
    [StartSet(0, true, true), LookUpInSet(0), FoldLog(0), StoreFold(0), Compare(0), TakeSelection(1),
     AcquireLock(1), Invalidate(1), AppendSelection(1)]
  }

  lemma LookedInside() returns (steps: seq<Step>, state: State)
    ensures steps == WaitingRun()[..3] && IsRun([], steps) && state == Reached([], steps)
    ensures state.shared == Shared([], None, None, false) && state.commitLock == Some(0)
    ensures At(state, 0) == Folded(ForSet(true, true), false) && At(state, 1) == Idle
  {
    NoSteps([]);
    hide IsRun, Reached;
    steps, state := [], Loaded([]);
    steps, state := Extend([], steps, state, StartSet(0, true, true));
    steps, state := Extend([], steps, state, LookUpInSet(0));
    steps, state := Extend([], steps, state, FoldLog(0));
  }

  lemma SetInside() returns (steps: seq<Step>, state: State)
    ensures steps == WaitingRun()[..5] && IsRun([], steps) && state == Reached([], steps)
    ensures state.shared == Shared([], Some(false), Some(true), false) && state.commitLock == None
    ensures At(state, 0) == Idle && At(state, 1) == Idle
  {
    hide IsRun, Reached, PlanFold;
    steps, state := LookedInside();
    steps, state := Extend([], steps, state, StoreFold(0));
    steps, state := Extend([], steps, state, Compare(0));
  }

  lemma SelectionWaitsItsTurn()
    ensures IsRun([], WaitingRun()[..5]) && Reached([], WaitingRun()[..5]).shared.log == []
    ensures IsRun([], WaitingRun()) && Reached([], WaitingRun()).shared.log == [PlanMode(true)]
  {
    hide IsRun, Reached, PlanFold;
    var steps, state := SetInside();
    steps, state := Extend([], steps, state, TakeSelection(1));
    steps, state := Extend([], steps, state, AcquireLock(1));
    steps, state := Extend([], steps, state, Invalidate(1));
    steps, state := Extend([], steps, state, AppendSelection(1));
    assert steps == WaitingRun();
    assert [] + [PlanMode(true)] == [PlanMode(true)];
  }
}
