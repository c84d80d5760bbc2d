/** The memo of the plan-mode fold under interleaved readers and committers. */
module PlanModeCache {
  import opened Wrappers
  import opened SessionLog
  import opened PlanModeController

  type Thread = nat

  /** What a read is for: answering `active`, or the comparison inside `set`. */
  datatype Purpose = Plain | ForSet(turnOpen: bool, target: bool)

  /** Where a thread stands between two atomic scopes. */
  datatype Place =
    | Idle
    | SetLocked(turnOpen: bool, target: bool)
    | Missed(purpose: Purpose)
    | Folded(purpose: Purpose, value: bool)
    | Compared(turnOpen: bool, target: bool, logged: bool)
    | Wants(value: bool)
    | Committing(value: bool, viaSet: bool)
    | Invalidated(value: bool)
    | Appended(value: bool)

  datatype State = State(shared: Shared, commitLock: Option<Thread>, places: map<Thread, Place>)

  function At(state: State, t: Thread): Place {
    if t in state.places then state.places[t] else Idle
  }

  function Move(state: State, t: Thread, place: Place): State {
    state.(places := state.places[t := place])
  }

  datatype Step =
    | StartRead(t: Thread)
    | StartSet(t: Thread, turnOpen: bool, target: bool)
    | LookUpInSet(t: Thread)
    | FoldLog(t: Thread)
    | StoreFold(t: Thread)
    | Compare(t: Thread)
    | RequestExit
    | TakeSelection(t: Thread)
    | AcquireLock(t: Thread)
    | Invalidate(t: Thread)
    | AppendSelection(t: Thread)
    | RecordMemo(t: Thread)
    | AppendOther(event: Event)

  ghost predicate Enabled(state: State, step: Step) {
    match step
    case StartRead(t) => At(state, t).Idle?
    case StartSet(t, _, _) => At(state, t).Idle? && state.commitLock.None?
    case LookUpInSet(t) => At(state, t).SetLocked?
    case FoldLog(t) => At(state, t).Missed?
    case StoreFold(t) => At(state, t).Folded?
    case Compare(t) => At(state, t).Compared?
    case RequestExit => true
    case TakeSelection(t) => At(state, t).Idle?
    case AcquireLock(t) => At(state, t).Wants? && state.commitLock.None?
    case Invalidate(t) => At(state, t).Committing?
    case AppendSelection(t) => At(state, t).Invalidated?
    case RecordMemo(t) => At(state, t).Appended?
    case AppendOther(event) => !event.PlanMode?
  }

  ghost function Next(state: State, step: Step): State
    requires Enabled(state, step)
  {
    var shared := state.shared;
    match step
    case StartRead(t) =>
      if shared.memo.Some? then state else Move(state, t, Missed(Plain))
    case StartSet(t, turnOpen, target) =>
      Move(state, t, SetLocked(turnOpen, target)).(commitLock := Some(t))
    case LookUpInSet(t) =>
      var SetLocked(turnOpen, target) := At(state, t);
      if shared.memo.Some? then Move(state, t, Compared(turnOpen, target, shared.memo.value))
      else Move(state, t, Missed(ForSet(turnOpen, target)))
    case FoldLog(t) =>
      Move(state, t, Folded(At(state, t).purpose, PlanFold(shared.log)))
    case StoreFold(t) =>
      var Folded(purpose, value) := At(state, t);
      var filled := Filled(shared, value);
      Move(state, t, match purpose
                     case Plain => Idle
                     case ForSet(turnOpen, target) => Compared(turnOpen, target, filled.memo.value)).(shared := filled)
    case Compare(t) =>
      var Compared(turnOpen, target, logged) := At(state, t);
      var (decided, result) := Decided(shared, turnOpen, target, logged);
      if result == Committed then Move(state, t, Committing(target, true)).(shared := decided)
      else Move(state, t, Idle).(shared := decided, commitLock := None)
    case RequestExit => state.(shared := ExitRequested(shared))
    case TakeSelection(t) =>
      var (taken, selection) := Taken(shared);
      if selection.Some? then Move(state, t, Wants(selection.value)).(shared := taken)
      else if shared.memo.Some? then state else Move(state, t, Missed(Plain))
    case AcquireLock(t) =>
      Move(state, t, Committing(At(state, t).value, false)).(commitLock := Some(t))
    case Invalidate(t) =>
      Move(state, t, Invalidated(At(state, t).value)).(shared := shared.(memo := None))
    case AppendSelection(t) =>
      var value := At(state, t).value;
      Move(state, t, Appended(value)).(shared := shared.(log := shared.log + [PlanMode(value)]))
    case RecordMemo(t) =>
      Move(state, t, Idle).(shared := shared.(memo := Some(At(state, t).value)), commitLock := None)
    case AppendOther(event) => state.(shared := shared.(log := shared.log + [event]))
  }

  // ---------------------------------------------------------------------------
  // The invariant
  // ---------------------------------------------------------------------------

  predicate HoldsLock(place: Place) {
    || place.SetLocked? || place.Compared? || place.Committing? || place.Invalidated? || place.Appended?
    || (place.Missed? && place.purpose.ForSet?) || (place.Folded? && place.purpose.ForSet?)
  }

  /** A commit is between invalidating the memo and recording it. */
  predicate InWindow(state: State) {
    && state.commitLock.Some?
    && (At(state, state.commitLock.value).Invalidated? || At(state, state.commitLock.value).Appended?)
  }

  ghost predicate LockIsExclusive(state: State) {
    forall t: Thread :: HoldsLock(At(state, t)) <==> state.commitLock == Some(t)
  }

  /** Outside the window a valid memo is the fold of the log. */
  ghost predicate Coherent(state: State) {
    !InWindow(state) && state.shared.memo.Some? ==> state.shared.memo.value == PlanFold(state.shared.log)
  }

  /** Outside the window, while the memo is still invalid, so is nobody's fold stale. */
  ghost predicate FoldsAreFresh(state: State) {
    !InWindow(state) && state.shared.memo.None? ==>
      forall t :: At(state, t).Folded? ==> At(state, t).value == PlanFold(state.shared.log)
  }

  /** What the holder of the commit lock knows. */
  ghost predicate HolderKnowsLog(place: Place, log: Log) {
    match place
    case Folded(ForSet(_, _), value) => value == PlanFold(log)
    case Compared(_, _, logged) => logged == PlanFold(log)
    case Committing(value, viaSet) => viaSet ==> value != PlanFold(log)
    case Appended(value) => value == PlanFold(log)
    case _ => true
  }

  ghost predicate HoldersKnowLog(state: State) {
    forall t: Thread :: HolderKnowsLog(At(state, t), state.shared.log)
  }

  predicate OneSelectionQueued(state: State) {
    !(state.shared.pending.Some? && state.shared.pendingExit)
  }

  ghost predicate Inv(state: State)
  {
    && LockIsExclusive(state) && Coherent(state) && FoldsAreFresh(state)
    && HoldersKnowLog(state) && OneSelectionQueued(state)
  }

  lemma NextKeepsLock(state: State, step: Step)
    requires LockIsExclusive(state) && Enabled(state, step)
    ensures LockIsExclusive(Next(state, step))
  {
  }

  /** How a step changes the fold of the log: only the append of a commit does. */
  lemma NextFold(state: State, step: Step)
    requires Enabled(state, step)
    ensures PlanFold(Next(state, step).shared.log) ==
            if step.AppendSelection? then At(state, step.t).value else PlanFold(state.shared.log)
  {
    match step
    case AppendOther(event) => PlanFoldOneMore(state.shared.log, event);
    case AppendSelection(t) => PlanFoldOneMore(state.shared.log, PlanMode(At(state, t).value));
    case _ =>
  }

  lemma NextKeepsMemo(state: State, step: Step)
    requires Inv(state) && Enabled(state, step)
    ensures Coherent(Next(state, step)) && FoldsAreFresh(Next(state, step)) && OneSelectionQueued(Next(state, step))
  {
    hide PlanFold;
    NextFold(state, step);
    var next := Next(state, step);
    if !step.AppendOther? && !step.RequestExit? {
      var t := step.t;
      assert HolderKnowsLog(At(state, t), state.shared.log);
      assert HoldsLock(At(state, t)) <==> state.commitLock == Some(t);
    }
    if !InWindow(next) && next.shared.memo.None? {
      assert !InWindow(state) && state.shared.memo.None?;
      forall t: Thread | At(next, t).Folded? ensures At(next, t).value == PlanFold(next.shared.log) {
        assert At(state, t) == At(next, t) || step == FoldLog(t);
      }
    }
  }

  lemma NextKeepsHolders(state: State, step: Step)
    requires Inv(state) && Enabled(state, step)
    ensures HoldersKnowLog(Next(state, step))
  {
    hide PlanFold;
    NextFold(state, step);
    var next := Next(state, step);
    forall t: Thread ensures HolderKnowsLog(At(next, t), next.shared.log) {
      assert HolderKnowsLog(At(state, t), state.shared.log);
      assert HoldsLock(At(state, t)) <==> state.commitLock == Some(t);
    }
  }

  lemma {:induction false} NextKeepsInv(state: State, step: Step)
    requires Inv(state) && Enabled(state, step)
    ensures Inv(Next(state, step))
  {
    NextKeepsLock(state, step);
    NextKeepsMemo(state, step);
    NextKeepsHolders(state, step);
  }

  // ---------------------------------------------------------------------------
  // Every interleaving
  // ---------------------------------------------------------------------------

  /** A session as it is loaded: any log, a cold memo, nothing queued, nobody inside. */
  function Loaded(log: Log): State {
    State(Shared(log, None, None, false), None, map[])
  }

  ghost predicate IsRun(log: Log, steps: seq<Step>)
    decreases |steps|, 0
  {
    steps == [] || (IsRun(log, steps[..|steps| - 1]) && Enabled(Reached(log, steps[..|steps| - 1]), steps[|steps| - 1]))
  }

  ghost function Reached(log: Log, steps: seq<Step>): State
    requires IsRun(log, steps)
    decreases |steps|, 1
  {
    if steps == [] then Loaded(log) else Next(Reached(log, steps[..|steps| - 1]), steps[|steps| - 1])
  }

  lemma {:induction false} RunsKeepInv(log: Log, steps: seq<Step>)
    requires IsRun(log, steps)
    ensures Inv(Reached(log, steps))
  {
    if steps == [] {
      assert forall t: Thread :: At(Loaded(log), t) == Idle;
    } else {
      RunsKeepInv(log, steps[..|steps| - 1]);
      NextKeepsInv(Reached(log, steps[..|steps| - 1]), steps[|steps| - 1]);
    }
  }

  /** In every interleaving: outside a commit's window a valid memo equals the fold of
      the log, and a queued selection never coexists with a queued exit. */
  lemma {:induction false} MemoIsCoherent(log: Log, steps: seq<Step>)
    requires IsRun(log, steps)
    ensures Coherent(Reached(log, steps)) && OneSelectionQueued(Reached(log, steps))
  {
    RunsKeepInv(log, steps);
  }

  /** `set` always compares against the logged selection. */
  lemma SetComparesWithLog(log: Log, steps: seq<Step>, t: Thread)
    requires IsRun(log, steps) && Enabled(Reached(log, steps), Compare(t))
    ensures At(Reached(log, steps), t).logged == PlanFold(Reached(log, steps).shared.log)
  {
    RunsKeepInv(log, steps);
    assert HolderKnowsLog(At(Reached(log, steps), t), Reached(log, steps).shared.log);
  }

  /** A commit that `set` decided on always changes the logged selection. */
  lemma SetNeverCommitsNoChange(log: Log, steps: seq<Step>, t: Thread)
    requires IsRun(log, steps) && Enabled(Reached(log, steps), Invalidate(t)) && At(Reached(log, steps), t).viaSet
    ensures At(Reached(log, steps), t).value != PlanFold(Reached(log, steps).shared.log)
  {
    RunsKeepInv(log, steps);
    assert HolderKnowsLog(At(Reached(log, steps), t), Reached(log, steps).shared.log);
  }

  // ---------------------------------------------------------------------------
  // Inside the window
  // ---------------------------------------------------------------------------

  /** A valid memo answers what the log says. */
  predicate MemoIsTrue(state: State) {
    state.shared.memo.Some? ==> state.shared.memo.value == PlanFold(state.shared.log)
  }

  /** A reader stores a fold other than the log's, or a commit appends beside a memo that
      was filled after it invalidated it. */
  ghost predicate MakesStale(state: State, step: Step) {
    match step
    case StoreFold(t) =>
      At(state, t).Folded? && state.shared.memo.None? && At(state, t).value != PlanFold(state.shared.log)
    case AppendSelection(t) =>
      At(state, t).Invalidated? && state.shared.memo.Some? && state.shared.memo.value != At(state, t).value
    case _ => false
  }

  /** These steps, both inside a window, are exactly those that make a true memo stale. */
  lemma MemoGoesStaleExactly(state: State, step: Step)
    requires Inv(state) && Enabled(state, step) && MemoIsTrue(state)
    ensures !MemoIsTrue(Next(state, step)) <==> MakesStale(state, step)
    ensures MakesStale(state, step) ==> InWindow(state)
  {
    hide PlanFold;
    NextFold(state, step);
    if !step.AppendOther? && !step.RequestExit? {
      assert HolderKnowsLog(At(state, step.t), state.shared.log);
      assert HoldsLock(At(state, step.t)) <==> state.commitLock == Some(step.t);
    }
  }

  /** The end of the commit makes the memo true again, whatever it held. */
  lemma RecordingRestoresMemo(state: State, t: Thread)
    requires Inv(state) && Enabled(state, RecordMemo(t))
    ensures Next(state, RecordMemo(t)).shared.memo.Some? && MemoIsTrue(Next(state, RecordMemo(t)))
  {
    hide PlanFold;
    assert HolderKnowsLog(At(state, t), state.shared.log);
  }

  /** A reader folds `true` and stalls; an exit is requested and committed; a second
      exit is requested and its commit opens the window; the reader wakes up. */
  function StallingRun(): seq<Step> {
    [StartRead(0), FoldLog(0),
     RequestExit, TakeSelection(1), AcquireLock(1), Invalidate(1), AppendSelection(1), RecordMemo(1),
     RequestExit, TakeSelection(1), AcquireLock(1), Invalidate(1),
     StoreFold(0)]
  }

  lemma RunOneMore(log: Log, steps: seq<Step>, step: Step)
    requires IsRun(log, steps) && Enabled(Reached(log, steps), step)
    ensures IsRun(log, steps + [step]) && Reached(log, steps + [step]) == Next(Reached(log, steps), step)
  {
    assert (steps + [step])[..|steps|] == steps;
  }

  lemma NoSteps(log: Log)
    ensures IsRun(log, []) && Reached(log, []) == Loaded(log)
  {
  }

  /** A reader has folded the log. */
  lemma FirstFold() returns (steps: seq<Step>, state: State)
    ensures steps == StallingRun()[..2] && IsRun([PlanMode(true)], steps) && state == Reached([PlanMode(true)], steps)
    ensures state.shared == Shared([PlanMode(true)], None, None, false) && state.commitLock == None
    ensures At(state, 0) == Folded(Plain, true) && At(state, 1) == Idle
  {
    hide PlanFold, IsRun, Reached;
    var log := [PlanMode(true)];
    PlanFoldOneMore([], PlanMode(true));
    assert [] + [PlanMode(true)] == log;
    NoSteps(log);
    steps, state := [], Loaded(log);
    steps, state := Extend(log, steps, state, StartRead(0));
    steps, state := Extend(log, steps, state, FoldLog(0));
  }

  /** A reader has folded the log, and a commit is about to begin. */
  lemma BeforeFirstCommit() returns (steps: seq<Step>, state: State)
    ensures steps == StallingRun()[..5] && IsRun([PlanMode(true)], steps) && state == Reached([PlanMode(true)], steps)
    ensures state.shared == Shared([PlanMode(true)], None, None, false) && state.commitLock == Some(1)
    ensures At(state, 0) == Folded(Plain, true) && At(state, 1) == Committing(false, false)
  {
    hide PlanFold, IsRun, Reached;
    var log := [PlanMode(true)];
    steps, state := FirstFold();
    steps, state := Extend(log, steps, state, RequestExit);
    steps, state := Extend(log, steps, state, TakeSelection(1));
    steps, state := Extend(log, steps, state, AcquireLock(1));
  }

  /** The first commit runs to its end while the reader sits on its fold. */
  lemma FirstCommit() returns (steps: seq<Step>, state: State)
    ensures steps == StallingRun()[..8] && IsRun([PlanMode(true)], steps) && state == Reached([PlanMode(true)], steps)
    ensures state.commitLock == None && !state.shared.pendingExit && state.shared.pending == None
    ensures At(state, 0) == Folded(Plain, true) && At(state, 1) == Idle && !PlanFold(state.shared.log)
  {
    hide PlanFold, IsRun, Reached;
    var log := [PlanMode(true)];
    steps, state := BeforeFirstCommit();
    steps, state := Extend(log, steps, state, Invalidate(1));
    PlanFoldOneMore(state.shared.log, PlanMode(false));
    steps, state := Extend(log, steps, state, AppendSelection(1));
    steps, state := Extend(log, steps, state, RecordMemo(1));
  }

  /** Inside the window coherence does fail: the memo then answers `true`, although
      the log says `false` and the commit under way selects `false` as well. */
  lemma WindowMayServeStaleMemo()
    ensures IsRun([PlanMode(true)], StallingRun())
    ensures var state := Reached([PlanMode(true)], StallingRun());
            && InWindow(state) && state.shared.memo == Some(true)
            && !PlanFold(state.shared.log) && At(state, 1) == Invalidated(false)
  {
    hide PlanFold, IsRun, Reached;
    var log := [PlanMode(true)];
    var steps, state := FirstCommit();
    steps, state := Extend(log, steps, state, RequestExit);
    steps, state := Extend(log, steps, state, TakeSelection(1));
    steps, state := Extend(log, steps, state, AcquireLock(1));
    steps, state := Extend(log, steps, state, Invalidate(1));
    steps, state := Extend(log, steps, state, StoreFold(0));
    assert steps == StallingRun();
  }

  lemma Extend(log: Log, steps: seq<Step>, state: State, step: Step) returns (more: seq<Step>, next: State)
    requires IsRun(log, steps) && state == Reached(log, steps) && Enabled(state, step)
    ensures more == steps + [step] && IsRun(log, more) && next == Reached(log, more) && next == Next(state, step)
  {
    RunOneMore(log, steps, step);
    more, next := steps + [step], Next(state, step);
  }
}
