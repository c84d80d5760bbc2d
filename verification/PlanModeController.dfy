/** The plan-mode controller: its critical sections, one per lock scope. */
module PlanModeController {
  import opened Wrappers
  import opened SessionLog

  /** The logged selection: the last one wins, none means inactive. */
  function PlanFold(log: Log): bool {
    if log == [] then false
    else if log[|log| - 1].PlanMode? then log[|log| - 1].active
    else PlanFold(log[..|log| - 1])
  }

  method ProjectPlanMode(log: Log) returns (active: bool)
    ensures active == PlanFold(log)
  {
    active := false;
    for i := 0 to |log|
      invariant active == PlanFold(log[..i])
    {
      assert log[..i + 1][..i] == log[..i];
      if log[i].PlanMode? {
        active := log[i].active;
      }
    }
    assert log[..|log|] == log;
  }

  lemma PlanFoldOneMore(log: Log, event: Event)
    ensures PlanFold(log + [event]) == if event.PlanMode? then event.active else PlanFold(log)
  {
    assert (log + [event])[..|log|] == log;
  }

  /** Event `i` turned plan mode on, and none of the later ones selects anything. */
  predicate TurnsOnLast(log: Log, i: nat) {
    i < |log| && log[i] == PlanMode(true) && forall j :: i < j < |log| ==> !log[j].PlanMode?
  }

  /** Plan mode is on exactly when some event turned it on and no later one selects anything. */
  lemma {:induction false} LastSelectionDecides(log: Log)
    ensures PlanFold(log) <==> exists i :: TurnsOnLast(log, i)
  {
    if log != [] {
      var init, last := log[..|log| - 1], |log| - 1;
      LastSelectionDecides(init);
      if log[last].PlanMode? {
        assert forall i :: TurnsOnLast(log, i) ==> i == last;
        assert PlanFold(log) ==> TurnsOnLast(log, last);
      } else {
        assert forall i :: TurnsOnLast(log, i) <==> TurnsOnLast(init, i);
      }
    }
  }

  /** What the threads of one session share. `memo` is None while invalid or absent. */
  datatype Shared = Shared(log: Log, memo: Option<bool>, pending: Option<bool>, pendingExit: bool)

  datatype SetResult = Cancelled | Unchanged | Queued | Committed

  /** `active`, second scope: fills an invalid memo, never overwrites a valid one. */
  function Filled(shared: Shared, folded: bool): Shared {
    if shared.memo.None? then shared.(memo := Some(folded)) else shared
  }

  /** `set`, inner scope: compares the target with the logged selection. */
  function Decided(shared: Shared, turnOpen: bool, target: bool, logged: bool): (Shared, SetResult) {
    var cleared := shared.(pendingExit := false);
    if logged == target then
      if shared.pending == Some(!target) then (cleared.(pending := None), SetResult.Cancelled) else (cleared, Unchanged)
    else if turnOpen then (cleared.(pending := Some(target)), Queued)
    else (cleared.(pending := None), Committed)
  }

  function ExitRequested(shared: Shared): Shared {
    shared.(pending := None, pendingExit := true)
  }

  /** `apply_pending_at_step_start` and `flush_pending_at_turn_end`, first scope. */
  function Taken(shared: Shared): (Shared, Option<bool>) {
    if shared.pending.Some? then (shared.(pending := None), shared.pending)
    else if shared.pendingExit then (shared.(pendingExit := false), Some(false))
    else (shared, None)
  }

  /** The selection in force once everything queued is committed, a selection before an exit. */
  function Selected(shared: Shared): bool {
    if shared.pending.Some? then shared.pending.value
    else if shared.pendingExit then false
    else PlanFold(shared.log)
  }

  /** A queued selection and a queued exit exclude each other, and a valid memo tells the truth. */
  predicate IsQuiet(shared: Shared) {
    && !(shared.pending.Some? && shared.pendingExit)
    && (shared.memo.Some? ==> shared.memo.value == PlanFold(shared.log))
  }

  class Controller {
    var log: Log
    var memo: Option<bool>
    var pending: Option<bool>
    var pendingExit: bool

    ghost function Abs(): Shared
      reads this
    {
      Shared(log, memo, pending, pendingExit)
    }

    constructor (log: Log)
      ensures Abs() == Shared(log, None, None, false)
    {
      this.log := log;
      memo, pending, pendingExit := None, None, false;
    }

    method Fill(folded: bool) returns (active: bool)
      modifies this
      ensures Abs() == old(Filled(Abs(), folded)) && memo == Some(active)
      ensures active == if old(memo).Some? then old(memo).value else folded
      ensures log == old(log) && pending == old(pending) && pendingExit == old(pendingExit)
    {
      if memo.None? {
        memo := Some(folded);
      }
      active := memo.value;
    }

    method Decide(turnOpen: bool, target: bool, logged: bool) returns (result: SetResult)
      modifies this
      ensures (Abs(), result) == old(Decided(Abs(), turnOpen, target, logged))
      ensures log == old(log) && memo == old(memo) && !pendingExit
      ensures result == Queued <==> logged != target && turnOpen
      ensures result == Committed <==> logged != target && !turnOpen
      ensures result == SetResult.Cancelled <==> logged == target && old(pending) == Some(!target)
      ensures pending == match result
                         case Queued => Some(target)
                         case Unchanged => old(pending)
                         case _ => None
    {
      pendingExit := false;
      if logged == target {
        if pending.Some? && pending.value != target {
          pending := None;
          return SetResult.Cancelled;
        }
        return Unchanged;
      }
      if turnOpen {
        pending := Some(target);
        return Queued;
      }
      pending := None;
      return Committed;
    }

    method RequestExit()
      modifies this
      ensures Abs() == old(ExitRequested(Abs()))
      ensures log == old(log) && memo == old(memo) && pending == None && pendingExit
      ensures !Selected(Abs())
    {
      pending := None;
      pendingExit := true;
    }

    method TakePending() returns (selection: Option<bool>)
      modifies this
      ensures (Abs(), selection) == old(Taken(Abs()))
      ensures log == old(log) && memo == old(memo) && pending == None
      ensures selection == if old(pending).Some? then old(pending) else if old(pendingExit) then Some(false) else None
      ensures pendingExit <==> old(pendingExit) && old(pending).Some?
    {
      if pending.Some? {
        selection := pending;
        pending := None;
      } else if pendingExit {
        selection := Some(false);
        pendingExit := false;
      } else {
        selection := None;
      }
    }

    /** `commit_locked_` run alone: afterwards the memo is the logged selection. */
    method CommitLocked(value: bool)
      modifies this
      ensures Abs() == old(Abs()).(log := old(log) + [PlanMode(value)], memo := Some(value))
      ensures memo == Some(PlanFold(log))
    {
      memo := None;
      PlanFoldOneMore(log, PlanMode(value));
      log := log + [PlanMode(value)];
      memo := Some(value);
    }

    /** `active` run alone answers what the log says. */
    method Active() returns (active: bool)
      requires IsQuiet(Abs())
      modifies this
      ensures IsQuiet(Abs()) && active == PlanFold(log)
      ensures log == old(log) && pending == old(pending) && pendingExit == old(pendingExit)
    {
      if memo.Some? {
        return memo.value;
      }
      var folded := ProjectPlanMode(log);
      active := Fill(folded);
    }

    /** `set` run alone: whatever was queued before, the target is selected; only outside an
        open turn, and only when it differs from the logged selection, does it reach the log. */
    method Set(turnOpen: bool, target: bool) returns (result: SetResult)
      requires IsQuiet(Abs())
      modifies this
      ensures IsQuiet(Abs()) && Selected(Abs()) == target && !pendingExit
      ensures log == if !turnOpen && PlanFold(old(log)) != target then old(log) + [PlanMode(target)] else old(log)
      ensures !turnOpen ==> PlanFold(log) == target
      ensures PlanFold(old(log)) != target ==> pending == if turnOpen then Some(target) else None
      ensures PlanFold(old(log)) == target ==> pending == if old(pending) == Some(!target) then None else old(pending)
      ensures result == if PlanFold(old(log)) != target then if turnOpen then Queued else Committed
                        else if old(pending) == Some(!target) then SetResult.Cancelled
                        else Unchanged
    {
      var logged := Active();
      result := Decide(turnOpen, target, logged);
      if result == Committed {
        CommitLocked(target);
      }
    }

    /** `apply_pending_at_step_start` and `flush_pending_at_turn_end` run alone: what is selected
        is logged, unless nothing is queued, and nothing stays queued. */
    method CommitPending() returns (effective: bool)
      requires IsQuiet(Abs())
      modifies this
      ensures IsQuiet(Abs()) && pending == None && !pendingExit
      ensures effective == PlanFold(log) == old(Selected(Abs()))
      ensures log == old(log) + if old(pending).Some? || old(pendingExit) then [PlanMode(effective)] else []
    {
      var selection := TakePending();
      if selection.Some? {
        CommitLocked(selection.value);
        return selection.value;
      }
      effective := Active();
    }
  }
}
