/** The ledger of one parent session: open epochs, their jobs, settlements under way,
    and notices queued in the parent's inbox but not yet logged. */
module SettlementLedger {
  import opened Wrappers
  import opened SessionLog
  import opened Settlement

  /** A job carries the notice name fixed when its epoch opened. */
  datatype Job = Job(notice: Id, settled: bool, reported: bool)
  datatype Epoch = Epoch(isOpen: bool, job: Option<nat>)

  /** Where one call of `settle_epoch` stands between two of its atomic scopes. */
  datatype Activity =
    | Claimed(child: Id, noticeExpected: bool, job: Option<nat>)
    | Appended(owed: nat)
    | Notifying(owed: nat)
    | Finished

  datatype State = State(
    log: Log, epochs: map<Id, Epoch>, jobs: seq<Job>, queue: seq<Id>, settling: seq<Activity>)

  predicate IsOpen(state: State, child: Id) {
    child in state.epochs && state.epochs[child].isOpen
  }

  /** `open_epoch` starts a job: the ordinal is one more than the child's fan-ins so far. */
  function JobStarted(state: State, child: Id): State {
    state.(jobs := state.jobs + [Job(Correlation(child, FanIns(state.log, child) + 1), false, false)])
  }

  /** `open_epoch` records the epoch under its lock, in the place of any other. */
  function EpochRecorded(state: State, child: Id, job: Option<nat>): State {
    state.(epochs := state.epochs[child := Epoch(true, job)])
  }

  /** One call of `open_epoch` that nothing interrupts. */
  function Opened(state: State, child: Id, noticeExpected: bool): State {
    if noticeExpected then EpochRecorded(JobStarted(state, child), child, Some(|state.jobs|))
    else EpochRecorded(state, child, None)
  }

  /** `settle_epoch` under its lock: an open epoch is closed and claimed, a closed one
      stops the call, and an absent one has no job. */
  function EpochClaimed(state: State, child: Id, noticeExpected: bool): State {
    if child in state.epochs && !state.epochs[child].isOpen then state
    else if child in state.epochs then
      var epoch := state.epochs[child];
      state.(epochs := state.epochs[child := epoch.(isOpen := false)],
             settling := state.settling + [Claimed(child, noticeExpected, epoch.job)])
    else state.(settling := state.settling + [Claimed(child, noticeExpected, None)])
  }

  /** `settle_epoch` appends the fan-in. */
  function FanInLogged(state: State, t: nat): State {
    if t < |state.settling| && state.settling[t].Claimed? then
      var Claimed(child, noticeExpected, job) := state.settling[t];
      state.(log := state.log + [SubagentFanIn(child, noticeExpected)],
             settling := state.settling[t := match job case Some(j) => Appended(j) case None => Finished])
    else state
  }

  /** `JobRegistry::settle` up to its listeners: once per job. */
  function JobSettled(state: State, t: nat): State {
    if t < |state.settling| && state.settling[t].Appended? then
      var job := state.settling[t].owed;
      if job >= |state.jobs| || state.jobs[job].settled then state.(settling := state.settling[t := Finished])
      else state.(jobs := state.jobs[job := state.jobs[job].(settled := true)],
                  settling := state.settling[t := Notifying(job)])
    else state
  }

  /** The listener hands the notice to the parent unless it was reported. `accepted` says
      that the parent was found and its inbox took the notice. */
  function NoticeHanded(state: State, t: nat, accepted: bool): State {
    if t < |state.settling| && state.settling[t].Notifying? then
      var job := state.settling[t].owed;
      state.(queue := if job < |state.jobs| && !state.jobs[job].reported && accepted
                      then state.queue + [state.jobs[job].notice] else state.queue,
             settling := state.settling[t := Finished])
    else state
  }

  /** One call of `settle_epoch` that nothing interrupts. */
  function SettledEpoch(state: State, child: Id, noticeExpected: bool, accepted: bool): State {
    var t, claimed := |state.settling|, EpochClaimed(state, child, noticeExpected);
    NoticeHanded(JobSettled(FanInLogged(claimed, t), t), t, accepted)
  }

  /** `JobRegistry::kill`, after its cancel hook: reported first, then settled. */
  function Killed(state: State, job: nat): State {
    if job >= |state.jobs| || state.jobs[job].settled then state
    else state.(jobs := state.jobs[job := state.jobs[job].(reported := true, settled := true)])
  }

  /** `JobRegistry::read` of a settled job counts as its report. */
  function JobRead(state: State, job: nat): State {
    if job >= |state.jobs| || !state.jobs[job].settled then state
    else state.(jobs := state.jobs[job := state.jobs[job].(reported := true)])
  }

  /** The parent logs the oldest queued notice, as a user message or as context. */
  function Delivered(state: State, asMessage: bool, text: Text): State {
    if state.queue == [] then state
    else
      var message := Message(FromPlugin(state.queue[0]), text);
      state.(log := state.log + [if asMessage then UserMessage(message) else ContextInjected(message)],
             queue := state.queue[1..])
  }

  /** The child was settled since its epoch opened. */
  predicate IsClosed(state: State, child: Id) {
    child in state.epochs && !state.epochs[child].isOpen
  }

  /** The child's epoch was opened with a job. */
  predicate OwnsJob(state: State, child: Id) {
    child in state.epochs && state.epochs[child].job.Some? && state.epochs[child].job.value < |state.jobs|
  }

  /** Settlement `t` has logged its fan-in and is still to settle its job. */
  predicate OwesJob(state: State, t: nat) {
    t < |state.settling| && state.settling[t].Appended? && state.settling[t].owed < |state.jobs|
  }

  /** Settlement `t` has settled its job, which nobody reported so far. */
  predicate OwesNotice(state: State, t: nat) {
    && t < |state.settling| && state.settling[t].Notifying? && state.settling[t].owed < |state.jobs|
    && !state.jobs[state.settling[t].owed].reported
  }

  class Ledger {
    var log: Log
    var epochs: map<Id, Epoch>
    var jobs: seq<Job>
    var queue: seq<Id>
    var settling: seq<Activity>

    ghost function Abs(): State
      reads this
    {
      State(log, epochs, jobs, queue, settling)
    }

    constructor (log: Log)
      ensures Abs() == State(log, map[], [], [], [])
    {
      this.log := log;
      epochs, jobs, queue, settling := map[], [], [], [];
    }

    method StartJob(child: Id) returns (job: nat)
      modifies this
      ensures Abs() == old(JobStarted(Abs(), child)) && job == old(|jobs|)
      ensures jobs == old(jobs) + [Job(Correlation(child, FanIns(old(log), child) + 1), false, false)]
      ensures log == old(log) && epochs == old(epochs) && queue == old(queue) && settling == old(settling)
    {
      var existing := CountFanIn(log, child);
      job := |jobs|;
      jobs := jobs + [Job(Correlation(child, existing + 1), false, false)];
    }

    method RecordEpoch(child: Id, job: Option<nat>)
      modifies this
      ensures Abs() == old(EpochRecorded(Abs(), child, job))
      ensures epochs == old(epochs)[child := Epoch(true, job)]
      ensures log == old(log) && jobs == old(jobs) && queue == old(queue) && settling == old(settling)
    {
      epochs := epochs[child := Epoch(true, job)];
    }

    /** `open_epoch` from beginning to end, when nothing comes in between. */
    method OpenEpoch(child: Id, noticeExpected: bool)
      modifies this
      ensures Abs() == old(Opened(Abs(), child, noticeExpected))
      ensures epochs == old(epochs)[child := Epoch(true, if noticeExpected then Some(old(|jobs|)) else None)]
      ensures !noticeExpected ==> jobs == old(jobs)
      ensures noticeExpected ==>
                jobs == old(jobs) + [Job(Correlation(child, FanIns(old(log), child) + 1), false, false)]
      ensures log == old(log) && queue == old(queue) && settling == old(settling)
    {
      var job: Option<nat> := None;
      if noticeExpected {
        var started := StartJob(child);
        job := Some(started);
      }
      RecordEpoch(child, job);
    }

    method ClaimEpoch(child: Id, noticeExpected: bool)
      modifies this
      ensures Abs() == old(EpochClaimed(Abs(), child, noticeExpected))
      ensures log == old(log) && jobs == old(jobs) && queue == old(queue)
      ensures child in old(epochs) && !old(epochs)[child].isOpen ==>
                epochs == old(epochs) && settling == old(settling)
      ensures child in old(epochs) && old(epochs)[child].isOpen ==>
                && epochs == old(epochs)[child := Epoch(false, old(epochs)[child].job)]
                && settling == old(settling) + [Claimed(child, noticeExpected, old(epochs)[child].job)]
      ensures child !in old(epochs) ==>
                epochs == old(epochs) && settling == old(settling) + [Claimed(child, noticeExpected, None)]
    {
      var job: Option<nat> := None;
      if child in epochs {
        if !epochs[child].isOpen {
          return;
        }
        job := epochs[child].job;
        epochs := epochs[child := epochs[child].(isOpen := false)];
      }
      settling := settling + [Claimed(child, noticeExpected, job)];
    }

    method LogFanIn(t: nat)
      modifies this
      ensures Abs() == old(FanInLogged(Abs(), t))
      ensures epochs == old(epochs) && jobs == old(jobs) && queue == old(queue)
      ensures log == old(log) + if t < |old(settling)| && old(settling)[t].Claimed?
                                then [SubagentFanIn(old(settling)[t].child, old(settling)[t].noticeExpected)] else []
    {
      if t < |settling| && settling[t].Claimed? {
        var Claimed(child, noticeExpected, job) := settling[t];
        log := log + [SubagentFanIn(child, noticeExpected)];
        settling := settling[t := if job.Some? then Appended(job.value) else Finished];
      }
    }

    method SettleJob(t: nat)
      modifies this
      ensures Abs() == old(JobSettled(Abs(), t))
      ensures log == old(log) && epochs == old(epochs) && queue == old(queue)
      ensures !old(OwesJob(Abs(), t)) ==> jobs == old(jobs)
      ensures old(OwesJob(Abs(), t)) ==>
                var job := old(settling)[t].owed;
                && jobs == old(jobs)[job := old(jobs)[job].(settled := true)]
                && settling == old(settling)[t := if old(jobs)[job].settled then Finished else Notifying(job)]
    {
      if t < |settling| && settling[t].Appended? {
        var job := settling[t].owed;
        if job >= |jobs| || jobs[job].settled {
          settling := settling[t := Finished];
          return;
        }
        jobs := jobs[job := jobs[job].(settled := true)];
        settling := settling[t := Notifying(job)];
      }
    }

    method HandNotice(t: nat, accepted: bool)
      modifies this
      ensures Abs() == old(NoticeHanded(Abs(), t, accepted))
      ensures log == old(log) && epochs == old(epochs) && jobs == old(jobs)
      ensures queue == old(queue) + if old(OwesNotice(Abs(), t)) && accepted
                                    then [old(jobs)[old(settling)[t].owed].notice] else []
    {
      if t < |settling| && settling[t].Notifying? {
        var job := settling[t].owed;
        if job < |jobs| && !jobs[job].reported && accepted {
          queue := queue + [jobs[job].notice];
        }
        settling := settling[t := Finished];
      }
    }

    /** `settle_epoch` from beginning to end, when nothing comes in between. */
    method SettleEpoch(child: Id, noticeExpected: bool, accepted: bool)
      modifies this
      ensures Abs() == old(SettledEpoch(Abs(), child, noticeExpected, accepted))
      ensures old(IsClosed(Abs(), child)) ==> Abs() == old(Abs())
      ensures !old(IsClosed(Abs(), child)) ==>
                && log == old(log) + [SubagentFanIn(child, noticeExpected)] && !IsOpen(Abs(), child)
                && (!old(OwnsJob(Abs(), child)) ==> jobs == old(jobs) && queue == old(queue))
      ensures old(IsOpen(Abs(), child) && OwnsJob(Abs(), child)) ==>
                var j := old(epochs)[child].job.value;
                && jobs == old(jobs)[j := old(jobs)[j].(settled := true)]
                && queue == old(queue) + if !old(jobs)[j].settled && !old(jobs)[j].reported && accepted
                                         then [old(jobs)[j].notice] else []
    {
      var t := |settling|;
      ClaimEpoch(child, noticeExpected);
      LogFanIn(t);
      SettleJob(t);
      HandNotice(t, accepted);
    }

    method KillJob(job: nat)
      modifies this
      ensures Abs() == old(Killed(Abs(), job))
      ensures log == old(log) && epochs == old(epochs) && queue == old(queue) && settling == old(settling)
      ensures jobs == if job < |old(jobs)| && !old(jobs)[job].settled
                      then old(jobs)[job := Job(old(jobs)[job].notice, true, true)] else old(jobs)
    {
      if job >= |jobs| || jobs[job].settled {
        return;
      }
      jobs := jobs[job := jobs[job].(reported := true)];
      jobs := jobs[job := jobs[job].(settled := true)];
    }

    method ReadJob(job: nat)
      modifies this
      ensures Abs() == old(JobRead(Abs(), job))
      ensures log == old(log) && epochs == old(epochs) && queue == old(queue) && settling == old(settling)
      ensures jobs == if job < |old(jobs)| && old(jobs)[job].settled
                      then old(jobs)[job := Job(old(jobs)[job].notice, true, true)] else old(jobs)
    {
      if job < |jobs| && jobs[job].settled {
        jobs := jobs[job := jobs[job].(reported := true)];
      }
    }

    method ReplayUnreported()
      modifies this
      ensures Abs() == old(Abs()).(log := Replayed(old(log)))
    {
      log := Replay(log);
    }
  }
}
