/** The flag an epoch is opened with decides its notice: asked for, the settlement queues
    exactly one; not asked for, it queues none; and no other notice is ever seen. */
module SettlementFlags {
  import opened Wrappers
  import opened SessionLog
  import opened Settlement
  import opened SettlementLedger
  import opened SettlementRuns

  // ---------------------------------------------------------------------------
  // One epoch, opened and settled
  // ---------------------------------------------------------------------------

  /** Nobody asked: in whatever state the epoch is opened, and whatever the settlement says,
      it is logged and that is all. */
  lemma UnaskedSettlesSilently(state: State, child: Id, noticeExpected: bool, accepted: bool)
    ensures var next := SettledEpoch(Opened(state, child, false), child, noticeExpected, accepted);
            && next.jobs == state.jobs && next.queue == state.queue
            && next.log == state.log + [SubagentFanIn(child, noticeExpected)]
            && next.epochs == state.epochs[child := Epoch(false, None)]
  {
    assert Opened(state, child, false).epochs[child] == Epoch(true, None);
    assert state.epochs[child := Epoch(true, None)][child := Epoch(false, None)] ==
           state.epochs[child := Epoch(false, None)];
  }

  /** The settlement of an epoch that owns a job nobody settled or reported so far. */
  lemma OwnedSettles(state: State, child: Id, noticeExpected: bool, accepted: bool, job: nat)
    requires child in state.epochs && state.epochs[child] == Epoch(true, Some(job)) && job < |state.jobs|
    requires !state.jobs[job].settled && !state.jobs[job].reported
    ensures var next := SettledEpoch(state, child, noticeExpected, accepted);
            && next.jobs == state.jobs[job := state.jobs[job].(settled := true)]
            && next.queue == state.queue + (if accepted then [state.jobs[job].notice] else [])
            && next.log == state.log + [SubagentFanIn(child, noticeExpected)]
            && next.epochs == state.epochs[child := Epoch(false, Some(job))]
  {
    assert state.queue + [] == state.queue;
  }

  /** Somebody asked: the settlement queues one notice, under the ordinal of the very fan-in
      it logs, if the parent takes it; and its job is settled either way. */
  lemma AskedSettlesWithNotice(state: State, child: Id, noticeExpected: bool, accepted: bool)
    ensures var next := SettledEpoch(Opened(state, child, true), child, noticeExpected, accepted);
            var id := Correlation(child, FanIns(next.log, child));
            && next.jobs == state.jobs + [Job(id, true, false)]
            && next.queue == state.queue + (if accepted then [id] else [])
            && next.log == state.log + [SubagentFanIn(child, noticeExpected)]
            && next.epochs == state.epochs[child := Epoch(false, Some(|state.jobs|))]
  {
    hide Correlation, FanIns, SettledEpoch, Expected, Notices;
    LogOneMore(state.log, SubagentFanIn(child, noticeExpected));
    var asked, job := Opened(state, child, true), |state.jobs|;
    OwnedSettles(asked, child, noticeExpected, accepted, job);
    assert asked.epochs[child := Epoch(false, Some(job))] == state.epochs[child := Epoch(false, Some(job))];
    var id := Correlation(child, FanIns(state.log, child) + 1);
    assert asked.jobs[job := Job(id, true, false)] == state.jobs + [Job(id, true, false)];
  }

  /** Whoever settles a child again changes nothing. */
  lemma SecondSettlementIsVoid(
    state: State, child: Id, asked: bool, first: bool, accepted: bool, second: bool, again: bool)
    ensures var once := SettledEpoch(Opened(state, child, asked), child, first, accepted);
            SettledEpoch(once, child, second, again) == once
  {
    hide Correlation, FanIns;
    if asked {
      AskedSettlesWithNotice(state, child, first, accepted);
    } else {
      UnaskedSettlesSilently(state, child, first, accepted);
    }
  }

  /** A job killed before its settlement gets as far queues nothing. */
  lemma KilledQueuesNothing(state: State, child: Id, noticeExpected: bool, accepted: bool)
    ensures var killed := Killed(Opened(state, child, true), |state.jobs|);
            var next := SettledEpoch(killed, child, noticeExpected, accepted);
            && next.queue == state.queue && next.log == state.log + [SubagentFanIn(child, noticeExpected)]
            && |next.jobs| == |state.jobs| + 1 && next.jobs[|state.jobs|].reported && next.jobs[|state.jobs|].settled
  {
    hide Correlation, FanIns;
  }

  // ---------------------------------------------------------------------------
  // Runs that keep their flags
  // ---------------------------------------------------------------------------

  /** A claim of an epoch that owns a job says that a notice is expected. */
  predicate KeepsFlag(state: State, step: Step) {
    step.Claim? && IsOpen(state, step.child) && state.epochs[step.child].job.Some? ==> step.noticeExpected
  }

  predicate AllKeepFlags(start: State, steps: seq<Step>) {
    steps == []
    || (AllKeepFlags(start, steps[..|steps| - 1])
        && KeepsFlag(Reached(start, steps[..|steps| - 1]), steps[|steps| - 1]))
  }

  /** Whatever claim still owes a notice expects it. */
  ghost predicate ClaimsExpect(state: State) {
    forall t :: 0 <= t < |state.settling| && state.settling[t].Claimed? && state.settling[t].job.Some? ==>
      state.settling[t].noticeExpected
  }

  /** Every notice logged, queued or still to be queued was asked for. */
  ghost predicate AllExpected(state: State) {
    && (forall id :: id in AllNotices(state) ==> IsExpected(state.log, id))
    && forall t: nat, id :: Awaits(state, t, id) ==> IsExpected(state.log, id)
  }

  lemma ExpectedSurvives(log: Log, event: Event, id: Id)
    ensures IsExpected(log, id) ==> IsExpected(log + [event], id)
    ensures event.SubagentFanIn? && event.noticeExpected && id == Correlation(event.child, FanIns(log, event.child) + 1)
            ==> IsExpected(log + [event], id)
  {
    hide Correlation, FanIns, Expected;
    LogOneMore(log, event);
    if IsExpected(log, id) {
      var s :| s in Expected(log) && id == Correlation(s.child, s.ordinal);
      assert s in Expected(log + [event]);
    }
    if event.SubagentFanIn? && event.noticeExpected {
      assert Settled(event.child, FanIns(log, event.child) + 1) in Expected(log + [event]);
    }
  }

  lemma {:induction false} FanInKeepsExpected(state: State, t: nat)
    requires Inv(state) && ClaimsExpect(state) && AllExpected(state)
    ensures AllExpected(FanInLogged(state, t))
  {
    if t < |state.settling| && state.settling[t].Claimed? {
      var claim, next := state.settling[t], FanInLogged(state, t);
      var event := SubagentFanIn(claim.child, claim.noticeExpected);
      assert Claims(state, t, claim.child);
      FanInIsLogged(state, t);
      hide Correlation, FanIns, Notices, Expected, IsExpected, Inv, FanInLogged, Claims, Awaits;
      assert AllNotices(next) == AllNotices(state);
      forall id | id in AllNotices(next) ensures IsExpected(next.log, id) {
        ExpectedSurvives(state.log, event, id);
      }
      forall u: nat, id | Awaits(next, u, id) ensures IsExpected(next.log, id) {
        FanInOwes(state, t, claim.child, u, id);
        ExpectedSurvives(state.log, event, id);
        if !Awaits(state, u, id) {
          OwesOnlyWithJob(state, t, id);
        }
      }
    }
  }

  /** A settlement without a job owes nothing. */
  lemma OwesOnlyWithJob(state: State, t: nat, id: Id)
    requires t < |state.settling| && state.settling[t].Claimed? && Awaits(FanInLogged(state, t), t, id)
    ensures state.settling[t].job.Some?
  {
  }

  lemma {:induction false} HandKeepsExpected(state: State, t: nat, accepted: bool)
    requires AllExpected(state)
    ensures AllExpected(NoticeHanded(state, t, accepted))
  {
    hide Notices, IsExpected;
    var next := NoticeHanded(state, t, accepted);
    assert forall u: nat, id :: Awaits(next, u, id) ==> Awaits(state, u, id);
    forall id | id in AllNotices(next) ensures IsExpected(next.log, id) {
      assert id in AllNotices(state) || Awaits(state, t, id);
    }
  }

  /** What is queued and owed shrinks, and the log expects no less. */
  lemma FewerNotices(state: State, next: State)
    requires AllExpected(state)
    requires forall id :: id in AllNotices(next) ==> id in AllNotices(state) || IsExpected(state.log, id)
    requires forall t: nat, id :: Awaits(next, t, id) ==> Awaits(state, t, id)
    requires forall s :: s in Expected(state.log) ==> s in Expected(next.log)
    ensures AllExpected(next)
  {
    hide Notices, Expected, Awaits, AllNotices;
  }

  lemma DeliveryExpectsNoLess(state: State, asMessage: bool, text: Text)
    ensures forall s :: s in Expected(state.log) ==> s in Expected(Delivered(state, asMessage, text).log)
  {
    var next := Delivered(state, asMessage, text);
    if state.queue != [] {
      LogOneMore(state.log, next.log[|state.log|]);
      assert next.log == state.log + [next.log[|state.log|]];
    }
  }

  lemma DeliveryKeepsExpected(state: State, asMessage: bool, text: Text)
    requires Inv(state) && AllExpected(state)
    ensures AllExpected(Delivered(state, asMessage, text))
  {
    hide Notices, Expected, AllNotices, IsExpected, Inv, FanIns, Correlation;
    DeliverKeepsInv(state, asMessage, text);
    DeliveryExpectsNoLess(state, asMessage, text);
    var next := Delivered(state, asMessage, text);
    assert forall t: nat, id :: Awaits(next, t, id) ==> Awaits(state, t, id);
    FewerNotices(state, next);
  }

  lemma ReplayKeepsExpected(state: State)
    requires Inv(state) && AllExpected(state)
    ensures AllExpected(state.(log := Replayed(state.log)))
  {
    hide Notices, Expected, IsExpected, Inv, Replayed;
    var next := state.(log := Replayed(state.log));
    ReplayedLog(state);
    assert forall t: nat, id :: Awaits(next, t, id) ==> Awaits(state, t, id);
    FewerNotices(state, next);
  }

  lemma {:induction false} NextKeepsExpected(state: State, step: Step)
    requires Inv(state) && Enabled(state, step) && KeepsFlag(state, step)
    requires ClaimsExpect(state) && AllExpected(state)
    ensures AllExpected(Next(state, step))
  {
    hide Correlation, FanIns, Notices, Expected, IsExpected, Inv, Replayed, AllExpected, ReplaySafe, NoClaimOf;
    match step
    case LogFanIn(t) => FanInKeepsExpected(state, t);
    case HandNotice(t, accepted) => HandKeepsExpected(state, t, accepted);
    case Deliver(asMessage, text) => DeliveryKeepsExpected(state, asMessage, text);
    case ReplayUnreported => ReplayKeepsExpected(state);
    case AppendOther(event) =>
      LogOneMore(state.log, event);
      assert forall t: nat, id :: Awaits(Next(state, step), t, id) ==> Awaits(state, t, id);
      FewerNotices(state, Next(state, step));
    case StartJob(child) => StartKeepsInv(state, child); FewerNotices(state, Next(state, step));
    case RecordEpoch(child, job) => FewerNotices(state, Next(state, step));
    case SettleJob(t) => SettleJobKeepsInv(state, t); FewerNotices(state, Next(state, step));
    case Kill(job) => ReportedKeepsInv(state, job); FewerNotices(state, Next(state, step));
    case Read(job) => ReportedKeepsInv(state, job); FewerNotices(state, Next(state, step));
    case _ => FewerNotices(state, Next(state, step));
  }

  lemma NextKeepsClaims(state: State, step: Step)
    requires ClaimsExpect(state) && KeepsFlag(state, step)
    ensures ClaimsExpect(Next(state, step))
  {
    hide Correlation, FanIns, Replayed;
  }

  /** Over every run that keeps its flags, crashes and replays included, each notice, logged,
      queued or still to be queued, is one that a fan-in of the log expects. */
  lemma {:induction false} NoticesAreAskedFor(steps: seq<Step>)
    requires IsRun(START, steps) && AllKeepFlags(START, steps)
    ensures ClaimsExpect(Reached(START, steps)) && AllExpected(Reached(START, steps))
  {
    hide Inv, Enabled, Next, AllExpected, ClaimsExpect;
    StartIsGood();
    if steps == [] {
      NothingExpectedYet();
    } else {
      var earlier := steps[..|steps| - 1];
      NoticesAreAskedFor(earlier);
      RunsKeepInv(START, earlier);
      NextKeepsExpected(Reached(START, earlier), steps[|steps| - 1]);
      NextKeepsClaims(Reached(START, earlier), steps[|steps| - 1]);
    }
  }

  lemma NothingExpectedYet()
    ensures ClaimsExpect(START) && AllExpected(START)
  {
  }

  /** A single claim that drops its flag is enough: its notice is queued, and nothing in the
      log expects it. */
  function ForgetfulRun(child: Id): seq<Step> {
    [StartJob(child), RecordEpoch(child, Some(0)), Claim(child, false), LogFanIn(0), SettleJob(0), HandNotice(0, true)]
  }

  lemma FlagsOneMore(start: State, steps: seq<Step>, step: Step)
    ensures AllKeepFlags(start, steps + [step]) <==>
            AllKeepFlags(start, steps) && KeepsFlag(Reached(start, steps), step)
  {
    assert (steps + [step])[..|steps|] == steps;
  }

  lemma ForgetfulClaim(child: Id)
    ensures var claimed := ForgetfulRun(child)[..3];
            && IsRun(START, claimed) && !AllKeepFlags(START, claimed)
            && Reached(START, claimed) == EpochClaimed(Opened(START, child, true), child, false)
  {
    hide Correlation, IsRun, AllKeepFlags, Reached, EpochClaimed;
    var opening := [StartJob(child), RecordEpoch(child, Some(0))];
    EpochIsOpened(child);
    RunOneMore(START, opening, Claim(child, false));
    FlagsOneMore(START, opening, Claim(child, false));
    assert opening + [Claim(child, false)] == ForgetfulRun(child)[..3];
  }

  /** The fan-in is logged, without its flag. */
  lemma ForgetfulFanIn(child: Id)
    ensures var logged := ForgetfulRun(child)[..4];
            var state := Reached(START, logged);
            && IsRun(START, logged) && !AllKeepFlags(START, logged)
            && Expected(state.log) == [] && state.queue == [] && state.settling == [Appended(0)]
            && state.jobs == [Job(Correlation(child, 1), false, false)]
  {
    hide Correlation, IsRun, AllKeepFlags, Reached;
    ForgetfulClaim(child);
    LogOneMore([], SubagentFanIn(child, false));
    assert FanIns([], child) == 0 && Expected([]) == [];
    hide FanIns, Expected;
    var claimed := ForgetfulRun(child)[..3];
    RunOneMore(START, claimed, LogFanIn(0));
    FlagsOneMore(START, claimed, LogFanIn(0));
    assert claimed + [LogFanIn(0)] == ForgetfulRun(child)[..4];
    assert [] + [SubagentFanIn(child, false)] == [SubagentFanIn(child, false)];
  }

  lemma ForgottenFlagIsUnasked(child: Id)
    ensures IsRun(START, ForgetfulRun(child)) && !AllKeepFlags(START, ForgetfulRun(child))
    ensures var state := Reached(START, ForgetfulRun(child));
            state.queue == [Correlation(child, 1)] && Expected(state.log) == []
  {
    hide Correlation, IsRun, Reached, FanIns, Expected, AllKeepFlags;
    ForgetfulFanIn(child);
    var logged := ForgetfulRun(child)[..4];
    RunOneMore(START, logged, SettleJob(0));
    FlagsOneMore(START, logged, SettleJob(0));
    RunOneMore(START, logged + [SettleJob(0)], HandNotice(0, true));
    FlagsOneMore(START, logged + [SettleJob(0)], HandNotice(0, true));
    assert logged + [SettleJob(0)] + [HandNotice(0, true)] == ForgetfulRun(child);
  }

  // ---------------------------------------------------------------------------
  // Runs of whole openings
  // ---------------------------------------------------------------------------

  /** An epoch is opened with its flag, or anything but an opening happens. */
  datatype Act = Open(child: Id, noticeExpected: bool) | Do(step: Step)

  function Acted(acts: seq<Act>): State {
    if acts == [] then START
    else
      var state := Acted(acts[..|acts| - 1]);
      match acts[|acts| - 1]
      case Open(child, noticeExpected) => Opened(state, child, noticeExpected)
      case Do(step) => Next(state, step)
  }

  /** The flag the child was last opened with. */
  function FlagOf(acts: seq<Act>, child: Id): Option<bool> {
    if acts == [] then None
    else if acts[|acts| - 1].Open? && acts[|acts| - 1].child == child then Some(acts[|acts| - 1].noticeExpected)
    else FlagOf(acts[..|acts| - 1], child)
  }

  /** An epoch is opened outside the windows of its child, and whoever settles it says the flag
      it was opened with. */
  ghost predicate CanAct(acts: seq<Act>, act: Act) {
    match act
    case Open(child, _) => NoClaimOf(Acted(acts), child)
    case Do(step) =>
      && !step.StartJob? && !step.RecordEpoch? && Enabled(Acted(acts), step)
      && (step.Claim? && IsOpen(Acted(acts), step.child) ==> FlagOf(acts, step.child) == Some(step.noticeExpected))
  }

  ghost predicate IsActing(acts: seq<Act>) {
    acts == [] || (IsActing(acts[..|acts| - 1]) && CanAct(acts[..|acts| - 1], acts[|acts| - 1]))
  }

  /** An open epoch owns a job exactly when it was opened with the flag. */
  ghost predicate JobsFollowFlags(acts: seq<Act>) {
    forall child :: IsOpen(Acted(acts), child) ==> FlagOf(acts, child) == Some(Acted(acts).epochs[child].job.Some?)
  }

  lemma {:induction false} OpeningIsRun(start: State, steps: seq<Step>, child: Id, noticeExpected: bool)
    returns (more: seq<Step>)
    requires IsRun(start, steps) && AllKeepFlags(start, steps) && NoClaimOf(Reached(start, steps), child)
    ensures IsRun(start, more) && AllKeepFlags(start, more)
    ensures Reached(start, more) == Opened(Reached(start, steps), child, noticeExpected)
  {
    hide IsRun, Reached, AllKeepFlags, Correlation, FanIns;
    var state, job: Option<nat> := Reached(start, steps), None;
    more := steps;
    if noticeExpected {
      RunOneMore(start, more, StartJob(child));
      FlagsOneMore(start, more, StartJob(child));
      more := more + [StartJob(child)];
      job := Some(|state.jobs|);
    }
    assert forall t: nat :: Claims(Reached(start, more), t, child) ==> Claims(state, t, child);
    RunOneMore(start, more, RecordEpoch(child, job));
    FlagsOneMore(start, more, RecordEpoch(child, job));
    more := more + [RecordEpoch(child, job)];
  }

  /** Only an opening opens an epoch. */
  lemma OnlyOpeningOpens(state: State, step: Step, child: Id)
    requires !step.StartJob? && !step.RecordEpoch? && IsOpen(Next(state, step), child)
    ensures IsOpen(state, child) && Next(state, step).epochs[child] == state.epochs[child]
  {
    hide Correlation, FanIns, Replayed;
  }

  lemma OpenedWithFlag(state: State, child: Id, noticeExpected: bool, other: Id)
    requires IsOpen(Opened(state, child, noticeExpected), other)
    ensures var epochs := Opened(state, child, noticeExpected).epochs;
            if other == child then epochs[other].job.Some? <==> noticeExpected
            else IsOpen(state, other) && epochs[other] == state.epochs[other]
  {
    hide Correlation, FanIns;
  }

  lemma NextFollowsFlags(acts: seq<Act>)
    requires acts != [] && IsActing(acts) && JobsFollowFlags(acts[..|acts| - 1])
    ensures JobsFollowFlags(acts)
  {
    hide Opened, Next, Enabled, NoClaimOf;
    var earlier, act := acts[..|acts| - 1], acts[|acts| - 1];
    forall child | IsOpen(Acted(acts), child)
      ensures FlagOf(acts, child) == Some(Acted(acts).epochs[child].job.Some?)
    {
      if act.Open? {
        OpenedWithFlag(Acted(earlier), act.child, act.noticeExpected, child);
      } else {
        OnlyOpeningOpens(Acted(earlier), act.step, child);
      }
    }
  }

  lemma {:induction false} ActsAreRuns(acts: seq<Act>) returns (steps: seq<Step>)
    requires IsActing(acts)
    ensures JobsFollowFlags(acts)
    ensures IsRun(START, steps) && AllKeepFlags(START, steps) && Reached(START, steps) == Acted(acts)
  {
    hide Enabled, Next, Opened, NoClaimOf;
    if acts == [] {
      steps := [];
    } else {
      var earlier, act := acts[..|acts| - 1], acts[|acts| - 1];
      steps := ActsAreRuns(earlier);
      NextFollowsFlags(acts);
      hide IsRun, Reached, AllKeepFlags;
      match act
      case Open(child, noticeExpected) => steps := OpeningIsRun(START, steps, child, noticeExpected);
      case Do(step) =>
        RunOneMore(START, steps, step);
        FlagsOneMore(START, steps, step);
        steps := steps + [step];
    }
  }

  /** In every such run an open epoch owns a job exactly when it was opened with the flag, and
      each notice, logged, queued or still to be queued, is one that a fan-in expects. */
  lemma {:induction false} OnlyAskedNoticesAreSeen(acts: seq<Act>)
    requires IsActing(acts)
    ensures JobsFollowFlags(acts) && AllExpected(Acted(acts))
  {
    hide Acted, FlagOf, IsActing, AllExpected, JobsFollowFlags;
    var steps := ActsAreRuns(acts);
    NoticesAreAskedFor(steps);
  }
}
