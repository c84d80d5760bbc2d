/** Live notices and replayed notices agree, over every interleaving with crashes. */
module SettlementRuns {
  import opened Wrappers
  import opened SessionLog
  import opened Settlement
  import opened SettlementLedger

  datatype Step =
    | StartJob(child: Id)
    | RecordEpoch(child: Id, started: Option<nat>)
    | Claim(child: Id, noticeExpected: bool)
    | LogFanIn(t: nat)
    | SettleJob(t: nat)
    | HandNotice(t: nat, accepted: bool)
    | Kill(job: nat)
    | Read(job: nat)
    | Deliver(asMessage: bool, text: Text)
    | DropQueue
    | Crash
    | ReplayUnreported
    | AppendOther(event: Event)

  const START := State([], map[], [], [], [])

  function Next(state: State, step: Step): State {
    match step
    case StartJob(child) => JobStarted(state, child)
    case RecordEpoch(child, job) => EpochRecorded(state, child, job)
    case Claim(child, noticeExpected) => EpochClaimed(state, child, noticeExpected)
    case LogFanIn(t) => FanInLogged(state, t)
    case SettleJob(t) => JobSettled(state, t)
    case HandNotice(t, accepted) => NoticeHanded(state, t, accepted)
    case Kill(job) => Killed(state, job)
    case Read(job) => JobRead(state, job)
    case Deliver(asMessage, text) => Delivered(state, asMessage, text)
    case DropQueue => state.(queue := [])
    case Crash => State(state.log, map[], [], [], [])
    case ReplayUnreported => state.(log := Replayed(state.log))
    case AppendOther(event) => state.(log := state.log + [event])
  }

  // ---------------------------------------------------------------------------
  // What a notice owes
  // ---------------------------------------------------------------------------

  /** `id` reports a fan-in that is already in the log. */
  ghost predicate Reports(log: Log, id: Id) {
    exists child, ordinal :: IsReport(log, id, child, ordinal)
  }

  ghost predicate IsReport(log: Log, id: Id, child: Id, ordinal: nat) {
    id == Correlation(child, ordinal) && 1 <= ordinal <= FanIns(log, child)
  }

  ghost predicate AllReport(log: Log, ids: seq<Id>) {
    forall i :: 0 <= i < |ids| ==> Reports(log, ids[i])
  }

  ghost predicate Distinct(ids: seq<Id>) {
    forall i, j :: 0 <= i < j < |ids| ==> ids[i] != ids[j]
  }

  /** Logged notices, then the queued ones. */
  ghost function AllNotices(state: State): seq<Id> {
    Notices(state.log) + state.queue
  }

  /** The fan-in of settlement `t` is logged, and its job is still to queue notice `id`. */
  ghost predicate Awaits(state: State, t: nat, id: Id) {
    && t < |state.settling|
    && match state.settling[t]
       case Appended(job) =>
         job < |state.jobs| && !state.jobs[job].settled && !state.jobs[job].reported && state.jobs[job].notice == id
       case Notifying(job) => job < |state.jobs| && !state.jobs[job].reported && state.jobs[job].notice == id
       case _ => false
  }

  /** No notice, logged, queued or still to be queued, occurs twice. */
  ghost predicate NoticesDistinct(state: State) {
    && Distinct(AllNotices(state))
    && (forall t: nat, id :: Awaits(state, t, id) ==> id !in AllNotices(state))
    && forall t: nat, u: nat, id :: Awaits(state, t, id) && Awaits(state, u, id) ==> t == u
  }

  /** Nothing is logged or queued, and nothing more is still to be queued. */
  ghost predicate AddsNoNotice(state: State, next: State) {
    && next.log == state.log && next.queue == state.queue
    && forall t: nat, id :: Awaits(next, t, id) ==> Awaits(state, t, id)
  }

  ghost predicate AwaitedReport(state: State) {
    forall t: nat, id :: Awaits(state, t, id) ==> Reports(state.log, id)
  }

  // ---------------------------------------------------------------------------
  // What an ordinal owes
  // ---------------------------------------------------------------------------

  /** Settlement `t` has claimed `child` and is still to log its fan-in. */
  predicate Claims(state: State, t: nat, child: Id) {
    t < |state.settling| && state.settling[t].Claimed? && state.settling[t].child == child
  }

  ghost predicate NoClaimOf(state: State, child: Id) {
    forall t: nat :: !Claims(state, t, child)
  }

  predicate JobCarriesNext(state: State, child: Id, job: nat) {
    job < |state.jobs| && state.jobs[job].notice == Correlation(child, FanIns(state.log, child) + 1)
  }

  ghost predicate OwedJobsExist(state: State) {
    forall t :: 0 <= t < |state.settling| && (state.settling[t].Appended? || state.settling[t].Notifying?) ==>
      state.settling[t].owed < |state.jobs|
  }

  /** The job of an open or claimed epoch carries the ordinal its fan-in will get. */
  ghost predicate JobsAwaitNextFanIn(state: State) {
    && OwedJobsExist(state)
    && (forall child :: IsOpen(state, child) && state.epochs[child].job.Some? ==>
          JobCarriesNext(state, child, state.epochs[child].job.value))
    && forall t: nat, child :: Claims(state, t, child) && state.settling[t].job.Some? ==>
         JobCarriesNext(state, child, state.settling[t].job.value)
  }

  /** Nothing else can log a fan-in for the child of an open or claimed epoch. */
  ghost predicate ClaimsAreExclusive(state: State) {
    && (forall t: nat, child :: Claims(state, t, child) ==> !IsOpen(state, child))
    && (forall t: nat, child :: Claims(state, t, child) && state.settling[t].job.Some? ==> child in state.epochs)
    && forall t: nat, u: nat, child :: Claims(state, t, child) && Claims(state, u, child) && t != u ==>
         state.settling[t].job.None?
  }

  ghost predicate Inv(state: State) {
    && JobsAwaitNextFanIn(state) && ClaimsAreExclusive(state)
    && AllReport(state.log, AllNotices(state)) && AwaitedReport(state)
    && NoticesDistinct(state)
  }

  // ---------------------------------------------------------------------------
  // Runs
  // ---------------------------------------------------------------------------

  ghost predicate IsExpected(log: Log, id: Id) {
    exists s :: s in Expected(log) && id == Correlation(s.child, s.ordinal)
  }

  /** A replay finds no notice of an expected fan-in queued or still to be queued. */
  ghost predicate ReplaySafe(state: State) {
    && (forall id :: id in state.queue ==> !IsExpected(state.log, id))
    && forall t: nat, id :: Awaits(state, t, id) ==> !IsExpected(state.log, id)
  }

  /** An epoch is recorded while its job still carries the next ordinal of the child, and
      outside every window between claim and append of that child; a replay is safe; and
      nobody else writes fan-ins or settlement notices. */
  ghost predicate Enabled(state: State, step: Step) {
    match step
    case RecordEpoch(child, job) =>
      NoClaimOf(state, child) && (job.Some? ==> JobCarriesNext(state, child, job.value))
    case ReplayUnreported => ReplaySafe(state)
    case AppendOther(event) => !event.SubagentFanIn? && !IsNotice(event)
    case _ => true
  }

  function Reached(start: State, steps: seq<Step>): State {
    if steps == [] then start else Next(Reached(start, steps[..|steps| - 1]), steps[|steps| - 1])
  }

  ghost predicate IsRun(start: State, steps: seq<Step>) {
    steps == []
    || (IsRun(start, steps[..|steps| - 1]) && Enabled(Reached(start, steps[..|steps| - 1]), steps[|steps| - 1]))
  }

  // ---------------------------------------------------------------------------
  // Appending to the log
  // ---------------------------------------------------------------------------

  lemma {:induction false} FanInsGrow(log: Log, more: Log, child: Id)
    requires log <= more
    ensures FanIns(log, child) <= FanIns(more, child)
    decreases |more|
  {
    if |log| < |more| {
      assert log <= more[..|more| - 1];
      FanInsGrow(log, more[..|more| - 1], child);
    } else {
      assert log == more;
    }
  }

  lemma ReportSurvives(log: Log, more: Log, id: Id)
    requires log <= more && Reports(log, id)
    ensures Reports(more, id)
  {
    hide Correlation;
    var child, ordinal :| IsReport(log, id, child, ordinal);
    FanInsGrow(log, more, child);
    assert IsReport(more, id, child, ordinal);
  }

  lemma ReportsSurvive(log: Log, more: Log, ids: seq<Id>)
    requires log <= more && AllReport(log, ids)
    ensures AllReport(more, ids)
  {
    hide Reports;
    forall i | 0 <= i < |ids| ensures Reports(more, ids[i]) {
      ReportSurvives(log, more, ids[i]);
    }
  }

  /** The next ordinal of a child is not reported yet. */
  lemma NextOrdinalIsNew(log: Log, child: Id)
    ensures !Reports(log, Correlation(child, FanIns(log, child) + 1))
  {
    hide Correlation;
    var id := Correlation(child, FanIns(log, child) + 1);
    if Reports(log, id) {
      var c, n :| IsReport(log, id, c, n);
      CorrelationIsInjective(child, FanIns(log, child) + 1, c, n);
    }
  }

  lemma AddDistinct(ids: seq<Id>, id: Id)
    requires Distinct(ids) && id !in ids
    ensures Distinct(ids + [id])
  {
  }

  /** What stays when nothing but the bookkeeping of notices could change. */
  lemma SameLedger(state: State, next: State)
    requires Inv(state) && next.log == state.log && next.queue == state.queue
    requires JobsAwaitNextFanIn(next) && ClaimsAreExclusive(next)
    requires forall t: nat, id :: Awaits(next, t, id) ==> Awaits(state, t, id)
    ensures Inv(next)
  {
    hide JobsAwaitNextFanIn, ClaimsAreExclusive, Awaits, Distinct, AllReport, Reports;
    assert AllNotices(next) == AllNotices(state);
  }

  // ---------------------------------------------------------------------------
  // Each step keeps the invariant
  // ---------------------------------------------------------------------------

  lemma {:induction false} StartKeepsInv(state: State, child: Id)
    requires Inv(state)
    ensures Inv(JobStarted(state, child)) && AddsNoNotice(state, JobStarted(state, child))
    ensures JobCarriesNext(JobStarted(state, child), child, |state.jobs|)
  {
    hide Correlation, FanIns, Distinct, AllReport, Reports;
    var next := JobStarted(state, child);
    assert forall t: nat, c :: Claims(next, t, c) ==> Claims(state, t, c);
    forall t: nat, id | Awaits(next, t, id) ensures Awaits(state, t, id) {
      assert state.settling[t].owed < |state.jobs|;
    }
    SameLedger(state, next);
  }

  lemma {:induction false} RecordKeepsInv(state: State, child: Id, job: Option<nat>)
    requires Inv(state) && NoClaimOf(state, child) && (job.Some? ==> JobCarriesNext(state, child, job.value))
    ensures Inv(EpochRecorded(state, child, job)) && AddsNoNotice(state, EpochRecorded(state, child, job))
  {
    hide Correlation, FanIns, Distinct, AllReport, Reports;
    var next := EpochRecorded(state, child, job);
    assert forall t: nat, c :: Claims(next, t, c) ==> Claims(state, t, c);
    assert forall t: nat, id :: Awaits(next, t, id) <==> Awaits(state, t, id);
    SameLedger(state, next);
  }

  /** Jobs may be settled and reported, and settlements move on, without touching ordinals. */
  lemma {:induction false} SameOrdinals(state: State, next: State)
    requires JobsAwaitNextFanIn(state) && ClaimsAreExclusive(state)
    requires next.log == state.log && next.epochs == state.epochs && |next.jobs| == |state.jobs|
    requires forall j :: 0 <= j < |state.jobs| ==> next.jobs[j].notice == state.jobs[j].notice
    requires |next.settling| == |state.settling| && OwedJobsExist(next)
    requires forall t :: 0 <= t < |state.settling| && next.settling[t].Claimed? ==>
               next.settling[t] == state.settling[t]
    ensures JobsAwaitNextFanIn(next) && ClaimsAreExclusive(next)
  {
    hide Correlation, FanIns;
    assert forall t: nat, child :: Claims(next, t, child) ==> Claims(state, t, child);
  }

  lemma {:induction false} ClaimKeepsInv(state: State, child: Id, noticeExpected: bool)
    requires Inv(state)
    ensures Inv(EpochClaimed(state, child, noticeExpected))
  {
    hide Correlation, FanIns, Distinct, AllReport, Reports;
    var next := EpochClaimed(state, child, noticeExpected);
    if next != state {
      assert forall t: nat, c :: Claims(next, t, c) ==> Claims(state, t, c) || (t == |state.settling| && c == child);
      SameLedger(state, next);
    }
  }

  /** A killed or read job logs and queues nothing, then or later. */
  lemma {:induction false} ReportedKeepsInv(state: State, job: nat)
    requires Inv(state)
    ensures Inv(Killed(state, job)) && AddsNoNotice(state, Killed(state, job))
    ensures Inv(JobRead(state, job)) && AddsNoNotice(state, JobRead(state, job))
  {
    hide Correlation, FanIns, Distinct, AllReport, Reports;
    SameOrdinals(state, Killed(state, job));
    SameLedger(state, Killed(state, job));
    SameOrdinals(state, JobRead(state, job));
    SameLedger(state, JobRead(state, job));
  }

  lemma {:induction false} SettleJobKeepsInv(state: State, t: nat)
    requires Inv(state)
    ensures Inv(JobSettled(state, t)) && AddsNoNotice(state, JobSettled(state, t))
  {
    hide Correlation, FanIns, Distinct, AllReport, Reports;
    SameOrdinals(state, JobSettled(state, t));
    SameLedger(state, JobSettled(state, t));
  }

  /** The fan-in of settlement `t` gives its job the ordinal it was named with. */
  lemma OrdinalIsItsOwn(state: State, t: nat, child: Id)
    requires Inv(state) && Claims(state, t, child) && state.settling[t].job.Some?
    ensures JobCarriesNext(state, child, state.settling[t].job.value)
  {
  }

  lemma {:induction false} FanInKeepsOrdinals(state: State, t: nat, child: Id)
    requires JobsAwaitNextFanIn(state) && ClaimsAreExclusive(state) && Claims(state, t, child)
    ensures JobsAwaitNextFanIn(FanInLogged(state, t)) && ClaimsAreExclusive(FanInLogged(state, t))
  {
    hide Correlation, FanIns, Notices, Expected;
    var next := FanInLogged(state, t);
    LogOneMore(state.log, SubagentFanIn(child, state.settling[t].noticeExpected));
    assert forall u: nat, c :: Claims(next, u, c) ==> Claims(state, u, c) && u != t;
    forall c | IsOpen(next, c) && next.epochs[c].job.Some? ensures JobCarriesNext(next, c, next.epochs[c].job.value) {
      assert c != child;
    }
    forall u: nat, c | Claims(next, u, c) && next.settling[u].job.Some?
      ensures JobCarriesNext(next, c, next.settling[u].job.value)
    {
      assert c != child;
    }
  }

  /** Only settlement `t` starts to owe a notice, the one of the new fan-in. */
  lemma FanInOwes(state: State, t: nat, child: Id, u: nat, id: Id)
    requires Inv(state) && Claims(state, t, child) && Awaits(FanInLogged(state, t), u, id)
    ensures Awaits(state, u, id) || (u == t && id == Correlation(child, FanIns(state.log, child) + 1))
    ensures u == t ==> !Awaits(state, u, id)
  {
    hide Correlation, FanIns, Distinct, AllReport, Reports;
  }

  lemma FanInReports(state: State, t: nat, child: Id)
    requires Inv(state) && Claims(state, t, child)
    ensures var next := FanInLogged(state, t);
            AllNotices(next) == AllNotices(state) && AllReport(next.log, AllNotices(next)) && AwaitedReport(next)
  {
    var next, id := FanInLogged(state, t), Correlation(child, FanIns(state.log, child) + 1);
    FanInIsLogged(state, t);
    LogOneMore(state.log, SubagentFanIn(child, state.settling[t].noticeExpected));
    assert IsReport(next.log, id, child, FanIns(next.log, child));
    hide Correlation, FanIns, Notices, Expected, Reports, Awaits, JobsAwaitNextFanIn, ClaimsAreExclusive, FanInLogged,
         Claims, NoticesDistinct;
    ReportsSurvive(state.log, next.log, AllNotices(state));
    forall u: nat, n | Awaits(next, u, n) ensures Reports(next.log, n) {
      FanInOwes(state, t, child, u, n);
      if Awaits(state, u, n) {
        ReportSurvives(state.log, next.log, n);
      }
    }
  }

  lemma FanInStaysDistinct(state: State, t: nat, child: Id)
    requires Inv(state) && Claims(state, t, child)
    ensures NoticesDistinct(FanInLogged(state, t))
  {
    var next := FanInLogged(state, t);
    NextOrdinalIsNew(state.log, child);
    FanInReports(state, t, child);
    hide Correlation, FanIns, Notices, Expected, Reports, Awaits, Distinct, JobsAwaitNextFanIn, ClaimsAreExclusive,
         FanInLogged, Claims;
    forall u: nat, n | Awaits(next, u, n) ensures n !in AllNotices(next) {
      FanInOwes(state, t, child, u, n);
    }
    forall u: nat, v: nat, n | Awaits(next, u, n) && Awaits(next, v, n) ensures u == v {
      FanInOwes(state, t, child, u, n);
      FanInOwes(state, t, child, v, n);
    }
  }

  lemma {:induction false} FanInKeepsInv(state: State, t: nat)
    requires Inv(state)
    ensures Inv(FanInLogged(state, t))
  {
    if t < |state.settling| && state.settling[t].Claimed? {
      var child := state.settling[t].child;
      assert Claims(state, t, child);
      hide AllReport, AwaitedReport, NoticesDistinct, JobsAwaitNextFanIn, ClaimsAreExclusive, FanInLogged, Claims;
      FanInKeepsOrdinals(state, t, child);
      FanInReports(state, t, child);
      FanInStaysDistinct(state, t, child);
    }
  }

  lemma FanInIsLogged(state: State, t: nat)
    requires t < |state.settling| && state.settling[t].Claimed?
    ensures var next, claim := FanInLogged(state, t), state.settling[t];
            && next.log == state.log + [SubagentFanIn(claim.child, claim.noticeExpected)]
            && next.queue == state.queue && Notices(next.log) == Notices(state.log)
  {
    LogOneMore(state.log, SubagentFanIn(state.settling[t].child, state.settling[t].noticeExpected));
  }

  /** Handing a notice over queues at most the one that was owed. */
  lemma {:induction false} HandKeepsInv(state: State, t: nat, accepted: bool)
    requires Inv(state)
    ensures Inv(NoticeHanded(state, t, accepted))
  {
    hide Correlation, FanIns, Notices, Reports;
    var next := NoticeHanded(state, t, accepted);
    if t < |state.settling| && state.settling[t].Notifying? {
      assert forall u: nat, id :: Awaits(next, u, id) ==> Awaits(state, u, id) && u != t;
      SameOrdinals(state, next);
      if next.queue == state.queue {
        SameLedger(state, next);
      } else {
        var id := state.jobs[state.settling[t].owed].notice;
        assert Awaits(state, t, id);
        assert AllNotices(next) == AllNotices(state) + [id];
        AddDistinct(AllNotices(state), id);
      }
    }
  }

  lemma {:induction false} DeliverKeepsInv(state: State, asMessage: bool, text: Text)
    requires Inv(state)
    ensures Inv(Delivered(state, asMessage, text))
    ensures AllNotices(Delivered(state, asMessage, text)) == AllNotices(state)
  {
    if state.queue != [] {
      var next, id := Delivered(state, asMessage, text), state.queue[0];
      hide Correlation, FanIns, Notices, Expected, Distinct, Reports;
      assert AllNotices(state)[|Notices(state.log)|] == id;
      assert Reports(state.log, id);
      NoticeIsLogged(state.log, id, next.log[|state.log|]);
      assert next.log == state.log + [next.log[|state.log|]];
      assert AllNotices(next) == AllNotices(state);
      QuietAppendKeepsInv(state, next);
    }
  }

  lemma NoticeIsLogged(log: Log, id: Id, event: Event)
    requires Reports(log, id) && PluginOf(event) == Some(id)
    ensures Notices(log + [event]) == Notices(log) + [id]
    ensures forall child :: FanIns(log + [event], child) == FanIns(log, child)
  {
    hide Correlation, FanIns, Notices, Expected;
    var child, ordinal :| IsReport(log, id, child, ordinal);
    CorrelationShape(child, ordinal, id);
    LogOneMore(log, event);
  }

  /** Events that are no fan-ins leave all ordinals alone. */
  lemma {:induction false} QuietAppendKeepsInv(state: State, next: State)
    requires Inv(state) && state.log <= next.log && next == state.(log := next.log, queue := next.queue)
    requires forall child :: FanIns(next.log, child) == FanIns(state.log, child)
    requires AllNotices(next) == AllNotices(state)
    ensures Inv(next)
  {
    hide Correlation, FanIns, Notices, Distinct, Reports;
    ReportsSurvive(state.log, next.log, AllNotices(state));
    assert forall t: nat, id :: Awaits(next, t, id) <==> Awaits(state, t, id);
    forall t: nat, id | Awaits(next, t, id) ensures Reports(next.log, id) {
      ReportSurvives(state.log, next.log, id);
    }
    assert forall t: nat, child :: Claims(next, t, child) <==> Claims(state, t, child);
  }

  lemma {:induction false} OtherKeepsInv(state: State, event: Event)
    requires Inv(state) && !event.SubagentFanIn? && !IsNotice(event)
    ensures Inv(state.(log := state.log + [event]))
  {
    hide Correlation, FanIns, Notices, Expected, Distinct, Reports, Inv;
    LogOneMore(state.log, event);
    assert AllNotices(state.(log := state.log + [event])) == AllNotices(state);
    QuietAppendKeepsInv(state, state.(log := state.log + [event]));
  }

  lemma {:induction false} LoseQueue(state: State)
    requires Inv(state)
    ensures Inv(state.(queue := [])) && Inv(State(state.log, map[], [], [], []))
  {
    hide Correlation, FanIns, Notices, Reports;
    var notices := Notices(state.log);
    assert notices + [] == notices;
    assert forall i :: 0 <= i < |notices| ==> AllNotices(state)[i] == notices[i];
    forall i | 0 <= i < |notices| ensures Reports(state.log, notices[i]) {
      assert Reports(state.log, AllNotices(state)[i]);
    }
    var lost := state.(queue := []);
    assert forall t: nat, id :: Awaits(lost, t, id) <==> Awaits(state, t, id);
    assert forall t: nat, child :: Claims(lost, t, child) <==> Claims(state, t, child);
    assert JobsAwaitNextFanIn(lost);
    assert forall id :: id in AllNotices(lost) ==> id in AllNotices(state);
  }

  // ---------------------------------------------------------------------------
  // Replay
  // ---------------------------------------------------------------------------

  /** Every expected settlement is a fan-in of the log. */
  lemma {:induction false} ExpectedAreFanIns(log: Log)
    ensures forall s :: s in Expected(log) ==> 1 <= s.ordinal <= FanIns(log, s.child)
  {
    if log != [] {
      var earlier, last := log[..|log| - 1], log[|log| - 1];
      ExpectedAreFanIns(earlier);
      assert earlier + [last] == log;
      LogOneMore(earlier, last);
    }
  }

  ghost predicate NamesOneOf(id: Id, expected: seq<Settled>, n: nat) {
    exists i :: 0 <= i < n <= |expected| && id == Correlation(expected[i].child, expected[i].ordinal)
  }

  /** What replaying the first `n` expected settlements adds: exactly their notices. */
  lemma {:induction false} ReplayAddsNotices(log: Log, expected: seq<Settled>, n: nat)
    requires n <= |expected|
    ensures var after := ReplayedUpTo(log, expected, n);
            && log <= after && Expected(after) == Expected(log)
            && (forall child :: FanIns(after, child) == FanIns(log, child))
            && forall id :: id in Notices(after) <==> id in Notices(log) || NamesOneOf(id, expected, n)
  {
    hide Correlation, FanIns, Notices, Expected;
    if n > 0 {
      var before, next := ReplayedUpTo(log, expected, n - 1), expected[n - 1];
      ReplayAddsNotices(log, expected, n - 1);
      var id := Correlation(next.child, next.ordinal);
      assert NamesOneOf(id, expected, n);
      assert forall other :: NamesOneOf(other, expected, n) <==> NamesOneOf(other, expected, n - 1) || other == id;
      if id !in Notices(before) {
        CorrelationShape(next.child, next.ordinal, id);
        LogOneMore(before, NoticeEvent(next, NO_OUTPUT));
      }
    }
  }

  lemma {:induction false} ReplayKeepsReports(log: Log, expected: seq<Settled>, n: nat)
    requires n <= |expected| && forall s :: s in expected ==> 1 <= s.ordinal <= FanIns(log, s.child)
    requires AllReport(log, Notices(log)) && Distinct(Notices(log))
    ensures var after := ReplayedUpTo(log, expected, n);
            AllReport(after, Notices(after)) && Distinct(Notices(after))
  {
    hide Correlation, FanIns, Notices, Expected;
    if n > 0 {
      var before, next := ReplayedUpTo(log, expected, n - 1), expected[n - 1];
      ReplayKeepsReports(log, expected, n - 1);
      ReplayAddsNotices(log, expected, n - 1);
      var id := Correlation(next.child, next.ordinal);
      if id !in Notices(before) {
        var after := before + [NoticeEvent(next, NO_OUTPUT)];
        CorrelationShape(next.child, next.ordinal, id);
        LogOneMore(before, NoticeEvent(next, NO_OUTPUT));
        AddDistinct(Notices(before), id);
        assert next in expected;
        assert IsReport(after, id, next.child, next.ordinal);
        ReportsSurvive(before, after, Notices(before));
      }
    }
  }

  lemma ExpectedIsNamed(log: Log, id: Id)
    ensures IsExpected(log, id) <==> NamesOneOf(id, Expected(log), |Expected(log)|)
  {
    hide Correlation, Expected;
  }

  lemma LoggedReport(state: State)
    requires AllReport(state.log, AllNotices(state)) && Distinct(AllNotices(state))
    ensures AllReport(state.log, Notices(state.log)) && Distinct(Notices(state.log))
  {
    hide Reports, Notices;
    assert forall i :: 0 <= i < |Notices(state.log)| ==> AllNotices(state)[i] == Notices(state.log)[i];
  }

  /** What a replay leaves in the log: the notices it held and those of all expected fan-ins. */
  lemma {:induction false} ReplayedLog(state: State)
    requires Inv(state)
    ensures var log := Replayed(state.log);
            && state.log <= log && Expected(log) == Expected(state.log)
            && (forall child :: FanIns(log, child) == FanIns(state.log, child))
            && AllReport(log, Notices(log)) && Distinct(Notices(log))
            && forall id :: id in Notices(log) <==> id in Notices(state.log) || IsExpected(state.log, id)
  {
    hide Correlation, FanIns, Notices, Expected, ReplayedUpTo, Distinct, Reports, IsExpected, NamesOneOf;
    var expected := Expected(state.log);
    LoggedReport(state);
    ExpectedAreFanIns(state.log);
    ReplayKeepsReports(state.log, expected, |expected|);
    ReplayAddsNotices(state.log, expected, |expected|);
    forall id ensures IsExpected(state.log, id) <==> NamesOneOf(id, expected, |expected|) {
      ExpectedIsNamed(state.log, id);
    }
  }

  lemma DistinctConcat(a: seq<Id>, b: seq<Id>)
    ensures Distinct(a + b) <==> Distinct(a) && Distinct(b) && forall id :: id in b ==> id !in a
  {
    assert forall i :: 0 <= i < |a| ==> (a + b)[i] == a[i];
    if Distinct(a + b) {
      forall i, j | 0 <= i < |b| && 0 <= j < |b| && i < j ensures b[i] != b[j] {
        assert (a + b)[|a| + i] == b[i] && (a + b)[|a| + j] == b[j];
      }
      forall i, j | 0 <= i < |a| && 0 <= j < |b| ensures a[i] != b[j] {
        assert (a + b)[|a| + j] == b[j];
      }
    }
    if Distinct(a) && Distinct(b) && forall id :: id in b ==> id !in a {
      forall i, j | 0 <= i < j < |a + b| ensures (a + b)[i] != (a + b)[j] {
        assert j >= |a| ==> (a + b)[j] == b[j - |a|] && b[j - |a|] in b;
        assert i >= |a| ==> (a + b)[i] == b[i - |a|];
      }
    }
  }

  /** Notices stay distinct over a replay exactly when no notice of an expected fan-in is
      queued, or still to be queued behind its fan-in. */
  lemma {:induction false} ReplayIsSafeExactly(state: State)
    requires Inv(state)
    ensures NoticesDistinct(state.(log := Replayed(state.log))) <==> ReplaySafe(state)
  {
    hide Correlation, FanIns, Notices, Expected, ReplayedUpTo, Replayed, Reports, IsExpected;
    var next := state.(log := Replayed(state.log));
    ReplayedLog(state);
    DistinctConcat(Notices(state.log), state.queue);
    DistinctConcat(Notices(next.log), state.queue);
    assert forall t: nat, id :: Awaits(next, t, id) <==> Awaits(state, t, id);
    hide Distinct, Awaits;
    if NoticesDistinct(next) {
      forall t: nat, id | Awaits(state, t, id) ensures !IsExpected(state.log, id) {
        assert Awaits(next, t, id);
        assert id !in AllNotices(next);
      }
    }
  }

  lemma {:induction false} ReplayKeepsInv(state: State)
    requires Inv(state) && ReplaySafe(state)
    ensures Inv(state.(log := Replayed(state.log)))
  {
    hide Correlation, FanIns, Notices, Expected, ReplayedUpTo, Replayed, IsExpected, Distinct;
    var next := state.(log := Replayed(state.log));
    ReplayIsSafeExactly(state);
    ReplayedLog(state);
    hide Reports;
    assert forall t: nat, id :: Awaits(next, t, id) <==> Awaits(state, t, id);
    assert forall t: nat, child :: Claims(next, t, child) <==> Claims(state, t, child);
    forall i | 0 <= i < |AllNotices(next)| ensures Reports(next.log, AllNotices(next)[i]) {
      if i >= |Notices(next.log)| {
        var id := state.queue[i - |Notices(next.log)|];
        assert AllNotices(state)[|Notices(state.log)| + i - |Notices(next.log)|] == id;
        ReportSurvives(state.log, next.log, id);
      }
    }
    forall t: nat, id | Awaits(next, t, id) ensures Reports(next.log, id) {
      ReportSurvives(state.log, next.log, id);
    }
  }

  /** Replaying twice is replaying once, on any log whatever. */
  lemma {:induction false} ReplayIsIdempotent(log: Log)
    ensures Replayed(Replayed(log)) == Replayed(log)
  {
    hide Correlation, FanIns, Notices, Expected;
    var once, expected := Replayed(log), Expected(log);
    ReplayAddsNotices(log, expected, |expected|);
    forall i | 0 <= i < |expected| ensures Correlation(expected[i].child, expected[i].ordinal) in Notices(once) {
      assert NamesOneOf(Correlation(expected[i].child, expected[i].ordinal), expected, |expected|);
    }
    NothingToReplay(once, expected, |expected|);
  }

  lemma {:induction false} NothingToReplay(log: Log, expected: seq<Settled>, n: nat)
    requires n <= |expected|
    requires forall i :: 0 <= i < |expected| ==> Correlation(expected[i].child, expected[i].ordinal) in Notices(log)
    ensures ReplayedUpTo(log, expected, n) == log
  {
    hide Correlation, Notices;
    if n > 0 {
      NothingToReplay(log, expected, n - 1);
    }
  }

  // ---------------------------------------------------------------------------
  // Every run
  // ---------------------------------------------------------------------------

  lemma {:induction false} NextKeepsInv(state: State, step: Step)
    requires Inv(state) && Enabled(state, step)
    ensures Inv(Next(state, step))
  {
    hide Inv, NoClaimOf, ReplaySafe;
    match step
    case StartJob(child) => StartKeepsInv(state, child);
    case RecordEpoch(child, job) => RecordKeepsInv(state, child, job);
    case Claim(child, noticeExpected) => ClaimKeepsInv(state, child, noticeExpected);
    case LogFanIn(t) => FanInKeepsInv(state, t);
    case SettleJob(t) => SettleJobKeepsInv(state, t);
    case HandNotice(t, accepted) => HandKeepsInv(state, t, accepted);
    case Kill(job) => ReportedKeepsInv(state, job);
    case Read(job) => ReportedKeepsInv(state, job);
    case Deliver(asMessage, text) => DeliverKeepsInv(state, asMessage, text);
    case DropQueue => LoseQueue(state);
    case Crash => LoseQueue(state);
    case ReplayUnreported => ReplayKeepsInv(state);
    case AppendOther(event) => OtherKeepsInv(state, event);
  }

  lemma {:induction false} RunsKeepInv(start: State, steps: seq<Step>)
    requires Inv(start) && IsRun(start, steps)
    ensures Inv(Reached(start, steps))
  {
    hide Inv, Enabled, Next;
    if steps != [] {
      RunsKeepInv(start, steps[..|steps| - 1]);
      NextKeepsInv(Reached(start, steps[..|steps| - 1]), steps[|steps| - 1]);
    }
  }

  lemma StartIsGood()
    ensures Inv(START)
  {
  }

  lemma RunOneMore(start: State, steps: seq<Step>, step: Step)
    ensures Reached(start, steps + [step]) == Next(Reached(start, steps), step)
    ensures IsRun(start, steps) && Enabled(Reached(start, steps), step) ==> IsRun(start, steps + [step])
  {
    assert (steps + [step])[..|steps|] == steps;
  }

  /** No notice, logged or queued, precedes the fan-in it reports, and none is doubled. */
  lemma {:induction false} NoticesFollowTheirFanIns(steps: seq<Step>, i: nat)
    requires IsRun(START, steps) && i < |AllNotices(Reached(START, steps))|
    ensures var state := Reached(START, steps);
            && Reports(state.log, AllNotices(state)[i])
            && forall j :: 0 <= j < |AllNotices(state)| && j != i ==> AllNotices(state)[j] != AllNotices(state)[i]
  {
    hide IsRun, Reached, Reports, Notices;
    StartIsGood();
    RunsKeepInv(START, steps);
  }

  /** When a settlement logs its fan-in, its job carries the ordinal that a later scan of
      the log gives that fan-in. */
  lemma {:induction false} LiveAgreesWithReplay(steps: seq<Step>, t: nat, child: Id)
    requires IsRun(START, steps) && Claims(Reached(START, steps), t, child)
    ensures var before, claim := Reached(START, steps), Reached(START, steps).settling[t];
            var after := FanInLogged(before, t);
            && (claim.job.Some? ==>
                  && claim.job.value < |after.jobs|
                  && after.jobs[claim.job.value].notice == Correlation(child, FanIns(after.log, child)))
            && (claim.noticeExpected ==>
                  Expected(after.log) == Expected(before.log) + [Settled(child, FanIns(after.log, child))])
  {
    hide Correlation, FanIns, Notices, Expected, Inv, IsRun, Reached;
    StartIsGood();
    RunsKeepInv(START, steps);
    var before := Reached(START, steps);
    LogOneMore(before.log, SubagentFanIn(child, before.settling[t].noticeExpected));
    if before.settling[t].job.Some? {
      OrdinalIsItsOwn(before, t, child);
    }
  }

  /** After a safe replay every fan-in that expects a notice has exactly one, and none of
      them is queued or still to be queued. */
  lemma {:induction false} ReplayLeavesExactlyOne(steps: seq<Step>, k: nat)
    requires IsRun(START, steps) && ReplaySafe(Reached(START, steps))
    requires k < |Expected(Replayed(Reached(START, steps).log))|
    ensures var state := Reached(START, steps);
            var next := state.(log := Replayed(state.log));
            var s := Expected(next.log)[k];
            var id := Correlation(s.child, s.ordinal);
            && (exists i :: 0 <= i < |Notices(next.log)| && Notices(next.log)[i] == id
                            && forall j :: 0 <= j < |Notices(next.log)| && Notices(next.log)[j] == id ==> j == i)
            && id !in next.queue && forall t: nat :: !Awaits(next, t, id)
  {
    hide IsRun, Reached, Correlation, FanIns, Notices, Expected, Replayed, Awaits, AllReport;
    StartIsGood();
    RunsKeepInv(START, steps);
    var state := Reached(START, steps);
    var log := Replayed(state.log);
    ReplayedLog(state);
    ReplayIsSafeExactly(state);
    var s := Expected(log)[k];
    var id := Correlation(s.child, s.ordinal);
    assert s in Expected(state.log) && IsExpected(state.log, id);
    var i :| 0 <= i < |Notices(log)| && Notices(log)[i] == id;
    DistinctConcat(Notices(log), state.queue);
    assert forall t: nat :: Awaits(state.(log := log), t, id) ==> id !in AllNotices(state.(log := log));
  }

  // ---------------------------------------------------------------------------
  // What goes wrong otherwise, in some continuation
  // ---------------------------------------------------------------------------

  /** The queue is logged, notice by notice. */
  lemma {:induction false} DeliverAll(start: State, steps: seq<Step>) returns (more: seq<Step>)
    requires IsRun(start, steps)
    requires AllReport(Reached(start, steps).log, AllNotices(Reached(start, steps)))
    ensures IsRun(start, more) && Notices(Reached(start, more).log) == AllNotices(Reached(start, steps))
    decreases |Reached(start, steps).queue|
  {
    var state := Reached(start, steps);
    if state.queue == [] {
      more := steps;
      assert AllNotices(state) == Notices(state.log);
    } else {
      hide IsRun, Reached, AllReport, AllNotices;
      RunOneMore(start, steps, Deliver(false, NO_OUTPUT));
      DeliveryKeepsNotices(state);
      more := DeliverAll(start, steps + [Deliver(false, NO_OUTPUT)]);
    }
  }

  lemma DeliveryKeepsNotices(state: State)
    requires AllReport(state.log, AllNotices(state)) && state.queue != []
    ensures var next := Delivered(state, false, NO_OUTPUT);
            AllNotices(next) == AllNotices(state) && AllReport(next.log, AllNotices(next))
  {
    var next, id := Delivered(state, false, NO_OUTPUT), state.queue[0];
    hide Correlation, FanIns, Notices, Expected, Reports;
    assert AllNotices(state)[|Notices(state.log)|] == id;
    NoticeIsLogged(state.log, id, next.log[|state.log|]);
    assert next.log == state.log + [next.log[|state.log|]];
    assert AllNotices(next) == AllNotices(state);
    ReportsSurvive(state.log, next.log, AllNotices(state));
  }

  /** A notice still to be queued gets queued. */
  lemma QueueAwaited(state: State, t: nat, id: Id) returns (steps: seq<Step>)
    requires Awaits(state, t, id)
    ensures IsRun(state, steps)
    ensures var next := Reached(state, steps); next.queue == state.queue + [id] && next.log == state.log
  {
    steps := [];
    RunOneMore(state, steps, SettleJob(t));
    steps := steps + [SettleJob(t)];
    RunOneMore(state, steps, HandNotice(t, true));
    steps := steps + [HandNotice(t, true)];
  }

  /** A replay that is not safe leads to a log with some notice twice: the settlement that
      owes it goes on, and the parent logs its queue. */
  lemma UnsafeReplayDoubles(state: State) returns (steps: seq<Step>)
    requires Inv(state) && !ReplaySafe(state)
    ensures var replayed := state.(log := Replayed(state.log));
            IsRun(replayed, steps) && !Distinct(Notices(Reached(replayed, steps).log))
  {
    var replayed := state.(log := Replayed(state.log));
    hide Correlation, FanIns, Expected, Notices, Replayed, IsExpected, Reached, IsRun;
    ReplayedLog(state);
    var queued: seq<Step>, id: Id := [], [];
    if lost :| lost in state.queue && IsExpected(state.log, lost) {
      id := lost;
      NoSteps(replayed);
    } else {
      var t: nat, owed :| Awaits(state, t, owed) && IsExpected(state.log, owed);
      id := owed;
      assert Awaits(replayed, t, id);
      queued := QueueAwaited(replayed, t, id);
    }
    var next := Reached(replayed, queued);
    assert id in next.queue && id in Notices(next.log);
    StillReport(state, next, id);
    steps := DeliverAll(replayed, queued);
    DistinctConcat(Notices(next.log), next.queue);
  }

  lemma NoSteps(start: State)
    ensures IsRun(start, []) && Reached(start, []) == start
  {
  }

  lemma StillReport(state: State, next: State, id: Id)
    requires Inv(state) && next.log == Replayed(state.log) && id in Notices(next.log)
    requires next.queue == state.queue || next.queue == state.queue + [id]
    ensures AllReport(next.log, AllNotices(next))
  {
    hide Correlation, FanIns, Expected, Notices, Replayed, IsExpected;
    ReplayedLog(state);
    hide Reports;
    forall i | 0 <= i < |AllNotices(next)| ensures Reports(next.log, AllNotices(next)[i]) {
      var n := |Notices(next.log)|;
      if n <= i < n + |state.queue| {
        assert AllNotices(state)[|Notices(state.log)| + i - n] == state.queue[i - n] == AllNotices(next)[i];
        ReportSurvives(state.log, next.log, state.queue[i - n]);
      } else if i >= n {
        var j :| 0 <= j < n && Notices(next.log)[j] == id;
        assert AllNotices(next)[i] == id;
      }
    }
  }

  /** `step` logs no fan-in under a number that is not its own. */
  predicate NumbersRight(state: State, step: Step) {
    step.LogFanIn? && step.t < |state.settling|
    && state.settling[step.t].Claimed? && state.settling[step.t].job.Some? ==>
      JobCarriesNext(state, state.settling[step.t].child, state.settling[step.t].job.value)
  }

  predicate AllNumberedRight(start: State, steps: seq<Step>) {
    steps == []
    || (AllNumberedRight(start, steps[..|steps| - 1])
        && NumbersRight(Reached(start, steps[..|steps| - 1]), steps[|steps| - 1]))
  }

  lemma {:induction false} RunsNumberRight(start: State, steps: seq<Step>)
    requires Inv(start) && IsRun(start, steps)
    ensures AllNumberedRight(start, steps)
  {
    hide Enabled, Next;
    if steps != [] {
      var earlier := steps[..|steps| - 1];
      RunsNumberRight(start, earlier);
      RunsKeepInv(start, earlier);
      var step, state := steps[|steps| - 1], Reached(start, earlier);
      hide JobCarriesNext, ClaimsAreExclusive, AllReport, AwaitedReport, NoticesDistinct, Reached;
      if step.LogFanIn? && step.t < |state.settling| && state.settling[step.t].Claimed? {
        assert Claims(state, step.t, state.settling[step.t].child);
      }
    }
  }

  ghost predicate AlwaysNumbersRight(state: State) {
    forall steps :: IsRun(state, steps) ==> AllNumberedRight(state, steps)
  }

  /** Once an epoch is recorded with its job, every continuation numbers every fan-in as its
      job was named, exactly when the job still carries the next ordinal and no settlement of
      the child stands between claim and append. */
  lemma RecordingIsSafeExactly(state: State, child: Id, job: nat)
    requires Inv(state) && job < |state.jobs|
    ensures AlwaysNumbersRight(EpochRecorded(state, child, Some(job)))
            <==> NoClaimOf(state, child) && JobCarriesNext(state, child, job)
  {
    var begun := EpochRecorded(state, child, Some(job));
    hide IsRun, AllNumberedRight, Inv, JobCarriesNext, Claims;
    if !JobCarriesNext(state, child, job) {
      var steps := RecordedTooLate(state, child, job);
    } else if NoClaimOf(state, child) {
      RecordKeepsInv(state, child, Some(job));
      forall steps | IsRun(begun, steps) ensures AllNumberedRight(begun, steps) {
        RunsNumberRight(begun, steps);
      }
    } else {
      var t: nat :| Claims(state, t, child);
      var steps := RecordedTooEarly(state, child, t, job);
    }
  }

  /** The new epoch is settled at once, under a number that is taken. */
  lemma RecordedTooLate(state: State, child: Id, job: nat) returns (steps: seq<Step>)
    requires job < |state.jobs| && !JobCarriesNext(state, child, job)
    ensures var begun := EpochRecorded(state, child, Some(job));
            IsRun(begun, steps) && !AllNumberedRight(begun, steps)
  {
    hide Correlation, FanIns;
    var begun, u := EpochRecorded(state, child, Some(job)), |state.settling|;
    var first := [Claim(child, true)];
    RunOneMore(begun, [], Claim(child, true));
    assert [] + [Claim(child, true)] == first;
    RunOneMore(begun, first, LogFanIn(u));
    steps := first + [LogFanIn(u)];
    assert !NumbersRight(Reached(begun, first), LogFanIn(u));
    assert steps[..|steps| - 1] == first;
  }

  /** The earlier settlement logs its fan-in first, and the new epoch's comes second. */
  lemma RecordedTooEarly(state: State, child: Id, t: nat, job: nat) returns (steps: seq<Step>)
    requires Claims(state, t, child) && JobCarriesNext(state, child, job)
    ensures var begun := EpochRecorded(state, child, Some(job));
            IsRun(begun, steps) && !AllNumberedRight(begun, steps)
  {
    hide Correlation, FanIns, Notices, Expected;
    var begun, u := EpochRecorded(state, child, Some(job)), |state.settling|;
    var first, second := [LogFanIn(t)], [LogFanIn(t), Claim(child, true)];
    RunOneMore(begun, [], LogFanIn(t));
    assert [] + [LogFanIn(t)] == first;
    RunOneMore(begun, first, Claim(child, true));
    assert first + [Claim(child, true)] == second;
    RunOneMore(begun, second, LogFanIn(u));
    steps := second + [LogFanIn(u)];
    LogOneMore(state.log, SubagentFanIn(child, state.settling[t].noticeExpected));
    var now := Reached(begun, second);
    OrdinalsDiffer(child, FanIns(state.log, child) + 1, FanIns(now.log, child) + 1);
    assert !NumbersRight(now, LogFanIn(u));
    assert steps[..|steps| - 1] == second;
  }

  lemma OrdinalsDiffer(child: Id, m: nat, n: nat)
    ensures m != n ==> Correlation(child, m) != Correlation(child, n)
  {
    if m != n && Correlation(child, m) == Correlation(child, n) {
      CorrelationIsInjective(child, m, child, n);
    }
  }

  predicate NoCrash(steps: seq<Step>) {
    forall i :: 0 <= i < |steps| ==> !steps[i].Crash?
  }

  /** Nothing but a crash changes the name of a job. */
  lemma {:induction false} JobKeepsName(start: State, steps: seq<Step>, job: nat)
    requires job < |start.jobs| && NoCrash(steps)
    ensures job < |Reached(start, steps).jobs| && Reached(start, steps).jobs[job].notice == start.jobs[job].notice
  {
    hide Correlation, FanIns, Replayed;
    if steps != [] {
      assert !steps[|steps| - 1].Crash?;
      JobKeepsName(start, steps[..|steps| - 1], job);
    }
  }

  /** `open_epoch` names its job, anything but a crash happens, and it records the epoch:
      every continuation numbers right exactly when meanwhile no fan-in of the child was
      logged, and none is claimed and still to be logged. */
  lemma OpeningIsSafeExactlyOutsideWindows(state: State, child: Id, meanwhile: seq<Step>)
    requires Inv(state) && IsRun(JobStarted(state, child), meanwhile) && NoCrash(meanwhile)
    ensures var later := Reached(JobStarted(state, child), meanwhile);
            AlwaysNumbersRight(EpochRecorded(later, child, Some(|state.jobs|)))
            <==> NoClaimOf(later, child) && FanIns(later.log, child) == FanIns(state.log, child)
  {
    hide Inv, IsRun, Reached, Correlation, FanIns, AlwaysNumbersRight, NoClaimOf, NoCrash;
    var named, job := JobStarted(state, child), |state.jobs|;
    StartKeepsInv(state, child);
    RunsKeepInv(named, meanwhile);
    JobKeepsName(named, meanwhile, job);
    var later := Reached(named, meanwhile);
    OrdinalsDiffer(child, FanIns(state.log, child) + 1, FanIns(later.log, child) + 1);
    RecordingIsSafeExactly(later, child, job);
  }

  /** The windows are reached: between claim and append, between append and notice with
      nothing queued, and, for a child settled while its epoch is opened, between naming the
      job and recording the epoch. */
  lemma WindowsAreReached(child: Id)
    ensures var opening := [StartJob(child), RecordEpoch(child, Some(0))];
            var claimed := opening + [Claim(child, true)];
            var logged := claimed + [LogFanIn(0)];
            && IsRun(START, claimed) && Claims(Reached(START, claimed), 0, child)
            && IsRun(START, logged) && Reached(START, logged).queue == [] && !ReplaySafe(Reached(START, logged))
    ensures var overtaken := [StartJob(child), Claim(child, true), LogFanIn(0)];
            IsRun(START, overtaken) && !JobCarriesNext(Reached(START, overtaken), child, 0)
  {
    EpochIsOpened(child);
    ClaimIsLogged(child);
    OpeningIsOvertaken(child);
  }

  lemma EpochIsOpened(child: Id)
    ensures var opening := [StartJob(child), RecordEpoch(child, Some(0))];
            IsRun(START, opening) && Reached(START, opening) == Opened(START, child, true)
  {
    hide Correlation;
    RunOneMore(START, [], StartJob(child));
    assert [] + [StartJob(child)] == [StartJob(child)];
    RunOneMore(START, [StartJob(child)], RecordEpoch(child, Some(0)));
    assert [StartJob(child)] + [RecordEpoch(child, Some(0))] == [StartJob(child), RecordEpoch(child, Some(0))];
  }

  lemma ClaimIsLogged(child: Id)
    ensures var opening := [StartJob(child), RecordEpoch(child, Some(0))];
            var claimed := opening + [Claim(child, true)];
            var logged := claimed + [LogFanIn(0)];
            && IsRun(START, claimed) && Claims(Reached(START, claimed), 0, child)
            && IsRun(START, logged) && Reached(START, logged).queue == [] && !ReplaySafe(Reached(START, logged))
  {
    hide Correlation;
    var opening := [StartJob(child), RecordEpoch(child, Some(0))];
    EpochIsOpened(child);
    hide IsRun, Reached;
    RunOneMore(START, opening, Claim(child, true));
    RunOneMore(START, opening + [Claim(child, true)], LogFanIn(0));
    var state, id := Reached(START, opening + [Claim(child, true)] + [LogFanIn(0)]), Correlation(child, 1);
    LogOneMore([], SubagentFanIn(child, true));
    assert state.log == [] + [SubagentFanIn(child, true)];
    assert Expected(state.log) == [Settled(child, 1)];
    assert Settled(child, 1) in Expected(state.log);
    assert IsExpected(state.log, id);
    assert Awaits(state, 0, id);
  }

  lemma OpeningIsOvertaken(child: Id)
    ensures var overtaken := [StartJob(child), Claim(child, true), LogFanIn(0)];
            IsRun(START, overtaken) && !JobCarriesNext(Reached(START, overtaken), child, 0)
  {
    hide Correlation;
    var start, claim := StartJob(child), Claim(child, true);
    RunOneMore(START, [], start);
    assert [] + [start] == [start];
    RunOneMore(START, [start], claim);
    assert [start] + [claim] == [start, claim];
    RunOneMore(START, [start, claim], LogFanIn(0));
    assert [start, claim] + [LogFanIn(0)] == [start, claim, LogFanIn(0)];
    LogOneMore([], SubagentFanIn(child, true));
    OrdinalsDiffer(child, 1, 2);
  }
}
