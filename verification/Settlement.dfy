/** Subagent settlements: fan-ins in the parent's log, the notices that report them,
    and the replay that makes up for lost ones. */
module Settlement {
  import opened Wrappers
  import opened Utf8
  import opened Decimal
  import opened SessionLog

  // ---------------------------------------------------------------------------
  // Correlation ids
  // ---------------------------------------------------------------------------

  /** "subagent-settlement:" */
  const PREFIX: bytes := [
    0x73, 0x75, 0x62, 0x61, 0x67, 0x65, 0x6E, 0x74, 0x2D,
    0x73, 0x65, 0x74, 0x74, 0x6C, 0x65, 0x6D, 0x65, 0x6E, 0x74, 0x3A]
  const HASH: byte := 0x23

  /** `settlement_correlation` */
  function Correlation(child: Id, ordinal: nat): Id {
    PREFIX + child + [HASH] + Numeral(ordinal)
  }

  lemma CorrelationShape(child: Id, ordinal: nat, id: Id)
    requires id == Correlation(child, ordinal)
    ensures PREFIX <= id && |id| > |PREFIX| + |child|
    ensures id[|PREFIX| + |child|] == HASH && id[|PREFIX| + |child| + 1..] == Numeral(ordinal)
    ensures id[|PREFIX|..|PREFIX| + |child|] == child
    ensures forall i :: |PREFIX| + |child| < i < |id| ==> id[i] != HASH
  {
    hide PREFIX, Numeral;
    NumeralReadsBack(ordinal);
    HashIsNoDigit();
    var digits := id[|PREFIX| + |child| + 1..];
    assert forall i :: |PREFIX| + |child| < i < |id| ==> id[i] == digits[i - |PREFIX| - |child| - 1];
  }

  lemma HashIsNoDigit()
    ensures DigitValue(HASH) < 0
  {
  }

  /** Child and ordinal can be read off a correlation id, whatever the child's id holds. */
  lemma CorrelationIsInjective(c: Id, m: nat, d: Id, n: nat)
    requires Correlation(c, m) == Correlation(d, n)
    ensures c == d && m == n
  {
    hide PREFIX, Numeral, Correlation;
    var id := Correlation(c, m);
    CorrelationShape(c, m, id);
    CorrelationShape(d, n, id);
    assert |c| == |d|;
    NumeralIsInjective(m, n);
  }

  // ---------------------------------------------------------------------------
  // Reading the log
  // ---------------------------------------------------------------------------

  predicate IsFanIn(event: Event, child: Id) {
    event.SubagentFanIn? && event.child == child
  }

  /** `count_fanin` */
  function FanIns(log: Log, child: Id): nat {
    if log == [] then 0
    else FanIns(log[..|log| - 1], child) + if IsFanIn(log[|log| - 1], child) then 1 else 0
  }

  method CountFanIn(log: Log, child: Id) returns (count: nat)
    ensures count == FanIns(log, child)
  {
    count := 0;
    for i := 0 to |log|
      invariant count == FanIns(log[..i], child)
    {
      assert log[..i + 1][..i] == log[..i];
      if IsFanIn(log[i], child) {
        count := count + 1;
      }
    }
    assert log[..|log|] == log;
  }

  /** The plugin a logged message names, as `notice_source` finds it. */
  function PluginOf(event: Event): Option<Id> {
    if event.UserMessage? && event.message.source.FromPlugin? then Some(event.message.source.plugin)
    else if event.ContextInjected? && event.context.source.FromPlugin? then Some(event.context.source.plugin)
    else None
  }

  /** Settlement notices carry a plugin name with the settlement prefix. */
  predicate IsNotice(event: Event) {
    PluginOf(event).Some? && PREFIX <= PluginOf(event).value
  }

  /** The notices in the log, in order. */
  function Notices(log: Log): seq<Id> {
    if log == [] then []
    else Notices(log[..|log| - 1]) + if IsNotice(log[|log| - 1]) then [PluginOf(log[|log| - 1]).value] else []
  }

  datatype Settled = Settled(child: Id, ordinal: nat)

  /** The fan-ins that expect a notice, with the ordinal a scan assigns them. */
  function Expected(log: Log): seq<Settled> {
    if log == [] then []
    else
      var earlier, last := log[..|log| - 1], log[|log| - 1];
      Expected(earlier) +
      if last.SubagentFanIn? && last.noticeExpected then [Settled(last.child, FanIns(earlier, last.child) + 1)] else []
  }

  lemma LogOneMore(log: Log, event: Event)
    ensures Notices(log + [event]) == Notices(log) + if IsNotice(event) then [PluginOf(event).value] else []
    ensures forall child :: FanIns(log + [event], child) == FanIns(log, child) + if IsFanIn(event, child) then 1 else 0
    ensures Expected(log + [event]) ==
            Expected(log) + if event.SubagentFanIn? && event.noticeExpected
                            then [Settled(event.child, FanIns(log, event.child) + 1)] else []
  {
    assert (log + [event])[..|log|] == log;
  }

  // ---------------------------------------------------------------------------
  // Replay
  // ---------------------------------------------------------------------------

  function NoticeEvent(settled: Settled, text: Text): Event {
    ContextInjected(Message(FromPlugin(Correlation(settled.child, settled.ordinal)), text))
  }

  /** Stands for the rendered notice; the replay knows no closing message. */
  const NO_OUTPUT: Text := []

  /** The log after the first `n` expected settlements have been made up for. */
  function ReplayedUpTo(log: Log, expected: seq<Settled>, n: nat): Log
    requires n <= |expected|
  {
    if n == 0 then log
    else
      var before, next := ReplayedUpTo(log, expected, n - 1), expected[n - 1];
      if Correlation(next.child, next.ordinal) in Notices(before) then before
      else before + [NoticeEvent(next, NO_OUTPUT)]
  }

  function Replayed(log: Log): Log {
    ReplayedUpTo(log, Expected(log), |Expected(log)|)
  }

  ghost predicate OrdinalsMatch(log: Log, ordinals: map<Id, nat>) {
    forall child :: FanIns(log, child) == if child in ordinals then ordinals[child] else 0
  }

  /** `delivered` decides every name that could be a settlement notice. */
  ghost predicate DeliveredMatch(notices: seq<Id>, delivered: set<Id>) {
    forall id :: PREFIX <= id ==> (id in delivered <==> id in notices)
  }

  lemma CountFanInEvent(log: Log, event: Event, ordinals: map<Id, nat>)
    requires OrdinalsMatch(log, ordinals) && event.SubagentFanIn?
    ensures OrdinalsMatch(log + [event], ordinals[event.child := FanIns(log, event.child) + 1])
  {
    LogOneMore(log, event);
  }

  lemma OtherEventCountsNothing(log: Log, event: Event, ordinals: map<Id, nat>)
    requires OrdinalsMatch(log, ordinals) && !event.SubagentFanIn?
    ensures OrdinalsMatch(log + [event], ordinals) && Expected(log + [event]) == Expected(log)
  {
    LogOneMore(log, event);
  }

  lemma NoteSource(log: Log, event: Event, delivered: set<Id>)
    requires DeliveredMatch(Notices(log), delivered)
    ensures var source := PluginOf(event);
            DeliveredMatch(Notices(log + [event]),
                           if source.Some? && source.value != [] then delivered + {source.value} else delivered)
  {
    LogOneMore(log, event);
    PrefixIsNotEmpty();
  }

  lemma PrefixIsNotEmpty()
    ensures PREFIX != []
  {
  }

  /** The scan: ordinals per child, expected settlements, plugin names already logged. */
  method ScanLog(log: Log) returns (pending: seq<Settled>, delivered: set<Id>)
    ensures pending == Expected(log)
    ensures DeliveredMatch(Notices(log), delivered)
  {
    hide PREFIX, Expected, FanIns, Notices, OrdinalsMatch, DeliveredMatch;
    var ordinals: map<Id, nat> := map[];
    pending, delivered := [], {};
    NothingScanned();
    for i := 0 to |log|
      invariant pending == Expected(log[..i])
      invariant OrdinalsMatch(log[..i], ordinals)
      invariant DeliveredMatch(Notices(log[..i]), delivered)
    {
      assert log[..i + 1] == log[..i] + [log[i]];
      NoteSource(log[..i], log[i], delivered);
      if log[i].SubagentFanIn? {
        var child := log[i].child;
        OrdinalOf(log[..i], ordinals, child);
        LogOneMore(log[..i], log[i]);
        CountFanInEvent(log[..i], log[i], ordinals);
        var ordinal := 1 + if child in ordinals then ordinals[child] else 0;
        ordinals := ordinals[child := ordinal];
        if log[i].noticeExpected {
          pending := pending + [Settled(child, ordinal)];
        }
        continue;
      }
      OtherEventCountsNothing(log[..i], log[i], ordinals);
      var source := PluginOf(log[i]);
      if source.Some? && source.value != [] {
        delivered := delivered + {source.value};
      }
    }
    assert log[..|log|] == log;
  }

  lemma NothingScanned()
    ensures Expected([]) == [] && OrdinalsMatch([], map[]) && DeliveredMatch(Notices([]), {})
  {
  }

  lemma OrdinalOf(log: Log, ordinals: map<Id, nat>, child: Id)
    requires OrdinalsMatch(log, ordinals)
    ensures FanIns(log, child) == if child in ordinals then ordinals[child] else 0
  {
  }

  /** `replayUnreportedSettlements` */
  method Replay(session: Log) returns (log: Log)
    ensures log == Replayed(session)
  {
    hide PREFIX, Expected, Notices, DeliveredMatch, Correlation;
    var pending, delivered := ScanLog(session);
    log := session;
    for i := 0 to |pending|
      invariant log == ReplayedUpTo(session, Expected(session), i)
      invariant DeliveredMatch(Notices(log), delivered)
    {
      var correlation := Correlation(pending[i].child, pending[i].ordinal);
      NoticeIsDelivered(log, pending[i], delivered);
      if correlation in delivered {
        continue;
      }
      log := log + [NoticeEvent(pending[i], NO_OUTPUT)];
      delivered := delivered + {correlation};
    }
  }

  lemma NoticeIsDelivered(log: Log, settled: Settled, delivered: set<Id>)
    requires DeliveredMatch(Notices(log), delivered)
    ensures var id := Correlation(settled.child, settled.ordinal);
            && (id in delivered <==> id in Notices(log))
            && DeliveredMatch(Notices(log + [NoticeEvent(settled, NO_OUTPUT)]), delivered + {id})
  {
    hide PREFIX;
    var id := Correlation(settled.child, settled.ordinal);
    CorrelationShape(settled.child, settled.ordinal, id);
    LogOneMore(log, NoticeEvent(settled, NO_OUTPUT));
  }
}
