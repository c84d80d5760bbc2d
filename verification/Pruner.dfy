/** Pruning oversized tool results in the model-visible surface of the log. */
module Pruner {
  import opened Utf8
  import opened SessionLog
  import opened CodePoints

  /** The thresholds, and the text that marks the gap (MARKER in the shipped program). */
  datatype Config = Config(threshold: nat, head: nat, tail: nat, marker: bytes)

  /** "\n\n[... tool result " */
  const MARKER_START: bytes := [
    0x0A, 0x0A, 0x5B, 0x2E, 0x2E, 0x2E, 0x20, 0x74, 0x6F, 0x6F, 0x6C, 0x20, 0x72, 0x65, 0x73, 0x75, 0x6C, 0x74, 0x20]

  /** "middle pruned ...]\n\n" */
  const MARKER_END: bytes := [
    0x6D, 0x69, 0x64, 0x64, 0x6C, 0x65, 0x20, 0x70, 0x72, 0x75, 0x6E, 0x65, 0x64, 0x20, 0x2E, 0x2E, 0x2E, 0x5D,
    0x0A, 0x0A]

  const MARKER: bytes := MARKER_START + MARKER_END

  const SKILL: bytes := [0x73, 0x6B, 0x69, 0x6C, 0x6C]

  /** The latest result of each tool call: what the model gets to see. */
  function Surface(log: Log): map<Id, nat>
    ensures forall id :: id in Surface(log) ==> Surface(log)[id] < |log| && log[Surface(log)[id]].ToolResult?
    ensures forall id :: id in Surface(log) ==> log[Surface(log)[id]].result.id == id
  {
    if log == [] then map[]
    else
      var earlier, last := Surface(log[..|log| - 1]), |log| - 1;
      if log[last].ToolResult? then earlier[log[last].result.id := last] else earlier
  }

  function Shown(log: Log, id: Id): Result
    requires id in Surface(log)
  {
    log[Surface(log)[id]].result
  }

  /** A successful skill load is never pruned; anything else is once it exceeds the threshold. */
  predicate Oversized(config: Config, result: Result) {
    !(result.name == SKILL && result.outcome == Ok) && Length(result.output) > config.threshold
  }

  function OversizedIds(config: Config, log: Log): set<Id> {
    set id | id in Surface(log) && Oversized(config, Shown(log, id))
  }

  /** `q` is `p` with the middle of its output replaced: what is kept are the first and the
      last code points, whole ones if the output is well-formed. */
  ghost predicate IsPruned(config: Config, p: Result, q: Result) {
    exists to: nat, from: nat :: IsPrunedAt(config, p, q, to, from)
  }

  ghost predicate IsPrunedAt(config: Config, p: Result, q: Result, to: nat, from: nat) {
    && EndsHead(p.output, config.head, to) && StartsTail(p.output, config.tail, from)
    && q == p.(output := p.output[..to] + config.marker + p.output[from..])
  }

  /** Whether head, marker and tail together stay within the threshold. */
  predicate Fits(config: Config) {
    config.head + Length(config.marker) + config.tail <= config.threshold
  }

  // ---------------------------------------------------------------------------
  // One pass
  // ---------------------------------------------------------------------------

  lemma {:induction false} AppendedPair(log: Log, shadowed: nat, result: Result)
    ensures Surface(log + [ContextPrune(shadowed), ToolResult(result)]) == Surface(log)[result.id := |log| + 1]
  {
    var once := log + [ContextPrune(shadowed)];
    var twice := log + [ContextPrune(shadowed), ToolResult(result)];
    assert once[..|once| - 1] == log && twice[..|twice| - 1] == once;
  }

  /** The entry of `id` moved to a pruned copy, right behind its shadow marker. */
  ghost predicate Replaced(config: Config, before: Log, log: Log, id: Id)
    requires id in Surface(before) && id in Surface(log)
  {
    var at := Surface(log)[id];
    && |before| < at && log[at - 1] == ContextPrune(Surface(before)[id])
    && IsPruned(config, Shown(before, id), log[at].result)
  }

  /** What has become of the entry of `id` so far. */
  ghost predicate Treated(config: Config, before: Log, log: Log, id: Id, todo: set<Id>)
    requires id in Surface(before) && id in Surface(log)
  {
    if id !in todo && Oversized(config, Shown(before, id)) then Replaced(config, before, log, id)
    else Surface(log)[id] == Surface(before)[id]
  }

  /** The pass has treated every id outside `todo` and appended `pairs` replacements. */
  ghost predicate Progress(config: Config, before: Log, log: Log, todo: set<Id>, pairs: nat)
  {
    && before <= log && |log| == |before| + 2 * pairs
    && Surface(log).Keys == Surface(before).Keys
    && forall id :: id in Surface(before) ==> Treated(config, before, log, id, todo)
  }

  /** What one pass does: every oversized result of the surface gets one shadow
      marker and one pruned copy at the end; nothing else changes. */
  ghost predicate PassedOnce(config: Config, before: Log, log: Log) {
    Progress(config, before, log, {}, |OversizedIds(config, before)|)
  }

  lemma {:induction false} SkipId(config: Config, before: Log, log: Log, todo: set<Id>, pairs: nat, id: Id)
    requires Progress(config, before, log, todo, pairs) && id in Surface(before) && id in todo
    requires !Oversized(config, Shown(before, id))
    ensures Progress(config, before, log, todo - {id}, pairs)
  {
    hide Replaced, Oversized;
    forall other | other in Surface(before) ensures Treated(config, before, log, other, todo - {id}) {
      assert Treated(config, before, log, other, todo);
    }
  }

  lemma {:induction false} ReplaceId(
    config: Config, before: Log, log: Log, todo: set<Id>, pairs: nat, id: Id, pruned: Result)
    requires Progress(config, before, log, todo, pairs) && id in Surface(before) && id in todo
    requires Oversized(config, Shown(before, id)) && IsPruned(config, Shown(before, id), pruned)
    ensures Progress(
              config, before, log + [ContextPrune(Surface(before)[id]), ToolResult(pruned)], todo - {id}, pairs + 1)
  {
    hide IsPruned, Oversized, Surface, Treated;
    var longer := log + [ContextPrune(Surface(before)[id]), ToolResult(pruned)];
    SameCall(config, Shown(before, id), pruned);
    AppendedPair(log, Surface(before)[id], pruned);
    forall other | other in Surface(before) ensures Treated(config, before, longer, other, todo - {id}) {
      assert Treated(config, before, log, other, todo);
      if other == id {
        NowReplaced(config, before, log, longer, id, todo, pruned);
      } else {
        StaysTreated(config, before, log, longer, other, todo, id);
      }
    }
  }

  lemma {:induction false} NowReplaced(
    config: Config, before: Log, log: Log, longer: Log, id: Id, todo: set<Id>, pruned: Result)
    requires id in Surface(before) && id in Surface(longer) && Surface(longer)[id] == |log| + 1 && |before| <= |log|
    requires longer == log + [ContextPrune(Surface(before)[id]), ToolResult(pruned)]
    requires Oversized(config, Shown(before, id)) && IsPruned(config, Shown(before, id), pruned)
    ensures Treated(config, before, longer, id, todo - {id})
  {
    hide IsPruned, Oversized, Surface;
    assert longer[|log|] == ContextPrune(Surface(before)[id]) && longer[|log| + 1] == ToolResult(pruned);
  }

  lemma {:induction false} StaysTreated(
    config: Config, before: Log, log: Log, longer: Log, id: Id, todo: set<Id>, other: Id)
    requires id in Surface(before) && id in Surface(log) && id in Surface(longer) && id != other
    requires Treated(config, before, log, id, todo) && log <= longer && Surface(longer)[id] == Surface(log)[id]
    ensures Treated(config, before, longer, id, todo - {other})
  {
    hide IsPruned, Oversized, Surface;
    var at := Surface(log)[id];
    assert at < |log| && longer[at] == log[at] && (at > 0 ==> longer[at - 1] == log[at - 1]);
  }

  lemma {:induction false} SameCall(config: Config, p: Result, q: Result)
    requires IsPruned(config, p, q)
    ensures q.id == p.id
  {
  }

  method PruneText(config: Config, result: Result) returns (pruned: Result)
    ensures IsPruned(config, result, pruned)
    ensures WellFormed(result.output) && WellFormed(config.marker) ==> WellFormed(pruned.output)
  {
    var head := CodePointHead(result.output, config.head);
    var tail := CodePointTail(result.output, config.tail);
    var output := head + config.marker + tail;
    hide EndsHead, StartsTail, WellFormed;
    if WellFormed(result.output) && WellFormed(config.marker) {
      PiecesAreWellFormed(head, config.marker, tail);
    }
    pruned := result.(output := output);
    assert head == result.output[..|head|];
    assert IsPrunedAt(config, result, pruned, |head|, |result.output| - |tail|);
  }

  /** Pruning well-formed text around a well-formed marker leaves well-formed text. */
  lemma {:induction false} PrunedIsWellFormed(config: Config, p: Result, q: Result)
    requires IsPruned(config, p, q) && WellFormed(p.output) && WellFormed(config.marker)
    ensures WellFormed(q.output)
  {
    var to: nat, from: nat :| IsPrunedAt(config, p, q, to, from);
    PrefixIsWellFormed(p.output, to);
    SuffixIsWellFormed(p.output, from);
    hide WellFormed, EndsHead, StartsTail;
    PiecesAreWellFormed(p.output[..to], config.marker, p.output[from..]);
  }

  /** The shipped marker keeps well-formed outputs well-formed. */
  lemma MarkerIsWellFormed()
    ensures WellFormed(MARKER)
  {
    hide WellFormedRange;
    MarkerStartIsWellFormed();
    MarkerEndIsWellFormed();
    ConcatIsWellFormed(MARKER_START, MARKER_END);
  }

  lemma MarkerStartIsWellFormed()
    ensures WellFormed(MARKER_START)
  {
    hide WellFormedRange;
    AsciiIsWellFormed(MARKER_START, 0);
  }

  lemma MarkerEndIsWellFormed()
    ensures WellFormed(MARKER_END)
  {
    hide WellFormedRange;
    AsciiIsWellFormed(MARKER_END, 0);
  }

  lemma PiecesAreWellFormed(head: bytes, marker: bytes, tail: bytes)
    requires WellFormed(head) && WellFormed(marker) && WellFormed(tail)
    ensures WellFormed(head + marker + tail)
  {
    hide WellFormedRange;
    ConcatIsWellFormed(head, marker);
    ConcatIsWellFormed(head + marker, tail);
  }

  lemma {:induction false} AsciiIsWellFormed(s: bytes, i: nat)
    requires i <= |s| && forall j :: 0 <= j < |s| ==> s[j] <= 0x7F
    ensures WellFormedRange(s, i, |s|)
    decreases |s| - i
  {
    if i < |s| {
      assert IsChar(s, i, 1);
      AsciiIsWellFormed(s, i + 1);
    }
  }

  /** Builds the surface by scanning the log once. */
  method ScanSurface(log: Log) returns (surface: map<Id, nat>)
    ensures surface == Surface(log)
  {
    surface := map[];
    for i := 0 to |log|
      invariant surface == Surface(log[..i])
    {
      assert log[..i + 1][..i] == log[..i];
      if log[i].ToolResult? {
        surface := surface[log[i].result.id := i];
      }
    }
    assert log[..|log|] == log;
  }

  method IsOversized(config: Config, result: Result) returns (oversized: bool)
    ensures oversized == Oversized(config, result)
  {
    if result.name == SKILL && result.outcome == Ok {
      return false;
    }
    var length := CodePointLength(result.output);
    return length > config.threshold;
  }

  /** One entry of the surface: left alone, or shadowed and copied pruned. */
  method PruneEntry(config: Config, session: Log, log: Log, todo: set<Id>, ghost pairs: nat, id: Id, at: nat)
    returns (longer: Log, oversized: bool)
    requires id in todo && id in Surface(session) && at == Surface(session)[id]
    requires Progress(config, session, log, todo, pairs)
    ensures oversized == Oversized(config, Shown(session, id))
    ensures Progress(config, session, longer, todo - {id}, if oversized then pairs + 1 else pairs)
    ensures |longer| == |log| + if oversized then 2 else 0
    ensures AppendsPairs(session, log) ==> AppendsPairs(session, longer)
  {
    hide Surface, IsPruned, Oversized, Progress, AppendsPairs;
    var original := session[at].result;
    oversized := IsOversized(config, original);
    if !oversized {
      SkipId(config, session, log, todo, pairs, id);
      return log, oversized;
    }
    var pruned := PruneText(config, original);
    ReplaceId(config, session, log, todo, pairs, id, pruned);
    longer := log + [ContextPrune(at), ToolResult(pruned)];
    if AppendsPairs(session, log) {
      PairAppended(session, log, at, pruned);
    }
  }

  /** What a pass appends: shadow markers, each with its copy right behind it. */
  ghost predicate AppendsPairs(before: Log, log: Log) {
    log == before
    || (|log| >= |before| + 2 && log[|log| - 2].ContextPrune? && log[|log| - 1].ToolResult?
        && AppendsPairs(before, log[..|log| - 2]))
  }

  lemma {:induction false} PairAppended(before: Log, log: Log, at: nat, result: Result)
    requires AppendsPairs(before, log)
    ensures AppendsPairs(before, log + [ContextPrune(at), ToolResult(result)])
    ensures |log| >= |before|
  {
    var longer := log + [ContextPrune(at), ToolResult(result)];
    assert longer[..|longer| - 2] == log;
    if log != before {
      var init := log[..|log| - 2];
      PairAppended(before, init, at, result);
    }
  }

  /** The copies stand at every second place of what the pass appends. */
  ghost predicate EverySecondFrom(places: seq<nat>, start: nat) {
    forall i :: 0 <= i < |places| ==> places[i] == start + 2 * i + 1
  }

  lemma NextSecond(places: seq<nat>, start: nat, place: nat)
    requires EverySecondFrom(places, start) && place == start + 2 * |places| + 1
    ensures EverySecondFrom(places + [place], start)
  {
  }

  method PruneSession(config: Config, session: Log) returns (log: Log, replacements: seq<nat>)
    ensures PassedOnce(config, session, log)
    ensures |replacements| == |OversizedIds(config, session)|
    ensures EverySecondFrom(replacements, |session|) && AppendsPairs(session, log)
  {
    hide Surface, Oversized, OversizedIds, TreatedCount, Progress, EverySecondFrom;
    var surface := ScanSurface(session);
    log, replacements := session, [];
    var todo := surface.Keys;
    NoneTreated(config, session);
    while todo != {}
      invariant todo <= surface.Keys
      invariant |replacements| == TreatedCount(config, session, todo)
      invariant Progress(config, session, log, todo, |replacements|) && |log| == |session| + 2 * |replacements|
      invariant EverySecondFrom(replacements, |session|) && AppendsPairs(session, log)
      decreases todo
    {
      var id :| id in todo;
      TreatOne(config, session, todo, id);
      var oversized;
      log, oversized := PruneEntry(config, session, log, todo, |replacements|, id, surface[id]);
      if oversized {
        NextSecond(replacements, |session|, |log| - 1);
        replacements := replacements + [|log| - 1];
      }
      todo := todo - {id};
    }
  }

  /** Oversized entries dealt with once only `todo` is left. */
  ghost function TreatedCount(config: Config, session: Log, todo: set<Id>): nat {
    |OversizedIds(config, session) - todo|
  }

  lemma NoneTreated(config: Config, session: Log)
    ensures TreatedCount(config, session, Surface(session).Keys) == 0
    ensures TreatedCount(config, session, {}) == |OversizedIds(config, session)|
    ensures Progress(config, session, session, Surface(session).Keys, 0) && EverySecondFrom([], |session|)
  {
    assert OversizedIds(config, session) - Surface(session).Keys == {};
    assert OversizedIds(config, session) - {} == OversizedIds(config, session);
  }

  lemma {:induction false} TreatOne(config: Config, session: Log, todo: set<Id>, id: Id)
    requires id in todo && id in Surface(session)
    ensures TreatedCount(config, session, todo - {id}) ==
            TreatedCount(config, session, todo) + if Oversized(config, Shown(session, id)) then 1 else 0
  {
    hide Surface, Oversized;
    var before, after := OversizedIds(config, session) - todo, OversizedIds(config, session) - (todo - {id});
    if Oversized(config, Shown(session, id)) {
      assert after == before + {id};
    } else {
      assert after == before;
    }
  }

  /** Every result is on the surface under its id, and none is later than the one shown. */
  lemma {:induction false} SurfaceIsLatest(log: Log, i: nat)
    requires i < |log| && log[i].ToolResult?
    ensures log[i].result.id in Surface(log) && i <= Surface(log)[log[i].result.id]
  {
    if i < |log| - 1 {
      SurfaceIsLatest(log[..|log| - 1], i);
    }
  }

  /** What a pass leaves the model to see of each call: a loaded skill and whatever is within
      the threshold stay as they are, anything else has its middle cut. */
  lemma PassTable(config: Config, before: Log, log: Log, id: Id)
    requires PassedOnce(config, before, log) && id in Surface(before)
    ensures before <= log && id in Surface(log)
    ensures Shown(before, id).name == SKILL && Shown(before, id).outcome == Ok ==>
              Surface(log)[id] == Surface(before)[id] && Shown(log, id) == Shown(before, id)
    ensures Length(Shown(before, id).output) <= config.threshold ==>
              Surface(log)[id] == Surface(before)[id] && Shown(log, id) == Shown(before, id)
    ensures Length(Shown(before, id).output) > config.threshold
            && !(Shown(before, id).name == SKILL && Shown(before, id).outcome == Ok) ==>
              IsPruned(config, Shown(before, id), Shown(log, id))
  {
    hide Surface, Length, IsPruned;
    assert Treated(config, before, log, id, {});
    SamePlaceSameResult(before, log, id);
  }

  lemma SamePlaceSameResult(before: Log, log: Log, id: Id)
    requires before <= log && id in Surface(before) && id in Surface(log)
    ensures Surface(log)[id] == Surface(before)[id] ==> Shown(log, id) == Shown(before, id)
  {
    hide Surface;
  }

  // ---------------------------------------------------------------------------
  // One pass is enough, exactly when the pieces fit
  // ---------------------------------------------------------------------------

  lemma {:induction false} PrunedLength(config: Config, p: Result, q: Result)
    requires IsPruned(config, p, q)
    ensures Length(q.output) ==
            Min(config.head, Length(p.output)) + Length(config.marker) + Min(config.tail, Length(p.output))
  {
    var to: nat, from: nat :| IsPrunedAt(config, p, q, to, from);
    var head, tail := p.output[..to], p.output[from..];
    PartLengths(p.output, to, from);
    assert Length(head) == Min(config.head, Length(p.output));
    assert Length(tail) == Min(config.tail, Length(p.output));
    hide Count, Length, EndsHead, StartsTail, IsPrunedAt;
    LengthOfConcat(head + config.marker, tail);
    LengthOfConcat(head, config.marker);
  }

  lemma PartLengths(s: bytes, to: nat, from: nat)
    requires to <= |s| && from <= |s|
    ensures Length(s[..to]) == Count(s, 0, to) && Length(s[from..]) == Count(s, from, |s|)
  {
    hide Count;
    CountMoves(s, 0, to, s[..to], 0);
    CountMoves(s, from, |s|, s[from..], 0);
  }

  lemma {:induction false} PrunedIsOversized(config: Config, p: Result, q: Result)
    requires IsPruned(config, p, q) && Oversized(config, p)
    ensures Oversized(config, q) <==> !Fits(config)
  {
    hide Length;
    PrunedLength(config, p, q);
    assert q.(output := p.output).name == p.name && q.(output := p.output).outcome == p.outcome;
  }

  /** After one pass nothing on the surface is oversized, exactly when nothing was
      or head, marker and tail fit the threshold. */
  lemma {:induction false} OnePassSuffices(config: Config, before: Log, log: Log)
    requires PassedOnce(config, before, log)
    ensures OversizedIds(config, log) == {} <==> OversizedIds(config, before) == {} || Fits(config)
  {
    forall id | id in Surface(before)
      ensures Oversized(config, Shown(log, id)) <==> Oversized(config, Shown(before, id)) && !Fits(config)
    {
      assert Treated(config, before, log, id, {});
      if Oversized(config, Shown(before, id)) {
        PrunedIsOversized(config, Shown(before, id), Shown(log, id));
      } else {
        assert before <= log && log[Surface(log)[id]] == before[Surface(before)[id]];
      }
    }
    hide Oversized;
    if OversizedIds(config, before) != {} && !Fits(config) {
      var id :| id in OversizedIds(config, before);
      assert id in OversizedIds(config, log);
    }
  }

  /** A second pass then appends nothing. */
  lemma {:induction false} SecondPassIsSilent(config: Config, before: Log, once: Log, twice: Log)
    requires PassedOnce(config, before, once) && PassedOnce(config, once, twice)
    ensures twice == once <==> OversizedIds(config, before) == {} || Fits(config)
  {
    OnePassSuffices(config, before, once);
    if OversizedIds(config, once) == {} {
      assert |twice| == |once|;
    }
  }

  /** The shipped defaults fit. */
  lemma DefaultsFit()
    ensures Fits(Config(8192, 4096, 1024, MARKER))
  {
    MarkerLength(|MARKER|);
  }

  lemma {:induction false} MarkerLength(i: nat)
    requires i <= |MARKER|
    ensures Count(MARKER, 0, i) <= i
  {
    if i > 0 {
      MarkerLength(i - 1);
    }
  }
}
