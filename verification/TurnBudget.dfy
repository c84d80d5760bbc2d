/** When a turn's tool steps must stop: repeated work, a segment without success, or too
    many segments. The loop keeps counters; the rules are stated on the whole history. */
module TurnBudget {
  import opened SessionLog

  datatype Rules = Rules(
    maxSteps: nat, maxTurnSteps: nat, maxSegments: nat, compactionCap: nat,
    actionDigest: seq<Call> -> Text, resultDigest: seq<Result> -> Text)
  {
    /** Steps a segment may take. */
    function SegmentLength(): nat { if maxSteps < 1 then 1 else maxSteps }
    /** Steps a turn may take. */
    function TurnCeiling(): nat { if maxTurnSteps < 1 then 1 else maxTurnSteps }
  }

  /** A finished step that called tools. */
  datatype ToolStep = ToolStep(action: Text, outcome: Text, success: bool)

  function ToolStepOf(rules: Rules, calls: seq<Call>, results: seq<Result>): ToolStep {
    ToolStep(rules.actionDigest(calls), rules.resultDigest(results), exists r :: r in results && r.outcome == Ok)
  }

  const STREAK_LIMIT := 3

  /** Something new was tried, or something new succeeded. */
  ghost predicate MadeProgress(history: seq<ToolStep>, i: nat)
    requires i < |history|
  {
    || (forall j :: 0 <= j < i ==> history[j].action != history[i].action)
    || (history[i].success && forall j :: 0 <= j < i ==> history[j].outcome != history[i].outcome)
  }

  ghost predicate Stalled(history: seq<ToolStep>) {
    |history| >= STREAK_LIMIT
    && forall i :: |history| - STREAK_LIMIT <= i < |history| ==> !MadeProgress(history, i)
  }

  /** The last `n` steps hold a success. */
  ghost predicate Fruitful(history: seq<ToolStep>, n: nat)
    requires n <= |history|
  {
    exists i :: |history| - n <= i < |history| && history[i].success
  }

  predicate SegmentClosed(rules: Rules, history: seq<ToolStep>) {
    history != [] && |history| % rules.SegmentLength() == 0
  }

  lemma SmallRemainder(n: nat, length: nat)
    requires n < length
    ensures n % length == n
  {
  }

  lemma ClosedSegmentIsWhole(rules: Rules, history: seq<ToolStep>)
    requires SegmentClosed(rules, history)
    ensures rules.SegmentLength() <= |history|
  {
    var length, n := rules.SegmentLength(), |history|;
    if n < length { SmallRemainder(n, length); }
  }

  ghost predicate Exhausted(rules: Rules, history: seq<ToolStep>) {
    rules.maxSegments != 0 && |history| / rules.SegmentLength() >= rules.maxSegments
  }

  /** Whether another step may follow the tool steps so far. */
  ghost predicate MayContinue(rules: Rules, history: seq<ToolStep>) {
    && !Stalled(history)
    && (SegmentClosed(rules, history) ==>
          (ClosedSegmentIsWhole(rules, history);
           Fruitful(history, rules.SegmentLength()) && !Exhausted(rules, history)))
  }

  // ---------------------------------------------------------------------------
  // The loop's counters
  // ---------------------------------------------------------------------------

  datatype Counters = Counters(
    segmentStep: nat, segments: nat, streak: nat, segmentHadSuccess: bool,
    seenActions: set<Text>, seenResults: set<Text>)

  const NOTHING_COUNTED := Counters(0, 0, 0, false, {}, {})

  ghost predicate SeenIs(history: seq<ToolStep>, c: Counters) {
    && (forall text :: text in c.seenActions <==> exists i :: 0 <= i < |history| && history[i].action == text)
    && (forall text :: text in c.seenResults <==> exists i :: 0 <= i < |history| && history[i].outcome == text)
  }

  ghost predicate StreakIs(history: seq<ToolStep>, streak: nat) {
    && streak <= |history|
    && (forall i :: |history| - streak <= i < |history| ==> !MadeProgress(history, i))
    && (streak < |history| ==> MadeProgress(history, |history| - streak - 1))
  }

  ghost predicate SegmentIs(rules: Rules, history: seq<ToolStep>, segmentStep: nat, segments: nat, hadSuccess: bool) {
    && segmentStep < rules.SegmentLength()
    && |history| == segments * rules.SegmentLength() + segmentStep
    && segmentStep <= |history|
    && (hadSuccess <==> Fruitful(history, segmentStep))
  }

  ghost predicate Counts(rules: Rules, history: seq<ToolStep>, c: Counters) {
    && SeenIs(history, c)
    && StreakIs(history, c.streak)
    && SegmentIs(rules, history, c.segmentStep, c.segments, c.segmentHadSuccess)
  }

  lemma NothingCounted(rules: Rules)
    ensures Counts(rules, [], NOTHING_COUNTED) && MayContinue(rules, [])
  {
  }

  lemma ProgressIsSettled(history: seq<ToolStep>, step: ToolStep, i: nat)
    requires i < |history|
    ensures MadeProgress(history + [step], i) <==> MadeProgress(history, i)
  {
    var more := history + [step];
    assert forall j :: 0 <= j <= i ==> more[j] == history[j];
  }

  lemma ProgressOfLast(history: seq<ToolStep>, step: ToolStep, c: Counters)
    requires SeenIs(history, c)
    ensures MadeProgress(history + [step], |history|) <==>
              step.action !in c.seenActions || (step.success && step.outcome !in c.seenResults)
  {
    var more := history + [step];
    assert forall j :: 0 <= j < |history| ==> more[j] == history[j];
  }

  lemma SeenOneMore(history: seq<ToolStep>, step: ToolStep, c: Counters)
    requires SeenIs(history, c)
    ensures SeenIs(history + [step],
                   c.(seenActions := c.seenActions + {step.action}, seenResults := c.seenResults + {step.outcome}))
  {
    var more := history + [step];
    assert more[|history|] == step;
    assert forall j :: 0 <= j < |history| ==> more[j] == history[j];
  }

  lemma StreakOneMore(history: seq<ToolStep>, step: ToolStep, streak: nat)
    requires StreakIs(history, streak) && streak < STREAK_LIMIT
    ensures var more, next := history + [step], if MadeProgress(history + [step], |history|) then 0 else streak + 1;
            StreakIs(more, next) && (Stalled(more) <==> next >= STREAK_LIMIT)
  {
    var more := history + [step];
    forall i | 0 <= i < |history| ensures MadeProgress(more, i) <==> MadeProgress(history, i) {
      ProgressIsSettled(history, step, i);
    }
    assert MadeProgress(more, |history|) ==> !Stalled(more);
    if !MadeProgress(more, |history|) && streak + 1 < STREAK_LIMIT && |more| >= STREAK_LIMIT {
      assert MadeProgress(more, |history| - streak - 1);
    }
  }

  lemma AtLeastOne(k: int, length: nat)
    requires k >= 1
    ensures k * length >= length
  {
    assert k * length == (k - 1) * length + length;
  }

  lemma {:induction false} QuotientIsUnique(length: nat, q: int, r: nat, p: int, s: nat)
    requires r < length && s < length && q * length + r == p * length + s
    ensures q == p
  {
    assert (q - p) * length == q * length - p * length == -((p - q) * length);
    if q > p {
      AtLeastOne(q - p, length);
    } else if p > q {
      AtLeastOne(p - q, length);
    }
  }

  lemma {:induction false} DivisionOf(n: nat, length: nat, segments: nat, rest: nat)
    requires length > 0 && n == segments * length + rest && rest < length
    ensures n / length == segments && n % length == rest
  {
    QuotientIsUnique(length, n / length, n % length, segments, rest);
  }

  lemma {:induction false} SegmentOneMore(rules: Rules, history: seq<ToolStep>, step: ToolStep, c: Counters)
    requires SegmentIs(rules, history, c.segmentStep, c.segments, c.segmentHadSuccess)
    ensures var more, length := history + [step], rules.SegmentLength();
            var hadSuccess := c.segmentHadSuccess || step.success;
            && (SegmentClosed(rules, more) <==> c.segmentStep + 1 >= length)
            && (c.segmentStep + 1 < length ==> SegmentIs(rules, more, c.segmentStep + 1, c.segments, hadSuccess))
            && (c.segmentStep + 1 >= length ==>
                  && SegmentIs(rules, more, 0, c.segments + 1, false)
                  && |more| / length == c.segments + 1 && length <= |more|
                  && (Fruitful(more, length) <==> hadSuccess))
  {
    var more, length := history + [step], rules.SegmentLength();
    assert more[|history|] == step;
    assert Fruitful(more, c.segmentStep + 1) <==> c.segmentHadSuccess || step.success by {
      assert forall j :: 0 <= j < |history| ==> more[j] == history[j];
    }
    if c.segmentStep + 1 < length {
      DivisionOf(|more|, length, c.segments, c.segmentStep + 1);
    } else {
      assert c.segments * length + length == (c.segments + 1) * length;
      DivisionOf(|more|, length, c.segments + 1, 0);
    }
  }

  /** Counts a finished tool step and decides whether the turn goes on. */
  method CountToolStep(rules: Rules, c: Counters, step: ToolStep, ghost history: seq<ToolStep>)
    returns (proceed: bool, next: Counters)
    requires Counts(rules, history, c) && c.streak < STREAK_LIMIT
    ensures proceed <==> MayContinue(rules, history + [step])
    ensures proceed ==> Counts(rules, history + [step], next) && next.streak < STREAK_LIMIT
  {
    hide MadeProgress, StreakIs, SegmentIs, SeenIs, Stalled, Fruitful, SegmentClosed;
    ghost var more := history + [step];
    var segmentStep := c.segmentStep + 1;
    var actionNovel := step.action !in c.seenActions;
    var resultNovel := step.outcome !in c.seenResults;
    var hadSuccess := c.segmentHadSuccess || step.success;
    var madeProgress := actionNovel || (step.success && resultNovel);
    var streak := if madeProgress then 0 else c.streak + 1;
    next := Counters(segmentStep, c.segments, streak, hadSuccess,
                     c.seenActions + {step.action}, c.seenResults + {step.outcome});
    ProgressOfLast(history, step, c);
    SeenOneMore(history, step, c);
    StreakOneMore(history, step, c.streak);
    SegmentOneMore(rules, history, step, c);
    SeenDependsOnSets(more, c.(seenActions := next.seenActions, seenResults := next.seenResults), next);
    if streak >= STREAK_LIMIT {
      return false, next;
    }
    if segmentStep >= rules.SegmentLength() {
      if !hadSuccess {
        return false, next;
      }
      var segments := c.segments + 1;
      if rules.maxSegments != 0 && segments >= rules.maxSegments {
        return false, next;
      }
      SeenDependsOnSets(more, next, next.(segmentStep := 0, segments := segments, segmentHadSuccess := false));
      next := next.(segmentStep := 0, segments := segments, segmentHadSuccess := false);
    }
    proceed := true;
  }

  lemma SeenDependsOnSets(history: seq<ToolStep>, c: Counters, d: Counters)
    requires SeenIs(history, c) && c.seenActions == d.seenActions && c.seenResults == d.seenResults
    ensures SeenIs(history, d)
  {
  }
}
