/** The flat glob matcher: `*` and `?` within one path segment. */
module Glob {

  /** The documented semantics of `pattern[p..]` on `text[t..]`: `?` matches any one
      character, `*` any run of characters, everything else itself. */
  ghost predicate MatchesAt(pattern: string, p: nat, text: string, t: nat)
    requires p <= |pattern|
    decreases |pattern| - p, 0
  {
    if p == |pattern| then t == |text|
    else if pattern[p] == '*' then MatchesFrom(pattern, p + 1, text, t)
    else
      t < |text| && (pattern[p] == '?' || pattern[p] == text[t]) && MatchesAt(pattern, p + 1, text, t + 1)
  }

  /** Some suffix of `text` that starts at `t` or later is matched. */
  ghost predicate MatchesFrom(pattern: string, p: nat, text: string, t: nat)
    requires p <= |pattern|
    decreases |pattern| - p, 1
  {
    exists k :: t <= k <= |text| && MatchesAt(pattern, p, text, k)
  }

  ghost predicate Matches(pattern: string, text: string) {
    MatchesAt(pattern, 0, text, 0)
  }

  /** What the loop decides: a `*` that faces a literal `*` in the text consumes
      exactly that character, because equality is tested before the wildcard. */
  ghost predicate LoopMatchesAt(pattern: string, p: nat, text: string, t: nat)
    requires p <= |pattern|
    decreases |pattern| - p, 0
  {
    if p == |pattern| then t == |text|
    else if t < |text| && (pattern[p] == '?' || pattern[p] == text[t]) then
      LoopMatchesAt(pattern, p + 1, text, t + 1)
    else
      pattern[p] == '*' && LoopMatchesFrom(pattern, p + 1, text, t)
  }

  /** Some suffix of `text` that starts at `t` or later is accepted. */
  ghost predicate LoopMatchesFrom(pattern: string, p: nat, text: string, t: nat)
    requires p <= |pattern|
    decreases |pattern| - p, 1
  {
    exists k :: t <= k <= |text| && LoopMatchesAt(pattern, p, text, k)
  }

  ghost predicate LoopMatches(pattern: string, text: string) {
    LoopMatchesAt(pattern, 0, text, 0)
  }

  // ---------------------------------------------------------------------------
  // The loop and its invariant
  // ---------------------------------------------------------------------------

  /** `pattern[p..p + n]` fits `text[t..t + n]` character by character. */
  ghost predicate Aligned(pattern: string, p: nat, text: string, t: nat, n: nat)
  {
    && p + n <= |pattern| && t + n <= |text|
    && forall i :: p <= i < p + n ==> pattern[i] == '?' || pattern[i] == text[i - p + t]
  }

  /** If `n` pattern characters line up one for one at `t`, no match that starts at
      or after `t` reaches pattern position `p + n` before text position `t + n`. */
  lemma {:induction false} LaterStartsEndLater(pattern: string, p: nat, text: string, t: nat, n: nat, k: nat)
    requires Aligned(pattern, p, text, t, n)
    requires t <= k <= |text| && LoopMatchesAt(pattern, p, text, k)
    ensures LoopMatchesFrom(pattern, p + n, text, t + n)
    decreases n
  {
    if n > 0 {
      if k < |text| && (pattern[p] == '?' || pattern[p] == text[k]) {
        LaterStartsEndLater(pattern, p + 1, text, t + 1, n - 1, k + 1);
      } else {
        assert LoopMatchesFrom(pattern, p + 1, text, k);
        var j :| k <= j <= |text| && LoopMatchesAt(pattern, p + 1, text, j);
        LaterStartsEndLater(pattern, p + 1, text, t + 1, n - 1, j);
      }
    }
  }

  /** A match of a pattern that is at a `*` also matches with that `*` absorbing a run. */
  lemma StarAbsorbs(pattern: string, p: nat, text: string, t: nat)
    requires p < |pattern| && pattern[p] == '*' && LoopMatchesFrom(pattern, p, text, t)
    ensures LoopMatchesFrom(pattern, p + 1, text, t)
  {
    var k :| t <= k <= |text| && LoopMatchesAt(pattern, p, text, k);
    if k < |text| && text[k] == '*' {
      assert LoopMatchesAt(pattern, p + 1, text, k + 1);
    } else {
      assert LoopMatchesFrom(pattern, p + 1, text, k);
    }
  }

  /** What the loop maintains; `star` is -1 before any wildcard was met. */
  ghost predicate Scanning(pattern: string, text: string, p: int, t: int, star: int, resume: int)
  {
    && 0 <= p <= |pattern| && 0 <= resume <= t <= |text| && -1 <= star < p
    && (star < 0 ==> (LoopMatches(pattern, text) <==> LoopMatchesAt(pattern, p, text, t)))
    && (star >= 0 ==>
          && t - resume == p - star - 1
          && Aligned(pattern, star + 1, text, resume, t - resume)
          && (LoopMatches(pattern, text) <==> LoopMatchesFrom(pattern, star + 1, text, resume))
          && (LoopMatchesAt(pattern, star + 1, text, resume) <==> LoopMatchesAt(pattern, p, text, t)))
  }

  lemma RegisterStar(pattern: string, text: string, p: int, t: int, star: int, resume: int)
    requires Scanning(pattern, text, p, t, star, resume) && p < |pattern| && t < |text|
    requires pattern[p] == '*' && text[t] != '*'
    ensures Scanning(pattern, text, p + 1, t, p, t)
  {
    if star >= 0 && LoopMatchesFrom(pattern, star + 1, text, resume) {
      var k :| resume <= k <= |text| && LoopMatchesAt(pattern, star + 1, text, k);
      LaterStartsEndLater(pattern, star + 1, text, resume, t - resume, k);
      StarAbsorbs(pattern, p, text, t);
    }
  }

  lemma {:induction false} OnlyStarsMatchNothing(pattern: string, p: nat, text: string)
    requires p <= |pattern|
    ensures LoopMatchesAt(pattern, p, text, |text|) <==> forall i :: p <= i < |pattern| ==> pattern[i] == '*'
    decreases |pattern| - p
  {
    if p < |pattern| {
      OnlyStarsMatchNothing(pattern, p + 1, text);
    }
  }

  lemma TextExhausted(pattern: string, text: string, p: int, star: int, resume: int)
    requires Scanning(pattern, text, p, |text|, star, resume)
    ensures LoopMatches(pattern, text) <==> forall i :: p <= i < |pattern| ==> pattern[i] == '*'
  {
    OnlyStarsMatchNothing(pattern, p, text);
    if star >= 0 && LoopMatchesFrom(pattern, star + 1, text, resume) {
      var k :| resume <= k <= |text| && LoopMatchesAt(pattern, star + 1, text, k);
      LaterStartsEndLater(pattern, star + 1, text, resume, |text| - resume, k);
    }
  }

  method FlatMatch(pattern: string, text: string) returns (matched: bool)
    ensures matched <==> LoopMatches(pattern, text)
  {
    var p, t, star, resume := 0, 0, -1, 0;
    while t < |text|
      invariant Scanning(pattern, text, p, t, star, resume)
      decreases |pattern| - star, |text| - resume, |text| - t
    {
      if p < |pattern| && (pattern[p] == '?' || pattern[p] == text[t]) {
        p, t := p + 1, t + 1;
      } else if p < |pattern| && pattern[p] == '*' {
        RegisterStar(pattern, text, p, t, star, resume);
        star, resume := p, t;
        p := p + 1;
      } else if star >= 0 {
        p, resume := star + 1, resume + 1;
        t := resume;
      } else {
        return false;
      }
    }
    TextExhausted(pattern, text, p, star, resume);
    ghost var stop := p;
    while p < |pattern| && pattern[p] == '*'
      invariant stop <= p <= |pattern|
      invariant forall i :: stop <= i < p ==> pattern[i] == '*'
    {
      p := p + 1;
    }
    matched := p == |pattern|;
  }

  // ---------------------------------------------------------------------------
  // How the loop relates to the documented semantics
  // ---------------------------------------------------------------------------

  /** Sound for every text: the loop never accepts what the semantics rejects. */
  lemma {:induction false} LoopSound(pattern: string, p: nat, text: string, t: nat)
    requires p <= |pattern| && LoopMatchesAt(pattern, p, text, t)
    ensures MatchesAt(pattern, p, text, t)
    decreases |pattern| - p
  {
    if p < |pattern| {
      if t < |text| && (pattern[p] == '?' || pattern[p] == text[t]) {
        LoopSound(pattern, p + 1, text, t + 1);
      } else {
        assert LoopMatchesFrom(pattern, p + 1, text, t);
        var k :| t <= k <= |text| && LoopMatchesAt(pattern, p + 1, text, k);
        LoopSound(pattern, p + 1, text, k);
      }
    }
  }

  /** Complete for texts that hold no `*`. */
  lemma {:induction false} LoopComplete(pattern: string, p: nat, text: string, t: nat)
    requires p <= |pattern| && '*' !in text && MatchesAt(pattern, p, text, t)
    ensures LoopMatchesAt(pattern, p, text, t)
    decreases |pattern| - p
  {
    if p < |pattern| {
      if pattern[p] == '*' {
        assert MatchesFrom(pattern, p + 1, text, t);
        var k :| t <= k <= |text| && MatchesAt(pattern, p + 1, text, k);
        LoopComplete(pattern, p + 1, text, k);
      } else {
        LoopComplete(pattern, p + 1, text, t + 1);
      }
    }
  }

  /** Whether `pattern[p..]` is `?` throughout. */
  ghost predicate OnlyWildcards(pattern: string, p: nat, end: nat)
  {
    end <= |pattern| && forall i :: p <= i < end ==> pattern[i] == '?'
  }

  lemma {:induction false} WildcardsFixLength(pattern: string, p: nat, text: string, t: nat)
    requires p <= |pattern| && OnlyWildcards(pattern, p, |pattern|)
    ensures LoopMatchesAt(pattern, p, text, t) <==> |text| - t == |pattern| - p
    ensures MatchesAt(pattern, p, text, t) <==> |text| - t == |pattern| - p
    decreases |pattern| - p
  {
    if p < |pattern| {
      WildcardsFixLength(pattern, p + 1, text, t + 1);
    }
  }

  /** `?^at * ?^(n - at)` fits a text of length n whose character `at` is a `*`,
      yet the loop spends the pattern's star on that character and rejects. */
  lemma {:induction false} StarInTextDefeatsLoop(pattern: string, text: string, at: nat, t: nat)
    requires t <= at < |text| && text[at] == '*'
    requires |pattern| == |text| + 1 && pattern[at] == '*'
    requires OnlyWildcards(pattern, 0, at) && OnlyWildcards(pattern, at + 1, |pattern|)
    ensures MatchesAt(pattern, t, text, t) && !LoopMatchesAt(pattern, t, text, t)
    decreases at - t
  {
    if t < at {
      StarInTextDefeatsLoop(pattern, text, at, t + 1);
    } else {
      WildcardsFixLength(pattern, at + 1, text, at);
      WildcardsFixLength(pattern, at + 1, text, at + 1);
    }
  }

  /** The exact texts on which the loop implements the documented semantics. */
  lemma LoopAgreesExactlyOnStarFreeTexts(text: string)
    ensures (forall pattern :: LoopMatches(pattern, text) <==> Matches(pattern, text)) <==> '*' !in text
  {
    if '*' !in text {
      forall pattern ensures LoopMatches(pattern, text) <==> Matches(pattern, text) {
        if Matches(pattern, text) {
          LoopComplete(pattern, 0, text, 0);
        }
        if LoopMatches(pattern, text) {
          LoopSound(pattern, 0, text, 0);
        }
      }
    } else {
      var at :| 0 <= at < |text| && text[at] == '*';
      var pattern := seq(|text| + 1, i => if i == at then '*' else '?');
      StarInTextDefeatsLoop(pattern, text, at, 0);
      assert Matches(pattern, text) && !LoopMatches(pattern, text);
    }
  }
}
