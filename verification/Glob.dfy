/**
 * Server ACL globs: the iterative backtracking matcher, which remembers only the most
 * recent `*`, against the recursive meaning of `*` and `?`.
 */
module Glob {
  import opened Wrappers

  /** What a glob means: `*` stands for any run, `?` for one character, the rest for itself. */
  predicate MatchAt(p: string, i: nat, t: string, j: nat)
    requires i <= |p| && j <= |t|
    decreases |p| - i, |t| - j
  {
    if i == |p| then j == |t|
    else if p[i] == '*' then
      MatchAt(p, i + 1, t, j) || (j < |t| && MatchAt(p, i, t, j + 1))
    else j < |t| && Single(p[i], t[j]) && MatchAt(p, i + 1, t, j + 1)
  }

  predicate Matches(p: string, t: string) {
    MatchAt(p, 0, t, 0)
  }

  predicate Single(c: char, d: char) {
    c == '?' || c == d
  }

  /** The matcher's working variables: `mark` is where the last star's run currently ends. */
  datatype Cursor = Cursor(pi: nat, ti: nat, star: Option<nat>, mark: nat)

  const START := Cursor(0, 0, None, 0)

  predicate InRange(p: string, t: string, c: Cursor) {
    && c.pi <= |p| && c.mark <= c.ti <= |t|
    && (c.star.Some? ==> c.star.value < c.pi && p[c.star.value] == '*')
  }

  /** One turn of the loop; None when the matcher gives up. */
  function Turn(p: string, t: string, c: Cursor): (next: Option<Cursor>)
    requires InRange(p, t, c) && c.ti < |t|
    ensures next.Some? ==> InRange(p, t, next.value)
  {
    if c.pi < |p| && Single(p[c.pi], t[c.ti]) then
      Some(c.(pi := c.pi + 1, ti := c.ti + 1))
    else if c.pi < |p| && p[c.pi] == '*' then
      Some(Cursor(c.pi + 1, c.ti, Some(c.pi), c.ti))
    else if c.star.Some? then
      Some(Cursor(c.star.value + 1, c.mark + 1, c.star, c.mark + 1))
    else None
  }

  /** The verdict reached from a cursor by running the loop to its end. */
  predicate Verdict(p: string, t: string, c: Cursor)
    requires InRange(p, t, c)
    decreases |t| - c.mark, (|t| - c.ti) + (|p| - c.pi)
  {
    if c.ti < |t| then
      var next := Turn(p, t, c);
      next.Some? && Verdict(p, t, next.value)
    else
      OnlyStars(p, c.pi)
  }

  predicate OnlyStars(p: string, i: nat)
    requires i <= |p|
  {
    forall k :: i <= k < |p| ==> p[k] == '*'
  }

  method GlobMatch(p: string, t: string) returns (matched: bool)
    ensures matched == Verdict(p, t, START)
    ensures matched ==> Matches(p, t)
    ensures '*' !in t ==> (matched <==> Matches(p, t))
  {
    VerdictSound(p, t, START);
    if '*' !in t {
      VerdictComplete(p, t, START);
    }
    var pi: nat, ti: nat, star: Option<nat>, mark: nat := 0, 0, None, 0;
    while ti < |t|
      invariant InRange(p, t, Cursor(pi, ti, star, mark))
      invariant Verdict(p, t, Cursor(pi, ti, star, mark)) == Verdict(p, t, START)
      decreases |t| - mark, (|t| - ti) + (|p| - pi)
    {
      if pi < |p| && (p[pi] == '?' || p[pi] == t[ti]) {
        pi, ti := pi + 1, ti + 1;
      } else if pi < |p| && p[pi] == '*' {
        star, mark, pi := Some(pi), ti, pi + 1;
      } else if star.Some? {
        pi, mark := star.value + 1, mark + 1;
        ti := mark;
      } else {
        return false;
      }
    }
    ghost var tail := pi;
    while pi < |p| && p[pi] == '*'
      invariant tail <= pi <= |p|
      invariant forall k :: tail <= k < pi ==> p[k] == '*'
    {
      pi := pi + 1;
    }
    matched := pi == |p|;
  }

  // ---------------------------------------------------------------- facts about the meaning

  lemma {:induction false} OnlyStarsMatchEnd(p: string, i: nat, t: string)
    requires i <= |p|
    ensures MatchAt(p, i, t, |t|) <==> OnlyStars(p, i)
    decreases |p| - i
  {
    if i < |p| {
      OnlyStarsMatchEnd(p, i + 1, t);
    }
  }

  /** A star that can start later can start earlier: it swallows what lies between. */
  lemma {:induction false} StarReachesBack(p: string, i: nat, t: string, j: nat, m: nat)
    requires i < |p| && p[i] == '*' && j <= m <= |t| && MatchAt(p, i, t, m)
    ensures MatchAt(p, i, t, j)
    decreases m - j
  {
    if j < m {
      StarReachesBack(p, i, t, j + 1, m);
    }
  }

  /** The end of some run the star at i can stand for. */
  lemma {:induction false} StarRun(p: string, i: nat, t: string, j: nat) returns (m: nat)
    requires i < |p| && p[i] == '*' && j <= |t| && MatchAt(p, i, t, j)
    ensures j <= m <= |t| && MatchAt(p, i + 1, t, m)
    decreases |t| - j
  {
    if MatchAt(p, i + 1, t, j) {
      m := j;
    } else {
      m := StarRun(p, i, t, j + 1);
    }
  }

  /** p[i..i+n] and t[j..j+n] agree character by character. */
  predicate Aligned(p: string, i: nat, t: string, j: nat, n: nat)
    requires i + n <= |p| && j + n <= |t|
    decreases n
  {
    n == 0 || (Single(p[i], t[j]) && Aligned(p, i + 1, t, j + 1, n - 1))
  }

  predicate NoStar(p: string, i: nat, n: nat)
    requires i + n <= |p|
  {
    forall k :: i <= k < i + n ==> p[k] != '*'
  }

  /** A star-free stretch of the pattern consumes exactly its own length. */
  lemma {:induction false} LiteralPrefix(p: string, i: nat, t: string, j: nat, n: nat)
    requires i + n <= |p| && j <= |t| && NoStar(p, i, n)
    ensures MatchAt(p, i, t, j) <==>
            j + n <= |t| && Aligned(p, i, t, j, n) && MatchAt(p, i + n, t, j + n)
    decreases n
  {
    if n > 0 && j < |t| {
      LiteralPrefix(p, i + 1, t, j + 1, n - 1);
    }
  }

  /** An aligned stretch may be spent as is, even where a star faces a literal `*`. */
  lemma {:induction false} SpendAligned(p: string, i: nat, t: string, j: nat, n: nat)
    requires i + n <= |p| && j + n <= |t| && Aligned(p, i, t, j, n) && MatchAt(p, i + n, t, j + n)
    ensures MatchAt(p, i, t, j)
    decreases n
  {
    if n > 0 {
      SpendAligned(p, i + 1, t, j + 1, n - 1);
      if p[i] == '*' {
        assert MatchAt(p, i, t, j + 1);
      }
    }
  }

  // ---------------------------------------------------------------- the loop against the meaning

  /** What the cursor has established: the stretch since the last star is aligned. */
  ghost predicate Tracks(p: string, t: string, c: Cursor)
    requires InRange(p, t, c)
  {
    var from := if c.star.Some? then c.star.value + 1 else 0;
    && (c.star.None? ==> c.mark == 0)
    && c.ti - c.mark == c.pi - from
    && Aligned(p, from, t, c.mark, c.pi - from)
  }

  /** What is left to decide once the cursor's stretch is taken as given. */
  ghost predicate Remaining(p: string, t: string, c: Cursor)
    requires InRange(p, t, c)
  {
    if c.star.Some? then MatchAt(p, c.star.value, t, c.mark) else Matches(p, t)
  }

  lemma {:induction false} AlignedGrows(p: string, i: nat, t: string, j: nat, n: nat)
    requires i + n < |p| && j + n < |t| && Aligned(p, i, t, j, n) && Single(p[i + n], t[j + n])
    ensures Aligned(p, i, t, j, n + 1)
    decreases n
  {
    if n > 0 {
      AlignedGrows(p, i + 1, t, j + 1, n - 1);
    }
  }

  lemma {:induction false} VerdictSoundFrom(p: string, t: string, c: Cursor)
    requires InRange(p, t, c) && Tracks(p, t, c) && Verdict(p, t, c)
    ensures Remaining(p, t, c)
    decreases |t| - c.mark, (|t| - c.ti) + (|p| - c.pi)
  {
    var from := if c.star.Some? then c.star.value + 1 else 0;
    if c.ti == |t| {
      OnlyStarsMatchEnd(p, c.pi, t);
      SpendAligned(p, from, t, c.mark, c.pi - from);
    } else {
      if c.pi < |p| && Single(p[c.pi], t[c.ti]) {
        AlignedGrows(p, from, t, c.mark, c.pi - from);
      }
      VerdictSoundFrom(p, t, Turn(p, t, c).value);
      if c.pi < |p| && !Single(p[c.pi], t[c.ti]) && p[c.pi] == '*' {
        SpendAligned(p, from, t, c.mark, c.pi - from);
      }
    }
  }

  /** The matcher never accepts a text that the glob does not match, whatever the text. */
  lemma VerdictSound(p: string, t: string, c: Cursor)
    requires c == START
    ensures Verdict(p, t, c) ==> Matches(p, t)
  {
    if Verdict(p, t, c) {
      VerdictSoundFrom(p, t, c);
    }
  }

  /** Starting over one character further loses nothing when the current alignment is stuck. */
  lemma StuckAlignment(p: string, t: string, c: Cursor)
    requires InRange(p, t, c) && Tracks(p, t, c) && c.ti < |t| && c.star.Some?
    requires NoStar(p, c.star.value + 1, c.pi - c.star.value - 1)
    requires c.pi < |p| ==> !Single(p[c.pi], t[c.ti]) && p[c.pi] != '*'
    ensures !MatchAt(p, c.star.value + 1, t, c.mark)
  {
    LiteralPrefix(p, c.star.value + 1, t, c.mark, c.pi - c.star.value - 1);
  }

  /** Forgetting the previous star loses no match: any later run still reaches the new star. */
  lemma LastStarSuffices(p: string, t: string, c: Cursor)
    requires InRange(p, t, c) && Tracks(p, t, c) && c.star.Some?
    requires c.pi < |p| && p[c.pi] == '*'
    requires NoStar(p, c.star.value + 1, c.pi - c.star.value - 1)
    requires MatchAt(p, c.star.value, t, c.mark)
    ensures MatchAt(p, c.pi, t, c.ti)
  {
    var n := c.pi - c.star.value - 1;
    var m := StarRun(p, c.star.value, t, c.mark);
    LiteralPrefix(p, c.star.value + 1, t, m, n);
    StarReachesBack(p, c.pi, t, c.ti, m + n);
  }

  /** Where the text has ended, no later alignment is left for a star-free remainder. */
  lemma {:induction false} TooLong(p: string, i: nat, t: string, j: nat, n: nat)
    requires i + n <= |p| && j <= |t| && NoStar(p, i, n) && MatchAt(p, i, t, j)
    ensures j + n <= |t|
  {
    LiteralPrefix(p, i, t, j, n);
  }

  lemma {:induction false} VerdictCompleteFrom(p: string, t: string, c: Cursor)
    requires '*' !in t && InRange(p, t, c) && Tracks(p, t, c) && Remaining(p, t, c)
    requires NoStar(p, if c.star.Some? then c.star.value + 1 else 0,
                    c.pi - if c.star.Some? then c.star.value + 1 else 0)
    ensures Verdict(p, t, c)
    decreases |t| - c.mark, (|t| - c.ti) + (|p| - c.pi)
  {
    var from := if c.star.Some? then c.star.value + 1 else 0;
    if c.ti == |t| {
      EndOfText(p, t, c);
    } else {
      assert t[c.ti] in t;
      if c.star.None? {
        LiteralPrefix(p, 0, t, 0, c.pi);
      }
      if c.pi < |p| && Single(p[c.pi], t[c.ti]) {
        AlignedGrows(p, from, t, c.mark, c.pi - from);
      } else if c.pi < |p| && p[c.pi] == '*' {
        if c.star.Some? {
          LastStarSuffices(p, t, c);
        }
      } else {
        StuckAlignment(p, t, c);
      }
      VerdictCompleteFrom(p, t, Turn(p, t, c).value);
    }
  }

  lemma EndOfText(p: string, t: string, c: Cursor)
    requires InRange(p, t, c) && Tracks(p, t, c) && Remaining(p, t, c) && c.ti == |t|
    requires NoStar(p, if c.star.Some? then c.star.value + 1 else 0,
                    c.pi - if c.star.Some? then c.star.value + 1 else 0)
    ensures OnlyStars(p, c.pi)
  {
    var from := if c.star.Some? then c.star.value + 1 else 0;
    var m := c.mark;
    if c.star.Some? {
      m := StarRun(p, c.star.value, t, c.mark);
    }
    TooLong(p, from, t, m, c.pi - from);
    LiteralPrefix(p, from, t, m, c.pi - from);
    OnlyStarsMatchEnd(p, c.pi, t);
  }

  lemma VerdictComplete(p: string, t: string, c: Cursor)
    requires '*' !in t && c == START
    ensures Matches(p, t) ==> Verdict(p, t, c)
  {
    if Matches(p, t) {
      VerdictCompleteFrom(p, t, c);
    }
  }

  // ---------------------------------------------------------------- texts that contain a star

  /** `?` repeated a times, one star, `?` repeated b times. */
  function Probe(a: nat, b: nat): string {
    seq(a, k => '?') + "*" + seq(b, k => '?')
  }

  /** From the probe's first question mark on, the loop only ever takes its first branch. */
  lemma {:induction false} ProbeRuns(p: string, t: string, a: nat, b: nat, i: nat)
    requires p == Probe(a, b) && a + b == |t| && a < |t| && t[a] == '*' && i <= |t|
    ensures !Verdict(p, t, Cursor(i, i, None, 0))
    decreases |t| - i
  {
    if i < |t| {
      assert Single(p[i], t[i]);
      ProbeRuns(p, t, a, b, i + 1);
    } else {
      assert p[|t|] == '?';
    }
  }

  lemma {:induction false} QuestionsAlign(p: string, i: nat, t: string, j: nat, n: nat)
    requires i + n <= |p| && j + n <= |t| && forall k :: i <= k < i + n ==> p[k] == '?'
    ensures Aligned(p, i, t, j, n)
    decreases n
  {
    if n > 0 {
      QuestionsAlign(p, i + 1, t, j + 1, n - 1);
    }
  }

  lemma ProbeMatches(p: string, t: string, a: nat, b: nat)
    requires p == Probe(a, b) && a + b == |t|
    ensures Matches(p, t)
  {
    QuestionsAlign(p, a + 1, t, a, b);
    LiteralPrefix(p, a + 1, t, a, b);
    QuestionsAlign(p, 0, t, 0, a);
    LiteralPrefix(p, 0, t, 0, a);
  }

  /**
   * The texts on which the matcher can be trusted are exactly those without a literal star:
   * on any other text some pattern is answered wrongly.
   */
  lemma TrustedTexts(t: string)
    ensures (forall p: string :: Verdict(p, t, START) <==> Matches(p, t)) <==> '*' !in t
  {
    if '*' in t {
      var a: nat :| a < |t| && t[a] == '*';
      var p := Probe(a, |t| - a);
      ProbeRuns(p, t, a, |t| - a, 0);
      ProbeMatches(p, t, a, |t| - a);
      assert Verdict(p, t, START) != Matches(p, t);
    } else {
      forall p: string ensures Verdict(p, t, START) <==> Matches(p, t) {
        VerdictSound(p, t, START);
        VerdictComplete(p, t, START);
      }
    }
  }
}
