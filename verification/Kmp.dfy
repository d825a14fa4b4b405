/** The string search of grep (`bin/grep.c`). */
module Kmp {
  const SIZE := 100     // of the jump table
  const SENTRY := -1
  const NULL := -1

  // Borders

  /** The first `b` characters of `p` are also the last `b` of its first `n`, and fewer. */
  predicate Border(p: string, n: nat, b: nat) {
    b < n <= |p| && p[..b] == p[n - b..n]
  }

  ghost predicate LongestBorder(p: string, n: nat, b: nat) {
    Border(p, n, b) && forall c: nat :: Border(p, n, c) ==> c <= b
  }

  /** What kmp_pp has matched from the head of the pattern after index `i`. */
  function Last(p: string, i: nat): (b: nat)
    requires i < |p|
    ensures b <= i
  {
    if i == 0 then 0
    else if p[i] == p[Last(p, i - 1)] then Last(p, i - 1) + 1
    else 0
  }

  lemma {:induction false} LastIsBorder(p: string, i: nat)
    requires i < |p|
    ensures Border(p, i + 1, Last(p, i))
  {
    if i > 0 {
      LastIsBorder(p, i - 1);
      var b := Last(p, i - 1);
      if p[i] == p[b] {
        assert p[..b + 1] == p[..b] + [p[b]];
        assert p[i - b..i + 1] == p[i - b..i] + [p[i]];
      }
    }
  }

  /** A border of n + 1 characters without its last one is a border of n. */
  lemma ShorterBorder(p: string, n: nat, b: nat)
    requires Border(p, n + 1, b + 1)
    ensures Border(p, n, b) && p[b] == p[n]
  {
    assert p[..b + 1][..b] == p[..b] && p[n - b..n + 1][..b] == p[n - b..n];
    assert p[..b + 1][b] == p[b] && p[n - b..n + 1][b] == p[n];
  }

  /** At index `i` the code starts again from nothing. */
  predicate Resets(p: string, i: nat)
    requires i < |p|
  {
    i > 0 && p[i] != p[Last(p, i - 1)]
  }

  ghost predicate HasBorder(p: string, n: nat) {
    exists b: nat :: b > 0 && Border(p, n, b)
  }

  /** A reset at index `i` passes over a border that is shorter than the one that broke off. */
  ghost predicate Hides(p: string, i: nat) {
    i < |p| && Resets(p, i) && HasBorder(p, i + 1)
  }

  ghost predicate NothingHidden(p: string) {
    forall i: nat :: !Hides(p, i)
  }

  ghost predicate LongestAt(p: string, i: nat) {
    i < |p| && LongestBorder(p, i + 1, Last(p, i))
  }

  /** The table holds the longest borders exactly when no reset hides a border. */
  lemma LongestIffNothingHidden(p: string)
    ensures (forall i :: 0 <= i < |p| ==> LongestAt(p, i)) <==> NothingHidden(p)
  {
    hide Last;
    if NothingHidden(p) {
      forall i | 0 <= i < |p| ensures LongestAt(p, i) {
        LastLongest(p, i);
      }
    }
    if forall i :: 0 <= i < |p| ==> LongestAt(p, i) {
      forall i: nat ensures !Hides(p, i) {
        if i < |p| { ResetLongest(p, i); }
      }
    }
  }

  lemma ResetLongest(p: string, i: nat)
    requires i < |p| && LongestAt(p, i)
    ensures !Hides(p, i)
  {
  }

  lemma {:induction false} LastLongest(p: string, i: nat)
    requires i < |p| && NothingHidden(p)
    ensures LongestAt(p, i)
  {
    LastIsBorder(p, i);
    if i > 0 {
      LastLongest(p, i - 1);
      assert !Hides(p, i);
    }
    var n := i + 1;
    forall c: nat | Border(p, n, c) ensures c <= Last(p, i) {
      if c > 0 && i > 0 {
        assert HasBorder(p, n);
        ShorterBorder(p, i, c - 1);
      }
    }
  }

  /** The table after kmp_pp. */
  ghost predicate Built(p: string, t: seq<int>) {
    && 0 < |p| < |t| && t[|p|] == SENTRY
    && (forall i :: 0 <= i < |p| ==> t[i] == Last(p, i))
  }

  /** The jumps are borders, and the only sentry is at the end: all that the search needs to be safe. */
  ghost predicate Jumps(p: string, t: seq<int>) {
    && 0 < |p| < |t| && t[|p|] == SENTRY
    && (forall i :: 0 <= i < |p| ==> 0 <= t[i] && Border(p, i + 1, t[i]))
  }

  lemma BuiltJumps(p: string, t: seq<int>)
    requires Built(p, t)
    ensures Jumps(p, t)
  {
    forall i | 0 <= i < |p| ensures 0 <= t[i] && Border(p, i + 1, t[i]) {
      LastIsBorder(p, i);
    }
  }

  /** The table is static: zero before the one call that grep makes. */
  method KmpPp(pattern: string, jmpt: array<int>)
    requires 0 < |pattern| < SIZE == jmpt.Length && forall i :: 0 <= i < SIZE ==> jmpt[i] == 0
    modifies jmpt
    ensures Built(pattern, jmpt[..]) && Jumps(pattern, jmpt[..])
  {
    var last := 0;
    jmpt[0] := 0;
    var i := 1;
    while i < |pattern|
      invariant 1 <= i <= |pattern| && last == Last(pattern, i - 1)
      invariant forall j :: 0 <= j < i ==> jmpt[j] == Last(pattern, j)
      invariant forall j :: i <= j < SIZE ==> jmpt[j] == 0
    {
      if pattern[i] == pattern[last] {
        last := last + 1;
        jmpt[i] := last;
      } else {
        last := 0;
      }
      i := i + 1;
    }
    jmpt[i] := SENTRY;
    BuiltJumps(pattern, jmpt[..]);
  }

  // The search

  predicate OccursAt(s: string, p: string, q: nat) {
    q + |p| <= |s| && s[q..q + |p|] == p
  }

  /** Where the search from text index `i` with `pos` characters matched ends: the place found, or NULL. */
  function Search(s: string, p: string, t: seq<int>, i: nat, pos: nat): int
    requires Jumps(p, t) && i <= |s| && pos < |p|
    decreases |s| - i, pos
  {
    if i == |s| then NULL
    else if p[pos] == s[i] then
      if t[pos + 1] == SENTRY then i - pos else if pos + 1 < |p| then Search(s, p, t, i + 1, pos + 1) else NULL
    else if pos > 0 then Search(s, p, t, i, t[pos - 1])
    else Search(s, p, t, i + 1, 0)
  }

  lemma JumpAt(p: string, t: seq<int>, pos: nat)
    requires Jumps(p, t) && pos < |p|
    ensures |t| > |p| && (t[pos + 1] == SENTRY <==> pos + 1 == |p|)
    ensures pos > 0 ==> 0 <= t[pos - 1] < pos && Border(p, pos, t[pos - 1])
  {
  }

  lemma SearchStep(s: string, p: string, t: seq<int>, i: nat, pos: nat)
    requires Jumps(p, t) && i < |s| && pos < |p| < |t| && (t[pos + 1] == SENTRY <==> pos + 1 == |p|)
    requires pos > 0 ==> 0 <= t[pos - 1] < pos
    ensures Search(s, p, t, i, pos) ==
      if p[pos] == s[i] then (if pos + 1 == |p| then i - pos else Search(s, p, t, i + 1, pos + 1))
      else if pos > 0 then Search(s, p, t, i, t[pos - 1])
      else Search(s, p, t, i + 1, 0)
  {
  }

  lemma SearchEnd(s: string, p: string, t: seq<int>, pos: nat)
    requires Jumps(p, t) && pos < |p|
    ensures Search(s, p, t, |s|, pos) == NULL
  {
  }

  /** It ends, and what it returns is an occurrence. */
  method KmpMatch(s: string, pattern: string, jmpt: seq<int>) returns (r: int)
    requires Jumps(pattern, jmpt)
    ensures r == Search(s, pattern, jmpt, 0, 0)
    ensures r != NULL ==> r >= 0 && OccursAt(s, pattern, r)
  {
    assert 0 < |pattern|;
    hide Jumps, Border, OccursAt, Search;
    var i, pos := 0, 0;
    while i < |s|
      invariant 0 <= i <= |s| && 0 <= pos < |pattern| && pos <= i
      invariant pattern[..pos] == s[i - pos..i]
      invariant Search(s, pattern, jmpt, i, pos) == Search(s, pattern, jmpt, 0, 0)
      decreases |s| - i, pos
    {
      JumpAt(pattern, jmpt, pos);
      SearchStep(s, pattern, jmpt, i, pos);
      if pattern[pos] == s[i] {
        assert pattern[..pos + 1] == pattern[..pos] + [pattern[pos]];
        assert s[i - pos..i + 1] == s[i - pos..i] + [s[i]];
        pos := pos + 1;
        i := i + 1;
      } else {
        if pos > 0 {
          FallBack(s, pattern, i, pos, jmpt[pos - 1]);
          pos := jmpt[pos - 1];
        } else {
          i := i + 1;
        }
        continue;
      }
      if jmpt[pos] == SENTRY {
        assert pattern[..pos] == pattern;
        Found(s, pattern, i - pos);
        return i - pos;
      }
    }
    r := NULL;
    SearchEnd(s, pattern, jmpt, pos);
  }

  /** What is matched after a jump to a border. */
  lemma FallBack(s: string, p: string, i: nat, pos: nat, b: nat)
    requires pos <= i <= |s| && pos < |p| && p[..pos] == s[i - pos..i] && Border(p, pos, b)
    ensures b <= i && p[..b] == s[i - b..i]
  {
    assert p[pos - b..pos] == p[..pos][pos - b..];
    assert s[i - pos..i][pos - b..] == s[i - b..i];
  }

  /** A jump from `pos` characters matched never passes over a border that could still go on. */
  ghost predicate SkipsAt(p: string, t: seq<int>, pos: nat, b: nat) {
    0 < pos < |p| && pos <= |t| && Border(p, pos, b) && b > t[pos - 1] && p[b] != p[pos]
  }

  ghost predicate NeverSkips(p: string, t: seq<int>) {
    forall pos: nat, b: nat :: !SkipsAt(p, t, pos, b)
  }

  /** `r` is the leftmost occurrence, or NULL and there is none. */
  ghost predicate Leftmost(s: string, p: string, r: int) {
    if r == NULL then forall q :: 0 <= q <= |s| ==> !OccursAt(s, p, q)
    else 0 <= r && OccursAt(s, p, r) && forall q :: 0 <= q < r ==> !OccursAt(s, p, q)
  }

  lemma {:induction false} SearchLeftmost(s: string, p: string, t: seq<int>, i: nat, pos: nat)
    requires Jumps(p, t) && NeverSkips(p, t) && pos <= i <= |s| && pos < |p| && p[..pos] == s[i - pos..i]
    requires forall q :: 0 <= q < i - pos ==> !OccursAt(s, p, q)
    ensures Leftmost(s, p, Search(s, p, t, i, pos))
    decreases |s| - i, pos
  {
    hide OccursAt, Border, NeverSkips, Jumps;
    JumpAt(p, t, pos);
    if i == |s| {
      TooShort(s, p, pos);
    } else if p[pos] == s[i] {
      assert p[..pos + 1] == p[..pos] + [p[pos]];
      assert s[i - pos..i + 1] == s[i - pos..i] + [s[i]];
      if pos + 1 < |p| {
        SearchLeftmost(s, p, t, i + 1, pos + 1);
      } else {
        assert p == p[..pos + 1];
        Found(s, p, i - pos);
      }
    } else if pos > 0 {
      var b := t[pos - 1];
      FallBack(s, p, i, pos, b);
      forall q | i - pos <= q < i - b ensures !OccursAt(s, p, q) {
        NoneBetween(s, p, t, i, pos, q);
      }
      SearchLeftmost(s, p, t, i, b);
    } else {
      Differs(s, p, i, 0);
      SearchLeftmost(s, p, t, i + 1, 0);
    }
  }

  lemma TooShort(s: string, p: string, pos: nat)
    requires pos < |p| && pos <= |s|
    ensures forall q :: |s| - pos <= q <= |s| ==> !OccursAt(s, p, q)
  {
  }

  lemma Found(s: string, p: string, q: nat)
    requires q + |p| <= |s| && p == s[q..q + |p|]
    ensures OccursAt(s, p, q)
  {
  }

  /** An occurrence that started inside the match at hand would continue a border with the text's next character. */
  lemma OccursBorder(s: string, p: string, i: nat, pos: nat, q: nat)
    requires 0 < pos <= i < |s| && pos < |p| && p[..pos] == s[i - pos..i] && i - pos < q <= i && OccursAt(s, p, q)
    ensures Border(p, pos, i - q) && p[i - q] == s[i]
  {
    var l := i - q;
    assert p[..l] == s[q..q + |p|][..l] == s[q..i];
    assert s[q..i] == s[i - pos..i][pos - l..];
    assert p[..pos][pos - l..] == p[pos - l..pos];
    assert s[q..q + |p|][l] == s[i];
  }

  /** After a mismatch, no occurrence starts before the place the jump goes to. */
  lemma NoneBetween(s: string, p: string, t: seq<int>, i: nat, pos: nat, q: nat)
    requires 0 < pos <= i < |s| && pos < |p| && p[..pos] == s[i - pos..i] && p[pos] != s[i]
    requires NeverSkips(p, t) && pos <= |t| && i - pos <= q < i - t[pos - 1] && q <= i
    ensures !OccursAt(s, p, q)
  {
    if q == i - pos {
      Differs(s, p, q, pos);
    } else if OccursAt(s, p, q) {
      assert !SkipsAt(p, t, pos, i - q);
      OccursBorder(s, p, i, pos, q);
    }
  }

  /** One character that differs rules an occurrence out. */
  lemma Differs(s: string, p: string, q: nat, k: nat)
    requires k < |p| && q + k < |s| && s[q + k] != p[k]
    ensures !OccursAt(s, p, q)
  {
    assert q + |p| <= |s| ==> s[q..q + |p|][k] == s[q + k];
  }

  /** As long as the text goes like the pattern the search goes on. */
  lemma {:induction false} Matching(s: string, p: string, t: seq<int>, n: nat)
    requires Jumps(p, t) && n < |p| && n <= |s| && s[..n] == p[..n]
    ensures Search(s, p, t, 0, 0) == Search(s, p, t, n, n)
  {
    if n > 0 {
      assert s[..n][..n - 1] == s[..n - 1] && p[..n][..n - 1] == p[..n - 1];
      assert s[..n][n - 1] == s[n - 1] && p[..n][n - 1] == p[n - 1];
      Matching(s, p, t, n - 1);
      JumpAt(p, t, n - 1);
    }
  }

  /** It never looks back before the place where the match at hand began. */
  lemma {:induction false} NeverBack(s: string, p: string, t: seq<int>, i: nat, pos: nat)
    requires Jumps(p, t) && i <= |s| && pos < |p| && pos <= i
    ensures Search(s, p, t, i, pos) == NULL || Search(s, p, t, i, pos) >= i - pos
    decreases |s| - i, pos
  {
    JumpAt(p, t, pos);
    hide Border, Jumps;
    if i < |s| {
      if p[pos] == s[i] {
        if pos + 1 < |p| { NeverBack(s, p, t, i + 1, pos + 1); }
      } else if pos > 0 {
        NeverBack(s, p, t, i, t[pos - 1]);
      } else {
        NeverBack(s, p, t, i + 1, 0);
      }
    }
  }

  /** A border passed over: in the text that goes on from it, the search misses the first occurrence. */
  lemma SkipMisses(p: string, t: seq<int>, pos: nat, b: nat)
    requires Jumps(p, t) && SkipsAt(p, t, pos, b)
    ensures !Leftmost(p[..pos - b] + p, p, Search(p[..pos - b] + p, p, t, 0, 0))
  {
    var s := p[..pos - b] + p;
    assert s[pos - b..pos - b + |p|] == p;
    assert OccursAt(s, p, pos - b);
    assert p[..pos] == p[..pos - b] + p[pos - b..pos];
    assert s[..pos] == p[..pos - b] + p[..b];
    assert s[pos] == p[b];
    Matching(s, p, t, pos);
    JumpAt(p, t, pos);
    SearchStep(s, p, t, pos, pos);
    NeverBack(s, p, t, pos, t[pos - 1]);
  }

  /**
   The search with a table of borders finds the leftmost occurrence in every text exactly when
   no jump passes over a border that could still go on.
   */
  lemma SearchExactly(p: string, t: seq<int>)
    requires Jumps(p, t)
    ensures (forall s: string :: Leftmost(s, p, Search(s, p, t, 0, 0))) <==> NeverSkips(p, t)
  {
    hide Search, Leftmost, Jumps;
    if NeverSkips(p, t) {
      PatternThere(p, t);
      forall s: string ensures Leftmost(s, p, Search(s, p, t, 0, 0)) {
        assert p[..0] == s[0 - 0..0];
        SearchLeftmost(s, p, t, 0, 0);
      }
    } else {
      var pos: nat, b: nat :| SkipsAt(p, t, pos, b);
      SkipMisses(p, t, pos, b);
      var s := p[..pos - b] + p;
      assert !Leftmost(s, p, Search(s, p, t, 0, 0));
    }
  }

  lemma PatternThere(p: string, t: seq<int>)
    requires Jumps(p, t)
    ensures 0 < |p|
  {
  }

  /** With the longest borders nothing is passed over. */
  lemma LongestNeverSkips(p: string, t: seq<int>)
    requires Jumps(p, t) && forall i :: 0 <= i < |p| ==> LongestBorder(p, i + 1, t[i])
    ensures NeverSkips(p, t)
  {
    forall pos: nat, b: nat ensures !SkipsAt(p, t, pos, b) {
      if 0 < pos < |p| && Border(p, pos, b) {
        assert LongestBorder(p, pos - 1 + 1, t[pos - 1]);
      }
    }
  }

  /** At `pos` characters matched kmp_pp's table passes over the border `b`, though the text may go on from it. */
  ghost predicate PassesOver(p: string, pos: nat, b: nat) {
    0 < pos < |p| && Border(p, pos, b) && b > Last(p, pos - 1) && p[b] != p[pos]
  }

  /** grep as a whole: it finds the leftmost occurrence in every text exactly for the patterns without such a border. */
  lemma FindsLeftmost(p: string, t: seq<int>)
    requires Built(p, t)
    ensures Jumps(p, t)
    ensures (forall s: string :: Leftmost(s, p, Search(s, p, t, 0, 0))) <==>
      (forall pos: nat, b: nat :: !PassesOver(p, pos, b))
  {
    BuiltJumps(p, t);
    SearchExactly(p, t);
    hide Search, Leftmost, Jumps;
    forall pos: nat, b: nat ensures SkipsAt(p, t, pos, b) <==> PassesOver(p, pos, b) {}
  }

  /** A pattern that hides a border is safe all the same when the character after it is the one that failed. */
  lemma HidesYetFinds()
    ensures !NothingHidden("abaab") && forall pos: nat, b: nat :: !PassesOver("abaab", pos, b)
  {
    var p := "abaab";
    assert Last(p, 0) == 0 && Last(p, 1) == 0 && Last(p, 2) == 1 && Last(p, 3) == 0 && Last(p, 4) == 0;
    assert p[..2] == "ab" && p[3..5] == "ab";
    assert Hides(p, 4) by { assert Border(p, 5, 2); assert HasBorder(p, 4 + 1); }
    forall pos: nat, b: nat ensures !PassesOver(p, pos, b) {
      assert 0 < pos < |p| && 0 < b < pos ==> pos == 2 || pos == 3 || pos == 4;
    }
  }

  /** A reset that hides the border "aa": the search passes over the only occurrence. */
  lemma MissesOccurrence(t: seq<int>)
    requires Built("aabaaac", t)
    ensures Jumps("aabaaac", t) && !NothingHidden("aabaaac")
    ensures Search("aabaaabaaac", "aabaaac", t, 0, 0) == NULL && OccursAt("aabaaabaaac", "aabaaac", 4)
  {
    var p, s := "aabaaac", "aabaaabaaac";
    BuiltJumps(p, t);
    assert Last(p, 0) == 0 && Last(p, 1) == 1 && Last(p, 2) == 0 && Last(p, 3) == 1 && Last(p, 4) == 2
      && Last(p, 5) == 0;
    assert Hides(p, 5) by {
      assert p[..2] == "aa" && p[4..6] == "aa";
      assert Resets(p, 5) && Border(p, 6, 2);
      assert HasBorder(p, 5 + 1);
    }
    assert s[4..11] == p;
    assert Search(s, p, t, 11, 0) == NULL;
    assert Search(s, p, t, 10, 0) == NULL;
    assert Search(s, p, t, 10, 1) == NULL;
    assert Search(s, p, t, 10, 2) == NULL;
    assert Search(s, p, t, 9, 1) == NULL;
    assert Search(s, p, t, 9, 2) == NULL;
    assert Search(s, p, t, 8, 1) == NULL;
    assert Search(s, p, t, 7, 0) == NULL;
    assert Search(s, p, t, 6, 0) == NULL;
    assert Search(s, p, t, 6, 6) == NULL;
    assert Search(s, p, t, 5, 5) == NULL;
    assert Search(s, p, t, 4, 4) == NULL;
    assert Search(s, p, t, 3, 3) == NULL;
    assert Search(s, p, t, 2, 2) == NULL;
    assert Search(s, p, t, 1, 1) == NULL;
  }
}
