/** Wait edges between processes, and what the walk along them decides. */
module WaitGraph {

  // `next[p]` is the one process that `p` waits for, or -1. The kernel walks such a chain before it lets a
  // process block.

  predicate WellFormed(next: seq<int>) {
    forall p :: 0 <= p < |next| ==> -1 <= next[p] < |next|
  }

  /** The chain from `p` ends after at most `n` hops. */
  predicate Ends(next: seq<int>, p: int, n: nat)
    requires WellFormed(next) && 0 <= p < |next|
    decreases n
  {
    next[p] == -1 || (n > 0 && Ends(next, next[p], n - 1))
  }

  ghost predicate Terminates(next: seq<int>, p: int)
    requires WellFormed(next) && 0 <= p < |next|
  {
    exists n: nat :: Ends(next, p, n)
  }

  /** Every chain ends: no cycle of wait edges. */
  ghost predicate Acyclic(next: seq<int>) {
    && WellFormed(next)
    && forall p :: 0 <= p < |next| ==> Terminates(next, p)
  }

  /** Within `n` hops from `p` the chain has an edge into `me`. */
  predicate HitsWithin(next: seq<int>, p: int, me: int, n: nat)
    requires WellFormed(next) && 0 <= p < |next|
    decreases n
  {
    next[p] != -1 && (next[p] == me || (n > 0 && HitsWithin(next, next[p], me, n - 1)))
  }

  /** The kernel's walk from `p` meets a process that waits for `me`. */
  ghost predicate Hits(next: seq<int>, p: int, me: int)
    requires WellFormed(next) && 0 <= p < |next|
  {
    exists n: nat :: HitsWithin(next, p, me, n)
  }

  lemma HitsStep(next: seq<int>, p: int, me: int)
    requires WellFormed(next) && 0 <= p < |next|
    ensures next[p] == -1 ==> !Hits(next, p, me)
    ensures next[p] == me != -1 ==> Hits(next, p, me)
    ensures next[p] != -1 && next[p] != me ==> (Hits(next, p, me) <==> Hits(next, next[p], me))
  {
    if next[p] == me != -1 {
      assert HitsWithin(next, p, me, 0);
    } else if next[p] != -1 {
      if Hits(next, next[p], me) {
        var n: nat :| HitsWithin(next, next[p], me, n);
        assert HitsWithin(next, p, me, n + 1);
      }
      if Hits(next, p, me) {
        var n: nat :| HitsWithin(next, p, me, n);
        assert HitsWithin(next, next[p], me, n - 1);
      }
    }
  }

  lemma {:induction false} EndsMore(next: seq<int>, p: int, n: nat, m: nat)
    requires WellFormed(next) && 0 <= p < |next|
    requires Ends(next, p, n) && n <= m
    ensures Ends(next, p, m)
    decreases n
  {
    if next[p] != -1 {
      EndsMore(next, next[p], n - 1, m - 1);
    }
  }

  /** An added edge leaves a chain that never reaches `me` as it was. */
  lemma {:induction false} EndsAvoiding(next: seq<int>, me: int, d: int, p: int, n: nat)
    requires WellFormed(next) && 0 <= p < |next| && 0 <= me < |next| && 0 <= d < |next|
    requires Ends(next, p, n) && p != me && !Hits(next, p, me)
    ensures Ends(next[me := d], p, n)
    decreases n
  {
    if next[p] != -1 {
      HitsStep(next, p, me);
      EndsAvoiding(next, me, d, next[p], n - 1);
    }
  }

  /** A chain that ended at `me` now runs on along the chain from `d`. */
  lemma {:induction false} EndsThrough(next: seq<int>, me: int, d: int, p: int, n: nat, k: nat)
    requires WellFormed(next) && 0 <= p < |next| && 0 <= me < |next| && 0 <= d < |next|
    requires next[me] == -1 && Ends(next, p, n) && Ends(next[me := d], d, k)
    ensures Ends(next[me := d], p, n + 1 + k)
    decreases n
  {
    if p == me {
      EndsMore(next[me := d], d, k, n + k);
    } else if next[p] != -1 {
      EndsThrough(next, me, d, next[p], n - 1, k);
    }
  }

  /** If the chain from `p` enters `me`, then ending it in `n` hops means `me` ends in fewer. */
  lemma {:induction false} HitShortens(next: seq<int>, me: int, d: int, p: int, h: nat, n: nat) returns (j: nat)
    requires WellFormed(next) && 0 <= p < |next| && 0 <= me < |next| && 0 <= d < |next|
    requires next[me] == -1 && HitsWithin(next, p, me, h) && Ends(next[me := d], p, n)
    ensures j < n && Ends(next[me := d], me, j)
    decreases h
  {
    if next[p] == me {
      j := n - 1;
    } else {
      j := HitShortens(next, me, d, next[p], h - 1, n - 1);
    }
  }

  lemma {:induction false} HitNeverEnds(next: seq<int>, me: int, d: int, n: nat)
    requires WellFormed(next) && 0 <= me < |next| && 0 <= d < |next|
    requires next[me] == -1 && Hits(next, d, me)
    ensures !Ends(next[me := d], me, n)
    decreases n
  {
    if Ends(next[me := d], me, n) {
      var h: nat :| HitsWithin(next, d, me, h);
      var j := HitShortens(next, me, d, d, h, n - 1);
      HitNeverEnds(next, me, d, j);
    }
  }

  /**
   The walk is an exact deadlock test: blocking `me` on `d` closes a cycle if and
   only if the walk from `d` finds a process that waits for `me`.
   */
  lemma WalkIsExact(next: seq<int>, me: int, d: int)
    requires Acyclic(next) && 0 <= me < |next| && 0 <= d < |next|
    requires next[me] == -1 && d != me
    ensures Acyclic(next[me := d]) <==> !Hits(next, d, me)
  {
    var after := next[me := d];
    if Hits(next, d, me) {
      forall n: nat ensures !Ends(after, me, n) {
        HitNeverEnds(next, me, d, n);
      }
      assert !Terminates(after, me);
    } else {
      assert Terminates(next, d);
      var k: nat :| Ends(next, d, k);
      EndsAvoiding(next, me, d, d, k);
      forall p | 0 <= p < |after| ensures Terminates(after, p) {
        assert Terminates(next, p);
        var n: nat :| Ends(next, p, n);
        EndsThrough(next, me, d, p, n, k);
      }
    }
  }

  /** Removing wait edges never closes a cycle. */
  lemma RemovalKeepsAcyclic(next: seq<int>, after: seq<int>)
    requires Acyclic(next) && |after| == |next|
    requires forall p :: 0 <= p < |next| ==> after[p] == next[p] || after[p] == -1
    ensures Acyclic(after)
  {
    forall p | 0 <= p < |after| ensures Terminates(after, p) {
        assert Terminates(next, p);
      var n: nat :| Ends(next, p, n);
      EndsFewer(next, after, p, n);
    }
  }

  lemma {:induction false} EndsFewer(next: seq<int>, after: seq<int>, p: int, n: nat)
    requires WellFormed(next) && |after| == |next| && 0 <= p < |next|
    requires forall q :: 0 <= q < |next| ==> after[q] == next[q] || after[q] == -1
    requires Ends(next, p, n)
    ensures WellFormed(after) && Ends(after, p, n)
    decreases n
  {
    if after[p] != -1 {
      EndsFewer(next, after, next[p], n - 1);
    }
  }
}
