/**
 Free lists in address order, as sequences of blocks. Addresses and sizes count units
 of one header (8 bytes).
 */
module FreeBlocks {

  datatype Block = Block(addr: nat, size: nat)

  function End(b: Block): nat { b.addr + b.size }

  /** In address order, no block empty, no two blocks overlapping or touching. Address 0 is `base`. */
  predicate Canonical(bs: seq<Block>) {
    && (forall i :: 0 <= i < |bs| ==> bs[i].addr >= 1 && bs[i].size > 0)
    && (forall i, j :: 0 <= i < j < |bs| ==> End(bs[i]) < bs[j].addr)
  }

  predicate Inside(b: Block, u: nat) { b.addr <= u < End(b) }

  /** Unit `u` is free. */
  predicate Covers(bs: seq<Block>, u: nat) {
    exists i :: 0 <= i < |bs| && Inside(bs[i], u)
  }

  /**
   A canonical list is determined by which units are free. So two ways to the same set
   of free units end in the same list of blocks.
   */
  lemma {:induction false} CanonicalUnique(a: seq<Block>, b: seq<Block>)
    requires Canonical(a) && Canonical(b) && forall u: nat :: Covers(a, u) <==> Covers(b, u)
    ensures a == b
    decreases |a|
  {
    if a == [] || b == [] {
      if a != [] {
        assert Inside(a[0], a[0].addr);
        assert Covers(a, a[0].addr);
      }
      if b != [] {
        assert Inside(b[0], b[0].addr);
        assert Covers(b, b[0].addr);
      }
    } else {
      SameHead(a, b);
      SameHead(b, a);
      assert a[0] == b[0];
      forall u: nat ensures Covers(a[1..], u) <==> Covers(b[1..], u) {
        CoversTail(a, u);
        CoversTail(b, u);
      }
      CanonicalUnique(a[1..], b[1..]);
      assert a == [a[0]] + a[1..] && b == [b[0]] + b[1..];
    }
  }

  lemma CoversTail(a: seq<Block>, u: nat)
    requires Canonical(a) && a != []
    ensures Covers(a[1..], u) <==> Covers(a, u) && !Inside(a[0], u)
    ensures Canonical(a[1..])
  {
    if Covers(a, u) && !Inside(a[0], u) {
      var i :| 0 <= i < |a| && Inside(a[i], u);
      assert a[1..][i - 1] == a[i];
    }
    if Covers(a[1..], u) {
      var i :| 0 <= i < |a[1..]| && Inside(a[1..][i], u);
      assert a[i + 1] == a[1..][i];
    }
  }

  /** The head of `a` starts no earlier, and ends no later, than that of `b`. */
  lemma SameHead(a: seq<Block>, b: seq<Block>)
    requires Canonical(a) && Canonical(b) && a != [] && b != []
    requires forall u: nat :: Covers(a, u) <==> Covers(b, u)
    ensures a[0].addr >= b[0].addr && (a[0].addr == b[0].addr ==> End(a[0]) <= End(b[0]))
  {
    assert Inside(a[0], a[0].addr);
    assert Covers(a, a[0].addr);
    var i :| 0 <= i < |b| && Inside(b[i], a[0].addr);
    AfterHead(b);
    if Inside(a[0], End(b[0])) {
      assert Covers(a, End(b[0]));
    }
  }

  lemma AfterHead(b: seq<Block>)
    requires Canonical(b) && b != []
    ensures !Covers(b, End(b[0]))
  {
  }

  // What free does

  predicate Apart(b: Block, c: Block) { End(b) <= c.addr || End(c) <= b.addr }

  /** `b` overlaps no block of `bs`. */
  predicate Outside(bs: seq<Block>, b: Block) {
    forall i :: 0 <= i < |bs| ==> Apart(b, bs[i])
  }

  /** `k` is where a block at `addr` goes: after the blocks that start below it. */
  predicate Place(bs: seq<Block>, addr: nat, k: nat) {
    && k <= |bs| && (k > 0 ==> bs[k - 1].addr < addr) && (k < |bs| ==> addr < bs[k].addr)
  }

  predicate JoinsLeft(bs: seq<Block>, k: nat, b: Block)
    requires k <= |bs|
  {
    k > 0 && End(bs[k - 1]) == b.addr
  }

  predicate JoinsRight(bs: seq<Block>, k: nat, b: Block)
    requires k <= |bs|
  {
    k < |bs| && End(b) == bs[k].addr
  }

  /** `b` put in at place `k`, joined with the neighbours it touches. */
  function Insert(bs: seq<Block>, k: nat, b: Block): (r: seq<Block>)
    requires k <= |bs|
  {
    var l, r := JoinsLeft(bs, k, b), JoinsRight(bs, k, b);
    var c := if r then Block(b.addr, b.size + bs[k].size) else b;
    var d := if l then Block(bs[k - 1].addr, bs[k - 1].size + c.size) else c;
    bs[..if l then k - 1 else k] + [d] + bs[if r then k + 1 else k..]
  }

  lemma Replace(bs: seq<Block>, p: nat, d: Block, q: nat)
    requires Canonical(bs) && p <= q <= |bs| && d.size > 0 && d.addr >= 1
    requires p > 0 ==> End(bs[p - 1]) < d.addr
    requires q < |bs| ==> End(d) < bs[q].addr
    ensures Canonical(bs[..p] + [d] + bs[q..])
  {
    var ins := bs[..p] + [d] + bs[q..];
    forall i | 0 <= i < |ins| ensures ins[i] == if i < p then bs[i] else if i == p then d else bs[i - p - 1 + q] {}
    forall i | 0 <= i < p ensures End(bs[i]) < d.addr {
      assert i < p - 1 ==> End(bs[i]) < bs[p - 1].addr;
    }
    forall i | q <= i < |bs| ensures End(d) < bs[i].addr {
      assert q < i ==> End(bs[q]) < bs[i].addr;
    }
  }

  lemma InsertCanonical(bs: seq<Block>, k: nat, b: Block)
    requires Canonical(bs) && Place(bs, b.addr, k) && Outside(bs, b) && b.size > 0 && b.addr >= 1
    ensures Canonical(Insert(bs, k, b))
  {
    hide Canonical, Insert;
    var l, r := JoinsLeft(bs, k, b), JoinsRight(bs, k, b);
    Spaced(bs, k);
    if k > 0 { assert Apart(b, bs[k - 1]); }
    if k < |bs| { assert Apart(b, bs[k]); }
    var c := if r then Block(b.addr, b.size + bs[k].size) else b;
    var d := if l then Block(bs[k - 1].addr, bs[k - 1].size + c.size) else c;
    var p, q := (if l then k - 1 else k), (if r then k + 1 else k);
    Replace(bs, p, d, q);
    assert Insert(bs, k, b) == bs[..p] + [d] + bs[q..] by { InsertIs(bs, k, b); }
  }

  lemma Spaced(bs: seq<Block>, k: nat)
    requires Canonical(bs) && k <= |bs|
    ensures k > 1 ==> End(bs[k - 2]) < bs[k - 1].addr
    ensures 0 < k < |bs| ==> End(bs[k - 1]) < bs[k].addr
    ensures k + 1 < |bs| ==> End(bs[k]) < bs[k + 1].addr
    ensures k > 0 ==> bs[k - 1].addr >= 1 && bs[k - 1].size > 0
    ensures k < |bs| ==> bs[k].addr >= 1 && bs[k].size > 0
  {
  }

  lemma InsertIs(bs: seq<Block>, k: nat, b: Block)
    requires k <= |bs|
    ensures var l, r := JoinsLeft(bs, k, b), JoinsRight(bs, k, b);
      var c := if r then Block(b.addr, b.size + bs[k].size) else b;
      var d := if l then Block(bs[k - 1].addr, bs[k - 1].size + c.size) else c;
      Insert(bs, k, b) == bs[..if l then k - 1 else k] + [d] + bs[if r then k + 1 else k..]
  {
  }

  /** A list put together from a first part, one block and a last part. */
  lemma CoversJoined(l: seq<Block>, d: Block, r: seq<Block>, u: nat)
    ensures Covers(l + [d] + r, u) <==> Covers(l, u) || Inside(d, u) || Covers(r, u)
  {
    var s := l + [d] + r;
    assert s[|l|] == d;
    if Covers(l, u) {
      var i :| 0 <= i < |l| && Inside(l[i], u);
      assert s[i] == l[i];
    }
    if Covers(r, u) {
      var i :| 0 <= i < |r| && Inside(r[i], u);
      assert s[|l| + 1 + i] == r[i];
    }
    if Covers(s, u) {
      var i :| 0 <= i < |s| && Inside(s[i], u);
      assert i < |l| ==> s[i] == l[i];
      assert i > |l| ==> s[i] == r[i - |l| - 1];
    }
  }

  lemma CoversSplit(bs: seq<Block>, k: nat, u: nat)
    requires k <= |bs|
    ensures Covers(bs, u) <==> Covers(bs[..k], u) || Covers(bs[k..], u)
    ensures k < |bs| ==> (Covers(bs[k..], u) <==> Inside(bs[k], u) || Covers(bs[k + 1..], u))
    ensures k > 0 ==> (Covers(bs[..k], u) <==> Inside(bs[k - 1], u) || Covers(bs[..k - 1], u))
  {
    var none: seq<Block> := [];
    if k < |bs| {
      CoversJoined(bs[..k], bs[k], bs[k + 1..], u);
      CoversJoined(none, bs[k], bs[k + 1..], u);
      assert bs == bs[..k] + [bs[k]] + bs[k + 1..] && bs[k..] == none + [bs[k]] + bs[k + 1..];
    } else {
      assert bs[..k] == bs && bs[k..] == none;
    }
    if k > 0 {
      CoversJoined(bs[..k - 1], bs[k - 1], none, u);
      assert bs[..k] == bs[..k - 1] + [bs[k - 1]] + none;
    }
  }

  /** Exactly the units of `b` become free. */
  lemma InsertCovers(bs: seq<Block>, k: nat, b: Block, u: nat)
    requires k <= |bs|
    ensures Covers(Insert(bs, k, b), u) <==> Covers(bs, u) || Inside(b, u)
  {
    hide Insert, Covers;
    var l, r := JoinsLeft(bs, k, b), JoinsRight(bs, k, b);
    var c := if r then Block(b.addr, b.size + bs[k].size) else b;
    var d := if l then Block(bs[k - 1].addr, bs[k - 1].size + c.size) else c;
    InsertIs(bs, k, b);
    CoversJoined(bs[..if l then k - 1 else k], d, bs[if r then k + 1 else k..], u);
    CoversSplit(bs, k, u);
    assert Inside(d, u) <==> Inside(b, u) || (l && Inside(bs[k - 1], u)) || (r && Inside(bs[k], u));
  }

  // What malloc does

  /** `n` units taken from the end of block `k`; all of it when it fits exactly. */
  function Carve(bs: seq<Block>, k: nat, n: nat): (r: seq<Block>)
    requires k < |bs| && n <= bs[k].size
  {
    if bs[k].size == n then bs[..k] + bs[k + 1..] else bs[k := Block(bs[k].addr, bs[k].size - n)]
  }

  lemma CarveCanonical(bs: seq<Block>, k: nat, n: nat)
    requires Canonical(bs) && k < |bs| && 0 < n <= bs[k].size
    ensures Canonical(Carve(bs, k, n))
  {
  }

  lemma OnlyOne(bs: seq<Block>, k: nat, u: nat)
    requires Canonical(bs) && k < |bs| && Inside(bs[k], u)
    ensures !Covers(bs[..k], u) && !Covers(bs[k + 1..], u)
  {
    forall i | 0 <= i < |bs| && i != k ensures !Inside(bs[i], u) {
      assert i < k ==> End(bs[i]) < bs[k].addr;
      assert i > k ==> End(bs[k]) < bs[i].addr;
    }
  }

  /** Exactly the carved units stop being free. */
  lemma CarveCovers(bs: seq<Block>, k: nat, n: nat, u: nat)
    requires Canonical(bs) && k < |bs| && 0 < n <= bs[k].size
    ensures Covers(Carve(bs, k, n), u) <==> Covers(bs, u) && !Inside(Block(End(bs[k]) - n, n), u)
    ensures Inside(Block(End(bs[k]) - n, n), u) ==> Covers(bs, u)
  {
    var c := Carve(bs, k, n);
    hide Covers;
    CoversSplit(bs, k, u);
    if bs[k].size == n {
      assert c[..k] == bs[..k] && c[k..] == bs[k + 1..];
      CoversSplit(c, k, u);
    } else {
      assert c == bs[..k] + [c[k]] + bs[k + 1..];
      CoversJoined(bs[..k], c[k], bs[k + 1..], u);
    }
    hide Canonical, Carve;
    if Inside(bs[k], u) {
      OnlyOne(bs, k, u);
    }
  }
}
