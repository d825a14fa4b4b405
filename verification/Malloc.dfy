/** The K&R allocator (`lib/malloc.c`). */
module Malloc {
  import opened Words
  import opened FreeBlocks

  const HEADER := 8                // sizeof(Header)
  const LIMIT := 0x1000_0000       // KBASE in units
  const PAGE := 512                // PGSIZE in units
  const CHUNK := 4096              // the least morecore asks for

  // The list as it lies in memory: node 0 is `base`, node i is the i-th free block

  function Node(bs: seq<Block>, i: nat): nat
    requires i <= |bs|
  {
    if i == 0 then 0 else bs[i - 1].addr
  }

  function Succ(bs: seq<Block>, i: nat): nat
    requires i <= |bs|
  {
    if i < |bs| then bs[i].addr else 0
  }

  /** `next` and `size` hold the circular list of the blocks `bs` through `base`. */
  ghost predicate Linked(next: seq<nat>, size: seq<nat>, bs: seq<Block>) {
    && |next| == |size| > 0
    && (forall i :: 0 <= i < |bs| ==> End(bs[i]) <= |next|)
    && (forall i :: 0 <= i < |bs| ==> bs[i].addr < |next|)
    && size[0] == 0
    && (forall i :: 0 <= i < |bs| ==> size[bs[i].addr] == bs[i].size)
    && (forall i :: 0 <= i <= |bs| ==> Node(bs, i) < |next| && next[Node(bs, i)] == Succ(bs, i))
  }

  /** free's test at list node `p` holds exactly at the node after which `bp` belongs. */
  predicate Stops(p: nat, q: nat, bp: nat) {
    (bp > p && bp < q) || (p >= q && (bp > p || bp < q))
  }

  lemma StopsAtPlace(bs: seq<Block>, bp: nat, k: nat, i: nat)
    requires Canonical(bs) && bp >= 1 && Place(bs, bp, k) && i <= |bs|
    ensures Stops(Node(bs, i), Succ(bs, i), bp) <==> i == k
  {
    if i < k {
      assert i < |bs| && Succ(bs, i) <= bs[k - 1].addr by {
        assert i < k - 1 ==> End(bs[i]) < bs[k - 1].addr;
      }
    } else if i > k {
      assert bs[k].addr <= Node(bs, i) by {
        assert k < i - 1 ==> End(bs[k]) < bs[i - 1].addr;
      }
    }
  }

  /** Every address that is not a block's has one place. */
  lemma {:induction false} PlaceExists(bs: seq<Block>, bp: nat) returns (k: nat)
    requires Canonical(bs) && forall i :: 0 <= i < |bs| ==> bs[i].addr != bp
    ensures Place(bs, bp, k)
    decreases |bs|
  {
    if bs == [] || bp < bs[0].addr {
      k := 0;
    } else {
      var j := PlaceExists(bs[1..], bp);
      k := j + 1;
    }
  }

  /** What free writes when node `bp` goes after node `p`: the four cases of joining. */
  ghost predicate FreeWrites(next: seq<nat>, size: seq<nat>, next': seq<nat>, size': seq<nat>, p: nat, bp: nat)
    requires p < |next| == |size| && bp < |next| && next[p] < |next|
  {
    var q := next[p];
    var joins := bp + size[bp] == q;
    var n1 := next[bp := if joins then next[q] else q];
    var s1 := if joins then size[bp := size[bp] + size[q]] else size;
    if p + s1[p] == bp
    then next' == n1[p := n1[bp]] && size' == s1[p := s1[p] + s1[bp]]
    else next' == n1[p := bp] && size' == s1
  }

  lemma NodesDistinct(bs: seq<Block>, i: nat, j: nat)
    requires Canonical(bs) && i < j <= |bs|
    ensures Node(bs, i) < Node(bs, j)
  {
    if i > 0 {
      assert End(bs[i - 1]) < bs[j - 1].addr;
    }
  }

  /** `d` takes the place of the blocks from `pl` up to `qr`. */
  function Splice(bs: seq<Block>, pl: nat, d: Block, qr: nat): (s: seq<Block>)
    requires pl <= qr <= |bs|
    ensures |s| == pl + 1 + |bs| - qr
  {
    bs[..pl] + [d] + bs[qr..]
  }

  lemma SpliceLinks(next: seq<nat>, size: seq<nat>, next': seq<nat>, size': seq<nat>,
                    bs: seq<Block>, pl: nat, d: Block, qr: nat)
    requires Linked(next, size, bs) && pl <= qr <= |bs| && End(d) <= |next| && d.size > 0 && d.addr >= 1
    requires |next'| == |next| && |size'| == |size| && size'[0] == 0
    requires next'[Node(bs, pl)] == d.addr && next'[d.addr] == Succ(bs, qr) && size'[d.addr] == d.size
    requires forall i :: 0 <= i < pl || qr < i <= |bs| ==> next'[Node(bs, i)] == next[Node(bs, i)]
    requires forall i :: 0 <= i < pl || qr <= i < |bs| ==> size'[bs[i].addr] == size[bs[i].addr]
    ensures Linked(next', size', Splice(bs, pl, d, qr))
  {
    hide Linked, Splice;
    var ins := Splice(bs, pl, d, qr);
    LinkedAt(next, size, bs, 0);
    LinkedAt(next, size, bs, pl);
    forall i | 0 <= i < |ins|
      ensures End(ins[i]) <= |next'| && ins[i].addr < |next'| && size'[ins[i].addr] == ins[i].size
    {
      SpliceAt(bs, pl, d, qr, i);
      LinkedAt(next, size, bs, if i < pl then i else qr);
      if i > pl { LinkedAt(next, size, bs, i - pl - 1 + qr); }
    }
    forall i | 0 <= i <= |ins| ensures Node(ins, i) < |next'| && next'[Node(ins, i)] == Succ(ins, i) {
      if i > 0 { SpliceAt(bs, pl, d, qr, i - 1); }
      if i < |ins| { SpliceAt(bs, pl, d, qr, i); }
      var j := if i <= pl then i else i - pl - 1 + qr;
      LinkedAt(next, size, bs, j);
    }
    assert Linked(next', size', ins) by { MakeLinked(next', size', ins); }
  }

  lemma MakeLinked(next: seq<nat>, size: seq<nat>, bs: seq<Block>)
    requires |next| == |size| > 0 && size[0] == 0
    requires forall i :: 0 <= i < |bs| ==> End(bs[i]) <= |next| && bs[i].addr < |next| && size[bs[i].addr] == bs[i].size
    requires forall i :: 0 <= i <= |bs| ==> Node(bs, i) < |next| && next[Node(bs, i)] == Succ(bs, i)
    ensures Linked(next, size, bs)
  {
  }

  lemma SpliceAt(bs: seq<Block>, pl: nat, d: Block, qr: nat, i: nat)
    requires pl <= qr <= |bs| && i < |Splice(bs, pl, d, qr)|
    ensures Splice(bs, pl, d, qr)[i] == if i < pl then bs[i] else if i == pl then d else bs[i - pl - 1 + qr]
  {
  }

  lemma LinkedAt(next: seq<nat>, size: seq<nat>, bs: seq<Block>, i: nat)
    requires Linked(next, size, bs) && i <= |bs|
    ensures |next| == |size| > 0 && size[0] == 0 && Node(bs, i) < |next| && next[Node(bs, i)] == Succ(bs, i)
    ensures i < |bs| ==> End(bs[i]) <= |next| && bs[i].addr < |next| && size[bs[i].addr] == bs[i].size
  {
  }

  /** No node of the list but the `k`-th is `p`, and none is `b`. */
  lemma OtherNodes(bs: seq<Block>, k: nat, b: Block)
    requires Canonical(bs) && Place(bs, b.addr, k) && b.addr >= 1
    ensures forall i :: 0 <= i <= |bs| && i != k ==> Node(bs, i) != Node(bs, k)
    ensures forall i :: 0 <= i <= |bs| ==> Node(bs, i) != b.addr
    ensures forall i :: 0 <= i < |bs| && i != k - 1 ==> bs[i].addr != Node(bs, k)
    ensures forall i :: 0 <= i < |bs| ==> bs[i].addr != b.addr && bs[i].addr >= 1
  {
    forall i | 0 <= i <= |bs| && i != k ensures Node(bs, i) != Node(bs, k) && Node(bs, i) != b.addr {
      if i < k {
        NodesDistinct(bs, i, k);
      } else {
        NodesDistinct(bs, k, i);
        if i > k + 1 { NodesDistinct(bs, k + 1, i); }
      }
    }
    forall i | 0 <= i < |bs| ensures bs[i].addr != b.addr && (i != k - 1 ==> bs[i].addr != Node(bs, k)) {
      assert Node(bs, i + 1) == bs[i].addr;
    }
  }

  /** free changes two nodes at most: `b` and the one it comes after. */
  lemma FreeFrame(next: seq<nat>, size: seq<nat>, next': seq<nat>, size': seq<nat>, bs: seq<Block>, k: nat, b: Block)
    requires k <= |bs| && Linked(next, size, bs) && b.addr < |next| && b.addr != Node(bs, k) && Succ(bs, k) < |next|
    requires FreeWrites(next, size, next', size', Node(bs, k), b.addr)
    ensures |next'| == |next| && |size'| == |size|
    ensures forall x ::
      0 <= x < |next| && x != Node(bs, k) && x != b.addr ==> next'[x] == next[x] && size'[x] == size[x]
  {
  }

  /** The values free leaves in those two nodes, by the four cases of joining. */
  lemma FreeValues(next: seq<nat>, size: seq<nat>, next': seq<nat>, size': seq<nat>, bs: seq<Block>, k: nat, b: Block)
    requires Canonical(bs) && Place(bs, b.addr, k) && Linked(next, size, bs) && 1 <= b.addr < |next| && b.size > 0
    requires b.addr != Node(bs, k) && size[b.addr] == b.size && Succ(bs, k) < |next|
    requires FreeWrites(next, size, next', size', Node(bs, k), b.addr)
    ensures |next'| == |next| && |size'| == |size|
    ensures var l, r := JoinsLeft(bs, k, b), JoinsRight(bs, k, b);
      var after := if r then Succ(bs, k + 1) else Succ(bs, k);
      var units := if r then b.size + bs[k].size else b.size;
      && next'[Node(bs, k)] == (if l then after else b.addr)
      && (l ==> size'[Node(bs, k)] == bs[k - 1].size + units)
      && (!l ==> next'[b.addr] == after && size'[b.addr] == units && size'[Node(bs, k)] == size[Node(bs, k)])
  {
    var p, q := Node(bs, k), Succ(bs, k);
    Spaced(bs, k);
    assert k < |bs| ==> Node(bs, k + 1) == q;
    assert next[p] == q && (k < |bs| ==> next[q] == Succ(bs, k + 1) && size[q] == bs[k].size);
    assert k > 0 ==> size[p] == bs[k - 1].size;
    assert k == 0 ==> size[p] == 0;
    assert (End(b) == q) == JoinsRight(bs, k, b);
    assert (p + size[p] == b.addr) == JoinsLeft(bs, k, b);
    hide Canonical, Linked;
  }

  /** All other nodes are as they were. */
  lemma FreeRest(next: seq<nat>, size: seq<nat>, next': seq<nat>, size': seq<nat>, bs: seq<Block>, k: nat, b: Block)
    requires Canonical(bs) && Linked(next, size, bs) && Place(bs, b.addr, k) && b.addr >= 1 && b.addr < |next|
    requires b.addr != Node(bs, k) && Succ(bs, k) < |next|
    requires FreeWrites(next, size, next', size', Node(bs, k), b.addr)
    ensures |next'| == |next| && |size'| == |size| && size[0] == 0 && (k != 0 ==> size'[0] == 0)
    ensures forall i :: 0 <= i <= |bs| && i != k ==> Node(bs, i) < |next| && next'[Node(bs, i)] == next[Node(bs, i)]
    ensures forall i ::
      0 <= i < |bs| && i != k - 1 ==> bs[i].addr < |size| && size'[bs[i].addr] == size[bs[i].addr]
  {
    OtherNodes(bs, k, b);
    FreeFrame(next, size, next', size', bs, k, b);
    hide FreeWrites, Canonical;
    if k != 0 { assert Node(bs, 0) != Node(bs, k); }
  }

  lemma PlaceApart(bs: seq<Block>, k: nat, b: Block)
    requires Canonical(bs) && Place(bs, b.addr, k) && b.addr >= 1
    ensures b.addr != Node(bs, k)
  {
  }

  lemma FreeLinks(next: seq<nat>, size: seq<nat>, next': seq<nat>, size': seq<nat>, bs: seq<Block>, k: nat, b: Block)
    requires Canonical(bs) && Linked(next, size, bs)
    requires Place(bs, b.addr, k) && Outside(bs, b) && b.size > 0 && b.addr >= 1 && End(b) <= |next|
    requires size[b.addr] == b.size && Succ(bs, k) < |next|
    requires FreeWrites(next, size, next', size', Node(bs, k), b.addr)
    ensures Linked(next', size', Insert(bs, k, b))
  {
    hide Canonical, Outside, Insert, Splice, FreeWrites, Linked;
    var l, r := JoinsLeft(bs, k, b), JoinsRight(bs, k, b);
    var pl, qr := (if l then k - 1 else k), (if r then k + 1 else k);
    var c := if r then Block(b.addr, b.size + bs[k].size) else b;
    var d := if l then Block(bs[k - 1].addr, bs[k - 1].size + c.size) else c;
    PlaceApart(bs, k, b);
    FreeRest(next, size, next', size', bs, k, b);
    FreeValues(next, size, next', size', bs, k, b);
    LinkedAt(next, size, bs, k);
    if k > 0 { LinkedAt(next, size, bs, k - 1); }
    if k < |bs| { LinkedAt(next, size, bs, k + 1); }
    Spaced(bs, k);
    assert Insert(bs, k, b) == Splice(bs, pl, d, qr) by { SpliceIs(bs, k, b); }
    SpliceLinks(next, size, next', size', bs, pl, d, qr);
  }

  lemma SpliceIs(bs: seq<Block>, k: nat, b: Block)
    requires k <= |bs|
    ensures var l, r := JoinsLeft(bs, k, b), JoinsRight(bs, k, b);
      var c := if r then Block(b.addr, b.size + bs[k].size) else b;
      var d := if l then Block(bs[k - 1].addr, bs[k - 1].size + c.size) else c;
      Insert(bs, k, b) == Splice(bs, if l then k - 1 else k, d, if r then k + 1 else k)
  {
  }

  // sbrk: do_sbrk and allocuvm, seen from the break. The break is on a page boundary.

  function RoundedUp(a: nat): nat { (a + PAGE - 1) / PAGE * PAGE }

  /** The new break, in units, after asking for `n` bytes; -1 when refused. `pages`: enough pages are free. */
  function NewBreak(brk: nat, n: u32, pages: bool): int {
    var end := (brk * HEADER + n) % TWO32;
    if end > LIMIT * HEADER || (end > brk * HEADER && !pages) || end == 0 then -1
    else RoundedUp((end + HEADER - 1) / HEADER)
  }

  /** How many units malloc looks for. */
  function Units(nbytes: u32): (n: nat)
    ensures 1 <= n <= 0x2000_0000
  {
    (nbytes + HEADER - 1) % TWO32 / HEADER + 1
  }

  /** How many it asks morecore for when nothing fits. */
  function Chunk(n: nat): nat { if n < CHUNK then CHUNK else n }

  /** Asking sbrk for a chunk of `n` units or more does not wrap round, or is refused all the same. */
  predicate NoWrap(n: nat, brk: nat)
    requires n <= 0x2000_0000
  {
    brk * HEADER + Chunk(n) * HEADER < TWO32 || NewBreak(brk, Chunk(n) * HEADER % TWO32, true) == -1
  }

  predicate Sound(nbytes: u32, brk: nat) {
    nbytes + HEADER - 1 < TWO32 && NoWrap(Units(nbytes), brk)
  }

  /** When it does not wrap, what sbrk grants is there. */
  lemma BreakGrows(brk: nat, nu: nat, pages: bool)
    requires brk % PAGE == 0 && brk <= LIMIT && nu > 0 && brk * HEADER + nu * HEADER < TWO32
    ensures var r := NewBreak(brk, nu * HEADER % TWO32, pages);
      if pages && brk + nu <= LIMIT then brk + nu <= r <= LIMIT && r % PAGE == 0 else r == -1
  {
    var end := (brk + nu) * HEADER;
    assert nu * HEADER % TWO32 == nu * HEADER && (brk * HEADER + nu * HEADER) % TWO32 == end;
    assert (end + HEADER - 1) / HEADER == brk + nu;
    RoundsUp(brk + nu);
    hide RoundedUp;
  }

  lemma RoundsUp(a: nat)
    ensures a <= RoundedUp(a) && RoundedUp(a) % PAGE == 0 && (a <= LIMIT ==> RoundedUp(a) <= LIMIT)
  {
  }

  lemma EnoughBytes(nbytes: u32)
    ensures nbytes + HEADER <= Units(nbytes) * HEADER <==> nbytes + HEADER - 1 < TWO32
  {
  }

  /** Unit `end` is beyond KBASE. */
  predicate TooFar(end: nat) { 8 * end > 0x8000_0000 }

  /** The first page boundary from unit `end` on is unit `r`. */
  predicate NextPage(end: nat, r: int) { 8 * r % 4096 == 0 && end <= r && 8 * r < 8 * end + 4096 }

  /** `n` units, and no fewer, hold `nbytes` bytes and a header of 8. */
  predicate JustHold(n: nat, nbytes: u32) { nbytes + 8 <= 8 * n < nbytes + 16 }

  /** A chunk has 4096 units or more: as many as are looked for, when these are more. */
  lemma ChunkIs(n: nat)
    ensures Chunk(n) == Max(4096, n)
  {
  }

  /** What sbrk makes of asking for a chunk, unless that wraps: the new break, in bytes, is the next page boundary. */
  lemma AskedBreak(brk: nat, nu: nat, pages: bool)
    requires brk % PAGE == 0 && 1 <= brk <= LIMIT && 1 <= nu <= 0x2000_0000 && NoWrap(nu, brk)
    ensures var c, r := Max(4096, nu), NewBreak(brk, Chunk(nu) * HEADER % TWO32, pages);
      (r == -1 <==> !pages || TooFar(brk + c)) && (r != -1 ==> NextPage(brk + c, r))
  {
    ChunkIs(nu);
    var c := Max(4096, nu);
    if brk * HEADER + c * HEADER < TWO32 {
      BreakGrows(brk, c, pages);
      var end := (brk + c) * HEADER;
      assert c * HEADER % TWO32 == c * HEADER && (brk * HEADER + c * HEADER) % TWO32 == end;
      assert (end + HEADER - 1) / HEADER == brk + c;
      NextBoundary(brk + c);
      hide RoundedUp;
    }
  }

  lemma NextBoundary(a: nat)
    ensures RoundedUp(a) < a + PAGE && 8 * RoundedUp(a) % 4096 == 0
  {
    var q := (a + PAGE - 1) / PAGE;
    assert 8 * (q * PAGE) == q * 4096;
  }

  /** The units malloc looks for hold the bytes and a header, and no unit more. */
  lemma UnitsHold(nbytes: u32)
    requires nbytes + HEADER - 1 < TWO32
    ensures JustHold(Units(nbytes), nbytes)
  {
  }

  /**
   Sound is exact. A request that is not sound gets a block that is too small, or is granted
   units that sbrk has not added: the break stays below them.
   */
  lemma UnsoundLoses(nbytes: u32, brk: nat, bs: seq<Block>)
    requires !Sound(nbytes, brk) && brk % PAGE == 0 && 1 <= brk <= LIMIT
    requires Canonical(bs) && forall i :: 0 <= i < |bs| ==> End(bs[i]) <= brk
    ensures Units(nbytes) * HEADER < nbytes + HEADER ||
      var r := NewBreak(brk, Chunk(Units(nbytes)) * HEADER % TWO32, false);
      0 <= r < brk + Chunk(Units(nbytes)) && forall i :: 0 <= i < |bs| ==> bs[i].size < Units(nbytes)
  {
    EnoughBytes(nbytes);
    if nbytes + HEADER - 1 < TWO32 {
      var nu := Chunk(Units(nbytes));
      assert brk + nu >= 0x2000_0000 && nu >= 0x1000_0000;
      assert nu == Units(nbytes);
      Wrapped(brk, nu);
    }
  }

  lemma Wrapped(brk: nat, nu: nat)
    requires brk <= LIMIT && LIMIT <= nu <= 0x2000_0000 && brk + nu >= 0x2000_0000
    ensures (brk * HEADER + nu * HEADER % TWO32) % TWO32 == (brk + nu - 0x2000_0000) * HEADER
    ensures NewBreak(brk, nu * HEADER % TWO32, true) == NewBreak(brk, nu * HEADER % TWO32, false) < brk + nu
  {
    var w := brk + nu - 0x2000_0000;
    if nu == 0x2000_0000 {
      assert nu * HEADER % TWO32 == 0;
    } else {
      assert nu * HEADER % TWO32 == nu * HEADER;
    }
    assert (w * HEADER + HEADER - 1) / HEADER == w;
    assert w <= brk;
  }

  // The allocator

  /** `k` is the first block that fits, from block `at` on and round. */
  predicate FirstFit(bs: seq<Block>, at: nat, n: nat, k: nat) {
    && k < |bs| && at <= |bs| && bs[k].size >= n
    && (forall j :: 0 <= j < |bs| && Before(at, j, k) ==> bs[j].size < n)
  }

  /** Going round from `at`, `j` comes before `k`. */
  predicate Before(at: nat, j: nat, k: nat) {
    if at <= k then at <= j < k else j >= at || j < k
  }

  /** The end of block `b` that malloc cuts off. */
  function Cut(b: Block, n: nat): Block
    requires n <= b.size
  {
    Block(End(b) - n, n)
  }

  /** Unit `u` has been handed out. */
  ghost predicate Held(live: set<Block>, u: nat) {
    exists b :: b in live && Inside(b, u)
  }

  ghost predicate LiveOk(bs: seq<Block>, live: set<Block>, brk: nat) {
    && (forall b :: b in live ==> b.addr >= 1 && b.size > 0 && End(b) <= brk && Outside(bs, b))
    && (forall b, c :: b in live && c in live && b != c ==> Apart(b, c))
  }

  /** The blocks on the list and the blocks handed out are apart, and are together what sbrk gave. */
  ghost predicate Parts(bs: seq<Block>, live: set<Block>, chunks: seq<Block>, brk: nat) {
    && Canonical(bs) && LiveOk(bs, live, brk)
    && (forall i :: 0 <= i < |bs| ==> End(bs[i]) <= brk)
    && (forall u: nat :: Covers(chunks, u) <==> Covers(bs, u) || Held(live, u))
  }

  lemma OutsideUnits(bs: seq<Block>, c: Block)
    requires Canonical(bs) && c.size > 0
    ensures Outside(bs, c) <==> forall u: nat :: Inside(c, u) ==> !Covers(bs, u)
  {
    if forall u: nat :: Inside(c, u) ==> !Covers(bs, u) {
      forall i | 0 <= i < |bs| ensures Apart(c, bs[i]) {
        assert Inside(bs[i], c.addr) ==> Covers(bs, c.addr);
        assert Inside(c, c.addr);
        assert Inside(bs[i], bs[i].addr);
        assert Inside(c, bs[i].addr) ==> Covers(bs, bs[i].addr);
      }
    }
  }

  lemma FreeParts(bs: seq<Block>, live: set<Block>, chunks: seq<Block>, brk: nat, k: nat, b: Block)
    requires Parts(bs, live, chunks, brk) && b in live && Place(bs, b.addr, k)
    ensures Parts(Insert(bs, k, b), live - {b}, chunks, brk)
  {
    var ins, rest := Insert(bs, k, b), live - {b};
    InsertCanonical(bs, k, b);
    hide Canonical, Insert;
    forall u: nat ensures Covers(ins, u) <==> Covers(bs, u) || Inside(b, u) {
      InsertCovers(bs, k, b, u);
    }
    forall c | c in rest ensures Outside(ins, c) {
      OutsideUnits(bs, c);
      OutsideUnits(ins, c);
      assert Apart(b, c);
    }
    forall u: nat ensures Covers(chunks, u) <==> Covers(ins, u) || Held(rest, u) {
      if Held(live, u) && !Inside(b, u) {
        var c :| c in live && Inside(c, u);
        assert c in rest;
      }
    }
    BelowBreak(ins, brk);
  }

  /** In a canonical list, blocks whose units are all below `brk` end by it. */
  lemma BelowBreak(bs: seq<Block>, brk: nat)
    requires Canonical(bs) && forall u: nat :: Covers(bs, u) ==> u < brk
    ensures forall i :: 0 <= i < |bs| ==> End(bs[i]) <= brk
  {
    forall i | 0 <= i < |bs| ensures End(bs[i]) <= brk {
      assert Inside(bs[i], End(bs[i]) - 1);
      assert Covers(bs, End(bs[i]) - 1);
    }
  }

  lemma CarveParts(bs: seq<Block>, live: set<Block>, chunks: seq<Block>, brk: nat, k: nat, n: nat)
    requires Parts(bs, live, chunks, brk) && k < |bs| && 0 < n <= bs[k].size
    ensures Cut(bs[k], n) !in live
    ensures Parts(Carve(bs, k, n), live + {Cut(bs[k], n)}, chunks, brk)
  {
    var left, b := Carve(bs, k, n), Cut(bs[k], n);
    CarveCanonical(bs, k, n);
    assert b.addr >= 1 && Inside(b, b.addr);
    hide Canonical, Carve;
    forall u: nat ensures Covers(left, u) <==> Covers(bs, u) && !Inside(b, u) {
      CarveCovers(bs, k, n, u);
    }
    forall u: nat ensures Inside(b, u) ==> Covers(bs, u) {
      CarveCovers(bs, k, n, u);
    }
    OutsideUnits(left, b);
    forall c | c in live ensures Outside(left, c) && Apart(b, c) && c != b {
      OutsideUnits(bs, c);
      OutsideUnits(left, c);
      assert Apart(c, bs[k]);
    }
    forall u: nat ensures Covers(chunks, u) <==> Covers(left, u) || Held(live + {b}, u) {
      if Held(live, u) {
        var c :| c in live && Inside(c, u);
        assert c in live + {b};
      }
      if Inside(b, u) {
        assert b in live + {b};
      }
    }
    BelowBreak(left, brk);
  }

  lemma GrowParts(bs: seq<Block>, live: set<Block>, chunks: seq<Block>, brk: nat, c: Block, brk': nat)
    requires Parts(bs, live, chunks, brk) && brk >= 1 && c.addr == brk && c.size > 0 && End(c) <= brk'
    ensures c !in live && Parts(bs, live + {c}, chunks + [c], brk')
    ensures Place(bs, c.addr, |bs|)
  {
    forall i | 0 <= i < |bs| ensures Apart(c, bs[i]) && bs[i].addr < brk {}
    forall u: nat ensures Covers(chunks + [c], u) <==> Covers(bs, u) || Held(live + {c}, u) {
      var more := chunks + [c];
      if Covers(chunks, u) {
        var i :| 0 <= i < |chunks| && Inside(chunks[i], u);
        assert more[i] == chunks[i];
      }
      if Covers(more, u) {
        var i :| 0 <= i < |more| && Inside(more[i], u);
        assert i < |chunks| ==> Inside(chunks[i], u);
        assert Covers(chunks, u) || Inside(c, u);
      }
      if Held(live, u) {
        var d :| d in live && Inside(d, u);
        assert d in live + {c};
      }
      if Inside(c, u) {
        assert more[|chunks|] == c && c in live + {c};
      }
    }
  }

  /**
   Freeing what malloc has just cut off a block gives back the very list there was.
   */
  lemma FreeUndoesMalloc(bs: seq<Block>, k: nat, n: nat, j: nat)
    requires Canonical(bs) && k < |bs| && 0 < n <= bs[k].size
    requires Place(Carve(bs, k, n), Cut(bs[k], n).addr, j)
    ensures Insert(Carve(bs, k, n), j, Cut(bs[k], n)) == bs
  {
    var left, b := Carve(bs, k, n), Cut(bs[k], n);
    CarveCanonical(bs, k, n);
    forall u: nat ensures Covers(left, u) <==> Covers(bs, u) && !Inside(b, u) {
      CarveCovers(bs, k, n, u);
    }
    OutsideUnits(left, b);
    InsertCanonical(left, j, b);
    forall u: nat ensures Covers(Insert(left, j, b), u) <==> Covers(bs, u) {
      InsertCovers(left, j, b, u);
      CarveCovers(bs, k, n, u);
    }
    hide Canonical, Insert, Carve;
    CanonicalUnique(Insert(left, j, b), bs);
  }
}
