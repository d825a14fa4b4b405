/** malloc and free (`lib/malloc.c`) on a heap whose nodes are relinked in place. */
module Heap {
  import opened Words
  import opened FreeBlocks
  import opened Malloc

  /** The headers of the blocks handed out still hold their sizes. */
  ghost predicate Headers(size: seq<nat>, live: set<Block>) {
    forall b :: b in live ==> b.addr < |size| && size[b.addr] == b.size
  }

  /** `b` begins at no other live block's header and at no node of the list. */
  lemma HeaderApart(bs: seq<Block>, live: set<Block>, chunks: seq<Block>, brk: nat, b: Block, c: Block)
    requires Parts(bs, live, chunks, brk) && b in live && c in live && b != c
    ensures b.addr != c.addr && forall i :: 0 <= i <= |bs| ==> Node(bs, i) != c.addr
  {
    assert Apart(b, c);
    forall i | 0 <= i < |bs| ensures bs[i].addr != c.addr {
      assert Apart(c, bs[i]);
    }
  }

  /** No list node is the header of a block handed out. */
  lemma NodeApart(bs: seq<Block>, live: set<Block>, chunks: seq<Block>, brk: nat, c: Block)
    requires Parts(bs, live, chunks, brk) && c in live
    ensures forall i :: 0 <= i < |bs| ==> bs[i].addr != c.addr
    ensures c.addr >= 1 && c.size > 0 && End(c) <= brk && Outside(bs, c)
  {
    forall i | 0 <= i < |bs| ensures bs[i].addr != c.addr {
      assert Apart(c, bs[i]);
    }
  }

  /** The steps from list node `i` round to node `k`. */
  function Ahead(i: nat, k: nat, n: nat): nat
    requires i <= n && k <= n
  {
    if i <= k then k - i else n + 1 - i + k
  }

  /** The steps left from the node after `k` round to `start`. */
  function Left(k: nat, start: nat, n: nat): nat
    requires k <= n && start <= n
  {
    Ahead(if k < n then k + 1 else 0, start, n)
  }

  class Heap {
    const next: array<nat>
    const size: array<nat>
    var freep: int                 // -1 for NULL
    var brk: nat
    ghost var blocks: seq<Block>   // the free list without base
    ghost var at: nat              // where freep points in it
    ghost var live: set<Block>     // handed out and not freed
    ghost var chunks: seq<Block>   // what sbrk gave

    ghost predicate Valid()
      reads this, next, size
    {
      && next != size && next.Length == size.Length == LIMIT
      && 1 <= brk <= LIMIT && brk % PAGE == 0
      && Parts(blocks, live, chunks, brk) && Headers(size[..], live)
      && (freep == -1 ==> blocks == [] && live == {} && chunks == [] && at == 0)
      && (freep != -1 ==> at <= |blocks| && freep == Node(blocks, at) && Linked(next[..], size[..], blocks))
    }

    constructor (brk0: nat)
      requires 1 <= brk0 <= LIMIT && brk0 % PAGE == 0
      ensures Valid() && freep == -1 && brk == brk0 && blocks == [] && live == {} && chunks == []
      ensures fresh(next) && fresh(size)
    {
      next, size := new nat[LIMIT], new nat[LIMIT];
      freep, brk := -1, brk0;
      blocks, at, live, chunks := [], 0, {}, [];
    }

    /** free's search, from freep round the list: it ends, at the node after which `bp` belongs. */
    method FindPlace(bp: nat, ghost k: nat) returns (p: nat)
      requires Valid() && freep != -1 && bp >= 1 && Place(blocks, bp, k)
      ensures p == Node(blocks, k)
    {
      hide Parts, Canonical, Linked, Headers;
      ghost var bs := blocks;
      PartsParts(bs, live, chunks, brk);
      LinkedNodes(next[..], size[..], bs);
      p := freep;
      ghost var i: nat := at;
      StopsAtPlace(bs, bp, k, i);
      while !(bp > p && bp < next[p])
        invariant i <= |bs| && p == Node(bs, i)
        invariant p < next.Length && next[p] == Succ(bs, i)
        invariant Stops(p, next[p], bp) <==> i == k
        decreases Ahead(i, k, |bs|)
      {
        if p >= next[p] && (bp > p || bp < next[p]) { break; }
        p := next[p];
        i := if i < |bs| then i + 1 else 0;
        assert next[p] == next[..][p];
        StopsAtPlace(bs, bp, k, i);
      }
    }

    /** The node `bp` goes in after `p`, or they and the node after become one. */
    method Relink(p: nat, bp: nat)
      requires next != size && p < next.Length == size.Length && bp < next.Length && next[p] < next.Length && p != bp
      modifies next, size
      ensures FreeWrites(old(next[..]), old(size[..]), next[..], size[..], p, bp)
    {
      if bp + size[bp] == next[p] {
        size[bp] := size[bp] + size[next[p]];
        next[bp] := next[next[p]];
      } else {
        next[bp] := next[p];
      }
      if p + size[p] == bp {
        size[p] := size[p] + size[bp];
        next[p] := next[bp];
      } else {
        next[p] := bp;
      }
    }

    /** The block of `ap` goes back to the list, joined with the free blocks it touches. */
    method Free(ap: nat, ghost b: Block) returns (ghost k: nat)
      requires Valid() && b in live && ap == b.addr + 1
      modifies this`freep, this`blocks, this`at, this`live, next, size
      ensures Valid() && freep != -1
      ensures Place(old(blocks), b.addr, k) && blocks == Insert(old(blocks), k, b) && at == k
      ensures live == old(live) - {b}
    {
      hide Parts, Canonical, Linked, Headers, Insert;
      ghost var bs, n0, s0 := blocks, next[..], size[..];
      ghost var held, got, top := live, chunks, brk;
      assert Canonical(bs) by { PartsParts(bs, live, chunks, brk); }
      NodeApart(bs, live, chunks, brk, b);
      k := PlaceExists(bs, b.addr);
      LinkedNodes(n0, s0, bs);
      HeaderOf(s0, live, b);
      var bp := ap - 1;
      var p := FindPlace(bp, k);
      assert next[p] == n0[p];
      Relink(p, bp);
      freep := p;
      hide FreeWrites, Place;
      FreeLinks(n0, s0, next[..], size[..], bs, k, b);
      FreeParts(bs, held, got, top, k, b);
      FreeHeaders(n0, s0, next[..], size[..], bs, held, got, top, k, b);
      blocks, at, live := Insert(bs, k, b), k, held - {b};
      InsertNode(bs, k, b);
    }

    /** `pages`: enough pages of memory are free. */
    method Sbrk(n: u32, pages: bool) returns (r: int)
      modifies this`brk
      ensures var to := NewBreak(old(brk), n, pages);
        if to == -1 then r == -1 && brk == old(brk) else r == old(brk) && brk == to
    {
      var end := (brk * HEADER + n) % TWO32;
      if end > LIMIT * HEADER || (end > brk * HEADER && !pages) { return -1; }
      end := RoundedUp((end + HEADER - 1) / HEADER);
      if end == 0 { return -1; }
      r := brk;
      brk := end;
    }

    /** A chunk of at least `nu` units from sbrk goes on the list, after all that is there. */
    method Morecore(nu: nat, pages: bool) returns (p: int)
      requires Valid() && freep != -1 && 1 <= nu <= 0x2000_0000
      requires NoWrap(nu, brk)
      modifies this, next, size
      ensures Valid() && freep != -1 && live == old(live)
      ensures p == -1 <==> NewBreak(old(brk), Chunk(nu) * HEADER % TWO32, pages) == -1
      ensures p == -1 ==>
        brk == old(brk) && blocks == old(blocks) && chunks == old(chunks) && freep == old(freep) && at == old(at)
      ensures p != -1 ==>
        && p == freep && brk == NewBreak(old(brk), Chunk(nu) * HEADER % TWO32, pages) >= old(brk) + Chunk(nu)
        && chunks == old(chunks) + [Block(old(brk), Chunk(nu))]
        && blocks == Insert(old(blocks), |old(blocks)|, Block(old(brk), Chunk(nu)))
    {
      hide Parts, Canonical, Linked, Headers, Insert, NewBreak;
      ghost var bs, held, got, top := blocks, live, chunks, brk;
      ghost var n0, s0 := next[..], size[..];
      var nu' := if nu < CHUNK then CHUNK else nu;
      p := Sbrk(nu' * HEADER % TWO32, pages);
      if p == -1 { return; }
      Granted(top, nu', pages);
      var hp := p;
      size[hp] := nu';
      ghost var c := Block(top, nu');
      GrowParts(bs, held, got, top, c, brk);
      live, chunks := held + {c}, got + [c];
      NewHeader(n0, s0, bs, held, got, top, c);
      ghost var k := Free(hp + 1, c);
      PlaceUnique(bs, c.addr, k, |bs|);
      assert held + {c} - {c} == held;
      p := freep;
    }

    /**
     A block of exactly as many units as `nbytes` and a header need, cut off the end of the first
     free block that fits (going round from freep), or NULL when none fits and sbrk refuses.
     `bs` is the list it was cut from: what there was, or that with a chunk from sbrk.
     */
    method Malloc(nbytes: u32, pages: bool) returns (r: int, ghost bs: seq<Block>, ghost start: nat, ghost k: nat)
      requires Valid() && Sound(nbytes, brk)
      modifies this, next, size
      ensures Valid() && freep != -1
      ensures if FitsNone(old(blocks), Units(nbytes))
        then GrewOrRefused(old(blocks), old(brk), old(chunks), bs, brk, chunks, Units(nbytes), pages)
        else bs == old(blocks) && start == old(at) && brk == old(brk) && chunks == old(chunks)
      ensures r == 0 <==> FitsNone(bs, Units(nbytes))
      ensures r == 0 ==> blocks == old(blocks) && live == old(live)
      ensures r != 0 ==>
        && FirstFit(bs, start, Units(nbytes), k) && blocks == Carve(bs, k, Units(nbytes)) && at == k
        && var c := Cut(bs[k], Units(nbytes));
           r == c.addr + 1 && c !in old(live) && live == old(live) + {c}
    {
      hide Valid, Canonical, Insert, Carve, Units, NewBreak, GrewOrRefused, FitsNone, FirstFit, NoWrap, Looked, Cut,
           Node, Succ, Left;
      var n := (nbytes + HEADER - 1) % TWO32 / HEADER + 1;
      assert n == Units(nbytes) by { UnitsIs(nbytes); }
      if freep == -1 { Init(); }
      AtOk();
      NodeAt(at);
      var prevp: nat := freep;
      bs, start, k := blocks, at, at;
      ghost var bs0, top, got, held, grown := blocks, brk, chunks, live, false;
      LookedStart(bs, start, n);
      var p := next[prevp];
      while size[p] < n
        invariant Valid() && freep != -1 && bs == blocks && live == held && start == at
        invariant start <= |bs| && k <= |bs| && prevp == Node(bs, k) && p == Succ(bs, k) && p < LIMIT == size.Length
        invariant size[p] == if k < |bs| then bs[k].size else 0
        invariant Looked(bs, start, n, k)
        invariant !grown ==> bs == bs0 && brk == top && chunks == got && start == old(at)
        invariant grown ==>
          FitsNone(bs0, n) && !FitsNone(bs, n) && GrewOrRefused(bs0, top, got, bs, brk, chunks, n, pages)
        decreases !grown, Left(k, start, |bs|)
      {
        NodeAt(k);
        if p == freep {
          NoneFits(bs, start, n, k);
          p := Morecore(n, pages);
          if p == -1 {
            Refused(bs0, top, got, n, pages);
            return 0, bs, start, k;
          }
          AtOk();
          bs, start, k, grown := blocks, at, at, true;
          Grown(bs0, top, got, bs, brk, chunks, n, pages);
          LookedStart(bs, start, n);
        } else {
          LookedNext(bs, start, n, k);
          k := if k < |bs| then k + 1 else 0;
        }
        NodeAt(k);
        prevp, p := p, next[p];
      }
      NodeAt(k);
      FoundFit(bs, start, n, k);
      r := Take(prevp, p, n, k);
    }

    lemma AtOk()
      requires Valid()
      ensures at <= |blocks|
    {
      hide Parts, Linked, Headers;
    }

    /** Node `k` of the list and the one after it, as they lie in memory. */
    lemma NodeAt(k: nat)
      requires Valid() && freep != -1 && k <= |blocks|
      ensures next.Length == size.Length == LIMIT && Canonical(blocks)
      ensures at <= |blocks| && freep == Node(blocks, at) >= 0
      ensures Node(blocks, k) < LIMIT && next[Node(blocks, k)] == Succ(blocks, k) < LIMIT
      ensures size[Succ(blocks, k)] == if k < |blocks| then blocks[k].size else 0
      ensures Succ(blocks, k) == Node(blocks, if k < |blocks| then k + 1 else 0)
      ensures k < |blocks| ==> Succ(blocks, k) == blocks[k].addr
    {
      hide Parts, Canonical, Linked, Headers;
      PartsParts(blocks, live, chunks, brk);
      LinkedNodes(next[..], size[..], blocks);
      assert next[Node(blocks, k)] == next[..][Node(blocks, k)];
      assert Node(blocks, if k < |blocks| then k + 1 else 0) == Succ(blocks, k);
      assert size[Succ(blocks, k)] == size[..][Succ(blocks, k)];
    }

    /** The first call of malloc links `base` to itself. */
    method Init()
      requires Valid() && freep == -1
      modifies this`freep, next, size
      ensures Valid() && freep == 0
    {
      hide Parts, Linked, Headers;
      next[0], size[0] := 0, 0;
      freep := 0;
      EmptyLinked(next[..], size[..]);
      EmptyHeaders(size[..], live);
    }

    /** What malloc does with the block it has found. */
    method Take(prevp: nat, p0: nat, n: nat, ghost k: nat) returns (r: int)
      requires Valid() && freep != -1 && k < |blocks| && 0 < n <= blocks[k].size
      requires prevp == Node(blocks, k) && p0 == blocks[k].addr
      modifies this`freep, this`at, this`blocks, this`live, next, size
      ensures Valid() && freep != -1 && at == k && blocks == Carve(old(blocks), k, n)
      ensures var c := Cut(old(blocks)[k], n);
        r == c.addr + 1 && c !in old(live) && live == old(live) + {c}
    {
      hide Parts, Canonical, Linked, Headers, Carve;
      ghost var bs, n0, s0 := blocks, next[..], size[..];
      ghost var held, got, top := live, chunks, brk;
      LinkedNodes(n0, s0, bs);
      PartsParts(bs, held, got, top);
      CarveParts(bs, held, got, top, k, n);
      CarveLinks(n0, s0, bs, held, got, top, k, n);
      var p := p0;
      if size[p] == n {
        next[prevp] := next[p];
      } else {
        size[p] := size[p] - n;
        p := p + size[p];
        size[p] := n;
      }
      freep := prevp;
      blocks, at, live := Carve(bs, k, n), k, held + {Cut(bs[k], n)};
      r := p + 1;
    }
  }

  /**
   What a caller of malloc gets: `n` units, just enough for the bytes and a header, apart from all that is in use
   or free; NULL exactly when no free block has as many and sbrk cannot add `n` units, or 4096 if these are more.
   */
  method Allocate(h: Heap, nbytes: u32, pages: bool) returns (r: int, ghost n: nat, ghost c: Block)
    requires h.Valid() && Sound(nbytes, h.brk)
    modifies h, h.next, h.size
    ensures h.Valid() && JustHold(n, nbytes)
    ensures r == 0 <==>
      (forall j :: 0 <= j < |old(h.blocks)| ==> old(h.blocks)[j].size < n)
      && (!pages || TooFar(old(h.brk) + Max(4096, n)))
    ensures r == 0 ==> h.live == old(h.live) && h.blocks == old(h.blocks) && h.brk == old(h.brk)
    ensures r != 0 ==>
      && c.size == n && r == c.addr + 1 && c.addr >= 1 && End(c) <= h.brk && h.live == old(h.live) + {c}
      && (forall b :: b in old(h.live) ==> Apart(b, c)) && (forall j :: 0 <= j < |h.blocks| ==> Apart(h.blocks[j], c))
    ensures h.brk != old(h.brk) ==> NextPage(old(h.brk) + Max(4096, n), h.brk)
  {
    hide FitsNone, Units, Parts, Canonical, Linked, Headers, Carve, Insert, NewBreak, Max, TooFar, NextPage, JustHold,
         Chunk, NoWrap;
    n, c := Units(nbytes), Block(0, 0);
    ghost var bs0, top, got, held := h.blocks, h.brk, h.chunks, h.live;
    UnitsHold(nbytes);
    AskedBreak(top, n, pages);
    ghost var bs, start, k;
    r, bs, start, k := h.Malloc(nbytes, pages);
    FitsNoneIs(bs0, n);
    if FitsNone(bs0, n) && NewBreak(top, Chunk(n) * HEADER % TWO32, pages) != -1 {
      Grown(bs0, top, got, bs, h.brk, h.chunks, n, pages);
    }
    if r != 0 {
      c := Cut(bs[k], n);
      PartsParts(h.blocks, h.live, h.chunks, h.brk);
      NewIsApart(h.blocks, held, h.live, h.brk, c);
    }
  }

  lemma FitsNoneIs(bs: seq<Block>, n: nat)
    ensures FitsNone(bs, n) <==> forall j :: 0 <= j < |bs| ==> bs[j].size < n
  {
  }

  lemma NewIsApart(bs: seq<Block>, held: set<Block>, live: set<Block>, brk: nat, c: Block)
    requires LiveOk(bs, live, brk) && live == held + {c} && c !in held
    ensures c.addr >= 1 && End(c) <= brk && (forall b :: b in held ==> Apart(b, c))
    ensures forall j :: 0 <= j < |bs| ==> Apart(bs[j], c)
  {
    assert c in live && Outside(bs, c);
    forall b | b in held ensures Apart(b, c) {
      assert b in live;
    }
  }

  /** A request some free block can serve, taken back, leaves the free list and the blocks handed out as they were. */
  method MallocThenFree(h: Heap, nbytes: u32, pages: bool)
    requires h.Valid() && Sound(nbytes, h.brk) && !FitsNone(h.blocks, Units(nbytes))
    modifies h, h.next, h.size
    ensures h.Valid() && h.blocks == old(h.blocks) && h.live == old(h.live) && h.brk == old(h.brk)
  {
    hide FitsNone, Units, Parts, Canonical, Linked, Headers, Carve, Insert, GrewOrRefused;
    PartsParts(h.blocks, h.live, h.chunks, h.brk);
    ghost var was := h.blocks;
    var r, bs, start, k := h.Malloc(nbytes, pages);
    ghost var c := Cut(bs[k], Units(nbytes));
    var j := h.Free(r, c);
    FreeUndoesMalloc(was, k, Units(nbytes), j);
  }

  lemma PartsParts(bs: seq<Block>, live: set<Block>, chunks: seq<Block>, brk: nat)
    requires Parts(bs, live, chunks, brk)
    ensures Canonical(bs) && LiveOk(bs, live, brk) && forall i :: 0 <= i < |bs| ==> End(bs[i]) <= brk
  {
  }

  lemma LinkedNodes(next: seq<nat>, size: seq<nat>, bs: seq<Block>)
    requires Linked(next, size, bs)
    ensures |next| == |size| > 0 && size[0] == 0
    ensures forall i :: 0 <= i <= |bs| ==> Node(bs, i) < |next| && next[Node(bs, i)] == Succ(bs, i)
    ensures forall i :: 0 <= i < |bs| ==> bs[i].addr < |size| && size[bs[i].addr] == bs[i].size
  {
  }

  lemma HeaderOf(size: seq<nat>, live: set<Block>, b: Block)
    requires Headers(size, live) && b in live
    ensures b.addr < |size| && size[b.addr] == b.size
  {
  }

  lemma InsertNode(bs: seq<Block>, k: nat, b: Block)
    requires k <= |bs|
    ensures k <= |Insert(bs, k, b)| && Node(Insert(bs, k, b), k) == Node(bs, k)
  {
  }

  lemma FreeHeaders(next: seq<nat>, size: seq<nat>, next': seq<nat>, size': seq<nat>, bs: seq<Block>,
                    live: set<Block>, chunks: seq<Block>, brk: nat, k: nat, b: Block)
    requires Parts(bs, live, chunks, brk) && b in live && Place(bs, b.addr, k)
    requires Linked(next, size, bs) && b.addr < |next| && Succ(bs, k) < |next|
    requires FreeWrites(next, size, next', size', Node(bs, k), b.addr)
    requires Headers(size, live)
    ensures Headers(size', live - {b})
  {
    hide Parts, Canonical, Linked, FreeWrites;
    NodeApart(bs, live, chunks, brk, b);
    FreeFrame(next, size, next', size', bs, k, b);
    LinkedNodes(next, size, bs);
    forall c | c in live - {b} ensures c.addr < |size'| && size'[c.addr] == c.size {
      HeaderApart(bs, live, chunks, brk, b, c);
      assert Node(bs, k) != c.addr by { NodeApart(bs, live, chunks, brk, c); }
    }
  }

  lemma Granted(brk: nat, nu: nat, pages: bool)
    requires brk % PAGE == 0 && 1 <= brk <= LIMIT && nu > 0
    requires brk * HEADER + nu * HEADER < TWO32 || NewBreak(brk, nu * HEADER % TWO32, true) == -1
    requires NewBreak(brk, nu * HEADER % TWO32, pages) != -1
    ensures brk + nu <= NewBreak(brk, nu * HEADER % TWO32, pages) <= LIMIT
    ensures NewBreak(brk, nu * HEADER % TWO32, pages) % PAGE == 0
  {
    if brk * HEADER + nu * HEADER < TWO32 {
      BreakGrows(brk, nu, pages);
    }
  }

  lemma PlaceUnique(bs: seq<Block>, addr: nat, j: nat, k: nat)
    requires Canonical(bs) && Place(bs, addr, j) && Place(bs, addr, k)
    ensures j == k
  {
  }

  /** Writing the header of a chunk above the break changes nothing below. */
  lemma NewHeader(next: seq<nat>, size: seq<nat>, bs: seq<Block>, live: set<Block>, chunks: seq<Block>, brk: nat,
        c: Block)
    requires Parts(bs, live, chunks, brk) && Linked(next, size, bs) && Headers(size, live)
    requires c.addr == brk && 1 <= brk < |size|
    ensures Linked(next, size[brk := c.size], bs) && Headers(size[brk := c.size], live + {c})
  {
    hide Canonical;
    PartsParts(bs, live, chunks, brk);
    forall i | 0 <= i < |bs| ensures bs[i].addr < brk {
      assert End(bs[i]) <= brk;
      PositiveSize(bs, i);
    }
  }

  lemma PositiveSize(bs: seq<Block>, i: nat)
    requires Canonical(bs) && i < |bs|
    ensures bs[i].size > 0 && bs[i].addr >= 1
  {
  }

  predicate FitsNone(bs: seq<Block>, n: nat) {
    forall j :: 0 <= j < |bs| ==> bs[j].size < n
  }

  /** Nothing fitted: either sbrk added a chunk above everything, or it refused and all stays. */
  predicate GrewOrRefused(bs0: seq<Block>, brk0: nat, chunks0: seq<Block>, bs: seq<Block>, brk: nat,
        chunks: seq<Block>, n: nat, pages: bool)
    requires n <= 0x2000_0000
  {
    var r := NewBreak(brk0, Chunk(n) * HEADER % TWO32, pages);
    if r == -1 then bs == bs0 && brk == brk0 && chunks == chunks0
    else
      && bs == Insert(bs0, |bs0|, Block(brk0, Chunk(n))) && chunks == chunks0 + [Block(brk0, Chunk(n))]
      && brk == r >= brk0 + Chunk(n)
  }

  lemma UnitsIs(nbytes: u32)
    ensures Units(nbytes) == (nbytes + HEADER - 1) % TWO32 / HEADER + 1
  {
  }

  lemma EmptyLinked(next: seq<nat>, size: seq<nat>)
    requires |next| == |size| > 0 && next[0] == 0 && size[0] == 0
    ensures Linked(next, size, [])
  {
  }

  lemma EmptyHeaders(size: seq<nat>, live: set<Block>)
    requires live == {}
    ensures Headers(size, live)
  {
  }

  /** Every block from `start` round to `k` is too small. */
  predicate Looked(bs: seq<Block>, start: nat, n: nat, k: nat) {
    forall j :: 0 <= j < |bs| && Before(start, j, k) ==> bs[j].size < n
  }

  lemma LookedStart(bs: seq<Block>, start: nat, n: nat)
    ensures Looked(bs, start, n, start)
  {
  }

  lemma LookedNext(bs: seq<Block>, start: nat, n: nat, k: nat)
    requires Looked(bs, start, n, k) && start <= |bs| && k <= |bs| && (k < |bs| ==> bs[k].size < n)
    requires Succ(bs, k) != Node(bs, start)
    ensures Looked(bs, start, n, if k < |bs| then k + 1 else 0)
    ensures var k' := if k < |bs| then k + 1 else 0;
      Left(k', start, |bs|) < Left(k, start, |bs|)
  {
  }

  /** Back at freep, every block has been looked at. */
  lemma NoneFits(bs: seq<Block>, start: nat, n: nat, k: nat)
    requires Canonical(bs) && start <= |bs| && k <= |bs| && Succ(bs, k) == Node(bs, start)
    requires Looked(bs, start, n, k) && (k < |bs| ==> bs[k].size < n)
    ensures FitsNone(bs, n)
  {
    SameNode(bs, start, if k < |bs| then k + 1 else 0);
  }

  lemma SameNode(bs: seq<Block>, i: nat, j: nat)
    requires Canonical(bs) && i <= |bs| && j <= |bs| && Node(bs, i) == Node(bs, j)
    ensures i == j
  {
    hide Canonical, Node;
    if i < j {
      NodesDistinct(bs, i, j);
    } else if j < i {
      NodesDistinct(bs, j, i);
    }
  }

  lemma Refused(bs: seq<Block>, brk: nat, chunks: seq<Block>, n: nat, pages: bool)
    requires n <= 0x2000_0000 && NewBreak(brk, Chunk(n) * HEADER % TWO32, pages) == -1
    ensures GrewOrRefused(bs, brk, chunks, bs, brk, chunks, n, pages)
  {
  }

  lemma Grown(bs0: seq<Block>, brk0: nat, chunks0: seq<Block>, bs: seq<Block>, brk: nat, chunks: seq<Block>, n: nat,
        pages: bool)
    requires n <= 0x2000_0000 && NewBreak(brk0, Chunk(n) * HEADER % TWO32, pages) != -1
    requires brk == NewBreak(brk0, Chunk(n) * HEADER % TWO32, pages) >= brk0 + Chunk(n)
    requires bs == Insert(bs0, |bs0|, Block(brk0, Chunk(n))) && chunks == chunks0 + [Block(brk0, Chunk(n))]
    ensures GrewOrRefused(bs0, brk0, chunks0, bs, brk, chunks, n, pages) && !FitsNone(bs, n)
  {
    hide NewBreak;
    assert bs[|bs| - 1].size >= Chunk(n) >= n;
  }

  lemma FoundFit(bs: seq<Block>, start: nat, n: nat, k: nat)
    requires Looked(bs, start, n, k) && start <= |bs| && k < |bs| && bs[k].size >= n
    ensures FirstFit(bs, start, n, k) && !FitsNone(bs, n)
  {
  }

  /** Block `k` is bypassed. */
  lemma CarveWhole(next: seq<nat>, next': seq<nat>, size: seq<nat>, bs: seq<Block>, left: seq<Block>, k: nat)
    requires Canonical(bs) && Linked(next, size, bs) && k < |bs| && Node(bs, k) < |next|
    requires next' == next[Node(bs, k) := Succ(bs, k + 1)] && left == bs[..k] + bs[k + 1..]
    ensures Linked(next', size, left)
  {
    forall i | 0 <= i < |left| ensures left[i] == bs[if i < k then i else i + 1] {}
    forall i | 0 <= i <= |bs| && i != k ensures Node(bs, i) != Node(bs, k) {
      if Node(bs, i) == Node(bs, k) { SameNode(bs, i, k); }
    }
    hide Canonical;
    forall i | 0 <= i <= |left| ensures Node(left, i) < |next| && next'[Node(left, i)] == Succ(left, i) {
      var j := if i <= k then i else i + 1;
      assert Node(left, i) == Node(bs, if i == k then k else j);
      assert Succ(left, i) == Succ(bs, if i < k then i else i + 1);
      assert next[Node(bs, j)] == Succ(bs, j);
    }
  }

  /** Block `k` is cut short, and the cut gets a header of its own. */
  lemma CarveTail(next: seq<nat>, size: seq<nat>, bs: seq<Block>, k: nat, n: nat)
    requires Canonical(bs) && Linked(next, size, bs) && k < |bs| && 0 < n < bs[k].size
    ensures Linked(next, size[bs[k].addr := bs[k].size - n][Cut(bs[k], n).addr := n],
      bs[k := Block(bs[k].addr, bs[k].size - n)])
  {
    var left, c := bs[k := Block(bs[k].addr, bs[k].size - n)], Cut(bs[k], n).addr;
    forall i | 0 <= i < |bs| && i != k ensures bs[i].addr != bs[k].addr && bs[i].addr != c {
      assert i < k ==> End(bs[i]) < bs[k].addr;
      assert i > k ==> End(bs[k]) < bs[i].addr;
    }
    PositiveSize(bs, k);
    hide Canonical;
    forall i | 0 <= i <= |bs| ensures Node(left, i) == Node(bs, i) && Succ(left, i) == Succ(bs, i) {}
  }

  lemma CarveLinks(next: seq<nat>, size: seq<nat>, bs: seq<Block>, live: set<Block>, chunks: seq<Block>, brk: nat,
        k: nat, n: nat)
    requires Parts(bs, live, chunks, brk) && Linked(next, size, bs) && Headers(size, live)
    requires k < |bs| && 0 < n <= bs[k].size
    ensures k <= |Carve(bs, k, n)| && Node(Carve(bs, k, n), k) == Node(bs, k)
    ensures End(bs[k]) <= |size| == |next| && next[bs[k].addr] == Succ(bs, k + 1)
    ensures bs[k].size == n ==>
      Linked(next[Node(bs, k) := Succ(bs, k + 1)], size, Carve(bs, k, n)) && Headers(size, live + {Cut(bs[k], n)})
    ensures bs[k].size > n ==>
      var size' := size[bs[k].addr := bs[k].size - n][Cut(bs[k], n).addr := n];
      Linked(next, size', Carve(bs, k, n)) && Headers(size', live + {Cut(bs[k], n)})
  {
    hide Canonical, Parts, Linked, Headers;
    PartsParts(bs, live, chunks, brk);
    assert Node(bs, k + 1) == bs[k].addr;
    LinkedNodes(next, size, bs);
    LinkedEnds(next, size, bs, k);
    CarveIs(bs, k, n);
    CarveHeaders(size, bs, live, chunks, brk, k, n);
    if bs[k].size == n {
      CarveWhole(next, next[Node(bs, k) := Succ(bs, k + 1)], size, bs, Carve(bs, k, n), k);
    } else {
      CarveTail(next, size, bs, k, n);
    }
  }

  lemma LinkedEnds(next: seq<nat>, size: seq<nat>, bs: seq<Block>, k: nat)
    requires Linked(next, size, bs) && k < |bs|
    ensures End(bs[k]) <= |size|
  {
  }

  lemma CarveIs(bs: seq<Block>, k: nat, n: nat)
    requires k < |bs| && n <= bs[k].size
    ensures bs[k].size == n ==> Carve(bs, k, n) == bs[..k] + bs[k + 1..]
    ensures bs[k].size > n ==> Carve(bs, k, n) == bs[k := Block(bs[k].addr, bs[k].size - n)]
    ensures Node(Carve(bs, k, n), k) == Node(bs, k)
  {
  }

  lemma CarveHeaders(size: seq<nat>, bs: seq<Block>, live: set<Block>, chunks: seq<Block>, brk: nat, k: nat, n: nat)
    requires Parts(bs, live, chunks, brk) && Headers(size, live) && k < |bs| && 0 < n <= bs[k].size
    requires End(bs[k]) <= |size| && size[bs[k].addr] == bs[k].size
    ensures bs[k].size == n ==> Headers(size, live + {Cut(bs[k], n)})
    ensures bs[k].size > n ==>
      Headers(size[bs[k].addr := bs[k].size - n][Cut(bs[k], n).addr := n], live + {Cut(bs[k], n)})
  {
    hide Canonical, Parts;
    forall c | c in live ensures c.addr != bs[k].addr && c.addr != Cut(bs[k], n).addr {
      NodeApart(bs, live, chunks, brk, c);
      assert Apart(c, bs[k]);
    }
  }
}
