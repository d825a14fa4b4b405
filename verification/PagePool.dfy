/** The physical pages of the machine over whole runs. */
module PagePool {
  import opened Words
  import opened Paging
  import opened Vm
  import opened AddressSpace
  import opened CopySpace
  import opened GrowSpace

  // Each page from `lo` on is always in at most one of the free list, one address space, and the kernel's own
  // use (stacks and pipes). One that is in none of them is lost for good: Lost says which, LostExactly when.

  datatype Pool = Pool(m: Mem, fl: seq<nat>, spaces: map<nat, Owner>, other: set<nat>)

  ghost predicate InSome(spaces: map<nat, Owner>, p: nat) {
    exists d :: d in spaces && p in spaces[d]
  }

  /** `p` is in one of the three. */
  ghost predicate Placed(s: Pool, p: nat) {
    p in s.fl || p in s.other || InSome(s.spaces, p)
  }

  /** The managed pages that are nowhere. */
  ghost function Lost(s: Pool, lo: nat): set<nat> {
    set p | lo <= p < NPAGES && !Placed(s, p)
  }

  ghost predicate FreeDistinct(fl: seq<nat>, lo: nat) {
    && (forall a :: 0 <= a < |fl| ==> lo <= fl[a] < NPAGES)
    && (forall a, b :: 0 <= a < b < |fl| ==> fl[a] != fl[b])
  }

  ghost predicate SpacesOk(s: Pool, lo: nat) {
    && (forall d :: d in s.spaces ==>
         && SpaceOk(s.m, d, s.spaces[d]) && Disjoint(s.spaces[d], s.fl)
         && forall p :: p in s.spaces[d] ==> lo <= p && p !in s.other)
    && (forall d, e :: d in s.spaces && e in s.spaces && d != e ==> s.spaces[d].Keys !! s.spaces[e].Keys)
  }

  /** No page is in two places. */
  ghost predicate Partition(s: Pool, lo: nat) {
    && FreeDistinct(s.fl, lo) && SpacesOk(s, lo)
    && (forall p :: p in s.fl ==> p !in s.other)
    && (forall p :: p in s.other ==> lo <= p < NPAGES)
  }

  // What can be done

  /** What a call asks for. The ghost parts name what comes of it: the space built, or how far allocuvm came. */
  datatype Op =
    | Take                                                   // a kernel stack or a pipe
    | Give(p: nat)
    | Setup(d: nat, own: Owner)                              // setupkvm
    | Copy(d0: nat, d: nat, own: Owner)                      // copyuvm
    | Grow(d: nat, own: Owner, v0: nat, n: nat, k: nat)      // allocuvm
    | Free(d: nat)                                           // freevm
    | Write                                                  // stores to user pages and to the kernel's own

  /** Some space has `p` as a user page. */
  ghost predicate UserPage(spaces: map<nat, Owner>, p: nat) {
    exists d :: d in spaces && p in spaces[d] && spaces[d][p].Leaf?
  }

  ghost predicate SamePages(m: Mem, m': Mem, but: set<nat>) {
    forall p :: 0 <= p < NPAGES && p !in but ==> m'[p] == m[p]
  }

  ghost predicate Built(s: Pool, s': Pool, d: nat, own: Owner) {
    NewSpace(s.m, s'.m, d, own, s.fl, s'.fl) && s' == s.(m := s'.m, fl := s'.fl, spaces := s.spaces[d := own])
  }

  /** The free list has been used up for nothing. */
  ghost predicate Drained(s: Pool, s': Pool) {
    SamePages(s.m, s'.m, ToSet(s.fl)) && s' == s.(m := s'.m, fl := [])
  }

  ghost predicate Step(s: Pool, s': Pool, op: Op, lo: nat) {
    match op
    case Take => if s.fl == [] then s' == s else s' == s.(fl := s.fl[1..], other := s.other + {s.fl[0]})
    case Give(p) =>
      && p in s.other && SamePages(s.m, s'.m, {p})
      && s' == s.(m := s'.m, fl := [p] + s.fl, other := s.other - {p})
    case Setup(d, own) => if KERNEL_NEEDS <= |s.fl| then Built(s, s', d, own) else Drained(s, s')
    case Copy(d0, d, own) =>
      && d0 in s.spaces && d0 < NPAGES
      && if CopyNeeds(s.m, d0) <= |s.fl| then Built(s, s', d, own)
         else if |s.fl| < KERNEL_NEEDS then Drained(s, s')
         else
           && FreeDistinct(s'.fl, lo) && ToSet(s'.fl) == ToSet(s.fl) - {LostPage(s.m, d0, s.fl)}
           && SamePages(s.m, s'.m, ToSet(s.fl)) && s' == s.(m := s'.m, fl := s'.fl)
    case Grow(d, own, v0, n, k) =>
      && d in s.spaces && d < NPAGES && v0 + n <= NVPAGES
      && s' == s.(m := s'.m, fl := s'.fl, spaces := s.spaces[d := own])
      && if Needs(s.m, d, v0, n) <= |s.fl| then Grew(s.m, s'.m, d, s.spaces[d], own, s.fl, s'.fl, v0, n)
         else k < n && s'.fl == [] && StoppedAt(s.m, s'.m, d, s.spaces[d], own, s.fl, v0, k)
    case Free(d) =>
      && d in s.spaces && FreeDistinct(s'.fl, lo) && ToSet(s'.fl) == ToSet(s.fl) + s.spaces[d].Keys
      && SamePages(s.m, s'.m, s.spaces[d].Keys)
      && s' == s.(m := s'.m, fl := s'.fl, spaces := s.spaces - {d})
    case Write =>
      && s' == s.(m := s'.m)
      && forall p :: 0 <= p < NPAGES && s'.m[p] != s.m[p] ==> p in s.other || UserPage(s.spaces, p)
  }

  // What is lost, said before the call

  /** Of `n` pages to be mapped from `v0`, with `free` pages left, one comes to need a table when there is none. */
  ghost predicate GrowLoses(m: Mem, d: nat, v0: nat, n: nat, free: nat)
    requires d < NPAGES && v0 + n <= NVPAGES
  {
    exists k: nat :: k < n && NeedsTable(m, d, v0, k) && Needs(m, d, v0, k) + 1 == free
  }

  /** The pages that go missing when `op` is called in state `s`. */
  ghost function LostBy(s: Pool, op: Op): set<nat> {
    match op
    case Setup(_, _) => if |s.fl| < KERNEL_NEEDS then ToSet(s.fl) else {}
    case Copy(d0, _, _) =>
      if |s.fl| < KERNEL_NEEDS then ToSet(s.fl)
      else if d0 < NPAGES && CopyLoses(s.m, d0, |s.fl|) then {s.fl[|s.fl| - 1]} else {}
    case Grow(d, _, v0, n, _) =>
      if s.fl != [] && d < NPAGES && v0 + n <= NVPAGES && GrowLoses(s.m, d, v0, n, |s.fl|) then {s.fl[|s.fl| - 1]}
      else {}
    case _ => {}
  }

  /** There are pages for all that `op` asks for. */
  ghost predicate Enough(s: Pool, op: Op) {
    match op
    case Setup(_, _) => KERNEL_NEEDS <= |s.fl|
    case Copy(d0, _, _) => d0 < NPAGES && CopyNeeds(s.m, d0) <= |s.fl|
    case Grow(d, _, v0, n, _) => d < NPAGES && v0 + n <= NVPAGES && Needs(s.m, d, v0, n) <= |s.fl|
    case _ => true
  }

  lemma CopyLosesShort(m: Mem, d0: nat, free: nat)
    requires d0 < NPAGES && CopyLoses(m, d0, free)
    ensures KERNEL_NEEDS < free < CopyNeeds(m, d0)
  {
    hide LeafCount, UserNeeds;
    var i :| 0 <= i < KPDE && KERNEL_NEEDS + UserNeeds(m, d0, i) + 1 == free && LeafCount(m, d0, i, NENTRIES) > 0;
    UserNeedsGrows(m, d0, i, KPDE);
  }

  lemma GrowLosesShort(m: Mem, d: nat, v0: nat, n: nat, free: nat)
    requires d < NPAGES && v0 + n <= NVPAGES && GrowLoses(m, d, v0, n, free)
    ensures 0 < free < Needs(m, d, v0, n)
  {
    hide NeedsTable;
    var k: nat :| k < n && NeedsTable(m, d, v0, k) && Needs(m, d, v0, k) + 1 == free;
    NeedsMonotone(m, d, v0, k + 1, n);
  }

  /** Where allocuvm stops decides whether a page is lost, so that can be told from the state before. */
  lemma StopLoses(m0: Mem, m: Mem, d: nat, own0: Owner, own: Owner, fl: seq<nat>, v0: nat, n: nat, k: nat)
    requires d < NPAGES && v0 + n <= NVPAGES && k < n && StoppedAt(m0, m, d, own0, own, fl, v0, k)
    ensures Loses(m0, d, fl, v0, k) <==> GrowLoses(m0, d, v0, n, |fl|)
  {
    hide SpaceOk, GrewEntries, GrewTables, GrewPages, NeedsTable, Disjoint;
    if Loses(m0, d, fl, v0, k) {
      assert LostOne(m0, m, d, own0, own, fl, v0, k);
    } else {
      assert Needs(m0, d, v0, k) == |fl|;
      if GrowLoses(m0, d, v0, n, |fl|) {
        var x: nat :| x < n && NeedsTable(m0, d, v0, x) && Needs(m0, d, v0, x) + 1 == |fl|;
        if x < k {
          NeedsMonotone(m0, d, v0, x + 1, k);
        } else {
          NeedsMonotone(m0, d, v0, k, x);
        }
        assert false;
      }
    }
  }

  /** With enough pages nothing is lost. */
  lemma EnoughLosesNothing(s: Pool, op: Op)
    requires Enough(s, op)
    ensures LostBy(s, op) == {}
  {
    hide CopyLoses, GrowLoses, CopyNeeds, Needs;
    match op {
      case Copy(d0, _, _) =>
        CopyNeedsKernel(s.m, d0);
        if CopyLoses(s.m, d0, |s.fl|) { CopyLosesShort(s.m, d0, |s.fl|); }
      case Grow(d, _, v0, n, _) =>
        if GrowLoses(s.m, d, v0, n, |s.fl|) { GrowLosesShort(s.m, d, v0, n, |s.fl|); }
      case _ =>
    }
  }

  lemma CopyNeedsKernel(m: Mem, d0: nat)
    requires d0 < NPAGES
    ensures CopyNeeds(m, d0) >= KERNEL_NEEDS
  {
  }

  // Every step keeps the partition, and loses those pages

  /** Pages `gone` are no longer anywhere; every other one that was somewhere still is. */
  ghost predicate Misses(s: Pool, s': Pool, lo: nat, gone: set<nat>) {
    forall p :: lo <= p < NPAGES ==> (Placed(s', p) <==> Placed(s, p) && p !in gone)
  }

  lemma InSet(fl: seq<nat>, p: nat)
    ensures p in ToSet(fl) <==> p in fl
  {
  }

  /** The spaces that an event does not touch. */
  lemma OthersKept(s: Pool, s': Pool, lo: nat, d: nat, touched: set<nat>)
    requires SpacesOk(s, lo) && SamePages(s.m, s'.m, touched)
    requires forall e :: e in s.spaces && e != d ==> s.spaces[e].Keys !! touched
    ensures forall e :: e in s.spaces && e != d ==> SpaceOk(s'.m, e, s.spaces[e])
  {
    hide SpaceOk, Disjoint;
    forall e | e in s.spaces && e != d ensures SpaceOk(s'.m, e, s.spaces[e]) {
      forall p | p in s.spaces[e] ensures p < NPAGES && s'.m[p] == s.m[p] {
        OwnedSlot(s.m, e, s.spaces[e], p);
      }
      SpaceFrame(s.m, s'.m, e, s.spaces[e]);
    }
  }

  lemma TakeKeeps(s: Pool, s': Pool, lo: nat)
    requires Partition(s, lo) && Step(s, s', Take, lo)
    ensures Partition(s', lo) && Misses(s, s', lo, {})
  {
    hide SpaceOk, InSome;
    if s.fl != [] { assert s.fl == [s.fl[0]] + s.fl[1..]; }
  }

  lemma GiveKeeps(s: Pool, s': Pool, p: nat, lo: nat)
    requires Partition(s, lo) && Step(s, s', Give(p), lo)
    ensures Partition(s', lo) && Misses(s, s', lo, {})
  {
    hide SpaceOk, InSome;
    OthersKept(s, s', lo, NPAGES, {p});
    forall d | d in s.spaces ensures d != NPAGES { SpaceIsDir(s.m, d, s.spaces[d]); }
  }

  lemma BuiltPlaces(s: Pool, s': Pool, d: nat, own: Owner, lo: nat)
    requires Partition(s, lo) && Built(s, s', d, own) && d !in s.spaces
    ensures Misses(s, s', lo, {})
  {
    hide SpaceOk, SpacesOk, FreeDistinct;
    assert s.fl == s.fl[..|s.fl| - |s'.fl|] + s'.fl;
    forall p | lo <= p < NPAGES ensures Placed(s', p) <==> Placed(s, p) {
      assert p in own <==> p in ToSet(s.fl[..|s.fl| - |s'.fl|]);
      assert p in s.fl <==> p in own || p in s'.fl;
      assert InSome(s'.spaces, p) <==> p in own || InSome(s.spaces, p) by {
        assert d in s'.spaces && s'.spaces[d] == own;
        if InSome(s.spaces, p) {
          var e :| e in s.spaces && p in s.spaces[e];
          assert e in s'.spaces && s'.spaces[e] == s.spaces[e];
        }
      }
    }
  }

  lemma BuiltKeeps(s: Pool, s': Pool, d: nat, own: Owner, lo: nat)
    requires Partition(s, lo) && Built(s, s', d, own)
    ensures d !in s.spaces && Partition(s', lo) && Misses(s, s', lo, {})
  {
    hide SpaceOk, InSome, Placed;
    SpaceIsDir(s'.m, d, own);
    TakenSubset(own, s.fl, s'.fl);
    TakenDisjoint(own, s.fl, s'.fl);
    OthersKept(s, s', lo, NPAGES, own.Keys);
    forall e | e in s.spaces ensures e != d && e != NPAGES { SpaceIsDir(s.m, e, s.spaces[e]); }
    BuiltPlaces(s, s', d, own, lo);
  }

  /** Fewer free pages, and nothing else. */
  lemma FewerKeeps(s: Pool, s': Pool, lo: nat, gone: set<nat>)
    requires Partition(s, lo) && s' == s.(m := s'.m, fl := s'.fl) && SamePages(s.m, s'.m, ToSet(s.fl))
    requires FreeDistinct(s'.fl, lo) && ToSet(s'.fl) == ToSet(s.fl) - gone && gone <= ToSet(s.fl)
    ensures Partition(s', lo) && Misses(s, s', lo, gone)
  {
    hide SpaceOk;
    forall p ensures (p in ToSet(s.fl) <==> p in s.fl) && (p in ToSet(s'.fl) <==> p in s'.fl) {
      InSet(s.fl, p);
      InSet(s'.fl, p);
    }
    OthersKept(s, s', lo, NPAGES, ToSet(s.fl));
    forall d | d in s.spaces ensures d != NPAGES { SpaceIsDir(s.m, d, s.spaces[d]); }
  }

  lemma FreeKeeps(s: Pool, s': Pool, d: nat, lo: nat)
    requires Partition(s, lo) && Step(s, s', Free(d), lo)
    ensures Partition(s', lo) && Misses(s, s', lo, {})
  {
    hide SpaceOk, InSome, Misses;
    forall p ensures p in s'.fl <==> p in s.fl || p in s.spaces[d] {
      assert p in ToSet(s'.fl) <==> p in ToSet(s.fl) + s.spaces[d].Keys;
    }
    OthersKept(s, s', lo, d, s.spaces[d].Keys);
    FreedPlaces(s, s', d, lo);
  }

  lemma FreedPlaces(s: Pool, s': Pool, d: nat, lo: nat)
    requires d in s.spaces && s'.other == s.other && s'.spaces == s.spaces - {d}
    requires forall p :: p in s'.fl <==> p in s.fl || p in s.spaces[d]
    ensures Misses(s, s', lo, {})
  {
    forall p | lo <= p < NPAGES ensures Placed(s', p) <==> Placed(s, p) {
      if InSome(s.spaces, p) && p !in s.spaces[d] {
        var e :| e in s.spaces && p in s.spaces[e];
        assert e in s'.spaces && s'.spaces[e] == s.spaces[e];
      }
      if InSome(s'.spaces, p) {
        var e :| e in s'.spaces && p in s'.spaces[e];
        assert e in s.spaces && s.spaces[e] == s'.spaces[e];
      }
    }
  }

  /** Space `d` has taken the first `n` free pages; the rest is free, or there was one more, and it is lost. */
  ghost predicate Taking(s: Pool, s': Pool, d: nat, own: Owner, n: nat, gone: set<nat>) {
    && d in s.spaces && SpaceOk(s'.m, d, own) && n <= |s.fl|
    && own.Keys == s.spaces[d].Keys + ToSet(s.fl[..n])
    && SamePages(s.m, s'.m, s.spaces[d].Keys + ToSet(s.fl))
    && s'.other == s.other && s'.spaces == s.spaces[d := own]
    && (if gone == {} then s'.fl == s.fl[n..] else n + 1 == |s.fl| && s'.fl == [] && gone == {s.fl[n]})
  }

  lemma GrownPlaces(s: Pool, s': Pool, d: nat, own: Owner, n: nat, gone: set<nat>, lo: nat)
    requires Partition(s, lo) && Taking(s, s', d, own, n, gone)
    ensures Misses(s, s', lo, gone)
  {
    hide SpaceOk, SamePages;
    assert s.fl == s.fl[..n] + s.fl[n..];
    forall p | lo <= p < NPAGES ensures Placed(s', p) <==> Placed(s, p) && p !in gone {
      GrownOwn(s, s', d, own, n, p);
      if gone != {} {
        GoneNowhere(s, d, n, lo);
        assert s.fl[n..] == [s.fl[n]];
      }
    }
  }

  lemma GoneNowhere(s: Pool, d: nat, n: nat, lo: nat)
    requires Partition(s, lo) && n + 1 == |s.fl|
    ensures s.fl[n] !in s.fl[..n] && s.fl[n] !in s.other && !InSome(s.spaces, s.fl[n])
  {
    hide SpaceOk;
    assert s.fl[n] in s.fl;
  }

  lemma GrownOwn(s: Pool, s': Pool, d: nat, own: Owner, n: nat, p: nat)
    requires d in s.spaces && n <= |s.fl| && own.Keys == s.spaces[d].Keys + ToSet(s.fl[..n])
    requires s'.spaces == s.spaces[d := own]
    ensures InSome(s'.spaces, p) <==> InSome(s.spaces, p) || p in s.fl[..n]
  {
    assert p in own <==> p in s.spaces[d] || p in ToSet(s.fl[..n]);
    if InSome(s.spaces, p) {
      var e :| e in s.spaces && p in s.spaces[e];
      assert e in s'.spaces && p in s'.spaces[e];
    }
    if p in s.fl[..n] {
      assert d in s'.spaces && p in s'.spaces[d];
    }
  }

  lemma GrownKeeps(s: Pool, s': Pool, d: nat, own: Owner, n: nat, gone: set<nat>, lo: nat)
    requires Partition(s, lo) && Taking(s, s', d, own, n, gone)
    ensures Partition(s', lo) && Misses(s, s', lo, gone)
  {
    hide SpaceOk, InSome, Misses, Placed;
    GrownPlaces(s, s', d, own, n, gone, lo);
    forall p ensures (p in ToSet(s.fl) <==> p in s.fl) && (p in ToSet(s.fl[..n]) <==> p in s.fl[..n]) {}
    OthersKept(s, s', lo, d, s.spaces[d].Keys + ToSet(s.fl));
    forall p | p in own ensures lo <= p && p !in s'.fl && p !in s'.other {
      if p in s.fl[..n] {
        var a :| 0 <= a < n && s.fl[a] == p;
      }
    }
  }

  lemma GrowKeeps(s: Pool, s': Pool, d: nat, own: Owner, v0: nat, n: nat, lo: nat)
    requires Partition(s, lo) && d in s.spaces && Grew(s.m, s'.m, d, s.spaces[d], own, s.fl, s'.fl, v0, n)
    requires s' == s.(m := s'.m, fl := s'.fl, spaces := s.spaces[d := own])
    ensures Partition(s', lo) && Misses(s, s', lo, {})
  {
    hide SpaceOk, Partition, Needs, GrewEntries, GrewTables, Misses;
    GrewSame(s.m, s'.m, s.spaces[d], own, s.fl, Needs(s.m, d, v0, n));
    GrownKeeps(s, s', d, own, Needs(s.m, d, v0, n), {}, lo);
  }

  lemma GrewSame(m: Mem, m': Mem, own0: Owner, own: Owner, fl: seq<nat>, n: nat)
    requires GrewPages(m, m', own0, own) && n <= |fl| && own.Keys == own0.Keys + ToSet(fl[..n])
    ensures SamePages(m, m', own0.Keys + ToSet(fl))
  {
    forall p | p in ToSet(fl[..n]) ensures p in ToSet(fl) {
      assert p in fl[..n];
    }
    forall p | p in own ensures p in own0.Keys + ToSet(fl) {
      assert p in own0.Keys + ToSet(fl[..n]);
    }
  }

  lemma StopKeeps(s: Pool, s': Pool, d: nat, own: Owner, v0: nat, k: nat, lo: nat)
    requires Partition(s, lo) && d in s.spaces && StoppedAt(s.m, s'.m, d, s.spaces[d], own, s.fl, v0, k)
    requires s' == s.(m := s'.m, fl := [], spaces := s.spaces[d := own])
    ensures Loses(s.m, d, s.fl, v0, k) ==> s.fl != []
    ensures Partition(s', lo)
    ensures Misses(s, s', lo, if Loses(s.m, d, s.fl, v0, k) then {s.fl[|s.fl| - 1]} else {})
  {
    hide SpaceOk, Partition, Needs, GrewEntries, GrewTables, Misses;
    if Loses(s.m, d, s.fl, v0, k) {
      LostSame(s.m, s'.m, s.spaces[d], s.fl);
      GrownKeeps(s, s', d, own, |s.fl| - 1, {s.fl[|s.fl| - 1]}, lo);
    } else {
      GrewSame(s.m, s'.m, s.spaces[d], own, s.fl, Needs(s.m, d, v0, k));
      GrownKeeps(s, s', d, own, Needs(s.m, d, v0, k), {}, lo);
    }
  }

  lemma LostSame(m: Mem, m': Mem, own0: Owner, fl: seq<nat>)
    requires forall p :: 0 <= p < NPAGES && p !in own0 && p !in fl ==> m'[p] == m[p]
    ensures SamePages(m, m', own0.Keys + ToSet(fl))
  {
  }

  lemma WriteKeeps(s: Pool, s': Pool, lo: nat)
    requires Partition(s, lo) && Step(s, s', Write, lo)
    ensures Partition(s', lo) && Misses(s, s', lo, {})
  {
    hide SpaceOk, InSome;
    forall d | d in s.spaces ensures SpaceOk(s'.m, d, s.spaces[d]) {
      forall p | p in s.spaces[d] && !s.spaces[d][p].Leaf? ensures p < NPAGES && s'.m[p] == s.m[p] {
        OwnedSlot(s.m, d, s.spaces[d], p);
        assert !UserPage(s.spaces, p);
      }
      SpaceFrame(s.m, s'.m, d, s.spaces[d]);
    }
  }

  lemma CopyKeeps(s: Pool, s': Pool, d0: nat, d: nat, own: Owner, lo: nat)
    requires Partition(s, lo) && Step(s, s', Copy(d0, d, own), lo)
    ensures Partition(s', lo) && Misses(s, s', lo, LostBy(s, Copy(d0, d, own)))
  {
    hide Partition, Misses, CopyNeeds, Built, CopyLoses, SamePages;
    var op := Copy(d0, d, own);
    if CopyNeeds(s.m, d0) <= |s.fl| {
      EnoughLosesNothing(s, op);
      BuiltKeeps(s, s', d, own, lo);
    } else if |s.fl| < KERNEL_NEEDS {
      FewerKeeps(s, s', lo, ToSet(s.fl));
    } else {
      FreeBelow(s, lo);
      assert ToSet(s.fl) - {LostPage(s.m, d0, s.fl)} == ToSet(s.fl) - LostBy(s, op);
      FewerKeeps(s, s', lo, LostBy(s, op));
    }
  }

  lemma FreeBelow(s: Pool, lo: nat)
    requires Partition(s, lo)
    ensures NPAGES !in ToSet(s.fl) && forall a :: 0 <= a < |s.fl| ==> s.fl[a] in ToSet(s.fl)
  {
  }

  lemma AllocKeeps(s: Pool, s': Pool, op: Op, lo: nat)
    requires Partition(s, lo) && Step(s, s', op, lo) && op.Grow?
    ensures Partition(s', lo) && Misses(s, s', lo, LostBy(s, op))
  {
    hide Partition, Misses, Grew, StoppedAt, GrowLoses, Needs, Loses;
    if Needs(s.m, op.d, op.v0, op.n) <= |s.fl| {
      EnoughLosesNothing(s, op);
      GrowKeeps(s, s', op.d, op.own, op.v0, op.n, lo);
    } else {
      StopKeeps(s, s', op.d, op.own, op.v0, op.k, lo);
      StopLoses(s.m, s'.m, op.d, s.spaces[op.d], op.own, s.fl, op.v0, op.n, op.k);
    }
  }

  lemma SetupKeeps(s: Pool, s': Pool, d: nat, own: Owner, lo: nat)
    requires Partition(s, lo) && Step(s, s', Setup(d, own), lo)
    ensures Partition(s', lo) && Misses(s, s', lo, LostBy(s, Setup(d, own)))
  {
    hide Partition, Misses, Built, SamePages;
    if KERNEL_NEEDS <= |s.fl| {
      BuiltKeeps(s, s', d, own, lo);
    } else {
      FewerKeeps(s, s', lo, ToSet(s.fl));
    }
  }

  /** Whatever is called, each page is in one place at most, and what is then nowhere is what LostBy said. */
  lemma StepKeeps(s: Pool, s': Pool, op: Op, lo: nat)
    requires Partition(s, lo) && Step(s, s', op, lo)
    ensures Partition(s', lo) && Misses(s, s', lo, LostBy(s, op))
  {
    hide Partition, Step, Misses;
    match op
    case Take => TakeKeeps(s, s', lo);
    case Give(p) => GiveKeeps(s, s', p, lo);
    case Setup(d, own) => SetupKeeps(s, s', d, own, lo);
    case Copy(d0, d, own) => CopyKeeps(s, s', d0, d, own, lo);
    case Grow(_, _, _, _, _) => AllocKeeps(s, s', op, lo);
    case Free(d) => FreeKeeps(s, s', d, lo);
    case Write => WriteKeeps(s, s', lo);
  }

  /** The pages lost by a call are those that can be told from the state before it. */
  lemma LostExactly(s: Pool, s': Pool, op: Op, lo: nat)
    requires Partition(s, lo) && Step(s, s', op, lo)
    ensures Lost(s', lo) == Lost(s, lo) + LostBy(s, op) && Lost(s, lo) !! LostBy(s, op)
  {
    StepKeeps(s, s', op, lo);
    FreeBelow(s, lo);
    assert LostBy(s, op) <= ToSet(s.fl);
    hide Partition, Step, LostBy, Placed;
    forall p | p in LostBy(s, op) ensures lo <= p < NPAGES && Placed(s, p) {
      FreePlaced(s, lo, p);
    }
  }

  lemma FreePlaced(s: Pool, lo: nat, p: nat)
    requires Partition(s, lo) && p in ToSet(s.fl)
    ensures lo <= p < NPAGES && Placed(s, p)
  {
  }

  // Two inputs that lose pages

  /** With fewer than 65 free pages setupkvm fails and loses them all. */
  lemma SetupLosesAll(s: Pool, s': Pool, d: nat, own: Owner, lo: nat)
    requires Partition(s, lo) && Step(s, s', Setup(d, own), lo) && 0 < |s.fl| < KERNEL_NEEDS
    ensures Lost(s', lo) == Lost(s, lo) + ToSet(s.fl) && s.fl[0] in Lost(s', lo) - Lost(s, lo)
  {
    hide Partition, Step, Lost;
    LostExactly(s, s', Setup(d, own), lo);
    assert s.fl[0] in ToSet(s.fl);
  }

  /** A process of one page forked with 66 pages left: the copy needs 67, and one of the 66 is lost. */
  lemma ForkLosesOne(s: Pool, s': Pool, d0: nat, d: nat, own: Owner, lo: nat)
    requires Partition(s, lo) && Step(s, s', Copy(d0, d, own), lo) && |s.fl| == 66
    requires forall i, j ::
      0 <= i < KPDE && 0 <= j < NENTRIES ==> (Present(EntryAt(s.m, d0, i, j)) <==> i == 0 && j == 0)
    ensures CopyNeeds(s.m, d0) == 67 && Lost(s', lo) == Lost(s, lo) + {s.fl[65]} && s.fl[65] !in Lost(s, lo)
  {
    hide Partition, Lost, EntryAt;
    OneLeaf(s.m, d0, NENTRIES);
    OneTable(s.m, d0, KPDE);
    assert UserNeeds(s.m, d0, 0) == 0;
    assert CopyLoses(s.m, d0, 66);
    LostExactly(s, s', Copy(d0, d, own), lo);
  }

  lemma {:induction false} OneLeaf(m: Mem, d0: nat, j: nat)
    requires d0 < NPAGES && 0 < j <= NENTRIES
    requires forall y :: 0 <= y < NENTRIES ==> (Present(EntryAt(m, d0, 0, y)) <==> y == 0)
    ensures LeafCount(m, d0, 0, j) == 1
    decreases j
  {
    hide EntryAt;
    if j > 1 { OneLeaf(m, d0, j - 1); }
  }

  lemma {:induction false} EmptyRow(m: Mem, d0: nat, i: nat, j: nat)
    requires d0 < NPAGES && i < NENTRIES && j <= NENTRIES
    requires forall y :: 0 <= y < NENTRIES ==> !Present(EntryAt(m, d0, i, y))
    ensures LeafCount(m, d0, i, j) == 0
    decreases j
  {
    hide EntryAt;
    if j > 0 { EmptyRow(m, d0, i, j - 1); }
  }

  lemma {:induction false} OneTable(m: Mem, d0: nat, i: nat)
    requires d0 < NPAGES && 0 < i <= KPDE && LeafCount(m, d0, 0, NENTRIES) == 1
    requires forall x, y :: 0 < x < KPDE && 0 <= y < NENTRIES ==> !Present(EntryAt(m, d0, x, y))
    ensures UserNeeds(m, d0, i) == 2
    decreases i
  {
    hide EntryAt, LeafCount;
    if i > 1 {
      OneTable(m, d0, i - 1);
      EmptyRow(m, d0, i - 1, NENTRIES);
    } else {
      assert UserNeeds(m, d0, 0) == 0;
    }
  }

  // Runs

  /** Right after kallocinit: every page is free. */
  ghost predicate Boot(s: Pool, lo: nat) {
    && FreeDistinct(s.fl, lo) && (forall p :: lo <= p < NPAGES ==> p in s.fl) && s.spaces == map[] && s.other == {}
  }

  ghost predicate Run(ss: seq<Pool>, ops: seq<Op>, lo: nat) {
    |ss| == |ops| + 1 && Boot(ss[0], lo) && forall i :: 0 <= i < |ops| ==> Step(ss[i], ss[i + 1], ops[i], lo)
  }

  /**
   Over every run no page is in two places; and every page is in one if and only if no call so far was
   made in a state in which it loses pages.
   */
  lemma {:induction false} PagesConserved(ss: seq<Pool>, ops: seq<Op>, lo: nat, n: nat)
    requires Run(ss, ops, lo) && n <= |ops|
    ensures Partition(ss[n], lo)
    ensures Lost(ss[n], lo) == {} <==> forall i :: 0 <= i < n ==> LostBy(ss[i], ops[i]) == {}
    decreases n
  {
    hide Step, LostBy;
    if n == 0 {
      assert Partition(ss[0], lo);
    } else {
      hide Partition, Boot, Lost;
      PagesConserved(ss, ops, lo, n - 1);
      assert ss[n - 1 + 1] == ss[n];
      StepKeeps(ss[n - 1], ss[n], ops[n - 1], lo);
      LostExactly(ss[n - 1], ss[n], ops[n - 1], lo);
    }
  }

  /** As long as there are pages for whatever is asked, every page is somewhere. */
  lemma ConservedWithEnough(ss: seq<Pool>, ops: seq<Op>, lo: nat, n: nat)
    requires Run(ss, ops, lo) && n <= |ops| && forall i :: 0 <= i < n ==> Enough(ss[i], ops[i])
    ensures Lost(ss[n], lo) == {}
  {
    hide Step, Enough, LostBy, Lost;
    forall i | 0 <= i < n ensures LostBy(ss[i], ops[i]) == {} {
      EnoughLosesNothing(ss[i], ops[i]);
    }
    PagesConserved(ss, ops, lo, n);
  }

  // The operations themselves are such steps

  lemma DistinctOf(mc: Machine)
    requires mc.Valid()
    ensures FreeDistinct(mc.fl, mc.lo)
  {
    mc.DistinctFree();
  }

  lemma SpaceParts(s: Pool, lo: nat, d: nat)
    requires Partition(s, lo) && d in s.spaces
    ensures SpaceOk(s.m, d, s.spaces[d]) && Disjoint(s.spaces[d], s.fl) && forall p :: p in s.spaces[d] ==> lo <= p
    ensures d < NPAGES
  {
    SpaceIsDir(s.m, d, s.spaces[d]);
  }

  class Pages {
    const mc: Machine
    ghost var spaces: map<nat, Owner>
    ghost var other: set<nat>

    ghost function State(): Pool
      requires mc.mem.Length == NPAGES
      reads this, mc, mc.mem
    {
      Pool(mc.M(), mc.fl, spaces, other)
    }

    ghost predicate Valid()
      reads this, mc, mc.mem
    {
      mc.Valid() && Partition(State(), mc.lo)
    }

    /** kallocinit at boot. */
    constructor (newend: nat)
      requires newend <= NPAGES
      ensures Valid() && mc.lo == newend && Boot(State(), newend) && fresh(mc) && fresh(mc.mem)
    {
      mc := new Machine(newend);
      spaces, other := map[], {};
      new;
      mc.Kallocinit();
      DistinctOf(mc);
    }

    /** A page for a kernel stack or a pipe; 0 when there is none. */
    method TakePage() returns (v: u32)
      requires Valid()
      modifies this, mc
      ensures Valid() && Step(old(State()), State(), Take, mc.lo)
      ensures v == if old(mc.fl) == [] then 0 else Kva(old(mc.fl)[0])
    {
      hide Partition, FreeListOk;
      ghost var s := State();
      v := mc.Kalloc1();
      if v != 0 {
        other := other + {s.fl[0]};
      }
      StepKeeps(s, State(), Take, mc.lo);
    }

    method GivePage(p: nat)
      requires Valid() && p in other
      modifies this, mc, mc.mem
      ensures Valid() && Step(old(State()), State(), Give(p), mc.lo)
    {
      ghost var s := State();
      assert mc.lo <= p < NPAGES && p !in mc.fl;
      hide Partition, FreeListOk;
      mc.Kfree1(p);
      other := other - {p};
      StepKeeps(s, State(), Give(p), mc.lo);
    }

    /** setupkvm. */
    method SetUp(data: u32) returns (d: int, ghost own: Owner)
      requires Valid() && DataOk(data)
      modifies this, mc, mc.mem
      ensures Valid() && (d != -1 <==> KERNEL_NEEDS <= |old(mc.fl)|)
      ensures d >= -1 && Step(old(State()), State(), Setup(if d == -1 then 0 else d, own), mc.lo)
    {
      hide Partition, FreeListOk, NewSpace;
      ghost var s := State();
      d, own := Setupkvm(mc, data);
      if d != -1 {
        spaces := spaces[d := own];
      }
      StepKeeps(s, State(), Setup(if d == -1 then 0 else d, own), mc.lo);
    }

    /** copyuvm. */
    method CopySpaceOf(d0: nat, data: u32) returns (d: int, ghost own: Owner)
      requires Valid() && DataOk(data) && d0 in spaces && d0 < NPAGES
      modifies this, mc, mc.mem
      ensures Valid() && (d != -1 <==> CopyNeeds(old(mc.M()), d0) <= |old(mc.fl)|)
      ensures d >= -1 && Step(old(State()), State(), Copy(d0, if d == -1 then 0 else d, own), mc.lo)
    {
      hide Partition, FreeListOk, NewSpace, SpaceOk, Disjoint, KernelHalf, CopiedAt, CopyNeeds, LostPage;
      ghost var s := State();
      SpaceParts(s, mc.lo, d0);
      d, own := Copyuvm(mc, d0, data, spaces[d0]);
      if d != -1 {
        spaces := spaces[d := own];
      }
      DistinctOf(mc);
      StepKeeps(s, State(), Copy(d0, if d == -1 then 0 else d, own), mc.lo);
    }

    /** allocuvm. */
    method GrowBy(d: nat, addr: u32, len: u32) returns (r: nat, panic: bool, ghost own: Owner, ghost k: nat)
      requires Valid() && d in spaces && d < NPAGES
      modifies this, mc, mc.mem
      ensures !panic ==> Valid()
      ensures RangeEnd(addr, len) > KBASE ==> !panic && r == 0 && State() == old(State())
      ensures RangeEnd(addr, len) <= KBASE ==>
        var v0, n := addr / PGSIZE, RangePages(addr, len);
        && v0 + n <= NVPAGES && (panic <==> Remaps(old(mc.M()), d, v0, n, |old(mc.fl)|))
        && (!panic ==> Step(old(State()), State(), Grow(d, own, v0, n, k), mc.lo))
    {
      hide Partition, FreeListOk, SpaceOk, Disjoint, Grew, StoppedAt, RangePages, GrewEntries, LastTableMissing, Rest;
      hide Needs, Remaps;
      ghost var s := State();
      SpaceParts(s, mc.lo, d);
      r, panic, own, k := Allocuvm(mc, d, addr, len, spaces[d]);
      if !panic {
        spaces := spaces[d := own];
        if RangeEnd(addr, len) <= KBASE {
          StepKeeps(s, State(), Grow(d, own, addr / PGSIZE, RangePages(addr, len), k), mc.lo);
        } else {
          assert spaces == s.spaces;
        }
      }
    }

    /** freevm. */
    method Drop(d: nat)
      requires Valid() && d in spaces
      modifies this, mc, mc.mem
      ensures Valid() && Step(old(State()), State(), Free(d), mc.lo) && |mc.fl| == |old(mc.fl)| + |old(spaces)[d]|
    {
      hide Partition, FreeListOk, SpaceOk, Disjoint;
      ghost var s := State();
      SpaceParts(s, mc.lo, d);
      Freevm(mc, d, spaces[d]);
      DistinctOf(mc);
      spaces := spaces - {d};
      StepKeeps(s, State(), Free(d), mc.lo);
    }

    /** With CopyNeeds free pages a space is copied; freed then, it gives back every page. */
    method CopyThenDrop(d0: nat, data: u32) returns (d: int)
      requires Valid() && DataOk(data) && d0 in spaces && d0 < NPAGES
      modifies this, mc, mc.mem
      ensures Valid() && (d != -1 <==> CopyNeeds(old(mc.M()), d0) <= |old(mc.fl)|)
      ensures d != -1 ==>
        && ToSet(mc.fl) == ToSet(old(mc.fl)) && |mc.fl| == |old(mc.fl)|
        && spaces == old(spaces) && other == old(other)
    {
      hide Partition, FreeListOk, SpaceOk, Disjoint, Taken, ToSet, CopyNeeds;
      ghost var s := State();
      DistinctOf(mc);
      ghost var own;
      d, own := CopySpaceOf(d0, data);
      if d != -1 {
        ghost var s1 := State();
        NewDir(s, s1, d, own, mc.lo);
        Drop(d);
        FreeRestores(s.fl, s1.fl, mc.fl, s1.spaces[d]);
        assert spaces == s.spaces;
      }
    }
  }

  lemma NewDir(s: Pool, s': Pool, d: nat, own: Owner, lo: nat)
    requires Partition(s, lo) && Built(s, s', d, own)
    ensures d !in s.spaces && d in s'.spaces && s'.spaces[d] == own && Taken(own.Keys, s.fl, s'.fl)
  {
    hide Partition;
    BuiltKeeps(s, s', d, own, lo);
  }
}
