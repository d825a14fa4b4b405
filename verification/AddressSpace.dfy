/** Whole address spaces: setupkvm and freevm (`mm/vm.c`). */
module AddressSpace {
  import opened Words
  import opened Paging
  import opened Vm

  // Every page a space takes comes off the free list, is held in exactly one slot of its directory, and goes
  // back exactly once.

  function ToSet(s: seq<nat>): set<nat> { set p | p in s }

  /** The slots that the new tables of a run of mappages fill. */
  ghost function TableSlots(fl: seq<nat>, tabs: seq<nat>): Owner
    requires |tabs| <= |fl| && forall q, r :: 0 <= q < r < |fl| ==> fl[q] != fl[r]
  {
    map q | 0 <= q < |tabs| :: fl[q] := Table(tabs[q])
  }

  /** An owner map and a free list have no page in common. */
  ghost predicate Disjoint(own: Owner, fl: seq<nat>) {
    forall p :: p in own ==> p !in fl
  }

  lemma SpaceApart(m: Mem, d: nat, own: Owner, fl: seq<nat>)
    requires SpaceOk(m, d, own) && Disjoint(own, fl)
    ensures Apart(m, d, fl)
  {
    SpaceIsDir(m, d, own);
    forall i | 0 <= i < NENTRIES && Present(m[d][i]) ensures Ppn(m[d][i]) !in fl {
      assert PageAt(m, d, Table(i)) == Ppn(m[d][i]);
    }
  }

  /** What `d` owns after mappages, when `q` is the page mapped at user entry `(i, j)`, or -1 for a kernel range. */
  ghost function Grown(own: Owner, fl: seq<nat>, tabs: seq<nat>, q: int, i: nat, j: nat): Owner
    requires |tabs| <= |fl| && forall a, b :: 0 <= a < b < |fl| ==> fl[a] != fl[b]
  {
    own + TableSlots(fl, tabs) + if q >= 0 then map[q := Leaf(i, j)] else map[]
  }

  /** User entries are as they were, except `(i, j)`, which now holds page `q`. */
  ghost predicate UserChange(m: Mem, n: Mem, d: nat, q: int, i: nat, j: nat)
    requires d < NPAGES
  {
    && (forall x, y :: 0 <= x < KPDE && 0 <= y < NENTRIES && !(q >= 0 && x == i && y == j) ==>
          EntryAt(n, d, x, y) == EntryAt(m, d, x, y))
    && (q >= 0 ==> i < KPDE && j < NENTRIES && !Present(EntryAt(m, d, i, j))
                   && Present(EntryAt(n, d, i, j)) && Ppn(EntryAt(n, d, i, j)) == q)
  }

  lemma SlotOwned(m: Mem, d: nat, own: Owner, s: Slot)
    requires SpaceOk(m, d, own) && SlotOk(s) && PageAt(m, d, s) != -1
    ensures 0 <= PageAt(m, d, s) < NPAGES && PageAt(m, d, s) in own && own[PageAt(m, d, s)] == s
  {
  }

  lemma OwnedSlot(m: Mem, d: nat, own: Owner, p: nat)
    requires SpaceOk(m, d, own) && p in own
    ensures d < NPAGES && p < NPAGES && SlotOk(own[p]) && PageAt(m, d, own[p]) == p
  {
  }

  /** A slot that mappages did not fill holds what it held. */
  lemma SlotKept(m: Mem, n: Mem, d: nat, fl: seq<nat>, tabs: seq<nat>, q: int, i: nat, j: nat, s: Slot)
    requires d < NPAGES && NewTables(m, n, d, fl, tabs) && UserChange(m, n, d, q, i, j) && SlotOk(s)
    requires s.Table? ==> s.i !in tabs
    requires q >= 0 ==> s != Leaf(i, j)
    ensures PageAt(n, d, s) == PageAt(m, d, s)
  {
  }

  lemma GrownPage(m: Mem, n: Mem, d: nat, own: Owner, fl: seq<nat>, tabs: seq<nat>, q: int, i: nat, j: nat, p: nat)
    requires d < NPAGES && SpaceOk(m, d, own) && Disjoint(own, fl)
    requires forall a :: 0 <= a < |fl| ==> fl[a] < NPAGES
    requires forall a, b :: 0 <= a < b < |fl| ==> fl[a] != fl[b]
    requires NewTables(m, n, d, fl, tabs) && UserChange(m, n, d, q, i, j)
    requires q >= 0 ==> q < NPAGES && q !in own && q !in fl
    requires p in Grown(own, fl, tabs, q, i, j)
    ensures var own' := Grown(own, fl, tabs, q, i, j); p < NPAGES && SlotOk(own'[p]) && PageAt(n, d, own'[p]) == p
  {
    hide SpaceOk;
    var own' := Grown(own, fl, tabs, q, i, j);
    if p != q && p !in TableSlots(fl, tabs) {
      OwnedSlot(m, d, own, p);
      assert PageAt(m, d, own[p]) != -1;
      SlotKept(m, n, d, fl, tabs, q, i, j, own[p]);
    }
  }

  lemma GrownSlot(m: Mem, n: Mem, d: nat, own: Owner, fl: seq<nat>, tabs: seq<nat>, q: int, i: nat, j: nat, s: Slot)
    requires d < NPAGES && SpaceOk(m, d, own) && Disjoint(own, fl)
    requires forall a :: 0 <= a < |fl| ==> fl[a] < NPAGES
    requires forall a, b :: 0 <= a < b < |fl| ==> fl[a] != fl[b]
    requires NewTables(m, n, d, fl, tabs) && UserChange(m, n, d, q, i, j)
    requires q >= 0 ==> q < NPAGES && q !in own && q !in fl
    requires SlotOk(s) && PageAt(n, d, s) != -1
    ensures var own' := Grown(own, fl, tabs, q, i, j); PageAt(n, d, s) in own' && own'[PageAt(n, d, s)] == s
  {
    hide SpaceOk;
    if s.Table? && s.i in tabs {
      var a :| 0 <= a < |tabs| && tabs[a] == s.i;
      NewTableSlot(m, n, d, fl, tabs, a);
    } else if s == Leaf(i, j) && q >= 0 {
      assert PageAt(n, d, s) == q;
    } else {
      SlotKept(m, n, d, fl, tabs, q, i, j, s);
      SlotOwned(m, d, own, s);
      hide NewTables, UserChange;
      var p := PageAt(n, d, s);
      assert p in own && p !in fl;
      assert p !in TableSlots(fl, tabs);
    }
  }

  lemma NewTableSlot(m: Mem, n: Mem, d: nat, fl: seq<nat>, tabs: seq<nat>, a: nat)
    requires d < NPAGES && NewTables(m, n, d, fl, tabs) && a < |tabs|
    requires forall x, y :: 0 <= x < y < |fl| ==> fl[x] != fl[y]
    ensures PageAt(n, d, Table(tabs[a])) == fl[a]
    ensures fl[a] in TableSlots(fl, tabs) && TableSlots(fl, tabs)[fl[a]] == Table(tabs[a])
  {
  }

  lemma GrownOk(m: Mem, n: Mem, d: nat, own: Owner, fl: seq<nat>, tabs: seq<nat>, q: int, i: nat, j: nat)
    requires SpaceOk(m, d, own) && Disjoint(own, fl)
    requires forall a :: 0 <= a < |fl| ==> fl[a] < NPAGES
    requires forall a, b :: 0 <= a < b < |fl| ==> fl[a] != fl[b]
    requires NewTables(m, n, d, fl, tabs) && UserChange(m, n, d, q, i, j)
    requires q >= 0 ==> q < NPAGES && q !in own && q !in fl
    ensures SpaceOk(n, d, Grown(own, fl, tabs, q, i, j))
    ensures Disjoint(Grown(own, fl, tabs, q, i, j), fl[|tabs|..])
  {
    var own' := Grown(own, fl, tabs, q, i, j);
    assert SpaceOk(n, d, own') by {
      forall p | p in own' ensures p < NPAGES && SlotOk(own'[p]) && PageAt(n, d, own'[p]) == p {
        GrownPage(m, n, d, own, fl, tabs, q, i, j, p);
      }
      forall s | SlotOk(s) && PageAt(n, d, s) != -1 ensures PageAt(n, d, s) in own' && own'[PageAt(n, d, s)] == s {
        GrownSlot(m, n, d, own, fl, tabs, q, i, j, s);
      }
    }
  }

  // Giving everything back

  /** Slot `s` comes before position `(i, j)` in the order in which freevm visits the slots. */
  predicate Before(s: Slot, i: nat, j: nat) {
    match s
    case Dir => false
    case Table(x) => x < i
    case Leaf(x, y) => x < i || (x == i && y < j)
  }

  /** freevm has freed the pages in the slots before `(i, j)` and touched nothing else. */
  ghost predicate Freeing(m0: Mem, m: Mem, own: Owner, fl0: seq<nat>, fl: seq<nat>, i: nat, j: nat) {
    && |fl| >= |fl0| && fl[|fl| - |fl0|..] == fl0
    && (forall p :: p in fl[..|fl| - |fl0|] <==> p in own && Before(own[p], i, j))
    && (forall p :: 0 <= p < NPAGES && !(p in own && Before(own[p], i, j)) ==> m[p] == m0[p])
  }

  lemma FreedOne(m0: Mem, m: Mem, n: Mem, own: Owner, fl0: seq<nat>, fl: seq<nat>, i: nat, j: nat, p: nat, x: nat,
        y: nat)
    requires Freeing(m0, m, own, fl0, fl, i, j) && p in own
    requires forall q :: q in own ==> (Before(own[q], x, y) <==> Before(own[q], i, j) || q == p)
    requires forall q :: 0 <= q < NPAGES && q != p ==> n[q] == m[q]
    ensures Freeing(m0, n, own, fl0, [p] + fl, x, y)
  {
    var l := [p] + fl;
    assert l[..|l| - |fl0|] == [p] + fl[..|fl| - |fl0|];
    assert l[|l| - |fl0|..] == fl[|fl| - |fl0|..];
  }

  lemma LeafStep(m: Mem, d: nat, own: Owner, i: nat, j: nat)
    requires d < NPAGES && SpaceOk(m, d, own) && i < KPDE && j < NENTRIES
    ensures var p := PageAt(m, d, Leaf(i, j));
      && (p != -1 ==> 0 <= p < NPAGES && p in own && own[p] == Leaf(i, j))
      && forall q :: q in own ==> (Before(own[q], i, j + 1) <==> Before(own[q], i, j) || q == p)
  {
    hide SpaceOk;
    var p := PageAt(m, d, Leaf(i, j));
    if p != -1 {
      SlotOwned(m, d, own, Leaf(i, j));
    }
    forall q | q in own ensures Before(own[q], i, j + 1) <==> Before(own[q], i, j) || q == p {
      OwnedSlot(m, d, own, q);
    }
  }

  lemma TableStep(m: Mem, d: nat, own: Owner, i: nat)
    requires d < NPAGES && SpaceOk(m, d, own) && i < NENTRIES
    ensures var t := PageAt(m, d, Table(i));
      && (t != -1 ==> 0 <= t < NPAGES && t in own && own[t] == Table(i))
      && (forall q :: q in own ==>
            (Before(own[q], i + 1, 0) <==> Before(own[q], i, if i < KPDE && t != -1 then NENTRIES else 0) || q == t))
  {
    hide SpaceOk;
    var t := PageAt(m, d, Table(i));
    if t != -1 {
      SlotOwned(m, d, own, Table(i));
    }
    forall q | q in own
      ensures Before(own[q], i + 1, 0) <==> Before(own[q], i, if i < KPDE && t != -1 then NENTRIES else 0) || q == t
    {
      OwnedSlot(m, d, own, q);
    }
  }

  lemma FreeingStays(m0: Mem, m: Mem, own: Owner, fl0: seq<nat>, fl: seq<nat>, i: nat, j: nat, x: nat, y: nat)
    requires Freeing(m0, m, own, fl0, fl, i, j)
    requires forall q :: q in own ==> (Before(own[q], x, y) <==> Before(own[q], i, j))
    ensures Freeing(m0, m, own, fl0, fl, x, y)
  {
  }

  /** A page that is still to be freed is not on the list, and is unchanged. */
  lemma NotYetFreed(m0: Mem, m: Mem, own: Owner, fl0: seq<nat>, fl: seq<nat>, i: nat, j: nat, p: nat)
    requires Freeing(m0, m, own, fl0, fl, i, j) && Disjoint(own, fl0) && p in own && p < NPAGES && !Before(own[p], i, j)
    ensures p !in fl && m[p] == m0[p]
  {
    assert fl == fl[..|fl| - |fl0|] + fl[|fl| - |fl0|..];
  }

  /** When only the directory is left, everything else has been freed. */
  lemma AllFreed(m0: Mem, m: Mem, d: nat, own: Owner, fl0: seq<nat>, fl: seq<nat>, lo: nat, head: u32)
    requires SpaceOk(m0, d, own) && Freeing(m0, m, own, fl0, fl, NENTRIES, 0) && Disjoint(own, fl0)
    requires FreeListOk(m, head, fl, lo)
    ensures ToSet([d] + fl) == ToSet(fl0) + own.Keys && |fl| + 1 == |fl0| + |own|
    ensures forall p :: 0 <= p < NPAGES && p !in own ==> m[p] == m0[p]
  {
    SpaceIsDir(m0, d, own);
    hide SpaceOk;
    forall q | q in own ensures Before(own[q], NENTRIES, 0) <==> q != d {
      OwnedSlot(m0, d, own, q);
    }
    var freed := FreedPrefix(m0, m, d, own, fl0, fl);
    forall k, l | 0 <= k < l < |freed| ensures freed[k] != freed[l] {
      assert fl[k] != fl[l];
    }
    SetSize(freed);
    JoinSets(d, fl, freed, fl0, own.Keys);
    assert |own.Keys| == |own|;
  }

  lemma FreedPrefix(m0: Mem, m: Mem, d: nat, own: Owner, fl0: seq<nat>, fl: seq<nat>) returns (freed: seq<nat>)
    requires Freeing(m0, m, own, fl0, fl, NENTRIES, 0) && d in own
    requires forall q :: q in own ==> (Before(own[q], NENTRIES, 0) <==> q != d)
    ensures fl == freed + fl0 && ToSet(freed) == own.Keys - {d}
    ensures forall p :: 0 <= p < NPAGES && p !in own ==> m[p] == m0[p]
  {
    freed := fl[..|fl| - |fl0|];
  }

  lemma JoinSets(d: nat, fl: seq<nat>, freed: seq<nat>, fl0: seq<nat>, keys: set<nat>)
    requires fl == freed + fl0 && ToSet(freed) == keys - {d} && d in keys
    ensures ToSet([d] + fl) == ToSet(fl0) + keys
  {
    forall p ensures p in [d] + fl <==> p == d || p in freed || p in fl0 {}
    forall p ensures p in freed <==> p in keys && p != d {
      assert p in ToSet(freed) <==> p in keys - {d};
    }
  }

  lemma {:induction false} SetSize(s: seq<nat>)
    requires forall k, l :: 0 <= k < l < |s| ==> s[k] != s[l]
    ensures |ToSet(s)| == |s|
  {
    if s != [] {
      SetSize(s[1..]);
      assert ToSet(s) == ToSet(s[1..]) + {s[0]};
    }
  }

  method Freevm(mc: Machine, d: nat, ghost own: Owner)
    requires mc.Valid() && SpaceOk(mc.M(), d, own) && Disjoint(own, mc.fl)
    requires forall p :: p in own ==> mc.lo <= p
    modifies mc, mc.mem
    ensures mc.Valid()
    ensures ToSet(mc.fl) == ToSet(old(mc.fl)) + own.Keys && |mc.fl| == |old(mc.fl)| + |own|
    ensures forall p :: 0 <= p < NPAGES && p !in own ==> mc.M()[p] == old(mc.M())[p]
  {
    hide SpaceOk, FreeListOk, Freeing;
    ghost var m0, fl0 := mc.M(), mc.fl;
    SpaceIsDir(m0, d, own);
    FreeingStart(m0, own, fl0);
    var i := 0;
    while i < NENTRIES
      invariant 0 <= i <= NENTRIES && mc.Valid() && Freeing(m0, mc.M(), own, fl0, mc.fl, i, 0)
    {
      TableStep(m0, d, own, i);
      NotYetFreed(m0, mc.M(), own, fl0, mc.fl, i, 0, d);
      if Present(mc.mem[d][i]) {
        var t := Ppn(mc.mem[d][i]);
        if i < KPDE {
          FreeLeaves(mc, d, i, t, own, m0, fl0);
        }
        ghost var j := if i < KPDE then NENTRIES else 0;
        ghost var m1, fl1 := mc.M(), mc.fl;
        NotYetFreed(m0, m1, own, fl0, fl1, i, j, t);
        mc.Kfree1(t);
        FreedOne(m0, m1, mc.M(), own, fl0, fl1, i, j, t, i + 1, 0);
      } else {
        FreeingStays(m0, mc.M(), own, fl0, mc.fl, i, 0, i + 1, 0);
      }
      i := i + 1;
    }
    NotYetFreed(m0, mc.M(), own, fl0, mc.fl, i, 0, d);
    AllFreed(m0, mc.M(), d, own, fl0, mc.fl, mc.lo, mc.kfreelist);
    mc.Kfree1(d);
  }

  lemma FreeingStart(m0: Mem, own: Owner, fl0: seq<nat>)
    ensures Freeing(m0, m0, own, fl0, fl0, 0, 0)
  {
    assert fl0[0..] == fl0;
  }

  /** The inner loop of freevm: the user pages of the table `t` of directory entry `i`. */
  method FreeLeaves(mc: Machine, d: nat, i: nat, t: nat, ghost own: Owner, ghost m0: Mem, ghost fl0: seq<nat>)
    requires mc.Valid() && SpaceOk(m0, d, own) && Disjoint(own, fl0) && forall p :: p in own ==> mc.lo <= p
    requires d < NPAGES && i < KPDE && t < NPAGES && PageAt(m0, d, Table(i)) == t && t in own && own[t] == Table(i)
    requires Freeing(m0, mc.M(), own, fl0, mc.fl, i, 0)
    modifies mc, mc.mem
    ensures mc.Valid() && Freeing(m0, mc.M(), own, fl0, mc.fl, i, NENTRIES)
  {
    hide SpaceOk, FreeListOk, Freeing;
    var j := 0;
    while j < NENTRIES
      invariant 0 <= j <= NENTRIES && mc.Valid() && Freeing(m0, mc.M(), own, fl0, mc.fl, i, j)
    {
      LeafStep(m0, d, own, i, j);
      NotYetFreed(m0, mc.M(), own, fl0, mc.fl, i, j, t);
      if Present(mc.mem[t][j]) {
        var p := Ppn(mc.mem[t][j]);
        ghost var m1, fl1 := mc.M(), mc.fl;
        NotYetFreed(m0, m1, own, fl0, fl1, i, j, p);
        mc.Kfree1(p);
        FreedOne(m0, m1, mc.M(), own, fl0, fl1, i, j, p, i, j + 1);
      } else {
        FreeingStays(m0, mc.M(), own, fl0, mc.fl, i, j, i, j + 1);
      }
      j := j + 1;
    }
  }

  // Building the kernel's half

  /** `keys` are the pages taken off the front of `fl0`; `fl` is the rest. */
  ghost predicate Taken(keys: set<nat>, fl0: seq<nat>, fl: seq<nat>) {
    && |fl| <= |fl0| && fl == fl0[|fl0| - |fl|..]
    && keys == ToSet(fl0[..|fl0| - |fl|])
  }

  lemma TakeMore(keys: set<nat>, fl0: seq<nat>, fl: seq<nat>, k: nat)
    requires Taken(keys, fl0, fl) && k <= |fl|
    ensures Taken(keys + ToSet(fl[..k]), fl0, fl[k..])
  {
    var n := |fl0| - |fl|;
    assert fl0[..n + k] == fl0[..n] + fl[..k];
    ToSetJoin(fl0[..n], fl[..k]);
  }

  lemma GrownPages(own: Owner, fl: seq<nat>, tabs: seq<nat>, q: int, i: nat, j: nat)
    requires |tabs| <= |fl| && forall a, b :: 0 <= a < b < |fl| ==> fl[a] != fl[b]
    ensures Grown(own, fl, tabs, q, i, j).Keys == own.Keys + (if q >= 0 then {q as nat} else {}) + ToSet(fl[..|tabs|])
  {
    TableSlotPages(fl, tabs);
  }

  lemma TakenGrows(own: Owner, fl0: seq<nat>, fl: seq<nat>, tabs: seq<nat>, q: int, i: nat, j: nat, r: seq<nat>)
    requires Taken(own.Keys, fl0, fl)
    requires q >= 0 ==> fl != [] && q == fl[0]
    requires r == if q >= 0 then fl[1..] else fl
    requires |tabs| <= |r| && forall a, b :: 0 <= a < b < |r| ==> r[a] != r[b]
    ensures Taken(Grown(own, r, tabs, q, i, j).Keys, fl0, r[|tabs|..])
  {
    GrownPages(own, r, tabs, q, i, j);
    var keys := own.Keys;
    if q >= 0 {
      TakeMore(keys, fl0, fl, 1);
      assert fl[..1] == [q];
      keys := keys + {q};
      assert keys == own.Keys + ToSet(fl[..1]);
    }
    TakeMore(keys, fl0, r, |tabs|);
  }

  lemma TableSlotPages(fl: seq<nat>, tabs: seq<nat>)
    requires |tabs| <= |fl| && forall a, b :: 0 <= a < b < |fl| ==> fl[a] != fl[b]
    ensures TableSlots(fl, tabs).Keys == ToSet(fl[..|tabs|])
  {
    forall p | p in fl[..|tabs|] ensures p in TableSlots(fl, tabs) {
      var a :| 0 <= a < |fl[..|tabs|]| && fl[..|tabs|][a] == p;
      assert fl[a] == p;
    }
    forall p | p in TableSlots(fl, tabs) ensures p in fl[..|tabs|] {
      var a :| 0 <= a < |tabs| && fl[a] == p;
      assert fl[..|tabs|][a] == p;
    }
  }

  lemma ToSetJoin(a: seq<nat>, b: seq<nat>)
    ensures ToSet(a + b) == ToSet(a) + ToSet(b)
  {
  }

  lemma TakenDisjoint(own: Owner, fl0: seq<nat>, fl: seq<nat>)
    requires Taken(own.Keys, fl0, fl)
    requires forall a, b :: 0 <= a < b < |fl0| ==> fl0[a] != fl0[b]
    ensures Disjoint(own, fl)
  {
    forall p | p in own ensures p !in fl {
      assert p in ToSet(fl0[..|fl0| - |fl|]);
      var a :| 0 <= a < |fl0| - |fl| && fl0[a] == p;
    }
  }

  /** A range of kernel addresses: `n` pages from virtual page `v0` to physical page `pp`. */
  datatype Range = Range(v0: nat, n: nat, pp: nat, perm: nat)

  const KV := KBASE / PGSIZE
  const TEXTV := (KBASE + EXTMEM) / PGSIZE
  const TOPV := (KBASE + PHYSTOP) / PGSIZE
  const DEVV := DEVSPACE / PGSIZE

  /** `data`, the page-aligned end of the kernel's text, lies between KLINK and P2V(PHYSTOP). */
  predicate DataOk(data: u32) { KBASE + EXTMEM <= data <= KBASE + PHYSTOP && data % PGSIZE == 0 }

  /** The table kmap, in pages. */
  function KmapRange(data: u32, k: nat): (r: Range)
    requires DataOk(data) && k < 4
    ensures KV <= r.v0 && r.v0 + r.n <= NVPAGES && r.pp < NVPAGES && Flags(r.perm)
  {
    match k
    case 0 => Range(KV, EXTMEM / PGSIZE, 0, PTE_W)
    case 1 => Range(TEXTV, data / PGSIZE - TEXTV, EXTMEM / PGSIZE, 0)
    case 2 => Range(data / PGSIZE, TOPV - data / PGSIZE, data / PGSIZE - KV, PTE_W)
    case _ => Range(DEVV, NVPAGES - DEVV, DEVV, PTE_W)
  }

  /** The address, size and physical address that kmap holds for range `k`. */
  function KmapBytes(data: u32, k: nat): (r: (u32, u32, u32))
    requires DataOk(data) && k < 4
  {
    match k
    case 0 => (KBASE, EXTMEM, 0)
    case 1 => (KBASE + EXTMEM, data - (KBASE + EXTMEM), EXTMEM)
    case 2 => (data, KBASE + PHYSTOP - data, data - KBASE)
    case _ => (DEVSPACE, (0 - DEVSPACE) % TWO32, DEVSPACE)
  }

  /** A range from page `v` up to page `w`. */
  lemma CountPages(v: nat, w: nat)
    requires 0 < v <= w < NVPAGES
    ensures PageCount(v * PGSIZE, (w - v) * PGSIZE) == w - v
  {
    assert (v * PGSIZE + (w - v) * PGSIZE - 1) % TWO32 == w * PGSIZE - 1;
    assert (w * PGSIZE - 1) / PGSIZE == w - 1;
  }

  lemma KmapCounts(data: u32, k: nat)
    requires DataOk(data) && k < 4
    ensures var (va, size, pa), r := KmapBytes(data, k), KmapRange(data, k);
      && va / PGSIZE == r.v0 && PageCount(va, size) == r.n && pa / PGSIZE == r.pp && pa % PGSIZE == 0
      && KmapPerm(k) == r.perm
  {
    hide PageCount, LastPage;
    var q := DataPage(data);
    match k
    case 0 => CountPages(KV, TEXTV);
    case 1 => CountPages(TEXTV, q);
    case 2 => CountPages(q, TOPV);
    case _ => CountDevices();
  }

  lemma DataPage(data: u32) returns (q: nat)
    requires DataOk(data)
    ensures data == q * PGSIZE && data / PGSIZE == q && TEXTV <= q <= TOPV
    ensures (data - KBASE) / PGSIZE == q - KV && (data - KBASE) % PGSIZE == 0
  {
    q := data / PGSIZE;
    assert data - KBASE == (q - KV) * PGSIZE;
  }

  lemma CountDevices()
    ensures PageCount(DEVSPACE, (0 - DEVSPACE) % TWO32) == NVPAGES - DEVV
  {
  }

  /** The kernel's entry for virtual page `v` after the first `k` ranges of kmap. */
  function KernelEntry(data: u32, k: nat, v: nat): u32
    requires DataOk(data) && k <= 4
  {
    if k == 0 then 0
    else
      var r := KmapRange(data, k - 1);
      if r.v0 <= v < r.v0 + r.n then PteFor(r.pp, v - r.v0, r.perm) else KernelEntry(data, k - 1, v)
  }

  /**
   setupkvm maps KBASE + x to x below PHYSTOP, device space to itself, and nothing else. All of it can be written
   but the kernel's text, and none of it can be touched from user mode.
   */
  lemma KernelMapping(data: u32, v: nat)
    requires DataOk(data) && v < NVPAGES
    ensures var e := KernelEntry(data, 4, v);
      if KV <= v < TOPV then e == (v - KV) * PGSIZE + (if TEXTV <= v < data / PGSIZE then 0x001 else 0x003)
      else if v >= DEVV then e == v * PGSIZE + 0x003
      else e == 0
    ensures !UserMode(KernelEntry(data, 4, v))
  {
    hide UserMode, PteFor;
    var q := DataPage(data);
    var e1, e2, e3 := KernelEntry(data, 1, v), KernelEntry(data, 2, v), KernelEntry(data, 3, v);
    assert e1 == if KV <= v < TEXTV then PteFor(0, v - KV, PTE_W) else 0 by { assert KernelEntry(data, 0, v) == 0; }
    assert e2 == if TEXTV <= v < q then PteFor(EXTMEM / PGSIZE, v - TEXTV, 0) else e1;
    assert e3 == if q <= v < TOPV then PteFor(q - KV, v - q, PTE_W) else e2;
    hide KmapRange, KernelEntry;
    NoUserBit(v);
    if v >= DEVV {
      PteIs(DEVV, v - DEVV, PTE_W);
    } else if KV <= v < TOPV {
      NoUserBit(v - KV);
      if v < TEXTV { PteIs(0, v - KV, PTE_W); }
      else if v < q { PteIs(EXTMEM / PGSIZE, v - TEXTV, 0); }
      else { PteIs(q - KV, v - q, PTE_W); }
    }
  }

  lemma PteIs(pp: nat, k: nat, perm: nat)
    requires pp + k < NVPAGES && Flags(perm)
    ensures PteFor(pp, k, perm) == (pp + k) * PGSIZE + perm + PTE_P
  {
  }

  lemma UserBit(p: nat)
    requires p < NVPAGES
    ensures UserMode(MakePte(p, PTE_W + PTE_U)) && MakePte(p, PTE_W + PTE_U) % PGSIZE == 0x007
  {
    var e := MakePte(p, PTE_W + PTE_U);
    assert e == 4 * (p * 1024 + 1) + 3;
    assert e / 4 == p * 1024 + 1;
    assert p * 1024 + 1 == 2 * (p * 512) + 1;
  }

  /** Nothing above KBASE can be touched from user mode. */
  lemma KernelShut(m: Mem, d: nat, data: u32)
    requires d < NPAGES && DataOk(data) && forall v :: KV <= v < NVPAGES ==> Entry(m, d, v) == KernelEntry(data, 4, v)
    ensures forall v :: KV <= v < NVPAGES ==> !UserMode(Entry(m, d, v))
  {
    hide UserMode, KernelEntry, Entry;
    forall v | KV <= v < NVPAGES ensures !UserMode(Entry(m, d, v)) {
      KernelMapping(data, v);
    }
  }

  lemma NoUserBit(p: nat)
    requires p < NVPAGES
    ensures !UserMode(p * PGSIZE + 0x001) && !UserMode(p * PGSIZE + 0x003) && !UserMode(0)
  {
    assert (p * PGSIZE + 1) / 4 == p * 1024 && (p * PGSIZE + 3) / 4 == p * 1024;
  }

  /** The ranges of kmap do not overlap, so mappages never finds an entry in use. */
  lemma KernelEntryFresh(data: u32, k: nat, v: nat)
    requires DataOk(data) && k < 4
    requires var r := KmapRange(data, k); r.v0 <= v < r.v0 + r.n
    ensures KernelEntry(data, k, v) == 0
  {
    assert KernelEntry(data, 0, v) == 0;
    if k >= 1 { assert KernelEntry(data, 1, v) == 0; }
    if k >= 2 { assert KernelEntry(data, 2, v) == 0; }
  }

  lemma FreshDir(m: Mem, d: nat, data: u32)
    requires d < NPAGES && m[d] == Filled(0) && DataOk(data)
    ensures SpaceOk(m, d, map[d := Dir]) && forall v :: 0 <= v < NVPAGES ==> Entry(m, d, v) == KernelEntry(data, 0, v)
  {
  }

  /** mappages on kernel addresses leaves the user entries alone. */
  lemma KernelRunUser(m: Mem, n: Mem, d: nat, v0: nat, k: nat, pp: nat, perm: nat)
    requires d < NPAGES && Flags(perm) && MapsRun(m, n, d, v0, k, pp, perm) && v0 >= KV
    ensures UserChange(m, n, d, -1, 0, 0)
  {
    forall x, y | 0 <= x < KPDE && 0 <= y < NENTRIES ensures EntryAt(n, d, x, y) == EntryAt(m, d, x, y) {
      var v := x * NENTRIES + y;
      assert v / NENTRIES == x && v % NENTRIES == y;
      assert Entry(n, d, v) == Entry(m, d, v);
    }
  }

  /** The state of a new address space `d`: the pages taken from `fl0` are its own, everything else is as in `m0`. */
  ghost predicate NewSpace(m0: Mem, m: Mem, d: nat, own: Owner, fl0: seq<nat>, fl: seq<nat>) {
    && SpaceOk(m, d, own) && Taken(own.Keys, fl0, fl)
    && forall p :: 0 <= p < NPAGES && p !in own ==> m[p] == m0[p]
  }

  // What it costs

  /** The tables of the kernel's half after the first `k` ranges of kmap: 56 below PHYSTOP and 8 for devices. */
  function KernelTables(data: u32, k: nat): nat
    requires DataOk(data) && k <= 4
  {
    match k
    case 0 => 0
    case 1 => 1
    case 2 => (data / PGSIZE - KV + NENTRIES - 1) / NENTRIES
    case 3 => (TOPV - KV) / NENTRIES
    case _ => (TOPV - KV) / NENTRIES + NENTRIES - DEVV / NENTRIES
  }

  /** The free pages that setupkvm takes: a directory and its tables. */
  const KERNEL_NEEDS := 65

  predicate KernelTable(data: u32, k: nat, i: nat)
    requires DataOk(data) && k <= 4
  {
    KPDE <= i < KPDE + KernelTables(data, if k < 3 then k else 3) || (k == 4 && i >= DEVV / NENTRIES)
  }

  ghost predicate TablesAre(m: Mem, d: nat, data: u32, k: nat)
    requires d < NPAGES && DataOk(data) && k <= 4
  {
    forall i :: 0 <= i < NENTRIES ==> (Present(m[d][i]) <==> KernelTable(data, k, i))
  }

  /** Directory entry `i` is needed to map `k` pages from `v0`. */
  predicate Covers(v0: nat, k: nat, i: nat) { v0 / NENTRIES <= i && i * NENTRIES < v0 + k && k > 0 }

  /** The tables that mappages adds when it maps all `k` pages are the missing ones. */
  lemma TablesAdded(m: Mem, n: Mem, d: nat, fl: seq<nat>, tabs: seq<nat>, v0: nat, k: nat, pp: nat, perm: nat)
    requires d < NPAGES && Flags(perm) && NewTables(m, n, d, fl, tabs) && TabsIn(tabs, v0, k)
    requires MapsRun(m, n, d, v0, k, pp, perm) && v0 + k <= NVPAGES
    ensures forall i :: 0 <= i < NENTRIES ==> (Present(n[d][i]) <==> Present(m[d][i]) || Covers(v0, k, i))
    ensures forall i :: 0 <= i < NENTRIES ==> (i in tabs <==> Covers(v0, k, i) && !Present(m[d][i]))
  {
    forall i | 0 <= i < NENTRIES && Covers(v0, k, i) ensures Present(n[d][i]) {
      var v := if i == v0 / NENTRIES then v0 else i * NENTRIES;
      assert v0 <= v < v0 + k && v / NENTRIES == i;
      assert Entry(n, d, v) == PteFor(pp, v - v0, perm);
    }
    forall i | 0 <= i < NENTRIES && i !in tabs ensures n[d][i] == m[d][i] {}
  }

  ghost function Interval(a: nat, b: nat): (s: set<nat>)
    requires a <= b
    ensures |s| == b - a && forall i :: i in s <==> a <= i < b
    decreases b
  {
    if a == b then {} else Interval(a, b - 1) + {b - 1}
  }

  /** Distinct numbers, all from `a` up to `b`; all of them, or not `x`. */
  lemma CountTabs(tabs: seq<nat>, a: nat, b: nat, x: int)
    requires a <= b && forall k, l :: 0 <= k < l < |tabs| ==> tabs[k] != tabs[l]
    requires forall k :: 0 <= k < |tabs| ==> a <= tabs[k] < b && tabs[k] != x
    ensures a <= x < b ==> |tabs| < b - a
    ensures (forall i :: a <= i < b ==> i in tabs) ==> |tabs| == b - a
  {
    SetSize(tabs);
    var all := Interval(a, b);
    if a <= x < b {
      assert ToSet(tabs) <= all - {x as nat};
      SubsetSize(ToSet(tabs), all - {x as nat});
    }
    if forall i :: a <= i < b ==> i in tabs {
      assert ToSet(tabs) == all;
    }
  }

  lemma SubsetSize(a: set<nat>, b: set<nat>)
    requires a <= b
    ensures |a| <= |b|
  {
    assert b == a + (b - a);
  }

  /** The tables that range `k` of kmap adds lie in a row. */
  lemma RangeAdds(data: u32, k: nat, i: nat)
    requires DataOk(data) && k < 4 && i < NENTRIES
    ensures KernelTables(data, k) <= KernelTables(data, k + 1)
    ensures var r := KmapRange(data, k);
      var a := if k == 3 then DEVV / NENTRIES else KPDE + KernelTables(data, k);
      && (Covers(r.v0, r.n, i) && !KernelTable(data, k, i) <==>
            a <= i < a + KernelTables(data, k + 1) - KernelTables(data, k))
      && (KernelTable(data, k + 1, i) <==> KernelTable(data, k, i) || Covers(r.v0, r.n, i))
  {
    var q := DataPage(data);
  }

  /** A range mapped whole costs its tables. */
  lemma RangeCost(m: Mem, n: Mem, d: nat, data: u32, k: nat, fl: seq<nat>, tabs: seq<nat>)
    requires d < NPAGES && DataOk(data) && k < 4 && TablesAre(m, d, data, k)
    requires var r := KmapRange(data, k);
      NewTables(m, n, d, fl, tabs) && TabsIn(tabs, r.v0, r.n) && MapsRun(m, n, d, r.v0, r.n, r.pp, r.perm)
    ensures TablesAre(n, d, data, k + 1) && |tabs| == KernelTables(data, k + 1) - KernelTables(data, k)
  {
    hide KernelTable, KernelTables, Covers, MapsRun;
    var r := KmapRange(data, k);
    TablesAdded(m, n, d, fl, tabs, r.v0, r.n, r.pp, r.perm);
    forall i | 0 <= i < NENTRIES
      ensures Present(n[d][i]) <==> KernelTable(data, k + 1, i)
    {
      RangeAdds(data, k, i);
    }
    var a := if k == 3 then DEVV / NENTRIES else KPDE + KernelTables(data, k);
    RangeAdds(data, k, 0);
    var b := a + KernelTables(data, k + 1) - KernelTables(data, k);
    LastTable(data, k);
    if k < 3 { LastTable(data, k + 1); }
    forall i | a <= i < b ensures i in tabs { RangeAdds(data, k, i); }
    forall q | 0 <= q < |tabs| ensures a <= tabs[q] < b { RangeAdds(data, k, tabs[q]); }
    CountTabs(tabs, a, b, -1);
  }

  lemma LastTable(data: u32, k: nat)
    requires DataOk(data) && k <= 4
    ensures KernelTables(data, k) + 1 <= KERNEL_NEEDS && (k == 4 ==> KernelTables(data, k) + 1 == KERNEL_NEEDS)
    ensures k <= 3 ==> KPDE + KernelTables(data, k) <= DEVV / NENTRIES <= NENTRIES
    ensures k == 3 ==> DEVV / NENTRIES + KernelTables(data, 4) - KernelTables(data, 3) == NENTRIES
  {
    var q := DataPage(data);
  }

  /** A range cut short for want of a table has taken fewer. */
  lemma RangeShort(m: Mem, n: Mem, d: nat, data: u32, k: nat, c: nat, fl: seq<nat>, tabs: seq<nat>)
    requires d < NPAGES && DataOk(data) && k < 4 && TablesAre(m, d, data, k)
    requires var r := KmapRange(data, k);
      && c < r.n && NewTables(m, n, d, fl, tabs) && TabsIn(tabs, r.v0, c) && !Present(n[d][(r.v0 + c) / NENTRIES])
    ensures |tabs| < KernelTables(data, k + 1) - KernelTables(data, k)
  {
    hide KernelTable, KernelTables;
    var r := KmapRange(data, k);
    var x := (r.v0 + c) / NENTRIES;
    var a := if k == 3 then DEVV / NENTRIES else KPDE + KernelTables(data, k);
    RangeAdds(data, k, x);
    var b := a + KernelTables(data, k + 1) - KernelTables(data, k);
    assert x !in tabs;
    assert Covers(r.v0, r.n, x) && !Present(m[d][x]);
    forall q | 0 <= q < |tabs| ensures a <= tabs[q] < b && tabs[q] != x {
      RangeAdds(data, k, tabs[q]);
      assert Covers(r.v0, r.n, tabs[q]) && !Present(m[d][tabs[q]]);
    }
    CountTabs(tabs, a, b, x);
  }

  /** Setupkvm after its first `k` ranges. */
  ghost predicate Building(m0: Mem, m: Mem, d: nat, own: Owner, fl0: seq<nat>, fl: seq<nat>, data: u32, k: nat) {
    && d < NPAGES && DataOk(data) && k <= 4 && |fl| + 1 + KernelTables(data, k) == |fl0|
    && TablesAre(m, d, data, k) && NewSpace(m0, m, d, own, fl0, fl)
    && forall v :: 0 <= v < NVPAGES ==> Entry(m, d, v) == KernelEntry(data, k, v)
  }

  /** One round of the loop in setupkvm. */
  method MapKernelRange(mc: Machine, d: nat, data: u32, k: nat, ghost m0: Mem, ghost fl0: seq<nat>, ghost own0: Owner)
      returns (ok: bool, ghost own: Owner)
    requires mc.Valid() && k < 4 && Building(m0, mc.M(), d, own0, fl0, mc.fl, data, k)
    requires forall a :: 0 <= a < |fl0| ==> fl0[a] < NPAGES
    requires forall a, b :: 0 <= a < b < |fl0| ==> fl0[a] != fl0[b]
    modifies mc, mc.mem
    ensures mc.Valid()
    ensures ok ==> Building(m0, mc.M(), d, own, fl0, mc.fl, data, k + 1)
    ensures !ok ==> mc.fl == [] && |fl0| < KERNEL_NEEDS
    ensures !ok ==> forall p :: 0 <= p < NPAGES && p !in fl0 ==> mc.M()[p] == m0[p]
  {
    hide SpaceOk, FreeListOk, MapsRun, NewTables, OnlyTables, Taken, UserChange, KernelEntry, Entry, Grown, Apart;
    hide TablesAre, KernelTables, TabsIn, PageCount, KmapRange, KmapBytes, KmapPerm, Unmapped;
    ghost var m1, fl1 := mc.M(), mc.fl;
    var (va, size, pa) := KmapBytes(data, k);
    ghost var r := KmapRange(data, k);
    KmapCounts(data, k);
    TakenDisjoint(own0, fl0, fl1);
    SpaceApart(m1, d, own0, fl1);
    mc.DistinctFree();
    var res, n, tabs := mc.Mappages(d, va, size, pa, KmapPerm(k));
    KernelRunUser(m1, mc.M(), d, r.v0, n, r.pp, r.perm);
    SpaceGrows(m0, m1, m1, mc.M(), d, own0, fl0, fl1, fl1, tabs, -1, 0, 0);
    own := Grown(own0, fl1, tabs, -1, 0, 0);
    match res
    case NoMem =>
      TakenSubset(own, fl0, mc.fl);
      RangeShort(m1, mc.M(), d, data, k, n, fl1, tabs);
      LastTable(data, k + 1);
      return false, own;
    case Remap =>
      KernelEntryFresh(data, k, r.v0 + n);
      assert false;
    case Mapped =>
      NextRange(m1, mc.M(), d, data, k);
      RangeCost(m1, mc.M(), d, data, k, fl1, tabs);
      return true, own;
  }

  /** It succeeds if and only if there are pages for the directory and all its tables, and takes just those. */
  method Setupkvm(mc: Machine, data: u32) returns (d: int, ghost own: Owner)
    requires mc.Valid() && DataOk(data)
    modifies mc, mc.mem
    ensures mc.Valid() && (d != -1 <==> KERNEL_NEEDS <= |old(mc.fl)|)
    ensures d != -1 ==> |mc.fl| + KERNEL_NEEDS == |old(mc.fl)|
    ensures d == -1 ==> mc.fl == [] && forall p :: 0 <= p < NPAGES && p !in old(mc.fl) ==> mc.M()[p] == old(mc.M())[p]
    ensures d != -1 ==> 0 <= d < NPAGES && NewSpace(old(mc.M()), mc.M(), d, own, old(mc.fl), mc.fl)
    ensures d != -1 ==> forall v :: 0 <= v < NVPAGES ==> Entry(mc.M(), d, v) == KernelEntry(data, 4, v)
    ensures d != -1 ==> forall i :: 0 <= i < KPDE ==> !Present(mc.M()[d][i])
    ensures d != -1 ==> forall v :: KV <= v < NVPAGES ==> !UserMode(Entry(mc.M(), d, v))
  {
    hide SpaceOk, FreeListOk, Taken, KernelEntry, Entry, Apart, TablesAre, KernelTables;
    ghost var m0, fl0 := mc.M(), mc.fl;
    own := map[];
    mc.DistinctFree();
    var v := mc.Kalloc1();
    if v == 0 {
      return -1, own;
    }
    d := (v - KBASE) / PGSIZE;
    mc.Fill(d, Filled(0));
    StoreFree(m0, mc.M(), mc.kfreelist, mc.fl, mc.lo, d);
    own := map[d := Dir];
    FreshDir(mc.M(), d, data);
    NoTables(mc.M(), d, data);
    TakenFirst(fl0, d);
    var k := 0;
    while k < 4
      invariant 0 <= k <= 4 && mc.Valid() && Building(m0, mc.M(), d, own, fl0, mc.fl, data, k)
    {
      var ok;
      ok, own := MapKernelRange(mc, d, data, k, m0, fl0, own);
      if !ok {
        return -1, own;
      }
      k := k + 1;
    }
    LastTable(data, 4);
    NoUserTables(mc.M(), d, data);
    hide UserMode;
    KernelShut(mc.M(), d, data);
  }

  lemma NoTables(m: Mem, d: nat, data: u32)
    requires d < NPAGES && m[d] == Filled(0) && DataOk(data)
    ensures TablesAre(m, d, data, 0) && KernelTables(data, 0) == 0
  {
  }

  lemma NoUserTables(m: Mem, d: nat, data: u32)
    requires d < NPAGES && DataOk(data) && TablesAre(m, d, data, 4)
    ensures forall i :: 0 <= i < KPDE ==> !Present(m[d][i])
  {
  }

  lemma TakenSubset(own: Owner, fl0: seq<nat>, fl: seq<nat>)
    requires Taken(own.Keys, fl0, fl)
    ensures forall p :: p in own ==> p in fl0
  {
    forall p | p in own ensures p in fl0 {
      assert p in ToSet(fl0[..|fl0| - |fl|]);
    }
  }

  function KmapPerm(k: nat): nat { if k == 1 then 0 else PTE_W }

  lemma TakenFirst(fl0: seq<nat>, d: nat)
    requires fl0 != [] && fl0[0] == d
    ensures Taken(map[d := Dir].Keys, fl0, fl0[1..])
  {
    assert fl0[..1] == [d];
  }

  lemma NextRange(m: Mem, n: Mem, d: nat, data: u32, k: nat)
    requires d < NPAGES && DataOk(data) && k < 4
    requires var r := KmapRange(data, k); MapsRun(m, n, d, r.v0, r.n, r.pp, r.perm)
    requires forall v :: 0 <= v < NVPAGES ==> Entry(m, d, v) == KernelEntry(data, k, v)
    ensures forall v :: 0 <= v < NVPAGES ==> Entry(n, d, v) == KernelEntry(data, k + 1, v)
  {
  }

  /**
   A run of mappages, from memory `mb` and free list `fl2`, on a new space keeps it one.
   With a page `q` to map, `q` has been taken off the list before and may hold anything.
   */
  lemma SpaceGrows(m0: Mem, m1: Mem, mb: Mem, m2: Mem, d: nat, own: Owner, fl0: seq<nat>, fl1: seq<nat>, fl2: seq<nat>,
                   tabs: seq<nat>, q: int, i: nat, j: nat)
    requires NewSpace(m0, m1, d, own, fl0, fl1)
    requires forall a :: 0 <= a < |fl0| ==> fl0[a] < NPAGES
    requires forall a, b :: 0 <= a < b < |fl0| ==> fl0[a] != fl0[b]
    requires q >= 0 ==> fl1 != [] && q == fl1[0]
    requires fl2 == if q >= 0 then fl1[1..] else fl1
    requires forall p :: 0 <= p < NPAGES && p != q ==> mb[p] == m1[p]
    requires d < NPAGES && NewTables(mb, m2, d, fl2, tabs) && OnlyTables(mb, m2, d) && UserChange(mb, m2, d, q, i, j)
    ensures |tabs| <= |fl2| && (forall a, b :: 0 <= a < b < |fl2| ==> fl2[a] != fl2[b])
    ensures NewSpace(m0, m2, d, Grown(own, fl2, tabs, q, i, j), fl0, fl2[|tabs|..])
  {
    hide SpaceOk, UserChange, Taken, NewTables, Disjoint, OnlyTables, TableSlots, Grown;
    TablesBound(mb, m2, d, fl2, tabs);
    TakenDisjoint(own, fl0, fl1);
    TakenDistinct(own, fl0, fl1, fl2);
    var own' := Grown(own, fl2, tabs, q, i, j);
    if q >= 0 {
      NotOwned(own, fl1, q);
      forall p | p in own ensures p < NPAGES && p != q {
        OwnedSlot(m1, d, own, p);
      }
      assert |fl2| < |fl1|;
      SpaceFrame(m1, mb, d, own);
    } else {
      assert mb == m1;
    }
    DisjointTail(own, fl1, fl2);
    GrownOk(mb, m2, d, own, fl2, tabs, q, i, j);
    TakenGrows(own, fl0, fl1, tabs, q, i, j, fl2);
    GrownPages(own, fl2, tabs, q, i, j);
    RestKept(m0, m1, mb, m2, d, own.Keys, own', q);
  }

  lemma RestKept(m0: Mem, m1: Mem, mb: Mem, m2: Mem, d: nat, keys: set<nat>, own': Owner, q: int)
    requires forall p :: 0 <= p < NPAGES && p !in keys ==> m1[p] == m0[p]
    requires forall p :: 0 <= p < NPAGES && p != q ==> mb[p] == m1[p]
    requires d < NPAGES && OnlyTables(mb, m2, d) && SpaceOk(m2, d, own')
    requires keys <= own'.Keys && (q >= 0 ==> q in own')
    ensures forall p :: 0 <= p < NPAGES && p !in own' ==> m2[p] == m0[p]
  {
    hide SpaceOk;
    SpaceIsDir(m2, d, own');
    forall p | 0 <= p < NPAGES && p !in own' ensures m2[p] == m0[p] {
      if IsTable(m2, d, p) {
        var x :| 0 <= x < NENTRIES && Present(m2[d][x]) && Ppn(m2[d][x]) == p;
        SlotOwned(m2, d, own', Table(x));
      }
    }
  }

  lemma TablesBound(m: Mem, n: Mem, d: nat, fl: seq<nat>, tabs: seq<nat>)
    requires d < NPAGES && NewTables(m, n, d, fl, tabs)
    ensures |tabs| <= |fl|
  {
  }

  lemma NotOwned(own: Owner, fl: seq<nat>, q: nat)
    requires Disjoint(own, fl) && q in fl
    ensures q !in own
  {
  }

  lemma DisjointTail(own: Owner, fl: seq<nat>, r: seq<nat>)
    requires Disjoint(own, fl) && forall a :: 0 <= a < |r| ==> r[a] in fl
    ensures Disjoint(own, r)
  {
  }

  lemma TakenDistinct(own: Owner, fl0: seq<nat>, fl1: seq<nat>, fl2: seq<nat>)
    requires Taken(own.Keys, fl0, fl1)
    requires forall a :: 0 <= a < |fl0| ==> fl0[a] < NPAGES
    requires forall a, b :: 0 <= a < b < |fl0| ==> fl0[a] != fl0[b]
    requires fl2 == fl1 || (fl1 != [] && fl2 == fl1[1..])
    ensures forall a :: 0 <= a < |fl2| ==> fl2[a] in fl1 && fl2[a] < NPAGES
    ensures fl1 != [] ==> fl1[0] < NPAGES
    ensures forall a, b :: 0 <= a < b < |fl2| ==> fl2[a] != fl2[b]
    ensures forall a :: 0 <= a < |fl2| && fl1 != fl2 ==> fl2[a] != fl1[0]
  {
    var n := |fl0| - |fl2|;
    assert fl2 == fl0[n..];
    forall a | 0 <= a < |fl2| ensures fl2[a] in fl1 && fl2[a] == fl0[n + a] {}
  }
}
