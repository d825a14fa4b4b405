/** The page allocator and the page-table walker (`mm/vm.c`). */
module Vm {
  import opened Words
  import opened Paging

  /** PDX and PTX: `va >> 22` and `(va >> 12) & 0x3FF`. */
  function Pdx(va: u32): (i: nat)
    ensures i < NENTRIES
  {
    va / PGSIZE / NENTRIES
  }

  function Ptx(va: u32): (j: nat)
    ensures j < NENTRIES
  {
    va / PGSIZE % NENTRIES
  }

  /** No page of directory `d` or of its tables is on the free list. */
  ghost predicate Apart(m: Mem, d: nat, fl: seq<nat>) {
    && DirOk(m, d) && d !in fl
    && forall i :: 0 <= i < NENTRIES && Present(m[d][i]) ==> Ppn(m[d][i]) !in fl
  }

  /** Memory and free list after walkpgdir has added a zeroed table for directory entry `i`. */
  function WithTable(m: Mem, d: nat, i: nat, t: nat): Mem
    requires d < NPAGES && i < NENTRIES && t < NPAGES
  {
    m[t := Filled(0)][d := m[d][i := MakePte(t, PTE_W + PTE_U)]]
  }

  datatype MapResult = Mapped | NoMem | Remap

  /** Entry number `k` of a mapping that starts at physical page `pp`. */
  function PteFor(pp: nat, k: nat, perm: nat): u32
    requires Flags(perm)
  {
    MakePte((pp + k) % NVPAGES, perm)
  }

  /** From virtual page `v0` on, `k` pages have been mapped to `pp`, `pp + 1`, ...; every other entry is as it was. */
  ghost predicate MapsRun(m: Mem, n: Mem, d: nat, v0: nat, k: nat, pp: nat, perm: nat)
    requires d < NPAGES && Flags(perm)
  {
    forall v :: 0 <= v < NVPAGES ==>
      Entry(n, d, v) == if v0 <= v < v0 + k then PteFor(pp, v - v0, perm) else Entry(m, d, v)
  }

  /** The new tables are the first pages of the free list, one for each directory entry in `tabs`. */
  ghost predicate NewTables(m: Mem, n: Mem, d: nat, fl: seq<nat>, tabs: seq<nat>)
    requires d < NPAGES
  {
    && |tabs| <= |fl|
    && (forall q :: 0 <= q < |tabs| ==>
          tabs[q] < NENTRIES && fl[q] < NPAGES && !Present(m[d][tabs[q]])
            && n[d][tabs[q]] == MakePte(fl[q], PTE_W + PTE_U))
    && (forall q, r :: 0 <= q < r < |tabs| ==> tabs[q] != tabs[r])
    && (forall i :: 0 <= i < NENTRIES && i !in tabs ==> n[d][i] == m[d][i])
  }

  /** Tables were added only for directory entries that the `k` pages from `v0` need. */
  predicate TabsIn(tabs: seq<nat>, v0: nat, k: nat) {
    (k == 0 ==> tabs == []) &&
    forall q :: 0 <= q < |tabs| ==> v0 / NENTRIES <= tabs[q] && tabs[q] * NENTRIES < v0 + k
  }

  ghost predicate IsTable(m: Mem, d: nat, p: nat)
    requires d < NPAGES
  {
    exists i :: 0 <= i < NENTRIES && Present(m[d][i]) && Ppn(m[d][i]) == p
  }

  /** Nothing but `d` and its tables has changed. */
  ghost predicate OnlyTables(m: Mem, n: Mem, d: nat)
    requires d < NPAGES
  {
    forall p :: 0 <= p < NPAGES && p != d && !IsTable(n, d, p) ==> n[p] == m[p]
  }

  lemma AddTable(m: Mem, d: nat, i: nat, fl: seq<nat>)
    requires Apart(m, d, fl) && fl != [] && fl[0] < NPAGES && i < NENTRIES && !Present(m[d][i])
    requires forall k :: 0 < k < |fl| ==> fl[k] != fl[0]
    ensures var n := WithTable(m, d, i, fl[0]);
      && Apart(n, d, fl[1..])
      && forall x, y :: 0 <= x < NENTRIES && 0 <= y < NENTRIES ==> EntryAt(n, d, x, y) == EntryAt(m, d, x, y)
  {
    assert fl[0] in fl;
  }

  lemma StoreEntry(m: Mem, d: nat, i: nat, j: nat, e: u32)
    requires DirOk(m, d) && i < NENTRIES && j < NENTRIES && Present(m[d][i])
    ensures var t := Ppn(m[d][i]); var n := m[t := m[t][j := e]];
      && DirOk(n, d)
      && forall x, y :: 0 <= x < NENTRIES && 0 <= y < NENTRIES ==>
           EntryAt(n, d, x, y) == if x == i && y == j then e else EntryAt(m, d, x, y)
  {
  }

  lemma PageIndex(v: nat, w: nat)
    requires v < NVPAGES && w < NVPAGES
    ensures v / NENTRIES < NENTRIES && v % NENTRIES < NENTRIES
    ensures v / NENTRIES == w / NENTRIES && v % NENTRIES == w % NENTRIES ==> v == w
  {
  }

  /** The page of the last byte of a range; the sum wraps. */
  function LastPage(va: u32, size: u32): (p: nat)
    ensures p < NVPAGES
  {
    (va + size - 1) % TWO32 / PGSIZE
  }

  /** PGROUNDDOWN of a sum in 32-bit arithmetic. */
  function PageRoundDown(x: int): u32 { x % TWO32 - x % TWO32 % PGSIZE }

  function PlusPage(a: u32): u32 { (a + PGSIZE) % TWO32 }

  /** How many pages mappages visits. */
  function PageCount(va: u32, size: u32): nat {
    if va / PGSIZE <= LastPage(va, size) then LastPage(va, size) - va / PGSIZE + 1 else 0
  }

  ghost predicate Unmapped(m: Mem, d: nat, v0: nat, k: nat)
    requires d < NPAGES
  {
    forall v :: v0 <= v < v0 + k && v < NVPAGES ==> !Present(Entry(m, d, v))
  }

  /** Walkpgdir, part of a run of mappages: same entries, and perhaps one more table. */
  lemma WalkStep(m0: Mem, m1: Mem, m2: Mem, d: nat, fl0: seq<nat>, tabs: seq<nat>, i: nat)
    requires d < NPAGES && NewTables(m0, m1, d, fl0, tabs) && OnlyTables(m0, m1, d)
    requires Apart(m1, d, fl0[|tabs|..]) && i < NENTRIES && !Present(m1[d][i])
    requires |tabs| < |fl0| && fl0[|tabs|] < NPAGES && m2 == WithTable(m1, d, i, fl0[|tabs|])
    ensures NewTables(m0, m2, d, fl0, tabs + [i]) && OnlyTables(m0, m2, d)
  {
    var fl1 := fl0[|tabs|..];
    assert fl1[0] in fl1;
    forall q | 0 <= q < |tabs| ensures tabs[q] != i {
      assert m1[d][tabs[q]] == MakePte(fl0[q], PTE_W + PTE_U);
    }
    assert i !in tabs;
    assert Ppn(m2[d][i]) == fl0[|tabs|];
    forall p | 0 <= p < NPAGES && p != d && !IsTable(m2, d, p) ensures m2[p] == m0[p] {
      assert p != fl0[|tabs|];
      forall x | 0 <= x < NENTRIES && Present(m1[d][x]) ensures Ppn(m1[d][x]) != p {
        assert m2[d][x] == m1[d][x];
      }
      assert !IsTable(m1, d, p);
    }
  }

  lemma SameEntries(m: Mem, n: Mem, d: nat)
    requires d < NPAGES
    requires forall x, y :: 0 <= x < NENTRIES && 0 <= y < NENTRIES ==> EntryAt(n, d, x, y) == EntryAt(m, d, x, y)
    ensures forall v :: 0 <= v < NVPAGES ==> Entry(n, d, v) == Entry(m, d, v)
  {
    forall v | 0 <= v < NVPAGES ensures Entry(n, d, v) == Entry(m, d, v) {
      PageIndex(v, v);
    }
  }

  lemma StoreStep(m0: Mem, m2: Mem, m3: Mem, d: nat, v0: nat, k: nat, pp: nat, perm: nat)
    requires DirOk(m2, d) && Flags(perm) && MapsRun(m0, m2, d, v0, k, pp, perm) && v0 + k < NVPAGES
    requires var v := v0 + k; var i, j := v / NENTRIES, v % NENTRIES;
      && i < NENTRIES && Present(m2[d][i])
      && var t := Ppn(m2[d][i]); m3 == m2[t := m2[t][j := PteFor(pp, k, perm)]]
    ensures MapsRun(m0, m3, d, v0, k + 1, pp, perm)
  {
    var w := v0 + k;
    StoreEntry(m2, d, w / NENTRIES, w % NENTRIES, PteFor(pp, k, perm));
    forall v | 0 <= v < NVPAGES
      ensures Entry(m3, d, v) == if v0 <= v < v0 + k + 1 then PteFor(pp, v - v0, perm) else Entry(m0, d, v)
    {
      PageIndex(v, w);
      if v == w {
        assert Entry(m3, d, v) == PteFor(pp, k, perm);
      } else {
        assert Entry(m3, d, v) == Entry(m2, d, v);
      }
    }
  }

  lemma StoreTables(m0: Mem, m2: Mem, m3: Mem, d: nat, fl0: seq<nat>, tabs: seq<nat>, fl: seq<nat>, i: nat, j: nat,
        e: u32)
    requires Apart(m2, d, fl) && NewTables(m0, m2, d, fl0, tabs) && OnlyTables(m0, m2, d)
    requires i < NENTRIES && j < NENTRIES && Present(m2[d][i])
    requires var t := Ppn(m2[d][i]); m3 == m2[t := m2[t][j := e]]
    ensures Apart(m3, d, fl) && NewTables(m0, m3, d, fl0, tabs) && OnlyTables(m0, m3, d)
  {
    StoreEntry(m2, d, i, j, e);
    assert m3[d] == m2[d];
    forall p | 0 <= p < NPAGES && p != d && !IsTable(m3, d, p) ensures m3[p] == m0[p] {
      assert !IsTable(m2, d, p);
    }
  }

  lemma FreePush(m: Mem, n: Mem, head: u32, fl: seq<nat>, lo: nat, p: nat)
    requires FreeListOk(m, head, fl, lo) && lo <= p < NPAGES && p !in fl
    requires n[p][0] == head && forall q :: 0 <= q < NPAGES && q != p ==> n[q] == m[q]
    ensures FreeListOk(n, Kva(p), [p] + fl, lo)
  {
    var l := [p] + fl;
    forall k | 0 <= k < |l| ensures n[l[k]][0] == LinkTo(l, k + 1) {
      if k > 0 {
        assert l[k] == fl[k - 1];
        assert LinkTo(l, k + 1) == LinkTo(fl, k);
      }
    }
  }

  lemma RunBounds(va: u32, size: u32, pa: u32)
    requires pa % PGSIZE == 0
    ensures var v0, pp, lp := va / PGSIZE, pa / PGSIZE, LastPage(va, size);
      && 0 <= PageRoundDown(va) < TWO32 && 0 <= PageRoundDown(va + size - 1) < TWO32
      && PageRoundDown(va) == v0 * PGSIZE && pa == pp * PGSIZE && pp % NVPAGES == pp
      && PageRoundDown(va + size - 1) == lp * PGSIZE
      && PageCount(va, size) == if v0 <= lp then lp - v0 + 1 else 0
  {
  }

  lemma MoreUnmapped(m: Mem, d: nat, v0: nat, k: nat)
    requires d < NPAGES && v0 < NVPAGES
    ensures Unmapped(m, d, v0, 0)
    ensures Unmapped(m, d, v0, k) && v0 + k < NVPAGES && !Present(Entry(m, d, v0 + k)) ==> Unmapped(m, d, v0, k + 1)
  {
  }

  lemma NoTabs(v0: nat)
    ensures TabsIn([], v0, 0)
  {
  }

  lemma MoreTabs(was: seq<nat>, tabs: seq<nat>, v0: nat, k: nat)
    requires TabsIn(was, v0, k) && (tabs == was || tabs == was + [(v0 + k) / NENTRIES])
    ensures TabsIn(tabs, v0, k + 1)
  {
  }

  lemma PageOf(v: nat)
    requires v < NVPAGES
    ensures 0 <= v * PGSIZE < TWO32 && v * PGSIZE / PGSIZE == v
  {
  }

  /** The loop variables of mappages on reaching page `v0 + k`. */
  predicate AtPage(a: u32, phys: u32, v0: nat, k: nat, pp: nat) {
    a == (v0 + k) * PGSIZE && phys == (pp + k) % NVPAGES * PGSIZE
  }

  lemma AtStart(a: u32, phys: u32, v0: nat, pp: nat)
    requires a == v0 * PGSIZE && phys == pp * PGSIZE && pp % NVPAGES == pp
    ensures AtPage(a, phys, v0, 0, pp)
  {
  }

  lemma AtNext(a: u32, phys: u32, v0: nat, k: nat, pp: nat)
    requires AtPage(a, phys, v0, k, pp) && a < 0xFFFF_F000
    ensures 0 <= PlusPage(phys) < TWO32 && AtPage(a + PGSIZE, PlusPage(phys), v0, k + 1, pp)
  {
    var q := (pp + k) % NVPAGES;
    assert (pp + k + 1) % NVPAGES == if q + 1 == NVPAGES then 0 else q + 1;
  }

  lemma AtBounds(a: u32, phys: u32, v0: nat, k: nat, pp: nat, last: u32, lp: nat)
    requires AtPage(a, phys, v0, k, pp) && last == lp * PGSIZE && lp < NVPAGES
    ensures v0 + k < NVPAGES && (a <= last <==> v0 + k <= lp)
    ensures a <= last && a >= 0xFFFF_F000 ==> v0 + k == lp
  {
  }

  /** How far a run of mappages that began in memory `m0` with free list `fl0` has come. */
  ghost predicate Progress(m0: Mem, m: Mem, d: nat, fl0: seq<nat>, fl: seq<nat>, tabs: seq<nat>, v0: nat, k: nat,
        pp: nat, perm: nat) {
    && d < NPAGES && Flags(perm) && Apart(m, d, fl)
    && MapsRun(m0, m, d, v0, k, pp, perm)
    && NewTables(m0, m, d, fl0, tabs) && fl == fl0[|tabs|..] && OnlyTables(m0, m, d)
  }

  lemma ProgressStart(m: Mem, d: nat, fl: seq<nat>, v0: nat, pp: nat, perm: nat)
    requires Apart(m, d, fl) && Flags(perm)
    ensures Progress(m, m, d, fl, fl, [], v0, 0, pp, perm)
  {
    assert fl[0..] == fl;
  }

  lemma ProgressMeans(m0: Mem, m: Mem, d: nat, fl0: seq<nat>, fl: seq<nat>, tabs: seq<nat>, v0: nat, k: nat, pp: nat,
        perm: nat)
    requires Progress(m0, m, d, fl0, fl, tabs, v0, k, pp, perm)
    ensures Apart(m, d, fl) && MapsRun(m0, m, d, v0, k, pp, perm) && NewTables(m0, m, d, fl0, tabs)
    ensures |tabs| <= |fl0| && fl == fl0[|tabs|..] && OnlyTables(m0, m, d)
  {
  }

  lemma ProgressWalk(m0: Mem, m1: Mem, m2: Mem, d: nat, fl0: seq<nat>, fl1: seq<nat>, fl2: seq<nat>, tabs: seq<nat>,
                     v0: nat, k: nat, pp: nat, perm: nat, i: nat) returns (tabs': seq<nat>)
    requires Progress(m0, m1, d, fl0, fl1, tabs, v0, k, pp, perm) && i < NENTRIES
    requires forall q, r :: 0 <= q < r < |fl1| ==> fl1[q] != fl1[r]
    requires if Present(m1[d][i]) then m2 == m1 && fl2 == fl1
             else fl1 != [] && fl1[0] < NPAGES && m2 == WithTable(m1, d, i, fl1[0]) && fl2 == fl1[1..]
    ensures Progress(m0, m2, d, fl0, fl2, tabs', v0, k, pp, perm) && Present(m2[d][i])
    ensures tabs' == tabs || tabs' == tabs + [i]
    ensures forall v :: 0 <= v < NVPAGES ==> Entry(m2, d, v) == Entry(m1, d, v)
  {
    tabs' := tabs;
    if !Present(m1[d][i]) {
      AddTable(m1, d, i, fl1);
      WalkStep(m0, m1, m2, d, fl0, tabs, i);
      tabs' := tabs + [i];
      SameEntries(m1, m2, d);
    }
  }

  lemma ProgressStore(m0: Mem, m2: Mem, m3: Mem, d: nat, fl0: seq<nat>, fl: seq<nat>, tabs: seq<nat>,
                      v0: nat, k: nat, pp: nat, perm: nat)
    requires Progress(m0, m2, d, fl0, fl, tabs, v0, k, pp, perm) && v0 + k < NVPAGES
    requires var v := v0 + k; var i, j := v / NENTRIES, v % NENTRIES;
      && i < NENTRIES && Present(m2[d][i])
      && var t := Ppn(m2[d][i]); m3 == m2[t := m2[t][j := PteFor(pp, k, perm)]]
    ensures Progress(m0, m3, d, fl0, fl, tabs, v0, k + 1, pp, perm)
  {
    var w := v0 + k;
    StoreStep(m0, m2, m3, d, v0, k, pp, perm);
    StoreTables(m0, m2, m3, d, fl0, tabs, fl, w / NENTRIES, w % NENTRIES, PteFor(pp, k, perm));
  }

  lemma StoreFree(m: Mem, n: Mem, head: u32, fl: seq<nat>, lo: nat, t: nat)
    requires FreeListOk(m, head, fl, lo) && t < NPAGES && t !in fl
    requires forall q :: 0 <= q < NPAGES && q != t ==> n[q] == m[q]
    ensures FreeListOk(n, head, fl, lo)
  {
  }

  class Machine {
    const mem: array<Page>
    const lo: nat              // first page of the free pool: newend
    var kfreelist: u32
    ghost var fl: seq<nat>     // the pages on kfreelist, in order

    ghost predicate Valid()
      reads this, mem
    {
      mem.Length == NPAGES && FreeListOk(mem[..], kfreelist, fl, lo)
    }

    ghost function M(): (m: seq<Page>)
      requires mem.Length == NPAGES
      reads mem
      ensures |m| == NPAGES
    {
      mem[..]
    }

    /** One word of physical memory. */
    method Store(p: nat, i: nat, e: u32)
      requires mem.Length == NPAGES && p < NPAGES && i < NENTRIES
      modifies mem
      ensures M() == old(M())[p := old(M())[p][i := e]]
    {
      mem[p] := mem[p][i := e];
    }

    method Fill(p: nat, page: Page)
      requires mem.Length == NPAGES && p < NPAGES
      modifies mem
      ensures M() == old(M())[p := page]
    {
      mem[p] := page;
    }

    /** The machine before kallocinit: no page is free yet. */
    constructor (newend: nat)
      ensures Valid() && lo == newend && fl == [] && fresh(mem)
    {
      lo, kfreelist, fl := newend, 0, [];
      mem := new Page[NPAGES](_ => Filled(0));
    }

    /** kallocinit: every page from `lo` up becomes free, each once. */
    method Kallocinit()
      requires Valid() && fl == [] && lo <= NPAGES
      modifies this, mem
      ensures Valid() && |fl| == NPAGES - lo && forall p :: p in fl <==> lo <= p < NPAGES
    {
      var p := lo;
      while p < NPAGES
        invariant lo <= p <= NPAGES && Valid() && |fl| == p - lo && forall q :: q in fl <==> lo <= q < p
      {
        Kfree1(p);
        p := p + 1;
      }
    }

    /** Returns a kernel address, or 0 when the list is empty. */
    method Kalloc1() returns (v: u32)
      requires Valid()
      modifies this
      ensures Valid()
      ensures if old(fl) == [] then v == 0 && fl == [] else v == Kva(old(fl)[0]) && fl == old(fl)[1..]
    {
      v := kfreelist;
      if v != 0 {
        var p := (v - KBASE) / PGSIZE;
        assert p == fl[0];
        kfreelist := mem[p][0];
        fl := fl[1..];
      }
    }

    /** Frees page `p`, which is in the pool and not free already. */
    method Kfree1(p: nat)
      requires Valid() && lo <= p < NPAGES && p !in fl
      modifies this, mem
      ensures Valid() && fl == [p] + old(fl)
      ensures forall q :: 0 <= q < NPAGES && q != p ==> M()[q] == old(M())[q]
    {
      Fill(p, Filled(0x0101_0101));
      Store(p, 0, kfreelist);
      FreePush(old(M()), M(), kfreelist, fl, lo, p);
      kfreelist := Kva(p);
      fl := [p] + fl;
    }

    /** Returns the page of the table for `va`, or -1. */
    method Walkpgdir(d: nat, va: u32, alloc: bool) returns (t: int)
      requires Valid() && Apart(M(), d, fl)
      modifies this, mem
      ensures Valid() && Apart(M(), d, fl)
      ensures var m, i := old(M()), Pdx(va);
        if Present(m[d][i]) then t == Ppn(m[d][i]) && M() == m && fl == old(fl)
        else if alloc && old(fl) != [] then t == old(fl)[0] && M() == WithTable(m, d, i, t) && fl == old(fl)[1..]
        else t == -1 && M() == m && fl == old(fl)
    {
      var i := Pdx(va);
      var pde := mem[d][i];
      if Present(pde) {
        return Ppn(pde);
      }
      if !alloc {
        return -1;
      }
      var v := Kalloc1();
      if v == 0 {
        return -1;
      }
      t := (v - KBASE) / PGSIZE;
      AddTable(M(), d, i, old(fl));
      Fill(t, Filled(0));
      Store(d, i, MakePte(t, PTE_W + PTE_U));
    }

    lemma DistinctFree()
      requires Valid()
      ensures forall q :: 0 <= q < |fl| ==> lo <= fl[q] < NPAGES
      ensures forall q, r :: 0 <= q < r < |fl| ==> fl[q] != fl[r]
    {
    }

    /** One turn of the loop of mappages: virtual page `v0 + k`. */
    method MapPage(d: nat, a: u32, phys: u32, perm: nat,
                   ghost m0: Mem, ghost fl0: seq<nat>, ghost v0: nat, ghost k: nat, ghost pp: nat, ghost tabs: seq<nat>)
        returns (r: MapResult, ghost tabs': seq<nat>)
      requires Valid() && Progress(m0, M(), d, fl0, fl, tabs, v0, k, pp, perm)
      requires AtPage(a, phys, v0, k, pp)
      modifies this, mem
      ensures Valid()
      ensures tabs' == tabs || tabs' == tabs + [(v0 + k) / NENTRIES]
      ensures match r
        case Mapped => Progress(m0, M(), d, fl0, fl, tabs', v0, k + 1, pp, perm) && !Present(Entry(m0, d, v0 + k))
        case NoMem => Progress(m0, M(), d, fl0, fl, tabs', v0, k, pp, perm) && fl == [] && tabs' == tabs
                      && !Present(M()[d][(v0 + k) / NENTRIES])
        case Remap => Progress(m0, M(), d, fl0, fl, tabs', v0, k, pp, perm) && Present(Entry(m0, d, v0 + k))
    {
      hide NewTables, OnlyTables, FreeListOk;
      ghost var m1, fl1 := M(), fl;
      DistinctFree();
      PageOf(v0 + k);
      PageOf((pp + k) % NVPAGES);
      var t := Walkpgdir(d, a, true);
      if t < 0 {
        return NoMem, tabs;
      }
      tabs' := ProgressWalk(m0, m1, M(), d, fl0, fl1, fl, tabs, v0, k, pp, perm, Pdx(a));
      ghost var m2 := M();
      assert Entry(m2, d, v0 + k) == Entry(m0, d, v0 + k) == mem[t][Ptx(a)];
      if Present(mem[t][Ptx(a)]) {
        return Remap, tabs';
      }
      Store(t, Ptx(a), MakePte(phys / PGSIZE, perm));
      ProgressStore(m0, m2, M(), d, fl0, fl, tabs', v0, k, pp, perm);
      StoreFree(m2, M(), kfreelist, fl, lo, t);
      return Mapped, tabs';
    }

    /**
     Maps `size` bytes at `va` to physical address `pa`. `k` entries are written; `tabs`
     lists the directory entries that got a table.
     */
    method Mappages(d: nat, va: u32, size: u32, pa: u32, perm: nat)
        returns (r: MapResult, ghost k: nat, ghost tabs: seq<nat>)
      requires Valid() && Apart(M(), d, fl) && Flags(perm) && pa % PGSIZE == 0
      modifies this, mem
      ensures Valid() && Apart(M(), d, fl)
      ensures k <= PageCount(va, size) && MapsRun(old(M()), M(), d, va / PGSIZE, k, pa / PGSIZE, perm)
      ensures NewTables(old(M()), M(), d, old(fl), tabs) && fl == old(fl)[|tabs|..] && OnlyTables(old(M()), M(), d)
      ensures r != Remap ==> TabsIn(tabs, va / PGSIZE, k)
      ensures match r
        case Mapped => k == PageCount(va, size) && Unmapped(old(M()), d, va / PGSIZE, k)
        case NoMem => k < PageCount(va, size) && fl == [] && !Present(M()[d][(va / PGSIZE + k) / NENTRIES])
        case Remap => k < PageCount(va, size) && Present(Entry(old(M()), d, va / PGSIZE + k))
    {
      hide MapsRun, NewTables, OnlyTables, Apart, FreeListOk, TabsIn, PageCount, LastPage, PteFor, DirOk, Unmapped,
           Entry, AtPage, PageRoundDown, PlusPage, Progress;
      ghost var m0, fl0, v0, pp, lp, count := M(), fl, va / PGSIZE, pa / PGSIZE, LastPage(va, size),
        PageCount(va, size);
      RunBounds(va, size, pa);
      var a: u32 := PageRoundDown(va);
      var last: u32 := PageRoundDown(va + size - 1);
      var phys: u32 := pa;
      assert AtPage(a, phys, v0, 0, pp) by { AtStart(a, phys, v0, pp); }
      k, tabs := 0, [];
      ProgressStart(m0, d, fl0, v0, pp, perm);
      NoTabs(v0);
      MoreUnmapped(m0, d, v0, 0);
      while a <= last
        invariant Valid() && Progress(m0, M(), d, fl0, fl, tabs, v0, k, pp, perm) && Unmapped(m0, d, v0, k)
        invariant TabsIn(tabs, v0, k)
        invariant AtPage(a, phys, v0, k, pp) && k <= count
        decreases last - a
      {
        AtBounds(a, phys, v0, k, pp, last, lp);
        ghost var was := tabs;
        r, tabs := MapPage(d, a, phys, perm, m0, fl0, v0, k, pp, tabs);
        if r != Mapped {
          ProgressMeans(m0, M(), d, fl0, fl, tabs, v0, k, pp, perm);
          return;
        }
        MoreTabs(was, tabs, v0, k);
        MoreUnmapped(m0, d, v0, k);
        k := k + 1;
        if a >= 0xFFFF_F000 {
          break;
        }
        AtNext(a, phys, v0, k - 1, pp);
        a := a + PGSIZE;
        phys := PlusPage(phys);
      }
      if a > last {
        AtBounds(a, phys, v0, k, pp, last, lp);
      }
      ProgressMeans(m0, M(), d, fl0, fl, tabs, v0, k, pp, perm);
      return Mapped, k, tabs;
    }
  }
}
