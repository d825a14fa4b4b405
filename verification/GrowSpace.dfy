/** allocuvm (`mm/exec.c`), and with it do_sbrk (`mm/proc.c`): more zeroed pages for a user. */
module GrowSpace {
  import opened Words
  import opened Paging
  import opened Vm
  import opened AddressSpace
  import opened CopySpace

  /** Page `k` of a range from `v0` is the first that needs its table. */
  predicate NeedsTable(m: Mem, d: nat, v0: nat, k: nat)
    requires d < NPAGES && v0 + k < NVPAGES
  {
    !Present(m[d][(v0 + k) / NENTRIES]) && (k == 0 || (v0 + k) % NENTRIES == 0)
  }

  /** How many free pages it takes to map `k` pages from `v0`: the pages and the missing tables. */
  function Needs(m: Mem, d: nat, v0: nat, k: nat): (n: nat)
    requires d < NPAGES && v0 + k <= NVPAGES
    ensures k <= n
  {
    if k == 0 then 0 else Needs(m, d, v0, k - 1) + 1 + (if NeedsTable(m, d, v0, k - 1) then 1 else 0)
  }

  /** Virtual page `v` maps a zeroed page that came off the list `fl0`. */
  ghost predicate ZeroPageAt(m: Mem, d: nat, v: nat, fl0: seq<nat>)
    requires d < NPAGES && v < NVPAGES
  {
    var e := Entry(m, d, v);
    Present(e) && Ppn(e) < NPAGES && e == MakePte(Ppn(e), PTE_W + PTE_U) && Ppn(e) in fl0 && m[Ppn(e)] == Filled(0)
  }

  /** The first `k` pages from `v0` have been added, at the cost of Needs pages, and nothing else has changed. */
  ghost predicate Grew(m0: Mem, m: Mem, d: nat, own0: Owner, own: Owner, fl0: seq<nat>, fl: seq<nat>, v0: nat, k: nat) {
    && d < NPAGES && v0 + k <= NVPAGES && (k > 0 ==> v0 + k <= KV)
    && SpaceOk(m, d, own) && Disjoint(own, fl)
    && Needs(m0, d, v0, k) <= |fl0| && fl == fl0[Needs(m0, d, v0, k)..]
    && own.Keys == own0.Keys + ToSet(fl0[..Needs(m0, d, v0, k)])
    && GrewEntries(m0, m, d, fl0, v0, k)
    && GrewTables(m0, m, d, v0, k)
    && GrewPages(m0, m, own0, own)
  }

  ghost predicate GrewEntries(m0: Mem, m: Mem, d: nat, fl0: seq<nat>, v0: nat, k: nat)
    requires d < NPAGES
  {
    forall v :: 0 <= v < NVPAGES ==>
      if v0 <= v < v0 + k then ZeroPageAt(m, d, v, fl0) else Entry(m, d, v) == Entry(m0, d, v)
  }

  ghost predicate GrewTables(m0: Mem, m: Mem, d: nat, v0: nat, k: nat)
    requires d < NPAGES
  {
    forall i :: 0 <= i < NENTRIES ==>
      (Present(m[d][i]) <==> Present(m0[d][i]) || (k > 0 && v0 / NENTRIES <= i <= (v0 + k - 1) / NENTRIES))
  }

  /** User pages that were there keep their bytes, and pages outside the space are untouched. */
  ghost predicate GrewPages(m0: Mem, m: Mem, own0: Owner, own: Owner) {
    && (forall p :: 0 <= p < NPAGES && p !in own ==> m[p] == m0[p])
    && (forall p :: p in own0 ==> p in own && own[p] == own0[p])
    && (forall p :: p in own0 && p < NPAGES && own0[p].Leaf? ==> m[p] == m0[p])
  }

  /** One more page: `mb` is `m1` with the page `q` zeroed, `m2` is `mb` after mappages. */
  lemma GrowStep(m0: Mem, m1: Mem, mb: Mem, m2: Mem, d: nat, own0: Owner, own: Owner, fl0: seq<nat>, fl1: seq<nat>,
                 tabs: seq<nat>, v0: nat, k: nat) returns (own': Owner)
    requires Grew(m0, m1, d, own0, own, fl0, fl1, v0, k) && v0 + k < KV && fl1 != []
    requires forall a :: 0 <= a < |fl0| ==> fl0[a] < NPAGES
    requires forall a, b :: 0 <= a < b < |fl0| ==> fl0[a] != fl0[b]
    requires !Present(Entry(m0, d, v0 + k)) && mb == m1[fl1[0] := Filled(0)]
    requires NewTables(mb, m2, d, fl1[1..], tabs) && OnlyTables(mb, m2, d) && TabsIn(tabs, v0 + k, 1)
    requires MapsRun(mb, m2, d, v0 + k, 1, fl1[0], PTE_W + PTE_U)
    ensures |tabs| < |fl1| && Grew(m0, m2, d, own0, own', fl0, fl1[1..][|tabs|..], v0, k + 1)
  {
    hide SpaceOk, NewTables, OnlyTables, Taken, UserChange, MapsRun, GrewEntries, GrewTables, GrewPages, Disjoint,
         Needs;
    hide TabsIn, Grown, NeedsTable, TableSlots;
    var q, w, fl2 := fl1[0], v0 + k, fl1[1..];
    var i, j := w / NENTRIES, w % NENTRIES;
    SplitIndex(w);
    SuffixFacts(fl0, fl1, Needs(m0, d, v0, k));
    NotOwned(own, fl1, q);
    FillKeeps(m1, mb, d, own, q);
    EntrySame(m0, m1, d, fl0, v0, k, w);
    assert Entry(m1, d, w) == EntryAt(m1, d, i, j);
    RunIsChange(mb, m2, d, q, i, j);
    TablesBound(mb, m2, d, fl2, tabs);
    DisjointTail(own, fl1, fl2);
    GrownOk(mb, m2, d, own, fl2, tabs, q, i, j);
    own' := Grown(own, fl2, tabs, q, i, j);
    GrownPages(own, fl2, tabs, q, i, j);
    StepEntries(m0, m1, mb, m2, d, own, own', fl0, q, v0, k);
    SpaceIsDir(m1, d, own);
    TableCost(m0, m1, mb, m2, d, fl2, tabs, v0, k);
    NeedsStep(m0, d, v0, k);
    StepPages(m0, m1, mb, m2, d, own0, own, fl2, tabs, q, i, j);
    StepCost(own, own', own0, fl0, fl1, tabs, q, Needs(m0, d, v0, k), Needs(m0, d, v0, k + 1));
  }

  lemma NeedsStep(m: Mem, d: nat, v0: nat, k: nat)
    requires d < NPAGES && v0 + k < NVPAGES
    ensures Needs(m, d, v0, k + 1) == Needs(m, d, v0, k) + 1 + (if NeedsTable(m, d, v0, k) then 1 else 0)
  {
  }

  lemma SplitIndex(w: nat)
    requires w < KV
    ensures w / NENTRIES < KPDE && w % NENTRIES < NENTRIES && w / NENTRIES * NENTRIES + w % NENTRIES == w
  {
  }

  lemma SuffixFacts(fl0: seq<nat>, fl1: seq<nat>, n: nat)
    requires n <= |fl0| && fl1 == fl0[n..] && fl1 != []
    requires forall a :: 0 <= a < |fl0| ==> fl0[a] < NPAGES
    requires forall a, b :: 0 <= a < b < |fl0| ==> fl0[a] != fl0[b]
    ensures fl1[0] < NPAGES && fl1[0] in fl1 && fl1[0] in fl0 && fl1[0] !in fl1[1..]
    ensures forall a :: 0 <= a < |fl1[1..]| ==> fl1[1..][a] in fl1 && fl1[1..][a] < NPAGES
    ensures forall a, b :: 0 <= a < b < |fl1[1..]| ==> fl1[1..][a] != fl1[1..][b]
  {
    assert fl1[1..] == fl0[n + 1..];
    assert fl1[0] == fl0[n];
  }

  lemma EntrySame(m0: Mem, m: Mem, d: nat, fl0: seq<nat>, v0: nat, k: nat, w: nat)
    requires d < NPAGES && GrewEntries(m0, m, d, fl0, v0, k) && v0 + k <= w < NVPAGES
    ensures Entry(m, d, w) == Entry(m0, d, w)
  {
  }

  /** mappages takes a table exactly when Needs says so. */
  lemma TableCost(m0: Mem, m1: Mem, mb: Mem, m2: Mem, d: nat, fl: seq<nat>, tabs: seq<nat>, v0: nat, k: nat)
    requires d < NPAGES && v0 + k < KV && GrewTables(m0, m1, d, v0, k) && mb[d] == m1[d]
    requires NewTables(mb, m2, d, fl, tabs) && TabsIn(tabs, v0 + k, 1)
    requires Present(Entry(m2, d, v0 + k))
    ensures |tabs| == (if NeedsTable(m0, d, v0, k) then 1 else 0) && GrewTables(m0, m2, d, v0, k + 1)
  {
    var w := v0 + k;
    var i := w / NENTRIES;
    SplitIndex(w);
    forall a | 0 <= a < |tabs| ensures tabs[a] == i {
      assert w / NENTRIES <= tabs[a] && tabs[a] * NENTRIES < w + 1;
    }
    FirstTwo(tabs, i);
    assert |tabs| <= 1;
    assert Present(m2[d][i]);
    assert Present(m1[d][i]) <==> |tabs| == 0 by {
      if |tabs| == 1 {
        assert !Present(mb[d][tabs[0]]);
      } else {
        assert i !in tabs;
      }
    }
    assert k > 0 ==> ((w - 1) / NENTRIES == i <==> w % NENTRIES != 0);
    forall x | 0 <= x < NENTRIES
      ensures Present(m2[d][x]) <==> Present(m0[d][x]) || (v0 / NENTRIES <= x <= w / NENTRIES)
    {
      if x != i {
        assert x !in tabs;
        assert m2[d][x] == mb[d][x];
      }
    }
  }

  lemma FirstTwo(tabs: seq<nat>, i: nat)
    requires forall a :: 0 <= a < |tabs| ==> tabs[a] == i
    ensures |tabs| > 1 ==> tabs[0] == tabs[1]
  {
  }

  lemma StepEntries(m0: Mem, m1: Mem, mb: Mem, m2: Mem, d: nat, own: Owner, own': Owner, fl0: seq<nat>, q: nat,
        v0: nat, k: nat)
    requires d < NPAGES && v0 + k < KV && q < NPAGES && q in fl0 && q !in own && mb == m1[q := Filled(0)]
    requires GrewEntries(m0, m1, d, fl0, v0, k) && SpaceOk(m1, d, own) && SpaceOk(m2, d, own') && OnlyTables(mb, m2, d)
    requires forall x, y :: 0 <= x < NENTRIES && 0 <= y < NENTRIES ==> EntryAt(mb, d, x, y) == EntryAt(m1, d, x, y)
    requires MapsRun(mb, m2, d, v0 + k, 1, q, PTE_W + PTE_U)
    ensures GrewEntries(m0, m2, d, fl0, v0, k + 1) && Present(Entry(m2, d, v0 + k))
  {
    hide SpaceOk, OnlyTables;
    SameEntries(m1, mb, d);
    forall v | 0 <= v < NVPAGES
      ensures if v0 <= v < v0 + k + 1 then ZeroPageAt(m2, d, v, fl0) else Entry(m2, d, v) == Entry(m0, d, v)
    {
      if v0 <= v < v0 + k + 1 {
        SplitIndex(v);
        assert v == v0 + k ==> Entry(m2, d, v) == PteFor(q, 0, PTE_W + PTE_U);
        var p := Ppn(Entry(m2, d, v));
        assert v < v0 + k ==> ZeroPageAt(m1, d, v, fl0) && Entry(m2, d, v) == Entry(m1, d, v);
        SlotOwned(m2, d, own', Leaf(v / NENTRIES, v % NENTRIES));
        LeafKept(mb, m2, d, own', p);
      }
    }
  }

  lemma StepPages(m0: Mem, m1: Mem, mb: Mem, m2: Mem, d: nat, own0: Owner, own: Owner, fl: seq<nat>, tabs: seq<nat>,
        q: nat, i: nat, j: nat)
    requires GrewPages(m0, m1, own0, own) && q < NPAGES && q !in own && q !in fl && Disjoint(own, fl)
    requires forall p :: 0 <= p < NPAGES && p != q ==> mb[p] == m1[p]
    requires d < NPAGES && |tabs| <= |fl| && forall a, b :: 0 <= a < b < |fl| ==> fl[a] != fl[b]
    requires SpaceOk(m2, d, Grown(own, fl, tabs, q, i, j)) && OnlyTables(mb, m2, d)
    ensures GrewPages(m0, m2, own0, Grown(own, fl, tabs, q, i, j))
  {
    hide SpaceOk, OnlyTables;
    var own' := Grown(own, fl, tabs, q, i, j);
    TableSlotPages(fl, tabs);
    GrownPages(own, fl, tabs, q, i, j);
    forall p | p in own ensures own'[p] == own[p] {
      assert p !in ToSet(fl[..|tabs|]);
    }
    RestKept(m1, m1, mb, m2, d, own.Keys, own', q);
    forall p | p in own0 && p < NPAGES && own0[p].Leaf? ensures m2[p] == m0[p] {
      LeafKept(mb, m2, d, own', p);
    }
  }

  lemma StepCost(own: Owner, own': Owner, own0: Owner, fl0: seq<nat>, fl1: seq<nat>, tabs: seq<nat>, q: nat, n: nat,
        n': nat)
    requires n <= |fl0| && fl1 == fl0[n..] && fl1 != [] && q == fl1[0] && |tabs| < |fl1| && n' == n + 1 + |tabs|
    requires own.Keys == own0.Keys + ToSet(fl0[..n])
    requires own'.Keys == own.Keys + {q} + ToSet(fl1[1..][..|tabs|])
    ensures n' <= |fl0| && fl1[1..][|tabs|..] == fl0[n'..] && own'.Keys == own0.Keys + ToSet(fl0[..n'])
  {
    assert fl0[..n'] == fl0[..n] + ([q] + fl1[1..][..|tabs|]);
    ToSetJoin(fl0[..n], [q] + fl1[1..][..|tabs|]);
    ToSetJoin([q], fl1[1..][..|tabs|]);
  }

  /** The end of the range; the sum wraps. */
  function RangeEnd(addr: u32, len: u32): u32 { (addr + len) % TWO32 }

  /** How many pages allocuvm visits. */
  function RangePages(addr: u32, len: u32): nat {
    var first, end := addr / PGSIZE, RangeEnd(addr, len);
    if first * PGSIZE < end then (end + PGSIZE - 1) / PGSIZE - first else 0
  }

  function RoundUp(a: u32): nat { (a + PGSIZE - 1) / PGSIZE * PGSIZE }

  lemma GrewStart(m: Mem, d: nat, own: Owner, fl: seq<nat>, v0: nat)
    requires d < NPAGES && SpaceOk(m, d, own) && Disjoint(own, fl) && v0 <= NVPAGES
    ensures Grew(m, m, d, own, own, fl, fl, v0, 0)
  {
    assert fl[0..] == fl && ToSet(fl[..0]) == {};
    forall p | 0 <= p < NPAGES && p !in own ensures m[p] == m[p] {}
  }

  /**
   The state when mappages found no page for a table: the last free page has been taken and zeroed,
   the list is empty, and only the missing table kept page `k` from being mapped.
   */
  ghost predicate LostOne(m0: Mem, m: Mem, d: nat, own0: Owner, own: Owner, fl0: seq<nat>, v0: nat, k: nat) {
    && d < NPAGES && v0 + k < KV && SpaceOk(m, d, own)
    && Needs(m0, d, v0, k) + 1 == |fl0| && NeedsTable(m0, d, v0, k)
    && own.Keys == own0.Keys + ToSet(fl0[..|fl0| - 1]) && fl0[|fl0| - 1] !in own
    && GrewEntries(m0, m, d, fl0, v0, k) && (forall p :: p in own0 && p < NPAGES && own0[p].Leaf? ==> m[p] == m0[p])
    && (forall p :: 0 <= p < NPAGES && p !in own0 && p !in fl0 ==> m[p] == m0[p])
  }

  lemma GrowFails(m0: Mem, m1: Mem, mb: Mem, m2: Mem, d: nat, own0: Owner, own: Owner, fl0: seq<nat>, fl1: seq<nat>,
                  tabs: seq<nat>, v0: nat, k: nat)
    requires Grew(m0, m1, d, own0, own, fl0, fl1, v0, k) && v0 + k < KV && fl1 != []
    requires forall a :: 0 <= a < |fl0| ==> fl0[a] < NPAGES
    requires forall a, b :: 0 <= a < b < |fl0| ==> fl0[a] != fl0[b]
    requires mb == m1[fl1[0] := Filled(0)] && TabsIn(tabs, v0 + k, 0) && fl1[1..][|tabs|..] == []
    requires NewTables(mb, m2, d, fl1[1..], tabs) && OnlyTables(mb, m2, d)
      && MapsRun(mb, m2, d, v0 + k, 0, fl1[0], PTE_W + PTE_U)
    requires !Present(m2[d][(v0 + k) / NENTRIES])
    ensures LostOne(m0, m2, d, own0, own, fl0, v0, k)
  {
    hide SpaceOk, OnlyTables, Disjoint, Needs, GrewEntries, GrewTables, GrewPages, MapsRun, NeedsTable, TabsIn, Grown;
    var q := fl1[0];
    SuffixFacts(fl0, fl1, Needs(m0, d, v0, k));
    NoneGrown(own, fl1[1..], tabs, v0 + k);
    NotOwned(own, fl1, q);
    FillKeeps(m1, mb, d, own, q);
    SpaceIsDir(m1, d, own);
    NoRunUser(mb, m2, d, v0 + k, q);
    DisjointTail(own, fl1, fl1[1..]);
    GrownOk(mb, m2, d, own, fl1[1..], tabs, -1, 0, 0);
    GrownPages(own, fl1[1..], tabs, -1, 0, 0);
    FailedTable(m0, m1, m2, d, v0, k);
    FailedEntries(m0, m1, mb, m2, d, own, fl0, q, v0, k);
    FailedPages(m0, m1, mb, m2, d, own0, own, fl0, q, Needs(m0, d, v0, k));
  }

  lemma NoneGrown(own: Owner, fl: seq<nat>, tabs: seq<nat>, v: nat)
    requires TabsIn(tabs, v, 0) && forall a, b :: 0 <= a < b < |fl| ==> fl[a] != fl[b]
    ensures tabs == [] && Grown(own, fl, tabs, -1, 0, 0) == own
  {
  }

  lemma FailedTable(m0: Mem, m1: Mem, m2: Mem, d: nat, v0: nat, k: nat)
    requires d < NPAGES && v0 + k < KV && GrewTables(m0, m1, d, v0, k)
    requires forall i :: 0 <= i < NENTRIES ==> m2[d][i] == m1[d][i]
    requires !Present(m2[d][(v0 + k) / NENTRIES])
    ensures NeedsTable(m0, d, v0, k)
  {
    var w := v0 + k;
    SplitIndex(w);
    assert k > 0 && w % NENTRIES != 0 ==> (w - 1) / NENTRIES == w / NENTRIES;
  }

  lemma FailedEntries(m0: Mem, m1: Mem, mb: Mem, m2: Mem, d: nat, own: Owner, fl0: seq<nat>, q: nat, v0: nat, k: nat)
    requires d < NPAGES && v0 + k < KV && q < NPAGES && q !in own && mb == m1[q := Filled(0)]
    requires GrewEntries(m0, m1, d, fl0, v0, k) && SpaceOk(m1, d, own) && SpaceOk(m2, d, own) && OnlyTables(mb, m2, d)
    requires forall x, y :: 0 <= x < NENTRIES && 0 <= y < NENTRIES ==> EntryAt(mb, d, x, y) == EntryAt(m1, d, x, y)
    requires MapsRun(mb, m2, d, v0 + k, 0, q, PTE_W + PTE_U)
    ensures GrewEntries(m0, m2, d, fl0, v0, k)
  {
    hide SpaceOk, OnlyTables;
    SameEntries(m1, mb, d);
    forall v | 0 <= v < NVPAGES
      ensures if v0 <= v < v0 + k then ZeroPageAt(m2, d, v, fl0) else Entry(m2, d, v) == Entry(m0, d, v)
    {
      if v0 <= v < v0 + k {
        SplitIndex(v);
        assert ZeroPageAt(m1, d, v, fl0) && Entry(m2, d, v) == Entry(m1, d, v);
        SlotOwned(m2, d, own, Leaf(v / NENTRIES, v % NENTRIES));
        LeafKept(mb, m2, d, own, Ppn(Entry(m2, d, v)));
      }
    }
  }

  lemma FailedPages(m0: Mem, m1: Mem, mb: Mem, m2: Mem, d: nat, own0: Owner, own: Owner, fl0: seq<nat>, q: nat, n: nat)
    requires GrewPages(m0, m1, own0, own) && q < NPAGES && q in fl0 && q !in own && n <= |fl0|
    requires forall p :: 0 <= p < NPAGES && p != q ==> mb[p] == m1[p]
    requires d < NPAGES && SpaceOk(m2, d, own) && OnlyTables(mb, m2, d)
    requires own.Keys == own0.Keys + ToSet(fl0[..n])
    ensures forall p :: p in own0 && p < NPAGES && own0[p].Leaf? ==> m2[p] == m0[p]
    ensures forall p :: 0 <= p < NPAGES && p !in own0 && p !in fl0 ==> m2[p] == m0[p]
  {
    hide SpaceOk, OnlyTables;
    RestKept(mb, mb, mb, m2, d, own.Keys, own, -1);
    forall p | p in own ensures p in own0 || p in fl0 {
      assert p in own0.Keys + ToSet(fl0[..n]);
    }
    forall p | p in own0 && p < NPAGES && own0[p].Leaf? ensures m2[p] == m0[p] {
      LeafKept(mb, m2, d, own, p);
    }
  }

  lemma RangeFacts(addr: u32, len: u32)
    requires RangeEnd(addr, len) <= KBASE
    ensures var v0, n, end := addr / PGSIZE, RangePages(addr, len), RangeEnd(addr, len);
      && v0 < NVPAGES && (n > 0 ==> v0 + n <= KV) && v0 + n <= NVPAGES
      && RoundUp(end) == (end + PGSIZE - 1) - (end + PGSIZE - 1) % PGSIZE
  {
  }

  lemma InRange(addr: u32, len: u32, k: nat)
    requires RangeEnd(addr, len) <= KBASE && k <= RangePages(addr, len)
    ensures (addr / PGSIZE + k) * PGSIZE < RangeEnd(addr, len) <==> k < RangePages(addr, len)
  {
  }

  lemma RestSame(m: Mem, own0: Owner, fl0: seq<nat>)
    ensures Rest(m, m, own0, fl0)
  {
  }

  lemma {:induction false} NeedsMonotone(m: Mem, d: nat, v0: nat, k: nat, n: nat)
    requires d < NPAGES && k <= n && v0 + n <= NVPAGES
    ensures Needs(m, d, v0, k) + (n - k) <= Needs(m, d, v0, n)
    decreases n
  {
    if k < n {
      NeedsMonotone(m, d, v0, k, n - 1);
    }
  }

  /** The last of `n` pages is the first to need its table, and `free` pages leave none for it. */
  predicate LastTableMissing(m: Mem, d: nat, v0: nat, n: nat, free: nat)
    requires d < NPAGES && v0 + n <= NVPAGES
  {
    n > 0 && NeedsTable(m, d, v0, n - 1) && Needs(m, d, v0, n - 1) + 1 == free
  }

  lemma OnePage(w: nat)
    requires w < KV
    ensures w * PGSIZE < KBASE && PageCount(w * PGSIZE, PGSIZE) == 1 && w * PGSIZE / PGSIZE == w
  {
    assert (w * PGSIZE + PGSIZE - 1) % TWO32 == w * PGSIZE + (PGSIZE - 1);
    assert (w * PGSIZE + (PGSIZE - 1)) / PGSIZE == w;
  }

  lemma ZeroedApart(m0: Mem, m1: Mem, mb: Mem, head: u32, d: nat, own0: Owner, own: Owner, fl0: seq<nat>,
        fl1: seq<nat>, lo: nat,
                    v0: nat, k: nat)
    requires Grew(m0, m1, d, own0, own, fl0, fl1, v0, k) && fl1 != [] && fl1[0] < NPAGES
      && mb == m1[fl1[0] := Filled(0)]
    requires forall a :: 0 <= a < |fl0| ==> fl0[a] < NPAGES
    requires forall a, b :: 0 <= a < b < |fl0| ==> fl0[a] != fl0[b]
    requires FreeListOk(m1, head, fl1[1..], lo) && v0 + k < NVPAGES
    ensures FreeListOk(mb, head, fl1[1..], lo) && Apart(mb, d, fl1[1..]) && Entry(mb, d, v0 + k) == Entry(m0, d, v0 + k)
  {
    hide SpaceOk, FreeListOk, GrewTables, GrewPages, Needs;
    SuffixFacts(fl0, fl1, Needs(m0, d, v0, k));
    StoreFree(m1, mb, head, fl1[1..], lo, fl1[0]);
    FillKeeps(m1, mb, d, own, fl1[0]);
    SameEntries(m1, mb, d);
    SpaceApart(mb, d, own, fl1[1..]);
  }

  /** What holds of memory however far allocuvm came. */
  ghost predicate Rest(m0: Mem, m: Mem, own0: Owner, fl0: seq<nat>) {
    && (forall p :: 0 <= p < NPAGES && p !in own0 && p !in fl0 ==> m[p] == m0[p])
    && (forall p :: p in own0 && p < NPAGES && own0[p].Leaf? ==> m[p] == m0[p])
  }

  lemma GrewRest(m0: Mem, m: Mem, d: nat, own0: Owner, own: Owner, fl0: seq<nat>, fl: seq<nat>, v0: nat, k: nat)
    requires Grew(m0, m, d, own0, own, fl0, fl, v0, k)
    ensures Rest(m0, m, own0, fl0)
  {
    hide SpaceOk, Disjoint, GrewEntries, GrewTables;
    forall p | 0 <= p < NPAGES && p !in own0 && p !in fl0 ensures m[p] == m0[p] {
      assert p !in own0.Keys + ToSet(fl0[..Needs(m0, d, v0, k)]);
    }
  }

  lemma Failure(m0: Mem, m: Mem, d: nat, own0: Owner, own: Owner, fl0: seq<nat>, v0: nat, k: nat, n: nat, lost: bool)
    requires d < NPAGES && v0 + n <= NVPAGES && k < n && (lost ==> k + 1 < n)
    requires if lost then LostOne(m0, m, d, own0, own, fl0, v0, k) else Grew(m0, m, d, own0, own, fl0, [], v0, k)
    ensures Needs(m0, d, v0, n) > |fl0| && (k + 1 == n ==> !LastTableMissing(m0, d, v0, n, |fl0|))
    ensures SpaceOk(m, d, own) && GrewEntries(m0, m, d, fl0, v0, k) && Rest(m0, m, own0, fl0)
  {
    hide SpaceOk, GrewEntries, GrewTables, NeedsTable, Disjoint;
    NeedsMonotone(m0, d, v0, k + 1, n);
    if !lost {
      GrewRest(m0, m, d, own0, own, fl0, [], v0, k);
    }
  }

  lemma Finish(m0: Mem, m: Mem, d: nat, own0: Owner, own: Owner, fl0: seq<nat>, fl: seq<nat>, v0: nat, k: nat, n: nat,
        lost: bool)
    requires d < NPAGES && v0 + n <= NVPAGES && k + (if lost then 1 else 0) == n
    requires if lost then LostOne(m0, m, d, own0, own, fl0, v0, k) else Grew(m0, m, d, own0, own, fl0, fl, v0, k)
    ensures Needs(m0, d, v0, n) > |fl0| <==> lost
    ensures lost ==> LastTableMissing(m0, d, v0, n, |fl0|)
    ensures SpaceOk(m, d, own) && GrewEntries(m0, m, d, fl0, v0, k) && Rest(m0, m, own0, fl0)
  {
    hide SpaceOk, GrewEntries, GrewTables, NeedsTable, Disjoint;
    if !lost {
      GrewRest(m0, m, d, own0, own, fl0, fl, v0, k);
    }
  }

  /** The pages ran out after `k` of them: none is lost, or the one that found no table. */
  ghost predicate StoppedAt(m0: Mem, m: Mem, d: nat, own0: Owner, own: Owner, fl0: seq<nat>, v0: nat, k: nat) {
    if Loses(m0, d, fl0, v0, k) then LostOne(m0, m, d, own0, own, fl0, v0, k)
      else Grew(m0, m, d, own0, own, fl0, [], v0, k)
  }

  /** Page `k` has a page to itself but no page for its table. */
  predicate Loses(m: Mem, d: nat, fl: seq<nat>, v0: nat, k: nat) {
    d < NPAGES && v0 + k <= NVPAGES && Needs(m, d, v0, k) < |fl|
  }

  lemma Stopped(m0: Mem, m: Mem, d: nat, own0: Owner, own: Owner, fl0: seq<nat>, v0: nat, k: nat, lost: bool)
    requires d < NPAGES && v0 + k <= NVPAGES
    requires if lost then LostOne(m0, m, d, own0, own, fl0, v0, k) else Grew(m0, m, d, own0, own, fl0, [], v0, k)
    ensures StoppedAt(m0, m, d, own0, own, fl0, v0, k)
  {
    hide SpaceOk, GrewEntries, GrewTables, NeedsTable, Disjoint, Needs, GrewPages;
  }

  /** A page of the range is mapped already, and there are pages enough to come to it: that is the panic "remap". */
  ghost predicate Remaps(m: Mem, d: nat, v0: nat, n: nat, free: nat)
    requires d < NPAGES && v0 + n <= NVPAGES
  {
    exists x: nat :: x < n && Present(Entry(m, d, v0 + x)) && Needs(m, d, v0, x) < free
  }

  /** The range is unmapped as far as it has been looked at, and no page is left to go on. */
  lemma NoRemap(m: Mem, d: nat, v0: nat, k: nat, n: nat, free: nat)
    requires d < NPAGES && v0 + n <= NVPAGES && k <= n && Unmapped(m, d, v0, k)
    requires k == n || Needs(m, d, v0, k) >= free
    ensures !Remaps(m, d, v0, n, free)
  {
    hide Entry, NeedsTable;
    forall x: nat | x < n && Needs(m, d, v0, x) < free ensures !Present(Entry(m, d, v0 + x)) {
      if x >= k {
        NeedsMonotone(m, d, v0, k, x);
      }
    }
  }

  /** The same when the last page taken is lost. */
  lemma NoRemapLost(m0: Mem, m: Mem, d: nat, own0: Owner, own: Owner, fl0: seq<nat>, v0: nat, k: nat, n: nat)
    requires d < NPAGES && v0 + n <= NVPAGES && k < n && Unmapped(m0, d, v0, k)
    requires LostOne(m0, m, d, own0, own, fl0, v0, k)
    ensures !Remaps(m0, d, v0, n, |fl0|)
  {
    hide SpaceOk, GrewEntries;
    SplitIndex(v0 + k);
    assert !Present(Entry(m0, d, v0 + k)) by { NoTableNoEntry(m0, d, v0, k); }
    MoreUnmapped(m0, d, v0, k);
    NoRemap(m0, d, v0, k + 1, n, |fl0|);
  }

  lemma NoTableNoEntry(m: Mem, d: nat, v0: nat, k: nat)
    requires d < NPAGES && v0 + k < NVPAGES && NeedsTable(m, d, v0, k)
    ensures !Present(Entry(m, d, v0 + k))
  {
  }

  /** The body of the loop, from the page `q` taken off the list on. */
  method MapZeroed(mc: Machine, d: nat, a: u32, q: nat, ghost m0: Mem, ghost m1: Mem, ghost own0: Owner,
        ghost own1: Owner,
        ghost fl0: seq<nat>, ghost fl1: seq<nat>, ghost v0: nat, ghost k: nat)
    returns (res: MapResult, ghost own: Owner)
    requires mc.Valid() && mc.M() == m1 && fl1 != [] && fl1[0] == q < NPAGES && mc.fl == fl1[1..]
    requires Grew(m0, m1, d, own0, own1, fl0, fl1, v0, k) && v0 + k < KV && a == (v0 + k) * PGSIZE
    requires forall x :: 0 <= x < |fl0| ==> fl0[x] < NPAGES
    requires forall x, y :: 0 <= x < y < |fl0| ==> fl0[x] != fl0[y]
    modifies mc, mc.mem
    ensures mc.Valid() && (res == Remap <==> Present(Entry(m0, d, v0 + k)))
    ensures res == Mapped ==> Grew(m0, mc.M(), d, own0, own, fl0, mc.fl, v0, k + 1)
    ensures res == NoMem ==> mc.fl == [] && own == own1 && LostOne(m0, mc.M(), d, own0, own, fl0, v0, k)
    ensures res == Remap ==> own == own1
  {
    hide SpaceOk, FreeListOk, NewTables, OnlyTables, MapsRun, Grew, LostOne, Rest, Needs, NeedsTable;
    hide Entry, TabsIn, Disjoint, Unmapped;
    own := own1;
    GrewQ(m0, m1, d, own0, own1, fl0, fl1, v0, k);
    mc.Fill(q, Filled(0));
    ghost var mb := mc.M();
    ZeroedApart(m0, m1, mb, mc.kfreelist, d, own0, own, fl0, fl1, mc.lo, v0, k);
    OnePage(v0 + k);
    ghost var c, tabs;
    res, c, tabs := mc.Mappages(d, a, PGSIZE, q * PGSIZE, PTE_W + PTE_U);
    match res {
      case Mapped =>
        OneUnmapped(mb, d, v0 + k);
        own := GrowStep(m0, m1, mb, mc.M(), d, own0, own, fl0, fl1, tabs, v0, k);
      case NoMem =>
        NoTable(mb, mc.M(), d, fl1[1..], tabs, v0 + k);
        GrowFails(m0, m1, mb, mc.M(), d, own0, own, fl0, fl1, tabs, v0, k);
      case Remap =>
    }
  }

  lemma GrewQ(m0: Mem, m1: Mem, d: nat, own0: Owner, own: Owner, fl0: seq<nat>, fl1: seq<nat>, v0: nat, k: nat)
    requires Grew(m0, m1, d, own0, own, fl0, fl1, v0, k) && fl1 != []
    requires forall x, y :: 0 <= x < y < |fl0| ==> fl0[x] != fl0[y]
    ensures fl1[0] !in fl1[1..]
  {
    hide SpaceOk, GrewEntries, GrewTables, GrewPages, Needs;
  }

  /** Where mappages found no table there is no entry. */
  lemma NoTable(m: Mem, n: Mem, d: nat, fl: seq<nat>, tabs: seq<nat>, v: nat)
    requires d < NPAGES && v < NVPAGES && NewTables(m, n, d, fl, tabs) && TabsIn(tabs, v, 0)
    requires !Present(n[d][v / NENTRIES])
    ensures !Present(Entry(m, d, v))
  {
    assert n[d][v / NENTRIES] == m[d][v / NENTRIES];
  }

  /**
   `k` pages have been added. With a free page for every page and every missing table all
   of the range is mapped. The result of allocuvm ignores that mappages may fail: it is
   the rounded end also when only the table of the very last page was missing.
   */
  method Allocuvm(mc: Machine, d: nat, addr: u32, len: u32, ghost own0: Owner)
    returns (r: nat, panic: bool, ghost own: Owner, ghost k: nat)
    requires mc.Valid() && d < NPAGES && SpaceOk(mc.M(), d, own0) && Disjoint(own0, mc.fl)
    modifies mc, mc.mem
    ensures !panic ==> mc.Valid() && SpaceOk(mc.M(), d, own)
    ensures RangeEnd(addr, len) > KBASE ==>
      !panic && r == 0 && k == 0 && mc.M() == old(mc.M()) && mc.fl == old(mc.fl) && own == own0
    ensures RangeEnd(addr, len) <= KBASE ==>
      var v0, n := addr / PGSIZE, RangePages(addr, len);
      v0 + n <= NVPAGES && (panic <==> Remaps(old(mc.M()), d, v0, n, |old(mc.fl)|))
    ensures RangeEnd(addr, len) <= KBASE && !panic ==>
      var m, fl, v0, n := old(mc.M()), old(mc.fl), addr / PGSIZE, RangePages(addr, len);
      && v0 + n <= NVPAGES && k <= n
      && GrewEntries(m, mc.M(), d, fl, v0, k)
      && (k == n <==> Needs(m, d, v0, n) <= |fl|)
      && (k == n ==> Grew(m, mc.M(), d, own0, own, fl, mc.fl, v0, n))
      && (k < n ==> mc.fl == [] && StoppedAt(m, mc.M(), d, own0, own, fl, v0, k))
      && r == (if k == n || (k + 1 == n && LastTableMissing(m, d, v0, n, |fl|)) then RoundUp(RangeEnd(addr, len))
        else 0)
    ensures !panic ==> Rest(old(mc.M()), mc.M(), own0, old(mc.fl))
  {
    hide SpaceOk, FreeListOk, NewTables, OnlyTables, MapsRun, Grew, LostOne, Rest, GrewEntries, Needs, NeedsTable,
         Entry, TabsIn, Disjoint;
    hide RangePages, RoundUp, LastTableMissing, StoppedAt, Remaps, Unmapped;
    own, k, panic := own0, 0, false;
    ghost var m0, fl0, v0, n := mc.M(), mc.fl, addr / PGSIZE, RangePages(addr, len);
    var end: u32 := (addr + len) % TWO32;
    if end > KBASE {
      RestSame(m0, own0, fl0);
      return 0, false, own, k;
    }
    RangeFacts(addr, len);
    GrewStart(m0, d, own0, fl0, v0);
    MoreUnmapped(m0, d, v0, 0);
    mc.DistinctFree();
    var a: u32 := addr - addr % PGSIZE;
    assert a == v0 * PGSIZE;
    ghost var lost := false;
    while a < end
      invariant mc.Valid() && k <= n && a == (v0 + k + (if lost then 1 else 0)) * PGSIZE && (lost ==> k < n)
      invariant Unmapped(m0, d, v0, k)
      invariant if lost then mc.fl == [] && LostOne(m0, mc.M(), d, own0, own, fl0, v0, k)
                else Grew(m0, mc.M(), d, own0, own, fl0, mc.fl, v0, k)
      decreases end - a
    {
      ghost var m1, fl1 := mc.M(), mc.fl;
      InRange(addr, len, k + (if lost then 1 else 0));
      mc.DistinctFree();
      var v := mc.Kalloc1();
      if v == 0 {
        Failure(m0, mc.M(), d, own0, own, fl0, v0, k, n, lost);
        Stopped(m0, mc.M(), d, own0, own, fl0, v0, k, lost);
        StopNoRemap(m0, mc.M(), d, own0, own, fl0, v0, k, n, lost);
        return 0, false, own, k;
      }
      var res;
      res, own := MapZeroed(mc, d, a, (v - KBASE) / PGSIZE, m0, m1, own0, own, fl0, fl1, v0, k);
      match res {
        case Mapped =>
          MoreUnmapped(m0, d, v0, k);
          k := k + 1;
        case NoMem =>
          lost := true;
        case Remap =>
          RemapFound(m0, m1, d, own0, own, fl0, fl1, v0, k, n);
          return 0, true, own, k;
      }
      a := a + PGSIZE;
    }
    InRange(addr, len, k + (if lost then 1 else 0));
    if lost { NoRemapLost(m0, mc.M(), d, own0, own, fl0, v0, k, n); } else { NoRemap(m0, d, v0, k, n, |fl0|); }
    Finish(m0, mc.M(), d, own0, own, fl0, mc.fl, v0, k, n, lost);
    if lost { Stopped(m0, mc.M(), d, own0, own, fl0, v0, k, lost); }
    r := (end + PGSIZE - 1) - (end + PGSIZE - 1) % PGSIZE;
  }

  lemma OneUnmapped(m: Mem, d: nat, v: nat)
    requires d < NPAGES && v < NVPAGES && Unmapped(m, d, v, 1)
    ensures !Present(Entry(m, d, v))
  {
  }

  lemma StopNoRemap(m0: Mem, m: Mem, d: nat, own0: Owner, own: Owner, fl0: seq<nat>, v0: nat, k: nat, n: nat,
        lost: bool)
    requires d < NPAGES && v0 + n <= NVPAGES && k < n && Unmapped(m0, d, v0, k)
    requires if lost then LostOne(m0, m, d, own0, own, fl0, v0, k) else Grew(m0, m, d, own0, own, fl0, [], v0, k)
    ensures !Remaps(m0, d, v0, n, |fl0|)
  {
    hide LostOne, SpaceOk, GrewEntries, GrewTables, GrewPages, Remaps, Unmapped;
    if lost {
      NoRemapLost(m0, m, d, own0, own, fl0, v0, k, n);
    } else {
      NoRemap(m0, d, v0, k, n, |fl0|);
    }
  }

  lemma RemapFound(m0: Mem, m: Mem, d: nat, own0: Owner, own: Owner, fl0: seq<nat>, fl: seq<nat>, v0: nat, k: nat,
        n: nat)
    requires Grew(m0, m, d, own0, own, fl0, fl, v0, k) && fl != [] && k < n && v0 + n <= NVPAGES
    requires Present(Entry(m0, d, v0 + k))
    ensures Remaps(m0, d, v0, n, |fl0|)
  {
    hide SpaceOk, GrewEntries, GrewTables, GrewPages, Entry;
  }

  /** One page asked for where there is no table, with one page free: success is reported, and nothing is mapped. */
  method GrantsNothing(mc: Machine, d: nat, addr: u32, ghost own0: Owner) returns (r: nat, ghost own: Owner)
    requires mc.Valid() && d < NPAGES && SpaceOk(mc.M(), d, own0) && Disjoint(own0, mc.fl) && |mc.fl| == 1
    requires addr % PGSIZE == 0 && addr < KBASE && !Present(mc.M()[d][addr / PGSIZE / NENTRIES])
    modifies mc, mc.mem
    ensures mc.Valid() && r == addr + PGSIZE
    ensures forall v :: 0 <= v < NVPAGES ==> Entry(mc.M(), d, v) == Entry(old(mc.M()), d, v)
  {
    hide SpaceOk, Disjoint, Grew, StoppedAt, Rest;
    ghost var m, v0 := mc.M(), addr / PGSIZE;
    OnePageRange(addr);
    TableFirst(m, d, v0);
    var panic;
    ghost var k;
    r, panic, own, k := Allocuvm(mc, d, addr, PGSIZE, own0);
    assert k == 0;
  }

  lemma OnePageRange(addr: u32)
    requires addr % PGSIZE == 0 && addr < KBASE
    ensures RangeEnd(addr, PGSIZE) == addr + PGSIZE <= KBASE && RangePages(addr, PGSIZE) == 1
    ensures RoundUp(addr + PGSIZE) == addr + PGSIZE
  {
  }

  lemma TableFirst(m: Mem, d: nat, v0: nat)
    requires d < NPAGES && v0 < NVPAGES && !Present(m[d][v0 / NENTRIES])
    ensures Needs(m, d, v0, 0) == 0 && Needs(m, d, v0, 1) == 2 && LastTableMissing(m, d, v0, 1, 1)
    ensures !Remaps(m, d, v0, 1, 1)
  {
    assert !Present(Entry(m, d, v0 + 0));
  }

  /** The rounded numbers of allocuvm: the pages of the range are those with a byte of it, the first one whole. */
  lemma RangeMeans(addr: u32, len: u32)
    requires addr + len <= KBASE && len > 0
    ensures RangeEnd(addr, len) == addr + len && RangePages(addr, len) <= len / PGSIZE + 2
    ensures forall v :: addr / PGSIZE <= v < addr / PGSIZE + RangePages(addr, len) <==>
      addr / PGSIZE <= v && v * PGSIZE < addr + len
    ensures RoundUp(addr + len) % PGSIZE == 0 && addr + len <= RoundUp(addr + len) < addr + len + PGSIZE
  {
    var v0, end := addr / PGSIZE, addr + len;
    var top := (end + PGSIZE - 1) / PGSIZE;
    assert v0 * PGSIZE <= addr < end && top * PGSIZE % PGSIZE == 0;
    assert end <= top * PGSIZE < end + PGSIZE;
    forall v: int ensures v < top <==> v * PGSIZE < end {
      if v < top { assert v * PGSIZE <= (top - 1) * PGSIZE; } else { assert v * PGSIZE >= top * PGSIZE; }
    }
  }

  /** One page and one table at most for each. */
  lemma {:induction false} NeedsAtMost(m: Mem, d: nat, v0: nat, k: nat)
    requires d < NPAGES && v0 + k <= NVPAGES
    ensures Needs(m, d, v0, k) <= 2 * k
    decreases k
  {
    hide NeedsTable;
    if k > 0 { NeedsAtMost(m, d, v0, k - 1); }
  }

  /** Page `v` can be used and written from user mode, and is all zero. */
  predicate UserZero(m: Mem, d: nat, v: nat)
    requires d < NPAGES && v < NVPAGES
  {
    var e := Entry(m, d, v);
    e % PGSIZE == 0x007 && UserMode(e) && e / PGSIZE < NPAGES && forall j :: 0 <= j < NENTRIES ==> m[e / PGSIZE][j] == 0
  }

  /** With pages enough, every page of an unmapped range is granted, and nothing else changes. */
  method GrantsAll(mc: Machine, d: nat, addr: u32, len: u32, ghost own0: Owner) returns (r: nat, ghost own: Owner)
    requires mc.Valid() && d < NPAGES && SpaceOk(mc.M(), d, own0) && Disjoint(own0, mc.fl)
    requires addr + len <= KBASE && len > 0 && 2 * (len / PGSIZE + 2) <= |mc.fl|
    requires forall v :: addr / PGSIZE <= v && v * PGSIZE < addr + len ==> v < NVPAGES && !Present(Entry(mc.M(), d, v))
    modifies mc, mc.mem
    ensures mc.Valid() && SpaceOk(mc.M(), d, own)
    ensures r % PGSIZE == 0 && addr + len <= r < addr + len + PGSIZE
    ensures forall v :: 0 <= v < NVPAGES ==>
      if addr / PGSIZE <= v && v * PGSIZE < addr + len then UserZero(mc.M(), d, v)
      else Entry(mc.M(), d, v) == Entry(old(mc.M()), d, v)
  {
    hide SpaceOk, Disjoint, Grew, StoppedAt, Rest, RangePages, RangeEnd, RoundUp, Needs, Entry, UserZero, ZeroPageAt,
         LastTableMissing;
    RangeMeans(addr, len);
    ghost var m, v0, n := mc.M(), addr / PGSIZE, RangePages(addr, len);
    var panic;
    ghost var k;
    r, panic, own, k := Allocuvm(mc, d, addr, len, own0);
    NeedsAtMost(m, d, v0, n);
    assert !Remaps(m, d, v0, n, |old(mc.fl)|);
    hide Remaps;
    assert r == RoundUp(addr + len);
    forall v | v0 <= v < v0 + n ensures UserZero(mc.M(), d, v) {
      ZeroIsUser(mc.M(), d, v, old(mc.fl));
    }
  }

  lemma ZeroIsUser(m: Mem, d: nat, v: nat, fl: seq<nat>)
    requires d < NPAGES && v < NVPAGES && ZeroPageAt(m, d, v, fl)
    ensures UserZero(m, d, v)
  {
    hide Entry;
    UserBit(Ppn(Entry(m, d, v)));
  }
}
