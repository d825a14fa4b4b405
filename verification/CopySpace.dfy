/** copyuvm (`mm/proc.c`): the address space of a forked child. */
module CopySpace {
  import opened Words
  import opened Paging
  import opened Vm
  import opened AddressSpace

  /** Entry `(x, y)` of the child `d` maps a private copy of what the parent `d0` maps there, if anything. */
  ghost predicate CopiedAt(m0: Mem, m: Mem, d0: nat, d: nat, x: nat, y: nat)
    requires d0 < NPAGES && d < NPAGES && x < KPDE && y < NENTRIES
  {
    var e0, e := EntryAt(m0, d0, x, y), EntryAt(m, d, x, y);
    && (Present(e) <==> Present(e0))
    && (Present(e) ==> Ppn(e) < NPAGES && Ppn(e0) < NPAGES
                       && e == MakePte(Ppn(e), PTE_W + PTE_U) && m[Ppn(e)] == m0[Ppn(e0)])
  }

  /** The user entries before position `(i, j)` have been copied; those after it are empty. */
  ghost predicate CopiedTo(m0: Mem, m: Mem, d0: nat, d: nat, i: nat, j: nat)
    requires d0 < NPAGES && d < NPAGES
  {
    forall x, y :: 0 <= x < KPDE && 0 <= y < NENTRIES ==>
      if Before(Leaf(x, y), i, j) then CopiedAt(m0, m, d0, d, x, y) else !Present(EntryAt(m, d, x, y))
  }

  ghost predicate KernelHalf(m: Mem, d: nat, data: u32)
    requires d < NPAGES && DataOk(data)
  {
    forall v :: KV <= v < NVPAGES ==> Entry(m, d, v) == KernelEntry(data, 4, v)
  }

  /** How far copyuvm has come. */
  ghost predicate Copying(m0: Mem, m: Mem, d0: nat, d: nat, own: Owner, fl0: seq<nat>, fl: seq<nat>, data: u32, i: nat,
        j: nat) {
    && d0 < NPAGES && d < NPAGES && DataOk(data)
    && NewSpace(m0, m, d, own, fl0, fl) && CopiedTo(m0, m, d0, d, i, j) && KernelHalf(m, d, data)
  }

  /** `m2` is `m1` after page `q`, filled with the parent's page, has been mapped at user entry `(i, j)`. */
  ghost predicate MappedCopy(m0: Mem, m1: Mem, mb: Mem, m2: Mem, d0: nat, d: nat, fl: seq<nat>, tabs: seq<nat>, q: nat,
        i: nat, j: nat) {
    && d0 < NPAGES && d < NPAGES && q < NPAGES && i < KPDE && j < NENTRIES
    && Present(EntryAt(m0, d0, i, j)) && Ppn(EntryAt(m0, d0, i, j)) < NPAGES
    && mb == m1[q := m0[Ppn(EntryAt(m0, d0, i, j))]]
    && NewTables(mb, m2, d, fl, tabs) && OnlyTables(mb, m2, d)
    && MapsRun(mb, m2, d, i * NENTRIES + j, 1, q, PTE_W + PTE_U)
  }

  lemma UserIndex(i: nat, j: nat)
    requires i < KPDE && j < NENTRIES
    ensures var v := i * NENTRIES + j; v < KV && v / NENTRIES == i && v % NENTRIES == j
    ensures PageCount((i * NENTRIES + j) * PGSIZE, PGSIZE) == 1
  {
    var v := i * NENTRIES + j;
    assert (v * PGSIZE + PGSIZE - 1) % TWO32 == v * PGSIZE + (PGSIZE - 1);
    assert (v * PGSIZE + (PGSIZE - 1)) / PGSIZE == v;
  }

  lemma RunIsChange(m: Mem, n: Mem, d: nat, q: nat, i: nat, j: nat)
    requires d < NPAGES && q < NPAGES && i < KPDE && j < NENTRIES
    requires MapsRun(m, n, d, i * NENTRIES + j, 1, q, PTE_W + PTE_U) && !Present(EntryAt(m, d, i, j))
    ensures UserChange(m, n, d, q, i, j) && EntryAt(n, d, i, j) == MakePte(q, PTE_W + PTE_U)
    ensures forall v :: KV <= v < NVPAGES ==> Entry(n, d, v) == Entry(m, d, v)
  {
    var w := i * NENTRIES + j;
    UserIndex(i, j);
    assert Entry(n, d, w) == PteFor(q, 0, PTE_W + PTE_U);
    forall x, y | 0 <= x < KPDE && 0 <= y < NENTRIES && !(x == i && y == j)
      ensures EntryAt(n, d, x, y) == EntryAt(m, d, x, y)
    {
      UserIndex(x, y);
      var v := x * NENTRIES + y;
      assert Entry(n, d, v) == Entry(m, d, v);
    }
  }

  /** Filling a page that the space does not own changes no entry. */
  lemma FillKeeps(m1: Mem, mb: Mem, d: nat, own: Owner, q: nat)
    requires SpaceOk(m1, d, own) && q < NPAGES && q !in own && mb == m1[q := mb[q]]
    ensures SpaceOk(mb, d, own)
    ensures forall x, y :: 0 <= x < NENTRIES && 0 <= y < NENTRIES ==> EntryAt(mb, d, x, y) == EntryAt(m1, d, x, y)
  {
    SpaceFrame(m1, mb, d, own);
  }

  /** A page in a leaf slot is neither the directory nor a table, so mappages does not write it. */
  lemma LeafKept(mb: Mem, m2: Mem, d: nat, own': Owner, p: nat)
    requires SpaceOk(m2, d, own') && p in own' && own'[p].Leaf? && d < NPAGES && p < NPAGES && OnlyTables(mb, m2, d)
    ensures m2[p] == mb[p]
  {
    hide SpaceOk;
    SpaceIsDir(m2, d, own');
    if IsTable(m2, d, p) {
      var x :| 0 <= x < NENTRIES && Present(m2[d][x]) && Ppn(m2[d][x]) == p;
      SlotOwned(m2, d, own', Table(x));
    }
  }

  lemma CopyStep(m0: Mem, m1: Mem, mb: Mem, m2: Mem, d0: nat, d: nat, own: Owner, fl0: seq<nat>, fl1: seq<nat>,
                 data: u32, tabs: seq<nat>, i: nat, j: nat) returns (own': Owner)
    requires Copying(m0, m1, d0, d, own, fl0, fl1, data, i, j)
    requires forall a :: 0 <= a < |fl0| ==> fl0[a] < NPAGES
    requires forall a, b :: 0 <= a < b < |fl0| ==> fl0[a] != fl0[b]
    requires fl1 != [] && MappedCopy(m0, m1, mb, m2, d0, d, fl1[1..], tabs, fl1[0], i, j)
    ensures |tabs| < |fl1| && Copying(m0, m2, d0, d, own', fl0, fl1[1..][|tabs|..], data, i, j + 1)
  {
    hide SpaceOk, NewTables, OnlyTables, Taken, UserChange, MapsRun, CopiedAt;
    var q := fl1[0];
    TakenDisjoint(own, fl0, fl1);
    NotOwned(own, fl1, q);
    FillKeeps(m1, mb, d, own, q);
    RunIsChange(mb, m2, d, q, i, j);
    SpaceGrows(m0, m1, mb, m2, d, own, fl0, fl1, fl1[1..], tabs, q, i, j);
    own' := Grown(own, fl1[1..], tabs, q, i, j);
    assert own'[q] == Leaf(i, j);
    LeafKept(mb, m2, d, own', q);
    CopyEntries(m0, m1, mb, m2, d0, d, own, own', q, i, j);
    KernelKept(m1, mb, m2, d, data);
  }

  lemma KernelKept(m1: Mem, mb: Mem, m2: Mem, d: nat, data: u32)
    requires d < NPAGES && DataOk(data) && KernelHalf(m1, d, data)
    requires forall x, y :: 0 <= x < NENTRIES && 0 <= y < NENTRIES ==> EntryAt(mb, d, x, y) == EntryAt(m1, d, x, y)
    requires forall v :: KV <= v < NVPAGES ==> Entry(m2, d, v) == Entry(mb, d, v)
    ensures KernelHalf(m2, d, data)
  {
    SameEntries(m1, mb, d);
  }

  lemma CopyEntries(m0: Mem, m1: Mem, mb: Mem, m2: Mem, d0: nat, d: nat, own: Owner, own': Owner, q: nat, i: nat,
        j: nat)
    requires d0 < NPAGES && d < NPAGES && q < NPAGES && i < KPDE && j < NENTRIES
    requires CopiedTo(m0, m1, d0, d, i, j) && SpaceOk(m1, d, own) && SpaceOk(m2, d, own')
    requires q !in own && q in own' && own'[q] == Leaf(i, j)
    requires forall p :: 0 <= p < NPAGES && p != q ==> mb[p] == m1[p]
    requires forall x, y :: 0 <= x < NENTRIES && 0 <= y < NENTRIES ==> EntryAt(mb, d, x, y) == EntryAt(m1, d, x, y)
    requires UserChange(mb, m2, d, q, i, j) && OnlyTables(mb, m2, d) && m2[q] == mb[q]
    requires Present(EntryAt(m0, d0, i, j)) && Ppn(EntryAt(m0, d0, i, j)) < NPAGES
      && mb[q] == m0[Ppn(EntryAt(m0, d0, i, j))]
    requires EntryAt(m2, d, i, j) == MakePte(q, PTE_W + PTE_U)
    ensures CopiedTo(m0, m2, d0, d, i, j + 1)
  {
    hide SpaceOk, OnlyTables;
    forall x, y | 0 <= x < KPDE && 0 <= y < NENTRIES
      ensures if Before(Leaf(x, y), i, j + 1) then CopiedAt(m0, m2, d0, d, x, y) else !Present(EntryAt(m2, d, x, y))
    {
      if x == i && y == j {
      } else {
        assert EntryAt(m2, d, x, y) == EntryAt(m1, d, x, y);
        if Before(Leaf(x, y), i, j) && Present(EntryAt(m1, d, x, y)) {
          var p := Ppn(EntryAt(m1, d, x, y));
          SlotOwned(m1, d, own, Leaf(x, y));
          SlotOwned(m2, d, own', Leaf(x, y));
          LeafKept(mb, m2, d, own', p);
        }
      }
    }
  }

  lemma SkipEntry(m0: Mem, m: Mem, d0: nat, d: nat, i: nat, j: nat)
    requires d0 < NPAGES && d < NPAGES && i < KPDE && j < NENTRIES
    requires CopiedTo(m0, m, d0, d, i, j) && !Present(EntryAt(m0, d0, i, j))
    ensures CopiedTo(m0, m, d0, d, i, j + 1)
  {
  }

  lemma NextRow(m0: Mem, m: Mem, d0: nat, d: nat, i: nat, j: nat)
    requires d0 < NPAGES && d < NPAGES && i < KPDE && CopiedTo(m0, m, d0, d, i, j)
    requires j == NENTRIES || (j == 0 && !Present(m0[d0][i]))
    ensures CopiedTo(m0, m, d0, d, i + 1, 0)
  {
    hide CopiedAt;
    forall x, y | 0 <= x < KPDE && 0 <= y < NENTRIES
      ensures if Before(Leaf(x, y), i + 1, 0) then CopiedAt(m0, m, d0, d, x, y) else !Present(EntryAt(m, d, x, y))
    {
      assert Before(Leaf(x, y), i + 1, 0) <==> x < i || x == i;
      if x == i && j == 0 {
        NothingToCopy(m0, m, d0, d, x, y);
      }
    }
  }

  lemma NothingToCopy(m0: Mem, m: Mem, d0: nat, d: nat, x: nat, y: nat)
    requires d0 < NPAGES && d < NPAGES && x < KPDE && y < NENTRIES
    requires !Present(m0[d0][x]) && !Present(EntryAt(m, d, x, y))
    ensures CopiedAt(m0, m, d0, d, x, y)
  {
  }

  /** The parent's pages are not the child's, so they are as they were. */
  lemma ParentKept(m0: Mem, m: Mem, d0: nat, ownp: Owner, d: nat, own: Owner, fl0: seq<nat>, fl: seq<nat>)
    requires NewSpace(m0, m, d, own, fl0, fl) && SpaceOk(m0, d0, ownp) && Disjoint(ownp, fl0)
    ensures forall p :: p in ownp ==> p < NPAGES && p !in own && m[p] == m0[p]
  {
    hide SpaceOk;
    TakenSubset(own, fl0, fl);
    forall p | p in ownp ensures p < NPAGES && p !in own {
      OwnedSlot(m0, d0, ownp, p);
    }
  }

  /** The table of a parent's directory entry, and the page of one of its entries. */
  lemma ParentEntry(m0: Mem, d0: nat, ownp: Owner, i: nat, j: nat)
    requires d0 < NPAGES && SpaceOk(m0, d0, ownp) && i < KPDE && j < NENTRIES && Present(m0[d0][i])
    ensures d0 in ownp && Ppn(m0[d0][i]) in ownp && Ppn(m0[d0][i]) < NPAGES
    ensures EntryAt(m0, d0, i, j) == m0[Ppn(m0[d0][i])][j]
    ensures Present(EntryAt(m0, d0, i, j)) ==> Ppn(EntryAt(m0, d0, i, j)) in ownp && Ppn(EntryAt(m0, d0, i, j)) < NPAGES
  {
    hide SpaceOk;
    SpaceIsDir(m0, d0, ownp);
    SlotOwned(m0, d0, ownp, Table(i));
    if Present(EntryAt(m0, d0, i, j)) {
      SlotOwned(m0, d0, ownp, Leaf(i, j));
    }
  }

  // What it costs

  /** How many of the first `j` entries of the parent's table `i` map a page. */
  function LeafCount(m: Mem, d0: nat, i: nat, j: nat): nat
    requires d0 < NPAGES && i < NENTRIES && j <= NENTRIES
  {
    if j == 0 then 0 else LeafCount(m, d0, i, j - 1) + (if Present(EntryAt(m, d0, i, j - 1)) then 1 else 0)
  }

  /** The pages to copy them: one each, and one for the table they share. */
  function RowNeeds(m: Mem, d0: nat, i: nat, j: nat): nat
    requires d0 < NPAGES && i < NENTRIES && j <= NENTRIES
  {
    LeafCount(m, d0, i, j) + (if LeafCount(m, d0, i, j) > 0 then 1 else 0)
  }

  function UserNeeds(m: Mem, d0: nat, i: nat): nat
    requires d0 < NPAGES && i <= KPDE
  {
    if i == 0 then 0 else UserNeeds(m, d0, i - 1) + RowNeeds(m, d0, i - 1, NENTRIES)
  }

  /** The free pages it takes to copy space `d0`. */
  function CopyNeeds(m: Mem, d0: nat): nat
    requires d0 < NPAGES
  {
    KERNEL_NEEDS + UserNeeds(m, d0, KPDE)
  }

  /** With `free` pages the copy comes to the first page of some table, and there is none left for the table. */
  ghost predicate CopyLoses(m: Mem, d0: nat, free: nat)
    requires d0 < NPAGES
  {
    exists i :: 0 <= i < KPDE && KERNEL_NEEDS + UserNeeds(m, d0, i) + 1 == free && LeafCount(m, d0, i, NENTRIES) > 0
  }

  /** The page that is lost then, the last free one; NPAGES if none is. */
  ghost function LostPage(m: Mem, d0: nat, fl: seq<nat>): nat
    requires d0 < NPAGES
  {
    if CopyLoses(m, d0, |fl|) && fl != [] then fl[|fl| - 1] else NPAGES
  }

  /** The pages used up on the way to entry `(i, j)`, and the tables the child has by then. */
  ghost predicate Spent(m0: Mem, m: Mem, d0: nat, d: nat, fl0: seq<nat>, fl: seq<nat>, i: nat, j: nat) {
    && d0 < NPAGES && d < NPAGES && i <= KPDE && j <= NENTRIES
    && |fl| + KERNEL_NEEDS + UserNeeds(m0, d0, i) + RowNeeds(m0, d0, i, j) == |fl0|
    && forall x :: 0 <= x < KPDE ==>
         (Present(m[d][x]) <==> LeafCount(m0, d0, x, if x < i then NENTRIES else if x == i then j else 0) > 0)
  }

  lemma SpentStart(m0: Mem, m: Mem, d0: nat, d: nat, fl0: seq<nat>, fl: seq<nat>)
    requires d0 < NPAGES && d < NPAGES && |fl| + KERNEL_NEEDS == |fl0|
    requires forall i :: 0 <= i < KPDE ==> !Present(m[d][i])
    ensures Spent(m0, m, d0, d, fl0, fl, 0, 0)
  {
  }

  lemma SpentSkip(m0: Mem, m: Mem, d0: nat, d: nat, fl0: seq<nat>, fl: seq<nat>, i: nat, j: nat)
    requires Spent(m0, m, d0, d, fl0, fl, i, j) && i < KPDE && j < NENTRIES && !Present(EntryAt(m0, d0, i, j))
    ensures Spent(m0, m, d0, d, fl0, fl, i, j + 1)
  {
  }

  /** A page mapped takes a table exactly if it is the first of its table. */
  lemma SpentStep(m0: Mem, m1: Mem, mb: Mem, m2: Mem, d0: nat, d: nat, fl0: seq<nat>, fl1: seq<nat>, tabs: seq<nat>,
        q: nat, i: nat, j: nat)
    requires Spent(m0, m1, d0, d, fl0, fl1, i, j) && i < KPDE && j < NENTRIES && Present(EntryAt(m0, d0, i, j))
    requires mb[d] == m1[d] && fl1 != [] && NewTables(mb, m2, d, fl1[1..], tabs) && TabsIn(tabs, i * NENTRIES + j, 1)
    requires MapsRun(mb, m2, d, i * NENTRIES + j, 1, q, PTE_W + PTE_U)
    ensures Spent(m0, m2, d0, d, fl0, fl1[1..][|tabs|..], i, j + 1)
  {
    hide MapsRun, EntryAt;
    UserIndex(i, j);
    TablesAdded(mb, m2, d, fl1[1..], tabs, i * NENTRIES + j, 1, q, PTE_W + PTE_U);
    hide Covers;
    CoversOne(i * NENTRIES + j, i);
    CountTabs(tabs, i, i + 1, if Present(mb[d][i]) then i else -1);
    assert |tabs| == if Present(m1[d][i]) then 0 else 1;
    assert LeafCount(m0, d0, i, j + 1) == LeafCount(m0, d0, i, j) + 1;
  }

  lemma CoversOne(v: nat, i: nat)
    requires v / NENTRIES == i
    ensures forall x: nat :: Covers(v, 1, x) <==> x == i
  {
  }

  lemma SpentRow(m0: Mem, m: Mem, d0: nat, d: nat, fl0: seq<nat>, fl: seq<nat>, i: nat, j: nat)
    requires Spent(m0, m, d0, d, fl0, fl, i, j) && i < KPDE
    requires j == NENTRIES || (j == 0 && !Present(m0[d0][i]))
    ensures Spent(m0, m, d0, d, fl0, fl, i + 1, 0)
  {
    if j == 0 { NoLeaves(m0, d0, i, NENTRIES); }
  }

  lemma {:induction false} NoLeaves(m: Mem, d0: nat, i: nat, j: nat)
    requires d0 < NPAGES && i < NENTRIES && j <= NENTRIES && !Present(m[d0][i])
    ensures LeafCount(m, d0, i, j) == 0
    decreases j
  {
    if j > 0 { NoLeaves(m, d0, i, j - 1); }
  }

  lemma {:induction false} LeafCountGrows(m: Mem, d0: nat, i: nat, j: nat, k: nat)
    requires d0 < NPAGES && i < NENTRIES && j <= k <= NENTRIES
    ensures LeafCount(m, d0, i, j) <= LeafCount(m, d0, i, k)
    decreases k
  {
    if j < k { LeafCountGrows(m, d0, i, j, k - 1); }
  }

  lemma {:induction false} UserNeedsGrows(m: Mem, d0: nat, i: nat, k: nat)
    requires d0 < NPAGES && i <= k <= KPDE
    ensures UserNeeds(m, d0, i) <= UserNeeds(m, d0, k)
    ensures i < k ==> UserNeeds(m, d0, i) + RowNeeds(m, d0, i, NENTRIES) <= UserNeeds(m, d0, k)
    decreases k
  {
    if i < k { UserNeedsGrows(m, d0, i, k - 1); }
  }

  /** No page at entry `(i, j)`: neither is one lost. */
  lemma StopsAtPage(m: Mem, d0: nat, fl: seq<nat>, i: nat, j: nat)
    requires d0 < NPAGES && i < KPDE && j < NENTRIES && Present(EntryAt(m, d0, i, j))
    requires |fl| == KERNEL_NEEDS + UserNeeds(m, d0, i) + RowNeeds(m, d0, i, j)
    ensures |fl| < CopyNeeds(m, d0) && LostPage(m, d0, fl) == NPAGES
  {
    hide EntryAt;
    LeafCountGrows(m, d0, i, j + 1, NENTRIES);
    assert LeafCount(m, d0, i, j + 1) == LeafCount(m, d0, i, j) + 1;
    assert RowNeeds(m, d0, i, j) < RowNeeds(m, d0, i, NENTRIES);
    UserNeedsGrows(m, d0, i, KPDE);
    if CopyLoses(m, d0, |fl|) {
      var x :| 0 <= x < KPDE && KERNEL_NEEDS + UserNeeds(m, d0, x) + 1 == |fl| && LeafCount(m, d0, x, NENTRIES) > 0;
      hide LeafCount, UserNeeds;
      if x < i {
        UserNeedsGrows(m, d0, x, i);
      } else if x > i {
        UserNeedsGrows(m, d0, i, x);
      }
      assert false;
    }
  }

  /** A page at entry `(i, j)`, the first of its table, and no page for that. */
  lemma StopsAtTable(m: Mem, d0: nat, fl: seq<nat>, i: nat, j: nat)
    requires d0 < NPAGES && i < KPDE && j < NENTRIES && Present(EntryAt(m, d0, i, j)) && LeafCount(m, d0, i, j) == 0
    requires |fl| == KERNEL_NEEDS + UserNeeds(m, d0, i) + 1
    ensures |fl| < CopyNeeds(m, d0) && LostPage(m, d0, fl) == fl[|fl| - 1]
  {
    hide EntryAt;
    assert LeafCount(m, d0, i, j + 1) == 1;
    hide LeafCount, UserNeeds;
    LeafCountGrows(m, d0, i, j + 1, NENTRIES);
    UserNeedsGrows(m, d0, i, KPDE);
    assert CopyLoses(m, d0, |fl|);
  }

  /** What is left when copying fails: a space that freevm can take apart. */
  ghost predicate Abandoned(m0: Mem, m: Mem, d: nat, own: Owner, fl0: seq<nat>, fl: seq<nat>) {
    && SpaceOk(m, d, own) && Disjoint(own, fl)
    && own.Keys <= ToSet(fl0) && ToSet(fl) <= ToSet(fl0)
    && forall p :: 0 <= p < NPAGES && p !in fl0 ==> m[p] == m0[p]
  }

  /** Of the free pages `fl0` all but `q` are in `keys` or still free. */
  ghost predicate AllBut(keys: set<nat>, fl0: seq<nat>, fl: seq<nat>, q: nat) {
    ToSet(fl0) - {q} == keys + ToSet(fl)
  }

  lemma AllTaken(own: Owner, fl0: seq<nat>, fl: seq<nat>)
    requires Taken(own.Keys, fl0, fl) && forall a :: 0 <= a < |fl0| ==> fl0[a] < NPAGES
    ensures AllBut(own.Keys, fl0, fl, NPAGES) && ToSet(fl0) == own.Keys + ToSet(fl)
  {
    assert fl0 == fl0[..|fl0| - |fl|] + fl;
    ToSetJoin(fl0[..|fl0| - |fl|], fl);
  }

  lemma AllButFirst(own: Owner, fl0: seq<nat>, fl: seq<nat>)
    requires Taken(own.Keys, fl0, fl) && fl != [] && forall a :: 0 <= a < |fl0| ==> fl0[a] < NPAGES
    requires forall a, b :: 0 <= a < b < |fl0| ==> fl0[a] != fl0[b]
    ensures AllBut(own.Keys, fl0, fl[1..], fl[0])
  {
    AllTaken(own, fl0, fl);
    TakenDisjoint(own, fl0, fl);
    assert fl == [fl[0]] + fl[1..] && fl[0] in fl;
    ToSetJoin([fl[0]], fl[1..]);
    assert ToSet([fl[0]]) == {fl[0]};
    assert fl[0] !in ToSet(fl[1..]);
  }

  lemma AllButTables(own: Owner, own': Owner, fl0: seq<nat>, fl: seq<nat>, n: nat, q: nat)
    requires AllBut(own.Keys, fl0, fl, q) && n <= |fl| && own'.Keys == own.Keys + ToSet(fl[..n])
    ensures AllBut(own'.Keys, fl0, fl[n..], q)
  {
    assert fl == fl[..n] + fl[n..];
    ToSetJoin(fl[..n], fl[n..]);
  }

  lemma CanAbandon(m0: Mem, m: Mem, d: nat, own: Owner, fl0: seq<nat>, fl: seq<nat>, fl2: seq<nat>)
    requires NewSpace(m0, m, d, own, fl0, fl) && (fl2 == fl || (fl != [] && fl2 == fl[1..]))
    requires forall a, b :: 0 <= a < b < |fl0| ==> fl0[a] != fl0[b]
    ensures Abandoned(m0, m, d, own, fl0, fl2)
  {
    hide SpaceOk;
    TakenDisjoint(own, fl0, fl);
    TakenSubset(own, fl0, fl);
  }

  /** Mappages that ran out of pages has only added tables. */
  lemma AbandonTables(m0: Mem, mb: Mem, m2: Mem, d: nat, own: Owner, fl0: seq<nat>, fl: seq<nat>, tabs: seq<nat>,
        v0: nat, pp: nat)
      returns (own': Owner)
    requires Abandoned(m0, mb, d, own, fl0, fl) && d < NPAGES && pp < NPAGES
    requires forall a :: 0 <= a < |fl| ==> fl[a] < NPAGES
    requires forall a, b :: 0 <= a < b < |fl| ==> fl[a] != fl[b]
    requires NewTables(mb, m2, d, fl, tabs) && OnlyTables(mb, m2, d) && MapsRun(mb, m2, d, v0, 0, pp, PTE_W + PTE_U)
    ensures |tabs| <= |fl| && Abandoned(m0, m2, d, own', fl0, fl[|tabs|..])
    ensures own'.Keys == own.Keys + ToSet(fl[..|tabs|])
  {
    hide SpaceOk, NewTables, OnlyTables;
    TablesBound(mb, m2, d, fl, tabs);
    NoRunUser(mb, m2, d, v0, pp);
    GrownOk(mb, m2, d, own, fl, tabs, -1, 0, 0);
    own' := Grown(own, fl, tabs, -1, 0, 0);
    GrownPages(own, fl, tabs, -1, 0, 0);
    forall p | p in own' ensures p in fl0 {
      assert p in own || p in ToSet(fl[..|tabs|]);
      assert p in own ==> p in ToSet(fl0);
      assert p in fl ==> p in ToSet(fl);
    }
    forall p | p in fl[|tabs|..] ensures p in fl0 {
      assert p in ToSet(fl);
    }
    AbandonRest(m0, mb, m2, d, own', fl0);
  }

  lemma AbandonRest(m0: Mem, mb: Mem, m2: Mem, d: nat, own': Owner, fl0: seq<nat>)
    requires d < NPAGES && SpaceOk(m2, d, own') && OnlyTables(mb, m2, d) && forall p :: p in own' ==> p in fl0
    requires forall p :: 0 <= p < NPAGES && p !in fl0 ==> mb[p] == m0[p]
    ensures forall p :: 0 <= p < NPAGES && p !in fl0 ==> m2[p] == m0[p]
  {
    hide SpaceOk;
    SpaceIsDir(m2, d, own');
    forall p | 0 <= p < NPAGES && p !in fl0 ensures m2[p] == m0[p] {
      if IsTable(m2, d, p) {
        var x :| 0 <= x < NENTRIES && Present(m2[d][x]) && Ppn(m2[d][x]) == p;
        SlotOwned(m2, d, own', Table(x));
      }
    }
  }

  lemma NoRunUser(m: Mem, n: Mem, d: nat, v0: nat, pp: nat)
    requires d < NPAGES && MapsRun(m, n, d, v0, 0, pp, PTE_W + PTE_U)
    ensures UserChange(m, n, d, -1, 0, 0)
  {
    forall x, y | 0 <= x < KPDE && 0 <= y < NENTRIES ensures EntryAt(n, d, x, y) == EntryAt(m, d, x, y) {
      UserIndex(x, y);
      assert Entry(n, d, x * NENTRIES + y) == Entry(m, d, x * NENTRIES + y);
    }
  }

  /** The inner loop of copyuvm: the pages of the parent's table `t`, that of directory entry `i`. */
  method CopyTable(mc: Machine, d0: nat, d: nat, i: nat, t: nat, ghost data: u32,
                   ghost m0: Mem, ghost fl0: seq<nat>, ghost ownp: Owner, ghost own0: Owner)
      returns (ok: bool, ghost own: Owner)
    requires mc.Valid() && i < KPDE && Copying(m0, mc.M(), d0, d, own0, fl0, mc.fl, data, i, 0)
    requires Spent(m0, mc.M(), d0, d, fl0, mc.fl, i, 0)
    requires SpaceOk(m0, d0, ownp) && Disjoint(ownp, fl0) && Present(m0[d0][i]) && t == Ppn(m0[d0][i])
    requires forall a :: 0 <= a < |fl0| ==> mc.lo <= fl0[a] < NPAGES
    requires forall a, b :: 0 <= a < b < |fl0| ==> fl0[a] != fl0[b]
    modifies mc, mc.mem
    ensures mc.Valid()
    ensures ok ==> Copying(m0, mc.M(), d0, d, own, fl0, mc.fl, data, i, NENTRIES)
    ensures ok ==> Spent(m0, mc.M(), d0, d, fl0, mc.fl, i, NENTRIES)
    ensures !ok ==> Abandoned(m0, mc.M(), d, own, fl0, mc.fl)
    ensures !ok ==> |fl0| < CopyNeeds(m0, d0) && AllBut(own.Keys, fl0, mc.fl, LostPage(m0, d0, fl0))
  {
    hide AllBut, SpaceOk, FreeListOk, NewTables, OnlyTables, MapsRun, Taken, CopiedTo, KernelHalf, EntryAt, Spent;
    hide CopyNeeds, LostPage, TabsIn;
    own := own0;
    var j := 0;
    while j < NENTRIES
      invariant 0 <= j <= NENTRIES && mc.Valid() && Copying(m0, mc.M(), d0, d, own, fl0, mc.fl, data, i, j)
      invariant Spent(m0, mc.M(), d0, d, fl0, mc.fl, i, j)
    {
      ghost var m1, fl1 := mc.M(), mc.fl;
      ParentEntry(m0, d0, ownp, i, j);
      ParentKept(m0, m1, d0, ownp, d, own, fl0, fl1);
      TakenDisjoint(own, fl0, fl1);
      if Present(mc.mem[t][j]) {
        var src := Ppn(mc.mem[t][j]);
        mc.DistinctFree();
        CanAbandon(m0, m1, d, own, fl0, fl1, fl1);
        var v := mc.Kalloc1();
        if v == 0 {
          AllTaken(own, fl0, fl1);
          SpentAll(m0, m1, d0, d, fl0, fl1, i, j);
          return false, own;
        }
        var q := (v - KBASE) / PGSIZE;
        CanAbandon(m0, m1, d, own, fl0, fl1, mc.fl);
        mc.Fill(q, mc.mem[src]);
        ghost var mb := mc.M();
        CopyInto(m0, m1, mb, mc.kfreelist, d0, d, own, fl0, fl1, mc.lo, i, j, q);
        UserIndex(i, j);
        EntryIndex(mb, d, i, j);
        mc.DistinctFree();
        var r, k, tabs := mc.Mappages(d, (i * NENTRIES + j) * PGSIZE, PGSIZE, q * PGSIZE, PTE_W + PTE_U);
        match r
        case NoMem =>
          ghost var ownb := own;
          AllButFirst(own, fl0, fl1);
          own := AbandonTables(m0, mb, mc.M(), d, own, fl0, fl1[1..], tabs, i * NENTRIES + j, q);
          AllButTables(ownb, own, fl0, fl1[1..], |tabs|, q);
          SpentOne(m0, m1, mb, mc.M(), d0, d, ownb, fl0, fl1, tabs, i, j);
          return false, own;
        case Remap => assert false;
        case Mapped =>
          own := CopyStep(m0, m1, mb, mc.M(), d0, d, own, fl0, fl1, data, tabs, i, j);
          SpentStep(m0, m1, mb, mc.M(), d0, d, fl0, fl1, tabs, q, i, j);
      } else {
        SkipEntry(m0, m1, d0, d, i, j);
        SpentSkip(m0, m1, d0, d, fl0, fl1, i, j);
      }
      j := j + 1;
    }
    return true, own;
  }

  lemma SpentAll(m0: Mem, m: Mem, d0: nat, d: nat, fl0: seq<nat>, fl: seq<nat>, i: nat, j: nat)
    requires Spent(m0, m, d0, d, fl0, fl, i, j) && i < KPDE && j < NENTRIES && fl == []
    requires Present(EntryAt(m0, d0, i, j))
    ensures |fl0| < CopyNeeds(m0, d0) && LostPage(m0, d0, fl0) == NPAGES
  {
    hide EntryAt, RowNeeds, UserNeeds;
    StopsAtPage(m0, d0, fl0, i, j);
  }

  lemma SpentOne(m0: Mem, m1: Mem, mb: Mem, m2: Mem, d0: nat, d: nat, own: Owner, fl0: seq<nat>, fl1: seq<nat>,
        tabs: seq<nat>, i: nat, j: nat)
    requires Spent(m0, m1, d0, d, fl0, fl1, i, j) && i < KPDE && j < NENTRIES && Present(EntryAt(m0, d0, i, j))
    requires Taken(own.Keys, fl0, fl1) && fl1 != [] && mb[d] == m1[d]
    requires NewTables(mb, m2, d, fl1[1..], tabs) && TabsIn(tabs, i * NENTRIES + j, 0) && fl1[1..][|tabs|..] == []
    requires !Present(m2[d][(i * NENTRIES + j) / NENTRIES])
    ensures |fl0| < CopyNeeds(m0, d0) && LostPage(m0, d0, fl0) == fl1[0]
  {
    hide EntryAt, LeafCount, UserNeeds;
    UserIndex(i, j);
    assert tabs == [] && |fl1| == 1 && fl1[0] == fl0[|fl0| - 1];
    assert LeafCount(m0, d0, i, j) == 0;
    StopsAtTable(m0, d0, fl0, i, j);
  }

  lemma EntryIndex(m: Mem, d: nat, i: nat, j: nat)
    requires d < NPAGES && i < KPDE && j < NENTRIES
    ensures Entry(m, d, i * NENTRIES + j) == EntryAt(m, d, i, j)
  {
    UserIndex(i, j);
  }

  /** Filling the page just taken keeps the free list and the space, and entry `(i, j)` is still empty. */
  lemma CopyInto(m0: Mem, m1: Mem, mb: Mem, head: u32, d0: nat, d: nat, own: Owner, fl0: seq<nat>, fl1: seq<nat>,
        lo: nat,
                 i: nat, j: nat, q: nat)
    requires fl1 != [] && q == fl1[0] && q < NPAGES && mb == m1[q := mb[q]] && i < KPDE && j < NENTRIES
    requires d0 < NPAGES && d < NPAGES && NewSpace(m0, m1, d, own, fl0, fl1) && CopiedTo(m0, m1, d0, d, i, j)
    requires FreeListOk(m1, head, fl1[1..], lo) && Disjoint(own, fl1) && q !in fl1[1..]
    requires forall a, b :: 0 <= a < b < |fl0| ==> fl0[a] != fl0[b]
    ensures FreeListOk(mb, head, fl1[1..], lo) && Apart(mb, d, fl1[1..]) && !Present(EntryAt(mb, d, i, j))
    ensures mb[d] == m1[d]
    ensures Abandoned(m0, mb, d, own, fl0, fl1[1..])
  {
    hide SpaceOk, CopiedAt;
    StoreFree(m1, mb, head, fl1[1..], lo, q);
    NotOwned(own, fl1, q);
    SpaceIsDir(m1, d, own);
    FillKeeps(m1, mb, d, own, q);
    SpaceApart(mb, d, own, fl1[1..]);
    CanAbandon(m0, m1, d, own, fl0, fl1, fl1[1..]);
    assert q in fl0;
    assert !Before(Leaf(i, j), i, j);
  }

  /**
   The new directory maps exactly the parent's user pages, each to a private page with the
   same bytes; every page it owns came off the free list; the parent is untouched. It
   succeeds if and only if there are CopyNeeds free pages. When it fails, all it took is
   free again but for LostPage, unless setupkvm has already used up the free list.
   */
  method Copyuvm(mc: Machine, d0: nat, data: u32, ghost ownp: Owner) returns (d: int, ghost own: Owner)
    requires mc.Valid() && DataOk(data) && d0 < NPAGES && SpaceOk(mc.M(), d0, ownp) && Disjoint(ownp, mc.fl)
    modifies mc, mc.mem
    ensures mc.Valid() && ToSet(mc.fl) <= ToSet(old(mc.fl))
    ensures SpaceOk(mc.M(), d0, ownp) && forall p :: p in ownp ==> p < NPAGES && mc.M()[p] == old(mc.M())[p]
    ensures forall p :: 0 <= p < NPAGES && p !in old(mc.fl) ==> mc.M()[p] == old(mc.M())[p]
    ensures d != -1 <==> CopyNeeds(old(mc.M()), d0) <= |old(mc.fl)|
    ensures d != -1 ==> |mc.fl| + CopyNeeds(old(mc.M()), d0) == |old(mc.fl)|
    ensures d == -1 && |old(mc.fl)| < KERNEL_NEEDS ==> mc.fl == []
    ensures d == -1 && |old(mc.fl)| >= KERNEL_NEEDS ==>
      ToSet(mc.fl) == ToSet(old(mc.fl)) - {LostPage(old(mc.M()), d0, old(mc.fl))}
    ensures d != -1 ==> 0 <= d < NPAGES && NewSpace(old(mc.M()), mc.M(), d, own, old(mc.fl), mc.fl)
    ensures d != -1 ==> KernelHalf(mc.M(), d, data)
    ensures d != -1 ==> forall v :: KV <= v < NVPAGES ==> !UserMode(Entry(mc.M(), d, v))
    ensures d != -1 ==> forall x, y :: 0 <= x < KPDE && 0 <= y < NENTRIES && Present(EntryAt(mc.M(), d, x, y)) ==>
      EntryAt(mc.M(), d, x, y) % PGSIZE == 0x007 && UserMode(EntryAt(mc.M(), d, x, y))
    ensures d != -1 ==> forall x, y :: 0 <= x < KPDE && 0 <= y < NENTRIES ==> CopiedAt(old(mc.M()), mc.M(), d0, d, x, y)
  {
    hide SpaceOk, FreeListOk, Taken, KernelHalf, CopiedAt, Disjoint, Freeing, LostPage, Spent, CopyNeeds, CopiedTo,
         Abandoned, NewSpace, KernelEntry, Entry, UserMode;
    ghost var m0, fl0 := mc.M(), mc.fl;
    mc.DistinctFree();
    d, own := Setupkvm(mc, data);
    if d == -1 {
      NeedsKernel(m0, d0);
      SetupFailed(m0, mc.M(), d0, ownp, fl0);
      return;
    }
    CopyStart(m0, mc.M(), d0, d, data);
    SpentStart(m0, mc.M(), d0, d, fl0, mc.fl);
    var i := 0;
    while i < KPDE
      invariant 0 <= i <= KPDE && mc.Valid() && Copying(m0, mc.M(), d0, d, own, fl0, mc.fl, data, i, 0)
      invariant Spent(m0, mc.M(), d0, d, fl0, mc.fl, i, 0)
    {
      ParentKept(m0, mc.M(), d0, ownp, d, own, fl0, mc.fl);
      SpaceIsDir(m0, d0, ownp);
      var j := 0;
      if Present(mc.mem[d0][i]) {
        var ok;
        ok, own := CopyTable(mc, d0, d, i, Ppn(mc.mem[d0][i]), data, m0, fl0, ownp, own);
        if !ok {
          AbandonedPages(m0, mc.M(), d, own, fl0, mc.fl, mc.lo);
          ghost var own1, fl1, m1 := own, mc.fl, mc.M();
          Freevm(mc, d, own);
          GaveUp(m0, m1, mc.M(), d0, ownp, d, own1, fl0, fl1, mc.fl);
          return -1, own;
        }
        j := NENTRIES;
      }
      NextRow(m0, mc.M(), d0, d, i, j);
      SpentRow(m0, mc.M(), d0, d, fl0, mc.fl, i, j);
      i := i + 1;
    }
    CopyDone(m0, mc.M(), d0, ownp, d, own, fl0, mc.fl, data);
    CopyFrame(m0, mc.M(), d0, d, own, fl0, mc.fl, data);
    SpentDone(m0, mc.M(), d0, d, fl0, mc.fl);
    HalfShut(mc.M(), d, data);
    CopiesOpen(m0, mc.M(), d0, d);
  }

  /** The child's pages can be written from user mode. */
  lemma CopiesOpen(m0: Mem, m: Mem, d0: nat, d: nat)
    requires d0 < NPAGES && d < NPAGES
    requires forall x, y :: 0 <= x < KPDE && 0 <= y < NENTRIES ==> CopiedAt(m0, m, d0, d, x, y)
    ensures forall x, y :: 0 <= x < KPDE && 0 <= y < NENTRIES && Present(EntryAt(m, d, x, y)) ==>
      EntryAt(m, d, x, y) % PGSIZE == 0x007 && UserMode(EntryAt(m, d, x, y))
  {
    hide UserMode, EntryAt, MakePte;
    forall x, y | 0 <= x < KPDE && 0 <= y < NENTRIES && Present(EntryAt(m, d, x, y))
      ensures EntryAt(m, d, x, y) % PGSIZE == 0x007 && UserMode(EntryAt(m, d, x, y))
    {
      assert CopiedAt(m0, m, d0, d, x, y);
      UserBit(Ppn(EntryAt(m, d, x, y)));
    }
  }

  lemma HalfShut(m: Mem, d: nat, data: u32)
    requires d < NPAGES && DataOk(data) && KernelHalf(m, d, data)
    ensures forall v :: KV <= v < NVPAGES ==> !UserMode(Entry(m, d, v))
  {
    KernelShut(m, d, data);
  }

  lemma NeedsKernel(m: Mem, d0: nat)
    requires d0 < NPAGES
    ensures CopyNeeds(m, d0) >= KERNEL_NEEDS
  {
  }

  lemma SpentDone(m0: Mem, m: Mem, d0: nat, d: nat, fl0: seq<nat>, fl: seq<nat>)
    requires Spent(m0, m, d0, d, fl0, fl, KPDE, 0)
    ensures |fl| + CopyNeeds(m0, d0) == |fl0|
  {
  }

  lemma CopyFrame(m0: Mem, m: Mem, d0: nat, d: nat, own: Owner, fl0: seq<nat>, fl: seq<nat>, data: u32)
    requires Copying(m0, m, d0, d, own, fl0, fl, data, KPDE, 0)
    ensures forall p :: 0 <= p < NPAGES && p !in fl0 ==> m[p] == m0[p]
  {
    hide SpaceOk, Taken, KernelHalf, CopiedTo;
    TakenSubset(own, fl0, fl);
  }

  lemma SetupFailed(m0: Mem, m: Mem, d0: nat, ownp: Owner, fl0: seq<nat>)
    requires SpaceOk(m0, d0, ownp) && Disjoint(ownp, fl0)
    requires forall p :: 0 <= p < NPAGES && p !in fl0 ==> m[p] == m0[p]
    ensures SpaceOk(m, d0, ownp) && forall p :: p in ownp ==> p < NPAGES && m[p] == m0[p]
  {
    SpaceFrame(m0, m, d0, ownp);
  }

  lemma CopyStart(m0: Mem, m: Mem, d0: nat, d: nat, data: u32)
    requires d0 < NPAGES && d < NPAGES && DataOk(data)
    requires forall v :: 0 <= v < NVPAGES ==> Entry(m, d, v) == KernelEntry(data, 4, v)
    ensures CopiedTo(m0, m, d0, d, 0, 0) && KernelHalf(m, d, data)
  {
    forall x, y | 0 <= x < KPDE && 0 <= y < NENTRIES ensures !Present(EntryAt(m, d, x, y)) {
      UserIndex(x, y);
      KernelMapping(data, x * NENTRIES + y);
      assert Entry(m, d, x * NENTRIES + y) == 0;
    }
  }

  lemma AbandonedPages(m0: Mem, m: Mem, d: nat, own: Owner, fl0: seq<nat>, fl: seq<nat>, lo: nat)
    requires Abandoned(m0, m, d, own, fl0, fl) && forall a :: 0 <= a < |fl0| ==> lo <= fl0[a]
    ensures SpaceOk(m, d, own) && Disjoint(own, fl) && forall p :: p in own ==> lo <= p
  {
    forall p | p in own ensures lo <= p {
      assert p in ToSet(fl0);
    }
  }

  lemma GaveUp(m0: Mem, m1: Mem, m: Mem, d0: nat, ownp: Owner, d: nat, own: Owner, fl0: seq<nat>, fl1: seq<nat>,
        fl: seq<nat>)
    requires SpaceOk(m0, d0, ownp) && Disjoint(ownp, fl0) && Abandoned(m0, m1, d, own, fl0, fl1)
    requires ToSet(fl) == ToSet(fl1) + own.Keys && forall p :: 0 <= p < NPAGES && p !in own ==> m[p] == m1[p]
    ensures ToSet(fl) <= ToSet(fl0) && forall p :: 0 <= p < NPAGES && p !in fl0 ==> m[p] == m0[p]
    ensures SpaceOk(m, d0, ownp) && forall p :: p in ownp ==> p < NPAGES && m[p] == m0[p]
  {
    forall p | p in ownp ensures p !in own && p !in fl0 {
      assert p in own ==> p in ToSet(fl0);
    }
    AbandonedSets(m0, m1, d, own, fl0, fl1);
    hide Abandoned, Disjoint;
    forall p | 0 <= p < NPAGES && p !in fl0 ensures m[p] == m0[p] {
      AbandonedFrame(m0, m1, d, own, fl0, fl1, p);
      assert p in own ==> p in ToSet(fl0);
    }
    forall p | 0 <= p < NPAGES && p in ownp ensures m[p] == m0[p] {
      AbandonedFrame(m0, m1, d, own, fl0, fl1, p);
    }
    forall p | p in ownp ensures p < NPAGES {
      OwnedSlot(m0, d0, ownp, p);
    }
    SpaceFrame(m0, m, d0, ownp);
  }

  lemma AbandonedFrame(m0: Mem, m: Mem, d: nat, own: Owner, fl0: seq<nat>, fl: seq<nat>, p: nat)
    requires Abandoned(m0, m, d, own, fl0, fl) && p < NPAGES && p !in fl0
    ensures m[p] == m0[p]
  {
  }

  lemma AbandonedSets(m0: Mem, m: Mem, d: nat, own: Owner, fl0: seq<nat>, fl: seq<nat>)
    requires Abandoned(m0, m, d, own, fl0, fl)
    ensures own.Keys <= ToSet(fl0) && ToSet(fl) <= ToSet(fl0)
  {
  }

  lemma CopyDone(m0: Mem, m: Mem, d0: nat, ownp: Owner, d: nat, own: Owner, fl0: seq<nat>, fl: seq<nat>, data: u32)
    requires Copying(m0, m, d0, d, own, fl0, fl, data, KPDE, 0) && SpaceOk(m0, d0, ownp) && Disjoint(ownp, fl0)
    ensures SpaceOk(m, d0, ownp) && forall p :: p in ownp ==> p < NPAGES && m[p] == m0[p]
    ensures ToSet(fl) <= ToSet(fl0) && KernelHalf(m, d, data)
    ensures forall x, y :: 0 <= x < KPDE && 0 <= y < NENTRIES ==> CopiedAt(m0, m, d0, d, x, y)
  {
    hide CopiedAt, SpaceOk, KernelHalf;
    ParentKept(m0, m, d0, ownp, d, own, fl0, fl);
    SpaceFrame(m0, m, d0, ownp);
    forall x, y | 0 <= x < KPDE && 0 <= y < NENTRIES ensures CopiedAt(m0, m, d0, d, x, y) {
      assert Before(Leaf(x, y), KPDE, 0);
    }
  }

  /** Freeing a space built from the front of the free list gives the free set back, page for page. */
  lemma FreeRestores(fl0: seq<nat>, fl1: seq<nat>, fl2: seq<nat>, own: Owner)
    requires Taken(own.Keys, fl0, fl1)
    requires ToSet(fl2) == ToSet(fl1) + own.Keys && |fl2| == |fl1| + |own|
    requires forall a, b :: 0 <= a < b < |fl0| ==> fl0[a] != fl0[b]
    ensures ToSet(fl2) == ToSet(fl0) && |fl2| == |fl0|
  {
    hide Taken, ToSet;
    var front := Front(own.Keys, fl0, fl1);
    ToSetJoin(front, fl1);
    SetSize(front);
    assert |own.Keys| == |own|;
  }

  lemma Front(keys: set<nat>, fl0: seq<nat>, fl1: seq<nat>) returns (front: seq<nat>)
    requires Taken(keys, fl0, fl1)
    requires forall a, b :: 0 <= a < b < |fl0| ==> fl0[a] != fl0[b]
    ensures fl0 == front + fl1 && keys == ToSet(front)
    ensures forall a, b :: 0 <= a < b < |front| ==> front[a] != front[b]
  {
    front := fl0[..|fl0| - |fl1|];
    forall a, b | 0 <= a < b < |front| ensures front[a] != front[b] {
      assert fl0[a] != fl0[b];
    }
  }
}
