/** Two-level page tables and the page free list (`mm/vm.c`). */
module Paging {
  import opened Words

  // Facts about the contents of physical memory (`include/mmu.h`, `include/memlayout.h`). The layout is that of
  // section 4.3 of the Intel SDM, Volume 3A: 1024 entries a table, the page number in the upper 20 bits of an
  // entry, the flags P, W and U in its lowest bits.

  const PGSIZE := 4096
  const NENTRIES := 1024
  const KBASE := 0x8000_0000
  const PHYSTOP := 0x0E00_0000
  const DEVSPACE := 0xFE00_0000
  const EXTMEM := 0x10_0000
  const NPAGES := 57344            // PHYSTOP / PGSIZE
  const NVPAGES := 0x10_0000       // pages of the 32-bit address space
  const KPDE := 512                // directory index of KBASE

  type Page = p: seq<u32> | |p| == NENTRIES witness seq(NENTRIES, _ => 0)

  function Filled(e: u32): Page { seq(NENTRIES, _ => e) }

  const PTE_P := 1
  const PTE_W := 2
  const PTE_U := 4

  predicate Present(e: u32) { e % 2 == 1 }

  /** Bit 2, PTE_U, is set: the page can be touched from user mode. */
  predicate UserMode(e: u32) { e / 4 % 2 == 1 }

  /** The page number in an entry: PTE_ADDR(e) / PGSIZE. */
  function Ppn(e: u32): (p: nat)
    ensures p < NVPAGES
  {
    e / PGSIZE
  }

  predicate Flags(perm: nat) { perm == 0 || perm == PTE_W || perm == PTE_W + PTE_U }

  /** `pa | perm | PTE_P` for the page number `p` of pa: on a page-aligned address that is a sum. */
  function MakePte(p: nat, perm: nat): (e: u32)
    requires p < NVPAGES && Flags(perm)
    ensures Present(e) && Ppn(e) == p && e % PGSIZE == perm + PTE_P
  {
    p * PGSIZE + perm + PTE_P
  }

  /** The kernel virtual address of a physical page, P2V(p * PGSIZE). */
  function Kva(p: nat): (v: u32)
    requires p < NPAGES
    ensures v != 0 && v % PGSIZE == 0
  {
    KBASE + p * PGSIZE
  }

  type Mem = m: seq<Page> | |m| == NPAGES witness seq<Page>(NPAGES, _ => Filled(0))

  // Page directories

  /** Directory `d` has its tables in memory, none of them twice and none of them `d`. */
  ghost predicate DirOk(m: Mem, d: nat) {
    && d < NPAGES
    && (forall i :: 0 <= i < NENTRIES && Present(m[d][i]) ==> Ppn(m[d][i]) < NPAGES && Ppn(m[d][i]) != d)
    && (forall i, k :: 0 <= i < k < NENTRIES && Present(m[d][i]) && Present(m[d][k]) ==> Ppn(m[d][i]) != Ppn(m[d][k]))
  }

  /** The table entry for entry `j` of directory entry `i`; 0 if there is no table. */
  function EntryAt(m: Mem, d: nat, i: nat, j: nat): u32
    requires d < NPAGES && i < NENTRIES && j < NENTRIES
  {
    var e := m[d][i];
    if Present(e) && Ppn(e) < NPAGES then m[Ppn(e)][j] else 0
  }

  /** The partial map of directory `d`: the table entry for virtual page `v`. */
  function Entry(m: Mem, d: nat, v: nat): u32
    requires d < NPAGES && v < NVPAGES
  {
    EntryAt(m, d, v / NENTRIES, v % NENTRIES)
  }

  // Who owns which page

  /** The places of a directory that hold a page of its own. Kernel leaves are shared and owned by nobody. */
  datatype Slot = Dir | Table(i: nat) | Leaf(i: nat, j: nat)

  predicate SlotOk(s: Slot) {
    match s
    case Dir => true
    case Table(i) => i < NENTRIES
    case Leaf(i, j) => i < KPDE && j < NENTRIES
  }

  /** The page in slot `s`, or -1. */
  function PageAt(m: Mem, d: nat, s: Slot): int
    requires d < NPAGES && SlotOk(s)
  {
    match s
    case Dir => d
    case Table(i) => if Present(m[d][i]) then Ppn(m[d][i]) else -1
    case Leaf(i, j) => if Present(EntryAt(m, d, i, j)) then Ppn(EntryAt(m, d, i, j)) else -1
  }

  type Owner = map<nat, Slot>

  /**
   `own` is the inverse of PageAt: it lists every page that directory `d` owns with the
   one slot that holds it. So no page is owned twice.
   */
  ghost predicate SpaceOk(m: Mem, d: nat, own: Owner) {
    && d < NPAGES
    && (forall p :: p in own ==> p < NPAGES && SlotOk(own[p]) && PageAt(m, d, own[p]) == p)
    && (forall s :: SlotOk(s) && PageAt(m, d, s) != -1 ==> PageAt(m, d, s) in own && own[PageAt(m, d, s)] == s)
  }

  lemma SpaceIsDir(m: Mem, d: nat, own: Owner)
    requires SpaceOk(m, d, own)
    ensures DirOk(m, d) && d in own && own[d] == Dir
  {
    assert PageAt(m, d, Dir) == d;
    forall i | 0 <= i < NENTRIES && Present(m[d][i])
      ensures Ppn(m[d][i]) in own && own[Ppn(m[d][i])] == Table(i)
    {
      assert PageAt(m, d, Table(i)) == Ppn(m[d][i]);
    }
  }

  /** A directory is what its own pages say. */
  lemma SpaceFrame(m: Mem, n: Mem, d: nat, own: Owner)
    requires SpaceOk(m, d, own)
    requires forall p :: p in own && !own[p].Leaf? ==> n[p] == m[p]
    ensures SpaceOk(n, d, own)
    ensures forall i, j :: 0 <= i < NENTRIES && 0 <= j < NENTRIES ==> EntryAt(n, d, i, j) == EntryAt(m, d, i, j)
  {
    SpaceIsDir(m, d, own);
    forall i | 0 <= i < NENTRIES && Present(m[d][i]) ensures n[Ppn(m[d][i])] == m[Ppn(m[d][i])] {
      assert PageAt(m, d, Table(i)) == Ppn(m[d][i]);
    }
    forall s | SlotOk(s) ensures PageAt(n, d, s) == PageAt(m, d, s) {}
  }

  // The free list

  /** The pages on the list that starts at kernel address `head`, in order: each page's first word links to the next. */
  ghost predicate FreeListOk(m: Mem, head: u32, fl: seq<nat>, lo: nat) {
    && (forall k :: 0 <= k < |fl| ==> lo <= fl[k] < NPAGES)
    && (forall k, l :: 0 <= k < l < |fl| ==> fl[k] != fl[l])
    && head == LinkTo(fl, 0)
    && (forall k :: 0 <= k < |fl| ==> m[fl[k]][0] == LinkTo(fl, k + 1))
  }

  function LinkTo(fl: seq<nat>, k: nat): u32 {
    if k < |fl| && fl[k] < NPAGES then Kva(fl[k]) else 0
  }
}
