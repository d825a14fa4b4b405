/** What itrunc (`fs/inode.c`) does to the blocks of a file. */
module Truncate {
  import opened Words
  import opened BlockMap
  import opened FileData
  import opened InodeMap
  import opened ReadWrite

  /** The order in which itrunc empties the slots: the indirect block comes last. */
  function Order(t: nat): nat
    requires t < NSLOTS
  {
    if t < NDIRECT then t else if t == NDIRECT then NSLOTS - 1 else t - 1
  }

  /** The blocks of inode `i` whose turn was before `e` are taken away. */
  ghost predicate Kept(own0: Owners, own: Owners, i: nat, e: nat) {
    && (forall b :: b in own <==> b in own0 && !(own0[b].0 == i && own0[b].1 < NSLOTS && Order(own0[b].1) < e))
    && (forall b :: b in own ==> own[b] == own0[b])
  }

  /** The slots of inode `i` up to `e` in that order are empty; all else is as in `fs0`. */
  ghost predicate Emptied(fs0: Fs, own0: Owners, fs: Fs, own: Owners, start: nat, i: nat, e: nat) {
    && WellFormed(fs0) && Inv(fs, own, start) && |fs.dis| == |fs0.dis| && |fs.bits| == |fs0.bits| && i < |fs.dis|
      && Kept(own0, own, i, e)
    && EmptySlots(fs0, fs, i, e) && OnlyAddrs(fs0, fs, i) && OthersKept(fs0, fs, i)
  }

  ghost predicate EmptySlots(fs0: Fs, fs: Fs, i: nat, e: nat)
    requires WellFormed(fs0) && WellFormed(fs) && i < |fs0.dis| == |fs.dis|
  {
    forall t :: 0 <= t < NSLOTS ==> Ptr(fs, i, t) == if Order(t) < e then 0 else Ptr(fs0, i, t)
  }

  lemma EmptiedStart(fs: Fs, own: Owners, start: nat, i: nat)
    requires Inv(fs, own, start) && i < |fs.dis|
    ensures Emptied(fs, own, fs, own, start, i, 0)
  {
    hide Ptr, Data;
  }

  /** A slot that is empty already. */
  lemma EmptiedSkip(fs0: Fs, own0: Owners, fs: Fs, own: Owners, start: nat, i: nat, t: nat)
    requires t < NSLOTS && Emptied(fs0, own0, fs, own, start, i, Order(t)) && Ptr(fs, i, t) == 0
      && Owned(fs0, own0, start)
    ensures Emptied(fs0, own0, fs, own, start, i, Order(t) + 1)
  {
    hide Ptr, Data, OthersKept, OnlyAddrs, Inv;
    assert Ptr(fs0, i, t) == 0;
    forall b | b in own0 ensures own0[b] != (i, t) {
      OwnerOf(fs0, own0, start, b);
    }
  }

  lemma OwnerOf(fs: Fs, own: Owners, start: nat, b: nat)
    requires WellFormed(fs) && Owned(fs, own, start) && b in own
    ensures own[b].0 < |fs.dis| && own[b].1 < NSLOTS && Ptr(fs, own[b].0, own[b].1) == b > 0
  {
  }

  lemma EmptiedStep(fs0: Fs, own0: Owners, fs: Fs, own: Owners, start: nat, i: nat, t: nat)
    requires t < NSLOTS && Emptied(fs0, own0, fs, own, start, i, Order(t)) && Ptr(fs, i, t) != 0
      && Inv(fs0, own0, start)
    ensures CanEmpty(fs, own, start, i, t) && Ptr(fs, i, t) < |fs.bits| && fs.bits[Ptr(fs, i, t)]
    ensures Emptied(fs0, own0, Empty(fs, i, t), own - {Ptr(fs, i, t)}, start, i, Order(t) + 1)
  {
    EmptiedParts(fs0, own0, fs, own, start, i, Order(t));
    hide Emptied, Inv, Ptr, Data, OthersKept, OnlyAddrs, WellFormed, Kept;
    EmptyKeeps(fs, own, start, i, t);
    var fs', own' := Empty(fs, i, t), own - {Ptr(fs, i, t)};
    Formed(fs', own', start);
    assert EmptySlots(fs0, fs', i, Order(t) + 1);
    StepKept(fs0, own0, fs, own, start, i, t);
    StepOthers(fs0, fs, fs', i, t);
    EmptyAddrs(fs0, fs, i, t);
    MakeEmptied(fs0, own0, fs', own', start, i, Order(t) + 1);
  }

  lemma EmptiedParts(fs0: Fs, own0: Owners, fs: Fs, own: Owners, start: nat, i: nat, e: nat)
    requires Emptied(fs0, own0, fs, own, start, i, e)
    ensures WellFormed(fs0) && WellFormed(fs) && Inv(fs, own, start) && |fs.dis| == |fs0.dis|
      && |fs.bits| == |fs0.bits| && i < |fs.dis|
    ensures Kept(own0, own, i, e) && EmptySlots(fs0, fs, i, e) && OnlyAddrs(fs0, fs, i) && OthersKept(fs0, fs, i)
  {
  }

  lemma MakeEmptied(fs0: Fs, own0: Owners, fs: Fs, own: Owners, start: nat, i: nat, e: nat)
    requires WellFormed(fs0) && Inv(fs, own, start) && WellFormed(fs) && |fs.dis| == |fs0.dis|
      && |fs.bits| == |fs0.bits|
    requires i < |fs.dis| && Kept(own0, own, i, e)
    requires EmptySlots(fs0, fs, i, e) && OnlyAddrs(fs0, fs, i) && OthersKept(fs0, fs, i)
    ensures Emptied(fs0, own0, fs, own, start, i, e)
  {
  }

  lemma StepKept(fs0: Fs, own0: Owners, fs: Fs, own: Owners, start: nat, i: nat, t: nat)
    requires t < NSLOTS && WellFormed(fs0) && i < |fs0.dis| == |fs.dis| && Inv(fs, own, start) && Inv(fs0, own0, start)
    requires Kept(own0, own, i, Order(t)) && WellFormed(fs) && EmptySlots(fs0, fs, i, Order(t)) && Ptr(fs, i, t) != 0
    ensures Kept(own0, own - {Ptr(fs, i, t)}, i, Order(t) + 1)
  {
    hide Ptr;
    var p := Ptr(fs, i, t);
    PtrOf(fs, own, start, i, t);
    PtrOf(fs0, own0, start, i, t);
    forall b | b in own0 && own0[b].0 == i && own0[b].1 < NSLOTS && Order(own0[b].1) == Order(t) ensures b == p {
      assert own0[b].1 == t;
      assert b == Ptr(fs0, i, t);
    }
    hide Inv;
  }

  lemma StepOthers(fs0: Fs, fs: Fs, fs': Fs, i: nat, t: nat)
    requires WellFormed(fs0) && WellFormed(fs) && WellFormed(fs') && |fs'.dis| == |fs.dis| == |fs0.dis| && i < |fs.dis|
    requires OthersKept(fs0, fs, i)
    requires forall j, s ::
      0 <= j < |fs.dis| && 0 <= s < NSLOTS ==> Ptr(fs', j, s) == if j == i && s == t then 0 else Ptr(fs, j, s)
    requires forall j, n :: 0 <= j < |fs.dis| && 0 <= n < MAXFILE && j != i ==> Data(fs', j, n) == Data(fs, j, n)
    ensures OthersKept(fs0, fs', i)
  {
    hide Ptr, Data;
  }

  lemma EmptyAddrs(fs0: Fs, fs: Fs, i: nat, t: nat)
    requires i < |fs.dis| == |fs0.dis| && |fs.dis[i].addrs| == NDIRECT + 1 && t < NSLOTS
      && 0 < Ptr(fs, i, t) < |fs.bits|
    requires OnlyAddrs(fs0, fs, i)
    requires t > NDIRECT ==> fs.dis[i].addrs[NDIRECT] < |fs.blocks| && |fs.blocks[fs.dis[i].addrs[NDIRECT]]| == BSIZE
    ensures OnlyAddrs(fs0, Empty(fs, i, t), i)
  {
    var d := Empty(fs, i, t).dis[i];
    assert Empty(fs, i, t).dis == fs0.dis[i := d] && d == fs0.dis[i].(addrs := d.addrs);
  }

  /** A block in no slot may hold anything. */
  lemma FreeIrrelevant(fs: Fs, fs': Fs, own: Owners, start: nat, p: nat, x: seq<u8>)
    requires Inv(fs, own, start) && p < |fs.blocks| && p !in own && |x| == BSIZE
      && fs' == fs.(blocks := fs.blocks[p := x])
    ensures Inv(fs', own, start) && SamePtrs(fs, fs') && SameFiles(fs, fs')
  {
    forall j, t | 0 <= j < |fs.dis| && 0 <= t < NSLOTS ensures Ptr(fs', j, t) == Ptr(fs, j, t) {
      if t > NDIRECT && fs.dis[j].addrs[NDIRECT] != 0 { IndirectOf(fs, own, start, j); }
    }
    hide Ptr;
    forall j, n | 0 <= j < |fs.dis| && 0 <= n < MAXFILE ensures Data(fs', j, n) == Data(fs, j, n) {
      PtrOf(fs, own, start, j, SlotOf(n));
    }
  }

  /** As Emptied, when the words of the freed indirect block are still what they were. */
  lemma EmptiedSame(fs0: Fs, own0: Owners, vf: Fs, fs: Fs, own: Owners, start: nat, i: nat, e: nat)
    requires Emptied(fs0, own0, vf, own, start, i, e) && fs.dis == vf.dis && fs.bits == vf.bits
    requires Inv(fs, own, start) && WellFormed(fs) && SamePtrs(vf, fs) && SameFiles(vf, fs)
    ensures Emptied(fs0, own0, fs, own, start, i, e)
  {
    hide Ptr, Data, Inv;
  }

  /** Without an indirect block, its words' turn has come and gone. */
  lemma SkipWords(fs0: Fs, own0: Owners, fs: Fs, own: Owners, start: nat, i: nat)
    requires Emptied(fs0, own0, fs, own, start, i, NDIRECT) && Inv(fs0, own0, start) && Ptr(fs, i, NDIRECT) == 0
    ensures Emptied(fs0, own0, fs, own, start, i, NSLOTS)
  {
    hide Data, OthersKept, OnlyAddrs;
    forall t | NDIRECT <= t < NSLOTS ensures Ptr(fs, i, t) == 0 && Ptr(fs0, i, t) == 0 {
      if t > NDIRECT { NoIndirect(fs, i, t); }
      assert Order(t) >= NDIRECT;
    }
    forall b | b in own0
      ensures own0[b].0 < |fs0.dis| && own0[b].1 < NSLOTS && Ptr(fs0, own0[b].0, own0[b].1) == b > 0 {
      OwnerOf(fs0, own0, start, b);
    }
    hide Ptr;
  }

  /** A file whose slots are empty and whose size is 0, among files that have not changed. */
  lemma Gone(fs0: Fs, own0: Owners, fs: Fs, own: Owners, start: nat, i: nat, fs': Fs)
    requires Emptied(fs0, own0, fs, own, start, i, NSLOTS) && Dense(fs0)
    requires |fs'.dis| == |fs.dis| && fs'.blocks == fs.blocks && fs'.bits == fs.bits
    requires fs'.dis == fs.dis[i := fs.dis[i].(size := 0, kind := fs'.dis[i].kind)]
    ensures Inv(fs', own, start) && WellFormed(fs') && Dense(fs')
    ensures forall j :: 0 <= j < |fs0.dis| && j != i ==>
      fs'.dis[j] == fs0.dis[j] && fs0.dis[j].size <= MAXSIZE && Content(fs', j) == Content(fs0, j)
  {
    hide Kept, EmptySlots;
    KindSize(fs, fs', own, start, i);
    EmptyHas(fs0, fs, fs', i);
    assert SizedRight(fs', i);
    hide Ptr, Data;
    AllSized(fs0);
    forall j | 0 <= j < |fs0.dis| && j != i
      ensures fs'.dis[j] == fs0.dis[j] && SizedRight(fs', j) && Content(fs', j) == Content(fs0, j)
    {
      OtherDone(fs0, fs, fs', i, j);
    }
  }

  lemma KindSize(fs: Fs, fs': Fs, own: Owners, start: nat, i: nat)
    requires Inv(fs, own, start) && i < |fs.dis| == |fs'.dis| && fs'.blocks == fs.blocks && fs'.bits == fs.bits
    requires fs'.dis == fs.dis[i := fs.dis[i].(size := fs'.dis[i].size, kind := fs'.dis[i].kind)]
    ensures Inv(fs', own, start) && WellFormed(fs') && SamePtrs(fs, fs') && SameFiles(fs, fs')
  {
    forall j, t | 0 <= j < |fs.dis| && 0 <= t < NSLOTS ensures Ptr(fs', j, t) == Ptr(fs, j, t) {}
    hide Ptr;
  }

  lemma EmptyHas(fs0: Fs, fs: Fs, fs': Fs, i: nat)
    requires WellFormed(fs0) && WellFormed(fs) && WellFormed(fs') && i < |fs0.dis| == |fs.dis| && SamePtrs(fs, fs')
    requires EmptySlots(fs0, fs, i, NSLOTS)
    ensures HasSlots(fs', i, 0)
  {
    forall t | 0 <= t < NSLOTS ensures Ptr(fs', i, t) == 0 {
      assert Order(t) < NSLOTS;
    }
    hide Ptr;
  }

  /** What itrunc frees: exactly the blocks inode `i` owned. */
  lemma FreedExactly(fs0: Fs, own0: Owners, fs: Fs, own: Owners, start: nat, i: nat, b: nat)
    requires Emptied(fs0, own0, fs, own, start, i, NSLOTS) && Inv(fs0, own0, start) && b < |fs0.bits|
    ensures |fs.bits| == |fs0.bits|
    ensures fs.bits[b] <==> fs0.bits[b] && !(b in own0 && own0[b].0 == i)
    ensures b in own <==> b in own0 && own0[b].0 != i
  {
    hide EmptySlots, OthersKept, OnlyAddrs, Ptr;
    if b in own0 { OwnerOf(fs0, own0, start, b); }
  }

  lemma EmptiedEntry(fs0: Fs, own0: Owners, fs: Fs, own: Owners, start: nat, i: nat)
    requires Emptied(fs0, own0, fs, own, start, i, NSLOTS)
    ensures i < |fs.dis| == |fs0.dis| && fs.dis[i] == fs0.dis[i].(addrs := seq(NDIRECT + 1, _ => 0))
      && fs.dis == fs0.dis[i := fs.dis[i]]
  {
    hide Inv, Kept, OthersKept;
    EmptiedParts(fs0, own0, fs, own, start, i, NSLOTS);
    var a := fs.dis[i].addrs;
    forall t | 0 <= t < NDIRECT + 1 ensures a[t] == 0 {
      assert Order(t) < NSLOTS;
      assert Ptr(fs, i, t) == a[t];
    }
    assert a == seq(NDIRECT + 1, _ => 0);
  }

  lemma AddrsFormed(fs: Fs, i: nat)
    requires WellFormed(fs) && i < |fs.dis|
    ensures |fs.dis[i].addrs| == NDIRECT + 1
  {
  }

  lemma InvOwned(fs: Fs, own: Owners, start: nat)
    requires Inv(fs, own, start)
    ensures WellFormed(fs) && Owned(fs, own, start)
  {
  }

  /** The next word of the indirect block is the block whose turn it is. */
  lemma WordNow(fs0: Fs, own0: Owners, fs: Fs, own1: Owners, vf: Fs, own: Owners, start: nat, i: nat, k: nat)
    requires Emptied(fs0, own0, fs, own1, start, i, NDIRECT) && Emptied(fs0, own0, vf, own, start, i, NDIRECT + k)
      && k < NINDIRECT
    requires Ptr(fs, i, NDIRECT) != 0
    ensures i < |fs.dis| == |vf.dis| && |fs.dis[i].addrs| == NDIRECT + 1 && |vf.dis[i].addrs| == NDIRECT + 1
    ensures var ind := fs.dis[i].addrs[NDIRECT];
      ind < |fs.blocks| && |fs.blocks[ind]| == BSIZE && Ptr(vf, i, NDIRECT + 1 + k) == Word(fs.blocks[ind], k)
    ensures Order(NDIRECT + 1 + k) == NDIRECT + k
  {
    EmptiedParts(fs0, own0, fs, own1, start, i, NDIRECT);
    EmptiedParts(fs0, own0, vf, own, start, i, NDIRECT + k);
    WordIsPtr(fs, own1, start, i, NDIRECT + 1 + k);
    hide Ptr, Inv, Kept, OthersKept;
  }

  lemma EmptyWord(fs: Fs, own: Owners, start: nat, i: nat, t: nat)
    requires Inv(fs, own, start) && i < |fs.dis| && NDIRECT < t < NSLOTS && 0 < Ptr(fs, i, t) < |fs.bits|
    ensures var ind := fs.dis[i].addrs[NDIRECT];
      var fs' := Empty(fs, i, t);
      ind < |fs.blocks| && |fs'.blocks| == |fs.blocks| && fs'.blocks == fs.blocks[ind := fs'.blocks[ind]]
      && fs'.dis == fs.dis && fs'.bits == fs.bits[Ptr(fs, i, t) := false]
  {
    IndirectOf(fs, own, start, i);
  }

  lemma EmptyDirect(fs: Fs, i: nat, t: nat)
    requires WellFormed(fs) && i < |fs.dis| && t <= NDIRECT && 0 < Ptr(fs, i, t) < |fs.bits|
    ensures Empty(fs, i, t) ==
      Fs(fs.dis[i := fs.dis[i].(addrs := fs.dis[i].addrs[t := 0])], fs.blocks, fs.bits[Ptr(fs, i, t) := false])
  {
  }

  /** An inode with no size and no blocks can be made free, or be taken into use. */
  lemma Relabel(fs: Fs, fs': Fs, own: Owners, start: nat, i: nat)
    requires Inv(fs, own, start) && WellFormed(fs) && Dense(fs) && i < |fs.dis| == |fs'.dis| && fs.dis[i].size == 0
    requires fs'.blocks == fs.blocks && fs'.bits == fs.bits && fs'.dis == fs.dis[i := fs'.dis[i]]
    requires fs'.dis[i].size == 0 && fs'.dis[i].addrs == seq(NDIRECT + 1, _ => 0)
    ensures Inv(fs', own, start) && WellFormed(fs') && Dense(fs')
    ensures forall j :: 0 <= j < |fs.dis| && j != i ==>
      fs'.dis[j] == fs.dis[j] && fs.dis[j].size <= MAXSIZE && Content(fs', j) == Content(fs, j)
  {
    AllSized(fs);
    assert HasSlots(fs, i, 0) by { assert SizedRight(fs, i); }
    RelabelPtrs(fs, fs', i);
    hide Ptr, Dense, SizedRight;
    assert HasSlots(fs', i, 0);
    MakeSized(fs', i);
    assert OthersKept(fs, fs, i);
    assert SameFiles(fs, fs');
    hide Data, SamePtrs, SameFiles, OthersKept;
    forall j | 0 <= j < |fs.dis| && j != i
      ensures fs'.dis[j] == fs.dis[j] && SizedRight(fs', j) && Content(fs', j) == Content(fs, j)
    {
      OtherDone(fs, fs, fs', i, j);
    }
    MakeDense(fs');
    assert Inv(fs', own, start) by { SamePtrsInv(fs, fs', own, start); }
  }

  lemma SamePtrsInv(fs: Fs, fs': Fs, own: Owners, start: nat)
    requires Inv(fs, own, start) && WellFormed(fs) && WellFormed(fs') && SamePtrs(fs, fs')
    requires |fs'.blocks| == |fs.blocks| && fs'.bits == fs.bits
    ensures Inv(fs', own, start)
  {
    hide Ptr;
  }

  lemma MakeSized(fs: Fs, i: nat)
    requires WellFormed(fs) && i < |fs.dis| && fs.dis[i].size == 0 && HasSlots(fs, i, 0)
    ensures SizedRight(fs, i)
  {
    hide Ptr;
  }

  lemma MakeDense(fs: Fs)
    requires WellFormed(fs) && forall i :: 0 <= i < |fs.dis| ==> SizedRight(fs, i)
    ensures Dense(fs)
  {
  }

  lemma RelabelPtrs(fs: Fs, fs': Fs, i: nat)
    requires WellFormed(fs) && i < |fs.dis| == |fs'.dis| && HasSlots(fs, i, 0) && fs'.blocks == fs.blocks
      && fs'.bits == fs.bits
    requires fs'.dis == fs.dis[i := fs'.dis[i]] && fs'.dis[i].addrs == seq(NDIRECT + 1, _ => 0)
    ensures WellFormed(fs') && SamePtrs(fs, fs')
  {
    forall j, t | 0 <= j < |fs.dis| && 0 <= t < NSLOTS ensures Ptr(fs', j, t) == Ptr(fs, j, t) {
      assert j == i ==> Ptr(fs, i, t) == 0;
    }
  }

  lemma NoSlotsNoAddrs(fs: Fs, i: nat)
    requires WellFormed(fs) && Dense(fs) && i < |fs.dis| && (fs.dis[i].kind == 0 || fs.dis[i].size == 0)
    ensures fs.dis[i].size == 0 && fs.dis[i].addrs == seq(NDIRECT + 1, _ => 0)
  {
    assert SizedRight(fs, i);
    var a := fs.dis[i].addrs;
    forall t | 0 <= t < NDIRECT + 1 ensures a[t] == 0 {
      assert Ptr(fs, i, t) == a[t];
    }
  }

  /** A new link count, or device number, changes no file. */
  lemma Relink(fs: Fs, fs': Fs, own: Owners, start: nat, i: nat)
    requires Inv(fs, own, start) && WellFormed(fs) && Dense(fs) && i < |fs.dis| == |fs'.dis|
    requires fs'.blocks == fs.blocks && fs'.bits == fs.bits
      && fs'.dis == fs.dis[i := fs.dis[i].(nlink := fs'.dis[i].nlink, major := fs'.dis[i].major,
        minor := fs'.dis[i].minor)]
    ensures Inv(fs', own, start) && WellFormed(fs') && Dense(fs')
    ensures forall j ::
      0 <= j < |fs.dis| ==> fs.dis[j].size <= MAXSIZE && fs'.dis[j].size <= MAXSIZE && Content(fs', j) == Content(fs, j)
  {
    AllSized(fs);
    forall j, t | 0 <= j < |fs.dis| && 0 <= t < NSLOTS ensures Ptr(fs', j, t) == Ptr(fs, j, t) {}
    hide Ptr;
    assert SamePtrs(fs, fs') && SameFiles(fs, fs');
    SamePtrsInv(fs, fs', own, start);
    hide Inv, Data, Dense, SamePtrs;
    forall j | 0 <= j < |fs.dis| ensures SizedRight(fs', j) && Content(fs', j) == Content(fs, j) {
      assert SizedRight(fs, j);
      SameSlots(fs, fs', j, Held(DataBlocks(fs.dis[j].size)));
      SameBytes(fs, fs', j);
    }
    MakeDense(fs');
  }
}
