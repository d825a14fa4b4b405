/** What readi and writei (`fs/inode.c`) do to a file's bytes, round by round. */
module ReadWrite {
  import opened Words
  import opened BlockMap
  import opened FileData
  import opened InodeMap

  // Growing one block at a time

  /** Mapping a block the file has costs nothing; mapping the next one fills the next slots. */
  lemma MapSlots(fs: Fs, fs': Fs, i: nat, bn: nat, addr: nat, nb: nat)
    requires MappedTo(fs, fs', i, bn, addr) && HasSlots(fs, i, Held(nb)) && bn <= nb <= MAXFILE
    ensures HasSlots(fs', i, Held(Max(nb, bn + 1)))
    ensures MapCost(fs, i, bn) == Held(Max(nb, bn + 1)) - Held(nb)
  {
    hide Ptr, SameFiles;
  }

  lemma MapCostIs(fs: Fs, i: nat, bn: nat, nb: nat)
    requires WellFormed(fs) && i < |fs.dis| && HasSlots(fs, i, Held(nb)) && bn < MAXFILE && bn <= nb <= MAXFILE
    ensures MapCost(fs, i, bn) == Held(Max(nb, bn + 1)) - Held(nb)
  {
    hide Ptr;
  }

  /** Blocks the file has once `tot` bytes from `off` on are there. */
  function BlocksAt(nb: nat, off: nat, tot: nat): nat {
    if tot == 0 then nb else Max(nb, DataBlocks(off + tot))
  }

  /** The blocks a write of `n` bytes at `off` adds to a file of `size` bytes. */
  function Growth(size: nat, off: nat, n: nat): int {
    Held(BlocksAt(DataBlocks(size), off, n)) - Held(DataBlocks(size))
  }

  lemma NextBlock(size: nat, off: nat, tot: nat, m: nat)
    requires off <= size && m > 0 && (off + tot) % BSIZE + m <= BSIZE
    ensures (off + tot) / BSIZE <= BlocksAt(DataBlocks(size), off, tot)
    ensures BlocksAt(DataBlocks(size), off, tot + m) == Max(BlocksAt(DataBlocks(size), off, tot),
      (off + tot) / BSIZE + 1)
    ensures off + tot + m <= size ==> (off + tot) / BSIZE < DataBlocks(size)
  {
    assert DataBlocks(off + tot + m) == (off + tot) / BSIZE + 1;
  }

  lemma BlocksMonotone(nb: nat, off: nat, tot: nat, n: nat)
    requires tot <= n
    ensures BlocksAt(nb, off, tot) <= BlocksAt(nb, off, n) && Held(BlocksAt(nb, off, tot)) <= Held(BlocksAt(nb, off, n))
  {
  }

  // writei

  /** Bytes `off` to `off + tot` of inode `i` are those of `src`; every other byte of every file is as it was. */
  ghost predicate WroteSoFar(fs0: Fs, fs: Fs, i: nat, off: nat, src: seq<u8>, tot: nat) {
    && WellFormed(fs0) && WellFormed(fs) && i < |fs0.dis| && tot <= |src| && off + tot <= MAXSIZE
    && OnlyAddrs(fs0, fs, i)
    && (forall k :: 0 <= k < MAXSIZE ==> Byte(fs, i, k) == if off <= k < off + tot then src[k - off]
        else Byte(fs0, i, k))
    && OthersKept(fs0, fs, i)
  }

  /** The other inodes keep their slots and their data. */
  ghost predicate OthersKept(fs0: Fs, fs: Fs, i: nat)
    requires WellFormed(fs0) && WellFormed(fs) && |fs.dis| == |fs0.dis|
  {
    && (forall j, n :: 0 <= j < |fs.dis| && j != i && 0 <= n < MAXFILE ==> Data(fs, j, n) == Data(fs0, j, n))
    && (forall j, t :: 0 <= j < |fs.dis| && j != i && 0 <= t < NSLOTS ==> Ptr(fs, j, t) == Ptr(fs0, j, t))
  }

  lemma WriteStart(fs: Fs, i: nat, off: nat, src: seq<u8>)
    requires WellFormed(fs) && i < |fs.dis| && off <= MAXSIZE
    ensures WroteSoFar(fs, fs, i, off, src, 0)
  {
  }

  /** Block `bn` of inode `i` holds `data` now; all other data is as it was. */
  ghost predicate Patched(fs: Fs, fs': Fs, i: nat, bn: nat, data: seq<u8>)
    requires WellFormed(fs) && WellFormed(fs')
  {
    |fs'.dis| == |fs.dis| && forall j, n :: 0 <= j < |fs.dis| && 0 <= n < MAXFILE ==>
      Data(fs', j, n) == if j == i && n == bn then data else Data(fs, j, n)
  }

  lemma WritePatches(fs: Fs, own: Owners, start: nat, i: nat, bn: nat, addr: nat, data: seq<u8>)
    requires Inv(fs, own, start) && i < |fs.dis| && bn < MAXFILE && Ptr(fs, i, SlotOf(bn)) == addr != 0
      && |data| == BSIZE
    ensures addr < |fs.blocks| && |fs.blocks[addr]| == BSIZE && Data(fs, i, bn) == fs.blocks[addr]
    ensures var fs' := Write(fs, addr, data);
      Inv(fs', own, start) && WellFormed(fs') && SamePtrs(fs, fs') && Patched(fs, fs', i, bn, data) && fs'.dis == fs.dis
  {
    PtrOf(fs, own, start, i, SlotOf(bn));
    WriteKeeps(fs, own, start, i, bn, data);
    hide Ptr;
  }

  /** A round: the block is mapped, then patched. */
  lemma WriteStep(fs0: Fs, f1: Fs, f2: Fs, f3: Fs, own: Owners, start: nat, i: nat, off: nat, src: seq<u8>, tot: nat,
        m: nat,
                  bn: nat, o: nat, at: nat, addr: nat)
    requires WroteSoFar(fs0, f1, i, off, src, tot) && 0 < m && tot + m <= |src| && at == off + tot
      && at == bn * BSIZE + o && o + m <= BSIZE
    requires MappedTo(f1, f2, i, bn, addr) && Inv(f2, own, start)
    requires addr < |f2.blocks| && |f2.blocks[addr]| == BSIZE
    requires f3 == Write(f2, addr, Patch(f2.blocks[addr], o, src[tot..tot + m]))
    ensures Inv(f3, own, start) && WellFormed(f2) && WellFormed(f3) && SamePtrs(f2, f3)
    ensures WroteSoFar(fs0, f3, i, off, src, tot + m)
  {
    hide *;
    Facts(fs0, f1, i, off, src, tot);
    MapParts(f1, f2, i, bn, addr);
    assert at + m <= MAXSIZE by { RoomIn(bn, o, m); }
    var data := Patch(f2.blocks[addr], o, src[tot..tot + m]);
    WritePatches(f2, own, start, i, bn, addr, data);
    PatchedBytes(f2, f3, i, bn, o, src[tot..tot + m], at);
    MappedBytes(f1, f2, i);
    StepBytes(fs0, f1, f2, f3, i, off, src, tot, m, at);
    OthersChain(fs0, f1, f2, f3, i, bn, data);
    AddrsChain(fs0, f1, f2, f3, i);
    MakeWrote(fs0, f3, i, off, src, tot + m);
  }

  lemma PatchedBytes(fs: Fs, fs': Fs, i: nat, bn: nat, o: nat, part: seq<u8>, at: nat)
    requires WellFormed(fs) && WellFormed(fs') && i < |fs.dis| && o + |part| <= BSIZE && bn < MAXFILE
      && at == bn * BSIZE + o
    requires Patched(fs, fs', i, bn, Patch(Data(fs, i, bn), o, part))
    ensures |fs'.dis| == |fs.dis|
    ensures forall k :: 0 <= k < MAXSIZE ==>
      Byte(fs', i, k) == if at <= k < at + |part| then part[k - at] else Byte(fs, i, k)
  {
    hide Byte, Patch, Data;
    PatchBytes(fs, fs', i, bn, o, part);
  }

  lemma MakeWrote(fs0: Fs, fs: Fs, i: nat, off: nat, src: seq<u8>, tot: nat)
    requires WellFormed(fs0) && WellFormed(fs) && i < |fs0.dis| == |fs.dis| && tot <= |src| && off + tot <= MAXSIZE
    requires OnlyAddrs(fs0, fs, i) && OthersKept(fs0, fs, i)
    requires forall k ::
      0 <= k < MAXSIZE ==> Byte(fs, i, k) == if off <= k < off + tot then src[k - off] else Byte(fs0, i, k)
    ensures WroteSoFar(fs0, fs, i, off, src, tot)
  {
    hide Byte, OthersKept, OnlyAddrs;
  }

  lemma AddrsChain(fs0: Fs, f1: Fs, f2: Fs, f3: Fs, i: nat)
    requires i < |fs0.dis| == |f1.dis| && OnlyAddrs(fs0, f1, i) && OnlyAddrs(f1, f2, i) && f3.dis == f2.dis
    ensures OnlyAddrs(fs0, f3, i)
  {
    assert f3.dis[i].addrs == f2.dis[i].addrs;
  }

  ghost predicate SamePtrs(fs: Fs, fs': Fs)
    requires WellFormed(fs) && WellFormed(fs')
  {
    |fs'.dis| == |fs.dis| && forall j, t :: 0 <= j < |fs.dis| && 0 <= t < NSLOTS ==> Ptr(fs', j, t) == Ptr(fs, j, t)
  }

  lemma Room(at: nat, m: nat)
    requires at % BSIZE + m <= BSIZE && at / BSIZE < MAXFILE
    ensures at + m <= MAXSIZE
  {
  }

  lemma RoomIn(bn: nat, o: nat, m: nat)
    requires o + m <= BSIZE && bn < MAXFILE
    ensures bn * BSIZE + o + m <= MAXSIZE
  {
  }

  lemma MapParts(fs: Fs, fs': Fs, i: nat, bn: nat, addr: nat)
    requires MappedTo(fs, fs', i, bn, addr)
    ensures WellFormed(fs) && WellFormed(fs') && i < |fs.dis| && bn < MAXFILE && |fs'.dis| == |fs.dis|
    ensures SameFiles(fs, fs') && OnlyAddrs(fs, fs', i) && Ptr(fs', i, SlotOf(bn)) == addr != 0
    ensures forall j, t :: 0 <= j < |fs.dis| && j != i && 0 <= t < NSLOTS ==> Ptr(fs', j, t) == Ptr(fs, j, t)
  {
    hide Ptr, SameFiles;
  }

  lemma MappedBytes(fs: Fs, fs': Fs, i: nat)
    requires WellFormed(fs) && WellFormed(fs') && SameFiles(fs, fs') && i < |fs.dis|
    ensures forall k :: 0 <= k < MAXSIZE ==> Byte(fs', i, k) == Byte(fs, i, k)
  {
    forall k | 0 <= k < MAXSIZE ensures Byte(fs', i, k) == Byte(fs, i, k) {
      assert 0 <= k / BSIZE < MAXFILE;
    }
  }

  lemma StepBytes(fs0: Fs, f1: Fs, f2: Fs, f3: Fs, i: nat, off: nat, src: seq<u8>, tot: nat, m: nat, at: nat)
    requires WroteSoFar(fs0, f1, i, off, src, tot) && WellFormed(f2) && WellFormed(f3)
      && |f3.dis| == |f2.dis| == |f1.dis|
    requires tot + m <= |src| && at == off + tot && at + m <= MAXSIZE
    requires forall k :: 0 <= k < MAXSIZE ==> Byte(f2, i, k) == Byte(f1, i, k)
    requires forall k ::
      0 <= k < MAXSIZE ==> Byte(f3, i, k) == if at <= k < at + m then src[tot..tot + m][k - at] else Byte(f2, i, k)
    ensures forall k ::
      0 <= k < MAXSIZE ==> Byte(f3, i, k) == if off <= k < off + tot + m then src[k - off] else Byte(fs0, i, k)
  {
    hide Byte, OthersKept;
  }

  lemma OthersChain(fs0: Fs, f1: Fs, f2: Fs, f3: Fs, i: nat, bn: nat, data: seq<u8>)
    requires WellFormed(fs0) && WellFormed(f1) && WellFormed(f2) && WellFormed(f3)
    requires |f1.dis| == |f2.dis| == |f3.dis| == |fs0.dis| && OthersKept(fs0, f1, i)
    requires SameFiles(f1, f2) && SamePtrs(f2, f3) && Patched(f2, f3, i, bn, data)
    requires forall j, t :: 0 <= j < |f1.dis| && j != i && 0 <= t < NSLOTS ==> Ptr(f2, j, t) == Ptr(f1, j, t)
    ensures OthersKept(fs0, f3, i)
  {
    hide Data, Ptr;
  }

  lemma SameSlots(fs: Fs, fs': Fs, i: nat, h: nat)
    requires WellFormed(fs) && WellFormed(fs') && SamePtrs(fs, fs') && i < |fs.dis| && HasSlots(fs, i, h)
    ensures HasSlots(fs', i, h)
  {
    hide Ptr;
  }

  /** `tot` bytes of a write are done, and the file holds the blocks for them. */
  ghost predicate Progress(fs0: Fs, fs: Fs, i: nat, size: nat, off: nat, src: seq<u8>, tot: nat) {
    && WroteSoFar(fs0, fs, i, off, src, tot) && off <= size <= MAXSIZE
    && HasSlots(fs, i, Held(BlocksAt(DataBlocks(size), off, tot)))
  }

  lemma ProgressStart(fs: Fs, i: nat, size: nat, off: nat, src: seq<u8>)
    requires WellFormed(fs) && i < |fs.dis| && off <= size <= MAXSIZE && HasSlots(fs, i, Held(DataBlocks(size)))
    ensures Progress(fs, fs, i, size, off, src, 0)
  {
    WriteStart(fs, i, off, src);
    hide WroteSoFar, HasSlots;
  }

  lemma BlocksBound(size: nat, off: nat, tot: nat)
    requires off <= size <= MAXSIZE && off + tot <= MAXSIZE
    ensures BlocksAt(DataBlocks(size), off, tot) <= MAXFILE
  {
  }

  /** What the next block costs. */
  lemma ProgressCost(fs0: Fs, fs: Fs, i: nat, size: nat, off: nat, src: seq<u8>, tot: nat, m: nat)
    requires Progress(fs0, fs, i, size, off, src, tot) && 0 < m && (off + tot) % BSIZE + m <= BSIZE
    ensures WellFormed(fs) && i < |fs.dis|
    ensures (off + tot) / BSIZE < MAXFILE ==>
      MapCost(fs, i, (off + tot) / BSIZE)
        == Held(BlocksAt(DataBlocks(size), off, tot + m)) - Held(BlocksAt(DataBlocks(size), off, tot))
  {
    Facts(fs0, fs, i, off, src, tot);
    hide WroteSoFar, HasSlots, Ptr;
    BlocksBound(size, off, tot);
    NextBlock(size, off, tot, m);
    if (off + tot) / BSIZE < MAXFILE {
      hide DataBlocks, BlocksAt;
      MapCostIs(fs, i, (off + tot) / BSIZE, BlocksAt(DataBlocks(size), off, tot));
    }
  }

  lemma Facts(fs0: Fs, fs: Fs, i: nat, off: nat, src: seq<u8>, tot: nat)
    requires WroteSoFar(fs0, fs, i, off, src, tot)
    ensures WellFormed(fs0) && WellFormed(fs) && i < |fs0.dis| == |fs.dis| && off + tot <= MAXSIZE
    ensures OnlyAddrs(fs0, fs, i) && OthersKept(fs0, fs, i)
  {
  }

  lemma ProgressStep(fs0: Fs, f1: Fs, f2: Fs, f3: Fs, own: Owners, start: nat, i: nat, size: nat, off: nat,
        src: seq<u8>,
                     tot: nat, m: nat, addr: nat)
    requires Progress(fs0, f1, i, size, off, src, tot)
    requires 0 < m && tot + m <= |src| && (off + tot) % BSIZE + m <= BSIZE
    requires MappedTo(f1, f2, i, (off + tot) / BSIZE, addr) && Inv(f2, own, start)
    requires addr < |f2.blocks| && |f2.blocks[addr]| == BSIZE
    requires f3 == Write(f2, addr, Patch(f2.blocks[addr], (off + tot) % BSIZE, src[tot..tot + m]))
    ensures Inv(f3, own, start) && Progress(fs0, f3, i, size, off, src, tot + m)
  {
    Facts(fs0, f1, i, off, src, tot);
    WriteStep(fs0, f1, f2, f3, own, start, i, off, src, tot, m, (off + tot) / BSIZE, (off + tot) % BSIZE, off + tot,
      addr);
    MapParts(f1, f2, i, (off + tot) / BSIZE, addr);
    Formed(f3, own, start);
    BlocksBound(size, off, tot);
    NextBlock(size, off, tot, m);
    hide WroteSoFar, HasSlots, Ptr, MappedTo, Inv, DataBlocks, BlocksAt;
    MapSlots(f1, f2, i, (off + tot) / BSIZE, addr, BlocksAt(DataBlocks(size), off, tot));
    SameSlots(f2, f3, i, Held(BlocksAt(DataBlocks(size), off, tot + m)));
  }

  lemma MappedBlock(f1: Fs, f2: Fs, own: Owners, start: nat, i: nat, bn: nat, addr: nat)
    requires MappedTo(f1, f2, i, bn, addr) && Inv(f2, own, start)
    ensures addr < |f2.blocks| && |f2.blocks[addr]| == BSIZE
  {
    hide Ptr, SameFiles;
    PtrOf(f2, own, start, i, SlotOf(bn));
  }

  /** All of `src` is in: the file is the splice, and no other file has changed. */
  lemma WriteDone(fs0: Fs, fs: Fs, fs': Fs, i: nat, off: nat, src: seq<u8>)
    requires WellFormed(fs0) && i < |fs0.dis| && Progress(fs0, fs, i, fs0.dis[i].size, off, src, |src|) && Dense(fs0)
    requires fs' == fs.(dis := fs.dis[i := fs.dis[i].(size := Max(fs0.dis[i].size, off + |src|))])
    requires fs0.dis[i].kind != 0
    ensures WellFormed(fs') && Dense(fs') && |fs'.dis| == |fs0.dis|
    ensures forall j :: 0 <= j < |fs0.dis| ==> fs0.dis[j].size <= MAXSIZE && fs'.dis[j].size <= MAXSIZE
    ensures Content(fs', i) == Splice(Content(fs0, i), off, src)
    ensures forall j :: 0 <= j < |fs0.dis| && j != i ==> fs'.dis[j] == fs0.dis[j] && Content(fs', j) == Content(fs0, j)
  {
    var size := fs0.dis[i].size;
    assert SizedRight(fs0, i);
    PtrsOfSize(fs, fs', i);
    DoneBlocks(size, off, |src|);
    assert SizedRight(fs', i) by {
      hide Ptr, Data, Byte;
      SameSlots(fs, fs', i, Held(BlocksAt(DataBlocks(size), off, |src|)));
    }
    forall j | 0 <= j < |fs0.dis| && j != i
      ensures fs'.dis[j] == fs0.dis[j] && fs0.dis[j].size <= MAXSIZE && SizedRight(fs', j)
        && Content(fs', j) == Content(fs0, j)
    {
      assert SizedRight(fs0, j);
      OtherDone(fs0, fs, fs', i, j);
    }
    DoneBytes(fs0, fs, fs', i, off, src);
  }

  /** The size of an inode says nothing about its slots. */
  lemma PtrsOfSize(fs: Fs, fs': Fs, i: nat)
    requires WellFormed(fs) && i < |fs.dis| && fs'.blocks == fs.blocks && fs'.bits == fs.bits
    requires |fs'.dis| == |fs.dis| && fs'.dis == fs.dis[i := fs.dis[i].(size := fs'.dis[i].size)]
    ensures WellFormed(fs') && SamePtrs(fs, fs') && SameFiles(fs, fs')
  {
    forall j, t | 0 <= j < |fs.dis| && 0 <= t < NSLOTS ensures Ptr(fs', j, t) == Ptr(fs, j, t) {}
    hide Ptr;
  }

  lemma DoneBlocks(size: nat, off: nat, n: nat)
    requires off <= size
    ensures BlocksAt(DataBlocks(size), off, n) == DataBlocks(Max(size, off + n))
  {
  }

  lemma OtherDone(fs0: Fs, fs: Fs, fs': Fs, i: nat, j: nat)
    requires WellFormed(fs0) && WellFormed(fs) && WellFormed(fs') && |fs'.dis| == |fs.dis| == |fs0.dis|
    requires OthersKept(fs0, fs, i) && SamePtrs(fs, fs') && SameFiles(fs, fs')
    requires j < |fs.dis| && j != i && SizedRight(fs0, j) && fs'.dis[j] == fs.dis[j] == fs0.dis[j]
    ensures SizedRight(fs', j) && Content(fs', j) == Content(fs0, j)
  {
    hide Ptr, Data;
    SameBytes(fs0, fs', j);
  }

  lemma DoneBytes(fs0: Fs, fs: Fs, fs': Fs, i: nat, off: nat, src: seq<u8>)
    requires WroteSoFar(fs0, fs, i, off, src, |src|) && WellFormed(fs') && |fs'.dis| == |fs.dis| && SameFiles(fs, fs')
    requires off <= fs0.dis[i].size <= MAXSIZE && fs'.dis[i].size == Max(fs0.dis[i].size, off + |src|)
    ensures Content(fs', i) == Splice(Content(fs0, i), off, src)
  {
    MappedBytes(fs, fs', i);
    hide Data, OthersKept, Splice;
    var c := Splice(Content(fs0, i), off, src);
    forall k | 0 <= k < |c| ensures Content(fs', i)[k] == c[k] {
      SpliceAt(Content(fs0, i), off, src, k);
    }
  }

  lemma AllSized(fs: Fs)
    requires WellFormed(fs) && Dense(fs)
    ensures forall i :: 0 <= i < |fs.dis| ==> SizedRight(fs, i)
    ensures forall i :: 0 <= i < |fs.dis| ==> fs.dis[i].size <= MAXSIZE
  {
    forall i | 0 <= i < |fs.dis| ensures SizedRight(fs, i) && fs.dis[i].size <= MAXSIZE {}
  }

  lemma InvSize(fs: Fs, fs': Fs, own: Owners, start: nat, i: nat)
    requires Inv(fs, own, start) && i < |fs.dis| && fs'.blocks == fs.blocks && fs'.bits == fs.bits
    requires |fs'.dis| == |fs.dis| && fs'.dis == fs.dis[i := fs.dis[i].(size := fs'.dis[i].size)]
    ensures Inv(fs', own, start)
  {
    PtrsOfSize(fs, fs', i);
    hide Ptr;
  }

  lemma NoBytes(nb: nat, off: nat)
    ensures BlocksAt(nb, off, 0) == nb
  {
  }

  lemma ProgressBound(fs0: Fs, fs: Fs, i: nat, size: nat, off: nat, src: seq<u8>, tot: nat)
    requires Progress(fs0, fs, i, size, off, src, tot)
    ensures off + tot <= MAXSIZE
  {
  }

  /** A write that stays within the file adds no block. */
  lemma GrowthIs(size: nat, off: nat, n: nat)
    ensures off + n <= size ==> Held(BlocksAt(DataBlocks(size), off, n)) == Held(DataBlocks(size))
  {
  }

  lemma WriteIs(fs: Fs, p: nat, data: seq<u8>)
    requires p < |fs.blocks|
    ensures Write(fs, p, data) == Fs(fs.dis, fs.blocks[p := data], fs.bits)
  {
  }

  /** Nothing of an inode but its addresses has changed yet. */
  lemma ProgressEntry(fs0: Fs, fs: Fs, i: nat, size: nat, off: nat, src: seq<u8>, tot: nat)
    requires Progress(fs0, fs, i, size, off, src, tot)
    ensures WellFormed(fs0) && WellFormed(fs) && i < |fs0.dis| == |fs.dis| && off <= size
    ensures fs.dis == fs0.dis[i := fs.dis[i]] && fs.dis[i] == fs0.dis[i].(addrs := fs.dis[i].addrs)
  {
  }

  // readi

  /** `dst` holds the first bytes of inode `i` from `off` on. */
  ghost predicate ReadSoFar(fs: Fs, i: nat, off: nat, dst: seq<u8>)
    requires WellFormed(fs) && i < |fs.dis|
  {
    off + |dst| <= MAXSIZE && forall k :: 0 <= k < |dst| ==> dst[k] == Byte(fs, i, off + k)
  }

  lemma ReadStart(fs: Fs, i: nat, off: nat)
    requires WellFormed(fs) && i < |fs.dis| && off <= MAXSIZE
    ensures ReadSoFar(fs, i, off, [])
  {
  }

  lemma ReadStep(fs: Fs, own: Owners, start: nat, i: nat, off: nat, dst: seq<u8>, m: nat, addr: nat)
    requires Inv(fs, own, start) && i < |fs.dis| && ReadSoFar(fs, i, off, dst)
    requires 0 < m && (off + |dst|) % BSIZE + m <= BSIZE && (off + |dst|) / BSIZE < MAXFILE
    requires addr == Ptr(fs, i, SlotOf((off + |dst|) / BSIZE)) != 0
    ensures addr < |fs.blocks| && |fs.blocks[addr]| == BSIZE
    ensures var o := (off + |dst|) % BSIZE; ReadSoFar(fs, i, off, dst + fs.blocks[addr][o..o + m])
  {
    hide Ptr;
    var from, o := off + |dst|, (off + |dst|) % BSIZE;
    PtrOf(fs, own, start, i, SlotOf(from / BSIZE));
    Room(from, m);
    ChunkBytes(fs, i, from, m);
    assert Data(fs, i, from / BSIZE) == fs.blocks[addr];
    hide Data, Byte, Inv;
    var more := dst + fs.blocks[addr][o..o + m];
    forall k | 0 <= k < |more| ensures more[k] == Byte(fs, i, off + k) {
      assert k >= |dst| ==> more[k] == fs.blocks[addr][o..o + m][k - |dst|];
    }
  }

  lemma ReadDone(fs: Fs, i: nat, off: nat, dst: seq<u8>)
    requires WellFormed(fs) && i < |fs.dis| && off + |dst| <= fs.dis[i].size <= MAXSIZE && ReadSoFar(fs, i, off, dst)
    ensures dst == Content(fs, i)[off..off + |dst|]
  {
    hide Byte;
  }

  /** Within the file, every block is there: mapping it costs nothing. */
  lemma ReadCost(fs: Fs, i: nat, at: nat)
    requires WellFormed(fs) && i < |fs.dis| && at < fs.dis[i].size <= MAXSIZE
    requires HasSlots(fs, i, Held(DataBlocks(fs.dis[i].size)))
    ensures at / BSIZE < MAXFILE && MapCost(fs, i, at / BSIZE) == 0
  {
    assert at / BSIZE < DataBlocks(fs.dis[i].size) <= MAXFILE;
    hide DataBlocks, Ptr, HasSlots;
    MapCostIs(fs, i, at / BSIZE, DataBlocks(fs.dis[i].size));
  }
}
