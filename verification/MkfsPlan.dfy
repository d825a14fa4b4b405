/** Where `tool/mkfs.c` puts every file, and that no two of them meet. */
module MkfsPlan {
  import opened Words
  import opened BlockMap
  import opened FileData
  import opened InodeMap
  import opened Truncate
  import opened MkfsLayout
  import opened Directory

  const ISTART := 2048
  const UNUSED := 0xff   // the type of inode 0

  /** The first block that is not metadata. */
  function Start(size: nat): nat {
    ISTART + (size / 100 * 64 + BSIZE - 1) / BSIZE + (size + 4095) / 4096
  }

  /** The blocks the first `n` files take. */
  function Total(files: seq<seq<u8>>, n: nat): nat
    requires n <= |files|
  {
    if n == 0 then 0 else Total(files, n - 1) + Held(DataBlocks(|files[n - 1]|))
  }

  lemma {:induction false} TotalMonotone(files: seq<seq<u8>>, n: nat, m: nat)
    requires n <= m <= |files|
    ensures Total(files, n) <= Total(files, m)
    decreases m
  {
    if n < m { TotalMonotone(files, n, m - 1); }
  }

  /** Bytes of the root directory: itself twice, the files, and the terminal. */
  function RootSize(files: seq<seq<u8>>): nat { DIRENT * (|files| + 3) }

  function RootBlocks(files: seq<seq<u8>>): nat { DataBlocks(RootSize(files)) }

  /** Where file `m` starts. */
  function Base(size: nat, files: seq<seq<u8>>, m: nat): nat
    requires m <= |files|
  {
    Start(size) + RootBlocks(files) + Total(files, m)
  }

  /** There is room: what the command line has to see to. */
  predicate Fits(size: nat, files: seq<seq<u8>>) {
    && |files| + 3 <= size / 100 && size <= 0x1_0000_0000 && RootBlocks(files) <= NDIRECT
    && Base(size, files, |files|) <= size
  }

  predicate AllShort(files: seq<seq<u8>>, n: nat)
    requires n <= |files|
  {
    forall m :: 0 <= m < n ==> |files[m]| <= MAXSIZE
  }

  // The plan by inode

  function PlanBlocks(files: seq<seq<u8>>, i: nat): nat {
    if i == 1 then RootBlocks(files) else if 2 <= i < |files| + 2 then DataBlocks(|files[i - 2]|) else 0
  }

  function PlanBase(size: nat, files: seq<seq<u8>>, i: nat): nat {
    if i == 1 then Start(size) else if 2 <= i < |files| + 2 then Base(size, files, i - 2) else 0
  }

  /** Inode `i` of the finished image, but for its blocks. */
  function PlanMeta(files: seq<seq<u8>>, i: nat): Dinode {
    if i == 0 then Blank().(kind := UNUSED)
    else if i == 1 then Blank().(kind := T_DIR, nlink := 1, size := RootSize(files))
    else if i < |files| + 2 then Blank().(kind := T_FILE, nlink := 1, size := |files[i - 2]|)
    else if i == |files| + 2 then Blank().(kind := T_DEV, nlink := 1, major := 1)
    else Blank()
  }

  function PlanInode(size: nat, files: seq<seq<u8>>, i: nat): Dinode {
    PlanMeta(files, i).(addrs := Addrs(PlanBase(size, files, i), PlanBlocks(files, i)))
  }

  /** The inodes up to `n` have their blocks. */
  ghost predicate Planned(fs: Fs, size: nat, files: seq<seq<u8>>, n: nat) {
    && WellFormed(fs) && |fs.dis| == size / 100 && n <= |fs.dis|
    && (forall i, t :: 0 <= i < |fs.dis| && 0 <= t < NSLOTS ==>
         Ptr(fs, i, t) == if i < n then Slot(PlanBase(size, files, i), PlanBlocks(files, i), t) else 0)
    && (forall i :: 0 <= i < |fs.dis| ==> fs.dis[i].(addrs := Blank().addrs) == PlanMeta(files, i))
  }

  lemma PlannedNext(fs: Fs, fs': Fs, size: nat, files: seq<seq<u8>>, i: nat)
    requires Planned(fs, size, files, i) && i < |fs.dis|
    requires Laid(fs, fs', i, PlanBase(size, files, i), PlanBlocks(files, i), PlanBlocks(files, i))
    ensures Planned(fs', size, files, i + 1)
  {
    hide Ptr, PlanBase, PlanBlocks, PlanMeta;
    var ns := PlanBlocks(files, i);
    forall t | 0 <= t < NSLOTS ensures Ptr(fs', i, t) == Slot(PlanBase(size, files, i), ns, t) {}
  }

  /** The whole plan carried out on an empty image. */
  lemma PlanAll(size: nat, files: seq<seq<u8>>) returns (fs: Fs, own: Owners)
    requires Fits(size, files) && AllShort(files, |files|)
    ensures Image(fs, own, Start(size), RootBlocks(files) + Total(files, |files|)) && |fs.bits| == size
    ensures Planned(fs, size, files, size / 100)
  {
    hide Image, Planned, Laid, PlanBlocks, PlanBase, Fits, Held, Base, Start, RootBlocks, Total;
    fs, own := PlanStart(size, files);
    var i := 2;
    while i < |files| + 2
      invariant 2 <= i <= |files| + 2 && Image(fs, own, Start(size), RootBlocks(files) + Total(files, i - 2))
        && |fs.bits| == size
      invariant Planned(fs, size, files, i)
    {
      FileRoom(size, files, i);
      Unlaid(fs, size, files, i);
      var fs', own' := LayFile(fs, own, Start(size), RootBlocks(files) + Total(files, i - 2), i, PlanBlocks(files, i));
      PlannedNext(fs, fs', size, files, i);
      fs, own, i := fs', own', i + 1;
    }
    PlannedRest(fs, size, files);
  }

  lemma PlanStart(size: nat, files: seq<seq<u8>>) returns (fs: Fs, own: Owners)
    requires Fits(size, files) && AllShort(files, |files|)
    ensures Image(fs, own, Start(size), RootBlocks(files) + Total(files, 0)) && |fs.bits| == size
    ensures Planned(fs, size, files, 2)
  {
    var fs0 := Fs(seq(size / 100, i requires 0 <= i => PlanMeta(files, i)), seq(size, _ => Zeros()),
      seq(size, b => b < Start(size)));
    TotalMonotone(files, 0, |files|);
    assert Start(size) <= size && Start(size) > 0;
    StartImage(fs0, Start(size));
    forall i | 0 <= i < |fs0.dis|
      ensures fs0.dis[i].addrs == seq(NDIRECT + 1, _ => 0)
        && fs0.dis[i].(addrs := Blank().addrs) == PlanMeta(files, i) {}
    hide Image, Laid, Start, Planned, Fits, RootBlocks;
    assert Planned(fs0, size, files, 1) by { NoneLaid(fs0, size, files); }
    assert RootBlocks(files) <= NDIRECT && 1 < |fs0.dis|
      && Start(size) + RootBlocks(files) <= size by { TotalMonotone(files, 0, |files|); Rooms(size, files); }
    fs, own := LayFile(fs0, map[], Start(size), 0, 1, RootBlocks(files));
    PlannedNext(fs0, fs, size, files, 1);
  }

  lemma Rooms(size: nat, files: seq<seq<u8>>)
    requires Fits(size, files)
    ensures RootBlocks(files) <= NDIRECT && |files| + 3 <= size / 100 && Start(size) + RootBlocks(files) <= size
  {
    TotalMonotone(files, 0, |files|);
  }

  lemma NoneLaid(fs: Fs, size: nat, files: seq<seq<u8>>)
    requires WellFormed(fs) && |fs.dis| == size / 100 >= 1
    requires forall i ::
      0 <= i < |fs.dis| ==>
        fs.dis[i].addrs == seq(NDIRECT + 1, _ => 0) && fs.dis[i].(addrs := Blank().addrs) == PlanMeta(files, i)
    ensures Planned(fs, size, files, 1)
  {
    hide PlanMeta;
    forall i, t | 0 <= i < |fs.dis| && 0 <= t < NSLOTS ensures Ptr(fs, i, t) == 0 {
      BlankSlots(fs, i);
    }
    hide Ptr;
  }

  lemma StartImage(fs: Fs, start: nat)
    requires 0 < start <= |fs.bits| == |fs.blocks| <= 0x1_0000_0000
    requires forall i :: 0 <= i < |fs.dis| ==> fs.dis[i].addrs == seq(NDIRECT + 1, _ => 0)
    requires forall b :: 0 <= b < |fs.bits| ==> fs.bits[b] == (b < start) && fs.blocks[b] == Zeros()
    ensures Image(fs, map[], start, 0) && WellFormed(fs)
  {
  }

  lemma FileRoom(size: nat, files: seq<seq<u8>>, i: nat)
    requires Fits(size, files) && AllShort(files, |files|) && 2 <= i < |files| + 2
    ensures PlanBlocks(files, i) <= MAXFILE && PlanBase(size, files,
      i) == Start(size) + (RootBlocks(files) + Total(files, i - 2))
    ensures Total(files, i - 1) == Total(files, i - 2) + Held(PlanBlocks(files, i))
    ensures Start(size) + RootBlocks(files) + Total(files, i - 2) + Held(PlanBlocks(files, i)) <= size
  {
    TotalMonotone(files, i - 1, |files|);
    assert |files[i - 2]| <= MAXSIZE;
  }

  lemma Unlaid(fs: Fs, size: nat, files: seq<seq<u8>>, i: nat)
    requires Planned(fs, size, files, i) && Fits(size, files) && i < |files| + 2
    ensures i < |fs.dis| && fs.dis[i].addrs == seq(NDIRECT + 1, _ => 0)
  {
    forall t | 0 <= t <= NDIRECT ensures fs.dis[i].addrs[t] == 0 {
      assert Ptr(fs, i, t) == 0;
    }
  }

  lemma PlannedRest(fs: Fs, size: nat, files: seq<seq<u8>>)
    requires Planned(fs, size, files, |files| + 2)
    ensures Planned(fs, size, files, size / 100)
  {
    hide Ptr;
    forall i | |files| + 2 <= i < size / 100 ensures PlanBlocks(files, i) == 0 {}
  }
}
