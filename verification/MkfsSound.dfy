/**
 The image that `tool/mkfs.c` leaves is good if and only if its condition on the old image and the files holds.
 One way, every pointer is the planned one; the other way, where every slot has a block and no block is in two
 there is no room for any other pointer, so that whatever was spoiled shows. The theorem is Exactly.
 */
module MkfsSound {
  import opened Words
  import opened BlockMap
  import opened FileData
  import opened InodeMap
  import opened ReadWrite
  import opened Truncate
  import opened MkfsLayout
  import opened MkfsPlan
  import opened MkfsBytes
  import opened MkfsImage
  import opened Directory

  // What a good image is

  ghost predicate FileReads(fs: Fs, files: seq<seq<u8>>, m: nat)
    requires WellFormed(fs) && m < |files| && m + 2 < |fs.dis|
  {
    && fs.dis[m + 2].kind == T_FILE && fs.dis[m + 2].nlink == 1
    && fs.dis[m + 2].size <= MAXSIZE && Content(fs, m + 2) == files[m]
  }

  ghost predicate EntryReads(c: seq<u8>, names: seq<seq<u8>>, k: nat)
    requires k < |names| + 3
  {
    k < Slots(c) && Inum(c, k) == EntryInode(k) && Key(Name(c, k)) == Key(Field(names, k))
  }

  ghost predicate RootReads(fs: Fs, names: seq<seq<u8>>)
    requires WellFormed(fs)
  {
    && 1 < |fs.dis| && fs.dis[1].kind == T_DIR && fs.dis[1].size == DIRENT * (|names| + 3) <= MAXSIZE
    && forall k :: 0 <= k < |names| + 3 ==> EntryReads(Content(fs, 1), names, k)
  }

  /** No block in two slots, the bitmap right, for every inode its blocks, and every file and name there. */
  ghost predicate Sound(fs: Fs, start: nat, names: seq<seq<u8>>, files: seq<seq<u8>>) {
    && WellFormed(fs) && (exists own :: Inv(fs, own, start)) && Dense(fs)
    && |files| + 2 <= |fs.dis| && (forall m :: 0 <= m < |files| ==> FileReads(fs, files, m)) && RootReads(fs, names)
  }

  // Pointers

  /** In an image that is dense and in which no block is in two slots, every pointer is right. */
  lemma NoThief(fs: Fs, disk: seq<u8>, val: seq<u8>, born: seq<nat>, was: seq<u8>, size: nat, names: seq<seq<u8>>,
        files: seq<seq<u8>>,
                own: Owners, m: nat, t: nat)
    requires IsImage(fs, disk, size, files) && Finished(disk, val, born, was, size, names, files) && WellFormed(fs)
      && |was| == BSIZE * size
    requires Inv(fs, own, Start(size)) && Dense(fs) && m < |files| && m + 2 < |fs.dis| && t < NSLOTS
    ensures SlotRight(fs, size, files, m, t)
  {
    hide PlanInode, PlanMeta, Base, DataBlocks, Fits, Start, IsImage, Finished, Wrote, Stale, Unharmed, Cleared,
         WordKept, WordClear, PtrWords, PtrBytes, Inv, Ptr, AllShort, Tracks, RootBlocks, Total;
    FinishedFile(fs, disk, val, born, was, size, names, files, m);
    var base, ns := Base(size, files, m), DataBlocks(|files[m]|);
    PlanIs(size, files, m);
    SizeIs(fs, disk, size, files, m);
    assert SizedRight(fs, m + 2);
    if t <= NDIRECT {
      DirectSlot(fs, disk, size, files, m + 2, t);
    } else if t > ns || ns <= NDIRECT {
      assert Ptr(fs, m + 2, t) != 0 <==> t < Held(ns);
    } else {
      WordCases(fs, disk, val, born, was, size, names, files, m, t - NDIRECT - 1);
      var n, v := Ptr(fs, m + 2, t), Slot(base, ns, t);
      if n != v {
        assert n != 0 && n < 0x1_0000 && n < v;
        SlotEnds(size, files, m, t);
        var i, s := Elsewhere(fs, disk, val, born, was, size, names, files, own, m + 2, t, n, v);
        ExactlyOne(fs, own, Start(size), m + 2, t, i, s);
      }
    }
  }

  lemma SizeIs(fs: Fs, disk: seq<u8>, size: nat, files: seq<seq<u8>>, m: nat)
    requires IsImage(fs, disk, size, files) && m < |files| && m + 2 < |fs.dis|
    ensures fs.dis[m + 2].size == |files[m]| <= MAXSIZE && fs.dis[m + 2].kind == T_FILE && fs.dis[m + 2].nlink == 1
  {
    hide PlanBase, PlanBlocks, Base, Fits;
    assert fs.dis[m + 2] == PlanInode(size, files, m + 2);
  }

  /** A small block number in use is in the slot that it was meant for. */
  lemma Elsewhere(fs: Fs, disk: seq<u8>, val: seq<u8>, born: seq<nat>, was: seq<u8>, size: nat, names: seq<seq<u8>>,
        files: seq<seq<u8>>,
                  own: Owners, j: nat, t: nat, n: nat, v: nat) returns (i: nat, s: nat)
    requires IsImage(fs, disk, size, files) && Finished(disk, val, born, was, size, names, files) && WellFormed(fs)
      && |was| == BSIZE * size
    requires Inv(fs, own, Start(size)) && j < |fs.dis| && t < NSLOTS && Ptr(fs, j, t) == n && 0 < n < 0x1_0000 && n < v
    requires v == Slot(PlanBase(size, files, j), PlanBlocks(files, j), t) < Base(size, files, |files|)
    ensures i < |fs.dis| && s < NSLOTS && Ptr(fs, i, s) == n && (i != j || s != t)
  {
    hide PlanInode, PlanMeta, Base, DataBlocks, Fits, Start, Finished, Wrote, Stale, Unharmed, Cleared, WordKept,
         WordClear, PtrWords, PtrBytes, Inv, Ptr, AllShort, Tracks, RootBlocks, Total, Planned, Image, Slot;
    PtrOf(fs, own, Start(size), j, t);
    var clean, cown := PlanAll(size, files);
    BaseIs(size, files);
    UsedBlock(clean, cown, Start(size), Base(size, files, |files|) - Start(size), n);
    i, s := cown[n].0, cown[n].1;
    PlanSlot(clean, size, files, i, s);
    SmallSlot(fs, disk, val, born, was, size, names, files, i, s, n);
  }

  lemma SlotEnds(size: nat, files: seq<seq<u8>>, m: nat, t: nat)
    requires m < |files| && t < NSLOTS
    ensures Slot(Base(size, files, m), DataBlocks(|files[m]|), t) < Base(size, files, |files|)
            || Slot(Base(size, files, m), DataBlocks(|files[m]|), t) == 0
  {
    hide DataBlocks, Start, RootBlocks;
    TotalMonotone(files, m + 1, |files|);
  }

  lemma BaseIs(size: nat, files: seq<seq<u8>>)
    ensures Base(size, files, |files|) - Start(size) == RootBlocks(files) + Total(files, |files|)
  {
  }

  lemma UsedBlock(fs: Fs, own: Owners, start: nat, sect: nat, n: nat)
    requires Image(fs, own, start, sect) && start <= n < start + sect
    ensures n in own && own[n].0 < |fs.dis| && own[n].1 < NSLOTS && WellFormed(fs) && Ptr(fs, own[n].0, own[n].1) == n
  {
    hide Ptr;
    assert fs.bits[n];
  }

  lemma PlanSlot(fs: Fs, size: nat, files: seq<seq<u8>>, i: nat, s: nat)
    requires Planned(fs, size, files, size / 100) && i < |fs.dis| && s < NSLOTS
    ensures |fs.dis| == size / 100 && Ptr(fs, i, s) == Slot(PlanBase(size, files, i), PlanBlocks(files, i), s)
  {
    hide Ptr, PlanMeta;
  }

  /** A block number below 65536 cannot be harmed. */
  lemma SmallSlot(fs: Fs, disk: seq<u8>, val: seq<u8>, born: seq<nat>, was: seq<u8>, size: nat, names: seq<seq<u8>>,
        files: seq<seq<u8>>,
                  i: nat, s: nat, n: nat)
    requires IsImage(fs, disk, size, files) && Finished(disk, val, born, was, size, names, files) && WellFormed(fs)
      && |was| == BSIZE * size
    requires i < |fs.dis| && s < NSLOTS && Slot(PlanBase(size, files, i), PlanBlocks(files, i), s) == n
      && 0 < n < 0x1_0000
    ensures Ptr(fs, i, s) == n
  {
    hide PlanInode, PlanMeta, Base, Fits, Start, Finished, IsImage, Wrote, Stale, Unharmed, Cleared, PtrWords,
         PtrBytes, Ptr, AllShort, Tracks, DataBlocks;
    if s <= NDIRECT {
      DirectSlot(fs, disk, size, files, i, s);
    } else {
      RootShort(disk, val, born, was, size, names, files);
      assert 2 <= i < |files| + 2;
      WordCases(fs, disk, val, born, was, size, names, files, i - 2, s - NDIRECT - 1);
    }
  }

  lemma RootShort(disk: seq<u8>, val: seq<u8>, born: seq<nat>, was: seq<u8>, size: nat, names: seq<seq<u8>>,
        files: seq<seq<u8>>)
    requires Finished(disk, val, born, was, size, names, files)
    ensures RootBlocks(files) <= NDIRECT
  {
  }

  // Contents

  /** What a file in consecutive blocks reads as. */
  lemma ContentAt(fs: Fs, disk: seq<u8>, size: nat, files: seq<seq<u8>>, i: nat, at: nat)
    requires IsImage(fs, disk, size, files) && WellFormed(fs) && i < |fs.dis| && fs.dis[i].size <= MAXSIZE && at > 0
    requires at + DataBlocks(fs.dis[i].size) <= size
    requires forall n: nat :: n < DataBlocks(fs.dis[i].size) ==> InPlace(fs, i, at, n)
    ensures BSIZE * at + fs.dis[i].size <= |disk| && Content(fs, i) == disk[BSIZE * at..BSIZE * at + fs.dis[i].size]
  {
    hide Ptr, PlanInode, Base, Fits;
    var len := fs.dis[i].size;
    assert fs.blocks == BlocksOf(disk, size);
    forall x | 0 <= x < len ensures Byte(fs, i, x) == disk[BSIZE * at + x] {
      var n: nat := x / BSIZE;
      assert n < DataBlocks(len) && InPlace(fs, i, at, n);
      assert fs.blocks[at + n] == disk[BSIZE * (at + n)..BSIZE * (at + n) + BSIZE];
      assert BSIZE * (at + n) + x % BSIZE == BSIZE * at + x;
    }
  }

  /** Block `n` of inode `i` is block `at + n` of the image. */
  ghost predicate InPlace(fs: Fs, i: nat, at: nat, n: nat)
    requires WellFormed(fs) && i < |fs.dis|
  {
    n < MAXFILE && Ptr(fs, i, SlotOf(n)) == at + n
  }

  /** A file with right pointers reads back exactly when no byte of it was harmed. */
  lemma FileExactly(fs: Fs, disk: seq<u8>, val: seq<u8>, born: seq<nat>, was: seq<u8>, size: nat, names: seq<seq<u8>>,
        files: seq<seq<u8>>, m: nat)
    requires IsImage(fs, disk, size, files) && Finished(disk, val, born, was, size, names, files) && WellFormed(fs)
    requires m < |files| && m + 2 < |fs.dis| && forall t: nat :: t < NSLOTS ==> SlotRight(fs, size, files, m, t)
    ensures FileReads(fs, files, m) <==> DataKept(size, files, m)
  {
    hide PlanInode, PlanMeta, Base, Fits, Start, IsImage, Finished, Wrote, Stale, Unharmed, PtrBytes, Ptr, AllShort,
         Tracks, RootBlocks, Total, Content;
    FinishedFile(fs, disk, val, born, was, size, names, files, m);
    SizeIs(fs, disk, size, files, m);
    var ns, at := DataBlocks(|files[m]|), DataAt(Base(size, files, m), DataBlocks(|files[m]|));
    var i := m + 2;
    forall n: nat | n < ns ensures InPlace(fs, i, at, n) {
      assert SlotRight(fs, size, files, m, SlotOf(n));
    }
    ContentAt(fs, disk, size, files, m + 2, at);
    ReadBack(disk, val, born, Argc(files), BSIZE * Start(size), BSIZE * at, files[m], m + 3);
  }

  lemma ReadBack(disk: seq<u8>, val: seq<u8>, born: seq<nat>, now: nat, lo: nat, at: nat, bytes: seq<u8>, t: nat)
    requires Tracks(disk, val, born, now, lo) && Wrote(val, born, at, bytes, t) && lo <= at && at + |bytes| <= |disk|
    ensures disk[at..at + |bytes|] == bytes <==> Unharmed(bytes, at, t, now)
  {
    hide Struck, Tracks, Wrote;
    forall x | 0 <= x < |bytes| ensures disk[at + x] == Hit(bytes[x], at + x, t, now) {
      WroteRead(disk, val, born, now, lo, at, bytes, t, x);
    }
    if disk[at..at + |bytes|] == bytes {
      forall x | 0 <= x < |bytes| && Struck(at + x, t, now) ensures bytes[x] == 0 {
        assert disk[at..at + |bytes|][x] == disk[at + x];
      }
    }
  }

  // The root directory

  /** An entry of which some bytes may have been hit. */
  lemma EntryExactly(c: seq<u8>, names: seq<seq<u8>>, k: nat, at: nat, t: nat, now: nat)
    requires NameFields(names) && k < |names| + 3 <= 0x1_0000_0000 && k < Slots(c) && |Entry(names, k)| <= DIRENT
    requires forall x :: 0 <= x < |Entry(names, k)| ==> c[DIRENT * k + x] == Hit(Entry(names, k)[x], at + x, t, now)
    ensures EntryReads(c, names, k) <==> Unharmed(Entry(names, k)[..4 + |Key(Field(names, k))|], at, t, now)
  {
    hide Struck, Entry, Field, InumBytes, Inum, Name, Key, Unharmed, Hit, NameFields;
    var e, b, f := Entry(names, k), InumBytes(EntryInode(k)), Field(names, k);
    FieldEnds(names, k);
    EntryParts(names, k);
    forall x | 0 <= x < 4 ensures c[DIRENT * k + x] == Hit(b[x], at + x, t, now) {
      assert e[x] == b[x];
    }
    NumberHit(c, k, EntryInode(k), at, t, now);
    forall y | 0 <= y < |f| ensures Name(c, k)[y] == Hit(f[y], at + 4 + y, t, now) {
      NameByte(c, k, y);
      EntryByte(e, b, f, c, DIRENT * k, y, at, t, now);
    }
    NameHit(Name(c, k), f, at + 4, t, now);
    UnharmedParts(b, f[..|Key(f)|], at, t, now);
  }

  lemma EntryByte(e: seq<u8>, b: seq<u8>, f: seq<u8>, c: seq<u8>, o: nat, y: nat, at: nat, t: nat, now: nat)
    requires e == b + f && |b| == 4 && y < |f| && o + |e| <= |c| && forall x ::
      0 <= x < |e| ==> c[o + x] == Hit(e[x], at + x, t, now)
    ensures c[o + (4 + y)] == Hit(f[y], at + 4 + y, t, now)
  {
    assert e[4 + y] == f[y] && at + (4 + y) == at + 4 + y;
  }

  lemma EntryParts(names: seq<seq<u8>>, k: nat)
    requires k < |names| + 3 <= 0x1_0000_0000
    ensures Entry(names, k) == InumBytes(EntryInode(k)) + Field(names, k)
    ensures Entry(names, k)[..4 + |Key(Field(names, k))|] == InumBytes(EntryInode(k)) + Field(names,
      k)[..|Key(Field(names, k))|]
  {
    hide InumBytes, Field, Key;
  }

  lemma NameByte(c: seq<u8>, k: nat, y: nat)
    requires k < Slots(c) && y < NAMELEN
    ensures Name(c, k)[y] == c[DIRENT * k + (4 + y)]
  {
  }

  lemma UnharmedParts(a: seq<u8>, b: seq<u8>, at: nat, t: nat, now: nat)
    ensures Unharmed(a + b, at, t, now) <==> Unharmed(a, at, t, now) && Unharmed(b, at + |a|, t, now)
  {
    hide Struck;
    if Unharmed(a + b, at, t, now) {
      forall x | 0 <= x < |a| && Struck(at + x, t, now) ensures a[x] == 0 {
        assert (a + b)[x] == a[x];
      }
      forall x | 0 <= x < |b| && Struck(at + |a| + x, t, now) ensures b[x] == 0 {
        assert (a + b)[|a| + x] == b[x] && at + (|a| + x) == at + |a| + x;
      }
    }
    if Unharmed(a, at, t, now) && Unharmed(b, at + |a|, t, now) {
      forall x | 0 <= x < |a + b| && Struck(at + x, t, now) ensures (a + b)[x] == 0 {
        if x >= |a| { assert at + |a| + (x - |a|) == at + x; }
      }
    }
  }

  lemma NumberHit(c: seq<u8>, k: nat, v: u32, at: nat, t: nat, now: nat)
    requires k < Slots(c) && forall x :: 0 <= x < 4 ==> c[DIRENT * k + x] == Hit(InumBytes(v)[x], at + x, t, now)
    ensures Inum(c, k) == v <==> Unharmed(InumBytes(v), at, t, now)
  {
    hide Struck, Inum, InumBytes;
    NumberRead(c, k, v);
  }

  lemma NameHit(s: seq<u8>, f: seq<u8>, at: nat, t: nat, now: nat)
    requires |s| == NAMELEN >= |f| && (|Key(f)| == |f| ==> |f| == NAMELEN)
    requires forall y :: 0 <= y < |f| ==> s[y] == Hit(f[y], at + y, t, now)
    ensures Key(s) == Key(f) <==> Unharmed(f[..|Key(f)|], at, t, now)
  {
    var n := |Key(f)|;
    hide Struck, Key;
    NameRead(s, f);
    if forall y :: 0 <= y < n ==> s[y] == f[y] {
      forall y | 0 <= y < n && Struck(at + y, t, now) ensures f[..n][y] == 0 {
        assert s[y] == f[y];
      }
    }
    if Unharmed(f[..n], at, t, now) {
      forall y | 0 <= y < n ensures s[y] == f[y] {
        assert f[..n][y] == f[y];
      }
    }
  }

  /** The name's field is full, or ends in a zero. */
  lemma FieldEnds(names: seq<seq<u8>>, k: nat)
    requires NameFields(names) && k < |names| + 3 <= 0x1_0000_0000
    ensures var f := Field(names, k);
      |f| <= NAMELEN && (|Key(f)| == |f| ==> |f| == NAMELEN) && |Entry(names, k)| == 4 + |f| <= DIRENT
  {
    var f := Field(names, k);
    if |Key(f)| == |f| && |f| < NAMELEN {
      LastZero(f);
    }
  }

  lemma LastZero(f: seq<u8>)
    requires |f| > 0 && f[|f| - 1] == 0
    ensures |Key(f)| < |f|
  {
    var z := f[|f| - 1];
    assert |Key(f)| == |f| ==> z in Key(f);
  }

  /** The number reads as it was written exactly when all four bytes do. */
  lemma NumberRead(c: seq<u8>, k: nat, v: u32)
    requires k < Slots(c) && forall x :: 0 <= x < 4 ==> c[DIRENT * k + x] <= InumBytes(v)[x]
    ensures Inum(c, k) == v <==> forall x :: 0 <= x < 4 ==> c[DIRENT * k + x] == InumBytes(v)[x]
  {
    WordOf(v);
    var b := InumBytes(v);
    assert c[DIRENT * k + 0] <= b[0] && c[DIRENT * k + 1] <= b[1] && c[DIRENT * k + 2] <= b[2]
      && c[DIRENT * k + 3] <= b[3];
  }

  /** The name does exactly when the bytes before the zero do. */
  lemma NameRead(s: seq<u8>, f: seq<u8>)
    requires |s| == NAMELEN >= |f| && (|Key(f)| == |f| ==> |f| == NAMELEN) && (|Key(f)| < |f| ==> s[|Key(f)|] == 0)
    ensures Key(s) == Key(f) <==> forall y :: 0 <= y < |Key(f)| ==> s[y] == f[y]
  {
    var n := |Key(f)|;
    if forall y :: 0 <= y < n ==> s[y] == f[y] {
      assert s[..n] == f[..n];
      KeyPrefix(s, f, n);
    }
  }

  /** The root directory reads as written exactly when no byte that counts was harmed. */
  lemma RootExactly(fs: Fs, disk: seq<u8>, val: seq<u8>, born: seq<nat>, was: seq<u8>, size: nat, names: seq<seq<u8>>,
        files: seq<seq<u8>>)
    requires IsImage(fs, disk, size, files) && Finished(disk, val, born, was, size, names, files) && WellFormed(fs)
    ensures |names| + 3 <= 0x1_0000_0000
    ensures RootReads(fs, names) <==> forall k :: 0 <= k < |files| + 3 ==> EntryKept(size, names, Argc(files), k)
  {
    hide PlanInode, PlanMeta, Fits, Start, IsImage, Finished, Unharmed, Ptr, Content, EntryReads, Entry, Field, Tracks,
         Wrote;
    RootShape(fs, disk, val, born, was, size, names, files);
    var start := Start(size);
    forall n: nat | n < RootBlocks(files) ensures InPlace(fs, 1, start, n) {
      DirectSlot(fs, disk, size, files, 1, n);
    }
    hide RootBlocks;
    ContentAt(fs, disk, size, files, 1, start);
    var c := Content(fs, 1);
    forall k | 0 <= k < |files| + 3 ensures EntryReads(c, names, k) <==> EntryKept(size, names, Argc(files), k) {
      RootEntry(disk, val, born, was, size, names, files, c, k);
    }
  }

  lemma RootShape(fs: Fs, disk: seq<u8>, val: seq<u8>, born: seq<nat>, was: seq<u8>, size: nat, names: seq<seq<u8>>,
        files: seq<seq<u8>>)
    requires IsImage(fs, disk, size, files) && Finished(disk, val, born, was, size, names, files)
    ensures |names| == |files| && |names| + 3 <= 0x1_0000_0000 && 1 < |fs.dis|
    ensures fs.dis[1].kind == T_DIR && fs.dis[1].nlink == 1 && fs.dis[1].size == DIRENT * (|names| + 3) <= MAXSIZE
    ensures DataBlocks(fs.dis[1].size) == RootBlocks(files) <= NDIRECT && 0 < Start(size)
      && Start(size) + RootBlocks(files) <= size
    ensures PlanBase(size, files, 1) == Start(size) && PlanBlocks(files, 1) == RootBlocks(files)
  {
    Rooms(size, files);
    hide Tracks, Wrote, Base;
    assert fs.dis[1] == PlanInode(size, files, 1);
  }

  lemma RootEntry(disk: seq<u8>, val: seq<u8>, born: seq<nat>, was: seq<u8>, size: nat, names: seq<seq<u8>>,
        files: seq<seq<u8>>, c: seq<u8>, k: nat)
    requires Finished(disk, val, born, was, size, names, files) && k < |files| + 3 == |names| + 3 <= 0x1_0000_0000
    requires BSIZE * Start(size) + DIRENT * (|files| + 3) <= |disk|
    requires c == disk[BSIZE * Start(size)..BSIZE * Start(size) + DIRENT * (|files| + 3)]
    ensures EntryReads(c, names, k) <==> EntryKept(size, names, Argc(files), k)
  {
    hide Start, Unharmed, EntryReads, Entry, Field, Tracks, Wrote, FilePlaced, Hit, Fits, Base, Slots;
    var at, e, t := BSIZE * Start(size) + DIRENT * k, Entry(names, k), EntryTime(k, Argc(files));
    assert Wrote(val, born, at, e, t);
    FieldEnds(names, k);
    SlotsOf(c, |files| + 3);
    forall x | 0 <= x < |e| ensures c[DIRENT * k + x] == Hit(e[x], at + x, t, Argc(files)) {
      WroteRead(disk, val, born, Argc(files), BSIZE * Start(size), at, e, t, x);
    }
    EntryExactly(c, names, k, at, t, Argc(files));
  }

  lemma SlotsOf(c: seq<u8>, n: nat)
    requires |c| == DIRENT * n
    ensures Slots(c) == n
  {
  }

  // The theorem

  /** With the files' pointers right, all are. */
  lemma PtrsPlanned(fs: Fs, disk: seq<u8>, size: nat, files: seq<seq<u8>>, i: nat, t: nat)
    requires IsImage(fs, disk, size, files) && WellFormed(fs) && i < |fs.dis| && t < NSLOTS
    requires 2 <= i < |files| + 2 ==> SlotRight(fs, size, files, i - 2, t)
    ensures Ptr(fs, i, t) == Slot(PlanBase(size, files, i), PlanBlocks(files, i), t)
  {
    hide PlanInode, PlanMeta, Base, Fits, IsImage, DataBlocks, AllShort;
    if t <= NDIRECT {
      hide Ptr;
      DirectSlot(fs, disk, size, files, i, t);
    } else if 2 <= i < |files| + 2 {
      hide Ptr;
      PlanIs(size, files, i - 2);
    } else {
      DirectSlot(fs, disk, size, files, i, NDIRECT);
      RootFits(fs, disk, size, files);
    }
  }

  lemma RootFits(fs: Fs, disk: seq<u8>, size: nat, files: seq<seq<u8>>)
    requires IsImage(fs, disk, size, files)
    ensures RootBlocks(files) <= NDIRECT
  {
  }

  /** An image with all its pointers as planned. */
  lemma PlannedSound(fs: Fs, disk: seq<u8>, size: nat, files: seq<seq<u8>>)
    requires IsImage(fs, disk, size, files) && WellFormed(fs)
    requires forall i, t ::
      0 <= i < |fs.dis| && 0 <= t < NSLOTS ==> Ptr(fs, i, t) == Slot(PlanBase(size, files, i), PlanBlocks(files, i), t)
    ensures (exists own :: Inv(fs, own, Start(size))) && Dense(fs)
  {
    hide PlanInode, PlanMeta, Base, Fits, Ptr, Slot, Inv, DataBlocks, AllShort, Image, Planned, Start, PlanBase,
         PlanBlocks, Total, RootBlocks;
    ImageForm(fs, disk, size, files);
    var clean, own := PlanAll(size, files);
    ImageFormed(clean, own, Start(size), RootBlocks(files) + Total(files, |files|));
    SameBits(fs, clean, own, disk, size, files);
    forall i, t | 0 <= i < |fs.dis| && 0 <= t < NSLOTS ensures Ptr(fs, i, t) == Ptr(clean, i, t) {
      PlanSlot(clean, size, files, i, t);
    }
    SamePtrsInv(clean, fs, own, Start(size));
    forall i | 0 <= i < |fs.dis| ensures SizedRight(fs, i) {
      SizedPlan(fs, disk, size, files, i);
    }
  }

  lemma SameBits(fs: Fs, clean: Fs, own: Owners, disk: seq<u8>, size: nat, files: seq<seq<u8>>)
    requires IsImage(fs, disk, size, files) && Image(clean, own, Start(size),
      RootBlocks(files) + Total(files, |files|)) && |clean.bits| == size
    requires Planned(clean, size, files, size / 100)
    ensures fs.bits == clean.bits && |fs.blocks| == |clean.blocks| && |fs.dis| == |clean.dis|
  {
    hide Ptr, PlanInode, PlanMeta;
  }

  lemma SizedPlan(fs: Fs, disk: seq<u8>, size: nat, files: seq<seq<u8>>, i: nat)
    requires IsImage(fs, disk, size, files) && WellFormed(fs) && i < |fs.dis|
    requires forall t :: 0 <= t < NSLOTS ==> Ptr(fs, i, t) == Slot(PlanBase(size, files, i), PlanBlocks(files, i), t)
    ensures SizedRight(fs, i)
  {
    hide Ptr, Total;
    ImageForm(fs, disk, size, files);
    assert fs.dis[i] == PlanInode(size, files, i);
    if 2 <= i < |files| + 2 { assert |files[i - 2]| <= MAXSIZE; }
  }

  /**
   The image is good exactly when the old contents of indirect blocks were clear and no stray store
   has changed a byte that counts.
   */
  lemma Exactly(fs: Fs, disk: seq<u8>, val: seq<u8>, born: seq<nat>, was: seq<u8>, size: nat, names: seq<seq<u8>>,
        files: seq<seq<u8>>)
    requires IsImage(fs, disk, size, files) && Finished(disk, val, born, was, size, names, files)
      && |was| == BSIZE * size
    ensures |names| == |files| && Fits(size, files) && AllShort(files, |files|)
    ensures Sound(fs, Start(size), names, files) <==> Unspoiled(was, size, names, files)
  {
    hide PlanInode, PlanMeta, Base, Fits, Start, IsImage, Finished, AllShort, DataBlocks, Ptr, Slot, Inv, Content,
         SlotRight, DataKept, WordsKept, RestClear, EntryKept, FileReads, Dense;
    ImageForm(fs, disk, size, files);
    Shapes(fs, disk, val, born, was, size, names, files);
    RootExactly(fs, disk, val, born, was, size, names, files);
    if Sound(fs, Start(size), names, files) {
      var own :| Inv(fs, own, Start(size));
      forall m | 0 <= m < |files| ensures FileKept(was, size, files, m) {
        forall t: nat | t < NSLOTS ensures SlotRight(fs, size, files, m, t) {
          NoThief(fs, disk, val, born, was, size, names, files, own, m, t);
        }
        SlotsExactly(fs, disk, val, born, was, size, names, files, m);
        FileExactly(fs, disk, val, born, was, size, names, files, m);
      }
    }
    if Unspoiled(was, size, names, files) {
      forall m, t: nat | 0 <= m < |files| && t < NSLOTS ensures SlotRight(fs, size, files, m, t) {
        assert FileKept(was, size, files, m);
        SlotsExactly(fs, disk, val, born, was, size, names, files, m);
      }
      forall i, t | 0 <= i < |fs.dis| && 0 <= t < NSLOTS
        ensures Ptr(fs, i, t) == Slot(PlanBase(size, files, i), PlanBlocks(files, i), t) {
        PtrsPlanned(fs, disk, size, files, i, t);
      }
      PlannedSound(fs, disk, size, files);
      forall m | 0 <= m < |files| ensures FileReads(fs, files, m) {
        assert FileKept(was, size, files, m);
        FileExactly(fs, disk, val, born, was, size, names, files, m);
      }
    }
  }

  lemma Shapes(fs: Fs, disk: seq<u8>, val: seq<u8>, born: seq<nat>, was: seq<u8>, size: nat, names: seq<seq<u8>>,
        files: seq<seq<u8>>)
    requires IsImage(fs, disk, size, files) && Finished(disk, val, born, was, size, names, files)
    ensures |names| == |files| && Fits(size, files) && AllShort(files, |files|) && |files| + 2 < |fs.dis|
  {
    hide Base, PlanInode, Tracks, Wrote, Start, RootBlocks;
  }
}
