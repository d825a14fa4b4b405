/**
 What the finished image of `tool/mkfs.c` is worth: exactly when every file and every name can be read back. Each
 byte is one that was written last by some store of known time, or one of the old image; a stray store that comes
 later may have cleared it. Here that is worked out for the words of the indirect blocks, for the words after the
 last one that is used, and for the bytes of files and names, block by block and slot by slot.
 */
module MkfsImage {
  import opened Words
  import opened BlockMap
  import opened FileData
  import opened InodeMap
  import opened ReadWrite
  import opened Truncate
  import opened MkfsLayout
  import opened MkfsPlan
  import opened MkfsBytes
  import opened Directory

  const TTY: seq<u8> := [116, 116, 121]

  /** The arguments of mkfs, its own name and the image's included. */
  function Argc(files: seq<seq<u8>>): nat { |files| + 2 }

  // The bytes of files and names

  /** What is written of the name of entry `k`: strcpy ends it with a zero, strncpy fills the field. */
  function Field(names: seq<seq<u8>>, k: nat): seq<u8>
    requires k < |names| + 3
  {
    if k == 0 then DOT + [0] else if k == 1 then DOTDOT + [0] else if k < |names| + 2 then names[k - 2] else TTY + [0]
  }

  function EntryInode(k: nat): nat { if k < 2 then 1 else k }

  /** Entry `k` of the root directory: itself twice, the files, and the terminal. */
  function Entry(names: seq<seq<u8>>, k: nat): (e: seq<u8>)
    requires k < |names| + 3 <= 0x1_0000_0000
  {
    InumBytes(EntryInode(k)) + Field(names, k)
  }

  predicate NameFields(names: seq<seq<u8>>) {
    forall m :: 0 <= m < |names| ==> |names[m]| == NAMELEN
  }

  /** The words of an indirect block: block numbers in a row. */
  function PtrBytes(first: nat, n: nat): (b: seq<u8>)
    requires first + n <= 0x1_0000_0000
    ensures |b| == 4 * n
  {
    if n == 0 then [] else PtrBytes(first, n - 1) + InumBytes(first + n - 1)
  }

  lemma {:induction false} PtrBytesAt(first: nat, n: nat, w: nat)
    requires w < n && first + n <= 0x1_0000_0000
    ensures PtrBytes(first, n)[4 * w..4 * w + 4] == InumBytes(first + w)
    decreases n
  {
    hide InumBytes;
    if w < n - 1 {
      PtrBytesAt(first, n - 1, w);
      assert PtrBytes(first, n)[4 * w..4 * w + 4] == PtrBytes(first, n - 1)[4 * w..4 * w + 4];
    }
  }

  /** Where the data of a file starts that is laid out from `base` on. */
  function DataAt(base: nat, ns: nat): nat { base + (if ns > NDIRECT then 1 else 0) }

  /** The words of the indirect block of such a file. */
  function PtrWords(base: nat, ns: nat): (b: seq<u8>)
    requires ns <= MAXFILE && base + Held(ns) <= 0x1_0000_0000
    ensures |b| == if ns > NDIRECT then 4 * (ns - NDIRECT) else 0
  {
    if ns > NDIRECT then PtrBytes(base + 1 + NDIRECT, ns - NDIRECT) else []
  }

  /** A file and its indirect block as they were written; the rest of that block is old. */
  ghost predicate FilePlaced(val: seq<u8>, born: seq<nat>, was: seq<u8>, base: nat, data: seq<u8>, t: nat) {
    var ns := DataBlocks(|data|);
    && ns <= MAXFILE && base + Held(ns) <= 0x1_0000_0000
    && Wrote(val, born, BSIZE * DataAt(base, ns), data, t)
    && (ns > NDIRECT ==>
         && Wrote(val, born, BSIZE * base, PtrWords(base, ns), t)
         && Stale(val, born, was, BSIZE * base + 4 * (ns - NDIRECT), BSIZE * base + BSIZE))
  }

  /** The iteration before which entry `k` is written, of `argc`. */
  function EntryTime(k: nat, argc: nat): nat { if k < 2 then 2 else if k < argc then k + 1 else argc }

  /** All that mkfs has written, and what the stray stores have left of it. */
  ghost predicate Finished(disk: seq<u8>, val: seq<u8>, born: seq<nat>, was: seq<u8>, size: nat, names: seq<seq<u8>>,
        files: seq<seq<u8>>) {
    && |disk| == BSIZE * size && |names| == |files| && NameFields(names) && Fits(size, files)
    && Tracks(disk, val, born, Argc(files), BSIZE * Start(size))
    && (forall m :: 0 <= m < |files| ==> FilePlaced(val, born, was, Base(size, files, m), files[m], m + 3))
    && (forall k :: 0 <= k < |files| + 3 ==>
         Wrote(val, born, BSIZE * Start(size) + DIRENT * k, Entry(names, k), EntryTime(k, Argc(files))))
  }

  // The exact condition

  /** Of the bytes `b`, written at `at`, the stores from iteration `from` on hit only zeros. */
  ghost predicate Unharmed(b: seq<u8>, at: nat, from: nat, to: nat) {
    forall x :: 0 <= x < |b| && Struck(at + x, from, to) ==> b[x] == 0
  }

  /** What the old image had there was zero, or has been hit. */
  ghost predicate Cleared(was: seq<u8>, lo: nat, hi: nat, to: nat)
    requires hi <= |was|
  {
    forall p :: lo <= p < hi && !Struck(p, 2, to) ==> was[p] == 0
  }

  /** No stray store changes a byte of file `m` after it was copied. */
  ghost predicate DataKept(size: nat, files: seq<seq<u8>>, m: nat)
    requires m < |files|
  {
    var at := BSIZE * DataAt(Base(size, files, m), DataBlocks(|files[m]|));
    Unharmed(files[m], at, m + 3, Argc(files))
  }

  /** Nor a byte of the block numbers in its indirect block. */
  ghost predicate WordsKept(size: nat, files: seq<seq<u8>>, m: nat)
    requires m < |files| && DataBlocks(|files[m]|) <= MAXFILE
      && Base(size, files, m) + Held(DataBlocks(|files[m]|)) <= 0x1_0000_0000
  {
    var base := Base(size, files, m);
    Unharmed(PtrWords(base, DataBlocks(|files[m]|)), BSIZE * base, m + 3, Argc(files))
  }

  /** The rest of its indirect block was zero before, or has been hit. */
  ghost predicate RestClear(was: seq<u8>, size: nat, files: seq<seq<u8>>, m: nat)
    requires m < |files| && |was| == BSIZE * size
  {
    var base, ns := Base(size, files, m), DataBlocks(|files[m]|);
    ns > NDIRECT ==> base < size && Cleared(was, BSIZE * base + 4 * (ns - NDIRECT), BSIZE * base + BSIZE, Argc(files))
  }

  /** Nor a byte of the inode number or the name of root entry `k`. */
  ghost predicate EntryKept(size: nat, names: seq<seq<u8>>, argc: nat, k: nat)
    requires k < |names| + 3 <= 0x1_0000_0000
  {
    var at, e := BSIZE * Start(size) + DIRENT * k, Entry(names, k);
    Unharmed(e[..4 + |Key(Field(names, k))|], at, EntryTime(k, argc), argc)
  }

  /** What the old image and the files have to be like for the new image to be good. */
  ghost predicate Unspoiled(was: seq<u8>, size: nat, names: seq<seq<u8>>, files: seq<seq<u8>>)
    requires |was| == BSIZE * size && |names| == |files| && Fits(size, files) && AllShort(files, |files|)
  {
    && (forall m :: 0 <= m < |files| ==> FileKept(was, size, files, m))
    && (forall k :: 0 <= k < |files| + 3 ==> EntryKept(size, names, Argc(files), k))
  }

  ghost predicate FileKept(was: seq<u8>, size: nat, files: seq<seq<u8>>, m: nat)
    requires |was| == BSIZE * size && Fits(size, files) && AllShort(files, |files|) && m < |files|
  {
    FileFits(size, files, m);
    DataKept(size, files, m) && WordsKept(size, files, m) && RestClear(was, size, files, m)
  }

  lemma FileFits(size: nat, files: seq<seq<u8>>, m: nat)
    requires Fits(size, files) && AllShort(files, |files|) && m < |files|
    ensures DataBlocks(|files[m]|) <= MAXFILE && Base(size, files,
      m) + Held(DataBlocks(|files[m]|)) <= size <= 0x1_0000_0000
    ensures Start(size) <= Base(size, files, m)
  {
    FileRoom(size, files, m + 2);
    assert PlanBlocks(files, m + 2) == DataBlocks(|files[m]|);
  }

  // The image as a file system

  function BlocksOf(disk: seq<u8>, size: nat): (b: seq<seq<u8>>)
    requires |disk| == BSIZE * size
    ensures |b| == size && forall k :: 0 <= k < size ==> |b[k]| == BSIZE
  {
    seq(size, k requires 0 <= k < size => disk[BSIZE * k..BSIZE * k + BSIZE])
  }

  /** The inodes and the bitmap are as planned; the blocks are what the disk has. */
  ghost predicate IsImage(fs: Fs, disk: seq<u8>, size: nat, files: seq<seq<u8>>) {
    && |disk| == BSIZE * size && fs.blocks == BlocksOf(disk, size) && Fits(size, files) && AllShort(files, |files|)
    && |fs.dis| == size / 100 && (forall i :: 0 <= i < |fs.dis| ==> fs.dis[i] == PlanInode(size, files, i))
    && |fs.bits| == size && (forall b :: 0 <= b < size ==> fs.bits[b] == (b < Base(size, files, |files|)))
  }

  lemma ImageForm(fs: Fs, disk: seq<u8>, size: nat, files: seq<seq<u8>>)
    requires IsImage(fs, disk, size, files)
    ensures WellFormed(fs) && Start(size) <= size && Start(size) > 0
  {
    TotalMonotone(files, 0, |files|);
  }

  /** What inode `i` holds in its own slots. */
  lemma DirectSlot(fs: Fs, disk: seq<u8>, size: nat, files: seq<seq<u8>>, i: nat, t: nat)
    requires IsImage(fs, disk, size, files) && i < |fs.dis| && t <= NDIRECT && WellFormed(fs)
    ensures Ptr(fs, i, t) == Slot(PlanBase(size, files, i), PlanBlocks(files, i), t)
  {
    hide PlanMeta, PlanBase, PlanBlocks, Slot, Fits, AllShort, Base;
    assert fs.dis[i] == PlanInode(size, files, i);
  }

  function Little(b0: u8, b1: u8, b2: u8, b3: u8): u32 {
    b0 as int + 0x100 * b1 as int + 0x1_0000 * b2 as int + 0x100_0000 * b3 as int
  }

  /** A word of the indirect block of file `m`. */
  lemma IndirectSlot(fs: Fs, disk: seq<u8>, size: nat, files: seq<seq<u8>>, m: nat, w: nat)
    requires IsImage(fs, disk, size, files) && m < |files| && w < NINDIRECT && WellFormed(fs) && m + 2 < |fs.dis|
    ensures var base, ns := Base(size, files, m), DataBlocks(|files[m]|);
      if ns <= NDIRECT then Ptr(fs, m + 2, NDIRECT + 1 + w) == 0
      else
        var p := BSIZE * base + 4 * w;
        && 0 < base < size && p + 3 < |disk| && Ptr(fs, m + 2, NDIRECT + 1 + w) == Little(disk[p], disk[p + 1],
          disk[p + 2], disk[p + 3])
  {
    var base, ns := Base(size, files, m), DataBlocks(|files[m]|);
    DirectSlot(fs, disk, size, files, m + 2, NDIRECT);
    FileFits(size, files, m);
    ImageForm(fs, disk, size, files);
    hide PlanInode, Base, DataBlocks, Fits, Start;
    if ns > NDIRECT {
      assert fs.blocks[base] == disk[BSIZE * base..BSIZE * base + BSIZE];
    }
  }

  /** A block number of which a stray store has hit the upper half. */
  lemma HitWord(v: u32, c: seq<u8>, p: nat, from: nat, to: nat)
    requires |c| == 4 && p % 4 == 0 && forall y :: 0 <= y < 4 ==> c[y] == Hit(InumBytes(v)[y], p + y, from, to)
    ensures var n := Little(c[0], c[1], c[2], c[3]);
      && (n == v || (n == v % 0x1_0000 && v >= 0x1_0000))
      && (n == v <==> Unharmed(InumBytes(v), p, from, to))
  {
    StruckUpper(p, from, to);
    WordOf(v);
    hide Struck;
    assert c[0] == v % 0x100 && c[1] == v / 0x100 % 0x100;
    assert v % 0x1_0000 == v % 0x100 + 0x100 * (v / 0x100 % 0x100);
    assert v / 0x1_0000 % 0x100 == InumBytes(v)[2] && v / 0x100_0000 == InumBytes(v)[3];
    if Struck(p + 2, from, to) {
      assert c[2] == 0 && c[3] == 0;
    }
  }

  /** Stray stores hit the third and fourth byte of a word, both or neither. */
  lemma StruckUpper(p: nat, from: nat, to: nat)
    requires p % 4 == 0
    ensures !Struck(p, from, to) && !Struck(p + 1, from, to) && (Struck(p + 2, from, to) <==> Struck(p + 3, from, to))
  {
    forall i: nat ensures StrayAt(i) % 4 == 2 {
      StrayPlace(i);
    }
    hide StrayAt;
    if Struck(p + 2, from, to) {
      var i: nat :| from <= i < to && (p + 2 == StrayAt(i) || p + 2 == StrayAt(i) + 1);
      assert p + 3 == StrayAt(i) + 1;
    }
    if Struck(p + 3, from, to) {
      var i: nat :| from <= i < to && (p + 3 == StrayAt(i) || p + 3 == StrayAt(i) + 1);
      assert p + 2 == StrayAt(i);
    }
  }

  lemma WordRead(disk: seq<u8>, val: seq<u8>, born: seq<nat>, now: nat, lo: nat, at: nat, first: nat, n: nat, t: nat,
        w: nat)
    requires Tracks(disk, val, born, now, lo) && first + n <= 0x1_0000_0000
      && Wrote(val, born, at, PtrBytes(first, n), t)
    requires lo <= at && at % 4 == 0 && w < n
    ensures var p, v := at + 4 * w, first + w;
      && p + 3 < |disk|
      && var x := Little(disk[p], disk[p + 1], disk[p + 2], disk[p + 3]);
      && (x == v || (x == v % 0x1_0000 && v >= 0x1_0000))
      && (x == v <==> Unharmed(InumBytes(v), p, t, now))
  {
    hide Struck, PtrBytes, InumBytes, Tracks, Unharmed, Little, Wrote, Hit;
    var p, v := at + 4 * w, first + w;
    Lengths(disk, val, born, now, lo);
    Inside(val, born, at, first, n, t);
    var c := [disk[p], disk[p + 1], disk[p + 2], disk[p + 3]];
    forall y | 0 <= y < 4 ensures c[y] == Hit(InumBytes(v)[y], p + y, t, now) {
      PtrByteAt(first, n, w, y);
      WroteRead(disk, val, born, now, lo, at, PtrBytes(first, n), t, 4 * w + y);
    }
    HitWord(v, c, p, t, now);
  }

  lemma PtrByteAt(first: nat, n: nat, w: nat, y: nat)
    requires w < n && first + n <= 0x1_0000_0000 && y < 4
    ensures PtrBytes(first, n)[4 * w + y] == InumBytes(first + w)[y]
  {
    PtrBytesAt(first, n, w);
    assert PtrBytes(first, n)[4 * w + y] == PtrBytes(first, n)[4 * w..4 * w + 4][y];
  }

  lemma Inside(val: seq<u8>, born: seq<nat>, at: nat, first: nat, n: nat, t: nat)
    requires first + n <= 0x1_0000_0000 && Wrote(val, born, at, PtrBytes(first, n), t)
    ensures at + 4 * n <= |val|
  {
  }

  lemma Lengths(disk: seq<u8>, val: seq<u8>, born: seq<nat>, now: nat, lo: nat)
    requires Tracks(disk, val, born, now, lo)
    ensures |disk| == |val| == |born|
  {
  }

  lemma RestRead(disk: seq<u8>, val: seq<u8>, born: seq<nat>, was: seq<u8>, now: nat, lo: nat, from: nat, to: nat,
        p: nat)
    requires Tracks(disk, val, born, now, lo) && Stale(val, born, was, from, to) && lo <= from <= p && p + 4 <= to
    ensures p + 3 < |disk| == |was|
    ensures Little(disk[p], disk[p + 1], disk[p + 2], disk[p + 3]) == 0 <==> Cleared(was, p, p + 4, now)
  {
    hide Struck, Tracks, Stale, Little, Hit, Cleared;
    Lengths(disk, val, born, now, lo);
    StaleLengths(val, born, was, from, to);
    forall q | p <= q < p + 4 ensures disk[q] == Hit(was[q], q, 2, now) {
      StaleRead(disk, val, born, was, now, lo, from, to, q);
    }
    RestZero(disk, was, p, now);
  }

  lemma StaleLengths(val: seq<u8>, born: seq<nat>, was: seq<u8>, lo: nat, hi: nat)
    requires Stale(val, born, was, lo, hi)
    ensures hi <= |val| == |born| == |was|
  {
  }

  lemma RestZero(disk: seq<u8>, was: seq<u8>, p: nat, now: nat)
    requires p + 4 <= |disk| == |was| && forall q :: p <= q < p + 4 ==> disk[q] == Hit(was[q], q, 2, now)
    ensures Little(disk[p], disk[p + 1], disk[p + 2], disk[p + 3]) == 0 <==> Cleared(was, p, p + 4, now)
  {
    hide Struck, Little;
    LittleZero(disk[p], disk[p + 1], disk[p + 2], disk[p + 3]);
    if disk[p] == 0 && disk[p + 1] == 0 && disk[p + 2] == 0 && disk[p + 3] == 0 {
      forall q | p <= q < p + 4 && !Struck(q, 2, now) ensures was[q] == 0 {
        assert q == p || q == p + 1 || q == p + 2 || q == p + 3;
      }
    }
  }

  lemma LittleZero(b0: u8, b1: u8, b2: u8, b3: u8)
    ensures Little(b0, b1, b2, b3) == 0 <==> b0 == 0 && b1 == 0 && b2 == 0 && b3 == 0
  {
  }

  lemma BlockAligned(b: nat)
    ensures BSIZE * b % 4 == 0 && BSIZE * b % 64 == 0
  {
  }

  /** A word of an indirect block that was written. */
  lemma WordCases(fs: Fs, disk: seq<u8>, val: seq<u8>, born: seq<nat>, was: seq<u8>, size: nat, names: seq<seq<u8>>,
        files: seq<seq<u8>>,
                  m: nat, w: nat)
    requires IsImage(fs, disk, size, files) && Finished(disk, val, born, was, size, names, files) && WellFormed(fs)
    requires m < |files| && m + 2 < |fs.dis| && DataBlocks(|files[m]|) > NDIRECT && w < DataBlocks(|files[m]|) - NDIRECT
    ensures w < NINDIRECT
    ensures var base, ns := Base(size, files, m), DataBlocks(|files[m]|);
      var n, v := Ptr(fs, m + 2, NDIRECT + 1 + w), Slot(base, ns, NDIRECT + 1 + w);
      && 0 < v < 0x1_0000_0000 && (n == v || (n == v % 0x1_0000 && v >= 0x1_0000))
      && (n == v <==> Unharmed(InumBytes(v), BSIZE * base + 4 * w, m + 3, Argc(files)))
  {
    hide PlanInode, Base, DataBlocks, Fits, Start, Struck, PtrBytes, IsImage, InumBytes, Tracks, Finished, Wrote,
         Stale, Ptr, Little, Unharmed;
    FinishedFile(fs, disk, val, born, was, size, names, files, m);
    var base, ns := Base(size, files, m), DataBlocks(|files[m]|);
    IndirectSlot(fs, disk, size, files, m, w);
    var at, first := BSIZE * base, base + 1 + NDIRECT;
    assert at % 4 == 0 by { BlockAligned(base); }
    assert first + (ns - NDIRECT) <= 0x1_0000_0000;
    WordRead(disk, val, born, Argc(files), BSIZE * Start(size), at, first, ns - NDIRECT, m + 3, w);
  }

  /** And one that was not. */
  lemma RestCases(fs: Fs, disk: seq<u8>, val: seq<u8>, born: seq<nat>, was: seq<u8>, size: nat, names: seq<seq<u8>>,
        files: seq<seq<u8>>,
                  m: nat, w: nat)
    requires IsImage(fs, disk, size, files) && Finished(disk, val, born, was, size, names, files) && WellFormed(fs)
      && |was| == BSIZE * size
    requires m < |files| && m + 2 < |fs.dis| && w < NINDIRECT && DataBlocks(|files[m]|) > NDIRECT
      && w >= DataBlocks(|files[m]|) - NDIRECT
    ensures var at := BSIZE * Base(size, files, m) + 4 * w;
      at + 4 <= |was| && (Ptr(fs, m + 2, NDIRECT + 1 + w) == 0 <==> Cleared(was, at, at + 4, Argc(files)))
  {
    hide PlanInode, Base, DataBlocks, Fits, Start, Struck, PtrBytes, IsImage, Tracks, Finished, Wrote, Stale, Ptr,
         Little, Cleared;
    FinishedFile(fs, disk, val, born, was, size, names, files, m);
    var base, ns := Base(size, files, m), DataBlocks(|files[m]|);
    IndirectSlot(fs, disk, size, files, m, w);
    RestRead(disk, val, born, was, Argc(files), BSIZE * Start(size), BSIZE * base + 4 * (ns - NDIRECT),
      BSIZE * base + BSIZE, BSIZE * base + 4 * w);
  }

  lemma InodeThere(fs: Fs, disk: seq<u8>, size: nat, files: seq<seq<u8>>, m: nat)
    requires IsImage(fs, disk, size, files) && m < |files|
    ensures m + 2 < |fs.dis| && Fits(size, files) && AllShort(files, |files|) && size <= 0x1_0000_0000
  {
    hide Base;
  }

  /** The parts of a finished image for file `m`. */
  lemma FinishedFile(fs: Fs, disk: seq<u8>, val: seq<u8>, born: seq<nat>, was: seq<u8>, size: nat, names: seq<seq<u8>>,
        files: seq<seq<u8>>, m: nat)
    requires IsImage(fs, disk, size, files) && Finished(disk, val, born, was, size, names, files) && m < |files|
    ensures var base, ns := Base(size, files, m), DataBlocks(|files[m]|);
      && ns <= MAXFILE && 0 < Start(size) <= base && base + Held(ns) <= size <= 0x1_0000_0000
      && Wrote(val, born, BSIZE * DataAt(base, ns), files[m], m + 3)
      && (ns > NDIRECT ==>
           && Wrote(val, born, BSIZE * base, PtrBytes(base + 1 + NDIRECT, ns - NDIRECT), m + 3)
           && Stale(val, born, was, BSIZE * base + 4 * (ns - NDIRECT), BSIZE * base + BSIZE))
    ensures Tracks(disk, val, born, Argc(files), BSIZE * Start(size)) && m + 2 < |fs.dis|
  {
    hide Tracks, Wrote, Stale, Base, Start, DataBlocks, Fits, AllShort, PlanInode, Entry, NameFields, PtrBytes, Held;
    FileFits(size, files, m);
    ImageForm(fs, disk, size, files);
    InodeThere(fs, disk, size, files, m);
    assert FilePlaced(val, born, was, Base(size, files, m), files[m], m + 3);
  }

  // Pointers, taken together

  ghost predicate SlotRight(fs: Fs, size: nat, files: seq<seq<u8>>, m: nat, t: nat)
    requires WellFormed(fs) && m < |files| && m + 2 < |fs.dis| && t < NSLOTS
  {
    Ptr(fs, m + 2, t) == Slot(Base(size, files, m), DataBlocks(|files[m]|), t)
  }

  /** The word for slot `t` of a file laid out from `base` on is not hit in its nonzero bytes. */
  ghost predicate WordKept(base: nat, t: nat, from: nat, to: nat)
    requires NDIRECT < t && base + t < 0x1_0000_0000
  {
    Unharmed(InumBytes(base + t), BSIZE * base + 4 * (t - NDIRECT - 1), from, to)
  }

  /** The word for slot `t` in block `b` was zero, or has been hit. */
  ghost predicate WordClear(was: seq<u8>, b: nat, t: nat, to: nat)
    requires NDIRECT < t < NSLOTS && BSIZE * b + BSIZE <= |was|
  {
    Cleared(was, BSIZE * b + 4 * (t - NDIRECT - 1), BSIZE * b + 4 * (t - NDIRECT), to)
  }

  lemma WordsBySlot(base: nat, ns: nat, from: nat, to: nat)
    requires ns <= MAXFILE && base + Held(ns) <= 0x1_0000_0000
    ensures Unharmed(PtrWords(base, ns), BSIZE * base, from, to) <==>
      forall t: nat :: NDIRECT < t <= ns ==> WordKept(base, t, from, to)
  {
    hide Struck, InumBytes, PtrBytes;
    var first, n, at := base + 1 + NDIRECT, ns - NDIRECT, BSIZE * base;
    if Unharmed(PtrWords(base, ns), at, from, to) {
      forall t: nat | NDIRECT < t <= ns ensures WordKept(base, t, from, to) {
        OneWord(base, ns, t, from, to);
      }
    }
    if forall t: nat :: NDIRECT < t <= ns ==> WordKept(base, t, from, to) {
      forall x | 0 <= x < |PtrWords(base, ns)| && Struck(at + x, from, to) ensures PtrWords(base, ns)[x] == 0 {
        PtrByteAt(first, n, x / 4, x % 4);
        assert WordKept(base, x / 4 + NDIRECT + 1, from, to);
        assert at + 4 * (x / 4) + x % 4 == at + x;
      }
    }
  }

  lemma OneWord(base: nat, ns: nat, t: nat, from: nat, to: nat)
    requires NDIRECT < t <= ns <= MAXFILE && base + Held(ns) <= 0x1_0000_0000
      && Unharmed(PtrWords(base, ns), BSIZE * base, from, to)
    ensures WordKept(base, t, from, to)
  {
    hide Struck, InumBytes, PtrBytes;
    var w, b := t - NDIRECT - 1, InumBytes(base + t);
    forall y | 0 <= y < |b| && Struck(BSIZE * base + 4 * w + y, from, to) ensures b[y] == 0 {
      PtrByteAt(base + 1 + NDIRECT, ns - NDIRECT, w, y);
      assert BSIZE * base + 4 * w + y == BSIZE * base + (4 * w + y);
    }
  }

  lemma RestBySlot(was: seq<u8>, b: nat, ns: nat, to: nat)
    requires NDIRECT < ns <= MAXFILE && BSIZE * b + BSIZE <= |was|
    ensures Cleared(was, BSIZE * b + 4 * (ns - NDIRECT), BSIZE * b + BSIZE, to) <==>
      forall t: nat :: ns < t < NSLOTS ==> WordClear(was, b, t, to)
  {
    hide Struck;
    if forall t: nat :: ns < t < NSLOTS ==> WordClear(was, b, t, to) {
      forall p | BSIZE * b + 4 * (ns - NDIRECT) <= p < BSIZE * b + BSIZE && !Struck(p, 2, to) ensures was[p] == 0 {
        var t: nat := (p - BSIZE * b) / 4 + NDIRECT + 1;
        assert WordClear(was, b, t, to);
      }
    }
  }

  /** What has to hold for slot `t` of file `m` to be right. */
  ghost predicate SlotKept(was: seq<u8>, size: nat, files: seq<seq<u8>>, m: nat, t: nat)
    requires m < |files| && t < NSLOTS && |was| == BSIZE * size
    requires DataBlocks(|files[m]|) <= MAXFILE && Base(size, files,
      m) + Held(DataBlocks(|files[m]|)) <= size <= 0x1_0000_0000
  {
    var base, ns := Base(size, files, m), DataBlocks(|files[m]|);
    t <= NDIRECT || ns <= NDIRECT
    || (if t <= ns then WordKept(base, t, m + 3, Argc(files))
      else BSIZE * base + BSIZE <= |was| && WordClear(was, base, t, Argc(files)))
  }

  lemma SlotExactly(fs: Fs, disk: seq<u8>, val: seq<u8>, born: seq<nat>, was: seq<u8>, size: nat, names: seq<seq<u8>>,
        files: seq<seq<u8>>,
                    m: nat, t: nat)
    requires IsImage(fs, disk, size, files) && Finished(disk, val, born, was, size, names, files) && WellFormed(fs)
      && |was| == BSIZE * size
    requires m < |files| && m + 2 < |fs.dis| && t < NSLOTS
    ensures DataBlocks(|files[m]|) <= MAXFILE && Base(size, files,
      m) + Held(DataBlocks(|files[m]|)) <= size <= 0x1_0000_0000
    ensures SlotRight(fs, size, files, m, t) <==> SlotKept(was, size, files, m, t)
  {
    hide PlanInode, Base, DataBlocks, Fits, Start, Struck, PtrBytes, IsImage, InumBytes, Tracks, Finished, Wrote,
         Stale, Ptr, Little, Unharmed, Cleared;
    FinishedFile(fs, disk, val, born, was, size, names, files, m);
    var base, ns := Base(size, files, m), DataBlocks(|files[m]|);
    PlanIs(size, files, m);
    hide PlanBlocks, PlanBase;
    if t <= NDIRECT {
      DirectSlot(fs, disk, size, files, m + 2, t);
    } else {
      var w := t - NDIRECT - 1;
      if ns <= NDIRECT {
        IndirectSlot(fs, disk, size, files, m, w);
      } else if t <= ns {
        WordCases(fs, disk, val, born, was, size, names, files, m, w);
      } else {
        RestCases(fs, disk, val, born, was, size, names, files, m, w);
        BlockInside(base, size);
      }
    }
  }

  /** The pointers of file `m` are right exactly when its words are kept and the rest of the block is clear. */
  lemma SlotsExactly(fs: Fs, disk: seq<u8>, val: seq<u8>, born: seq<nat>, was: seq<u8>, size: nat, names: seq<seq<u8>>,
        files: seq<seq<u8>>, m: nat)
    requires IsImage(fs, disk, size, files) && Finished(disk, val, born, was, size, names, files) && WellFormed(fs)
      && |was| == BSIZE * size
    requires m < |files| && m + 2 < |fs.dis|
    ensures DataBlocks(|files[m]|) <= MAXFILE && Base(size, files,
      m) + Held(DataBlocks(|files[m]|)) <= size <= 0x1_0000_0000
    ensures (forall t: nat :: t < NSLOTS ==> SlotRight(fs, size, files, m, t)) <==>
      WordsKept(size, files, m) && RestClear(was, size, files, m)
  {
    hide PlanInode, Base, DataBlocks, Fits, Start, IsImage, Finished, Wrote, Stale, Unharmed, Cleared, SlotRight,
         WordKept, WordClear, PtrWords, PtrBytes;
    FinishedFile(fs, disk, val, born, was, size, names, files, m);
    var base, ns := Base(size, files, m), DataBlocks(|files[m]|);
    forall t: nat | t < NSLOTS ensures SlotRight(fs, size, files, m, t) <==> SlotKept(was, size, files, m, t) {
      SlotExactly(fs, disk, val, born, was, size, names, files, m, t);
    }
    BlockInside(base, size);
    WordsBySlot(base, ns, m + 3, Argc(files));
    if ns > NDIRECT { RestBySlot(was, base, ns, Argc(files)); }
    KeptBySlot(was, size, files, m, m + 3);
  }

  lemma KeptBySlot(was: seq<u8>, size: nat, files: seq<seq<u8>>, m: nat, from: nat)
    requires m < |files| && |was| == BSIZE * size && from == m + 3
    requires DataBlocks(|files[m]|) <= MAXFILE && Base(size, files,
      m) + Held(DataBlocks(|files[m]|)) <= size <= 0x1_0000_0000
    ensures var base, ns := Base(size, files, m), DataBlocks(|files[m]|);
      ns > NDIRECT ==> BSIZE * base + BSIZE <= |was|
    ensures var base, ns := Base(size, files, m), DataBlocks(|files[m]|);
      (forall t: nat :: t < NSLOTS ==> SlotKept(was, size, files, m, t)) <==>
        (ns > NDIRECT ==>
          (forall t: nat :: NDIRECT < t <= ns ==> WordKept(base, t, from, Argc(files))) &&
          (forall t: nat :: ns < t < NSLOTS ==> WordClear(was, base, t, Argc(files))))
  {
    hide WordKept, WordClear, Base, DataBlocks;
    var base, ns := Base(size, files, m), DataBlocks(|files[m]|);
    BlockInside(base, size);
    if forall t: nat :: t < NSLOTS ==> SlotKept(was, size, files, m, t) {
      forall t: nat | NDIRECT < t < NSLOTS && ns > NDIRECT
        ensures if t <= ns then WordKept(base, t, from, Argc(files)) else WordClear(was, base, t, Argc(files))
      {
        assert SlotKept(was, size, files, m, t);
      }
    }
    if ns > NDIRECT && (forall t: nat :: NDIRECT < t <= ns ==> WordKept(base, t, from, Argc(files)))
       && (forall t: nat :: ns < t < NSLOTS ==> WordClear(was, base, t, Argc(files))) {
      forall t: nat | t < NSLOTS ensures SlotKept(was, size, files, m, t) {}
    }
  }

  lemma BlockInside(b: nat, size: nat)
    ensures b < size ==> BSIZE * b + BSIZE <= BSIZE * size
  {
  }

  lemma PlanIs(size: nat, files: seq<seq<u8>>, m: nat)
    requires m < |files|
    ensures PlanBase(size, files, m + 2) == Base(size, files, m) && PlanBlocks(files, m + 2) == DataBlocks(|files[m]|)
  {
  }
}
