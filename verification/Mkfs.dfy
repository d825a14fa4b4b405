/**
 Making a file system image (`tool/mkfs.c`) over an old one: the root directory, the files one after the other
 with the stray store of each, the terminal and the bitmap. The image is good exactly when neither what the old
 one had in the indirect blocks nor a stray store harms what is read back; MakeFs says so, and the lemmas after
 it give old images and lists of files for which it is, or is not, so.
 */
module Mkfs {
  import opened Words
  import opened BlockMap
  import opened FileData
  import opened InodeMap
  import opened ReadWrite
  import opened MkfsLayout
  import opened MkfsPlan
  import opened MkfsBytes
  import opened MkfsImage
  import opened MkfsSound
  import opened Directory
  import opened DirOps
  import opened Links
  import opened Inode

  // One file

  /** From block `b` on the image is old. */
  ghost predicate OldFrom(val: seq<u8>, born: seq<nat>, was: seq<u8>, b: nat) {
    BSIZE * b <= |was| && Stale(val, born, was, BSIZE * b, |was|)
  }

  /** The bytes before block `b` are as they were. */
  ghost predicate SameBefore(val: seq<u8>, born: seq<nat>, val': seq<u8>, born': seq<nat>, b: nat) {
    |val'| == |val| == |born| == |born'| && BSIZE * b <= |val| && val'[..BSIZE * b] == val[..BSIZE * b]
      && born'[..BSIZE * b] == born[..BSIZE * b]
  }

  /** The state of a file in the middle of its placing: `j` of its `ns` blocks have their addresses. */
  ghost predicate Placing(val: seq<u8>, born: seq<nat>, was: seq<u8>, base: nat, data: seq<u8>, t: nat, ns: nat,
        j: nat) {
    && j <= ns <= MAXFILE && base + Held(ns) <= 0x1_0000_0000 && OldFrom(val, born, was, base + Held(ns))
    && Wrote(val, born, BSIZE * DataAt(base, ns), data, t)
    && (ns > NDIRECT ==>
         var n := if j > NDIRECT then j - NDIRECT else 0;
         && Wrote(val, born, BSIZE * base, PtrBytes(base + 1 + NDIRECT, n), t)
         && Stale(val, born, was, BSIZE * base + 4 * n, BSIZE * base + BSIZE))
  }

  /** A word more. */
  lemma PlaceWord(val: seq<u8>, born: seq<nat>, was: seq<u8>, base: nat, data: seq<u8>, t: nat, ns: nat, j: nat)
    requires Placing(val, born, was, base, data, t, ns, j) && NDIRECT <= j < ns && |data| <= BSIZE * ns
      && |val| == |was|
    ensures var at, b := BSIZE * base + 4 * (j - NDIRECT), InumBytes(base + 1 + j);
      at + 4 <= |val| && Placing(Over(val, at, b), Over(born, at, Times(4, t)), was, base, data, t, ns, j + 1)
  {
    hide InumBytes, Wrote, Stale, PtrBytes;
    var n := j - NDIRECT;
    var at, b, words := BSIZE * base + 4 * n, InumBytes(base + 1 + j), PtrBytes(base + 1 + NDIRECT, n);
    WordRoom(val, born, was, BSIZE * base + 4 * n, BSIZE * base + BSIZE);
    OneMore(base + 1 + NDIRECT, n);
    Longer(val, born, BSIZE * base, words, b, t);
    WroteKept(val, born, BSIZE * DataAt(base, ns), data, t, at, b, t);
    Shorter(val, born, was, at, BSIZE * base + BSIZE, b, t);
    StaleKept(val, born, was, BSIZE * (base + Held(ns)), |was|, at, b, t);
  }

  lemma OneMore(first: nat, n: nat)
    requires first + n < 0x1_0000_0000
    ensures PtrBytes(first, n + 1) == PtrBytes(first, n) + InumBytes(first + n)
  {
  }

  lemma WordRoom(val: seq<u8>, born: seq<nat>, was: seq<u8>, lo: nat, hi: nat)
    requires Stale(val, born, was, lo, hi)
    ensures hi <= |val| == |born| == |was|
  {
  }

  lemma Longer(val: seq<u8>, born: seq<nat>, at: nat, a: seq<u8>, b: seq<u8>, t: nat)
    requires Wrote(val, born, at, a, t) && at + |a| + |b| <= |val|
    ensures Wrote(Over(val, at + |a|, b), Over(born, at + |a|, Times(|b|, t)), at, a + b, t)
  {
  }

  lemma Shorter(val: seq<u8>, born: seq<nat>, was: seq<u8>, lo: nat, hi: nat, b: seq<u8>, t: nat)
    requires Stale(val, born, was, lo, hi) && lo + |b| <= hi
    ensures Stale(Over(val, lo, b), Over(born, lo, Times(|b|, t)), was, lo + |b|, hi)
  {
  }

  lemma PlaceStart(val: seq<u8>, born: seq<nat>, was: seq<u8>, base: nat, data: seq<u8>, t: nat)
    requires DataBlocks(|data|) <= MAXFILE && base + Held(DataBlocks(|data|)) <= 0x1_0000_0000
      && |val| == |born| == |was|
    requires OldFrom(val, born, was, base) && BSIZE * (base + Held(DataBlocks(|data|))) <= |was|
    ensures var ns := DataBlocks(|data|); var at := BSIZE * DataAt(base, ns);
      at + |data| <= |val| && |data| <= BSIZE * ns && Placing(Over(val, at, data), Over(born, at, Times(|data|, t)),
        was, base, data, t, ns, 0)
  {
    var ns := DataBlocks(|data|);
    var at := BSIZE * DataAt(base, ns);
    DataLength(|data|);
    WroteNow(val, born, at, data, t);
    StaleKept(val, born, was, BSIZE * (base + Held(ns)), |was|, at, data, t);
    if ns > NDIRECT {
      assert PtrBytes(base + 1 + NDIRECT, 0) == [];
      StaleKept(val, born, was, BSIZE * base, BSIZE * base + BSIZE, at, data, t);
    }
  }

  lemma DataLength(n: nat)
    ensures n <= BSIZE * DataBlocks(n)
  {
  }

  lemma PlaceEnd(val: seq<u8>, born: seq<nat>, was: seq<u8>, base: nat, data: seq<u8>, t: nat)
    requires Placing(val, born, was, base, data, t, DataBlocks(|data|), DataBlocks(|data|))
    ensures FilePlaced(val, born, was, base, data, t) && OldFrom(val, born, was, base + Held(DataBlocks(|data|)))
  {
    hide Wrote, Stale, PtrBytes, DataBlocks;
  }

  lemma OverBefore(val: seq<u8>, born: seq<nat>, val1: seq<u8>, born1: seq<nat>, b: nat, at: nat, bytes: seq<u8>,
        t: nat)
    requires SameBefore(val, born, val1, born1, b) && BSIZE * b <= at && at + |bytes| <= |val1|
    ensures SameBefore(val, born, Over(val1, at, bytes), Over(born1, at, Times(|bytes|, t)), b)
  {
  }

  /** The blocks of file `data`, inode `i`, from `start + sect0` on: data first, then their addresses one by one. */
  method AddFile(disk: array<u8>, dinodes: array<Dinode>, i: nat, data: seq<u8>, start: nat, sect0: nat,
                 ghost val0: seq<u8>, ghost born0: seq<nat>, ghost was: seq<u8>)
    returns (sect: nat, ghost val: seq<u8>, ghost born: seq<nat>)
    requires i < dinodes.Length && dinodes[i] == Blank() && DataBlocks(|data|) <= MAXFILE
    requires Tracks(disk[..], val0, born0, i + 1, BSIZE * start) && OldFrom(val0, born0, was, start + sect0)
      && |was| == |val0|
    requires BSIZE * (start + sect0 + Held(DataBlocks(|data|))) <= |was|
      && start + sect0 + Held(DataBlocks(|data|)) <= 0x1_0000_0000
    modifies disk, dinodes
    ensures sect == sect0 + Held(DataBlocks(|data|))
    ensures dinodes[..] == old(dinodes[..])[i := Dinode(T_FILE, 1, 0, 0, |data|,
      Addrs(start + sect0, DataBlocks(|data|)))]
    ensures Tracks(disk[..], val, born, i + 1, BSIZE * start) && |val| == |val0|
      && SameBefore(val0, born0, val, born, start + sect0)
    ensures FilePlaced(val, born, was, start + sect0, data, i + 1) && OldFrom(val, born, was, start + sect)
  {
    hide Tracks, OldFrom, Placing, SameBefore, FilePlaced, DataBlocks, PtrBytes, InumBytes, Over, Times;
    TracksLengths(disk[..], val0, born0, i + 1, BSIZE * start);
    var ns := DataBlocks(|data|);
    ghost var base, was0 := start + sect0, dinodes[..];
    var d := dinodes[i].(kind := T_FILE, major := 0, minor := 0, nlink := 1, size := |data|);
    sect, val, born := sect0, val0, born0;
    SameStart(val, born, was, base);
    if ns > NDIRECT {
      d := d.(addrs := d.addrs[NDIRECT := start + sect]);
      sect := sect + 1;
    }
    PlaceStart(val, born, was, base, data, i + 1);
    PutTracks(disk[..], val, born, i + 1, BSIZE * start, BSIZE * (start + sect), data);
    OverBefore(val0, born0, val, born, base, BSIZE * (start + sect), data, i + 1);
    Put(disk, BSIZE * (start + sect), data);
    val, born := Over(val, BSIZE * (start + sect), data), Over(born, BSIZE * (start + sect), Times(|data|, i + 1));
    var j := 0;
    while j < ns
      invariant j <= ns && sect == sect0 + (if ns > NDIRECT then 1 else 0) + j && dinodes[..] == was0
      invariant Tracks(disk[..], val, born, i + 1, BSIZE * start) && disk.Length == |val| == |born| == |was|
      invariant Placing(val, born, was, base, data, i + 1, ns, j) && SameBefore(val0, born0, val, born, base)
      invariant d == Dinode(T_FILE, 1, 0, 0, |data|, d.addrs) && |d.addrs| == NDIRECT + 1
      invariant forall s :: 0 <= s <= NDIRECT ==> d.addrs[s] == if Has(s, ns, j) then Slot(base, ns, s) else 0
    {
      if j < NDIRECT {
        d := d.(addrs := d.addrs[j := start + sect]);
        PlaceDirect(val, born, was, base, data, i + 1, ns, j);
      } else {
        ghost var at, b := BSIZE * base + 4 * (j - NDIRECT), InumBytes(base + 1 + j);
        PlaceWord(val, born, was, base, data, i + 1, ns, j);
        PutTracks(disk[..], val, born, i + 1, BSIZE * start, at, b);
        OverBefore(val0, born0, val, born, base, at, b, i + 1);
        assert d.addrs[NDIRECT] == base && start + sect == base + 1 + j;
        ghost var d0 := disk[..];
        Put(disk, BSIZE * d.addrs[NDIRECT] + 4 * (j - NDIRECT), InumBytes(start + sect));
        assert disk[..] == Over(d0, at, b);
        val, born := Over(val, at, b), Over(born, at, Times(|b|, i + 1));
      }
      sect, j := sect + 1, j + 1;
    }
    dinodes[i] := d;
    assert d.addrs == Addrs(base, ns);
    PlaceEnd(val, born, was, base, data, i + 1);
  }

  lemma TracksLengths(disk: seq<u8>, val: seq<u8>, born: seq<nat>, now: nat, lo: nat)
    requires Tracks(disk, val, born, now, lo)
    ensures |disk| == |val| == |born|
  {
  }

  lemma SameStart(val: seq<u8>, born: seq<nat>, was: seq<u8>, b: nat)
    requires OldFrom(val, born, was, b)
    ensures SameBefore(val, born, val, born, b)
  {
  }

  lemma PlaceDirect(val: seq<u8>, born: seq<nat>, was: seq<u8>, base: nat, data: seq<u8>, t: nat, ns: nat, j: nat)
    requires Placing(val, born, was, base, data, t, ns, j) && j < ns && j < NDIRECT
    ensures Placing(val, born, was, base, data, t, ns, j + 1)
  {
    hide Wrote, Stale, PtrBytes;
  }

  // The loop over the files

  /** The first `n` inodes are done. */
  ghost predicate InodesDone(dis: seq<Dinode>, size: nat, files: seq<seq<u8>>, n: nat) {
    |dis| == size / 100 && forall i :: 0 <= i < |dis| ==> dis[i] == if i < n then PlanInode(size, files, i) else Blank()
  }

  ghost predicate EntriesDone(val: seq<u8>, born: seq<nat>, size: nat, names: seq<seq<u8>>, files: seq<seq<u8>>, n: nat)
    requires n <= |names| + 3 <= 0x1_0000_0000
  {
    forall k :: 0 <= k < n ==>
      Wrote(val, born, BSIZE * Start(size) + DIRENT * k, Entry(names, k), EntryTime(k, Argc(files)))
  }

  ghost predicate FilesDone(val: seq<u8>, born: seq<nat>, was: seq<u8>, size: nat, files: seq<seq<u8>>, m: nat)
    requires m <= |files|
  {
    forall p :: 0 <= p < m ==> FilePlaced(val, born, was, Base(size, files, p), files[p], p + 3)
  }

  /** The image after `m` files, the first `n` entries and `now - 2` stray stores. */
  ghost predicate Going(disk: seq<u8>, val: seq<u8>, born: seq<nat>, was: seq<u8>, size: nat, names: seq<seq<u8>>,
        files: seq<seq<u8>>,
                        m: nat, n: nat, now: nat) {
    && |disk| == |was| == BSIZE * size && |names| == |files| && NameFields(names) && Fits(size, files)
    && m <= |files| && n <= |files| + 3 && |names| + 3 <= 0x1_0000_0000
    && Tracks(disk, val, born, now, BSIZE * Start(size)) && OldFrom(val, born, was, Base(size, files, m))
    && FilesDone(val, born, was, size, files, m) && EntriesDone(val, born, size, names, files, n)
  }

  lemma WroteBefore(val: seq<u8>, born: seq<nat>, val': seq<u8>, born': seq<nat>, b: nat, at: nat, bytes: seq<u8>,
        t: nat)
    requires SameBefore(val, born, val', born', b) && Wrote(val, born, at, bytes, t) && at + |bytes| <= BSIZE * b
    ensures Wrote(val', born', at, bytes, t)
  {
    forall x | 0 <= x < |bytes| ensures val'[at + x] == bytes[x] && born'[at + x] == t {
      assert val'[..BSIZE * b][at + x] == val[..BSIZE * b][at + x]
        && born'[..BSIZE * b][at + x] == born[..BSIZE * b][at + x];
    }
  }

  lemma StaleBefore(val: seq<u8>, born: seq<nat>, val': seq<u8>, born': seq<nat>, was: seq<u8>, b: nat, lo: nat,
        hi: nat)
    requires SameBefore(val, born, val', born', b) && Stale(val, born, was, lo, hi) && hi <= BSIZE * b
    ensures Stale(val', born', was, lo, hi)
  {
    forall p | lo <= p < hi ensures val'[p] == was[p] && born'[p] == 2 {
      assert val'[..BSIZE * b][p] == val[..BSIZE * b][p] && born'[..BSIZE * b][p] == born[..BSIZE * b][p];
    }
  }

  lemma PlacedBefore(val: seq<u8>, born: seq<nat>, val': seq<u8>, born': seq<nat>, was: seq<u8>, b: nat, base: nat,
        data: seq<u8>, t: nat)
    requires SameBefore(val, born, val', born', b) && FilePlaced(val, born, was, base, data, t)
      && base + Held(DataBlocks(|data|)) <= b
    ensures FilePlaced(val', born', was, base, data, t)
  {
    hide SameBefore, Wrote, Stale, PtrWords, DataBlocks;
    var ns := DataBlocks(|data|);
    DataLength(|data|);
    WroteBefore(val, born, val', born', b, BSIZE * DataAt(base, ns), data, t);
    if ns > NDIRECT {
      WroteBefore(val, born, val', born', b, BSIZE * base, PtrWords(base, ns), t);
      StaleBefore(val, born, val', born', was, b, BSIZE * base + 4 * (ns - NDIRECT), BSIZE * base + BSIZE);
    }
  }

  /** Where the files and the entries lie. */
  lemma Places(size: nat, names: seq<seq<u8>>, files: seq<seq<u8>>, m: nat)
    requires Fits(size, files) && m <= |files| == |names| && NameFields(names) && |names| + 3 <= 0x1_0000_0000
    ensures forall p :: 0 <= p < m ==> Base(size, files, p) + Held(DataBlocks(|files[p]|)) <= Base(size, files, m)
    ensures BSIZE * Start(size) + DIRENT * (|files| + 3) <= BSIZE * Base(size, files, m) <= BSIZE * size
    ensures forall k :: 0 <= k < |files| + 3 ==> |Entry(names, k)| <= DIRENT
  {
    forall p | 0 <= p < m ensures Base(size, files, p) + Held(DataBlocks(|files[p]|)) <= Base(size, files, m) {
      TotalMonotone(files, p + 1, m);
    }
    TotalMonotone(files, 0, m);
    TotalMonotone(files, m, |files|);
    DataLength(RootSize(files));
    forall k | 0 <= k < |files| + 3 ensures |Entry(names, k)| <= DIRENT {
      FieldEnds(names, k);
    }
  }

  lemma NextBase(size: nat, files: seq<seq<u8>>, m: nat)
    requires m < |files|
    ensures Base(size, files, m + 1) == Base(size, files, m) + Held(DataBlocks(|files[m]|))
  {
  }

  lemma FilesBefore(val: seq<u8>, born: seq<nat>, val': seq<u8>, born': seq<nat>, was: seq<u8>, size: nat,
        files: seq<seq<u8>>, m: nat)
    requires m <= |files| && FilesDone(val, born, was, size, files, m)
      && SameBefore(val, born, val', born', Base(size, files, m))
    requires forall p :: 0 <= p < m ==> Base(size, files, p) + Held(DataBlocks(|files[p]|)) <= Base(size, files, m)
    ensures FilesDone(val', born', was, size, files, m)
  {
    hide SameBefore, FilePlaced, Base, DataBlocks, Held;
    forall p | 0 <= p < m ensures FilePlaced(val', born', was, Base(size, files, p), files[p], p + 3) {
      PlacedBefore(val, born, val', born', was, Base(size, files, m), Base(size, files, p), files[p], p + 3);
    }
  }

  lemma OneFileMore(val: seq<u8>, born: seq<nat>, was: seq<u8>, size: nat, files: seq<seq<u8>>, m: nat, t: nat)
    requires m < |files| && FilesDone(val, born, was, size, files, m) && t == m + 3
    requires FilePlaced(val, born, was, Base(size, files, m), files[m], t)
    ensures FilesDone(val, born, was, size, files, m + 1)
  {
    hide FilePlaced, Base;
  }

  lemma EntriesBefore(val: seq<u8>, born: seq<nat>, val': seq<u8>, born': seq<nat>, size: nat, names: seq<seq<u8>>,
        files: seq<seq<u8>>, n: nat, b: nat)
    requires n <= |names| + 3 <= 0x1_0000_0000 && EntriesDone(val, born, size, names, files, n)
      && SameBefore(val, born, val', born', b)
    requires BSIZE * Start(size) + DIRENT * n <= BSIZE * b && forall k :: 0 <= k < n ==> |Entry(names, k)| <= DIRENT
    ensures EntriesDone(val', born', size, names, files, n)
  {
    hide SameBefore, Wrote, Entry, Start, EntryTime;
    forall k | 0 <= k < n
      ensures Wrote(val', born', BSIZE * Start(size) + DIRENT * k, Entry(names, k), EntryTime(k, Argc(files))) {
      WroteBefore(val, born, val', born', b, BSIZE * Start(size) + DIRENT * k, Entry(names, k),
        EntryTime(k, Argc(files)));
    }
  }

  lemma AfterFile(disk: seq<u8>, val: seq<u8>, born: seq<nat>, was: seq<u8>, size: nat, names: seq<seq<u8>>,
        files: seq<seq<u8>>, m: nat,
                  disk0: seq<u8>, val0: seq<u8>, born0: seq<nat>)
    requires Going(disk0, val0, born0, was, size, names, files, m, m + 2, m + 3) && m < |files| && |disk| == |disk0|
    requires Tracks(disk, val, born, m + 3, BSIZE * Start(size))
      && SameBefore(val0, born0, val, born, Base(size, files, m))
    requires FilePlaced(val, born, was, Base(size, files, m), files[m], m + 3)
    requires OldFrom(val, born, was, Base(size, files, m) + Held(DataBlocks(|files[m]|)))
    ensures Going(disk, val, born, was, size, names, files, m + 1, m + 2, m + 3)
  {
    hide Tracks, SameBefore, FilePlaced, Wrote, Stale, Entry, Base, Start, DataBlocks, OldFrom, Fits, NameFields,
         FilesDone, EntriesDone;
    Places(size, names, files, m);
    NextBase(size, files, m);
    FilesBefore(val0, born0, val, born, was, size, files, m);
    OneFileMore(val, born, was, size, files, m, m + 3);
    EntriesBefore(val0, born0, val, born, size, names, files, m + 2, Base(size, files, m));
  }

  /** Entry `n` is written. */
  lemma FilesAfter(val: seq<u8>, born: seq<nat>, was: seq<u8>, size: nat, files: seq<seq<u8>>, m: nat, at: nat,
        e: seq<u8>, now: nat)
    requires m <= |files| && FilesDone(val, born, was, size, files, m)
    requires at + |e| <= BSIZE * Base(size, files, 0) && at + |e| <= |val| == |born|
    ensures FilesDone(Over(val, at, e), Over(born, at, Times(|e|, now)), was, size, files, m)
  {
    hide FilePlaced, Base, Over, Times;
    forall p | 0 <= p < m
      ensures FilePlaced(Over(val, at, e), Over(born, at, Times(|e|, now)), was, Base(size, files, p), files[p],
        p + 3) {
      FirstBase(size, files, p);
      PlacedAfter(val, born, was, Base(size, files, p), files[p], p + 3, at, e, now);
    }
  }

  lemma EntriesAfter(val: seq<u8>, born: seq<nat>, size: nat, names: seq<seq<u8>>, files: seq<seq<u8>>, n: nat,
        now: nat)
    requires n < |names| + 3 <= 0x1_0000_0000 && EntriesDone(val, born, size, names, files, n)
      && now == EntryTime(n, Argc(files))
    requires forall k :: 0 <= k <= n ==> |Entry(names, k)| <= DIRENT
    requires BSIZE * Start(size) + DIRENT * n + |Entry(names, n)| <= |val| == |born|
    ensures var at, e := BSIZE * Start(size) + DIRENT * n, Entry(names, n);
      EntriesDone(Over(val, at, e), Over(born, at, Times(|e|, now)), size, names, files, n + 1)
  {
    hide Wrote, Entry, Start, Over, Times, EntryTime;
    var at, e := BSIZE * Start(size) + DIRENT * n, Entry(names, n);
    forall k | 0 <= k < n
      ensures Wrote(Over(val, at, e), Over(born, at, Times(|e|, now)), BSIZE * Start(size) + DIRENT * k,
        Entry(names, k), EntryTime(k, Argc(files)))
    {
      WroteKept(val, born, BSIZE * Start(size) + DIRENT * k, Entry(names, k), EntryTime(k, Argc(files)), at, e, now);
    }
    WroteNow(val, born, at, e, now);
  }

  lemma AfterEntry(disk: seq<u8>, val: seq<u8>, born: seq<nat>, was: seq<u8>, size: nat, names: seq<seq<u8>>,
        files: seq<seq<u8>>, m: nat, n: nat, now: nat)
    requires Going(disk, val, born, was, size, names, files, m, n, now) && n < |files| + 3
      && now == EntryTime(n, Argc(files))
    ensures var at, e := BSIZE * Start(size) + DIRENT * n, Entry(names, n);
      && at + |e| <= |disk| == |val| == |born|
      && Going(Over(disk, at, e), Over(val, at, e), Over(born, at, Times(|e|, now)), was, size, names, files, m, n + 1,
        now)
  {
    hide Tracks, FilePlaced, Wrote, Stale, Entry, Base, Start, DataBlocks, Fits, NameFields, Over, Times, FilesDone,
         EntriesDone, EntryTime;
    var at, e := BSIZE * Start(size) + DIRENT * n, Entry(names, n);
    Places(size, names, files, m);
    Places(size, names, files, 0);
    TracksLengths(disk, val, born, now, BSIZE * Start(size));
    PutTracks(disk, val, born, now, BSIZE * Start(size), at, e);
    StaleKept(val, born, was, BSIZE * Base(size, files, m), |was|, at, e, now);
    FilesAfter(val, born, was, size, files, m, at, e, now);
    EntriesAfter(val, born, size, names, files, n, now);
  }

  lemma FirstBase(size: nat, files: seq<seq<u8>>, p: nat)
    requires p <= |files|
    ensures Base(size, files, 0) <= Base(size, files, p)
  {
    TotalMonotone(files, 0, p);
  }

  lemma PlacedAfter(val: seq<u8>, born: seq<nat>, was: seq<u8>, base: nat, data: seq<u8>, t: nat, at: nat, e: seq<u8>,
        now: nat)
    requires FilePlaced(val, born, was, base, data, t) && at + |e| <= BSIZE * base && at + |e| <= |val| == |born|
    ensures FilePlaced(Over(val, at, e), Over(born, at, Times(|e|, now)), was, base, data, t)
  {
    hide Wrote, Stale, PtrWords, DataBlocks, Over, Times;
    var ns := DataBlocks(|data|);
    WroteKept(val, born, BSIZE * DataAt(base, ns), data, t, at, e, now);
    if ns > NDIRECT {
      WroteKept(val, born, BSIZE * base, PtrWords(base, ns), t, at, e, now);
      StaleKept(val, born, was, BSIZE * base + 4 * (ns - NDIRECT), BSIZE * base + BSIZE, at, e, now);
    }
  }

  /** The stray store of iteration `i`: into an inode that is still blank, the metadata's slack, or a data block. */
  method Stray(disk: array<u8>, dinodes: array<Dinode>, i: nat, start: nat)
    requires forall j :: 0 <= j < dinodes.Length ==> dinodes[j].minor == 0
    requires BSIZE * start >= BSIZE * ISTART + 64 * dinodes.Length
      && (StrayAt(i) >= BSIZE * start ==> StrayAt(i) + 1 < disk.Length)
    modifies disk, dinodes
    ensures dinodes[..] == old(dinodes[..])
    ensures if StrayAt(i) >= BSIZE * start then disk[..] == old(disk[..])[StrayAt(i) := 0][StrayAt(i) + 1 := 0]
      else disk[..] == old(disk[..])
  {
    var at := BSIZE * (ISTART + i / 8) + i * 64 + 6;
    var n := (at - BSIZE * ISTART) / 64;
    if n < dinodes.Length {
      dinodes[n] := dinodes[n].(minor := 0);
    } else if at >= BSIZE * start {
      disk[at] := 0;
      disk[at + 1] := 0;
    }
  }

  lemma AfterStray(disk: seq<u8>, disk': seq<u8>, val: seq<u8>, born: seq<nat>, was: seq<u8>, size: nat,
        names: seq<seq<u8>>, files: seq<seq<u8>>,
                   m: nat)
    requires Going(disk, val, born, was, size, names, files, m, m + 2, m + 2) && m < |files|
    requires if StrayAt(m + 2) >= BSIZE * Start(size) then StrayAt(m + 2) + 1 < |disk|
      && disk' == disk[StrayAt(m + 2) := 0][StrayAt(m + 2) + 1 := 0]
             else disk' == disk
    ensures Going(disk', val, born, was, size, names, files, m, m + 2, m + 3)
  {
    hide Tracks, FilesDone, EntriesDone, OldFrom, Fits, StrayAt, Base, Start, NameFields;
    Aligned(Start(size));
    StrayTracks(disk, disk', val, born, m + 2, BSIZE * Start(size));
  }

  lemma Aligned(b: nat)
    ensures BSIZE * b % 64 == 0
  {
  }

  /** The name of entry `n` goes into the root directory. */
  method PutEntry(disk: array<u8>, start: nat, names: seq<seq<u8>>, n: nat, ghost val0: seq<u8>, ghost born0: seq<nat>,
        ghost was: seq<u8>,
                  ghost size: nat, ghost files: seq<seq<u8>>, ghost m: nat, ghost now: nat)
    returns (ghost val: seq<u8>, ghost born: seq<nat>)
    requires Going(disk[..], val0, born0, was, size, names, files, m, n, now) && n < |files| + 3
      && now == EntryTime(n, Argc(files))
    requires start == Start(size) && |names| + 3 <= 0x1_0000_0000 && |names| == |files|
    modifies disk
    ensures Going(disk[..], val, born, was, size, names, files, m, n + 1, now)
  {
    hide Going, Entry, Over, Times, EntryTime;
    AfterEntry(disk[..], val0, born0, was, size, names, files, m, n, now);
    ghost var at, e := BSIZE * Start(size) + DIRENT * n, Entry(names, n);
    val, born := Over(val0, at, e), Over(born0, at, Times(|e|, now));
    Put(disk, BSIZE * start + DIRENT * n, Entry(names, n));
  }

  lemma GoingParts(disk: seq<u8>, val: seq<u8>, born: seq<nat>, was: seq<u8>, size: nat, names: seq<seq<u8>>,
        files: seq<seq<u8>>,
                   m: nat, n: nat, now: nat)
    requires Going(disk, val, born, was, size, names, files, m, n, now)
    ensures |disk| == |was| == |val| == |born| == BSIZE * size && |names| == |files| && Fits(size, files)
      && m <= |files| && |names| + 3 <= 0x1_0000_0000
    ensures Tracks(disk, val, born, now, BSIZE * Start(size)) && OldFrom(val, born, was, Base(size, files, m))
  {
    hide Base, Start, Fits, FilesDone, EntriesDone, NameFields, OldFrom;
  }

  /** There is room for file `m`. */
  lemma FileFitsNow(size: nat, files: seq<seq<u8>>, m: nat)
    requires m < |files| && Fits(size, files) && AllShort(files, m)
    ensures DataBlocks(|files[m]|) > MAXFILE <==> |files[m]| > MAXSIZE
    ensures Base(size, files, m) == Start(size) + (RootBlocks(files) + Total(files, m)) && m + 2 < size / 100
    ensures Total(files, m + 1) == Total(files, m) + Held(DataBlocks(|files[m]|))
    ensures BSIZE * (Base(size, files, m) + Held(DataBlocks(|files[m]|))) <= BSIZE * size
    ensures Base(size, files, m) + Held(DataBlocks(|files[m]|)) <= 0x1_0000_0000
  {
    TotalMonotone(files, m + 1, |files|);
  }

  lemma MinorsZero(dis: seq<Dinode>, size: nat, files: seq<seq<u8>>, n: nat)
    requires InodesDone(dis, size, files, n)
    ensures forall i :: 0 <= i < |dis| ==> dis[i].minor == 0
  {
    hide PlanBase, PlanBlocks;
  }

  lemma InodeNext(dis: seq<Dinode>, size: nat, files: seq<seq<u8>>, m: nat, d: Dinode)
    requires InodesDone(dis, size, files, m + 2) && m < |files| && m + 2 < |dis|
    requires d == Dinode(T_FILE, 1, 0, 0, |files[m]|, Addrs(Base(size, files, m), DataBlocks(|files[m]|)))
    ensures dis[m + 2] == Blank() && InodesDone(dis[m + 2 := d], size, files, m + 3)
  {
    hide Base, DataBlocks, Addrs;
  }

  lemma StrayRoom(size: nat, files: seq<seq<u8>>, m: nat)
    requires Fits(size, files) && m < |files|
    ensures BSIZE * Start(size) >= BSIZE * ISTART + 64 * (size / 100) && StrayAt(m + 2) + 1 < BSIZE * size
  {
    StrayInside(size, files, m + 2);
  }

  /** The files, from inode 2 on; it gives up at one that is too long. */
  method AddFiles(disk: array<u8>, dinodes: array<Dinode>, size: nat, names: seq<seq<u8>>, files: seq<seq<u8>>,
        start: nat, sect0: nat,
                  ghost was: seq<u8>, ghost val0: seq<u8>, ghost born0: seq<nat>)
    returns (ok: bool, sect: nat, ghost val: seq<u8>, ghost born: seq<nat>)
    requires Going(disk[..], val0, born0, was, size, names, files, 0, 2, 2) && InodesDone(dinodes[..], size, files, 2)
    requires start == Start(size) && sect0 == RootBlocks(files)
    modifies disk, dinodes
    ensures ok <==> AllShort(files, |files|)
    ensures ok ==>
      && Going(disk[..], val, born, was, size, names, files, |files|, |files| + 2, |files| + 2)
      && InodesDone(dinodes[..], size, files, |files| + 2) && sect == RootBlocks(files) + Total(files, |files|)
  {
    hide Going, InodesDone, Total, Base, Start, RootBlocks, DataBlocks, Held, Addrs, Tracks, OldFrom, FilePlaced,
         SameBefore, Fits, EntryTime, StrayAt;
    sect, val, born := sect0, val0, born0;
    NoneYet(files);
    GoingParts(disk[..], val, born, was, size, names, files, 0, 2, 2);
    var m := 0;
    while m < |files|
      invariant m <= |files| && AllShort(files, m) && sect == RootBlocks(files) + Total(files, m)
      invariant Going(disk[..], val, born, was, size, names, files, m, m + 2, m + 2)
        && InodesDone(dinodes[..], size, files, m + 2)
    {
      GoingParts(disk[..], val, born, was, size, names, files, m, m + 2, m + 2);
      InodeCount(dinodes[..], size, files, m + 2);
      FileFitsNow(size, files, m);
      StrayRoom(size, files, m);
      MinorsZero(dinodes[..], size, files, m + 2);
      ghost var d0 := disk[..];
      Stray(disk, dinodes, m + 2, start);
      AfterStray(d0, disk[..], val, born, was, size, names, files, m);
      if DataBlocks(|files[m]|) > MAXFILE { return false, sect, val, born; }
      GoingParts(disk[..], val, born, was, size, names, files, m, m + 2, m + 3);
      ghost var d1, val1, born1, dis1 := disk[..], val, born, dinodes[..];
      InodeNext(dinodes[..], size, files, m, Dinode(T_FILE, 1, 0, 0, |files[m]|,
        Addrs(Base(size, files, m), DataBlocks(|files[m]|))));
      sect, val, born := AddFile(disk, dinodes, m + 2, files[m], start, sect, val, born, was);
      AfterFile(disk[..], val, born, was, size, names, files, m, d1, val1, born1);
      EntryNow(files, m);
      val, born := PutEntry(disk, start, names, m + 2, val, born, was, size, files, m + 1, m + 3);
      m := m + 1;
    }
    ok := true;
  }

  lemma NoneYet(files: seq<seq<u8>>)
    ensures Total(files, 0) == 0
  {
  }

  lemma EntryNow(files: seq<seq<u8>>, m: nat)
    requires m < |files|
    ensures EntryTime(m + 2, Argc(files)) == m + 3
  {
  }

  lemma InodeCount(dis: seq<Dinode>, size: nat, files: seq<seq<u8>>, n: nat)
    requires InodesDone(dis, size, files, n)
    ensures |dis| == size / 100
  {
  }

  // The names of a new image

  /** No two names are the same. */
  ghost predicate AllDistinct(names: seq<seq<u8>>) {
    && (forall m :: 0 <= m < |names| ==> Key(names[m]) != DOT && Key(names[m]) != DOTDOT && Key(names[m]) != TTY)
    && (forall m, n :: 0 <= m < n < |names| ==> Key(names[m]) != Key(names[n]))
  }

  lemma {:induction false} RootCount(c: seq<u8>, n: nat, i: nat)
    requires n <= Slots(c) && i >= 2 && forall k :: 0 <= k < Slots(c) ==> Inum(c, k) == if k < 2 then 1 else k
    ensures Count(c, n, i) == if i < n then 1 else 0
  {
    hide Inum;
    if n > 0 { RootCount(c, n - 1, i); }
  }

  lemma {:induction false} OneDir(dirs: seq<seq<u8>>, d: nat, i: nat)
    requires d < |dirs| && forall j :: 0 <= j < |dirs| && j != d ==> dirs[j] == []
    ensures NameCount(dirs, i) == Uses(dirs[d], i)
    decreases |dirs|
  {
    var n := |dirs| - 1;
    if d == n {
      NoDirs(dirs[..n], i);
    } else {
      OneDir(dirs[..n], d, i);
    }
  }

  lemma {:induction false} NoDirs(dirs: seq<seq<u8>>, i: nat)
    requires forall j :: 0 <= j < |dirs| ==> dirs[j] == []
    ensures NameCount(dirs, i) == 0
    decreases |dirs|
  {
    if dirs != [] { NoDirs(dirs[..|dirs| - 1], i); }
  }

  lemma RootUses(c: seq<u8>, i: nat)
    requires i >= 2 && forall k :: 0 <= k < Slots(c) ==> Inum(c, k) == if k < 2 then 1 else k
    ensures Uses(c, i) <= 1
  {
    hide Inum;
    RootCount(c, Slots(c), i);
  }

  lemma RootLinked(table: seq<Incore>, dis: seq<Dinode>, c: seq<u8>)
    requires DirOk(c) && 2 <= Slots(c) <= |dis| && forall k ::
      0 <= k < Slots(c) ==> Inum(c, k) == if k < 2 then 1 else k
    requires forall j :: 1 <= j < Slots(c) ==> dis[j].kind != 0 && dis[j].nlink == 1
    ensures Linked(table, dis, c)
  {
    hide Inum, Name, DirOk, Names, Key, Slots;
    forall key | key in DirMap(c) ensures Stays(table, dis, DirMap(c)[key]) {
      NamesHas(c, Slots(c), key);
      var k :| 0 <= k < Slots(c) && Names1(c, k, key);
      assert DirMap(c)[key] == Inum(c, k);
    }
  }

  lemma EmptyDirOk(table: seq<Incore>, dis: seq<Dinode>)
    ensures DirOk([]) && Linked(table, dis, [])
  {
  }

  lemma FieldKeys(names: seq<seq<u8>>, k: nat)
    requires k < |names| + 3
    ensures Key(Field(names, k)) ==
      if k == 0 then DOT else if k == 1 then DOTDOT else if k < |names| + 2 then Key(names[k - 2]) else TTY
  {
    KeyStops(DOT, []);
    KeyStops(DOTDOT, []);
    KeyStops(TTY, []);
  }

  lemma {:induction false} KeyStops(s: seq<u8>, rest: seq<u8>)
    requires 0 !in s
    ensures Key(s + [0] + rest) == s
  {
    var f := s + [0] + rest;
    if s != [] {
      assert f[1..] == s[1..] + [0] + rest;
      KeyStops(s[1..], rest);
    }
  }

  /** A root directory that reads right is a directory. */
  lemma RootOk(c: seq<u8>, names: seq<seq<u8>>)
    requires AllDistinct(names) && |c| == DIRENT * (|names| + 3) && forall k ::
      0 <= k < |names| + 3 ==> EntryReads(c, names, k)
    ensures DirOk(c) && Slots(c) == |names| + 3 && forall k ::
      0 <= k < Slots(c) ==> Inum(c, k) == if k < 2 then 1 else k
  {
    hide Inum, Name, Key, Field;
    forall k | 0 <= k < |names| + 3 ensures Inum(c, k) == EntryInode(k) && Key(Name(c, k)) == Key(Field(names, k)) {
      assert EntryReads(c, names, k);
    }
    forall j, k | 0 <= j < k < |names| + 3 ensures Key(Name(c, j)) != Key(Name(c, k)) {
      FieldKeys(names, j);
      FieldKeys(names, k);
    }
  }

  /** One directory, the root, with the names of a new image. */
  lemma RootNames(table: seq<Incore>, dis: seq<Dinode>, dirs: seq<seq<u8>>, c: seq<u8>)
    requires |dirs| == |dis| > 1 && dirs[1] == c && DirOk(c) && 2 <= Slots(c) <= |dis| && forall j ::
      0 <= j < |dirs| && j != 1 ==> dirs[j] == []
    requires forall k :: 0 <= k < Slots(c) ==> Inum(c, k) == if k < 2 then 1 else k
    requires forall j :: 1 <= j < Slots(c) ==> dis[j].kind != 0 && dis[j].nlink == 1
    requires forall i :: 0 < i < |dis| && dis[i].kind != 0 ==> dis[i].nlink == 1
    requires dis[1].kind == T_DIR
    ensures NamesOk(table, dis, dirs)
  {
    hide Inum, DirOk, Names, Key, NameCount, Linked, Uses, Slots;
    assert Counted(dirs, dis) by {
      forall i | 0 < i < |dis| && dis[i].kind != 0 && dis[i].kind != T_DIR ensures NameCount(dirs, i) <= dis[i].nlink {
        OneDir(dirs, 1, i);
        RootUses(c, i);
      }
    }
    RootLinked(table, dis, c);
    EmptyDirOk(table, dis);
  }

  lemma RootLinks(f: FileSystem, names: seq<seq<u8>>, size: nat, files: seq<seq<u8>>)
    requires f.Valid() && AllDistinct(names) && |names| == |files| && RootReads(f.Disk(), names)
      && |names| + 3 <= f.dinodes.Length
    requires forall i :: 0 <= i < f.dinodes.Length ==> f.dinodes[i] == PlanInode(size, files, i)
    ensures LinksOk(f)
  {
    var c, dis, dirs := f.File(1), f.dinodes[..], Dirs(f);
    PlanKinds(size, files, dis);
    assert dirs[1] == c && |c| == DIRENT * (|names| + 3);
    assert forall j :: 0 <= j < |dirs| && j != 1 ==> dirs[j] == [];
    hide Inum, Name, DirOk, Names, AllDistinct, Key, NamesOk, PlanInode, FileSystem.Valid, EntryReads, Dirs;
    RootOk(c, names);
    RootNames(f.inodes[..], dis, dirs, c);
  }

  lemma PlanKinds(size: nat, files: seq<seq<u8>>, dis: seq<Dinode>)
    requires forall i :: 0 <= i < |dis| ==> dis[i] == PlanInode(size, files, i)
    ensures forall i ::
      0 <= i < |dis| ==>
        (dis[i].kind == T_DIR <==> i == 1) && (1 <= i < |files| + 3 ==> dis[i].kind != 0 && dis[i].nlink == 1)
    ensures forall i :: 0 < i < |dis| && dis[i].kind != 0 ==> dis[i].nlink == 1
  {
    hide PlanBase, PlanBlocks;
  }

  // The whole

  /** Inode 0 is taken; the root directory has its blocks. */
  method MakeRoot(dinodes: array<Dinode>, size: nat, files: seq<seq<u8>>, start: nat) returns (sect: nat)
    requires dinodes.Length == size / 100 >= 2 && start == Start(size) && RootBlocks(files) <= NDIRECT
    requires forall i :: 0 <= i < dinodes.Length ==> dinodes[i] == Blank()
    modifies dinodes
    ensures InodesDone(dinodes[..], size, files, 2) && sect == RootBlocks(files)
  {
    hide Start, DataBlocks;
    dinodes[0] := dinodes[0].(kind := UNUSED);
    var d := dinodes[1].(kind := T_DIR, nlink := 1, major := 0, minor := 0, size := DIRENT * (|files| + 3));
    sect := 0;
    while sect < DataBlocks(d.size)
      invariant sect <= RootBlocks(files) && d == Dinode(T_DIR, 1, 0, 0, RootSize(files), d.addrs)
        && |d.addrs| == NDIRECT + 1
      invariant forall s :: 0 <= s <= NDIRECT ==> d.addrs[s] == if s < sect then start + s else 0
    {
      d := d.(addrs := d.addrs[sect := start + sect]);
      sect := sect + 1;
    }
    dinodes[1] := d;
    assert d.addrs == Addrs(start, RootBlocks(files));
    assert Addrs(0, 0) == Blank().addrs;
  }

  /** The terminal's inode. */
  method MakeTty(dinodes: array<Dinode>, size: nat, files: seq<seq<u8>>)
    requires InodesDone(dinodes[..], size, files, |files| + 2) && |files| + 3 <= size / 100
    modifies dinodes
    ensures InodesDone(dinodes[..], size, files, size / 100)
  {
    InodeCount(dinodes[..], size, files, |files| + 2);
    assert Addrs(0, 0) == Blank().addrs;
    dinodes[|files| + 2] := dinodes[|files| + 2].(kind := T_DEV, nlink := 1, major := 1, minor := 0, size := 0);
  }

  /** A boot of the finished image: nothing in core yet. */
  method Mount(disk: array<u8>, dinodes: array<Dinode>, start: nat, sect: nat, size: nat, ghost names: seq<seq<u8>>,
        ghost files: seq<seq<u8>>)
    returns (f: FileSystem)
    requires disk.Length == BSIZE * size && InodesDone(dinodes[..], size, files, size / 100) && Fits(size, files)
      && AllShort(files, |files|)
    requires start == Start(size) && sect == RootBlocks(files) + Total(files, |files|) && |names| == |files|
    ensures fresh(f) && IsImage(f.Disk(), disk[..], size, files) && f.start == start && f.dinodes == dinodes
    ensures Sound(f.Disk(), start, names, files) ==> f.Valid() && (AllDistinct(names) ==> LinksOk(f))
  {
    hide Start, RootBlocks, Total, PlanInode, Fits, AllShort, Sound, FileSystem.Valid, LinksOk, AllDistinct;
    var image := disk[..];
    var blocks := new seq<u8>[size](b requires 0 <= b < size => image[BSIZE * b..BSIZE * b + BSIZE]);
    var bits := new bool[size](b => b < start + sect);
    var inodes := new Incore[NINODE](_ => Incore(0, 0, Blank()));
    ghost var own: Owners := map[];
    ghost var fs := Fs(dinodes[..], blocks[..], bits[..]);
    assert blocks[..] == BlocksOf(image, size);
    BaseIs(size, files);
    assert IsImage(fs, image, size, files);
    if Sound(fs, start, names, files) {
      own := SoundOwners(fs, start, names, files);
    }
    f := new FileSystem(bits, blocks, dinodes, inodes, start, own);
    assert f.Disk() == fs;
    if Sound(fs, start, names, files) {
      Mounted(f, fs, own, image, size, names, files);
    }
  }

  const NINODE := 64

  lemma SoundOwners(fs: Fs, start: nat, names: seq<seq<u8>>, files: seq<seq<u8>>) returns (own: Owners)
    requires Sound(fs, start, names, files)
    ensures Inv(fs, own, start)
  {
    hide Inv;
    own :| Inv(fs, own, start);
  }

  lemma Mounted(f: FileSystem, fs: Fs, own: Owners, disk: seq<u8>, size: nat, names: seq<seq<u8>>, files: seq<seq<u8>>)
    requires f.Disk() == fs && f.own == own && f.start == Start(size) && IsImage(fs, disk, size, files)
      && |names| == |files|
    requires Sound(fs, f.start, names, files) && Inv(fs, own, f.start) && forall j ::
      0 <= j < f.inodes.Length ==> f.inodes[j].ref == 0
    ensures f.Valid() && (AllDistinct(names) ==> LinksOk(f))
  {
    hide Inv, Dense, AllDistinct, LinksOk, FileReads, PlanInode, Base, BlocksOf;
    ImageForm(fs, disk, size, files);
    Shape3(fs, disk, size, files);
    assert f.Valid();
    if AllDistinct(names) { RootLinks(f, names, size, files); }
  }

  lemma Shape3(fs: Fs, disk: seq<u8>, size: nat, files: seq<seq<u8>>)
    requires IsImage(fs, disk, size, files)
    ensures |files| + 3 <= |fs.dis|
  {
  }

  /** The inodes: 0 is never used, then the root directory, the files and the terminal; the others are blank. */
  predicate MadeInodes(dis: seq<Dinode>, files: seq<seq<u8>>) {
    && |dis| >= |files| + 3 && dis[0].kind == 0xff
    && dis[1].kind == 1 && dis[1].nlink == 1 && dis[1].major == 0 && dis[1].minor == 0
    && dis[1].size == 20 * (|files| + 3)
    && (forall m :: 0 <= m < |files| ==>
         && dis[m + 2].kind == 2 && dis[m + 2].nlink == 1 && dis[m + 2].major == 0 && dis[m + 2].minor == 0
         && dis[m + 2].size == |files[m]|)
    && dis[|files| + 2].kind == 3 && dis[|files| + 2].nlink == 1
    && dis[|files| + 2].major == 1 && dis[|files| + 2].minor == 0 && dis[|files| + 2].size == 0
    && (forall i :: |files| + 3 <= i < |dis| ==> dis[i].kind == 0 && dis[i].nlink == 0 && dis[i].size == 0)
  }

  lemma InodesMade(dis: seq<Dinode>, size: nat, files: seq<seq<u8>>)
    requires InodesDone(dis, size, files, size / 100) && |files| + 3 <= size / 100
    ensures MadeInodes(dis, files)
  {
    hide PlanBase, PlanBlocks;
    forall i | 0 <= i < |dis| ensures dis[i] == PlanInode(size, files, i) {}
  }

  /** The names ".", "..", those of the files, from inode 2 on, and "tty", and no others. */
  ghost predicate RootMap(d: map<seq<u8>, u32>, names: seq<seq<u8>>) {
    && [46] in d && d[[46]] == 1 && [46, 46] in d && d[[46, 46]] == 1
    && [116, 116, 121] in d && d[[116, 116, 121]] == |names| + 2
    && (forall m :: 0 <= m < |names| ==> Key(names[m]) in d && d[Key(names[m])] == m + 2)
    && (forall key :: key in d ==> key == [46] || key == [46, 46] || key == [116, 116, 121]
                                   || exists m :: 0 <= m < |names| && key == Key(names[m]))
  }

  ghost predicate RootEntries(c: seq<u8>, names: seq<seq<u8>>) {
    && DirOk(c) && Slots(c) == |names| + 3
    && forall k :: 0 <= k < |names| + 3 ==> EntryReads(c, names, k)
  }

  /** Entry `k` of the root directory is in the map, */
  lemma RootHas(c: seq<u8>, names: seq<seq<u8>>, k: nat, key: seq<u8>)
    requires RootEntries(c, names) && k < |names| + 3 && key == Key(Field(names, k))
    ensures key in DirMap(c) && DirMap(c)[key] == if k < 2 then 1 else k
  {
    hide Inum, Name, Key, Field, DirOk, Names;
    assert EntryReads(c, names, k);
    NamesHas(c, Slots(c), key);
    assert Names1(c, k, key);
  }

  /** and nothing else is. */
  lemma RootOnly(c: seq<u8>, names: seq<seq<u8>>, key: seq<u8>) returns (k: nat)
    requires RootEntries(c, names) && key in DirMap(c)
    ensures k < |names| + 3 && key == Key(Field(names, k))
  {
    hide Inum, Name, Key, Field, DirOk, Names;
    NamesHas(c, Slots(c), key);
    k :| 0 <= k < Slots(c) && Names1(c, k, key);
    assert EntryReads(c, names, k);
  }

  lemma RootFixed(c: seq<u8>, names: seq<seq<u8>>)
    requires RootEntries(c, names)
    ensures DOT in DirMap(c) && DirMap(c)[DOT] == 1 && DOTDOT in DirMap(c) && DirMap(c)[DOTDOT] == 1
    ensures TTY in DirMap(c) && DirMap(c)[TTY] == |names| + 2
  {
    hide Key, Field, RootEntries, DirMap;
    FieldKeys(names, 0);
    FieldKeys(names, 1);
    FieldKeys(names, |names| + 2);
    RootHas(c, names, 0, DOT);
    RootHas(c, names, 1, DOTDOT);
    RootHas(c, names, |names| + 2, TTY);
  }

  lemma RootFiles(c: seq<u8>, names: seq<seq<u8>>, m: nat)
    requires RootEntries(c, names) && m < |names|
    ensures Key(names[m]) in DirMap(c) && DirMap(c)[Key(names[m])] == m + 2
  {
    hide Key, Field, RootEntries, DirMap;
    FieldKeys(names, m + 2);
    RootHas(c, names, m + 2, Key(names[m]));
  }

  lemma RootNoMore(c: seq<u8>, names: seq<seq<u8>>, key: seq<u8>)
    requires RootEntries(c, names) && key in DirMap(c)
    ensures key == DOT || key == DOTDOT || key == TTY || exists m :: 0 <= m < |names| && key == Key(names[m])
  {
    hide Key, Field, RootEntries, DirMap;
    var k := RootOnly(c, names, key);
    FieldKeys(names, k);
    if 2 <= k < |names| + 2 { assert key == Key(names[k - 2]); }
  }

  lemma RootHolds(c: seq<u8>, names: seq<seq<u8>>)
    requires AllDistinct(names) && |c| == DIRENT * (|names| + 3) && forall k ::
      0 <= k < |names| + 3 ==> EntryReads(c, names, k)
    ensures RootMap(DirMap(c), names)
  {
    RootOk(c, names);
    assert RootEntries(c, names);
    hide Key, RootEntries, AllDistinct, DirMap, EntryReads;
    RootFixed(c, names);
    forall m | 0 <= m < |names| ensures Key(names[m]) in DirMap(c) && DirMap(c)[Key(names[m])] == m + 2 {
      RootFiles(c, names, m);
    }
    forall key | key in DirMap(c)
      ensures key == DOT || key == DOTDOT || key == TTY || exists m :: 0 <= m < |names| && key == Key(names[m])
    {
      RootNoMore(c, names, key);
    }
  }

  /** What is read back from a good image. */
  lemma SoundGives(f: FileSystem, names: seq<seq<u8>>, files: seq<seq<u8>>)
    requires f.Valid() && Sound(f.Disk(), f.start, names, files) && |names| == |files|
    ensures |files| + 2 <= f.dinodes.Length && forall m :: 0 <= m < |files| ==> f.File(m + 2) == files[m]
    ensures AllDistinct(names) ==> RootMap(DirMap(f.File(1)), names)
  {
    hide AllDistinct, RootMap, EntryReads, FileSystem.Valid, Inv, Dense;
    forall m | 0 <= m < |files| ensures f.File(m + 2) == files[m] {
      assert FileReads(f.Disk(), files, m);
    }
    if AllDistinct(names) {
      RootHolds(f.File(1), names);
    }
  }

  /**
   An image over the old one `was`. It fails when a file is too long. Otherwise everything can be read back if and
   only if the old image was clear where it shows through and no stray store hits a byte that counts; then no
   block has two owners, the bitmap is exact, and the names are in order.
   */
  method MakeFs(was: seq<u8>, size: nat, names: seq<seq<u8>>, files: seq<seq<u8>>) returns (ok: bool, f: FileSystem?)
    requires |was| == BSIZE * size && |names| == |files| && NameFields(names) && Fits(size, files)
    ensures ok <==> AllShort(files, |files|)
    ensures ok ==> f != null && fresh(f) && f.start == Start(size) && f.dinodes.Length == size / 100
    ensures ok ==> (Sound(f.Disk(), Start(size), names, files) <==> Unspoiled(was, size, names, files))
    ensures ok && Unspoiled(was, size, names, files) ==> f.Valid() && (AllDistinct(names) ==> LinksOk(f))
    ensures ok ==>
      f.bits.Length == size && forall b :: 0 <= b < size ==> (f.bits[b] <==> b < Base(size, files, |files|))
    ensures ok ==> f.start == 2048 + (size / 100 * 64 + 511) / 512 + (size + 4095) / 4096
    ensures ok ==> MadeInodes(f.dinodes[..], files)
    ensures ok && Unspoiled(was, size, names, files) ==>
      && (forall m :: 0 <= m < |files| ==> f.File(m + 2) == files[m])
      && (AllDistinct(names) ==> RootMap(DirMap(f.File(1)), names))
  {
    hide Going, InodesDone, Total, Base, Start, RootBlocks, Tracks, OldFrom, Fits, AllShort, Sound, Unspoiled,
         Finished, LinksOk, FileSystem.Valid, AllDistinct, EntryTime, MadeInodes, RootMap;
    ghost var born := Times(|was|, 2);
    ghost var val := was;
    StartIs(size);
    StartGoing(was, born, size, names, files);
    var start := ISTART + (size / 100 * 64 + BSIZE - 1) / BSIZE + (size + 4095) / 4096;
    var disk := new u8[|was|](p requires 0 <= p < |was| => was[p]);
    assert disk[..] == was;
    var dinodes := new Dinode[size / 100](_ => Blank());
    var sect := MakeRoot(dinodes, size, files, start);
    val, born := PutEntry(disk, start, names, 0, val, born, was, size, files, 0, 2);
    val, born := PutEntry(disk, start, names, 1, val, born, was, size, files, 0, 2);
    ok, sect, val, born := AddFiles(disk, dinodes, size, names, files, start, sect, was, val, born);
    if !ok { return false, null; }
    MakeTty(dinodes, size, files);
    InodesMade(dinodes[..], size, files);
    LastTime(files);
    val, born := PutEntry(disk, start, names, |files| + 2, val, born, was, size, files, |files|, |files| + 2);
    f := Mount(disk, dinodes, start, sect, size, names, files);
    AllGone(disk[..], val, born, was, size, names, files);
    Exactly(f.Disk(), disk[..], val, born, was, size, names, files);
    MountedBits(f.Disk(), disk[..], size, files);
    if Unspoiled(was, size, names, files) { SoundGives(f, names, files); }
  }

  lemma MountedBits(fs: Fs, disk: seq<u8>, size: nat, files: seq<seq<u8>>)
    requires IsImage(fs, disk, size, files)
    ensures |fs.bits| == size && |fs.dis| == size / 100 && forall b ::
      0 <= b < size ==> (fs.bits[b] <==> b < Base(size, files, |files|))
  {
    hide PlanInode, Base, Fits;
  }

  lemma StartIs(size: nat)
    ensures Start(size) == ISTART + (size / 100 * 64 + BSIZE - 1) / BSIZE + (size + 4095) / 4096
  {
  }

  lemma StartGoing(was: seq<u8>, born: seq<nat>, size: nat, names: seq<seq<u8>>, files: seq<seq<u8>>)
    requires |was| == BSIZE * size && |names| == |files| && NameFields(names) && Fits(size, files)
      && born == Times(|was|, 2)
    ensures Going(was, was, born, was, size, names, files, 0, 0, 2) && size / 100 >= 2 && RootBlocks(files) <= NDIRECT
      && |files| + 3 <= size / 100
    ensures |names| + 3 <= 0x1_0000_0000 && EntryTime(0, Argc(files)) == 2 && EntryTime(1, Argc(files)) == 2
  {
    TotalMonotone(files, 0, |files|);
    hide Struck;
    forall p ensures !Struck(p, 2, 2) { NoTime(p, 2); }
  }

  lemma LastTime(files: seq<seq<u8>>)
    ensures EntryTime(|files| + 2, Argc(files)) == |files| + 2
  {
  }

  lemma AllGone(disk: seq<u8>, val: seq<u8>, born: seq<nat>, was: seq<u8>, size: nat, names: seq<seq<u8>>,
        files: seq<seq<u8>>)
    requires Going(disk, val, born, was, size, names, files, |files|, |files| + 3, |files| + 2)
    ensures Finished(disk, val, born, was, size, names, files)
  {
    hide Tracks, FilePlaced, Wrote, Base, Start, OldFrom, Fits, NameFields, Entry, EntryTime;
  }

  // When it holds, and when not

  lemma StrayGrows(i: nat, j: nat)
    requires i <= j
    ensures StrayAt(i) <= StrayAt(j)
  {
  }

  /** Over a zeroed image it holds as long as no stray store leaves the metadata. */
  lemma FewFilesFine(was: seq<u8>, size: nat, names: seq<seq<u8>>, files: seq<seq<u8>>)
    requires |was| == BSIZE * size && |names| == |files| && Fits(size, files) && AllShort(files, |files|)
    requires StrayAt(|files| + 1) + 1 < BSIZE * Start(size) && forall p ::
      BSIZE * Start(size) <= p < |was| ==> was[p] == 0
    ensures Unspoiled(was, size, names, files)
  {
    hide Fits, AllShort, Entry, PtrWords, DataBlocks, Start, StrayAt, Key, Field;
    forall p: nat, from: nat | p >= BSIZE * Start(size) ensures !Struck(p, from, Argc(files)) {
      if Struck(p, from, Argc(files)) {
        var i: nat :| from <= i < Argc(files) && (p == StrayAt(i) || p == StrayAt(i) + 1);
        StrayGrows(i, |files| + 1);
      }
    }
    forall m | 0 <= m < |files| ensures FileKept(was, size, files, m) {
      FileFits(size, files, m);
      hide Base;
    }
  }

  /** Over an image of other bytes it fails as soon as a file needs an indirect block that it does not fill. */
  lemma OldWordsSpoil(was: seq<u8>, size: nat, names: seq<seq<u8>>, files: seq<seq<u8>>)
    requires size == 5000 && |was| == BSIZE * size && forall p :: 0 <= p < |was| ==> was[p] == 0xff
    requires |names| == |files| == 1 && |files[0]| == 6657 && Fits(size, files) && AllShort(files, |files|)
    ensures !Unspoiled(was, size, names, files)
  {
    var base := Base(size, files, 0);
    assert DataBlocks(|files[0]|) == 14;
    assert base >= Start(size) == 2057;
    var p := BSIZE * base + 100;
    assert !Struck(p, 2, Argc(files));
    assert was[p] == 0xff;
    assert !RestClear(was, size, files, 0);
    assert Unspoiled(was, size, names, files) ==> FileKept(was, size, files, 0);
  }

  /** Forty-seven files of one block: the store for the last but one lands in the second. */
  lemma StraySpoilsFile(was: seq<u8>, size: nat, names: seq<seq<u8>>, files: seq<seq<u8>>)
    requires size == 5000 && |was| == BSIZE * size && |names| == |files| == 47 && Fits(size, files)
      && AllShort(files, |files|)
    requires (forall m :: 0 <= m < |files| ==> |files[m]| == BSIZE) && files[1][6] != 0
    ensures !Unspoiled(was, size, names, files)
  {
    assert Total(files, 0) == 0 && Total(files, 1) == Total(files, 0) + Held(DataBlocks(|files[0]|));
    assert Base(size, files, 1) == 2060 && DataBlocks(|files[1]|) == 1;
    assert StrayAt(48) == BSIZE * 2060 + 6;
    assert Struck(BSIZE * 2060 + 6, 4, Argc(files));
    assert !DataKept(size, files, 1);
    assert Unspoiled(was, size, names, files) ==> FileKept(was, size, files, 1);
  }

  /** Thirty-nine files: the store for the last lands in the root directory, in the fifteenth letter of a name. */
  lemma StraySpoilsName(was: seq<u8>, size: nat, names: seq<seq<u8>>, files: seq<seq<u8>>)
    requires size == 5000 && |was| == BSIZE * size && |names| == |files| == 39 && Fits(size, files)
      && AllShort(files, |files|)
    requires |names[23]| == NAMELEN && 0 !in names[23]
    ensures !Unspoiled(was, size, names, files)
  {
    assert Start(size) == 2057 && StrayAt(40) == BSIZE * 2058 + 6;
    var at, e := BSIZE * Start(size) + DIRENT * 25, Entry(names, 25);
    assert Struck(at + 18, EntryTime(25, Argc(files)), Argc(files));
    FullKey(names[23]);
    assert e[18] == names[23][14] != 0;
    assert e[..4 + |Key(Field(names, 25))|][18] == e[18];
    assert !EntryKept(size, names, Argc(files), 25);
  }

  lemma FullKey(name: seq<u8>)
    requires 0 !in name
    ensures |Key(name)| == |name|
  {
  }
}
