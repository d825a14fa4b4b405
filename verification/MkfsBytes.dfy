/** The bytes that `tool/mkfs.c` writes, the stray ones among them. */
module MkfsBytes {
  import opened Words
  import opened BlockMap
  import opened MkfsPlan

  // Data blocks are not cleared first, and in the loop over the files `inodes[i].minor = 0` is stored through a
  // pointer that has been moved on already: for the files from the eighth on it lands twice as far from the
  // first inode as it should.

  /** Where the store of iteration `i` lands. */
  function StrayAt(i: nat): nat { BSIZE * ISTART + i / 8 * BSIZE + i * 64 + 6 }

  /** Byte `p` is hit in one of the iterations `from` to `to`. */
  ghost predicate Struck(p: nat, from: nat, to: nat) {
    exists i: nat :: from <= i < to && (p == StrayAt(i) || p == StrayAt(i) + 1)
  }

  /** What is left of a byte written just before iteration `from`. */
  ghost function Hit(v: u8, p: nat, from: nat, to: nat): u8 {
    if Struck(p, from, to) then 0 else v
  }

  lemma StruckNext(p: nat, from: nat, to: nat)
    requires from <= to
    ensures Struck(p, from, to + 1) <==> Struck(p, from, to) || p == StrayAt(to) || p == StrayAt(to) + 1
  {
    hide StrayAt;
    if p == StrayAt(to) || p == StrayAt(to) + 1 {
      assert Struck(p, from, to + 1);
    }
    if Struck(p, from, to) {
      var i: nat :| from <= i < to && (p == StrayAt(i) || p == StrayAt(i) + 1);
      assert from <= i < to + 1;
    }
  }

  /** The image is `val`, but for the stores that have hit bytes after they were `born`; below `lo` it is metadata. */
  ghost predicate Tracks(disk: seq<u8>, val: seq<u8>, born: seq<nat>, now: nat, lo: nat) {
    && |disk| == |val| == |born|
    && forall p :: lo <= p < |disk| ==> born[p] <= now && disk[p] == Hit(val[p], p, born[p], now)
  }

  function Times(n: nat, t: nat): (s: seq<nat>)
    ensures |s| == n && forall k :: 0 <= k < n ==> s[k] == t
  {
    seq(n, _ => t)
  }

  function Over<T>(s: seq<T>, at: nat, t: seq<T>): (r: seq<T>)
    requires at + |t| <= |s|
    ensures |r| == |s| && forall p :: 0 <= p < |s| ==> r[p] == if at <= p < at + |t| then t[p - at] else s[p]
  {
    s[..at] + t + s[at + |t|..]
  }

  method Put(disk: array<u8>, at: nat, bytes: seq<u8>)
    requires at + |bytes| <= disk.Length
    modifies disk
    ensures disk[..] == Over(old(disk[..]), at, bytes)
  {
    var k := 0;
    while k < |bytes|
      invariant k <= |bytes|
      invariant forall p :: 0 <= p < disk.Length ==> disk[p] == if at <= p < at + k then bytes[p - at] else old(disk[p])
    {
      disk[at + k] := bytes[k];
      k := k + 1;
    }
  }

  lemma PutTracks(disk: seq<u8>, val: seq<u8>, born: seq<nat>, now: nat, lo: nat, at: nat, bytes: seq<u8>)
    requires Tracks(disk, val, born, now, lo) && at + |bytes| <= |disk|
    ensures Tracks(Over(disk, at, bytes), Over(val, at, bytes), Over(born, at, Times(|bytes|, now)), now, lo)
  {
    hide Struck;
    forall p ensures !Struck(p, now, now) { NoTime(p, now); }
  }

  lemma NoTime(p: nat, now: nat)
    ensures !Struck(p, now, now)
  {
  }

  lemma StrayTracks(disk: seq<u8>, disk': seq<u8>, val: seq<u8>, born: seq<nat>, now: nat, lo: nat)
    requires Tracks(disk, val, born, now, lo) && |disk'| == |disk| && lo % 64 == 0
    requires if StrayAt(now) >= lo then StrayAt(now) + 1 < |disk|
      && disk' == disk[StrayAt(now) := 0][StrayAt(now) + 1 := 0] else disk' == disk
    ensures Tracks(disk', val, born, now + 1, lo)
  {
    StrayPlace(now);
    hide Struck, StrayAt;
    forall p | lo <= p < |disk| ensures disk'[p] == Hit(val[p], p, born[p], now + 1) {
      StruckNext(p, born[p], now);
    }
  }

  lemma StrayPlace(i: nat)
    ensures StrayAt(i) % 64 == 6
  {
  }

  /** It stays inside the image. */
  lemma StrayInside(size: nat, files: seq<seq<u8>>, i: nat)
    requires Fits(size, files) && i < |files| + 2
    ensures StrayAt(i) + 1 < BSIZE * size
  {
    TotalMonotone(files, 0, |files|);
    assert RootBlocks(files) >= 1;
    var q := size / 100;
    assert size >= ISTART + (q * 64 + 511) / 512 + (size + 4095) / 4096 + 1;
    assert i + 1 < q && 100 * q <= size;
    assert (q * 64 + 511) / 512 >= q / 8;
    if q >= 21 {
      assert ISTART + 2 * (i / 8) < size;
    } else {
      assert i <= 18 && i / 8 <= 2;
      assert size >= 2050;
      assert q >= 20;
      assert (q * 64 + 511) / 512 >= 3;
    }
    assert ISTART + 2 * (i / 8) < size;
    assert i * 64 == i / 8 * 512 + i % 8 * 64;
  }

  // What is where

  /** `bytes` were written at `at` before iteration `t`. */
  ghost predicate Wrote(val: seq<u8>, born: seq<nat>, at: nat, bytes: seq<u8>, t: nat) {
    at + |bytes| <= |val| == |born| && forall x :: 0 <= x < |bytes| ==> val[at + x] == bytes[x] && born[at + x] == t
  }

  /** The bytes from `lo` to `hi` are those of the old image. */
  ghost predicate Stale(val: seq<u8>, born: seq<nat>, was: seq<u8>, lo: nat, hi: nat) {
    lo <= hi <= |val| == |born| == |was| && forall p :: lo <= p < hi ==> val[p] == was[p] && born[p] == 2
  }

  lemma WroteKept(val: seq<u8>, born: seq<nat>, at: nat, bytes: seq<u8>, t: nat, at': nat, bytes': seq<u8>, t': nat)
    requires Wrote(val, born, at, bytes, t) && at' + |bytes'| <= |val| && (at + |bytes| <= at' || at' + |bytes'| <= at)
    ensures Wrote(Over(val, at', bytes'), Over(born, at', Times(|bytes'|, t')), at, bytes, t)
  {
  }

  lemma StaleKept(val: seq<u8>, born: seq<nat>, was: seq<u8>, lo: nat, hi: nat, at: nat, bytes: seq<u8>, t: nat)
    requires Stale(val, born, was, lo, hi) && at + |bytes| <= |val| && (hi <= at || at + |bytes| <= lo)
    ensures Stale(Over(val, at, bytes), Over(born, at, Times(|bytes|, t)), was, lo, hi)
  {
  }

  lemma WroteNow(val: seq<u8>, born: seq<nat>, at: nat, bytes: seq<u8>, t: nat)
    requires at + |bytes| <= |val| == |born|
    ensures Wrote(Over(val, at, bytes), Over(born, at, Times(|bytes|, t)), at, bytes, t)
  {
  }

  /** A byte that was written: what the finished image has there. */
  lemma WroteRead(disk: seq<u8>, val: seq<u8>, born: seq<nat>, now: nat, lo: nat, at: nat, bytes: seq<u8>, t: nat,
        x: nat)
    requires Tracks(disk, val, born, now, lo) && Wrote(val, born, at, bytes, t) && lo <= at && x < |bytes|
    ensures disk[at + x] == Hit(bytes[x], at + x, t, now)
  {
  }

  lemma StaleRead(disk: seq<u8>, val: seq<u8>, born: seq<nat>, was: seq<u8>, now: nat, lo: nat, from: nat, to: nat,
        p: nat)
    requires Tracks(disk, val, born, now, lo) && Stale(val, born, was, from, to) && lo <= from <= p < to
    ensures disk[p] == Hit(was[p], p, 2, now)
  {
  }
}
