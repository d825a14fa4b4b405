/** Files as byte sequences over the block map of `fs/inode.c`. */
module FileData {
  import opened Words
  import opened BlockMap

  const MAXSIZE := 71680   // MAXFILE * BSIZE

  // How many blocks a size takes

  /** Blocks of data. */
  function DataBlocks(size: nat): nat { (size + BSIZE - 1) / BSIZE }

  /** Blocks in all: one more when there is an indirect block. */
  function Held(nb: nat): nat { if nb > NDIRECT then nb + 1 else nb }

  /** Inode `i` has its first `h` slots filled and no others. */
  ghost predicate HasSlots(fs: Fs, i: nat, h: nat)
    requires WellFormed(fs) && i < |fs.dis|
  {
    forall t :: 0 <= t < NSLOTS ==> (Ptr(fs, i, t) != 0 <==> t < h)
  }

  /** Every file holds exactly the blocks its size calls for; a free inode has none. */
  ghost predicate Dense(fs: Fs)
    requires WellFormed(fs)
  {
    forall i :: 0 <= i < |fs.dis| ==> SizedRight(fs, i)
  }

  ghost predicate SizedRight(fs: Fs, i: nat)
    requires WellFormed(fs) && i < |fs.dis|
  {
    && fs.dis[i].size <= MAXSIZE && HasSlots(fs, i, Held(DataBlocks(fs.dis[i].size)))
    && (fs.dis[i].kind == 0 ==> fs.dis[i].size == 0)
  }

  // Free blocks

  /** How many blocks are free. */
  function FreeCount(bits: seq<bool>): (n: nat)
    ensures n <= |bits|
  {
    if bits == [] then 0 else FreeCount(bits[..|bits| - 1]) + (if bits[|bits| - 1] then 0 else 1)
  }

  lemma {:induction false} FreeCountSet(bits: seq<bool>, b: nat, v: bool)
    requires b < |bits| && bits[b] != v
    ensures FreeCount(bits[b := v]) == FreeCount(bits) + (if v then -1 else 1)
  {
    var n := |bits| - 1;
    var set' := bits[b := v];
    if b == n {
      assert set'[..n] == bits[..n];
    } else {
      assert set'[..n] == bits[..n][b := v];
      FreeCountSet(bits[..n], b, v);
    }
  }

  lemma {:induction false} FreeCountZero(bits: seq<bool>)
    ensures FreeCount(bits) == 0 <==> forall b :: 0 <= b < |bits| ==> bits[b]
  {
    if bits != [] {
      var n := |bits| - 1;
      FreeCountZero(bits[..n]);
      assert forall b :: 0 <= b < n ==> bits[..n][b] == bits[b];
    }
  }

  // Bytes

  function Byte(fs: Fs, i: nat, k: nat): u8
    requires WellFormed(fs) && i < |fs.dis| && k < MAXSIZE
  {
    Data(fs, i, k / BSIZE)[k % BSIZE]
  }

  /** What inode `i` holds, as its readers see it. */
  function Content(fs: Fs, i: nat): (c: seq<u8>)
    requires WellFormed(fs) && i < |fs.dis| && fs.dis[i].size <= MAXSIZE
    ensures |c| == fs.dis[i].size
  {
    seq(fs.dis[i].size, k requires 0 <= k < fs.dis[i].size => Byte(fs, i, k))
  }

  /** `c` with `src` put in at `off`, longer when `src` reaches past the end. */
  function Splice(c: seq<u8>, off: nat, src: seq<u8>): (r: seq<u8>)
    requires off <= |c|
    ensures |r| == if off + |src| > |c| then off + |src| else |c|
  {
    c[..off] + src + (if off + |src| < |c| then c[off + |src|..] else [])
  }

  lemma SpliceAt(c: seq<u8>, off: nat, src: seq<u8>, k: nat)
    requires off <= |c| && k < |Splice(c, off, src)|
    ensures Splice(c, off, src)[k] == if off <= k < off + |src| then src[k - off] else c[k]
  {
  }

  lemma SameBytes(fs: Fs, fs': Fs, i: nat)
    requires WellFormed(fs) && WellFormed(fs') && i < |fs.dis| && i < |fs'.dis|
    requires fs.dis[i].size == fs'.dis[i].size <= MAXSIZE
    requires forall n :: 0 <= n < MAXFILE ==> Data(fs', i, n) == Data(fs, i, n)
    ensures Content(fs', i) == Content(fs, i)
  {
    forall k | 0 <= k < fs.dis[i].size ensures Byte(fs', i, k) == Byte(fs, i, k) {
      assert 0 <= k / BSIZE < MAXFILE;
    }
  }

  /** The bytes of block `bn` from `o` on replaced by `src`. */
  function Patch(was: seq<u8>, o: nat, src: seq<u8>): (r: seq<u8>)
    requires |was| == BSIZE && o + |src| <= BSIZE
    ensures |r| == BSIZE
  {
    was[..o] + src + was[o + |src|..]
  }

  /** One round of writei, on bytes: `src` goes into block `bn` from byte `o` on. */
  lemma PatchBytes(fs: Fs, fs': Fs, i: nat, bn: nat, o: nat, src: seq<u8>)
    requires WellFormed(fs) && WellFormed(fs') && i < |fs.dis| == |fs'.dis|
    requires o + |src| <= BSIZE && bn < MAXFILE
    requires forall n :: 0 <= n < MAXFILE ==>
      Data(fs', i, n) == if n == bn then Patch(Data(fs, i, n), o, src) else Data(fs, i, n)
    ensures forall k :: 0 <= k < MAXSIZE ==>
      Byte(fs', i, k) == if bn * BSIZE + o <= k < bn * BSIZE + o + |src| then src[k - (bn * BSIZE + o)]
        else Byte(fs, i, k)
  {
    forall k | 0 <= k < MAXSIZE
      ensures Byte(fs', i, k) == if bn * BSIZE + o <= k < bn * BSIZE + o + |src| then src[k - (bn * BSIZE + o)]
        else Byte(fs, i, k)
    {
      var n := k / BSIZE;
      assert 0 <= n < MAXFILE;
      InBlock(bn, o, |src|, k);
      hide Data;
    }
  }

  lemma InBlock(bn: nat, o: nat, m: nat, k: nat)
    requires o + m <= BSIZE
    ensures bn * BSIZE + o <= k < bn * BSIZE + o + m <==> k / BSIZE == bn && o <= k % BSIZE < o + m
    ensures bn * BSIZE + o <= k < bn * BSIZE + o + m ==> k - (bn * BSIZE + o) == k % BSIZE - o
  {
  }

  /** A chunk read from one block. */
  lemma ChunkBytes(fs: Fs, i: nat, off: nat, m: nat)
    requires WellFormed(fs) && i < |fs.dis| && off + m <= MAXSIZE && m > 0 && off % BSIZE + m <= BSIZE
    ensures off / BSIZE < MAXFILE
    ensures forall k ::
      off <= k < off + m ==> Byte(fs, i, k) == Data(fs, i, off / BSIZE)[off % BSIZE..off % BSIZE + m][k - off]
  {
    forall k | off <= k < off + m
      ensures Byte(fs, i, k) == Data(fs, i, off / BSIZE)[off % BSIZE..off % BSIZE + m][k - off]
    {
      InBlock(off / BSIZE, off % BSIZE, m, k);
    }
  }
}
