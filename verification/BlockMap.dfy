/** The blocks of a file system (`fs/inode.c`), and who owns them. */
module BlockMap {
  import opened Words

  const BSIZE := 512
  const NDIRECT := 12
  const NINDIRECT := 128
  const MAXFILE := 140
  const NSLOTS := 141

  // Words of a block, least significant byte first

  function Zeros(): seq<u8> { seq(BSIZE, _ => 0) }

  function Word(b: seq<u8>, i: nat): u32
    requires |b| == BSIZE && i < NINDIRECT
  {
    b[4 * i] as int + 0x100 * b[4 * i + 1] as int + 0x1_0000 * b[4 * i + 2] as int + 0x100_0000 * b[4 * i + 3] as int
  }

  function WithWord(b: seq<u8>, i: nat, w: u32): (r: seq<u8>)
    requires |b| == BSIZE && i < NINDIRECT
    ensures |r| == BSIZE
  {
    b[4 * i := w % 0x100][4 * i + 1 := w / 0x100 % 0x100]
     [4 * i + 2 := w / 0x1_0000 % 0x100][4 * i + 3 := w / 0x100_0000]
  }

  lemma WordSet(b: seq<u8>, i: nat, w: u32, j: nat)
    requires |b| == BSIZE && i < NINDIRECT && j < NINDIRECT
    ensures Word(WithWord(b, i, w), j) == if i == j then w else Word(b, j)
  {
    assert w
      == w % 0x100 + 0x100 * (w / 0x100 % 0x100) + 0x1_0000 * (w / 0x1_0000 % 0x100) + 0x100_0000 * (w / 0x100_0000);
  }

  lemma WordZero(j: nat)
    requires j < NINDIRECT
    ensures Word(Zeros(), j) == 0
  {
  }

  // Pointers

  /** `addrs`: twelve blocks, then the indirect block. */
  datatype Dinode = Dinode(kind: int, nlink: int, major: int, minor: int, size: nat, addrs: seq<nat>)

  datatype Fs = Fs(dis: seq<Dinode>, blocks: seq<seq<u8>>, bits: seq<bool>)

  ghost predicate WellFormed(fs: Fs) {
    && |fs.blocks| == |fs.bits| <= 0x1_0000_0000
    && (forall i :: 0 <= i < |fs.dis| ==> |fs.dis[i].addrs| == NDIRECT + 1)
    && (forall b :: 0 <= b < |fs.blocks| ==> |fs.blocks[b]| == BSIZE)
  }

  /**
   A file holds blocks in slots: the direct ones, slot 12 for the indirect block, and a slot
   for each of its words. They fill in this order when a file grows.
   */
  function SlotOf(bn: nat): nat { if bn < NDIRECT then bn else bn + 1 }

  /** The block in slot `s` of inode `i`; 0 for none. */
  function Ptr(fs: Fs, i: nat, s: nat): nat
    requires i < |fs.dis| && |fs.dis[i].addrs| == NDIRECT + 1 && s < NSLOTS
  {
    var a := fs.dis[i].addrs;
    if s <= NDIRECT then a[s]
    else if 0 < a[NDIRECT] < |fs.blocks| && |fs.blocks[a[NDIRECT]]| == BSIZE then
      Word(fs.blocks[a[NDIRECT]], s - NDIRECT - 1)
    else 0
  }

  /** Which slot of which inode a block is in. */
  type Owners = map<nat, (nat, nat)>

  ghost predicate Owned(fs: Fs, own: Owners, start: nat)
    requires WellFormed(fs)
  {
    forall b :: b in own ==>
      && 0 < start <= b < |fs.blocks| && own[b].0 < |fs.dis| && own[b].1 < NSLOTS
      && Ptr(fs, own[b].0, own[b].1) == b
  }

  ghost predicate Pointed(fs: Fs, own: Owners)
    requires WellFormed(fs)
  {
    forall i, s :: 0 <= i < |fs.dis| && 0 <= s < NSLOTS && Ptr(fs, i, s) != 0 ==>
      Ptr(fs, i, s) in own && own[Ptr(fs, i, s)] == (i, s)
  }

  ghost predicate BitsOk(fs: Fs, own: Owners, start: nat) {
    forall b :: 0 <= b < |fs.bits| ==> (fs.bits[b] <==> b < start || b in own)
  }

  /**
   A block's bit is set exactly when it is metadata (below `start`) or in one slot of one inode;
   no block is in two.
   */
  ghost predicate Inv(fs: Fs, own: Owners, start: nat) {
    WellFormed(fs) && Owned(fs, own, start) && Pointed(fs, own) && BitsOk(fs, own, start)
  }

  /** Without the owners: no block is in two slots, and the bitmap is the set of blocks in slots. */
  lemma ExactlyOne(fs: Fs, own: Owners, start: nat, i: nat, s: nat, j: nat, t: nat)
    requires Inv(fs, own, start) && i < |fs.dis| && j < |fs.dis| && s < NSLOTS && t < NSLOTS
    requires Ptr(fs, i, s) == Ptr(fs, j, t) != 0
    ensures i == j && s == t && start <= Ptr(fs, i, s) < |fs.bits| && fs.bits[Ptr(fs, i, s)]
  {
  }

  // What the blocks hold

  /** The data of block `bn` of inode `i`; a block it does not have counts as zeros. */
  function Data(fs: Fs, i: nat, bn: nat): seq<u8>
    requires i < |fs.dis| && |fs.dis[i].addrs| == NDIRECT + 1 && bn < MAXFILE
  {
    var p := Ptr(fs, i, SlotOf(bn));
    if 0 < p < |fs.blocks| then fs.blocks[p] else Zeros()
  }

  ghost predicate SameFiles(fs: Fs, fs': Fs)
    requires WellFormed(fs) && WellFormed(fs')
  {
    |fs'.dis| == |fs.dis| && forall i, bn ::
      0 <= i < |fs.dis| && 0 <= bn < MAXFILE ==> Data(fs', i, bn) == Data(fs, i, bn)
  }

  // Filling a slot with a new block

  function Fill(fs: Fs, i: nat, s: nat, b: nat): Fs
    requires WellFormed(fs) && i < |fs.dis| && s < NSLOTS && b < |fs.blocks|
    requires s > NDIRECT ==> fs.dis[i].addrs[NDIRECT] < |fs.blocks|
  {
    var d := fs.dis[i];
    var zeroed := fs.blocks[b := Zeros()];
    if s <= NDIRECT then
      Fs(fs.dis[i := d.(addrs := d.addrs[s := b])], zeroed, fs.bits[b := true])
    else
      var ind := d.addrs[NDIRECT];
      Fs(fs.dis, zeroed[ind := WithWord(zeroed[ind], s - NDIRECT - 1, b)], fs.bits[b := true])
  }

  /** Slot `s` of inode `i` is empty, and `b` a free block to fill it with. */
  ghost predicate CanFill(fs: Fs, own: Owners, start: nat, i: nat, s: nat, b: nat) {
    && Inv(fs, own, start) && 0 < start <= b < |fs.bits| && !fs.bits[b]
    && i < |fs.dis| && s < NSLOTS && Ptr(fs, i, s) == 0
    && (s > NDIRECT ==> fs.dis[i].addrs[NDIRECT] != 0)
  }

  /** The indirect block of `j`, when it has one. */
  lemma IndirectOf(fs: Fs, own: Owners, start: nat, j: nat)
    requires Inv(fs, own, start) && j < |fs.dis| && fs.dis[j].addrs[NDIRECT] != 0
    ensures var ind := fs.dis[j].addrs[NDIRECT];
      start <= ind < |fs.blocks| && ind in own && own[ind] == (j, NDIRECT) && fs.bits[ind] && |fs.blocks[ind]| == BSIZE
  {
    assert Ptr(fs, j, NDIRECT) == fs.dis[j].addrs[NDIRECT];
  }

  lemma PtrOf(fs: Fs, own: Owners, start: nat, j: nat, t: nat)
    requires Inv(fs, own, start) && j < |fs.dis| && t < NSLOTS
    ensures var p := Ptr(fs, j, t);
      p != 0 ==> start <= p < |fs.blocks| && p in own && own[p] == (j, t) && fs.bits[p]
  {
  }

  lemma FillFormed(fs: Fs, own: Owners, start: nat, i: nat, s: nat, b: nat)
    requires CanFill(fs, own, start, i, s, b)
    ensures s > NDIRECT ==> fs.dis[i].addrs[NDIRECT] < |fs.blocks| && fs.dis[i].addrs[NDIRECT] != b
    ensures var fs' := Fill(fs, i, s, b);
      WellFormed(fs') && |fs'.dis| == |fs.dis| && |fs'.blocks| == |fs.blocks| && fs'.bits == fs.bits[b := true]
  {
    if s > NDIRECT { IndirectOf(fs, own, start, i); }
  }

  lemma FillPtr(fs: Fs, own: Owners, start: nat, i: nat, s: nat, b: nat, j: nat, t: nat)
    requires CanFill(fs, own, start, i, s, b) && j < |fs.dis| && t < NSLOTS
    requires s > NDIRECT ==> fs.dis[i].addrs[NDIRECT] < |fs.blocks|
    requires WellFormed(Fill(fs, i, s, b)) && |Fill(fs, i, s, b).dis| == |fs.dis|
    ensures Ptr(Fill(fs, i, s, b), j, t) == if j == i && t == s then b else Ptr(fs, j, t)
  {
    var fs' := Fill(fs, i, s, b);
    hide Inv, Word, WithWord, Zeros;
    if t > NDIRECT {
      var ind := fs.dis[j].addrs[NDIRECT];
      if ind == 0 {
        if s == NDIRECT && j == i { WordZero(t - NDIRECT - 1); }
      } else {
        IndirectOf(fs, own, start, j);
        if s > NDIRECT {
          IndirectOf(fs, own, start, i);
          WordSet(fs.blocks[ind], s - NDIRECT - 1, b, t - NDIRECT - 1);
        }
      }
    }
  }

  /** Filling a slot keeps the ownership of blocks, and every file's data. */
  lemma FillKeeps(fs: Fs, own: Owners, start: nat, i: nat, s: nat, b: nat)
    requires CanFill(fs, own, start, i, s, b)
    requires s > NDIRECT ==> fs.dis[i].addrs[NDIRECT] < |fs.blocks|
    ensures Inv(Fill(fs, i, s, b), own[b := (i, s)], start)
    ensures SameFiles(fs, Fill(fs, i, s, b))
    ensures Ptr(Fill(fs, i, s, b), i, s) == b
  {
    var fs', own' := Fill(fs, i, s, b), own[b := (i, s)];
    FillFormed(fs, own, start, i, s, b);
    assert b !in own && forall a :: a in own ==> fs.bits[a];
    hide Fill, Ptr;
    forall j, t | 0 <= j < |fs.dis| && 0 <= t < NSLOTS
      ensures Ptr(fs', j, t) == if j == i && t == s then b else Ptr(fs, j, t)
    {
      FillPtr(fs, own, start, i, s, b, j, t);
    }
    assert Owned(fs', own', start) && Pointed(fs', own') && BitsOk(fs', own', start);
    forall j, bn | 0 <= j < |fs.dis| && 0 <= bn < MAXFILE ensures Data(fs', j, bn) == Data(fs, j, bn) {
      FillData(fs, own, start, i, s, b, j, bn);
    }
  }

  lemma FillData(fs: Fs, own: Owners, start: nat, i: nat, s: nat, b: nat, j: nat, bn: nat)
    requires CanFill(fs, own, start, i, s, b) && j < |fs.dis| && bn < MAXFILE
    requires s > NDIRECT ==> fs.dis[i].addrs[NDIRECT] < |fs.blocks|
    requires WellFormed(Fill(fs, i, s, b)) && |Fill(fs, i, s, b).dis| == |fs.dis|
    ensures Data(Fill(fs, i, s, b), j, bn) == Data(fs, j, bn)
  {
    hide Inv, Ptr, WithWord, Zeros;
    var t := SlotOf(bn);
    FillFormed(fs, own, start, i, s, b);
    FillPtr(fs, own, start, i, s, b, j, t);
    PtrOf(fs, own, start, j, t);
    if s > NDIRECT { IndirectOf(fs, own, start, i); }
  }

  // Writing the data of a block

  function Write(fs: Fs, p: nat, data: seq<u8>): Fs
    requires p < |fs.blocks|
  {
    fs.(blocks := fs.blocks[p := data])
  }

  /** Only that block of that file changes. */
  lemma WriteKeeps(fs: Fs, own: Owners, start: nat, i: nat, bn: nat, data: seq<u8>)
    requires Inv(fs, own, start) && i < |fs.dis| && bn < MAXFILE && Ptr(fs, i, SlotOf(bn)) != 0 && |data| == BSIZE
    ensures Ptr(fs, i, SlotOf(bn)) < |fs.blocks|
    ensures var fs' := Write(fs, Ptr(fs, i, SlotOf(bn)), data);
      && Inv(fs', own, start)
      && (forall j, t :: 0 <= j < |fs.dis| && 0 <= t < NSLOTS ==> Ptr(fs', j, t) == Ptr(fs, j, t))
      && (forall j, n :: 0 <= j < |fs.dis| && 0 <= n < MAXFILE ==>
           Data(fs', j, n) == if j == i && n == bn then data else Data(fs, j, n))
  {
    var p := Ptr(fs, i, SlotOf(bn));
    PtrOf(fs, own, start, i, SlotOf(bn));
    var fs' := Write(fs, p, data);
    forall j, t | 0 <= j < |fs.dis| && 0 <= t < NSLOTS ensures Ptr(fs', j, t) == Ptr(fs, j, t) {
      if t > NDIRECT && fs.dis[j].addrs[NDIRECT] != 0 { IndirectOf(fs, own, start, j); }
    }
    hide Ptr;
    forall j, n | 0 <= j < |fs.dis| && 0 <= n < MAXFILE
      ensures Data(fs', j, n) == if j == i && n == bn then data else Data(fs, j, n)
    {
      PtrOf(fs, own, start, j, SlotOf(n));
    }
  }

  // Emptying a slot

  function Empty(fs: Fs, i: nat, s: nat): Fs
    requires i < |fs.dis| && |fs.dis[i].addrs| == NDIRECT + 1 && s < NSLOTS && 0 < Ptr(fs, i, s) < |fs.bits|
  {
    var d := fs.dis[i];
    var bits := fs.bits[Ptr(fs, i, s) := false];
    if s <= NDIRECT then Fs(fs.dis[i := d.(addrs := d.addrs[s := 0])], fs.blocks, bits)
    else Fs(fs.dis, fs.blocks[d.addrs[NDIRECT] := WithWord(fs.blocks[d.addrs[NDIRECT]], s - NDIRECT - 1, 0)], bits)
  }

  /** Slot `s` of `i` holds a block; the indirect block goes only after all it points to. */
  ghost predicate CanEmpty(fs: Fs, own: Owners, start: nat, i: nat, s: nat) {
    && Inv(fs, own, start) && i < |fs.dis| && s < NSLOTS && Ptr(fs, i, s) != 0
    && (s == NDIRECT ==> forall t :: NDIRECT < t < NSLOTS ==> Ptr(fs, i, t) == 0)
  }

  lemma EmptyPtr(fs: Fs, own: Owners, start: nat, i: nat, s: nat, j: nat, t: nat)
    requires CanEmpty(fs, own, start, i, s) && j < |fs.dis| && t < NSLOTS && Ptr(fs, i, s) < |fs.bits|
    requires WellFormed(Empty(fs, i, s))
    ensures Ptr(Empty(fs, i, s), j, t) == if j == i && t == s then 0 else Ptr(fs, j, t)
  {
    var fs' := Empty(fs, i, s);
    hide Inv, Word, WithWord;
    if t > NDIRECT && fs.dis[j].addrs[NDIRECT] != 0 {
      IndirectOf(fs, own, start, j);
      if s > NDIRECT {
        IndirectOf(fs, own, start, i);
        WordSet(fs.blocks[fs.dis[j].addrs[NDIRECT]], s - NDIRECT - 1, 0, t - NDIRECT - 1);
      }
    }
  }

  /** Emptying a slot frees its block, and takes data from that file only. */
  lemma EmptyKeeps(fs: Fs, own: Owners, start: nat, i: nat, s: nat)
    requires CanEmpty(fs, own, start, i, s)
    ensures Ptr(fs, i, s) < |fs.bits| && fs.bits[Ptr(fs, i, s)]
    ensures var fs' := Empty(fs, i, s);
      && Inv(fs', own - {Ptr(fs, i, s)}, start) && |fs'.dis| == |fs.dis|
      && (forall j, t :: 0 <= j < |fs.dis| && 0 <= t < NSLOTS ==> Ptr(fs', j, t) == if j == i && t == s then 0
          else Ptr(fs, j, t))
      && (forall j, n :: 0 <= j < |fs.dis| && 0 <= n < MAXFILE && j != i ==> Data(fs', j, n) == Data(fs, j, n))
  {
    var p := Ptr(fs, i, s);
    PtrOf(fs, own, start, i, s);
    if s > NDIRECT && fs.dis[i].addrs[NDIRECT] != 0 { IndirectOf(fs, own, start, i); }
    var fs', own' := Empty(fs, i, s), own - {p};
    assert WellFormed(fs');
    forall j, t | 0 <= j < |fs.dis| && 0 <= t < NSLOTS
      ensures Ptr(fs', j, t) == if j == i && t == s then 0 else Ptr(fs, j, t)
    {
      EmptyPtr(fs, own, start, i, s, j, t);
    }
    hide Ptr, WithWord, Word;
    assert Owned(fs', own', start) && Pointed(fs', own') && BitsOk(fs', own', start);
    forall j, n | 0 <= j < |fs.dis| && 0 <= n < MAXFILE && j != i ensures Data(fs', j, n) == Data(fs, j, n) {
      PtrOf(fs, own, start, j, SlotOf(n));
      if s > NDIRECT { IndirectOf(fs, own, start, i); }
    }
  }
}
