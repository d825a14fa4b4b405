/** How `tool/mkfs.c` lays files out: blocks taken in a row, one file after the other. */
module MkfsLayout {
  import opened BlockMap
  import opened FileData
  import opened InodeMap
  import opened ReadWrite
  import opened Truncate

  /** What a zeroed inode area holds. */
  function Blank(): Dinode { Dinode(0, 0, 0, 0, 0, seq(NDIRECT + 1, _ => 0)) }

  /** An image in the making: the first `sect` blocks after `start` are in use, and the rest is zero. */
  ghost predicate Image(fs: Fs, own: Owners, start: nat, sect: nat) {
    && start > 0 && Inv(fs, own, start) && start + sect <= |fs.bits|
    && (forall b :: 0 <= b < |fs.bits| ==> (fs.bits[b] <==> b < start + sect))
    && (forall b :: start + sect <= b < |fs.bits| ==> fs.blocks[b] == Zeros())
  }

  /** The next block goes into an empty slot. */
  lemma TakeNext(fs: Fs, own: Owners, start: nat, sect: nat, i: nat, s: nat)
    requires Image(fs, own, start, sect) && start + sect < |fs.bits| && i < |fs.dis| && s < NSLOTS && WellFormed(fs)
    requires Ptr(fs, i, s) == 0 && (s > NDIRECT ==> Ptr(fs, i, NDIRECT) != 0)
    ensures s > NDIRECT ==> fs.dis[i].addrs[NDIRECT] < start + sect
    ensures var fs' := Fill(fs, i, s, start + sect);
      Image(fs', own[start + sect := (i, s)], start, sect + 1) && Filled(fs, fs', i, s, start + sect)
  {
    hide Word, WithWord, Fill, Filled, Image, Inv;
    NextIsFree(fs, own, start, sect, i, s);
    FillKeeps(fs, own, start, i, s, start + sect);
    FillFilled(fs, own, start, i, s, start + sect);
    FillBlocks(fs, i, s, start + sect);
    NextImage(fs, own, start, sect, Fill(fs, i, s, start + sect), own[start + sect := (i, s)],
      fs.dis[i].addrs[NDIRECT], s > NDIRECT);
  }

  lemma NextIsFree(fs: Fs, own: Owners, start: nat, sect: nat, i: nat, s: nat)
    requires Image(fs, own, start, sect) && start + sect < |fs.bits| && i < |fs.dis| && s < NSLOTS && WellFormed(fs)
    requires Ptr(fs, i, s) == 0 && (s > NDIRECT ==> Ptr(fs, i, NDIRECT) != 0)
    ensures CanFill(fs, own, start, i, s, start + sect) && fs.blocks[start + sect] == Zeros()
    ensures s > NDIRECT ==> fs.dis[i].addrs[NDIRECT] < start + sect
  {
    DirectIsPtr(fs, i, NDIRECT);
    if s > NDIRECT { IndirectOf(fs, own, start, i); }
    hide Inv;
  }

  lemma NextImage(fs: Fs, own: Owners, start: nat, sect: nat, fs': Fs, own': Owners, ind: nat, one: bool)
    requires Image(fs, own, start, sect) && start + sect < |fs.bits| && Inv(fs', own', start)
      && |fs.blocks| == |fs.bits|
    requires fs'.bits == fs.bits[start + sect := true] && |fs'.blocks| == |fs.blocks| && (one ==> ind < start + sect)
    requires fs'.blocks == if one then fs.blocks[ind := fs'.blocks[ind]] else fs.blocks
    ensures Image(fs', own', start, sect + 1)
  {
    hide Inv;
  }

  /** The real blocks change only where a pointer is stored. */
  lemma FillBlocks(fs: Fs, i: nat, s: nat, b: nat)
    requires WellFormed(fs) && i < |fs.dis| && s < NSLOTS && b < |fs.blocks| && fs.blocks[b] == Zeros()
    requires s > NDIRECT ==> fs.dis[i].addrs[NDIRECT] < |fs.blocks| && fs.dis[i].addrs[NDIRECT] != b
    ensures var fs' := Fill(fs, i, s, b);
      && fs'.bits == fs.bits[b := true] && |fs'.blocks| == |fs.blocks|
      && fs'.blocks == (if s <= NDIRECT then fs.blocks else
           fs.blocks[fs.dis[i].addrs[NDIRECT] := WithWord(fs.blocks[fs.dis[i].addrs[NDIRECT]], s - NDIRECT - 1, b)])
      && fs'.dis == (if s <= NDIRECT then fs.dis[i := fs.dis[i].(addrs := fs.dis[i].addrs[s := b])] else fs.dis)
  {
    assert fs.blocks[b := Zeros()] == fs.blocks;
  }

  /** The block in slot `s` of a file of `ns` blocks laid out from `base` on: the indirect block comes first. */
  function Slot(base: nat, ns: nat, s: nat): nat {
    if s == NDIRECT then (if ns > NDIRECT then base else 0)
    else
      var n := if s < NDIRECT then s else s - 1;
      if n < ns then base + (if ns > NDIRECT then 1 else 0) + n else 0
  }

  function Addrs(base: nat, ns: nat): (a: seq<nat>)
    ensures |a| == NDIRECT + 1
  {
    seq(NDIRECT + 1, s requires 0 <= s => Slot(base, ns, s))
  }

  /** The slots of a file of `ns` blocks after `j` of them have been taken. */
  predicate Has(t: nat, ns: nat, j: nat) {
    if t == NDIRECT then ns > NDIRECT else if t < NDIRECT then t < j else t < j + 1
  }

  /** Inode `i` has `j` of its `ns` blocks, from `base` on, and the other inodes have what they had. */
  ghost predicate Laid(fs0: Fs, fs: Fs, i: nat, base: nat, ns: nat, j: nat) {
    && WellFormed(fs0) && WellFormed(fs) && i < |fs.dis| == |fs0.dis| && j <= ns <= MAXFILE
    && (forall t :: 0 <= t < NSLOTS ==> Ptr(fs, i, t) == if Has(t, ns, j) then Slot(base, ns, t) else 0)
    && (forall k, t :: 0 <= k < |fs.dis| && k != i && 0 <= t < NSLOTS ==> Ptr(fs, k, t) == Ptr(fs0, k, t))
    && OnlyAddrs(fs0, fs, i)
  }

  lemma FilledParts(fs: Fs, fs': Fs, i: nat, s: nat, b: nat)
    requires Filled(fs, fs', i, s, b)
    ensures WellFormed(fs) && WellFormed(fs') && i < |fs.dis| && |fs'.dis| == |fs.dis| && OnlyAddrs(fs, fs', i)
      && SameFiles(fs, fs')
    ensures forall j, t ::
      0 <= j < |fs.dis| && 0 <= t < NSLOTS ==> Ptr(fs', j, t) == if j == i && t == s then b else Ptr(fs, j, t)
  {
    hide Ptr, SameFiles;
  }

  lemma LaidNext(fs0: Fs, fs: Fs, fs': Fs, i: nat, base: nat, ns: nat, j: nat, b: nat)
    requires Laid(fs0, fs, i, base, ns, j) && j < ns && b == Slot(base, ns, SlotOf(j))
      && Filled(fs, fs', i, SlotOf(j), b)
    ensures Laid(fs0, fs', i, base, ns, j + 1)
  {
    FilledParts(fs, fs', i, SlotOf(j), b);
    hide Ptr, SameFiles;
  }

  /** A whole file laid out in an image in the making: blocks from `start + sect` on go into its slots. */
  lemma LayFile(fs0: Fs, own0: Owners, start: nat, sect: nat, i: nat, ns: nat) returns (fs: Fs, own: Owners)
    requires Image(fs0, own0, start, sect) && i < |fs0.dis| && fs0.dis[i].addrs == seq(NDIRECT + 1, _ => 0)
    requires ns <= MAXFILE && start + sect + Held(ns) <= |fs0.bits|
    ensures Image(fs, own, start, sect + Held(ns)) && |fs.bits| == |fs0.bits|
    ensures Laid(fs0, fs, i, start + sect, ns, ns)
  {
    hide Image, Inv, Ptr, Fill, Filled, Laid, Slot, Has, SlotOf;
    var base := start + sect;
    ImageFormed(fs0, own0, start, sect);
    BlankSlots(fs0, i);
    fs, own := fs0, own0;
    if ns > NDIRECT {
      TakeNext(fs0, own0, start, sect, i, NDIRECT);
      fs, own := Fill(fs0, i, NDIRECT, base), own0[base := (i, NDIRECT)];
      FilledBits(fs0, own0, start, sect, i, NDIRECT);
    }
    LaidStart(fs0, fs, i, base, ns);
    var j := 0;
    var at := if ns > NDIRECT then sect + 1 else sect;
    while j < ns
      invariant j <= ns && Image(fs, own, start, at + j) && |fs.bits| == |fs0.bits| && Laid(fs0, fs, i, base, ns, j)
    {
      ImageFormed(fs, own, start, at + j);
      LaidAt(fs0, fs, i, base, ns, j);
      TakeNext(fs, own, start, at + j, i, SlotOf(j));
      FilledBits(fs, own, start, at + j, i, SlotOf(j));
      var fs' := Fill(fs, i, SlotOf(j), start + at + j);
      LaidNext(fs0, fs, fs', i, base, ns, j, start + at + j);
      fs, own := fs', own[start + at + j := (i, SlotOf(j))];
      j := j + 1;
    }
  }

  lemma LaidStart(fs0: Fs, fs: Fs, i: nat, base: nat, ns: nat)
    requires WellFormed(fs0) && i < |fs0.dis| && ns <= MAXFILE && forall t :: 0 <= t < NSLOTS ==> Ptr(fs0, i, t) == 0
    requires if ns > NDIRECT then Filled(fs0, fs, i, NDIRECT, base) else fs == fs0
    ensures Laid(fs0, fs, i, base, ns, 0)
  {
    if ns > NDIRECT { FilledParts(fs0, fs, i, NDIRECT, base); }
    hide Ptr, SameFiles, Filled;
  }

  /** The next slot is empty, and its indirect block is there. */
  lemma LaidAt(fs0: Fs, fs: Fs, i: nat, base: nat, ns: nat, j: nat)
    requires Laid(fs0, fs, i, base, ns, j) && j < ns && base > 0
    ensures i < |fs.dis| && WellFormed(fs) && SlotOf(j) < NSLOTS && Ptr(fs, i, SlotOf(j)) == 0
    ensures SlotOf(j) > NDIRECT ==> Ptr(fs, i, NDIRECT) != 0
    ensures Slot(base, ns, SlotOf(j)) == base + (if ns > NDIRECT then 1 else 0) + j
  {
    hide Ptr;
  }

  lemma FilledBits(fs: Fs, own: Owners, start: nat, sect: nat, i: nat, s: nat)
    requires Image(fs, own, start, sect) && start + sect < |fs.bits| && i < |fs.dis| && s < NSLOTS && WellFormed(fs)
    requires Ptr(fs, i, s) == 0 && (s > NDIRECT ==> Ptr(fs, i, NDIRECT) != 0)
    ensures (s > NDIRECT ==> fs.dis[i].addrs[NDIRECT] < |fs.blocks|) && |Fill(fs, i, s, start + sect).bits| == |fs.bits|
  {
    NextIsFree(fs, own, start, sect, i, s);
    hide Image, Inv, Ptr;
  }

  lemma ImageFormed(fs: Fs, own: Owners, start: nat, sect: nat)
    requires Image(fs, own, start, sect)
    ensures start > 0 && WellFormed(fs) && Inv(fs, own, start) && start + sect <= |fs.bits| == |fs.blocks|
  {
  }

  lemma BlankSlots(fs: Fs, i: nat)
    requires WellFormed(fs) && i < |fs.dis| && fs.dis[i].addrs == seq(NDIRECT + 1, _ => 0)
    ensures forall t :: 0 <= t < NSLOTS ==> Ptr(fs, i, t) == 0
  {
  }
}
