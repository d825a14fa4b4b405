/** What mapping a block of a file does (`bmap` of `fs/inode.c`), and the in-core inode table. */
module InodeMap {
  import opened Words
  import opened BlockMap
  import opened FileData

  const BPB := 4096      // bits in a block of the bitmap
  const T_DIR := 1
  const T_FILE := 2
  const T_DEV := 3

  /** An entry of the in-core table. */
  datatype Incore = Incore(inum: nat, ref: nat, d: Dinode)

  /** The cost of mapping block `bn`, in blocks. */
  function MapCost(fs: Fs, i: nat, bn: nat): nat
    requires i < |fs.dis| && |fs.dis[i].addrs| == NDIRECT + 1 && bn < MAXFILE
  {
    (if bn >= NDIRECT && Ptr(fs, i, NDIRECT) == 0 then 1 else 0) + (if Ptr(fs, i, SlotOf(bn)) == 0 then 1 else 0)
  }

  /** The slots bmap needs for block `bn`. */
  predicate OnPath(bn: nat, t: nat) { t == SlotOf(bn) || (t == NDIRECT && bn >= NDIRECT) }

  /** The slots for block `bn` of inode `i` are filled, those that were keep their blocks, and no other slot changes. */
  ghost predicate Mapped(fs: Fs, fs': Fs, i: nat, bn: nat)
    requires WellFormed(fs) && WellFormed(fs') && i < |fs.dis| == |fs'.dis|
  {
    && (forall j, t :: 0 <= j < |fs.dis| && 0 <= t < NSLOTS && !(j == i && OnPath(bn, t) && Ptr(fs, j, t) == 0) ==>
         Ptr(fs', j, t) == Ptr(fs, j, t))
    && (forall t :: 0 <= t < NSLOTS && OnPath(bn, t) ==> Ptr(fs', i, t) != 0)
  }

  ghost predicate OnlyAddrs(fs: Fs, fs': Fs, i: nat)
    requires i < |fs.dis|
  {
    |fs'.dis| == |fs.dis| && fs'.dis == fs.dis[i := fs.dis[i].(addrs := fs'.dis[i].addrs)]
  }

  /** The in-core table holds inodes in use, none twice, and agrees with `dis` but for entry `ip`. */
  ghost predicate Coherent(inodes: seq<Incore>, dis: seq<Dinode>, ip: int) {
    && (forall j :: 0 <= j < |inodes| && inodes[j].ref > 0 ==>
         inodes[j].inum < |dis| && inodes[j].d.kind != 0 && (j != ip ==> inodes[j].d == dis[inodes[j].inum]))
    && (forall j, k ::
          0 <= j < k < |inodes| && inodes[j].ref > 0 && inodes[k].ref > 0 ==> inodes[j].inum != inodes[k].inum)
  }

  /** Entry `ip` stands for its inode, whose copy on disk may be older. */
  ghost function ViewOf(inodes: seq<Incore>, dis: seq<Dinode>, blocks: seq<seq<u8>>, bits: seq<bool>, ip: nat): Fs
    requires ip < |inodes| && inodes[ip].inum < |dis|
  {
    Fs(dis[inodes[ip].inum := inodes[ip].d], blocks, bits)
  }

  /** `fs'` is `fs` after block `bn` of inode `i` was mapped: it is at `addr`. */
  ghost predicate MappedTo(fs: Fs, fs': Fs, i: nat, bn: nat, addr: nat) {
    && WellFormed(fs) && WellFormed(fs') && i < |fs.dis| && bn < MAXFILE
    && OnlyAddrs(fs, fs', i) && SameFiles(fs, fs') && Mapped(fs, fs', i, bn)
    && Ptr(fs', i, SlotOf(bn)) == addr != 0
    && (MapCost(fs, i, bn) == 0 ==> fs' == fs)
  }

  lemma MapNothing(fs: Fs, own: Owners, start: nat, i: nat, bn: nat)
    requires Inv(fs, own, start) && i < |fs.dis| && bn < MAXFILE && MapCost(fs, i, bn) == 0
    ensures MappedTo(fs, fs, i, bn, Ptr(fs, i, SlotOf(bn)))
  {
    hide Ptr;
  }

  lemma MapOne(fs: Fs, fs': Fs, i: nat, bn: nat, addr: nat)
    requires Filled(fs, fs', i, SlotOf(bn), addr) && bn < MAXFILE && addr != 0
    requires Ptr(fs, i, SlotOf(bn)) == 0 && (bn >= NDIRECT ==> Ptr(fs, i, NDIRECT) != 0)
    ensures MapCost(fs, i, bn) == 1 && MappedTo(fs, fs', i, bn, addr)
  {
    hide Ptr, SameFiles;
  }

  /** The indirect block first, then the data block: a fresh indirect block points nowhere. */
  lemma MapTwo(fs: Fs, f1: Fs, f2: Fs, i: nat, bn: nat, ind: nat, addr: nat)
    requires Filled(fs, f1, i, NDIRECT, ind) && Filled(f1, f2, i, SlotOf(bn), addr) && NDIRECT <= bn < MAXFILE
    requires ind != 0 && addr != 0 && Ptr(fs, i, NDIRECT) == 0 && Ptr(fs, i, SlotOf(bn)) == 0
    ensures MapCost(fs, i, bn) == 2 && MappedTo(fs, f2, i, bn, addr)
  {
    SameFilesChain(fs, f1, f2);
    hide Ptr, SameFiles;
  }

  lemma SameFilesChain(fs: Fs, f1: Fs, f2: Fs)
    requires WellFormed(fs) && WellFormed(f1) && WellFormed(f2) && SameFiles(fs, f1) && SameFiles(f1, f2)
    ensures SameFiles(fs, f2)
  {
    hide Data;
  }

  /** Without an indirect block there is nothing behind it. */
  lemma NoIndirect(fs: Fs, i: nat, t: nat)
    requires WellFormed(fs) && i < |fs.dis| && NDIRECT < t < NSLOTS && Ptr(fs, i, NDIRECT) == 0
    ensures Ptr(fs, i, t) == 0
  {
  }

  /** The word of an indirect block is the pointer in its slot. */
  lemma WordIsPtr(fs: Fs, own: Owners, start: nat, i: nat, t: nat)
    requires Inv(fs, own, start) && i < |fs.dis| && NDIRECT < t < NSLOTS && Ptr(fs, i, NDIRECT) != 0
    ensures var ind := fs.dis[i].addrs[NDIRECT];
      Ptr(fs, i, NDIRECT) == ind < |fs.blocks| && |fs.blocks[ind]| == BSIZE
        && Ptr(fs, i, t) == Word(fs.blocks[ind], t - NDIRECT - 1)
  {
    IndirectOf(fs, own, start, i);
  }

  lemma DirectIsPtr(fs: Fs, i: nat, s: nat)
    requires WellFormed(fs) && i < |fs.dis| && s <= NDIRECT
    ensures Ptr(fs, i, s) == fs.dis[i].addrs[s]
  {
  }

  /** After the indirect block was seen to: the state is as it was, or that block is new. */
  lemma FilledNow(fs: Fs, f1: Fs, i: nat, s: nat, addr: nat, filled: bool)
    requires WellFormed(fs) && i < |fs.dis| && s < NSLOTS && addr != 0
    requires if filled then Filled(fs, f1, i, s, addr) else f1 == fs && Ptr(fs, i, s) == addr
    ensures WellFormed(f1) && |f1.dis| == |fs.dis| && Ptr(f1, i, s) == addr
    ensures forall t :: 0 <= t < NSLOTS && t != s ==> Ptr(f1, i, t) == Ptr(fs, i, t)
  {
  }

  lemma Formed(fs: Fs, own: Owners, start: nat)
    requires Inv(fs, own, start)
    ensures WellFormed(fs)
  {
  }

  /** Slot `s` of inode `i` was empty and holds `b` now; no other slot has changed, and no file's data. */
  ghost predicate Filled(fs: Fs, fs': Fs, i: nat, s: nat, b: nat) {
    && WellFormed(fs) && WellFormed(fs') && i < |fs.dis| && OnlyAddrs(fs, fs', i) && SameFiles(fs, fs')
    && (forall j, t :: 0 <= j < |fs.dis| && 0 <= t < NSLOTS ==> Ptr(fs', j, t) == if j == i && t == s then b
        else Ptr(fs, j, t))
  }

  lemma FreeBlock(fs: Fs, own: Owners, start: nat, b: nat)
    requires Inv(fs, own, start) && b < |fs.bits| && !fs.bits[b]
    ensures b >= start && b !in own
  {
  }

  lemma SameEntry(table: seq<Incore>, table': seq<Incore>, dis: seq<Dinode>, ip: nat, d: Dinode)
    requires Coherent(table, dis, ip) && ip < |table| && table' == table[ip := table[ip].(d := d)]
      && d.kind == table[ip].d.kind
    ensures Coherent(table', dis, ip)
  {
  }

  lemma ViewFilled(table: seq<Incore>, table': seq<Incore>, dis: seq<Dinode>, blocks: seq<seq<u8>>,
        blocks': seq<seq<u8>>,
                   bits: seq<bool>, bits': seq<bool>, ip: nat, s: nat, b: nat)
    requires ip < |table| && table[ip].inum < |dis| && s < NSLOTS && b < |bits| == |blocks|
    requires WellFormed(ViewOf(table, dis, blocks, bits, ip)) && bits' == bits[b := true]
    requires s <= NDIRECT ==>
      && |table[ip].d.addrs| == NDIRECT + 1 && blocks' == blocks[b := Zeros()]
      && table' == table[ip := table[ip].(d := table[ip].d.(addrs := table[ip].d.addrs[s := b]))]
    requires s > NDIRECT ==>
      && |table[ip].d.addrs| == NDIRECT + 1 && table' == table
      && var ind := table[ip].d.addrs[NDIRECT];
         ind < |blocks| && ind != b && |blocks[ind]| == BSIZE
           && blocks' == blocks[b := Zeros()][ind := WithWord(blocks[ind], s - NDIRECT - 1, b)]
    ensures ViewOf(table', dis, blocks', bits', ip) == Fill(ViewOf(table, dis, blocks, bits, ip), table[ip].inum, s, b)
  {
  }

  /** Writing the entry back makes the table agree with the disk. */
  lemma Synced(table: seq<Incore>, table': seq<Incore>, dis: seq<Dinode>, dis': seq<Dinode>, ip: nat)
    requires Coherent(table, dis, ip) && ip < |table| && table[ip].ref > 0 && |table'| == |table|
    requires table' == table[ip := table[ip].(d := table'[ip].d)] && table[ip].inum < |dis|
      && table'[ip].d.kind == table[ip].d.kind
    requires dis' == dis[table[ip].inum := table'[ip].d]
    ensures Coherent(table', dis', -1)
  {
    var i := table[ip].inum;
    forall j | 0 <= j < |table'| && table'[j].ref > 0 && j != ip ensures table'[j].inum != i {
      assert table'[j] == table[j];
      var a, b := (if j < ip then j else ip), (if j < ip then ip else j);
      assert table[a].ref > 0 && table[b].ref > 0;
    }
  }

  lemma MapFree(fs: Fs, fs': Fs, i: nat, bn: nat, addr: nat)
    requires MappedTo(fs, fs', i, bn, addr) && MapCost(fs, i, bn) == 0
    ensures fs' == fs
  {
  }

  lemma InUse(table: seq<Incore>, dis: seq<Dinode>, ip: nat)
    requires Coherent(table, dis, -1) && ip < |table| && table[ip].ref > 0
    ensures table[ip].inum < |dis| && table[ip].d.kind != 0 && table[ip].d == dis[table[ip].inum]
  {
  }

  /** Dropping a reference; when it is the last, the inode may have been freed on disk. */
  lemma Dropped(table: seq<Incore>, table': seq<Incore>, dis: seq<Dinode>, dis': seq<Dinode>, ip: nat, d: Dinode)
    requires Coherent(table, dis, -1) && ip < |table| && table[ip].ref > 0 && table[ip].inum < |dis|
    requires table' == table[ip := Incore(table[ip].inum, table[ip].ref - 1, d)] && dis' == dis[table[ip].inum := d]
    requires table[ip].ref > 1 ==> d == table[ip].d
    ensures Coherent(table', dis', -1)
  {
    var i := table[ip].inum;
    forall j | 0 <= j < |table'| && table'[j].ref > 0 && j != ip ensures table'[j].inum != i {
      var a, b := (if j < ip then j else ip), (if j < ip then ip else j);
      assert table[a].ref > 0 && table[b].ref > 0;
    }
  }

  /** A new entry for an inode that is not in the table. */
  lemma Added(table: seq<Incore>, table': seq<Incore>, dis: seq<Dinode>, ip: nat, inum: nat)
    requires Coherent(table, dis, -1) && ip < |table| && table[ip].ref == 0 && inum < |dis| && dis[inum].kind != 0
    requires forall j :: 0 <= j < |table| && table[j].ref > 0 ==> table[j].inum != inum
    requires table' == table[ip := Incore(inum, 1, dis[inum])]
    ensures Coherent(table', dis, -1)
  {
  }

  lemma Shared(table: seq<Incore>, table': seq<Incore>, dis: seq<Dinode>, ip: nat)
    requires Coherent(table, dis, -1) && ip < |table| && table[ip].ref > 0
    requires table' == table[ip := table[ip].(ref := table[ip].ref + 1)]
    ensures Coherent(table', dis, -1)
  {
  }

  /** A free inode taken into use is in no entry. */
  lemma FreeInode(table: seq<Incore>, dis: seq<Dinode>, inum: nat, d: Dinode)
    requires Coherent(table, dis, -1) && inum < |dis| && dis[inum].kind == 0
    ensures Coherent(table, dis[inum := d], -1)
    ensures forall j :: 0 <= j < |table| && table[j].ref > 0 ==> table[j].inum != inum
  {
  }

  lemma FillFilled(fs: Fs, own: Owners, start: nat, i: nat, s: nat, b: nat)
    requires CanFill(fs, own, start, i, s, b)
    requires s > NDIRECT ==> fs.dis[i].addrs[NDIRECT] < |fs.blocks|
    ensures Filled(fs, Fill(fs, i, s, b), i, s, b)
  {
    FillFormed(fs, own, start, i, s, b);
    FillKeeps(fs, own, start, i, s, b);
    var fs' := Fill(fs, i, s, b);
    assert fs'.dis == fs.dis[i := fs.dis[i].(addrs := fs'.dis[i].addrs)];
    hide Fill, Ptr, Inv, SameFiles;
    forall j, t | 0 <= j < |fs.dis| && 0 <= t < NSLOTS
      ensures Ptr(fs', j, t) == if j == i && t == s then b else Ptr(fs, j, t)
    {
      FillPtr(fs, own, start, i, s, b, j, t);
    }
  }
}
