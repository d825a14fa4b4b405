/** Blocks and inodes of a mounted file system (`fs/inode.c`), updated in place. */
module Inode {
  import opened Words
  import opened BlockMap
  import opened FileData
  import opened InodeMap
  import opened ReadWrite
  import opened Truncate

  class FileSystem {
    const bits: array<bool>
    const blocks: array<seq<u8>>
    const dinodes: array<Dinode>
    const inodes: array<Incore>
    const start: nat          // first block that is not metadata
    ghost var own: Owners

    constructor (bits0: array<bool>, blocks0: array<seq<u8>>, dinodes0: array<Dinode>, inodes0: array<Incore>,
      start0: nat, ghost own0: Owners)
      ensures bits == bits0 && blocks == blocks0 && dinodes == dinodes0 && inodes == inodes0 && start == start0
        && own == own0
    {
      bits, blocks, dinodes, inodes, start, own := bits0, blocks0, dinodes0, inodes0, start0, own0;
    }

    ghost predicate Open(ip: nat)
      reads this, inodes
    {
      ip < inodes.Length && inodes[ip].ref > 0 && inodes[ip].inum < dinodes.Length
    }

    ghost function Disk(): Fs
      reads this, dinodes, blocks, bits
    {
      Fs(dinodes[..], blocks[..], bits[..])
    }

    ghost function View(ip: nat): Fs
      requires Open(ip)
      reads this, inodes, dinodes, blocks, bits
    {
      ViewOf(inodes[..], dinodes[..], blocks[..], bits[..], ip)
    }

    /** Between operations. */
    ghost predicate Valid()
      reads this, inodes, dinodes, blocks, bits
    {
      && start > 0 && Inv(Disk(), own, start) && Dense(Disk()) && Coherent(inodes[..], dinodes[..], -1)
    }

    /** While an operation works on entry `ip`. */
    ghost predicate Busy(ip: nat)
      reads this, inodes, dinodes, blocks, bits
    {
      start > 0 && Open(ip) && Inv(View(ip), own, start) && Coherent(inodes[..], dinodes[..], ip)
    }

    /** A zeroed block: the first that is free. */
    method Balloc() returns (addr: nat, panic: bool)
      requires bits.Length == blocks.Length
      modifies bits, blocks
      ensures panic <==> FreeCount(old(bits[..])) == 0
      ensures panic ==> bits[..] == old(bits[..]) && blocks[..] == old(blocks[..])
      ensures !panic ==>
        && addr < bits.Length && !old(bits[addr]) && (forall c :: 0 <= c < addr ==> old(bits[c]))
        && bits[..] == old(bits[..])[addr := true] && blocks[..] == old(blocks[..])[addr := Zeros()]
    {
      FreeCountZero(bits[..]);
      var b := 0;
      while b < bits.Length
        invariant forall c :: 0 <= c < b && c < bits.Length ==> bits[c]
        invariant bits[..] == old(bits[..]) && blocks[..] == old(blocks[..])
      {
        var bi := 0;
        while bi < BPB && bi < bits.Length - b
          invariant 0 <= bi <= BPB && (bi < BPB ==> b + bi <= bits.Length)
          invariant forall c :: 0 <= c < b + bi && c < bits.Length ==> bits[c]
          invariant bits[..] == old(bits[..]) && blocks[..] == old(blocks[..])
        {
          if !bits[b + bi] {
            assert !bits[..][b + bi];
            bits[b + bi] := true;
            blocks[b + bi] := Zeros();
            return b + bi, false;
          }
          bi := bi + 1;
        }
        b := b + BPB;
      }
      addr, panic := 0, true;
    }

    /** Freeing a free block is a panic. */
    method Bfree(b: nat) returns (panic: bool)
      requires b < bits.Length
      modifies bits
      ensures (panic <==> !old(bits[b])) && bits[..] == old(bits[..])[b := false]
    {
      if !bits[b] { return true; }
      bits[b] := false;
      panic := false;
    }

    /** What an operation on `ip` may do to the in-core table. */
    twostate predicate OnlyEntry(ip: nat)
      reads inodes
    {
      && ip < inodes.Length
      && inodes[..] == old(inodes[..])[ip := old(inodes[ip]).(d := inodes[ip].d)]
    }

    /** A new block for slot `s`: balloc, and its address stored in the inode or the indirect block. */
    method FillSlot(ip: nat, s: nat) returns (addr: nat, panic: bool)
      requires Busy(ip) && s < NSLOTS && Ptr(View(ip), inodes[ip].inum, s) == 0
      requires s > NDIRECT ==> inodes[ip].d.addrs[NDIRECT] != 0
      modifies bits, blocks, inodes, this`own
      ensures panic <==> FreeCount(old(bits[..])) == 0
      ensures !panic ==>
        && Busy(ip) && OnlyEntry(ip) && FreeCount(bits[..]) == FreeCount(old(bits[..])) - 1
        && addr != 0 && Filled(old(View(ip)), View(ip), inodes[ip].inum, s, addr)
    {
      hide Inv, Fill, SameFiles, Coherent, Filled, Ptr, WithWord;
      ghost var fs, i := View(ip), inodes[ip].inum;
      Formed(fs, own, start);
      if s > NDIRECT { IndirectOf(fs, own, start, i); }
      addr, panic := Balloc();
      if panic { return; }
      FreeBlock(fs, own, start, addr);
      assert CanFill(fs, own, start, i, s, addr);
      FillKeeps(fs, own, start, i, s, addr);
      FillFormed(fs, own, start, i, s, addr);
      ghost var table := inodes[..];
      var d := inodes[ip].d;
      if s <= NDIRECT {
        inodes[ip] := inodes[ip].(d := d.(addrs := d.addrs[s := addr]));
      } else {
        blocks[d.addrs[NDIRECT]] := WithWord(blocks[d.addrs[NDIRECT]], s - NDIRECT - 1, addr);
      }
      own := own[addr := (i, s)];
      ViewFilled(table, inodes[..], dinodes[..], old(blocks[..]), blocks[..], old(bits[..]), bits[..], ip, s, addr);
      SameEntry(table, inodes[..], dinodes[..], ip, inodes[ip].d);
      FreeCountSet(old(bits[..]), addr, true);
      FillFilled(fs, old(own), start, i, s, addr);
    }

    /** The block that holds block `bn` of the file, mapped now if it was not. */
    method Bmap(ip: nat, bn0: nat) returns (addr: nat, panic: bool)
      requires Busy(ip)
      modifies bits, blocks, inodes, this`own
      ensures panic <==> bn0 >= MAXFILE || MapCost(old(View(ip)), old(inodes[ip].inum), bn0) > FreeCount(old(bits[..]))
      ensures !panic ==>
        && Busy(ip) && OnlyEntry(ip) && MappedTo(old(View(ip)), View(ip), inodes[ip].inum, bn0, addr)
        && FreeCount(bits[..]) == FreeCount(old(bits[..])) - MapCost(old(View(ip)), inodes[ip].inum, bn0)
        && (MapCost(old(View(ip)), inodes[ip].inum, bn0) == 0 ==> inodes[..] == old(inodes[..]) && own == old(own))
    {
      hide Inv, Ptr, Filled, MappedTo, Coherent;
      ghost var fs, i := View(ip), inodes[ip].inum;
      Formed(fs, own, start);
      var bn := bn0;
      panic := false;
      if bn < NDIRECT {
        DirectIsPtr(fs, i, bn);
        addr := inodes[ip].d.addrs[bn];
        if addr == 0 {
          addr, panic := FillSlot(ip, bn);
          if !panic { MapOne(fs, View(ip), i, bn0, addr); }
        } else {
          MapNothing(fs, own, start, i, bn0);
        }
        return;
      }
      bn := bn - NDIRECT;
      if bn < NINDIRECT {
        DirectIsPtr(fs, i, NDIRECT);
        addr := inodes[ip].d.addrs[NDIRECT];
        ghost var fresh' := addr == 0;
        if addr == 0 {
          NoIndirect(fs, i, SlotOf(bn0));
          addr, panic := FillSlot(ip, NDIRECT);
          if panic { return; }
        }
        ghost var f1, ind := View(ip), addr;
        FilledNow(fs, f1, i, NDIRECT, addr, fresh');
        WordIsPtr(f1, own, start, i, SlotOf(bn0));
        DirectIsPtr(f1, i, NDIRECT);
        addr := Word(blocks[addr], bn);
        if addr == 0 {
          addr, panic := FillSlot(ip, bn + NDIRECT + 1);
          if panic { return; }
          if fresh' {
            MapTwo(fs, f1, View(ip), i, bn0, ind, addr);
          } else {
            MapOne(fs, View(ip), i, bn0, addr);
          }
        } else {
          MapNothing(fs, own, start, i, bn0);
        }
        return;
      }
      addr, panic := 0, true;
    }

    /** The bytes of file `i`. */
    ghost function File(i: nat): seq<u8>
      requires Valid() && i < dinodes.Length
      reads this, inodes, dinodes, blocks, bits
    {
      assert SizedRight(Disk(), i);
      Content(Disk(), i)
    }

    /** Nothing on disk or in core has changed. */
    twostate predicate Same()
      reads this, inodes, dinodes, blocks, bits
    {
      && bits[..] == old(bits[..]) && blocks[..] == old(blocks[..]) && own == old(own)
      && dinodes[..] == old(dinodes[..]) && inodes[..] == old(inodes[..])
    }

    /** The in-core copy goes to disk. */
    method Iupdate(ip: nat)
      requires Open(ip)
      modifies dinodes
      ensures dinodes[..] == old(dinodes[..])[inodes[ip].inum := inodes[ip].d]
    {
      dinodes[inodes[ip].inum] := inodes[ip].d;
    }

    /**
     `src` goes in at `off0`. It fails beyond the end of the file or the largest size, and panics
     when the blocks it needs are not there, or when `off0 + n` wraps round and slips past the check.
     */
    method Writei(ip: nat, src: seq<u8>, off0: u32) returns (r: int, panic: bool)
      requires Valid() && Open(ip) && |src| < TWO32 && inodes[ip].d.kind != T_DEV
      modifies bits, blocks, inodes, dinodes, this`own
      ensures r == -1 <==> off0 > old(inodes[ip].d.size) || (off0 + |src|) % TWO32 > MAXSIZE
      ensures r == -1 ==> !panic && Same() && Valid()
      ensures r != -1 ==>
        (panic <==> off0 + |src| >= TWO32 || Growth(old(inodes[ip].d.size), off0, |src|) > FreeCount(old(bits[..])))
      ensures r != -1 && !panic ==>
        && r == |src| && Valid() && Open(ip) && OnlyEntry(ip)
        && inodes[ip].d == old(inodes[ip].d).(size := Max(old(inodes[ip].d.size), off0 + |src|),
          addrs := inodes[ip].d.addrs)
        && File(inodes[ip].inum) == Splice(old(File(inodes[ip].inum)), off0, src)
        && (forall j :: 0 <= j < dinodes.Length && j != inodes[ip].inum ==>
              File(j) == old(File(j)) && dinodes[j] == old(dinodes[j]))
        && FreeCount(bits[..]) == FreeCount(old(bits[..])) - Growth(old(inodes[ip].d.size), off0, |src|)
    {
      hide Inv, Dense, Ptr, Coherent, Progress, Content, Splice, DataBlocks, BlocksAt, Held, HasSlots, FreeCount,
           WellFormed;
      ghost var i, size := inodes[ip].inum, inodes[ip].d.size;
      StartView(ip);
      ghost var fs0 := View(ip);
      if off0 > inodes[ip].d.size || (off0 + |src|) % TWO32 > MAXFILE * BSIZE { return -1, false; }
      var n := |src|;
      var tot, off := 0, off0;
      ghost var nb0 := DataBlocks(size);
      ProgressStart(fs0, i, size, off0, src);
      NoBytes(nb0, off0);
      while tot < n
        invariant 0 <= tot <= n && off == off0 + tot <= MAXSIZE && Busy(ip) && OnlyEntry(ip)
          && dinodes[..] == old(dinodes[..])
        invariant Progress(fs0, View(ip), i, size, off0, src, tot)
        invariant FreeCount(bits[..]) == FreeCount(old(bits[..])) - (Held(BlocksAt(nb0, off0, tot)) - Held(nb0))
        invariant Held(BlocksAt(nb0, off0, tot)) == Held(nb0) ==> inodes[..] == old(inodes[..])
      {
        var m := Min(n - tot, BSIZE - off % BSIZE);
        BlocksMonotone(nb0, off0, 0, tot);
        BlocksMonotone(nb0, off0, tot, tot + m);
        BlocksMonotone(nb0, off0, tot + m, n);
        panic := WriteRound(ip, src, off, tot, m, fs0, size, off0);
        if panic {
          r := 0;
          return;
        }
        tot, off := tot + m, off + m;
      }
      GrowthIs(size, off0, n);
      ProgressEntry(fs0, View(ip), i, size, off0, src, n);
      assert View(ip).dis[i] == inodes[ip].d;
      Settle(ip, n, off, fs0, size, off0, src);
      r, panic := n, false;
    }

    /** One round of writei: the block at `off` gets its part of `src`. */
    method WriteRound(ip: nat, src: seq<u8>, off: nat, tot: nat, m: nat, ghost fs0: Fs, ghost size: nat,
          ghost off0: nat) returns (panic: bool)
      requires Busy(ip) && Progress(fs0, View(ip), inodes[ip].inum, size, off0, src, tot)
      requires off == off0 + tot && tot < |src| && m == Min(|src| - tot, BSIZE - off % BSIZE)
      modifies bits, blocks, inodes, this`own
      ensures var cost := Held(BlocksAt(DataBlocks(size), off0, tot + m)) - Held(BlocksAt(DataBlocks(size), off0, tot));
        && (panic <==> off / BSIZE >= MAXFILE || cost > FreeCount(old(bits[..])))
        && (!panic ==>
          && Busy(ip) && OnlyEntry(ip) && Progress(fs0, View(ip), inodes[ip].inum, size, off0, src, tot + m)
            && off + m <= MAXSIZE
          && FreeCount(bits[..]) == FreeCount(old(bits[..])) - cost && (cost == 0 ==> inodes[..] == old(inodes[..])))
    {
      hide Inv, Ptr, Coherent, MappedTo, Progress, Data, DataBlocks, BlocksAt, Held, Write, WellFormed;
      ghost var f1, i := View(ip), inodes[ip].inum;
      ProgressCost(fs0, f1, i, size, off0, src, tot, m);
      var addr;
      addr, panic := Bmap(ip, off / BSIZE);
      if panic { return; }
      ghost var f2 := View(ip);
      MappedBlock(f1, f2, own, start, i, off / BSIZE, addr);
      blocks[addr] := Patch(blocks[addr], off % BSIZE, src[tot..tot + m]);
      WriteIs(f2, addr, Patch(f2.blocks[addr], off % BSIZE, src[tot..tot + m]));
      ProgressStep(fs0, f1, f2, View(ip), own, start, i, size, off0, src, tot, m, addr);
      ProgressBound(fs0, View(ip), i, size, off0, src, tot + m);
    }

    /** The end of writei: a longer file gets its size, and the disk the new inode. */
    method Settle(ip: nat, n: nat, off: nat, ghost fs0: Fs, ghost size: nat, ghost off0: nat, ghost src: seq<u8>)
      requires Busy(ip) && n == |src| && off == off0 + n && WellFormed(fs0) && Dense(fs0) && size == inodes[ip].d.size
      requires Progress(fs0, View(ip), inodes[ip].inum, size, off0, src, n)
      requires fs0.dis == dinodes[..] && fs0.dis[inodes[ip].inum].size == size && fs0.dis[inodes[ip].inum].kind != 0
      requires off <= size ==> inodes[ip].d == dinodes[inodes[ip].inum]
      modifies inodes, dinodes
      ensures Valid() && Open(ip) && OnlyEntry(ip) && inodes[ip].d == old(inodes[ip].d).(size := Max(size, off))
      ensures SizedRight(fs0, inodes[ip].inum) && File(inodes[ip].inum) == Splice(Content(fs0, inodes[ip].inum), off0,
        src)
      ensures forall j :: 0 <= j < dinodes.Length && j != inodes[ip].inum ==>
        dinodes[j] == fs0.dis[j] && SizedRight(fs0, j) && File(j) == Content(fs0, j)
    {
      hide Inv, Dense, Ptr, Coherent, Progress, Data, Content, Splice, Byte, SizedRight;
      ghost var i, fs, table := inodes[ip].inum, View(ip), inodes[..];
      AllSized(fs0);
      ProgressEntry(fs0, fs, i, size, off0, src, n);
      assert fs.dis[i] == inodes[ip].d;
      if n > 0 && off > inodes[ip].d.size {
        inodes[ip] := inodes[ip].(d := inodes[ip].d.(size := off));
        Iupdate(ip);
      }
      assert dinodes[..] == fs0.dis[i := inodes[ip].d];
      assert Disk() == fs.(dis := fs.dis[i := fs.dis[i].(size := Max(size, off))]);
      WriteDone(fs0, fs, Disk(), i, off0, src);
      InvSize(fs, Disk(), own, start, i);
      Synced(table, inodes[..], fs0.dis, dinodes[..], ip);
      AllSized(Disk());
    }

    /**
     The bytes from `off0` on, as many of the `n0` as the file has. Nothing is allocated or changed,
     except when `off0 + n0` wraps round: then the length is not clipped, and bmap panics in the end.
     */
    method Readi(ip: nat, off0: u32, n0: u32) returns (r: int, dst: seq<u8>, panic: bool)
      requires Valid() && Open(ip) && inodes[ip].d.kind != T_DEV
      modifies bits, blocks, inodes, this`own
      ensures panic <==> off0 <= old(inodes[ip].d.size) && off0 + n0 >= TWO32
      ensures !panic ==> Same() && Valid() && (r == -1 <==> off0 > inodes[ip].d.size)
      ensures !panic && r != -1 ==>
        r == |dst| == Min(n0, inodes[ip].d.size - off0) && dst == File(inodes[ip].inum)[off0..off0 + r]
    {
      hide Inv, Dense, Ptr, Coherent, MappedTo, Data, Content, HasSlots, ReadSoFar, Byte;
      ghost var i, size := inodes[ip].inum, inodes[ip].d.size;
      StartView(ip);
      ghost var fs0 := View(ip);
      dst := [];
      if off0 > inodes[ip].d.size { return -1, dst, false; }
      var n: nat := n0;
      if (off0 + n) % TWO32 > inodes[ip].d.size { n := inodes[ip].d.size - off0; }
      var tot, off := 0, off0;
      ReadStart(fs0, i, off0);
      while tot < n
        invariant 0 <= tot <= n && off == off0 + tot <= MAXSIZE && |dst| == tot && Busy(ip) && inodes[ip].inum == i
        invariant off0 + n0 < TWO32 ==> Same() && View(ip) == fs0 && ReadSoFar(fs0, i, off0, dst)
      {
        ghost var f1 := View(ip);
        if off0 + n0 < TWO32 { ReadCost(fs0, i, off); }
        var addr;
        addr, panic := Bmap(ip, off / BSIZE);
        if panic { return 0, dst, true; }
        MappedBlock(f1, View(ip), own, start, i, off / BSIZE, addr);
        var m := Min(n - tot, BSIZE - off % BSIZE);
        Room(off, m);
        MapParts(f1, View(ip), i, off / BSIZE, addr);
        if off0 + n0 < TWO32 {
          MapFree(fs0, View(ip), i, off / BSIZE, addr);
          ReadStep(fs0, own, start, i, off0, dst, m, addr);
        }
        dst := dst + blocks[addr][off % BSIZE..off % BSIZE + m];
        tot, off := tot + m, off + m;
      }
      r, panic := n, false;
      if off0 + n0 < TWO32 { ReadDone(fs0, i, off0, dst); }
    }

    /** The blocks of file `ip` are freed, no others, and it is empty. */
    method Itrunc(ip: nat)
      requires Valid() && Open(ip)
      modifies bits, inodes, dinodes, this`own
      ensures Valid() && Open(ip) && OnlyEntry(ip)
      ensures inodes[ip].d == old(inodes[ip].d).(size := 0, addrs := seq(NDIRECT + 1, _ => 0))
      ensures forall j ::
        0 <= j < dinodes.Length && j != inodes[ip].inum ==> File(j) == old(File(j)) && dinodes[j] == old(dinodes[j])
      ensures forall b :: 0 <= b < bits.Length ==>
        (bits[b] <==> old(bits[b]) && !(b in old(own) && old(own)[b].0 == inodes[ip].inum))
    {
      hide Inv, Dense, Ptr, Coherent, Emptied, Content, WellFormed, Empty, CanEmpty, SizedRight;
      ghost var fs0, own0, i := View(ip), own, inodes[ip].inum;
      StartView(ip);
      EmptiedStart(fs0, own0, start, i);
      var k := 0;
      while k < NDIRECT
        invariant k <= NDIRECT && Busy(ip) && OnlyEntry(ip) && dinodes[..] == old(dinodes[..])
          && blocks[..] == fs0.blocks
        invariant Emptied(fs0, own0, View(ip), own, start, i, k)
      {
        FreeDirect(ip, k, fs0, own0);
        k := k + 1;
      }
      FreeIndirect(ip, fs0, own0);
      ghost var fs, table := View(ip), inodes[..];
      inodes[ip] := inodes[ip].(d := inodes[ip].d.(size := 0));
      EmptiedEntry(fs0, own0, fs, own, start, i);
      assert fs.dis[i] == table[ip].d;
      Iupdate(ip);
      assert dinodes[..] == fs0.dis[i := inodes[ip].d];
      assert Disk() == Fs(fs.dis[i := fs.dis[i].(size := 0, kind := Disk().dis[i].kind)], fs.blocks, fs.bits);
      Gone(fs0, own0, fs, own, start, i, Disk());
      Synced(table, inodes[..], fs0.dis, dinodes[..], ip);
      forall b | 0 <= b < bits.Length ensures bits[b] <==> fs0.bits[b] && !(b in own0 && own0[b].0 == i) {
        FreedExactly(fs0, own0, fs, own, start, i, b);
        assert fs.bits[b] == bits[b];
      }
    }

    /** The block in direct slot `k`, if there is one, is freed. */
    method FreeDirect(ip: nat, k: nat, ghost fs0: Fs, ghost own0: Owners)
      requires Busy(ip) && k < NDIRECT && Inv(fs0, own0, start)
        && Emptied(fs0, own0, View(ip), own, start, inodes[ip].inum, k)
      modifies bits, inodes, this`own
      ensures Busy(ip) && OnlyEntry(ip) && Emptied(fs0, own0, View(ip), own, start, inodes[ip].inum, k + 1)
    {
      hide Inv, Ptr, Coherent, Emptied, WellFormed, CanEmpty;
      ghost var fs, i, table := View(ip), inodes[ip].inum, inodes[..];
      Formed(fs, own, start);
      Formed(fs0, own0, start);
      AddrsFormed(fs, i);
      InvOwned(fs0, own0, start);
      DirectIsPtr(fs, i, k);
      assert fs.dis[i] == inodes[ip].d && Order(k) == k;
      var d := inodes[ip].d;
      if d.addrs[k] != 0 {
        EmptiedStep(fs0, own0, fs, own, start, i, k);
        var panic := Bfree(d.addrs[k]);
        assert !panic;
        inodes[ip] := inodes[ip].(d := d.(addrs := d.addrs[k := 0]));
        own := own - {d.addrs[k]};
        assert View(ip) == Empty(fs, i, k);
        EmptiedParts(fs0, own0, View(ip), own, start, i, k + 1);
        SameEntry(table, inodes[..], dinodes[..], ip, inodes[ip].d);
      } else {
        EmptiedSkip(fs0, own0, fs, own, start, i, k);
      }
    }

    /** The blocks the indirect block points to are freed, then that block. */
    method FreeIndirect(ip: nat, ghost fs0: Fs, ghost own0: Owners)
      requires Busy(ip) && Inv(fs0, own0, start) && Emptied(fs0, own0, View(ip), own, start, inodes[ip].inum, NDIRECT)
      modifies bits, inodes, this`own
      ensures Busy(ip) && OnlyEntry(ip) && Emptied(fs0, own0, View(ip), own, start, inodes[ip].inum, NSLOTS)
    {
      hide Inv, Ptr, Coherent, Emptied, WellFormed, Empty, CanEmpty, Word, WithWord, SamePtrs, SameFiles;
      ghost var fs, i, table := View(ip), inodes[ip].inum, inodes[..];
      Formed(fs, own, start);
      Formed(fs0, own0, start);
      AddrsFormed(fs, i);
      InvOwned(fs0, own0, start);
      DirectIsPtr(fs, i, NDIRECT);
      assert fs.dis[i] == inodes[ip].d;
      var ind := inodes[ip].d.addrs[NDIRECT];
      if ind != 0 {
        IndirectOf(fs, own, start, i);
        var a := blocks[ind];
        ghost var vf := fs;   // as if the words were cleared one by one
        var k := 0;
        while k < NINDIRECT
          invariant k <= NINDIRECT && inodes[..] == table && |bits[..]| == |vf.bits| && bits[..] == vf.bits
            && vf.dis == fs.dis
          invariant |vf.blocks| == |fs.blocks| && vf.blocks == fs.blocks[ind := vf.blocks[ind]]
          invariant Emptied(fs0, own0, vf, own, start, i, NDIRECT + k)
        {
          EmptiedParts(fs0, own0, vf, own, start, i, NDIRECT + k);
          WordNow(fs0, own0, fs, old(own), vf, own, start, i, k);
          ghost var t := NDIRECT + 1 + k;
          if Word(a, k) != 0 {
            EmptiedStep(fs0, own0, vf, own, start, i, t);
            EmptyWord(vf, own, start, i, t);
            var panic := Bfree(Word(a, k));
            assert !panic;
            vf, own := Empty(vf, i, t), own - {Ptr(vf, i, t)};
          } else {
            EmptiedSkip(fs0, own0, vf, own, start, i, t);
          }
          k := k + 1;
        }
        EmptiedParts(fs0, own0, vf, own, start, i, NSLOTS - 1);
        DirectIsPtr(vf, i, NDIRECT);
        EmptiedStep(fs0, own0, vf, own, start, i, NDIRECT);
        EmptyDirect(vf, i, NDIRECT);
        var panic := Bfree(ind);
        assert !panic;
        var d := inodes[ip].d;
        assert d == fs.dis[i];
        inodes[ip] := inodes[ip].(d := d.(addrs := d.addrs[NDIRECT := 0]));
        vf, own := Empty(vf, i, NDIRECT), own - {ind};
        EmptiedParts(fs0, own0, vf, own, start, i, NSLOTS);
        assert View(ip) == vf.(blocks := vf.blocks[ind := a]);
        FreeIrrelevant(vf, View(ip), own, start, ind, a);
        Formed(View(ip), own, start);
        EmptiedSame(fs0, own0, vf, View(ip), own, start, i, NSLOTS);
        SameEntry(table, inodes[..], dinodes[..], ip, inodes[ip].d);
      } else {
        SkipWords(fs0, own0, fs, own, start, i);
      }
    }

    /** Every file but `i` is as it was. */
    twostate predicate OthersSame(i: nat)
      requires old(Valid()) && Valid()
      reads this, inodes, dinodes, blocks, bits
    {
      forall j :: 0 <= j < dinodes.Length && j != i ==> File(j) == old(File(j)) && dinodes[j] == old(dinodes[j])
    }

    /**
     A reference is dropped. With the last one, an inode that no name links to goes: its blocks,
     exactly, are freed, and the inode is.
     */
    method Iput(ip: nat)
      requires Valid() && Open(ip)
      modifies bits, inodes, dinodes, this`own
      ensures Valid()
      ensures inodes[..] == old(inodes[..])[ip := Incore(old(inodes[ip].inum), old(inodes[ip].ref) - 1, inodes[ip].d)]
      ensures if old(inodes[ip].ref) == 1 && old(inodes[ip].d.nlink) == 0 then
          && OthersSame(inodes[ip].inum)
          && inodes[ip].d == dinodes[inodes[ip].inum] == old(inodes[ip].d).(kind := 0, size := 0,
            addrs := seq(NDIRECT + 1, _ => 0))
          && (forall b :: 0 <= b < bits.Length ==>
                (bits[b] <==> old(bits[b]) && !(b in old(own) && old(own)[b].0 == inodes[ip].inum)))
        else
          dinodes[..] == old(dinodes[..]) && bits[..] == old(bits[..]) && own == old(own)
            && inodes[ip].d == old(inodes[ip].d)
    {
      hide Inv, Dense, Coherent, Content, WellFormed, SizedRight;
      ghost var table, dis, i := inodes[..], dinodes[..], inodes[ip].inum;
      StartView(ip);
      if inodes[ip].ref == 1 && inodes[ip].d.nlink == 0 {
        Itrunc(ip);
        ghost var mid, fs := inodes[..], Disk();
        StartView(ip);
        inodes[ip] := inodes[ip].(d := inodes[ip].d.(kind := 0));
        Iupdate(ip);
        assert dinodes[..] == fs.dis[i := inodes[ip].d];
        Relabel(fs, Disk(), own, start, i);
        inodes[ip] := inodes[ip].(ref := inodes[ip].ref - 1);
        Dropped(mid, inodes[..], fs.dis, dinodes[..], ip, inodes[ip].d);
      } else {
        inodes[ip] := inodes[ip].(ref := inodes[ip].ref - 1);
        assert dinodes[..] == dis[i := inodes[ip].d];
        Dropped(table, inodes[..], dis, dinodes[..], ip, inodes[ip].d);
      }
    }

    /** The entry for inode `inum`: the one there is, or a new one; it panics when the table is full. */
    method Iget(inum: nat) returns (ip: nat, panic: bool)
      requires Valid() && inum < dinodes.Length && dinodes[inum].kind != 0
      modifies inodes
      ensures panic <==> forall j :: 0 <= j < inodes.Length ==> old(inodes[j].ref) > 0 && old(inodes[j].inum) != inum
      ensures Valid() && (panic ==> inodes[..] == old(inodes[..]))
      ensures !panic ==>
        && Open(ip) && inodes[ip].inum == inum && inodes[ip].d == dinodes[inum]
        && inodes[..] == old(inodes[..])[ip := inodes[ip]]
        && inodes[ip].ref == (if old(inodes[ip].ref) > 0 then old(inodes[ip].ref) + 1 else 1)
        && (old(inodes[ip].ref) > 0 ==> old(inodes[ip].inum) == inum)
        && (old(inodes[ip].ref) == 0 ==>
              forall j :: 0 <= j < inodes.Length && old(inodes[j].ref) > 0 ==> old(inodes[j].inum) != inum)
    {
      hide Inv, Dense, Coherent, Content, WellFormed;
      ghost var table := inodes[..];
      var empty := -1;
      ip := 0;
      while ip < inodes.Length
        invariant 0 <= ip <= inodes.Length && inodes[..] == table
        invariant -1 <= empty < ip && (empty == -1 || inodes[empty].ref == 0)
        invariant forall j :: 0 <= j < ip ==> inodes[j].ref > 0 ==> inodes[j].inum != inum
        invariant empty == -1 ==> forall j :: 0 <= j < ip ==> inodes[j].ref > 0
      {
        if inodes[ip].ref > 0 && inodes[ip].inum == inum {
          InUse(table, dinodes[..], ip);
          inodes[ip] := inodes[ip].(ref := inodes[ip].ref + 1);
          Shared(table, inodes[..], dinodes[..], ip);
          return ip, false;
        }
        if empty == -1 && inodes[ip].ref == 0 { empty := ip; }
        ip := ip + 1;
      }
      if empty == -1 { return 0, true; }
      ip := empty;
      inodes[ip] := Incore(inum, 1, dinodes[inum]);
      Added(table, inodes[..], dinodes[..], ip, inum);
      panic := false;
    }

    /** The first free inode, blank but for its type, and an entry for it. */
    method Ialloc(kind: int) returns (ip: nat, panic: bool)
      requires Valid() && kind != 0
      modifies dinodes, inodes
      ensures panic <==>
        || (forall j :: 1 <= j < dinodes.Length ==> old(dinodes[j].kind) != 0)
        || (forall j :: 0 <= j < inodes.Length ==> old(inodes[j].ref) > 0)
      ensures !panic ==>
        && Valid() && Open(ip) && inodes[ip] == Incore(inodes[ip].inum, 1,
          Dinode(kind, 0, 0, 0, 0, seq(NDIRECT + 1, _ => 0)))
        && 1 <= inodes[ip].inum && old(dinodes[..])[inodes[ip].inum].kind == 0
        && (forall j :: 1 <= j < inodes[ip].inum ==> old(dinodes[j].kind) != 0)
        && inodes[..] == old(inodes[..])[ip := inodes[ip]] && old(inodes[ip].ref) == 0
        && File(inodes[ip].inum) == [] && OthersSame(inodes[ip].inum)
    {
      hide Inv, Dense, Coherent, Content, WellFormed, SizedRight;
      ghost var table, fs := inodes[..], Disk();
      var inum := 1;
      while inum < dinodes.Length
        invariant 1 <= inum && forall j :: 1 <= j < inum && j < dinodes.Length ==> dinodes[j].kind != 0
        invariant inodes[..] == table && dinodes[..] == fs.dis
      {
        if dinodes[inum].kind == 0 {
          Formed(fs, own, start);
          NoSlotsNoAddrs(fs, inum);
          dinodes[inum] := Dinode(kind, 0, 0, 0, 0, seq(NDIRECT + 1, _ => 0));
          Relabel(fs, Disk(), own, start, inum);
          FreeInode(table, fs.dis, inum, dinodes[inum]);
          ip, panic := Iget(inum);
          return;
        }
        inum := inum + 1;
      }
      ip, panic := 0, true;
    }

    lemma StartView(ip: nat)
      requires Valid() && Open(ip)
      ensures View(ip) == Disk() && Busy(ip) && inodes[ip].d == dinodes[inodes[ip].inum] && inodes[ip].d.kind != 0
      ensures WellFormed(View(ip)) && HasSlots(View(ip), inodes[ip].inum, Held(DataBlocks(inodes[ip].d.size)))
        && inodes[ip].d.size <= MAXSIZE
    {
      hide Inv, HasSlots;
      Formed(Disk(), own, start);
      assert SizedRight(Disk(), inodes[ip].inum);
    }
  }

  /** From the second byte of a file on, 2^32 - 1 bytes are asked for: they are not clipped to the file. */
  method ReadWraps(f: FileSystem, ip: nat) returns (panic: bool)
    requires f.Valid() && f.Open(ip) && f.inodes[ip].d.kind != T_DEV && f.inodes[ip].d.size >= 1
    modifies f.bits, f.blocks, f.inodes, f`own
    ensures panic
  {
    var r, dst;
    r, dst, panic := f.Readi(ip, 1, 0xFFFF_FFFF);
  }

  /** As many bytes are to be written there: they are not refused, as they would be from the first byte on. */
  method WriteWraps(f: FileSystem, ip: nat, src: seq<u8>) returns (panic: bool)
    requires f.Valid() && f.Open(ip) && f.inodes[ip].d.kind != T_DEV && f.inodes[ip].d.size >= 1 && |src| == 0xFFFF_FFFF
    modifies f.bits, f.blocks, f.inodes, f.dinodes, f`own
    ensures panic
  {
    var r;
    r, panic := f.Writei(ip, src, 1);
  }
}
