/** dirlookup and dirlink (`fs/inode.c`) on a mounted file system. */
module DirOps {
  import opened Words
  import opened BlockMap
  import opened FileData
  import opened InodeMap
  import opened ReadWrite
  import opened Directory
  import opened Inode

  /** Entry `dp` is open on a directory. */
  ghost predicate IsDir(f: FileSystem, dp: nat)
    reads f, f.inodes, f.dinodes, f.blocks, f.bits
  {
    f.Valid() && f.Open(dp) && f.inodes[dp].d.kind == T_DIR && DirOk(f.File(f.inodes[dp].inum))
  }

  /** What directory `dp` holds. */
  ghost function Dir(f: FileSystem, dp: nat): seq<u8>
    requires IsDir(f, dp)
    reads f, f.inodes, f.dinodes, f.blocks, f.bits
  {
    f.File(f.inodes[dp].inum)
  }

  /** Entry `k` of a directory, read into `de`. */
  method ReadEntry(f: FileSystem, dp: nat, off: nat, ghost k: nat) returns (de: seq<u8>)
    requires IsDir(f, dp) && k < Slots(Dir(f, dp)) && off == DIRENT * k
    modifies f.bits, f.blocks, f.inodes, f`own
    ensures f.Same() && IsDir(f, dp) && Dir(f, dp) == old(Dir(f, dp))
    ensures |de| == DIRENT && de == Dir(f, dp)[off..off + DIRENT]
  {
    hide FileSystem.Valid, DirOk;
    f.StartView(dp);
    ghost var c := Dir(f, dp);
    assert |c| == f.inodes[dp].d.size by { SizeOf(f, dp); }
    var r, panic;
    r, de, panic := f.Readi(dp, off, DIRENT);
  }

  lemma SizeOf(f: FileSystem, dp: nat)
    requires f.Valid() && f.Open(dp)
    ensures |f.File(f.inodes[dp].inum)| == f.inodes[dp].d.size <= MAXSIZE
  {
    f.StartView(dp);
  }

  lemma EntryBytes(c: seq<u8>, k: nat, de: seq<u8>)
    requires k < Slots(c) && |c| % DIRENT == 0 && de == c[DIRENT * k..DIRENT * k + DIRENT]
    ensures Inum(c, k) == de[0] as int + 0x100 * de[1] as int + 0x1_0000 * de[2] as int + 0x100_0000 * de[3] as int
    ensures Name(c, k) == de[4..]
  {
  }

  function EntryInum(de: seq<u8>): u32
    requires |de| == DIRENT
  {
    de[0] as int + 0x100 * de[1] as int + 0x1_0000 * de[2] as int + 0x100_0000 * de[3] as int
  }

  lemma EntryInumIs(c: seq<u8>, k: nat, de: seq<u8>)
    requires k < Slots(c) && |c| % DIRENT == 0 && de == c[DIRENT * k..DIRENT * k + DIRENT]
    ensures EntryInum(de) == Inum(c, k) && de[4..] == Name(c, k)
  {
    EntryBytes(c, k, de);
  }

  lemma SlotAt(c: seq<u8>, k: nat)
    requires |c| % DIRENT == 0
    ensures k < Slots(c) <==> DIRENT * k < |c|
    ensures k <= Slots(c) <==> DIRENT * k <= |c|
  {
  }

  lemma FoundName(c: seq<u8>, k: nat, name: seq<u8>)
    requires DirOk(c) && k < Slots(c) && Inum(c, k) != 0 && Key(name) == Key(Name(c, k))
    ensures Names1(c, k, Key(name)) && Key(name) in DirMap(c) && DirMap(c)[Key(name)] == Inum(c, k)
  {
    hide DirOk, Inum, Name, Key;
    assert Names1(c, k, Key(name));
    NamesHas(c, Slots(c), Key(name));
  }

  lemma NotName(c: seq<u8>, k: nat, name: seq<u8>)
    requires k < Slots(c) && (Inum(c, k) == 0 || Key(name) != Key(Name(c, k)))
    ensures !Names1(c, k, Key(name))
  {
  }

  lemma WholeEntries(c: seq<u8>)
    requires DirOk(c)
    ensures |c| % DIRENT == 0
  {
  }

  /** dirlookup's search: the entry for `name`, and 0 exactly when the directory has no such name. */
  method Find(f: FileSystem, dp: nat, name: seq<u8>) returns (off: nat, inum: nat, ghost k: nat)
    requires IsDir(f, dp) && |name| == NAMELEN
    modifies f.bits, f.blocks, f.inodes, f`own
    ensures f.Same() && IsDir(f, dp) && Dir(f, dp) == old(Dir(f, dp))
    ensures inum == 0 <==> Key(name) !in DirMap(Dir(f, dp))
    ensures inum != 0 ==>
      && k < Slots(Dir(f, dp)) && off == DIRENT * k && Names1(Dir(f, dp), k, Key(name))
      && inum == Inum(Dir(f, dp), k) == DirMap(Dir(f, dp))[Key(name)]
  {
    hide FileSystem.Valid, Inum, Name, Key, Names, DirOk, EntryInum, Slots, Names1;
    ghost var c := Dir(f, dp);
    assert |c| == f.inodes[dp].d.size && |c| % DIRENT == 0 by { SizeOf(f, dp); WholeEntries(c); }
    off, inum, k := 0, 0, 0;
    while off < f.inodes[dp].d.size
      invariant f.Same() && IsDir(f, dp) && Dir(f, dp) == c && off == DIRENT * k
      invariant k <= Slots(c) && forall j :: 0 <= j < k ==> !Names1(c, j, Key(name))
    {
      SlotAt(c, k);
      var de := ReadEntry(f, dp, off, k);
      EntryInumIs(c, k, de);
      if EntryInum(de) != 0 && Key(name) == Key(de[4..]) {
        inum := EntryInum(de);
        FoundName(c, k, name);
        return;
      }
      NotName(c, k, name);
      off, k := off + DIRENT, k + 1;
    }
    SlotAt(c, k);
    inum := 0;
    NamesHas(c, Slots(c), Key(name));
  }

  /** Some reference to inode `i` is held. */
  ghost predicate InTable(table: seq<Incore>, i: nat) {
    exists j :: 0 <= j < |table| && table[j].ref > 0 && table[j].inum == i
  }

  /** No entry of the table is free. */
  ghost predicate Full(table: seq<Incore>) {
    forall j :: 0 <= j < |table| ==> table[j].ref > 0
  }

  /** Inode `i` is in use, and linked or held in core: no dropped reference will free it. */
  ghost predicate Stays(table: seq<Incore>, dis: seq<Dinode>, i: nat) {
    && i < |dis| && dis[i].kind != 0
    && (dis[i].nlink >= 1 || InTable(table, i))
  }

  /** The names of a directory stand for inodes that stay. */
  ghost predicate Linked(table: seq<Incore>, dis: seq<Dinode>, c: seq<u8>) {
    forall key :: key in DirMap(c) ==> Stays(table, dis, DirMap(c)[key])
  }

  /** An entry of the in-core table for the inode of that name, and where the directory has it. */
  method Dirlookup(f: FileSystem, dp: nat, name: seq<u8>) returns (ip: int, off: nat, ghost k: nat, panic: bool)
    requires IsDir(f, dp) && |name| == NAMELEN && Linked(f.inodes[..], f.dinodes[..], Dir(f, dp))
    modifies f.bits, f.blocks, f.inodes, f`own
    ensures f.bits[..] == old(f.bits[..]) && f.blocks[..] == old(f.blocks[..]) && f.own == old(f.own)
      && f.dinodes[..] == old(f.dinodes[..])
    ensures IsDir(f, dp) && Dir(f, dp) == old(Dir(f, dp))
    ensures ip == -1 || panic ==> f.inodes[..] == old(f.inodes[..])
    ensures !panic ==> (ip == -1 <==> Key(name) !in DirMap(Dir(f, dp)))
    ensures panic ==> Key(name) in DirMap(Dir(f, dp))
    ensures Key(name) in DirMap(Dir(f, dp)) ==>
      (panic <==> Full(old(f.inodes[..])) && !InTable(old(f.inodes[..]), DirMap(Dir(f, dp))[Key(name)]))
    ensures !panic && ip != -1 ==>
      && ip >= 0 && f.Open(ip) && f.inodes[ip].inum == DirMap(Dir(f, dp))[Key(name)]
      && f.inodes[..] == old(f.inodes[..])[ip := f.inodes[ip]]
      && (f.inodes[ip].ref >= 2 <==> InTable(old(f.inodes[..]), f.inodes[ip].inum))
      && f.inodes[ip].ref == old(f.inodes[ip].ref) + 1 && (old(f.inodes[ip].ref) == 0 ==> f.inodes[ip].d.nlink >= 1)
      && (old(f.inodes[ip].ref) > 0 ==> f.inodes[ip].(ref := old(f.inodes[ip].ref)) == old(f.inodes[ip]))
      && k < Slots(Dir(f, dp)) && off == DIRENT * k && Names1(Dir(f, dp), k, Key(name))
      && Inum(Dir(f, dp), k) == f.inodes[ip].inum
  {
    hide Inum, Name, Key, Names;
    ghost var c := Dir(f, dp);
    var inum;
    off, inum, k := Find(f, dp, name);
    if inum == 0 { return -1, off, k, false; }
    LinkedKey(f.inodes[..], f.dinodes[..], c, Key(name));
    ghost var table := f.inodes[..];
    ip, panic := f.Iget(inum);
    assert !panic && old(f.inodes[ip].ref) > 0 ==> table[ip].ref > 0 && table[ip].inum == inum;
  }

  /** dirlink's search for a place: the first free entry, or the end; `de` is what was read last. */
  method FreeEntry(f: FileSystem, dp: nat, junk: seq<u8>) returns (off: nat, de: seq<u8>, ghost k: nat)
    requires IsDir(f, dp) && |junk| == DIRENT
    modifies f.bits, f.blocks, f.inodes, f`own
    ensures f.Same() && IsDir(f, dp) && Dir(f, dp) == old(Dir(f, dp))
    ensures k <= Slots(Dir(f, dp)) && off == DIRENT * k && |de| == DIRENT
    ensures k < Slots(Dir(f, dp)) ==> Inum(Dir(f, dp), k) == 0
    ensures forall j :: 0 <= j < k ==> Inum(Dir(f, dp), j) != 0
  {
    hide FileSystem.Valid, Inum, Name, DirOk, EntryInum, Slots;
    ghost var c := Dir(f, dp);
    assert |c| == f.inodes[dp].d.size && |c| % DIRENT == 0 by { SizeOf(f, dp); WholeEntries(c); }
    off, k, de := 0, 0, junk;
    while off < f.inodes[dp].d.size
      invariant f.Same() && IsDir(f, dp) && Dir(f, dp) == c && off == DIRENT * k && |de| == DIRENT && k <= Slots(c)
      invariant forall j :: 0 <= j < k ==> Inum(c, j) != 0
    {
      SlotAt(c, k);
      de := ReadEntry(f, dp, off, k);
      EntryInumIs(c, k, de);
      if EntryInum(de) == 0 { break; }
      off, k := off + DIRENT, k + 1;
      SlotAt(c, k);
    }
    SlotAt(c, k);
  }

  /** All of an inode but its size and its blocks. */
  predicate SameMeta(d: Dinode, d': Dinode) { d' == d.(size := d'.size, addrs := d'.addrs) }

  /** One entry written: on success that entry of the directory is `e`, and no other file has changed. */
  method WriteEntry(f: FileSystem, dp: nat, off: nat, e: seq<u8>, ghost k: nat) returns (panic: bool)
    requires IsDir(f, dp) && |e| == DIRENT && off == DIRENT * k && k <= Slots(Dir(f, dp))
    modifies f.bits, f.blocks, f.inodes, f.dinodes, f`own
    ensures panic <==>
      || off + DIRENT > MAXSIZE
      || Growth(|old(Dir(f, dp))|, off, DIRENT) > FreeCount(old(f.bits[..]))
    ensures !panic ==>
      && f.Valid() && f.Open(dp) && f.OnlyEntry(dp) && f.inodes[dp].d.kind == T_DIR
        && SameMeta(old(f.inodes[dp].d), f.inodes[dp].d)
      && PutEntry(old(Dir(f, dp)), f.File(f.inodes[dp].inum), k, e) && f.OthersSame(f.inodes[dp].inum)
      && FreeCount(f.bits[..]) == FreeCount(old(f.bits[..])) - Growth(|old(Dir(f, dp))|, off, DIRENT)
  {
    hide FileSystem.Valid, Inum, Name, Key, Names, Splice, DirOk, Growth, FreeCount;
    SizeOf(f, dp);
    WholeEntries(Dir(f, dp));
    var r;
    r, panic := f.Writei(dp, e, off);
    if r != DIRENT { panic := true; }
  }

  // When dirlink panics

  /** Every entry of the directory is in use. */
  ghost predicate AllUsed(c: seq<u8>) { forall j :: 0 <= j < Slots(c) ==> Inum(c, j) != 0 }

  /** The blocks that one more entry takes. */
  ghost function EntryGrowth(c: seq<u8>): int { if AllUsed(c) then Growth(|c|, |c|, DIRENT) else 0 }

  /** There is no room for an entry more: not in the file, or not on the disk. */
  ghost predicate Crowded(c: seq<u8>, free: int) {
    AllUsed(c) && (|c| + DIRENT > MAXSIZE || EntryGrowth(c) > free)
  }

  /** The inode of a name that is there may find no entry in the table; for a new name there may be no room. */
  ghost predicate LinkPanics(table: seq<Incore>, c: seq<u8>, key: seq<u8>, free: int) {
    if key in DirMap(c) then Full(table) && !InTable(table, DirMap(c)[key]) else Crowded(c, free)
  }

  /** What the search for a place means for the write. */
  lemma PlaceCost(c: seq<u8>, k: nat, free: nat)
    requires |c| % DIRENT == 0 && |c| <= MAXSIZE && k <= Slots(c) && (k < Slots(c) ==> Inum(c, k) == 0)
    requires forall j :: 0 <= j < k ==> Inum(c, j) != 0
    ensures Growth(|c|, DIRENT * k, DIRENT) == EntryGrowth(c)
    ensures Crowded(c, free) <==> DIRENT * k + DIRENT > MAXSIZE || Growth(|c|, DIRENT * k, DIRENT) > free
  {
    hide Inum;
    SlotAt(c, k);
    if k < Slots(c) {
      SlotAt(c, k + 1);
      NoGrowthInside(|c|, DIRENT * k, DIRENT);
    }
  }

  lemma NoGrowthInside(size: nat, off: nat, n: nat)
    requires off + n <= size
    ensures Growth(size, off, n) == 0
  {
  }

  /** A name the directory does not have is put in for inode `inum`; one it has is refused. */
  method Dirlink(f: FileSystem, dp: nat, name: seq<u8>, inum: u32, junk: seq<u8>) returns (r: int, panic: bool)
    requires IsDir(f, dp) && |name| == NAMELEN && |junk| == DIRENT && inum != 0
      && Linked(f.inodes[..], f.dinodes[..], Dir(f, dp))
    modifies f.bits, f.blocks, f.inodes, f.dinodes, f`own
    ensures panic <==> LinkPanics(old(f.inodes[..]), old(Dir(f, dp)), Key(name), FreeCount(old(f.bits[..])))
    ensures !panic && r == 0 ==> FreeCount(f.bits[..]) == FreeCount(old(f.bits[..])) - EntryGrowth(old(Dir(f, dp)))
    ensures !panic && r == -1 ==> f.bits[..] == old(f.bits[..])
    ensures !panic ==>
      && IsDir(f, dp) && f.inodes[dp].inum == old(f.inodes[dp].inum) && f.OthersSame(f.inodes[dp].inum)
      && f.inodes[dp].ref == old(f.inodes[dp].ref) && SameMeta(old(f.inodes[dp].d), f.inodes[dp].d)
      && FreeCount(f.bits[..]) >= FreeCount(old(f.bits[..])) - 2
    ensures !panic ==> forall j :: 0 <= j < f.inodes.Length ==>
      f.inodes[j].ref == old(f.inodes[j].ref) && (j != dp && f.inodes[j].ref > 0 ==> f.inodes[j] == old(f.inodes[j]))
    ensures !panic ==> r == if Key(name) in DirMap(old(Dir(f, dp))) then -1 else 0
    ensures !panic && r == -1 ==> Dir(f, dp) == old(Dir(f, dp)) && f.dinodes[..] == old(f.dinodes[..])
    ensures !panic && r == 0 ==>
      && DirMap(Dir(f, dp)) == DirMap(old(Dir(f, dp)))[Key(name) := inum] && |Dir(f, dp)| <= |old(Dir(f, dp))| + DIRENT
      && exists k, e :: PutEntry(old(Dir(f, dp)), Dir(f, dp), k, e) && PutsFree(old(Dir(f, dp)), k, e, inum)
  {
    hide FileSystem.Valid, Inum, Name, Key, Names, DirOk, Slots, Growth, FreeCount, Names1, InTable, Stays, InumBytes,
         Strncpy, Crowded, EntryGrowth, Full;
    SizeOf(f, dp);
    ghost var c, k := Dir(f, dp), 0;
    var ip, off;
    ip, off, k, panic := Dirlookup(f, dp, name);
    r := -1;
    if panic { return; }
    if ip != -1 {
      f.StartView(ip);
      f.Iput(ip);
      return;
    }
    var de;
    off, de, k := FreeEntry(f, dp, junk);
    var e := InumBytes(inum) + Strncpy(de[4..], name);
    StrncpyKey(de[4..], name);
    assert |e| == DIRENT && e[4..] == Strncpy(de[4..], name) && e[..4] == InumBytes(inum);
    WholeEntries(c);
    SlotAt(c, k);
    GrowthSmall(|c|, off, DIRENT);
    PlaceCost(c, k, FreeCount(f.bits[..]));
    panic := WriteEntry(f, dp, off, e, k);
    if panic { return; }
    DirPut(c, f.File(f.inodes[dp].inum), k, e, inum, name);
    assert PutsFree(c, k, e, inum);
    r := 0;
  }

  /** Entry `k` was free or past the end, and `e` names inode `inum`. */
  ghost predicate PutsFree(c: seq<u8>, k: nat, e: seq<u8>, inum: u32) {
    k <= Slots(c) && (k < Slots(c) ==> Inum(c, k) == 0) && |e| == DIRENT && e[..4] == InumBytes(inum)
  }

  lemma LinkedKey(table: seq<Incore>, dis: seq<Dinode>, c: seq<u8>, key: seq<u8>)
    requires Linked(table, dis, c) && key in DirMap(c)
    ensures Stays(table, dis, DirMap(c)[key])
  {
  }

  /** A write of no more than a block's length takes two new blocks at most: one of data, and the indirect one. */
  lemma GrowthSmall(size: nat, off: nat, n: nat)
    requires off <= size && n <= BSIZE
    ensures Growth(size, off, n) <= 2
  {
    assert DataBlocks(off + n) <= DataBlocks(size) + 1;
  }
}
