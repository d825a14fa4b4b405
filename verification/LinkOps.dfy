/** link and unlink (`fs/do_fs.c`), after their paths have been walked. */
module LinkOps {
  import opened Words
  import opened BlockMap
  import opened FileData
  import opened InodeMap
  import ReadWrite
  import opened Directory
  import opened Inode
  import opened DirOps
  import opened Links

  lemma SameDirs(f: FileSystem, dirs: seq<seq<u8>>)
    requires f.Valid() && |dirs| == f.dinodes.Length
    requires forall d :: 0 <= d < |dirs| ==> dirs[d] == if f.dinodes[d].kind == T_DIR then f.File(d) else []
    ensures Dirs(f) == dirs
  {
  }

  /**
   It is linked, or somebody else holds a reference: what nameiparent returns is a directory with a link, or it is
   held as a current directory too.
   */
  predicate Spare(e: Incore) { e.d.nlink >= 1 || e.ref >= 2 }

  /**
   What becomes of the references to the entries of the in-core table: one more on `taken`, one less on `given` and
   on `other`; -1 stands for none. An entry that is held all along stays the same inode's.
   */
  ghost predicate RefsMoved(table: seq<Incore>, table': seq<Incore>, taken: int, given: int, other: int) {
    |table'| == |table| && forall j :: 0 <= j < |table| ==>
      && table'[j].ref == table[j].ref + (if j == taken then 1 else 0)
                          - (if j == given then 1 else 0) - (if j == other then 1 else 0)
      && (table[j].ref > 0 && table'[j].ref > 0 ==> table'[j].inum == table[j].inum)
  }

  /** One reference given back after that. */
  lemma RefsMovedThen(t0: seq<Incore>, t1: seq<Incore>, t2: seq<Incore>, taken: int, given: int, ip: int)
    requires RefsMoved(t0, t1, taken, given, -1) && RefsMoved(t1, t2, -1, ip, -1)
    ensures if ip == taken then RefsMoved(t0, t2, -1, given, -1) else RefsMoved(t0, t2, taken, given, ip)
  {
  }

  lemma RefsSwap(table: seq<Incore>, table': seq<Incore>, taken: int, given: int, other: int)
    requires RefsMoved(table, table', taken, given, other)
    ensures RefsMoved(table, table', taken, other, given)
  {
  }

  lemma RefsKept(table: seq<Incore>, table': seq<Incore>, ip: nat)
    requires ip < |table| == |table'| && table' == table[ip := table[ip].(d := table'[ip].d)]
    ensures RefsMoved(table, table', -1, -1, -1)
  {
  }

  lemma RefsMovedSame(t0: seq<Incore>, t1: seq<Incore>, t2: seq<Incore>, taken: int, given: int, other: int)
    requires RefsMoved(t0, t1, taken, given, other) && RefsMoved(t1, t2, -1, -1, -1)
    ensures RefsMoved(t0, t2, taken, given, other)
  {
  }

  /** A reference to an inode that is linked, or is not the last one, goes; nothing else changes. */
  method DropRef(f: FileSystem, ip: nat)
    requires LinksOk(f) && f.Open(ip) && Spare(f.inodes[ip])
    modifies f.bits, f.inodes, f.dinodes, f`own
    ensures LinksOk(f) && f.inodes[..] == old(f.inodes[..])[ip := old(f.inodes[ip]).(ref := old(f.inodes[ip].ref) - 1)]
    ensures f.bits[..] == old(f.bits[..]) && f.dinodes[..] == old(f.dinodes[..]) && Dirs(f) == old(Dirs(f))
      && Files(f) == old(Files(f))
    ensures RefsMoved(old(f.inodes[..]), f.inodes[..], -1, ip, -1)
  {
    hide FileSystem.Valid, Counted, DirOk, Linked;
    ghost var table, dis, dirs := f.inodes[..], f.dinodes[..], Dirs(f);
    f.StartView(ip);
    f.Iput(ip);
    SameDirs(f, dirs);
    RefLess(table, f.inodes[..], dis, ip);
    NamesKeep(table, dis, f.inodes[..], f.dinodes[..], dirs);
  }

  /** More links, or fewer but still as many as names and not none. */
  method Relinked(f: FileSystem, ip: nat, n: int, major: int, minor: int)
    requires LinksOk(f) && f.Open(ip) && n >= 1
    requires f.inodes[ip].d.kind != T_DIR ==> n >= NameCount(Dirs(f), f.inodes[ip].inum)
    modifies f.inodes, f.dinodes
    ensures LinksOk(f) && f.Open(ip) && f.OnlyEntry(ip)
      && f.inodes[ip].d == old(f.inodes[ip].d).(nlink := n, major := major, minor := minor)
    ensures f.dinodes[..] == old(f.dinodes[..])[f.inodes[ip].inum := f.inodes[ip].d] && Dirs(f) == old(Dirs(f))
      && Files(f) == old(Files(f))
    ensures RefsMoved(old(f.inodes[..]), f.inodes[..], -1, -1, -1)
  {
    hide FileSystem.Valid, DirOk, Linked, NameCount, RefsMoved;
    ghost var table, dis, dirs, i := f.inodes[..], f.dinodes[..], Dirs(f), f.inodes[ip].inum;
    f.StartView(ip);
    SetAttrs(f, ip, n, major, minor);
    SameDirs(f, dirs);
    RefsKept(table, f.inodes[..], ip);
    LinksSet(table, f.inodes[..], dis, f.dinodes[..], ip);
    NamesKeep(table, dis, f.inodes[..], f.dinodes[..], dirs);
  }

  lemma LinksSet(table: seq<Incore>, table': seq<Incore>, dis: seq<Dinode>, dis': seq<Dinode>, ip: nat)
    requires ip < |table| && |table'| == |table| && table[ip].inum < |dis|
    requires table' == table[ip := table[ip].(d := table'[ip].d)] && dis' == dis[table[ip].inum := table'[ip].d]
    requires table'[ip].d.nlink >= 1 && table'[ip].d.kind == dis[table[ip].inum].kind
    ensures StaysKept(table, dis, table', dis')
  {
    forall i: nat | Stays(table, dis, i) ensures Stays(table', dis', i) {
      if dis[i].nlink < 1 {
        var j :| 0 <= j < |table| && table[j].ref > 0 && table[j].inum == i;
        assert table'[j].ref > 0 && table'[j].inum == i;
      }
    }
  }

  /**
   The inode at `ip` gets another name, in directory `dp` (what nameiparent has found; -1 for none,
   or for a target that is a directory, where it is not reached).
   */
  method DoLink(f: FileSystem, ip: nat, dp: int, name: seq<u8>, junk: seq<u8>) returns (r: int, panic: bool)
    requires LinksOk(f) && f.Open(ip) && 0 < f.inodes[ip].inum < 0x1_0000_0000
    requires if f.inodes[ip].d.kind == T_DIR then Spare(f.inodes[ip]) else f.inodes[ip].d.nlink >= 1
    requires |name| == NAMELEN && |junk| == DIRENT && (f.inodes[ip].d.kind == T_DIR ==> dp == -1)
    requires dp != -1 ==> dp >= 0 && f.Open(dp) && f.inodes[dp].d.kind == T_DIR && Spare(f.inodes[dp])
    modifies f.bits, f.blocks, f.inodes, f.dinodes, f`own
    ensures !panic ==> LinksOk(f)
    ensures dp == -1 ==> !panic
    ensures dp != -1 ==>
      (panic <==> LinkPanics(old(f.inodes[..]), old(f.File(f.inodes[dp].inum)), Key(name), FreeCount(old(f.bits[..]))))
    ensures !panic ==> r == if dp == -1 || Key(name) in DirMap(old(f.File(f.inodes[dp].inum))) then -1 else 0
    ensures !panic && r == -1 ==> f.dinodes[..] == old(f.dinodes[..]) && Files(f) == old(Files(f))
    ensures !panic && r == 0 ==>
      var i, d := old(f.inodes[ip].inum), old(f.inodes[dp].inum);
      && DirMap(f.File(d)) == DirMap(old(f.File(d)))[Key(name) := i] && Files(f) == old(Files(f))[d := f.File(d)]
      && f.dinodes[..] == old(f.dinodes[..])[i := old(f.dinodes[..])[i].(nlink := old(f.dinodes[..])[i].nlink + 1)]
                                            [d := f.dinodes[d]]
    ensures !panic ==> RefsMoved(old(f.inodes[..]), f.inodes[..], -1, dp, ip)
  {
    hide FileSystem.Valid, DirOk, Linked, NameCount, Counted, StaysKept, Names, Key, NamesOk, OnlyFile, LinkPanics,
         SameMeta, FreeCount, RefsMoved;
    ghost var table, dis, files, i := f.inodes[..], f.dinodes[..], Files(f), f.inodes[ip].inum;
    f.StartView(ip);
    panic := false;
    if f.inodes[ip].d.kind == T_DIR {
      DropRef(f, ip);
      RefsSwap(table, f.inodes[..], -1, ip, -1);
      return -1, false;
    }
    CountedAt(f, f.inodes[ip].inum);
    Relinked(f, ip, f.inodes[ip].d.nlink + 1, f.inodes[ip].d.major, f.inodes[ip].d.minor);
    ghost var t1 := f.inodes[..];
    if dp != -1 {
      assert dp != ip;
      ghost var d := f.inodes[dp].inum;
      SameTable(table, f.inodes[..], f.File(d), Key(name), FreeCount(f.bits[..]));
      ghost var x := f.inodes[ip].d;
      r, panic := NameIn(f, ip, dp, name, junk);
      if panic { return; }
      LinkRefs(table, t1, f.inodes[..], dp);
      t1 := f.inodes[..];
      if r == 0 {
        Linked2(dis, files, x, f.dinodes[..], Files(f), i, d);
        DropRef(f, ip);
        RefsMovedThen(table, t1, f.inodes[..], -1, dp, ip);
        return;
      }
    }
    ghost var dis1 := f.dinodes[..];
    Relinked(f, ip, f.inodes[ip].d.nlink - 1, f.inodes[ip].d.major, f.inodes[ip].d.minor);
    Restored(dis, dis1, f.dinodes[..], i);
    RefsMovedSame(table, t1, f.inodes[..], -1, dp, -1);
    t1 := f.inodes[..];
    DropRef(f, ip);
    RefsMovedThen(table, t1, f.inodes[..], -1, dp, ip);
    r := -1;
  }

  lemma LinkRefs(table: seq<Incore>, t1: seq<Incore>, t2: seq<Incore>, dp: int)
    requires RefsMoved(table, t1, -1, -1, -1) && RefsMoved(t1, t2, -1, dp, -1)
    ensures RefsMoved(table, t2, -1, dp, -1)
  {
  }

  /** What dirlink does depends on which inodes are in the table only. */
  lemma SameTable(table: seq<Incore>, table': seq<Incore>, c: seq<u8>, key: seq<u8>, free: int)
    requires |table'| == |table|
    requires forall j :: 0 <= j < |table| ==> table'[j].ref == table[j].ref && table'[j].inum == table[j].inum
    ensures LinkPanics(table', c, key, free) <==> LinkPanics(table, c, key, free)
  {
    hide Crowded;
    if key in DirMap(c) {
      var i := DirMap(c)[key];
      if InTable(table, i) {
        var j: nat :| j < |table| && table[j].ref > 0 && table[j].inum == i;
        assert table'[j].ref > 0 && table'[j].inum == i;
      }
      if InTable(table', i) {
        var j: nat :| j < |table'| && table'[j].ref > 0 && table'[j].inum == i;
        assert table[j].ref > 0 && table[j].inum == i;
      }
    }
  }

  lemma Restored(dis: seq<Dinode>, dis1: seq<Dinode>, dis2: seq<Dinode>, i: nat)
    requires i < |dis| == |dis1| == |dis2| && dis1 == dis[i := dis1[i]] && dis2 == dis1[i := dis[i]]
    ensures dis2 == dis
  {
  }

  lemma CountedAt(f: FileSystem, i: nat)
    requires LinksOk(f) && 0 < i < f.dinodes.Length && f.dinodes[i].kind != 0 && f.dinodes[i].kind != T_DIR
    ensures NameCount(Dirs(f), i) <= f.dinodes[i].nlink
  {
  }

  /** Only inode `d`, and what it holds, may differ. */
  predicate OnlyFile(dis: seq<Dinode>, files: seq<seq<u8>>, dis': seq<Dinode>, files': seq<seq<u8>>, d: nat) {
    && d < |dis| == |files| == |dis'| == |files'|
    && dis' == dis[d := dis'[d]] && files' == files[d := files'[d]]
  }

  lemma OnlyOne(f: FileSystem, dis: seq<Dinode>, files: seq<seq<u8>>, d: nat)
    requires f.Valid() && d < f.dinodes.Length == |dis| == |files|
    requires forall j :: 0 <= j < |dis| && j != d ==> f.dinodes[j] == dis[j] && f.File(j) == files[j]
    ensures OnlyFile(dis, files, f.dinodes[..], Files(f), d)
  {
  }

  /** First the link count of `i`, then the entry in `d`. */
  lemma Linked2(dis: seq<Dinode>, files: seq<seq<u8>>, x: Dinode, dis': seq<Dinode>, files': seq<seq<u8>>, i: nat,
        d: nat)
    requires i < |dis| && i != d && OnlyFile(dis[i := x], files, dis', files', d)
    ensures |dis'| == |files'| == |files| == |dis| > d && dis' == dis[i := x][d := dis'[d]]
      && files' == files[d := files'[d]]
  {
  }

  /** dirlink for an inode that has a link to spare. */
  method AddName(f: FileSystem, dp: nat, name: seq<u8>, inum: u32, junk: seq<u8>) returns (r: int, panic: bool)
    requires LinksOk(f) && f.Open(dp) && f.inodes[dp].d.kind == T_DIR && |name| == NAMELEN && |junk| == DIRENT
    requires 0 < inum < f.dinodes.Length && f.dinodes[inum].kind != 0 && f.dinodes[inum].nlink >= 1
    requires f.dinodes[inum].kind != T_DIR ==> f.dinodes[inum].nlink > NameCount(Dirs(f), inum)
    modifies f.bits, f.blocks, f.inodes, f.dinodes, f`own
    ensures panic <==>
      LinkPanics(old(f.inodes[..]), old(f.File(f.inodes[dp].inum)), Key(name), FreeCount(old(f.bits[..])))
    ensures !panic ==> LinksOk(f) && f.Open(dp)
    ensures !panic && r == 0 ==>
      FreeCount(f.bits[..]) == FreeCount(old(f.bits[..])) - EntryGrowth(old(f.File(f.inodes[dp].inum)))
    ensures !panic ==> OnlyFile(old(f.dinodes[..]), old(Files(f)), f.dinodes[..], Files(f), f.inodes[dp].inum)
    ensures !panic ==> forall j :: 0 <= j < f.inodes.Length ==>
      f.inodes[j].ref == old(f.inodes[j].ref) && (j != dp && f.inodes[j].ref > 0 ==> f.inodes[j] == old(f.inodes[j]))
    ensures !panic ==> f.inodes[dp].inum == old(f.inodes[dp].inum) && SameMeta(old(f.inodes[dp].d), f.inodes[dp].d)
    ensures !panic ==> f.inodes[dp].d.kind == T_DIR && f.inodes[dp].d.nlink == old(f.inodes[dp].d.nlink)
    ensures !panic ==> r == if Key(name) in DirMap(old(f.File(f.inodes[dp].inum))) then -1 else 0
    ensures !panic && r == -1 ==>
      Files(f) == old(Files(f)) && f.dinodes[..] == old(f.dinodes[..]) && Dirs(f) == old(Dirs(f))
    ensures !panic && r == 0 ==>
      && DirMap(f.File(f.inodes[dp].inum)) == DirMap(old(f.File(f.inodes[dp].inum)))[Key(name) := inum]
      && |f.File(f.inodes[dp].inum)| <= |old(f.File(f.inodes[dp].inum))| + DIRENT
    ensures !panic ==> RefsMoved(old(f.inodes[..]), f.inodes[..], -1, -1, -1)
  {
    hide FileSystem.Valid, Inum, Name, Key, Names, DirOk, Linked, NameCount, Counted, PutEntry, NamesOk, OnlyFile,
         PutsFree, LinkPanics, EntryGrowth, FreeCount, StaysKept;
    DirOf(f, dp);
    ghost var table, dis, dirs, files, d := f.inodes[..], f.dinodes[..], Dirs(f), Files(f), f.inodes[dp].inum;
    f.StartView(dp);
    r, panic := Dirlink(f, dp, name, inum, junk);
    if panic { return; }
    f.StartView(dp);
    assert f.dinodes[d].kind == dis[d].kind && f.dinodes[d].nlink == dis[d].nlink;
    OnlyOne(f, dis, files, d);
    TableKept(table, f.inodes[..], dis, f.dinodes[..], dp);
    if r == -1 {
      SameDirs(f, dirs);
      assert Files(f) == files;
      assert Counted(dirs, f.dinodes[..]) by { NamesCounted(table, dis, dirs); }
      NamesKeep(table, dis, f.inodes[..], f.dinodes[..], dirs);
    } else {
      ghost var c' := f.File(d);
      ghost var k, e :| PutEntry(dirs[d], c', k, e) && PutsFree(dirs[d], k, e, inum);
      AddedName(table, dis, f.inodes[..], f.dinodes[..], dirs, d, c', k, e, inum, Key(name));
      SameDirs(f, dirs[d := c']);
    }
  }

  /** The middle of do_link: the name is put into `dp`, and the reference to that given back. */
  method NameIn(f: FileSystem, ip: nat, dp: nat, name: seq<u8>, junk: seq<u8>) returns (r: int, panic: bool)
    requires LinksOk(f) && f.Open(ip) && 0 < f.inodes[ip].inum < 0x1_0000_0000 && f.inodes[ip].d.kind != T_DIR
    requires f.inodes[ip].d.nlink >= 1 && f.inodes[ip].d.nlink > NameCount(Dirs(f), f.inodes[ip].inum)
    requires f.Open(dp) && f.inodes[dp].d.kind == T_DIR && Spare(f.inodes[dp])
    requires |name| == NAMELEN && |junk| == DIRENT
    modifies f.bits, f.blocks, f.inodes, f.dinodes, f`own
    ensures panic <==>
      LinkPanics(old(f.inodes[..]), old(f.File(f.inodes[dp].inum)), Key(name), FreeCount(old(f.bits[..])))
    ensures !panic ==> LinksOk(f) && f.Open(ip) && f.inodes[ip] == old(f.inodes[ip])
    ensures !panic ==> r == if Key(name) in DirMap(old(f.File(f.inodes[dp].inum))) then -1 else 0
    ensures !panic && r == -1 ==>
      f.dinodes[..] == old(f.dinodes[..]) && Files(f) == old(Files(f)) && Dirs(f) == old(Dirs(f))
    ensures !panic && r == 0 ==>
      var d := old(f.inodes[dp].inum);
      && OnlyFile(old(f.dinodes[..]), old(Files(f)), f.dinodes[..], Files(f), d)
      && DirMap(f.File(d)) == DirMap(old(f.File(d)))[Key(name) := old(f.inodes[ip].inum)]
    ensures !panic ==> RefsMoved(old(f.inodes[..]), f.inodes[..], -1, dp, -1)
  {
    hide FileSystem.Valid, DirOk, Linked, NameCount, Counted, StaysKept, Names, Key, NamesOk, OnlyFile, LinkPanics,
         SameMeta, FreeCount, RefsMoved;
    f.StartView(ip);
    f.StartView(dp);
    DirOf(f, dp);
    ghost var table := f.inodes[..];
    r, panic := AddName(f, dp, name, f.inodes[ip].inum, junk);
    if panic { return; }
    ghost var t1 := f.inodes[..];
    DropRef(f, dp);
    RefsMovedThen(table, t1, f.inodes[..], -1, -1, dp);
    RefsSwap(table, f.inodes[..], -1, -1, dp);
  }

  lemma NamesCounted(table: seq<Incore>, dis: seq<Dinode>, dirs: seq<seq<u8>>)
    requires NamesOk(table, dis, dirs)
    ensures Counted(dirs, dis)
  {
  }

  lemma TableKept(table: seq<Incore>, table': seq<Incore>, dis: seq<Dinode>, dis': seq<Dinode>, dp: nat)
    requires dp < |table| == |table'| && |dis'| == |dis| && table'[dp].inum == table[dp].inum
    requires forall j ::
      0 <= j < |table| ==> table'[j].ref == table[j].ref && (j != dp && table[j].ref > 0 ==> table'[j] == table[j])
    requires forall j :: 0 <= j < |dis| ==> dis'[j].kind == dis[j].kind && dis'[j].nlink == dis[j].nlink
    ensures StaysKept(table, dis, table', dis')
  {
    forall i: nat | Stays(table, dis, i) ensures Stays(table', dis', i) {
      if dis[i].nlink < 1 {
        var j :| 0 <= j < |table| && table[j].ref > 0 && table[j].inum == i;
        assert table'[j].ref > 0 && table'[j].inum == i;
      }
    }
  }

  lemma AddedName(table: seq<Incore>, dis: seq<Dinode>, table': seq<Incore>, dis': seq<Dinode>, dirs: seq<seq<u8>>,
                  d: nat, c': seq<u8>, k: nat, e: seq<u8>, inum: u32, key: seq<u8>)
    requires NamesOk(table, dis, dirs) && |dis'| == |dis| && d < |dirs| && StaysKept(table, dis, table', dis')
    requires PutEntry(dirs[d], c', k, e) && PutsFree(dirs[d], k, e, inum) && DirOk(c')
      && DirMap(c') == DirMap(dirs[d])[key := inum]
    requires 0 < inum < |dis| && dis[inum].kind != 0 && dis[inum].nlink >= 1
    requires dis[inum].kind != T_DIR ==> dis[inum].nlink > NameCount(dirs, inum)
    requires forall j :: 0 <= j < |dis| ==> dis'[j].kind == dis[j].kind && dis'[j].nlink == dis[j].nlink
    ensures NamesOk(table', dis', dirs[d := c'])
  {
    PutIs(dirs[d], c', k, e);
    BytesInum(e, inum);
    hide DirOk, NameCount, PutEntry, Inum, Name, Names, InumBytes;
    assert Linked(table, dis, dirs[d]);
    assert Linked(table', dis', c');
    NamesPut(table, dis, table', dis', dirs, d, c', k, e);
  }

  lemma RemovedName(table: seq<Incore>, dis: seq<Dinode>, table': seq<Incore>, dis': seq<Dinode>, dirs: seq<seq<u8>>,
                    d: nat, c': seq<u8>, k: nat, key: seq<u8>)
    requires NamesOk(table, dis, dirs) && |dis'| == |dis| && d < |dirs| && StaysKept(table, dis, table', dis')
    requires k < Slots(dirs[d]) && Inum(dirs[d], k) != 0 && PutEntry(dirs[d], c', k, seq(DIRENT, _ => 0))
    requires DirOk(c') && DirMap(c') == DirMap(dirs[d]) - {key}
    requires forall j :: 0 <= j < |dis| ==> dis'[j].kind == dis[j].kind && dis'[j].nlink == dis[j].nlink
    ensures NamesOk(table', dis', dirs[d := c'])
    ensures NameCount(dirs[d := c'], Inum(dirs[d], k)) == NameCount(dirs, Inum(dirs[d], k)) - 1
  {
    var i := Inum(dirs[d], k);
    PutIs(dirs[d], c', k, seq(DIRENT, _ => 0));
    assert Inum(c', k) == 0;
    PutUses(dirs[d], c', k, seq(DIRENT, _ => 0), i);
    NameCountSet(dirs, d, c', i);
    hide DirOk, NameCount, PutEntry, Inum, Name, Names, Uses;
    assert Linked(table, dis, dirs[d]);
    assert Linked(table', dis', c');
    NamesPut(table, dis, table', dis', dirs, d, c', k, seq(DIRENT, _ => 0));
  }

  // unlink

  /** Is there nothing in the directory beyond its first two entries? */
  method IsDirEmpty(f: FileSystem, dp: nat) returns (empty: bool)
    requires IsDir(f, dp)
    modifies f.bits, f.blocks, f.inodes, f`own
    ensures f.Same() && IsDir(f, dp) && Dir(f, dp) == old(Dir(f, dp))
    ensures empty <==> forall j :: 2 <= j < Slots(Dir(f, dp)) ==> Inum(Dir(f, dp), j) == 0
  {
    hide FileSystem.Valid, Inum, Name, DirOk, EntryInum, Slots;
    ghost var c := Dir(f, dp);
    assert |c| == f.inodes[dp].d.size && |c| % DIRENT == 0 by { SizeOf(f, dp); WholeEntries(c); }
    var off := 2 * DIRENT;
    ghost var k := 2;
    while off < f.inodes[dp].d.size
      invariant f.Same() && IsDir(f, dp) && Dir(f, dp) == c && off == DIRENT * k && k >= 2
      invariant forall j :: 2 <= j < k && j < Slots(c) ==> Inum(c, j) == 0
    {
      SlotAt(c, k);
      var de := ReadEntry(f, dp, off, k);
      EntryInumIs(c, k, de);
      if EntryInum(de) != 0 { return false; }
      off, k := off + DIRENT, k + 1;
    }
    SlotAt(c, k);
    empty := true;
  }

  /** As dirlookup, with the links in order before and after. */
  method LookupName(f: FileSystem, dp: nat, name: seq<u8>) returns (ip: int, off: nat, ghost k: nat, panic: bool)
    requires LinksOk(f) && f.Open(dp) && f.inodes[dp].d.kind == T_DIR && |name| == NAMELEN
    modifies f.bits, f.blocks, f.inodes, f`own
    ensures f.bits[..] == old(f.bits[..]) && f.dinodes[..] == old(f.dinodes[..])
    ensures LinksOk(f) && Dirs(f) == old(Dirs(f)) && Files(f) == old(Files(f))
    ensures f.Open(dp) && f.inodes[dp].(ref := old(f.inodes[dp].ref)) == old(f.inodes[dp])
      && f.inodes[dp].ref >= old(f.inodes[dp].ref)
    ensures ip == -1 ==> f.inodes[..] == old(f.inodes[..])
    ensures panic ==> Key(name) in DirMap(f.File(f.inodes[dp].inum))
    ensures Key(name) in DirMap(f.File(f.inodes[dp].inum)) ==>
      (panic <==> Full(old(f.inodes[..])) && !InTable(old(f.inodes[..]), DirMap(f.File(f.inodes[dp].inum))[Key(name)]))
    ensures !panic ==> (ip == -1 <==> Key(name) !in DirMap(f.File(f.inodes[dp].inum)))
    ensures !panic && ip != -1 ==>
      && ip >= 0 && f.Open(ip) && Spare(f.inodes[ip])
      && (old(f.inodes[ip].ref) > 0 ==> f.inodes[ip].inum == old(f.inodes[ip].inum))
      && f.inodes[ip].ref == old(f.inodes[ip].ref) + 1
        && (f.inodes[ip].ref >= 2 <==> InTable(old(f.inodes[..]), f.inodes[ip].inum))
      && (ip == dp ==> f.inodes[ip].ref >= 2) && f.inodes[ip].inum == DirMap(f.File(f.inodes[dp].inum))[Key(name)]
      && f.inodes[..] == old(f.inodes[..])[ip := f.inodes[ip]]
      && k < Slots(f.File(f.inodes[dp].inum)) && off == DIRENT * k && Names1(f.File(f.inodes[dp].inum), k, Key(name))
      && Inum(f.File(f.inodes[dp].inum), k) == f.inodes[ip].inum
  {
    hide FileSystem.Valid, Inum, Name, Key, Names, DirOk, Linked, Counted, NamesOk;
    ghost var table, dis, dirs, fs, files := f.inodes[..], f.dinodes[..], Dirs(f), f.Disk(), Files(f);
    DirOf(f, dp);
    ip, off, k, panic := Dirlookup(f, dp, name);
    assert f.Disk() == fs;
    assert Files(f) == files;
    SameDirs(f, dirs);
    if !panic && ip != -1 {
      RefTaken(table, f.inodes[..], dis, ip);
      NamesCounted(table, dis, dirs);
      NamesKeep(table, dis, f.inodes[..], f.dinodes[..], dirs);
    }
  }

  lemma RefTaken(table: seq<Incore>, table': seq<Incore>, dis: seq<Dinode>, ip: nat)
    requires ip < |table| == |table'| && table' == table[ip := table'[ip]] && table'[ip].ref > 0
    requires table[ip].ref > 0 ==> table'[ip].inum == table[ip].inum
    ensures StaysKept(table, dis, table', dis)
  {
    forall i: nat | Stays(table, dis, i) ensures Stays(table', dis, i) {
      if dis[i].nlink < 1 {
        var j :| 0 <= j < |table| && table[j].ref > 0 && table[j].inum == i;
        assert table'[j].ref > 0 && table'[j].inum == i;
      }
    }
  }

  /** Every entry is where it was, but the one for `key` is free. */
  ghost predicate EntryLess(c: seq<u8>, c': seq<u8>, key: seq<u8>) {
    Slots(c') == Slots(c) && forall j ::
      0 <= j < Slots(c) ==> Inum(c', j) == if Names1(c, j, key) then 0 else Inum(c, j)
  }

  lemma OneCleared(c: seq<u8>, c': seq<u8>, k: nat, key: seq<u8>)
    requires DirOk(c) && k < Slots(c) && Names1(c, k, key) && PutEntry(c, c', k, seq(DIRENT, _ => 0))
    ensures EntryLess(c, c', key)
  {
    PutIs(c, c', k, seq(DIRENT, _ => 0));
    hide DirOk, Inum, Name, Key, PutEntry;
    forall j | 0 <= j < Slots(c) && Names1(c, j, key) ensures j == k {
      Directory.SameEntry(c, j, k, key);
    }
  }

  /** The entry `k` for the file at `ip` is cleared: one name less. */
  method ClearName(f: FileSystem, dp: nat, off: nat, ghost i: nat, ghost k: nat, ghost key: seq<u8>)
    requires LinksOk(f) && f.Open(dp) && f.inodes[dp].d.kind == T_DIR && off == DIRENT * k
    requires k < Slots(f.File(f.inodes[dp].inum)) && Names1(f.File(f.inodes[dp].inum), k, key)
      && Inum(f.File(f.inodes[dp].inum), k) == i
    modifies f.bits, f.blocks, f.inodes, f.dinodes, f`own
    ensures LinksOk(f) && f.Open(dp) && f.OnlyEntry(dp)
    ensures OnlyFile(old(f.dinodes[..]), old(Files(f)), f.dinodes[..], Files(f), f.inodes[dp].inum)
    ensures f.inodes[dp].d.kind == T_DIR && f.inodes[dp].d.nlink == old(f.inodes[dp].d.nlink)
    ensures DirMap(f.File(f.inodes[dp].inum)) == DirMap(old(f.File(f.inodes[dp].inum))) - {key}
    ensures NameCount(Dirs(f), i) == NameCount(old(Dirs(f)), i) - 1
    ensures EntryLess(old(f.File(f.inodes[dp].inum)), f.File(f.inodes[dp].inum), key)
  {
    hide FileSystem.Valid, Inum, Name, Key, Names, DirOk, Linked, NameCount, Counted, PutEntry, NamesOk, OnlyFile,
         FreeCount, StaysKept, Names1, EntryLess;
    DirOf(f, dp);
    ghost var table, dis, dirs, files, d := f.inodes[..], f.dinodes[..], Dirs(f), Files(f), f.inodes[dp].inum;
    NameIs(Dir(f, dp), k, key);
    ghost var c := Dir(f, dp);
    f.StartView(dp);
    NoGrowth(f, dp, k);
    var panic := WriteEntry(f, dp, off, seq(DIRENT, _ => 0), k);
    assert !panic;
    f.StartView(dp);
    ghost var c' := f.File(d);
    OnlyOne(f, dis, files, d);
    TableKept(table, f.inodes[..], dis, f.dinodes[..], dp);
    DirClear(c, c', k, seq(DIRENT, _ => 0));
    OneCleared(c, c', k, key);
    RemovedName(table, dis, f.inodes[..], f.dinodes[..], dirs, d, c', k, key);
    SameDirs(f, dirs[d := c']);
  }

  lemma NameIs(c: seq<u8>, k: nat, key: seq<u8>)
    requires k < Slots(c) && Names1(c, k, key)
    ensures Inum(c, k) != 0 && Key(Name(c, k)) == key
  {
  }

  /** An entry that is there is written in place. */
  lemma NoGrowth(f: FileSystem, dp: nat, k: nat)
    requires IsDir(f, dp) && k < Slots(Dir(f, dp))
    ensures DIRENT * k + DIRENT <= |Dir(f, dp)| <= MAXSIZE && ReadWrite.Growth(|Dir(f, dp)|, DIRENT * k, DIRENT) <= 0
  {
    SizeOf(f, dp);
    ReadWrite.GrowthIs(|Dir(f, dp)|, DIRENT * k, DIRENT);
  }

  /** Inode `di` of a file with contents `c` after a link was lost: with the last one, and no reference, it is free. */
  predicate LostLink(di: Dinode, c: seq<u8>, di': Dinode, c': seq<u8>, last: bool) {
    if last then di'.kind == 0 else di' == di.(nlink := di.nlink - 1) && c' == c
  }

  /** A link less, but still as many as names. */
  method LowerLinks(f: FileSystem, ip: nat)
    requires LinksOk(f) && f.Open(ip) && f.inodes[ip].d.kind != T_DIR
    requires f.inodes[ip].d.nlink > NameCount(Dirs(f), f.inodes[ip].inum)
    modifies f.inodes, f.dinodes
    ensures LinksOk(f) && f.Open(ip) && Dirs(f) == old(Dirs(f)) && f.OnlyEntry(ip)
    ensures f.inodes[ip].d == old(f.inodes[ip].d).(nlink := old(f.inodes[ip].d.nlink) - 1)
    ensures f.dinodes[..] == old(f.dinodes[..])[f.inodes[ip].inum := f.inodes[ip].d] && Files(f) == old(Files(f))
  {
    hide FileSystem.Valid, DirOk, Linked, NameCount, Counted, NamesOk, StaysKept;
    ghost var table, dis, dirs, files, i := f.inodes[..], f.dinodes[..], Dirs(f), Files(f), f.inodes[ip].inum;
    f.StartView(ip);
    SetLinks(f, ip, f.inodes[ip].d.nlink - 1);
    assert Files(f) == files;
    SameDirs(f, dirs);
    HeldLinks(table, f.inodes[..], dis, f.dinodes[..], ip);
    FewerLinks(table, dis, dirs, f.dinodes[..], i);
    NamesKeep(table, dis, f.inodes[..], f.dinodes[..], dirs);
  }

  /** The file loses a link; without links and references it is freed, and by then nothing names it. */
  method LoseLink(f: FileSystem, ip: nat)
    requires LinksOk(f) && f.Open(ip) && f.inodes[ip].d.kind != T_DIR && f.inodes[ip].inum > 0
    requires f.inodes[ip].d.nlink > NameCount(Dirs(f), f.inodes[ip].inum)
    modifies f.bits, f.inodes, f.dinodes, f`own
    ensures LinksOk(f) && Dirs(f) == old(Dirs(f))
    ensures f.inodes[..] == old(f.inodes[..])[ip := Incore(old(f.inodes[ip].inum), old(f.inodes[ip].ref) - 1,
      f.inodes[ip].d)]
    ensures OnlyFile(old(f.dinodes[..]), old(Files(f)), f.dinodes[..], Files(f), old(f.inodes[ip].inum))
    ensures var i := old(f.inodes[ip].inum);
      var last := old(f.inodes[ip].d.nlink) == 1 && old(f.inodes[ip].ref) == 1;
      && LostLink(old(f.inodes[ip].d), old(f.File(f.inodes[ip].inum)), f.dinodes[i], f.File(i), last)
      && (last ==> NameCount(Dirs(f), i) == 0)
  {
    hide FileSystem.Valid, DirOk, Linked, NameCount, Counted, NamesOk, OnlyFile, StaysKept;
    ghost var dis, dirs, files, i := f.dinodes[..], Dirs(f), Files(f), f.inodes[ip].inum;
    f.StartView(ip);
    LowerLinks(f, ip);
    ghost var t1, dis1 := f.inodes[..], f.dinodes[..];
    f.StartView(ip);
    f.Iput(ip);
    SameDirs(f, dirs);
    OnlyOne(f, dis, files, i);
    if f.dinodes[i].kind == 0 {
      FileGone(t1, dis1, f.inodes[..], f.dinodes[..], dirs, ip);
    } else {
      RefLess(t1, f.inodes[..], dis1, ip);
      NamesCounted(t1, dis1, dirs);
      NamesKeep(t1, dis1, f.inodes[..], f.dinodes[..], dirs);
    }
  }

  lemma HeldLinks(table: seq<Incore>, table': seq<Incore>, dis: seq<Dinode>, dis': seq<Dinode>, ip: nat)
    requires ip < |table| && |table'| == |table| && table[ip].ref > 0 && table[ip].inum < |dis|
    requires table' == table[ip := table[ip].(d := table'[ip].d)] && dis' == dis[table[ip].inum := table'[ip].d]
    requires table'[ip].d.kind == dis[table[ip].inum].kind
    ensures StaysKept(table, dis, table', dis')
  {
    assert table'[ip].ref > 0 && table'[ip].inum == table[ip].inum;
    forall i: nat | Stays(table, dis, i) ensures Stays(table', dis', i) {
      if dis[i].nlink < 1 {
        var j :| 0 <= j < |table| && table[j].ref > 0 && table[j].inum == i;
        assert table'[j].ref > 0 && table'[j].inum == i;
      }
    }
  }

  lemma FewerLinks(table: seq<Incore>, dis: seq<Dinode>, dirs: seq<seq<u8>>, dis': seq<Dinode>, i: nat)
    requires NamesOk(table, dis, dirs) && i < |dis| == |dis'| && dis' == dis[i := dis'[i]]
      && dis'[i].kind == dis[i].kind
    requires dis'[i].nlink >= NameCount(dirs, i)
    ensures Counted(dirs, dis')
  {
    hide NameCount, DirOk, Linked;
  }

  lemma RefLess(table: seq<Incore>, table': seq<Incore>, dis: seq<Dinode>, ip: nat)
    requires ip < |table| == |table'| && table[ip].ref > 0 && table[ip].inum < |dis|
    requires table' == table[ip := Incore(table[ip].inum, table[ip].ref - 1, table'[ip].d)]
    requires table[ip].ref > 1 || dis[table[ip].inum].nlink >= 1
    ensures StaysKept(table, dis, table', dis)
  {
    forall i: nat | Stays(table, dis, i) ensures Stays(table', dis, i) {
      if dis[i].nlink < 1 {
        var j :| 0 <= j < |table| && table[j].ref > 0 && table[j].inum == i;
        assert table'[j].ref > 0 && table'[j].inum == i;
      }
    }
  }

  /** A file without names can go. */
  lemma FileGone(table: seq<Incore>, dis: seq<Dinode>, table': seq<Incore>, dis': seq<Dinode>, dirs: seq<seq<u8>>,
        ip: nat)
    requires NamesOk(table, dis, dirs) && ip < |table| == |table'| && table[ip].inum < |dis| == |dis'|
    requires table' == table[ip := table'[ip]] && table'[ip].inum == table[ip].inum
    requires dis' == dis[table[ip].inum := dis'[table[ip].inum]] && dis'[table[ip].inum].kind == 0
    requires NameCount(dirs, table[ip].inum) == 0 && table[ip].inum > 0
    ensures NamesOk(table', dis', dirs)
  {
    var i := table[ip].inum;
    hide NameCount, DirOk, Names, Key;
    forall d | 0 <= d < |dirs| ensures Linked(table', dis', dirs[d]) {
      forall key | key in DirMap(dirs[d]) ensures Stays(table', dis', DirMap(dirs[d])[key]) {
        NotNamed(dirs, d, i, key);
        var n := DirMap(dirs[d])[key];
        assert Linked(table, dis, dirs[d]) && Stays(table, dis, n);
        if dis[n].nlink < 1 {
          var j :| 0 <= j < |table| && table[j].ref > 0 && table[j].inum == n;
          assert table'[j].ref > 0 && table'[j].inum == n;
        }
      }
    }
  }

  lemma NotNamed(dirs: seq<seq<u8>>, d: nat, i: nat, key: seq<u8>)
    requires d < |dirs| && DirOk(dirs[d]) && key in DirMap(dirs[d]) && NameCount(dirs, i) == 0 && i > 0
    ensures DirMap(dirs[d])[key] != i
  {
    hide Inum, Name, Key;
    var c := dirs[d];
    NamesHas(c, Slots(c), key);
    var k :| 0 <= k < Slots(c) && Names1(c, k, key);
    Named(dirs, d, k);
  }

  /** What unlink does to a file `i` named `key` in directory `d`; `last`: the last link, and no reference held. */
  ghost predicate FileUnlinked(dis: seq<Dinode>, files: seq<seq<u8>>, dis': seq<Dinode>, files': seq<seq<u8>>,
                               d: nat, i: nat, key: seq<u8>, last: bool) {
    && |files| == |dis| == |files'| == |dis'| && d < |dis| && i < |dis| && d != i
    && DirMap(files'[d]) == DirMap(files[d]) - {key}
    && NameCount(DirsOf(dis', files'), i) == NameCount(DirsOf(dis, files), i) - 1
    && LostLink(dis[i], files[i], dis'[i], files'[i], last) && (last ==> NameCount(DirsOf(dis', files'), i) == 0)
    && (forall j :: 0 <= j < |dis| && j != d && j != i ==> files'[j] == files[j] && dis'[j] == dis[j])
  }

  /** First the entry in `d` goes, then the link of `i`. */
  lemma Unlinked2(dis: seq<Dinode>, files: seq<seq<u8>>, dis1: seq<Dinode>, files1: seq<seq<u8>>, dis': seq<Dinode>,
        files': seq<seq<u8>>,
                  d: nat, i: nat, key: seq<u8>, last: bool)
    requires OnlyFile(dis, files, dis1, files1, d) && OnlyFile(dis1, files1, dis', files', i) && d != i
    requires DirMap(files1[d]) == DirMap(files[d]) - {key}
    requires NameCount(DirsOf(dis1, files1), i) == NameCount(DirsOf(dis, files), i) - 1
    requires DirsOf(dis', files') == DirsOf(dis1, files1)
    requires LostLink(dis1[i], files1[i], dis'[i], files'[i], last)
      && (last ==> NameCount(DirsOf(dis', files'), i) == 0)
    ensures FileUnlinked(dis, files, dis', files', d, i, key, last)
  {
    hide Names, NameCount, DirsOf;
  }

  /** One reference less on each of the two entries, or two on the one. */
  ghost predicate BothReleased(table: seq<Incore>, table': seq<Incore>, dp: nat, ip: nat) {
    |table'| == |table| && forall j :: 0 <= j < |table| ==>
      && table'[j].ref == table[j].ref - (if j == dp then 1 else 0) - (if j == ip then 1 else 0)
      && table'[j].inum == table[j].inum
  }

  lemma ReleasedTwice(table: seq<Incore>, t1: seq<Incore>, t2: seq<Incore>, t3: seq<Incore>, dp: nat, ip: nat)
    requires dp < |table| && ip < |table| == |t1| && t1 == table[dp := table[dp].(d := t1[dp].d)]
    requires |t2| == |t3| == |table| && t2 == t1[dp := t1[dp].(ref := t2[dp].ref)] && t2[dp].ref == t1[dp].ref - 1
    requires t3 == t2[ip := Incore(t2[ip].inum, t3[ip].ref, t3[ip].d)] && t3[ip].ref == t2[ip].ref - 1
    ensures BothReleased(table, t3, dp, ip)
  {
  }

  /** The end of unlink for a file. */
  method UnlinkFile(f: FileSystem, dp: nat, ip: nat, off: nat, ghost k: nat, ghost key: seq<u8>)
    requires LinksOk(f) && f.Open(dp) && f.inodes[dp].d.kind == T_DIR && Spare(f.inodes[dp]) && off == DIRENT * k
    requires f.Open(ip) && f.inodes[ip].d.kind != T_DIR && f.inodes[ip].inum > 0
    requires k < Slots(f.File(f.inodes[dp].inum)) && Names1(f.File(f.inodes[dp].inum), k, key)
    requires Inum(f.File(f.inodes[dp].inum), k) == f.inodes[ip].inum
    modifies f.bits, f.blocks, f.inodes, f.dinodes, f`own
    ensures LinksOk(f)
    ensures FileUnlinked(old(f.dinodes[..]), old(Files(f)), f.dinodes[..], Files(f), old(f.inodes[dp].inum),
      old(f.inodes[ip].inum), key,
      old(f.inodes[ip].d.nlink) == 1 && old(f.inodes[ip].ref) == 1)
    ensures BothReleased(old(f.inodes[..]), f.inodes[..], dp, ip)
  {
    hide FileSystem.Valid, Inum, Name, Key, Names, DirOk, Linked, NameCount, Counted, NamesOk, FileUnlinked, LostLink,
         OnlyFile, BothReleased;
    ghost var table := f.inodes[..];
    f.StartView(dp);
    f.StartView(ip);
    NamedHere(f, dp, k);
    ghost var d, i := f.inodes[dp].inum, f.inodes[ip].inum;
    ghost var dis0, files0, ref := f.dinodes[..], Files(f), f.inodes[ip].ref;
    DirsFiles(f);
    ClearName(f, dp, off, i, k, key);
    ghost var dis1, files1, t1 := f.dinodes[..], Files(f), f.inodes[..];
    DirsFiles(f);
    f.StartView(ip);
    DropRef(f, dp);
    ghost var t2 := f.inodes[..];
    CountedAt(f, i);
    LoseLink(f, ip);
    ReleasedTwice(table, t1, t2, f.inodes[..], dp, ip);
    DirsFiles(f);
    Unlinked2(dis0, files0, dis1, files1, f.dinodes[..], Files(f), d, i, key, dis0[i].nlink == 1 && ref == 1);
  }

  /** A file named in a directory has a link. */
  lemma NamedHere(f: FileSystem, dp: nat, k: nat)
    requires LinksOk(f) && f.Open(dp) && f.inodes[dp].d.kind == T_DIR && k < Slots(f.File(f.inodes[dp].inum))
    requires var i := Inum(f.File(f.inodes[dp].inum), k); 0 < i < f.dinodes.Length && f.dinodes[i].kind != 0
    ensures var i := Inum(f.File(f.inodes[dp].inum), k);
      f.dinodes[i].kind != T_DIR ==> f.dinodes[i].nlink >= NameCount(Dirs(f), i) >= 1
  {
    hide FileSystem.Valid, Inum, Name, NameCount;
    DirOf(f, dp);
    Named(Dirs(f), f.inodes[dp].inum, k);
  }
}
