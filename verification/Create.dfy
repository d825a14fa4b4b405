/** icreate (`fs/inode.c`): a new file, device or directory, after its path has been walked. */
module Create {
  import opened Words
  import opened BlockMap
  import opened FileData
  import opened InodeMap
  import opened ReadWrite
  import opened Directory
  import opened Inode
  import opened DirOps
  import opened Links
  import opened LinkOps

  /** "." and "..", ended by zeros. */
  function DotName(dots: nat): (s: seq<u8>)
    requires 1 <= dots <= 2
    ensures |s| == NAMELEN && Key(s) == if dots == 1 then DOT else DOTDOT
  {
    var s: seq<u8> := seq(NAMELEN, i => if i < dots then 46 else 0);
    DotKey(s, dots);
    s
  }

  lemma DotKey(s: seq<u8>, dots: nat)
    requires 1 <= dots <= 2 && |s| == NAMELEN && forall i :: 0 <= i < NAMELEN ==> s[i] == if i < dots then 46 else 0
    ensures Key(s) == if dots == 1 then DOT else DOTDOT
  {
    assert s[1..][0] == s[1] && s[1..][1..][0] == s[2];
    assert Key(s) == [s[0]] + Key(s[1..]);
  }

  predicate AllTaken(dis: seq<Dinode>) { forall j :: 1 <= j < |dis| ==> dis[j].kind != 0 }

  /** A free inode taken into use has no names yet. */
  method NewInode(f: FileSystem, kind: int) returns (ip: nat, panic: bool)
    requires LinksOk(f) && kind != 0
    modifies f.dinodes, f.inodes
    ensures panic <==> AllTaken(old(f.dinodes[..])) || Full(old(f.inodes[..]))
    ensures !panic ==>
      && LinksOk(f) && f.Open(ip) && f.inodes[ip] == Incore(f.inodes[ip].inum, 1,
        Dinode(kind, 0, 0, 0, 0, seq(NDIRECT + 1, _ => 0)))
      && f.inodes[..] == old(f.inodes[..])[ip := f.inodes[ip]] && old(f.inodes[ip].ref) == 0
      && f.inodes[ip].inum >= 1 && old(f.dinodes[..])[f.inodes[ip].inum].kind == 0 && f.File(f.inodes[ip].inum) == []
      && OnlyFile(old(f.dinodes[..]), old(Files(f)), f.dinodes[..], Files(f), f.inodes[ip].inum)
      && NameCount(Dirs(f), f.inodes[ip].inum) == 0
    ensures !panic ==> RefsMoved(old(f.inodes[..]), f.inodes[..], ip, -1, -1)
  {
    hide FileSystem.Valid, RefsMoved, DirOk, Linked, NameCount, Counted, NamesOk, OnlyFile, StaysKept;
    ghost var table, dis, dirs, files := f.inodes[..], f.dinodes[..], Dirs(f), Files(f);
    ip, panic := f.Ialloc(kind);
    if panic { return; }
    ghost var i := f.inodes[ip].inum;
    OneTaken(table, f.inodes[..], ip);
    f.StartView(ip);
    OnlyOne(f, dis, files, i);
    NewDirs(f, dirs, i);
    NewNames(table, dis, dirs, f.inodes[..], f.dinodes[..], ip);
  }

  lemma OneTaken(table: seq<Incore>, table': seq<Incore>, ip: nat)
    requires ip < |table| == |table'| && table' == table[ip := table'[ip]]
    requires table'[ip].ref == table[ip].ref + 1 && (table[ip].ref > 0 ==> table'[ip].inum == table[ip].inum)
    ensures RefsMoved(table, table', ip, -1, -1)
  {
  }

  lemma NewDirs(f: FileSystem, dirs: seq<seq<u8>>, i: nat)
    requires f.Valid() && |dirs| == f.dinodes.Length && i < |dirs| && dirs[i] == [] && f.File(i) == []
    requires forall d :: 0 <= d < |dirs| && d != i ==> dirs[d] == if f.dinodes[d].kind == T_DIR then f.File(d) else []
    ensures Dirs(f) == dirs
  {
  }

  lemma NewNames(table: seq<Incore>, dis: seq<Dinode>, dirs: seq<seq<u8>>, table': seq<Incore>, dis': seq<Dinode>,
        ip: nat)
    requires NamesOk(table, dis, dirs) && ip < |table| == |table'| && table' == table[ip := table'[ip]]
      && table[ip].ref == 0
    requires var i := table'[ip].inum; 0 < i < |dis| == |dis'| && dis[i].kind == 0 && dis' == dis[i := dis'[i]]
    requires table'[ip].ref > 0 && dis'[table'[ip].inum].nlink >= 0
    ensures NamesOk(table', dis', dirs) && NameCount(dirs, table'[ip].inum) == 0
  {
    hide DirOk, Linked, NameCount;
    Unnamed(table, dis, dirs, table'[ip].inum);
    forall i: nat | Stays(table, dis, i) ensures Stays(table', dis', i) {
      if dis[i].nlink < 1 {
        var j :| 0 <= j < |table| && table[j].ref > 0 && table[j].inum == i;
        assert table'[j].ref > 0 && table'[j].inum == i;
      }
    }
    NamesKeep(table, dis, table', dis', dirs);
  }

  /** The entries "." and ".." of a new directory `i`, below `d`. */
  method MakeDots(f: FileSystem, ip: nat, d: u32, junk: seq<u8>) returns (panic: bool)
    requires LinksOk(f) && f.Open(ip) && f.inodes[ip].d.kind == T_DIR && f.inodes[ip].d.nlink >= 1 && |junk| == DIRENT
    requires 0 < f.inodes[ip].inum < 0x1_0000_0000 && f.File(f.inodes[ip].inum) == []
    requires 0 < d < f.dinodes.Length && d != f.inodes[ip].inum && f.dinodes[d].kind == T_DIR && f.dinodes[d].nlink >= 1
    modifies f.bits, f.blocks, f.inodes, f.dinodes, f`own
    ensures panic <==> FreeCount(old(f.bits[..])) < 1
    ensures !panic ==>
      && LinksOk(f) && f.Open(ip) && FreeCount(f.bits[..]) == FreeCount(old(f.bits[..])) - 1
      && OnlyFile(old(f.dinodes[..]), old(Files(f)), f.dinodes[..], Files(f), f.inodes[ip].inum)
      && DirMap(f.File(f.inodes[ip].inum)) == map[DOT := f.inodes[ip].inum, DOTDOT := d]
      && f.inodes[ip].inum == old(f.inodes[ip].inum) && SameMeta(old(f.inodes[ip].d), f.inodes[ip].d)
      && (forall j :: 0 <= j < f.inodes.Length ==>
           && f.inodes[j].ref == old(f.inodes[j].ref)
           && (j != ip && f.inodes[j].ref > 0 ==> f.inodes[j] == old(f.inodes[j])))
    ensures !panic ==> RefsMoved(old(f.inodes[..]), f.inodes[..], -1, -1, -1)
  {
    hide FileSystem.Valid, RefsMoved, Inum, Name, Key, Names, DirOk, Linked, NameCount, Counted, NamesOk,
         OnlyFile, FreeCount;
    ghost var dis, files, i, table := f.dinodes[..], Files(f), f.inodes[ip].inum, f.inodes[..];
    f.StartView(ip);
    NoNames([]);
    FirstEntry(f.inodes[..], DOT, FreeCount(f.bits[..]));
    var r;
    r, panic := AddName(f, ip, DotName(1), f.inodes[ip].inum, junk);
    if panic || r != 0 { return true; }
    DirOf(f, ip);
    SecondEntry(f.inodes[..], f.File(i), DOTDOT, i, FreeCount(f.bits[..]));
    ghost var dis1, files1, t1 := f.dinodes[..], Files(f), f.inodes[..];
    OnlyAt(dis, files, dis1, files1, i, d);
    f.StartView(ip);
    r, panic := AddName(f, ip, DotName(2), d, junk);
    if panic || r != 0 { return true; }
    RefsMovedSame(table, t1, f.inodes[..], -1, -1, -1);
    OnlyTwice(dis, files, dis1, files1, f.dinodes[..], Files(f), i);
  }

  /** The first entry of a directory takes a block, */
  lemma FirstEntry(table: seq<Incore>, key: seq<u8>, free: int)
    ensures EntryGrowth([]) == 1 && (LinkPanics(table, [], key, free) <==> free < 1)
  {
    NoNames([]);
    assert Growth(0, 0, DIRENT) == 1;
    assert AllUsed([]);
  }

  /** the second goes beside it. */
  lemma SecondEntry(table: seq<Incore>, c: seq<u8>, key: seq<u8>, i: nat, free: nat)
    requires |c| <= DIRENT && DirOk(c) && DirMap(c) == map[DOT := i] && key != DOT
    ensures EntryGrowth(c) == 0 && !LinkPanics(table, c, key, free)
  {
    hide AllUsed, InTable, Full;
    assert DOT in DirMap(c);
    if |c| == 0 {
      NoNames(c);
      assert false;
    }
    WholeEntries(c);
    hide DirOk, Names, Key;
    assert |c| == DIRENT && Growth(DIRENT, DIRENT, DIRENT) == 0;
  }

  lemma NoNames(c: seq<u8>)
    requires c == []
    ensures DirMap(c) == map[]
  {
  }

  lemma OnlyAt(dis: seq<Dinode>, files: seq<seq<u8>>, dis': seq<Dinode>, files': seq<seq<u8>>, i: nat, d: nat)
    requires OnlyFile(dis, files, dis', files', i) && d < |dis| && d != i
    ensures dis'[d] == dis[d] && files'[d] == files[d]
  {
  }

  lemma OnlyTwice(dis: seq<Dinode>, files: seq<seq<u8>>, dis1: seq<Dinode>, files1: seq<seq<u8>>,
                  dis2: seq<Dinode>, files2: seq<seq<u8>>, i: nat)
    requires OnlyFile(dis, files, dis1, files1, i) && OnlyFile(dis1, files1, dis2, files2, i)
    ensures OnlyFile(dis, files, dis2, files2, i)
  {
  }

  /** What icreate makes of inode `i` and directory `d`. */
  ghost predicate Created(dis: seq<Dinode>, files: seq<seq<u8>>, dis': seq<Dinode>, files': seq<seq<u8>>,
                          d: nat, i: nat, key: seq<u8>, kind: int, major: int, minor: int) {
    && |files| == |dis| == |files'| == |dis'| && d < |dis| <= 0x1_0000_0000 && 0 < i < |dis| && d != i
      && dis[i].kind == 0
    && dis'[i].kind == kind && dis'[i].nlink == 1 && dis'[i].major == major && dis'[i].minor == minor
    && DirMap(files'[d]) == DirMap(files[d])[key := i]
    && dis'[d].kind == T_DIR && dis'[d].nlink == dis[d].nlink + (if kind == T_DIR then 1 else 0)
    && (if kind == T_DIR then DirMap(files'[i]) == map[DOT := i, DOTDOT := d] else files'[i] == [])
    && (forall j :: 0 <= j < |dis| && j != d && j != i ==> files'[j] == files[j] && dis'[j] == dis[j])
  }

  /** There is no inode, or no entry for it in core, or no block for the entries of a new directory. */
  ghost predicate NoInode(table: seq<Incore>, dis: seq<Dinode>, free: int, kind: int) {
    AllTaken(dis) || Full(table) || (kind == T_DIR && free < 1)
  }

  /** Or then no room for its name in directory `c`. */
  ghost predicate CreatePanics(table: seq<Incore>, dis: seq<Dinode>, c: seq<u8>, free: int, kind: int) {
    NoInode(table, dis, free, kind) || Crowded(c, free - (if kind == T_DIR then 1 else 0))
  }

  /** A link, or no link and a reference to spare. */
  predicate Lasting(e: Incore) { e.d.nlink >= 0 && Spare(e) }

  /**
   The inode of that name: a file that is there is as good as a new one, for a file; any other inode of that name is
   a failure. `dp` is what nameiparent has found, -1 for none.
   */
  method ICreate(f: FileSystem, dp: int, name: seq<u8>, kind: int, major: int, minor: int,
        junk: seq<u8>) returns (ip: int, panic: bool)
    requires LinksOk(f) && |name| == NAMELEN && |junk| == DIRENT && kind in {T_DIR, T_FILE, T_DEV}
      && f.dinodes.Length <= 0x1_0000_0000
    requires dp != -1 ==>
      dp >= 0 && f.Open(dp) && f.inodes[dp].d.kind == T_DIR && Lasting(f.inodes[dp]) && f.inodes[dp].inum > 0
    modifies f.bits, f.blocks, f.inodes, f.dinodes, f`own
    ensures dp == -1 ==>
      !panic && ip == -1 && LinksOk(f) && f.dinodes[..] == old(f.dinodes[..]) && Files(f) == old(Files(f))
    ensures dp != -1 && Key(name) in DirMap(old(f.File(f.inodes[dp].inum))) ==>
      var i := DirMap(old(f.File(f.inodes[dp].inum)))[Key(name)];
      && (panic <==> Full(old(f.inodes[..])) && !InTable(old(f.inodes[..]), i))
      && (!panic ==>
        && LinksOk(f) && f.dinodes[..] == old(f.dinodes[..]) && Files(f) == old(Files(f)) && i < f.dinodes.Length
        && (ip == -1 <==> !(kind == T_FILE && f.dinodes[i].kind == T_FILE))
        && (ip != -1 ==> ip >= 0 && f.Open(ip) && f.inodes[ip].inum == i))
    ensures dp != -1 && Key(name) !in DirMap(old(f.File(f.inodes[dp].inum))) ==>
      && (panic <==> CreatePanics(old(f.inodes[..]), old(f.dinodes[..]), old(f.File(f.inodes[dp].inum)),
                       FreeCount(old(f.bits[..])), kind))
      && (!panic ==>
        && LinksOk(f) && ip >= 0 && f.Open(ip) && f.inodes[ip].ref == 1
        && Created(old(f.dinodes[..]), old(Files(f)), f.dinodes[..], Files(f), old(f.inodes[dp].inum),
          f.inodes[ip].inum,
             Key(name), kind, major, minor))
    ensures !panic ==> RefsMoved(old(f.inodes[..]), f.inodes[..], ip, dp, -1)
  {
    hide FileSystem.Valid, RefsMoved, Inum, Name, Key, Names, DirOk, Linked, NameCount, Counted, NamesOk,
         OnlyFile, Created,
         CreatePanics, InTable, Full;
    ghost var table := f.inodes[..];
    if dp == -1 {
      RefsNone(table);
      return -1, false;
    }
    f.StartView(dp);
    DirOf(f, dp);
    ghost var c := f.File(f.inodes[dp].inum);
    if Key(name) in DirMap(c) {
      LinkedKey(f.inodes[..], f.dinodes[..], c, Key(name));
    }
    var off;
    ghost var k;
    ip, off, k, panic := LookupName(f, dp, name);
    if panic { return; }
    if ip != -1 {
      ghost var t1 := f.inodes[..];
      OneTaken(table, t1, ip);
      f.StartView(ip);
      DropRef(f, dp);
      ghost var t2 := f.inodes[..];
      RefsMovedThen(table, t1, t2, ip, -1, dp);
      RefsSwap(table, t2, ip, -1, dp);
      if kind == T_FILE && f.inodes[ip].d.kind == T_FILE { return; }
      DropRef(f, ip);
      RefsBack(table, t2, f.inodes[..], ip, dp);
      ip := -1;
      return;
    }
    ip, panic := CreateNew(f, dp, name, kind, major, minor, junk);
  }

  lemma RefsNone(table: seq<Incore>)
    ensures RefsMoved(table, table, -1, -1, -1)
  {
  }

  /** The reference taken is given back as well. */
  lemma RefsBack(t0: seq<Incore>, t1: seq<Incore>, t2: seq<Incore>, ip: int, dp: int)
    requires RefsMoved(t0, t1, ip, dp, -1) && RefsMoved(t1, t2, -1, ip, -1)
    ensures RefsMoved(t0, t2, -1, dp, -1)
  {
  }

  method CreateNew(f: FileSystem, dp: nat, name: seq<u8>, kind: int, major: int, minor: int,
        junk: seq<u8>) returns (ip: nat, panic: bool)
    requires LinksOk(f) && |name| == NAMELEN && |junk| == DIRENT && kind in {T_DIR, T_FILE, T_DEV}
      && f.dinodes.Length <= 0x1_0000_0000
    requires f.Open(dp) && f.inodes[dp].d.kind == T_DIR && Lasting(f.inodes[dp]) && f.inodes[dp].inum > 0
    requires Key(name) !in DirMap(f.File(f.inodes[dp].inum))
    modifies f.bits, f.blocks, f.inodes, f.dinodes, f`own
    ensures panic <==> CreatePanics(old(f.inodes[..]), old(f.dinodes[..]), old(f.File(f.inodes[dp].inum)),
                         FreeCount(old(f.bits[..])), kind)
    ensures !panic ==>
      && LinksOk(f) && f.Open(ip) && f.inodes[ip].ref == 1
      && Created(old(f.dinodes[..]), old(Files(f)), f.dinodes[..], Files(f), old(f.inodes[dp].inum), f.inodes[ip].inum,
             Key(name), kind, major, minor)
    ensures !panic ==> RefsMoved(old(f.inodes[..]), f.inodes[..], ip, dp, -1)
  {
    hide FileSystem.Valid, RefsMoved, Inum, Name, Key, Names, DirOk, Linked, NameCount, Counted, NamesOk,
         OnlyFile, Created,
         FreeCount, Prepared, SameMeta;
    ghost var dis, files, d, table := f.dinodes[..], Files(f), f.inodes[dp].inum, f.inodes[..];
    f.StartView(dp);
    ip, panic := PrepareInode(f, dp, kind, major, minor, junk);
    if panic { return; }
    ghost var dis4, files4, i, t1 := f.dinodes[..], Files(f), f.inodes[ip].inum, f.inodes[..];
    PreparedParts(dis, files, dis4, files4, d, i, kind, major, minor, if kind == T_DIR then 1 else 0, kind == T_DIR);
    f.StartView(dp);
    var r;
    r, panic := AddName(f, dp, name, f.inodes[ip].inum, junk);
    if panic || r != 0 { return ip, true; }
    ghost var t2 := f.inodes[..];
    RefsMovedSame(table, t1, t2, ip, -1, -1);
    f.StartView(dp);
    AllPrepared(dis, files, dis4, files4, d, i, kind, major, minor, f.dinodes[..], Files(f), Key(name));
    DropRef(f, dp);
    RefsMovedThen(table, t2, f.inodes[..], ip, -1, dp);
    RefsSwap(table, f.inodes[..], ip, -1, dp);
  }

  /** A new inode, linked once; a directory with its own two entries, and a link more for the one above. */
  method PrepareInode(f: FileSystem, dp: nat, kind: int, major: int, minor: int, junk: seq<u8>) returns (ip: nat,
        panic: bool)
    requires LinksOk(f) && |junk| == DIRENT && kind in {T_DIR, T_FILE, T_DEV} && f.dinodes.Length <= 0x1_0000_0000
    requires f.Open(dp) && f.inodes[dp].d.kind == T_DIR && Lasting(f.inodes[dp]) && f.inodes[dp].inum > 0
    modifies f.bits, f.blocks, f.inodes, f.dinodes, f`own
    ensures panic <==> NoInode(old(f.inodes[..]), old(f.dinodes[..]), FreeCount(old(f.bits[..])), kind)
    ensures !panic ==> FreeCount(f.bits[..]) == FreeCount(old(f.bits[..])) - (if kind == T_DIR then 1 else 0)
    ensures !panic ==>
      && LinksOk(f) && f.Open(ip) && f.inodes[ip].ref == 1 && f.Open(dp) && dp != ip
      && f.inodes[dp].inum == old(f.inodes[dp].inum) && f.inodes[dp].d.kind == T_DIR && Lasting(f.inodes[dp])
      && (kind != T_DIR ==> NameCount(Dirs(f), f.inodes[ip].inum) == 0)
    ensures !panic ==>
      Prepared(old(f.dinodes[..]), old(Files(f)), f.dinodes[..], Files(f), f.inodes[dp].inum, f.inodes[ip].inum,
      kind, major, minor, if kind == T_DIR then 1 else 0, kind == T_DIR)
    ensures !panic ==> RefsMoved(old(f.inodes[..]), f.inodes[..], ip, -1, -1)
  {
    hide FileSystem.Valid, RefsMoved, Inum, Name, Key, Names, DirOk, Linked, NameCount, Counted, NamesOk,
         OnlyFile, FreeCount,
         Prepared, SameMeta, AllTaken, Full;
    ghost var dis, files, d, table := f.dinodes[..], Files(f), f.inodes[dp].inum, f.inodes[..];
    f.StartView(dp);
    ip, panic := NewInode(f, kind);
    if panic { return; }
    ghost var i, dis1, t1 := f.inodes[ip].inum, f.dinodes[..], f.inodes[..];
    f.StartView(ip);
    OnlyAt(dis, files, dis1, Files(f), i, d);
    Relinked(f, ip, 1, major, minor);
    ghost var dis2, files2, t2 := f.dinodes[..], Files(f), f.inodes[..];
    RefsMovedSame(table, t1, t2, ip, -1, -1);
    PreparedStart(dis, files, dis1, files2, d, i, kind, major, minor, dis2);
    if kind == T_DIR {
      panic := MakeDir(f, dp, ip, dis, files, major, minor, junk);
      if !panic { RefsMovedSame(table, t2, f.inodes[..], ip, -1, -1); }
    }
  }

  /** The part of icreate for directories. */
  method MakeDir(f: FileSystem, dp: nat, ip: nat, ghost dis: seq<Dinode>, ghost files: seq<seq<u8>>, ghost major: int,
        ghost minor: int,
                 junk: seq<u8>) returns (panic: bool)
    requires LinksOk(f) && |junk| == DIRENT && f.Open(dp) && f.Open(ip) && dp != ip && f.inodes[ip].d.kind == T_DIR
      && f.inodes[ip].ref == 1
    requires f.inodes[dp].d.kind == T_DIR && Lasting(f.inodes[dp]) && f.inodes[dp].inum > 0
      && f.dinodes.Length <= 0x1_0000_0000
    requires Prepared(dis, files, f.dinodes[..], Files(f), f.inodes[dp].inum, f.inodes[ip].inum, T_DIR, major, minor,
      0, false)
    modifies f.bits, f.blocks, f.inodes, f.dinodes, f`own
    ensures panic <==> FreeCount(old(f.bits[..])) < 1
    ensures !panic ==> FreeCount(f.bits[..]) == FreeCount(old(f.bits[..])) - 1
    ensures !panic ==>
      && LinksOk(f) && f.Open(ip) && f.inodes[ip].ref == 1 && f.Open(dp) && f.inodes[ip].inum == old(f.inodes[ip].inum)
      && f.inodes[dp].inum == old(f.inodes[dp].inum) && f.inodes[dp].d.kind == T_DIR && Lasting(f.inodes[dp])
      && Prepared(dis, files, f.dinodes[..], Files(f), f.inodes[dp].inum, f.inodes[ip].inum, T_DIR, major, minor, 1,
        true)
    ensures !panic ==> RefsMoved(old(f.inodes[..]), f.inodes[..], -1, -1, -1)
  {
    hide FileSystem.Valid, RefsMoved, Inum, Name, Key, Names, DirOk, Linked, NameCount, Counted, NamesOk,
         OnlyFile, FreeCount,
         Prepared, SameMeta;
    ghost var d, i, dis2, table := f.inodes[dp].inum, f.inodes[ip].inum, f.dinodes[..], f.inodes[..];
    f.StartView(dp);
    PreparedParts(dis, files, dis2, Files(f), d, i, T_DIR, major, minor, 0, false);
    f.StartView(ip);
    Relinked(f, dp, f.inodes[dp].d.nlink + 1, f.inodes[dp].d.major, f.inodes[dp].d.minor);
    ghost var dis3, files3, t1 := f.dinodes[..], Files(f), f.inodes[..];
    PreparedLink(dis, files, dis2, files3, d, i, T_DIR, major, minor, dis3);
    panic := MakeDots(f, ip, f.inodes[dp].inum, junk);
    if panic { return; }
    RefsMovedSame(table, t1, f.inodes[..], -1, -1, -1);
    f.StartView(ip);
    PreparedDots(dis, files, dis3, files3, d, i, T_DIR, major, minor, f.dinodes[..], Files(f));
  }

  /** Inode `i` is ready to be named in `d`; `dots` tells whether a directory has its own two entries yet. */
  ghost predicate Prepared(dis: seq<Dinode>, files: seq<seq<u8>>, dis': seq<Dinode>, files': seq<seq<u8>>,
                           d: nat, i: nat, kind: int, major: int, minor: int, more: nat, dots: bool) {
    && |files| == |dis| == |files'| == |dis'| && d < |dis| <= 0x1_0000_0000 && 0 < i < |dis| && d != i
      && dis[i].kind == 0
    && dis'[i].kind == kind && dis'[i].nlink == 1 && dis'[i].major == major && dis'[i].minor == minor
    && dis'[d] == dis[d].(nlink := dis[d].nlink + more) && files'[d] == files[d]
    && (if dots then DirMap(files'[i]) == map[DOT := i, DOTDOT := d] else files'[i] == [])
    && (forall j :: 0 <= j < |dis| && j != d && j != i ==> files'[j] == files[j] && dis'[j] == dis[j])
  }

  lemma PreparedParts(dis: seq<Dinode>, files: seq<seq<u8>>, dis': seq<Dinode>, files': seq<seq<u8>>,
                      d: nat, i: nat, kind: int, major: int, minor: int, more: nat, dots: bool)
    requires Prepared(dis, files, dis', files', d, i, kind, major, minor, more, dots)
    ensures |files| == |dis| == |files'| == |dis'| && d < |dis| && 0 < i < |dis| && d != i && files'[d] == files[d]
    ensures !dots ==> files'[i] == []
    ensures dis'[i].kind == kind && dis'[i].nlink == 1
  {
    hide Names;
  }

  lemma PreparedStart(dis: seq<Dinode>, files: seq<seq<u8>>, dis1: seq<Dinode>, files1: seq<seq<u8>>,
                      d: nat, i: nat, kind: int, major: int, minor: int, dis': seq<Dinode>)
    requires OnlyFile(dis, files, dis1, files1, i) && d < |dis| <= 0x1_0000_0000 && i > 0 && d != i && dis[i].kind == 0
      && files1[i] == []
    requires dis1[i].kind == kind && dis' == dis1[i := dis1[i].(nlink := 1, major := major, minor := minor)]
    ensures Prepared(dis, files, dis', files1, d, i, kind, major, minor, 0, false)
  {
  }

  lemma PreparedLink(dis: seq<Dinode>, files: seq<seq<u8>>, dis1: seq<Dinode>, files1: seq<seq<u8>>,
                     d: nat, i: nat, kind: int, major: int, minor: int, dis': seq<Dinode>)
    requires Prepared(dis, files, dis1, files1, d, i, kind, major, minor, 0, false)
      && dis' == dis1[d := dis1[d].(nlink := dis1[d].nlink + 1)]
    ensures Prepared(dis, files, dis', files1, d, i, kind, major, minor, 1, false)
  {
  }

  lemma PreparedDots(dis: seq<Dinode>, files: seq<seq<u8>>, dis1: seq<Dinode>, files1: seq<seq<u8>>,
                     d: nat, i: nat, kind: int, major: int, minor: int, dis': seq<Dinode>, files': seq<seq<u8>>)
    requires Prepared(dis, files, dis1, files1, d, i, kind, major, minor, 1, false)
      && OnlyFile(dis1, files1, dis', files', i)
    requires SameMeta(dis1[i], dis'[i]) && DirMap(files'[i]) == map[DOT := i, DOTDOT := d]
    ensures Prepared(dis, files, dis', files', d, i, kind, major, minor, 1, true)
  {
    hide Names;
  }

  lemma AllPrepared(dis: seq<Dinode>, files: seq<seq<u8>>, dis1: seq<Dinode>, files1: seq<seq<u8>>,
                    d: nat, i: nat, kind: int, major: int, minor: int, dis': seq<Dinode>, files': seq<seq<u8>>,
                      key: seq<u8>)
    requires Prepared(dis, files, dis1, files1, d, i, kind, major, minor, if kind == T_DIR then 1
      else 0, kind == T_DIR) && OnlyFile(dis1, files1, dis', files', d)
    requires SameMeta(dis1[d], dis'[d]) && DirMap(files'[d]) == DirMap(files1[d])[key := i] && dis[d].kind == T_DIR
    ensures Created(dis, files, dis', files', d, i, key, kind, major, minor)
  {
    hide Names;
  }
}
