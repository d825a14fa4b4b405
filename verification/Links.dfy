/** How many names an inode has, and link and unlink (`fs/do_fs.c`). */
module Links {
  import opened Words
  import opened BlockMap
  import opened FileData
  import opened InodeMap
  import opened Truncate
  import opened Directory
  import opened Inode
  import opened DirOps

  // Counting names

  /** How many of the first `n` entries name inode `i`. */
  function Count(c: seq<u8>, n: nat, i: nat): nat
    requires n <= Slots(c)
  {
    if n == 0 then 0 else Count(c, n - 1, i) + (if Inum(c, n - 1) == i then 1 else 0)
  }

  function Uses(c: seq<u8>, i: nat): nat { Count(c, Slots(c), i) }

  lemma {:induction false} CountSame(c: seq<u8>, c': seq<u8>, n: nat, i: nat)
    requires n <= Slots(c) && n <= Slots(c') && forall j :: 0 <= j < n ==> Inum(c', j) == Inum(c, j)
    ensures Count(c', n, i) == Count(c, n, i)
  {
    hide Inum;
    if n > 0 { CountSame(c, c', n - 1, i); }
  }

  lemma {:induction false} CountChange(c: seq<u8>, c': seq<u8>, n: nat, k: nat, i: nat)
    requires k < n <= Slots(c) && n <= Slots(c') && forall j :: 0 <= j < n && j != k ==> Inum(c', j) == Inum(c, j)
    ensures Count(c', n, i) == Count(c, n, i) + (if Inum(c', k) == i then 1 else 0) - (if Inum(c, k) == i then 1 else 0)
  {
    hide Inum;
    if n - 1 == k {
      CountSame(c, c', k, i);
    } else {
      CountChange(c, c', n - 1, k, i);
    }
  }

  /** Writing an entry changes the count by the name it brings and the name it takes away. */
  lemma PutUses(c: seq<u8>, c': seq<u8>, k: nat, e: seq<u8>, i: nat)
    requires PutEntry(c, c', k, e) && i != 0
    ensures k <= Slots(c) && k < Slots(c')
    ensures Uses(c', i) == Uses(c, i) + (if Inum(c', k) == i then 1 else 0)
                           - (if k < Slots(c) && Inum(c, k) == i then 1 else 0)
  {
    PutIs(c, c', k, e);
    hide Inum, PutEntry, Name;
    if k < Slots(c) {
      CountChange(c, c', Slots(c), k, i);
    } else {
      CountSame(c, c', k, i);
    }
  }

  /** How many entries of the directories `dirs` name inode `i`. */
  function NameCount(dirs: seq<seq<u8>>, i: nat): nat {
    if dirs == [] then 0 else NameCount(dirs[..|dirs| - 1], i) + Uses(dirs[|dirs| - 1], i)
  }

  lemma {:induction false} NameCountSet(dirs: seq<seq<u8>>, d: nat, c: seq<u8>, i: nat)
    requires d < |dirs|
    ensures NameCount(dirs[d := c], i) == NameCount(dirs, i) - Uses(dirs[d], i) + Uses(c, i)
    decreases |dirs|
  {
    hide Uses;
    var n := |dirs| - 1;
    if d == n {
      assert dirs[d := c][..n] == dirs[..n];
    } else {
      assert dirs[d := c][..n] == dirs[..n][d := c];
      NameCountSet(dirs[..n], d, c, i);
    }
  }

  lemma {:induction false} NameCountAt(dirs: seq<seq<u8>>, d: nat, i: nat)
    requires d < |dirs|
    ensures NameCount(dirs, i) >= Uses(dirs[d], i)
    decreases |dirs|
  {
    hide Uses;
    var n := |dirs| - 1;
    if d < n {
      NameCountAt(dirs[..n], d, i);
    }
  }

  lemma {:induction false} CountsName(c: seq<u8>, n: nat, k: nat, i: nat)
    requires k < n <= Slots(c) && Inum(c, k) == i
    ensures Count(c, n, i) >= 1
  {
    hide Inum;
    if k < n - 1 { CountsName(c, n - 1, k, i); }
  }

  /** A name in some directory counts. */
  lemma Named(dirs: seq<seq<u8>>, d: nat, k: nat)
    requires d < |dirs| && k < Slots(dirs[d]) && Inum(dirs[d], k) != 0
    ensures NameCount(dirs, Inum(dirs[d], k)) >= 1
  {
    CountsName(dirs[d], Slots(dirs[d]), k, Inum(dirs[d], k));
    NameCountAt(dirs, d, Inum(dirs[d], k));
  }

  // The file system's names

  /** The contents of the directories; nothing for other inodes. */
  ghost function Dirs(f: FileSystem): (s: seq<seq<u8>>)
    requires f.Valid()
    reads f, f.inodes, f.dinodes, f.blocks, f.bits
    ensures |s| == f.dinodes.Length
  {
    seq(f.dinodes.Length, d requires 0 <= d < f.dinodes.Length
      && f.Valid() reads f, f.inodes, f.dinodes, f.blocks, f.bits =>
      if f.dinodes[d].kind == T_DIR then f.File(d) else [])
  }

  /** The contents of all inodes. */
  ghost function Files(f: FileSystem): (s: seq<seq<u8>>)
    requires f.Valid()
    reads f, f.inodes, f.dinodes, f.blocks, f.bits
    ensures |s| == f.dinodes.Length && forall j :: 0 <= j < |s| ==> s[j] == f.File(j)
  {
    seq(f.dinodes.Length, d requires 0 <= d < f.dinodes.Length
      && f.Valid() reads f, f.inodes, f.dinodes, f.blocks, f.bits => f.File(d))
  }

  function DirsOf(dis: seq<Dinode>, files: seq<seq<u8>>): seq<seq<u8>>
    requires |files| == |dis|
  {
    seq(|dis|, d requires 0 <= d < |dis| => if dis[d].kind == T_DIR then files[d] else [])
  }

  lemma DirsFiles(f: FileSystem)
    requires f.Valid()
    ensures Dirs(f) == DirsOf(f.dinodes[..], Files(f))
  {
  }

  /** No inode but a directory has more names than its link count says. */
  ghost predicate Counted(dirs: seq<seq<u8>>, dis: seq<Dinode>) {
    forall i :: 0 < i < |dis| && dis[i].kind != 0 && dis[i].kind != T_DIR ==> NameCount(dirs, i) <= dis[i].nlink
  }

  /** Directories are in order, their names stand for inodes that stay, and no file has more names than links. */
  ghost predicate NamesOk(table: seq<Incore>, dis: seq<Dinode>, dirs: seq<seq<u8>>) {
    && |dirs| == |dis| && Counted(dirs, dis)
    && (forall d :: 0 <= d < |dirs| ==> DirOk(dirs[d]) && Linked(table, dis, dirs[d]))
  }

  ghost predicate LinksOk(f: FileSystem)
    reads f, f.inodes, f.dinodes, f.blocks, f.bits
  {
    f.Valid() && NamesOk(f.inodes[..], f.dinodes[..], Dirs(f))
  }

  lemma DirOf(f: FileSystem, dp: nat)
    requires LinksOk(f) && f.Open(dp) && f.inodes[dp].d.kind == T_DIR
    ensures IsDir(f, dp) && Dirs(f)[f.inodes[dp].inum] == Dir(f, dp) && Linked(f.inodes[..], f.dinodes[..], Dir(f, dp))
  {
    f.StartView(dp);
    assert DirOk(Dirs(f)[f.inodes[dp].inum]);
  }

  /** Inodes that stayed still do. */
  ghost predicate StaysKept(table: seq<Incore>, dis: seq<Dinode>, table': seq<Incore>, dis': seq<Dinode>) {
    forall i: nat :: Stays(table, dis, i) ==> Stays(table', dis', i)
  }

  lemma LinkedKept(table: seq<Incore>, dis: seq<Dinode>, table': seq<Incore>, dis': seq<Dinode>, c: seq<u8>)
    requires Linked(table, dis, c) && StaysKept(table, dis, table', dis')
    ensures Linked(table', dis', c)
  {
    hide Stays;
  }

  /** The same directories, with other link counts. */
  lemma NamesKeep(table: seq<Incore>, dis: seq<Dinode>, table': seq<Incore>, dis': seq<Dinode>, dirs: seq<seq<u8>>)
    requires NamesOk(table, dis, dirs) && |dis'| == |dis| && StaysKept(table, dis, table', dis') && Counted(dirs, dis')
    ensures NamesOk(table', dis', dirs)
  {
    hide DirOk, Linked, Counted, StaysKept;
    forall d | 0 <= d < |dirs| ensures Linked(table', dis', dirs[d]) {
      LinkedKept(table, dis, table', dis', dirs[d]);
    }
  }

  /** The change in the names of `i` when entry `k` is written. */
  function Delta(c: seq<u8>, c': seq<u8>, k: nat, i: nat): int
    requires k <= Slots(c) && k < Slots(c')
  {
    (if Inum(c', k) == i then 1 else 0) - (if k < Slots(c) && Inum(c, k) == i then 1 else 0)
  }

  /** An entry of directory `d` has been written. */
  lemma NamesPut(table: seq<Incore>, dis: seq<Dinode>, table': seq<Incore>, dis': seq<Dinode>, dirs: seq<seq<u8>>,
                 d: nat, c': seq<u8>, k: nat, e: seq<u8>)
    requires NamesOk(table, dis, dirs) && |dis'| == |dis| && d < |dirs| && StaysKept(table, dis, table', dis')
    requires PutEntry(dirs[d], c', k, e) && k <= Slots(dirs[d]) && k < Slots(c') && DirOk(c')
      && Linked(table', dis', c')
    requires forall i :: 0 < i < |dis| && dis'[i].kind != 0 && dis'[i].kind != T_DIR ==>
      dis'[i].nlink >= NameCount(dirs, i) + Delta(dirs[d], c', k, i)
    ensures NamesOk(table', dis', dirs[d := c'])
  {
    hide DirOk, Linked, StaysKept, PutEntry, NameCount, Uses;
    forall j | 0 <= j < |dirs| && j != d ensures Linked(table', dis', dirs[j]) {
      LinkedKept(table, dis, table', dis', dirs[j]);
    }
    forall i | 0 < i < |dis| && dis'[i].kind != 0 && dis'[i].kind != T_DIR
      ensures NameCount(dirs[d := c'], i) <= dis'[i].nlink
    {
      NameCountSet(dirs, d, c', i);
      PutUses(dirs[d], c', k, e, i);
    }
  }

  method SetAttrs(f: FileSystem, ip: nat, n: int, major: int, minor: int)
    requires f.Valid() && f.Open(ip)
    modifies f.inodes, f.dinodes
    ensures f.Valid() && f.Open(ip) && f.OnlyEntry(ip)
    ensures f.inodes[ip].d == old(f.inodes[ip].d).(nlink := n, major := major, minor := minor)
    ensures f.dinodes[..] == old(f.dinodes[..])[f.inodes[ip].inum := f.inodes[ip].d]
    ensures forall j :: 0 <= j < f.dinodes.Length ==> f.File(j) == old(f.File(j))
  {
    hide Inv, Dense, Coherent, Content, WellFormed, SizedRight;
    ghost var fs, table, i := f.Disk(), f.inodes[..], f.inodes[ip].inum;
    f.StartView(ip);
    f.inodes[ip] := f.inodes[ip].(d := f.inodes[ip].d.(nlink := n, major := major, minor := minor));
    f.Iupdate(ip);
    assert f.dinodes[..] == fs.dis[i := f.inodes[ip].d];
    Relink(fs, f.Disk(), f.own, f.start, i);
    StillCoherent(table, fs.dis, ip);
    Synced(table, f.inodes[..], fs.dis, f.dinodes[..], ip);
  }

  method SetLinks(f: FileSystem, ip: nat, n: int)
    requires f.Valid() && f.Open(ip)
    modifies f.inodes, f.dinodes
    ensures f.Valid() && f.Open(ip) && f.OnlyEntry(ip) && f.inodes[ip].d == old(f.inodes[ip].d).(nlink := n)
    ensures f.dinodes[..] == old(f.dinodes[..])[f.inodes[ip].inum := f.inodes[ip].d]
    ensures forall j :: 0 <= j < f.dinodes.Length ==> f.File(j) == old(f.File(j))
  {
    SetAttrs(f, ip, n, f.inodes[ip].d.major, f.inodes[ip].d.minor);
  }

  lemma StillCoherent(table: seq<Incore>, dis: seq<Dinode>, ip: nat)
    requires Coherent(table, dis, -1)
    ensures Coherent(table, dis, ip)
  {
  }

  /** No entry names an inode that is not in use. */
  lemma {:induction false} Unnamed(table: seq<Incore>, dis: seq<Dinode>, dirs: seq<seq<u8>>, i: nat)
    requires (forall d :: 0 <= d < |dirs| ==> DirOk(dirs[d]) && Linked(table, dis, dirs[d])) && 0 < i < |dis|
      && dis[i].kind == 0
    ensures NameCount(dirs, i) == 0
    decreases |dirs|
  {
    hide DirOk, Linked;
    if dirs != [] {
      var n := |dirs| - 1;
      forall d | 0 <= d < n ensures DirOk(dirs[..n][d]) && Linked(table, dis, dirs[..n][d]) {
        assert dirs[..n][d] == dirs[d];
      }
      Unnamed(table, dis, dirs[..n], i);
      UnnamedHere(table, dis, dirs[n], Slots(dirs[n]), i);
    }
  }

  lemma {:induction false} UnnamedHere(table: seq<Incore>, dis: seq<Dinode>, c: seq<u8>, n: nat, i: nat)
    requires DirOk(c) && Linked(table, dis, c) && n <= Slots(c) && 0 < i < |dis| && dis[i].kind == 0
    ensures Count(c, n, i) == 0
    decreases n
  {
    hide DirOk, Inum, Name, Key, Names;
    if n > 0 {
      UnnamedHere(table, dis, c, n - 1, i);
      if Inum(c, n - 1) != 0 {
        var key := Key(Name(c, n - 1));
        NamesHas(c, Slots(c), key);
        assert Names1(c, n - 1, key);
        assert Stays(table, dis, DirMap(c)[key]);
      }
    }
  }
}
