/** unlink (`fs/do_fs.c`), after its path has been walked: of files, and of empty directories. */
module Unlink {
  import opened Words
  import opened BlockMap
  import opened FileData
  import opened InodeMap
  import opened Directory
  import opened Inode
  import opened DirOps
  import opened Links
  import opened LinkOps

  /** Nothing in the directory beyond its first two entries. */
  ghost predicate EmptyDir(c: seq<u8>) {
    forall j :: 2 <= j < Slots(c) ==> Inum(c, j) == 0
  }

  // A link and a reference are given up together

  /** What is left of entry `ip` and its inode `i`; `gone`: it was the last link and the last reference. */
  predicate LinkDropped(table: seq<Incore>, dis: seq<Dinode>, table': seq<Incore>, dis': seq<Dinode>, ip: nat, i: nat,
        gone: bool) {
    && ip < |table| && i < |dis| == |dis'| && table[ip].ref > 0 && table[ip].inum == i
    && gone == (dis[i].nlink == 1 && table[ip].ref == 1)
    && table' == table[ip := Incore(i, table[ip].ref - 1, dis'[i])] && dis' == dis[i := dis'[i]]
    && (if gone then dis'[i].kind == 0 else dis'[i] == dis[i].(nlink := dis[i].nlink - 1))
  }

  /** Only the files in `gone` may differ. */
  predicate OthersKept(files: seq<seq<u8>>, files': seq<seq<u8>>, i: nat, gone: bool) {
    |files'| == |files| && forall j :: 0 <= j < |files| && (j != i || !gone) ==> files'[j] == files[j]
  }

  method DropLink(f: FileSystem, ip: nat) returns (ghost gone: bool)
    requires f.Valid() && f.Open(ip)
    modifies f.bits, f.inodes, f.dinodes, f`own
    ensures f.Valid() && LinkDropped(old(f.inodes[..]), old(f.dinodes[..]), f.inodes[..], f.dinodes[..], ip,
      old(f.inodes[ip].inum), gone)
    ensures OthersKept(old(Files(f)), Files(f), old(f.inodes[ip].inum), gone)
  {
    hide FileSystem.Valid;
    ghost var dis, files, i := f.dinodes[..], Files(f), f.inodes[ip].inum;
    f.StartView(ip);
    gone := f.inodes[ip].d.nlink == 1 && f.inodes[ip].ref == 1;
    SetLinks(f, ip, f.inodes[ip].d.nlink - 1);
    f.StartView(ip);
    ghost var dis1 := f.dinodes[..];
    f.Iput(ip);
    assert forall j :: 0 <= j < |dis| && j != i ==> f.dinodes[j] == dis1[j];
    assert f.dinodes[..] == dis[i := f.dinodes[i]];
  }

  // Which directories' names outlive their inodes

  /** No entry twice in the in-core table. */
  ghost predicate Unique(table: seq<Incore>) {
    forall j, k :: 0 <= j < k < |table| && table[j].ref > 0 && table[k].ref > 0 ==> table[j].inum != table[k].inum
  }

  /** Of directory `d` and its child `i`, those that rmdir frees; `lastD`, `lastI`: nobody else holds a reference. */
  function Freed(dis: seq<Dinode>, d: nat, i: nat, lastD: bool, lastI: bool): set<nat>
    requires d < |dis| && i < |dis|
  {
    if d == i then (if dis[d].nlink == 2 && lastD then {d} else {})
    else (if dis[d].nlink == 1 && lastD then {d} else {}) + (if dis[i].nlink == 1 && lastI then {i} else {})
  }

  /** Those that it leaves without link and reference. */
  function Sunk(dis: seq<Dinode>, d: nat, i: nat, lastD: bool, lastI: bool): set<nat>
    requires d < |dis| && i < |dis|
  {
    if d == i then (if dis[d].nlink <= 2 && lastD then {d} else {}) else Freed(dis, d, i, lastD, lastI)
  }

  /** No directory that stays names one of them, but for the name `key` in `d`. */
  ghost predicate NothingLeft(dirs: seq<seq<u8>>, freed: set<nat>, sunk: set<nat>, d: nat, key: seq<u8>) {
    forall x: nat, k ::
      x < |dirs| && x !in freed && k in DirMap(dirs[x]) && !(x == d && k == key) ==> DirMap(dirs[x])[k] !in sunk
  }

  lemma StillHeld(table: seq<Incore>, dis: seq<Dinode>, table': seq<Incore>, dis': seq<Dinode>, ip: nat, i: nat,
        gone: bool, n: nat)
    requires Unique(table) && LinkDropped(table, dis, table', dis', ip, i, gone)
    ensures Unique(table') && InTable(table', n) == if n == i then table[ip].ref > 1 else InTable(table, n)
    ensures n != i ==> (Stays(table', dis', n) <==> Stays(table, dis, n))
  {
    if n != i && InTable(table, n) {
      var j :| 0 <= j < |table| && table[j].ref > 0 && table[j].inum == n;
      assert table'[j].ref > 0 && table'[j].inum == n;
    }
    if n == i && table[ip].ref > 1 {
      assert table'[ip].ref > 0 && table'[ip].inum == n;
    }
  }

  /** After both links are dropped an inode stays if it did before and is not sunk. */
  lemma StaysUnless(t1: seq<Incore>, dis1: seq<Dinode>, t2: seq<Incore>, dis2: seq<Dinode>, t3: seq<Incore>,
        dis3: seq<Dinode>,
                    dp: nat, d: nat, goneD: bool, ip: nat, i: nat, goneI: bool, lastD: bool, lastI: bool, n: nat)
    requires Unique(t1) && LinkDropped(t1, dis1, t2, dis2, dp, d, goneD)
      && LinkDropped(t2, dis2, t3, dis3, ip, i, goneI)
    requires dis1[d].kind == T_DIR && dis1[i].kind == T_DIR && dis1[i].nlink >= 1
    requires dis1[d].nlink >= 1 || t1[dp].ref >= 2
    requires Lasts(t1, dp, ip, d, i, lastD, lastI) && Stays(t1, dis1, n)
    ensures Stays(t3, dis3, n) <==> n !in Sunk(dis1, d, i, lastD, lastI)
  {
    StillHeld(t1, dis1, t2, dis2, dp, d, goneD, n);
    StillHeld(t2, dis2, t3, dis3, ip, i, goneI, n);
  }

  /** `lastD` and `lastI` for the references the caller itself holds. */
  predicate Lasts(table: seq<Incore>, dp: nat, ip: nat, d: nat, i: nat, lastD: bool, lastI: bool)
  {
    && dp < |table| && ip < |table|
    && (if d == i then dp == ip && table[dp].ref >= 2 && (lastD <==> table[dp].ref == 2)
        else (lastD <==> table[dp].ref == 1) && (lastI <==> table[ip].ref == 1))
  }

  /** Directories as they were, but for those that are gone. */
  ghost predicate DirsLeft(dirs: seq<seq<u8>>, dirs': seq<seq<u8>>, freed: set<nat>) {
    |dirs'| == |dirs| && forall x: nat :: x < |dirs| ==> dirs'[x] == if x in freed then [] else dirs[x]
  }

  lemma {:induction false} FewerNames(dirs: seq<seq<u8>>, dirs': seq<seq<u8>>, freed: set<nat>, n: nat)
    requires DirsLeft(dirs, dirs', freed)
    ensures NameCount(dirs', n) <= NameCount(dirs, n)
    decreases |dirs|
  {
    hide Uses;
    if dirs != [] {
      var m := |dirs| - 1;
      assert DirsLeft(dirs[..m], dirs'[..m], freed);
      FewerNames(dirs[..m], dirs'[..m], freed, n);
      NoUses(n);
    }
  }

  lemma NoUses(n: nat)
    ensures Uses([], n) == 0
  {
  }

  /** Files keep at least as many links as names. */
  lemma StillCounted(dis: seq<Dinode>, dirs: seq<seq<u8>>, dis': seq<Dinode>, dirs': seq<seq<u8>>, freed: set<nat>,
        d: nat, i: nat)
    requires Counted(dirs, dis) && DirsLeft(dirs, dirs', freed) && |dis'| == |dis| && d < |dis| && i < |dis|
    requires dis[d].kind == T_DIR && dis[i].kind == T_DIR && (dis'[d].kind == T_DIR || dis'[d].kind == 0)
      && (dis'[i].kind == T_DIR || dis'[i].kind == 0)
    requires forall n :: 0 <= n < |dis| && n != d && n != i ==> dis'[n] == dis[n]
    ensures Counted(dirs', dis')
  {
    hide NameCount;
    forall n | 0 < n < |dis'| && dis'[n].kind != 0 && dis'[n].kind != T_DIR
      ensures NameCount(dirs', n) <= dis'[n].nlink {
      FewerNames(dirs, dirs', freed, n);
    }
  }

  /** The names stand for inodes that stay, exactly when none of them is sunk. */
  lemma LinkedUnless(t1: seq<Incore>, dis1: seq<Dinode>, dirs: seq<seq<u8>>, t3: seq<Incore>, dis3: seq<Dinode>,
        dirs': seq<seq<u8>>,
                     freed: set<nat>, sunk: set<nat>)
    requires NamesOk(t1, dis1, dirs) && DirsLeft(dirs, dirs', freed) && |dis3| == |dirs'| && Counted(dirs', dis3)
    requires forall n: nat :: Stays(t1, dis1, n) ==> (Stays(t3, dis3, n) <==> n !in sunk)
    ensures NamesOk(t3, dis3, dirs') <==>
      forall x: nat, k :: x < |dirs| && x !in freed && k in DirMap(dirs[x]) ==> DirMap(dirs[x])[k] !in sunk
  {
    hide Stays, Names, DirOk, Counted;
    NoNamesAtAll();
    forall x: nat | x < |dirs| ensures DirOk(dirs'[x]) {
      assert DirOk(dirs[x]);
    }
    forall x: nat, k | x < |dirs| && x !in freed && k in DirMap(dirs[x])
      ensures Stays(t3, dis3, DirMap(dirs'[x])[k]) <==> DirMap(dirs[x])[k] !in sunk
    {
      LinkedKey(t1, dis1, dirs[x], k);
    }
    if NamesOk(t3, dis3, dirs') {
      forall x: nat, k | x < |dirs| && x !in freed && k in DirMap(dirs[x]) ensures DirMap(dirs[x])[k] !in sunk {
        LinkedKey(t3, dis3, dirs'[x], k);
      }
    }
  }

  lemma NoNamesAtAll()
    ensures DirOk([]) && DirMap([]) == map[]
  {
  }

  /** The name `key` has gone from `d` already. */
  lemma ButOne(dirs: seq<seq<u8>>, dirs1: seq<seq<u8>>, freed: set<nat>, sunk: set<nat>, d: nat, key: seq<u8>)
    requires |dirs1| == |dirs| && d < |dirs| && DirMap(dirs1[d]) == DirMap(dirs[d]) - {key}
    requires forall x: nat :: x < |dirs| && x != d ==> dirs1[x] == dirs[x]
    ensures NothingLeft(dirs, freed, sunk, d, key) <==>
      forall x: nat, k :: x < |dirs1| && x !in freed && k in DirMap(dirs1[x]) ==> DirMap(dirs1[x])[k] !in sunk
  {
    hide Names;
    if NothingLeft(dirs, freed, sunk, d, key) {
      forall x: nat, k | x < |dirs1| && x !in freed && k in DirMap(dirs1[x]) ensures DirMap(dirs1[x])[k] !in sunk {
        assert k in DirMap(dirs[x]) && !(x == d && k == key);
      }
    } else {
      var x: nat, k :| x < |dirs| && x !in freed && k in DirMap(dirs[x]) && !(x == d && k == key)
        && DirMap(dirs[x])[k] in sunk;
      assert k in DirMap(dirs1[x]);
    }
  }

  /** What unlink does to the empty directory `i`, named `key` in `d`. */
  ghost predicate DirUnlinked(dis: seq<Dinode>, files: seq<seq<u8>>, dis': seq<Dinode>, files': seq<seq<u8>>,
                              d: nat, i: nat, key: seq<u8>, freed: set<nat>) {
    && |files| == |dis| == |files'| == |dis'| && d < |dis| && i < |dis|
    && (forall j :: 0 <= j < |dis| && j != d && j != i ==> dis'[j] == dis[j] && files'[j] == files[j])
    && (forall j :: j in freed ==> j < |dis| && dis'[j].kind == 0)
    && (d !in freed ==>
         && dis'[d].kind == T_DIR && dis'[d].nlink == dis[d].nlink - (if d == i then 2 else 1)
         && DirMap(files'[d]) == DirMap(files[d]) - {key} && EntryLess(files[d], files'[d], key))
    && (i !in freed && i != d ==> dis'[i] == dis[i].(nlink := dis[i].nlink - 1) && files'[i] == files[i])
  }

  /** The directories after both links are dropped. */
  lemma DirsAfter(t1: seq<Incore>, dis1: seq<Dinode>, files1: seq<seq<u8>>, t2: seq<Incore>, dis2: seq<Dinode>,
        files2: seq<seq<u8>>,
                  t3: seq<Incore>, dis3: seq<Dinode>, files3: seq<seq<u8>>, dp: nat, d: nat, goneD: bool, ip: nat,
                    i: nat, goneI: bool,
                  lastD: bool, lastI: bool)
    requires |files1| == |dis1| && Lasts(t1, dp, ip, d, i, lastD, lastI)
    requires LinkDropped(t1, dis1, t2, dis2, dp, d, goneD) && LinkDropped(t2, dis2, t3, dis3, ip, i, goneI)
    requires OthersKept(files1, files2, d, goneD) && OthersKept(files2, files3, i, goneI)
    requires dis1[d].kind == T_DIR && dis1[i].kind == T_DIR
    ensures |dis3| == |dis1| && d < |dis1| && i < |dis1|
    ensures DirsLeft(DirsOf(dis1, files1), DirsOf(dis3, files3), Freed(dis1, d, i, lastD, lastI))
    ensures forall n :: 0 <= n < |dis1| && n != d && n != i ==> dis3[n] == dis1[n]
    ensures (dis3[d].kind == T_DIR || dis3[d].kind == 0) && (dis3[i].kind == T_DIR || dis3[i].kind == 0)
  {
  }

  /** Clearing the entry, then dropping both links. */
  lemma BothDropped(dis: seq<Dinode>, files: seq<seq<u8>>, t1: seq<Incore>, dis1: seq<Dinode>, files1: seq<seq<u8>>,
                    t2: seq<Incore>, dis2: seq<Dinode>, files2: seq<seq<u8>>,
                    t3: seq<Incore>, dis3: seq<Dinode>, files3: seq<seq<u8>>, dp: nat, d: nat, goneD: bool, ip: nat,
                      i: nat, goneI: bool,
                    lastD: bool, lastI: bool, key: seq<u8>)
    requires OnlyFile(dis, files, dis1, files1, d) && dis1[d].kind == dis[d].kind && dis1[d].nlink == dis[d].nlink
    requires DirMap(files1[d]) == DirMap(files[d]) - {key} && EntryLess(files[d], files1[d], key)
      && Lasts(t1, dp, ip, d, i, lastD, lastI)
    requires LinkDropped(t1, dis1, t2, dis2, dp, d, goneD) && LinkDropped(t2, dis2, t3, dis3, ip, i, goneI)
    requires OthersKept(files1, files2, d, goneD) && OthersKept(files2, files3, i, goneI)
    requires dis1[d].kind == T_DIR && dis1[i].kind == T_DIR
    ensures i < |dis| && Freed(dis1, d, i, lastD, lastI) == Freed(dis, d, i, lastD, lastI)
      && Sunk(dis1, d, i, lastD, lastI) == Sunk(dis, d, i, lastD, lastI)
    ensures DirUnlinked(dis, files, dis3, files3, d, i, key, Freed(dis, d, i, lastD, lastI))
  {
    hide Names, EntryLess;
  }

  /** When the names are in order after that. */
  lemma DirNamesAfter(t1: seq<Incore>, dis1: seq<Dinode>, files1: seq<seq<u8>>, t2: seq<Incore>, dis2: seq<Dinode>,
        files2: seq<seq<u8>>,
                      t3: seq<Incore>, dis3: seq<Dinode>, files3: seq<seq<u8>>, dp: nat, d: nat, goneD: bool, ip: nat,
                        i: nat, goneI: bool,
                      lastD: bool, lastI: bool)
    requires |files1| == |dis1| && Lasts(t1, dp, ip, d, i, lastD, lastI) && Unique(t1)
    requires LinkDropped(t1, dis1, t2, dis2, dp, d, goneD) && LinkDropped(t2, dis2, t3, dis3, ip, i, goneI)
    requires OthersKept(files1, files2, d, goneD) && OthersKept(files2, files3, i, goneI)
    requires dis1[d].kind == T_DIR && dis1[i].kind == T_DIR && dis1[i].nlink >= 1
    requires dis1[d].nlink >= 1 || t1[dp].ref >= 2
    requires NamesOk(t1, dis1, DirsOf(dis1, files1))
    ensures |files3| == |dis3| && d < |dis1| && i < |dis1| && Counted(DirsOf(dis3, files3), dis3)
    ensures var dirs := DirsOf(dis1, files1); NamesOk(t3, dis3, DirsOf(dis3, files3)) <==>
      forall x: nat, k :: x < |dirs| && x !in Freed(dis1, d, i, lastD, lastI) && k in DirMap(dirs[x]) ==>
        DirMap(dirs[x])[k] !in Sunk(dis1, d, i, lastD, lastI)
  {
    var dirs, freed, sunk := DirsOf(dis1, files1), Freed(dis1, d, i, lastD, lastI), Sunk(dis1, d, i, lastD, lastI);
    DirsAfter(t1, dis1, files1, t2, dis2, files2, t3, dis3, files3, dp, d, goneD, ip, i, goneI, lastD, lastI);
    forall n: nat | Stays(t1, dis1, n) ensures Stays(t3, dis3, n) <==> n !in sunk {
      StaysUnless(t1, dis1, t2, dis2, t3, dis3, dp, d, goneD, ip, i, goneI, lastD, lastI, n);
    }
    hide Stays, Freed, Sunk, LinkDropped, NameCount, Linked, DirOk, Names, DirsOf, DirsLeft, Unique, Lasts;
    StillCounted(dis1, dirs, dis3, DirsOf(dis3, files3), freed, d, i);
    LinkedUnless(t1, dis1, dirs, t3, dis3, DirsOf(dis3, files3), freed, sunk);
  }

  lemma FsUnique(f: FileSystem)
    requires f.Valid()
    ensures Unique(f.inodes[..])
  {
  }

  /** What a successful unlink of a directory leaves, and exactly when the names stay in order. */
  ghost predicate RmdirDone(dis: seq<Dinode>, files: seq<seq<u8>>, dis': seq<Dinode>, files': seq<seq<u8>>, ok: bool,
                            d: nat, i: nat, key: seq<u8>, lastD: bool, lastI: bool)
    requires |files| == |dis| && |files'| == |dis'| && d < |dis| && i < |dis|
  {
    && DirUnlinked(dis, files, dis', files', d, i, key, Freed(dis, d, i, lastD, lastI))
    && Counted(DirsOf(dis', files'), dis')
    && (ok <==> NothingLeft(DirsOf(dis, files), Freed(dis, d, i, lastD, lastI), Sunk(dis, d, i, lastD, lastI), d, key))
  }

  /** The end of unlink for a directory: refused when it has entries of its own. */
  method UnlinkDir(f: FileSystem, dp: nat, ip: nat, off: nat, ghost k: nat, ghost key: seq<u8>, ghost lastD: bool,
        ghost lastI: bool)
    returns (r: int)
    requires LinksOk(f) && f.Open(dp) && f.inodes[dp].d.kind == T_DIR && Spare(f.inodes[dp]) && off == DIRENT * k
    requires f.Open(ip) && f.inodes[ip].d.kind == T_DIR && f.inodes[ip].d.nlink >= 1
    requires Lasts(f.inodes[..], dp, ip, f.inodes[dp].inum, f.inodes[ip].inum, lastD, lastI)
    requires k < Slots(f.File(f.inodes[dp].inum)) && Names1(f.File(f.inodes[dp].inum), k, key)
    requires Inum(f.File(f.inodes[dp].inum), k) == f.inodes[ip].inum
    modifies f.bits, f.blocks, f.inodes, f.dinodes, f`own
    ensures f.Valid() && (r == -1 <==> !EmptyDir(old(Dirs(f))[old(f.inodes[ip].inum)])) && (r == -1 || r == 0)
    ensures r == -1 ==> LinksOk(f) && f.dinodes[..] == old(f.dinodes[..]) && Files(f) == old(Files(f))
    ensures r == 0 ==>
      RmdirDone(old(f.dinodes[..]), old(Files(f)), f.dinodes[..], Files(f), LinksOk(f),
                old(f.inodes[dp].inum), old(f.inodes[ip].inum), key, lastD, lastI)
    ensures BothReleased(old(f.inodes[..]), f.inodes[..], dp, ip)
  {
    hide FileSystem.Valid, Inum, Name, Key, Names, DirOk, Linked, NameCount, Counted, NamesOk, LinkDropped, OthersKept,
         NothingLeft, Freed, Sunk, DirUnlinked, OnlyFile, Unique, EmptyDir, EntryLess;
    ghost var d, i, files, dis, table, dirs := f.inodes[dp].inum, f.inodes[ip].inum, Files(f), f.dinodes[..],
      f.inodes[..], Dirs(f);
    f.StartView(ip);
    f.StartView(dp);
    DirOf(f, ip);
    DirsFiles(f);
    var empty := IsDirEmpty(f, ip);
    SameFs(f, files, dis, table, dirs);
    assert empty <==> EmptyDir(dirs[i]) by { EmptyIs(dirs[i]); }
    if !empty {
      DropRef(f, ip);
      DropRef(f, dp);
      return -1;
    }
    ClearName(f, dp, off, i, k, key);
    ghost var t1, dis1, files1 := f.inodes[..], f.dinodes[..], Files(f);
    f.StartView(dp);
    Cleared(dis, files, table, t1, dis1, files1, dp, ip, d, i, lastD, lastI);
    f.StartView(ip);
    DirsFiles(f);
    FsUnique(f);
    ghost var goneD := DropLink(f, dp);
    ghost var t2, dis2, files2 := f.inodes[..], f.dinodes[..], Files(f);
    StillOpen(t1, dis1, t2, dis2, dp, ip, d, i, goneD, lastD, lastI);
    ghost var goneI := DropLink(f, ip);
    DirsFiles(f);
    r := 0;
    BothLess(table, t1, dis1, t2, dis2, f.inodes[..], f.dinodes[..], dp, d, goneD, ip, i, goneI);
    BothDropped(dis, files, t1, dis1, files1, t2, dis2, files2, f.inodes[..], f.dinodes[..], Files(f), dp, d, goneD,
      ip, i, goneI, lastD, lastI, key);
    DirNamesAfter(t1, dis1, files1, t2, dis2, files2, f.inodes[..], f.dinodes[..], Files(f), dp, d, goneD, ip, i,
      goneI, lastD, lastI);
    KeyCleared(dis, files, dis1, files1, d, key, Freed(dis, d, i, lastD, lastI), Sunk(dis, d, i, lastD, lastI));
  }

  lemma BothLess(table: seq<Incore>, t1: seq<Incore>, dis1: seq<Dinode>, t2: seq<Incore>, dis2: seq<Dinode>,
                 t3: seq<Incore>, dis3: seq<Dinode>, dp: nat, d: nat, goneD: bool, ip: nat, i: nat, goneI: bool)
    requires |t1| == |table| > dp && t1 == table[dp := table[dp].(d := t1[dp].d)]
    requires LinkDropped(t1, dis1, t2, dis2, dp, d, goneD) && LinkDropped(t2, dis2, t3, dis3, ip, i, goneI)
    ensures BothReleased(table, t3, dp, ip)
  {
  }

  lemma EmptyIs(c: seq<u8>)
    ensures EmptyDir(c) <==> forall j :: 2 <= j < Slots(c) ==> Inum(c, j) == 0
  {
  }

  lemma Cleared(dis: seq<Dinode>, files: seq<seq<u8>>, table: seq<Incore>, t1: seq<Incore>, dis1: seq<Dinode>,
        files1: seq<seq<u8>>,
                dp: nat, ip: nat, d: nat, i: nat, lastD: bool, lastI: bool)
    requires OnlyFile(dis, files, dis1, files1, d) && i < |dis|
      && (dis1[d].kind == T_DIR && dis1[d].nlink == dis[d].nlink)
    requires dp < |table| == |t1| && t1 == table[dp := table[dp].(d := t1[dp].d)]
      && Lasts(table, dp, ip, d, i, lastD, lastI)
    requires dis[i].kind == T_DIR
    ensures Lasts(t1, dp, ip, d, i, lastD, lastI) && dis1[i].kind == T_DIR && dis1[i].nlink == dis[i].nlink
    ensures t1[ip].ref == table[ip].ref && t1[ip].inum == table[ip].inum
  {
  }

  lemma StillOpen(t1: seq<Incore>, dis1: seq<Dinode>, t2: seq<Incore>, dis2: seq<Dinode>, dp: nat, ip: nat, d: nat,
        i: nat, goneD: bool,
                  lastD: bool, lastI: bool)
    requires LinkDropped(t1, dis1, t2, dis2, dp, d, goneD) && Lasts(t1, dp, ip, d, i, lastD, lastI)
    requires ip < |t1| && t1[ip].ref > 0 && t1[ip].inum == i < |dis1|
    ensures ip < |t2| && t2[ip].ref > 0 && t2[ip].inum == i < |dis2|
  {
  }

  lemma KeyCleared(dis: seq<Dinode>, files: seq<seq<u8>>, dis1: seq<Dinode>, files1: seq<seq<u8>>, d: nat, key: seq<u8>,
                   freed: set<nat>, sunk: set<nat>)
    requires OnlyFile(dis, files, dis1, files1, d) && dis[d].kind == T_DIR && dis1[d].kind == T_DIR
    requires DirMap(files1[d]) == DirMap(files[d]) - {key}
    ensures var dirs1 := DirsOf(dis1, files1); NothingLeft(DirsOf(dis, files), freed, sunk, d, key) <==>
      forall x: nat, k :: x < |dirs1| && x !in freed && k in DirMap(dirs1[x]) ==> DirMap(dirs1[x])[k] !in sunk
  {
    hide Names;
    ButOne(DirsOf(dis, files), DirsOf(dis1, files1), freed, sunk, d, key);
  }

  lemma SameFs(f: FileSystem, files: seq<seq<u8>>, dis: seq<Dinode>, table: seq<Incore>, dirs: seq<seq<u8>>)
    requires f.Valid() && Files(f) == files && f.dinodes[..] == dis && f.inodes[..] == table
      && dirs == DirsOf(dis, files)
    requires NamesOk(table, dis, dirs)
    ensures LinksOk(f) && Dirs(f) == dirs
  {
    DirsFiles(f);
  }

  /** After the lookup only the caller holds what nobody held before. */
  lemma RefsHeld(table: seq<Incore>, table': seq<Incore>, dp: nat, ip: nat, d: nat, i: nat)
    requires Unique(table') && dp < |table| && ip < |table| == |table'| && table' == table[ip := table'[ip]]
    requires table[dp].ref > 0 && table'[dp].inum == d && table'[ip].inum == i
    requires table'[ip].ref == table[ip].ref + 1 && (table'[ip].ref >= 2 <==> InTable(table, i))
      && table'[dp].ref >= table[dp].ref
    ensures Lasts(table', dp, ip, d, i, table[dp].ref == 1, !InTable(table, i))
  {
    hide InTable;
  }

  lemma ReleasedBy(table: seq<Incore>, t0: seq<Incore>, t3: seq<Incore>, dp: nat, ip: nat)
    requires dp < |table| && ip < |table| == |t0| && t0 == table[ip := t0[ip]] && t0[ip].ref == table[ip].ref + 1
    requires (table[ip].ref > 0 ==> t0[ip].inum == table[ip].inum) && BothReleased(t0, t3, dp, ip)
    ensures RefsMoved(table, t3, -1, dp, -1)
  {
  }

  /**
   The name goes from directory `dp` (what nameiparent has found). It fails for `.`, `..`, a name that is
   not there, and a directory with entries of its own. It panics when the in-core table is full, or the
   inode has no link left.
   */
  method DoUnlink(f: FileSystem, dp: nat, name: seq<u8>) returns (r: int, panic: bool, ghost i: nat)
    requires LinksOk(f) && f.Open(dp) && f.inodes[dp].d.kind == T_DIR && Spare(f.inodes[dp]) && |name| == NAMELEN
    modifies f.bits, f.blocks, f.inodes, f.dinodes, f`own
    ensures var names := DirMap(old(f.File(f.inodes[dp].inum)));
      if Key(name) == DOT || Key(name) == DOTDOT || Key(name) !in names then !panic && r == -1
      else
        && i == names[Key(name)] < f.dinodes.Length
        && (panic <==> old(f.dinodes[..])[i].nlink < 1
                       || (Full(old(f.inodes[..])) && !InTable(old(f.inodes[..]), i)))
        && (!panic ==> (r == -1 <==> old(f.dinodes[..])[i].kind == T_DIR && !EmptyDir(old(Dirs(f))[i])))
    ensures !panic ==> f.Valid() && (r == 0 || r == -1) && RefsMoved(old(f.inodes[..]), f.inodes[..], -1, dp, -1)
    ensures !panic && r == -1 ==> LinksOk(f) && f.dinodes[..] == old(f.dinodes[..]) && Files(f) == old(Files(f))
    ensures !panic && r == 0 && i < f.dinodes.Length && old(f.dinodes[..])[i].kind != T_DIR ==>
      && LinksOk(f)
      && FileUnlinked(old(f.dinodes[..]), old(Files(f)), f.dinodes[..], Files(f), old(f.inodes[dp].inum), i, Key(name),
           old(f.dinodes[..])[i].nlink == 1 && !InTable(old(f.inodes[..]), i))
    ensures !panic && r == 0 && i < f.dinodes.Length && old(f.dinodes[..])[i].kind == T_DIR ==>
      RmdirDone(old(f.dinodes[..]), old(Files(f)), f.dinodes[..], Files(f), LinksOk(f), old(f.inodes[dp].inum), i,
        Key(name),
                old(f.inodes[dp].ref) == 1, !InTable(old(f.inodes[..]), i))
  {
    hide FileSystem.Valid, Inum, Name, Key, Names, DirOk, Linked, NameCount, Counted, NamesOk, FileUnlinked, EmptyDir,
         InTable, RmdirDone, RefsMoved, BothReleased;
    f.StartView(dp);
    DirOf(f, dp);
    ghost var c, lastD, table := f.File(f.inodes[dp].inum), f.inodes[dp].ref == 1, f.inodes[..];
    var ip, off;
    ghost var k;
    i, panic, r := 0, false, -1;
    if Key(name) == DOT || Key(name) == DOTDOT {
      DropRef(f, dp);
      return;
    }
    if Key(name) in DirMap(c) {
      i := DirMap(c)[Key(name)];
      LinkedKey(f.inodes[..], f.dinodes[..], c, Key(name));
    }
    ip, off, k, panic := LookupName(f, dp, name);
    if panic { return; }
    if ip == -1 {
      DropRef(f, dp);
      return;
    }
    ghost var t0 := f.inodes[..];
    f.StartView(ip);
    NamedHere(f, dp, k);
    if f.inodes[ip].d.nlink < 1 {
      panic := true;
      return;
    }
    if f.inodes[ip].d.kind == T_DIR {
      FsUnique(f);
      RefsHeld(table, f.inodes[..], dp, ip, f.inodes[dp].inum, i);
      r := UnlinkDir(f, dp, ip, off, k, Key(name), lastD, !InTable(table, i));
    } else {
      UnlinkFile(f, dp, ip, off, k, Key(name));
      r := 0;
    }
    ReleasedBy(table, t0, f.inodes[..], dp, ip);
  }

  // rmdir of the parent of a removed directory that a process is still in

  /**
   `b` is an empty directory in `a`, `a` has nothing else and is named `keyA` in `root`; some process is in `b`,
   and entry `ap` is the only reference to `a`.
   */
  ghost predicate CwdBelow(table: seq<Incore>, dis: seq<Dinode>, files: seq<seq<u8>>, ap: nat, rp: nat, b: nat,
        keyB: seq<u8>, keyA: seq<u8>)
  {
    && ap < |table| && rp < |table| && table[ap].inum < |dis| == |files| && table[rp].inum < |dis| && b < |dis|
    && var a, root := table[ap].inum, table[rp].inum;
    && a != root && b != a && b != root && table[ap].ref == 1 && table[rp].ref >= 1
    && dis[a].kind == T_DIR && dis[b].kind == T_DIR && dis[root].kind == T_DIR
    && dis[a].nlink == 2 && dis[b].nlink == 1 && dis[root].nlink >= 2 && InTable(table, b) && EmptyDir(files[b])
    && keyB != DOT && keyB != DOTDOT && keyA != DOT && keyA != DOTDOT
    && keyB in DirMap(files[a]) && DirMap(files[a])[keyB] == b
    && (forall j :: 2 <= j < Slots(files[a]) && Inum(files[a], j) != 0 ==> Names1(files[a], j, keyB))
    && keyA in DirMap(files[root]) && DirMap(files[root])[keyA] == a
    && DOTDOT in DirMap(files[b]) && DirMap(files[b])[DOTDOT] == a
  }

  /** After `b` has gone from `a`: unlinked, but held; `a` is empty. */
  ghost predicate CwdRemoved(table: seq<Incore>, dis: seq<Dinode>, files: seq<seq<u8>>, ap: nat, rp: nat, a: nat,
        root: nat, b: nat, keyA: seq<u8>)
  {
    && ap < |table| && rp < |table| && table[ap].ref == 0 && table[rp].ref >= 1 && table[rp].inum == root
    && a < |dis| == |files| && b < |dis| && root < |dis| && a != root && b != a && b != root
    && dis[a].kind == T_DIR && dis[b].kind == T_DIR && dis[root].kind == T_DIR && dis[a].nlink == 1
      && dis[root].nlink >= 2
    && EmptyDir(files[a]) && keyA in DirMap(files[root]) && DirMap(files[root])[keyA] == a
    && DOTDOT in DirMap(files[b]) && DirMap(files[b])[DOTDOT] == a && !InTable(table, a)
  }

  lemma FirstRemoval(table: seq<Incore>, dis: seq<Dinode>, files: seq<seq<u8>>, table': seq<Incore>, dis': seq<Dinode>,
        files': seq<seq<u8>>,
                     ok: bool, ap: nat, rp: nat, b: nat, keyB: seq<u8>, keyA: seq<u8>)
    requires Unique(table) && CwdBelow(table, dis, files, ap, rp, b, keyB, keyA) && |files'| == |dis'| == |dis|
      && RefsMoved(table, table', -1, ap, -1)
    requires RmdirDone(dis, files, dis', files', ok, table[ap].inum, b, keyB, true, false)
    ensures CwdRemoved(table', dis', files', ap, rp, table[ap].inum, table[rp].inum, b, keyA) && ok
  {
    hide Names, Inum, Names1, Counted;
    var a := table[ap].inum;
    assert EntryLess(files[a], files'[a], keyB);
    forall j | 0 <= j < |table'| && table'[j].ref > 0 ensures table'[j].inum != a {
      assert j != ap && table[j].ref > 0;
    }
  }

  lemma SecondRemoval(table: seq<Incore>, dis: seq<Dinode>, files: seq<seq<u8>>, dis': seq<Dinode>,
        files': seq<seq<u8>>,
                      ok: bool, lastD: bool, ap: nat, rp: nat, a: nat, root: nat, b: nat, keyA: seq<u8>)
    requires CwdRemoved(table, dis, files, ap, rp, a, root, b, keyA) && |files'| == |dis'| == |dis|
    requires RmdirDone(dis, files, dis', files', ok, root, a, keyA, lastD, true)
    ensures !ok && dis'[a].kind == 0 && dis'[b].kind == T_DIR && DOTDOT in DirMap(files'[b])
      && DirMap(files'[b])[DOTDOT] == a
  {
    hide Names, Counted;
    var dirs := DirsOf(dis, files);
    assert b < |dirs| && DirMap(dirs[b])[DOTDOT] == a;
  }

  /**
   Both removals succeed, and then the live directory `b` has a freed inode as its parent: nlink counts
   the ".." entries of directories that are linked, not of those that are only held.
   */
  method RemoveAboveCwd(f: FileSystem, ap: nat, rp: nat, ghost b: nat, nameB: seq<u8>,
        nameA: seq<u8>) returns (r1: int, r2: int, panic: bool)
    requires LinksOk(f) && f.Open(ap) && f.Open(rp) && |nameB| == |nameA| == NAMELEN
    requires CwdBelow(f.inodes[..], f.dinodes[..], Files(f), ap, rp, b, Key(nameB), Key(nameA))
    modifies f.bits, f.blocks, f.inodes, f.dinodes, f`own
    ensures r1 == 0 && r2 == 0 && !panic && f.Valid() && !LinksOk(f)
    ensures var a := old(f.inodes[ap].inum);
      a < |f.dinodes[..]| && b < |f.dinodes[..]| && f.dinodes[a].kind == 0 && f.dinodes[b].kind == T_DIR
      && DOTDOT in DirMap(f.File(b)) && DirMap(f.File(b))[DOTDOT] == a
  {
    hide FileSystem.Valid, Inum, Name, Key, Names, DirOk, Linked, NameCount, Counted, NamesOk, InTable, RmdirDone,
         RefsMoved, CwdRemoved, EmptyDir;
    ghost var a, root, table, dis, files := f.inodes[ap].inum, f.inodes[rp].inum, f.inodes[..], f.dinodes[..], Files(f);
    f.StartView(ap);
    f.StartView(rp);
    FsUnique(f);
    DirsFiles(f);
    ghost var i;
    r1, panic, i := DoUnlink(f, ap, nameB);
    FirstRemoval(table, dis, files, f.inodes[..], f.dinodes[..], Files(f), LinksOk(f), ap, rp, b, Key(nameB),
      Key(nameA));
    ghost var t1, dis1, files1, lastD := f.inodes[..], f.dinodes[..], Files(f), f.inodes[rp].ref == 1;
    RemovedFacts(t1, dis1, files1, ap, rp, a, root, b, Key(nameA));
    f.StartView(rp);
    DirsFiles(f);
    r2, panic, i := DoUnlink(f, rp, nameA);
    SecondRemoval(t1, dis1, files1, f.dinodes[..], Files(f), LinksOk(f), lastD, ap, rp, a, root, b, Key(nameA));
  }

  lemma RemovedFacts(table: seq<Incore>, dis: seq<Dinode>, files: seq<seq<u8>>, ap: nat, rp: nat, a: nat, root: nat,
        b: nat, keyA: seq<u8>)
    requires CwdRemoved(table, dis, files, ap, rp, a, root, b, keyA)
    ensures !Full(table) && !InTable(table, a) && rp < |table| && table[rp].ref > 0
      && table[rp].inum == root < |dis| == |files|
    ensures dis[root].kind == T_DIR && dis[root].nlink >= 1 && keyA in DirMap(files[root])
      && DirMap(files[root])[keyA] == a < |dis|
    ensures dis[a].kind == T_DIR && dis[a].nlink == 1 && EmptyDir(files[a]) && b < |dis|
  {
  }
}
