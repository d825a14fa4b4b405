/** Directories (`fs/inode.c`): files of 20-byte entries, read as finite maps from names to inodes. */
module Directory {
  import opened Words
  import opened BlockMap
  import opened FileData

  const DIRENT := 20
  const NAMELEN := 16
  const DOT: seq<u8> := [46]
  const DOTDOT: seq<u8> := [46, 46]

  // Names: a field of 16 bytes, ended early by a zero byte

  function Key(name: seq<u8>): (k: seq<u8>)
    ensures |k| <= |name| && k == name[..|k|] && 0 !in k && (|k| < |name| ==> name[|k|] == 0)
  {
    if name == [] || name[0] == 0 then [] else [name[0]] + Key(name[1..])
  }

  /** strncpy: the bytes after the zero are left as they were. */
  function Strncpy(was: seq<u8>, name: seq<u8>): (r: seq<u8>)
    requires |was| == |name| == NAMELEN
    ensures |r| == NAMELEN
  {
    var n := |Key(name)|;
    if n == NAMELEN then name else name[..n + 1] + was[n + 1..]
  }

  lemma {:induction false} KeyPrefix(a: seq<u8>, b: seq<u8>, n: nat)
    requires n <= |a| && n <= |b| && a[..n] == b[..n] && 0 !in a[..n] && (n < |a| ==> a[n] == 0)
      && (n < |b| ==> b[n] == 0)
    ensures Key(a) == Key(b) == a[..n]
    decreases n
  {
    if n > 0 {
      assert a[0] == a[..n][0] && b[0] == b[..n][0];
      assert a[1..][..n - 1] == a[..n][1..] && b[1..][..n - 1] == b[..n][1..];
      KeyPrefix(a[1..], b[1..], n - 1);
    }
  }

  lemma StrncpyKey(was: seq<u8>, name: seq<u8>)
    requires |was| == |name| == NAMELEN
    ensures Key(Strncpy(was, name)) == Key(name)
  {
    var n := |Key(name)|;
    KeyPrefix(Strncpy(was, name), name, n);
  }

  // Entries

  function Slots(c: seq<u8>): nat { |c| / DIRENT }

  function Inum(c: seq<u8>, k: nat): u32
    requires k < Slots(c)
  {
    c[DIRENT * k] as int + 0x100 * c[DIRENT * k + 1] as int
    + 0x1_0000 * c[DIRENT * k + 2] as int + 0x100_0000 * c[DIRENT * k + 3] as int
  }

  function Name(c: seq<u8>, k: nat): (s: seq<u8>)
    requires k < Slots(c)
    ensures |s| == NAMELEN
  {
    c[DIRENT * k + 4..DIRENT * k + DIRENT]
  }

  function InumBytes(n: u32): (r: seq<u8>)
    ensures |r| == 4
  {
    [n % 0x100, n / 0x100 % 0x100, n / 0x1_0000 % 0x100, n / 0x100_0000]
  }

  /** Whole entries only, and no name twice. */
  ghost predicate DirOk(c: seq<u8>) {
    && |c| % DIRENT == 0
    && (forall j, k ::
          0 <= j < k < Slots(c) && Inum(c, j) != 0 && Inum(c, k) != 0 ==> Key(Name(c, j)) != Key(Name(c, k)))
  }

  /** The names of the first `n` entries, with their inodes. */
  function Names(c: seq<u8>, n: nat): map<seq<u8>, u32>
    requires n <= Slots(c)
  {
    if n == 0 then map[]
    else if Inum(c, n - 1) == 0 then Names(c, n - 1)
    else Names(c, n - 1)[Key(Name(c, n - 1)) := Inum(c, n - 1)]
  }

  function DirMap(c: seq<u8>): map<seq<u8>, u32> { Names(c, Slots(c)) }

  /** Entry `k` gives `key` to an inode. */
  predicate Names1(c: seq<u8>, k: nat, key: seq<u8>)
    requires k < Slots(c)
  {
    Inum(c, k) != 0 && Key(Name(c, k)) == key
  }

  lemma {:induction false} NamesHas(c: seq<u8>, n: nat, key: seq<u8>)
    requires DirOk(c) && n <= Slots(c)
    ensures key in Names(c, n) <==> exists k :: 0 <= k < n && Names1(c, k, key)
    ensures forall k :: 0 <= k < n && Names1(c, k, key) ==> key in Names(c, n) && Names(c, n)[key] == Inum(c, k)
  {
    hide Inum, Name, Key, DirOk;
    if n > 0 {
      NamesHas(c, n - 1, key);
      if Names1(c, n - 1, key) {
        forall k | 0 <= k < n && Names1(c, k, key) ensures k == n - 1 {
          SameEntry(c, k, n - 1, key);
        }
      }
    }
  }

  lemma SameEntry(c: seq<u8>, j: nat, k: nat, key: seq<u8>)
    requires DirOk(c) && j < Slots(c) && k < Slots(c) && Names1(c, j, key) && Names1(c, k, key)
    ensures j == k
  {
  }

  // Writing an entry

  /** `c'` is `c` with the 20 bytes `e` as entry `k`, perhaps a new last one. */
  ghost predicate PutEntry(c: seq<u8>, c': seq<u8>, k: nat, e: seq<u8>) {
    |c| % DIRENT == 0 && |e| == DIRENT && DIRENT * k <= |c| && c' == Splice(c, DIRENT * k, e)
  }

  lemma PutIs(c: seq<u8>, c': seq<u8>, k: nat, e: seq<u8>)
    requires PutEntry(c, c', k, e)
    ensures |c'| % DIRENT == 0 && k <= Slots(c) && Slots(c') == if k == Slots(c) then k + 1 else Slots(c)
    ensures forall j ::
      0 <= j < Slots(c') && j != k ==> j < Slots(c) && Inum(c', j) == Inum(c, j) && Name(c', j) == Name(c, j)
    ensures Name(c', k) == e[4..]
    ensures Inum(c', k) == e[0] as int + 0x100 * e[1] as int + 0x1_0000 * e[2] as int + 0x100_0000 * e[3] as int
  {
    forall x | 0 <= x < |c'|
      ensures c'[x] == if DIRENT * k <= x < DIRENT * k + DIRENT then e[x - DIRENT * k] else c[x] {
      SpliceAt(c, DIRENT * k, e, x);
    }
    hide Splice;
    forall j | 0 <= j < Slots(c') && j != k
      ensures j < Slots(c) && Inum(c', j) == Inum(c, j) && Name(c', j) == Name(c, j) {
      assert forall x :: DIRENT * j <= x < DIRENT * j + DIRENT ==> c'[x] == c[x];
    }
    assert forall x :: 0 <= x < NAMELEN ==> Name(c', k)[x] == e[4..][x];
  }

  /** dirlink: a free entry takes a name the directory does not have. */
  lemma DirPut(c: seq<u8>, c': seq<u8>, k: nat, e: seq<u8>, inum: u32, name: seq<u8>)
    requires DirOk(c) && PutEntry(c, c', k, e) && (k < Slots(c) ==> Inum(c, k) == 0)
    requires inum != 0 && |name| == NAMELEN && e[..4] == InumBytes(inum) && Key(e[4..]) == Key(name)
      && Key(name) !in DirMap(c)
    ensures DirOk(c') && DirMap(c') == DirMap(c)[Key(name) := inum]
  {
    hide InumBytes, Inum, Name, Key, Names, DirOk, Splice, PutEntry;
    PutIs(c, c', k, e);
    PutLength(c, k, e, c');
    BytesInum(e, inum);
    PutOk(c, c', k, Key(name));
    forall key ensures key in DirMap(c') <==> key in DirMap(c) || key == Key(name)
      ensures key in DirMap(c') ==> DirMap(c')[key] == if key == Key(name) then inum else DirMap(c)[key]
    {
      PutName(c, c', k, inum, Key(name), key);
    }
  }

  lemma PutLength(c: seq<u8>, k: nat, e: seq<u8>, c': seq<u8>)
    requires PutEntry(c, c', k, e)
    ensures |e| == DIRENT
  {
  }

  lemma BytesInum(e: seq<u8>, inum: u32)
    requires |e| == DIRENT && e[..4] == InumBytes(inum)
    ensures e[0] as int + 0x100 * e[1] as int + 0x1_0000 * e[2] as int + 0x100_0000 * e[3] as int == inum
  {
    assert e[0] == e[..4][0] && e[1] == e[..4][1] && e[2] == e[..4][2] && e[3] == e[..4][3];
    WordOf(inum);
  }

  lemma WordOf(w: u32)
    ensures w
      == w % 0x100 + 0x100 * (w / 0x100 % 0x100) + 0x1_0000 * (w / 0x1_0000 % 0x100) + 0x100_0000 * (w / 0x100_0000)
  {
  }

  lemma PutOk(c: seq<u8>, c': seq<u8>, k: nat, key: seq<u8>)
    requires DirOk(c) && |c'| % DIRENT == 0 && k < Slots(c') && Key(Name(c', k)) == key
    requires forall j ::
      0 <= j < Slots(c') && j != k ==> j < Slots(c) && Inum(c', j) == Inum(c, j) && Name(c', j) == Name(c, j)
    requires key !in DirMap(c)
    ensures DirOk(c')
  {
    NamesHas(c, Slots(c), key);
    hide Inum, Name, Key, Names;
    forall j | 0 <= j < Slots(c') && j != k && Inum(c', j) != 0 ensures Key(Name(c', j)) != key {
      assert !Names1(c, j, key);
    }
  }

  lemma PutName(c: seq<u8>, c': seq<u8>, k: nat, inum: u32, new': seq<u8>, key: seq<u8>)
    requires DirOk(c) && DirOk(c') && k < Slots(c') && Slots(c) <= Slots(c')
    requires inum != 0 && Inum(c', k) == inum && Key(Name(c', k)) == new' && (k < Slots(c) ==> Inum(c, k) == 0)
    requires forall j ::
      0 <= j < Slots(c') && j != k ==> j < Slots(c) && Inum(c', j) == Inum(c, j) && Name(c', j) == Name(c, j)
    requires new' !in DirMap(c)
    ensures key in DirMap(c') <==> key in DirMap(c) || key == new'
    ensures key in DirMap(c') ==> DirMap(c')[key] == if key == new' then inum else DirMap(c)[key]
  {
    NamesHas(c, Slots(c), key);
    NamesHas(c', Slots(c'), key);
    hide Inum, Name, Key, Names, DirOk;
    assert Names1(c', k, new');
    forall j | 0 <= j < Slots(c') && j != k ensures j < Slots(c) && (Names1(c', j, key) <==> Names1(c, j, key)) {}
    if key in DirMap(c) {
      var j :| 0 <= j < Slots(c) && Names1(c, j, key);
      assert Names1(c', j, key);
    }
    if j :| 0 <= j < Slots(c') && Names1(c', j, key) && j != k {
      assert Names1(c, j, key);
    }
  }

  /** unlink: an entry cleared takes its name away. */
  lemma DirClear(c: seq<u8>, c': seq<u8>, k: nat, e: seq<u8>)
    requires DirOk(c) && PutEntry(c, c', k, e) && k < Slots(c) && Inum(c, k) != 0 && e == seq(DIRENT, _ => 0)
    ensures DirOk(c') && DirMap(c') == DirMap(c) - {Key(Name(c, k))}
  {
    PutIs(c, c', k, e);
    assert Inum(c', k) == 0;
    hide Inum, Name, PutEntry, Key;
    assert DirOk(c');
    var gone := Key(Name(c, k));
    forall key ensures key in DirMap(c') <==> key in DirMap(c) && key != gone
      ensures key in DirMap(c') ==> DirMap(c')[key] == DirMap(c)[key]
    {
      NamesHas(c, Slots(c), key);
      NamesHas(c', Slots(c'), key);
      forall j | 0 <= j < Slots(c') && j != k ensures Names1(c', j, key) <==> Names1(c, j, key) {}
      assert Names1(c, k, gone) && !Names1(c', k, key);
      forall j | 0 <= j < Slots(c) && Names1(c, j, gone) ensures j == k {
        SameEntry(c, j, k, gone);
      }
    }
  }
}
