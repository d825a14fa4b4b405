/** Open files (`fs/file.c`), and the descriptors that hold them (`fs/do_fs.c`). */
module FileTable {
  import Pipes

  const NPROC := 64
  const NOFILE := 16
  const NFILE := 100
  const NONE := -1       // a descriptor that is not in use
  const RESERVED := -2   // one that fdalloc has handed out

  datatype Kind = NoFile | PipeFile | InodeFile

  datatype File = File(kind: Kind, ref: nat, readable: bool, writable: bool, pipe: nat, ip: nat, off: nat)

  type Ends = Pipes.Ends

  /** The descriptors that hold file `k`, over all processes. */
  function Count(slots: seq<int>, k: int): nat {
    if slots == [] then 0 else Count(slots[..|slots| - 1], k) + (if slots[|slots| - 1] == k then 1 else 0)
  }

  lemma {:induction false} CountSet(slots: seq<int>, i: nat, v: int, k: int)
    requires i < |slots|
    ensures Count(slots[i := v], k) == Count(slots, k) - (if slots[i] == k then 1 else 0) + (if v == k then 1 else 0)
    ensures slots[i] == k ==> Count(slots, k) >= 1
    decreases |slots|
  {
    var n := |slots| - 1;
    if i == n {
      assert slots[i := v][..n] == slots[..n];
    } else {
      assert slots[i := v][..n] == slots[..n][i := v];
      CountSet(slots[..n], i, v, k);
    }
  }

  /** With no descriptor in use no file is held. */
  lemma {:induction false} NoneCount(slots: seq<int>, k: nat)
    requires forall i :: 0 <= i < |slots| ==> slots[i] == NONE
    ensures Count(slots, k) == 0
    decreases |slots|
  {
    if slots != [] { NoneCount(slots[..|slots| - 1], k); }
  }

  lemma {:induction false} CountFind(slots: seq<int>, k: int) returns (i: nat)
    requires Count(slots, k) >= 1
    ensures i < |slots| && slots[i] == k
    decreases |slots|
  {
    var n := |slots| - 1;
    if slots[n] == k { i := n; } else { i := CountFind(slots[..n], k); }
  }

  /** File `k` is open on that end of pipe `q`. */
  predicate OpenEnd(files: seq<File>, k: nat, q: nat, writing: bool) {
    k < |files| && files[k].ref > 0 && files[k].kind == PipeFile && files[k].pipe == q && files[k].writable == writing
  }

  ghost predicate SlotsOk(files: seq<File>, slots: seq<int>) {
    && (forall i :: 0 <= i < |slots| ==> NONE <= slots[i] < |files|)
    && (forall k :: 0 <= k < |files| ==> files[k].ref == Count(slots, k))
    && (forall k :: 0 <= k < |files| ==> (files[k].ref > 0 <==> files[k].kind != NoFile))
  }

  /** An end of a pipe is open exactly when one open file has it; a pipe with both ends closed is gone. */
  ghost predicate PipesOk(files: seq<File>, pipes: map<nat, Ends>) {
    && (forall k :: 0 <= k < |files| && files[k].ref > 0 && files[k].kind == PipeFile ==>
         files[k].pipe in pipes && files[k].readable == !files[k].writable)
    && (forall q :: q in pipes ==> pipes[q].readopen || pipes[q].writeopen)
    && (forall q :: q in pipes ==> (pipes[q].writeopen <==> exists k: nat :: OpenEnd(files, k, q, true)))
    && (forall q :: q in pipes ==> (pipes[q].readopen <==> exists k: nat :: OpenEnd(files, k, q, false)))
    && (forall j: nat, k: nat, q: nat, w :: OpenEnd(files, j, q, w) && OpenEnd(files, k, q, w) ==> j == k)
  }

  ghost predicate TableOk(files: seq<File>, slots: seq<int>, pipes: map<nat, Ends>) {
    SlotsOk(files, slots) && PipesOk(files, pipes)
  }

  /** The write end of a pipe is open exactly as long as some descriptor can write to it; so with the read end. */
  lemma EndOpenIff(files: seq<File>, slots: seq<int>, pipes: map<nat, Ends>, q: nat, writing: bool)
    requires TableOk(files, slots, pipes) && q in pipes
    ensures (if writing then pipes[q].writeopen else pipes[q].readopen) <==>
      exists i :: 0 <= i < |slots| && slots[i] >= 0 && OpenEnd(files, slots[i], q, writing)
  {
    if k: nat :| OpenEnd(files, k, q, writing) {
      var i := CountFind(slots, k);
    }
  }

  // The steps

  /** fileclose: the last reference takes the file with it, and its end of the pipe. */
  function Dropped(files: seq<File>, k: nat): seq<File>
    requires k < |files| && files[k].ref > 0
  {
    if files[k].ref > 1 then files[k := files[k].(ref := files[k].ref - 1)]
    else files[k := files[k].(ref := 0, kind := NoFile)]
  }

  function Shut(pipes: map<nat, Ends>, q: nat, writing: bool): map<nat, Ends>
    requires q in pipes
  {
    var e := Pipes.Closed(pipes[q], writing);
    if e.readopen || e.writeopen then pipes[q := e] else pipes - {q}
  }

  function ShutBy(files: seq<File>, pipes: map<nat, Ends>, k: nat): map<nat, Ends>
    requires k < |files| && files[k].ref > 0 && (files[k].kind == PipeFile ==> files[k].pipe in pipes)
  {
    if files[k].ref == 1 && files[k].kind == PipeFile then Shut(pipes, files[k].pipe, files[k].writable) else pipes
  }

  lemma SlotFile(files: seq<File>, slots: seq<int>, pipes: map<nat, Ends>, i: nat)
    requires TableOk(files, slots, pipes) && i < |slots| && slots[i] >= 0
    ensures slots[i] < |files| && files[slots[i]].ref > 0
      && (files[slots[i]].kind == PipeFile ==> files[slots[i]].pipe in pipes)
  {
    CountSet(slots, i, slots[i], slots[i]);
  }

  /** A descriptor closed. */
  lemma CloseOk(files: seq<File>, slots: seq<int>, pipes: map<nat, Ends>, i: nat)
    requires TableOk(files, slots, pipes) && i < |slots| && slots[i] >= 0
    requires slots[i] < |files| && files[slots[i]].ref > 0
      && (files[slots[i]].kind == PipeFile ==> files[slots[i]].pipe in pipes)
    ensures TableOk(Dropped(files, slots[i]), slots[i := NONE], ShutBy(files, pipes, slots[i]))
  {
    var k, f', p' := slots[i], Dropped(files, slots[i]), ShutBy(files, pipes, slots[i]);
    forall m | 0 <= m < |files| ensures f'[m].ref == Count(slots[i := NONE], m) {
      CountSet(slots, i, NONE, m);
    }
    hide Count;
    CloseEnds(files, pipes, k);
  }

  lemma CloseEnds(files: seq<File>, pipes: map<nat, Ends>, k: nat)
    requires PipesOk(files, pipes) && k < |files| && files[k].ref > 0
      && (files[k].kind == PipeFile ==> files[k].pipe in pipes)
    ensures PipesOk(Dropped(files, k), ShutBy(files, pipes, k))
  {
    var f', p' := Dropped(files, k), ShutBy(files, pipes, k);
    forall m: nat, q: nat, w
      ensures OpenEnd(f', m, q, w) <==> OpenEnd(files, m, q, w) && !(m == k && files[k].ref == 1) {}
    forall m | 0 <= m < |f'| && f'[m].ref > 0 && f'[m].kind == PipeFile
      ensures f'[m].pipe in p' && f'[m].readable == !f'[m].writable {
      assert OpenEnd(f', m, f'[m].pipe, f'[m].writable);
      EndsAfter(files, f', pipes, p', k, f'[m].pipe, f'[m].writable);
    }
    hide OpenEnd;
    forall q | q in p' ensures q in pipes && (p'[q].writeopen <==> exists m: nat :: OpenEnd(f', m, q, true)) {
      EndsAfter(files, f', pipes, p', k, q, true);
    }
    forall q | q in p' ensures p'[q].readopen <==> exists m: nat :: OpenEnd(f', m, q, false) {
      EndsAfter(files, f', pipes, p', k, q, false);
    }
  }

  lemma EndsAfter(files: seq<File>, f': seq<File>, pipes: map<nat, Ends>, p': map<nat, Ends>, k: nat, q: nat, w: bool)
    requires PipesOk(files, pipes) && k < |files| == |f'| && files[k].ref > 0 && q in pipes
    requires (files[k].kind == PipeFile ==> files[k].pipe in pipes) && p' == ShutBy(files, pipes, k)
    requires forall m: nat, q: nat, w ::
      OpenEnd(f', m, q, w) <==> OpenEnd(files, m, q, w) && !(m == k && files[k].ref == 1)
    ensures q in p' ==> ((if w then p'[q].writeopen else p'[q].readopen) <==> exists m: nat :: OpenEnd(f', m, q, w))
    ensures (exists m: nat :: OpenEnd(f', m, q, w)) ==> q in p'
  {
    var was := if w then pipes[q].writeopen else pipes[q].readopen;
    assert was <==> exists m: nat :: OpenEnd(files, m, q, w);
    if files[k].ref == 1 && OpenEnd(files, k, q, w) {
      forall m: nat ensures !OpenEnd(f', m, q, w) {}
    } else {
      if m: nat :| OpenEnd(files, m, q, w) {
        assert m != k || files[k].ref != 1;
        assert OpenEnd(f', m, q, w);
      }
    }
  }

  /** Another descriptor for a file. */
  lemma DupOk(files: seq<File>, slots: seq<int>, pipes: map<nat, Ends>, i: nat, k: nat)
    requires TableOk(files, slots, pipes) && i < |slots| && slots[i] == NONE && k < |files| && files[k].ref > 0
    ensures TableOk(files[k := files[k].(ref := files[k].ref + 1)], slots[i := k], pipes)
  {
    var f' := files[k := files[k].(ref := files[k].ref + 1)];
    forall m | 0 <= m < |files| ensures f'[m].ref == Count(slots[i := k], m) {
      CountSet(slots, i, k, m);
    }
    hide Count;
    forall m: nat, q: nat, w ensures OpenEnd(f', m, q, w) <==> OpenEnd(files, m, q, w) {}
    SamePipes(files, f', pipes);
  }

  lemma SamePipes(files: seq<File>, f': seq<File>, pipes: map<nat, Ends>)
    requires PipesOk(files, pipes) && |f'| == |files|
    requires forall m: nat, q: nat, w :: OpenEnd(f', m, q, w) <==> OpenEnd(files, m, q, w)
    requires forall m :: 0 <= m < |files| && f'[m].ref > 0 && f'[m].kind == PipeFile ==>
      files[m].ref > 0 && files[m].kind == PipeFile && f'[m].pipe == files[m].pipe
        && f'[m].readable == files[m].readable && f'[m].writable == files[m].writable
    ensures PipesOk(f', pipes)
  {
    hide OpenEnd;
  }

  /** A new file on an inode. */
  lemma OpenOk(files: seq<File>, slots: seq<int>, pipes: map<nat, Ends>, i: nat, k: nat, f: File)
    requires TableOk(files, slots, pipes) && i < |slots| && slots[i] == NONE && k < |files| && files[k].ref == 0
    requires f.kind == InodeFile && f.ref == 1
    ensures TableOk(files[k := f], slots[i := k], pipes)
  {
    var f' := files[k := f];
    forall m | 0 <= m < |files| ensures f'[m].ref == Count(slots[i := k], m) {
      CountSet(slots, i, k, m);
    }
    hide Count;
    forall m: nat, q: nat, w ensures OpenEnd(f', m, q, w) <==> OpenEnd(files, m, q, w) {}
    SamePipes(files, f', pipes);
  }

  /** A new pipe, with a file for each end. */
  lemma PipeOk(files: seq<File>, slots: seq<int>, pipes: map<nat, Ends>, i: nat, j: nat, k: nat, l: nat, fr: File,
        fw: File, q: nat)
    requires TableOk(files, slots, pipes) && i < |slots| && j < |slots| && i != j && slots[i] == NONE
      && slots[j] == NONE
    requires k < |files| && l < |files| && k != l && files[k].ref == 0 && files[l].ref == 0 && q !in pipes
    requires fr.kind == PipeFile && fr.ref == 1 && fr.readable && !fr.writable && fr.pipe == q
    requires fw.kind == PipeFile && fw.ref == 1 && !fw.readable && fw.writable && fw.pipe == q
    ensures TableOk(files[k := fr][l := fw], slots[i := k][j := l], pipes[q := Pipes.Ends(0, true, true)])
  {
    var f', p' := files[k := fr][l := fw], pipes[q := Pipes.Ends(0, true, true)];
    forall m | 0 <= m < |files| ensures f'[m].ref == Count(slots[i := k][j := l], m) {
      CountSet(slots, i, k, m);
      CountSet(slots[i := k], j, l, m);
    }
    hide Count;
    forall m: nat, r: nat, w
      ensures OpenEnd(f', m, r, w) <==> OpenEnd(files, m, r, w) || (m == (if w then l else k) && r == q)
      ensures OpenEnd(files, m, r, w) ==> r != q && m != k && m != l
    {
    }
    NewPipe(files, f', pipes, p', k, l, q);
  }

  lemma NewPipe(files: seq<File>, f': seq<File>, pipes: map<nat, Ends>, p': map<nat, Ends>, k: nat, l: nat, q: nat)
    requires PipesOk(files, pipes) && q !in pipes && p' == pipes[q := Pipes.Ends(0, true, true)] && k < |files|
      && l < |files|
    requires forall m: nat, r: nat, w ::
      OpenEnd(f', m, r, w) <==> OpenEnd(files, m, r, w) || (m == (if w then l else k) && r == q)
    requires forall m: nat, r: nat, w :: OpenEnd(files, m, r, w) ==> r != q
    requires forall m ::
      0 <= m < |f'| && f'[m].ref > 0 && f'[m].kind == PipeFile ==> f'[m].pipe in p' && f'[m].readable == !f'[m].writable
    ensures PipesOk(f', p')
  {
    hide OpenEnd;
    assert OpenEnd(f', l, q, true) && OpenEnd(f', k, q, false);
    forall r | r in p' && r != q
      ensures (exists m: nat :: OpenEnd(f', m, r, true)) <==> (exists m: nat :: OpenEnd(files, m, r, true)) {
      if m: nat :| OpenEnd(files, m, r, true) { assert OpenEnd(f', m, r, true); }
    }
    forall r | r in p' && r != q
      ensures (exists m: nat :: OpenEnd(f', m, r, false)) <==> (exists m: nat :: OpenEnd(files, m, r, false)) {
      if m: nat :| OpenEnd(files, m, r, false) { assert OpenEnd(f', m, r, false); }
    }
  }
}
