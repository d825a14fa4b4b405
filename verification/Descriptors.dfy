/** Opening, duplicating and closing descriptors (`fs/do_fs.c`, `fs/file.c`, `fs/pipe.c`). */
module Descriptors {
  import opened FileTable
  import Pipes

  /** Descriptor `fd` of process `p`. */
  function FdSlot(p: nat, fd: nat): nat { p * NOFILE + fd }

  /** `fd` is the first descriptor of `p` that is not in use; NOFILE when there is none. */
  predicate FirstFree(slots: seq<int>, p: nat, fd: nat) {
    && p < NPROC && fd <= NOFILE && |slots| == NPROC * NOFILE
    && (forall d :: 0 <= d < fd ==> slots[FdSlot(p, d)] != NONE)
    && (fd < NOFILE ==> slots[FdSlot(p, fd)] == NONE)
  }

  /** `k` is the first file without references; NFILE when there is none. */
  predicate FirstUnused(files: seq<File>, k: nat) {
    k <= |files| && (forall j :: 0 <= j < k ==> files[j].ref > 0) && (k < |files| ==> files[k].ref == 0)
  }

  function ReadFile(f: File, page: nat): File { f.(kind := PipeFile, ref := 1, readable := true, writable := false,
        pipe := page) }

  function WriteFile(f: File, page: nat): File { f.(kind := PipeFile, ref := 1, readable := false, writable := true,
        pipe := page) }

  /** The same files are open; what a closed file still says does not matter. */
  ghost predicate SameOpen(files: seq<File>, files': seq<File>) {
    |files'| == |files| && forall k :: 0 <= k < |files| ==>
      files'[k].ref == files[k].ref && files'[k].kind == files[k].kind && (files[k].ref > 0 ==> files'[k] == files[k])
  }

  ghost predicate TwoUnused(files: seq<File>) {
    exists j, k :: 0 <= j < k < |files| && files[j].ref == 0 && files[k].ref == 0
  }

  ghost predicate TwoFree(slots: seq<int>, p: nat)
    requires p < NPROC && |slots| == NPROC * NOFILE
  {
    exists d, e :: 0 <= d < e < NOFILE && slots[FdSlot(p, d)] == NONE && slots[FdSlot(p, e)] == NONE
  }

  /** The first `n` descriptors of `op` copied to `np`. */
  function Forked(slots: seq<int>, op: nat, np: nat, n: nat): (s: seq<int>)
    requires |slots| == NPROC * NOFILE && op < NPROC && np < NPROC && n <= NOFILE
    ensures |s| == |slots|
  {
    if n == 0 then slots else Forked(slots, op, np, n - 1)[FdSlot(np, n - 1) := slots[FdSlot(op, n - 1)]]
  }

  function Exited(slots: seq<int>, p: nat, n: nat): (s: seq<int>)
    requires |slots| == NPROC * NOFILE && p < NPROC && n <= NOFILE
    ensures |s| == |slots|
  {
    if n == 0 then slots else Exited(slots, p, n - 1)[FdSlot(p, n - 1) := NONE]
  }

  class OpenFiles {
    const files: array<File>
    const slots: array<int>        // the ofile arrays of all processes, one after the other
    var pipes: map<nat, Ends>      // by the page a pipe lives in

    ghost predicate Valid()
      reads this, files, slots
    {
      files.Length == NFILE && slots.Length == NPROC * NOFILE && TableOk(files[..], slots[..], pipes)
    }

    constructor ()
      ensures Valid() && pipes == map[] && forall i :: 0 <= i < slots.Length ==> slots[i] == NONE
    {
      files := new File[NFILE](_ => File(NoFile, 0, false, false, 0, 0, 0));
      slots := new int[NPROC * NOFILE](_ => NONE);
      pipes := map[];
      new;
      forall k | 0 <= k < NFILE ensures Count(slots[..], k) == 0 {
        NoneCount(slots[..], k);
      }
    }

    method FileAlloc() returns (k: int)
      modifies files
      ensures if k == -1 then FirstUnused(files[..], files.Length) && files[..] == old(files[..])
        else
          && 0 <= k < files.Length && FirstUnused(old(files[..]), k)
          && files[..] == old(files[..])[k := old(files[..])[k].(ref := 1)]
    {
      k := 0;
      while k < files.Length
        invariant 0 <= k <= files.Length && files[..] == old(files[..]) && forall j :: 0 <= j < k ==> files[j].ref > 0
      {
        if files[k].ref == 0 {
          files[k] := files[k].(ref := 1);
          return;
        }
        k := k + 1;
      }
      k := -1;
    }

    method FdAlloc(p: nat) returns (fd: int)
      requires p < NPROC && slots.Length == NPROC * NOFILE
      modifies slots
      ensures if fd == -1 then FirstFree(slots[..], p, NOFILE) && slots[..] == old(slots[..])
        else
          && 0 <= fd < NOFILE && FirstFree(old(slots[..]), p, fd)
          && slots[..] == old(slots[..])[FdSlot(p, fd) := RESERVED]
    {
      fd := 0;
      while fd < NOFILE
        invariant 0 <= fd <= NOFILE && slots[..] == old(slots[..]) && forall d ::
          0 <= d < fd ==> slots[FdSlot(p, d)] != NONE
      {
        if slots[FdSlot(p, fd)] == NONE {
          slots[FdSlot(p, fd)] := RESERVED;
          return;
        }
        fd := fd + 1;
      }
      fd := -1;
    }

    /** A reference goes; `put` tells whether the file's inode reference goes with it. */
    method FileClose(k: nat) returns (put: bool)
      requires k < files.Length && files[k].ref > 0 && (files[k].kind == PipeFile ==> files[k].pipe in pipes)
      modifies files, this`pipes
      ensures files[..] == Dropped(old(files[..]), k) && pipes == ShutBy(old(files[..]), old(pipes), k)
      ensures put <==> old(files[k].ref) == 1 && old(files[k].kind) == InodeFile
    {
      put := false;
      files[k] := files[k].(ref := files[k].ref - 1);
      if files[k].ref > 0 { return; }
      if files[k].kind == PipeFile {
        PipeClose(files[k].pipe, files[k].writable);
      } else if files[k].kind == InodeFile {
        put := true;
      }
      files[k] := files[k].(ref := 0, kind := NoFile);
    }

    method PipeClose(q: nat, writable: bool)
      requires q in pipes
      modifies this`pipes
      ensures pipes == Shut(old(pipes), q, writable)
    {
      if writable {
        pipes := pipes[q := pipes[q].(writeopen := false)];
      } else {
        pipes := pipes[q := pipes[q].(readopen := false)];
      }
      if !pipes[q].readopen && !pipes[q].writeopen {
        pipes := pipes - {q};
      }
    }

    /** The descriptor is free afterwards, and its file loses a reference. */
    method DoClose(p: nat, fd: int) returns (r: int, put: bool)
      requires Valid() && p < NPROC
      modifies files, slots, this`pipes
      ensures Valid()
      ensures if fd < 0 || fd >= NOFILE || old(slots[..])[FdSlot(p, fd)] == NONE
        then r == -1 && !put && files[..] == old(files[..]) && slots[..] == old(slots[..]) && pipes == old(pipes)
        else var k := old(slots[..])[FdSlot(p, fd)];
          && r == 0 && slots[..] == old(slots[..])[FdSlot(p, fd) := NONE]
          && 0 <= k < |old(files[..])| && old(files[..])[k].ref > 0 && files[..] == Dropped(old(files[..]), k)
          && (put <==> old(files[..])[k].ref == 1 && old(files[..])[k].kind == InodeFile)
    {
      hide TableOk;
      SlotsRange(files[..], slots[..], pipes);
      if fd < 0 || fd >= NOFILE || slots[FdSlot(p, fd)] == NONE { return -1, false; }
      ghost var s, k := FdSlot(p, fd), slots[FdSlot(p, fd)];
      assert slots[..][s] == k;
      SlotFile(files[..], slots[..], pipes, s);
      CloseOk(files[..], slots[..], pipes, s);
      put := FileClose(slots[FdSlot(p, fd)]);
      slots[FdSlot(p, fd)] := NONE;
      r := 0;
    }

    /** Another descriptor for the file of `fd`, the first one free. The source does not check `fd`. */
    method DoDup(p: nat, fd: nat) returns (r: int)
      requires Valid() && p < NPROC && fd < NOFILE && slots[FdSlot(p, fd)] != NONE
      modifies files, slots
      ensures Valid()
      ensures if r == -1 then FirstFree(slots[..], p, NOFILE) && files[..] == old(files[..])
        && slots[..] == old(slots[..])
        else var k := old(slots[..])[FdSlot(p, fd)];
          && 0 <= r < NOFILE && FirstFree(old(slots[..]), p, r) && slots[..] == old(slots[..])[FdSlot(p, r) := k]
          && 0 <= k < |old(files[..])|
          && files[..] == old(files[..])[k := old(files[..])[k].(ref := old(files[..])[k].ref + 1)]
    {
      hide TableOk;
      SlotsRange(files[..], slots[..], pipes);
      ghost var k, slots0 := slots[FdSlot(p, fd)], slots[..];
      assert slots[..][FdSlot(p, fd)] == k;
      SlotFile(files[..], slots[..], pipes, FdSlot(p, fd));
      r := FdAlloc(p);
      if r < 0 { return -1; }
      SlotsApart(p, fd, r);
      DupOk(files[..], slots0, pipes, FdSlot(p, r), k);
      var f := slots[FdSlot(p, fd)];
      files[f] := files[f].(ref := files[f].ref + 1);
      slots[FdSlot(p, r)] := f;
      assert slots[..] == slots0[FdSlot(p, r) := k];
    }

    /** The end of do_open: a file and a descriptor for inode `ip`, or neither. */
    method DoOpen(p: nat, ip: nat, readable: bool, writable: bool) returns (r: int)
      requires Valid() && p < NPROC
      modifies files, slots, this`pipes
      ensures Valid() && pipes == old(pipes)
      ensures r == -1 <==> FirstUnused(old(files[..]), NFILE) || FirstFree(old(slots[..]), p, NOFILE)
      ensures r == -1 ==> files[..] == old(files[..]) && slots[..] == old(slots[..])
      ensures r != -1 ==> exists k: nat ::
        && 0 <= r < NOFILE && FirstFree(old(slots[..]), p, r) && FirstUnused(old(files[..]), k) && k < NFILE
        && slots[..] == old(slots[..])[FdSlot(p, r) := k]
        && files[..] == old(files[..])[k := File(InodeFile, 1, readable, writable, old(files[..])[k].pipe, ip, 0)]
    {
      hide TableOk;
      ghost var files0, slots0 := files[..], slots[..];
      UnusedKind(files[..], slots[..], pipes);
      var k := FileAlloc();
      if k == -1 { return -1; }
      r := FdAlloc(p);
      if r < 0 {
        var put := FileClose(k);
        assert files[..] == files0;
        return -1;
      }
      files[k] := files[k].(kind := InodeFile, ip := ip, off := 0, readable := readable, writable := writable);
      slots[FdSlot(p, r)] := k;
      assert files[..] == files0[k := files[k]] && slots[..] == slots0[FdSlot(p, r) := k];
      OpenOk(files0, slots0, pipes, FdSlot(p, r), k, files[k]);
      assert FirstUnused(files0, k);
    }

    /** Two files for the ends of a new pipe in `page` (-1: no page is free), or nothing. */
    method PipeAlloc(page: int) returns (rf: int, wf: int)
      requires Valid() && (page >= 0 ==> page !in pipes)
      modifies files, this`pipes
      ensures rf == -1 <==> wf == -1
      ensures rf == -1 ==> files[..] == old(files[..]) && pipes == old(pipes)
      ensures rf == -1 <==> page < 0 || !TwoUnused(old(files[..]))
      ensures rf != -1 ==>
        && 0 <= rf < wf < NFILE && page >= 0 && old(files[..])[rf].ref == 0 && old(files[..])[wf].ref == 0
        && pipes == old(pipes)[page := Pipes.Ends(0, true, true)]
        && files[..] == old(files[..])[rf := ReadFile(old(files[..])[rf], page)][wf := WriteFile(old(files[..])[wf],
          page)]
    {
      hide TableOk;
      UnusedKind(files[..], slots[..], pipes);
      ghost var files0 := files[..];
      rf := FileAlloc();
      if rf == -1 {
        NotTwo(files0, NFILE);
        return -1, -1;
      }
      ghost var files1 := files[..];
      wf := FileAlloc();
      if wf == -1 || page < 0 {
        if wf == -1 { OnlyOne(files0, files1, rf); }
        var put := FileClose(rf);
        if wf != -1 { put := FileClose(wf); }
        assert files[..] == files0;
        return -1, -1;
      }
      assert rf < wf && files0[wf].ref == 0;
      pipes := pipes[page := Pipes.Ends(0, true, true)];
      files[rf] := files[rf].(kind := PipeFile, readable := true, writable := false, pipe := page);
      files[wf] := files[wf].(kind := PipeFile, readable := false, writable := true, pipe := page);
      assert files[..] == files0[rf := ReadFile(files0[rf], page)][wf := WriteFile(files0[wf], page)];
    }

    /**
     A pipe and two descriptors for it. When only one descriptor is free, the source gives the files and the
     page back but leaves that descriptor reserved: its cleanup looks at `current`, the server, not the caller.
     */
    method DoPipe(p: nat, page: int) returns (r: int, fd0: int, fd1: int)
      requires Valid() && p < NPROC && (page >= 0 ==> page !in pipes)
      modifies files, slots, this`pipes
      ensures var can := page >= 0 && TwoUnused(old(files[..]));
        if can && TwoFree(old(slots[..]), p) then
          && r == 0 && Valid() && 0 <= fd0 < fd1 < NOFILE && FirstFree(old(slots[..]), p, fd0)
          && pipes == old(pipes)[page := Pipes.Ends(0, true, true)]
          && (exists k: nat, l: nat :: k < l < NFILE
               && slots[..] == old(slots[..])[FdSlot(p, fd0) := k][FdSlot(p, fd1) := l]
               && files[..] == old(files[..])[k := ReadFile(old(files[..])[k], page)][l := WriteFile(old(files[..])[l],
                 page)])
        else
          && r == -1 && SameOpen(old(files[..]), files[..]) && pipes == old(pipes)
          && if !can || FirstFree(old(slots[..]), p, NOFILE) then slots[..] == old(slots[..]) && Valid()
             else
               && 0 <= fd0 < NOFILE && FirstFree(old(slots[..]), p, fd0)
               && slots[..] == old(slots[..])[FdSlot(p, fd0) := RESERVED]
    {
      hide TableOk;
      ghost var files0, slots0, pipes0 := files[..], slots[..], pipes;
      SlotsRange(files0, slots0, pipes0);
      fd0, fd1 := -1, -1;
      var rf, wf := PipeAlloc(page);
      if rf == -1 { return -1, fd0, fd1; }
      fd0 := FdAlloc(p);
      if fd0 >= 0 {
        OneTaken(slots0, slots[..], p, fd0);
        fd1 := FdAlloc(p);
      }
      if fd0 < 0 || fd1 < 0 {
        if fd0 < 0 { NoneFree(slots0, p); }
        var put := FileClose(rf);
        put := FileClose(wf);
        UnusedKind(files0, slots0, pipes0);
        assert pipes == pipes0;
        SameOpenOk(files0, files[..], slots0, pipes0);
        return -1, fd0, fd1;
      }
      SlotsApart(p, fd0, fd1);
      slots[FdSlot(p, fd0)] := rf;
      slots[FdSlot(p, fd1)] := wf;
      assert slots[..] == slots0[FdSlot(p, fd0) := rf][FdSlot(p, fd1) := wf];
      PipeOk(files0, slots0, pipes0, FdSlot(p, fd0), FdSlot(p, fd1), rf, wf, ReadFile(files0[rf], page),
        WriteFile(files0[wf], page), page);
      r := 0;
    }

    /** Every descriptor of `op` becomes one of `np`, a process without any. */
    method DoFsFork(op: nat, np: nat)
      requires Valid() && op < NPROC && np < NPROC && op != np && forall d ::
        0 <= d < NOFILE ==> slots[FdSlot(np, d)] == NONE
      modifies files, slots
      ensures Valid() && ForkedAll(old(slots[..]), slots[..], op, np)
      ensures forall k :: 0 <= k < NFILE ==> files[k] == old(files[k]).(ref := files[k].ref)
    {
      hide TableOk, Forked;
      ghost var slots0 := slots[..];
      var i := 0;
      ForkStart(slots0, op, np);
      while i < NOFILE
        invariant i <= NOFILE && Valid() && slots[..] == Forked(slots0, op, np, i)
        invariant forall k :: 0 <= k < NFILE ==> files[k] == old(files[k]).(ref := files[k].ref)
      {
        ForkAt(slots0, op, np, i);
        ghost var files1, slots1 := files[..], slots[..];
        SlotsRange(files1, slots1, pipes);
        var k := slots[FdSlot(op, i)];
        assert slots1[FdSlot(op, i)] == k;
        if k != NONE {
          SlotFile(files1, slots1, pipes, FdSlot(op, i));
          DupOk(files1, slots1, pipes, FdSlot(np, i), k);
          files[k] := files[k].(ref := files[k].ref + 1);
          slots[FdSlot(np, i)] := k;
        } else {
          slots[FdSlot(np, i)] := NONE;
        }
        i := i + 1;
      }
      ForkDone(slots0, op, np);
    }

    /** All descriptors of `p` are closed, and nobody else's. */
    method DoFsExit(p: nat)
      requires Valid() && p < NPROC
      modifies files, slots, this`pipes
      ensures Valid() && forall s :: 0 <= s < slots.Length ==>
        slots[s] == if FdSlot(p, 0) <= s < FdSlot(p, NOFILE) then NONE else old(slots[s])
    {
      hide TableOk, Exited;
      ghost var slots0 := slots[..];
      var i := 0;
      ExitStart(slots0, p);
      while i < NOFILE
        invariant i <= NOFILE && Valid() && slots[..] == Exited(slots0, p, i)
      {
        ExitAt(slots0, p, i);
        SlotsRange(files[..], slots[..], pipes);
        ghost var files1, slots1, pipes1 := files[..], slots[..], pipes;
        var k := slots[FdSlot(p, i)];
        assert slots1[FdSlot(p, i)] == k;
        if k != NONE {
          SlotFile(files1, slots1, pipes1, FdSlot(p, i));
          CloseOk(files1, slots1, pipes1, FdSlot(p, i));
          var put := FileClose(k);
          slots[FdSlot(p, i)] := NONE;
        }
        i := i + 1;
      }
      forall s | 0 <= s < slots.Length
        ensures slots[s] == if FdSlot(p, 0) <= s < FdSlot(p, NOFILE) then NONE else slots0[s] {
        ExitFrame(slots0, p, NOFILE, s);
      }
    }
  }

  /** The child has the parent's files, descriptor for descriptor, and nobody else's have changed. */
  ghost predicate ForkedAll(slots: seq<int>, slots': seq<int>, op: nat, np: nat)
    requires op < NPROC && np < NPROC && |slots| == NPROC * NOFILE
  {
    && |slots'| == |slots|
    && (forall d: nat :: d < NOFILE ==> slots'[FdSlot(np, d)] == slots[FdSlot(op, d)])
    && (forall s :: 0 <= s < |slots| && (s < FdSlot(np, 0) || s >= FdSlot(np, NOFILE)) ==> slots'[s] == slots[s])
  }

  lemma ForkDone(slots: seq<int>, op: nat, np: nat)
    requires |slots| == NPROC * NOFILE && op < NPROC && np < NPROC && op != np
    ensures ForkedAll(slots, Forked(slots, op, np, NOFILE), op, np)
  {
    forall d: nat | d < NOFILE ensures Forked(slots, op, np, NOFILE)[FdSlot(np, d)] == slots[FdSlot(op, d)] {
      ForkCopies(slots, op, np, NOFILE, d);
    }
    ForkCopies(slots, op, np, NOFILE, 0);
  }

  /** A process with one descriptor left asks for a pipe: it gets none, and has no descriptor left. */
  method PipeTakesTheLast(o: OpenFiles, p: nat, d: nat, page: nat) returns (r: int)
    requires o.Valid() && p < NPROC && page !in o.pipes && TwoUnused(o.files[..])
    requires FirstFree(o.slots[..], p, d) && d < NOFILE && !TwoFree(o.slots[..], p)
    modifies o.files, o.slots, o`pipes
    ensures r == -1 && FirstFree(o.slots[..], p, NOFILE) && SameOpen(old(o.files[..]), o.files[..])
  {
    ghost var slots0 := o.slots[..];
    var fd0, fd1;
    r, fd0, fd1 := o.DoPipe(p, page);
    assert fd0 == d;
    forall e | 0 <= e < NOFILE ensures o.slots[..][FdSlot(p, e)] != NONE {
      SlotsApart(p, d, e);
    }
  }

  lemma SlotsRange(files: seq<File>, slots: seq<int>, pipes: map<nat, Ends>)
    requires TableOk(files, slots, pipes)
    ensures forall i :: 0 <= i < |slots| ==> NONE <= slots[i] < |files|
  {
  }

  lemma SlotsApart(p: nat, a: nat, b: nat)
    ensures a != b <==> FdSlot(p, a) != FdSlot(p, b)
  {
  }

  lemma UnusedKind(files: seq<File>, slots: seq<int>, pipes: map<nat, Ends>)
    requires TableOk(files, slots, pipes)
    ensures forall k :: 0 <= k < |files| && files[k].ref == 0 ==> files[k].kind == NoFile
  {
  }

  lemma NotTwo(files: seq<File>, n: nat)
    requires n == |files| && FirstUnused(files, n)
    ensures !TwoUnused(files)
  {
  }

  lemma OnlyOne(files: seq<File>, files': seq<File>, k: nat)
    requires k < |files| && files' == files[k := files[k].(ref := 1)] && FirstUnused(files', |files|)
    ensures !TwoUnused(files)
  {
    forall j | 0 <= j < |files| && j != k ensures files[j].ref > 0 {
      assert files'[j] == files[j];
    }
  }

  lemma OneTaken(slots: seq<int>, slots': seq<int>, p: nat, fd: nat)
    requires p < NPROC && |slots| == NPROC * NOFILE && fd < NOFILE && slots' == slots[FdSlot(p, fd) := RESERVED]
      && slots[FdSlot(p, fd)] == NONE
    requires FirstFree(slots, p, fd)
    ensures forall d :: 0 <= d < NOFILE && d != fd ==> slots'[FdSlot(p, d)] == slots[FdSlot(p, d)]
    ensures TwoFree(slots, p) <==> exists d :: 0 <= d < NOFILE && slots'[FdSlot(p, d)] == NONE
  {
    forall d | 0 <= d < NOFILE && d != fd ensures slots'[FdSlot(p, d)] == slots[FdSlot(p, d)] {
      SlotsApart(p, d, fd);
    }
    if d :| 0 <= d < NOFILE && slots'[FdSlot(p, d)] == NONE {
      assert d != fd && d > fd;
    }
  }

  lemma NoneFree(slots: seq<int>, p: nat)
    requires FirstFree(slots, p, NOFILE)
    ensures !TwoFree(slots, p)
  {
  }

  lemma ForkStart(slots: seq<int>, op: nat, np: nat)
    requires |slots| == NPROC * NOFILE && op < NPROC && np < NPROC
    ensures Forked(slots, op, np, 0) == slots
  {
  }

  /** What is copied so far leaves the source's descriptors alone, and those of `np` still to come. */
  lemma {:induction false} ForkFrame(slots: seq<int>, op: nat, np: nat, n: nat, s: nat)
    requires |slots| == NPROC * NOFILE && op < NPROC && np < NPROC && n <= NOFILE && s < |slots|
    requires s < FdSlot(np, 0) || s >= FdSlot(np, n)
    ensures Forked(slots, op, np, n)[s] == slots[s]
  {
    if n > 0 { ForkFrame(slots, op, np, n - 1, s); }
  }

  lemma ForkAt(slots: seq<int>, op: nat, np: nat, n: nat)
    requires |slots| == NPROC * NOFILE && op < NPROC && np < NPROC && op != np && n < NOFILE
    requires forall d :: 0 <= d < NOFILE ==> slots[FdSlot(np, d)] == NONE
    ensures Forked(slots, op, np, n)[FdSlot(op, n)] == slots[FdSlot(op, n)]
      && Forked(slots, op, np, n)[FdSlot(np, n)] == NONE
    ensures Forked(slots, op, np, n + 1) == Forked(slots, op, np, n)[FdSlot(np, n) := slots[FdSlot(op, n)]]
  {
    ForkFrame(slots, op, np, n, FdSlot(op, n));
    ForkFrame(slots, op, np, n, FdSlot(np, n));
  }

  /** The first `n` descriptors are the parent's. */
  lemma {:induction false} ForkCopies(slots: seq<int>, op: nat, np: nat, n: nat, d: nat)
    requires |slots| == NPROC * NOFILE && op < NPROC && np < NPROC && op != np && d < n <= NOFILE
    ensures Forked(slots, op, np, n)[FdSlot(np, d)] == slots[FdSlot(op, d)]
    ensures forall s ::
      0 <= s < |slots| && (s < FdSlot(np, 0) || s >= FdSlot(np, NOFILE)) ==> Forked(slots, op, np, n)[s] == slots[s]
  {
    if d < n - 1 { ForkCopies(slots, op, np, n - 1, d); }
    forall s | 0 <= s < |slots| && (s < FdSlot(np, 0) || s >= FdSlot(np, NOFILE))
      ensures Forked(slots, op, np, n)[s] == slots[s] {
      ForkFrame(slots, op, np, n, s);
    }
  }

  lemma ExitStart(slots: seq<int>, p: nat)
    requires |slots| == NPROC * NOFILE && p < NPROC
    ensures Exited(slots, p, 0) == slots
  {
  }

  lemma {:induction false} ExitFrame(slots: seq<int>, p: nat, n: nat, s: nat)
    requires |slots| == NPROC * NOFILE && p < NPROC && n <= NOFILE && s < |slots|
    ensures Exited(slots, p, n)[s] == if FdSlot(p, 0) <= s < FdSlot(p, n) then NONE else slots[s]
  {
    if n > 0 { ExitFrame(slots, p, n - 1, s); }
  }

  lemma ExitAt(slots: seq<int>, p: nat, n: nat)
    requires |slots| == NPROC * NOFILE && p < NPROC && n < NOFILE
    ensures Exited(slots, p, n + 1) == Exited(slots, p, n)[FdSlot(p, n) := NONE]
    ensures Exited(slots, p, n)[FdSlot(p, n)] == NONE ==> Exited(slots, p, n + 1) == Exited(slots, p, n)
  {
  }

  lemma SameOpenOk(files: seq<File>, files': seq<File>, slots: seq<int>, pipes: map<nat, Ends>)
    requires TableOk(files, slots, pipes) && SameOpen(files, files')
    ensures TableOk(files', slots, pipes)
  {
    hide Count;
    forall m: nat, q: nat, w ensures OpenEnd(files', m, q, w) <==> OpenEnd(files, m, q, w) {}
    SamePipes(files, files', pipes);
  }
}
