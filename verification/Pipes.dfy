/**
 Pipes (`fs/pipe.c`): a ring of PIPESIZE bytes between a read end and a write end.
 */
module Pipes {
  import opened Words

  const PIPESIZE := 1024

  /** What the return value and the wakeups of an operation depend on. */
  datatype Ends = Ends(count: nat, readopen: bool, writeopen: bool)

  /** -2 asks the server to put the client to sleep and let it retry. */
  const SLEEP := -2

  function ReadRet(p: Ends, n: nat): int {
    if n == 0 || p.count > 0 then Min(n, p.count) else if p.writeopen then SLEEP else 0
  }

  /** piperead wakes writers unless it returns at its first byte. */
  predicate ReadWakes(p: Ends, n: nat) { n == 0 || p.count > 0 }

  function WriteRet(p: Ends, n: nat): int {
    if !p.readopen then -1
    else if n > 0 && p.count >= PIPESIZE then SLEEP
    else Min(n, if p.count <= PIPESIZE then PIPESIZE - p.count else 0)
  }

  function Moved(ret: int): nat { if ret < 0 then 0 else ret }

  function AfterRead(p: Ends, n: nat): (q: Ends)
    ensures q.count + Moved(ReadRet(p, n)) == p.count
  {
    p.(count := p.count - Moved(ReadRet(p, n)))
  }

  function AfterWrite(p: Ends, n: nat): (q: Ends)
    ensures p.count <= PIPESIZE ==> q.count <= PIPESIZE
  {
    p.(count := p.count + Moved(WriteRet(p, n)))
  }

  /** `x % PIPESIZE` for the sums that occur. */
  function Wrap(x: nat): (r: nat)
    requires x < 2 * PIPESIZE
    ensures r < PIPESIZE && r == x % PIPESIZE
  {
    if x < PIPESIZE then x else x - PIPESIZE
  }

  class Pipe {
    var head: nat
    var count: nat
    var readopen: bool
    var writeopen: bool
    const data: array<u8>

    ghost predicate Valid()
      reads this
    {
      data.Length == PIPESIZE && head < PIPESIZE && count <= PIPESIZE
    }

    ghost function Contents(): (s: seq<u8>)
      requires Valid()
      reads this, data
      ensures |s| == count
    {
      seq(count, i requires 0 <= i < count reads this, data requires Valid() => data[Wrap(head + i)])
    }

    function TheEnds(): Ends
      reads this
    {
      Ends(count, readopen, writeopen)
    }

    constructor ()
      ensures Valid() && fresh(data) && Contents() == [] && TheEnds() == Ends(0, true, true)
    {
      head, count := 0, 0;
      readopen, writeopen := true, true;
      data := new u8[PIPESIZE];
    }

    /** `woken` says whether readers were woken. */
    method Write(s: seq<u8>, n: nat) returns (r: int, woken: bool)
      requires Valid() && n <= |s|
      modifies this`count, data
      ensures Valid() && r == WriteRet(old(TheEnds()), n) && woken == readopen
      ensures Contents() == old(Contents()) + s[..Moved(r)]
      ensures TheEnds() == AfterWrite(old(TheEnds()), n)
      ensures r == -1 <==> !readopen
      ensures r == -2 <==> readopen && n > 0 && old(count) == 1024
      ensures r >= 0 ==> r == if old(count) + n <= 1024 then n else 1024 - old(count)
    {
      if !readopen {
        return -1, false;
      }
      ghost var before := Contents();
      var i := 0;
      while i < n
        invariant 0 <= i <= n && Valid() && i + |before| == count
        invariant forall j :: 0 <= j < |before| + i ==> data[Wrap(head + j)] == (before + s[..i])[j]
      {
        if count == PIPESIZE {
          assert Contents() == before + s[..i];
          if i > 0 {
            return i, true;
          }
          return SLEEP, true;
        }
        var slot := (head + count) % PIPESIZE;
        assert slot == Wrap(head + count);
        ghost var was := before + s[..i];
        data[slot] := s[i];
        count := count + 1;
        i := i + 1;
        forall j | 0 <= j < |before| + i ensures data[Wrap(head + j)] == (before + s[..i])[j] {
          if j < |was| {
            assert Wrap(head + j) != slot;
            assert data[Wrap(head + j)] == was[j];
          }
        }
      }
      assert Contents() == before + s[..i];
      return n, true;
    }

    method Read(d: array<u8>, n: nat) returns (r: int, woken: bool)
      requires Valid() && n <= d.Length && d != data
      modifies this`head, this`count, d
      ensures Valid() && r == ReadRet(old(TheEnds()), n) && woken == ReadWakes(old(TheEnds()), n)
      ensures old(Contents()) == d[..Moved(r)] + Contents()
      ensures d[Moved(r)..] == old(d[Moved(r)..])
      ensures TheEnds() == AfterRead(old(TheEnds()), n)
      ensures r == -2 <==> n > 0 && old(count) == 0 && writeopen
      ensures r >= 0 ==> r == if n <= old(count) then n else old(count)
    {
      ghost var before := Contents();
      var i := 0;
      while i < n
        invariant 0 <= i <= n && Valid() && i + count == |before|
        invariant i == 0 || before != []
        invariant forall j :: i <= j < |before| ==> data[Wrap(head + j - i)] == before[j]
        invariant d[..i] == before[..i] && d[i..] == old(d[i..])
      {
        if count == 0 {
          if i == 0 {
            if !writeopen {
              return 0, false;
            }
            return SLEEP, false;
          }
          break;
        }
        label L:
        assert head == Wrap(head);
        d[i] := data[head];
        head := (head + 1) % PIPESIZE;
        assert head == Wrap(old@L(head) + 1);
        count := count - 1;
        i := i + 1;
      }
      assert Contents() == before[i..];
      return i, true;
    }

    /** `freed` says whether the pipe's page went back to the free list. */
    method Close(writable: bool) returns (freed: bool)
      requires Valid()
      modifies this`readopen, this`writeopen
      ensures Valid() && Contents() == old(Contents())
      ensures TheEnds() == Closed(old(TheEnds()), writable)
      ensures freed <==> !readopen && !writeopen
    {
      if writable {
        writeopen := false;
      } else {
        readopen := false;
      }
      freed := !readopen && !writeopen;
    }
  }

  function Closed(p: Ends, writable: bool): Ends {
    if writable then p.(writeopen := false) else p.(readopen := false)
  }

  // First in, first out, over every run

  datatype Op = Put(s: seq<u8>) | Take(n: nat) | Shut(writable: bool)

  /** A pipe's contents with what has gone in and what has come out. */
  datatype Flow = Flow(contents: seq<u8>, readopen: bool, writeopen: bool, put: seq<u8>, taken: seq<u8>)

  function FlowEnds(f: Flow): Ends { Ends(|f.contents|, f.readopen, f.writeopen) }

  /** The contracts of Write, Read and Close, as a function on contents. */
  function FlowAfter(f: Flow, op: Op): Flow {
    match op
    case Put(s) =>
      if !f.writeopen then f
      else
        var k := Min(Moved(WriteRet(FlowEnds(f), |s|)), |s|);
        f.(contents := f.contents + s[..k], put := f.put + s[..k])
    case Take(n) =>
      if !f.readopen then f
      else
        var k := Min(Moved(ReadRet(FlowEnds(f), n)), |f.contents|);
        f.(contents := f.contents[k..], taken := f.taken + f.contents[..k])
    case Shut(true) => f.(writeopen := false)
    case Shut(false) => f.(readopen := false)
  }

  function FlowRun(f: Flow, ops: seq<Op>): Flow
    decreases |ops|
  {
    if ops == [] then f else FlowRun(FlowAfter(f, ops[0]), ops[1..])
  }

  /**
   Over every run the bytes put in are the bytes taken out followed by the contents,
   in order; the ring never holds more than PIPESIZE bytes; and a read of n > 0 bytes
   reports end of file exactly when no writer is left and everything put was taken.
   */
  lemma {:induction false} FirstInFirstOut(f: Flow, ops: seq<Op>)
    requires f.put == f.taken + f.contents && |f.contents| <= PIPESIZE
    ensures var g := FlowRun(f, ops);
      && g.put == g.taken + g.contents && |g.contents| <= PIPESIZE
      && forall n: nat :: n > 0 ==> (ReadRet(FlowEnds(g), n) == 0 <==> !g.writeopen && g.put == g.taken)
    decreases |ops|
  {
    if ops != [] {
      var g := FlowAfter(f, ops[0]);
      assert g.put == g.taken + g.contents by {
        match ops[0]
        case Put(s) =>
          var k := Min(Moved(WriteRet(FlowEnds(f), |s|)), |s|);
          assert f.put + s[..k] == f.taken + (f.contents + s[..k]);
        case Take(n) =>
          var k := Min(Moved(ReadRet(FlowEnds(f), n)), |f.contents|);
          assert f.contents == f.contents[..k] + f.contents[k..];
          assert f.taken + f.contents == (f.taken + f.contents[..k]) + f.contents[k..];
        case Shut(_) =>
      }
      FirstInFirstOut(g, ops[1..]);
    }
  }

  /** Once the write end is shut nothing more goes in. */
  lemma {:induction false} NothingAfterShut(f: Flow, ops: seq<Op>)
    requires !f.writeopen
    ensures !FlowRun(f, ops).writeopen && FlowRun(f, ops).put == f.put
    decreases |ops|
  {
    if ops != [] {
      NothingAfterShut(FlowAfter(f, ops[0]), ops[1..]);
    }
  }
}
