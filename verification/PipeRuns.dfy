/** Pipes together with the descriptors that hold their ends. */
module PipeRuns {
  import opened Words
  import opened FileTable
  import Pipes

  // Over every run of pipe, open, dup, fork, close, exit, read and write, a reader sees the end of the file
  // exactly when no descriptor anywhere can write to the pipe any more and everything written has been read.

  /** The open files, all processes' descriptors, and for each pipe what went in and what came out. */
  datatype Sys = Sys(files: seq<File>, slots: seq<int>, flows: map<nat, Pipes.Flow>)

  function EndsOf(flows: map<nat, Pipes.Flow>): map<nat, Ends> { map q | q in flows :: Pipes.FlowEnds(flows[q]) }

  ghost predicate FlowOk(f: Pipes.Flow) { f.put == f.taken + f.contents && |f.contents| <= Pipes.PIPESIZE }

  ghost predicate Ok(s: Sys) {
    TableOk(s.files, s.slots, EndsOf(s.flows)) && forall q :: q in s.flows ==> FlowOk(s.flows[q])
  }

  /** One change to one descriptor; fork is a dup for each descriptor of the parent, exit a close for each. */
  datatype Event =
    | MakePipe(i: nat, j: nat, k: nat, l: nat, q: nat)     // descriptors i, j; files k, l; the pipe's page q
    | Open(i: nat, k: nat, f: File)
    | Dup(i: nat, k: nat)
    | Close(i: nat)
    | Read(i: nat, n: nat)
    | Write(i: nat, src: seq<u8>)

  predicate Holds(s: Sys, i: nat, writing: bool) {
    && i < |s.slots| && 0 <= s.slots[i] < |s.files|
    && s.files[s.slots[i]].kind == PipeFile && s.files[s.slots[i]].ref > 0 && s.files[s.slots[i]].pipe in s.flows
    && s.files[s.slots[i]].writable == writing && s.files[s.slots[i]].readable != writing
  }

  function PipeAt(s: Sys, i: nat): nat
    requires i < |s.slots| && 0 <= s.slots[i] < |s.files|
  {
    s.files[s.slots[i]].pipe
  }

  function EndFile(q: nat, writing: bool): File { File(PipeFile, 1, !writing, writing, q, 0, 0) }

  predicate Enabled(s: Sys, e: Event) {
    match e
    case MakePipe(i, j, k, l, q) =>
      && i < |s.slots| && j < |s.slots| && i != j && s.slots[i] == NONE && s.slots[j] == NONE
      && k < |s.files| && l < |s.files| && k != l && s.files[k].ref == 0 && s.files[l].ref == 0 && q !in s.flows
    case Open(i, k, f) =>
      i < |s.slots| && s.slots[i] == NONE && k < |s.files| && s.files[k].ref == 0 && f.kind == InodeFile && f.ref == 1
    case Dup(i, k) => i < |s.slots| && s.slots[i] == NONE && k < |s.files| && s.files[k].ref > 0
    case Close(i) => i < |s.slots| && 0 <= s.slots[i] < |s.files| && s.files[s.slots[i]].ref > 0
                     && (s.files[s.slots[i]].kind == PipeFile ==> s.files[s.slots[i]].pipe in s.flows)
    case Read(i, _) => Holds(s, i, false)
    case Write(i, _) => Holds(s, i, true)
  }

  /** pipeclose on a flow; with both ends closed the pipe is gone. */
  function ShutFlow(flows: map<nat, Pipes.Flow>, q: nat, writing: bool): map<nat, Pipes.Flow>
    requires q in flows
  {
    var f := Pipes.FlowAfter(flows[q], Pipes.Shut(writing));
    if f.readopen || f.writeopen then flows[q := f] else flows - {q}
  }

  function Next(s: Sys, e: Event): Sys
    requires Enabled(s, e)
  {
    match e
    case MakePipe(i, j, k, l, q) =>
      Sys(s.files[k := EndFile(q, false)][l := EndFile(q, true)], s.slots[i := k][j := l],
          s.flows[q := Pipes.Flow([], true, true, [], [])])
    case Open(i, k, f) => s.(files := s.files[k := f], slots := s.slots[i := k])
    case Dup(i, k) => s.(files := s.files[k := s.files[k].(ref := s.files[k].ref + 1)], slots := s.slots[i := k])
    case Close(i) =>
      var k := s.slots[i];
      var f := s.files[k];
      Sys(Dropped(s.files, k), s.slots[i := NONE],
          if f.ref == 1 && f.kind == PipeFile then ShutFlow(s.flows, f.pipe, f.writable) else s.flows)
    case Read(i, n) => s.(flows := s.flows[PipeAt(s, i) := Pipes.FlowAfter(s.flows[PipeAt(s, i)], Pipes.Take(n))])
    case Write(i, src) => s.(flows := s.flows[PipeAt(s, i) := Pipes.FlowAfter(s.flows[PipeAt(s, i)], Pipes.Put(src))])
  }

  lemma FlowKeeps(f: Pipes.Flow, op: Pipes.Op)
    requires FlowOk(f)
    ensures FlowOk(Pipes.FlowAfter(f, op))
    ensures !op.Shut? ==>
      Pipes.FlowAfter(f, op).readopen == f.readopen && Pipes.FlowAfter(f, op).writeopen == f.writeopen
  {
    Pipes.FirstInFirstOut(f, [op]);
    assert [op][1..] == [];
    assert Pipes.FlowRun(f, [op]) == Pipes.FlowRun(Pipes.FlowAfter(f, op), []);
  }

  lemma CloseShuts(s: Sys, i: nat)
    requires Ok(s) && Enabled(s, Close(i))
    ensures EndsOf(Next(s, Close(i)).flows) == ShutBy(s.files, EndsOf(s.flows), s.slots[i])
    ensures forall q :: q in Next(s, Close(i)).flows ==> FlowOk(Next(s, Close(i)).flows[q])
  {
    SlotFile(s.files, s.slots, EndsOf(s.flows), i);
    hide TableOk;
  }

  lemma CloseKeeps(s: Sys, i: nat)
    requires Ok(s) && Enabled(s, Close(i))
    ensures Ok(Next(s, Close(i)))
  {
    SlotFile(s.files, s.slots, EndsOf(s.flows), i);
    CloseShuts(s, i);
    CloseOk(s.files, s.slots, EndsOf(s.flows), i);
    hide TableOk, FlowOk, EndsOf, ShutBy, ShutFlow, Dropped;
  }

  lemma MoveKeeps(s: Sys, i: nat, op: Pipes.Op, s': Sys)
    requires Ok(s) && i < |s.slots| && 0 <= s.slots[i] < |s.files| && PipeAt(s, i) in s.flows && !op.Shut?
    requires s' == s.(flows := s.flows[PipeAt(s, i) := Pipes.FlowAfter(s.flows[PipeAt(s, i)], op)])
    ensures Ok(s')
  {
    FlowKeeps(s.flows[PipeAt(s, i)], op);
    SameEnds(s.files, EndsOf(s.flows), EndsOf(s'.flows));
  }

  lemma SameEnds(files: seq<File>, pipes: map<nat, Ends>, pipes': map<nat, Ends>)
    requires PipesOk(files, pipes) && pipes'.Keys == pipes.Keys
    requires forall q ::
      q in pipes ==> pipes'[q].readopen == pipes[q].readopen && pipes'[q].writeopen == pipes[q].writeopen
    ensures PipesOk(files, pipes')
  {
    hide OpenEnd;
    forall q ensures q in pipes' <==> q in pipes {
      assert q in pipes'.Keys <==> q in pipes.Keys;
    }
  }

  lemma StepKeeps(s: Sys, e: Event)
    requires Ok(s) && Enabled(s, e)
    ensures Ok(Next(s, e))
  {
    hide SlotsOk, PipesOk;
    match e
    case MakePipe(i, j, k, l, q) =>
      PipeOk(s.files, s.slots, EndsOf(s.flows), i, j, k, l, EndFile(q, false), EndFile(q, true), q);
      assert EndsOf(Next(s, e).flows) == EndsOf(s.flows)[q := Pipes.Ends(0, true, true)];
    case Open(i, k, f) => OpenOk(s.files, s.slots, EndsOf(s.flows), i, k, f);
    case Dup(i, k) => DupOk(s.files, s.slots, EndsOf(s.flows), i, k);
    case Close(i) => CloseKeeps(s, i);
    case Read(i, n) => MoveKeeps(s, i, Pipes.Take(n), Next(s, e));
    case Write(i, src) => MoveKeeps(s, i, Pipes.Put(src), Next(s, e));
  }

  // Runs

  /** No file open. */
  ghost predicate Boot(s: Sys) {
    && (forall i :: 0 <= i < |s.slots| ==> s.slots[i] == NONE)
    && (forall k :: 0 <= k < |s.files| ==> s.files[k].kind == NoFile && s.files[k].ref == 0) && s.flows == map[]
  }

  lemma BootOk(s: Sys)
    requires Boot(s)
    ensures Ok(s)
  {
    forall k: nat ensures Count(s.slots, k) == 0 {
      NoneCount(s.slots, k);
    }
  }

  /** Performs the events in turn; one that cannot happen is passed over. */
  function Exec(s: Sys, es: seq<Event>): Sys
    decreases |es|
  {
    if es == [] then s else Exec(if Enabled(s, es[0]) then Next(s, es[0]) else s, es[1..])
  }

  lemma {:induction false} RunKeeps(s: Sys, es: seq<Event>)
    requires Ok(s)
    ensures Ok(Exec(s, es))
    decreases |es|
  {
    hide Ok;
    if es != [] {
      if Enabled(s, es[0]) { StepKeeps(s, es[0]); }
      RunKeeps(if Enabled(s, es[0]) then Next(s, es[0]) else s, es[1..]);
    }
  }

  /** Some descriptor of some process can write to pipe `q`. */
  ghost predicate Writer(s: Sys, q: nat) {
    exists i: nat :: Holds(s, i, true) && PipeAt(s, i) == q
  }

  lemma WriterIff(s: Sys, q: nat)
    requires Ok(s) && q in s.flows
    ensures s.flows[q].writeopen <==> Writer(s, q)
  {
    EndOpenIff(s.files, s.slots, EndsOf(s.flows), q, true);
    if i: nat :| i < |s.slots| && s.slots[i] >= 0 && OpenEnd(s.files, s.slots[i], q, true) {
      assert Holds(s, i, true) && PipeAt(s, i) == q;
    }
    if i: nat :| Holds(s, i, true) && PipeAt(s, i) == q {
      assert OpenEnd(s.files, s.slots[i], q, true);
    }
  }

  /**
   Over every run: what has been read from a pipe is a prefix of what was written, in order, the rest is in
   the ring; and a read of n > 0 bytes returns 0 exactly when no descriptor can write to the pipe and
   everything written has been read.
   */
  lemma EndOfFile(s: Sys, es: seq<Event>, q: nat, n: nat)
    requires Boot(s) && n > 0
    ensures var r := Exec(s, es);
      q in r.flows ==>
        && r.flows[q].put == r.flows[q].taken + r.flows[q].contents && |r.flows[q].contents| <= Pipes.PIPESIZE
        && (Pipes.ReadRet(Pipes.FlowEnds(r.flows[q]), n) == 0 <==> !Writer(r, q) && r.flows[q].put == r.flows[q].taken)
  {
    BootOk(s);
    RunKeeps(s, es);
    var r := Exec(s, es);
    if q in r.flows {
      WriterIff(r, q);
    }
  }
}
