/** Users, MM and FS as a transition system. */
module Protocol {
  import opened ProcTable
  import opened Ipc
  import Pipes

  // `fs/main.c`, `mm/main.c`, `mm/proc.c`, and the client side in `lib/fs.c`, `lib/mm.c`. Every action is one
  // `cli`..`sti` region or one store that another process can see; any RUNNABLE process may act next.

  const INIT := 4

  predicate IsUser(p: int) { INIT <= p < NPROC }

  predicate IsServer(d: int) { d == TASK_MM || d == TASK_FS }

  /** The request MM makes to FS while it serves a fork or an exit. */
  datatype Nested = ForkFiles(child: int) | ExitFiles

  /** Where a process stands in its code. `blocked` says how its last call left it. */
  datatype Pc =
    | Idle                                              // task_idle
    | User                                              // outside any call
    | InSend(dest: int, blocked: bool)                  // BOTH: in sendmsg
    | InRecv(dest: int, blocked: bool)                  // BOTH: in recvmsg
    | Top                                               // server: about to receive
    | Accept(blocked: bool)                             // server: in recvmsg(ANY)
    | Serve(m: Msg)                                     // server: handling m
    | Forking(m: Msg, child: int)                       // MM: child allocated, copying memory
    | Calling(m: Msg, call: Nested)                     // MM: about to call FS
    | CallSend(m: Msg, call: Nested, blocked: bool)
    | CallRecv(m: Msg, call: Nested, blocked: bool)
    | Dying(m: Msg)                                     // MM: children handed over, client not yet ZOMBIE
    | WakeParent(child: int)                            // MM: client is ZOMBIE, parent not yet woken
    | Reply(m: Msg)                                     // server: about to answer m.source
    | InReply(m: Msg, blocked: bool)

  /**
   `req` is each process's last request, `exited` the exit codes by pid, `reaped` what
   wait has returned so far: history. `panicked` is set when code calls panic or an
   assert fails.
   */
  datatype Sys = Sys(
    t: Table, pc: seq<Pc>, pipes: map<nat, Pipes.Ends>, nextpid: nat,
    req: seq<Msg>, exited: map<nat, int>, reaped: map<nat, int>, panicked: bool)

  datatype Action =
    | UserSend(u: int, dest: int, typ: MsgType, i1: int, i2: int)
    | UserRecv(u: int)
    | UserDone(u: int)
    | ServerRecv(d: int)
    | ServerGot(d: int)
    | ServerReply(d: int)
    | ServerLoop(d: int)
    | MmForkAlloc(ok: bool)
    | MmForkCopy(ok: bool)
    | MmForkDone
    | MmExitMark
    | MmCall
    | MmCallWait
    | MmReparent
    | MmZombie
    | MmWakeParent
    | MmWait
    | MmOther(r: int)
    | FsDisk(sector: nat)
    | FsFinish(r: int)
    | FsTtyWait
    | FsPipeOpen(k: nat)
    | FsPipeClose(k: nat, writable: bool)
    | FsPipeRead(k: nat, n: nat)
    | FsPipeWrite(k: nat, n: nat)
    | DiskIntr(sector: nat)
    | KbdIntr

  predicate MmRequest(typ: MsgType) {
    typ == MSG_FORK || typ == MSG_EXIT || typ == MSG_WAIT || typ == MSG_SBRK
  }

  predicate FsRequest(typ: MsgType) {
    match typ
    case MSG_OPEN | MSG_CLOSE | MSG_READ | MSG_WRITE | MSG_CHDIR | MSG_DUP | MSG_LINK
       | MSG_UNLINK | MSG_MKDIR | MSG_MKNOD | MSG_PIPE | MSG_STAT | MSG_SEEK | MSG_GOTOXY
       | MSG_TTYMODE | MSG_CLS | MSG_TTYCOLOR => true
    case _ => false
  }

  /** The calls whose callers retry on BESLEEP. */
  predicate MayRetry(typ: MsgType) {
    typ == MSG_READ || typ == MSG_WRITE || typ == MSG_WAIT
  }

  ghost predicate Shape(s: Sys) {
    TableOk(s.t) && |s.pc| == NPROC && |s.req| == NPROC
  }

  predicate Runs(s: Sys, p: int)
    requires |s.t| == NPROC
  {
    IsSlot(p) && s.t[p].state == RUNNABLE
  }

  // What a request and a reply look like

  function Request(s: Sys, p: int, typ: MsgType, p1: Ptr, p2: Ptr, i1: int, i2: int): Msg
    requires |s.req| == NPROC && IsSlot(p)
  {
    Msg(typ, p, p1, p2, i1, i2, s.req[p].tag + 1)
  }

  function Answer(m: Msg, r: int): Msg { m.(typ := MSG_SYSRET, i1 := r) }

  function TryAgain(m: Msg, w: Ptr): Msg { m.(typ := MSG_BESLEEP, i1 := Pipes.SLEEP, p1 := w) }

  /** A blocked call that was resumed returns msgstate, which its caller asserts to be 0. */
  predicate CallFailed(s: Sys, p: int, blocked: bool)
    requires |s.t| == NPROC && IsSlot(p)
  {
    blocked && s.t[p].msgstate != 0
  }

  // When an action can happen

  ghost predicate Enabled(s: Sys, a: Action)
    requires Shape(s)
  {
    match a
    case UserSend(u, dest, typ, _, _) =>
      && IsUser(u) && Runs(s, u) && s.pc[u] == User
      && (dest == TASK_MM || dest == TASK_FS)
      && (if dest == TASK_MM then MmRequest(typ) else FsRequest(typ))
    case UserRecv(u) => IsUser(u) && Runs(s, u) && s.pc[u].InSend? && IsServer(s.pc[u].dest)
    case UserDone(u) => IsUser(u) && Runs(s, u) && s.pc[u].InRecv?
    case ServerRecv(d) => (IsServer(d) || d == TASK_SYS) && Runs(s, d) && s.pc[d].Top?
    case ServerGot(d) => IsServer(d) && Runs(s, d) && s.pc[d].Accept?
    case ServerReply(d) =>
      IsServer(d) && Runs(s, d) && s.pc[d].Reply? && IsSlot(s.pc[d].m.source) && s.pc[d].m.source != d
    case ServerLoop(d) => IsServer(d) && Runs(s, d) && s.pc[d].InReply?
    case MmForkAlloc(_) => MmServes(s, MSG_FORK)
    case MmForkCopy(_) =>
      && Runs(s, TASK_MM) && s.pc[TASK_MM].Forking? && IsUser(s.pc[TASK_MM].child)
      && IsUser(s.pc[TASK_MM].m.source)
    case MmForkDone =>
      && Runs(s, TASK_MM) && s.pc[TASK_MM].CallRecv? && s.pc[TASK_MM].call.ForkFiles?
      && IsUser(s.pc[TASK_MM].call.child)
    case MmExitMark => MmServes(s, MSG_EXIT)
    case MmCall => Runs(s, TASK_MM) && s.pc[TASK_MM].Calling?
    case MmCallWait => Runs(s, TASK_MM) && s.pc[TASK_MM].CallSend?
    case MmReparent =>
      && Runs(s, TASK_MM) && s.pc[TASK_MM].CallRecv? && s.pc[TASK_MM].call.ExitFiles?
      && IsUser(s.pc[TASK_MM].m.source)
    case MmZombie => Runs(s, TASK_MM) && s.pc[TASK_MM].Dying? && IsUser(s.pc[TASK_MM].m.source)
    case MmWakeParent => Runs(s, TASK_MM) && s.pc[TASK_MM].WakeParent? && IsUser(s.pc[TASK_MM].child)
    case MmWait => MmServes(s, MSG_WAIT)
    case MmOther(r) => MmServes(s, MSG_SBRK) && r != Pipes.SLEEP
    case FsDisk(_) => FsServes(s)
    case FsFinish(r) => FsServes(s) && r != Pipes.SLEEP
    case FsTtyWait => FsServes(s) && s.pc[TASK_FS].m.typ == MSG_READ
    case FsPipeOpen(k) => FsServes(s) && s.pc[TASK_FS].m.typ == MSG_PIPE && k !in s.pipes
    case FsPipeClose(k, w) =>
      && FsServes(s) && (s.pc[TASK_FS].m.typ == MSG_CLOSE || s.pc[TASK_FS].m.typ == MSG_EXIT)
      && k in s.pipes
    case FsPipeRead(k, _) => FsServes(s) && s.pc[TASK_FS].m.typ == MSG_READ && k in s.pipes
    case FsPipeWrite(k, _) => FsServes(s) && s.pc[TASK_FS].m.typ == MSG_WRITE && k in s.pipes
    case DiskIntr(_) => true
    case KbdIntr => true
  }

  ghost predicate MmServes(s: Sys, typ: MsgType)
    requires Shape(s)
  {
    && Runs(s, TASK_MM) && s.pc[TASK_MM].Serve? && s.pc[TASK_MM].m.typ == typ
    && IsUser(s.pc[TASK_MM].m.source)
  }

  ghost predicate FsServes(s: Sys)
    requires Shape(s)
  {
    Runs(s, TASK_FS) && s.pc[TASK_FS].Serve?
  }

  // What it does

  /** Process `p` runs sendmsg and moves on to `next(blocked)`. */
  ghost function Sending(s: Sys, p: int, dest: int, m: Msg, next: bool -> Pc): Sys
    requires Shape(s) && IsSlot(p) && IsSlot(dest)
  {
    var st := SendStep(s.t, p, dest, m);
    s.(t := st.table, pc := s.pc[p := next(st.outcome == Blocked)],
       panicked := s.panicked || st.outcome == Panicked || p == dest || s.t[dest].state == UNUSED)
  }

  ghost function Receiving(v: Variant, s: Sys, p: int, source: int, next: bool -> Pc): Sys
    requires Shape(s) && IsSlot(p) && (IsSlot(source) || source == ANY)
  {
    var st := RecvStep(v, s.t, p, source);
    s.(t := st.table, pc := s.pc[p := next(st.outcome == Blocked)],
       panicked := s.panicked || st.outcome == Panicked || p == source
                   || (source != ANY && s.t[source].state == UNUSED))
  }

  function SetMm(s: Sys, pc: Pc): Sys
    requires |s.pc| == NPROC
  {
    s.(pc := s.pc[TASK_MM := pc])
  }

  function SetFs(s: Sys, pc: Pc): Sys
    requires |s.pc| == NPROC
  {
    s.(pc := s.pc[TASK_FS := pc])
  }

  ghost function Next(v: Variant, s: Sys, a: Action): Sys
    requires Shape(s) && Enabled(s, a)
  {
    match a
    case UserSend(u, dest, typ, i1, i2) => UserSends(s, u, dest, Request(s, u, typ, Null, Null, i1, i2))
    case UserRecv(u) => UserReceives(v, s, u)
    case UserDone(u) => UserReturns(s, u)
    case ServerRecv(d) => Receiving(v, s, d, ANY, b => Accept(b))
    case ServerGot(d) => ServerGets(s, d)
    case ServerReply(d) => ServerReplies(s, d)
    case ServerLoop(d) => s.(pc := s.pc[d := Top])
    case MmForkAlloc(ok) => ForkAlloc(s, ok)
    case MmForkCopy(ok) => ForkCopy(s, ok)
    case MmForkDone => ForkDone(s)
    case MmExitMark => ExitMark(s)
    case MmCall => Call(s)
    case MmCallWait => CallWait(v, s)
    case MmReparent => Reparent(s)
    case MmZombie => Bury(s)
    case MmWakeParent => NotifyParent(s)
    case MmWait => Wait(s)
    case MmOther(r) => SetMm(s, Reply(Answer(s.pc[TASK_MM].m, r)))
    case FsDisk(b) => s.(t := s.t[TASK_FS := s.t[TASK_FS].(state := SLEEPING, tmp := Buf(b))])
    case FsFinish(r) => SetFs(s, Reply(Answer(s.pc[TASK_FS].m, r)))
    case FsTtyWait => SetFs(s, Reply(TryAgain(s.pc[TASK_FS].m, Tty)))
    case FsPipeOpen(k) => s.(pipes := s.pipes[k := Pipes.Ends(0, true, true)])
    case FsPipeClose(k, w) => PipeClose(s, k, w)
    case FsPipeRead(k, n) => PipeRead(s, k, n)
    case FsPipeWrite(k, n) => PipeWrite(s, k, n)
    case DiskIntr(b) => s.(t := Woken(s.t, Buf(b)))
    case KbdIntr => s.(t := Woken(s.t, Tty))
  }

  ghost function UserSends(s: Sys, u: int, dest: int, m: Msg): Sys
    requires Shape(s) && IsSlot(u) && IsSlot(dest)
  {
    Sending(s, u, dest, m, b => InSend(dest, b)).(req := s.req[u := m])
  }

  ghost function UserReceives(v: Variant, s: Sys, u: int): Sys
    requires Shape(s) && IsSlot(u) && s.pc[u].InSend? && IsSlot(s.pc[u].dest)
  {
    var d := s.pc[u].dest;
    var r := Receiving(v, s, u, d, b => InRecv(d, b));
    r.(panicked := r.panicked || CallFailed(s, u, s.pc[u].blocked))
  }

  ghost function UserReturns(s: Sys, u: int): Sys
    requires Shape(s) && IsSlot(u) && s.pc[u].InRecv?
  {
    var m := s.t[u].mbuf;
    s.(pc := s.pc[u := User],
       panicked := s.panicked || CallFailed(s, u, s.pc[u].blocked)
                   || !(m.typ == MSG_SYSRET || (m.typ == MSG_BESLEEP && MayRetry(s.req[u].typ))))
  }

  ghost function ServerGets(s: Sys, d: int): Sys
    requires Shape(s) && IsSlot(d) && s.pc[d].Accept?
  {
    var m := s.t[d].mbuf;
    s.(pc := s.pc[d := Serve(m)],
       panicked := s.panicked || (d == TASK_FS && (m.typ == MSG_FORK || m.typ == MSG_EXIT) && m.source != TASK_MM))
  }

  ghost function ServerReplies(s: Sys, d: int): Sys
    requires Shape(s) && IsSlot(d) && s.pc[d].Reply? && IsSlot(s.pc[d].m.source)
  {
    var m := s.pc[d].m;
    Sending(s, d, m.source, m.(source := d), b => InReply(m, b))
  }

  ghost function ForkDone(s: Sys): Sys
    requires Shape(s) && Enabled(s, MmForkDone)
  {
    var pc := s.pc[TASK_MM];
    var ch := pc.call.child;
    s.(t := s.t[ch := s.t[ch].(state := RUNNABLE)],
       pc := s.pc[ch := User][TASK_MM := Reply(Answer(pc.m, s.t[ch].pid))],
       panicked := s.panicked || CallFailed(s, TASK_MM, pc.blocked) || s.t[TASK_MM].mbuf.typ != MSG_SYSRET)
  }

  ghost function ExitMark(s: Sys): Sys
    requires Shape(s) && MmServes(s, MSG_EXIT)
  {
    var m := s.pc[TASK_MM].m;
    SetMm(s, Calling(m, ExitFiles)).(t := s.t[m.source := s.t[m.source].(state := EMBRYO)])
  }

  /** The request of fs_fork or fs_exit. */
  function NestedRequest(s: Sys, m: Msg, call: Nested): Msg
    requires Shape(s)
  {
    match call
    case ForkFiles(ch) => Request(s, TASK_MM, MSG_FORK, ProcAt(m.source), ProcAt(ch), 0, 0)
    case ExitFiles => Request(s, TASK_MM, MSG_EXIT, ProcAt(m.source), Null, 0, 0)
  }

  ghost function Call(s: Sys): Sys
    requires Shape(s) && s.pc[TASK_MM].Calling?
  {
    var pc := s.pc[TASK_MM];
    var m := NestedRequest(s, pc.m, pc.call);
    Sending(s, TASK_MM, TASK_FS, m, b => CallSend(pc.m, pc.call, b)).(req := s.req[TASK_MM := m])
  }

  ghost function CallWait(v: Variant, s: Sys): Sys
    requires Shape(s) && s.pc[TASK_MM].CallSend?
  {
    var pc := s.pc[TASK_MM];
    var r := Receiving(v, s, TASK_MM, TASK_FS, b => CallRecv(pc.m, pc.call, b));
    r.(panicked := r.panicked || CallFailed(s, TASK_MM, pc.blocked))
  }

  ghost function Reparent(s: Sys): Sys
    requires Shape(s) && s.pc[TASK_MM].CallRecv?
  {
    var pc := s.pc[TASK_MM];
    SetMm(s, Dying(pc.m)).(
      t := Reparented(s.t, pc.m.source),
      panicked := s.panicked || CallFailed(s, TASK_MM, pc.blocked) || s.t[TASK_MM].mbuf.typ != MSG_SYSRET)
  }

  ghost function Bury(s: Sys): Sys
    requires Shape(s) && Enabled(s, MmZombie)
  {
    var m := s.pc[TASK_MM].m;
    var c := m.source;
    SetMm(s, WakeParent(c)).(
      t := s.t[c := s.t[c].(state := ZOMBIE, msgstate := m.i1)],
      exited := s.exited[s.t[c].pid := m.i1])
  }

  /** INIT and the tasks have no parent. */
  function ParentPtr(p: int): Ptr { if IsSlot(p) then ProcAt(p) else Null }

  ghost function NotifyParent(s: Sys): Sys
    requires Shape(s) && Enabled(s, MmWakeParent)
  {
    SetMm(s, Top).(t := Woken(s.t, ParentPtr(s.t[s.pc[TASK_MM].child].parent)))
  }

  ghost function PipeClose(s: Sys, k: nat, w: bool): Sys
    requires Shape(s) && k in s.pipes
  {
    var p := Pipes.Closed(s.pipes[k], w);
    s.(pipes := if p.readopen || p.writeopen then s.pipes[k := p] else s.pipes - {k},
       t := Woken(s.t, if w then ReadOpen(k) else WriteOpen(k)))
  }

  ghost function PipeRead(s: Sys, k: nat, n: nat): Sys
    requires Shape(s) && FsServes(s) && k in s.pipes
  {
    FsPipeReply(s, Pipes.ReadRet(s.pipes[k], n), ReadOpen(k)).(
      pipes := s.pipes[k := Pipes.AfterRead(s.pipes[k], n)],
      t := if Pipes.ReadWakes(s.pipes[k], n) then Woken(s.t, WriteOpen(k)) else s.t)
  }

  ghost function PipeWrite(s: Sys, k: nat, n: nat): Sys
    requires Shape(s) && FsServes(s) && k in s.pipes
  {
    FsPipeReply(s, Pipes.WriteRet(s.pipes[k], n), WriteOpen(k)).(
      pipes := s.pipes[k := Pipes.AfterWrite(s.pipes[k], n)],
      t := if s.pipes[k].readopen then Woken(s.t, ReadOpen(k)) else s.t)
  }

  ghost function FsPipeReply(s: Sys, r: int, w: Ptr): Sys
    requires Shape(s) && FsServes(s)
  {
    var m := s.pc[TASK_FS].m;
    SetFs(s, Reply(if r == Pipes.SLEEP then TryAgain(m, w) else Answer(m, r)))
  }

  /** The first UNUSED entry from `k` on, or NPROC (allocproc). */
  function FirstUnused(t: Table, k: nat): (p: nat)
    requires |t| == NPROC && k <= NPROC
    ensures k <= p <= NPROC && (p < NPROC ==> t[p].state == UNUSED)
    ensures forall q :: k <= q < p ==> t[q].state != UNUSED
    decreases |t| - k
  {
    if k == NPROC || t[k].state == UNUSED then k else FirstUnused(t, k + 1)
  }

  /** The first ZOMBIE child of `c` from `k` on, or NPROC (do_wait). */
  function FirstZombie(t: Table, c: int, k: nat): (p: nat)
    requires |t| == NPROC && k <= NPROC
    ensures k <= p <= NPROC && (p < NPROC ==> t[p].state == ZOMBIE && t[p].parent == c)
    ensures forall q :: k <= q < p ==> !(t[q].state == ZOMBIE && t[q].parent == c)
    decreases |t| - k
  {
    if k == NPROC || (t[k].state == ZOMBIE && t[k].parent == c) then k else FirstZombie(t, c, k + 1)
  }

  /** allocproc takes the slot and a pid; it gives the slot back if it finds no page. */
  ghost function ForkAlloc(s: Sys, ok: bool): Sys
    requires Shape(s) && MmServes(s, MSG_FORK)
  {
    var m := s.pc[TASK_MM].m;
    var ch := FirstUnused(s.t, 0);
    if ch == NPROC then SetMm(s, Reply(Answer(m, -1)))
    else if !ok then
      SetMm(s, Reply(Answer(m, -1))).(nextpid := s.nextpid + 1, t := s.t[ch := s.t[ch].(pid := s.nextpid)])
    else
      SetMm(s, Forking(m, ch)).(
        nextpid := s.nextpid + 1, t := s.t[ch := s.t[ch].(state := EMBRYO, pid := s.nextpid)])
  }

  ghost function ForkCopy(s: Sys, ok: bool): Sys
    requires Shape(s) && Enabled(s, MmForkCopy(ok))
  {
    var m, ch := s.pc[TASK_MM].m, s.pc[TASK_MM].child;
    var c := s.t[m.source];
    if !ok then
      SetMm(s, Reply(Answer(m, -1))).(t := s.t[ch := s.t[ch].(state := UNUSED)])
    else
      SetMm(s, Calling(m, ForkFiles(ch))).(
        t := s.t[ch := s.t[ch].(parent := m.source, priority := c.priority, counter := c.counter)])
  }

  ghost function Wait(s: Sys): Sys
    requires Shape(s) && MmServes(s, MSG_WAIT)
  {
    var m := s.pc[TASK_MM].m;
    var z := FirstZombie(s.t, m.source, 0);
    if z == NPROC then
      SetMm(s, Reply(if m.i2 != 0 then Answer(m, -1) else TryAgain(m, ProcAt(m.source))))
    else
      SetMm(s, Reply(Answer(m, s.t[z].pid).(i2 := s.t[z].msgstate))).(
        t := s.t[z := s.t[z].(state := UNUSED)],
        reaped := s.reaped[s.t[z].pid := s.t[z].msgstate])
  }

  /** do_exit hands every child of `c` to INIT, and wakes INIT if one of them is a ZOMBIE. */
  function Reparented(t: Table, c: int): (r: Table)
    requires |t| == NPROC
    ensures |r| == NPROC
  {
    var moved := seq(NPROC, p requires 0 <= p < NPROC => if t[p].parent == c then t[p].(parent := INIT) else t[p]);
    if exists z :: 0 <= z < NPROC && t[z].state == ZOMBIE && t[z].parent == c then Woken(moved, ProcAt(INIT)) else moved
  }
}
