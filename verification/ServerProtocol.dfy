/**
 What holds over every run of the server protocol: no panic and no deadlock, no wakeup lost, each dead child
 returned once, one tree of processes. All this is about the receive as it is meant; AsWrittenExactly,
 AsWrittenRuns and AsWrittenGetsLost are about the receive as it is written.
 */
module ServerProtocol {
  import opened ProcTable
  import opened WaitGraph
  import opened Ipc
  import opened Protocol
  import opened ProtocolInv
  import opened ProtocolWorld
  import Pipes

  // Every action keeps the invariant

  lemma UserSendWorld(s: Sys, u: int, dest: int, m: Msg)
    requires Inv(s) && IsUser(u) && Runs(s, u) && s.pc[u] == User
    requires m.source == u && Addressed(m, dest)
    requires Shape(UserSends(s, u, dest, m))
    ensures WorldOk(UserSends(s, u, dest, m))
  {
    hide UsersOk, ServersOk, TasksOk, WorldOk, Quiet, UserSent;
    var s' := UserSends(s, u, dest, m);
    UserSendIs(s, u, dest, m);
    UserSendQuiet(s, s', u, dest, m);
    QuietKeeps(s, s');
  }

  lemma UserRecvWorld(s: Sys, u: int)
    requires Inv(s) && Enabled(s, UserRecv(u)) && Shape(UserReceives(Intended, s, u))
    ensures WorldOk(UserReceives(Intended, s, u))
  {
    hide UsersOk, ServersOk, TasksOk, ForestOk, PidsOk, ExitsOk, PipesOk, SleepersOk, PendingOk, Quiet, UserGot;
    var s' := UserReceives(Intended, s, u);
    UserRecvIs(s, u);
    UserRecvQuiet(s, s', u);
    QuietKeeps(s, s');
  }

  lemma UserDoneWorld(s: Sys, u: int)
    requires Inv(s) && IsUser(u) && Runs(s, u) && s.pc[u].InRecv? && Shape(UserReturns(s, u))
    ensures WorldOk(UserReturns(s, u))
  {
    hide UsersOk, ServersOk, TasksOk, WorldOk, Quiet;
    UserDoneQuiet(s, UserReturns(s, u), u);
    QuietKeeps(s, UserReturns(s, u));
  }

  lemma ServerRecvWorld(s: Sys, d: int)
    requires Inv(s) && Enabled(s, ServerRecv(d)) && Shape(Receiving(Intended, s, d, ANY, b => Accept(b)))
    ensures WorldOk(Receiving(Intended, s, d, ANY, b => Accept(b)))
  {
    hide UsersOk, ServersOk, TasksOk, WorldOk, ServerGotRequest, MmRequest, FsRequest;
    var s' := Receiving(Intended, s, d, ANY, b => Accept(b));
    if IsServer(d) {
      hide Quiet;
      ServerRecvIs(s, d);
      ServerRecvQuiet(s, s', d, SenderOf(s.t, d, ANY));
    } else {
      SysRecvIs(s);
      forall w | IsUser(w) ensures SamePerson(s.t[w], s'.t[w]) {}
    }
    QuietKeeps(s, s');
  }

  lemma ServerGotWorld(s: Sys, d: int)
    requires Inv(s) && Enabled(s, ServerGot(d)) && Shape(ServerGets(s, d))
    ensures WorldOk(ServerGets(s, d))
  {
    hide UsersOk, ServersOk, TasksOk, WorldOk, Quiet;
    PlaceQuiet(s, ServerGets(s, d), d, Serve(s.t[d].mbuf));
    QuietKeeps(s, ServerGets(s, d));
  }

  lemma ServerReplyWorld(s: Sys, d: int)
    requires Inv(s) && Enabled(s, ServerReply(d)) && Shape(ServerReplies(s, d))
    ensures WorldOk(ServerReplies(s, d))
  {
    hide UsersOk, ServersOk, TasksOk, ForestOk, PidsOk, ExitsOk, PipesOk, SleepersOk, PendingOk, Quiet, Replied;
    ReplyIs(s, d);
    ReplyQuiet(s, ServerReplies(s, d), d);
    QuietKeeps(s, ServerReplies(s, d));
  }

  lemma ServerLoopWorld(s: Sys, d: int)
    requires Inv(s) && Enabled(s, ServerLoop(d)) && Shape(s.(pc := s.pc[d := Top]))
    ensures WorldOk(s.(pc := s.pc[d := Top]))
  {
    hide UsersOk, ServersOk, TasksOk, WorldOk, Quiet;
    PlaceQuiet(s, s.(pc := s.pc[d := Top]), d, Top);
    QuietKeeps(s, s.(pc := s.pc[d := Top]));
  }

  lemma ForkDoneWorld(s: Sys)
    requires Inv(s) && Enabled(s, MmForkDone) && Shape(ForkDone(s))
    ensures WorldOk(ForkDone(s))
  {
    hide UsersOk, ServersOk, TasksOk, WorldOk, Quiet;
    ForkDoneQuiet(s, ForkDone(s));
    QuietKeeps(s, ForkDone(s));
  }

  lemma ExitMarkWorld(s: Sys)
    requires Inv(s) && MmServes(s, MSG_EXIT) && Shape(ExitMark(s))
    ensures WorldOk(ExitMark(s))
  {
    hide UsersOk, ServersOk, TasksOk, WorldOk, Quiet;
    ExitMarkQuiet(s, ExitMark(s));
    QuietKeeps(s, ExitMark(s));
  }

  lemma HandedWorld(s: Sys)
    requires Inv(s) && Enabled(s, MmReparent) && Shape(Reparent(s))
    ensures WorldOk(Reparent(s))
  {
    hide UsersOk, ServersOk, TasksOk, WorldOk, HandedOver, Reparented;
    ReparentedHandsOver(s.t, s.pc[TASK_MM].m.source);
    ReparentWorld(s, Reparent(s));
  }

  lemma MmOtherWorld(s: Sys, r: int)
    requires Inv(s) && MmServes(s, MSG_SBRK) && Shape(SetMm(s, Reply(Answer(s.pc[TASK_MM].m, r))))
    ensures WorldOk(SetMm(s, Reply(Answer(s.pc[TASK_MM].m, r))))
  {
    hide UsersOk, ServersOk, TasksOk, WorldOk, Quiet;
    var pc := Reply(Answer(s.pc[TASK_MM].m, r));
    PlaceQuiet(s, SetMm(s, pc), TASK_MM, pc);
    QuietKeeps(s, SetMm(s, pc));
  }

  lemma MmWorld(s: Sys, a: Action)
    requires Inv(s) && Enabled(s, a) && Shape(Next(Intended, s, a))
    requires a.MmForkAlloc? || a.MmForkCopy? || a.MmForkDone? || a.MmExitMark? || a.MmReparent?
             || a.MmZombie? || a.MmWakeParent? || a.MmWait? || a.MmOther? || a.MmCall? || a.MmCallWait?
    ensures WorldOk(Next(Intended, s, a))
  {
    hide UsersOk, ServersOk, TasksOk, TableOk, SetMm, ForkAlloc, ForkCopy, ForkDone, ExitMark, Call, CallWait;
    hide Reparent, Bury, NotifyParent, Wait, WorldOk;
    match a
    case MmForkAlloc(ok) => ForkAllocWorld(s, ForkAlloc(s, ok), ok);
    case MmForkCopy(ok) => ForkCopyWorld(s, ForkCopy(s, ok), ok);
    case MmForkDone => ForkDoneWorld(s);
    case MmExitMark => ExitMarkWorld(s);
    case MmCall => CallWorld(s);
    case MmCallWait => CallWaitWorld(s);
    case MmReparent => HandedWorld(s);
    case MmZombie => BuryWorld(s, Bury(s));
    case MmWakeParent => NotifyParentWorld(s, NotifyParent(s));
    case MmWait => WaitWorld(s, Wait(s));
    case MmOther(r) => MmOtherWorld(s, r);
  }

  lemma CallWorld(s: Sys)
    requires Inv(s) && Enabled(s, MmCall) && Shape(Call(s))
    ensures WorldOk(Call(s))
  {
    hide UsersOk, TasksOk, WorldOk, Quiet, MmSideOk, FsSideOk, MmPlaceOk;
    CallIs(s);
    CallQuiet(s, Call(s), NestedRequest(s, s.pc[TASK_MM].m, s.pc[TASK_MM].call));
    QuietKeeps(s, Call(s));
  }

  lemma CallWaitWorld(s: Sys)
    requires Inv(s) && Enabled(s, MmCallWait) && Shape(CallWait(Intended, s))
    ensures WorldOk(CallWait(Intended, s))
  {
    hide UsersOk, ServersOk, TasksOk, WorldOk, Quiet, CallAnswered;
    CallWaitIs(s);
    CallWaitQuiet(s, CallWait(Intended, s));
    QuietKeeps(s, CallWait(Intended, s));
  }

  lemma FsWorld(s: Sys, a: Action)
    requires Inv(s) && Enabled(s, a) && FsServes(s) && Shape(Next(Intended, s, a))
    requires a.FsPipeOpen? || a.FsPipeClose? || a.FsPipeRead? || a.FsPipeWrite?
    ensures WorldOk(Next(Intended, s, a))
  {
    hide UsersOk, ServersOk, TasksOk, TableOk, WorldOk, PipeClose, PipeRead, PipeWrite;
    var s' := Next(Intended, s, a);
    match a
    case FsPipeOpen(k) => PipeOpenWorld(s, s', k);
    case FsPipeClose(k, w) => PipeCloseWorld(s, s', k, w);
    case FsPipeRead(k, n) => PipeReadWorld(s, s', k, n);
    case FsPipeWrite(k, n) => PipeWriteWorld(s, s', k, n);
  }

  lemma FsQuiet(s: Sys, a: Action)
    requires Inv(s) && Enabled(s, a) && (a.FsDisk? || a.FsFinish? || a.FsTtyWait?) && Shape(Next(Intended, s, a))
    ensures WorldOk(Next(Intended, s, a))
  {
    hide UsersOk, ServersOk, TasksOk, WorldOk, Quiet;
    var s' := Next(Intended, s, a);
    if a.FsDisk? {
      DiskQuiet(s, s', a.sector);
    } else {
      PlaceQuiet(s, s', TASK_FS, s'.pc[TASK_FS]);
    }
    QuietKeeps(s, s');
  }

  lemma InterruptWorld(s: Sys, w: Ptr)
    requires Inv(s) && Shape(s.(t := Woken(s.t, w)))
    ensures WorldOk(s.(t := Woken(s.t, w)))
  {
    hide UsersOk, ServersOk, TasksOk, WorldOk, Quiet;
    InterruptQuiet(s, s.(t := Woken(s.t, w)), w);
    QuietKeeps(s, s.(t := Woken(s.t, w)));
  }

  /** The calls lemma and the world lemma of each action, put together. */
  lemma StepKeeps(s: Sys, a: Action)
    requires Inv(s) && Enabled(s, a)
    ensures Inv(Next(Intended, s, a))
  {
    hide UsersOk, ServersOk, TasksOk, TableOk, WorldOk, MmRequest, FsRequest;
    hide UserSends, UserReceives, UserReturns, ServerGets, ServerReplies, Receiving, Woken;
    CallsStep(s, a);
    if a.FsPipeOpen? || a.FsPipeClose? || a.FsPipeRead? || a.FsPipeWrite? {
      FsWorld(s, a);
    } else {
      match a
      case UserSend(u, dest, typ, i1, i2) => UserSendWorld(s, u, dest, Request(s, u, typ, Null, Null, i1, i2));
      case UserRecv(u) => UserRecvWorld(s, u);
      case UserDone(u) => UserDoneWorld(s, u);
      case ServerRecv(d) => ServerRecvWorld(s, d);
      case ServerGot(d) => ServerGotWorld(s, d);
      case ServerReply(d) => ServerReplyWorld(s, d);
      case ServerLoop(d) => ServerLoopWorld(s, d);
      case DiskIntr(b) => InterruptWorld(s, Buf(b));
      case KbdIntr => InterruptWorld(s, Tty);
      case FsDisk(_) => FsQuiet(s, a);
      case FsFinish(_) => FsQuiet(s, a);
      case FsTtyWait => FsQuiet(s, a);
      case _ => MmWorld(s, a);
    }
  }

  // Runs

  /** taskinit and userinit: the four tasks and INIT, which has no parent, are RUNNABLE, every other entry is free. */
  ghost predicate Boot(s: Sys) {
    && |s.t| == NPROC && |s.pc| == NPROC && |s.req| == NPROC
    && (forall p :: 0 <= p <= INIT ==> s.t[p].state == RUNNABLE && s.t[p].pid == p)
    && (forall p :: INIT < p < NPROC ==> s.t[p].state == UNUSED) && s.t[INIT].parent == -1
    && s.pc[TASK_IDLE] == Idle && s.pc[TASK_SYS] == Top && s.pc[TASK_MM] == Top && s.pc[TASK_FS] == Top
    && s.pc[INIT] == User && s.req[INIT].typ != MSG_EXIT
    && s.pipes == map[] && s.nextpid == INIT + 1 && s.exited == map[] && s.reaped == map[] && !s.panicked
  }

  lemma BootOk(s: Sys)
    requires Boot(s)
    ensures Inv(s)
  {
  }

  /** Performs the actions in turn; one that cannot happen is passed over. */
  ghost function Exec(v: Variant, s: Sys, acts: seq<Action>): Sys
    decreases |acts|
  {
    if acts == [] then s
    else if Shape(s) && Enabled(s, acts[0]) then Exec(v, Next(v, s, acts[0]), acts[1..])
    else Exec(v, s, acts[1..])
  }

  lemma {:induction false} RunKeeps(s: Sys, acts: seq<Action>)
    requires Inv(s)
    ensures Inv(Exec(Intended, s, acts))
    decreases |acts|
  {
    if acts != [] {
      if Enabled(s, acts[0]) {
        StepKeeps(s, acts[0]);
        RunKeeps(Next(Intended, s, acts[0]), acts[1..]);
      } else {
        RunKeeps(s, acts[1..]);
      }
    }
  }

  // Deadlock freedom

  /** What a RUNNABLE process does next. */
  function NextMove(s: Sys, p: int): Action
    requires |s.pc| == NPROC && IsSlot(p)
  {
    match s.pc[p]
    case Idle => KbdIntr
    case User => UserSend(p, TASK_FS, MSG_CLOSE, 0, 0)
    case InSend(_, _) => UserRecv(p)
    case InRecv(_, _) => UserDone(p)
    case Top => ServerRecv(p)
    case Accept(_) => ServerGot(p)
    case Serve(m) =>
      if p == TASK_FS then FsFinish(0)
      else if m.typ == MSG_FORK then MmForkAlloc(true)
      else if m.typ == MSG_EXIT then MmExitMark
      else if m.typ == MSG_WAIT then MmWait
      else MmOther(0)
    case Forking(_, _) => MmForkCopy(true)
    case Calling(_, _) => MmCall
    case CallSend(_, _, _) => MmCallWait
    case CallRecv(_, ForkFiles(_), _) => MmForkDone
    case CallRecv(_, ExitFiles, _) => MmReparent
    case Dying(_) => MmZombie
    case WakeParent(_) => MmWakeParent
    case Reply(_) => ServerReply(p)
    case InReply(_, _) => ServerLoop(p)
  }

  /** No RUNNABLE server or user process is ever stuck in its code. */
  lemma RunnableMoves(s: Sys, p: int)
    requires CallsOk(s) && Runs(s, p) && (IsServer(p) || IsUser(p))
    ensures Enabled(s, NextMove(s, p))
  {
    hide UsersOk;
    if IsUser(p) {
      UserIs(s, p);
    }
  }

  ghost predicate SomeoneRuns(s: Sys)
    requires Shape(s)
  {
    exists p :: (IsServer(p) || IsUser(p)) && Runs(s, p)
  }

  predicate AwaitsDisk(s: Sys)
    requires Shape(s)
  {
    s.t[TASK_FS].state == SLEEPING && s.t[TASK_FS].tmp.Buf?
  }

  /** Both servers wait for requests and every user process sleeps, is dead, or is not there. */
  ghost predicate AllQuiet(s: Sys)
    requires Shape(s)
  {
    && Open(s, TASK_MM) && Open(s, TASK_FS)
    && forall u :: IsUser(u) ==> s.t[u].state == SLEEPING || s.t[u].state == ZOMBIE || s.t[u].state == UNUSED
  }

  lemma NoDeadlock(s: Sys)
    requires CallsOk(s)
    ensures SomeoneRuns(s) || AwaitsDisk(s) || AllQuiet(s)
  {
    if !SomeoneRuns(s) && !AwaitsDisk(s) {
      assert !Runs(s, TASK_MM) && !Runs(s, TASK_FS);
      forall u | IsUser(u) ensures s.t[u].state != RUNNABLE {
        assert !Runs(s, u);
      }
      ServersOpen(s);
      forall u | IsUser(u) ensures s.t[u].state == SLEEPING || s.t[u].state == ZOMBIE || s.t[u].state == UNUSED {
        UserIs(s, u);
      }
    }
  }

  lemma ServersOpen(s: Sys)
    requires CallsOk(s) && s.t[TASK_MM].state != RUNNABLE && s.t[TASK_FS].state != RUNNABLE && !AwaitsDisk(s)
    requires forall u :: IsUser(u) ==> s.t[u].state != RUNNABLE
    ensures Open(s, TASK_MM) && Open(s, TASK_FS)
  {
    hide UsersOk;
    var f, c := Client(s, TASK_FS), Client(s, TASK_MM);
    if IsUser(f) {
      UserIs(s, f);
    }
    if IsUser(c) {
      UserIs(s, c);
    }
  }

  /**
   Over every run in which the receiver of BESLEEP sleeps: nothing panics, and unless
   all users sleep or are dead, or FS waits for the disk, some process can act.
   */
  lemma DeadlockFreedom(s: Sys, acts: seq<Action>)
    requires Boot(s)
    ensures var r := Exec(Intended, s, acts);
      && Shape(r) && !r.panicked
      && (SomeoneRuns(r) || AwaitsDisk(r) || AllQuiet(r))
      && forall p :: (IsServer(p) || IsUser(p)) && Runs(r, p) ==> Enabled(r, NextMove(r, p))
  {
    BootOk(s);
    RunKeeps(s, acts);
    var r := Exec(Intended, s, acts);
    NoDeadlock(r);
    forall p | (IsServer(p) || IsUser(p)) && Runs(r, p) ensures Enabled(r, NextMove(r, p)) {
      RunnableMoves(r, p);
    }
  }

  // recvmsg as written

  /** The receive that action `a` performs takes a BESLEEP message from a blocked sender. */
  ghost predicate TakesBesleep(s: Sys, a: Action)
    requires Shape(s) && Enabled(s, a)
  {
    match a
    case UserRecv(u) => TakesFrom(s, u, s.pc[u].dest)
    case MmCallWait => TakesFrom(s, TASK_MM, TASK_FS)
    case ServerRecv(d) => TakesFrom(s, d, ANY)
    case _ => false
  }

  ghost predicate TakesFrom(s: Sys, me: int, source: int)
    requires Shape(s) && IsSlot(me) && (IsSlot(source) || source == ANY)
  {
    var p := SenderOf(s.t, me, source);
    IsSlot(p) && s.t[p].mbuf.typ == MSG_BESLEEP
  }

  lemma OtherwiseAgree(s: Sys, a: Action)
    requires Shape(s) && Enabled(s, a) && !TakesBesleep(s, a)
    ensures Next(AsWritten, s, a) == Next(Intended, s, a)
  {
    match a
    case UserRecv(u) => assert RecvStep(AsWritten, s.t, u, s.pc[u].dest) == RecvStep(Intended, s.t, u, s.pc[u].dest);
    case MmCallWait => assert RecvStep(AsWritten, s.t, TASK_MM, TASK_FS) == RecvStep(Intended, s.t, TASK_MM, TASK_FS);
    case ServerRecv(d) => assert RecvStep(AsWritten, s.t, d, ANY) == RecvStep(Intended, s.t, d, ANY);
    case _ =>
  }

  /** Only a user's receive can take one. */
  lemma OnlyUsersTake(s: Sys, a: Action)
    requires CallsOk(s) && Enabled(s, a) && TakesBesleep(s, a)
    ensures a.UserRecv?
  {
    if a.MmCallWait? {
      assert false;
    } else if a.ServerRecv? {
      Offerer(s, a.d, SenderOf(s.t, a.d, ANY));
    }
  }

  /** Such a receive puts the server that answered to sleep. */
  lemma SleepingServer(s: Sys, u: int)
    requires CallsOk(s) && Enabled(s, UserRecv(u)) && TakesFrom(s, u, s.pc[u].dest)
    ensures var d, s' := s.pc[u].dest, UserReceives(AsWritten, s, u);
      IsServer(d) && Shape(s')
      && s'.t[d] == s.t[d].(state := SLEEPING, tmp := s.t[d].mbuf.p1, msgstate := 0)
      && !s.t[d].mbuf.p1.Buf? && !CallsOk(s')
  {
    hide UsersOk;
    UserIs(s, u);
    ShortRecvChain(s.t, u, s.pc[u].dest);
  }

  /**
   As written, a step keeps the invariant if and only if it is not a receive that
   takes a BESLEEP message.
   */
  lemma AsWrittenExactly(s: Sys, a: Action)
    requires Inv(s) && Enabled(s, a)
    ensures Inv(Next(AsWritten, s, a)) <==> !TakesBesleep(s, a)
  {
    if TakesBesleep(s, a) {
      OnlyUsersTake(s, a);
      SleepingServer(s, a.u);
    } else {
      OtherwiseAgree(s, a);
      StepKeeps(s, a);
    }
  }

  /** No action of the run, as far as it is reached, takes a BESLEEP message in a receive. */
  ghost predicate NeverTakes(s: Sys, acts: seq<Action>)
    decreases |acts|
  {
    acts == [] ||
    (if Shape(s) && Enabled(s, acts[0])
     then !TakesBesleep(s, acts[0]) && NeverTakes(Next(AsWritten, s, acts[0]), acts[1..])
     else NeverTakes(s, acts[1..]))
  }

  /** Over the runs that never take that branch the code as written has every property of the intended one. */
  lemma {:induction false} AsWrittenRuns(s: Sys, acts: seq<Action>)
    requires Inv(s) && NeverTakes(s, acts)
    ensures Exec(AsWritten, s, acts) == Exec(Intended, s, acts) && Inv(Exec(AsWritten, s, acts))
    decreases |acts|
  {
    if acts != [] {
      if Enabled(s, acts[0]) {
        OtherwiseAgree(s, acts[0]);
        StepKeeps(s, acts[0]);
        AsWrittenRuns(Next(Intended, s, acts[0]), acts[1..]);
      } else {
        AsWrittenRuns(s, acts[1..]);
      }
    }
  }

  /** Server `d` sleeps where only `d` itself could wake it. */
  ghost predicate Lost(s: Sys, d: int) {
    && Shape(s) && IsServer(d) && s.t[d].state == SLEEPING
    && if d == TASK_MM then s.t[d].tmp.ProcAt? else s.t[d].tmp.ReadOpen? || s.t[d].tmp.WriteOpen?
  }

  lemma LostSend(s: Sys, d: int, p: int, dest: int, m: Msg, next: bool -> Pc)
    requires Lost(s, d) && IsSlot(p) && IsSlot(dest) && p != d
    ensures Lost(Sending(s, p, dest, m, next), d)
  {
  }

  lemma LostRecv(v: Variant, s: Sys, d: int, p: int, source: int, next: bool -> Pc)
    requires Lost(s, d) && Runs(s, p) && (IsSlot(source) || source == ANY)
    ensures Lost(Receiving(v, s, p, source, next), d)
  {
  }

  lemma LostServing(v: Variant, s: Sys, d: int, a: Action)
    requires Lost(s, d) && Enabled(s, a)
    requires a.MmForkAlloc? || a.MmForkCopy? || a.MmForkDone? || a.MmExitMark? || a.MmZombie? || a.MmOther?
    ensures Lost(Next(v, s, a), d)
  {
    hide Reparent, NotifyParent, Wait, Sending, Receiving, PipeClose, PipeRead, PipeWrite, MmRequest, FsRequest;
  }

  lemma LostFamily(v: Variant, s: Sys, d: int, a: Action)
    requires Lost(s, d) && Enabled(s, a) && (a.MmReparent? || a.MmWakeParent? || a.MmWait?)
    ensures Lost(Next(v, s, a), d)
  {
    hide ForkAlloc, ForkCopy, ForkDone, ExitMark, Bury, Sending, Receiving, PipeClose, PipeRead, PipeWrite;
    hide MmRequest, FsRequest;
  }

  lemma LostCall(v: Variant, s: Sys, d: int, a: Action)
    requires Lost(s, d) && Enabled(s, a) && (a.MmCall? || a.MmCallWait?)
    ensures Lost(Next(v, s, a), d)
  {
    hide Sending, Receiving, NestedRequest, PipeClose, PipeRead, PipeWrite, MmRequest, FsRequest;
    hide ForkAlloc, ForkCopy, ForkDone, ExitMark, Reparent, Bury, NotifyParent, Wait;
    var pc := s.pc[TASK_MM];
    if a.MmCall? {
      LostSend(s, d, TASK_MM, TASK_FS, NestedRequest(s, pc.m, pc.call), b => CallSend(pc.m, pc.call, b));
    } else {
      LostRecv(v, s, d, TASK_MM, TASK_FS, b => CallRecv(pc.m, pc.call, b));
    }
  }

  lemma LostPipe(v: Variant, s: Sys, d: int, a: Action)
    requires Lost(s, d) && Enabled(s, a) && (a.FsPipeOpen? || a.FsPipeClose? || a.FsPipeRead? || a.FsPipeWrite?)
    ensures Lost(Next(v, s, a), d)
  {
    hide Sending, Receiving, ForkAlloc, ForkCopy, ForkDone, ExitMark, Bury, Reparent, NotifyParent, Wait;
    hide MmRequest, FsRequest;
    assert d == TASK_MM;
  }

  /** No action of anyone wakes it. */
  lemma LostStep(v: Variant, s: Sys, d: int, a: Action)
    requires Lost(s, d) && Enabled(s, a)
    ensures Lost(Next(v, s, a), d)
  {
    if a.FsPipeOpen? || a.FsPipeClose? || a.FsPipeRead? || a.FsPipeWrite? {
      LostPipe(v, s, d, a);
    } else if a.MmForkAlloc? || a.MmForkCopy? || a.MmForkDone? || a.MmExitMark? || a.MmZombie? || a.MmOther? {
      LostServing(v, s, d, a);
    } else if a.MmReparent? || a.MmWakeParent? || a.MmWait? {
      LostFamily(v, s, d, a);
    } else if a.MmCall? || a.MmCallWait? {
      LostCall(v, s, d, a);
    } else {
      hide Sending, Receiving, MmRequest, FsRequest, PipeClose, PipeRead, PipeWrite, Call, CallWait;
      hide ForkAlloc, ForkCopy, ForkDone, ExitMark, Reparent, Bury, NotifyParent, Wait;
      match a
      case UserSend(u, dest, typ, i1, i2) =>
        LostSend(s, d, u, dest, Request(s, u, typ, Null, Null, i1, i2), b => InSend(dest, b));
      case UserRecv(u) => LostRecv(v, s, d, u, s.pc[u].dest, b => InRecv(s.pc[u].dest, b));
      case ServerRecv(e) => LostRecv(v, s, d, e, ANY, b => Accept(b));
      case ServerReply(e) => LostSend(s, d, e, s.pc[e].m.source, s.pc[e].m.(source := e), b => InReply(s.pc[e].m, b));
      case _ =>
    }
  }

  lemma {:induction false} LostForever(v: Variant, s: Sys, d: int, acts: seq<Action>)
    requires Lost(s, d)
    ensures Lost(Exec(v, s, acts), d)
    decreases |acts|
  {
    if acts != [] {
      if Enabled(s, acts[0]) {
        LostStep(v, s, d, acts[0]);
        LostForever(v, Next(v, s, acts[0]), d, acts[1..]);
      } else {
        LostForever(v, s, d, acts[1..]);
      }
    }
  }

  /** Server `d` sleeps on after the actions. */
  ghost predicate SleepsAfter(v: Variant, s: Sys, d: int, acts: seq<Action>) {
    var r := Exec(v, s, acts);
    Shape(r) && IsSlot(d) && r.t[d].state == SLEEPING
  }

  /** What the server is put to sleep on by the receive as written: what its reply was to put the user to sleep on. */
  lemma LostChannel(s: Sys, u: int)
    requires Inv(s) && Enabled(s, UserRecv(u)) && TakesFrom(s, u, s.pc[u].dest)
    ensures var d, w := s.pc[u].dest, s.t[s.pc[u].dest].mbuf.p1;
      IsServer(d) && if d == TASK_MM then w.ProcAt? else w.ReadOpen? || w.WriteOpen? || w.Tty?
  {
    var d := s.pc[u].dest;
    UserIs(s, u);
    var m := s.pc[d].m;
    assert Pending(s.t[d], s.pc[d], m);
    assert MaySleep(s, m.source, m.p1);
  }

  /**
   The server that the receive as written puts to sleep stays asleep in every continuation if and only if
   it is not the terminal that it sleeps on: MM always, FS on either end of a pipe. From the terminal the
   next key wakes it.
   */
  lemma LostExactly(s: Sys, u: int)
    requires Inv(s) && Enabled(s, UserRecv(u)) && TakesFrom(s, u, s.pc[u].dest)
    ensures var d, s' := s.pc[u].dest, UserReceives(AsWritten, s, u);
      (forall acts :: SleepsAfter(AsWritten, s', d, acts)) <==> s.t[d].mbuf.p1 != Tty
  {
    LostChannel(s, u);
    SleepingServer(s, u);
    var d, s' := s.pc[u].dest, UserReceives(AsWritten, s, u);
    if s.t[d].mbuf.p1 != Tty {
      forall acts ensures SleepsAfter(AsWritten, s', d, acts) {
        LostForever(AsWritten, s', d, acts);
      }
    } else {
      KeyWakes(s', d);
    }
  }

  lemma KeyWakes(s: Sys, d: int)
    requires Shape(s) && IsSlot(d) && s.t[d].state == SLEEPING && s.t[d].tmp == Tty
    ensures !SleepsAfter(AsWritten, s, d, [KbdIntr])
  {
    assert [KbdIntr][1..] == [];
    assert Exec(AsWritten, s, [KbdIntr]) == Exec(AsWritten, Next(AsWritten, s, KbdIntr), []);
  }

  // A run that gets lost

  /** INIT calls wait and is preempted between its send and its receive. */
  const LostRun: seq<Action> :=
    [ServerRecv(TASK_MM), UserSend(INIT, TASK_MM, MSG_WAIT, 0, 0), ServerGot(TASK_MM), MmWait, ServerReply(TASK_MM),
      UserRecv(INIT)]

  /** MM is serving INIT's wait request and nothing else has moved since boot. */
  ghost predicate Serving(s: Sys) {
    && Shape(s)
    && (forall p :: IsSlot(p) ==> s.t[p].state != ZOMBIE && s.t[p].state != SENDING && s.t[p].state != RECVING)
    && Runs(s, INIT) && s.pc[INIT] == InSend(TASK_MM, false)
    && Runs(s, TASK_MM) && s.pc[TASK_MM].Serve?
    && s.pc[TASK_MM].m.source == INIT && s.pc[TASK_MM].m.typ == MSG_WAIT && s.pc[TASK_MM].m.i2 == 0
  }

  /** MM is the only process that waits, for anyone, and INIT is about to make a call. */
  ghost predicate Listening(s: Sys) {
    && Shape(s) && (forall p :: IsSlot(p) ==> s.t[p].state != ZOMBIE && s.t[p].state != SENDING)
    && (forall p :: IsSlot(p) && p != TASK_MM ==> s.t[p].state != RECVING)
    && Runs(s, INIT) && s.pc[INIT] == User
    && s.t[TASK_MM].state == RECVING && s.t[TASK_MM].recvfrom == ANY && s.pc[TASK_MM] == Accept(true)
  }

  /** MM has been handed INIT's wait request. */
  ghost predicate Asked(s: Sys) {
    && Shape(s)
    && (forall p :: IsSlot(p) ==> s.t[p].state != ZOMBIE && s.t[p].state != SENDING && s.t[p].state != RECVING)
    && Runs(s, INIT) && s.pc[INIT] == InSend(TASK_MM, false) && Runs(s, TASK_MM) && s.pc[TASK_MM] == Accept(true)
    && s.t[TASK_MM].mbuf.source == INIT && s.t[TASK_MM].mbuf.typ == MSG_WAIT && s.t[TASK_MM].mbuf.i2 == 0
  }

  lemma MmListens(s: Sys)
    requires Boot(s)
    ensures Shape(s) && Enabled(s, LostRun[0]) && Listening(Next(AsWritten, s, LostRun[0]))
  {
    assert Next(AsWritten, s, LostRun[0]).t == WaitingTable(s.t, TASK_MM, ANY);
  }

  lemma InitAsks(s: Sys)
    requires Listening(s)
    ensures Enabled(s, LostRun[1]) && Asked(Next(AsWritten, s, LostRun[1]))
  {
    HitsStep(SendEdges(s.t), TASK_MM, INIT);
  }

  lemma LostBeginning(s: Sys)
    requires Boot(s)
    ensures Shape(s) && Enabled(s, LostRun[0])
    ensures var s1 := Next(AsWritten, s, LostRun[0]); Shape(s1) && Enabled(s1, LostRun[1])
    ensures var s2 := Next(AsWritten, Next(AsWritten, s, LostRun[0]), LostRun[1]); Shape(s2) && Enabled(s2, LostRun[2])
    ensures Serving(Next(AsWritten, Next(AsWritten, Next(AsWritten, s, LostRun[0]), LostRun[1]), LostRun[2]))
  {
    MmListens(s);
    InitAsks(Next(AsWritten, s, LostRun[0]));
    MmTakesUp(Next(AsWritten, Next(AsWritten, s, LostRun[0]), LostRun[1]));
    hide Enabled, Next, Serving, Boot;
  }

  lemma MmTakesUp(s: Sys)
    requires Asked(s)
    ensures Enabled(s, LostRun[2]) && Serving(Next(AsWritten, s, LostRun[2]))
  {
  }

  lemma LostRunBegins(s: Sys)
    requires Boot(s)
    ensures Serving(Exec(AsWritten, s, LostRun[..3]))
  {
    hide Next, Enabled, Serving, Boot, Shape, Exec;
    LostBeginning(s);
    assert LostRun[..3] == [LostRun[0], LostRun[1], LostRun[2]];
    ExecThree(AsWritten, s, LostRun[..3]);
  }

  lemma ExecThree(v: Variant, s: Sys, acts: seq<Action>)
    requires |acts| == 3 && Shape(s) && Enabled(s, acts[0])
    requires Shape(Next(v, s, acts[0])) && Enabled(Next(v, s, acts[0]), acts[1])
    requires Shape(Next(v, Next(v, s, acts[0]), acts[1])) && Enabled(Next(v, Next(v, s, acts[0]), acts[1]), acts[2])
    ensures Exec(v, s, acts) == Next(v, Next(v, Next(v, s, acts[0]), acts[1]), acts[2])
  {
    var s1 := Next(v, s, acts[0]);
    var s2 := Next(v, s1, acts[1]);
    assert acts[1..][1..] == acts[2..] && acts[2..][1..] == [];
    assert Exec(v, s1, acts[1..]) == Exec(v, s2, acts[2..]);
    assert Exec(v, s2, acts[2..]) == Exec(v, Next(v, s2, acts[2]), []);
  }

  lemma LostReceive(s: Sys)
    requires Shape(s) && Runs(s, INIT) && s.pc[INIT] == InSend(TASK_MM, false) && Offering(s.t, TASK_MM, INIT)
    requires s.t[TASK_MM].mbuf.typ == MSG_BESLEEP && s.t[TASK_MM].mbuf.p1 == ProcAt(INIT)
    ensures Enabled(s, UserRecv(INIT)) && Lost(Next(AsWritten, s, UserRecv(INIT)), TASK_MM)
  {
    HitsStep(RecvEdges(s.t), TASK_MM, INIT);
  }

  lemma LostEnding(s: Sys)
    requires Serving(s)
    ensures Shape(s) && Enabled(s, LostRun[3])
    ensures var s4 := Next(AsWritten, s, LostRun[3]); Shape(s4) && Enabled(s4, LostRun[4])
    ensures var s5 := Next(AsWritten, Next(AsWritten, s, LostRun[3]), LostRun[4]); Shape(s5) && Enabled(s5, LostRun[5])
    ensures Lost(Next(AsWritten, Next(AsWritten, Next(AsWritten, s, LostRun[3]), LostRun[4]), LostRun[5]), TASK_MM)
  {
    hide Lost;
    var s4 := Next(AsWritten, s, LostRun[3]);
    var m := s4.pc[TASK_MM].m;
    assert m.typ == MSG_BESLEEP && m.p1 == ProcAt(INIT) && s4.t == s.t;
    HitsStep(SendEdges(s4.t), INIT, TASK_MM);
    var s5 := Next(AsWritten, s4, LostRun[4]);
    assert s5.t == s4.t[TASK_MM := s4.t[TASK_MM].(state := SENDING, mbuf := m.(source := TASK_MM), sendto := INIT,
      msgstate := -1)];
    LostReceive(s5);
  }

  lemma LostRunEnds(s: Sys)
    requires Serving(s)
    ensures Lost(Exec(AsWritten, s, LostRun[3..]), TASK_MM)
  {
    hide Next, Enabled, Serving, Lost, Shape, Exec;
    LostEnding(s);
    assert LostRun[3..] == [LostRun[3], LostRun[4], LostRun[5]];
    ExecThree(AsWritten, s, LostRun[3..]);
  }

  /**
   As written, from every boot state this run leaves MM asleep for good: whatever
   happens afterwards, no fork, exit or wait is served again.
   */
  lemma AsWrittenGetsLost(s: Sys, acts: seq<Action>)
    requires Boot(s)
    ensures Lost(Exec(AsWritten, s, LostRun + acts), TASK_MM)
  {
    LostRunBegins(s);
    LostRunEnds(Exec(AsWritten, s, LostRun[..3]));
    ExecAppend(AsWritten, s, LostRun[..3], LostRun[3..]);
    assert LostRun == LostRun[..3] + LostRun[3..];
    ExecAppend(AsWritten, s, LostRun, acts);
    LostForever(AsWritten, Exec(AsWritten, s, LostRun), TASK_MM, acts);
  }

  lemma {:induction false} ExecAppend(v: Variant, s: Sys, a: seq<Action>, b: seq<Action>)
    ensures Exec(v, s, a + b) == Exec(v, Exec(v, s, a), b)
    decreases |a|
  {
    if a == [] {
      assert a + b == b;
    } else {
      assert (a + b)[1..] == a[1..] + b;
      if Shape(s) && Enabled(s, a[0]) {
        ExecAppend(v, Next(v, s, a[0]), a[1..], b);
      } else {
        ExecAppend(v, s, a[1..], b);
      }
    }
  }

  // What clients can rely on

  /** A process about to return from a call holds the answer to its own last request, from the server it asked. */
  lemma ReplyAnswersRequest(s: Sys, u: int)
    requires CallsOk(s) && IsUser(u) && Runs(s, u) && s.pc[u].InRecv?
    ensures var m, q := s.t[u].mbuf, s.req[u];
      && m.tag == q.tag && m.source == s.pc[u].dest && q.typ != MSG_EXIT
      && (m.typ == MSG_SYSRET || (m.typ == MSG_BESLEEP && MayRetry(q.typ)))
  {
    UserIs(s, u);
  }

  /** wait takes a dead child of the caller that no wait has returned before; its code is the one in `exited`. */
  lemma WaitReaps(s: Sys)
    requires Inv(s) && MmServes(s, MSG_WAIT)
    ensures var m := s.pc[TASK_MM].m; var z := FirstZombie(s.t, m.source, 0); var r := Wait(s);
      if z == NPROC then
        && r.reaped == s.reaped
        && forall u :: IsUser(u) && s.t[u].state == ZOMBIE ==> s.t[u].parent != m.source
      else
        && IsUser(z) && s.t[z].parent == m.source && s.t[z].pid !in s.reaped && s.t[z].pid in s.exited
        && r.reaped == s.reaped[s.t[z].pid := s.exited[s.t[z].pid]]
        && r.pc[TASK_MM].m.i1 == s.t[z].pid && r.pc[TASK_MM].m.i2 == s.exited[s.t[z].pid]
  {
  }

  lemma MmReapsNot(v: Variant, s: Sys, a: Action)
    requires Shape(s) && Enabled(s, a)
    requires a.MmForkAlloc? || a.MmForkCopy? || a.MmForkDone? || a.MmExitMark? || a.MmReparent?
             || a.MmZombie? || a.MmWakeParent? || a.MmCall? || a.MmCallWait? || a.MmOther?
    ensures Next(v, s, a).reaped == s.reaped
  {
    hide SendStep, RecvStep, Woken, Reparented, FirstUnused, FirstZombie, TableOk, Wait, Enabled, Shape;
    hide UserSends, UserReceives, UserReturns, ServerGets, ServerReplies, PipeClose, PipeRead, PipeWrite;
  }

  lemma OnlyWaitReaps(v: Variant, s: Sys, a: Action)
    requires Shape(s) && Enabled(s, a) && !a.MmWait?
    ensures Next(v, s, a).reaped == s.reaped
  {
    if a.MmForkAlloc? || a.MmForkCopy? || a.MmForkDone? || a.MmExitMark? || a.MmReparent?
       || a.MmZombie? || a.MmWakeParent? || a.MmCall? || a.MmCallWait? || a.MmOther? {
      MmReapsNot(v, s, a);
    } else {
      hide SendStep, RecvStep, Woken, TableOk, Enabled, Shape;
      hide ForkAlloc, ForkCopy, ForkDone, ExitMark, Call, CallWait, Reparent, Bury, NotifyParent, Wait;
    }
  }

  lemma ReapedStep(s: Sys, a: Action)
    requires Inv(s) && Enabled(s, a)
    ensures forall i ::
      i in s.reaped ==> i in Next(Intended, s, a).reaped && Next(Intended, s, a).reaped[i] == s.reaped[i]
  {
    hide UsersOk, ServersOk, TasksOk, Wait, WorldOk, TableOk;
    if a.MmWait? {
      WaitReaps(s);
    } else {
      OnlyWaitReaps(Intended, s, a);
    }
  }

  /** What wait has returned it never returns again differently: `reaped` only grows. */
  lemma {:induction false} ReapedStays(s: Sys, acts: seq<Action>)
    requires Inv(s)
    ensures forall i :: i in s.reaped ==>
      i in Exec(Intended, s, acts).reaped && Exec(Intended, s, acts).reaped[i] == s.reaped[i]
    decreases |acts|
  {
    if acts != [] {
      if Enabled(s, acts[0]) {
        StepKeeps(s, acts[0]);
        ReapedStep(s, acts[0]);
        ReapedStays(Next(Intended, s, acts[0]), acts[1..]);
      } else {
        ReapedStays(s, acts[1..]);
      }
    }
  }

  /** The ancestors of a process, up to `n` of them. */
  function Ancestor(t: Table, u: int, n: nat): int
    requires |t| == NPROC
    decreases n
  {
    if n == 0 || !IsUser(u) then u else Ancestor(t, t[u].parent, n - 1)
  }

  /** `n` generations up from `u` is INIT, and those between are alive. */
  ghost predicate LineTo(t: Table, u: int, n: nat)
    requires |t| == NPROC
  {
    && Ancestor(t, u, n) == INIT
    && forall k :: 0 < k < n ==> IsUser(Ancestor(t, u, k)) && Live(t[Ancestor(t, u, k)])
  }

  /** The forest is one tree: every settled process descends from INIT, alive or dead, through live ancestors. */
  lemma {:induction false} DescendsFromInit(s: Sys, u: int)
    requires Inv(s) && (Settled(s, u) || u == INIT)
    ensures exists n: nat :: LineTo(s.t, u, n)
    decreases s.t[u].pid
  {
    if u == INIT {
      assert LineTo(s.t, u, 0);
    } else {
      assert ParentOk(s, u);
      var p := s.t[u].parent;
      assert p == INIT || Settled(s, p);
      DescendsFromInit(s, p);
      var n: nat :| LineTo(s.t, p, n);
      if p == INIT {
        assert Ancestor(s.t, p, 0) == INIT && LineTo(s.t, u, 1);
      } else {
        OneFurther(s.t, u, n);
      }
    }
  }

  lemma OneFurther(t: Table, u: int, n: nat)
    requires |t| == NPROC && IsUser(u) && IsUser(t[u].parent) && Live(t[t[u].parent]) && LineTo(t, t[u].parent, n)
    ensures LineTo(t, u, n + 1)
  {
    var p := t[u].parent;
    forall k: nat | k <= n ensures Ancestor(t, u, k + 1) == Ancestor(t, p, k) {}
    forall k | 0 < k < n + 1 ensures IsUser(Ancestor(t, u, k)) && Live(t[Ancestor(t, u, k)]) {
      assert Ancestor(t, u, (k - 1) + 1) == Ancestor(t, p, k - 1);
      if k == 1 { assert Ancestor(t, p, 0) == p; }
    }
  }

  /** Every settled process has a live parent. */
  ghost predicate ParentsLive(s: Sys)
    requires Shape(s)
  {
    forall u :: Settled(s, u) ==> IsUser(s.t[u].parent) && Live(s.t[s.t[u].parent])
  }

  /** That is so if and only if INIT is alive or has no children, */
  lemma ParentsLiveExactly(s: Sys)
    requires Inv(s)
    ensures ParentsLive(s) <==> Live(s.t[INIT]) || forall u :: Settled(s, u) ==> s.t[u].parent != INIT
  {
    assert Shape(s);
    hide CallsOk, PidsOk, ExitsOk, PipesOk, SleepersOk, PendingOk;
    forall u | Settled(s, u) ensures ParentOk(s, u) {}
  }

  /** and INIT is alive as long as it has not asked for its exit. */
  lemma InitLives(s: Sys)
    requires Inv(s) && s.req[INIT].typ != MSG_EXIT
    ensures Live(s.t[INIT]) && ParentsLive(s)
  {
    UserIs(s, INIT);
    assert PidsOk(s) && ForestOk(s);
    forall u | Settled(s, u) ensures ParentOk(s, u) {}
  }

  /**
   Nobody sleeps through its event: a process asleep in wait has no dead child unless
   MM is just about to wake it; one asleep on a pipe finds it empty with a writer, or
   full with a reader.
   */
  lemma NoLostWakeup(s: Sys, acts: seq<Action>, u: int)
    requires Boot(s) && IsUser(u)
    ensures var r := Exec(Intended, s, acts);
      && Shape(r)
      && (r.t[u].state == SLEEPING ==>
            match r.t[u].tmp
            case ProcAt(x) => x == u && forall z :: IsUser(z) && r.t[z].state == ZOMBIE && r.t[z].parent == u ==>
                                                  r.pc[TASK_MM] == WakeParent(z)
            case ReadOpen(k) => k in r.pipes && r.pipes[k].count == 0 && r.pipes[k].writeopen
            case WriteOpen(k) => k in r.pipes && r.pipes[k].count == Pipes.PIPESIZE && r.pipes[k].readopen
            case Tty => true
            case _ => false)
  {
    BootOk(s);
    RunKeeps(s, acts);
    var r := Exec(Intended, s, acts);
    assert r.t[u].state == SLEEPING ==> MaySleep(r, u, r.t[u].tmp);
  }

  /** In every state of the protocol the wait chains are short and end. */
  lemma ChainsEnd(s: Sys)
    requires CallsOk(s)
    ensures Acyclic(SendEdges(s.t)) && Acyclic(RecvEdges(s.t))
  {
    hide UsersOk;
    forall p | IsSlot(p)
      ensures Terminates(SendEdges(s.t), p) && Terminates(RecvEdges(s.t), p)
    {
      if IsUser(p) {
        UserIs(s, p);
      }
      ServerChainsEnd(s, TASK_MM);
      ServerChainsEnd(s, TASK_FS);
      assert Ends(SendEdges(s.t), p, 3) && Ends(RecvEdges(s.t), p, 2);
    }
  }

  lemma ServerChainsEnd(s: Sys, d: int)
    requires CallsOk(s) && IsServer(d)
    ensures Ends(SendEdges(s.t), d, 2) && Ends(RecvEdges(s.t), d, 1)
    ensures d == TASK_FS ==> Ends(SendEdges(s.t), d, 1) && Ends(RecvEdges(s.t), d, 0)
    decreases d == TASK_MM
  {
    hide UsersOk;
    var c := Client(s, d);
    if IsUser(c) {
      UserIs(s, c);
    }
    if d == TASK_MM {
      ServerChainsEnd(s, TASK_FS);
    }
  }
}
