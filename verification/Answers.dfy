/**
 What the answers to fork, exit and wait mean, stated on the table and on what the processes asked for: who is dead
 carries the code it gave to exit; fork answers its caller with the pid of the child it has just made; wait answers
 with the pid and the code of a dead child of its caller; FS is told of the right two processes; and what a process
 holds when its call returns is what its server made up as the answer to that call. All this is about the receive
 as it is meant, as in ServerProtocol.
 */
module Answers {
  import opened ProcTable
  import opened Ipc
  import opened WaitGraph
  import opened Protocol
  import opened ProtocolInv
  import opened ProtocolWorld
  import opened ServerProtocol
  import Pipes

  // What holds in every state

  /** Who is dead has asked for its exit, and carries the code it asked with. */
  ghost predicate CodesOk(s: Sys)
    requires Shape(s)
  {
    forall u :: IsUser(u) && s.t[u].state == ZOMBIE ==>
      s.req[u].typ == MSG_EXIT && s.t[u].msgstate == s.req[u].i1
  }

  /** Process `ch` is the one made last, by `c`. */
  predicate MadeBy(s: Sys, ch: int, c: int)
    requires Shape(s)
  {
    IsUser(ch) && s.t[ch].state != UNUSED && s.t[ch].pid + 1 == s.nextpid && s.t[ch].parent == c
  }

  /** While MM calls FS about a fork, the child is the process made last, and has its parent's priority and time. */
  ghost predicate ChildOk(s: Sys)
    requires Shape(s)
  {
    var pc := s.pc[TASK_MM];
    (pc.Calling? || pc.CallSend? || pc.CallRecv?) && pc.call.ForkFiles? ==>
      && IsUser(pc.m.source) && MadeBy(s, pc.call.child, pc.m.source)
      && s.t[pc.call.child].priority == s.t[pc.m.source].priority
      && s.t[pc.call.child].counter == s.t[pc.m.source].counter
  }

  /** What MM asks of FS: fork with the parent first and the child second, or exit with the process. */
  predicate CallOk(pc: Pc, q: Msg) {
    pc.CallSend? || pc.CallRecv? ==>
      match pc.call
      case ForkFiles(ch) => q.typ == MSG_FORK && q.p1 == ProcAt(pc.m.source) && q.p2 == ProcAt(ch)
      case ExitFiles => q.typ == MSG_EXIT && q.p1 == ProcAt(pc.m.source)
  }

  /** `z` was a dead child of `c`; its slot is free again, and `code` is what it gave to exit. */
  predicate ReapedFrom(s: Sys, z: int, c: int, pid: int, code: int)
    requires Shape(s)
  {
    && IsUser(z) && s.t[z].state == UNUSED && s.t[z].parent == c && s.t[z].pid == pid
    && s.req[z].typ == MSG_EXIT && s.req[z].i1 == code
  }

  ghost predicate NoDeadChild(s: Sys, c: int)
    requires Shape(s)
  {
    forall z :: IsUser(z) && s.t[z].state == ZOMBIE ==> s.t[z].parent != c
  }

  /** The answer `m` that MM is about to give. */
  ghost predicate AnswerOk(s: Sys, m: Msg)
    requires Shape(s)
  {
    IsUser(m.source) ==>
      match s.req[m.source].typ
      case MSG_FORK =>
        m.typ == MSG_SYSRET && (m.i1 == -1 || exists ch :: MadeBy(s, ch, m.source) && s.t[ch].pid == m.i1)
      case MSG_WAIT =>
        || (m.typ == MSG_SYSRET && exists z :: ReapedFrom(s, z, m.source, m.i1, m.i2))
        || (NoDeadChild(s, m.source)
            && if s.req[m.source].i2 != 0 then m.typ == MSG_SYSRET && m.i1 == -1 else m.typ == MSG_BESLEEP)
      case _ => true
  }

  ghost predicate MmAnswerOk(s: Sys)
    requires Shape(s)
  {
    s.pc[TASK_MM].Reply? ==> AnswerOk(s, s.pc[TASK_MM].m)
  }

  ghost predicate DealsOk(s: Sys)
    requires Shape(s)
  {
    CodesOk(s) && ChildOk(s) && CallOk(s.pc[TASK_MM], s.req[TASK_MM]) && MmAnswerOk(s)
  }

  // Steps that leave the processes what they are

  predicate SameSelf(p: Proc, q: Proc) {
    && q.pid == p.pid && q.parent == p.parent && q.priority == p.priority && q.counter == p.counter
    && (q.state == UNUSED <==> p.state == UNUSED) && (q.state == ZOMBIE <==> p.state == ZOMBIE)
    && (q.state == ZOMBIE ==> q.msgstate == p.msgstate)
  }

  /** Nobody is made, adopted, dead or reaped, and only who is outside any call asks for something. */
  ghost predicate Calm(s: Sys, s': Sys) {
    && Shape(s) && Shape(s') && s'.nextpid == s.nextpid
    && (forall u :: IsUser(u) ==> SameSelf(s.t[u], s'.t[u]))
    && (forall u :: IsUser(u) && s'.req[u] != s.req[u] ==> Runs(s, u) && s.pc[u] == User)
  }

  lemma CalmCodes(s: Sys, s': Sys)
    requires Calm(s, s') && CodesOk(s)
    ensures CodesOk(s')
  {
    forall u | IsUser(u) ensures SameSelf(s.t[u], s'.t[u]) {}
  }

  /** A client of MM asks for nothing else meanwhile. */
  lemma ClientKeepsRequest(s: Sys, s': Sys, c: int)
    requires CallsOk(s) && Calm(s, s') && IsUser(c) && Client(s, TASK_MM) == c
    ensures s'.req[c] == s.req[c]
  {
    hide UsersOk;
    UserIs(s, c);
  }

  lemma CalmChild(s: Sys, s': Sys)
    requires Calm(s, s') && ChildOk(s) && s'.pc[TASK_MM] == s.pc[TASK_MM]
    ensures ChildOk(s')
  {
  }

  lemma CalmAnswer(s: Sys, s': Sys, m: Msg)
    requires Calm(s, s') && AnswerOk(s, m) && (IsUser(m.source) ==> s'.req[m.source] == s.req[m.source])
    requires forall z :: IsUser(z) && s.t[z].state == UNUSED ==> s'.req[z] == s.req[z]
    ensures AnswerOk(s', m)
  {
    forall u | IsUser(u) ensures SameSelf(s.t[u], s'.t[u]) {}
    if IsUser(m.source) {
      match s.req[m.source].typ
      case MSG_FORK =>
        if m.i1 != -1 {
          var ch :| MadeBy(s, ch, m.source) && s.t[ch].pid == m.i1;
          assert MadeBy(s', ch, m.source);
        }
      case MSG_WAIT =>
        if m.typ == MSG_SYSRET && exists z :: ReapedFrom(s, z, m.source, m.i1, m.i2) {
          var z :| ReapedFrom(s, z, m.source, m.i1, m.i2);
          assert ReapedFrom(s', z, m.source, m.i1, m.i2);
        } else {
          assert NoDeadChild(s', m.source);
        }
      case _ =>
    }
  }

  /** MM stays where it is. */
  lemma CalmKeeps(s: Sys, s': Sys)
    requires CallsOk(s) && DealsOk(s) && Calm(s, s')
    requires s'.pc[TASK_MM] == s.pc[TASK_MM] && s'.req[TASK_MM] == s.req[TASK_MM]
    ensures DealsOk(s')
  {
    hide CallsOk, CodesOk, ChildOk, CallOk, AnswerOk, SameSelf;
    CalmCodes(s, s');
    CalmChild(s, s');
    if s.pc[TASK_MM].Reply? {
      var c := s.pc[TASK_MM].m.source;
      if IsUser(c) { ClientKeepsRequest(s, s', c); }
      CalmAnswer(s, s', s.pc[TASK_MM].m);
    }
  }

  /** MM comes to a place where it has nothing to do with a child, FS or an answer. */
  lemma CalmLeaves(s': Sys)
    requires Shape(s') && CodesOk(s')
    requires !s'.pc[TASK_MM].Reply? && !s'.pc[TASK_MM].CallSend? && !s'.pc[TASK_MM].CallRecv?
    requires s'.pc[TASK_MM].Calling? ==> s'.pc[TASK_MM].call == ExitFiles
    ensures DealsOk(s')
  {
  }

  // The actions

  lemma UserSendCalm(s: Sys, s': Sys, u: int, dest: int, m: Msg)
    requires Shape(s) && Shape(s') && UserSent(s, s', u, dest, m) && IsServer(dest) && s'.nextpid == s.nextpid
    ensures Calm(s, s')
  {
    forall w | IsUser(w) ensures SameSelf(s.t[w], s'.t[w]) {}
  }

  lemma UserGotCalm(s: Sys, s': Sys, u: int)
    requires Shape(s) && Shape(s') && UserGot(s, s', u) && s'.nextpid == s.nextpid
    ensures Calm(s, s')
  {
    forall w | IsUser(w) ensures SameSelf(s.t[w], s'.t[w]) {}
  }

  lemma ServerGotCalm(s: Sys, s': Sys, d: int, p: int)
    requires Shape(s) && Shape(s') && ServerGotRequest(s, s', d, p) && s'.nextpid == s.nextpid
    ensures Calm(s, s')
  {
    forall w | IsUser(w) ensures SameSelf(s.t[w], s'.t[w]) {}
  }

  lemma RepliedCalm(s: Sys, s': Sys, d: int)
    requires Shape(s) && Shape(s') && Replied(s, s', d) && s'.nextpid == s.nextpid
    ensures Calm(s, s')
  {
    forall w | IsUser(w) ensures SameSelf(s.t[w], s'.t[w]) {}
  }

  lemma CalledCalm(s: Sys, s': Sys, m: Msg)
    requires Shape(s) && Shape(s') && Called(s, s', m) && s'.nextpid == s.nextpid
    ensures Calm(s, s')
  {
    forall w | IsUser(w) ensures SameSelf(s.t[w], s'.t[w]) {}
  }

  lemma CallAnsweredCalm(s: Sys, s': Sys)
    requires Shape(s) && Shape(s') && CallAnswered(s, s') && s'.nextpid == s.nextpid
    ensures Calm(s, s')
  {
    forall w | IsUser(w) ensures SameSelf(s.t[w], s'.t[w]) {}
  }

  lemma WokenCalm(s: Sys, s': Sys, w: Ptr)
    requires Shape(s) && Shape(s') && s'.t == Woken(s.t, w) && s'.req == s.req && s'.nextpid == s.nextpid
    ensures Calm(s, s')
  {
    forall w | IsUser(w) ensures SameSelf(s.t[w], s'.t[w]) {}
  }

  lemma SameTableCalm(s: Sys, s': Sys)
    requires Shape(s) && Shape(s') && s'.t == s.t && s'.req == s.req && s'.nextpid == s.nextpid
    ensures Calm(s, s')
  {
    forall w | IsUser(w) ensures SameSelf(s.t[w], s'.t[w]) {}
  }

  lemma OneEntryCalm(s: Sys, s': Sys, x: int)
    requires Shape(s) && Shape(s') && IsSlot(x) && s'.t == s.t[x := s'.t[x]] && SameSelf(s.t[x], s'.t[x])
    requires s'.req == s.req && s'.nextpid == s.nextpid
    ensures Calm(s, s')
  {
    forall w | IsUser(w) ensures SameSelf(s.t[w], s'.t[w]) {}
  }

  lemma UserSendDeals(s: Sys, s': Sys, u: int, dest: int, m: Msg)
    requires CallsOk(s) && DealsOk(s) && IsUser(u) && Runs(s, u) && s.pc[u] == User
    requires m.source == u && Addressed(m, dest) && s' == UserSends(s, u, dest, m) && Shape(s')
    ensures DealsOk(s')
  {
    hide UsersOk, ServersOk, TasksOk, DealsOk, UserSent, Addressed, Calm;
    UserSendIs(s, u, dest, m);
    UserSentPlace(s, s', u, dest, m);
    UserSendCalm(s, s', u, dest, m);
    CalmKeeps(s, s');
  }

  lemma UserSentPlace(s: Sys, s': Sys, u: int, dest: int, m: Msg)
    requires Shape(s) && UserSent(s, s', u, dest, m)
    ensures |s'.pc| == |s'.req| == NPROC && s'.pc[TASK_MM] == s.pc[TASK_MM] && s'.req[TASK_MM] == s.req[TASK_MM]
    ensures IsServer(dest)
  {
  }

  lemma UserRecvDeals(s: Sys, s': Sys, u: int)
    requires CallsOk(s) && DealsOk(s) && IsUser(u) && Runs(s, u) && s.pc[u].InSend? && IsServer(s.pc[u].dest)
    requires s' == UserReceives(Intended, s, u) && Shape(s')
    ensures DealsOk(s')
  {
    hide UsersOk, ServersOk, TasksOk, DealsOk, Calm;
    UserRecvIs(s, u);
    UserGotCalm(s, s', u);
    hide UserGot;
    CalmKeeps(s, s');
  }

  lemma ServerRecvDeals(s: Sys, s': Sys, d: int)
    requires CallsOk(s) && DealsOk(s) && Enabled(s, ServerRecv(d))
    requires s' == Receiving(Intended, s, d, ANY, b => Accept(b)) && Shape(s')
    ensures DealsOk(s')
  {
    hide UsersOk, ServersOk, TasksOk, DealsOk, Calm;
    if d == TASK_SYS {
      SysRecvIs(s);
      OneEntryCalm(s, s', d);
      CalmKeeps(s, s');
    } else {
      ServerRecvIs(s, d);
      ServerGotCalm(s, s', d, SenderOf(s.t, d, ANY));
      hide ServerGotRequest;
      ServerMoves(s, s', d);
    }
  }

  /** A server moves on, without an answer. */
  lemma ServerMoves(s: Sys, s': Sys, d: int)
    requires CallsOk(s) && DealsOk(s) && Calm(s, s') && IsServer(d) && s'.req == s.req
    requires s'.pc == s.pc[d := s'.pc[d]] && (s'.pc[d].Accept? || s'.pc[d].Serve? || s'.pc[d].InReply? || s'.pc[d].Top?)
    ensures DealsOk(s')
  {
    if d == TASK_MM {
      CalmCodes(s, s');
      CalmLeaves(s');
    } else {
      hide UsersOk, ServersOk, TasksOk, DealsOk, Calm;
      CalmKeeps(s, s');
    }
  }

  lemma ServerReplyDeals(s: Sys, s': Sys, d: int)
    requires CallsOk(s) && DealsOk(s) && IsServer(d) && Runs(s, d) && s.pc[d].Reply?
    requires IsSlot(s.pc[d].m.source) && s' == ServerReplies(s, d) && Shape(s')
    ensures DealsOk(s')
  {
    hide UsersOk, ServersOk, TasksOk, DealsOk, Calm;
    ReplyIs(s, d);
    RepliedCalm(s, s', d);
    ServerMoves(s, s', d);
  }

  /** MM comes to an answer, or to a place where nothing more is said of it. */
  lemma MmAnswers(s': Sys)
    requires Shape(s') && CodesOk(s') && s'.pc[TASK_MM].Reply? && AnswerOk(s', s'.pc[TASK_MM].m)
    ensures DealsOk(s')
  {
  }

  /** Nobody dies. */
  lemma OneEntryCodes(s: Sys, s': Sys, x: int)
    requires Shape(s) && Shape(s') && CodesOk(s) && s'.req == s.req
    requires IsSlot(x) && s'.t == s.t[x := s'.t[x]] && s'.t[x].state != ZOMBIE
    ensures CodesOk(s')
  {
  }

  lemma SameTableCodes(s: Sys, s': Sys)
    requires Shape(s) && Shape(s') && CodesOk(s) && s'.req == s.req && s'.t == s.t
    ensures CodesOk(s')
  {
  }

  lemma ForkAllocDeals(s: Sys, s': Sys, ok: bool)
    requires Inv(s) && DealsOk(s) && MmServes(s, MSG_FORK) && s' == ForkAlloc(s, ok) && Shape(s')
    ensures DealsOk(s')
  {
    hide UsersOk, FsSideOk, MmPlaceOk, TasksOk, WorldOk;
    var ch := FirstUnused(s.t, 0);
    if ch == NPROC {
      SameTableCodes(s, s');
      MmAnswers(s');
    } else {
      OneEntryCodes(s, s', ch);
      hide CodesOk;
      if ok { CalmLeaves(s'); } else { MmAnswers(s'); }
    }
  }

  lemma ForkCopyDeals(s: Sys, s': Sys, ok: bool)
    requires Inv(s) && DealsOk(s) && Enabled(s, MmForkCopy(ok)) && s' == ForkCopy(s, ok) && Shape(s')
    ensures DealsOk(s')
  {
    hide UsersOk, FsSideOk, ForestOk, ExitsOk, PipesOk, SleepersOk, PendingOk, TasksOk;
    OneEntryCodes(s, s', s.pc[TASK_MM].child);
    hide CodesOk;
    if ok {
      assert MadeBy(s', s.pc[TASK_MM].child, s.pc[TASK_MM].m.source);
    }
  }

  lemma ForkDoneDeals(s: Sys, s': Sys)
    requires Inv(s) && DealsOk(s) && Enabled(s, MmForkDone) && s' == ForkDone(s) && Shape(s')
    ensures DealsOk(s')
  {
    hide UsersOk, FsSideOk, WorldOk, TasksOk;
    OneEntryCodes(s, s', s.pc[TASK_MM].call.child);
    hide CodesOk;
    assert MadeBy(s', s.pc[TASK_MM].call.child, s.pc[TASK_MM].m.source);
    MmAnswers(s');
  }

  lemma ExitMarkDeals(s: Sys, s': Sys)
    requires Inv(s) && DealsOk(s) && MmServes(s, MSG_EXIT) && s' == ExitMark(s) && Shape(s')
    ensures DealsOk(s')
  {
    hide UsersOk, FsSideOk, WorldOk, TasksOk;
    OneEntryCodes(s, s', s.pc[TASK_MM].m.source);
    CalmLeaves(s');
  }

  lemma CallDeals(s: Sys, s': Sys)
    requires CallsOk(s) && DealsOk(s) && Enabled(s, MmCall) && s' == Call(s) && Shape(s')
    ensures DealsOk(s')
  {
    hide UsersOk, ServersOk, TasksOk;
    CallIs(s);
    CalledCalm(s, s', NestedRequest(s, s.pc[TASK_MM].m, s.pc[TASK_MM].call));
    CalmCodes(s, s');
  }

  lemma CallWaitDeals(s: Sys, s': Sys)
    requires CallsOk(s) && DealsOk(s) && Enabled(s, MmCallWait) && s' == CallWait(Intended, s) && Shape(s')
    ensures DealsOk(s')
  {
    hide UsersOk, ServersOk, TasksOk;
    CallWaitIs(s);
    CallAnsweredCalm(s, s');
    CalmCodes(s, s');
  }

  lemma ReparentDeals(s: Sys, s': Sys)
    requires CallsOk(s) && DealsOk(s) && Enabled(s, MmReparent) && s' == Reparent(s) && Shape(s')
    ensures DealsOk(s')
  {
    hide UsersOk, ServersOk, TasksOk, Reparented;
    ReparentedRouses(s.t, s.pc[TASK_MM].m.source);
    forall u | IsUser(u) && s'.t[u].state == ZOMBIE
      ensures s.t[u].state == ZOMBIE && s'.t[u].msgstate == s.t[u].msgstate {
      assert RousedProc(s.t[u], s'.t[u]);
    }
    CalmLeaves(s');
  }

  lemma BuryDeals(s: Sys, s': Sys)
    requires CallsOk(s) && DealsOk(s) && Enabled(s, MmZombie) && s' == Bury(s) && Shape(s')
    ensures DealsOk(s')
  {
    hide UsersOk, FsSideOk;
    assert CodesOk(s');
    CalmLeaves(s');
  }

  lemma NotifyDeals(s: Sys, s': Sys)
    requires CallsOk(s) && DealsOk(s) && Enabled(s, MmWakeParent) && s' == NotifyParent(s) && Shape(s')
    ensures DealsOk(s')
  {
    hide UsersOk, ServersOk, TasksOk, Woken, ParentPtr;
    WokenCalm(s, s', ParentPtr(s.t[s.pc[TASK_MM].child].parent));
    CalmCodes(s, s');
    CalmLeaves(s');
  }

  lemma WaitDeals(s: Sys, s': Sys)
    requires CallsOk(s) && DealsOk(s) && MmServes(s, MSG_WAIT) && s' == Wait(s) && Shape(s')
    ensures DealsOk(s')
  {
    TasksLive(s);
    hide UsersOk, FsSideOk, TasksOk, MmPlaceOk;
    var m := s.pc[TASK_MM].m;
    var z := FirstZombie(s.t, m.source, 0);
    if z == NPROC {
      SameTableCodes(s, s');
      assert NoDeadChild(s', m.source);
    } else {
      OneEntryCodes(s, s', z);
      assert ReapedFrom(s', z, m.source, s.t[z].pid, s.t[z].msgstate);
    }
    MmAnswers(s');
  }

  lemma MmOtherDeals(s: Sys, s': Sys, r: int)
    requires CallsOk(s) && DealsOk(s) && MmServes(s, MSG_SBRK) && s' == SetMm(s, Reply(Answer(s.pc[TASK_MM].m, r)))
    requires Shape(s')
    ensures DealsOk(s')
  {
    hide UsersOk, FsSideOk, TasksOk, MmPlaceOk;
    SameTableCodes(s, s');
    hide CodesOk;
    MmAnswers(s');
  }

  lemma MmDeals(s: Sys, a: Action)
    requires Inv(s) && DealsOk(s) && Enabled(s, a) && Shape(Next(Intended, s, a))
    requires a.MmForkAlloc? || a.MmForkCopy? || a.MmForkDone? || a.MmExitMark? || a.MmReparent?
             || a.MmZombie? || a.MmWakeParent? || a.MmWait? || a.MmOther? || a.MmCall? || a.MmCallWait?
    ensures DealsOk(Next(Intended, s, a))
  {
    hide UsersOk, ServersOk, TasksOk, DealsOk, SetMm, ForkAlloc, ForkCopy, ForkDone, ExitMark, Call, CallWait;
    hide Reparent, Bury, NotifyParent, Wait, WorldOk;
    var s' := Next(Intended, s, a);
    match a
    case MmForkAlloc(ok) => ForkAllocDeals(s, s', ok);
    case MmForkCopy(ok) => ForkCopyDeals(s, s', ok);
    case MmForkDone => ForkDoneDeals(s, s');
    case MmExitMark => ExitMarkDeals(s, s');
    case MmCall => CallDeals(s, s');
    case MmCallWait => CallWaitDeals(s, s');
    case MmReparent => ReparentDeals(s, s');
    case MmZombie => BuryDeals(s, s');
    case MmWakeParent => NotifyDeals(s, s');
    case MmWait => WaitDeals(s, s');
    case MmOther(r) => MmOtherDeals(s, s', r);
  }

  /** FS goes its way, or an interrupt comes in. */
  lemma FsCalm(s: Sys, a: Action)
    requires CallsOk(s) && Enabled(s, a) && Shape(Next(Intended, s, a))
    requires a.FsDisk? || a.FsFinish? || a.FsTtyWait? || a.FsPipeOpen? || a.FsPipeClose? || a.FsPipeRead?
             || a.FsPipeWrite? || a.DiskIntr? || a.KbdIntr?
    ensures Calm(s, Next(Intended, s, a))
  {
    hide UsersOk, ServersOk, TasksOk, Calm, Woken;
    var s' := Next(Intended, s, a);
    match a {
      case FsDisk(_) => OneEntryCalm(s, s', TASK_FS);
      case FsPipeClose(k, w) => WokenCalm(s, s', if w then ReadOpen(k) else WriteOpen(k));
      case FsPipeRead(k, n) =>
        if s'.t == s.t { SameTableCalm(s, s'); } else { WokenCalm(s, s', WriteOpen(k)); }
      case FsPipeWrite(k, n) =>
        if s'.t == s.t { SameTableCalm(s, s'); } else { WokenCalm(s, s', ReadOpen(k)); }
      case DiskIntr(b) => WokenCalm(s, s', Buf(b));
      case KbdIntr => WokenCalm(s, s', Tty);
      case _ => SameTableCalm(s, s');
    }
  }

  lemma FsDeals(s: Sys, a: Action)
    requires Inv(s) && DealsOk(s) && Enabled(s, a) && Shape(Next(Intended, s, a))
    requires a.FsDisk? || a.FsFinish? || a.FsTtyWait? || a.FsPipeOpen? || a.FsPipeClose? || a.FsPipeRead?
             || a.FsPipeWrite? || a.DiskIntr? || a.KbdIntr?
    ensures DealsOk(Next(Intended, s, a))
  {
    hide UsersOk, ServersOk, TasksOk, DealsOk, WorldOk, Calm, Woken;
    FsCalm(s, a);
    CalmKeeps(s, Next(Intended, s, a));
  }

  lemma UserDoneDeals(s: Sys, s': Sys, u: int)
    requires CallsOk(s) && DealsOk(s) && Enabled(s, UserDone(u)) && s' == UserReturns(s, u) && Shape(s')
    ensures DealsOk(s')
  {
    hide UsersOk, ServersOk, TasksOk, DealsOk, Calm;
    SameTableCalm(s, s');
    CalmKeeps(s, s');
  }

  lemma ServerGotDeals(s: Sys, s': Sys, d: int)
    requires CallsOk(s) && DealsOk(s) && Enabled(s, ServerGot(d)) && s' == ServerGets(s, d) && Shape(s')
    ensures DealsOk(s')
  {
    hide UsersOk, ServersOk, TasksOk, DealsOk, Calm;
    SameTableCalm(s, s');
    ServerMoves(s, s', d);
  }

  lemma ServerLoopDeals(s: Sys, s': Sys, d: int)
    requires CallsOk(s) && DealsOk(s) && Enabled(s, ServerLoop(d)) && s' == s.(pc := s.pc[d := Top]) && Shape(s')
    ensures DealsOk(s')
  {
    hide UsersOk, ServersOk, TasksOk, DealsOk, Calm;
    SameTableCalm(s, s');
    ServerMoves(s, s', d);
  }

  /** Users call and return, servers receive and reply. */
  lemma TalkDeals(s: Sys, a: Action)
    requires Inv(s) && DealsOk(s) && Enabled(s, a) && Shape(Next(Intended, s, a))
    requires a.UserSend? || a.UserRecv? || a.UserDone? || a.ServerRecv? || a.ServerGot? || a.ServerReply?
             || a.ServerLoop?
    ensures DealsOk(Next(Intended, s, a))
  {
    hide UsersOk, ServersOk, TasksOk, WorldOk, DealsOk, MmRequest, FsRequest;
    hide UserSends, UserReceives, UserReturns, ServerGets, ServerReplies, Receiving;
    var s' := Next(Intended, s, a);
    match a
    case UserSend(u, dest, typ, i1, i2) =>
      UserSendDeals(s, s', u, dest, Request(s, u, typ, Null, Null, i1, i2));
    case UserRecv(u) => UserRecvDeals(s, s', u);
    case UserDone(u) => UserDoneDeals(s, s', u);
    case ServerRecv(d) => ServerRecvDeals(s, s', d);
    case ServerGot(d) => ServerGotDeals(s, s', d);
    case ServerReply(d) => ServerReplyDeals(s, s', d);
    case ServerLoop(d) => ServerLoopDeals(s, s', d);
  }

  lemma DealsStep(s: Sys, a: Action)
    requires Inv(s) && DealsOk(s) && Enabled(s, a)
    ensures Inv(Next(Intended, s, a)) && DealsOk(Next(Intended, s, a))
  {
    StepKeeps(s, a);
    assert Shape(Next(Intended, s, a));
    hide CallsOk, WorldOk, DealsOk, Next, Enabled;
    match a
    case UserSend(_, _, _, _, _) => TalkDeals(s, a);
    case UserRecv(_) => TalkDeals(s, a);
    case UserDone(_) => TalkDeals(s, a);
    case ServerRecv(_) => TalkDeals(s, a);
    case ServerGot(_) => TalkDeals(s, a);
    case ServerReply(_) => TalkDeals(s, a);
    case ServerLoop(_) => TalkDeals(s, a);
    case FsDisk(_) => FsDeals(s, a);
    case FsFinish(_) => FsDeals(s, a);
    case FsTtyWait => FsDeals(s, a);
    case FsPipeOpen(_) => FsDeals(s, a);
    case FsPipeClose(_, _) => FsDeals(s, a);
    case FsPipeRead(_, _) => FsDeals(s, a);
    case FsPipeWrite(_, _) => FsDeals(s, a);
    case DiskIntr(_) => FsDeals(s, a);
    case KbdIntr => FsDeals(s, a);
    case _ => MmDeals(s, a);
  }

  lemma {:induction false} DealsRun(s: Sys, acts: seq<Action>)
    requires Inv(s) && DealsOk(s)
    ensures Inv(Exec(Intended, s, acts)) && DealsOk(Exec(Intended, s, acts))
    decreases |acts|
  {
    hide UsersOk, ServersOk, TasksOk, WorldOk, DealsOk, Next;
    if acts != [] {
      if Enabled(s, acts[0]) {
        DealsStep(s, acts[0]);
        DealsRun(Next(Intended, s, acts[0]), acts[1..]);
      } else {
        DealsRun(s, acts[1..]);
      }
    }
  }

  lemma BootDeals(s: Sys)
    requires Boot(s)
    ensures Inv(s) && DealsOk(s)
  {
    BootOk(s);
  }

  // What a process holds when its call returns

  /** `u` has an answer in its buffer. */
  predicate Holding(s: Sys, u: int)
    requires Shape(s)
  {
    IsUser(u) && s.pc[u].InRecv? && (s.t[u].state == RUNNABLE || s.t[u].state == SLEEPING)
  }

  /** Server `d` has made up the answer `m`, and it has not been taken yet. */
  predicate Telling(s: Sys, d: int, m: Msg)
    requires Shape(s)
  {
    IsServer(d) && (s.pc[d] == Reply(m) || (s.pc[d].InReply? && s.pc[d].m == m && s.t[d].state == SENDING))
  }

  /** The answer that `u` holds now is the one it held before, or it comes from its server. */
  predicate HeardFrom(s: Sys, s': Sys, u: int)
    requires Shape(s) && Shape(s') && Holding(s', u)
  {
    && s'.req[u] == s.req[u]
    && ((Holding(s, u) && s'.pc[u].dest == s.pc[u].dest && s'.t[u].mbuf == s.t[u].mbuf)
        || Telling(s, s'.pc[u].dest, s'.t[u].mbuf.(source := u)))
  }

  predicate StillTells(s: Sys, s': Sys, d: int)
    requires Shape(s) && Shape(s') && IsSlot(d)
  {
    s'.pc[d].InReply? && s'.t[d].state == SENDING ==>
      Telling(s, d, s'.pc[d].m) && IsSlot(s'.pc[d].m.source)
      && s'.req[s'.pc[d].m.source] == s.req[s'.pc[d].m.source]
  }

  ghost predicate Hears(s: Sys, s': Sys) {
    && Shape(s) && Shape(s')
    && (forall u :: Holding(s', u) ==> HeardFrom(s, s', u))
    && StillTells(s, s', TASK_MM) && StillTells(s, s', TASK_FS)
  }

  lemma UserSendHears(s: Sys, s': Sys, u: int, dest: int, m: Msg)
    requires CallsOk(s) && Shape(s') && UserSent(s, s', u, dest, m) && NotClient(ViewOf(s), u)
    ensures Hears(s, s')
  {
    hide UsersOk, TasksOk;
  }

  lemma UserGotHears(s: Sys, s': Sys, u: int)
    requires CallsOk(s) && Shape(s') && UserGot(s, s', u)
    ensures Hears(s, s')
  {
    hide UsersOk, TasksOk;
  }

  lemma ServerGotHears(s: Sys, s': Sys, d: int, p: int)
    requires CallsOk(s) && Shape(s') && ServerGotRequest(s, s', d, p)
    ensures Hears(s, s')
  {
    hide UsersOk, TasksOk;
    if IsUser(p) { UserIs(s, p); }
  }

  lemma RepliedHears(s: Sys, s': Sys, d: int)
    requires CallsOk(s) && Shape(s') && Replied(s, s', d)
    requires var c := s.pc[d].m.source; IsUser(c) ==> UserOk(s.t[c], s.pc[c], s.req[c], c, ViewOf(s))
    ensures Hears(s, s')
  {
    hide UsersOk, TasksOk;
  }

  lemma CalledHears(s: Sys, s': Sys, m: Msg)
    requires CallsOk(s) && Shape(s') && Called(s, s', m)
    ensures Hears(s, s')
  {
    hide UsersOk, TasksOk;
  }

  lemma CallAnsweredHears(s: Sys, s': Sys)
    requires CallsOk(s) && Shape(s') && CallAnswered(s, s')
    ensures Hears(s, s')
  {
    hide UsersOk, TasksOk;
  }

  /** Whoever is awake with an answer, or was asleep with it, had it before; so has a server its reply. */
  lemma RousedHears(s: Sys, s': Sys)
    requires CallsOk(s) && Shape(s') && s'.req == s.req
    requires forall u :: IsUser(u) ==> s'.pc[u] == s.pc[u] || s'.pc[u] == User
    requires forall u :: Holding(s', u) && s'.pc[u] == s.pc[u] ==> RousedProc(s.t[u], s'.t[u])
    requires forall d :: IsServer(d) ==> RousedProc(s.t[d], s'.t[d]) || s'.t[d].state == SLEEPING
    requires forall d :: IsServer(d) ==> s'.pc[d] == s.pc[d] || !s'.pc[d].InReply?
    ensures Hears(s, s')
  {
    hide UsersOk, TasksOk;
  }

  lemma PlaceHears(s: Sys, s': Sys, p: int)
    requires Shape(s) && Shape(s') && IsSlot(p) && s'.t == s.t && s'.req == s.req && s'.pc == s.pc[p := s'.pc[p]]
    requires !s'.pc[p].InRecv? && !s'.pc[p].InReply? && CallsOk(s)
    ensures Hears(s, s')
  {
    hide UsersOk, TasksOk;
  }

  lemma ServerRecvHears(s: Sys, s': Sys, d: int)
    requires CallsOk(s) && Enabled(s, ServerRecv(d))
    requires s' == Receiving(Intended, s, d, ANY, b => Accept(b)) && Shape(s')
    ensures Hears(s, s')
  {
    hide UsersOk, ServersOk, TasksOk, Hears;
    if d == TASK_SYS {
      SysRecvIs(s);
      RousedHears(s, s');
    } else {
      ServerRecvIs(s, d);
      ServerGotHears(s, s', d, SenderOf(s.t, d, ANY));
    }
  }

  lemma TalkHears(s: Sys, a: Action)
    requires CallsOk(s) && Enabled(s, a) && Shape(Next(Intended, s, a))
    requires a.UserSend? || a.UserRecv? || a.ServerRecv? || a.ServerReply? || a.MmCall? || a.MmCallWait?
    ensures Hears(s, Next(Intended, s, a))
  {
    hide UsersOk, ServersOk, TasksOk, MmRequest, FsRequest, Hears;
    hide UserSends, UserReceives, ServerReplies, Receiving, Call, CallWait;
    var s' := Next(Intended, s, a);
    match a
    case UserSend(u, dest, typ, i1, i2) =>
      var m := Request(s, u, typ, Null, Null, i1, i2);
      UserSendIs(s, u, dest, m);
      UserSendHears(s, s', u, dest, m);
    case UserRecv(u) =>
      UserRecvIs(s, u);
      UserGotHears(s, s', u);
    case ServerRecv(d) => ServerRecvHears(s, s', d);
    case ServerReply(d) =>
      ReplyIs(s, d);
      RepliedHears(s, s', d);
    case MmCall =>
      CallIs(s);
      CalledHears(s, s', NestedRequest(s, s.pc[TASK_MM].m, s.pc[TASK_MM].call));
    case MmCallWait =>
      CallWaitIs(s);
      CallAnsweredHears(s, s');
  }

  /** MM changes entry `x` of one that is in no call any more, or not yet. */
  lemma EntryHears(s: Sys, s': Sys, x: int)
    requires CallsOk(s) && Shape(s') && s'.req == s.req && IsSlot(x) && !IsServer(x)
    requires s'.t == s.t[x := s'.t[x]] && s'.pc == s.pc[x := s'.pc[x]][TASK_MM := s'.pc[TASK_MM]]
    requires !Holding(s', x) && !s'.pc[TASK_MM].InReply?
    ensures Hears(s, s')
  {
    hide UsersOk, TasksOk;
  }

  lemma ForkAllocHears(s: Sys, s': Sys, ok: bool)
    requires CallsOk(s) && MmServes(s, MSG_FORK) && s' == ForkAlloc(s, ok) && Shape(s')
    ensures Hears(s, s')
  {
    TasksLive(s);
    hide UsersOk, ServersOk, TasksOk, Hears;
    var ch := FirstUnused(s.t, 0);
    if ch == NPROC { PlaceHears(s, s', TASK_MM); } else { EntryHears(s, s', ch); }
  }

  lemma ForkCopyHears(s: Sys, s': Sys, ok: bool)
    requires CallsOk(s) && Enabled(s, MmForkCopy(ok)) && s' == ForkCopy(s, ok) && Shape(s')
    ensures Hears(s, s')
  {
    ChildWaits(s);
    hide UsersOk, ServersOk, TasksOk, Hears;
    EntryHears(s, s', s.pc[TASK_MM].child);
  }

  lemma ForkDoneHears(s: Sys, s': Sys)
    requires CallsOk(s) && Enabled(s, MmForkDone) && s' == ForkDone(s) && Shape(s')
    ensures Hears(s, s')
  {
    hide UsersOk, ServersOk, TasksOk, Hears;
    EntryHears(s, s', s.pc[TASK_MM].call.child);
  }

  lemma ChildWaits(s: Sys)
    requires CallsOk(s) && s.pc[TASK_MM].Forking? && IsUser(s.pc[TASK_MM].child)
    ensures s.t[s.pc[TASK_MM].child].state == EMBRYO
  {
    hide UsersOk;
  }

  lemma ExitMarkHears(s: Sys, s': Sys)
    requires CallsOk(s) && MmServes(s, MSG_EXIT) && s' == ExitMark(s) && Shape(s')
    ensures Hears(s, s')
  {
    hide UsersOk, ServersOk, TasksOk, Hears;
    EntryHears(s, s', s.pc[TASK_MM].m.source);
  }

  lemma BuryHears(s: Sys, s': Sys)
    requires CallsOk(s) && Enabled(s, MmZombie) && s' == Bury(s) && Shape(s')
    ensures Hears(s, s')
  {
    hide UsersOk, ServersOk, TasksOk, Hears;
    EntryHears(s, s', s.pc[TASK_MM].m.source);
  }

  lemma WaitHears(s: Sys, s': Sys)
    requires CallsOk(s) && MmServes(s, MSG_WAIT) && s' == Wait(s) && Shape(s')
    ensures Hears(s, s')
  {
    TasksLive(s);
    hide UsersOk, ServersOk, TasksOk, Hears;
    var z := FirstZombie(s.t, s.pc[TASK_MM].m.source, 0);
    if z == NPROC { PlaceHears(s, s', TASK_MM); } else { EntryHears(s, s', z); }
  }

  lemma MmHears(s: Sys, a: Action)
    requires CallsOk(s) && Enabled(s, a) && Shape(Next(Intended, s, a))
    requires a.MmForkAlloc? || a.MmForkCopy? || a.MmForkDone? || a.MmExitMark? || a.MmZombie? || a.MmWait? || a.MmOther?
    ensures Hears(s, Next(Intended, s, a))
  {
    hide UsersOk, ServersOk, TasksOk, Hears, ForkAlloc, ForkCopy, ForkDone, ExitMark, Bury, Wait;
    var s' := Next(Intended, s, a);
    match a
    case MmForkAlloc(ok) => ForkAllocHears(s, s', ok);
    case MmForkCopy(ok) => ForkCopyHears(s, s', ok);
    case MmForkDone => ForkDoneHears(s, s');
    case MmExitMark => ExitMarkHears(s, s');
    case MmZombie => BuryHears(s, s');
    case MmWait => WaitHears(s, s');
    case MmOther(_) => PlaceHears(s, s', TASK_MM);
  }

  lemma WakeHears(s: Sys, a: Action)
    requires CallsOk(s) && Enabled(s, a) && Shape(Next(Intended, s, a))
    requires a.MmReparent? || a.MmWakeParent? || a.DiskIntr? || a.KbdIntr?
    ensures Hears(s, Next(Intended, s, a))
  {
    hide UsersOk, ServersOk, TasksOk, Hears, Woken, Reparented, ParentPtr;
    var s' := Next(Intended, s, a);
    match a {
      case MmReparent => ReparentedRouses(s.t, s.pc[TASK_MM].m.source);
      case MmWakeParent => WokenRouses(s.t, ParentPtr(s.t[s.pc[TASK_MM].child].parent));
      case DiskIntr(b) => WokenRouses(s.t, Buf(b));
      case KbdIntr => WokenRouses(s.t, Tty);
    }
    RousedHears(s, s');
  }

  lemma PipeHears(s: Sys, a: Action)
    requires CallsOk(s) && Enabled(s, a) && Shape(Next(Intended, s, a))
    requires a.FsPipeClose? || a.FsPipeRead? || a.FsPipeWrite?
    ensures Hears(s, Next(Intended, s, a))
  {
    hide UsersOk, ServersOk, TasksOk, Hears, Woken;
    var s' := Next(Intended, s, a);
    match a {
      case FsPipeClose(k, w) => WokenRouses(s.t, if w then ReadOpen(k) else WriteOpen(k));
      case FsPipeRead(k, n) => WokenRouses(s.t, WriteOpen(k));
      case FsPipeWrite(k, n) => WokenRouses(s.t, ReadOpen(k));
    }
    RousedHears(s, s');
  }

  lemma PlaceActionHears(s: Sys, a: Action)
    requires CallsOk(s) && Enabled(s, a) && Shape(Next(Intended, s, a))
    requires a.FsDisk? || a.FsFinish? || a.FsTtyWait? || a.FsPipeOpen? || a.UserDone? || a.ServerGot? || a.ServerLoop?
    ensures Hears(s, Next(Intended, s, a))
  {
    hide UsersOk, ServersOk, TasksOk, Hears;
    var s' := Next(Intended, s, a);
    match a {
      case UserDone(u) => PlaceHears(s, s', u);
      case ServerGot(d) => PlaceHears(s, s', d);
      case ServerLoop(d) => PlaceHears(s, s', d);
      case FsFinish(_) => PlaceHears(s, s', TASK_FS);
      case FsTtyWait => PlaceHears(s, s', TASK_FS);
      case FsPipeOpen(_) => RousedHears(s, s');
      case FsDisk(_) => RousedHears(s, s');
    }
  }

  lemma StepHears(s: Sys, a: Action)
    requires Inv(s) && Enabled(s, a)
    ensures Hears(s, Next(Intended, s, a))
  {
    StepKeeps(s, a);
    assert Shape(Next(Intended, s, a));
    hide UsersOk, ServersOk, TasksOk, WorldOk, Next, Enabled, Hears;
    match a
    case UserSend(_, _, _, _, _) => TalkHears(s, a);
    case UserRecv(_) => TalkHears(s, a);
    case ServerRecv(_) => TalkHears(s, a);
    case ServerReply(_) => TalkHears(s, a);
    case MmCall => TalkHears(s, a);
    case MmCallWait => TalkHears(s, a);
    case MmForkAlloc(_) => MmHears(s, a);
    case MmForkCopy(_) => MmHears(s, a);
    case MmForkDone => MmHears(s, a);
    case MmExitMark => MmHears(s, a);
    case MmZombie => MmHears(s, a);
    case MmWait => MmHears(s, a);
    case MmOther(_) => MmHears(s, a);
    case MmReparent => WakeHears(s, a);
    case MmWakeParent => WakeHears(s, a);
    case DiskIntr(_) => WakeHears(s, a);
    case KbdIntr => WakeHears(s, a);
    case FsPipeClose(_, _) => PipeHears(s, a);
    case FsPipeRead(_, _) => PipeHears(s, a);
    case FsPipeWrite(_, _) => PipeHears(s, a);
    case _ => PlaceActionHears(s, a);
  }

  // Over whole runs

  /** The run of the first `n` of the actions. */
  ghost function After(s: Sys, acts: seq<Action>, n: nat): Sys
    requires n <= |acts|
  {
    Exec(Intended, s, acts[..n])
  }

  /** After `k` actions server `d` stood at answer `m`, made up for request `q`. */
  ghost predicate Answered(s: Sys, acts: seq<Action>, k: nat, d: int, m: Msg, q: Msg)
    requires k <= |acts|
  {
    var r := After(s, acts, k);
    Shape(r) && IsServer(d) && r.pc[d] == Reply(m) && IsSlot(m.source) && r.req[m.source] == q
  }

  ghost predicate AnsweredBy(s: Sys, acts: seq<Action>, n: nat, d: int, m: Msg, q: Msg)
    requires n <= |acts|
  {
    exists k: nat :: k <= n && Answered(s, acts, k, d, m, q)
  }

  /** Every answer on its way or in somebody's buffer was made up by its server, for that request. */
  ghost predicate AllAnswered(s: Sys, acts: seq<Action>, n: nat)
    requires n <= |acts|
  {
    var r := After(s, acts, n);
    && Shape(r)
    && (forall d, m :: Telling(r, d, m) && IsSlot(m.source) ==> AnsweredBy(s, acts, n, d, m, r.req[m.source]))
    && (forall u :: Holding(r, u) ==> AnsweredBy(s, acts, n, r.pc[u].dest, r.t[u].mbuf.(source := u), r.req[u]))
  }

  lemma AfterStep(s: Sys, acts: seq<Action>, n: nat)
    requires n < |acts|
    ensures var r := After(s, acts, n);
      After(s, acts, n + 1) == if Shape(r) && Enabled(r, acts[n]) then Next(Intended, r, acts[n]) else r
  {
    hide Next, Enabled;
    assert acts[..n + 1] == acts[..n] + [acts[n]];
    ExecAppend(Intended, s, acts[..n], [acts[n]]);
    var r := After(s, acts, n);
    assert [acts[n]][1..] == [];
  }

  lemma StillAnswered(s: Sys, acts: seq<Action>, n: nat, d: int, m: Msg, q: Msg)
    requires n < |acts| && AnsweredBy(s, acts, n, d, m, q)
    ensures AnsweredBy(s, acts, n + 1, d, m, q)
  {
    hide Answered;
    var k: nat :| k <= n && Answered(s, acts, k, d, m, q);
    assert k <= n + 1;
  }

  lemma AnsweredNow(s: Sys, acts: seq<Action>, n: nat, d: int, m: Msg)
    requires n <= |acts| && Shape(After(s, acts, n)) && IsServer(d) && IsSlot(m.source)
    requires After(s, acts, n).pc[d] == Reply(m)
    ensures AnsweredBy(s, acts, n, d, m, After(s, acts, n).req[m.source])
  {
    assert Answered(s, acts, n, d, m, After(s, acts, n).req[m.source]);
  }

  lemma AnsweredStep(s: Sys, acts: seq<Action>, n: nat)
    requires n < |acts| && AllAnswered(s, acts, n) && Hears(After(s, acts, n), After(s, acts, n + 1))
    ensures AllAnswered(s, acts, n + 1)
  {
    hide After, AnsweredBy;
    var r, r' := After(s, acts, n), After(s, acts, n + 1);
    forall d, m | Telling(r', d, m) && IsSlot(m.source) ensures AnsweredBy(s, acts, n + 1, d, m, r'.req[m.source]) {
      if r'.pc[d] == Reply(m) {
        AnsweredNow(s, acts, n + 1, d, m);
      } else {
        assert StillTells(r, r', d);
        StillAnswered(s, acts, n, d, m, r.req[m.source]);
      }
    }
    forall u | Holding(r', u)
      ensures AnsweredBy(s, acts, n + 1, r'.pc[u].dest, r'.t[u].mbuf.(source := u), r'.req[u]) {
      assert HeardFrom(r, r', u);
      StillAnswered(s, acts, n, r'.pc[u].dest, r'.t[u].mbuf.(source := u), r'.req[u]);
    }
  }

  lemma AfterKeeps(r: Sys, r': Sys, a: Action)
    requires Inv(r) && DealsOk(r) && r' == if Enabled(r, a) then Next(Intended, r, a) else r
    ensures Inv(r') && DealsOk(r') && Hears(r, r')
  {
    hide UsersOk, ServersOk, TasksOk, WorldOk, DealsOk, Next, Enabled, Hears;
    if Enabled(r, a) {
      DealsStep(r, a);
      StepHears(r, a);
    } else {
      SameHears(r);
    }
  }

  lemma {:induction false} RunAnswered(s: Sys, acts: seq<Action>, n: nat)
    requires Boot(s) && n <= |acts|
    ensures var r := After(s, acts, n); Inv(r) && DealsOk(r) && AllAnswered(s, acts, n)
  {
    hide UsersOk, ServersOk, TasksOk, WorldOk, DealsOk, AllAnswered, Next, Enabled, Boot, After, Hears;
    if n == 0 {
      BootDeals(s);
      BootAnswered(s, acts);
    } else {
      RunAnswered(s, acts, n - 1);
      AfterStep(s, acts, n - 1);
      AfterKeeps(After(s, acts, n - 1), After(s, acts, n), acts[n - 1]);
      AnsweredStep(s, acts, n - 1);
    }
  }

  lemma SameHears(s: Sys)
    requires CallsOk(s)
    ensures Hears(s, s)
  {
    hide UsersOk, TasksOk;
  }

  lemma BootAnswered(s: Sys, acts: seq<Action>)
    requires Boot(s)
    ensures After(s, acts, 0) == s && AllAnswered(s, acts, 0)
  {
    hide AnsweredBy;
    assert acts[..0] == [];
    assert After(s, acts, 0) == s && Shape(s);
    NobodyTold(s);
    hide Boot, Holding, Telling;
    var r := After(s, acts, 0);
    assert Shape(r);
    assert forall u :: !Holding(r, u);
    assert forall d, m :: !Telling(r, d, m);
  }

  lemma NobodyTold(s: Sys)
    requires Boot(s)
    ensures Shape(s) && (forall u :: !Holding(s, u)) && forall d, m :: !Telling(s, d, m)
  {
    forall u ensures !Holding(s, u) {
      if INIT < u < NPROC { assert s.t[u].state == UNUSED; }
    }
    forall d, m ensures !Telling(s, d, m) {
      if IsServer(d) { assert s.pc[d] == Top; }
    }
  }

  // What callers can rely on

  /**
   wait answers with a dead child of the caller that no wait has returned before, and with the code that child gave
   to exit; or the caller has no dead child.
   */
  lemma WaitReapsOnce(s: Sys)
    requires Inv(s) && DealsOk(s) && MmServes(s, MSG_WAIT)
    ensures var m := s.pc[TASK_MM].m; var z := FirstZombie(s.t, m.source, 0); var r := Wait(s);
      if z == NPROC then
        && r.reaped == s.reaped
        && forall u :: IsUser(u) && s.t[u].state == ZOMBIE ==> s.t[u].parent != m.source
      else
        && IsUser(z) && s.t[z].parent == m.source && s.t[z].pid !in s.reaped
        && r.reaped == s.reaped[s.t[z].pid := s.req[z].i1] && r.t[z].state == UNUSED
        && r.pc[TASK_MM].Reply? && r.pc[TASK_MM].m.source == m.source
        && r.pc[TASK_MM].m.i1 == s.t[z].pid && r.pc[TASK_MM].m.i2 == s.req[z].i1 && s.req[z].typ == MSG_EXIT
  {
    WaitReaps(s);
  }

  lemma RunIsAfter(s: Sys, acts: seq<Action>)
    ensures After(s, acts, |acts|) == Exec(Intended, s, acts)
  {
    assert acts[..|acts|] == acts;
  }

  /** Over every run: who is dead asked for its exit, and carries the code it asked with until it is reaped. */
  lemma ExitCodeKept(s: Sys, acts: seq<Action>, u: int)
    requires Boot(s) && IsUser(u)
    ensures var r := Exec(Intended, s, acts);
      Shape(r) && (r.t[u].state == ZOMBIE ==> r.req[u].typ == MSG_EXIT && r.t[u].msgstate == r.req[u].i1)
  {
    BootDeals(s);
    hide Boot, Exec;
    DealsRun(s, acts);
    assert CodesOk(Exec(Intended, s, acts));
  }

  /** What a process asks for is what it has put in its call. */
  lemma RequestCarries(s: Sys, u: int, dest: int, typ: MsgType, i1: int, i2: int)
    requires CallsOk(s) && Enabled(s, UserSend(u, dest, typ, i1, i2))
    ensures var q := Next(Intended, s, UserSend(u, dest, typ, i1, i2)).req[u];
      q.typ == typ && q.source == u && q.i1 == i1 && q.i2 == i2 && q.tag == s.req[u].tag + 1
  {
  }

  /** FS answers a read of a pipe with how many bytes it takes out, or has it wait for a writer. */
  lemma PipeReadAnswer(s: Sys, k: nat, n: nat)
    requires Shape(s) && FsServes(s) && k in s.pipes
    ensures var s', m, p := PipeRead(s, k, n), s.pc[TASK_FS].m, s.pipes[k];
      s'.pc[TASK_FS].Reply? && var a := s'.pc[TASK_FS].m;
      && a.source == m.source && a.tag == m.tag
      && if n > 0 && p.count == 0 && p.writeopen then a.typ == MSG_BESLEEP && a.p1 == ReadOpen(k) && s'.pipes == s.pipes
         else a.typ == MSG_SYSRET && a.i1 == (if n <= p.count then n else p.count) >= 0
              && s'.pipes == s.pipes[k := p.(count := p.count - a.i1)]
  {
    assert s.pipes[k := s.pipes[k]] == s.pipes;
    hide Woken;
  }

  /** A write is answered with how many bytes fit, with -1 when nobody can read, or it waits for room. */
  lemma PipeWriteAnswer(s: Sys, k: nat, n: nat)
    requires Shape(s) && FsServes(s) && PipesOk(s) && k in s.pipes
    ensures var s', m, p := PipeWrite(s, k, n), s.pc[TASK_FS].m, s.pipes[k];
      s'.pc[TASK_FS].Reply? && var a := s'.pc[TASK_FS].m;
      && a.source == m.source && a.tag == m.tag
      && if !p.readopen then a.typ == MSG_SYSRET && a.i1 == -1 && s'.pipes == s.pipes
         else if n > 0 && p.count == 1024 then a.typ == MSG_BESLEEP && a.p1 == WriteOpen(k) && s'.pipes == s.pipes
         else a.typ == MSG_SYSRET && a.i1 == (if p.count + n <= 1024 then n else 1024 - p.count) >= 0
              && s'.pipes == s.pipes[k := p.(count := p.count + a.i1)]
  {
    assert s.pipes[k := s.pipes[k]] == s.pipes;
    hide Woken;
  }

  /**
   Over every run: when FS serves a fork or an exit, it is told of the right processes, and the child has its
   parent's priority and counter.
   */
  lemma FsToldOf(s: Sys, acts: seq<Action>)
    requires Boot(s)
    ensures var r := Exec(Intended, s, acts);
      && Shape(r)
      && (r.pc[TASK_FS].Serve? && r.pc[TASK_FS].m.source == TASK_MM ==>
            var m := r.pc[TASK_FS].m;
            && m.p1.ProcAt? && IsUser(m.p1.slot) && r.req[m.p1.slot].typ == m.typ
            && (m.typ == MSG_FORK || m.typ == MSG_EXIT)
            && (m.typ == MSG_FORK ==>
                 && m.p2.ProcAt? && MadeBy(r, m.p2.slot, m.p1.slot)
                 && r.t[m.p2.slot].priority == r.t[m.p1.slot].priority
                 && r.t[m.p2.slot].counter == r.t[m.p1.slot].counter))
  {
    BootDeals(s);
    hide Boot, Exec;
    DealsRun(s, acts);
    var r := Exec(Intended, s, acts);
    if r.pc[TASK_FS].Serve? && r.pc[TASK_FS].m.source == TASK_MM {
      FsServesCall(r);
    }
  }

  lemma FsServesCall(r: Sys)
    requires CallsOk(r) && DealsOk(r) && r.pc[TASK_FS].Serve? && r.pc[TASK_FS].m.source == TASK_MM
    ensures var m := r.pc[TASK_FS].m;
      && m.p1.ProcAt? && IsUser(m.p1.slot) && r.req[m.p1.slot].typ == m.typ
      && (m.typ == MSG_FORK || m.typ == MSG_EXIT)
      && (m.typ == MSG_FORK ==>
           && m.p2.ProcAt? && MadeBy(r, m.p2.slot, m.p1.slot)
           && r.t[m.p2.slot].priority == r.t[m.p1.slot].priority
           && r.t[m.p2.slot].counter == r.t[m.p1.slot].counter)
  {
    hide UsersOk, CodesOk;
  }

  /** A client's request is for its server. */
  lemma ClientAddressed(s: Sys, u: int, d: int)
    requires CallsOk(s) && IsUser(u) && IsServer(d) && Client(s, d) == u && s.req[u].typ != MSG_EXIT
    ensures Addressed(s.req[u], d)
  {
    hide UsersOk;
    UserIs(s, u);
  }

  /** Where the answer comes from that a returning process holds: its server made it up for that very request. */
  lemma AnswerMadeUp(s: Sys, acts: seq<Action>, u: int) returns (k: nat)
    requires Boot(s)
    requires var r := Exec(Intended, s, acts); Shape(r) && Holding(r, u)
    ensures k <= |acts|
    ensures var r, q := Exec(Intended, s, acts), After(s, acts, k);
      && Inv(q) && DealsOk(q) && q.req[u] == r.req[u] && IsServer(r.pc[u].dest)
      && q.pc[r.pc[u].dest] == Reply(r.t[u].mbuf.(source := u))
  {
    hide UsersOk, ServersOk, TasksOk, WorldOk, DealsOk, Boot, After, Exec;
    RunAnswered(s, acts, |acts|);
    RunIsAfter(s, acts);
    var r := Exec(Intended, s, acts);
    assert AnsweredBy(s, acts, |acts|, r.pc[u].dest, r.t[u].mbuf.(source := u), r.req[u]);
    k :| k <= |acts| && Answered(s, acts, k, r.pc[u].dest, r.t[u].mbuf.(source := u), r.req[u]);
    RunAnswered(s, acts, k);
  }

  lemma MmMadeUp(q: Sys, u: int, d: int, m: Msg)
    requires Inv(q) && DealsOk(q) && IsServer(d) && q.pc[d] == Reply(m) && m.source == u && IsUser(u)
    requires q.req[u].typ == MSG_FORK || q.req[u].typ == MSG_WAIT
    ensures d == TASK_MM && AnswerOk(q, m)
  {
    hide UsersOk, ServersOk, TasksOk, WorldOk;
    ClientAddressed(q, u, d);
  }

  lemma ForkAnswer(q: Sys, m: Msg)
    requires Shape(q) && AnswerOk(q, m) && IsUser(m.source) && q.req[m.source].typ == MSG_FORK
    ensures m.typ == MSG_SYSRET && (m.i1 == -1 || exists ch :: MadeBy(q, ch, m.source) && q.t[ch].pid == m.i1)
  {
  }

  lemma WaitAnswer(q: Sys, m: Msg)
    requires Shape(q) && AnswerOk(q, m) && IsUser(m.source) && q.req[m.source].typ == MSG_WAIT
    ensures || (m.typ == MSG_SYSRET && exists z :: ReapedFrom(q, z, m.source, m.i1, m.i2))
            || (NoDeadChild(q, m.source)
                && if q.req[m.source].i2 != 0 then m.typ == MSG_SYSRET && m.i1 == -1 else m.typ == MSG_BESLEEP)
  {
  }

  /**
   fork returns -1, or the pid of the process that was made last when the answer was made up, a child of the
   caller's.
   */
  lemma ForkReturnsChild(s: Sys, acts: seq<Action>, u: int) returns (k: nat)
    requires Boot(s)
    requires var r := Exec(Intended, s, acts); Shape(r) && Holding(r, u) && r.req[u].typ == MSG_FORK
    ensures k <= |acts|
    ensures var r, q, m := Exec(Intended, s, acts), After(s, acts, k), Exec(Intended, s, acts).t[u].mbuf;
      && Shape(q) && q.req[u] == r.req[u] && m.typ == MSG_SYSRET
      && (m.i1 == -1 || exists ch :: MadeBy(q, ch, u) && q.t[ch].pid == m.i1)
  {
    k := AnswerMadeUp(s, acts, u);
    hide UsersOk, ServersOk, TasksOk, WorldOk, DealsOk, Boot, After, Exec, AnswerOk, MadeBy;
    var r, q := Exec(Intended, s, acts), After(s, acts, k);
    var m := r.t[u].mbuf.(source := u);
    MmMadeUp(q, u, r.pc[u].dest, m);
    ForkAnswer(q, m);
  }

  /**
   wait returns the pid and the exit code of a dead child of the caller, freed by then; or -1, when it was asked
   not to sleep and there was no dead child; or the caller is asked to sleep, and there was none either.
   */
  lemma WaitReturnsChild(s: Sys, acts: seq<Action>, u: int) returns (k: nat)
    requires Boot(s)
    requires var r := Exec(Intended, s, acts); Shape(r) && Holding(r, u) && r.req[u].typ == MSG_WAIT
    ensures k <= |acts|
    ensures var r, q, m := Exec(Intended, s, acts), After(s, acts, k), Exec(Intended, s, acts).t[u].mbuf;
      && Shape(q) && q.req[u] == r.req[u]
      && (|| (m.typ == MSG_SYSRET && exists z :: ReapedFrom(q, z, u, m.i1, m.i2))
          || (NoDeadChild(q, u)
              && if r.req[u].i2 != 0 then m.typ == MSG_SYSRET && m.i1 == -1 else m.typ == MSG_BESLEEP))
  {
    k := AnswerMadeUp(s, acts, u);
    hide UsersOk, ServersOk, TasksOk, WorldOk, DealsOk, Boot, After, Exec, AnswerOk, ReapedFrom, NoDeadChild;
    var r, q := Exec(Intended, s, acts), After(s, acts, k);
    var m := r.t[u].mbuf.(source := u);
    MmMadeUp(q, u, r.pc[u].dest, m);
    WaitAnswer(q, m);
  }
}
