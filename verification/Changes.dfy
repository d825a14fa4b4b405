/**
 What one action can change, and nothing else can: who becomes whose child, who is made, dies and is reaped, and
 who is woken. Together with the invariants of ServerProtocol and Answers this says what each action of the servers
 does to every process. All this is about the receive as it is meant, as in ServerProtocol.
 */
module Changes {
  import opened ProcTable
  import opened Ipc
  import opened WaitGraph
  import opened Protocol
  import opened ProtocolInv
  import opened ProtocolWorld
  import opened ServerProtocol
  import opened Answers

  // Families

  lemma TalkCalm(s: Sys, a: Action)
    requires CallsOk(s) && Enabled(s, a) && Shape(Next(Intended, s, a))
    requires a.UserSend? || a.UserRecv? || a.ServerRecv? || a.ServerReply? || a.MmCall? || a.MmCallWait?
    ensures Calm(s, Next(Intended, s, a))
  {
    hide UsersOk, ServersOk, TasksOk, MmRequest, FsRequest, Calm, UserSent, UserGot, Called, CallAnswered, Replied;
    hide UserSends, UserReceives, ServerReplies, Receiving, Call, CallWait;
    var s' := Next(Intended, s, a);
    assert s'.nextpid == s.nextpid by { TalkSame(s, a); }
    match a
    case UserSend(u, dest, typ, i1, i2) =>
      var m := Request(s, u, typ, Null, Null, i1, i2);
      UserSendIs(s, u, dest, m);
      UserSendCalm(s, s', u, dest, m);
    case UserRecv(u) =>
      UserRecvIs(s, u);
      UserGotCalm(s, s', u);
    case ServerRecv(d) => ServerRecvCalm(s, s', d);
    case ServerReply(d) =>
      ReplyIs(s, d);
      RepliedCalm(s, s', d);
    case MmCall =>
      CallIs(s);
      CalledCalm(s, s', NestedRequest(s, s.pc[TASK_MM].m, s.pc[TASK_MM].call));
    case MmCallWait =>
      CallWaitIs(s);
      CallAnsweredCalm(s, s');
  }

  lemma TalkSame(s: Sys, a: Action)
    requires Shape(s) && Enabled(s, a)
    requires a.UserSend? || a.UserRecv? || a.ServerRecv? || a.ServerReply? || a.MmCall? || a.MmCallWait?
    ensures Next(Intended, s, a).nextpid == s.nextpid
  {
    hide SendStep, RecvStep;
  }

  lemma ServerRecvCalm(s: Sys, s': Sys, d: int)
    requires CallsOk(s) && Enabled(s, ServerRecv(d))
    requires s' == Receiving(Intended, s, d, ANY, b => Accept(b)) && Shape(s')
    ensures Calm(s, s')
  {
    hide UsersOk, ServersOk, TasksOk, Calm;
    if d == TASK_SYS {
      SysRecvIs(s);
      OneEntryCalm(s, s', d);
    } else {
      ServerRecvIs(s, d);
      ServerGotCalm(s, s', d, SenderOf(s.t, d, ANY));
    }
  }

  lemma OtherCalm(s: Sys, a: Action)
    requires CallsOk(s) && Enabled(s, a) && Shape(Next(Intended, s, a))
    requires a.UserDone? || a.ServerGot? || a.ServerLoop? || a.MmForkDone? || a.MmExitMark? || a.MmWakeParent?
             || a.MmOther?
    ensures Calm(s, Next(Intended, s, a))
  {
    hide UsersOk, FsSideOk, TasksOk, Calm, Woken, ParentPtr;
    var s' := Next(Intended, s, a);
    match a
    case MmForkDone => OneEntryCalm(s, s', s.pc[TASK_MM].call.child);
    case MmExitMark =>
      UserIs(s, s.pc[TASK_MM].m.source);
      OneEntryCalm(s, s', s.pc[TASK_MM].m.source);
    case MmWakeParent => WokenCalm(s, s', ParentPtr(s.t[s.pc[TASK_MM].child].parent));
    case _ => SameTableCalm(s, s');
  }

  /** All actions but these five leave every process what it is. */
  lemma StepCalm(s: Sys, a: Action)
    requires Inv(s) && Enabled(s, a)
    requires !a.MmForkAlloc? && !a.MmForkCopy? && !a.MmReparent? && !a.MmZombie? && !a.MmWait?
    ensures Calm(s, Next(Intended, s, a))
  {
    StepKeeps(s, a);
    assert Shape(Next(Intended, s, a));
    hide UsersOk, ServersOk, TasksOk, WorldOk, Next, Enabled, Calm;
    match a
    case UserSend(_, _, _, _, _) => TalkCalm(s, a);
    case UserRecv(_) => TalkCalm(s, a);
    case ServerRecv(_) => TalkCalm(s, a);
    case ServerReply(_) => TalkCalm(s, a);
    case MmCall => TalkCalm(s, a);
    case MmCallWait => TalkCalm(s, a);
    case FsDisk(_) => FsCalm(s, a);
    case FsFinish(_) => FsCalm(s, a);
    case FsTtyWait => FsCalm(s, a);
    case FsPipeOpen(_) => FsCalm(s, a);
    case FsPipeClose(_, _) => FsCalm(s, a);
    case FsPipeRead(_, _) => FsCalm(s, a);
    case FsPipeWrite(_, _) => FsCalm(s, a);
    case DiskIntr(_) => FsCalm(s, a);
    case KbdIntr => FsCalm(s, a);
    case _ => OtherCalm(s, a);
  }

  /** What may become of process `u` in the family tree when action `a` takes `s` to `s'`. */
  ghost predicate FamilyChange(s: Sys, s': Sys, a: Action, u: int)
    requires Shape(s) && Shape(s') && IsUser(u)
  {
    var p, q, pc := s.t[u], s'.t[u], s.pc[TASK_MM];
    // only a new child and the children of a process that exits get another parent
    && q.parent == (if a.MmForkCopy? && a.ok && pc.Forking? && pc.child == u then pc.m.source
                    else if a.MmReparent? && pc.CallRecv? && p.parent == pc.m.source then INIT
                    else p.parent)
    // only one that has asked for its exit dies, with that code, and the dead stay dead until they are reaped
    && (q.state == ZOMBIE && p.state != ZOMBIE ==>
          a.MmZombie? && pc.Dying? && pc.m.source == u && s.req[u].typ == MSG_EXIT && q.msgstate == s.req[u].i1)
    && (q.state == ZOMBIE && p.state == ZOMBIE ==> q.msgstate == p.msgstate)
    && (p.state == ZOMBIE && q.state != ZOMBIE ==>
          a.MmWait? && pc.Serve? && p.parent == pc.m.source && q.state == UNUSED)
    // only fork takes an entry, the first that is free, with a new pid; only wait and a failing fork give one back
    && (p.state == UNUSED && q.state != UNUSED ==>
          a.MmForkAlloc? && q.state == EMBRYO && q.pid == s.nextpid
          && forall w :: 0 <= w < u ==> s.t[w].state != UNUSED)
    && (p.state != UNUSED && q.state == UNUSED ==>
          a.MmWait? || (a.MmForkCopy? && !a.ok && pc.Forking? && pc.child == u))
    && (q.pid != p.pid ==> p.state == UNUSED && a.MmForkAlloc? && q.pid == s.nextpid)
  }

  lemma CalmFamily(s: Sys, s': Sys, a: Action, u: int)
    requires Calm(s, s') && IsUser(u)
    requires !a.MmForkAlloc? && !a.MmForkCopy? && !a.MmReparent? && !a.MmZombie? && !a.MmWait?
    ensures FamilyChange(s, s', a, u)
  {
    assert SameSelf(s.t[u], s'.t[u]);
  }

  lemma ForkAllocFamily(s: Sys, ok: bool, u: int)
    requires CallsOk(s) && MmServes(s, MSG_FORK) && IsUser(u) && Shape(ForkAlloc(s, ok))
    ensures FamilyChange(s, ForkAlloc(s, ok), MmForkAlloc(ok), u)
  {
    hide UsersOk, ServersOk, TasksOk;
  }

  lemma ForkCopyFamily(s: Sys, ok: bool, u: int)
    requires CallsOk(s) && Enabled(s, MmForkCopy(ok)) && IsUser(u) && Shape(ForkCopy(s, ok))
    ensures FamilyChange(s, ForkCopy(s, ok), MmForkCopy(ok), u)
  {
    ChildWaits(s);
    hide UsersOk, ServersOk, TasksOk;
  }

  lemma ReparentFamily(s: Sys, u: int)
    requires CallsOk(s) && Enabled(s, MmReparent) && IsUser(u) && Shape(Reparent(s))
    ensures FamilyChange(s, Reparent(s), MmReparent, u)
  {
    hide UsersOk, ServersOk, TasksOk, Reparented;
    var c := s.pc[TASK_MM].m.source;
    ReparentedHandsOver(s.t, c);
    HandedParent(s.t, Reparented(s.t, c), c, u);
  }

  lemma BuryFamily(s: Sys, u: int)
    requires CallsOk(s) && Enabled(s, MmZombie) && IsUser(u) && Shape(Bury(s))
    ensures FamilyChange(s, Bury(s), MmZombie, u)
  {
    hide UsersOk, FsSideOk, TasksOk;
  }

  lemma WaitFamily(s: Sys, u: int)
    requires CallsOk(s) && MmServes(s, MSG_WAIT) && IsUser(u) && Shape(Wait(s))
    ensures FamilyChange(s, Wait(s), MmWait, u)
  {
    hide UsersOk, ServersOk, TasksOk;
  }

  /** Every action changes the family tree in these ways only. */
  lemma FamilyStep(s: Sys, a: Action, u: int)
    requires Inv(s) && Enabled(s, a) && IsUser(u)
    ensures Shape(Next(Intended, s, a)) && FamilyChange(s, Next(Intended, s, a), a, u)
  {
    StepKeeps(s, a);
    assert Shape(Next(Intended, s, a));
    hide UsersOk, ServersOk, TasksOk, WorldOk, FamilyChange, Calm, ForkAlloc, ForkCopy, Reparent, Bury, Wait;
    match a
    case MmForkAlloc(ok) => ForkAllocFamily(s, ok, u);
    case MmForkCopy(ok) => ForkCopyFamily(s, ok, u);
    case MmReparent => ReparentFamily(s, u);
    case MmZombie => BuryFamily(s, u);
    case MmWait => WaitFamily(s, u);
    case _ =>
      hide Next, Enabled;
      StepCalm(s, a);
      CalmFamily(s, Next(Intended, s, a), a, u);
  }

  // Wakeups

  /** What action `a` wakes: who sleeps on this is RUNNABLE afterwards, and nobody else is woken. */
  ghost predicate Signals(s: Sys, a: Action, w: Ptr)
    requires Shape(s) && Enabled(s, a)
  {
    match a
    case MmReparent =>
      && w == ProcAt(INIT)
      && exists z :: 0 <= z < NPROC && s.t[z].state == ZOMBIE && s.t[z].parent == s.pc[TASK_MM].m.source
    case MmWakeParent => w == ProcAt(s.t[s.pc[TASK_MM].child].parent) && IsSlot(s.t[s.pc[TASK_MM].child].parent)
    case FsPipeClose(k, writable) => w == if writable then ReadOpen(k) else WriteOpen(k)
    case FsPipeRead(k, n) => w == WriteOpen(k) && (n == 0 || s.pipes[k].count > 0)
    case FsPipeWrite(k, n) => w == ReadOpen(k) && s.pipes[k].readopen
    case DiskIntr(b) => w == Buf(b)
    case KbdIntr => w == Tty
    case _ => false
  }

  lemma WokenOnly(t: Table, w: Ptr, u: int)
    requires |t| == NPROC && IsSlot(u) && t[u].state == SLEEPING
    ensures Woken(t, w)[u] == if t[u].tmp == w then t[u].(state := RUNNABLE) else t[u]
  {
  }

  /** `q` is what becomes of the sleeper `p`: woken or not, and otherwise as it was. */
  predicate WokenIf(p: Proc, q: Proc, woken: bool) {
    q.state == (if woken then RUNNABLE else SLEEPING) && q.tmp == p.tmp && q.mbuf == p.mbuf && q.msgstate == p.msgstate
  }

  lemma SendSleeper(t: Table, me: int, dest: int, m: Msg, u: int)
    requires TableOk(t) && IsSlot(me) && IsSlot(dest) && IsSlot(u) && t[u].state == SLEEPING && t[me].state == RUNNABLE
    ensures |SendStep(t, me, dest, m).table| == NPROC && SendStep(t, me, dest, m).table[u] == t[u]
  {
  }

  lemma RecvSleeper(t: Table, me: int, source: int, u: int)
    requires TableOk(t) && IsSlot(me) && (IsSlot(source) || source == ANY) && IsSlot(u)
    requires t[u].state == SLEEPING && t[me].state == RUNNABLE
    ensures |RecvStep(Intended, t, me, source).table| == NPROC && RecvStep(Intended, t, me, source).table[u] == t[u]
  {
  }

  lemma TalkWakesNone(s: Sys, a: Action, u: int)
    requires Shape(s) && Enabled(s, a) && IsSlot(u) && s.t[u].state == SLEEPING && Shape(Next(Intended, s, a))
    requires a.UserSend? || a.UserRecv? || a.ServerRecv? || a.ServerReply? || a.MmCall? || a.MmCallWait?
    ensures WokenIf(s.t[u], Next(Intended, s, a).t[u], Signals(s, a, s.t[u].tmp))
  {
    hide SendStep, RecvStep;
    match a
    case UserSend(p, dest, typ, i1, i2) => SendSleeper(s.t, p, dest, Request(s, p, typ, Null, Null, i1, i2), u);
    case UserRecv(p) => RecvSleeper(s.t, p, s.pc[p].dest, u);
    case ServerRecv(d) => RecvSleeper(s.t, d, ANY, u);
    case ServerReply(d) => SendSleeper(s.t, d, s.pc[d].m.source, s.pc[d].m.(source := d), u);
    case MmCall =>
      SendSleeper(s.t, TASK_MM, TASK_FS, NestedRequest(s, s.pc[TASK_MM].m, s.pc[TASK_MM].call), u);
    case MmCallWait => RecvSleeper(s.t, TASK_MM, TASK_FS, u);
  }

  lemma BirthWakesNone(s: Sys, a: Action, u: int)
    requires CallsOk(s) && Enabled(s, a) && IsUser(u) && s.t[u].state == SLEEPING && Shape(Next(Intended, s, a))
    requires a.MmForkAlloc? || a.MmForkCopy? || a.MmForkDone?
    ensures WokenIf(s.t[u], Next(Intended, s, a).t[u], Signals(s, a, s.t[u].tmp))
  {
    hide UsersOk, FsSideOk, TasksOk;
    UserIs(s, u);
  }

  lemma DeathWakesNone(s: Sys, a: Action, u: int)
    requires CallsOk(s) && Enabled(s, a) && IsUser(u) && s.t[u].state == SLEEPING && Shape(Next(Intended, s, a))
    requires a.MmExitMark? || a.MmZombie? || a.MmWait? || a.MmOther?
    ensures WokenIf(s.t[u], Next(Intended, s, a).t[u], Signals(s, a, s.t[u].tmp))
  {
    hide UsersOk, FsSideOk, TasksOk;
    UserIs(s, u);
  }

  lemma ReparentWakes(s: Sys, u: int)
    requires Shape(s) && Enabled(s, MmReparent) && IsUser(u) && s.t[u].state == SLEEPING && Shape(Reparent(s))
    ensures WokenIf(s.t[u], Reparent(s).t[u], Signals(s, MmReparent, s.t[u].tmp))
  {
  }

  lemma ParentWakes(s: Sys, u: int)
    requires Inv(s) && Enabled(s, MmWakeParent) && IsUser(u) && s.t[u].state == SLEEPING && Shape(NotifyParent(s))
    ensures WokenIf(s.t[u], NotifyParent(s).t[u], Signals(s, MmWakeParent, s.t[u].tmp))
  {
    hide UsersOk, ServersOk, TasksOk, Woken;
    assert MaySleep(s, u, s.t[u].tmp);
    WokenOnly(s.t, ParentPtr(s.t[s.pc[TASK_MM].child].parent), u);
  }

  lemma PipeWakes(s: Sys, a: Action, u: int)
    requires Shape(s) && Enabled(s, a) && IsUser(u) && s.t[u].state == SLEEPING && Shape(Next(Intended, s, a))
    requires a.FsPipeClose? || a.FsPipeRead? || a.FsPipeWrite?
    ensures WokenIf(s.t[u], Next(Intended, s, a).t[u], Signals(s, a, s.t[u].tmp))
  {
    hide Woken;
    match a
    case FsPipeClose(k, w) => WokenOnly(s.t, if w then ReadOpen(k) else WriteOpen(k), u);
    case FsPipeRead(k, _) => WokenOnly(s.t, WriteOpen(k), u);
    case FsPipeWrite(k, _) => WokenOnly(s.t, ReadOpen(k), u);
  }

  lemma OtherWakes(s: Sys, a: Action, u: int)
    requires Shape(s) && Enabled(s, a) && IsUser(u) && s.t[u].state == SLEEPING && Shape(Next(Intended, s, a))
    requires a.FsDisk? || a.FsFinish? || a.FsTtyWait? || a.FsPipeOpen? || a.DiskIntr? || a.KbdIntr? || a.UserDone?
             || a.ServerGot? || a.ServerLoop?
    ensures WokenIf(s.t[u], Next(Intended, s, a).t[u], Signals(s, a, s.t[u].tmp))
  {
    hide Woken;
    match a
    case DiskIntr(b) => WokenOnly(s.t, Buf(b), u);
    case KbdIntr => WokenOnly(s.t, Tty, u);
    case _ =>
  }

  /** A sleeper is woken exactly when its channel is signalled; nothing else happens to it. */
  lemma WakesExactly(s: Sys, a: Action, u: int)
    requires Inv(s) && Enabled(s, a) && IsUser(u) && s.t[u].state == SLEEPING
    ensures Shape(Next(Intended, s, a))
    ensures WokenIf(s.t[u], Next(Intended, s, a).t[u], Signals(s, a, s.t[u].tmp))
  {
    StepKeeps(s, a);
    assert Shape(Next(Intended, s, a));
    hide UsersOk, ServersOk, TasksOk, WorldOk, Enabled, Signals, WokenIf, Next;
    SleepersWake(s, a, u);
  }

  lemma SleepersWake(s: Sys, a: Action, u: int)
    requires Inv(s) && Enabled(s, a) && IsUser(u) && s.t[u].state == SLEEPING && Shape(Next(Intended, s, a))
    ensures WokenIf(s.t[u], Next(Intended, s, a).t[u], Signals(s, a, s.t[u].tmp))
  {
    hide UsersOk, ServersOk, TasksOk, WorldOk, Enabled, Signals, WokenIf;
    match a
    case MmReparent => ReparentWakes(s, u);
    case MmWakeParent => ParentWakes(s, u);
    case FsPipeClose(_, _) => PipeWakes(s, a, u);
    case FsPipeRead(_, _) => PipeWakes(s, a, u);
    case FsPipeWrite(_, _) => PipeWakes(s, a, u);
    case UserSend(_, _, _, _, _) => TalkWakesNone(s, a, u);
    case UserRecv(_) => TalkWakesNone(s, a, u);
    case ServerRecv(_) => TalkWakesNone(s, a, u);
    case ServerReply(_) => TalkWakesNone(s, a, u);
    case MmCall => TalkWakesNone(s, a, u);
    case MmCallWait => TalkWakesNone(s, a, u);
    case MmForkAlloc(_) => BirthWakesNone(s, a, u);
    case MmForkCopy(_) => BirthWakesNone(s, a, u);
    case MmForkDone => BirthWakesNone(s, a, u);
    case MmExitMark => DeathWakesNone(s, a, u);
    case MmZombie => DeathWakesNone(s, a, u);
    case MmWait => DeathWakesNone(s, a, u);
    case MmOther(_) => DeathWakesNone(s, a, u);
    case _ => OtherWakes(s, a, u);
  }

  // Requests

  /** Over every run: what a server works on is what its client asked for last. */
  lemma ServesWhatWasAsked(s: Sys, acts: seq<Action>, d: int)
    requires Boot(s) && IsServer(d)
    ensures var r := Exec(Intended, s, acts);
      Shape(r) && (r.pc[d].Serve? ==> IsSlot(r.pc[d].m.source) && r.pc[d].m == r.req[r.pc[d].m.source])
  {
    BootOk(s);
    hide Boot, Exec;
    RunKeeps(s, acts);
    hide UsersOk, TasksOk, WorldOk;
  }
}
