/**
 What the servers keep about the world while the calls run: the process forest, pids and exit codes, and that
 nobody sleeps on an event that has already happened. A process that sleeps in wait has no dead child that MM is
 not about to announce; one that sleeps on an end of a pipe finds the pipe empty, or full, and the other end open.
 The forest has its root in INIT, alive or dead, and no child is older than its parent.
 */
module ProtocolWorld {
  import opened ProcTable
  import opened Ipc
  import opened WaitGraph
  import opened Protocol
  import opened ProtocolInv
  import Pipes

  predicate Used(p: Proc) { p.state != UNUSED }

  predicate Live(p: Proc) { p.state != UNUSED && p.state != ZOMBIE }

  /** The child that allocproc has taken but that has no parent yet. */
  function Unborn(pc: Pc): int {
    if pc.Forking? then pc.child else -1
  }

  predicate Settled(s: Sys, u: int)
    requires Shape(s)
  {
    IsUser(u) && u != INIT && Used(s.t[u]) && Unborn(s.pc[TASK_MM]) != u
  }

  /**
   Every settled process has a parent older than itself, which is alive unless it is INIT; a dying one, INIT
   apart, has no children left. INIT has no parent, so nobody ever reaps it.
   */
  ghost predicate ForestOk(s: Sys)
    requires Shape(s)
  {
    && (forall u :: Settled(s, u) ==> ParentOk(s, u))
    && (s.pc[TASK_MM].Dying? && s.pc[TASK_MM].m.source != INIT ==>
          forall u :: Settled(s, u) ==> s.t[u].parent != s.pc[TASK_MM].m.source)
    && !IsUser(s.t[INIT].parent)
  }

  predicate ParentOk(s: Sys, u: int)
    requires Shape(s) && IsUser(u)
  {
    var p := s.t[u].parent;
    IsUser(p) && (Live(s.t[p]) || p == INIT) && s.t[p].pid < s.t[u].pid
  }

  ghost predicate PidsOk(s: Sys)
    requires Shape(s)
  {
    && Used(s.t[INIT])
    && (IsUser(Unborn(s.pc[TASK_MM])) ==> s.t[Unborn(s.pc[TASK_MM])].pid + 1 == s.nextpid)
    && (forall u :: IsUser(u) && Used(s.t[u]) ==> s.t[u].pid < s.nextpid && (u != INIT ==> s.t[INIT].pid < s.t[u].pid))
    && (forall u, w :: IsUser(u) && IsUser(w) && u != w && Used(s.t[u]) && Used(s.t[w]) ==> s.t[u].pid != s.t[w].pid)
  }

  /** `exited` holds the codes of dead processes; wait has returned some of them, each once, unchanged. */
  ghost predicate ExitsOk(s: Sys)
    requires Shape(s)
  {
    && (forall i :: i in s.exited ==> i < s.nextpid)
    && (forall i :: i in s.reaped ==> i in s.exited && s.reaped[i] == s.exited[i])
    && (forall u :: IsUser(u) && Live(s.t[u]) ==> s.t[u].pid !in s.exited)
    && (forall u :: IsUser(u) && s.t[u].state == ZOMBIE ==>
          s.t[u].pid in s.exited && s.exited[s.t[u].pid] == s.t[u].msgstate && s.t[u].pid !in s.reaped)
  }

  ghost predicate PipesOk(s: Sys) {
    forall k :: k in s.pipes ==> s.pipes[k].count <= Pipes.PIPESIZE && (s.pipes[k].readopen || s.pipes[k].writeopen)
  }

  /** `u` may sleep on `w`: what it waits for has not happened, or its wakeup is still to come. */
  ghost predicate MaySleep(s: Sys, u: int, w: Ptr)
    requires Shape(s)
  {
    match w
    case ProcAt(x) => x == u &&
      forall z :: IsUser(z) && s.t[z].state == ZOMBIE && s.t[z].parent == u ==> s.pc[TASK_MM] == WakeParent(z)
    case ReadOpen(k) => k in s.pipes && s.pipes[k].count == 0 && s.pipes[k].writeopen
    case WriteOpen(k) => k in s.pipes && s.pipes[k].count == Pipes.PIPESIZE && s.pipes[k].readopen
    case Tty => true
    case _ => false
  }

  ghost predicate SleepersOk(s: Sys)
    requires Shape(s)
  {
    forall u :: IsUser(u) && s.t[u].state == SLEEPING ==> MaySleep(s, u, s.t[u].tmp)
  }

  /** A BESLEEP reply that server `d` has still to deliver. */
  predicate Pending(p: Proc, pc: Pc, m: Msg) {
    (pc == Reply(m) || (pc.InReply? && pc.m == m && p.state == SENDING)) && m.typ == MSG_BESLEEP
  }

  ghost predicate PendingOk(s: Sys, d: int)
    requires Shape(s) && IsServer(d)
  {
    forall m :: Pending(s.t[d], s.pc[d], m) ==> MaySleep(s, m.source, m.p1) && (d == TASK_MM <==> m.p1.ProcAt?)
  }

  ghost predicate WorldOk(s: Sys)
    requires Shape(s)
  {
    && ForestOk(s) && PidsOk(s) && ExitsOk(s) && PipesOk(s) && SleepersOk(s)
    && PendingOk(s, TASK_MM) && PendingOk(s, TASK_FS)
  }

  ghost predicate Inv(s: Sys) {
    CallsOk(s) && WorldOk(s)
  }

  // Steps that leave the world alone

  /** A live process may change as a caller, but not its family, and a dead one not at all. */
  predicate SamePerson(p: Proc, q: Proc) {
    && q.parent == p.parent && q.pid == p.pid
    && (if Live(p) then Live(q) else q.state == p.state && q.msgstate == p.msgstate)
  }

  ghost predicate Quiet(s: Sys, s': Sys) {
    && Shape(s) && Shape(s')
    && s'.pipes == s.pipes && s'.nextpid == s.nextpid && s'.exited == s.exited && s'.reaped == s.reaped
    && (forall u :: IsUser(u) ==> SamePerson(s.t[u], s'.t[u]))
    && (forall u :: IsUser(u) && s'.t[u].state == SLEEPING ==>
          (s.t[u].state == SLEEPING && s'.t[u].tmp == s.t[u].tmp) || MaySleep(s, u, s'.t[u].tmp))
    && Unborn(s'.pc[TASK_MM]) == Unborn(s.pc[TASK_MM])
    && (s'.pc[TASK_MM].Dying? ==> s'.pc[TASK_MM] == s.pc[TASK_MM])
    && (s.pc[TASK_MM].WakeParent? ==> s'.pc[TASK_MM] == s.pc[TASK_MM])
    && (forall d, m :: IsServer(d) && Pending(s'.t[d], s'.pc[d], m) ==>
          Pending(s.t[d], s.pc[d], m) || (MaySleep(s, m.source, m.p1) && (d == TASK_MM <==> m.p1.ProcAt?)))
  }

  lemma SamePeople(s: Sys, s': Sys)
    requires Shape(s) && Shape(s') && ForestOk(s) && PidsOk(s) && ExitsOk(s)
    requires s'.nextpid == s.nextpid && s'.exited == s.exited && s'.reaped == s.reaped
    requires forall u :: IsUser(u) ==> SamePerson(s.t[u], s'.t[u])
    requires Unborn(s'.pc[TASK_MM]) == Unborn(s.pc[TASK_MM])
    requires s'.pc[TASK_MM].Dying? ==> s'.pc[TASK_MM] == s.pc[TASK_MM]
    ensures ForestOk(s') && PidsOk(s') && ExitsOk(s')
  {
    forall u | IsUser(u) ensures SamePerson(s.t[u], s'.t[u]) {}
    assert ForestOk(s') by {
      forall u | Settled(s', u) ensures ParentOk(s', u) {
        assert Settled(s, u) && ParentOk(s, u);
      }
      forall u | s'.pc[TASK_MM].Dying? && s'.pc[TASK_MM].m.source != INIT && Settled(s', u)
        ensures s'.t[u].parent != s'.pc[TASK_MM].m.source {
        assert Settled(s, u);
      }
    }
  }

  lemma QuietKeeps(s: Sys, s': Sys)
    requires Quiet(s, s') && WorldOk(s)
    ensures WorldOk(s')
  {
    SamePeople(s, s');
    QuietSleepers(s, s');
  }

  lemma StillMaySleep(s: Sys, s': Sys, u: int, w: Ptr)
    requires Shape(s) && Shape(s') && MaySleep(s, u, w) && s'.pipes == s.pipes
    requires forall z :: IsUser(z) ==> SamePerson(s.t[z], s'.t[z])
    requires s.pc[TASK_MM].WakeParent? ==> s'.pc[TASK_MM] == s.pc[TASK_MM]
    ensures MaySleep(s', u, w)
  {
    forall z | IsUser(z) ensures SamePerson(s.t[z], s'.t[z]) {}
  }

  lemma QuietSleepers(s: Sys, s': Sys)
    requires Quiet(s, s') && WorldOk(s)
    ensures SleepersOk(s') && PendingOk(s', TASK_MM) && PendingOk(s', TASK_FS)
  {
    forall u | IsUser(u) && s'.t[u].state == SLEEPING ensures MaySleep(s', u, s'.t[u].tmp) {
      StillMaySleep(s, s', u, s'.t[u].tmp);
    }
    forall d, m | IsServer(d) && Pending(s'.t[d], s'.pc[d], m) ensures MaySleep(s', m.source, m.p1) {
      StillMaySleep(s, s', m.source, m.p1);
    }
  }

  predicate SameRest(s: Sys, s': Sys) {
    s'.pipes == s.pipes && s'.nextpid == s.nextpid && s'.exited == s.exited && s'.reaped == s.reaped
  }

  lemma UserSendQuiet(s: Sys, s': Sys, u: int, dest: int, m: Msg)
    requires Shape(s) && Shape(s') && ServersOk(s) && UserSent(s, s', u, dest, m) && SameRest(s, s')
    ensures Quiet(s, s')
  {
    forall w | IsUser(w) ensures SamePerson(s.t[w], s'.t[w]) {}
  }

  lemma UserDoneQuiet(s: Sys, s': Sys, u: int)
    requires Shape(s) && Shape(s') && IsUser(u) && s'.t == s.t && s'.pc == s.pc[u := User] && SameRest(s, s')
    ensures Quiet(s, s')
  {
    forall w | IsUser(w) ensures SamePerson(s.t[w], s'.t[w]) {}
  }

  lemma UserGotPeople(s: Sys, s': Sys, u: int)
    requires Shape(s) && Shape(s') && ServersOk(s) && UserGot(s, s', u)
    ensures forall w :: IsUser(w) ==> SamePerson(s.t[w], s'.t[w])
  {
    hide MmPlaceOk;
  }

  lemma UserGotSleepers(s: Sys, s': Sys, u: int)
    requires Shape(s) && Shape(s') && ServersOk(s) && UserGot(s, s', u)
    requires PendingOk(s, s.pc[u].dest) && Client(s, s.pc[u].dest) == u
    ensures forall w :: IsUser(w) && s'.t[w].state == SLEEPING ==>
      (s.t[w].state == SLEEPING && s'.t[w].tmp == s.t[w].tmp) || MaySleep(s, w, s'.t[w].tmp)
  {
    hide SamePerson, MaySleep;
    var d := s.pc[u].dest;
    if Offering(s.t, d, u) {
      assert s'.t[u].state == SLEEPING ==> Pending(s.t[d], s.pc[d], s.pc[d].m);
    }
  }

  lemma UserGotPending(s: Sys, s': Sys, u: int)
    requires Shape(s) && Shape(s') && ServersOk(s) && UserGot(s, s', u)
    ensures forall d, m :: IsServer(d) && Pending(s'.t[d], s'.pc[d], m) ==> Pending(s.t[d], s.pc[d], m)
  {
  }

  lemma UserRecvQuiet(s: Sys, s': Sys, u: int)
    requires Shape(s) && Shape(s') && ServersOk(s) && UserGot(s, s', u) && SameRest(s, s')
    requires PendingOk(s, s.pc[u].dest) && Client(s, s.pc[u].dest) == u
    ensures Quiet(s, s')
  {
    UserGotPeople(s, s', u);
    UserGotSleepers(s, s', u);
    UserGotPending(s, s', u);
    hide SamePerson, MaySleep, ServersOk, Pending, PendingOk, Client;
  }

  lemma ServerRecvQuiet(s: Sys, s': Sys, d: int, p: int)
    requires Shape(s) && Shape(s') && ServerGotRequest(s, s', d, p) && SameRest(s, s')
    ensures Quiet(s, s')
  {
    forall w | IsUser(w) ensures SamePerson(s.t[w], s'.t[w]) {}
  }

  lemma ReplyQuiet(s: Sys, s': Sys, d: int)
    requires Shape(s) && Shape(s') && ServersOk(s) && Replied(s, s', d) && SameRest(s, s') && PendingOk(s, d)
    ensures Quiet(s, s')
  {
    var m := s.pc[d].m;
    assert m.typ == MSG_BESLEEP ==> Pending(s.t[d], s.pc[d], m);
    forall w | IsUser(w) ensures SamePerson(s.t[w], s'.t[w]) {}
  }

  lemma CallQuiet(s: Sys, s': Sys, m: Msg)
    requires Shape(s) && Shape(s') && ServersOk(s) && Called(s, s', m) && SameRest(s, s')
    ensures Quiet(s, s')
  {
    forall w | IsUser(w) ensures SamePerson(s.t[w], s'.t[w]) {}
  }

  lemma CallWaitQuiet(s: Sys, s': Sys)
    requires Shape(s) && Shape(s') && ServersOk(s) && CallAnswered(s, s') && SameRest(s, s')
    ensures Quiet(s, s')
  {
    forall w | IsUser(w) ensures SamePerson(s.t[w], s'.t[w]) {}
  }

  /** Server `d` moves to place `pc`. */
  lemma PlaceQuiet(s: Sys, s': Sys, d: int, pc: Pc)
    requires Shape(s) && Shape(s') && IsServer(d) && s'.t == s.t && s'.pc == s.pc[d := pc] && SameRest(s, s')
    requires Unborn(s'.pc[TASK_MM]) == Unborn(s.pc[TASK_MM])
    requires !pc.Dying? && !s.pc[d].WakeParent? && s.t[d].state == RUNNABLE
    requires pc.Reply? && pc.m.typ == MSG_BESLEEP ==>
      MaySleep(s, pc.m.source, pc.m.p1) && (d == TASK_MM <==> pc.m.p1.ProcAt?)
    ensures Quiet(s, s')
  {
    forall w | IsUser(w) ensures SamePerson(s.t[w], s'.t[w]) {}
  }

  lemma InterruptQuiet(s: Sys, s': Sys, w: Ptr)
    requires Shape(s) && Shape(s') && s'.t == Woken(s.t, w) && s'.pc == s.pc && SameRest(s, s')
    ensures Quiet(s, s')
  {
    forall u | IsUser(u) ensures SamePerson(s.t[u], s'.t[u]) {}
  }

  lemma DiskQuiet(s: Sys, s': Sys, b: nat)
    requires Shape(s) && Shape(s') && FsServes(s) && s'.pc == s.pc && SameRest(s, s')
    requires s'.t == s.t[TASK_FS := s.t[TASK_FS].(state := SLEEPING, tmp := Buf(b))]
    ensures Quiet(s, s')
  {
    forall u | IsUser(u) ensures SamePerson(s.t[u], s'.t[u]) {}
  }

  lemma ExitMarkQuiet(s: Sys, s': Sys)
    requires CallsOk(s) && Shape(s') && MmServes(s, MSG_EXIT) && s' == ExitMark(s)
    ensures Quiet(s, s')
  {
    var c := s.pc[TASK_MM].m.source;
    assert UserOk(s.t[c], s.pc[c], s.req[c], c, ViewOf(s));
    forall u | IsUser(u) ensures SamePerson(s.t[u], s'.t[u]) {}
  }

  lemma ForkDoneQuiet(s: Sys, s': Sys)
    requires CallsOk(s) && Shape(s') && Enabled(s, MmForkDone) && s' == ForkDone(s)
    ensures Quiet(s, s')
  {
    var ch := s.pc[TASK_MM].call.child;
    assert UserOk(s.t[ch], s.pc[ch], s.req[ch], ch, ViewOf(s));
    forall u | IsUser(u) ensures SamePerson(s.t[u], s'.t[u]) {}
  }

  // Births and deaths

  /** Sleepers and undelivered replies stay in order when no wait channel gets a reason to be woken. */
  lemma SleepersKept(s: Sys, s': Sys)
    requires Shape(s) && Shape(s') && SleepersOk(s) && s'.pipes == s.pipes
    requires forall u ::
      IsUser(u) && s'.t[u].state == SLEEPING ==> s.t[u].state == SLEEPING && s.t[u].tmp == s'.t[u].tmp
    requires forall u, z :: (IsUser(u) && s'.t[u].state == SLEEPING && s'.t[u].tmp == ProcAt(u) &&
                             IsUser(z) && s'.t[z].state == ZOMBIE && s'.t[z].parent == u) ==>
               s'.pc[TASK_MM] == WakeParent(z) ||
               (s.t[z].state == ZOMBIE && s.t[z].parent == u && !s.pc[TASK_MM].WakeParent?)
    requires PendingOk(s, TASK_FS)
    requires s'.t[TASK_FS].state == s.t[TASK_FS].state && s'.pc[TASK_FS] == s.pc[TASK_FS]
    requires forall m :: !Pending(s'.t[TASK_MM], s'.pc[TASK_MM], m)
    ensures SleepersOk(s') && PendingOk(s', TASK_FS) && PendingOk(s', TASK_MM)
  {
    forall u | IsUser(u) && s'.t[u].state == SLEEPING ensures MaySleep(s', u, s'.t[u].tmp) {
      assert MaySleep(s, u, s.t[u].tmp);
    }
    forall m | Pending(s'.t[TASK_FS], s'.pc[TASK_FS], m) ensures MaySleep(s', m.source, m.p1) && !m.p1.ProcAt? {
      assert MaySleep(s, m.source, m.p1);
    }
  }

  predicate SameLife(p: Proc, q: Proc) {
    Used(q) == Used(p) && Live(q) == Live(p) && q.pid == p.pid && q.msgstate == p.msgstate
  }

  /** Nobody is born, dies or is reaped. */
  lemma PeopleKept(s: Sys, s': Sys)
    requires Shape(s) && Shape(s') && PidsOk(s) && ExitsOk(s) && SameRest(s, s')
    requires forall u :: IsUser(u) ==> SameLife(s.t[u], s'.t[u])
    requires Unborn(s'.pc[TASK_MM]) == -1
    ensures PidsOk(s') && ExitsOk(s')
  {
  }

  /** allocproc took slot `ch` (or, failing, only used up a pid). */
  lemma BirthPeople(s: Sys, s': Sys, ch: int, pc: Pc)
    requires Shape(s) && Shape(s') && WorldOk(s) && IsUser(ch) && s.t[ch].state == UNUSED && !s.pc[TASK_MM].WakeParent?
    requires s'.pc == s.pc[TASK_MM := pc] && s'.nextpid == s.nextpid + 1 && Unborn(s.pc[TASK_MM]) == -1
    requires s'.pipes == s.pipes && s'.exited == s.exited && s'.reaped == s.reaped
    requires if pc.Forking? then pc.child == ch && s'.t == s.t[ch := s.t[ch].(state := EMBRYO, pid := s.nextpid)]
             else pc.Reply? && pc.m.typ == MSG_SYSRET && s'.t == s.t[ch := s.t[ch].(pid := s.nextpid)]
    ensures PidsOk(s') && ExitsOk(s')
  {
  }

  lemma BirthForest(s: Sys, s': Sys, ch: int, pc: Pc)
    requires Shape(s) && Shape(s') && WorldOk(s) && IsUser(ch) && s.t[ch].state == UNUSED && !s.pc[TASK_MM].WakeParent?
    requires s'.pc == s.pc[TASK_MM := pc] && s'.nextpid == s.nextpid + 1 && Unborn(s.pc[TASK_MM]) == -1
    requires s'.pipes == s.pipes && s'.exited == s.exited && s'.reaped == s.reaped
    requires if pc.Forking? then pc.child == ch && s'.t == s.t[ch := s.t[ch].(state := EMBRYO, pid := s.nextpid)]
             else pc.Reply? && pc.m.typ == MSG_SYSRET && s'.t == s.t[ch := s.t[ch].(pid := s.nextpid)]
    ensures ForestOk(s')
  {
    hide SleepersOk, PendingOk, ExitsOk, PipesOk;
    forall u | Settled(s', u) ensures ParentOk(s', u) {
      assert Settled(s, u) && ParentOk(s, u);
    }
  }

  lemma BirthWorld(s: Sys, s': Sys, ch: int, pc: Pc)
    requires Shape(s) && Shape(s') && WorldOk(s) && IsUser(ch) && s.t[ch].state == UNUSED && !s.pc[TASK_MM].WakeParent?
    requires s'.pc == s.pc[TASK_MM := pc] && s'.nextpid == s.nextpid + 1 && Unborn(s.pc[TASK_MM]) == -1
    requires s'.pipes == s.pipes && s'.exited == s.exited && s'.reaped == s.reaped
    requires if pc.Forking? then pc.child == ch && s'.t == s.t[ch := s.t[ch].(state := EMBRYO, pid := s.nextpid)]
             else pc.Reply? && pc.m.typ == MSG_SYSRET && s'.t == s.t[ch := s.t[ch].(pid := s.nextpid)]
    ensures WorldOk(s')
  {
    hide ForestOk, PidsOk, ExitsOk;
    BirthForest(s, s', ch, pc);
    BirthPeople(s, s', ch, pc);
    SleepersKept(s, s');
  }

  lemma ForkAllocWorld(s: Sys, s': Sys, ok: bool)
    requires Inv(s) && MmServes(s, MSG_FORK) && s' == ForkAlloc(s, ok) && Shape(s')
    ensures WorldOk(s')
  {
    TasksLive(s);
    hide CallsOk, FirstUnused;
    var ch := FirstUnused(s.t, 0);
    if ch == NPROC {
      PlaceQuiet(s, s', TASK_MM, s'.pc[TASK_MM]);
      QuietKeeps(s, s');
    } else {
      BirthWorld(s, s', ch, s'.pc[TASK_MM]);
    }
  }

  /** The child `ch` gets its parent `c`, or its slot goes back. */
  lemma AdoptionPeople(s: Sys, s': Sys, ch: int, c: int, pc: Pc)
    requires Shape(s) && Shape(s') && WorldOk(s) && IsUser(ch) && IsUser(c) && ch != c
    requires s.pc[TASK_MM].Forking? && s.pc[TASK_MM].child == ch && s.t[ch].state == EMBRYO && Live(s.t[c])
    requires s'.pc == s.pc[TASK_MM := pc] && s'.nextpid == s.nextpid
    requires s'.pipes == s.pipes && s'.exited == s.exited && s'.reaped == s.reaped
    requires |s'.t| == |s.t| && s'.t == s.t[ch := s'.t[ch]] && s'.t[ch].pid == s.t[ch].pid
    requires if pc.Calling? then s'.t[ch].state == EMBRYO && s'.t[ch].parent == c
             else pc.Reply? && pc.m.typ == MSG_SYSRET && s'.t[ch].state == UNUSED
    ensures PidsOk(s') && ExitsOk(s')
  {
  }

  lemma AdoptionForest(s: Sys, s': Sys, ch: int, c: int, pc: Pc)
    requires Shape(s) && Shape(s') && WorldOk(s) && IsUser(ch) && IsUser(c) && ch != c
    requires s.pc[TASK_MM].Forking? && s.pc[TASK_MM].child == ch && s.t[ch].state == EMBRYO && Live(s.t[c])
    requires s'.pc == s.pc[TASK_MM := pc] && s'.nextpid == s.nextpid
    requires s'.pipes == s.pipes && s'.exited == s.exited && s'.reaped == s.reaped
    requires |s'.t| == |s.t| && s'.t == s.t[ch := s'.t[ch]] && s'.t[ch].pid == s.t[ch].pid
    requires if pc.Calling? then s'.t[ch].state == EMBRYO && s'.t[ch].parent == c
             else pc.Reply? && pc.m.typ == MSG_SYSRET && s'.t[ch].state == UNUSED
    ensures ForestOk(s')
  {
    hide SleepersOk, PendingOk, ExitsOk, PipesOk;
    assert s.t[c].pid != s.t[ch].pid;
    forall u | Settled(s', u) ensures ParentOk(s', u) {
      if u != ch {
        assert Settled(s, u) && ParentOk(s, u);
        assert s.t[u].pid != s.t[ch].pid;
      }
    }
  }

  lemma AdoptionWorld(s: Sys, s': Sys, ch: int, c: int, pc: Pc)
    requires Shape(s) && Shape(s') && WorldOk(s) && IsUser(ch) && IsUser(c) && ch != c
    requires s.pc[TASK_MM].Forking? && s.pc[TASK_MM].child == ch && s.t[ch].state == EMBRYO && Live(s.t[c])
    requires s'.pc == s.pc[TASK_MM := pc] && s'.nextpid == s.nextpid
    requires s'.pipes == s.pipes && s'.exited == s.exited && s'.reaped == s.reaped
    requires |s'.t| == |s.t| && s'.t == s.t[ch := s'.t[ch]] && s'.t[ch].pid == s.t[ch].pid
    requires if pc.Calling? then s'.t[ch].state == EMBRYO && s'.t[ch].parent == c
             else pc.Reply? && pc.m.typ == MSG_SYSRET && s'.t[ch].state == UNUSED
    ensures WorldOk(s')
  {
    hide ForestOk, PidsOk, ExitsOk;
    AdoptionForest(s, s', ch, c, pc);
    AdoptionPeople(s, s', ch, c, pc);
    SleepersKept(s, s');
  }

  lemma ForkCopyWorld(s: Sys, s': Sys, ok: bool)
    requires Inv(s) && Enabled(s, MmForkCopy(ok)) && s' == ForkCopy(s, ok) && Shape(s')
    ensures WorldOk(s')
  {
    var m, ch := s.pc[TASK_MM].m, s.pc[TASK_MM].child;
    assert UserOk(s.t[m.source], s.pc[m.source], s.req[m.source], m.source, ViewOf(s));
    AdoptionWorld(s, s', ch, m.source, s'.pc[TASK_MM]);
  }

  /** Parents and wakeups as do_exit leaves them for the client `c`. */
  ghost predicate HandedOver(t: Table, u: Table, c: int) {
    && |t| == |u| == NPROC
    && (forall p :: IsSlot(p) ==> RousedProc(t[p], u[p]) && u[p].parent == if t[p].parent == c then INIT
        else t[p].parent)
    && (forall z :: IsSlot(z) && t[z].state == ZOMBIE && t[z].parent == c ==>
          !(u[INIT].state == SLEEPING && u[INIT].tmp == ProcAt(INIT)))
    && (forall p :: IsSlot(p) && t[p].state == SLEEPING && t[p].tmp != ProcAt(INIT) ==> u[p].state == SLEEPING)
  }

  lemma ReparentedHandsOver(t: Table, c: int)
    requires |t| == NPROC
    ensures HandedOver(t, Reparented(t, c), c)
  {
  }

  lemma HandOverForest(s: Sys, s': Sys, c: int)
    requires Shape(s) && Shape(s') && WorldOk(s) && HandedOver(s.t, s'.t, c) && IsUser(c)
    requires s.pc[TASK_MM].CallRecv? && s'.pc[TASK_MM].Dying? && s'.pc[TASK_MM].m.source == c
    requires s'.pc == s.pc[TASK_MM := s'.pc[TASK_MM]] && SameRest(s, s')
    ensures ForestOk(s')
  {
    hide SleepersOk, PendingOk, ExitsOk, PipesOk, HandedOver;
    HandedParent(s.t, s'.t, c, INIT);
    forall u | Settled(s', u) ensures ParentOk(s', u) && (c != INIT ==> s'.t[u].parent != c) {
      HandedParent(s.t, s'.t, c, u);
      assert Settled(s, u) && ParentOk(s, u);
      HandedParent(s.t, s'.t, c, s.t[u].parent);
    }
  }

  lemma HandedParent(t: Table, t': Table, c: int, u: int)
    requires HandedOver(t, t', c) && IsSlot(u)
    ensures |t| == |t'| == NPROC && RousedProc(t[u], t'[u])
    ensures t'[u].parent == if t[u].parent == c then INIT else t[u].parent
  {
  }

  lemma HandOverWorld(s: Sys, s': Sys, c: int)
    requires Shape(s) && Shape(s') && WorldOk(s) && HandedOver(s.t, s'.t, c) && IsUser(c)
    requires s.pc[TASK_MM].CallRecv? && s'.pc[TASK_MM].Dying? && s'.pc[TASK_MM].m.source == c
    requires s'.pc == s.pc[TASK_MM := s'.pc[TASK_MM]] && SameRest(s, s')
    requires s'.t[TASK_FS].state == s.t[TASK_FS].state
    ensures WorldOk(s')
  {
    HandOverForest(s, s', c);
    forall u | IsUser(u) ensures SameLife(s.t[u], s'.t[u]) {
      assert RousedProc(s.t[u], s'.t[u]);
    }
    PeopleKept(s, s');
    HandOverSleepers(s, s', c);
  }

  lemma HandOverSleepers(s: Sys, s': Sys, c: int)
    requires Shape(s) && Shape(s') && WorldOk(s) && HandedOver(s.t, s'.t, c) && IsUser(c)
    requires s.pc[TASK_MM].CallRecv? && s'.pc[TASK_MM].Dying? && s'.pc[TASK_MM].m.source == c
    requires s'.pc == s.pc[TASK_MM := s'.pc[TASK_MM]] && SameRest(s, s')
    requires s'.t[TASK_FS].state == s.t[TASK_FS].state
    ensures SleepersOk(s') && PendingOk(s', TASK_FS) && PendingOk(s', TASK_MM)
  {
    forall u | IsUser(u) && s'.t[u].state == SLEEPING
      ensures s.t[u].state == SLEEPING && s.t[u].tmp == s'.t[u].tmp
    {
      assert RousedProc(s.t[u], s'.t[u]);
    }
    forall z | IsUser(z) && s'.t[z].state == ZOMBIE ensures s.t[z].state == ZOMBIE {
      assert RousedProc(s.t[z], s'.t[z]);
    }
    SleepersKept(s, s');
  }

  lemma ReparentWorld(s: Sys, s': Sys)
    requires CallsOk(s) && WorldOk(s) && s.pc[TASK_MM].CallRecv? && s.pc[TASK_MM].call.ExitFiles? && Shape(s')
    requires HandedOver(s.t, s'.t, s.pc[TASK_MM].m.source) && s'.pc == s.pc[TASK_MM := Dying(s.pc[TASK_MM].m)]
    requires SameRest(s, s')
    ensures WorldOk(s')
  {
    FsKept(s, s');
    HandOverWorld(s, s', s.pc[TASK_MM].m.source);
  }

  lemma FsKept(s: Sys, s': Sys)
    requires Shape(s) && ServersOk(s) && s.pc[TASK_MM].CallRecv? && HandedOver(s.t, s'.t, s.pc[TASK_MM].m.source)
    ensures s'.t[TASK_FS].state == s.t[TASK_FS].state
  {
    assert RousedProc(s.t[TASK_FS], s'.t[TASK_FS]);
  }

  lemma BuryWorld(s: Sys, s': Sys)
    requires Inv(s) && Enabled(s, MmZombie) && s' == Bury(s) && Shape(s')
    ensures WorldOk(s')
  {
    DeathWorld(s, s', s.pc[TASK_MM].m.source, s.pc[TASK_MM].m.i1);
  }

  lemma DeathPeople(s: Sys, s': Sys, c: int, code: int)
    requires Shape(s) && Shape(s') && WorldOk(s) && IsUser(c) && Live(s.t[c])
    requires s.pc[TASK_MM].Dying? && s.pc[TASK_MM].m.source == c && s'.pc == s.pc[TASK_MM := WakeParent(c)]
    requires s'.t == s.t[c := s.t[c].(state := ZOMBIE, msgstate := code)] && s'.exited == s.exited[s.t[c].pid := code]
    requires s'.pipes == s.pipes && s'.nextpid == s.nextpid && s'.reaped == s.reaped
    ensures PidsOk(s') && ExitsOk(s')
  {
  }

  lemma DeathWorld(s: Sys, s': Sys, c: int, code: int)
    requires Shape(s) && Shape(s') && WorldOk(s) && IsUser(c) && Live(s.t[c])
    requires s.pc[TASK_MM].Dying? && s.pc[TASK_MM].m.source == c && s'.pc == s.pc[TASK_MM := WakeParent(c)]
    requires s'.t == s.t[c := s.t[c].(state := ZOMBIE, msgstate := code)] && s'.exited == s.exited[s.t[c].pid := code]
    requires s'.pipes == s.pipes && s'.nextpid == s.nextpid && s'.reaped == s.reaped
    ensures WorldOk(s')
  {
    assert ForestOk(s') by {
      forall u | Settled(s', u) ensures ParentOk(s', u) {
        assert Settled(s, u) && ParentOk(s, u);
      }
    }
    DeathPeople(s, s', c, code);
    SleepersKept(s, s');
  }

  lemma NotifyParentWorld(s: Sys, s': Sys)
    requires Inv(s) && Enabled(s, MmWakeParent) && s' == NotifyParent(s) && Shape(s')
    ensures WorldOk(s')
  {
    var z := s.pc[TASK_MM].child;
    WakeWorld(s, s', s.t[z].parent);
  }

  lemma WakeSleepers(s: Sys, s': Sys, p: int)
    requires Shape(s) && Shape(s') && WorldOk(s) && s'.t == Woken(s.t, ParentPtr(p))
      && s'.t[TASK_FS].state == s.t[TASK_FS].state
    requires s.pc[TASK_MM].WakeParent? && IsUser(s.pc[TASK_MM].child) && p == s.t[s.pc[TASK_MM].child].parent
    requires s'.pc == s.pc[TASK_MM := Top] && SameRest(s, s')
    ensures SleepersOk(s') && PendingOk(s', TASK_FS)
  {
    hide ForestOk, PidsOk, ExitsOk, PipesOk;
    var z := s.pc[TASK_MM].child;
    forall u | IsUser(u) && s'.t[u].state == SLEEPING ensures MaySleep(s', u, s'.t[u].tmp) {
      assert MaySleep(s, u, s.t[u].tmp) && s.t[u].tmp != ParentPtr(p);
      assert s'.t[z].parent == p;
    }
    forall m | Pending(s'.t[TASK_FS], s'.pc[TASK_FS], m) ensures MaySleep(s', m.source, m.p1) && !m.p1.ProcAt? {
      assert MaySleep(s, m.source, m.p1);
    }
  }

  lemma WakeWorld(s: Sys, s': Sys, p: int)
    requires Shape(s) && Shape(s') && WorldOk(s) && s'.t == Woken(s.t, ParentPtr(p))
      && s'.t[TASK_FS].state == s.t[TASK_FS].state
    requires s.pc[TASK_MM].WakeParent? && IsUser(s.pc[TASK_MM].child) && p == s.t[s.pc[TASK_MM].child].parent
    requires s'.pc == s.pc[TASK_MM := Top] && SameRest(s, s')
    ensures WorldOk(s')
  {
    hide SleepersOk, PendingOk;
    WokenPersons(s.t, ParentPtr(p));
    SamePeople(s, s');
    WakeSleepers(s, s', p);
    WakeMmPending(s, s');
  }

  lemma WakeMmPending(s: Sys, s': Sys)
    requires Shape(s') && s'.pc[TASK_MM] == Top
    ensures PendingOk(s', TASK_MM)
  {
  }

  lemma WaitNoneQuiet(s: Sys, s': Sys)
    requires Inv(s) && MmServes(s, MSG_WAIT) && s' == Wait(s) && Shape(s')
    requires FirstZombie(s.t, s.pc[TASK_MM].m.source, 0) == NPROC
    ensures Quiet(s, s')
  {
    hide UsersOk, ServersOk, TasksOk, WorldOk, Quiet;
    PlaceQuiet(s, s', TASK_MM, s'.pc[TASK_MM]);
  }

  lemma InitHasNoParent(s: Sys, z: int)
    requires Shape(s) && WorldOk(s) && IsUser(z) && IsUser(s.t[z].parent)
    ensures z != INIT
  {
  }

  lemma WaitWorld(s: Sys, s': Sys)
    requires Inv(s) && MmServes(s, MSG_WAIT) && s' == Wait(s) && Shape(s')
    ensures WorldOk(s')
  {
    hide UsersOk, FsSideOk, MmPlaceOk, WorldOk, Quiet;
    var z := FirstZombie(s.t, s.pc[TASK_MM].m.source, 0);
    if z == NPROC {
      WaitNoneQuiet(s, s');
      QuietKeeps(s, s');
    } else {
      TasksLive(s);
      InitHasNoParent(s, z);
      ReapWorld(s, s', z);
    }
  }

  lemma ReapPeople(s: Sys, s': Sys, z: int)
    requires Shape(s) && Shape(s') && WorldOk(s) && IsUser(z) && s.t[z].state == ZOMBIE && z != INIT
    requires s.pc[TASK_MM].Serve? && s'.pc == s.pc[TASK_MM := s'.pc[TASK_MM]]
    requires s'.pc[TASK_MM].Reply? && s'.pc[TASK_MM].m.typ == MSG_SYSRET
    requires s'.t == s.t[z := s.t[z].(state := UNUSED)] && s'.reaped == s.reaped[s.t[z].pid := s.t[z].msgstate]
    requires s'.pipes == s.pipes && s'.nextpid == s.nextpid && s'.exited == s.exited
    ensures PidsOk(s') && ExitsOk(s')
  {
  }

  lemma ReapWorld(s: Sys, s': Sys, z: int)
    requires Shape(s) && Shape(s') && WorldOk(s) && IsUser(z) && s.t[z].state == ZOMBIE && z != INIT
    requires s.pc[TASK_MM].Serve? && s'.pc == s.pc[TASK_MM := s'.pc[TASK_MM]]
    requires s'.pc[TASK_MM].Reply? && s'.pc[TASK_MM].m.typ == MSG_SYSRET
    requires s'.t == s.t[z := s.t[z].(state := UNUSED)] && s'.reaped == s.reaped[s.t[z].pid := s.t[z].msgstate]
    requires s'.pipes == s.pipes && s'.nextpid == s.nextpid && s'.exited == s.exited
    ensures WorldOk(s')
  {
    assert ForestOk(s') by {
      forall u | Settled(s', u) ensures ParentOk(s', u) {
        assert Settled(s, u) && ParentOk(s, u);
      }
    }
    ReapPeople(s, s', z);
    SleepersKept(s, s');
  }

  // Pipes

  /** FS changes pipes, wakes some sleepers, and may answer. */
  lemma PipesWorld(s: Sys, s': Sys)
    requires Shape(s) && Shape(s') && WorldOk(s) && s.pc[TASK_FS].Serve?
    requires s'.nextpid == s.nextpid && s'.exited == s.exited && s'.reaped == s.reaped && PipesOk(s')
    requires forall u :: IsSlot(u) ==> SamePerson(s.t[u], s'.t[u])
    requires s'.t[TASK_MM].state == SENDING ==> s.t[TASK_MM].state == SENDING
    requires s'.pc == s.pc[TASK_FS := s'.pc[TASK_FS]]
    requires forall m :: Pending(s'.t[TASK_FS], s'.pc[TASK_FS], m) ==> MaySleep(s', m.source, m.p1) && !m.p1.ProcAt?
    requires forall u :: IsUser(u) && s'.t[u].state == SLEEPING ==>
      s.t[u].state == SLEEPING && s'.t[u].tmp == s.t[u].tmp && (MaySleep(s', u, s'.t[u].tmp) || s'.t[u].tmp.ProcAt?)
    ensures WorldOk(s')
  {
    SamePeople(s, s');
    forall u | IsSlot(u) ensures SamePerson(s.t[u], s'.t[u]) {}
    forall u | IsUser(u) && s'.t[u].state == SLEEPING ensures MaySleep(s', u, s'.t[u].tmp) {
      assert MaySleep(s, u, s.t[u].tmp);
    }
    forall m | Pending(s'.t[TASK_MM], s'.pc[TASK_MM], m) ensures MaySleep(s', m.source, m.p1) {
      assert Pending(s.t[TASK_MM], s.pc[TASK_MM], m);
    }
  }

  lemma WokenPersons(t: Table, w: Ptr)
    requires |t| == NPROC
    ensures forall u :: IsSlot(u) ==> SamePerson(t[u], Woken(t, w)[u])
  {
  }

  lemma PipeOpenWorld(s: Sys, s': Sys, k: nat)
    requires Shape(s) && Shape(s') && WorldOk(s) && FsServes(s) && k !in s.pipes && ServersOk(s)
    requires s' == s.(pipes := s.pipes[k := Pipes.Ends(0, true, true)])
    ensures WorldOk(s')
  {
    forall u | IsSlot(u) ensures SamePerson(s.t[u], s'.t[u]) {}
    forall u | IsUser(u) && s'.t[u].state == SLEEPING ensures MaySleep(s', u, s'.t[u].tmp) {
      assert MaySleep(s, u, s.t[u].tmp);
    }
    PipesWorld(s, s');
  }

  /** What an operation on pipe ends `p` does to those who sleep on them. */
  lemma PipeFacts(p: Pipes.Ends, n: nat)
    requires p.count <= Pipes.PIPESIZE
    ensures var q := Pipes.AfterRead(p, n);
      && q.readopen == p.readopen && q.writeopen == p.writeopen && q.count <= Pipes.PIPESIZE
      && (p.count == 0 ==> q.count == 0)
      && (!Pipes.ReadWakes(p, n) ==> q == p)
      && (Pipes.ReadRet(p, n) == Pipes.SLEEP ==> q == p && p.count == 0 && p.writeopen)
    ensures var q := Pipes.AfterWrite(p, n);
      && q.readopen == p.readopen && q.writeopen == p.writeopen && q.count <= Pipes.PIPESIZE
      && (p.count == Pipes.PIPESIZE ==> q.count == Pipes.PIPESIZE)
      && (!p.readopen ==> q == p)
      && (Pipes.WriteRet(p, n) == Pipes.SLEEP ==> q == p && p.count == Pipes.PIPESIZE && p.readopen)
  {
  }

  /** Only pipe `k` changes, from `p` to `q`; those whose condition `q` breaks have been woken. */
  lemma PipeSleepers(s: Sys, s': Sys, k: nat, q: Pipes.Ends, woken: set<Ptr>)
    requires Shape(s) && Shape(s') && SleepersOk(s) && k in s.pipes
    requires s'.pipes == s.pipes[k := q] || (s'.pipes == s.pipes - {k} && !q.readopen && !q.writeopen)
    requires forall u :: IsUser(u) && s'.t[u].state == SLEEPING ==>
      s.t[u].state == SLEEPING && s'.t[u].tmp == s.t[u].tmp && s.t[u].tmp !in woken
    requires ReadOpen(k) in woken || (s.pipes[k].count == 0 && s.pipes[k].writeopen ==> q.count == 0 && q.writeopen)
    requires WriteOpen(k) in woken
      || (s.pipes[k].count == Pipes.PIPESIZE && s.pipes[k].readopen ==> q.count == Pipes.PIPESIZE && q.readopen)
    ensures forall u :: IsUser(u) && s'.t[u].state == SLEEPING ==> MaySleep(s', u, s'.t[u].tmp) || s'.t[u].tmp.ProcAt?
  {
    forall u | IsUser(u) && s'.t[u].state == SLEEPING ensures MaySleep(s', u, s'.t[u].tmp) || s'.t[u].tmp.ProcAt? {
      assert MaySleep(s, u, s.t[u].tmp);
    }
  }

  lemma PipeCloseWorld(s: Sys, s': Sys, k: nat, w: bool)
    requires Shape(s) && Shape(s') && WorldOk(s) && FsServes(s) && k in s.pipes && s' == PipeClose(s, k, w)
    ensures WorldOk(s')
  {
    var ch := if w then ReadOpen(k) else WriteOpen(k);
    WokenPersons(s.t, ch);
    PipeSleepers(s, s', k, Pipes.Closed(s.pipes[k], w), {ch});
    PipesWorld(s, s');
  }

  /** A reader is put to sleep only on an empty pipe that is still written. */
  lemma ReaderSleeps(s: Sys, s': Sys, k: nat, n: nat)
    requires Shape(s) && Shape(s') && PipesOk(s) && FsServes(s) && k in s.pipes && s' == PipeRead(s, k, n)
    ensures PipesOk(s')
    ensures forall m :: Pending(s'.t[TASK_FS], s'.pc[TASK_FS], m) ==> MaySleep(s', m.source, m.p1) && !m.p1.ProcAt?
  {
    PipeFacts(s.pipes[k], n);
  }

  lemma PipeReadWorld(s: Sys, s': Sys, k: nat, n: nat)
    requires Shape(s) && Shape(s') && WorldOk(s) && FsServes(s) && k in s.pipes && s' == PipeRead(s, k, n)
    ensures WorldOk(s')
  {
    hide ForestOk, PidsOk, ExitsOk;
    var p := s.pipes[k];
    PipeFacts(p, n);
    WokenPersons(s.t, WriteOpen(k));
    forall u | IsSlot(u) ensures SamePerson(s.t[u], s'.t[u]) {}
    PipeSleepers(s, s', k, Pipes.AfterRead(p, n), if Pipes.ReadWakes(p, n) then {WriteOpen(k)} else {});
    ReaderSleeps(s, s', k, n);
    PipesWorld(s, s');
  }

  lemma PipeWriteWorld(s: Sys, s': Sys, k: nat, n: nat)
    requires Shape(s) && Shape(s') && WorldOk(s) && FsServes(s) && k in s.pipes && s' == PipeWrite(s, k, n)
    ensures WorldOk(s')
  {
    var p := s.pipes[k];
    PipeFacts(p, n);
    WokenPersons(s.t, ReadOpen(k));
    forall u | IsSlot(u) ensures SamePerson(s.t[u], s'.t[u]) {}
    var woken := if p.readopen then {ReadOpen(k)} else {};
    forall u | IsUser(u) && s'.t[u].state == SLEEPING
      ensures s.t[u].state == SLEEPING && s'.t[u].tmp == s.t[u].tmp && s.t[u].tmp !in woken
    {
    }
    PipeSleepers(s, s', k, Pipes.AfterWrite(p, n), woken);
    WriterSleeps(s, s', k, n);
    PipesWorld(s, s');
  }

  /** A writer is put to sleep only on a full pipe that is still read. */
  lemma WriterSleeps(s: Sys, s': Sys, k: nat, n: nat)
    requires Shape(s) && Shape(s') && PipesOk(s) && FsServes(s) && k in s.pipes && s' == PipeWrite(s, k, n)
    ensures PipesOk(s')
    ensures forall m :: Pending(s'.t[TASK_FS], s'.pc[TASK_FS], m) ==> MaySleep(s', m.source, m.p1) && !m.p1.ProcAt?
  {
    PipeFacts(s.pipes[k], n);
  }
}
