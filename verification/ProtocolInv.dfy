/**
 The invariant of the server protocol, and that every action keeps it. For each process it says what may be in its
 table entry at each place of its code: whom it waits for, which message it holds or has been handed, and for whom
 a server works. The users are clients of one server at a time, MM is a client of FS during a fork or an exit, and
 FS is nobody's client; so wait chains are short and end, and both servers always come back to their receive.
 */
module ProtocolInv {
  import opened ProcTable
  import opened Ipc
  import opened WaitGraph
  import opened Protocol
  import Pipes

  /** The process whose request a server with this table entry and place holds, or -1. */
  function ClientAt(p: Proc, pc: Pc): int {
    match pc
    case Accept(_) => if p.state == RUNNABLE then p.mbuf.source else -1
    case Serve(m) => m.source
    case Forking(m, _) => m.source
    case Calling(m, _) => m.source
    case CallSend(m, _, _) => m.source
    case CallRecv(m, _, _) => m.source
    case Dying(m) => m.source
    case Reply(m) => m.source
    case InReply(m, _) => if p.state == SENDING then m.source else -1
    case _ => -1
  }

  function Client(s: Sys, d: int): int
    requires Shape(s) && IsSlot(d)
  {
    ClientAt(s.t[d], s.pc[d])
  }

  /** A server blocked in recvmsg(ANY). */
  predicate OpenAt(p: Proc, pc: Pc) { pc.Accept? && p.state == RECVING }

  predicate Open(s: Sys, d: int)
    requires Shape(s) && IsSlot(d)
  {
    OpenAt(s.t[d], s.pc[d])
  }

  /** The child being built, or -1. */
  function Child(pc: Pc): int {
    match pc
    case Forking(_, ch) => ch
    case Calling(_, ForkFiles(ch)) => ch
    case CallSend(_, ForkFiles(ch), _) => ch
    case CallRecv(_, ForkFiles(ch), _) => ch
    case _ => -1
  }

  /** The client whose exit is under way, or -1. */
  function Exiting(pc: Pc): int {
    match pc
    case Calling(m, ExitFiles) => m.source
    case CallSend(m, ExitFiles, _) => m.source
    case CallRecv(m, ExitFiles, _) => m.source
    case Dying(m) => m.source
    case _ => -1
  }

  /** What a user process's own state depends on elsewhere. */
  datatype View = View(mmClient: int, fsClient: int, mmOpen: bool, fsOpen: bool, child: int, exiting: int)

  function ViewOf(s: Sys): View
    requires Shape(s)
  {
    View(Client(s, TASK_MM), Client(s, TASK_FS), Open(s, TASK_MM), Open(s, TASK_FS),
         Child(s.pc[TASK_MM]), Exiting(s.pc[TASK_MM]))
  }

  predicate Addressed(m: Msg, dest: int) {
    (dest == TASK_MM && MmRequest(m.typ)) || (dest == TASK_FS && FsRequest(m.typ))
  }

  /** `m` answers request `q`. */
  predicate Answers(m: Msg, q: Msg, d: int) {
    && m.source == d && m.tag == q.tag && q.typ != MSG_EXIT
    && (m.typ == MSG_SYSRET || (m.typ == MSG_BESLEEP && MayRetry(q.typ)))
  }

  predicate NotClient(v: View, u: int) { v.mmClient != u && v.fsClient != u }

  predicate ClientOf(v: View, u: int, d: int) {
    (d == TASK_MM && v.mmClient == u && v.fsClient != u) || (d == TASK_FS && v.fsClient == u && v.mmClient != u)
  }

  predicate UserOk(p: Proc, pc: Pc, q: Msg, u: int, v: View) {
    match p.state
    case UNUSED => NotClient(v, u) && v.child != u
    case ZOMBIE => NotClient(v, u) && v.child != u && q.typ == MSG_EXIT
    case EMBRYO =>
      if v.child == u then NotClient(v, u) else v.exiting == u && ClientOf(v, u, TASK_MM)
    case RUNNABLE =>
      v.child != u && v.exiting != u &&
      (match pc
       case User => NotClient(v, u)
       case InSend(d, b) => ClientOf(v, u, d) && (b ==> p.msgstate == 0) && q.source == u && Addressed(q, d)
       case InRecv(d, b) => NotClient(v, u) && (b ==> p.msgstate == 0) && Answers(p.mbuf, q, d)
       case _ => false)
    case SENDING =>
      && v.child != u && v.exiting != u && NotClient(v, u)
      && pc.InSend? && pc.blocked && IsServer(pc.dest) && p.sendto == pc.dest
      && p.mbuf == q && q.source == u && Addressed(q, pc.dest)
      && !(if pc.dest == TASK_MM then v.mmOpen else v.fsOpen)
    case RECVING =>
      && v.child != u && v.exiting != u
      && pc.InRecv? && pc.blocked && ClientOf(v, u, pc.dest) && p.recvfrom == pc.dest
      && q.source == u && Addressed(q, pc.dest)
    case SLEEPING =>
      && v.child != u && v.exiting != u && NotClient(v, u)
      && pc.InRecv? && p.msgstate == 0 && Answers(p.mbuf, q, pc.dest)
      && p.mbuf.typ == MSG_BESLEEP && p.tmp == p.mbuf.p1 && (p.tmp.ProcAt? ==> p.tmp.slot == u)
      && !p.tmp.Buf? && p.tmp != Null
  }

  ghost predicate UsersOk(s: Sys)
    requires Shape(s)
  {
    forall u :: IsUser(u) ==> UserOk(s.t[u], s.pc[u], s.req[u], u, ViewOf(s))
  }

  /** The message a server holds is its client's request; its reply answers it. */
  predicate Holds(m: Msg, q: Msg, c: int, d: int) {
    m == q && m.source == c && (Addressed(m, d) || (d == TASK_FS && c == TASK_MM
      && (m.typ == MSG_FORK || m.typ == MSG_EXIT)))
  }

  predicate Replies(m: Msg, q: Msg, c: int, d: int) {
    && m.source == c && m.tag == q.tag && q.source == c && (c == TASK_MM || q.typ != MSG_EXIT)
    && (m.typ == MSG_SYSRET
        || (m.typ == MSG_BESLEEP && c != TASK_MM && MayRetry(q.typ) && m.p1 != Null && !m.p1.Buf?
            && (m.p1.ProcAt? ==> m.p1.slot == c)))
  }

  predicate IsClient(c: int, d: int) { IsUser(c) || (c == TASK_MM && d == TASK_FS) }

  /** What a server's own state depends on elsewhere: its client's request and state. */
  datatype Side = Side(q: Msg, state: ProcState)

  function SideOf(s: Sys, d: int): Side
    requires Shape(s) && IsSlot(d)
  {
    var c := Client(s, d);
    if IsSlot(c) then Side(s.req[c], s.t[c].state) else Side(s.req[d], UNUSED)
  }

  /** Where both servers are while they receive and reply. */
  predicate ServerOk(p: Proc, pc: Pc, d: int, e: Side) {
    var c := ClientAt(p, pc);
    match pc
    case Top => p.state == RUNNABLE
    case Accept(b) =>
      (p.state == RECVING && b && p.recvfrom == ANY) ||
      (p.state == RUNNABLE && IsClient(c, d) && Holds(p.mbuf, e.q, c, d))
    case Serve(m) =>
      && (p.state == RUNNABLE || (d == TASK_FS && p.state == SLEEPING && p.tmp.Buf?))
      && IsClient(c, d) && Holds(m, e.q, c, d)
    case Reply(m) => p.state == RUNNABLE && IsClient(c, d) && Replies(m, e.q, c, d)
    case InReply(m, b) =>
      p.state == RUNNABLE ||
      (p.state == SENDING && b && p.sendto == m.source && p.mbuf == m.(source := d)
       && IsClient(c, d) && Replies(m, e.q, c, d) && e.state != RECVING && e.state != SENDING)
    case _ => d == TASK_MM
  }

  /** MM's own places: fork, exit, and its calls to FS; `q` is MM's last request. */
  predicate MmOk(p: Proc, pc: Pc, q: Msg, served: bool, fsOpen: bool, e: Side, child: ProcState) {
    match pc
    case Forking(m, ch) => p.state == RUNNABLE && ForkOk(m, ch, e, child) && !served
    case Calling(m, call) => p.state == RUNNABLE && NestedOk(m, call, e, child) && !served
    case CallSend(m, call, b) =>
      && NestedOk(m, call, e, child) && q.source == TASK_MM && (q.typ == MSG_FORK || q.typ == MSG_EXIT)
      && ((p.state == SENDING && b && p.sendto == TASK_FS && p.mbuf == q && !served && !fsOpen)
          || (p.state == RUNNABLE && (b ==> p.msgstate == 0) && served))
    case CallRecv(m, call, b) =>
      && NestedOk(m, call, e, child) && q.source == TASK_MM && (q.typ == MSG_FORK || q.typ == MSG_EXIT)
      && ((p.state == RECVING && b && p.recvfrom == TASK_FS && served)
          || (p.state == RUNNABLE && (b ==> p.msgstate == 0) && p.mbuf.typ == MSG_SYSRET && !served))
    case Dying(m) => p.state == RUNNABLE && ExitOk(m, e) && !served
    case WakeParent(z) => p.state == RUNNABLE && IsUser(z) && child == ZOMBIE && !served
    case Top => !served
    case Accept(_) => !served
    case Serve(_) => !served
    case Reply(_) => !served
    case InReply(_, _) => !served
    case _ => false
  }

  predicate ForkOk(m: Msg, ch: int, e: Side, child: ProcState) {
    IsUser(m.source) && m == e.q && m.typ == MSG_FORK && IsUser(ch) && ch != m.source && child == EMBRYO
  }

  predicate ExitOk(m: Msg, e: Side) {
    IsUser(m.source) && m == e.q && m.typ == MSG_EXIT && e.state == EMBRYO
  }

  predicate NestedOk(m: Msg, call: Nested, e: Side, child: ProcState) {
    match call
    case ForkFiles(ch) => ForkOk(m, ch, e, child)
    case ExitFiles => ExitOk(m, e)
  }

  /** The state of the child MM is building or has just buried. */
  function ChildState(s: Sys): ProcState
    requires Shape(s)
  {
    var ch := if s.pc[TASK_MM].WakeParent? then s.pc[TASK_MM].child else Child(s.pc[TASK_MM]);
    if IsSlot(ch) then s.t[ch].state else UNUSED
  }

  ghost predicate FsSideOk(s: Sys)
    requires Shape(s)
  {
    ServerOk(s.t[TASK_FS], s.pc[TASK_FS], TASK_FS, SideOf(s, TASK_FS))
  }

  ghost predicate MmSideOk(s: Sys)
    requires Shape(s)
  {
    ServerOk(s.t[TASK_MM], s.pc[TASK_MM], TASK_MM, SideOf(s, TASK_MM))
  }

  ghost predicate MmPlaceOk(s: Sys)
    requires Shape(s)
  {
    MmOk(s.t[TASK_MM], s.pc[TASK_MM], s.req[TASK_MM], Client(s, TASK_FS) == TASK_MM, Open(s, TASK_FS),
         SideOf(s, TASK_MM), ChildState(s))
  }

  ghost predicate ServersOk(s: Sys)
    requires Shape(s)
  {
    MmSideOk(s) && FsSideOk(s) && MmPlaceOk(s)
  }

  ghost predicate TasksOk(s: Sys)
    requires Shape(s)
  {
    && s.pc[TASK_IDLE] == Idle && s.t[TASK_IDLE].state == RUNNABLE
    && ((s.pc[TASK_SYS] == Top && s.t[TASK_SYS].state == RUNNABLE)
        || (s.pc[TASK_SYS] == Accept(true) && s.t[TASK_SYS].state == RECVING && s.t[TASK_SYS].recvfrom == ANY))
  }

  /** The rendezvous part of the invariant. */
  ghost predicate CallsOk(s: Sys) {
    && Shape(s) && !s.panicked && TasksOk(s) && UsersOk(s) && ServersOk(s)
  }

  lemma UserIs(s: Sys, u: int)
    requires Shape(s) && UsersOk(s) && IsUser(u)
    ensures UserOk(s.t[u], s.pc[u], s.req[u], u, ViewOf(s))
  {
  }

  // No call of the protocol ever closes a chain of waiting processes

  lemma ShortSendChain(t: Table, p: int, d: int)
    requires TableOk(t) && IsSlot(p) && IsSlot(d)
    requires t[d].state == SENDING ==>
      var e := t[d].sendto;
      e != p && (t[e].state == SENDING ==> t[e].sendto != p && t[t[e].sendto].state != SENDING)
    ensures !Hits(SendEdges(t), d, p)
  {
    var next := SendEdges(t);
    HitsStep(next, d, p);
    if t[d].state == SENDING {
      var e := t[d].sendto;
      HitsStep(next, e, p);
      if t[e].state == SENDING {
        HitsStep(next, t[e].sendto, p);
      }
    }
  }

  lemma ShortRecvChain(t: Table, p: int, d: int)
    requires TableOk(t) && IsSlot(p) && IsSlot(d)
    requires t[d].state == RECVING ==>
      var e := t[d].recvfrom; e != ANY && e != p && t[e].state != RECVING
    ensures !Hits(RecvEdges(t), d, p)
  {
    var next := RecvEdges(t);
    HitsStep(next, d, p);
    if t[d].state == RECVING {
      HitsStep(next, t[d].recvfrom, p);
    }
  }

  lemma NoSendDeadlock(s: Sys, p: int, d: int)
    requires CallsOk(s) && Runs(s, p) && IsServer(d)
    requires Client(s, TASK_MM) != p && Client(s, TASK_FS) != p
    requires IsUser(p) || (p == TASK_MM && d == TASK_FS)
    ensures !Hits(SendEdges(s.t), d, p)
  {
    ShortSendChain(s.t, p, d);
  }

  lemma NoReplyDeadlock(s: Sys, d: int)
    requires CallsOk(s) && IsServer(d) && s.pc[d].Reply?
    ensures var c := s.pc[d].m.source; IsSlot(c) && !Hits(SendEdges(s.t), c, d)
  {
    hide UsersOk;
    var c := s.pc[d].m.source;
    if IsUser(c) {
      UserIs(s, c);
    }
    ShortSendChain(s.t, d, c);
  }

  /** A user's own state does not notice a change elsewhere that leaves these facts alone. */
  lemma UserKept(p: Proc, pc: Pc, q: Msg, u: int, v: View, w: View)
    requires UserOk(p, pc, q, u, v)
    requires (v.mmClient == u) == (w.mmClient == u) && (v.fsClient == u) == (w.fsClient == u)
    requires (v.child == u) == (w.child == u) && (v.exiting == u) == (w.exiting == u)
    requires p.state == SENDING && p.sendto == TASK_MM ==> !w.mmOpen
    requires p.state == SENDING && p.sendto == TASK_FS ==> !w.fsOpen
    ensures UserOk(p, pc, q, u, w)
  {
  }

  /** The table after a send that does not panic. */
  function SentTable(t: Table, me: int, dest: int, m: Msg): Table
    requires TableOk(t) && IsSlot(me) && IsSlot(dest)
  {
    if Waiting(t, dest, me) then t[dest := Delivered(t[dest], m)]
    else t[me := t[me].(state := SENDING, mbuf := m, sendto := dest, msgstate := -1)]
  }

  // Users

  predicate UserSent(s: Sys, s': Sys, u: int, dest: int, m: Msg)
    requires Shape(s)
  {
    && IsUser(u) && Runs(s, u) && s.pc[u] == User
    && m.source == u && Addressed(m, dest)
    && s'.t == SentTable(s.t, u, dest, m)
    && s'.pc == s.pc[u := InSend(dest, !Waiting(s.t, dest, u))]
    && s'.req == s.req[u := m] && s'.panicked == s.panicked
  }

  lemma UserSendUsers(s: Sys, s': Sys, u: int, dest: int, m: Msg)
    requires Shape(s) && UsersOk(s) && ServersOk(s) && UserSent(s, s', u, dest, m)
    ensures Shape(s') && UsersOk(s')
  {
    assert UserOk(s.t[u], s.pc[u], s.req[u], u, ViewOf(s));
    var v, v' := ViewOf(s), ViewOf(s');
    forall w | IsUser(w) ensures UserOk(s'.t[w], s'.pc[w], s'.req[w], w, v') {
      assert UserOk(s.t[w], s.pc[w], s.req[w], w, v);
      if w != u {
        UserKept(s.t[w], s.pc[w], s.req[w], w, v, v');
      }
    }
  }

  lemma UserSendFs(s: Sys, s': Sys, u: int, dest: int, m: Msg)
    requires Shape(s) && ServersOk(s) && UserSent(s, s', u, dest, m) && NotClient(ViewOf(s), u)
    requires Child(s.pc[TASK_MM]) != u && (s.pc[TASK_MM].WakeParent? ==> s.pc[TASK_MM].child != u)
    ensures Shape(s') && FsSideOk(s')
  {
  }

  lemma UserSendMm(s: Sys, s': Sys, u: int, dest: int, m: Msg)
    requires Shape(s) && ServersOk(s) && UserSent(s, s', u, dest, m) && NotClient(ViewOf(s), u)
    requires Child(s.pc[TASK_MM]) != u && (s.pc[TASK_MM].WakeParent? ==> s.pc[TASK_MM].child != u)
    ensures Shape(s') && MmSideOk(s') && MmPlaceOk(s')
  {
  }

  lemma UserSendIs(s: Sys, u: int, dest: int, m: Msg)
    requires CallsOk(s) && IsUser(u) && Runs(s, u) && s.pc[u] == User
    requires m.source == u && Addressed(m, dest)
    ensures UserSent(s, UserSends(s, u, dest, m), u, dest, m) && NotClient(ViewOf(s), u)
    ensures Child(s.pc[TASK_MM]) != u && (s.pc[TASK_MM].WakeParent? ==> s.pc[TASK_MM].child != u)
  {
    hide UsersOk;
    UserIs(s, u);
    NoSendDeadlock(s, u, dest);
  }

  lemma UserSendKeeps(s: Sys, u: int, dest: int, m: Msg)
    requires CallsOk(s) && IsUser(u) && Runs(s, u) && s.pc[u] == User
    requires m.source == u && Addressed(m, dest)
    ensures CallsOk(UserSends(s, u, dest, m))
  {
    hide UsersOk, MmSideOk, MmPlaceOk, FsSideOk, UserSends;
    var s' := UserSends(s, u, dest, m);
    UserSendIs(s, u, dest, m);
    UserSendUsers(s, s', u, dest, m);
    UserSendFs(s, s', u, dest, m);
    UserSendMm(s, s', u, dest, m);
  }

  /** The table after a receive from `p`, which was SENDING: the Intended one. */
  function ReceivedTable(t: Table, me: int, p: int): Table
    requires TableOk(t) && IsSlot(me) && IsSlot(p)
  {
    var m := t[p].mbuf;
    var r := t[me := t[me].(mbuf := m)][p := t[p].(state := RUNNABLE, msgstate := 0)];
    if m.typ == MSG_BESLEEP then r[me := r[me].(state := SLEEPING, tmp := m.p1, msgstate := 0)] else r
  }

  function WaitingTable(t: Table, me: int, source: int): Table
    requires TableOk(t) && IsSlot(me)
  {
    t[me := t[me].(state := RECVING, recvfrom := source, msgstate := -1)]
  }

  lemma RecvIs(t: Table, me: int, source: int)
    requires TableOk(t) && IsSlot(me) && (IsSlot(source) || source == ANY) && me != source
    requires t[me].state == RUNNABLE && (source != ANY ==> !Hits(RecvEdges(t), source, me))
    ensures var st := RecvStep(Intended, t, me, source); var p := SenderOf(t, me, source);
      && (p == NPROC ==> st == Step(Blocked, WaitingTable(t, me, source)))
      && (p != NPROC ==> st.table == ReceivedTable(t, me, p)
                         && st.outcome == if t[p].mbuf.typ == MSG_BESLEEP then Blocked else Returned)
  {
    var p := SenderOf(t, me, source);
    if p != NPROC {
      assert RecvStep(Intended, t, me, source).table == ReceivedTable(t, me, p);
    }
  }

  predicate UserGot(s: Sys, s': Sys, u: int)
    requires Shape(s)
  {
    && IsUser(u) && Runs(s, u) && s.pc[u].InSend? && IsServer(s.pc[u].dest)
    && var d := s.pc[u].dest;
      && s'.req == s.req && s'.panicked == s.panicked
      && (if Offering(s.t, d, u)
          then s'.t == ReceivedTable(s.t, u, d) && s'.pc == s.pc[u := InRecv(d, s.t[d].mbuf.typ == MSG_BESLEEP)]
          else s'.t == WaitingTable(s.t, u, d) && s'.pc == s.pc[u := InRecv(d, true)])
  }

  lemma UserRecvOther(s: Sys, s': Sys, u: int, w: int)
    requires Shape(s) && Shape(s') && ServersOk(s) && UserGot(s, s', u) && IsUser(w)
    requires UserOk(s.t[u], s.pc[u], s.req[u], u, ViewOf(s)) && UserOk(s.t[w], s.pc[w], s.req[w], w, ViewOf(s))
    ensures UserOk(s'.t[w], s'.pc[w], s'.req[w], w, ViewOf(s'))
  {
    if w != u {
      UserKept(s.t[w], s.pc[w], s.req[w], w, ViewOf(s), ViewOf(s'));
    }
  }

  lemma UserRecvUsers(s: Sys, s': Sys, u: int)
    requires Shape(s) && UsersOk(s) && ServersOk(s) && UserGot(s, s', u)
    ensures Shape(s') && UsersOk(s')
  {
    hide UserOk, ServersOk, ViewOf;
    forall w | IsUser(w) ensures UserOk(s'.t[w], s'.pc[w], s'.req[w], w, ViewOf(s')) {
      UserRecvOther(s, s', u, w);
    }
  }

  lemma UserRecvFs(s: Sys, s': Sys, u: int)
    requires Shape(s) && ServersOk(s) && UserGot(s, s', u) && ClientOf(ViewOf(s), u, s.pc[u].dest)
    requires Child(s.pc[TASK_MM]) != u && (s.pc[TASK_MM].WakeParent? ==> s.pc[TASK_MM].child != u)
    requires Exiting(s.pc[TASK_MM]) != u
    ensures Shape(s') && FsSideOk(s')
  {
  }

  lemma UserRecvMmSide(s: Sys, s': Sys, u: int)
    requires Shape(s) && ServersOk(s) && UserGot(s, s', u) && ClientOf(ViewOf(s), u, s.pc[u].dest)
    requires Child(s.pc[TASK_MM]) != u && (s.pc[TASK_MM].WakeParent? ==> s.pc[TASK_MM].child != u)
    requires Exiting(s.pc[TASK_MM]) != u
    ensures Shape(s') && MmSideOk(s')
  {
    hide FsSideOk, MmPlaceOk;
  }

  lemma FsToUserMmPlace(s: Sys, s': Sys, u: int)
    requires Shape(s) && ServersOk(s) && UserGot(s, s', u) && ClientOf(ViewOf(s), u, s.pc[u].dest)
    requires Child(s.pc[TASK_MM]) != u && (s.pc[TASK_MM].WakeParent? ==> s.pc[TASK_MM].child != u)
    requires Exiting(s.pc[TASK_MM]) != u
    requires s.pc[u].dest == TASK_FS
    ensures Shape(s') && MmPlaceOk(s')
  {
    hide MmSideOk;
  }

  lemma UserRecvMmPlace(s: Sys, s': Sys, u: int)
    requires Shape(s) && ServersOk(s) && UserGot(s, s', u) && ClientOf(ViewOf(s), u, s.pc[u].dest)
    requires Child(s.pc[TASK_MM]) != u && (s.pc[TASK_MM].WakeParent? ==> s.pc[TASK_MM].child != u)
    requires Exiting(s.pc[TASK_MM]) != u
    ensures Shape(s') && MmPlaceOk(s')
  {
    if s.pc[u].dest == TASK_FS {
      FsToUserMmPlace(s, s', u);
    } else {
      hide FsSideOk;
    }
  }

  lemma UserRecvIs(s: Sys, u: int)
    requires CallsOk(s) && IsUser(u) && Runs(s, u) && s.pc[u].InSend? && IsServer(s.pc[u].dest)
    ensures UserGot(s, UserReceives(Intended, s, u), u) && ClientOf(ViewOf(s), u, s.pc[u].dest)
    ensures Child(s.pc[TASK_MM]) != u && (s.pc[TASK_MM].WakeParent? ==> s.pc[TASK_MM].child != u)
    ensures Exiting(s.pc[TASK_MM]) != u
  {
    hide UsersOk;
    UserIs(s, u);
    ShortRecvChain(s.t, u, s.pc[u].dest);
    RecvIs(s.t, u, s.pc[u].dest);
  }

  lemma UserRecvTasks(s: Sys, s': Sys, u: int)
    requires Shape(s) && TasksOk(s) && UserGot(s, s', u) && ServersOk(s) && ClientOf(ViewOf(s), u, s.pc[u].dest)
    ensures Shape(s') && TasksOk(s')
  {
    hide MmPlaceOk;
  }

  lemma UserRecvKeeps(s: Sys, u: int)
    requires CallsOk(s) && IsUser(u) && Runs(s, u) && s.pc[u].InSend? && IsServer(s.pc[u].dest)
    ensures CallsOk(UserReceives(Intended, s, u))
  {
    hide UsersOk, MmSideOk, MmPlaceOk, FsSideOk, TasksOk, UserReceives;
    var s' := UserReceives(Intended, s, u);
    UserRecvIs(s, u);
    UserRecvUsers(s, s', u);
    UserRecvFs(s, s', u);
    UserRecvMmSide(s, s', u);
    UserRecvMmPlace(s, s', u);
    UserRecvTasks(s, s', u);
  }

  lemma UserDoneKeeps(s: Sys, u: int)
    requires CallsOk(s) && IsUser(u) && Runs(s, u) && s.pc[u].InRecv?
    ensures CallsOk(UserReturns(s, u))
  {
    var s' := UserReturns(s, u);
    var v, v' := ViewOf(s), ViewOf(s');
    assert UserOk(s.t[u], s.pc[u], s.req[u], u, v);
    forall w | IsUser(w) ensures UserOk(s'.t[w], s'.pc[w], s'.req[w], w, v') {
      assert UserOk(s.t[w], s.pc[w], s.req[w], w, v);
    }
  }

  // Servers receive and reply

  lemma Offerer(s: Sys, d: int, p: int)
    requires Shape(s) && TasksOk(s) && UsersOk(s) && ServersOk(s)
    requires (IsServer(d) || d == TASK_SYS) && s.pc[d] == Top && IsSlot(p) && Offering(s.t, p, d)
    ensures IsServer(d) && IsClient(p, d) && Holds(s.t[p].mbuf, s.req[p], p, d)
    ensures s.t[p].mbuf.typ != MSG_BESLEEP
    ensures p == TASK_MM ==> s.pc[p].CallSend? && s.pc[p].blocked
    ensures Client(s, TASK_MM) != p && (p == TASK_MM ==> Client(s, TASK_FS) != p)
  {
    hide UsersOk;
    if IsUser(p) {
      UserIs(s, p);
    }
  }

  ghost predicate ServerGotRequest(s: Sys, s': Sys, d: int, p: int)
    requires Shape(s)
  {
    && IsServer(d) && Runs(s, d) && s.pc[d] == Top && s'.req == s.req && s'.panicked == s.panicked
    && (if IsSlot(p)
        then Offering(s.t, p, d) && IsClient(p, d) && Holds(s.t[p].mbuf, s.req[p], p, d)
             && s.t[p].mbuf.typ != MSG_BESLEEP && s'.t == ReceivedTable(s.t, d, p) && s'.pc == s.pc[d := Accept(false)]
        else (forall q :: IsSlot(q) ==> !Offering(s.t, q, d))
             && s'.t == WaitingTable(s.t, d, ANY) && s'.pc == s.pc[d := Accept(true)])
  }

  lemma ServerRecvOther(s: Sys, s': Sys, d: int, p: int, w: int)
    requires Shape(s) && Shape(s') && ServersOk(s) && ServerGotRequest(s, s', d, p) && IsUser(w)
    requires UserOk(s.t[w], s.pc[w], s.req[w], w, ViewOf(s))
    ensures UserOk(s'.t[w], s'.pc[w], s'.req[w], w, ViewOf(s'))
  {
    assert !IsSlot(p) ==> !Offering(s.t, w, d);
    if w != p {
      UserKept(s.t[w], s.pc[w], s.req[w], w, ViewOf(s), ViewOf(s'));
    }
  }

  lemma ServerRecvUsers(s: Sys, s': Sys, d: int, p: int)
    requires Shape(s) && UsersOk(s) && ServersOk(s) && ServerGotRequest(s, s', d, p)
    ensures Shape(s') && UsersOk(s')
  {
    hide UserOk, ServersOk, ViewOf;
    forall w | IsUser(w) ensures UserOk(s'.t[w], s'.pc[w], s'.req[w], w, ViewOf(s')) {
      ServerRecvOther(s, s', d, p, w);
    }
  }

  lemma ServerRecvFs(s: Sys, s': Sys, d: int, p: int)
    requires Shape(s) && ServersOk(s) && ServerGotRequest(s, s', d, p)
    requires IsSlot(p) ==> Client(s, TASK_FS) != p
    ensures Shape(s') && FsSideOk(s')
  {
  }

  lemma ServerRecvMmSide(s: Sys, s': Sys, d: int, p: int)
    requires Shape(s) && ServersOk(s) && ServerGotRequest(s, s', d, p)
    requires IsSlot(p) ==> Client(s, TASK_MM) != p && p != Child(s.pc[TASK_MM])
    requires s.pc[TASK_MM].WakeParent? ==> p != s.pc[TASK_MM].child
    ensures Shape(s') && MmSideOk(s')
  {
    hide FsSideOk, MmPlaceOk;
  }

  lemma FsRecvMmPlace(s: Sys, s': Sys, p: int)
    requires Shape(s) && ServersOk(s) && ServerGotRequest(s, s', TASK_FS, p)
    requires IsSlot(p) ==> Client(s, TASK_MM) != p && p != Child(s.pc[TASK_MM])
    requires s.pc[TASK_MM].WakeParent? ==> p != s.pc[TASK_MM].child
    ensures Shape(s') && MmPlaceOk(s')
  {
    if p == TASK_MM {
      FsTakesCall(s, s');
    } else {
      assert !IsSlot(p) ==> !Offering(s.t, TASK_MM, TASK_FS);
    }
  }

  lemma FsTakesCall(s: Sys, s': Sys)
    requires Shape(s) && ServersOk(s) && ServerGotRequest(s, s', TASK_FS, TASK_MM)
    ensures Shape(s') && MmPlaceOk(s')
  {
    hide FsSideOk;
  }

  lemma ServerRecvMmPlace(s: Sys, s': Sys, d: int, p: int)
    requires Shape(s) && ServersOk(s) && ServerGotRequest(s, s', d, p)
    requires IsSlot(p) ==> Client(s, TASK_MM) != p && p != Child(s.pc[TASK_MM])
    requires s.pc[TASK_MM].WakeParent? ==> p != s.pc[TASK_MM].child
    ensures Shape(s') && MmPlaceOk(s')
  {
    if d == TASK_FS {
      FsRecvMmPlace(s, s', p);
    } else {
      hide FsSideOk, MmSideOk;
    }
  }

  /** What a server's receive does. */
  lemma ServerRecvIs(s: Sys, d: int)
    requires CallsOk(s) && IsServer(d) && Runs(s, d) && s.pc[d] == Top
    ensures var s', p := Receiving(Intended, s, d, ANY, b => Accept(b)), SenderOf(s.t, d, ANY);
      && ServerGotRequest(s, s', d, p)
      && (IsSlot(p) ==> Client(s, TASK_FS) != p && Client(s, TASK_MM) != p && p != Child(s.pc[TASK_MM]))
      && (s.pc[TASK_MM].WakeParent? ==> p != s.pc[TASK_MM].child)
  {
    hide UsersOk;
    var p := SenderOf(s.t, d, ANY);
    RecvIs(s.t, d, ANY);
    if IsSlot(p) {
      Offerer(s, d, p);
      if IsUser(p) {
        UserIs(s, p);
      }
    }
  }

  lemma ServerRecvTasks(s: Sys, s': Sys, d: int, p: int)
    requires Shape(s) && TasksOk(s) && ServerGotRequest(s, s', d, p)
    ensures Shape(s') && TasksOk(s')
  {
  }

  lemma SysRecvIs(s: Sys)
    requires CallsOk(s) && Runs(s, TASK_SYS) && s.pc[TASK_SYS] == Top
    ensures var s' := Receiving(Intended, s, TASK_SYS, ANY, b => Accept(b));
      && s'.t == WaitingTable(s.t, TASK_SYS, ANY) && s'.pc == s.pc[TASK_SYS := Accept(true)]
      && s'.req == s.req && s'.panicked == s.panicked
  {
    hide UsersOk;
    var p := SenderOf(s.t, TASK_SYS, ANY);
    RecvIs(s.t, TASK_SYS, ANY);
    if IsSlot(p) {
      Offerer(s, TASK_SYS, p);
    }
  }

  lemma ServerRecvKeeps(s: Sys, d: int)
    requires CallsOk(s) && (IsServer(d) || d == TASK_SYS) && Runs(s, d) && s.pc[d] == Top
    ensures CallsOk(Receiving(Intended, s, d, ANY, b => Accept(b)))
  {
    hide UsersOk, MmSideOk, MmPlaceOk, FsSideOk, TasksOk, Receiving;
    var s', p := Receiving(Intended, s, d, ANY, b => Accept(b)), SenderOf(s.t, d, ANY);
    if d == TASK_SYS {
      SysRecvIs(s);
      SysRecvKeeps(s, s');
    } else {
      ServerRecvIs(s, d);
      ServerRecvUsers(s, s', d, p);
      ServerRecvFs(s, s', d, p);
      ServerRecvMmSide(s, s', d, p);
      ServerRecvMmPlace(s, s', d, p);
      ServerRecvTasks(s, s', d, p);
    }
  }

  lemma SysRecvKeeps(s: Sys, s': Sys)
    requires CallsOk(s) && Runs(s, TASK_SYS) && s.pc[TASK_SYS] == Top
    requires s'.t == WaitingTable(s.t, TASK_SYS, ANY) && s'.pc == s.pc[TASK_SYS := Accept(true)]
    requires s'.req == s.req && s'.panicked == s.panicked
    ensures CallsOk(s')
  {
    var v, v' := ViewOf(s), ViewOf(s');
    forall w | IsUser(w) ensures UserOk(s'.t[w], s'.pc[w], s'.req[w], w, v') {
      assert UserOk(s.t[w], s.pc[w], s.req[w], w, v);
    }
  }

  /** A step that changes only the place of server `d`, not whom it serves. */
  lemma PlaceChange(s: Sys, s': Sys, d: int)
    requires Shape(s) && UsersOk(s) && IsServer(d)
    requires s'.t == s.t && s'.req == s.req && |s'.pc| == NPROC && s'.pc == s.pc[d := s'.pc[d]]
    requires ViewOf(s') == ViewOf(s)
    ensures Shape(s') && UsersOk(s')
  {
    forall w | IsUser(w) ensures UserOk(s'.t[w], s'.pc[w], s'.req[w], w, ViewOf(s')) {
      assert UserOk(s.t[w], s.pc[w], s.req[w], w, ViewOf(s));
    }
  }

  lemma ServerGotKeeps(s: Sys, d: int)
    requires CallsOk(s) && IsServer(d) && Runs(s, d) && s.pc[d].Accept?
    ensures CallsOk(ServerGets(s, d))
  {
    PlaceChange(s, ServerGets(s, d), d);
  }

  lemma ServerLoopKeeps(s: Sys, d: int)
    requires CallsOk(s) && IsServer(d) && Runs(s, d) && s.pc[d].InReply?
    ensures CallsOk(s.(pc := s.pc[d := Top]))
  {
    PlaceChange(s, s.(pc := s.pc[d := Top]), d);
  }

  predicate Replied(s: Sys, s': Sys, d: int)
    requires Shape(s)
  {
    && IsServer(d) && Runs(s, d) && s.pc[d].Reply? && s'.req == s.req && s'.panicked == s.panicked
    && var m := s.pc[d].m; var c := m.source;
      && IsSlot(c) && s'.t == SentTable(s.t, d, c, m.(source := d))
      && s'.pc == s.pc[d := InReply(m, !Waiting(s.t, c, d))]
  }

  lemma ReplyUsers(s: Sys, s': Sys, d: int)
    requires Shape(s) && UsersOk(s) && ServersOk(s) && Replied(s, s', d)
    ensures Shape(s') && UsersOk(s')
  {
    var v, v' := ViewOf(s), ViewOf(s');
    var c := s.pc[d].m.source;
    forall w | IsUser(w) ensures UserOk(s'.t[w], s'.pc[w], s'.req[w], w, v') {
      assert UserOk(s.t[w], s.pc[w], s.req[w], w, v);
      if w != c {
        UserKept(s.t[w], s.pc[w], s.req[w], w, v, v');
      }
    }
  }

  lemma ReplyFs(s: Sys, s': Sys, d: int)
    requires Shape(s) && ServersOk(s) && Replied(s, s', d)
    requires var c := s.pc[d].m.source; IsUser(c) ==> UserOk(s.t[c], s.pc[c], s.req[c], c, ViewOf(s))
    ensures Shape(s') && FsSideOk(s')
  {
  }

  lemma ReplyMmSide(s: Sys, s': Sys, d: int)
    requires Shape(s) && ServersOk(s) && Replied(s, s', d)
    requires var c := s.pc[d].m.source; IsUser(c) ==> UserOk(s.t[c], s.pc[c], s.req[c], c, ViewOf(s))
    requires s.pc[TASK_MM].WakeParent? ==> s.t[s.pc[TASK_MM].child].state == ZOMBIE
    ensures Shape(s') && MmSideOk(s')
  {
    hide FsSideOk;
  }

  lemma ReplyMmPlace(s: Sys, s': Sys, d: int)
    requires Shape(s) && ServersOk(s) && Replied(s, s', d)
    requires var c := s.pc[d].m.source; IsUser(c) ==> UserOk(s.t[c], s.pc[c], s.req[c], c, ViewOf(s))
    requires s.pc[TASK_MM].WakeParent? ==> s.t[s.pc[TASK_MM].child].state == ZOMBIE
    ensures Shape(s') && MmPlaceOk(s')
  {
    if d == TASK_FS && s.pc[TASK_FS].m.source == TASK_MM {
      FsAnswersMm(s, s');
    } else if d == TASK_FS {
      FsAnswersUser(s, s');
    } else {
      hide FsSideOk;
    }
  }

  lemma FsAnswersMm(s: Sys, s': Sys)
    requires Shape(s) && ServersOk(s) && Replied(s, s', TASK_FS) && s.pc[TASK_FS].m.source == TASK_MM
    ensures Shape(s') && MmPlaceOk(s')
  {
    hide MmSideOk;
  }

  lemma FsAnswersUser(s: Sys, s': Sys)
    requires Shape(s) && ServersOk(s) && Replied(s, s', TASK_FS) && s.pc[TASK_FS].m.source != TASK_MM
    requires var c := s.pc[TASK_FS].m.source; UserOk(s.t[c], s.pc[c], s.req[c], c, ViewOf(s))
    requires s.pc[TASK_MM].WakeParent? ==> s.t[s.pc[TASK_MM].child].state == ZOMBIE
    ensures Shape(s') && MmPlaceOk(s')
  {
    hide MmSideOk;
  }

  lemma ReplyIs(s: Sys, d: int)
    requires CallsOk(s) && IsServer(d) && Runs(s, d) && s.pc[d].Reply?
    ensures IsSlot(s.pc[d].m.source) && Replied(s, ServerReplies(s, d), d)
    ensures s.pc[TASK_MM].WakeParent? ==> s.t[s.pc[TASK_MM].child].state == ZOMBIE
    ensures var c := s.pc[d].m.source; IsUser(c) ==> UserOk(s.t[c], s.pc[c], s.req[c], c, ViewOf(s))
  {
    hide UsersOk;
    NoReplyDeadlock(s, d);
    var c := s.pc[d].m.source;
    if IsUser(c) {
      UserIs(s, c);
    }
  }

  lemma ReplyTasks(s: Sys, s': Sys, d: int)
    requires Shape(s) && TasksOk(s) && ServersOk(s) && Replied(s, s', d)
    requires var c := s.pc[d].m.source; IsUser(c) ==> UserOk(s.t[c], s.pc[c], s.req[c], c, ViewOf(s))
    ensures Shape(s') && TasksOk(s')
  {
    hide MmPlaceOk;
  }

  lemma ServerReplyKeeps(s: Sys, d: int)
    requires CallsOk(s) && IsServer(d) && Runs(s, d) && s.pc[d].Reply?
    ensures IsSlot(s.pc[d].m.source) && CallsOk(ServerReplies(s, d))
  {
    hide UsersOk, MmSideOk, MmPlaceOk, FsSideOk, TasksOk, ServerReplies, UserOk;
    ReplyIs(s, d);
    var s' := ServerReplies(s, d);
    ReplyUsers(s, s', d);
    ReplyFs(s, s', d);
    ReplyMmSide(s, s', d);
    ReplyMmPlace(s, s', d);
    ReplyTasks(s, s', d);
  }

  // MM serves

  lemma AnswerKeeps(s: Sys, s': Sys, d: int, m: Msg)
    requires CallsOk(s) && IsServer(d) && Runs(s, d) && s.pc[d].Serve?
    requires Replies(m, s.req[Client(s, d)], Client(s, d), d)
    requires s'.t == s.t && s'.pc == s.pc[d := Reply(m)] && s'.req == s.req && s'.panicked == s.panicked
    ensures CallsOk(s')
  {
    hide UsersOk;
    PlaceChange(s, s', d);
  }

  /** MM changes table entry `x` and moves to another place with the same client. */
  lemma MmUsers(s: Sys, s': Sys, x: int)
    requires CallsOk(s) && IsUser(x) && |s'.pc| == NPROC && |s'.t| == NPROC
    requires s'.t == s.t[x := s'.t[x]] && s'.pc == s.pc[x := s'.pc[x]][TASK_MM := s'.pc[TASK_MM]] && s'.req == s.req
    requires Shape(s') && UserOk(s'.t[x], s'.pc[x], s'.req[x], x, ViewOf(s'))
    requires var v, v' := ViewOf(s), ViewOf(s');
      && v'.mmClient in {v.mmClient, -1, x} && v.mmClient in {v'.mmClient, -1, x}
      && v'.fsClient == v.fsClient && v'.mmOpen == v.mmOpen && v'.fsOpen == v.fsOpen
      && v'.child in {v.child, -1, x} && v.child in {v'.child, -1, x}
      && v'.exiting in {v.exiting, -1, x} && v.exiting in {v'.exiting, -1, x}
    ensures UsersOk(s')
  {
    forall w | IsUser(w) ensures UserOk(s'.t[w], s'.pc[w], s'.req[w], w, ViewOf(s')) {
      assert UserOk(s.t[w], s.pc[w], s.req[w], w, ViewOf(s));
      if w != x {
        UserKept(s.t[w], s.pc[w], s.req[w], w, ViewOf(s), ViewOf(s'));
      }
    }
  }

  /** The other server does not notice it. */
  lemma MmElsewhere(s: Sys, s': Sys, x: int)
    requires CallsOk(s) && IsUser(x) && |s'.pc| == NPROC && |s'.t| == NPROC && Shape(s') && Client(s, TASK_FS) != x
    requires s'.t == s.t[x := s'.t[x]] && s'.pc == s.pc[x := s'.pc[x]][TASK_MM := s'.pc[TASK_MM]] && s'.req == s.req
    ensures FsSideOk(s') && TasksOk(s')
  {
    hide UsersOk, MmSideOk, MmPlaceOk;
  }

  /** The tasks are always there. */
  lemma TasksLive(s: Sys)
    requires CallsOk(s)
    ensures forall p :: 0 <= p < INIT ==> s.t[p].state != UNUSED && s.t[p].state != ZOMBIE && s.t[p].state != EMBRYO
  {
    hide UsersOk;
    assert s.t[TASK_MM].state != UNUSED && s.t[TASK_MM].state != ZOMBIE && s.t[TASK_MM].state != EMBRYO;
    assert s.t[TASK_FS].state != UNUSED && s.t[TASK_FS].state != ZOMBIE && s.t[TASK_FS].state != EMBRYO;
  }

  lemma ForkAllocKeeps(s: Sys, ok: bool)
    requires CallsOk(s) && MmServes(s, MSG_FORK)
    ensures CallsOk(ForkAlloc(s, ok))
  {
    hide UsersOk, FsSideOk, TasksOk, MmPlaceOk;
    var m, ch := s.pc[TASK_MM].m, FirstUnused(s.t, 0);
    if ch == NPROC {
      AnswerKeeps(s, ForkAlloc(s, ok), TASK_MM, Answer(m, -1));
    } else {
      ForkTakenKeeps(s, ok, ch);
    }
  }

  lemma ForkTakenOthers(s: Sys, ok: bool, ch: int)
    requires CallsOk(s) && MmServes(s, MSG_FORK) && ch == FirstUnused(s.t, 0) && ch != NPROC
    ensures var s' := ForkAlloc(s, ok); Shape(s') && UsersOk(s') && FsSideOk(s') && TasksOk(s')
  {
    hide UsersOk, FsSideOk, TasksOk;
    TasksLive(s);
    var s' := ForkAlloc(s, ok);
    UserIs(s, ch);
    MmUsers(s, s', ch);
    MmElsewhere(s, s', ch);
  }

  lemma ForkTakenKeeps(s: Sys, ok: bool, ch: int)
    requires CallsOk(s) && MmServes(s, MSG_FORK) && ch == FirstUnused(s.t, 0) && ch != NPROC
    ensures CallsOk(ForkAlloc(s, ok))
  {
    hide UsersOk, FsSideOk, TasksOk;
    TasksLive(s);
    UserIs(s, ch);
    ForkTakenOthers(s, ok, ch);
  }

  lemma ForkCopyKeeps(s: Sys, ok: bool)
    requires CallsOk(s) && Enabled(s, MmForkCopy(ok))
    ensures CallsOk(ForkCopy(s, ok))
  {
    hide UsersOk, FsSideOk;
    var ch := s.pc[TASK_MM].child;
    UserIs(s, ch);
    MmUsers(s, ForkCopy(s, ok), ch);
    MmElsewhere(s, ForkCopy(s, ok), ch);
  }

  lemma ForkDoneKeeps(s: Sys)
    requires CallsOk(s) && Enabled(s, MmForkDone)
    ensures CallsOk(ForkDone(s))
  {
    hide UsersOk, FsSideOk;
    var ch := s.pc[TASK_MM].call.child;
    UserIs(s, ch);
    MmUsers(s, ForkDone(s), ch);
    MmElsewhere(s, ForkDone(s), ch);
  }

  lemma ExitMarkKeeps(s: Sys)
    requires CallsOk(s) && MmServes(s, MSG_EXIT)
    ensures CallsOk(ExitMark(s))
  {
    hide UsersOk, FsSideOk;
    var c := s.pc[TASK_MM].m.source;
    UserIs(s, c);
    MmUsers(s, ExitMark(s), c);
    MmElsewhere(s, ExitMark(s), c);
  }

  lemma BuryUsers(s: Sys)
    requires CallsOk(s) && Enabled(s, MmZombie)
    ensures var s' := Bury(s); Shape(s') && UsersOk(s')
  {
    hide UsersOk, FsSideOk, TasksOk;
    var c := s.pc[TASK_MM].m.source;
    UserIs(s, c);
    MmUsers(s, Bury(s), c);
  }

  lemma BuryOthers(s: Sys)
    requires CallsOk(s) && Enabled(s, MmZombie)
    ensures var s' := Bury(s); Shape(s') && FsSideOk(s') && TasksOk(s')
  {
    hide UsersOk, FsSideOk;
    var c := s.pc[TASK_MM].m.source;
    UserIs(s, c);
    MmElsewhere(s, Bury(s), c);
  }

  lemma BuryKeeps(s: Sys)
    requires CallsOk(s) && Enabled(s, MmZombie)
    ensures CallsOk(Bury(s))
  {
    hide UsersOk, FsSideOk, TasksOk;
    UserIs(s, s.pc[TASK_MM].m.source);
    BuryUsers(s);
    BuryOthers(s);
  }

  lemma WaitKeeps(s: Sys)
    requires CallsOk(s) && MmServes(s, MSG_WAIT)
    ensures CallsOk(Wait(s))
  {
    hide UsersOk, FsSideOk, TasksOk, MmPlaceOk;
    var m := s.pc[TASK_MM].m;
    var z := FirstZombie(s.t, m.source, 0);
    if z == NPROC {
      AnswerKeeps(s, Wait(s), TASK_MM, if m.i2 != 0 then Answer(m, -1) else TryAgain(m, ProcAt(m.source)));
    } else {
      ReapKeeps(s, z);
    }
  }

  lemma ReapOthers(s: Sys, z: int)
    requires CallsOk(s) && MmServes(s, MSG_WAIT) && z == FirstZombie(s.t, s.pc[TASK_MM].m.source, 0) && z != NPROC
    ensures var s' := Wait(s); Shape(s') && UsersOk(s') && FsSideOk(s') && TasksOk(s')
  {
    hide UsersOk, FsSideOk, TasksOk;
    TasksLive(s);
    UserIs(s, z);
    MmUsers(s, Wait(s), z);
    MmElsewhere(s, Wait(s), z);
  }

  lemma ReapKeeps(s: Sys, z: int)
    requires CallsOk(s) && MmServes(s, MSG_WAIT) && z == FirstZombie(s.t, s.pc[TASK_MM].m.source, 0) && z != NPROC
    ensures CallsOk(Wait(s))
  {
    hide UsersOk, FsSideOk, TasksOk;
    TasksLive(s);
    UserIs(s, z);
    ReapOthers(s, z);
  }

  // MM calls FS

  lemma CallIs(s: Sys)
    requires CallsOk(s) && Enabled(s, MmCall)
    ensures Called(s, Call(s), NestedRequest(s, s.pc[TASK_MM].m, s.pc[TASK_MM].call))
  {
    hide UsersOk, TasksOk;
    NoSendDeadlock(s, TASK_MM, TASK_FS);
  }

  lemma CallKeeps(s: Sys)
    requires CallsOk(s) && Enabled(s, MmCall)
    ensures CallsOk(Call(s))
  {
    hide UsersOk, MmSideOk, MmPlaceOk, FsSideOk, Call;
    var m := NestedRequest(s, s.pc[TASK_MM].m, s.pc[TASK_MM].call);
    CallIs(s);
    CallUsers(s, Call(s), m);
    CallServers(s, Call(s), m);
  }

  predicate Called(s: Sys, s': Sys, m: Msg)
    requires Shape(s)
  {
    && Runs(s, TASK_MM) && s.pc[TASK_MM].Calling?
    && m.source == TASK_MM && (m.typ == MSG_FORK || m.typ == MSG_EXIT)
    && s'.t == SentTable(s.t, TASK_MM, TASK_FS, m) && s'.req == s.req[TASK_MM := m]
    && s'.pc == s.pc[TASK_MM := CallSend(s.pc[TASK_MM].m, s.pc[TASK_MM].call, !Waiting(s.t, TASK_FS, TASK_MM))]
    && s'.panicked == s.panicked
  }

  lemma CallUsers(s: Sys, s': Sys, m: Msg)
    requires Shape(s) && UsersOk(s) && ServersOk(s) && Called(s, s', m)
    ensures Shape(s') && UsersOk(s')
  {
    var v, v' := ViewOf(s), ViewOf(s');
    forall w | IsUser(w) ensures UserOk(s'.t[w], s'.pc[w], s'.req[w], w, v') {
      assert UserOk(s.t[w], s.pc[w], s.req[w], w, v);
      UserKept(s.t[w], s.pc[w], s.req[w], w, v, v');
    }
  }

  lemma CallServers(s: Sys, s': Sys, m: Msg)
    requires Shape(s) && ServersOk(s) && Called(s, s', m)
    ensures Shape(s') && ServersOk(s')
  {
  }

  lemma CallWaitIs(s: Sys)
    requires CallsOk(s) && Enabled(s, MmCallWait)
    ensures CallAnswered(s, CallWait(Intended, s))
  {
    hide UsersOk, TasksOk;
    ShortRecvChain(s.t, TASK_MM, TASK_FS);
    RecvIs(s.t, TASK_MM, TASK_FS);
  }

  lemma CallWaitKeeps(s: Sys)
    requires CallsOk(s) && Enabled(s, MmCallWait)
    ensures CallsOk(CallWait(Intended, s))
  {
    hide UsersOk, CallWait, MmSideOk, MmPlaceOk, FsSideOk;
    var s' := CallWait(Intended, s);
    CallWaitIs(s);
    CallWaitUsers(s, s');
    CallWaitServers(s, s');
  }

  predicate CallAnswered(s: Sys, s': Sys)
    requires Shape(s)
  {
    && Runs(s, TASK_MM) && s.pc[TASK_MM].CallSend? && s'.req == s.req && s'.panicked == s.panicked
    && var pc := s.pc[TASK_MM];
       if Offering(s.t, TASK_FS, TASK_MM)
       then s'.t == ReceivedTable(s.t, TASK_MM, TASK_FS)
            && s'.pc == s.pc[TASK_MM := CallRecv(pc.m, pc.call, s.t[TASK_FS].mbuf.typ == MSG_BESLEEP)]
       else s'.t == WaitingTable(s.t, TASK_MM, TASK_FS) && s'.pc == s.pc[TASK_MM := CallRecv(pc.m, pc.call, true)]
  }

  lemma CallWaitUsers(s: Sys, s': Sys)
    requires Shape(s) && UsersOk(s) && ServersOk(s) && CallAnswered(s, s')
    ensures Shape(s') && UsersOk(s')
  {
    var v, v' := ViewOf(s), ViewOf(s');
    forall w | IsUser(w) ensures UserOk(s'.t[w], s'.pc[w], s'.req[w], w, v') {
      assert UserOk(s.t[w], s.pc[w], s.req[w], w, v);
      UserKept(s.t[w], s.pc[w], s.req[w], w, v, v');
    }
  }

  lemma CallWaitServers(s: Sys, s': Sys)
    requires Shape(s) && ServersOk(s) && CallAnswered(s, s')
    ensures Shape(s') && ServersOk(s')
  {
  }

  // Wakeups

  /** `u` is `t` with some sleepers made RUNNABLE and some parents changed. */
  ghost predicate Roused(t: Table, u: Table) {
    && |t| == |u| == NPROC
    && forall p :: IsSlot(p) ==> RousedProc(t[p], u[p])
  }

  predicate RousedProc(p: Proc, q: Proc) {
    || q == p.(parent := q.parent)
    || (p.state == SLEEPING && q == p.(parent := q.parent, state := RUNNABLE))
  }

  lemma RouseKeeps(s: Sys, s': Sys, d: int)
    requires CallsOk(s) && IsServer(d) && Roused(s.t, s'.t)
    requires s'.req == s.req && s'.panicked == s.panicked && |s'.pc| == NPROC && s'.pc == s.pc[d := s'.pc[d]]
    requires ClientAt(s'.t[d], s'.pc[d]) == Client(s, d) && OpenAt(s'.t[d], s'.pc[d]) == Open(s, d)
    requires Child(s'.pc[TASK_MM]) == Child(s.pc[TASK_MM]) && Exiting(s'.pc[TASK_MM]) == Exiting(s.pc[TASK_MM])
    requires Shape(s') ==> ServerOk(s'.t[d], s'.pc[d], d, SideOf(s, d))
    requires d == TASK_MM && Shape(s') ==>
      MmOk(s'.t[d], s'.pc[d], s.req[d], Client(s, TASK_FS) == TASK_MM, Open(s, TASK_FS), SideOf(s, d), ChildState(s'))
    ensures CallsOk(s')
  {
    forall p | IsSlot(p) ensures RousedProc(s.t[p], s'.t[p]) {}
    RouseUsers(s, s', d);
    RouseServers(s, s', d);
    RouseTasks(s, s', d);
  }

  lemma RousedOk(s: Sys, s': Sys, d: int, w: int)
    requires Shape(s) && Shape(s') && IsUser(w) && RousedProc(s.t[w], s'.t[w]) && IsServer(d)
    requires s'.req == s.req && s'.pc == s.pc[d := s'.pc[d]] && ViewOf(s') == ViewOf(s)
    requires UserOk(s.t[w], s.pc[w], s.req[w], w, ViewOf(s))
    ensures UserOk(s'.t[w], s'.pc[w], s'.req[w], w, ViewOf(s'))
  {
    hide ViewOf;
  }

  lemma RouseShape(s: Sys, s': Sys)
    requires Shape(s) && Roused(s.t, s'.t) && s'.req == s.req && |s'.pc| == NPROC
    ensures Shape(s')
  {
    forall p | IsSlot(p)
      ensures s'.t[p].state == s.t[p].state || s'.t[p].state == RUNNABLE
      ensures s'.t[p].sendto == s.t[p].sendto && s'.t[p].recvfrom == s.t[p].recvfrom
    {
      assert RousedProc(s.t[p], s'.t[p]);
    }
  }

  lemma RouseView(s: Sys, s': Sys, d: int)
    requires Shape(s) && ServersOk(s) && IsServer(d) && Roused(s.t, s'.t) && Shape(s')
    requires s'.req == s.req && s'.pc == s.pc[d := s'.pc[d]]
    requires ClientAt(s'.t[d], s'.pc[d]) == Client(s, d) && OpenAt(s'.t[d], s'.pc[d]) == Open(s, d)
    requires Child(s'.pc[TASK_MM]) == Child(s.pc[TASK_MM]) && Exiting(s'.pc[TASK_MM]) == Exiting(s.pc[TASK_MM])
    ensures ViewOf(s') == ViewOf(s)
  {
    hide TableOk;
    assert RousedProc(s.t[TASK_MM], s'.t[TASK_MM]) && RousedProc(s.t[TASK_FS], s'.t[TASK_FS]);
  }

  lemma RouseUsers(s: Sys, s': Sys, d: int)
    requires Shape(s) && UsersOk(s) && ServersOk(s) && IsServer(d) && Roused(s.t, s'.t)
    requires s'.req == s.req && |s'.pc| == NPROC && s'.pc == s.pc[d := s'.pc[d]]
    requires ClientAt(s'.t[d], s'.pc[d]) == Client(s, d) && OpenAt(s'.t[d], s'.pc[d]) == Open(s, d)
    requires Child(s'.pc[TASK_MM]) == Child(s.pc[TASK_MM]) && Exiting(s'.pc[TASK_MM]) == Exiting(s.pc[TASK_MM])
    ensures Shape(s') && UsersOk(s') && ViewOf(s') == ViewOf(s)
  {
    hide UserOk, ServersOk, ViewOf, RousedProc, ClientAt, OpenAt, Child, Exiting;
    RouseShape(s, s');
    RouseView(s, s', d);
    forall w | IsUser(w) ensures UserOk(s'.t[w], s'.pc[w], s'.req[w], w, ViewOf(s')) {
      RousedOk(s, s', d, w);
    }
  }

  /** A client is never asleep, so a wakeup does not touch it. */
  lemma RouseSide(s: Sys, s': Sys, e: int)
    requires Shape(s) && UsersOk(s) && ServersOk(s) && IsServer(e) && Roused(s.t, s'.t) && Shape(s')
    requires s'.req == s.req && Client(s', e) == Client(s, e)
    ensures SideOf(s', e) == SideOf(s, e)
  {
    hide UsersOk;
    var c := Client(s, e);
    if IsSlot(c) {
      assert RousedProc(s.t[c], s'.t[c]);
      ClientAwake(s, e);
    }
  }

  lemma ClientAwake(s: Sys, e: int)
    requires Shape(s) && UsersOk(s) && ServersOk(s) && IsServer(e) && IsSlot(Client(s, e))
    ensures s.t[Client(s, e)].state != SLEEPING
  {
    hide UsersOk, TableOk;
    var c := Client(s, e);
    if IsUser(c) {
      UserIs(s, c);
    }
  }

  /** Neither is a process that MM is building or has just buried. */
  lemma RouseChild(s: Sys, s': Sys)
    requires Shape(s) && UsersOk(s) && ServersOk(s) && Roused(s.t, s'.t) && Shape(s')
    requires s'.pc[TASK_MM] == s.pc[TASK_MM]
    ensures ChildState(s') == ChildState(s)
  {
    hide UsersOk;
    var ch := if s.pc[TASK_MM].WakeParent? then s.pc[TASK_MM].child else Child(s.pc[TASK_MM]);
    if IsUser(ch) {
      UserIs(s, ch);
      assert RousedProc(s.t[ch], s'.t[ch]);
    }
  }

  lemma RouseTasks(s: Sys, s': Sys, d: int)
    requires CallsOk(s) && IsServer(d) && Roused(s.t, s'.t) && Shape(s')
    requires s'.req == s.req && s'.pc == s.pc[d := s'.pc[d]]  && s'.panicked == s.panicked
    ensures TasksOk(s')
  {
    assert RousedProc(s.t[TASK_IDLE], s'.t[TASK_IDLE]) && RousedProc(s.t[TASK_SYS], s'.t[TASK_SYS]);
  }

  lemma RouseServers(s: Sys, s': Sys, d: int)
    requires Shape(s) && UsersOk(s) && ServersOk(s) && IsServer(d) && Roused(s.t, s'.t) && Shape(s')
    requires s'.req == s.req && s'.pc == s.pc[d := s'.pc[d]] && ViewOf(s') == ViewOf(s)
    requires ServerOk(s'.t[d], s'.pc[d], d, SideOf(s, d))
    requires d == TASK_MM ==>
      MmOk(s'.t[d], s'.pc[d], s.req[d], Client(s, TASK_FS) == TASK_MM, Open(s, TASK_FS), SideOf(s, d), ChildState(s'))
    ensures ServersOk(s')
  {
    RouseSide(s, s', TASK_MM);
    RouseSide(s, s', TASK_FS);
    assert RousedProc(s.t[TASK_MM], s'.t[TASK_MM]) && RousedProc(s.t[TASK_FS], s'.t[TASK_FS]);
    if d == TASK_FS {
      RouseChild(s, s');
    }
  }

  lemma WokenRouses(t: Table, w: Ptr)
    requires |t| == NPROC
    ensures Roused(t, Woken(t, w))
  {
  }

  lemma ReparentedRouses(t: Table, c: int)
    requires |t| == NPROC
    ensures Roused(t, Reparented(t, c))
  {
  }

  /** MM moves on to bury its client, with some sleepers woken. */
  lemma ReparentRoused(s: Sys, s': Sys)
    requires CallsOk(s) && Runs(s, TASK_MM) && s.pc[TASK_MM].CallRecv? && s.pc[TASK_MM].call.ExitFiles?
    requires Roused(s.t, s'.t)
    requires s'.pc == s.pc[TASK_MM := Dying(s.pc[TASK_MM].m)] && s'.req == s.req && s'.panicked == s.panicked
    ensures CallsOk(s')
  {
    hide UsersOk, TasksOk, FsSideOk, TableOk;
    assert RousedProc(s.t[TASK_MM], s'.t[TASK_MM]);
    RouseKeeps(s, s', TASK_MM);
  }

  lemma ReparentKeeps(s: Sys)
    requires CallsOk(s) && Enabled(s, MmReparent)
    ensures CallsOk(Reparent(s))
  {
    hide UsersOk, TasksOk, FsSideOk, MmSideOk, Reparented, Roused;
    ReparentedRouses(s.t, s.pc[TASK_MM].m.source);
    ReparentRoused(s, Reparent(s));
  }

  lemma NotifyParentKeeps(s: Sys)
    requires CallsOk(s) && Enabled(s, MmWakeParent)
    ensures CallsOk(NotifyParent(s))
  {
    hide UsersOk, TasksOk, FsSideOk, Woken;
    var s' := NotifyParent(s);
    hide ParentPtr;
    WokenRouses(s.t, ParentPtr(s.t[s.pc[TASK_MM].child].parent));
    assert RousedProc(s.t[TASK_MM], s'.t[TASK_MM]);
    RouseKeeps(s, s', TASK_MM);
  }

  lemma InterruptKeeps(s: Sys, w: Ptr)
    requires CallsOk(s)
    ensures CallsOk(s.(t := Woken(s.t, w)))
  {
    hide UsersOk, TasksOk, MmSideOk, MmPlaceOk, Woken;
    WokenRouses(s.t, w);
    RouseKeeps(s, s.(t := Woken(s.t, w)), TASK_FS);
  }

  // FS serves

  lemma FsDiskKeeps(s: Sys, b: nat)
    requires CallsOk(s) && FsServes(s)
    ensures CallsOk(s.(t := s.t[TASK_FS := s.t[TASK_FS].(state := SLEEPING, tmp := Buf(b))]))
  {
    var s' := s.(t := s.t[TASK_FS := s.t[TASK_FS].(state := SLEEPING, tmp := Buf(b))]);
    forall w | IsUser(w) ensures UserOk(s'.t[w], s'.pc[w], s'.req[w], w, ViewOf(s')) {
      assert UserOk(s.t[w], s.pc[w], s.req[w], w, ViewOf(s));
    }
  }

  /** FS wakes `w` and answers or carries on. */
  lemma FsWakeKeeps(s: Sys, s': Sys, w: Ptr, m: Msg)
    requires CallsOk(s) && FsServes(s)
    requires s'.t == Woken(s.t, w) || s'.t == s.t
    requires s'.pc == s.pc || (s'.pc == s.pc[TASK_FS := Reply(m)]
      && Replies(m, s.req[Client(s, TASK_FS)], Client(s, TASK_FS), TASK_FS))
    requires s'.req == s.req && s'.panicked == s.panicked
    ensures CallsOk(s')
  {
    hide UsersOk, TasksOk, MmSideOk, MmPlaceOk, Woken;
    WokenRouses(s.t, w);
    assert Roused(s.t, s.t);
    assert RousedProc(s.t[TASK_FS], s'.t[TASK_FS]);
    RouseKeeps(s, s', TASK_FS);
  }

  lemma PipeCloseKeeps(s: Sys, k: nat, w: bool)
    requires CallsOk(s) && Enabled(s, FsPipeClose(k, w))
    ensures CallsOk(PipeClose(s, k, w))
  {
    FsWakeKeeps(s, PipeClose(s, k, w), if w then ReadOpen(k) else WriteOpen(k), s.pc[TASK_FS].m);
  }

  lemma PipeReadKeeps(s: Sys, k: nat, n: nat)
    requires CallsOk(s) && Enabled(s, FsPipeRead(k, n))
    ensures CallsOk(PipeRead(s, k, n))
  {
    var s' := PipeRead(s, k, n);
    FsWakeKeeps(s, s', WriteOpen(k), s'.pc[TASK_FS].m);
  }

  lemma PipeWriteKeeps(s: Sys, k: nat, n: nat)
    requires CallsOk(s) && Enabled(s, FsPipeWrite(k, n))
    ensures CallsOk(PipeWrite(s, k, n))
  {
    var s' := PipeWrite(s, k, n);
    FsWakeKeeps(s, s', ReadOpen(k), s'.pc[TASK_FS].m);
  }

  lemma FsFinishKeeps(s: Sys, r: int)
    requires CallsOk(s) && FsServes(s)
    ensures CallsOk(SetFs(s, Reply(Answer(s.pc[TASK_FS].m, r))))
  {
    hide UsersOk, TasksOk, TableOk, MmSideOk, MmPlaceOk;
    AnswerKeeps(s, SetFs(s, Reply(Answer(s.pc[TASK_FS].m, r))), TASK_FS, Answer(s.pc[TASK_FS].m, r));
  }

  lemma FsTtyKeeps(s: Sys)
    requires CallsOk(s) && Enabled(s, FsTtyWait)
    ensures CallsOk(SetFs(s, Reply(TryAgain(s.pc[TASK_FS].m, Tty))))
  {
    hide UsersOk, TasksOk, TableOk;
    AnswerKeeps(s, SetFs(s, Reply(TryAgain(s.pc[TASK_FS].m, Tty))), TASK_FS, TryAgain(s.pc[TASK_FS].m, Tty));
  }

  lemma MmOtherKeeps(s: Sys, r: int)
    requires CallsOk(s) && Enabled(s, MmOther(r))
    ensures CallsOk(SetMm(s, Reply(Answer(s.pc[TASK_MM].m, r))))
  {
    hide UsersOk, TasksOk, TableOk, FsSideOk, MmPlaceOk;
    AnswerKeeps(s, SetMm(s, Reply(Answer(s.pc[TASK_MM].m, r))), TASK_MM, Answer(s.pc[TASK_MM].m, r));
  }

  lemma FsKeeps(s: Sys, a: Action)
    requires CallsOk(s) && Enabled(s, a) && FsServes(s)
    requires a.FsDisk? || a.FsFinish? || a.FsTtyWait? || a.FsPipeOpen?
    ensures CallsOk(Next(Intended, s, a))
  {
    hide UsersOk, ServersOk, TasksOk, SetFs, TableOk;
    match a
    case FsDisk(b) => FsDiskKeeps(s, b);
    case FsFinish(r) => FsFinishKeeps(s, r);
    case FsTtyWait => FsTtyKeeps(s);
    case FsPipeOpen(k) => FsWakeKeeps(s, Next(Intended, s, a), Null, s.pc[TASK_FS].m);
  }

  lemma MmKeeps(s: Sys, a: Action)
    requires CallsOk(s) && Enabled(s, a)
    requires a.MmForkAlloc? || a.MmForkCopy? || a.MmForkDone? || a.MmExitMark? || a.MmCall? || a.MmCallWait?
             || a.MmReparent? || a.MmZombie? || a.MmWakeParent? || a.MmWait? || a.MmOther?
    ensures CallsOk(Next(Intended, s, a))
  {
    hide UsersOk, ServersOk, TasksOk, TableOk, SetMm, ForkAlloc, ForkCopy, ForkDone, ExitMark, Call, CallWait;
    hide Reparent, Bury, NotifyParent, Wait;
    match a
    case MmForkAlloc(ok) => ForkAllocKeeps(s, ok);
    case MmForkCopy(ok) => ForkCopyKeeps(s, ok);
    case MmForkDone => ForkDoneKeeps(s);
    case MmExitMark => ExitMarkKeeps(s);
    case MmCall => CallKeeps(s);
    case MmCallWait => CallWaitKeeps(s);
    case MmReparent => ReparentKeeps(s);
    case MmZombie => BuryKeeps(s);
    case MmWakeParent => NotifyParentKeeps(s);
    case MmWait => WaitKeeps(s);
    case MmOther(r) => MmOtherKeeps(s, r);
  }

  /** Every action of the protocol keeps the invariant when the receiver of BESLEEP sleeps. */
  lemma CallsStep(s: Sys, a: Action)
    requires CallsOk(s) && Enabled(s, a)
    ensures CallsOk(Next(Intended, s, a))
  {
    hide UsersOk, ServersOk, TasksOk, UserSends, UserReceives, UserReturns, ServerGets, ServerReplies, Receiving;
    hide PipeClose, PipeRead, PipeWrite, Woken, MmRequest, FsRequest, TableOk;
    match a
    case UserSend(u, dest, typ, i1, i2) => UserSendKeeps(s, u, dest, Request(s, u, typ, Null, Null, i1, i2));
    case UserRecv(u) => UserRecvKeeps(s, u);
    case UserDone(u) => UserDoneKeeps(s, u);
    case ServerRecv(d) => ServerRecvKeeps(s, d);
    case ServerGot(d) => ServerGotKeeps(s, d);
    case ServerReply(d) => ServerReplyKeeps(s, d);
    case ServerLoop(d) => ServerLoopKeeps(s, d);
    case DiskIntr(b) => InterruptKeeps(s, Buf(b));
    case KbdIntr => InterruptKeeps(s, Tty);
    case FsDisk(_) => FsKeeps(s, a);
    case FsFinish(_) => FsKeeps(s, a);
    case FsTtyWait => FsKeeps(s, a);
    case FsPipeOpen(_) => FsKeeps(s, a);
    case FsPipeClose(k, w) => PipeCloseKeeps(s, k, w);
    case FsPipeRead(k, n) => PipeReadKeeps(s, k, n);
    case FsPipeWrite(k, n) => PipeWriteKeeps(s, k, n);
    case _ => MmKeeps(s, a);
  }
}
