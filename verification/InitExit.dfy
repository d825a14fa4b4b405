/** What becomes of the forest when INIT exits (`bin/init.c`, do_exit in `mm/proc.c`). */
module InitExit {
  import opened ProcTable
  import opened Ipc
  import opened WaitGraph
  import opened Protocol
  import opened ProtocolInv
  import opened ProtocolWorld
  import opened ServerProtocol

  /** INIT calls exit while both servers listen. */
  const EXIT_RUN: seq<Action> :=
    [UserSend(INIT, TASK_MM, MSG_EXIT, -1, 0), ServerGot(TASK_MM), MmExitMark, MmCall, ServerGot(TASK_FS),
     MmCallWait, FsFinish(0), ServerReply(TASK_FS), MmReparent, MmZombie]

  /** Nobody but INIT has a new parent, is born or is gone. */
  ghost predicate SameFamily(s: Sys, s': Sys) {
    && Shape(s) && Shape(s')
    && forall u :: IsUser(u) && u != INIT ==> s'.t[u].parent == s.t[u].parent && Used(s'.t[u]) == Used(s.t[u])
  }

  ghost predicate FsListens(s: Sys) {
    Shape(s) && s.t[TASK_FS].state == RECVING && s.t[TASK_FS].recvfrom == ANY && s.pc[TASK_FS] == Accept(true)
  }

  /** MM is handling INIT's exit, at this place of its code. */
  predicate Handling(pc: Pc) {
    && (pc.Calling? || pc.CallSend? || pc.CallRecv?) && pc.call == ExitFiles && pc.m.source == INIT
    && (pc.CallSend? ==> !pc.blocked) && (pc.CallRecv? ==> pc.blocked)
  }

  /** How far the exit has come before action `k` of the run. */
  ghost predicate At(s: Sys, k: nat) {
    && Shape(s)
    && match k {
         case 0 =>
           && Runs(s, INIT) && s.pc[INIT] == User && FsListens(s)
           && s.t[TASK_MM].state == RECVING && s.t[TASK_MM].recvfrom == ANY && s.pc[TASK_MM] == Accept(true)
         case 1 =>
           && Runs(s, TASK_MM) && s.pc[TASK_MM] == Accept(true) && FsListens(s)
           && s.t[TASK_MM].mbuf.typ == MSG_EXIT && s.t[TASK_MM].mbuf.source == INIT
         case 2 => MmServes(s, MSG_EXIT) && s.pc[TASK_MM].m.source == INIT && FsListens(s)
         case 3 => Runs(s, TASK_MM) && s.pc[TASK_MM].Calling? && Handling(s.pc[TASK_MM]) && FsListens(s)
         case 4 =>
           && Runs(s, TASK_MM) && s.pc[TASK_MM].CallSend? && Handling(s.pc[TASK_MM])
           && Runs(s, TASK_FS) && s.pc[TASK_FS] == Accept(true) && s.t[TASK_FS].mbuf.source == TASK_MM
         case 5 =>
           && Runs(s, TASK_MM) && s.pc[TASK_MM].CallSend? && Handling(s.pc[TASK_MM])
           && FsServes(s) && s.pc[TASK_FS].m.source == TASK_MM
         case 6 =>
           && s.t[TASK_MM].state == RECVING && s.t[TASK_MM].recvfrom == TASK_FS
           && s.pc[TASK_MM].CallRecv? && Handling(s.pc[TASK_MM]) && FsServes(s) && s.pc[TASK_FS].m.source == TASK_MM
         case 7 =>
           && s.t[TASK_MM].state == RECVING && s.t[TASK_MM].recvfrom == TASK_FS
           && s.pc[TASK_MM].CallRecv? && Handling(s.pc[TASK_MM])
           && Runs(s, TASK_FS) && s.pc[TASK_FS].Reply? && s.pc[TASK_FS].m.typ == MSG_SYSRET
           && s.pc[TASK_FS].m.source == TASK_MM
         case 8 => Runs(s, TASK_MM) && s.pc[TASK_MM].CallRecv? && Handling(s.pc[TASK_MM])
         case 9 => Runs(s, TASK_MM) && s.pc[TASK_MM].Dying? && s.pc[TASK_MM].m.source == INIT
         case _ => s.t[INIT].state == ZOMBIE && s.pc[TASK_MM].WakeParent?
       }
  }

  // The calls of the run

  lemma InitCalls(s: Sys)
    requires At(s, 0)
    ensures Enabled(s, EXIT_RUN[0]) && At(Next(Intended, s, EXIT_RUN[0]), 1)
    ensures SameFamily(s, Next(Intended, s, EXIT_RUN[0]))
  {
    hide ForkAlloc, ForkCopy, ForkDone, Bury, Reparent, NotifyParent, Wait, PipeClose, PipeRead, PipeWrite;
    hide Receiving, Woken, Reparented;
    HitsStep(SendEdges(s.t), TASK_MM, INIT);
  }

  lemma MmCalls(s: Sys)
    requires At(s, 3)
    ensures Enabled(s, EXIT_RUN[3]) && At(Next(Intended, s, EXIT_RUN[3]), 4)
    ensures SameFamily(s, Next(Intended, s, EXIT_RUN[3]))
  {
    hide ForkAlloc, ForkCopy, ForkDone, Bury, Reparent, NotifyParent, Wait, PipeClose, PipeRead, PipeWrite;
    hide Receiving, Woken, Reparented;
    HitsStep(SendEdges(s.t), TASK_FS, TASK_MM);
  }

  lemma FsAnswers(s: Sys)
    requires At(s, 7)
    ensures Enabled(s, EXIT_RUN[7]) && At(Next(Intended, s, EXIT_RUN[7]), 8)
    ensures SameFamily(s, Next(Intended, s, EXIT_RUN[7]))
  {
    hide ForkAlloc, ForkCopy, ForkDone, Bury, Reparent, NotifyParent, Wait, PipeClose, PipeRead, PipeWrite;
    hide Receiving, Woken, Reparented;
    HitsStep(SendEdges(s.t), TASK_MM, TASK_FS);
  }

  lemma StepWaits(s: Sys)
    requires At(s, 5)
    ensures Enabled(s, EXIT_RUN[5]) && At(Next(Intended, s, EXIT_RUN[5]), 6)
    ensures SameFamily(s, Next(Intended, s, EXIT_RUN[5]))
  {
    hide ForkAlloc, ForkCopy, ForkDone, ExitMark, Bury, Reparent, NotifyParent, Wait, PipeClose, PipeRead, PipeWrite;
    HitsStep(RecvEdges(s.t), TASK_FS, TASK_MM);
  }

  lemma StepOther(s: Sys, k: nat)
    requires At(s, k) && (k == 1 || k == 2 || k == 4 || k == 6)
    ensures Enabled(s, EXIT_RUN[k]) && At(Next(Intended, s, EXIT_RUN[k]), k + 1)
    ensures SameFamily(s, Next(Intended, s, EXIT_RUN[k]))
  {
    hide ForkAlloc, ForkCopy, ForkDone, NotifyParent, Wait, PipeClose, PipeRead, PipeWrite, Sending, Receiving;
    hide Reparent, Bury, Woken, Reparented;
  }

  lemma StepEnds(s: Sys, k: nat)
    requires At(s, k) && (k == 8 || k == 9)
    ensures Enabled(s, EXIT_RUN[k]) && At(Next(Intended, s, EXIT_RUN[k]), k + 1)
    ensures SameFamily(s, Next(Intended, s, EXIT_RUN[k]))
  {
    hide ForkAlloc, ForkCopy, ForkDone, NotifyParent, Wait, PipeClose, PipeRead, PipeWrite, Sending, Receiving;
    hide ExitMark;
  }

  lemma AtShape(s: Sys, k: nat)
    requires At(s, k)
    ensures Shape(s)
  {
  }

  lemma StepAny(s: Sys, k: nat)
    requires At(s, k) && k < 10
    ensures Shape(s) && Enabled(s, EXIT_RUN[k]) && At(Next(Intended, s, EXIT_RUN[k]), k + 1)
    ensures SameFamily(s, Next(Intended, s, EXIT_RUN[k]))
  {
    AtShape(s, k);
    hide At, Next, Enabled, SameFamily;
    match k
    case 0 => InitCalls(s);
    case 3 => MmCalls(s);
    case 5 => StepWaits(s);
    case 7 => FsAnswers(s);
    case 8 => StepEnds(s, k);
    case 9 => StepEnds(s, k);
    case _ => StepOther(s, k);
  }

  lemma {:induction false} RunFrom(s: Sys, k: nat)
    requires At(s, k) && k <= 10
    ensures var r := Exec(Intended, s, EXIT_RUN[k..]); At(r, 10) && SameFamily(s, r)
    decreases 10 - k
  {
    AtShape(s, k);
    hide At, Next, Enabled, Exec, SameFamily;
    if k == 10 {
      assert EXIT_RUN[10..] == [];
      NoMore(s);
    } else {
      StepAny(s, k);
      var s' := Next(Intended, s, EXIT_RUN[k]);
      RunFrom(s', k + 1);
      OneMore(s, k);
      FamilyChain(s, s', Exec(Intended, s', EXIT_RUN[k + 1..]));
    }
  }

  lemma NoMore(s: Sys)
    requires Shape(s)
    ensures Exec(Intended, s, []) == s && SameFamily(s, s)
  {
  }

  lemma OneMore(s: Sys, k: nat)
    requires k < 10 && Shape(s) && Enabled(s, EXIT_RUN[k])
    ensures Exec(Intended, s, EXIT_RUN[k..]) == Exec(Intended, Next(Intended, s, EXIT_RUN[k]), EXIT_RUN[k + 1..])
  {
    hide Next, Enabled;
    assert EXIT_RUN[k..][0] == EXIT_RUN[k] && EXIT_RUN[k..][1..] == EXIT_RUN[k + 1..];
  }

  lemma FamilyChain(s1: Sys, s2: Sys, s3: Sys)
    requires SameFamily(s1, s2) && SameFamily(s2, s3)
    ensures SameFamily(s1, s3)
  {
  }

  /**
   After this run a child of INIT still has INIT for its parent, which is dead: nobody will ever reap the child,
   and not every parent is alive any more.
   */
  lemma InitExitOrphans(s: Sys, u: int)
    requires Inv(s) && At(s, 0) && Settled(s, u) && s.t[u].parent == INIT
    ensures var r := Exec(Intended, s, EXIT_RUN);
      && Inv(r) && r.t[INIT].state == ZOMBIE && Settled(r, u) && r.t[u].parent == INIT && !ParentsLive(r)
  {
    hide Exec, Inv, At, Settled, ParentsLive;
    AtShape(s, 0);
    RunFrom(s, 0);
    assert EXIT_RUN[0..] == EXIT_RUN;
    RunKeeps(s, EXIT_RUN);
    Orphaned(s, Exec(Intended, s, EXIT_RUN), u);
  }

  lemma Orphaned(s: Sys, r: Sys, u: int)
    requires SameFamily(s, r) && At(r, 10) && Settled(s, u) && s.t[u].parent == INIT
    ensures r.t[INIT].state == ZOMBIE && Settled(r, u) && r.t[u].parent == INIT && !ParentsLive(r)
  {
  }
}
