/**
 Synchronous message passing (`kernel/msg.c`). Each `cli`..`sti` region of `sendmsg`
 and `recvmsg` is one atomic step on the process table.
 */
module Ipc {
  import opened ProcTable
  import opened WaitGraph

  /** What a step does to its caller: it returned 0, it is blocked, or it called panic. */
  datatype Outcome = Returned | Blocked | Panicked

  datatype Step = Step(outcome: Outcome, table: Table)

  /**
   `recvmsg` treats a BESLEEP message from a blocked sender differently from `sendmsg`:
   as written it puts the sender to sleep; what `sendmsg` does, and what the servers
   mean by the reply, is that the receiver sleeps.
   */
  datatype Variant = AsWritten | Intended

  function SendEdges(t: Table): (next: seq<int>)
    ensures |next| == |t|
  {
    seq(|t|, p requires 0 <= p < |t| => if t[p].state == SENDING then t[p].sendto else -1)
  }

  /** ANY ends the chain. */
  function RecvEdges(t: Table): (next: seq<int>)
    ensures |next| == |t|
  {
    seq(|t|, p requires 0 <= p < |t| => if t[p].state == RECVING then t[p].recvfrom else -1)
  }

  predicate Waiting(t: Table, p: int, q: int)
    requires |t| == NPROC && IsSlot(p)
  {
    t[p].state == RECVING && (t[p].recvfrom == q || t[p].recvfrom == ANY)
  }

  predicate Offering(t: Table, p: int, q: int)
    requires |t| == NPROC && IsSlot(p)
  {
    t[p].state == SENDING && t[p].sendto == q
  }

  /** The first entry from `k` on that is SENDING to `me`, or NPROC. */
  function FirstOffer(t: Table, me: int, k: nat): (p: int)
    requires |t| == NPROC && k <= NPROC
    ensures k <= p <= NPROC && (p < NPROC ==> Offering(t, p, me))
    ensures forall q :: k <= q < p ==> !Offering(t, q, me)
    decreases |t| - k
  {
    if k == NPROC || Offering(t, k, me) then k else FirstOffer(t, me, k + 1)
  }

  /** The sender a receive by `me` from `source` takes, or NPROC. */
  function SenderOf(t: Table, me: int, source: int): (p: int)
    requires |t| == NPROC && (IsSlot(source) || source == ANY)
    ensures IsSlot(p) ==> Offering(t, p, me) && (source == ANY || source == p)
    ensures !IsSlot(p) ==> forall q :: IsSlot(q) && (source == ANY || source == q) ==> !Offering(t, q, me)
  {
    if source == ANY then FirstOffer(t, me, 0)
    else if Offering(t, source, me) then source else NPROC
  }

  /** The atomic region of `sendmsg`, run by `me`. */
  ghost function SendStep(t: Table, me: int, dest: int, m: Msg): Step
    requires TableOk(t) && IsSlot(me) && IsSlot(dest)
  {
    if Hits(SendEdges(t), dest, me) then
      Step(Panicked, t)
    else if Waiting(t, dest, me) then
      Step(Returned, t[dest := Delivered(t[dest], m)])
    else
      Step(Blocked, t[me := t[me].(state := SENDING, mbuf := m, sendto := dest, msgstate := -1)])
  }

  /** A receiver that has just been handed `m`: a BESLEEP message puts it to sleep. */
  function Delivered(p: Proc, m: Msg): Proc {
    if m.typ == MSG_BESLEEP then p.(state := SLEEPING, mbuf := m, msgstate := 0, tmp := m.p1)
    else p.(state := RUNNABLE, mbuf := m, msgstate := 0)
  }

  /** The atomic region of `recvmsg`, run by `me`. */
  ghost function RecvStep(v: Variant, t: Table, me: int, source: int): Step
    requires TableOk(t) && IsSlot(me) && (IsSlot(source) || source == ANY)
  {
    if source != ANY && Hits(RecvEdges(t), source, me) then
      Step(Panicked, t)
    else
      var p := SenderOf(t, me, source);
      if !IsSlot(p) then
        Step(Blocked, t[me := t[me].(state := RECVING, recvfrom := source, msgstate := -1)])
      else
        var m := t[p].mbuf;
        var got := t[me := t[me].(mbuf := m)];
        if m.typ != MSG_BESLEEP then
          Step(Returned, got[p := got[p].(state := RUNNABLE, msgstate := 0)])
        else if v == AsWritten then
          Step(Returned, got[p := got[p].(state := SLEEPING, tmp := m.p1, msgstate := 0)])
        else
          Step(Blocked, got[p := got[p].(state := RUNNABLE, msgstate := 0)]
                           [me := got[me].(state := SLEEPING, tmp := m.p1, msgstate := 0)])
  }

  /**
   The kernel's side of message passing: the process table and the running process.
   */
  class Kernel {
    const ptable: array<Proc>
    var current: int

    ghost predicate Valid()
      reads this, ptable
    {
      && TableOk(ptable[..]) && IsSlot(current)
      && Acyclic(SendEdges(ptable[..])) && Acyclic(RecvEdges(ptable[..]))
    }

    constructor (boot: Table)
      requires TableOk(boot) && Acyclic(SendEdges(boot)) && Acyclic(RecvEdges(boot))
      ensures Valid() && fresh(ptable) && ptable[..] == boot
    {
      ptable := new Proc[NPROC](p requires 0 <= p < NPROC => boot[p]);
      current := 0;
      new;
      assert ptable[..] == boot;
    }

    /** The chain walk of `sendmsg`; it terminates because the edges are acyclic. */
    method SendWouldDeadlock(me: int, dest: int) returns (found: bool)
      requires Valid() && IsSlot(me) && IsSlot(dest)
      ensures found <==> Hits(SendEdges(ptable[..]), dest, me)
    {
      ghost var next := SendEdges(ptable[..]);
      assert Terminates(next, dest);
      ghost var n: nat :| Ends(next, dest, n);
      var p := dest;
      while ptable[p].state == SENDING
        invariant IsSlot(p) && Ends(next, p, n)
        invariant Hits(next, p, me) <==> Hits(next, dest, me)
        decreases n
      {
        HitsStep(next, p, me);
        if ptable[p].sendto == me {
          return true;
        }
        p := ptable[p].sendto;
        n := n - 1;
      }
      HitsStep(next, p, me);
      return false;
    }

    method RecvWouldDeadlock(me: int, source: int) returns (found: bool)
      requires Valid() && IsSlot(me) && (IsSlot(source) || source == ANY)
      ensures found <==> source != ANY && Hits(RecvEdges(ptable[..]), source, me)
    {
      if source == ANY {
        return false;
      }
      ghost var next := RecvEdges(ptable[..]);
      assert Terminates(next, source);
      ghost var n: nat :| Ends(next, source, n);
      var p := source;
      while p != ANY && ptable[p].state == RECVING
        invariant p == ANY || IsSlot(p)
        invariant if p == ANY then !Hits(next, source, me)
                  else Ends(next, p, n) && (Hits(next, p, me) <==> Hits(next, source, me))
        decreases p != ANY, n
      {
        HitsStep(next, p, me);
        if ptable[p].recvfrom == me {
          return true;
        }
        p := ptable[p].recvfrom;
        n := if n > 0 then n - 1 else 0;
      }
      if p != ANY {
        HitsStep(next, p, me);
      }
      return false;
    }

    method SendMsg(m: Msg, dest: int) returns (r: Outcome)
      requires Valid() && IsSlot(dest) && dest != current && ptable[current].state == RUNNABLE
      modifies ptable
      ensures Step(r, ptable[..]) == SendStep(old(ptable[..]), current, dest, m)
      ensures Valid()
    {
      var me := current;
      ghost var before := ptable[..];
      var found := SendWouldDeadlock(me, dest);
      if found {
        return Panicked;
      }
      var p := ptable[dest];
      if p.state == RECVING && (p.recvfrom == me || p.recvfrom == ANY) {
        p := p.(mbuf := m, msgstate := 0);
        if m.typ == MSG_BESLEEP {
          ptable[dest] := p.(state := SLEEPING, tmp := m.p1);
        } else {
          ptable[dest] := p.(state := RUNNABLE);
        }
        DeliveryKeeps(before, dest, ptable[dest]);
        return Returned;
      }
      ptable[me] := ptable[me].(state := SENDING, mbuf := m, sendto := dest, msgstate := -1);
      SendBlockKeeps(before, me, dest, ptable[me]);
      return Blocked;
    }

    method RecvMsg(source: int) returns (r: Outcome)
      requires Valid() && (IsSlot(source) || source == ANY) && source != current
      requires ptable[current].state == RUNNABLE
      modifies ptable
      ensures Step(r, ptable[..]) == RecvStep(AsWritten, old(ptable[..]), current, source)
      ensures Valid()
    {
      var me := current;
      ghost var before := ptable[..];
      var found := RecvWouldDeadlock(me, source);
      if found {
        return Panicked;
      }
      var p := 0;
      if source == ANY {
        while p < NPROC && !(ptable[p].state == SENDING && ptable[p].sendto == me)
          invariant 0 <= p <= NPROC && FirstOffer(before, me, p) == FirstOffer(before, me, 0)
        {
          p := p + 1;
        }
      } else {
        p := if ptable[source].state == SENDING && ptable[source].sendto == me then source else NPROC;
      }
      if p == NPROC {
        ptable[me] := ptable[me].(state := RECVING, recvfrom := source, msgstate := -1);
        RecvBlockKeeps(before, me, source, ptable[me]);
        return Blocked;
      }
      var m := ptable[p].mbuf;
      ptable[me] := ptable[me].(mbuf := m);
      if m.typ == MSG_BESLEEP {
        ptable[p] := ptable[p].(state := SLEEPING, tmp := m.p1, msgstate := 0);
      } else {
        ptable[p] := ptable[p].(state := RUNNABLE, msgstate := 0);
      }
      FewerEdgesKeeps(before, ptable[..]);
      return Returned;
    }
  }

  // Keeping the wait edges acyclic

  lemma FewerEdgesKeeps(t: Table, u: Table)
    requires TableOk(t) && |u| == NPROC
    requires Acyclic(SendEdges(t)) && Acyclic(RecvEdges(t))
    requires forall p :: IsSlot(p) && u[p].state == SENDING ==> t[p].state == SENDING && u[p].sendto == t[p].sendto
    requires forall p :: IsSlot(p) && u[p].state == RECVING ==> t[p].state == RECVING && u[p].recvfrom == t[p].recvfrom
    ensures TableOk(u) && Acyclic(SendEdges(u)) && Acyclic(RecvEdges(u))
  {
    RemovalKeepsAcyclic(SendEdges(t), SendEdges(u));
    RemovalKeepsAcyclic(RecvEdges(t), RecvEdges(u));
  }

  lemma DeliveryKeeps(t: Table, dest: int, p: Proc)
    requires TableOk(t) && IsSlot(dest) && p.state != SENDING && p.state != RECVING
    requires Acyclic(SendEdges(t)) && Acyclic(RecvEdges(t))
    ensures var u := t[dest := p]; TableOk(u) && Acyclic(SendEdges(u)) && Acyclic(RecvEdges(u))
  {
    FewerEdgesKeeps(t, t[dest := p]);
  }

  lemma SendBlockKeeps(t: Table, me: int, dest: int, p: Proc)
    requires TableOk(t) && IsSlot(me) && IsSlot(dest) && me != dest
    requires Acyclic(SendEdges(t)) && Acyclic(RecvEdges(t)) && t[me].state == RUNNABLE
    requires !Hits(SendEdges(t), dest, me) && p.state == SENDING && p.sendto == dest
    ensures var u := t[me := p]; TableOk(u) && Acyclic(SendEdges(u)) && Acyclic(RecvEdges(u))
  {
    var u := t[me := p];
    WalkIsExact(SendEdges(t), me, dest);
    assert SendEdges(u) == SendEdges(t)[me := dest];
    assert RecvEdges(u) == RecvEdges(t);
  }

  lemma RecvBlockKeeps(t: Table, me: int, source: int, p: Proc)
    requires TableOk(t) && IsSlot(me) && (IsSlot(source) || source == ANY) && me != source
    requires Acyclic(SendEdges(t)) && Acyclic(RecvEdges(t)) && t[me].state == RUNNABLE
    requires source != ANY ==> !Hits(RecvEdges(t), source, me)
    requires p.state == RECVING && p.recvfrom == source
    ensures var u := t[me := p]; TableOk(u) && Acyclic(SendEdges(u)) && Acyclic(RecvEdges(u))
  {
    var u := t[me := p];
    if source != ANY {
      WalkIsExact(RecvEdges(t), me, source);
    }
    assert SendEdges(u) == SendEdges(t);
    assert RecvEdges(u) == RecvEdges(t)[me := source];
    assert source == ANY ==> RecvEdges(u) == RecvEdges(t);
  }

  lemma SendKeepsEdges(t: Table, me: int, dest: int, m: Msg)
    requires TableOk(t) && IsSlot(me) && IsSlot(dest) && me != dest && t[me].state == RUNNABLE
    requires Acyclic(SendEdges(t)) && Acyclic(RecvEdges(t))
    ensures var u := SendStep(t, me, dest, m).table;
      TableOk(u) && Acyclic(SendEdges(u)) && Acyclic(RecvEdges(u))
  {
    var st := SendStep(t, me, dest, m);
    if st.outcome == Returned {
      DeliveryKeeps(t, dest, st.table[dest]);
    } else if st.outcome == Blocked {
      SendBlockKeeps(t, me, dest, st.table[me]);
    }
  }

  lemma RecvKeepsEdges(v: Variant, t: Table, me: int, source: int)
    requires TableOk(t) && IsSlot(me) && (IsSlot(source) || source == ANY) && me != source
    requires t[me].state == RUNNABLE
    requires Acyclic(SendEdges(t)) && Acyclic(RecvEdges(t))
    ensures var u := RecvStep(v, t, me, source).table;
      TableOk(u) && Acyclic(SendEdges(u)) && Acyclic(RecvEdges(u))
  {
    var st := RecvStep(v, t, me, source);
    if st.outcome != Panicked {
      if SenderOf(t, me, source) == NPROC {
        RecvBlockKeeps(t, me, source, st.table[me]);
      } else {
        FewerEdgesKeeps(t, st.table);
      }
    }
  }
}
