/** Message passing over every run of arbitrary senders and receivers. */
module Rendezvous {
  import opened ProcTable
  import opened WaitGraph
  import opened Ipc

  // No restriction on who calls whom: `Protocol` adds the discipline of the clients.

  datatype Event =
    | Send(me: int, dest: int, m: Msg)
    | Recv(me: int, source: int)
    | WakeUp(w: Ptr)

  datatype Letter = Letter(receiver: int, msg: Msg)

  /** `sent` and `copied` are history: every letter handed to sendmsg, every copy into a receiver's buffer. */
  datatype State = State(table: Table, sent: multiset<Letter>, copied: multiset<Letter>)

  ghost predicate CanCall(t: Table, me: int, other: int)
    requires |t| == NPROC
  {
    IsSlot(me) && t[me].state == RUNNABLE && other != me
  }

  /** An event that its caller cannot perform, or one that ends in panic, leaves the state alone. */
  ghost function After(v: Variant, s: State, e: Event): State {
    if !TableOk(s.table) then s else
    match e
    case Send(me, dest, m) =>
      if !CanCall(s.table, me, dest) || !IsSlot(dest) then s
      else
        var st := SendStep(s.table, me, dest, m);
        if st.outcome == Panicked then s
        else
          var l := multiset{Letter(dest, m)};
          State(st.table, s.sent + l, if st.outcome == Returned then s.copied + l else s.copied)
    case Recv(me, source) =>
      if !CanCall(s.table, me, source) || !(IsSlot(source) || source == ANY) then s
      else
        var st := RecvStep(v, s.table, me, source);
        if st.outcome == Panicked then s
        else
          State(st.table, s.sent,
                if SenderOf(s.table, me, source) == NPROC then s.copied
                else s.copied + multiset{Letter(me, st.table[me].mbuf)})
    case WakeUp(w) => s.(table := Woken(s.table, w))
  }

  function Holds(p: Proc, l: Letter): nat {
    if p.state == SENDING && p.sendto == l.receiver && p.mbuf == l.msg then 1 else 0
  }

  /** How many blocked senders among the first `n` entries still hold letter `l`. */
  function Held(t: Table, l: Letter, n: nat): nat
    requires n <= |t|
  {
    if n == 0 then 0 else Held(t, l, n - 1) + Holds(t[n - 1], l)
  }

  function InFlight(t: Table, l: Letter): nat {
    Held(t, l, |t|)
  }

  lemma {:induction false} HeldUpdate(t: Table, l: Letter, n: nat, i: nat, p: Proc)
    requires n <= |t| && i < |t|
    ensures Held(t[i := p], l, n) == Held(t, l, n) + (if i < n then Holds(p, l) - Holds(t[i], l) else 0)
  {
    if n > 0 {
      HeldUpdate(t, l, n - 1, i, p);
    }
  }

  lemma {:induction false} HeldSame(t: Table, u: Table, l: Letter, n: nat)
    requires |t| == |u| && n <= |t|
    requires forall p :: 0 <= p < n ==> Holds(t[p], l) == Holds(u[p], l)
    ensures Held(t, l, n) == Held(u, l, n)
  {
    if n > 0 {
      HeldSame(t, u, l, n - 1);
    }
  }

  /** Nobody offers a message to a process that is waiting for it. */
  ghost predicate NoneMissed(t: Table)
    requires |t| == NPROC
  {
    forall p, q :: IsSlot(p) && IsSlot(q) && Offering(t, p, q) ==> !Waiting(t, q, p)
  }

  /** Every letter sent was copied once or is still held by its sender. */
  ghost predicate Conserved(s: State) {
    forall l :: s.sent[l] == s.copied[l] + InFlight(s.table, l)
  }

  ghost predicate Safe(s: State) {
    && TableOk(s.table)
    && Acyclic(SendEdges(s.table)) && Acyclic(RecvEdges(s.table))
    && NoneMissed(s.table)
    && Conserved(s)
  }

  lemma InFlightUpdate(t: Table, l: Letter, i: int, p: Proc)
    requires 0 <= i < |t|
    ensures InFlight(t[i := p], l) == InFlight(t, l) + Holds(p, l) - Holds(t[i], l)
  {
    HeldUpdate(t, l, |t|, i, p);
  }

  // One step, letter by letter

  lemma SendConserves(s: State, me: int, dest: int, m: Msg, l: Letter)
    requires TableOk(s.table) && CanCall(s.table, me, dest) && IsSlot(dest)
    ensures var s' := After(Intended, s, Send(me, dest, m));
      s'.sent[l] - s'.copied[l] - InFlight(s'.table, l) == s.sent[l] - s.copied[l] - InFlight(s.table, l)
  {
    var t := s.table;
    var u := SendStep(t, me, dest, m).table;
    InFlightUpdate(t, l, dest, u[dest]);
    InFlightUpdate(t, l, me, u[me]);
  }

  lemma RecvConserves(v: Variant, s: State, me: int, source: int, l: Letter)
    requires TableOk(s.table) && CanCall(s.table, me, source) && (IsSlot(source) || source == ANY)
    ensures var s' := After(v, s, Recv(me, source));
      s'.sent[l] - s'.copied[l] - InFlight(s'.table, l) == s.sent[l] - s.copied[l] - InFlight(s.table, l)
  {
    hide Hits, InFlight;
    var t := s.table;
    var u := RecvStep(v, t, me, source).table;
    var p := SenderOf(t, me, source);
    InFlightUpdate(t, l, me, u[me]);
    if p != NPROC {
      InFlightUpdate(t[me := u[me]], l, p, u[p]);
      assert u[me].state == RUNNABLE || u[me].state == SLEEPING || u == t;
      assert u == t || u == t[me := u[me]][p := u[p]];
    }
  }

  lemma SendMissesNone(t: Table, me: int, dest: int, m: Msg)
    requires TableOk(t) && NoneMissed(t) && CanCall(t, me, dest) && IsSlot(dest)
    ensures NoneMissed(SendStep(t, me, dest, m).table)
  {
    var u := SendStep(t, me, dest, m).table;
    forall p, q | IsSlot(p) && IsSlot(q) && Offering(u, p, q) ensures !Waiting(u, q, p) {
      assert p == me || (Offering(t, p, q) && !Waiting(t, q, p));
    }
  }

  lemma RecvMissesNone(v: Variant, t: Table, me: int, source: int)
    requires TableOk(t) && NoneMissed(t) && CanCall(t, me, source) && (IsSlot(source) || source == ANY)
    ensures NoneMissed(RecvStep(v, t, me, source).table)
  {
    var u := RecvStep(v, t, me, source).table;
    forall p, q | IsSlot(p) && IsSlot(q) && Offering(u, p, q) ensures !Waiting(u, q, p) {
      assert Offering(t, p, q) && !Waiting(t, q, p);
    }
  }

  lemma SendKeepsSafe(v: Variant, s: State, me: int, dest: int, m: Msg)
    requires Safe(s)
    ensures Safe(After(v, s, Send(me, dest, m)))
  {
    var t := s.table;
    if CanCall(t, me, dest) && IsSlot(dest) {
      SendMissesNone(t, me, dest, m);
      forall l {
        SendConserves(s, me, dest, m, l);
      }
      SendKeepsEdges(t, me, dest, m);
    }
  }

  lemma RecvKeepsSafe(v: Variant, s: State, me: int, source: int)
    requires Safe(s)
    ensures Safe(After(v, s, Recv(me, source)))
  {
    var t := s.table;
    if CanCall(t, me, source) && (IsSlot(source) || source == ANY) {
      RecvMissesNone(v, t, me, source);
      forall l {
        RecvConserves(v, s, me, source, l);
      }
      RecvKeepsEdges(v, t, me, source);
    }
  }

  lemma WakeKeepsSafe(v: Variant, s: State, w: Ptr)
    requires Safe(s)
    ensures Safe(After(v, s, WakeUp(w)))
  {
    var t, u := s.table, Woken(s.table, w);
    FewerEdgesKeeps(t, u);
    forall l ensures InFlight(u, l) == InFlight(t, l) {
      HeldSame(t, u, l, |t|);
    }
    forall p, q | IsSlot(p) && IsSlot(q) && Offering(u, p, q) ensures !Waiting(u, q, p) {
      assert Offering(t, p, q) && !Waiting(t, q, p);
    }
  }

  ghost function Run(v: Variant, s: State, events: seq<Event>): State
    decreases |events|
  {
    if events == [] then s else Run(v, After(v, s, events[0]), events[1..])
  }

  lemma {:induction false} RunKeepsSafe(v: Variant, s: State, events: seq<Event>)
    requires Safe(s)
    ensures Safe(Run(v, s, events))
    decreases |events|
  {
    if events != [] {
      SafeStep(v, s, events[0]);
      RunKeepsSafe(v, After(v, s, events[0]), events[1..]);
    }
  }

  lemma SafeStep(v: Variant, s: State, e: Event)
    requires Safe(s)
    ensures Safe(After(v, s, e))
  {
    match e
    case Send(me, dest, m) => SendKeepsSafe(v, s, me, dest, m);
    case Recv(me, source) => RecvKeepsSafe(v, s, me, source);
    case WakeUp(w) => WakeKeepsSafe(v, s, w);
  }

  /**
   Over every run from a table in which nobody is blocked in a call: the wait edges
   stay acyclic, no rendezvous is missed, and every letter sent has been copied to
   its addressee once or is still held by its blocked sender.
   */
  lemma RendezvousSafety(v: Variant, boot: Table, events: seq<Event>)
    requires |boot| == NPROC
    requires forall p :: IsSlot(p) ==> boot[p].state != SENDING && boot[p].state != RECVING
    ensures var r := Run(v, State(boot, multiset{}, multiset{}), events);
      && TableOk(r.table)
      && Acyclic(SendEdges(r.table)) && Acyclic(RecvEdges(r.table))
      && NoneMissed(r.table) && Conserved(r)
  {
    forall p | IsSlot(p)
      ensures Terminates(SendEdges(boot), p) && Terminates(RecvEdges(boot), p)
    {
      assert Ends(SendEdges(boot), p, 0) && Ends(RecvEdges(boot), p, 0);
    }
    forall l ensures InFlight(boot, l) == 0 {
      NothingHeld(boot, l, |boot|);
    }
    RunKeepsSafe(v, State(boot, multiset{}, multiset{}), events);
  }

  lemma {:induction false} NothingHeld(t: Table, l: Letter, n: nat)
    requires n <= |t| && forall p :: 0 <= p < n ==> t[p].state != SENDING
    ensures Held(t, l, n) == 0
  {
    if n > 0 {
      NothingHeld(t, l, n - 1);
    }
  }
}
