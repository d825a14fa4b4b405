/** The scheduler (`kernel/proc.c`) and the timer's part in it (`kernel/trap.c`). */
module Sched {
  const IDLE := 0   // the slot of the idle task

  datatype Proc = Proc(runnable: bool, counter: nat, priority: nat)

  /** The idle task is always RUNNABLE and keeps its counter of 1. */
  predicate IdleOk(ps: seq<Proc>) {
    |ps| > 0 && ps[IDLE] == Proc(true, 1, 1)
  }

  predicate Ready(ps: seq<Proc>, q: nat) { IDLE < q < |ps| && ps[q].runnable }

  /** Some process other than the idle task can run. */
  ghost predicate Busy(ps: seq<Proc>) { exists q: nat :: Ready(ps, q) }

  /** One of them has a counter that beats the idle task's. */
  ghost predicate HasTime(ps: seq<Proc>) { exists q: nat :: Ready(ps, q) && ps[q].counter >= 2 }

  function Refill(ps: seq<Proc>): seq<Proc> {
    seq(|ps|, i requires 0 <= i < |ps| => ps[i].(counter := ps[i].priority))
  }

  /** schedule ends: somebody can be picked now, or after a refill. */
  ghost predicate Settles(ps: seq<Proc>) {
    Busy(ps) ==> HasTime(ps) || HasTime(Refill(ps))
  }

  /** `k` is RUNNABLE, has the largest counter of all that are, and is the first of those. */
  predicate Best(ps: seq<Proc>, k: nat) {
    && k < |ps| && ps[k].runnable
    && (forall q :: 0 <= q < |ps| && ps[q].runnable ==> ps[q].counter <= ps[k].counter)
    && (forall q :: 0 <= q < k && ps[q].runnable ==> ps[q].counter < ps[k].counter)
  }

  /** What schedule does to the counters, and whom it picks. */
  ghost predicate Picked(ps: seq<Proc>, ps': seq<Proc>, k: nat) {
    if !Busy(ps) then ps' == ps && k == IDLE
    else ps' == (if HasTime(ps) then ps else Refill(ps)) && Ready(ps', k) && Best(ps', k) && ps'[k].counter >= 2
  }

  /** Some process can run, and all that can have used up their time: that ends a round. */
  ghost predicate RoundOver(ps: seq<Proc>) {
    && (exists q :: IDLE < q < |ps| && ps[q].runnable)
    && (forall q :: IDLE < q < |ps| && ps[q].runnable ==> ps[q].counter < 2)
  }

  /**
   Picked says no more and no less than this: at the end of a round every process gets its priority for a counter,
   and otherwise nothing changes; then the first of the runnable processes with the largest counter runs, the idle
   task only if no other can.
   */
  lemma PickedMeans(ps: seq<Proc>, ps': seq<Proc>, k: nat)
    requires IdleOk(ps) && Settles(ps)
    ensures Picked(ps, ps', k) <==>
      && |ps'| == |ps| > k
      && (forall q :: 0 <= q < |ps| ==>
           && ps'[q].counter == (if RoundOver(ps) then ps[q].priority else ps[q].counter)
           && ps'[q].priority == ps[q].priority && ps'[q].runnable == ps[q].runnable)
      && ps'[k].runnable
      && (forall q :: 0 <= q < |ps'| && ps'[q].runnable ==>
           ps'[q].counter <= ps'[k].counter && (q < k ==> ps'[q].counter < ps'[k].counter))
  {
    assert Busy(ps) <==> exists q :: IDLE < q < |ps| && ps[q].runnable by {
      if q: nat :| Ready(ps, q) { assert IDLE < q < |ps| && ps[q].runnable; }
      if q :| IDLE < q < |ps| && ps[q].runnable { assert Ready(ps, q); }
    }
    assert RoundOver(ps) <==> Busy(ps) && !HasTime(ps) by {
      if q: nat :| Ready(ps, q) && ps[q].counter >= 2 { assert !RoundOver(ps); }
      if Busy(ps) && !RoundOver(ps) {
        var q :| IDLE < q < |ps| && ps[q].runnable && ps[q].counter >= 2;
        assert Ready(ps, q);
      }
    }
    var r := if RoundOver(ps) then Refill(ps) else ps;
    if Picked(ps, ps', k) {
      assert ps' == r;
    }
  }

  /** When schedule does not end: a scan picks the idle task, and a refill leads nowhere. */
  lemma NeverEnds(ps: seq<Proc>)
    requires IdleOk(ps) && !Settles(ps)
    ensures Best(ps, IDLE) && Busy(ps)
    ensures IdleOk(Refill(ps)) && Best(Refill(ps), IDLE) && !Settles(Refill(ps))
  {
    var r := Refill(ps);
    assert forall q :: Ready(ps, q) <==> Ready(r, q);
    assert Refill(r) == r;
    var q: nat :| Ready(ps, q);
    assert Ready(r, q);
    forall q | 0 <= q < |ps| && ps[q].runnable ensures ps[q].counter <= 1 && r[q].counter <= 1 {
      if q != IDLE { assert Ready(ps, q) && Ready(r, q); }
    }
  }

  class Scheduler {
    const procs: array<Proc>
    var current: nat

    /**
     The loop of schedule, up to the switch. It ends in two scans exactly when Settles holds;
     `scans` counts them.
     */
    method Schedule() returns (ghost scans: nat)
      requires IdleOk(procs[..]) && Settles(procs[..])
      modifies this`current, procs
      ensures Picked(old(procs[..]), procs[..], current) && 1 <= scans <= 2
      ensures IdleOk(procs[..])
      ensures forall q :: 0 <= q < procs.Length ==>
        && procs[q].counter == (if RoundOver(old(procs[..])) then old(procs[q].priority) else old(procs[q].counter))
        && procs[q].priority == old(procs[q].priority) && procs[q].runnable == old(procs[q].runnable)
      ensures current < procs.Length && procs[current].runnable
      ensures forall q :: 0 <= q < procs.Length && procs[q].runnable ==>
        procs[q].counter <= procs[current].counter && (q < current ==> procs[q].counter < procs[current].counter)
      ensures current == IDLE <==> forall q :: IDLE < q < procs.Length ==> !procs[q].runnable
    {
      ghost var ps0 := procs[..];
      var c: nat, idle := 0, true;
      scans := 0;
      while true
        invariant scans <= 1 && IdleOk(procs[..])
        invariant scans == 0 ==> procs[..] == ps0 && c == 0 && idle
        invariant scans == 1 ==>
          Busy(ps0) && !HasTime(ps0) && procs[..] == Refill(ps0) && !idle && c == 1 && current == IDLE
        decreases 1 - scans
      {
        var p := 0;
        ghost var c0, idle0 := c, idle;
        while p < procs.Length
          invariant 0 <= p <= procs.Length && procs[..] == (if scans == 0 then ps0 else Refill(ps0))
          invariant c >= c0 && (p > 0 ==> c >= 1)
          invariant idle <==> idle0 && forall q :: 0 < q < p ==> !procs[q].runnable
          invariant forall q :: 0 <= q < p && procs[q].runnable ==> procs[q].counter <= c
          invariant c > c0 ==> current < p && procs[current].runnable && procs[current].counter == c
          invariant c > c0 ==> forall q :: 0 <= q < current && procs[q].runnable ==> procs[q].counter < c
          invariant c == c0 ==> scans == 1 ==> current == IDLE
          invariant p > 0 && scans == 0 ==> c > c0
        {
          if procs[p].runnable {
            if p != IDLE { idle := false; }
            if procs[p].counter > c {
              c := procs[p].counter;
              current := p;
            }
          }
          p := p + 1;
        }
        RefillIdle(ps0);
        assert idle <==> !Busy(procs[..]) by {
          if !idle && scans == 0 {
            var q :| 0 < q < p && procs[q].runnable;
            assert Ready(procs[..], q);
          }
        }
        assert Scanned(procs[..], c0, c, current, idle);
        scans := scans + 1;
        if scans == 1 { FirstScan(ps0, c, current, idle); } else { SecondScan(ps0, c, current, idle); }
        if (current == IDLE && idle) || current != IDLE { break; }
        p := 0;
        while p < procs.Length
          invariant 0 <= p <= procs.Length && procs.Length == |ps0| && current == IDLE
          invariant forall q :: 0 <= q < procs.Length ==>
            procs[q] == if q < p then ps0[q].(counter := ps0[q].priority) else ps0[q]
        {
          procs[p] := procs[p].(counter := procs[p].priority);
          p := p + 1;
        }
        assert procs[..] == Refill(ps0);
      }
    }

    /** The timer interrupt, up to the call of sched. */
    method Timer()
      requires current < procs.Length && (current != IDLE ==> procs[current].counter >= 1)
      modifies procs
      ensures procs[..] == Ticked(old(procs[..]), current)
      ensures forall q :: 0 <= q < procs.Length ==>
        procs[q] == old(procs[q]).(counter := procs[q].counter)
        && procs[q].counter == old(procs[q].counter) - (if q == current != IDLE then 1 else 0)
    {
      if current != IDLE {
        procs[current] := procs[current].(counter := procs[current].counter - 1);
      }
    }
  }

  function Ticked(ps: seq<Proc>, k: nat): seq<Proc>
    requires k < |ps| && (k != IDLE ==> ps[k].counter >= 1)
  {
    if k == IDLE then ps else ps[k := ps[k].(counter := ps[k].counter - 1)]
  }

  /** What a whole scan of `ps` leaves: the largest counter `c`, if above `c0`, and the first process that has it. */
  ghost predicate Scanned(ps: seq<Proc>, c0: nat, c: nat, k: nat, idle: bool) {
    && (idle <==> !Busy(ps))
    && (forall q :: 0 <= q < |ps| && ps[q].runnable ==> ps[q].counter <= c)
    && (if c > c0 then Best(ps, k) && ps[k].counter == c else c == c0 && (c0 == 1 ==> k == IDLE))
  }

  lemma FirstScan(ps: seq<Proc>, c: nat, k: nat, idle: bool)
    requires IdleOk(ps) && Scanned(ps, 0, c, k, idle)
    ensures (k == IDLE && idle) || k != IDLE ==> Picked(ps, ps, k)
    ensures k == IDLE && !idle ==> Busy(ps) && !HasTime(ps) && c == 1
  {
    assert ps[IDLE].runnable && ps[IDLE].counter == 1;
    if k != IDLE {
      assert Ready(ps, k);
    }
  }

  lemma SecondScan(ps0: seq<Proc>, c: nat, k: nat, idle: bool)
    requires IdleOk(ps0) && Settles(ps0) && Busy(ps0) && !HasTime(ps0) && Scanned(Refill(ps0), 1, c, k, idle)
    ensures k != IDLE && Picked(ps0, Refill(ps0), k)
  {
    var ps := Refill(ps0);
    var q: nat :| Ready(ps, q) && ps[q].counter >= 2;
    assert c >= 2 && Best(ps, k);
    assert ps[IDLE].counter == 1;
  }

  lemma RefillIdle(ps: seq<Proc>)
    requires IdleOk(ps)
    ensures IdleOk(Refill(ps)) && (Busy(Refill(ps)) <==> Busy(ps))
  {
    assert forall q :: Ready(ps, q) <==> Ready(Refill(ps), q);
  }

  // Whole runs

  datatype State = State(ps: seq<Proc>, current: nat)

  /**
   What changes the scheduler's state: a timer tick; the process that runs goes to sleep, or calls sched though it
   could go on; one wakes up; MM stops one that is to exit; a child takes over its parent's priority and counter.
   */
  datatype Event = Tick | Sleep | Resched | Wake(q: nat) | Stop(q: nat) | Fork(p: nat, q: nat)

  /** A process that has been set up: all are given a priority that beats the idle task's. */
  predicate Made(p: Proc) { p.priority >= 2 }

  /** When an event can happen. */
  predicate Allowed(s: State, e: Event) {
    && s.current < |s.ps|
    && match e {
         case Tick => true
         case Sleep => s.current != IDLE
         case Resched => true
         case Wake(q) => IDLE < q < |s.ps| && Made(s.ps[q])
         case Stop(q) => IDLE < q < |s.ps| && q != s.current
         case Fork(p, q) => IDLE < p < |s.ps| && Made(s.ps[p]) && IDLE < q < |s.ps| && q != s.current
           && !s.ps[q].runnable
       }
  }

  /** The processes as schedule finds them, for the events that call it. */
  function Before(s: State, e: Event): seq<Proc>
    requires s.current < |s.ps| && (s.current != IDLE ==> s.ps[s.current].counter >= 1)
  {
    match e
    case Tick => Ticked(s.ps, s.current)
    case Sleep => s.ps[s.current := s.ps[s.current].(runnable := false)]
    case _ => s.ps
  }

  ghost predicate Step(s: State, e: Event, t: State) {
    && Allowed(s, e)
    && match e {
         case Wake(q) => t == s.(ps := s.ps[q := s.ps[q].(runnable := true)])
         case Stop(q) => t == s.(ps := s.ps[q := s.ps[q].(runnable := false)])
         case Fork(p, q) => t == s.(ps := s.ps[q := Proc(false, s.ps[p].counter, s.ps[p].priority)])
         case _ =>
           (s.current != IDLE ==> s.ps[s.current].counter >= 1) && Picked(Before(s, e), t.ps, t.current)
       }
  }

  /** Who can run has been made, no counter is above its priority, and who runs has time left. */
  ghost predicate Ok(s: State) {
    && IdleOk(s.ps) && s.current < |s.ps| && PsOk(s.ps)
    && (s.current != IDLE ==> Made(s.ps[s.current]) && s.ps[s.current].counter >= 2)
  }

  ghost predicate PsOk(ps: seq<Proc>) {
    forall q :: 0 < q < |ps| ==> ps[q].counter <= ps[q].priority && (ps[q].runnable ==> Made(ps[q]))
  }

  lemma OkSettles(ps: seq<Proc>)
    requires IdleOk(ps) && PsOk(ps)
    ensures Settles(ps)
  {
    if Busy(ps) {
      var q: nat :| Ready(ps, q);
      assert Ready(Refill(ps), q) && Refill(ps)[q].counter >= 2;
    }
  }

  lemma PickOk(ps: seq<Proc>, t: State)
    requires IdleOk(ps) && PsOk(ps) && Picked(ps, t.ps, t.current)
    ensures Ok(t) && |t.ps| == |ps|
  {
    RefillIdle(ps);
  }

  /** No step takes a counter below zero, or lets the one who runs run out: a tick always finds time to take. */
  lemma StepOk(s: State, e: Event, t: State)
    requires Ok(s) && Step(s, e, t)
    ensures Ok(t) && |t.ps| == |s.ps|
  {
    if e.Tick? || e.Sleep? || e.Resched? {
      PickOk(Before(s, e), t);
    }
  }

  /** Schedule always picks somebody. */
  lemma PickExists(ps: seq<Proc>) returns (k: nat)
    requires IdleOk(ps) && PsOk(ps)
    ensures Picked(ps, if !Busy(ps) || HasTime(ps) then ps else Refill(ps), k)
  {
    OkSettles(ps);
    RefillIdle(ps);
    var r := if !Busy(ps) || HasTime(ps) then ps else Refill(ps);
    k := FindBest(r, |r|);
    if !Busy(ps) {
      assert forall q :: 0 < q < |ps| ==> !Ready(ps, q);
      k := IDLE;
    } else {
      var q: nat :| Ready(r, q) && r[q].counter >= 2;
      assert r[IDLE].counter == 1;
    }
  }

  /** From a good state every event leads somewhere: the timer finds a tick to take, and schedule a process. */
  lemma StepExists(s: State, e: Event) returns (t: State)
    requires Ok(s) && Allowed(s, e)
    ensures Step(s, e, t)
  {
    match e {
      case Wake(q) => t := s.(ps := s.ps[q := s.ps[q].(runnable := true)]);
      case Stop(q) => t := s.(ps := s.ps[q := s.ps[q].(runnable := false)]);
      case Fork(p, q) => t := s.(ps := s.ps[q := Proc(false, s.ps[p].counter, s.ps[p].priority)]);
      case _ =>
        var ps := Before(s, e);
        var k := PickExists(ps);
        t := State(if !Busy(ps) || HasTime(ps) then ps else Refill(ps), k);
    }
  }

  ghost predicate Run(ss: seq<State>, es: seq<Event>) {
    |ss| == |es| + 1 && forall i :: 0 <= i < |es| ==> Step(ss[i], es[i], ss[i + 1])
  }

  /** Over every run the state stays good, so that whatever can happen next has a state to go to. */
  lemma {:induction false} RunOk(ss: seq<State>, es: seq<Event>, n: nat, e: Event) returns (t: State)
    requires Run(ss, es) && Ok(ss[0]) && n <= |es|
    ensures Ok(ss[n]) && |ss[n].ps| == |ss[0].ps|
    ensures Allowed(ss[n], e) ==> Step(ss[n], e, t) && Ok(t)
    decreases n
  {
    t := ss[n];
    if n > 0 {
      var _ := RunOk(ss, es, n - 1, e);
      StepOk(ss[n - 1], es[n - 1], ss[n]);
    }
    if Allowed(ss[n], e) {
      t := StepExists(ss[n], e);
      StepOk(ss[n], e, t);
    }
  }

  lemma {:induction false} FindBest(ps: seq<Proc>, n: nat) returns (k: nat)
    requires IdleOk(ps) && 0 < n <= |ps|
    ensures k < n && Best(ps[..n], k)
  {
    if n == 1 {
      k := IDLE;
    } else {
      k := FindBest(ps, n - 1);
      assert forall q :: 0 <= q < n - 1 ==> ps[..n][q] == ps[..n - 1][q];
      if ps[n - 1].runnable && ps[n - 1].counter > ps[k].counter { k := n - 1; }
    }
  }

  /** The time the others have left before they are all down to 1, `p` not counted. */
  function TimeLeft(ps: seq<Proc>, p: nat, n: nat): nat
    requires n <= |ps|
  {
    if n <= 1 then 0
    else TimeLeft(ps, p, n - 1) + (if n - 1 != p && ps[n - 1].counter > 1 then ps[n - 1].counter - 1 else 0)
  }

  /** The same with full counters: the sum of priority - 1 over the other processes. */
  function FullTime(ps: seq<Proc>, p: nat, n: nat): nat
    requires n <= |ps|
  {
    if n <= 1 then 0
    else FullTime(ps, p, n - 1) + (if n - 1 != p && ps[n - 1].priority > 1 then ps[n - 1].priority - 1 else 0)
  }

  lemma {:induction false} TimeSame(ps: seq<Proc>, rs: seq<Proc>, p: nat, n: nat)
    requires n <= |ps| == |rs| && forall q :: 0 <= q < n ==> rs[q].counter == ps[q].counter
    ensures TimeLeft(rs, p, n) == TimeLeft(ps, p, n)
  {
    if n > 1 { TimeSame(ps, rs, p, n - 1); }
  }

  lemma {:induction false} TimeTick(ps: seq<Proc>, k: nat, p: nat, n: nat)
    requires 0 < k < |ps| && n <= |ps| && ps[k].counter >= 2 && k != p
    ensures TimeLeft(Ticked(ps, k), p, n) == TimeLeft(ps, p, n) - (if k < n then 1 else 0)
  {
    if n > 1 { TimeTick(ps, k, p, n - 1); }
  }

  lemma {:induction false} TimeBound(ps: seq<Proc>, p: nat, n: nat)
    requires n <= |ps| && forall q :: 0 < q < |ps| ==> ps[q].counter <= ps[q].priority
    ensures TimeLeft(ps, p, n) <= FullTime(ps, p, n)
  {
    if n > 1 { TimeBound(ps, p, n - 1); }
  }

  /** `p` waits: it can run, has time left, and somebody else runs. */
  ghost predicate Waits(s: State, p: nat) {
    Ready(s.ps, p) && s.ps[p].counter >= 2 && s.current != IDLE && s.current != p
  }

  /** While `p` waits nothing is refilled, and each tick uses up time of the others. */
  lemma WaitStep(s: State, e: Event, t: State, p: nat)
    requires Ok(s) && Step(s, e, t) && Waits(s, p) && t.current != p && Ready(t.ps, p) && !e.Fork?
    ensures Ok(t) && Waits(t, p) && |t.ps| == |s.ps|
    ensures TimeLeft(t.ps, p, |t.ps|) == TimeLeft(s.ps, p, |s.ps|) - (if e == Tick then 1 else 0)
  {
    StepOk(s, e, t);
    match e {
      case Tick =>
        var ps := Ticked(s.ps, s.current);
        assert Ready(ps, p) && ps[p].counter >= 2;
        TimeTick(s.ps, s.current, p, |s.ps|);
      case Sleep =>
        var ps := s.ps[s.current := s.ps[s.current].(runnable := false)];
        assert Ready(ps, p) && ps[p].counter >= 2;
        TimeSame(s.ps, ps, p, |ps|);
      case Resched =>
      case Wake(_) => TimeSame(s.ps, t.ps, p, |s.ps|);
      case Stop(_) => TimeSame(s.ps, t.ps, p, |s.ps|);
      case Fork(_, _) =>
    }
  }

  function Ticks(es: seq<Event>): nat {
    if es == [] then 0 else Ticks(es[..|es| - 1]) + (if es[|es| - 1] == Tick then 1 else 0)
  }

  lemma {:induction false} WaitRun(ss: seq<State>, es: seq<Event>, p: nat, n: nat)
    requires Run(ss, es) && Ok(ss[0]) && Waits(ss[0], p) && n <= |es|
    requires forall i :: 0 <= i < |ss| ==> ss[i].current != p && Ready(ss[i].ps, p)
    requires forall i :: 0 <= i < |es| ==> !es[i].Fork?
    ensures Ok(ss[n]) && Waits(ss[n], p) && |ss[n].ps| == |ss[0].ps|
    ensures Ticks(es[..n]) + TimeLeft(ss[n].ps, p, |ss[n].ps|) == TimeLeft(ss[0].ps, p, |ss[0].ps|)
  {
    if n > 0 {
      WaitRun(ss, es, p, n - 1);
      assert es[..n][..n - 1] == es[..n - 1];
      WaitStep(ss[n - 1], es[n - 1], ss[n], p);
    }
  }

  /**
   Bounded waiting. From a state where schedule has just picked somebody else, a process that stays
   RUNNABLE, with time left (as after a refill), is picked before more ticks have passed than the
   other processes have priority - 1 in sum, whatever sleeps, wakes, stops or yields in between.
   */
  lemma BoundedWaiting(ss: seq<State>, es: seq<Event>, p: nat)
    requires Run(ss, es) && Ok(ss[0]) && Waits(ss[0], p)
    requires forall i :: 0 <= i < |ss| ==> ss[i].current != p && Ready(ss[i].ps, p)
    requires forall i :: 0 <= i < |es| ==> !es[i].Fork?
    ensures Ticks(es) <= TimeLeft(ss[0].ps, p, |ss[0].ps|) <= FullTime(ss[0].ps, p, |ss[0].ps|)
  {
    WaitRun(ss, es, p, |es|);
    assert es[..|es|] == es;
    TimeBound(ss[0].ps, p, |ss[0].ps|);
  }

  lemma {:induction false} FullSame(ps: seq<Proc>, rs: seq<Proc>, p: nat, n: nat)
    requires n <= |ps| == |rs| && forall q :: 0 <= q < n ==> rs[q].priority == ps[q].priority
    ensures FullTime(rs, p, n) == FullTime(ps, p, n)
  {
    if n > 1 { FullSame(ps, rs, p, n - 1); }
  }

  /** Ticks still to come at most: with no time left, `p` has a refill to wait for first. */
  function Bound(ps: seq<Proc>, p: nat): nat
    requires p < |ps|
  {
    TimeLeft(ps, p, |ps|) + (if ps[p].counter >= 2 then 0 else FullTime(ps, p, |ps|))
  }

  /** Picking raises the bound in no case. */
  lemma PickBound(ps: seq<Proc>, t: State, p: nat)
    requires Ready(ps, p) && Picked(ps, t.ps, t.current) && Ok(t)
    ensures p < |t.ps| && t.current != IDLE && Bound(t.ps, p) <= Bound(ps, p)
  {
    assert Busy(ps);
    if t.ps != ps {
      TimeBound(t.ps, p, |ps|);
      FullSame(ps, t.ps, p, |ps|);
    }
  }

  lemma BoundStep(s: State, e: Event, t: State, p: nat)
    requires Ok(s) && Step(s, e, t) && Ready(s.ps, p) && s.current != IDLE && s.current != p && Ready(t.ps, p)
      && !e.Fork?
    ensures Ok(t) && t.current != IDLE && Bound(t.ps, p) <= Bound(s.ps, p) - (if e == Tick then 1 else 0)
  {
    StepOk(s, e, t);
    match e {
      case Tick =>
        var ps := Ticked(s.ps, s.current);
        assert Ready(ps, p);
        TimeTick(s.ps, s.current, p, |s.ps|);
        FullSame(s.ps, ps, p, |ps|);
        PickBound(ps, t, p);
      case Sleep =>
        var ps := s.ps[s.current := s.ps[s.current].(runnable := false)];
        assert Ready(ps, p);
        TimeSame(s.ps, ps, p, |ps|);
        FullSame(s.ps, ps, p, |ps|);
        PickBound(ps, t, p);
      case Resched => PickBound(s.ps, t, p);
      case Wake(_) =>
        TimeSame(s.ps, t.ps, p, |s.ps|);
        FullSame(s.ps, t.ps, p, |s.ps|);
      case Stop(_) =>
        TimeSame(s.ps, t.ps, p, |s.ps|);
        FullSame(s.ps, t.ps, p, |s.ps|);
      case Fork(_, _) =>
    }
  }

  lemma {:induction false} BoundRun(ss: seq<State>, es: seq<Event>, p: nat, n: nat)
    requires Run(ss, es) && Ok(ss[0]) && ss[0].current != IDLE && n <= |es|
    requires forall i :: 0 <= i < |ss| ==> ss[i].current != p && Ready(ss[i].ps, p)
    requires forall i :: 0 <= i < |es| ==> !es[i].Fork?
    ensures Ready(ss[n].ps, p) && Ready(ss[0].ps, p)
    ensures Ok(ss[n]) && ss[n].current != IDLE && Ticks(es[..n]) + Bound(ss[n].ps, p) <= Bound(ss[0].ps, p)
  {
    if n > 0 {
      BoundRun(ss, es, p, n - 1);
      assert es[..n][..n - 1] == es[..n - 1];
      BoundStep(ss[n - 1], es[n - 1], ss[n], p);
    }
  }

  /** A process that has used up its time waits for the refill as well: no process that stays RUNNABLE starves. */
  lemma NoStarvation(ss: seq<State>, es: seq<Event>, p: nat)
    requires Run(ss, es) && Ok(ss[0]) && ss[0].current != IDLE
    requires forall i :: 0 <= i < |ss| ==> ss[i].current != p && Ready(ss[i].ps, p)
    requires forall i :: 0 <= i < |es| ==> !es[i].Fork?
    ensures Ticks(es) <= TimeLeft(ss[0].ps, p, |ss[0].ps|) + FullTime(ss[0].ps, p, |ss[0].ps|)
  {
    BoundRun(ss, es, p, |es|);
    assert es[..|es|] == es;
  }
}
