/** The block cache (`fs/cache.c`): buffers on a doubly linked list in the order of their release. */
module Cache {
  type Block = seq<nat>
  type Sector = (nat, nat)   // device and sector number

  const NBUF := 64
  const HEAD := 0            // cache.head; the buffers are nodes 1 to NBUF

  datatype Buf = Buf(dev: int, sector: nat, valid: bool, dirty: bool, data: Block)

  // The list: node 0 of the order is the head, node i the buffer released i-th last

  function Node(order: seq<nat>, i: nat): nat
    requires i <= |order| + 1
  {
    if i == 0 || i == |order| + 1 then HEAD else order[i - 1]
  }

  /** Every buffer is on the list once. */
  ghost predicate Permutation(order: seq<nat>) {
    && |order| == NBUF
    && (forall i :: 0 <= i < |order| ==> 1 <= order[i] <= NBUF)
    && (forall i, j :: 0 <= i < j < |order| ==> order[i] != order[j])
    && (forall b :: 1 <= b <= NBUF ==> b in order)
  }

  ghost predicate Linked(next: seq<nat>, prev: seq<nat>, order: seq<nat>) {
    && |next| == |prev| == NBUF + 1 && Permutation(order)
    && (forall i :: 0 <= i <= NBUF ==> LinkAt(next, prev, order, i))
  }

  /** Node `i` and the one after it point to each other. */
  ghost predicate LinkAt(next: seq<nat>, prev: seq<nat>, order: seq<nat>, i: nat)
    requires |next| == |prev| == NBUF + 1 && |order| == NBUF && i <= NBUF
  {
    && Node(order, i) <= NBUF && Node(order, i + 1) <= NBUF
    && next[Node(order, i)] == Node(order, i + 1) && prev[Node(order, i + 1)] == Node(order, i)
  }

  /** Buffer `order[i]` moved to the front. */
  function ToFront(order: seq<nat>, i: nat): seq<nat>
    requires i < |order|
  {
    [order[i]] + order[..i] + order[i + 1..]
  }

  // What brelse writes, and what it does to the order

  function Relinked(next: seq<nat>, prev: seq<nat>, b: nat): (r: (seq<nat>, seq<nat>))
    requires |next| == |prev| == NBUF + 1 && b <= NBUF && next[b] <= NBUF && prev[b] <= NBUF
    requires next[prev[b] := next[b]][HEAD] <= NBUF
    ensures |r.0| == |r.1| == NBUF + 1
  {
    var p1 := prev[next[b] := prev[b]];
    var n1 := next[p1[b] := next[b]];
    var n2 := n1[b := n1[HEAD]];
    var p2 := p1[b := HEAD];
    var p3 := p2[n2[HEAD] := b];
    (n2[HEAD := b], p3)
  }

  lemma NodesDistinct(order: seq<nat>, i: nat, j: nat)
    requires Permutation(order) && i < j <= NBUF
    ensures Node(order, i) != Node(order, j)
  {
  }

  lemma FrontNode(order: seq<nat>, i: nat, j: nat)
    requires Permutation(order) && i < NBUF && j <= NBUF + 1
    ensures |ToFront(order, i)| == NBUF
    ensures Node(ToFront(order, i), j) == if j == 1 then order[i] else if 2 <= j <= i + 1 then Node(order, j - 1)
      else Node(order, j)
  {
  }

  lemma FrontPermutes(order: seq<nat>, i: nat)
    requires Permutation(order) && i < NBUF
    ensures Permutation(ToFront(order, i))
  {
    var f := ToFront(order, i);
    forall j | 0 <= j < NBUF ensures f[j] == if j == 0 then order[i] else if j <= i then order[j - 1] else order[j] {}
    hide ToFront;
    forall b | 1 <= b <= NBUF ensures b in f {
      assert b in order;
      var j :| 0 <= j < |order| && order[j] == b;
      assert f[if j == i then 0 else if j < i then j + 1 else j] == b;
    }
  }

  /** The buffer at place `i` and its neighbours. */
  lemma Neighbours(next: seq<nat>, prev: seq<nat>, order: seq<nat>, i: nat)
    requires Linked(next, prev, order) && i < NBUF
    ensures |order| == NBUF && |next| == |prev| == NBUF + 1 && order[i] == Node(order, i + 1)
    ensures next[order[i]] == Node(order, i + 2) <= NBUF && prev[order[i]] == Node(order, i) <= NBUF
    ensures next[HEAD] == Node(order, 1) <= NBUF
    ensures next[prev[order[i]] := next[order[i]]][HEAD] == (if i == 0 then Node(order, 2) else Node(order, 1))
  {
    assert LinkAt(next, prev, order, i) && LinkAt(next, prev, order, i + 1) && LinkAt(next, prev, order, 0);
    if i > 0 { NodesDistinct(order, 0, i); }
  }

  /** The pointers after the moves. */
  lemma RelinkedIs(next: seq<nat>, prev: seq<nat>, order: seq<nat>, i: nat, x: nat)
    requires Linked(next, prev, order) && i < NBUF && x <= NBUF && |order| == NBUF && |next| == |prev| == NBUF + 1
    requires next[order[i]] <= NBUF && prev[order[i]] <= NBUF && next[prev[order[i]] := next[order[i]]][HEAD] <= NBUF
    ensures var (n, p) := Relinked(next, prev, order[i]);
      var first := if i == 0 then Node(order, 2) else Node(order, 1);
      && n[x] == (if x == HEAD then order[i] else if x == order[i] then first
        else if x == Node(order, i) then Node(order, i + 2) else next[x])
      && p[x] == (if x == first then order[i] else if x == order[i] then HEAD
        else if x == Node(order, i + 2) then Node(order, i) else prev[x])
  {
    Neighbours(next, prev, order, i);
    NodesDistinct(order, 0, i + 1);
    NodesDistinct(order, i, i + 1);
    if i + 2 <= NBUF { NodesDistinct(order, i + 1, i + 2); }
    hide Linked, Permutation;
  }

  lemma NextAfter(next: seq<nat>, prev: seq<nat>, order: seq<nat>, i: nat, j: nat)
    requires Linked(next, prev, order) && i < NBUF && j <= NBUF && |order| == NBUF && |next| == |prev| == NBUF + 1
    requires next[order[i]] <= NBUF && prev[order[i]] <= NBUF && next[prev[order[i]] := next[order[i]]][HEAD] <= NBUF
    ensures |ToFront(order, i)| == NBUF && Node(ToFront(order, i), j) <= NBUF && Node(ToFront(order, i), j + 1) <= NBUF
    ensures var f := ToFront(order, i);
      && Relinked(next, prev, order[i]).0[Node(f, j)] == Node(f, j + 1)
      && Relinked(next, prev, order[i]).1[Node(f, j + 1)] == Node(f, j)
  {
    var f := ToFront(order, i);
    FrontNode(order, i, j);
    FrontNode(order, i, j + 1);
    NodeRange(order, if 2 <= j <= i + 1 then j - 1 else j);
    NodeRange(order, if 2 <= j + 1 <= i + 1 then j else j + 1);
    NodeRange(order, i + 1);
    RelinkedIs(next, prev, order, i, Node(f, j));
    RelinkedIs(next, prev, order, i, Node(f, j + 1));
    LinkedAt(next, prev, order, if 2 <= j <= i + 1 then j - 1 else j);
    DistinctFrom(order, if 2 <= j <= i + 1 then j - 1 else j);
    DistinctFrom(order, if 2 <= j + 1 <= i + 1 then j else if j == NBUF then 0 else j + 1);
    DistinctFrom(order, i + 1);
    hide Relinked, ToFront, Permutation, Linked, Node;
  }

  lemma NodeRange(order: seq<nat>, j: nat)
    requires Permutation(order) && j <= NBUF + 1
    ensures Node(order, j) <= NBUF && (Node(order, j) == HEAD <==> j == 0 || j == NBUF + 1)
  {
  }

  lemma LinkedAt(next: seq<nat>, prev: seq<nat>, order: seq<nat>, j: nat)
    requires Linked(next, prev, order) && j <= NBUF
    ensures |order| == NBUF && |next| == |prev| == NBUF + 1 && Node(order, j) <= NBUF && Node(order, j + 1) <= NBUF
    ensures next[Node(order, j)] == Node(order, j + 1) && prev[Node(order, j + 1)] == Node(order, j)
  {
    assert LinkAt(next, prev, order, j);
  }

  lemma DistinctFrom(order: seq<nat>, j: nat)
    requires Permutation(order) && j <= NBUF
    ensures forall k :: 0 <= k <= NBUF && k != j ==> Node(order, k) != Node(order, j)
    ensures Node(order, NBUF + 1) == Node(order, 0)
  {
    forall k | 0 <= k <= NBUF && k != j ensures Node(order, k) != Node(order, j) {
      if k < j { NodesDistinct(order, k, j); } else { NodesDistinct(order, j, k); }
    }
  }

  lemma MakeLinked(next: seq<nat>, prev: seq<nat>, order: seq<nat>)
    requires |next| == |prev| == NBUF + 1 && Permutation(order)
    requires forall j :: 0 <= j <= NBUF ==> LinkAt(next, prev, order, j)
    ensures Linked(next, prev, order)
  {
  }

  /** The list as binit leaves it. */
  lemma FirstOrder(next: seq<nat>, prev: seq<nat>, order: seq<nat>)
    requires |next| == |prev| == NBUF + 1 && order == seq(NBUF, i requires 0 <= i < NBUF => NBUF - i)
    requires next[HEAD] == NBUF && prev[HEAD] == 1 && prev[NBUF] == HEAD
    requires forall b :: 1 <= b <= NBUF ==> next[b] == b - 1
    requires forall b :: 1 <= b < NBUF ==> prev[b] == b + 1
    ensures Linked(next, prev, order)
  {
    forall b | 1 <= b <= NBUF ensures b in order {
      assert order[NBUF - b] == b;
    }
    forall j | 0 <= j <= NBUF ensures LinkAt(next, prev, order, j) {
      assert Node(order, j) == (if j == 0 then HEAD else NBUF + 1 - j) && Node(order, j + 1) == NBUF - j;
    }
  }

  /** brelse: the list after the moves is the order with that buffer in front. */
  lemma FrontLinked(next: seq<nat>, prev: seq<nat>, order: seq<nat>, i: nat)
    requires Linked(next, prev, order) && i < NBUF && |order| == NBUF && |next| == |prev| == NBUF + 1
    requires next[order[i]] <= NBUF && prev[order[i]] <= NBUF && next[prev[order[i]] := next[order[i]]][HEAD] <= NBUF
    ensures Linked(Relinked(next, prev, order[i]).0, Relinked(next, prev, order[i]).1, ToFront(order, i))
  {
    FrontPermutes(order, i);
    Neighbours(next, prev, order, i);
    hide Linked, Permutation, Relinked, ToFront, Node;
    var f := ToFront(order, i);
    NextAfter(next, prev, order, i, 0);
    forall j | 0 <= j <= NBUF
      ensures LinkAt(Relinked(next, prev, order[i]).0, Relinked(next, prev, order[i]).1, f, j)
    {
      NextAfter(next, prev, order, i, j);
    }
    MakeLinked(Relinked(next, prev, order[i]).0, Relinked(next, prev, order[i]).1, f);
  }
}
