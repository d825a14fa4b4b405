/** bread, bwrite and brelse (`fs/cache.c`) over a disk without errors (`fs/ide.c`). */
module BufferCache {
  import opened Cache

  function KeyOf(b: Buf): Sector
    requires b.dev >= 0
  {
    (b.dev, b.sector)
  }

  predicate SameSector(b: Buf, c: Buf) { b.dev == c.dev && b.sector == c.sector }

  predicate Holds(b: Buf, k: Sector) { b.dev == k.0 && b.sector == k.1 }

  /** No sector is in two buffers. */
  ghost predicate KeysUnique(bufs: seq<Buf>) {
    forall i, j :: 1 <= i < j < |bufs| && bufs[i].dev >= 0 ==> !Holds(bufs[j], KeyOf(bufs[i]))
  }

  ghost predicate Cached(bufs: seq<Buf>, k: Sector) {
    exists b :: 1 <= b < |bufs| && Holds(bufs[b], k)
  }

  /** A buffer nobody holds has what the disk has. */
  ghost predicate Agrees(bufs: seq<Buf>, disk: map<Sector, Block>, held: set<nat>) {
    forall b :: 1 <= b < |bufs| && bufs[b].dev >= 0 ==>
      && KeyOf(bufs[b]) in disk && bufs[b].valid && !bufs[b].dirty
      && (b !in held ==> bufs[b].data == disk[KeyOf(bufs[b])])
  }

  /** `stamp` is when a buffer was last released, 0 for never: the list has the latest first. */
  ghost predicate Recency(order: seq<nat>, stamp: seq<nat>, clock: nat) {
    && |stamp| == NBUF + 1 && (forall b :: 0 <= b < |stamp| ==> stamp[b] <= clock)
    && (forall i, j :: 0 <= i < j < |order| && order[i] < |stamp| && order[j] < |stamp| ==>
         stamp[order[i]] > stamp[order[j]] || stamp[order[i]] == stamp[order[j]] == 0)
  }

  class BlockCache {
    const next: array<nat>
    const prev: array<nat>
    const bufs: array<Buf>
    var disk: map<Sector, Block>
    ghost var order: seq<nat>     // from the buffer released last to the one released first
    ghost var held: set<nat>      // between bread and brelse
    ghost var stamp: seq<nat>
    ghost var clock: nat

    ghost predicate Valid()
      reads this, next, prev, bufs
    {
      && next != prev && next.Length == prev.Length == bufs.Length == NBUF + 1
      && Linked(next[..], prev[..], order) && KeysUnique(bufs[..]) && Agrees(bufs[..], disk, held)
      && Recency(order, stamp, clock) && (forall b :: b in held ==> 1 <= b <= NBUF && bufs[b].dev >= 0)
    }

    /** binit: all buffers on the list, none with a sector. */
    constructor (disk0: map<Sector, Block>)
      ensures Valid() && disk == disk0 && held == {} && fresh(next) && fresh(prev) && fresh(bufs)
      ensures forall k :: !Cached(bufs[..], k)
    {
      next := new nat[NBUF + 1];
      prev := new nat[NBUF + 1];
      bufs := new Buf[NBUF + 1](_ => Buf(-1, 0, false, false, []));
      disk := disk0;
      new;
      next[HEAD] := HEAD;
      var b := 1;
      while b <= NBUF
        invariant 1 <= b <= NBUF + 1 && next[HEAD] == b - 1 && (b > 1 ==> prev[HEAD] == 1 && prev[b - 1] == HEAD)
        invariant forall c :: 1 <= c < b ==> next[c] == c - 1
        invariant forall c :: 1 <= c < b - 1 ==> prev[c] == c + 1
        invariant forall c :: 0 <= c <= NBUF ==> bufs[c] == Buf(-1, 0, false, false, [])
        invariant disk == disk0
      {
        next[b] := next[HEAD];
        prev[b] := HEAD;
        prev[next[HEAD]] := b;
        next[HEAD] := b;
        b := b + 1;
      }
      prev[HEAD] := 1;
      held, clock := {}, 0;
      order := seq(NBUF, i requires 0 <= i < NBUF => NBUF - i);
      stamp := seq(NBUF + 1, _ => 0);
      FirstOrder(next[..], prev[..], order);
      hide Linked;
    }

    /** Whether a sector can be read without taking a buffer somebody holds. */
    ghost predicate Safe(k: Sector)
      reads this, bufs
    {
      |order| == NBUF && (Cached(bufs[..], k) || order[NBUF - 1] !in held)
    }

    /**
     The buffer for a sector: the one that has it, or the one released first, with a new name and nothing in
     it. A buffer that somebody holds gets a new name if and only if the sector was not Safe to ask for.
     */
    method Bget(dev: nat, sector: nat) returns (b: nat)
      requires Valid()
      modifies bufs
      ensures 1 <= b <= NBUF
      ensures if Cached(old(bufs[..]), (dev, sector)) then Holds(bufs[b], (dev, sector)) && bufs[..] == old(bufs[..])
        else b == order[NBUF - 1] && bufs[..] == old(bufs[..])[b := Buf(dev, sector, false, false, old(bufs[b].data))]
      ensures !old(Safe((dev, sector))) <==>
        exists h :: h in held && h < bufs.Length && !SameSector(bufs[h], old(bufs[..])[h])
    {
      hide Linked, Agrees, Recency, KeysUnique;
      ghost var k := (dev, sector);
      LinkedAt(next[..], prev[..], order, 0);
      Ordered(next[..], prev[..], order);
      b := next[HEAD];
      ghost var i := 0;
      while b != HEAD
        invariant 0 <= i <= NBUF && b == Node(order, i + 1) <= NBUF && (b == HEAD <==> i == NBUF)
        invariant bufs[..] == old(bufs[..]) && forall j :: 0 <= j < i ==> !Holds(bufs[order[j]], k)
        decreases NBUF - i
      {
        assert b == order[i];
        if bufs[b].dev == dev && bufs[b].sector == sector {
          assert Holds(bufs[..][b], k);
          return;
        }
        i := i + 1;
        LinkedAt(next[..], prev[..], order, i);
        NodeRange(order, i + 1);
        assert next[b] == next[..][Node(order, i)];
        b := next[b];
      }
      LinkedAt(next[..], prev[..], order, NBUF);
      assert prev[HEAD] == prev[..][Node(order, NBUF + 1)];
      NotCached(bufs[..], order, k);
      b := prev[HEAD];
      ghost var was := bufs[..];
      assert !Holds(was[b], k);
      bufs[b] := Buf(dev, sector, false, false, bufs[b].data);
      assert forall h :: h in held && h < |was| ==> (SameSector(bufs[h], was[h]) <==> h != b);
    }

    /** The disk driver, without errors: a dirty buffer is written, one without contents is read. */
    method Iderw(b: nat)
      requires 1 <= b <= NBUF < bufs.Length && bufs[b].dev >= 0 && KeyOf(bufs[b]) in disk
      modifies this`disk, bufs
      ensures var o := old(bufs[b]);
        && bufs[..] == old(bufs[..])[b := o.(valid := true, dirty := false, data := if o.dirty || o.valid then o.data
          else old(disk)[KeyOf(o)])]
        && disk == if o.dirty then old(disk)[KeyOf(o) := o.data] else old(disk)
    {
      if bufs[b].valid && !bufs[b].dirty { return; }
      if bufs[b].dirty {
        disk := disk[KeyOf(bufs[b]) := bufs[b].data];
      } else {
        bufs[b] := bufs[b].(data := disk[KeyOf(bufs[b])]);
      }
      bufs[b] := bufs[b].(valid := true, dirty := false);
    }

    /** The sector's buffer, with what was last written to the sector; a held one as its holder left it. */
    method Bread(dev: nat, sector: nat) returns (b: nat)
      requires Valid() && (dev, sector) in disk && Safe((dev, sector))
      modifies this`disk, this`held, bufs
      ensures Valid() && disk == old(disk) && held == old(held) + {b}
      ensures 1 <= b <= NBUF && Holds(bufs[b], (dev, sector))
      ensures bufs[b].data == if b in old(held) then old(bufs[b].data) else disk[(dev, sector)]
      ensures forall c :: 0 <= c <= NBUF && c != b ==> bufs[c] == old(bufs[c])
      ensures !Cached(old(bufs[..]), (dev, sector)) ==>
        b == order[NBUF - 1] && forall c :: 1 <= c <= NBUF ==> stamp[b] <= stamp[c]
    {
      hide Linked, Recency, Cached;
      Ordered(next[..], prev[..], order);
      Oldest(order, stamp, clock);
      ghost var bs, was := bufs[..], held;
      b := Bget(dev, sector);
      if !Cached(bs, (dev, sector)) { Renamed(bs, b, bufs[..], (dev, sector)); }
      if !bufs[b].valid { Iderw(b); }
      held := held + {b};
    }

    /** The holder changes the data. */
    method Change(b: nat, data: Block)
      requires Valid() && b in held
      modifies bufs
      ensures Valid() && bufs[..] == old(bufs[..])[b := old(bufs[b]).(data := data)]
    {
      hide Linked, Recency;
      bufs[b] := bufs[b].(data := data);
    }

    /** The sector gets the data of its buffer. */
    method Bwrite(b: nat)
      requires Valid() && b in held
      modifies this`disk, bufs
      ensures Valid() && bufs[..] == old(bufs[..]) && disk == old(disk)[KeyOf(bufs[b]) := bufs[b].data]
    {
      hide Linked, Recency;
      ghost var bs := bufs[..];
      bufs[b] := bufs[b].(dirty := true);
      Iderw(b);
      assert bufs[..] == bs;
    }

    /** The buffer is put in front of all others. What was changed must have been written. */
    method Brelse(b: nat) returns (ghost i: nat)
      requires Valid() && b in held && bufs[b].data == disk[KeyOf(bufs[b])]
      modifies this`order, this`held, this`stamp, this`clock, next, prev
      ensures Valid() && held == old(held) - {b}
      ensures i < NBUF == |old(order)| && old(order)[i] == b && order == ToFront(old(order), i)
    {
      hide Linked, Recency, Permutation, Relinked;
      Ordered(next[..], prev[..], order);
      i := PlaceOf(order, b);
      Neighbours(next[..], prev[..], order, i);
      FrontLinked(next[..], prev[..], order, i);
      FrontRecent(order, stamp, clock, i);
      Unlink(b);
      order, held, clock := ToFront(order, i), held - {b}, clock + 1;
      stamp := stamp[b := clock];
    }

    method Unlink(b: nat)
      requires next != prev && next.Length == prev.Length == NBUF + 1 && b <= NBUF
      requires next[b] <= NBUF && prev[b] <= NBUF && next[..][prev[b] := next[b]][HEAD] <= NBUF
      modifies next, prev
      ensures (next[..], prev[..]) == Relinked(old(next[..]), old(prev[..]), b)
    {
      prev[next[b]] := prev[b];
      next[prev[b]] := next[b];
      next[b] := next[HEAD];
      prev[b] := HEAD;
      prev[next[HEAD]] := b;
      next[HEAD] := b;
    }
  }

  lemma Ordered(next: seq<nat>, prev: seq<nat>, order: seq<nat>)
    requires Linked(next, prev, order)
    ensures Permutation(order) && |order| == NBUF
  {
  }

  /** All buffers are on the list, so one that was not met there is not. */
  lemma NotCached(bufs: seq<Buf>, order: seq<nat>, k: Sector)
    requires Permutation(order) && |bufs| == NBUF + 1 && forall j :: 0 <= j < NBUF ==> !Holds(bufs[order[j]], k)
    ensures !Cached(bufs, k)
  {
    forall b | 1 <= b < |bufs| ensures !Holds(bufs[b], k) {
      var j := PlaceOf(order, b);
    }
  }

  /** Every buffer has a place in the order. */
  lemma PlaceOf(order: seq<nat>, b: nat) returns (j: nat)
    requires Permutation(order) && 1 <= b <= NBUF
    ensures j < NBUF && order[j] == b
  {
    assert b in order;
    j :| 0 <= j < |order| && order[j] == b;
  }

  /** The last buffer of the list was released first of all. */
  lemma Oldest(order: seq<nat>, stamp: seq<nat>, clock: nat)
    requires Permutation(order) && Recency(order, stamp, clock)
    ensures |stamp| == NBUF + 1 && |order| == NBUF && 1 <= order[NBUF - 1] <= NBUF
    ensures forall c :: 1 <= c <= NBUF ==> stamp[order[NBUF - 1]] <= stamp[c]
  {
    forall c | 1 <= c <= NBUF ensures stamp[order[NBUF - 1]] <= stamp[c] {
      var j := PlaceOf(order, c);
    }
  }

  lemma FrontRecent(order: seq<nat>, stamp: seq<nat>, clock: nat, i: nat)
    requires Permutation(order) && Recency(order, stamp, clock) && i < NBUF
    ensures order[i] <= NBUF && |stamp| == NBUF + 1
      && Recency(ToFront(order, i), stamp[order[i] := clock + 1], clock + 1)
  {
    var f, s := ToFront(order, i), stamp[order[i] := clock + 1];
    forall j | 0 <= j < NBUF ensures f[j] == if j == 0 then order[i] else if j <= i then order[j - 1] else order[j] {}
    hide ToFront;
  }

  /** A sector that was in no buffer gets one of its own. */
  lemma Renamed(bufs: seq<Buf>, b: nat, bufs': seq<Buf>, k: Sector)
    requires KeysUnique(bufs) && !Cached(bufs, k) && 1 <= b < |bufs| == |bufs'| && Holds(bufs'[b], k)
    requires bufs' == bufs[b := bufs'[b]]
    ensures KeysUnique(bufs')
  {
    assert forall c :: 1 <= c < |bufs| ==> !Holds(bufs[c], k);
  }

  /**
   Two sectors read one after the other, neither of them cached and nothing released in between, get the
   same buffer. So a caller who holds one buffer may read another sector only if Safe says so.
   */
  method TwoMisses(c: BlockCache, dev: nat, s1: nat, s2: nat) returns (b1: nat, b2: nat)
    requires c.Valid() && c.held == {} && (dev, s1) in c.disk && s1 != s2
    requires !Cached(c.bufs[..], (dev, s1)) && !Cached(c.bufs[..], (dev, s2))
    modifies c`disk, c`held, c.bufs
    ensures b1 == b2 && 1 <= b1 < c.bufs.Length && !Holds(c.bufs[b1], (dev, s1)) && b1 in c.held
  {
    hide Linked, Recency, Agrees, KeysUnique;
    Ordered(c.next[..], c.prev[..], c.order);
    ghost var bs := c.bufs[..];
    b1 := c.Bread(dev, s1);
    forall x | 1 <= x < |c.bufs[..]| ensures !Holds(c.bufs[..][x], (dev, s2)) {
      assert x != b1 ==> !Holds(bs[x], (dev, s2));
    }
    b2 := c.Bget(dev, s2);
  }
}
