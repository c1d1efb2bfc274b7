/**
 * The packet pool of MediaRecorder.kt: a fixed set of packets created once
 * (PACKET_QUEUE) that move between the free pool, the ready-to-write queue
 * and the one packet an encoder call is filling.
 */
module Packets {

  /** A packet object, named by its position in the list built at start-up. */
  type PacketId = nat

  /** The number of packets PACKET_QUEUE is created with; no packet is ever allocated after that. */
  const PoolSize: nat := 2000

  /** A packet on the ready queue, with the timestamps the reconciler gave it. */
  datatype Packet = Packet(id: PacketId, pts: int, dts: int)

  /** The free pool and the ready queue, both first-in first-out. */
  datatype Pipe = Pipe(pool: seq<PacketId>, ready: seq<Packet>)

  /** The packets named by a queue, in queue order. */
  function Ids(q: seq<Packet>): (r: seq<PacketId>)
    ensures |r| == |q|
    ensures forall i :: 0 <= i < |q| ==> r[i] == q[i].id
  {
    seq(|q|, i requires 0 <= i < |q| => q[i].id)
  }

  /** The packets 0, 1, ..., n - 1, in that order. */
  function Range(n: nat): (r: seq<PacketId>)
    ensures |r| == n
  {
    seq(n, i requires 0 <= i < n => i)
  }

  /** Every packet that exists: each of the PoolSize packets once. */
  ghost function AllPackets(): multiset<PacketId> {
    multiset(Range(PoolSize))
  }

  /** The packets held by the pool and the ready queue together. */
  ghost function Held(q: Pipe): multiset<PacketId> {
    multiset(q.pool) + multiset(Ids(q.ready))
  }

  /** Pool plus ready queue hold exactly the packets created at start-up. */
  ghost predicate Conserved(q: Pipe) {
    Held(q) == AllPackets()
  }

  /** Range(n) holds every packet below n exactly once and nothing else. */
  lemma {:induction false} RangeHoldsEachOnce(n: nat, p: PacketId)
    ensures multiset(Range(n))[p] == if p < n then 1 else 0
  {
    if n > 0 {
      RangeHoldsEachOnce(n - 1, p);
      assert Range(n) == Range(n - 1) + [n - 1];
    } else {
      assert Range(n) == [];
    }
  }

  /**
   * When nothing is in an encoder's hands, every packet is in exactly one
   * place, once, and the two queues together hold PoolSize packets.
   */
  lemma ConservedPacketsAreDistinct(q: Pipe, p: PacketId)
    requires Conserved(q)
    ensures multiset(q.pool)[p] + multiset(Ids(q.ready))[p] == if p < PoolSize then 1 else 0
    ensures |q.pool| + |q.ready| == PoolSize
  {
    RangeHoldsEachOnce(PoolSize, p);
    assert |Held(q)| == |multiset(Range(PoolSize))|;
  }

  /** Pool and ready queue are never both empty while every packet is accounted for. */
  lemma ConservedNotExhausted(q: Pipe)
    requires Conserved(q)
    ensures q.pool != [] || q.ready != []
  {
    ConservedPacketsAreDistinct(q, 0);
  }

  /**
   * Taking a packet for an encoder call: the head of the free pool when
   * there is one, and otherwise the head of the ready queue, which is then
   * lost to the writer.
   */
  function Take(q: Pipe): (PacketId, Pipe)
    requires q.pool != [] || q.ready != []
  {
    if q.pool != [] then
      (q.pool[0], Pipe(q.pool[1..], q.ready))
    else
      (q.ready[0].id, Pipe([], q.ready[1..]))
  }

  /** The packet taken leaves the queues and nothing else does. */
  lemma TakeHeld(q: Pipe)
    requires q.pool != [] || q.ready != []
    ensures Held(q) == Held(Take(q).1) + multiset{Take(q).0}
  {
    if q.pool != [] {
      assert q.pool == [q.pool[0]] + q.pool[1..];
    } else {
      assert Ids(q.ready) == [q.ready[0].id] + Ids(q.ready[1..]);
    }
  }

  /**
   * Offering a packet to the tail of the free pool, or a finished packet
   * to the tail of the ready queue: the packet joins the queues and
   * nothing else changes in what they hold.
   */
  lemma OfferHeld(q: Pipe, r: Pipe, p: PacketId)
    requires
      (r.ready == q.ready && r.pool == q.pool + [p]) ||
      (r.pool == q.pool && |r.ready| == |q.ready| + 1 && r.ready[..|q.ready|] == q.ready && r.ready[|q.ready|].id == p)
    ensures Held(r) == Held(q) + multiset{p}
  {
    if r.pool == q.pool + [p] && r.ready == q.ready {
    } else {
      assert r.ready == q.ready + [r.ready[|q.ready|]];
      assert Ids(r.ready) == Ids(q.ready) + [p];
    }
  }

  /** At start-up every packet is in the pool and the ready queue is empty. */
  lemma InitiallyConserved()
    ensures Conserved(Pipe(Range(PoolSize), []))
  {
    assert Ids([]) == [];
  }

  /** The writer moving the head of the ready queue to the tail of the pool keeps every packet. */
  lemma WriteHeadConserves(q: Pipe)
    requires q.ready != []
    ensures Held(Pipe(q.pool + [q.ready[0].id], q.ready[1..])) == Held(q)
  {
    assert Ids(q.ready) == [q.ready[0].id] + Ids(q.ready[1..]);
  }

  /** The writer's shutdown moving the whole ready queue, in order, to the tail of the pool keeps every packet. */
  lemma ShutdownConserves(q: Pipe)
    ensures Held(Pipe(q.pool + Ids(q.ready), [])) == Held(q)
  {
    assert Ids([]) == [];
  }
}
