/**
 * What one call to an encoder does to the packet queues and the stream
 * origins in MediaRecorder.kt's processAudio, processVideo and
 * flushEncoder. The encoder itself is not modelled: what it reports for a
 * call (samples consumed, whether the packet is complete, the packet's
 * pts and dts) is an input.
 *
 * Each call takes a packet (Packets.Take) and then offers it to one of
 * the queues; the offer functions below say where it goes, and the step
 * functions compose the two and keep every packet accounted for.
 */
module Encoding {
  import opened Packets
  import opened Timestamps

  /** What the encoder reports for one call. */
  datatype Encoded = Encoded(consumed: int, complete: bool, pts: int, dts: int)

  /**
   * The ready queue `b` is `a` with its first `taken` packets removed and
   * others added at its tail: the rest of `a` is still at the head of
   * `b`, in its order, ahead of every packet added since.
   */
  ghost predicate KeepsOrder(a: seq<Packet>, b: seq<Packet>, taken: nat) {
    taken <= |a| && a[taken..] <= b
  }

  /** How many packets a take removes from the ready queue: one when the pool is empty, otherwise none. */
  function Stolen(q: Pipe): nat {
    if q.pool == [] then 1 else 0
  }

  /** Two changes that keep the order compose, and the packets taken add up (up to the whole of `a`). */
  lemma KeepsOrderTransitive(a: seq<Packet>, b: seq<Packet>, c: seq<Packet>, k1: nat, k2: nat)
    requires KeepsOrder(a, b, k1) && KeepsOrder(b, c, k2)
    ensures KeepsOrder(a, c, if k1 + k2 <= |a| then k1 + k2 else |a|)
  {
    if k1 + k2 <= |a| {
      assert a[k1 + k2..] == b[k2..][..|a| - k1 - k2];
      assert a[k1 + k2..] <= c;
    } else {
      assert a[|a|..] <= c;
    }
  }

  /**
   * Taking a packet, then adding to the tail of what is left of the ready
   * queue: the ready queue loses at most its head, and only when the pool
   * is empty; otherwise the old queue is a prefix of the new one.
   */
  lemma TakeKeepsOrder(q: Pipe, b: seq<Packet>)
    requires q.pool != [] || q.ready != []
    requires Take(q).1.ready <= b
    ensures KeepsOrder(q.ready, b, Stolen(q))
    ensures q.pool != [] ==> q.ready <= b
  {
    if q.pool != [] {
      assert q.ready[0..] == q.ready;
    } else {
      assert q.ready[1..] <= b;
    }
  }

  /**
   * A packet taken and then offered back to either queue: the queues hold
   * what they held before, the ready queue loses at most its head (only
   * when the pool was empty) and keeps the order of the rest, and the
   * pool shrinks by at most one.
   */
  lemma TakeThenOffer(q: Pipe, r: Pipe)
    requires q.pool != [] || q.ready != []
    requires var (p, rest) := Take(q);
      (r.ready == rest.ready && r.pool == rest.pool + [p]) ||
      (r.pool == rest.pool && |r.ready| == |rest.ready| + 1 && r.ready[..|rest.ready|] == rest.ready && r.ready[|rest.ready|].id == p)
    ensures Held(r) == Held(q)
    ensures KeepsOrder(q.ready, r.ready, Stolen(q))
    ensures q.pool != [] ==> q.ready <= r.ready
    ensures |r.pool| + 1 >= |q.pool|
  {
    TakeHeld(q);
    OfferHeld(Take(q).1, r, Take(q).0);
    TakeKeepsOrder(q, r.ready);
  }

  /**
   * Where processAudio puts the packet an encoder call filled: a complete
   * packet latches the audio origin if needed and goes to the tail of the
   * ready queue with its rebased stamps; an incomplete one goes back to
   * the tail of the pool.
   */
  function AudioOffer(q: Pipe, p: PacketId, o: AudioOrigin, start: int, e: Encoded): (r: (Pipe, AudioOrigin))
    ensures e.complete ==>
      r.0.pool == q.pool && |r.0.ready| == |q.ready| + 1 && r.0.ready[..|q.ready|] == q.ready &&
      var (o', st) := StampAudio(o, e.pts, e.dts, start);
      r.1 == o' && r.0.ready[|q.ready|] == Packet(p, st.pts, st.dts)
    ensures !e.complete ==> r.0.ready == q.ready && r.0.pool == q.pool + [p] && r.1 == o
  {
    if e.complete then
      var (o', st) := StampAudio(o, e.pts, e.dts, start);
      (Pipe(q.pool, q.ready + [Packet(p, st.pts, st.dts)]), o')
    else
      (Pipe(q.pool + [p], q.ready), o)
  }

  /** One audio encoder call inside processAudio: a packet is taken, filled and offered. */
  function AudioEncodeStep(q: Pipe, o: AudioOrigin, start: int, e: Encoded): (r: (Pipe, AudioOrigin))
    requires q.pool != [] || q.ready != []
    ensures r.0.pool != [] || r.0.ready != []
  {
    var (p, rest) := Take(q);
    AudioOffer(rest, p, o, start, e)
  }

  /** An audio encoder call neither creates nor loses a packet. */
  lemma AudioEncodeStepConserves(q: Pipe, o: AudioOrigin, start: int, e: Encoded)
    requires q.pool != [] || q.ready != []
    ensures Held(AudioEncodeStep(q, o, start, e).0) == Held(q)
  {
    TakeThenOffer(q, AudioEncodeStep(q, o, start, e).0);
  }

  /**
   * An audio encoder call removes the ready queue's head only when the
   * pool is empty, keeps the rest in order, and shrinks the pool by at
   * most one.
   */
  lemma AudioEncodeStepKeepsOrder(q: Pipe, o: AudioOrigin, start: int, e: Encoded)
    requires q.pool != [] || q.ready != []
    ensures KeepsOrder(q.ready, AudioEncodeStep(q, o, start, e).0.ready, Stolen(q))
    ensures q.pool != [] ==> q.ready <= AudioEncodeStep(q, o, start, e).0.ready
    ensures |AudioEncodeStep(q, o, start, e).0.pool| + 1 >= |q.pool|
  {
    TakeThenOffer(q, AudioEncodeStep(q, o, start, e).0);
  }

  /**
   * The encoder, fed the calls of `script` from index `from` on, consumes
   * `remaining` samples, starting from `consumed`, before the script runs out.
   */
  predicate Drains(script: seq<Encoded>, from: nat, consumed: int, remaining: int)
    requires from <= |script|
    decreases |script| - from
  {
    consumed >= remaining ||
    (from < |script| && Drains(script, from + 1, consumed + script[from].consumed, remaining))
  }

  /**
   * processAudio's encode loop from the call at index `from` of `script`:
   * encoder calls, one packet each, until the samples consumed reach the
   * samples read. No packet is created or lost, and the ready queue keeps
   * its order.
   */
  function AudioEncodeLoop(q: Pipe, o: AudioOrigin, start: int, script: seq<Encoded>, from: nat, consumed: int, remaining: int): (r: (Pipe, AudioOrigin))
    requires q.pool != [] || q.ready != []
    requires from <= |script| && Drains(script, from, consumed, remaining)
    ensures r.0.pool != [] || r.0.ready != []
    ensures consumed >= remaining ==> r == (q, o)
    decreases |script| - from
  {
    if consumed >= remaining then
      (q, o)
    else
      var step := AudioEncodeStep(q, o, start, script[from]);
      AudioEncodeLoop(step.0, step.1, start, script, from + 1, consumed + script[from].consumed, remaining)
  }

  /** processAudio's encode loop neither creates nor loses a packet. */
  lemma {:induction false} AudioEncodeLoopConserves(q: Pipe, o: AudioOrigin, start: int, script: seq<Encoded>, from: nat, consumed: int, remaining: int)
    requires q.pool != [] || q.ready != []
    requires from <= |script| && Drains(script, from, consumed, remaining)
    ensures Held(AudioEncodeLoop(q, o, start, script, from, consumed, remaining).0) == Held(q)
    decreases |script| - from
  {
    if consumed < remaining {
      var step := AudioEncodeStep(q, o, start, script[from]);
      AudioEncodeStepConserves(q, o, start, script[from]);
      AudioEncodeLoopConserves(step.0, step.1, start, script, from + 1, consumed + script[from].consumed, remaining);
    }
  }

  /**
   * processAudio's encode loop removes at most one packet from the ready
   * queue's head per encoder call and keeps the rest in order; when the
   * pool holds at least one packet per remaining call, nothing is removed
   * and the old queue is a prefix of the new one.
   */
  lemma {:induction false} AudioEncodeLoopKeepsOrder(q: Pipe, o: AudioOrigin, start: int, script: seq<Encoded>, from: nat, consumed: int, remaining: int)
    requires q.pool != [] || q.ready != []
    requires from <= |script| && Drains(script, from, consumed, remaining)
    ensures exists taken: nat ::
              taken <= |script| - from &&
              KeepsOrder(q.ready, AudioEncodeLoop(q, o, start, script, from, consumed, remaining).0.ready, taken)
    ensures |q.pool| >= |script| - from ==> q.ready <= AudioEncodeLoop(q, o, start, script, from, consumed, remaining).0.ready
    decreases |script| - from
  {
    var r := AudioEncodeLoop(q, o, start, script, from, consumed, remaining);
    if consumed < remaining {
      var step := AudioEncodeStep(q, o, start, script[from]);
      AudioEncodeStepKeepsOrder(q, o, start, script[from]);
      AudioEncodeLoopKeepsOrder(step.0, step.1, start, script, from + 1, consumed + script[from].consumed, remaining);
      assert r == AudioEncodeLoop(step.0, step.1, start, script, from + 1, consumed + script[from].consumed, remaining);
      var k2: nat :| k2 <= |script| - (from + 1) && KeepsOrder(step.0.ready, r.0.ready, k2);
      KeepsOrderTransitive(q.ready, step.0.ready, r.0.ready, Stolen(q), k2);
      var k := if Stolen(q) + k2 <= |q.ready| then Stolen(q) + k2 else |q.ready|;
      assert k <= |script| - from && KeepsOrder(q.ready, r.0.ready, k);
    } else {
      assert q.ready[0..] == q.ready;
      assert KeepsOrder(q.ready, r.0.ready, 0);
    }
  }

  /**
   * Where processVideo puts the packet an encoder call filled. While no
   * codec configuration has been seen, the first complete packet is the
   * configuration: it gets pts = dts = 0, sets csdWritten and goes back
   * to the pool, never to the ready queue. After that, complete packets
   * latch globalPts if needed and are queued with rebased stamps;
   * incomplete packets go back to the pool. The result is (queues,
   * csdWritten, globalPts).
   */
  function VideoOffer(q: Pipe, p: PacketId, csd: bool, g: int, start: int, e: Encoded): (r: (Pipe, bool, int))
    ensures r.1 == (csd || e.complete)
    ensures !(csd && e.complete) ==> r.0.ready == q.ready && r.0.pool == q.pool + [p] && r.2 == g
    ensures csd && e.complete ==>
      r.0.pool == q.pool && |r.0.ready| == |q.ready| + 1 && r.0.ready[..|q.ready|] == q.ready &&
      var (g', st) := StampVideo(g, e.pts, start);
      r.2 == g' && r.0.ready[|q.ready|] == Packet(p, st.pts, st.dts)
  {
    if !csd && e.complete then
      (Pipe(q.pool + [p], q.ready), true, g)
    else if e.complete then
      var (g', st) := StampVideo(g, e.pts, start);
      (Pipe(q.pool, q.ready + [Packet(p, st.pts, st.dts)]), true, g')
    else
      (Pipe(q.pool + [p], q.ready), csd, g)
  }

  /** processVideo's encoder call: a packet is taken, filled and offered. */
  function VideoEncodeStep(q: Pipe, csd: bool, g: int, start: int, e: Encoded): (r: (Pipe, bool, int))
    requires q.pool != [] || q.ready != []
    ensures r.0.pool != [] || r.0.ready != []
  {
    var (p, rest) := Take(q);
    VideoOffer(rest, p, csd, g, start, e)
  }

  /** A video encoder call neither creates nor loses a packet. */
  lemma VideoEncodeStepConserves(q: Pipe, csd: bool, g: int, start: int, e: Encoded)
    requires q.pool != [] || q.ready != []
    ensures Held(VideoEncodeStep(q, csd, g, start, e).0) == Held(q)
  {
    TakeThenOffer(q, VideoEncodeStep(q, csd, g, start, e).0);
  }

  /**
   * A video encoder call removes the ready queue's head only when the
   * pool is empty, and keeps the rest in order.
   */
  lemma VideoEncodeStepKeepsOrder(q: Pipe, csd: bool, g: int, start: int, e: Encoded)
    requires q.pool != [] || q.ready != []
    ensures KeepsOrder(q.ready, VideoEncodeStep(q, csd, g, start, e).0.ready, Stolen(q))
    ensures q.pool != [] ==> q.ready <= VideoEncodeStep(q, csd, g, start, e).0.ready
  {
    TakeThenOffer(q, VideoEncodeStep(q, csd, g, start, e).0);
  }

  /** The stream an encoder being flushed belongs to, with its latched origin. */
  datatype Stream = Audio(origin: AudioOrigin) | Video(globalPts: int)

  /**
   * How flushEncoder rebases a complete packet: no origin is latched here;
   * audio moves pts and dts by aGlobalPts and aGlobalDts, video moves pts
   * by globalPts and sets dts to the new pts.
   */
  function FlushStamp(s: Stream, start: int, e: Encoded): (r: Stamp)
    ensures s.Video? ==> r.dts == r.pts && r.pts - start == e.pts - s.globalPts
    ensures s.Audio? ==> r.pts - start == e.pts - s.origin.pts && r.dts - start == e.dts - s.origin.dts
  {
    match s
    case Audio(o) => Stamp(e.pts - o.pts + start, e.dts - o.dts + start)
    case Video(g) => Stamp(e.pts - g + start, e.pts - g + start)
  }

  /** The encoder, flushed with the calls of `script`, reports an incomplete packet before the script runs out. */
  predicate FlushEnds(script: seq<Encoded>)
    decreases |script|
  {
    |script| > 0 && (script[0].complete ==> FlushEnds(script[1..]))
  }

  /**
   * flushEncoder with its final packet returned to the pool: complete
   * packets are queued and the encoder is asked again; the first incomplete
   * packet ends the flush and goes back to the pool. No packet is created
   * or lost, and the ready queue keeps its order.
   */
  function Flush(q: Pipe, s: Stream, start: int, script: seq<Encoded>): (r: Pipe)
    requires q.pool != [] || q.ready != []
    requires FlushEnds(script)
    ensures r.pool != [] || r.ready != []
    decreases |script|
  {
    var (p, rest) := Take(q);
    if script[0].complete then
      var st := FlushStamp(s, start, script[0]);
      Flush(Pipe(rest.pool, rest.ready + [Packet(p, st.pts, st.dts)]), s, start, script[1..])
    else
      Pipe(rest.pool + [p], rest.ready)
  }

  /** The corrected flush neither creates nor loses a packet. */
  lemma {:induction false} FlushConserves(q: Pipe, s: Stream, start: int, script: seq<Encoded>)
    requires q.pool != [] || q.ready != []
    requires FlushEnds(script)
    ensures Held(Flush(q, s, start, script)) == Held(q)
    decreases |script|
  {
    var (p, rest) := Take(q);
    if script[0].complete {
      var st := FlushStamp(s, start, script[0]);
      var q' := Pipe(rest.pool, rest.ready + [Packet(p, st.pts, st.dts)]);
      TakeThenOffer(q, q');
      FlushConserves(q', s, start, script[1..]);
    } else {
      TakeThenOffer(q, Pipe(rest.pool + [p], rest.ready));
    }
  }

  /**
   * The flush removes at most one packet from the ready queue's head per
   * encoder call and keeps the rest in order; when the pool holds at
   * least one packet per call, nothing is removed and the old queue is a
   * prefix of the new one.
   */
  lemma {:induction false} FlushKeepsOrder(q: Pipe, s: Stream, start: int, script: seq<Encoded>)
    requires q.pool != [] || q.ready != []
    requires FlushEnds(script)
    ensures exists taken: nat :: taken <= |script| && KeepsOrder(q.ready, Flush(q, s, start, script).ready, taken)
    ensures |q.pool| >= |script| ==> q.ready <= Flush(q, s, start, script).ready
    decreases |script|
  {
    var (p, rest) := Take(q);
    var r := Flush(q, s, start, script);
    if script[0].complete {
      var st := FlushStamp(s, start, script[0]);
      var q' := Pipe(rest.pool, rest.ready + [Packet(p, st.pts, st.dts)]);
      TakeThenOffer(q, q');
      FlushKeepsOrder(q', s, start, script[1..]);
      assert r == Flush(q', s, start, script[1..]);
      var k2: nat :| k2 <= |script[1..]| && KeepsOrder(q'.ready, r.ready, k2);
      KeepsOrderTransitive(q.ready, q'.ready, r.ready, Stolen(q), k2);
      var k := if Stolen(q) + k2 <= |q.ready| then Stolen(q) + k2 else |q.ready|;
      assert k <= |script| && KeepsOrder(q.ready, r.ready, k);
    } else {
      TakeThenOffer(q, Pipe(rest.pool + [p], rest.ready));
      assert KeepsOrder(q.ready, r.ready, Stolen(q));
    }
  }

  /**
   * flushEncoder as written: the same, except that the final incomplete
   * packet is offered to neither queue. The result is the queues and the
   * packet that is dropped.
   */
  function FlushAsWritten(q: Pipe, s: Stream, start: int, script: seq<Encoded>): (r: (Pipe, PacketId))
    requires q.pool != [] || q.ready != []
    requires FlushEnds(script)
    decreases |script|
  {
    var (p, rest) := Take(q);
    if script[0].complete then
      var st := FlushStamp(s, start, script[0]);
      FlushAsWritten(Pipe(rest.pool, rest.ready + [Packet(p, st.pts, st.dts)]), s, start, script[1..])
    else
      (rest, p)
  }

  /** The flush as written drops exactly the packet it returns, and nothing else. */
  lemma {:induction false} FlushAsWrittenDrops(q: Pipe, s: Stream, start: int, script: seq<Encoded>)
    requires q.pool != [] || q.ready != []
    requires FlushEnds(script)
    ensures var r := FlushAsWritten(q, s, start, script);
      Held(r.0) + multiset{r.1} == Held(q)
    decreases |script|
  {
    TakeHeld(q);
    var (p, rest) := Take(q);
    if script[0].complete {
      var st := FlushStamp(s, start, script[0]);
      var q' := Pipe(rest.pool, rest.ready + [Packet(p, st.pts, st.dts)]);
      OfferHeld(rest, q', p);
      FlushAsWrittenDrops(q', s, start, script[1..]);
    }
  }

  /**
   * Every flush as written leaves one packet fewer in pool and ready queue
   * together, so the packets are no longer all accounted for; the
   * corrected flush keeps them.
   */
  lemma FlushAsWrittenLosesPacket(q: Pipe, s: Stream, start: int, script: seq<Encoded>)
    requires Conserved(q) && FlushEnds(script)
    ensures q.pool != [] || q.ready != []
    ensures var r := FlushAsWritten(q, s, start, script).0;
      |r.pool| + |r.ready| == PoolSize - 1 && !Conserved(r)
    ensures Conserved(Flush(q, s, start, script))
  {
    ConservedNotExhausted(q);
    var r := FlushAsWritten(q, s, start, script).0;
    FlushAsWrittenDrops(q, s, start, script);
    ConservedPacketsAreDistinct(q, 0);
    assert |Held(r)| + 1 == |Held(q)|;
    FlushConserves(q, s, start, script);
  }
}
