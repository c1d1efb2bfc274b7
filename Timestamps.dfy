/**
 * The timestamp reconciler of MediaRecorder.kt: each stream latches an
 * origin from its first usable packet and every complete packet of that
 * stream is rebased onto startUTCPts relative to it.
 */
module Timestamps {

  /** The value globalPts, aGlobalPts and aGlobalDts hold while no origin is latched. */
  const Unset: int := -1

  /** The presentation and decode timestamps a packet carries. */
  datatype Stamp = Stamp(pts: int, dts: int)

  /** aGlobalPts and aGlobalDts: the audio stream's origin. */
  datatype AudioOrigin = AudioOrigin(pts: int, dts: int)

  /** Timestamps that never decrease along the sequence. */
  predicate Sorted(s: seq<int>) {
    forall i, j :: 0 <= i <= j < |s| ==> s[i] <= s[j]
  }

  /**
   * One complete audio packet: the origin is latched from the first packet
   * whose pts is at least 0, and the packet is moved onto startUTCPts
   * (`start`) by that origin, pts and dts each by their own.
   */
  function StampAudio(o: AudioOrigin, pts: int, dts: int, start: int): (r: (AudioOrigin, Stamp))
    ensures o.pts != Unset ==> r.0 == o
    ensures o.pts == Unset ==> r.0 == if pts >= 0 then AudioOrigin(pts, dts) else o
    ensures o.pts == Unset && pts >= 0 ==> r.1 == Stamp(start, start)
    ensures r.1.pts - start == pts - r.0.pts && r.1.dts - start == dts - r.0.dts
  {
    var origin := if o.pts == Unset && pts >= 0 then AudioOrigin(pts, dts) else o;
    (origin, Stamp(pts - origin.pts + start, dts - origin.dts + start))
  }

  /**
   * One complete video packet after the codec configuration: globalPts is
   * latched from the first packet whose pts is strictly positive, the
   * packet's pts is moved onto startUTCPts by it, and dts is set to the new pts.
   */
  function StampVideo(g: int, pts: int, start: int): (r: (int, Stamp))
    ensures g != Unset ==> r.0 == g
    ensures g == Unset ==> r.0 == if pts > 0 then pts else Unset
    ensures g == Unset && pts > 0 ==> r.1 == Stamp(start, start)
    ensures r.1.dts == r.1.pts && r.1.pts - start == pts - r.0
  {
    var origin := if g == Unset && pts > 0 then pts else g;
    var p := pts - origin + start;
    (origin, Stamp(p, p))
  }

  /**
   * A complete video packet that arrives before any origin is latched and
   * whose pts is not positive is rebased against the sentinel -1 itself,
   * so it lands one tick after its own pts plus startUTCPts.
   */
  lemma UnlatchedVideoRebasedAgainstSentinel(pts: int, start: int)
    requires pts <= 0
    ensures StampVideo(Unset, pts, start) == (Unset, Stamp(pts + 1 + start, pts + 1 + start))
  {
  }

  /** The stamps that successive complete video packets with encoder pts `ps` receive. */
  function VideoRun(g: int, start: int, ps: seq<int>): (r: seq<Stamp>)
    ensures |r| == |ps|
    decreases |ps|
  {
    if ps == [] then []
    else
      var (g', st) := StampVideo(g, ps[0], start);
      [st] + VideoRun(g', start, ps[1..])
  }

  /** Once globalPts is latched, each video packet is shifted by the same amount. */
  lemma {:induction false} LatchedVideoRunShifts(g: int, start: int, ps: seq<int>)
    requires g != Unset
    ensures forall i :: 0 <= i < |ps| ==> VideoRun(g, start, ps)[i] == Stamp(ps[i] - g + start, ps[i] - g + start)
  {
    if ps != [] {
      LatchedVideoRunShifts(g, start, ps[1..]);
    }
  }

  /** The encoder pts `ps` start at or after the origin, or will latch it. */
  predicate VideoStartsAtOrigin(g: int, ps: seq<int>) {
    ps == [] || (if g == Unset then ps[0] > 0 else ps[0] >= g)
  }

  /**
   * If the encoder delivers non-decreasing pts, starting at or after the
   * origin (or with a positive pts that latches it), every video packet
   * queued lands at or after startUTCPts, with dts equal to pts, and the
   * queued pts never decrease.
   */
  lemma VideoRunOrdered(g: int, start: int, ps: seq<int>)
    requires Sorted(ps) && VideoStartsAtOrigin(g, ps)
    ensures var r := VideoRun(g, start, ps);
      (forall i :: 0 <= i < |r| ==> r[i].pts >= start && r[i].dts == r[i].pts) &&
      (forall i, j :: 0 <= i <= j < |r| ==> r[i].pts <= r[j].pts)
  {
    if ps != [] {
      var origin := StampVideo(g, ps[0], start).0;
      assert origin != Unset && origin <= ps[0];
      LatchedVideoRunShifts(origin, start, ps[1..]);
      var r := VideoRun(g, start, ps);
      assert r == [Stamp(ps[0] - origin + start, ps[0] - origin + start)] + VideoRun(origin, start, ps[1..]);
      forall i | 0 <= i < |r|
        ensures r[i] == Stamp(ps[i] - origin + start, ps[i] - origin + start)
      {
        if i > 0 {
          assert r[i] == VideoRun(origin, start, ps[1..])[i - 1];
        }
      }
    }
  }

  /** The stamps that successive complete audio packets with encoder stamps `es` receive. */
  function AudioRun(o: AudioOrigin, start: int, es: seq<Stamp>): (r: seq<Stamp>)
    ensures |r| == |es|
    decreases |es|
  {
    if es == [] then []
    else
      var (o', st) := StampAudio(o, es[0].pts, es[0].dts, start);
      [st] + AudioRun(o', start, es[1..])
  }

  /** Once the audio origin is latched, pts and dts are each shifted by a fixed amount. */
  lemma {:induction false} LatchedAudioRunShifts(o: AudioOrigin, start: int, es: seq<Stamp>)
    requires o.pts != Unset
    ensures forall i :: 0 <= i < |es| ==>
      AudioRun(o, start, es)[i] == Stamp(es[i].pts - o.pts + start, es[i].dts - o.dts + start)
  {
    if es != [] {
      LatchedAudioRunShifts(o, start, es[1..]);
    }
  }

  function Ptss(es: seq<Stamp>): (r: seq<int>)
    ensures |r| == |es| && forall i :: 0 <= i < |es| ==> r[i] == es[i].pts
  {
    seq(|es|, i requires 0 <= i < |es| => es[i].pts)
  }

  function Dtss(es: seq<Stamp>): (r: seq<int>)
    ensures |r| == |es| && forall i :: 0 <= i < |es| ==> r[i] == es[i].dts
  {
    seq(|es|, i requires 0 <= i < |es| => es[i].dts)
  }

  /** The encoder stamps `es` start at or after the audio origin, or will latch it. */
  predicate AudioStartsAtOrigin(o: AudioOrigin, es: seq<Stamp>) {
    es == [] || (if o.pts == Unset then es[0].pts >= 0 else es[0].pts >= o.pts && es[0].dts >= o.dts)
  }

  /**
   * From its first packet on, an audio run is shifted by the origin that
   * packet leaves behind, which lies at or before the first packet's stamps.
   */
  lemma AudioRunFromOrigin(o: AudioOrigin, start: int, es: seq<Stamp>)
    requires es != [] && AudioStartsAtOrigin(o, es)
    ensures var origin := StampAudio(o, es[0].pts, es[0].dts, start).0;
      origin.pts <= es[0].pts && origin.dts <= es[0].dts &&
      forall i :: 0 <= i < |es| ==>
        AudioRun(o, start, es)[i] == Stamp(es[i].pts - origin.pts + start, es[i].dts - origin.dts + start)
  {
    var origin := StampAudio(o, es[0].pts, es[0].dts, start).0;
    assert origin.pts != Unset;
    LatchedAudioRunShifts(origin, start, es[1..]);
    var r := AudioRun(o, start, es);
    assert r == [Stamp(es[0].pts - origin.pts + start, es[0].dts - origin.dts + start)] + AudioRun(origin, start, es[1..]);
    forall i | 0 <= i < |r|
      ensures r[i] == Stamp(es[i].pts - origin.pts + start, es[i].dts - origin.dts + start)
    {
      if i > 0 {
        assert r[i] == AudioRun(origin, start, es[1..])[i - 1];
      }
    }
  }

  /**
   * If the audio encoder delivers non-decreasing pts and dts, starting at
   * or after the origin (or with a pts of at least 0 that latches it), every
   * queued audio packet lands at or after startUTCPts in both pts and dts,
   * and neither ever decreases.
   */
  lemma AudioRunOrdered(o: AudioOrigin, start: int, es: seq<Stamp>)
    requires Sorted(Ptss(es)) && Sorted(Dtss(es)) && AudioStartsAtOrigin(o, es)
    ensures var r := AudioRun(o, start, es);
      (forall i :: 0 <= i < |r| ==> r[i].pts >= start && r[i].dts >= start) &&
      (forall i, j :: 0 <= i <= j < |r| ==> r[i].pts <= r[j].pts && r[i].dts <= r[j].dts)
  {
    if es != [] {
      AudioRunFromOrigin(o, start, es);
      forall i | 0 <= i < |es|
        ensures es[0].pts <= es[i].pts && es[0].dts <= es[i].dts
      {
        assert Ptss(es)[0] <= Ptss(es)[i] && Dtss(es)[0] <= Dtss(es)[i];
      }
      forall i, j | 0 <= i <= j < |es|
        ensures es[i].pts <= es[j].pts && es[i].dts <= es[j].dts
      {
        assert Ptss(es)[i] <= Ptss(es)[j] && Dtss(es)[i] <= Dtss(es)[j];
      }
    }
  }
}
