/**
 * The recording pipeline of MediaRecorder.kt as one sequential object:
 * the audio and video encode steps, the encoder flush, the container
 * writer's loop body and its shutdown, the session reset, the start/stop
 * guards and the choice of output.
 *
 * The encoders, the container and the audio source are outside the
 * model: what they report is passed in (an `Encoded` per encoder call,
 * the byte count of an audio read, the status of a container call), and
 * what the container is given is kept in `sink`.
 */
module Recording {
  import opened Wrappers
  import opened Packets
  import opened Timestamps
  import opened Encoding
  import opened SampleClock
  import opened Output

  /**
   * What the container has been given since it was opened: whether it
   * reports its header written (`isHeaderWritten`), how many times
   * `writeHeader` was called on it, the packets written, whether the
   * trailer was written and how many times `writeTrailer` was called.
   */
  datatype Sink = Sink(header: bool, headerWrites: nat, packets: seq<Packet>, trailer: bool, trailerWrites: nat)

  /** One audio read while draining: the bytes read and the encoder's calls for them. */
  datatype AudioRead = AudioRead(read: int, script: seq<Encoded>)

  /**
   * The drain after capture stops reads until a read returns no bytes,
   * and the encoder consumes every read's samples.
   */
  predicate DrainEnds(drain: seq<AudioRead>, channels: int)
    requires channels > 0
    decreases |drain|
  {
    |drain| > 0 &&
    (drain[0].read > 0 ==>
      Drains(drain[0].script, 0, 0, drain[0].read / (2 * channels)) && DrainEnds(drain[1..], channels))
  }

  /** The origin a flush of the audio (or else the video) encoder rebases against. */
  function FlushStream(isAudio: bool, aGlobalPts: int, aGlobalDts: int, globalPts: int): Stream {
    if isAudio then Audio(AudioOrigin(aGlobalPts, aGlobalDts)) else Video(globalPts)
  }

  class Recorder {
    /** The audio source's channel count and sample rate, fixed when it is created. */
    const channels: int
    const sampleRate: int

    /** PACKET_QUEUE, the free pool. */
    var pool: seq<PacketId>
    /** readyToWritePacketQueue. */
    var ready: seq<Packet>

    /** The audio sample clock, in microseconds. */
    var pts: int
    var globalPts: int
    var aGlobalPts: int
    var aGlobalDts: int
    const startUTCPts: int
    var csdWritten: bool
    var headerWritten: bool

    /** The stamp of the sample buffer last handed to the audio encoder. */
    var samplesPts: int
    var samplesCount: int

    var started: bool
    var containerStarted: bool
    var sink: Sink

    var outputUrl: Option<Uri>
    var format: Option<ContainerFormat>
    var audioCodec: AudioCodec
    var sampleFormat: SampleFormat
    var videoBitRate: int

    /**
     * The object invariant: pool and ready queue hold the PoolSize packets
     * between them (that none is ever duplicated or lost is proved of the
     * functions the queue operations are proved equal to); the header flag is only set once the codec configuration has
     * been seen and while the container is open, and an open container
     * whose header is written has the flag set; the container is given
     * no packet and no trailer before its header, nothing after its
     * trailer, and its header and its trailer each at most once.
     */
    ghost predicate Valid()
      reads this
    {
      ValidApartFromHeader() &&
      (headerWritten ==> csdWritten && containerStarted && sink.header) &&
      (containerStarted && sink.header ==> headerWritten)
    }

    /** Everything in Valid but what the header flag must agree with. */
    ghost predicate ValidApartFromHeader()
      reads this
    {
      channels > 0 && sampleRate > 0 &&
      |pool| + |ready| == PoolSize &&
      (sink.packets != [] ==> sink.header) &&
      (sink.trailer ==> sink.header && !containerStarted) &&
      sink.headerWrites == (if sink.header then 1 else 0) &&
      sink.trailerWrites == (if sink.trailer then 1 else 0)
    }

    constructor (channels: int, sampleRate: int, audioCodec: AudioCodec, videoBitRate: int)
      requires channels > 0 && sampleRate > 0
      ensures Valid()
      ensures this.channels == channels && this.sampleRate == sampleRate
      ensures pool == Range(PoolSize) && ready == []
      ensures pts == 0 && globalPts == Unset && aGlobalPts == Unset && aGlobalDts == Unset && startUTCPts == 0
      ensures !csdWritten && !headerWritten && !started && !containerStarted
      ensures outputUrl == None && this.audioCodec == audioCodec && this.videoBitRate == videoBitRate
    {
      this.channels := channels;
      this.sampleRate := sampleRate;
      pool := Range(PoolSize);
      ready := [];
      pts := 0;
      globalPts, aGlobalPts, aGlobalDts := Unset, Unset, Unset;
      startUTCPts := 0;
      csdWritten, headerWritten := false, false;
      samplesPts, samplesCount := 0, 0;
      started, containerStarted := false, false;
      sink := Sink(false, 0, [], false, 0);
      outputUrl := None;
      format := None;
      this.audioCodec := audioCodec;
      sampleFormat := S16;
      this.videoBitRate := videoBitRate;
    }

    /** setOutput(Uri). */
    method SetOutput(uri: Uri)
      modifies this`outputUrl
      ensures outputUrl == Some(uri)
    {
      outputUrl := Some(uri);
    }

    /**
     * The synchronous part of openOutput: choose the output format from the
     * output URI, write the chosen codec and bit rate back into the
     * configuration, and name the location returned and the destination
     * the container opens. An unset URI leaves the container format as it was.
     */
    method OpenOutput(generated: Uri) returns (location: Uri, target: OpenTarget)
      modifies this`format, this`audioCodec, this`sampleFormat, this`videoBitRate
      ensures location == RecordingLocation(outputUrl, generated)
      ensures target == Location(location)
      ensures var s := SelectOutput(outputUrl, old(audioCodec), old(videoBitRate));
        format == (if s.format.Some? then s.format else old(format)) &&
        audioCodec == s.audioCodec && sampleFormat == s.sampleFormat && videoBitRate == s.videoBitRate
    {
      location := outputUrl.GetOr(generated);
      var s := SelectOutput(outputUrl, audioCodec, videoBitRate);
      if s.format.Some? {
        format := s.format;
      }
      audioCodec, sampleFormat, videoBitRate := s.audioCodec, s.sampleFormat, s.videoBitRate;
      target := OpenTargetFor(outputUrl, generated);
    }

    /**
     * The container task's set-up: when the container and both encoders
     * open, the writer loop starts on a container that has been given
     * nothing yet; otherwise nothing changes and the caller hears of the failure.
     */
    method OpenContainer(containerOpened: bool, encodersOpened: bool) returns (success: bool)
      requires Valid() && !containerStarted
      modifies this`containerStarted, this`sink
      ensures Valid()
      ensures success == (containerOpened && encodersOpened)
      ensures success ==> containerStarted && sink == Sink(false, 0, [], false, 0)
      ensures !success ==> !containerStarted && sink == old(sink)
    {
      success := containerOpened && encodersOpened;
      if success {
        sink := Sink(false, 0, [], false, 0);
        containerStarted := true;
      }
    }

    /**
     * Takes a packet for an encoder call: the head of the free pool, or
     * when the pool is empty the head of the ready queue, whose packet is
     * then lost to the writer. Pool and ready queue are never both empty
     * here, because every packet is in one of them.
     */
    method TakePacket() returns (p: PacketId)
      requires pool != [] || ready != []
      modifies this`pool, this`ready
      ensures (p, Pipe(pool, ready)) == Take(old(Pipe(pool, ready)))
    {
      if pool != [] {
        p := pool[0];
        pool := pool[1..];
      } else {
        p := ready[0].id;
        ready := ready[1..];
      }
    }

    /**
     * processAudio: a read of `read` bytes. When bytes were read, the
     * sample buffer is stamped with the clock and the sample count, the
     * clock moves on by the read's duration, and the encoder is called
     * until it has consumed every sample, one packet per call. When
     * nothing was read, nothing changes. The read's result is returned.
     */
    method ProcessAudio(read: int, script: seq<Encoded>) returns (r: int)
      requires Valid()
      requires read > 0 ==> Drains(script, 0, 0, read / (2 * channels))
      modifies this`pool, this`ready, this`pts, this`aGlobalPts, this`aGlobalDts, this`samplesPts, this`samplesCount
      ensures Valid()
      ensures r == read
      ensures read <= 0 ==>
        pool == old(pool) && ready == old(ready) && pts == old(pts) &&
        aGlobalPts == old(aGlobalPts) && aGlobalDts == old(aGlobalDts) &&
        samplesPts == old(samplesPts) && samplesCount == old(samplesCount)
      ensures read > 0 ==>
        samplesPts == old(pts) && samplesCount == read / (2 * channels) &&
        pts == old(pts) + ClockAdvance(read, channels, sampleRate) &&
        (Pipe(pool, ready), AudioOrigin(aGlobalPts, aGlobalDts)) ==
          AudioEncodeLoop(old(Pipe(pool, ready)), old(AudioOrigin(aGlobalPts, aGlobalDts)), startUTCPts, script, 0, 0, read / (2 * channels))
    {
      r := read;
      if read > 0 {
        samplesPts, samplesCount := pts, read / (2 * channels);
        pts := pts + (read * 1000000 / (2 * channels)) / sampleRate;
        EncodeSamples(script, samplesCount);
      }
    }

    /**
     * processAudio's encode loop: encoder calls, one packet each, until the
     * encoder has consumed the `remaining` samples of the read.
     */
    method EncodeSamples(script: seq<Encoded>, remaining: int)
      requires Valid() && Drains(script, 0, 0, remaining)
      modifies this`pool, this`ready, this`aGlobalPts, this`aGlobalDts
      ensures Valid()
      ensures (Pipe(pool, ready), AudioOrigin(aGlobalPts, aGlobalDts)) ==
        AudioEncodeLoop(old(Pipe(pool, ready)), old(AudioOrigin(aGlobalPts, aGlobalDts)), startUTCPts, script, 0, 0, remaining)
    {
      var consumed := 0;
      var i := 0;
      while consumed < remaining
        invariant 0 <= i <= |script|
        invariant Valid()
        invariant Drains(script, i, consumed, remaining)
        invariant AudioEncodeLoop(Pipe(pool, ready), AudioOrigin(aGlobalPts, aGlobalDts), startUTCPts, script, i, consumed, remaining) ==
          AudioEncodeLoop(old(Pipe(pool, ready)), old(AudioOrigin(aGlobalPts, aGlobalDts)), startUTCPts, script, 0, 0, remaining)
        decreases |script| - i
      {
        ghost var before := (Pipe(pool, ready), AudioOrigin(aGlobalPts, aGlobalDts));
        EncodeAudioCall(script[i]);
        assert AudioEncodeLoop(before.0, before.1, startUTCPts, script, i, consumed, remaining) ==
          AudioEncodeLoop(Pipe(pool, ready), AudioOrigin(aGlobalPts, aGlobalDts), startUTCPts, script, i + 1, consumed + script[i].consumed, remaining);
        consumed := consumed + script[i].consumed;
        i := i + 1;
      }
    }

    /** One audio encoder call of processAudio's encode loop. */
    method EncodeAudioCall(e: Encoded)
      requires Valid()
      modifies this`pool, this`ready, this`aGlobalPts, this`aGlobalDts
      ensures Valid()
      ensures (Pipe(pool, ready), AudioOrigin(aGlobalPts, aGlobalDts)) ==
        AudioEncodeStep(old(Pipe(pool, ready)), old(AudioOrigin(aGlobalPts, aGlobalDts)), startUTCPts, e)
    {
      ghost var step := AudioEncodeStep(Pipe(pool, ready), AudioOrigin(aGlobalPts, aGlobalDts), startUTCPts, e);
      var packet := TakePacket();
      OfferAudio(packet, e);
      assert Pipe(pool, ready) == step.0;
    }

    /** The packet an audio encoder call filled, offered as processAudio does. */
    method OfferAudio(packet: PacketId, e: Encoded)
      modifies this`pool, this`ready, this`aGlobalPts, this`aGlobalDts
      ensures (Pipe(pool, ready), AudioOrigin(aGlobalPts, aGlobalDts)) ==
        AudioOffer(old(Pipe(pool, ready)), packet, old(AudioOrigin(aGlobalPts, aGlobalDts)), startUTCPts, e)
    {
      if e.complete {
        if aGlobalPts == Unset && e.pts >= 0 {
          aGlobalPts, aGlobalDts := e.pts, e.dts;
        }
        ready := ready + [Packet(packet, e.pts - aGlobalPts + startUTCPts, e.dts - aGlobalDts + startUTCPts)];
      } else {
        pool := pool + [packet];
      }
    }

    /**
     * processVideo: one call of the video encoder on one packet. The first
     * complete packet is the codec configuration and goes back to the
     * pool; later complete packets are rebased and queued; incomplete
     * packets go back to the pool.
     */
    method ProcessVideo(e: Encoded)
      requires Valid()
      modifies this`pool, this`ready, this`csdWritten, this`globalPts
      ensures Valid()
      ensures (Pipe(pool, ready), csdWritten, globalPts) ==
        VideoEncodeStep(old(Pipe(pool, ready)), old(csdWritten), old(globalPts), startUTCPts, e)
    {
      ghost var goal := VideoEncodeStep(Pipe(pool, ready), csdWritten, globalPts, startUTCPts, e);
      var packet := TakePacket();
      OfferVideo(packet, e);
      assert Pipe(pool, ready) == goal.0;
    }

    /** The packet a video encoder call filled, offered as processVideo does. */
    method OfferVideo(packet: PacketId, e: Encoded)
      modifies this`pool, this`ready, this`csdWritten, this`globalPts
      ensures (Pipe(pool, ready), csdWritten, globalPts) ==
        VideoOffer(old(Pipe(pool, ready)), packet, old(csdWritten), old(globalPts), startUTCPts, e)
    {
      if !csdWritten && e.complete {
        csdWritten := true;
        pool := pool + [packet];
      } else if e.complete {
        if globalPts == Unset && e.pts > 0 {
          globalPts := e.pts;
        }
        var p := e.pts - globalPts + startUTCPts;
        ready := ready + [Packet(packet, p, p)];
      } else {
        pool := pool + [packet];
      }
    }

    /**
     * flushEncoder, with the packet that ends the flush returned to the
     * pool: the encoder is called with no input; each complete packet is
     * rebased against the stream's latched origin and queued, and the
     * flush goes on until the encoder reports an incomplete packet.
     */
    method FlushEncoder(isAudio: bool, script: seq<Encoded>)
      requires Valid() && FlushEnds(script)
      modifies this`pool, this`ready
      ensures Valid()
      ensures Pipe(pool, ready) ==
        Flush(old(Pipe(pool, ready)), FlushStream(isAudio, aGlobalPts, aGlobalDts, globalPts), startUTCPts, script)
      decreases |script|
    {
      ghost var goal := Flush(Pipe(pool, ready), FlushStream(isAudio, aGlobalPts, aGlobalDts, globalPts), startUTCPts, script);
      var packet := TakePacket();
      var e := script[0];
      if e.complete {
        var st := FlushStamp(FlushStream(isAudio, aGlobalPts, aGlobalDts, globalPts), startUTCPts, e);
        ready := ready + [Packet(packet, st.pts, st.dts)];
        FlushEncoder(isAudio, script[1..]);
      } else {
        pool := pool + [packet];
      }
      assert Pipe(pool, ready) == goal;
    }

    /**
     * One pass of the container writer's loop. The header is written when
     * the codec configuration has been seen and the header has not been
     * written yet; a negative status from that write ends the loop with an
     * error and changes nothing. Once the header is written, the head of
     * the ready queue, if any, is written and its packet goes back to the
     * pool. The status of a packet write is ignored.
     */
    method WriterIteration(headerStatus: int) returns (ok: bool, written: Option<Packet>)
      requires Valid() && containerStarted
      modifies this`headerWritten, this`sink, this`pool, this`ready
      ensures Valid()
      ensures ok == !(old(csdWritten) && !old(headerWritten) && headerStatus < 0)
      ensures !ok ==>
        written == None && headerWritten == old(headerWritten) && sink == old(sink) &&
        pool == old(pool) && ready == old(ready)
      ensures ok ==> headerWritten == (old(headerWritten) || old(csdWritten))
      ensures ok ==> sink.header == (old(sink.header) || old(csdWritten))
      ensures sink.headerWrites == old(sink.headerWrites) + (if ok && old(csdWritten) && !old(headerWritten) then 1 else 0)
      ensures ok && headerWritten && old(ready) != [] ==>
        written == Some(old(ready)[0]) && ready == old(ready)[1..] &&
        pool == old(pool) + [old(ready)[0].id] && sink.packets == old(sink.packets) + [old(ready)[0]]
      ensures ok && (!headerWritten || old(ready) == []) ==>
        written == None && ready == old(ready) && pool == old(pool) && sink.packets == old(sink.packets)
      ensures sink.trailer == old(sink.trailer)
    {
      written := None;
      if csdWritten && !headerWritten {
        if headerStatus < 0 {
          return false, None;
        }
        sink := sink.(header := true, headerWrites := sink.headerWrites + 1);
        headerWritten := true;
      }
      ok := true;
      if headerWritten && ready != [] {
        var packet := ready[0];
        ready := ready[1..];
        sink := sink.(packets := sink.packets + [packet]);
        pool := pool + [packet.id];
        written := Some(packet);
      }
    }

    /**
     * The container task after its loop: the trailer is written when the
     * thread was not interrupted and the container's header was written,
     * and every packet still on the ready queue goes back to the pool, in order.
     * The task runs once per opened container, so the trailer is not yet written.
     */
    method WriterShutdown(interrupted: bool) returns (wroteTrailer: bool)
      requires Valid() && !containerStarted && !sink.trailer
      modifies this`sink, this`pool, this`ready
      ensures Valid()
      ensures wroteTrailer == (!interrupted && old(sink.header))
      ensures sink == old(sink).(trailer := wroteTrailer, trailerWrites := if wroteTrailer then 1 else 0)
      ensures pool == old(pool) + Ids(old(ready)) && ready == []
    {
      wroteTrailer := !interrupted && sink.header;
      if wroteTrailer {
        sink := sink.(trailer := true, trailerWrites := sink.trailerWrites + 1);
      }
      pool := pool + Ids(ready);
      ready := [];
    }

    /**
     * reset, which the worker calls only after it has told the writer loop
     * to stop: every origin back to unset, the sample clock to 0 and both
     * flags down; the queues are untouched.
     */
    method Reset()
      requires ValidApartFromHeader() && !containerStarted
      modifies this`globalPts, this`aGlobalPts, this`aGlobalDts, this`pts, this`csdWritten, this`headerWritten
      ensures Valid()
      ensures globalPts == Unset && aGlobalPts == Unset && aGlobalDts == Unset && pts == 0
      ensures !csdWritten && !headerWritten
    {
      globalPts := Unset;
      aGlobalPts := Unset;
      aGlobalDts := Unset;
      pts := 0;
      csdWritten := false;
      headerWritten := false;
    }

    /** start's guard: only a recorder that is not started launches its worker. */
    method Start() returns (launched: bool)
      modifies this`started
      ensures launched == !old(started)
      ensures started
    {
      launched := !started;
      started := true;
    }

    /** stop's guard: only a started recorder is stopped, and then it is no longer started. */
    method Stop() returns (stopped: bool)
      modifies this`started
      ensures stopped == old(started)
      ensures !started
    {
      stopped := started;
      started := false;
    }

    /**
     * The worker's tail once capture has stopped: read and encode audio
     * until a read returns no bytes, flush the audio encoder, then the
     * video encoder, stop the writer loop and reset the session.
     */
    method FinishCapture(drain: seq<AudioRead>, audioFlush: seq<Encoded>, videoFlush: seq<Encoded>)
      requires Valid() && DrainEnds(drain, channels) && FlushEnds(audioFlush) && FlushEnds(videoFlush)
      modifies this`pool, this`ready, this`pts, this`aGlobalPts, this`aGlobalDts, this`samplesPts, this`samplesCount,
        this`globalPts, this`csdWritten, this`headerWritten, this`containerStarted
      ensures Valid()
      ensures !containerStarted
      ensures globalPts == Unset && aGlobalPts == Unset && aGlobalDts == Unset && pts == 0
      ensures !csdWritten && !headerWritten
    {
      var i := 0;
      var read := ProcessAudio(drain[0].read, drain[0].script);
      while read > 0
        invariant 0 <= i < |drain|
        invariant Valid()
        invariant read == drain[i].read
        invariant DrainEnds(drain[i..], channels)
        decreases |drain| - i
      {
        assert drain[i..][1..] == drain[i + 1..];
        i := i + 1;
        read := ProcessAudio(drain[i].read, drain[i].script);
      }
      FlushEncoder(true, audioFlush);
      FlushEncoder(false, videoFlush);
      containerStarted := false;
      Reset();
    }
  }
}
