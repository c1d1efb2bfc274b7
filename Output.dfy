/**
 * Where and in which container format openOutput in MediaRecorder.kt
 * writes: the format is chosen from the scheme of the output URI the
 * caller set, and a streaming destination also switches the audio codec,
 * the sample format and the video bit rate.
 */
module Output {
  import opened Wrappers

  /** Android's ContentResolver.SCHEME_CONTENT. */
  const SchemeContent: string := "content"
  /** Android's ContentResolver.SCHEME_FILE. */
  const SchemeFile: string := "file"
  /** Xuggler's XugglerIO.DEFAULT_PROTOCOL, the scheme of URIs that wrap a Java stream. */
  const DefaultProtocol: string := "xugglerio"
  /** The video bit rate forced for a streaming destination. */
  const StreamingVideoBitRate: int := 1024000

  /** An output URI; its scheme may be absent (a relative URI). */
  datatype Uri = Uri(scheme: Option<string>, rest: string)

  datatype ContainerFormat = Mpegts | Mp4
  datatype AudioCodec = Flac | Aac | OtherAudioCodec(id: int)
  datatype SampleFormat = S16 | Fltp

  /** The settings openOutput hands to the container and the encoders. */
  datatype Settings = Settings(format: Option<ContainerFormat>, audioCodec: AudioCodec, sampleFormat: SampleFormat, videoBitRate: int)

  /** A scheme the device itself stores to: a content URI, a file or a wrapped Java stream. */
  predicate IsLocalScheme(scheme: Option<string>) {
    scheme == Some(SchemeContent) || scheme == Some(SchemeFile) || scheme == Some(DefaultProtocol)
  }

  /**
   * The output-format choice of openOutput. An unset URI chooses no
   * format and keeps the configured codec and bit rate; a URI whose scheme
   * is not local chooses MPEG-TS with AAC audio in planar float samples at
   * the streaming bit rate; any other URI chooses MP4 and keeps the
   * configuration. The sample format is 16-bit unless streaming.
   */
  function SelectOutput(url: Option<Uri>, codec: AudioCodec, videoBitRate: int): (r: Settings)
    ensures r.format.None? <==> url.None?
    ensures r.format == Some(Mpegts) <==> url.Some? && !IsLocalScheme(url.value.scheme)
    ensures r.format == Some(Mp4) <==> url.Some? && IsLocalScheme(url.value.scheme)
    ensures r.format == Some(Mpegts) ==>
      r.audioCodec == Aac && r.sampleFormat == Fltp && r.videoBitRate == StreamingVideoBitRate
    ensures r.format != Some(Mpegts) ==>
      r.audioCodec == codec && r.sampleFormat == S16 && r.videoBitRate == videoBitRate
  {
    match url
    case None => Settings(None, codec, S16, videoBitRate)
    case Some(u) =>
      if !IsLocalScheme(u.scheme) then Settings(Some(Mpegts), Aac, Fltp, StreamingVideoBitRate)
      else Settings(Some(Mp4), codec, S16, videoBitRate)
  }

  /**
   * The codec and bit rate are written back into the recorder's
   * configuration, so choosing again for the same URI changes nothing.
   */
  lemma SelectOutputSettles(url: Option<Uri>, codec: AudioCodec, videoBitRate: int)
    ensures var s := SelectOutput(url, codec, videoBitRate);
      SelectOutput(url, s.audioCodec, s.videoBitRate) == s
  {
  }

  /** What openOutput returns as the recording's location: the URI set, or else the generated media-store entry. */
  function RecordingLocation(url: Option<Uri>, generated: Uri): (r: Uri)
    ensures url.Some? ==> r == url.value
    ensures url.None? ==> r == generated
  {
    url.GetOr(generated)
  }

  /** The destination handed to the container's open: a URI, or a bare string. */
  datatype OpenTarget = Location(uri: Uri) | Text(s: string)

  /**
   * The destination openOutput opens, as written: the text of the output
   * URI field, which for an unset field is the string "null" rather than
   * the generated location it returns to the caller.
   */
  function OpenTargetAsWritten(url: Option<Uri>): (r: OpenTarget)
    ensures url.Some? ==> r == Location(url.value)
    ensures url.None? ==> r == Text("null")
  {
    match url
    case Some(u) => Location(u)
    case None => Text("null")
  }

  /** With no output URI set, the container as written opens something other than the location returned. */
  lemma UnsetOutputOpensNullText(generated: Uri)
    ensures OpenTargetAsWritten(None) != Location(RecordingLocation(None, generated))
  {
  }

  /** The destination openOutput evidently means to open: the same location it returns. */
  function OpenTargetFor(url: Option<Uri>, generated: Uri): (r: OpenTarget)
    ensures r == Location(RecordingLocation(url, generated))
    ensures url.Some? ==> r == OpenTargetAsWritten(url)
  {
    Location(url.GetOr(generated))
  }
}
