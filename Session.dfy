/**
 * The recording session state machine of RecordingSessionManager.kt.
 *
 * User commands (`record`, `switchCamera`, `switchFlash`, `enablePreview`,
 * `close`) and camera callbacks (device opened, closed or failed; capture
 * session configured or closed; capture started; capture sequence completed
 * or aborted) update the manager's fields. The camera, the capture sessions
 * and the recorder are outside the model: what the manager asks of them is
 * returned as a list of effects, in the order the source issues them.
 */
module Session {
  import opened Wrappers

  datatype State = Idle | Preparing | Prepared | Switch | SwitchRecording | Recording

  /** The lens a camera faces; only these two are ever selected. */
  datatype Direction = Front | Back

  /** The three rotation kernels of rotate.rs. */
  datatype Kernel = Rotate90 | Rotate180 | Rotate270

  /**
   * Which call of `startRecordSession` made a capture session: the one in
   * `record`, which starts and stops the recorder, or the one in the
   * camera's `onOpened` during a switch, which only stops it.
   */
  datatype SessionKind = RecordSession | SwitchSession

  /** What the manager asks of the camera, its capture sessions and the recorder. */
  datatype Effect =
    | OpenOutput              // mr.openOutput
    | StartRecordSession(kind: SessionKind)
    | PreparePreview          // preparePreview(previewSurface)
    | StopPreviewRepeating    // previewSession?.stopRepeating()
    | StopCaptureRepeating    // captureSession?.stopRepeating()
    | StartCaptureRepeating   // setRepeatingRequest on a configured capture session
    | StartRecorder           // mr.startAudioRecording(); mr.start()
    | StopRecorder            // mr.stop()
    | OpenCamera              // openCamera()
    | CloseCamera             // the camera device's close()
    | CloseCaptureSession     // the capture session's close()
    | InvalidOrientation      // IllegalArgumentException("Sensor orientation is invalid")

  /**
   * The manager's fields: `previewSurface` is kept only as whether it is
   * set, and `applyRotation` as the kernel it runs (None for the initial
   * do-nothing function).
   */
  datatype Status = Status(
    state: State,
    direction: Direction,
    flashEnabled: bool,
    hasPreview: bool,
    rotation: Option<Kernel>)

  /** A freshly constructed manager. */
  const Initial := Status(Idle, Front, false, false, None)

  /** The other camera direction. */
  function Toggle(d: Direction): (r: Direction)
    ensures r != d
  {
    if d == Front then Back else Front
  }

  /** Toggling twice restores the original direction. */
  lemma ToggleTwice(d: Direction)
    ensures Toggle(Toggle(d)) == d
  {
  }

  /** The sensor orientation each kernel is chosen for. */
  function Degrees(k: Kernel): int {
    match k
    case Rotate90 => 90
    case Rotate180 => 180
    case Rotate270 => 270
  }

  /**
   * The kernel chosen for a camera whose sensor orientation is
   * `orientation` (None when the camera reports none): 90, 180 and 270
   * choose their kernel, anything else none.
   */
  function KernelFor(orientation: Option<int>): (r: Option<Kernel>)
    ensures r.Some? <==> orientation == Some(90) || orientation == Some(180) || orientation == Some(270)
    ensures r.Some? ==> orientation == Some(Degrees(r.value))
  {
    match orientation
    case Some(90) => Some(Rotate90)
    case Some(180) => Some(Rotate180)
    case Some(270) => Some(Rotate270)
    case _ => None
  }

  /** Every kernel is the one chosen for its own orientation. */
  lemma KernelForDegrees(k: Kernel)
    ensures KernelFor(Some(Degrees(k))) == Some(k)
  {
  }

  /** `previewSurface?.let(preparePreview)`: the preview is restarted only when a surface is set. */
  function PreviewRestart(hasPreview: bool): seq<Effect> {
    if hasPreview then [PreparePreview] else []
  }

  // ---------------------------------------------------------------------
  // One function per command and callback: the new fields and the effects.
  // ---------------------------------------------------------------------

  /**
   * `record`: from IDLE it enters PREPARING and opens the output; in
   * RECORDING it only stops the capture session's repeating request; in
   * every other state it does nothing.
   */
  function RecordStep(m: Status): (r: (Status, seq<Effect>))
    ensures m.state == Idle ==> r == (m.(state := Preparing), [OpenOutput])
    ensures m.state == Recording ==> r == (m, [StopCaptureRepeating])
    ensures m.state != Idle && m.state != Recording ==> r == (m, [])
  {
    match m.state
    case Idle => (m.(state := Preparing), [OpenOutput])
    case Recording => (m, [StopCaptureRepeating])
    case _ => (m, [])
  }

  /**
   * `switchCamera`: only in IDLE or RECORDING, it turns the camera the
   * other way and stops the repeating request of the running session;
   * IDLE becomes SWITCH and RECORDING becomes SWITCH_RECORDING.
   */
  function SwitchCameraStep(m: Status): (r: (Status, seq<Effect>))
    ensures r.0.direction != m.direction <==> m.state == Idle || m.state == Recording
    ensures r.0.direction != m.direction ==> r.0.direction == Toggle(m.direction)
    ensures m.state == Idle ==> r.0.state == Switch && r.1 == [StopPreviewRepeating]
    ensures m.state == Recording ==> r.0.state == SwitchRecording && r.1 == [StopCaptureRepeating]
    ensures m.state != Idle && m.state != Recording ==> r == (m, [])
    ensures r.0.flashEnabled == m.flashEnabled && r.0.hasPreview == m.hasPreview && r.0.rotation == m.rotation
  {
    match m.state
    case Idle => (m.(direction := Toggle(m.direction), state := Switch), [StopPreviewRepeating])
    case Recording => (m.(direction := Toggle(m.direction), state := SwitchRecording), [StopCaptureRepeating])
    case _ => (m, [])
  }

  /** `switchFlash`: records the choice and restarts the preview if there is one; the state is untouched. */
  function SwitchFlashStep(m: Status, enable: bool): (r: (Status, seq<Effect>))
    ensures r.0.flashEnabled == enable
    ensures r.0.state == m.state && r.0.direction == m.direction && r.0.hasPreview == m.hasPreview && r.0.rotation == m.rotation
    ensures PreparePreview in r.1 <==> m.hasPreview
  {
    (m.(flashEnabled := enable), PreviewRestart(m.hasPreview))
  }

  /** `enablePreview`: a preview surface is set from now on. */
  function EnablePreviewStep(m: Status): (r: (Status, seq<Effect>))
    ensures r.0.hasPreview
    ensures r.0.state == m.state && r.0.direction == m.direction && r.0.flashEnabled == m.flashEnabled && r.0.rotation == m.rotation
    ensures r.1 == []
  {
    (m.(hasPreview := true), [])
  }

  /**
   * The completion callback `record` hands to `openOutput`: on success the
   * state becomes PREPARED, whatever it was, and a record session is
   * started; on failure nothing happens, so PREPARING stays.
   */
  function OutputOpenedStep(m: Status, success: bool): (r: (Status, seq<Effect>))
    ensures r.0.state == (if success then Prepared else m.state)
    ensures r.0 == m.(state := r.0.state)
    ensures r.1 != [] <==> success
    ensures forall e :: e in r.1 ==> e == StartRecordSession(RecordSession)
  {
    if success then (m.(state := Prepared), [StartRecordSession(RecordSession)]) else (m, [])
  }

  /**
   * The camera device's `onOpened`: during a switch while recording it
   * starts a record session that only knows how to stop; otherwise it
   * restarts the preview if there is one. The state is untouched.
   */
  function CameraOpenedStep(m: Status): (r: (Status, seq<Effect>))
    ensures r.0 == m
    ensures m.state == SwitchRecording ==> r.1 == [StartRecordSession(SwitchSession)]
    ensures m.state != SwitchRecording ==> r.1 == PreviewRestart(m.hasPreview)
  {
    if m.state == SwitchRecording then (m, [StartRecordSession(SwitchSession)])
    else (m, PreviewRestart(m.hasPreview))
  }

  /**
   * The camera device's `onClosed`: SWITCH_RECORDING reopens the camera
   * and stays; SWITCH becomes IDLE and reopens the camera; RECORDING
   * becomes IDLE; the other states are unchanged.
   */
  function CameraClosedStep(m: Status): (r: (Status, seq<Effect>))
    ensures m.state == SwitchRecording ==> r == (m, [OpenCamera])
    ensures m.state == Switch ==> r == (m.(state := Idle), [OpenCamera])
    ensures m.state == Recording ==> r == (m.(state := Idle), [])
    ensures m.state in {Idle, Preparing, Prepared} ==> r == (m, [])
  {
    match m.state
    case SwitchRecording => (m, [OpenCamera])
    case Switch => (m.(state := Idle), [OpenCamera])
    case Recording => (m.(state := Idle), [])
    case _ => (m, [])
  }

  /** The camera device's `onDisconnected` and `onError`: the device is closed. */
  function CameraFailedStep(m: Status): (r: (Status, seq<Effect>))
    ensures r.0 == m
    ensures CloseCamera in r.1 && forall e :: e in r.1 ==> e == CloseCamera
  {
    (m, [CloseCamera])
  }

  /** A preview capture sequence that completes or aborts closes the camera during a switch, and does nothing otherwise. */
  function PreviewSequenceEndedStep(m: Status): (r: (Status, seq<Effect>))
    ensures r.0 == m
    ensures r.1 != [] <==> m.state == Switch
    ensures forall e :: e in r.1 ==> e == CloseCamera
  {
    (m, if m.state == Switch then [CloseCamera] else [])
  }

  /**
   * A record session's `onConfigured`: the rotation kernel is chosen from
   * the sensor orientation, and an orientation other than 90, 180 or 270
   * throws before anything else happens. Otherwise SWITCH_RECORDING
   * becomes RECORDING (every other state is kept) and the repeating
   * capture request starts.
   */
  function CaptureConfiguredStep(m: Status, orientation: Option<int>): (r: (Status, seq<Effect>))
    ensures KernelFor(orientation).None? ==> r == (m, [InvalidOrientation])
    ensures KernelFor(orientation).Some? ==> r.0.rotation == KernelFor(orientation) && r.1 == [StartCaptureRepeating]
    ensures KernelFor(orientation).Some? ==> r.0.state == (if m.state == SwitchRecording then Recording else m.state)
    ensures r.0.direction == m.direction && r.0.flashEnabled == m.flashEnabled && r.0.hasPreview == m.hasPreview
  {
    match KernelFor(orientation)
    case None => (m, [InvalidOrientation])
    case Some(k) =>
      var n := m.(rotation := Some(k));
      (if n.state == SwitchRecording then n.(state := Recording) else n, [StartCaptureRepeating])
  }

  /**
   * A record session's `onCaptureStarted`: only in PREPARED does it run the
   * session's start action, which for a session made by `record` starts
   * the recorder and enters RECORDING, and for a session made during a
   * switch does nothing.
   */
  function CaptureStartedStep(m: Status, kind: SessionKind): (r: (Status, seq<Effect>))
    ensures StartRecorder in r.1 <==> m.state == Prepared && kind == RecordSession
    ensures r.0.state == (if StartRecorder in r.1 then Recording else m.state)
    ensures r.0 == m.(state := r.0.state)
    ensures forall e :: e in r.1 ==> e == StartRecorder
  {
    if m.state == Prepared && kind == RecordSession then (m.(state := Recording), [StartRecorder])
    else (m, [])
  }

  /**
   * A record session's capture sequence completing or aborting: in
   * RECORDING the stop action stops the recorder, returns to IDLE and
   * restarts the preview; in SWITCH_RECORDING the session is closed; in
   * every other state nothing happens.
   */
  function CaptureSequenceEndedStep(m: Status): (r: (Status, seq<Effect>))
    ensures m.state == Recording ==> r == (m.(state := Idle), [StopRecorder] + PreviewRestart(m.hasPreview))
    ensures m.state == SwitchRecording ==> r == (m, [CloseCaptureSession])
    ensures m.state != Recording && m.state != SwitchRecording ==> r == (m, [])
  {
    match m.state
    case Recording => (m.(state := Idle), [StopRecorder] + PreviewRestart(m.hasPreview))
    case SwitchRecording => (m, [CloseCaptureSession])
    case _ => (m, [])
  }

  /** A record session's `onClosed`: during a switch while recording it closes the camera device. */
  function CaptureSessionClosedStep(m: Status): (r: (Status, seq<Effect>))
    ensures r.0 == m
    ensures r.1 != [] <==> m.state == SwitchRecording
    ensures forall e :: e in r.1 ==> e == CloseCamera
  {
    (m, if m.state == SwitchRecording then [CloseCamera] else [])
  }

  /** `close`: stops the recorder, closes the camera and forgets the preview surface; the state is untouched. */
  function CloseStep(m: Status): (r: (Status, seq<Effect>))
    ensures !r.0.hasPreview
    ensures r.0.state == m.state && r.0.direction == m.direction && r.0.flashEnabled == m.flashEnabled && r.0.rotation == m.rotation
    ensures StopRecorder in r.1 && CloseCamera in r.1
    ensures forall i, j :: 0 <= i < j < |r.1| && r.1[j] == StopRecorder ==> r.1[i] != CloseCamera
  {
    (m.(hasPreview := false), [StopRecorder, CloseCamera])
  }

  // ---------------------------------------------------------------------
  // Runs of events.
  // ---------------------------------------------------------------------

  datatype Event =
    | RecordPressed
    | SwitchPressed
    | FlashSwitched(enable: bool)
    | PreviewEnabled
    | OutputOpened(success: bool)
    | CameraOpened
    | CameraClosed
    | CameraFailed
    | PreviewSequenceEnded
    | CaptureConfigured(orientation: Option<int>)
    | CaptureStarted(kind: SessionKind)
    | CaptureSequenceEnded
    | CaptureSessionClosed
    | Closed

  /** The manager's answer to one event. */
  function Step(m: Status, e: Event): (Status, seq<Effect>) {
    match e
    case RecordPressed => RecordStep(m)
    case SwitchPressed => SwitchCameraStep(m)
    case FlashSwitched(enable) => SwitchFlashStep(m, enable)
    case PreviewEnabled => EnablePreviewStep(m)
    case OutputOpened(success) => OutputOpenedStep(m, success)
    case CameraOpened => CameraOpenedStep(m)
    case CameraClosed => CameraClosedStep(m)
    case CameraFailed => CameraFailedStep(m)
    case PreviewSequenceEnded => PreviewSequenceEndedStep(m)
    case CaptureConfigured(orientation) => CaptureConfiguredStep(m, orientation)
    case CaptureStarted(kind) => CaptureStartedStep(m, kind)
    case CaptureSequenceEnded => CaptureSequenceEndedStep(m)
    case CaptureSessionClosed => CaptureSessionClosedStep(m)
    case Closed => CloseStep(m)
  }

  /** The fields after a run of events, and every effect in the order issued. */
  function Run(m: Status, events: seq<Event>): (Status, seq<Effect>)
    decreases |events|
  {
    if events == [] then (m, [])
    else
      var first := Step(m, events[0]);
      var rest := Run(first.0, events[1..]);
      (rest.0, first.1 + rest.1)
  }

  /** Recording, either plainly or in the middle of a camera switch. */
  predicate Capturing(s: State) {
    s == Recording || s == SwitchRecording
  }

  /**
   * The only way into RECORDING or SWITCH_RECORDING from outside them is a
   * capture start of a session made by `record` while PREPARED, and that
   * step starts the recorder.
   */
  lemma EnteringCapture(m: Status, e: Event)
    requires !Capturing(m.state) && Capturing(Step(m, e).0.state)
    ensures m.state == Prepared && e == CaptureStarted(RecordSession)
    ensures Step(m, e) == (m.(state := Recording), [StartRecorder])
  {
  }

  /**
   * Over any run that starts outside RECORDING and SWITCH_RECORDING and
   * ends inside them, a record session's capture started while PREPARED
   * and the recorder was started.
   */
  lemma {:induction false} CaptureNeedsRecorderStart(m: Status, events: seq<Event>)
    requires !Capturing(m.state) && Capturing(Run(m, events).0.state)
    ensures CaptureStarted(RecordSession) in events
    ensures StartRecorder in Run(m, events).1
    decreases |events|
  {
    if events == [] {
    } else {
      var first := Step(m, events[0]);
      if Capturing(first.0.state) {
        EnteringCapture(m, events[0]);
        assert events[0] in events;
      } else {
        CaptureNeedsRecorderStart(first.0, events[1..]);
        assert CaptureStarted(RecordSession) in events[1..];
      }
    }
  }

  /**
   * Once in PREPARING, only a successful open of the output leaves it: no
   * command or camera callback does, so after a failed open the manager
   * stays in PREPARING for good.
   */
  lemma {:induction false} PreparingWaitsForOutput(m: Status, events: seq<Event>)
    requires m.state == Preparing
    requires OutputOpened(true) !in events
    ensures Run(m, events).0.state == Preparing
    decreases |events|
  {
    if events != [] {
      assert events[0] in events;
      var first := Step(m, events[0]);
      assert first.0.state == Preparing;
      assert forall e :: e in events[1..] ==> e in events;
      PreparingWaitsForOutput(first.0, events[1..]);
    }
  }

  /** The camera direction changes only when the user switches the camera. */
  lemma {:induction false} DirectionOnlySwitchedByUser(m: Status, events: seq<Event>)
    requires SwitchPressed !in events
    ensures Run(m, events).0.direction == m.direction
    decreases |events|
  {
    if events != [] {
      assert events[0] in events;
      assert forall e :: e in events[1..] ==> e in events;
      DirectionOnlySwitchedByUser(Step(m, events[0]).0, events[1..]);
    }
  }

  /** A run is its first event followed by the rest of the run. */
  lemma RunThen(m: Status, e: Event, rest: seq<Event>)
    ensures Run(m, [e] + rest) == (Run(Step(m, e).0, rest).0, Step(m, e).1 + Run(Step(m, e).0, rest).1)
  {
    assert ([e] + rest)[0] == e;
    assert ([e] + rest)[1..] == rest;
  }

  /** Running two lists of events one after the other is running their concatenation. */
  lemma {:induction false} RunAppend(m: Status, a: seq<Event>, b: seq<Event>)
    ensures Run(m, a + b) == (Run(Run(m, a).0, b).0, Run(m, a).1 + Run(Run(m, a).0, b).1)
    decreases |a|
  {
    if a == [] {
      assert a + b == b;
      assert Run(m, a).1 + Run(m, b).1 == Run(m, b).1;
    } else {
      var first := Step(m, a[0]);
      var mid := Run(first.0, a[1..]);
      var last := Run(mid.0, b);
      assert a + b == [a[0]] + (a[1..] + b);
      RunThen(m, a[0], a[1..] + b);
      RunAppend(first.0, a[1..], b);
      assert Run(m, a) == (mid.0, first.1 + mid.1) by {
        RunThen(m, a[0], a[1..]);
        assert a == [a[0]] + a[1..];
      }
      assert first.1 + (mid.1 + last.1) == (first.1 + mid.1) + last.1;
    }
  }

  /** A run of two events. */
  lemma RunTwo(m: Status, e: Event, f: Event)
    ensures
      var first := Step(m, e);
      var second := Step(first.0, f);
      Run(m, [e, f]) == (second.0, first.1 + second.1)
  {
    var first := Step(m, e);
    var second := Step(first.0, f);
    assert Run(first.0, [f]) == second by {
      RunThen(first.0, f, []);
      assert [f] + [] == [f];
      assert second.1 + [] == second.1;
    }
    RunThen(m, e, [f]);
    assert [e] + [f] == [e, f];
  }

  /**
   * Starting to record from IDLE: `record`, a successful open, the record
   * session configured with a valid orientation and its first capture
   * start leave the manager RECORDING with the recorder started.
   */
  lemma RecordStarts(m: Status, orientation: Option<int>)
    requires m.state == Idle && KernelFor(orientation).Some?
    ensures
      Run(m, [RecordPressed, OutputOpened(true), CaptureConfigured(orientation), CaptureStarted(RecordSession)])
      == (m.(state := Recording, rotation := KernelFor(orientation)),
          [OpenOutput, StartRecordSession(RecordSession), StartCaptureRepeating, StartRecorder])
  {
    var opening := [RecordPressed, OutputOpened(true)];
    var capturing := [CaptureConfigured(orientation), CaptureStarted(RecordSession)];
    assert Run(m, opening) == (m.(state := Prepared), [OpenOutput, StartRecordSession(RecordSession)]) by {
      RunTwo(m, RecordPressed, OutputOpened(true));
      assert [OpenOutput] + [StartRecordSession(RecordSession)] == [OpenOutput, StartRecordSession(RecordSession)];
    }
    assert Run(m.(state := Prepared), capturing)
        == (m.(state := Recording, rotation := KernelFor(orientation)), [StartCaptureRepeating, StartRecorder]) by {
      RunTwo(m.(state := Prepared), CaptureConfigured(orientation), CaptureStarted(RecordSession));
      assert [StartCaptureRepeating] + [StartRecorder] == [StartCaptureRepeating, StartRecorder];
    }
    RunAppend(m, opening, capturing);
    assert opening + capturing
        == [RecordPressed, OutputOpened(true), CaptureConfigured(orientation), CaptureStarted(RecordSession)];
    assert [OpenOutput, StartRecordSession(RecordSession)] + [StartCaptureRepeating, StartRecorder]
        == [OpenOutput, StartRecordSession(RecordSession), StartCaptureRepeating, StartRecorder];
  }

  /**
   * Stopping a recording: `record` in RECORDING and the end of the capture
   * sequence it causes return the manager to IDLE with the recorder
   * stopped and the preview restarted.
   */
  lemma RecordStops(m: Status)
    requires m.state == Recording
    ensures
      Run(m, [RecordPressed, CaptureSequenceEnded])
      == (m.(state := Idle), [StopCaptureRepeating, StopRecorder] + PreviewRestart(m.hasPreview))
  {
    RunTwo(m, RecordPressed, CaptureSequenceEnded);
    assert [StopCaptureRepeating] + ([StopRecorder] + PreviewRestart(m.hasPreview))
        == [StopCaptureRepeating, StopRecorder] + PreviewRestart(m.hasPreview);
  }

  /** A run of one event is that event's step. */
  lemma RunOne(m: Status, e: Event)
    ensures Run(m, [e]) == Step(m, e)
  {
    RunThen(m, e, []);
    assert [e] + [] == [e];
    assert Step(m, e).1 + [] == Step(m, e).1;
  }

  /**
   * The camera closed during a switch while recording is reopened, and the
   * new session configured with a valid orientation returns the manager
   * to RECORDING.
   */
  lemma SwitchSessionResumes(s: Status, orientation: Option<int>)
    requires s.state == SwitchRecording && KernelFor(orientation).Some?
    ensures
      Run(s, [CameraClosed, CameraOpened, CaptureConfigured(orientation)])
      == (s.(state := Recording, rotation := KernelFor(orientation)),
          [OpenCamera, StartRecordSession(SwitchSession), StartCaptureRepeating])
  {
    var c := CaptureConfigured(orientation);
    var reopening := [CameraClosed, CameraOpened];
    assert Run(s, reopening) == (s, [OpenCamera, StartRecordSession(SwitchSession)]) by {
      RunTwo(s, CameraClosed, CameraOpened);
      assert [OpenCamera] + [StartRecordSession(SwitchSession)] == [OpenCamera, StartRecordSession(SwitchSession)];
    }
    RunOne(s, c);
    RunAppend(s, reopening, [c]);
    assert reopening + [c] == [CameraClosed, CameraOpened, c];
    assert [OpenCamera, StartRecordSession(SwitchSession)] + [StartCaptureRepeating]
        == [OpenCamera, StartRecordSession(SwitchSession), StartCaptureRepeating];
  }

  /**
   * During a switch while recording, the old record session's capture
   * sequence ends and the session is closed, and its closing closes the
   * camera device; the state stays SWITCH_RECORDING.
   */
  lemma SwitchRecordingClosesCamera(s: Status)
    requires s.state == SwitchRecording
    ensures Run(s, [CaptureSequenceEnded, CaptureSessionClosed]) == (s, [CloseCaptureSession, CloseCamera])
  {
    RunTwo(s, CaptureSequenceEnded, CaptureSessionClosed);
    assert [CloseCaptureSession] + [CloseCamera] == [CloseCaptureSession, CloseCamera];
  }

  /**
   * The rest of a switch while recording: from SWITCH_RECORDING, the old
   * session's sequence ends and it is closed, the device is closed and
   * reopened, and the new session configured with a valid orientation
   * returns the manager to RECORDING.
   */
  lemma SwitchRecordingResumes(s: Status, orientation: Option<int>)
    requires s.state == SwitchRecording && KernelFor(orientation).Some?
    ensures
      Run(s, [CaptureSequenceEnded, CaptureSessionClosed, CameraClosed, CameraOpened, CaptureConfigured(orientation)])
      == (s.(state := Recording, rotation := KernelFor(orientation)),
          [CloseCaptureSession, CloseCamera, OpenCamera, StartRecordSession(SwitchSession), StartCaptureRepeating])
  {
    var closing := [CaptureSequenceEnded, CaptureSessionClosed];
    var resuming := [CameraClosed, CameraOpened, CaptureConfigured(orientation)];
    SwitchRecordingClosesCamera(s);
    SwitchSessionResumes(s, orientation);
    RunAppend(s, closing, resuming);
    assert closing + resuming == [CaptureSequenceEnded, CaptureSessionClosed, CameraClosed, CameraOpened, CaptureConfigured(orientation)];
    assert [CloseCaptureSession, CloseCamera] + [OpenCamera, StartRecordSession(SwitchSession), StartCaptureRepeating]
        == [CloseCaptureSession, CloseCamera, OpenCamera, StartRecordSession(SwitchSession), StartCaptureRepeating];
  }

  /**
   * Switching the camera while recording: the manager ends up RECORDING
   * again, facing the other way, with the recorder neither stopped nor
   * restarted.
   */
  lemma SwitchWhileRecording(m: Status, orientation: Option<int>)
    requires m.state == Recording && KernelFor(orientation).Some?
    ensures
      Run(m, [SwitchPressed, CaptureSequenceEnded, CaptureSessionClosed, CameraClosed, CameraOpened, CaptureConfigured(orientation)])
      == (m.(direction := Toggle(m.direction), rotation := KernelFor(orientation)),
          [StopCaptureRepeating, CloseCaptureSession, CloseCamera, OpenCamera,
           StartRecordSession(SwitchSession), StartCaptureRepeating])
  {
    var s := m.(direction := Toggle(m.direction), state := SwitchRecording);
    var rest := [CaptureSequenceEnded, CaptureSessionClosed, CameraClosed, CameraOpened, CaptureConfigured(orientation)];
    SwitchRecordingResumes(s, orientation);
    RunThen(m, SwitchPressed, rest);
    assert [SwitchPressed] + rest
        == [SwitchPressed, CaptureSequenceEnded, CaptureSessionClosed, CameraClosed, CameraOpened, CaptureConfigured(orientation)];
    assert [StopCaptureRepeating] + [CloseCaptureSession, CloseCamera, OpenCamera, StartRecordSession(SwitchSession), StartCaptureRepeating]
        == [StopCaptureRepeating, CloseCaptureSession, CloseCamera, OpenCamera, StartRecordSession(SwitchSession), StartCaptureRepeating];
  }

  /**
   * The camera closed during a switch from IDLE returns the manager to
   * IDLE and is reopened, and its opening restarts the preview.
   */
  lemma SwitchReopensCamera(s: Status)
    requires s.state == Switch
    ensures Run(s, [CameraClosed, CameraOpened]) == (s.(state := Idle), [OpenCamera] + PreviewRestart(s.hasPreview))
  {
    RunTwo(s, CameraClosed, CameraOpened);
  }

  /**
   * Switching the camera while idle: the preview's sequence ends, the
   * device is closed, and on closing the manager returns to IDLE and
   * reopens the camera the other way, which restarts the preview.
   */
  lemma SwitchWhileIdle(m: Status)
    requires m.state == Idle
    ensures
      Run(m, [SwitchPressed, PreviewSequenceEnded, CameraClosed, CameraOpened])
      == (m.(direction := Toggle(m.direction)),
          [StopPreviewRepeating, CloseCamera, OpenCamera] + PreviewRestart(m.hasPreview))
  {
    var s := m.(direction := Toggle(m.direction), state := Switch);
    var stopping := [SwitchPressed, PreviewSequenceEnded];
    var reopening := [CameraClosed, CameraOpened];
    assert Run(m, stopping) == (s, [StopPreviewRepeating, CloseCamera]) by {
      RunTwo(m, SwitchPressed, PreviewSequenceEnded);
      assert [StopPreviewRepeating] + [CloseCamera] == [StopPreviewRepeating, CloseCamera];
    }
    SwitchReopensCamera(s);
    RunAppend(m, stopping, reopening);
    assert stopping + reopening == [SwitchPressed, PreviewSequenceEnded, CameraClosed, CameraOpened];
    assert [StopPreviewRepeating, CloseCamera] + ([OpenCamera] + PreviewRestart(m.hasPreview))
        == [StopPreviewRepeating, CloseCamera, OpenCamera] + PreviewRestart(m.hasPreview);
  }

  // ---------------------------------------------------------------------
  // The manager object.
  // ---------------------------------------------------------------------

  class SessionManager {
    var state: State
    var cameraDirection: Direction
    var flashEnabled: bool
    var hasPreview: bool
    var applyRotation: Option<Kernel>

    /** The fields as a value. */
    function Snapshot(): Status
      reads this
    {
      Status(state, cameraDirection, flashEnabled, hasPreview, applyRotation)
    }

    constructor ()
      ensures Snapshot() == Initial
    {
      state := Idle;
      cameraDirection := Front;
      flashEnabled := false;
      hasPreview := false;
      applyRotation := None;
    }

    method Record() returns (effects: seq<Effect>)
      modifies this
      ensures (Snapshot(), effects) == RecordStep(old(Snapshot()))
    {
      effects := [];
      if state == Idle {
        state := Preparing;
        effects := [OpenOutput];
      } else if state == Recording {
        effects := [StopCaptureRepeating];
      }
    }

    method SwitchCamera() returns (effects: seq<Effect>)
      modifies this
      ensures (Snapshot(), effects) == SwitchCameraStep(old(Snapshot()))
    {
      effects := [];
      if state == Idle || state == Recording {
        cameraDirection := if cameraDirection == Front then Back else Front;
        state := if state == Recording then SwitchRecording else Switch;
        if state == Switch {
          effects := [StopPreviewRepeating];
        } else {
          effects := [StopCaptureRepeating];
        }
      }
    }

    method SwitchFlash(enable: bool) returns (effects: seq<Effect>)
      modifies this
      ensures (Snapshot(), effects) == SwitchFlashStep(old(Snapshot()), enable)
    {
      flashEnabled := enable;
      effects := if hasPreview then [PreparePreview] else [];
    }

    method EnablePreview() returns (effects: seq<Effect>)
      modifies this
      ensures (Snapshot(), effects) == EnablePreviewStep(old(Snapshot()))
    {
      hasPreview := true;
      effects := [];
    }

    method OnOutputOpened(success: bool) returns (effects: seq<Effect>)
      modifies this
      ensures (Snapshot(), effects) == OutputOpenedStep(old(Snapshot()), success)
    {
      effects := [];
      if success {
        state := Prepared;
        effects := [StartRecordSession(RecordSession)];
      }
    }

    method OnCameraOpened() returns (effects: seq<Effect>)
      modifies this
      ensures (Snapshot(), effects) == CameraOpenedStep(old(Snapshot()))
    {
      if state == SwitchRecording {
        effects := [StartRecordSession(SwitchSession)];
      } else {
        effects := if hasPreview then [PreparePreview] else [];
      }
    }

    method OnCameraClosed() returns (effects: seq<Effect>)
      modifies this
      ensures (Snapshot(), effects) == CameraClosedStep(old(Snapshot()))
    {
      effects := [];
      match state {
        case SwitchRecording =>
          effects := [OpenCamera];
        case Switch =>
          state := Idle;
          effects := [OpenCamera];
        case Recording =>
          state := Idle;
        case _ =>
      }
    }

    method OnCameraFailed() returns (effects: seq<Effect>)
      modifies this
      ensures (Snapshot(), effects) == CameraFailedStep(old(Snapshot()))
    {
      effects := [CloseCamera];
    }

    method OnPreviewSequenceEnded() returns (effects: seq<Effect>)
      modifies this
      ensures (Snapshot(), effects) == PreviewSequenceEndedStep(old(Snapshot()))
    {
      effects := [];
      if state == Switch {
        effects := [CloseCamera];
      }
    }

    method OnCaptureConfigured(orientation: Option<int>) returns (effects: seq<Effect>)
      modifies this
      ensures (Snapshot(), effects) == CaptureConfiguredStep(old(Snapshot()), orientation)
    {
      var kernel := KernelFor(orientation);
      if kernel.None? {
        return [InvalidOrientation];
      }
      applyRotation := kernel;
      if state == SwitchRecording {
        state := Recording;
      }
      effects := [StartCaptureRepeating];
    }

    method OnCaptureStarted(kind: SessionKind) returns (effects: seq<Effect>)
      modifies this
      ensures (Snapshot(), effects) == CaptureStartedStep(old(Snapshot()), kind)
    {
      effects := [];
      if state == Prepared && kind == RecordSession {
        effects := [StartRecorder];
        state := Recording;
      }
    }

    method OnCaptureSequenceEnded() returns (effects: seq<Effect>)
      modifies this
      ensures (Snapshot(), effects) == CaptureSequenceEndedStep(old(Snapshot()))
    {
      effects := [];
      if state == Recording {
        effects := [StopRecorder];
        state := Idle;
        if hasPreview {
          effects := effects + [PreparePreview];
        } else {
          assert effects == effects + [];
        }
      }
      if state == SwitchRecording {
        effects := effects + [CloseCaptureSession];
        assert effects == [CloseCaptureSession];
      }
    }

    method OnCaptureSessionClosed() returns (effects: seq<Effect>)
      modifies this
      ensures (Snapshot(), effects) == CaptureSessionClosedStep(old(Snapshot()))
    {
      effects := [];
      if state == SwitchRecording {
        effects := [CloseCamera];
      }
    }

    method Close() returns (effects: seq<Effect>)
      modifies this
      ensures (Snapshot(), effects) == CloseStep(old(Snapshot()))
    {
      effects := [StopRecorder, CloseCamera];
      hasPreview := false;
    }
  }
}
