# xuggler-android recording core, modelled in Dafny

This project models the recording core of xuggler-android-extensions:

- **MediaRecorder** turns captured audio and camera frames into encoded packets and writes them to a container.
  - Packets come from a fixed pool of 2000 (`PACKET_QUEUE`).
  - Each encoder call takes one packet, fills it, and offers it back: to the ready-to-write queue when it is complete, and to the pool when it is not.
  - Each stream's timestamps are rebased against an origin that the stream latches from its first usable packet.
  - The video stream's first complete packet is its codec configuration.
  - A container-writer loop writes the header once that configuration has been seen. It then moves packets from the ready queue to the container and back to the pool.
- **RecordingSessionManager** is the camera/recording state machine: IDLE, PREPARING, PREPARED, SWITCH, SWITCH_RECORDING and RECORDING. It also chooses the rotation kernel from the sensor orientation.
- **rotate.rs** holds the three RenderScript kernels that turn a preview frame.

The model has these modules:

- `Packets`: the pool, the ready queue, and the packet-conservation lemmas.
- `Timestamps`: the timestamp reconciler.
- `Encoding`: what one encoder call, an encode loop and a flush do to the queues.
- `SampleClock`: the audio sample clock.
- `Output`: output-format selection and the destination that is opened.
- `Recording`: the recorder as a class over those functions.
- `Session`: the session manager as pure step functions, a class proved equal to them, and lemmas over runs of events.
- `Rotate`: the kernels' coordinate maps.

The central property is packet conservation. Pool and ready queue together hold each of the 2000 packets exactly once. Every encoder call, encode loop and writer step is proved to keep it. A flush keeps it only in its corrected form. The flush as written loses one packet (Findings). Each `Recorder` method is proved equal to the function it calls, on the pool and the ready queue.

The encoders, the container, the audio source and the camera are not modelled. What each call reports is an input to the model:

- for an encoder call, an `Encoded`: samples consumed, whether the packet is complete, pts and dts;
- for an audio read, the number of bytes read;
- for a container call, its status;
- for the camera, its sensor orientation and its callbacks, which become the `Session.Event` values.

What the manager asks of the camera and the recorder is returned as a list of `Session.Effect` values, in the order the source issues them.

When the pool is empty, an encoder call takes the oldest packet off the ready queue instead. That packet is never written, as the code's own warning "Packet buffer empty, data will be lost" says (MediaRecorder.kt:380 and 413). The model does the same.

The `Recorder` class is the recorder with the two corrections listed under Findings:
- `FlushEncoder` returns the flush's final packet to the pool.
- `OpenOutput` opens the location it returns.

Each flaw as written is modelled beside its correction: `Encoding.FlushAsWritten` for the flush, and `Output.OpenTargetAsWritten` for the destination.

`Timestamps.VideoRunOrdered` and `Timestamps.AudioRunOrdered` are stated about runs of the stamping functions. They are not tied to the packets that `ProcessVideo` and `ProcessAudio` leave on the ready queue.

## Model

| member | source | states |
|---|---|---|
| Packets.InitiallyConserved | xuggler-android-extensions/src/main/java/com/xuggle/xuggler/record/MediaRecorder.kt:106 | The pool created at start-up holds each of the 2000 packets exactly once, and the ready queue is empty |
| Packets.RangeHoldsEachOnce | xuggler-android-extensions/src/main/java/com/xuggle/xuggler/record/MediaRecorder.kt:106 | The start-up list holds every packet below its size exactly once, and nothing else |
| Packets.ConservedPacketsAreDistinct | xuggler-android-extensions/src/main/java/com/xuggle/xuggler/record/MediaRecorder.kt:106 | While every packet is accounted for, each packet is in exactly one of pool and ready queue, once, and the two hold 2000 packets between them |
| Packets.ConservedNotExhausted | xuggler-android-extensions/src/main/java/com/xuggle/xuggler/record/MediaRecorder.kt:379-382 | While every packet is accounted for, pool and ready queue are never both empty, so the encoder always receives a packet |
| Packets.TakeHeld | xuggler-android-extensions/src/main/java/com/xuggle/xuggler/record/MediaRecorder.kt:379-382 | Taking a packet (the pool's head, or else the ready queue's head) removes exactly that packet from what the queues hold |
| Packets.OfferHeld | xuggler-android-extensions/src/main/java/com/xuggle/xuggler/record/MediaRecorder.kt:395-397 | Offering a packet to the tail of the pool or of the ready queue adds exactly that packet |
| Packets.WriteHeadConserves | xuggler-android-extensions/src/main/java/com/xuggle/xuggler/record/MediaRecorder.kt:236-240 | The writer moving the ready queue's head to the pool keeps every packet |
| Packets.ShutdownConserves | xuggler-android-extensions/src/main/java/com/xuggle/xuggler/record/MediaRecorder.kt:249-250 | Moving the whole ready queue to the pool at shutdown keeps every packet |
| Timestamps.StampAudio | xuggler-android-extensions/src/main/java/com/xuggle/xuggler/record/MediaRecorder.kt:385-394 | An unset audio origin latches (pts, dts) of the first packet with pts >= 0, and that packet lands at startUTCPts; a latched origin never changes; pts and dts are each shifted by their own origin |
| Timestamps.StampVideo | xuggler-android-extensions/src/main/java/com/xuggle/xuggler/record/MediaRecorder.kt:424-433 | An unset globalPts latches the first strictly positive pts, and that packet lands at startUTCPts; a latched origin never changes; pts is shifted by the origin and dts equals the new pts |
| Timestamps.UnlatchedVideoRebasedAgainstSentinel | xuggler-android-extensions/src/main/java/com/xuggle/xuggler/record/MediaRecorder.kt:424-433 | A video packet with pts <= 0 before any origin is latched is rebased against the -1 sentinel itself, to pts + 1 + startUTCPts |
| Timestamps.LatchedVideoRunShifts | xuggler-android-extensions/src/main/java/com/xuggle/xuggler/record/MediaRecorder.kt:432-433 | Once globalPts is latched, every later video packet is shifted by the same amount |
| Timestamps.VideoRunOrdered | xuggler-android-extensions/src/main/java/com/xuggle/xuggler/record/MediaRecorder.kt:423-434 | Non-decreasing encoder pts that start at or after the origin give queued video stamps >= startUTCPts, with dts == pts, that never decrease |
| Timestamps.LatchedAudioRunShifts | xuggler-android-extensions/src/main/java/com/xuggle/xuggler/record/MediaRecorder.kt:393-394 | Once the audio origin is latched, pts and dts of every later audio packet are each shifted by a fixed amount |
| Timestamps.AudioRunFromOrigin | xuggler-android-extensions/src/main/java/com/xuggle/xuggler/record/MediaRecorder.kt:384-395 | From the first audio packet on, the run is shifted by the origin that packet leaves behind, and that origin lies at or before the packet's stamps |
| Timestamps.AudioRunOrdered | xuggler-android-extensions/src/main/java/com/xuggle/xuggler/record/MediaRecorder.kt:384-395 | Non-decreasing encoder pts and dts that start at or after the origin give queued audio stamps >= startUTCPts that never decrease |
| SampleClock.ClockAdvance | xuggler-android-extensions/src/main/java/com/xuggle/xuggler/record/MediaRecorder.kt:370 | The clock advance for a read is its duration in whole microseconds, read * 1000000 / (2 * channels * sampleRate) rounded down, and is never negative |
| Output.SelectOutput | xuggler-android-extensions/src/main/java/com/xuggle/xuggler/record/MediaRecorder.kt:150-161 | No URI chooses no format and keeps the configuration; a URI whose scheme is not content, file or xugglerio chooses MPEG-TS with AAC, planar float samples and 1024000 bit/s; any other URI chooses MP4 and keeps the configuration (each an if-and-only-if) |
| Output.SelectOutputSettles | xuggler-android-extensions/src/main/java/com/xuggle/xuggler/record/MediaRecorder.kt:155-158 | Because codec and bit rate are written back into the configuration, choosing again for the same URI gives the same settings |
| Output.RecordingLocation | xuggler-android-extensions/src/main/java/com/xuggle/xuggler/record/MediaRecorder.kt:148 | openOutput returns the URI that was set, or else the generated media-store location |
| Output.OpenTargetAsWritten | xuggler-android-extensions/src/main/java/com/xuggle/xuggler/record/MediaRecorder.kt:178-179 | The container opens the text of the URI field: the URI when one is set, and "null" when none is |
| Output.UnsetOutputOpensNullText | xuggler-android-extensions/src/main/java/com/xuggle/xuggler/record/MediaRecorder.kt:178-179 | With no URI set, what the container opens differs from the location openOutput returns |
| Output.OpenTargetFor | xuggler-android-extensions/src/main/java/com/xuggle/xuggler/record/MediaRecorder.kt:148 | The corrected destination is the returned location, and agrees with the code whenever a URI is set |
| Rotate.Rotate90 | xuggler-android-extensions/src/main/rs/rotate.rs:18-19 | rotate90 sends every input pixel into the height-by-width output, and Unrotate90 recovers the pixel |
| Rotate.Unrotate90 | xuggler-android-extensions/src/main/rs/rotate.rs:18-19 | Every output cell comes from an input cell |
| Rotate.Rotate90Onto | xuggler-android-extensions/src/main/rs/rotate.rs:18-19 | Every output cell is written by the pixel Unrotate90 names |
| Rotate.Rotate90Bijective | xuggler-android-extensions/src/main/rs/rotate.rs:18-19 | rotate90 maps the input grid exactly onto the output grid |
| Rotate.Rotate180 | xuggler-android-extensions/src/main/rs/rotate.rs:14-15 | rotate180 keeps every pixel inside a grid of the input's shape |
| Rotate.Rotate180Involution | xuggler-android-extensions/src/main/rs/rotate.rs:14-15 | rotate180 applied twice is the identity |
| Rotate.Rotate180Bijective | xuggler-android-extensions/src/main/rs/rotate.rs:14-15 | rotate180 maps the input grid exactly onto itself |
| Rotate.Rotate180FitsOutputWhenSquare | xuggler-android-extensions/src/main/rs/rotate.rs:14-15 | On a square frame every rotate180 target lies in the output allocation |
| Rotate.Rotate180EscapesOutputWhenNotSquare | xuggler-android-extensions/src/main/rs/rotate.rs:14-15 | On a non-square frame the pixel (0, 0) already lands outside the height-by-width output allocation |
| Rotate.Rotate270 | xuggler-android-extensions/src/main/rs/rotate.rs:9-10 | rotate270 sends every input pixel into the height-by-width output, and Unrotate270 recovers the pixel |
| Rotate.Unrotate270 | xuggler-android-extensions/src/main/rs/rotate.rs:9-10 | Every output cell comes from an input cell |
| Rotate.Rotate270Onto | xuggler-android-extensions/src/main/rs/rotate.rs:9-10 | Every output cell is written by the pixel Unrotate270 names |
| Rotate.Rotate270Bijective | xuggler-android-extensions/src/main/rs/rotate.rs:9-10 | rotate270 maps the input grid exactly onto the output grid |
| Rotate.Rotate270MirrorsRotate90 | xuggler-android-extensions/src/main/rs/rotate.rs:9-19 | rotate270 is rotate90 followed by a mirror along the output's Y axis, not the opposite quarter turn |
| Rotate.PreviewShapes | xuggler-android-extensions/src/main/java/com/xuggle/xuggler/record/RecordingSessionManager.kt:290-318 | The output allocation is the input allocation transposed, and its X and Y sizes are the configured video width and height |
| Rotate.PreviewRotationsStayInOutput | xuggler-android-extensions/src/main/java/com/xuggle/xuggler/record/RecordingSessionManager.kt:290-318 | With those allocations, rotate90 and rotate270 write every input pixel inside the output allocation |
| Encoding.TakeKeepsOrder | xuggler-android-extensions/src/main/java/com/xuggle/xuggler/record/MediaRecorder.kt:379-382 | Taking a packet and then adding at the ready queue's tail removes the queue's head only when the pool is empty (the steal) and keeps the rest in order; with a non-empty pool the old queue is a prefix of the new one |
| Encoding.TakeThenOffer | xuggler-android-extensions/src/main/java/com/xuggle/xuggler/record/MediaRecorder.kt:379-398 | A packet taken and offered back to either queue leaves what the queues hold unchanged, removes the ready queue's head only when the pool was empty, keeps the rest in order, and shrinks the pool by at most one |
| Encoding.AudioOffer | xuggler-android-extensions/src/main/java/com/xuggle/xuggler/record/MediaRecorder.kt:384-398 | A complete audio packet goes to the tail of the ready queue with the reconciler's stamps and may latch the origin; an incomplete one goes to the tail of the pool and changes nothing else |
| Encoding.AudioEncodeStep | xuggler-android-extensions/src/main/java/com/xuggle/xuggler/record/MediaRecorder.kt:379-398 | After one audio encoder call, pool and ready queue are not both empty |
| Encoding.AudioEncodeStepConserves | xuggler-android-extensions/src/main/java/com/xuggle/xuggler/record/MediaRecorder.kt:379-398 | An audio encoder call neither creates nor loses a packet |
| Encoding.AudioEncodeStepKeepsOrder | xuggler-android-extensions/src/main/java/com/xuggle/xuggler/record/MediaRecorder.kt:379-398 | An audio encoder call removes the ready queue's head exactly when the pool is empty, otherwise the old queue is a prefix of the new one; the pool shrinks by at most one |
| Encoding.AudioEncodeLoopConserves | xuggler-android-extensions/src/main/java/com/xuggle/xuggler/record/MediaRecorder.kt:375-399 | processAudio's whole encode loop neither creates nor loses a packet |
| Encoding.AudioEncodeLoopKeepsOrder | xuggler-android-extensions/src/main/java/com/xuggle/xuggler/record/MediaRecorder.kt:375-399 | processAudio's encode loop removes at most one packet from the ready queue's head per encoder call and keeps the rest in order; when the pool holds a packet for every call, the old queue is a prefix of the new one |
| Encoding.VideoOffer | xuggler-android-extensions/src/main/java/com/xuggle/xuggler/record/MediaRecorder.kt:417-437 | The first complete video packet is the codec configuration: it sets the flag and goes back to the pool. Later complete packets latch globalPts if needed and are queued with dts == pts. Incomplete packets go back to the pool |
| Encoding.VideoEncodeStep | xuggler-android-extensions/src/main/java/com/xuggle/xuggler/record/MediaRecorder.kt:412-437 | After one video encoder call, pool and ready queue are not both empty |
| Encoding.VideoEncodeStepConserves | xuggler-android-extensions/src/main/java/com/xuggle/xuggler/record/MediaRecorder.kt:412-437 | processVideo neither creates nor loses a packet |
| Encoding.VideoEncodeStepKeepsOrder | xuggler-android-extensions/src/main/java/com/xuggle/xuggler/record/MediaRecorder.kt:412-437 | processVideo removes the ready queue's head exactly when the pool is empty, otherwise the old queue is a prefix of the new one |
| Encoding.FlushStamp | xuggler-android-extensions/src/main/java/com/xuggle/xuggler/record/MediaRecorder.kt:456-471 | A flushed audio packet is shifted by the latched audio origin; a flushed video packet by globalPts, with dts == pts; no origin is latched |
| Encoding.Flush | xuggler-android-extensions/src/main/java/com/xuggle/xuggler/record/MediaRecorder.kt:446-476 | The corrected flush leaves pool and ready queue not both empty |
| Encoding.FlushConserves | xuggler-android-extensions/src/main/java/com/xuggle/xuggler/record/MediaRecorder.kt:446-476 | The corrected flush, which returns its final incomplete packet to the pool, neither creates nor loses a packet |
| Encoding.FlushKeepsOrder | xuggler-android-extensions/src/main/java/com/xuggle/xuggler/record/MediaRecorder.kt:446-476 | The flush removes at most one packet from the ready queue's head per encoder call and keeps the rest in order; when the pool holds a packet for every call, the old queue is a prefix of the new one |
| Encoding.FlushAsWrittenDrops | xuggler-android-extensions/src/main/java/com/xuggle/xuggler/record/MediaRecorder.kt:455-473 | flushEncoder as written drops exactly the final incomplete packet and nothing else |
| Encoding.FlushAsWrittenLosesPacket | xuggler-android-extensions/src/main/java/com/xuggle/xuggler/record/MediaRecorder.kt:446-476 | From a fully accounted pool, flushEncoder as written leaves 1999 packets in pool and ready queue; the corrected flush keeps all 2000 |
| Recording.Recorder.constructor | xuggler-android-extensions/src/main/java/com/xuggle/xuggler/record/MediaRecorder.kt:60-106 | A new recorder has every packet in the pool, an empty ready queue, every origin unset, the sample clock at 0, no URI, and all flags down |
| Recording.Recorder.SetOutput | xuggler-android-extensions/src/main/java/com/xuggle/xuggler/record/MediaRecorder.kt:136-138 | The output URI is the one given |
| Recording.Recorder.OpenOutput | xuggler-android-extensions/src/main/java/com/xuggle/xuggler/record/MediaRecorder.kt:140-162 | Returns RecordingLocation, opens that same location (the corrected destination), and writes SelectOutput's settings back into the configuration; the container format is kept when no URI is set |
| Recording.Recorder.OpenContainer | xuggler-android-extensions/src/main/java/com/xuggle/xuggler/record/MediaRecorder.kt:178-225 | The writer loop starts on an untouched container exactly when the container and both encoders open; otherwise nothing changes |
| Recording.Recorder.TakePacket | xuggler-android-extensions/src/main/java/com/xuggle/xuggler/record/MediaRecorder.kt:379-382 | Takes the packet Packets.Take names and leaves the queues Take leaves |
| Recording.Recorder.ProcessAudio | xuggler-android-extensions/src/main/java/com/xuggle/xuggler/record/MediaRecorder.kt:354-405 | Returns the read's result. A read of nothing changes nothing. A read with bytes stamps the samples with the clock, advances the clock by ClockAdvance, and leaves queues and origin as AudioEncodeLoop does |
| Recording.Recorder.EncodeSamples | xuggler-android-extensions/src/main/java/com/xuggle/xuggler/record/MediaRecorder.kt:375-399 | The while loop leaves queues and audio origin exactly as AudioEncodeLoop does |
| Recording.Recorder.EncodeAudioCall | xuggler-android-extensions/src/main/java/com/xuggle/xuggler/record/MediaRecorder.kt:379-398 | One encoder call leaves queues and audio origin as AudioEncodeStep does |
| Recording.Recorder.OfferAudio | xuggler-android-extensions/src/main/java/com/xuggle/xuggler/record/MediaRecorder.kt:384-398 | Queues and audio origin become what AudioOffer gives |
| Recording.Recorder.ProcessVideo | xuggler-android-extensions/src/main/java/com/xuggle/xuggler/record/MediaRecorder.kt:410-438 | Queues, codec-config flag and globalPts become what VideoEncodeStep gives |
| Recording.Recorder.OfferVideo | xuggler-android-extensions/src/main/java/com/xuggle/xuggler/record/MediaRecorder.kt:417-437 | Queues, codec-config flag and globalPts become what VideoOffer gives |
| Recording.Recorder.FlushEncoder | xuggler-android-extensions/src/main/java/com/xuggle/xuggler/record/MediaRecorder.kt:446-476 | The queues become what the corrected Flush gives for the audio or the video stream |
| Recording.Recorder.WriterIteration | xuggler-android-extensions/src/main/java/com/xuggle/xuggler/record/MediaRecorder.kt:229-241 | The header is written once the codec configuration is seen, and a failing header write ends the loop without change. After the header, the head of the ready queue goes to the container and then to the pool. The count of header writes rises by one exactly when the header is written; with the invariant that an open container's header count is at most 1, an opened container receives its header at most once |
| Recording.Recorder.WriterShutdown | xuggler-android-extensions/src/main/java/com/xuggle/xuggler/record/MediaRecorder.kt:245-250 | On a container whose trailer is not yet written, the trailer is written exactly when the thread was not interrupted and the header was written, and at most once; every queued packet returns to the pool in order |
| Recording.Recorder.Reset | xuggler-android-extensions/src/main/java/com/xuggle/xuggler/record/MediaRecorder.kt:260-267 | Called only once the writer loop is told to stop: every origin goes back to -1, the clock to 0, and both flags down |
| Recording.Recorder.Start | xuggler-android-extensions/src/main/java/com/xuggle/xuggler/record/MediaRecorder.kt:283-286 | Only a recorder not yet started launches its worker; afterwards it is started |
| Recording.Recorder.Stop | xuggler-android-extensions/src/main/java/com/xuggle/xuggler/record/MediaRecorder.kt:318-319 | Only a started recorder is stopped; afterwards it is not started |
| Recording.Recorder.FinishCapture | xuggler-android-extensions/src/main/java/com/xuggle/xuggler/record/MediaRecorder.kt:295-304 | Drains audio until a read returns nothing, flushes audio then video, stops the writer loop and resets the session, keeping the recorder's invariant |
| Session.Toggle | xuggler-android-extensions/src/main/java/com/xuggle/xuggler/record/RecordingSessionManager.kt:341-345 | Switching the direction always gives the other one |
| Session.ToggleTwice | xuggler-android-extensions/src/main/java/com/xuggle/xuggler/record/RecordingSessionManager.kt:341-345 | Switching twice restores the direction |
| Session.KernelFor | xuggler-android-extensions/src/main/java/com/xuggle/xuggler/record/RecordingSessionManager.kt:219-224 | A kernel is chosen if and only if the orientation is 90, 180 or 270, and the chosen kernel is the one for that orientation |
| Session.KernelForDegrees | xuggler-android-extensions/src/main/java/com/xuggle/xuggler/record/RecordingSessionManager.kt:219-224 | Each kernel is chosen for its own orientation |
| Session.RecordStep | xuggler-android-extensions/src/main/java/com/xuggle/xuggler/record/RecordingSessionManager.kt:370-399 | IDLE goes to PREPARING and opens the output; RECORDING stops the capture's repeating request; every other state does nothing |
| Session.SwitchCameraStep | xuggler-android-extensions/src/main/java/com/xuggle/xuggler/record/RecordingSessionManager.kt:337-354 | Only IDLE and RECORDING flip the direction. They go to SWITCH and SWITCH_RECORDING respectively and stop the preview's or the capture's repeating request; flash, preview and kernel are kept |
| Session.SwitchFlashStep | xuggler-android-extensions/src/main/java/com/xuggle/xuggler/record/RecordingSessionManager.kt:362-365 | The flash choice is stored and nothing else in the fields changes; the preview is restarted exactly when a surface is set |
| Session.EnablePreviewStep | xuggler-android-extensions/src/main/java/com/xuggle/xuggler/record/RecordingSessionManager.kt:289-292 | A preview surface is set from now on; no other field changes and nothing is asked of the camera |
| Session.OutputOpenedStep | xuggler-android-extensions/src/main/java/com/xuggle/xuggler/record/RecordingSessionManager.kt:374-392 | Success, and only success, moves to PREPARED and starts a record session; no other field changes, and a failed open does nothing |
| Session.CameraOpenedStep | xuggler-android-extensions/src/main/java/com/xuggle/xuggler/record/RecordingSessionManager.kt:75-89 | During SWITCH_RECORDING a switch session is started; otherwise the preview is restarted when a surface is set; the fields are unchanged |
| Session.CameraClosedStep | xuggler-android-extensions/src/main/java/com/xuggle/xuggler/record/RecordingSessionManager.kt:99-108 | SWITCH_RECORDING reopens the camera, SWITCH goes to IDLE and reopens it, RECORDING goes to IDLE without stopping the recorder, and the rest do nothing |
| Session.CameraFailedStep | xuggler-android-extensions/src/main/java/com/xuggle/xuggler/record/RecordingSessionManager.kt:91-97 | A disconnect or error closes the device and changes no field |
| Session.PreviewSequenceEndedStep | xuggler-android-extensions/src/main/java/com/xuggle/xuggler/record/RecordingSessionManager.kt:149-163 | The end of the preview sequence closes the camera exactly in SWITCH and changes no field |
| Session.CaptureConfiguredStep | xuggler-android-extensions/src/main/java/com/xuggle/xuggler/record/RecordingSessionManager.kt:216-231 | An orientation other than 90, 180 or 270 throws before any change. Otherwise the kernel is set, SWITCH_RECORDING becomes RECORDING and the repeating capture starts; direction, flash and preview are kept |
| Session.CaptureStartedStep | xuggler-android-extensions/src/main/java/com/xuggle/xuggler/record/RecordingSessionManager.kt:235-244 | The recorder is started exactly by a record session's capture start in PREPARED, which alone enters RECORDING; no other field changes |
| Session.CaptureSequenceEndedStep | xuggler-android-extensions/src/main/java/com/xuggle/xuggler/record/RecordingSessionManager.kt:246-273 | RECORDING stops the recorder, goes to IDLE and restarts the preview; SWITCH_RECORDING closes the session; other states do nothing |
| Session.CaptureSessionClosedStep | xuggler-android-extensions/src/main/java/com/xuggle/xuggler/record/RecordingSessionManager.kt:209-214 | A closed record session closes the device exactly in SWITCH_RECORDING and changes no field |
| Session.CloseStep | xuggler-android-extensions/src/main/java/com/xuggle/xuggler/record/RecordingSessionManager.kt:114-118 | Stops the recorder before closing the camera, forgets the preview surface, and keeps every other field |
| Session.EnteringCapture | xuggler-android-extensions/src/main/java/com/xuggle/xuggler/record/RecordingSessionManager.kt:241-243 | The only step into RECORDING or SWITCH_RECORDING is a record session's capture start while PREPARED, and it starts the recorder |
| Session.CaptureNeedsRecorderStart | xuggler-android-extensions/src/main/java/com/xuggle/xuggler/record/RecordingSessionManager.kt:380-384 | Every run that enters recording contains a record session's capture start and starts the recorder |
| Session.PreparingWaitsForOutput | xuggler-android-extensions/src/main/java/com/xuggle/xuggler/record/RecordingSessionManager.kt:370-394 | Once PREPARING, no event but a successful output open leaves it, so a failed open leaves the manager in PREPARING for good |
| Session.DirectionOnlySwitchedByUser | xuggler-android-extensions/src/main/java/com/xuggle/xuggler/record/RecordingSessionManager.kt:337-354 | No run without switchCamera changes the camera direction |
| Session.RecordStarts | xuggler-android-extensions/src/main/java/com/xuggle/xuggler/record/RecordingSessionManager.kt:370-384 | record, a successful open, a valid configuration and the first capture start take IDLE to RECORDING, with the recorder started, and the effects in the source's order |
| Session.RecordStops | xuggler-android-extensions/src/main/java/com/xuggle/xuggler/record/RecordingSessionManager.kt:385-397 | record in RECORDING and the end of the capture sequence return to IDLE, stopping the recorder and restarting the preview |
| Session.SwitchSessionResumes | xuggler-android-extensions/src/main/java/com/xuggle/xuggler/record/RecordingSessionManager.kt:75-108 | In SWITCH_RECORDING, the device closing, reopening and the new session's configuration return to RECORDING |
| Session.SwitchRecordingClosesCamera | xuggler-android-extensions/src/main/java/com/xuggle/xuggler/record/RecordingSessionManager.kt:209-214 | In SWITCH_RECORDING, the old session's sequence ending closes the session, and that closes the device |
| Session.SwitchRecordingResumes | xuggler-android-extensions/src/main/java/com/xuggle/xuggler/record/RecordingSessionManager.kt:205-273 | The whole tail of a switch while recording returns to RECORDING with the effects in order |
| Session.SwitchWhileRecording | xuggler-android-extensions/src/main/java/com/xuggle/xuggler/record/RecordingSessionManager.kt:337-354 | Switching while recording ends in RECORDING facing the other way, with the recorder neither stopped nor restarted |
| Session.SwitchReopensCamera | xuggler-android-extensions/src/main/java/com/xuggle/xuggler/record/RecordingSessionManager.kt:99-108 | In SWITCH, the device closing returns to IDLE and reopens it, and opening restarts the preview |
| Session.SwitchWhileIdle | xuggler-android-extensions/src/main/java/com/xuggle/xuggler/record/RecordingSessionManager.kt:337-354 | Switching while idle ends in IDLE facing the other way, with the preview restarted |
| Session.SessionManager.constructor | xuggler-android-extensions/src/main/java/com/xuggle/xuggler/record/RecordingSessionManager.kt:27-49 | A new manager is IDLE, facing front, flash off, no preview surface and no kernel |
| Session.SessionManager.Record | xuggler-android-extensions/src/main/java/com/xuggle/xuggler/record/RecordingSessionManager.kt:370-399 | Fields and effects are those RecordStep gives |
| Session.SessionManager.SwitchCamera | xuggler-android-extensions/src/main/java/com/xuggle/xuggler/record/RecordingSessionManager.kt:337-354 | Fields and effects are those SwitchCameraStep gives |
| Session.SessionManager.SwitchFlash | xuggler-android-extensions/src/main/java/com/xuggle/xuggler/record/RecordingSessionManager.kt:362-365 | Fields and effects are those SwitchFlashStep gives |
| Session.SessionManager.EnablePreview | xuggler-android-extensions/src/main/java/com/xuggle/xuggler/record/RecordingSessionManager.kt:289-292 | Fields and effects are those EnablePreviewStep gives |
| Session.SessionManager.OnOutputOpened | xuggler-android-extensions/src/main/java/com/xuggle/xuggler/record/RecordingSessionManager.kt:374-392 | Fields and effects are those OutputOpenedStep gives |
| Session.SessionManager.OnCameraOpened | xuggler-android-extensions/src/main/java/com/xuggle/xuggler/record/RecordingSessionManager.kt:75-89 | Fields and effects are those CameraOpenedStep gives |
| Session.SessionManager.OnCameraClosed | xuggler-android-extensions/src/main/java/com/xuggle/xuggler/record/RecordingSessionManager.kt:99-108 | Fields and effects are those CameraClosedStep gives |
| Session.SessionManager.OnCameraFailed | xuggler-android-extensions/src/main/java/com/xuggle/xuggler/record/RecordingSessionManager.kt:91-97 | Fields and effects are those CameraFailedStep gives |
| Session.SessionManager.OnPreviewSequenceEnded | xuggler-android-extensions/src/main/java/com/xuggle/xuggler/record/RecordingSessionManager.kt:149-163 | Fields and effects are those PreviewSequenceEndedStep gives |
| Session.SessionManager.OnCaptureConfigured | xuggler-android-extensions/src/main/java/com/xuggle/xuggler/record/RecordingSessionManager.kt:216-231 | Fields and effects are those CaptureConfiguredStep gives |
| Session.SessionManager.OnCaptureStarted | xuggler-android-extensions/src/main/java/com/xuggle/xuggler/record/RecordingSessionManager.kt:235-244 | Fields and effects are those CaptureStartedStep gives |
| Session.SessionManager.OnCaptureSequenceEnded | xuggler-android-extensions/src/main/java/com/xuggle/xuggler/record/RecordingSessionManager.kt:246-273 | Fields and effects are those CaptureSequenceEndedStep gives |
| Session.SessionManager.OnCaptureSessionClosed | xuggler-android-extensions/src/main/java/com/xuggle/xuggler/record/RecordingSessionManager.kt:209-214 | Fields and effects are those CaptureSessionClosedStep gives |
| Session.SessionManager.Close | xuggler-android-extensions/src/main/java/com/xuggle/xuggler/record/RecordingSessionManager.kt:114-118 | Fields and effects are those CloseStep gives |

## Left out

- Threads and executors are not modelled: the recorder and container executors, `AtomicBoolean` and `@Volatile`, `EXECUTOR.take`, `CEXECUTOR.poll` with its 200 ms wait, and the interrupt in `cancelConnection` (xuggler-android-extensions/src/main/java/com/xuggle/xuggler/record/MediaRecorder.kt:86-104, 311-327). The model is one sequential object. Interruption is an input to `WriterShutdown`.
- The capture loop (MediaRecorder.kt:291-294) and the writer's `while` (MediaRecorder.kt:227) are not modelled as loops, because each runs until another thread clears a flag. Their bodies are modelled: `ProcessVideo`, `ProcessAudio` and `WriterIteration`.
- The Xuggler library calls are outside the model: encoders, container, packets' payloads, `setExtraData`, stream set-up and `container.close`. Their results are inputs: `Encoded`, status codes, open flags. The ignored result of `writePacket` is ignored in the model too.
- The header-write failure throws a `RuntimeException` out of the container task. In the model it is `ok == false` from `WriterIteration`.
- The worker's catch-all for throwables (MediaRecorder.kt:305-307) is not modelled. `FinishCapture` models the path without failure.
- Platform I/O is not modelled: `AudioRecord`, `Surface`, `surface.release`, `startAudioRecording`, `release`, `getInputSurface`, and `getOutputMediaFile`. The generated media-store location is a parameter of `OpenOutput`.
- `setOutput(OutputStream)` (MediaRecorder.kt:132-134) is not modelled: it depends on `XugglerIO.map`, from the Xuggler library, which is not part of this model.
- The value "xugglerio" of `XugglerIO.DEFAULT_PROTOCOL` belongs to the Xuggler library, which is not part of this model.
- Kotlin `Long` overflow of pts, dts and the sample-clock product is not modelled; integers are unbounded. All operands of the clock's division are positive, so Kotlin's truncating division agrees with Dafny's.
- The companion object's `PACKET_QUEUE` is shared by all recorder instances. It is modelled as one recorder's field.
- `startUTCPts` is only ever 0: its update is commented out at MediaRecorder.kt:427-429. It is a constant field, 0 from construction on.
- Encode-loop termination is not proved about the encoder. `Drains`, `DrainEnds` and `FlushEnds` are preconditions saying that the encoder consumes its samples and that a flush ends, as the source relies on.
- Recording.Recorder.Valid: the class invariant keeps only the packet count and the header and sink rules. That no packet is duplicated or lost is proved about the functions the methods are proved equal to (`AudioEncodeLoopConserves`, `VideoEncodeStepConserves`, `FlushConserves`, `WriteHeadConserves`, `ShutdownConserves`), not restated on the class.
- Recording.Recorder.FinishCapture composes the corrected flush, so it keeps all 2000 packets. The worker's tail as written (MediaRecorder.kt:300-301) loses two packets per recording, one per flush, as Encoding.FlushAsWrittenLosesPacket shows for each flush. FinishCapture also does not state the queue contents after the drain and the flushes; the individual steps state those.
- The Camera2 and RenderScript details are not modelled:
  - capture requests and their flash setting;
  - the flash-availability map;
  - the lookup of the sensor orientation by camera id, which is an input here;
  - the camera-id search and its `null` guard;
  - YUV-to-RGB conversion and pixel values;
  - `outputAllocation.surface = mr.getInputSurface()`;
  - `runOnUiThread`;
  - `onConfigureFailed`;
  - the overridable hooks `onOpened`, `onPreviewSessionConfigured` and `onCaptureSessionConfigured`.
- The kernels are modelled by the cell each pixel is written to.
- Session.SwitchCameraStep: the `IllegalStateException` for a lens direction other than front or back cannot arise, because the model's direction has exactly those two values.
- Session: which capture session a callback comes from is not tracked, and effects stand for calls on a camera that is not modelled. Nothing is claimed about the order in which the platform delivers callbacks.

## Findings

| source | as written | input that shows it | evidently intended | confidence | as-written member | corrected member |
|---|---|---|---|---|---|---|
| xuggler-android-extensions/src/main/java/com/xuggle/xuggler/record/MediaRecorder.kt:455-473 | `flushEncoder` queues complete packets and recurses, but offers the final incomplete packet to neither queue | Any flush from a full pool whose encoder reports an incomplete packet: pool and ready queue then hold 1999 packets, so each recording loses two (audio and video) | Return the incomplete packet to `PACKET_QUEUE`, as `processAudio` and `processVideo` do | not executed | Encoding.FlushAsWrittenLosesPacket | Encoding.FlushConserves |
| xuggler-android-extensions/src/main/java/com/xuggle/xuggler/record/MediaRecorder.kt:178-179 | The container opens `outputUrl.toString()` | `openOutput` with no URI set: the container opens the text "null", while the generated location is returned to the caller | Open the location that is returned (`absolutePath`, line 148) | not executed | Output.UnsetOutputOpensNullText | Output.OpenTargetFor |
| xuggler-android-extensions/src/main/rs/rotate.rs:14-15 | `rotate180` writes pixel (x, y) to ((width - 1) - x, (height - 1) - y) in the preview's output allocation, which is height by width | Any non-square frame, e.g. width 2 and height 1: pixel (0, 0) goes to (1, 0), outside the 1 by 2 output | For a 180-degree sensor, an output in the input's own width-by-height shape, onto which rotate180 is a bijection | not executed | Rotate.Rotate180EscapesOutputWhenNotSquare | Rotate.Rotate180Bijective |
