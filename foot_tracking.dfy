/**
 * The session state of the foot-tracking script: its module-level globals as
 * the fields of one `TrackingSession`, the host messages it sends as an
 * append-only log, and the two self-rescheduling animation-frame loops
 * (frame preview and template detection) over an explicit scheduler.
 *
 * Each `await` in the script is a point where other work may run; the
 * synchronous stretches between them are the entry-point methods here
 * (`SetupCamera` and `ListCameras` each run as one step), so any order of
 * entry-point calls is an interleaving the browser could produce.
 */
module FootTracking {
  import opened Wrappers
  import opened Cameras
  import opened TemplateCapture
  import opened Matching
  import opened AnimationFrames

  /** A message sent to the host through `SendMessage`. */
  datatype Event =
    | CameraList(options: seq<CameraOption>)   // 'OnReceiveCameraList'
    | CameraReady                              // 'OnCameraReady'
    | VideoFrame                               // 'OnReceiveVideoFrame'; the JPEG payload is not modelled
    | FootPosition(position: Position)         // 'OnReceiveFootPosition'

  /** What the video element reports when a step runs. */
  datatype VideoState = VideoState(width: nat, height: nat, readyState: nat)

  /** OpenCV's results for one detect iteration: reduced frame size, best location and score. */
  datatype MatchReport = MatchReport(reduced: Dims, maxLoc: Point, maxVal: real)

  /** `HAVE_CURRENT_DATA`, the least ready state at which a frame can be drawn. */
  const HaveCurrentData: nat := 2

  predicate FrameReady(video: VideoState) {
    video.readyState >= HaveCurrentData
  }

  /** Number of 'OnCameraReady' messages among `events`. */
  function ReadyCount(events: seq<Event>): (n: nat)
    ensures n <= |events|
  {
    if events == [] then 0
    else (if events[0].CameraReady? then 1 else 0) + ReadyCount(events[1..])
  }

  lemma {:induction false} ReadyCountAppend(a: seq<Event>, b: seq<Event>)
    ensures ReadyCount(a + b) == ReadyCount(a) + ReadyCount(b)
  {
    if a == [] {
      assert a + b == b;
    } else {
      assert (a + b)[0] == a[0];
      assert (a + b)[1..] == a[1..] + b;
      ReadyCountAppend(a[1..], b);
    }
  }

  /** The handle a loop variable holds, as a set: empty for null. */
  function Handles(id: Option<Handle>): set<Handle> {
    if id.Some? then {id.value} else {}
  }

  /**
   * The messages one preview iteration sends: nothing while the video has no
   * current frame or no host is registered, else the frame, followed by the
   * ready message when it is still due.
   */
  function PreviewEvents(hostRegistered: bool, video: VideoState, readyDue: bool): seq<Event> {
    if FrameReady(video) && hostRegistered then [VideoFrame] + (if readyDue then [CameraReady] else []) else []
  }

  /** The messages a detect iteration sends for its (possibly absent) detection. */
  function FootEvents(hostRegistered: bool, detection: Option<Position>): seq<Event> {
    if hostRegistered && detection.Some? then [FootPosition(detection.value)] else []
  }

  /** The queue `after` is `before` without `fired`, plus a handle `id` newer than any of `before`'s, for `cb`. */
  predicate Rescheduled(before: Scheduler, fired: set<Handle>, cb: Callback, after: Scheduler, id: Option<Handle>) {
    && id.Some? && before.next <= id.value < after.next
    && after.pending == (before.pending - fired)[id.value := cb]
  }

  /** The score-surface buffer (`matchBuffer`); only its size is modelled. */
  class ScoreSurface {
    var rows: int
    var cols: int

    /** `new cv.Mat()`: an empty matrix. */
    constructor ()
      ensures rows == 0 && cols == 0
    {
      rows, cols := 0, 0;
    }
  }

  function SurfaceSize(buffer: ScoreSurface?): Option<(int, int)>
    reads buffer
  {
    if buffer == null then None else Some((buffer.rows, buffer.cols))
  }

  class TrackingSession {
    var selectedDeviceId: Option<string>
    /** Whether a host instance has been registered (`unityInstance` non-null). */
    var unityRegistered: bool
    /** Whether the hidden video element exists. */
    var hasVideo: bool
    /** Whether the hidden canvas and its 2D context exist. */
    var hasCanvas: bool
    var canvasWidth: nat
    var canvasHeight: nat
    var firstFrameSent: bool
    var frameLoopId: Option<Handle>
    var detectLoopId: Option<Handle>
    /** The captured full-resolution patch, as its crop rectangle. */
    var template: Option<Rect>
    /** The reduced template, as its size. */
    var resizedTemplate: Option<Dims>
    var matchBuffer: ScoreSurface?
    /** The browser's animation-frame queue. */
    var frames: Scheduler
    /** Every message sent to the host, oldest first. */
    var log: seq<Event>
    /** Length of `log` at the most recent `StartFootDetection`. */
    ghost var startMark: nat

    ghost predicate Valid()
      reads this
    {
      && WellFormed(frames)
      && startMark <= |log|
      && ReadyCount(log[startMark..]) == (if firstFrameSent then 1 else 0)
      && (hasCanvas ==> hasVideo)
      && (forall h :: h in frames.pending && frames.pending[h] == SendFrameCallback ==> hasCanvas)
      && (template.Some? <==> resizedTemplate.Some?)
      && (template.Some? ==> template.value.width == TemplateSize && template.value.height == TemplateSize)
    }

    /** Every pending detect callback is the one `detectLoopId` names. */
    ghost predicate SingleDetectChain()
      reads this
    {
      forall h :: h in frames.pending && frames.pending[h] == DetectCallback ==> detectLoopId == Some(h)
    }

    ghost predicate NoDetectPending()
      reads this
    {
      forall h :: h in frames.pending ==> frames.pending[h] != DetectCallback
    }

    /**
     * A detect iteration that reached template matching: the surface has the
     * required size, is the old buffer exactly when that already had it, and
     * the log grew by the position message if the score passed the threshold.
     */
    twostate predicate Scored(templ: Dims, report: MatchReport)
      reads this, matchBuffer
    {
      var required := SurfaceDims(report.reduced, templ);
      && matchBuffer != null && matchBuffer.rows == required.0 && matchBuffer.cols == required.1
      && (if Reusable(old(SurfaceSize(matchBuffer)), report.reduced, templ)
          then matchBuffer == old(matchBuffer) else fresh(matchBuffer))
      && canvasWidth > 0 && canvasHeight > 0
      && log == old(log) + FootEvents(unityRegistered,
                  Detection(report.maxVal, report.maxLoc, templ, canvasWidth, canvasHeight))
    }

    /** Whether a detect iteration can read the canvas: a context exists and the canvas is not empty. */
    predicate Drawable()
      reads this
    {
      hasCanvas && canvasWidth > 0 && canvasHeight > 0
    }

    /** The script's state when it is loaded. */
    constructor ()
      ensures Valid() && SingleDetectChain()
      ensures selectedDeviceId == None && !unityRegistered && !hasVideo && !hasCanvas
      ensures !firstFrameSent && frameLoopId == None && detectLoopId == None
      ensures template == None && resizedTemplate == None && matchBuffer == null
      ensures frames == Idle && log == []
    {
      selectedDeviceId, unityRegistered, hasVideo, hasCanvas := None, false, false, false;
      canvasWidth, canvasHeight, firstFrameSent := 0, 0, false;
      frameLoopId, detectLoopId := None, None;
      template, resizedTemplate, matchBuffer := None, None, null;
      frames, log := Idle, [];
      startMark := 0;
    }

    /** `SendMessage`: append one message to the log. */
    method Emit(e: Event)
      requires startMark <= |log|
      modifies this`log
      ensures log == old(log) + [e]
      ensures ReadyCount(log[startMark..]) == ReadyCount(old(log)[startMark..]) + (if e.CameraReady? then 1 else 0)
    {
      assert (log + [e])[startMark..] == log[startMark..] + [e];
      ReadyCountAppend(log[startMark..], [e]);
      assert ReadyCount([e]) == (if e.CameraReady? then 1 else 0) by {
        assert [e][1..] == [];
      }
      log := log + [e];
    }

    /** `requestAnimationFrame(cb)`. */
    method Schedule(cb: Callback) returns (h: Handle)
      requires WellFormed(frames)
      modifies this`frames
      ensures WellFormed(frames)
      ensures h !in old(frames.pending) && frames.pending == old(frames.pending)[h := cb]
      ensures h == old(frames.next) && frames.next == h + 1
    {
      var r := Request(frames, cb);
      frames, h := r.0, r.1;
    }

    /** `frameLoopId = requestAnimationFrame(sendFrame)`. */
    method RescheduleFrameLoop()
      requires Valid() && hasCanvas
      modifies this`frames, this`frameLoopId
      ensures Valid()
      ensures Rescheduled(old(frames), {}, SendFrameCallback, frames, frameLoopId)
      ensures old(SingleDetectChain()) ==> SingleDetectChain()
    {
      var h := Schedule(SendFrameCallback);
      frameLoopId := Some(h);
    }

    /** `detectLoopId = requestAnimationFrame(detect)`. */
    method RescheduleDetectLoop()
      requires Valid()
      modifies this`frames, this`detectLoopId
      ensures Valid()
      ensures Rescheduled(old(frames), {}, DetectCallback, frames, detectLoopId)
      ensures old(NoDetectPending()) ==> SingleDetectChain()
    {
      var h := Schedule(DetectCallback);
      detectLoopId := Some(h);
    }

    /** Send the due 'OnCameraReady' and mark it sent. */
    method SendCameraReady()
      requires Valid() && !firstFrameSent
      modifies this`firstFrameSent, this`log
      ensures Valid() && firstFrameSent
      ensures log == old(log) + [CameraReady]
    {
      Emit(CameraReady);
      firstFrameSent := true;
    }

    /** Send the frame and, if still due, the ready message to a registered host. */
    method SendFrameMessages()
      requires Valid()
      modifies this`firstFrameSent, this`log
      ensures Valid()
      ensures firstFrameSent == (old(firstFrameSent) || unityRegistered)
      ensures log == old(log) + (if unityRegistered then [VideoFrame] + (if old(firstFrameSent) then [] else [CameraReady]) else [])
    {
      if unityRegistered {
        Emit(VideoFrame);
        if !firstFrameSent {
          SendCameraReady();
        }
      }
    }

    /**
     * `RegisterUnityInstance`: remember the host (`hasInstance` is false when
     * the argument is null, which clears it), then run `listCameras` on the
     * device list the browser reports (None when the media calls fail).
     */
    method RegisterUnityInstance(hasInstance: bool, devices: Option<seq<MediaDevice>>)
      requires Valid()
      modifies this`unityRegistered, this`log
      ensures Valid() && unityRegistered == hasInstance
      ensures log == old(log) + (if devices.Some? && hasInstance then [CameraList(CameraOptions(devices.value))] else [])
    {
      unityRegistered := hasInstance;
      ListCameras(devices);
    }

    /**
     * `listCameras`: when the devices could be listed and a host is
     * registered, send the shaped option list; a failure is only logged to
     * the console.
     */
    method ListCameras(devices: Option<seq<MediaDevice>>)
      requires Valid()
      modifies this`log
      ensures Valid()
      ensures log == old(log) + (if devices.Some? && unityRegistered then [CameraList(CameraOptions(devices.value))] else [])
    {
      if devices.Some? && unityRegistered {
        Emit(CameraList(CameraOptions(devices.value)));
      }
    }

    /** `cancelLoops`: cancel whichever loop handles are set, then clear both. */
    method CancelLoops()
      requires Valid()
      modifies this`frames, this`frameLoopId, this`detectLoopId
      ensures Valid()
      ensures frames == RemoveAll(old(frames), Handles(old(frameLoopId)) + Handles(old(detectLoopId)))
      ensures frameLoopId == None && detectLoopId == None
      ensures old(SingleDetectChain()) ==> NoDetectPending()
    {
      ghost var before := frames;
      if frameLoopId.Some? {
        frames := Remove(frames, frameLoopId.value);
      }
      if detectLoopId.Some? {
        frames := Remove(frames, detectLoopId.value);
      }
      assert frames.pending == before.pending - (Handles(frameLoopId) + Handles(detectLoopId));
      frameLoopId := None;
      detectLoopId := None;
    }

    /**
     * The synchronous part of `StartFootDetection`: select the device, reset
     * the ready flag and cancel both loops. Opening the camera is the
     * continuation `SetupCamera`, after the runtime is loaded.
     */
    method StartFootDetection(deviceId: string)
      requires Valid()
      modifies this`selectedDeviceId, this`firstFrameSent, this`startMark
      modifies this`frames, this`frameLoopId, this`detectLoopId
      ensures Valid()
      ensures selectedDeviceId == Some(deviceId) && !firstFrameSent && startMark == |log|
      ensures frames == RemoveAll(old(frames), Handles(old(frameLoopId)) + Handles(old(detectLoopId)))
      ensures frameLoopId == None && detectLoopId == None
      ensures old(SingleDetectChain()) ==> NoDetectPending()
    {
      selectedDeviceId := Some(deviceId);
      firstFrameSent := false;
      startMark := |log|;
      CancelLoops();
    }

    /**
     * `setupCamera` once its awaits have resolved. `granted` says whether the
     * stream for the device was granted; `video` is what the element reports
     * once its metadata is loaded. The ready message is sent here, before any
     * frame; with no host registered that send throws and the frame loop is
     * never started. `completed` says whether the function ran to its end.
     */
    method SetupCamera(granted: bool, video: VideoState) returns (completed: bool)
      requires Valid()
      modifies this`hasVideo, this`hasCanvas, this`canvasWidth, this`canvasHeight
      modifies this`firstFrameSent, this`log, this`frames, this`frameLoopId
      ensures Valid() && hasVideo
      ensures hasCanvas == (old(hasCanvas) || granted)
      ensures completed == (granted && (old(firstFrameSent) || unityRegistered))
      ensures granted ==> canvasWidth == video.width && canvasHeight == video.height
      ensures !granted ==> canvasWidth == old(canvasWidth) && canvasHeight == old(canvasHeight)
      ensures firstFrameSent == (old(firstFrameSent) || (granted && unityRegistered))
      ensures !completed ==> log == old(log)
      ensures completed && old(firstFrameSent) ==> log == old(log) + PreviewEvents(unityRegistered, video, false)
      ensures completed && !old(firstFrameSent) ==> log == old(log) + [CameraReady] + PreviewEvents(unityRegistered, video, false)
      ensures completed ==> Rescheduled(old(frames), {}, SendFrameCallback, frames, frameLoopId)
      ensures !completed ==> frames == old(frames) && frameLoopId == old(frameLoopId)
      ensures old(SingleDetectChain()) ==> SingleDetectChain()
    {
      hasVideo := true;
      if !granted {
        return false;
      }
      hasCanvas := true;
      canvasWidth, canvasHeight := video.width, video.height;
      completed := AnnounceAndStartPreview(video);
    }

    /**
     * The end of `setupCamera`, with the canvas sized to the video: send the
     * ready message if due (this throws when no host is registered), then
     * start the preview loop.
     */
    method AnnounceAndStartPreview(video: VideoState) returns (completed: bool)
      requires Valid() && hasCanvas && canvasWidth == video.width && canvasHeight == video.height
      modifies this`canvasWidth, this`canvasHeight, this`firstFrameSent, this`log, this`frames, this`frameLoopId
      ensures Valid()
      ensures completed == (old(firstFrameSent) || unityRegistered)
      ensures canvasWidth == video.width && canvasHeight == video.height
      ensures firstFrameSent == (old(firstFrameSent) || unityRegistered)
      ensures !completed ==> log == old(log)
      ensures completed && old(firstFrameSent) ==> log == old(log) + PreviewEvents(unityRegistered, video, false)
      ensures completed && !old(firstFrameSent) ==> log == old(log) + [CameraReady] + PreviewEvents(unityRegistered, video, false)
      ensures completed ==> Rescheduled(old(frames), {}, SendFrameCallback, frames, frameLoopId)
      ensures !completed ==> frames == old(frames) && frameLoopId == old(frameLoopId)
      ensures old(SingleDetectChain()) ==> SingleDetectChain()
    {
      if !firstFrameSent {
        if !unityRegistered {
          return false;
        }
        SendCameraReady();
      }
      SendFrame(video);  // startFrameLoop runs the first iteration at once
      completed := true;
    }

    /**
     * One `sendFrame` iteration: while the video has no current frame only
     * reschedule; otherwise resize the canvas to the video, send the frame
     * (and the ready message if it is still due) to a registered host, and
     * reschedule.
     */
    method SendFrame(video: VideoState)
      requires Valid() && hasCanvas
      modifies this`canvasWidth, this`canvasHeight, this`firstFrameSent, this`log, this`frames, this`frameLoopId
      ensures Valid()
      ensures Rescheduled(old(frames), {}, SendFrameCallback, frames, frameLoopId)
      ensures canvasWidth == (if FrameReady(video) then video.width else old(canvasWidth))
      ensures canvasHeight == (if FrameReady(video) then video.height else old(canvasHeight))
      ensures firstFrameSent == (old(firstFrameSent) || (FrameReady(video) && unityRegistered))
      ensures log == old(log) + PreviewEvents(unityRegistered, video, !old(firstFrameSent))
      ensures old(SingleDetectChain()) ==> SingleDetectChain()
    {
      if !hasVideo || !FrameReady(video) {
        RescheduleFrameLoop();
        return;
      }
      canvasWidth, canvasHeight := video.width, video.height;
      SendFrameMessages();
      RescheduleFrameLoop();
    }

    /** The browser fires the pending preview callback `h`. */
    method RunFrameCallback(h: Handle, video: VideoState)
      requires Valid() && h in frames.pending && frames.pending[h] == SendFrameCallback
      modifies this`canvasWidth, this`canvasHeight, this`firstFrameSent, this`log, this`frames, this`frameLoopId
      ensures Valid()
      ensures Rescheduled(old(frames), {h}, SendFrameCallback, frames, frameLoopId)
      ensures canvasWidth == (if FrameReady(video) then video.width else old(canvasWidth))
      ensures canvasHeight == (if FrameReady(video) then video.height else old(canvasHeight))
      ensures firstFrameSent == (old(firstFrameSent) || (FrameReady(video) && unityRegistered))
      ensures log == old(log) + PreviewEvents(unityRegistered, video, !old(firstFrameSent))
      ensures old(SingleDetectChain()) ==> SingleDetectChain()
    {
      frames := Remove(frames, h);
      SendFrame(video);
    }

    /**
     * The matching half of a detect iteration: replace the score surface unless
     * it already has the required size, let template matching fill it, and send
     * the position when the score passes the threshold.
     */
    method MatchFrame(templ: Dims, report: MatchReport)
      requires Valid() && resizedTemplate == Some(templ) && canvasWidth > 0 && canvasHeight > 0
      modifies this`matchBuffer, this`log, matchBuffer
      ensures Valid()
      ensures Scored(templ, report)
    {
      var required := SurfaceDims(report.reduced, templ);
      if matchBuffer == null || matchBuffer.rows != required.0 || matchBuffer.cols != required.1 {
        matchBuffer := new ScoreSurface();
      }
      // matchTemplate writes a surface of the required size
      matchBuffer.rows, matchBuffer.cols := required.0, required.1;
      var detection := Detection(report.maxVal, report.maxLoc, templ, canvasWidth, canvasHeight);
      if detection.Some? && unityRegistered {
        Emit(FootPosition(detection.value));
      }
    }

    /**
     * One `detect` iteration. Without a reduced template it only reschedules.
     * With no canvas context (`drawImage` on null) or a zero-size canvas
     * (`getImageData` rejects an empty rectangle) the iteration throws and the
     * chain ends. Otherwise it reuses or replaces the score surface, sends the
     * position when the score passes the threshold, and reschedules.
     */
    method Detect(report: MatchReport) returns (rescheduled: bool)
      requires Valid()
      modifies this`matchBuffer, this`log, this`frames, this`detectLoopId, matchBuffer
      ensures Valid()
      ensures rescheduled == (resizedTemplate.None? || Drawable())
      ensures rescheduled ==> Rescheduled(old(frames), {}, DetectCallback, frames, detectLoopId)
      ensures !rescheduled ==> frames == old(frames) && detectLoopId == old(detectLoopId)
      ensures resizedTemplate.None? || !rescheduled ==> matchBuffer == old(matchBuffer) && log == old(log)
      ensures resizedTemplate.None? || !rescheduled ==> SurfaceSize(matchBuffer) == old(SurfaceSize(matchBuffer))
      ensures resizedTemplate.Some? && rescheduled ==> Scored(resizedTemplate.value, report)
      ensures |log| > |old(log)| <==>
        resizedTemplate.Some? && rescheduled && unityRegistered && report.maxVal > MinMatchScore
      ensures old(NoDetectPending()) ==> SingleDetectChain()
    {
      if resizedTemplate.None? {
        RescheduleDetectLoop();
        return true;
      }
      if !Drawable() {
        return false;
      }
      MatchFrame(resizedTemplate.value, report);
      RescheduleDetectLoop();
      rescheduled := true;
    }

    /** The browser fires the pending detect callback `h`. */
    method RunDetectCallback(h: Handle, report: MatchReport) returns (rescheduled: bool)
      requires Valid() && h in frames.pending && frames.pending[h] == DetectCallback
      modifies this`matchBuffer, this`log, this`frames, this`detectLoopId, matchBuffer
      ensures Valid()
      ensures rescheduled == (resizedTemplate.None? || Drawable())
      ensures rescheduled ==> Rescheduled(old(frames), {h}, DetectCallback, frames, detectLoopId)
      ensures !rescheduled ==> frames == Remove(old(frames), h) && detectLoopId == old(detectLoopId)
      ensures resizedTemplate.None? || !rescheduled ==> matchBuffer == old(matchBuffer) && log == old(log)
      ensures resizedTemplate.None? || !rescheduled ==> SurfaceSize(matchBuffer) == old(SurfaceSize(matchBuffer))
      ensures resizedTemplate.Some? && rescheduled ==> Scored(resizedTemplate.value, report)
      ensures |log| > |old(log)| <==>
        resizedTemplate.Some? && rescheduled && unityRegistered && report.maxVal > MinMatchScore
      ensures old(SingleDetectChain()) ==> SingleDetectChain()
    {
      frames := Remove(frames, h);
      rescheduled := Detect(report);
    }

    /**
     * `CaptureFootTemplateFromUnity`: ignored without a video element or with
     * a zero-size video; otherwise replace the template by the centred patch
     * (and `reduced`, the size OpenCV's resize gives it) and start a detect
     * chain with an immediate first iteration. A chain started by an earlier
     * capture is left scheduled.
     */
    method Capture(video: VideoState, reduced: Dims, report: MatchReport) returns (captured: bool)
      requires Valid()
      modifies this`template, this`resizedTemplate, this`matchBuffer, this`log, this`frames, this`detectLoopId, matchBuffer
      ensures Valid()
      ensures captured == CapturePatch(hasVideo, video.width, video.height).Some?
      ensures !captured ==> template == old(template) && resizedTemplate == old(resizedTemplate)
      ensures !captured || !Drawable() ==>
        matchBuffer == old(matchBuffer) && log == old(log) && frames == old(frames) && detectLoopId == old(detectLoopId)
      ensures !captured || !Drawable() ==> SurfaceSize(matchBuffer) == old(SurfaceSize(matchBuffer))
      ensures captured ==> template == CapturePatch(hasVideo, video.width, video.height) && resizedTemplate == Some(reduced)
      ensures captured && Drawable() ==>
        Scored(reduced, report) && Rescheduled(old(frames), {}, DetectCallback, frames, detectLoopId)
      ensures old(NoDetectPending()) ==> SingleDetectChain()
    {
      var patch := CapturePatch(hasVideo, video.width, video.height);
      if patch.None? {
        return false;
      }
      template, resizedTemplate := patch, Some(reduced);
      var _ := Detect(report);  // startFootDetectionLoop runs the first iteration at once
      captured := true;
    }

    /** `if (detectLoopId) cancelAnimationFrame(detectLoopId)`, keeping the variable. */
    method CancelDetectLoop()
      requires Valid()
      modifies this`frames
      ensures Valid()
      ensures frames == RemoveAll(old(frames), Handles(detectLoopId))
      ensures old(SingleDetectChain()) ==> NoDetectPending()
    {
      if detectLoopId.Some? {
        frames := Remove(frames, detectLoopId.value);
      }
      assert frames == RemoveAll(old(frames), Handles(detectLoopId));
    }

    /**
     * Capture as `Capture` does, but first cancel the detect chain that
     * `detectLoopId` names, so that at most one chain is ever scheduled.
     */
    method CaptureCancellingPrevious(video: VideoState, reduced: Dims, report: MatchReport) returns (captured: bool)
      requires Valid()
      modifies this`template, this`resizedTemplate, this`matchBuffer, this`log, this`frames, this`detectLoopId, matchBuffer
      ensures Valid()
      ensures captured == CapturePatch(hasVideo, video.width, video.height).Some?
      ensures !captured ==> template == old(template) && resizedTemplate == old(resizedTemplate)
      ensures !captured ==> frames == old(frames)
      ensures !captured || !Drawable() ==> matchBuffer == old(matchBuffer) && log == old(log) && detectLoopId == old(detectLoopId)
      ensures !captured || !Drawable() ==> SurfaceSize(matchBuffer) == old(SurfaceSize(matchBuffer))
      ensures captured && !Drawable() ==> frames == RemoveAll(old(frames), Handles(old(detectLoopId)))
      ensures captured ==> template == CapturePatch(hasVideo, video.width, video.height) && resizedTemplate == Some(reduced)
      ensures captured && Drawable() ==>
        Scored(reduced, report) && Rescheduled(old(frames), Handles(old(detectLoopId)), DetectCallback, frames, detectLoopId)
      ensures old(SingleDetectChain()) ==> SingleDetectChain()
    {
      var patch := CapturePatch(hasVideo, video.width, video.height);
      if patch.None? {
        return false;
      }
      CancelDetectLoop();
      captured := Capture(video, reduced, report);
    }
  }

  /** A good match at the centre of a 640x480 frame, reduced to 320x240 against a 50x50 template. */
  const CentreHit: MatchReport := MatchReport(Dims(240, 320), Point(135, 95), 0.95)

  /** A 640x480 video that has current data. */
  const CameraVideo: VideoState := VideoState(640, 480, 4)

  /** Register a host and open the camera: the ready message is sent and the preview loop runs. */
  method OpenCamera() returns (session: TrackingSession)
    ensures fresh(session) && session.matchBuffer == null
    ensures session.Valid() && session.SingleDetectChain() && session.unityRegistered && session.Drawable()
    ensures session.canvasWidth == 640 && session.canvasHeight == 480 && session.resizedTemplate.None?
    ensures session.frameLoopId.Some? && session.frameLoopId.value in session.frames.pending
    ensures session.frames.pending[session.frameLoopId.value] == SendFrameCallback
    ensures session.log == [CameraReady, VideoFrame]
  {
    session := new TrackingSession();
    session.RegisterUnityInstance(true, None);
    var started := session.SetupCamera(true, CameraVideo);
  }

  /**
   * Register a host, open a 640x480 camera and capture twice. `firstChain` is
   * the handle the first capture's detect chain is waiting on. With a 320x240
   * reduced frame and a 50x50 reduced template the surface is 191x271, and
   * each capture's first iteration reports the frame's centre.
   */
  method OpenAndCaptureTwice() returns (session: TrackingSession, firstChain: Handle)
    ensures fresh(session) && (session.matchBuffer == null || fresh(session.matchBuffer))
    ensures session.Valid() && session.unityRegistered && session.Drawable() && session.resizedTemplate.Some?
    ensures firstChain in session.frames.pending && session.frames.pending[firstChain] == DetectCallback
    ensures session.detectLoopId != Some(firstChain) && session.frameLoopId != Some(firstChain)
    ensures session.matchBuffer != null && session.matchBuffer.rows == 191 && session.matchBuffer.cols == 271
    ensures session.log == [CameraReady, VideoFrame, FootPosition(Position(0.5, 0.5)), FootPosition(Position(0.5, 0.5))]
  {
    session := OpenCamera();
    assert Detection(0.95, Point(135, 95), Dims(50, 50), 640, 480) == Some(Position(0.5, 0.5));
    var first := session.Capture(CameraVideo, Dims(50, 50), CentreHit);
    firstChain := session.detectLoopId.value;
    assert session.frameLoopId.Some? && session.frames.pending[session.frameLoopId.value] == SendFrameCallback;
    var second := session.Capture(CameraVideo, Dims(50, 50), CentreHit);
  }

  /**
   * Two captures, then a restart: the first capture's chain is still
   * scheduled and, when it fires on a good match, reports a position after
   * the restart.
   */
  method RestartAfterTwoCaptures() returns (reportedAfterRestart: bool)
    ensures reportedAfterRestart
  {
    var session, firstChain := OpenAndCaptureTwice();
    session.StartFootDetection("camera-2");
    assert firstChain in session.frames.pending && session.frames.pending[firstChain] == DetectCallback;
    var before := |session.log|;
    var again := session.RunDetectCallback(firstChain, CentreHit);
    reportedAfterRestart := |session.log| > before;
  }

  /** The same script with the corrected capture: after the restart no detect callback is scheduled. */
  method RestartAfterTwoCorrectedCaptures() returns (detectStillScheduled: bool)
    ensures !detectStillScheduled
  {
    var session := OpenCamera();
    var first := session.CaptureCancellingPrevious(CameraVideo, Dims(50, 50), CentreHit);
    var second := session.CaptureCancellingPrevious(CameraVideo, Dims(50, 50), CentreHit);
    session.StartFootDetection("camera-2");
    detectStillScheduled := DetectCallback in session.frames.pending.Values;
  }
}
