# Foot tracking from a camera: a verified model

`OpenCVJS.js` is the browser side of a Unity WebGL game. The game moves an
on-screen "foot" marker by following a small image patch through the camera
feed. The script does four things:

- It lists the cameras for the game.
- It opens a chosen camera and streams preview frames to the game.
- On command, it captures a 100x100 template from the centre of the frame.
- On every animation frame, it matches the template against the current frame
  with OpenCV and sends the normalised match position when the score is high
  enough.

This project models the logic the script owns around its browser and OpenCV
calls, and proves what that logic guarantees:

- `Cameras`: the camera list. Devices are filtered to video inputs and shaped
  into `{label, deviceId}` options.
- `TemplateCapture`: the capture guard and the crop window.
- `Matching`: the score-surface size, the strict 0.8 threshold and the mapping
  of a match to `[0,1]` coordinates. OpenCV's results are inputs here.
- `AnimationFrames`: `requestAnimationFrame` / `cancelAnimationFrame`, modelled
  as a map from pending handles to callbacks plus a counter for fresh handles.
- `FootTracking`: the module globals as the fields of a `TrackingSession`
  class, the host messages as an append-only log, and the two self-rescheduling
  loops (preview and detect).

Each `await` in the script is a point where other work may run. An
entry-point method of `TrackingSession` is one synchronous stretch between
awaits, or one firing of a pending callback; `SetupCamera` and `ListCameras`
are each taken as one step (see "## Left out"). So any sequence of entry-point
calls is an interleaving the browser could produce. The helpers (`Emit`,
`Schedule`, `RescheduleFrameLoop`, `RescheduleDetectLoop`, `SendCameraReady`,
`SendFrameMessages`, `AnnounceAndStartPreview`, `SendFrame`, `MatchFrame`,
`Detect`, `CancelDetectLoop`) are pieces of those steps, not browser events. `Valid()` is established by the constructor and kept
by every entry point: `RegisterUnityInstance`, `ListCameras`,
`StartFootDetection`, `SetupCamera`, `RunFrameCallback`, `RunDetectCallback`,
`Capture` and `CaptureCancellingPrevious`. The internal helpers `Emit` and
`Schedule` may break it for their caller to restore. Beyond type and frame
facts, it says that the log holds at most one 'OnCameraReady' since the
last `StartFootDetection`, and exactly one when `firstFrameSent` is set.

Where the code departs from what its structure suggests, the model follows
the code:

- One would expect the ready message on the preview loop's first successful
  frame, where `sendFrame` has a send for it. The code sends it in `setupCamera` before the loop starts
  (OpenCVJS.js:91-94). The send inside `sendFrame` (OpenCVJS.js:145-148) then
  only fires for a preview chain that outlived a restart.
- A failed listing does not send an empty or partial list. The code sends
  nothing and logs to the console.
- A device with an empty label and no id is labelled `"Camera undefined"`,
  because the template literal prints an absent value as `undefined`.
- One would expect a restart to cancel both loops, so that no further events
  come from the old session. The code does not guarantee this (see Findings).
- `setupCamera` calls `unityInstance.SendMessage` without the null check used
  elsewhere. With no host registered it throws, and the preview loop never
  starts.

## Model

| member | source | states |
|---|---|---|
| `Cameras.IdPrefix` | OpenCVJS.js:36 | `deviceId?.substring(0, 4)` in a template literal: the first four characters of the id (all of a shorter id), or `undefined` when the id is absent |
| `Cameras.OptionFor` | OpenCVJS.js:35-38 | an option's label is the device label when that is non-empty, else `"Camera "` + the id prefix, so it is never empty; its id is the device id, or `""` when absent |
| `Cameras.CameraOptions` | OpenCVJS.js:34-38 | the list has exactly as many options as there are `videoinput` devices |
| `Cameras.OptionAtRank` | OpenCVJS.js:34-38 | every video input appears in the list as its own option, at the position given by the number of video inputs before it |
| `Cameras.RankStrictlyIncreasing` | OpenCVJS.js:34-35 | video inputs keep their discovery order in the list |
| `Cameras.NonVideoDropped` | OpenCVJS.js:34 | a device of any other kind takes no place in the list |
| `Cameras.CameraOptionsAppend` | OpenCVJS.js:34-38 | the shaping works element by element: the list for a concatenation is the concatenation of the lists |
| `TemplateCapture.CaptureWindow` | OpenCVJS.js:115-120 | the patch is always 100x100, with origin `floor(W/2) - 50`, `floor(H/2) - 50`, so it is centred on the integer centre; it lies wholly inside the frame exactly when W >= 100 and H >= 100 |
| `TemplateCapture.CapturePatch` | OpenCVJS.js:107 | no patch exactly when there is no video element or its width or height is 0; otherwise the centred window, even if that window reaches past the frame |
| `Matching.SurfaceDims` | OpenCVJS.js:173 | the required surface is `(Hf-Ht+1) x (Wf-Wt+1)`, one score per placement of the template; each side is positive exactly when the template fits along it |
| `Matching.Normalize` | OpenCVJS.js:185-191 | multiplying the result by the canvas size gives back the full-resolution centre of the match, `2*pt + resizedTemplate.cols` (likewise rows); both coordinates are non-negative |
| `Matching.Detection` | OpenCVJS.js:184-191 | a position exists if and only if the score is strictly above 0.8, and it is the normalised match centre |
| `Matching.ThresholdIsStrict` | OpenCVJS.js:184 | a score of exactly 0.8 yields no position |
| `Matching.NormalizedInUnitSquare` | OpenCVJS.js:185-191 | if the match is a real placement in the reduced frame, and the reduced frame is at most half the canvas plus the rounding slack, both coordinates lie in [0,1] |
| `AnimationFrames.Request` | OpenCVJS.js:134 | `requestAnimationFrame` returns a handle not already pending and adds exactly that handle for the callback |
| `AnimationFrames.Remove` | OpenCVJS.js:206-207 | `cancelAnimationFrame` (or a callback firing) removes that handle and leaves every other pending callback untouched |
| `AnimationFrames.RemoveAll` | OpenCVJS.js:205-209 | cancelling a set of handles leaves exactly the other pending callbacks |
| `AnimationFrames.CancelUndoesRequest` | OpenCVJS.js:205-207 | cancelling a handle just requested gives back the queue as it was |
| `AnimationFrames.RemoveAbsent` | OpenCVJS.js:206-207 | cancelling a handle that has already fired changes nothing |
| `FootTracking.TrackingSession.constructor` | OpenCVJS.js:1-14 | the initial state: nothing selected, no video or canvas, flag false, no loop handles, no template or buffer, an empty queue and log |
| `FootTracking.ScoreSurface.constructor` | OpenCVJS.js:175 | `new cv.Mat()`: a fresh, empty 0x0 surface |
| `FootTracking.TrackingSession.Emit` | OpenCVJS.js:144 | `SendMessage` appends exactly that message to the log; the ready count since the last restart grows by one exactly for 'OnCameraReady' |
| `FootTracking.TrackingSession.Schedule` | OpenCVJS.js:134 | `requestAnimationFrame` hands out the scheduler's next handle, which was not pending, adds exactly that entry and advances the counter |
| `FootTracking.TrackingSession.RescheduleFrameLoop` | OpenCVJS.js:151 | `frameLoopId` now holds a fresh handle under which exactly one preview callback was added; nothing else pending changes, and a single detect chain stays single |
| `FootTracking.TrackingSession.RescheduleDetectLoop` | OpenCVJS.js:199 | `detectLoopId` now holds a fresh handle under which exactly one detect callback was added; nothing else pending changes; if no detect callback was pending, there is now exactly the one named chain |
| `FootTracking.TrackingSession.SendCameraReady` | OpenCVJS.js:92-93 | with the flag clear, appends exactly one 'OnCameraReady' and sets the flag, keeping the at-most-one-ready invariant |
| `FootTracking.TrackingSession.SendFrameMessages` | OpenCVJS.js:143-149 | with a host, appends the frame and, if the flag was clear, 'OnCameraReady' after it; without a host appends nothing; the flag ends set exactly when it was set or a host exists |
| `FootTracking.TrackingSession.RegisterUnityInstance` | OpenCVJS.js:19-22 | the host is registered exactly when the instance is non-null; then the camera list is sent exactly when the devices could be listed and a host is registered |
| `FootTracking.TrackingSession.ListCameras` | OpenCVJS.js:30-45 | sends exactly one camera-list message, holding `CameraOptions` of the devices, when listing succeeded and a host is registered; otherwise nothing |
| `FootTracking.TrackingSession.CancelLoops` | OpenCVJS.js:205-210 | removes the handles the two loop variables name, clears both, and changes nothing else; if only one detect chain existed, no detect callback is left |
| `FootTracking.TrackingSession.StartFootDetection` | OpenCVJS.js:47-50 | sets the device, resets the ready flag, starts a new ready-count window and cancels both loops before the camera is reopened |
| `FootTracking.TrackingSession.SetupCamera` | OpenCVJS.js:58-97 | the video element always exists afterwards; a refused stream stops there; else the canvas takes the video size, the ready message is sent if due (throwing with no host), and the preview loop starts with one immediate iteration |
| `FootTracking.TrackingSession.AnnounceAndStartPreview` | OpenCVJS.js:91-95 | sends 'OnCameraReady' once if the flag is clear and a host exists; it does not complete with the flag clear and no host; otherwise it runs the first preview iteration |
| `FootTracking.TrackingSession.SendFrame` | OpenCVJS.js:132-152 | a video without current data (readyState < 2) only reschedules; otherwise the canvas takes the video size, the frame and any due ready message go to a registered host, and it reschedules |
| `FootTracking.TrackingSession.RunFrameCallback` | OpenCVJS.js:131-154 | firing a pending preview callback consumes its handle and performs one `sendFrame` iteration |
| `FootTracking.TrackingSession.MatchFrame` | OpenCVJS.js:173-196 | the surface afterwards has the required size; it is the same buffer object exactly when the old one already had that size, else a fresh one; a position message is sent exactly when `Detection` gives one and a host is registered |
| `FootTracking.TrackingSession.Detect` | OpenCVJS.js:157-200 | without a reduced template, only reschedules; with no context or an empty canvas the iteration throws and the chain ends; on both paths the buffer object, its size and the log are unchanged; otherwise it matches and reschedules; the log grows exactly when the score is above 0.8 and a host is registered |
| `FootTracking.TrackingSession.RunDetectCallback` | OpenCVJS.js:156-203 | firing a pending detect callback consumes its handle and performs one `detect` iteration; it keeps a single detect chain single |
| `FootTracking.TrackingSession.Capture` | OpenCVJS.js:106-129 | with no video or a zero-size video nothing changes, the buffer's size included; else the template becomes the centred 100x100 patch and the reduced size, and a new detect chain runs its first iteration; earlier chains stay scheduled |
| `FootTracking.TrackingSession.CancelDetectLoop` | OpenCVJS.js:207 | cancels the detect handle the variable names; with a single chain, no detect callback is left |
| `FootTracking.TrackingSession.CaptureCancellingPrevious` | OpenCVJS.js:106-129 | the corrected capture: the same guard and template replacement, but it cancels `detectLoopId` first, so a single detect chain stays single |
| `FootTracking.OpenCamera` | OpenCVJS.js:58-97 | with a host and a 640x480 camera, the first preview iteration leaves exactly one 'OnCameraReady' (followed by one frame) in the log |
| `FootTracking.OpenAndCaptureTwice` | OpenCVJS.js:106-129 | a 320x240 reduced frame and a 50x50 template give a 191x271 surface; each capture reports the frame centre (0.5, 0.5); the first chain is still waiting under a handle that neither loop variable holds |
| `FootTracking.RestartAfterTwoCaptures` | OpenCVJS.js:128 | after two captures and a restart, the first capture's chain still fires and sends a position |
| `FootTracking.RestartAfterTwoCorrectedCaptures` | OpenCVJS.js:205-210 | with the corrected capture, the same script leaves no detect callback scheduled after the restart |

## Findings

| source | as written | input that shows it | evidently intended | confidence | as-written member | corrected member |
|---|---|---|---|---|---|---|
| OpenCVJS.js:205-210 | every capture starts another self-rescheduling `detect` chain and overwrites `detectLoopId`; `cancelLoops` cancels only the handle that variable names | open a camera, capture twice, call `StartFootDetection`: the first capture's chain is still queued, and when it fires on a good match it sends 'OnReceiveFootPosition' after the restart (it keeps running until a later restart happens to cancel the handle it holds, which it takes over in `detectLoopId` each time it fires) | a restart stops all detection, and a new capture replaces the running chain rather than adding one | high; not executed | `FootTracking.RestartAfterTwoCaptures` | `FootTracking.TrackingSession.CaptureCancellingPrevious` |

`FootTracking.RestartAfterTwoCorrectedCaptures` runs the same script with the
corrected capture and proves that no detect callback is left after the
restart. The property behind it is `SingleDetectChain()`: every pending detect
callback is the one `detectLoopId` names. It holds after the constructor, and
every entry point except the as-written `Capture` preserves it.
`RegisterUnityInstance` and `ListCameras` keep it because they change only the
host flag and the log. `StartFootDetection`, `SetupCamera`, `RunFrameCallback`,
`RunDetectCallback` and `CaptureCancellingPrevious` state it in their
contracts. The
helpers `Detect` and `RescheduleDetectLoop` only promise it when no detect
callback was pending before, which is how the captures use them. `CancelLoops` then leaves no detect callback at all.

## Left out

- Media and device I/O are not modelled: `getUserMedia`, `enumerateDevices`,
  stopping the old tracks, and the `onloadedmetadata`/`play` promises. The
  device list, whether the stream was granted, and the video's size and
  readyState are parameters.
- DOM and canvas work is not modelled: creating elements, `drawImage`,
  `getImageData`, and `toDataURL` JPEG encoding. The preview message carries
  no image. Only the canvas size and the existence of the context are state.
- OpenCV internals are foreign code: `cvtColor`, `GaussianBlur`, `resize` and
  its output-size rounding, `matchTemplate`, `minMaxLoc`. The reduced sizes,
  best location and best score are inputs, so the [-1, 1] score range is not
  stated. `matchTemplate` is modelled only as giving the buffer the required
  size. What OpenCV does when the frame is smaller than the template is not
  modelled.
- `Mat.delete()` is resource hygiene with no observable logic.
- `waitForOpenCV` is not modelled. It is a timer-based poll of a foreign
  global, and `SetupCamera` stands for the code that runs after it resolves.
- `ListCameras` runs as one step, although `listCameras` awaits twice
  (OpenCVJS.js:32-33) before it sends. The orders in which other work runs
  between registration and the send are covered by
  `RegisterUnityInstance(hasInstance, None)` followed later by
  `ListCameras(Some(devices))`, because the send reads the host at send time.
- `SetupCamera` runs as one step. The await points inside `setupCamera`
  (after creating the video, after `getUserMedia`, after the metadata) are not
  separate interleaving points.
- `selectedDeviceId` is stored, but picking the stream by device is not
  modelled.
- The `SendMessage` transport and JSON serialisation are not modelled. Each
  message is an entry in the log.
- Numbers are `real`, so IEEE doubles, NaN and infinite values are not
  modelled. The halving and doubling are exact in doubles too, but the
  division by `canvas.width` and `canvas.height` (OpenCVJS.js:189-190) rounds
  there while the model divides exactly. The [0,1] bound still holds under
  rounding, because rounding is monotone and 0 and 1 are representable.
- `Cameras.IdPrefix`: JavaScript's `substring(0, 4)` counts UTF-16 code units,
  while a Dafny `string` counts Unicode scalar values. The two differ only for
  ids holding characters outside the Basic Multilingual Plane, which device
  ids do not.
- Exceptions are modelled only where the script can raise them: a null
  context, the zero-size `getImageData`, and the unguarded `SendMessage` in
  `setupCamera`. Each ends that step with no reschedule. Other foreign
  failures are not modelled.
- That an iteration sees either the old or the new template, never a mix, is
  not stated separately. Methods are atomic here, so it holds by
  construction.
