/**
 * Geometry of `CaptureFootTemplateFromUnity`: the zero-size guard and the
 * fixed-size square patch cut from the centre of the current video frame.
 */
module TemplateCapture {
  import opened Wrappers

  /** Side of the captured square patch, in full-resolution pixels. */
  const TemplateSize: nat := 100

  /** A crop rectangle; its origin may lie outside the frame. */
  datatype Rect = Rect(x: int, y: int, width: nat, height: nat)

  predicate Inside(r: Rect, frameWidth: nat, frameHeight: nat) {
    0 <= r.x && r.x + r.width <= frameWidth && 0 <= r.y && r.y + r.height <= frameHeight
  }

  /**
   * The patch read by `getImageData`: origin `floor(W/2) - 50`, `floor(H/2) - 50`,
   * always 100 by 100. Its centre is the frame's integer centre, and it lies
   * wholly inside the frame exactly when both sides are at least 100.
   */
  function CaptureWindow(frameWidth: nat, frameHeight: nat): (r: Rect)
    ensures r.width == TemplateSize && r.height == TemplateSize
    ensures 2 * (r.x + TemplateSize / 2) <= frameWidth <= 2 * (r.x + TemplateSize / 2) + 1
    ensures 2 * (r.y + TemplateSize / 2) <= frameHeight <= 2 * (r.y + TemplateSize / 2) + 1
    ensures Inside(r, frameWidth, frameHeight) <==> frameWidth >= TemplateSize && frameHeight >= TemplateSize
  {
    var centerX := frameWidth / 2;
    var centerY := frameHeight / 2;
    Rect(centerX - TemplateSize / 2, centerY - TemplateSize / 2, TemplateSize, TemplateSize)
  }

  /**
   * The guard of the capture command: no patch when there is no video
   * element or the video reports a zero width or height; otherwise the
   * centred window, even when it reaches past the frame's edges.
   */
  function CapturePatch(hasVideo: bool, videoWidth: nat, videoHeight: nat): (r: Option<Rect>)
    ensures r.None? <==> !hasVideo || videoWidth == 0 || videoHeight == 0
    ensures r.Some? ==> r.value == CaptureWindow(videoWidth, videoHeight)
  {
    if !hasVideo || videoWidth == 0 || videoHeight == 0 then None
    else Some(CaptureWindow(videoWidth, videoHeight))
  }
}
