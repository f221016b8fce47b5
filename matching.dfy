/**
 * The arithmetic of one `detect` iteration around OpenCV's template
 * matching: the required size of the score surface, the strict score
 * threshold, and the mapping of the best match to normalised coordinates.
 * OpenCV's own results (reduced sizes, best location, best score) are inputs.
 */
module Matching {
  import opened Wrappers

  /** Down-scaling factor applied to both frame and template. */
  const Scale: real := 0.5
  /** A match is reported only when its score is strictly above this. */
  const MinMatchScore: real := 0.8

  /** Size of a reduced grey image, as OpenCV's `rows` and `cols`. */
  datatype Dims = Dims(rows: nat, cols: nat)
  /** A location in the score surface (`minMaxLoc`'s `maxLoc`). */
  datatype Point = Point(x: nat, y: nat)
  /** The payload of 'OnReceiveFootPosition'. */
  datatype Position = Position(x: real, y: real)

  /**
   * Rows and columns the score surface must have: one score per placement of
   * the template inside the frame. Both are positive exactly when the template
   * fits, and the last placement ends on the frame's edge.
   */
  function SurfaceDims(frame: Dims, templ: Dims): (r: (int, int))
    ensures r.0 >= 1 <==> templ.rows <= frame.rows
    ensures r.1 >= 1 <==> templ.cols <= frame.cols
    ensures (r.0 - 1) + templ.rows == frame.rows && (r.1 - 1) + templ.cols == frame.cols
  {
    (frame.rows - templ.rows + 1, frame.cols - templ.cols + 1)
  }

  /** Whether an existing surface of size `current` can be written again. */
  predicate Reusable(current: Option<(int, int)>, frame: Dims, templ: Dims) {
    current == Some(SurfaceDims(frame, templ))
  }

  /**
   * The centre of the matched window in reduced coordinates, scaled back up
   * by `1 / Scale` and divided by the canvas size. Multiplying back by the
   * canvas size recovers the full-resolution centre `2 * pt + templ`.
   */
  function Normalize(pt: Point, templ: Dims, canvasWidth: nat, canvasHeight: nat): (p: Position)
    requires canvasWidth > 0 && canvasHeight > 0
    ensures p.x * canvasWidth as real == 2.0 * pt.x as real + templ.cols as real
    ensures p.y * canvasHeight as real == 2.0 * pt.y as real + templ.rows as real
    ensures p.x >= 0.0 && p.y >= 0.0
  {
    var centerX := (pt.x as real + templ.cols as real / 2.0) / Scale;
    var centerY := (pt.y as real + templ.rows as real / 2.0) / Scale;
    Position(centerX / canvasWidth as real, centerY / canvasHeight as real)
  }

  /** The position to send for a best match, if its score passes the threshold. */
  function Detection(score: real, pt: Point, templ: Dims, canvasWidth: nat, canvasHeight: nat): (r: Option<Position>)
    requires canvasWidth > 0 && canvasHeight > 0
    ensures r.Some? <==> score > MinMatchScore
    ensures r.Some? ==> r.value == Normalize(pt, templ, canvasWidth, canvasHeight)
  {
    if score > MinMatchScore then Some(Normalize(pt, templ, canvasWidth, canvasHeight)) else None
  }

  /** A score of exactly the threshold is not reported. */
  lemma ThresholdIsStrict(pt: Point, templ: Dims, canvasWidth: nat, canvasHeight: nat)
    requires canvasWidth > 0 && canvasHeight > 0
    ensures Detection(MinMatchScore, pt, templ, canvasWidth, canvasHeight) == None
  {
  }

  /**
   * When the best location is a real placement of the template in the reduced
   * frame, and twice the reduced frame exceeds the canvas by at most the reduced
   * template's size (which covers the down-scaling's rounding), the position
   * lies in the unit square.
   */
  lemma {:induction false} NormalizedInUnitSquare(pt: Point, frame: Dims, templ: Dims, canvasWidth: nat, canvasHeight: nat)
    requires canvasWidth > 0 && canvasHeight > 0
    requires pt.x + templ.cols <= frame.cols && pt.y + templ.rows <= frame.rows
    requires 2 * frame.cols <= canvasWidth + templ.cols && 2 * frame.rows <= canvasHeight + templ.rows
    ensures var p := Normalize(pt, templ, canvasWidth, canvasHeight);
      0.0 <= p.x <= 1.0 && 0.0 <= p.y <= 1.0
  {
    var p := Normalize(pt, templ, canvasWidth, canvasHeight);
    AtMostOne(p.x, canvasWidth as real, 2.0 * pt.x as real + templ.cols as real);
    AtMostOne(p.y, canvasHeight as real, 2.0 * pt.y as real + templ.rows as real);
  }

  /** A value whose product with a positive size does not exceed that size is at most one. */
  lemma AtMostOne(v: real, size: real, product: real)
    requires size > 0.0 && v * size == product && product <= size
    ensures v <= 1.0
  {
  }
}
