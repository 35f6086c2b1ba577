/**
 * The destination quadrilateral and pixel scale of a ground-plane rectification.
 *
 * The calibration rectangle on the floor is 1000 mm wide and 1500 mm high. Given a
 * destination origin and a far corner, the scale (destination pixels per millimetre)
 * is the smaller of the two per-axis ratios, both axes are rescaled by it, and the
 * destination corners are listed top-left, top-right, bottom-right, bottom-left.
 * The same arithmetic appears in both findTransform functions and in find_unwarped_img.
 */
module Rectification {
  import opened Results
  import opened Geometry

  const WidthMm: real := 1000.0
  const HeightMm: real := 1500.0

  /** The scale is zero: the float program computes an infinite pixel scale and a
      destination quad collapsed onto an axis. */
  datatype RectifyError = ZeroScale

  /** scale: destination pixels per millimetre; pixelScale: millimetres per destination pixel. */
  datatype Destination = Destination(scale: real, pixelScale: real, quad: seq<Point>)

  /** The transform together with the pixel scale stored beside it. */
  datatype PerspectiveResult = PerspectiveResult(transform: Transform, pixelScale: real)

  /** min(dx / 1000, dy / 1500): the largest scale at which the rectangle fits the extent. */
  function Scale(origin: Point, far: Point): (s: real)
    ensures s * WidthMm <= far.x - origin.x && s * HeightMm <= far.y - origin.y
    ensures s * WidthMm == far.x - origin.x || s * HeightMm == far.y - origin.y
  {
    Min((far.x - origin.x) / WidthMm, (far.y - origin.y) / HeightMm)
  }

  function Rectify(origin: Point, far: Point): (r: Result<Destination, RectifyError>)
    ensures r.Ok? <==> Scale(origin, far) != 0.0
    ensures r.Ok? ==> r.value.scale == Scale(origin, far) && r.value.scale * r.value.pixelScale == 1.0
    ensures r.Ok? ==> |r.value.quad| == 4 && r.value.quad[0] == origin
  {
    var s := Scale(origin, far);
    if s == 0.0 then Err(ZeroScale)
    else
      var w := s * WidthMm;
      var h := s * HeightMm;
      Ok(Destination(s, 1.0 / s,
        [origin,
         Point(origin.x + w, origin.y),
         Point(origin.x + w, origin.y + h),
         Point(origin.x, origin.y + h)]))
  }

  /** Width and height of the destination rectangle (top-left to top-right, top-left to bottom-left). */
  function QuadWidth(q: seq<Point>): real
    requires |q| == 4
  {
    q[1].x - q[0].x
  }

  function QuadHeight(q: seq<Point>): real
    requires |q| == 4
  {
    q[3].y - q[0].y
  }

  /** The destination quad is an axis-aligned rectangle with the 1000:1500 aspect of the
      floor rectangle, listed clockwise on screen from the origin. */
  lemma RectifiedShape(origin: Point, far: Point)
    requires Rectify(origin, far).Ok?
    ensures var d := Rectify(origin, far).value; var q := d.quad;
      && q[1].y == q[0].y && q[2].x == q[1].x && q[2].y == q[3].y && q[3].x == q[0].x
      && QuadWidth(q) == d.scale * WidthMm && QuadHeight(q) == d.scale * HeightMm
      && QuadWidth(q) * HeightMm == QuadHeight(q) * WidthMm
      && TwiceSignedArea(q) == 2.0 * QuadWidth(q) * QuadHeight(q)
      && Clockwise(q)
  {
  }

  /** With a positive extent in both directions the scale and the pixel scale are positive,
      and the pixel scale is the larger of the per-axis millimetres per pixel. */
  lemma PositiveExtentScale(origin: Point, far: Point)
    requires far.x - origin.x > 0.0 && far.y - origin.y > 0.0
    ensures Rectify(origin, far).Ok?
    ensures var d := Rectify(origin, far).value;
      && d.scale > 0.0 && d.pixelScale > 0.0
      && d.pixelScale == Max(WidthMm / (far.x - origin.x), HeightMm / (far.y - origin.y))
  {
  }

  /** With a positive extent the rescaled rectangle fits inside it, touching it on the
      binding axis: the full width is used exactly when the width ratio is the smaller one. */
  lemma PositiveExtentFits(origin: Point, far: Point)
    requires far.x - origin.x > 0.0 && far.y - origin.y > 0.0
    ensures Rectify(origin, far).Ok?
    ensures var q := Rectify(origin, far).value.quad;
      && 0.0 < QuadWidth(q) <= far.x - origin.x
      && 0.0 < QuadHeight(q) <= far.y - origin.y
      && (QuadWidth(q) == far.x - origin.x <==> (far.x - origin.x) / WidthMm <= (far.y - origin.y) / HeightMm)
      && (QuadHeight(q) == far.y - origin.y <==> (far.y - origin.y) / HeightMm <= (far.x - origin.x) / WidthMm)
      && forall i :: 0 <= i < 4 ==> origin.x <= q[i].x <= far.x && origin.y <= q[i].y <= far.y
  {
  }

  /** The transform from the source corners to the destination quad, and the pixel scale
      (findTransform). */
  function FindPerspective(corners: seq<Point>, origin: Point, far: Point): (r: Result<PerspectiveResult, RectifyError>)
    ensures r.Ok? <==> Rectify(origin, far).Ok?
    ensures r.Ok? ==> r.value.transform.src == corners
    ensures r.Ok? ==> r.value.transform.dst == Rectify(origin, far).value.quad
    ensures r.Ok? ==> r.value.pixelScale * Scale(origin, far) == 1.0
  {
    match Rectify(origin, far)
    case Ok(d) => Ok(PerspectiveResult(PerspectiveTransform(corners, d.quad), d.pixelScale))
    case Err(e) => Err(e)
  }

  /** The canvas of the automated path: origin (0, 0), far corner (cols, rows). */
  function CanvasPerspective(corners: seq<Point>, cols: nat, rows: nat): (r: Result<PerspectiveResult, RectifyError>)
    ensures r.Ok? <==> cols > 0 && rows > 0
    ensures r.Ok? ==> r.value.transform.src == corners && |r.value.transform.dst| == 4
    ensures r.Ok? ==> forall i :: 0 <= i < 4 ==>
      0.0 <= r.value.transform.dst[i].x <= cols as real && 0.0 <= r.value.transform.dst[i].y <= rows as real
    ensures r.Ok? ==> Clockwise(r.value.transform.dst)
    ensures r.Ok? ==> r.value.pixelScale == Max(WidthMm / cols as real, HeightMm / rows as real)
  {
    var origin, far := Point(0.0, 0.0), Point(cols as real, rows as real);
    if cols > 0 && rows > 0 then
      PositiveExtentFits(origin, far);
      PositiveExtentScale(origin, far);
      RectifiedShape(origin, far);
      FindPerspective(corners, origin, far)
    else
      assert Scale(origin, far) == 0.0;
      FindPerspective(corners, origin, far)
  }

  /** An 800 x 1200 canvas: scale 0.8 on both axes, 1.25 mm per pixel, quad filling the canvas. */
  lemma CanvasExample(corners: seq<Point>)
    ensures CanvasPerspective(corners, 800, 1200) ==
      Ok(PerspectiveResult(
        PerspectiveTransform(corners, [Point(0.0, 0.0), Point(800.0, 0.0), Point(800.0, 1200.0), Point(0.0, 1200.0)]),
        1.25))
  {
  }

}
