/**
 * Points, images and perspective transforms as the calibration code sees them.
 * Pixel coordinates grow to the right (x) and downwards (y), as in image memory.
 */
module Geometry {

  /** A floating-point pixel coordinate (a row of a CV_32F point matrix); floats are reals here. */
  datatype Point = Point(x: real, y: real)

  /** An integer pixel coordinate, as produced by contour extraction. */
  datatype PixelPoint = PixelPoint(x: int, y: int)

  /** An image: its size and its pixel content, which this model never inspects. */
  datatype Frame<P> = Frame(cols: nat, rows: nat, pixels: P)

  /** The projective transform computed from four source and four destination corners.
      The homography solve itself is external; the value records what it was computed from. */
  datatype Transform = PerspectiveTransform(src: seq<Point>, dst: seq<Point>)

  /** An image with no pixels. */
  predicate Empty<P>(img: Frame<P>)
  {
    img.cols == 0 || img.rows == 0
  }

  /** The conversion an integer point undergoes when it is stored in a float matrix. */
  function ToPoint(p: PixelPoint): (q: Point)
    ensures q.x == p.x as real && q.y == p.y as real
  {
    Point(p.x as real, p.y as real)
  }

  function ToPoints(ps: seq<PixelPoint>): (qs: seq<Point>)
    ensures |qs| == |ps|
    ensures forall i :: 0 <= i < |ps| ==> qs[i] == ToPoint(ps[i])
  {
    seq(|ps|, i requires 0 <= i < |ps| => ToPoint(ps[i]))
  }

  /** The z component of the cross product of two position vectors. */
  function Cross(p: Point, q: Point): real
  {
    p.x * q.y - q.x * p.y
  }

  /** Twice the signed area of a quadrilateral (the shoelace sum). Since y grows downwards,
      a positive value means the corners are listed clockwise on screen. */
  function TwiceSignedArea(q: seq<Point>): real
    requires |q| == 4
  {
    Cross(q[0], q[1]) + Cross(q[1], q[2]) + Cross(q[2], q[3]) + Cross(q[3], q[0])
  }

  predicate Clockwise(q: seq<Point>)
    requires |q| == 4
  {
    TwiceSignedArea(q) > 0.0
  }

  function Min(a: real, b: real): (m: real)
    ensures m <= a && m <= b
    ensures m == a || m == b
  {
    if b < a then b else a
  }

  function Max(a: real, b: real): (m: real)
    ensures m >= a && m >= b
    ensures m == a || m == b
  {
    if a < b then b else a
  }

}
