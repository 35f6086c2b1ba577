/**
 * The automated calibration path: find the black calibration rectangle, order its corners,
 * rotate the order until a blue marker lands in the expected quadrant of the rectified image,
 * and compute the transform from the accepted order.
 *
 * Image processing is external: the black-region contour extraction, the polygon
 * approximation, the warp and the blue-marker detector are parameters of the operations.
 */
module Part122 {
  import opened Results
  import opened Geometry
  import opened Rectification
  import opened CornerOrder

  /** rectangular_points: four rows of (x, y) floats. */
  predicate IsCornerBuffer(m: array2<real>)
  {
    m.Length0 == 4 && m.Length1 == 2
  }

  /** The corners held by the buffer, row by row. */
  function Rows(m: array2<real>): (r: seq<Point>)
    requires IsCornerBuffer(m)
    reads m
    ensures |r| == 4 && forall i :: 0 <= i < 4 ==> r[i] == Point(m[i, 0], m[i, 1])
  {
    [Point(m[0, 0], m[0, 1]), Point(m[1, 0], m[1, 1]), Point(m[2, 0], m[2, 1]), Point(m[3, 0], m[3, 1])]
  }

  /** rotate_row: shift the rows up by one through a temporary row; row 0 goes to row 3.
      Each row keeps its x and y together. */
  method RotateRow(m: array2<real>)
    requires IsCornerBuffer(m)
    modifies m
    ensures Rows(m) == RotateLeft(old(Rows(m)))
    ensures forall i, j :: 0 <= i < 4 && 0 <= j < 2 ==> m[i, j] == old(m[(i + 1) % 4, j])
  {
    var tempX, tempY := m[0, 0], m[0, 1];
    m[0, 0], m[0, 1] := m[1, 0], m[1, 1];
    m[1, 0], m[1, 1] := m[2, 0], m[2, 1];
    m[2, 0], m[2, 1] := m[3, 0], m[3, 1];
    m[3, 0], m[3, 1] := tempX, tempY;
  }

  /** A contour is used when it has more than 200 points and approximates to a 4-gon. */
  predicate Qualifies(contour: seq<PixelPoint>, approx: seq<PixelPoint> -> seq<PixelPoint>)
  {
    |contour| > 200 && |approx(contour)| == 4
  }

  /** The rows processImage writes for a 4-gon: corners 0, 3, 2, 1, as floats. */
  function CornerRows(curve: seq<PixelPoint>): (r: seq<Point>)
    requires |curve| == 4
    ensures |r| == 4 && r[0] == ToPoint(curve[0])
    ensures forall i :: 0 <= i < 4 ==> r[i] == ToPoint(curve[(4 - i) % 4])
    ensures TwiceSignedArea(r) == - TwiceSignedArea(ToPoints(curve))
  {
    KeepFirstReverseFlips(ToPoints(curve));
    KeepFirstReverse(ToPoints(curve))
  }

  /** The index of the last qualifying contour among the first n. */
  function LastQualifying(contours: seq<seq<PixelPoint>>, approx: seq<PixelPoint> -> seq<PixelPoint>, n: nat)
    : (r: Option<nat>)
    requires n <= |contours|
    ensures r.Some? ==> r.value < n && Qualifies(contours[r.value], approx)
    ensures r.Some? ==> forall k :: r.value < k < n ==> !Qualifies(contours[k], approx)
    ensures r.None? <==> forall k :: 0 <= k < n ==> !Qualifies(contours[k], approx)
  {
    if n == 0 then None
    else if Qualifies(contours[n - 1], approx) then Some(n - 1)
    else LastQualifying(contours, approx, n - 1)
  }

  /** The corners after processImage has scanned the first n contours: those of the last
      qualifying contour, or the previous contents of the buffer when none qualifies. */
  function DetectedCorners(prev: seq<Point>, contours: seq<seq<PixelPoint>>,
                           approx: seq<PixelPoint> -> seq<PixelPoint>, n: nat): (r: seq<Point>)
    requires |prev| == 4 && n <= |contours|
    ensures |r| == 4
  {
    match LastQualifying(contours, approx, n)
    case Some(j) => CornerRows(approx(contours[j]))
    case None => prev
  }

  /** processImage: fails on an empty image; otherwise writes the corners of every qualifying
      contour into the buffer, so the last one wins. */
  method ProcessImage<P>(img: Frame<P>, blackContours: Frame<P> -> seq<seq<PixelPoint>>,
                         approx: seq<PixelPoint> -> seq<PixelPoint>, points: array2<real>)
    returns (loaded: bool)
    requires IsCornerBuffer(points)
    modifies points
    ensures loaded == !Empty(img)
    ensures Rows(points) == if loaded then DetectedCorners(old(Rows(points)), blackContours(img), approx, |blackContours(img)|)
                            else old(Rows(points))
  {
    if Empty(img) {
      return false;
    }
    var contours := blackContours(img);
    var i := 0;
    while i < |contours|
      invariant 0 <= i <= |contours|
      invariant Rows(points) == DetectedCorners(old(Rows(points)), contours, approx, i)
    {
      if |contours[i]| > 200 {
        var curve := approx(contours[i]);
        if |curve| == 4 {
          points[0, 0] := curve[0].x as real;
          points[0, 1] := curve[0].y as real;
          points[1, 0] := curve[3].x as real;
          points[1, 1] := curve[3].y as real;
          points[2, 0] := curve[2].x as real;
          points[2, 1] := curve[2].y as real;
          points[3, 0] := curve[1].x as real;
          points[3, 1] := curve[1].y as real;
          assert Rows(points) == [ToPoint(curve[0]), ToPoint(curve[3]), ToPoint(curve[2]), ToPoint(curve[1])]
                              == CornerRows(curve);
        }
      }
      i := i + 1;
    }
    return true;
  }

  /** The marker lies in the expected region: left of a quarter of the width and below half
      the height. The sizes are non-negative, so division truncates as in C++. */
  predicate InMarkerQuadrant(p: PixelPoint, cols: nat, rows: nat)
  {
    p.x <= cols / 4 && p.y >= rows / 2
  }

  predicate AllInMarkerQuadrant(curve: seq<PixelPoint>, cols: nat, rows: nat)
  {
    forall i :: 0 <= i < |curve| ==> InMarkerQuadrant(curve[i], cols, rows)
  }

  /** isitinside: scan the points and stop at the first one outside the quadrant. */
  method IsItInside<P>(curve: seq<PixelPoint>, img: Frame<P>) returns (inside: bool)
    ensures inside <==> AllInMarkerQuadrant(curve, img.cols, img.rows)
    ensures !inside ==> exists i :: 0 <= i < |curve| && !InMarkerQuadrant(curve[i], img.cols, img.rows)
  {
    var limitX := img.cols / 4;
    var limitY := img.rows / 2;
    var i := 0;
    while i < |curve|
      invariant 0 <= i <= |curve|
      invariant forall j :: 0 <= j < i ==> InMarkerQuadrant(curve[j], img.cols, img.rows)
    {
      if curve[i].x > limitX || curve[i].y < limitY {
        return false;
      }
      i := i + 1;
    }
    return true;
  }

  /** What checkbluebox answers for an image: a marker was detected and lies in the quadrant. */
  predicate MarkerFound<P>(img: Frame<P>, blueContour: Frame<P> -> seq<PixelPoint>)
  {
    |blueContour(img)| != 0 && AllInMarkerQuadrant(blueContour(img), img.cols, img.rows)
  }

  /** checkbluebox: an empty detection is a failure; otherwise the quadrant test decides. */
  method CheckBlueBox<P>(img: Frame<P>, blueContour: Frame<P> -> seq<PixelPoint>) returns (found: bool)
    ensures |blueContour(img)| == 0 ==> !found
    ensures |blueContour(img)| != 0 ==> (found <==> AllInMarkerQuadrant(blueContour(img), img.cols, img.rows))
    ensures found == MarkerFound(img, blueContour)
  {
    var curve := blueContour(img);
    if |curve| != 0 {
      found := IsItInside(curve, img);
    } else {
      found := false;
    }
  }

  /** The perspective transform from the corners onto the whole image canvas (findTransform). */
  function FindTransform<P>(img: Frame<P>, corners: seq<Point>): (r: Result<PerspectiveResult, RectifyError>)
    ensures r.Ok? <==> !Empty(img)
    ensures r.Ok? ==> r.value.transform.src == corners
  {
    CanvasPerspective(corners, img.cols, img.rows)
  }

  /** The rectified image: same size as the input (warpPerspective is given the input size),
      pixels produced by the external warp (find_unwarped_img). */
  function FindUnwarpedImg<P>(img: Frame<P>, corners: seq<Point>, warp: (P, Transform) -> P)
    : (r: Result<Frame<P>, RectifyError>)
    ensures r.Ok? <==> !Empty(img)
    ensures r.Ok? ==> r.value.cols == img.cols && r.value.rows == img.rows
    ensures r.Ok? ==> r.value.pixels == warp(img.pixels, FindTransform(img, corners).value.transform)
  {
    match FindTransform(img, corners)
    case Ok(t) => Ok(Frame(img.cols, img.rows, warp(img.pixels, t.transform)))
    case Err(e) => Err(e)
  }

  /** The orientation check applied to one corner order. */
  predicate MarkerAccepted<P>(img: Frame<P>, warp: (P, Transform) -> P,
                              blueContour: Frame<P> -> seq<PixelPoint>, corners: seq<Point>)
  {
    match FindUnwarpedImg(img, corners, warp)
    case Ok(unwarped) => MarkerFound(unwarped, blueContour)
    case Err(_) => false
  }

  function MarkerCheck<P>(img: Frame<P>, warp: (P, Transform) -> P,
                          blueContour: Frame<P> -> seq<PixelPoint>): seq<Point> -> bool
  {
    corners => MarkerAccepted(img, warp, blueContour, corners)
  }

  datatype CalibrationError = ImageEmpty

  /** What the automated path stores, and whether a rotation was accepted. */
  datatype Calibration = Calibration(perspective: PerspectiveResult, oriented: bool)

  /** The calibration sequence in main: detect the corners, try up to four rotations until the marker
      check passes, then compute the transform from the order the loop ended with. */
  method Calibrate<P>(frame: Frame<P>, blackContours: Frame<P> -> seq<seq<PixelPoint>>,
                      approx: seq<PixelPoint> -> seq<PixelPoint>, warp: (P, Transform) -> P,
                      blueContour: Frame<P> -> seq<PixelPoint>, points: array2<real>)
    returns (r: Result<Calibration, CalibrationError>)
    requires IsCornerBuffer(points)
    modifies points
    ensures Empty(frame) <==> r.Err?
    ensures r.Err? ==> Rows(points) == old(Rows(points))
    ensures r.Ok? ==>
      var detected := DetectedCorners(old(Rows(points)), blackContours(frame), approx, |blackContours(frame)|);
      var check := MarkerCheck(frame, warp, blueContour);
      && Rows(points) == SearchResult(check, detected)
      && r.value.oriented == Search(check, detected).Accepted?
      && r.value.perspective == FindTransform(frame, Rows(points)).value
  {
    var loaded := ProcessImage(frame, blackContours, approx, points);
    if !loaded {
      return Err(ImageEmpty);
    }
    ghost var detected := Rows(points);
    ghost var check := MarkerCheck(frame, warp, blueContour);
    var oriented := false;
    var i := 0;
    while i < 4
      invariant 0 <= i <= 4
      invariant Rows(points) == Rotations(detected, i)
      invariant forall j :: 0 <= j < i ==> !check(Rotations(detected, j))
    {
      var unwarped := FindUnwarpedImg(frame, Rows(points), warp);
      var found := CheckBlueBox(unwarped.value, blueContour);
      if found {
        oriented := true;
        break;
      }
      RotateRow(points);
      i := i + 1;
    }
    if oriented {
      assert check(Rotations(detected, i));
      assert Search(check, detected) == Accepted(i);
    } else {
      FourRotationsRestore(detected);
    }
    var transform := FindTransform(frame, Rows(points));
    r := Ok(Calibration(transform.value, oriented));
  }

}
