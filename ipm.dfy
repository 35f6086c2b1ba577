/**
 * The manual calibration path: the user clicks the four corners of the floor rectangle and
 * then two points giving the origin and extent of the top view. The program's global click
 * state (result matrix, write index, target count, completion flag) is a session object;
 * the mouse events the window delivers are a finite input sequence.
 */
module Ipm {
  import opened Results
  import opened Geometry
  import opened Rectification

  /** OpenCV's code for a left-button press. */
  const EventLButtonDown: int := 1

  datatype MouseInput = MouseInput(event: int, x: int, y: int)

  /** Ignored: not a left press, or picking is done. OutOfRange: the callback threw because
      the write index is past the last row. */
  datatype CallbackOutcome = Ignored | Recorded | OutOfRange

  datatype PickError =
    | CallbackFailed   // the callback threw while picking
    | StillWaiting     // the input ended before enough clicks arrived; the program keeps waiting

  datatype IpmError = ImageNotOpened | PickFailed(pick: PickError) | Degenerate(geometry: RectifyError)

  /** The point a left press records. */
  function ClickPoint(e: MouseInput): Point
  {
    Point(e.x as real, e.y as real)
  }

  /** The points of the left presses among the inputs, in order. */
  function LeftClicks(inputs: seq<MouseInput>): (r: seq<Point>)
    ensures |r| <= |inputs|
  {
    if inputs == [] then []
    else
      var last := inputs[|inputs| - 1];
      LeftClicks(inputs[..|inputs| - 1]) + (if last.event == EventLButtonDown then [ClickPoint(last)] else [])
  }

  /** The clicks of a sequence of inputs are those of its first part followed by those of the rest. */
  lemma {:induction false} LeftClicksAppend(a: seq<MouseInput>, b: seq<MouseInput>)
    ensures LeftClicks(a + b) == LeftClicks(a) + LeftClicks(b)
  {
    if b != [] {
      var b' := b[..|b| - 1];
      assert (a + b)[..|a + b| - 1] == a + b';
      LeftClicksAppend(a, b');
    } else {
      assert a + b == a;
    }
  }

  lemma LeftClicksPrefix(inputs: seq<MouseInput>, i: nat)
    requires i <= |inputs|
    ensures LeftClicks(inputs) == LeftClicks(inputs[..i]) + LeftClicks(inputs[i..])
  {
    assert inputs == inputs[..i] + inputs[i..];
    LeftClicksAppend(inputs[..i], inputs[i..]);
  }

  class Session {
    var result: array2<real>
    var idx: int
    var n: int
    var done: bool
    /** The points recorded so far, in click order. */
    ghost var Clicks: seq<Point>

    /** The write index never passes the last row, and the rows before it hold the clicks. */
    ghost predicate Valid()
      reads this, result
    {
      && result.Length1 == 2
      && 0 <= idx <= result.Length0
      && |Clicks| == idx
      && forall i :: 0 <= i < idx ==> Clicks[i] == Point(result[i, 0], result[i, 1])
    }

    /** The program's initial global state: an empty matrix, index 0, count 0, not done. */
    constructor ()
      ensures Valid() && fresh(result)
      ensures result.Length0 == 0 && idx == 0 && n == 0 && !done && Clicks == []
    {
      result := new real[0, 2];
      idx := 0;
      n := 0;
      done := false;
      Clicks := [];
    }

    /** mouseCallback: a left press while picking writes (x, y) into row idx, advances idx
        by one and latches done once idx reaches n; a press with idx past the last row throws. */
    method MouseCallback(event: int, x: int, y: int) returns (outcome: CallbackOutcome)
      requires Valid()
      modifies this, result
      ensures Valid() && result == old(result) && n == old(n)
      ensures event != EventLButtonDown || old(done) ==>
        outcome == Ignored && unchanged(this) && unchanged(result)
      ensures event == EventLButtonDown && !old(done) && old(idx) >= result.Length0 ==>
        outcome == OutOfRange && unchanged(this) && unchanged(result)
      ensures event == EventLButtonDown && !old(done) && old(idx) < result.Length0 ==>
        && outcome == Recorded
        && idx == old(idx) + 1
        && Clicks == old(Clicks) + [Point(x as real, y as real)]
        && done == (idx >= n)
        && result[old(idx), 0] == x as real && result[old(idx), 1] == y as real
        && forall i, j :: 0 <= i < result.Length0 && 0 <= j < 2 && i != old(idx) ==> result[i, j] == old(result[i, j])
    {
      if event != EventLButtonDown || done {
        return Ignored;
      }
      if result.Length0 <= idx {
        return OutOfRange;
      }
      result[idx, 0] := x as real;
      result[idx, 1] := y as real;
      Clicks := Clicks + [Point(x as real, y as real)];
      idx := idx + 1;
      if idx >= n {
        done := true;
      }
      outcome := Recorded;
    }

    /** pickNPoints: reset the session to a fresh n0 x 2 matrix, index 0, target n0, not done,
        then deliver inputs to the callback until done. On success the matrix holds the first
        n0 left presses in click order. With n0 == 0 the first left press throws. */
    method PickNPoints(n0: int, inputs: seq<MouseInput>) returns (r: Result<array2<real>, PickError>)
      requires n0 >= 0
      modifies this
      ensures Valid() && fresh(result) && result.Length0 == n0 && n == n0
      ensures n0 > 0 && |LeftClicks(inputs)| >= n0 ==>
        && r == Ok(result) && done && idx == n0
        && Clicks == LeftClicks(inputs)[..n0]
        && forall i :: 0 <= i < n0 ==> Point(result[i, 0], result[i, 1]) == LeftClicks(inputs)[i]
      ensures n0 > 0 && |LeftClicks(inputs)| < n0 ==>
        r == Err(StillWaiting) && !done && Clicks == LeftClicks(inputs)
      ensures n0 == 0 && |LeftClicks(inputs)| > 0 ==> r == Err(CallbackFailed)
      ensures n0 == 0 && |LeftClicks(inputs)| == 0 ==> r == Err(StillWaiting)
    {
      result := new real[n0, 2];
      idx := 0;
      n := n0;
      done := false;
      Clicks := [];
      var i := 0;
      while i < |inputs| && !done
        invariant 0 <= i <= |inputs|
        invariant Valid() && fresh(result) && result.Length0 == n0 && n == n0
        invariant Clicks == LeftClicks(inputs[..i])
        invariant done <==> n0 > 0 && idx == n0
      {
        var e := inputs[i];
        var outcome := MouseCallback(e.event, e.x, e.y);
        assert inputs[..i + 1][..i] == inputs[..i];
        if outcome == OutOfRange {
          LeftClicksPrefix(inputs, i + 1);
          return Err(CallbackFailed);
        }
        i := i + 1;
      }
      LeftClicksPrefix(inputs, i);
      if done {
        assert LeftClicks(inputs)[..n0] == Clicks;
        r := Ok(result);
      } else {
        assert inputs[..i] == inputs;
        r := Err(StillWaiting);
      }
    }

    /** findTransform: fail on an unreadable image, pick the four corners, pick the origin and
        far corner of the top view, and compute the transform and pixel scale. */
    method FindTransform<P>(image: Frame<P>, cornerInputs: seq<MouseInput>, viewInputs: seq<MouseInput>)
      returns (r: Result<PerspectiveResult, IpmError>)
      requires Valid()
      modifies this
      ensures Valid()
      ensures Empty(image) ==> r == Err(ImageNotOpened)
      ensures !Empty(image) && |LeftClicks(cornerInputs)| < 4 ==> r == Err(PickFailed(StillWaiting))
      ensures !Empty(image) && |LeftClicks(cornerInputs)| >= 4 && |LeftClicks(viewInputs)| < 2 ==>
        r == Err(PickFailed(StillWaiting))
      ensures !Empty(image) && |LeftClicks(cornerInputs)| >= 4 && |LeftClicks(viewInputs)| >= 2 ==>
        var view := LeftClicks(viewInputs);
        r == match FindPerspective(LeftClicks(cornerInputs)[..4], view[0], view[1])
             case Ok(p) => Ok(p)
             case Err(e) => Err(Degenerate(e))
    {
      if Empty(image) {
        return Err(ImageNotOpened);
      }
      var cornerPick := PickNPoints(4, cornerInputs);
      if cornerPick.Err? {
        return Err(PickFailed(cornerPick.error));
      }
      var corners := cornerPick.value;
      var viewPick := PickNPoints(2, viewInputs);
      if viewPick.Err? {
        return Err(PickFailed(viewPick.error));
      }
      var view := viewPick.value;
      var src := [Point(corners[0, 0], corners[0, 1]), Point(corners[1, 0], corners[1, 1]),
                  Point(corners[2, 0], corners[2, 1]), Point(corners[3, 0], corners[3, 1])];
      assert src == LeftClicks(cornerInputs)[..4];
      var perspective := FindPerspective(src, Point(view[0, 0], view[0, 1]), Point(view[1, 0], view[1, 1]));
      match perspective
      case Ok(p) => r := Ok(p);
      case Err(e) => r := Err(Degenerate(e));
    }
  }

}
