/**
 * Orderings of the four corners of a detected quadrilateral: the cyclic left rotation that
 * rotate_row performs, the fixed reordering processImage applies to a detected 4-gon, and the
 * search that tries each of the four rotations until the marker check accepts one.
 */
module CornerOrder {
  import opened Geometry

  /** Row i receives old row (i + 1) mod 4: the first corner moves to the end. */
  function RotateLeft<T>(q: seq<T>): (r: seq<T>)
    requires |q| == 4
    ensures |r| == 4
    ensures forall i :: 0 <= i < 4 ==> r[i] == q[(i + 1) % 4]
  {
    [q[1], q[2], q[3], q[0]]
  }

  /** k successive left rotations. */
  function Rotations<T>(q: seq<T>, k: nat): (r: seq<T>)
    requires |q| == 4
    ensures |r| == 4
  {
    if k == 0 then q else RotateLeft(Rotations(q, k - 1))
  }

  lemma {:induction false} RotationsAt<T>(q: seq<T>, k: nat, i: int)
    requires |q| == 4 && 0 <= i < 4
    ensures Rotations(q, k)[i] == q[(i + k) % 4]
  {
    if k > 0 {
      RotationsAt(q, k - 1, (i + 1) % 4);
      assert ((i + 1) % 4 + (k - 1)) % 4 == (i + k) % 4;
    }
  }

  /** Rotating j times and then k times is rotating j + k times. */
  lemma RotationsCompose<T>(q: seq<T>, j: nat, k: nat)
    requires |q| == 4
    ensures Rotations(Rotations(q, j), k) == Rotations(q, j + k)
  {
  }

  /** Four rotations restore the original order, so four attempts visit every cyclic order. */
  lemma FourRotationsRestore<T>(q: seq<T>)
    requires |q| == 4
    ensures Rotations(q, 4) == q
  {
    forall i | 0 <= i < 4
      ensures Rotations(q, 4)[i] == q[i]
    {
      RotationsAt(q, 4, i);
      assert (i + 4) % 4 == i;
    }
  }

  /** The rotation that starts at corner k is the k-th one; with four distinct corners the
      four rotations are four different orders. */
  lemma RotationsDistinct<T>(q: seq<T>, j: nat, k: nat)
    requires |q| == 4 && forall a, b :: 0 <= a < b < 4 ==> q[a] != q[b]
    requires j < k < 4
    ensures Rotations(q, j)[0] == q[j] && Rotations(q, k)[0] == q[k]
    ensures Rotations(q, j) != Rotations(q, k)
  {
    RotationsAt(q, j, 0);
    RotationsAt(q, k, 0);
  }

  /** The reordering of processImage: rows 0..3 receive corners 0, 3, 2, 1. */
  function KeepFirstReverse<T>(q: seq<T>): (r: seq<T>)
    requires |q| == 4
    ensures |r| == 4
    ensures forall i :: 0 <= i < 4 ==> r[i] == q[(4 - i) % 4]
  {
    [q[0], q[3], q[2], q[1]]
  }

  /** The reordering keeps the first corner and reverses the direction of traversal: the
      signed area changes sign, and applying it twice gives back the original order. */
  lemma KeepFirstReverseFlips(q: seq<Point>)
    requires |q| == 4
    ensures KeepFirstReverse(q)[0] == q[0]
    ensures TwiceSignedArea(KeepFirstReverse(q)) == - TwiceSignedArea(q)
    ensures Clockwise(q) ==> !Clockwise(KeepFirstReverse(q))
    ensures KeepFirstReverse(KeepFirstReverse(q)) == q
  {
  }

  /** Rotating never changes the direction of traversal. */
  lemma {:induction false} RotationsKeepOrientation(q: seq<Point>, k: nat)
    requires |q| == 4
    ensures TwiceSignedArea(Rotations(q, k)) == TwiceSignedArea(q)
  {
    if k > 0 {
      RotationsKeepOrientation(q, k - 1);
      var p := Rotations(q, k - 1);
      assert Rotations(q, k) == [p[1], p[2], p[3], p[0]];
    }
  }

  /** Reversing after one left rotation equals three left rotations after reversing: the
      rotations of the reordered quad are exactly the reorderings of the rotated quads. */
  lemma ReverseRotateCommute<T>(q: seq<T>)
    requires |q| == 4
    ensures KeepFirstReverse(RotateLeft(q)) == Rotations(KeepFirstReverse(q), 3)
  {
    var r := KeepFirstReverse(q);
    assert Rotations(r, 1) == [r[1], r[2], r[3], r[0]];
    assert Rotations(r, 2) == [r[2], r[3], r[0], r[1]];
  }

  /** Outcome of the orientation search: accepted after the given number of left rotations,
      or rejected at all four. */
  datatype SearchOutcome = Accepted(rotations: nat) | Exhausted

  /** The search from attempt k on: try rotation k, stop at the first accepted one. */
  function SearchFrom<T>(check: seq<T> -> bool, q: seq<T>, k: nat): (r: SearchOutcome)
    requires |q| == 4 && k <= 4
    ensures r.Accepted? ==> k <= r.rotations < 4 && check(Rotations(q, r.rotations))
    ensures r.Accepted? ==> forall i :: k <= i < r.rotations ==> !check(Rotations(q, i))
    ensures r.Exhausted? <==> forall i :: k <= i < 4 ==> !check(Rotations(q, i))
    decreases 4 - k
  {
    if k == 4 then Exhausted
    else if check(Rotations(q, k)) then Accepted(k)
    else SearchFrom(check, q, k + 1)
  }

  function Search<T>(check: seq<T> -> bool, q: seq<T>): SearchOutcome
    requires |q| == 4
  {
    SearchFrom(check, q, 0)
  }

  /** The order the corners are left in after the search: the accepted rotation, or after
      four rejected rotations the original order. */
  function SearchResult<T>(check: seq<T> -> bool, q: seq<T>): (r: seq<T>)
    requires |q| == 4
    ensures Search(check, q).Exhausted? ==> r == q
    ensures Search(check, q).Accepted? ==> check(r)
    ensures Search(check, q).Accepted? ==>
      exists k :: 0 <= k < 4 && r == Rotations(q, k) && forall j :: 0 <= j < k ==> !check(Rotations(q, j))
  {
    match Search(check, q)
    case Accepted(k) => Rotations(q, k)
    case Exhausted => FourRotationsRestore(q); Rotations(q, 4)
  }

  /** When the quad is the expected order rotated k places, its corners are distinct and the
      check accepts exactly the expected order, the search needs (4 - k) % 4 rotations, so it
      stops at attempt (4 - k) % 4 + 1 and leaves the corners in the expected order. */
  lemma SearchRecoversRotation<T>(check: seq<T> -> bool, expected: seq<T>, k: nat)
    requires |expected| == 4 && forall a, b :: 0 <= a < b < 4 ==> expected[a] != expected[b]
    requires k < 4
    requires forall j :: 0 <= j < 4 ==> (check(Rotations(Rotations(expected, k), j)) <==> Rotations(Rotations(expected, k), j) == expected)
    ensures Search(check, Rotations(expected, k)) == Accepted((4 - k) % 4)
    ensures SearchResult(check, Rotations(expected, k)) == expected
  {
    var q := Rotations(expected, k);
    var m := (4 - k) % 4;
    RotationsCompose(expected, k, m);
    if k == 0 {
      assert Rotations(q, 0) == expected;
    } else {
      FourRotationsRestore(expected);
      assert Rotations(q, m) == expected;
    }
    forall j | 0 <= j < m
      ensures !check(Rotations(q, j))
    {
      RotationsCompose(expected, k, j);
      RotationsDistinct(expected, 0, k + j);
    }
    var r := Search(check, q);
    if r.Accepted? {
      assert r.rotations == m;
    }
  }

}
