/**
 The borrow-rate curve: lookup by linear interpolation, truncation of the stored point
 array at 100% utilization, and padding of a point list to the stored length.
 */
module BorrowCurve {
  import opened Reals
  import opened Wrappers

  const ONE_HUNDRED_PCT_IN_BPS: nat := 10000
  const CURVE_POINTS_LENGTH: nat := 11

  /** A node of the curve: utilization and rate, as ratios. */
  datatype Point = Point(u: real, r: real)

  /** A stored node, in basis points. */
  datatype CurvePoint = CurvePoint(utilizationRateBps: nat, borrowRateBps: nat)

  // ----- Lookup -----

  /** The line through (x0, y0) and (x1, y1). */
  function Line(x: real, x0: real, x1: real, y0: real, y1: real): real
    requires x0 != x1
  {
    y0 + ((x - x0) * (y1 - y0)) / (x1 - x0)
  }

  function Interpolate(x: real, x0: real, x1: real, y0: real, y1: real): Result<real>
    requires x0 != x1
  {
    if x > x1 then Err("Cannot do extrapolation")
    else Ok(Line(x, x0, x1, y0, y1))
  }

  /** What happens once the interpolation points are known; all zero means none was found. */
  function RateBetween(x: real, p: Point, q: Point): Result<real>
  {
    if p.u == 0.0 && p.r == 0.0 && q.u == 0.0 && q.r == 0.0 then
      Err("Invalid borrow rate curve, could not identify the interpolation points.")
    else if p.u >= q.u || p.r > q.r then
      Err("Invalid borrow rate curve, curve is not uniformly increasing")
    else
      Interpolate(x, p.u, q.u, p.r, q.r)
  }

  /** The scan of the nodes from index i on. */
  function RateFrom(x: real, curve: seq<Point>, i: nat): Result<real>
    requires 1 <= i <= |curve|
    decreases |curve| - i
  {
    if i == |curve| then RateBetween(x, Point(0.0, 0.0), Point(0.0, 0.0))
    else if curve[i].u == x then Ok(curve[i].r)
    else if x <= curve[i].u then RateBetween(x, curve[i - 1], curve[i])
    else RateFrom(x, curve, i + 1)
  }

  function BorrowRate(utilization: real, curve: seq<Point>): Result<real>
  {
    if |curve| < 2 then Err("Invalid borrow rate curve, only one point")
    else RateFrom(Min(utilization, 1.0), curve, 1)
  }

  method GetBorrowRate(currentUtilization: real, curve: seq<Point>) returns (rate: Result<real>)
    ensures rate == BorrowRate(currentUtilization, curve)
  {
    var p, q := Point(0.0, 0.0), Point(0.0, 0.0);
    if |curve| < 2 {
      return Err("Invalid borrow rate curve, only one point");
    }
    var x := currentUtilization;
    if x > 1.0 {
      x := 1.0;
    }
    var i := 1;
    while i < |curve|
      invariant 1 <= i <= |curve|
      invariant p == q == Point(0.0, 0.0)
      invariant BorrowRate(currentUtilization, curve) == RateFrom(x, curve, i)
    {
      if curve[i].u == x {
        return Ok(curve[i].r);
      }
      if x <= curve[i].u {
        p, q := curve[i - 1], curve[i];
        break;
      }
      i := i + 1;
    }
    rate := RateBetween(x, p, q);
  }

  // ----- The curve as a piecewise linear function -----

  predicate WellFormed(curve: seq<Point>)
  {
    && |curve| >= 2
    && curve[0].u == 0.0 && curve[|curve| - 1].u == 1.0
    && curve[0].r >= 0.0
    && (forall i, j :: 0 <= i < j < |curve| ==> curve[i].u < curve[j].u && curve[i].r <= curve[j].r)
  }

  /** The line through two nodes. */
  function Chord(p: Point, q: Point, x: real): real
    requires p.u < q.u
  {
    Line(x, p.u, q.u, p.r, q.r)
  }

  lemma QuotientMonotone(a: real, b: real, d: real)
    requires a <= b && d > 0.0
    ensures a / d <= b / d
  {}

  lemma ChordMonotone(p: Point, q: Point, x: real, y: real)
    requires p.u < q.u && p.r <= q.r && x <= y
    ensures Chord(p, q, x) <= Chord(p, q, y)
    ensures Chord(p, q, p.u) == p.r && Chord(p, q, q.u) == q.r
  {
    var d, s := q.u - p.u, q.r - p.r;
    assert (x - p.u) * s <= (y - p.u) * s;
    QuotientMonotone((x - p.u) * s, (y - p.u) * s, d);
    assert d * s / d == s;
  }

  /** Node i closes the segment in which x is looked up. */
  ghost predicate Bracket(x: real, curve: seq<Point>, i: nat)
  {
    1 <= i < |curve| && x <= curve[i].u && (i == 1 || curve[i - 1].u < x)
  }

  lemma RateBetweenIsChord(x: real, p: Point, q: Point)
    requires p.u < q.u && p.r <= q.r && x <= q.u && q.u > 0.0
    ensures RateBetween(x, p, q) == Ok(Chord(p, q, x))
  {
    hide Line;
  }

  lemma {:induction false} ScanStopsAtBracket(x: real, curve: seq<Point>, k: nat, i: nat)
    requires WellFormed(curve) && Bracket(x, curve, i) && 1 <= k <= i
    ensures RateFrom(x, curve, k) == Ok(Chord(curve[i - 1], curve[i], x))
    decreases i - k
  {
    hide RateBetween, Chord;
    if k < i {
      assert curve[k].u <= curve[i - 1].u;
      ScanStopsAtBracket(x, curve, k + 1, i);
    } else {
      ChordMonotone(curve[i - 1], curve[i], x, x);
      RateBetweenIsChord(x, curve[i - 1], curve[i]);
    }
  }

  lemma {:induction false} BracketExists(x: real, curve: seq<Point>, k: nat) returns (i: nat)
    requires WellFormed(curve) && x <= 1.0 && 1 <= k < |curve| && (k == 1 || curve[k - 1].u < x)
    ensures Bracket(x, curve, i)
    decreases |curve| - k
  {
    if x <= curve[k].u { i := k; } else { i := BracketExists(x, curve, k + 1); }
  }

  /**
   On a well-formed curve the lookup never fails and is the piecewise linear function through
   the nodes: on every segment it is the chord, at every node the node's rate.
   */
  lemma LookupIsPiecewiseLinear(x: real, curve: seq<Point>, i: nat)
    requires WellFormed(curve) && 1 <= i < |curve| && curve[i - 1].u <= x <= curve[i].u
    ensures BorrowRate(x, curve) == Ok(Chord(curve[i - 1], curve[i], x))
    ensures x == curve[i - 1].u ==> BorrowRate(x, curve) == Ok(curve[i - 1].r)
    ensures x == curve[i].u ==> BorrowRate(x, curve) == Ok(curve[i].r)
  {
    assert curve[i].u <= 1.0;
    ChordMonotone(curve[i - 1], curve[i], x, x);
    if i > 1 && x == curve[i - 1].u {
      assert curve[i - 2].u < x;
      ScanStopsAtBracket(x, curve, 1, i - 1);
      ChordMonotone(curve[i - 2], curve[i - 1], x, x);
    } else {
      ScanStopsAtBracket(x, curve, 1, i);
    }
  }

  /** The lookup succeeds and is monotone over all utilizations, whether below 0 or above 1. */
  lemma LookupMonotone(x: real, y: real, curve: seq<Point>)
    requires WellFormed(curve) && x <= y
    ensures BorrowRate(x, curve).Ok? && BorrowRate(y, curve).Ok?
    ensures BorrowRate(x, curve).value <= BorrowRate(y, curve).value
  {
    var a, b := Min(x, 1.0), Min(y, 1.0);
    var i := BracketExists(a, curve, 1);
    var j := BracketExists(b, curve, 1);
    ScanStopsAtBracket(a, curve, 1, i);
    ScanStopsAtBracket(b, curve, 1, j);
    if i == j {
      ChordMonotone(curve[i - 1], curve[i], a, b);
    } else {
      assert i < j;
      ChordMonotone(curve[i - 1], curve[i], a, curve[i].u);
      ChordMonotone(curve[j - 1], curve[j], curve[j - 1].u, b);
      assert curve[i].r <= curve[j - 1].r;
    }
  }

  /** For non-negative utilization the rate stays between the first and the last node's. */
  lemma LookupBounded(x: real, curve: seq<Point>)
    requires WellFormed(curve) && x >= 0.0
    ensures BorrowRate(x, curve).Ok?
    ensures 0.0 <= curve[0].r <= BorrowRate(x, curve).value <= curve[|curve| - 1].r
  {
    LookupMonotone(0.0, x, curve);
    LookupMonotone(x, Max(x, 1.0), curve);
    LookupIsPiecewiseLinear(0.0, curve, 1);
    LookupIsPiecewiseLinear(1.0, curve, |curve| - 1);
    assert BorrowRate(Max(x, 1.0), curve) == BorrowRate(1.0, curve);
  }

  // ----- Truncation -----

  function Scaled(p: CurvePoint): Point
  {
    Point(p.utilizationRateBps as real / ONE_HUNDRED_PCT_IN_BPS as real,
          p.borrowRateBps as real / ONE_HUNDRED_PCT_IN_BPS as real)
  }

  predicate IsFull(p: CurvePoint) { p.utilizationRateBps == ONE_HUNDRED_PCT_IN_BPS }

  /** The scaled points up to and including the first at 100%. */
  function Truncation(points: seq<CurvePoint>): seq<Point>
  {
    if points == [] then []
    else [Scaled(points[0])] + if IsFull(points[0]) then [] else Truncation(points[1..])
  }

  method TruncateBorrowCurve(points: seq<CurvePoint>) returns (curve: seq<Point>)
    ensures curve == Truncation(points)
  {
    curve := [];
    for i := 0 to |points|
      invariant Truncation(points) == curve + Truncation(points[i..])
    {
      curve := curve + [Scaled(points[i])];
      assert points[i..][0] == points[i] && points[i..][1..] == points[i + 1..];
      if IsFull(points[i]) {
        break;
      }
    }
  }

  ghost predicate HasFull(points: seq<CurvePoint>) { exists i :: 0 <= i < |points| && IsFull(points[i]) }

  lemma HasFullUnfolds(points: seq<CurvePoint>)
    requires points != []
    ensures HasFull(points) <==> IsFull(points[0]) || HasFull(points[1..])
  {
    if HasFull(points) && !IsFull(points[0]) {
      var i :| 0 <= i < |points| && IsFull(points[i]);
      assert points[1..][i - 1] == points[i];
    }
    if HasFull(points[1..]) {
      var i :| 0 <= i < |points| - 1 && IsFull(points[1..][i]);
      assert points[i + 1] == points[1..][i];
    }
  }

  lemma {:induction false} TruncationOfExtension(points: seq<CurvePoint>, more: seq<CurvePoint>)
    ensures HasFull(points) ==> Truncation(points + more) == Truncation(points)
    ensures !HasFull(points) ==> |Truncation(points)| == |points|
    ensures !HasFull(points) ==> Truncation(points + more) == Truncation(points) + Truncation(more)
  {
    hide HasFull, IsFull, Scaled, Truncation;
    if points == [] {
      TruncationUnfolds([]);
      assert points + more == more;
      assert !HasFull([]) by { EmptyHasNoFull(); }
    } else {
      TruncationOfExtension(points[1..], more);
      HasFullUnfolds(points);
      TruncationUnfolds(points);
      TruncationUnfolds(points + more);
      assert (points + more)[1..] == points[1..] + more;
      assert (points + more)[0] == points[0];
    }
  }

  lemma TruncationUnfolds(points: seq<CurvePoint>)
    ensures points == [] ==> Truncation(points) == []
    ensures points != [] ==>
              Truncation(points) == [Scaled(points[0])] + if IsFull(points[0]) then [] else Truncation(points[1..])
  {}

  lemma EmptyHasNoFull()
    ensures !HasFull([])
  {}

  /** Every truncated node is the scaled image of a stored one. */
  lemma {:induction false} TruncationMember(points: seq<CurvePoint>, k: nat) returns (j: nat)
    requires k < |Truncation(points)|
    ensures j < |points| && Truncation(points)[k] == Scaled(points[j])
  {
    if k == 0 {
      j := 0;
    } else {
      j := TruncationMember(points[1..], k - 1);
      j := j + 1;
    }
  }

  lemma {:induction false} TruncationAt(points: seq<CurvePoint>, k: nat)
    requires forall i :: 0 <= i < |points| - 1 ==> !IsFull(points[i])
    requires k < |points|
    ensures |Truncation(points)| == |points| && Truncation(points)[k] == Scaled(points[k])
  {
    if |points| > 1 {
      TruncationAt(points[1..], if k == 0 then 0 else k - 1);
    }
  }

  // ----- Padding -----

  /** The point array that `PadPoints` extends in place; an undefined entry is `None`. */
  class PointList {
    var points: seq<Option<CurvePoint>>

    constructor (initial: seq<Option<CurvePoint>>)
      ensures points == initial
    {
      points := initial;
    }

    /** Repeats the last entry up to the stored length; a list that is already too long is rejected. */
    method PadPoints() returns (r: Result<seq<Option<CurvePoint>>>)
      modifies this
      ensures r.Ok? <==> old(|points|) <= CURVE_POINTS_LENGTH
      ensures r.Ok? ==> r.value == points == PaddedEntries(old(points))
      ensures r.Err? ==> points == old(points)
    {
      if |points| > CURVE_POINTS_LENGTH {
        return Err("Invalid array length");
      }
      var last := if points == [] then None else points[|points| - 1];
      points := points + seq(CURVE_POINTS_LENGTH - |points|, i => last);
      r := Ok(points);
    }
  }

  function PaddedEntries(entries: seq<Option<CurvePoint>>): seq<Option<CurvePoint>>
    requires |entries| <= CURVE_POINTS_LENGTH
  {
    entries + seq(CURVE_POINTS_LENGTH - |entries|, i => if entries == [] then None else entries[|entries| - 1])
  }

  function Entries(points: seq<CurvePoint>): seq<Option<CurvePoint>>
  {
    seq(|points|, i requires 0 <= i < |points| => Some(points[i]))
  }

  /** Padding gives eleven points exactly for a non-empty list; an empty one becomes eleven undefined entries. */
  lemma PaddingIsDefinedIff(points: seq<CurvePoint>)
    requires |points| <= CURVE_POINTS_LENGTH
    ensures None !in PaddedEntries(Entries(points)) <==> points != []
    ensures points != [] ==> PaddedEntries(Entries(points)) == Entries(Padded(points))
  {
    if points == [] {
      assert PaddedEntries(Entries(points))[0] == None;
    }
  }

  function Padded(points: seq<CurvePoint>): seq<CurvePoint>
    requires 0 < |points| <= CURVE_POINTS_LENGTH
  {
    points + seq(CURVE_POINTS_LENGTH - |points|, i => points[|points| - 1])
  }

  /** Padding is invisible after truncation exactly when a point sits at 100% or nothing was padded. */
  lemma PaddingInvisibleIff(points: seq<CurvePoint>)
    requires 0 < |points| <= CURVE_POINTS_LENGTH
    ensures Truncation(Padded(points)) == Truncation(points) <==>
            HasFull(points) || |points| == CURVE_POINTS_LENGTH
  {
    var tail := seq(CURVE_POINTS_LENGTH - |points|, i => points[|points| - 1]);
    TruncationOfExtension(points, tail);
    if tail == [] {
      assert Padded(points) == points;
    } else if !HasFull(points) {
      assert |Truncation(tail)| >= 1;
    }
  }

  /** A stored curve that covers 0 to 100% with increasing utilizations and rates. */
  predicate WellFormedBps(points: seq<CurvePoint>)
  {
    && 2 <= |points| <= CURVE_POINTS_LENGTH
    && points[0].utilizationRateBps == 0 && IsFull(points[|points| - 1])
    && (forall i, j :: 0 <= i < j < |points| ==>
          points[i].utilizationRateBps < points[j].utilizationRateBps
          && points[i].borrowRateBps <= points[j].borrowRateBps)
  }

  /** What the reserve reads back from a padded well-formed curve is the well-formed curve itself. */
  lemma PaddedCurveReadsBack(points: seq<CurvePoint>)
    requires WellFormedBps(points)
    ensures WellFormed(Truncation(Padded(points)))
    ensures Truncation(Padded(points)) == seq(|points|, i requires 0 <= i < |points| => Scaled(points[i]))
  {
    assert HasFull(points);
    PaddingInvisibleIff(points);
    var t := Truncation(points);
    forall k: nat | k < |points| ensures |t| == |points| && t[k] == Scaled(points[k]) {
      TruncationAt(points, k);
    }
    TruncationAt(points, 0);
  }

  /** Two points up to 50% utilization come back as eleven. */
  lemma ShortCurveShowsPadding()
    ensures var points := [CurvePoint(0, 100), CurvePoint(5000, 200)];
            Truncation(Padded(points)) != Truncation(points)
  {
    var points := [CurvePoint(0, 100), CurvePoint(5000, 200)];
    assert !HasFull(points);
    PaddingInvisibleIff(points);
  }
}
