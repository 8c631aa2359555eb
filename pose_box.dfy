/**
  Body keypoints as the pose detector reports them, and the bounding box
  derived from them: keypoints with confidence above 0.3 are kept, their
  extent is padded by 0.1 on every side and clamped to the unit square. When
  the detector's point set cannot be read, or no point clears the threshold,
  the box is the fixed default (0.25, 0.25, 0.5, 0.5).
*/
module PoseBox {
  import opened Results
  import opened Numeric
  import opened Geometry

  /** The joints the body-pose detector names. */
  datatype Joint =
    | Nose | LeftEye | RightEye | LeftEar | RightEar
    | Neck | LeftShoulder | RightShoulder | LeftElbow | RightElbow
    | LeftWrist | RightWrist | Root | LeftHip | RightHip
    | LeftKnee | RightKnee | LeftAnkle | RightAnkle

  /** One recognized point: its joint, normalized location and confidence. */
  datatype Keypoint = Keypoint(joint: Joint, x: real, y: real, confidence: real)

  const ConfidenceThreshold: real := 0.3
  const Padding: real := 0.1
  const DefaultBox: Rect := Rect(0.25, 0.25, 0.5, 0.5)

  predicate Qualifies(k: Keypoint)
  {
    k.confidence > ConfidenceThreshold
  }

  predicate InUnitSquare(k: Keypoint)
  {
    0.0 <= k.x <= 1.0 && 0.0 <= k.y <= 1.0
  }

  /** The points that clear the confidence threshold, in their original order. */
  function ValidPoints(points: seq<Keypoint>): (r: seq<Keypoint>)
    ensures forall k :: k in r <==> k in points && Qualifies(k)
    ensures |r| <= |points|
  {
    if points == [] then []
    else (if Qualifies(points[0]) then [points[0]] else []) + ValidPoints(points[1..])
  }

  /** Filtering distributes over concatenation. */
  lemma {:induction false} ValidPointsAppend(a: seq<Keypoint>, b: seq<Keypoint>)
    ensures ValidPoints(a + b) == ValidPoints(a) + ValidPoints(b)
  {
    if a != [] {
      var head := if Qualifies(a[0]) then [a[0]] else [];
      assert (a + b)[0] == a[0];
      assert (a + b)[1..] == a[1..] + b;
      ValidPointsAppend(a[1..], b);
      calc {
        ValidPoints(a + b);
        head + ValidPoints(a[1..] + b);
        head + (ValidPoints(a[1..]) + ValidPoints(b));
        (head + ValidPoints(a[1..])) + ValidPoints(b);
        ValidPoints(a) + ValidPoints(b);
      }
    } else {
      assert a + b == b;
    }
  }

  /** A list without a qualifying point filters to nothing. */
  lemma {:induction false} NoQualifyingPoint(points: seq<Keypoint>)
    requires forall k :: k in points ==> !Qualifies(k)
    ensures ValidPoints(points) == []
  {
    if points != [] {
      assert points[0] in points;
      assert forall k :: k in points[1..] ==> k in points;
      NoQualifyingPoint(points[1..]);
    }
  }

  function Xs(points: seq<Keypoint>): (xs: seq<real>)
    ensures |xs| == |points|
  {
    seq(|points|, i requires 0 <= i < |points| => points[i].x)
  }

  function Ys(points: seq<Keypoint>): (ys: seq<real>)
    ensures |ys| == |points|
  {
    seq(|points|, i requires 0 <= i < |points| => points[i].y)
  }

  /**
    The padded, clamped extent of a non-empty set of points: its near edges
    are never below 0, its far edges never beyond 1, and it encloses each of
    the points that lies in the unit square.
  */
  function PaddedExtent(valid: seq<Keypoint>): (box: Rect)
    requires valid != []
    ensures 0.0 <= box.x && box.x + box.w <= 1.0 && 0.0 <= box.y && box.y + box.h <= 1.0
    ensures forall k :: k in valid && InUnitSquare(k) ==> Encloses(box, k)
  {
    AllCoordinateBounds(valid);
    var minX := Min(Xs(valid));
    var maxX := Max(Xs(valid));
    var minY := Min(Ys(valid));
    var maxY := Max(Ys(valid));
    var expandedMinX := Max2(0.0, minX - Padding);
    var expandedMinY := Max2(0.0, minY - Padding);
    var expandedMaxX := Min2(1.0, maxX + Padding);
    var expandedMaxY := Min2(1.0, maxY + Padding);
    Rect(expandedMinX, expandedMinY, expandedMaxX - expandedMinX, expandedMaxY - expandedMinY)
  }

  /**
    The body box. `recognized` is the detector's point set, or None when
    reading it failed. Whatever the points, the box's near edges are never
    below 0 and its far edges never beyond 1, and it encloses every
    qualifying point that lies in the unit square.
  */
  function BoundingBoxFromPose(recognized: Option<seq<Keypoint>>): (box: Rect)
    ensures 0.0 <= box.x && box.x + box.w <= 1.0 && 0.0 <= box.y && box.y + box.h <= 1.0
    ensures recognized.None? ==> box == DefaultBox
    ensures recognized.Some? ==>
      forall k :: k in recognized.value && Qualifies(k) && InUnitSquare(k) ==> Encloses(box, k)
  {
    match recognized
    case None => DefaultBox
    case Some(points) =>
      var valid := ValidPoints(points);
      if valid == [] then DefaultBox else PaddedExtent(valid)
  }

  /** Without any qualifying point the box is the default one. */
  lemma NoValidPointGivesDefaultBox(points: seq<Keypoint>)
    requires forall k :: k in points ==> !Qualifies(k)
    ensures BoundingBoxFromPose(Some(points)) == DefaultBox
  {
    NoQualifyingPoint(points);
  }

  /** Removing a point at or below the confidence threshold leaves the qualifying points unchanged. */
  lemma LowConfidencePointFiltered(before: seq<Keypoint>, k: Keypoint, after: seq<Keypoint>)
    requires !Qualifies(k)
    ensures ValidPoints(before + [k] + after) == ValidPoints(before + after)
  {
    ValidPointsAppend(before + [k], after);
    ValidPointsAppend(before, [k]);
    ValidPointsAppend(before, after);
    assert ValidPoints([k]) == [] + ValidPoints([k][1..]);
    assert ValidPoints(before + [k]) == ValidPoints(before);
  }

  /** A point at or below the confidence threshold, wherever it stands, does not move the box. */
  lemma LowConfidencePointIgnored(before: seq<Keypoint>, k: Keypoint, after: seq<Keypoint>)
    requires !Qualifies(k)
    ensures BoundingBoxFromPose(Some(before + [k] + after)) == BoundingBoxFromPose(Some(before + after))
  {
    LowConfidencePointFiltered(before, k, after);
  }

  /** The box's four edges, in absolute coordinates. */
  predicate Encloses(box: Rect, k: Keypoint)
  {
    box.x <= k.x <= box.x + box.w && box.y <= k.y <= box.y + box.h
  }

  predicate WithinUnitSquare(box: Rect)
  {
    0.0 <= box.x && 0.0 <= box.w && box.x + box.w <= 1.0 &&
    0.0 <= box.y && 0.0 <= box.h && box.y + box.h <= 1.0
  }

  lemma CoordinateBounds(valid: seq<Keypoint>, k: Keypoint)
    requires k in valid
    ensures Min(Xs(valid)) <= k.x <= Max(Xs(valid))
    ensures Min(Ys(valid)) <= k.y <= Max(Ys(valid))
  {
    var i :| 0 <= i < |valid| && valid[i] == k;
    assert Xs(valid)[i] == k.x && Ys(valid)[i] == k.y;
  }

  lemma AllCoordinateBounds(valid: seq<Keypoint>)
    requires valid != []
    ensures forall k :: k in valid ==> Min(Xs(valid)) <= k.x <= Max(Xs(valid)) && Min(Ys(valid)) <= k.y <= Max(Ys(valid))
  {
    forall k | k in valid
      ensures Min(Xs(valid)) <= k.x <= Max(Xs(valid)) && Min(Ys(valid)) <= k.y <= Max(Ys(valid))
    {
      CoordinateBounds(valid, k);
    }
  }

  lemma ExtremesInUnit(valid: seq<Keypoint>)
    requires valid != []
    requires forall k :: k in valid ==> InUnitSquare(k)
    ensures 0.0 <= Min(Xs(valid)) <= Max(Xs(valid)) <= 1.0
    ensures 0.0 <= Min(Ys(valid)) <= Max(Ys(valid)) <= 1.0
  {
    var i :| 0 <= i < |valid| && Xs(valid)[i] == Min(Xs(valid));
    var j :| 0 <= j < |valid| && Xs(valid)[j] == Max(Xs(valid));
    var m :| 0 <= m < |valid| && Ys(valid)[m] == Min(Ys(valid));
    var n :| 0 <= n < |valid| && Ys(valid)[n] == Max(Ys(valid));
    assert valid[i] in valid && valid[j] in valid && valid[m] in valid && valid[n] in valid;
  }

  /**
    The edges of `box` are the padded, clamped extremes of `points`: each
    near edge is at or before every point's clamped `coordinate - 0.1`, each
    far edge at or after every point's clamped `coordinate + 0.1`, and some
    point attains each edge. This pins the box down exactly.
  */
  predicate PaddedExtremes(box: Rect, points: seq<Keypoint>)
  {
    (forall k :: k in points ==>
      box.x <= Max2(0.0, k.x - Padding) && Min2(1.0, k.x + Padding) <= box.x + box.w &&
      box.y <= Max2(0.0, k.y - Padding) && Min2(1.0, k.y + Padding) <= box.y + box.h) &&
    (exists k :: k in points && box.x == Max2(0.0, k.x - Padding)) &&
    (exists k :: k in points && box.x + box.w == Min2(1.0, k.x + Padding)) &&
    (exists k :: k in points && box.y == Max2(0.0, k.y - Padding)) &&
    (exists k :: k in points && box.y + box.h == Min2(1.0, k.y + Padding))
  }

  /** The extent is exactly the extremes padded by 0.1 and clamped to [0, 1]. */
  lemma PaddedExtentIsTight(valid: seq<Keypoint>)
    requires valid != []
    ensures PaddedExtremes(PaddedExtent(valid), valid)
  {
    AllCoordinateBounds(valid);
    var i :| 0 <= i < |valid| && Xs(valid)[i] == Min(Xs(valid));
    var j :| 0 <= j < |valid| && Xs(valid)[j] == Max(Xs(valid));
    var m :| 0 <= m < |valid| && Ys(valid)[m] == Min(Ys(valid));
    var n :| 0 <= n < |valid| && Ys(valid)[n] == Max(Ys(valid));
    assert valid[i] in valid && valid[j] in valid && valid[m] in valid && valid[n] in valid;
  }

  /**
    With at least one qualifying point, the body box is exactly the padded,
    clamped extent of the qualifying points.
  */
  lemma PoseBoxIsTight(points: seq<Keypoint>)
    requires exists k :: k in points && Qualifies(k)
    ensures PaddedExtremes(BoundingBoxFromPose(Some(points)), ValidPoints(points))
  {
    var k :| k in points && Qualifies(k);
    assert k in ValidPoints(points);
    PaddedExtentIsTight(ValidPoints(points));
  }

  /**
    When every qualifying point lies in the unit square, the box lies in the
    unit square, has non-negative width and height, and encloses every
    qualifying point.
  */
  lemma BoxEnclosesValidPoints(points: seq<Keypoint>)
    requires forall k :: k in points && Qualifies(k) ==> InUnitSquare(k)
    ensures WithinUnitSquare(BoundingBoxFromPose(Some(points)))
    ensures forall k :: k in points && Qualifies(k) ==> Encloses(BoundingBoxFromPose(Some(points)), k)
  {
    var valid := ValidPoints(points);
    if valid != [] {
      ExtremesInUnit(valid);
    }
  }

  /** The area of a box inside the unit square is at most one. */
  lemma UnitBoxArea(box: Rect)
    requires WithinUnitSquare(box)
    ensures 0.0 <= box.Area() <= 1.0
  {
    assert box.Width() == box.w && box.Height() == box.h;
    ProductOfUnits(box.w, box.h);
  }

  /**
    Points outside the unit square are outside what the box rule was made
    for: a single qualifying point at x = 5 gives a box of negative stored
    width, since the far edge is clamped to 1 and the near one is not.
  */
  lemma OutOfRangePointGivesInvertedBox()
    ensures BoundingBoxFromPose(Some([Keypoint(Nose, 5.0, 0.5, 0.9)])).w < 0.0
  {
    var valid := ValidPoints([Keypoint(Nose, 5.0, 0.5, 0.9)]);
    assert valid == [Keypoint(Nose, 5.0, 0.5, 0.9)];
    assert Xs(valid) == [5.0];
  }
}
