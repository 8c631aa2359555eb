/**
  Shooting angle and head-to-body ratio. The head cluster is the nose and the
  two eyes, the body cluster the neck and the root, each taken from the
  detector's point set when the joint is reported at all (confidence plays
  no part here). The angle compares the average y of the two clusters with a
  deadband of 0.1; the ratio is the distance between the greatest body y and
  the least head y. A missing point set or an empty cluster gives the
  neutral fallback (unknown, 1.0).
*/
module BodyProportions {
  import opened Results
  import opened Numeric
  import opened Categories
  import opened PoseBox

  const AngleDeadband: real := 0.1
  const FallbackRatio: real := 1.0

  /** The detector's entry for a joint: the first point that carries it. */
  function Lookup(points: seq<Keypoint>, j: Joint): (r: Option<Keypoint>)
    ensures r.Some? ==> r.value in points && r.value.joint == j
    ensures r.None? <==> forall k :: k in points ==> k.joint != j
  {
    if points == [] then None
    else if points[0].joint == j then Some(points[0])
    else Lookup(points[1..], j)
  }

  /** The entries that are present, in order (`compactMap { $0 }`). */
  function Present(slots: seq<Option<Keypoint>>): (r: seq<Keypoint>)
    ensures forall k :: k in r <==> Some(k) in slots
    ensures |r| <= |slots|
  {
    if slots == [] then []
    else (if slots[0].Some? then [slots[0].value] else []) + Present(slots[1..])
  }

  /**
    `Present` is a list homomorphism: the entries kept from two runs of slots
    are those kept from the first followed by those kept from the second.
    With `Present([None]) == []` and `Present([Some(k)]) == [k]`, this pins
    it down: every present entry is kept once, in slot order.
  */
  lemma {:induction false} PresentAppend(a: seq<Option<Keypoint>>, b: seq<Option<Keypoint>>)
    ensures Present(a + b) == Present(a) + Present(b)
  {
    if a != [] {
      assert (a + b)[1..] == a[1..] + b;
      PresentAppend(a[1..], b);
    } else {
      assert a + b == b;
    }
  }

  /** No two of the points carry the same joint. */
  predicate DistinctJoints(ks: seq<Keypoint>)
  {
    forall a, b :: 0 <= a < b < |ks| ==> ks[a].joint != ks[b].joint
  }

  /** No two present slots carry the same joint. */
  predicate DistinctSlotJoints(slots: seq<Option<Keypoint>>)
  {
    forall a, b :: 0 <= a < b < |slots| && slots[a].Some? && slots[b].Some? ==>
      slots[a].value.joint != slots[b].value.joint
  }

  /** Slots whose present entries carry pairwise distinct joints keep them distinct. */
  lemma {:induction false} PresentDistinctJoints(slots: seq<Option<Keypoint>>)
    requires DistinctSlotJoints(slots)
    ensures DistinctJoints(Present(slots))
  {
    if slots != [] {
      var rest := slots[1..];
      forall a, b | 0 <= a < b < |rest| && rest[a].Some? && rest[b].Some?
        ensures rest[a].value.joint != rest[b].value.joint
      {
        assert rest[a] == slots[a + 1] && rest[b] == slots[b + 1];
      }
      PresentDistinctJoints(rest);
      var r := Present(slots);
      var tail := Present(rest);
      assert DistinctJoints(tail);
      if slots[0].Some? {
        assert r == [slots[0].value] + tail;
        forall a, b | 0 <= a < b < |r| ensures r[a].joint != r[b].joint {
          assert r[b] == tail[b - 1];
          if a == 0 {
            assert r[b] in tail;
            var c :| 0 <= c < |rest| && rest[c] == Some(r[b]);
            assert slots[c + 1] == Some(r[b]);
          } else {
            assert r[a] == tail[a - 1];
          }
        }
      } else {
        assert r == tail;
      }
    }
  }

  predicate IsHeadJoint(j: Joint)
  {
    j == Nose || j == LeftEye || j == RightEye
  }

  predicate IsBodyJoint(j: Joint)
  {
    j == Neck || j == Root
  }

  function HeadPoints(points: seq<Keypoint>): seq<Keypoint>
  {
    Present([Lookup(points, Nose), Lookup(points, LeftEye), Lookup(points, RightEye)])
  }

  function BodyPoints(points: seq<Keypoint>): seq<Keypoint>
  {
    Present([Lookup(points, Neck), Lookup(points, Root)])
  }

  /**
    The clusters hold reported head and body joints only, each joint's entry
    at most once, every reported joint's entry is in its cluster, and a
    cluster is empty exactly when none of its joints is reported.
  */
  lemma ClusterMembership(points: seq<Keypoint>)
    ensures forall k :: k in HeadPoints(points) ==> k in points && IsHeadJoint(k.joint)
    ensures forall k :: k in BodyPoints(points) ==> k in points && IsBodyJoint(k.joint)
    ensures forall j :: IsHeadJoint(j) && Lookup(points, j).Some? ==> Lookup(points, j).value in HeadPoints(points)
    ensures forall j :: IsBodyJoint(j) && Lookup(points, j).Some? ==> Lookup(points, j).value in BodyPoints(points)
    ensures DistinctJoints(HeadPoints(points)) && DistinctJoints(BodyPoints(points))
    ensures |HeadPoints(points)| <= 3 && |BodyPoints(points)| <= 2
    ensures HeadPoints(points) == [] <==> forall k :: k in points ==> !IsHeadJoint(k.joint)
    ensures BodyPoints(points) == [] <==> forall k :: k in points ==> !IsBodyJoint(k.joint)
  {
    var head := [Lookup(points, Nose), Lookup(points, LeftEye), Lookup(points, RightEye)];
    var body := [Lookup(points, Neck), Lookup(points, Root)];
    ClusterJointsDistinct(points);
    forall j | IsHeadJoint(j) && Lookup(points, j).Some? ensures Lookup(points, j).value in HeadPoints(points) {
      assert Lookup(points, j) in head;
    }
    forall j | IsBodyJoint(j) && Lookup(points, j).Some? ensures Lookup(points, j).value in BodyPoints(points) {
      assert Lookup(points, j) in body;
    }
    if HeadPoints(points) != [] {
      assert HeadPoints(points)[0] in HeadPoints(points);
    }
    if BodyPoints(points) != [] {
      assert BodyPoints(points)[0] in BodyPoints(points);
    }
  }

  /** Each cluster holds at most one entry per joint. */
  lemma ClusterJointsDistinct(points: seq<Keypoint>)
    ensures DistinctJoints(HeadPoints(points)) && DistinctJoints(BodyPoints(points))
  {
    var head := [Lookup(points, Nose), Lookup(points, LeftEye), Lookup(points, RightEye)];
    var body := [Lookup(points, Neck), Lookup(points, Root)];
    assert DistinctSlotJoints(head) by {
      assert forall a :: 0 <= a < |head| && head[a].Some? ==> head[a].value.joint == [Nose, LeftEye, RightEye][a];
    }
    assert DistinctSlotJoints(body) by {
      assert forall a :: 0 <= a < |body| && body[a].Some? ==> body[a].value.joint == [Neck, Root][a];
    }
    PresentDistinctJoints(head);
    PresentDistinctJoints(body);
  }

  /**
    With d the average head y minus the average body y: overhead above the
    deadband, low angle below it, eye level within it; never unknown.
  */
  function DetermineShootingAngle(head: seq<Keypoint>, body: seq<Keypoint>): (angle: ShootingAngle)
    requires head != [] && body != []
    ensures var d := Average(Ys(head)) - Average(Ys(body));
      (angle == Overhead <==> d > AngleDeadband) &&
      (angle == LowAngle <==> d < -AngleDeadband) &&
      (angle == EyeLevel <==> -AngleDeadband <= d <= AngleDeadband)
    ensures angle != ShootingAngle.Unknown
  {
    var yDifference := Average(Ys(head)) - Average(Ys(body));
    if yDifference > AngleDeadband then Overhead
    else if yDifference < -AngleDeadband then LowAngle
    else EyeLevel
  }

  /**
    The angle and the head-to-body ratio. `recognized` is the detector's
    point set, or None when reading it failed. The fallback (unknown, 1.0) is
    returned exactly when the point set is missing or a cluster is empty, and
    the ratio is never negative.
  */
  function AnalyzeBodyProportions(recognized: Option<seq<Keypoint>>): (r: (ShootingAngle, real))
    ensures var missing := recognized.None? || HeadPoints(recognized.value) == [] || BodyPoints(recognized.value) == [];
      (missing ==> r == (ShootingAngle.Unknown, FallbackRatio)) &&
      (r.0 == ShootingAngle.Unknown ==> missing)
    ensures r.1 >= 0.0
  {
    match recognized
    case None => (ShootingAngle.Unknown, FallbackRatio)
    case Some(points) =>
      var head := HeadPoints(points);
      var body := BodyPoints(points);
      if head == [] || body == [] then (ShootingAngle.Unknown, FallbackRatio)
      else
        var headY := Min(Ys(head));
        var bodyY := Max(Ys(body));
        (DetermineShootingAngle(head, body), Abs(bodyY - headY))
  }

  /**
    With both clusters present and d the average head y minus the average
    body y: overhead iff d > 0.1, low angle iff d < -0.1, eye level otherwise.
  */
  lemma AngleFollowsDeadband(points: seq<Keypoint>)
    requires HeadPoints(points) != [] && BodyPoints(points) != []
    ensures var d := Average(Ys(HeadPoints(points))) - Average(Ys(BodyPoints(points)));
      var angle := AnalyzeBodyProportions(Some(points)).0;
      (angle == Overhead <==> d > AngleDeadband) &&
      (angle == LowAngle <==> d < -AngleDeadband) &&
      (angle == EyeLevel <==> -AngleDeadband <= d <= AngleDeadband)
  {
  }

  /**
    The ratio is the distance between the greatest body y and the least head
    y, so it is never negative.
  */
  lemma HeadBodyRatioIsSpan(points: seq<Keypoint>)
    requires HeadPoints(points) != [] && BodyPoints(points) != []
    ensures var ratio := AnalyzeBodyProportions(Some(points)).1;
      ratio == Abs(Max(Ys(BodyPoints(points))) - Min(Ys(HeadPoints(points)))) && ratio >= 0.0
  {
  }

  /** When the head and body points lie in the unit square, the ratio is at most 1. */
  lemma HeadBodyRatioAtMostOne(points: seq<Keypoint>)
    requires HeadPoints(points) != [] && BodyPoints(points) != []
    requires forall k :: k in points && (IsHeadJoint(k.joint) || IsBodyJoint(k.joint)) ==> InUnitSquare(k)
    ensures AnalyzeBodyProportions(Some(points)).1 <= 1.0
  {
    var head, body := HeadPoints(points), BodyPoints(points);
    assert 0.0 <= Min(Ys(head)) <= 1.0 && 0.0 <= Max(Ys(body)) <= 1.0 by {
      ClusterMembership(points);
      ExtremesInUnit(head);
      ExtremesInUnit(body);
    }
    HeadBodyRatioIsSpan(points);
  }

  /**
    A low-angle verdict (average head y more than 0.1 below the average
    body y) forces the head-to-body ratio above 0.1 as well.
  */
  lemma LowAngleImpliesTallProfile(points: seq<Keypoint>)
    requires AnalyzeBodyProportions(Some(points)).0 == LowAngle
    ensures AnalyzeBodyProportions(Some(points)).1 > AngleDeadband
  {
    var head := HeadPoints(points);
    var body := BodyPoints(points);
    AverageBetween(Ys(head));
    AverageBetween(Ys(body));
  }
}
