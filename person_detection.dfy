/**
  The keypoint-to-analysis pipeline of person detection: from the body-pose
  request's outcome to a `PersonAnalysis` (box, then area ratio, then
  position, then angle and head-to-body ratio), or a typed error when the
  image is unreadable or no body was observed.
*/
module PersonDetection {
  import opened Results
  import opened Geometry
  import opened Categories
  import opened Position
  import opened PoseBox
  import opened BodyProportions

  datatype PersonAnalysis = PersonAnalysis(
    boundingBox: Rect,
    bodyRatio: real,
    position: PersonPosition,
    shootingAngle: ShootingAngle,
    headBodyRatio: real)

  /** One body observation; its point set is None when it could not be read. */
  datatype PoseObservation = PoseObservation(recognized: Option<seq<Keypoint>>)

  /** What the body-pose request produced for an image. */
  datatype PoseRequest =
    | UnreadableImage
    | PoseResults(observations: seq<PoseObservation>)

  /**
    The analysis of one observation: the pose box, its area as the body
    ratio (never negative), the zone holding the box centre, and the angle
    and head-to-body ratio of the same point set.
  */
  function AnalyzePose(observation: PoseObservation): (a: PersonAnalysis)
    ensures a.boundingBox == BoundingBoxFromPose(observation.recognized)
    ensures a.bodyRatio == a.boundingBox.Area() && a.bodyRatio >= 0.0
    ensures RowOf(a.position) == BandOf(a.boundingBox.MidY())
    ensures ColumnOf(a.position) == BandOf(a.boundingBox.MidX())
    ensures (a.shootingAngle, a.headBodyRatio) == AnalyzeBodyProportions(observation.recognized)
    ensures a.headBodyRatio >= 0.0
  {
    var boundingBox := BoundingBoxFromPose(observation.recognized);
    var bodyRatio := boundingBox.Area();
    var position := DeterminePersonPosition(boundingBox);
    var proportions := AnalyzeBodyProportions(observation.recognized);
    PersonAnalysis(boundingBox, bodyRatio, position, proportions.0, proportions.1)
  }

  /** The first observation is analysed; the others are ignored. */
  function DetectPersonInImage(request: PoseRequest): (r: Result<PersonAnalysis, AnalysisError>)
    ensures r.Err? <==> request.UnreadableImage? || request.observations == []
    ensures request.UnreadableImage? ==> r == Err(InvalidImage)
    ensures request.PoseResults? && request.observations == [] ==> r == Err(NoPersonDetected)
    ensures r.Ok? ==> r.value == AnalyzePose(request.observations[0])
  {
    match request
    case UnreadableImage => Err(InvalidImage)
    case PoseResults(observations) =>
      if observations == [] then Err(NoPersonDetected) else Ok(AnalyzePose(observations[0]))
  }

  /**
    An observation without a qualifying point, or without a readable point
    set, is still a detected person: the default box, a body ratio of 0.25
    and the centre zone.
  */
  lemma NoValidPointGivesCentredDefault(observation: PoseObservation)
    requires observation.recognized.Some? ==>
      forall k :: k in observation.recognized.value ==> !Qualifies(k)
    ensures var a := AnalyzePose(observation);
      a.boundingBox == DefaultBox && a.bodyRatio == 0.25 && a.position == Center
  {
    if observation.recognized.Some? {
      NoValidPointGivesDefaultBox(observation.recognized.value);
    }
    assert DefaultBox.Area() == 0.25 && DeterminePersonPosition(DefaultBox) == Center by {
      assert DefaultBox.Width() == 0.5 && DefaultBox.Height() == 0.5;
      assert BandOf(DefaultBox.MidX()) == Middle && BandOf(DefaultBox.MidY()) == Middle;
      GridCoversEveryZone(Center);
    }
  }

  /**
    When every qualifying point lies in the unit square, the analysed box
    lies in the unit square, encloses those points, and the body ratio is
    in [0, 1].
  */
  lemma NormalizedPointsGiveNormalizedAnalysis(points: seq<Keypoint>)
    requires forall k :: k in points && Qualifies(k) ==> InUnitSquare(k)
    ensures var a := AnalyzePose(PoseObservation(Some(points)));
      WithinUnitSquare(a.boundingBox) &&
      (forall k :: k in points && Qualifies(k) ==> Encloses(a.boundingBox, k)) &&
      0.0 <= a.bodyRatio <= 1.0
  {
    var box := BoundingBoxFromPose(Some(points));
    BoxEnclosesValidPoints(points);
    UnitBoxArea(box);
  }
}
