/**
  The colour of the outline drawn around the detected person: yellow while
  either analysis is missing, green when size, zone and angle all match the
  reference, orange when size or zone matches, red otherwise. The size test
  here is a strict `< 0.1`, while the guidance stays silent up to and
  including 0.1, so at exactly 0.1 the two disagree.
*/
module Overlay {
  import opened Results
  import opened Numeric
  import opened Categories
  import opened PersonDetection
  import opened Guidance

  datatype OverlayColor = Yellow | Green | Orange | Red

  /** Area ratios closer than this count as the same size for the outline. */
  const MatchTolerance: real := 0.1

  predicate RatioMatches(live: PersonAnalysis, target: PersonAnalysis)
  {
    Abs(live.bodyRatio - target.bodyRatio) < MatchTolerance
  }

  /** The outline colour; yellow exactly when one of the two analyses is missing. */
  function StrokeColor(current: Option<PersonAnalysis>, reference: Option<PersonAnalysis>): (c: OverlayColor)
    ensures c == Yellow <==> current.None? || reference.None?
  {
    if current.None? || reference.None? then Yellow
    else
      var live, target := current.value, reference.value;
      var ratioMatch := RatioMatches(live, target);
      var positionMatch := live.position == target.position;
      var angleMatch := live.shootingAngle == target.shootingAngle;
      if ratioMatch && positionMatch && angleMatch then Green
      else if ratioMatch || positionMatch then Orange
      else Red
  }

  /**
    With both analyses present, each colour is characterised by the three
    match tests: green iff all match, orange iff not all match but size or
    zone does, red iff neither size nor zone matches (the angle alone never
    lifts red).
  */
  lemma ColourCases(live: PersonAnalysis, target: PersonAnalysis)
    ensures var c := StrokeColor(Some(live), Some(target));
      var ratioMatch := RatioMatches(live, target);
      var positionMatch := live.position == target.position;
      var angleMatch := live.shootingAngle == target.shootingAngle;
      (c == Green <==> ratioMatch && positionMatch && angleMatch) &&
      (c == Orange <==> !(ratioMatch && positionMatch && angleMatch) && (ratioMatch || positionMatch)) &&
      (c == Red <==> !ratioMatch && !positionMatch) &&
      c != Yellow
  {
  }

  /** A green outline always comes with the single ready-to-shoot message. */
  lemma GreenMeansReady(live: PersonAnalysis, target: PersonAnalysis)
    requires StrokeColor(Some(live), Some(target)) == Green
    ensures Advice(Some(live), Some(target)) == [ReadyToShoot]
  {
    ReadyExactlyWhenNothingToFix(live, target);
  }

  /** Away from the 0.1 boundary, the ready-to-shoot message comes with a green outline. */
  lemma ReadyMeansGreenOffBoundary(live: PersonAnalysis, target: PersonAnalysis)
    requires Advice(Some(live), Some(target)) == [ReadyToShoot]
    requires Abs(live.bodyRatio - target.bodyRatio) != MatchTolerance
    ensures StrokeColor(Some(live), Some(target)) == Green
  {
    ReadyExactlyWhenNothingToFix(live, target);
  }

  /**
    At a size difference of exactly 0.1 (0.2 against 0.1), with zone and
    angle matching, the guidance says ready to shoot but the outline is orange.
  */
  lemma BoundaryReadyButOrange(live: PersonAnalysis, target: PersonAnalysis)
    requires live.bodyRatio == 0.2 && target.bodyRatio == 0.1
    requires live.position == target.position && live.shootingAngle == target.shootingAngle
    ensures Advice(Some(live), Some(target)) == [ReadyToShoot]
    ensures StrokeColor(Some(live), Some(target)) == Orange
  {
    ReadyExactlyWhenNothingToFix(live, target);
  }

  /**
    A red outline always comes with a reposition message and, unless the
    size difference is exactly 0.1, with a size message as well.
  */
  lemma RedMeansZoneAndSizeAdvice(live: PersonAnalysis, target: PersonAnalysis)
    requires StrokeColor(Some(live), Some(target)) == Red
    ensures var a := Advice(Some(live), Some(target));
      Reposition(target.position, live.position) in a &&
      (Abs(live.bodyRatio - target.bodyRatio) != RatioTolerance ==> (MoveCloser in a || MoveBack in a) && |a| >= 2)
  {
    ColourCases(live, target);
    SizeAdviceExactly(live, target);
    PositionAdviceExactly(live, target);
    assert PositionFix(live, target) == [Reposition(target.position, live.position)];
  }

  /**
    At a size difference of exactly 0.1 in a different zone (0.2 against
    0.1), the outline is red although the only message is about position.
  */
  lemma BoundaryRedWithoutSizeAdvice(live: PersonAnalysis, target: PersonAnalysis)
    requires live.bodyRatio == 0.2 && target.bodyRatio == 0.1
    requires live.position != target.position && live.shootingAngle == target.shootingAngle
    ensures StrokeColor(Some(live), Some(target)) == Red
    ensures Advice(Some(live), Some(target)) == [Reposition(target.position, live.position)]
  {
  }
}
