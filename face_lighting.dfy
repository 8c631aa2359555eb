/**
  Face lighting: the shadow estimate for a face box (a fixed-geometry
  placeholder, one rectangle derived from the face box), the lighting
  direction read from the first shadow's offset to the face centre, and the
  lighting quality as a step function of total shadow area over face area.
*/
module FaceLighting {
  import opened Results
  import opened Numeric
  import opened Geometry
  import opened Categories

  datatype FaceAnalysis = FaceAnalysis(
    boundingBox: Rect,
    shadowAreas: seq<Rect>,
    lightingDirection: LightingDirection,
    lightingQuality: LightingQuality)

  /** What the face-rectangle request produced for an image. */
  datatype FaceRequest =
    | UnreadableFaceImage
    | FaceResults(faces: seq<Rect>)

  const ShadowOffsetX: real := 0.1
  const ShadowOffsetY: real := 0.2
  const ShadowWidthFactor: real := 0.3
  const ShadowHeightFactor: real := 0.4

  const ExcellentBelow: real := 0.1
  const GoodBelow: real := 0.2
  const FairBelow: real := 0.4

  /** The placeholder shadow estimate: always one rectangle, offset by (0.1, 0.2) from the face's near corner and scaled by (0.3, 0.4). */
  function FaceShadows(faceBox: Rect): (shadows: seq<Rect>)
    ensures |shadows| == 1
    ensures shadows[0].Width() == ShadowWidthFactor * faceBox.Width()
    ensures shadows[0].Height() == ShadowHeightFactor * faceBox.Height()
    ensures shadows[0].Area() == 0.12 * faceBox.Area()
  {
    [Rect(faceBox.MinX() + ShadowOffsetX, faceBox.MinY() + ShadowOffsetY,
          faceBox.Width() * ShadowWidthFactor, faceBox.Height() * ShadowHeightFactor)]
  }

  method AnalyzeFaceShadows(faceBox: Rect) returns (shadowAreas: seq<Rect>)
    ensures shadowAreas == FaceShadows(faceBox)
    ensures |shadowAreas| == 1
  {
    shadowAreas := [];
    shadowAreas := shadowAreas + [Rect(
      faceBox.MinX() + ShadowOffsetX,
      faceBox.MinY() + ShadowOffsetY,
      faceBox.Width() * ShadowWidthFactor,
      faceBox.Height() * ShadowHeightFactor)];
  }

  /** The direction a shadow's offset from the face centre indicates. */
  function LightDirection(shadow: Rect, faceBox: Rect): (d: LightingDirection)
    ensures d.IsCardinal()
  {
    var deltaX := shadow.MidX() - faceBox.MidX();
    var deltaY := shadow.MidY() - faceBox.MidY();
    if Abs(deltaX) > Abs(deltaY) then (if deltaX > 0.0 then LightingDirection.Left else LightingDirection.Right)
    else (if deltaY > 0.0 then LightingDirection.Top else LightingDirection.Bottom)
  }

  /** Sum of the shadow areas, folded left as `reduce(0) { $0 + $1.width * $1.height }`. */
  function TotalArea(shadows: seq<Rect>): (a: real)
    ensures a >= 0.0
  {
    if shadows == [] then 0.0
    else TotalArea(shadows[..|shadows| - 1]) + shadows[|shadows| - 1].Area()
  }

  /** The step function on the shadow-to-face area ratio: each quality owns one interval. */
  function QualityFor(shadowRatio: real): (q: LightingQuality)
    ensures q == Excellent <==> shadowRatio < ExcellentBelow
    ensures q == Good <==> ExcellentBelow <= shadowRatio < GoodBelow
    ensures q == Fair <==> GoodBelow <= shadowRatio < FairBelow
    ensures q == Poor <==> FairBelow <= shadowRatio
  {
    if shadowRatio < ExcellentBelow then Excellent
    else if shadowRatio < GoodBelow then Good
    else if shadowRatio < FairBelow then Fair
    else Poor
  }

  /**
    Quality from the total shadow area and the face area. For a face of zero
    area the floating-point ratio is infinite (or not a number when the shadow
    area is zero too); every `<` test fails on either, so the result is poor.
  */
  function QualityOf(shadowArea: real, faceArea: real): (q: LightingQuality)
    ensures faceArea == 0.0 ==> q == Poor
    ensures faceArea > 0.0 ==>
      (q == Excellent <==> shadowArea < ExcellentBelow * faceArea) &&
      (q == Good <==> ExcellentBelow * faceArea <= shadowArea < GoodBelow * faceArea) &&
      (q == Fair <==> GoodBelow * faceArea <= shadowArea < FairBelow * faceArea) &&
      (q == Poor <==> FairBelow * faceArea <= shadowArea)
  {
    if faceArea == 0.0 then Poor
    else
      if faceArea > 0.0 then
        QuotientBelow(shadowArea, faceArea, ExcellentBelow);
        QuotientBelow(shadowArea, faceArea, GoodBelow);
        QuotientBelow(shadowArea, faceArea, FairBelow);
        QualityFor(shadowArea / faceArea)
      else QualityFor(shadowArea / faceArea)
  }

  /**
    Direction and quality for a list of shadows on a face: frontal and
    excellent exactly when there is no shadow; otherwise a cardinal direction
    read from the first shadow and the quality of the total shadow area.
  */
  function Lighting(shadowAreas: seq<Rect>, faceBox: Rect): (r: (LightingDirection, LightingQuality))
    ensures r.0 == Front <==> shadowAreas == []
    ensures shadowAreas == [] ==> r == (Front, Excellent)
    ensures shadowAreas != [] ==>
      r.0.IsCardinal() && r.0 == LightDirection(shadowAreas[0], faceBox) &&
      r.1 == QualityOf(TotalArea(shadowAreas), faceBox.Area())
  {
    if shadowAreas == [] then (Front, Excellent)
    else (LightDirection(shadowAreas[0], faceBox), QualityOf(TotalArea(shadowAreas), faceBox.Area()))
  }

  method AnalyzeLighting(shadowAreas: seq<Rect>, faceBox: Rect)
    returns (direction: LightingDirection, quality: LightingQuality)
    ensures (direction, quality) == Lighting(shadowAreas, faceBox)
    ensures shadowAreas != [] ==> direction.IsCardinal()
  {
    if shadowAreas == [] {
      return Front, Excellent;
    }
    var shadowCenter := shadowAreas[0];
    var faceCenterX, faceCenterY := faceBox.MidX(), faceBox.MidY();
    var deltaX := shadowCenter.MidX() - faceCenterX;
    var deltaY := shadowCenter.MidY() - faceCenterY;

    direction := LightingDirection.Unknown;
    if Abs(deltaX) > Abs(deltaY) {
      direction := if deltaX > 0.0 then LightingDirection.Left else LightingDirection.Right;
    } else {
      direction := if deltaY > 0.0 then LightingDirection.Top else LightingDirection.Bottom;
    }

    var faceArea := faceBox.Area();
    if faceArea == 0.0 {
      quality := Poor;
    } else {
      var shadowRatio := TotalArea(shadowAreas) / faceArea;
      if shadowRatio < ExcellentBelow {
        quality := Excellent;
      } else if shadowRatio < GoodBelow {
        quality := Good;
      } else if shadowRatio < FairBelow {
        quality := Fair;
      } else {
        quality := Poor;
      }
    }
  }

  /** The first face found is analysed with the placeholder shadow estimate. */
  function AnalyzeFaceInImage(request: FaceRequest): (r: Result<FaceAnalysis, AnalysisError>)
    ensures r.Err? <==> request.UnreadableFaceImage? || request.faces == []
    ensures request.UnreadableFaceImage? ==> r == Err(InvalidImage)
    ensures request.FaceResults? && request.faces == [] ==> r == Err(NoFaceDetected)
    ensures r.Ok? ==> r.value.boundingBox == request.faces[0]
    ensures r.Ok? ==> r.value.shadowAreas == FaceShadows(request.faces[0])
    ensures r.Ok? ==>
      (r.value.lightingDirection, r.value.lightingQuality) == Lighting(r.value.shadowAreas, request.faces[0])
  {
    match request
    case UnreadableFaceImage => Err(InvalidImage)
    case FaceResults(faces) =>
      if faces == [] then Err(NoFaceDetected)
      else
        var boundingBox := faces[0];
        var shadowAreas := FaceShadows(boundingBox);
        var lighting := Lighting(shadowAreas, boundingBox);
        Ok(FaceAnalysis(boundingBox, shadowAreas, lighting.0, lighting.1))
  }

  /** With no shadow the light is frontal and excellent, whatever the face box. */
  lemma NoShadowIsFrontExcellent(faceBox: Rect, otherBox: Rect)
    ensures Lighting([], faceBox) == (Front, Excellent)
    ensures Lighting([], faceBox) == Lighting([], otherBox)
  {
  }

  /**
    The direction depends on the first shadow only, and is one of left,
    right, top and bottom: front, back, the diagonals and unknown are never
    produced once a shadow exists.
  */
  lemma DirectionFromFirstShadowOnly(shadowAreas: seq<Rect>, others: seq<Rect>, faceBox: Rect)
    requires shadowAreas != []
    ensures Lighting(shadowAreas, faceBox).0 == Lighting([shadowAreas[0]] + others, faceBox).0
    ensures Lighting(shadowAreas, faceBox).0.IsCardinal()
  {
  }

  /**
    With dx, dy the offset of the shadow centre from the face centre: left iff
    the offset is mostly horizontal and dx > 0, right iff mostly horizontal and
    dx < 0, top iff |dx| <= |dy| and dy > 0, bottom iff |dx| <= |dy| and dy <= 0.
    A tie goes to the vertical test, and a zero offset gives bottom.
  */
  lemma DirectionCases(shadow: Rect, faceBox: Rect)
    ensures var dx := shadow.MidX() - faceBox.MidX();
      var dy := shadow.MidY() - faceBox.MidY();
      var d := LightDirection(shadow, faceBox);
      (d == LightingDirection.Left <==> Abs(dx) > Abs(dy) && dx > 0.0) &&
      (d == LightingDirection.Right <==> Abs(dx) > Abs(dy) && dx < 0.0) &&
      (d == LightingDirection.Top <==> Abs(dx) <= Abs(dy) && dy > 0.0) &&
      (d == LightingDirection.Bottom <==> Abs(dx) <= Abs(dy) && dy <= 0.0) &&
      (dx == 0.0 && dy == 0.0 ==> d == LightingDirection.Bottom)
  {
  }

  /** For a face of positive area the quality is the step function of the area ratio. */
  lemma QualityThresholds(shadowArea: real, faceArea: real)
    requires faceArea > 0.0
    ensures var ratio := shadowArea / faceArea;
      var q := QualityOf(shadowArea, faceArea);
      (q == Excellent <==> ratio < ExcellentBelow) &&
      (q == Good <==> ExcellentBelow <= ratio < GoodBelow) &&
      (q == Fair <==> GoodBelow <= ratio < FairBelow) &&
      (q == Poor <==> FairBelow <= ratio)
  {
  }

  /** A larger shadow ratio never gives a better quality. */
  lemma QualityMonotone(lower: real, higher: real)
    requires lower <= higher
    ensures QualityFor(higher).Rank() <= QualityFor(lower).Rank()
  {
  }

  /** On a given face, more shadow area never gives a better quality. */
  lemma MoreShadowNeverBetter(smaller: real, larger: real, faceArea: real)
    requires 0.0 <= smaller <= larger
    requires faceArea >= 0.0
    ensures QualityOf(larger, faceArea).Rank() <= QualityOf(smaller, faceArea).Rank()
  {
    if faceArea > 0.0 {
      assert (larger / faceArea - smaller / faceArea) * faceArea == larger - smaller;
      QualityMonotone(smaller / faceArea, larger / faceArea);
    }
  }

  /** Reporting one more shadow region never improves the lighting quality. */
  lemma ExtraShadowNeverImproves(shadowAreas: seq<Rect>, extra: Rect, faceBox: Rect)
    requires shadowAreas != []
    ensures Lighting(shadowAreas + [extra], faceBox).1.Rank() <= Lighting(shadowAreas, faceBox).1.Rank()
    ensures Lighting(shadowAreas + [extra], faceBox).0 == Lighting(shadowAreas, faceBox).0
  {
    var more := shadowAreas + [extra];
    assert more[..|more| - 1] == shadowAreas;
    assert TotalArea(more) == TotalArea(shadowAreas) + extra.Area();
    MoreShadowNeverBetter(TotalArea(shadowAreas), TotalArea(more), faceBox.Area());
  }

  /**
    With the placeholder estimate the shadow covers 0.12 of the face, so every
    face of positive area is rated good, and a face of zero area poor.
  */
  lemma PlaceholderShadowRatesGood(faceBox: Rect)
    ensures var q := Lighting(FaceShadows(faceBox), faceBox).1;
      (faceBox.Area() > 0.0 ==> q == Good) && (faceBox.Area() == 0.0 ==> q == Poor)
  {
    var shadows := FaceShadows(faceBox);
    assert shadows[..0] == [];
    assert TotalArea(shadows) == 0.12 * faceBox.Area();
    if faceBox.Area() > 0.0 {
      ScaledQuotient(0.12, faceBox.Area());
    }
  }

  /** A face analysis carries one shadow, a cardinal direction, and the quality the placeholder fixes. */
  lemma FaceAnalysisFromPlaceholder(request: FaceRequest)
    requires AnalyzeFaceInImage(request).Ok?
    ensures var a := AnalyzeFaceInImage(request).value;
      |a.shadowAreas| == 1 && a.lightingDirection.IsCardinal() &&
      a.lightingQuality == (if a.boundingBox.Area() > 0.0 then Good else Poor)
  {
    PlaceholderShadowRatesGood(request.faces[0]);
  }
}
