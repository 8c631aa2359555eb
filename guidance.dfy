/**
  Camera guidance: the ordered suggestions produced by comparing a live
  analysis with an optional reference. The suggestions are first described
  as typed values (`Advice`), each rendered to the exact guidance string the
  app shows; rendering is injective, so the list of strings determines the
  list of suggestions. `GenerateCameraSuggestions` builds the strings step by
  step, as the app does, and is proved to produce the rendering of `Advice`.
*/
module Guidance {
  import opened Results
  import opened Numeric
  import opened Categories
  import opened Decimal
  import opened PersonDetection

  /** Area ratios closer than this produce no size advice. */
  const RatioTolerance: real := 0.1

  const SubjectMissingText: string := "未检测到人体，请调整相机角度"
  const MoveCloserText: string := "人物太小，请靠近一些或放大画面"
  const MoveBackText: string := "人物太大，请后退一些或缩小画面"
  const RepositionPrefix: string := "调整位置：目标位置为"
  const RepositionInfix: string := "，当前为"
  const AdjustAnglePrefix: string := "调整拍摄角度：目标角度为"
  const PositionInfoPrefix: string := "已检测到人体，位置："
  const AngleInfoPrefix: string := "当前角度："
  const RatioInfoPrefix: string := "人体占比："
  const RatioInfoSuffix: string := "%"
  const ReadyText: string := "构图很好，可以拍摄了！"

  datatype Suggestion =
    | SubjectMissing
    | MoveCloser
    | MoveBack
    | Reposition(targetPosition: PersonPosition, currentPosition: PersonPosition)
    | AdjustAngle(targetAngle: ShootingAngle)
    | PositionInfo(position: PersonPosition)
    | AngleInfo(angle: ShootingAngle)
    | RatioInfo(percent: int)
    | ReadyToShoot
  {
    /** A suggestion that asks the user to change the shot. */
    predicate IsCorrective()
    {
      MoveCloser? || MoveBack? || Reposition? || AdjustAngle?
    }

    /** The category's place in the fixed emission order; the two size messages share one. */
    function Rank(): nat
    {
      match this
      case SubjectMissing => 0
      case MoveCloser | MoveBack => 1
      case Reposition(_, _) => 2
      case AdjustAngle(_) => 3
      case PositionInfo(_) => 4
      case AngleInfo(_) => 5
      case RatioInfo(_) => 6
      case ReadyToShoot => 7
    }

    /** The guidance string shown for this suggestion; it opens with the kind's four-character head. */
    function Render(): (s: string)
      ensures |s| >= 4 && s[..4] == Head()
    {
      match this
      case SubjectMissing => SubjectMissingText
      case MoveCloser => MoveCloserText
      case MoveBack => MoveBackText
      case Reposition(target, current) =>
        RepositionPrefix + target.Description() + RepositionInfix + current.Description()
      case AdjustAngle(target) => AdjustAnglePrefix + target.Description()
      case PositionInfo(position) => PositionInfoPrefix + position.Description()
      case AngleInfo(angle) => AngleInfoPrefix + angle.Description()
      case RatioInfo(percent) => RatioInfoPrefix + IntToString(percent) + RatioInfoSuffix
      case ReadyToShoot => ReadyText
    }

    /** The first four characters of the rendering, which tell the kinds apart. */
    function Head(): string
    {
      match this
      case SubjectMissing => "未检测到"
      case MoveCloser => "人物太小"
      case MoveBack => "人物太大"
      case Reposition(_, _) => "调整位置"
      case AdjustAngle(_) => "调整拍摄"
      case PositionInfo(_) => "已检测到"
      case AngleInfo(_) => "当前角度"
      case RatioInfo(_) => "人体占比"
      case ReadyToShoot => "构图很好"
    }
  }

  function RenderAll(suggestions: seq<Suggestion>): (texts: seq<string>)
    ensures |texts| == |suggestions|
    ensures forall i :: 0 <= i < |suggestions| ==> texts[i] == suggestions[i].Render()
  {
    seq(|suggestions|, i requires 0 <= i < |suggestions| => suggestions[i].Render())
  }

  /**
    The body-ratio percentage as the app prints it, `Int(bodyRatio * 100)`:
    the hundredfold ratio truncated toward zero, so a ratio in [0, 1] prints
    as 0 to 100.
  */
  function Percent(bodyRatio: real): (p: int)
    ensures bodyRatio >= 0.0 ==> p as real <= bodyRatio * 100.0 < p as real + 1.0
    ensures bodyRatio < 0.0 ==> p as real - 1.0 < bodyRatio * 100.0 <= p as real
    ensures 0.0 <= bodyRatio <= 1.0 ==> 0 <= p <= 100
  {
    TruncateToInt(bodyRatio * 100.0)
  }

  function RatioFix(current: PersonAnalysis, reference: PersonAnalysis): seq<Suggestion>
  {
    if Abs(current.bodyRatio - reference.bodyRatio) > RatioTolerance then
      if current.bodyRatio < reference.bodyRatio then [MoveCloser] else [MoveBack]
    else []
  }

  function PositionFix(current: PersonAnalysis, reference: PersonAnalysis): seq<Suggestion>
  {
    if current.position != reference.position then [Reposition(reference.position, current.position)] else []
  }

  function AngleFix(current: PersonAnalysis, reference: PersonAnalysis): seq<Suggestion>
  {
    if current.shootingAngle != reference.shootingAngle then [AdjustAngle(reference.shootingAngle)] else []
  }

  /**
    The suggestions for a live analysis (None when no person was found)
    against an optional reference: never empty, at most three, and in
    strictly increasing category order, so at most one per category and
    always size, then position, then angle.
  */
  function Advice(current: Option<PersonAnalysis>, reference: Option<PersonAnalysis>): (r: seq<Suggestion>)
    ensures 1 <= |r| <= 3
    ensures forall i, j :: 0 <= i < j < |r| ==> r[i].Rank() < r[j].Rank()
  {
    match current
    case None => [SubjectMissing]
    case Some(live) =>
      match reference
      case None => [PositionInfo(live.position), AngleInfo(live.shootingAngle), RatioInfo(Percent(live.bodyRatio))]
      case Some(target) =>
        var fixes := RatioFix(live, target) + PositionFix(live, target) + AngleFix(live, target);
        if fixes == [] then [ReadyToShoot] else fixes
  }

  method GenerateCameraSuggestions(current: Option<PersonAnalysis>, reference: Option<PersonAnalysis>)
    returns (suggestions: seq<string>)
    ensures suggestions == RenderAll(Advice(current, reference))
    ensures 1 <= |suggestions| <= 3
  {
    suggestions := [];

    if current.None? {
      suggestions := suggestions + [SubjectMissing.Render()];
      return;
    }
    var live := current.value;

    if reference.Some? {
      var target := reference.value;

      var ratioDifference := Abs(live.bodyRatio - target.bodyRatio);
      if ratioDifference > RatioTolerance {
        if live.bodyRatio < target.bodyRatio {
          suggestions := suggestions + [MoveCloser.Render()];
        } else {
          suggestions := suggestions + [MoveBack.Render()];
        }
      }

      if live.position != target.position {
        suggestions := suggestions + [Reposition(target.position, live.position).Render()];
      }

      if live.shootingAngle != target.shootingAngle {
        suggestions := suggestions + [AdjustAngle(target.shootingAngle).Render()];
      }
    } else {
      suggestions := suggestions + [PositionInfo(live.position).Render()];
      suggestions := suggestions + [AngleInfo(live.shootingAngle).Render()];
      suggestions := suggestions + [RatioInfo(Percent(live.bodyRatio)).Render()];
    }

    if |suggestions| == 0 {
      suggestions := suggestions + [ReadyToShoot.Render()];
    }
  }

  /** The no-subject message appears exactly when there is no live analysis, and then alone. */
  lemma SubjectMissingExactlyWithoutSubject(current: Option<PersonAnalysis>, reference: Option<PersonAnalysis>)
    ensures SubjectMissing in Advice(current, reference) <==> current.None?
    ensures current.None? ==> Advice(current, reference) == [SubjectMissing]
  {
  }

  /**
    Without a reference the output is the three informational lines
    (position, angle, percentage) in that order, and nothing corrective.
  */
  lemma InformationalWithoutReference(live: PersonAnalysis)
    ensures var a := Advice(Some(live), None);
      a == [PositionInfo(live.position), AngleInfo(live.shootingAngle), RatioInfo(Percent(live.bodyRatio))] &&
      forall s :: s in a ==> !s.IsCorrective()
  {
  }

  /**
    Size advice appears exactly when the ratios differ by more than 0.1; it
    asks to move closer exactly when the live ratio is the smaller one.
  */
  lemma SizeAdviceExactly(live: PersonAnalysis, target: PersonAnalysis)
    ensures var a := Advice(Some(live), Some(target));
      var difference := Abs(live.bodyRatio - target.bodyRatio);
      (MoveCloser in a <==> difference > RatioTolerance && live.bodyRatio < target.bodyRatio) &&
      (MoveBack in a <==> difference > RatioTolerance && live.bodyRatio > target.bodyRatio)
  {
  }

  /** A difference of exactly 0.1 produces no size advice. */
  lemma ToleranceBoundaryGivesNoSizeAdvice(live: PersonAnalysis, target: PersonAnalysis)
    requires Abs(live.bodyRatio - target.bodyRatio) == RatioTolerance
    ensures MoveCloser !in Advice(Some(live), Some(target))
    ensures MoveBack !in Advice(Some(live), Some(target))
  {
  }

  /**
    Position advice appears exactly when the zones differ, and names the
    reference zone as the target and the live zone as the current one.
  */
  lemma PositionAdviceExactly(live: PersonAnalysis, target: PersonAnalysis)
    ensures var a := Advice(Some(live), Some(target));
      (Reposition(target.position, live.position) in a <==> live.position != target.position) &&
      (forall s :: s in a && s.Reposition? ==> s == Reposition(target.position, live.position))
  {
  }

  /** Angle advice appears exactly when the angles differ, and names the reference angle. */
  lemma AngleAdviceExactly(live: PersonAnalysis, target: PersonAnalysis)
    ensures var a := Advice(Some(live), Some(target));
      (AdjustAngle(target.shootingAngle) in a <==> live.shootingAngle != target.shootingAngle) &&
      (forall s :: s in a && s.AdjustAngle? ==> s == AdjustAngle(target.shootingAngle))
  {
  }

  /**
    Against a reference, the output is the single affirmation exactly when
    no check fires; otherwise every entry is corrective.
  */
  lemma ReadyExactlyWhenNothingToFix(live: PersonAnalysis, target: PersonAnalysis)
    ensures var a := Advice(Some(live), Some(target));
      var allMatch := Abs(live.bodyRatio - target.bodyRatio) <= RatioTolerance &&
        live.position == target.position && live.shootingAngle == target.shootingAngle;
      (a == [ReadyToShoot] <==> allMatch) &&
      (!allMatch ==> forall s :: s in a ==> s.IsCorrective())
  {
    var fixes := RatioFix(live, target) + PositionFix(live, target) + AngleFix(live, target);
    assert forall s :: s in fixes ==> s.IsCorrective();
    assert ReadyToShoot !in fixes;
  }

  /** Strings that differ in an equally long segment after a common prefix differ. */
  lemma SegmentDiffers(prefix: string, x: string, y: string, restX: string, restY: string)
    requires |x| == |y| && x != y
    ensures prefix + x + restX != prefix + y + restY
  {
    var k :| 0 <= k < |x| && x[k] != y[k];
    assert (prefix + x + restX)[|prefix| + k] == x[k];
    assert (prefix + y + restY)[|prefix| + k] == y[k];
  }

  /** Suggestions of different kinds start with different text. */
  lemma HeadDistinguishes(a: Suggestion, b: Suggestion)
    requires a.Head() != b.Head()
    ensures a.Render() != b.Render()
  {
  }

  lemma RepositionRenderInjective(a: Suggestion, b: Suggestion)
    requires a.Reposition? && b.Reposition? && a != b
    ensures a.Render() != b.Render()
  {
    var ta, ca := a.targetPosition.Description(), a.currentPosition.Description();
    var tb, cb := b.targetPosition.Description(), b.currentPosition.Description();
    if a.targetPosition != b.targetPosition {
      PositionDescriptionInjective(a.targetPosition, b.targetPosition);
      assert a.Render() == RepositionPrefix + ta + (RepositionInfix + ca);
      assert b.Render() == RepositionPrefix + tb + (RepositionInfix + cb);
      SegmentDiffers(RepositionPrefix, ta, tb, RepositionInfix + ca, RepositionInfix + cb);
    } else {
      PositionDescriptionInjective(a.currentPosition, b.currentPosition);
      var prefix := RepositionPrefix + ta + RepositionInfix;
      assert a.Render() == prefix + ca + [];
      assert b.Render() == prefix + cb + [];
      SegmentDiffers(prefix, ca, cb, [], []);
    }
  }

  lemma AngleRenderInjective(a: Suggestion, b: Suggestion)
    requires (a.AdjustAngle? && b.AdjustAngle?) || (a.AngleInfo? && b.AngleInfo?)
    requires a != b
    ensures a.Render() != b.Render()
  {
    var prefix := if a.AdjustAngle? then AdjustAnglePrefix else AngleInfoPrefix;
    var x := if a.AdjustAngle? then a.targetAngle else a.angle;
    var y := if a.AdjustAngle? then b.targetAngle else b.angle;
    AngleDescriptionInjective(x, y);
    assert a.Render() == prefix + x.Description() + [];
    assert b.Render() == prefix + y.Description() + [];
    SegmentDiffers(prefix, x.Description(), y.Description(), [], []);
  }

  lemma PositionInfoRenderInjective(a: Suggestion, b: Suggestion)
    requires a.PositionInfo? && b.PositionInfo? && a != b
    ensures a.Render() != b.Render()
  {
    PositionDescriptionInjective(a.position, b.position);
    assert a.Render() == PositionInfoPrefix + a.position.Description() + [];
    assert b.Render() == PositionInfoPrefix + b.position.Description() + [];
    SegmentDiffers(PositionInfoPrefix, a.position.Description(), b.position.Description(), [], []);
  }

  lemma RatioInfoRenderInjective(a: Suggestion, b: Suggestion)
    requires a.RatioInfo? && b.RatioInfo? && a != b
    ensures a.Render() != b.Render()
  {
    var x, y := IntToString(a.percent), IntToString(b.percent);
    IntToStringInjective(a.percent, b.percent);
    if |x| == |y| {
      SegmentDiffers(RatioInfoPrefix, x, y, RatioInfoSuffix, RatioInfoSuffix);
    } else {
      assert |a.Render()| == |RatioInfoPrefix| + |x| + 1;
      assert |b.Render()| == |RatioInfoPrefix| + |y| + 1;
    }
  }

  /** Distinct suggestions are shown as distinct strings. */
  lemma RenderInjective(a: Suggestion, b: Suggestion)
    ensures a != b ==> a.Render() != b.Render()
  {
    if a == b {
    } else if a.Reposition? && b.Reposition? {
      RepositionRenderInjective(a, b);
    } else if (a.AdjustAngle? && b.AdjustAngle?) || (a.AngleInfo? && b.AngleInfo?) {
      AngleRenderInjective(a, b);
    } else if a.PositionInfo? && b.PositionInfo? {
      PositionInfoRenderInjective(a, b);
    } else if a.RatioInfo? && b.RatioInfo? {
      RatioInfoRenderInjective(a, b);
    } else {
      HeadDistinguishes(a, b);
    }
  }

  /** The list of strings determines the list of suggestions. */
  lemma RenderAllInjective(xs: seq<Suggestion>, ys: seq<Suggestion>)
    ensures xs != ys ==> RenderAll(xs) != RenderAll(ys)
  {
    if |xs| == |ys| && xs != ys {
      var i :| 0 <= i < |xs| && xs[i] != ys[i];
      RenderInjective(xs[i], ys[i]);
      assert RenderAll(xs)[i] != RenderAll(ys)[i];
    }
  }

  /** Without a live analysis the only string is the no-subject message. */
  lemma NoSubjectText(reference: Option<PersonAnalysis>)
    ensures RenderAll(Advice(None, reference)) == ["未检测到人体，请调整相机角度"]
  {
  }

  /** A live ratio of 0.10 against 0.25, with zone and angle equal, asks only to move closer. */
  lemma TooSmallScenario(live: PersonAnalysis, target: PersonAnalysis)
    requires live.bodyRatio == 0.10 && target.bodyRatio == 0.25
    requires live.position == target.position && live.shootingAngle == target.shootingAngle
    ensures RenderAll(Advice(Some(live), Some(target))) == ["人物太小，请靠近一些或放大画面"]
  {
  }

  /** A live subject on the left of a centred reference, otherwise matching, asks only to reposition. */
  lemma LeftOfCentreScenario(live: PersonAnalysis, target: PersonAnalysis)
    requires live.position == PersonPosition.Left && target.position == Center
    requires live.bodyRatio == target.bodyRatio && live.shootingAngle == target.shootingAngle
    ensures RenderAll(Advice(Some(live), Some(target))) == ["调整位置：目标位置为居中，当前为偏左"]
  {
    var advice := Advice(Some(live), Some(target));
    assert advice == [Reposition(Center, PersonPosition.Left)];
    assert Reposition(Center, PersonPosition.Left).Render() == "调整位置：目标位置为居中，当前为偏左";
  }
}
