/**
  The categorical labels of a composition analysis and the display string
  each one carries (the `description` switches of the source), plus the
  analysis error kinds and their messages. Every description map is shown to
  be injective, so a displayed label identifies its case.
*/
module Categories {

  /** Where the subject's bounding-box centre sits on a 3×3 grid. */
  datatype PersonPosition =
    | Center | Left | Right | Top | Bottom
    | TopLeft | TopRight | BottomLeft | BottomRight
  {
    function Description(): (s: string)
      ensures |s| == 2
    {
      match this
      case Center => "居中"
      case Left => "偏左"
      case Right => "偏右"
      case Top => "偏上"
      case Bottom => "偏下"
      case TopLeft => "左上"
      case TopRight => "右上"
      case BottomLeft => "左下"
      case BottomRight => "右下"
    }
  }

  datatype ShootingAngle = Overhead | EyeLevel | LowAngle | Unknown
  {
    function Description(): (s: string)
      ensures |s| == 4
    {
      match this
      case Overhead => "俯拍角度"
      case EyeLevel => "平视角度"
      case LowAngle => "仰拍角度"
      case Unknown => "角度未知"
    }
  }

  datatype LightingDirection =
    | Front | Back | Left | Right | Top | Bottom
    | FrontLeft | FrontRight | BackLeft | BackRight
    | Unknown
  {
    /** Every label names a kind of light, except the one for an unknown direction. */
    function Description(): (s: string)
      ensures |s| >= 2
      ensures s[|s| - 1] == '光' <==> !Unknown?
    {
      match this
      case Front => "正面光"
      case Back => "背光"
      case Left => "左侧光"
      case Right => "右侧光"
      case Top => "顶光"
      case Bottom => "底光"
      case FrontLeft => "左前侧光"
      case FrontRight => "右前侧光"
      case BackLeft => "左后侧光"
      case BackRight => "右后侧光"
      case Unknown => "光线方向未知"
    }

    /** One of the four directions the shadow rule can yield. */
    predicate IsCardinal()
    {
      Left? || Right? || Top? || Bottom?
    }
  }

  /** Lighting quality, best first. */
  datatype LightingQuality = Excellent | Good | Fair | Poor
  {
    /** Every label is "光线" (lighting) followed by a two-character grade. */
    function Description(): (s: string)
      ensures |s| == 4 && s[..2] == "光线"
    {
      match this
      case Excellent => "光线优秀"
      case Good => "光线良好"
      case Fair => "光线一般"
      case Poor => "光线较差"
    }

    /** Position on the scale excellent > good > fair > poor. */
    function Rank(): (r: nat)
      ensures r <= 3
    {
      match this
      case Excellent => 3
      case Good => 2
      case Fair => 1
      case Poor => 0
    }
  }

  datatype AnalysisError = InvalidImage | NoPersonDetected | NoFaceDetected | AnalysisFailure
  {
    /** The two detection failures, and only they, read "未检测到" (not detected) first. */
    function ErrorDescription(): (s: string)
      ensures |s| >= 4
      ensures NoPersonDetected? || NoFaceDetected? ==> s[..4] == "未检测到"
      ensures s[0] == '未' <==> NoPersonDetected? || NoFaceDetected?
    {
      match this
      case InvalidImage => "无效的图片"
      case NoPersonDetected => "未检测到人体"
      case NoFaceDetected => "未检测到面部"
      case AnalysisFailure => "分析失败"
    }
  }

  lemma PositionDescriptionInjective(a: PersonPosition, b: PersonPosition)
    ensures a != b ==> a.Description() != b.Description()
  {
  }

  lemma AngleDescriptionInjective(a: ShootingAngle, b: ShootingAngle)
    ensures a != b ==> a.Description() != b.Description()
  {
  }

  lemma DirectionDescriptionInjective(a: LightingDirection, b: LightingDirection)
    ensures a != b ==> a.Description() != b.Description()
  {
  }

  lemma QualityDescriptionInjective(a: LightingQuality, b: LightingQuality)
    ensures a != b ==> a.Description() != b.Description()
  {
  }

  lemma ErrorDescriptionInjective(a: AnalysisError, b: AnalysisError)
    ensures a != b ==> a.ErrorDescription() != b.ErrorDescription()
  {
  }
}
