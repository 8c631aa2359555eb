/**
  Position classification: the centre of the subject's bounding box is placed
  on a 3×3 grid whose lines sit at 0.33 and 0.67 on each axis. The comparisons
  are strict, so a centre exactly on a line belongs to the middle band.
*/
module Position {
  import opened Geometry
  import opened Categories

  const LowerThreshold: real := 0.33
  const UpperThreshold: real := 0.67

  /** A band of one axis: below the lower line, between the lines, above the upper line. */
  datatype Band = Low | Middle | High

  function BandOf(c: real): (b: Band)
    ensures b == Low <==> c < LowerThreshold
    ensures b == High <==> c > UpperThreshold
    ensures b == Middle <==> LowerThreshold <= c <= UpperThreshold
  {
    if c < LowerThreshold then Low else if c > UpperThreshold then High else Middle
  }

  /** The vertical band a zone occupies (Low is the row the source labels top). */
  function RowOf(p: PersonPosition): Band
  {
    match p
    case TopLeft | Top | TopRight => Low
    case Left | Center | Right => Middle
    case BottomLeft | Bottom | BottomRight => High
  }

  /** The horizontal band a zone occupies. */
  function ColumnOf(p: PersonPosition): Band
  {
    match p
    case TopLeft | Left | BottomLeft => Low
    case Top | Center | Bottom => Middle
    case TopRight | Right | BottomRight => High
  }

  /** The zone at a row and a column of the grid. */
  function ZoneAt(row: Band, column: Band): (p: PersonPosition)
    ensures RowOf(p) == row && ColumnOf(p) == column
  {
    match (row, column)
    case (Low, Low) => TopLeft
    case (Low, Middle) => PersonPosition.Top
    case (Low, High) => TopRight
    case (Middle, Low) => PersonPosition.Left
    case (Middle, Middle) => Center
    case (Middle, High) => PersonPosition.Right
    case (High, Low) => BottomLeft
    case (High, Middle) => PersonPosition.Bottom
    case (High, High) => BottomRight
  }

  /** The grid has exactly the nine zones: each zone is the one at its own row and column. */
  lemma GridCoversEveryZone(p: PersonPosition)
    ensures ZoneAt(RowOf(p), ColumnOf(p)) == p
  {
  }

  /**
    Rows are decided by the centre's y, columns by its x, each with the
    strict 0.33 / 0.67 tests.
  */
  function DeterminePersonPosition(box: Rect): (p: PersonPosition)
    ensures RowOf(p) == BandOf(box.MidY())
    ensures ColumnOf(p) == BandOf(box.MidX())
  {
    var centerX := box.MidX();
    var centerY := box.MidY();
    if centerY < LowerThreshold then
      if centerX < LowerThreshold then TopLeft
      else if centerX > UpperThreshold then TopRight
      else PersonPosition.Top
    else if centerY > UpperThreshold then
      if centerX < LowerThreshold then BottomLeft
      else if centerX > UpperThreshold then BottomRight
      else PersonPosition.Bottom
    else
      if centerX < LowerThreshold then PersonPosition.Left
      else if centerX > UpperThreshold then PersonPosition.Right
      else Center
  }

  /** A centre exactly on a grid line falls in the middle band of that axis. */
  lemma BoundaryCentreIsMiddle(box: Rect)
    ensures box.MidX() == LowerThreshold || box.MidX() == UpperThreshold ==>
      ColumnOf(DeterminePersonPosition(box)) == Middle
    ensures box.MidY() == LowerThreshold || box.MidY() == UpperThreshold ==>
      RowOf(DeterminePersonPosition(box)) == Middle
  {
  }

  /** Two boxes with the same centre get the same zone. */
  lemma PositionDependsOnlyOnCentre(a: Rect, b: Rect)
    requires a.MidX() == b.MidX() && a.MidY() == b.MidY()
    ensures DeterminePersonPosition(a) == DeterminePersonPosition(b)
  {
    GridCoversEveryZone(DeterminePersonPosition(a));
    GridCoversEveryZone(DeterminePersonPosition(b));
  }
}
