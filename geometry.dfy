/**
  Rectangles in normalized image coordinates, with the accessors the analysis
  uses. As in Core Graphics, a rectangle stores an origin and a size whose
  components may be negative; `Width()` and `Height()` report the standardized
  (non-negative) extent, `MinX()` the smaller x edge, and `MidX()` the centre.
*/
module Geometry {
  import opened Numeric

  datatype Rect = Rect(x: real, y: real, w: real, h: real)
  {
    function Width(): (r: real)
      ensures r >= 0.0 && (r == w || r == -w)
    {
      Abs(w)
    }

    function Height(): (r: real)
      ensures r >= 0.0 && (r == h || r == -h)
    {
      Abs(h)
    }

    function MinX(): (r: real)
      ensures r <= x && r <= x + w
      ensures r == x || r == x + w
    {
      Min2(x, x + w)
    }

    function MinY(): (r: real)
      ensures r <= y && r <= y + h
      ensures r == y || r == y + h
    {
      Min2(y, y + h)
    }

    function MidX(): (r: real)
      ensures r == MinX() + Width() / 2.0
    {
      x + w / 2.0
    }

    function MidY(): (r: real)
      ensures r == MinY() + Height() / 2.0
    {
      y + h / 2.0
    }

    function Area(): (r: real)
      ensures r >= 0.0
    {
      Width() * Height()
    }
  }
}
