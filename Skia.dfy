/** The drawing-surface collaborator the controls draw against: a path that
    records the commands appended to it, a paint whose fields are changed in
    place between draws, and a canvas that logs every draw together with a
    snapshot of the paint it was given. Rasterisation itself is not modelled. */
module Skia {

  datatype Option<+T> = None | Some(value: T)

  /** A point of the drawing surface (x to the right, y downwards). */
  datatype Point = Point(x: real, y: real)

  /** One command of an SKPath. `ArcTo` is the tangent-arc form used by the
      controls: a corner radius and the point the arc ends at. */
  datatype PathCmd =
    | MoveTo(p: Point)
    | LineTo(p: Point)
    | ArcTo(radius: real, p: Point)
    | Close

  /** A colour with red, green, blue and alpha components. The host framework
      clamps every component into [0, 1] when it builds a colour. */
  datatype Color = Rgba(R: real, G: real, B: real, A: real)

  /** Whether every component lies in [0, 1]. */
  predicate InGamut(c: Color)
  {
    0.0 <= c.R <= 1.0 && 0.0 <= c.G <= 1.0 && 0.0 <= c.B <= 1.0 && 0.0 <= c.A <= 1.0
  }

  /** One component as the framework stores it: clamped into [0, 1]. */
  function Clamp01(x: real): (y: real)
    ensures 0.0 <= y <= 1.0
    ensures 0.0 <= x <= 1.0 ==> y == x
    ensures x < 0.0 ==> y == 0.0
    ensures x > 1.0 ==> y == 1.0
  {
    if x < 0.0 then 0.0 else if x > 1.0 then 1.0 else x
  }

  // The host framework's named colours.
  const Transparent := Rgba(1.0, 1.0, 1.0, 0.0)
  const White := Rgba(1.0, 1.0, 1.0, 1.0)
  const Black := Rgba(0.0, 0.0, 0.0, 1.0)
  const Gray := Rgba(128.0 / 255.0, 128.0 / 255.0, 128.0 / 255.0, 1.0)
  const Red := Rgba(1.0, 0.0, 0.0, 1.0)

  /** `Color.FromRgba(c.R, c.G, c.B, alpha)`: the same colour with another
      alpha. The framework's colour constructor clamps every component, so an
      alpha above 1 (an elevation above 1) gives an opaque colour and one
      below 0 a fully transparent one. */
  function WithAlpha(c: Color, alpha: real): (r: Color)
    ensures InGamut(r)
    ensures InGamut(c) ==> r.R == c.R && r.G == c.G && r.B == c.B
    ensures 0.0 <= alpha <= 1.0 ==> r.A == alpha
    ensures alpha > 1.0 ==> r.A == 1.0
    ensures alpha < 0.0 ==> r.A == 0.0
  {
    Rgba(Clamp01(c.R), Clamp01(c.G), Clamp01(c.B), Clamp01(alpha))
  }

  datatype PaintStyle = Fill | Stroke

  /** A mask filter: the normal-style Gaussian blur of the given sigma. */
  datatype MaskFilter = Blur(sigma: real)

  /** An image filter: a drop shadow drawn alone, offset by (dx, dy). */
  datatype ImageFilter = DropShadow(dx: real, dy: real, color: Color)

  /** `ToSKDropShadow`: a shadow of the given colour offset by `distance` on both axes. */
  function ToDropShadow(shadowColor: Color, distance: real): (f: ImageFilter)
    ensures f.dx == f.dy == distance && f.color == shadowColor
  {
    DropShadow(distance, distance, shadowColor)
  }

  /** The value of every paint field at one moment. */
  datatype PaintState = PaintState(
    IsAntialias: bool,
    Color: Color,
    Style: PaintStyle,
    StrokeWidth: real,
    MaskFilter: Option<MaskFilter>,
    ImageFilter: Option<ImageFilter>)

  /** A freshly created SKPaint: no antialiasing, opaque black, fill, hairline, no filters. */
  const DefaultPaint := PaintState(false, Black, Fill, 0.0, None, None)

  class Paint {
    var IsAntialias: bool
    var Color: Color
    var Style: PaintStyle
    var StrokeWidth: real
    var MaskFilter: Option<MaskFilter>
    var ImageFilter: Option<ImageFilter>

    function State(): PaintState
      reads this
    {
      PaintState(IsAntialias, Color, Style, StrokeWidth, MaskFilter, ImageFilter)
    }

    constructor ()
      ensures State() == DefaultPaint
    {
      IsAntialias, Color, Style, StrokeWidth := false, Black, Fill, 0.0;
      MaskFilter, ImageFilter := None, None;
    }
  }

  /** An SKPath: the commands appended to it so far. */
  class Path {
    var Commands: seq<PathCmd>

    constructor ()
      ensures Commands == []
    {
      Commands := [];
    }

    method MoveTo(x: real, y: real)
      modifies this
      ensures Commands == old(Commands) + [PathCmd.MoveTo(Point(x, y))]
    {
      Commands := Commands + [PathCmd.MoveTo(Point(x, y))];
    }

    method LineTo(x: real, y: real)
      modifies this
      ensures Commands == old(Commands) + [PathCmd.LineTo(Point(x, y))]
    {
      Commands := Commands + [PathCmd.LineTo(Point(x, y))];
    }

    method ArcTo(radius: real, p: Point)
      modifies this
      ensures Commands == old(Commands) + [PathCmd.ArcTo(radius, p)]
    {
      Commands := Commands + [PathCmd.ArcTo(radius, p)];
    }

    method Close()
      modifies this
      ensures Commands == old(Commands) + [PathCmd.Close]
    {
      Commands := Commands + [PathCmd.Close];
    }
  }

  /** One operation issued to the canvas. */
  datatype DrawOp =
    | Cleared
    | PathDrawn(path: seq<PathCmd>, paint: PaintState)

  /** An SKCanvas, observed through the operations issued to it. */
  class Canvas {
    var Log: seq<DrawOp>

    constructor ()
      ensures Log == []
    {
      Log := [];
    }

    method Clear()
      modifies this
      ensures Log == old(Log) + [Cleared]
    {
      Log := Log + [Cleared];
    }

    method DrawPath(path: Path, paint: Paint)
      modifies this
      ensures Log == old(Log) + [PathDrawn(path.Commands, paint.State())]
    {
      Log := Log + [PathDrawn(path.Commands, paint.State())];
    }
  }

  /** The size of the surface being painted, in pixels. */
  datatype ImageInfo = ImageInfo(Width: int, Height: int)
}
