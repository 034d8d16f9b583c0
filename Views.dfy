/** NeoView: the shadow parameters every control shares, the colour swap that
    turns the framework's background colour into the control's base colour,
    the paint every draw starts from, and the dark/light/plain three-pass
    composite that the button and the progress track use. */
module Views {
  import opened Skia

  const BackgroundColorPropertyName := "BackgroundColor"

  /** The paint `OnCanvasViewPaintSurface` hands to `DrawControl`. */
  function InitialPaint(baseColor: Color, shadowBlur: real): (p: PaintState)
    ensures p.IsAntialias && p.Color == baseColor && p.Style == Fill
    ensures p.MaskFilter == Some(Blur(shadowBlur)) && p.ImageFilter == None
    ensures p.StrokeWidth == DefaultPaint.StrokeWidth
  {
    DefaultPaint.(IsAntialias := true, Color := baseColor, Style := Fill, MaskFilter := Some(Blur(shadowBlur)))
  }

  /** The neumorphic composite: the outline drawn with a dark shadow pushed
      by +distance, again with a light shadow pushed by -distance, and a
      third time with both filters cleared so the surface sits on top. */
  function ShadowPasses(path: seq<PathCmd>, paint: PaintState, dark: Color, light: Color, distance: real): seq<DrawOp>
  {
    [ PathDrawn(path, paint.(ImageFilter := Some(ToDropShadow(dark, distance)))),
      PathDrawn(path, paint.(ImageFilter := Some(ToDropShadow(light, -distance)))),
      PathDrawn(path, paint.(ImageFilter := None, MaskFilter := None)) ]
  }

  /** What the three passes are: three draws of the same outline; only the
      image filter differs between the first two and the incoming paint, with
      the dark shadow at (+d, +d) and the light one at (-d, -d); the last has
      neither image nor mask filter and keeps every other field. */
  lemma ShadowPassesOrder(path: seq<PathCmd>, paint: PaintState, dark: Color, light: Color, d: real)
    ensures var ops := ShadowPasses(path, paint, dark, light, d);
      && |ops| == 3
      && (forall i :: 0 <= i < 3 ==> ops[i].PathDrawn? && ops[i].path == path)
      && (forall i :: 0 <= i < 3 ==>
            ops[i].paint.Color == paint.Color && ops[i].paint.Style == paint.Style
            && ops[i].paint.StrokeWidth == paint.StrokeWidth && ops[i].paint.IsAntialias == paint.IsAntialias)
      && ops[0].paint.ImageFilter == Some(DropShadow(d, d, dark)) && ops[0].paint.MaskFilter == paint.MaskFilter
      && ops[1].paint.ImageFilter == Some(DropShadow(-d, -d, light)) && ops[1].paint.MaskFilter == paint.MaskFilter
      && ops[2].paint.ImageFilter == None && ops[2].paint.MaskFilter == None
  {
  }

  /** Issues the three passes on the shared paint, changing only its filters. */
  method DrawShadowPasses(paint: Paint, canvas: Canvas, path: Path, dark: Color, light: Color, distance: real)
    modifies paint, canvas
    ensures canvas.Log == old(canvas.Log) + ShadowPasses(path.Commands, old(paint.State()), dark, light, distance)
    ensures paint.State() == old(paint.State()).(ImageFilter := None, MaskFilter := None)
  {
    paint.ImageFilter := Some(ToDropShadow(dark, distance));
    canvas.DrawPath(path, paint);

    paint.ImageFilter := Some(ToDropShadow(light, -distance));
    canvas.DrawPath(path, paint);

    paint.ImageFilter := None;
    paint.MaskFilter := None;
    canvas.DrawPath(path, paint);
  }

  class NeoView {
    var ShadowBlur: real
    var Elevation: real
    var ShadowDistance: real
    var LightShadowColor: Color
    var DarkShadowColor: Color
    var BaseColor: Color
    /** The framework's background colour, absorbed into BaseColor. */
    var BackgroundColor: Color
    /** Property names passed on to the framework's change notification. */
    var Notified: seq<string>
    /** How many times the surface was invalidated by a property change. */
    var Invalidations: nat

    /** The dark shadow colour with the elevation as its alpha. */
    function DarkShadow(): Color
      reads this
    {
      WithAlpha(DarkShadowColor, Elevation)
    }

    constructor (backgroundColor: Color)
      ensures ShadowBlur == 10.0 && Elevation == 0.6 && ShadowDistance == 9.0
      ensures LightShadowColor == White && DarkShadowColor == Black && BaseColor == Gray
      ensures BackgroundColor == backgroundColor && Notified == [] && Invalidations == 0
    {
      ShadowBlur, Elevation, ShadowDistance := 10.0, 0.6, 9.0;
      LightShadowColor, DarkShadowColor, BaseColor := White, Black, Gray;
      BackgroundColor, Notified, Invalidations := backgroundColor, [], 0;
    }

    /** A property changed. While a background colour is set, the change is
        passed on, a change of BackgroundColor itself invalidates the surface,
        and the colour moves to BaseColor leaving the background transparent.
        With a transparent background nothing at all happens. */
    method OnPropertyChanged(propertyName: string)
      modifies this
      ensures old(BackgroundColor) == Transparent ==>
                BaseColor == old(BaseColor) && BackgroundColor == Transparent
                && Notified == old(Notified) && Invalidations == old(Invalidations)
      ensures old(BackgroundColor) != Transparent ==>
                BaseColor == old(BackgroundColor) && BackgroundColor == Transparent
                && Notified == old(Notified) + [propertyName]
                && Invalidations == old(Invalidations) + (if propertyName == BackgroundColorPropertyName then 1 else 0)
      ensures ShadowBlur == old(ShadowBlur) && Elevation == old(Elevation) && ShadowDistance == old(ShadowDistance)
      ensures LightShadowColor == old(LightShadowColor) && DarkShadowColor == old(DarkShadowColor)
    {
      if BackgroundColor != Transparent {
        Notified := Notified + [propertyName];
        if propertyName == BackgroundColorPropertyName {
          Invalidations := Invalidations + 1;
        }
        BaseColor := BackgroundColor;
        BackgroundColor := Transparent;
      }
    }

    /** Clears the canvas and prepares the paint for `DrawControl`. */
    method OnCanvasViewPaintSurface(canvas: Canvas) returns (paint: Paint)
      modifies canvas
      ensures fresh(paint)
      ensures paint.State() == InitialPaint(BaseColor, ShadowBlur)
      ensures canvas.Log == old(canvas.Log) + [Cleared]
    {
      canvas.Clear();
      paint := new Paint();
      paint.IsAntialias := true;
      paint.Color := BaseColor;
      paint.Style := Fill;
      paint.MaskFilter := Some(Blur(ShadowBlur));
    }
  }

  /** The colour swap settles at once: after one change the background is
      transparent, so a second change leaves the base colour alone. */
  method SwapSettles(view: NeoView, first: string, second: string)
    requires view.BackgroundColor != Transparent
    modifies view
    ensures view.BaseColor == old(view.BackgroundColor) && view.BackgroundColor == Transparent
    ensures view.Notified == old(view.Notified) + [first]
  {
    view.OnPropertyChanged(first);
    view.OnPropertyChanged(second);
  }
}
