/** NeoFrame: a rounded view drawn as one fill, soft or flat, with an
    optional border stroked on top. */
module Frames {
  import opened Skia
  import opened Views
  import opened RoundedViews

  datatype ShadowDrawMode = OuterOnly | InnerOnly | All
  datatype DrawMode = Flat | Soft

  const DefaultBorderWidth := 1.0

  /** Room left around the outline: none when only the inner shadow is
      drawn, twice the blur otherwise. */
  function FramePadding(mode: ShadowDrawMode, shadowBlur: real): (pad: real)
    ensures mode == InnerOnly ==> pad == 0.0
    ensures mode != InnerOnly ==> pad == 2.0 * shadowBlur
  {
    if mode == InnerOnly then 0.0 else shadowBlur * 2.0
  }

  /** The draws of one frame: a fill without image filter, whose blur mask
      survives unless the frame is flat, then, when a border colour is set, a
      stroke of that colour and width with the same paint otherwise. */
  function FramePasses(path: seq<PathCmd>, paint: PaintState, drawMode: DrawMode,
                       borderColor: Color, borderWidth: real): seq<DrawOp>
  {
    var fill := paint.(ImageFilter := None, MaskFilter := if drawMode == Flat then None else paint.MaskFilter);
    [PathDrawn(path, fill)]
    + if borderColor != Transparent
      then [PathDrawn(path, fill.(Style := Stroke, Color := borderColor, StrokeWidth := borderWidth))]
      else []
  }

  /** One draw with a transparent border, two otherwise, all of the same
      outline; the fill has no image filter in every mode and loses its mask
      exactly when the frame is flat; the border comes after the fill. */
  lemma FramePassesOrder(path: seq<PathCmd>, paint: PaintState, drawMode: DrawMode,
                         borderColor: Color, borderWidth: real)
    ensures var ops := FramePasses(path, paint, drawMode, borderColor, borderWidth);
      && |ops| == (if borderColor == Transparent then 1 else 2)
      && (forall i :: 0 <= i < |ops| ==> ops[i].PathDrawn? && ops[i].path == path)
      && ops[0].paint.ImageFilter == None
      && (drawMode == Flat ==> ops[0].paint.MaskFilter == None)
      && (drawMode != Flat ==> ops[0].paint.MaskFilter == paint.MaskFilter)
      && ops[0].paint.Color == paint.Color && ops[0].paint.Style == paint.Style
      && (|ops| == 2 ==>
            ops[1].paint.Style == Stroke && ops[1].paint.Color == borderColor
            && ops[1].paint.StrokeWidth == borderWidth && ops[1].paint.ImageFilter == None
            && ops[1].paint.MaskFilter == ops[0].paint.MaskFilter)
  {
  }

  class NeoFrame {
    const Rounded: NeoRoundedView
    var BorderColor: Color
    var BorderWidth: real
    var DrawMode: DrawMode
    var ShadowDrawMode: ShadowDrawMode

    constructor (rounded: NeoRoundedView, drawMode: DrawMode, shadowDrawMode: ShadowDrawMode)
      ensures Rounded == rounded && DrawMode == drawMode && ShadowDrawMode == shadowDrawMode
      ensures BorderColor == Transparent && BorderWidth == DefaultBorderWidth
    {
      Rounded := rounded;
      DrawMode, ShadowDrawMode := drawMode, shadowDrawMode;
      BorderColor, BorderWidth := Transparent, DefaultBorderWidth;
    }

    /** The frame's outline for a surface: inset by the padding on every side. */
    function Outline(info: ImageInfo): seq<PathCmd>
      reads this, Rounded, Rounded.View
    {
      var pad := FramePadding(ShadowDrawMode, Rounded.View.ShadowBlur);
      RoundedRect(info.Width as real - 2.0 * pad, info.Height as real - 2.0 * pad, pad, Rounded.CornerRadius)
    }

    /** Fills the outline without image filter (and without mask when flat),
        then strokes the border when one is set; the paint is left as it was
        for the last draw. */
    method DrawControl(paint: Paint, canvas: Canvas, info: ImageInfo)
      modifies paint, canvas
      ensures canvas.Log == old(canvas.Log) + FramePasses(Outline(info), old(paint.State()), DrawMode, BorderColor, BorderWidth)
      ensures var fill := old(paint.State()).(ImageFilter := None,
                                              MaskFilter := if DrawMode == Flat then None else old(paint.MaskFilter));
              paint.State() == if BorderColor == Transparent then fill
                               else fill.(Style := Stroke, Color := BorderColor, StrokeWidth := BorderWidth)
    {
      var drawPadding := if ShadowDrawMode == InnerOnly then 0.0 else Rounded.View.ShadowBlur * 2.0;

      var diameter := drawPadding * 2.0;
      var retangleWidth := info.Width as real - diameter;
      var retangleHeight := info.Height as real - diameter;

      var path := Rounded.CreatePath(retangleWidth, retangleHeight, drawPadding);
      paint.ImageFilter := None;
      if DrawMode == Flat {
        paint.MaskFilter := None;
      }

      canvas.DrawPath(path, paint);

      if BorderColor != Transparent {
        DrawBorder(paint, canvas, path);
      }
    }

    method DrawBorder(paint: Paint, canvas: Canvas, path: Path)
      modifies paint, canvas
      ensures paint.State() == old(paint.State()).(Style := Stroke, Color := BorderColor, StrokeWidth := BorderWidth)
      ensures canvas.Log == old(canvas.Log) + [PathDrawn(path.Commands, paint.State())]
    {
      paint.Style := Stroke;
      paint.Color := BorderColor;
      paint.StrokeWidth := BorderWidth;
      canvas.DrawPath(path, paint);
    }

    /** One paint of the surface: the view prepares the paint, the frame draws. */
    method PaintSurface(canvas: Canvas, info: ImageInfo)
      modifies canvas
      ensures canvas.Log == old(canvas.Log) + [Cleared]
                + FramePasses(Outline(info), InitialPaint(Rounded.View.BaseColor, Rounded.View.ShadowBlur),
                              DrawMode, BorderColor, BorderWidth)
    {
      var paint := Rounded.View.OnCanvasViewPaintSurface(canvas);
      DrawControl(paint, canvas, info);
    }
  }

  /** A frame straight from its constructor draws no border: one fill only. */
  lemma DefaultFrameDrawsOnce(path: seq<PathCmd>, paint: PaintState, drawMode: DrawMode)
    ensures |FramePasses(path, paint, drawMode, Transparent, DefaultBorderWidth)| == 1
  {
  }

  /** From the view's initial paint, a soft frame fills with the blur of the
      shadow's sigma and a flat one with no mask at all. */
  lemma FrameFillMask(path: seq<PathCmd>, baseColor: Color, shadowBlur: real, drawMode: DrawMode,
                      borderColor: Color, borderWidth: real)
    ensures var ops := FramePasses(path, InitialPaint(baseColor, shadowBlur), drawMode, borderColor, borderWidth);
      && |ops| >= 1
      && ops[0].paint.Color == baseColor && ops[0].paint.Style == Fill
      && ops[0].paint.MaskFilter == (if drawMode == Flat then None else Some(Blur(shadowBlur)))
  {
  }
}
