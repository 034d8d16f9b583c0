/** NeoProgressView: a capsule-shaped track drawn with the three-pass shadow
    composite, and a bar filled inside it whose leading edge follows the
    progress and whose leading cap is rounded by the "inverted progress". */
module ProgressViews {
  import opened Skia
  import opened Geometry
  import opened Views

  const DefaultProgress := 0.4
  const DefaultThickness := 5.0

  /** The error raised for a progress target outside [0, 1]. */
  datatype Error = ArgumentOutOfRange
  datatype Outcome = Pass | Fail(error: Error)
  datatype Result<T> = Ok(value: T) | Err(error: Error)

  /** The range check done before a progress animation starts. */
  function EnsureProgressRange(progress: real): (o: Outcome)
    ensures o == Pass <==> 0.0 <= progress <= 1.0
    ensures o != Pass ==> o == Fail(ArgumentOutOfRange)
  {
    if progress > 1.0 || progress < 0.0 then Fail(ArgumentOutOfRange) else Pass
  }

  /** A progress animation towards `toValue`: at time t in [0, 1] the progress
      is t * toValue. */
  datatype ProgressAnimation = ProgressAnimation(toValue: real) {
    function ValueAt(t: real): real
    {
      t * toValue
    }
  }

  /** Either an animation towards toValue, or, when toValue lies outside
      [0, 1], the range error and no animation at all. Every intermediate
      value of an accepted animation is itself in [0, 1]; it starts at 0 and
      ends at toValue. */
  function ProgressAnimationTo(toValue: real): (r: Result<ProgressAnimation>)
    ensures r.Err? <==> (toValue > 1.0 || toValue < 0.0)
    ensures r.Err? ==> r.error == ArgumentOutOfRange
    ensures r.Ok? ==> r.value.toValue == toValue && r.value.ValueAt(0.0) == 0.0 && r.value.ValueAt(1.0) == toValue
    ensures r.Ok? ==> forall t :: 0.0 <= t <= 1.0 ==> 0.0 <= r.value.ValueAt(t) <= 1.0
  {
    match EnsureProgressRange(toValue)
    case Fail(e) => Err(e)
    case Pass =>
      var a := ProgressAnimation(toValue);
      assert forall t :: 0.0 <= t <= 1.0 ==> 0.0 <= a.ValueAt(t) <= 1.0 by {
        forall t | 0.0 <= t <= 1.0
          ensures 0.0 <= a.ValueAt(t) <= 1.0
        {
          ScaledStaysInUnit(t, toValue);
        }
      }
      Ok(a)
  }

  lemma ScaledStaysInUnit(t: real, v: real)
    requires 0.0 <= t <= 1.0 && 0.0 <= v <= 1.0
    ensures 0.0 <= t * v <= v
  {
  }

  /** The factor applied to the bar's leading corner radius: 0 up to half
      progress, then 2 - (1 - (1 - p) / 0.5), which is 3 - 2p and falls from
      just under 2 to 1 as p goes from just above 0.5 to 1. */
  function InvertedProgress(p: real): (r: real)
    ensures p <= 0.5 ==> r == 0.0
    ensures p > 0.5 ==> r == 3.0 - 2.0 * p
    ensures 0.5 < p <= 1.0 ==> 1.0 <= r < 2.0
    ensures p == 1.0 ==> r == 1.0
  {
    if p <= 0.5 then 0.0 else 2.0 - (1.0 - ((1.0 - p) / 0.5))
  }

  /** The progress used for the bar's length: never below 0.01, so the bar
      never collapses to nothing, and the progress itself from 0.01 on. */
  function MinProgress(p: real): (r: real)
    ensures r >= 0.01 && r >= p
    ensures p >= 0.01 ==> r == p
    ensures p < 0.01 ==> r == 0.01
  {
    if 0.01 >= p then 0.01 else p
  }

  /** Where the bar's leading edge stands. */
  function BarLeadingX(w: real, r: real, pad: real, p: real): real
  {
    (w - r) * MinProgress(p) + pad
  }

  /** With w >= r and progress in [0, 1], the leading edge moves right as
      the progress grows and never passes the track's right cap at w - r + pad. */
  lemma BarLeadingXMonotone(w: real, r: real, pad: real, p1: real, p2: real)
    requires w >= r && 0.0 <= p1 <= p2 <= 1.0
    ensures BarLeadingX(w, r, pad, p1) <= BarLeadingX(w, r, pad, p2) <= w - r + pad
  {
    LeadingXOrdered(w, r, pad, p1, p2);
    LeadingXAtMost(w, r, pad, p2);
  }

  lemma LeadingXOrdered(w: real, r: real, pad: real, p1: real, p2: real)
    requires w >= r && p1 <= p2
    ensures BarLeadingX(w, r, pad, p1) <= BarLeadingX(w, r, pad, p2)
  {
    var k, m1, m2 := w - r, MinProgress(p1), MinProgress(p2);
    assert m1 <= m2;
    calc {
      BarLeadingX(w, r, pad, p2) - BarLeadingX(w, r, pad, p1);
      k * m2 - k * m1;
      k * (m2 - m1);
    >= { NonNegativeProduct(k, m2 - m1); }
      0.0;
    }
  }

  lemma LeadingXAtMost(w: real, r: real, pad: real, p: real)
    requires w >= r && p <= 1.0
    ensures BarLeadingX(w, r, pad, p) <= w - r + pad
  {
    var k, m := w - r, MinProgress(p);
    assert 1.0 - m >= 0.0;
    calc {
      w - r + pad - BarLeadingX(w, r, pad, p);
      k - k * m;
      k * (1.0 - m);
    >= { NonNegativeProduct(k, 1.0 - m); }
      0.0;
    }
  }

  /** The two caps of the track: the right one from its top to its bottom,
      the left one from its bottom back to its top. */
  function TrackBends(pad: real, w: real, h: real, r: real): seq<Bend>
  {
    [ Bend(Point(w - r + pad, pad), Point(w - r + pad, h + pad), r),
      Bend(Point(r + pad, h + pad), Point(r + pad, pad), r) ]
  }

  /** The bar: its leading cap at the progress position, with the radius
      scaled by the inverted progress, then the track's own left cap. */
  function BarBends(pad: real, w: real, h: real, r: real, p: real): seq<Bend>
  {
    var x := BarLeadingX(w, r, pad, p);
    [ Bend(Point(x, pad), Point(x, h + pad), r * InvertedProgress(p)),
      Bend(Point(r + pad, h + pad), Point(r + pad, pad), r) ]
  }

  function StrokePath(pad: real, w: real, h: real, r: real): seq<PathCmd>
  {
    Contour(TrackBends(pad, w, h, r))
  }

  function BarPath(pad: real, w: real, h: real, r: real, p: real): seq<PathCmd>
  {
    Contour(BarBends(pad, w, h, r, p))
  }

  lemma TwoBendContour(b: seq<Bend>)
    requires |b| == 2
    ensures Contour(b) == [ MoveTo(b[1].exit),
                            LineTo(b[0].entry), ArcTo(b[0].radius, b[0].exit),
                            LineTo(b[1].entry), ArcTo(b[1].radius, b[1].exit),
                            Close ]
  {
    EdgesAt(b, 0);
    EdgesAt(b, 1);
  }

  /** Six commands starting and ending at (r + pad, pad); the first arc ends
      at (w - r + pad, h + pad), straight below where the top edge ended. */
  lemma StrokePathShape(pad: real, w: real, h: real, r: real)
    ensures var c := StrokePath(pad, w, h, r);
      && |c| == 6
      && c[0] == MoveTo(Point(r + pad, pad))
      && c[1] == LineTo(Point(w - r + pad, pad))
      && c[2] == ArcTo(r, Point(w - r + pad, h + pad))
      && c[3] == LineTo(Point(r + pad, h + pad))
      && c[4] == ArcTo(r, c[0].p)
      && c[5] == Close
  {
    TwoBendContour(TrackBends(pad, w, h, r));
  }

  /** The bar path, in order: move to (r + pad, pad), line to (x, pad), arc of
      radius r * InvertedProgress(p) to (x, h + pad), line to (r + pad, h + pad),
      arc of radius r back to the start, close; x is the leading edge. */
  lemma BarPathShape(pad: real, w: real, h: real, r: real, p: real)
    ensures var c := BarPath(pad, w, h, r, p); var x := (w - r) * MinProgress(p) + pad;
      && |c| == 6
      && c[0] == MoveTo(Point(r + pad, pad))
      && c[1] == LineTo(Point(x, pad))
      && c[2] == ArcTo(r * InvertedProgress(p), Point(x, h + pad))
      && c[3] == LineTo(Point(r + pad, h + pad))
      && c[4] == ArcTo(r, c[0].p)
      && c[5] == Close
  {
    TwoBendContour(BarBends(pad, w, h, r, p));
  }

  /** The bar shares the track's left cap whatever the progress, and at full
      progress it is the track itself. */
  lemma BarMeetsTrack(pad: real, w: real, h: real, r: real, p: real)
    ensures BarPath(pad, w, h, r, p)[3..] == StrokePath(pad, w, h, r)[3..]
    ensures BarPath(pad, w, h, r, 1.0) == StrokePath(pad, w, h, r)
  {
    TwoBendContour(BarBends(pad, w, h, r, p));
    TwoBendContour(BarBends(pad, w, h, r, 1.0));
    TwoBendContour(TrackBends(pad, w, h, r));
    assert InvertedProgress(1.0) == 1.0 && MinProgress(1.0) == 1.0;
    assert BarLeadingX(w, r, pad, 1.0) == w - r + pad;
    assert r * InvertedProgress(1.0) == r;
    assert BarBends(pad, w, h, r, 1.0) == TrackBends(pad, w, h, r);
  }

  class NeoProgressView {
    const View: NeoView
    var Progress: real
    var Thickness: real
    var BarColor: Color

    constructor (view: NeoView)
      ensures View == view && Progress == DefaultProgress && Thickness == DefaultThickness && BarColor == Red
    {
      View := view;
      Progress, Thickness, BarColor := DefaultProgress, DefaultThickness, Red;
    }

    /** Checks the target and, when it is in range, runs the animation to
        its end, leaving the progress at the target; out of range, the error
        is raised before anything changes. */
    method AnimateProgress(toValue: real) returns (r: Result<ProgressAnimation>)
      modifies this
      ensures r == ProgressAnimationTo(toValue)
      ensures r.Ok? ==> Progress == r.value.ValueAt(1.0) == toValue
      ensures r.Err? ==> Progress == old(Progress)
      ensures Thickness == old(Thickness) && BarColor == old(BarColor)
    {
      var check := EnsureProgressRange(toValue);
      if check.Fail? {
        return Err(check.error);
      }
      var animation := ProgressAnimation(toValue);
      Progress := animation.ValueAt(1.0);
      r := Ok(animation);
    }

    method CreateStrokePath(padding: real, retangleWidth: real, retangleHeight: real, cornerRadius: real)
      returns (path: Path)
      ensures fresh(path)
      ensures path.Commands == StrokePath(padding, retangleWidth, retangleHeight, cornerRadius)
    {
      path := new Path();
      path.MoveTo(cornerRadius + padding, padding);

      path.LineTo(retangleWidth - cornerRadius + padding, padding);
      path.ArcTo(cornerRadius, Point(retangleWidth - cornerRadius + padding, retangleHeight + padding));

      path.LineTo(cornerRadius + padding, retangleHeight + padding);
      path.ArcTo(cornerRadius, Point(cornerRadius + padding, padding));

      path.Close();
      TwoBendContour(TrackBends(padding, retangleWidth, retangleHeight, cornerRadius));
    }

    method CreateBarPath(padding: real, retangleWidth: real, retangleHeight: real, cornerRadius: real)
      returns (barPath: Path)
      ensures fresh(barPath)
      ensures barPath.Commands == BarPath(padding, retangleWidth, retangleHeight, cornerRadius, Progress)
    {
      var fProgress := Progress;
      var invertedProgress := if fProgress <= 0.5 then 0.0 else 2.0 - (1.0 - ((1.0 - fProgress) / 0.5));
      var minProgress := if 0.01 >= fProgress then 0.01 else fProgress;
      assert invertedProgress == InvertedProgress(fProgress) && minProgress == MinProgress(fProgress);
      ghost var x := BarLeadingX(retangleWidth, cornerRadius, padding, fProgress);
      assert x == ((retangleWidth - cornerRadius) * minProgress) + padding;
      barPath := new Path();

      barPath.MoveTo(cornerRadius + padding, padding);
      barPath.LineTo(((retangleWidth - cornerRadius) * minProgress) + padding, padding);

      barPath.ArcTo(cornerRadius * invertedProgress,
        Point(((retangleWidth - cornerRadius) * minProgress) + padding, retangleHeight + padding));

      barPath.LineTo(cornerRadius + padding, retangleHeight + padding);
      barPath.ArcTo(cornerRadius, Point(cornerRadius + padding, padding));

      barPath.Close();
      ghost var b := BarBends(padding, retangleWidth, retangleHeight, cornerRadius, fProgress);
      assert b[0] == Bend(Point(x, padding), Point(x, retangleHeight + padding), cornerRadius * invertedProgress);
      assert b[1] == Bend(Point(cornerRadius + padding, retangleHeight + padding), Point(cornerRadius + padding, padding), cornerRadius);
      TwoBendContour(BarBends(padding, retangleWidth, retangleHeight, cornerRadius, fProgress));
    }

    /** The track for a surface: inset by three blurs, with caps of half its height. */
    function Track(info: ImageInfo): seq<PathCmd>
      reads this, View
    {
      var pad := 3.0 * View.ShadowBlur;
      var h := info.Height as real - 2.0 * pad;
      StrokePath(pad, info.Width as real - 2.0 * pad, h, h / 2.0)
    }

    /** The bar for a surface, at the current progress. */
    function Bar(info: ImageInfo): seq<PathCmd>
      reads this, View
    {
      var pad := 3.0 * View.ShadowBlur;
      var h := info.Height as real - 2.0 * pad;
      BarPath(pad, info.Width as real - 2.0 * pad, h, h / 2.0, Progress)
    }

    /** The paint of the track passes: base colour, stroked with the
        thickness, blurred by the shadow blur. */
    function TrackPaint(paint: PaintState): PaintState
      reads this, View
    {
      paint.(Color := View.BaseColor, Style := Stroke, StrokeWidth := Thickness,
             MaskFilter := Some(Blur(View.ShadowBlur)))
    }

    /** The bar filled with the bar colour first, then the track stroked
        with the dark shadow, the light shadow, and with both filters cleared. */
    method DrawControl(paint: Paint, canvas: Canvas, info: ImageInfo)
      modifies paint, canvas
      ensures canvas.Log == old(canvas.Log)
                + [PathDrawn(Bar(info), old(paint.State()).(Color := BarColor))]
                + ShadowPasses(Track(info), TrackPaint(old(paint.State())),
                               View.DarkShadow(), View.LightShadowColor, View.ShadowDistance)
      ensures paint.State() == TrackPaint(old(paint.State())).(ImageFilter := None, MaskFilter := None)
    {
      var fShadowBlur := View.ShadowBlur;
      var padding := fShadowBlur * 3.0;
      var diameter := padding * 2.0;
      var retangleWidth := info.Width as real - diameter;
      var retangleHeight := info.Height as real - diameter;
      var cornerRadius := retangleHeight / 2.0;

      var path := CreateStrokePath(padding, retangleWidth, retangleHeight, cornerRadius);
      var barPath := CreateBarPath(padding, retangleWidth, retangleHeight, cornerRadius);
      paint.Color := BarColor;
      canvas.DrawPath(barPath, paint);

      paint.Color := View.BaseColor;
      paint.Style := Stroke;
      paint.StrokeWidth := Thickness;
      paint.MaskFilter := Some(Blur(fShadowBlur));

      assert paint.State() == TrackPaint(old(paint.State()));
      var shadow := WithAlpha(View.DarkShadowColor, View.Elevation);
      var fShadowDistance := View.ShadowDistance;
      DrawShadowPasses(paint, canvas, path, shadow, View.LightShadowColor, fShadowDistance);
    }

    /** One paint of the surface: the view prepares the paint, the progress view draws. */
    method PaintSurface(canvas: Canvas, info: ImageInfo)
      modifies canvas
      ensures canvas.Log == old(canvas.Log) + [Cleared]
                + [PathDrawn(Bar(info), InitialPaint(View.BaseColor, View.ShadowBlur).(Color := BarColor))]
                + ShadowPasses(Track(info), TrackPaint(InitialPaint(View.BaseColor, View.ShadowBlur)),
                               View.DarkShadow(), View.LightShadowColor, View.ShadowDistance)
    {
      var paint := View.OnCanvasViewPaintSurface(canvas);
      DrawControl(paint, canvas, info);
    }
  }
}
