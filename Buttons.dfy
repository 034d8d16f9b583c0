/** NeoButton: a rounded rectangle drawn with the three-pass shadow composite,
    pressed by animating the shadow distance, or toggled. */
module Buttons {
  import opened Skia
  import opened Views
  import opened RoundedViews

  datatype ClickMode = SingleTap | Toggle

  /** The command bound to the button, known by an identifier. */
  datatype Command = Command(id: nat)

  /** The press animation's value at time t in [0, 1]: it runs from 0 to
      toValue, proportionally to t. */
  function ClickTransform(toValue: real, t: real): (r: real)
    ensures t == 0.0 ==> r == 0.0
    ensures t == 1.0 ==> r == toValue
    ensures 0.0 <= t <= 1.0 && 0.0 <= toValue ==> 0.0 <= r <= toValue
    ensures 0.0 <= t <= 1.0 && toValue <= 0.0 ==> toValue <= r <= 0.0
  {
    t * toValue
  }

  class NeoButton {
    const View: NeoView
    var CornerRadius: CornerRadius
    var ClickMode: ClickMode
    var IsChecked: bool
    var Command: Option<Command>
    /** Every command execution the button triggered, in order. */
    var Executed: seq<Command>
    /** The target of every press animation started, in order. */
    var Presses: seq<real>

    constructor (view: NeoView)
      ensures View == view && CornerRadius == Uniform(DefaultCornerRadius)
      ensures ClickMode == SingleTap && !IsChecked && Command == None
      ensures Executed == [] && Presses == []
    {
      View := view;
      CornerRadius := Uniform(DefaultCornerRadius);
      ClickMode, IsChecked, Command := SingleTap, false, None;
      Executed, Presses := [], [];
    }

    method CreatePath(retangleWidth: real, retangleHeight: real, drawPadding: real) returns (path: Path)
      ensures fresh(path)
      ensures path.Commands == RoundedRect(retangleWidth, retangleHeight, drawPadding, CornerRadius)
    {
      path := BuildRoundedRect(CornerRadius, retangleWidth, retangleHeight, drawPadding);
    }

    /** Pads the outline by twice the blur on every side (so the rectangle is
      the surface less four blurs in each dimension) and draws it with the
      dark shadow, the light shadow, and then with both filters cleared. */
    method DrawControl(paint: Paint, canvas: Canvas, info: ImageInfo)
      modifies paint, canvas
      ensures canvas.Log == old(canvas.Log) + ShadowPasses(
                RoundedRect(info.Width as real - 4.0 * View.ShadowBlur, info.Height as real - 4.0 * View.ShadowBlur,
                            2.0 * View.ShadowBlur, CornerRadius),
                old(paint.State()), View.DarkShadow(), View.LightShadowColor, View.ShadowDistance)
      ensures paint.State() == old(paint.State()).(ImageFilter := None, MaskFilter := None)
    {
      var drawPadding := View.ShadowBlur * 2.0;
      var diameter := drawPadding * 2.0;
      var retangleWidth := info.Width as real - diameter;
      var retangleHeight := info.Height as real - diameter;

      var path := CreatePath(retangleWidth, retangleHeight, drawPadding);
      var darkShadow := WithAlpha(View.DarkShadowColor, View.Elevation);
      var fShadowDistance := View.ShadowDistance;
      DrawShadowPasses(paint, canvas, path, darkShadow, View.LightShadowColor, fShadowDistance);
    }

    /** One paint of the surface: the view prepares the paint, the button draws. */
    method PaintSurface(canvas: Canvas, info: ImageInfo)
      modifies canvas
      ensures canvas.Log == old(canvas.Log) + [Cleared] + ShadowPasses(
                RoundedRect(info.Width as real - 4.0 * View.ShadowBlur, info.Height as real - 4.0 * View.ShadowBlur,
                            2.0 * View.ShadowBlur, CornerRadius),
                InitialPaint(View.BaseColor, View.ShadowBlur), View.DarkShadow(), View.LightShadowColor, View.ShadowDistance)
    {
      var paint := View.OnCanvasViewPaintSurface(canvas);
      DrawControl(paint, canvas, info);
    }

    /** Starts a press animation towards toValue; once it has run, the shadow
        distance holds the transform's final value. */
    method AnimateClick(toValue: real)
      modifies this, View`ShadowDistance
      ensures Presses == old(Presses) + [toValue]
      ensures View.ShadowDistance == ClickTransform(toValue, 1.0)
      ensures IsChecked == old(IsChecked) && Executed == old(Executed)
      ensures ClickMode == old(ClickMode) && Command == old(Command) && CornerRadius == old(CornerRadius)
    {
      Presses := Presses + [toValue];
      View.ShadowDistance := ClickTransform(toValue, 1.0);
    }

    /** IsChecked changed: the button animates to the negated distance and
        then to the distance it has just reached, so it stays pressed at -d. */
    method OnIsCheckedChanged()
      modifies this, View`ShadowDistance
      ensures Presses == old(Presses) + [-old(View.ShadowDistance), -old(View.ShadowDistance)]
      ensures View.ShadowDistance == -old(View.ShadowDistance)
      ensures IsChecked == old(IsChecked) && Executed == old(Executed)
      ensures ClickMode == old(ClickMode) && Command == old(Command) && CornerRadius == old(CornerRadius)
    {
      AnimateClick(View.ShadowDistance * -1.0);
      AnimateClick(View.ShadowDistance);
    }

    /** A tap. The bound command runs only when it can execute (canExecute is
        its answer). In toggle mode the tap flips IsChecked, whose change
        handler presses the shadow to -d and holds it there, and stops;
        otherwise it animates twice with the negated current distance, which
        presses the shadow to -d and brings it back to d. */
    method OnButtonTapped(canExecute: bool)
      modifies this, View`ShadowDistance
      ensures Executed == old(Executed) + (if old(Command).Some? && canExecute then [old(Command).value] else [])
      ensures ClickMode == old(ClickMode) && Command == old(Command) && CornerRadius == old(CornerRadius)
      ensures old(ClickMode) == Toggle ==>
                IsChecked == !old(IsChecked)
                && Presses == old(Presses) + [-old(View.ShadowDistance), -old(View.ShadowDistance)]
                && View.ShadowDistance == -old(View.ShadowDistance)
      ensures old(ClickMode) != Toggle ==>
                IsChecked == old(IsChecked)
                && Presses == old(Presses) + [-old(View.ShadowDistance), old(View.ShadowDistance)]
                && View.ShadowDistance == old(View.ShadowDistance)
    {
      if Command.Some? && canExecute {
        Executed := Executed + [Command.value];
      }

      if ClickMode == Toggle {
        IsChecked := !IsChecked;
        OnIsCheckedChanged();
        return;
      }

      AnimateClick(View.ShadowDistance * -1.0);
      AnimateClick(View.ShadowDistance * -1.0);
    }
  }

  /** A toggle button tapped twice is unchecked again with its shadow back
      where it started, and its view is exactly as before; a single tap leaves
      it pressed at the opposite distance. */
  method ToggleTwiceRestores(button: NeoButton)
    requires button.ClickMode == Toggle
    modifies button, button.View
    ensures button.IsChecked == old(button.IsChecked)
    ensures button.View.ShadowDistance == old(button.View.ShadowDistance)
    ensures unchanged(button.View)
  {
    button.OnButtonTapped(true);
    assert button.View.ShadowDistance == -old(button.View.ShadowDistance);
    button.OnButtonTapped(true);
  }
}
