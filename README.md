# Neumorphic controls — a Dafny model

This project models the drawing core of Xamarin.Forms.NeoControls. That is a
set of "soft UI" controls (a button, a frame and a progress bar) that draw
themselves on a SkiaSharp canvas with a dark and a light drop shadow, so that
they look embossed. The model covers five things:

- **Rounded-path builders.** `CreatePath` on the rounded view and the button,
  and `CreateStrokePath`/`CreateBarPath` on the progress view, build a path by
  appending commands. Each builder is proved equal to a reference outline
  (`Geometry.Contour` over a list of "bends": a straight edge to the bend's
  entry, then an arc to its exit). The command order, closure, bounds and
  translation by the padding are then proved about that outline.
- **Draw passes.** `Skia.Paint` is a class whose fields the controls change
  between draws. `Skia.Canvas` keeps a log of every draw, together with a
  snapshot of the paint at that moment. Each `DrawControl` and each
  `PaintSurface` is proved to append exactly the expected draws:
  - `Views.ShadowPasses`: the dark/light/plain composite;
  - `Frames.FramePasses`: the frame's fill and border.
- **View state.** The shadow defaults, the paint every draw starts from, and
  the swap of the framework's background colour into `BaseColor`.
- **Button and progress behaviour.** Taps, the toggle mode, and the press
  animation's end state. The progress range check, the bar arithmetic
  (`minProgress`, `invertedProgress`) and the progress animation.
- **Gradient offset normalisation.** `Gradient.Measure` and
  `SetupUndefinedOffsets` are modelled as loops over stop objects. They are
  proved to produce `Gradients.Normalized`, a reference definition that finds
  each unset stop's segment. These properties of `Normalized` are proved:
  - it is idempotent;
  - it leaves set stops alone;
  - it gives evenly spaced offsets on concrete stop lists (`EvenlySpaced`,
    `UnsetFirstStop`, `UnsetLastStop`, `SingleUnsetStop`);
  - with sorted anchors, the stops come out ordered.

The C# inheritance (NeoView → NeoRoundedView → NeoFrame, NeoView → NeoButton,
NeoView → NeoProgressView) is modelled by composition. Each control holds its
`NeoView`, and the frame holds its `NeoRoundedView`. The virtual
`OnCanvasViewPaintSurface` → `DrawControl` call becomes a `PaintSurface`
method on each control. It asks the view for the prepared paint and then runs
the control's own `DrawControl`. `float` and `double` are modelled as `real`.

Above one half, the expression for the bar's "inverted progress" at
`NeoProgressView.cs:119` equals `3 - 2p`. So `invertedProgress` is 1 at
`p = 1` and approaches 2 just above 0.5; below that it is 0.
`ProgressViews.InvertedProgress` states this.

## Model

| member | source | states |
|---|---|---|
| Skia.WithAlpha | Xamarin.Forms.NeoControls/NeoButton.cs:117 | `Color.FromRgba(c.R, c.G, c.B, alpha)` keeps the three colour channels of an in-range colour and replaces the alpha; as the framework's colour constructor does, it clamps every component into [0, 1], so an elevation above 1 gives alpha 1 and one below 0 gives alpha 0 |
| Skia.ToDropShadow | Xamarin.Forms.NeoControls/Extensions/ColorExtensions.cs:9-17 | the drop shadow is offset by the same distance on both axes and has the given colour |
| Geometry.ContourAt | Xamarin.Forms.NeoControls/NeoRoundedView.cs:35-52 | an outline over n bends has 2n + 2 commands: a move to the last bend's exit, then a line to each bend's entry and an arc of its radius to its exit, then a close |
| Geometry.ContourCloses | Xamarin.Forms.NeoControls/NeoRoundedView.cs:35-52 | the outline is closed: its last arc ends at the point of its opening move, and a Close follows |
| Geometry.ContourShift | Xamarin.Forms.NeoControls/NeoRoundedView.cs:32-50 | building the outline from bends moved by d equals moving every point of the outline by d on both axes; radii and command kinds are kept |
| Geometry.ContourWithin | Xamarin.Forms.NeoControls/NeoButton.cs:140-158 | if every bend's entry and exit lie in a box, every point of the outline does |
| Views.InitialPaint | Xamarin.Forms.NeoControls/NeoView.xaml.cs:113-118 | the paint handed to DrawControl is antialiased, has the base colour, fill style, a blur mask of sigma ShadowBlur and no image filter |
| Views.ShadowPassesOrder | Xamarin.Forms.NeoControls/NeoButton.cs:117-128 | the composite is three draws of the same path with the same colour, style and width: a dark shadow at (+d, +d) with the incoming mask, a light shadow at (-d, -d) with the incoming mask, then a draw with neither image filter nor mask |
| Views.DrawShadowPasses | Xamarin.Forms.NeoControls/NeoButton.cs:120-128 | the three in-place paint updates and draws append exactly the composite to the canvas log; afterwards the paint differs from before only by its two cleared filters |
| Views.NeoView.constructor | Xamarin.Forms.NeoControls/NeoView.xaml.cs:11-89 | the defaults are ShadowBlur 10, Elevation 0.6, ShadowDistance 9, light shadow White, dark shadow Black and BaseColor Gray |
| Views.NeoView.OnPropertyChanged | Xamarin.Forms.NeoControls/NeoView.xaml.cs:95-105 | with a non-transparent background: the change is passed on; the surface is invalidated exactly when the property is BackgroundColor; BaseColor takes the background colour and the background becomes Transparent. With a transparent background nothing changes. The shadow settings are never touched |
| Views.NeoView.OnCanvasViewPaintSurface | Xamarin.Forms.NeoControls/NeoView.xaml.cs:107-123 | the canvas is cleared once, and a fresh paint is prepared whose state is InitialPaint(BaseColor, ShadowBlur) |
| Views.SwapSettles | Xamarin.Forms.NeoControls/NeoView.xaml.cs:97-104 | after one property change the background is Transparent, so a second change neither passes anything on nor touches BaseColor |
| RoundedViews.Uniform | Xamarin.Forms.NeoControls/NeoRoundedView.cs:15 | `new CornerRadius(v)` puts the same radius on all four corners |
| RoundedViews.RoundedRectUnfolded | Xamarin.Forms.NeoControls/NeoRoundedView.cs:32-52 | the rounded rectangle, command by command: move, line and arc for the top-right, bottom-right, bottom-left and top-left corners, then close |
| RoundedViews.RoundedRectShape | Xamarin.Forms.NeoControls/NeoRoundedView.cs:32-52 | ten commands: MoveTo, (LineTo, ArcTo)×4, Close. The start is (TopLeft + pad, pad) and the last arc returns there. The arc radii are TopRight, BottomRight, BottomLeft and TopLeft, in that order |
| RoundedViews.RoundedRectShift | Xamarin.Forms.NeoControls/NeoRoundedView.cs:32-50 | every command equals the one built with padding 0, shifted by pad on both axes |
| RoundedViews.RoundedRectBounds | Xamarin.Forms.NeoControls/NeoButton.cs:140-158 | with every radius between 0 and both the width and the height, every point lies in [pad, w + pad] × [pad, h + pad], and the top, right, bottom and left sides of that box are each reached |
| RoundedViews.RoundedRectSharp | Xamarin.Forms.NeoControls/NeoButton.cs:145-158 | with all radii 0, each arc ends where the preceding line ended, and the lines end at the corners (w+p, p), (w+p, h+p), (p, h+p), (p, p) |
| RoundedViews.BuildRoundedRect | Xamarin.Forms.NeoControls/NeoRoundedView.cs:24-55 | the ten successive path calls produce a fresh path whose commands are exactly RoundedRect(w, h, pad, radii) |
| RoundedViews.NeoRoundedView.constructor | Xamarin.Forms.NeoControls/NeoRoundedView.cs:9-16 | the default corner radius is 3 on all four corners |
| RoundedViews.NeoRoundedView.CreatePath | Xamarin.Forms.NeoControls/NeoRoundedView.cs:24-55 | the rounded view's path is RoundedRect over its corner radius; it is the same function the button's CreatePath is proved to build |
| Buttons.ClickTransform | Xamarin.Forms.NeoControls/NeoButton.cs:85 | the press animation starts at 0 and ends at toValue, and for t in [0, 1] it stays between 0 and toValue |
| Buttons.NeoButton.constructor | Xamarin.Forms.NeoControls/NeoButton.cs:12-44 | the defaults are corner radius 3 all round, SingleTap mode, unchecked and no command |
| Buttons.NeoButton.CreatePath | Xamarin.Forms.NeoControls/NeoButton.cs:132-163 | the button's path is the same RoundedRect outline as the rounded view's, for the same inputs |
| Buttons.NeoButton.DrawControl | Xamarin.Forms.NeoControls/NeoButton.cs:104-130 | pad = 2·ShadowBlur, and the rectangle is the surface less 4·ShadowBlur in each dimension. The canvas receives exactly the three-pass composite, with the dark colour at alpha Elevation and distance ShadowDistance |
| Buttons.NeoButton.PaintSurface | Xamarin.Forms.NeoControls/NeoView.xaml.cs:107-121 | one paint of the button: a clear, then the composite drawn from the initial paint |
| Buttons.NeoButton.AnimateClick | Xamarin.Forms.NeoControls/NeoButton.cs:83-87 | a press animation towards toValue is recorded, and when it has run the shadow distance is the transform's final value, toValue. No other field of the view changes, and the button's other fields are kept |
| Buttons.NeoButton.OnIsCheckedChanged | Xamarin.Forms.NeoControls/NeoButton.cs:180-187 | two presses: to -d, then to the distance just reached, so the shadow stays at -d; no other field of the view changes |
| Buttons.NeoButton.OnButtonTapped | Xamarin.Forms.NeoControls/NeoButton.cs:89-102 | the command runs only when present and able to execute. In Toggle mode IsChecked flips, the change handler leaves the shadow at -d, and the tap does not animate on its own. Otherwise the presses are -d then +d and the distance returns to d. Only the shadow distance of the view is ever written |
| Buttons.ToggleTwiceRestores | Xamarin.Forms.NeoControls/NeoButton.cs:94-98 | two taps in Toggle mode restore both IsChecked and the shadow distance, and leave every field of the view as it was |
| Frames.FramePadding | Xamarin.Forms.NeoControls/NeoFrame.cs:39-40 | the padding is 0 for InnerOnly and 2·ShadowBlur otherwise |
| Frames.FramePassesOrder | Xamarin.Forms.NeoControls/NeoFrame.cs:46-64 | one draw with a transparent border and two otherwise, all of the same path. The fill has no image filter in every mode and loses its mask exactly when Flat. The border comes second, stroked with the border colour and width |
| Frames.DefaultFrameDrawsOnce | Xamarin.Forms.NeoControls/NeoFrame.cs:9-55 | with the default border (Transparent, width 1) the frame draws exactly once |
| Frames.FrameFillMask | Xamarin.Forms.NeoControls/NeoFrame.cs:48-52 | from the view's initial paint, the fill has the base colour and fill style, with the shadow blur as mask when Soft and no mask when Flat |
| Frames.NeoFrame.constructor | Xamarin.Forms.NeoControls/NeoFrame.cs:9-19 | the border colour defaults to Transparent and the border width to 1 |
| Frames.NeoFrame.DrawControl | Xamarin.Forms.NeoControls/NeoFrame.cs:33-57 | the rectangle is the surface less 2·pad and is padded by pad. The canvas receives exactly the frame passes for the incoming paint. Afterwards the paint has no image filter, no mask when Flat, and, when a border is set, stroke style, the border colour and the border width; all else is as it came in |
| Frames.NeoFrame.DrawBorder | Xamarin.Forms.NeoControls/NeoFrame.cs:59-65 | style, colour and stroke width are all set before the single draw, which logs that paint |
| Frames.NeoFrame.PaintSurface | Xamarin.Forms.NeoControls/NeoView.xaml.cs:107-121 | one paint of the frame: a clear, then the frame passes from the initial paint |
| ProgressViews.EnsureProgressRange | Xamarin.Forms.NeoControls/NeoProgressView.cs:152-156 | passes exactly on [0, 1]; otherwise the out-of-range error |
| ProgressViews.ProgressAnimationTo | Xamarin.Forms.NeoControls/NeoProgressView.cs:51-57 | the error exactly when toValue > 1 or toValue < 0. Otherwise an animation from 0 to toValue whose every value for t in [0, 1] lies in [0, 1] |
| ProgressViews.NeoProgressView.AnimateProgress | Xamarin.Forms.NeoControls/NeoProgressView.cs:51-57 | the range check comes first: out of range, the progress is unchanged; in range, the animation runs and leaves Progress at toValue |
| ProgressViews.InvertedProgress | Xamarin.Forms.NeoControls/NeoProgressView.cs:119 | 0 for p ≤ 0.5. It is 3 − 2p above 0.5, so in [1, 2) on (0.5, 1], and exactly 1 at p = 1 |
| ProgressViews.MinProgress | Xamarin.Forms.NeoControls/NeoProgressView.cs:120 | at least 0.01 and at least p; equal to p from 0.01 on, and to 0.01 below it |
| ProgressViews.BarLeadingXMonotone | Xamarin.Forms.NeoControls/NeoProgressView.cs:120-124 | for w ≥ r and 0 ≤ p1 ≤ p2 ≤ 1, the bar's leading edge moves right with the progress and never passes w − r + pad |
| ProgressViews.StrokePathShape | Xamarin.Forms.NeoControls/NeoProgressView.cs:100-114 | six commands that start and end at (r + pad, pad); the first arc ends at (w − r + pad, h + pad) |
| ProgressViews.BarPathShape | Xamarin.Forms.NeoControls/NeoProgressView.cs:116-135 | in order: move to (r + pad, pad); line to (x, pad); arc of radius r·invertedProgress to (x, h + pad); line to (r + pad, h + pad); arc of radius r back to the start; close. Here x = (w − r)·minProgress + pad |
| ProgressViews.BarMeetsTrack | Xamarin.Forms.NeoControls/NeoProgressView.cs:100-135 | the bar always shares the track's left cap, and at full progress the bar is the track |
| ProgressViews.NeoProgressView.constructor | Xamarin.Forms.NeoControls/NeoProgressView.cs:11-31 | the defaults are progress 0.4, thickness 5 and bar colour Red |
| ProgressViews.NeoProgressView.CreateStrokePath | Xamarin.Forms.NeoControls/NeoProgressView.cs:100-114 | the six path calls build exactly StrokePath |
| ProgressViews.NeoProgressView.CreateBarPath | Xamarin.Forms.NeoControls/NeoProgressView.cs:116-135 | the path calls, with the inline invertedProgress and minProgress, build exactly BarPath at the current progress |
| ProgressViews.NeoProgressView.DrawControl | Xamarin.Forms.NeoControls/NeoProgressView.cs:59-98 | pad = 3·ShadowBlur and r = half the rectangle height. The bar is filled first in BarColor. Then the track is drawn three times with base colour, stroke style, width Thickness and blur ShadowBlur: dark +d, light −d, then both filters cleared |
| ProgressViews.NeoProgressView.PaintSurface | Xamarin.Forms.NeoControls/NeoView.xaml.cs:107-121 | one paint of the progress view: a clear, the bar, then the track composite |
| Gradients.SegmentEnds | Xamarin.Forms.NeoControls/Gradient.cs:90-104 | a segment's first index gets max(offset, 0), its last gets the absolute value of its offset when the segment is longer than one stop, and an unset one-stop segment gets 0 |
| Gradients.SegmentValueMonotone | Xamarin.Forms.NeoControls/Gradient.cs:93-103 | when start ≤ end, the values assigned within the segment are non-decreasing in the index and lie between start and end |
| Gradients.PrevAnchor | Xamarin.Forms.NeoControls/Gradient.cs:62-71 | the segment of stop k starts at the nearest closing index before k, or at 0 when there is none |
| Gradients.NextAnchor | Xamarin.Forms.NeoControls/Gradient.cs:64-70 | the segment of stop k ends at the nearest closing index at or after k; the last index always closes |
| Gradients.Normalized | Xamarin.Forms.NeoControls/Gradient.cs:60-105 | set stops keep their render offset, and every unset stop gets the interpolated value of its own segment |
| Gradients.NormalizedIdempotent | Xamarin.Forms.NeoControls/Gradient.cs:60-105 | measuring twice gives the same render offsets as measuring once |
| Gradients.NormalizedIgnoresRender | Xamarin.Forms.NeoControls/Gradient.cs:88-105 | the render offset given to an unset stop depends only on the declared offsets |
| Gradients.NormalizedSorted | Xamarin.Forms.NeoControls/Gradient.cs:60-105 | if the set offsets are in order and an unset last stop lies at or above them all, the offsets the stops are drawn at are non-decreasing |
| Gradients.EvenlySpaced | Xamarin.Forms.NeoControls/Gradient.cs:90-103 | `[-1, -1, 1.0]` gives render offsets 0 and 0.5, and the third stop is untouched |
| Gradients.UnsetFirstStop | Xamarin.Forms.NeoControls/Gradient.cs:90-103 | `[-1, 0.8]` gives the first stop 0, and the second is untouched |
| Gradients.UnsetLastStop | Xamarin.Forms.NeoControls/Gradient.cs:90-103 | `[0.2, -1]` gives the unset last stop the absolute value of −1, which is 1 |
| Gradients.SingleUnsetStop | Xamarin.Forms.NeoControls/Gradient.cs:89-104 | a lone unset stop gets 0; the guarded step is never used |
| Gradients.Gradient.constructor | Xamarin.Forms.NeoControls/Gradient.cs:49-50 | a new gradient has no stops and is not repeating |
| Gradients.Gradient.SetupUndefinedOffsets | Xamarin.Forms.NeoControls/Gradient.cs:88-105 | every unset stop in [from, to] gets start + (k − from)·step. No declared offset changes. Set stops and stops outside the segment keep their render offset |
| Gradients.Gradient.Measure | Xamarin.Forms.NeoControls/Gradient.cs:60-72 | the declared offsets are unchanged, and the render offsets become Normalized(offsets, old render offsets); width and height play no part |
| Gradients.MeasureStep | Xamarin.Forms.NeoControls/Gradient.cs:64-71 | at a closing index i, the call for segment (PrevAnchor(i), i) writes exactly the unset stops whose segment ends at i, and writes their normalised value; no other stop is touched |

## Left out

- Animation timing. `Animate`, easing, the 250 ms length and `TaskCompletionSource` are not modelled. `AnimateClick` and `AnimateProgress` are modelled as running to completion before the next event, which leaves the final transform value in the property. Interleaved taps during a running animation are not modelled.
- `OnVisualPropertyChanged` and `InvalidateSurface` are not modelled: a property change always repaints. Only the count of invalidations raised by `OnPropertyChanged` is kept.
- Bindable-property registration, `InitializeComponent`, `InnerView` insertion, the `Stops` setter's attach/release, and `OnBindingContextChanged` are framework plumbing. They are not modelled.
- `Views.NeoView.constructor`: the initial `BackgroundColor` comes from the host framework (or from markup), so it is a constructor parameter.
- Command parameters are not modelled. `CanExecute` is the parameter `canExecute` of `OnButtonTapped`, and `Execute` is recorded in `Executed`.
- Float rounding, `Convert.ToSingle`, and the byte quantisation of `ToSKColor` are not modelled. All arithmetic is exact on `real`.
- A `Color` of the model may hold any reals. In the framework every colour is clamped into [0, 1] when it is built; the model applies that clamp only in `Skia.WithAlpha`, the one colour the controls build themselves. The colours a view is given are taken as they come.
- The drop shadow's fixed sigma (−6) and its "shadow only" mode are not recorded in `Skia.ImageFilter`. Every shadow uses the same values, so they never distinguish two draws.
- Rasterisation, arc tangent geometry, blur and shadow rendering are not modelled. A path is its command list, and a filter is a tag.
- `GradientStop` and `GradientElements` are not part of this model. A stop is modelled only by the two fields the normalisation uses (`Offset`, `RenderOffset`). `BuildShader`, `IsRepeating`'s use and `GetGradients` are not modelled.
- `Gradients.Gradient.Measure` and `SetupUndefinedOffsets` require the stops to be distinct objects (`Valid`). The same stop object listed twice (aliasing) is not modelled.
- `Gradients.SegmentStep`: the source divides by `to − from` even when it is 0, which gives infinity or NaN in floating point. The model uses 0 there. That step is never added to a written value, because the one stop of such a segment gets the start.
- The `ShadowDrawMode` and `DrawMode` enumerations are not part of this model. They are modelled as small datatypes holding only the values the frame reads.
- `OnProgressChanging`'s range check is commented out in the source, so setting `Progress` directly is unchecked. Only `AnimateProgress` checks the range.
