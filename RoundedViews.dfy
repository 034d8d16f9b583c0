/** NeoRoundedView: the four-corner rounded rectangle that the frame (and,
    with the same code, the button) draws. */
module RoundedViews {
  import opened Skia
  import opened Geometry
  import Views

  /** Independent radii for the four corners. */
  datatype CornerRadius = CornerRadius(TopLeft: real, TopRight: real, BottomLeft: real, BottomRight: real)

  const DefaultCornerRadius := 3.0

  /** `new CornerRadius(v)`: the same radius on all four corners. */
  function Uniform(v: real): (cr: CornerRadius)
    ensures cr.TopLeft == cr.TopRight == cr.BottomLeft == cr.BottomRight == v
  {
    CornerRadius(v, v, v, v)
  }

  // Directions of travel around the rectangle (y grows downwards).
  const East := Point(1.0, 0.0)
  const South := Point(0.0, 1.0)
  const West := Point(-1.0, 0.0)
  const North := Point(0.0, -1.0)

  /** The bend that rounds the corner at `vertex`, reached travelling in
      direction `inward` and left in direction `outward`: the edge stops r
      before the vertex and the arc ends r after it. */
  function CornerBend(vertex: Point, inward: Point, outward: Point, r: real): Bend
  {
    Bend(Point(vertex.x - r * inward.x, vertex.y - r * inward.y),
         Point(vertex.x + r * outward.x, vertex.y + r * outward.y), r)
  }

  /** The corners of the w x h rectangle whose top-left vertex is (pad, pad),
      visited clockwise from the top-right one. */
  function RectBends(w: real, h: real, pad: real, cr: CornerRadius): (b: seq<Bend>)
    ensures |b| == 4
  {
    [ CornerBend(Point(w + pad, pad), East, South, cr.TopRight),
      CornerBend(Point(w + pad, h + pad), South, West, cr.BottomRight),
      CornerBend(Point(pad, h + pad), West, North, cr.BottomLeft),
      CornerBend(Point(pad, pad), North, East, cr.TopLeft) ]
  }

  /** The rounded-rectangle outline. */
  function RoundedRect(w: real, h: real, pad: real, cr: CornerRadius): seq<PathCmd>
  {
    Contour(RectBends(w, h, pad, cr))
  }

  /** The outline written out command by command. */
  lemma RoundedRectUnfolded(w: real, h: real, pad: real, cr: CornerRadius)
    ensures var b := RectBends(w, h, pad, cr);
      RoundedRect(w, h, pad, cr) ==
        [ MoveTo(b[3].exit),
          LineTo(b[0].entry), ArcTo(b[0].radius, b[0].exit),
          LineTo(b[1].entry), ArcTo(b[1].radius, b[1].exit),
          LineTo(b[2].entry), ArcTo(b[2].radius, b[2].exit),
          LineTo(b[3].entry), ArcTo(b[3].radius, b[3].exit),
          Close ]
  {
    var b := RectBends(w, h, pad, cr);
    EdgesAt(b, 0);
    EdgesAt(b, 1);
    EdgesAt(b, 2);
    EdgesAt(b, 3);
  }

  /** Ten commands: a move, four line-and-arc pairs, a close. The move is to
      (TopLeft + pad, pad) and the last arc returns there; the arcs round the
      top-right, bottom-right, bottom-left and top-left corners in that order. */
  lemma RoundedRectShape(w: real, h: real, pad: real, cr: CornerRadius)
    ensures var c := RoundedRect(w, h, pad, cr);
      && |c| == 10
      && c[0] == MoveTo(Point(cr.TopLeft + pad, pad))
      && c[1].LineTo? && c[3].LineTo? && c[5].LineTo? && c[7].LineTo?
      && c[2].ArcTo? && c[4].ArcTo? && c[6].ArcTo? && c[8].ArcTo?
      && c[2].radius == cr.TopRight && c[4].radius == cr.BottomRight
      && c[6].radius == cr.BottomLeft && c[8].radius == cr.TopLeft
      && c[8].p == c[0].p
      && c[9] == Close
  {
    RoundedRectUnfolded(w, h, pad, cr);
  }

  /** The whole outline is the one built with no padding, moved by pad on
      both axes. */
  lemma RoundedRectShift(w: real, h: real, pad: real, cr: CornerRadius)
    ensures RoundedRect(w, h, pad, cr) == ShiftPath(RoundedRect(w, h, 0.0, cr), pad)
  {
    var b0 := RectBends(w, h, 0.0, cr);
    ContourShift(b0, pad);
    assert ShiftBends(b0, pad) == RectBends(w, h, pad, cr);
  }

  /** With radii between 0 and the rectangle's width and height, every point
      of the outline lies in [pad, w + pad] x [pad, h + pad], and each of the
      four sides of that box is reached. */
  lemma RoundedRectBounds(w: real, h: real, pad: real, cr: CornerRadius)
    requires 0.0 <= cr.TopLeft <= w && 0.0 <= cr.TopRight <= w
    requires 0.0 <= cr.BottomLeft <= w && 0.0 <= cr.BottomRight <= w
    requires cr.TopLeft <= h && cr.TopRight <= h && cr.BottomLeft <= h && cr.BottomRight <= h
    ensures PointsWithin(RoundedRect(w, h, pad, cr), pad, pad, w + pad, h + pad)
    ensures var c := RoundedRect(w, h, pad, cr);
      && |c| == 10 && c[0].MoveTo? && c[2].ArcTo? && c[4].ArcTo? && c[6].ArcTo?
      && c[0].p.y == pad && c[2].p.x == w + pad && c[4].p.y == h + pad && c[6].p.x == pad
  {
    var b := RectBends(w, h, pad, cr);
    RoundedRectUnfolded(w, h, pad, cr);
    assert b[0].entry == Point(w - cr.TopRight + pad, pad) && b[0].exit == Point(w + pad, cr.TopRight + pad);
    assert b[1].entry == Point(w + pad, h - cr.BottomRight + pad) && b[1].exit == Point(w - cr.BottomRight + pad, h + pad);
    assert b[2].entry == Point(cr.BottomLeft + pad, h + pad) && b[2].exit == Point(pad, h - cr.BottomLeft + pad);
    assert b[3].entry == Point(pad, cr.TopLeft + pad) && b[3].exit == Point(cr.TopLeft + pad, pad);
    ContourWithin(b, pad, pad, w + pad, h + pad);
  }

  /** With all radii 0 every arc is empty (it ends where the line before it
      ended) and the lines run to the four corners of the padded rectangle. */
  lemma RoundedRectSharp(w: real, h: real, pad: real)
    ensures var c := RoundedRect(w, h, pad, Uniform(0.0));
      && |c| == 10
      && c[1] == LineTo(Point(w + pad, pad)) && c[3] == LineTo(Point(w + pad, h + pad))
      && c[5] == LineTo(Point(pad, h + pad)) && c[7] == LineTo(Point(pad, pad))
      && c[2] == ArcTo(0.0, c[1].p) && c[4] == ArcTo(0.0, c[3].p)
      && c[6] == ArcTo(0.0, c[5].p) && c[8] == ArcTo(0.0, c[7].p)
  {
    RoundedRectUnfolded(w, h, pad, Uniform(0.0));
  }

  /** Builds the rounded-rectangle outline one command at a time. Shared by
      the rounded view and the button, whose bodies are the same. */
  method BuildRoundedRect(cr: CornerRadius, retangleWidth: real, retangleHeight: real, drawPadding: real)
    returns (path: Path)
    ensures fresh(path)
    ensures path.Commands == RoundedRect(retangleWidth, retangleHeight, drawPadding, cr)
  {
    path := new Path();
    var startX := cr.TopLeft + drawPadding;
    var startY := drawPadding;

    path.MoveTo(startX, startY);

    path.LineTo(retangleWidth - cr.TopRight + drawPadding, startY);
    path.ArcTo(cr.TopRight, Point(retangleWidth + drawPadding, cr.TopRight + drawPadding));

    path.LineTo(retangleWidth + drawPadding, retangleHeight - cr.BottomRight + drawPadding);
    path.ArcTo(cr.BottomRight, Point(retangleWidth - cr.BottomRight + drawPadding, retangleHeight + drawPadding));

    path.LineTo(cr.BottomLeft + drawPadding, retangleHeight + drawPadding);
    path.ArcTo(cr.BottomLeft, Point(drawPadding, retangleHeight - cr.BottomLeft + drawPadding));

    path.LineTo(drawPadding, cr.TopLeft + drawPadding);
    path.ArcTo(cr.TopLeft, Point(startX, startY));

    path.Close();
    RoundedRectUnfolded(retangleWidth, retangleHeight, drawPadding, cr);
  }

  class NeoRoundedView {
    const View: Views.NeoView
    var CornerRadius: CornerRadius

    constructor (view: Views.NeoView)
      ensures View == view && CornerRadius == Uniform(DefaultCornerRadius)
    {
      View := view;
      CornerRadius := Uniform(DefaultCornerRadius);
    }

    method CreatePath(retangleWidth: real, retangleHeight: real, drawPadding: real) returns (path: Path)
      ensures fresh(path)
      ensures path.Commands == RoundedRect(retangleWidth, retangleHeight, drawPadding, CornerRadius)
    {
      path := BuildRoundedRect(CornerRadius, retangleWidth, retangleHeight, drawPadding);
    }
  }
}
