/** Closed outlines made of straight edges joined by rounded bends. Every path
    the controls build has this shape: start where the last bend ends, then for
    each bend draw a line to where the bend begins and an arc to where it ends,
    then close. */
module Geometry {
  import opened Skia

  /** One rounded corner: the straight edge reaches `entry`, an arc of the
      given radius then carries the outline to `exit`. */
  datatype Bend = Bend(entry: Point, exit: Point, radius: real)

  /** The line and arc for each bend, in order. */
  function Edges(bends: seq<Bend>): seq<PathCmd>
  {
    if bends == [] then []
    else [LineTo(bends[0].entry), ArcTo(bends[0].radius, bends[0].exit)] + Edges(bends[1..])
  }

  /** The closed outline through the given bends. */
  function Contour(bends: seq<Bend>): seq<PathCmd>
    requires bends != []
  {
    [MoveTo(bends[|bends| - 1].exit)] + Edges(bends) + [Close]
  }

  lemma {:induction false} EdgesAt(bends: seq<Bend>, i: nat)
    requires i < |bends|
    ensures |Edges(bends)| == 2 * |bends|
    ensures Edges(bends)[2 * i] == LineTo(bends[i].entry)
    ensures Edges(bends)[2 * i + 1] == ArcTo(bends[i].radius, bends[i].exit)
  {
    if i == 0 {
      EdgesLength(bends[1..]);
    } else {
      EdgesAt(bends[1..], i - 1);
    }
  }

  lemma {:induction false} EdgesLength(bends: seq<Bend>)
    ensures |Edges(bends)| == 2 * |bends|
  {
    if bends != [] {
      EdgesLength(bends[1..]);
    }
  }

  /** The commands of a contour: the opening move to where the last bend
      ends, the line and the arc of bend i at 2i + 1 and 2i + 2, and the
      final close. */
  lemma ContourAt(bends: seq<Bend>, i: nat)
    requires i < |bends|
    ensures |Contour(bends)| == 2 * |bends| + 2
    ensures Contour(bends)[0] == MoveTo(bends[|bends| - 1].exit)
    ensures Contour(bends)[2 * i + 1] == LineTo(bends[i].entry)
    ensures Contour(bends)[2 * i + 2] == ArcTo(bends[i].radius, bends[i].exit)
    ensures Contour(bends)[2 * |bends| + 1] == Close
  {
    EdgesAt(bends, i);
  }

  /** The outline is closed: its last arc ends where its opening move started. */
  lemma ContourCloses(bends: seq<Bend>)
    requires bends != []
    ensures var c := Contour(bends);
      |c| == 2 * |bends| + 2 && c[0].MoveTo? && c[|c| - 2].ArcTo? && c[|c| - 2].p == c[0].p
      && c[|c| - 1] == Close
  {
    ContourAt(bends, |bends| - 1);
  }

  // Moving a whole outline by the same amount on both axes.

  function ShiftPoint(p: Point, d: real): Point
  {
    Point(p.x + d, p.y + d)
  }

  function ShiftCmd(c: PathCmd, d: real): PathCmd
  {
    match c
    case MoveTo(p) => MoveTo(ShiftPoint(p, d))
    case LineTo(p) => LineTo(ShiftPoint(p, d))
    case ArcTo(r, p) => ArcTo(r, ShiftPoint(p, d))
    case Close => Close
  }

  function ShiftPath(cmds: seq<PathCmd>, d: real): (r: seq<PathCmd>)
    ensures |r| == |cmds|
    ensures forall i :: 0 <= i < |cmds| ==> r[i] == ShiftCmd(cmds[i], d)
  {
    seq(|cmds|, i requires 0 <= i < |cmds| => ShiftCmd(cmds[i], d))
  }

  function ShiftBends(bends: seq<Bend>, d: real): (r: seq<Bend>)
    ensures |r| == |bends|
    ensures forall i :: 0 <= i < |bends| ==>
              r[i] == Bend(ShiftPoint(bends[i].entry, d), ShiftPoint(bends[i].exit, d), bends[i].radius)
  {
    seq(|bends|, i requires 0 <= i < |bends| =>
      Bend(ShiftPoint(bends[i].entry, d), ShiftPoint(bends[i].exit, d), bends[i].radius))
  }

  lemma ShiftPathAppend(a: seq<PathCmd>, b: seq<PathCmd>, d: real)
    ensures ShiftPath(a + b, d) == ShiftPath(a, d) + ShiftPath(b, d)
  {
  }

  lemma {:induction false} EdgesShift(bends: seq<Bend>, d: real)
    ensures Edges(ShiftBends(bends, d)) == ShiftPath(Edges(bends), d)
  {
    if bends != [] {
      var moved := ShiftBends(bends, d);
      EdgesShift(bends[1..], d);
      assert moved[1..] == ShiftBends(bends[1..], d);
      ShiftPathAppend([LineTo(bends[0].entry), ArcTo(bends[0].radius, bends[0].exit)], Edges(bends[1..]), d);
    }
  }

  /** Building the outline from shifted bends is the same as shifting the
      outline: every point moves by d, radii and command kinds stay. */
  lemma ContourShift(bends: seq<Bend>, d: real)
    requires bends != []
    ensures Contour(ShiftBends(bends, d)) == ShiftPath(Contour(bends), d)
  {
    EdgesShift(bends, d);
    ShiftPathAppend([MoveTo(bends[|bends| - 1].exit)], Edges(bends), d);
    ShiftPathAppend([MoveTo(bends[|bends| - 1].exit)] + Edges(bends), [Close], d);
  }

  /** Every command that carries a point carries one inside the box
      [x0, x1] x [y0, y1]. */
  ghost predicate PointsWithin(cmds: seq<PathCmd>, x0: real, y0: real, x1: real, y1: real)
  {
    forall i :: 0 <= i < |cmds| && !cmds[i].Close? ==>
      x0 <= cmds[i].p.x <= x1 && y0 <= cmds[i].p.y <= y1
  }

  ghost predicate InBox(p: Point, x0: real, y0: real, x1: real, y1: real)
  {
    x0 <= p.x <= x1 && y0 <= p.y <= y1
  }

  lemma PointsWithinAppend(a: seq<PathCmd>, b: seq<PathCmd>, x0: real, y0: real, x1: real, y1: real)
    requires PointsWithin(a, x0, y0, x1, y1) && PointsWithin(b, x0, y0, x1, y1)
    ensures PointsWithin(a + b, x0, y0, x1, y1)
  {
    var c := a + b;
    forall i | 0 <= i < |c| && !c[i].Close?
      ensures x0 <= c[i].p.x <= x1 && y0 <= c[i].p.y <= y1
    {
      if i < |a| {
        assert c[i] == a[i];
      } else {
        assert c[i] == b[i - |a|];
      }
    }
  }

  lemma {:induction false} EdgesWithin(bends: seq<Bend>, x0: real, y0: real, x1: real, y1: real)
    requires forall i :: 0 <= i < |bends| ==>
               InBox(bends[i].entry, x0, y0, x1, y1) && InBox(bends[i].exit, x0, y0, x1, y1)
    ensures PointsWithin(Edges(bends), x0, y0, x1, y1)
  {
    if bends != [] {
      EdgesWithin(bends[1..], x0, y0, x1, y1);
      assert InBox(bends[0].entry, x0, y0, x1, y1) && InBox(bends[0].exit, x0, y0, x1, y1);
      PointsWithinAppend([LineTo(bends[0].entry), ArcTo(bends[0].radius, bends[0].exit)], Edges(bends[1..]), x0, y0, x1, y1);
    }
  }

  /** An outline stays inside a box when all its bends' end points do. */
  lemma ContourWithin(bends: seq<Bend>, x0: real, y0: real, x1: real, y1: real)
    requires bends != []
    requires forall i :: 0 <= i < |bends| ==>
               InBox(bends[i].entry, x0, y0, x1, y1) && InBox(bends[i].exit, x0, y0, x1, y1)
    ensures PointsWithin(Contour(bends), x0, y0, x1, y1)
  {
    EdgesWithin(bends, x0, y0, x1, y1);
    var first := [MoveTo(bends[|bends| - 1].exit)];
    assert InBox(bends[|bends| - 1].exit, x0, y0, x1, y1);
    PointsWithinAppend(first, Edges(bends), x0, y0, x1, y1);
    PointsWithinAppend(first + Edges(bends), [Close], x0, y0, x1, y1);
  }

  /** A product of two non-negative reals is non-negative (used for lengths
      scaled by a progress or a step). */
  lemma NonNegativeProduct(a: real, b: real)
    requires a >= 0.0 && b >= 0.0
    ensures a * b >= 0.0
  {
  }
}
