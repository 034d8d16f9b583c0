/** Gradient offset normalisation. A gradient owns an ordered list of stops;
    a stop's declared offset is "unset" when negative. Measuring fills in the
    render offset of every unset stop by linear interpolation between the
    anchors around it: an anchor is a stop with a non-negative offset, and
    the last stop closes the final segment whatever its offset. */
module Gradients {
  import opened Geometry

  /** Whether index i ends a segment: its stop is set, or it is the last. */
  predicate ClosesSegment(offs: seq<real>, i: nat)
    requires i < |offs|
  {
    offs[i] >= 0.0 || i == |offs| - 1
  }

  /** `Math.Max(offs[from], 0)`: an unset first stop starts at 0. */
  function SegmentStart(offs: seq<real>, from: nat): real
    requires from < |offs|
  {
    if offs[from] >= 0.0 then offs[from] else 0.0
  }

  /** `Math.Abs(offs[to])`: an unset last stop ends at the magnitude of its offset. */
  function SegmentEnd(offs: seq<real>, to: nat): real
    requires to < |offs|
  {
    if offs[to] >= 0.0 then offs[to] else -offs[to]
  }

  /** The distance between consecutive stops of the segment [from, to]; a
      one-stop segment has no step (its single value is the start). */
  function SegmentStep(offs: seq<real>, from: nat, to: nat): real
    requires from <= to < |offs|
  {
    if from == to then 0.0 else (SegmentEnd(offs, to) - SegmentStart(offs, from)) / (to - from) as real
  }

  /** The value the segment [from, to] assigns at index k. */
  function SegmentValue(offs: seq<real>, from: nat, to: nat, k: int): real
    requires from <= to < |offs|
  {
    SegmentStart(offs, from) + (k - from) as real * SegmentStep(offs, from, to)
  }

  /** The segment runs from its start to its end: the first index gets the
      start and, unless the segment is one stop long, the last gets the end. */
  lemma SegmentEnds(offs: seq<real>, from: nat, to: nat)
    requires from <= to < |offs|
    ensures SegmentValue(offs, from, to, from) == SegmentStart(offs, from)
    ensures from < to ==> SegmentValue(offs, from, to, to) == SegmentEnd(offs, to)
    ensures offs[from] < 0.0 ==> SegmentValue(offs, from, to, from) == 0.0
  {
    if from < to {
      var d := (to - from) as real;
      var diff := SegmentEnd(offs, to) - SegmentStart(offs, from);
      assert SegmentStep(offs, from, to) == diff / d;
      assert d * (diff / d) == diff;
    }
  }

  /** When the segment does not fall, its values rise with the index and stay
      between its start and its end. */
  lemma SegmentValueMonotone(offs: seq<real>, from: nat, to: nat, j: int, k: int)
    requires from <= to < |offs| && SegmentStart(offs, from) <= SegmentEnd(offs, to)
    requires from <= j <= k <= to
    ensures SegmentStart(offs, from) <= SegmentValue(offs, from, to, j)
    ensures SegmentValue(offs, from, to, j) <= SegmentValue(offs, from, to, k)
    ensures SegmentValue(offs, from, to, k) <= SegmentEnd(offs, to)
  {
    var s := SegmentStep(offs, from, to);
    assert s >= 0.0;
    SegmentValueGap(offs, from, to, from, j);
    SegmentValueGap(offs, from, to, j, k);
    NonNegativeProduct((j - from) as real, s);
    NonNegativeProduct((k - j) as real, s);
    if from < to {
      SegmentValueGap(offs, from, to, k, to);
      NonNegativeProduct((to - k) as real, s);
      SegmentEnds(offs, from, to);
    }
  }

  /** Values k - j indices apart differ by k - j steps. */
  lemma SegmentValueGap(offs: seq<real>, from: nat, to: nat, j: int, k: int)
    requires from <= to < |offs|
    ensures SegmentValue(offs, from, to, k) == SegmentValue(offs, from, to, j) + (k - j) as real * SegmentStep(offs, from, to)
  {
    var s := SegmentStep(offs, from, to);
    assert (k - from) as real * s == (j - from) as real * s + (k - j) as real * s;
  }

  /** Successive values differ by the step. */
  lemma SegmentValueNext(offs: seq<real>, from: nat, to: nat, k: int)
    requires from <= to < |offs|
    ensures SegmentValue(offs, from, to, k + 1) == SegmentValue(offs, from, to, k) + SegmentStep(offs, from, to)
  {
    var s := SegmentStep(offs, from, to);
    assert ((k + 1) - from) as real * s == (k - from) as real * s + s;
  }

  /** The index where the segment containing k starts: the nearest closing
      index before k, or 0 when there is none. */
  function PrevAnchor(offs: seq<real>, k: nat): (r: nat)
    requires k <= |offs|
    ensures r <= k && (k > 0 ==> r < k)
    ensures r == 0 || ClosesSegment(offs, r)
    ensures forall j :: r < j < k ==> !ClosesSegment(offs, j)
  {
    if k == 0 then 0
    else if ClosesSegment(offs, k - 1) then k - 1
    else PrevAnchor(offs, k - 1)
  }

  /** The index where the segment containing k ends: the nearest closing
      index at or after k (the last index closes, so there is one). */
  function NextAnchor(offs: seq<real>, k: nat): (r: nat)
    requires k < |offs|
    ensures k <= r < |offs| && ClosesSegment(offs, r)
    ensures forall j :: k <= j < r ==> !ClosesSegment(offs, j)
    decreases |offs| - k
  {
    if ClosesSegment(offs, k) then k else NextAnchor(offs, k + 1)
  }

  /** The interpolated offset of stop k, from the segment it lies in. */
  function Interpolated(offs: seq<real>, k: nat): real
    requires k < |offs|
  {
    SegmentValue(offs, PrevAnchor(offs, k), NextAnchor(offs, k), k)
  }

  /** The render offsets after measuring: every unset stop gets its
      interpolated offset, every set stop keeps its render offset. */
  function Normalized(offs: seq<real>, ro: seq<real>): (r: seq<real>)
    requires |ro| == |offs|
    ensures |r| == |offs|
    ensures forall k :: 0 <= k < |offs| && offs[k] >= 0.0 ==> r[k] == ro[k]
    ensures forall k :: 0 <= k < |offs| && offs[k] < 0.0 ==> r[k] == Interpolated(offs, k)
  {
    seq(|offs|, k requires 0 <= k < |offs| => if offs[k] < 0.0 then Interpolated(offs, k) else ro[k])
  }

  /** Stops with no closing index between them share their segment's start. */
  lemma PrevAnchorSkip(offs: seq<real>, k: nat, i: nat)
    requires k <= i <= |offs|
    requires forall j :: k <= j < i ==> !ClosesSegment(offs, j)
    ensures PrevAnchor(offs, i) == PrevAnchor(offs, k)
  {
  }

  /** Measuring twice is measuring once: the second pass reads only the
      declared offsets and writes the same values again. */
  lemma NormalizedIdempotent(offs: seq<real>, ro: seq<real>)
    requires |ro| == |offs|
    ensures Normalized(offs, Normalized(offs, ro)) == Normalized(offs, ro)
  {
  }

  /** The render offsets of unset stops depend on the declared offsets only. */
  lemma NormalizedIgnoresRender(offs: seq<real>, ro1: seq<real>, ro2: seq<real>, k: nat)
    requires |ro1| == |offs| == |ro2| && k < |offs| && offs[k] < 0.0
    ensures Normalized(offs, ro1)[k] == Normalized(offs, ro2)[k]
  {
  }

  /** A stop is set when its offset is not negative; the offset it is drawn
      at is then the declared one, else its render offset. */
  function Effective(offs: seq<real>, ro: seq<real>): (e: seq<real>)
    requires |ro| == |offs|
    ensures |e| == |offs|
    ensures forall k :: 0 <= k < |offs| ==> e[k] == if offs[k] >= 0.0 then offs[k] else ro[k]
  {
    seq(|offs|, k requires 0 <= k < |offs| => if offs[k] >= 0.0 then offs[k] else ro[k])
  }

  /** The set offsets are in order, and an unset last stop ends at or above
      every set offset. */
  predicate AnchorsSorted(offs: seq<real>)
  {
    && (forall i, j :: 0 <= i < j < |offs| && offs[i] >= 0.0 && offs[j] >= 0.0 ==> offs[i] <= offs[j])
    && (|offs| > 0 && offs[|offs| - 1] < 0.0 ==>
          forall i :: 0 <= i < |offs| && offs[i] >= 0.0 ==> offs[i] <= -offs[|offs| - 1])
  }

  /** Under sorted anchors, every segment's start is at most its end. */
  lemma SegmentRises(offs: seq<real>, from: nat, to: nat)
    requires AnchorsSorted(offs) && from <= to < |offs|
    requires from == 0 || offs[from] >= 0.0
    requires ClosesSegment(offs, to)
    ensures SegmentStart(offs, from) <= SegmentEnd(offs, to)
  {
  }

  /** The offset stop k is drawn at once measured: its declared offset when
      set, its interpolated one otherwise. */
  function DrawnAt(offs: seq<real>, k: nat): real
    requires k < |offs|
  {
    if offs[k] >= 0.0 then offs[k] else Interpolated(offs, k)
  }

  /** With sorted anchors, measuring leaves the offsets the stops are drawn at
      non-decreasing from the first stop to the last. */
  lemma NormalizedSorted(offs: seq<real>, ro: seq<real>)
    requires |ro| == |offs| && AnchorsSorted(offs)
    ensures var e := Effective(offs, Normalized(offs, ro));
      forall k :: 0 <= k < |offs| - 1 ==> e[k] <= e[k + 1]
  {
    var e := Effective(offs, Normalized(offs, ro));
    forall k | 0 <= k < |offs| - 1
      ensures e[k] <= e[k + 1]
    {
      assert e[k] == DrawnAt(offs, k) && e[k + 1] == DrawnAt(offs, k + 1);
      DrawnAtStep(offs, k);
    }
  }

  lemma DrawnAtStep(offs: seq<real>, k: nat)
    requires AnchorsSorted(offs) && k + 1 < |offs|
    ensures DrawnAt(offs, k) <= DrawnAt(offs, k + 1)
  {
    if offs[k] < 0.0 {
      var p, q := PrevAnchor(offs, k), NextAnchor(offs, k);
      SegmentRises(offs, p, q);
      if offs[k + 1] < 0.0 {
        assert NextAnchor(offs, k + 1) == q;
        PrevAnchorSkip(offs, k, k + 1);
        SegmentValueMonotone(offs, p, q, k, k + 1);
      } else {
        assert !ClosesSegment(offs, k) && ClosesSegment(offs, k + 1);
        assert q == k + 1;
        SegmentValueMonotone(offs, p, q, k, k);
      }
    } else if offs[k + 1] < 0.0 {
      var p, q := PrevAnchor(offs, k + 1), NextAnchor(offs, k + 1);
      assert p == k;
      SegmentRises(offs, p, q);
      SegmentValueMonotone(offs, p, q, k + 1, k + 1);
    }
  }

  /** `[-1, -1, 1.0]`: the first two stops are spread evenly to 0 and 0.5. */
  lemma EvenlySpaced(ro: seq<real>)
    requires |ro| == 3
    ensures Normalized([-1.0, -1.0, 1.0], ro) == [0.0, 0.5, ro[2]]
  {
    var offs := [-1.0, -1.0, 1.0];
    assert PrevAnchor(offs, 1) == 0 && NextAnchor(offs, 1) == 2;
    assert PrevAnchor(offs, 0) == 0 && NextAnchor(offs, 0) == 2;
  }

  /** `[-1, 0.8]`: the unset first stop gets 0, the set one keeps its own. */
  lemma UnsetFirstStop(ro: seq<real>)
    requires |ro| == 2
    ensures Normalized([-1.0, 0.8], ro) == [0.0, ro[1]]
  {
    var offs := [-1.0, 0.8];
    assert NextAnchor(offs, 0) == 1;
  }

  /** `[0.2, -1]`: an unset last stop gets the magnitude of its offset, 1. */
  lemma UnsetLastStop(ro: seq<real>)
    requires |ro| == 2
    ensures Normalized([0.2, -1.0], ro) == [ro[0], 1.0]
  {
    var offs := [0.2, -1.0];
    assert PrevAnchor(offs, 1) == 0 && NextAnchor(offs, 1) == 1;
  }

  /** A single unset stop gets 0. */
  lemma SingleUnsetStop(ro: seq<real>)
    requires |ro| == 1
    ensures Normalized([-1.0], ro) == [0.0]
  {
    var offs := [-1.0];
    assert PrevAnchor(offs, 0) == 0 && NextAnchor(offs, 0) == 0;
  }

  /** A stop of a gradient: its declared offset (negative when unset) and the
      offset it is rendered at. */
  class GradientStop {
    var Offset: real
    var RenderOffset: real
  }

  class Gradient {
    var Stops: seq<GradientStop>
    var IsRepeating: bool

    /** Each stop appears once in the list. */
    ghost predicate Valid()
      reads this
    {
      forall i, j :: 0 <= i < j < |Stops| ==> Stops[i] != Stops[j]
    }

    function Offsets(): (r: seq<real>)
      reads this, Stops
      ensures |r| == |Stops| && forall k :: 0 <= k < |Stops| ==> r[k] == Stops[k].Offset
    {
      seq(|Stops|, k reads this, Stops requires 0 <= k < |Stops| => Stops[k].Offset)
    }

    function RenderOffsets(): (r: seq<real>)
      reads this, Stops
      ensures |r| == |Stops| && forall k :: 0 <= k < |Stops| ==> r[k] == Stops[k].RenderOffset
    {
      seq(|Stops|, k reads this, Stops requires 0 <= k < |Stops| => Stops[k].RenderOffset)
    }

    constructor ()
      ensures Stops == [] && !IsRepeating
    {
      Stops, IsRepeating := [], false;
    }

    /** Fills the unset stops of the segment [fromIndex, toIndex] with evenly
        spaced offsets from the segment's start to its end. */
    method SetupUndefinedOffsets(fromIndex: nat, toIndex: nat)
      requires Valid() && fromIndex <= toIndex < |Stops|
      modifies Stops
      ensures Offsets() == old(Offsets())
      ensures forall k :: 0 <= k < |Stops| ==>
                Stops[k].RenderOffset ==
                  if fromIndex <= k <= toIndex && Stops[k].Offset < 0.0
                  then SegmentValue(old(Offsets()), fromIndex, toIndex, k)
                  else old(Stops[k].RenderOffset)
    {
      ghost var offs := Offsets();
      var currentOffset := if Stops[fromIndex].Offset >= 0.0 then Stops[fromIndex].Offset else 0.0;
      var endOffset := if Stops[toIndex].Offset >= 0.0 then Stops[toIndex].Offset else -Stops[toIndex].Offset;

      var step := if toIndex == fromIndex then 0.0 else (endOffset - currentOffset) / (toIndex - fromIndex) as real;

      var i := fromIndex;
      while i <= toIndex
        invariant fromIndex <= i <= toIndex + 1
        invariant step == SegmentStep(offs, fromIndex, toIndex)
        invariant currentOffset == SegmentValue(offs, fromIndex, toIndex, i)
        invariant forall k :: 0 <= k < |Stops| ==> Stops[k].Offset == offs[k]
        invariant forall k :: 0 <= k < |Stops| ==>
                    Stops[k].RenderOffset ==
                      if fromIndex <= k < i && offs[k] < 0.0
                      then SegmentValue(offs, fromIndex, toIndex, k)
                      else old(Stops[k].RenderOffset)
      {
        var stop := Stops[i];

        if stop.Offset < 0.0 {
          stop.RenderOffset := currentOffset;
        }
        SegmentValueNext(offs, fromIndex, toIndex, i);
        currentOffset := currentOffset + step;
        i := i + 1;
      }
    }

    /** Walks the stops and, at every closing index, fills the segment that
        ends there; the size of the surface plays no part. The render offsets
        become the normalised ones; nothing else changes. */
    method Measure(width: int, height: int)
      requires Valid()
      modifies Stops
      ensures Offsets() == old(Offsets())
      ensures RenderOffsets() == Normalized(old(Offsets()), old(RenderOffsets()))
    {
      ghost var offs := Offsets();
      ghost var ro := RenderOffsets();
      ghost var norm := Normalized(offs, ro);
      var fromIndex := 0;

      for i := 0 to |Stops|
        invariant fromIndex == PrevAnchor(offs, i)
        invariant Offsets() == offs
        invariant forall k :: 0 <= k < |Stops| ==>
                    Stops[k].RenderOffset == if NextAnchor(offs, k) < i then norm[k] else ro[k]
      {
        if Stops[i].Offset >= 0.0 || i == |Stops| - 1 {
          SetupUndefinedOffsets(fromIndex, i);
          forall k | 0 <= k < |Stops|
            ensures Stops[k].RenderOffset == if NextAnchor(offs, k) < i + 1 then norm[k] else ro[k]
          {
            MeasureStep(offs, ro, i, k);
          }
          fromIndex := i;
        } else {
          forall k | 0 <= k < |Stops|
            ensures NextAnchor(offs, k) != i
          {
          }
        }
      }
    }
  }

  /** What one closing index i does to stop k: stops whose segment ended
      earlier are not touched again, stops of the segment ending at i get
      their normalised value from it, later stops are not touched yet. */
  lemma MeasureStep(offs: seq<real>, ro: seq<real>, i: nat, k: nat)
    requires |ro| == |offs| && i < |offs| && k < |offs| && ClosesSegment(offs, i)
    ensures var from := PrevAnchor(offs, i);
      && (NextAnchor(offs, k) < i ==> !(from <= k <= i && offs[k] < 0.0))
      && (NextAnchor(offs, k) > i ==> !(from <= k <= i))
      && (NextAnchor(offs, k) == i && offs[k] < 0.0 ==>
            from <= k <= i && Normalized(offs, ro)[k] == SegmentValue(offs, from, i, k))
      && (NextAnchor(offs, k) == i && offs[k] >= 0.0 ==> Normalized(offs, ro)[k] == ro[k])
  {
    var from := PrevAnchor(offs, i);
    var q := NextAnchor(offs, k);
    if q == i && offs[k] < 0.0 {
      PrevAnchorSkip(offs, k, i);
    }
  }
}
