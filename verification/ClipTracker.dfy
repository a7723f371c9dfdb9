/** The clip tracker: how it narrows its cull rectangle, and that what it answers is what the
    recorder relies on. One of its roundings is not conservative; this module says when. */
module ClipTracker {
  import opened Geometry
  import opened Blending
  import opened Painting
  import opened DisplayLists
  import opened Recorder
  import opened Reference

  // ---------- narrowing a rectangle ----------

  function FloorSpan(s: Span): Span { Span(s.lo.Floor as real, -((-s.hi).Floor as real)) }

  function RoundOut(r: Rect): Rect { Rect(FloorSpan(r.x), FloorSpan(r.y)) }

  // What is left of one axis after the hole is cut off one end; all of it if the hole is inside.
  function CutSpan(s: Span, hole: Span): Span {
    if hole.lo <= s.lo && s.lo < hole.hi then Span(hole.hi, s.hi)
    else if hole.lo < s.hi && s.hi <= hole.hi then Span(s.lo, hole.lo)
    else s
  }

  // What is left of a rectangle when that is a rectangle again, and otherwise all of it.
  function Cutout(r: Rect, hole: Rect): Rect {
    if Covers(hole.x, r.x) && Covers(hole.y, r.y) then EMPTY
    else if Covers(hole.x, r.x) then r.(y := CutSpan(r.y, hole.y))
    else if Covers(hole.y, r.y) then r.(x := CutSpan(r.x, hole.x))
    else r
  }

  lemma CutoutKeepsTheRest(r: Rect, hole: Rect, p: Point)
    requires Inside(p, r) && !Inside(p, hole)
    ensures Inside(p, Cutout(r, hole))
  {
  }

  function AdjustCull(t: Tracker, clip: Rect, op: ClipOp, aa: bool): Rect {
    if t.cull.IsEmpty() then t.cull
    else if op == Intersect then
      if clip.IsEmpty() then EMPTY
      else
        var mapped := MapRect(t.matrix, clip);
        Intersection(t.cull, if aa then RoundOut(mapped) else mapped)
    else if clip.IsEmpty() then t.cull
    else
      var mapped := MapRect(t.matrix, clip);
      if !aa then Cutout(t.cull, mapped)
      else if Round(mapped).IsEmpty() then t.cull
      else Cutout(t.cull, Round(mapped))
  }

  predicate RectCoversCull(t: Tracker, content: Rect) {
    !content.IsEmpty() && (t.cull.IsEmpty() || Contains(MapRect(t.matrix, content), t.cull))
  }

  // ---------- narrowing as far as a rectangle can ----------

  // A span whose points all lie in another one lies in it.
  lemma SpanPoints(a: Span, b: Span)
    requires !a.Empty() && forall v :: Within(v, a) ==> Within(v, b)
    ensures Covers(b, a)
  {
    var v := Max(a.lo, b.hi);
    assert Within(a.lo, a) && (b.hi < a.hi ==> Within(v, a));
  }

  lemma RectPoints(a: Rect, b: Rect)
    requires forall p :: Inside(p, a) ==> Inside(p, b)
    ensures Enclosed(a, b)
  {
    if !a.IsEmpty() {
      forall v | Within(v, a.x) ensures Within(v, b.x) { assert Inside(Point(v, a.y.lo), a); }
      forall v | Within(v, a.y) ensures Within(v, b.y) { assert Inside(Point(a.x.lo, v), a); }
      SpanPoints(a.x, b.x);
      SpanPoints(a.y, b.y);
    }
  }

  // Some point of a span is outside the hole unless the hole covers it.
  lemma SpanOutside(s: Span, hole: Span) returns (v: real)
    requires !s.Empty() && !Covers(hole, s)
    ensures Within(v, s) && !Within(v, hole)
  {
    v := if s.lo < hole.lo then s.lo else Max(hole.hi, s.lo);
  }

  // What is left of a span outside the hole is in no smaller span.
  lemma CutSpanIsLeast(s: Span, hole: Span, e: Span)
    requires !s.Empty() && !Covers(hole, s) && forall v :: Within(v, s) && !Within(v, hole) ==> Within(v, e)
    ensures Covers(e, CutSpan(s, hole))
  {
    var c := CutSpan(s, hole);
    assert Within(c.lo, s) && !Within(c.lo, hole);
    if e.hi < c.hi { var v := OutsideBeyond(s, hole, Max(c.lo, e.hi)); }
  }

  lemma OutsideBeyond(s: Span, hole: Span, w: real) returns (v: real)
    requires !Covers(hole, s) && Within(w, CutSpan(s, hole)) && CutSpan(s, hole).lo <= w
    ensures v >= w && Within(v, s) && !Within(v, hole)
  {
    v := if Within(w, hole) then hole.hi else w;
  }

  // No smaller rectangle holds all of the rectangle that is outside the hole.
  lemma CutoutIsLeast(r: Rect, hole: Rect, e: Rect)
    requires forall p :: Inside(p, r) && !Inside(p, hole) ==> Inside(p, e)
    ensures Enclosed(Cutout(r, hole), e)
  {
    if !r.IsEmpty() && !(Covers(hole.x, r.x) && Covers(hole.y, r.y)) {
      if Covers(hole.x, r.x) {
        var y := SpanOutside(r.y, hole.y);
        forall v | Within(v, r.x) ensures Within(v, e.x) { assert Inside(Point(v, y), e); }
        forall v | Within(v, r.y) && !Within(v, hole.y) ensures Within(v, e.y) { assert Inside(Point(r.x.lo, v), e); }
        SpanPoints(r.x, e.x);
        CutSpanIsLeast(r.y, hole.y, e.y);
      } else if Covers(hole.y, r.y) {
        var x := SpanOutside(r.x, hole.x);
        forall v | Within(v, r.y) ensures Within(v, e.y) { assert Inside(Point(x, v), e); }
        forall v | Within(v, r.x) && !Within(v, hole.x) ensures Within(v, e.x) { assert Inside(Point(v, r.y.lo), e); }
        SpanPoints(r.y, e.y);
        CutSpanIsLeast(r.x, hole.x, e.x);
      } else {
        var x := SpanOutside(r.x, hole.x);
        var y := SpanOutside(r.y, hole.y);
        forall v | Within(v, r.x) ensures Within(v, e.x) { assert Inside(Point(v, y), e); }
        forall v | Within(v, r.y) ensures Within(v, e.y) { assert Inside(Point(x, v), e); }
        SpanPoints(r.x, e.x);
        SpanPoints(r.y, e.y);
      }
    }
  }

  // Rounding out gives the least rectangle with whole sides.
  lemma RoundOutIsLeast(r: Rect, l: int, t: int, right: int, b: int)
    ensures Contains(RoundOut(r), r)
    ensures Contains(LTRB(l as real, t as real, right as real, b as real), r) ==>
              Contains(LTRB(l as real, t as real, right as real, b as real), RoundOut(r))
  {
    hide FloorSpan;
    FloorIsLeast(r.x, l, right);
    FloorIsLeast(r.y, t, b);
  }

  lemma FloorIsLeast(s: Span, lo: int, hi: int)
    ensures Covers(FloorSpan(s), s)
    ensures Covers(Span(lo as real, hi as real), s) ==> Covers(Span(lo as real, hi as real), FloorSpan(s))
  {
    var below, above := s.lo.Floor, (-s.hi).Floor;
    assert FloorSpan(s) == Span(below as real, -(above as real));
    if Covers(Span(lo as real, hi as real), s) {
      assert lo < below + 1 && -hi < above + 1;
    }
  }

  // A clip leaves exactly what is in the old cull rectangle and in the image of the clip, rounded out if
  // it is anti-aliased; cutting out leaves the least rectangle around what is outside the hole.
  lemma NarrowingIsTight(t: Tracker, clip: Rect, op: ClipOp, aa: bool)
    ensures var r, mapped := AdjustCull(t, clip, op, aa), MapRect(t.matrix, clip);
            op == Intersect ==>
              forall p :: Inside(p, r) <==> Inside(p, t.cull) && !clip.IsEmpty()
                                            && Inside(p, if aa then RoundOut(mapped) else mapped)
    ensures var r, mapped := AdjustCull(t, clip, op, aa), MapRect(t.matrix, clip);
            var hole := if aa then Round(mapped) else mapped;
            op == Difference ==>
              forall e :: (forall p :: Inside(p, t.cull) && (clip.IsEmpty() || !Inside(p, hole)) ==> Inside(p, e)) ==>
                Enclosed(r, e)
  {
    var r, mapped := AdjustCull(t, clip, op, aa), MapRect(t.matrix, clip);
    var hole := if aa then Round(mapped) else mapped;
    if op == Difference {
      forall e | forall p :: Inside(p, t.cull) && (clip.IsEmpty() || !Inside(p, hole)) ==> Inside(p, e)
        ensures Enclosed(r, e)
      {
        if clip.IsEmpty() || (aa && hole.IsEmpty()) { RectPoints(t.cull, e); } else { CutoutIsLeast(t.cull, hole, e); }
      }
    }
  }

  // A rectangle is known to cover the cull rectangle exactly if it holds all of its points.
  lemma CoveringIsExact(t: Tracker, content: Rect)
    ensures RectCoversCull(t, content) <==>
              !content.IsEmpty() && forall p :: Inside(p, t.cull) ==> Inside(p, MapRect(t.matrix, content))
  {
    if !content.IsEmpty() && forall p :: Inside(p, t.cull) ==> Inside(p, MapRect(t.matrix, content)) {
      RectPoints(t.cull, MapRect(t.matrix, content));
    }
  }

  // ---------- rounding a hole ----------

  // Cutting out a rounded hole loses no point outside the hole, whatever the cull rectangle,
  // exactly when rounding does not move a side of the hole outwards.
  lemma RoundedHoleIsSafe(hole: Rect)
    ensures (forall cull, p :: Inside(p, cull) && !Inside(p, hole) && !Round(hole).IsEmpty()
                               ==> Inside(p, Cutout(cull, Round(hole))))
            <==> Round(hole).IsEmpty() || Contains(hole, Round(hole))
  {
    var r := Round(hole);
    if !r.IsEmpty() && !Contains(hole, r) {
      OutsideHole(hole, r);
    }
    if r.IsEmpty() || Contains(hole, r) {
      forall cull, p | Inside(p, cull) && !Inside(p, hole) && !r.IsEmpty() ensures Inside(p, Cutout(cull, r)) {
        CutoutKeepsTheRest(cull, r, p);
      }
    }
  }

  lemma OutsideHole(hole: Rect, r: Rect)
    requires !r.IsEmpty() && !Contains(hole, r)
    ensures exists p :: Inside(p, r) && !Inside(p, hole) && !Inside(p, Cutout(r, r))
  {
    var p :=
      if r.x.lo < hole.x.lo then Point(r.x.lo, r.y.lo)
      else if hole.x.hi < r.x.hi then Point(Max(hole.x.hi, r.x.lo), r.y.lo)
      else if r.y.lo < hole.y.lo then Point(r.x.lo, r.y.lo)
      else Point(r.x.lo, Max(hole.y.hi, r.y.lo));
    assert Inside(p, r) && !Inside(p, hole);
  }

  // ---------- the contract that the recorder relies on ----------

  function Meeting(leaves: seq<Leaf>, query: Rect): seq<Rect> {
    if leaves == [] then []
    else
      var last := leaves[|leaves| - 1].rect;
      Meeting(leaves[..|leaves| - 1], query) + if Intersects(last, query) then [last] else []
  }

  lemma {:induction false} MeetingIsExact(leaves: seq<Leaf>, query: Rect, r: Rect)
    ensures r in Meeting(leaves, query) <==>
              Intersects(r, query) && exists i :: 0 <= i < |leaves| && leaves[i].rect == r
  {
    if leaves != [] {
      var n := |leaves| - 1;
      MeetingIsExact(leaves[..n], query, r);
      assert forall i :: 0 <= i < n ==> leaves[..n][i] == leaves[i];
    }
  }

  // Cuts holes out of the cull rectangle, the first one first.
  function CutAll(t: Tracker, holes: seq<Rect>, aa: bool): Rect
    decreases |holes|
  {
    if holes == [] then t.cull
    else CutAll(t.(cull := AdjustCull(t, holes[0], Difference, aa)), holes[1..], aa)
  }

  // The tracker as the recorder's engine. It narrows its cull rectangle by the bounds of a shape
  // that it keeps, and cuts out the rectangles within a shape that it removes. For ovals and
  // rounded rectangles it also tests the corners of the cull rectangle.
  function TrackerEngine(rest: Engine, covers: (Tracker, Shape) -> bool, holes: Shape -> seq<Rect>): Engine {
    rest.(
      clipCull := (t: Tracker, s: Shape, op: ClipOp, aa: bool) =>
        if op == Intersect then AdjustCull(t, s.bounds, op, aa)
        else if (s.kind == OvalShape || s.kind == RoundRectShape) && covers(t, s) then EMPTY
        else CutAll(t, holes(s), aa),
      coversCull := (t: Tracker, s: Shape) =>
        if s.kind == RectShape then RectCoversCull(t, s.bounds) else covers(t, s),
      consolidate := Meeting)
  }

  // A shape lies in its bounds and holds its holes; a rectangle is its bounds and its one hole.
  ghost predicate Fits(w: World) {
    && (forall s, m, p :: w.inside(s, m, p) ==> Inside(p, MapRect(m, s.bounds)))
    && (forall s: Shape, m, p :: s.kind == RectShape && Inside(p, MapRect(m, s.bounds)) ==> w.inside(s, m, p))
    && (forall s: Shape, m, p :: HitsHole(w, s, m, p) ==> w.inside(s, m, p))
    && (forall s: Shape :: s.kind == RectShape ==> w.holes(s) == [s.bounds])
  }

  ghost predicate HitsHole(w: World, s: Shape, m: Matrix, p: Point) { InAny(w.holes(s), m, p) }

  lemma MapSpanCut(a: Axis, s: Span, h: Span, v: real)
    requires !s.Empty() && h.lo <= h.hi && Within(v, MapSpan(a, s)) && !Within(v, MapSpan(a, h)) && !Covers(h, s)
    ensures Within(v, MapSpan(a, CutSpan(s, h))) && !CutSpan(s, h).Empty()
  {
    ApplyOrder(a, s.lo, s.hi);
    ApplyOrder(a, h.lo, h.hi);
    if h.lo <= s.lo && s.lo < h.hi {
      ApplyChain(a, h.lo, s.lo, h.hi, s.hi);
    } else if h.lo < s.hi && s.hi <= h.hi {
      ApplyChain(a, s.lo, h.lo, s.hi, h.hi);
    }
  }

  lemma MapSpanWithin(a: Axis, s: Span, h: Span, v: real)
    requires !s.Empty() && Covers(h, s) && Within(v, MapSpan(a, s))
    ensures Within(v, MapSpan(a, h))
  {
    MapSpanCovers(a, h, s);
  }

  // Cutting a hole loses no point outside the hole, in any outer coordinates.
  lemma MapCutout(base: Matrix, r: Rect, hole: Rect, p: Point)
    requires hole.x.lo <= hole.x.hi && hole.y.lo <= hole.y.hi
    requires Inside(p, MapRect(base, r)) && !Inside(p, Rect(MapSpan(base.x, hole.x), MapSpan(base.y, hole.y)))
    ensures Inside(p, MapRect(base, Cutout(r, hole)))
  {
    hide CutSpan;
    if Covers(hole.x, r.x) { MapSpanWithin(base.x, r.x, hole.x, p.x); }
    if Covers(hole.y, r.y) { MapSpanWithin(base.y, r.y, hole.y, p.y); }
    if Covers(hole.x, r.x) {
      MapSpanCut(base.y, r.y, hole.y, p.y);
    } else if Covers(hole.y, r.y) {
      MapSpanCut(base.x, r.x, hole.x, p.x);
    }
  }

  lemma MappedSpan(outer: Matrix, inner: Matrix, r: Rect)
    requires !r.IsEmpty()
    ensures var i := MapRect(inner, r);
            && i.x.lo <= i.x.hi && i.y.lo <= i.y.hi
            && MapRect(Compose(outer, inner), r) == Rect(MapSpan(outer.x, i.x), MapSpan(outer.y, i.y))
  {
    MapSpanCompose(outer.x, inner.x, r.x);
    MapSpanCompose(outer.y, inner.y, r.y);
  }

  // Rounding out keeps every point, in any outer coordinates.
  lemma MapRoundOut(base: Matrix, r: Rect, p: Point)
    requires Inside(p, MapRect(base, r))
    ensures Inside(p, MapRect(base, RoundOut(r)))
  {
    RoundOutContains(r);
    MapMonotone(base, RoundOut(r), r);
  }

  lemma RoundOutContains(r: Rect)
    requires !r.IsEmpty()
    ensures Contains(RoundOut(r), r)
  {
  }

  // The cull rectangle narrowed to a clip keeps the points of the clip.
  lemma IntersectionIsConservative(t: Tracker, clip: Rect, aa: bool, base: Matrix, p: Point)
    requires InBase(base, t.cull, p) && Inside(p, MapRect(Compose(base, t.matrix), clip))
    ensures InBase(base, AdjustCull(t, clip, Intersect, aa), p)
  {
    hide MapSpan, RoundOut, Compose;
    var mapped := MapRect(t.matrix, clip);
    MappedSpan(base, t.matrix, clip);
    assert !mapped.IsEmpty() by { MapOfEmptySpan(base, mapped, p); }
    MapRoundOut(base, mapped, p);
    MapIntersection(base, t.cull, if aa then RoundOut(mapped) else mapped, p);
  }

  // The cull rectangle without a hole keeps the points outside the hole.
  lemma DifferenceIsConservative(t: Tracker, hole: Rect, aa: bool, base: Matrix, p: Point)
    requires aa ==> SafeHole(MapRect(t.matrix, hole))
    requires InBase(base, t.cull, p) && !Inside(p, MapRect(Compose(base, t.matrix), hole))
    ensures InBase(base, AdjustCull(t, hole, Difference, aa), p)
  {
    hide MapSpan, Round, Cutout, Compose;
    if !hole.IsEmpty() {
      var mapped := MapRect(t.matrix, hole);
      MappedSpan(base, t.matrix, hole);
      if !aa {
        MapCutout(base, t.cull, mapped, p);
      } else if !Round(mapped).IsEmpty() {
        SmallerHole(base, mapped, Round(mapped), p);
        MapCutout(base, t.cull, Round(mapped), p);
      }
    }
  }

  lemma SmallerHole(base: Matrix, hole: Rect, smaller: Rect, p: Point)
    requires !smaller.IsEmpty() && Contains(hole, smaller)
    requires !Inside(p, Rect(MapSpan(base.x, hole.x), MapSpan(base.y, hole.y)))
    ensures !Inside(p, Rect(MapSpan(base.x, smaller.x), MapSpan(base.y, smaller.y)))
  {
    MapMonotone(base, hole, smaller);
  }

  lemma {:induction false} CutsAreConservative(t: Tracker, holes: seq<Rect>, aa: bool, base: Matrix, p: Point)
    requires aa ==> forall i :: 0 <= i < |holes| ==> SafeHole(MapRect(t.matrix, holes[i]))
    requires InBase(base, t.cull, p) && !InAny(holes, Compose(base, t.matrix), p)
    ensures InBase(base, CutAll(t, holes, aa), p)
    decreases |holes|
  {
    if holes != [] {
      var first, rest := AdjustCull(t, holes[0], Difference, aa), holes[1..];
      assert !Inside(p, MapRect(Compose(base, t.matrix), holes[0]));
      DifferenceIsConservative(t, holes[0], aa, base, p);
      hide InBase, AdjustCull;
      assert forall i :: 0 <= i < |rest| ==> rest[i] == holes[i + 1];
      CutsAreConservative(t.(cull := first), rest, aa, base, p);
    }
  }

  lemma MapOfEmptySpan(base: Matrix, r: Rect, p: Point)
    requires r.x.lo <= r.x.hi && r.y.lo <= r.y.hi && Inside(p, Rect(MapSpan(base.x, r.x), MapSpan(base.y, r.y)))
    ensures !r.IsEmpty()
  {
  }

  lemma CoveringCovers(t: Tracker, content: Rect, base: Matrix, p: Point)
    requires RectCoversCull(t, content) && InBase(base, t.cull, p)
    ensures Inside(p, MapRect(Compose(base, t.matrix), content))
  {
    hide MapSpan, Compose;
    MapMonotone(base, MapRect(t.matrix, content), t.cull);
    MapCompose(base, t.matrix, content);
  }

  lemma {:induction false} MeetingCovers(leaves: seq<Leaf>, query: Rect, m: Matrix, p: Point, i: nat)
    requires i < |leaves| && Inside(p, MapRect(m, leaves[i].rect)) && InBase(m, query, p)
    ensures InAny(Meeting(leaves, query), m, p)
  {
    var n := |leaves| - 1;
    var rest := Meeting(leaves[..n], query);
    if i < n {
      MeetingCovers(leaves[..n], query, m, p, i);
      var j :| 0 <= j < |rest| && Inside(p, MapRect(m, rest[j]));
      assert Meeting(leaves, query)[j] == rest[j];
    } else {
      if !Intersects(leaves[n].rect, query) { MapKeepsApart(m, leaves[n].rect, query, p); }
      assert Meeting(leaves, query)[|rest|] == leaves[n].rect;
    }
  }

  // The tracker loses no point by any clip but an anti-aliased difference, nor by one whose holes
  // round to no more than themselves.
  lemma NarrowingIsConservative(rest: Engine, covers: (Tracker, Shape) -> bool, w: World,
                                t: Tracker, s: Shape, op: ClipOp, aa: bool, base: Matrix, p: Point)
    requires Fits(w) && SoundCovering(covers, w) && SafeClip(w, s, op, aa, t.matrix)
    requires InBase(base, t.cull, p) && Keeps(w, s, op, Compose(base, t.matrix), p)
    ensures InBase(base, TrackerEngine(rest, covers, w.holes).clipCull(t, s, op, aa), p)
  {
    hide MapRect, Compose, AdjustCull, CutAll, SafeHole, InAny;
    if op == Intersect {
      IntersectionIsConservative(t, s.bounds, aa, base, p);
    } else {
      assert !HitsHole(w, s, Compose(base, t.matrix), p);
      CutsAreConservative(t, w.holes(s), aa, base, p);
    }
  }

  // The program's tracker, rounding and all, is what the meaning theorem asks for.
  lemma TrackerIsSound(rest: Engine, covers: (Tracker, Shape) -> bool, w: World)
    requires Fits(w) && SoundCovering(covers, w) && SoundAreas(rest, w) && SoundFilters(rest, w)
    ensures SoundEngine(TrackerEngine(rest, covers, w.holes), w)
  {
    hide Fits, SafeClip, InBase, InAny, MapRect, Compose, LeafRects, RectCoversCull, SoundFilters;
    var e := TrackerEngine(rest, covers, w.holes);
    forall t: Tracker, s, op, aa, base, p
      | SafeClip(w, s, op, aa, t.matrix) && InBase(base, t.cull, p) && Keeps(w, s, op, Compose(base, t.matrix), p)
      ensures InBase(base, e.clipCull(t, s, op, aa), p)
    {
      NarrowingIsConservative(rest, covers, w, t, s, op, aa, base, p);
    }
    forall t: Tracker, s: Shape, base, p | s.kind != PathShape && e.coversCull(t, s) && InBase(base, t.cull, p)
      ensures w.inside(s, Compose(base, t.matrix), p)
    {
      if s.kind == RectShape { CoveringRect(w, t, s, base, p); }
    }
    forall leaves: seq<Leaf>, query, m, p | InAny(LeafRects(leaves), m, p) && InBase(m, query, p)
      ensures InAny(e.consolidate(leaves, query), m, p)
    {
      MeetingIsSound(leaves, query, m, p);
    }
    SameAreas(rest, e, w);
    SameFilters(rest, e, w);
  }

  lemma SameFilters(rest: Engine, e: Engine, w: World)
    requires SoundFilters(rest, w) && e.inputBounds == rest.inputBounds
    ensures SoundFilters(e, w)
  {
    hide InBase;
  }

  lemma CoveringRect(w: World, t: Tracker, s: Shape, base: Matrix, p: Point)
    requires Fits(w) && s.kind == RectShape && RectCoversCull(t, s.bounds) && InBase(base, t.cull, p)
    ensures w.inside(s, Compose(base, t.matrix), p)
  {
    CoveringCovers(t, s.bounds, base, p);
  }

  lemma MeetingIsSound(leaves: seq<Leaf>, query: Rect, m: Matrix, p: Point)
    requires InAny(LeafRects(leaves), m, p) && InBase(m, query, p)
    ensures InAny(Meeting(leaves, query), m, p)
  {
    var i :| 0 <= i < |leaves| && Inside(p, MapRect(m, leaves[i].rect));
    MeetingCovers(leaves, query, m, p, i);
  }

  lemma SameAreas(rest: Engine, e: Engine, w: World)
    requires SoundAreas(rest, w) && e.mapLocal == rest.mapLocal
    ensures SoundAreas(e, w)
  {
    forall p, d ensures Area(e, p, d) == Area(rest, p, d) {
    }
  }
}
