/** Axis-aligned geometry over the reals: rectangles, points, and the scale-translate
    matrices under which a rectangle maps exactly to a rectangle.
    Everything is defined one axis at a time. */
module Geometry {

  datatype Option<+T> = None | Some(value: T)

  function Min(a: real, b: real): real { if a <= b then a else b }

  function Max(a: real, b: real): real { if a <= b then b else a }

  // A half-open span of one axis, so that adjacent spans share no point.
  datatype Span = Span(lo: real, hi: real) {
    predicate Empty() { hi <= lo }
  }

  predicate Within(v: real, s: Span) { s.lo <= v < s.hi }

  predicate Covers(a: Span, b: Span) { a.lo <= b.lo && b.hi <= a.hi }

  predicate Apart(a: Span, b: Span) { a.hi <= b.lo || b.hi <= a.lo }

  function Meet(a: Span, b: Span): Span { Span(Max(a.lo, b.lo), Min(a.hi, b.hi)) }

  function Join(a: Span, b: Span): Span { Span(Min(a.lo, b.lo), Max(a.hi, b.hi)) }

  datatype Point = Point(x: real, y: real)

  datatype Rect = Rect(x: Span, y: Span) {
    predicate IsEmpty() { x.Empty() || y.Empty() }
  }

  function LTRB(l: real, t: real, r: real, b: real): Rect { Rect(Span(l, r), Span(t, b)) }

  const EMPTY: Rect := LTRB(0.0, 0.0, 0.0, 0.0)

  // The rectangle a saveLayer starts its layer-local clip tracking with.
  const MAX_CULL: Rect := LTRB(-1000000000.0, -1000000000.0, 1000000000.0, 1000000000.0)

  predicate Inside(p: Point, r: Rect) { Within(p.x, r.x) && Within(p.y, r.y) }

  predicate Contains(a: Rect, b: Rect) { Covers(a.x, b.x) && Covers(a.y, b.y) }

  // An empty rectangle lies everywhere.
  predicate Enclosed(a: Rect, b: Rect) { a.IsEmpty() || Contains(b, a) }

  predicate Intersects(a: Rect, b: Rect) {
    !a.IsEmpty() && !b.IsEmpty() && !Apart(a.x, b.x) && !Apart(a.y, b.y)
  }

  function Intersection(a: Rect, b: Rect): Rect {
    if Intersects(a, b) then Rect(Meet(a.x, b.x), Meet(a.y, b.y)) else EMPTY
  }

  // The bounding box of two rectangles; an empty rectangle contributes nothing.
  function Union(a: Rect, b: Rect): Rect {
    if a.IsEmpty() then b
    else if b.IsEmpty() then a
    else Rect(Join(a.x, b.x), Join(a.y, b.y))
  }

  function Nearest(v: real): real { (v + 0.5).Floor as real }

  function Round(r: Rect): Rect { Rect(Span(Nearest(r.x.lo), Nearest(r.x.hi)), Span(Nearest(r.y.lo), Nearest(r.y.hi))) }

  // One axis of a matrix: scale, then translate.
  datatype Axis = Axis(scale: real, shift: real)

  datatype Matrix = Matrix(x: Axis, y: Axis) {
    predicate Invertible() { x.scale != 0.0 && y.scale != 0.0 }
  }

  const IDENTITY: Matrix := Matrix(Axis(1.0, 0.0), Axis(1.0, 0.0))

  function Apply(a: Axis, v: real): real { a.scale * v + a.shift }

  // Applies `inner` first.
  function ComposeAxis(outer: Axis, inner: Axis): Axis {
    Axis(outer.scale * inner.scale, outer.scale * inner.shift + outer.shift)
  }

  function Compose(outer: Matrix, inner: Matrix): Matrix {
    Matrix(ComposeAxis(outer.x, inner.x), ComposeAxis(outer.y, inner.y))
  }

  function InverseAxis(a: Axis): Axis
    requires a.scale != 0.0
  {
    Axis(1.0 / a.scale, -a.shift / a.scale)
  }

  function Inverse(m: Matrix): Matrix
    requires m.Invertible()
  {
    Matrix(InverseAxis(m.x), InverseAxis(m.y))
  }

  function MapSpan(a: Axis, s: Span): Span {
    Span(Min(Apply(a, s.lo), Apply(a, s.hi)), Max(Apply(a, s.lo), Apply(a, s.hi)))
  }

  function MapRect(m: Matrix, r: Rect): Rect {
    if r.IsEmpty() then EMPTY else Rect(MapSpan(m.x, r.x), MapSpan(m.y, r.y))
  }

  // ---------- rectangles ----------

  lemma IntersectsIffNonEmpty(a: Rect, b: Rect)
    ensures Intersects(a, b) <==> !Intersection(a, b).IsEmpty()
  {
  }

  // Rectangles meet exactly if they share a point.
  lemma MeetsPoint(a: Rect, b: Rect)
    ensures Intersects(a, b) <==> exists p :: Inside(p, a) && Inside(p, b)
  {
    if Intersects(a, b) {
      var p := Point(Max(a.x.lo, b.x.lo), Max(a.y.lo, b.y.lo));
      assert Inside(p, a) && Inside(p, b);
    }
  }

  lemma UnionAssociative(a: Rect, b: Rect, c: Rect)
    ensures Union(Union(a, b), c) == Union(a, Union(b, c))
  {
  }

  lemma UnionWithin(a: Rect, b: Rect, e: Rect)
    ensures Enclosed(Union(a, b), e) <==> Enclosed(a, e) && Enclosed(b, e)
  {
  }

  // ---------- one axis of a matrix ----------

  lemma AxisAssociative(a: Axis, b: Axis, c: Axis)
    ensures ComposeAxis(ComposeAxis(a, b), c) == ComposeAxis(a, ComposeAxis(b, c))
  {
    var l, r := ComposeAxis(ComposeAxis(a, b), c), ComposeAxis(a, ComposeAxis(b, c));
    assert l.scale == r.scale by { Regroup(a.scale, b.scale, c.scale); }
    assert l.shift == r.shift by { ShiftAssociative(a.scale, a.shift, b.scale, b.shift, c.shift); }
  }

  lemma ShiftAssociative(s: real, t: real, u: real, v: real, w: real)
    ensures s * u * w + (s * v + t) == s * (u * w + v) + t
  {
    var uw := u * w;
    assert s * u * w == s * uw by { Regroup(s, u, w); }
    assert s * (uw + v) == s * uw + s * v by { Distribute(s, uw, v); }
  }

  lemma Regroup(s: real, t: real, u: real)
    ensures s * t * u == s * (t * u)
  {
  }

  lemma Distribute(s: real, u: real, v: real)
    ensures s * (u + v) == s * u + s * v
  {
  }

  lemma AxisInverse(a: Axis)
    requires a.scale != 0.0
    ensures ComposeAxis(a, InverseAxis(a)) == Axis(1.0, 0.0)
  {
    assert a.scale * (1.0 / a.scale) == 1.0;
  }

  lemma ApplyOrder(a: Axis, u: real, v: real)
    requires u <= v
    ensures a.scale >= 0.0 ==> Apply(a, u) <= Apply(a, v)
    ensures a.scale <= 0.0 ==> Apply(a, v) <= Apply(a, u)
    ensures u < v && a.scale != 0.0 ==> Apply(a, u) != Apply(a, v)
  {
    var d := v - u;
    assert Apply(a, v) - Apply(a, u) == a.scale * d;
    if a.scale > 0.0 {
      assert a.scale * d >= 0.0 && (d > 0.0 ==> a.scale * d > 0.0);
    } else if a.scale < 0.0 {
      assert a.scale * d <= 0.0 && (d > 0.0 ==> a.scale * d < 0.0);
    }
  }

  // Four points in order map to four points in the same or in the opposite order.
  lemma ApplyChain(a: Axis, u: real, v: real, w: real, z: real)
    requires u <= v <= w <= z
    ensures || Apply(a, u) <= Apply(a, v) <= Apply(a, w) <= Apply(a, z)
            || Apply(a, z) <= Apply(a, w) <= Apply(a, v) <= Apply(a, u)
  {
    ApplyOrder(a, u, v);
    ApplyOrder(a, v, w);
    ApplyOrder(a, w, z);
  }

  lemma ApplyCompose(a: Axis, b: Axis, v: real)
    ensures Apply(ComposeAxis(a, b), v) == Apply(a, Apply(b, v))
  {
    ShiftAssociative(a.scale, a.shift, b.scale, b.shift, v);
  }

  lemma MapSpanEmpty(a: Axis, s: Span)
    requires !s.Empty()
    ensures MapSpan(a, s).Empty() <==> a.scale == 0.0
  {
    ApplyOrder(a, s.lo, s.hi);
  }

  lemma MapSpanCompose(a: Axis, b: Axis, s: Span)
    ensures MapSpan(ComposeAxis(a, b), s) == MapSpan(a, MapSpan(b, s))
  {
    ApplyCompose(a, b, s.lo);
    ApplyCompose(a, b, s.hi);
  }

  lemma MapSpanApart(a: Axis, s: Span, t: Span)
    requires !s.Empty() && !t.Empty() && Apart(s, t)
    ensures Apart(MapSpan(a, s), MapSpan(a, t))
  {
    if s.hi <= t.lo {
      ApplyChain(a, s.lo, s.hi, t.lo, t.hi);
    } else {
      ApplyChain(a, t.lo, t.hi, s.lo, s.hi);
    }
  }

  lemma MapSpanCovers(a: Axis, s: Span, t: Span)
    requires !t.Empty() && Covers(s, t)
    ensures Covers(MapSpan(a, s), MapSpan(a, t))
  {
    ApplyChain(a, s.lo, t.lo, t.hi, s.hi);
  }

  lemma MapSpanIdentity(s: Span)
    requires !s.Empty()
    ensures MapSpan(Axis(1.0, 0.0), s) == s
  {
  }

  // ---------- matrices ----------

  lemma ComposeAssociative(a: Matrix, b: Matrix, c: Matrix)
    ensures Compose(Compose(a, b), c) == Compose(a, Compose(b, c))
  {
    AxisAssociative(a.x, b.x, c.x);
    AxisAssociative(a.y, b.y, c.y);
  }

  lemma ComposeIdentity(m: Matrix)
    ensures Compose(m, IDENTITY) == m && Compose(IDENTITY, m) == m
  {
  }

  lemma ComposeInverse(m: Matrix)
    requires m.Invertible()
    ensures Compose(m, Inverse(m)) == IDENTITY
  {
    AxisInverse(m.x);
    AxisInverse(m.y);
  }

  lemma InverseCompose(m: Matrix)
    requires m.Invertible()
    ensures Compose(Inverse(m), m) == IDENTITY
  {
    assert 1.0 / m.x.scale * m.x.scale == 1.0 && 1.0 / m.y.scale * m.y.scale == 1.0;
    assert 1.0 / m.x.scale * m.x.shift == m.x.shift / m.x.scale;
    assert 1.0 / m.y.scale * m.y.shift == m.y.shift / m.y.scale;
  }

  lemma ScaleNonZero(s: real, t: real)
    ensures s * t != 0.0 <==> s != 0.0 && t != 0.0
  {
  }

  lemma ComposeInvertible(a: Matrix, b: Matrix)
    ensures Compose(a, b).Invertible() <==> a.Invertible() && b.Invertible()
  {
    ScaleNonZero(a.x.scale, b.x.scale);
    ScaleNonZero(a.y.scale, b.y.scale);
  }

  lemma InverseInvertible(m: Matrix)
    requires m.Invertible()
    ensures Inverse(m).Invertible()
  {
    ComposeInverse(m);
    ComposeInvertible(m, Inverse(m));
  }

  lemma MapIdentity(r: Rect)
    requires !r.IsEmpty()
    ensures MapRect(IDENTITY, r) == r
  {
    MapSpanIdentity(r.x);
    MapSpanIdentity(r.y);
  }

  lemma MapNonEmpty(m: Matrix, r: Rect)
    ensures !MapRect(m, r).IsEmpty() <==> !r.IsEmpty() && m.Invertible()
  {
    if !r.IsEmpty() {
      MapSpanEmpty(m.x, r.x);
      MapSpanEmpty(m.y, r.y);
    }
  }

  // Mapping by a composition is mapping twice, whenever the inner map keeps the rectangle non-empty.
  lemma MapCompose(outer: Matrix, inner: Matrix, r: Rect)
    requires !MapRect(inner, r).IsEmpty()
    ensures MapRect(Compose(outer, inner), r) == MapRect(outer, MapRect(inner, r))
  {
    MapSpanCompose(outer.x, inner.x, r.x);
    MapSpanCompose(outer.y, inner.y, r.y);
  }

  lemma MapInverse(m: Matrix, r: Rect)
    requires m.Invertible() && !r.IsEmpty()
    ensures MapRect(m, MapRect(Inverse(m), r)) == r
  {
    InverseInvertible(m);
    MapNonEmpty(Inverse(m), r);
    MapCompose(m, Inverse(m), r);
    ComposeInverse(m);
    MapIdentity(r);
  }

  // A map cannot make two rectangles meet that did not meet before.
  lemma MapKeepsApart(m: Matrix, a: Rect, b: Rect, p: Point)
    requires !Intersects(a, b)
    ensures !(Inside(p, MapRect(m, a)) && Inside(p, MapRect(m, b)))
  {
    if a.IsEmpty() || b.IsEmpty() {
    } else if Apart(a.x, b.x) {
      MapSpanApart(m.x, a.x, b.x);
    } else {
      MapSpanApart(m.y, a.y, b.y);
    }
  }

  lemma MapMonotone(m: Matrix, a: Rect, b: Rect)
    requires !b.IsEmpty() && Contains(a, b)
    ensures Contains(MapRect(m, a), MapRect(m, b))
  {
    MapSpanCovers(m.x, a.x, b.x);
    MapSpanCovers(m.y, a.y, b.y);
  }

  lemma MapSpanMeet(a: Axis, s: Span, t: Span, v: real)
    requires !s.Empty() && !t.Empty() && !Apart(s, t) && Within(v, MapSpan(a, s)) && Within(v, MapSpan(a, t))
    ensures Within(v, MapSpan(a, Meet(s, t)))
  {
    ApplyOrder(a, s.lo, s.hi);
    ApplyOrder(a, t.lo, t.hi);
    ApplyOrder(a, Meet(s, t).lo, Meet(s, t).hi);
  }

  // What lies in the images of two rectangles lies in the image of their intersection.
  lemma MapIntersection(base: Matrix, a: Rect, b: Rect, p: Point)
    requires Inside(p, MapRect(base, a)) && Inside(p, MapRect(base, b))
    ensures Inside(p, MapRect(base, Intersection(a, b)))
  {
    if !Intersects(a, b) { MapKeepsApart(base, a, b, p); }
    if Intersects(a, b) {
      MapSpanMeet(base.x, a.x, b.x, p.x);
      MapSpanMeet(base.y, a.y, b.y, p.y);
    }
  }
}
