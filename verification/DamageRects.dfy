/** The rectangles of a frame's damage: whole-pixel rectangles, their alignment to a grid, and
    the single pass over the readback regions. */
module DamageRects {
  import opened Geometry

  datatype IRect = IRect(left: int, top: int, right: int, bottom: int) {
    predicate IsEmpty() { right <= left || bottom <= top }
  }

  const NO_RECT: IRect := IRect(0, 0, 0, 0)

  function ToRect(r: IRect): Rect { LTRB(r.left as real, r.top as real, r.right as real, r.bottom as real) }

  function Ceiling(v: real): int { -((-v).Floor) }

  // The whole pixels that a rectangle touches.
  function RoundOut(r: Rect): IRect {
    if r.IsEmpty() then NO_RECT else IRect(r.x.lo.Floor, r.y.lo.Floor, Ceiling(r.x.hi), Ceiling(r.y.hi))
  }

  function IMin(a: int, b: int): int { if a <= b then a else b }

  function IMax(a: int, b: int): int { if a <= b then b else a }

  function IntersectionOrEmpty(a: IRect, b: IRect): IRect {
    var r := IRect(IMax(a.left, b.left), IMax(a.top, b.top), IMin(a.right, b.right), IMin(a.bottom, b.bottom));
    if a.IsEmpty() || b.IsEmpty() || r.IsEmpty() then NO_RECT else r
  }

  // One rectangle lies in another; an empty one lies everywhere.
  predicate In(a: IRect, b: IRect) {
    a.IsEmpty() || (b.left <= a.left && b.top <= a.top && a.right <= b.right && a.bottom <= b.bottom)
  }

  lemma UnionEncloses(a: Rect, b: Rect)
    ensures Enclosed(a, Union(a, b)) && Enclosed(b, Union(a, b))
  {
  }

  lemma UnionMonotone(a: Rect, b: Rect, c: Rect)
    requires Enclosed(a, b)
    ensures Enclosed(Union(a, c), Union(b, c))
  {
  }

  lemma RoundOutMonotone(a: Rect, b: Rect)
    requires Enclosed(a, b)
    ensures In(RoundOut(a), RoundOut(b))
  {
  }

  // Rounding out loses no point, within any frame of whole pixels.
  lemma RoundOutKeeps(r: Rect, frame: IRect, p: Point)
    requires Inside(p, r) && Inside(p, ToRect(frame))
    ensures Inside(p, ToRect(IntersectionOrEmpty(RoundOut(r), frame)))
  {
    var o := RoundOut(r);
    assert o.left as real <= p.x < o.right as real && o.top as real <= p.y < o.bottom as real;
  }

  lemma ClipMonotone(a: IRect, b: IRect, frame: IRect)
    requires In(a, b)
    ensures In(IntersectionOrEmpty(a, frame), IntersectionOrEmpty(b, frame))
  {
  }

  // ---------- alignment ----------

  function Down(v: int, n: int): int
    requires n > 0
  {
    v - v % n
  }

  function Up(v: int, n: int): int
    requires n > 0
  {
    if v % n == 0 then v else v + n - v % n
  }

  lemma Scaled(j: int, k: int, n: int)
    requires n > 0 && j < k
    ensures j * n + n <= k * n
  {
    var d := k - j - 1;
    assert d * n >= 0;
    assert k * n == j * n + n + d * n;
  }

  // A number is its quotient times the divisor plus its remainder, in one way only.
  lemma OneDivision(q: int, r: int, n: int)
    requires n > 0 && 0 <= r < n
    ensures (q * n + r) / n == q && (q * n + r) % n == r
  {
    var x := q * n + r;
    assert x == x / n * n + x % n;
    if x / n < q { Scaled(x / n, q, n); } else if q < x / n { Scaled(q, x / n, n); }
  }

  lemma DownOnGrid(v: int, n: int)
    requires n > 0
    ensures Down(v, n) == v / n * n && Down(v, n) % n == 0 && Down(v, n) <= v
  {
    OneDivision(v / n, 0, n);
  }

  lemma UpOnGrid(v: int, n: int)
    requires n > 0
    ensures Up(v, n) % n == 0 && v <= Up(v, n) < v + n
  {
    if v % n != 0 {
      OneDivision(v / n + 1, 0, n);
      assert (v / n + 1) * n == v / n * n + n;
    }
  }

  lemma DownIsLargest(v: int, n: int, m: int)
    requires n > 0 && m % n == 0 && m <= v
    ensures Down(v, n) % n == 0 && m <= Down(v, n) <= v
  {
    DownOnGrid(v, n);
    if v / n < m / n { Scaled(v / n, m / n, n); }
    if m / n < v / n { Scaled(m / n, v / n, n); }
  }

  lemma UpIsLeast(v: int, n: int, m: int)
    requires n > 0 && m % n == 0 && v <= m
    ensures Up(v, n) % n == 0 && v <= Up(v, n) <= m
  {
    UpOnGrid(v, n);
    DownOnGrid(v, n);
    if v % n != 0 {
      if m / n < v / n { Scaled(m / n, v / n, n); }
      if v / n < m / n { Scaled(v / n, m / n, n); }
    }
  }

  predicate OnGrid(r: IRect, h: int, v: int)
    requires h > 0 && v > 0
  {
    r.left % h == 0 && r.right % h == 0 && r.top % v == 0 && r.bottom % v == 0
  }

  // The smallest rectangle of the grid around r, clipped to the frame.
  function Aligned(r: IRect, h: int, v: int, width: int, height: int): IRect
    requires h > 0 && v > 0
  {
    IRect(Down(r.left, h), Down(r.top, v), IMin(Up(r.right, h), width), IMin(Up(r.bottom, v), height))
  }

  // The aligned rectangle encloses the given one, stays in the frame, and lies in every
  // rectangle of the grid that encloses the given one.
  lemma AlignedIsSmallest(r: IRect, h: int, v: int, width: int, height: int, grid: IRect)
    requires h > 0 && v > 0 && !r.IsEmpty() && In(r, IRect(0, 0, width, height))
    requires OnGrid(grid, h, v) && In(r, grid)
    ensures var a := Aligned(r, h, v, width, height);
            In(r, a) && In(a, IRect(0, 0, width, height)) && In(a, grid)
    ensures var g := IRect(Down(r.left, h), Down(r.top, v), Up(r.right, h), Up(r.bottom, v));
            OnGrid(g, h, v) && In(r, g)
                && Aligned(r, h, v, width, height) == IntersectionOrEmpty(g, IRect(0, 0, width, height))
  {
    DownIsLargest(r.left, h, grid.left);
    DownIsLargest(r.top, v, grid.top);
    UpIsLeast(r.right, h, grid.right);
    UpIsLeast(r.bottom, v, grid.bottom);
    ZeroOnGrid(r.left, h);
    ZeroOnGrid(r.top, v);
  }

  lemma ZeroOnGrid(v: int, n: int)
    requires n > 0 && v >= 0
    ensures Down(v, n) >= 0
  {
    DownIsLargest(v, n, 0);
  }

  lemma AlignMonotone(v: int, w: int, n: int)
    requires n > 0 && v <= w
    ensures Down(v, n) <= Down(w, n) && Up(v, n) <= Up(w, n)
  {
    DownOnGrid(v, n);
    DownIsLargest(w, n, Down(v, n));
    UpOnGrid(w, n);
    UpIsLeast(v, n, Up(w, n));
  }

  lemma AlignedMonotone(a: IRect, b: IRect, h: int, v: int, width: int, height: int)
    requires h > 0 && v > 0 && In(a, b) && !a.IsEmpty()
    ensures In(Aligned(a, h, v, width, height), Aligned(b, h, v, width, height))
  {
    AlignMonotone(b.left, a.left, h);
    AlignMonotone(b.top, a.top, v);
    AlignMonotone(a.right, b.right, h);
    AlignMonotone(a.bottom, b.bottom, v);
  }
}
