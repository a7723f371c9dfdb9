/** What it means that a layer can hand its opacity down to its operations, and that the recorder's tests
    for it are right: of one operation by its blend mode, of many by their bounds. */
module GroupOpacity {
  import opened Geometry
  import opened Painting
  import opened Blending
  import opened DisplayLists
  import opened Recorder
  import opened Canvas
  import opened Compositing
  import opened LayerSummaries

  // ---------- one operation ----------

  // A layer with one operation in it, composited with an opacity; and the operation drawn without the
  // layer, its source faded instead.

  ghost function AsLayer(o: Optics, mode: BlendMode, s: Pixel, coverage: real, k: real, d: Pixel): Pixel {
    Blend(o, SRC_OVER, Scale(Cover(coverage, CLEAR_PIXEL, Blend(o, mode, s, CLEAR_PIXEL)), k), d)
  }

  ghost function Faded(o: Optics, mode: BlendMode, s: Pixel, coverage: real, k: real, d: Pixel): Pixel {
    Cover(coverage, d, Blend(o, mode, Scale(s, k), d))
  }

  predicate Unit(k: real) { 0.0 <= k <= 1.0 }

  ghost predicate HandsDown(o: Optics, mode: BlendMode) {
    forall s: Pixel, c: real, k: real, d: Pixel :: s.Valid() && d.Valid() && Unit(c) && Unit(k) ==>
      AsLayer(o, mode, s, c, k, d) == Faded(o, mode, s, c, k, d)
  }

  ghost predicate Product(u: real, v: real, r: real) { r == u * v }

  // The component w of the layer's pixel is that of the source, covered; both are then faded.
  lemma OverChannel(s: real, sa: real, w: real, wa: real, l: real, la: real, f: real, fa: real, c: real, k: real,
                    d: real, da: real)
    requires Product(c, s, w) && Product(c, sa, wa) && Product(w, k, l) && Product(wa, k, la)
    requires Product(s, k, f) && Product(sa, k, fa)
    ensures Mixes(c, d, Channel(SRC_OVER, f, fa, d, da), Channel(SRC_OVER, l, la, d, da))
  {
    assert l == c * f by { Regroup(c, s, k); }
    assert la == c * fa by { Regroup(c, sa, k); }
    CoveredOver(f, fa, c, d);
  }

  lemma CoveredOver(f: real, fa: real, c: real, d: real)
    ensures c * f + (1.0 - c * fa) * d == d + c * (f + (1.0 - fa) * d - d)
  {
    var t := fa * d;
    assert c * fa * d == c * t by { Regroup(c, fa, d); }
    assert (1.0 - fa) * d == d - t && (1.0 - c * fa) * d == d - c * fa * d;
    assert c * (f - t) == c * f - c * t;
  }

  lemma BlendPixel(o: Optics, mode: BlendMode, s: Pixel, d: Pixel)
    requires HasFormula(mode)
    ensures Blend(o, mode, s, d) ==
            Pixel(Channel(AlphaMode(mode), s.a, s.a, d.a, d.a), Channel(mode, s.r, s.a, d.r, d.a),
                  Channel(mode, s.g, s.a, d.g, d.a), Channel(mode, s.b, s.a, d.b, d.a))
  {
  }

  lemma OverNothing(o: Optics, s: Pixel, c: real) returns (whole: Pixel)
    ensures Cover(c, CLEAR_PIXEL, Blend(o, SRC_OVER, s, CLEAR_PIXEL)) == whole
    ensures Product(c, s.a, whole.a) && Product(c, s.r, whole.r) && Product(c, s.g, whole.g) && Product(c, s.b, whole.b)
  {
    assert Blend(o, SRC_OVER, s, CLEAR_PIXEL) == s;
    whole := Pixel(c * s.a, c * s.r, c * s.g, c * s.b);
  }

  // A component of a pixel that is covered only in part.
  ghost predicate Mixes(c: real, d: real, b: real, r: real) { r == d + c * (b - d) }

  lemma CoverPixel(c: real, d: Pixel, b: Pixel, r: Pixel)
    requires Mixes(c, d.a, b.a, r.a) && Mixes(c, d.r, b.r, r.r) && Mixes(c, d.g, b.g, r.g) && Mixes(c, d.b, b.b, r.b)
    ensures Cover(c, d, b) == r
  {
  }

  lemma ScaledPixel(p: Pixel, k: real)
    ensures var f := Scale(p, k);
            Product(p.a, k, f.a) && Product(p.r, k, f.r) && Product(p.g, k, f.g) && Product(p.b, k, f.b)
  {
  }

  lemma SourceOverHandsDown(o: Optics, s: Pixel, c: real, k: real, d: Pixel)
    ensures AsLayer(o, SRC_OVER, s, c, k, d) == Faded(o, SRC_OVER, s, c, k, d)
  {
    hide Channel, Blend, Scale, Cover, Mixes, Product;
    var whole := OverNothing(o, s, c);
    var layer, faded := Scale(whole, k), Scale(s, k);
    ScaledPixel(whole, k);
    ScaledPixel(s, k);
    BlendPixel(o, SRC_OVER, layer, d);
    BlendPixel(o, SRC_OVER, faded, d);
    OverChannel(s.a, s.a, whole.a, whole.a, layer.a, layer.a, faded.a, faded.a, c, k, d.a, d.a);
    OverChannel(s.r, s.a, whole.r, whole.a, layer.r, layer.a, faded.r, faded.a, c, k, d.r, d.a);
    OverChannel(s.g, s.a, whole.g, whole.a, layer.g, layer.a, faded.g, faded.a, c, k, d.g, d.a);
    OverChannel(s.b, s.a, whole.b, whole.a, layer.b, layer.a, faded.b, faded.a, c, k, d.b, d.a);
    CoverPixel(c, d, Blend(o, SRC_OVER, faded, d), Blend(o, SRC_OVER, layer, d));
  }

  // Of the modes with a formula only source-over hands an opacity down, and the mode that draws nothing.
  lemma HandsDownExact(o: Optics, mode: BlendMode)
    requires HasFormula(mode)
    ensures HandsDown(o, mode) <==> mode == SRC_OVER || mode == DST
  {
    if mode == SRC_OVER {
      forall s: Pixel, c: real, k: real, d: Pixel ensures AsLayer(o, mode, s, c, k, d) == Faded(o, mode, s, c, k, d) {
        SourceOverHandsDown(o, s, c, k, d);
      }
    } else if mode == DST {
      forall s: Pixel, c: real, k: real, d: Pixel ensures AsLayer(o, mode, s, c, k, d) == Faded(o, mode, s, c, k, d) {
        assert Cover(c, CLEAR_PIXEL, CLEAR_PIXEL) == CLEAR_PIXEL;
      }
    } else {
      OthersDoNot(o, mode);
    }
  }

  lemma OthersDoNot(o: Optics, mode: BlendMode)
    requires HasFormula(mode) && mode != SRC_OVER && mode != DST
    ensures !HandsDown(o, mode)
  {
    var s := if mode in {SRC, DST_IN} then CLEAR_PIXEL else if mode in {DARKEN, MULTIPLY} then WHITE_PIXEL
             else BLACK_PIXEL;
    var d := if mode in {DARKEN, MULTIPLY} then BLACK_PIXEL else WHITE_PIXEL;
    assert Scale(s, 1.0) == s && Unit(1.0);
    assert AsLayer(o, mode, s, 1.0, 1.0, d) != Faded(o, mode, s, 1.0, 1.0, d);
  }

  // Fading the source is the same as covering less of the pixel for many more modes.
  ghost predicate FadesAsCover(o: Optics, mode: BlendMode) {
    forall s: Pixel, k: real, d: Pixel :: s.Valid() && d.Valid() && Unit(k) ==>
      Blend(o, mode, Scale(s, k), d) == Cover(k, d, Blend(o, mode, s, d))
  }

  // What these modes add to the destination, from the products of the components of both pixels.
  function Added(mode: BlendMode, s: real, x: real, y: real, z: real): real {
    if mode == SRC_OVER then s - y
    else if mode == DST_OVER then s - x
    else if mode == DST_OUT then -y
    else if mode == SRC_ATOP then x - y
    else if mode == XOR then s - x - y
    else if mode == SCREEN then s - z
    else if mode == DARKEN then s - Max(x, y)
    else if mode == LIGHTEN then s - Min(x, y)
    else if mode == DIFFERENCE then s - 2.0 * Min(x, y)
    else if mode == EXCLUSION then s - 2.0 * z
    else s - x - y + z
  }

  lemma ChannelAdds(mode: BlendMode, s: real, sa: real, d: real, da: real)
    requires HasFormula(mode) && TransparencyMatters(mode) && mode != PLUS
    ensures Channel(mode, s, sa, d, da) == d + Added(mode, s, s * da, d * sa, s * d)
  {
    assert s * (1.0 - da) == s - s * da && d * (1.0 - sa) == d - d * sa;
    assert (1.0 - sa) * d == d - d * sa && (1.0 - da) * s == s - s * da;
  }

  lemma ScaledOrder(x: real, y: real, k: real)
    requires k >= 0.0
    ensures Min(k * x, k * y) == k * Min(x, y) && Max(k * x, k * y) == k * Max(x, y)
  {
    var t := y - x;
    assert k * y == k * x + k * t;
    if t >= 0.0 { assert k * t >= 0.0; } else { assert k * t <= 0.0; }
  }

  lemma SpreadTwo(k: real, a: real, b: real)
    ensures k * (a - b) == k * a - k * b && k * (a - 2.0 * b) == k * a - 2.0 * (k * b)
  {
  }

  lemma SpreadThree(k: real, a: real, b: real, c: real)
    ensures k * (a - b - c) == k * a - k * b - k * c
  {
    SpreadTwo(k, a - b, c);
    SpreadTwo(k, a, b);
  }

  // It grows with the source.
  lemma AddedScales(mode: BlendMode, s: real, x: real, y: real, z: real, k: real)
    requires k >= 0.0
    ensures Added(mode, k * s, k * x, k * y, k * z) == k * Added(mode, s, x, y, z)
  {
    if mode == DARKEN || mode == LIGHTEN || mode == DIFFERENCE {
      ScaledOrder(x, y, k);
      SpreadTwo(k, s, if mode == DARKEN then Max(x, y) else Min(x, y));
    } else if mode == SRC_OVER {
      SpreadTwo(k, s, y);
    } else if mode == DST_OVER {
      SpreadTwo(k, s, x);
    } else if mode == DST_OUT {
      SpreadTwo(k, 0.0, y);
    } else if mode == SRC_ATOP {
      SpreadTwo(k, x, y);
    } else if mode == SCREEN || mode == EXCLUSION {
      SpreadTwo(k, s, z);
    } else if mode == XOR {
      SpreadThree(k, s, x, y);
    } else {
      SpreadThree(k, s, x, y);
      SpreadTwo(k, s - x - y, -z);
      SpreadTwo(k, 0.0, z);
    }
  }

  lemma FadedChannel(mode: BlendMode, s: real, sa: real, k: real, d: real, da: real, f: real, fa: real)
    requires HasFormula(mode) && TransparencyMatters(mode) && mode != PLUS && Unit(k)
    requires Product(s, k, f) && Product(sa, k, fa)
    ensures Mixes(k, d, Channel(mode, s, sa, d, da), Channel(mode, f, fa, d, da))
  {
    hide Channel, Added;
    ChannelAdds(mode, s, sa, d, da);
    ChannelAdds(mode, f, fa, d, da);
    Regroup(k, s, da);
    Regroup(k, sa, d);
    Regroup(k, s, d);
    var x, y, z := s * da, d * sa, s * d;
    var kx, ky, kz := f * da, d * fa, f * d;
    SameAdded(mode, s, x, y, z, k, f, kx, ky, kz);
  }

  lemma SameAdded(mode: BlendMode, s: real, x: real, y: real, z: real, k: real,
                  ks: real, kx: real, ky: real, kz: real)
    requires k >= 0.0 && ks == k * s && kx == k * x && ky == k * y && kz == k * z
    ensures Added(mode, ks, kx, ky, kz) == k * Added(mode, s, x, y, z)
  {
    hide Added;
    AddedScales(mode, s, x, y, z, k);
  }

  lemma FadesAsCoverExact(o: Optics, mode: BlendMode)
    requires HasFormula(mode)
    ensures FadesAsCover(o, mode) <==> mode == DST || (TransparencyMatters(mode) && mode != PLUS)
  {
    if mode == DST || (TransparencyMatters(mode) && mode != PLUS) {
      forall s: Pixel, k: real, d: Pixel | s.Valid() && d.Valid() && Unit(k)
        ensures Blend(o, mode, Scale(s, k), d) == Cover(k, d, Blend(o, mode, s, d))
      {
        FadedPixel(o, mode, s, k, d);
      }
    } else {
      var s := if mode == PLUS then WHITE_PIXEL else CLEAR_PIXEL;
      var d := if mode == PLUS then Pixel(0.5, 0.5, 0.5, 0.5) else WHITE_PIXEL;
      var k := if mode == PLUS then 0.5 else 0.0;
      assert s.Valid() && d.Valid() && Unit(k);
      assert Blend(o, mode, Scale(s, k), d) != Cover(k, d, Blend(o, mode, s, d));
    }
  }

  lemma AlphaAdds(mode: BlendMode)
    requires HasFormula(mode) && TransparencyMatters(mode) && mode != PLUS
    ensures HasFormula(AlphaMode(mode)) && TransparencyMatters(AlphaMode(mode)) && AlphaMode(mode) != PLUS
  {
  }

  lemma FadedPixel(o: Optics, mode: BlendMode, s: Pixel, k: real, d: Pixel)
    requires HasFormula(mode) && (mode == DST || (TransparencyMatters(mode) && mode != PLUS)) && Unit(k)
    ensures Blend(o, mode, Scale(s, k), d) == Cover(k, d, Blend(o, mode, s, d))
  {
    if mode != DST {
      hide Channel, Cover, Scale, Blend, Mixes, Product, AlphaMode, HasFormula, TransparencyMatters;
      var f := Scale(s, k);
      var b, r := Blend(o, mode, s, d), Blend(o, mode, f, d);
      BlendPixel(o, mode, s, d);
      BlendPixel(o, mode, f, d);
      AlphaAdds(mode);
      ScaledPixel(s, k);
      FadedChannel(AlphaMode(mode), s.a, s.a, k, d.a, d.a, f.a, f.a);
      FadedChannel(mode, s.r, s.a, k, d.r, d.a, f.r, f.a);
      FadedChannel(mode, s.g, s.a, k, d.g, d.a, f.g, f.a);
      FadedChannel(mode, s.b, s.a, k, d.b, d.a, f.b, f.a);
      CoverPixel(k, d, b, r);
    }
  }

  // ---------- one paint ----------

  // The source can be faded by fading the paint, and the mode then hands the opacity down.
  ghost predicate PaintHandsDown(o: Optics, p: Paint) {
    && p.colorFilter.None? && !p.invert
    && (p.source.Some? ==> !p.source.value.runtimeEffect)
    && (p.imageFilter.Some? ==> !p.imageFilter.value.runtimeEffect)
    && ModeHandsDown(o, p.blend)
  }

  // Nothing is known of a mode without a formula, and one that draws nothing is never recorded.
  ghost predicate ModeHandsDown(o: Optics, mode: BlendMode) { HasFormula(mode) && mode != DST && HandsDown(o, mode) }

  lemma CompatibleExact(o: Optics, p: Paint)
    ensures p.OpacityCompatible() <==> PaintHandsDown(o, p)
  {
    hide HandsDown;
    if HasFormula(p.blend) { HandsDownExact(o, p.blend); }
  }

  function FadedPaint(p: Paint, k: real): Paint { p.(color := p.color.(a := p.color.a * k)) }

  // Fading a compatible paint fades each source that it makes, so that what is drawn with it is what a
  // layer with the opacity would show of it.
  lemma CompatiblePaintsFade(o: Optics, p: Paint, f: Flags, raw: Pixel, s: Pixel, c: real, k: real, d: Pixel)
    requires p.OpacityCompatible() && Unfiltered(p, f) && f.blend && (f.color || f.alpha)
    requires f.color && p.source.Some? ==> o.alphaScalesSources
    requires Shaded(o, p, f, raw, s, s, s)
    ensures exists s' :: Shaded(o, FadedPaint(p, k), f, raw, s', s', s')
                         && AsLayer(o, p.blend, s, c, k, d) == Cover(c, d, Blend(o, p.blend, s', d))
  {
    var s' := Scale(s, k);
    SourceOverHandsDown(o, s, c, k, d);
    FadedSource(o, p, f, raw, s, k);
    assert Shaded(o, FadedPaint(p, k), f, raw, s', s', s');
  }

  lemma FadedSource(o: Optics, p: Paint, f: Flags, raw: Pixel, s: Pixel, k: real)
    requires (f.color || f.alpha) && (f.color && p.source.Some? ==> o.alphaScalesSources)
    requires s == Unshaded(o, p, f, raw)
    ensures Scale(s, k) == Unshaded(o, FadedPaint(p, k), f, raw)
  {
    hide Premultiply, Scale;
    var q := FadedPaint(p, k);
    ScaledTwice(raw, p.color.a, k, q.color.a);
    FadedColor(p.color, k, q.color);
  }

  lemma FadedColor(c: Color, k: real, faded: Color)
    requires faded == c.(a := c.a * k)
    ensures Scale(Premultiply(c), k) == Premultiply(faded)
  {
    Regroup(c.r, c.a, k);
    Regroup(c.g, c.a, k);
    Regroup(c.b, c.a, k);
  }

  lemma ScaledTwice(p: Pixel, a: real, k: real, ak: real)
    requires ak == a * k
    ensures Scale(Scale(p, a), k) == Scale(p, ak)
  {
    Regroup(p.a, a, k);
    Regroup(p.r, a, k);
    Regroup(p.g, a, k);
    Regroup(p.b, a, k);
  }

  // ---------- the primitives ----------

  predicate IsHairline(p: Paint) { p.style != Fill && p.width <= 0.0 }

  // Which primitives keep a layer from handing its opacity down.
  lemma PrimitivesAreExact(o: Optics, p: Paint, prim: Primitive, n: int)
    ensures Incompatible(p, p.OpacityCompatible(), Recorded(prim, n)) <==>
              match prim
              case VerticesPrim(_) | AtlasPrim(_, _, _) | TextPrim(_, _) | ShadowPrim(_, _) => true
              case ImagePrim(_, withPaint) => withPaint && !PaintHandsDown(o, p)
              case ImageRectPrim(_, withPaint) => withPaint && !PaintHandsDown(o, p)
              case ImageNinePrim(_, withPaint) => withPaint && !PaintHandsDown(o, p)
              case ColorPrim(_, mode) => !ModeHandsDown(o, mode)
              case PathPrim(_) | ArcPrim(_, true) => !PaintHandsDown(o, p) || IsHairline(p)
              case _ => !PaintHandsDown(o, p)
    ensures var d := Recorded(prim, n); !Incompatible(p, p.OpacityCompatible(), d) ==> HandsDown(o, ModeOf(p, d))
  {
    hide HandsDown;
    CompatibleExact(o, p);
    HandsDownExact(o, SRC_OVER);
    if prim.ColorPrim? && HasFormula(prim.mode) { HandsDownExact(o, prim.mode); }
  }

  // An operation is judged by the paint that it brings or by the current one, and notes the mode with
  // which it is composited.
  lemma PrimitivesBlend(p: Paint, prim: Primitive, n: int)
    ensures EffectPaint(p, Recorded(prim, n)) ==
              match prim
              case ColorPrim(c, mode) => DefaultPaint(c).(blend := mode)
              case ShadowPrim(c, _) => DefaultPaint(c)
              case _ => p
    ensures var d := Recorded(prim, n); ModeOf(p, d) == BlendModeOf(EffectPaint(p, d), d.flags)
  {
  }

  // ---------- many operations ----------

  // An operation of a layer: its bounds, and what it feeds to the pixels within them.
  datatype Mark = Mark(bounds: Rect, source: Pixel, coverage: real)

  function At(m: Mark, q: Point): real { if Inside(q, m.bounds) then m.coverage else 0.0 }

  // The pixel of the layer after its operations.
  ghost function Together(o: Optics, ms: seq<Mark>, q: Point): Pixel {
    if ms == [] then CLEAR_PIXEL
    else
      var m, before := ms[|ms| - 1], Together(o, ms[..|ms| - 1], q);
      Cover(At(m, q), before, Blend(o, SRC_OVER, m.source, before))
  }

  // The pixel of the parent, when each operation is faded and drawn into it.
  ghost function OneByOne(o: Optics, ms: seq<Mark>, k: real, d: Pixel, q: Point): Pixel {
    if ms == [] then d
    else
      var m, before := ms[|ms| - 1], OneByOne(o, ms[..|ms| - 1], k, d, q);
      Cover(At(m, q), before, Blend(o, SRC_OVER, Scale(m.source, k), before))
  }

  ghost predicate AllValid(ms: seq<Mark>) {
    forall i :: 0 <= i < |ms| ==> ms[i].source.Valid() && Unit(ms[i].coverage)
  }

  ghost predicate Bounded(ms: seq<Mark>, rects: seq<Rect>) {
    |ms| == |rects| && forall i :: 0 <= i < |ms| ==> ms[i].bounds == rects[i]
  }

  // The layer with an opacity shows the same at the point as its faded operations.
  ghost predicate SameAt(o: Optics, ms: seq<Mark>, k: real, d: Pixel, q: Point) {
    Blend(o, SRC_OVER, Scale(Together(o, ms, q), k), d) == OneByOne(o, ms, k, d, q)
  }

  ghost predicate GroupHandsDown(o: Optics, rects: seq<Rect>) {
    forall ms, k, d: Pixel, q :: Bounded(ms, rects) && AllValid(ms) && Unit(k) && d.Valid() ==> SameAt(o, ms, k, d, q)
  }

  lemma {:induction false} Untouched(o: Optics, ms: seq<Mark>, k: real, d: Pixel, q: Point)
    requires forall i :: 0 <= i < |ms| ==> At(ms[i], q) == 0.0
    ensures Together(o, ms, q) == CLEAR_PIXEL && OneByOne(o, ms, k, d, q) == d
  {
    hide Blend;
    if ms != [] { Untouched(o, ms[..|ms| - 1], k, d, q); }
  }

  lemma {:induction false} DisjointHandsDown(o: Optics, ms: seq<Mark>, k: real, d: Pixel, q: Point)
    requires forall i, j :: 0 <= i < j < |ms| ==> !Intersects(ms[i].bounds, ms[j].bounds)
    ensures SameAt(o, ms, k, d, q)
  {
    hide Blend, Intersects;
    if ms == [] {
      ClearLayer(o, k, d);
    } else {
      var n := |ms| - 1;
      if At(ms[n], q) == 0.0 {
        DisjointHandsDown(o, ms[..n], k, d, q);
      } else {
        forall i | 0 <= i < n ensures At(ms[..n][i], q) == 0.0 {
          assert !Intersects(ms[i].bounds, ms[n].bounds);
          ApartPoints(ms[i].bounds, ms[n].bounds, q);
        }
        Untouched(o, ms[..n], k, d, q);
        SourceOverHandsDown(o, ms[n].source, At(ms[n], q), k, d);
      }
    }
  }

  lemma ClearLayer(o: Optics, k: real, d: Pixel)
    ensures Blend(o, SRC_OVER, Scale(CLEAR_PIXEL, k), d) == d
  {
    assert Scale(CLEAR_PIXEL, k) == CLEAR_PIXEL;
  }

  lemma ApartPoints(a: Rect, b: Rect, q: Point)
    requires !Intersects(a, b)
    ensures !(Inside(q, a) && Inside(q, b))
  {
  }

  lemma CoverAll(d: Pixel, b: Pixel)
    ensures Cover(1.0, d, b) == b
  {
  }

  lemma CoverNone(d: Pixel, b: Pixel)
    ensures Cover(0.0, d, b) == d
  {
  }

  lemma OpaqueOver(o: Optics, d: Pixel)
    ensures Blend(o, SRC_OVER, BLACK_PIXEL, d) == BLACK_PIXEL
  {
  }

  lemma HalfOver(o: Optics, d: Pixel)
    ensures Blend(o, SRC_OVER, Scale(BLACK_PIXEL, 0.5), d).r == 0.5 * d.r
  {
    assert Scale(BLACK_PIXEL, 0.5) == Pixel(0.5, 0.0, 0.0, 0.0);
  }

  // Two black operations over the same point of a white parent, at half opacity.
  lemma {:induction false} OverlapShows(o: Optics, ms: seq<Mark>, i: nat, j: nat, n: nat, q: Point)
    requires i < j && n <= |ms| && forall t :: 0 <= t < |ms| ==> ms[t].source == BLACK_PIXEL
    requires forall t :: 0 <= t < |ms| ==> At(ms[t], q) == if t == i || t == j then 1.0 else 0.0
    ensures Together(o, ms[..n], q) == if n <= i then CLEAR_PIXEL else BLACK_PIXEL
    ensures OneByOne(o, ms[..n], 0.5, WHITE_PIXEL, q).r == if n <= i then 1.0 else if n <= j then 0.5 else 0.25
  {
    hide Blend, Scale, At, Cover;
    if n > 0 {
      OverlapShows(o, ms, i, j, n - 1, q);
      assert ms[..n][..n - 1] == ms[..n - 1];
      var layer, parent := Together(o, ms[..n - 1], q), OneByOne(o, ms[..n - 1], 0.5, WHITE_PIXEL, q);
      OpaqueOver(o, layer);
      HalfOver(o, parent);
      CoverAll(layer, BLACK_PIXEL);
      CoverAll(parent, Blend(o, SRC_OVER, Scale(BLACK_PIXEL, 0.5), parent));
      CoverNone(layer, Blend(o, SRC_OVER, BLACK_PIXEL, layer));
      CoverNone(parent, Blend(o, SRC_OVER, Scale(BLACK_PIXEL, 0.5), parent));
    }
  }

  lemma Overlap(rects: seq<Rect>, i: nat, j: nat) returns (ms: seq<Mark>, q: Point)
    requires i < j < |rects| && Intersects(rects[i], rects[j])
    ensures Bounded(ms, rects) && AllValid(ms) && forall t :: 0 <= t < |ms| ==> ms[t].source == BLACK_PIXEL
    ensures forall t :: 0 <= t < |ms| ==> At(ms[t], q) == if t == i || t == j then 1.0 else 0.0
  {
    var a, b := rects[i], rects[j];
    q := Point(Max(a.x.lo, b.x.lo), Max(a.y.lo, b.y.lo));
    ms := seq(|rects|, t requires 0 <= t < |rects| =>
            Mark(rects[t], BLACK_PIXEL, if t == i || t == j then 1.0 else 0.0));
  }

  lemma OverlapFails(o: Optics, rects: seq<Rect>, i: nat, j: nat)
    requires i < j < |rects| && Intersects(rects[i], rects[j])
    ensures !GroupHandsDown(o, rects)
  {
    hide Blend, Scale, Intersects, At;
    var ms, q := Overlap(rects, i, j);
    OverlapShows(o, ms, i, j, |ms|, q);
    assert ms[..|ms|] == ms;
    HalfBlack(o);
    assert !SameAt(o, ms, 0.5, WHITE_PIXEL, q);
    assert WHITE_PIXEL.Valid() && Unit(0.5);
  }

  lemma HalfBlack(o: Optics)
    ensures Blend(o, SRC_OVER, Scale(BLACK_PIXEL, 0.5), WHITE_PIXEL).r == 0.5
  {
  }

  // A layer of compatible operations hands its opacity down, whatever they draw within their bounds,
  // exactly if no two of the bounds meet.
  lemma GroupOpacityExact(o: Optics, rects: seq<Rect>)
    ensures GroupHandsDown(o, rects) <==> PairwiseDisjoint(rects)
  {
    hide SameAt, Intersects;
    if PairwiseDisjoint(rects) {
      forall ms, k, d: Pixel, q | Bounded(ms, rects) && AllValid(ms) && Unit(k) && d.Valid()
        ensures SameAt(o, ms, k, d, q)
      {
        DisjointHandsDown(o, ms, k, d, q);
      }
    } else {
      var i, j :| 0 <= i < j < |rects| && Intersects(rects[i], rects[j]);
      OverlapFails(o, rects, i, j);
    }
  }

  // So a record or a list that says that its opacity can be handed down is right, for whatever its
  // operations draw within the bounds that they noted.
  lemma RecordsHandDown(o: Optics, e: Engine, cull: Rect, prepareRTree: bool, calls: seq<Call>)
    ensures var l := Build(e, cull, prepareRTree, calls);
            l.groupOpacity ==> GroupHandsDown(o, RootContent(e, cull, prepareRTree, calls).bounds)
    ensures var st := Run(e, Start(cull, prepareRTree), calls); var i := st.Top().saveIndex;
            |st.stack| > 1 && st.Top().isLayer ==>
              && i < |RestoreStep(e, st).records| && RestoreStep(e, st).records[i].LayerRec?
              && (RestoreStep(e, st).records[i].options.distributesOpacity ==>
                    GroupHandsDown(o, TopContent(e, cull, prepareRTree, calls).bounds))
  {
    hide Build, Run, RestoreStep, ReadAll, RootContent, TopContent, PairwiseDisjoint, GroupHandsDown, Overlapping;
    BuiltSummary(e, cull, prepareRTree, calls);
    GroupOpacityExact(o, RootContent(e, cull, prepareRTree, calls).bounds);
    var st := Run(e, Start(cull, prepareRTree), calls);
    if |st.stack| > 1 && st.Top().isLayer {
      RestoredRecord(e, cull, prepareRTree, calls);
      GroupOpacityExact(o, TopContent(e, cull, prepareRTree, calls).bounds);
    }
  }
}
