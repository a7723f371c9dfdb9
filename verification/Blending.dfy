/** The blend formulas on premultiplied pixels, and the recorder's paint analysis
    proved against them: exactly when its verdicts are right. */
module Blending {
  import opened Geometry
  import opened Painting

  // A premultiplied pixel.
  datatype Pixel = Pixel(a: real, r: real, g: real, b: real) {
    ghost predicate Valid() {
      0.0 <= r <= a && 0.0 <= g <= a && 0.0 <= b <= a && a <= 1.0
    }
  }

  const CLEAR_PIXEL: Pixel := Pixel(0.0, 0.0, 0.0, 0.0)
  const WHITE_PIXEL: Pixel := Pixel(1.0, 1.0, 1.0, 1.0)
  const BLACK_PIXEL: Pixel := Pixel(1.0, 0.0, 0.0, 0.0)

  function Scale(p: Pixel, k: real): Pixel { Pixel(p.a * k, p.r * k, p.g * k, p.b * k) }

  function Premultiply(c: Color): Pixel { Pixel(c.a, c.r * c.a, c.g * c.a, c.b * c.a) }

  function Invert(p: Pixel): Pixel { Pixel(p.a, p.a - p.r, p.a - p.g, p.a - p.b) }

  // What the analysis takes for granted about the renderer: the blend modes that have no
  // closed formula, and whether the paint's alpha scales the colours of a colour source.
  datatype Optics = Optics(other: (BlendMode, Pixel, Pixel) -> Pixel, alphaScalesSources: bool) {
    ghost predicate Valid() {
      forall m: BlendMode, d: Pixel :: !HasFormula(m) && d.Valid() ==> other(m, CLEAR_PIXEL, d) == d
    }
  }

  predicate HasFormula(mode: BlendMode) {
    mode <= SCREEN || mode in {DARKEN, LIGHTEN, DIFFERENCE, EXCLUSION, MULTIPLY}
  }

  // One component of the result; s and d are the component's values, sa and da the alphas.
  function Channel(mode: BlendMode, s: real, sa: real, d: real, da: real): real {
    if mode == CLEAR then 0.0
    else if mode == SRC then s
    else if mode == DST then d
    else if mode == SRC_OVER then s + (1.0 - sa) * d
    else if mode == DST_OVER then d + (1.0 - da) * s
    else if mode == SRC_IN then s * da
    else if mode == DST_IN then d * sa
    else if mode == SRC_OUT then s * (1.0 - da)
    else if mode == DST_OUT then d * (1.0 - sa)
    else if mode == SRC_ATOP then s * da + d * (1.0 - sa)
    else if mode == DST_ATOP then d * sa + s * (1.0 - da)
    else if mode == XOR then s * (1.0 - da) + d * (1.0 - sa)
    else if mode == PLUS then Min(s + d, 1.0)
    else if mode == MODULATE then s * d
    else if mode == SCREEN then s + d - s * d
    else if mode == DARKEN then s + d - Max(s * da, d * sa)
    else if mode == LIGHTEN then s + d - Min(s * da, d * sa)
    else if mode == DIFFERENCE then s + d - 2.0 * Min(s * da, d * sa)
    else if mode == EXCLUSION then s + d - 2.0 * (s * d)
    else s * (1.0 - da) + d * (1.0 - sa) + s * d
  }

  // Four modes combine alpha as source-over does.
  function AlphaMode(mode: BlendMode): BlendMode {
    if mode in {DARKEN, LIGHTEN, DIFFERENCE, EXCLUSION} then SRC_OVER else mode
  }

  function Blend(o: Optics, mode: BlendMode, s: Pixel, d: Pixel): Pixel {
    if HasFormula(mode) then
      Pixel(Channel(AlphaMode(mode), s.a, s.a, d.a, d.a), Channel(mode, s.r, s.a, d.r, d.a),
            Channel(mode, s.g, s.a, d.g, d.a), Channel(mode, s.b, s.a, d.b, d.a))
    else
      o.other(mode, s, d)
  }

  // A pixel only partly covered by the operation keeps the rest of its old value.
  function Cover(coverage: real, d: Pixel, b: Pixel): Pixel {
    Pixel(d.a + coverage * (b.a - d.a), d.r + coverage * (b.r - d.r),
          d.g + coverage * (b.g - d.g), d.b + coverage * (b.b - d.b))
  }

  // ---------- the sources that a paint allows ----------

  // Before any filter: `raw` is the colour that the source, the image or the layer provides.
  ghost function Unshaded(o: Optics, p: Paint, f: Flags, raw: Pixel): Pixel {
    if f.color && p.source.None? then Premultiply(p.color)
    else if f.color then (if o.alphaScalesSources then Scale(raw, p.color.a) else raw)
    else if f.alpha then Scale(raw, p.color.a)
    else raw
  }

  ghost predicate RawAllowed(p: Paint, f: Flags, raw: Pixel) {
    raw.Valid() && (f.color && p.source.Some? && p.source.value.opaqueColors ==> raw.a == 1.0)
  }

  // A filter may produce anything, except that one which keeps transparent black does keep it.
  ghost predicate Filtered(applies: bool, modifiesTransparentBlack: bool, before: Pixel, after: Pixel) {
    if !applies then after == before
    else after.Valid() && (!modifiesTransparentBlack && before == CLEAR_PIXEL ==> after == CLEAR_PIXEL)
  }

  // The way of one colour through the image filter and the colour filter to the blend.
  ghost predicate Shades(o: Optics, p: Paint, f: Flags, raw: Pixel, i: Pixel, c: Pixel, s: Pixel) {
    && Filtered(f.imageFilter && p.imageFilter.Some?,
                p.imageFilter.Some? && p.imageFilter.value.modifiesTransparentBlack, Unshaded(o, p, f, raw), i)
    && Filtered(f.colorFilter && p.colorFilter.Some?,
                p.colorFilter.Some? && p.colorFilter.value.modifiesTransparentBlack, i, c)
    && s == (if f.colorFilter && p.invert then Invert(c) else c)
  }

  ghost predicate Shaded(o: Optics, p: Paint, f: Flags, raw: Pixel, i: Pixel, c: Pixel, s: Pixel) {
    RawAllowed(p, f, raw) && Shades(o, p, f, raw, i, c, s)
  }

  ghost predicate SourceAllowed(o: Optics, p: Paint, f: Flags, s: Pixel) {
    exists raw, i, c :: Shaded(o, p, f, raw, i, c, s)
  }

  // ---------- what the verdicts mean ----------

  ghost predicate LeavesAll(o: Optics, p: Paint, f: Flags) {
    forall s: Pixel, d: Pixel :: SourceAllowed(o, p, f, s) && d.Valid() ==> Blend(o, p.blend, s, d) == d
  }

  ghost predicate LeavesTransparent(o: Optics, p: Paint, f: Flags) {
    forall s: Pixel :: SourceAllowed(o, p, f, s) ==> Blend(o, p.blend, s, CLEAR_PIXEL) == CLEAR_PIXEL
  }

  // Whether the paint has an effect anywhere, judged by the formulas alone.
  ghost predicate HasEffect(o: Optics, p: Paint, f: Flags) {
    f.blend ==> !LeavesAll(o, p, f)
  }

  // No colour filter and no image filter touches the colour on its way to the blend.
  predicate Unfiltered(p: Paint, f: Flags) {
    !(f.colorFilter && p.colorFilter.Some?) && !(f.imageFilter && p.imageFilter.Some?)
  }

  // The filters in use all keep transparent black.
  predicate FiltersKeepBlack(p: Paint, f: Flags) {
    && (f.colorFilter && p.colorFilter.Some? ==> !p.colorFilter.value.modifiesTransparentBlack)
    && (f.imageFilter && p.imageFilter.Some? ==> !p.imageFilter.value.modifiesTransparentBlack)
  }

  // Alpha is above zero but its 8-bit value is zero, and the analysis only looks at the latter.
  predicate AlphaRoundsAway(p: Paint, f: Flags) {
    !f.color && f.alpha && FiltersKeepBlack(p, f) && p.color.AlphaByte() == 0 && p.color.a > 0.0
  }

  predicate InvertedWhite(p: Paint, f: Flags) {
    f.color && p.source.None? && Unfiltered(p, f) && p.color == WHITE && f.colorFilter && p.invert
  }

  predicate FadedOpaqueSource(o: Optics, p: Paint, f: Flags) {
    && f.color && p.source.Some? && p.source.value.opaqueColors && Unfiltered(p, f)
    && o.alphaScalesSources && p.color.a < 1.0
  }

  predicate TransparencyMatters(mode: BlendMode) {
    mode !in {DST, CLEAR, SRC_IN, SRC, SRC_OUT, DST_ATOP, DST_IN, MODULATE}
  }

  // The paints for which the verdict "no effect" is wrong.
  predicate NoEffectGap(o: Optics, p: Paint, f: Flags) {
    || (TransparencyMatters(p.blend) && AlphaRoundsAway(p, f))
    || (p.blend == MODULATE && InvertedWhite(p, f))
    || (p.blend == DST_IN && FadedOpaqueSource(o, p, f))
  }

  // The paints for which the verdict "preserves transparency" is wrong.
  predicate TransparencyGap(p: Paint, f: Flags) {
    p.blend in {SRC, SRC_OUT, DST_ATOP} && AlphaRoundsAway(p, f)
  }

  // The modes that keep a transparent pixel transparent, whatever the source.
  predicate KeepsClear(mode: BlendMode) { mode in {CLEAR, SRC_IN, SRC_ATOP, DST_OUT, DST_IN, MODULATE, DST} }

  // The paints that change a transparent pixel although neither verdict on them says so.
  predicate ClearGap(p: Paint, f: Flags) { AlphaRoundsAway(p, f) && !KeepsClear(p.blend) }

  // ---------- the formulas at the special sources ----------

  lemma ClearSourceChannel(mode: BlendMode, d: real, da: real)
    requires HasFormula(mode) && TransparencyMatters(mode) && 0.0 <= d <= 1.0
    ensures Channel(mode, 0.0, 0.0, d, da) == d
  {
  }

  lemma ClearSource(o: Optics, mode: BlendMode, d: Pixel)
    requires o.Valid() && d.Valid() && TransparencyMatters(mode)
    ensures Blend(o, mode, CLEAR_PIXEL, d) == d
  {
    if HasFormula(mode) {
      ClearSourceChannel(AlphaMode(mode), d.a, d.a);
      ClearSourceChannel(mode, d.r, d.a);
      ClearSourceChannel(mode, d.g, d.a);
      ClearSourceChannel(mode, d.b, d.a);
    }
  }

  lemma PreservingModes(o: Optics, mode: BlendMode, s: Pixel)
    requires KeepsClear(mode)
    ensures Blend(o, mode, s, CLEAR_PIXEL) == CLEAR_PIXEL
  {
  }

  // ---------- which sources an effective colour stands for ----------

  lemma TransparentSource(o: Optics, p: Paint, f: Flags, s: Pixel)
    requires p.color.Valid() && EffectiveColor(p, f).IsTransparent() && SourceAllowed(o, p, f, s)
    requires !AlphaRoundsAway(p, f)
    ensures s == CLEAR_PIXEL
  {
    var raw, i, c :| Shaded(o, p, f, raw, i, c, s);
    TransparentShade(o, p, f, raw, i, c, s);
  }

  lemma TransparentShade(o: Optics, p: Paint, f: Flags, raw: Pixel, i: Pixel, c: Pixel, s: Pixel)
    requires p.color.Valid() && EffectiveColor(p, f).IsTransparent() && Shades(o, p, f, raw, i, c, s)
    requires !AlphaRoundsAway(p, f)
    ensures s == CLEAR_PIXEL
  {
    hide EffectiveColor, AlphaRoundsAway, Unshaded, Shades, FiltersKeepBlack;
    TransparentColor(p, f);
    ClearBase(o, p, f, raw);
    BlackStaysBlack(o, p, f, raw, i, c, s);
  }

  lemma BlackStaysBlack(o: Optics, p: Paint, f: Flags, raw: Pixel, i: Pixel, c: Pixel, s: Pixel)
    requires FiltersKeepBlack(p, f) && Unshaded(o, p, f, raw) == CLEAR_PIXEL && Shades(o, p, f, raw, i, c, s)
    ensures s == CLEAR_PIXEL
  {
    hide Unshaded;
  }

  // An effective colour is only transparent because the paint's own alpha is, or rounds to, zero.
  lemma TransparentColor(p: Paint, f: Flags)
    requires p.color.Valid() && EffectiveColor(p, f).IsTransparent() && !AlphaRoundsAway(p, f)
    ensures FiltersKeepBlack(p, f) && p.color.a == 0.0 && (f.color || f.alpha) && (f.color ==> p.source.None?)
  {
  }

  lemma ClearBase(o: Optics, p: Paint, f: Flags, raw: Pixel)
    requires p.color.a == 0.0 && (f.color || f.alpha) && (f.color ==> p.source.None?)
    ensures Unshaded(o, p, f, raw) == CLEAR_PIXEL
  {
  }

  lemma AlphaByteZero(c: Color)
    requires c.Valid()
    ensures c.AlphaByte() == 0 <==> c.a < 0.5 / 255.0
    ensures c.AlphaByte() == 255 <==> c.a >= 254.5 / 255.0
  {
  }

  lemma OpaqueSource(o: Optics, p: Paint, f: Flags, s: Pixel)
    requires p.color.Valid() && EffectiveColor(p, f).IsOpaque() && SourceAllowed(o, p, f, s)
    requires !FadedOpaqueSource(o, p, f)
    ensures s.a == 1.0
  {
    var raw, i, c :| Shaded(o, p, f, raw, i, c, s);
    assert Unfiltered(p, f) && f.color;
    if p.source.Some? && o.alphaScalesSources {
      assert p.color.a == 1.0;
      assert Unshaded(o, p, f, raw).a == raw.a * 1.0;
    }
  }

  lemma WhiteSource(o: Optics, p: Paint, f: Flags, s: Pixel)
    requires EffectiveColor(p, f) == WHITE && SourceAllowed(o, p, f, s) && !InvertedWhite(p, f)
    ensures s == WHITE_PIXEL
  {
    var raw, i, c :| Shaded(o, p, f, raw, i, c, s);
    assert Unfiltered(p, f) && f.color && p.source.None?;
    assert Premultiply(WHITE) == WHITE_PIXEL;
  }

  // ---------- soundness of the verdicts ----------

  lemma NoEffectSound(o: Optics, p: Paint, f: Flags)
    requires o.Valid() && p.color.Valid() && f.blend
    requires PaintResult(false, p, f) == NoEffect && !NoEffectGap(o, p, f)
    ensures LeavesAll(o, p, f)
  {
    forall s: Pixel, d: Pixel | SourceAllowed(o, p, f, s) && d.Valid()
      ensures Blend(o, p.blend, s, d) == d
    {
      if p.blend == DST_IN {
        OpaqueSource(o, p, f, s);
      } else if p.blend == MODULATE {
        WhiteSource(o, p, f, s);
      } else if p.blend != DST {
        TransparentSource(o, p, f, s);
        ClearSource(o, p.blend, d);
      }
    }
  }

  lemma PreservesSound(o: Optics, p: Paint, f: Flags)
    requires o.Valid() && p.color.Valid() && f.blend
    requires PaintResult(false, p, f) == PreservesTransparency && !TransparencyGap(p, f)
    ensures LeavesTransparent(o, p, f)
  {
    forall s: Pixel | SourceAllowed(o, p, f, s)
      ensures Blend(o, p.blend, s, CLEAR_PIXEL) == CLEAR_PIXEL
    {
      var raw, i, c :| Shaded(o, p, f, raw, i, c, s);
      PreservesShade(o, p, f, raw, i, c, s);
    }
  }

  // The same for one source, which may be anything, such as a pixel of a layer.
  lemma PreservesShade(o: Optics, p: Paint, f: Flags, raw: Pixel, i: Pixel, c: Pixel, s: Pixel)
    requires p.color.Valid() && f.blend && Shades(o, p, f, raw, i, c, s)
    requires PaintResult(false, p, f) == PreservesTransparency && !TransparencyGap(p, f)
    ensures Blend(o, p.blend, s, CLEAR_PIXEL) == CLEAR_PIXEL
  {
    if p.blend in {SRC, SRC_OUT, DST_ATOP} {
      TransparentShade(o, p, f, raw, i, c, s);
    } else {
      PreservingModes(o, p.blend, s);
    }
  }

  // ---------- exactness: in the gaps the verdicts really are wrong ----------

  // A tint of white whose alpha rounds to zero is an allowed source in the gap.
  lemma FaintWhiteAllowed(o: Optics, p: Paint, f: Flags) returns (s: Pixel)
    requires p.color.Valid() && AlphaRoundsAway(p, f)
    ensures SourceAllowed(o, p, f, s) && s == Pixel(p.color.a, p.color.a, p.color.a, p.color.a)
  {
    var k := p.color.a;
    s := Pixel(k, k, k, k);
    var faintBlack := Pixel(k, 0.0, 0.0, 0.0);
    var inverted := f.colorFilter && p.invert;
    var raw := if inverted then BLACK_PIXEL else WHITE_PIXEL;
    var c := if inverted then faintBlack else s;
    assert Scale(raw, k) == c;
    assert Shaded(o, p, f, raw, c, c, s);
  }

  lemma FaintWhiteMatters(o: Optics, mode: BlendMode, k: real) returns (d: Pixel)
    requires HasFormula(mode) && TransparencyMatters(mode) && 0.0 < k < 1.0
    ensures d.Valid() && Blend(o, mode, Pixel(k, k, k, k), d) != d
  {
    d := if mode == SRC_ATOP then BLACK_PIXEL else if mode == DST_OUT then WHITE_PIXEL else CLEAR_PIXEL;
  }

  // For every mode with a formula, the verdict "no effect" is right exactly outside the gap.
  lemma NoEffectExact(o: Optics, p: Paint, f: Flags)
    requires o.Valid() && p.color.Valid() && f.blend && HasFormula(p.blend)
    requires PaintResult(false, p, f) == NoEffect
    ensures LeavesAll(o, p, f) <==> !NoEffectGap(o, p, f)
  {
    if !NoEffectGap(o, p, f) {
      NoEffectSound(o, p, f);
    } else if p.blend == MODULATE {
      assert Premultiply(WHITE) == WHITE_PIXEL && Invert(WHITE_PIXEL) == BLACK_PIXEL;
      assert Shaded(o, p, f, WHITE_PIXEL, WHITE_PIXEL, WHITE_PIXEL, BLACK_PIXEL);
      assert Blend(o, MODULATE, BLACK_PIXEL, WHITE_PIXEL) != WHITE_PIXEL;
    } else if p.blend == DST_IN {
      FadedSourceMatters(o, p, f);
    } else {
      var s := FaintWhiteAllowed(o, p, f);
      AlphaByteZero(p.color);
      var d := FaintWhiteMatters(o, p.blend, p.color.a);
    }
  }

  lemma FadedSourceMatters(o: Optics, p: Paint, f: Flags)
    requires p.color.Valid() && FadedOpaqueSource(o, p, f) && p.blend == DST_IN
    ensures !LeavesAll(o, p, f)
  {
    var c := Scale(BLACK_PIXEL, p.color.a);
    var s := if f.colorFilter && p.invert then Invert(c) else c;
    assert Shaded(o, p, f, BLACK_PIXEL, c, c, s);
    assert Blend(o, DST_IN, s, WHITE_PIXEL).a == p.color.a;
  }

  // The verdict "preserves transparency" is right exactly outside its gap.
  lemma PreservesExact(o: Optics, p: Paint, f: Flags)
    requires o.Valid() && p.color.Valid() && f.blend
    requires PaintResult(false, p, f) == PreservesTransparency
    ensures LeavesTransparent(o, p, f) <==> !TransparencyGap(p, f)
  {
    if !TransparencyGap(p, f) {
      PreservesSound(o, p, f);
    } else {
      var s := FaintWhiteAllowed(o, p, f);
      assert p.blend == DST_ATOP ==> Channel(DST_ATOP, s.a, s.a, 0.0, 0.0) == s.a;
      assert Blend(o, p.blend, s, CLEAR_PIXEL).a == s.a;
    }
  }

  // A paint that is not said to affect all pixels leaves a transparent one transparent, whatever
  // comes through its filters.
  lemma ShadeKeepsClear(o: Optics, p: Paint, f: Flags, raw: Pixel, i: Pixel, c: Pixel, s: Pixel)
    requires o.Valid() && p.color.Valid() && f.blend && Shades(o, p, f, raw, i, c, s)
    requires PaintResult(false, p, f) != AffectsAll && !ClearGap(p, f)
    ensures Blend(o, p.blend, s, CLEAR_PIXEL) == CLEAR_PIXEL
  {
    if KeepsClear(p.blend) {
      PreservingModes(o, p.blend, s);
    } else {
      TransparentShade(o, p, f, raw, i, c, s);
      if TransparencyMatters(p.blend) { ClearSource(o, p.blend, CLEAR_PIXEL); }
    }
  }

  // For every mode with a formula, it does so exactly outside the gap.
  lemma ClearExact(o: Optics, p: Paint, f: Flags)
    requires o.Valid() && p.color.Valid() && f.blend && HasFormula(p.blend)
    requires PaintResult(false, p, f) != AffectsAll
    ensures LeavesTransparent(o, p, f) <==> !ClearGap(p, f)
  {
    if !ClearGap(p, f) {
      forall s: Pixel | SourceAllowed(o, p, f, s) ensures Blend(o, p.blend, s, CLEAR_PIXEL) == CLEAR_PIXEL {
        var raw, i, c :| Shaded(o, p, f, raw, i, c, s);
        ShadeKeepsClear(o, p, f, raw, i, c, s);
      }
    } else {
      var s := FaintWhiteAllowed(o, p, f);
      AlphaByteZero(p.color);
      FaintWhiteShows(o, p.blend, s.a);
    }
  }

  lemma FaintWhiteShows(o: Optics, mode: BlendMode, k: real)
    requires HasFormula(mode) && !KeepsClear(mode) && 0.0 < k < 1.0
    ensures Blend(o, mode, Pixel(k, k, k, k), CLEAR_PIXEL) != CLEAR_PIXEL
  {
    assert Channel(AlphaMode(mode), k, k, 0.0, 0.0) == k;
  }

  // ---------- exactness: an effect is not claimed in vain ----------

  // A colour source that the paint's alpha takes away altogether, which the analysis does not look at.
  predicate SourceGone(o: Optics, p: Paint, f: Flags) {
    f.color && p.source.Some? && o.alphaScalesSources && p.color.a == 0.0 && FiltersKeepBlack(p, f)
  }

  predicate InvertedBlack(p: Paint, f: Flags) {
    f.color && p.source.None? && Unfiltered(p, f) && p.color == BLACK && f.colorFilter && p.invert
  }

  // The paints that are said to have an effect and have none.
  predicate EffectGap(o: Optics, p: Paint, f: Flags) {
    || (TransparencyMatters(p.blend) && SourceGone(o, p, f))
    || (p.blend == MODULATE && InvertedBlack(p, f))
  }

  lemma GoneSource(o: Optics, p: Paint, f: Flags, s: Pixel)
    requires SourceGone(o, p, f) && SourceAllowed(o, p, f, s)
    ensures s == CLEAR_PIXEL
  {
    var raw, i, c :| Shaded(o, p, f, raw, i, c, s);
    assert Scale(raw, 0.0) == CLEAR_PIXEL;
    BlackStaysBlack(o, p, f, raw, i, c, s);
  }

  predicate Imaged(p: Paint, f: Flags) { f.imageFilter && p.imageFilter.Some? }

  predicate Coloured(p: Paint, f: Flags) { f.colorFilter && p.colorFilter.Some? }

  lemma ScaleOrder(u: real, v: real, k: real)
    requires 0.0 <= u <= v && 0.0 <= k <= 1.0
    ensures 0.0 <= u * k <= v * k <= v
  {
    var w := v - u;
    assert w * k >= 0.0 && v * k == u * k + w * k && v * (1.0 - k) >= 0.0;
  }

  lemma ScaleValid(p: Pixel, k: real)
    requires p.Valid() && 0.0 <= k <= 1.0
    ensures Scale(p, k).Valid()
  {
    ScaleOrder(p.r, p.a, k);
    ScaleOrder(p.g, p.a, k);
    ScaleOrder(p.b, p.a, k);
  }

  lemma UnshadedValid(o: Optics, p: Paint, f: Flags, raw: Pixel)
    requires p.color.Valid() && raw.Valid()
    ensures Unshaded(o, p, f, raw).Valid()
  {
    ScaleValid(raw, p.color.a);
    ScaleValid(Pixel(1.0, p.color.r, p.color.g, p.color.b), p.color.a);
  }

  // A filter turns a colour into white where it may.
  ghost function Whitened(applies: bool, modifiesTransparentBlack: bool, before: Pixel): Pixel {
    if applies && (before != CLEAR_PIXEL || modifiesTransparentBlack) then WHITE_PIXEL else before
  }

  lemma WhitenedIsFiltered(applies: bool, modifiesTransparentBlack: bool, before: Pixel)
    requires before.Valid()
    ensures var after := Whitened(applies, modifiesTransparentBlack, before);
            && Filtered(applies, modifiesTransparentBlack, before, after) && after.Valid()
            && (before.a > 0.0 || (applies && modifiesTransparentBlack) ==> after.a > 0.0)
  {
  }

  lemma InvertKeeps(p: Pixel)
    ensures Invert(p).a == p.a && (p.Valid() ==> Invert(p).Valid())
  {
  }

  // What a source that shows becomes in both filters.
  lemma VisibleShade(o: Optics, p: Paint, f: Flags, u: Pixel) returns (i: Pixel, c: Pixel)
    requires u.Valid() && u == Unshaded(o, p, f, WHITE_PIXEL)
    ensures c.Valid() && Shades(o, p, f, WHITE_PIXEL, i, c, if f.colorFilter && p.invert then Invert(c) else c)
    ensures u.a > 0.0 || !FiltersKeepBlack(p, f) ==> c.a > 0.0
  {
    hide Unshaded, Filtered, Whitened, Invert, Pixel.Valid;
    var image := p.imageFilter.Some? && p.imageFilter.value.modifiesTransparentBlack;
    var color := p.colorFilter.Some? && p.colorFilter.value.modifiesTransparentBlack;
    i := Whitened(f.imageFilter && p.imageFilter.Some?, image, u);
    c := Whitened(f.colorFilter && p.colorFilter.Some?, color, i);
    WhitenedIsFiltered(f.imageFilter && p.imageFilter.Some?, image, u);
    WhitenedIsFiltered(f.colorFilter && p.colorFilter.Some?, color, i);
  }

  // A source that shows, if the paint has one.
  lemma VisibleSource(o: Optics, p: Paint, f: Flags) returns (s: Pixel)
    requires p.color.Valid()
    ensures SourceAllowed(o, p, f, s) && s.Valid()
    ensures !EffectiveColor(p, f).IsTransparent() && !SourceGone(o, p, f) ==> s.a > 0.0
  {
    hide Shades, EffectiveColor, SourceGone, Invert;
    UnshadedValid(o, p, f, WHITE_PIXEL);
    var i, c := VisibleShade(o, p, f, Unshaded(o, p, f, WHITE_PIXEL));
    s := if f.colorFilter && p.invert then Invert(c) else c;
    InvertKeeps(c);
    assert Shaded(o, p, f, WHITE_PIXEL, i, c, s);
    if !EffectiveColor(p, f).IsTransparent() && !SourceGone(o, p, f) { VisibleBase(o, p, f); }
  }

  // The paint's own colour shows, or a filter makes it show.
  lemma VisibleBase(o: Optics, p: Paint, f: Flags)
    requires p.color.Valid() && !EffectiveColor(p, f).IsTransparent() && !SourceGone(o, p, f)
    ensures Unshaded(o, p, f, WHITE_PIXEL).a > 0.0 || !FiltersKeepBlack(p, f)
  {
    AlphaByteZero(p.color);
  }

  // The source of a raw colour that the filters, where there are any, turn into nothing.
  ghost function ErasedPixel(o: Optics, p: Paint, f: Flags, raw: Pixel): Pixel {
    var c := if Coloured(p, f) || Imaged(p, f) then CLEAR_PIXEL else Unshaded(o, p, f, raw);
    if f.colorFilter && p.invert then Invert(c) else c
  }

  lemma ErasedSource(o: Optics, p: Paint, f: Flags, raw: Pixel)
    requires RawAllowed(p, f, raw)
    ensures SourceAllowed(o, p, f, ErasedPixel(o, p, f, raw))
  {
    hide Unshaded, RawAllowed;
    var i := if Imaged(p, f) then CLEAR_PIXEL else Unshaded(o, p, f, raw);
    var c := if Coloured(p, f) then CLEAR_PIXEL else i;
    assert Shaded(o, p, f, raw, i, c, ErasedPixel(o, p, f, raw));
  }

  // A source that does not cover all, if the paint has one.
  lemma PaleSource(o: Optics, p: Paint, f: Flags) returns (s: Pixel)
    requires p.color.Valid() && !EffectiveColor(p, f).IsOpaque()
    ensures SourceAllowed(o, p, f, s) && s.a < 1.0
  {
    var raw := if f.color && p.source.Some? && p.source.value.opaqueColors then BLACK_PIXEL else CLEAR_PIXEL;
    ErasedSource(o, p, f, raw);
    s := ErasedPixel(o, p, f, raw);
    hide SourceAllowed;
  }

  // A source other than white, if the paint has one.
  lemma TintedSource(o: Optics, p: Paint, f: Flags) returns (s: Pixel)
    requires p.color.Valid() && EffectiveColor(p, f) != WHITE && !InvertedBlack(p, f)
    ensures SourceAllowed(o, p, f, s) && s != WHITE_PIXEL
  {
    var raw := if f.colorFilter && p.invert then WHITE_PIXEL else BLACK_PIXEL;
    ErasedSource(o, p, f, raw);
    s := ErasedPixel(o, p, f, raw);
    hide SourceAllowed, ErasedPixel;
    TintedPixel(o, p, f, raw);
  }

  lemma TintedPixel(o: Optics, p: Paint, f: Flags, raw: Pixel)
    requires p.color.Valid() && EffectiveColor(p, f) != WHITE && !InvertedBlack(p, f)
    requires raw == if f.colorFilter && p.invert then WHITE_PIXEL else BLACK_PIXEL
    ensures ErasedPixel(o, p, f, raw) != WHITE_PIXEL
  {
    hide EffectiveColor, Premultiply, Scale, Invert;
    BlackOrWhite(p.color.a);
    if Coloured(p, f) || Imaged(p, f) {
      assert ErasedPixel(o, p, f, raw).a == 0.0;
    } else if f.color && p.source.None? {
      SolidColor(p, f);
      TintedColor(p.color);
    } else {
      assert ErasedPixel(o, p, f, raw).r == 0.0;
    }
  }

  lemma SolidColor(p: Paint, f: Flags)
    requires f.color && p.source.None? && Unfiltered(p, f)
    ensures EffectiveColor(p, f) == p.color
  {
  }

  lemma BlackOrWhite(k: real)
    ensures Scale(BLACK_PIXEL, k).r == 0.0 && Invert(Scale(WHITE_PIXEL, k)).r == 0.0 && Invert(WHITE_PIXEL).r == 0.0
    ensures Invert(CLEAR_PIXEL).a == 0.0
  {
  }

  lemma TintedColor(c: Color)
    requires c.Valid()
    ensures Premultiply(c) == WHITE_PIXEL ==> c == WHITE
    ensures Invert(Premultiply(c)) == WHITE_PIXEL ==> c == BLACK
  {
    if c.a == 1.0 {
      assert Premultiply(c) == Pixel(1.0, c.r, c.g, c.b);
    } else {
      assert Premultiply(c).a == c.a && Invert(Premultiply(c)).a == c.a;
    }
  }

  // ---------- what these sources change ----------

  lemma VisibleSourceShows(o: Optics, mode: BlendMode, s: Pixel)
    requires HasFormula(mode) && !KeepsClear(mode) && s.Valid()
    ensures Blend(o, mode, s, CLEAR_PIXEL) == s
  {
  }

  lemma VisibleSourceMatters(o: Optics, mode: BlendMode, s: Pixel) returns (d: Pixel)
    requires HasFormula(mode) && TransparencyMatters(mode) && s.Valid() && s.a > 0.0
    ensures d.Valid() && Blend(o, mode, s, d) != d
  {
    if mode == SRC_ATOP {
      d := if s.r == s.a then BLACK_PIXEL else WHITE_PIXEL;
    } else if mode == DST_OUT {
      d := WHITE_PIXEL;
    } else {
      d := CLEAR_PIXEL;
      VisibleSourceShows(o, mode, s);
    }
  }

  // For every mode with a formula, a paint that is said to affect all pixels changes a transparent one,
  // but for a colour source that is gone.
  lemma AffectsExact(o: Optics, p: Paint, f: Flags)
    requires o.Valid() && p.color.Valid() && f.blend && HasFormula(p.blend)
    requires PaintResult(false, p, f) == AffectsAll
    ensures LeavesTransparent(o, p, f) <==> SourceGone(o, p, f)
  {
    hide EffectiveColor;
    if SourceGone(o, p, f) {
      forall s: Pixel | SourceAllowed(o, p, f, s) ensures Blend(o, p.blend, s, CLEAR_PIXEL) == CLEAR_PIXEL {
        GoneSource(o, p, f, s);
        VisibleSourceShows(o, p.blend, s);
      }
    } else {
      var s := VisibleSource(o, p, f);
      VisibleSourceShows(o, p.blend, s);
    }
  }

  // And one that is said to have any effect has one, exactly outside two gaps.
  lemma EffectExact(o: Optics, p: Paint, f: Flags)
    requires o.Valid() && p.color.Valid() && f.blend && HasFormula(p.blend)
    requires PaintResult(false, p, f) != NoEffect
    ensures LeavesAll(o, p, f) <==> EffectGap(o, p, f)
  {
    hide EffectiveColor, SourceAllowed;
    if EffectGap(o, p, f) {
      EffectGapIsClear(o, p, f);
    } else {
      var s, d := CLEAR_PIXEL, WHITE_PIXEL;
      if TransparencyMatters(p.blend) {
        s := VisibleSource(o, p, f);
        d := VisibleSourceMatters(o, p.blend, s);
      } else if p.blend == DST_IN {
        s := PaleSource(o, p, f);
      } else if p.blend == MODULATE {
        s := TintedSource(o, p, f);
      } else {
        s, d := ReplacingSource(o, p, f);
      }
      assert Blend(o, p.blend, s, d) != d;
    }
  }

  lemma EffectGapIsClear(o: Optics, p: Paint, f: Flags)
    requires o.Valid() && p.color.Valid() && HasFormula(p.blend) && EffectGap(o, p, f)
    ensures LeavesAll(o, p, f)
  {
    hide SourceGone, InvertedBlack, Blend, SourceAllowed;
    forall s: Pixel, d: Pixel | SourceAllowed(o, p, f, s) && d.Valid() ensures Blend(o, p.blend, s, d) == d {
      if TransparencyMatters(p.blend) {
        GoneSource(o, p, f, s);
        ClearSource(o, p.blend, d);
      } else {
        InvertedSource(o, p, f, s);
        WhiteModulates(o, d);
      }
    }
  }

  lemma InvertedSource(o: Optics, p: Paint, f: Flags, s: Pixel)
    requires InvertedBlack(p, f) && SourceAllowed(o, p, f, s)
    ensures s == WHITE_PIXEL
  {
    hide Premultiply, Invert, Scale;
    var raw, i, c :| Shaded(o, p, f, raw, i, c, s);
    assert Unshaded(o, p, f, raw) == Premultiply(BLACK) && c == i == Unshaded(o, p, f, raw);
    BlackIsOpaque();
    BlackInverts();
  }

  lemma BlackIsOpaque()
    ensures Premultiply(BLACK) == BLACK_PIXEL
  {
  }

  lemma BlackInverts()
    ensures Invert(BLACK_PIXEL) == WHITE_PIXEL
  {
  }

  lemma WhiteModulates(o: Optics, d: Pixel)
    ensures Blend(o, MODULATE, WHITE_PIXEL, d) == d
  {
  }

  // The other modes replace the destination.
  lemma ReplacingSource(o: Optics, p: Paint, f: Flags) returns (s: Pixel, d: Pixel)
    requires o.Valid() && p.color.Valid() && p.blend in {CLEAR, SRC, SRC_IN, SRC_OUT, DST_ATOP}
    ensures SourceAllowed(o, p, f, s) && d.Valid() && Blend(o, p.blend, s, d) != d
  {
    s := VisibleSource(o, p, f);
    hide SourceAllowed;
    d := if p.blend == DST_ATOP && s.a == 1.0 then CLEAR_PIXEL
         else if p.blend in {SRC, SRC_IN} && s == WHITE_PIXEL then BLACK_PIXEL else WHITE_PIXEL;
  }

  // ---------- compositing the untouched part of a layer ----------

  // The pixels that a layer composites where nothing was drawn into it.
  ghost predicate BackgroundSource(p: Paint, i: Pixel, s: Pixel) {
    && Filtered(p.imageFilter.Some?, p.imageFilter.Some? && p.imageFilter.value.modifiesTransparentBlack,
                CLEAR_PIXEL, i)
    && Filtered(p.colorFilter.Some?, p.colorFilter.Some? && p.colorFilter.value.modifiesTransparentBlack, i, s)
  }

  ghost predicate LeavesBackground(o: Optics, p: Paint) {
    forall i: Pixel, s: Pixel, d: Pixel :: BackgroundSource(p, i, s) && d.Valid() ==> Blend(o, p.blend, s, d) == d
  }

  // The recorder floods the clip of the outer layer unless this says it need not. It is right:
  // with filters that keep black, the background changes no destination exactly in that case.
  lemma BackgroundExact(o: Optics, p: Paint)
    requires o.Valid()
    requires p.imageFilter.Some? ==> !p.imageFilter.value.modifiesTransparentBlack
    requires p.colorFilter.Some? ==> !p.colorFilter.value.modifiesTransparentBlack
    ensures NopsOnTransparency(p) <==> LeavesBackground(o, p)
  {
    if NopsOnTransparency(p) {
      forall i: Pixel, s: Pixel, d: Pixel | BackgroundSource(p, i, s) && d.Valid()
        ensures Blend(o, p.blend, s, d) == d
      {
        if p.blend != DST { ClearSource(o, p.blend, d); }
      }
    } else {
      assert BackgroundSource(p, CLEAR_PIXEL, CLEAR_PIXEL) && WHITE_PIXEL.Valid();
      assert Blend(o, p.blend, CLEAR_PIXEL, WHITE_PIXEL) != WHITE_PIXEL;
    }
  }
}
