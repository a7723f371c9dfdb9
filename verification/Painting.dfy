/** Rendering attributes: colours, the paint record, the attribute flags of an
    operation, and the recorder's static analysis of what a paint can do to a pixel. */
module Painting {
  import opened Geometry

  // Unpremultiplied components, each between 0 and 1.
  datatype Color = Color(a: real, r: real, g: real, b: real) {
    ghost predicate Valid() {
      && 0.0 <= a <= 1.0 && 0.0 <= r <= 1.0 && 0.0 <= g <= 1.0 && 0.0 <= b <= 1.0
    }

    predicate IsOpaque() { a >= 1.0 }

    predicate IsTransparent() { a <= 0.0 }

    // The alpha channel as the 8-bit value that the packed colour holds.
    function AlphaByte(): int { (a * 255.0 + 0.5).Floor }
  }

  const BLACK: Color := Color(1.0, 0.0, 0.0, 0.0)
  const WHITE: Color := Color(1.0, 1.0, 1.0, 1.0)
  const TRANSPARENT: Color := Color(0.0, 0.0, 0.0, 0.0)

  // Neither opaque nor transparent, so that it triggers no special case of a blend.
  const ANY_COLOR: Color := Color(0.5, 128.0 / 255.0, 128.0 / 255.0, 128.0 / 255.0)

  // Blend modes are ordered: a layer remembers the largest one used in it.
  type BlendMode = n: nat | n < 29

  const CLEAR: BlendMode := 0
  const SRC: BlendMode := 1
  const DST: BlendMode := 2
  const SRC_OVER: BlendMode := 3
  const DST_OVER: BlendMode := 4
  const SRC_IN: BlendMode := 5
  const DST_IN: BlendMode := 6
  const SRC_OUT: BlendMode := 7
  const DST_OUT: BlendMode := 8
  const SRC_ATOP: BlendMode := 9
  const DST_ATOP: BlendMode := 10
  const XOR: BlendMode := 11
  const PLUS: BlendMode := 12
  const MODULATE: BlendMode := 13
  const SCREEN: BlendMode := 14
  const OVERLAY: BlendMode := 15
  const DARKEN: BlendMode := 16
  const LIGHTEN: BlendMode := 17
  const COLOR_DODGE: BlendMode := 18
  const COLOR_BURN: BlendMode := 19
  const HARD_LIGHT: BlendMode := 20
  const SOFT_LIGHT: BlendMode := 21
  const DIFFERENCE: BlendMode := 22
  const EXCLUSION: BlendMode := 23
  const MULTIPLY: BlendMode := 24
  const HUE: BlendMode := 25
  const SATURATION: BlendMode := 26
  const COLOR: BlendMode := 27
  const LUMINOSITY: BlendMode := 28

  datatype Style = Fill | Stroke | StrokeAndFill

  datatype Cap = ButtCap | RoundCap | SquareCap

  datatype Join = MiterJoin | RoundJoin | BevelJoin

  datatype ColorSource = ColorSource(id: int, opaqueColors: bool, runtimeEffect: bool)

  datatype ImageFilter = ImageFilter(id: int, modifiesTransparentBlack: bool, runtimeEffect: bool)

  datatype ColorFilter = ColorFilter(id: int, modifiesTransparentBlack: bool)

  datatype MaskFilter = MaskFilter(sigma: real)

  datatype Paint = Paint(
    antiAlias: bool, invert: bool, cap: Cap, join: Join, style: Style, width: real, miter: real,
    color: Color, blend: BlendMode, source: Option<ColorSource>, imageFilter: Option<ImageFilter>,
    colorFilter: Option<ColorFilter>, maskFilter: Option<MaskFilter>) {

    predicate UsesRuntimeEffect() {
      (source.Some? && source.value.runtimeEffect) || (imageFilter.Some? && imageFilter.value.runtimeEffect)
    }

    // Whether an operation drawn with this paint can apply an inherited opacity.
    predicate OpacityCompatible() {
      colorFilter.None? && !invert && !UsesRuntimeEffect() && blend == SRC_OVER
    }

    function DepthCost(): nat { if maskFilter.Some? then 2 else 1 }
  }

  function DefaultPaint(color: Color): Paint {
    Paint(false, false, ButtCap, MiterJoin, Fill, 0.0, 4.0, color, SRC_OVER, None, None, None, None)
  }

  datatype Attr =
    | AntiAliasAttr(aa: bool)
    | InvertAttr(invert: bool)
    | CapAttr(cap: Cap)
    | JoinAttr(join: Join)
    | StyleAttr(style: Style)
    | WidthAttr(width: real)
    | MiterAttr(miter: real)
    | ColorAttr(color: Color)
    | BlendAttr(blend: BlendMode)
    | SourceAttr(source: Option<ColorSource>)
    | ImageFilterAttr(imageFilter: Option<ImageFilter>)
    | ColorFilterAttr(colorFilter: Option<ColorFilter>)
    | MaskFilterAttr(maskFilter: Option<MaskFilter>)

  function SetAttr(p: Paint, a: Attr): Paint {
    match a
    case AntiAliasAttr(v) => p.(antiAlias := v)
    case InvertAttr(v) => p.(invert := v)
    case CapAttr(v) => p.(cap := v)
    case JoinAttr(v) => p.(join := v)
    case StyleAttr(v) => p.(style := v)
    case WidthAttr(v) => p.(width := v)
    case MiterAttr(v) => p.(miter := v)
    case ColorAttr(v) => p.(color := v)
    case BlendAttr(v) => p.(blend := v)
    case SourceAttr(v) => p.(source := v)
    case ImageFilterAttr(v) => p.(imageFilter := v)
    case ColorFilterAttr(v) => p.(colorFilter := v)
    case MaskFilterAttr(v) => p.(maskFilter := v)
  }

  datatype GeometryKind = NonGeometric | Filled | Stroked | Drawn

  // Which attributes an operation honours, and what its geometry may do when stroked.
  datatype Flags = Flags(
    geometry: GeometryKind, diagonalCaps: bool, acuteJoins: bool, antiAlias: bool, alpha: bool, color: bool,
    blend: bool, shader: bool, colorFilter: bool, maskFilter: bool, imageFilter: bool) {

    predicate IsStroked(style: Style) { geometry.Stroked? || (style != Fill && geometry.Drawn?) }

    predicate IgnoresPaint() {
      !(antiAlias || alpha || color || blend || shader || colorFilter || maskFilter || imageFilter)
    }
  }

  const IGNORES_PAINT: Flags :=
    Flags(NonGeometric, false, false, false, false, false, false, false, false, false, false)

  const BASE_PAINT: Flags := IGNORES_PAINT.(
    color := true, alpha := true, blend := true, shader := true, colorFilter := true, imageFilter := true)

  const BASE_IMAGE: Flags := IGNORES_PAINT.(
    alpha := true, blend := true, colorFilter := true, imageFilter := true)

  const SAVE_LAYER_FLAGS: Flags := IGNORES_PAINT
  const SAVE_LAYER_WITH_PAINT_FLAGS: Flags := BASE_IMAGE
  const DRAW_PAINT_FLAGS: Flags := BASE_PAINT

  // ---------- the recorder's analysis of a paint ----------

  // No effect; may change pixels but leaves transparent ones transparent; may change any pixel.
  datatype OpResult = NoEffect | PreservesTransparency | AffectsAll

  // A stand-in for every colour that the operation may feed to the blend.
  function EffectiveColor(p: Paint, f: Flags): Color {
    var base :=
      if f.color then
        (if p.source.Some? then (if p.source.value.opaqueColors then BLACK else ANY_COLOR) else p.color)
      else if f.alpha then
        (if p.color.AlphaByte() == 0 then TRANSPARENT else ANY_COLOR)
      else
        ANY_COLOR;
    var imaged :=
      if f.imageFilter && p.imageFilter.Some? &&
         (!base.IsTransparent() || p.imageFilter.value.modifiesTransparentBlack) then ANY_COLOR else base;
    if f.colorFilter && p.colorFilter.Some? &&
       (!imaged.IsTransparent() || p.colorFilter.value.modifiesTransparentBlack) then ANY_COLOR else imaged
  }

  function PaintResult(nop: bool, p: Paint, f: Flags): OpResult {
    if nop then NoEffect
    else if f.blend then BlendResult(p.blend, EffectiveColor(p, f))
    else AffectsAll
  }

  function BlendResult(mode: BlendMode, c: Color): OpResult {
    if mode == DST then NoEffect
    else if mode == CLEAR || mode == SRC_IN then PreservesTransparency
    else if mode == SRC_ATOP || mode == DST_OUT then
      (if c.IsTransparent() then NoEffect else PreservesTransparency)
    else if mode == SRC || mode == SRC_OUT || mode == DST_ATOP then
      (if c.IsTransparent() then PreservesTransparency else AffectsAll)
    else if mode == DST_IN then
      (if c.IsOpaque() then NoEffect else PreservesTransparency)
    else if mode == MODULATE then
      (if c == WHITE then NoEffect else PreservesTransparency)
    else
      (if c.IsTransparent() then NoEffect else AffectsAll)
  }

  // Whether compositing a layer with this paint leaves alone the pixels that the layer did not touch.
  predicate NopsOnTransparency(p: Paint) {
    && (p.imageFilter.Some? ==> !p.imageFilter.value.modifiesTransparentBlack)
    && (p.colorFilter.Some? ==> !p.colorFilter.value.modifiesTransparentBlack)
    && p.blend !in {CLEAR, SRC, SRC_IN, DST_IN, SRC_OUT, DST_ATOP, MODULATE}
  }

  // ---------- attributes set on behalf of a canvas call ----------

  function FrontAttrs(p: Paint, f: Flags): seq<Attr> {
    (if f.antiAlias then [AntiAliasAttr(p.antiAlias)] else []) +
    (if f.alpha || f.color then [ColorAttr(p.color)] else []) +
    (if f.blend then [BlendAttr(p.blend)] else []) +
    (if f.geometry.Drawn? then [StyleAttr(p.style)] else [])
  }

  function StrokeAttrs(p: Paint): seq<Attr> {
    [WidthAttr(p.width), MiterAttr(p.miter), CapAttr(p.cap), JoinAttr(p.join)]
  }

  function BackAttrs(p: Paint, f: Flags): seq<Attr> {
    (if f.shader then [SourceAttr(p.source)] else []) +
    (if f.colorFilter then [InvertAttr(p.invert), ColorFilterAttr(p.colorFilter)] else []) +
    (if f.imageFilter then [ImageFilterAttr(p.imageFilter)] else []) +
    (if f.maskFilter then [MaskFilterAttr(p.maskFilter)] else [])
  }

  // The attributes that a canvas call sets from its paint before it draws, in order.
  function AttrsOf(p: Paint, f: Flags): seq<Attr> {
    FrontAttrs(p, f) + ((if f.IsStroked(p.style) then StrokeAttrs(p) else []) + BackAttrs(p, f))
  }

  // Agreement on every field that an operation with these flags can read.
  ghost predicate Agree(f: Flags, p: Paint, q: Paint) {
    && (f.antiAlias ==> p.antiAlias == q.antiAlias)
    && (f.alpha || f.color ==> p.color == q.color)
    && (f.blend ==> p.blend == q.blend)
    && (f.geometry.Drawn? ==> p.style == q.style)
    && (f.IsStroked(q.style) ==> p.width == q.width && p.miter == q.miter && p.cap == q.cap && p.join == q.join)
    && (f.shader ==> p.source == q.source)
    && (f.colorFilter ==> p.invert == q.invert && p.colorFilter == q.colorFilter)
    && (f.imageFilter ==> p.imageFilter == q.imageFilter)
    && (f.maskFilter ==> p.maskFilter == q.maskFilter)
  }
}
