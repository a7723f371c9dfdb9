/** The canvas in front of the recorder: each drawing primitive with the attributes that decide its
    effect, and the attribute calls that a canvas call makes from its paint before it draws. */
module Canvas {
  import opened Geometry
  import opened Painting
  import opened DisplayLists
  import opened Recorder

  // ---------- the primitives ----------

  const STROKED: Flags := BASE_PAINT.(geometry := Stroked, antiAlias := true, maskFilter := true)
  const STROKE_OR_FILL: Flags := BASE_PAINT.(geometry := Drawn, antiAlias := true, maskFilter := true)

  const HV_LINE: Flags := STROKED
  const LINE: Flags := HV_LINE.(diagonalCaps := true)
  const PATH: Flags := STROKE_OR_FILL.(diagonalCaps := true, acuteJoins := true)
  const ARC_NO_CENTER: Flags := STROKE_OR_FILL.(diagonalCaps := true)
  const ARC_WITH_CENTER: Flags := STROKE_OR_FILL.(acuteJoins := true)
  const VERTICES: Flags := IGNORES_PAINT.(
    alpha := true, shader := true, blend := true, colorFilter := true, imageFilter := true)
  const IMAGE_WITH_PAINT: Flags := BASE_IMAGE.(antiAlias := true, maskFilter := true)
  const TEXT: Flags := STROKE_OR_FILL.(antiAlias := false)

  datatype Primitive =
    | PaintPrim
    | ColorPrim(color: Color, mode: BlendMode)
    | LinePrim(bounds: Rect, dashed: bool)
    | RectPrim(bounds: Rect)
    | OvalPrim(bounds: Rect)
    | CirclePrim(bounds: Rect)
    | RoundRectPrim(bounds: Rect)
    | DiffRoundRectPrim(bounds: Rect)
    | PathPrim(bounds: Rect)
    | ArcPrim(bounds: Rect, useCenter: bool)
    | PointsPrim(bounds: Rect)
    | LinesPrim(bounds: Rect)
    | PolygonPrim(bounds: Rect)
    | VerticesPrim(bounds: Rect)
    | ImagePrim(bounds: Rect, withPaint: bool)
    | ImageRectPrim(bounds: Rect, withPaint: bool)
    | ImageNinePrim(bounds: Rect, withPaint: bool)
    | AtlasPrim(bounds: Rect, withPaint: bool, overlaps: bool)
    | TextPrim(bounds: Rect, frame: bool)
    | ShadowPrim(color: Color, bounds: Rect)

  // An operation that honours the current paint.
  function Painted(kind: DrawKind, payload: int, f: Flags, bounds: Rect, opacity: OpacityRule): Op {
    Op(kind, payload, f, f, Some(bounds), None, None, opacity, false, 1)
  }

  // An image operation: without a paint it ignores the current one.
  function Imaged(kind: DrawKind, payload: int, f: Flags, bounds: Rect, withPaint: bool): Op {
    if withPaint then Painted(kind, payload, f, bounds, ByPaint)
    else Op(kind, payload, IGNORES_PAINT, IGNORES_PAINT, Some(bounds), None, Some(SRC_OVER), Always, false, 1)
  }

  // What the recorder is told about a primitive.
  function Recorded(p: Primitive, n: int): Op {
    match p
    case PaintPrim => Op(DrawPaint, n, BASE_PAINT, BASE_PAINT, None, None, None, ByPaint, false, 1)
    case ColorPrim(c, m) =>
      Op(DrawColor, n, BASE_PAINT, IGNORES_PAINT, None, Some(DefaultPaint(c).(blend := m)), Some(m), ByMode, false, 1)
    case LinePrim(b, dashed) =>
      Painted(if dashed then DrawDashedLine else DrawLine, n, if b.IsEmpty() then HV_LINE else LINE, b, ByPaint)
    case RectPrim(b) => Painted(DrawRect, n, STROKE_OR_FILL, b, ByPaint)
    case OvalPrim(b) => Painted(DrawOval, n, STROKE_OR_FILL, b, ByPaint)
    case CirclePrim(b) => Painted(DrawCircle, n, STROKE_OR_FILL, b, ByPaint)
    case RoundRectPrim(b) => Painted(DrawRoundRect, n, STROKE_OR_FILL, b, ByPaint)
    case DiffRoundRectPrim(b) => Painted(DrawDiffRoundRect, n, STROKE_OR_FILL, b, ByPaint)
    case PathPrim(b) => Painted(DrawPath, n, PATH, b, Hairline)
    case ArcPrim(b, true) => Painted(DrawArc, n, ARC_WITH_CENTER, b, Hairline)
    case ArcPrim(b, false) => Painted(DrawArc, n, ARC_NO_CENTER, b, ByPaint)
    case PointsPrim(b) => Painted(DrawPoints, n, STROKED, b, ByPaint).(overlaps := true)
    case LinesPrim(b) => Painted(DrawLines, n, LINE, b, ByPaint).(overlaps := true)
    case PolygonPrim(b) => Painted(DrawPolygon, n, LINE, b, ByPaint).(overlaps := true)
    case VerticesPrim(b) => Painted(DrawVertices, n, VERTICES, b, Never).(overlaps := true)
    case ImagePrim(b, w) => Imaged(if w then DrawImageWithAttr else DrawImage, n, IMAGE_WITH_PAINT, b, w)
    case ImageRectPrim(b, w) => Imaged(DrawImageRect, n, IMAGE_WITH_PAINT, b, w)
    case ImageNinePrim(b, w) =>
      Imaged(if w then DrawImageNineWithAttr else DrawImageNine, n, BASE_IMAGE, b, w).(depthCost := 9)
    case AtlasPrim(b, w, o) => Imaged(DrawAtlas, n, BASE_IMAGE, b, w).(opacity := Never, overlaps := o)
    case TextPrim(b, frame) => Painted(if frame then DrawTextFrame else DrawTextBlob, n, TEXT, b, Never)
    case ShadowPrim(c, b) =>
      Op(DrawShadow, n, BASE_PAINT, IGNORES_PAINT, Some(b), Some(DefaultPaint(c)), Some(SRC_OVER), Never, false, 1)
  }

  // The attributes that the canvas call sets from its paint; none when it takes no paint.
  function CanvasFlags(p: Primitive): Flags {
    match p
    case ColorPrim(_, _) | ShadowPrim(_, _) => IGNORES_PAINT
    case LinePrim(_, _) => LINE
    case _ => Recorded(p, 0).flags
  }

  function AttrCalls(attrs: seq<Attr>): seq<Call> { seq(|attrs|, i requires 0 <= i < |attrs| => AttrCall(attrs[i])) }

  function SetCalls(paint: Paint, f: Flags): seq<Call> { AttrCalls(AttrsOf(paint, f)) }

  // ---------- setting attributes ----------

  function SetAll(q: Paint, attrs: seq<Attr>): Paint
    decreases |attrs|
  {
    if attrs == [] then q else SetAll(SetAttr(q, attrs[0]), attrs[1..])
  }

  lemma {:induction false} SetAllConcat(q: Paint, a: seq<Attr>, b: seq<Attr>)
    ensures SetAll(q, a + b) == SetAll(SetAll(q, a), b)
    decreases |a|
  {
    if a == [] {
      assert a + b == b;
    } else {
      SetAllConcat(SetAttr(q, a[0]), a[1..], b);
      assert (a + b)[1..] == a[1..] + b;
    }
  }

  // The paint that has the fields of p that the flags name, and those of q otherwise.
  function Overlay(q: Paint, p: Paint, f: Flags): Paint {
    Paint(if f.antiAlias then p.antiAlias else q.antiAlias,
          if f.colorFilter then p.invert else q.invert,
          if f.IsStroked(p.style) then p.cap else q.cap,
          if f.IsStroked(p.style) then p.join else q.join,
          if f.geometry.Drawn? then p.style else q.style,
          if f.IsStroked(p.style) then p.width else q.width,
          if f.IsStroked(p.style) then p.miter else q.miter,
          if f.alpha || f.color then p.color else q.color,
          if f.blend then p.blend else q.blend,
          if f.shader then p.source else q.source,
          if f.imageFilter then p.imageFilter else q.imageFilter,
          if f.colorFilter then p.colorFilter else q.colorFilter,
          if f.maskFilter then p.maskFilter else q.maskFilter)
  }

  lemma SetOne(q: Paint, a: Attr)
    ensures SetAll(q, [a]) == SetAttr(q, a) && SetAll(q, []) == q
  {
    assert [a][1..] == [];
  }

  lemma SetMore(q: Paint, a: Attr, rest: seq<Attr>)
    ensures SetAll(q, [a] + rest) == SetAll(SetAttr(q, a), rest)
  {
    SetAllConcat(q, [a], rest);
    SetOne(q, a);
  }

  lemma SetStroke(q: Paint, p: Paint)
    ensures SetAll(q, StrokeAttrs(p)) == q.(width := p.width, miter := p.miter, cap := p.cap, join := p.join)
  {
    var q1 := q.(width := p.width);
    var q2 := q1.(miter := p.miter);
    var q3 := q2.(cap := p.cap);
    var three := [MiterAttr(p.miter), CapAttr(p.cap), JoinAttr(p.join)];
    SetMore(q, WidthAttr(p.width), three);
    SetMore(q1, MiterAttr(p.miter), [CapAttr(p.cap), JoinAttr(p.join)]);
    SetMore(q2, CapAttr(p.cap), [JoinAttr(p.join)]);
    SetOne(q3, JoinAttr(p.join));
    assert StrokeAttrs(p) == [WidthAttr(p.width)] + three;
    assert three == [MiterAttr(p.miter)] + [CapAttr(p.cap), JoinAttr(p.join)];
    assert [CapAttr(p.cap), JoinAttr(p.join)] == [CapAttr(p.cap)] + [JoinAttr(p.join)];
  }

  // An attribute that may be set after others.
  lemma SetMaybe(q: Paint, before: seq<Attr>, set_: bool, a: Attr)
    ensures SetAll(q, before + (if set_ then [a] else [])) ==
            if set_ then SetAttr(SetAll(q, before), a) else SetAll(q, before)
  {
    if set_ {
      SetAllConcat(q, before, [a]);
      SetOne(SetAll(q, before), a);
    } else {
      assert before + [] == before;
    }
  }

  lemma SetFront(q: Paint, p: Paint, f: Flags)
    ensures SetAll(q, FrontAttrs(p, f)) ==
            q.(antiAlias := if f.antiAlias then p.antiAlias else q.antiAlias,
               color := if f.alpha || f.color then p.color else q.color,
               blend := if f.blend then p.blend else q.blend,
               style := if f.geometry.Drawn? then p.style else q.style)
  {
    hide SetAll;
    var a0: seq<Attr> := [];
    var a1 := a0 + if f.antiAlias then [AntiAliasAttr(p.antiAlias)] else [];
    var a2 := a1 + if f.alpha || f.color then [ColorAttr(p.color)] else [];
    var a3 := a2 + if f.blend then [BlendAttr(p.blend)] else [];
    SetOne(q, AntiAliasAttr(p.antiAlias));
    SetMaybe(q, a0, f.antiAlias, AntiAliasAttr(p.antiAlias));
    SetMaybe(q, a1, f.alpha || f.color, ColorAttr(p.color));
    SetMaybe(q, a2, f.blend, BlendAttr(p.blend));
    SetMaybe(q, a3, f.geometry.Drawn?, StyleAttr(p.style));
    assert a0 + (if f.antiAlias then [AntiAliasAttr(p.antiAlias)] else []) ==
           if f.antiAlias then [AntiAliasAttr(p.antiAlias)] else [];
  }

  lemma SetFilters(q: Paint, before: seq<Attr>, p: Paint, f: Flags)
    ensures var r := SetAll(q, before);
            SetAll(q, before + (if f.imageFilter then [ImageFilterAttr(p.imageFilter)] else [])
                             + (if f.maskFilter then [MaskFilterAttr(p.maskFilter)] else [])) ==
            r.(imageFilter := if f.imageFilter then p.imageFilter else r.imageFilter,
               maskFilter := if f.maskFilter then p.maskFilter else r.maskFilter)
  {
    hide SetAll;
    SetMaybe(q, before, f.imageFilter, ImageFilterAttr(p.imageFilter));
    SetMaybe(q, before + (if f.imageFilter then [ImageFilterAttr(p.imageFilter)] else []), f.maskFilter,
             MaskFilterAttr(p.maskFilter));
  }

  lemma SetSources(q: Paint, p: Paint, f: Flags)
    ensures SetAll(q, (if f.shader then [SourceAttr(p.source)] else []) +
                      (if f.colorFilter then [InvertAttr(p.invert), ColorFilterAttr(p.colorFilter)] else [])) ==
            q.(source := if f.shader then p.source else q.source,
               invert := if f.colorFilter then p.invert else q.invert,
               colorFilter := if f.colorFilter then p.colorFilter else q.colorFilter)
  {
    hide SetAll;
    var a1 := if f.shader then [SourceAttr(p.source)] else [];
    var a2 := a1 + if f.colorFilter then [InvertAttr(p.invert)] else [];
    SetOne(q, SourceAttr(p.source));
    SetMaybe(q, a1, f.colorFilter, InvertAttr(p.invert));
    SetMaybe(q, a2, f.colorFilter, ColorFilterAttr(p.colorFilter));
    assert a1 + (if f.colorFilter then [InvertAttr(p.invert), ColorFilterAttr(p.colorFilter)] else [])
        == a2 + if f.colorFilter then [ColorFilterAttr(p.colorFilter)] else [];
  }

  lemma SetBack(q: Paint, p: Paint, f: Flags)
    ensures SetAll(q, BackAttrs(p, f)) ==
            q.(source := if f.shader then p.source else q.source,
               invert := if f.colorFilter then p.invert else q.invert,
               colorFilter := if f.colorFilter then p.colorFilter else q.colorFilter,
               imageFilter := if f.imageFilter then p.imageFilter else q.imageFilter,
               maskFilter := if f.maskFilter then p.maskFilter else q.maskFilter)
  {
    hide SetAll;
    SetSources(q, p, f);
    SetFilters(q, (if f.shader then [SourceAttr(p.source)] else []) +
                  (if f.colorFilter then [InvertAttr(p.invert), ColorFilterAttr(p.colorFilter)] else []), p, f);
  }

  // Setting the attributes of a paint overlays exactly the fields that the operation honours.
  lemma SettingOverlays(q: Paint, p: Paint, f: Flags)
    ensures SetAll(q, AttrsOf(p, f)) == Overlay(q, p, f)
  {
    hide SetAll, FrontAttrs, BackAttrs;
    var stroke := if f.IsStroked(p.style) then StrokeAttrs(p) else [];
    SetAllConcat(q, FrontAttrs(p, f), stroke + BackAttrs(p, f));
    SetFront(q, p, f);
    var q1 := SetAll(q, FrontAttrs(p, f));
    SetAllConcat(q1, stroke, BackAttrs(p, f));
    SetStroke(q1, p);
    SetOne(q1, AntiAliasAttr(false));
    SetBack(SetAll(q1, stroke), p, f);
  }

  // ---------- what a draw sees of its paint ----------

  lemma OverlayAgrees(q: Paint, p: Paint, f: Flags)
    ensures Agree(f, Overlay(q, p, f), p)
  {
  }

  // The fields that an operation honours are all that its analysis and its bounds depend on.
  lemma AgreementDecides(e: Engine, nop: bool, f: Flags, p: Paint, q: Paint, r: Rect)
    requires Agree(f, p, q) && (f.color ==> f.shader)
    ensures PaintResult(nop, p, f) == PaintResult(nop, q, f)
    ensures AdjustBounds(e, p, f, r) == AdjustBounds(e, q, f, r)
  {
  }

  lemma AttrKeepsState(e: Engine, st: Recorder, a: Attr)
    requires st.Sized()
    ensures var s := Step(e, st, AttrCall(a));
            s.paint == SetAttr(st.paint, a) && s.stack == st.stack && s.layers == st.layers && s.rtree == st.rtree
  {
  }

  lemma {:induction false} AttrsKeepState(e: Engine, st: Recorder, attrs: seq<Attr>)
    requires st.Sized()
    ensures var s := Run(e, st, AttrCalls(attrs));
            && s.paint == SetAll(st.paint, attrs)
            && s.stack == st.stack && s.layers == st.layers && s.rtree == st.rtree
  {
    hide Step;
    var calls := AttrCalls(attrs);
    if attrs != [] {
      var n := |attrs| - 1;
      AttrsKeepState(e, st, attrs[..n]);
      assert calls[..n] == AttrCalls(attrs[..n]);
      AttrKeepsState(e, Run(e, st, calls[..n]), attrs[n]);
      SetAllConcat(st.paint, attrs[..n], [attrs[n]]);
      SetOne(SetAll(st.paint, attrs[..n]), attrs[n]);
      assert attrs == attrs[..n] + [attrs[n]];
    }
  }

  // A canvas call draws with its own paint, whatever was drawn before it: the recorder's analysis,
  // the area and the blend mode of the draw are those of the call's paint, and nothing else of the
  // state is touched by setting it up.
  lemma CanvasDrawsWithItsPaint(e: Engine, st: Recorder, prim: Primitive, paint: Paint, n: int)
    requires st.Sized()
    ensures var s := Run(e, st, SetCalls(paint, CanvasFlags(prim))); var d := Recorded(prim, n);
            && s.stack == st.stack && s.layers == st.layers && s.rtree == st.rtree && |st.stack| > 0
            && PaintResult(s.Top().nop, EffectPaint(s.paint, d), d.flags) ==
               PaintResult(st.Top().nop, EffectPaint(paint, d), d.flags)
            && Area(e, s.paint, d) == Area(e, paint, d)
            && ModeOf(s.paint, d) == ModeOf(paint, d)
  {
    hide PaintResult, AdjustBounds, Run, AttrCalls, AttrsOf, Overlay, Agree, Recorded, CanvasFlags, SetAll, LayerCount;
    var f, d := CanvasFlags(prim), Recorded(prim, n);
    AttrsKeepState(e, st, AttrsOf(paint, f));
    SettingOverlays(st.paint, paint, f);
    OverlayAgrees(st.paint, paint, f);
    var p := Overlay(st.paint, paint, f);
    var r := if d.bounds.Some? then d.bounds.value else EMPTY;
    RecordedFlags(prim, n, p, paint);
    if d.ownPaint.None? { AgreementDecides(e, st.Top().nop, d.flags, p, paint, r); }
    AgreementDecides(e, st.Top().nop, d.boundsFlags, p, paint, r);
  }

  // The canvas sets all that the operation honours.
  lemma RecordedFlags(prim: Primitive, n: int, p: Paint, q: Paint)
    requires Agree(CanvasFlags(prim), p, q)
    ensures var d := Recorded(prim, n);
            && (d.ownPaint.None? ==> Agree(d.flags, p, q) && (d.flags.color ==> d.flags.shader))
            && Agree(d.boundsFlags, p, q) && (d.boundsFlags.color ==> d.boundsFlags.shader)
            && (d.mode.None? ==> d.flags.blend && p.blend == q.blend)
  {
    hide Recorded, CanvasFlags;
    FlagsKinds(prim, n);
  }

  lemma FlagsKinds(prim: Primitive, n: int)
    ensures var d := Recorded(prim, n);
            && (d.ownPaint.None? ==> d.flags == CanvasFlags(prim) || (CanvasFlags(prim) == LINE && d.flags == HV_LINE))
            && (d.boundsFlags == d.flags || d.boundsFlags == IGNORES_PAINT)
            && (d.boundsFlags != IGNORES_PAINT ==> d.ownPaint.None?)
            && (d.ownPaint.None? && d.flags.color ==> d.flags.shader)
            && (d.mode.None? ==> d.ownPaint.None? && d.flags.blend)
  {
  }

  // The one thing that does depend on what came before: an image draw does not set the colour
  // source, so a runtime effect left there by an earlier draw keeps the layer from distributing opacity.
  lemma StaleSourcesBlockOpacity(q: Paint, p: Paint)
    ensures SetAll(q, AttrsOf(p, IMAGE_WITH_PAINT)).OpacityCompatible() <==> p.(source := q.source).OpacityCompatible()
  {
    SettingOverlays(q, p, IMAGE_WITH_PAINT);
  }

  // ---------- the area of a draw ----------

  // How far a stroke reaches beyond the shape, and how far the area of the shape does.
  function StrokePad(p: Paint, f: Flags, half: real): real {
    var miter := if p.join == MiterJoin && f.acuteJoins then Max(1.0, p.miter) else 1.0;
    (if p.cap == SquareCap && f.diagonalCaps then Max(miter, 1.41421356) else miter) * half
  }

  function Reach(p: Paint, f: Flags): real {
    (if f.IsStroked(p.style) then StrokePad(p, f, Max(p.width * 0.5, 0.01)) else 0.0)
    + if f.maskFilter && p.maskFilter.Some? then p.maskFilter.value.sigma * 3.0 else 0.0
  }

  lemma AreaIsExpanded(e: Engine, p: Paint, f: Flags, r: Rect)
    requires !f.IgnoresPaint() && !(f.imageFilter && p.imageFilter.Some?)
    ensures AdjustBounds(e, p, f, r) == Some(Expand(r, Reach(p, f)))
  {
    var stroke := if f.IsStroked(p.style) then StrokePad(p, f, Max(p.width * 0.5, 0.01)) else 0.0;
    var blur := if f.maskFilter && p.maskFilter.Some? then p.maskFilter.value.sigma * 3.0 else 0.0;
    ExpandTwice(r, stroke, blur);
    ExpandNothing(r);
    ExpandNothing(Expand(r, stroke));
  }

  lemma ExpandTwice(r: Rect, a: real, b: real)
    ensures Expand(Expand(r, a), b) == Expand(r, a + b)
  {
  }

  lemma ExpandNothing(r: Rect)
    ensures Expand(r, 0.0) == r
  {
  }

  // The pad of a stroke is the largest of half its width, what a miter may reach and what a square cap may.
  lemma AreaIsExact(e: Engine, p: Paint, f: Flags, r: Rect) returns (pad: real)
    requires !f.IgnoresPaint() && !(f.imageFilter && p.imageFilter.Some?)
    ensures var half := Max(p.width * 0.5, 0.01);
            var miters, caps := p.join == MiterJoin && f.acuteJoins, p.cap == SquareCap && f.diagonalCaps;
            if f.IsStroked(p.style) then
              && pad >= half && (miters ==> pad >= p.miter * half) && (caps ==> pad >= 1.41421356 * half)
              && (pad == half || (miters && pad == p.miter * half) || (caps && pad == 1.41421356 * half))
            else pad == 0.0
    ensures AdjustBounds(e, p, f, r) ==
            Some(Expand(r, if f.maskFilter && p.maskFilter.Some? then pad + p.maskFilter.value.sigma * 3.0 else pad))
  {
    hide Expand, AdjustBounds;
    AreaIsExpanded(e, p, f, r);
    var half := Max(p.width * 0.5, 0.01);
    pad := if f.IsStroked(p.style) then StrokePad(p, f, half) else 0.0;
    LargestPad(p, f, half);
  }

  lemma LargestPad(p: Paint, f: Flags, half: real)
    requires half >= 0.0
    ensures var pad := StrokePad(p, f, half);
            var miters, caps := p.join == MiterJoin && f.acuteJoins, p.cap == SquareCap && f.diagonalCaps;
            && pad >= half && (miters ==> pad >= p.miter * half) && (caps ==> pad >= 1.41421356 * half)
            && (pad == half || (miters && pad == p.miter * half) || (caps && pad == 1.41421356 * half))
  {
    var miter := if p.join == MiterJoin && f.acuteJoins then p.miter else 1.0;
    var cap := if p.cap == SquareCap && f.diagonalCaps then 1.41421356 else 1.0;
    var most := Max(Max(1.0, miter), cap);
    assert StrokePad(p, f, half) == most * half;
    ScaledLargest(miter, cap, half);
  }

  lemma ScaledLargest(a: real, b: real, v: real)
    requires v >= 0.0
    ensures Max(Max(1.0, a), b) * v == Max(Max(v, a * v), b * v)
  {
    ScaledOrder(1.0, a, v);
    ScaledOrder(Max(1.0, a), b, v);
  }

  lemma ScaledOrder(s: real, t: real, v: real)
    requires v >= 0.0
    ensures Max(s, t) * v == Max(s * v, t * v)
  {
    var d := t - s;
    assert t * v == s * v + d * v;
    if d >= 0.0 { assert d * v >= 0.0; } else { assert d * v <= 0.0; }
  }

  // An image filter maps the area that the shape has without it; an operation that ignores its paint
  // keeps its bounds.
  lemma AreaIsFiltered(e: Engine, p: Paint, f: Flags, r: Rect)
    ensures f.IgnoresPaint() ==> AdjustBounds(e, p, f, r) == Some(r)
    ensures f.imageFilter && p.imageFilter.Some? ==>
              var plain := AdjustBounds(e, p.(imageFilter := None), f, r);
              plain.Some? && AdjustBounds(e, p, f, r) == e.mapLocal(p.imageFilter.value, plain.value)
  {
  }

  lemma ExpandMonotone(r: Rect, a: real, b: real)
    requires a <= b
    ensures Contains(Expand(r, b), Expand(r, a))
  {
  }

  // Without a filter the area of a shape reaches at least half a stroke beyond it on every side, as
  // far as a miter or a square cap may, and three sigmas of a blur more.
  lemma AreaCoversStroke(e: Engine, p: Paint, f: Flags, r: Rect)
    requires !f.IgnoresPaint() && !(f.imageFilter && p.imageFilter.Some?)
    requires f.IsStroked(p.style) && p.width >= 0.0
    ensures var a := AdjustBounds(e, p, f, r);
            var blur := if f.maskFilter && p.maskFilter.Some? then p.maskFilter.value.sigma * 3.0 else 0.0;
            && a.Some? && Contains(a.value, Expand(r, p.width * 0.5 + blur))
            && (p.join == MiterJoin && f.acuteJoins && p.miter >= 1.0 ==>
                  Contains(a.value, Expand(r, p.miter * (p.width * 0.5) + blur)))
            && (p.cap == SquareCap && f.diagonalCaps ==>
                Contains(a.value, Expand(r, 1.41421356 * (p.width * 0.5) + blur)))
  {
    hide AdjustBounds, Expand, Contains, StrokePad;
    AreaIsExpanded(e, p, f, r);
    var blur := if f.maskFilter && p.maskFilter.Some? then p.maskFilter.value.sigma * 3.0 else 0.0;
    StrokeReaches(p, f, p.width * 0.5, Max(p.width * 0.5, 0.01));
    ExpandMonotone(r, p.width * 0.5 + blur, Reach(p, f));
    if p.join == MiterJoin && f.acuteJoins && p.miter >= 1.0 {
      ExpandMonotone(r, p.miter * (p.width * 0.5) + blur, Reach(p, f));
    }
    if p.cap == SquareCap && f.diagonalCaps {
      ExpandMonotone(r, 1.41421356 * (p.width * 0.5) + blur, Reach(p, f));
    }
  }

  lemma StrokeReaches(p: Paint, f: Flags, v: real, w: real)
    requires 0.0 <= v <= w
    ensures StrokePad(p, f, w) >= v
    ensures p.join == MiterJoin && f.acuteJoins && p.miter >= 1.0 ==> StrokePad(p, f, w) >= p.miter * v
    ensures p.cap == SquareCap && f.diagonalCaps ==> StrokePad(p, f, w) >= 1.41421356 * v
  {
    hide StrokePad;
    LargestPad(p, f, w);
    if p.miter >= 1.0 { ScaledPad(p.miter, v, w); }
    ScaledPad(1.41421356, v, w);
  }

  lemma ScaledPad(s: real, v: real, w: real)
    requires s >= 0.0 && v <= w
    ensures s * v <= s * w
  {
    assert s * (w - v) >= 0.0;
  }

  // ---------- what the primitives take of a paint ----------

  // Images, and layers, take the paint's alpha but neither its colour nor its source; nothing that takes a
  // paint is drawn source-over with one that is transparent.
  predicate IsImage(prim: Primitive) {
    prim.ImagePrim? || prim.ImageRectPrim? || prim.ImageNinePrim? || prim.AtlasPrim?
  }

  predicate TakesPaint(prim: Primitive) {
    match prim
    case ColorPrim(_, _) | ShadowPrim(_, _) => false
    case ImagePrim(_, withPaint) => withPaint
    case ImageRectPrim(_, withPaint) => withPaint
    case ImageNinePrim(_, withPaint) => withPaint
    case AtlasPrim(_, withPaint, _) => withPaint
    case _ => true
  }

  lemma ImagesIgnoreColors(p: Paint, q: Paint, prim: Primitive, n: int)
    requires IsImage(prim) && p.color.a == q.color.a && p == q.(color := p.color, source := p.source)
    ensures PaintResult(false, p, Recorded(prim, n).flags) == PaintResult(false, q, Recorded(prim, n).flags)
    ensures PaintResult(false, p, LayerFlags(true)) == PaintResult(false, q, LayerFlags(true))
  {
    assert p.color.AlphaByte() == q.color.AlphaByte();
  }

  lemma TransparentPaintsDrawNothing(p: Paint, prim: Primitive, n: int)
    requires TakesPaint(prim) && p.color.a == 0.0 && p.blend == SRC_OVER
    requires p.source.None? && p.imageFilter.None? && p.colorFilter.None?
    ensures PaintResult(false, p, Recorded(prim, n).flags) == NoEffect
    ensures PaintResult(false, p, LayerFlags(true)) == NoEffect
  {
  }

  // A canvas call sets the colour source unless it draws an image, or takes no paint.
  lemma SourcesAreSet(q: Paint, p: Paint, prim: Primitive)
    ensures SetAll(q, AttrsOf(p, CanvasFlags(prim))).source ==
            if TakesPaint(prim) && !IsImage(prim) then p.source else q.source
  {
    hide SetAll, AttrsOf;
    SettingOverlays(q, p, CanvasFlags(prim));
  }

  // Which primitives are stroked, and what their strokes may do.

  predicate Strokes(prim: Primitive, style: Style) {
    match prim
    case LinePrim(_, _) | PointsPrim(_) | LinesPrim(_) | PolygonPrim(_) => true
    case PaintPrim | ColorPrim(_, _) | VerticesPrim(_) | ShadowPrim(_, _) => false
    case _ => !IsImage(prim) && style != Fill
  }

  predicate HasDiagonalCaps(prim: Primitive) {
    match prim
    case LinePrim(b, _) => !b.IsEmpty()
    case LinesPrim(_) | PolygonPrim(_) | PathPrim(_) | ArcPrim(_, false) => true
    case _ => false
  }

  predicate HasAcuteJoins(prim: Primitive) { prim.PathPrim? || (prim.ArcPrim? && prim.useCenter) }

  predicate Blurs(prim: Primitive) {
    match prim
    case VerticesPrim(_) | ImageNinePrim(_, _) | AtlasPrim(_, _, _) => false
    case _ => TakesPaint(prim)
  }

  // The area of a primitive without an image filter: none if it floods the clip, and else its bounds, expanded
  // by its stroke and its blur.
  lemma PrimitiveAreas(e: Engine, p: Paint, prim: Primitive, n: int) returns (pad: real)
    requires p.imageFilter.None?
    ensures Area(e, p, Recorded(prim, n)).None? <==> prim.PaintPrim? || prim.ColorPrim?
    ensures var half := Max(p.width * 0.5, 0.01);
            var miters := p.join == MiterJoin && HasAcuteJoins(prim);
            var caps := p.cap == SquareCap && HasDiagonalCaps(prim);
            if Strokes(prim, p.style) then
              && pad >= half && (miters ==> pad >= p.miter * half) && (caps ==> pad >= 1.41421356 * half)
              && (pad == half || (miters && pad == p.miter * half) || (caps && pad == 1.41421356 * half))
            else pad == 0.0
    ensures !prim.PaintPrim? && !prim.ColorPrim? ==>
              Area(e, p, Recorded(prim, n)) ==
              Some(Expand(prim.bounds, if Blurs(prim) && p.maskFilter.Some? then pad + p.maskFilter.value.sigma * 3.0
                                       else pad))
  {
    hide AdjustBounds, Expand;
    pad := 0.0;
    if !prim.PaintPrim? && !prim.ColorPrim? {
      var d := Recorded(prim, n);
      if d.boundsFlags.IgnoresPaint() {
        AreaIsFiltered(e, p, d.boundsFlags, prim.bounds);
        ExpandNothing(prim.bounds);
      } else {
        pad := AreaIsExact(e, p, d.boundsFlags, prim.bounds);
      }
    }
  }

  // Points, lines and vertices may draw over themselves, and an image with nine patches is as deep as nine.
  lemma PrimitivesNote(prim: Primitive, n: int)
    ensures Recorded(prim, n).overlaps <==>
              prim.PointsPrim? || prim.LinesPrim? || prim.PolygonPrim? || prim.VerticesPrim?
              || (prim.AtlasPrim? && prim.overlaps)
    ensures Recorded(prim, n).depthCost == if prim.ImageNinePrim? then 9 else 1
  {
  }
}
