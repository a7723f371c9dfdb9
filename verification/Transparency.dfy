/** Exactly which lists keep a transparent pixel transparent: a fold over the records that the compositor
    is proved to agree with, and what the flag of a built list is worth. */
module Transparency {
  import opened Geometry
  import opened Painting
  import opened Blending
  import opened DisplayLists
  import opened Recorder
  import opened Emission
  import opened LayerSummaries
  import opened Compositing
  import Canvas

  // ---------- what may leave a stain ----------

  // Whether a layer's pixel may be other than clear, and how the layer will be composited.
  datatype Stain = Stain(may: bool, withPaint: bool, paint: Paint)

  // The paint in force, the open layers, and which open brackets are layers.
  datatype Trace = Trace(paint: Paint, layers: seq<Stain>, open: seq<bool>)

  // The draw can change a transparent pixel.
  ghost predicate DrawStains(o: Optics, p: Paint, f: Flags) {
    exists s :: SourceAllowed(o, p, f, s) && Blend(o, BlendModeOf(p, f), s, CLEAR_PIXEL) != CLEAR_PIXEL
  }

  // So can the nested list.
  ghost predicate ListStains(o: Optics, l: DisplayList, opacity: real) { opacity != 0.0 && !KeepsPixelClear(o, l) }

  // So can a layer with this pixel, when it is composited.
  ghost predicate PixelStains(o: Optics, p: Paint, withPaint: bool, pixel: Pixel, source: Pixel) {
    && LayerSource(o, p, withPaint, pixel, source)
    && Blend(o, BlendModeOf(p, LayerFlags(withPaint)), source, CLEAR_PIXEL) != CLEAR_PIXEL
  }

  ghost predicate LayerStains(o: Optics, s: Stain) {
    exists pixel, source :: (s.may || pixel == CLEAR_PIXEL) && PixelStains(o, s.paint, s.withPaint, pixel, source)
  }

  function Stained(t: Trace, more: bool): Trace
    requires t.layers != []
  {
    var n := |t.layers| - 1;
    t.(layers := t.layers[n := t.layers[n].(may := t.layers[n].may || more)])
  }

  ghost function TraceStep(o: Optics, t: Trace, r: Record): (t': Trace)
    requires t.layers != []
    ensures t'.layers != []
  {
    match r
    case SetAttrRec(a) => t.(paint := SetAttr(t.paint, a))
    case SaveRec(_, _) => t.(open := t.open + [false])
    case LayerRec(options, _, _, backdrop, _, _) =>
      t.(open := t.open + [true], layers := t.layers + [Stain(backdrop.Some?, options.withPaint, t.paint)])
    case RestoreRec =>
      if t.open == [] then t
      else
        var popped := t.(open := t.open[..|t.open| - 1]);
        if !ClosesInner(t) then popped
        else Stained(popped.(layers := t.layers[..|t.layers| - 1]), LayerStains(o, t.layers[|t.layers| - 1]))
    case DrawRec(d) => Stained(t, DrawStains(o, EffectPaint(t.paint, d), d.flags))
    case ListRec(l, opacity) => Stained(t, ListStains(o, l, opacity))
    case _ => t
  }

  // A restore closes the top layer.
  predicate ClosesInner(t: Trace) { t.open != [] && t.open[|t.open| - 1] && |t.layers| >= 2 }

  ghost function TraceAt(o: Optics, l: DisplayList, n: nat): (t: Trace)
    requires n <= |l.records|
    ensures t.layers != []
  {
    if n == 0 then Trace(DefaultPaint(BLACK), [Stain(false, false, DefaultPaint(BLACK))], [])
    else TraceStep(o, TraceAt(o, l, n - 1), l.records[n - 1])
  }

  // ---------- what cannot stain does not ----------

  // The canvas has the shape of the trace, and a layer that may not be stained is clear.
  ghost predicate Traces(c: Composition, t: Trace) {
    && c.paint == t.paint && c.open == t.open && |c.sheets| == |t.layers| > 0
    && forall k :: 0 <= k < |t.layers| ==> Bounds(c.sheets[k], t.layers[k])
  }

  ghost predicate Bounds(s: Sheet, m: Stain) {
    s.withPaint == m.withPaint && s.paint == m.paint && (!m.may ==> s.pixel == CLEAR_PIXEL)
  }

  lemma CoverClear(coverage: real)
    ensures Cover(coverage, CLEAR_PIXEL, CLEAR_PIXEL) == CLEAR_PIXEL
  {
  }

  lemma CoverEnds(d: Pixel, b: Pixel)
    ensures Cover(0.0, d, b) == d && Cover(1.0, CLEAR_PIXEL, b) == b
  {
  }

  lemma CleanDraw(o: Optics, p: Paint, f: Flags, ch: Choice)
    requires !DrawStains(o, p, f)
    ensures DrawPixel(o, p, f, ch, CLEAR_PIXEL) == CLEAR_PIXEL
  {
    hide Blend, SourceAllowed;
    CoverClear(ch.coverage);
  }

  lemma CleanList(o: Optics, l: DisplayList, opacity: real, ch: Choice, inner: Oracle)
    requires !ListStains(o, l, opacity)
    ensures ListPixel(o, l, opacity, ch, inner, CLEAR_PIXEL) == CLEAR_PIXEL
  {
    hide Final;
    var last := Final(o, l, inner, CLEAR_PIXEL);
    assert opacity == 0.0 || last == CLEAR_PIXEL;
    CoverClear(ch.coverage);
    assert Scale(last, opacity) == CLEAR_PIXEL || opacity >= 1.0;
    assert Blend(o, SRC_OVER, CLEAR_PIXEL, CLEAR_PIXEL) == CLEAR_PIXEL;
  }

  lemma CleanLayer(o: Optics, s: Sheet, m: Stain, ch: Choice)
    requires Bounds(s, m) && !LayerStains(o, m)
    ensures CompositePixel(o, s, ch, CLEAR_PIXEL) == CLEAR_PIXEL
  {
    hide Blend, LayerSource;
    CoverClear(ch.coverage);
    assert !PixelStains(o, m.paint, m.withPaint, s.pixel, ch.source);
  }

  lemma StepTraces(o: Optics, c: Composition, t: Trace, r: Record, ch: Choice, inner: Oracle)
    requires Traces(c, t)
    ensures Traces(CanvasStep(o, c, r, ch, inner), TraceStep(o, t, r))
  {
    hide DrawPixel, ListPixel, CompositePixel, LayerStains, DrawStains, ListStains, SetAttr;
    var n := |t.layers| - 1;
    match r {
      case DrawRec(d) =>
        if !TraceStep(o, t, r).layers[n].may { CleanDraw(o, EffectPaint(t.paint, d), d.flags, ch); }
      case ListRec(l, opacity) =>
        if !TraceStep(o, t, r).layers[n].may { CleanList(o, l, opacity, ch, inner); }
      case RestoreRec =>
        if ClosesInner(t) && !LayerStains(o, t.layers[n]) { CleanLayer(o, c.sheets[n], t.layers[n], ch); }
      case _ =>
    }
  }

  lemma {:induction false} CanvasTraces(o: Optics, l: DisplayList, n: nat, oracle: Oracle)
    requires n <= |l.records|
    ensures Traces(CanvasAt(o, l, n, oracle, CLEAR_PIXEL), TraceAt(o, l, n))
  {
    hide CanvasStep, TraceStep, Under;
    if n > 0 {
      CanvasTraces(o, l, n - 1, oracle);
      StepTraces(o, CanvasAt(o, l, n - 1, oracle, CLEAR_PIXEL), TraceAt(o, l, n - 1), l.records[n - 1],
                 oracle([n - 1]), Under(oracle, n - 1));
    }
  }

  // ---------- what can stain does, for some oracle ----------

  // This layer is stained, and all below it are clear.
  ghost predicate Shows(c: Composition, k: nat) {
    && k < |c.sheets| && c.sheets[k].pixel != CLEAR_PIXEL
    && forall j :: 0 <= j < k ==> c.sheets[j].pixel == CLEAR_PIXEL
  }

  ghost predicate AllClear(c: Composition) { forall j :: 0 <= j < |c.sheets| ==> c.sheets[j].pixel == CLEAR_PIXEL }

  // The operation covers nothing.
  const HUSH: Choice := Choice(CLEAR_PIXEL, 0.0)

  ghost function Override(a: Oracle, i: nat, ch: Choice): Oracle {
    (path: seq<nat>) => if path == [i] then ch else a(path)
  }

  // One operation is heard, with what is inside it if it is a list.
  ghost function Only(i: nat, ch: Choice, inner: Oracle): Oracle {
    (path: seq<nat>) => if path == [] || path[0] != i then HUSH else if path == [i] then ch else inner(path[1..])
  }

  lemma OverrideBefore(o: Optics, l: DisplayList, i: nat, a: Oracle, ch: Choice)
    requires i <= |l.records|
    ensures CanvasAt(o, l, i, Override(a, i, ch), CLEAR_PIXEL) == CanvasAt(o, l, i, a, CLEAR_PIXEL)
    ensures Override(a, i, ch)([i]) == ch
  {
    hide CanvasAt;
    assert forall path: seq<nat> :: path != [] && path[0] < i ==> path != [i];
    CanvasSame(o, l, i, Override(a, i, ch), a, CLEAR_PIXEL);
  }

  lemma OnlyInside(i: nat, ch: Choice, inner: Oracle)
    ensures SameInside(Under(Only(i, ch, inner), i), inner) && Only(i, ch, inner)([i]) == ch
    ensures forall k: nat :: k < i ==> Only(i, ch, inner)([k]) == HUSH
  {
    forall path: seq<nat> | path != [] ensures Under(Only(i, ch, inner), i)(path) == inner(path) {
      var whole := [i] + path;
      assert whole[0] == i && whole[1..] == path && |whole| > 1;
    }
  }

  lemma {:induction false} QuietIsClear(o: Optics, l: DisplayList, n: nat, oracle: Oracle)
    requires n <= |l.records| && forall k: nat :: k < n ==> oracle([k]) == HUSH
    ensures AllClear(CanvasAt(o, l, n, oracle, CLEAR_PIXEL))
  {
    hide CanvasStep, Under;
    if n > 0 {
      QuietIsClear(o, l, n - 1, oracle);
      QuietStep(o, CanvasAt(o, l, n - 1, oracle, CLEAR_PIXEL), l.records[n - 1], Under(oracle, n - 1));
    }
  }

  lemma QuietStep(o: Optics, c: Composition, r: Record, inner: Oracle)
    requires AllClear(c)
    ensures AllClear(CanvasStep(o, c, r, HUSH, inner))
  {
    hide Blend, SourceAllowed, LayerSource, Final, Cover;
    forall d, b ensures Cover(0.0, d, b) == d { CoverEnds(d, b); }
  }

  // What is stained stays so while the operations on top are quiet.
  lemma OldShows(o: Optics, c: Composition, t: Trace, r: Record, inner: Oracle, k: nat)
    requires Traces(c, t) && Shows(c, k) && k < |TraceStep(o, t, r).layers|
    ensures Shows(CanvasStep(o, c, r, HUSH, inner), k)
  {
    hide Blend, SourceAllowed, LayerSource, Final, Cover, LayerStains, DrawStains, ListStains;
    forall d, b ensures Cover(0.0, d, b) == d { CoverEnds(d, b); }
  }

  lemma LayerShows(o: Optics, c: Composition, t: Trace, r: Record, source: Pixel, inner: Oracle)
    requires Traces(c, t) && r.RestoreRec? && ClosesInner(t)
    requires var n := |t.layers| - 1;
             && PixelStains(o, t.layers[n].paint, t.layers[n].withPaint, c.sheets[n].pixel, source)
             && forall j :: 0 <= j < n ==> c.sheets[j].pixel == CLEAR_PIXEL
    ensures Shows(CanvasStep(o, c, r, Choice(source, 1.0), inner), |t.layers| - 2)
  {
    hide Blend, LayerSource, Cover;
    forall b ensures Cover(1.0, CLEAR_PIXEL, b) == b { CoverEnds(b, b); }
  }

  lemma DrawShows(o: Optics, c: Composition, t: Trace, d: Op, source: Pixel, inner: Oracle)
    requires Traces(c, t) && AllClear(c) && SourceAllowed(o, EffectPaint(t.paint, d), d.flags, source)
    requires Blend(o, BlendModeOf(EffectPaint(t.paint, d), d.flags), source, CLEAR_PIXEL) != CLEAR_PIXEL
    ensures Shows(CanvasStep(o, c, DrawRec(d), Choice(source, 1.0), inner), |t.layers| - 1)
  {
    hide Blend, SourceAllowed, Cover;
    forall b ensures Cover(1.0, CLEAR_PIXEL, b) == b { CoverEnds(b, b); }
  }

  lemma ListShows(o: Optics, c: Composition, t: Trace, l: DisplayList, opacity: real, inner: Oracle)
    requires Traces(c, t) && AllClear(c) && opacity != 0.0 && Final(o, l, inner, CLEAR_PIXEL) != CLEAR_PIXEL
    ensures Shows(CanvasStep(o, c, ListRec(l, opacity), Choice(CLEAR_PIXEL, 1.0), inner), |t.layers| - 1)
  {
    hide Final, Blend, Cover;
    var last := Final(o, l, inner, CLEAR_PIXEL);
    forall b ensures Cover(1.0, CLEAR_PIXEL, b) == b { CoverEnds(b, b); }
    ScaledShows(o, last, opacity);
  }

  lemma ScaledShows(o: Optics, p: Pixel, k: real)
    requires k != 0.0 && p != CLEAR_PIXEL
    ensures Scale(p, k) != CLEAR_PIXEL && Blend(o, SRC_OVER, Scale(p, k), CLEAR_PIXEL) != CLEAR_PIXEL
  {
    ScaleKeeps(p.a, k);
    ScaleKeeps(p.r, k);
    ScaleKeeps(p.g, k);
    ScaleKeeps(p.b, k);
    PixelShows(o, SRC_OVER, Scale(p, k));
  }

  lemma ScaleKeeps(x: real, k: real)
    requires k != 0.0
    ensures x * k == 0.0 <==> x == 0.0
  {
  }

  // A mode that does not keep transparent pixels in any case shows every other source on them.
  lemma PixelShows(o: Optics, mode: BlendMode, s: Pixel)
    requires HasFormula(mode) && !KeepsClear(mode) && s != CLEAR_PIXEL
    ensures Blend(o, mode, s, CLEAR_PIXEL) != CLEAR_PIXEL
  {
    ChannelShows(AlphaMode(mode), s.a, s.a);
    ChannelShows(mode, s.r, s.a);
    ChannelShows(mode, s.g, s.a);
    ChannelShows(mode, s.b, s.a);
  }

  lemma ChannelShows(mode: BlendMode, s: real, sa: real)
    requires HasFormula(mode) && !KeepsClear(mode)
    ensures Channel(mode, s, sa, 0.0, 0.0) == 0.0 <==> s == 0.0
  {
  }

  // The mode with which a layer is composited has a formula.
  predicate LayerFormula(p: Paint, withPaint: bool) { withPaint ==> HasFormula(p.blend) }

  // If a layer's content matters at all, then any stain in it does.
  lemma AnyPixelStains(o: Optics, m: Stain, pixel: Pixel) returns (source: Pixel)
    requires LayerStains(o, m) && !LayerStains(o, m.(may := false)) && LayerFormula(m.paint, m.withPaint)
    requires pixel != CLEAR_PIXEL
    ensures PixelStains(o, m.paint, m.withPaint, pixel, source)
  {
    hide Blend, Shades;
    var p, f := m.paint, LayerFlags(m.withPaint);
    ContentMatters(o, m);
    source := Passed(o, p, f, pixel);
    PixelShows(o, BlendModeOf(p, f), source);
  }

  lemma ContentMatters(o: Optics, m: Stain)
    requires LayerStains(o, m) && !LayerStains(o, m.(may := false))
    ensures var f := LayerFlags(m.withPaint);
            !KeepsClear(BlendModeOf(m.paint, f)) && (f.alpha ==> m.paint.color.a != 0.0)
  {
    hide Blend, Shades;
    var p, f := m.paint, LayerFlags(m.withPaint);
    var pixel, s :| PixelStains(o, p, m.withPaint, pixel, s);
    if KeepsClear(BlendModeOf(p, f)) { PreservingModes(o, BlendModeOf(p, f), s); }
    if f.alpha && p.color.a == 0.0 { FadedStains(o, m, pixel, s); }
  }

  // Under a paint without alpha every pixel of the layer does the same.
  lemma FadedStains(o: Optics, m: Stain, pixel: Pixel, s: Pixel)
    requires PixelStains(o, m.paint, m.withPaint, pixel, s) && m.withPaint && m.paint.color.a == 0.0
    ensures LayerStains(o, m.(may := false))
  {
    hide Blend, Filtered;
    var p, f := m.paint, LayerFlags(m.withPaint);
    var i, c :| Shades(o, p, f, pixel, i, c, s);
    assert Unshaded(o, p, f, pixel) == CLEAR_PIXEL == Unshaded(o, p, f, CLEAR_PIXEL);
    assert Shades(o, p, f, CLEAR_PIXEL, i, c, s);
    assert PixelStains(o, p, m.withPaint, CLEAR_PIXEL, s);
  }

  // A pixel that is not clear can come through all filters.
  lemma Passed(o: Optics, p: Paint, f: Flags, pixel: Pixel) returns (s: Pixel)
    requires !f.color && (f.alpha ==> p.color.a != 0.0) && pixel != CLEAR_PIXEL
    ensures s != CLEAR_PIXEL && exists i, c :: Shades(o, p, f, pixel, i, c, s)
  {
    var base := Unshaded(o, p, f, pixel);
    assert base != CLEAR_PIXEL by { if f.alpha { ScaledShows(o, pixel, p.color.a); } }
    var i := if f.imageFilter && p.imageFilter.Some? then WHITE_PIXEL else base;
    var c := if f.colorFilter && p.colorFilter.Some? then WHITE_PIXEL else i;
    s := if f.colorFilter && p.invert then Invert(c) else c;
    assert Shades(o, p, f, pixel, i, c, s);
  }

  // All layers are composited with modes that have a formula.
  ghost predicate LayerFormulas(o: Optics, l: DisplayList) {
    forall i :: 0 <= i < |l.records| && l.records[i].LayerRec? ==>
      LayerFormula(TraceAt(o, l, i).paint, l.records[i].options.withPaint)
  }

  lemma {:induction false} OpenFormulas(o: Optics, l: DisplayList, n: nat)
    requires n <= |l.records| && LayerFormulas(o, l)
    ensures forall k :: 0 <= k < |TraceAt(o, l, n).layers| ==>
              LayerFormula(TraceAt(o, l, n).layers[k].paint, TraceAt(o, l, n).layers[k].withPaint)
  {
    hide LayerStains, DrawStains, ListStains, LayerFormulas, LayerFormula;
    if n == 0 {
      assert LayerFormula(DefaultPaint(BLACK), false) by { PlainFormula(); }
    } else {
      OpenFormulas(o, l, n - 1);
      if l.records[n - 1].LayerRec? { FormulaAt(o, l, n - 1); }
    }
  }

  lemma PlainFormula()
    ensures LayerFormula(DefaultPaint(BLACK), false)
  {
  }

  lemma FormulaAt(o: Optics, l: DisplayList, i: nat)
    requires LayerFormulas(o, l) && i < |l.records| && l.records[i].LayerRec?
    ensures LayerFormula(TraceAt(o, l, i).paint, l.records[i].options.withPaint)
  {
    hide TraceAt;
  }

  // The stain comes through a layer whose background alone would leave none.
  ghost predicate ContentPasses(o: Optics, t: Trace, r: Record) {
    && r.RestoreRec? && ClosesInner(t)
    && var m := t.layers[|t.layers| - 1]; LayerStains(o, m) && !LayerStains(o, m.(may := false))
  }

  // For each layer that may be stained there are colours and coverages that stain it.
  lemma {:induction false} StainShows(o: Optics, l: DisplayList, n: nat, k: nat) returns (oracle: Oracle)
    requires n <= |l.records| && LayerFormulas(o, l)
    requires k < |TraceAt(o, l, n).layers| && TraceAt(o, l, n).layers[k].may
    ensures Shows(CanvasAt(o, l, n, oracle, CLEAR_PIXEL), k)
    decreases n
  {
    hide Shows, Traces, LayerFormulas, LayerStains, CanvasStep, Override, TraceStep, Under;
    if n > 0 {
      var t, r, i := TraceAt(o, l, n - 1), l.records[n - 1], n - 1;
      if k < |t.layers| && t.layers[k].may {
        var a := StainShows(o, l, i, k);
        oracle := Override(a, i, HUSH);
        OverrideBefore(o, l, i, a, HUSH);
        CanvasTraces(o, l, i, oracle);
        OldShows(o, CanvasAt(o, l, i, oracle, CLEAR_PIXEL), t, r, Under(oracle, i), k);
      } else if ContentPasses(o, t, r) {
        OnlyContent(o, t.layers[|t.layers| - 1]);
        var a := StainShows(o, l, i, |t.layers| - 1);
        oracle := ThroughLayer(o, l, i, a);
        ClosedTop(o, t, r, k);
      } else {
        oracle := FreshShows(o, l, i, k);
      }
    }
  }

  lemma OnlyContent(o: Optics, m: Stain)
    requires LayerStains(o, m) && !LayerStains(o, m.(may := false))
    ensures m.may
  {
    assert m.may || m == m.(may := false);
  }

  // What is stained anew is the layer that is then on top.
  lemma ClosedTop(o: Optics, t: Trace, r: Record, k: nat)
    requires t.layers != [] && !(k < |t.layers| && t.layers[k].may)
    requires k < |TraceStep(o, t, r).layers| && TraceStep(o, t, r).layers[k].may
    ensures k == |TraceStep(o, t, r).layers| - 1
    ensures r.DrawRec? ==> DrawStains(o, EffectPaint(t.paint, r.draw), r.draw.flags)
    ensures r.ListRec? ==> ListStains(o, r.list, r.opacity)
    ensures r.RestoreRec? ==> ClosesInner(t) && k == |t.layers| - 2 && LayerStains(o, t.layers[|t.layers| - 1])
    ensures r.LayerRec? ==> r.backdrop.Some? && k == |t.layers|
    ensures r.DrawRec? || r.ListRec? || r.RestoreRec? || r.LayerRec?
  {
    hide DrawStains, ListStains, LayerStains;
  }

  lemma ThroughLayer(o: Optics, l: DisplayList, i: nat, a: Oracle) returns (oracle: Oracle)
    requires i < |l.records| && LayerFormulas(o, l) && ContentPasses(o, TraceAt(o, l, i), l.records[i])
    requires Shows(CanvasAt(o, l, i, a, CLEAR_PIXEL), |TraceAt(o, l, i).layers| - 1)
    ensures Shows(CanvasAt(o, l, i + 1, oracle, CLEAR_PIXEL), |TraceAt(o, l, i).layers| - 2)
  {
    hide Traces, LayerFormulas, LayerStains, CanvasStep, Override, TraceAt, Under, LayerFormula, PixelStains;
    var c, t := CanvasAt(o, l, i, a, CLEAR_PIXEL), TraceAt(o, l, i);
    var n := |t.layers| - 1;
    OpenFormulas(o, l, i);
    var source := AnyPixelStains(o, t.layers[n], c.sheets[n].pixel);
    oracle := Override(a, i, Choice(source, 1.0));
    OverrideBefore(o, l, i, a, Choice(source, 1.0));
    CanvasTraces(o, l, i, a);
    LayerShows(o, c, t, l.records[i], source, Under(oracle, i));
  }

  // A first stain in a layer comes from one operation, or from the background of the layer above.
  lemma FreshShows(o: Optics, l: DisplayList, i: nat, k: nat) returns (oracle: Oracle)
    requires i < |l.records| && !ContentPasses(o, TraceAt(o, l, i), l.records[i])
    requires var t := TraceAt(o, l, i); !(k < |t.layers| && t.layers[k].may)
    requires k < |TraceAt(o, l, i + 1).layers| && TraceAt(o, l, i + 1).layers[k].may
    ensures Shows(CanvasAt(o, l, i + 1, oracle, CLEAR_PIXEL), k)
  {
    hide Shows, Traces, LayerStains, CanvasStep, Only, TraceStep, Under, CanvasAt;
    var t, r := TraceAt(o, l, i), l.records[i];
    var silent: Oracle := (path: seq<nat>) => HUSH;
    ClosedTop(o, t, r, k);
    var ch, inner := FreshChoice(o, t, r, k);
    oracle := Only(i, ch, inner);
    OnlyInside(i, ch, inner);
    QuietIsClear(o, l, i, oracle);
    CanvasTraces(o, l, i, oracle);
    var c := CanvasAt(o, l, i, oracle, CLEAR_PIXEL);
    StepSame(o, c, r, ch, Under(oracle, i), inner);
    FreshStep(o, c, t, r, ch, inner, k);
    OneStep(o, l, i, oracle);
  }

  lemma OneStep(o: Optics, l: DisplayList, i: nat, oracle: Oracle)
    requires i < |l.records|
    ensures CanvasAt(o, l, i + 1, oracle, CLEAR_PIXEL) ==
            CanvasStep(o, CanvasAt(o, l, i, oracle, CLEAR_PIXEL), l.records[i], oracle([i]), Under(oracle, i))
  {
    hide CanvasStep;
  }

  // The operation stains the clear pixel that it draws on.
  ghost predicate Fresh(o: Optics, t: Trace, r: Record, ch: Choice, inner: Oracle) {
    match r
    case DrawRec(d) =>
      var p := EffectPaint(t.paint, d);
      && ch.coverage == 1.0 && SourceAllowed(o, p, d.flags, ch.source)
      && Blend(o, BlendModeOf(p, d.flags), ch.source, CLEAR_PIXEL) != CLEAR_PIXEL
    case ListRec(l, opacity) =>
      ch == Choice(CLEAR_PIXEL, 1.0) && opacity != 0.0 && Final(o, l, inner, CLEAR_PIXEL) != CLEAR_PIXEL
    case RestoreRec =>
      && ch.coverage == 1.0 && ClosesInner(t)
      && var m := t.layers[|t.layers| - 1]; PixelStains(o, m.paint, m.withPaint, CLEAR_PIXEL, ch.source)
    case LayerRec(_, _, _, backdrop, _, _) => backdrop.Some? && ch.source == WHITE_PIXEL
    case _ => false
  }

  lemma FreshChoice(o: Optics, t: Trace, r: Record, k: nat) returns (ch: Choice, inner: Oracle)
    requires t.layers != [] && !(k < |t.layers| && t.layers[k].may) && !ContentPasses(o, t, r)
    requires k < |TraceStep(o, t, r).layers| && TraceStep(o, t, r).layers[k].may
    ensures Fresh(o, t, r, ch, inner)
  {
    hide Blend, SourceAllowed, Final, PixelStains, TraceStep;
    ClosedTop(o, t, r, k);
    ch, inner := HUSH, (path: seq<nat>) => HUSH;
    match r {
      case DrawRec(d) =>
        var p := EffectPaint(t.paint, d);
        var s :| SourceAllowed(o, p, d.flags, s) && Blend(o, BlendModeOf(p, d.flags), s, CLEAR_PIXEL) != CLEAR_PIXEL;
        ch := Choice(s, 1.0);
      case ListRec(l, opacity) =>
        inner :| Final(o, l, inner, CLEAR_PIXEL) != CLEAR_PIXEL;
        ch := Choice(CLEAR_PIXEL, 1.0);
      case RestoreRec =>
        var m := t.layers[|t.layers| - 1];
        var pixel, s :| pixel == CLEAR_PIXEL && PixelStains(o, m.paint, m.withPaint, pixel, s);
        ch := Choice(s, 1.0);
      case _ => ch := Choice(WHITE_PIXEL, 0.0);
    }
  }

  lemma FreshStep(o: Optics, c: Composition, t: Trace, r: Record, ch: Choice, inner: Oracle, k: nat)
    requires Traces(c, t) && AllClear(c) && Fresh(o, t, r, ch, inner)
    requires k == |TraceStep(o, t, r).layers| - 1 && (r.RestoreRec? ==> k == |t.layers| - 2)
    ensures Shows(CanvasStep(o, c, r, ch, inner), k)
  {
    hide Blend, SourceAllowed, Final, PixelStains, DrawStains, ListStains, LayerStains, CanvasStep;
    match r {
      case DrawRec(d) => DrawShows(o, c, t, d, ch.source, inner);
      case ListRec(l, opacity) => ListShows(o, c, t, l, opacity, inner);
      case RestoreRec => LayerShows(o, c, t, r, ch.source, inner);
      case LayerRec(_, _, _, _, _, _) => BackdropShows(o, c, r, ch, inner);
    }
  }

  lemma BackdropShows(o: Optics, c: Composition, r: Record, ch: Choice, inner: Oracle)
    requires AllClear(c) && r.LayerRec? && r.backdrop.Some? && ch.source == WHITE_PIXEL
    ensures Shows(CanvasStep(o, c, r, ch, inner), |c.sheets|)
  {
  }

  // Whatever a list draws, and whatever it is nested in, it keeps transparent pixels transparent exactly
  // when the fold over its records finds no stain on its root.
  lemma StainsAreExact(o: Optics, l: DisplayList)
    requires LayerFormulas(o, l)
    ensures KeepsPixelClear(o, l) <==> !TraceAt(o, l, |l.records|).layers[0].may
  {
    hide CanvasAt, TraceAt, LayerFormulas;
    if TraceAt(o, l, |l.records|).layers[0].may {
      var oracle := StainShows(o, l, |l.records|, 0);
      assert Final(o, l, oracle, CLEAR_PIXEL) != CLEAR_PIXEL;
    } else {
      NoStainIsClear(o, l);
    }
  }

  lemma NoStainIsClear(o: Optics, l: DisplayList)
    requires !TraceAt(o, l, |l.records|).layers[0].may
    ensures KeepsPixelClear(o, l)
  {
    hide CanvasAt, TraceAt;
    forall oracle: Oracle ensures Final(o, l, oracle, CLEAR_PIXEL) == CLEAR_PIXEL {
      CanvasTraces(o, l, |l.records|, oracle);
      assert Bounds(CanvasAt(o, l, |l.records|, oracle, CLEAR_PIXEL).sheets[0], TraceAt(o, l, |l.records|).layers[0]);
    }
  }

  // ---------- what the flag of a built list is worth ----------

  // An operation on the root that stains a transparent pixel although the analysis finds that it does not:
  // a draw with a paint in the gap of the analysis, a list that is not honest, or a layer with such a paint
  // whose content may be stained.
  ghost predicate Gap(o: Optics, l: DisplayList, i: nat)
    requires i < |l.records|
  {
    GapStep(o, TraceAt(o, l, i), l.records[i])
  }

  ghost predicate GapStep(o: Optics, t: Trace, r: Record) {
    match r
    case DrawRec(d) => |t.layers| == 1 && ClearGap(EffectPaint(t.paint, d), d.flags)
    case ListRec(inner, opacity) => |t.layers| == 1 && opacity != 0.0 && !Honest(o, inner)
    case RestoreRec => |t.layers| == 2 && ClosesInner(t) && GapLayer(t.layers[1])
    case _ => false
  }

  predicate GapLayer(m: Stain) { m.may && ClearGap(m.paint, LayerFlags(m.withPaint)) }

  // Colours have components between 0 and 1.
  ghost predicate ValidColors(o: Optics, l: DisplayList) {
    forall i :: 0 <= i < |l.records| ==> ValidColor(TraceAt(o, l, i).paint, l.records[i])
  }

  ghost predicate ValidColor(p: Paint, r: Record) {
    && (r.DrawRec? && r.draw.flags.blend ==> EffectPaint(p, r.draw).color.Valid())
    && (r.LayerRec? && r.options.withPaint ==> p.color.Valid())
  }

  // The modes of all draws on the root have formulas.
  ghost predicate RootFormulas(o: Optics, l: DisplayList) {
    forall i :: 0 <= i < |l.records| ==> RootFormula(TraceAt(o, l, i), l.records[i])
  }

  predicate RootFormula(t: Trace, r: Record) {
    r.DrawRec? && |t.layers| == 1 && r.draw.flags.blend ==> HasFormula(EffectPaint(t.paint, r.draw).blend)
  }

  // What the analysis says of a layer that is open over the root.
  ghost predicate Harmless(p: Paint, withPaint: bool) {
    PaintResult(false, p, LayerFlags(withPaint)) != AffectsAll && (withPaint ==> p.color.Valid())
  }

  // The fold follows the reading of the same records.
  ghost predicate Reads(t: Trace, r: Reading) {
    && t.paint == r.paint && t.open == r.open && |t.layers| == |r.layers| == 1 + Layers(r.open)
    && (!r.layers[0].affects && |t.layers| > 1 ==> Harmless(t.layers[1].paint, t.layers[1].withPaint))
  }

  function Layers(open: seq<bool>): nat {
    if open == [] then 0 else Layers(open[..|open| - 1]) + if open[|open| - 1] then 1 else 0
  }

  lemma LayersAppend(open: seq<bool>, b: bool)
    ensures Layers(open + [b]) == Layers(open) + if b then 1 else 0
  {
    assert (open + [b])[..|open|] == open;
  }

  lemma SaveReads(o: Optics, t: Trace, r: Reading)
    requires Reads(t, r)
    ensures Reads(TraceStep(o, t, SaveRec(0, 0)), Read(r, SaveCall))
  {
    hide Harmless, Read;
    ReadSave(r);
    LayersAppend(r.open, false);
  }

  lemma LayerReads(o: Optics, t: Trace, r: Reading, rec: Record)
    requires Reads(t, r) && rec.LayerRec? && ValidColor(t.paint, rec)
    ensures Reads(TraceStep(o, t, rec), Read(r, Settled(rec)))
  {
    hide PaintResult;
    LayersAppend(r.open, true);
  }

  lemma NoteReads(o: Optics, t: Trace, r: Reading, rec: Record)
    requires Reads(t, r) && (rec.DrawRec? || rec.ListRec?)
    ensures Reads(TraceStep(o, t, rec), Read(r, Settled(rec)))
  {
    hide PaintResult, DrawNote, ListNote, Harmless, DrawStains, ListStains;
    NoteKeeps(r, Settled(rec));
  }

  // Noting an operation leaves the paint and the brackets alone, and no flag is taken back.
  lemma NoteKeeps(r: Reading, c: Call)
    requires c.DrawCall? || c.ListCall?
    ensures var r' := Read(r, c); r'.paint == r.paint && r'.open == r.open && |r'.layers| == |r.layers|
    ensures r.layers != [] && r.layers[0].affects ==> Read(r, c).layers[0].affects
  {
    hide PaintResult, DrawNote, ListNote;
  }

  lemma RestoreReads(o: Optics, t: Trace, r: Reading)
    requires Reads(t, r)
    ensures Reads(TraceStep(o, t, RestoreRec), Read(r, RestoreCall))
  {
    hide PaintResult, LayerStains, Harmless;
  }

  lemma StepReads(o: Optics, t: Trace, r: Reading, rec: Record)
    requires Reads(t, r) && ValidColor(t.paint, rec)
    ensures Reads(TraceStep(o, t, rec), Read(r, Settled(rec)))
  {
    match rec {
      case SetAttrRec(a) => AttrReads(o, t, r, a);
      case SaveRec(_, _) => SaveReads(o, t, r);
      case LayerRec(_, _, _, _, _, _) => LayerReads(o, t, r, rec);
      case RestoreRec => RestoreReads(o, t, r);
      case DrawRec(_) => NoteReads(o, t, r, rec);
      case ListRec(_, _) => NoteReads(o, t, r, rec);
      case _ => PlaceReads(o, t, r, rec);
    }
  }

  lemma AttrReads(o: Optics, t: Trace, r: Reading, a: Attr)
    requires Reads(t, r)
    ensures Reads(TraceStep(o, t, SetAttrRec(a)), Read(r, AttrCall(a)))
  {
    hide SetAttr, Harmless;
  }

  lemma PlaceReads(o: Optics, t: Trace, r: Reading, rec: Record)
    requires Reads(t, r) && (rec.TransformRec? || rec.ClipRec?)
    ensures Reads(TraceStep(o, t, rec), Read(r, Settled(rec)))
  {
    hide Harmless;
  }

  // A draw that is not judged to affect all pixels stains only in the gap, and always there.
  lemma DrawStainsIff(o: Optics, p: Paint, f: Flags)
    requires o.Valid() && PaintResult(false, p, f) != AffectsAll && (f.blend ==> p.color.Valid())
    ensures DrawStains(o, p, f) ==> ClearGap(p, f)
    ensures HasFormula(p.blend) ==> (DrawStains(o, p, f) <==> ClearGap(p, f))
  {
    hide Blend, ClearGap, BlendResult, SourceAllowed;
    assert f.blend;
    if DrawStains(o, p, f) && !ClearGap(p, f) {
      var s :| SourceAllowed(o, p, f, s) && Blend(o, p.blend, s, CLEAR_PIXEL) != CLEAR_PIXEL;
      SourceKeepsClear(o, p, f, s);
    }
    if HasFormula(p.blend) { ClearExact(o, p, f); }
  }

  lemma SourceKeepsClear(o: Optics, p: Paint, f: Flags, s: Pixel)
    requires o.Valid() && p.color.Valid() && f.blend && SourceAllowed(o, p, f, s)
    requires PaintResult(false, p, f) != AffectsAll && !ClearGap(p, f)
    ensures Blend(o, p.blend, s, CLEAR_PIXEL) == CLEAR_PIXEL
  {
    hide Blend, ClearGap, PaintResult, Shades;
    var raw, i, c :| Shaded(o, p, f, raw, i, c, s);
    ShadeKeepsClear(o, p, f, raw, i, c, s);
  }

  // A layer that is not judged to affect all pixels stains only in the gap and with stained content, and
  // always then.
  lemma LayerStainsIff(o: Optics, m: Stain)
    requires o.Valid() && Harmless(m.paint, m.withPaint)
    ensures LayerStains(o, m) ==> GapLayer(m)
    ensures LayerFormula(m.paint, m.withPaint) ==> (LayerStains(o, m) <==> GapLayer(m))
  {
    hide Blend, Shades, AlphaRoundsAway, PaintResult;
    var p, f := m.paint, LayerFlags(m.withPaint);
    assert f.blend by { BlendsIfNotAll(p, f); }
    if LayerStains(o, m) {
      var pixel, s :| (m.may || pixel == CLEAR_PIXEL) && PixelStains(o, p, m.withPaint, pixel, s);
      var i, c :| Shades(o, p, f, pixel, i, c, s);
      if !ClearGap(p, f) { ShadeKeepsClear(o, p, f, pixel, i, c, s); }
      if pixel == CLEAR_PIXEL && ClearGap(p, f) { BackgroundKeepsClear(o, p, f, i, c, s); }
    }
    if LayerFormula(p, m.withPaint) && GapLayer(m) { GapLayerStains(o, m); }
  }

  lemma GapLayerStains(o: Optics, m: Stain)
    requires GapLayer(m) && LayerFormula(m.paint, m.withPaint) && LayerFlags(m.withPaint).blend
    ensures LayerStains(o, m)
  {
    hide Blend, Shades, AlphaRoundsAway;
    var p, f := m.paint, LayerFlags(m.withPaint);
    FaintAlpha(p, f);
    var s := Passed(o, p, f, WHITE_PIXEL);
    PixelShows(o, p.blend, s);
    assert PixelStains(o, p, m.withPaint, WHITE_PIXEL, s);
  }

  lemma BlendsIfNotAll(p: Paint, f: Flags)
    requires PaintResult(false, p, f) != AffectsAll
    ensures f.blend
  {
  }

  lemma FaintAlpha(p: Paint, f: Flags)
    requires AlphaRoundsAway(p, f)
    ensures p.color.a > 0.0 && f.alpha && !f.color && FiltersKeepBlack(p, f)
  {
  }

  lemma BackgroundKeepsClear(o: Optics, p: Paint, f: Flags, i: Pixel, c: Pixel, s: Pixel)
    requires o.Valid() && ClearGap(p, f) && Shades(o, p, f, CLEAR_PIXEL, i, c, s)
    ensures Blend(o, p.blend, s, CLEAR_PIXEL) == CLEAR_PIXEL
  {
    hide AlphaRoundsAway, Shades;
    FaintAlpha(p, f);
    BlackStaysBlack(o, p, f, CLEAR_PIXEL, i, c, s);
  }

  // While the root's summary says that nothing affects transparent pixels, only a gap stains the root.
  lemma RootStep(o: Optics, t: Trace, r: Reading, rec: Record)
    requires o.Valid() && Reads(t, r) && ValidColor(t.paint, rec) && !Read(r, Settled(rec)).layers[0].affects
    ensures r.layers != [] && !r.layers[0].affects
    ensures var may := TraceStep(o, t, rec).layers[0].may;
            && (may ==> t.layers[0].may || GapStep(o, t, rec))
            && (RootFormula(t, rec) && (|t.layers| > 1 ==> LayerFormula(t.layers[1].paint, t.layers[1].withPaint)) ==>
                  (may <==> t.layers[0].may || GapStep(o, t, rec)))
  {
    hide PaintResult, DrawStains, ListStains, LayerStains, ClearGap, Honest, KeepsPixelClear, GapLayer, Harmless;
    match rec {
      case DrawRec(d) =>
        if |t.layers| == 1 {
          BlendsIfNotAll(EffectPaint(t.paint, d), d.flags);
          DrawStainsIff(o, EffectPaint(t.paint, d), d.flags);
        }
      case ListRec(l, opacity) =>
        if |t.layers| == 1 { ListStainsIff(o, l, opacity); }
      case RestoreRec =>
        if |t.layers| == 2 { LayerStainsIff(o, t.layers[1]); }
      case _ =>
    }
  }

  lemma ListStainsIff(o: Optics, l: DisplayList, opacity: real)
    requires !l.modifiesTransparentBlack
    ensures ListStains(o, l, opacity) <==> opacity != 0.0 && !Honest(o, l)
  {
    hide KeepsPixelClear;
  }

  ghost predicate AnyGap(o: Optics, l: DisplayList, n: nat)
    requires n <= |l.records|
  {
    exists i :: 0 <= i < n && Gap(o, l, i)
  }

  lemma MoreGaps(o: Optics, l: DisplayList, n: nat)
    requires n < |l.records|
    ensures AnyGap(o, l, n + 1) <==> AnyGap(o, l, n) || GapStep(o, TraceAt(o, l, n), l.records[n])
  {
    hide GapStep, TraceAt;
    assert Gap(o, l, n) == GapStep(o, TraceAt(o, l, n), l.records[n]);
  }

  lemma {:induction false} RootReads(o: Optics, l: DisplayList, n: nat)
    requires n <= |l.records| && ValidColors(o, l)
    ensures Reads(TraceAt(o, l, n), ReadAll(Skeleton(l.records)[..n]))
  {
    hide Reads, Read, TraceStep, ValidColor;
    if n == 0 {
      assert Skeleton(l.records)[..0] == [];
      StartReads();
    } else {
      RootReads(o, l, n - 1);
      ReadNext(l, n - 1);
      assert ValidColor(TraceAt(o, l, n - 1).paint, l.records[n - 1]);
      StepReads(o, TraceAt(o, l, n - 1), ReadAll(Skeleton(l.records)[..n - 1]), l.records[n - 1]);
    }
  }

  lemma ReadNext(l: DisplayList, i: nat)
    requires i < |l.records|
    ensures ReadAll(Skeleton(l.records)[..i + 1]) == Read(ReadAll(Skeleton(l.records)[..i]), Settled(l.records[i]))
  {
    hide Read, Settled, ReadAll;
    var sk := Skeleton(l.records);
    assert sk[..i + 1] == sk[..i] + [sk[i]];
    ReadAppend(sk[..i], sk[i]);
  }

  lemma {:induction false} RootStains(o: Optics, l: DisplayList, n: nat)
    requires o.Valid() && n <= |l.records| && ValidColors(o, l)
    requires var r := ReadAll(Skeleton(l.records)[..n]); r.layers != [] && !r.layers[0].affects
    ensures TraceAt(o, l, n).layers[0].may ==> AnyGap(o, l, n)
    ensures RootFormulas(o, l) && LayerFormulas(o, l) ==> (TraceAt(o, l, n).layers[0].may <==> AnyGap(o, l, n))
  {
    hide Reads, Read, TraceStep, GapStep, RootFormula, LayerFormula, LayerFormulas, Settled, ReadAll, AnyGap;
    hide ValidColor, ValidColors, RootFormulas;
    if n == 0 {
      assert !AnyGap(o, l, 0) by { NoGap(o, l); }
    } else {
      var t, r, rec := TraceAt(o, l, n - 1), ReadAll(Skeleton(l.records)[..n - 1]), l.records[n - 1];
      RootReads(o, l, n - 1);
      ReadNext(l, n - 1);
      MoreGaps(o, l, n - 1);
      AsAt(o, l, n - 1);
      RootStep(o, t, r, rec);
      RootStains(o, l, n - 1);
      if LayerFormulas(o, l) { OpenFormulas(o, l, n - 1); }
    }
  }

  lemma AsAt(o: Optics, l: DisplayList, i: nat)
    requires i < |l.records|
    ensures ValidColors(o, l) ==> ValidColor(TraceAt(o, l, i).paint, l.records[i])
    ensures RootFormulas(o, l) ==> RootFormula(TraceAt(o, l, i), l.records[i])
  {
    hide TraceAt, ValidColor, RootFormula;
  }

  lemma NoGap(o: Optics, l: DisplayList)
    ensures !AnyGap(o, l, 0)
  {
  }

  lemma StartReads()
    ensures Reads(Trace(DefaultPaint(BLACK), [Stain(false, false, DefaultPaint(BLACK))], []), ReadAll([]))
  {
  }

  // The flag of a built list, when it is off, is right if no operation on the root is in a gap; and exactly
  // then, if the modes of its layers and of the draws on its root have formulas. Operations inside layers
  // only matter by staining the layer.
  lemma BuiltListsAreHonest(o: Optics, e: Engine, cull: Rect, prepareRTree: bool, calls: seq<Call>)
    requires o.Valid() && ValidColors(o, Build(e, cull, prepareRTree, calls))
    requires !Build(e, cull, prepareRTree, calls).modifiesTransparentBlack
    ensures var l := Build(e, cull, prepareRTree, calls);
            && (!AnyGap(o, l, |l.records|) ==> Honest(o, l))
            && (RootFormulas(o, l) && LayerFormulas(o, l) ==>
                  (Honest(o, l) <==> !AnyGap(o, l, |l.records|)))
  {
    hide Build, ReadAll, AnyGap, TraceAt, KeepsPixelClear, RootFormulas, LayerFormulas, ValidColors;
    var l := Build(e, cull, prepareRTree, calls);
    BuiltSummary(e, cull, prepareRTree, calls);
    assert Skeleton(l.records)[..|l.records|] == Skeleton(l.records);
    RootStains(o, l, |l.records|);
    if !TraceAt(o, l, |l.records|).layers[0].may { NoStainIsClear(o, l); }
    if LayerFormulas(o, l) { StainsAreExact(o, l); }
  }

  // ---------- a list that is not honest ----------

  // An image drawn with a paint replaces what it covers, and its alpha is below half a step of eight bits.
  const FAINT: Color := Color(0.001, 0.0, 0.0, 0.0)

  function FaintCalls(r: Rect): seq<Call> {
    [AttrCall(BlendAttr(SRC)), AttrCall(ColorAttr(FAINT)), DrawCall(FaintImage(r))]
  }

  function FaintImage(r: Rect): Op { Canvas.Recorded(Canvas.ImagePrim(r, true), 0) }

  // It is recorded with all three records and the flag off, but changes transparent pixels.
  lemma FaintImageIsDishonest(o: Optics, e: Engine, cull: Rect, prepareRTree: bool)
    requires o.Valid() && !cull.IsEmpty()
    ensures var l := Build(e, cull, prepareRTree, FaintCalls(cull));
            && l.records == [SetAttrRec(BlendAttr(SRC)), SetAttrRec(ColorAttr(FAINT)), DrawRec(FaintImage(cull))]
            && !l.modifiesTransparentBlack && !Honest(o, l)
  {
    hide Honest, Run, Step, Finish, Start, Built, ValidColors, RootFormulas, LayerFormulas, AnyGap, Build, FaintImage;
    FaintBuilt(e, cull, prepareRTree);
    var l := Build(e, cull, prepareRTree, FaintCalls(cull));
    FaintGap(o, l, cull);
    BuiltListsAreHonest(o, e, cull, prepareRTree, FaintCalls(cull));
  }

  lemma FaintBuilt(e: Engine, cull: Rect, prepareRTree: bool)
    requires !cull.IsEmpty()
    ensures var l := Build(e, cull, prepareRTree, FaintCalls(cull));
            && l.records == [SetAttrRec(BlendAttr(SRC)), SetAttrRec(ColorAttr(FAINT)), DrawRec(FaintImage(cull))]
            && !l.modifiesTransparentBlack
  {
    hide Run, Step, Finish, FaintImage, Start;
    var start, calls := Start(cull, prepareRTree), FaintCalls(cull);
    StartPlain(e, cull, prepareRTree);
    assert calls == [] + [calls[0]] + [calls[1]] + [calls[2]];
    RunAppend(e, start, [], calls[0]);
    AttrPlain(e, start, cull, BlendAttr(SRC));
    var st1 := Step(e, start, calls[0]);
    RunAppend(e, start, [] + [calls[0]], calls[1]);
    AttrPlain(e, st1, cull, ColorAttr(FAINT));
    var st2 := Step(e, st1, calls[1]);
    RunAppend(e, start, [] + [calls[0]] + [calls[1]], calls[2]);
    FaintDraw(e, st2, cull);
    FinishDone(e, Run(e, start, calls));
  }

  // Nothing has been clipped, moved or noted.
  ghost predicate Plain(st: Recorder, cull: Rect) {
    && st.Sized() && |st.stack| == 1 && |st.layers| == 1 && !st.Top().nop && !st.Layer().affects
    && st.Top().global == st.Top().local == Tracker(IDENTITY, cull)
  }

  lemma StartPlain(e: Engine, cull: Rect, prepareRTree: bool)
    requires !cull.IsEmpty()
    ensures var st := Start(cull, prepareRTree);
            Plain(st, cull) && st.paint == DefaultPaint(BLACK) && st.records == [] && Run(e, st, []) == st
  {
  }

  lemma AttrPlain(e: Engine, st: Recorder, cull: Rect, a: Attr)
    requires Plain(st, cull) && SetAttr(st.paint, a) != st.paint
    ensures var st' := Step(e, st, AttrCall(a));
            Plain(st', cull) && st'.paint == SetAttr(st.paint, a) && st'.records == st.records + [SetAttrRec(a)]
  {
    hide SetAttr, LayerCount;
  }

  lemma FaintDraw(e: Engine, st: Recorder, cull: Rect)
    requires Plain(st, cull) && !cull.IsEmpty() && st.paint == DefaultPaint(BLACK).(blend := SRC, color := FAINT)
    ensures var st' := Step(e, st, DrawCall(FaintImage(cull)));
            && st'.Sized() && |st'.stack| == 1 && |st'.layers| == 1 && !st'.layers[0].affects
            && st'.records == st.records + [DrawRec(FaintImage(cull))]
  {
    hide LayerCount, Area, AccumulateArea, Deeper, FaintImage, PaintResult, NoteDraw;
    var d := FaintImage(cull);
    StepSized(e, st, DrawCall(d));
    FaintVerdict(e, st.paint, cull);
    WholeCull(st.Top(), TopSink(st), |st.records|, cull);
    NoteAffects(AccumulateArea(st.Top(), TopSink(st), |st.records|, Some(cull)).0.layer, st.paint, st.compatible, d);
  }

  lemma NoteAffects(l: Layer, p: Paint, compatible: bool, d: Op)
    ensures NoteDraw(l, p, compatible, d, PreservesTransparency).affects == l.affects
  {
  }

  lemma FaintVerdict(e: Engine, p: Paint, r: Rect)
    requires p == DefaultPaint(BLACK).(blend := SRC, color := FAINT)
    ensures Area(e, p, FaintImage(r)) == Some(r)
    ensures PaintResult(false, EffectPaint(p, FaintImage(r)), FaintImage(r).flags) == PreservesTransparency
  {
    assert FAINT.AlphaByte() == 0;
  }

  lemma WholeCull(s: Save, k: Sink, id: nat, cull: Rect)
    requires s.global == s.local == Tracker(IDENTITY, cull) && !cull.IsEmpty()
    ensures var acc := AccumulateArea(s, k, id, Some(cull)); acc.1 && acc.0.layer.affects == k.layer.affects
  {
    MapIdentity(cull);
  }

  lemma FaintGap(o: Optics, l: DisplayList, cull: Rect)
    requires l.records == [SetAttrRec(BlendAttr(SRC)), SetAttrRec(ColorAttr(FAINT)), DrawRec(FaintImage(cull))]
    ensures ValidColors(o, l) && RootFormulas(o, l) && LayerFormulas(o, l) && AnyGap(o, l, |l.records|)
  {
    hide DrawStains, TraceAt, Blend, ClearGap, FaintImage;
    FaintTrace(o, l, cull);
    var p := DefaultPaint(BLACK).(blend := SRC, color := FAINT);
    FaintFlags(p, cull);
    assert Gap(o, l, 2);
  }

  lemma FaintFlags(p: Paint, cull: Rect)
    requires p == DefaultPaint(BLACK).(blend := SRC, color := FAINT)
    ensures var d := FaintImage(cull);
            && EffectPaint(p, d) == p && p.color.Valid() && HasFormula(p.blend) && ClearGap(p, d.flags)
  {
    assert FAINT.AlphaByte() == 0;
  }

  lemma FaintTrace(o: Optics, l: DisplayList, cull: Rect)
    requires l.records == [SetAttrRec(BlendAttr(SRC)), SetAttrRec(ColorAttr(FAINT)), DrawRec(FaintImage(cull))]
    ensures var t := TraceAt(o, l, 2);
            |t.layers| == 1 && t.paint == DefaultPaint(BLACK).(blend := SRC, color := FAINT)
  {
    hide DrawStains, FaintImage;
    assert TraceAt(o, l, 0).paint == DefaultPaint(BLACK);
    assert TraceAt(o, l, 1).paint == DefaultPaint(BLACK).(blend := SRC) && |TraceAt(o, l, 1).layers| == 1;
  }
}
