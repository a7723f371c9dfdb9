/** A compositor of one pixel: the records of a list are drawn with the blend formulas, nested layers and
    lists included, for any colours that the paints allow and any coverage. */
module Compositing {
  import opened Geometry
  import opened Painting
  import opened Blending
  import opened DisplayLists
  import opened Recorder

  // What each operation happens to feed to the pixel: a colour and how much of it is covered.
  // An operation is named by its index, preceded by those of the lists around it.
  datatype Choice = Choice(source: Pixel, coverage: real)

  type Oracle = seq<nat> -> Choice

  // One layer's pixel, and how the layer will be composited.
  datatype Sheet = Sheet(pixel: Pixel, withPaint: bool, paint: Paint)

  // The paint in force, the pixels of the open layers, and which open brackets are layers.
  datatype Composition = Composition(paint: Paint, sheets: seq<Sheet>, open: seq<bool>)

  ghost function SetPixel(c: Composition, p: Pixel): Composition
    requires c.sheets != []
  {
    c.(sheets := c.sheets[|c.sheets| - 1 := c.sheets[|c.sheets| - 1].(pixel := p)])
  }

  ghost function TopPixel(c: Composition): Pixel
    requires c.sheets != []
  {
    c.sheets[|c.sheets| - 1].pixel
  }

  function BlendModeOf(p: Paint, f: Flags): BlendMode { if f.blend then p.blend else SRC_OVER }

  // A colour that the paint does not allow is not drawn.
  ghost function DrawPixel(o: Optics, p: Paint, f: Flags, ch: Choice, d: Pixel): Pixel {
    if SourceAllowed(o, p, f, ch.source) then Cover(ch.coverage, d, Blend(o, BlendModeOf(p, f), ch.source, d)) else d
  }

  // The layer's pixel on its way through the filters of the layer's paint.
  ghost predicate LayerSource(o: Optics, p: Paint, withPaint: bool, pixel: Pixel, source: Pixel) {
    exists i, c :: Shades(o, p, LayerFlags(withPaint), pixel, i, c, source)
  }

  ghost function CompositePixel(o: Optics, s: Sheet, ch: Choice, d: Pixel): Pixel {
    if LayerSource(o, s.paint, s.withPaint, s.pixel, ch.source)
    then Cover(ch.coverage, d, Blend(o, BlendModeOf(s.paint, LayerFlags(s.withPaint)), ch.source, d)) else d
  }

  ghost function ListPixel(o: Optics, l: DisplayList, opacity: real, ch: Choice, oracle: Oracle, d: Pixel): Pixel
    decreases l, |l.records| + 1
  {
    if opacity >= 1.0 then Cover(ch.coverage, d, Final(o, l, oracle, d))
    else Cover(ch.coverage, d, Blend(o, SRC_OVER, Scale(Final(o, l, oracle, CLEAR_PIXEL), opacity), d))
  }

  // The root pixel after all records of a list, given what it was before.
  ghost function Final(o: Optics, l: DisplayList, oracle: Oracle, before: Pixel): Pixel
    decreases l, |l.records|, 1
  {
    var c := CanvasAt(o, l, |l.records|, oracle, before);
    if c.sheets == [] then before else c.sheets[0].pixel
  }

  // The canvas after the first n records.
  ghost function CanvasAt(o: Optics, l: DisplayList, n: nat, oracle: Oracle, before: Pixel): Composition
    requires n <= |l.records|
    decreases l, n, 0
  {
    if n == 0 then Composition(DefaultPaint(BLACK), [Sheet(before, false, DefaultPaint(BLACK))], [])
    else
      CanvasStep(o, CanvasAt(o, l, n - 1, oracle, before), l.records[n - 1], oracle([n - 1]), Under(oracle, n - 1))
  }

  // What the operations of the list at index i feed to the pixel.
  ghost function Under(oracle: Oracle, i: nat): Oracle { (path: seq<nat>) => oracle([i] + path) }

  ghost function CanvasStep(o: Optics, c: Composition, r: Record, ch: Choice, inner: Oracle): Composition
    decreases r
  {
    match r
    case SetAttrRec(a) => c.(paint := SetAttr(c.paint, a))
    case SaveRec(_, _) => c.(open := c.open + [false])
    case LayerRec(options, _, _, backdrop, _, _) =>
      c.(open := c.open + [true],
         sheets := c.sheets + [Sheet(if backdrop.Some? then ch.source else CLEAR_PIXEL, options.withPaint, c.paint)])
    case RestoreRec => RestorePixel(o, c, ch)
    case DrawRec(d) =>
      if c.sheets == [] then c
      else SetPixel(c, DrawPixel(o, EffectPaint(c.paint, d), d.flags, ch, TopPixel(c)))
    case ListRec(l, opacity) =>
      if c.sheets == [] then c else SetPixel(c, ListPixel(o, l, opacity, ch, inner, TopPixel(c)))
    case _ => c
  }

  ghost function RestorePixel(o: Optics, c: Composition, ch: Choice): Composition {
    if c.open == [] then c
    else
      var popped := c.(open := c.open[..|c.open| - 1]);
      if !c.open[|c.open| - 1] || |c.sheets| < 2 then popped
      else
        var under := popped.(sheets := c.sheets[..|c.sheets| - 1]);
        SetPixel(under, CompositePixel(o, c.sheets[|c.sheets| - 1], ch, TopPixel(under)))
  }

  // Whatever is drawn, and however it is nested, a transparent pixel stays transparent.
  ghost predicate KeepsPixelClear(o: Optics, l: DisplayList) {
    forall oracle: Oracle :: Final(o, l, oracle, CLEAR_PIXEL) == CLEAR_PIXEL
  }

  // A list that says it does not modify transparent black does not.
  ghost predicate Honest(o: Optics, l: DisplayList) { !l.modifiesTransparentBlack ==> KeepsPixelClear(o, l) }

  // ---------- what an oracle decides ----------

  // Only the named operations matter.
  ghost predicate SameUpTo(a: Oracle, b: Oracle, n: nat) {
    forall path: seq<nat> :: path != [] && path[0] < n ==> a(path) == b(path)
  }

  ghost predicate SameInside(a: Oracle, b: Oracle) { forall path: seq<nat> :: path != [] ==> a(path) == b(path) }

  lemma {:induction false} CanvasSame(o: Optics, l: DisplayList, n: nat, a: Oracle, b: Oracle, before: Pixel)
    requires n <= |l.records| && SameUpTo(a, b, n)
    ensures CanvasAt(o, l, n, a, before) == CanvasAt(o, l, n, b, before)
    decreases l, n, 0
  {
    hide CanvasStep, Under;
    if n > 0 {
      assert SameUpTo(a, b, n - 1);
      CanvasSame(o, l, n - 1, a, b, before);
      assert a([n - 1]) == b([n - 1]);
      UnderSame(a, b, n - 1);
      StepSame(o, CanvasAt(o, l, n - 1, a, before), l.records[n - 1], a([n - 1]), Under(a, n - 1), Under(b, n - 1));
    }
  }

  lemma UnderSame(a: Oracle, b: Oracle, i: nat)
    requires SameUpTo(a, b, i + 1)
    ensures SameInside(Under(a, i), Under(b, i))
  {
  }

  lemma {:induction false} StepSame(o: Optics, c: Composition, r: Record, ch: Choice, a: Oracle, b: Oracle)
    requires SameInside(a, b)
    ensures CanvasStep(o, c, r, ch, a) == CanvasStep(o, c, r, ch, b)
    decreases r
  {
    hide ListPixel, SetAttr, RestorePixel, DrawPixel;
    if r.ListRec? && c.sheets != [] { ListSame(o, r.list, r.opacity, ch, a, b, TopPixel(c)); }
  }

  lemma {:induction false} ListSame(o: Optics, l: DisplayList, opacity: real, ch: Choice, a: Oracle, b: Oracle,
                                    d: Pixel)
    requires SameInside(a, b)
    ensures ListPixel(o, l, opacity, ch, a, d) == ListPixel(o, l, opacity, ch, b, d)
    decreases l, |l.records| + 1
  {
    hide CanvasAt, Blend, Cover;
    CanvasSame(o, l, |l.records|, a, b, d);
    CanvasSame(o, l, |l.records|, a, b, CLEAR_PIXEL);
  }
}
