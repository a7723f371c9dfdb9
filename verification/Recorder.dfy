/** The recorder as a state machine on values: what each call does to the records, to the
    save stack and to the layer summaries. The class in Builder.dfy is proved to do this. */
module Recorder {
  import opened Geometry
  import opened Painting
  import opened DisplayLists

  // The transform and a conservative bound of the clip.
  datatype Tracker = Tracker(matrix: Matrix, cull: Rect)

  // The parts of the engine that the recorder consults but does not define.
  datatype Engine = Engine(
    clipCull: (Tracker, Shape, ClipOp, bool) -> Rect,
    coversCull: (Tracker, Shape) -> bool,
    mapLocal: (ImageFilter, Rect) -> Option<Rect>,
    mapDevice: (ImageFilter, Matrix, Rect) -> Option<Rect>,
    inputBounds: (ImageFilter, Matrix, Rect) -> Option<Rect>,
    consolidate: (seq<Leaf>, Rect) -> seq<Rect>)

  // One entry of the save stack.
  datatype Save = Save(
    isLayer: bool, deferred: bool, nop: bool, validClip: bool, saveDepth: nat, saveIndex: nat,
    global: Tracker, local: Tracker)

  // The summary of one layer, shared by all entries of the save stack that draw into it.
  datatype Layer = Layer(
    filter: Option<ImageFilter>, rtreeStart: nat, globalBox: Rect, rects: seq<Rect>, overlapForced: bool,
    maxBlend: BlendMode, incompatible: bool, affects: bool, backdrop: bool, unbounded: bool)
  {
    predicate GroupOpacity() { !incompatible && !overlapForced && !Overlapping(rects) }

    function Noted(mode: BlendMode, affectsMore: bool, incompatibleMore: bool): Layer {
      this.(maxBlend := if maxBlend < mode then mode else maxBlend,
            affects := affects || affectsMore, incompatible := incompatible || incompatibleMore)
    }
  }

  datatype Recorder = Recorder(
    records: seq<Record>, stack: seq<Save>, layers: seq<Layer>, depth: nat, count: nat, nested: nat,
    cost: nat, paint: Paint, compatible: bool, rtree: Option<seq<Leaf>>)
  {
    // The layer objects are exactly those of the layer entries.
    ghost predicate Sized() {
      |stack| > 0 && stack[0].isLayer && |layers| == LayerCount(stack)
    }

    function Top(): Save
      requires |stack| > 0
    {
      stack[|stack| - 1]
    }

    function Layer(): Layer
      requires |layers| > 0
    {
      layers[|layers| - 1]
    }
  }

  function LayerCount(stack: seq<Save>): nat {
    if stack == [] then 0
    else LayerCount(stack[..|stack| - 1]) + if stack[|stack| - 1].isLayer then 1 else 0
  }

  lemma LayerCountAppend(stack: seq<Save>, e: Save)
    ensures LayerCount(stack + [e]) == LayerCount(stack) + if e.isLayer then 1 else 0
  {
    assert (stack + [e])[..|stack|] == stack;
  }

  lemma {:induction false} LayerCountPositive(stack: seq<Save>)
    requires |stack| > 0 && stack[0].isLayer
    ensures LayerCount(stack) > 0
  {
    if |stack| > 1 {
      LayerCountPositive(stack[..|stack| - 1]);
    }
  }

  lemma LayerCountSetTop(stack: seq<Save>, e: Save)
    requires |stack| > 0 && e.isLayer == stack[|stack| - 1].isLayer
    ensures LayerCount(stack[|stack| - 1 := e]) == LayerCount(stack)
  {
    assert stack[|stack| - 1 := e][..|stack| - 1] == stack[..|stack| - 1];
  }

  // ---------- accumulated bounds ----------

  function Box(rects: seq<Rect>): Rect {
    if rects == [] then EMPTY else Union(Box(rects[..|rects| - 1]), rects[|rects| - 1])
  }

  // Some rectangle meets the bounding box of those before it.
  predicate Overlapping(rects: seq<Rect>) {
    rects != [] &&
    (Overlapping(rects[..|rects| - 1]) || Intersects(rects[|rects| - 1], Box(rects[..|rects| - 1])))
  }

  function MapAndClip(t: Tracker, r: Rect): Rect { Intersection(MapRect(t.matrix, r), t.cull) }

  function LocalCoverage(t: Tracker): Rect {
    if t.cull.IsEmpty() || !t.matrix.Invertible() then EMPTY else MapRect(Inverse(t.matrix), t.cull)
  }

  // Where the bounds of an operation go: the summary of its layer and the rtree data.
  datatype Sink = Sink(layer: Layer, rtree: Option<seq<Leaf>>)

  function AddLeaf(rtree: Option<seq<Leaf>>, r: Rect, id: nat): Option<seq<Leaf>> {
    if rtree.Some? then Some(rtree.value + [Leaf(r, id)]) else None
  }

  function AddBounds(k: Sink, global: Rect, local: Rect, id: nat): Sink {
    Sink(k.layer.(globalBox := if k.rtree.Some? then k.layer.globalBox else Union(k.layer.globalBox, global),
                  rects := k.layer.rects + [local]),
         AddLeaf(k.rtree, global, id))
  }

  // Records the whole clip. The layer is marked unbounded even when nothing is then recorded.
  function AccumulateUnbounded(s: Save, k: Sink, id: nat): (Sink, bool) {
    var marked := if s.validClip then k else k.(layer := k.layer.(unbounded := true));
    var local := MapAndClip(s.local, LocalCoverage(s.global));
    if s.global.cull.IsEmpty() || local.IsEmpty() then (marked, false)
    else (AddBounds(marked, s.global.cull, local, id), true)
  }

  function AccumulateBounds(s: Save, k: Sink, id: nat, r: Rect): (Sink, bool) {
    var global, local := MapAndClip(s.global, r), MapAndClip(s.local, r);
    if r.IsEmpty() || global.IsEmpty() || local.IsEmpty() then (k, false)
    else (AddBounds(k, global, local, id), true)
  }

  function AccumulateEach(s: Save, k: Sink, id: nat, rs: seq<Rect>): (Sink, bool) {
    if rs == [] then (k, false)
    else
      var (k1, some) := AccumulateEach(s, k, id, rs[..|rs| - 1]);
      var (k2, last) := AccumulateBounds(s, k1, id, rs[|rs| - 1]);
      (k2, some || last)
  }

  function Expand(r: Rect, pad: real): Rect {
    LTRB(r.x.lo - pad, r.y.lo - pad, r.x.hi + pad, r.y.hi + pad)
  }

  // The bounds of what the paint makes of a shape; none when they cannot be estimated.
  function AdjustBounds(e: Engine, p: Paint, f: Flags, r: Rect): Option<Rect> {
    if f.IgnoresPaint() then Some(r)
    else
      var miter := if p.join == MiterJoin && f.acuteJoins then Max(1.0, p.miter) else 1.0;
      var cap := if p.cap == SquareCap && f.diagonalCaps then Max(miter, 1.41421356) else miter;
      var stroked := if f.IsStroked(p.style) then Expand(r, cap * Max(p.width * 0.5, 0.01)) else r;
      var masked := if f.maskFilter && p.maskFilter.Some? then Expand(stroked, p.maskFilter.value.sigma * 3.0)
                    else stroked;
      if f.imageFilter && p.imageFilter.Some? then e.mapLocal(p.imageFilter.value, masked) else Some(masked)
  }

  // The area of the current layer that an operation may touch; none when it floods the clip.
  function Area(e: Engine, p: Paint, d: Op): Option<Rect> {
    if d.bounds.None? then None else AdjustBounds(e, p, d.boundsFlags, d.bounds.value)
  }

  function AccumulateArea(s: Save, k: Sink, id: nat, area: Option<Rect>): (Sink, bool) {
    if area.None? then AccumulateUnbounded(s, k, id) else AccumulateBounds(s, k, id, area.value)
  }

  function AccumulateList(e: Engine, s: Save, k: Sink, id: nat, l: DisplayList): (Sink, bool) {
    if l.rootUnbounded then AccumulateUnbounded(s, k, id)
    else if k.rtree.None? || l.rtree.None? then AccumulateBounds(s, k, id, l.bounds)
    else AccumulateEach(s, k, id, e.consolidate(l.rtree.value, LocalCoverage(s.global)))
  }

  // ---------- pushing records ----------

  // Every rendering operation costs more depth under a mask filter.
  function Deeper(depth: nat, r: Record, cost: nat): nat { depth + r.DepthInc() * cost }

  function Push(st: Recorder, r: Record): Recorder {
    st.(records := st.records + [r], count := st.count + r.CountInc(), depth := Deeper(st.depth, r, st.cost))
  }

  function SetTop(st: Recorder, s: Save): Recorder
    requires |st.stack| > 0
  {
    st.(stack := st.stack[|st.stack| - 1 := s])
  }

  function SetLayer(st: Recorder, l: Layer): Recorder
    requires |st.layers| > 0
  {
    st.(layers := st.layers[|st.layers| - 1 := l])
  }

  function TopSink(st: Recorder): Sink
    requires |st.layers| > 0
  {
    Sink(st.Layer(), st.rtree)
  }

  function Drain(st: Recorder, k: Sink): Recorder
    requires |st.layers| > 0
  {
    SetLayer(st, k.layer).(rtree := k.rtree)
  }

  // Pushes the save record of the top entry if that has been put off until now.
  function CheckDeferredSave(st: Recorder): Recorder
    requires |st.stack| > 0
  {
    if st.Top().deferred then
      var s := Push(st, SaveRec(0, 0));
      SetTop(s, st.Top().(deferred := false, saveIndex := |st.records|, saveDepth := s.depth))
    else st
  }

  // ---------- saving and restoring ----------

  function DeferredEntry(parent: Save): Save {
    Save(false, true, parent.nop, parent.validClip, 0, 0, parent.global, parent.local)
  }

  function SaveStep(st: Recorder): Recorder
    requires |st.stack| > 0
  {
    st.(stack := st.stack + [DeferredEntry(st.Top())])
  }

  function LayerFlags(withPaint: bool): Flags {
    if withPaint then SAVE_LAYER_WITH_PAINT_FLAGS else SAVE_LAYER_FLAGS
  }

  // The tracker of the new layer entry: filters and caller bounds change its cull rectangle.
  function LayerTracker(e: Engine, t: Tracker, filter: Option<ImageFilter>, bounds: Rect, fromCaller: bool): Tracker {
    var reset :=
      if filter.None? then t
      else
        var input := e.inputBounds(filter.value, t.matrix, t.cull);
        t.(cull := if input.None? then MAX_CULL else if input.value.IsEmpty() then EMPTY else input.value);
    if fromCaller then reset.(cull := e.clipCull(reset, Shape(RectShape, bounds, 0), Intersect, false)) else reset
  }

  function NewLayer(filter: Option<ImageFilter>, rtree: Option<seq<Leaf>>, incompatible: bool): Layer {
    Layer(filter, if rtree.Some? then |rtree.value| else 0, EMPTY, [], false, CLEAR, incompatible, false, false, false)
  }

  // What a saveLayer notes in the summary of the layer around it.
  function NoteLayer(l: Layer, p: Paint, compatible: bool, withPaint: bool, backdrop: bool, result: OpResult): Layer {
    l.(backdrop := l.backdrop || backdrop)
    .Noted(if withPaint then p.blend else SRC_OVER, result == AffectsAll, withPaint && !compatible)
  }

  // A layer that changes pixels outside its content is recorded with the whole clip as its bounds.
  predicate LayerFloods(p: Paint, withPaint: bool, backdrop: bool) {
    backdrop || (withPaint && !NopsOnTransparency(p))
  }

  function OuterSink(st: Recorder, withPaint: bool, backdrop: bool, result: OpResult): Sink
    requires |st.stack| > 0 && |st.layers| > 0
  {
    var k := Sink(NoteLayer(st.Layer(), st.paint, st.compatible, withPaint, backdrop, result), st.rtree);
    if LayerFloods(st.paint, withPaint, backdrop) then AccumulateUnbounded(st.Top(), k, |st.records|).0 else k
  }

  function LayerFilter(st: Recorder, withPaint: bool): Option<ImageFilter> {
    if withPaint then st.paint.imageFilter else None
  }

  // What a saveLayer that makes a layer pushes: an entry, a summary and a record.

  function LayerEntry(e: Engine, st: Recorder, bounds: Rect, withPaint: bool, fromCaller: bool): Save
    requires |st.stack| > 0
  {
    Save(true, false, false, false, st.depth, |st.records|,
         LayerTracker(e, st.Top().global, LayerFilter(st, withPaint), bounds, fromCaller), Tracker(IDENTITY, MAX_CULL))
  }

  function InnerLayer(st: Recorder, withPaint: bool, rtree: Option<seq<Leaf>>): Layer {
    var filter := LayerFilter(st, withPaint);
    NewLayer(filter, rtree, withPaint && (!st.compatible || filter.Some?))
  }

  function OpeningRecord(bounds: Rect, withPaint: bool, fromCaller: bool, backdrop: Option<Backdrop>): Record {
    LayerRec(LayerOptions(withPaint, fromCaller, false, false, false, false),
             if fromCaller then bounds else EMPTY, CLEAR, backdrop, 0, 0)
  }

  function WithEntry(st: Recorder, s: Save, l: Layer): Recorder {
    st.(stack := st.stack + [s], layers := st.layers + [l])
  }

  function LayerOpened(e: Engine, st: Recorder, bounds: Rect, withPaint: bool, fromCaller: bool,
                       backdrop: Option<Backdrop>, result: OpResult): Recorder
    requires |st.stack| > 0 && |st.layers| > 0
  {
    var outer := Drain(st, OuterSink(st, withPaint, backdrop.Some?, result));
    Push(WithEntry(outer, LayerEntry(e, st, bounds, withPaint, fromCaller), InnerLayer(st, withPaint, outer.rtree)),
         OpeningRecord(bounds, withPaint, fromCaller, backdrop))
  }

  function LayerStep(e: Engine, st: Recorder, bounds: Rect, withPaint: bool, fromCaller: bool,
                     backdrop: Option<Backdrop>): Recorder
    requires |st.stack| > 0 && |st.layers| > 0
  {
    var result := PaintResult(st.Top().nop, st.paint, LayerFlags(withPaint));
    if result == NoEffect then
      var s := SaveStep(st);
      SetTop(s, s.Top().(nop := true))
    else
      LayerOpened(e, st, bounds, withPaint, fromCaller, backdrop, result)
  }

  // The save record as its restore leaves it.
  function Patched(r: Record, restoreIndex: nat, contentDepth: nat, l: Layer): Record {
    match r
    case SaveRec(_, _) => SaveRec(restoreIndex, contentDepth)
    case LayerRec(o, user, _, backdrop, _, _) =>
      var content := ContentBounds(r, l);
      LayerRec(o.(clipped := o.clipped || ClipsContent(r, l), hasBackdrop := l.backdrop,
                  distributesOpacity := l.GroupOpacity(), unbounded := l.unbounded),
               content, l.maxBlend, backdrop, restoreIndex, contentDepth)
    case _ => r
  }

  predicate ClipsContent(r: Record, l: Layer) {
    r.LayerRec? && r.options.fromCaller && !Box(l.rects).IsEmpty() && !Contains(r.bounds, Box(l.rects))
  }

  // The bounds of the layer's content, clipped by the bounds that the caller gave.
  function ContentBounds(r: Record, l: Layer): Rect {
    if ClipsContent(r, l) then Intersection(Box(l.rects), r.bounds) else Box(l.rects)
  }

  function AdjustLeaf(e: Engine, filter: ImageFilter, t: Tracker, r: Rect): Rect {
    var mapped := e.mapDevice(filter, t.matrix, r);
    Intersection(if mapped.Some? then mapped.value else t.cull, t.cull)
  }

  // The rectangles of a filtered layer as they appear after the filter; those that vanish are dropped.
  function AdjustLeaves(e: Engine, filter: ImageFilter, t: Tracker, leaves: seq<Leaf>): seq<Leaf> {
    if leaves == [] then []
    else
      var last := leaves[|leaves| - 1];
      var r := AdjustLeaf(e, filter, t, last.rect);
      AdjustLeaves(e, filter, t, leaves[..|leaves| - 1]) + if r.IsEmpty() then [] else [Leaf(r, last.id)]
  }

  predicate Floods(e: Engine, filter: ImageFilter, t: Tracker, leaves: seq<Leaf>) {
    exists i :: 0 <= i < |leaves| && e.mapDevice(filter, t.matrix, leaves[i].rect).None?
  }

  function AccumulateLocal(s: Save, l: Layer, r: Rect): Layer {
    var local := MapAndClip(s.local, r);
    if r.IsEmpty() || local.IsEmpty() then l else l.(rects := l.rects + [local])
  }

  // Passes the bounds of a closing layer to its parent.
  function TransferBounds(e: Engine, parent: Save, outer: Layer, inner: Layer, rtree: Option<seq<Leaf>>,
                          content: Rect, id: nat): Sink
  {
    if inner.filter.None? then
      Sink(AccumulateLocal(parent, outer, content).(globalBox := Union(outer.globalBox, inner.globalBox)), rtree)
    else
      var filter, t := inner.filter.value, parent.global;
      var device := AdjustDevice(e, filter, t, outer, inner, rtree);
      var mapped := e.mapLocal(filter, content);
      if device.1 || (!content.IsEmpty() && mapped.None?) then
        AccumulateUnbounded(parent, device.0, id).0
      else
        device.0.(layer := AccumulateLocal(parent, device.0.layer,
                                           if content.IsEmpty() then content else mapped.value))
  }

  // The device bounds of a closing filtered layer, and whether the filter floods the parent.
  function AdjustDevice(e: Engine, filter: ImageFilter, t: Tracker, outer: Layer, inner: Layer,
                        rtree: Option<seq<Leaf>>): (Sink, bool)
  {
    if rtree.Some? then
      var start := if inner.rtreeStart <= |rtree.value| then inner.rtreeStart else |rtree.value|;
      (Sink(outer, Some(rtree.value[..start] + AdjustLeaves(e, filter, t, rtree.value[start..]))),
       Floods(e, filter, t, rtree.value[start..]))
    else if inner.globalBox.IsEmpty() then
      (Sink(outer, None), false)
    else
      var mapped := e.mapDevice(filter, t.matrix, inner.globalBox);
      if mapped.None? then (Sink(outer, None), true)
      else (Sink(outer.(globalBox := Union(outer.globalBox, Intersection(mapped.value, t.cull))), None), false)
  }

  function PatchRecord(rs: seq<Record>, i: nat, restoreIndex: nat, contentDepth: nat, l: Layer): seq<Record> {
    if i < |rs| then rs[i := Patched(rs[i], restoreIndex, contentDepth, l)] else rs
  }

  // Everything a layer's restore does before its restore record is pushed.
  function CloseLayer(e: Engine, st: Recorder): Recorder
    requires |st.stack| > 1 && |st.layers| > 1
  {
    var top, n := st.Top(), |st.layers|;
    var content := if top.saveIndex < |st.records| then ContentBounds(st.records[top.saveIndex], st.Layer()) else EMPTY;
    var k := TransferBounds(e, st.stack[|st.stack| - 2], st.layers[n - 2], st.Layer(), st.rtree, content, |st.records|);
    st.(layers := st.layers[..n - 2] + [k.layer], rtree := k.rtree, depth := st.depth + st.cost)
  }

  function RestoreStep(e: Engine, st: Recorder): Recorder
    requires st.Sized()
  {
    if |st.stack| <= 1 then st
    else
      var top, under := st.Top(), st.stack[..|st.stack| - 1];
      if top.deferred && !top.isLayer then st.(stack := under)
      else
        LayerCountPositive(under);
        var patched := PatchRecord(st.records, top.saveIndex, |st.records|,
                                   if st.depth >= top.saveDepth then st.depth - top.saveDepth else 0, st.Layer());
        var closed := if top.isLayer then CloseLayer(e, st) else st;
        Push(closed.(records := patched, stack := under), RestoreRec)
  }

  // ---------- transforms and clips ----------

  function MatrixOf(t: Transform): Matrix
    requires !t.Reset?
  {
    match t
    case Translate(tx, ty) => Matrix(Axis(1.0, tx), Axis(1.0, ty))
    case ScaleBy(sx, sy) => Matrix(Axis(sx, 0.0), Axis(sy, 0.0))
    case Affine(m) => m
  }

  // A pure translation is recorded as one, whichever call it came from.
  function Normal(t: Transform): Transform {
    if t.Affine? && t.m.x.scale == 1.0 && t.m.y.scale == 1.0 then Translate(t.m.x.shift, t.m.y.shift) else t
  }

  predicate Trivial(t: Transform) {
    match t
    case Translate(tx, ty) => tx == 0.0 && ty == 0.0
    case ScaleBy(sx, sy) => sx == 1.0 && sy == 1.0
    case _ => false
  }

  // A reset makes the global matrix the identity and multiplies the layer's matrix by the
  // inverse of the global one, or collapses it when there is no inverse.
  function LocalAfter(global: Matrix, local: Matrix, t: Transform): Matrix {
    if !t.Reset? then Compose(local, MatrixOf(t))
    else if global.Invertible() then Compose(local, Inverse(global))
    else Matrix(Axis(0.0, 0.0), Axis(0.0, 0.0))
  }

  function GlobalAfter(global: Matrix, t: Transform): Matrix {
    if t.Reset? then IDENTITY else Compose(global, MatrixOf(t))
  }

  function Transformed(s: Save, t: Transform): Save {
    s.(local := s.local.(matrix := LocalAfter(s.global.matrix, s.local.matrix, t)),
       global := s.global.(matrix := GlobalAfter(s.global.matrix, t)))
  }

  function TransformStep(st: Recorder, given: Transform): Recorder
    requires |st.stack| > 0
  {
    var t := Normal(given);
    if Trivial(t) then st
    else
      var s := Push(CheckDeferredSave(st), TransformRec(t));
      SetTop(s, Transformed(s.Top(), t))
  }

  predicate RedundantClip(e: Engine, s: Save, shape: Shape, op: ClipOp) {
    s.validClip && op == Intersect && shape.kind != PathShape && e.coversCull(s.local, shape)
  }

  function Clipped(e: Engine, s: Save, shape: Shape, op: ClipOp, aa: bool): Save {
    s.(global := s.global.(cull := e.clipCull(s.global, shape, op, aa)),
       local := s.local.(cull := e.clipCull(s.local, shape, op, aa)))
  }

  function ClipStep(e: Engine, st: Recorder, shape: Shape, op: ClipOp, aa: bool): Recorder
    requires |st.stack| > 0
  {
    var top := st.Top();
    if top.nop || RedundantClip(e, top, shape, op) then st
    else
      var clipped := Clipped(e, top, shape, op, aa);
      if clipped.global.cull.IsEmpty() || clipped.local.cull.IsEmpty() then
        SetTop(st, clipped.(nop := true))
      else
        Push(CheckDeferredSave(SetTop(st, clipped.(validClip := true))), ClipRec(shape, op, aa))
  }

  // ---------- drawing ----------

  function AttrStep(st: Recorder, a: Attr): Recorder {
    if SetAttr(st.paint, a) == st.paint then st
    else
      var p := SetAttr(st.paint, a);
      var cost := if a.MaskFilterAttr? then p.DepthCost() else st.cost;
      var compatible :=
        if a.InvertAttr? || a.BlendAttr? || a.SourceAttr? || a.ImageFilterAttr? || a.ColorFilterAttr?
        then p.OpacityCompatible() else st.compatible;
      Push(st.(paint := p, cost := cost, compatible := compatible), SetAttrRec(a))
  }

  function EffectPaint(p: Paint, d: Op): Paint { if d.ownPaint.Some? then d.ownPaint.value else p }

  function ModeOf(p: Paint, d: Op): BlendMode { if d.mode.Some? then d.mode.value else p.blend }

  predicate Incompatible(p: Paint, compatible: bool, d: Op) {
    match d.opacity
    case ByPaint => !compatible
    case Always => false
    case Never => true
    case Hairline => !compatible || !(p.style == Fill || p.width > 0.0)
    case ByMode => ModeOf(p, d) != SRC_OVER
  }

  function NoteDraw(l: Layer, p: Paint, compatible: bool, d: Op, result: OpResult): Layer {
    l.(overlapForced := l.overlapForced || d.overlaps)
    .Noted(ModeOf(p, d), result == AffectsAll, Incompatible(p, compatible, d))
  }

  function DrawStep(e: Engine, st: Recorder, d: Op): Recorder
    requires |st.stack| > 0 && |st.layers| > 0
  {
    var result := PaintResult(st.Top().nop, EffectPaint(st.paint, d), d.flags);
    if result == NoEffect then st
    else
      var acc := AccumulateArea(st.Top(), TopSink(st), |st.records|, Area(e, st.paint, d));
      if !acc.1 then Drain(st, acc.0)
      else
        Push(Drain(st, acc.0.(layer := NoteDraw(acc.0.layer, st.paint, st.compatible, d, result))), DrawRec(d))
  }

  // The engine's threshold below which an opacity counts as zero.
  const NEARLY_ZERO: real := 1.0 / 4096.0

  function NoteList(l: Layer, list: DisplayList): Layer {
    l.(backdrop := l.backdrop || list.rootBackdrop)
    .Noted(list.maxRootBlend, list.modifiesTransparentBlack, !list.groupOpacity)
  }

  predicate SkipsList(list: DisplayList, opacity: real) {
    opacity <= NEARLY_ZERO || list.opCount == 0 || list.bounds.IsEmpty()
  }

  function ListStep(e: Engine, st: Recorder, list: DisplayList, opacity: real): Recorder
    requires |st.stack| > 0 && |st.layers| > 0
  {
    if SkipsList(list, opacity) || st.Top().nop then st
    else
      var acc := AccumulateList(e, st.Top(), TopSink(st), |st.records|, list);
      if !acc.1 then Drain(st, acc.0)
      else
        var s := Push(Drain(st, acc.0.(layer := NoteList(acc.0.layer, list))), ListRec(list, Min(opacity, 1.0)));
        s.(depth := s.depth + list.totalDepth, nested := s.nested + (list.OpCount(true) - 1))
  }

  // ---------- whole runs ----------

  function Step(e: Engine, st: Recorder, c: Call): Recorder
    requires st.Sized()
  {
    match c
    case AttrCall(a) => AttrStep(st, a)
    case SaveCall => SaveStep(st)
    case LayerCall(b, withPaint, fromCaller, backdrop) =>
      LayerCountPositive(st.stack);
      LayerStep(e, st, b, withPaint, fromCaller, backdrop)
    case RestoreCall => RestoreStep(e, st)
    case TransformCall(t) => TransformStep(st, t)
    case ClipCall(s, op, aa) => ClipStep(e, st, s, op, aa)
    case DrawCall(d) => LayerCountPositive(st.stack); DrawStep(e, st, d)
    case ListCall(l, o) => LayerCountPositive(st.stack); ListStep(e, st, l, o)
  }

  lemma RestoreSized(e: Engine, st: Recorder)
    requires st.Sized()
    ensures RestoreStep(e, st).Sized()
  {
    if |st.stack| > 1 {
      var under := st.stack[..|st.stack| - 1];
      LayerCountPositive(under);
      assert LayerCount(st.stack) == LayerCount(under) + if st.Top().isLayer then 1 else 0;
      assert RestoreStep(e, st).stack == under;
    }
  }

  lemma LayerSized(e: Engine, st: Recorder, b: Rect, withPaint: bool, fromCaller: bool, bd: Option<Backdrop>)
    requires st.Sized() && |st.layers| > 0
    ensures LayerStep(e, st, b, withPaint, fromCaller, bd).Sized()
  {
    hide PaintResult, OuterSink, LayerTracker, LayerCount;
    var st' := LayerStep(e, st, b, withPaint, fromCaller, bd);
    LayerCountAppend(st.stack, st'.Top());
    assert st'.stack == st.stack + [st'.Top()];
  }

  // Replacing the top entry by one of the same kind.
  lemma SetTopSized(st: Recorder, st': Recorder)
    requires st.Sized() && |st'.stack| == |st.stack| && |st'.layers| == |st.layers|
    requires st'.stack == st.stack[|st.stack| - 1 := st'.Top()] && st'.Top().isLayer == st.Top().isLayer
    ensures st'.Sized()
  {
    LayerCountSetTop(st.stack, st'.Top());
  }

  lemma TransformSized(st: Recorder, t: Transform)
    requires st.Sized()
    ensures TransformStep(st, t).Sized()
  {
    hide LayerCount, LocalAfter, GlobalAfter;
    SetTopSized(st, TransformStep(st, t));
  }

  lemma ClipSized(e: Engine, st: Recorder, s: Shape, op: ClipOp, aa: bool)
    requires st.Sized()
    ensures ClipStep(e, st, s, op, aa).Sized()
  {
    hide LayerCount;
    SetTopSized(st, ClipStep(e, st, s, op, aa));
  }

  lemma DrawSized(e: Engine, st: Recorder, c: Call)
    requires st.Sized() && |st.layers| > 0
    ensures c.DrawCall? ==> DrawStep(e, st, c.draw).Sized()
    ensures c.ListCall? ==> ListStep(e, st, c.list, c.opacity).Sized()
  {
    hide LayerCount, AccumulateArea, AccumulateList, NoteDraw, NoteList, PaintResult;
  }

  lemma StepSized(e: Engine, st: Recorder, c: Call)
    requires st.Sized()
    ensures Step(e, st, c).Sized()
  {
    hide LayerCount, TransformStep, ClipStep, DrawStep, ListStep, LayerStep, RestoreStep;
    LayerCountPositive(st.stack);
    match c {
      case AttrCall(a) =>
      case SaveCall => LayerCountAppend(st.stack, DeferredEntry(st.Top()));
      case LayerCall(b, withPaint, fromCaller, backdrop) => LayerSized(e, st, b, withPaint, fromCaller, backdrop);
      case RestoreCall => RestoreSized(e, st);
      case TransformCall(t) => TransformSized(st, t);
      case ClipCall(s, op, aa) => ClipSized(e, st, s, op, aa);
      case _ => DrawSized(e, st, c);
    }
  }

  function Run(e: Engine, st: Recorder, calls: seq<Call>): (r: Recorder)
    requires st.Sized()
    ensures r.Sized()
  {
    if calls == [] then st
    else
      var s := Run(e, st, calls[..|calls| - 1]);
      StepSized(e, s, calls[|calls| - 1]);
      Step(e, s, calls[|calls| - 1])
  }

  function Start(cull: Rect, prepareRTree: bool): (st: Recorder)
    ensures st.Sized()
  {
    var c := if cull.IsEmpty() then EMPTY else cull;
    var root := Save(true, false, c.IsEmpty(), false, 0, 0, Tracker(IDENTITY, c), Tracker(IDENTITY, c));
    assert LayerCount([root]) == 1 by { LayerCountAppend([], root); assert [] + [root] == [root]; }
    Recorder([], [root], [NewLayer(None, None, false)], 0, 0, 0, 1, DefaultPaint(BLACK), true,
             if prepareRTree then Some([]) else None)
  }

  function Finish(e: Engine, st: Recorder): (r: Recorder)
    requires st.Sized()
    ensures r.Sized() && |r.stack| == 1
    decreases |st.stack|
  {
    if |st.stack| <= 1 then st
    else
      StepSized(e, st, RestoreCall);
      Finish(e, RestoreStep(e, st))
  }

  lemma {:induction false} RunConcat(e: Engine, st: Recorder, x: seq<Call>, y: seq<Call>)
    requires st.Sized()
    ensures Run(e, st, x + y) == Run(e, Run(e, st, x), y)
  {
    hide Step;
    if y == [] {
      assert x + y == x;
    } else {
      RunConcat(e, st, x, y[..|y| - 1]);
      assert (x + y)[..|x + y| - 1] == x + y[..|y| - 1];
    }
  }

  // Closing what is left open is a run of restores.
  lemma {:induction false} FinishIsRun(e: Engine, st: Recorder)
    requires st.Sized()
    ensures Finish(e, st) == Run(e, st, Restores(|st.stack| - 1))
    decreases |st.stack|
  {
    hide RestoreStep;
    if |st.stack| > 1 {
      StepSized(e, st, RestoreCall);
      var next := RestoreStep(e, st);
      assert |next.stack| == |st.stack| - 1 by { RestoreShrinks(e, st); }
      FinishIsRun(e, next);
      RunConcat(e, st, [RestoreCall], Restores(|st.stack| - 2));
      assert Restores(|st.stack| - 1) == [RestoreCall] + Restores(|st.stack| - 2);
      assert Run(e, st, [RestoreCall]) == Step(e, Run(e, st, []), RestoreCall);
    }
  }

  lemma RestoreShrinks(e: Engine, st: Recorder)
    requires st.Sized() && |st.stack| > 1
    ensures |RestoreStep(e, st).stack| == |st.stack| - 1
  {
    hide CloseLayer, PatchRecord;
  }

  lemma RestoreNothing(e: Engine, st: Recorder)
    requires st.Sized() && |st.stack| <= 1
    ensures RestoreStep(e, st) == st
  {
  }

  // What the calls do to the stack, as far as matrices go.

  lemma LayerStack(e: Engine, st: Recorder, c: Call)
    requires |st.stack| > 0 && |st.layers| > 0 && c.LayerCall?
    ensures var st' := LayerStep(e, st, c.bounds, c.withPaint, c.fromCaller, c.backdrop);
            && |st'.stack| > 0 && st'.stack == st.stack + [st'.Top()]
            && st'.Top().global.matrix == st.Top().global.matrix
            && st'.Top().local.matrix == if st'.Top().isLayer then IDENTITY else st.Top().local.matrix
  {
    hide PaintResult, OuterSink;
  }

  lemma ClipStack(e: Engine, st: Recorder, c: Call)
    requires |st.stack| > 0 && c.ClipCall?
    ensures var st' := ClipStep(e, st, c.shape, c.op, c.aa);
            && |st'.stack| > 0 && st'.stack == st.stack[|st.stack| - 1 := st'.Top()]
            && st'.Top().global.matrix == st.Top().global.matrix && st'.Top().local.matrix == st.Top().local.matrix
            && st'.Top().isLayer == st.Top().isLayer
  {
    hide RedundantClip, Deeper;
  }

  lemma DrawsKeepStack(e: Engine, st: Recorder, c: Call)
    requires st.Sized() && (c.AttrCall? || c.DrawCall? || c.ListCall?)
    ensures Step(e, st, c).stack == st.stack
  {
    hide PaintResult, AccumulateArea, AccumulateList, NoteDraw, NoteList, SkipsList, LayerCount, SetAttr;
    LayerCountPositive(st.stack);
  }

  lemma RestorePaint(e: Engine, st: Recorder)
    requires st.Sized()
    ensures RestoreStep(e, st).paint == st.paint
    ensures |st.stack| > 1 ==> RestoreStep(e, st).stack == st.stack[..|st.stack| - 1]
  {
    hide TransferBounds, Patched, ContentBounds;
    if |st.stack| > 1 { LayerCountPositive(st.stack[..|st.stack| - 1]); }
  }

  lemma RunAppend(e: Engine, st: Recorder, calls: seq<Call>, c: Call)
    requires st.Sized()
    ensures Run(e, st, calls + [c]) == Step(e, Run(e, st, calls), c)
  {
    hide Step;
    assert (calls + [c])[..|calls|] == calls;
  }

  lemma FinishDone(e: Engine, st: Recorder)
    requires st.Sized() && |st.stack| == 1
    ensures Finish(e, st) == st
  {
  }

  function Restores(n: nat): seq<Call> { seq(n, i requires 0 <= i < n => RestoreCall) }

  function LeafRects(leaves: seq<Leaf>): seq<Rect> { seq(|leaves|, i requires 0 <= i < |leaves| => leaves[i].rect) }

  function Built(st: Recorder): DisplayList
    requires |st.layers| > 0
  {
    var root := st.layers[0];
    DisplayList(st.records, st.count, st.nested, st.depth,
                if st.rtree.Some? then Box(LeafRects(st.rtree.value)) else root.globalBox,
                root.GroupOpacity(), root.affects, root.maxBlend, root.backdrop, root.unbounded, st.rtree)
  }

  lemma BuiltRecords(st: Recorder)
    requires |st.layers| > 0
    ensures Built(st).records == st.records
  {
  }

  function Build(e: Engine, cull: Rect, prepareRTree: bool, calls: seq<Call>): DisplayList {
    var st := Finish(e, Run(e, Start(cull, prepareRTree), calls));
    LayerCountPositive(st.stack);
    Built(st)
  }
}
