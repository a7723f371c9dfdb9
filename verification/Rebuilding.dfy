/** Exactly when a built list is a fixed point. Rebuilding gives the same list but for the marks of
    unbounded layers; those come out as what was recorded says, so a mark that was only made by a
    dropped flood is lost. */
module Rebuilding {
  import opened Geometry
  import opened Painting
  import opened DisplayLists
  import opened Recorder
  import opened Emission
  import opened Contents
  import opened Fixpoint
  import LayerSummaries
  import Brackets

  // ---------- equal but for the marks ----------

  ghost predicate LayerAlike(l: Layer, l': Layer) { l' == l.(unbounded := l'.unbounded) }

  ghost predicate LayersAlike(ls: seq<Layer>, ls': seq<Layer>) {
    |ls| == |ls'| && forall i :: 0 <= i < |ls| ==> LayerAlike(ls[i], ls'[i])
  }

  ghost predicate RecordAlike(r: Record, r': Record) {
    r == r' || (r.LayerRec? && r'.LayerRec? && r' == r.(options := r.options.(unbounded := r'.options.unbounded)))
  }

  ghost predicate RecordsAlike(rs: seq<Record>, rs': seq<Record>) {
    |rs| == |rs'| && forall i :: 0 <= i < |rs| ==> RecordAlike(rs[i], rs'[i])
  }

  ghost predicate Alike(a: Recorder, b: Recorder) {
    && b == a.(layers := b.layers, records := b.records)
    && LayersAlike(a.layers, b.layers) && RecordsAlike(a.records, b.records)
  }

  ghost predicate ListsAlike(l: DisplayList, l': DisplayList) {
    l' == l.(records := l'.records, rootUnbounded := l'.rootUnbounded) && RecordsAlike(l.records, l'.records)
  }

  ghost predicate SinkAlike(k: Sink, k': Sink) { k.rtree == k'.rtree && LayerAlike(k.layer, k'.layer) }

  // ---------- every step looks past the marks ----------

  lemma AreaAlike(s: Save, k: Sink, k': Sink, id: nat, area: Option<Rect>)
    requires SinkAlike(k, k')
    ensures var x, y := AccumulateArea(s, k, id, area), AccumulateArea(s, k', id, area);
            x.1 == y.1 && SinkAlike(x.0, y.0)
  {
    hide MapAndClip, LocalCoverage;
  }

  lemma {:induction false} EachAlike(s: Save, k: Sink, k': Sink, id: nat, rs: seq<Rect>)
    requires SinkAlike(k, k')
    ensures var x, y := AccumulateEach(s, k, id, rs), AccumulateEach(s, k', id, rs); x.1 == y.1 && SinkAlike(x.0, y.0)
  {
    hide MapAndClip;
    if rs != [] { EachAlike(s, k, k', id, rs[..|rs| - 1]); }
  }

  lemma ListAlike(e: Engine, s: Save, k: Sink, k': Sink, id: nat, l: DisplayList)
    requires SinkAlike(k, k')
    ensures var x, y := AccumulateList(e, s, k, id, l), AccumulateList(e, s, k', id, l);
            x.1 == y.1 && SinkAlike(x.0, y.0)
  {
    hide AccumulateEach, AccumulateUnbounded, AccumulateBounds;
    AreaAlike(s, k, k', id, if l.rootUnbounded then None else Some(l.bounds));
    if l.rtree.Some? { EachAlike(s, k, k', id, e.consolidate(l.rtree.value, LocalCoverage(s.global))); }
  }

  lemma TopAlike(a: Recorder, b: Recorder)
    requires Alike(a, b) && |a.layers| > 0
    ensures |b.layers| == |a.layers| && LayerAlike(a.Layer(), b.Layer()) && SinkAlike(TopSink(a), TopSink(b))
    ensures b.stack == a.stack && b.paint == a.paint && b.rtree == a.rtree && |b.records| == |a.records|
  {
  }

  lemma DrainAlike(a: Recorder, b: Recorder, k: Sink, k': Sink)
    requires Alike(a, b) && |a.layers| > 0 && SinkAlike(k, k')
    ensures |b.layers| > 0 && Alike(Drain(a, k), Drain(b, k'))
  {
  }

  lemma PushAlike(a: Recorder, b: Recorder, r: Record)
    requires Alike(a, b)
    ensures Alike(Push(a, r), Push(b, r))
  {
  }

  lemma DrawAlike(e: Engine, a: Recorder, b: Recorder, d: Op)
    requires Alike(a, b) && |a.stack| > 0 && |a.layers| > 0
    ensures |b.layers| > 0 && Alike(DrawStep(e, a, d), DrawStep(e, b, d))
            && RecordsDraw(e, a, d) == RecordsDraw(e, b, d)
  {
    hide PaintResult, AccumulateArea, Area, Alike, Incompatible;
    TopAlike(a, b);
    AreaAlike(a.Top(), TopSink(a), TopSink(b), |a.records|, Area(e, a.paint, d));
    if DrawsAnything(a, d) {
      var x, y := DrawAccumulated(e, a, d).0, DrawAccumulated(e, b, d).0;
      DrainAlike(a, b, x, y);
      var result := PaintResult(a.Top().nop, EffectPaint(a.paint, d), d.flags);
      var x', y' := x.(layer := NoteDraw(x.layer, a.paint, a.compatible, d, result)),
                    y.(layer := NoteDraw(y.layer, a.paint, a.compatible, d, result));
      DrainAlike(a, b, x', y');
      PushAlike(Drain(a, x'), Drain(b, y'), DrawRec(d));
      SameCache(a, b);
    }
  }

  lemma SameCache(a: Recorder, b: Recorder)
    requires Alike(a, b)
    ensures b.compatible == a.compatible && b.cost == a.cost && b.depth == a.depth && b.nested == a.nested
  {
  }

  lemma ListStepAlike(e: Engine, a: Recorder, b: Recorder, l: DisplayList, o: real)
    requires Alike(a, b) && |a.stack| > 0 && |a.layers| > 0
    ensures |b.layers| > 0 && Alike(ListStep(e, a, l, o), ListStep(e, b, l, o))
            && RecordsList(e, a, l, o) == RecordsList(e, b, l, o)
  {
    hide AccumulateList, SkipsList;
    TopAlike(a, b);
    ListAlike(e, a.Top(), TopSink(a), TopSink(b), |a.records|, l);
    if !SkipsList(l, o) && !a.Top().nop {
      var x, y := ListAccumulated(e, a, l).0, ListAccumulated(e, b, l).0;
      DrainAlike(a, b, x, y);
      var x', y' := x.(layer := NoteList(x.layer, l)), y.(layer := NoteList(y.layer, l));
      DrainAlike(a, b, x', y');
      PushAlike(Drain(a, x'), Drain(b, y'), ListRec(l, Min(o, 1.0)));
    }
  }

  lemma OuterAlike(a: Recorder, b: Recorder, c: Call)
    requires Alike(a, b) && |a.stack| > 0 && |a.layers| > 0 && c.LayerCall?
    ensures |b.layers| > 0 && SinkAlike(OuterOf(a, c), OuterOf(b, c))
  {
    hide PaintResult, AccumulateUnbounded, LayerFloods, Alike;
    TopAlike(a, b);
    SameCache(a, b);
    var result := PaintResult(a.Top().nop, a.paint, LayerFlags(c.withPaint));
    var noted, noted' := NoteLayer(a.Layer(), a.paint, a.compatible, c.withPaint, c.backdrop.Some?, result),
                         NoteLayer(b.Layer(), a.paint, a.compatible, c.withPaint, c.backdrop.Some?, result);
    AreaAlike(a.Top(), Sink(noted, a.rtree), Sink(noted', a.rtree), |a.records|, None);
  }

  lemma LayerStepAlike(e: Engine, a: Recorder, b: Recorder, c: Call)
    requires Alike(a, b) && |a.stack| > 0 && |a.layers| > 0 && c.LayerCall?
    ensures |b.layers| > 0 && Alike(LayerStep(e, a, c.bounds, c.withPaint, c.fromCaller, c.backdrop),
                                    LayerStep(e, b, c.bounds, c.withPaint, c.fromCaller, c.backdrop))
  {
    TopAlike(a, b);
    if MakesLayer(a, c.withPaint) {
      hide OuterOf, LayerTracker, LayerStep, Alike, Drain, WithEntry, Push, PaintResult;
      SameCache(a, b);
      var x, y := OuterOf(a, c), OuterOf(b, c);
      LayerOpens(e, a, c);
      LayerOpens(e, b, c);
      OuterAlike(a, b, c);
      DrainAlike(a, b, x, y);
      var s, l := LayerEntry(e, a, c.bounds, c.withPaint, c.fromCaller), InnerLayer(a, c.withPaint, x.rtree);
      OpenAlike(Drain(a, x), Drain(b, y), s, l);
      PushAlike(WithEntry(Drain(a, x), s, l), WithEntry(Drain(b, y), s, l),
                OpeningRecord(c.bounds, c.withPaint, c.fromCaller, c.backdrop));
    } else {
      hide PaintResult, OuterSink, LayersAlike, RecordsAlike;
    }
  }

  lemma OpenAlike(a: Recorder, b: Recorder, s: Save, l: Layer)
    requires Alike(a, b)
    ensures Alike(WithEntry(a, s, l), WithEntry(b, s, l))
  {
  }

  // ---------- closing a layer ----------

  lemma ContentAlike(r: Record, r': Record, l: Layer, l': Layer)
    requires RecordAlike(r, r') && LayerAlike(l, l')
    ensures ContentBounds(r, l) == ContentBounds(r', l')
  {
    hide Box;
  }

  lemma PatchedAlike(r: Record, r': Record, l: Layer, l': Layer, restoreIndex: nat, contentDepth: nat)
    requires RecordAlike(r, r') && LayerAlike(l, l')
    ensures RecordAlike(Patched(r, restoreIndex, contentDepth, l), Patched(r', restoreIndex, contentDepth, l'))
    ensures r == r' ==> (Patched(r, restoreIndex, contentDepth, l) == Patched(r', restoreIndex, contentDepth, l')
                         <==> (r.LayerRec? ==> l.unbounded == l'.unbounded))
  {
    hide Box, Overlapping;
  }

  lemma AdjustAlike(e: Engine, filter: ImageFilter, t: Tracker, outer: Layer, outer': Layer, inner: Layer,
                    inner': Layer, rtree: Option<seq<Leaf>>)
    requires LayerAlike(outer, outer') && LayerAlike(inner, inner')
    ensures var x := AdjustDevice(e, filter, t, outer, inner, rtree);
            var y := AdjustDevice(e, filter, t, outer', inner', rtree);
            x.1 == y.1 && SinkAlike(x.0, y.0)
  {
    hide AdjustLeaves, Floods, Union, Intersection;
  }

  lemma TransferAlike(e: Engine, parent: Save, outer: Layer, outer': Layer, inner: Layer, inner': Layer,
                      rtree: Option<seq<Leaf>>, content: Rect, id: nat)
    requires LayerAlike(outer, outer') && LayerAlike(inner, inner')
    ensures SinkAlike(TransferBounds(e, parent, outer, inner, rtree, content, id),
                      TransferBounds(e, parent, outer', inner', rtree, content, id))
  {
    hide AdjustDevice, AccumulateUnbounded, MapAndClip;
    if inner.filter.Some? {
      AdjustAlike(e, inner.filter.value, parent.global, outer, outer', inner, inner', rtree);
      AreaAlike(parent, AdjustDevice(e, inner.filter.value, parent.global, outer, inner, rtree).0,
                AdjustDevice(e, inner.filter.value, parent.global, outer', inner', rtree).0, id, None);
    }
  }

  lemma CloseAlike(e: Engine, a: Recorder, b: Recorder)
    requires Alike(a, b) && |a.stack| > 1 && |a.layers| > 1
    ensures |b.layers| > 1 && Alike(CloseLayer(e, a), CloseLayer(e, b))
  {
    hide TransferBounds, ContentBounds;
    var top, n := a.Top(), |a.layers|;
    if top.saveIndex < |a.records| {
      ContentAlike(a.records[top.saveIndex], b.records[top.saveIndex], a.Layer(), b.Layer());
    }
    var content := if top.saveIndex < |a.records| then ContentBounds(a.records[top.saveIndex], a.Layer()) else EMPTY;
    TransferAlike(e, a.stack[|a.stack| - 2], a.layers[n - 2], b.layers[n - 2], a.Layer(), b.Layer(), a.rtree, content,
                  |a.records|);
  }

  lemma PatchAlike(rs: seq<Record>, rs': seq<Record>, i: nat, restoreIndex: nat, contentDepth: nat, l: Layer, l': Layer)
    requires RecordsAlike(rs, rs') && LayerAlike(l, l')
    ensures RecordsAlike(PatchRecord(rs, i, restoreIndex, contentDepth, l),
                         PatchRecord(rs', i, restoreIndex, contentDepth, l'))
  {
    hide Patched, RecordAlike;
    if i < |rs| { PatchedAlike(rs[i], rs'[i], l, l', restoreIndex, contentDepth); }
  }

  // A restore that closes a record: the layer first, then the record, then the push.
  function Restored(e: Engine, st: Recorder): Recorder
    requires st.Sized() && |st.stack| > 1
  {
    LayersAfter(e, st, RestoreCall);
    var closed := if st.Top().isLayer then CloseLayer(e, st) else st;
    closed.(records := PatchRecord(st.records, st.Top().saveIndex, |st.records|,
                                   if st.depth >= st.Top().saveDepth then st.depth - st.Top().saveDepth else 0,
                                   st.Layer()),
            stack := st.stack[..|st.stack| - 1])
  }

  lemma RestoreIs(e: Engine, st: Recorder)
    requires st.Sized() && |st.stack| > 1
    ensures RestoreStep(e, st) ==
            if st.Top().deferred && !st.Top().isLayer then st.(stack := st.stack[..|st.stack| - 1])
            else Push(Restored(e, st), RestoreRec)
  {
    hide CloseLayer, PatchRecord, LayerCount, Push;
  }

  lemma RestoreAlike(e: Engine, a: Recorder, b: Recorder)
    requires Alike(a, b) && a.Sized() && b.Sized()
    ensures Alike(RestoreStep(e, a), RestoreStep(e, b))
  {
    hide CloseLayer, PatchRecord, LayerCount, RecordsAlike, LayersAlike, Push, RestoreStep;
    if |a.stack| > 1 {
      LayersAfter(e, a, RestoreCall);
      TopAlike(a, b);
      RestoreIs(e, a);
      RestoreIs(e, b);
      PatchAlike(a.records, b.records, a.Top().saveIndex, |a.records|,
                 if a.depth >= a.Top().saveDepth then a.depth - a.Top().saveDepth else 0, a.Layer(), b.Layer());
      if a.Top().isLayer { CloseAlike(e, a, b); }
      PushAlike(Restored(e, a), Restored(e, b), RestoreRec);
    } else {
      assert RestoreStep(e, a) == a && RestoreStep(e, b) == b by { RestoreNothing(e, a); RestoreNothing(e, b); }
    }
  }

  lemma SetTopAlike(a: Recorder, b: Recorder, s: Save)
    requires Alike(a, b) && |a.stack| > 0
    ensures |b.stack| > 0 && Alike(SetTop(a, s), SetTop(b, s))
  {
  }

  lemma DeferredAlike(a: Recorder, b: Recorder)
    requires Alike(a, b) && |a.stack| > 0
    ensures |b.stack| > 0 && Alike(CheckDeferredSave(a), CheckDeferredSave(b))
  {
    hide LayersAlike, RecordsAlike;
    PushAlike(a, b, SaveRec(0, 0));
    assert |a.records| == |b.records| by { SameLength(a, b); }
    SetTopAlike(Push(a, SaveRec(0, 0)), Push(b, SaveRec(0, 0)), CheckDeferredSave(a).Top());
  }

  lemma SameLength(a: Recorder, b: Recorder)
    requires Alike(a, b)
    ensures |a.records| == |b.records| && b.stack == a.stack && b.paint == a.paint
  {
  }

  lemma AttrAlike(a: Recorder, b: Recorder, attr: Attr)
    requires Alike(a, b)
    ensures Alike(AttrStep(a, attr), AttrStep(b, attr))
  {
    hide LayersAlike, RecordsAlike, Push;
    SameCache(a, b);
    SameLength(a, b);
    if SetAttr(a.paint, attr) != a.paint {
      var p, cost, compatible := AttrStep(a, attr).paint, AttrStep(a, attr).cost, AttrStep(a, attr).compatible;
      hide Alike, SetAttr;
      AttrPushes(a, attr);
      AttrPushes(b, attr);
      PaintAlike(a, b, p, cost, compatible);
      PushAlike(a.(paint := p, cost := cost, compatible := compatible),
                b.(paint := p, cost := cost, compatible := compatible), SetAttrRec(attr));
    }
  }

  lemma AttrPushes(st: Recorder, attr: Attr)
    requires SetAttr(st.paint, attr) != st.paint
    ensures var p := SetAttr(st.paint, attr);
            var cost := if attr.MaskFilterAttr? then p.DepthCost() else st.cost;
            var compatible :=
              if attr.InvertAttr? || attr.BlendAttr? || attr.SourceAttr? || attr.ImageFilterAttr?
                  || attr.ColorFilterAttr?
              then p.OpacityCompatible() else st.compatible;
            AttrStep(st, attr) == Push(st.(paint := p, cost := cost, compatible := compatible), SetAttrRec(attr))
            && Push(st.(paint := p, cost := cost, compatible := compatible), SetAttrRec(attr)).paint == p
            && AttrStep(st, attr).cost == cost && AttrStep(st, attr).compatible == compatible
  {
  }

  lemma PaintAlike(a: Recorder, b: Recorder, p: Paint, cost: nat, compatible: bool)
    requires Alike(a, b)
    ensures Alike(a.(paint := p, cost := cost, compatible := compatible),
                  b.(paint := p, cost := cost, compatible := compatible))
  {
    hide LayersAlike, RecordsAlike;
  }

  lemma TransformAlike(a: Recorder, b: Recorder, t: Transform)
    requires Alike(a, b) && |a.stack| > 0
    ensures |b.stack| > 0 && Alike(TransformStep(a, t), TransformStep(b, t))
  {
    hide Alike, Transformed, Normal, Trivial, Push;
    SameLength(a, b);
    DeferredAlike(a, b);
    var x, y := CheckDeferredSave(a), CheckDeferredSave(b);
    var r := TransformRec(Normal(t));
    PushAlike(x, y, r);
    SameLength(Push(x, r), Push(y, r));
    assert |Push(x, r).stack| > 0 by { PushedStack(x, r); CheckedStack(a); }
    SetTopAlike(Push(x, r), Push(y, r), Transformed(Push(x, r).Top(), Normal(t)));
  }

  lemma CheckedStack(st: Recorder)
    requires |st.stack| > 0
    ensures |CheckDeferredSave(st).stack| == |st.stack|
  {
  }

  lemma ClipAlike(e: Engine, a: Recorder, b: Recorder, c: Call)
    requires Alike(a, b) && |a.stack| > 0 && c.ClipCall?
    ensures |b.stack| > 0 && Alike(ClipStep(e, a, c.shape, c.op, c.aa), ClipStep(e, b, c.shape, c.op, c.aa))
  {
    hide Alike, Clipped, RedundantClip, CheckDeferredSave, Push, SetTop;
    SameLength(a, b);
    var clipped := Clipped(e, a.Top(), c.shape, c.op, c.aa);
    SetTopAlike(a, b, clipped.(nop := true));
    SetTopAlike(a, b, clipped.(validClip := true));
    var x, y := SetTop(a, clipped.(validClip := true)), SetTop(b, clipped.(validClip := true));
    assert |x.stack| > 0 by { TopSet(a, clipped.(validClip := true)); }
    DeferredAlike(x, y);
    PushAlike(CheckDeferredSave(x), CheckDeferredSave(y), ClipRec(c.shape, c.op, c.aa));
  }

  lemma TopSet(st: Recorder, s: Save)
    requires |st.stack| > 0
    ensures |SetTop(st, s).stack| == |st.stack|
  {
  }

  lemma SaveAlike(a: Recorder, b: Recorder)
    requires Alike(a, b) && |a.stack| > 0
    ensures |b.stack| > 0 && Alike(SaveStep(a), SaveStep(b))
  {
    hide LayersAlike, RecordsAlike;
  }

  lemma StepAlike(e: Engine, a: Recorder, b: Recorder, c: Call)
    requires Alike(a, b) && a.Sized() && b.Sized()
    ensures Alike(Step(e, a, c), Step(e, b, c))
    ensures |a.layers| > 0 && |b.layers| > 0 && LosesMark(e, a, c) == LosesMark(e, b, c)
  {
    hide Alike, DrawStep, ListStep, LayerStep, RestoreStep, TransformStep, ClipStep, AttrStep, LayerCount;
    hide RecordsDraw, RecordsList, PaintResult, SkipsList;
    LayersAfter(e, a, c);
    TopAlike(a, b);
    match c {
      case DrawCall(d) => DrawAlike(e, a, b, d);
      case ListCall(l, o) => ListStepAlike(e, a, b, l, o);
      case LayerCall(_, _, _, _) => LayerStepAlike(e, a, b, c);
      case RestoreCall => RestoreAlike(e, a, b);
      case AttrCall(attr) => AttrAlike(a, b, attr);
      case SaveCall => SaveAlike(a, b);
      case TransformCall(t) => TransformAlike(a, b, t);
      case ClipCall(_, _, _) => ClipAlike(e, a, b, c);
    }
  }

  // ---------- the run without the calls that lose a mark ----------

  // Such a call does nothing else.
  function Cleaned(e: Engine, start: Recorder, calls: seq<Call>): seq<Call>
    requires start.Sized()
  {
    if calls == [] then []
    else
      var front, c := calls[..|calls| - 1], calls[|calls| - 1];
      LayerCountPositive(Run(e, start, front).stack);
      Cleaned(e, start, front) + if LosesMark(e, Run(e, start, front), c) then [] else [c]
  }

  // What the layers hold if lost marks are not counted.
  function Lossless(ks: seq<Content>): seq<Content> {
    seq(|ks|, i requires 0 <= i < |ks| => ks[i].(lost := false))
  }

  lemma OperationLossless(ks: seq<Content>, bounds: seq<Rect>, overlaps: bool, floods: bool)
    requires ks != []
    ensures bounds == [] && floods ==> Lossless(Operation(ks, bounds, overlaps, floods)) == Lossless(ks)
    ensures !(bounds == [] && floods) ==>
              Operation(Lossless(ks), bounds, overlaps, floods) == Lossless(Operation(ks, bounds, overlaps, floods))
  {
  }

  lemma DrawLossless(e: Engine, a: Recorder, b: Recorder, ks: seq<Content>, d: Op)
    requires Alike(a, b) && |a.stack| > 0 && |a.layers| > 0 && ks != []
    ensures if LosesMark(e, a, DrawCall(d)) then Lossless(DrawContent(e, a, ks, d)) == Lossless(ks)
            else DrawContent(e, b, Lossless(ks), d) == Lossless(DrawContent(e, a, ks, d))
  {
    hide PaintResult, Area, DrawBounds, AccumulateArea, Operation, Alike, Lossless;
    SameLength(a, b);
    var area := Area(e, a.paint, d);
    AreaGains(a.Top(), TopSink(a), |a.records|, area);
    OperationLossless(ks, DrawBounds(a.Top(), area), d.overlaps, area.None? && !a.Top().validClip);
  }

  lemma ListLossless(e: Engine, a: Recorder, b: Recorder, ks: seq<Content>, l: DisplayList, o: real)
    requires Alike(a, b) && |a.stack| > 0 && |a.layers| > 0 && ks != []
    ensures if LosesMark(e, a, ListCall(l, o)) then Lossless(ListContent(e, a, ks, l, o)) == Lossless(ks)
            else ListContent(e, b, Lossless(ks), l, o) == Lossless(ListContent(e, a, ks, l, o))
  {
    hide ListBounds, AccumulateList, Operation, Alike, Lossless, SkipsList;
    TopAlike(a, b);
    ListGains(e, a.Top(), TopSink(a), |a.records|, l);
    OperationLossless(ks, ListBounds(e, a.Top(), l, a.rtree.Some?), false, l.rootUnbounded && !a.Top().validClip);
  }

  lemma LayerLossless(a: Recorder, b: Recorder, ks: seq<Content>, withPaint: bool, backdrop: bool)
    requires Alike(a, b) && |a.stack| > 0 && ks != []
    ensures |b.stack| > 0
            && LayerContent(b, Lossless(ks), withPaint, backdrop) == Lossless(LayerContent(a, ks, withPaint, backdrop))
  {
    hide PaintResult, FloodBounds, Alike, LayerFloods;
    SameLength(a, b);
  }

  lemma ClosingAlike(e: Engine, a: Recorder, b: Recorder, k: Content)
    requires Alike(a, b) && |a.stack| > 1 && |a.layers| > 1
    ensures |b.layers| == |a.layers| && Closing(a, k) == Closing(b, k.(lost := false))
    ensures var content := Closing(a, k);
            FilterFloods(e, a, content) == FilterFloods(e, b, content)
                && ClosedBounds(e, a, content) == ClosedBounds(e, b, content)
  {
    hide ContentBounds, FloodBounds, LayerBounds;
    var i := a.Top().saveIndex;
    if i < |a.records| {
      ContentAlike(a.records[i], b.records[i], a.Layer().(rects := k.bounds), b.Layer().(rects := k.bounds));
    }
    assert DeviceRects(a) == DeviceRects(b);
  }

  lemma CloseLossless(e: Engine, a: Recorder, b: Recorder, ks: seq<Content>)
    requires Alike(a, b) && |a.stack| > 1 && |ks| == |a.layers| > 1
    ensures |b.layers| == |a.layers| && CloseContent(e, b, Lossless(ks)) == Lossless(CloseContent(e, a, ks))
  {
    hide Closing, FilterFloods, ClosedBounds, Alike;
    SameLength(a, b);
    ClosingAlike(e, a, b, Top(ks));
  }

  lemma StepLossless(e: Engine, a: Recorder, b: Recorder, ks: seq<Content>, c: Call)
    requires Alike(a, b) && a.Sized() && b.Sized() && |ks| == |a.layers|
    ensures |a.layers| > 0 && |b.layers| == |a.layers|
    ensures if LosesMark(e, a, c) then Lossless(ContentStep(e, a, ks, c)) == Lossless(ks)
            else ContentStep(e, b, Lossless(ks), c) == Lossless(ContentStep(e, a, ks, c))
  {
    hide Alike, Lossless, DrawContent, ListContent, LayerContent, CloseContent, LayerCount;
    hide RecordsDraw, RecordsList, PaintResult, SkipsList;
    LayersAfter(e, a, c);
    TopAlike(a, b);
    match c {
      case DrawCall(d) => DrawLossless(e, a, b, ks, d);
      case ListCall(l, o) => ListLossless(e, a, b, ks, l, o);
      case LayerCall(_, withPaint, _, bd) => LayerLossless(a, b, ks, withPaint, bd.Some?);
      case RestoreCall => if ClosesLayer(a, c) { CloseLossless(e, a, b, ks); }
      case _ =>
    }
  }

  // A call that loses a mark does nothing but mark.
  lemma LostAlike(e: Engine, a: Recorder, b: Recorder, c: Call)
    requires Alike(a, b) && a.Sized() && |a.layers| > 0 && LosesMark(e, a, c)
    ensures Alike(Step(e, a, c), b) && Step(e, a, c).records == a.records && Step(e, a, c).stack == a.stack
  {
    hide PaintResult, Area, MapAndClip, LocalCoverage, LayerCount, RecordsAlike, SkipsList;
    var k := AccumulateUnbounded(a.Top(), TopSink(a), |a.records|);
    assert LayerAlike(k.0.layer, a.Layer()) && k.0.rtree == a.rtree;
    MarkAlike(a, b, k.0);
  }

  lemma MarkAlike(a: Recorder, b: Recorder, k: Sink)
    requires Alike(a, b) && |a.layers| > 0 && LayerAlike(k.layer, a.Layer()) && k.rtree == a.rtree
    ensures Alike(Drain(a, k), b)
  {
    hide RecordsAlike;
  }

  // ---------- which records differ ----------

  predicate Patches(st: Recorder, c: Call)
    requires |st.stack| > 0
  {
    c.RestoreCall? && |st.stack| > 1 && !(st.Top().deferred && !st.Top().isLayer)
  }

  function PendingRecord(st: Recorder): seq<Record>
    requires |st.stack| > 0
  {
    if st.Top().deferred then [SaveRec(0, 0)] else []
  }

  function NewRecords(e: Engine, st: Recorder, c: Call): seq<Record>
    requires |st.stack| > 0 && |st.layers| > 0
  {
    match c
    case AttrCall(a) => if SetAttr(st.paint, a) == st.paint then [] else [SetAttrRec(a)]
    case SaveCall => []
    case LayerCall(_, withPaint, _, _) =>
      if MakesLayer(st, withPaint) then [OpeningRecord(c.bounds, c.withPaint, c.fromCaller, c.backdrop)] else []
    case RestoreCall => if Patches(st, c) then [RestoreRec] else []
    case TransformCall(t) => if Trivial(Normal(t)) then [] else PendingRecord(st) + [TransformRec(Normal(t))]
    case ClipCall(s, op, aa) => if RecordsClip(e, st, s, op, aa) then PendingRecord(st) + [ClipRec(s, op, aa)] else []
    case DrawCall(d) => if RecordsDraw(e, st, d) then [DrawRec(d)] else []
    case ListCall(l, o) => if RecordsList(e, st, l, o) then [ListRec(l, Min(o, 1.0))] else []
  }

  function OldRecords(st: Recorder, c: Call): seq<Record>
    requires |st.stack| > 0 && |st.layers| > 0
  {
    if Patches(st, c) then
      PatchRecord(st.records, st.Top().saveIndex, |st.records|,
                  if st.depth >= st.Top().saveDepth then st.depth - st.Top().saveDepth else 0, st.Layer())
    else st.records
  }

  lemma CheckedRecords(st: Recorder, r: Record)
    requires |st.stack| > 0
    ensures Push(CheckDeferredSave(st), r).records == st.records + (PendingRecord(st) + [r])
  {
  }

  lemma ClipRecords(e: Engine, st: Recorder, c: Call)
    requires |st.stack| > 0 && |st.layers| > 0 && c.ClipCall?
    ensures ClipStep(e, st, c.shape, c.op, c.aa).records == st.records + NewRecords(e, st, c)
  {
    hide RedundantClip, Clipped, CheckDeferredSave, Push, PendingRecord;
    if RecordsClip(e, st, c.shape, c.op, c.aa) {
      ClipLast(e, st, c);
      CheckedRecords(st, ClipRec(c.shape, c.op, c.aa));
    } else {
      assert st.records + [] == st.records;
    }
  }

  lemma TransformRecords(e: Engine, st: Recorder, t: Transform)
    requires |st.stack| > 0 && |st.layers| > 0
    ensures TransformStep(st, t).records == st.records + NewRecords(e, st, TransformCall(t))
  {
    hide Transformed, CheckDeferredSave, Push, PendingRecord, Normal, Trivial;
    CheckedRecords(st, TransformRec(Normal(t)));
    assert st.records + [] == st.records;
  }

  lemma StepRecords(e: Engine, st: Recorder, c: Call)
    requires st.Sized()
    ensures |st.layers| > 0 && Step(e, st, c).records == OldRecords(st, c) + NewRecords(e, st, c)
  {
    hide PaintResult, AccumulateArea, AccumulateList, NoteDraw, NoteList, OuterSink, LayerTracker,
      CloseLayer, PatchRecord, TransformStep, ClipStep, LayerCount;
    LayerCountPositive(st.stack);
    assert st.records + [] == st.records;
    match c {
      case TransformCall(t) => TransformRecords(e, st, t);
      case ClipCall(_, _, _) => ClipRecords(e, st, c);
      case _ =>
    }
  }

  lemma NewAlike(e: Engine, a: Recorder, b: Recorder, c: Call)
    requires Alike(a, b) && |a.stack| > 0 && |a.layers| > 0
    ensures |b.layers| > 0 && NewRecords(e, a, c) == NewRecords(e, b, c)
  {
    hide Alike, RecordsDraw, RecordsList, PaintResult, RedundantClip, Normal, Trivial, SetAttr;
    TopAlike(a, b);
    match c {
      case DrawCall(d) => DrawAlike(e, a, b, d);
      case ListCall(l, o) => ListStepAlike(e, a, b, l, o);
      case _ =>
    }
  }

  lemma OldAlike(a: Recorder, b: Recorder, c: Call)
    requires Alike(a, b) && |a.stack| > 0 && |a.layers| > 0
    ensures |b.layers| > 0 && |OldRecords(a, c)| == |OldRecords(b, c)| == |a.records|
    ensures forall i :: 0 <= i < |a.records| && !(Patches(a, c) && i == a.Top().saveIndex) ==>
              OldRecords(a, c)[i] == a.records[i] && OldRecords(b, c)[i] == b.records[i]
    ensures var i := a.Top().saveIndex;
            Patches(a, c) && i < |a.records| && a.records[i] == b.records[i] ==>
              (OldRecords(a, c)[i] == OldRecords(b, c)[i] <==>
               (a.records[i].LayerRec? ==> a.Layer().unbounded == b.Layer().unbounded))
  {
    hide Patched;
    var i := a.Top().saveIndex;
    if i < |a.records| {
      PatchedAlike(a.records[i], b.records[i], a.Layer(), b.Layer(), |a.records|,
                   if a.depth >= a.Top().saveDepth then a.depth - a.Top().saveDepth else 0);
    }
  }

  // ---------- open brackets ----------

  lemma FlushOpens(st: Recorder, i: nat)
    requires st.Sized() && i < |st.records| && !Brackets.IsOpen(Brackets.Marks(st.stack), i)
    requires !st.stack[0].deferred
    ensures !Brackets.IsOpen(Brackets.Marks(CheckDeferredSave(st).stack), i)
  {
    hide Brackets.Marks, Brackets.IsOpen;
    if st.Top().deferred {
      var under, s := st.stack[..|st.stack| - 1], CheckDeferredSave(st).Top();
      assert st.stack == under + [st.Top()] && CheckDeferredSave(st).stack == under + [s];
      Brackets.MarksAppend(under, st.Top());
      assert Brackets.Marks(under) + [] == Brackets.Marks(under);
      PushOpens(under, s, i);
    }
  }

  lemma PushOpens(stack: seq<Save>, s: Save, i: nat)
    requires |stack| > 0 && !Brackets.IsOpen(Brackets.Marks(stack), i) && (!s.deferred ==> s.saveIndex != i)
    ensures !Brackets.IsOpen(Brackets.Marks(stack + [s]), i)
  {
    Brackets.MarksAppend(stack, s);
    Brackets.OpenMore(Brackets.Marks(stack), Brackets.MarkOf(s), i);
  }

  lemma PopOpens(stack: seq<Save>, i: nat)
    requires |stack| > 1 && !Brackets.IsOpen(Brackets.Marks(stack), i)
    ensures !Brackets.IsOpen(Brackets.Marks(stack[..|stack| - 1]), i)
  {
    var under := stack[..|stack| - 1];
    assert stack == under + [stack[|stack| - 1]];
    Brackets.MarksAppend(under, stack[|stack| - 1]);
    Brackets.OpenMore(Brackets.Marks(under), Brackets.MarkOf(stack[|stack| - 1]), i);
  }

  // A record that is closed stays closed.
  lemma ClosedStays(e: Engine, st: Recorder, c: Call, i: nat)
    requires Brackets.Sound(st) && i < |st.records| && !Brackets.IsOpen(Brackets.Marks(st.stack), i)
    ensures st.Sized() && !Brackets.IsOpen(Brackets.Marks(Step(e, st, c).stack), i)
  {
    hide Brackets.Bracketed, Brackets.IsOpen, Brackets.Marks, Brackets.TallyAt, LayerCount, PaintResult, OuterSink,
         LayerTracker, AccumulateArea, AccumulateList, NoteDraw, NoteList, TransformStep, ClipStep, RestoreStep;
    LayerCountPositive(st.stack);
    match c {
      case AttrCall(_) =>
      case DrawCall(_) =>
      case ListCall(_, _) =>
      case SaveCall => PushOpens(st.stack, DeferredEntry(st.Top()), i);
      case LayerCall(_, _, _, _) =>
        var s := Step(e, st, c).Top();
        assert Step(e, st, c).stack == st.stack + [s];
        PushOpens(st.stack, s, i);
      case RestoreCall =>
        RestorePaint(e, st);
        if |st.stack| > 1 { PopOpens(st.stack, i); } else { RestoreNothing(e, st); }
      case TransformCall(t) => TransformOpens(st, t, i);
      case ClipCall(_, _, _) => ClipOpens(e, st, c, i);
    }
  }

  lemma SetOpens(stack: seq<Save>, s: Save, i: nat)
    requires |stack| > 0 && !Brackets.IsOpen(Brackets.Marks(stack), i)
    requires s.deferred == stack[|stack| - 1].deferred && Brackets.MarkOf(s) == Brackets.MarkOf(stack[|stack| - 1])
    ensures !Brackets.IsOpen(Brackets.Marks(stack[|stack| - 1 := s]), i)
  {
    Brackets.MarksSetTop(stack, s);
  }

  lemma TransformOpens(st: Recorder, t: Transform, i: nat)
    requires Brackets.Sound(st) && i < |st.records| && !Brackets.IsOpen(Brackets.Marks(st.stack), i)
    ensures |st.stack| > 0 && !Brackets.IsOpen(Brackets.Marks(TransformStep(st, t).stack), i)
  {
    hide Brackets.Bracketed, Brackets.IsOpen, Brackets.Marks, Brackets.TallyAt, LayerCount, CheckDeferredSave, Normal,
         Trivial,
      LocalAfter, GlobalAfter;
    FlushOpens(st, i);
    CheckedStack(st);
    var st1 := CheckDeferredSave(st);
    SetOpens(st1.stack, Transformed(st1.Top(), Normal(t)), i);
    PushedStack(st1, TransformRec(Normal(t)));
  }

  lemma ClipOpens(e: Engine, st: Recorder, c: Call, i: nat)
    requires Brackets.Sound(st) && i < |st.records| && !Brackets.IsOpen(Brackets.Marks(st.stack), i) && c.ClipCall?
    ensures |st.stack| > 0 && !Brackets.IsOpen(Brackets.Marks(ClipStep(e, st, c.shape, c.op, c.aa).stack), i)
  {
    hide Brackets.Bracketed, Brackets.IsOpen, Brackets.Marks, Brackets.TallyAt, LayerCount, CheckDeferredSave,
         RedundantClip;
    if RecordsClip(e, st, c.shape, c.op, c.aa) {
      ClipLast(e, st, c);
      FlushOpens(st, i);
      CheckedStack(st);
      var st1 := CheckDeferredSave(st);
      SetOpens(st1.stack, Clipped(e, st1.Top(), c.shape, c.op, c.aa).(validClip := true), i);
      PushedStack(st1, ClipRec(c.shape, c.op, c.aa));
    } else {
      SetOpens(st.stack, Clipped(e, st.Top(), c.shape, c.op, c.aa).(nop := true), i);
    }
  }

  // The record that a restore patches is open before and closed after.
  lemma PatchCloses(st: Recorder)
    requires Brackets.Sound(st) && |st.stack| > 1 && !st.Top().deferred
    ensures var i := st.Top().saveIndex;
            && i < |st.records| && (st.Top().isLayer ==> st.records[i].LayerRec?)
               && (!st.Top().isLayer ==> st.records[i].SaveRec?)
            && Brackets.IsOpen(Brackets.Marks(st.stack), i)
            && !Brackets.IsOpen(Brackets.Marks(st.stack[..|st.stack| - 1]), i)
  {
    Brackets.TopMark(st);
    var marks, sk := Brackets.Marks(st.stack), Skeleton(st.records);
    var n := |marks| - 1;
    assert Brackets.OpenAt(sk, marks[n], n);
    forall m | 0 <= m < n ensures marks[m].saveIndex != marks[n].saveIndex {
      assert Brackets.OpenAt(sk, marks[m], m);
    }
  }

  // ---------- whole runs ----------

  // A layer closes whose mark was only made by floods that were dropped.
  predicate LosesAtClose(st: Recorder, ks: seq<Content>, c: Call)
    requires |st.stack| > 0 && ks != []
  {
    ClosesLayer(st, c) && Top(ks).lost && !Top(ks).flooded
  }

  // No layer that closes in the run has lost its mark: each that a dropped flood marked was also
  // marked by a flood that was recorded.
  ghost predicate MarksSurvive(e: Engine, start: Recorder, calls: seq<Call>)
    requires start.Sized() && |start.layers| == 1
  {
    calls == [] ||
    (var front := calls[..|calls| - 1];
     LayerCountPositive(Run(e, start, front).stack);
     MarksSurvive(e, start, front)
     && !LosesAtClose(Run(e, start, front), ContentsOf(e, start, front), calls[|calls| - 1]))
  }

  // Some record that is already closed has another mark.
  ghost predicate Differ(a: Recorder, b: Recorder) {
    exists i :: ClosedDifference(a, b, i)
  }

  ghost predicate ClosedDifference(a: Recorder, b: Recorder, i: nat) {
    i < |a.records| == |b.records| && a.records[i] != b.records[i] && !Brackets.IsOpen(Brackets.Marks(a.stack), i)
  }

  // The recorder of all calls against the one of the calls that lose no mark.
  ghost predicate Followed(a: Recorder, b: Recorder, ks: seq<Content>, survive: bool) {
    && Brackets.Sound(a) && b.Sized() && Alike(a, b)
    && AllHold(a.layers, ks) && AllHold(b.layers, Lossless(ks))
    && (if survive then a.records == b.records else Differ(a, b))
  }

  lemma FollowedFacts(a: Recorder, b: Recorder, ks: seq<Content>, survive: bool)
    requires Followed(a, b, ks, survive)
    ensures a.Sized() && b.Sized() && |a.layers| == |b.layers| == |ks| > 0 && b.stack == a.stack
    ensures Holds(a.Layer(), Top(ks)) && Holds(b.Layer(), Top(ks).(lost := false))
  {
    LayerCountPositive(a.stack);
    assert Lossless(ks)[|ks| - 1] == Top(ks).(lost := false);
  }

  lemma LostFollowed(e: Engine, a: Recorder, b: Recorder, ks: seq<Content>, survive: bool, c: Call)
    requires Followed(a, b, ks, survive) && |a.layers| > 0 && LosesMark(e, a, c) && |ks| == |a.layers|
    ensures Followed(Step(e, a, c), b, ContentStep(e, a, ks, c), survive)
  {
    hide Brackets.Sound, Alike, AllHold, LosesMark, Step, ContentStep, Lossless;
    Brackets.SoundSized(a);
    Brackets.StepSound(e, a, c);
    LostAlike(e, a, b, c);
    StepHolds(e, a, ks, c);
    StepLossless(e, a, b, ks, c);
    if !survive {
      var i: nat :| ClosedDifference(a, b, i);
      assert ClosedDifference(Step(e, a, c), b, i);
    }
  }

  // The records after a step of both.
  lemma KeptRecords(e: Engine, a: Recorder, b: Recorder, c: Call)
    requires Alike(a, b) && a.Sized() && b.Sized() && |a.layers| > 0 && |b.layers| > 0 && a.records == b.records
    requires Patches(a, c) ==> a.Top().saveIndex < |a.records|
    requires Patches(a, c) && a.records[a.Top().saveIndex].LayerRec? ==> a.Layer().unbounded == b.Layer().unbounded
    ensures Step(e, a, c).records == Step(e, b, c).records
  {
    hide Alike, Step, OldRecords, NewRecords, LayerCount;
    StepRecords(e, a, c);
    StepRecords(e, b, c);
    NewAlike(e, a, b, c);
    OldAlike(a, b, c);
    assert OldRecords(a, c) == OldRecords(b, c);
  }

  lemma SplitRecords(e: Engine, a: Recorder, b: Recorder, c: Call)
    requires Alike(a, b) && a.Sized() && b.Sized() && |a.layers| > 0
    requires Patches(a, c) && a.Top().saveIndex < |a.records| && a.records == b.records
    requires a.records[a.Top().saveIndex].LayerRec? && a.Layer().unbounded != b.Layer().unbounded
    requires !Brackets.IsOpen(Brackets.Marks(a.stack[..|a.stack| - 1]), a.Top().saveIndex)
    ensures Differ(Step(e, a, c), Step(e, b, c))
  {
    hide Alike, OldRecords, NewRecords, LayerCount, RestoreStep, Brackets.IsOpen, Brackets.Marks;
    StepRecords(e, a, c);
    StepRecords(e, b, c);
    NewAlike(e, a, b, c);
    OldAlike(a, b, c);
    RestorePaint(e, a);
    assert ClosedDifference(Step(e, a, c), Step(e, b, c), a.Top().saveIndex);
  }

  lemma StillDiffer(e: Engine, a: Recorder, b: Recorder, c: Call)
    requires Brackets.Sound(a) && Alike(a, b) && b.Sized() && |a.layers| > 0 && Differ(a, b)
    ensures a.Sized() && Differ(Step(e, a, c), Step(e, b, c))
  {
    hide Alike, OldRecords, NewRecords, Step, Brackets.IsOpen, Brackets.Marks, Brackets.Sound;
    Brackets.SoundSized(a);
    var i: nat :| ClosedDifference(a, b, i);
    StepRecords(e, a, c);
    StepRecords(e, b, c);
    NewAlike(e, a, b, c);
    OldAlike(a, b, c);
    ClosedStays(e, a, c, i);
    if Patches(a, c) { PatchedIsOpen(a); }
    assert ClosedDifference(Step(e, a, c), Step(e, b, c), i);
  }

  lemma PatchedIsOpen(st: Recorder)
    requires Brackets.Sound(st) && Patches(st, RestoreCall)
    ensures st.Top().saveIndex < |st.records| && Brackets.IsOpen(Brackets.Marks(st.stack), st.Top().saveIndex)
    ensures (st.records[st.Top().saveIndex].LayerRec? <==> st.Top().isLayer)
    ensures !Brackets.IsOpen(Brackets.Marks(st.stack[..|st.stack| - 1]), st.Top().saveIndex)
  {
    hide Brackets.Bracketed;
    PatchCloses(st);
  }

  lemma KeptFollowed(e: Engine, a: Recorder, b: Recorder, ks: seq<Content>, survive: bool, c: Call)
    requires Followed(a, b, ks, survive) && |a.layers| > 0 && !LosesMark(e, a, c) && |ks| == |a.layers|
    ensures Followed(Step(e, a, c), Step(e, b, c), ContentStep(e, a, ks, c), survive && !LosesAtClose(a, ks, c))
  {
    FollowedFacts(a, b, ks, survive);
    hide Brackets.Sound, Alike, AllHold, LosesMark, Step, ContentStep, Lossless, Differ, LayerCount;
    Brackets.StepSound(e, a, c);
    StepSized(e, b, c);
    StepAlike(e, a, b, c);
    StepHolds(e, a, ks, c);
    StepHolds(e, b, Lossless(ks), c);
    StepLossless(e, a, b, ks, c);
    if Patches(a, c) { PatchedIsOpen(a); }
    if !survive {
      StillDiffer(e, a, b, c);
    } else if LosesAtClose(a, ks, c) {
      assert Patches(a, c);
      SplitRecords(e, a, b, c);
    } else {
      KeptRecords(e, a, b, c);
    }
  }

  lemma {:induction false} RunFollowed(e: Engine, start: Recorder, calls: seq<Call>)
    requires start.Sized() && |start.layers| == 1 && Followed(start, start, [NOTHING], true)
    ensures Followed(Run(e, start, calls), Run(e, start, Cleaned(e, start, calls)), ContentsOf(e, start, calls),
                     MarksSurvive(e, start, calls))
  {
    hide Followed, Step, ContentStep, LosesMark, LosesAtClose;
    if calls != [] {
      var front, c := calls[..|calls| - 1], calls[|calls| - 1];
      RunFollowed(e, start, front);
      var a, b, ks := Run(e, start, front), Run(e, start, Cleaned(e, start, front)), ContentsOf(e, start, front);
      FollowedFacts(a, b, ks, MarksSurvive(e, start, front));
      if LosesMark(e, a, c) {
        LostFollowed(e, a, b, ks, MarksSurvive(e, start, front), c);
        LostNotClosing(e, a, ks, c);
        assert Cleaned(e, start, calls) == Cleaned(e, start, front);
      } else {
        KeptFollowed(e, a, b, ks, MarksSurvive(e, start, front), c);
        RunAppend(e, start, Cleaned(e, start, front), c);
      }
    }
  }

  lemma LostNotClosing(e: Engine, st: Recorder, ks: seq<Content>, c: Call)
    requires |st.stack| > 0 && |st.layers| > 0 && ks != [] && LosesMark(e, st, c)
    ensures !LosesAtClose(st, ks, c)
  {
  }

  lemma StartFollowed(cull: Rect, prepareRTree: bool)
    ensures var start := Start(cull, prepareRTree); |start.layers| == 1 && Followed(start, start, [NOTHING], true)
  {
    Brackets.StartSound(cull, prepareRTree);
    StartHolds(cull, prepareRTree);
    assert Lossless([NOTHING]) == [NOTHING];
  }

  // The calls that are left lose no mark.
  lemma {:induction false} CleanedReplayable(e: Engine, start: Recorder, calls: seq<Call>)
    requires start.Sized() && |start.layers| == 1 && Followed(start, start, [NOTHING], true) && NoCallerBounds(calls)
    ensures ReplayableRun(e, start, Cleaned(e, start, calls))
  {
    hide Followed, LosesMark, Step, ContentStep, LosesAtClose;
    if calls != [] {
      var front, c := calls[..|calls| - 1], calls[|calls| - 1];
      CleanedReplayable(e, start, front);
      RunFollowed(e, start, front);
      var a, b := Run(e, start, front), Run(e, start, Cleaned(e, start, front));
      FollowedFacts(a, b, ContentsOf(e, start, front), MarksSurvive(e, start, front));
      assert Alike(a, b) by { FollowedAlike(a, b, ContentsOf(e, start, front), MarksSurvive(e, start, front)); }
      hide Alike;
      StepAlike(e, a, b, c);
      var x := Cleaned(e, start, front);
      if LosesMark(e, a, c) {
        assert Cleaned(e, start, calls) == x;
      } else {
        assert Cleaned(e, start, calls) == x + [c];
        assert Replayable(e, b, c);
        ReplayableAppend(e, start, x, c);
      }
    }
  }

  lemma ReplayableAppend(e: Engine, start: Recorder, calls: seq<Call>, c: Call)
    requires start.Sized() && ReplayableRun(e, start, calls)
    requires var st := Run(e, start, calls); |st.layers| > 0 && Replayable(e, st, c)
    ensures ReplayableRun(e, start, calls + [c])
  {
    hide Replayable, Run;
    assert (calls + [c])[..|calls|] == calls;
  }

  lemma FollowedAlike(a: Recorder, b: Recorder, ks: seq<Content>, survive: bool)
    requires Followed(a, b, ks, survive)
    ensures Alike(a, b)
  {
  }

  // Restores lose no mark.
  lemma {:induction false} CleanedRestores(e: Engine, start: Recorder, calls: seq<Call>, n: nat)
    requires start.Sized()
    ensures Cleaned(e, start, calls + Restores(n)) == Cleaned(e, start, calls) + Restores(n)
    decreases n
  {
    hide LosesMark, Run;
    if n == 0 {
      assert calls + Restores(0) == calls && Cleaned(e, start, calls) + Restores(0) == Cleaned(e, start, calls);
    } else {
      CleanedRestores(e, start, calls, n - 1);
      assert Restores(n) == Restores(n - 1) + [RestoreCall];
      var all := calls + Restores(n);
      assert all[..|all| - 1] == calls + Restores(n - 1) && all[|all| - 1] == RestoreCall;
      LayerCountPositive(Run(e, start, calls + Restores(n - 1)).stack);
      RestoresKept(e, Run(e, start, calls + Restores(n - 1)));
      assert Cleaned(e, start, calls) + Restores(n) == Cleaned(e, start, calls) + Restores(n - 1) + [RestoreCall];
    }
  }

  lemma RestoresKept(e: Engine, st: Recorder)
    requires |st.stack| > 0 && |st.layers| > 0
    ensures !LosesMark(e, st, RestoreCall)
  {
  }

  // The list that the calls which lose no mark build.
  lemma CleanedBuild(e: Engine, cull: Rect, prepareRTree: bool, calls: seq<Call>)
    ensures var start := Start(cull, prepareRTree); var whole := LayerSummaries.Whole(e, cull, prepareRTree, calls);
            && |start.layers| == 1 && |Run(e, start, whole).layers| == 1
            && Built(Run(e, start, whole)) == Build(e, cull, prepareRTree, calls)
            && |Run(e, start, Cleaned(e, start, whole)).layers| == 1
            && Built(Run(e, start, Cleaned(e, start, whole))) == Build(e, cull, prepareRTree, Cleaned(e, start, calls))
  {
    hide Run, Followed, Finish, Cleaned, Restores, Built, MarksSurvive;
    var start := Start(cull, prepareRTree);
    StartFollowed(cull, prepareRTree);
    RunFollowed(e, start, calls);
    var a, b := Run(e, start, calls), Run(e, start, Cleaned(e, start, calls));
    FollowedFacts(a, b, ContentsOf(e, start, calls), MarksSurvive(e, start, calls));
    LayerSummaries.WholeRun(e, cull, prepareRTree, calls);
    CleanedRestores(e, start, calls, |a.stack| - 1);
    RunConcat(e, start, Cleaned(e, start, calls), Restores(|a.stack| - 1));
    FinishIsRun(e, b);
    LayerSummaries.OneLayer(Finish(e, b));
    LayerSummaries.OneLayer(Finish(e, a));
  }

  lemma SameDispatch(rs: seq<Record>, rs': seq<Record>)
    requires RecordsAlike(rs, rs')
    ensures Dispatch(rs) == Dispatch(rs')
  {
    forall i | 0 <= i < |rs| ensures Dispatched(rs[i]) == Dispatched(rs'[i]) {
      assert RecordAlike(rs[i], rs'[i]);
    }
  }

  // The marks of the root.
  function RootContent(e: Engine, cull: Rect, prepareRTree: bool, calls: seq<Call>): Content {
    LayerSummaries.RootContent(e, cull, prepareRTree, calls)
  }

  // No layer of the list, the root included, has a mark that only a dropped flood has made.
  ghost predicate NoMarkIsLost(e: Engine, cull: Rect, prepareRTree: bool, calls: seq<Call>) {
    var start := Start(cull, prepareRTree);
    && |start.layers| == 1
    && MarksSurvive(e, start, LayerSummaries.Whole(e, cull, prepareRTree, calls))
    && !(RootContent(e, cull, prepareRTree, calls).lost && !RootContent(e, cull, prepareRTree, calls).flooded)
  }

  lemma BuiltAlike(a: Recorder, b: Recorder, ks: seq<Content>, survive: bool)
    requires Followed(a, b, ks, survive) && |ks| == 1
    ensures |a.layers| == |b.layers| == 1 && ListsAlike(Built(a), Built(b)) && Built(b).rootUnbounded == ks[0].flooded
    ensures Built(a) == Built(b) <==> survive && !(ks[0].lost && !ks[0].flooded)
  {
    hide Brackets.Sound, RecordAlike;
    FollowedFacts(a, b, ks, survive);
    hide AllHold, Followed;
    assert LayerAlike(a.layers[0], b.layers[0]);
    if !survive { DifferentRecords(a, b); }
  }

  lemma DifferentRecords(a: Recorder, b: Recorder)
    requires Differ(a, b)
    ensures a.records != b.records
  {
    var i: nat :| ClosedDifference(a, b, i);
  }

  // Without caller bounds, dispatching a built list into a new recorder builds the list that the calls
  // build which lose no mark: the same but for the marks, and those say what was recorded. It is the
  // identical list if and only if no mark is lost.
  lemma RebuildingIsExact(e: Engine, cull: Rect, prepareRTree: bool, calls: seq<Call>)
    requires NoCallerBounds(calls)
    ensures var l := Build(e, cull, prepareRTree, calls);
            var rebuilt := Build(e, cull, prepareRTree, Dispatch(l.records));
            && ListsAlike(l, rebuilt)
            && rebuilt.rootUnbounded == RootContent(e, cull, prepareRTree, calls).flooded
            && (rebuilt == l <==> NoMarkIsLost(e, cull, prepareRTree, calls))
  {
    hide Build, Built, Followed, Run, MarksSurvive, Cleaned, ListsAlike, ContentsOf, Start, LayerSummaries.Whole;
    var start, whole := Start(cull, prepareRTree), LayerSummaries.Whole(e, cull, prepareRTree, calls);
    StartFollowed(cull, prepareRTree);
    RunFollowed(e, start, whole);
    var a, b, ks := Run(e, start, whole), Run(e, start, Cleaned(e, start, whole)), ContentsOf(e, start, whole);
    CleanedBuild(e, cull, prepareRTree, calls);
    FollowedFacts(a, b, ks, MarksSurvive(e, start, whole));
    BuiltAlike(a, b, ks, MarksSurvive(e, start, whole));
    CleanedReplayable(e, start, calls);
    RebuildingIsIdentity(e, cull, prepareRTree, Cleaned(e, start, calls));
    var l, l' := Build(e, cull, prepareRTree, calls), Build(e, cull, prepareRTree, Cleaned(e, start, calls));
    AlikeLists(l, l');
  }

  lemma AlikeLists(l: DisplayList, l': DisplayList)
    requires ListsAlike(l, l')
    ensures Dispatch(l.records) == Dispatch(l'.records)
  {
    SameDispatch(l.records, l'.records);
  }
}
