/** What is recorded directly in each open layer: the bounds of every operation in the layer's own
    coordinates, whether one may draw over itself, and whether one floods the layer. The summaries
    that the recorder keeps in shared objects are proved to say this, over whole runs. */
module Contents {
  import opened Geometry
  import opened Painting
  import opened DisplayLists
  import opened Recorder
  import opened Emission

  // A flood under no clip makes its layer unbounded. One that is dropped does so too, and is lost.
  datatype Content = Content(bounds: seq<Rect>, overlaps: bool, flooded: bool, lost: bool)

  const NOTHING: Content := Content([], false, false, false)

  function With(k: Content, bounds: seq<Rect>, overlaps: bool, floods: bool): Content {
    Content(k.bounds + bounds, k.overlaps || overlaps, k.flooded || floods, k.lost)
  }

  // ---------- the bounds that one operation adds ----------

  // What is left of the clip, for an operation without bounds.
  function FloodBounds(s: Save): seq<Rect> {
    var clip := MapAndClip(s.local, LocalCoverage(s.global));
    if s.global.cull.IsEmpty() || clip.IsEmpty() then [] else [clip]
  }

  function RectBounds(s: Save, r: Rect): seq<Rect> {
    if r.IsEmpty() || MapAndClip(s.global, r).IsEmpty() || MapAndClip(s.local, r).IsEmpty() then []
    else [MapAndClip(s.local, r)]
  }

  function EachBounds(s: Save, rs: seq<Rect>): seq<Rect> {
    if rs == [] then [] else EachBounds(s, rs[..|rs| - 1]) + RectBounds(s, rs[|rs| - 1])
  }

  // What a closed layer shows in its parent.
  function LayerBounds(s: Save, r: Rect): seq<Rect> {
    if r.IsEmpty() || MapAndClip(s.local, r).IsEmpty() then [] else [MapAndClip(s.local, r)]
  }

  function DrawBounds(s: Save, area: Option<Rect>): seq<Rect> {
    if area.None? then FloodBounds(s) else RectBounds(s, area.value)
  }

  function ListBounds(e: Engine, s: Save, l: DisplayList, rtree: bool): seq<Rect> {
    if l.rootUnbounded then FloodBounds(s)
    else if !rtree || l.rtree.None? then RectBounds(s, l.bounds)
    else EachBounds(s, e.consolidate(l.rtree.value, LocalCoverage(s.global)))
  }

  // ---------- the contents of the open layers ----------

  function OnTop(ks: seq<Content>, k: Content): seq<Content>
    requires ks != []
  {
    ks[|ks| - 1 := k]
  }

  function Top(ks: seq<Content>): Content
    requires ks != []
  {
    ks[|ks| - 1]
  }

  // An operation that adds no bounds is dropped; only the mark of its flood stays.
  function Operation(ks: seq<Content>, bounds: seq<Rect>, overlaps: bool, floods: bool): seq<Content>
    requires ks != []
  {
    OnTop(ks, if bounds == [] then Top(ks).(lost := Top(ks).lost || floods)
          else With(Top(ks), bounds, overlaps, floods))
  }

  // The bounds of the layer that closes, within those that its caller gave.
  function Closing(st: Recorder, k: Content): Rect
    requires |st.stack| > 0 && |st.layers| > 0
  {
    var i := st.Top().saveIndex;
    if i < |st.records| then ContentBounds(st.records[i], st.Layer().(rects := k.bounds)) else EMPTY
  }

  // What the layer that closes covers on the device: its rectangles in the rtree data, or else its box.
  function DeviceRects(st: Recorder): seq<Rect>
    requires |st.layers| > 0
  {
    var l := st.Layer();
    if st.rtree.Some? then LeafRects(if l.rtreeStart <= |st.rtree.value| then st.rtree.value[l.rtreeStart..] else [])
    else if l.globalBox.IsEmpty() then [] else [l.globalBox]
  }

  // The layer's filter has no bounds, and so changes pixels of the parent everywhere.
  predicate FilterFloods(e: Engine, st: Recorder, content: Rect)
    requires |st.stack| > 1 && |st.layers| > 1
  {
    var filter, m := st.Layer().filter, st.stack[|st.stack| - 2].global.matrix;
    && filter.Some?
    && (|| (exists i :: 0 <= i < |DeviceRects(st)| && e.mapDevice(filter.value, m, DeviceRects(st)[i]).None?)
        || (!content.IsEmpty() && e.mapLocal(filter.value, content).None?))
  }

  function ClosedBounds(e: Engine, st: Recorder, content: Rect): seq<Rect>
    requires |st.stack| > 1 && |st.layers| > 1
  {
    var filter, under := st.Layer().filter, st.stack[|st.stack| - 2];
    if FilterFloods(e, st, content) then FloodBounds(under)
    else if filter.None? || content.IsEmpty() then LayerBounds(under, content)
    else
      LayerBounds(under, e.mapLocal(filter.value, content).value)
  }

  function DrawContent(e: Engine, st: Recorder, ks: seq<Content>, d: Op): seq<Content>
    requires |st.stack| > 0 && ks != []
  {
    var area := Area(e, st.paint, d);
    if !DrawsAnything(st, d) then ks
    else Operation(ks, DrawBounds(st.Top(), area), d.overlaps, area.None? && !st.Top().validClip)
  }

  function ListContent(e: Engine, st: Recorder, ks: seq<Content>, l: DisplayList, o: real): seq<Content>
    requires |st.stack| > 0 && ks != []
  {
    if SkipsList(l, o) || st.Top().nop then ks
    else Operation(ks, ListBounds(e, st.Top(), l, st.rtree.Some?), false, l.rootUnbounded && !st.Top().validClip)
  }

  // What is around a layer that begins, which may flood it.
  function OuterContent(s: Save, k: Content, floods: bool): Content {
    if floods then With(k, FloodBounds(s), false, !s.validClip) else k
  }

  function LayerContent(st: Recorder, ks: seq<Content>, withPaint: bool, backdrop: bool): seq<Content>
    requires |st.stack| > 0 && ks != []
  {
    if !MakesLayer(st, withPaint) then ks
    else OnTop(ks, OuterContent(st.Top(), Top(ks), LayerFloods(st.paint, withPaint, backdrop))) + [NOTHING]
  }

  function CloseContent(e: Engine, st: Recorder, ks: seq<Content>): seq<Content>
    requires |st.stack| > 1 && |ks| == |st.layers| > 1
  {
    var under, content := ks[..|ks| - 1], Closing(st, Top(ks));
    OnTop(under, With(Top(under), ClosedBounds(e, st, content), false,
                      FilterFloods(e, st, content) && !st.stack[|st.stack| - 2].validClip))
  }

  function ContentStep(e: Engine, st: Recorder, ks: seq<Content>, c: Call): (r: seq<Content>)
    requires st.Sized() && |ks| == |st.layers|
    ensures |r| == |Step(e, st, c).layers|
  {
    LayersAfter(e, st, c);
    match c
    case DrawCall(d) => DrawContent(e, st, ks, d)
    case ListCall(l, o) => ListContent(e, st, ks, l, o)
    case LayerCall(_, withPaint, _, bd) => LayerContent(st, ks, withPaint, bd.Some?)
    case RestoreCall => if ClosesLayer(st, c) then CloseContent(e, st, ks) else ks
    case _ => ks
  }

  // How many layers are open after a call.
  lemma LayersAfter(e: Engine, st: Recorder, c: Call)
    requires st.Sized()
    ensures |st.layers| > 0 && (ClosesLayer(st, c) ==> |st.layers| > 1)
    ensures |Step(e, st, c).layers| == |st.layers| +
            if c.LayerCall? && MakesLayer(st, c.withPaint) then 1 else if ClosesLayer(st, c) then -1 else 0
  {
    hide PaintResult, AccumulateArea, AccumulateList, NoteDraw, NoteList, OuterSink, TransferBounds, RedundantClip,
         LayerTracker;
    LayerCountPositive(st.stack);
    if |st.stack| > 1 { LayerCountPositive(st.stack[..|st.stack| - 1]); }
  }

  function ContentsOf(e: Engine, start: Recorder, calls: seq<Call>): (ks: seq<Content>)
    requires start.Sized() && |start.layers| == 1
    ensures |ks| == |Run(e, start, calls).layers|
  {
    if calls == [] then [NOTHING]
    else ContentStep(e, Run(e, start, calls[..|calls| - 1]), ContentsOf(e, start, calls[..|calls| - 1]),
                     calls[|calls| - 1])
  }

  // ---------- the recorder's summaries say the same ----------

  ghost predicate Holds(l: Layer, k: Content) {
    l.rects == k.bounds && l.overlapForced == k.overlaps && l.unbounded == (k.flooded || k.lost)
  }

  ghost predicate AllHold(ls: seq<Layer>, ks: seq<Content>) {
    |ls| == |ks| && forall i :: 0 <= i < |ls| ==> Holds(ls[i], ks[i])
  }

  // What an accumulator does to the summary of the layer.
  ghost predicate Gained(l: Layer, l': Layer, bounds: seq<Rect>, floods: bool) {
    && l'.rects == l.rects + bounds && l'.unbounded == (l.unbounded || floods)
    && l'.overlapForced == l.overlapForced
  }

  lemma UnboundedGains(s: Save, k: Sink, id: nat)
    ensures var (k', added) := AccumulateUnbounded(s, k, id);
            Gained(k.layer, k'.layer, FloodBounds(s), !s.validClip) && (added <==> FloodBounds(s) != [])
  {
    hide MapAndClip, LocalCoverage;
    assert k.layer.rects + [] == k.layer.rects;
  }

  lemma BoundsGain(s: Save, k: Sink, id: nat, r: Rect)
    ensures var (k', added) := AccumulateBounds(s, k, id, r);
            Gained(k.layer, k'.layer, RectBounds(s, r), false) && (added <==> RectBounds(s, r) != [])
  {
    hide MapAndClip;
    assert k.layer.rects + [] == k.layer.rects;
  }

  lemma {:induction false} EachGain(s: Save, k: Sink, id: nat, rs: seq<Rect>)
    ensures var (k', added) := AccumulateEach(s, k, id, rs);
            Gained(k.layer, k'.layer, EachBounds(s, rs), false) && (added <==> EachBounds(s, rs) != [])
  {
    hide RectBounds, AccumulateBounds;
    if rs == [] {
      assert k.layer.rects + [] == k.layer.rects;
    } else {
      var front, last := rs[..|rs| - 1], rs[|rs| - 1];
      EachGain(s, k, id, front);
      BoundsGain(s, AccumulateEach(s, k, id, front).0, id, last);
      assert k.layer.rects + EachBounds(s, front) + RectBounds(s, last) == k.layer.rects + EachBounds(s, rs);
    }
  }

  lemma AreaGains(s: Save, k: Sink, id: nat, area: Option<Rect>)
    ensures var (k', added) := AccumulateArea(s, k, id, area);
            && Gained(k.layer, k'.layer, DrawBounds(s, area), area.None? && !s.validClip)
            && (added <==> DrawBounds(s, area) != [])
  {
    hide FloodBounds, RectBounds, AccumulateUnbounded, AccumulateBounds;
    if area.None? { UnboundedGains(s, k, id); } else { BoundsGain(s, k, id, area.value); }
  }

  lemma ListGains(e: Engine, s: Save, k: Sink, id: nat, l: DisplayList)
    ensures var (k', added) := AccumulateList(e, s, k, id, l); var bounds := ListBounds(e, s, l, k.rtree.Some?);
            Gained(k.layer, k'.layer, bounds, l.rootUnbounded && !s.validClip) && (added <==> bounds != [])
  {
    hide FloodBounds, RectBounds, EachBounds, AccumulateUnbounded, AccumulateBounds, AccumulateEach;
    if l.rootUnbounded {
      UnboundedGains(s, k, id);
    } else if k.rtree.None? || l.rtree.None? {
      BoundsGain(s, k, id, l.bounds);
    } else {
      EachGain(s, k, id, e.consolidate(l.rtree.value, LocalCoverage(s.global)));
    }
  }

  lemma TopHolds(ls: seq<Layer>, ks: seq<Content>, l: Layer, k: Content)
    requires AllHold(ls, ks) && ls != [] && Holds(l, k)
    ensures AllHold(ls[|ls| - 1 := l], OnTop(ks, k))
  {
  }

  // A gain that is kept, with or without a mark; and one that is dropped.
  lemma GainHolds(l: Layer, l': Layer, k: Content, bounds: seq<Rect>, overlaps: bool, floods: bool)
    requires Holds(l, k) && Gained(l, l', bounds, floods)
    ensures Holds(l'.(overlapForced := l'.overlapForced || overlaps), With(k, bounds, overlaps, floods))
    ensures bounds == [] ==> Holds(l', k.(lost := k.lost || floods))
  {
    assert l.rects + [] == l.rects;
  }

  lemma DrawHolds(e: Engine, st: Recorder, ks: seq<Content>, d: Op)
    requires |st.stack| > 0 && |st.layers| > 0 && AllHold(st.layers, ks)
    ensures AllHold(DrawStep(e, st, d).layers, DrawContent(e, st, ks, d))
  {
    hide PaintResult, AccumulateArea, DrawBounds, Area, Incompatible, AllHold, Holds, Gained;
    AllHoldSize(st.layers, ks);
    if DrawsAnything(st, d) {
      var area, acc := Area(e, st.paint, d), DrawAccumulated(e, st, d);
      var floods, bounds := area.None? && !st.Top().validClip, DrawBounds(st.Top(), area);
      AreaGains(st.Top(), TopSink(st), |st.records|, area);
      OneHolds(st.layers, ks, |ks| - 1);
      GainHolds(st.Layer(), acc.0.layer, Top(ks), bounds, d.overlaps, floods);
      if bounds == [] {
        TopHolds(st.layers, ks, acc.0.layer, Top(ks).(lost := Top(ks).lost || floods));
      } else {
        var noted := NoteDraw(acc.0.layer, st.paint, st.compatible, d,
                              PaintResult(false, EffectPaint(st.paint, d), d.flags));
        NotNop(st, EffectPaint(st.paint, d), d.flags);
        NotedHolds(acc.0.layer.(overlapForced := acc.0.layer.overlapForced || d.overlaps), noted,
                   With(Top(ks), bounds, d.overlaps, floods));
        TopHolds(st.layers, ks, noted, With(Top(ks), bounds, d.overlaps, floods));
      }
    }
  }

  lemma OneHolds(ls: seq<Layer>, ks: seq<Content>, i: nat)
    requires AllHold(ls, ks) && i < |ks|
    ensures Holds(ls[i], ks[i])
  {
  }

  // What else is noted of an operation does not matter here.
  lemma NotedHolds(l: Layer, l': Layer, k: Content)
    requires Holds(l, k) && l'.rects == l.rects && l'.overlapForced == l.overlapForced && l'.unbounded == l.unbounded
    ensures Holds(l', k)
  {
  }

  lemma ListHolds(e: Engine, st: Recorder, ks: seq<Content>, l: DisplayList, o: real)
    requires |st.stack| > 0 && |st.layers| > 0 && AllHold(st.layers, ks)
    ensures AllHold(ListStep(e, st, l, o).layers, ListContent(e, st, ks, l, o))
  {
    hide AccumulateList, ListBounds, AllHold, Holds, Gained, SkipsList;
    AllHoldSize(st.layers, ks);
    if !SkipsList(l, o) && !st.Top().nop {
      var acc, bounds := ListAccumulated(e, st, l), ListBounds(e, st.Top(), l, st.rtree.Some?);
      var floods := l.rootUnbounded && !st.Top().validClip;
      ListGains(e, st.Top(), TopSink(st), |st.records|, l);
      OneHolds(st.layers, ks, |ks| - 1);
      GainHolds(st.Layer(), acc.0.layer, Top(ks), bounds, false, floods);
      if bounds == [] {
        TopHolds(st.layers, ks, acc.0.layer, Top(ks).(lost := Top(ks).lost || floods));
      } else {
        var noted := NoteList(acc.0.layer, l);
        NotedHolds(acc.0.layer, noted, With(Top(ks), bounds, false, floods));
        TopHolds(st.layers, ks, noted, With(Top(ks), bounds, false, floods));
      }
    }
  }

  lemma LayerHolds(e: Engine, st: Recorder, ks: seq<Content>, c: Call)
    requires |st.stack| > 0 && |st.layers| > 0 && AllHold(st.layers, ks) && c.LayerCall?
    ensures AllHold(LayerStep(e, st, c.bounds, c.withPaint, c.fromCaller, c.backdrop).layers,
                    LayerContent(st, ks, c.withPaint, c.backdrop.Some?))
  {
    hide PaintResult, OuterSink, OuterContent, LayerTracker, AllHold, Holds;
    AllHoldSize(st.layers, ks);
    if MakesLayer(st, c.withPaint) {
      var result := PaintResult(st.Top().nop, st.paint, LayerFlags(c.withPaint));
      var outer := OuterSink(st, c.withPaint, c.backdrop.Some?, result);
      var k := OuterContent(st.Top(), Top(ks), LayerFloods(st.paint, c.withPaint, c.backdrop.Some?));
      OneHolds(st.layers, ks, |ks| - 1);
      OuterHolds(st, Top(ks), c.withPaint, c.backdrop.Some?, result);
      TopHolds(st.layers, ks, outer.layer, k);
      var inner := NewLayer(LayerFilter(st, c.withPaint), outer.rtree,
                            c.withPaint && (!st.compatible || LayerFilter(st, c.withPaint).Some?));
      NewHolds(st.layers[|ks| - 1 := outer.layer], OnTop(ks, k), inner);
    }
  }

  lemma OuterHolds(st: Recorder, k: Content, withPaint: bool, backdrop: bool, result: OpResult)
    requires |st.stack| > 0 && |st.layers| > 0 && Holds(st.Layer(), k)
    ensures Holds(OuterSink(st, withPaint, backdrop, result).layer,
                  OuterContent(st.Top(), k, LayerFloods(st.paint, withPaint, backdrop)))
  {
    hide AccumulateUnbounded, FloodBounds, LayerFloods;
    var noted := NoteLayer(st.Layer(), st.paint, st.compatible, withPaint, backdrop, result);
    NotedHolds(st.Layer(), noted, k);
    if LayerFloods(st.paint, withPaint, backdrop) {
      UnboundedGains(st.Top(), Sink(noted, st.rtree), |st.records|);
      GainHolds(noted, OuterSink(st, withPaint, backdrop, result).layer, k, FloodBounds(st.Top()), false,
                !st.Top().validClip);
    }
  }

  lemma NewHolds(ls: seq<Layer>, ks: seq<Content>, l: Layer)
    requires AllHold(ls, ks) && l.rects == [] && !l.overlapForced && !l.unbounded
    ensures AllHold(ls + [l], ks + [NOTHING])
  {
  }

  // What closing a layer does to the summary of its parent.
  lemma TransferGains(e: Engine, st: Recorder, content: Rect)
    requires |st.stack| > 1 && |st.layers| > 1
    ensures var outer := st.layers[|st.layers| - 2];
            var k := TransferBounds(e, st.stack[|st.stack| - 2], outer, st.Layer(), st.rtree, content, |st.records|);
            Gained(outer, k.layer, ClosedBounds(e, st, content),
                   FilterFloods(e, st, content) && !st.stack[|st.stack| - 2].validClip)
  {
    hide AdjustDevice, AccumulateUnbounded, FloodBounds, MapAndClip, DeviceRects;
    var under, outer, filter := st.stack[|st.stack| - 2], st.layers[|st.layers| - 2], st.Layer().filter;
    assert outer.rects + [] == outer.rects;
    if filter.Some? {
      var device := AdjustDevice(e, filter.value, under.global, outer, st.Layer(), st.rtree);
      DeviceGainsNothing(e, filter.value, under.global, outer, st.Layer(), st.rtree);
      DeviceFloods(e, st, filter.value, under.global, outer);
      if FilterFloods(e, st, content) { UnboundedGains(under, device.0, |st.records|); }
    }
  }

  lemma DeviceGainsNothing(e: Engine, filter: ImageFilter, t: Tracker, outer: Layer, inner: Layer,
                           rtree: Option<seq<Leaf>>)
    ensures var l := AdjustDevice(e, filter, t, outer, inner, rtree).0.layer;
            l.rects == outer.rects && l.unbounded == outer.unbounded && l.overlapForced == outer.overlapForced
  {
    hide AdjustLeaves, Floods;
  }

  lemma DeviceFloods(e: Engine, st: Recorder, filter: ImageFilter, t: Tracker, outer: Layer)
    requires |st.layers| > 0
    ensures AdjustDevice(e, filter, t, outer, st.Layer(), st.rtree).1 <==>
              exists i :: 0 <= i < |DeviceRects(st)| && e.mapDevice(filter, t.matrix, DeviceRects(st)[i]).None?
  {
    hide AdjustLeaves;
    if st.rtree.Some? {
      var n, start := |st.rtree.value|, st.Layer().rtreeStart;
      var leaves := st.rtree.value[if start <= n then start else n..];
      assert DeviceRects(st) == LeafRects(leaves);
      if i :| 0 <= i < |leaves| && e.mapDevice(filter, t.matrix, leaves[i].rect).None? {
        assert DeviceRects(st)[i] == leaves[i].rect;
      }
    } else if !st.Layer().globalBox.IsEmpty() {
      assert DeviceRects(st)[0] == st.Layer().globalBox;
    }
  }

  lemma RestoreHolds(e: Engine, st: Recorder, ks: seq<Content>)
    requires st.Sized() && AllHold(st.layers, ks) && ClosesLayer(st, RestoreCall) && |st.layers| > 1
    ensures |ks| == |st.layers| && AllHold(RestoreStep(e, st).layers, CloseContent(e, st, ks))
  {
    hide TransferBounds, ClosedBounds, FilterFloods, ContentBounds, Patched, AllHold, Holds, LayerCount;
    AllHoldSize(st.layers, ks);
    var n, content := |st.layers|, Closing(st, Top(ks));
    OneHolds(st.layers, ks, n - 1);
    OneHolds(st.layers, ks, n - 2);
    assert st.Layer().(rects := Top(ks).bounds) == st.Layer() by { HoldsRects(st.Layer(), Top(ks)); }
    TransferGains(e, st, content);
    var outer := TransferBounds(e, st.stack[|st.stack| - 2], st.layers[n - 2], st.Layer(), st.rtree, content,
                                |st.records|).layer;
    var floods := FilterFloods(e, st, content) && !st.stack[|st.stack| - 2].validClip;
    var k := With(ks[n - 2], ClosedBounds(e, st, content), false, floods);
    GainHolds(st.layers[n - 2], outer, ks[n - 2], ClosedBounds(e, st, content), false, floods);
    assert outer.(overlapForced := outer.overlapForced || false) == outer;
    ShorterHolds(st.layers, ks);
    TopHolds(st.layers[..n - 1], ks[..n - 1], outer, k);
    assert RestoreStep(e, st).layers == st.layers[..n - 1][n - 2 := outer];
  }

  lemma HoldsRects(l: Layer, k: Content)
    requires Holds(l, k)
    ensures l.rects == k.bounds
  {
  }

  lemma ShorterHolds(ls: seq<Layer>, ks: seq<Content>)
    requires AllHold(ls, ks) && |ls| > 0
    ensures |ks| == |ls| && AllHold(ls[..|ls| - 1], ks[..|ks| - 1])
  {
  }

  lemma StepHolds(e: Engine, st: Recorder, ks: seq<Content>, c: Call)
    requires st.Sized() && AllHold(st.layers, ks)
    ensures |ks| == |st.layers| && AllHold(Step(e, st, c).layers, ContentStep(e, st, ks, c))
  {
    hide AllHold, DrawStep, ListStep, LayerStep, RestoreStep, TransformStep, ClipStep, LayerCount;
    hide DrawContent, ListContent, LayerContent, CloseContent;
    AllHoldSize(st.layers, ks);
    LayersAfter(e, st, c);
    match c {
      case DrawCall(d) => DrawHolds(e, st, ks, d);
      case ListCall(l, o) => ListHolds(e, st, ks, l, o);
      case LayerCall(_, _, _, _) => LayerHolds(e, st, ks, c);
      case RestoreCall => if ClosesLayer(st, c) { RestoreHolds(e, st, ks); } else { LayersKept(e, st, c); }
      case _ => LayersKept(e, st, c);
    }
  }

  lemma LayersKept(e: Engine, st: Recorder, c: Call)
    requires st.Sized() && !c.DrawCall? && !c.ListCall? && !c.LayerCall? && !ClosesLayer(st, c)
    ensures Step(e, st, c).layers == st.layers
  {
    hide Clipped, RedundantClip;
  }

  // Over every run the summary of each open layer says what is recorded directly in it: the bounds of
  // all its operations, nested lists and closed layers in order, whether one may draw over itself,
  // and whether a flood was recorded, or lost, before the layer had a clip.
  lemma {:induction false} LayersHoldTheirContents(e: Engine, start: Recorder, calls: seq<Call>)
    requires start.Sized() && AllHold(start.layers, [NOTHING])
    ensures AllHold(Run(e, start, calls).layers, ContentsOf(e, start, calls))
  {
    hide AllHold, Step, ContentStep;
    assert |start.layers| == 1 by { AllHoldSize(start.layers, [NOTHING]); }
    if calls != [] {
      var front := calls[..|calls| - 1];
      LayersHoldTheirContents(e, start, front);
      StepHolds(e, Run(e, start, front), ContentsOf(e, start, front), calls[|calls| - 1]);
    }
  }

  lemma AllHoldSize(ls: seq<Layer>, ks: seq<Content>)
    requires AllHold(ls, ks)
    ensures |ls| == |ks|
  {
  }

  lemma StartHolds(cull: Rect, prepareRTree: bool)
    ensures AllHold(Start(cull, prepareRTree).layers, [NOTHING])
  {
  }
}
