/** What a built list shows lies within what it says of itself: its bounds, and the rectangles of its
    rtree if it has one. This is what the recorder relies on when the list is nested in another. */
module Extents {
  import opened Geometry
  import opened Painting
  import opened Blending
  import opened DisplayLists
  import opened Recorder
  import opened Emission
  import opened Matrices
  import opened Reference
  import opened Meaning
  import opened Contents
  import LayerSummaries

  // The points that an event draws to.
  ghost predicate DrawsTo(w: World, event: Event, q: Point) {
    match event
    case DrawEvent(d, p, m, clip) => q in clip && w.footprint(p, d, w.At(m), q)
    case ListEvent(l, _, m, clip) => q in clip && w.content(l, w.At(m), q)
    case _ => false
  }

  // Under the matrix m the point is in a rectangle of the rtree, or in the box of an open layer if there is
  // no rtree.
  ghost predicate Noted(m: Matrix, st: Recorder, q: Point) { st.count > 0 && Stored(m, st, q) }

  ghost predicate Stored(m: Matrix, st: Recorder, q: Point) {
    if st.rtree.Some? then InLeaves(m, st.rtree.value, q) else InBoxes(m, st.layers, q)
  }

  ghost predicate InLeaves(m: Matrix, leaves: seq<Leaf>, q: Point) {
    exists i :: 0 <= i < |leaves| && InBase(m, leaves[i].rect, q)
  }

  ghost predicate InBoxes(m: Matrix, ls: seq<Layer>, q: Point) {
    exists i :: 0 <= i < |ls| && InBase(m, ls[i].globalBox, q)
  }

  ghost predicate NoFilters(ls: seq<Layer>) { forall i :: 0 <= i < |ls| ==> ls[i].filter.None? }

  // ---------- what was noted stays ----------

  // A layer's box only grows, and rectangles are only added.
  ghost predicate Grows(m: Matrix, k: Sink, k': Sink) {
    && (k.rtree.Some? ==> k'.rtree.Some? && k.rtree.value <= k'.rtree.value)
    && (k.rtree.None? ==> k'.rtree.None?)
    && (forall q :: InBase(m, k.layer.globalBox, q) ==> InBase(m, k'.layer.globalBox, q))
    && k'.layer.filter == k.layer.filter
  }

  lemma UnionKeeps(m: Matrix, a: Rect, b: Rect, q: Point)
    requires InBase(m, a, q) || InBase(m, b, q)
    ensures InBase(m, Union(a, b), q)
  {
    if InBase(m, a, q) { MapMonotone(m, Union(a, b), a); } else { MapMonotone(m, Union(a, b), b); }
  }

  lemma AddGrows(m: Matrix, k: Sink, global: Rect, local: Rect, id: nat)
    ensures var k' := AddBounds(k, global, local, id);
            Grows(m, k, k') && forall q :: InBase(m, global, q) ==> AddedTo(m, k', id, q)
  {
    var k' := AddBounds(k, global, local, id);
    forall q | InBase(m, k.layer.globalBox, q) || InBase(m, global, q)
      ensures InBase(m, Union(k.layer.globalBox, global), q)
    {
      UnionKeeps(m, k.layer.globalBox, global, q);
    }
    if k.rtree.Some? {
      assert k'.rtree.value[|k.rtree.value|].rect == global;
    }
  }

  // The point is in a rectangle of the record with this index, or in the layer's box.
  ghost predicate AddedTo(m: Matrix, k: Sink, id: nat, q: Point) {
    if k.rtree.Some? then HasLeaf(m, k.rtree.value, id, q) else InBase(m, k.layer.globalBox, q)
  }

  ghost predicate HasLeaf(m: Matrix, leaves: seq<Leaf>, id: nat, q: Point) {
    exists i :: 0 <= i < |leaves| && leaves[i].id == id && InBase(m, leaves[i].rect, q)
  }

  lemma UnboundedGrows(m: Matrix, s: Save, k: Sink, id: nat)
    ensures var x := AccumulateUnbounded(s, k, id);
            Grows(m, k, x.0) && (x.1 ==> forall q :: InBase(m, s.global.cull, q) ==> AddedTo(m, x.0, id, q))
  {
    hide MapAndClip, LocalCoverage, AddBounds, AddedTo;
    var marked := if s.validClip then k else k.(layer := k.layer.(unbounded := true));
    AddGrows(m, marked, s.global.cull, MapAndClip(s.local, LocalCoverage(s.global)), id);
  }

  lemma BoundsGrow(m: Matrix, s: Save, k: Sink, id: nat, r: Rect)
    ensures var x := AccumulateBounds(s, k, id, r);
            Grows(m, k, x.0) && (x.1 ==> forall q :: InBase(m, MapAndClip(s.global, r), q) ==> AddedTo(m, x.0, id, q))
  {
    hide MapAndClip, AddBounds, AddedTo;
    AddGrows(m, k, MapAndClip(s.global, r), MapAndClip(s.local, r), id);
  }

  lemma GrowsTwice(m: Matrix, k: Sink, k1: Sink, k2: Sink, id: nat)
    requires Grows(m, k, k1) && Grows(m, k1, k2)
    ensures Grows(m, k, k2) && forall q :: AddedTo(m, k1, id, q) ==> AddedTo(m, k2, id, q)
  {
    forall q | AddedTo(m, k1, id, q) ensures AddedTo(m, k2, id, q) {
      if k1.rtree.Some? {
        var i :| 0 <= i < |k1.rtree.value| && k1.rtree.value[i].id == id && InBase(m, k1.rtree.value[i].rect, q);
        assert k2.rtree.value[i] == k1.rtree.value[i];
      }
    }
  }

  // Every rectangle of the sequence is added as far as it is visible.
  lemma {:induction false} EachGrows(m: Matrix, s: Save, k: Sink, id: nat, rs: seq<Rect>, q: Point)
    ensures Grows(m, k, AccumulateEach(s, k, id, rs).0)
    ensures forall i ::
              0 <= i < |rs| && AccumulateBounds(s, k, id, rs[i]).1 && InBase(m, MapAndClip(s.global, rs[i]), q) ==>
              AccumulateEach(s, k, id, rs).1 && AddedTo(m, AccumulateEach(s, k, id, rs).0, id, q)
  {
    hide MapAndClip, AccumulateBounds, Grows, AddedTo;
    if rs == [] {
      GrowsSelf(m, k);
    } else {
      var front, last := rs[..|rs| - 1], rs[|rs| - 1];
      EachGrows(m, s, k, id, front, q);
      var k1 := AccumulateEach(s, k, id, front).0;
      BoundsGrow(m, s, k1, id, last);
      SameVerdict(s, k, k1, id, last);
      GrowsTwice(m, k, k1, AccumulateBounds(s, k1, id, last).0, id);
      assert forall i :: 0 <= i < |front| ==> front[i] == rs[i];
    }
  }

  lemma GrowsSelf(m: Matrix, k: Sink)
    ensures Grows(m, k, k)
  {
  }

  lemma SameVerdict(s: Save, k: Sink, k': Sink, id: nat, r: Rect)
    ensures AccumulateBounds(s, k, id, r).1 == AccumulateBounds(s, k', id, r).1
  {
  }

  // ---------- what is shown is noted ----------

  lemma InMapAndClip(w: World, s: Save, r: Rect, q: Point)
    requires Inside(q, MapRect(w.At(s.global.matrix), r)) && InBase(w.outer, s.global.cull, q)
    ensures InBase(w.outer, MapAndClip(s.global, r), q)
  {
    hide Compose;
    if !w.At(s.global.matrix).Invertible() { SingularCoversNothing(w.At(s.global.matrix), r, q); }
    ComposeInvertible(w.outer, s.global.matrix);
    MapNonEmpty(s.global.matrix, r);
    MapCompose(w.outer, s.global.matrix, r);
    MapIntersection(w.outer, MapRect(s.global.matrix, r), s.global.cull, q);
  }

  lemma AreaAdded(e: Engine, w: World, s: Save, base: Matrix, k: Sink, id: nat, p: Paint, d: Op, q: Point)
    requires SoundAreas(e, w) && Linked(s, base) && s.global.matrix.Invertible() && Seen(w, s, base, q)
    requires w.footprint(p, d, w.At(s.global.matrix), q)
    ensures var x := AccumulateArea(s, k, id, Area(e, p, d)); x.1 && AddedTo(w.outer, x.0, id, q)
  {
    hide AccumulateUnbounded, AccumulateBounds, Area, AddedTo, MapAndClip, Grows, Compose;
    var area := Area(e, p, d);
    if !AccumulateArea(s, k, id, area).1 { AreaMisses(e, w, s, base, k, id, p, d, q); }
    if area.None? {
      UnboundedGrows(w.outer, s, k, id);
    } else {
      BoundsGrow(w.outer, s, k, id, area.value);
      InMapAndClip(w, s, area.value, q);
    }
  }

  lemma ListAdded(e: Engine, w: World, s: Save, base: Matrix, k: Sink, id: nat, l: DisplayList, q: Point)
    requires SoundConsolidation(e.consolidate) && SoundAreas(e, w)
    requires Linked(s, base) && s.global.matrix.Invertible() && Seen(w, s, base, q)
    requires w.content(l, w.At(s.global.matrix), q)
    ensures var x := AccumulateList(e, s, k, id, l); x.1 && AddedTo(w.outer, x.0, id, q)
  {
    hide AccumulateUnbounded, AccumulateBounds, AccumulateEach, AddedTo, MapAndClip, Grows, Compose, LocalCoverage;
    if !AccumulateList(e, s, k, id, l).1 { ListMisses(e, w, s, base, k, id, l, q); }
    if l.rootUnbounded {
      UnboundedGrows(w.outer, s, k, id);
    } else if k.rtree.None? || l.rtree.None? {
      BoundsGrow(w.outer, s, k, id, l.bounds);
      InMapAndClip(w, s, l.bounds, q);
    } else {
      ConsolidatedAdded(e, w, s, base, k, id, l.rtree.value, q);
    }
  }

  lemma ConsolidatedAdded(e: Engine, w: World, s: Save, base: Matrix, k: Sink, id: nat, leaves: seq<Leaf>, q: Point)
    requires SoundConsolidation(e.consolidate)
    requires Linked(s, base) && s.global.matrix.Invertible() && Seen(w, s, base, q)
    requires InAny(LeafRects(leaves), w.At(s.global.matrix), q)
    ensures var x := AccumulateEach(s, k, id, e.consolidate(leaves, LocalCoverage(s.global)));
            x.1 && AddedTo(w.outer, x.0, id, q)
  {
    hide AccumulateBounds, AddedTo, MapAndClip, Grows, Compose, LocalCoverage, MapRect;
    var query := LocalCoverage(s.global);
    CoverageCovers(w, s, base, q);
    var rs := e.consolidate(leaves, query);
    assert InAny(rs, w.At(s.global.matrix), q);
    var i :| 0 <= i < |rs| && Inside(q, MapRect(w.At(s.global.matrix), rs[i]));
    InMapAndClip(w, s, rs[i], q);
    if !AccumulateBounds(s, k, id, rs[i]).1 { BoundsMiss(w, s, base, k, id, rs[i], q); }
    EachGrows(w.outer, s, k, id, rs, q);
  }

  lemma BoundsMiss(w: World, s: Save, base: Matrix, k: Sink, id: nat, r: Rect, q: Point)
    requires Linked(s, base) && Seen(w, s, base, q) && !AccumulateBounds(s, k, id, r).1
    ensures !Inside(q, MapRect(w.At(s.global.matrix), r))
  {
    CullMisses(w, s, base, r, q);
  }

  // ---------- every step keeps what was noted ----------

  lemma DrainKeeps(m: Matrix, st: Recorder, k: Sink, id: nat, q: Point)
    requires |st.layers| > 0 && Grows(m, TopSink(st), k)
    ensures Stored(m, st, q) ==> Stored(m, Drain(st, k), q)
    ensures AddedTo(m, k, id, q) ==> Stored(m, Drain(st, k), q)
    ensures NoFilters(st.layers) ==> NoFilters(Drain(st, k).layers)
    ensures Drain(st, k).count == st.count && Drain(st, k).stack == st.stack && |Drain(st, k).layers| == |st.layers|
  {
    var st', n := Drain(st, k), |st.layers| - 1;
    if AddedTo(m, k, id, q) && k.rtree.None? { assert InBase(m, st'.layers[n].globalBox, q); }
    if Stored(m, st, q) {
      if st.rtree.Some? {
        var i :| 0 <= i < |st.rtree.value| && InBase(m, st.rtree.value[i].rect, q);
        assert st'.rtree.value[i] == st.rtree.value[i];
      } else {
        var i :| 0 <= i < |st.layers| && InBase(m, st.layers[i].globalBox, q);
        assert InBase(m, st'.layers[i].globalBox, q);
      }
    }
  }

  // What is noted of an operation besides its bounds does not matter here.
  lemma NoteGrows(m: Matrix, k: Sink, k': Sink, l: Layer, id: nat)
    requires Grows(m, k, k') && l.globalBox == k'.layer.globalBox && l.filter == k'.layer.filter
    ensures Grows(m, k, k'.(layer := l)) && forall q :: AddedTo(m, k', id, q) ==> AddedTo(m, k'.(layer := l), id, q)
  {
  }

  lemma AreaGrows(m: Matrix, s: Save, k: Sink, id: nat, area: Option<Rect>)
    ensures Grows(m, k, AccumulateArea(s, k, id, area).0)
  {
    hide AccumulateUnbounded, AccumulateBounds, Grows, MapAndClip;
    if area.None? { UnboundedGrows(m, s, k, id); } else { BoundsGrow(m, s, k, id, area.value); }
  }

  lemma ListGrows(m: Matrix, e: Engine, s: Save, k: Sink, id: nat, l: DisplayList)
    ensures Grows(m, k, AccumulateList(e, s, k, id, l).0)
  {
    hide AccumulateUnbounded, AccumulateBounds, AccumulateEach, Grows, MapAndClip;
    UnboundedGrows(m, s, k, id);
    BoundsGrow(m, s, k, id, l.bounds);
    if l.rtree.Some? {
      EachGrows(m, s, k, id, e.consolidate(l.rtree.value, LocalCoverage(s.global)), Point(0.0, 0.0));
    }
  }

  // A draw keeps what is stored, and stores what it accumulates if it is recorded.
  lemma DrawKeeps(m: Matrix, e: Engine, st: Recorder, d: Op, q: Point)
    requires |st.stack| > 0 && |st.layers| > 0
    ensures var st' := DrawStep(e, st, d);
            && (Stored(m, st, q) ==> Stored(m, st', q)) && (NoFilters(st.layers) ==> NoFilters(st'.layers))
               && st'.count >= st.count
            && (RecordsDraw(e, st, d) && AddedTo(m, DrawAccumulated(e, st, d).0, |st.records|, q) ==>
                  Stored(m, st', q) && st'.count > 0)
    ensures RecordsDraw(e, st, d) ==> DrawStep(e, st, d).rtree == DrawAccumulated(e, st, d).0.rtree
  {
    hide PaintResult, AccumulateArea, Area, Grows, Stored, AddedTo, Incompatible, NoFilters;
    if DrawsAnything(st, d) {
      var k := DrawAccumulated(e, st, d).0;
      AreaGrows(m, st.Top(), TopSink(st), |st.records|, Area(e, st.paint, d));
      DrainKeeps(m, st, k, |st.records|, q);
      var result := PaintResult(st.Top().nop, EffectPaint(st.paint, d), d.flags);
      var l := NoteDraw(k.layer, st.paint, st.compatible, d, result);
      NoteGrows(m, TopSink(st), k, l, |st.records|);
      DrainKeeps(m, st, k.(layer := l), |st.records|, q);
      PushStored(m, Drain(st, k.(layer := l)), DrawRec(d), q);
    }
  }

  lemma PushStored(m: Matrix, st: Recorder, r: Record, q: Point)
    ensures Stored(m, Push(st, r), q) == Stored(m, st, q)
    ensures Push(st, r).layers == st.layers && Push(st, r).rtree == st.rtree
    ensures Push(st, r).count == st.count + r.CountInc()
  {
  }

  lemma ListKeeps(m: Matrix, e: Engine, st: Recorder, l: DisplayList, o: real, q: Point)
    requires |st.stack| > 0 && |st.layers| > 0
    ensures var st' := ListStep(e, st, l, o);
            && (Stored(m, st, q) ==> Stored(m, st', q)) && (NoFilters(st.layers) ==> NoFilters(st'.layers))
               && st'.count >= st.count
            && (RecordsList(e, st, l, o) && AddedTo(m, ListAccumulated(e, st, l).0, |st.records|, q) ==>
                  Stored(m, st', q) && st'.count > 0)
    ensures RecordsList(e, st, l, o) ==> ListStep(e, st, l, o).rtree == ListAccumulated(e, st, l).0.rtree
  {
    hide AccumulateList, Grows, AddedTo, NoFilters, SkipsList, InLeaves, InBoxes;
    if !SkipsList(l, o) && !st.Top().nop {
      var k := ListAccumulated(e, st, l).0;
      ListGrows(m, e, st.Top(), TopSink(st), |st.records|, l);
      DrainKeeps(m, st, k, |st.records|, q);
      NoteGrows(m, TopSink(st), k, NoteList(k.layer, l), |st.records|);
      DrainKeeps(m, st, k.(layer := NoteList(k.layer, l)), |st.records|, q);
    }
  }

  lemma LayerKeeps(m: Matrix, e: Engine, st: Recorder, c: Call, q: Point)
    requires |st.stack| > 0 && |st.layers| > 0 && c.LayerCall? && NoFilters(st.layers)
    requires c.withPaint ==> st.paint.imageFilter.None?
    ensures var st' := LayerStep(e, st, c.bounds, c.withPaint, c.fromCaller, c.backdrop);
            (Stored(m, st, q) ==> Stored(m, st', q)) && NoFilters(st'.layers) && st'.count >= st.count
  {
    hide PaintResult, OuterSink, LayerEntry, Grows, AddedTo, Stored, Push, Drain;
    if MakesLayer(st, c.withPaint) {
      hide LayerStep;
      LayerOpens(e, st, c);
      var k := OuterOf(st, c);
      OuterGrows(m, st, c.withPaint, c.backdrop.Some?, PaintResult(st.Top().nop, st.paint, LayerFlags(c.withPaint)));
      DrainKeeps(m, st, k, |st.records|, q);
      var outer, l := Drain(st, k), InnerLayer(st, c.withPaint, k.rtree);
      var deeper := WithEntry(outer, LayerEntry(e, st, c.bounds, c.withPaint, c.fromCaller), l);
      OpenKeeps(m, outer, deeper, q);
      PushStored(m, deeper, OpeningRecord(c.bounds, c.withPaint, c.fromCaller, c.backdrop), q);
    } else {
      SameStored(m, st, LayerStep(e, st, c.bounds, c.withPaint, c.fromCaller, c.backdrop), q);
    }
  }

  lemma SameStored(m: Matrix, st: Recorder, st': Recorder, q: Point)
    requires st'.layers == st.layers && st'.rtree == st.rtree
    ensures Stored(m, st', q) == Stored(m, st, q)
  {
  }

  // A layer is added.
  lemma OpenKeeps(m: Matrix, st: Recorder, st': Recorder, q: Point)
    requires |st'.layers| > 0 && st'.layers == st.layers + [st'.Layer()] && st'.rtree == st.rtree
    ensures Stored(m, st, q) ==> Stored(m, st', q)
  {
    if Stored(m, st, q) && st.rtree.None? {
      var i :| 0 <= i < |st.layers| && InBase(m, st.layers[i].globalBox, q);
      assert InBase(m, st'.layers[i].globalBox, q);
    }
  }

  lemma OuterGrows(m: Matrix, st: Recorder, withPaint: bool, backdrop: bool, result: OpResult)
    requires |st.stack| > 0 && |st.layers| > 0
    ensures Grows(m, TopSink(st), OuterSink(st, withPaint, backdrop, result))
  {
    hide AccumulateUnbounded, LayerFloods, AddedTo;
    var noted := Sink(NoteLayer(st.Layer(), st.paint, st.compatible, withPaint, backdrop, result), st.rtree);
    UnboundedGrows(m, st.Top(), noted, |st.records|);
  }

  lemma CloseKeeps(m: Matrix, e: Engine, st: Recorder, q: Point)
    requires |st.stack| > 1 && |st.layers| > 1 && NoFilters(st.layers)
    ensures var st' := CloseLayer(e, st);
            (Stored(m, st, q) ==> Stored(m, st', q)) && NoFilters(st'.layers) && st'.count == st.count
  {
    hide ContentBounds, MapAndClip, InLeaves, Inside;
    var st', n := CloseLayer(e, st), |st.layers|;
    var outer, inner := st.layers[n - 2], st.layers[n - 1];
    assert st'.layers == st.layers[..n - 2] + [st'.layers[n - 2]];
    assert st'.rtree == st.rtree && st'.layers[n - 2].globalBox == Union(outer.globalBox, inner.globalBox);
    if Stored(m, st, q) && st.rtree.None? {
      var i :| 0 <= i < n && InBase(m, st.layers[i].globalBox, q);
      if i >= n - 2 {
        UnionKeeps(m, outer.globalBox, inner.globalBox, q);
        assert InBase(m, st'.layers[n - 2].globalBox, q);
      } else {
        assert st'.layers[i] == st.layers[i];
      }
    }
  }

  lemma RestoreKeeps(m: Matrix, e: Engine, st: Recorder, q: Point)
    requires st.Sized() && NoFilters(st.layers)
    ensures var st' := RestoreStep(e, st);
            (Stored(m, st, q) ==> Stored(m, st', q)) && NoFilters(st'.layers) && st'.count >= st.count
  {
    hide CloseLayer, PatchRecord, LayerCount, InLeaves, InBoxes;
    if |st.stack| > 1 {
      LayersAfter(e, st, RestoreCall);
      if st.Top().isLayer { CloseKeeps(m, e, st, q); }
    }
  }

  lemma OtherKeeps(e: Engine, st: Recorder, c: Call, q: Point)
    requires st.Sized() && (c.AttrCall? || c.SaveCall? || c.TransformCall? || c.ClipCall?)
    ensures Step(e, st, c).layers == st.layers && Step(e, st, c).rtree == st.rtree && Step(e, st, c).count >= st.count
  {
    hide Clipped, RedundantClip, LocalAfter, GlobalAfter, LayerCount, Normal, Trivial, SetAttr;
  }

  lemma StepKeeps(m: Matrix, e: Engine, st: Recorder, c: Call, q: Point)
    requires st.Sized() && NoFilters(st.layers) && (c.LayerCall? && c.withPaint ==> st.paint.imageFilter.None?)
    ensures NoFilters(Step(e, st, c).layers) && (Noted(m, st, q) ==> Noted(m, Step(e, st, c), q))
  {
    hide NoFilters, InLeaves, InBoxes, DrawStep, ListStep, LayerStep, RestoreStep, TransformStep, ClipStep, AttrStep,
         LayerCount;
    LayerCountPositive(st.stack);
    match c {
      case DrawCall(d) => DrawKeeps(m, e, st, d, q);
      case ListCall(l, o) => ListKeeps(m, e, st, l, o, q);
      case LayerCall(_, _, _, _) => LayerKeeps(m, e, st, c, q);
      case RestoreCall => RestoreKeeps(m, e, st, q);
      case _ => OtherKeeps(e, st, c, q);
    }
  }

  // The rectangles of the rtree stay, with their indices.
  ghost predicate LeavesStay(st: Recorder, st': Recorder) {
    st.rtree.Some? ==> st'.rtree.Some? && st.rtree.value <= st'.rtree.value
  }

  lemma StepLeavesStay(e: Engine, st: Recorder, c: Call)
    requires st.Sized() && NoFilters(st.layers)
    ensures LeavesStay(st, Step(e, st, c))
  {
    hide NoFilters, LayerCount;
    LayerCountPositive(st.stack);
    match c {
      case DrawCall(d) => DrawLeavesStay(e, st, d);
      case ListCall(l, o) => ListLeavesStay(e, st, l, o);
      case LayerCall(_, _, _, _) => LayerLeavesStay(e, st, c);
      case RestoreCall => RestoreLeavesStay(e, st);
      case _ => OtherKeeps(e, st, c, Point(0.0, 0.0));
    }
  }

  lemma DrawLeavesStay(e: Engine, st: Recorder, d: Op)
    requires |st.stack| > 0 && |st.layers| > 0
    ensures LeavesStay(st, DrawStep(e, st, d))
  {
    hide PaintResult, AccumulateArea, Area, Incompatible;
    AreaGrows(IDENTITY, st.Top(), TopSink(st), |st.records|, Area(e, st.paint, d));
  }

  lemma ListLeavesStay(e: Engine, st: Recorder, l: DisplayList, o: real)
    requires |st.stack| > 0 && |st.layers| > 0
    ensures LeavesStay(st, ListStep(e, st, l, o))
  {
    hide AccumulateList, SkipsList;
    ListGrows(IDENTITY, e, st.Top(), TopSink(st), |st.records|, l);
  }

  lemma LayerLeavesStay(e: Engine, st: Recorder, c: Call)
    requires |st.stack| > 0 && |st.layers| > 0 && c.LayerCall?
    ensures LeavesStay(st, LayerStep(e, st, c.bounds, c.withPaint, c.fromCaller, c.backdrop))
  {
    hide PaintResult, OuterSink, LayerEntry;
    OuterGrows(IDENTITY, st, c.withPaint, c.backdrop.Some?,
               PaintResult(st.Top().nop, st.paint, LayerFlags(c.withPaint)));
  }

  lemma RestoreLeavesStay(e: Engine, st: Recorder)
    requires st.Sized() && NoFilters(st.layers)
    ensures LeavesStay(st, RestoreStep(e, st))
  {
    hide PatchRecord, LayerCount, ContentBounds, AccumulateLocal;
    if |st.stack| > 1 { LayersAfter(e, st, RestoreCall); }
  }

  // ---------- whole runs ----------

  // All that the events so far draw to has been noted.
  ghost predicate AllNoted(w: World, st: Recorder, events: seq<Event>) {
    forall k, q :: 0 <= k < |events| && DrawsTo(w, events[k], q) ==> Noted(w.outer, st, q)
  }

  // What a draw or a nested list shows, it notes, in the rtree under the index of its record.
  lemma ShownIsNoted(e: Engine, w: World, st: Recorder, direct: Screen, replayed: Screen, c: Call, q: Point)
    requires SoundEngine(e, w) && w.optics.Valid() && Related(w, st, direct, replayed) && |st.layers| > 0
    requires Admissible(w, direct, c) && |PlayOne(w, direct, c).events| > |direct.events|
    requires DrawsTo(w, PlayOne(w, direct, c).events[|direct.events|], q)
    ensures Noted(w.outer, Step(e, st, c), q)
    ensures Step(e, st, c).rtree.Some? ==> HasLeaf(w.outer, Step(e, st, c).rtree.value, |st.records|, q)
  {
    hide Related, SoundNarrowing, SoundCovering, SoundConsolidation, SoundAreas, Admissible, Step, DrawsTo, Noted;
    hide HasLeaf;
    if c.DrawCall? {
      ShownDrawIsNoted(e, w, st, direct, replayed, c.draw, q);
    } else if c.ListCall? {
      ShownListIsNoted(e, w, st, direct, replayed, c.list, c.opacity, q);
    } else {
      RelatedSized(w, st, direct, replayed);
      OthersShowNothing(w, direct, c, q);
    }
  }

  lemma OthersShowNothing(w: World, s: Screen, c: Call, q: Point)
    requires s.Valid() && !c.DrawCall? && !c.ListCall? && |PlayOne(w, s, c).events| > |s.events|
    ensures !DrawsTo(w, PlayOne(w, s, c).events[|s.events|], q)
  {
    hide ShowsLayer, HasEffect;
  }

  lemma ShownDrawIsNoted(e: Engine, w: World, st: Recorder, direct: Screen, replayed: Screen, d: Op, q: Point)
    requires SoundAreas(e, w) && w.optics.Valid() && Related(w, st, direct, replayed) && |st.layers| > 0
    requires Admissible(w, direct, DrawCall(d)) && |PlayOne(w, direct, DrawCall(d)).events| > |direct.events|
    requires DrawsTo(w, PlayOne(w, direct, DrawCall(d)).events[|direct.events|], q)
    ensures Noted(w.outer, Step(e, st, DrawCall(d)), q)
    ensures var st' := Step(e, st, DrawCall(d));
            st'.rtree.Some? ==> HasLeaf(w.outer, st'.rtree.value, |st.records|, q)
  {
    hide FramesRelated, SoundAreas, HasEffect, DrawStep, AddedTo, AccumulateArea, PaintResult, Area, InLeaves, InBoxes;
    hide Seen, Linked, LayerCount;
    TopFacts(w, st, direct, replayed);
    if !DrawsAnything(st, d) { InvisibleDraw(w, st, direct, d); }
    NotNop(st, EffectPaint(st.paint, d), d.flags);
    TopSees(w, st, direct, replayed, q);
    AreaAdded(e, w, st.Top(), Base(st.stack, |st.stack| - 1), TopSink(st), |st.records|, st.paint, d, q);
    DrawKeeps(w.outer, e, st, d, q);
    AddedHasLeaf(w.outer, DrawAccumulated(e, st, d).0, |st.records|, q);
  }

  lemma AddedHasLeaf(m: Matrix, k: Sink, id: nat, q: Point)
    requires AddedTo(m, k, id, q)
    ensures k.rtree.Some? ==> HasLeaf(m, k.rtree.value, id, q)
  {
  }

  lemma ShownListIsNoted(e: Engine, w: World, st: Recorder, direct: Screen, replayed: Screen, l: DisplayList, o: real,
                         q: Point)
    requires SoundConsolidation(e.consolidate) && SoundAreas(e, w)
    requires Related(w, st, direct, replayed) && |st.layers| > 0 && Admissible(w, direct, ListCall(l, o))
    requires |PlayOne(w, direct, ListCall(l, o)).events| > |direct.events|
    requires DrawsTo(w, PlayOne(w, direct, ListCall(l, o)).events[|direct.events|], q)
    ensures Noted(w.outer, Step(e, st, ListCall(l, o)), q)
    ensures var st' := Step(e, st, ListCall(l, o));
            st'.rtree.Some? ==> HasLeaf(w.outer, st'.rtree.value, |st.records|, q)
  {
    hide FramesRelated, SoundAreas, SoundConsolidation, ListStep, AddedTo, AccumulateList, SkipsList, InLeaves, InBoxes;
    hide Seen, Linked, LayerCount;
    TopFacts(w, st, direct, replayed);
    if SkipsList(l, o) { SkippedListsAreEmpty(e, w, direct.Top(), l, o); }
    TopSees(w, st, direct, replayed, q);
    ListAdded(e, w, st.Top(), Base(st.stack, |st.stack| - 1), TopSink(st), |st.records|, l, q);
    ListKeeps(w.outer, e, st, l, o, q);
    AddedHasLeaf(w.outer, ListAccumulated(e, st, l).0, |st.records|, q);
  }

  lemma StepNotes(e: Engine, w: World, st: Recorder, direct: Screen, replayed: Screen, c: Call)
    requires SoundEngine(e, w) && w.optics.Valid() && Related(w, st, direct, replayed) && |st.layers| > 0
    requires Admissible(w, direct, c) && NoFilters(st.layers) && AllNoted(w, st, direct.events)
    requires c.LayerCall? && c.withPaint ==> direct.paint.imageFilter.None?
    ensures st.Sized() && NoFilters(Step(e, st, c).layers) && AllNoted(w, Step(e, st, c), PlayOne(w, direct, c).events)
  {
    hide SoundEngine, Related, Step, Noted, NoFilters, DrawsTo;
    RelatedSized(w, st, direct, replayed);
    StepKeeps(w.outer, e, st, c, Point(0.0, 0.0));
    var events := PlayOne(w, direct, c).events;
    OneEvent(w, direct, c);
    forall k, q | 0 <= k < |events| && DrawsTo(w, events[k], q) ensures Noted(w.outer, Step(e, st, c), q) {
      if k < |direct.events| {
        StepKeeps(w.outer, e, st, c, q);
      } else {
        ShownIsNoted(e, w, st, direct, replayed, c, q);
      }
    }
  }

  lemma OneEvent(w: World, s: Screen, c: Call)
    requires s.Valid()
    ensures s.events <= PlayOne(w, s, c).events && |PlayOne(w, s, c).events| <= |s.events| + 1
  {
  }

  function PaintAfter(calls: seq<Call>): Paint {
    if calls == [] then DefaultPaint(BLACK)
    else
      var before, c := PaintAfter(calls[..|calls| - 1]), calls[|calls| - 1];
      if c.AttrCall? then SetAttr(before, c.attr) else before
  }

  // No layer has an image filter, so that content is shown where it is drawn.
  ghost predicate PlainLayers(calls: seq<Call>) {
    forall n :: 0 <= n < |calls| && calls[n].LayerCall? && calls[n].withPaint ==>
      PaintAfter(calls[..n]).imageFilter.None?
  }

  lemma {:induction false} PlayedPaint(w: World, cull: Rect, calls: seq<Call>)
    ensures Play(w, Begin(w, cull), calls).paint == PaintAfter(calls)
  {
    if calls != [] { PlayedPaint(w, cull, calls[..|calls| - 1]); }
  }

  lemma PlainFront(calls: seq<Call>)
    requires PlainLayers(calls) && calls != []
    ensures PlainLayers(calls[..|calls| - 1])
  {
    var n := |calls| - 1;
    assert forall i :: 0 <= i < n ==> calls[..n][i] == calls[i] && calls[..n][..i] == calls[..i];
  }

  lemma {:induction false} RunNotes(e: Engine, w: World, cull: Rect, prepareRTree: bool, calls: seq<Call>)
    requires SoundEngine(e, w) && w.optics.Valid() && AdmissibleRun(w, Begin(w, cull), calls) && PlainLayers(calls)
    ensures var st := Run(e, Start(cull, prepareRTree), calls);
            NoFilters(st.layers) && AllNoted(w, st, Play(w, Begin(w, cull), calls).events)
  {
    hide SoundEngine, Related, Admissible, PlayOne, Step, AllNoted, NoFilters;
    var start := Start(cull, prepareRTree);
    if calls == [] {
      StartNotes(w, cull, prepareRTree);
    } else {
      var front, c := calls[..|calls| - 1], calls[|calls| - 1];
      PlainFront(calls);
      PlayedPaint(w, cull, front);
      RunNotes(e, w, cull, prepareRTree, front);
      StartEmpty(cull, prepareRTree);
      StartRelated(w, cull, prepareRTree);
      RunKeepsMeaning(e, w, start, Begin(w, cull), Begin(w, cull), front);
      var st, direct := Run(e, start, front), Play(w, Begin(w, cull), front);
      LayerCountPositive(st.stack);
      StepNotes(e, w, st, direct, Play(w, Begin(w, cull), Skeleton(st.records)), c);
    }
  }

  lemma StartNotes(w: World, cull: Rect, prepareRTree: bool)
    ensures NoFilters(Start(cull, prepareRTree).layers) && AllNoted(w, Start(cull, prepareRTree), Begin(w, cull).events)
  {
  }

  lemma {:induction false} FinishKeeps(m: Matrix, e: Engine, st: Recorder, q: Point)
    requires st.Sized() && NoFilters(st.layers) && Noted(m, st, q)
    ensures Noted(m, Finish(e, st), q)
    decreases |st.stack|
  {
    hide NoFilters, InLeaves, InBoxes, RestoreStep;
    if |st.stack| > 1 {
      RestoreKeeps(m, e, st, q);
      RestoreSized(e, st);
      RestoreShrinks(e, st);
      FinishKeeps(m, e, RestoreStep(e, st), q);
    }
  }

  lemma NotedIsInList(m: Matrix, st: Recorder, q: Point)
    requires |st.layers| == 1 && Noted(m, st, q)
    ensures InList(Built(st), m, q)
  {
    var l := Built(st);
    if st.rtree.Some? {
      var leaves := st.rtree.value;
      var i :| 0 <= i < |leaves| && InBase(m, leaves[i].rect, q);
      LayerSummaries.BoxContains(LeafRects(leaves), i);
      MapMonotone(m, l.bounds, leaves[i].rect);
      assert InBase(m, LeafRects(leaves)[i], q);
    }
  }

  // Whatever a built list shows at any point, by a draw of its own or by a nested list, lies within its
  // bounds and its rtree, so as the content of another list it is where that list expects it.
  lemma BuiltListsHoldTheirDraws(e: Engine, w: World, cull: Rect, prepareRTree: bool, calls: seq<Call>, k: nat,
                                 q: Point)
    requires SoundEngine(e, w) && w.optics.Valid() && AdmissibleRun(w, Begin(w, cull), calls) && PlainLayers(calls)
    requires var s := Play(w, Begin(w, cull), calls); k < |s.events| && DrawsTo(w, s.events[k], q)
    ensures InList(Build(e, cull, prepareRTree, calls), w.outer, q)
  {
    hide SoundEngine, AdmissibleRun, Play, Run, Finish, Start, Noted, InList, Built, DrawsTo, NoFilters;
    RunNotes(e, w, cull, prepareRTree, calls);
    var st := Run(e, Start(cull, prepareRTree), calls);
    FinishKeeps(w.outer, e, st, q);
    LayerSummaries.OneLayer(Finish(e, st));
    NotedIsInList(w.outer, Finish(e, st), q);
  }
}
