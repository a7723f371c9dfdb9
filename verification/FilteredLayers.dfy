/** Layers with image filters: what of the content of one is recorded, and what its parent keeps of
    the bounds of the content when it closes. */
module FilteredLayers {
  import opened Geometry
  import opened Painting
  import opened Blending
  import opened DisplayLists
  import opened Recorder
  import opened Emission
  import opened Coverage
  import opened Culling
  import Contents

  // ---------- drawing into a filtered layer ----------

  // Calls that leave the clip and the save stack alone.
  predicate KeepsClip(c: Call) { c.AttrCall? || c.TransformCall? || c.DrawCall? || c.ListCall? }

  ghost predicate KeepClip(calls: seq<Call>) { forall i :: 0 <= i < |calls| ==> KeepsClip(calls[i]) }

  ghost predicate SameClip(s: Save, t: Save) {
    s.global.cull == t.global.cull && s.local.cull == t.local.cull && s.nop == t.nop
  }

  lemma StepKeepsClip(e: Engine, st: Recorder, c: Call)
    requires st.Sized() && KeepsClip(c)
    ensures var st' := Step(e, st, c); |st'.stack| == |st.stack| && SameClip(st.Top(), st'.Top())
  {
    hide LocalAfter, GlobalAfter, LayerCount;
    if !c.TransformCall? { DrawsKeepStack(e, st, c); }
  }

  lemma {:induction false} RunKeepsClip(e: Engine, st: Recorder, calls: seq<Call>)
    requires st.Sized() && KeepClip(calls)
    ensures var st' := Run(e, st, calls); |st'.stack| == |st.stack| && SameClip(st.Top(), st'.Top())
  {
    hide Step;
    if calls != [] {
      var n := |calls| - 1;
      RunKeepsClip(e, st, calls[..n]);
      StepKeepsClip(e, Run(e, st, calls[..n]), calls[n]);
    }
  }

  // What the filter can use of the layer's content, on the device, within the bounds of the caller.
  function InputClip(e: Engine, filter: ImageFilter, outer: Tracker, bounds: Option<Rect>): Rect {
    var input := e.inputBounds(filter, outer.matrix, outer.cull);
    var used := if input.None? then MAX_CULL else if input.value.IsEmpty() then EMPTY else input.value;
    if bounds.None? then used
    else e.clipCull(Tracker(outer.matrix, used), Shape(RectShape, bounds.value, 0), Intersect, false)
  }

  // A draw with an effect in a layer with a filter is recorded exactly if something of its area reaches
  // what the filter can use.
  lemma FilteredContentIsKept(e: Engine, st: Recorder, c: Call, inner: seq<Call>, d: Op)
    requires st.Sized() && c.LayerCall? && c.withPaint && st.paint.imageFilter.Some?
    requires MakesLayer(st, true) && KeepClip(inner)
    requires var s := Run(e, st, [c] + inner); PaintResult(false, EffectPaint(s.paint, d), d.flags) != NoEffect
    ensures var s := Run(e, st, [c] + inner);
            var clip := InputClip(e, st.paint.imageFilter.value, st.Top().global,
                                  if c.fromCaller then Some(c.bounds) else None);
            && |s.stack| == |st.stack| + 1
            && Step(e, s, DrawCall(d)).records ==
                 if Reaches(s.Top().global.matrix, s.Top().local.matrix, clip, MAX_CULL, Area(e, s.paint, d))
                 then s.records + [DrawRec(d)] else s.records
  {
    hide PaintResult, Area, Step, InputClip, Reaches;
    RunConcat(e, st, [c], inner);
    assert Run(e, st, [c]) == Step(e, Run(e, st, []), c);
    LayerEntered(e, st, c);
    RunKeepsClip(e, Step(e, st, c), inner);
    DrawReaches(e, Run(e, st, [c] + inner), d);
  }

  lemma LayerEntered(e: Engine, st: Recorder, c: Call)
    requires st.Sized() && c.LayerCall? && c.withPaint && st.paint.imageFilter.Some? && MakesLayer(st, true)
    ensures var st' := Step(e, st, c);
            && |st'.stack| == |st.stack| + 1 && !st'.Top().nop
            && st'.Top().local.cull == MAX_CULL
            && st'.Top().global.cull == InputClip(e, st.paint.imageFilter.value, st.Top().global,
                                                  if c.fromCaller then Some(c.bounds) else None)
  {
    hide PaintResult, OuterSink;
    LayerCountPositive(st.stack);
  }

  lemma DrawReaches(e: Engine, s: Recorder, d: Op)
    requires s.Sized() && PaintResult(s.Top().nop, EffectPaint(s.paint, d), d.flags) != NoEffect
    requires s.Top().local.cull == MAX_CULL
    ensures Step(e, s, DrawCall(d)).records ==
              if Reaches(s.Top().global.matrix, s.Top().local.matrix, s.Top().global.cull, MAX_CULL,
                         Area(e, s.paint, d))
              then s.records + [DrawRec(d)] else s.records
  {
    hide PaintResult, Area, NoteDraw, Reaches, AccumulateArea, LayerCount, Deeper;
    LayerCountPositive(s.stack);
    SaveReaches(s.Top(), TopSink(s), |s.records|, Area(e, s.paint, d));
  }

  // ---------- flooding the layer around ----------

  // A layer changes pixels of its parent where nothing was drawn into it.
  ghost predicate ChangesBackground(o: Optics, p: Paint) {
    || (p.imageFilter.Some? && p.imageFilter.value.modifiesTransparentBlack)
    || (p.colorFilter.Some? && p.colorFilter.value.modifiesTransparentBlack)
    || !LeavesBackground(o, p)
  }

  // A saveLayer notes the whole clip of the layer around it exactly if it has a backdrop, or composites
  // even its untouched pixels with a change.
  lemma LayersFloodIff(o: Optics, e: Engine, st: Recorder, c: Call)
    requires o.Valid() && st.Sized() && c.LayerCall? && MakesLayer(st, c.withPaint) && st.rtree.Some?
    ensures var floods := c.backdrop.Some? || (c.withPaint && ChangesBackground(o, st.paint));
            Step(e, st, c).rtree ==
              Some(st.rtree.value + if floods then UnboundedLeaves(st.Top(), |st.records|) else [])
  {
    hide PaintResult, AccumulateUnbounded, UnboundedLeaves, LayerTracker, LayerCount, LeavesBackground;
    LayerCountPositive(st.stack);
    OuterGains(st, c.withPaint, c.backdrop.Some?, PaintResult(st.Top().nop, st.paint, LayerFlags(c.withPaint)));
    if FiltersKeepBlack(st.paint, SAVE_LAYER_WITH_PAINT_FLAGS) { BackgroundExact(o, st.paint); }
  }

  // ---------- closing a filtered layer ----------

  lemma LeftPoints(mapped: Option<Rect>, cull: Rect, p: Point)
    ensures Inside(p, Left(mapped, cull)) <==> Inside(p, cull) && (mapped.Some? ==> Inside(p, mapped.value))
  {
  }

  lemma {:induction false} AdjustedLeaf(e: Engine, filter: ImageFilter, t: Tracker, leaves: seq<Leaf>, l: Leaf)
    ensures l in AdjustLeaves(e, filter, t, leaves) <==>
              && !l.rect.IsEmpty()
              && exists i :: 0 <= i < |leaves| && leaves[i].id == l.id
                             && l.rect == Left(e.mapDevice(filter, t.matrix, leaves[i].rect), t.cull)
  {
    if leaves != [] {
      var n := |leaves| - 1;
      AdjustedLeaf(e, filter, t, leaves[..n], l);
      assert leaves[..n] + [leaves[n]] == leaves;
      var mapped := e.mapDevice(filter, t.matrix, leaves[n].rect);
      assert AdjustLeaf(e, filter, t, leaves[n].rect).IsEmpty() <==> Left(mapped, t.cull).IsEmpty();
      if i :| 0 <= i < n && leaves[i].id == l.id
              && l.rect == Left(e.mapDevice(filter, t.matrix, leaves[i].rect), t.cull) {
        assert leaves[..n][i] == leaves[i];
      }
    }
  }

  // When a layer with a filter closes, each of its rectangles becomes what the parent's clip leaves of the
  // image of the rectangle under the filter, and is dropped if that is nothing; no others are there.
  lemma FilteredRectanglesAreMapped(e: Engine, cull: Rect, calls: seq<Call>, l: Leaf)
    requires var st := Run(e, Start(cull, true), calls);
             |st.layers| > 0 && ClosesLayer(st, RestoreCall) && st.Layer().filter.Some? && l.id < |st.records|
    ensures var st := Run(e, Start(cull, true), calls);
            st.rtree.Some? && RestoreStep(e, st).rtree.Some? && st.Layer().rtreeStart <= |st.rtree.value|
    ensures var st := Run(e, Start(cull, true), calls);
            var filter, start := st.Layer().filter.value, st.Layer().rtreeStart;
            var parent := st.stack[|st.stack| - 2].global;
            var outside, inside := st.rtree.value[..start], st.rtree.value[start..];
            l in RestoreStep(e, st).rtree.value <==>
              || l in outside
              || (&& !l.rect.IsEmpty()
                  && exists i :: 0 <= i < |inside| && inside[i].id == l.id
                                 && l.rect == Left(e.mapDevice(filter, parent.matrix, inside[i].rect), parent.cull))
  {
    hide Run, RestoreStep, CloseLayer, Left;
    var st := Run(e, Start(cull, true), calls);
    RunTracked(e, cull, calls);
    var tags := TagRun(e, Start(cull, true), calls);
    LayerCountPositive(st.stack[..|st.stack| - 1]);
    CloseLeaves(e, st, tags);
    RestoredLayer(e, st);
    UnboundedIds(st.stack[|st.stack| - 2], |st.records|);
    var inside := st.rtree.value[st.Layer().rtreeStart..];
    AdjustedLeaf(e, st.Layer().filter.value, st.stack[|st.stack| - 2].global, inside, l);
  }

  // The same without an rtree, where the box of the layer stands for its rectangles. If the filter floods
  // the parent, the parent's whole clip is added, unless it is lost under a matrix without inverse.
  lemma FilteredBoxesAreMapped(e: Engine, st: Recorder)
    requires st.Sized() && st.rtree.None? && |st.layers| > 1 && ClosesLayer(st, RestoreCall)
    requires st.Layer().filter.Some?
    ensures |RestoreStep(e, st).layers| == |st.layers| - 1
    ensures var inner, outer, parent := st.Layer(), st.layers[|st.layers| - 2], st.stack[|st.stack| - 2];
            var mapped := e.mapDevice(inner.filter.value, parent.global.matrix, inner.globalBox);
            var flood := if FloodsParent(e, st) then UnboundedLeaves(parent, 0) else [];
            RestoreStep(e, st).Layer().globalBox ==
              if flood != [] then Union(outer.globalBox, parent.global.cull)
              else if inner.globalBox.IsEmpty() || mapped.None? then outer.globalBox
              else Union(outer.globalBox, Left(mapped, parent.global.cull))
  {
    hide Patched, TransferBounds, ContentBounds, LayerCount, Left, Contents.FilterFloods, UnboundedLeaves;
    LayerCountPositive(st.stack[..|st.stack| - 1]);
    var content := if st.Top().saveIndex < |st.records|
                   then ContentBounds(st.records[st.Top().saveIndex], st.Layer()) else EMPTY;
    BoxTransferred(e, st, content);
  }

  lemma BoxTransferred(e: Engine, st: Recorder, content: Rect)
    requires |st.stack| > 1 && |st.layers| > 1 && st.rtree.None? && st.Layer().filter.Some?
    ensures var inner, outer, parent := st.Layer(), st.layers[|st.layers| - 2], st.stack[|st.stack| - 2];
            var mapped := e.mapDevice(inner.filter.value, parent.global.matrix, inner.globalBox);
            var flood := if Contents.FilterFloods(e, st, content) then UnboundedLeaves(parent, 0) else [];
            TransferBounds(e, parent, outer, inner, st.rtree, content, |st.records|).layer.globalBox ==
              if flood != [] then Union(outer.globalBox, parent.global.cull)
              else if inner.globalBox.IsEmpty() || mapped.None? then outer.globalBox
              else Union(outer.globalBox, Left(mapped, parent.global.cull))
  {
    hide MapAndClip, LocalCoverage, Contents.DeviceRects;
    var inner, outer, parent := st.Layer(), st.layers[|st.layers| - 2], st.stack[|st.stack| - 2];
    var mapped := e.mapDevice(inner.filter.value, parent.global.matrix, inner.globalBox);
    Contents.DeviceFloods(e, st, inner.filter.value, parent.global, outer);
    if !inner.globalBox.IsEmpty() && mapped.Some? {
      UnionAbsorbs(outer.globalBox, mapped.value, parent.global.cull);
    }
  }

  lemma UnionAbsorbs(outer: Rect, r: Rect, cull: Rect)
    ensures !cull.IsEmpty() ==> Union(Union(outer, Intersection(r, cull)), cull) == Union(outer, cull)
  {
  }
}
