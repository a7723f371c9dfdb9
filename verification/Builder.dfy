/** The recorder in the form the program has it: an object that updates its own fields, and layer
    objects on the heap that several entries of the save stack share. Every method is proved to
    do exactly what the corresponding step of Recorder.dfy does to the abstract state. */
module Builder {
  import opened Geometry
  import opened Painting
  import opened DisplayLists
  import opened Recorder
  import Spec = Recorder
  import Brackets

  // A layer's summary after one more operation.
  function Summed(l: Layer, result: OpResult, mode: BlendMode, compatible: bool, overlaps: bool,
                  hasBackdrop: bool): Layer {
    Spec.Layer(l.filter, l.rtreeStart, l.globalBox, l.rects, l.overlapForced || overlaps,
               if l.maxBlend < mode then mode else l.maxBlend, l.incompatible || !compatible,
               l.affects || result == AffectsAll, l.backdrop || hasBackdrop, l.unbounded)
  }

  lemma SummedNotes(l: Layer, p: Paint, compatible: bool, result: OpResult)
    ensures forall d :: Summed(l, result, ModeOf(p, d), !Incompatible(p, compatible, d), d.overlaps, false)
                        == NoteDraw(l, p, compatible, d, result)
    ensures forall withPaint, backdrop ::
              Summed(l, result, if withPaint then p.blend else SRC_OVER, !withPaint || compatible, false, backdrop)
              == NoteLayer(l, p, compatible, withPaint, backdrop, result)
    ensures forall list: DisplayList ::
              Summed(l, if list.modifiesTransparentBlack then AffectsAll else PreservesTransparency, list.maxRootBlend,
                     list.groupOpacity, false, list.rootBackdrop) == NoteList(l, list)
  {
  }

  // The box and the overlap flag that accumulating these rectangles gives.
  ghost predicate Accumulated(rects: seq<Rect>, forced: bool, box: Rect, overlap: bool) {
    box == Box(rects) && (overlap <==> forced || Overlapping(rects))
  }

  lemma AccumulatedForced(rects: seq<Rect>, forced: bool, box: Rect, overlap: bool, more: bool)
    requires Accumulated(rects, forced, box, overlap)
    ensures Accumulated(rects, forced || more, box, overlap || more)
  {
  }

  class LayerInfo {
    const filter: Option<ImageFilter>
    const rtreeStart: nat
    var globalBox: Rect
    var localBox: Rect
    var overlap: bool
    var maxBlend: BlendMode
    var incompatible: bool
    var affects: bool
    var backdrop: bool
    var unbounded: bool
    ghost var rects: seq<Rect> // what was accumulated into localBox
    ghost var forced: bool     // an operation said that it may draw over itself

    ghost predicate Valid()
      reads this
    {
      Accumulated(rects, forced, localBox, overlap) && (globalBox.IsEmpty() ==> globalBox == EMPTY)
    }

    ghost function View(): Layer
      reads this
    {
      Spec.Layer(filter, rtreeStart, globalBox, rects, forced, maxBlend, incompatible, affects, backdrop, unbounded)
    }

    constructor (filter: Option<ImageFilter>, rtreeStart: nat)
      ensures Valid() && View() == Spec.Layer(filter, rtreeStart, EMPTY, [], false, CLEAR, false, false, false, false)
    {
      this.filter, this.rtreeStart := filter, rtreeStart;
      globalBox, localBox, overlap := EMPTY, EMPTY, false;
      maxBlend, incompatible, affects, backdrop, unbounded := CLEAR, false, false, false, false;
      rects, forced := [], false;
    }

    // Grows the box, and notes when the new rectangle meets what is already there.
    method AccumulateLocal(r: Rect)
      requires Valid()
      modifies this
      ensures Valid() && View() == old(View()).(rects := old(rects) + [r])
    {
      if Intersects(r, localBox) {
        overlap := true;
      }
      localBox := Union(localBox, r);
      rects := rects + [r];
      assert rects[..|rects| - 1] == old(rects);
    }

    method AccumulateGlobal(r: Rect)
      requires Valid() && (r.IsEmpty() ==> r == EMPTY)
      modifies this`globalBox
      ensures Valid() && View() == old(View()).(globalBox := Union(old(globalBox), r))
    {
      globalBox := Union(globalBox, r);
    }

    method MarkIncompatible()
      requires Valid()
      modifies this`incompatible
      ensures Valid() && View() == old(View()).(incompatible := true)
    {
      incompatible := true;
    }

    predicate IsGroupOpacityCompatible()
      requires Valid()
      reads this
      ensures IsGroupOpacityCompatible() <==> View().GroupOpacity()
    {
      !incompatible && !overlap
    }

    // Notes an operation with this result, blend mode and compatibility with group opacity.
    method Note(result: OpResult, mode: BlendMode, compatible: bool, overlaps: bool, hasBackdrop: bool)
      requires Valid()
      modifies this
      ensures Valid() && globalBox == old(globalBox) && rects == old(rects) && unbounded == old(unbounded)
      ensures forced == (old(forced) || overlaps) && backdrop == (old(backdrop) || hasBackdrop)
      ensures incompatible == (old(incompatible) || !compatible) && affects == (old(affects) || result == AffectsAll)
      ensures maxBlend == if old(maxBlend) < mode then mode else old(maxBlend)
    {
      hide Accumulated;
      AccumulatedForced(rects, forced, localBox, overlap, overlaps);
      if overlaps {
        overlap, forced := true, true;
      }
      if hasBackdrop {
        backdrop := true;
      }
      if !compatible {
        incompatible := true;
      }
      if result == AffectsAll {
        affects := true;
      }
      if maxBlend < mode {
        maxBlend := mode;
      }
    }
  }

  // An entry of the save stack: its own state, and the layer object it shares with its neighbours.
  datatype SaveInfo = SaveInfo(state: Save, layer: LayerInfo)

  function States(stack: seq<SaveInfo>): seq<Save> { seq(|stack|, i requires 0 <= i < |stack| => stack[i].state) }

  lemma StatesPush(stack: seq<SaveInfo>, s: SaveInfo)
    ensures States(stack + [s]) == States(stack) + [s.state]
  {
  }

  ghost function Views(layers: seq<LayerInfo>): seq<Layer>
    reads layers
  {
    seq(|layers|, i requires 0 <= i < |layers| reads layers => layers[i].View())
  }

  // Each layer entry brings its own object; every other entry has the object of the one below.
  ghost predicate Shares(stack: seq<SaveInfo>, layers: seq<LayerInfo>) {
    if stack == [] then layers == []
    else
      var n, m := |stack| - 1, |layers| - 1;
      && layers != [] && stack[n].layer == layers[m]
      && Shares(stack[..n], if stack[n].state.isLayer then layers[..m] else layers)
  }

  ghost predicate Distinct(layers: seq<LayerInfo>) {
    forall i, j :: 0 <= i < j < |layers| ==> layers[i] != layers[j]
  }

  function Leaves(rects: seq<Rect>, indices: seq<nat>): seq<Leaf>
    requires |rects| == |indices|
  {
    seq(|rects|, i requires 0 <= i < |rects| => Leaf(rects[i], indices[i]))
  }

  lemma {:induction false} SharesCounts(stack: seq<SaveInfo>, layers: seq<LayerInfo>)
    requires Shares(stack, layers)
    ensures LayerCount(States(stack)) == |layers|
  {
    if stack != [] {
      var n, m := |stack| - 1, |layers| - 1;
      SharesCounts(stack[..n], if stack[n].state.isLayer then layers[..m] else layers);
      assert States(stack)[..n] == States(stack[..n]);
    }
  }

  lemma SharesPush(stack: seq<SaveInfo>, layers: seq<LayerInfo>, s: SaveInfo)
    requires Shares(stack, layers)
    requires s.state.isLayer || (layers != [] && s.layer == layers[|layers| - 1])
    ensures Shares(stack + [s], if s.state.isLayer then layers + [s.layer] else layers)
  {
    assert (stack + [s])[..|stack|] == stack && (layers + [s.layer])[..|layers|] == layers;
  }

  lemma SharesSetTop(stack: seq<SaveInfo>, layers: seq<LayerInfo>, s: Save)
    requires Shares(stack, layers) && stack != [] && s.isLayer == stack[|stack| - 1].state.isLayer
    ensures Shares(stack[|stack| - 1 := stack[|stack| - 1].(state := s)], layers)
  {
    assert stack[|stack| - 1 := stack[|stack| - 1].(state := s)][..|stack| - 1] == stack[..|stack| - 1];
  }

  lemma OpenedLayer(e: Engine, st: Recorder, bounds: Rect, withPaint: bool, fromCaller: bool,
                    filterId: Option<Backdrop>, result: OpResult)
    requires st.stack != [] && st.layers != []
    ensures var outer := Drain(st, OuterSink(st, withPaint, filterId.Some?, result));
            LayerOpened(e, st, bounds, withPaint, fromCaller, filterId, result) ==
            Push(outer.(stack := outer.stack + [LayerEntry(e, st, bounds, withPaint, fromCaller)],
                        layers := outer.layers + [InnerLayer(st, withPaint, outer.rtree)]),
                 OpeningRecord(bounds, withPaint, fromCaller, filterId))
  {
  }

  // The step for a layer call, as the builder takes it.
  lemma LayerStepped(e: Engine, st: Recorder, bounds: Rect, withPaint: bool, fromCaller: bool,
                     filterId: Option<Backdrop>)
    requires st.stack != [] && st.layers != []
    ensures var result := PaintResult(st.Top().nop, st.paint, LayerFlags(withPaint));
            LayerStep(e, st, bounds, withPaint, fromCaller, filterId) ==
              if result == NoEffect then st.(stack := st.stack + [DeferredEntry(st.Top()).(nop := true)])
              else LayerOpened(e, st, bounds, withPaint, fromCaller, filterId, result)
  {
    hide PaintResult, OuterSink, LayerTracker, NewLayer;
  }

  // Noting a layer call and then flooding the layer around it.
  lemma OuterNoted(st: Recorder, withPaint: bool, hasBackdrop: bool, result: OpResult)
    requires st.stack != [] && st.layers != []
    ensures var noted := SetLayer(st, Summed(st.Layer(), result, if withPaint then st.paint.blend else SRC_OVER,
                                             !withPaint || st.compatible, false, hasBackdrop));
            Drain(st, OuterSink(st, withPaint, hasBackdrop, result)) ==
              if LayerFloods(st.paint, withPaint, hasBackdrop)
              then Drain(noted, AccumulateArea(noted.Top(), TopSink(noted), |noted.records|, None).0) else noted
  {
    hide AccumulateUnbounded, NoteLayer, Summed, LayerFloods;
    SummedNotes(st.Layer(), st.paint, st.compatible, result);
    var l := NoteLayer(st.Layer(), st.paint, st.compatible, withPaint, hasBackdrop, result);
    assert SetLayer(st, l).Layer() == l;
    DrainedTwice(st, l, AccumulateUnbounded(st.Top(), Sink(l, st.rtree), |st.records|).0);
  }

  lemma DrainedTwice(st: Recorder, l: Layer, k: Sink)
    requires st.layers != []
    ensures Drain(SetLayer(st, l), k) == Drain(st, k) && Drain(st, Sink(l, st.rtree)) == SetLayer(st, l)
  {
  }

  lemma MaskCost(p: Paint, a: Attr)
    ensures a.MaskFilterAttr? ==> SetAttr(p, a).DepthCost() == if a.maskFilter.Some? then 2 else 1
  {
  }

  predicate Closable(st: Recorder) {
    && |st.stack| > 1 && |st.layers| > 1 && st.Top().isLayer
    && st.Top().saveIndex < |st.records| && st.records[st.Top().saveIndex].LayerRec?
  }

  // A closing layer: its record is completed, and its bounds are passed to the layer below.
  function LayerClosed(e: Engine, st: Recorder): Recorder
    requires Closable(st)
  {
    var i, n := st.Top().saveIndex, |st.layers|;
    var r, l := st.records[i], st.Layer();
    var k := TransferBounds(e, st.stack[|st.stack| - 2], st.layers[n - 2], l, st.rtree, ContentBounds(r, l),
                            |st.records|);
    st.(records := st.records[i := Patched(r, r.restoreIndex, r.contentDepth, l)], depth := st.depth + st.cost,
        layers := st.layers[n - 2 := k.layer], rtree := k.rtree)
  }

  // The record of a save that is being restored, before the summary of a layer is added.
  function Returned(st: Recorder): Recorder
    requires st.stack != [] && st.Top().saveIndex < |st.records| && st.records[st.Top().saveIndex].IsSave()
    requires st.Top().saveDepth <= st.depth
  {
    var i := st.Top().saveIndex;
    st.(records := st.records[i := st.records[i].(restoreIndex := |st.records|,
                                                  contentDepth := st.depth - st.Top().saveDepth)])
  }

  function Popped(st: Recorder): Recorder
    requires st.stack != [] && st.layers != []
  {
    st.(stack := st.stack[..|st.stack| - 1],
        layers := if st.Top().isLayer then st.layers[..|st.layers| - 1] else st.layers)
  }

  // The step for a restore, as the builder takes it.
  lemma RestoreStepped(e: Engine, st: Recorder)
    requires Brackets.Sound(st) && |st.stack| > 1 && st.layers != []
    ensures st.Top().deferred ==> RestoreStep(e, st) == Popped(st)
    ensures !st.Top().deferred ==>
              && st.Top().saveIndex < |st.records| && st.records[st.Top().saveIndex].IsSave()
              && st.Top().saveDepth <= st.depth && (st.Top().isLayer ==> Closable(Returned(st)))
              && RestoreStep(e, st) ==
                   Popped(Push(if st.Top().isLayer then LayerClosed(e, Returned(st)) else Returned(st), RestoreRec))
  {
    hide TransferBounds, Brackets.Bracketed, Brackets.TallyAt, Patched, ContentBounds;
    if !st.Top().deferred {
      Brackets.TopMark(st);
      LayerCountPositive(st.stack[..|st.stack| - 1]);
      if st.Top().isLayer {
        assert LayerCount(st.stack) == |st.layers|;
        LayerReturned(e, st);
      } else {
        SaveReturned(st);
      }
    }
  }

  lemma SaveReturned(st: Recorder)
    requires |st.stack| > 1 && st.Top().saveIndex < |st.records| && st.records[st.Top().saveIndex].SaveRec?
    requires st.Top().saveDepth <= st.depth && st.layers != []
    ensures Returned(st).records ==
            PatchRecord(st.records, st.Top().saveIndex, |st.records|, st.depth - st.Top().saveDepth, st.Layer())
  {
  }

  lemma LayerReturned(e: Engine, st: Recorder)
    requires Closable(st) && st.Top().saveDepth <= st.depth
    ensures var a := LayerClosed(e, Returned(st)); var c := CloseLayer(e, st);
            && a.layers[..|st.layers| - 1] == c.layers && a.rtree == c.rtree && a.depth == c.depth
            && a.records == PatchRecord(st.records, st.Top().saveIndex, |st.records|, st.depth - st.Top().saveDepth,
                                        st.Layer())
  {
    hide TransferBounds, Patched, ContentBounds;
    var i, l := st.Top().saveIndex, st.Layer();
    SameContent(st.records[i], |st.records|, st.depth - st.Top().saveDepth, l);
    SamePatch(st.records[i], |st.records|, st.depth - st.Top().saveDepth, l);
    assert |Returned(st).records| == |st.records| && Returned(st).Layer() == l;
  }

  lemma SamePatch(r: Record, restoreIndex: nat, contentDepth: nat, l: Layer)
    requires r.LayerRec?
    ensures Patched(r.(restoreIndex := restoreIndex, contentDepth := contentDepth), restoreIndex, contentDepth, l) ==
            Patched(r, restoreIndex, contentDepth, l)
  {
  }

  lemma SameContent(r: Record, restoreIndex: nat, contentDepth: nat, l: Layer)
    requires r.IsSave()
    ensures ContentBounds(r.(restoreIndex := restoreIndex, contentDepth := contentDepth), l) == ContentBounds(r, l)
  {
  }

  lemma SetLayerDrained(st: Recorder, k: Sink, l: Layer)
    requires st.layers != []
    ensures SetLayer(Drain(st, k), l) == Drain(st, k.(layer := l)) && Drain(st, k).Layer() == k.layer
  {
  }

  // The step for a nested list, as the builder takes it.
  lemma ListStepped(e: Engine, st: Recorder, list: DisplayList, opacity: real)
    requires st.stack != [] && st.layers != [] && !SkipsList(list, opacity) && !st.Top().nop
    ensures var acc := AccumulateList(e, st.Top(), TopSink(st), |st.records|, list);
            var drained := Drain(st, acc.0);
            ListStep(e, st, list, opacity) ==
              if !acc.1 then drained
              else
                var s := Push(SetLayer(drained, NoteList(drained.Layer(), list)), ListRec(list, Min(opacity, 1.0)));
                s.(depth := s.depth + list.totalDepth, nested := s.nested + (list.OpCount(true) - 1))
  {
    hide AccumulateList, NoteList;
    var k := AccumulateList(e, st.Top(), TopSink(st), |st.records|, list).0;
    SetLayerDrained(st, k, NoteList(k.layer, list));
  }

  lemma ListSkipped(e: Engine, st: Recorder, list: DisplayList, opacity: real)
    requires st.stack != [] && st.layers != [] && (SkipsList(list, opacity) || st.Top().nop)
    ensures ListStep(e, st, list, opacity) == st
  {
  }

  class DisplayListBuilder {
    const engine: Engine
    const originalCull: Rect
    var storage: seq<Record>
    var opIndex: nat
    var renderOpCount: nat
    var depth: nat
    var renderOpDepthCost: nat
    var nestedOpCount: nat
    var saveStack: seq<SaveInfo>
    var current: Paint
    var currentOpacityCompatibility: bool
    var hasRTree: bool
    var rects: seq<Rect>
    var indices: seq<nat>
    ghost var layers: seq<LayerInfo>

    ghost function RTree(): Option<seq<Leaf>>
      requires |rects| == |indices|
      reads this
    {
      if hasRTree then Some(Leaves(rects, indices)) else None
    }

    // The fields fit together; the objects of the stack are the layers, each once.
    ghost predicate Linked()
      reads this, layers
    {
      && |rects| == |indices| && (!hasRTree ==> rects == [])
      && opIndex == |storage|
      && saveStack != [] && saveStack[0].state.isLayer && Shares(saveStack, layers) && Distinct(layers)
      && (forall i :: 0 <= i < |layers| ==> layers[i].Valid())
      && (forall i, j :: 0 <= i <= j < |layers| ==> layers[i].rtreeStart <= layers[j].rtreeStart <= |rects|)
    }

    ghost function View(): Recorder
      requires |rects| == |indices|
      reads this, layers
    {
      Spec.Recorder(storage, States(saveStack), Views(layers), depth, renderOpCount, nestedOpCount, renderOpDepthCost,
                    current, currentOpacityCompatibility, RTree())
    }

    ghost predicate Valid()
      reads this, layers
    {
      Linked() && Brackets.Sound(View())
    }

    // ---------- accumulating bounds ----------

    // Where the bounds of an operation go.
    ghost function SinkOf(l: LayerInfo): Sink
      requires |rects| == |indices|
      reads this, l
    {
      Sink(l.View(), RTree())
    }

    method AddBounds(l: LayerInfo, global: Rect, local: Rect)
      requires |rects| == |indices| && l.Valid() && !global.IsEmpty()
      modifies `rects, `indices, l
      ensures |rects| == |indices| && l.Valid() && SinkOf(l) == Spec.AddBounds(old(SinkOf(l)), global, local, opIndex)
      ensures |rects| >= old(|rects|) && (!hasRTree ==> rects == old(rects))
    {
      if hasRTree {
        rects := rects + [global];
        indices := indices + [opIndex];
        assert Leaves(rects, indices) == old(Leaves(rects, indices)) + [Leaf(global, opIndex)];
      } else {
        l.AccumulateGlobal(global);
      }
      l.AccumulateLocal(local);
    }

    method AccumulateUnbounded(save: SaveInfo) returns (added: bool)
      requires |rects| == |indices| && save.layer.Valid()
      modifies `rects, `indices, save.layer
      ensures |rects| == |indices| && save.layer.Valid()
      ensures (SinkOf(save.layer), added) == Spec.AccumulateUnbounded(save.state, old(SinkOf(save.layer)), opIndex)
      ensures |rects| >= old(|rects|) && (!hasRTree ==> rects == old(rects))
    {
      if !save.state.validClip {
        save.layer.unbounded := true;
      }
      var globalClip := save.state.global.cull;
      var layerClip := MapAndClip(save.state.local, LocalCoverage(save.state.global));
      if globalClip.IsEmpty() || layerClip.IsEmpty() {
        return false;
      }
      AddBounds(save.layer, globalClip, layerClip);
      added := true;
    }

    method AccumulateBounds(bounds: Rect, save: SaveInfo) returns (added: bool)
      requires |rects| == |indices| && save.layer.Valid()
      modifies `rects, `indices, save.layer
      ensures |rects| == |indices| && save.layer.Valid()
      ensures (SinkOf(save.layer), added) == Spec.AccumulateBounds(save.state, old(SinkOf(save.layer)), opIndex, bounds)
      ensures |rects| >= old(|rects|) && (!hasRTree ==> rects == old(rects))
    {
      if bounds.IsEmpty() {
        return false;
      }
      var globalBounds := MapAndClip(save.state.global, bounds);
      var layerBounds := MapAndClip(save.state.local, bounds);
      if globalBounds.IsEmpty() || layerBounds.IsEmpty() {
        return false;
      }
      AddBounds(save.layer, globalBounds, layerBounds);
      added := true;
    }

    method AccumulateBoundsLocal(bounds: Rect, save: SaveInfo)
      requires save.layer.Valid()
      modifies save.layer
      ensures save.layer.Valid()
              && save.layer.View() == Spec.AccumulateLocal(save.state, old(save.layer.View()), bounds)
    {
      if !bounds.IsEmpty() {
        var localBounds := MapAndClip(save.state.local, bounds);
        if !localBounds.IsEmpty() {
          save.layer.AccumulateLocal(localBounds);
        }
      }
    }

    // The bounds of each part of a nested list that the clip may show.
    method AccumulateEach(parts: seq<Rect>, save: SaveInfo) returns (added: bool)
      requires |rects| == |indices| && save.layer.Valid()
      modifies `rects, `indices, save.layer
      ensures |rects| == |indices| && save.layer.Valid()
      ensures (SinkOf(save.layer), added) == Spec.AccumulateEach(save.state, old(SinkOf(save.layer)), opIndex, parts)
      ensures |rects| >= old(|rects|) && (!hasRTree ==> rects == old(rects))
    {
      added := false;
      var i := 0;
      assert parts[..0] == [];
      while i < |parts|
        invariant i <= |parts| && |rects| == |indices| && save.layer.Valid()
        invariant (SinkOf(save.layer), added) ==
                  Spec.AccumulateEach(save.state, old(SinkOf(save.layer)), opIndex, parts[..i])
        invariant |rects| >= old(|rects|) && (!hasRTree ==> rects == old(rects))
      {
        var one := AccumulateBounds(parts[i], save);
        added := added || one;
        i := i + 1;
        assert parts[..i][..i - 1] == parts[..i - 1];
      }
      assert parts[..i] == parts;
    }

    // Maps the rectangles of a closing layer by its filter, in place, dropping those that vanish.
    method AdjustRTreeRects(filter: ImageFilter, t: Tracker, start: nat) returns (flooded: bool)
      requires |rects| == |indices| && start <= |rects|
      modifies `rects, `indices
      ensures |rects| == |indices| && start <= |rects| <= old(|rects|)
      ensures var before := old(Leaves(rects, indices));
              && Leaves(rects, indices) == before[..start] + AdjustLeaves(engine, filter, t, before[start..])
              && (flooded <==> Floods(engine, filter, t, before[start..]))
    {
      hide AdjustLeaves, Floods, Intersection, Leaves;
      ghost var before := Leaves(rects, indices);
      flooded := false;
      var keep := start;
      var i := start;
      StartCompacting(engine, filter, t, rects, indices, start);
      while i < |rects|
        invariant start <= keep <= i <= |rects| == |indices| == |before|
        invariant Leaves(rects[..keep], indices[..keep]) ==
                  before[..start] + AdjustLeaves(engine, filter, t, before[start..i])
        invariant Leaves(rects[i..], indices[i..]) == before[i..]
        invariant flooded <==> Floods(engine, filter, t, before[start..i])
      {
        NextLeaf(rects, indices, i, before);
        var bounds := t.cull;
        var mapped := engine.mapDevice(filter, t.matrix, rects[i]);
        if mapped.Some? {
          bounds := mapped.value;
        } else {
          flooded := true;
        }
        var clipped := Intersection(bounds, t.cull);
        AdjustOneMore(engine, filter, t, before, start, i);
        if !clipped.IsEmpty() {
          Compacted(rects, indices, keep, i, clipped);
          indices := indices[keep := indices[i]];
          rects := rects[keep := clipped];
          keep := keep + 1;
        }
        i := i + 1;
      }
      indices := indices[..keep];
      rects := rects[..keep];
      assert before[start..i] == before[start..];
    }

    // ---------- the current entry and its layer ----------

    lemma TopLayer()
      requires Linked()
      ensures layers != [] && saveStack[|saveStack| - 1].layer == layers[|layers| - 1]
      ensures View().Sized()
    {
      SharesCounts(saveStack, layers);
    }

    // Only the object of the innermost layer has changed.
    twostate lemma LayerChanged(l: LayerInfo)
      requires |rects| == |indices| && old(|rects|) == old(|indices|)
      requires layers != [] && l == layers[|layers| - 1] && Distinct(layers)
      requires layers == old(layers) && forall i :: 0 <= i < |layers| - 1 ==> unchanged(layers[i])
      ensures Views(layers) == old(Views(layers))[|layers| - 1 := l.View()]
    {
      forall i | 0 <= i < |layers| - 1 ensures layers[i].View() == old(layers[i].View()) {
      }
    }

    // What that makes of the whole state, if besides it only the rtree data has grown.
    twostate lemma LayerDrained(l: LayerInfo)
      requires old(Linked()) && |rects| == |indices| && |rects| >= old(|rects|) && (!hasRTree ==> rects == old(rects))
      requires layers == old(layers) && l == layers[|layers| - 1] && l.Valid()
      requires forall i :: 0 <= i < |layers| - 1 ==> unchanged(layers[i])
      requires unchanged(`storage) && unchanged(`opIndex) && unchanged(`renderOpCount) && unchanged(`depth)
      requires unchanged(`renderOpDepthCost) && unchanged(`nestedOpCount) && unchanged(`saveStack)
      requires unchanged(`current) && unchanged(`currentOpacityCompatibility) && unchanged(`hasRTree)
      ensures Linked() && old(View()).layers != [] && View() == Drain(old(View()), SinkOf(l))
    {
      LayerChanged(l);
      forall i | 0 <= i < |layers| ensures layers[i].Valid() {
        if i < |layers| - 1 { assert old(layers[i].Valid()); }
      }
    }

    // The bounds of an operation; none when they cannot be estimated.
    method AccumulateOpBounds(area: Option<Rect>) returns (added: bool)
      requires Linked()
      modifies `rects, `indices, layers
      ensures Linked() && old(View()).Sized() && old(View()).layers != []
      ensures var acc := AccumulateArea(old(View()).Top(), TopSink(old(View())), opIndex, area);
              View() == Drain(old(View()), acc.0) && added == acc.1
    {
      hide Spec.AccumulateUnbounded, Spec.AccumulateBounds, LayerCount;
      TopLayer();
      var top := saveStack[|saveStack| - 1];
      assert layers[|layers| - 1].Valid();
      if area.None? {
        added := AccumulateUnbounded(top);
      } else {
        added := AccumulateBounds(area.value, top);
      }
      LayerDrained(top.layer);
    }

    method AccumulateListBounds(list: DisplayList, save: SaveInfo) returns (added: bool)
      requires |rects| == |indices| && save.layer.Valid() && (!hasRTree ==> rects == [])
      modifies `rects, `indices, save.layer
      ensures |rects| == |indices| && save.layer.Valid()
      ensures (SinkOf(save.layer), added) == AccumulateList(engine, save.state, old(SinkOf(save.layer)), opIndex, list)
      ensures |rects| >= old(|rects|) && (!hasRTree ==> rects == old(rects))
    {
      hide Spec.AccumulateUnbounded, Spec.AccumulateBounds, Spec.AccumulateEach;
      if list.rootUnbounded {
        added := AccumulateUnbounded(save);
      } else if !hasRTree || list.rtree.None? {
        added := AccumulateBounds(list.bounds, save);
      } else {
        added := AccumulateEach(engine.consolidate(list.rtree.value, LocalCoverage(save.state.global)), save);
      }
    }

    method AccumulateListOnTop(list: DisplayList) returns (added: bool)
      requires Linked()
      modifies `rects, `indices, layers
      ensures Linked() && old(View()).Sized() && old(View()).layers != []
      ensures var acc := AccumulateList(engine, old(View()).Top(), TopSink(old(View())), opIndex, list);
              View() == Drain(old(View()), acc.0) && added == acc.1
    {
      hide Spec.AccumulateList, LayerCount;
      TopLayer();
      var top := saveStack[|saveStack| - 1];
      assert layers[|layers| - 1].Valid();
      added := AccumulateListBounds(list, top);
      LayerDrained(top.layer);
    }

    // What an operation leaves in the summary of the current layer.
    method UpdateLayer(result: OpResult, mode: BlendMode, compatible: bool, overlaps: bool, hasBackdrop: bool)
      requires Linked()
      modifies layers
      ensures Linked() && old(View()).Sized() && old(View()).layers != []
      ensures View() == SetLayer(old(View()),
                                 Summed(old(View()).Layer(), result, mode, compatible, overlaps, hasBackdrop))
    {
      hide Accumulated, LayerCount, Shares;
      TopLayer();
      var layer := saveStack[|saveStack| - 1].layer;
      assert layers[|layers| - 1].Valid();
      layer.Note(result, mode, compatible, overlaps, hasBackdrop);
      assert layer.View() == Summed(old(View()).Layer(), result, mode, compatible, overlaps, hasBackdrop);
      LayerDrained(layer);
    }

    method Push(r: Record)
      requires Linked()
      modifies `storage, `opIndex, `renderOpCount, `depth
      ensures Linked() && View() == Spec.Push(old(View()), r)
    {
      hide Deeper, Shares, Accumulated;
      storage := storage + [r];
      renderOpCount := renderOpCount + r.CountInc();
      depth := Deeper(depth, r, renderOpDepthCost);
      opIndex := opIndex + 1;
    }

    method SetState(s: Save)
      requires Linked() && s.isLayer == saveStack[|saveStack| - 1].state.isLayer
      modifies `saveStack
      ensures Linked() && old(View()).stack != [] && View() == SetTop(old(View()), s)
      ensures saveStack[|saveStack| - 1] == old(saveStack[|saveStack| - 1]).(state := s)
    {
      hide Accumulated, Leaves, Shares, Distinct, Views;
      var n := |saveStack| - 1;
      SharesSetTop(saveStack, layers, s);
      saveStack := saveStack[n := saveStack[n].(state := s)];
      assert States(saveStack) == old(States(saveStack))[n := s];
    }

    method CheckForDeferredSave()
      requires Linked()
      modifies `storage, `opIndex, `renderOpCount, `depth, `saveStack
      ensures Linked() && old(View()).stack != [] && View() == CheckDeferredSave(old(View()))
      ensures saveStack[|saveStack| - 1].layer == old(saveStack[|saveStack| - 1].layer)
    {
      var top := saveStack[|saveStack| - 1].state;
      if top.deferred {
        var saveOffset := |storage|;
        Push(SaveRec(0, 0));
        SetState(top.(deferred := false, saveIndex := saveOffset, saveDepth := depth));
      }
    }

    // ---------- attributes ----------

    method SetAttribute(a: Attr)
      requires Valid()
      modifies this
      ensures Valid() && layers == old(layers) && old(View()).Sized()
      ensures View() == Step(engine, old(View()), AttrCall(a))
    {
      hide Brackets.Sound, LayerCount, Shares, Linked, SetAttr, Spec.Push;
      TopLayer();
      TopState();
      Brackets.StepSound(engine, View(), AttrCall(a));
      if SetAttr(current, a) != current {
        KeepAttribute(a);
        Push(SetAttrRec(a));
      }
    }

    // The current paint, and what is cached of it.
    method KeepAttribute(a: Attr)
      requires Linked()
      modifies `current, `renderOpDepthCost, `currentOpacityCompatibility
      ensures Linked()
      ensures var p := SetAttr(old(current), a);
              View() == old(View()).(
                paint := p, cost := if a.MaskFilterAttr? then p.DepthCost() else old(renderOpDepthCost),
                compatible := if a.InvertAttr? || a.BlendAttr? || a.SourceAttr? || a.ImageFilterAttr?
                    || a.ColorFilterAttr?
                              then p.OpacityCompatible() else old(currentOpacityCompatibility))
    {
      hide SetAttr, Accumulated, Shares;
      MaskCost(current, a);
      current := SetAttr(current, a);
      if a.MaskFilterAttr? {
        renderOpDepthCost := if a.maskFilter.Some? then 2 else 1;
      }
      if a.InvertAttr? || a.BlendAttr? || a.SourceAttr? || a.ImageFilterAttr? || a.ColorFilterAttr? {
        currentOpacityCompatibility := current.OpacityCompatible();
      }
    }

    // ---------- drawing ----------

    // What a draw that is not clipped away leaves behind.
    method RecordDraw(d: Op, result: OpResult)
      requires Linked()
      modifies layers, `storage, `opIndex, `renderOpCount, `depth
      ensures Linked() && old(View()).Sized() && old(View()).layers != []
      ensures View() == Spec.Push(SetLayer(old(View()),
                                           NoteDraw(old(View()).Layer(), current, currentOpacityCompatibility,
                                                                 d, result)), DrawRec(d))
    {
      hide Incompatible, Linked, NoteDraw, Summed;
      TopLayer();
      TopState();
      SummedNotes(View().Layer(), current, currentOpacityCompatibility, result);
      UpdateLayer(result, ModeOf(current, d), !Incompatible(current, currentOpacityCompatibility, d), d.overlaps,
                  false);
      Push(DrawRec(d));
    }

    method Draw(d: Op)
      requires Valid()
      modifies this, layers
      ensures Valid() && layers == old(layers) && old(View()).Sized()
      ensures View() == Step(engine, old(View()), DrawCall(d))
    {
      hide PaintResult, Spec.AccumulateArea, NoteDraw, Area, Brackets.Sound, LayerCount, Shares, Linked;
      TopLayer();
      TopState();
      Brackets.StepSound(engine, View(), DrawCall(d));
      var result := PaintResult(saveStack[|saveStack| - 1].state.nop, EffectPaint(current, d), d.flags);
      if result == NoEffect {
        return;
      }
      ghost var st := View();
      var unclipped := AccumulateOpBounds(Area(engine, current, d));
      if unclipped {
        ghost var k := AccumulateArea(st.Top(), TopSink(st), |st.records|, Area(engine, st.paint, d)).0;
        SetLayerDrained(st, k, NoteDraw(k.layer, st.paint, st.compatible, d, result));
        RecordDraw(d, result);
      }
    }

    lemma TopState()
      requires Linked()
      ensures saveStack != [] && |rects| == |indices| && |View().stack| == |saveStack|
      ensures View().Top() == saveStack[|saveStack| - 1].state && opIndex == |storage|
    {
    }

    method RecordList(list: DisplayList, opacity: real)
      requires Linked()
      modifies layers, `storage, `opIndex, `renderOpCount, `depth, `nestedOpCount
      ensures Linked() && old(View()).Sized() && old(View()).layers != []
      ensures var s := Spec.Push(SetLayer(old(View()), NoteList(old(View()).Layer(), list)),
                                 ListRec(list, Min(opacity, 1.0)));
              View() == s.(depth := s.depth + list.totalDepth, nested := s.nested + (list.OpCount(true) - 1))
      requires list.opCount > 0
    {
      hide Linked, NoteList, Summed;
      TopLayer();
      TopState();
      SummedNotes(View().Layer(), current, currentOpacityCompatibility, NoEffect);
      UpdateLayer(if list.modifiesTransparentBlack then AffectsAll else PreservesTransparency,
                  list.maxRootBlend, list.groupOpacity, false, list.rootBackdrop);
      Push(ListRec(list, Min(opacity, 1.0)));
      AddNested(list);
    }

    method AddNested(list: DisplayList)
      requires Linked() && list.opCount > 0
      modifies `depth, `nestedOpCount
      ensures Linked()
      ensures View() == old(View()).(depth := old(depth) + list.totalDepth,
                                     nested := old(nestedOpCount) + (list.OpCount(true) - 1))
    {
      hide Shares, Accumulated, Leaves;
      depth := depth + list.totalDepth;
      nestedOpCount := nestedOpCount + (list.OpCount(true) - 1);
    }

    method DrawDisplayList(list: DisplayList, opacity: real)
      requires Valid()
      modifies this, layers
      ensures Valid() && layers == old(layers) && old(View()).Sized()
      ensures View() == Step(engine, old(View()), ListCall(list, opacity))
    {
      hide Spec.AccumulateList, NoteList, Brackets.Sound, LayerCount, Shares, Linked, ListStep, Spec.Push, SetLayer,
           Drain;
      TopLayer();
      TopState();
      Brackets.StepSound(engine, View(), ListCall(list, opacity));
      if SkipsList(list, opacity) || saveStack[|saveStack| - 1].state.nop {
        ListSkipped(engine, View(), list, opacity);
        return;
      }
      ListStepped(engine, View(), list, opacity);
      var accumulated := AccumulateListOnTop(list);
      if accumulated {
        RecordList(list, opacity);
      }
    }

    // ---------- transforms and clips ----------

    method Transform(given: Transform)
      requires Valid()
      modifies this
      ensures Valid() && layers == old(layers) && old(View()).Sized()
      ensures View() == Step(engine, old(View()), TransformCall(given))
    {
      hide Brackets.Sound, LayerCount, Shares, Linked, CheckDeferredSave, Spec.Push, SetTop, LocalAfter, GlobalAfter,
           Normal, Trivial;
      TopLayer();
      TopState();
      Brackets.StepSound(engine, View(), TransformCall(given));
      var t := Normal(given);
      if !Trivial(t) {
        CheckForDeferredSave();
        Push(TransformRec(t));
        TopState();
        SetState(Transformed(saveStack[|saveStack| - 1].state, t));
      }
    }

    method Clip(shape: Shape, op: ClipOp, aa: bool)
      requires Valid()
      modifies this
      ensures Valid() && layers == old(layers) && old(View()).Sized()
      ensures View() == Step(engine, old(View()), ClipCall(shape, op, aa))
    {
      hide Brackets.Sound, LayerCount, Shares, Linked, CheckDeferredSave, Spec.Push, SetTop, RedundantClip;
      TopLayer();
      TopState();
      Brackets.StepSound(engine, View(), ClipCall(shape, op, aa));
      var top := saveStack[|saveStack| - 1].state;
      if top.nop || RedundantClip(engine, top, shape, op) {
        return;
      }
      var clipped := Clipped(engine, top, shape, op, aa);
      if clipped.global.cull.IsEmpty() || clipped.local.cull.IsEmpty() {
        SetState(clipped.(nop := true));
        return;
      }
      SetState(clipped.(validClip := true));
      TopState();
      CheckForDeferredSave();
      Push(ClipRec(shape, op, aa));
    }

    // ---------- saving ----------

    method Save()
      requires Valid()
      modifies this
      ensures Valid() && layers == old(layers) && old(View()).Sized()
      ensures View() == Step(engine, old(View()), SaveCall)
    {
      hide Brackets.Sound, LayerCount, Shares;
      TopLayer();
      Brackets.StepSound(engine, View(), SaveCall);
      PushEntry(DeferredEntry(saveStack[|saveStack| - 1].state));
    }

    // A new entry that shares the layer of the one below.
    method PushEntry(s: Save)
      requires Linked() && !s.isLayer
      modifies `saveStack
      ensures Linked() && old(View()).stack != [] && View() == old(View()).(stack := old(View()).stack + [s])
    {
      TopLayer();
      var entry := SaveInfo(s, saveStack[|saveStack| - 1].layer);
      SharesPush(saveStack, layers, entry);
      saveStack := saveStack + [entry];
      assert States(saveStack) == old(States(saveStack)) + [s];
    }

    // A layer that draws nothing is only a save; otherwise it gets an object of its own.
    method SaveLayer(bounds: Rect, withPaint: bool, fromCaller: bool, filterId: Option<Backdrop>)
      requires Valid()
      modifies this, layers
      ensures Valid() && old(View()).Sized()
      ensures View() == Step(engine, old(View()), LayerCall(bounds, withPaint, fromCaller, filterId))
      ensures forall i :: 0 <= i < |layers| ==> layers[i] in old(layers) || fresh(layers[i])
    {
      hide PaintResult, Brackets.Sound, LayerCount, Shares, Linked, LayerStep, LayerOpened, LayerEntry, InnerLayer;
      TopLayer();
      TopState();
      LayerStepped(engine, View(), bounds, withPaint, fromCaller, filterId);
      Brackets.StepSound(engine, View(), LayerCall(bounds, withPaint, fromCaller, filterId));
      var parent := saveStack[|saveStack| - 1].state;
      var result := PaintResult(parent.nop, current, LayerFlags(withPaint));
      if result == NoEffect {
        PushEntry(DeferredEntry(parent).(nop := true));
      } else {
        OpenLayer(bounds, withPaint, fromCaller, filterId, result);
      }
    }

    method OpenLayer(bounds: Rect, withPaint: bool, fromCaller: bool, filterId: Option<Backdrop>, result: OpResult)
      requires Linked()
      modifies this, layers
      ensures Linked() && old(View()).Sized() && old(View()).layers != []
      ensures View() == LayerOpened(engine, old(View()), bounds, withPaint, fromCaller, filterId, result)
      ensures forall i :: 0 <= i < |layers| ==> layers[i] in old(layers) || fresh(layers[i])
    {
      hide LayerCount, Linked, Spec.LayerTracker, OuterSink, Spec.Push, NewLayer, LayerOpened;
      TopLayer();
      TopState();
      ghost var st := View();
      var parent := saveStack[|saveStack| - 1].state;
      var saveOffset, saveDepth := |storage|, depth;
      NoteOuter(withPaint, filterId.Some?, result);
      var filter := if withPaint then current.imageFilter else None;
      var tracker := LayerTracker(engine, parent.global, filter, bounds, fromCaller);
      var entry := Spec.Save(true, false, false, false, saveDepth, saveOffset, tracker, Tracker(IDENTITY, MAX_CULL));
      assert entry == LayerEntry(engine, st, bounds, withPaint, fromCaller);
      hide LayerEntry;
      PushLayer(entry, filter, withPaint && (!currentOpacityCompatibility || filter.Some?));
      Push(LayerRec(LayerOptions(withPaint, fromCaller, false, false, false, false),
                    if fromCaller then bounds else EMPTY, CLEAR, filterId, 0, 0));
      OpenedLayer(engine, st, bounds, withPaint, fromCaller, filterId, result);
    }

    // What a layer call notes in the layer around it.
    method NoteOuter(withPaint: bool, hasBackdrop: bool, result: OpResult)
      requires Linked()
      modifies `rects, `indices, layers
      ensures Linked() && old(View()).Sized() && old(View()).layers != []
      ensures View() == Drain(old(View()), OuterSink(old(View()), withPaint, hasBackdrop, result))
    {
      hide Linked, LayerCount, Spec.AccumulateUnbounded, OuterSink, Drain, SetLayer, Summed, LayerFloods;
      TopLayer();
      TopState();
      OuterNoted(View(), withPaint, hasBackdrop, result);
      UpdateLayer(result, if withPaint then current.blend else SRC_OVER,
                  !withPaint || currentOpacityCompatibility, false, hasBackdrop);
      if LayerFloods(current, withPaint, hasBackdrop) {
        var unclipped := AccumulateOpBounds(None);
      }
    }

    twostate lemma LayerPushed(new l: LayerInfo)
      requires old(Linked()) && fresh(l) && l.Valid() && layers == old(layers) + [l]
      requires forall i :: 0 <= i < |old(layers)| ==> unchanged(old(layers)[i])
      ensures Views(layers) == old(Views(layers)) + [l.View()] && Distinct(layers)
      ensures forall i :: 0 <= i < |layers| ==> layers[i].Valid()
    {
      hide Accumulated, Shares, Leaves;
      var before := old(layers);
      forall i | 0 <= i < |before| ensures layers[i].Valid() && layers[i].View() == old(before[i].View()) {
        assert layers[i] == before[i] && old(before[i].Valid());
      }
    }

    method PushLayer(s: Save, filter: Option<ImageFilter>, incompatible: bool)
      requires Linked() && s.isLayer
      modifies `saveStack, `layers
      ensures Linked() && fresh(layers[|layers| - 1]) && layers[..|layers| - 1] == old(layers)
      ensures View() == old(View()).(stack := old(View()).stack + [s],
                                     layers := old(View()).layers + [NewLayer(filter, old(RTree()), incompatible)])
    {
      hide Accumulated, Shares, Distinct, States, Views;
      var info := new LayerInfo(filter, |rects|);
      if incompatible {
        info.MarkIncompatible();
      }
      SharesPush(saveStack, layers, SaveInfo(s, info));
      saveStack := saveStack + [SaveInfo(s, info)];
      layers := layers + [info];
      LayerPushed(info);
      StatesPush(old(saveStack), SaveInfo(s, info));
    }

    // ---------- restoring ----------

    // Passes the bounds of a closing layer to the entry below it.
    method TransferLayerBounds(content: Rect, inner: LayerInfo, parent: SaveInfo)
      requires |rects| == |indices| && (!hasRTree ==> rects == []) && inner.rtreeStart <= |rects|
      requires inner.Valid() && parent.layer.Valid() && inner != parent.layer
      modifies `rects, `indices, parent.layer
      ensures |rects| == |indices| && (!hasRTree ==> rects == []) && inner.rtreeStart <= |rects| && parent.layer.Valid()
      ensures SinkOf(parent.layer) ==
              TransferBounds(engine, parent.state, old(parent.layer.View()), old(inner.View()), old(RTree()), content,
                             opIndex)
    {
      hide AdjustLeaves, Floods, Spec.AccumulateUnbounded, Spec.AccumulateLocal, Accumulated;
      if inner.filter.None? {
        LocalKeepsBox(parent.state, parent.layer.View(), content);
        AccumulateBoundsLocal(content, parent);
        parent.layer.AccumulateGlobal(inner.globalBox);
        return;
      }
      var filter := inner.filter.value;
      var flooded := AdjustForFilter(filter, inner, parent);
      var boundsForParent := content;
      if !flooded && !boundsForParent.IsEmpty() {
        var mapped := engine.mapLocal(filter, boundsForParent);
        if mapped.Some? {
          boundsForParent := mapped.value;
        } else {
          flooded := true;
        }
      }
      if flooded {
        var unclipped := AccumulateUnbounded(parent);
      } else {
        AccumulateBoundsLocal(boundsForParent, parent);
      }
    }

    method AdjustForFilter(filter: ImageFilter, inner: LayerInfo, parent: SaveInfo) returns (flooded: bool)
      requires |rects| == |indices| && (!hasRTree ==> rects == []) && inner.rtreeStart <= |rects|
      requires inner.Valid() && parent.layer.Valid() && inner != parent.layer
      modifies `rects, `indices, parent.layer
      ensures |rects| == |indices| && (!hasRTree ==> rects == []) && inner.rtreeStart <= |rects| && parent.layer.Valid()
      ensures (SinkOf(parent.layer), flooded) ==
              AdjustDevice(engine, filter, parent.state.global, old(parent.layer.View()), old(inner.View()),
                           old(RTree()))
    {
      hide AdjustLeaves, Floods, Accumulated;
      flooded := false;
      var t := parent.state.global;
      if hasRTree {
        flooded := AdjustRTreeRects(filter, t, inner.rtreeStart);
      } else if !inner.globalBox.IsEmpty() {
        var mapped := engine.mapDevice(filter, t.matrix, inner.globalBox);
        if mapped.None? {
          flooded := true;
        } else {
          var clipped := Intersection(mapped.value, t.cull);
          IntersectsIffNonEmpty(mapped.value, t.cull);
          if !clipped.IsEmpty() {
            parent.layer.AccumulateGlobal(clipped);
          }
        }
      }
    }

    // Completes the record of a closing layer from its summary.
    method PatchLayer(i: nat, inner: LayerInfo) returns (contentBounds: Rect)
      requires opIndex == |storage| && i < |storage| && storage[i].LayerRec? && inner.Valid()
      modifies `storage
      ensures opIndex == |storage| && contentBounds == ContentBounds(old(storage[i]), inner.View())
      ensures storage == old(storage)[i := Patched(old(storage[i]), old(storage[i].restoreIndex),
                                                   old(storage[i].contentDepth), inner.View())]
    {
      hide Overlapping;
      var op := storage[i];
      contentBounds := inner.localBox;
      var options := op.options;
      if options.fromCaller && !contentBounds.IsEmpty() && !Contains(op.bounds, contentBounds) {
        options := options.(clipped := true);
        contentBounds := Intersection(contentBounds, op.bounds);
      }
      options := options.(hasBackdrop := inner.backdrop, distributesOpacity := inner.IsGroupOpacityCompatible(),
                          unbounded := inner.unbounded);
      storage := storage[i := op.(options := options, bounds := contentBounds, maxBlend := inner.maxBlend)];
    }

    // What a layer's restore does before its restore record is pushed.
    method RestoreLayer()
      requires Linked() && |saveStack| > 1 && |layers| > 1 && saveStack[|saveStack| - 1].state.isLayer
      requires var i := saveStack[|saveStack| - 1].state.saveIndex; i < |storage| && storage[i].LayerRec?
      modifies `storage, `depth, `rects, `indices, layers
      ensures Linked() && saveStack == old(saveStack) && layers == old(layers)
      ensures Closable(old(View())) && View() == LayerClosed(engine, old(View()))
    {
      hide TransferBounds, LayerCount, Leaves, Patched, ContentBounds, Linked, Accumulated;
      var n := |saveStack|;
      var top, parent := saveStack[n - 1], saveStack[n - 2];
      LayerPair();
      depth := depth + renderOpDepthCost;
      var contentBounds := PatchLayer(top.state.saveIndex, top.layer);
      TransferLayerBounds(contentBounds, top.layer, parent);
      LayerIsClosed();
    }

    // The state after the record was patched and the bounds were passed on.
    twostate lemma LayerIsClosed()
      requires old(Linked()) && unchanged(`saveStack) && layers == old(layers) && |saveStack| > 1 && |layers| > 1
      requires old(Closable(View()))
      requires |rects| == |indices| && (!hasRTree ==> rects == []) && layers[|layers| - 1].rtreeStart <= |rects|
      requires opIndex == |storage| && depth == old(depth) + renderOpDepthCost
      requires unchanged(`hasRTree) && unchanged(`renderOpCount) && unchanged(`nestedOpCount)
      requires unchanged(`renderOpDepthCost) && unchanged(`current) && unchanged(`currentOpacityCompatibility)
      requires forall i :: 0 <= i < |layers| && i != |layers| - 2 ==> unchanged(layers[i])
      requires layers[|layers| - 2].Valid()
      requires var st := old(View()); var i, n := st.Top().saveIndex, |st.layers|;
               var r, l := st.records[i], st.Layer();
               && storage == st.records[i := Patched(r, r.restoreIndex, r.contentDepth, l)]
               && SinkOf(layers[|layers| - 2]) ==
                  TransferBounds(engine, st.stack[|st.stack| - 2], st.layers[n - 2], l, st.rtree,
                                                                 ContentBounds(r, l), |st.records|)
      ensures Linked() && View() == LayerClosed(engine, old(View()))
    {
      hide TransferBounds, Patched, ContentBounds, Linked, Accumulated, Shares, Leaves;
      ParentDrained(layers[|layers| - 2]);
    }

    // The two innermost layer objects, when the top entry is a layer.
    lemma LayerPair()
      requires Linked() && |saveStack| > 1 && saveStack[|saveStack| - 1].state.isLayer
      ensures |layers| > 1 && saveStack[|saveStack| - 1].layer == layers[|layers| - 1]
      ensures saveStack[|saveStack| - 2].layer == layers[|layers| - 2] && layers[|layers| - 1] != layers[|layers| - 2]
      ensures layers[|layers| - 1].Valid() && layers[|layers| - 2].Valid() && Distinct(layers)
      ensures |rects| == |indices| && (!hasRTree ==> rects == []) && layers[|layers| - 1].rtreeStart <= |rects|
      ensures opIndex == |storage|
    {
      assert Shares(saveStack[..|saveStack| - 1], layers[..|layers| - 1]);
    }

    twostate lemma ParentDrained(l: LayerInfo)
      requires old(Linked()) && |rects| == |indices| && (!hasRTree ==> rects == [])
      requires |layers| > 1 && layers[|layers| - 1].rtreeStart <= |rects|
      requires layers == old(layers) && l == layers[|layers| - 2] && l.Valid()
      requires forall i :: 0 <= i < |layers| && i != |layers| - 2 ==> unchanged(layers[i])
      requires unchanged(`saveStack) && opIndex == |storage| && unchanged(`hasRTree)
      ensures Linked() && Views(layers) == old(Views(layers))[|layers| - 2 := l.View()]
    {
      hide Accumulated, Shares, Leaves;
      forall i | 0 <= i < |layers|
        ensures layers[i].Valid() && (i != |layers| - 2 ==> layers[i].View() == old(layers[i].View()))
      {
        if i != |layers| - 2 { assert old(layers[i].Valid()); }
      }
    }

    // Takes the top entry off the stack, with its layer object if it brought one.
    method PopEntry()
      requires Linked() && |saveStack| > 1
      modifies `saveStack, `layers
      ensures Linked() && old(View()).stack != [] && old(View()).layers != [] && View() == Popped(old(View()))
      ensures forall i :: 0 <= i < |layers| ==> layers[i] in old(layers)
    {
      hide Accumulated, Leaves, LayerCount;
      var n := |saveStack| - 1;
      TopLayer();
      if saveStack[n].state.isLayer {
        LayerPair();
        layers := layers[..|layers| - 1];
      }
      saveStack := saveStack[..n];
      assert States(saveStack) == old(States(saveStack))[..n];
      assert Views(layers) == old(Views(layers))[..|layers|];
    }

    // Completes the record of the save that is closed with where it ends and how deep its content is.
    method ReturnTop()
      requires Linked()
      requires var top := saveStack[|saveStack| - 1].state;
               top.saveIndex < |storage| && storage[top.saveIndex].IsSave() && top.saveDepth <= depth
      modifies `storage
      ensures Linked() && View() == Returned(old(View()))
    {
      TopState();
      var top := saveStack[|saveStack| - 1].state;
      storage := storage[top.saveIndex :=
        storage[top.saveIndex].(restoreIndex := opIndex, contentDepth := depth - top.saveDepth)];
    }

    method Restore()
      requires Valid()
      modifies this, layers
      ensures Valid() && old(View()).Sized()
      ensures View() == Step(engine, old(View()), RestoreCall) && hasRTree == old(hasRTree)
      ensures forall i :: 0 <= i < |layers| ==> layers[i] in old(layers)
    {
      hide Brackets.Sound, LayerCount, Shares, Linked, RestoreStep, LayerClosed, Returned, Popped, Spec.Push;
      TopLayer();
      TopState();
      Brackets.StepSound(engine, View(), RestoreCall);
      if |saveStack| <= 1 {
        RestoreNothing(engine, View());
        return;
      }
      RestoreStepped(engine, View());
      if !saveStack[|saveStack| - 1].state.deferred {
        CloseTop();
      }
      PopEntry();
    }

    method CloseTop()
      requires Linked() && |saveStack| > 1
      requires var top := saveStack[|saveStack| - 1].state;
               && top.saveIndex < |storage| && storage[top.saveIndex].IsSave() && top.saveDepth <= depth
               && (top.isLayer ==> Closable(Returned(View())))
      modifies `storage, `opIndex, `renderOpCount, `depth, `rects, `indices, layers
      ensures Linked() && old(View()).stack != []
      ensures View() == Spec.Push(if old(View()).Top().isLayer then LayerClosed(engine, Returned(old(View())))
                                  else Returned(old(View())), RestoreRec)
    {
      hide LayerCount, Shares, Linked, LayerClosed, Spec.Push, Leaves;
      TopState();
      var top := saveStack[|saveStack| - 1].state;
      ReturnTop();
      if top.isLayer {
        TopLayer();
        TopState();
        RestoreLayer();
      }
      Push(RestoreRec);
    }

    // ---------- whole lists ----------

    constructor (engine: Engine, cull: Rect, prepareRTree: bool)
      ensures Valid() && View() == Start(cull, prepareRTree) && this.engine == engine
      ensures originalCull == (if cull.IsEmpty() then EMPTY else cull) && hasRTree == prepareRTree
      ensures forall i :: 0 <= i < |layers| ==> fresh(layers[i])
    {
      this.engine := engine;
      var c := if cull.IsEmpty() then EMPTY else cull;
      originalCull := c;
      new;
      Init(prepareRTree);
      StartCull(cull, prepareRTree);
    }

    // Back to an empty recording.
    method Init(prepareRTree: bool)
      requires originalCull.IsEmpty() ==> originalCull == EMPTY
      modifies this
      ensures Valid() && View() == Start(originalCull, prepareRTree) && hasRTree == prepareRTree
      ensures forall i :: 0 <= i < |layers| ==> fresh(layers[i])
    {
      hide Accumulated, Brackets.Sound, Shares, Leaves, Linked, Start;
      Clear(prepareRTree);
      var root := new LayerInfo(None, 0);
      saveStack, layers := [SaveInfo(RootEntry(originalCull), root)], [root];
      Initial(root);
      Brackets.StartSound(originalCull, prepareRTree);
    }

    method Clear(prepareRTree: bool)
      modifies this
      ensures storage == [] && opIndex == 0 && renderOpCount == 0 && depth == 0 && renderOpDepthCost == 1
      ensures nestedOpCount == 0 && current == DefaultPaint(BLACK) && currentOpacityCompatibility
      ensures hasRTree == prepareRTree && rects == [] && indices == []
    {
      storage, opIndex, renderOpCount, depth, renderOpDepthCost, nestedOpCount := [], 0, 0, 0, 1, 0;
      current, currentOpacityCompatibility := DefaultPaint(BLACK), true;
      hasRTree, rects, indices := prepareRTree, [], [];
    }

    lemma Initial(root: LayerInfo)
      requires originalCull.IsEmpty() ==> originalCull == EMPTY
      requires saveStack == [SaveInfo(RootEntry(originalCull), root)] && layers == [root]
      requires root.Valid() && root.View() == Spec.Layer(None, 0, EMPTY, [], false, CLEAR, false, false, false, false)
      requires storage == [] && opIndex == 0 && renderOpCount == 0 && depth == 0 && renderOpDepthCost == 1
      requires nestedOpCount == 0 && current == DefaultPaint(BLACK) && currentOpacityCompatibility
      requires rects == [] && indices == []
      ensures Linked() && View() == Start(originalCull, hasRTree)
    {
      hide Accumulated, Brackets.Sound, Shares;
      NoEntries();
      SharesPush([], [], saveStack[0]);
      assert [] + [saveStack[0]] == saveStack && [] + [root] == layers;
      assert States(saveStack) == [saveStack[0].state] && Views(layers) == [root.View()];
      NoLeaves();
    }

    method Build() returns (list: DisplayList)
      requires Valid() && (originalCull.IsEmpty() ==> originalCull == EMPTY)
      modifies this, layers
      ensures old(View()).Sized() && |Finish(engine, old(View())).layers| > 0
      ensures list == Built(Finish(engine, old(View())))
      ensures Valid() && View() == Start(originalCull, old(hasRTree))
      ensures forall i :: 0 <= i < |layers| ==> fresh(layers[i])
    {
      hide RestoreStep, Brackets.Sound, Linked, Step, Finish, Built, LayerCount;
      TopLayer();
      TopState();
      ghost var objects := layers;
      while |saveStack| > 1
        invariant |rects| == |indices| && saveStack != [] && |View().stack| == |saveStack|
        invariant Valid() && View().Sized() && Finish(engine, View()) == Finish(engine, old(View()))
        invariant hasRTree == old(hasRTree) && forall i :: 0 <= i < |layers| ==> layers[i] in objects
        decreases |saveStack|
      {
        FinishOne(engine, View());
        Restore();
        TopLayer();
        TopState();
      }
      FinishDone(engine, View());
      list := Collect();
      Init(hasRTree);
    }

    method Collect() returns (list: DisplayList)
      requires Linked() && |saveStack| == 1
      ensures View().Sized() && View().layers != [] && Finish(engine, View()) == View() && list == Built(View())
    {
      hide Accumulated;
      TopLayer();
      var root := saveStack[0].layer;
      assert saveStack[..0] == [] && Shares([], layers[..|layers| - 1]);
      assert layers[0].Valid();
      var rtree := if hasRTree then Some(Leaves(rects, indices)) else None;
      list := DisplayList(storage, renderOpCount, nestedOpCount, depth,
                          if hasRTree then Box(LeafRects(rtree.value)) else root.globalBox,
                          root.IsGroupOpacityCompatible(), root.affects, root.maxBlend, root.backdrop, root.unbounded,
                              rtree);
    }

    // One call of a receiver.
    method Receive(c: Call)
      requires Valid()
      modifies this, layers
      ensures Valid() && old(View()).Sized() && View() == Step(engine, old(View()), c)
      ensures forall i :: 0 <= i < |layers| ==> layers[i] in old(layers) || fresh(layers[i])
    {
      hide Step, Brackets.Sound, Linked;
      match c {
        case AttrCall(a) => SetAttribute(a);
        case SaveCall => Save();
        case LayerCall(b, withPaint, fromCaller, backdrop) => SaveLayer(b, withPaint, fromCaller, backdrop);
        case RestoreCall => Restore();
        case TransformCall(t) => Transform(t);
        case ClipCall(s, op, aa) => Clip(s, op, aa);
        case DrawCall(d) => Draw(d);
        case ListCall(l, o) => DrawDisplayList(l, o);
      }
    }
  }

  // The object, driven by any calls, builds the list that the state machine builds; so whatever
  // is proved of built lists holds of what the object returns.
  method Record(e: Engine, cull: Rect, prepareRTree: bool, calls: seq<Call>) returns (list: DisplayList)
    ensures list == Spec.Build(e, cull, prepareRTree, calls)
  {
    hide Step, Brackets.Sound, Start, Finish, Built;
    var b := new DisplayListBuilder(e, cull, prepareRTree);
    var i := 0;
    ghost var start := b.View();
    assert calls[..0] == [];
    while i < |calls|
      invariant i <= |calls| && b.engine == e && b.Valid() && start.Sized() && b.View() == Run(e, start, calls[..i])
      invariant fresh(b) && forall k :: 0 <= k < |b.layers| ==> fresh(b.layers[k])
      invariant b.originalCull.IsEmpty() ==> b.originalCull == EMPTY
    {
      b.Receive(calls[i]);
      i := i + 1;
      assert calls[..i][..i - 1] == calls[..i - 1];
    }
    assert calls[..i] == calls;
    list := b.Build();
  }

  lemma FinishOne(e: Engine, st: Recorder)
    requires st.Sized() && |st.stack| > 1
    ensures Step(e, st, RestoreCall).Sized() && Finish(e, Step(e, st, RestoreCall)) == Finish(e, st)
    ensures |Step(e, st, RestoreCall).stack| == |st.stack| - 1
  {
    hide RestoreStep;
    RestoreShrinks(e, st);
    StepSized(e, st, RestoreCall);
  }

  lemma StartCull(cull: Rect, prepareRTree: bool)
    ensures Start(if cull.IsEmpty() then EMPTY else cull, prepareRTree) == Start(cull, prepareRTree)
  {
  }

  function RootEntry(cull: Rect): Save {
    Spec.Save(true, false, cull.IsEmpty(), false, 0, 0, Tracker(IDENTITY, cull), Tracker(IDENTITY, cull))
  }

  lemma NoEntries()
    ensures Shares([], [])
  {
  }

  lemma NoLeaves()
    ensures Leaves([], []) == []
  {
  }

  lemma LocalKeepsBox(s: Save, l: Layer, r: Rect)
    ensures AccumulateLocal(s, l, r).globalBox == l.globalBox
  {
  }

  lemma StartCompacting(e: Engine, filter: ImageFilter, t: Tracker, rects: seq<Rect>, indices: seq<nat>, start: nat)
    requires |rects| == |indices| && start <= |rects|
    ensures var before := Leaves(rects, indices);
            && |before| == |rects|
            && Leaves(rects[..start], indices[..start]) ==
               before[..start] + AdjustLeaves(e, filter, t, before[start..start])
            && Leaves(rects[start..], indices[start..]) == before[start..]
            && !Floods(e, filter, t, before[start..start])
  {
  }

  lemma NextLeaf(rects: seq<Rect>, indices: seq<nat>, i: nat, before: seq<Leaf>)
    requires i < |rects| == |indices| == |before| && Leaves(rects[i..], indices[i..]) == before[i..]
    ensures before[i] == Leaf(rects[i], indices[i])
    ensures Leaves(rects[i + 1..], indices[i + 1..]) == before[i + 1..]
  {
    forall k | i <= k < |rects| ensures before[k] == Leaf(rects[k], indices[k]) {
      assert before[k] == before[i..][k - i] == Leaf(rects[i..][k - i], indices[i..][k - i]);
    }
  }

  // One rectangle moved down to the end of those that are kept.
  lemma Compacted(rects: seq<Rect>, indices: seq<nat>, keep: nat, i: nat, r: Rect)
    requires keep <= i < |rects| == |indices|
    ensures var rects', indices' := rects[keep := r], indices[keep := indices[i]];
            && Leaves(rects'[..keep + 1], indices'[..keep + 1]) ==
                 Leaves(rects[..keep], indices[..keep]) + [Leaf(r, indices[i])]
            && rects'[i + 1..] == rects[i + 1..] && indices'[i + 1..] == indices[i + 1..]
  {
  }

  lemma AdjustOneMore(e: Engine, filter: ImageFilter, t: Tracker, leaves: seq<Leaf>, start: nat, i: nat)
    requires start <= i < |leaves|
    ensures var r := AdjustLeaf(e, filter, t, leaves[i].rect);
            AdjustLeaves(e, filter, t, leaves[start..i + 1]) ==
            AdjustLeaves(e, filter, t, leaves[start..i]) + if r.IsEmpty() then [] else [Leaf(r, leaves[i].id)]
    ensures Floods(e, filter, t, leaves[start..i + 1]) <==>
            Floods(e, filter, t, leaves[start..i]) || e.mapDevice(filter, t.matrix, leaves[i].rect).None?
  {
    var more, fewer := leaves[start..i + 1], leaves[start..i];
    assert more == fewer + [leaves[i]];
    assert more[..|more| - 1] == fewer;
    if Floods(e, filter, t, fewer) {
      var j :| 0 <= j < |fewer| && e.mapDevice(filter, t.matrix, fewer[j].rect).None?;
      assert more[j] == fewer[j];
    }
    if e.mapDevice(filter, t.matrix, leaves[i].rect).None? {
      assert more[|fewer|] == leaves[i];
    }
  }
}
