/** Recording with and without an rtree. One mode keeps a bounding box in each layer, the other a
    list of rectangles; apart from that list the two build the same display list. */
module Modes {
  import opened Geometry
  import opened Painting
  import opened DisplayLists
  import opened Recorder
  import opened Emission

  function Boxes(layers: seq<Layer>): Rect {
    if layers == [] then EMPTY else Union(Boxes(layers[..|layers| - 1]), layers[|layers| - 1].globalBox)
  }

  predicate Tidy(r: Rect) { r.IsEmpty() ==> r == EMPTY }

  predicate LayerLike(a: Layer, b: Layer) {
    a.filter.None? && b == a.(globalBox := b.globalBox, rtreeStart := b.rtreeStart)
  }

  // One recorder without an rtree and one with, otherwise in the same state; the boxes of the
  // one enclose exactly what the rectangles of the other enclose.
  ghost predicate Alike(a: Recorder, b: Recorder) {
    && a.Sized() && a.rtree.None? && b.rtree.Some?
    && b == a.(layers := b.layers, rtree := b.rtree)
    && |a.layers| == |b.layers| && (forall i :: 0 <= i < |a.layers| ==> LayerLike(a.layers[i], b.layers[i]))
    && Boxes(a.layers) == Box(LeafRects(b.rtree.value)) && Tidy(Boxes(a.layers))
  }

  // Calls that the two modes treat alike: filters adjust a box as a whole but rectangles one by
  // one, and a nested list is accumulated by its own rectangles only when there is an rtree.
  predicate Neutral(st: Recorder, c: Call)
    requires |st.stack| > 0
  {
    !c.ListCall? && (c.LayerCall? && MakesLayer(st, c.withPaint) ==> LayerFilter(st, c.withPaint).None?)
  }

  ghost predicate NeutralRun(e: Engine, st: Recorder, calls: seq<Call>)
    requires st.Sized()
  {
    calls == [] ||
    (NeutralRun(e, st, calls[..|calls| - 1]) && Neutral(Run(e, st, calls[..|calls| - 1]), calls[|calls| - 1]))
  }

  // ---------- sinks ----------

  // `rest` bounds the layers under the one that the sink fills.
  ghost predicate SinksAlike(rest: Rect, a: Sink, b: Sink) {
    && a.rtree.None? && b.rtree.Some? && LayerLike(a.layer, b.layer)
    && Union(rest, a.layer.globalBox) == Box(LeafRects(b.rtree.value))
    && Tidy(Union(rest, a.layer.globalBox))
  }

  lemma AddAlike(rest: Rect, a: Sink, b: Sink, global: Rect, local: Rect, id: nat)
    requires SinksAlike(rest, a, b) && !global.IsEmpty()
    ensures SinksAlike(rest, AddBounds(a, global, local, id), AddBounds(b, global, local, id))
  {
    UnionAssociative(rest, a.layer.globalBox, global);
    var leaves := b.rtree.value;
    assert LeafRects(leaves + [Leaf(global, id)]) == LeafRects(leaves) + [global];
    assert (LeafRects(leaves) + [global])[..|leaves|] == LeafRects(leaves);
  }

  lemma UnboundedAlike(rest: Rect, s: Save, a: Sink, b: Sink, id: nat)
    requires SinksAlike(rest, a, b)
    ensures var x := AccumulateUnbounded(s, a, id); var y := AccumulateUnbounded(s, b, id);
            x.1 == y.1 && SinksAlike(rest, x.0, y.0)
  {
    hide MapAndClip, LocalCoverage, AddBounds, SinksAlike;
    var ma := if s.validClip then a else a.(layer := a.layer.(unbounded := true));
    var mb := if s.validClip then b else b.(layer := b.layer.(unbounded := true));
    MarkAlike(rest, a, b);
    if !s.global.cull.IsEmpty() {
      AddAlike(rest, ma, mb, s.global.cull, MapAndClip(s.local, LocalCoverage(s.global)), id);
    }
  }

  lemma MarkAlike(rest: Rect, a: Sink, b: Sink)
    requires SinksAlike(rest, a, b)
    ensures SinksAlike(rest, a.(layer := a.layer.(unbounded := true)), b.(layer := b.layer.(unbounded := true)))
  {
  }

  lemma AreaAlike(rest: Rect, s: Save, a: Sink, b: Sink, id: nat, area: Option<Rect>)
    requires SinksAlike(rest, a, b)
    ensures var x := AccumulateArea(s, a, id, area); var y := AccumulateArea(s, b, id, area);
            x.1 == y.1 && SinksAlike(rest, x.0, y.0)
  {
    hide MapAndClip, AddBounds, SinksAlike;
    if area.None? {
      UnboundedAlike(rest, s, a, b, id);
    } else {
      var global := MapAndClip(s.global, area.value);
      if !global.IsEmpty() { AddAlike(rest, a, b, global, MapAndClip(s.local, area.value), id); }
    }
  }

  // ---------- steps ----------

  function Rest(st: Recorder): Rect
    requires |st.layers| > 0
  {
    Boxes(st.layers[..|st.layers| - 1])
  }

  lemma TopSinksAlike(a: Recorder, b: Recorder)
    requires Alike(a, b) && |a.layers| > 0
    ensures SinksAlike(Rest(a), TopSink(a), TopSink(b))
  {
    assert LayerLike(a.layers[|a.layers| - 1], b.layers[|a.layers| - 1]);
  }

  lemma DrainAlike(a: Recorder, b: Recorder, x: Sink, y: Sink)
    requires Alike(a, b) && |a.layers| > 0 && SinksAlike(Rest(a), x, y)
    ensures Alike(Drain(a, x), Drain(b, y))
  {
    var n := |a.layers|;
    assert a.layers[n - 1 := x.layer][..n - 1] == a.layers[..n - 1];
    var a', b' := Drain(a, x), Drain(b, y);
    forall i | 0 <= i < n ensures LayerLike(a'.layers[i], b'.layers[i]) {
      assert LayerLike(a.layers[i], b.layers[i]);
    }
  }

  // Changes outside the layers, made in both.
  lemma CommonAlike(a: Recorder, b: Recorder, a': Recorder, b': Recorder)
    requires Alike(a, b) && a'.Sized()
    requires a'.layers == a.layers && b'.layers == b.layers && a'.rtree == a.rtree && b'.rtree == b.rtree
    requires b' == a'.(layers := b.layers, rtree := b.rtree)
    ensures Alike(a', b')
  {
  }

  lemma DrawAlike(e: Engine, a: Recorder, b: Recorder, d: Op)
    requires Alike(a, b)
    ensures |a.layers| > 0 && Alike(DrawStep(e, a, d), DrawStep(e, b, d))
  {
    hide PaintResult, AccumulateArea, Alike, SinksAlike, NoteDraw, Area;
    AlikeFacts(a, b);
    var result := PaintResult(a.Top().nop, EffectPaint(a.paint, d), d.flags);
    if result != NoEffect {
      TopSinksAlike(a, b);
      var id, area := |a.records|, Area(e, a.paint, d);
      AreaAlike(Rest(a), a.Top(), TopSink(a), TopSink(b), id, area);
      var x, y := AccumulateArea(a.Top(), TopSink(a), id, area), AccumulateArea(b.Top(), TopSink(b), id, area);
      if !x.1 {
        DrainAlike(a, b, x.0, y.0);
      } else {
        NoteAlike(Rest(a), x.0, y.0, a.paint, a.compatible, d, result);
        var x', y' := x.0.(layer := NoteDraw(x.0.layer, a.paint, a.compatible, d, result)),
                      y.0.(layer := NoteDraw(y.0.layer, a.paint, a.compatible, d, result));
        DrainAlike(a, b, x', y');
        PushAlike(Drain(a, x'), Drain(b, y'), DrawRec(d));
      }
    }
  }

  lemma AlikeFacts(a: Recorder, b: Recorder)
    requires Alike(a, b)
    ensures a.Sized() && b.Sized() && |a.layers| == |b.layers| > 0 && a.rtree.None? && b.rtree.Some?
    ensures b == a.(layers := b.layers, rtree := b.rtree)
  {
    LayerCountPositive(a.stack);
  }

  lemma NoteAlike(rest: Rect, x: Sink, y: Sink, p: Paint, compatible: bool, d: Op, result: OpResult)
    requires SinksAlike(rest, x, y)
    ensures SinksAlike(rest, x.(layer := NoteDraw(x.layer, p, compatible, d, result)),
                       y.(layer := NoteDraw(y.layer, p, compatible, d, result)))
  {
    hide Boxes, Box, Incompatible;
  }

  lemma PushAlike(a: Recorder, b: Recorder, r: Record)
    requires Alike(a, b)
    ensures Alike(Push(a, r), Push(b, r))
  {
    CommonAlike(a, b, Push(a, r), Push(b, r));
  }

  lemma LayerAlike(e: Engine, a: Recorder, b: Recorder, c: Call)
    requires Alike(a, b) && c.LayerCall? && Neutral(a, c)
    ensures |a.layers| > 0 && Alike(Step(e, a, c), Step(e, b, c))
  {
    hide PaintResult, Alike, SinksAlike, OuterSink, LayerOpened, LayerCount;
    AlikeFacts(a, b);
    StepSized(e, a, c);
    if !MakesLayer(a, c.withPaint) {
      CommonAlike(a, b, Step(e, a, c), Step(e, b, c));
    } else {
      var result := PaintResult(a.Top().nop, a.paint, LayerFlags(c.withPaint));
      OuterAlike(a, b, c.withPaint, c.backdrop.Some?, result);
      var outerA := Drain(a, OuterSink(a, c.withPaint, c.backdrop.Some?, result));
      var outerB := Drain(b, OuterSink(b, c.withPaint, c.backdrop.Some?, result));
      OpenAlike(e, a, b, outerA, outerB, c);
    }
  }

  lemma OuterAlike(a: Recorder, b: Recorder, withPaint: bool, backdrop: bool, result: OpResult)
    requires Alike(a, b) && |a.stack| > 0 && |a.layers| > 0
    ensures Alike(Drain(a, OuterSink(a, withPaint, backdrop, result)),
                  Drain(b, OuterSink(b, withPaint, backdrop, result)))
  {
    hide SinksAlike, Alike, AccumulateUnbounded, NoteLayer;
    AlikeFacts(a, b);
    TopSinksAlike(a, b);
    var x := Sink(NoteLayer(a.Layer(), a.paint, a.compatible, withPaint, backdrop, result), a.rtree);
    var y := Sink(NoteLayer(b.Layer(), b.paint, b.compatible, withPaint, backdrop, result), b.rtree);
    NoteLayerAlike(Rest(a), TopSink(a), TopSink(b), a.paint, a.compatible, withPaint, backdrop, result);
    if LayerFloods(a.paint, withPaint, backdrop) { UnboundedAlike(Rest(a), a.Top(), x, y, |a.records|); }
    DrainAlike(a, b, OuterSink(a, withPaint, backdrop, result), OuterSink(b, withPaint, backdrop, result));
  }

  lemma NoteLayerAlike(rest: Rect, x: Sink, y: Sink, p: Paint, compatible: bool, withPaint: bool, backdrop: bool,
                       result: OpResult)
    requires SinksAlike(rest, x, y)
    ensures SinksAlike(rest, x.(layer := NoteLayer(x.layer, p, compatible, withPaint, backdrop, result)),
                       y.(layer := NoteLayer(y.layer, p, compatible, withPaint, backdrop, result)))
  {
    hide Boxes, Box;
  }

  lemma OpenAlike(e: Engine, a: Recorder, b: Recorder, outerA: Recorder, outerB: Recorder, c: Call)
    requires Alike(a, b) && c.LayerCall? && MakesLayer(a, c.withPaint) && LayerFilter(a, c.withPaint).None?
    requires |a.layers| > 0 && Alike(outerA, outerB)
    requires var result := PaintResult(a.Top().nop, a.paint, LayerFlags(c.withPaint));
             && outerA == Drain(a, OuterSink(a, c.withPaint, c.backdrop.Some?, result))
             && outerB == Drain(b, OuterSink(b, c.withPaint, c.backdrop.Some?, result))
    ensures Alike(Step(e, a, c), Step(e, b, c))
  {
    hide PaintResult, OuterSink, LayerTracker, Alike, LayerStep;
    AlikeFacts(a, b);
    LayerOpens(e, a, c);
    LayerOpens(e, b, c);
    var s := LayerEntry(e, a, c.bounds, c.withPaint, c.fromCaller);
    var l, m := InnerLayer(a, c.withPaint, outerA.rtree), InnerLayer(b, c.withPaint, outerB.rtree);
    WithEntryAlike(outerA, outerB, s, l, m);
    PushAlike(WithEntry(outerA, s, l), WithEntry(outerB, s, m),
              OpeningRecord(c.bounds, c.withPaint, c.fromCaller, c.backdrop));
  }

  lemma WithEntryAlike(a: Recorder, b: Recorder, s: Save, l: Layer, m: Layer)
    requires Alike(a, b) && s.isLayer && LayerLike(l, m) && l.globalBox == EMPTY
    ensures Alike(WithEntry(a, s, l), WithEntry(b, s, m))
  {
    hide Box, LayerCount, Boxes;
    LayerCountAppend(a.stack, s);
    NewBox(a.layers, l);
  }

  // A new layer bounds nothing yet.
  lemma NewBox(layers: seq<Layer>, l: Layer)
    requires l.globalBox == EMPTY && Tidy(Boxes(layers))
    ensures Boxes(layers + [l]) == Boxes(layers)
  {
    assert (layers + [l])[..|layers|] == layers;
  }

  lemma RestoreAlike(e: Engine, a: Recorder, b: Recorder)
    requires Alike(a, b)
    ensures b.Sized() && Alike(RestoreStep(e, a), RestoreStep(e, b))
  {
    hide CloseLayer, PatchRecord, Alike;
    AlikeFacts(a, b);
    RestoreSized(e, a);
    PatchAlike(a, b);
    if |a.stack| > 1 && a.Top().isLayer {
      LayerCountPositive(a.stack[..|a.stack| - 1]);
      CloseAlike(e, a, b);
    } else {
      CommonAlike(a, b, RestoreStep(e, a), RestoreStep(e, b));
    }
  }

  lemma PatchAlike(a: Recorder, b: Recorder)
    requires Alike(a, b) && |a.layers| > 0
    ensures forall i, restoreIndex, contentDepth ::
              PatchRecord(a.records, i, restoreIndex, contentDepth, a.Layer()) ==
              PatchRecord(b.records, i, restoreIndex, contentDepth, b.Layer())
  {
    hide Boxes;
    assert LayerLike(a.layers[|a.layers| - 1], b.layers[|a.layers| - 1]);
    forall r: Record, restoreIndex, contentDepth
      ensures Patched(r, restoreIndex, contentDepth, a.Layer()) == Patched(r, restoreIndex, contentDepth, b.Layer())
    {
    }
  }

  // Merging the box of the closing layer into its parent's does not change what they bound.
  lemma CloseAlike(e: Engine, a: Recorder, b: Recorder)
    requires Alike(a, b) && |a.stack| > 1 && a.Top().isLayer && |a.layers| > 1
    requires b.Sized() && RestoreStep(e, a).Sized()
    requires forall i, restoreIndex, contentDepth ::
               PatchRecord(a.records, i, restoreIndex, contentDepth, a.Layer()) ==
               PatchRecord(b.records, i, restoreIndex, contentDepth, b.Layer())
    ensures Alike(RestoreStep(e, a), RestoreStep(e, b))
  {
    hide PatchRecord, Patched, AccumulateLocal, Box;
    var n := |a.layers|;
    assert LayerLike(a.layers[n - 1], b.layers[n - 1]) && LayerLike(a.layers[n - 2], b.layers[n - 2]);
    ContentAlike(a, b);
    var a', b' := RestoreStep(e, a), RestoreStep(e, b);
    assert a'.layers == a.layers[..n - 2] + [a'.layers[n - 2]] && b'.layers == b.layers[..n - 2] + [b'.layers[n - 2]];
    LocalAlike(a.stack[|a.stack| - 2], a.layers[n - 2], b.layers[n - 2], Content(a));
    assert a'.layers[n - 2].globalBox == Union(a.layers[n - 2].globalBox, a.layers[n - 1].globalBox);
    MergeBoxes(a.layers, a'.layers[n - 2]);
    forall i | 0 <= i < n - 1 ensures LayerLike(a'.layers[i], b'.layers[i]) {
      if i < n - 2 { assert LayerLike(a.layers[i], b.layers[i]); }
    }
  }

  lemma MergeBoxes(layers: seq<Layer>, merged: Layer)
    requires |layers| > 1
    requires var n := |layers|; merged.globalBox == Union(layers[n - 2].globalBox, layers[n - 1].globalBox)
    ensures Boxes(layers[..|layers| - 2] + [merged]) == Boxes(layers)
  {
    var n := |layers|;
    assert layers[..n - 1][..n - 2] == layers[..n - 2];
    assert (layers[..n - 2] + [merged])[..n - 2] == layers[..n - 2];
    UnionAssociative(Boxes(layers[..n - 2]), layers[n - 2].globalBox, layers[n - 1].globalBox);
  }

  function Content(st: Recorder): Rect
    requires |st.stack| > 0 && |st.layers| > 0
  {
    if st.Top().saveIndex < |st.records| then ContentBounds(st.records[st.Top().saveIndex], st.Layer()) else EMPTY
  }

  lemma ContentAlike(a: Recorder, b: Recorder)
    requires Alike(a, b) && |a.layers| > 0
    ensures Content(a) == Content(b)
  {
    assert LayerLike(a.layers[|a.layers| - 1], b.layers[|a.layers| - 1]);
  }

  lemma LocalAlike(s: Save, a: Layer, b: Layer, r: Rect)
    requires LayerLike(a, b)
    ensures LayerLike(AccumulateLocal(s, a, r), AccumulateLocal(s, b, r))
    ensures AccumulateLocal(s, a, r).globalBox == a.globalBox && AccumulateLocal(s, b, r).globalBox == b.globalBox
  {
  }

  lemma ClipAlike(e: Engine, a: Recorder, b: Recorder, c: Call)
    requires Alike(a, b) && c.ClipCall?
    ensures b.Sized() && Alike(Step(e, a, c), Step(e, b, c))
  {
    hide Clipped, Alike, LayerCount, RedundantClip;
    AlikeFacts(a, b);
    StepSized(e, a, c);
    CommonAlike(a, b, ClipStep(e, a, c.shape, c.op, c.aa), ClipStep(e, b, c.shape, c.op, c.aa));
  }

  lemma TransformAlike(e: Engine, a: Recorder, b: Recorder, t: Transform)
    requires Alike(a, b)
    ensures b.Sized() && Alike(TransformStep(a, t), TransformStep(b, t))
  {
    hide Transformed, Alike, LayerCount, Normal, Trivial;
    AlikeFacts(a, b);
    StepSized(e, a, TransformCall(t));
    CommonAlike(a, b, TransformStep(a, t), TransformStep(b, t));
  }

  lemma SimpleAlike(e: Engine, a: Recorder, b: Recorder, c: Call)
    requires Alike(a, b) && (c.AttrCall? || c.SaveCall?)
    ensures b.Sized() && Alike(Step(e, a, c), Step(e, b, c))
  {
    hide Alike, LayerCount;
    AlikeFacts(a, b);
    StepSized(e, a, c);
    CommonAlike(a, b, Step(e, a, c), Step(e, b, c));
  }

  lemma StepAlike(e: Engine, a: Recorder, b: Recorder, c: Call)
    requires Alike(a, b) && Neutral(a, c)
    ensures b.Sized() && Alike(Step(e, a, c), Step(e, b, c))
  {
    hide Alike, DrawStep, LayerStep, RestoreStep;
    AlikeFacts(a, b);
    match c {
      case DrawCall(d) => DrawAlike(e, a, b, d);
      case LayerCall(_, _, _, _) => LayerAlike(e, a, b, c);
      case RestoreCall => RestoreAlike(e, a, b);
      case ClipCall(_, _, _) => ClipAlike(e, a, b, c);
      case TransformCall(t) => TransformAlike(e, a, b, t);
      case _ => SimpleAlike(e, a, b, c);
    }
  }

  // ---------- whole runs ----------

  lemma {:induction false} RunAlike(e: Engine, a: Recorder, b: Recorder, calls: seq<Call>)
    requires Alike(a, b) && b.Sized() && NeutralRun(e, a, calls)
    ensures Alike(Run(e, a, calls), Run(e, b, calls))
  {
    hide Alike, Step;
    AlikeFacts(a, b);
    if calls != [] {
      var n := |calls| - 1;
      RunAlike(e, a, b, calls[..n]);
      StepAlike(e, Run(e, a, calls[..n]), Run(e, b, calls[..n]), calls[n]);
    }
  }

  lemma {:induction false} RestoresAlike(e: Engine, a: Recorder, b: Recorder, n: nat)
    requires Alike(a, b) && b.Sized()
    ensures Alike(Run(e, a, Restores(n)), Run(e, b, Restores(n)))
  {
    hide Alike, Step;
    AlikeFacts(a, b);
    if n > 0 {
      RestoresAlike(e, a, b, n - 1);
      assert Restores(n)[..n - 1] == Restores(n - 1);
      StepAlike(e, Run(e, a, Restores(n - 1)), Run(e, b, Restores(n - 1)), RestoreCall);
    }
  }

  lemma StartAlike(cull: Rect)
    ensures Alike(Start(cull, false), Start(cull, true))
  {
    var a := Start(cull, false);
    assert a.layers[..0] == [] && LeafRects([]) == [];
  }

  // Without filtered layers and nested lists, preparing an rtree changes nothing else about the
  // list: not its records, its counts, its depth, nor its bounds.
  lemma RTreeModeIsNeutral(e: Engine, cull: Rect, calls: seq<Call>)
    requires NeutralRun(e, Start(cull, false), calls)
    ensures Build(e, cull, true, calls).(rtree := None) == Build(e, cull, false, calls)
  {
    hide Alike, Start, Run;
    StartAlike(cull);
    RunAlike(e, Start(cull, false), Start(cull, true), calls);
    var a, b := Run(e, Start(cull, false), calls), Run(e, Start(cull, true), calls);
    AlikeFacts(a, b);
    FinishIsRun(e, a);
    FinishIsRun(e, b);
    RestoresAlike(e, a, b, |a.stack| - 1);
    BuiltAlike(Finish(e, a), Finish(e, b));
  }

  lemma BuiltAlike(a: Recorder, b: Recorder)
    requires Alike(a, b) && |a.stack| == 1
    ensures |a.layers| > 0 && Built(b).(rtree := None) == Built(a)
  {
    AlikeFacts(a, b);
    assert a.stack[..0] == [] && LayerCount(a.stack) == 1;
    assert LayerLike(a.layers[0], b.layers[0]);
    assert a.layers[..0] == [] && Boxes(a.layers) == a.layers[0].globalBox;
  }
}
