/** What each step appends to the record list, up to the fields that restores patch later. */
module Emission {
  import opened Geometry
  import opened Painting
  import opened DisplayLists
  import opened Recorder

  function Pending(st: Recorder): seq<Call>
    requires |st.stack| > 0
  {
    if st.Top().deferred then [SaveCall] else []
  }

  predicate ClipVanishes(e: Engine, s: Save, shape: Shape, op: ClipOp, aa: bool) {
    Clipped(e, s, shape, op, aa).global.cull.IsEmpty() || Clipped(e, s, shape, op, aa).local.cull.IsEmpty()
  }

  // The layer call makes a layer; otherwise it is only a save that draws nothing.
  predicate MakesLayer(st: Recorder, withPaint: bool)
    requires |st.stack| > 0
  {
    PaintResult(st.Top().nop, st.paint, LayerFlags(withPaint)) != NoEffect
  }

  predicate ClosesLayer(st: Recorder, c: Call)
    requires |st.stack| > 0
  {
    c.RestoreCall? && |st.stack| > 1 && st.Top().isLayer
  }

  // What the layer around a new one is told.
  function OuterOf(st: Recorder, c: Call): Sink
    requires |st.stack| > 0 && |st.layers| > 0 && c.LayerCall?
  {
    OuterSink(st, c.withPaint, c.backdrop.Some?, PaintResult(st.Top().nop, st.paint, LayerFlags(c.withPaint)))
  }

  lemma LayerOpens(e: Engine, st: Recorder, c: Call)
    requires |st.stack| > 0 && |st.layers| > 0 && c.LayerCall? && MakesLayer(st, c.withPaint)
    ensures var k := OuterOf(st, c);
            LayerStep(e, st, c.bounds, c.withPaint, c.fromCaller, c.backdrop) ==
            Push(WithEntry(Drain(st, k), LayerEntry(e, st, c.bounds, c.withPaint, c.fromCaller),
                           InnerLayer(st, c.withPaint, k.rtree)),
                 OpeningRecord(c.bounds, c.withPaint, c.fromCaller, c.backdrop))
  {
    hide OuterSink, PaintResult, LayerTracker;
  }

  predicate RecordsClip(e: Engine, st: Recorder, s: Shape, op: ClipOp, aa: bool)
    requires |st.stack| > 0
  {
    !st.Top().nop && !RedundantClip(e, st.Top(), s, op) && !ClipVanishes(e, st.Top(), s, op, aa)
  }

  // Only an entry that draws can make an operation have an effect.
  lemma NotNop(st: Recorder, p: Paint, f: Flags)
    requires |st.stack| > 0 && PaintResult(st.Top().nop, p, f) != NoEffect
    ensures !st.Top().nop && PaintResult(st.Top().nop, p, f) == PaintResult(false, p, f)
  {
  }

  // Clipping first and pushing the deferred save afterwards gives the same state.
  lemma ClipLast(e: Engine, st: Recorder, c: Call)
    requires |st.stack| > 0 && c.ClipCall? && RecordsClip(e, st, c.shape, c.op, c.aa)
    ensures var st1 := CheckDeferredSave(st);
            ClipStep(e, st, c.shape, c.op, c.aa) ==
            SetTop(Push(st1, ClipRec(c.shape, c.op, c.aa)),
                   Clipped(e, st1.Top(), c.shape, c.op, c.aa).(validClip := true))
  {
    var n, st1 := |st.stack| - 1, CheckDeferredSave(st);
    var s' := Clipped(e, st.Top(), c.shape, c.op, c.aa).(validClip := true);
    assert SetTop(st, s').Top() == s';
    assert ClipStep(e, st, c.shape, c.op, c.aa).stack ==
           st.stack[n := Clipped(e, st1.Top(), c.shape, c.op, c.aa).(validClip := true)];
  }

  predicate DrawsAnything(st: Recorder, d: Op)
    requires |st.stack| > 0
  {
    PaintResult(st.Top().nop, EffectPaint(st.paint, d), d.flags) != NoEffect
  }

  // An operation that is dropped without a mark changes nothing.
  lemma DrainNothing(st: Recorder)
    requires |st.layers| > 0
    ensures Drain(st, TopSink(st)) == st
  {
    assert st.layers[|st.layers| - 1 := st.Layer()] == st.layers;
  }

  function DrawAccumulated(e: Engine, st: Recorder, d: Op): (Sink, bool)
    requires |st.stack| > 0 && |st.layers| > 0
  {
    AccumulateArea(st.Top(), TopSink(st), |st.records|, Area(e, st.paint, d))
  }

  predicate RecordsDraw(e: Engine, st: Recorder, d: Op)
    requires |st.stack| > 0 && |st.layers| > 0
  {
    DrawsAnything(st, d) && DrawAccumulated(e, st, d).1
  }

  function ListAccumulated(e: Engine, st: Recorder, l: DisplayList): (Sink, bool)
    requires |st.stack| > 0 && |st.layers| > 0
  {
    AccumulateList(e, st.Top(), TopSink(st), |st.records|, l)
  }

  predicate RecordsList(e: Engine, st: Recorder, l: DisplayList, o: real)
    requires |st.stack| > 0 && |st.layers| > 0
  {
    !SkipsList(l, o) && !st.Top().nop && ListAccumulated(e, st, l).1
  }

  function Emits(e: Engine, st: Recorder, c: Call): seq<Call>
    requires |st.stack| > 0 && |st.layers| > 0
  {
    match c
    case AttrCall(a) => if SetAttr(st.paint, a) == st.paint then [] else [c]
    case SaveCall => []
    case LayerCall(b, withPaint, fromCaller, bd) =>
      if MakesLayer(st, withPaint) then [LayerCall(EMPTY, withPaint, fromCaller, bd)] else []
    case RestoreCall =>
      if |st.stack| <= 1 || (st.Top().deferred && !st.Top().isLayer) then [] else [RestoreCall]
    case TransformCall(t) => if Trivial(Normal(t)) then [] else Pending(st) + [TransformCall(Normal(t))]
    case ClipCall(s, op, aa) => if RecordsClip(e, st, s, op, aa) then Pending(st) + [c] else []
    case DrawCall(d) => if RecordsDraw(e, st, d) then [c] else []
    case ListCall(l, o) => if RecordsList(e, st, l, o) then [ListCall(l, Min(o, 1.0))] else []
  }

  lemma PushEmits(st: Recorder, r: Record)
    ensures Skeleton(Push(st, r).records) == Skeleton(st.records) + [Settled(r)]
  {
    SkeletonAppend(st.records, r);
  }

  lemma PatchEmits(rs: seq<Record>, i: nat, restoreIndex: nat, contentDepth: nat, l: Layer)
    ensures Skeleton(PatchRecord(rs, i, restoreIndex, contentDepth, l)) == Skeleton(rs)
    ensures |PatchRecord(rs, i, restoreIndex, contentDepth, l)| == |rs|
  {
    if i < |rs| {
      SkeletonPatch(rs, i, Patched(rs[i], restoreIndex, contentDepth, l));
    }
  }

  lemma DeferredEmits(st: Recorder)
    requires |st.stack| > 0
    ensures Skeleton(CheckDeferredSave(st).records) == Skeleton(st.records) + Pending(st)
  {
    if st.Top().deferred {
      PushEmits(st, SaveRec(0, 0));
    }
  }

  lemma TransformEmits(st: Recorder, t: Transform)
    requires |st.stack| > 0 && !Trivial(Normal(t))
    ensures Skeleton(TransformStep(st, t).records) == Skeleton(st.records) + (Pending(st) + [TransformCall(Normal(t))])
  {
    DeferredEmits(st);
    PushEmits(CheckDeferredSave(st), TransformRec(Normal(t)));
  }

  lemma ClipEmits(e: Engine, st: Recorder, s: Shape, op: ClipOp, aa: bool)
    requires |st.stack| > 0 && RecordsClip(e, st, s, op, aa)
    ensures Skeleton(ClipStep(e, st, s, op, aa).records) ==
            Skeleton(st.records) + (Pending(st) + [ClipCall(s, op, aa)])
  {
    var st1 := SetTop(st, Clipped(e, st.Top(), s, op, aa).(validClip := true));
    DeferredEmits(st1);
    PushEmits(CheckDeferredSave(st1), ClipRec(s, op, aa));
  }

  lemma RestoreEmits(e: Engine, st: Recorder)
    requires st.Sized()
    ensures |st.layers| > 0
    ensures Skeleton(RestoreStep(e, st).records) == Skeleton(st.records) + Emits(e, st, RestoreCall)
  {
    LayerCountPositive(st.stack);
    if |st.stack| > 1 && !(st.Top().deferred && !st.Top().isLayer) {
      var top := st.Top();
      PatchEmits(st.records, top.saveIndex, |st.records|,
                 if st.depth >= top.saveDepth then st.depth - top.saveDepth else 0, st.Layer());
      var patched := PatchRecord(st.records, top.saveIndex, |st.records|,
                                 if st.depth >= top.saveDepth then st.depth - top.saveDepth else 0, st.Layer());
      SkeletonAppend(patched, RestoreRec);
    }
  }

  lemma DrawEmits(e: Engine, st: Recorder, c: Call)
    requires |st.stack| > 0 && |st.layers| > 0
    ensures c.DrawCall? ==> Skeleton(DrawStep(e, st, c.draw).records) == Skeleton(st.records) + Emits(e, st, c)
    ensures c.ListCall? ==>
            Skeleton(ListStep(e, st, c.list, c.opacity).records) == Skeleton(st.records) + Emits(e, st, c)
  {
    hide PaintResult, AccumulateArea, AccumulateList, NoteDraw, NoteList, Skeleton;
    NothingEmitted(st.records);
    if c.DrawCall? {
      SkeletonAppend(st.records, DrawRec(c.draw));
    } else if c.ListCall? {
      SkeletonAppend(st.records, ListRec(c.list, Min(c.opacity, 1.0)));
    }
  }

  lemma NothingEmitted(rs: seq<Record>)
    ensures Skeleton(rs) == Skeleton(rs) + []
  {
  }

  // The record list only ever grows at its end, as far as what records mean is concerned.
  lemma StepEmits(e: Engine, st: Recorder, c: Call)
    requires st.Sized()
    ensures |st.layers| > 0
    ensures Skeleton(Step(e, st, c).records) == Skeleton(st.records) + Emits(e, st, c)
  {
    hide DrawStep, ListStep, LayerStep, RestoreStep, Skeleton, RecordsDraw, RecordsList, MakesLayer;
    LayerCountPositive(st.stack);
    NothingEmitted(st.records);
    match c {
      case AttrCall(a) => SkeletonAppend(st.records, SetAttrRec(a));
      case LayerCall(b, withPaint, fromCaller, bd) => LayerEmits(e, st, b, withPaint, fromCaller, bd);
      case RestoreCall => RestoreEmits(e, st);
      case TransformCall(t) => if !Trivial(Normal(t)) { TransformEmits(st, t); }
      case ClipCall(s, op, aa) => if RecordsClip(e, st, s, op, aa) { ClipEmits(e, st, s, op, aa); }
      case DrawCall(_) => DrawEmits(e, st, c);
      case ListCall(_, _) => DrawEmits(e, st, c);
      case SaveCall =>
    }
  }

  lemma LayerEmits(e: Engine, st: Recorder, b: Rect, withPaint: bool, fromCaller: bool, bd: Option<Backdrop>)
    requires |st.stack| > 0 && |st.layers| > 0
    ensures Skeleton(LayerStep(e, st, b, withPaint, fromCaller, bd).records) ==
            Skeleton(st.records) +
            if MakesLayer(st, withPaint) then [LayerCall(EMPTY, withPaint, fromCaller, bd)] else []
  {
    hide PaintResult, OuterSink, LayerTracker, Skeleton;
    NothingEmitted(st.records);
    SkeletonAppend(st.records, LayerRec(LayerOptions(withPaint, fromCaller, false, false, false, false),
                                        if fromCaller then b else EMPTY, CLEAR, bd, 0, 0));
  }
}
