/** The summaries that layers keep in shared objects, compared with what the records that lie
    directly in each layer say. */
module LayerSummaries {
  import opened Geometry
  import opened Painting
  import opened DisplayLists
  import opened Recorder
  import opened Emission
  import Brackets
  import Contents

  // ---------- the summary of a layer, computed from records ----------

  // The largest blend mode; whether an operation has a backdrop, is incompatible with a group opacity,
  // may change transparent pixels, or may draw over itself.
  datatype Summary = Summary(maxBlend: BlendMode, backdrop: bool, incompatible: bool, affects: bool, overlaps: bool)

  // The paint in force, the summaries of the open layers, and which open brackets are layers.
  datatype Reading = Reading(paint: Paint, layers: seq<Summary>, open: seq<bool>)

  const EMPTY_SUMMARY: Summary := Summary(CLEAR, false, false, false, false)

  function Note(s: Summary, n: Summary): Summary {
    Summary(if s.maxBlend < n.maxBlend then n.maxBlend else s.maxBlend, s.backdrop || n.backdrop,
            s.incompatible || n.incompatible, s.affects || n.affects, s.overlaps || n.overlaps)
  }

  function OnTop(r: Reading, n: Summary): Reading {
    if r.layers == [] then r else r.(layers := r.layers[|r.layers| - 1 := Note(r.layers[|r.layers| - 1], n)])
  }

  // What each kind of operation adds to the summary of the layer that it lies in.

  function LayerNote(p: Paint, withPaint: bool, backdrop: bool, affects: bool): Summary {
    Summary(if withPaint then p.blend else SRC_OVER, backdrop, withPaint && !p.OpacityCompatible(), affects, false)
  }

  function DrawNote(p: Paint, d: Op, affects: bool): Summary {
    Summary(ModeOf(p, d), false, Incompatible(p, p.OpacityCompatible(), d), affects, d.overlaps)
  }

  function ListNote(l: DisplayList): Summary {
    Summary(l.maxRootBlend, l.rootBackdrop, !l.groupOpacity, l.modifiesTransparentBlack, false)
  }

  function Read(r: Reading, c: Call): Reading {
    match c
    case AttrCall(a) => r.(paint := SetAttr(r.paint, a))
    case SaveCall => r.(open := r.open + [false])
    case LayerCall(_, withPaint, _, backdrop) =>
      var affects := PaintResult(false, r.paint, LayerFlags(withPaint)) == AffectsAll;
      var outer := OnTop(r, LayerNote(r.paint, withPaint, backdrop.Some?, affects));
      outer.(open := r.open + [true],
             layers := outer.layers + [EMPTY_SUMMARY.(
               incompatible := withPaint && (!r.paint.OpacityCompatible() || r.paint.imageFilter.Some?))])
    case RestoreCall =>
      if r.open == [] then r
      else r.(open := r.open[..|r.open| - 1],
              layers := if r.open[|r.open| - 1] && r.layers != [] then r.layers[..|r.layers| - 1] else r.layers)
    case DrawCall(d) =>
      OnTop(r, DrawNote(r.paint, d, PaintResult(false, EffectPaint(r.paint, d), d.flags) == AffectsAll))
    case ListCall(l, _) => OnTop(r, ListNote(l))
    case _ => r
  }

  function ReadAll(sk: seq<Call>): Reading {
    if sk == [] then Reading(DefaultPaint(BLACK), [EMPTY_SUMMARY], [])
    else Read(ReadAll(sk[..|sk| - 1]), sk[|sk| - 1])
  }

  lemma ReadAppend(sk: seq<Call>, c: Call)
    ensures ReadAll(sk + [c]) == Read(ReadAll(sk), c)
  {
    assert (sk + [c])[..|sk|] == sk;
  }

  function SummaryOf(l: Layer): Summary { Summary(l.maxBlend, l.backdrop, l.incompatible, l.affects, l.overlapForced) }

  function SummariesOf(ls: seq<Layer>): seq<Summary> {
    seq(|ls|, i requires 0 <= i < |ls| => SummaryOf(ls[i]))
  }

  // Which entries of the stack above the root are layers, counting only those with a save record.
  function Open(stack: seq<Save>): seq<bool> {
    if |stack| <= 1 then []
    else
      var last := stack[|stack| - 1];
      Open(stack[..|stack| - 1]) + if last.deferred then [] else [last.isLayer]
  }

  // The records say what the recorder remembers, and the values it caches about its paint are current.
  ghost predicate Faithful(st: Recorder) {
    && st.Sized()
    && (forall i :: 0 <= i < |st.stack| && st.stack[i].isLayer ==> !st.stack[i].deferred)
    && st.compatible == st.paint.OpacityCompatible()
    && st.cost == st.paint.DepthCost()
    && Matches(st, ReadAll(Skeleton(st.records)))
  }

  ghost predicate Matches(st: Recorder, r: Reading) {
    r.paint == st.paint && r.layers == SummariesOf(st.layers) && r.open == Open(st.stack)
  }

  lemma OpenAppend(stack: seq<Save>, e: Save)
    requires |stack| > 0
    ensures Open(stack + [e]) == Open(stack) + if e.deferred then [] else [e.isLayer]
  {
    assert (stack + [e])[..|stack|] == stack;
  }

  lemma OpenSetTop(stack: seq<Save>, e: Save)
    requires |stack| > 0 && e.isLayer == stack[|stack| - 1].isLayer && e.deferred == stack[|stack| - 1].deferred
    ensures Open(stack[|stack| - 1 := e]) == Open(stack)
  {
    assert stack[|stack| - 1 := e][..|stack| - 1] == stack[..|stack| - 1];
  }

  // Changing only the top layer's bounds leaves its summary alone.
  lemma SameSummaries(ls: seq<Layer>, l: Layer)
    requires |ls| > 0 && SummaryOf(l) == SummaryOf(ls[|ls| - 1])
    ensures SummariesOf(ls[|ls| - 1 := l]) == SummariesOf(ls)
  {
  }

  lemma NotedSummaries(ls: seq<Layer>, l: Layer, r: Reading, n: Summary)
    requires |ls| > 0 && r.layers == SummariesOf(ls) && SummaryOf(l) == Note(SummaryOf(ls[|ls| - 1]), n)
    ensures SummariesOf(ls[|ls| - 1 := l]) == OnTop(r, n).layers
  {
  }

  // ---------- accumulating bounds does not touch the summary ----------

  lemma UnboundedSummary(s: Save, k: Sink, id: nat)
    ensures SummaryOf(AccumulateUnbounded(s, k, id).0.layer) == SummaryOf(k.layer)
  {
  }

  lemma BoundsSummary(s: Save, k: Sink, id: nat, r: Rect)
    ensures SummaryOf(AccumulateBounds(s, k, id, r).0.layer) == SummaryOf(k.layer)
  {
  }

  lemma {:induction false} EachSummary(s: Save, k: Sink, id: nat, rs: seq<Rect>)
    ensures SummaryOf(AccumulateEach(s, k, id, rs).0.layer) == SummaryOf(k.layer)
  {
    if rs != [] {
      EachSummary(s, k, id, rs[..|rs| - 1]);
      BoundsSummary(s, AccumulateEach(s, k, id, rs[..|rs| - 1]).0, id, rs[|rs| - 1]);
    }
  }

  lemma AreaSummary(s: Save, k: Sink, id: nat, area: Option<Rect>)
    ensures SummaryOf(AccumulateArea(s, k, id, area).0.layer) == SummaryOf(k.layer)
  {
    UnboundedSummary(s, k, id);
    if area.Some? { BoundsSummary(s, k, id, area.value); }
  }

  lemma ListSummary(e: Engine, s: Save, k: Sink, id: nat, l: DisplayList)
    ensures SummaryOf(AccumulateList(e, s, k, id, l).0.layer) == SummaryOf(k.layer)
  {
    UnboundedSummary(s, k, id);
    BoundsSummary(s, k, id, l.bounds);
    if l.rtree.Some? { EachSummary(s, k, id, e.consolidate(l.rtree.value, LocalCoverage(s.global))); }
  }

  lemma DeviceSummary(e: Engine, filter: ImageFilter, t: Tracker, outer: Layer, inner: Layer, rtree: Option<seq<Leaf>>)
    ensures SummaryOf(AdjustDevice(e, filter, t, outer, inner, rtree).0.layer) == SummaryOf(outer)
  {
    hide AdjustLeaves, Floods;
  }

  lemma TransferSummary(e: Engine, parent: Save, outer: Layer, inner: Layer, rtree: Option<seq<Leaf>>,
                        content: Rect, id: nat)
    ensures SummaryOf(TransferBounds(e, parent, outer, inner, rtree, content, id).layer) == SummaryOf(outer)
  {
    hide AdjustDevice, AccumulateUnbounded;
    if inner.filter.Some? {
      DeviceSummary(e, inner.filter.value, parent.global, outer, inner, rtree);
      UnboundedSummary(parent, AdjustDevice(e, inner.filter.value, parent.global, outer, inner, rtree).0, id);
    }
  }

  // ---------- every step ----------

  lemma NoteDrawSummary(l: Layer, p: Paint, d: Op, result: OpResult)
    ensures SummaryOf(NoteDraw(l, p, p.OpacityCompatible(), d, result)) ==
            Note(SummaryOf(l), DrawNote(p, d, result == AffectsAll))
  {
    hide Incompatible;
  }

  lemma NoteListSummary(l: Layer, list: DisplayList)
    ensures SummaryOf(NoteList(l, list)) == Note(SummaryOf(l), ListNote(list))
  {
  }

  // A push that is noted in the top layer as it is read back.
  lemma NotedFaithful(st: Recorder, st': Recorder, r: Record, l: Layer, n: Summary)
    requires Faithful(st) && |st.layers| > 0
    requires st'.records == st.records + [r] && st'.stack == st.stack && st'.layers == st.layers[|st.layers| - 1 := l]
    requires st'.paint == st.paint && st'.compatible == st.compatible && st'.cost == st.cost
    requires var before := ReadAll(Skeleton(st.records)); Read(before, Settled(r)) == OnTop(before, n)
    requires SummaryOf(l) == Note(SummaryOf(st.Layer()), n)
    ensures Faithful(st')
  {
    hide ReadAll, Read, SummaryOf, Note, Open, LayerCount, Skeleton;
    SkeletonAppend(st.records, r);
    ReadAppend(Skeleton(st.records), Settled(r));
    NotedSummaries(st.layers, l, ReadAll(Skeleton(st.records)), n);
  }

  // Nothing is pushed, and of the layer only its bounds may have changed.
  lemma UnnotedFaithful(st: Recorder, st': Recorder, l: Layer)
    requires Faithful(st) && |st.layers| > 0 && SummaryOf(l) == SummaryOf(st.Layer())
    requires st'.records == st.records && st'.stack == st.stack && st'.layers == st.layers[|st.layers| - 1 := l]
    requires st'.paint == st.paint && st'.compatible == st.compatible && st'.cost == st.cost
    ensures Faithful(st')
  {
    hide ReadAll, SummaryOf, Open, LayerCount, Skeleton;
    SameSummaries(st.layers, l);
  }

  lemma FaithfulFacts(st: Recorder)
    requires Faithful(st)
    ensures st.Sized() && st.compatible == st.paint.OpacityCompatible()
            && ReadAll(Skeleton(st.records)).paint == st.paint
  {
  }

  lemma DrawFaithful(e: Engine, st: Recorder, d: Op)
    requires Faithful(st) && |st.layers| > 0
    ensures Faithful(DrawStep(e, st, d))
  {
    hide PaintResult, AccumulateArea, NoteDraw, Incompatible, SummaryOf, Faithful, Note, ReadAll, Skeleton;
    FaithfulFacts(st);
    AreaSummary(st.Top(), TopSink(st), |st.records|, Area(e, st.paint, d));
    var acc, st' := DrawAccumulated(e, st, d), DrawStep(e, st, d);
    if RecordsDraw(e, st, d) {
      var result := PaintResult(st.Top().nop, EffectPaint(st.paint, d), d.flags);
      NotNop(st, EffectPaint(st.paint, d), d.flags);
      NoteDrawSummary(acc.0.layer, st.paint, d, result);
      NotedFaithful(st, st', DrawRec(d), NoteDraw(acc.0.layer, st.paint, st.compatible, d, result),
                    DrawNote(st.paint, d, result == AffectsAll));
    } else if DrawsAnything(st, d) {
      UnnotedFaithful(st, st', acc.0.layer);
    }
  }

  lemma ListFaithful(e: Engine, st: Recorder, l: DisplayList, o: real)
    requires Faithful(st) && |st.layers| > 0
    ensures Faithful(ListStep(e, st, l, o))
  {
    hide AccumulateList, NoteList, SummaryOf, Faithful, Note, ReadAll, Skeleton;
    FaithfulFacts(st);
    ListSummary(e, st.Top(), TopSink(st), |st.records|, l);
    var acc, st' := ListAccumulated(e, st, l), ListStep(e, st, l, o);
    if RecordsList(e, st, l, o) {
      NoteListSummary(acc.0.layer, l);
      NotedFaithful(st, st', ListRec(l, Min(o, 1.0)), NoteList(acc.0.layer, l), ListNote(l));
    } else if !SkipsList(l, o) && !st.Top().nop {
      UnnotedFaithful(st, st', acc.0.layer);
    }
  }

  lemma AttrFaithful(st: Recorder, a: Attr)
    requires Faithful(st)
    ensures Faithful(AttrStep(st, a))
  {
    hide ReadAll, Open, SummariesOf, LayerCount, Skeleton;
    if AttrStep(st, a) != st {
      SkeletonAppend(st.records, SetAttrRec(a));
      ReadAppend(Skeleton(st.records), AttrCall(a));
    }
  }

  lemma SaveFaithful(st: Recorder, nop: bool)
    requires Faithful(st)
    ensures Faithful(st.(stack := st.stack + [DeferredEntry(st.Top()).(nop := nop)]))
  {
    hide ReadAll;
    var e := DeferredEntry(st.Top()).(nop := nop);
    LayerCountAppend(st.stack, e);
    OpenAppend(st.stack, e);
  }

  lemma NoteLayerSummary(l: Layer, p: Paint, withPaint: bool, bd: bool, result: OpResult)
    ensures SummaryOf(NoteLayer(l, p, p.OpacityCompatible(), withPaint, bd, result)) ==
            Note(SummaryOf(l), LayerNote(p, withPaint, bd, result == AffectsAll))
  {
  }

  lemma OuterSummary(st: Recorder, withPaint: bool, bd: bool, result: OpResult)
    requires |st.stack| > 0 && |st.layers| > 0 && st.compatible == st.paint.OpacityCompatible()
    ensures SummaryOf(OuterSink(st, withPaint, bd, result).layer) ==
            Note(SummaryOf(st.Layer()), LayerNote(st.paint, withPaint, bd, result == AffectsAll))
  {
    hide AccumulateUnbounded, LayerFloods, SummaryOf, NoteLayer, LayerNote;
    var noted := NoteLayer(st.Layer(), st.paint, st.compatible, withPaint, bd, result);
    NoteLayerSummary(st.Layer(), st.paint, withPaint, bd, result);
    UnboundedSummary(st.Top(), Sink(noted, st.rtree), |st.records|);
  }

  lemma LayerFaithful(e: Engine, st: Recorder, b: Rect, withPaint: bool, fromCaller: bool, bd: Option<Backdrop>)
    requires Faithful(st) && |st.layers| > 0 && MakesLayer(st, withPaint)
    ensures Faithful(LayerStep(e, st, b, withPaint, fromCaller, bd))
  {
    hide PaintResult, OuterSink, LayerTracker, Open, LayerCount, Note, ReadAll, Skeleton;
    var st' := LayerStep(e, st, b, withPaint, fromCaller, bd);
    var sk, c := Skeleton(st.records), LayerCall(EMPTY, withPaint, fromCaller, bd);
    var r, result := ReadAll(sk), PaintResult(st.Top().nop, st.paint, LayerFlags(withPaint));
    LayerSized(e, st, b, withPaint, fromCaller, bd);
    LayerEmits(e, st, b, withPaint, fromCaller, bd);
    ReadAppend(sk, c);
    NotNop(st, st.paint, LayerFlags(withPaint));
    OuterSummary(st, withPaint, bd.Some?, result);
    var outer := st.layers[|st.layers| - 1 := OuterSink(st, withPaint, bd.Some?, result).layer];
    NotedSummaries(st.layers, OuterSink(st, withPaint, bd.Some?, result).layer, r,
                   LayerNote(st.paint, withPaint, bd.Some?, result == AffectsAll));
    assert st'.layers == outer + [st'.Layer()] && st'.stack == st.stack + [st'.Top()];
    assert SummariesOf(st'.layers) == SummariesOf(outer) + [SummaryOf(st'.Layer())];
    OpenAppend(st.stack, st'.Top());
  }

  lemma DeferredFaithful(st: Recorder)
    requires Faithful(st)
    ensures Faithful(CheckDeferredSave(st)) && CheckDeferredSave(st).layers == st.layers
  {
    if st.Top().deferred {
      hide ReadAll, LayerCount, SummariesOf, Open, Skeleton, Read;
      var st', n := CheckDeferredSave(st), |st.stack| - 1;
      var e := st'.Top();
      assert st'.stack == st.stack[n := e] && !e.deferred && !e.isLayer && n > 0;
      SetTopSized(st, st');
      OpenFlushed(st.stack, e);
      SkeletonAppend(st.records, SaveRec(0, 0));
      ReadAppend(Skeleton(st.records), SaveCall);
      ReadSave(ReadAll(Skeleton(st.records)));
    }
  }

  lemma ReadSave(r: Reading)
    ensures Read(r, SaveCall) == r.(open := r.open + [false])
  {
  }

  lemma OpenFlushed(stack: seq<Save>, s: Save)
    requires |stack| > 1 && stack[|stack| - 1].deferred && !s.deferred
    ensures Open(stack[|stack| - 1 := s]) == Open(stack) + [s.isLayer]
  {
    var under := stack[..|stack| - 1];
    assert stack == under + [stack[|stack| - 1]] && stack[|stack| - 1 := s] == under + [s];
    OpenAppend(under, stack[|stack| - 1]);
    OpenAppend(under, s);
  }

  // Replaces the top entry, and then maybe pushes a transform or a clip.
  lemma TopFaithful(st: Recorder, s: Save)
    requires Faithful(st) && s.isLayer == st.Top().isLayer && s.deferred == st.Top().deferred
    ensures Faithful(SetTop(st, s))
  {
    hide ReadAll;
    OpenSetTop(st.stack, s);
    SetTopSized(st, SetTop(st, s));
  }

  lemma PushFaithful(st: Recorder, r: Record)
    requires Faithful(st) && (r.TransformRec? || r.ClipRec?)
    ensures Faithful(Push(st, r))
  {
    SkeletonAppend(st.records, r);
    ReadAppend(Skeleton(st.records), Settled(r));
  }

  lemma TransformFaithful(st: Recorder, t: Transform)
    requires Faithful(st)
    ensures Faithful(TransformStep(st, t))
  {
    hide Faithful, LocalAfter, GlobalAfter;
    FaithfulSized(st);
    if !Trivial(Normal(t)) {
      DeferredFaithful(st);
      var st1 := CheckDeferredSave(st);
      PushFaithful(st1, TransformRec(Normal(t)));
      TopFaithful(Push(st1, TransformRec(Normal(t))), Transformed(st1.Top(), Normal(t)));
    }
  }

  lemma ClipFaithful(e: Engine, st: Recorder, s: Shape, op: ClipOp, aa: bool)
    requires Faithful(st)
    ensures Faithful(ClipStep(e, st, s, op, aa))
  {
    hide Faithful, RedundantClip;
    FaithfulSized(st);
    if ClipStep(e, st, s, op, aa) != st {
      var clipped := Clipped(e, st.Top(), s, op, aa);
      TopFaithful(st, clipped.(nop := true));
      if !clipped.global.cull.IsEmpty() && !clipped.local.cull.IsEmpty() {
        TopFaithful(st, clipped.(validClip := true));
        DeferredFaithful(SetTop(st, clipped.(validClip := true)));
        PushFaithful(CheckDeferredSave(SetTop(st, clipped.(validClip := true))), ClipRec(s, op, aa));
      }
    }
  }

  lemma CloseSummaries(e: Engine, st: Recorder)
    requires |st.stack| > 1 && |st.layers| > 1
    ensures SummariesOf(CloseLayer(e, st).layers) == SummariesOf(st.layers)[..|st.layers| - 1]
    ensures CloseLayer(e, st).paint == st.paint && CloseLayer(e, st).cost == st.cost
    ensures CloseLayer(e, st).compatible == st.compatible
  {
    hide TransferBounds;
    var top, n := st.Top(), |st.layers|;
    var content := if top.saveIndex < |st.records| then ContentBounds(st.records[top.saveIndex], st.Layer()) else EMPTY;
    TransferSummary(e, st.stack[|st.stack| - 2], st.layers[n - 2], st.Layer(), st.rtree, content, |st.records|);
  }

  lemma RestoreFaithful(e: Engine, st: Recorder)
    requires Faithful(st)
    ensures Faithful(RestoreStep(e, st))
  {
    hide ReadAll, CloseLayer, Patched;
    RestoreSized(e, st);
    if |st.stack| > 1 {
      var under, st' := st.stack[..|st.stack| - 1], RestoreStep(e, st);
      LayerCountPositive(under);
      assert st'.stack == under;
      if !st.Top().deferred {
        if st.Top().isLayer { CloseSummaries(e, st); }
        RestoreEmits(e, st);
        ReadAppend(Skeleton(st.records), RestoreCall);
        assert Open(st.stack) == Open(under) + [st.Top().isLayer];
      }
    }
  }

  lemma StepFaithful(e: Engine, st: Recorder, c: Call)
    requires Faithful(st)
    ensures Faithful(Step(e, st, c))
  {
    hide Faithful, AttrStep, RestoreStep, TransformStep, ClipStep, DrawStep, ListStep, PaintResult;
    assert st.Sized() by { FaithfulSized(st); }
    LayerCountPositive(st.stack);
    match c {
      case AttrCall(a) => AttrFaithful(st, a);
      case SaveCall => SaveFaithful(st, st.Top().nop);
      case LayerCall(b, withPaint, fromCaller, bd) =>
        if MakesLayer(st, withPaint) {
          LayerFaithful(e, st, b, withPaint, fromCaller, bd);
        } else {
          SaveFaithful(st, true);
          assert LayerStep(e, st, b, withPaint, fromCaller, bd) ==
                 st.(stack := st.stack + [DeferredEntry(st.Top()).(nop := true)]);
        }
      case RestoreCall => RestoreFaithful(e, st);
      case TransformCall(t) => TransformFaithful(st, t);
      case ClipCall(s, op, aa) => ClipFaithful(e, st, s, op, aa);
      case DrawCall(d) => DrawFaithful(e, st, d);
      case ListCall(l, o) => ListFaithful(e, st, l, o);
    }
  }

  lemma FaithfulSized(st: Recorder)
    requires Faithful(st)
    ensures st.Sized()
  {
  }

  lemma StartFaithful(cull: Rect, prepareRTree: bool)
    ensures Faithful(Start(cull, prepareRTree))
  {
  }

  lemma {:induction false} RunFaithful(e: Engine, start: Recorder, calls: seq<Call>)
    requires Faithful(start)
    ensures Faithful(Run(e, start, calls))
  {
    hide Faithful, Step;
    FaithfulSized(start);
    if calls != [] {
      var front := calls[..|calls| - 1];
      RunFaithful(e, start, front);
      StepFaithful(e, Run(e, start, front), calls[|calls| - 1]);
    }
  }

  // In every reachable state the summary of each open layer is the one that reading the records from
  // the start gives, and its bounds and marks are those of what was recorded directly in it. The
  // cached facts about the paint are up to date.
  lemma SummariesAreFaithful(e: Engine, cull: Rect, prepareRTree: bool, calls: seq<Call>)
    ensures Faithful(Run(e, Start(cull, prepareRTree), calls))
    ensures Contents.AllHold(Run(e, Start(cull, prepareRTree), calls).layers,
                             Contents.ContentsOf(e, Start(cull, prepareRTree), calls))
  {
    hide Faithful, Run;
    StartFaithful(cull, prepareRTree);
    RunFaithful(e, Start(cull, prepareRTree), calls);
    Contents.StartHolds(cull, prepareRTree);
    Contents.LayersHoldTheirContents(e, Start(cull, prepareRTree), calls);
  }

  // Everything that is known of the layer at the top, from its records and from the run.
  ghost predicate Known(st: Recorder, s: Summary, k: Contents.Content) {
    && |st.layers| > 0 && SummaryOf(st.Layer()) == s && Contents.Holds(st.Layer(), k)
    && (st.Layer().GroupOpacity() ==> Distributes(s, k))
  }

  // A group opacity can be applied to each operation of the layer by itself: all are compatible, none
  // draws over itself, and their bounds are pairwise disjoint.
  ghost predicate Distributes(s: Summary, k: Contents.Content) {
    !s.incompatible && !s.overlaps && !k.overlaps && PairwiseDisjoint(k.bounds)
  }

  lemma ReachedKnown(e: Engine, cull: Rect, prepareRTree: bool, calls: seq<Call>)
    ensures var st := Run(e, Start(cull, prepareRTree), calls); var r := ReadAll(Skeleton(st.records));
            && |r.layers| > 0 && |Contents.ContentsOf(e, Start(cull, prepareRTree), calls)| == |r.layers|
            && Known(st, r.layers[|r.layers| - 1],
                     Contents.Top(Contents.ContentsOf(e, Start(cull, prepareRTree), calls)))
  {
    hide Step, ReadAll, Contents.ContentsOf, Contents.Holds, PairwiseDisjoint, Overlapping;
    var st := Run(e, Start(cull, prepareRTree), calls);
    SummariesAreFaithful(e, cull, prepareRTree, calls);
    LayerCountPositive(st.stack);
    var ks := Contents.ContentsOf(e, Start(cull, prepareRTree), calls);
    Contents.OneHolds(st.layers, ks, |ks| - 1);
    if st.Layer().GroupOpacity() { DisjointContent(st.Layer(), Contents.Top(ks)); }
  }

  lemma DisjointContent(l: Layer, k: Contents.Content)
    requires Contents.Holds(l, k) && l.GroupOpacity()
    ensures PairwiseDisjoint(k.bounds) && !k.overlaps
  {
    NoOverlapMeansDisjoint(l.rects);
  }

  // The flags of a built list are those of its root layer: what reading the records gives, and what
  // was recorded directly in it. If it says that opacity can be applied to its operations, it can.
  lemma BuiltSummary(e: Engine, cull: Rect, prepareRTree: bool, calls: seq<Call>)
    ensures var l := Build(e, cull, prepareRTree, calls); var r := ReadAll(Skeleton(l.records));
            && |r.layers| == 1
            && l.maxRootBlend == r.layers[0].maxBlend && l.rootBackdrop == r.layers[0].backdrop
            && l.modifiesTransparentBlack == r.layers[0].affects
    ensures var l := Build(e, cull, prepareRTree, calls); var r := ReadAll(Skeleton(l.records));
            var k := RootContent(e, cull, prepareRTree, calls);
            && |r.layers| == 1 && l.rootUnbounded == (k.flooded || k.lost)
            && (l.groupOpacity <==> !r.layers[0].incompatible && !k.overlaps && !Overlapping(k.bounds))
            && (l.groupOpacity ==> Distributes(r.layers[0], k))
  {
    hide Run, Finish, ReadAll, Overlapping, PairwiseDisjoint, Contents.ContentsOf;
    var whole := Whole(e, cull, prepareRTree, calls);
    var f := Run(e, Start(cull, prepareRTree), whole);
    WholeRun(e, cull, prepareRTree, calls);
    ReachedKnown(e, cull, prepareRTree, whole);
    SummariesAreFaithful(e, cull, prepareRTree, whole);
    assert |f.layers| == 1 by { OneLayer(f); }
  }

  lemma OneLayer(st: Recorder)
    requires st.Sized() && |st.stack| == 1
    ensures |st.layers| == 1
  {
    assert st.stack[..|st.stack| - 1] == [];
    assert LayerCount(st.stack) == LayerCount([]) + 1;
  }

  // The calls and the restores that finishing makes.
  function Whole(e: Engine, cull: Rect, prepareRTree: bool, calls: seq<Call>): seq<Call> {
    calls + Restores(|Run(e, Start(cull, prepareRTree), calls).stack| - 1)
  }

  function RootContent(e: Engine, cull: Rect, prepareRTree: bool, calls: seq<Call>): Contents.Content {
    var ks := Contents.ContentsOf(e, Start(cull, prepareRTree), Whole(e, cull, prepareRTree, calls));
    if ks == [] then Contents.NOTHING else Contents.Top(ks)
  }

  lemma WholeRun(e: Engine, cull: Rect, prepareRTree: bool, calls: seq<Call>)
    ensures var f := Run(e, Start(cull, prepareRTree), Whole(e, cull, prepareRTree, calls));
            f == Finish(e, Run(e, Start(cull, prepareRTree), calls)) && |f.stack| == 1 && f.Sized()
  {
    hide Run, Finish, Start;
    var st := Run(e, Start(cull, prepareRTree), calls);
    RunConcat(e, Start(cull, prepareRTree), calls, Restores(|st.stack| - 1));
    FinishIsRun(e, st);
  }

  // A draw that is recorded adds one rectangle to its layer: what of its area is inside the clip,
  // in the layer's own coordinates. Where the area is unknown it is the clip.
  lemma RecordedDrawsAddBounds(e: Engine, st: Recorder, d: Op)
    requires |st.stack| > 0 && |st.layers| > 0 && RecordsDraw(e, st, d)
    ensures var area, local, global := Area(e, st.paint, d), st.Top().local, st.Top().global;
            && (area.None? ==> global.matrix.Invertible())
            && DrawStep(e, st, d).Layer().rects == st.Layer().rects +
                 [Intersection(MapRect(local.matrix, if area.Some? then area.value
                                                     else MapRect(Inverse(global.matrix), global.cull)), local.cull)]
  {
    hide PaintResult, Area, MapRect, Intersection, Incompatible;
    MapNonEmpty(st.Top().local.matrix, EMPTY);
    IntersectsIffNonEmpty(MapRect(st.Top().local.matrix, EMPTY), st.Top().local.cull);
  }

  // The bounds of a restored layer's record hold everything that was drawn into the layer, within
  // the bounds that a caller gave; they say when they clip it.
  lemma RestoredBounds(e: Engine, st: Recorder, i: nat)
    requires st.Sized() && |st.stack| > 1 && st.Top().isLayer && |st.layers| > 0 && i < |st.Layer().rects|
    requires st.Top().saveIndex < |st.records| && st.records[st.Top().saveIndex].LayerRec?
    requires !st.Layer().rects[i].IsEmpty() && !st.records[st.Top().saveIndex].options.clipped
    ensures var r, s := st.records[st.Top().saveIndex], RestoreStep(e, st).records[st.Top().saveIndex];
            && s.LayerRec? && s.options.unbounded == st.Layer().unbounded
            && (if s.options.clipped
                then r.options.fromCaller && s.bounds == Intersection(Box(st.Layer().rects), r.bounds)
                else Contains(s.bounds, st.Layer().rects[i]))
  {
    hide CloseLayer;
    LayerCountPositive(st.stack[..|st.stack| - 1]);
    BoxContains(st.Layer().rects, i);
  }

  // In every run the record of a layer that is restored gets the summary of its content: what reading
  // the records gives for the layer, and what the run recorded directly in it.
  lemma RestoredRecord(e: Engine, cull: Rect, prepareRTree: bool, calls: seq<Call>)
    requires var st := Run(e, Start(cull, prepareRTree), calls); |st.stack| > 1 && st.Top().isLayer
    ensures var st := Run(e, Start(cull, prepareRTree), calls); var i := st.Top().saveIndex;
            i < |st.records| && st.records[i].LayerRec? && |RestoreStep(e, st).records| == |st.records| + 1
    ensures var st := Run(e, Start(cull, prepareRTree), calls); var i := st.Top().saveIndex;
            var r, s := ReadAll(Skeleton(st.records)), RestoreStep(e, st).records[i];
            |r.layers| > 0 && s.LayerRec?
                && Completed(s, r.layers[|r.layers| - 1], TopContent(e, cull, prepareRTree, calls))
  {
    hide Run, ReadAll, CloseLayer, PairwiseDisjoint, Contents.ContentsOf;
    var st := Run(e, Start(cull, prepareRTree), calls);
    ReachedKnown(e, cull, prepareRTree, calls);
    Brackets.StartSound(cull, prepareRTree);
    Brackets.RunSound(e, Start(cull, prepareRTree), calls);
    assert !st.Top().deferred by { LayersNotDeferred(st); }
    Brackets.TopMark(st);
    LayerCountPositive(st.stack[..|st.stack| - 1]);
  }

  lemma LayersNotDeferred(st: Recorder)
    requires Brackets.Sound(st) && st.Top().isLayer
    ensures !st.Top().deferred
  {
  }

  function TopContent(e: Engine, cull: Rect, prepareRTree: bool, calls: seq<Call>): Contents.Content {
    var ks := Contents.ContentsOf(e, Start(cull, prepareRTree), calls);
    if ks == [] then Contents.NOTHING else Contents.Top(ks)
  }

  // The layer record has the summary, and the bounds of the content unless the caller's clip them.
  ghost predicate Completed(r: Record, s: Summary, k: Contents.Content) {
    && r.LayerRec? && r.maxBlend == s.maxBlend && r.options.hasBackdrop == s.backdrop
    && r.options.unbounded == (k.flooded || k.lost)
    && (r.options.distributesOpacity <==> !s.incompatible && !k.overlaps && !Overlapping(k.bounds))
    && (r.options.distributesOpacity ==> Distributes(s, k))
    && (!r.options.clipped ==> r.bounds == Box(k.bounds))
  }

  // ---------- bounds that do not overlap ----------

  ghost predicate PairwiseDisjoint(rects: seq<Rect>) {
    forall i, j :: 0 <= i < j < |rects| ==> !Intersects(rects[i], rects[j])
  }

  lemma {:induction false} BoxContains(rects: seq<Rect>, i: nat)
    requires i < |rects| && !rects[i].IsEmpty()
    ensures !Box(rects).IsEmpty() && Contains(Box(rects), rects[i])
  {
    var front := rects[..|rects| - 1];
    if i < |front| { BoxContains(front, i); }
  }

  // An overlap is noted exactly if some rectangle meets the box of those before it.
  lemma {:induction false} OverlapsAreExact(rects: seq<Rect>)
    ensures Overlapping(rects) <==> exists i :: 0 <= i < |rects| && Intersects(rects[i], Box(rects[..i]))
  {
    hide Intersects, Box;
    if rects != [] {
      var n := |rects| - 1;
      OverlapsAreExact(rects[..n]);
      assert forall i :: 0 <= i < n ==> rects[..n][i] == rects[i] && rects[..n][..i] == rects[..i];
    }
  }

  // The running test against the bounding box is conservative: when it never fires, no two of
  // the accumulated rectangles meet.
  lemma {:induction false} NoOverlapMeansDisjoint(rects: seq<Rect>)
    requires !Overlapping(rects)
    ensures PairwiseDisjoint(rects)
  {
    if rects != [] {
      var n := |rects| - 1;
      NoOverlapMeansDisjoint(rects[..n]);
      forall i, j | 0 <= i < j < |rects| ensures !Intersects(rects[i], rects[j]) {
        if j == n {
          if !rects[i].IsEmpty() { BoxContains(rects[..n], i); }
        } else {
          assert rects[..n][i] == rects[i] && rects[..n][j] == rects[j];
        }
      }
    }
  }
}
