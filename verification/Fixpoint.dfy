/** Dispatching a built list into a fresh recorder builds the same list again. */
module Fixpoint {
  import opened Geometry
  import opened Painting
  import opened DisplayLists
  import opened Recorder
  import opened Emission

  // ---------- the first recorder against the one fed with its records ----------

  // An entry of the first recorder and the entry that the second one has at that point of the
  // records. They are the same while the first one draws; after that only the matrices matter.
  ghost predicate EntrySame(s: Save, t: Save) {
    && !t.deferred && (s.isLayer ==> !s.deferred)
    && (!s.deferred ==> t.isLayer == s.isLayer && t.saveDepth == s.saveDepth && t.saveIndex == s.saveIndex)
    && t.global.matrix == s.global.matrix && t.local.matrix == s.local.matrix
    && (!s.nop ==> !t.nop && t.global == s.global && t.local == s.local && t.validClip == s.validClip)
  }

  ghost predicate StackSame(first: seq<Save>, second: seq<Save>) {
    if first == [] then second == []
    else
      var n, m := |first| - 1, |second| - 1;
      && m >= 0 && EntrySame(first[n], second[m])
      && (first[n].isLayer && n > 0 ==> !first[n - 1].nop)
      && StackSame(first[..n], if first[n].deferred then second else second[..m])
  }

  ghost predicate Same(a: Recorder, b: Recorder) {
    && a.Sized() && b.Sized() && !a.stack[0].deferred
    && b.(stack := a.stack) == a
    && StackSame(a.stack, b.stack)
  }

  // ---------- stacks ----------

  lemma PushSame(first: seq<Save>, second: seq<Save>, s: Save, t: Save)
    requires |first| > 0 && StackSame(first, second) && EntrySame(s, t)
    requires s.isLayer ==> !first[|first| - 1].nop
    requires s.deferred ==> |second| > 0 && t == second[|second| - 1]
    ensures StackSame(first + [s], if s.deferred then second else second + [t])
  {
    assert (first + [s])[..|first|] == first && (second + [t])[..|second|] == second;
  }

  lemma TopSame(first: seq<Save>, second: seq<Save>, s: Save, t: Save)
    requires |first| > 0 && StackSame(first, second) && EntrySame(s, t)
    requires s.isLayer == first[|first| - 1].isLayer && s.deferred == first[|first| - 1].deferred
    requires s.deferred ==> t == second[|second| - 1]
    ensures StackSame(first[|first| - 1 := s], second[|second| - 1 := t])
  {
    var n, m := |first| - 1, |second| - 1;
    assert first[n := s][..n] == first[..n] && second[m := t][..m] == second[..m];
    if s.deferred { assert second[m := t] == second; }
  }

  lemma FlushSame(first: seq<Save>, second: seq<Save>, s: Save, t: Save)
    requires |first| > 0 && StackSame(first, second) && first[|first| - 1].deferred
    requires !s.deferred && !s.isLayer && EntrySame(s, t)
    ensures StackSame(first[|first| - 1 := s], second + [t])
  {
    var n := |first| - 1;
    assert first[n := s][..n] == first[..n] && (second + [t])[..|second|] == second;
  }

  lemma {:induction false} SecondNonEmpty(first: seq<Save>, second: seq<Save>)
    requires |first| > 0 && StackSame(first, second)
    ensures |second| > 0
    ensures !first[0].deferred && |first| > 1 && !first[|first| - 1].deferred ==> |second| > 1
    ensures |first| == 1 && !first[0].deferred ==> |second| == 1
  {
    var n := |first| - 1;
    if n > 0 && !first[n].deferred {
      SecondNonEmpty(first[..n], second[..|second| - 1]);
    }
  }

  lemma TopEntry(a: Recorder, b: Recorder)
    requires Same(a, b)
    ensures |b.stack| > 0 && |a.layers| > 0 && EntrySame(a.Top(), b.Top())
  {
    LayerCountPositive(a.stack);
  }

  // ---------- single calls ----------

  ghost predicate StepSame(e: Engine, a: Recorder, b: Recorder, c: Call)
    requires a.Sized() && |a.layers| > 0 && b.Sized()
  {
    Same(Step(e, a, c), Run(e, b, Emits(e, a, c)))
  }

  lemma RunShort(e: Engine, b: Recorder, c: Call, d: Call)
    requires b.Sized()
    ensures Run(e, b, []) == b
    ensures Run(e, b, [c]) == Step(e, b, c)
    ensures Step(e, b, c).Sized() && Run(e, b, [c, d]) == Step(e, Step(e, b, c), d)
  {
    StepSized(e, b, c);
    assert [c][..0] == [] && [c, d][..1] == [c];
  }

  lemma AttrSame(e: Engine, a: Recorder, b: Recorder, attr: Attr)
    requires Same(a, b) && |a.layers| > 0
    ensures StepSame(e, a, b, AttrCall(attr))
  {
    hide StackSame;
    RunShort(e, b, AttrCall(attr), SaveCall);
  }

  lemma DeferredSame(a: Recorder, b: Recorder, nop: bool)
    requires Same(a, b) && (a.Top().nop ==> nop)
    ensures Same(a.(stack := a.stack + [DeferredEntry(a.Top()).(nop := nop)]), b)
  {
    hide StackSame;
    TopEntry(a, b);
    var s := DeferredEntry(a.Top()).(nop := nop);
    PushSame(a.stack, b.stack, s, b.Top());
    LayerCountAppend(a.stack, s);
  }

  lemma SaveSame(e: Engine, a: Recorder, b: Recorder)
    requires Same(a, b) && |a.layers| > 0
    ensures StepSame(e, a, b, SaveCall)
  {
    hide StackSame;
    RunShort(e, b, SaveCall, SaveCall);
    DeferredSame(a, b, a.Top().nop);
  }

  // A layer call whose bounds come from nowhere ignores them.
  lemma LayerBoundsIgnored(e: Engine, st: Recorder, b: Rect, withPaint: bool, bd: Option<Backdrop>)
    requires |st.stack| > 0 && |st.layers| > 0
    ensures LayerStep(e, st, b, withPaint, false, bd) == LayerStep(e, st, EMPTY, withPaint, false, bd)
  {
    hide PaintResult, OuterSink;
  }

  // What a saveLayer reads of the top entry.
  lemma LayerReads(e: Engine, a: Recorder, b: Recorder, withPaint: bool, bd: Option<Backdrop>)
    requires |a.stack| > 0 && |b.stack| > 0 && |a.layers| > 0 && b.(stack := a.stack) == a
    requires MakesLayer(a, withPaint) && !a.Top().nop && !b.Top().nop && a.Top().validClip == b.Top().validClip
    requires a.Top().global == b.Top().global && a.Top().local == b.Top().local
    ensures MakesLayer(b, withPaint)
    ensures var a', b' := LayerStep(e, a, EMPTY, withPaint, false, bd), LayerStep(e, b, EMPTY, withPaint, false, bd);
            && b'.(stack := a'.stack) == a' && |a'.stack| == |a.stack| + 1 && |b'.stack| == |b.stack| + 1
            && a'.stack == a.stack + [a'.Top()] && b'.stack == b.stack + [a'.Top()]
            && a'.Top().isLayer && !a'.Top().deferred && !a'.Top().nop
  {
    hide PaintResult, LayerTracker, AccumulateUnbounded, NoteLayer, LayerFloods;
    assert PaintResult(a.Top().nop, a.paint, LayerFlags(withPaint)) ==
           PaintResult(b.Top().nop, b.paint, LayerFlags(withPaint));
    SameSinks(a, b, withPaint, bd.Some?, PaintResult(a.Top().nop, a.paint, LayerFlags(withPaint)));
  }

  lemma SameSinks(a: Recorder, b: Recorder, withPaint: bool, bd: bool, result: OpResult)
    requires |a.stack| > 0 && |b.stack| > 0 && |a.layers| > 0 && b.(stack := a.stack) == a
    requires a.Top().validClip == b.Top().validClip && a.Top().global == b.Top().global
             && a.Top().local == b.Top().local
    ensures OuterSink(a, withPaint, bd, result) == OuterSink(b, withPaint, bd, result)
  {
    hide LayerFloods, NoteLayer, MapAndClip, AddBounds;
  }

  lemma LayerSame(e: Engine, a: Recorder, b: Recorder, c: Call)
    requires Same(a, b) && |a.layers| > 0 && c.LayerCall? && !c.fromCaller
    ensures StepSame(e, a, b, c)
  {
    hide StackSame, PaintResult, OuterSink, LayerStep;
    TopEntry(a, b);
    var emitted := LayerCall(EMPTY, c.withPaint, false, c.backdrop);
    RunShort(e, b, emitted, SaveCall);
    LayerBoundsIgnored(e, a, c.bounds, c.withPaint, c.backdrop);
    if MakesLayer(a, c.withPaint) {
      NotNop(a, a.paint, LayerFlags(c.withPaint));
      LayerReads(e, a, b, c.withPaint, c.backdrop);
      var a' := LayerStep(e, a, EMPTY, c.withPaint, false, c.backdrop);
      PushSame(a.stack, b.stack, a'.Top(), a'.Top());
      LayerSized(e, a, EMPTY, c.withPaint, false, c.backdrop);
      LayerSized(e, b, EMPTY, c.withPaint, false, c.backdrop);
    } else {
      DeferredSame(a, b, true);
      NoLayer(e, a, c);
    }
  }

  lemma NoLayer(e: Engine, a: Recorder, c: Call)
    requires |a.stack| > 0 && |a.layers| > 0 && c.LayerCall? && !MakesLayer(a, c.withPaint)
    ensures LayerStep(e, a, c.bounds, c.withPaint, c.fromCaller, c.backdrop) ==
            a.(stack := a.stack + [DeferredEntry(a.Top()).(nop := true)])
  {
  }

  lemma RestoreSame(e: Engine, a: Recorder, b: Recorder)
    requires Same(a, b) && |a.layers| > 0
    ensures StepSame(e, a, b, RestoreCall)
  {
    RunShort(e, b, RestoreCall, SaveCall);
    TopEntry(a, b);
    if |a.stack| > 1 {
      SecondNonEmpty(a.stack, b.stack);
      RestoreSized(e, a);
      RestoreSized(e, b);
      if !a.Top().deferred {
        CloseSame(e, a, b);
      }
    }
  }

  lemma CloseSame(e: Engine, a: Recorder, b: Recorder)
    requires Same(a, b) && |a.stack| > 1 && |b.stack| > 1 && !a.Top().deferred
    ensures Same(RestoreStep(e, a), RestoreStep(e, b))
  {
    hide CloseLayer, Patched;
    TopEntry(a, b);
    RestoreSized(e, a);
    RestoreSized(e, b);
    LayerCountPositive(a.stack[..|a.stack| - 1]);
    LayerCountPositive(b.stack[..|b.stack| - 1]);
    if a.Top().isLayer {
      assert EntrySame(a.stack[|a.stack| - 2], b.stack[|b.stack| - 2]);
      SameClosing(e, a, b);
    }
  }

  lemma SameClosing(e: Engine, a: Recorder, b: Recorder)
    requires |a.stack| > 1 && |b.stack| > 1 && |a.layers| > 1 && b.(stack := a.stack) == a
    requires a.Top().saveIndex == b.Top().saveIndex
    requires var s, t := a.stack[|a.stack| - 2], b.stack[|b.stack| - 2];
             s.global == t.global && s.local == t.local && s.validClip == t.validClip
    ensures var a', b' := CloseLayer(e, a), CloseLayer(e, b); b'.(stack := a'.stack) == a'
  {
    hide TransferBounds, ContentBounds;
    var top, n := a.Top(), |a.layers|;
    var content := if top.saveIndex < |a.records| then ContentBounds(a.records[top.saveIndex], a.Layer()) else EMPTY;
    SameTransfer(e, a.stack[|a.stack| - 2], b.stack[|b.stack| - 2], a.layers[n - 2], a.Layer(), a.rtree, content,
                 |a.records|);
  }

  lemma SameTransfer(e: Engine, s: Save, t: Save, outer: Layer, inner: Layer, rtree: Option<seq<Leaf>>,
                     content: Rect, id: nat)
    requires s.global == t.global && s.local == t.local && s.validClip == t.validClip
    ensures TransferBounds(e, s, outer, inner, rtree, content, id) ==
            TransferBounds(e, t, outer, inner, rtree, content, id)
  {
    hide AdjustDevice, AccumulateUnbounded, MapAndClip;
    if inner.filter.Some? {
      SameUnbounded(s, t, AdjustDevice(e, inner.filter.value, s.global, outer, inner, rtree).0, id);
    }
  }

  lemma SameUnbounded(s: Save, t: Save, k: Sink, id: nat)
    requires s.global == t.global && s.local == t.local && s.validClip == t.validClip
    ensures AccumulateUnbounded(s, k, id) == AccumulateUnbounded(t, k, id)
  {
  }

  // ---------- transforms and clips ----------

  // Pushing the deferred save record is what a save followed by another push does.
  lemma FlushedSame(e: Engine, a: Recorder, b: Recorder, c: Call)
    requires Same(a, b) && (c.TransformCall? || c.ClipCall?)
    ensures Run(e, b, Pending(a)).Sized() && |Run(e, b, Pending(a)).stack| > 0
    ensures Same(CheckDeferredSave(a), CheckDeferredSave(Run(e, b, Pending(a))))
    ensures !CheckDeferredSave(a).Top().deferred
    ensures Run(e, b, Pending(a) + [c]) == Step(e, Run(e, b, Pending(a)), c)
    ensures var b1 := Run(e, b, Pending(a)); EntryLike(a.Top(), b1.Top())
  {
    hide StackSame, Run, TransformStep, ClipStep, LayerCount, Push, CheckDeferredSave;
    TopEntry(a, b);
    RunShort(e, b, SaveCall, c);
    RunShort(e, b, c, c);
    assert [] + [c] == [c] && [SaveCall] + [c] == [SaveCall, c];
    if a.Top().deferred {
      DeferredFlush(a, b);
    } else {
      NothingDeferred(a);
      NothingDeferred(b);
    }
  }

  lemma NothingDeferred(st: Recorder)
    requires |st.stack| > 0 && !st.Top().deferred
    ensures CheckDeferredSave(st) == st
  {
  }

  lemma DeferredFlush(a: Recorder, b: Recorder)
    requires Same(a, b) && a.Top().deferred
    ensures |b.stack| > 0 && SaveStep(b).Sized()
    ensures Same(CheckDeferredSave(a), CheckDeferredSave(SaveStep(b)))
    ensures !CheckDeferredSave(a).Top().deferred && EntryLike(a.Top(), SaveStep(b).Top())
  {
    hide StackSame, LayerCount;
    TopEntry(a, b);
    LayerCountAppend(b.stack, DeferredEntry(b.Top()));
    var a1, b1 := CheckDeferredSave(a), CheckDeferredSave(SaveStep(b));
    FlushSame(a.stack, b.stack, a1.Top(), b1.Top());
    assert b1.stack == b.stack + [b1.Top()];
    SetTopSized(a, a1);
    SetTopSized(SaveStep(b), b1);
  }

  // The top entries agree on everything that a transform or a clip looks at.
  ghost predicate EntryLike(s: Save, t: Save) {
    && t.deferred == s.deferred
    && t.global.matrix == s.global.matrix && t.local.matrix == s.local.matrix
    && (!s.nop ==> !t.nop && t.global == s.global && t.local == s.local && t.validClip == s.validClip)
  }

  lemma SetTopSame(a: Recorder, b: Recorder, s: Save, t: Save)
    requires Same(a, b) && EntrySame(s, t) && !s.deferred && !a.Top().deferred
    requires s.isLayer == a.Top().isLayer && t.isLayer == b.Top().isLayer
    ensures Same(SetTop(a, s), SetTop(b, t))
  {
    hide StackSame, EntrySame;
    TopSame(a.stack, b.stack, s, t);
    SetTopSized(a, SetTop(a, s));
    SetTopSized(b, SetTop(b, t));
    TopEntry(a, b);
  }

  lemma PushRecordSame(a: Recorder, b: Recorder, r: Record)
    requires Same(a, b)
    ensures Same(Push(a, r), Push(b, r))
  {
    hide StackSame;
  }

  lemma TransformSame(e: Engine, a: Recorder, b: Recorder, t: Transform)
    requires Same(a, b) && |a.layers| > 0
    ensures StepSame(e, a, b, TransformCall(t))
  {
    hide StackSame;
    if !Trivial(Normal(t)) {
      RecordedTransformSame(e, a, b, t);
    }
  }

  lemma NormalTwice(t: Transform)
    ensures Normal(Normal(t)) == Normal(t)
  {
  }

  lemma RecordedTransformSame(e: Engine, a: Recorder, b: Recorder, t: Transform)
    requires Same(a, b) && |a.layers| > 0 && !Trivial(Normal(t))
    ensures StepSame(e, a, b, TransformCall(t))
  {
    hide StackSame, Run, CheckDeferredSave, LocalAfter, GlobalAfter, Normal, Push;
    var n := Normal(t);
    NormalTwice(t);
    FlushedSame(e, a, b, TransformCall(n));
    var a1, b1 := CheckDeferredSave(a), CheckDeferredSave(Run(e, b, Pending(a)));
    PushRecordSame(a1, b1, TransformRec(n));
    TopEntry(a1, b1);
    PushedStack(a1, TransformRec(n));
    PushedStack(b1, TransformRec(n));
    SetTopSame(Push(a1, TransformRec(n)), Push(b1, TransformRec(n)), Transformed(a1.Top(), n),
               Transformed(b1.Top(), n));
  }

  lemma PushedStack(st: Recorder, r: Record)
    ensures Push(st, r).stack == st.stack && Push(st, r).layers == st.layers
  {
  }

  lemma ClipSame(e: Engine, a: Recorder, b: Recorder, c: Call)
    requires Same(a, b) && |a.layers| > 0 && c.ClipCall?
    ensures StepSame(e, a, b, c)
  {
    hide StackSame, LayerCount, RedundantClip;
    RunShort(e, b, SaveCall, SaveCall);
    TopEntry(a, b);
    if RecordsClip(e, a, c.shape, c.op, c.aa) {
      RecordedClipSame(e, a, b, c);
    } else if !a.Top().nop && !RedundantClip(e, a.Top(), c.shape, c.op) {
      var s := Clipped(e, a.Top(), c.shape, c.op, c.aa).(nop := true);
      TopSame(a.stack, b.stack, s, b.Top());
      assert b.stack[|b.stack| - 1 := b.Top()] == b.stack;
      SetTopSized(a, SetTop(a, s));
    }
  }

  lemma RecordedClipSame(e: Engine, a: Recorder, b: Recorder, c: Call)
    requires Same(a, b) && |a.layers| > 0 && c.ClipCall? && RecordsClip(e, a, c.shape, c.op, c.aa)
    ensures StepSame(e, a, b, c)
  {
    hide StackSame, Run, CheckDeferredSave, Push, ClipStep;
    FlushedSame(e, a, b, c);
    var b0, r := Run(e, b, Pending(a)), ClipRec(c.shape, c.op, c.aa);
    assert RecordsClip(e, b0, c.shape, c.op, c.aa);
    ClipLast(e, a, c);
    ClipLast(e, b0, c);
    var a1, b1 := CheckDeferredSave(a), CheckDeferredSave(b0);
    PushRecordSame(a1, b1, r);
    TopEntry(a1, b1);
    PushedStack(a1, r);
    PushedStack(b1, r);
    SetTopSame(Push(a1, r), Push(b1, r), Clipped(e, a1.Top(), c.shape, c.op, c.aa).(validClip := true),
               Clipped(e, b1.Top(), c.shape, c.op, c.aa).(validClip := true));
  }

  // ---------- drawing ----------

  // The call floods the clip, has an effect, and yet is dropped: its layer has been marked
  // unbounded all the same, and no record tells of it.
  predicate LosesMark(e: Engine, st: Recorder, c: Call)
    requires |st.stack| > 0 && |st.layers| > 0
  {
    var unmarked := !st.Top().validClip;
    match c
    case DrawCall(d) =>
      unmarked && DrawsAnything(st, d) && Area(e, st.paint, d).None? && !RecordsDraw(e, st, d)
    case ListCall(l, o) =>
      unmarked && !SkipsList(l, o) && !st.Top().nop && l.rootUnbounded && !RecordsList(e, st, l, o)
    case _ => false
  }

  lemma {:induction false} EachDropped(s: Save, k: Sink, id: nat, rs: seq<Rect>)
    ensures !AccumulateEach(s, k, id, rs).1 ==> AccumulateEach(s, k, id, rs).0 == k
  {
    if rs != [] { EachDropped(s, k, id, rs[..|rs| - 1]); }
  }

  lemma {:induction false} SameEach(s: Save, t: Save, k: Sink, id: nat, rs: seq<Rect>)
    requires s.global == t.global && s.local == t.local
    ensures AccumulateEach(s, k, id, rs) == AccumulateEach(t, k, id, rs)
  {
    if rs != [] { SameEach(s, t, k, id, rs[..|rs| - 1]); }
  }

  lemma UnboundedDropped(s: Save, k: Sink, id: nat)
    requires !AccumulateUnbounded(s, k, id).1 && (s.validClip || k.layer.unbounded)
    ensures AccumulateUnbounded(s, k, id).0 == k
  {
  }

  lemma DrawSame(e: Engine, a: Recorder, b: Recorder, d: Op)
    requires Same(a, b) && |a.layers| > 0 && !LosesMark(e, a, DrawCall(d))
    ensures StepSame(e, a, b, DrawCall(d))
  {
    hide StackSame, PaintResult, Area, NoteDraw, AccumulateUnbounded, MapAndClip, AddBounds, LayerCount;
    TopEntry(a, b);
    RunShort(e, b, DrawCall(d), SaveCall);
    if DrawsAnything(a, d) {
      NotNop(a, EffectPaint(a.paint, d), d.flags);
      SameUnbounded(a.Top(), b.Top(), TopSink(a), |a.records|);
      if !RecordsDraw(e, a, d) {
        if Area(e, a.paint, d).None? { UnboundedDropped(a.Top(), TopSink(a), |a.records|); }
        DrainNothing(a);
      }
    }
  }

  lemma ListSame(e: Engine, a: Recorder, b: Recorder, l: DisplayList, o: real)
    requires Same(a, b) && |a.layers| > 0 && !LosesMark(e, a, ListCall(l, o))
    ensures StepSame(e, a, b, ListCall(l, o))
  {
    hide StackSame, NoteList, AccumulateUnbounded, AccumulateBounds, AccumulateEach, AccumulateList, LayerCount;
    TopEntry(a, b);
    RunShort(e, b, ListCall(l, Min(o, 1.0)), SaveCall);
    if !SkipsList(l, o) && !a.Top().nop {
      SameLists(e, a, b, l);
      if !RecordsList(e, a, l, o) {
        ListDropped(e, a, l, o);
        DrainNothing(a);
      }
    }
  }

  lemma SameLists(e: Engine, a: Recorder, b: Recorder, l: DisplayList)
    requires |a.stack| > 0 && |b.stack| > 0 && |a.layers| > 0 && b.(stack := a.stack) == a
    requires a.Top().global == b.Top().global && a.Top().local == b.Top().local
             && a.Top().validClip == b.Top().validClip
    ensures ListAccumulated(e, a, l) == ListAccumulated(e, b, l)
  {
    hide AccumulateUnbounded, AccumulateEach, MapAndClip, AddBounds;
    SameUnbounded(a.Top(), b.Top(), TopSink(a), |a.records|);
    if l.rtree.Some? {
      SameEach(a.Top(), b.Top(), TopSink(a), |a.records|, e.consolidate(l.rtree.value, LocalCoverage(a.Top().global)));
    }
  }

  lemma ListDropped(e: Engine, a: Recorder, l: DisplayList, o: real)
    requires |a.stack| > 0 && |a.layers| > 0 && !LosesMark(e, a, ListCall(l, o))
    requires !SkipsList(l, o) && !a.Top().nop && !RecordsList(e, a, l, o)
    ensures ListAccumulated(e, a, l).0 == TopSink(a)
  {
    hide AccumulateUnbounded, MapAndClip, AddBounds;
    if l.rootUnbounded {
      UnboundedDropped(a.Top(), TopSink(a), |a.records|);
    } else if l.rtree.Some? {
      EachDropped(a.Top(), TopSink(a), |a.records|, e.consolidate(l.rtree.value, LocalCoverage(a.Top().global)));
    }
  }

  // ---------- whole runs ----------

  ghost predicate Replayable(e: Engine, st: Recorder, c: Call)
    requires st.Sized() && |st.layers| > 0
  {
    (c.LayerCall? ==> !c.fromCaller) && !LosesMark(e, st, c)
  }

  ghost predicate ReplayableRun(e: Engine, st: Recorder, calls: seq<Call>)
    requires st.Sized()
  {
    calls == [] ||
    (var s := Run(e, st, calls[..|calls| - 1]);
     ReplayableRun(e, st, calls[..|calls| - 1]) && |s.layers| > 0 && Replayable(e, s, calls[|calls| - 1]))
  }

  lemma StepKeepsSame(e: Engine, a: Recorder, b: Recorder, c: Call)
    requires Same(a, b) && |a.layers| > 0 && Replayable(e, a, c)
    ensures StepSame(e, a, b, c)
  {
    hide Same, StepSame, LosesMark;
    match c {
      case AttrCall(attr) => AttrSame(e, a, b, attr);
      case SaveCall => SaveSame(e, a, b);
      case LayerCall(_, _, _, _) => LayerSame(e, a, b, c);
      case RestoreCall => RestoreSame(e, a, b);
      case TransformCall(t) => TransformSame(e, a, b, t);
      case ClipCall(_, _, _) => ClipSame(e, a, b, c);
      case DrawCall(d) => DrawSame(e, a, b, d);
      case ListCall(l, o) => ListSame(e, a, b, l, o);
    }
  }

  lemma SameSized(a: Recorder, b: Recorder)
    requires Same(a, b)
    ensures a.Sized() && b.Sized()
  {
  }

  lemma {:induction false} RunKeepsSame(e: Engine, start: Recorder, calls: seq<Call>)
    requires Same(start, start) && start.records == [] && ReplayableRun(e, start, calls)
    ensures var a := Run(e, start, calls); Same(a, Run(e, start, Skeleton(a.records)))
  {
    hide Same, Step, Replayable, Emits;
    assert start.Sized() by { SameSized(start, start); }
    if calls == [] {
      assert Skeleton([]) == [];
    } else {
      var front, c := calls[..|calls| - 1], calls[|calls| - 1];
      RunKeepsSame(e, start, front);
      var a := Run(e, start, front);
      StepKeepsSame(e, a, Run(e, start, Skeleton(a.records)), c);
      StepEmits(e, a, c);
      RunConcat(e, start, Skeleton(a.records), Emits(e, a, c));
    }
  }

  lemma {:induction false} FinishKeepsSame(e: Engine, a: Recorder, start: Recorder)
    requires start.Sized() && Same(a, Run(e, start, Skeleton(a.records)))
    ensures var f := Finish(e, a); Same(f, Run(e, start, Skeleton(f.records)))
    decreases |a.stack|
  {
    if |a.stack| > 1 {
      hide Same, Run, Skeleton, Emits, RestoreStep, LayerCount;
      assert a.Sized() by { SameSized(a, Run(e, start, Skeleton(a.records))); }
      LayerCountPositive(a.stack);
      RestoreSame(e, a, Run(e, start, Skeleton(a.records)));
      StepEmits(e, a, RestoreCall);
      RunConcat(e, start, Skeleton(a.records), Emits(e, a, RestoreCall));
      RestoreSized(e, a);
      FinishKeepsSame(e, RestoreStep(e, a), start);
    }
  }

  lemma StartSame(cull: Rect, prepareRTree: bool)
    ensures Same(Start(cull, prepareRTree), Start(cull, prepareRTree)) && Start(cull, prepareRTree).records == []
  {
    var stack := Start(cull, prepareRTree).stack;
    assert stack[..0] == [];
  }

  // Without caller bounds, what a record dispatches and what of it is settled act alike.
  ghost predicate NoCallerBounds(sk: seq<Call>) {
    forall i :: 0 <= i < |sk| && sk[i].LayerCall? ==> !sk[i].fromCaller
  }

  lemma {:induction false} DispatchActsSettled(e: Engine, st: Recorder, rs: seq<Record>, n: nat)
    requires st.Sized() && n <= |rs| && NoCallerBounds(Skeleton(rs))
    ensures Run(e, st, Dispatch(rs)[..n]) == Run(e, st, Skeleton(rs)[..n])
  {
    hide Step;
    if n > 0 {
      DispatchActsSettled(e, st, rs, n - 1);
      assert Dispatch(rs)[..n][..n - 1] == Dispatch(rs)[..n - 1] && Skeleton(rs)[..n][..n - 1] == Skeleton(rs)[..n - 1];
      var s := Run(e, st, Skeleton(rs)[..n - 1]);
      assert Skeleton(rs)[n - 1] == Settled(rs[n - 1]);
      SettledActs(e, s, rs[n - 1]);
    }
  }

  lemma SettledActs(e: Engine, st: Recorder, r: Record)
    requires st.Sized() && (r.LayerRec? ==> !r.options.fromCaller)
    ensures Step(e, st, Dispatched(r)) == Step(e, st, Settled(r))
  {
    hide LayerStep;
    if r.LayerRec? {
      LayerCountPositive(st.stack);
      LayerBoundsIgnored(e, st, r.bounds, r.options.withPaint, r.backdrop);
    }
  }

  lemma NoCallerBoundsAppend(x: seq<Call>, y: seq<Call>)
    requires NoCallerBounds(x) && NoCallerBounds(y)
    ensures NoCallerBounds(x + y)
  {
  }

  lemma EmitsNoCallerBounds(e: Engine, st: Recorder, c: Call)
    requires |st.stack| > 0 && |st.layers| > 0 && (c.LayerCall? ==> !c.fromCaller)
    ensures NoCallerBounds(Emits(e, st, c))
  {
    hide PaintResult, AccumulateArea, AccumulateList, Clipped;
  }

  lemma {:induction false} RunNoCallerBounds(e: Engine, start: Recorder, calls: seq<Call>)
    requires start.Sized() && start.records == [] && ReplayableRun(e, start, calls)
    ensures NoCallerBounds(Skeleton(Run(e, start, calls).records))
  {
    hide Step, Emits, LosesMark;
    if calls != [] {
      var front, c := calls[..|calls| - 1], calls[|calls| - 1];
      RunNoCallerBounds(e, start, front);
      var a := Run(e, start, front);
      StepEmits(e, a, c);
      EmitsNoCallerBounds(e, a, c);
      NoCallerBoundsAppend(Skeleton(a.records), Emits(e, a, c));
    }
  }

  lemma {:induction false} FinishNoCallerBounds(e: Engine, st: Recorder)
    requires st.Sized() && NoCallerBounds(Skeleton(st.records))
    ensures NoCallerBounds(Skeleton(Finish(e, st).records))
    decreases |st.stack|
  {
    hide RestoreStep;
    if |st.stack| > 1 {
      StepEmits(e, st, RestoreCall);
      NoCallerBoundsAppend(Skeleton(st.records), Emits(e, st, RestoreCall));
      RestoreSized(e, st);
      RestoreShrinks(e, st);
      FinishNoCallerBounds(e, RestoreStep(e, st));
    }
  }

  lemma FinishedSame(e: Engine, a: Recorder, b: Recorder)
    requires Same(a, b) && |a.stack| == 1
    ensures |a.layers| > 0 && |b.layers| > 0 && Finish(e, b) == b && Built(b) == Built(a)
  {
    TopEntry(a, b);
    SecondNonEmpty(a.stack, b.stack);
  }

  // A built list is a fixed point of dispatching it into a recorder with the same cull
  // rectangle: the same records with the same restore indices, depths and layer options, the
  // same counts and bounds, and the same rtree data.
  lemma RebuildingIsIdentity(e: Engine, cull: Rect, prepareRTree: bool, calls: seq<Call>)
    requires ReplayableRun(e, Start(cull, prepareRTree), calls)
    ensures var l := Build(e, cull, prepareRTree, calls); Build(e, cull, prepareRTree, Dispatch(l.records)) == l
  {
    hide Same, ReplayableRun, Run, Finish, Built, Skeleton, Dispatch;
    var start := Start(cull, prepareRTree);
    StartSame(cull, prepareRTree);
    RunKeepsSame(e, start, calls);
    var a := Run(e, start, calls);
    FinishKeepsSame(e, a, start);
    RunNoCallerBounds(e, start, calls);
    FinishNoCallerBounds(e, a);
    var f := Finish(e, a);
    WholeDispatch(e, start, f.records);
    FinishedSame(e, f, Run(e, start, Skeleton(f.records)));
    BuiltRecords(f);
  }

  lemma WholeDispatch(e: Engine, st: Recorder, rs: seq<Record>)
    requires st.Sized() && NoCallerBounds(Skeleton(rs))
    ensures Run(e, st, Dispatch(rs)) == Run(e, st, Skeleton(rs))
  {
    DispatchActsSettled(e, st, rs, |rs|);
    assert Dispatch(rs)[..|rs|] == Dispatch(rs) && Skeleton(rs)[..|rs|] == Skeleton(rs);
  }

  // ---------- the streams left out ----------

  // A layer under a matrix that has collapsed: what floods it draws nothing and is dropped, but
  // the layer has been marked unbounded.
  function Collapse(): seq<Call> { CollapseIn(EMPTY) }

  function CollapseIn(bounds: Rect): seq<Call> {
    [LayerCall(bounds, false, false, None), TransformCall(ScaleBy(0.0, 1.0))]
  }

  ghost predicate Collapsed(st: Recorder, marked: bool) {
    && st.Sized() && |st.stack| == 2 && |st.layers| == 2 && st.Top().isLayer && !st.Top().deferred && !st.Top().nop
    && !st.Top().validClip && st.Top().saveIndex == 0 && st.Top().global.matrix.x.scale == 0.0
    && |st.records| == 2 && st.records[0].LayerRec? && !st.records[0].options.fromCaller
    && Dispatch(st.records)[1] == TransformCall(ScaleBy(0.0, 1.0))
    && !st.records[0].options.withPaint && st.records[0].backdrop == None
    && st.paint == DefaultPaint(BLACK) && st.Layer().unbounded == marked
  }

  lemma CollapseRuns(e: Engine, cull: Rect, prepareRTree: bool, bounds: Rect)
    requires !cull.IsEmpty()
    ensures Collapsed(Run(e, Start(cull, prepareRTree), CollapseIn(bounds)), false)
  {
    hide LayerTracker, LayerCount;
    var start := Start(cull, prepareRTree);
    var c1, c2 := LayerCall(bounds, false, false, None), TransformCall(ScaleBy(0.0, 1.0));
    RunShort(e, start, c1, c2);
    StepSized(e, start, c1);
    StepSized(e, Step(e, start, c1), c2);
    OpenedLayer(e, start, bounds);
    CollapsedBy(Step(e, start, c1), start.Top().global.matrix);
  }

  lemma OpenedLayer(e: Engine, start: Recorder, bounds: Rect)
    requires start.Sized() && |start.stack| == 1 && |start.layers| == 1 && !start.Top().nop && start.records == []
    ensures var st := LayerStep(e, start, bounds, false, false, None);
            && st.Sized() && |st.stack| == 2 && |st.layers| == 2 && st.Top().isLayer && !st.Top().deferred
               && !st.Top().nop
            && !st.Top().validClip && st.Top().saveIndex == 0 && st.Top().global == start.Top().global
            && |st.records| == 1 && st.records[0].LayerRec? && !st.records[0].options.fromCaller
            && !st.records[0].options.withPaint && st.records[0].backdrop == None
            && st.paint == start.paint && !st.Layer().unbounded
  {
    hide LayerCount;
    LayerSized(e, start, bounds, false, false, None);
  }

  lemma CollapsedBy(st: Recorder, m: Matrix)
    requires st.Sized() && |st.stack| == 2 && |st.layers| == 2 && st.Top().isLayer && !st.Top().deferred
             && !st.Top().nop
    requires !st.Top().validClip && st.Top().saveIndex == 0 && st.Top().global.matrix == m
    requires |st.records| == 1 && st.records[0].LayerRec? && !st.records[0].options.fromCaller
    requires !st.records[0].options.withPaint && st.records[0].backdrop == None
    requires st.paint == DefaultPaint(BLACK) && !st.Layer().unbounded
    ensures Collapsed(TransformStep(st, ScaleBy(0.0, 1.0)), false)
  {
    hide LayerCount;
    TransformSized(st, ScaleBy(0.0, 1.0));
    assert m.x.scale * 0.0 == 0.0;
  }

  lemma FloodMarks(e: Engine, st: Recorder, d: Op)
    requires Collapsed(st, false) && DrawsAnything(st, d) && Area(e, st.paint, d).None?
    ensures Collapsed(DrawStep(e, st, d), true) && DrawStep(e, st, d).records == st.records
  {
    hide PaintResult, LayerCount, Area;
    assert LocalCoverage(st.Top().global) == EMPTY;
    assert MapAndClip(st.Top().local, EMPTY).IsEmpty();
    StepSized(e, st, DrawCall(d));
  }

  lemma ClosesMarked(e: Engine, st: Recorder, marked: bool)
    requires Collapsed(st, marked)
    ensures var f := RestoreStep(e, st);
            && f.Sized() && |f.stack| == 1 && |f.records| == 3 && f.records[0].LayerRec?
            && f.records[0].options.unbounded == marked
               && Dispatched(f.records[0]) == LayerCall(f.records[0].bounds, false, false, None)
            && f.records[1] == st.records[1] && f.records[2] == RestoreRec
  {
    hide CloseLayer, LayerCount, ContentBounds;
    RestoreSized(e, st);
  }

  lemma BuiltWithMark(e: Engine, cull: Rect, prepareRTree: bool, d: Op)
    requires !cull.IsEmpty()
    requires PaintResult(false, EffectPaint(DefaultPaint(BLACK), d), d.flags) != NoEffect
    requires Area(e, DefaultPaint(BLACK), d).None?
    ensures var l := Build(e, cull, prepareRTree, Collapse() + [DrawCall(d)]);
            && |l.records| == 3 && l.records[0].LayerRec? && l.records[0].options.unbounded
            && Dispatch(l.records) == CollapseIn(l.records[0].bounds) + [RestoreCall]
  {
    hide Collapsed, Run, Start, PaintResult, Built, Finish, RestoreStep, DrawStep;
    var start := Start(cull, prepareRTree);
    CollapseRuns(e, cull, prepareRTree, EMPTY);
    var st := Run(e, start, Collapse());
    CollapsedFacts(st, false);
    RunConcat(e, start, Collapse(), [DrawCall(d)]);
    RunShort(e, st, DrawCall(d), DrawCall(d));
    FloodMarks(e, st, d);
    var marked := DrawStep(e, st, d);
    ClosesMarked(e, marked, true);
    CollapsedFacts(marked, true);
    FinishTwo(e, marked);
    BuiltFrom(e, cull, prepareRTree, Collapse() + [DrawCall(d)], RestoreStep(e, marked));
  }

  lemma BuiltWithoutMark(e: Engine, cull: Rect, prepareRTree: bool, bounds: Rect)
    requires !cull.IsEmpty()
    ensures var l := Build(e, cull, prepareRTree, CollapseIn(bounds) + [RestoreCall]);
            |l.records| == 3 && l.records[0].LayerRec? && !l.records[0].options.unbounded
  {
    hide Collapsed, Run, Start, Built, Finish, RestoreStep;
    var start := Start(cull, prepareRTree);
    CollapseRuns(e, cull, prepareRTree, bounds);
    var st := Run(e, start, CollapseIn(bounds));
    RunConcat(e, start, CollapseIn(bounds), [RestoreCall]);
    CollapsedFacts(st, false);
    RunShort(e, st, RestoreCall, RestoreCall);
    ClosesMarked(e, st, false);
    FinishDone(e, RestoreStep(e, st));
    BuiltFrom(e, cull, prepareRTree, CollapseIn(bounds) + [RestoreCall], RestoreStep(e, st));
  }

  // Rebuilding such a list gives a layer without the mark, so the list is not a fixed point.
  lemma LostMarksAreNotRebuilt(e: Engine, cull: Rect, prepareRTree: bool, d: Op)
    requires !cull.IsEmpty()
    requires PaintResult(false, EffectPaint(DefaultPaint(BLACK), d), d.flags) != NoEffect
    requires Area(e, DefaultPaint(BLACK), d).None?
    ensures var l := Build(e, cull, prepareRTree, Collapse() + [DrawCall(d)]);
            Build(e, cull, prepareRTree, Dispatch(l.records)) != l
  {
    hide Build, Dispatch, PaintResult;
    BuiltWithMark(e, cull, prepareRTree, d);
    BuiltWithoutMark(e, cull, prepareRTree, Build(e, cull, prepareRTree, Collapse() + [DrawCall(d)]).records[0].bounds);
  }

  lemma CollapsedFacts(st: Recorder, marked: bool)
    requires Collapsed(st, marked)
    ensures st.Sized() && |st.stack| == |st.layers| == 2 && st.paint == DefaultPaint(BLACK) && !st.Top().nop
    ensures |st.records| == 2 && Dispatched(st.records[1]) == TransformCall(ScaleBy(0.0, 1.0))
  {
  }

  lemma FinishTwo(e: Engine, st: Recorder)
    requires st.Sized() && |st.stack| == 2
    ensures RestoreStep(e, st).Sized() && Finish(e, st) == Finish(e, RestoreStep(e, st))
  {
    hide RestoreStep;
    RestoreSized(e, st);
  }

  lemma BuiltFrom(e: Engine, cull: Rect, prepareRTree: bool, calls: seq<Call>, f: Recorder)
    requires f.Sized() && |f.stack| == 1 && Finish(e, Run(e, Start(cull, prepareRTree), calls)) == Finish(e, f)
    ensures Build(e, cull, prepareRTree, calls).records == f.records
  {
    hide Run, Start;
    FinishDone(e, f);
  }
}
