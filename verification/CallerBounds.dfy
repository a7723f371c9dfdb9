/** The bounds that callers give for layers: each is remembered in the layer's record until the layer is
    restored, and then clips the bounds of the content, if it has to. */
module CallerBounds {
  import opened Geometry
  import opened Painting
  import opened DisplayLists
  import opened Recorder
  import opened Emission
  import opened LayerSummaries

  // The bounds that were given for each saved state.
  function GivenStep(given: seq<Option<Rect>>, c: Call): seq<Option<Rect>> {
    match c
    case SaveCall => given + [None]
    case LayerCall(b, _, fromCaller, _) => given + [if fromCaller then Some(b) else None]
    case RestoreCall => if |given| <= 1 then given else given[..|given| - 1]
    case _ => given
  }

  function Given(calls: seq<Call>): (given: seq<Option<Rect>>)
    ensures given != []
  {
    if calls == [] then [None] else GivenStep(Given(calls[..|calls| - 1]), calls[|calls| - 1])
  }

  // The record of an open layer.
  predicate Opened(rs: seq<Record>, i: nat, given: Option<Rect>) {
    && i < |rs| && rs[i].LayerRec? && !rs[i].options.clipped && rs[i].options.fromCaller == given.Some?
    && rs[i].bounds == if given.Some? then given.value else EMPTY
  }

  // Later entries have later records.
  ghost predicate InOrder(stack: seq<Save>, n: nat) {
    && (forall i :: 0 < i < |stack| && !stack[i].deferred ==> stack[i].saveIndex < n)
    && (forall i, j :: 0 < i < j < |stack| && !stack[i].deferred && !stack[j].deferred ==>
          stack[i].saveIndex < stack[j].saveIndex)
    && (forall i :: 0 < i < |stack| && stack[i].isLayer ==> !stack[i].deferred)
  }

  ghost predicate Remembers(st: Recorder, given: seq<Option<Rect>>) {
    && st.Sized() && |given| == |st.stack| && InOrder(st.stack, |st.records|)
    && forall i :: 0 < i < |st.stack| && st.stack[i].isLayer ==> Opened(st.records, st.stack[i].saveIndex, given[i])
  }

  // Records are only added, and the stack keeps its entries, but for a save that is no longer deferred.
  lemma AddsRemember(st: Recorder, given: seq<Option<Rect>>, st': Recorder)
    requires Remembers(st, given) && st'.Sized() && st.records <= st'.records
    requires |st'.stack| == |st.stack|
    requires st'.stack == st.stack[|st.stack| - 1 := st'.Top()] && st'.Top().isLayer == st.Top().isLayer
    requires st'.Top().deferred == st.Top().deferred && st'.Top().saveIndex == st.Top().saveIndex
    ensures Remembers(st', given)
  {
  }

  lemma FlushRemembers(st: Recorder, given: seq<Option<Rect>>)
    requires Remembers(st, given)
    ensures Remembers(CheckDeferredSave(st), given)
  {
    if st.Top().deferred { SetTopSized(st, CheckDeferredSave(st)); }
  }

  lemma PushRemembers(st: Recorder, given: seq<Option<Rect>>, st': Recorder, g: Option<Rect>)
    requires Remembers(st, given) && st'.Sized() && st.records <= st'.records
    requires |st'.stack| == |st.stack| + 1 && st'.stack == st.stack + [st'.Top()]
    requires st'.Top().deferred ==> !st'.Top().isLayer
    requires !st'.Top().deferred ==> st'.Top().saveIndex == |st.records| < |st'.records|
    requires st'.Top().isLayer ==> Opened(st'.records, |st.records|, g)
    ensures Remembers(st', given + [g])
  {
  }

  lemma LayerRemembers(e: Engine, st: Recorder, given: seq<Option<Rect>>, c: Call)
    requires Remembers(st, given) && c.LayerCall?
    ensures Remembers(Step(e, st, c), GivenStep(given, c))
  {
    hide PaintResult, OuterSink, LayerTracker, InOrder, LayerCount, Deeper;
    LayerCountPositive(st.stack);
    StepSized(e, st, c);
    PushRemembers(st, given, Step(e, st, c), if c.fromCaller then Some(c.bounds) else None);
  }

  lemma RestoreRemembers(e: Engine, st: Recorder, given: seq<Option<Rect>>)
    requires Remembers(st, given)
    ensures Remembers(RestoreStep(e, st), GivenStep(given, RestoreCall))
  {
    hide CloseLayer, Patched, LayerCount;
    RestoreSized(e, st);
    RestorePaint(e, st);
    if |st.stack| > 1 {
      var st', top := RestoreStep(e, st), st.Top();
      forall i | 0 < i < |st'.stack| && st'.stack[i].isLayer
        ensures Opened(st'.records, st'.stack[i].saveIndex, given[i])
      {
        assert Opened(st.records, st.stack[i].saveIndex, given[i]);
      }
    } else {
      RestoreNothing(e, st);
    }
  }

  lemma TransformRemembers(st: Recorder, given: seq<Option<Rect>>, t: Transform)
    requires Remembers(st, given)
    ensures Remembers(TransformStep(st, t), given)
  {
    hide Remembers, LocalAfter, GlobalAfter;
    RemembersSized(st, given);
    if !Trivial(Normal(t)) {
      FlushRemembers(st, given);
      RemembersSized(CheckDeferredSave(st), given);
      TransformSized(st, t);
      AddsRemember(CheckDeferredSave(st), given, TransformStep(st, t));
    }
  }

  lemma RemembersSized(st: Recorder, given: seq<Option<Rect>>)
    requires Remembers(st, given)
    ensures st.Sized()
  {
  }

  lemma ClipRemembers(e: Engine, st: Recorder, given: seq<Option<Rect>>, c: Call)
    requires Remembers(st, given) && c.ClipCall?
    ensures Remembers(Step(e, st, c), given)
  {
    hide Remembers, RedundantClip, Clipped, Deeper, LayerCount;
    RemembersSized(st, given);
    StepSized(e, st, c);
    var st', clipped := Step(e, st, c), Clipped(e, st.Top(), c.shape, c.op, c.aa);
    SameTop(e, st.Top(), c);
    if !st.Top().nop && !RedundantClip(e, st.Top(), c.shape, c.op) {
      if clipped.global.cull.IsEmpty() || clipped.local.cull.IsEmpty() {
        AddsRemember(st, given, st');
      } else {
        var st1 := SetTop(st, clipped.(validClip := true));
        SetTopSized(st, st1);
        AddsRemember(st, given, st1);
        FlushRemembers(st1, given);
        RemembersSized(CheckDeferredSave(st1), given);
        AddsRemember(CheckDeferredSave(st1), given, st');
      }
    }
  }

  lemma SameTop(e: Engine, s: Save, c: Call)
    requires c.ClipCall?
    ensures var t := Clipped(e, s, c.shape, c.op, c.aa);
            t.isLayer == s.isLayer && t.deferred == s.deferred && t.saveIndex == s.saveIndex
  {
  }

  lemma StepRemembers(e: Engine, st: Recorder, given: seq<Option<Rect>>, c: Call)
    requires Remembers(st, given)
    ensures Remembers(Step(e, st, c), GivenStep(given, c))
  {
    StepSized(e, st, c);
    match c {
      case SaveCall => PushRemembers(st, given, Step(e, st, c), None);
      case LayerCall(_, _, _, _) => LayerRemembers(e, st, given, c);
      case RestoreCall => RestoreRemembers(e, st, given);
      case TransformCall(t) => TransformRemembers(st, given, t);
      case ClipCall(_, _, _) => ClipRemembers(e, st, given, c);
      case _ =>
        hide DrawStep, ListStep, InOrder;
        DrawsKeepStack(e, st, c);
        DrawsAdd(e, st, c);
        AddsRemember(st, given, Step(e, st, c));
    }
  }

  lemma DrawsAdd(e: Engine, st: Recorder, c: Call)
    requires st.Sized() && (c.AttrCall? || c.DrawCall? || c.ListCall?)
    ensures st.records <= Step(e, st, c).records
  {
    hide PaintResult, AccumulateArea, AccumulateList, NoteDraw, NoteList, SkipsList, LayerCount, Deeper;
    LayerCountPositive(st.stack);
  }

  lemma {:induction false} RunRemembers(e: Engine, cull: Rect, prepareRTree: bool, calls: seq<Call>)
    ensures Remembers(Run(e, Start(cull, prepareRTree), calls), Given(calls))
  {
    hide Step, GivenStep;
    if calls != [] {
      var n := |calls| - 1;
      RunRemembers(e, cull, prepareRTree, calls[..n]);
      StepRemembers(e, Run(e, Start(cull, prepareRTree), calls[..n]), Given(calls[..n]), calls[n]);
    }
  }

  // In every run the record of a layer that is restored gets the bounds of its content, within the bounds
  // that the caller gave for it, and is dispatched with them; it is marked as clipped exactly if these do not
  // hold all of the content.
  lemma LayerBoundsAreExact(e: Engine, cull: Rect, prepareRTree: bool, calls: seq<Call>)
    requires var st := Run(e, Start(cull, prepareRTree), calls); |st.stack| > 1 && st.Top().isLayer
    ensures var st, given := Run(e, Start(cull, prepareRTree), calls), Given(calls)[|Given(calls)| - 1];
            var box := Box(TopContent(e, cull, prepareRTree, calls).bounds);
            && st.Top().saveIndex < |RestoreStep(e, st).records|
            && var r := RestoreStep(e, st).records[st.Top().saveIndex];
               && r.LayerRec?
               && (r.options.clipped <==> given.Some? && !box.IsEmpty() && !Contains(given.value, box))
               && r.bounds == (if r.options.clipped then Intersection(box, given.value) else box)
               && Dispatched(r).LayerCall? && Dispatched(r).bounds == r.bounds
  {
    hide Run, CloseLayer, Contents.ContentsOf, ReadAll, Box, Given;
    var st := Run(e, Start(cull, prepareRTree), calls);
    RunRemembers(e, cull, prepareRTree, calls);
    ReachedKnown(e, cull, prepareRTree, calls);
    LayerCountPositive(st.stack[..|st.stack| - 1]);
    assert Opened(st.records, st.Top().saveIndex, Given(calls)[|st.stack| - 1]);
  }
}
