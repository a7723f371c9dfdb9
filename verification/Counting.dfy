/** Operation counts of nested display lists: the counters kept while recording agree with
    the number of operations that inlining every nested list would give. */
module Counting {
  import opened Geometry
  import opened Painting
  import opened DisplayLists
  import opened Recorder
  import opened Emission

  // The counted records of a list, nested lists not looked into.
  function Counted(sk: seq<Call>): nat {
    if sk == [] then 0 else Counted(sk[..|sk| - 1]) + if sk[|sk| - 1].AttrCall? then 0 else 1
  }

  // What the nested lists add to that, each standing for its own call.
  function Extra(sk: seq<Call>): int {
    if sk == [] then 0
    else
      var c := sk[|sk| - 1];
      Extra(sk[..|sk| - 1]) + if c.ListCall? then c.list.OpCount(true) - 1 else 0
  }

  // The counted records after every nested list has been replaced by its own records, all the way
  // down: those of the first n records of the list.
  function InlinedTo(l: DisplayList, n: nat): nat
    requires n <= |l.records|
    decreases l, n
  {
    if n == 0 then 0
    else
      var r := l.records[n - 1];
      InlinedTo(l, n - 1) + if r.ListRec? then InlinedTo(r.list, |r.list.records|) else r.CountInc()
  }

  function Inlined(l: DisplayList): nat { InlinedTo(l, |l.records|) }

  ghost predicate WellCounted(l: DisplayList) {
    && l.opCount == Counted(Skeleton(l.records))
    && l.nestedCount == Extra(Skeleton(l.records))
    && forall i :: 0 <= i < |l.records| && l.records[i].ListRec? ==>
         l.records[i].list.opCount > 0 && WellCounted(l.records[i].list)
  }

  ghost predicate GoodLists(sk: seq<Call>) {
    forall i :: 0 <= i < |sk| && sk[i].ListCall? ==> sk[i].list.opCount > 0 && WellCounted(sk[i].list)
  }

  lemma CountedAppend(a: seq<Call>, c: Call)
    ensures Counted(a + [c]) == Counted(a) + if c.AttrCall? then 0 else 1
    ensures Extra(a + [c]) == Extra(a) + if c.ListCall? then c.list.OpCount(true) - 1 else 0
    ensures GoodLists(a) && (c.ListCall? ==> c.list.opCount > 0 && WellCounted(c.list)) ==> GoodLists(a + [c])
  {
    assert (a + [c])[..|a|] == a;
  }

  // ---------- a count taken with its nested lists ----------

  lemma {:induction false} NestedCount(l: DisplayList)
    requires WellCounted(l)
    ensures l.OpCount(true) == Inlined(l)
    decreases l, 1, 0
  {
    InlinedPrefix(l, |l.records|);
    assert l.records[..|l.records|] == l.records;
  }

  // And without them.
  lemma OwnCount(l: DisplayList)
    requires WellCounted(l)
    ensures l.OpCount(false) == Counted(Skeleton(l.records))
  {
  }

  lemma {:induction false} InlinedPrefix(l: DisplayList, n: nat)
    requires n <= |l.records| && WellCounted(l)
    ensures Counted(Skeleton(l.records[..n])) + Extra(Skeleton(l.records[..n])) == InlinedTo(l, n)
    decreases l, 0, n
  {
    if n > 0 {
      var front, r := l.records[..n - 1], l.records[n - 1];
      InlinedPrefix(l, n - 1);
      assert l.records[..n] == front + [r];
      SkeletonAppend(front, r);
      CountedAppend(Skeleton(front), Settled(r));
      if r.ListRec? {
        NestedCount(r.list);
      }
    }
  }

  // The counter of nested operations never falls: what each nested list adds is not negative.
  lemma {:induction false} ExtraNotNegative(sk: seq<Call>)
    requires GoodLists(sk)
    ensures Extra(sk) >= 0
  {
    if sk != [] { ExtraNotNegative(sk[..|sk| - 1]); }
  }

  // ---------- every step keeps the counters right ----------

  ghost predicate Right(st: Recorder) {
    && st.Sized()
    && st.count == Counted(Skeleton(st.records))
    && st.nested == Extra(Skeleton(st.records))
    && GoodLists(Skeleton(st.records))
  }

  ghost predicate GoodCall(c: Call) { c.ListCall? ==> WellCounted(c.list) }

  lemma PushRight(sk: seq<Call>, count: nat, nested: int, r: Record)
    requires count == Counted(sk) && nested == Extra(sk) && GoodLists(sk)
    requires r.ListRec? ==> r.list.opCount > 0 && WellCounted(r.list)
    ensures count + r.CountInc() == Counted(sk + [Settled(r)])
    ensures nested + (if r.ListRec? then r.list.OpCount(true) - 1 else 0) == Extra(sk + [Settled(r)])
    ensures GoodLists(sk + [Settled(r)])
  {
    CountedAppend(sk, Settled(r));
  }

  lemma DeferredRight(st: Recorder)
    requires |st.stack| > 0 && st.count == Counted(Skeleton(st.records)) && st.nested == Extra(Skeleton(st.records))
    requires GoodLists(Skeleton(st.records))
    ensures var st' := CheckDeferredSave(st);
            && st'.count == Counted(Skeleton(st'.records)) && st'.nested == Extra(Skeleton(st'.records))
            && GoodLists(Skeleton(st'.records))
  {
    if st.Top().deferred {
      SkeletonAppend(st.records, SaveRec(0, 0));
      PushRight(Skeleton(st.records), st.count, st.nested, SaveRec(0, 0));
    }
  }

  lemma SimpleRight(e: Engine, st: Recorder, c: Call)
    requires Right(st) && GoodCall(c)
    requires c.AttrCall? || c.SaveCall? || c.LayerCall? || c.DrawCall? || c.ListCall?
    ensures Right(Step(e, st, c))
  {
    hide WellCounted, PaintResult, AccumulateArea, AccumulateList, OuterSink, LayerTracker, NoteDraw, NoteList;
    hide LayerCount, Skeleton, Deeper, Counted, Extra, GoodLists;
    StepSized(e, st, c);
    LayerCountPositive(st.stack);
    var st' := Step(e, st, c);
    if |st'.records| > |st.records| {
      var r := st'.records[|st.records|];
      assert st'.records == st.records + [r];
      SkeletonAppend(st.records, r);
      PushRight(Skeleton(st.records), st.count, st.nested, r);
    }
  }

  lemma RestoreRight(e: Engine, st: Recorder)
    requires Right(st)
    ensures Right(RestoreStep(e, st))
  {
    hide WellCounted, CloseLayer, Patched;
    RestoreSized(e, st);
    if |st.stack| > 1 && !(st.Top().deferred && !st.Top().isLayer) {
      RestoreEmits(e, st);
      LayerCountPositive(st.stack[..|st.stack| - 1]);
      if st.Top().isLayer { CloseCounts(e, st); }
      PushRight(Skeleton(st.records), st.count, st.nested, RestoreRec);
    }
  }

  lemma TransformRight(st: Recorder, t: Transform)
    requires Right(st)
    ensures Right(TransformStep(st, t))
  {
    hide WellCounted, LocalAfter, GlobalAfter;
    SetTopSized(st, TransformStep(st, t));
    if !Trivial(Normal(t)) {
      DeferredRight(st);
      var st1 := CheckDeferredSave(st);
      SkeletonAppend(st1.records, TransformRec(Normal(t)));
      PushRight(Skeleton(st1.records), st1.count, st1.nested, TransformRec(Normal(t)));
    }
  }

  lemma ClipRight(e: Engine, st: Recorder, s: Shape, op: ClipOp, aa: bool)
    requires Right(st)
    ensures Right(ClipStep(e, st, s, op, aa))
  {
    hide WellCounted, RedundantClip, Clipped, LayerCount, Counted, Extra, GoodLists, Skeleton;
    ClipSized(e, st, s, op, aa);
    if RecordsClip(e, st, s, op, aa) {
      var st0 := SetTop(st, Clipped(e, st.Top(), s, op, aa).(validClip := true));
      DeferredRight(st0);
      var st1 := CheckDeferredSave(st0);
      SkeletonAppend(st1.records, ClipRec(s, op, aa));
      PushRight(Skeleton(st1.records), st1.count, st1.nested, ClipRec(s, op, aa));
    }
  }

  lemma CloseCounts(e: Engine, st: Recorder)
    requires |st.stack| > 1 && |st.layers| > 1
    ensures CloseLayer(e, st).count == st.count && CloseLayer(e, st).nested == st.nested
  {
  }

  lemma StepRight(e: Engine, st: Recorder, c: Call)
    requires Right(st) && GoodCall(c)
    ensures Right(Step(e, st, c))
  {
    hide Right, RestoreStep, TransformStep, ClipStep;
    assert st.Sized() by { RightSized(st); }
    match c {
      case RestoreCall => RestoreRight(e, st);
      case TransformCall(t) => TransformRight(st, t);
      case ClipCall(s, op, aa) => ClipRight(e, st, s, op, aa);
      case _ => SimpleRight(e, st, c);
    }
  }

  lemma RightSized(st: Recorder)
    requires Right(st)
    ensures st.Sized()
  {
  }

  lemma {:induction false} RunRight(e: Engine, st: Recorder, calls: seq<Call>)
    requires Right(st) && forall i :: 0 <= i < |calls| ==> GoodCall(calls[i])
    ensures Right(Run(e, st, calls))
  {
    if calls != [] {
      var front := calls[..|calls| - 1];
      RunRight(e, st, front);
      StepRight(e, Run(e, st, front), calls[|calls| - 1]);
    }
  }

  lemma {:induction false} FinishRight(e: Engine, st: Recorder)
    requires Right(st)
    ensures Right(Finish(e, st))
    decreases |st.stack|
  {
    if |st.stack| > 1 {
      StepRight(e, st, RestoreCall);
      FinishRight(e, RestoreStep(e, st));
    }
  }

  // A list built from calls whose nested lists are well counted is itself well counted, so
  // that its nested operation count is the number of operations after inlining everything.
  lemma BuiltListsAreWellCounted(e: Engine, cull: Rect, prepareRTree: bool, calls: seq<Call>)
    requires forall i :: 0 <= i < |calls| ==> GoodCall(calls[i])
    ensures var l := Build(e, cull, prepareRTree, calls); WellCounted(l) && l.OpCount(true) == Inlined(l)
  {
    hide Start, Run, Finish, Right, WellCounted, GoodCall;
    var start := Start(cull, prepareRTree);
    assert Right(start) by { StartRight(cull, prepareRTree); }
    RunRight(e, start, calls);
    var f := Finish(e, Run(e, start, calls));
    FinishRight(e, Run(e, start, calls));
    LayerCountPositive(f.stack);
    RightIsWellCounted(f);
    NestedCount(Built(f));
  }

  lemma StartRight(cull: Rect, prepareRTree: bool)
    ensures Right(Start(cull, prepareRTree))
  {
  }

  lemma RightIsWellCounted(f: Recorder)
    requires Right(f) && |f.layers| > 0
    ensures WellCounted(Built(f))
  {
    var l := Built(f);
    forall i | 0 <= i < |l.records| && l.records[i].ListRec?
      ensures l.records[i].list.opCount > 0 && WellCounted(l.records[i].list)
    {
      assert Skeleton(l.records)[i] == Settled(l.records[i]);
    }
  }
}
