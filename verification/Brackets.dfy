/** The back-patched fields of the save records: restore indices pair up the brackets of a
    built list, and depths agree with an independent fold over the records. */
module Brackets {
  import opened Geometry
  import opened Painting
  import opened DisplayLists
  import opened Recorder
  import opened Emission

  // ---------- reference definitions over the records ----------

  predicate Opens(c: Call) { c.SaveCall? || c.LayerCall? }

  // The number of brackets that are open after the first n records.
  function Height(sk: seq<Call>, n: nat): int
    requires n <= |sk|
  {
    if n == 0 then 0
    else Height(sk, n - 1) + (if Opens(sk[n - 1]) then 1 else if sk[n - 1].RestoreCall? then -1 else 0)
  }

  // Record j is the restore that closes the save at record i.
  ghost predicate Matches(sk: seq<Call>, i: nat, j: nat) {
    && i < j < |sk| && Opens(sk[i]) && sk[j].RestoreCall?
    && Height(sk, j) == Height(sk, i) + 1
    && forall k :: i < k <= j ==> Height(sk, k) > Height(sk, i)
  }

  // The depth so far, the cost of one rendering operation, and which open brackets are layers.
  datatype Tally = Tally(depth: nat, cost: nat, open: seq<bool>)

  function Add(t: Tally, c: Call): Tally {
    match c
    case AttrCall(a) =>
      if a.MaskFilterAttr? then t.(cost := if a.maskFilter.Some? then 2 else 1) else t
    case SaveCall => t.(open := t.open + [false])
    case LayerCall(_, _, _, _) => t.(open := t.open + [true])
    case RestoreCall =>
      if t.open == [] then t
      else t.(open := t.open[..|t.open| - 1],
              depth := t.depth + if t.open[|t.open| - 1] then t.cost else 0)
    case DrawCall(d) => t.(depth := t.depth + d.depthCost * t.cost)
    case ListCall(l, _) => t.(depth := t.depth + t.cost + l.totalDepth)
    case _ => t
  }

  // The fold over the first n records: one extra cost per closed layer, a doubled cost under
  // a mask filter, and the whole depth of every nested list.
  function TallyAt(sk: seq<Call>, n: nat): Tally
    requires n <= |sk|
  {
    if n == 0 then Tally(0, 1, []) else Add(TallyAt(sk, n - 1), sk[n - 1])
  }

  function RestoreIndex(r: Record): nat
    requires r.IsSave()
  {
    r.restoreIndex
  }

  function ContentDepth(r: Record): nat
    requires r.IsSave()
  {
    r.contentDepth
  }

  ghost predicate ClosedRight(rs: seq<Record>, sk: seq<Call>, i: nat)
    requires |sk| == |rs| && i < |rs| && rs[i].IsSave()
  {
    var j := RestoreIndex(rs[i]);
    && Matches(sk, i, j)
    && ContentDepth(rs[i]) == TallyAt(sk, j).depth - TallyAt(sk, i).depth
  }

  // ---------- prefixes ----------

  lemma {:induction false} PrefixesKept(sk: seq<Call>, c: Call, n: nat)
    requires n <= |sk|
    ensures Height(sk + [c], n) == Height(sk, n)
    ensures TallyAt(sk + [c], n) == TallyAt(sk, n)
  {
    if n > 0 { PrefixesKept(sk, c, n - 1); }
  }

  lemma AllPrefixesKept(sk: seq<Call>, c: Call)
    ensures forall n :: 0 <= n <= |sk| ==> Height(sk + [c], n) == Height(sk, n)
    ensures forall n :: 0 <= n <= |sk| ==> TallyAt(sk + [c], n) == TallyAt(sk, n)
  {
    forall n | 0 <= n <= |sk|
      ensures Height(sk + [c], n) == Height(sk, n) && TallyAt(sk + [c], n) == TallyAt(sk, n)
    {
      PrefixesKept(sk, c, n);
    }
  }

  lemma {:induction false} DepthGrows(sk: seq<Call>, i: nat, j: nat)
    requires i <= j <= |sk|
    ensures TallyAt(sk, i).depth <= TallyAt(sk, j).depth
    decreases j
  {
    hide Add;
    if i < j {
      DepthGrows(sk, i, j - 1);
      AddGrows(TallyAt(sk, j - 1), sk[j - 1]);
    }
  }

  lemma AddGrows(t: Tally, c: Call)
    ensures t.depth <= Add(t, c).depth
  {
    if c.DrawCall? { assert c.draw.depthCost * t.cost >= 0; }
  }

  lemma MatchKept(sk: seq<Call>, c: Call, i: nat, j: nat)
    requires Matches(sk, i, j)
    ensures Matches(sk + [c], i, j)
  {
    AllPrefixesKept(sk, c);
  }

  lemma ClosedKept(rs: seq<Record>, sk: seq<Call>, r: Record, c: Call, i: nat)
    requires |sk| == |rs| && i < |rs| && rs[i].IsSave() && ClosedRight(rs, sk, i)
    ensures ClosedRight(rs + [r], sk + [c], i)
  {
    MatchKept(sk, c, i, RestoreIndex(rs[i]));
    AllPrefixesKept(sk, c);
  }

  // ---------- the open brackets of the save stack ----------

  // An entry whose save record has been pushed.
  datatype Mark = Mark(isLayer: bool, saveIndex: nat, saveDepth: nat)

  function MarkOf(s: Save): Mark { Mark(s.isLayer, s.saveIndex, s.saveDepth) }

  function Marks(stack: seq<Save>): seq<Mark> {
    if |stack| <= 1 then []
    else
      var last := stack[|stack| - 1];
      Marks(stack[..|stack| - 1]) + if last.deferred then [] else [MarkOf(last)]
  }

  function Kinds(marks: seq<Mark>): seq<bool> {
    seq(|marks|, i requires 0 <= i < |marks| => marks[i].isLayer)
  }

  ghost predicate OpenAt(sk: seq<Call>, m: Mark, level: nat) {
    && m.saveIndex < |sk| && Opens(sk[m.saveIndex]) && (m.isLayer <==> sk[m.saveIndex].LayerCall?)
    && Height(sk, m.saveIndex) == level
    && (forall k :: m.saveIndex < k <= |sk| ==> Height(sk, k) > level)
    && m.saveDepth == TallyAt(sk, m.saveIndex).depth
  }

  predicate IsOpen(marks: seq<Mark>, i: nat) { exists m :: 0 <= m < |marks| && marks[m].saveIndex == i }

  ghost predicate Levels(sk: seq<Call>, marks: seq<Mark>) {
    && Height(sk, |sk|) == |marks|
    && TallyAt(sk, |sk|).open == Kinds(marks)
    && forall k :: 0 <= k <= |sk| ==> Height(sk, k) >= 0
  }

  ghost predicate AllOpen(sk: seq<Call>, marks: seq<Mark>) {
    forall m :: 0 <= m < |marks| ==> OpenAt(sk, marks[m], m)
  }

  ghost predicate AllClosed(rs: seq<Record>, sk: seq<Call>, marks: seq<Mark>)
    requires |sk| == |rs|
  {
    forall i :: 0 <= i < |rs| && rs[i].IsSave() && !IsOpen(marks, i) ==> ClosedRight(rs, sk, i)
  }

  ghost predicate Bracketed(rs: seq<Record>, marks: seq<Mark>) {
    var sk := Skeleton(rs);
    Levels(sk, marks) && AllOpen(sk, marks) && AllClosed(rs, sk, marks)
  }

  predicate Neutral(c: Call) { !Opens(c) && !c.RestoreCall? }

  lemma OpenAtKept(sk: seq<Call>, c: Call, m: Mark, level: nat)
    requires OpenAt(sk, m, level) && Height(sk + [c], |sk| + 1) > level
    ensures OpenAt(sk + [c], m, level)
  {
    AllPrefixesKept(sk, c);
  }

  lemma AllOpenKept(sk: seq<Call>, c: Call, marks: seq<Mark>, n: nat)
    requires AllOpen(sk, marks) && n <= |marks| && Height(sk + [c], |sk| + 1) >= n
    ensures AllOpen(sk + [c], marks[..n])
  {
    forall m | 0 <= m < n ensures OpenAt(sk + [c], marks[m], m) {
      OpenAtKept(sk, c, marks[m], m);
    }
  }

  lemma PushNeutral(rs: seq<Record>, marks: seq<Mark>, r: Record)
    requires Bracketed(rs, marks) && Neutral(Settled(r))
    ensures Bracketed(rs + [r], marks)
  {
    var sk, c := Skeleton(rs), Settled(r);
    SkeletonAppend(rs, r);
    assert Levels(sk + [c], marks) by { AllPrefixesKept(sk, c); }
    assert AllOpen(sk + [c], marks) by {
      AllOpenKept(sk, c, marks, |marks|);
      assert marks[..|marks|] == marks;
    }
    assert AllClosed(rs + [r], sk + [c], marks) by {
      hide Levels, AllOpen, ClosedRight;
      forall i | 0 <= i < |rs| && rs[i].IsSave() && !IsOpen(marks, i) ensures ClosedRight(rs + [r], sk + [c], i) {
        ClosedKept(rs, sk, r, c, i);
      }
    }
  }

  lemma OpenLevels(sk: seq<Call>, c: Call, marks: seq<Mark>, m: Mark)
    requires Levels(sk, marks) && Opens(c) && m.isLayer == c.LayerCall?
    ensures Levels(sk + [c], marks + [m])
  {
    AllPrefixesKept(sk, c);
    assert Kinds(marks + [m]) == Kinds(marks) + [m.isLayer];
  }

  lemma OpenAll(sk: seq<Call>, c: Call, marks: seq<Mark>, m: Mark)
    requires Levels(sk, marks) && AllOpen(sk, marks) && Opens(c)
    requires m == Mark(c.LayerCall?, |sk|, TallyAt(sk, |sk|).depth)
    ensures AllOpen(sk + [c], marks + [m])
  {
    hide OpenAt, TallyAt, Height;
    HeightOpens(sk, c);
    forall n | 0 <= n < |marks| ensures OpenAt(sk + [c], marks[n], n) {
      OpenAtKept(sk, c, marks[n], n);
    }
    OpensAt(sk, c, m);
  }

  lemma HeightOpens(sk: seq<Call>, c: Call)
    requires Opens(c)
    ensures Height(sk + [c], |sk| + 1) == Height(sk, |sk|) + 1
  {
    PrefixesKept(sk, c, |sk|);
  }

  lemma OpensAt(sk: seq<Call>, c: Call, m: Mark)
    requires Opens(c) && m == Mark(c.LayerCall?, |sk|, TallyAt(sk, |sk|).depth) && Height(sk, |sk|) >= 0
    ensures OpenAt(sk + [c], m, Height(sk, |sk|))
  {
    hide TallyAt;
    PrefixesKept(sk, c, |sk|);
    HeightOpens(sk, c);
  }

  lemma OpenMore(marks: seq<Mark>, m: Mark, i: nat)
    ensures IsOpen(marks + [m], i) <==> IsOpen(marks, i) || m.saveIndex == i
  {
    if IsOpen(marks, i) {
      var n :| 0 <= n < |marks| && marks[n].saveIndex == i;
      assert (marks + [m])[n].saveIndex == i;
    }
    assert (marks + [m])[|marks|] == m;
  }

  lemma PushOpen(rs: seq<Record>, marks: seq<Mark>, r: Record, m: Mark)
    requires Bracketed(rs, marks) && r.IsSave()
    requires m == Mark(r.LayerRec?, |rs|, TallyAt(Skeleton(rs), |rs|).depth)
    ensures Bracketed(rs + [r], marks + [m])
  {
    hide ClosedRight, OpenAt;
    var sk, c, ms := Skeleton(rs), Settled(r), marks + [m];
    SkeletonAppend(rs, r);
    OpenLevels(sk, c, marks, m);
    OpenAll(sk, c, marks, m);
    forall i | 0 <= i < |rs + [r]| && (rs + [r])[i].IsSave() && !IsOpen(ms, i)
      ensures ClosedRight(rs + [r], sk + [c], i)
    {
      OpenMore(marks, m, i);
      ClosedKept(rs, sk, r, c, i);
    }
  }

  lemma CloseLevels(sk: seq<Call>, marks: seq<Mark>)
    requires Levels(sk, marks) && marks != []
    ensures Levels(sk + [RestoreCall], marks[..|marks| - 1])
  {
    AllPrefixesKept(sk, RestoreCall);
    assert Kinds(marks[..|marks| - 1]) == Kinds(marks)[..|marks| - 1];
  }

  // The restore that closes the innermost open bracket matches it.
  lemma CloseMatches(sk: seq<Call>, m: Mark, level: nat)
    requires OpenAt(sk, m, level) && Height(sk, |sk|) == level + 1
    ensures Matches(sk + [RestoreCall], m.saveIndex, |sk|)
    ensures TallyAt(sk + [RestoreCall], |sk|) == TallyAt(sk, |sk|)
    ensures TallyAt(sk + [RestoreCall], m.saveIndex) == TallyAt(sk, m.saveIndex)
  {
    AllPrefixesKept(sk, RestoreCall);
  }

  lemma PopClose(rs: seq<Record>, marks: seq<Mark>, r: Record)
    requires Bracketed(rs, marks) && marks != [] && r.IsSave()
    requires var m := marks[|marks| - 1];
             && m.saveIndex < |rs| && Settled(r) == Settled(rs[m.saveIndex]) && RestoreIndex(r) == |rs|
             && ContentDepth(r) == TallyAt(Skeleton(rs), |rs|).depth - m.saveDepth
    ensures Bracketed(rs[marks[|marks| - 1].saveIndex := r] + [RestoreRec], marks[..|marks| - 1])
  {
    hide Levels, AllOpen, AllClosed, ClosedRight;
    var top := marks[|marks| - 1];
    var sk, s := Skeleton(rs), top.saveIndex;
    SkeletonPatch(rs, s, r);
    SkeletonAppend(rs[s := r], RestoreRec);
    CloseLevels(sk, marks);
    PoppedOpen(sk, marks);
    PoppedRight(rs, sk, marks, r);
    PoppedClosed(rs, sk, marks, r);
  }

  lemma PoppedOpen(sk: seq<Call>, marks: seq<Mark>)
    requires Levels(sk, marks) && AllOpen(sk, marks) && marks != []
    ensures AllOpen(sk + [RestoreCall], marks[..|marks| - 1])
  {
    CloseLevels(sk, marks);
    AllOpenKept(sk, RestoreCall, marks, |marks| - 1);
  }

  lemma PoppedRight(rs: seq<Record>, sk: seq<Call>, marks: seq<Mark>, r: Record)
    requires Levels(sk, marks) && AllOpen(sk, marks) && marks != [] && r.IsSave() && |sk| == |rs|
    requires var m := marks[|marks| - 1];
             m.saveIndex < |rs| && RestoreIndex(r) == |rs| && ContentDepth(r) == TallyAt(sk, |sk|).depth - m.saveDepth
    ensures ClosedRight(rs[marks[|marks| - 1].saveIndex := r] + [RestoreRec], sk + [RestoreCall],
                        marks[|marks| - 1].saveIndex)
  {
    assert OpenAt(sk, marks[|marks| - 1], |marks| - 1);
    CloseMatches(sk, marks[|marks| - 1], |marks| - 1);
  }

  lemma PoppedClosed(rs: seq<Record>, sk: seq<Call>, marks: seq<Mark>, r: Record)
    requires |sk| == |rs| && AllClosed(rs, sk, marks) && marks != [] && r.IsSave()
    requires marks[|marks| - 1].saveIndex < |rs|
    requires ClosedRight(rs[marks[|marks| - 1].saveIndex := r] + [RestoreRec], sk + [RestoreCall],
                         marks[|marks| - 1].saveIndex)
    ensures AllClosed(rs[marks[|marks| - 1].saveIndex := r] + [RestoreRec], sk + [RestoreCall], marks[..|marks| - 1])
  {
    hide ClosedRight;
    var top, under := marks[|marks| - 1], marks[..|marks| - 1];
    var s := top.saveIndex;
    var rs', sk' := rs[s := r] + [RestoreRec], sk + [RestoreCall];
    assert marks == under + [top];
    forall i | 0 <= i < |rs'| && rs'[i].IsSave() && !IsOpen(under, i) ensures ClosedRight(rs', sk', i) {
      if i != s {
        OpenMore(under, top, i);
        ClosedPatched(rs, sk, s, r, i);
      }
    }
  }

  lemma ClosedPatched(rs: seq<Record>, sk: seq<Call>, s: nat, r: Record, i: nat)
    requires |sk| == |rs| && s < |rs| && i < |rs| && i != s && rs[i].IsSave() && ClosedRight(rs, sk, i)
    ensures ClosedRight(rs[s := r] + [RestoreRec], sk + [RestoreCall], i)
  {
    MatchKept(sk, RestoreCall, i, RestoreIndex(rs[i]));
    AllPrefixesKept(sk, RestoreCall);
  }

  // ---------- every step keeps the brackets right ----------

  ghost predicate Sound(st: Recorder) {
    && st.Sized() && !st.stack[0].deferred
    && (forall i :: 0 <= i < |st.stack| && st.stack[i].isLayer ==> !st.stack[i].deferred)
    && Bracketed(st.records, Marks(st.stack))
    && TallyAt(Skeleton(st.records), |st.records|).depth == st.depth
    && TallyAt(Skeleton(st.records), |st.records|).cost == st.cost
  }

  lemma MarksAppend(stack: seq<Save>, e: Save)
    requires |stack| > 0
    ensures Marks(stack + [e]) == Marks(stack) + if e.deferred then [] else [MarkOf(e)]
  {
    assert (stack + [e])[..|stack|] == stack;
  }

  lemma MarksSetTop(stack: seq<Save>, e: Save)
    requires |stack| > 0 && e.deferred == stack[|stack| - 1].deferred && MarkOf(e) == MarkOf(stack[|stack| - 1])
    ensures Marks(stack[|stack| - 1 := e]) == Marks(stack)
  {
    assert stack[|stack| - 1 := e][..|stack| - 1] == stack[..|stack| - 1];
  }

  // A push that is neither a save nor a restore, while the stack's marks stay as they are.
  lemma NeutralSound(st: Recorder, r: Record, st': Recorder)
    requires Sound(st) && Neutral(Settled(r)) && st'.Sized()
    requires st'.records == st.records + [r] && |st'.stack| == |st.stack| && Marks(st'.stack) == Marks(st.stack)
    requires forall i :: 0 <= i < |st.stack| ==>
      st'.stack[i].deferred == st.stack[i].deferred && st'.stack[i].isLayer == st.stack[i].isLayer
    requires st'.depth == Add(TallyAt(Skeleton(st.records), |st.records|), Settled(r)).depth
    requires st'.cost == Add(TallyAt(Skeleton(st.records), |st.records|), Settled(r)).cost
    ensures Sound(st')
  {
    PushNeutral(st.records, Marks(st.stack), r);
    SkeletonAppend(st.records, r);
    AllPrefixesKept(Skeleton(st.records), Settled(r));
  }

  // Changes that touch neither the records nor the marks.
  lemma SameSound(st: Recorder, st': Recorder)
    requires Sound(st) && st'.Sized() && st'.records == st.records
    requires !st'.stack[0].deferred && Marks(st'.stack) == Marks(st.stack)
    requires forall i :: 0 <= i < |st'.stack| && st'.stack[i].isLayer ==> !st'.stack[i].deferred
    requires st'.depth == st.depth && st'.cost == st.cost
    ensures Sound(st')
  {
  }

  lemma DeferredSound(st: Recorder)
    requires Sound(st)
    ensures Sound(CheckDeferredSave(st)) && !CheckDeferredSave(st).Top().deferred
    ensures |CheckDeferredSave(st).layers| == |st.layers|
  {
    hide Bracketed;
    if st.Top().deferred {
      var st', n := CheckDeferredSave(st), |st.stack|;
      var under := st.stack[..n - 1];
      assert st.stack == under + [st.Top()] && st'.stack == under + [st'.Top()];
      MarksAppend(under, st.Top());
      MarksAppend(under, st'.Top());
      SetTopSized(st, st');
      PushOpen(st.records, Marks(st.stack), SaveRec(0, 0), MarkOf(st'.Top()));
      SkeletonAppend(st.records, SaveRec(0, 0));
      AllPrefixesKept(Skeleton(st.records), SaveCall);
      assert Marks(st'.stack) == Marks(st.stack) + [MarkOf(st'.Top())];
    }
  }

  lemma TopSound(st: Recorder, e: Save)
    requires Sound(st) && e.deferred == st.Top().deferred && MarkOf(e) == MarkOf(st.Top())
    ensures Sound(SetTop(st, e))
  {
    MarksSetTop(st.stack, e);
    SetTopSized(st, SetTop(st, e));
    SameSound(st, SetTop(st, e));
  }

  lemma TransformSound(st: Recorder, t: Transform)
    requires Sound(st)
    ensures Sound(TransformStep(st, t))
  {
    var n := Normal(t);
    if !Trivial(n) {
      DeferredSound(st);
      var st1 := CheckDeferredSave(st);
      var e := Transformed(st1.Top(), n);
      TopSound(st1, e);
      NeutralSound(SetTop(st1, e), TransformRec(n), TransformStep(st, t));
    }
  }

  lemma ClipSound(e: Engine, st: Recorder, s: Shape, op: ClipOp, aa: bool)
    requires Sound(st)
    ensures Sound(ClipStep(e, st, s, op, aa))
  {
    hide Bracketed, TallyAt, LayerCount, RedundantClip;
    if ClipStep(e, st, s, op, aa) != st {
      var clipped := Clipped(e, st.Top(), s, op, aa);
      if clipped.global.cull.IsEmpty() || clipped.local.cull.IsEmpty() {
        TopSound(st, clipped.(nop := true));
      } else {
        var st1 := SetTop(st, clipped.(validClip := true));
        TopSound(st, clipped.(validClip := true));
        DeferredSound(st1);
        NeutralSound(CheckDeferredSave(st1), ClipRec(s, op, aa), ClipStep(e, st, s, op, aa));
      }
    }
  }

  lemma SaveSound(st: Recorder, nop: bool)
    requires Sound(st)
    ensures Sound(st.(stack := st.stack + [DeferredEntry(st.Top()).(nop := nop)]))
  {
    var e := DeferredEntry(st.Top()).(nop := nop);
    MarksAppend(st.stack, e);
    LayerCountAppend(st.stack, e);
    SameSound(st, st.(stack := st.stack + [e]));
  }

  lemma LayerSound(e: Engine, st: Recorder, b: Rect, withPaint: bool, fromCaller: bool, bd: Option<Backdrop>)
    requires Sound(st) && |st.layers| > 0
    ensures Sound(LayerStep(e, st, b, withPaint, fromCaller, bd))
  {
    hide Bracketed, PaintResult, OuterSink, LayerTracker;
    if MakesLayer(st, withPaint) {
      LayerPush(e, st, b, withPaint, fromCaller, bd);
    } else {
      SaveSound(st, true);
      assert LayerStep(e, st, b, withPaint, fromCaller, bd) ==
             st.(stack := st.stack + [DeferredEntry(st.Top()).(nop := true)]);
    }
  }

  lemma LayerPush(e: Engine, st: Recorder, b: Rect, withPaint: bool, fromCaller: bool, bd: Option<Backdrop>)
    requires Sound(st) && |st.layers| > 0 && MakesLayer(st, withPaint)
    ensures Sound(LayerStep(e, st, b, withPaint, fromCaller, bd))
  {
    hide Bracketed, PaintResult, OuterSink, LayerTracker;
    var st' := LayerStep(e, st, b, withPaint, fromCaller, bd);
    LayerSized(e, st, b, withPaint, fromCaller, bd);
    var r := LayerRec(LayerOptions(withPaint, fromCaller, false, false, false, false),
                      if fromCaller then b else EMPTY, CLEAR, bd, 0, 0);
    MarksAppend(st.stack, st'.Top());
    assert st'.stack == st.stack + [st'.Top()];
    PushOpen(st.records, Marks(st.stack), r, MarkOf(st'.Top()));
    SkeletonAppend(st.records, r);
    AllPrefixesKept(Skeleton(st.records), Settled(r));
  }

  lemma TopMark(st: Recorder)
    requires Sound(st) && |st.stack| > 1 && !st.Top().deferred
    ensures var marks, top := Marks(st.stack), st.Top();
            && marks != [] && marks[|marks| - 1] == MarkOf(top)
               && marks[..|marks| - 1] == Marks(st.stack[..|st.stack| - 1])
            && top.saveIndex < |st.records|
            && (if top.isLayer then st.records[top.saveIndex].LayerRec? else st.records[top.saveIndex].SaveRec?)
            && top.saveDepth <= st.depth
            && TallyAt(Skeleton(st.records), |st.records|).open == Kinds(Marks(st.stack))
  {
    var marks, sk := Marks(st.stack), Skeleton(st.records);
    assert OpenAt(sk, marks[|marks| - 1], |marks| - 1);
    DepthGrows(sk, st.Top().saveIndex, |st.records|);
  }

  lemma RestoreSound(e: Engine, st: Recorder)
    requires Sound(st)
    ensures Sound(RestoreStep(e, st))
  {
    hide Bracketed, CloseLayer, Patched;
    RestoreSized(e, st);
    if |st.stack| > 1 {
      if st.Top().deferred {
        SameSound(st, RestoreStep(e, st));
      } else {
        CloseSound(e, st);
      }
    }
  }

  lemma CloseDepth(e: Engine, st: Recorder)
    requires |st.stack| > 1 && |st.layers| > 1
    ensures CloseLayer(e, st).depth == st.depth + st.cost && CloseLayer(e, st).cost == st.cost
  {
  }

  lemma PatchedFields(r: Record, restoreIndex: nat, contentDepth: nat, l: Layer)
    requires r.IsSave()
    ensures var r' := Patched(r, restoreIndex, contentDepth, l);
            && r'.IsSave() && Settled(r') == Settled(r) && r'.LayerRec? == r.LayerRec?
            && RestoreIndex(r') == restoreIndex && ContentDepth(r') == contentDepth
  {
  }

  // What a restore that closes a bracket leaves.
  lemma ClosedState(e: Engine, st: Recorder)
    requires st.Sized() && |st.stack| > 1 && !st.Top().deferred && st.Top().saveIndex < |st.records|
    requires st.Top().saveDepth <= st.depth
    ensures |st.layers| > 0
    ensures var top, st' := st.Top(), RestoreStep(e, st);
            var r := Patched(st.records[top.saveIndex], |st.records|, st.depth - top.saveDepth, st.Layer());
            && st'.records == st.records[top.saveIndex := r] + [RestoreRec]
            && st'.stack == st.stack[..|st.stack| - 1] && st'.cost == st.cost
            && st'.depth == st.depth + if top.isLayer then st.cost else 0
  {
    hide Patched, CloseLayer, LayerCount;
    LayerCountPositive(st.stack);
    LayerCountPositive(st.stack[..|st.stack| - 1]);
    if st.Top().isLayer {
      TwoLayers(st);
      CloseDepth(e, st);
    }
  }

  lemma TwoLayers(st: Recorder)
    requires st.Sized() && |st.stack| > 1 && st.Top().isLayer
    ensures |st.layers| > 1
  {
    LayerCountPositive(st.stack[..|st.stack| - 1]);
  }

  lemma CloseSound(e: Engine, st: Recorder)
    requires Sound(st) && |st.stack| > 1 && !st.Top().deferred
    ensures Sound(RestoreStep(e, st))
  {
    hide Bracketed, RestoreStep, Patched, LayerCount;
    var top, marks, st' := st.Top(), Marks(st.stack), RestoreStep(e, st);
    TopMark(st);
    RestoreSized(e, st);
    ClosedState(e, st);
    var r := Patched(st.records[top.saveIndex], |st.records|, st.depth - top.saveDepth, st.Layer());
    PatchedFields(st.records[top.saveIndex], |st.records|, st.depth - top.saveDepth, st.Layer());
    PopClose(st.records, marks, r);
    SkeletonPatch(st.records, top.saveIndex, r);
    SkeletonAppend(st.records[top.saveIndex := r], RestoreRec);
    AllPrefixesKept(Skeleton(st.records), RestoreCall);
    assert Kinds(marks)[|marks| - 1] == top.isLayer;
  }

  lemma AttrSound(st: Recorder, a: Attr)
    requires Sound(st)
    ensures Sound(AttrStep(st, a))
  {
    hide Bracketed;
    if AttrStep(st, a) != st {
      NeutralSound(st, SetAttrRec(a), AttrStep(st, a));
    }
  }

  lemma DrawSound(e: Engine, st: Recorder, d: Op)
    requires Sound(st) && |st.layers| > 0
    ensures Sound(DrawStep(e, st, d))
  {
    hide Bracketed, PaintResult, AccumulateArea, NoteDraw;
    if RecordsDraw(e, st, d) {
      NeutralSound(st, DrawRec(d), DrawStep(e, st, d));
    } else {
      SameSound(st, DrawStep(e, st, d));
    }
  }

  lemma ListSound(e: Engine, st: Recorder, l: DisplayList, o: real)
    requires Sound(st) && |st.layers| > 0
    ensures Sound(ListStep(e, st, l, o))
  {
    hide Bracketed, AccumulateList, NoteList;
    if RecordsList(e, st, l, o) {
      NeutralSound(st, ListRec(l, Min(o, 1.0)), ListStep(e, st, l, o));
    } else {
      SameSound(st, ListStep(e, st, l, o));
    }
  }

  lemma StepSound(e: Engine, st: Recorder, c: Call)
    requires Sound(st)
    ensures Sound(Step(e, st, c))
  {
    hide Sound, AttrStep, LayerStep, RestoreStep, TransformStep, ClipStep, DrawStep, ListStep;
    assert st.Sized() by { SoundSized(st); }
    LayerCountPositive(st.stack);
    match c {
      case AttrCall(a) => AttrSound(st, a);
      case SaveCall => SaveSound(st, st.Top().nop);
      case LayerCall(b, withPaint, fromCaller, bd) => LayerSound(e, st, b, withPaint, fromCaller, bd);
      case RestoreCall => RestoreSound(e, st);
      case TransformCall(t) => TransformSound(st, t);
      case ClipCall(s, op, aa) => ClipSound(e, st, s, op, aa);
      case DrawCall(d) => DrawSound(e, st, d);
      case ListCall(l, o) => ListSound(e, st, l, o);
    }
  }

  lemma SoundSized(st: Recorder)
    requires Sound(st)
    ensures st.Sized()
  {
  }

  lemma StartSound(cull: Rect, prepareRTree: bool)
    ensures Sound(Start(cull, prepareRTree))
  {
  }

  lemma {:induction false} RunSound(e: Engine, st: Recorder, calls: seq<Call>)
    requires Sound(st)
    ensures Sound(Run(e, st, calls))
  {
    if calls != [] {
      var front := calls[..|calls| - 1];
      RunSound(e, st, front);
      StepSound(e, Run(e, st, front), calls[|calls| - 1]);
    }
  }

  lemma {:induction false} FinishSound(e: Engine, st: Recorder)
    requires Sound(st)
    ensures Sound(Finish(e, st))
    decreases |st.stack|
  {
    if |st.stack| > 1 {
      RestoreSound(e, st);
      FinishSound(e, RestoreStep(e, st));
    }
  }

  // In every built list each save names its matching restore and the depth of what is between
  // them, every bracket is closed, and the total depth is the fold over all records.
  lemma BuiltListsAreBracketed(e: Engine, cull: Rect, prepareRTree: bool, calls: seq<Call>)
    ensures var l := Build(e, cull, prepareRTree, calls); var sk := Skeleton(l.records);
            && Height(sk, |sk|) == 0
            && (forall k :: 0 <= k <= |sk| ==> Height(sk, k) >= 0)
            && (forall i :: 0 <= i < |l.records| && l.records[i].IsSave() ==> ClosedRight(l.records, sk, i))
            && l.totalDepth == TallyAt(sk, |sk|).depth
  {
    StartSound(cull, prepareRTree);
    RunSound(e, Start(cull, prepareRTree), calls);
    FinishSound(e, Run(e, Start(cull, prepareRTree), calls));
  }

  // Two matched pairs are nested or disjoint, so a restore closes only one save.
  lemma PairsNest(sk: seq<Call>, i: nat, j: nat, i': nat, j': nat)
    requires Matches(sk, i, j) && Matches(sk, i', j') && i < i'
    ensures j < i' || j' < j
  {
    if i' <= j {
      assert Height(sk, i') > Height(sk, i);
    }
  }
}
