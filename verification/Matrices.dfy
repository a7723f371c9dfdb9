/** Each entry of the save stack carries two matrices: one since the root and one since its
    layer began. This module relates the two in every reachable state. */
module Matrices {
  import opened Geometry
  import opened Painting
  import opened DisplayLists
  import opened Recorder
  import opened Emission

  // The matrix that was in force where the layer of entry i began.
  function Base(stack: seq<Save>, i: nat): Matrix
    requires i < |stack|
  {
    if i == 0 then IDENTITY
    else if stack[i].isLayer then stack[i - 1].global.matrix
    else Base(stack, i - 1)
  }

  ghost predicate Aligned(stack: seq<Save>) {
    forall i :: 0 <= i < |stack| ==> stack[i].global.matrix == Compose(Base(stack, i), stack[i].local.matrix)
  }

  lemma {:induction false} BaseAppend(stack: seq<Save>, e: Save, i: nat)
    requires i < |stack|
    ensures Base(stack + [e], i) == Base(stack, i)
  {
    if i > 0 { BaseAppend(stack, e, i - 1); }
  }

  lemma {:induction false} BasePrefix(stack: seq<Save>, n: nat, i: nat)
    requires i < n <= |stack|
    ensures Base(stack[..n], i) == Base(stack, i)
  {
    if i > 0 { BasePrefix(stack, n, i - 1); }
  }

  lemma {:induction false} BaseSetTop(stack: seq<Save>, e: Save, i: nat)
    requires i < |stack| && e.isLayer == stack[|stack| - 1].isLayer
    ensures Base(stack[|stack| - 1 := e], i) == Base(stack, i)
  {
    if i > 0 { BaseSetTop(stack, e, i - 1); }
  }

  lemma AppendAligned(stack: seq<Save>, e: Save)
    requires Aligned(stack) && |stack| > 0
    requires e.global.matrix == stack[|stack| - 1].global.matrix
    requires e.local.matrix == if e.isLayer then IDENTITY else stack[|stack| - 1].local.matrix
    ensures Aligned(stack + [e])
  {
    var n := |stack|;
    forall i | 0 <= i < n + 1
      ensures (stack + [e])[i].global.matrix == Compose(Base(stack + [e], i), (stack + [e])[i].local.matrix)
    {
      if i < n {
        BaseAppend(stack, e, i);
      } else {
        BaseAppend(stack, e, n - 1);
        ComposeIdentity(stack[n - 1].global.matrix);
      }
    }
  }

  lemma PopAligned(stack: seq<Save>)
    requires Aligned(stack) && |stack| > 1
    ensures Aligned(stack[..|stack| - 1])
  {
    forall i | 0 <= i < |stack| - 1 ensures Base(stack[..|stack| - 1], i) == Base(stack, i) {
      BasePrefix(stack, |stack| - 1, i);
    }
  }

  lemma SetTopAligned(stack: seq<Save>, e: Save)
    requires Aligned(stack) && |stack| > 0 && e.isLayer == stack[|stack| - 1].isLayer
    ensures Aligned(stack[|stack| - 1 := e]) <==>
            e.global.matrix == Compose(Base(stack, |stack| - 1), e.local.matrix)
  {
    var s := stack[|stack| - 1 := e];
    forall i | 0 <= i < |stack| ensures Base(s, i) == Base(stack, i) {
      BaseSetTop(stack, e, i);
    }
    assert s[|stack| - 1] == e;
  }

  // A reset under a matrix without inverse is the one call that breaks the relation.
  predicate SingularReset(st: Recorder, c: Call)
    requires |st.stack| > 0
  {
    c.TransformCall? && c.transform.Reset? && !st.Top().global.matrix.Invertible()
  }

  lemma ResetAligned(base: Matrix, global: Matrix, local: Matrix)
    requires global == Compose(base, local)
    ensures GlobalAfter(global, Reset) == Compose(base, LocalAfter(global, local, Reset)) <==> global.Invertible()
  {
    if global.Invertible() {
      ComposeAssociative(base, local, Inverse(global));
      ComposeInverse(global);
    } else {
      var collapsed := Matrix(Axis(0.0, 0.0), Axis(0.0, 0.0));
      ComposeInvertible(base, collapsed);
      assert IDENTITY.Invertible();
    }
  }

  lemma TransformAligned(st: Recorder, t: Transform)
    requires st.Sized() && Aligned(st.stack)
    ensures Aligned(TransformStep(st, t).stack) <==> !(t.Reset? && !st.Top().global.matrix.Invertible())
  {
    var n := Normal(t);
    if !Trivial(n) {
      var top, base := st.Top(), Base(st.stack, |st.stack| - 1);
      var st1 := CheckDeferredSave(st);
      var e := Transformed(st1.Top(), n);
      assert TransformStep(st, t).stack == st.stack[|st.stack| - 1 := e];
      SetTopAligned(st.stack, e);
      if n.Reset? {
        ResetAligned(base, top.global.matrix, top.local.matrix);
      } else {
        ComposeAssociative(base, top.local.matrix, MatrixOf(n));
      }
    }
  }

  lemma ClipAligned(e: Engine, st: Recorder, c: Call)
    requires |st.stack| > 0 && Aligned(st.stack) && c.ClipCall?
    ensures Aligned(ClipStep(e, st, c.shape, c.op, c.aa).stack)
  {
    hide ClipStep;
    ClipStack(e, st, c);
    SetTopAligned(st.stack, ClipStep(e, st, c.shape, c.op, c.aa).Top());
  }

  lemma LayerAligned(e: Engine, st: Recorder, c: Call)
    requires |st.stack| > 0 && |st.layers| > 0 && Aligned(st.stack) && c.LayerCall?
    ensures Aligned(LayerStep(e, st, c.bounds, c.withPaint, c.fromCaller, c.backdrop).stack)
  {
    hide LayerStep, Aligned;
    LayerStack(e, st, c);
    AppendAligned(st.stack, LayerStep(e, st, c.bounds, c.withPaint, c.fromCaller, c.backdrop).Top());
  }

  // Every other call, whatever it does, keeps the two matrices related.
  lemma StepAligned(e: Engine, st: Recorder, c: Call)
    requires st.Sized() && Aligned(st.stack)
    ensures Aligned(Step(e, st, c).stack) <==> !SingularReset(st, c)
  {
    hide Aligned, TransformStep, ClipStep, LayerStep, RestoreStep, DrawStep, ListStep, AttrStep;
    LayerCountPositive(st.stack);
    match c {
      case SaveCall => AppendAligned(st.stack, DeferredEntry(st.Top()));
      case LayerCall(_, _, _, _) => LayerAligned(e, st, c);
      case RestoreCall =>
        RestorePaint(e, st);
        if |st.stack| > 1 { PopAligned(st.stack); } else { RestoreNothing(e, st); }
      case TransformCall(t) => TransformAligned(st, t);
      case ClipCall(_, _, _) => ClipAligned(e, st, c);
      case _ => DrawsKeepStack(e, st, c);
    }
  }

  // ---------- what a transform does to a point ----------

  function MapPoint(m: Matrix, p: Point): Point { Point(Apply(m.x, p.x), Apply(m.y, p.y)) }

  function MovePoint(t: Transform, p: Point): Point
    requires !t.Reset?
  {
    match t
    case Translate(tx, ty) => Point(p.x + tx, p.y + ty)
    case ScaleBy(sx, sy) => Point(p.x * sx, p.y * sy)
    case Affine(m) => MapPoint(m, p)
  }

  // A transform moves the points that are drawn before all earlier transforms do; a reset forgets these.
  lemma TransformsMovePoints(m: Matrix, t: Transform, p: Point)
    ensures MapPoint(GlobalAfter(m, t), p) == if t.Reset? then p else MapPoint(m, MovePoint(t, p))
  {
    if !t.Reset? {
      ApplyCompose(m.x, MatrixOf(t).x, p.x);
      ApplyCompose(m.y, MatrixOf(t).y, p.y);
    }
  }

  // A transform is left out exactly if it moves no point, and is otherwise recorded as one that moves the
  // points alike.
  lemma TransformsAreRecordedIff(st: Recorder, t: Transform)
    requires |st.stack| > 0
    ensures var rs := TransformStep(st, t).records;
            if !t.Reset? && forall p :: MovePoint(t, p) == p then rs == st.records
            else && |rs| > |st.records| && rs[|rs| - 1].TransformRec?
                 && rs[|rs| - 1].transform.Reset? == t.Reset?
                 && (!t.Reset? ==> forall p :: MovePoint(rs[|rs| - 1].transform, p) == MovePoint(t, p))
  {
    hide LocalAfter, GlobalAfter;
    if !t.Reset? {
      NormalMovesAlike(t);
      TrivialMovesNothing(Normal(t));
    }
  }

  lemma NormalMovesAlike(t: Transform)
    requires !t.Reset?
    ensures !Normal(t).Reset? && forall p :: MovePoint(Normal(t), p) == MovePoint(t, p)
  {
  }

  lemma TrivialMovesNothing(t: Transform)
    requires !t.Reset? && Normal(t) == t
    ensures Trivial(t) <==> forall p :: MovePoint(t, p) == p
  {
    if Trivial(t) {
      forall p ensures MovePoint(t, p) == p {
      }
    } else if t.Affine? {
      var p := MovedByScale(t.m);
      assert MovePoint(t, p) != p;
    } else {
      assert t.ScaleBy? ==> MovePoint(t, Point(1.0, 1.0)) == Point(t.sx, t.sy);
      assert t.Translate? ==> MovePoint(t, Point(0.0, 0.0)) == Point(t.tx, t.ty);
    }
  }

  lemma MovedByScale(m: Matrix) returns (p: Point)
    requires m.x.scale != 1.0 || m.y.scale != 1.0
    ensures MapPoint(m, p) != p
  {
    hide Apply;
    ApplyUnits(m.x);
    ApplyUnits(m.y);
    p := Point(0.0, 0.0);
    if MapPoint(m, p) == p { p := Point(1.0, 1.0); }
  }

  lemma ApplyUnits(a: Axis)
    ensures Apply(a, 0.0) == a.shift && Apply(a, 1.0) == a.scale + a.shift
  {
  }

  // ---------- invertible transforms ----------

  predicate InvertibleCall(c: Call) {
    c.TransformCall? && !c.transform.Reset? ==> MatrixOf(c.transform).Invertible()
  }

  ghost predicate AllInvertible(stack: seq<Save>) {
    forall i :: 0 <= i < |stack| ==> stack[i].global.matrix.Invertible()
  }

  lemma StepInvertible(e: Engine, st: Recorder, c: Call)
    requires st.Sized() && AllInvertible(st.stack) && InvertibleCall(c)
    ensures AllInvertible(Step(e, st, c).stack)
  {
    hide TransformStep, ClipStep, LayerStep, RestoreStep, DrawStep, ListStep, AttrStep, LayerCount;
    LayerCountPositive(st.stack);
    match c {
      case SaveCall =>
      case LayerCall(_, _, _, _) => LayerStack(e, st, c);
      case RestoreCall =>
        RestorePaint(e, st);
        if |st.stack| <= 1 { RestoreNothing(e, st); }
      case TransformCall(t) => TransformInvertible(st, t);
      case ClipCall(_, _, _) => ClipStack(e, st, c);
      case _ => DrawsKeepStack(e, st, c);
    }
  }

  lemma TransformInvertible(st: Recorder, t: Transform)
    requires st.Sized() && AllInvertible(st.stack) && InvertibleCall(TransformCall(t))
    ensures AllInvertible(TransformStep(st, t).stack)
  {
    if !t.Reset? {
      ComposeInvertible(st.Top().global.matrix, MatrixOf(Normal(t)));
    }
  }

  lemma StartAligned(cull: Rect, prepareRTree: bool)
    ensures var s := Start(cull, prepareRTree).stack; Aligned(s) && AllInvertible(s)
  {
    hide Compose;
    ComposeIdentity(IDENTITY);
    assert IDENTITY.Invertible();
  }

  lemma InvertibleResets(st: Recorder, c: Call)
    requires |st.stack| > 0 && AllInvertible(st.stack)
    ensures !SingularReset(st, c)
  {
  }

  // In every state reached with invertible transforms, resets included, each entry's matrix
  // since the root is the matrix at its layer's start followed by its matrix since then.
  lemma {:induction false} ReachableAligned(e: Engine, cull: Rect, prepareRTree: bool, calls: seq<Call>)
    requires forall i :: 0 <= i < |calls| ==> InvertibleCall(calls[i])
    ensures var s := Run(e, Start(cull, prepareRTree), calls).stack; Aligned(s) && AllInvertible(s)
  {
    hide Aligned, AllInvertible, Step, Start;
    if calls == [] {
      StartAligned(cull, prepareRTree);
    } else {
      var front := calls[..|calls| - 1];
      var st := Run(e, Start(cull, prepareRTree), front);
      ReachableAligned(e, cull, prepareRTree, front);
      InvertibleResets(st, calls[|calls| - 1]);
      StepAligned(e, st, calls[|calls| - 1]);
      StepInvertible(e, st, calls[|calls| - 1]);
    }
  }

  // ---------- after a singular reset ----------

  const COLLAPSED: Matrix := Matrix(Axis(0.0, 0.0), Axis(0.0, 0.0))

  // Entry j draws into the layer that entry n, below it, draws into.
  predicate SameLayer(stack: seq<Save>, n: nat, j: nat)
    requires n <= j < |stack|
  {
    j == n || (!stack[j].isLayer && SameLayer(stack, n, j - 1))
  }

  // The matrices since the start of that layer have collapsed, in entry n and in all above it that draw
  // into the same layer.
  ghost predicate Silenced(stack: seq<Save>, n: nat) {
    n < |stack| && forall j :: n <= j < |stack| && SameLayer(stack, n, j) ==> stack[j].local.matrix == COLLAPSED
  }

  lemma {:induction false} SameLayerKept(stack: seq<Save>, other: seq<Save>, n: nat, j: nat)
    requires n <= j < |stack| && j < |other| && forall i :: 0 <= i <= j ==> other[i].isLayer == stack[i].isLayer
    ensures SameLayer(other, n, j) == SameLayer(stack, n, j)
  {
    if j > n { SameLayerKept(stack, other, n, j - 1); }
  }

  lemma AppendSilenced(stack: seq<Save>, n: nat, s: Save)
    requires Silenced(stack, n) && (!s.isLayer ==> s.local.matrix == stack[|stack| - 1].local.matrix)
    ensures Silenced(stack + [s], n)
  {
    forall j | n <= j < |stack| + 1 && SameLayer(stack + [s], n, j) ensures (stack + [s])[j].local.matrix == COLLAPSED {
      SameLayerKept(stack, stack + [s], n, if j < |stack| then j else |stack| - 1);
    }
  }

  lemma PopSilenced(stack: seq<Save>, n: nat)
    requires Silenced(stack, n) && n < |stack| - 1
    ensures Silenced(stack[..|stack| - 1], n)
  {
    var under := stack[..|stack| - 1];
    forall j | n <= j < |under| && SameLayer(under, n, j) ensures under[j].local.matrix == COLLAPSED {
      SameLayerKept(stack, under, n, j);
    }
  }

  lemma SetTopSilenced(stack: seq<Save>, n: nat, s: Save)
    requires Silenced(stack, n) && s.isLayer == stack[|stack| - 1].isLayer
    requires stack[|stack| - 1].local.matrix == COLLAPSED ==> s.local.matrix == COLLAPSED
    ensures Silenced(stack[|stack| - 1 := s], n)
  {
    var other := stack[|stack| - 1 := s];
    forall j | n <= j < |stack| && SameLayer(other, n, j) ensures other[j].local.matrix == COLLAPSED {
      SameLayerKept(stack, other, n, j);
    }
  }

  lemma CollapsedStays(global: Matrix, t: Transform)
    ensures LocalAfter(global, COLLAPSED, t) == COLLAPSED
  {
  }

  lemma TransformSilenced(st: Recorder, n: nat, t: Transform)
    requires Silenced(st.stack, n)
    ensures Silenced(TransformStep(st, t).stack, n)
  {
    hide Silenced, LocalAfter, GlobalAfter, Normal, Trivial;
    assert |st.stack| > 0 by { SilencedSize(st.stack, n); }
    var st' := TransformStep(st, t);
    CollapsedStays(st.Top().global.matrix, Normal(t));
    assert st'.stack == st.stack[|st.stack| - 1 := st'.Top()];
    SetTopSilenced(st.stack, n, st'.Top());
  }

  lemma ClipSilenced(e: Engine, st: Recorder, n: nat, c: Call)
    requires Silenced(st.stack, n) && c.ClipCall?
    ensures |st.stack| > 0 && Silenced(ClipStep(e, st, c.shape, c.op, c.aa).stack, n)
  {
    hide Silenced, ClipStep;
    SilencedSize(st.stack, n);
    ClipStack(e, st, c);
    SetTopSilenced(st.stack, n, ClipStep(e, st, c.shape, c.op, c.aa).Top());
  }

  lemma SilencedSize(stack: seq<Save>, n: nat)
    requires Silenced(stack, n)
    ensures n < |stack|
  {
  }

  lemma StepSilenced(e: Engine, st: Recorder, n: nat, c: Call)
    requires st.Sized() && Silenced(st.stack, n) && |Step(e, st, c).stack| > n
    ensures Silenced(Step(e, st, c).stack, n)
  {
    hide Silenced, LayerCount, TransformStep, ClipStep, RestoreStep, LayerStep, DrawStep, ListStep, AttrStep;
    LayerCountPositive(st.stack);
    SilencedSize(st.stack, n);
    match c {
      case SaveCall => AppendSilenced(st.stack, n, DeferredEntry(st.Top()));
      case LayerCall(_, _, _, _) =>
        LayerStack(e, st, c);
        AppendSilenced(st.stack, n, Step(e, st, c).Top());
      case RestoreCall =>
        RestorePaint(e, st);
        if |st.stack| > 1 { PopSilenced(st.stack, n); } else { RestoreNothing(e, st); }
      case TransformCall(t) => TransformSilenced(st, n, t);
      case ClipCall(_, _, _) => ClipSilenced(e, st, n, c);
      case _ => DrawsKeepStack(e, st, c);
    }
  }

  lemma NothingMapped(t: Tracker, r: Rect)
    requires t.matrix == COLLAPSED
    ensures MapAndClip(t, r).IsEmpty()
  {
    MapNonEmpty(t.matrix, r);
  }

  lemma {:induction false} NoneMapped(s: Save, k: Sink, id: nat, rs: seq<Rect>)
    requires s.local.matrix == COLLAPSED
    ensures !AccumulateEach(s, k, id, rs).1
  {
    hide MapAndClip;
    if rs != [] {
      NoneMapped(s, k, id, rs[..|rs| - 1]);
      NothingMapped(s.local, rs[|rs| - 1]);
    }
  }

  // Under a collapsed matrix neither a draw nor a nested list is recorded.

  lemma CollapsedRecordsNoDraw(e: Engine, st: Recorder, d: Op)
    requires |st.stack| > 0 && |st.layers| > 0 && st.Top().local.matrix == COLLAPSED
    ensures Emits(e, st, DrawCall(d)) == []
  {
    hide MapAndClip, Area, PaintResult;
    var top, area := st.Top(), Area(e, st.paint, d);
    NothingMapped(top.local, LocalCoverage(top.global));
    if area.Some? { NothingMapped(top.local, area.value); }
  }

  lemma CollapsedRecordsNoList(e: Engine, st: Recorder, l: DisplayList, opacity: real)
    requires |st.stack| > 0 && |st.layers| > 0 && st.Top().local.matrix == COLLAPSED
    ensures Emits(e, st, ListCall(l, opacity)) == []
  {
    hide MapAndClip, AccumulateEach;
    var top := st.Top();
    NothingMapped(top.local, LocalCoverage(top.global));
    NothingMapped(top.local, l.bounds);
    if l.rtree.Some? {
      NoneMapped(top, TopSink(st), |st.records|, e.consolidate(l.rtree.value, LocalCoverage(top.global)));
    }
  }

  lemma {:induction false} RunSilenced(e: Engine, st: Recorder, n: nat, calls: seq<Call>)
    requires st.Sized() && Silenced(st.stack, n)
    requires forall k :: 0 <= k <= |calls| ==> |Run(e, st, calls[..k]).stack| > n
    ensures Silenced(Run(e, st, calls).stack, n)
  {
    hide Silenced, Step;
    if calls != [] {
      var front := calls[..|calls| - 1];
      assert forall k :: 0 <= k <= |front| ==> front[..k] == calls[..k];
      RunSilenced(e, st, n, front);
      assert calls[..|calls|] == calls;
      StepSilenced(e, Run(e, st, front), n, calls[|calls| - 1]);
    }
  }

  lemma ResetCollapses(st: Recorder)
    requires |st.stack| > 0 && !st.Top().global.matrix.Invertible()
    ensures var s := TransformStep(st, Reset);
            |s.stack| == |st.stack| && s.Top().global.matrix == IDENTITY && Silenced(s.stack, |st.stack| - 1)
  {
  }

  // After a reset under a matrix without inverse the matrix since the root is the identity again, but
  // whatever is called until the entry is popped, no draw and no nested list that would go into the
  // layer of the entry is recorded.
  lemma SingularResetSilences(e: Engine, st: Recorder, calls: seq<Call>)
    requires st.Sized() && !st.Top().global.matrix.Invertible()
    requires var s := TransformStep(st, Reset);
             s.Sized() && forall k :: 0 <= k <= |calls| ==> |Run(e, s, calls[..k]).stack| >= |st.stack|
    ensures var s := TransformStep(st, Reset);
            && s.Sized() && s.Top().global.matrix == IDENTITY
            && var r := Run(e, s, calls); |r.stack| >= |st.stack| && |r.layers| > 0
    ensures var r := Run(e, TransformStep(st, Reset), calls);
            SameLayer(r.stack, |st.stack| - 1, |r.stack| - 1) ==>
            && (forall d :: Emits(e, r, DrawCall(d)) == [])
            && (forall l, opacity :: Emits(e, r, ListCall(l, opacity)) == [])
  {
    hide Run, TransformStep, SameLayer, Silenced, LayerCount;
    var s := TransformStep(st, Reset);
    ResetCollapses(st);
    assert forall k :: 0 <= k <= |calls| ==> |Run(e, s, calls[..k]).stack| > |st.stack| - 1;
    RunSilenced(e, s, |st.stack| - 1, calls);
    assert calls[..|calls|] == calls;
    var r := Run(e, s, calls);
    LayerCountPositive(r.stack);
    if SameLayer(r.stack, |st.stack| - 1, |r.stack| - 1) {
      TopCollapsed(r.stack, |st.stack| - 1);
      forall d ensures Emits(e, r, DrawCall(d)) == [] { CollapsedRecordsNoDraw(e, r, d); }
      forall l, opacity ensures Emits(e, r, ListCall(l, opacity)) == [] { CollapsedRecordsNoList(e, r, l, opacity); }
    }
  }

  lemma TopCollapsed(stack: seq<Save>, n: nat)
    requires Silenced(stack, n) && SameLayer(stack, n, |stack| - 1)
    ensures stack[|stack| - 1].local.matrix == COLLAPSED
  {
  }
}
