/** How far the meaning theorem reaches: the program's own tracker meets its contract, and each of its
    conditions on draws, layers and clips is exactly the one under which the call keeps its meaning. */
module Limits {
  import opened Geometry
  import opened Painting
  import opened Blending
  import opened DisplayLists
  import opened Recorder
  import opened Emission
  import opened Matrices
  import opened Reference
  import opened Meaning
  import opened ClipTracker
  import Canvas

  // Playing what is built emits what playing the calls emits.
  ghost predicate Preserved(e: Engine, w: World, cull: Rect, prepareRTree: bool, calls: seq<Call>) {
    Play(w, Begin(w, cull), Dispatch(Build(e, cull, prepareRTree, calls).records)).events ==
    Closed(Play(w, Begin(w, cull), calls)).events
  }

  // It does so for the calls and for every continuation that keeps to the conditions.
  ghost predicate KeepsMeaning(e: Engine, w: World, cull: Rect, prepareRTree: bool, calls: seq<Call>) {
    forall more :: AdmissibleRun(w, Play(w, Begin(w, cull), calls), more) ==>
        Preserved(e, w, cull, prepareRTree, calls + more)
  }

  // ---------- the program's tracker ----------

  // With the tracker as it is, rounding and all, recording preserves meaning.
  lemma ProgramPreservesMeaning(rest: Engine, covers: (Tracker, Shape) -> bool, w: World,
                                cull: Rect, prepareRTree: bool, calls: seq<Call>)
    requires Fits(w) && SoundCovering(covers, w) && SoundAreas(rest, w) && SoundFilters(rest, w) && w.optics.Valid()
    requires AdmissibleRun(w, Begin(w, cull), calls)
    ensures Preserved(TrackerEngine(rest, covers, w.holes), w, cull, prepareRTree, calls)
  {
    hide Fits, SoundCovering, SoundAreas, SoundFilters, SoundEngine, TrackerEngine, AdmissibleRun;
    TrackerIsSound(rest, covers, w);
    RecordingPreservesMeaning(TrackerEngine(rest, covers, w.holes), w, cull, prepareRTree, calls);
  }

  // An image drawn without a paint, which fills its rectangle.
  function ImageAt(r: Rect): Op { Canvas.Recorded(Canvas.ImagePrim(r, false), 0) }

  ghost predicate FillsImages(w: World) {
    forall p, r, m, q :: w.footprint(p, ImageAt(r), m, q) <==> Inside(q, MapRect(m, r))
  }

  // A world in which everything is a rectangle and filters show nothing meets all that is asked of a world.
  ghost function RectWorld(o: Optics, outer: Matrix, e: Engine): World {
    World(o, outer, (s: Shape, m: Matrix, p: Point) => Inside(p, MapRect(m, s.bounds)),
          (s: Shape) => if s.kind == RectShape then [s.bounds] else [],
          (p: Paint, d: Op, m: Matrix, q: Point) =>
            d.boundsFlags.IgnoresPaint() && d.bounds.Some? && Inside(q, MapRect(m, d.bounds.value)),
          (l: DisplayList, m: Matrix, q: Point) => InList(l, m, q),
          (f: ImageFilter, m: Matrix, clip: iset<Point>) => iset{},
          (f: ImageFilter, m: Matrix) => e.inputBounds(f, m, EMPTY).Some?)
  }

  lemma RectanglesFit(o: Optics, outer: Matrix, e: Engine)
    requires forall f, m, r :: e.inputBounds(f, m, r).Some? <==> e.inputBounds(f, m, EMPTY).Some?
    ensures var w := RectWorld(o, outer, e); Fits(w) && FillsImages(w) && SoundAreas(e, w) && SoundFilters(e, w)
  {
    var w := RectWorld(o, outer, e);
    forall s: Shape, m, p | HitsHole(w, s, m, p) ensures w.inside(s, m, p) {
      var i :| 0 <= i < |w.holes(s)| && Inside(p, MapRect(m, w.holes(s)[i]));
    }
  }

  // ---------- continuations ----------

  // What is known after calls that keep to the conditions.
  lemma Reached(e: Engine, w: World, cull: Rect, prepareRTree: bool, calls: seq<Call>)
    requires SoundEngine(e, w) && w.optics.Valid() && AdmissibleRun(w, Begin(w, cull), calls)
    ensures RelatedAfter(e, w, cull, prepareRTree, calls)
  {
    hide SoundEngine, AdmissibleRun, Start, Run, Play, Related;
    var start := Start(cull, prepareRTree);
    StartEmpty(cull, prepareRTree);
    NothingPlayed(w, Begin(w, cull));
    StartRelated(w, cull, prepareRTree);
    RunKeepsMeaning(e, w, start, Begin(w, cull), Begin(w, cull), calls);
  }

  // The recorder, the interpreter of the calls and that of the records so far.
  ghost predicate RelatedAfter(e: Engine, w: World, cull: Rect, prepareRTree: bool, calls: seq<Call>) {
    var st := Run(e, Start(cull, prepareRTree), calls);
    Related(w, st, Play(w, Begin(w, cull), calls), Play(w, Begin(w, cull), Skeleton(st.records)))
  }

  // From there on, meaning is kept for every continuation.
  lemma RelatedKeepsMeaning(e: Engine, w: World, cull: Rect, prepareRTree: bool, calls: seq<Call>)
    requires SoundEngine(e, w) && w.optics.Valid() && RelatedAfter(e, w, cull, prepareRTree, calls)
    ensures KeepsMeaning(e, w, cull, prepareRTree, calls)
  {
    hide SoundEngine, Preserved, Run, Play, Start, Related;
    var st := Run(e, Start(cull, prepareRTree), calls);
    forall more | AdmissibleRun(w, Play(w, Begin(w, cull), calls), more)
      ensures Preserved(e, w, cull, prepareRTree, calls + more)
    {
      RunKeepsMeaning(e, w, st, Play(w, Begin(w, cull), calls), Begin(w, cull), more);
      RunConcat(e, Start(cull, prepareRTree), calls, more);
      PlayConcat(w, Begin(w, cull), calls, more);
      RelatedIsPreserved(e, w, cull, prepareRTree, calls + more);
    }
  }

  lemma RelatedIsPreserved(e: Engine, w: World, cull: Rect, prepareRTree: bool, calls: seq<Call>)
    requires RelatedAfter(e, w, cull, prepareRTree, calls)
    ensures Preserved(e, w, cull, prepareRTree, calls)
  {
    hide Run, Play, Start, Related, Closed, Finish, Skeleton;
    var st := Run(e, Start(cull, prepareRTree), calls);
    FinishKeepsMeaning(e, w, st, Play(w, Begin(w, cull), calls), Begin(w, cull));
    var f := Finish(e, st);
    RelatedEvents(w, f, Closed(Play(w, Begin(w, cull), calls)), Play(w, Begin(w, cull), Skeleton(f.records)));
    SamePlay(w, Begin(w, cull), f.records);
    LayerCountPositive(f.stack);
  }

  // One more call that keeps to the conditions.
  lemma OneMoreKeeps(e: Engine, w: World, cull: Rect, prepareRTree: bool, calls: seq<Call>, c: Call)
    requires SoundEngine(e, w) && w.optics.Valid() && AdmissibleRun(w, Begin(w, cull), calls)
    requires Admissible(w, Play(w, Begin(w, cull), calls), c)
    ensures KeepsMeaning(e, w, cull, prepareRTree, calls + [c])
  {
    hide SoundEngine, AdmissibleRun, Admissible, KeepsMeaning, Play, RelatedAfter;
    AdmissibleConcat(w, Begin(w, cull), calls, [c]);
    AdmissibleOne(w, Play(w, Begin(w, cull), calls), c);
    Reached(e, w, cull, prepareRTree, calls + [c]);
    RelatedKeepsMeaning(e, w, cull, prepareRTree, calls + [c]);
  }

  // ---------- calls that are lost ----------

  // How many events closing what is open adds.
  ghost function OpenCount(frames: seq<Frame>): nat {
    if |frames| <= 1 then 0
    else OpenCount(frames[..|frames| - 1]) + if frames[|frames| - 1].open then 1 else 0
  }

  lemma {:induction false} ClosedCount(s: Screen)
    requires s.Valid()
    ensures |Closed(s).events| == |s.events| + OpenCount(s.frames)
    decreases |s.frames|
  {
    if |s.frames| > 1 {
      ClosedCount(s.(frames := s.frames[..|s.frames| - 1],
                     events := if s.Top().open then s.events + [CloseEvent] else s.events));
    }
  }

  // Two runs that build the same records but emit different numbers of events are not both preserved.
  lemma SameBuildDifferentMeaning(e: Engine, w: World, cull: Rect, prepareRTree: bool, x: seq<Call>, y: seq<Call>)
    requires Skeleton(Build(e, cull, prepareRTree, x).records) == Skeleton(Build(e, cull, prepareRTree, y).records)
    requires |Closed(Play(w, Begin(w, cull), x)).events| != |Closed(Play(w, Begin(w, cull), y)).events|
    ensures !(Preserved(e, w, cull, prepareRTree, x) && Preserved(e, w, cull, prepareRTree, y))
  {
    hide Build, Play, Closed, Skeleton, Dispatch;
    SamePlay(w, Begin(w, cull), Build(e, cull, prepareRTree, x).records);
    SamePlay(w, Begin(w, cull), Build(e, cull, prepareRTree, y).records);
  }

  // The recorder has the same entries and, but for what restores patch, the same records.
  predicate SameSoFar(a: Recorder, b: Recorder) { a.stack == b.stack && Skeleton(a.records) == Skeleton(b.records) }

  lemma {:induction false} FinishAlike(e: Engine, a: Recorder, b: Recorder)
    requires a.Sized() && b.Sized() && SameSoFar(a, b)
    ensures Skeleton(Finish(e, a).records) == Skeleton(Finish(e, b).records)
    decreases |a.stack|
  {
    hide Skeleton, RestoreStep, LayerCount;
    if |a.stack| > 1 {
      RestoreEmits(e, a);
      RestoreEmits(e, b);
      RestorePaint(e, a);
      RestorePaint(e, b);
      RestoreSized(e, a);
      RestoreSized(e, b);
      FinishAlike(e, RestoreStep(e, a), RestoreStep(e, b));
    }
  }

  // A visible draw or list that leaves the recorder's entries and records as they were is lost.
  lemma LostCall(e: Engine, w: World, cull: Rect, prepareRTree: bool, calls: seq<Call>, c: Call)
    requires var st := Run(e, Start(cull, prepareRTree), calls); SameSoFar(Step(e, st, c), st)
    requires var s := Play(w, Begin(w, cull), calls);
             PlayOne(w, s, c).frames == s.frames && |PlayOne(w, s, c).events| == |s.events| + 1
    ensures !(Preserved(e, w, cull, prepareRTree, calls) && Preserved(e, w, cull, prepareRTree, calls + [c]))
  {
    hide Step, Play, PlayOne, Run, Closed, Finish, Start, Skeleton;
    var s, st := Play(w, Begin(w, cull), calls), Run(e, Start(cull, prepareRTree), calls);
    RunAppend(e, Start(cull, prepareRTree), calls, c);
    BuiltSkeleton(e, cull, prepareRTree, calls);
    BuiltSkeleton(e, cull, prepareRTree, calls + [c]);
    StepSized(e, st, c);
    FinishAlike(e, Step(e, st, c), st);
    PlayAppend(w, Begin(w, cull), calls, c);
    ClosedCount(s);
    ClosedCount(PlayOne(w, s, c));
    SameBuildDifferentMeaning(e, w, cull, prepareRTree, calls + [c], calls);
  }

  lemma BuiltSkeleton(e: Engine, cull: Rect, prepareRTree: bool, calls: seq<Call>)
    ensures Build(e, cull, prepareRTree, calls).records == Finish(e, Run(e, Start(cull, prepareRTree), calls)).records
  {
    hide Run, Start, Finish;
    LayerCountPositive(Finish(e, Run(e, Start(cull, prepareRTree), calls)).stack);
  }

  // So the calls before it are not kept for every continuation, if it keeps to the conditions itself.
  lemma LostNext(e: Engine, w: World, cull: Rect, prepareRTree: bool, calls: seq<Call>, c: Call)
    requires var st := Run(e, Start(cull, prepareRTree), calls); SameSoFar(Step(e, st, c), st)
    requires var s := Play(w, Begin(w, cull), calls);
             && PlayOne(w, s, c).frames == s.frames && |PlayOne(w, s, c).events| == |s.events| + 1
             && Admissible(w, s, c)
    ensures !KeepsMeaning(e, w, cull, prepareRTree, calls)
  {
    hide Preserved, Play, Step, PlayOne, Run, Start, SameSoFar, Admissible;
    LostCall(e, w, cull, prepareRTree, calls, c);
    AdmissibleOne(w, Play(w, Begin(w, cull), calls), c);
    assert calls + [] == calls;
  }

  lemma KeptItself(e: Engine, w: World, cull: Rect, prepareRTree: bool, calls: seq<Call>)
    ensures KeepsMeaning(e, w, cull, prepareRTree, calls) ==> Preserved(e, w, cull, prepareRTree, calls)
  {
    hide Preserved, Play;
    assert AdmissibleRun(w, Play(w, Begin(w, cull), calls), []);
    assert calls + [] == calls;
  }

  // And a lost call itself does not keep meaning, if those before it do.
  lemma LostLast(e: Engine, w: World, cull: Rect, prepareRTree: bool, calls: seq<Call>, c: Call)
    requires RelatedAfter(e, w, cull, prepareRTree, calls)
    requires var st := Run(e, Start(cull, prepareRTree), calls); SameSoFar(Step(e, st, c), st)
    requires var s := Play(w, Begin(w, cull), calls);
             PlayOne(w, s, c).frames == s.frames && |PlayOne(w, s, c).events| == |s.events| + 1
    ensures !KeepsMeaning(e, w, cull, prepareRTree, calls + [c])
  {
    hide Preserved, Play, Step, PlayOne, Run, Start, SameSoFar, RelatedAfter, KeepsMeaning;
    RelatedIsPreserved(e, w, cull, prepareRTree, calls);
    LostCall(e, w, cull, prepareRTree, calls, c);
    KeptItself(e, w, cull, prepareRTree, calls + [c]);
  }

  // ---------- draws and nested lists ----------

  lemma GapMeansNoEffect(o: Optics, p: Paint, f: Flags)
    requires NoEffectGap(o, p, f) && f.blend
    ensures PaintResult(false, p, f) == NoEffect
  {
  }

  // Under a matrix without inverse neither a draw nor a nested list is recorded.
  lemma SingularRecordsNothing(e: Engine, st: Recorder, c: Call)
    requires |st.stack| > 0 && |st.layers| > 0 && !st.Top().global.matrix.Invertible() && (c.DrawCall? || c.ListCall?)
    ensures Emits(e, st, c) == []
  {
    hide PaintResult, Area, SkipsList;
    var top := st.Top();
    NothingFlooded(top, TopSink(st), |st.records|);
    if c.DrawCall? {
      var area := Area(e, st.paint, c.draw);
      if area.Some? { MapNonEmpty(top.global.matrix, area.value); }
    } else {
      MapNonEmpty(top.global.matrix, c.list.bounds);
      if c.list.rtree.Some? {
        NoneMeet(top, TopSink(st), |st.records|, e.consolidate(c.list.rtree.value, LocalCoverage(top.global)));
      }
    }
  }

  lemma NothingFlooded(s: Save, k: Sink, id: nat)
    requires !s.global.matrix.Invertible()
    ensures !AccumulateUnbounded(s, k, id).1
  {
  }

  lemma {:induction false} NoneMeet(s: Save, k: Sink, id: nat, rs: seq<Rect>)
    requires !s.global.matrix.Invertible()
    ensures !AccumulateEach(s, k, id, rs).1
  {
    if rs != [] {
      NoneMeet(s, k, id, rs[..|rs| - 1]);
      MapNonEmpty(s.global.matrix, rs[|rs| - 1]);
    }
  }

  // A draw or list that is not recorded leaves entries and records as they were.
  lemma UnrecordedKeeps(e: Engine, st: Recorder, c: Call)
    requires st.Sized() && |st.layers| > 0 && (c.DrawCall? || c.ListCall?) && Emits(e, st, c) == []
    ensures SameSoFar(Step(e, st, c), st)
  {
    hide Step, Skeleton, Emits;
    StepEmits(e, st, c);
    DrawsKeepStack(e, st, c);
    NothingEmitted(st.records);
  }

  lemma RelatedTop(w: World, st: Recorder, s: Screen, replayed: Screen)
    requires Related(w, st, s, replayed)
    ensures st.Sized() && |st.layers| > 0 && s.Valid() && s.paint == st.paint
    ensures s.Top().matrix == st.Top().global.matrix && (st.Top().nop ==> Silent(s.Top()))
  {
    hide FramesRelated, LayerCount;
    TopFacts(w, st, s, replayed);
    LayerCountPositive(st.stack);
  }

  // A draw keeps its meaning exactly when it does not show, or shows under a matrix with an inverse and with a
  // paint of which the analysis is right.
  lemma DrawsAreExact(e: Engine, w: World, cull: Rect, prepareRTree: bool, calls: seq<Call>, d: Op)
    requires SoundEngine(e, w) && w.optics.Valid() && AdmissibleRun(w, Begin(w, cull), calls)
    requires var s := Play(w, Begin(w, cull), calls); d.flags.blend ==> EffectPaint(s.paint, d).color.Valid()
    ensures var s := Play(w, Begin(w, cull), calls);
            KeepsMeaning(e, w, cull, prepareRTree, calls + [DrawCall(d)]) <==>
            (ShowsDraw(w, s.Top(), s.paint, d) ==> s.Top().matrix.Invertible() && !DrawGap(w, s.paint, d))
  {
    hide SoundEngine, AdmissibleRun, Start, Run, Play, KeepsMeaning, ShowsDraw, SameSoFar, Related, NoEffectGap;
    hide Emits, Step;
    var s, st := Play(w, Begin(w, cull), calls), Run(e, Start(cull, prepareRTree), calls);
    var c := DrawCall(d);
    if Admissible(w, s, c) {
      OneMoreKeeps(e, w, cull, prepareRTree, calls, c);
    } else {
      Reached(e, w, cull, prepareRTree, calls);
      RelatedTop(w, st, s, Play(w, Begin(w, cull), Skeleton(st.records)));
      if s.Top().matrix.Invertible() { GapRecordsNothing(e, w, st, d); } else { SingularRecordsNothing(e, st, c); }
      UnrecordedKeeps(e, st, c);
      LostLast(e, w, cull, prepareRTree, calls, c);
    }
  }

  lemma GapRecordsNothing(e: Engine, w: World, st: Recorder, d: Op)
    requires |st.stack| > 0 && |st.layers| > 0 && DrawGap(w, st.paint, d)
    ensures Emits(e, st, DrawCall(d)) == []
  {
    hide NoEffectGap, Area, AccumulateArea;
    GapMeansNoEffect(w.optics, EffectPaint(st.paint, d), d.flags);
  }

  // A nested list does exactly when it does not show, or shows under a matrix with an inverse.
  lemma ListsAreExact(e: Engine, w: World, cull: Rect, prepareRTree: bool, calls: seq<Call>, l: DisplayList, o: real)
    requires SoundEngine(e, w) && w.optics.Valid() && AdmissibleRun(w, Begin(w, cull), calls)
    ensures var s := Play(w, Begin(w, cull), calls);
            KeepsMeaning(e, w, cull, prepareRTree, calls + [ListCall(l, o)]) <==>
            (ShowsList(w, s.Top(), l, o) ==> s.Top().matrix.Invertible())
  {
    hide SoundEngine, AdmissibleRun, Start, Run, Play, KeepsMeaning, ShowsList, SameSoFar, Related;
    var s, st, c := Play(w, Begin(w, cull), calls), Run(e, Start(cull, prepareRTree), calls), ListCall(l, o);
    if Admissible(w, s, c) {
      OneMoreKeeps(e, w, cull, prepareRTree, calls, c);
    } else {
      hide Emits, Step;
      Reached(e, w, cull, prepareRTree, calls);
      RelatedTop(w, st, s, Play(w, Begin(w, cull), Skeleton(st.records)));
      SingularRecordsNothing(e, st, c);
      UnrecordedKeeps(e, st, c);
      LostLast(e, w, cull, prepareRTree, calls, c);
    }
  }

  // ---------- resets ----------

  // A reset does exactly when the matrix has an inverse, or nothing can show.
  lemma ResetsAreExact(e: Engine, w: World, cull: Rect, prepareRTree: bool, calls: seq<Call>)
    requires SoundEngine(e, w) && FillsImages(w) && w.optics.Valid() && AdmissibleRun(w, Begin(w, cull), calls)
    ensures var s := Play(w, Begin(w, cull), calls);
            KeepsMeaning(e, w, cull, prepareRTree, calls + [TransformCall(Reset)]) <==>
            s.Top().matrix.Invertible() || Silent(s.Top())
  {
    hide SoundEngine, FillsImages, AdmissibleRun, Start, Run, Play, KeepsMeaning, SameSoFar, Related, Silent;
    var s, st := Play(w, Begin(w, cull), calls), Run(e, Start(cull, prepareRTree), calls);
    if s.Top().matrix.Invertible() || Silent(s.Top()) {
      OneMoreKeeps(e, w, cull, prepareRTree, calls, TransformCall(Reset));
    } else {
      Reached(e, w, cull, prepareRTree, calls);
      SingularResetLost(e, w, cull, prepareRTree, calls);
    }
  }

  lemma SingularResetLost(e: Engine, w: World, cull: Rect, prepareRTree: bool, calls: seq<Call>)
    requires RelatedAfter(e, w, cull, prepareRTree, calls) && FillsImages(w)
    requires var s := Play(w, Begin(w, cull), calls); !s.Top().matrix.Invertible() && !Silent(s.Top())
    ensures !KeepsMeaning(e, w, cull, prepareRTree, calls + [TransformCall(Reset)])
  {
    hide FillsImages, Start, Run, Play, KeepsMeaning, SameSoFar, Related, TransformStep, ImageAt, ShowsDraw, PlayOne;
    var s, st := Play(w, Begin(w, cull), calls), Run(e, Start(cull, prepareRTree), calls);
    var replayed, c := Play(w, Begin(w, cull), Skeleton(st.records)), TransformCall(Reset);
    RelatedTop(w, st, s, replayed);
    var p :| p in s.Top().clip;
    OuterInvertible(w, st, s, replayed, p);
    var r := AroundPoint(w.outer, p);
    ResetCollapses(st);
    RunAppend(e, Start(cull, prepareRTree), calls, c);
    PlayAppend(w, Begin(w, cull), calls, c);
    AfterReset(w, s);
    var st', s' := Step(e, st, c), PlayOne(w, s, c);
    StepSized(e, st, c);
    LayerCountPositive(st'.stack);
    TopCollapsed(st'.stack, |st'.stack| - 1);
    CollapsedRecordsNoDraw(e, st', ImageAt(r));
    UnrecordedKeeps(e, st', DrawCall(ImageAt(r)));
    ImageShows(w, s', r, p);
    LostNext(e, w, cull, prepareRTree, calls + [c], DrawCall(ImageAt(r)));
  }

  lemma AfterReset(w: World, s: Screen)
    requires s.Valid()
    ensures PlayOne(w, s, TransformCall(Reset)).Top() == s.Top().(matrix := IDENTITY) && w.At(IDENTITY) == w.outer
  {
    ComposeIdentity(w.outer);
  }

  // Where something can show, the outer matrix has an inverse.
  lemma OuterInvertible(w: World, st: Recorder, s: Screen, replayed: Screen, p: Point)
    requires Related(w, st, s, replayed) && !s.Top().dead && p in s.Top().clip
    ensures w.outer.Invertible() && !st.Top().nop
    ensures var base := Base(st.stack, |st.stack| - 1); Linked(st.Top(), base) && Seen(w, st.Top(), base, p)
  {
    hide FramesRelated, Related, Seen, Linked;
    RelatedTop(w, st, s, replayed);
    TopSees(w, st, s, replayed, p);
    SeenOuter(w, st.Top(), Base(st.stack, |st.stack| - 1), p);
  }

  lemma SeenOuter(w: World, s: Save, base: Matrix, p: Point)
    requires Seen(w, s, base, p)
    ensures w.outer.Invertible()
  {
    if !w.outer.Invertible() { SingularCoversNothing(w.outer, s.global.cull, p); }
  }

  // A rectangle that maps onto the point.
  lemma AroundPoint(m: Matrix, p: Point) returns (r: Rect)
    requires m.Invertible()
    ensures !r.IsEmpty() && Inside(p, MapRect(m, r))
  {
    AroundValue(m.x, p.x);
    AroundValue(m.y, p.y);
    var x: Span :| !x.Empty() && Within(p.x, MapSpan(m.x, x));
    var y: Span :| !y.Empty() && Within(p.y, MapSpan(m.y, y));
    r := Rect(x, y);
  }

  // An image over a point where something can show is shown, and keeps to the conditions.
  lemma ImageShows(w: World, s: Screen, r: Rect, q: Point)
    requires FillsImages(w) && s.Valid() && !s.Top().dead && q in s.Top().clip && s.Top().matrix.Invertible()
    requires Inside(q, MapRect(w.At(s.Top().matrix), r))
    ensures var c := DrawCall(ImageAt(r)); var s' := PlayOne(w, s, c);
            Admissible(w, s, c) && s'.frames == s.frames && |s'.events| == |s.events| + 1
    ensures ShowsDraw(w, s.Top(), s.paint, ImageAt(r))
  {
    assert w.footprint(s.paint, ImageAt(r), w.At(s.Top().matrix), q);
  }

  // ---------- layers ----------

  // The part of one axis that maps to what lies before, or from, a value outside a mapped span.
  lemma BeyondSpan(a: Axis, s: Span, v: real)
    requires a.scale != 0.0 && !s.Empty() && !Within(v, MapSpan(a, s))
    ensures exists t: Span :: !t.Empty() && Apart(t, s) && Within(v, MapSpan(a, t))
  {
    hide MapSpan, Apart;
    var m := MapSpan(a, s);
    MapSpanEmpty(a, s);
    var u := BeyondMapped(a, s, v);
    var i := InverseAxis(a);
    assert i.scale != 0.0;
    MapSpanApart(i, u, m);
    BackAndForth(a, s);
    ForthAndBack(a, u);
    MapSpanEmpty(i, u);
    var t := MapSpan(i, u);
    assert !t.Empty() && Apart(t, s) && Within(v, MapSpan(a, t));
  }

  lemma BeyondMapped(a: Axis, s: Span, v: real) returns (u: Span)
    requires !s.Empty() && !Within(v, MapSpan(a, s))
    ensures !u.Empty() && Apart(u, MapSpan(a, s)) && Within(v, u)
  {
    var m := MapSpan(a, s);
    u := if v < m.lo then Span(v, m.lo) else Span(m.hi, v + 1.0);
  }

  lemma BackAndForth(a: Axis, s: Span)
    requires a.scale != 0.0 && !s.Empty()
    ensures MapSpan(InverseAxis(a), MapSpan(a, s)) == s
  {
    InverseOfAxis(a);
    MapSpanCompose(InverseAxis(a), a, s);
    MapSpanIdentity(s);
  }

  lemma ForthAndBack(a: Axis, s: Span)
    requires a.scale != 0.0 && !s.Empty()
    ensures MapSpan(a, MapSpan(InverseAxis(a), s)) == s
  {
    AxisInverse(a);
    MapSpanCompose(a, InverseAxis(a), s);
    MapSpanIdentity(s);
  }

  lemma InverseOfAxis(a: Axis)
    requires a.scale != 0.0
    ensures ComposeAxis(InverseAxis(a), a) == Axis(1.0, 0.0)
  {
    InverseCompose(Matrix(a, a));
  }

  lemma AroundValue(a: Axis, v: real)
    requires a.scale != 0.0
    ensures exists t: Span :: !t.Empty() && Within(v, MapSpan(a, t))
  {
    var u := Span(v, v + 1.0);
    ForthAndBack(a, u);
    assert InverseAxis(a).scale != 0.0;
    MapSpanEmpty(InverseAxis(a), u);
    var t := MapSpan(InverseAxis(a), u);
    assert !t.Empty() && Within(v, MapSpan(a, t));
  }

  // A rectangle apart from another one that maps onto a point which the other one does not reach.
  lemma BeyondRect(m: Matrix, r: Rect, p: Point) returns (far: Rect)
    requires m.Invertible() && !r.IsEmpty() && !Inside(p, MapRect(m, r))
    ensures !far.IsEmpty() && !Intersects(far, r) && Inside(p, MapRect(m, far))
  {
    if !Within(p.x, MapSpan(m.x, r.x)) {
      BeyondSpan(m.x, r.x, p.x);
      AroundValue(m.y, p.y);
      var x: Span :| !x.Empty() && Apart(x, r.x) && Within(p.x, MapSpan(m.x, x));
      var y: Span :| !y.Empty() && Within(p.y, MapSpan(m.y, y));
      far := Rect(x, y);
    } else {
      BeyondSpan(m.y, r.y, p.y);
      AroundValue(m.x, p.x);
      var x: Span :| !x.Empty() && Within(p.x, MapSpan(m.x, x));
      var y: Span :| !y.Empty() && Apart(y, r.y) && Within(p.y, MapSpan(m.y, y));
      far := Rect(x, y);
    }
  }

  // In a layer that has just begun, an image beyond the largest cull rectangle is not recorded.
  lemma FarImageDropped(e: Engine, st: Recorder, far: Rect)
    requires st.Sized() && |st.layers| > 0 && st.Top().local == Tracker(IDENTITY, MAX_CULL)
    requires !far.IsEmpty() && !Intersects(far, MAX_CULL)
    ensures Emits(e, st, DrawCall(ImageAt(far))) == [] && Step(e, st, DrawCall(ImageAt(far))) == st
  {
    hide MapAndClip, LayerCount, PaintResult;
    FarIsClipped(far);
    DrainNothing(st);
  }

  lemma FarIsClipped(far: Rect)
    requires !far.IsEmpty() && !Intersects(far, MAX_CULL)
    ensures MapAndClip(Tracker(IDENTITY, MAX_CULL), far).IsEmpty()
  {
    MapIdentity(far);
  }

  // A layer that shows, under a matrix with an inverse, keeps its meaning exactly when what can show of its
  // content lies in the rectangles that its trackers start with and the analysis of its paint is right.
  lemma LayersAreExact(e: Engine, w: World, cull: Rect, prepareRTree: bool, calls: seq<Call>, c: Call)
    requires SoundEngine(e, w) && FillsImages(w) && w.optics.Valid() && AdmissibleRun(w, Begin(w, cull), calls)
    requires c.LayerCall? && !c.fromCaller && Play(w, Begin(w, cull), calls).Top().matrix.Invertible()
    requires var s := Play(w, Begin(w, cull), calls);
             c.withPaint ==> s.paint.color.Valid()
    ensures var s := Play(w, Begin(w, cull), calls);
            KeepsMeaning(e, w, cull, prepareRTree, calls + [c]) <==>
            (ShowsLayer(w, s.Top(), s.paint, c.withPaint) ==>
               && FitsLayer(w, LayerFrame(w, s, c.withPaint)) && FitsFilter(w, s.Top(), s.paint, c.withPaint)
               && !LayerGap(w, s.paint, c.withPaint))
  {
    hide SoundEngine, FillsImages, AdmissibleRun, Start, Run, Play, KeepsMeaning, ShowsLayer, FitsLayer, FitsFilter,
         LayerFrame, LayerGap, RelatedAfter;
    var s := Play(w, Begin(w, cull), calls);
    if Admissible(w, s, c) {
      OneMoreKeeps(e, w, cull, prepareRTree, calls, c);
    } else {
      Reached(e, w, cull, prepareRTree, calls);
      if LayerGap(w, s.paint, c.withPaint) {
        GapLayerLost(e, w, cull, prepareRTree, calls, c);
      } else {
        FiltersSound(e, w);
        FarLayerLost(e, w, cull, prepareRTree, calls, c);
      }
    }
  }

  lemma FiltersSound(e: Engine, w: World)
    requires SoundEngine(e, w)
    ensures SoundFilters(e, w)
  {
    hide SoundNarrowing, SoundCovering, SoundConsolidation, SoundAreas, SoundFilters;
  }

  lemma GapLayerLost(e: Engine, w: World, cull: Rect, prepareRTree: bool, calls: seq<Call>, c: Call)
    requires RelatedAfter(e, w, cull, prepareRTree, calls) && c.LayerCall?
    requires var s := Play(w, Begin(w, cull), calls);
             ShowsLayer(w, s.Top(), s.paint, c.withPaint) && LayerGap(w, s.paint, c.withPaint)
    ensures !KeepsMeaning(e, w, cull, prepareRTree, calls + [c])
  {
    hide Start, Run, Play, KeepsMeaning, ShowsLayer, NoEffectGap, Related;
    var s, st := Play(w, Begin(w, cull), calls), Run(e, Start(cull, prepareRTree), calls);
    RelatedTop(w, st, s, Play(w, Begin(w, cull), Skeleton(st.records)));
    GapMeansNoEffect(w.optics, s.paint, LayerFlags(c.withPaint));
    NothingBuilt(e, cull, prepareRTree, calls, c);
    PlayAppend(w, Begin(w, cull), calls, c);
    ClosedCount(s);
    ClosedCount(PlayOne(w, s, c));
    assert PlayOne(w, s, c).frames[..|s.frames|] == s.frames;
    SameBuildDifferentMeaning(e, w, cull, prepareRTree, calls + [c], calls);
    RelatedIsPreserved(e, w, cull, prepareRTree, calls);
    KeptItself(e, w, cull, prepareRTree, calls + [c]);
  }

  // A layer call that is judged to have no effect leaves nothing behind if nothing follows.
  lemma NothingBuilt(e: Engine, cull: Rect, prepareRTree: bool, calls: seq<Call>, c: Call)
    requires c.LayerCall?
    requires var st := Run(e, Start(cull, prepareRTree), calls);
             PaintResult(st.Top().nop, st.paint, LayerFlags(c.withPaint)) == NoEffect
    ensures Build(e, cull, prepareRTree, calls + [c]) == Build(e, cull, prepareRTree, calls)
  {
    hide Start, PaintResult, Run, Step, Finish, Built;
    var st := Run(e, Start(cull, prepareRTree), calls);
    RunAppend(e, Start(cull, prepareRTree), calls, c);
    NopPopped(e, st, c);
  }

  lemma NopPopped(e: Engine, st: Recorder, c: Call)
    requires st.Sized() && c.LayerCall? && PaintResult(st.Top().nop, st.paint, LayerFlags(c.withPaint)) == NoEffect
    ensures Step(e, st, c).Sized() && Finish(e, Step(e, st, c)) == Finish(e, st)
  {
    hide PaintResult, LayerCount;
    LayerCountPositive(st.stack);
    StepSized(e, st, c);
    var st' := Step(e, st, c);
    assert st'.stack == st.stack + [st'.Top()] && st'.Top().deferred && !st'.Top().isLayer;
    assert RestoreStep(e, st') == st by { assert st'.stack[..|st'.stack| - 1] == st.stack; }
  }

  lemma FarLayerLost(e: Engine, w: World, cull: Rect, prepareRTree: bool, calls: seq<Call>, c: Call)
    requires SoundFilters(e, w)
    requires RelatedAfter(e, w, cull, prepareRTree, calls) && FillsImages(w) && w.optics.Valid()
    requires c.LayerCall? && !c.fromCaller
    requires var s := Play(w, Begin(w, cull), calls);
             && s.Top().matrix.Invertible() && (c.withPaint ==> s.paint.color.Valid())
             && ShowsLayer(w, s.Top(), s.paint, c.withPaint) && !LayerGap(w, s.paint, c.withPaint)
             && !(FitsLayer(w, LayerFrame(w, s, c.withPaint)) && FitsFilter(w, s.Top(), s.paint, c.withPaint))
    ensures !KeepsMeaning(e, w, cull, prepareRTree, calls + [c])
  {
    hide FillsImages, Start, Run, Play, KeepsMeaning, Related, LayerStep, NoEffectGap, Compose, SameSoFar, Emits, Seen;
    hide HasEffect, PaintResult, ImageAt, ShowsDraw, LayerCount, DrawGap, SoundFilters, LayerClip, InputCull, Linked;
    var s, st := Play(w, Begin(w, cull), calls), Run(e, Start(cull, prepareRTree), calls);
    var replayed := Play(w, Begin(w, cull), Skeleton(st.records));
    var inner := LayerFrame(w, s, c.withPaint);
    var p := BeyondLayer(w, s, c.withPaint);
    RelatedTop(w, st, s, replayed);
    var q :| q in s.Top().clip;
    OuterInvertible(w, st, s, replayed, q);
    ShownLayerMade(w, st, s, replayed, c);
    LayerPushed(e, st, c);
    RunAppend(e, Start(cull, prepareRTree), calls, c);
    PlayAppend(w, Begin(w, cull), calls, c);
    var st', s' := Step(e, st, c), PlayOne(w, s, c);
    StepSized(e, st, c);
    LayerCountPositive(st'.stack);
    LayerMisses(e, w, st, s, replayed, st'.Top(), c.withPaint, p);
    var r := HiddenImage(e, w, st'.Top(), s.Top().matrix, p);
    MissedImage(e, st', r);
    UnrecordedKeeps(e, st', DrawCall(ImageAt(r)));
    ImageShows(w, s', r, p);
    LostNext(e, w, cull, prepareRTree, calls + [c], DrawCall(ImageAt(r)));
  }

  // A point of the layer's content that can show, but is not in the rectangles that the layer starts with.
  lemma BeyondLayer(w: World, s: Screen, withPaint: bool) returns (p: Point)
    requires s.Valid()
    requires !(FitsLayer(w, LayerFrame(w, s, withPaint)) && FitsFilter(w, s.Top(), s.paint, withPaint))
    ensures p in LayerFrame(w, s, withPaint).clip
    ensures !InBase(w.At(s.Top().matrix), MAX_CULL, p)
            || (withPaint && s.paint.imageFilter.Some? && !w.hasBounds(s.paint.imageFilter.value, s.Top().matrix)
                && !InBase(w.outer, MAX_CULL, p))
  {
    hide LayerClip, HasEffect;
    if !FitsLayer(w, LayerFrame(w, s, withPaint)) {
      p :| p in LayerFrame(w, s, withPaint).clip && !InBase(w.At(s.Top().matrix), MAX_CULL, p);
    } else {
      p :| p in LayerClip(w, s.Top(), s.paint, withPaint) && !InBase(w.outer, MAX_CULL, p);
    }
  }

  // The entry of the layer does not see such a point, though its rectangles are not empty.
  lemma LayerMisses(e: Engine, w: World, st: Recorder, s: Screen, replayed: Screen, entry: Save, withPaint: bool,
                    p: Point)
    requires SoundFilters(e, w) && Related(w, st, s, replayed) && !st.Top().nop
    requires ShowsLayer(w, s.Top(), s.paint, withPaint) && p in LayerFrame(w, s, withPaint).clip
    requires entry.local == Tracker(IDENTITY, MAX_CULL)
    requires entry.global == Tracker(st.Top().global.matrix, InputCull(e, LayerFilter(st, withPaint), st.Top().global))
    requires !InBase(w.At(s.Top().matrix), MAX_CULL, p)
             || (withPaint && s.paint.imageFilter.Some? && !w.hasBounds(s.paint.imageFilter.value, s.Top().matrix)
                 && !InBase(w.outer, MAX_CULL, p))
    ensures Linked(entry, s.Top().matrix) && !Seen(w, entry, s.Top().matrix, p)
    ensures !entry.global.cull.IsEmpty() && !entry.local.cull.IsEmpty()
  {
    hide FramesRelated, LayerClip, HasEffect, Compose, MapRect;
    RelatedTop(w, st, s, replayed);
    var q :| q in s.Top().clip;
    OuterInvertible(w, st, s, replayed, q);
    ComposeIdentity(s.Top().matrix);
    assert st.paint == s.paint && st.Top().global.matrix == s.Top().matrix;
    if entry.global.cull.IsEmpty() {
      EmptyCoversNothing(w.outer, entry.global.cull, p);
      EmptyCoversNothing(w.outer, entry.global.cull, q);
    }
    var filter := LayerFilter(st, withPaint);
    if filter.Some? && w.hasBounds(filter.value, s.Top().matrix) {
      forall v | v in s.Top().clip ensures InBase(w.outer, st.Top().global.cull, v) {
        OuterInvertible(w, st, s, replayed, v);
      }
      InputSeen(e, w, st.Top().global, s.Top(), s.paint, withPaint, p);
    } else if filter.None? {
      assert InBase(w.outer, entry.global.cull, q);
    }
  }

  lemma ShownLayerMade(w: World, st: Recorder, s: Screen, replayed: Screen, c: Call)
    requires w.optics.Valid() && Related(w, st, s, replayed) && c.LayerCall?
    requires ShowsLayer(w, s.Top(), s.paint, c.withPaint) && !LayerGap(w, s.paint, c.withPaint)
    requires c.withPaint ==> s.paint.color.Valid()
    ensures MakesLayer(st, c.withPaint)
  {
    hide FramesRelated, NoEffectGap;
    TopFacts(w, st, s, replayed);
    if !MakesLayer(st, c.withPaint) {
      NoEffectSound(w.optics, st.paint, LayerFlags(c.withPaint));
    }
  }

  // An example in the program's largest cull rectangle: at half the scale there is room for content
  // beyond the largest cull rectangle of a layer. It is recorded outside a layer, and lost in one.
  const HALF: Call := TransformCall(ScaleBy(0.5, 1.0))
  const PLAIN_LAYER: Call := LayerCall(EMPTY, false, false, None)
  const FAR: Rect := LTRB(1500000000.0, 0.0, 1600000000.0, 10.0)

  lemma FarContentIsLost(e: Engine, w: World, prepareRTree: bool)
    requires FillsImages(w) && w.outer == IDENTITY
    ensures var d := DrawCall(ImageAt(FAR));
            && Skeleton(Build(e, MAX_CULL, prepareRTree, [HALF, d]).records) == [HALF, d]
            && Skeleton(Build(e, MAX_CULL, prepareRTree, [HALF, PLAIN_LAYER, d, RestoreCall]).records) ==
               [HALF, PLAIN_LAYER, RestoreCall]
            && var s := Play(w, Begin(w, MAX_CULL), [HALF, PLAIN_LAYER]); ShowsDraw(w, s.Top(), s.paint, ImageAt(FAR))
  {
    hide Run, Step, Finish, Skeleton, Start, Play, ShowsDraw, ImageAt;
    var start, d := Start(MAX_CULL, prepareRTree), DrawCall(ImageAt(FAR));
    HalfScaled(e, prepareRTree);
    var st := Run(e, start, [] + [HALF]);
    RunAppend(e, start, [] + [HALF], d);
    FarDrawRecorded(e, st);
    FinishDone(e, Step(e, st, d));
    RunAppend(e, start, [] + [HALF], PLAIN_LAYER);
    FarLayerDrops(e, st);
    var st2 := Step(e, st, PLAIN_LAYER);
    RunAppend(e, start, [] + [HALF] + [PLAIN_LAYER], d);
    RunAppend(e, start, [] + [HALF] + [PLAIN_LAYER] + [d], RestoreCall);
    FinishDone(e, Step(e, st2, RestoreCall));
    assert [HALF, d] == [] + [HALF] + [d];
    assert [HALF, PLAIN_LAYER, d, RestoreCall] == [] + [HALF] + [PLAIN_LAYER] + [d] + [RestoreCall];
    FarShows(w);
  }

  ghost predicate Scaled(st: Recorder) {
    && st.Sized() && |st.stack| == 1 && |st.layers| == 1 && !st.Top().nop && !st.Top().deferred
    && st.Top().global == st.Top().local == Tracker(Matrix(Axis(0.5, 0.0), Axis(1.0, 0.0)), MAX_CULL)
    && st.paint == DefaultPaint(BLACK) && Skeleton(st.records) == [HALF]
  }

  lemma HalfScaled(e: Engine, prepareRTree: bool)
    ensures Scaled(Run(e, Start(MAX_CULL, prepareRTree), [] + [HALF]))
  {
    hide LayerCount, Run, Skeleton, TransformStep, Start;
    var start := Start(MAX_CULL, prepareRTree);
    RunNothing(e, start);
    RunAppend(e, start, [], HALF);
    StartFacts(prepareRTree);
    StepEmits(e, start, HALF);
    StepSized(e, start, HALF);
    HalfStep(start);
    NoSkeleton();
  }

  ghost predicate Fresh(st: Recorder) {
    && st.Sized() && |st.stack| == 1 && |st.layers| == 1 && !st.Top().nop && !st.Top().deferred
    && st.Top().global == st.Top().local == Tracker(IDENTITY, MAX_CULL)
    && st.paint == DefaultPaint(BLACK) && st.records == []
  }

  lemma StartFacts(prepareRTree: bool)
    ensures Fresh(Start(MAX_CULL, prepareRTree))
  {
  }

  lemma HalfStep(st: Recorder)
    requires Fresh(st)
    ensures var st', m := TransformStep(st, ScaleBy(0.5, 1.0)), Matrix(Axis(0.5, 0.0), Axis(1.0, 0.0));
            && |st'.stack| == 1 && |st'.layers| == 1 && !st'.Top().nop && !st'.Top().deferred
            && st'.Top().global == st'.Top().local == Tracker(m, MAX_CULL) && st'.paint == st.paint
  {
    hide LayerCount, TransformStep, Compose;
    ComposeIdentity(MatrixOf(ScaleBy(0.5, 1.0)));
    TransformedTop(st, ScaleBy(0.5, 1.0));
  }

  lemma TransformedTop(st: Recorder, t: Transform)
    requires |st.stack| > 0 && !st.Top().deferred && !Trivial(Normal(t))
    ensures var st' := TransformStep(st, t);
            && |st'.stack| == |st.stack| && st'.Top() == Transformed(st.Top(), Normal(t))
            && st'.layers == st.layers && st'.paint == st.paint
  {
    hide Transformed, Normal, Trivial;
  }

  lemma NoSkeleton()
    ensures Skeleton([]) == []
  {
  }

  lemma FarDrawRecorded(e: Engine, st: Recorder)
    requires Scaled(st)
    ensures var st' := Step(e, st, DrawCall(ImageAt(FAR)));
            st'.Sized() && |st'.stack| == 1 && Skeleton(st'.records) == [HALF, DrawCall(ImageAt(FAR))]
  {
    hide LayerCount, Skeleton, DrawStep, RecordsDraw, ImageAt, MapRect, MapAndClip;
    StepEmits(e, st, DrawCall(ImageAt(FAR)));
    StepSized(e, st, DrawCall(ImageAt(FAR)));
    HalfOfFar(st.Top().global);
    SeenImageRecorded(e, st, FAR);
    DrawsKeepStack(e, st, DrawCall(ImageAt(FAR)));
  }

  lemma HalfOfFar(t: Tracker)
    requires t == Tracker(Matrix(Axis(0.5, 0.0), Axis(1.0, 0.0)), MAX_CULL)
    ensures MapRect(t.matrix, FAR) == LTRB(750000000.0, 0.0, 800000000.0, 10.0) && !MapAndClip(t, FAR).IsEmpty()
  {
  }

  lemma SeenImageRecorded(e: Engine, st: Recorder, r: Rect)
    requires |st.stack| > 0 && |st.layers| > 0 && !st.Top().nop && !r.IsEmpty()
    requires !MapAndClip(st.Top().global, r).IsEmpty() && !MapAndClip(st.Top().local, r).IsEmpty()
    ensures RecordsDraw(e, st, ImageAt(r))
  {
    hide MapAndClip;
  }

  lemma FarLayerDrops(e: Engine, st: Recorder)
    requires Scaled(st)
    ensures var st2 := Step(e, st, PLAIN_LAYER);
            && st2.Sized() && Step(e, st2, DrawCall(ImageAt(FAR))) == st2
            && var st3 := Step(e, st2, RestoreCall);
               st3.Sized() && |st3.stack| == 1 && Skeleton(st3.records) == [HALF, PLAIN_LAYER, RestoreCall]
  {
    hide LayerCount, Skeleton, LayerStep, RestoreStep;
    LayerPushed(e, st, PLAIN_LAYER);
    StepEmits(e, st, PLAIN_LAYER);
    StepSized(e, st, PLAIN_LAYER);
    var st2 := Step(e, st, PLAIN_LAYER);
    LayerCountPositive(st2.stack);
    assert !Intersects(FAR, MAX_CULL);
    FarImageDropped(e, st2, FAR);
    StepEmits(e, st2, RestoreCall);
    StepSized(e, st2, RestoreCall);
    RestoreShrinks(e, st2);
    assert [HALF] + [PLAIN_LAYER] + [RestoreCall] == [HALF, PLAIN_LAYER, RestoreCall];
  }

  lemma FarShows(w: World)
    requires FillsImages(w) && w.outer == IDENTITY
    ensures var s := Play(w, Begin(w, MAX_CULL), [HALF, PLAIN_LAYER]); ShowsDraw(w, s.Top(), s.paint, ImageAt(FAR))
  {
    hide FillsImages, ShowsDraw, ImageAt, MapRect, Compose, Play;
    PlayTwo(w, Begin(w, MAX_CULL), HALF, PLAIN_LAYER);
    var s, q := Play(w, Begin(w, MAX_CULL), [HALF, PLAIN_LAYER]), Point(775000000.0, 5.0);
    var m := MatrixOf(ScaleBy(0.5, 1.0));
    ComposeIdentity(m);
    MapIdentity(MAX_CULL);
    var first := PlayOne(w, Begin(w, MAX_CULL), HALF);
    assert first.Top() == Begin(w, MAX_CULL).Top().(matrix := m);
    assert s.Top().matrix == m && !s.Top().dead && q in s.Top().clip;
    HalfOfFar(Tracker(m, MAX_CULL));
    ImageShows(w, s, FAR, q);
  }

  // ---------- clips ----------

  // Any clip, under a matrix with an inverse, keeps its meaning exactly when nothing can show, or it is dropped
  // because it covers the cull rectangle, or both of the narrowed cull rectangles keep what the clip keeps.
  lemma ClipsAreExact(e: Engine, w: World, cull: Rect, prepareRTree: bool, calls: seq<Call>, c: Call)
    requires SoundEngine(e, w) && FillsImages(w) && w.optics.Valid() && AdmissibleRun(w, Begin(w, cull), calls)
    requires c.ClipCall? && Play(w, Begin(w, cull), calls).Top().matrix.Invertible()
    ensures |Run(e, Start(cull, prepareRTree), calls).stack| > 0
    ensures KeepsMeaning(e, w, cull, prepareRTree, calls + [c]) <==>
            GoodClip(e, w, Run(e, Start(cull, prepareRTree), calls), Play(w, Begin(w, cull), calls).Top(), c)
  {
    hide SoundEngine, FillsImages, AdmissibleRun, Start, Run, Play, KeepsMeaning, GoodClip, RelatedAfter;
    Reached(e, w, cull, prepareRTree, calls);
    var st, s := Run(e, Start(cull, prepareRTree), calls), Play(w, Begin(w, cull), calls);
    if GoodClip(e, w, st, s.Top(), c) {
      GoodClipReached(e, w, cull, prepareRTree, calls, c);
      RelatedKeepsMeaning(e, w, cull, prepareRTree, calls + [c]);
    } else {
      BadClipLost(e, w, cull, prepareRTree, calls, c);
    }
  }

  lemma GoodClipReached(e: Engine, w: World, cull: Rect, prepareRTree: bool, calls: seq<Call>, c: Call)
    requires SoundEngine(e, w) && RelatedAfter(e, w, cull, prepareRTree, calls) && c.ClipCall?
    requires var st := Run(e, Start(cull, prepareRTree), calls);
             |st.stack| > 0 && GoodClip(e, w, st, Play(w, Begin(w, cull), calls).Top(), c)
    ensures RelatedAfter(e, w, cull, prepareRTree, calls + [c])
  {
    hide SoundNarrowing, SoundCovering, SoundConsolidation, SoundAreas, Start, Run, Play, Related, GoodClip, Step;
    hide PlayOne, Skeleton, Emits;
    var st, s := Run(e, Start(cull, prepareRTree), calls), Play(w, Begin(w, cull), calls);
    var replayed := Play(w, Begin(w, cull), Skeleton(st.records));
    RelatedTop(w, st, s, replayed);
    ClipRelated(e, w, st, s, replayed, c);
    StepEmits(e, st, c);
    RunAppend(e, Start(cull, prepareRTree), calls, c);
    PlayAppend(w, Begin(w, cull), calls, c);
    PlayConcat(w, Begin(w, cull), Skeleton(st.records), Emits(e, st, c));
  }

  // A rectangle that the tracker's cull rectangle misses, over a point that it does not keep.
  lemma HiddenRect(outer: Matrix, t: Tracker, p: Point) returns (r: Rect)
    requires outer.Invertible() && t.matrix.Invertible() && !t.cull.IsEmpty() && !InBase(outer, t.cull, p)
    ensures !r.IsEmpty() && MapAndClip(t, r).IsEmpty() && Inside(p, MapRect(Compose(outer, t.matrix), r))
  {
    hide Inverse, Compose;
    var far := BeyondRect(outer, t.cull, p);
    r := MapRect(Inverse(t.matrix), far);
    InverseInvertible(t.matrix);
    MapNonEmpty(Inverse(t.matrix), far);
    MapInverse(t.matrix, far);
    MapCompose(outer, t.matrix, r);
    IntersectsIffNonEmpty(far, t.cull);
  }

  // An image over a point that narrowing does not keep is not recorded afterwards.
  lemma HiddenImage(e: Engine, w: World, s: Save, base: Matrix, p: Point) returns (r: Rect)
    requires w.outer.Invertible() && s.global.matrix.Invertible() && Linked(s, base) && !Seen(w, s, base, p)
    requires !s.global.cull.IsEmpty() && !s.local.cull.IsEmpty()
    ensures !r.IsEmpty() && Inside(p, MapRect(w.At(s.global.matrix), r))
    ensures MapAndClip(s.global, r).IsEmpty() || MapAndClip(s.local, r).IsEmpty()
  {
    hide Compose, MapAndClip;
    ComposeInvertible(base, s.local.matrix);
    ComposeInvertible(w.outer, base);
    ComposeAssociative(w.outer, base, s.local.matrix);
    if !InBase(w.outer, s.global.cull, p) {
      r := HiddenRect(w.outer, s.global, p);
    } else {
      r := HiddenRect(w.At(base), s.local, p);
    }
  }

  lemma MissedImage(e: Engine, st: Recorder, r: Rect)
    requires |st.stack| > 0 && |st.layers| > 0
    requires st.Top().nop || MapAndClip(st.Top().global, r).IsEmpty() || MapAndClip(st.Top().local, r).IsEmpty()
    ensures Emits(e, st, DrawCall(ImageAt(r))) == []
  {
    hide MapAndClip;
  }

  lemma BadClipLost(e: Engine, w: World, cull: Rect, prepareRTree: bool, calls: seq<Call>, c: Call)
    requires RelatedAfter(e, w, cull, prepareRTree, calls) && FillsImages(w) && c.ClipCall?
    requires var st, s := Run(e, Start(cull, prepareRTree), calls), Play(w, Begin(w, cull), calls);
             s.Top().matrix.Invertible() && |st.stack| > 0 && !GoodClip(e, w, st, s.Top(), c)
    ensures !KeepsMeaning(e, w, cull, prepareRTree, calls + [c])
  {
    hide FillsImages, Start, Run, Play, KeepsMeaning, Related, SameSoFar, Seen, Linked, RedundantClip, ClipStep, Emits;
    hide ImageAt, ShowsDraw, Compose;
    var st, s := Run(e, Start(cull, prepareRTree), calls), Play(w, Begin(w, cull), calls);
    var replayed := Play(w, Begin(w, cull), Skeleton(st.records));
    RelatedTop(w, st, s, replayed);
    var base := Base(st.stack, |st.stack| - 1);
    var p :| p in ClipBy(w, s.Top(), c.shape, c.op) && !Seen(w, Clipped(e, st.Top(), c.shape, c.op, c.aa), base, p);
    OuterInvertible(w, st, s, replayed, p);
    RunAppend(e, Start(cull, prepareRTree), calls, c);
    PlayAppend(w, Begin(w, cull), calls, c);
    var st', s' := Step(e, st, c), PlayOne(w, s, c);
    StepSized(e, st, c);
    LayerCountPositive(st'.stack);
    var r := AfterBadClip(e, w, st, base, c, p);
    MissedImage(e, st', r);
    UnrecordedKeeps(e, st', DrawCall(ImageAt(r)));
    ImageShows(w, s', r, p);
    LostNext(e, w, cull, prepareRTree, calls + [c], DrawCall(ImageAt(r)));
  }

  lemma AfterBadClip(e: Engine, w: World, st: Recorder, base: Matrix, c: Call, p: Point) returns (r: Rect)
    requires |st.stack| > 0 && c.ClipCall? && !st.Top().nop && !RedundantClip(e, st.Top(), c.shape, c.op)
    requires w.outer.Invertible() && st.Top().global.matrix.Invertible() && Linked(st.Top(), base)
    requires !Seen(w, Clipped(e, st.Top(), c.shape, c.op, c.aa), base, p)
    ensures Inside(p, MapRect(w.At(st.Top().global.matrix), r))
    ensures var top := ClipStep(e, st, c.shape, c.op, c.aa).Top();
            top.nop || MapAndClip(top.global, r).IsEmpty() || MapAndClip(top.local, r).IsEmpty()
  {
    hide MapAndClip, Compose, Seen, RedundantClip;
    var s := Clipped(e, st.Top(), c.shape, c.op, c.aa);
    if s.global.cull.IsEmpty() || s.local.cull.IsEmpty() {
      ComposeInvertible(w.outer, st.Top().global.matrix);
      r := AroundPoint(w.At(st.Top().global.matrix), p);
    } else {
      r := HiddenImage(e, w, s, base, p);
      RecordedTop(e, st, c);
    }
  }

  lemma RecordedTop(e: Engine, st: Recorder, c: Call)
    requires |st.stack| > 0 && c.ClipCall? && RecordsClip(e, st, c.shape, c.op, c.aa)
    ensures var s, top := Clipped(e, st.Top(), c.shape, c.op, c.aa), ClipStep(e, st, c.shape, c.op, c.aa).Top();
            top.global == s.global && top.local == s.local
  {
    hide RedundantClip;
    ClipLast(e, st, c);
  }

  // ---------- holes ----------

  // Under a transform, a rectangle is cut out of the clip.
  function Cut(m: Matrix, s: Shape): seq<Call> { [TransformCall(Affine(m)), ClipCall(s, Difference, true)] }

  // The hole of an anti-aliased difference keeps its meaning for every cull rectangle and every
  // continuation exactly when rounding, on the device, moves no side of it outwards or empties it.
  lemma HolesAreExact(rest: Engine, covers: (Tracker, Shape) -> bool, w: World, m: Matrix, s: Shape)
    requires Fits(w) && SoundCovering(covers, w) && SoundAreas(rest, w) && SoundFilters(rest, w)
    requires FillsImages(w) && w.optics.Valid()
    requires m.Invertible() && w.outer.Invertible() && s.kind == RectShape
    ensures (forall cull, prepareRTree ::
               KeepsMeaning(TrackerEngine(rest, covers, w.holes), w, cull, prepareRTree, Cut(m, s)))
            <==> SafeHole(MapRect(m, s.bounds))
  {
    hide Fits, SoundCovering, SoundAreas, TrackerEngine, KeepsMeaning, FillsImages, SafeHole, SoundEngine;
    hide Admissible, Play, MapRect, Compose, AdmissibleRun;
    var e, t, c := TrackerEngine(rest, covers, w.holes), TransformCall(Affine(m)), ClipCall(s, Difference, true);
    TrackerIsSound(rest, covers, w);
    assert Cut(m, s) == [t] + [c];
    forall cull ensures AdmissibleRun(w, Begin(w, cull), [t])
                        && Play(w, Begin(w, cull), [t]).Top() == Begin(w, cull).Top().(matrix := m)
    {
      Transformed1(w, cull, m);
    }
    if SafeHole(MapRect(m, s.bounds)) {
      forall cull, prepareRTree ensures KeepsMeaning(e, w, cull, prepareRTree, Cut(m, s)) {
        SafeClipAdmissible(w, Play(w, Begin(w, cull), [t]), m, s);
        OneMoreKeeps(e, w, cull, prepareRTree, [t], c);
      }
    } else {
      var cull := Round(MapRect(m, s.bounds));
      UnsafeCut(rest, covers, w, m, s);
      ClipsAreExact(e, w, cull, false, [t], c);
    }
  }

  lemma Transformed1(w: World, cull: Rect, m: Matrix)
    ensures var t := TransformCall(Affine(m));
            && AdmissibleRun(w, Begin(w, cull), [t])
            && Play(w, Begin(w, cull), [t]).Top() == Begin(w, cull).Top().(matrix := m)
  {
    hide MapRect;
    var t := TransformCall(Affine(m));
    AdmissibleOne(w, Begin(w, cull), t);
    PlayTwo(w, Begin(w, cull), t, t);
    ComposeIdentity(m);
  }

  lemma SafeClipAdmissible(w: World, screen: Screen, m: Matrix, s: Shape)
    requires Fits(w) && s.kind == RectShape && SafeHole(MapRect(m, s.bounds))
    requires screen.Valid() && screen.Top().matrix == m && screen.Top().base == IDENTITY
    ensures Admissible(w, screen, ClipCall(s, Difference, true))
  {
    hide SafeHole, Compose, MapRect, Local;
    assert w.holes(s) == [s.bounds];
    ComposeIdentity(m);
    LocalIs(IDENTITY, m, m);
  }

  // In a cull rectangle that is the rounded hole, nothing is left of it although the clip keeps something.
  lemma UnsafeCut(rest: Engine, covers: (Tracker, Shape) -> bool, w: World, m: Matrix, s: Shape)
    requires Fits(w) && m.Invertible() && w.outer.Invertible() && s.kind == RectShape
    requires !SafeHole(MapRect(m, s.bounds))
    ensures var e, cull, t := TrackerEngine(rest, covers, w.holes), Round(MapRect(m, s.bounds)),
                              TransformCall(Affine(m));
            var st := Run(e, Start(cull, false), [t]);
            && |st.stack| > 0
            && !GoodClip(e, w, st, Begin(w, cull).Top().(matrix := m), ClipCall(s, Difference, true))
  {
    hide Fits, TrackerEngine, Round, SafeHole, MapRect, Run, Start, TransformStep;
    var e, cull, t := TrackerEngine(rest, covers, w.holes), Round(MapRect(m, s.bounds)), TransformCall(Affine(m));
    var start, c := Start(cull, false), ClipCall(s, Difference, true);
    assert [t] == [] + [t];
    RunAppend(e, start, [], t);
    RunNothing(e, start);
    assert !cull.IsEmpty() by { UnsafeIsNotEmpty(MapRect(m, s.bounds)); }
    StartTracks(cull, m);
    var st := Step(e, start, t);
    RoundedCull(rest, covers, w, st.Top().global, s);
    var p := HiddenPoint(w, m, s.bounds);
    LeftOver(w, m, s, p);
    assert !Seen(w, Clipped(e, st.Top(), s, Difference, true), Base(st.stack, |st.stack| - 1), p)
      by { EmptyCoversNothing(w.outer, EMPTY, p); }
  }

  lemma UnsafeIsNotEmpty(hole: Rect)
    requires !SafeHole(hole)
    ensures !Round(hole).IsEmpty()
  {
  }

  // A piece of a rectangle that lies apart from another one that does not contain it.
  lemma PieceOutside(hole: Rect, r: Rect) returns (piece: Rect)
    requires !r.IsEmpty() && !Contains(hole, r)
    ensures !piece.IsEmpty() && Contains(r, piece) && !Intersects(piece, hole)
  {
    piece :=
      if r.x.lo < hole.x.lo then Rect(Span(r.x.lo, Min(hole.x.lo, r.x.hi)), r.y)
      else if hole.x.hi < r.x.hi then Rect(Span(Max(hole.x.hi, r.x.lo), r.x.hi), r.y)
      else if r.y.lo < hole.y.lo then Rect(r.x, Span(r.y.lo, Min(hole.y.lo, r.y.hi)))
      else Rect(r.x, Span(Max(hole.y.hi, r.y.lo), r.y.hi));
  }

  // A point in the rounded hole that is outside the hole.
  lemma HiddenPoint(w: World, m: Matrix, bounds: Rect) returns (p: Point)
    requires m.Invertible() && w.outer.Invertible() && !SafeHole(MapRect(m, bounds))
    ensures InBase(w.outer, Round(MapRect(m, bounds)), p) && !Inside(p, MapRect(w.At(m), bounds))
  {
    hide MapRect, Compose;
    var hole := MapRect(m, bounds);
    var piece := PieceOutside(hole, Round(hole));
    MapNonEmpty(w.outer, piece);
    var image := MapRect(w.outer, piece);
    p := Point(image.x.lo, image.y.lo);
    assert Inside(p, image);
    MapMonotone(w.outer, Round(hole), piece);
    if bounds.IsEmpty() {
      EmptyCoversNothing(w.At(m), bounds, p);
    } else {
      MapNonEmpty(m, bounds);
      MapCompose(w.outer, m, bounds);
      MapKeepsApart(w.outer, piece, hole, p);
    }
  }

  lemma LeftOver(w: World, m: Matrix, s: Shape, p: Point)
    requires Fits(w) && s.kind == RectShape
    requires InBase(w.outer, Round(MapRect(m, s.bounds)), p) && !Inside(p, MapRect(w.At(m), s.bounds))
    ensures var f := Begin(w, Round(MapRect(m, s.bounds))).Top().(matrix := m);
            !f.dead && p in ClipBy(w, f, s, Difference)
  {
    hide Round, MapRect, Compose;
  }

  lemma NopDropsImage(e: Engine, st: Recorder, r: Rect)
    requires st.Sized() && st.Top().nop
    ensures Step(e, st, DrawCall(ImageAt(r))) == st
  {
    LayerCountPositive(st.stack);
  }

  lemma RunNothing(e: Engine, st: Recorder)
    requires st.Sized()
    ensures Run(e, st, []) == st
  {
  }

  lemma StartTracks(cull: Rect, m: Matrix)
    requires !cull.IsEmpty()
    ensures var top := TransformStep(Start(cull, false), Affine(m)).Top();
            !top.nop && !top.validClip && top.global == top.local == Tracker(m, cull)
  {
    ComposeIdentity(m);
  }

  lemma RoundedCull(rest: Engine, covers: (Tracker, Shape) -> bool, w: World, t: Tracker, s: Shape)
    requires Fits(w) && s.kind == RectShape && !SafeHole(MapRect(t.matrix, s.bounds))
    requires t.cull == Round(MapRect(t.matrix, s.bounds))
    ensures TrackerEngine(rest, covers, w.holes).clipCull(t, s, Difference, true) == EMPTY
  {
    hide Round;
    assert w.holes(s) == [s.bounds];
    if s.bounds.IsEmpty() { EmptyIsSafe(t.matrix, s.bounds); }
    assert CutAll(t, [s.bounds], true) == AdjustCull(t, s.bounds, Difference, true);
  }

  lemma EmptyIsSafe(m: Matrix, r: Rect)
    requires r.IsEmpty()
    ensures SafeHole(MapRect(m, r))
  {
  }

  // An example: a hole that ends between two pixels takes a visible strip with it.
  const HOLE: Rect := LTRB(0.0, 0.0, 4.6, 9.0)
  const WINDOW: Rect := LTRB(0.0, 0.0, 5.0, 9.0)
  const STRIP: Rect := LTRB(4.7, 0.0, 4.9, 9.0)

  lemma RoundedHoleLosesStrip(rest: Engine, covers: (Tracker, Shape) -> bool, w: World, prepareRTree: bool, id: int)
    requires Fits(w) && FillsImages(w) && w.outer == IDENTITY
    ensures var calls := [ClipCall(Shape(RectShape, HOLE, id), Difference, true), DrawCall(ImageAt(STRIP))];
            && Build(TrackerEngine(rest, covers, w.holes), WINDOW, prepareRTree, calls).records == []
            && |Closed(Play(w, Begin(w, WINDOW), calls)).events| == 1
  {
    hide Run, Step, Finish, Start, Play, ImageAt, TrackerEngine, Fits, FillsImages, Built;
    var e, start := TrackerEngine(rest, covers, w.holes), Start(WINDOW, prepareRTree);
    var s := Shape(RectShape, HOLE, id);
    var c, d := ClipCall(s, Difference, true), DrawCall(ImageAt(STRIP));
    StripHidden(rest, covers, w, prepareRTree, s);
    var st := Step(e, start, c);
    RunNothing(e, start);
    RunAppend(e, start, [], c);
    RunAppend(e, start, [] + [c], d);
    assert [c, d] == [] + [c] + [d];
    NopDropsImage(e, st, STRIP);
    FinishDone(e, st);
    assert Build(e, WINDOW, prepareRTree, [c, d]).records == st.records by { BuiltRecords(st); }
    PlayTwo(w, Begin(w, WINDOW), c, d);
    StripShows(w, s);
  }

  lemma StripHidden(rest: Engine, covers: (Tracker, Shape) -> bool, w: World, prepareRTree: bool, s: Shape)
    requires Fits(w) && s.kind == RectShape && s.bounds == HOLE
    ensures var st := Step(TrackerEngine(rest, covers, w.holes), Start(WINDOW, prepareRTree),
                           ClipCall(s, Difference, true));
            st.Sized() && |st.stack| == 1 && |st.layers| == 1 && st.Top().nop && st.records == []
  {
    hide TrackerEngine;
    var e, start := TrackerEngine(rest, covers, w.holes), Start(WINDOW, prepareRTree);
    StepSized(e, start, ClipCall(s, Difference, true));
    HoleHidesWindow(rest, covers, w, s);
  }

  lemma HoleHidesWindow(rest: Engine, covers: (Tracker, Shape) -> bool, w: World, s: Shape)
    requires Fits(w) && s.kind == RectShape && s.bounds == HOLE
    ensures TrackerEngine(rest, covers, w.holes).clipCull(Tracker(IDENTITY, WINDOW), s, Difference, true) == EMPTY
  {
    MapIdentity(HOLE);
    assert Round(HOLE) == WINDOW;
    RoundedCull(rest, covers, w, Tracker(IDENTITY, WINDOW), s);
  }

  lemma StripShows(w: World, s: Shape)
    requires Fits(w) && FillsImages(w) && s.kind == RectShape && s.bounds == HOLE && w.outer == IDENTITY
    ensures var screen := PlayOne(w, PlayOne(w, Begin(w, WINDOW), ClipCall(s, Difference, true)),
                                  DrawCall(ImageAt(STRIP)));
            |screen.frames| == 1 && |screen.events| == 1
  {
    hide ShowsDraw, ImageAt, FillsImages, MapRect, Fits, PlayOne, Compose;
    var first, q := PlayOne(w, Begin(w, WINDOW), ClipCall(s, Difference, true)), Point(4.8, 1.0);
    StripIn(q);
    StripKept(w, s, q);
    ComposeIdentity(IDENTITY);
    ImageShows(w, first, STRIP, q);
  }

  lemma StripIn(q: Point)
    requires q == Point(4.8, 1.0)
    ensures Inside(q, MapRect(IDENTITY, STRIP))
  {
    MapIdentity(STRIP);
  }

  lemma StripKept(w: World, s: Shape, q: Point)
    requires Fits(w) && s.kind == RectShape && s.bounds == HOLE && w.outer == IDENTITY && q == Point(4.8, 1.0)
    ensures var first := PlayOne(w, Begin(w, WINDOW), ClipCall(s, Difference, true));
            && |first.frames| == 1 && first.events == [] && !first.Top().dead && first.Top().matrix == IDENTITY
            && q in first.Top().clip
  {
    hide MapRect, Compose, Fits;
    RectIsItself(w, s, q);
    MapIdentity(HOLE);
    MapIdentity(WINDOW);
    ComposeIdentity(IDENTITY);
  }

  lemma RectIsItself(w: World, s: Shape, q: Point)
    requires Fits(w) && s.kind == RectShape
    ensures w.inside(s, IDENTITY, q) <==> Inside(q, MapRect(IDENTITY, s.bounds))
  {
    hide MapRect;
  }
}
