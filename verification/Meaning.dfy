/** Recording preserves meaning: playing the records of a built list emits the same visible
    events as playing the calls themselves. */
module Meaning {
  import opened Geometry
  import opened Painting
  import opened Blending
  import opened DisplayLists
  import opened Recorder
  import opened Emission
  import opened Matrices
  import opened Reference

  // ---------- the recorder's state against the two interpreters ----------

  // The point lies in both of the tracked rectangles, the layer's one under the layer's base matrix.
  ghost predicate Seen(w: World, s: Save, base: Matrix, p: Point) {
    InBase(w.outer, s.global.cull, p) && InBase(w.At(base), s.local.cull, p)
  }

  // The tracked rectangles bound the true clip.
  ghost predicate Bounded(w: World, clip: iset<Point>, s: Save, base: Matrix) {
    forall p :: p in clip ==> Seen(w, s, base, p)
  }

  // The matrix since the root is that at the start of the layer, and then the one since.
  predicate Linked(s: Save, base: Matrix) { s.global.matrix == Compose(base, s.local.matrix) }

  // The interpreters are in the same state, or neither of them shows anything.
  ghost predicate ScenesRelated(w: World, s: Save, base: Matrix, direct: Frame, replayed: Frame) {
    || (direct.dead && replayed.dead)
    || (direct.(open := false) == replayed.(open := false) && direct.base == base
        && Bounded(w, direct.clip, s, base) && (direct.clip != iset{} ==> Linked(s, base)))
  }

  // One entry of the save stack, the state of the direct interpreter at that depth, and that of
  // the interpreter of the records. Entries that draw nothing are silent in the direct one.
  ghost predicate EntryRelated(w: World, s: Save, base: Matrix, direct: Frame, replayed: Frame) {
    && (s.isLayer ==> !s.deferred)
    && direct.matrix == s.global.matrix
    && direct.open == (!s.deferred && replayed.open)
    && (if s.nop then Silent(direct) else ScenesRelated(w, s, base, direct, replayed))
  }

  ghost predicate FramesRelated(w: World, stack: seq<Save>, direct: seq<Frame>, replayed: seq<Frame>) {
    |direct| == |stack| &&
    if stack == [] then replayed == []
    else
      var n, m := |stack| - 1, |replayed| - 1;
      && m >= 0
      && EntryRelated(w, stack[n], Base(stack, n), direct[n], replayed[m])
      && FramesRelated(w, stack[..n], direct[..n], if stack[n].deferred then replayed else replayed[..m])
  }

  ghost predicate Related(w: World, st: Recorder, direct: Screen, replayed: Screen) {
    && st.Sized() && !st.stack[0].deferred
    && direct.Valid() && replayed.Valid()
    && direct.paint == st.paint && replayed.paint == st.paint
    && direct.events == replayed.events
    && FramesRelated(w, st.stack, direct.frames, replayed.frames)
  }

  // ---------- stacks ----------

  lemma PushRelated(w: World, stack: seq<Save>, direct: seq<Frame>, replayed: seq<Frame>, s: Save, f: Frame, g: Frame)
    requires |stack| > 0 && FramesRelated(w, stack, direct, replayed)
    requires EntryRelated(w, s, if s.isLayer then stack[|stack| - 1].global.matrix else Base(stack, |stack| - 1), f, g)
    requires s.deferred ==> |replayed| > 0 && g == replayed[|replayed| - 1]
    ensures FramesRelated(w, stack + [s], direct + [f], if s.deferred then replayed else replayed + [g])
  {
    var stack', direct', n := stack + [s], direct + [f], |stack|;
    assert stack'[..n] == stack && direct'[..n] == direct;
    assert (replayed + [g])[..|replayed|] == replayed;
    BaseAppend(stack, s, n - 1);
    assert Base(stack', n) == if s.isLayer then stack[n - 1].global.matrix else Base(stack, n - 1);
  }

  lemma TopRelated(w: World, stack: seq<Save>, direct: seq<Frame>, replayed: seq<Frame>, s: Save, f: Frame, g: Frame)
    requires |stack| > 0 && FramesRelated(w, stack, direct, replayed)
    requires s.isLayer == stack[|stack| - 1].isLayer && s.deferred == stack[|stack| - 1].deferred
    requires EntryRelated(w, s, Base(stack, |stack| - 1), f, g)
    requires s.deferred ==> g == replayed[|replayed| - 1]
    ensures FramesRelated(w, stack[|stack| - 1 := s], direct[|stack| - 1 := f], replayed[|replayed| - 1 := g])
  {
    var n, m := |stack| - 1, |replayed| - 1;
    assert stack[n := s][..n] == stack[..n] && direct[n := f][..n] == direct[..n];
    assert replayed[m := g][..m] == replayed[..m];
    if s.deferred { assert replayed[m := g] == replayed; }
    BaseSetTop(stack, s, n);
  }

  // A deferred top entry acquires its own state in the interpreter of the records.
  lemma FlushRelated(w: World, stack: seq<Save>, direct: seq<Frame>, replayed: seq<Frame>, s: Save)
    requires |stack| > 0 && FramesRelated(w, stack, direct, replayed) && stack[|stack| - 1].deferred
    requires !s.deferred && s.(deferred := true, saveIndex := 0, saveDepth := 0) ==
                            stack[|stack| - 1].(saveIndex := 0, saveDepth := 0)
    ensures FramesRelated(w, stack[|stack| - 1 := s], direct, replayed + [replayed[|replayed| - 1].(open := false)])
  {
    var n := |stack| - 1;
    assert stack[n := s][..n] == stack[..n];
    assert (replayed + [replayed[|replayed| - 1].(open := false)])[..|replayed|] == replayed;
    BaseSetTop(stack, s, n);
  }

  lemma PopRelated(w: World, stack: seq<Save>, direct: seq<Frame>, replayed: seq<Frame>)
    requires |stack| > 1 && FramesRelated(w, stack, direct, replayed)
    ensures FramesRelated(w, stack[..|stack| - 1], direct[..|stack| - 1],
                          if stack[|stack| - 1].deferred then replayed else replayed[..|replayed| - 1])
  {
  }

  lemma {:induction false} ReplayedNonEmpty(w: World, stack: seq<Save>, direct: seq<Frame>, replayed: seq<Frame>)
    requires |stack| > 0 && FramesRelated(w, stack, direct, replayed)
    ensures |replayed| > 0
    ensures !stack[0].deferred && |stack| > 1 && !stack[|stack| - 1].deferred ==> |replayed| > 1
  {
    var n := |stack| - 1;
    if n > 0 && !stack[n].deferred {
      ReplayedNonEmpty(w, stack[..n], direct[..n], replayed[..|replayed| - 1]);
    }
  }

  // ---------- what is not recorded cannot be seen ----------

  // Nothing lies in the image of a rectangle under a matrix without inverse.
  lemma SingularCoversNothing(m: Matrix, r: Rect, p: Point)
    requires !m.Invertible()
    ensures !Inside(p, MapRect(m, r))
  {
    MapNonEmpty(m, r);
  }

  // A rectangle that one tracker clips away is not seen within its cull rectangle, in any outer coordinates.
  lemma TrackerMisses(outer: Matrix, t: Tracker, r: Rect, p: Point)
    requires MapAndClip(t, r).IsEmpty() && InBase(outer, t.cull, p) && t.matrix.Invertible()
    ensures !Inside(p, MapRect(Compose(outer, t.matrix), r))
  {
    if !r.IsEmpty() {
      MapNonEmpty(t.matrix, r);
      MapCompose(outer, t.matrix, r);
      IntersectsIffNonEmpty(MapRect(t.matrix, r), t.cull);
      MapKeepsApart(outer, MapRect(t.matrix, r), t.cull, p);
    }
  }

  lemma CullMisses(w: World, s: Save, base: Matrix, r: Rect, p: Point)
    requires Linked(s, base) && Seen(w, s, base, p)
    requires MapAndClip(s.global, r).IsEmpty() || MapAndClip(s.local, r).IsEmpty() || r.IsEmpty()
    ensures !Inside(p, MapRect(w.At(s.global.matrix), r))
  {
    hide MapAndClip, MapRect, Compose;
    if !w.At(s.global.matrix).Invertible() {
      SingularCoversNothing(w.At(s.global.matrix), r, p);
    } else if r.IsEmpty() {
      EmptyCoversNothing(w.At(s.global.matrix), r, p);
    } else {
      ComposeInvertible(w.outer, s.global.matrix);
      ComposeInvertible(base, s.local.matrix);
      ComposeAssociative(w.outer, base, s.local.matrix);
      if MapAndClip(s.local, r).IsEmpty() { TrackerMisses(w.At(base), s.local, r, p); }
      if MapAndClip(s.global, r).IsEmpty() { TrackerMisses(w.outer, s.global, r, p); }
    }
  }

  lemma EmptyCoversNothing(m: Matrix, r: Rect, p: Point)
    requires r.IsEmpty()
    ensures !Inside(p, MapRect(m, r))
  {
  }

  // The whole cull rectangle, in the coordinates of the call.
  lemma CoverageCovers(w: World, s: Save, base: Matrix, p: Point)
    requires Seen(w, s, base, p) && s.global.matrix.Invertible()
    ensures InBase(w.At(s.global.matrix), LocalCoverage(s.global), p)
  {
    hide Compose, Inverse;
    var r := LocalCoverage(s.global);
    MapInverse(s.global.matrix, s.global.cull);
    MapCompose(w.outer, s.global.matrix, r);
  }

  // If recording the whole clip fails then the clip is empty.
  lemma FloodMisses(w: World, s: Save, base: Matrix, p: Point)
    requires Linked(s, base) && s.global.matrix.Invertible()
    requires s.global.cull.IsEmpty() || MapAndClip(s.local, LocalCoverage(s.global)).IsEmpty()
    ensures !Seen(w, s, base, p)
  {
    hide MapAndClip, LocalCoverage, Compose;
    if Seen(w, s, base, p) {
      CoverageCovers(w, s, base, p);
      CullMisses(w, s, base, LocalCoverage(s.global), p);
    }
  }

  lemma AreaMisses(e: Engine, w: World, s: Save, base: Matrix, k: Sink, id: nat, paint: Paint, d: Op, p: Point)
    requires SoundAreas(e, w) && Linked(s, base) && s.global.matrix.Invertible() && Seen(w, s, base, p)
    requires !AccumulateArea(s, k, id, Area(e, paint, d)).1
    ensures !w.footprint(paint, d, w.At(s.global.matrix), p)
  {
    hide Area, Seen, MapAndClip, LocalCoverage;
    var area := Area(e, paint, d);
    if area.None? { FloodMisses(w, s, base, p); } else { CullMisses(w, s, base, area.value, p); }
  }

  lemma {:induction false} EachMisses(w: World, s: Save, base: Matrix, k: Sink, id: nat, rs: seq<Rect>, p: Point)
    requires Linked(s, base) && Seen(w, s, base, p) && !AccumulateEach(s, k, id, rs).1
    ensures !InAny(rs, w.At(s.global.matrix), p)
  {
    hide Seen, MapAndClip;
    if rs != [] {
      var front := rs[..|rs| - 1];
      EachMisses(w, s, base, k, id, front, p);
      CullMisses(w, s, base, rs[|rs| - 1], p);
      forall i | 0 <= i < |rs| ensures !Inside(p, MapRect(w.At(s.global.matrix), rs[i])) {
        if i < |front| { assert front[i] == rs[i]; }
      }
    }
  }

  lemma ListMisses(e: Engine, w: World, s: Save, base: Matrix, k: Sink, id: nat, l: DisplayList, p: Point)
    requires SoundConsolidation(e.consolidate) && SoundAreas(e, w)
    requires Linked(s, base) && s.global.matrix.Invertible() && Seen(w, s, base, p)
    requires !AccumulateList(e, s, k, id, l).1
    ensures !w.content(l, w.At(s.global.matrix), p)
  {
    hide Seen, MapAndClip, LocalCoverage;
    if l.rootUnbounded {
      FloodMisses(w, s, base, p);
    } else if k.rtree.None? || l.rtree.None? {
      CullMisses(w, s, base, l.bounds, p);
    } else {
      EachMisses(w, s, base, k, id, e.consolidate(l.rtree.value, LocalCoverage(s.global)), p);
      CoverageCovers(w, s, base, p);
    }
  }

  lemma SkippedListsAreEmpty(e: Engine, w: World, f: Frame, l: DisplayList, o: real)
    requires SoundAreas(e, w) && SkipsList(l, o)
    ensures !ShowsList(w, f, l, o)
  {
  }

  // ---------- single calls ----------

  // The interpreter of the records after the calls that a step emits.
  ghost function Replayed(e: Engine, w: World, st: Recorder, replayed: Screen, c: Call): Screen
    requires |st.stack| > 0 && |st.layers| > 0 && replayed.Valid()
  {
    Play(w, replayed, Emits(e, st, c))
  }

  ghost predicate StepRelated(e: Engine, w: World, st: Recorder, direct: Screen, replayed: Screen, c: Call)
    requires st.Sized() && |st.layers| > 0 && direct.Valid() && replayed.Valid()
  {
    Related(w, Step(e, st, c), PlayOne(w, direct, c), Replayed(e, w, st, replayed, c))
  }

  lemma PlayTwo(w: World, s: Screen, a: Call, b: Call)
    requires s.Valid()
    ensures Play(w, s, [a]) == PlayOne(w, s, a)
    ensures Play(w, s, [a, b]) == PlayOne(w, PlayOne(w, s, a), b)
  {
    assert [a][..0] == [] && [a, b][..1] == [a];
  }

  // What the relation says about the top entry.
  lemma TopFacts(w: World, st: Recorder, direct: Screen, replayed: Screen)
    requires Related(w, st, direct, replayed)
    ensures |direct.frames| == |st.stack|
    ensures EntryRelated(w, st.Top(), Base(st.stack, |st.stack| - 1), direct.Top(), replayed.Top())
  {
  }

  lemma AttrRelated(e: Engine, w: World, st: Recorder, direct: Screen, replayed: Screen, a: Attr)
    requires Related(w, st, direct, replayed) && |st.layers| > 0
    ensures StepRelated(e, w, st, direct, replayed, AttrCall(a))
  {
    hide FramesRelated;
    PlayTwo(w, replayed, AttrCall(a), AttrCall(a));
  }

  lemma SaveRelated(e: Engine, w: World, st: Recorder, direct: Screen, replayed: Screen)
    requires Related(w, st, direct, replayed) && |st.layers| > 0
    ensures StepRelated(e, w, st, direct, replayed, SaveCall)
  {
    hide FramesRelated;
    TopFacts(w, st, direct, replayed);
    DeferredPush(w, st, direct, replayed, DeferredEntry(st.Top()), direct.Top().(open := false));
  }

  // A save that is put off, with or without a stop to drawing.
  lemma DeferredPush(w: World, st: Recorder, direct: Screen, replayed: Screen, s: Save, f: Frame)
    requires Related(w, st, direct, replayed)
    requires s.(nop := st.Top().nop) == DeferredEntry(st.Top())
    requires f.matrix == direct.Top().matrix && !f.open
    requires if s.nop then Silent(f) else !st.Top().nop && f == direct.Top().(open := false)
    ensures Related(w, st.(stack := st.stack + [s]), direct.(frames := direct.frames + [f]), replayed)
  {
    hide FramesRelated, EntryRelated, LayerCount;
    TopFacts(w, st, direct, replayed);
    DeferredEntryRelated(w, st.Top(), Base(st.stack, |st.stack| - 1), direct.Top(), replayed.Top(), s, f);
    PushRelated(w, st.stack, direct.frames, replayed.frames, s, f, replayed.Top());
    LayerCountAppend(st.stack, s);
  }

  lemma DeferredEntryRelated(w: World, top: Save, base: Matrix, direct: Frame, replayed: Frame, s: Save, f: Frame)
    requires EntryRelated(w, top, base, direct, replayed) && s.(nop := top.nop) == DeferredEntry(top)
    requires f.matrix == direct.matrix && !f.open
    requires if s.nop then Silent(f) else !top.nop && f == direct.(open := false)
    ensures EntryRelated(w, s, base, f, replayed)
  {
  }

  lemma DrawRelated(e: Engine, w: World, st: Recorder, direct: Screen, replayed: Screen, d: Op)
    requires SoundAreas(e, w) && w.optics.Valid() && Related(w, st, direct, replayed) && |st.layers| > 0
    requires Admissible(w, direct, DrawCall(d))
    ensures StepRelated(e, w, st, direct, replayed, DrawCall(d))
  {
    hide FramesRelated, HasEffect, AccumulateArea, PaintResult, Area, SoundAreas;
    TopFacts(w, st, direct, replayed);
    PlayTwo(w, replayed, DrawCall(d), DrawCall(d));
    if !DrawsAnything(st, d) {
      InvisibleDraw(w, st, direct, d);
    } else {
      NotNop(st, EffectPaint(st.paint, d), d.flags);
      if !DrawAccumulated(e, st, d).1 && ShowsDraw(w, direct.Top(), st.paint, d) {
        var p :| p in direct.Top().clip && w.footprint(st.paint, d, w.At(direct.Top().matrix), p);
        TopSees(w, st, direct, replayed, p);
        AreaMisses(e, w, st.Top(), Base(st.stack, |st.stack| - 1), TopSink(st), |st.records|, st.paint, d, p);
      }
    }
  }

  // What can show lies in the tracked rectangles.
  lemma TopSees(w: World, st: Recorder, direct: Screen, replayed: Screen, p: Point)
    requires Related(w, st, direct, replayed) && !st.Top().nop && !direct.Top().dead && p in direct.Top().clip
    ensures var base := Base(st.stack, |st.stack| - 1);
            && Linked(st.Top(), base) && Seen(w, st.Top(), base, p)
            && st.Top().global.matrix == direct.Top().matrix
  {
    hide FramesRelated, Seen, Linked;
    TopFacts(w, st, direct, replayed);
  }

  lemma InvisibleDraw(w: World, st: Recorder, direct: Screen, d: Op)
    requires w.optics.Valid() && |st.stack| > 0 && direct.Valid() && direct.paint == st.paint
    requires st.Top().nop ==> Silent(direct.Top())
    requires Admissible(w, direct, DrawCall(d)) && !DrawsAnything(st, d)
    ensures !ShowsDraw(w, direct.Top(), direct.paint, d)
  {
    if !st.Top().nop && ShowsDraw(w, direct.Top(), direct.paint, d) {
      NoEffectSound(w.optics, EffectPaint(st.paint, d), d.flags);
    }
  }

  lemma ListRelated(e: Engine, w: World, st: Recorder, direct: Screen, replayed: Screen, l: DisplayList, o: real)
    requires SoundConsolidation(e.consolidate) && SoundAreas(e, w)
    requires Related(w, st, direct, replayed) && |st.layers| > 0 && Admissible(w, direct, ListCall(l, o))
    ensures StepRelated(e, w, st, direct, replayed, ListCall(l, o))
  {
    hide FramesRelated, AccumulateList, NoteList, LayerCount, Deeper;
    hide SkipsList, SoundConsolidation, SoundAreas;
    TopFacts(w, st, direct, replayed);
    PlayTwo(w, replayed, ListCall(l, Min(o, 1.0)), SaveCall);
    MinShows(w, replayed.Top(), l, o);
    if SkipsList(l, o) {
      SkippedListsAreEmpty(e, w, direct.Top(), l, o);
    } else if !st.Top().nop && !ListAccumulated(e, st, l).1 && ShowsList(w, direct.Top(), l, o) {
      var p :| p in direct.Top().clip && w.content(l, w.At(direct.Top().matrix), p);
      TopSees(w, st, direct, replayed, p);
      ListMisses(e, w, st.Top(), Base(st.stack, |st.stack| - 1), TopSink(st), |st.records|, l, p);
    }
  }

  lemma MinShows(w: World, f: Frame, l: DisplayList, o: real)
    ensures ShowsList(w, f, l, Min(o, 1.0)) <==> ShowsList(w, f, l, o)
    ensures Min(Min(o, 1.0), 1.0) == Min(o, 1.0)
  {
  }

  // ---------- layers ----------

  lemma LayerRelated(e: Engine, w: World, st: Recorder, direct: Screen, replayed: Screen, c: Call)
    requires SoundFilters(e, w) && w.optics.Valid() && Related(w, st, direct, replayed) && |st.layers| > 0
    requires c.LayerCall?
    requires Admissible(w, direct, c)
    ensures StepRelated(e, w, st, direct, replayed, c)
  {
    hide FramesRelated, PaintResult, OuterSink, LayerCount;
    TopFacts(w, st, direct, replayed);
    if MakesLayer(st, c.withPaint) {
      NotNop(st, st.paint, LayerFlags(c.withPaint));
      LayerPush(e, w, st, direct, replayed, c);
    } else {
      InvisibleLayer(w, st, direct, c);
      DeferredPush(w, st, direct, replayed, DeferredEntry(st.Top()).(nop := true), LayerFrame(w, direct, c.withPaint));
      assert Step(e, st, c) == st.(stack := st.stack + [DeferredEntry(st.Top()).(nop := true)]);
    }
  }

  lemma InvisibleLayer(w: World, st: Recorder, direct: Screen, c: Call)
    requires w.optics.Valid() && |st.stack| > 0 && direct.Valid() && direct.paint == st.paint && c.LayerCall?
    requires st.Top().nop ==> Silent(direct.Top())
    requires Admissible(w, direct, c) && !MakesLayer(st, c.withPaint)
    ensures !ShowsLayer(w, direct.Top(), direct.paint, c.withPaint)
    ensures direct.Top().dead || direct.Top().clip == iset{}
            || !HasEffect(w.optics, direct.paint, LayerFlags(c.withPaint))
  {
    if !st.Top().nop && ShowsLayer(w, direct.Top(), direct.paint, c.withPaint) {
      NoEffectSound(w.optics, st.paint, LayerFlags(c.withPaint));
    }
  }

  // What a layer's filter can use of the cull rectangle around the layer.
  function InputCull(e: Engine, filter: Option<ImageFilter>, t: Tracker): Rect {
    if filter.None? then t.cull
    else
      match e.inputBounds(filter.value, t.matrix, t.cull)
      case None => MAX_CULL
      case Some(r) => if r.IsEmpty() then EMPTY else r
  }

  // The fields of the entry that a saveLayer without caller bounds pushes.
  lemma LayerPushed(e: Engine, st: Recorder, c: Call)
    requires |st.stack| > 0 && |st.layers| > 0 && c.LayerCall? && !c.fromCaller && MakesLayer(st, c.withPaint)
    ensures var st' := LayerStep(e, st, c.bounds, c.withPaint, c.fromCaller, c.backdrop); var s := st'.Top();
            && st'.stack == st.stack + [s] && st'.paint == st.paint
            && s.isLayer && !s.deferred && !s.nop
            && s.global == Tracker(st.Top().global.matrix, InputCull(e, LayerFilter(st, c.withPaint), st.Top().global))
            && s.local == Tracker(IDENTITY, MAX_CULL)
  {
    hide PaintResult, OuterSink;
  }

  lemma LayerPush(e: Engine, w: World, st: Recorder, direct: Screen, replayed: Screen, c: Call)
    requires SoundFilters(e, w) && Related(w, st, direct, replayed) && |st.layers| > 0 && c.LayerCall?
    requires Admissible(w, direct, c) && MakesLayer(st, c.withPaint) && !st.Top().nop
    ensures StepRelated(e, w, st, direct, replayed, c)
  {
    hide FramesRelated, PaintResult, LayerStep, EntryRelated, LayerFrame, Admissible, InputCull, SoundFilters,
         LayerCount;
    hide ShowsLayer;
    var emitted := LayerCall(EMPTY, c.withPaint, c.fromCaller, c.backdrop);
    var st' := LayerStep(e, st, c.bounds, c.withPaint, c.fromCaller, c.backdrop);
    var direct', replayed' := PlayOne(w, direct, c), PlayOne(w, replayed, emitted);
    TopFacts(w, st, direct, replayed);
    AdmissibleLayer(w, direct, c);
    LayerPushed(e, st, c);
    LayerSized(e, st, c.bounds, c.withPaint, c.fromCaller, c.backdrop);
    LayerEntryRelated(e, w, st.Top(), Base(st.stack, |st.stack| - 1), direct, replayed, st'.Top(), c);
    PushRelated(w, st.stack, direct.frames, replayed.frames, st'.Top(), direct'.Top(), replayed'.Top());
    PlayTwo(w, replayed, emitted, emitted);
    assert direct'.frames == direct.frames + [direct'.Top()] && replayed'.frames == replayed.frames + [replayed'.Top()];
  }

  lemma AdmissibleLayer(w: World, s: Screen, c: Call)
    requires s.Valid() && c.LayerCall? && Admissible(w, s, c)
    ensures !c.fromCaller
  {
  }

  // What can show of the layer's content lies in what the filter can use.
  lemma InputSeen(e: Engine, w: World, t: Tracker, f: Frame, p: Paint, withPaint: bool, q: Point)
    requires SoundFilters(e, w) && f.matrix == t.matrix && forall v :: v in f.clip ==> InBase(w.outer, t.cull, v)
    requires FitsFilter(w, f, p, withPaint) && q in LayerClip(w, f, p, withPaint)
    ensures InBase(w.outer, InputCull(e, if withPaint then p.imageFilter else None, t), q)
  {
    hide MapRect;
    if withPaint && p.imageFilter.Some? {
      var input := e.inputBounds(p.imageFilter.value, t.matrix, t.cull);
      if input.Some? && input.value.IsEmpty() { EmptyCoversNothing(w.outer, input.value, q); }
    }
  }

  // The entry and the states of a layer that begins.
  lemma LayerEntryRelated(e: Engine, w: World, top: Save, base: Matrix, direct: Screen, replayed: Screen, s: Save,
                          c: Call)
    requires SoundFilters(e, w)
    requires direct.Valid() && replayed.Valid() && direct.paint == replayed.paint && c.LayerCall?
    requires EntryRelated(w, top, base, direct.Top(), replayed.Top()) && !top.nop && Admissible(w, direct, c)
    requires s.isLayer && !s.deferred && !s.nop && s.local == Tracker(IDENTITY, MAX_CULL)
    requires var filter := if c.withPaint then direct.paint.imageFilter else None;
             s.global == Tracker(top.global.matrix, InputCull(e, filter, top.global))
    ensures var f, g := LayerFrame(w, direct, c.withPaint), LayerFrame(w, replayed, c.withPaint);
            EntryRelated(w, s, top.global.matrix, f, g)
    ensures ShowsLayer(w, direct.Top(), direct.paint, c.withPaint) ==
            ShowsLayer(w, replayed.Top(), replayed.paint, c.withPaint)
    ensures LayerFrame(w, direct, c.withPaint).matrix == direct.Top().matrix
    ensures ShowsLayer(w, direct.Top(), direct.paint, c.withPaint) ==>
              replayed.Top().matrix == direct.Top().matrix && replayed.Top().clip == direct.Top().clip
  {
    hide HasEffect, NoEffectGap, SoundFilters, InputCull, FitsFilter, LayerClip, MapRect, Compose;
    var d, inner := direct.Top(), LayerFrame(w, direct, c.withPaint);
    ComposeIdentity(top.global.matrix);
    if ShowsLayer(w, d, direct.paint, c.withPaint) {
      forall q | q in inner.clip ensures Seen(w, s, top.global.matrix, q) {
        InputSeen(e, w, top.global, d, direct.paint, c.withPaint, q);
        assert InBase(w.At(inner.matrix), MAX_CULL, q);
      }
      assert Linked(s, top.global.matrix) && Bounded(w, inner.clip, s, top.global.matrix);
      SameLayerClip(w, d, replayed.Top(), direct.paint, c.withPaint);
    } else if d.clip == iset{} {
      NothingReached(e, w, d, direct.paint, c.withPaint);
      if !d.dead { SameLayerClip(w, d, replayed.Top(), direct.paint, c.withPaint); }
    }
  }

  lemma SameLayerClip(w: World, f: Frame, g: Frame, p: Paint, withPaint: bool)
    requires f.matrix == g.matrix && f.clip == g.clip
    ensures LayerClip(w, f, p, withPaint) == LayerClip(w, g, p, withPaint)
  {
  }

  lemma NothingReached(e: Engine, w: World, f: Frame, p: Paint, withPaint: bool)
    requires SoundFilters(e, w) && f.clip == iset{}
    ensures LayerClip(w, f, p, withPaint) == iset{}
  {
  }

  // ---------- restores ----------

  lemma RestoreRelated(e: Engine, w: World, st: Recorder, direct: Screen, replayed: Screen)
    requires Related(w, st, direct, replayed) && |st.layers| > 0
    ensures StepRelated(e, w, st, direct, replayed, RestoreCall)
  {
        TopFacts(w, st, direct, replayed);
    PlayTwo(w, replayed, RestoreCall, RestoreCall);
    if |st.stack| > 1 {
      ReplayedNonEmpty(w, st.stack, direct.frames, replayed.frames);
      PopRestore(e, w, st, direct, replayed);
    }
  }

  lemma PopRestore(e: Engine, w: World, st: Recorder, direct: Screen, replayed: Screen)
    requires Related(w, st, direct, replayed) && |st.layers| > 0 && |st.stack| > 1
    requires !st.Top().deferred ==> |replayed.frames| > 1
    ensures StepRelated(e, w, st, direct, replayed, RestoreCall)
  {
    hide FramesRelated, CloseLayer, Patched;
    TopFacts(w, st, direct, replayed);
    PlayTwo(w, replayed, RestoreCall, RestoreCall);
    PopRelated(w, st.stack, direct.frames, replayed.frames);
    RestoreSized(e, st);
    var st' := RestoreStep(e, st);
    assert st'.stack == st.stack[..|st.stack| - 1] && st'.paint == st.paint by { RestorePaint(e, st); }
  }

  // ---------- transforms and clips ----------

  // Pushing the deferred save record is a save in the interpreter of the records.
  lemma FlushedRelated(e: Engine, w: World, st: Recorder, direct: Screen, replayed: Screen)
    requires Related(w, st, direct, replayed)
    ensures Related(w, CheckDeferredSave(st), direct, Play(w, replayed, Pending(st)))
    ensures !CheckDeferredSave(st).Top().deferred && CheckDeferredSave(st).layers == st.layers
    ensures CheckDeferredSave(st).Top().(deferred := st.Top().deferred, saveIndex := 0, saveDepth := 0) ==
            st.Top().(saveIndex := 0, saveDepth := 0)
  {
    hide FramesRelated;
    if st.Top().deferred {
      var st' := CheckDeferredSave(st);
      PlayTwo(w, replayed, SaveCall, SaveCall);
      FlushRelated(w, st.stack, direct.frames, replayed.frames, st'.Top());
      SetTopSized(st, st');
    }
  }

  // Replacing the top entry together with the top states of both interpreters.
  lemma SetTopRelated(w: World, st: Recorder, direct: Screen, replayed: Screen, s: Save, f: Frame, g: Frame)
    requires Related(w, st, direct, replayed)
    requires s.isLayer == st.Top().isLayer && s.deferred == st.Top().deferred
    requires EntryRelated(w, s, Base(st.stack, |st.stack| - 1), f, g)
    requires s.deferred ==> g == replayed.Top()
    ensures Related(w, SetTop(st, s), SetFrame(direct, f), SetFrame(replayed, g))
  {
    hide FramesRelated, EntryRelated;
    TopFacts(w, st, direct, replayed);
    TopRelated(w, st.stack, direct.frames, replayed.frames, s, f, g);
    SetTopSized(st, SetTop(st, s));
  }

  lemma PushKeepsRelated(w: World, st: Recorder, direct: Screen, replayed: Screen, r: Record)
    requires Related(w, st, direct, replayed)
    ensures Related(w, Push(st, r), direct, replayed)
  {
    hide FramesRelated;
  }

  lemma TransformRelated(e: Engine, w: World, st: Recorder, direct: Screen, replayed: Screen, t: Transform)
    requires Related(w, st, direct, replayed) && |st.layers| > 0 && Admissible(w, direct, TransformCall(t))
    ensures StepRelated(e, w, st, direct, replayed, TransformCall(t))
  {
    hide Related, LocalAfter, GlobalAfter, LayerCount, CheckDeferredSave, Deeper, Normal, MatrixOf;
    RelatedSized(w, st, direct, replayed);
    var n := Normal(t);
    SameMatrix(direct.Top().matrix, t);
    if Trivial(n) {
      TrivialRelated(e, w, st, direct, replayed, t);
    } else {
      FlushedRelated(e, w, st, direct, replayed);
      var st1, replayed1 := CheckDeferredSave(st), Play(w, replayed, Pending(st));
      AppendPlay(w, replayed, Pending(st), TransformCall(n));
      PushKeepsRelated(w, st1, direct, replayed1, TransformRec(n));
      TransformTop(e, w, Push(st1, TransformRec(n)), direct, replayed1, n);
    }
  }

  lemma RelatedSized(w: World, st: Recorder, direct: Screen, replayed: Screen)
    requires Related(w, st, direct, replayed)
    ensures st.Sized() && direct.Valid() && replayed.Valid() && direct.paint == st.paint
  {
  }

  lemma SameMatrix(m: Matrix, t: Transform)
    ensures GlobalAfter(m, Normal(t)) == GlobalAfter(m, t)
    ensures Trivial(Normal(t)) ==> GlobalAfter(m, t) == m
    ensures Normal(t).Reset? == t.Reset?
  {
    hide Compose;
    ComposeIdentity(m);
    assert Trivial(Normal(t)) ==> MatrixOf(Normal(t)) == IDENTITY;
  }

  lemma TrivialRelated(e: Engine, w: World, st: Recorder, direct: Screen, replayed: Screen, t: Transform)
    requires Related(w, st, direct, replayed) && |st.layers| > 0 && Trivial(Normal(t))
    requires GlobalAfter(direct.Top().matrix, t) == direct.Top().matrix
    ensures StepRelated(e, w, st, direct, replayed, TransformCall(t))
  {
    hide FramesRelated, GlobalAfter;
    assert PlayOne(w, direct, TransformCall(t)).frames == direct.frames;
  }

  // The pending save, if any, and then the call.
  lemma AppendPlay(w: World, replayed: Screen, pending: seq<Call>, c: Call)
    requires replayed.Valid()
    ensures Play(w, replayed, pending + [c]) == PlayOne(w, Play(w, replayed, pending), c)
  {
    PlayAppend(w, replayed, pending, c);
  }

  lemma TransformTop(e: Engine, w: World, st: Recorder, direct: Screen, replayed: Screen, t: Transform)
    requires Related(w, st, direct, replayed) && !st.Top().deferred
    requires t.Reset? && !Silent(direct.Top()) ==> direct.Top().matrix.Invertible()
    ensures Related(w, SetTop(st, Transformed(st.Top(), t)), PlayOne(w, direct, TransformCall(t)),
                    PlayOne(w, replayed, TransformCall(t)))
  {
    hide FramesRelated, EntryRelated, LocalAfter, GlobalAfter, LayerCount, Silent;
    TopFacts(w, st, direct, replayed);
    TransformedEntry(w, st.Top(), Base(st.stack, |st.stack| - 1), direct.Top(), replayed.Top(), t);
    SetTopRelated(w, st, direct, replayed, Transformed(st.Top(), t), Moved(direct.Top(), t), Moved(replayed.Top(), t));
  }

  ghost function Moved(f: Frame, t: Transform): Frame { f.(matrix := GlobalAfter(f.matrix, t)) }

  lemma TransformedEntry(w: World, s: Save, base: Matrix, f: Frame, g: Frame, t: Transform)
    requires EntryRelated(w, s, base, f, g)
    requires t.Reset? && !Silent(f) ==> f.matrix.Invertible()
    ensures EntryRelated(w, Transformed(s, t), base, Moved(f, t), Moved(g, t))
  {
    hide LocalAfter, GlobalAfter, Seen, Linked;
    var s' := Transformed(s, t);
    if !s.nop && !(f.dead && g.dead) {
      if f.clip != iset{} && !f.dead { TransformedLinked(s, base, t); }
      forall p | p in f.clip ensures Seen(w, s', base, p) { SeenAlike(w, s, s', base, p); }
    }
  }

  lemma SeenAlike(w: World, s: Save, s': Save, base: Matrix, p: Point)
    requires Seen(w, s, base, p) && s'.global.cull == s.global.cull && s'.local.cull == s.local.cull
    ensures Seen(w, s', base, p)
  {
  }

  lemma TransformedLinked(s: Save, base: Matrix, t: Transform)
    requires Linked(s, base) && (t.Reset? ==> s.global.matrix.Invertible())
    ensures Linked(Transformed(s, t), base)
  {
    hide Compose;
    if t.Reset? {
      ResetAligned(base, s.global.matrix, s.local.matrix);
    } else {
      ComposeAssociative(base, s.local.matrix, MatrixOf(t));
    }
  }

  // The matrix since the start of the layer is the one that the recorder tracks.
  lemma LocalIs(base: Matrix, global: Matrix, local: Matrix)
    requires global == Compose(base, local) && base.Invertible()
    ensures Local(base, global) == local
  {
    ComposeAssociative(Inverse(base), base, local);
    InverseCompose(base);
    ComposeIdentity(local);
  }

  // Narrowing the cull rectangles of an entry keeps what the clip keeps.
  ghost predicate Narrows(e: Engine, w: World, s: Save, base: Matrix, f: Frame, c: Call)
    requires c.ClipCall?
  {
    Bounded(w, ClipBy(w, f, c.shape, c.op), Clipped(e, s, c.shape, c.op, c.aa), base)
  }

  // The contract of the tracker says that it does, for safe clips.
  lemma SafeClipNarrows(e: Engine, w: World, s: Save, base: Matrix, f: Frame, c: Call)
    requires SoundNarrowing(e, w) && c.ClipCall? && Bounded(w, f.clip, s, base) && Linked(s, base)
    requires f.matrix == s.global.matrix
    requires SafeClip(w, c.shape, c.op, c.aa, f.matrix) && SafeClip(w, c.shape, c.op, c.aa, Local(base, f.matrix))
    ensures Narrows(e, w, s, base, f, c)
  {
    hide SafeClip, Compose, Local, SoundNarrowing, Clipped;
    forall p | p in ClipBy(w, f, c.shape, c.op) ensures Seen(w, Clipped(e, s, c.shape, c.op, c.aa), base, p) {
      assert Seen(w, s, base, p);
      SeenBaseInvertible(w, s, base, p);
      LocalIs(base, f.matrix, s.local.matrix);
      ClippedSeen(e, w, s, base, c, p);
    }
  }

  lemma SeenBaseInvertible(w: World, s: Save, base: Matrix, p: Point)
    requires Seen(w, s, base, p)
    ensures base.Invertible()
  {
    if !w.At(base).Invertible() { SingularCoversNothing(w.At(base), s.local.cull, p); }
    ComposeInvertible(w.outer, base);
  }

  lemma ClippedSeen(e: Engine, w: World, s: Save, base: Matrix, c: Call, p: Point)
    requires SoundNarrowing(e, w) && c.ClipCall? && Seen(w, s, base, p) && Linked(s, base)
    requires SafeClip(w, c.shape, c.op, c.aa, s.global.matrix) && SafeClip(w, c.shape, c.op, c.aa, s.local.matrix)
    requires Keeps(w, c.shape, c.op, w.At(s.global.matrix), p)
    ensures Seen(w, Clipped(e, s, c.shape, c.op, c.aa), base, p)
  {
    hide SafeClip, Compose, MapRect;
    ComposeAssociative(w.outer, base, s.local.matrix);
    assert Keeps(w, c.shape, c.op, Compose(w.outer, s.global.matrix), p);
    assert Keeps(w, c.shape, c.op, Compose(w.At(base), s.local.matrix), p);
  }

  lemma EmptyCullMeansSilent(w: World, clip: iset<Point>, s: Save, base: Matrix)
    requires Bounded(w, clip, s, base) && (s.global.cull.IsEmpty() || s.local.cull.IsEmpty())
    ensures clip == iset{}
  {
    forall p ensures p !in clip {
      if s.global.cull.IsEmpty() { EmptyCoversNothing(w.outer, s.global.cull, p); }
      if s.local.cull.IsEmpty() { EmptyCoversNothing(w.At(base), s.local.cull, p); }
    }
  }

  lemma RedundantKeepsClip(e: Engine, w: World, s: Save, base: Matrix, f: Frame, shape: Shape, op: ClipOp)
    requires SoundCovering(e.coversCull, w) && Bounded(w, f.clip, s, base) && RedundantClip(e, s, shape, op)
    requires f.matrix == s.global.matrix && Linked(s, base)
    ensures ClipBy(w, f, shape, op) == f.clip
  {
    hide Compose;
    ComposeAssociative(w.outer, base, s.local.matrix);
    forall p | p in f.clip ensures Keeps(w, shape, op, w.At(f.matrix), p) {
      assert Seen(w, s, base, p);
    }
  }

  ghost function Cropped(w: World, f: Frame, c: Call): Frame
    requires c.ClipCall?
  {
    f.(clip := ClipBy(w, f, c.shape, c.op))
  }

  // What clipping makes of one entry and of the states of both interpreters.
  lemma ClippedScenes(e: Engine, w: World, s: Save, base: Matrix, f: Frame, g: Frame, c: Call)
    requires c.ClipCall? && ScenesRelated(w, s, base, f, g) && (Silent(f) || Narrows(e, w, s, base, f, c))
    ensures var s' := Clipped(e, s, c.shape, c.op, c.aa);
            && ScenesRelated(w, s', base, Cropped(w, f, c), Cropped(w, g, c))
            && (s'.global.cull.IsEmpty() || s'.local.cull.IsEmpty() ==> Silent(Cropped(w, f, c)))
  {
    hide ClipBy, Seen, Compose;
    CroppedSilent(w, f, c);
    if !(f.dead && g.dead) {
      SameClip(w, f, g, c.shape, c.op);
      var s' := Clipped(e, s, c.shape, c.op, c.aa);
      if s'.global.cull.IsEmpty() || s'.local.cull.IsEmpty() {
        EmptyCullMeansSilent(w, ClipBy(w, f, c.shape, c.op), s', base);
      }
    }
  }

  lemma CroppedSilent(w: World, f: Frame, c: Call)
    requires c.ClipCall?
    ensures Silent(f) ==> Silent(Cropped(w, f, c))
  {
  }

  lemma SameClip(w: World, f: Frame, g: Frame, shape: Shape, op: ClipOp)
    requires f.clip == g.clip && f.matrix == g.matrix
    ensures ClipBy(w, f, shape, op) == ClipBy(w, g, shape, op)
  {
  }

  // A clip under which the cull rectangles keep what the clip keeps.
  ghost predicate GoodClip(e: Engine, w: World, st: Recorder, f: Frame, c: Call)
    requires |st.stack| > 0 && c.ClipCall?
  {
    || Silent(f) || RedundantClip(e, st.Top(), c.shape, c.op)
    || Narrows(e, w, st.Top(), Base(st.stack, |st.stack| - 1), f, c)
  }

  lemma SafeIsGood(e: Engine, w: World, st: Recorder, direct: Screen, replayed: Screen, c: Call)
    requires SoundNarrowing(e, w) && Related(w, st, direct, replayed) && c.ClipCall? && Admissible(w, direct, c)
    ensures GoodClip(e, w, st, direct.Top(), c)
  {
    hide FramesRelated, SoundNarrowing, SafeClip, Bounded, RedundantClip, Linked, Local;
    TopFacts(w, st, direct, replayed);
    var base, f := Base(st.stack, |st.stack| - 1), direct.Top();
    if !Silent(f) { SafeClipNarrows(e, w, st.Top(), base, f, c); }
  }

  lemma ClipRelated(e: Engine, w: World, st: Recorder, direct: Screen, replayed: Screen, c: Call)
    requires SoundCovering(e.coversCull, w) && Related(w, st, direct, replayed) && |st.layers| > 0
    requires c.ClipCall? && GoodClip(e, w, st, direct.Top(), c)
    ensures StepRelated(e, w, st, direct, replayed, c)
  {
    hide FramesRelated, SoundCovering, LayerCount, Bounded, RedundantClip, Clipped, Linked, ClipBy;
    TopFacts(w, st, direct, replayed);
    var top, base, f := st.Top(), Base(st.stack, |st.stack| - 1), direct.Top();
    CroppedSilent(w, f, c);
    if RecordsClip(e, st, c.shape, c.op, c.aa) {
      RecordedClip(e, w, st, direct, replayed, c);
    } else if top.nop || f.dead {
      DroppedClip(e, w, st, direct, replayed, c);
    } else if RedundantClip(e, top, c.shape, c.op) {
      RedundantClipRelated(e, w, st, direct, replayed, c);
    } else {
      ClippedScenes(e, w, top, base, f, replayed.Top(), c);
      DroppedClip(e, w, st, direct, replayed, c);
    }
  }

  lemma RedundantClipRelated(e: Engine, w: World, st: Recorder, direct: Screen, replayed: Screen, c: Call)
    requires SoundCovering(e.coversCull, w) && Related(w, st, direct, replayed) && |st.layers| > 0
    requires c.ClipCall? && !st.Top().nop && !direct.Top().dead && RedundantClip(e, st.Top(), c.shape, c.op)
    ensures StepRelated(e, w, st, direct, replayed, c)
  {
    hide FramesRelated, SoundCovering, LayerCount, RedundantClip, Linked, ClipBy, Seen;
    TopFacts(w, st, direct, replayed);
    var f := direct.Top();
    if f.clip == iset{} {
      assert ClipBy(w, f, c.shape, c.op) == iset{} by { CroppedSilent(w, f, c); }
    } else {
      RedundantKeepsClip(e, w, st.Top(), Base(st.stack, |st.stack| - 1), f, c.shape, c.op);
    }
    assert SetFrame(direct, Cropped(w, f, c)).frames == direct.frames;
  }

  // A clip after which nothing shows.
  lemma DroppedClip(e: Engine, w: World, st: Recorder, direct: Screen, replayed: Screen, c: Call)
    requires Related(w, st, direct, replayed) && |st.layers| > 0 && c.ClipCall?
    requires !RecordsClip(e, st, c.shape, c.op, c.aa) && Silent(Cropped(w, direct.Top(), c))
    requires st.Top().nop || direct.Top().dead || !RedundantClip(e, st.Top(), c.shape, c.op)
    ensures StepRelated(e, w, st, direct, replayed, c)
  {
    hide FramesRelated, LayerCount, Bounded, RedundantClip, ClipBy, Linked;
    TopFacts(w, st, direct, replayed);
    var top := st.Top();
    var s := if top.nop || RedundantClip(e, top, c.shape, c.op) then top
             else Clipped(e, top, c.shape, c.op, c.aa).(nop := true);
    SetTopRelated(w, st, direct, replayed, s, Cropped(w, direct.Top(), c), replayed.Top());
    SetSame(st, replayed);
  }

  lemma SetSame(st: Recorder, replayed: Screen)
    requires |st.stack| > 0 && replayed.Valid()
    ensures SetTop(st, st.Top()) == st && SetFrame(replayed, replayed.Top()) == replayed
  {
    assert st.stack[|st.stack| - 1 := st.Top()] == st.stack;
    assert replayed.frames[|replayed.frames| - 1 := replayed.Top()] == replayed.frames;
  }

  lemma RecordedClip(e: Engine, w: World, st: Recorder, direct: Screen, replayed: Screen, c: Call)
    requires Related(w, st, direct, replayed) && |st.layers| > 0 && c.ClipCall?
    requires GoodClip(e, w, st, direct.Top(), c) && RecordsClip(e, st, c.shape, c.op, c.aa)
    ensures StepRelated(e, w, st, direct, replayed, c)
  {
    hide FramesRelated, ScenesRelated, ClipBy, Bounded;
    FlushedRelated(e, w, st, direct, replayed);
    AppendPlay(w, replayed, Pending(st), c);
    var st1, replayed1, r := CheckDeferredSave(st), Play(w, replayed, Pending(st)), ClipRec(c.shape, c.op, c.aa);
    PushKeepsRelated(w, st1, direct, replayed1, r);
    TopFacts(w, st1, direct, replayed1);
    var top, base, f, g := st1.Top(), Base(st1.stack, |st1.stack| - 1), direct.Top(), replayed1.Top();
    FlushedNarrows(e, w, st, f, c);
    ClippedScenes(e, w, top, base, f, g, c);
    var s' := Clipped(e, top, c.shape, c.op, c.aa).(validClip := true);
    ValidClipKeeps(w, Clipped(e, top, c.shape, c.op, c.aa), base, Cropped(w, f, c), Cropped(w, g, c));
    SetTopRelated(w, Push(st1, r), direct, replayed1, s', Cropped(w, f, c), Cropped(w, g, c));
    ClipLast(e, st, c);
  }

  // Pushing the pending save changes nothing about the trackers.
  lemma FlushedNarrows(e: Engine, w: World, st: Recorder, f: Frame, c: Call)
    requires |st.stack| > 0 && c.ClipCall?
    ensures var st1 := CheckDeferredSave(st);
            && |st1.stack| == |st.stack|
            && (Narrows(e, w, st.Top(), Base(st.stack, |st.stack| - 1), f, c) <==>
                Narrows(e, w, st1.Top(), Base(st1.stack, |st1.stack| - 1), f, c))
  {
    hide ClipBy;
    var st1 := CheckDeferredSave(st);
    if st.Top().deferred { BaseSetTop(st.stack, st1.Top(), |st.stack| - 1); }
  }

  lemma ValidClipKeeps(w: World, s: Save, base: Matrix, f: Frame, g: Frame)
    requires ScenesRelated(w, s, base, f, g)
    ensures ScenesRelated(w, s.(validClip := true), base, f, g)
  {
    hide Compose, MapRect;
  }

  // ---------- whole runs ----------

  lemma StepKeepsMeaning(e: Engine, w: World, st: Recorder, direct: Screen, replayed: Screen, c: Call)
    requires SoundEngine(e, w) && w.optics.Valid() && Related(w, st, direct, replayed) && |st.layers| > 0
    requires Admissible(w, direct, c)
    ensures StepRelated(e, w, st, direct, replayed, c)
  {
    hide SoundNarrowing, SoundCovering, SoundConsolidation, SoundAreas, Related, Admissible, StepRelated, GoodClip;
    RelatedSized(w, st, direct, replayed);
    match c {
      case AttrCall(a) => AttrRelated(e, w, st, direct, replayed, a);
      case SaveCall => SaveRelated(e, w, st, direct, replayed);
      case LayerCall(_, _, _, _) => LayerRelated(e, w, st, direct, replayed, c);
      case RestoreCall => RestoreRelated(e, w, st, direct, replayed);
      case TransformCall(t) => TransformRelated(e, w, st, direct, replayed, t);
      case ClipCall(_, _, _) =>
        SafeIsGood(e, w, st, direct, replayed, c);
        ClipRelated(e, w, st, direct, replayed, c);
      case DrawCall(d) => DrawRelated(e, w, st, direct, replayed, d);
      case ListCall(l, o) => ListRelated(e, w, st, direct, replayed, l, o);
    }
  }

  lemma {:induction false} RunKeepsMeaning(e: Engine, w: World, st: Recorder, direct: Screen, start: Screen,
                                           calls: seq<Call>)
    requires SoundEngine(e, w) && w.optics.Valid() && start.Valid()
    requires Related(w, st, direct, Play(w, start, Skeleton(st.records))) && AdmissibleRun(w, direct, calls)
    ensures var st' := Run(e, st, calls);
            Related(w, st', Play(w, direct, calls), Play(w, start, Skeleton(st'.records)))
  {
    hide SoundEngine, Related, Admissible, PlayOne, Step, Skeleton;
    RelatedSized(w, st, direct, Play(w, start, Skeleton(st.records)));
    if calls != [] {
      var front, c := calls[..|calls| - 1], calls[|calls| - 1];
      RunKeepsMeaning(e, w, st, direct, start, front);
      var st1 := Run(e, st, front);
      var direct1, replayed1 := Play(w, direct, front), Play(w, start, Skeleton(st1.records));
      LayerCountPositive(st1.stack);
      StepKeepsMeaning(e, w, st1, direct1, replayed1, c);
      StepEmits(e, st1, c);
      PlayConcat(w, start, Skeleton(st1.records), Emits(e, st1, c));
    }
  }

  lemma {:induction false} PlayConcat(w: World, s: Screen, a: seq<Call>, b: seq<Call>)
    requires s.Valid()
    ensures Play(w, s, a + b) == Play(w, Play(w, s, a), b)
  {
    if b == [] {
      assert a + b == a;
    } else {
      PlayConcat(w, s, a, b[..|b| - 1]);
      assert (a + b)[..|a + b| - 1] == a + b[..|b| - 1];
    }
  }

  lemma {:induction false} FinishKeepsMeaning(e: Engine, w: World, st: Recorder, direct: Screen, start: Screen)
    requires start.Valid() && Related(w, st, direct, Play(w, start, Skeleton(st.records)))
    ensures var f := Finish(e, st); Related(w, f, Closed(direct), Play(w, start, Skeleton(f.records)))
    decreases |st.stack|
  {
    var replayed := Play(w, start, Skeleton(st.records));
    LayerCountPositive(st.stack);
    TopFacts(w, st, direct, replayed);
    if |st.stack| > 1 {
      hide Related;
      RestoreRelated(e, w, st, direct, replayed);
      StepEmits(e, st, RestoreCall);
      PlayConcat(w, start, Skeleton(st.records), Emits(e, st, RestoreCall));
      RestoreSized(e, st);
      FinishKeepsMeaning(e, w, RestoreStep(e, st), PlayOne(w, direct, RestoreCall), start);
    }
  }

  lemma StartEntry(w: World, cull: Rect, prepareRTree: bool)
    ensures var st, f := Start(cull, prepareRTree), Begin(w, cull).frames[0];
            EntryRelated(w, st.stack[0], IDENTITY, f, f)
  {
    var f := Begin(w, cull).frames[0];
    if cull.IsEmpty() {
      assert f.clip == iset{};
    } else {
      MapIdentity(cull);
    }
  }

  lemma StartRelated(w: World, cull: Rect, prepareRTree: bool)
    ensures Related(w, Start(cull, prepareRTree), Begin(w, cull), Begin(w, cull))
  {
    hide EntryRelated;
    var st, frames := Start(cull, prepareRTree), Begin(w, cull).frames;
    StartEntry(w, cull, prepareRTree);
    assert st.stack[..0] == [] && frames[..0] == [];
    assert FramesRelated(w, [], [], []);
    assert FramesRelated(w, st.stack, frames, frames);
  }

  lemma NothingPlayed(w: World, s: Screen)
    requires s.Valid()
    ensures Play(w, s, Skeleton([])) == s
  {
    assert Skeleton([]) == [];
  }

  lemma RelatedEvents(w: World, st: Recorder, direct: Screen, replayed: Screen)
    requires Related(w, st, direct, replayed)
    ensures direct.events == replayed.events
  {
  }

  // Playing the records of a built list emits what playing the calls emits and then closing
  // whatever is still open: the same visible draws and layers in the same order, each with
  // the same paint, matrix and clip, although saves were deferred and calls were dropped.
  lemma RecordingPreservesMeaning(e: Engine, w: World, cull: Rect, prepareRTree: bool, calls: seq<Call>)
    requires SoundEngine(e, w) && w.optics.Valid() && AdmissibleRun(w, Begin(w, cull), calls)
    ensures var l := Build(e, cull, prepareRTree, calls);
            Play(w, Begin(w, cull), Dispatch(l.records)).events == Closed(Play(w, Begin(w, cull), calls)).events
  {
    hide SoundEngine, AdmissibleRun, PlayOne, Play, Closed, Step, Run, Finish, Related, Start, Skeleton;
    var st := Start(cull, prepareRTree);
    assert st.records == [] by { StartEmpty(cull, prepareRTree); }
    StartRelated(w, cull, prepareRTree);
    NothingPlayed(w, Begin(w, cull));
    RunKeepsMeaning(e, w, st, Begin(w, cull), Begin(w, cull), calls);
    FinishKeepsMeaning(e, w, Run(e, st, calls), Play(w, Begin(w, cull), calls), Begin(w, cull));
    var f := Finish(e, Run(e, st, calls));
    RelatedEvents(w, f, Closed(Play(w, Begin(w, cull), calls)), Play(w, Begin(w, cull), Skeleton(f.records)));
    SamePlay(w, Begin(w, cull), f.records);
  }

  lemma StartEmpty(cull: Rect, prepareRTree: bool)
    ensures Start(cull, prepareRTree).records == []
  {
  }

  lemma SamePlay(w: World, s: Screen, rs: seq<Record>)
    requires s.Valid()
    ensures Play(w, s, Dispatch(rs)) == Play(w, s, Skeleton(rs))
  {
    PlayIgnoresPatches(w, s, rs, |rs|);
    assert Dispatch(rs)[..|rs|] == Dispatch(rs) && Skeleton(rs)[..|rs|] == Skeleton(rs);
  }

  lemma {:induction false} AdmissibleConcat(w: World, s: Screen, x: seq<Call>, y: seq<Call>)
    requires s.Valid()
    ensures AdmissibleRun(w, s, x + y) <==> AdmissibleRun(w, s, x) && AdmissibleRun(w, Play(w, s, x), y)
  {
    hide Admissible;
    if y == [] {
      assert x + y == x;
    } else {
      AdmissibleConcat(w, s, x, y[..|y| - 1]);
      PlayConcat(w, s, x, y[..|y| - 1]);
      assert (x + y)[..|x + y| - 1] == x + y[..|y| - 1];
    }
  }

  lemma AdmissibleOne(w: World, s: Screen, c: Call)
    requires s.Valid()
    ensures AdmissibleRun(w, s, [c]) <==> Admissible(w, s, c)
    ensures AdmissibleRun(w, s, [])
  {
    assert [c][..0] == [];
  }
}
