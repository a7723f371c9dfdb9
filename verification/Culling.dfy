/** What the recorder culls. A walk over the calls keeps, for each saved state, the clips since the root
    and since the layer began, each with its own matrix; a draw is recorded exactly if its area reaches
    what these clips leave, one narrowed after the other. */
module Culling {
  import opened Geometry
  import opened Painting
  import opened DisplayLists
  import opened Recorder
  import opened Emission

  datatype Clip = Clip(matrix: Matrix, shape: Shape, op: ClipOp, aa: bool)

  // A cull rectangle is narrowed by one clip after the other.
  function Narrowed(e: Engine, base: Rect, clips: seq<Clip>): Rect {
    if clips == [] then base
    else
      var c, before := clips[|clips| - 1], Narrowed(e, base, clips[..|clips| - 1]);
      e.clipCull(Tracker(c.matrix, before), c.shape, c.op, c.aa)
  }

  // One saved state: the matrices to the device and to its layer, what the clips start from on the device
  // and in the layer, the clips, and whether nothing can be drawn any more.
  datatype Frame = Frame(
    global: Matrix, local: Matrix, base: Rect, layerBase: Rect, clips: seq<Clip>, layerClips: seq<Clip>, dead: bool)
  {
    function Cull(e: Engine): Rect { Narrowed(e, base, clips) }

    function LayerCull(e: Engine): Rect { Narrowed(e, layerBase, layerClips) }
  }

  datatype Walk = Walk(frames: seq<Frame>, paint: Paint) {
    function Top(): Frame
      requires frames != []
    {
      frames[|frames| - 1]
    }
  }

  function WithTop(w: Walk, f: Frame): Walk
    requires w.frames != []
  {
    w.(frames := w.frames[|w.frames| - 1 := f])
  }

  // Where the clips of a layer start: with a filter, at what the filter can use of the clip around it.
  function LayerBase(e: Engine, f: Frame, filter: Option<ImageFilter>): Frame {
    match filter
    case None => f
    case Some(i) =>
      var input := e.inputBounds(i, f.global, f.Cull(e));
      f.(base := match input case None => MAX_CULL case Some(r) => if r.IsEmpty() then EMPTY else r, clips := [])
  }

  function Entered(e: Engine, f: Frame, filter: Option<ImageFilter>, bounds: Option<Rect>): Frame {
    var start := LayerBase(e, f, filter);
    start.(local := IDENTITY, layerBase := MAX_CULL, layerClips := [],
           clips := if bounds.None? then start.clips
                    else start.clips + [Clip(f.global, Shape(RectShape, bounds.value, 0), Intersect, false)])
  }

  // A clip of the layer may be left out if an earlier one in the layer is known to be no wider.
  function Clipping(e: Engine, f: Frame, shape: Shape, op: ClipOp, aa: bool): Frame {
    var redundant := f.layerClips != [] && op == Intersect && shape.kind != PathShape
                     && e.coversCull(Tracker(f.local, f.LayerCull(e)), shape);
    if f.dead || redundant then f
    else
      var more := f.(clips := f.clips + [Clip(f.global, shape, op, aa)],
                     layerClips := f.layerClips + [Clip(f.local, shape, op, aa)]);
      more.(dead := more.Cull(e).IsEmpty() || more.LayerCull(e).IsEmpty())
  }

  function WalkOne(e: Engine, w: Walk, c: Call): (r: Walk)
    requires w.frames != []
    ensures r.frames != []
  {
    var top := w.Top();
    match c
    case AttrCall(a) => w.(paint := SetAttr(w.paint, a))
    case SaveCall => w.(frames := w.frames + [top])
    case LayerCall(b, withPaint, fromCaller, _) =>
      var shows := PaintResult(top.dead, w.paint, LayerFlags(withPaint)) != NoEffect;
      w.(frames := w.frames + [
           if !shows then top.(dead := true)
           else Entered(e, top, if withPaint then w.paint.imageFilter else None, if fromCaller then Some(b) else None)])
    case RestoreCall => if |w.frames| <= 1 then w else w.(frames := w.frames[..|w.frames| - 1])
    case TransformCall(t) =>
      WithTop(w, top.(global := GlobalAfter(top.global, t), local := LocalAfter(top.global, top.local, t)))
    case ClipCall(shape, op, aa) => WithTop(w, Clipping(e, top, shape, op, aa))
    case _ => w
  }

  function WalkAll(e: Engine, cull: Rect, calls: seq<Call>): (r: Walk)
    ensures r.frames != []
  {
    if calls == [] then
      Walk([Frame(IDENTITY, IDENTITY, cull, cull, [], [], cull.IsEmpty())], DefaultPaint(BLACK))
    else WalkOne(e, WalkAll(e, cull, calls[..|calls| - 1]), calls[|calls| - 1])
  }

  // ---------- the recorder follows the walk ----------

  // In a dead state the cull rectangles no longer matter.
  ghost predicate EntryFollows(e: Engine, s: Save, f: Frame) {
    && s.nop == f.dead && s.global.matrix == f.global && s.local.matrix == f.local
    && (!f.dead ==>
          && s.global.cull == f.Cull(e) && s.local.cull == f.LayerCull(e)
          && (s.validClip <==> f.layerClips != []))
  }

  ghost predicate Follows(e: Engine, st: Recorder, w: Walk) {
    && st.paint == w.paint && |st.stack| == |w.frames| > 0
    && forall i :: 0 <= i < |st.stack| ==> EntryFollows(e, st.stack[i], w.frames[i])
  }

  lemma NarrowedMore(e: Engine, base: Rect, clips: seq<Clip>, c: Clip)
    ensures Narrowed(e, base, clips + [c]) ==
            e.clipCull(Tracker(c.matrix, Narrowed(e, base, clips)), c.shape, c.op, c.aa)
  {
    assert (clips + [c])[..|clips|] == clips;
  }

  lemma TopFollows(e: Engine, st: Recorder, w: Walk, st': Recorder, f: Frame)
    requires Follows(e, st, w) && st'.paint == st.paint
    requires |st'.stack| == |st.stack| && st'.stack == st.stack[|st.stack| - 1 := st'.Top()]
    requires EntryFollows(e, st'.Top(), f)
    ensures Follows(e, st', WithTop(w, f))
  {
    hide EntryFollows;
  }

  lemma PushFollows(e: Engine, st: Recorder, w: Walk, st': Recorder, f: Frame)
    requires Follows(e, st, w) && st'.paint == st.paint
    requires |st'.stack| == |st.stack| + 1 && st'.stack == st.stack + [st'.Top()]
    requires EntryFollows(e, st'.Top(), f)
    ensures Follows(e, st', w.(frames := w.frames + [f]))
  {
    hide EntryFollows;
  }

  lemma EnteredFollows(e: Engine, st: Recorder, f: Frame, c: Call)
    requires |st.stack| > 0 && c.LayerCall? && EntryFollows(e, st.Top(), f) && !f.dead
    ensures EntryFollows(e, LayerEntry(e, st, c.bounds, c.withPaint, c.fromCaller),
                         Entered(e, f, LayerFilter(st, c.withPaint), if c.fromCaller then Some(c.bounds) else None))
  {
    hide Narrowed;
    var start := LayerBase(e, f, LayerFilter(st, c.withPaint));
    NarrowedNothing(e, start.base);
    NarrowedNothing(e, MAX_CULL);
    NarrowedMore(e, start.base, start.clips, Clip(f.global, Shape(RectShape, c.bounds, 0), Intersect, false));
  }

  lemma LayerFollows(e: Engine, st: Recorder, w: Walk, c: Call)
    requires st.Sized() && Follows(e, st, w) && c.LayerCall?
    ensures Follows(e, Step(e, st, c), WalkOne(e, w, c))
  {
    hide PaintResult, OuterSink, LayerEntry, Entered, LayerCount, Deeper;
    LayerCountPositive(st.stack);
    var st', top, filter := Step(e, st, c), w.Top(), LayerFilter(st, c.withPaint);
    assert EntryFollows(e, st.Top(), top);
    if MakesLayer(st, c.withPaint) {
      assert !top.dead by { NotNop(st, st.paint, LayerFlags(c.withPaint)); }
      EnteredFollows(e, st, top, c);
      hide EntryFollows;
      PushFollows(e, st, w, st', Entered(e, top, filter, if c.fromCaller then Some(c.bounds) else None));
    } else {
      PushFollows(e, st, w, st', top.(dead := true));
    }
  }

  lemma NarrowedNothing(e: Engine, base: Rect)
    ensures Narrowed(e, base, []) == base
  {
  }

  // What a clip makes of an entry, but for the record of a pending save.
  function ClippedEntry(e: Engine, s: Save, c: Call): Save
    requires c.ClipCall?
  {
    var clipped := Clipped(e, s, c.shape, c.op, c.aa);
    if s.nop || RedundantClip(e, s, c.shape, c.op) then s
    else if clipped.global.cull.IsEmpty() || clipped.local.cull.IsEmpty() then clipped.(nop := true)
    else clipped.(validClip := true)
  }

  lemma ClipTop(e: Engine, st: Recorder, c: Call)
    requires |st.stack| > 0 && c.ClipCall?
    ensures var st', s := ClipStep(e, st, c.shape, c.op, c.aa), ClippedEntry(e, st.Top(), c);
            && |st'.stack| == |st.stack| && st'.stack == st.stack[|st.stack| - 1 := st'.Top()] && st'.paint == st.paint
            && st'.Top().(deferred := s.deferred, saveIndex := s.saveIndex, saveDepth := s.saveDepth) == s
  {
    hide RedundantClip, Clipped, Deeper;
  }

  lemma ClippedFollows(e: Engine, s: Save, f: Frame, c: Call)
    requires EntryFollows(e, s, f) && c.ClipCall?
    ensures EntryFollows(e, ClippedEntry(e, s, c), Clipping(e, f, c.shape, c.op, c.aa))
  {
    hide Narrowed;
    NarrowedMore(e, f.base, f.clips, Clip(f.global, c.shape, c.op, c.aa));
    NarrowedMore(e, f.layerBase, f.layerClips, Clip(f.local, c.shape, c.op, c.aa));
  }

  lemma SameEntry(e: Engine, s: Save, t: Save, f: Frame)
    requires EntryFollows(e, s, f)
    requires t.(deferred := s.deferred, saveIndex := s.saveIndex, saveDepth := s.saveDepth) == s
    ensures EntryFollows(e, t, f)
  {
  }

  lemma ClipFollows(e: Engine, st: Recorder, w: Walk, c: Call)
    requires st.Sized() && Follows(e, st, w) && c.ClipCall?
    ensures Follows(e, Step(e, st, c), WalkOne(e, w, c))
  {
    hide EntryFollows, ClippedEntry, Clipping, ClipStep, LayerCount;
    var top, s := w.Top(), st.Top();
    assert EntryFollows(e, s, top);
    ClipTop(e, st, c);
    ClippedFollows(e, s, top, c);
    SameEntry(e, ClippedEntry(e, s, c), Step(e, st, c).Top(), Clipping(e, top, c.shape, c.op, c.aa));
    TopFollows(e, st, w, Step(e, st, c), Clipping(e, top, c.shape, c.op, c.aa));
  }

  lemma TransformTop(st: Recorder, given: Transform)
    requires |st.stack| > 0
    ensures var st', t, s := TransformStep(st, given), Normal(given), st.Top();
            && |st'.stack| == |st.stack| && st'.stack == st.stack[|st.stack| - 1 := st'.Top()] && st'.paint == st.paint
            && st'.Top().(deferred := s.deferred, saveIndex := s.saveIndex, saveDepth := s.saveDepth) ==
               if Trivial(t) then s else Transformed(s, t)
  {
    hide LocalAfter, GlobalAfter, Normal, Trivial, Deeper;
  }

  lemma MovedFollows(e: Engine, s: Save, f: Frame, t: Transform)
    requires EntryFollows(e, s, f)
    ensures EntryFollows(e, if Trivial(Normal(t)) then s else Transformed(s, Normal(t)),
                         f.(global := GlobalAfter(f.global, t), local := LocalAfter(f.global, f.local, t)))
  {
    hide Narrowed, LocalAfter, GlobalAfter, Normal, Trivial;
    NormalMoves(f.global, f.local, t);
  }

  lemma TransformFollows(e: Engine, st: Recorder, w: Walk, c: Call)
    requires st.Sized() && Follows(e, st, w) && c.TransformCall?
    ensures Follows(e, Step(e, st, c), WalkOne(e, w, c))
  {
    hide EntryFollows, Transformed, TransformStep, LocalAfter, GlobalAfter, Normal, Trivial, LayerCount;
    var top, t, st' := w.Top(), c.transform, Step(e, st, c);
    var moved := top.(global := GlobalAfter(top.global, t), local := LocalAfter(top.global, top.local, t));
    assert EntryFollows(e, st.Top(), top);
    TransformTop(st, t);
    MovedFollows(e, st.Top(), top, t);
    SameEntry(e, if Trivial(Normal(t)) then st.Top() else Transformed(st.Top(), Normal(t)), st'.Top(), moved);
    TopFollows(e, st, w, st', moved);
  }

  // Recording a transform in its normal form, or not at all, moves nothing else.
  lemma NormalMoves(global: Matrix, local: Matrix, t: Transform)
    ensures GlobalAfter(global, Normal(t)) == GlobalAfter(global, t)
    ensures LocalAfter(global, local, Normal(t)) == LocalAfter(global, local, t)
    ensures Trivial(Normal(t)) ==> GlobalAfter(global, t) == global && LocalAfter(global, local, t) == local
  {
    ComposeIdentity(global);
    ComposeIdentity(local);
    assert Trivial(Normal(t)) ==> !t.Reset? && MatrixOf(Normal(t)) == IDENTITY;
  }

  lemma StepFollows(e: Engine, st: Recorder, w: Walk, c: Call)
    requires st.Sized() && Follows(e, st, w)
    ensures Follows(e, Step(e, st, c), WalkOne(e, w, c))
  {
    match c {
      case AttrCall(a) => DrawsKeepStack(e, st, c);
      case SaveCall =>
        assert EntryFollows(e, st.Top(), w.Top());
        PushFollows(e, st, w, Step(e, st, c), w.Top());
      case LayerCall(_, _, _, _) => LayerFollows(e, st, w, c);
      case RestoreCall =>
        hide EntryFollows, RestoreStep;
        RestorePaint(e, st);
        if |st.stack| <= 1 { RestoreNothing(e, st); }
      case TransformCall(_) => TransformFollows(e, st, w, c);
      case ClipCall(_, _, _) => ClipFollows(e, st, w, c);
      case _ =>
        hide EntryFollows, DrawStep, ListStep;
        DrawsKeepStack(e, st, c);
        DrawsKeepPaint(e, st, c);
    }
  }

  lemma DrawsKeepPaint(e: Engine, st: Recorder, c: Call)
    requires st.Sized() && (c.DrawCall? || c.ListCall?)
    ensures Step(e, st, c).paint == st.paint
  {
    hide PaintResult, AccumulateArea, AccumulateList, NoteDraw, NoteList, SkipsList, LayerCount, Deeper;
    LayerCountPositive(st.stack);
  }

  lemma {:induction false} RunFollows(e: Engine, cull: Rect, prepareRTree: bool, calls: seq<Call>)
    ensures Follows(e, Run(e, Start(cull, prepareRTree), calls), WalkAll(e, cull, calls))
  {
    hide Step, WalkOne;
    if calls != [] {
      var n := |calls| - 1;
      RunFollows(e, cull, prepareRTree, calls[..n]);
      StepFollows(e, Run(e, Start(cull, prepareRTree), calls[..n]), WalkAll(e, cull, calls[..n]), calls[n]);
    }
  }

  // ---------- what is recorded ----------

  // Something of an area lies in both cull rectangles; of an unknown area, something of the clip does.
  predicate Reaches(global: Matrix, local: Matrix, cull: Rect, layerCull: Rect, area: Option<Rect>) {
    match area
    case Some(r) => Intersects(MapRect(global, r), cull) && Intersects(MapRect(local, r), layerCull)
    case None =>
      !cull.IsEmpty() && global.Invertible() && Intersects(MapRect(local, MapRect(Inverse(global), cull)), layerCull)
  }

  predicate FrameReaches(e: Engine, f: Frame, area: Option<Rect>) {
    !f.dead && Reaches(f.global, f.local, f.Cull(e), f.LayerCull(e), area)
  }

  // The areas of a list: all of the clip, its bounds, or those of its rectangles that are asked for.
  function ListAreas(e: Engine, f: Frame, rtree: bool, l: DisplayList): seq<Option<Rect>> {
    if l.rootUnbounded then [None]
    else if !rtree || l.rtree.None? then [Some(l.bounds)]
    else
      var query := if f.Cull(e).IsEmpty() || !f.global.Invertible() then EMPTY
                   else MapRect(Inverse(f.global), f.Cull(e));
      var rs := e.consolidate(l.rtree.value, query);
      seq(|rs|, i requires 0 <= i < |rs| => Some(rs[i]))
  }

  // What of a rectangle is seen in a tracker's cull rectangle, and what is seen of everything.
  lemma TrackersAreExact(t: Tracker, r: Rect, p: Point)
    ensures Inside(p, MapAndClip(t, r)) <==> Inside(p, t.cull) && Inside(p, MapRect(t.matrix, r))
    ensures !t.cull.IsEmpty() && t.matrix.Invertible() ==> MapRect(t.matrix, LocalCoverage(t)) == t.cull
    ensures t.cull.IsEmpty() || !t.matrix.Invertible() ==> LocalCoverage(t).IsEmpty()
  {
    hide MapRect;
    if !t.cull.IsEmpty() && t.matrix.Invertible() { MapInverse(t.matrix, t.cull); }
  }

  lemma SaveReaches(s: Save, k: Sink, id: nat, area: Option<Rect>)
    ensures AccumulateArea(s, k, id, area).1 <==>
            Reaches(s.global.matrix, s.local.matrix, s.global.cull, s.local.cull, area)
  {
    hide MapRect;
    var g, l := s.global, s.local;
    MapNonEmpty(l.matrix, EMPTY);
    match area {
      case Some(r) =>
        MapNonEmpty(g.matrix, r);
        IntersectsIffNonEmpty(MapRect(g.matrix, r), g.cull);
        IntersectsIffNonEmpty(MapRect(l.matrix, r), l.cull);
      case None =>
        IntersectsIffNonEmpty(MapRect(l.matrix, LocalCoverage(g)), l.cull);
    }
  }

  // A draw is recorded if and only if its paint has an effect and its area reaches what the clips leave.
  lemma DrawsAreRecordedIff(e: Engine, cull: Rect, prepareRTree: bool, calls: seq<Call>, d: Op)
    ensures var st, w := Run(e, Start(cull, prepareRTree), calls), WalkAll(e, cull, calls);
            && st.paint == w.paint
            && Step(e, st, DrawCall(d)).records ==
                 if PaintResult(false, EffectPaint(w.paint, d), d.flags) != NoEffect
                    && FrameReaches(e, w.Top(), Area(e, w.paint, d))
                 then st.records + [DrawRec(d)] else st.records
  {
    hide PaintResult, Area, NoteDraw, AccumulateArea, LayerCount, Deeper, Run, WalkAll, Reaches;
    var st, w := Run(e, Start(cull, prepareRTree), calls), WalkAll(e, cull, calls);
    RunFollows(e, cull, prepareRTree, calls);
    LayerCountPositive(st.stack);
    assert EntryFollows(e, st.Top(), w.Top());
    NopHasNone(EffectPaint(st.paint, d), d.flags);
    if !w.Top().dead { SaveReaches(st.Top(), TopSink(st), |st.records|, Area(e, st.paint, d)); }
  }

  lemma NopHasNone(p: Paint, f: Flags)
    ensures PaintResult(true, p, f) == NoEffect
  {
  }

  lemma {:induction false} EachReaches(s: Save, k: Sink, id: nat, rs: seq<Rect>)
    ensures AccumulateEach(s, k, id, rs).1 <==>
            exists i :: 0 <= i < |rs|
                        && Reaches(s.global.matrix, s.local.matrix, s.global.cull, s.local.cull, Some(rs[i]))
  {
    hide Reaches, AccumulateBounds;
    if rs != [] {
      var n := |rs| - 1;
      EachReaches(s, k, id, rs[..n]);
      SaveReaches(s, AccumulateEach(s, k, id, rs[..n]).0, id, Some(rs[n]));
      assert forall i :: 0 <= i < n ==> rs[..n][i] == rs[i];
    }
  }

  // A nested list is recorded if and only if it is not skipped and one of its areas reaches that.
  lemma ListsAreRecordedIff(e: Engine, cull: Rect, prepareRTree: bool, calls: seq<Call>, l: DisplayList, o: real)
    ensures var st, w := Run(e, Start(cull, prepareRTree), calls), WalkAll(e, cull, calls);
            Step(e, st, ListCall(l, o)).records ==
              if o > NEARLY_ZERO && l.opCount > 0 && !l.bounds.IsEmpty()
                 && exists a :: a in ListAreas(e, w.Top(), st.rtree.Some?, l) && FrameReaches(e, w.Top(), a)
              then st.records + [ListRec(l, Min(o, 1.0))] else st.records
  {
    hide NoteList, AccumulateList, LayerCount, Deeper, Run, WalkAll, Reaches;
    var st, w := Run(e, Start(cull, prepareRTree), calls), WalkAll(e, cull, calls);
    RunFollows(e, cull, prepareRTree, calls);
    LayerCountPositive(st.stack);
    assert EntryFollows(e, st.Top(), w.Top());
    if !w.Top().dead {
      ListReaches(e, st.Top(), w.Top(), TopSink(st), |st.records|, l);
    }
  }

  lemma ListReaches(e: Engine, s: Save, f: Frame, k: Sink, id: nat, l: DisplayList)
    requires EntryFollows(e, s, f) && !f.dead
    ensures AccumulateList(e, s, k, id, l).1 <==>
            exists a :: a in ListAreas(e, f, k.rtree.Some?, l) && FrameReaches(e, f, a)
  {
    hide Reaches, AccumulateEach, AccumulateUnbounded, AccumulateBounds;
    var areas := ListAreas(e, f, k.rtree.Some?, l);
    if l.rootUnbounded {
      SaveReaches(s, k, id, None);
      assert AccumulateList(e, s, k, id, l).1 == AccumulateArea(s, k, id, None).1;
      assert areas == [None] && None in areas;
    } else if k.rtree.None? || l.rtree.None? {
      SaveReaches(s, k, id, Some(l.bounds));
      assert AccumulateList(e, s, k, id, l).1 == AccumulateArea(s, k, id, Some(l.bounds)).1;
      assert areas == [Some(l.bounds)] && Some(l.bounds) in areas;
    } else {
      var rs := e.consolidate(l.rtree.value, LocalCoverage(s.global));
      EachReaches(s, k, id, rs);
      assert forall i :: 0 <= i < |rs| ==> areas[i] == Some(rs[i]);
      if i :| 0 <= i < |rs| && Reaches(s.global.matrix, s.local.matrix, s.global.cull, s.local.cull, Some(rs[i])) {
        assert areas[i] in areas;
      }
    }
  }
}
