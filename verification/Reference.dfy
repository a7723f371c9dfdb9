/** A plain interpreter of calls: an explicit save stack with exact clips, nothing deferred and
    nothing dropped. What it emits is the meaning of a sequence of calls, played under any matrix. */
module Reference {
  import opened Geometry
  import opened Painting
  import opened Blending
  import opened DisplayLists
  import opened Recorder

  // How pixels blend, the matrix under which the calls are played, and what covers which points of the
  // device under a matrix: shapes, the rectangles within them that a clip tracker may cut out,
  // operations, and the content of lists. What an image filter shows within a clip, it makes of the
  // content that it reaches; filters may have bounds for that or not.
  datatype World = World(
    optics: Optics,
    outer: Matrix,
    inside: (Shape, Matrix, Point) -> bool,
    holes: Shape -> seq<Rect>,
    footprint: (Paint, Op, Matrix, Point) -> bool,
    content: (DisplayList, Matrix, Point) -> bool,
    reach: (ImageFilter, Matrix, iset<Point>) -> iset<Point>,
    hasBounds: (ImageFilter, Matrix) -> bool)
  {
    // The matrix to the device.
    function At(m: Matrix): Matrix { Compose(outer, m) }
  }

  datatype Event =
    | DrawEvent(draw: Op, paint: Paint, matrix: Matrix, clip: iset<Point>)
    | ListEvent(list: DisplayList, opacity: real, matrix: Matrix, clip: iset<Point>)
    | OpenEvent(withPaint: bool, paint: Paint, backdrop: Option<Backdrop>, matrix: Matrix, clip: iset<Point>)
    | CloseEvent

  // One saved state, with the matrix at the start of its layer: dead inside a layer that cannot
  // show, open if it is a layer that shows.
  datatype Frame = Frame(matrix: Matrix, base: Matrix, clip: iset<Point>, dead: bool, open: bool)

  datatype Screen = Screen(frames: seq<Frame>, paint: Paint, events: seq<Event>) {
    ghost predicate Valid() { |frames| > 0 }

    ghost function Top(): Frame
      requires Valid()
    {
      frames[|frames| - 1]
    }
  }

  ghost predicate ShowsDraw(w: World, f: Frame, p: Paint, d: Op) {
    && !f.dead && HasEffect(w.optics, EffectPaint(p, d), d.flags)
    && exists q :: q in f.clip && w.footprint(p, d, w.At(f.matrix), q)
  }

  ghost predicate ShowsList(w: World, f: Frame, l: DisplayList, opacity: real) {
    !f.dead && opacity > NEARLY_ZERO && exists q :: q in f.clip && w.content(l, w.At(f.matrix), q)
  }

  ghost predicate ShowsLayer(w: World, f: Frame, p: Paint, withPaint: bool) {
    !f.dead && HasEffect(w.optics, p, LayerFlags(withPaint)) && f.clip != iset{}
  }

  ghost function SetFrame(s: Screen, f: Frame): Screen
    requires s.Valid()
  {
    s.(frames := s.frames[|s.frames| - 1 := f])
  }

  // A clip keeps the point.
  ghost predicate Keeps(w: World, s: Shape, op: ClipOp, m: Matrix, p: Point) { w.inside(s, m, p) <==> op == Intersect }

  ghost function ClipBy(w: World, f: Frame, s: Shape, op: ClipOp): iset<Point> {
    iset p | p in f.clip && Keeps(w, s, op, w.At(f.matrix), p)
  }

  // The content of a layer that can show.
  ghost function LayerClip(w: World, f: Frame, p: Paint, withPaint: bool): iset<Point> {
    if withPaint && p.imageFilter.Some? then w.reach(p.imageFilter.value, w.At(f.matrix), f.clip) else f.clip
  }

  // A layer's pixels that no paint lets through are dead.
  ghost function LayerFrame(w: World, s: Screen, withPaint: bool): Frame
    requires s.Valid()
  {
    var top := s.Top();
    Frame(top.matrix, top.matrix, LayerClip(w, top, s.paint, withPaint),
          top.dead || !HasEffect(w.optics, s.paint, LayerFlags(withPaint)), ShowsLayer(w, top, s.paint, withPaint))
  }

  ghost function PlayOne(w: World, s: Screen, c: Call): (r: Screen)
    requires s.Valid()
    ensures r.Valid()
  {
    var top := s.Top();
    match c
    case AttrCall(a) => s.(paint := SetAttr(s.paint, a))
    case SaveCall => s.(frames := s.frames + [top.(open := false)])
    case LayerCall(_, withPaint, _, backdrop) =>
      Screen(s.frames + [LayerFrame(w, s, withPaint)], s.paint,
             if ShowsLayer(w, top, s.paint, withPaint)
             then s.events + [OpenEvent(withPaint, s.paint, backdrop, top.matrix, top.clip)] else s.events)
    case RestoreCall =>
      if |s.frames| <= 1 then s
      else s.(frames := s.frames[..|s.frames| - 1], events := if top.open then s.events + [CloseEvent] else s.events)
    case TransformCall(t) => SetFrame(s, top.(matrix := GlobalAfter(top.matrix, t)))
    case ClipCall(shape, op, _) => SetFrame(s, top.(clip := ClipBy(w, top, shape, op)))
    case DrawCall(d) =>
      if ShowsDraw(w, top, s.paint, d) then
        s.(events := s.events + [DrawEvent(d, s.paint, top.matrix, top.clip)])
      else s
    case ListCall(l, opacity) =>
      if ShowsList(w, top, l, opacity) then
        s.(events := s.events + [ListEvent(l, Min(opacity, 1.0), top.matrix, top.clip)])
      else s
  }

  ghost function Play(w: World, s: Screen, calls: seq<Call>): (r: Screen)
    requires s.Valid()
    ensures r.Valid()
  {
    if calls == [] then s
    else PlayOne(w, Play(w, s, calls[..|calls| - 1]), calls[|calls| - 1])
  }

  // The states that are still open at the end are closed.
  ghost function Closed(s: Screen): Screen
    requires s.Valid()
    decreases |s.frames|
  {
    if |s.frames| <= 1 then s
    else
      Closed(s.(frames := s.frames[..|s.frames| - 1],
                events := if s.Top().open then s.events + [CloseEvent] else s.events))
  }

  ghost predicate InBase(base: Matrix, r: Rect, p: Point) { Inside(p, MapRect(base, r)) }

  // The root clip is the rectangle that the recorder was created with.
  ghost function Begin(w: World, cull: Rect): Screen {
    Screen([Frame(IDENTITY, IDENTITY, iset p | InBase(w.outer, cull, p), false, false)], DefaultPaint(BLACK), [])
  }

  lemma PlayAppend(w: World, s: Screen, calls: seq<Call>, c: Call)
    requires s.Valid()
    ensures Play(w, s, calls + [c]) == PlayOne(w, Play(w, s, calls), c)
  {
    assert (calls + [c])[..|calls|] == calls;
  }

  lemma OneIgnoresPatches(w: World, s: Screen, r: Record)
    requires s.Valid()
    ensures PlayOne(w, s, Dispatched(r)) == PlayOne(w, s, Settled(r))
  {
    hide HasEffect, LayerClip;
  }

  // The meaning of records does not depend on the fields that restores patch.
  lemma {:induction false} PlayIgnoresPatches(w: World, s: Screen, rs: seq<Record>, n: nat)
    requires s.Valid() && n <= |rs|
    ensures Play(w, s, Dispatch(rs)[..n]) == Play(w, s, Skeleton(rs)[..n])
  {
    hide PlayOne, Dispatched, Settled;
    if n > 0 {
      PlayIgnoresPatches(w, s, rs, n - 1);
      OneIgnoresPatches(w, Play(w, s, Skeleton(rs)[..n - 1]), rs[n - 1]);
      assert Dispatch(rs)[..n][..n - 1] == Dispatch(rs)[..n - 1] && Skeleton(rs)[..n][..n - 1] == Skeleton(rs)[..n - 1];
    }
  }

  // ---------- what the interpreter relies on ----------

  ghost predicate InAny(rects: seq<Rect>, m: Matrix, p: Point) {
    exists i :: 0 <= i < |rects| && Inside(p, MapRect(m, rects[i]))
  }

  // The points that a list says it draws to.
  ghost predicate InList(l: DisplayList, m: Matrix, p: Point) {
    && l.opCount > 0 && !l.bounds.IsEmpty()
    && (l.rootUnbounded ||
        (Inside(p, MapRect(m, l.bounds)) && (l.rtree.Some? ==> InAny(LeafRects(l.rtree.value), m, p))))
  }

  // A hole whose rounding moves no side outwards, or leaves nothing to cut.
  predicate SafeHole(hole: Rect) { Round(hole).IsEmpty() || Contains(hole, Round(hole)) }

  // The clips for which narrowing a cull rectangle loses no point: only the rounding of the holes
  // of an anti-aliased difference can. This can be told from the clip and the matrix.
  predicate SafeClip(w: World, s: Shape, op: ClipOp, aa: bool, m: Matrix) {
    op == Difference && aa ==> forall i :: 0 <= i < |w.holes(s)| ==> SafeHole(MapRect(m, w.holes(s)[i]))
  }

  // The conservative answers of the engine are right, for every outer matrix.

  ghost predicate SoundNarrowing(e: Engine, w: World) {
    forall t: Tracker, s, op, aa, base, p ::
      SafeClip(w, s, op, aa, t.matrix) && InBase(base, t.cull, p) && Keeps(w, s, op, Compose(base, t.matrix), p)
      ==> InBase(base, e.clipCull(t, s, op, aa), p)
  }

  ghost predicate SoundCovering(covers: (Tracker, Shape) -> bool, w: World) {
    forall t: Tracker, s: Shape, base, p ::
      s.kind != PathShape && covers(t, s) && InBase(base, t.cull, p) ==> w.inside(s, Compose(base, t.matrix), p)
  }

  ghost predicate SoundConsolidation(consolidate: (seq<Leaf>, Rect) -> seq<Rect>) {
    forall leaves: seq<Leaf>, query, m, p ::
      InAny(LeafRects(leaves), m, p) && InBase(m, query, p) ==> InAny(consolidate(leaves, query), m, p)
  }

  // What an operation draws to lies in the area that the recorder computes for it.
  ghost predicate SoundAreas(e: Engine, w: World) {
    && (forall p, d, m, q :: w.footprint(p, d, m, q) && Area(e, p, d).Some? ==>
        Inside(q, MapRect(m, Area(e, p, d).value)))
    && (forall l, m, q :: w.content(l, m, q) ==> InList(l, m, q))
  }

  // A filter that has bounds reaches nothing beyond them, and nothing at all to show nothing.
  ghost predicate SoundFilters(e: Engine, w: World) {
    && (forall f, m :: w.reach(f, m, iset{}) == iset{})
    && (forall f, m, r :: e.inputBounds(f, m, r).Some? <==> w.hasBounds(f, m))
    && (forall f, t: Tracker, base, clip, p ::
          (forall q :: q in clip ==> InBase(base, t.cull, q)) && p in w.reach(f, Compose(base, t.matrix), clip)
          && e.inputBounds(f, t.matrix, t.cull).Some? ==>
            InBase(base, e.inputBounds(f, t.matrix, t.cull).value, p))
  }

  ghost predicate SoundEngine(e: Engine, w: World) {
    && SoundNarrowing(e, w) && SoundCovering(e.coversCull, w) && SoundConsolidation(e.consolidate)
    && SoundAreas(e, w) && SoundFilters(e, w)
  }

  // The matrix since the start of the layer.
  function Local(base: Matrix, m: Matrix): Matrix { if base.Invertible() then Compose(Inverse(base), m) else m }

  // The whole clip lies in the rectangle that the tracker of a new layer starts with.
  ghost predicate FitsLayer(w: World, f: Frame) { forall p :: p in f.clip ==> InBase(w.At(f.matrix), MAX_CULL, p) }

  // What a filter without bounds reaches lies in the rectangle that stands for them.
  ghost predicate FitsFilter(w: World, f: Frame, p: Paint, withPaint: bool) {
    withPaint && p.imageFilter.Some? && !w.hasBounds(p.imageFilter.value, f.matrix) ==>
      forall q :: q in LayerClip(w, f, p, withPaint) ==> InBase(w.outer, MAX_CULL, q)
  }

  // Nothing shows, whatever follows in this state.
  ghost predicate Silent(f: Frame) { f.dead || f.clip == iset{} }

  // The static analysis is wrong about the paint of the layer, or of the draw.
  predicate LayerGap(w: World, p: Paint, withPaint: bool) {
    withPaint && NoEffectGap(w.optics, p, LayerFlags(withPaint))
  }

  predicate DrawGap(w: World, p: Paint, d: Op) { d.flags.blend && NoEffectGap(w.optics, EffectPaint(p, d), d.flags) }

  // What the streams of calls must keep to: safe clips, layers without caller bounds, no reset under a
  // matrix without inverse, and for whatever shows, a matrix with an inverse, a layer that starts within
  // the tracker's largest rectangle and no paint about which the static analysis is wrong.
  ghost predicate Admissible(w: World, s: Screen, c: Call)
    requires s.Valid()
  {
    var top := s.Top();
    match c
    case TransformCall(t) => t.Reset? && !Silent(top) ==> top.matrix.Invertible()
    case ClipCall(shape, op, aa) =>
      !Silent(top) ==>
        SafeClip(w, shape, op, aa, top.matrix) && SafeClip(w, shape, op, aa, Local(top.base, top.matrix))
    case LayerCall(_, withPaint, fromCaller, _) =>
      && !fromCaller
      && (withPaint ==> s.paint.color.Valid())
      && (ShowsLayer(w, top, s.paint, withPaint) ==>
            && FitsLayer(w, LayerFrame(w, s, withPaint)) && FitsFilter(w, top, s.paint, withPaint)
            && !LayerGap(w, s.paint, withPaint))
    case DrawCall(d) =>
      && (d.flags.blend ==> EffectPaint(s.paint, d).color.Valid())
      && (ShowsDraw(w, top, s.paint, d) ==> top.matrix.Invertible() && !DrawGap(w, s.paint, d))
    case ListCall(l, opacity) => ShowsList(w, top, l, opacity) ==> top.matrix.Invertible()
    case _ => true
  }

  ghost predicate AdmissibleRun(w: World, s: Screen, calls: seq<Call>)
    requires s.Valid()
  {
    calls == [] ||
    (AdmissibleRun(w, s, calls[..|calls| - 1]) &&
     Admissible(w, Play(w, s, calls[..|calls| - 1]), calls[|calls| - 1]))
  }
}
