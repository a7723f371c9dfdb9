/** From the calls to the culled dispatch: at every point of the query rectangle, the records that are sent
    show the same draws and nested lists, in the same layers, as the calls that were recorded. */
module CulledMeaning {
  import opened Geometry
  import opened Painting
  import opened Blending
  import opened DisplayLists
  import opened Recorder
  import opened Emission
  import opened Reference
  import opened Meaning
  import opened Extents
  import V = CulledReplay
  import D = CulledDispatch
  import Brackets

  // ---------- what shows at a point ----------

  // A draw or nested list that draws to the point, and the layers that are open around it.
  datatype Shown = Shown(event: Event, around: seq<Event>)

  ghost function Around(events: seq<Event>): seq<Event> {
    if events == [] then []
    else
      var outer, last := Around(events[..|events| - 1]), events[|events| - 1];
      match last
      case OpenEvent(_, _, _, _, _) => outer + [last]
      case CloseEvent => if outer == [] then [] else outer[..|outer| - 1]
      case _ => outer
  }

  ghost function ShownAt(w: World, events: seq<Event>, q: Point): seq<Shown> {
    if events == [] then []
    else
      var front, last := events[..|events| - 1], events[|events| - 1];
      ShownAt(w, front, q) + if DrawsTo(w, last, q) then [Shown(last, Around(front))] else []
  }

  lemma OneMoreEvent(w: World, events: seq<Event>, event: Event, q: Point)
    ensures ShownAt(w, events + [event], q) ==
            ShownAt(w, events, q) + if DrawsTo(w, event, q) then [Shown(event, Around(events))] else []
    ensures Around(events + [event]) ==
            match event {
              case OpenEvent(_, _, _, _, _) => Around(events) + [event]
              case CloseEvent => if Around(events) == [] then [] else Around(events)[..|Around(events)| - 1]
              case _ => Around(events)
            }
  {
    assert (events + [event])[..|events|] == events;
  }

  // ---------- the interpreter's state is a function of the view ----------

  ghost function ChangedOnce(w: World, f: Frame, c: Call): Frame {
    if c.TransformCall? then Moved(f, c.transform) else if c.ClipCall? then Cropped(w, f, c) else f
  }

  ghost function Changed(w: World, f: Frame, changes: seq<Call>): Frame {
    if changes == [] then f
    else ChangedOnce(w, Changed(w, f, changes[..|changes| - 1]), changes[|changes| - 1])
  }

  // The state that a save opens.
  ghost function Opened(w: World, f: Frame, v: V.Frame): Frame {
    if v.opener.Some? && v.opener.value.LayerCall?
    then LayerFrame(w, Screen([f], v.paint, []), v.opener.value.withPaint) else f.(open := false)
  }

  ghost function FramesOf(w: World, cull: Rect, vs: seq<V.Frame>): (fs: seq<Frame>)
    requires vs != []
    ensures |fs| == |vs|
  {
    var n := |vs| - 1;
    if n == 0 then [Changed(w, Begin(w, cull).Top(), vs[0].changes)]
    else
      var under := FramesOf(w, cull, vs[..n]);
      under + [Changed(w, Opened(w, under[n - 1], vs[n]), vs[n].changes)]
  }

  ghost function AroundOf(w: World, cull: Rect, vs: seq<V.Frame>): seq<Event>
    requires vs != []
  {
    var n := |vs| - 1;
    if n == 0 then []
    else
      var outer, f := AroundOf(w, cull, vs[..n]), FramesOf(w, cull, vs[..n])[n - 1];
      if Opened(w, f, vs[n]).open then outer + [OpeningOf(f, vs[n])] else outer
  }

  ghost function OpeningOf(f: Frame, v: V.Frame): Event {
    if v.opener.Some? && v.opener.value.LayerCall?
    then OpenEvent(v.opener.value.withPaint, v.paint, v.opener.value.backdrop, f.matrix, f.clip) else CloseEvent
  }

  // The interpreter is where the view says.
  ghost predicate At(w: World, cull: Rect, v: V.View, s: Screen) {
    && v.frames != [] && s.frames == FramesOf(w, cull, v.frames) && s.paint == v.paint
    && Around(s.events) == AroundOf(w, cull, v.frames)
  }

  lemma {:induction false} ChangedOpen(w: World, f: Frame, changes: seq<Call>)
    ensures Changed(w, f, changes).open == f.open
  {
    if changes != [] { ChangedOpen(w, f, changes[..|changes| - 1]); }
  }

  lemma StartAt(w: World, cull: Rect)
    ensures At(w, cull, V.FIRST, Begin(w, cull))
  {
    assert Changed(w, Begin(w, cull).Top(), []) == Begin(w, cull).Top();
  }

  lemma SaveAt(w: World, cull: Rect, v: V.View, s: Screen, r: Record)
    requires At(w, cull, v, s) && r.IsSave()
    ensures At(w, cull, V.See(v, r), PlayOne(w, s, Settled(r)))
  {
    hide ShowsLayer, HasEffect;
    var v', s', n := V.See(v, r), PlayOne(w, s, Settled(r)), |v.frames|;
    var top := v'.frames[n];
    assert v'.frames[..n] == v.frames;
    assert Changed(w, Opened(w, s.Top(), top), []) == Opened(w, s.Top(), top);
    assert s'.frames == s.frames + [Opened(w, s.Top(), top)];
    if Opened(w, s.Top(), top).open {
      assert s'.events == s.events + [OpeningOf(s.Top(), top)];
      OneMoreEvent(w, s.events, OpeningOf(s.Top(), top), Point(0.0, 0.0));
    }
  }

  lemma RestoreAt(w: World, cull: Rect, v: V.View, s: Screen)
    requires At(w, cull, v, s) && |v.frames| > 1
    ensures At(w, cull, V.See(v, RestoreRec), PlayOne(w, s, RestoreCall))
  {
    var n := |v.frames| - 1;
    var under := FramesOf(w, cull, v.frames[..n]);
    assert s.frames[..n] == under;
    ChangedOpen(w, Opened(w, under[n - 1], v.frames[n]), v.frames[n].changes);
    if s.Top().open {
      OneMoreEvent(w, s.events, CloseEvent, Point(0.0, 0.0));
      var outer := AroundOf(w, cull, v.frames[..n]);
      assert Around(s.events) == outer + [OpeningOf(under[n - 1], v.frames[n])];
    }
  }

  // The state in which the top entry began.
  ghost function First(w: World, cull: Rect, vs: seq<V.Frame>): Frame
    requires vs != []
  {
    var n := |vs| - 1;
    if n == 0 then Begin(w, cull).Top() else Opened(w, FramesOf(w, cull, vs[..n])[n - 1], vs[n])
  }

  lemma TopChanged(w: World, cull: Rect, vs: seq<V.Frame>)
    requires vs != []
    ensures var n := |vs| - 1;
            && FramesOf(w, cull, vs)[n] == Changed(w, First(w, cull, vs), vs[n].changes)
            && FramesOf(w, cull, vs)[..n] == if n == 0 then [] else FramesOf(w, cull, vs[..n])
  {
    hide Changed, Opened;
  }

  // A change to the top entry changes nothing else.
  lemma ChangesOnTop(w: World, cull: Rect, vs: seq<V.Frame>, changes: seq<Call>)
    requires vs != []
    ensures var n := |vs| - 1; var vs' := vs[n := vs[n].(changes := changes)];
            && vs'[..n] == vs[..n] && First(w, cull, vs') == First(w, cull, vs)
            && AroundOf(w, cull, vs') == AroundOf(w, cull, vs)
  {
    hide Changed, FramesOf;
    var n := |vs| - 1;
    assert vs[n := vs[n].(changes := changes)][..n] == vs[..n];
  }

  lemma OneMoreChange(w: World, f: Frame, changes: seq<Call>, c: Call)
    ensures Changed(w, f, changes + [c]) == ChangedOnce(w, Changed(w, f, changes), c)
  {
    hide ChangedOnce;
    assert (changes + [c])[..|changes|] == changes;
  }

  lemma PlayChange(w: World, s: Screen, c: Call)
    requires s.Valid() && (c.TransformCall? || c.ClipCall?)
    ensures var s' := PlayOne(w, s, c);
            && |s'.frames| == |s.frames| && s'.frames == s.frames[..|s.frames| - 1] + [s'.Top()]
            && s'.paint == s.paint && s'.events == s.events
            && s'.Top() == ChangedOnce(w, s.Top(), c)
  {
    hide ClipBy, GlobalAfter;
  }

  lemma ChangeAt(w: World, cull: Rect, v: V.View, s: Screen, r: Record)
    requires At(w, cull, v, s) && V.Changes(r)
    ensures At(w, cull, V.See(v, r), PlayOne(w, s, Settled(r)))
  {
    hide Changed, ChangedOnce, FramesOf, AroundOf, First, PlayOne;
    var v', n, c := V.See(v, r), |v.frames| - 1, Settled(r);
    var s' := PlayOne(w, s, c);
    ChangesOnTop(w, cull, v.frames, v.frames[n].changes + [c]);
    TopChanged(w, cull, v.frames);
    TopChanged(w, cull, v'.frames);
    OneMoreChange(w, First(w, cull, v.frames), v.frames[n].changes, c);
    PlayChange(w, s, c);
    var fs := FramesOf(w, cull, v'.frames);
    assert fs == fs[..n] + [fs[n]];
  }

  lemma RenderAt(w: World, cull: Rect, v: V.View, s: Screen, r: Record)
    requires At(w, cull, v, s) && V.Renders(r)
    ensures At(w, cull, V.See(v, r), PlayOne(w, s, Settled(r)))
  {
    hide FramesOf, AroundOf, Around, PlayOne;
    var s' := PlayOne(w, s, Settled(r));
    RenderEvents(w, s, Settled(r));
    if s'.events != s.events {
      OneMoreEvent(w, s.events, s'.events[|s.events|], Point(0.0, 0.0));
    }
  }

  lemma RenderEvents(w: World, s: Screen, c: Call)
    requires s.Valid() && (c.DrawCall? || c.ListCall?)
    ensures var s' := PlayOne(w, s, c);
            && s'.frames == s.frames && s'.paint == s.paint
            && (s'.events == s.events ||
                (|s'.events| == |s.events| + 1 && s'.events == s.events + [s'.events[|s.events|]] &&
                 (s'.events[|s.events|].DrawEvent? || s'.events[|s.events|].ListEvent?)))
  {
    hide ShowsDraw, ShowsList;
  }

  lemma SeeIsPlay(w: World, cull: Rect, v: V.View, s: Screen, r: Record)
    requires At(w, cull, v, s) && (r.RestoreRec? ==> |v.frames| > 1)
    ensures At(w, cull, V.See(v, r), PlayOne(w, s, Settled(r)))
  {
    if r.IsSave() {
      SaveAt(w, cull, v, s, r);
    } else if r.RestoreRec? {
      RestoreAt(w, cull, v, s);
    } else if V.Changes(r) {
      ChangeAt(w, cull, v, s, r);
    } else if V.Renders(r) {
      RenderAt(w, cull, v, s, r);
    }
  }

  // ---------- full and partial replays ----------

  // In well-bracketed records the view has an entry for each open bracket.
  lemma {:induction false} FullHeight(rs: seq<Record>, n: nat)
    requires V.WellBracketed(rs) && n <= |rs|
    ensures |V.FullView(rs, n).frames| == Brackets.Height(Skeleton(rs), n) + 1
  {
    if n > 0 {
      FullHeight(rs, n - 1);
      assert Brackets.Height(Skeleton(rs), n) >= 0;
    }
  }

  lemma {:induction false} FullAt(w: World, cull: Rect, rs: seq<Record>, n: nat)
    requires V.WellBracketed(rs) && n <= |rs|
    ensures At(w, cull, V.FullView(rs, n), Play(w, Begin(w, cull), Skeleton(rs)[..n]))
  {
    hide At, V.See, PlayOne, V.WellBracketed;
    if n == 0 {
      StartAt(w, cull);
    } else {
      FullAt(w, cull, rs, n - 1);
      PlayNext(w, Begin(w, cull), rs, n - 1);
      if rs[n - 1].RestoreRec? { RestoresClose(rs, n - 1); }
      SeeIsPlay(w, cull, V.FullView(rs, n - 1), Play(w, Begin(w, cull), Skeleton(rs)[..n - 1]), rs[n - 1]);
    }
  }

  lemma RestoresClose(rs: seq<Record>, i: nat)
    requires V.WellBracketed(rs) && i < |rs| && rs[i].RestoreRec?
    ensures |V.FullView(rs, i).frames| > 1
  {
    FullHeight(rs, i);
    FullHeight(rs, i + 1);
    assert Brackets.Height(Skeleton(rs), i + 1) >= 0;
  }

  lemma PlayNext(w: World, s: Screen, rs: seq<Record>, i: nat)
    requires s.Valid() && i < |rs|
    ensures Play(w, s, Skeleton(rs)[..i + 1]) == PlayOne(w, Play(w, s, Skeleton(rs)[..i]), Settled(rs[i]))
  {
    hide PlayOne;
    assert Skeleton(rs)[..i + 1][..i] == Skeleton(rs)[..i];
  }

  // The records at these indices, as calls.
  function Sent(rs: seq<Record>, out: seq<nat>): (calls: seq<Call>)
    requires forall k :: 0 <= k < |out| ==> out[k] < |rs|
    ensures |calls| == |out|
  {
    seq(|out|, k requires 0 <= k < |out| => Dispatched(rs[out[k]]))
  }

  lemma SentNext(w: World, s: Screen, rs: seq<Record>, out: seq<nat>, k: nat)
    requires s.Valid() && (forall j :: 0 <= j < |out| ==> out[j] < |rs|) && k < |out|
    ensures Play(w, s, Sent(rs, out)[..k + 1]) == PlayOne(w, Play(w, s, Sent(rs, out)[..k]), Settled(rs[out[k]]))
  {
    hide ShowsLayer, ShowsDraw, ShowsList, LayerFrame;
    assert Sent(rs, out)[..k + 1][..k] == Sent(rs, out)[..k];
  }

  lemma {:induction false} PartAt(w: World, cull: Rect, rs: seq<Record>, out: seq<nat>, k: nat)
    requires V.Increasing(out, |rs|) && V.SameViews(rs, out) && k <= |out|
    ensures At(w, cull, V.PartView(rs, out[..k]), Play(w, Begin(w, cull), Sent(rs, out)[..k]))
  {
    hide At, V.See, PlayOne, Sent;
    if k == 0 {
      StartAt(w, cull);
      assert out[..0] == [] && Sent(rs, out)[..0] == [];
    } else {
      PartAt(w, cull, rs, out, k - 1);
      SentNext(w, Begin(w, cull), rs, out, k - 1);
      V.PartAppend(rs, out[..k - 1], out[k - 1]);
      assert out[..k] == out[..k - 1] + [out[k - 1]];
      assert V.SameView(rs, out[k - 1], V.PartView(rs, out[..k - 1]));
      SeeIsPlay(w, cull, V.PartView(rs, out[..k - 1]), Play(w, Begin(w, cull), Sent(rs, out)[..k - 1]), rs[out[k - 1]]);
    }
  }

  // ---------- the same draws ----------

  // In a full replay the record shows something at the point.
  ghost predicate ShowsHere(w: World, cull: Rect, sk: seq<Call>, i: nat, q: Point)
    requires i < |sk|
  {
    var s := Play(w, Begin(w, cull), sk[..i]);
    var s' := PlayOne(w, s, sk[i]);
    |s'.events| > |s.events| && DrawsTo(w, s'.events[|s.events|], q)
  }

  // From the same state a call shows the same.
  lemma SameShown(w: World, cull: Rect, v: V.View, a: Screen, b: Screen, c: Call, q: Point)
    requires At(w, cull, v, a) && At(w, cull, v, b) && ShownAt(w, a.events, q) == ShownAt(w, b.events, q)
    requires c.DrawCall? || c.ListCall?
    ensures ShownAt(w, PlayOne(w, a, c).events, q) == ShownAt(w, PlayOne(w, b, c).events, q)
  {
    hide ShowsDraw, ShowsList, ShownAt, Around, DrawsTo;
    var a', b' := PlayOne(w, a, c), PlayOne(w, b, c);
    if a'.events != a.events {
      OneMoreEvent(w, a.events, a'.events[|a.events|], q);
      OneMoreEvent(w, b.events, b'.events[|b.events|], q);
      assert a'.events == a.events + [a'.events[|a.events|]] && b'.events == b.events + [b'.events[|b.events|]];
    }
  }

  // Other calls show nothing by themselves.
  lemma NothingShown(w: World, s: Screen, c: Call, q: Point)
    requires s.Valid() && !c.DrawCall? && !c.ListCall?
    ensures ShownAt(w, PlayOne(w, s, c).events, q) == ShownAt(w, s.events, q)
  {
    hide ShowsLayer, LayerFrame, ShownAt, Around;
    var s' := PlayOne(w, s, c);
    if s'.events != s.events {
      OneMoreEvent(w, s.events, s'.events[|s.events|], q);
      assert s'.events == s.events + [s'.events[|s.events|]];
    }
  }

  lemma NotShownHere(w: World, cull: Rect, rs: seq<Record>, i: nat, q: Point)
    requires i < |rs| && V.Renders(rs[i]) && !ShowsHere(w, cull, Skeleton(rs), i, q)
    ensures var s := Play(w, Begin(w, cull), Skeleton(rs)[..i]);
            ShownAt(w, PlayOne(w, s, Settled(rs[i])).events, q) == ShownAt(w, s.events, q)
  {
    hide ShowsDraw, ShowsList, ShownAt, Around, Play, DrawsTo;
    var s := Play(w, Begin(w, cull), Skeleton(rs)[..i]);
    var s' := PlayOne(w, s, Settled(rs[i]));
    if s'.events != s.events {
      OneMoreEvent(w, s.events, s'.events[|s.events|], q);
      assert s'.events == s.events + [s'.events[|s.events|]];
    }
  }

  // Of the first n records the first k that are sent show the same, if all that show at the point are sent.
  lemma {:induction false} SentShowsTheSame(w: World, cull: Rect, rs: seq<Record>, out: seq<nat>, n: nat, k: nat,
                                            q: Point)
    requires V.WellBracketed(rs) && V.Increasing(out, |rs|) && V.SameViews(rs, out) && n <= |rs| && k <= |out|
    requires forall j :: 0 <= j < |out| ==> (out[j] < n <==> j < k)
    requires forall i :: 0 <= i < |rs| && V.Renders(rs[i]) && ShowsHere(w, cull, Skeleton(rs), i, q) ==> i in out
    ensures ShownAt(w, Play(w, Begin(w, cull), Sent(rs, out)[..k]).events, q) ==
            ShownAt(w, Play(w, Begin(w, cull), Skeleton(rs)[..n]).events, q)
    decreases n
  {
    hide V.WellBracketed, Sent, Play, PlayOne, ShownAt, At, ShowsHere, V.PartView, V.FullView, Skeleton;
    if n == 0 {
      SkeletonSize(rs);
      assert k == 0;
      assert Skeleton(rs)[..0] == [] && Sent(rs, out)[..0] == [];
    } else {
      var i, begin := n - 1, Begin(w, cull);
      SkeletonSize(rs);
      PlayNext(w, begin, rs, i);
      var full := Play(w, begin, Skeleton(rs)[..i]);
      if k > 0 && out[k - 1] == i {
        SentShowsTheSame(w, cull, rs, out, i, k - 1, q);
        SentNext(w, begin, rs, out, k - 1);
        var part := Play(w, begin, Sent(rs, out)[..k - 1]);
        if V.Renders(rs[i]) {
          FullAt(w, cull, rs, i);
          PartAt(w, cull, rs, out, k - 1);
          assert V.SameView(rs, out[k - 1], V.PartView(rs, out[..k - 1]));
          SameShown(w, cull, V.FullView(rs, i), full, part, Settled(rs[i]), q);
        } else {
          NothingShown(w, full, Settled(rs[i]), q);
          NothingShown(w, part, Settled(rs[i]), q);
        }
      } else {
        SentShowsTheSame(w, cull, rs, out, i, k, q);
        if V.Renders(rs[i]) {
          assert i !in out;
          NotShownHere(w, cull, rs, i, q);
        } else {
          NothingShown(w, full, Settled(rs[i]), q);
        }
      }
    }
  }

  lemma SkeletonSize(rs: seq<Record>)
    ensures |Skeleton(rs)| == |rs|
  {
  }

  // ---------- where draws show ----------

  // Whatever a record shows at a point, it has a rectangle with that point in the rtree.
  ghost predicate Located(w: World, cull: Rect, st: Recorder) {
    st.rtree.Some? &&
    forall i, q :: 0 <= i < |st.records| && V.Renders(st.records[i]) && ShowsHere(w, cull, Skeleton(st.records), i, q)
                   ==> HasLeaf(w.outer, st.rtree.value, i, q)
  }

  // What shows at a record depends on the records up to it.
  lemma ShowsHereAlike(w: World, cull: Rect, a: seq<Call>, b: seq<Call>, i: nat, q: Point)
    requires i < |a| && a <= b
    ensures ShowsHere(w, cull, a, i, q) == ShowsHere(w, cull, b, i, q)
  {
    hide PlayOne, Play, DrawsTo;
    assert a[..i] == b[..i];
  }

  lemma LeafStays(m: Matrix, a: seq<Leaf>, b: seq<Leaf>, id: nat, q: Point)
    requires HasLeaf(m, a, id, q) && a <= b
    ensures HasLeaf(m, b, id, q)
  {
    var i :| 0 <= i < |a| && a[i].id == id && InBase(m, a[i].rect, q);
    assert b[i] == a[i];
  }

  // A record that a step adds and that renders is that of the draw or list itself.
  lemma AddedRenders(e: Engine, st: Recorder, c: Call, i: nat)
    requires st.Sized() && |st.records| <= i < |Step(e, st, c).records| && V.Renders(Step(e, st, c).records[i])
    ensures |st.layers| > 0 && (c.DrawCall? || c.ListCall?) && i == |st.records|
    ensures Emits(e, st, c) == [Settled(Step(e, st, c).records[i])]
  {
    hide Step, RecordsDraw, RecordsList, RecordsClip, MakesLayer, Trivial;
    StepEmits(e, st, c);
    var sk, sk' := Skeleton(st.records), Skeleton(Step(e, st, c).records);
    assert sk'[i] == Settled(Step(e, st, c).records[i]);
    assert sk'[i] == Emits(e, st, c)[i - |sk|];
  }

  lemma StepLocated(e: Engine, w: World, cull: Rect, st: Recorder, direct: Screen, c: Call)
    requires SoundEngine(e, w) && w.optics.Valid() && st.Sized() && |st.layers| > 0 && NoFilters(st.layers)
    requires Related(w, st, direct, Play(w, Begin(w, cull), Skeleton(st.records))) && Admissible(w, direct, c)
    requires Located(w, cull, st)
    ensures Located(w, cull, Step(e, st, c))
  {
    hide SoundEngine, Related, Step, ShowsHere, Emits, V.Renders, HasLeaf, NoFilters, Admissible, Play;
    var st', sk := Step(e, st, c), Skeleton(st.records);
    StepEmits(e, st, c);
    StepLeavesStay(e, st, c);
    forall i, q | 0 <= i < |st'.records| && V.Renders(st'.records[i])
                  && ShowsHere(w, cull, Skeleton(st'.records), i, q)
      ensures HasLeaf(w.outer, st'.rtree.value, i, q)
    {
      if i < |st.records| {
        ShowsHereAlike(w, cull, sk, Skeleton(st'.records), i, q);
        SameRecord(st.records, st'.records, i);
        LeafStays(w.outer, st.rtree.value, st'.rtree.value, i, q);
      } else {
        NewLocated(e, w, cull, st, direct, c, i, q);
      }
    }
  }

  lemma SameRecord(a: seq<Record>, b: seq<Record>, i: nat)
    requires i < |a| && Skeleton(a) <= Skeleton(b)
    ensures i < |b| && V.Renders(a[i]) == V.Renders(b[i])
  {
    assert Skeleton(a)[i] == Skeleton(b)[i];
  }

  lemma NewLocated(e: Engine, w: World, cull: Rect, st: Recorder, direct: Screen, c: Call, i: nat, q: Point)
    requires SoundEngine(e, w) && w.optics.Valid() && st.Sized() && |st.layers| > 0
    requires Related(w, st, direct, Play(w, Begin(w, cull), Skeleton(st.records))) && Admissible(w, direct, c)
    requires |st.records| <= i < |Step(e, st, c).records| && V.Renders(Step(e, st, c).records[i])
    requires Step(e, st, c).rtree.Some? && ShowsHere(w, cull, Skeleton(Step(e, st, c).records), i, q)
    ensures HasLeaf(w.outer, Step(e, st, c).rtree.value, i, q)
  {
    hide SoundEngine, Related, Step, Emits, HasLeaf, Admissible, Play, DrawsTo, PlayOne, Noted;
    var st', replayed := Step(e, st, c), Play(w, Begin(w, cull), Skeleton(st.records));
    AddedRenders(e, st, c, i);
    StepEmits(e, st, c);
    var call := Settled(st'.records[i]);
    assert Skeleton(st'.records)[..i] == Skeleton(st.records) && Skeleton(st'.records)[i] == call;
    StepKeepsMeaning(e, w, st, direct, replayed, c);
    RelatedSized(w, st, direct, replayed);
    PlayTwo(w, replayed, call, call);
    RelatedEvents(w, st, direct, replayed);
    RelatedEvents(w, st', PlayOne(w, direct, c), PlayOne(w, replayed, call));
    ShownIsNoted(e, w, st, direct, replayed, c, q);
  }

  lemma {:induction false} RunLocated(e: Engine, w: World, cull: Rect, calls: seq<Call>)
    requires SoundEngine(e, w) && w.optics.Valid() && AdmissibleRun(w, Begin(w, cull), calls) && PlainLayers(calls)
    ensures Located(w, cull, Run(e, Start(cull, true), calls))
  {
    hide SoundEngine, Related, Admissible, PlayOne, Step, Located, NoFilters, AllNoted, Skeleton;
    var start := Start(cull, true);
    if calls == [] {
      StartLocated(w, cull);
    } else {
      var front, c := calls[..|calls| - 1], calls[|calls| - 1];
      PlainFront(calls);
      RunLocated(e, w, cull, front);
      RunNotes(e, w, cull, true, front);
      StartEmpty(cull, true);
      StartRelated(w, cull, true);
      NothingPlayed(w, Begin(w, cull));
      RunKeepsMeaning(e, w, start, Begin(w, cull), Begin(w, cull), front);
      var st := Run(e, start, front);
      LayerCountPositive(st.stack);
      StepLocated(e, w, cull, st, Play(w, Begin(w, cull), front), c);
    }
  }

  lemma StartLocated(w: World, cull: Rect)
    ensures Located(w, cull, Start(cull, true))
  {
  }

  lemma {:induction false} RestoresAdmissible(w: World, s: Screen, n: nat)
    requires s.Valid()
    ensures AdmissibleRun(w, s, Restores(n))
  {
    if n > 0 {
      RestoresAdmissible(w, s, n - 1);
      assert Restores(n)[..n - 1] == Restores(n - 1);
    }
  }

  lemma PlainRestores(calls: seq<Call>, n: nat)
    requires PlainLayers(calls)
    ensures PlainLayers(calls + Restores(n))
  {
    var all := calls + Restores(n);
    assert forall i :: 0 <= i < |calls| ==> all[i] == calls[i] && all[..i] == calls[..i];
  }

  // So everything that a built list shows at a point has a rectangle with the point.
  lemma BuiltLocated(e: Engine, w: World, cull: Rect, calls: seq<Call>, i: nat, q: Point)
    requires SoundEngine(e, w) && w.optics.Valid() && AdmissibleRun(w, Begin(w, cull), calls) && PlainLayers(calls)
    requires var l := Build(e, cull, true, calls);
             i < |l.records| && V.Renders(l.records[i]) && ShowsHere(w, cull, Skeleton(l.records), i, q)
    ensures var l := Build(e, cull, true, calls); l.rtree.Some? && HasLeaf(w.outer, l.rtree.value, i, q)
  {
    hide SoundEngine, AdmissibleRun, Build, Run, Start, Play, ShowsHere, V.Renders, HasLeaf, Skeleton;
    D.BuiltAsRun(e, cull, calls);
    var restores := D.LastRestores(e, cull, calls);
    RestoresAdmissible(w, Play(w, Begin(w, cull), calls), |restores|);
    AdmissibleConcat(w, Begin(w, cull), calls, restores);
    PlainRestores(calls, |restores|);
    RunLocated(e, w, cull, calls + restores);
  }

  // A rectangle with a point of the query meets the query, in any outer coordinates.
  lemma LeafMeets(m: Matrix, leaves: seq<Leaf>, id: nat, query: Rect, q: Point)
    requires HasLeaf(m, leaves, id, q) && InBase(m, query, q)
    ensures exists i :: 0 <= i < |leaves| && leaves[i].id == id && Intersects(leaves[i].rect, query)
  {
    hide MapRect;
    var i :| 0 <= i < |leaves| && leaves[i].id == id && InBase(m, leaves[i].rect, q);
    if !Intersects(leaves[i].rect, query) { MapKeepsApart(m, leaves[i].rect, query, q); }
  }

  // ---------- from the calls to the culled dispatch ----------

  // At every point of the query rectangle, playing the records that a culled dispatch sends shows what playing
  // the calls shows: the same draws and nested lists in the same order, each with the same paint, matrix and
  // exact clip and in the same open layers.
  lemma CulledDispatchShowsTheSame(e: Engine, w: World, cull: Rect, calls: seq<Call>, query: Rect, out: seq<nat>,
                                   q: Point)
    requires SoundEngine(e, w) && w.optics.Valid() && AdmissibleRun(w, Begin(w, cull), calls) && PlainLayers(calls)
    requires var l := Build(e, cull, true, calls);
             |l.records| <= V.NO_RESTORE && l.rtree.Some? && D.ExactlyWhatMeets(l, query, out)
    requires InBase(w.outer, query, q)
    ensures ShownAt(w, Play(w, Begin(w, cull), Sent(Build(e, cull, true, calls).records, out)).events, q) ==
            ShownAt(w, Closed(Play(w, Begin(w, cull), calls)).events, q)
  {
    hide SoundEngine, AdmissibleRun, Build, Play, Closed, ShownAt, Sent, ShowsHere, V.Renders, HasLeaf, Dispatch;
    hide V.WellBracketed, V.SameViews, Skeleton, V.Paired, V.PartView, InBase;
    var l := Build(e, cull, true, calls);
    D.BuiltListsAreReplayable(e, cull, true, calls);
    SkeletonSize(l.records);
    forall i | 0 <= i < |l.records| && V.Renders(l.records[i]) && ShowsHere(w, cull, Skeleton(l.records), i, q)
      ensures i in out
    {
      BuiltLocated(e, w, cull, calls, i, q);
      LeafMeets(w.outer, l.rtree.value, i, query, q);
      assert D.Meets(l, i, query);
    }
    SentShowsTheSame(w, cull, l.records, out, |l.records|, |out|, q);
    assert Sent(l.records, out)[..|out|] == Sent(l.records, out);
    assert Skeleton(l.records)[..|l.records|] == Skeleton(l.records);
    SamePlay(w, Begin(w, cull), l.records);
    RecordingPreservesMeaning(e, w, cull, true, calls);
  }
}
