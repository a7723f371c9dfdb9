/** The rtree data. A reference machine tags every rectangle with the layer it is in and follows
    each one alone, through the filters of the layers that close around it; the recorder, which
    only remembers where the rectangles of a layer start, is proved to keep the same data. */
module Coverage {
  import opened Geometry
  import opened Painting
  import opened DisplayLists
  import opened Recorder
  import opened Emission
  import Contents

  datatype Tag = Tag(leaf: Leaf, level: nat)

  function Erase(tags: seq<Tag>): seq<Leaf> { seq(|tags|, i requires 0 <= i < |tags| => tags[i].leaf) }

  function TagAll(leaves: seq<Leaf>, level: nat): seq<Tag> {
    seq(|leaves|, i requires 0 <= i < |leaves| => Tag(leaves[i], level))
  }

  // What a parent with this cull rectangle shows of a rectangle that a filter has mapped. A filter
  // without bounds may have changed anything there.
  function Left(mapped: Option<Rect>, cull: Rect): Rect {
    if mapped.None? then cull else Intersection(mapped.value, cull)
  }

  // What a call makes of one rectangle: the filter of its own layer maps it to where the
  // parent shows it, clips it there, and drops it when nothing is left.
  function Follow(e: Engine, st: Recorder, t: Tag, c: Call): Option<Tag>
    requires st.Sized()
  {
    if !ClosesLayer(st, c) || t.level != |st.layers| - 1 || t.level == 0 then Some(t)
    else if st.Layer().filter.None? then Some(t.(level := t.level - 1))
    else
      var filter, parent := st.Layer().filter.value, st.stack[|st.stack| - 2].global;
      var r := Left(e.mapDevice(filter, parent.matrix, t.leaf.rect), parent.cull);
      if r.IsEmpty() then None else Some(Tag(Leaf(r, t.leaf.id), t.level - 1))
  }

  function FollowAll(e: Engine, st: Recorder, tags: seq<Tag>, c: Call): seq<Tag>
    requires st.Sized()
  {
    if tags == [] then []
    else
      var last := Follow(e, st, tags[|tags| - 1], c);
      FollowAll(e, st, tags[..|tags| - 1], c) + if last.Some? then [last.value] else []
  }

  // ---------- the rectangles that a call adds ----------

  function UnboundedLeaves(s: Save, id: nat): seq<Leaf> {
    if s.global.cull.IsEmpty() || MapAndClip(s.local, LocalCoverage(s.global)).IsEmpty() then []
    else [Leaf(s.global.cull, id)]
  }

  function BoundsLeaves(s: Save, id: nat, r: Rect): seq<Leaf> {
    if r.IsEmpty() || MapAndClip(s.global, r).IsEmpty() || MapAndClip(s.local, r).IsEmpty() then []
    else [Leaf(MapAndClip(s.global, r), id)]
  }

  function EachLeaves(s: Save, id: nat, rs: seq<Rect>): seq<Leaf> {
    if rs == [] then [] else EachLeaves(s, id, rs[..|rs| - 1]) + BoundsLeaves(s, id, rs[|rs| - 1])
  }

  function AreaLeaves(s: Save, id: nat, area: Option<Rect>): seq<Leaf> {
    if area.None? then UnboundedLeaves(s, id) else BoundsLeaves(s, id, area.value)
  }

  function ListLeaves(e: Engine, s: Save, id: nat, l: DisplayList): seq<Leaf> {
    if l.rootUnbounded then UnboundedLeaves(s, id)
    else if l.rtree.None? then BoundsLeaves(s, id, l.bounds)
    else EachLeaves(s, id, e.consolidate(l.rtree.value, LocalCoverage(s.global)))
  }

  // The layer that closes changes pixels of its parent everywhere: its filter has no bounds there.
  predicate FloodsParent(e: Engine, st: Recorder)
    requires |st.stack| > 1 && |st.layers| > 1
  {
    var top := st.Top();
    var content := if top.saveIndex < |st.records| then ContentBounds(st.records[top.saveIndex], st.Layer()) else EMPTY;
    Contents.FilterFloods(e, st, content)
  }

  function NewLeaves(e: Engine, st: Recorder, c: Call): seq<Leaf>
    requires st.Sized()
  {
    var id := |st.records|;
    match c
    case LayerCall(_, withPaint, _, bd) =>
      if MakesLayer(st, withPaint) && LayerFloods(st.paint, withPaint, bd.Some?)
      then UnboundedLeaves(st.Top(), id) else []
    case RestoreCall =>
      if ClosesLayer(st, c) then
        LayerCountPositive(st.stack[..|st.stack| - 1]);
        if FloodsParent(e, st) then UnboundedLeaves(st.stack[|st.stack| - 2], id) else []
      else []
    case DrawCall(d) => if DrawsAnything(st, d) then AreaLeaves(st.Top(), id, Area(e, st.paint, d)) else []
    case ListCall(l, o) => if SkipsList(l, o) || st.Top().nop then [] else ListLeaves(e, st.Top(), id, l)
    case _ => []
  }

  // The layer that the new rectangles are in.
  function NewLevel(st: Recorder, c: Call): nat
    requires st.Sized()
  {
    LayerCountPositive(st.stack);
    if ClosesLayer(st, c) then
      LayerCountPositive(st.stack[..|st.stack| - 1]);
      |st.layers| - 2
    else |st.layers| - 1
  }

  function TagStep(e: Engine, st: Recorder, tags: seq<Tag>, c: Call): seq<Tag>
    requires st.Sized()
  {
    FollowAll(e, st, tags, c) + TagAll(NewLeaves(e, st, c), NewLevel(st, c))
  }

  function TagRun(e: Engine, st: Recorder, calls: seq<Call>): seq<Tag>
    requires st.Sized()
  {
    if calls == [] then []
    else
      var n := |calls| - 1;
      TagStep(e, Run(e, st, calls[..n]), TagRun(e, st, calls[..n]), calls[n])
  }

  // ---------- the invariant ----------

  ghost predicate IdsInOrder(leaves: seq<Leaf>) {
    forall i, j :: 0 <= i <= j < |leaves| ==> leaves[i].id <= leaves[j].id
  }

  ghost predicate IdsBelow(leaves: seq<Leaf>, n: nat) { forall i :: 0 <= i < |leaves| ==> leaves[i].id < n }

  // A layer's start index is exactly where the rectangles of the layer begin.
  ghost predicate StartsAt(tags: seq<Tag>, level: nat, start: nat) {
    start <= |tags| && forall i :: 0 <= i < |tags| ==> (i < start <==> tags[i].level < level)
  }

  ghost predicate Starts(layers: seq<Layer>, tags: seq<Tag>) {
    forall t :: 0 < t < |layers| ==> StartsAt(tags, t, layers[t].rtreeStart)
  }

  ghost predicate LevelsBelow(tags: seq<Tag>, n: nat) { forall i :: 0 <= i < |tags| ==> tags[i].level < n }

  ghost predicate Tracked(st: Recorder, tags: seq<Tag>) {
    && st.Sized() && st.rtree == Some(Erase(tags))
    && IdsInOrder(Erase(tags)) && IdsBelow(Erase(tags), |st.records|)
    && LevelsBelow(tags, |st.layers|) && Starts(st.layers, tags)
  }

  // ---------- following many rectangles ----------

  lemma {:induction false} FollowConcat(e: Engine, st: Recorder, a: seq<Tag>, b: seq<Tag>, c: Call)
    requires st.Sized()
    ensures FollowAll(e, st, a + b, c) == FollowAll(e, st, a, c) + FollowAll(e, st, b, c)
  {
    if b == [] {
      assert a + b == a;
    } else {
      FollowConcat(e, st, a, b[..|b| - 1], c);
      assert (a + b)[..|a + b| - 1] == a + b[..|b| - 1];
    }
  }

  lemma {:induction false} FollowNone(e: Engine, st: Recorder, tags: seq<Tag>, c: Call)
    requires st.Sized() && (!ClosesLayer(st, c) || LevelsBelow(tags, |st.layers| - 1))
    ensures FollowAll(e, st, tags, c) == tags
  {
    if tags != [] {
      FollowNone(e, st, tags[..|tags| - 1], c);
      assert tags[..|tags| - 1] + [tags[|tags| - 1]] == tags;
    }
  }

  // What the closing of a layer makes of its rectangles: its filter, if it has one, maps them all.
  function Mapped(e: Engine, st: Recorder, leaves: seq<Leaf>): seq<Leaf>
    requires |st.stack| > 1 && |st.layers| > 0
  {
    if st.Layer().filter.None? then leaves
    else AdjustLeaves(e, st.Layer().filter.value, st.stack[|st.stack| - 2].global, leaves)
  }

  lemma MappedLast(e: Engine, st: Recorder, leaves: seq<Leaf>, t: Tag, c: Call)
    requires st.Sized() && |st.layers| > 1 && ClosesLayer(st, c) && t.level == |st.layers| - 1
    ensures var f := Follow(e, st, t, c);
            && Mapped(e, st, leaves + [t.leaf]) == Mapped(e, st, leaves) + (if f.Some? then [f.value.leaf] else [])
            && (f.Some? ==> f.value.level == |st.layers| - 2)
  {
    assert (leaves + [t.leaf])[..|leaves|] == leaves;
  }

  lemma EraseLast(tags: seq<Tag>)
    requires tags != []
    ensures Erase(tags) == Erase(tags[..|tags| - 1]) + [tags[|tags| - 1].leaf]
  {
  }

  ghost predicate AllAt(tags: seq<Tag>, level: nat) { forall i :: 0 <= i < |tags| ==> tags[i].level == level }

  lemma AllAtLast(tags: seq<Tag>, level: nat)
    requires tags != []
    ensures AllAt(tags, level) <==> AllAt(tags[..|tags| - 1], level) && tags[|tags| - 1].level == level
  {
  }

  // What following the rectangles one by one makes of a layer is what its filter makes of them all.
  lemma {:induction false} FollowLayer(e: Engine, st: Recorder, tags: seq<Tag>, c: Call)
    requires st.Sized() && |st.layers| > 1 && ClosesLayer(st, c) && AllAt(tags, |st.layers| - 1)
    ensures Erase(FollowAll(e, st, tags, c)) == Mapped(e, st, Erase(tags))
    ensures AllAt(FollowAll(e, st, tags, c), |st.layers| - 2)
  {
    if tags == [] {
      NothingMapped(e, st);
    } else {
      hide Follow, Mapped, LayerCount, ClosesLayer, AllAt, Erase, FollowAll;
      FollowLast(e, st, tags, c);
      var front, last := tags[..|tags| - 1], tags[|tags| - 1];
      AllAtLast(tags, |st.layers| - 1);
      FollowLayer(e, st, front, c);
      MappedLast(e, st, Erase(front), last, c);
      EraseLast(tags);
      var f, followed := Follow(e, st, last, c), FollowAll(e, st, front, c);
      if f.Some? {
        assert (followed + [f.value])[..|followed|] == followed;
        EraseLast(followed + [f.value]);
        AllAtLast(followed + [f.value], |st.layers| - 2);
      }
    }
  }

  lemma NothingMapped(e: Engine, st: Recorder)
    requires |st.stack| > 1 && |st.layers| > 0
    ensures Erase([]) == [] && Mapped(e, st, []) == []
  {
  }

  lemma FollowLast(e: Engine, st: Recorder, tags: seq<Tag>, c: Call)
    requires st.Sized() && tags != []
    ensures var f, followed := Follow(e, st, tags[|tags| - 1], c), FollowAll(e, st, tags[..|tags| - 1], c);
            FollowAll(e, st, tags, c) == if f.Some? then followed + [f.value] else followed
  {
    hide Follow;
  }

  // What is left after a filter keeps its order.
  lemma {:induction false} AdjustKeepsIds(e: Engine, filter: ImageFilter, t: Tracker, leaves: seq<Leaf>, n: nat)
    requires IdsInOrder(leaves) && IdsBelow(leaves, n)
    ensures IdsInOrder(AdjustLeaves(e, filter, t, leaves)) && IdsBelow(AdjustLeaves(e, filter, t, leaves), n)
    ensures leaves != [] ==>
              forall i :: 0 <= i < |AdjustLeaves(e, filter, t, leaves)| ==>
                leaves[0].id <= AdjustLeaves(e, filter, t, leaves)[i].id <= leaves[|leaves| - 1].id
  {
    if leaves != [] {
      var front, last := leaves[..|leaves| - 1], leaves[|leaves| - 1];
      AdjustKeepsIds(e, filter, t, front, n);
      assert front != [] ==> front[0] == leaves[0];
    }
  }

  // ---------- what the accumulators add ----------

  // The sink gained these rectangles; the layer kept its place in the rtree data.
  ghost predicate Gained(k: Sink, k': Sink, leaves: seq<Leaf>) {
    && k.rtree.Some? && k'.rtree == Some(k.rtree.value + leaves)
    && k'.layer.rtreeStart == k.layer.rtreeStart && k'.layer.filter == k.layer.filter
  }

  ghost predicate AllHaveId(leaves: seq<Leaf>, id: nat) { forall i :: 0 <= i < |leaves| ==> leaves[i].id == id }

  lemma UnboundedGains(s: Save, k: Sink, id: nat)
    requires k.rtree.Some?
    ensures var (k', added) := AccumulateUnbounded(s, k, id);
            Gained(k, k', UnboundedLeaves(s, id)) && (added <==> UnboundedLeaves(s, id) != [])
  {
    assert k.rtree.value + [] == k.rtree.value;
  }

  lemma BoundsGain(s: Save, k: Sink, id: nat, r: Rect)
    requires k.rtree.Some?
    ensures var (k', added) := AccumulateBounds(s, k, id, r);
            Gained(k, k', BoundsLeaves(s, id, r)) && (added <==> BoundsLeaves(s, id, r) != [])
  {
    assert k.rtree.value + [] == k.rtree.value;
  }

  lemma {:induction false} EachGain(s: Save, k: Sink, id: nat, rs: seq<Rect>)
    requires k.rtree.Some?
    ensures var (k', added) := AccumulateEach(s, k, id, rs);
            Gained(k, k', EachLeaves(s, id, rs)) && (added <==> EachLeaves(s, id, rs) != [])
    ensures AllHaveId(EachLeaves(s, id, rs), id)
  {
    if rs == [] {
      assert k.rtree.value + [] == k.rtree.value;
    } else {
      var front, last := rs[..|rs| - 1], rs[|rs| - 1];
      EachGain(s, k, id, front);
      var k1 := AccumulateEach(s, k, id, front).0;
      BoundsGain(s, k1, id, last);
      assert k.rtree.value + EachLeaves(s, id, front) + BoundsLeaves(s, id, last)
          == k.rtree.value + EachLeaves(s, id, rs);
    }
  }

  lemma AreaGains(s: Save, k: Sink, id: nat, area: Option<Rect>)
    requires k.rtree.Some?
    ensures var (k', added) := AccumulateArea(s, k, id, area);
            Gained(k, k', AreaLeaves(s, id, area)) && (added <==> AreaLeaves(s, id, area) != [])
    ensures AllHaveId(AreaLeaves(s, id, area), id)
  {
    if area.None? { UnboundedGains(s, k, id); } else { BoundsGain(s, k, id, area.value); }
  }

  lemma ListGains(e: Engine, s: Save, k: Sink, id: nat, l: DisplayList)
    requires k.rtree.Some?
    ensures var (k', added) := AccumulateList(e, s, k, id, l);
            Gained(k, k', ListLeaves(e, s, id, l)) && (added <==> ListLeaves(e, s, id, l) != [])
    ensures AllHaveId(ListLeaves(e, s, id, l), id)
  {
    if l.rootUnbounded {
      UnboundedGains(s, k, id);
    } else if l.rtree.None? {
      BoundsGain(s, k, id, l.bounds);
    } else {
      EachGain(s, k, id, e.consolidate(l.rtree.value, LocalCoverage(s.global)));
    }
  }

  // ---------- steps that only add rectangles ----------

  ghost predicate SameStarts(a: seq<Layer>, b: seq<Layer>) {
    |a| == |b| && forall t :: 0 <= t < |a| ==> a[t].rtreeStart == b[t].rtreeStart
  }

  lemma EraseConcat(a: seq<Tag>, leaves: seq<Leaf>, level: nat)
    ensures Erase(a + TagAll(leaves, level)) == Erase(a) + leaves
  {
  }

  lemma AddedInOrder(before: seq<Leaf>, leaves: seq<Leaf>, n: nat)
    requires IdsInOrder(before) && IdsBelow(before, n) && AllHaveId(leaves, n)
    ensures IdsInOrder(before + leaves) && IdsBelow(before + leaves, n + 1)
    ensures leaves == [] ==> IdsBelow(before + leaves, n)
  {
  }

  lemma AddedStarts(layers: seq<Layer>, tags: seq<Tag>, leaves: seq<Leaf>, level: nat)
    requires Starts(layers, tags) && |layers| == level + 1
    ensures Starts(layers, tags + TagAll(leaves, level))
  {
    var more := tags + TagAll(leaves, level);
    forall t | 0 < t < |layers| ensures StartsAt(more, t, layers[t].rtreeStart) {
      assert StartsAt(tags, t, layers[t].rtreeStart);
      forall i | 0 <= i < |more| ensures i < layers[t].rtreeStart <==> more[i].level < t {
        if i < |tags| { assert more[i] == tags[i]; } else { assert more[i].level == level; }
      }
    }
  }

  lemma SameStartsKept(a: seq<Layer>, b: seq<Layer>, tags: seq<Tag>)
    requires SameStarts(a, b) && Starts(a, tags)
    ensures Starts(b, tags)
  {
    forall t | 0 < t < |b| ensures StartsAt(tags, t, b[t].rtreeStart) {
      assert StartsAt(tags, t, a[t].rtreeStart);
    }
  }

  lemma AddsTracked(st: Recorder, tags: seq<Tag>, st': Recorder, leaves: seq<Leaf>)
    requires Tracked(st, tags) && st'.Sized() && |st.layers| > 0
    requires st'.rtree == Some(Erase(tags) + leaves) && SameStarts(st.layers, st'.layers)
    requires AllHaveId(leaves, |st.records|)
    requires |st'.records| >= |st.records| && (leaves != [] ==> |st'.records| > |st.records|)
    ensures Tracked(st', tags + TagAll(leaves, |st.layers| - 1))
  {
    var level := |st.layers| - 1;
    EraseConcat(tags, leaves, level);
    AddedInOrder(Erase(tags), leaves, |st.records|);
    AddedStarts(st.layers, tags, leaves, level);
    SameStartsKept(st.layers, st'.layers, tags + TagAll(leaves, level));
  }

  lemma DrawTracked(e: Engine, st: Recorder, tags: seq<Tag>, d: Op)
    requires Tracked(st, tags)
    ensures |st.layers| > 0
            && Tracked(DrawStep(e, st, d), tags + TagAll(NewLeaves(e, st, DrawCall(d)), |st.layers| - 1))
  {
    hide PaintResult, AccumulateArea, AreaLeaves;
    LayerCountPositive(st.stack);
    var st' := DrawStep(e, st, d);
    var leaves := NewLeaves(e, st, DrawCall(d));
    if DrawsAnything(st, d) {
      AreaGains(st.Top(), TopSink(st), |st.records|, Area(e, st.paint, d));
    } else {
      assert Erase(tags) + [] == Erase(tags);
    }
    AddsTracked(st, tags, st', leaves);
  }

  lemma ListTracked(e: Engine, st: Recorder, tags: seq<Tag>, l: DisplayList, o: real)
    requires Tracked(st, tags)
    ensures |st.layers| > 0
            && Tracked(ListStep(e, st, l, o), tags + TagAll(NewLeaves(e, st, ListCall(l, o)), |st.layers| - 1))
  {
    hide AccumulateList, ListLeaves;
    LayerCountPositive(st.stack);
    var st' := ListStep(e, st, l, o);
    var leaves := NewLeaves(e, st, ListCall(l, o));
    if SkipsList(l, o) || st.Top().nop {
      assert Erase(tags) + [] == Erase(tags);
    } else {
      ListGains(e, st.Top(), TopSink(st), |st.records|, l);
    }
    AddsTracked(st, tags, st', leaves);
  }

  // ---------- opening and closing layers ----------

  lemma OpenedStarts(layers: seq<Layer>, tags: seq<Tag>, l: Layer)
    requires Starts(layers, tags) && LevelsBelow(tags, |layers|) && l.rtreeStart == |tags|
    ensures Starts(layers + [l], tags)
  {
    forall t | 0 < t < |layers| + 1 ensures StartsAt(tags, t, (layers + [l])[t].rtreeStart) {
      if t < |layers| { assert StartsAt(tags, t, layers[t].rtreeStart); }
    }
  }

  // The layer call, first the flood of the outer layer and then the new layer.
  lemma LayerTracked(e: Engine, st: Recorder, tags: seq<Tag>, c: Call)
    requires Tracked(st, tags) && c.LayerCall?
    ensures |st.layers| > 0 && Tracked(Step(e, st, c), tags + TagAll(NewLeaves(e, st, c), |st.layers| - 1))
  {
    hide PaintResult, AccumulateUnbounded, UnboundedLeaves, LayerTracker;
    LayerCountPositive(st.stack);
    StepSized(e, st, c);
    var st', leaves := Step(e, st, c), NewLeaves(e, st, c);
    var result := PaintResult(st.Top().nop, st.paint, LayerFlags(c.withPaint));
    if !MakesLayer(st, c.withPaint) {
      assert Erase(tags) + [] == Erase(tags);
      AddsTracked(st, tags, st', []);
    } else {
      OuterGains(st, c.withPaint, c.backdrop.Some?, result);
      var outer := Drain(st, OuterSink(st, c.withPaint, c.backdrop.Some?, result));
      LayerOpened(e, st, tags, c, outer, leaves);
    }
  }

  lemma OuterGains(st: Recorder, withPaint: bool, backdrop: bool, result: OpResult)
    requires |st.stack| > 0 && |st.layers| > 0 && st.rtree.Some?
    ensures Gained(TopSink(st), OuterSink(st, withPaint, backdrop, result),
                   if LayerFloods(st.paint, withPaint, backdrop) then UnboundedLeaves(st.Top(), |st.records|) else [])
  {
    hide AccumulateUnbounded, UnboundedLeaves;
    var k := Sink(NoteLayer(st.Layer(), st.paint, st.compatible, withPaint, backdrop, result), st.rtree);
    if LayerFloods(st.paint, withPaint, backdrop) {
      UnboundedGains(st.Top(), k, |st.records|);
    } else {
      assert st.rtree.value + [] == st.rtree.value;
    }
  }

  lemma LayerOpened(e: Engine, st: Recorder, tags: seq<Tag>, c: Call, outer: Recorder, leaves: seq<Leaf>)
    requires Tracked(st, tags) && c.LayerCall? && MakesLayer(st, c.withPaint) && |st.layers| > 0
    requires leaves == NewLeaves(e, st, c)
    requires outer == Drain(st, OuterSink(st, c.withPaint, c.backdrop.Some?,
                                          PaintResult(st.Top().nop, st.paint, LayerFlags(c.withPaint))))
    requires outer.rtree == Some(Erase(tags) + leaves) && SameStarts(st.layers, outer.layers)
    ensures Tracked(Step(e, st, c), tags + TagAll(leaves, |st.layers| - 1))
  {
    hide PaintResult, OuterSink, LayerTracker, UnboundedLeaves;
    var st', level := Step(e, st, c), |st.layers| - 1;
    var more := tags + TagAll(leaves, level);
    StepSized(e, st, c);
    EraseConcat(tags, leaves, level);
    assert AllHaveId(leaves, |st.records|) by { UnboundedIds(st.Top(), |st.records|); }
    AddedInOrder(Erase(tags), leaves, |st.records|);
    AddedStarts(st.layers, tags, leaves, level);
    SameStartsKept(st.layers, outer.layers, more);
    assert st'.layers == outer.layers + [st'.Layer()] && st'.Layer().rtreeStart == |more|;
    OpenedStarts(outer.layers, more, st'.Layer());
    assert st'.rtree == outer.rtree && |st'.records| == |st.records| + 1;
  }

  lemma UnboundedIds(s: Save, id: nat)
    ensures AllHaveId(UnboundedLeaves(s, id), id)
  {
  }

  // The tags of the layer that closes, and those of the layers around it.
  lemma Split(st: Recorder, tags: seq<Tag>)
    requires Tracked(st, tags) && |st.layers| > 1
    ensures var start := st.Layer().rtreeStart;
            && start <= |tags|
            && LevelsBelow(tags[..start], |st.layers| - 1)
            && (forall i :: 0 <= i < |tags[start..]| ==> tags[start..][i].level == |st.layers| - 1)
            && Erase(tags)[..start] == Erase(tags[..start]) && Erase(tags)[start..] == Erase(tags[start..])
            && tags[..start] + tags[start..] == tags
  {
    assert StartsAt(tags, |st.layers| - 1, st.Layer().rtreeStart);
  }

  // The state of the rtree data when a layer closes, before a flood of the parent is added.
  ghost function Closing(e: Engine, st: Recorder): seq<Leaf>
    requires |st.stack| > 1 && |st.layers| > 1 && st.rtree.Some? && st.Layer().rtreeStart <= |st.rtree.value|
  {
    var start, leaves := st.Layer().rtreeStart, st.rtree.value;
    leaves[..start] + Mapped(e, st, leaves[start..])
  }

  lemma ClosedTags(e: Engine, st: Recorder, tags: seq<Tag>, c: Call)
    requires Tracked(st, tags) && |st.layers| > 1 && ClosesLayer(st, c)
    ensures st.Layer().rtreeStart <= |st.rtree.value|
    ensures var moved := FollowAll(e, st, tags, c);
            && Erase(moved) == Closing(e, st) && LevelsBelow(moved, |st.layers| - 1)
            && Starts(st.layers[..|st.layers| - 1], moved)
            && IdsInOrder(Erase(moved)) && IdsBelow(Erase(moved), |st.records|)
  {
    Split(st, tags);
    var start := st.Layer().rtreeStart;
    var outside, inside := tags[..start], tags[start..];
    var moved := FollowAll(e, st, inside, c);
    FollowConcat(e, st, outside, inside, c);
    FollowNone(e, st, outside, c);
    FollowLayer(e, st, inside, c);
    ClosedErase(e, st, tags, moved);
    ClosedStarts(st, tags, moved);
    ClosedIds(e, st, tags, moved);
  }

  lemma ClosedErase(e: Engine, st: Recorder, tags: seq<Tag>, moved: seq<Tag>)
    requires Tracked(st, tags) && |st.layers| > 1 && |st.stack| > 1 && st.Layer().rtreeStart <= |tags|
    requires Erase(moved) == Mapped(e, st, Erase(tags[st.Layer().rtreeStart..]))
    ensures Erase(tags[..st.Layer().rtreeStart] + moved) == Closing(e, st)
  {
    Split(st, tags);
    var start := st.Layer().rtreeStart;
    assert Erase(tags[..start] + moved) == Erase(tags[..start]) + Erase(moved);
  }

  lemma ClosedStarts(st: Recorder, tags: seq<Tag>, moved: seq<Tag>)
    requires Tracked(st, tags) && |st.layers| > 1 && st.Layer().rtreeStart <= |tags|
    requires forall i :: 0 <= i < |moved| ==> moved[i].level == |st.layers| - 2
    ensures Starts(st.layers[..|st.layers| - 1], tags[..st.Layer().rtreeStart] + moved)
    ensures LevelsBelow(tags[..st.Layer().rtreeStart] + moved, |st.layers| - 1)
  {
    Split(st, tags);
    var all := tags[..st.Layer().rtreeStart] + moved;
    var outer := st.layers[..|st.layers| - 1];
    forall t | 0 < t < |outer| ensures StartsAt(all, t, outer[t].rtreeStart) {
      assert StartsAt(tags, t, st.layers[t].rtreeStart);
      StartsNest(st, tags, t);
    }
  }

  // The start indices of the open layers nest, and stay within the data.
  lemma StartsNest(st: Recorder, tags: seq<Tag>, t: nat)
    requires Tracked(st, tags) && 0 < t < |st.layers| - 1
    ensures st.layers[t].rtreeStart <= st.layers[|st.layers| - 1].rtreeStart <= |tags|
  {
    var n := |st.layers| - 1;
    assert StartsAt(tags, t, st.layers[t].rtreeStart) && StartsAt(tags, n, st.layers[n].rtreeStart);
    if st.layers[t].rtreeStart > 0 {
      assert tags[st.layers[t].rtreeStart - 1].level < t;
    }
  }

  lemma ClosedIds(e: Engine, st: Recorder, tags: seq<Tag>, moved: seq<Tag>)
    requires Tracked(st, tags) && |st.layers| > 1 && |st.stack| > 1 && st.Layer().rtreeStart <= |tags|
    requires Erase(tags[..st.Layer().rtreeStart] + moved) == Closing(e, st)
    ensures IdsInOrder(Closing(e, st)) && IdsBelow(Closing(e, st), |st.records|)
  {
    var start, leaves := st.Layer().rtreeStart, st.rtree.value;
    if st.Layer().filter.Some? {
      AdjustKeepsIds(e, st.Layer().filter.value, st.stack[|st.stack| - 2].global, leaves[start..], |st.records|);
      JoinIds(leaves, start,
              AdjustLeaves(e, st.Layer().filter.value, st.stack[|st.stack| - 2].global, leaves[start..]), |st.records|);
    }
  }

  lemma JoinIds(leaves: seq<Leaf>, start: nat, moved: seq<Leaf>, n: nat)
    requires start <= |leaves| && IdsInOrder(leaves) && IdsBelow(leaves, n)
    requires IdsInOrder(moved) && IdsBelow(moved, n)
    requires forall i :: 0 <= i < |moved| ==> start < |leaves| && leaves[start].id <= moved[i].id
    ensures IdsInOrder(leaves[..start] + moved) && IdsBelow(leaves[..start] + moved, n)
  {
    var all := leaves[..start] + moved;
    forall i, j | 0 <= i <= j < |all| ensures all[i].id <= all[j].id {
      if i < start <= j {
        assert all[j] == moved[j - start];
        assert all[i].id <= leaves[start].id;
      }
    }
  }

  lemma TrackedFacts(st: Recorder, tags: seq<Tag>)
    requires Tracked(st, tags)
    ensures st.Sized() && st.rtree == Some(Erase(tags))
  {
  }

  // What the closing layer leaves in the rtree data, with the flood of its parent if there is one.
  lemma CloseLeaves(e: Engine, st: Recorder, tags: seq<Tag>)
    requires Tracked(st, tags) && ClosesLayer(st, RestoreCall) && |st.layers| > 1
    ensures st.Layer().rtreeStart <= |st.rtree.value|
    ensures CloseLayer(e, st).rtree == Some(Closing(e, st) + NewLeaves(e, st, RestoreCall))
    ensures SameStarts(st.layers[..|st.layers| - 1], CloseLayer(e, st).layers)
  {
    hide UnboundedLeaves, TransferBounds, ContentBounds, NewLeaves, Closing, Tracked, LayerCount;
    Split(st, tags);
    TrackedFacts(st, tags);
    var n := |st.layers|;
    var top := st.Top();
    var content := if top.saveIndex < |st.records| then ContentBounds(st.records[top.saveIndex], st.Layer()) else EMPTY;
    var parent, outer, inner := st.stack[|st.stack| - 2], st.layers[n - 2], st.Layer();
    var k := TransferBounds(e, parent, outer, inner, st.rtree, content, |st.records|);
    assert CloseLayer(e, st).layers == st.layers[..n - 2] + [k.layer] && CloseLayer(e, st).rtree == k.rtree;
    TransferGains(e, st, content, k);
  }

  lemma LocalKeepsStart(s: Save, l: Layer, r: Rect)
    ensures AccumulateLocal(s, l, r).rtreeStart == l.rtreeStart
  {
  }

  lemma TransferGains(e: Engine, st: Recorder, content: Rect, k: Sink)
    requires st.Sized() && |st.stack| > 1 && st.Top().isLayer && |st.layers| > 1
    requires st.rtree.Some? && st.Layer().rtreeStart <= |st.rtree.value|
    requires content == if st.Top().saveIndex < |st.records|
                        then ContentBounds(st.records[st.Top().saveIndex], st.Layer()) else EMPTY
    requires k == TransferBounds(e, st.stack[|st.stack| - 2], st.layers[|st.layers| - 2], st.Layer(), st.rtree,
                                 content, |st.records|)
    ensures k.rtree == Some(Closing(e, st) + NewLeaves(e, st, RestoreCall))
    ensures k.layer.rtreeStart == st.layers[|st.layers| - 2].rtreeStart
  {
    hide AccumulateUnbounded, UnboundedLeaves, AccumulateLocal, AdjustLeaves, Floods, ContentBounds, MapAndClip,
         Contents.DeviceRects;
    var parent, outer, inner := st.stack[|st.stack| - 2], st.layers[|st.layers| - 2], st.Layer();
    if inner.filter.None? {
      LocalKeepsStart(parent, outer, content);
      assert Closing(e, st) + [] == st.rtree.value;
    } else {
      var device := AdjustDevice(e, inner.filter.value, parent.global, outer, inner, st.rtree);
      assert device.0.rtree == Some(Closing(e, st)) && device.0.layer == outer;
      Contents.DeviceFloods(e, st, inner.filter.value, parent.global, outer);
      var mapped := e.mapLocal(inner.filter.value, content);
      assert FloodsParent(e, st) <==> device.1 || (!content.IsEmpty() && mapped.None?);
      if FloodsParent(e, st) {
        UnboundedGains(parent, device.0, |st.records|);
      } else {
        LocalKeepsStart(parent, outer, if content.IsEmpty() then content else mapped.value);
        assert Closing(e, st) + [] == Closing(e, st);
      }
    }
  }

  lemma RestoreTracked(e: Engine, st: Recorder, tags: seq<Tag>)
    requires Tracked(st, tags)
    ensures Tracked(RestoreStep(e, st), TagStep(e, st, tags, RestoreCall))
  {
    hide CloseLayer, Patched, FloodsParent, UnboundedLeaves, PatchRecord;
    var c := RestoreCall;
    var st' := RestoreStep(e, st);
    RestoreSized(e, st);
    LayerCountPositive(st.stack);
    if ClosesLayer(st, c) {
      LayerCountPositive(st.stack[..|st.stack| - 1]);
      ClosedTags(e, st, tags, c);
      CloseLeaves(e, st, tags);
      var leaves, moved := NewLeaves(e, st, c), FollowAll(e, st, tags, c);
      RestoredLayer(e, st);
      EraseConcat(moved, leaves, NewLevel(st, c));
      assert AllHaveId(leaves, |st.records|) by { UnboundedIds(st.stack[|st.stack| - 2], |st.records|); }
      AddedInOrder(Erase(moved), leaves, |st.records|);
      AddedStarts(st.layers[..|st.layers| - 1], moved, leaves, NewLevel(st, c));
      SameStartsKept(st.layers[..|st.layers| - 1], st'.layers, moved + TagAll(leaves, NewLevel(st, c)));
    } else {
      FollowNone(e, st, tags, c);
      PlainRestore(e, st);
      assert Erase(tags) + [] == Erase(tags);
      AddsTracked(st, tags, st', []);
    }
  }

  lemma RestoredLayer(e: Engine, st: Recorder)
    requires st.Sized() && |st.layers| > 1 && ClosesLayer(st, RestoreCall)
    ensures var st' := RestoreStep(e, st);
            && st'.layers == CloseLayer(e, st).layers && st'.rtree == CloseLayer(e, st).rtree
            && |st'.records| == |st.records| + 1
  {
    hide CloseLayer, Patched;
  }

  lemma PlainRestore(e: Engine, st: Recorder)
    requires st.Sized() && !ClosesLayer(st, RestoreCall)
    ensures var st' := RestoreStep(e, st);
            st'.layers == st.layers && st'.rtree == st.rtree && |st'.records| >= |st.records|
  {
    hide CloseLayer, Patched;
  }

  lemma OtherTracked(e: Engine, st: Recorder, tags: seq<Tag>, c: Call)
    requires Tracked(st, tags) && (c.AttrCall? || c.SaveCall? || c.TransformCall? || c.ClipCall?)
    ensures |st.layers| > 0 && Tracked(Step(e, st, c), tags + TagAll(NewLeaves(e, st, c), |st.layers| - 1))
  {
    hide Clipped, Transformed;
    LayerCountPositive(st.stack);
    StepSized(e, st, c);
    assert Erase(tags) + [] == Erase(tags);
    AddsTracked(st, tags, Step(e, st, c), []);
  }

  // Whatever the call, the rectangles that the recorder keeps are the ones that were followed.
  lemma StepTracked(e: Engine, st: Recorder, tags: seq<Tag>, c: Call)
    requires Tracked(st, tags)
    ensures Tracked(Step(e, st, c), TagStep(e, st, tags, c))
  {
    hide Tracked, DrawStep, ListStep, LayerStep, RestoreStep, NewLeaves, FollowAll;
    TrackedFacts(st, tags);
    LayerCountPositive(st.stack);
    if c.RestoreCall? {
      RestoreTracked(e, st, tags);
    } else {
      FollowNone(e, st, tags, c);
      match c {
        case DrawCall(d) => DrawTracked(e, st, tags, d);
        case ListCall(l, o) => ListTracked(e, st, tags, l, o);
        case LayerCall(_, _, _, _) => LayerTracked(e, st, tags, c);
        case _ => OtherTracked(e, st, tags, c);
      }
    }
  }

  // ---------- whole runs ----------

  lemma {:induction false} RunTracked(e: Engine, cull: Rect, calls: seq<Call>)
    ensures Tracked(Run(e, Start(cull, true), calls), TagRun(e, Start(cull, true), calls))
  {
    hide Step, TagStep;
    var start := Start(cull, true);
    if calls == [] {
      assert Erase([]) == [];
    } else {
      var n := |calls| - 1;
      RunTracked(e, cull, calls[..n]);
      StepTracked(e, Run(e, start, calls[..n]), TagRun(e, start, calls[..n]), calls[n]);
    }
  }

  // In every reachable state the data is in the order of the records, stays within them, and
  // splits at the start indices into the rectangles of the open layers.
  lemma ReachableData(e: Engine, cull: Rect, calls: seq<Call>)
    ensures var st := Run(e, Start(cull, true), calls); var tags := TagRun(e, Start(cull, true), calls);
            && st.rtree == Some(Erase(tags))
            && IdsInOrder(st.rtree.value) && IdsBelow(st.rtree.value, |st.records|)
            && (forall t, u :: 0 < t <= u < |st.layers| ==>
                  st.layers[t].rtreeStart <= st.layers[u].rtreeStart <= |st.rtree.value|)
            && (forall t, i :: 0 < t < |st.layers| && 0 <= i < |tags| ==>
                  (i < st.layers[t].rtreeStart <==> tags[i].level < t))
  {
    RunTracked(e, cull, calls);
    var st, tags := Run(e, Start(cull, true), calls), TagRun(e, Start(cull, true), calls);
    forall t, u | 0 < t <= u < |st.layers|
      ensures st.layers[t].rtreeStart <= st.layers[u].rtreeStart <= |st.rtree.value|
    {
      assert StartsAt(tags, t, st.layers[t].rtreeStart) && StartsAt(tags, u, st.layers[u].rtreeStart);
      if st.layers[t].rtreeStart > 0 {
        assert tags[st.layers[t].rtreeStart - 1].level < t;
      }
    }
    forall t, i | 0 < t < |st.layers| && 0 <= i < |tags|
      ensures i < st.layers[t].rtreeStart <==> tags[i].level < t
    {
      assert StartsAt(tags, t, st.layers[t].rtreeStart);
    }
  }

  // ---------- one rectangle through the rest of a run ----------

  function Fate(e: Engine, st: Recorder, t: Tag, calls: seq<Call>): Option<Tag>
    requires st.Sized()
  {
    if calls == [] then Some(t)
    else
      var n := |calls| - 1;
      var before := Fate(e, st, t, calls[..n]);
      if before.None? then None else Follow(e, Run(e, st, calls[..n]), before.value, calls[n])
  }

  lemma {:induction false} FollowKeepsMember(e: Engine, st: Recorder, tags: seq<Tag>, i: nat, c: Call)
    requires st.Sized() && i < |tags| && Follow(e, st, tags[i], c).Some?
    ensures Follow(e, st, tags[i], c).value in FollowAll(e, st, tags, c)
  {
    hide Follow;
    var last := |tags| - 1;
    if i < last { FollowKeepsMember(e, st, tags[..last], i, c); }
  }

  lemma {:induction false} FateKept(e: Engine, start: Recorder, a: seq<Call>, b: seq<Call>, t: Tag)
    requires start.Sized() && t in TagRun(e, start, a) && Fate(e, Run(e, start, a), t, b).Some?
    ensures Fate(e, Run(e, start, a), t, b).value in TagRun(e, start, a + b)
  {
    hide Follow, Step, NewLeaves, NewLevel;
    if b == [] {
      assert a + b == a;
    } else {
      var n := |b| - 1;
      FateKept(e, start, a, b[..n], t);
      RunConcat(e, start, a, b[..n]);
      assert (a + b)[..|a + b| - 1] == a + b[..n];
      var st, tags := Run(e, start, a + b[..n]), TagRun(e, start, a + b[..n]);
      var t1 := Fate(e, Run(e, start, a), t, b[..n]).value;
      var i :| 0 <= i < |tags| && tags[i] == t1;
      FollowKeepsMember(e, st, tags, i, b[n]);
    }
  }

  // What the rest of the calls makes of one rectangle that a call has added.
  function FateOf(e: Engine, st: Recorder, c: Call, i: nat, after: seq<Call>): Option<Tag>
    requires st.Sized() && i < |NewLeaves(e, st, c)|
  {
    StepSized(e, st, c);
    Fate(e, Step(e, st, c), Tag(NewLeaves(e, st, c)[i], NewLevel(st, c)), after)
  }

  // Every rectangle that a call adds stays in the data, moved through the filters of the layers
  // that close around it; it is gone only when one of them leaves nothing of it.
  lemma RectanglesAreFollowed(e: Engine, cull: Rect, before: seq<Call>, c: Call, after: seq<Call>, i: nat)
    requires var st := Run(e, Start(cull, true), before); i < |NewLeaves(e, st, c)|
    ensures var st := Run(e, Start(cull, true), before);
            var fate := FateOf(e, st, c, i, after);
            fate.Some? ==>
              && fate.value.leaf.id == NewLeaves(e, st, c)[i].id
              && var end := Run(e, Start(cull, true), before + [c] + after).rtree;
                 end.Some? && fate.value.leaf in end.value
  {
    hide Step, NewLeaves, NewLevel, FollowAll;
    var start := Start(cull, true);
    var st := Run(e, start, before);
    var t := Tag(NewLeaves(e, st, c)[i], NewLevel(st, c));
    assert (before + [c])[..|before|] == before;
    var tags := TagRun(e, start, before + [c]);
    assert tags == FollowAll(e, st, TagRun(e, start, before), c) + TagAll(NewLeaves(e, st, c), NewLevel(st, c));
    assert tags[|FollowAll(e, st, TagRun(e, start, before), c)| + i] == t;
    StepSized(e, st, c);
    var fate := Fate(e, Step(e, st, c), t, after);
    if fate.Some? {
      FateKept(e, start, before + [c], after, t);
      FateKeepsId(e, Step(e, st, c), t, after);
      RunTracked(e, cull, before + [c] + after);
      var end := TagRun(e, start, before + [c] + after);
      var j :| 0 <= j < |end| && end[j] == fate.value;
      assert Erase(end)[j] == fate.value.leaf;
    }
  }

  lemma {:induction false} FateKeepsId(e: Engine, st: Recorder, t: Tag, calls: seq<Call>)
    requires st.Sized() && Fate(e, st, t, calls).Some?
    ensures Fate(e, st, t, calls).value.leaf.id == t.leaf.id
  {
    if calls != [] { FateKeepsId(e, st, t, calls[..|calls| - 1]); }
  }

  // Every draw that is recorded adds exactly one rectangle: what of its area is inside the clip,
  // on the device, under the index of its record. Where the area is unknown it is the whole clip.
  lemma RecordedDrawsHaveRectangles(e: Engine, cull: Rect, before: seq<Call>, d: Op)
    requires var st := Run(e, Start(cull, true), before);
             |st.stack| > 0 && |st.layers| > 0 && RecordsDraw(e, st, d)
    ensures var st := Run(e, Start(cull, true), before); var area, t := Area(e, st.paint, d), st.Top().global;
            && NewLeaves(e, st, DrawCall(d)) ==
                 [Leaf(if area.None? then t.cull else Intersection(MapRect(t.matrix, area.value), t.cull),
                       |st.records|)]
            && Step(e, st, DrawCall(d)).records == st.records + [DrawRec(d)]
  {
    hide PaintResult, Area, MapRect, Intersection;
    var st := Run(e, Start(cull, true), before);
    RunTracked(e, cull, before);
    var area := Area(e, st.paint, d);
    AreaGains(st.Top(), TopSink(st), |st.records|, area);
    assert Drain(st, AccumulateArea(st.Top(), TopSink(st), |st.records|, area).0).records == st.records;
  }
}
