/** Dispatching a display list to a receiver that only wants what meets a rectangle. */
module CulledDispatch {
  import opened Geometry
  import opened Painting
  import opened DisplayLists
  import opened Recorder
  import opened CulledReplay
  import opened Emission
  import opened Coverage
  import Brackets

  // The search of the rtree: the leaves that meet the query, in order, each giving its record.
  function Search(leaves: seq<Leaf>, query: Rect): seq<nat> {
    if leaves == [] then []
    else
      var last := leaves[|leaves| - 1];
      Search(leaves[..|leaves| - 1], query) + if Intersects(last.rect, query) then [last.id] else []
  }

  lemma {:induction false} SearchFinds(leaves: seq<Leaf>, query: Rect)
    ensures forall i :: 0 <= i < |leaves| && Intersects(leaves[i].rect, query) ==> leaves[i].id in Search(leaves, query)
    ensures forall id :: id in Search(leaves, query) ==>
              exists i :: 0 <= i < |leaves| && leaves[i].id == id && Intersects(leaves[i].rect, query)
  {
    if leaves != [] {
      var n := |leaves| - 1;
      SearchFinds(leaves[..n], query);
      forall id | id in Search(leaves, query)
        ensures exists i :: 0 <= i < |leaves| && leaves[i].id == id && Intersects(leaves[i].rect, query)
      {
        if id in Search(leaves[..n], query) {
          var i :| 0 <= i < n && leaves[..n][i].id == id && Intersects(leaves[..n][i].rect, query);
          assert leaves[i].id == id;
        } else {
          assert leaves[n].id == id;
        }
      }
    }
  }

  lemma {:induction false} SearchInOrder(leaves: seq<Leaf>, query: Rect)
    requires IdsInOrder(leaves)
    ensures InOrder(Search(leaves, query))
    ensures leaves != [] ==> forall k :: 0 <= k < |Search(leaves, query)| ==>
              Search(leaves, query)[k] <= leaves[|leaves| - 1].id
  {
    if leaves != [] { SearchInOrder(leaves[..|leaves| - 1], query); }
  }

  // What a list needs for its culled replay to be exact; every built list has it.
  ghost predicate Replayable(l: DisplayList) {
    WellBracketed(l.records) && (l.rtree.Some? ==> IdsInOrder(l.rtree.value))
  }

  // Whether some rectangle of the record meets the query.
  ghost predicate Meets(l: DisplayList, id: nat, query: Rect)
    requires l.rtree.Some?
  {
    exists i :: 0 <= i < |l.rtree.value| && l.rtree.value[i].id == id && Intersects(l.rtree.value[i].rect, query)
  }

  // Of the draws, exactly those that meet the query are there; whatever else is there is
  // balanced, and each draw, transform and clip has the view that it has in a full dispatch.
  ghost predicate ExactlyWhatMeets(l: DisplayList, query: Rect, indices: seq<nat>)
    requires l.rtree.Some?
  {
    && Increasing(indices, |l.records|)
    && (forall i :: 0 <= i < |l.records| && Meets(l, i, query) ==> i in indices)
    && (forall i :: 0 <= i < |l.records| && Renders(l.records[i]) && i in indices ==> Meets(l, i, query))
    && SameViews(l.records, indices) && Paired(l.records, indices, |l.records|)
    && |PartView(l.records, indices).frames| == 1
  }

  function All(n: nat): seq<nat> { seq(n, i => i) }

  method GetCulledIndices(l: DisplayList, cull: Rect) returns (indices: seq<nat>)
    requires Replayable(l)
    ensures cull.IsEmpty() ==> indices == []
    ensures !cull.IsEmpty() && l.rtree.None? ==> indices == All(|l.records|)
    ensures !cull.IsEmpty() && l.rtree.Some? ==> ExactlyWhatMeets(l, cull, indices)
  {
    indices := [];
    if !cull.IsEmpty() {
      if l.rtree.Some? {
        var ids := Search(l.rtree.value, cull);
        SearchInOrder(l.rtree.value, cull);
        SearchFinds(l.rtree.value, cull);
        indices := RTreeResultsToIndexVector(l.records, ids);
        forall i | 0 <= i < |l.records| ensures i in ids <==> Meets(l, i, cull) {
        }
      } else {
        indices := All(|l.records|);
      }
    }
  }

  // What a receiver is sent: everything when the rectangle covers the list, nothing when it is
  // empty, and otherwise the records of the culled indices.
  method Dispatch(l: DisplayList, cull: Rect) returns (calls: seq<Call>, ghost indices: seq<nat>)
    requires Replayable(l)
    ensures cull.IsEmpty() ==> calls == []
    ensures !cull.IsEmpty() && (l.rtree.None? || Contains(cull, l.bounds)) ==> calls == DisplayLists.Dispatch(l.records)
    ensures !cull.IsEmpty() && l.rtree.Some? && !Contains(cull, l.bounds) ==>
              && ExactlyWhatMeets(l, cull, indices) && |calls| == |indices|
              && forall k :: 0 <= k < |indices| ==> calls[k] == Dispatched(l.records[indices[k]])
  {
    hide SameViews, Paired, PartView, WellBracketed, IdsInOrder;
    calls, indices := [], [];
    if !cull.IsEmpty() {
      if l.rtree.None? || Contains(cull, l.bounds) {
        calls := DisplayLists.Dispatch(l.records);
      } else {
        var culled := GetCulledIndices(l, cull);
        indices := culled;
        var k := 0;
        while k < |culled|
          invariant k == |calls| <= |culled|
          invariant forall j :: 0 <= j < k ==> calls[j] == Dispatched(l.records[culled[j]])
        {
          calls := calls + [Dispatched(l.records[culled[k]])];
          k := k + 1;
        }
      }
    }
  }

  lemma BuiltRTree(e: Engine, cull: Rect, calls: seq<Call>)
    ensures var l := Build(e, cull, true, calls); l.rtree.Some? && IdsInOrder(l.rtree.value)
  {
    hide Run, Start, Built;
    var st := Run(e, Start(cull, true), calls);
    FinishIsRun(e, st);
    RunConcat(e, Start(cull, true), calls, Restores(|st.stack| - 1));
    RunTracked(e, cull, calls + Restores(|st.stack| - 1));
    var f := Finish(e, st);
    LayerCountPositive(f.stack);
    assert Built(f).rtree == f.rtree by { BuiltFields(f); }
  }

  // The bounds of a list with an rtree are the least rectangle around those in it.
  lemma BoundsAreTight(e: Engine, cull: Rect, calls: seq<Call>, r: Rect)
    ensures var l := Build(e, cull, true, calls);
            && l.rtree.Some?
            && (Enclosed(l.bounds, r) <==>
                forall i :: 0 <= i < |l.rtree.value| ==> Enclosed(l.rtree.value[i].rect, r))
  {
    hide Run, Start, Box;
    var l, f := Build(e, cull, true, calls), Finish(e, Run(e, Start(cull, true), calls));
    BuiltRTree(e, cull, calls);
    LayerCountPositive(f.stack);
    assert l == Built(f) && l.bounds == Box(LeafRects(l.rtree.value));
    BoxWithin(LeafRects(l.rtree.value), r);
    assert forall i :: 0 <= i < |l.rtree.value| ==> LeafRects(l.rtree.value)[i] == l.rtree.value[i].rect;
  }

  lemma {:induction false} BoxWithin(rects: seq<Rect>, r: Rect)
    ensures Enclosed(Box(rects), r) <==> forall i :: 0 <= i < |rects| ==> Enclosed(rects[i], r)
  {
    if rects != [] {
      var n := |rects| - 1;
      BoxWithin(rects[..n], r);
      UnionWithin(Box(rects[..n]), rects[n], r);
      assert forall i :: 0 <= i < n ==> rects[..n][i] == rects[i];
    }
  }

  lemma BuiltFields(st: Recorder)
    requires |st.layers| > 0
    ensures Built(st).rtree == st.rtree && Built(st).records == st.records
  {
  }

  lemma {:induction false} NoRTree(e: Engine, st: Recorder, calls: seq<Call>)
    requires st.Sized() && st.rtree.None?
    ensures Run(e, st, calls).rtree.None?
  {
    hide Step;
    if calls != [] {
      NoRTree(e, st, calls[..|calls| - 1]);
      NoRTreeStep(e, Run(e, st, calls[..|calls| - 1]), calls[|calls| - 1]);
    }
  }

  lemma NoRTreeStep(e: Engine, st: Recorder, c: Call)
    requires st.Sized() && st.rtree.None?
    ensures Step(e, st, c).rtree.None?
  {
    hide DrawStep, ListStep, LayerStep, RestoreStep, LayerCount, RedundantClip, Clipped, SetAttr;
    LayerCountPositive(st.stack);
    match c {
      case DrawCall(d) => DrawNoRTree(e, st, d);
      case ListCall(l, o) => ListNoRTree(e, st, l, o);
      case LayerCall(_, _, _, _) => LayerNoRTree(e, st, c);
      case RestoreCall => RestoreNoRTree(e, st);
      case _ =>
    }
  }

  lemma DrawNoRTree(e: Engine, st: Recorder, d: Op)
    requires |st.stack| > 0 && |st.layers| > 0 && st.rtree.None?
    ensures DrawStep(e, st, d).rtree.None?
  {
    hide PaintResult, NoteDraw, MapAndClip, LocalCoverage, Area;
  }

  lemma ListNoRTree(e: Engine, st: Recorder, l: DisplayList, o: real)
    requires |st.stack| > 0 && |st.layers| > 0 && st.rtree.None?
    ensures ListStep(e, st, l, o).rtree.None?
  {
    hide NoteList, MapAndClip, LocalCoverage, SkipsList;
  }

  lemma LayerNoRTree(e: Engine, st: Recorder, c: Call)
    requires |st.stack| > 0 && |st.layers| > 0 && st.rtree.None? && c.LayerCall?
    ensures LayerStep(e, st, c.bounds, c.withPaint, c.fromCaller, c.backdrop).rtree.None?
  {
    hide PaintResult, NoteLayer, MapAndClip, LocalCoverage, LayerTracker;
  }

  lemma RestoreNoRTree(e: Engine, st: Recorder)
    requires st.Sized() && st.rtree.None?
    ensures RestoreStep(e, st).rtree.None?
  {
    hide Patched, MapAndClip, LocalCoverage, LayerCount, ContentBounds;
  }

  // Every list that is built can be replayed in part.
  lemma BuiltListsAreReplayable(e: Engine, cull: Rect, prepareRTree: bool, calls: seq<Call>)
    requires |Build(e, cull, prepareRTree, calls).records| <= NO_RESTORE
    ensures Replayable(Build(e, cull, prepareRTree, calls))
  {
    hide Build;
    var l := Build(e, cull, prepareRTree, calls);
    Brackets.BuiltListsAreBracketed(e, cull, prepareRTree, calls);
    var sk := Skeleton(l.records);
    forall i | 0 <= i < |l.records| && l.records[i].IsSave()
      ensures Brackets.Matches(sk, i, l.records[i].restoreIndex)
    {
      assert Brackets.ClosedRight(l.records, sk, i);
    }
    if prepareRTree { BuiltRTree(e, cull, calls); } else { BuiltNoRTree(e, cull, calls); }
  }

  lemma BuiltNoRTree(e: Engine, cull: Rect, calls: seq<Call>)
    ensures Build(e, cull, false, calls).rtree.None?
  {
    hide Run, Start, Built;
    var st := Run(e, Start(cull, false), calls);
    assert Start(cull, false).rtree.None? by { StartNoRTree(cull); }
    NoRTree(e, Start(cull, false), calls);
    FinishIsRun(e, st);
    NoRTree(e, st, Restores(|st.stack| - 1));
    var f := Finish(e, st);
    LayerCountPositive(f.stack);
    BuiltFields(f);
  }

  lemma StartNoRTree(cull: Rect)
    ensures Start(cull, false).rtree.None?
  {
  }

  // ---------- from the call to the culled dispatch ----------

  lemma {:induction false} RecordsStay(e: Engine, st: Recorder, calls: seq<Call>)
    requires st.Sized()
    ensures Skeleton(st.records) <= Skeleton(Run(e, st, calls).records)
  {
    hide Step, Skeleton, Emits;
    if calls != [] {
      RecordsStay(e, st, calls[..|calls| - 1]);
      StepEmits(e, Run(e, st, calls[..|calls| - 1]), calls[|calls| - 1]);
    }
  }

  // The restores that building a list adds to the calls.
  function LastRestores(e: Engine, cull: Rect, calls: seq<Call>): seq<Call> {
    Restores(|Run(e, Start(cull, true), calls).stack| - 1)
  }

  lemma BuiltAsRun(e: Engine, cull: Rect, calls: seq<Call>)
    ensures var l, f := Build(e, cull, true, calls), Run(e, Start(cull, true), calls + LastRestores(e, cull, calls));
            l.records == f.records && l.rtree == f.rtree
  {
    hide Run, Start, Built;
    var st := Run(e, Start(cull, true), calls);
    FinishIsRun(e, st);
    RunConcat(e, Start(cull, true), calls, LastRestores(e, cull, calls));
    LayerCountPositive(Finish(e, st).stack);
    BuiltFields(Finish(e, st));
  }

  // A call that adds rectangles adds a record, and they are its.
  lemma RectanglesHaveRecords(e: Engine, st: Recorder, c: Call)
    requires st.Sized() && st.rtree.Some? && NewLeaves(e, st, c) != []
    ensures |st.layers| > 0 && Emits(e, st, c) != [] && AllHaveId(NewLeaves(e, st, c), |st.records|)
  {
    hide PaintResult, AreaLeaves, ListLeaves, AccumulateArea, AccumulateList, LayerCount, FloodsParent, Area;
    LayerCountPositive(st.stack);
    match c {
      case DrawCall(d) => AreaGains(st.Top(), TopSink(st), |st.records|, Area(e, st.paint, d));
      case ListCall(l, _) => ListGains(e, st.Top(), TopSink(st), |st.records|, l);
      case _ =>
    }
  }

  lemma RecordStays(e: Engine, start: Recorder, before: seq<Call>, c: Call, rest: seq<Call>)
    requires start.Sized()
    requires var st := Run(e, start, before); |st.layers| > 0 && Emits(e, st, c) != []
    ensures var st, rs := Run(e, start, before), Run(e, start, before + [c] + rest).records;
            |st.records| < |rs| && Settled(rs[|st.records|]) == Emits(e, st, c)[0]
  {
    hide Step, Emits, Skeleton;
    var st, next := Run(e, start, before), Run(e, start, before + [c]);
    RunAppend(e, start, before, c);
    StepEmits(e, st, c);
    RunConcat(e, start, before + [c], rest);
    RecordsStay(e, next, rest);
    SkeletonAt(st.records, Emits(e, st, c)[0], Run(e, start, before + [c] + rest).records);
  }

  lemma SkeletonAt(rs: seq<Record>, c: Call, more: seq<Record>)
    requires Skeleton(rs) + [c] <= Skeleton(more)
    ensures |rs| < |more| && Settled(more[|rs|]) == c
  {
    assert Skeleton(more)[|rs|] == (Skeleton(rs) + [c])[|rs|];
  }

  // Every rectangle that is there after a call was there before it, or has just been added.
  lemma {:induction false} FollowedFrom(e: Engine, st: Recorder, tags: seq<Tag>, c: Call, t: Tag)
    requires st.Sized() && t in FollowAll(e, st, tags, c)
    ensures exists i :: 0 <= i < |tags| && Follow(e, st, tags[i], c) == Some(t)
  {
    hide Follow;
    var n := |tags| - 1;
    if t in FollowAll(e, st, tags[..n], c) {
      FollowedFrom(e, st, tags[..n], c, t);
      var i :| 0 <= i < n && Follow(e, st, tags[..n][i], c) == Some(t);
      assert tags[..n][i] == tags[i];
    } else {
      assert Follow(e, st, tags[n], c) == Some(t);
    }
  }

  lemma FollowKeepsId(e: Engine, st: Recorder, t: Tag, c: Call)
    requires st.Sized() && Follow(e, st, t, c).Some?
    ensures Follow(e, st, t, c).value.leaf.id == t.leaf.id
  {
    hide Left;
  }

  lemma IdBelow(tags: seq<Tag>, n: nat, t: Tag)
    requires IdsBelow(Erase(tags), n) && t in tags
    ensures t.leaf.id < n
  {
    var i :| 0 <= i < |tags| && tags[i] == t;
    assert Erase(tags)[i].id < n;
  }

  // Where a rectangle under the index of a call's record comes from.
  lemma AddedByCall(e: Engine, cull: Rect, before: seq<Call>, c: Call, t: Tag)
    requires var start := Start(cull, true);
             t in TagStep(e, Run(e, start, before), TagRun(e, start, before), c)
    requires t.leaf.id >= |Run(e, Start(cull, true), before).records|
    ensures var st := Run(e, Start(cull, true), before);
            exists i :: 0 <= i < |NewLeaves(e, st, c)| && t == Tag(NewLeaves(e, st, c)[i], NewLevel(st, c))
  {
    hide Run, NewLeaves, NewLevel, Follow, FollowAll;
    var start := Start(cull, true);
    var st, tags := Run(e, start, before), TagRun(e, start, before);
    RunTracked(e, cull, before);
    if t in FollowAll(e, st, tags, c) {
      FollowedFrom(e, st, tags, c, t);
      var i :| 0 <= i < |tags| && Follow(e, st, tags[i], c) == Some(t);
      FollowKeepsId(e, st, tags[i], c);
      IdBelow(tags, |st.records|, tags[i]);
    } else {
      var added := TagAll(NewLeaves(e, st, c), NewLevel(st, c));
      var i :| 0 <= i < |added| && added[i] == t;
    }
  }

  // Under the index of a call's record there is nothing but what is left of the rectangles that it added.
  lemma {:induction false} OnlyFates(e: Engine, cull: Rect, before: seq<Call>, c: Call, after: seq<Call>, t: Tag)
    requires var st := Run(e, Start(cull, true), before); NewLeaves(e, st, c) != [] && t.leaf.id == |st.records|
    requires t in TagRun(e, Start(cull, true), before + [c] + after)
    ensures var st := Run(e, Start(cull, true), before);
            exists i :: 0 <= i < |NewLeaves(e, st, c)| && FateOf(e, st, c, i, after) == Some(t)
  {
    hide Run, Step, NewLeaves, NewLevel, Follow, FollowAll;
    var start := Start(cull, true);
    var st := Run(e, start, before);
    StepSized(e, st, c);
    if after == [] {
      assert (before + [c] + after)[..|before|] == before;
      AddedByCall(e, cull, before, c, t);
      var i :| 0 <= i < |NewLeaves(e, st, c)| && t == Tag(NewLeaves(e, st, c)[i], NewLevel(st, c));
      assert FateOf(e, st, c, i, after) == Some(t);
    } else {
      var n := |after| - 1;
      var mid := before + [c] + after[..n];
      assert (before + [c] + after)[..|mid|] == mid && (before + [c] + after)[|mid|] == after[n];
      var st1, tags := Run(e, start, mid), TagRun(e, start, mid);
      RunTracked(e, cull, before);
      RectanglesHaveRecords(e, st, c);
      RecordStays(e, start, before, c, after[..n]);
      if t in FollowAll(e, st1, tags, after[n]) {
        FollowedFrom(e, st1, tags, after[n], t);
        var j :| 0 <= j < |tags| && Follow(e, st1, tags[j], after[n]) == Some(t);
        FollowKeepsId(e, st1, tags[j], after[n]);
        OnlyFates(e, cull, before, c, after[..n], tags[j]);
        var i :| 0 <= i < |NewLeaves(e, st, c)| && FateOf(e, st, c, i, after[..n]) == Some(tags[j]);
        LaterFate(e, start, before, c, after, i);
      } else {
        LaterRectangle(e, cull, mid, after[n], t);
      }
    }
  }

  lemma LaterRectangle(e: Engine, cull: Rect, before: seq<Call>, c: Call, t: Tag)
    requires var st := Run(e, Start(cull, true), before); t in TagAll(NewLeaves(e, st, c), NewLevel(st, c))
    ensures t.leaf.id == |Run(e, Start(cull, true), before).records|
  {
    hide Run, NewLeaves, NewLevel;
    var st := Run(e, Start(cull, true), before);
    var added := TagAll(NewLeaves(e, st, c), NewLevel(st, c));
    var i :| 0 <= i < |added| && added[i] == t;
    RunTracked(e, cull, before);
    RectanglesHaveRecords(e, st, c);
    assert NewLeaves(e, st, c)[i].id == |st.records|;
  }

  lemma LaterFate(e: Engine, start: Recorder, before: seq<Call>, c: Call, after: seq<Call>, i: nat)
    requires start.Sized() && after != [] && i < |NewLeaves(e, Run(e, start, before), c)|
    ensures var st, n := Run(e, start, before), |after| - 1;
            var fate := FateOf(e, st, c, i, after[..n]);
            FateOf(e, st, c, i, after) ==
              if fate.None? then None else Follow(e, Run(e, start, before + [c] + after[..n]), fate.value, after[n])
  {
    hide Step, NewLeaves, NewLevel, Follow;
    var st := Run(e, start, before);
    StepSized(e, st, c);
    RunAppend(e, start, before, c);
    RunConcat(e, start, before + [c], after[..|after| - 1]);
  }

  // Whatever was recorded, a draw, a nested list or a layer that floods, is met by a query exactly if
  // something that is left of it is: each of its rectangles on the device, mapped by the filters of the
  // layers that closed around it and clipped by their parents.
  lemma RecordedRectanglesAreFound(e: Engine, cull: Rect, before: seq<Call>, c: Call, after: seq<Call>, query: Rect)
    requires NewLeaves(e, Run(e, Start(cull, true), before), c) != []
    ensures var st := Run(e, Start(cull, true), before); |st.layers| > 0 && Emits(e, st, c) != []
    ensures var calls := before + [c] + after;
            var st, l, rest := Run(e, Start(cull, true), before), Build(e, cull, true, calls),
                               after + LastRestores(e, cull, calls);
            && |st.records| < |l.records| && Settled(l.records[|st.records|]) == Emits(e, st, c)[0] && l.rtree.Some?
            && (Meets(l, |st.records|, query) <==>
                exists i :: 0 <= i < |NewLeaves(e, st, c)| && Found(FateOf(e, st, c, i, rest), query))
  {
    hide Run, Start, Step, NewLeaves, NewLevel, Fate, LastRestores, Emits;
    var start, calls := Start(cull, true), before + [c] + after;
    var st, restores := Run(e, start, before), LastRestores(e, cull, calls);
    var l, end := Build(e, cull, true, calls), TagRun(e, start, calls + restores);
    BuiltAsRun(e, cull, calls);
    assert calls + restores == before + [c] + (after + restores);
    RunTracked(e, cull, before);
    RectanglesHaveRecords(e, st, c);
    RunTracked(e, cull, calls + restores);
    RecordStays(e, start, before, c, after + restores);
    if i :| 0 <= i < |NewLeaves(e, st, c)| && Found(FateOf(e, st, c, i, after + restores), query) {
      RectanglesAreFollowed(e, cull, before, c, after + restores, i);
      assert NewLeaves(e, st, c)[i].id == |st.records|;
    }
    if Meets(l, |st.records|, query) {
      var j :| 0 <= j < |l.rtree.value| && l.rtree.value[j].id == |st.records|
                  && Intersects(l.rtree.value[j].rect, query);
      assert Erase(end)[j] == end[j].leaf;
      OnlyFates(e, cull, before, c, after + restores, end[j]);
    }
  }

  // Something is left of a rectangle and meets the query.
  predicate Found(fate: Option<Tag>, query: Rect) { fate.Some? && Intersects(fate.value.leaf.rect, query) }

  // In particular a draw that was recorded: its one rectangle is what the clip left of its area.
  lemma RecordedDrawsAreFound(e: Engine, cull: Rect, before: seq<Call>, d: Op, after: seq<Call>, query: Rect)
    requires var st := Run(e, Start(cull, true), before); |st.stack| > 0 && |st.layers| > 0 && RecordsDraw(e, st, d)
    ensures var calls := before + [DrawCall(d)] + after;
            var st, l := Run(e, Start(cull, true), before), Build(e, cull, true, calls);
            var area, t := Area(e, st.paint, d), st.Top().global;
            var drawn := if area.None? then t.cull else Intersection(MapRect(t.matrix, area.value), t.cull);
            var fate := Fate(e, Step(e, st, DrawCall(d)), Tag(Leaf(drawn, |st.records|), |st.layers| - 1),
                             after + LastRestores(e, cull, calls));
            && |st.records| < |l.records| && l.records[|st.records|] == DrawRec(d) && l.rtree.Some?
            && (Meets(l, |st.records|, query) <==> Found(fate, query))
  {
    hide Run, Start, Step, NewLeaves, Fate, RecordsDraw, Area, LastRestores;
    var st, calls := Run(e, Start(cull, true), before), before + [DrawCall(d)] + after;
    RecordedDrawsHaveRectangles(e, cull, before, d);
    DrawLevel(st, d);
    RecordedRectanglesAreFound(e, cull, before, DrawCall(d), after, query);
    var rest := after + LastRestores(e, cull, calls);
    assert |NewLeaves(e, st, DrawCall(d))| == 1;
    assert Found(FateOf(e, st, DrawCall(d), 0, rest), query) ==>
             exists i :: 0 <= i < |NewLeaves(e, st, DrawCall(d))| && Found(FateOf(e, st, DrawCall(d), i, rest), query);
    SettledDraw(Build(e, cull, true, calls).records[|st.records|], d);
  }

  lemma DrawLevel(st: Recorder, d: Op)
    requires st.Sized()
    ensures NewLevel(st, DrawCall(d)) == |st.layers| - 1
  {
  }

  lemma SettledDraw(r: Record, d: Op)
    ensures Settled(r) == DrawCall(d) ==> r == DrawRec(d)
  {
  }
}
