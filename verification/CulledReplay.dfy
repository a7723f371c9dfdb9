/** Replaying part of a display list: from the records that a search of the rtree selected, one
    pass over the list finds all the records that must be dispatched with them. */
module CulledReplay {
  import opened Geometry
  import opened Painting
  import opened DisplayLists
  import opened Brackets

  // ---------- what a record sees ----------

  // One entry of a plain save stack: the save that opened it and the paint then in force, and the transforms
  // and clips since.
  datatype Frame = Frame(opener: Option<Call>, paint: Paint, changes: seq<Call>)

  datatype View = View(frames: seq<Frame>, paint: Paint)

  predicate Changes(r: Record) { r.TransformRec? || r.ClipRec? }

  predicate Renders(r: Record) { r.DrawRec? || r.ListRec? }

  function See(v: View, r: Record): View {
    var n := |v.frames|;
    if r.SetAttrRec? then v.(paint := SetAttr(v.paint, r.attr))
    else if r.IsSave() then v.(frames := v.frames + [Frame(Some(Settled(r)), v.paint, [])])
    else if r.RestoreRec? then (if n > 0 then v.(frames := v.frames[..n - 1]) else v)
    else if Changes(r) && n > 0 then
      v.(frames := v.frames[n - 1 := v.frames[n - 1].(changes := v.frames[n - 1].changes + [Settled(r)])])
    else v
  }

  const FIRST: View := View([Frame(None, DefaultPaint(BLACK), [])], DefaultPaint(BLACK))

  // The view after the first n records of a full replay.
  function FullView(rs: seq<Record>, n: nat): View
    requires n <= |rs|
  {
    if n == 0 then FIRST else See(FullView(rs, n - 1), rs[n - 1])
  }

  // The view after replaying only the records at these indices.
  function PartView(rs: seq<Record>, out: seq<nat>): View
    requires forall k :: 0 <= k < |out| ==> out[k] < |rs|
  {
    if out == [] then FIRST else See(PartView(rs, out[..|out| - 1]), rs[out[|out| - 1]])
  }

  // ---------- what is given, and what is promised ----------

  // Larger than the index of any record.
  const NO_RESTORE: nat := 0xFFFF_FFFF

  ghost predicate WellBracketed(rs: seq<Record>) {
    var sk := Skeleton(rs);
    && |rs| <= NO_RESTORE
    && Height(sk, |sk|) == 0 && (forall k :: 0 <= k <= |sk| ==> Height(sk, k) >= 0)
    && forall i :: 0 <= i < |rs| && rs[i].IsSave() ==> Matches(sk, i, rs[i].restoreIndex)
  }

  ghost predicate InOrder(ids: seq<nat>) { forall i, j :: 0 <= i <= j < |ids| ==> ids[i] <= ids[j] }

  ghost predicate Increasing(out: seq<nat>, bound: nat) {
    && (forall k :: 0 <= k < |out| ==> out[k] < bound)
    && forall j, k :: 0 <= j < k < |out| ==> out[j] < out[k]
  }

  // Of the first n records: every selected one is there, no other draw is, and every attribute is
  // there as long as some selected record still follows.
  ghost predicate Chosen(rs: seq<Record>, ids: seq<nat>, out: seq<nat>, n: nat)
    requires n <= |rs|
  {
    forall i :: 0 <= i < n ==>
      && (i in ids ==> i in out)
      && (Renders(rs[i]) && i in out ==> i in ids)
      && (rs[i].SetAttrRec? && (exists k :: 0 <= k < |ids| && ids[k] >= i) ==> i in out)
  }

  // A save is there exactly when its restore is, for all pairs that end before n.
  ghost predicate Paired(rs: seq<Record>, out: seq<nat>, n: nat) {
    forall i :: 0 <= i < |rs| && rs[i].IsSave() && rs[i].restoreIndex < n ==>
      (i in out <==> rs[i].restoreIndex in out)
  }

  // Every draw, save, transform and clip that is kept sees what it sees in the full replay, and every restore
  // that is kept closes something.
  ghost predicate SameViews(rs: seq<Record>, out: seq<nat>)
    requires forall k :: 0 <= k < |out| ==> out[k] < |rs|
  {
    forall k :: 0 <= k < |out| ==> SameView(rs, out[k], PartView(rs, out[..k]))
  }

  ghost predicate SameView(rs: seq<Record>, i: nat, part: View)
    requires i < |rs|
  {
    && (!rs[i].SetAttrRec? && !rs[i].RestoreRec? ==> part == FullView(rs, i))
    && (rs[i].RestoreRec? ==> |part.frames| > 1)
  }

  // ---------- the state of the pass ----------

  // For an open save: the restore index of the save around it, and whether it was kept.
  datatype SaveInfo = SaveInfo(previous: nat, needed: bool)

  // Where level k of the save stack ends.
  function Limit(infos: seq<SaveInfo>, restore: nat, k: nat): nat
    requires k <= |infos|
  {
    if k == |infos| then restore else infos[k].previous
  }

  // `saves` lists the saves that are open before record i, outermost first.
  ghost predicate Nested(rs: seq<Record>, i: nat, restore: nat, infos: seq<SaveInfo>, saves: seq<nat>)
    requires i <= |rs|
  {
    && |saves| == |infos| && |infos| == Height(Skeleton(rs), i)
    && Limit(infos, restore, 0) == NO_RESTORE
    && (forall j, k :: 0 <= j < k <= |infos| ==> Limit(infos, restore, k) < Limit(infos, restore, j))
    && (forall k :: 0 <= k < |infos| ==> OpenSave(rs, i, saves[k], Limit(infos, restore, k + 1), k))
    && (forall s :: 0 <= s < i && rs[s].IsSave() && s !in saves ==> rs[s].restoreIndex < i)
  }

  ghost predicate OpenSave(rs: seq<Record>, i: nat, save: nat, limit: nat, level: nat)
    requires i <= |rs|
  {
    save < i <= limit && rs[save].IsSave() && rs[save].restoreIndex == limit && Height(Skeleton(rs), save) == level
  }

  // A level that still holds a selected record was kept, and was replayed exactly so far.
  ghost predicate Live(full: View, render: nat, restore: nat, infos: seq<SaveInfo>, part: View) {
    && part.paint == full.paint && |full.frames| == |infos| + 1
    && Kept(infos, part)
    && (forall k :: 0 <= k <= |infos| && render < Limit(infos, restore, k) ==>
          k < |part.frames| && part.frames[k] == full.frames[k])
    && (forall k :: 0 <= k < |infos| && render < Limit(infos, restore, k) ==> infos[k].needed)
  }

  // The saves that were kept are an outer part of those that are open.
  ghost predicate Kept(infos: seq<SaveInfo>, part: View) {
    && 0 < |part.frames| <= |infos| + 1
    && forall k :: 0 <= k < |infos| ==> (infos[k].needed <==> k + 1 < |part.frames|)
  }

  ghost predicate OpenPairs(out: seq<nat>, infos: seq<SaveInfo>, saves: seq<nat>)
    requires |saves| == |infos|
  {
    forall k :: 0 <= k < |infos| ==> (saves[k] in out <==> infos[k].needed)
  }

  // ---------- brackets ----------

  lemma RestoreEnds(rs: seq<Record>, i: nat, restore: nat, infos: seq<SaveInfo>, saves: seq<nat>)
    requires WellBracketed(rs) && i < |rs| && Nested(rs, i, restore, infos, saves)
    ensures rs[i].RestoreRec? ==> |infos| > 0 && i == restore
    ensures !rs[i].RestoreRec? ==> i < restore
    ensures |infos| > 0 ==> restore < |rs| && rs[restore].RestoreRec?
  {
    var sk, m := Skeleton(rs), |infos|;
    assert Height(sk, i + 1) >= 0;
    if m > 0 {
      assert OpenSave(rs, i, saves[m - 1], restore, m - 1);
      assert Matches(sk, saves[m - 1], restore);
      assert sk[restore].RestoreCall?;
    }
  }

  lemma PassNeutral(rs: seq<Record>, i: nat, restore: nat, infos: seq<SaveInfo>, saves: seq<nat>)
    requires WellBracketed(rs) && i < |rs| && Nested(rs, i, restore, infos, saves)
    requires !rs[i].IsSave() && !rs[i].RestoreRec?
    ensures Nested(rs, i + 1, restore, infos, saves)
  {
    RestoreEnds(rs, i, restore, infos, saves);
    forall k | 0 <= k < |infos| ensures OpenSave(rs, i + 1, saves[k], Limit(infos, restore, k + 1), k) {
      assert OpenSave(rs, i, saves[k], Limit(infos, restore, k + 1), k);
    }
  }

  lemma PassSave(rs: seq<Record>, i: nat, restore: nat, infos: seq<SaveInfo>, saves: seq<nat>, needed: bool)
    requires WellBracketed(rs) && i < |rs| && Nested(rs, i, restore, infos, saves) && rs[i].IsSave()
    ensures rs[i].restoreIndex < restore
    ensures Nested(rs, i + 1, rs[i].restoreIndex, infos + [SaveInfo(restore, needed)], saves + [i])
  {
    RestoreEnds(rs, i, restore, infos, saves);
    var sk, m, inner := Skeleton(rs), |infos|, rs[i].restoreIndex;
    var infos', saves' := infos + [SaveInfo(restore, needed)], saves + [i];
    assert Matches(sk, i, inner);
    if m > 0 {
      assert OpenSave(rs, i, saves[m - 1], restore, m - 1);
      PairsNest(sk, saves[m - 1], restore, i, inner);
    }
    assert forall k :: 0 <= k <= m ==> Limit(infos', inner, k) == Limit(infos, restore, k);
    forall k | 0 <= k < m + 1 ensures OpenSave(rs, i + 1, saves'[k], Limit(infos', inner, k + 1), k) {
      if k < m { assert OpenSave(rs, i, saves[k], Limit(infos, restore, k + 1), k); }
    }
    forall s | 0 <= s < i + 1 && rs[s].IsSave() && s !in saves' ensures rs[s].restoreIndex < i + 1 {
      assert s != i by { assert saves'[m] == i; }
      assert s !in saves;
    }
  }

  // Passing a restore, or jumping to the one that closes the innermost open save.
  lemma PassRestore(rs: seq<Record>, i: nat, restore: nat, infos: seq<SaveInfo>, saves: seq<nat>)
    requires WellBracketed(rs) && i <= |rs| && Nested(rs, i, restore, infos, saves) && |infos| > 0
    ensures restore < |rs|
    ensures Nested(rs, restore + 1, infos[|infos| - 1].previous, infos[..|infos| - 1], saves[..|infos| - 1])
  {
    var sk, m := Skeleton(rs), |infos|;
    var infos', saves', outer := infos[..m - 1], saves[..m - 1], infos[m - 1].previous;
    assert OpenSave(rs, i, saves[m - 1], restore, m - 1) && Matches(sk, saves[m - 1], restore);
    assert Height(sk, restore + 1) == m - 1;
    assert forall k :: 0 <= k <= m - 1 ==> Limit(infos', outer, k) == Limit(infos, restore, k);
    forall k | 0 <= k < m - 1 ensures OpenSave(rs, restore + 1, saves'[k], Limit(infos', outer, k + 1), k) {
      assert OpenSave(rs, i, saves[k], Limit(infos, restore, k + 1), k);
    }
    forall s | 0 <= s < restore + 1 && rs[s].IsSave() && s !in saves' ensures rs[s].restoreIndex < restore + 1 {
      if s < i && s in saves {
        assert saves == saves' + [saves[m - 1]];
      } else if s >= i {
        assert Matches(sk, s, rs[s].restoreIndex);
        PairsNest(sk, saves[m - 1], restore, s, rs[s].restoreIndex);
      }
    }
  }

  // ---------- views ----------

  lemma PartAppend(rs: seq<Record>, out: seq<nat>, i: nat)
    requires i < |rs| && forall k :: 0 <= k < |out| ==> out[k] < |rs|
    ensures PartView(rs, out + [i]) == See(PartView(rs, out), rs[i])
  {
    assert (out + [i])[..|out|] == out;
  }

  lemma ViewsAppend(rs: seq<Record>, out: seq<nat>, i: nat)
    requires i < |rs| && forall k :: 0 <= k < |out| ==> out[k] < |rs|
    ensures PartView(rs, out + [i]) == See(PartView(rs, out), rs[i])
    ensures FullView(rs, i + 1) == See(FullView(rs, i), rs[i])
  {
    hide See;
    PartAppend(rs, out, i);
  }

  // While the innermost level holds a selected record, everything was replayed so far.
  lemma AllLive(full: View, render: nat, restore: nat, infos: seq<SaveInfo>, part: View)
    requires Live(full, render, restore, infos, part) && render < restore
    requires forall j, k :: 0 <= j < k <= |infos| ==> Limit(infos, restore, k) < Limit(infos, restore, j)
    ensures part == full
  {
    var m := |infos|;
    assert Limit(infos, restore, m) == restore;
    assert |part.frames| == m + 1;
    forall k | 0 <= k <= m ensures part.frames[k] == full.frames[k] {
      assert render < Limit(infos, restore, k);
    }
  }

  lemma LaterLive(full: View, render: nat, later: nat, restore: nat, infos: seq<SaveInfo>, part: View)
    requires Live(full, render, restore, infos, part) && render <= later
    ensures Live(full, later, restore, infos, part)
  {
  }

  lemma SeeNeutral(full: View, render: nat, restore: nat, infos: seq<SaveInfo>, part: View, r: Record, keep: bool)
    requires Live(full, render, restore, infos, part) && !r.IsSave() && !r.RestoreRec?
    requires r.SetAttrRec? ==> keep
    requires Changes(r) ==> (keep <==> render < restore)
    ensures Live(See(full, r), render, restore, infos, if keep then See(part, r) else part)
  {
    if Changes(r) && keep { assert Limit(infos, restore, |infos|) == restore; }
  }

  lemma SeeSave(full: View, render: nat, restore: nat, infos: seq<SaveInfo>, part: View, r: Record)
    requires Live(full, render, restore, infos, part) && r.IsSave() && r.restoreIndex < restore
    ensures var needed := render < restore;
            Live(See(full, r), render, r.restoreIndex, infos + [SaveInfo(restore, needed)],
                 if needed then See(part, r) else part)
  {
    var m, needed := |infos|, render < restore;
    var infos' := infos + [SaveInfo(restore, needed)];
    assert Limit(infos, restore, m) == restore;
    assert forall k :: 0 <= k <= m ==> Limit(infos', r.restoreIndex, k) == Limit(infos, restore, k);
  }

  lemma SeeRestore(full: View, render: nat, restore: nat, infos: seq<SaveInfo>, part: View, r: Record)
    requires Live(full, render, restore, infos, part) && r.RestoreRec? && |infos| > 0
    ensures var m := |infos| - 1;
            Live(See(full, r), render, infos[m].previous, infos[..m], if infos[m].needed then See(part, r) else part)
  {
    var m := |infos| - 1;
    assert forall k :: 0 <= k <= m ==> Limit(infos[..m], infos[m].previous, k) == Limit(infos, restore, k);
    assert infos[m].needed <==> m + 1 < |part.frames|;
  }

  // ---------- the output ----------

  ghost predicate Output(rs: seq<Record>, ids: seq<nat>, out: seq<nat>, n: nat)
    requires n <= |rs|
  {
    Increasing(out, n) && Chosen(rs, ids, out, n) && Paired(rs, out, n) && SameViews(rs, out)
  }

  function Extended(out: seq<nat>, i: nat, keep: bool): seq<nat> { if keep then out + [i] else out }

  lemma ExtendedHas(out: seq<nat>, i: nat, keep: bool, j: nat)
    ensures j in Extended(out, i, keep) <==> j in out || (keep && j == i)
  {
  }

  lemma ExtendIncreasing(out: seq<nat>, n: nat, i: nat, keep: bool)
    requires Increasing(out, n) && n <= i
    ensures Increasing(Extended(out, i, keep), i + 1)
  {
  }

  lemma ExtendChosen(rs: seq<Record>, ids: seq<nat>, out: seq<nat>, i: nat, keep: bool)
    requires i < |rs| && Chosen(rs, ids, out, i)
    requires (i in ids ==> keep) && (Renders(rs[i]) && keep ==> i in ids) && (rs[i].SetAttrRec? ==> keep)
    requires Increasing(out, i)
    ensures Chosen(rs, ids, Extended(out, i, keep), i + 1)
  {
    forall j | 0 <= j < i + 1
      ensures var o := Extended(out, i, keep);
              && (j in ids ==> j in o) && (Renders(rs[j]) && j in o ==> j in ids)
              && (rs[j].SetAttrRec? && (exists k :: 0 <= k < |ids| && ids[k] >= j) ==> j in o)
    {
      ExtendedHas(out, i, keep, j);
    }
  }

  // Records after the last selected one, of which only restores are taken.
  lemma SkipChosen(rs: seq<Record>, ids: seq<nat>, out: seq<nat>, i: nat, n: nat, keep: bool)
    requires i <= n < |rs| && rs[n].RestoreRec? && Chosen(rs, ids, out, i) && Increasing(out, i)
    requires forall k :: 0 <= k < |ids| ==> ids[k] < i
    ensures Chosen(rs, ids, Extended(out, n, keep), n + 1)
  {
    forall j | 0 <= j < n + 1
      ensures var o := Extended(out, n, keep);
              && (j in ids ==> j in o) && (Renders(rs[j]) && j in o ==> j in ids)
              && (rs[j].SetAttrRec? && (exists k :: 0 <= k < |ids| && ids[k] >= j) ==> j in o)
    {
      ExtendedHas(out, n, keep, j);
    }
  }

  lemma ExtendViews(rs: seq<Record>, out: seq<nat>, i: nat, keep: bool)
    requires i < |rs| && Increasing(out, |rs|) && SameViews(rs, out)
    requires keep ==> SameView(rs, i, PartView(rs, out))
    ensures forall k :: 0 <= k < |Extended(out, i, keep)| ==> Extended(out, i, keep)[k] < |rs|
    ensures SameViews(rs, Extended(out, i, keep))
  {
    var o := Extended(out, i, keep);
    forall k | 0 <= k < |o| ensures SameView(rs, o[k], PartView(rs, o[..k])) {
      assert o[..k] == out[..k];
      if k == |out| { assert out[..k] == out; }
    }
  }

  lemma PairsNeutral(rs: seq<Record>, out: seq<nat>, i: nat, keep: bool)
    requires WellBracketed(rs) && i < |rs| && !rs[i].RestoreRec? && Paired(rs, out, i)
    ensures Paired(rs, Extended(out, i, keep), i + 1)
  {
    var sk := Skeleton(rs);
    forall s | 0 <= s < |rs| && rs[s].IsSave() && rs[s].restoreIndex < i + 1
      ensures s in Extended(out, i, keep) <==> rs[s].restoreIndex in Extended(out, i, keep)
    {
      assert Matches(sk, s, rs[s].restoreIndex);
      assert sk[rs[s].restoreIndex].RestoreCall?;
      ExtendedHas(out, i, keep, s);
      ExtendedHas(out, i, keep, rs[s].restoreIndex);
    }
  }

  // Taking record n when all brackets that end before it but after i are empty of output.
  lemma PairsRestore(rs: seq<Record>, out: seq<nat>, i: nat, n: nat, restore: nat, infos: seq<SaveInfo>,
                     saves: seq<nat>)
    requires WellBracketed(rs) && i <= n < |rs| && Nested(rs, i, restore, infos, saves) && |infos| > 0 && n == restore
    requires Paired(rs, out, i) && OpenPairs(out, infos, saves) && Increasing(out, i)
    ensures Paired(rs, Extended(out, n, infos[|infos| - 1].needed), n + 1)
  {
    var sk, m := Skeleton(rs), |infos| - 1;
    var keep := infos[m].needed;
    assert OpenSave(rs, i, saves[m], restore, m) && Matches(sk, saves[m], restore);
    forall s | 0 <= s < |rs| && rs[s].IsSave() && rs[s].restoreIndex < n + 1
      ensures s in Extended(out, n, keep) <==> rs[s].restoreIndex in Extended(out, n, keep)
    {
      ExtendedHas(out, n, keep, s);
      ExtendedHas(out, n, keep, rs[s].restoreIndex);
      assert Matches(sk, s, rs[s].restoreIndex);
      if s >= i {
        PairsNest(sk, saves[m], restore, s, rs[s].restoreIndex);
      } else if rs[s].restoreIndex >= i {
        assert s in saves;
        var k :| 0 <= k < |saves| && saves[k] == s;
        assert OpenSave(rs, i, saves[k], Limit(infos, restore, k + 1), k);
        assert k == m;
      }
    }
  }

  lemma OpenKept(out: seq<nat>, infos: seq<SaveInfo>, saves: seq<nat>, i: nat, keep: bool)
    requires |saves| == |infos| && OpenPairs(out, infos, saves) && forall k :: 0 <= k < |saves| ==> saves[k] < i
    ensures OpenPairs(Extended(out, i, keep), infos, saves)
    ensures |infos| > 0 ==>
              OpenPairs(Extended(out, i, keep), infos[..|infos| - 1], saves[..|saves| - 1])
  {
    forall k | 0 <= k < |infos| ensures saves[k] in Extended(out, i, keep) <==> infos[k].needed {
      ExtendedHas(out, i, keep, saves[k]);
    }
  }

  lemma OpenMoreKept(out: seq<nat>, infos: seq<SaveInfo>, saves: seq<nat>, i: nat, info: SaveInfo)
    requires |saves| == |infos| && OpenPairs(out, infos, saves) && Increasing(out, i)
    requires forall k :: 0 <= k < |saves| ==> saves[k] < i
    ensures OpenPairs(Extended(out, i, info.needed), infos + [info], saves + [i])
  {
    forall k | 0 <= k < |infos| + 1
      ensures (saves + [i])[k] in Extended(out, i, info.needed) <==> (infos + [info])[k].needed
    {
      ExtendedHas(out, i, info.needed, (saves + [i])[k]);
    }
  }

  // ---------- one record of the pass ----------

  // Everything that holds before record i, when `render` is the next selected record.
  ghost predicate Passing(rs: seq<Record>, ids: seq<nat>, i: nat, render: nat, restore: nat, infos: seq<SaveInfo>,
                          saves: seq<nat>, out: seq<nat>)
  {
    && i <= |rs| && Nested(rs, i, restore, infos, saves) && OpenPairs(out, infos, saves)
    && Output(rs, ids, out, i) && Live(FullView(rs, i), render, restore, infos, PartView(rs, out))
  }

  // The next selected record is at or after record i, and none before it is.
  ghost predicate NextIs(ids: seq<nat>, i: nat, render: nat) {
    i <= render && render in ids && forall k :: 0 <= k < |ids| && ids[k] >= i ==> ids[k] >= render
  }

  lemma OutputBound(rs: seq<Record>, ids: seq<nat>, out: seq<nat>, n: nat)
    requires n <= |rs| && Output(rs, ids, out, n)
    ensures Increasing(out, n) && Paired(rs, out, n) && Chosen(rs, ids, out, n)
  {
  }

  lemma PlainOutput(rs: seq<Record>, ids: seq<nat>, i: nat, out: seq<nat>, keep: bool)
    requires WellBracketed(rs) && i < |rs| && !rs[i].RestoreRec? && Output(rs, ids, out, i)
    requires (i in ids ==> keep) && (Renders(rs[i]) && keep ==> i in ids) && (rs[i].SetAttrRec? ==> keep)
    requires keep && !rs[i].SetAttrRec? ==> PartView(rs, out) == FullView(rs, i)
    ensures Output(rs, ids, Extended(out, i, keep), i + 1)
  {
    hide Chosen, Paired, SameViews, WellBracketed, FullView, PartView;
    ExtendIncreasing(out, i, i, keep);
    ExtendChosen(rs, ids, out, i, keep);
    PairsNeutral(rs, out, i, keep);
    ExtendViews(rs, out, i, keep);
  }

  lemma NeutralPasses(rs: seq<Record>, ids: seq<nat>, i: nat, render: nat, restore: nat, infos: seq<SaveInfo>,
                      saves: seq<nat>, out: seq<nat>, keep: bool)
    requires WellBracketed(rs) && i < |rs| && Passing(rs, ids, i, render, restore, infos, saves, out)
    requires NextIs(ids, i, render) && !rs[i].IsSave() && !rs[i].RestoreRec?
    requires keep == if rs[i].SetAttrRec? then true else if Changes(rs[i]) then render < restore else i == render
    ensures Passing(rs, ids, i + 1, render, restore, infos, saves, Extended(out, i, keep))
  {
    hide Height, Matches, Skeleton, Live, Nested, OpenPairs, Output, WellBracketed, FullView, PartView, See;
    OutputBound(rs, ids, out, i);
    var full, part := FullView(rs, i), PartView(rs, out);
    RestoreEnds(rs, i, restore, infos, saves);
    if !rs[i].SetAttrRec? && keep { Exact(rs, i, render, restore, infos, saves, part); }
    PassNeutral(rs, i, restore, infos, saves);
    SavesBefore(rs, i, restore, infos, saves);
    OpenKept(out, infos, saves, i, keep);
    PlainOutput(rs, ids, i, out, keep);
    SeeNeutral(full, render, restore, infos, part, rs[i], keep);
    ViewsAppend(rs, out, i);
  }

  lemma Exact(rs: seq<Record>, i: nat, render: nat, restore: nat, infos: seq<SaveInfo>, saves: seq<nat>, part: View)
    requires i <= |rs| && Nested(rs, i, restore, infos, saves) && render < restore
    requires Live(FullView(rs, i), render, restore, infos, part)
    ensures part == FullView(rs, i)
  {
    AllLive(FullView(rs, i), render, restore, infos, part);
  }

  lemma SavesBefore(rs: seq<Record>, i: nat, restore: nat, infos: seq<SaveInfo>, saves: seq<nat>)
    requires i <= |rs| && Nested(rs, i, restore, infos, saves)
    ensures |saves| == |infos| && forall k :: 0 <= k < |saves| ==> saves[k] < i
  {
    forall k | 0 <= k < |saves| ensures saves[k] < i {
      assert OpenSave(rs, i, saves[k], Limit(infos, restore, k + 1), k);
    }
  }

  lemma SavePasses(rs: seq<Record>, ids: seq<nat>, i: nat, render: nat, restore: nat, infos: seq<SaveInfo>,
                   saves: seq<nat>, out: seq<nat>)
    requires WellBracketed(rs) && i < |rs| && Passing(rs, ids, i, render, restore, infos, saves, out)
    requires NextIs(ids, i, render) && rs[i].IsSave()
    ensures var needed := render < restore;
            Passing(rs, ids, i + 1, render, rs[i].restoreIndex, infos + [SaveInfo(restore, needed)], saves + [i],
                    Extended(out, i, needed))
  {
    hide Height, Matches, Skeleton, Live, Nested, OpenPairs, Output, WellBracketed, FullView, PartView, See;
    OutputBound(rs, ids, out, i);
    var full, part, needed := FullView(rs, i), PartView(rs, out), render < restore;
    RestoreEnds(rs, i, restore, infos, saves);
    if needed { Exact(rs, i, render, restore, infos, saves, part); }
    PassSave(rs, i, restore, infos, saves, needed);
    SavesBefore(rs, i, restore, infos, saves);
    OpenMoreKept(out, infos, saves, i, SaveInfo(restore, needed));
    PlainOutput(rs, ids, i, out, needed);
    SeeSave(full, render, restore, infos, part, rs[i]);
    ViewsAppend(rs, out, i);
  }

  lemma RestorePasses(rs: seq<Record>, ids: seq<nat>, i: nat, render: nat, restore: nat, infos: seq<SaveInfo>,
                      saves: seq<nat>, out: seq<nat>)
    requires WellBracketed(rs) && i < |rs| && Passing(rs, ids, i, render, restore, infos, saves, out)
    requires NextIs(ids, i, render) && rs[i].RestoreRec?
    ensures |infos| > 0 && i == restore
    ensures var m := |infos| - 1;
            Passing(rs, ids, i + 1, render, infos[m].previous, infos[..m], saves[..|saves| - 1],
                    Extended(out, i, infos[m].needed))
  {
    hide Height, Matches, Skeleton, Live, Nested, OpenPairs, Output, WellBracketed, FullView, PartView, See;
    OutputBound(rs, ids, out, i);
    var full, part := FullView(rs, i), PartView(rs, out);
    RestoreEnds(rs, i, restore, infos, saves);
    var m := |infos| - 1;
    var needed := infos[m].needed;
    SavesBefore(rs, i, restore, infos, saves);
    PassRestore(rs, i, restore, infos, saves);
    OpenKept(out, infos, saves, i, needed);
    if i in ids { SelectedIsNeeded(rs, i, render, restore, infos, saves, part); }
    LiveIsKept(full, render, restore, infos, part);
    RestoreOutput(rs, ids, i, restore, infos, saves, out);
    SeeRestore(full, render, restore, infos, part, rs[i]);
    ViewsAppend(rs, out, i);
  }

  lemma LiveIsKept(full: View, render: nat, restore: nat, infos: seq<SaveInfo>, part: View)
    requires Live(full, render, restore, infos, part)
    ensures Kept(infos, part)
  {
  }

  lemma RestoreOutput(rs: seq<Record>, ids: seq<nat>, i: nat, restore: nat, infos: seq<SaveInfo>, saves: seq<nat>,
                      out: seq<nat>)
    requires WellBracketed(rs) && i < |rs| && rs[i].RestoreRec? && |infos| > 0 && i == restore
    requires Nested(rs, i, restore, infos, saves) && OpenPairs(out, infos, saves) && Output(rs, ids, out, i)
    requires (i in ids ==> infos[|infos| - 1].needed) && Kept(infos, PartView(rs, out))
    ensures Output(rs, ids, Extended(out, i, infos[|infos| - 1].needed), i + 1)
  {
    hide Height, Matches, Skeleton, Nested, OpenPairs, Chosen, Paired, SameViews, WellBracketed;
    var needed := infos[|infos| - 1].needed;
    ExtendIncreasing(out, i, i, needed);
    ExtendChosen(rs, ids, out, i, needed);
    PairsRestore(rs, out, i, i, restore, infos, saves);
    ExtendViews(rs, out, i, needed);
  }

  // A selected restore belongs to a save that was kept.
  lemma SelectedIsNeeded(rs: seq<Record>, i: nat, render: nat, restore: nat, infos: seq<SaveInfo>, saves: seq<nat>,
                         part: View)
    requires i <= |rs| && Nested(rs, i, restore, infos, saves) && |infos| > 0 && i == restore && render == i
    requires Live(FullView(rs, i), render, restore, infos, part)
    ensures infos[|infos| - 1].needed
  {
    var m := |infos| - 1;
    assert Limit(infos, restore, m + 1) == restore;
    assert render < Limit(infos, restore, m);
  }

  // ---------- nothing left to render ----------

  // Only the restores of the saves that were kept are still to be taken.
  ghost predicate Draining(rs: seq<Record>, ids: seq<nat>, n: nat, restore: nat, infos: seq<SaveInfo>, saves: seq<nat>,
                           out: seq<nat>)
  {
    && n <= |rs| && Nested(rs, n, restore, infos, saves) && OpenPairs(out, infos, saves)
    && Output(rs, ids, out, n) && Kept(infos, PartView(rs, out))
    && forall k :: 0 <= k < |ids| ==> ids[k] < n
  }

  lemma DrainOne(rs: seq<Record>, ids: seq<nat>, n: nat, restore: nat, infos: seq<SaveInfo>, saves: seq<nat>,
                 out: seq<nat>)
    requires WellBracketed(rs) && |infos| > 0 && Draining(rs, ids, n, restore, infos, saves, out)
    ensures var m := |infos| - 1;
            Draining(rs, ids, restore + 1, infos[m].previous, infos[..m], saves[..|saves| - 1],
                     Extended(out, restore, infos[m].needed))
  {
    hide Height, Matches, Skeleton, Nested, OpenPairs, Chosen, Paired, SameViews, WellBracketed;
    var m := |infos| - 1;
    var needed := infos[m].needed;
    SavesBefore(rs, n, restore, infos, saves);
    RestoreAhead(rs, n, restore, infos, saves);
    PassRestore(rs, n, restore, infos, saves);
    OpenKept(out, infos, saves, n, needed);
    assert OpenPairs(Extended(out, restore, needed), infos[..m], saves[..|saves| - 1]) by {
      OpenKept(out, infos, saves, restore, needed);
    }
    ExtendIncreasing(out, n, restore, needed);
    SkipChosen(rs, ids, out, n, restore, needed);
    PairsRestore(rs, out, n, restore, restore, infos, saves);
    ExtendViews(rs, out, restore, needed);
    KeptLess(infos, PartView(rs, out), rs[restore]);
    PartAppend(rs, out, restore);
  }

  lemma RestoreAhead(rs: seq<Record>, n: nat, restore: nat, infos: seq<SaveInfo>, saves: seq<nat>)
    requires WellBracketed(rs) && n <= |rs| && Nested(rs, n, restore, infos, saves) && |infos| > 0
    ensures n <= restore < |rs| && rs[restore].RestoreRec?
  {
    var m := |infos| - 1;
    assert OpenSave(rs, n, saves[m], restore, m);
    assert Matches(Skeleton(rs), saves[m], restore);
    assert Skeleton(rs)[restore].RestoreCall?;
  }

  lemma KeptLess(infos: seq<SaveInfo>, part: View, r: Record)
    requires |infos| > 0 && Kept(infos, part) && r.RestoreRec?
    ensures Kept(infos[..|infos| - 1], if infos[|infos| - 1].needed then See(part, r) else part)
  {
  }

  lemma DrainedAll(rs: seq<Record>, ids: seq<nat>, n: nat, restore: nat, saves: seq<nat>, out: seq<nat>)
    requires WellBracketed(rs) && Draining(rs, ids, n, restore, [], saves, out)
    ensures Output(rs, ids, out, |rs|) && |PartView(rs, out).frames| == 1
  {
    forall s | 0 <= s < |rs| && rs[s].IsSave() && rs[s].restoreIndex < |rs|
      ensures s in out <==> rs[s].restoreIndex in out
    {
      assert Matches(Skeleton(rs), s, rs[s].restoreIndex);
      if s < n { assert s !in saves; }
    }
  }

  lemma PassedAll(rs: seq<Record>, ids: seq<nat>, render: nat, restore: nat, infos: seq<SaveInfo>, saves: seq<nat>,
                  out: seq<nat>)
    requires WellBracketed(rs) && Passing(rs, ids, |rs|, render, restore, infos, saves, out)
    ensures infos == [] && |PartView(rs, out).frames| == 1
  {
  }

  lemma FirstPassing(rs: seq<Record>, ids: seq<nat>, render: nat)
    requires WellBracketed(rs)
    ensures Passing(rs, ids, 0, render, NO_RESTORE, [], [], [])
  {
  }

  lemma LaterPassing(rs: seq<Record>, ids: seq<nat>, i: nat, render: nat, later: nat, restore: nat,
                     infos: seq<SaveInfo>, saves: seq<nat>, out: seq<nat>)
    requires Passing(rs, ids, i, render, restore, infos, saves, out) && render <= later
    ensures Passing(rs, ids, i, later, restore, infos, saves, out)
  {
    hide Nested, OpenPairs, Output;
    assert forall k :: 0 <= k < |out| ==> out[k] < |rs| by { OutputBound(rs, ids, out, i); }
    LaterLive(FullView(rs, i), render, later, restore, infos, PartView(rs, out));
  }

  // ---------- the pass ----------

  // The records to dispatch, given those that the search of the rtree selected, in order.
  method RTreeResultsToIndexVector(rs: seq<Record>, ids: seq<nat>) returns (indices: seq<nat>)
    requires WellBracketed(rs) && InOrder(ids)
    ensures Output(rs, ids, indices, |rs|)
    ensures |PartView(rs, indices).frames| == 1
  {
    hide Passing, Draining, Output;
    indices := [];
    if |ids| == 0 {
      NothingSelected(rs);
      return;
    }
    var curRect := 1;
    var nextRender := ids[0];
    var nextRestore := NO_RESTORE;
    var saveInfos: seq<SaveInfo> := [];
    ghost var saves: seq<nat> := [];
    FirstPassing(rs, ids, nextRender);
    var index := 0;
    while index < |rs|
      invariant index <= |rs| && 0 < curRect <= |ids| && nextRender == ids[curRect - 1]
      invariant forall k :: 0 <= k < curRect - 1 ==> ids[k] < index
      invariant |saves| == |saveInfos| && Passing(rs, ids, index, nextRender, nextRestore, saveInfos, saves, indices)
    {
      while index > nextRender
        invariant 0 < curRect <= |ids| && nextRender == ids[curRect - 1]
        invariant forall k :: 0 <= k < curRect - 1 ==> ids[k] < index
        invariant |saves| == |saveInfos| && Passing(rs, ids, index, nextRender, nextRestore, saveInfos, saves, indices)
        decreases |ids| - curRect
      {
        if curRect < |ids| {
          LaterPassing(rs, ids, index, nextRender, ids[curRect], nextRestore, saveInfos, saves, indices);
          nextRender := ids[curRect];
          curRect := curRect + 1;
        } else {
          ghost var n: nat := index;
          StartDraining(rs, ids, n, nextRender, nextRestore, saveInfos, saves, indices);
          while |saveInfos| > 0
            invariant |saves| == |saveInfos| && Draining(rs, ids, n, nextRestore, saveInfos, saves, indices)
          {
            var info := saveInfos[|saveInfos| - 1];
            DrainOne(rs, ids, n, nextRestore, saveInfos, saves, indices);
            if info.needed {
              indices := indices + [nextRestore];
            }
            n, saves := nextRestore + 1, saves[..|saves| - 1];
            nextRestore := info.previous;
            saveInfos := saveInfos[..|saveInfos| - 1];
          }
          assert saveInfos == [];
          DrainedAll(rs, ids, n, nextRestore, saves, indices);
          return;
        }
      }
      assert NextIs(ids, index, nextRender);
      match rs[index] {
        case SetAttrRec(_) =>
          NeutralPasses(rs, ids, index, nextRender, nextRestore, saveInfos, saves, indices, true);
          indices := indices + [index];
        case TransformRec(_) | ClipRec(_, _, _) =>
          NeutralPasses(rs, ids, index, nextRender, nextRestore, saveInfos, saves, indices, nextRender < nextRestore);
          if nextRender < nextRestore {
            indices := indices + [index];
          }
        case DrawRec(_) | ListRec(_, _) =>
          NeutralPasses(rs, ids, index, nextRender, nextRestore, saveInfos, saves, indices, index == nextRender);
          if index == nextRender {
            indices := indices + [index];
          }
        case SaveRec(_, _) | LayerRec(_, _, _, _, _, _) =>
          SavePasses(rs, ids, index, nextRender, nextRestore, saveInfos, saves, indices);
          var needed := nextRender < nextRestore;
          saveInfos := saveInfos + [SaveInfo(nextRestore, needed)];
          saves := saves + [index];
          nextRestore := rs[index].restoreIndex;
          if needed {
            indices := indices + [index];
          }
        case RestoreRec =>
          RestorePasses(rs, ids, index, nextRender, nextRestore, saveInfos, saves, indices);
          var info := saveInfos[|saveInfos| - 1];
          nextRestore := info.previous;
          if info.needed {
            indices := indices + [index];
          }
          saveInfos := saveInfos[..|saveInfos| - 1];
          saves := saves[..|saves| - 1];
      }
      index := index + 1;
    }
    PassedAll(rs, ids, nextRender, nextRestore, saveInfos, saves, indices);
    assert Output(rs, ids, indices, |rs|)
      by { PassingOutput(rs, ids, |rs|, nextRender, nextRestore, saveInfos, saves, indices); }
  }

  lemma NothingSelected(rs: seq<Record>)
    requires WellBracketed(rs)
    ensures Output(rs, [], [], |rs|) && |PartView(rs, []).frames| == 1
  {
  }

  lemma PassingOutput(rs: seq<Record>, ids: seq<nat>, i: nat, render: nat, restore: nat, infos: seq<SaveInfo>,
                      saves: seq<nat>, out: seq<nat>)
    requires Passing(rs, ids, i, render, restore, infos, saves, out)
    ensures Output(rs, ids, out, i)
  {
  }

  lemma StartDraining(rs: seq<Record>, ids: seq<nat>, i: nat, render: nat, restore: nat, infos: seq<SaveInfo>,
                      saves: seq<nat>, out: seq<nat>)
    requires Passing(rs, ids, i, render, restore, infos, saves, out)
    requires forall k :: 0 <= k < |ids| ==> ids[k] < i
    ensures Draining(rs, ids, i, restore, infos, saves, out)
  {
  }
}
