/** The damage tracker as the program has it, an object that updates its fields, and the final
    damage of a frame that it computes. */
module DamageTracker {
  import opened Geometry
  import opened DamageRects
  import opened DiffContext

  // ---------- the pass over the readbacks ----------

  // Readback and paint area belong together: when the damage meets one, both must be painted.
  predicate Meets(b: Readback, d: Rect) { Intersects(ToRect(b.paint), d) || Intersects(ToRect(b.source), d) }

  function Spread(d: Rect, b: Readback): Rect { Union(Union(d, ToRect(b.source)), ToRect(b.paint)) }

  function FrameDamage(d: Rect, bs: seq<Readback>): Rect {
    if bs == [] then d
    else
      var f := FrameDamage(d, bs[..|bs| - 1]);
      if Meets(bs[|bs| - 1], f) then Spread(f, bs[|bs| - 1]) else f
  }

  // The damage of the buffer grows wherever that of the frame does.
  function BufferDamage(start: Rect, d: Rect, bs: seq<Readback>): Rect {
    if bs == [] then start
    else
      var g := BufferDamage(start, d, bs[..|bs| - 1]);
      if Meets(bs[|bs| - 1], FrameDamage(d, bs[..|bs| - 1])) then Spread(g, bs[|bs| - 1]) else g
  }

  ghost predicate Covered(b: Readback, d: Rect) { Enclosed(ToRect(b.paint), d) && Enclosed(ToRect(b.source), d) }

  lemma SpreadCovers(d: Rect, b: Readback)
    ensures Enclosed(d, Spread(d, b)) && Covered(b, Spread(d, b))
  {
    UnionEncloses(d, ToRect(b.source));
    UnionEncloses(Union(d, ToRect(b.source)), ToRect(b.paint));
  }

  lemma SpreadMonotone(d: Rect, e: Rect, b: Readback)
    requires Enclosed(d, e)
    ensures Enclosed(Spread(d, b), Spread(e, b))
  {
    UnionMonotone(d, e, ToRect(b.source));
    UnionMonotone(Union(d, ToRect(b.source)), Union(e, ToRect(b.source)), ToRect(b.paint));
  }

  lemma {:induction false} FrameInBuffer(start: Rect, d: Rect, bs: seq<Readback>)
    requires Enclosed(d, start)
    ensures Enclosed(FrameDamage(d, bs), BufferDamage(start, d, bs))
  {
    if bs != [] {
      var front := bs[..|bs| - 1];
      FrameInBuffer(start, d, front);
      SpreadMonotone(FrameDamage(d, front), BufferDamage(start, d, front), bs[|bs| - 1]);
    }
  }

  lemma {:induction false} DamageGrows(start: Rect, d: Rect, bs: seq<Readback>, n: nat)
    requires n <= |bs|
    ensures Enclosed(FrameDamage(d, bs[..n]), FrameDamage(d, bs))
    ensures Enclosed(BufferDamage(start, d, bs[..n]), BufferDamage(start, d, bs))
  {
    if n == |bs| {
      assert bs[..n] == bs;
    } else {
      var front := bs[..|bs| - 1];
      DamageGrows(start, d, front, n);
      assert front[..n] == bs[..n];
      SpreadCovers(FrameDamage(d, front), bs[|bs| - 1]);
      SpreadCovers(BufferDamage(start, d, front), bs[|bs| - 1]);
    }
  }

  // A readback that meets the damage when its turn comes is in the final damage.
  lemma MetReadbacksAreCovered(start: Rect, d: Rect, bs: seq<Readback>, i: nat)
    requires i < |bs| && Meets(bs[i], FrameDamage(d, bs[..i]))
    ensures Covered(bs[i], FrameDamage(d, bs)) && Covered(bs[i], BufferDamage(start, d, bs))
  {
    var to := bs[..i + 1];
    assert to[..|to| - 1] == bs[..i];
    SpreadCovers(FrameDamage(d, bs[..i]), bs[i]);
    SpreadCovers(BufferDamage(start, d, bs[..i]), bs[i]);
    DamageGrows(start, d, bs, i + 1);
  }

  // A readback is met exactly if the damage has a point of its paint area or of what it samples; then all
  // points of both are damage in the end.
  lemma TouchedReadbacksAreCovered(start: Rect, d: Rect, bs: seq<Readback>, i: nat)
    requires i < |bs|
    ensures var f, b := FrameDamage(d, bs[..i]), bs[i];
            Meets(b, f) <==> exists p :: Inside(p, f) && (Inside(p, ToRect(b.paint)) || Inside(p, ToRect(b.source)))
    ensures Meets(bs[i], FrameDamage(d, bs[..i])) ==>
              forall q :: Inside(q, ToRect(bs[i].paint)) || Inside(q, ToRect(bs[i].source)) ==>
                Inside(q, FrameDamage(d, bs)) && Inside(q, BufferDamage(start, d, bs))
  {
    hide FrameDamage, BufferDamage, ToRect;
    var f, b := FrameDamage(d, bs[..i]), bs[i];
    MeetsPoint(ToRect(b.paint), f);
    MeetsPoint(ToRect(b.source), f);
    if Meets(b, f) {
      MetReadbacksAreCovered(start, d, bs, i);
      hide Inside;
      forall q | Inside(q, ToRect(b.paint)) || Inside(q, ToRect(b.source))
        ensures Inside(q, FrameDamage(d, bs)) && Inside(q, BufferDamage(start, d, bs))
      {
        var r := if Inside(q, ToRect(b.paint)) then ToRect(b.paint) else ToRect(b.source);
        PointsEnclosed(r, FrameDamage(d, bs), q);
        PointsEnclosed(r, BufferDamage(start, d, bs), q);
      }
    }
  }

  // And nothing else is: a rectangle holds the final damage exactly if it holds the damage at the start
  // and every readback that is met at its turn.
  lemma {:induction false} DamageIsExact(start: Rect, d: Rect, bs: seq<Readback>, e: Rect)
    ensures Enclosed(FrameDamage(d, bs), e) <==> Enclosed(d, e) && MetAreCovered(d, bs, e)
    ensures Enclosed(BufferDamage(start, d, bs), e) <==> Enclosed(start, e) && MetAreCovered(d, bs, e)
  {
    hide Meets, Enclosed;
    if bs != [] {
      var n := |bs| - 1;
      DamageIsExact(start, d, bs[..n], e);
      MetLast(d, bs, e);
      SpreadWithin(FrameDamage(d, bs[..n]), bs[n], e);
      SpreadWithin(BufferDamage(start, d, bs[..n]), bs[n], e);
    }
  }

  ghost predicate MetAreCovered(d: Rect, bs: seq<Readback>, e: Rect) {
    forall i :: 0 <= i < |bs| && Meets(bs[i], FrameDamage(d, bs[..i])) ==> Covered(bs[i], e)
  }

  lemma MetLast(d: Rect, bs: seq<Readback>, e: Rect)
    requires bs != []
    ensures var n := |bs| - 1;
            MetAreCovered(d, bs, e) <==>
              MetAreCovered(d, bs[..n], e) && (Meets(bs[n], FrameDamage(d, bs[..n])) ==> Covered(bs[n], e))
  {
    hide Meets, Covered, FrameDamage;
    var n := |bs| - 1;
    assert forall i :: 0 <= i < n ==> bs[..n][i] == bs[i] && bs[..n][..i] == bs[..i];
  }

  lemma SpreadWithin(d: Rect, b: Readback, e: Rect)
    ensures Enclosed(Spread(d, b), e) <==> Enclosed(d, e) && Covered(b, e)
  {
    UnionWithin(d, ToRect(b.source), e);
    UnionWithin(Union(d, ToRect(b.source)), ToRect(b.paint), e);
  }

  // ---------- readbacks that are met too late ----------

  ghost predicate Closed(d: Rect, bs: seq<Readback>) {
    forall i :: 0 <= i < |bs| && Meets(bs[i], d) ==> Covered(bs[i], d)
  }

  lemma CoveredMeansSame(d: Rect, b: Readback)
    requires Meets(b, d)
    ensures Covered(b, d) <==> Spread(d, b) == d
  {
    SpreadCovers(d, b);
  }

  lemma {:induction false} ClosedMeansStable(d: Rect, bs: seq<Readback>)
    requires Closed(d, bs)
    ensures FrameDamage(d, bs) == d
  {
    if bs != [] {
      var n := |bs| - 1;
      forall i | 0 <= i < n && Meets(bs[..n][i], d) ensures Covered(bs[..n][i], d) {
        assert bs[..n][i] == bs[i];
      }
      ClosedMeansStable(d, bs[..n]);
      if Meets(bs[n], d) { CoveredMeansSame(d, bs[n]); }
    }
  }

  lemma EnclosedBoth(a: Rect, b: Rect)
    requires Enclosed(a, b) && Enclosed(b, a) && !a.IsEmpty()
    ensures a == b
  {
  }

  lemma StableMeansClosed(d: Rect, bs: seq<Readback>)
    requires FrameDamage(d, bs) == d
    ensures Closed(d, bs)
  {
    forall i | 0 <= i < |bs| && Meets(bs[i], d) ensures Covered(bs[i], d) {
      DamageGrows(d, d, bs, i);
      DamageGrows(d, d, bs[..i], 0);
      assert bs[..i][..0] == [];
      EnclosedBoth(d, FrameDamage(d, bs[..i]));
      MetReadbacksAreCovered(d, d, bs, i);
    }
  }

  // A readback is half painted if the damage meets it but does not cover it.
  ghost predicate Half(b: Readback, d: Rect) { Meets(b, d) && !Covered(b, d) }

  // The single pass leaves no readback half painted exactly when each one that was not met at its turn
  // misses the final damage or is covered by it; and exactly when another pass would add nothing.
  lemma OnePassSuffices(d: Rect, bs: seq<Readback>)
    ensures var f := FrameDamage(d, bs);
            Closed(f, bs) <==> forall i :: 0 <= i < |bs| && !Meets(bs[i], FrameDamage(d, bs[..i])) ==> !Half(bs[i], f)
    ensures var f := FrameDamage(d, bs); Closed(f, bs) <==> FrameDamage(f, bs) == f
  {
    var f := FrameDamage(d, bs);
    if Closed(f, bs) { ClosedMeansStable(f, bs); }
    if FrameDamage(f, bs) == f { StableMeansClosed(f, bs); }
    if forall i :: 0 <= i < |bs| && !Meets(bs[i], FrameDamage(d, bs[..i])) ==> !Half(bs[i], f) {
      forall i | 0 <= i < |bs| && Meets(bs[i], f) ensures Covered(bs[i], f) {
        if Meets(bs[i], FrameDamage(d, bs[..i])) { MetReadbacksAreCovered(d, d, bs, i); }
      }
    }
  }

  // Taking the readbacks from the front.
  function FirstTurn(d: Rect, b: Readback): Rect { if Meets(b, d) then Spread(d, b) else d }

  lemma {:induction false} FrontFirst(d: Rect, bs: seq<Readback>)
    requires bs != []
    ensures FrameDamage(d, bs) == FrameDamage(FirstTurn(d, bs[0]), bs[1..])
  {
    hide Meets, Spread;
    var n := |bs| - 1;
    if n == 0 {
      assert bs[..0] == [] && bs[1..] == [];
    } else {
      FrontFirst(d, bs[..n]);
      assert bs[..n][1..] == bs[1..][..n - 1] && bs[1..][n - 1] == bs[n];
    }
  }

  // A test of the readbacks in their order, on the inputs: each one meets what the damage is at its turn, or
  // else the rest of the readbacks do not leave it half painted.
  ghost predicate Settles(d: Rect, bs: seq<Readback>)
    decreases |bs|
  {
    bs != [] ==>
      && (!Meets(bs[0], d) ==> !Half(bs[0], FrameDamage(d, bs[1..])))
      && Settles(FirstTurn(d, bs[0]), bs[1..])
  }

  lemma {:induction false} OnePassSufficesIff(d: Rect, bs: seq<Readback>)
    ensures Closed(FrameDamage(d, bs), bs) <==> Settles(d, bs)
    decreases |bs|
  {
    hide Meets, Spread, Covered, FrameDamage;
    if bs != [] {
      var f, rest := FrameDamage(d, bs), bs[1..];
      FrontFirst(d, bs);
      OnePassSufficesIff(FirstTurn(d, bs[0]), rest);
      if Meets(bs[0], d) { FirstCovered(d, bs); }
      assert forall i :: 0 <= i < |rest| ==> rest[i] == bs[i + 1];
      assert forall i :: 0 < i < |bs| ==> bs[i] == rest[i - 1];
      assert Closed(f, bs) <==> !Half(bs[0], f) && Closed(f, rest);
    } else {
      assert Closed(FrameDamage(d, bs), bs);
    }
  }

  lemma FirstCovered(d: Rect, bs: seq<Readback>)
    requires bs != [] && Meets(bs[0], d)
    ensures Covered(bs[0], FrameDamage(d, bs))
  {
    hide Meets, Spread, Covered;
    assert bs[..0] == [];
    MetReadbacksAreCovered(d, d, bs, 0);
  }

  // ---------- the least damage that is closed ----------

  lemma MeetsMonotone(b: Readback, d: Rect, e: Rect)
    requires Enclosed(d, e) && Meets(b, d)
    ensures Meets(b, e)
  {
  }

  lemma SpreadInside(d: Rect, e: Rect, b: Readback)
    requires Enclosed(d, e) && Covered(b, e)
    ensures Enclosed(Spread(d, b), e)
  {
  }

  // The pass damages nothing in vain: its result lies in every rectangle that holds the damage and leaves
  // no readback half painted. So one pass is enough exactly when its result is the least such rectangle.
  lemma {:induction false} FrameDamageIsLeast(d: Rect, bs: seq<Readback>, e: Rect)
    requires Enclosed(d, e) && Closed(e, bs)
    ensures Enclosed(FrameDamage(d, bs), e)
  {
    hide Enclosed, Meets, Spread, Covered;
    if bs != [] {
      var n := |bs| - 1;
      forall i | 0 <= i < n && Meets(bs[..n][i], e) ensures Covered(bs[..n][i], e) { assert bs[..n][i] == bs[i]; }
      FrameDamageIsLeast(d, bs[..n], e);
      var f := FrameDamage(d, bs[..n]);
      if Meets(bs[n], f) {
        MeetsMonotone(bs[n], f, e);
        SpreadInside(f, e, bs[n]);
      }
    }
  }

  function Passes(d: Rect, bs: seq<Readback>, k: nat): Rect {
    if k == 0 then d else FrameDamage(Passes(d, bs, k - 1), bs)
  }

  // The readbacks that are not covered.
  ghost function Uncovered(d: Rect, bs: seq<Readback>): nat {
    if bs == [] then 0 else Uncovered(d, bs[..|bs| - 1]) + if Covered(bs[|bs| - 1], d) then 0 else 1
  }

  lemma EnclosedTwice(a: Rect, b: Rect, c: Rect)
    requires Enclosed(a, b) && Enclosed(b, c)
    ensures Enclosed(a, c)
  {
  }

  lemma CoveredMore(b: Readback, d: Rect, e: Rect)
    requires Enclosed(d, e) && Covered(b, d)
    ensures Covered(b, e)
  {
    EnclosedTwice(ToRect(b.paint), d, e);
    EnclosedTwice(ToRect(b.source), d, e);
  }

  lemma {:induction false} UncoveredShrinks(d: Rect, e: Rect, bs: seq<Readback>)
    requires Enclosed(d, e)
    ensures Uncovered(e, bs) <= Uncovered(d, bs) <= |bs|
    ensures (exists i :: 0 <= i < |bs| && !Covered(bs[i], d) && Covered(bs[i], e)) ==>
              Uncovered(e, bs) < Uncovered(d, bs)
  {
    hide Enclosed, Covered;
    if bs != [] {
      var n := |bs| - 1;
      UncoveredShrinks(d, e, bs[..n]);
      if Covered(bs[n], d) { CoveredMore(bs[n], d, e); }
      if i :| 0 <= i < |bs| && !Covered(bs[i], d) && Covered(bs[i], e) {
        if i < n { assert bs[..n][i] == bs[i]; }
      }
    }
  }

  // Each pass that is needed covers at least one readback more.
  lemma {:induction false} PassesProgress(d: Rect, bs: seq<Readback>, k: nat)
    ensures Closed(Passes(d, bs, k), bs) || Uncovered(Passes(d, bs, k), bs) + k <= |bs|
  {
    hide Enclosed, Covered, Meets, FrameDamage, Closed, Uncovered;
    if k == 0 {
      UncoveredShrinks(d, d, bs) by { EnclosedSelf(d); }
    } else {
      var e := Passes(d, bs, k - 1);
      PassesProgress(d, bs, k - 1);
      if Closed(e, bs) {
        ClosedMeansStable(e, bs);
      } else {
        PassCoversMore(e, bs);
      }
    }
  }

  lemma EnclosedSelf(a: Rect)
    ensures Enclosed(a, a)
  {
  }

  lemma PassCoversMore(d: Rect, bs: seq<Readback>)
    requires !Closed(d, bs)
    ensures Uncovered(FrameDamage(d, bs), bs) < Uncovered(d, bs)
  {
    hide Enclosed, Covered, Meets, FrameDamage, Uncovered;
    var i :| 0 <= i < |bs| && Meets(bs[i], d) && !Covered(bs[i], d);
    Grown(d, bs, i);
    Grown(d, bs, |bs|);
    assert bs[..|bs|] == bs;
    MeetsMonotone(bs[i], d, FrameDamage(d, bs[..i]));
    MetReadbacksAreCovered(d, d, bs, i);
    UncoveredShrinks(d, FrameDamage(d, bs), bs);
  }

  lemma Grown(d: Rect, bs: seq<Readback>, n: nat)
    requires n <= |bs|
    ensures Enclosed(d, FrameDamage(d, bs[..n]))
  {
    DamageGrows(d, d, bs[..n], 0);
    assert bs[..n][..0] == [];
  }

  // As many passes as there are readbacks are always enough, and give the least damage that is closed.
  lemma ManyPassesSuffice(d: Rect, bs: seq<Readback>)
    ensures Enclosed(d, Passes(d, bs, |bs|)) && Closed(Passes(d, bs, |bs|), bs)
    ensures forall e :: Enclosed(d, e) && Closed(e, bs) ==> Enclosed(Passes(d, bs, |bs|), e)
  {
    PassesGrow(d, bs, |bs|);
    PassesProgress(d, bs, |bs|);
    if Uncovered(Passes(d, bs, |bs|), bs) == 0 { NoneUncovered(Passes(d, bs, |bs|), bs); }
    forall e | Enclosed(d, e) && Closed(e, bs) ensures Enclosed(Passes(d, bs, |bs|), e) {
      PassesLeast(d, bs, |bs|, e);
    }
  }

  lemma {:induction false} PassesGrow(d: Rect, bs: seq<Readback>, k: nat)
    ensures Enclosed(d, Passes(d, bs, k))
  {
    hide Enclosed, FrameDamage;
    if k == 0 {
      EnclosedSelf(d);
    } else {
      var e := Passes(d, bs, k - 1);
      PassesGrow(d, bs, k - 1);
      Grown(e, bs, |bs|);
      assert bs[..|bs|] == bs;
      EnclosedTwice(d, e, FrameDamage(e, bs));
    }
  }

  lemma {:induction false} NoneUncovered(d: Rect, bs: seq<Readback>)
    requires Uncovered(d, bs) == 0
    ensures forall i :: 0 <= i < |bs| ==> Covered(bs[i], d)
  {
    hide Covered;
    if bs != [] {
      var n := |bs| - 1;
      NoneUncovered(d, bs[..n]);
      forall i | 0 <= i < |bs| ensures Covered(bs[i], d) {
        if i < n { assert bs[..n][i] == bs[i]; }
      }
    }
  }

  lemma {:induction false} PassesLeast(d: Rect, bs: seq<Readback>, k: nat, e: Rect)
    requires Enclosed(d, e) && Closed(e, bs)
    ensures Enclosed(Passes(d, bs, k), e)
  {
    hide Enclosed, Closed, FrameDamage;
    if k > 0 {
      PassesLeast(d, bs, k - 1, e);
      FrameDamageIsLeast(Passes(d, bs, k - 1), bs, e);
    }
  }

  // It does not always: the second readback brings damage to the first, whose turn is over.
  lemma OnePassIsNotEnough()
    ensures exists d, bs :: !Closed(FrameDamage(d, bs), bs)
  {
    var first := Readback(0, IRect(20, 0, 30, 10), IRect(20, 0, 30, 10));
    var second := Readback(1, IRect(0, 0, 25, 10), IRect(0, 0, 25, 10));
    var d, bs := LTRB(0.0, 0.0, 5.0, 5.0), [first, second];
    assert bs[..1] == [first] && [first][..0] == [];
    assert FrameDamage(d, [first]) == d;
    var f := FrameDamage(d, bs);
    assert f == LTRB(0.0, 0.0, 25.0, 10.0);
    assert Meets(bs[0], f) && !Covered(bs[0], f);
    assert !Closed(FrameDamage(d, bs), bs);
  }

  // ---------- the final damage ----------

  datatype Damage = Damage(frame: IRect, buffer: IRect)

  lemma PointsIn(a: IRect, b: IRect, p: Point)
    requires In(a, b) && Inside(p, ToRect(a))
    ensures Inside(p, ToRect(b))
  {
  }

  lemma PointsEnclosed(a: Rect, b: Rect, p: Point)
    requires Enclosed(a, b) && Inside(p, a)
    ensures Inside(p, b)
  {
  }

  // Damage rounded out, clipped to the frame, and aligned if that is asked for.
  function Final(r: Rect, frame: IRect, h: int, v: int): IRect
    requires h > 1 || v > 1 ==> h >= 1 && v >= 1
  {
    var clipped := IntersectionOrEmpty(RoundOut(r), frame);
    if h > 1 || v > 1 then Aligned(clipped, h, v, frame.right, frame.bottom) else clipped
  }

  lemma FinalInFrame(r: Rect, frame: IRect, h: int, v: int)
    requires h > 1 || v > 1 ==> h >= 1 && v >= 1
    requires frame.left == 0 && frame.top == 0 && frame.right >= 0 && frame.bottom >= 0
    ensures In(IntersectionOrEmpty(RoundOut(r), frame), Final(r, frame, h, v)) && In(Final(r, frame, h, v), frame)
  {
    var c := IntersectionOrEmpty(RoundOut(r), frame);
    if h > 1 || v > 1 {
      DownOnGrid(c.left, h);
      DownOnGrid(c.top, v);
      UpOnGrid(c.right, h);
      UpOnGrid(c.bottom, v);
      ZeroOnGrid(c.left, h);
      ZeroOnGrid(c.top, v);
    }
  }

  lemma FinalMonotone(a: Rect, b: Rect, frame: IRect, h: int, v: int)
    requires h > 1 || v > 1 ==> h >= 1 && v >= 1
    requires frame.left == 0 && frame.top == 0 && frame.right >= 0 && frame.bottom >= 0
    requires Enclosed(a, b)
    ensures In(Final(a, frame, h, v), Final(b, frame, h, v))
  {
    RoundOutMonotone(a, b);
    ClipMonotone(RoundOut(a), RoundOut(b), frame);
    var c := IntersectionOrEmpty(RoundOut(a), frame);
    if h > 1 || v > 1 {
      if c.IsEmpty() {
        assert c == NO_RECT;
      } else {
        AlignedMonotone(c, IntersectionOrEmpty(RoundOut(b), frame), h, v, frame.right, frame.bottom);
      }
    }
  }

  lemma FinalKeeps(r: Rect, frame: IRect, h: int, v: int, p: Point)
    requires h > 1 || v > 1 ==> h >= 1 && v >= 1
    requires frame.left == 0 && frame.top == 0 && frame.right >= 0 && frame.bottom >= 0
    requires Inside(p, r) && Inside(p, ToRect(frame))
    ensures Inside(p, ToRect(Final(r, frame, h, v)))
  {
    RoundOutKeeps(r, frame, p);
    FinalInFrame(r, frame, h, v);
    PointsIn(IntersectionOrEmpty(RoundOut(r), frame), Final(r, frame, h, v), p);
  }

  lemma RoundOutIsLeast(r: Rect, frame: IRect, e: IRect)
    requires !frame.IsEmpty() && Enclosed(Intersection(r, ToRect(frame)), ToRect(e))
    ensures In(IntersectionOrEmpty(RoundOut(r), frame), e)
  {
  }

  // The final damage is the least rectangle, of the grid if one is asked for, around what of the damage
  // is in the frame. Its sides are on the grid but where the frame ends.
  lemma FinalIsLeast(r: Rect, frame: IRect, h: int, v: int, e: IRect)
    requires h > 1 || v > 1 ==> h >= 1 && v >= 1
    requires frame.left == 0 && frame.top == 0 && frame.right >= 0 && frame.bottom >= 0
    ensures (h > 1 || v > 1 ==> OnGrid(e, h, v)) && Enclosed(Intersection(r, ToRect(frame)), ToRect(e)) ==>
              In(Final(r, frame, h, v), e)
    ensures var f := Final(r, frame, h, v);
            h > 1 || v > 1 ==>
              && f.left % h == 0 && f.top % v == 0
              && (f.right % h == 0 || f.right == frame.right) && (f.bottom % v == 0 || f.bottom == frame.bottom)
  {
    hide RoundOut, IntersectionOrEmpty, Aligned, Intersection, ToRect, Enclosed;
    var c := IntersectionOrEmpty(RoundOut(r), frame);
    if frame.IsEmpty() {
      NothingIn(RoundOut(r), frame);
    } else if Enclosed(Intersection(r, ToRect(frame)), ToRect(e)) {
      RoundOutIsLeast(r, frame, e);
    }
    if h > 1 || v > 1 {
      AlignedSides(c, h, v, frame);
      FinalInFrame(r, frame, h, v);
      if c.IsEmpty() {
        EmptyAligned(RoundOut(r), frame, h, v);
      } else if OnGrid(e, h, v) && In(c, e) {
        AlignedIsSmallest(c, h, v, frame.right, frame.bottom, e);
      }
    }
  }

  lemma NothingIn(a: IRect, frame: IRect)
    requires frame.IsEmpty()
    ensures IntersectionOrEmpty(a, frame) == NO_RECT
  {
  }

  lemma EmptyAligned(a: IRect, frame: IRect, h: int, v: int)
    requires h >= 1 && v >= 1 && IntersectionOrEmpty(a, frame).IsEmpty()
    ensures Aligned(IntersectionOrEmpty(a, frame), h, v, frame.right, frame.bottom).IsEmpty()
  {
    assert IntersectionOrEmpty(a, frame) == NO_RECT;
    UpOnGrid(0, h);
    UpOnGrid(0, v);
  }

  lemma AlignedSides(c: IRect, h: int, v: int, frame: IRect)
    requires h >= 1 && v >= 1
    ensures var f := Aligned(c, h, v, frame.right, frame.bottom);
            && f.left % h == 0 && f.top % v == 0
            && (f.right % h == 0 || f.right == frame.right) && (f.bottom % v == 0 || f.bottom == frame.bottom)
  {
    DownOnGrid(c.left, h);
    DownOnGrid(c.top, v);
    UpOnGrid(c.right, h);
    UpOnGrid(c.bottom, v);
  }

  // Every point of the area that is in the frame is in the damage.
  ghost predicate Keeps(area: Rect, frame: IRect, damage: IRect) {
    forall p :: Inside(p, area) && Inside(p, ToRect(frame)) ==> Inside(p, ToRect(damage))
  }

  lemma KeepsEnclosed(area: Rect, r: Rect, frame: IRect, h: int, v: int)
    requires h > 1 || v > 1 ==> h >= 1 && v >= 1
    requires frame.left == 0 && frame.top == 0 && frame.right >= 0 && frame.bottom >= 0
    requires Enclosed(area, r)
    ensures Keeps(area, frame, Final(r, frame, h, v))
  {
    forall p | Inside(p, area) && Inside(p, ToRect(frame)) ensures Inside(p, ToRect(Final(r, frame, h, v))) {
      PointsEnclosed(area, r, p);
      FinalKeeps(r, frame, h, v, p);
    }
  }

  // The promises of the damage of a frame.
  ghost predicate Sound(frame: IRect, accumulated: Rect, damage: Rect, bs: seq<Readback>, res: Damage) {
    && In(res.frame, res.buffer) && In(res.buffer, frame)
    && Keeps(damage, frame, res.frame) && Keeps(accumulated, frame, res.buffer)
    && forall i :: 0 <= i < |bs| && Meets(bs[i], FrameDamage(damage, bs[..i])) ==>
         Keeps(ToRect(bs[i].paint), frame, res.frame) && Keeps(ToRect(bs[i].source), frame, res.frame)
  }

  lemma DamageIsSound(frame: IRect, accumulated: Rect, damage: Rect, bs: seq<Readback>, h: int, v: int)
    requires h > 1 || v > 1 ==> h >= 1 && v >= 1
    requires frame.left == 0 && frame.top == 0 && frame.right >= 0 && frame.bottom >= 0
    ensures Sound(frame, accumulated, damage, bs,
                  Damage(Final(FrameDamage(damage, bs), frame, h, v),
                         Final(BufferDamage(Union(accumulated, damage), damage, bs), frame, h, v)))
  {
    hide Final, Keeps;
    var start := Union(accumulated, damage);
    var f, g := FrameDamage(damage, bs), BufferDamage(start, damage, bs);
    UnionEncloses(accumulated, damage);
    FrameInBuffer(start, damage, bs);
    FinalMonotone(f, g, frame, h, v);
    FinalInFrame(g, frame, h, v);
    DamageGrows(start, damage, bs, 0);
    assert bs[..0] == [];
    KeepsEnclosed(damage, f, frame, h, v);
    KeepsEnclosed(accumulated, g, frame, h, v);
    forall i | 0 <= i < |bs| && Meets(bs[i], FrameDamage(damage, bs[..i]))
      ensures Keeps(ToRect(bs[i].paint), frame, Final(f, frame, h, v))
      ensures Keeps(ToRect(bs[i].source), frame, Final(f, frame, h, v))
    {
      MetReadbacksAreCovered(start, damage, bs, i);
      KeepsEnclosed(ToRect(bs[i].paint), f, frame, h, v);
      KeepsEnclosed(ToRect(bs[i].source), f, frame, h, v);
    }
  }

  lemma TextureOne(stack: seq<State>, i: nat)
    requires i < |stack|
    ensures var s := AllTextured(stack[..i]) + stack[i..];
            |s| == |stack| && s[i := Textured(s[i])] == AllTextured(stack[..i + 1]) + stack[i + 1..]
  {
  }

  // ---------- the object ----------

  class Tracker {
    const width: nat
    const height: nat
    const snap: Snap
    var rects: seq<Rect>
    var state: State
    var stateStack: seq<State>
    var filters: seq<Filter>
    var damage: Rect
    var readbacks: seq<Readback>

    ghost function View(): Context
      reads this
    {
      Context(rects, state, stateStack, filters, damage, readbacks)
    }

    ghost predicate Valid()
      reads this
    {
      Consistent(View())
    }

    constructor (width: nat, height: nat, snap: Snap)
      ensures Valid() && View() == Context([], FIRST, [], [], EMPTY, [])
      ensures this.width == width && this.height == height && this.snap == snap
    {
      this.width, this.height, this.snap := width, height, snap;
      rects, state, stateStack, filters, damage, readbacks := [], FIRST, [], [], EMPTY, [];
      new;
      CountLast([], FIRST);
    }

    method BeginSubtree()
      requires Valid()
      modifies this
      ensures Valid() && View() == Step(snap, old(View()), Begin)
    {
      StepConsistent(snap, View(), Begin);
      stateStack := stateStack + [state];
      var hadIntegralTransform := state.integral;
      state := state.(rectIndex := |rects|, hasFilter := false, hasTexture := false, integral := false);
      if hadIntegralTransform {
        state := state.(clip := Snapped(snap, state.clip));
      }
    }

    method EndSubtree()
      requires Valid() && |stateStack| > 0
      modifies this
      ensures Valid() && old(Allowed(View(), End)) && View() == Step(snap, old(View()), End)
    {
      FiltersToPop(View());
      StepConsistent(snap, View(), End);
      if state.hasFilter {
        filters := filters[..|filters| - 1];
      }
      state := stateStack[|stateStack| - 1];
      stateStack := stateStack[..|stateStack| - 1];
    }

    method PushTransform(m: Matrix)
      requires Valid()
      modifies this
      ensures Valid() && View() == Step(snap, old(View()), Event.PushTransform(m))
    {
      StepConsistent(snap, View(), Event.PushTransform(m));
      state := state.(clip := state.clip.(matrix := Compose(state.clip.matrix, m)));
    }

    method PushCullRect(r: Rect) returns (visible: bool)
      requires Valid()
      modifies this
      ensures Valid() && View() == Step(snap, old(View()), Event.PushCullRect(r))
      ensures visible <==> !state.clip.cull.IsEmpty()
    {
      StepConsistent(snap, View(), Event.PushCullRect(r));
      state := state.(clip := state.clip.(cull := Intersection(state.clip.cull, MapRect(state.clip.matrix, r))));
      visible := !state.clip.cull.IsEmpty();
    }

    method PushFilterBoundsAdjustment(f: Filter)
      requires Valid() && !state.hasFilter
      modifies this
      ensures Valid() && View() == Step(snap, old(View()), PushFilter(f))
    {
      StepConsistent(snap, View(), PushFilter(f));
      state := state.(hasFilter := true);
      filters := filters + [f];
    }

    method WillPaintWithIntegralTransform()
      requires Valid()
      modifies this
      ensures Valid() && View() == Step(snap, old(View()), WillSnap)
    {
      StepConsistent(snap, View(), WillSnap);
      state := state.(integral := true);
    }

    method AddDamage(region: seq<Rect>)
      requires Valid()
      modifies `damage
      ensures Valid() && damage == Damaged(old(damage), region)
    {
      var i := 0;
      assert region[..0] == [];
      while i < |region|
        invariant i <= |region| && damage == Damaged(old(damage), region[..i]) && Valid()
      {
        damage := Union(damage, region[i]);
        i := i + 1;
        assert region[..i][..i - 1] == region[..i - 1];
      }
      assert region[..i] == region;
    }

    // The region that the subtree painted in the last frame is damage, and so is all it paints now.
    method MarkSubtreeDirty(previous: seq<Rect>)
      requires Valid() && !state.dirty
      modifies this
      ensures Valid() && View() == Step(snap, old(View()), MarkDirty(previous))
    {
      StepConsistent(snap, View(), MarkDirty(previous));
      AddDamage(previous);
      state := state.(dirty := true);
    }

    method AddLayerBounds(r: Rect)
      requires Valid()
      modifies this
      ensures Valid() && View() == Step(snap, old(View()), AddBounds(r))
    {
      StepConsistent(snap, View(), AddBounds(r));
      var transformed := ApplyFilterBoundsAdjustment(MapRect(state.clip.matrix, r));
      if Intersects(transformed, state.clip.cull) {
        if state.integral {
          var snapped := Snapped(snap, state.clip);
          transformed := ApplyFilterBoundsAdjustment(MapRect(snapped.matrix, r));
        }
        rects := rects + [transformed];
        if state.dirty {
          damage := Union(damage, transformed);
        }
      }
    }

    // Applies the filters of the open subtrees, innermost first.
    method ApplyFilterBoundsAdjustment(rect: Rect) returns (r: Rect)
      ensures r == Filtered(filters, rect)
    {
      r := rect;
      var i := |filters|;
      assert filters[..i] == filters;
      while i > 0
        invariant 0 <= i <= |filters| && Filtered(filters[..i], r) == Filtered(filters, rect)
      {
        assert filters[..i][..i - 1] == filters[..i - 1];
        i := i - 1;
        r := filters[i](r);
      }
    }

    method MarkSubtreeHasTextureLayer()
      requires Valid()
      modifies this
      ensures Valid() && View() == Step(snap, old(View()), MarkTexture)
    {
      hide Consistent;
      StepConsistent(snap, View(), MarkTexture);
      var i := 0;
      while i < |stateStack|
        invariant i <= |old(stateStack)|
        invariant stateStack == AllTextured(old(stateStack)[..i]) + old(stateStack)[i..]
        modifies `stateStack
      {
        TextureOne(old(stateStack), i);
        stateStack := stateStack[i := stateStack[i].(hasTexture := true)];
        i := i + 1;
      }
      assert old(stateStack)[..i] == old(stateStack);
      state := state.(hasTexture := true);
      assert View() == Step(snap, old(View()), MarkTexture);
    }

    method AddExistingPaintRegion(region: seq<Rect>)
      requires Valid() && !state.dirty
      modifies this
      ensures Valid() && View() == Step(snap, old(View()), AddExisting(region))
    {
      StepConsistent(snap, View(), AddExisting(region));
      rects := rects + region;
    }

    // An empty rectangle keeps the readback's place in the region of its subtree.
    method AddReadbackRegion(paint: IRect, source: IRect)
      requires Valid()
      modifies this
      ensures Valid() && View() == Step(snap, old(View()), AddReadback(paint, source))
    {
      StepConsistent(snap, View(), AddReadback(paint, source));
      var readback := Readback(|rects|, paint, source);
      rects := rects + [EMPTY];
      readbacks := readbacks + [readback];
    }

    method CurrentSubtreeRegion() returns (region: Region)
      requires Valid()
      ensures region == CurrentRegion(View())
    {
      var hasReadback := exists i :: 0 <= i < |readbacks| && readbacks[i].position >= state.rectIndex;
      region := Region(state.rectIndex, |rects|, hasReadback, state.hasTexture);
    }

    // The sides move out to the grid, the far ones not beyond the frame.
    method AlignRect(rect: IRect, h: int, v: int) returns (r: IRect)
      requires h > 0 && v > 0 && 0 <= rect.left && 0 <= rect.top && 0 <= rect.right && 0 <= rect.bottom
      ensures r == Aligned(rect, h, v, width, height)
    {
      var top, left, right, bottom := rect.top, rect.left, rect.right, rect.bottom;
      if top % v != 0 {
        top := top - top % v;
      }
      if left % h != 0 {
        left := left - left % h;
      }
      if right % h != 0 {
        right := right + (h - right % h);
      }
      if bottom % v != 0 {
        bottom := bottom + (v - bottom % v);
      }
      right := IMin(right, width);
      bottom := IMin(bottom, height);
      r := IRect(left, top, right, bottom);
    }

    method ComputeDamage(accumulated: IRect, h: int, v: int) returns (res: Damage)
      requires h > 1 || v > 1 ==> h >= 1 && v >= 1
      ensures res == Damage(Final(FrameDamage(damage, readbacks), IRect(0, 0, width, height), h, v),
                            Final(BufferDamage(Union(ToRect(accumulated), damage), damage, readbacks),
                                  IRect(0, 0, width, height), h, v))
      ensures Sound(IRect(0, 0, width, height), ToRect(accumulated), damage, readbacks, res)
    {
      hide Sound;
      var bufferDamage := Union(ToRect(accumulated), damage);
      var frameDamage := damage;
      ghost var start := bufferDamage;
      var i := 0;
      assert readbacks[..0] == [];
      while i < |readbacks|
        invariant i <= |readbacks|
        invariant frameDamage == FrameDamage(damage, readbacks[..i])
        invariant bufferDamage == BufferDamage(start, damage, readbacks[..i])
      {
        var paint, source := ToRect(readbacks[i].paint), ToRect(readbacks[i].source);
        assert readbacks[..i + 1][..i] == readbacks[..i];
        if Intersects(paint, frameDamage) || Intersects(source, frameDamage) {
          frameDamage := Union(Union(frameDamage, source), paint);
          bufferDamage := Union(Union(bufferDamage, source), paint);
        }
        i := i + 1;
      }
      assert readbacks[..i] == readbacks;
      var frameClip := IRect(0, 0, width, height);
      res := Damage(IntersectionOrEmpty(RoundOut(frameDamage), frameClip),
                    IntersectionOrEmpty(RoundOut(bufferDamage), frameClip));
      if h > 1 || v > 1 {
        var buffer := AlignRect(res.buffer, h, v);
        var frame := AlignRect(res.frame, h, v);
        res := Damage(frame, buffer);
      }
      DamageIsSound(frameClip, ToRect(accumulated), damage, readbacks, h, v);
    }
  }
}
