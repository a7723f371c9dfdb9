/** What the damage tracker's areas are, told from what is pushed: each open subtree with the transforms that
    lead to it, the rectangles that clip it and the filters over it, and the points that a layer paints. */
module DamageScenes {
  import opened Geometry
  import opened DamageRects
  import opened DiffContext

  // ---------- points ----------

  function Move(m: Matrix, p: Point): Point { Point(Apply(m.x, p.x), Apply(m.y, p.y)) }

  // The transforms that were pushed, applied to a point: the last one first.
  function MoveAll(path: seq<Matrix>, p: Point): Point {
    if path == [] then p else MoveAll(path[..|path| - 1], Move(path[|path| - 1], p))
  }

  // The point is in the rectangle, its sides included.
  predicate Touches(p: Point, r: Rect) { r.x.lo <= p.x <= r.x.hi && r.y.lo <= p.y <= r.y.hi }

  // The points of x are the images of those of r.
  ghost predicate IsImage(path: seq<Matrix>, r: Rect, x: Rect) {
    forall p :: Touches(p, x) <==> exists q :: Touches(q, r) && p == MoveAll(path, q)
  }

  function Product(path: seq<Matrix>): Matrix {
    if path == [] then IDENTITY else Compose(Product(path[..|path| - 1]), path[|path| - 1])
  }

  lemma {:induction false} ProductMoves(path: seq<Matrix>, p: Point)
    ensures MoveAll(path, p) == Move(Product(path), p)
  {
    hide Apply, ComposeAxis;
    if path == [] {
      assert Move(IDENTITY, p) == p by { IdentityMoves(p); }
    } else {
      var outer, m := Product(path[..|path| - 1]), path[|path| - 1];
      ProductMoves(path[..|path| - 1], Move(m, p));
      ApplyCompose(outer.x, m.x, p.x);
      ApplyCompose(outer.y, m.y, p.y);
    }
  }

  lemma IdentityMoves(p: Point)
    ensures Move(IDENTITY, p) == p
  {
  }

  lemma SpanImage(a: Axis, s: Span, v: real)
    requires !s.Empty()
    ensures var t := MapSpan(a, s); t.lo <= v <= t.hi <==> exists u :: s.lo <= u <= s.hi && v == Apply(a, u)
  {
    var t := MapSpan(a, s);
    if u :| s.lo <= u <= s.hi && v == Apply(a, u) {
      ApplyOrder(a, s.lo, u);
      ApplyOrder(a, u, s.hi);
    }
    if t.lo <= v <= t.hi {
      ApplyOrder(a, s.lo, s.hi);
      if a.scale == 0.0 {
        assert v == Apply(a, s.lo);
      } else {
        var u := SourceOf(a, v);
        SourceWithin(a, s, u);
      }
    }
  }

  lemma SourceOf(a: Axis, v: real) returns (u: real)
    requires a.scale != 0.0
    ensures Apply(a, u) == v
  {
    u := (v - a.shift) / a.scale;
    assert a.scale * ((v - a.shift) / a.scale) == v - a.shift;
  }

  lemma SourceWithin(a: Axis, s: Span, u: real)
    requires !s.Empty() && a.scale != 0.0
    requires MapSpan(a, s).lo <= Apply(a, u) <= MapSpan(a, s).hi
    ensures s.lo <= u <= s.hi
  {
    if u < s.lo {
      ApplyOrder(a, u, s.lo);
      ApplyOrder(a, s.lo, s.hi);
    } else if s.hi < u {
      ApplyOrder(a, s.hi, u);
      ApplyOrder(a, s.lo, s.hi);
    }
  }

  // A rectangle is mapped to exactly the images of its points.
  lemma MapIsImage(path: seq<Matrix>, r: Rect)
    requires !r.IsEmpty()
    ensures IsImage(path, r, MapRect(Product(path), r))
  {
    hide MapSpan, Apply, Product, MoveAll;
    var m := Product(path);
    var x := MapRect(m, r);
    forall p ensures Touches(p, x) <==> exists q :: Touches(q, r) && p == MoveAll(path, q) {
      SpanImage(m.x, r.x, p.x);
      SpanImage(m.y, r.y, p.y);
      if Touches(p, x) {
        var u :| r.x.lo <= u <= r.x.hi && p.x == Apply(m.x, u);
        var v :| r.y.lo <= v <= r.y.hi && p.y == Apply(m.y, v);
        ProductMoves(path, Point(u, v));
        assert Touches(Point(u, v), r) && p == MoveAll(path, Point(u, v));
      }
      if q :| Touches(q, r) && p == MoveAll(path, q) { ProductMoves(path, q); }
    }
  }

  // There is only one such rectangle.
  lemma OneImage(path: seq<Matrix>, r: Rect, x: Rect, y: Rect)
    requires !r.IsEmpty() && IsImage(path, r, x) && IsImage(path, r, y)
    ensures x == y
  {
    hide MoveAll;
    var corner := Point(r.x.lo, r.y.lo);
    assert Touches(corner, r) && Touches(MoveAll(path, corner), x);
    assert forall p :: Touches(p, x) <==> Touches(p, y);
    SameTouches(x, y, MoveAll(path, corner));
  }

  lemma SameTouches(x: Rect, y: Rect, p: Point)
    requires Touches(p, x) && forall q :: Touches(q, x) <==> Touches(q, y)
    ensures x == y
  {
    assert Touches(Point(x.x.lo, x.y.lo), y) && Touches(Point(x.x.hi, x.y.hi), y);
    assert Touches(Point(y.x.lo, y.y.lo), x) && Touches(Point(y.x.hi, y.y.hi), x);
  }

  // ---------- what is pushed ----------

  // An open subtree: the transforms, device clips and filters that apply in it, whether the layers in it snap,
  // and whether all that it paints is damage.
  datatype Scope = Scope(path: seq<Matrix>, culls: seq<Rect>, filters: seq<Filter>, snaps: bool, dirty: bool)

  // The open subtrees, all that was appended, and all that was made damage.
  datatype Scene = Scene(scopes: seq<Scope>, painted: seq<Rect>, causes: seq<Rect>, readbacks: seq<Readback>) {
    predicate Valid() { scopes != [] }

    function Top(): Scope
      requires Valid()
    {
      scopes[|scopes| - 1]
    }
  }

  const OPENING: Scene := Scene([Scope([], [], [], false, false)], [], [], [])

  // The filter pushed first is applied last.
  function FilterAll(filters: seq<Filter>, r: Rect): Rect
    decreases |filters|
  {
    if filters == [] then r else filters[0](FilterAll(filters[1..], r))
  }

  // The snapped transform replaces the ones that led to it, if there is one.
  function SnapPath(snap: Snap, path: seq<Matrix>): seq<Matrix> {
    var m := snap(Product(path));
    if m.Some? then [m.value] else path
  }

  // Some point of the rectangle is in all of the clips.
  ghost predicate Visible(culls: seq<Rect>, r: Rect) {
    exists p :: Inside(p, r) && Inside(p, GIANT) && forall i :: 0 <= i < |culls| ==> Inside(p, culls[i])
  }

  ghost function Area(snap: Snap, s: Scope, r: Rect): Rect {
    FilterAll(s.filters, MapRect(Product(if s.snaps then SnapPath(snap, s.path) else s.path), r))
  }

  ghost function SetTop(s: Scene, t: Scope): Scene
    requires s.Valid()
  {
    s.(scopes := s.scopes[|s.scopes| - 1 := t])
  }

  ghost function SceneStep(snap: Snap, s: Scene, e: Event): (s': Scene)
    requires s.Valid()
    ensures s'.Valid()
  {
    var t := s.Top();
    match e
    case Begin =>
      s.(scopes := s.scopes + [t.(path := if t.snaps then SnapPath(snap, t.path) else t.path, snaps := false)])
    case End => if |s.scopes| > 1 then s.(scopes := s.scopes[..|s.scopes| - 1]) else s
    case PushTransform(m) => SetTop(s, t.(path := t.path + [m]))
    case PushCullRect(r) => SetTop(s, t.(culls := t.culls + [MapRect(Product(t.path), r)]))
    case PushFilter(f) => SetTop(s, t.(filters := t.filters + [f]))
    case WillSnap => SetTop(s, t.(snaps := true))
    case MarkDirty(previous) => SetTop(s, t.(dirty := true)).(causes := s.causes + previous)
    case MarkTexture => s
    case AddBounds(r) =>
      if !Visible(t.culls, FilterAll(t.filters, MapRect(Product(t.path), r))) then s
      else s.(painted := s.painted + [Area(snap, t, r)],
              causes := if t.dirty then s.causes + [Area(snap, t, r)] else s.causes)
    case AddExisting(region) => s.(painted := s.painted + region)
    case AddReadback(paint, source) =>
      s.(painted := s.painted + [EMPTY], readbacks := s.readbacks + [Readback(|s.painted|, paint, source)])
  }

  ghost function SceneAfter(snap: Snap, s: Scene, es: seq<Event>): (s': Scene)
    requires s.Valid()
    ensures s'.Valid()
    decreases |es|
  {
    if es == [] then s else SceneAfter(snap, SceneStep(snap, s, es[0]), es[1..])
  }

  // ---------- the tracker follows ----------

  // The clip of a state has exactly the points that are in all of the clips.
  ghost predicate Clips(cull: Rect, culls: seq<Rect>) {
    forall p :: Inside(p, cull) <==> Inside(p, GIANT) && forall i :: 0 <= i < |culls| ==> Inside(p, culls[i])
  }

  ghost predicate StateFollows(s: State, t: Scope) {
    && s.clip.matrix == Product(t.path) && Clips(s.clip.cull, t.culls) && s.integral == t.snaps && s.dirty == t.dirty
  }

  // The damage lies in a rectangle exactly if all that caused it does.
  ghost predicate IsBox(damage: Rect, causes: seq<Rect>) {
    forall e :: Enclosed(damage, e) <==> forall i :: 0 <= i < |causes| ==> Enclosed(causes[i], e)
  }

  function States(c: Context): seq<State> { c.stack + [c.state] }

  ghost predicate Follows(c: Context, s: Scene) {
    && Consistent(c) && |s.scopes| == |c.stack| + 1 && c.rects == s.painted && c.readbacks == s.readbacks
    && (forall i :: 0 <= i < |s.scopes| ==> StateFollows(States(c)[i], s.scopes[i]))
    && (forall i :: 0 <= i < |s.scopes| ==> FiltersFollow(c, s.scopes[i].filters, i))
    && IsBox(c.damage, s.causes)
  }

  // The filters over a subtree are those of the flagged states up to it.
  ghost predicate FiltersFollow(c: Context, filters: seq<Filter>, i: nat)
    requires i <= |c.stack|
  {
    filters <= c.filters && |filters| == FilterCount(States(c)[..i + 1])
  }

  lemma {:induction false} FilterAllLast(filters: seq<Filter>, r: Rect)
    requires filters != []
    ensures FilterAll(filters, r) == FilterAll(filters[..|filters| - 1], filters[|filters| - 1](r))
    decreases |filters|
  {
    if |filters| > 1 {
      FilterAllLast(filters[1..], r);
      assert filters[1..][..|filters| - 2] == filters[..|filters| - 1][1..];
    }
  }

  lemma {:induction false} FiltersAlike(filters: seq<Filter>, r: Rect)
    ensures Filtered(filters, r) == FilterAll(filters, r)
    decreases |filters|
  {
    if filters != [] {
      FilterAllLast(filters, r);
      FiltersAlike(filters[..|filters| - 1], filters[|filters| - 1](r));
    }
  }

  lemma ClipsVisible(cull: Rect, culls: seq<Rect>, r: Rect)
    requires Clips(cull, culls)
    ensures Intersects(r, cull) <==> Visible(culls, r)
  {
    MeetsPoint(r, cull);
  }

  lemma ClipMore(cull: Rect, culls: seq<Rect>, r: Rect)
    requires Clips(cull, culls)
    ensures Clips(Intersection(cull, r), culls + [r])
  {
    hide Intersection;
    var more := culls + [r];
    assert more[|culls|] == r && forall i :: 0 <= i < |culls| ==> more[i] == culls[i];
    forall p ensures Inside(p, Intersection(cull, r)) <==>
                     Inside(p, GIANT) && forall i :: 0 <= i < |more| ==> Inside(p, more[i]) {
      InBoth(cull, r, p);
    }
  }

  lemma InBoth(a: Rect, b: Rect, p: Point)
    ensures Inside(p, Intersection(a, b)) <==> Inside(p, a) && Inside(p, b)
  {
  }

  lemma BoxMore(damage: Rect, causes: seq<Rect>, r: Rect)
    requires IsBox(damage, causes)
    ensures IsBox(Union(damage, r), causes + [r])
  {
    var more := causes + [r];
    forall e ensures Enclosed(Union(damage, r), e) <==> forall i :: 0 <= i < |more| ==> Enclosed(more[i], e) {
      UnionWithin(damage, r, e);
      assert more[|causes|] == r && forall i :: 0 <= i < |causes| ==> more[i] == causes[i];
    }
  }

  lemma {:induction false} BoxAll(damage: Rect, causes: seq<Rect>, rs: seq<Rect>)
    requires IsBox(damage, causes)
    ensures IsBox(Damaged(damage, rs), causes + rs)
  {
    hide IsBox, Union;
    if rs == [] {
      assert causes + [] == causes;
    } else {
      var front, last := rs[..|rs| - 1], rs[|rs| - 1];
      BoxAll(damage, causes, front);
      BoxMore(Damaged(damage, front), causes + front, last);
      assert causes + front + [last] == causes + rs;
    }
  }

  // ---------- one event ----------

  lemma StatesTextured(c: Context, i: nat)
    requires i <= |c.stack|
    ensures var c' := c.(state := Textured(c.state), stack := AllTextured(c.stack));
            && |States(c')| == |States(c)|
            && FilterCount(States(c')[..i + 1]) == FilterCount(States(c)[..i + 1])
            && forall t :: StateFollows(States(c)[i], t) ==> StateFollows(States(c')[i], t)
  {
    var c' := c.(state := Textured(c.state), stack := AllTextured(c.stack));
    assert States(c') == AllTextured(States(c));
    CountTextured(States(c)[..i + 1]);
    assert AllTextured(States(c))[..i + 1] == AllTextured(States(c)[..i + 1]);
  }

  // A change to the current state and the current subtree alone.
  lemma TopFollows(c: Context, s: Scene, state: State, t: Scope, filters: seq<Filter>)
    requires s.Valid() && Follows(c, s) && StateFollows(state, t) && t.filters == filters && c.filters <= filters
    requires |filters| == FilterCount(c.stack + [state])
    ensures var c', s' := c.(state := state, filters := filters), SetTop(s, t);
            && |s'.scopes| == |s.scopes|
            && (forall i :: 0 <= i < |s'.scopes| ==> StateFollows(States(c')[i], s'.scopes[i]))
            && (forall i :: 0 <= i < |s'.scopes| ==> FiltersFollow(c', s'.scopes[i].filters, i))
  {
    hide StateFollows, FilterCount, Consistent, IsBox;
    var c', n := c.(state := state, filters := filters), |c.stack|;
    forall i | 0 <= i <= n ensures FiltersFollow(c', SetTop(s, t).scopes[i].filters, i) {
      if i < n {
        assert FiltersFollow(c, s.scopes[i].filters, i);
        assert States(c')[..i + 1] == States(c)[..i + 1];
      } else {
        assert States(c')[..n + 1] == States(c');
      }
    }
  }

  // All filters are over the current subtree.
  lemma TopFilters(c: Context, s: Scene)
    requires s.Valid() && Follows(c, s)
    ensures s.Top().filters == c.filters && StateFollows(c.state, s.Top())
  {
    var n := |c.stack|;
    assert FiltersFollow(c, s.scopes[n].filters, n);
    assert States(c)[..n + 1] == States(c);
    assert StateFollows(States(c)[n], s.scopes[n]);
  }

  lemma BeginFollows(snap: Snap, c: Context, s: Scene)
    requires s.Valid() && Follows(c, s)
    ensures Follows(Step(snap, c, Begin), SceneStep(snap, s, Begin))
  {
    hide FilterCount, Consistent, IsBox, Clips, Product;
    var c', s', n := Step(snap, c, Begin), SceneStep(snap, s, Begin), |c.stack|;
    StepConsistent(snap, c, Begin);
    TopFilters(c, s);
    SnapFollows(snap, c.state, s.Top());
    assert forall i :: 0 <= i <= n ==> States(c')[i] == States(c)[i];
    CountLast(States(c), c'.state);
    forall i | 0 <= i <= n + 1 ensures FiltersFollow(c', s'.scopes[i].filters, i) {
      if i <= n {
        assert FiltersFollow(c, s.scopes[i].filters, i);
        assert States(c')[..i + 1] == States(c)[..i + 1];
      } else {
        assert FiltersFollow(c, s.scopes[n].filters, n);
        assert States(c)[..n + 1] == States(c) && States(c')[..n + 2] == States(c) + [c'.state];
      }
    }
  }

  lemma SnapFollows(snap: Snap, s: State, t: Scope)
    requires StateFollows(s, t)
    ensures Snapped(snap, s.clip).matrix == Product(SnapPath(snap, t.path)) && Snapped(snap, s.clip).cull == s.clip.cull
  {
    if snap(s.clip.matrix).Some? { OneProduct(snap(s.clip.matrix).value); }
  }

  lemma OneProduct(m: Matrix)
    ensures Product([m]) == m
  {
    assert [m][..0] == [];
    ComposeIdentity(m);
  }

  lemma MoreProduct(path: seq<Matrix>, m: Matrix)
    ensures Product(path + [m]) == Compose(Product(path), m)
  {
    assert (path + [m])[..|path|] == path;
  }

  lemma EndFollows(snap: Snap, c: Context, s: Scene)
    requires s.Valid() && Follows(c, s) && Allowed(c, End)
    ensures Follows(Step(snap, c, End), SceneStep(snap, s, End))
  {
    hide StateFollows, FilterCount, Consistent, IsBox;
    var c', s', n := Step(snap, c, End), SceneStep(snap, s, End), |c.stack|;
    StepConsistent(snap, c, End);
    assert States(c) == States(c') + [c.state];
    CountLast(States(c'), c.state);
    assert |c.filters| == FilterCount(States(c)) by { ConsistentCount(c); }
    assert forall i :: 0 <= i < n ==> States(c')[i] == States(c)[i];
    forall i | 0 <= i < n ensures FiltersFollow(c', s'.scopes[i].filters, i) {
      assert FiltersFollow(c, s.scopes[i].filters, i);
      assert States(c')[..i + 1] == States(c)[..i + 1];
      CountPrefix(States(c'), i + 1);
    }
  }

  lemma ConsistentCount(c: Context)
    requires Consistent(c)
    ensures |c.filters| == FilterCount(States(c))
  {
  }

  lemma CountPrefix(stack: seq<State>, n: nat)
    requires n <= |stack|
    ensures FilterCount(stack[..n]) <= FilterCount(stack)
  {
    assert stack == stack[..n] + stack[n..];
    CountConcat(stack[..n], stack[n..]);
  }

  lemma PushFollows(snap: Snap, c: Context, s: Scene, e: Event)
    requires s.Valid() && Follows(c, s) && Allowed(c, e)
    requires e.PushTransform? || e.PushCullRect? || e.PushFilter? || e.WillSnap? || e.MarkDirty?
    ensures Follows(Step(snap, c, e), SceneStep(snap, s, e))
  {
    hide FilterCount, Consistent, IsBox, Clips, Product, MapRect, Intersection, Damaged;
    var c', s', t := Step(snap, c, e), SceneStep(snap, s, e), s.Top();
    StepConsistent(snap, c, e);
    TopFilters(c, s);
    CountLast(c.stack, c'.state);
    CountLast(c.stack, c.state);
    ConsistentCount(c);
    match e {
      case PushTransform(m) => MoreProduct(t.path, m);
      case PushCullRect(r) => ClipMore(c.state.clip.cull, t.culls, MapRect(c.state.clip.matrix, r));
      case MarkDirty(previous) => BoxAll(c.damage, s.causes, previous);
      case _ =>
    }
    TopFollows(c, s, c'.state, s'.Top(), c'.filters);
  }

  lemma TextureFollows(snap: Snap, c: Context, s: Scene)
    requires s.Valid() && Follows(c, s)
    ensures Follows(Step(snap, c, MarkTexture), s)
  {
    hide FilterCount, Consistent, IsBox, StateFollows, Textured;
    StepConsistent(snap, c, MarkTexture);
    var c' := Step(snap, c, MarkTexture);
    forall i | 0 <= i <= |c.stack|
      ensures FiltersFollow(c', s.scopes[i].filters, i) && StateFollows(States(c')[i], s.scopes[i])
    {
      StatesTextured(c, i);
      assert FiltersFollow(c, s.scopes[i].filters, i) && StateFollows(States(c)[i], s.scopes[i]);
    }
  }

  lemma AppendFollows(snap: Snap, c: Context, s: Scene, e: Event)
    requires s.Valid() && Follows(c, s) && Allowed(c, e) && (e.AddBounds? || e.AddExisting? || e.AddReadback?)
    ensures Follows(Step(snap, c, e), SceneStep(snap, s, e))
  {
    hide FilterCount, Consistent, IsBox, Clips, Product, MapRect, Filtered, FilterAll, Visible, Union;
    var c', s' := Step(snap, c, e), SceneStep(snap, s, e);
    StepConsistent(snap, c, e);
    assert States(c') == States(c);
    assert forall i :: 0 <= i < |s.scopes| && FiltersFollow(c, s.scopes[i].filters, i) ==>
        FiltersFollow(c', s.scopes[i].filters, i);
    if e.AddBounds? {
      PaintedIsArea(snap, c, s, e.r);
      BoxMore(c.damage, s.causes, Area(snap, s.Top(), e.r));
    }
  }

  lemma PaintedIsArea(snap: Snap, c: Context, s: Scene, r: Rect)
    requires s.Valid() && Follows(c, s)
    ensures var t := s.Top(); var painted := Painted(snap, c, r);
            && (painted.Some? <==> Visible(t.culls, FilterAll(t.filters, MapRect(Product(t.path), r))))
            && (painted.Some? ==> painted.value == Area(snap, t, r))
  {
    hide Consistent, IsBox, Clips, Product, MapRect, Filtered, FilterAll, Visible, Intersects;
    var t := s.Top();
    TopFilters(c, s);
    SnapFollows(snap, c.state, t);
    var x := MapRect(Product(t.path), r);
    FiltersAlike(t.filters, x);
    FiltersAlike(t.filters, MapRect(Product(SnapPath(snap, t.path)), r));
    ClipsVisible(c.state.clip.cull, t.culls, FilterAll(t.filters, x));
  }

  lemma StepFollows(snap: Snap, c: Context, s: Scene, e: Event)
    requires s.Valid() && Follows(c, s) && Allowed(c, e)
    ensures Follows(Step(snap, c, e), SceneStep(snap, s, e))
  {
    hide Follows, Step, SceneStep;
    match e {
      case Begin => BeginFollows(snap, c, s);
      case End => EndFollows(snap, c, s);
      case MarkTexture =>
        TextureFollows(snap, c, s);
        assert SceneStep(snap, s, e) == s by { SceneTexture(snap, s); }
      case AddBounds(_) => AppendFollows(snap, c, s, e);
      case AddExisting(_) => AppendFollows(snap, c, s, e);
      case AddReadback(_, _) => AppendFollows(snap, c, s, e);
      case _ => PushFollows(snap, c, s, e);
    }
  }

  lemma SceneTexture(snap: Snap, s: Scene)
    requires s.Valid()
    ensures SceneStep(snap, s, MarkTexture) == s
  {
  }

  // ---------- whole runs ----------

  const NEW_CONTEXT: Context := Context([], FIRST, [], [], EMPTY, [])

  lemma NewFollows()
    ensures Follows(NEW_CONTEXT, OPENING)
  {
    CountLast([], FIRST);
    var c := NEW_CONTEXT;
    assert States(c) == [FIRST] && States(c)[..1] == [FIRST];
  }

  lemma {:induction false} RunFollows(snap: Snap, c: Context, s: Scene, es: seq<Event>)
    requires s.Valid() && Follows(c, s) && AllowedRun(snap, c, es)
    ensures Follows(Run(snap, c, es), SceneAfter(snap, s, es))
    decreases |es|
  {
    hide Follows, Step, SceneStep, Allowed;
    if es != [] {
      StepFollows(snap, c, s, es[0]);
      RunFollows(snap, Step(snap, c, es[0]), SceneStep(snap, s, es[0]), es[1..]);
    }
  }

  // Over every run: all that the tracker appended is what the layers paint, in order, with the retained regions
  // and the readbacks between them, and its damage lies in a rectangle exactly if all that was painted in dirty
  // subtrees and all regions of theirs from the last frame do.
  lemma RunsFollowScenes(snap: Snap, es: seq<Event>)
    requires AllowedRun(snap, NEW_CONTEXT, es)
    ensures var c, s := Run(snap, NEW_CONTEXT, es), SceneAfter(snap, OPENING, es);
            c.rects == s.painted && c.readbacks == s.readbacks && IsBox(c.damage, s.causes)
  {
    hide Run, SceneAfter, IsBox;
    NewFollows();
    RunFollows(snap, NEW_CONTEXT, OPENING, es);
  }

  // In every run a layer appends nothing if, without snapping, no point of its filtered image is in all of the
  // clips, and else one rectangle: what the filters make of the image of its bounds under the transforms that
  // were pushed, or under what they snap to.
  lemma LayersPaintTheirImages(snap: Snap, es: seq<Event>, r: Rect, x: Rect, y: Rect)
    requires AllowedRun(snap, NEW_CONTEXT, es) && !r.IsEmpty()
    requires var t := SceneAfter(snap, OPENING, es).Top();
             IsImage(t.path, r, x) && IsImage(if t.snaps then SnapPath(snap, t.path) else t.path, r, y)
    ensures var c, t := Run(snap, NEW_CONTEXT, es), SceneAfter(snap, OPENING, es).Top();
            Step(snap, c, AddBounds(r)).rects ==
            c.rects + if Visible(t.culls, FilterAll(t.filters, x)) then [FilterAll(t.filters, y)] else []
  {
    hide Run, SceneAfter, IsImage, Follows, Painted, Visible, FilterAll, SnapPath, MapRect;
    var c, s := Run(snap, NEW_CONTEXT, es), SceneAfter(snap, OPENING, es);
    var t := s.Top();
    var used := if t.snaps then SnapPath(snap, t.path) else t.path;
    NewFollows();
    RunFollows(snap, NEW_CONTEXT, OPENING, es);
    PaintedIsArea(snap, c, s, r);
    MapIsImage(t.path, r);
    MapIsImage(used, r);
    OneImage(t.path, r, x, MapRect(Product(t.path), r));
    OneImage(used, r, y, MapRect(Product(used), r));
    assert c.rects + [] == c.rects;
  }

  // The region of a retained layer is the one that it had: appending it alone to a new subtree gives it back.
  lemma RetainedRegionIsKept(snap: Snap, c: Context, region: seq<Rect>)
    requires Allowed(Step(snap, c, Begin), AddExisting(region))
    ensures var c' := Step(snap, Step(snap, c, Begin), AddExisting(region));
            && CurrentRegion(c').start <= CurrentRegion(c').end <= |c'.rects|
            && c'.rects[CurrentRegion(c').start..CurrentRegion(c').end] == region
  {
  }
}
