/** The damage tracker: the areas that the layers of a frame paint, subtree by subtree, and the
    damage that follows from what changed since the last frame. */
module DiffContext {
  import opened Geometry
  import opened DamageRects

  // ---------- values ----------

  // The transform and the device clip.
  datatype MatrixClip = MatrixClip(matrix: Matrix, cull: Rect)

  // Where a filter paints and where it samples from, and the entry of the rectangle list that is its place.
  datatype Readback = Readback(position: nat, paint: IRect, source: IRect)

  datatype State = State(
    dirty: bool, rectIndex: nat, integral: bool, clip: MatrixClip, hasFilter: bool, hasTexture: bool)

  // A slice of the rectangle list, which only grows.
  datatype Region = Region(start: nat, end: nat, hasReadback: bool, hasTexture: bool)

  type Filter = Rect -> Rect

  // How layers snap to whole pixels: none when the matrix cannot be snapped.
  type Snap = Matrix -> Option<Matrix>

  datatype Context = Context(
    rects: seq<Rect>, state: State, stack: seq<State>, filters: seq<Filter>, damage: Rect, readbacks: seq<Readback>)

  datatype Event =
    | Begin
    | End
    | PushTransform(m: Matrix)
    | PushCullRect(r: Rect)
    | PushFilter(f: Filter)
    | WillSnap
    | MarkDirty(previous: seq<Rect>)
    | MarkTexture
    | AddBounds(r: Rect)
    | AddExisting(region: seq<Rect>)
    | AddReadback(paint: IRect, source: IRect)

  const GIANT: Rect := LTRB(-1000000000.0, -1000000000.0, 1000000000.0, 1000000000.0)

  const FIRST: State := State(false, 0, false, MatrixClip(IDENTITY, GIANT), false, false)

  function Snapped(snap: Snap, c: MatrixClip): MatrixClip {
    var m := snap(c.matrix);
    if m.Some? then c.(matrix := m.value) else c
  }

  // Innermost filter first.
  function Filtered(filters: seq<Filter>, r: Rect): Rect {
    if filters == [] then r else Filtered(filters[..|filters| - 1], filters[|filters| - 1](r))
  }

  function Damaged(damage: Rect, rects: seq<Rect>): Rect {
    if rects == [] then damage else Union(Damaged(damage, rects[..|rects| - 1]), rects[|rects| - 1])
  }

  // The area that a layer with these bounds paints; none when the clip hides it.
  function Painted(snap: Snap, c: Context, r: Rect): Option<Rect> {
    var clip := c.state.clip;
    if !Intersects(Filtered(c.filters, MapRect(clip.matrix, r)), clip.cull) then None
    else
      var used := if c.state.integral then Snapped(snap, clip) else clip;
      Some(Filtered(c.filters, MapRect(used.matrix, r)))
  }

  function BeginState(snap: Snap, s: State, index: nat): State {
    s.(rectIndex := index, hasFilter := false, hasTexture := false, integral := false,
       clip := if s.integral then Snapped(snap, s.clip) else s.clip)
  }

  function Textured(s: State): State { s.(hasTexture := true) }

  function AllTextured(stack: seq<State>): seq<State> {
    seq(|stack|, i requires 0 <= i < |stack| => Textured(stack[i]))
  }

  // What the program requires of its callers.
  predicate Allowed(c: Context, e: Event) {
    match e
    case End => |c.stack| > 0 && (c.state.hasFilter ==> |c.filters| > 0)
    case PushFilter(_) => !c.state.hasFilter
    case MarkDirty(_) => !c.state.dirty
    case AddExisting(_) => !c.state.dirty
    case _ => true
  }

  function Step(snap: Snap, c: Context, e: Event): Context
    requires Allowed(c, e)
  {
    var s := c.state;
    match e
    case Begin => c.(stack := c.stack + [s], state := BeginState(snap, s, |c.rects|))
    case End =>
      c.(filters := if s.hasFilter then c.filters[..|c.filters| - 1] else c.filters,
         state := c.stack[|c.stack| - 1], stack := c.stack[..|c.stack| - 1])
    case PushTransform(m) => c.(state := s.(clip := s.clip.(matrix := Compose(s.clip.matrix, m))))
    case PushCullRect(r) =>
      c.(state := s.(clip := s.clip.(cull := Intersection(s.clip.cull, MapRect(s.clip.matrix, r)))))
    case PushFilter(f) => c.(state := s.(hasFilter := true), filters := c.filters + [f])
    case WillSnap => c.(state := s.(integral := true))
    case MarkDirty(previous) => c.(state := s.(dirty := true), damage := Damaged(c.damage, previous))
    case MarkTexture => c.(state := Textured(s), stack := AllTextured(c.stack))
    case AddBounds(r) =>
      var painted := Painted(snap, c, r);
      if painted.None? then c
      else c.(rects := c.rects + [painted.value],
              damage := if s.dirty then Union(c.damage, painted.value) else c.damage)
    case AddExisting(region) => c.(rects := c.rects + region)
    case AddReadback(paint, source) =>
      c.(rects := c.rects + [EMPTY], readbacks := c.readbacks + [Readback(|c.rects|, paint, source)])
  }

  // ---------- runs ----------

  ghost predicate AllowedRun(snap: Snap, c: Context, es: seq<Event>)
    decreases |es|
  {
    es == [] || (Allowed(c, es[0]) && AllowedRun(snap, Step(snap, c, es[0]), es[1..]))
  }

  function Run(snap: Snap, c: Context, es: seq<Event>): Context
    requires AllowedRun(snap, c, es)
    decreases |es|
  {
    if es == [] then c else Run(snap, Step(snap, c, es[0]), es[1..])
  }

  // The level of the subtree that the next event is in; a subtree may not end below where it began.
  function Level(es: seq<Event>): int {
    if es == [] then 0
    else Level(es[..|es| - 1]) + (if es[|es| - 1].Begin? then 1 else if es[|es| - 1].End? then -1 else 0)
  }

  ghost predicate StaysInside(es: seq<Event>, level: int) {
    forall n :: 0 <= n <= |es| ==> level + Level(es[..n]) >= 0
  }

  ghost predicate Balanced(es: seq<Event>) { Level(es) == 0 && StaysInside(es, 0) }

  // ---------- the filter stack ----------

  function FilterCount(stack: seq<State>): nat {
    if stack == [] then 0 else FilterCount(stack[..|stack| - 1]) + if stack[|stack| - 1].hasFilter then 1 else 0
  }

  // One filter for each state that is flagged with one; regions begin within the list.
  ghost predicate Consistent(c: Context) {
    && |c.filters| == FilterCount(c.stack + [c.state])
    && (forall i :: 0 <= i < |c.stack| ==> c.stack[i].rectIndex <= c.state.rectIndex)
    && c.state.rectIndex <= |c.rects|
    && (forall i :: 0 <= i < |c.readbacks| ==> c.readbacks[i].position < |c.rects|)
    && (forall i, j :: 0 <= i <= j < |c.stack| ==> c.stack[i].rectIndex <= c.stack[j].rectIndex)
  }

  lemma CountLast(stack: seq<State>, s: State)
    ensures FilterCount(stack + [s]) == FilterCount(stack) + if s.hasFilter then 1 else 0
  {
    assert (stack + [s])[..|stack|] == stack;
  }

  lemma {:induction false} CountTextured(stack: seq<State>)
    ensures FilterCount(AllTextured(stack)) == FilterCount(stack)
  {
    if stack != [] {
      CountTextured(stack[..|stack| - 1]);
      assert AllTextured(stack)[..|stack| - 1] == AllTextured(stack[..|stack| - 1]);
    }
  }

  lemma {:induction false} CountConcat(a: seq<State>, b: seq<State>)
    ensures FilterCount(a + b) == FilterCount(a) + FilterCount(b)
  {
    if b == [] {
      assert a + b == a;
    } else {
      CountConcat(a, b[..|b| - 1]);
      assert (a + b)[..|a + b| - 1] == a + b[..|b| - 1];
    }
  }

  // Each flagged state still has its filter.
  lemma StepFilters(snap: Snap, c: Context, e: Event)
    requires |c.filters| == FilterCount(c.stack + [c.state]) && Allowed(c, e)
    ensures var c' := Step(snap, c, e); |c'.filters| == FilterCount(c'.stack + [c'.state])
  {
    hide Painted, Damaged, Snapped, FilterCount;
    var c' := Step(snap, c, e);
    CountLast(c.stack, c.state);
    CountLast(c'.stack, c'.state);
    match e {
      case Begin => CountLast(c.stack, c.state);
      case End => assert c.stack == c'.stack + [c'.state];
      case MarkTexture => CountTextured(c.stack);
      case _ =>
    }
  }

  lemma StepConsistent(snap: Snap, c: Context, e: Event)
    requires Consistent(c) && Allowed(c, e)
    ensures Consistent(Step(snap, c, e))
  {
    hide Painted, Damaged, Snapped, FilterCount;
    StepFilters(snap, c, e);
  }

  lemma FiltersToPop(c: Context)
    requires Consistent(c)
    ensures c.state.hasFilter ==> |c.filters| > 0
  {
    CountLast(c.stack, c.state);
  }

  // ---------- one subtree ----------

  // The area that the current subtree has painted so far.
  function CurrentRegion(c: Context): Region {
    Region(c.state.rectIndex, |c.rects|,
           exists i :: 0 <= i < |c.readbacks| && c.readbacks[i].position >= c.state.rectIndex, c.state.hasTexture)
  }

  // The states around a subtree that began in c0, marked when a texture was marked inside it.
  function Outside(c0: Context, texture: bool): seq<State> {
    if texture then AllTextured(c0.stack + [c0.state]) else c0.stack + [c0.state]
  }

  // The state of the subtree itself, `level` levels above the current one.
  function Own(c0: Context, c: Context, level: nat): State
    requires |c.stack| == |c0.stack| + 1 + level
  {
    (c.stack + [c.state])[|c0.stack| + 1]
  }

  // Somewhere inside the subtree that began in c0.
  ghost predicate Nested(c0: Context, c: Context, level: nat, texture: bool, readback: bool) {
    && Consistent(c) && |c.stack| == |c0.stack| + 1 + level
    && c.stack[..|c0.stack| + 1] == Outside(c0, texture)
    && c0.filters <= c.filters && c0.rects <= c.rects && c0.readbacks <= c.readbacks
    && Own(c0, c, level).rectIndex == |c0.rects| && Own(c0, c, level).hasTexture == texture
    && (readback <==> |c.readbacks| > |c0.readbacks|)
    && forall i :: |c0.readbacks| <= i < |c.readbacks| ==> c.readbacks[i].position >= |c0.rects|
  }

  function LevelStep(e: Event): int { if e.Begin? then 1 else if e.End? then -1 else 0 }

  // A filter that is popped inside the subtree was pushed inside it.
  lemma PopsOwnFilter(c0: Context, c: Context, level: nat, texture: bool, readback: bool)
    requires Consistent(c0) && Nested(c0, c, level, texture, readback) && c.state.hasFilter
    ensures |c.filters| > |c0.filters|
  {
    var n := |c0.stack| + 1;
    var below, above := c.stack[..n], c.stack[n..];
    assert c.stack + [c.state] == below + (above + [c.state]);
    CountConcat(below, above + [c.state]);
    CountLast(above, c.state);
    if texture { CountTextured(c0.stack + [c0.state]); }
  }

  lemma StepInside(snap: Snap, c0: Context, c: Context, e: Event, level: nat, texture: bool, readback: bool)
    requires Consistent(c0) && Nested(c0, c, level, texture, readback) && Allowed(c, e) && level + LevelStep(e) >= 0
    ensures Nested(c0, Step(snap, c, e), level + LevelStep(e), texture || e.MarkTexture?, readback || e.AddReadback?)
  {
    hide Painted, Damaged, FilterCount, Snapped, Consistent;
    StepConsistent(snap, c, e);
    match e {
      case Begin => assert Step(snap, c, e).stack[..|c0.stack| + 1] == c.stack[..|c0.stack| + 1];
      case End => EndInside(snap, c0, c, level, texture, readback);
      case MarkTexture => TextureInside(c0, c, level, texture, readback);
      case _ =>
    }
  }

  lemma EndInside(snap: Snap, c0: Context, c: Context, level: nat, texture: bool, readback: bool)
    requires Consistent(c0) && Nested(c0, c, level, texture, readback) && Allowed(c, End) && level > 0
    requires Consistent(Step(snap, c, End))
    ensures Nested(c0, Step(snap, c, End), level - 1, texture, readback)
  {
    hide FilterCount, Consistent;
    if c.state.hasFilter { PopsOwnFilter(c0, c, level, texture, readback); }
    assert c.stack[..|c.stack| - 1][..|c0.stack| + 1] == c.stack[..|c0.stack| + 1];
  }

  lemma TextureInside(c0: Context, c: Context, level: nat, texture: bool, readback: bool)
    requires Nested(c0, c, level, texture, readback)
    ensures AllTextured(c.stack)[..|c0.stack| + 1] == Outside(c0, true)
    ensures level > 0 ==> AllTextured(c.stack)[|c0.stack| + 1].hasTexture
  {
    assert forall i :: 0 <= i <= |c0.stack| ==> Textured(c.stack[i]) == Textured((c0.stack + [c0.state])[i]);
  }

  lemma BeginInside(snap: Snap, c0: Context)
    requires Consistent(c0)
    ensures Nested(c0, Step(snap, c0, Begin), 0, false, false)
  {
    StepConsistent(snap, c0, Begin);
  }

  // ---------- whole subtrees ----------

  predicate MarksTexture(es: seq<Event>) { exists i :: 0 <= i < |es| && es[i].MarkTexture? }

  predicate ReadsBack(es: seq<Event>) { exists i :: 0 <= i < |es| && es[i].AddReadback? }

  lemma {:induction false} LevelFirst(es: seq<Event>)
    requires es != []
    ensures Level(es) == LevelStep(es[0]) + Level(es[1..])
  {
    if |es| == 1 {
      assert es[..0] == [] && es[1..] == [];
    } else {
      LevelFirst(es[..|es| - 1]);
      assert es[..|es| - 1][1..] == es[1..][..|es| - 2];
    }
  }

  lemma LevelsRest(es: seq<Event>, level: int)
    requires es != [] && StaysInside(es, level)
    ensures StaysInside(es[1..], level + LevelStep(es[0])) && level + LevelStep(es[0]) >= 0
  {
    forall n | 0 <= n <= |es[1..]| ensures level + LevelStep(es[0]) + Level(es[1..][..n]) >= 0 {
      LevelFirst(es[..n + 1]);
      assert es[..n + 1][1..] == es[1..][..n];
    }
    assert es[1..][..0] == [];
  }

  lemma FirstOrRest(es: seq<Event>)
    requires es != []
    ensures MarksTexture(es) <==> es[0].MarkTexture? || MarksTexture(es[1..])
    ensures ReadsBack(es) <==> es[0].AddReadback? || ReadsBack(es[1..])
  {
    if MarksTexture(es[1..]) {
      var i :| 0 <= i < |es[1..]| && es[1..][i].MarkTexture?;
      assert es[i + 1].MarkTexture?;
    }
    if ReadsBack(es[1..]) {
      var i :| 0 <= i < |es[1..]| && es[1..][i].AddReadback?;
      assert es[i + 1].AddReadback?;
    }
    if MarksTexture(es) && !es[0].MarkTexture? {
      var i :| 0 <= i < |es| && es[i].MarkTexture?;
      assert es[1..][i - 1].MarkTexture?;
    }
    if ReadsBack(es) && !es[0].AddReadback? {
      var i :| 0 <= i < |es| && es[i].AddReadback?;
      assert es[1..][i - 1].AddReadback?;
    }
  }

  lemma RunFirst(snap: Snap, c: Context, es: seq<Event>)
    requires AllowedRun(snap, c, es) && es != []
    ensures Allowed(c, es[0]) && AllowedRun(snap, Step(snap, c, es[0]), es[1..])
    ensures Run(snap, c, es) == Run(snap, Step(snap, c, es[0]), es[1..])
  {
    hide Step, Allowed;
  }

  lemma NoEvents(snap: Snap, c: Context, level: int)
    requires AllowedRun(snap, c, []) && StaysInside([], level)
    ensures Run(snap, c, []) == c && Level([]) == 0 && !MarksTexture([]) && !ReadsBack([]) && level >= 0
  {
    var none: seq<Event> := [];
    assert none[..0] == none;
  }

  lemma {:induction false} RunInside(snap: Snap, c0: Context, c: Context, es: seq<Event>, level: nat, texture: bool,
                                     readback: bool)
    requires Consistent(c0) && Nested(c0, c, level, texture, readback) && AllowedRun(snap, c, es)
    requires StaysInside(es, level)
    ensures level + Level(es) >= 0
    ensures Nested(c0, Run(snap, c, es), level + Level(es), texture || MarksTexture(es), readback || ReadsBack(es))
    decreases |es|
  {
    hide Nested, Step, Allowed, MarksTexture, ReadsBack, Level, StaysInside, Run, AllowedRun, LevelStep, Consistent;
    if es == [] {
      NoEvents(snap, c, level);
    } else {
      RunFirst(snap, c, es);
      LevelsRest(es, level);
      LevelFirst(es);
      FirstOrRest(es);
      StepInside(snap, c0, c, es[0], level, texture, readback);
      RunInside(snap, c0, Step(snap, c, es[0]), es[1..], level + LevelStep(es[0]), texture || es[0].MarkTexture?,
                readback || es[0].AddReadback?);
    }
  }

  // A balanced subtree: its region is exactly what was appended inside it, flagged with what
  // happened inside it, and ending it brings back the state and the filters from before, but for
  // the texture marks of the states around it.
  lemma SubtreeDiscipline(snap: Snap, c0: Context, es: seq<Event>)
    requires Consistent(c0) && Balanced(es) && AllowedRun(snap, Step(snap, c0, Begin), es)
    ensures var c := Run(snap, Step(snap, c0, Begin), es);
            && CurrentRegion(c) == Region(|c0.rects|, |c.rects|, ReadsBack(es), MarksTexture(es))
            && c0.rects <= c.rects
            && Allowed(c, End)
            && var after := Step(snap, c, End);
               && after.filters == c0.filters && after.rects == c.rects
               && after.stack + [after.state] == Outside(c0, MarksTexture(es))
               && Consistent(after)
  {
    BeginInside(snap, c0);
    RunInside(snap, c0, Step(snap, c0, Begin), es, 0, false, false);
    var c := Run(snap, Step(snap, c0, Begin), es);
    FiltersToPop(c);
    StepConsistent(snap, c, End);
    Ended(snap, c0, c, MarksTexture(es), ReadsBack(es));
  }

  lemma Ended(snap: Snap, c0: Context, c: Context, texture: bool, readback: bool)
    requires Consistent(c0) && Nested(c0, c, 0, texture, readback) && Allowed(c, End)
    ensures CurrentRegion(c) == Region(|c0.rects|, |c.rects|, readback, texture)
    ensures var after := Step(snap, c, End);
            after.filters == c0.filters && after.stack + [after.state] == Outside(c0, texture)
  {
    var after := Step(snap, c, End);
    assert c.stack == after.stack + [after.state];
    assert c.stack[..|c0.stack| + 1] == c.stack;
    CountLast(c.stack, c.state);
    if texture { CountTextured(c0.stack + [c0.state]); }
    if readback { assert c.readbacks[|c0.readbacks|].position >= |c0.rects|; }
    assert c.readbacks[..|c0.readbacks|] == c0.readbacks;
  }

  // ---------- dirty subtrees ----------

  ghost predicate DirtyInside(c0: Context, c: Context) {
    && |c.stack| > |c0.stack| && c.state.dirty && (forall i :: |c0.stack| < i < |c.stack| ==> c.stack[i].dirty)
    && c0.rects <= c.rects
    && forall i :: |c0.rects| <= i < |c.rects| ==> Enclosed(c.rects[i], c.damage)
  }

  lemma StepDirty(snap: Snap, c0: Context, c: Context, e: Event)
    requires DirtyInside(c0, c) && Allowed(c, e) && |Step(snap, c, e).stack| > |c0.stack|
    ensures DirtyInside(c0, Step(snap, c, e))
  {
    if e.AddBounds? && Painted(snap, c, e.r).Some? {
      var r := Painted(snap, c, e.r).value;
      UnionEncloses(c.damage, r);
      var c' := Step(snap, c, e);
      forall i | |c0.rects| <= i < |c'.rects| ensures Enclosed(c'.rects[i], c'.damage) {
        if i < |c.rects| { assert Enclosed(c.rects[i], c.damage); }
      }
    }
  }

  // Everything painted inside a dirty subtree, at any depth, is in the damage.
  lemma {:induction false} DirtySubtreesAreDamaged(snap: Snap, c0: Context, c: Context, es: seq<Event>, level: nat)
    requires DirtyInside(c0, c) && |c.stack| == |c0.stack| + 1 + level && AllowedRun(snap, c, es)
    requires StaysInside(es, level)
    ensures DirtyInside(c0, Run(snap, c, es))
    decreases |es|
  {
    if es != [] {
      LevelsRest(es, level);
      StepDirty(snap, c0, c, es[0]);
      DirtySubtreesAreDamaged(snap, c0, Step(snap, c, es[0]), es[1..], level + LevelStep(es[0]));
    }
  }
}
