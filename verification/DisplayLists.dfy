/** The calls a recorder receives, the records it keeps and the display list it builds. */
module DisplayLists {
  import opened Geometry
  import opened Painting

  datatype ShapeKind = RectShape | OvalShape | RoundRectShape | PathShape

  datatype Shape = Shape(kind: ShapeKind, bounds: Rect, id: int)

  datatype ClipOp = Intersect | Difference

  datatype Transform =
    | Translate(tx: real, ty: real)
    | ScaleBy(sx: real, sy: real)
    | Affine(m: Matrix)
    | Reset

  // How an operation bears on a layer's ability to apply a group opacity.
  datatype OpacityRule = ByPaint | Always | Never | Hairline | ByMode

  datatype DrawKind =
    | DrawPaint | DrawColor | DrawLine | DrawDashedLine | DrawRect | DrawOval | DrawCircle | DrawRoundRect
    | DrawDiffRoundRect | DrawArc | DrawPath | DrawPoints | DrawLines | DrawPolygon | DrawVertices
    | DrawImage | DrawImageWithAttr | DrawImageRect | DrawImageNine | DrawImageNineWithAttr
    | DrawAtlas | DrawTextBlob | DrawTextFrame | DrawShadow

  // A drawing operation: an opaque payload and everything the recorder asks about it.
  datatype Op = Op(
    kind: DrawKind,
    payload: int,
    flags: Flags,            // the attributes that decide its effect
    boundsFlags: Flags,      // the attributes that decide its bounds
    bounds: Option<Rect>,    // none: it floods the clip
    ownPaint: Option<Paint>, // it brings its own colour and mode
    mode: Option<BlendMode>, // none: it uses the mode of the current paint
    opacity: OpacityRule,
    overlaps: bool,          // it may draw over itself
    depthCost: nat)

  datatype Backdrop = Backdrop(filter: int, id: Option<int>)

  datatype LayerOptions = LayerOptions(
    withPaint: bool, fromCaller: bool, clipped: bool, hasBackdrop: bool, distributesOpacity: bool, unbounded: bool)

  datatype Record =
    | SetAttrRec(attr: Attr)
    | SaveRec(restoreIndex: nat, contentDepth: nat)
    | LayerRec(options: LayerOptions, bounds: Rect, maxBlend: BlendMode, backdrop: Option<Backdrop>,
               restoreIndex: nat, contentDepth: nat)
    | RestoreRec
    | TransformRec(transform: Transform)
    | ClipRec(shape: Shape, op: ClipOp, aa: bool)
    | DrawRec(draw: Op)
    | ListRec(list: DisplayList, opacity: real)
  {
    predicate IsSave() { SaveRec? || LayerRec? }

    // How much the record adds to the operation count: attributes are not counted.
    function CountInc(): nat { if SetAttrRec? then 0 else 1 }

    // How much the record adds to the depth, before the depth cost of the paint.
    function DepthInc(): nat {
      match this
      case DrawRec(d) => d.depthCost
      case ListRec(_, _) => 1
      case _ => 0
    }
  }

  // A rectangle of the device that the record with this index draws to.
  datatype Leaf = Leaf(rect: Rect, id: nat)

  datatype DisplayList = DisplayList(
    records: seq<Record>, opCount: nat, nestedCount: nat, totalDepth: nat, bounds: Rect, groupOpacity: bool,
    modifiesTransparentBlack: bool, maxRootBlend: BlendMode, rootBackdrop: bool, rootUnbounded: bool,
    rtree: Option<seq<Leaf>>)
  {
    function OpCount(nested: bool): nat { opCount + if nested then nestedCount else 0 }
  }

  datatype Call =
    | AttrCall(attr: Attr)
    | SaveCall
    | LayerCall(bounds: Rect, withPaint: bool, fromCaller: bool, backdrop: Option<Backdrop>)
    | RestoreCall
    | TransformCall(transform: Transform)
    | ClipCall(shape: Shape, op: ClipOp, aa: bool)
    | DrawCall(draw: Op)
    | ListCall(list: DisplayList, opacity: real)

  // The call that a record makes when it is dispatched.
  function Dispatched(r: Record): Call {
    match r
    case SetAttrRec(a) => AttrCall(a)
    case SaveRec(_, _) => SaveCall
    case LayerRec(o, b, _, bd, _, _) => LayerCall(b, o.withPaint, o.fromCaller, bd)
    case RestoreRec => RestoreCall
    case TransformRec(t) => TransformCall(t)
    case ClipRec(s, op, aa) => ClipCall(s, op, aa)
    case DrawRec(d) => DrawCall(d)
    case ListRec(l, o) => ListCall(l, o)
  }

  function Dispatch(rs: seq<Record>): seq<Call> { seq(|rs|, i requires 0 <= i < |rs| => Dispatched(rs[i])) }

  // What of a record is settled when it is pushed, and so is not touched by back-patching.
  function Settled(r: Record): Call {
    if r.LayerRec? then LayerCall(EMPTY, r.options.withPaint, r.options.fromCaller, r.backdrop) else Dispatched(r)
  }

  function Skeleton(rs: seq<Record>): seq<Call> { seq(|rs|, i requires 0 <= i < |rs| => Settled(rs[i])) }

  lemma SkeletonAppend(rs: seq<Record>, r: Record)
    ensures Skeleton(rs + [r]) == Skeleton(rs) + [Settled(r)]
  {
  }

  lemma SkeletonPatch(rs: seq<Record>, i: nat, r: Record)
    requires i < |rs| && Settled(r) == Settled(rs[i])
    ensures Skeleton(rs[i := r]) == Skeleton(rs)
  {
  }
}
