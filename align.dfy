/**
 * The Align operator of Align.tsx: it decodes an alignment into a vertical
 * and a horizontal part, picks a reference value on each axis from the
 * first eligible child, moves every child it may move so that the chosen
 * edge meets that value, and reports the union of the children's boxes.
 */
module Align {
  import opened Wrappers
  import opened Geometry
  import opened LayoutCommon

  /** The fifteen alignments: nine two-dimensional, six one-dimensional. */
  datatype Alignment =
    | TopLeft | TopCenter | TopRight
    | CenterLeft | Center | CenterRight
    | BottomLeft | BottomCenter | BottomRight
    | AlignTop | CenterVertically | AlignBottom
    | AlignLeft | CenterHorizontally | AlignRight

  /**
   * The edge an axis is aligned on: Start is top (vertical) or left
   * (horizontal), Middle is center, End is bottom or right.
   */
  datatype Edge = Start | Middle | End

  predicate Is2D(a: Alignment) {
    a in {TopLeft, TopCenter, TopRight, CenterLeft, Center, CenterRight, BottomLeft, BottomCenter, BottomRight}
  }

  /**
   * splitAlignment: the vertical and the horizontal part. Every
   * two-dimensional alignment has both parts, every one-dimensional one
   * exactly one.
   */
  function SplitAlignment(a: Alignment): (r: (Option<Edge>, Option<Edge>))
    ensures Is2D(a) ==> r.0.Some? && r.1.Some?
    ensures !Is2D(a) ==> (r.0.Some? != r.1.Some?)
    ensures a in {AlignTop, CenterVertically, AlignBottom} ==> r.1.None?
    ensures a in {AlignLeft, CenterHorizontally, AlignRight} ==> r.0.None?
  {
    var vertical :=
      match a
      case AlignTop | TopLeft | TopCenter | TopRight => Some(Start)
      case CenterVertically | CenterLeft | Center | CenterRight => Some(Middle)
      case AlignBottom | BottomLeft | BottomCenter | BottomRight => Some(End)
      case _ => None;
    var horizontal :=
      match a
      case AlignLeft | TopLeft | CenterLeft | BottomLeft => Some(Start)
      case CenterHorizontally | TopCenter | Center | BottomCenter => Some(Middle)
      case AlignRight | TopRight | CenterRight | BottomRight => Some(End)
      case _ => None;
    (vertical, horizontal)
  }

  /** No two alignments decode to the same pair of parts. */
  lemma SplitAlignmentInjective(a: Alignment, b: Alignment)
    requires SplitAlignment(a) == SplitAlignment(b)
    ensures a == b
  {
  }

  /** The parts every child gets: all children share the Align's one alignment. */
  function Parts(alignment: Option<Alignment>): (Option<Edge>, Option<Edge>) {
    if alignment.Some? then SplitAlignment(alignment.value) else (None, None)
  }

  function PartOn(alignment: Option<Alignment>, a: Axis): Option<Edge> {
    if a == Vertical then Parts(alignment).0 else Parts(alignment).1
  }

  /**
   * The value of a child's aligned edge: its position (Start), its middle
   * (Middle) or its far edge (End), the last two when position and size are
   * defined. For End, `top! + height!` of a child lacking either is NaN in
   * the code; `None` there stands for that NaN, which the callers exclude.
   */
  function EdgeValue(b: BBox, a: Axis, e: Edge): Option<real> {
    match e
    case Start => Pos(b, a)
    case Middle => if Pos(b, a).Some? && Size(b, a).Some? then Some(Pos(b, a).value + Size(b, a).value / 2.0) else None
    case End => if Pos(b, a).Some? && Size(b, a).Some? then Some(Pos(b, a).value + Size(b, a).value) else None
  }

  /** The reference filter's ownership test: this Align does not own the child's translate on the axis. */
  predicate Eligible(c: ChildView, a: Axis, alignId: string) {
    TranslateOwner(c.translateOwners, a) != Some(alignId)
  }

  /**
   * A child is a reference candidate when it is eligible and its edge value
   * passes `value !== undefined`; an End value is a number (or NaN), never
   * undefined, so for End eligibility alone decides.
   */
  predicate Candidate(c: ChildView, a: Axis, e: Edge, alignId: string) {
    Eligible(c, a, alignId) && (e == End || EdgeValue(c.box, a, e).Some?)
  }

  /**
   * For an End edge the reference value is `top! + height!` of the first
   * eligible child, so that child (and no other) needs position and size
   * for the value not to be NaN.
   */
  predicate EndReferenceDefined(children: seq<ChildView>, a: Axis, alignId: string)
    decreases |children|
  {
    children != [] ==>
      if Eligible(children[0], a, alignId) then Pos(children[0].box, a).Some? && Size(children[0].box, a).Some?
      else EndReferenceDefined(children[1..], a, alignId)
  }

  /**
   * For an End edge the loop reads `height!` (or `width!`) of every child it
   * does not skip as pinned, and nothing else.
   */
  predicate EndSizesDefined(children: seq<ChildView>, a: Axis, e: Edge, alignId: string) {
    e == End ==> forall i :: 0 <= i < |children| && !Pinned(children[i], a, alignId) ==> Size(children[i].box, a).Some?
  }

  /** What the code's `!` reads need on one axis whose part is `e`. */
  predicate AxisDefined(children: seq<ChildView>, a: Axis, e: Option<Edge>, alignId: string) {
    e.Some? ==> (e.value == End ==> EndReferenceDefined(children, a, alignId)) && EndSizesDefined(children, a, e.value, alignId)
  }

  /**
   * The reference value on an axis: the edge value of the first candidate in
   * child order, or 0 if there is none.
   */
  function ReferenceValue(children: seq<ChildView>, a: Axis, e: Edge, alignId: string): (v: real)
    requires e == End ==> EndReferenceDefined(children, a, alignId)
    ensures (exists i :: 0 <= i < |children| && Candidate(children[i], a, e, alignId)
               && (forall j :: 0 <= j < i ==> !Candidate(children[j], a, e, alignId))
               && EdgeValue(children[i].box, a, e) == Some(v))
            || ((forall i :: 0 <= i < |children| ==> !Candidate(children[i], a, e, alignId)) && v == 0.0)
    decreases |children|
  {
    if children == [] then 0.0
    else if Candidate(children[0], a, e, alignId) then EdgeValue(children[0].box, a, e).value
    else
      var v := ReferenceValue(children[1..], a, e, alignId);
      assert forall j :: 1 <= j <= |children[1..]| ==> children[1..][j - 1] == children[j];
      v
  }

  /**
   * The write for one child: its position on the axis becomes `v` (Start),
   * `v - size / 2` (Middle, skipped when the size is undefined) or
   * `v - size` (End); none for a pinned child.
   */
  function AlignWrite(c: ChildView, a: Axis, e: Edge, v: real, alignId: string): (w: seq<Request>)
    requires e == End && !Pinned(c, a, alignId) ==> Size(c.box, a).Some?
    ensures |w| <= 1
    ensures Pinned(c, a, alignId) ==> w == []
  {
    if Pinned(c, a, alignId) then []
    else
      match e
      case Start => [SetSmart(c.id, PosBox(a, v), alignId)]
      case Middle => if Size(c.box, a).None? then [] else [SetSmart(c.id, PosBox(a, v - Size(c.box, a).value / 2.0), alignId)]
      case End => [SetSmart(c.id, PosBox(a, v - Size(c.box, a).value), alignId)]
  }

  /** The writes of one axis' loop, in child order. */
  function AxisWrites(children: seq<ChildView>, a: Axis, e: Edge, v: real, alignId: string): seq<Request>
    requires EndSizesDefined(children, a, e, alignId)
    decreases |children|
  {
    if children == [] then []
    else
      var init := children[..|children| - 1];
      assert forall i :: 0 <= i < |init| ==> init[i] == children[i];
      AxisWrites(init, a, e, v, alignId) + AlignWrite(children[|children| - 1], a, e, v, alignId)
  }

  /**
   * One of the two write loops: for each child not pinned on the axis, a
   * reconciling write of its position so that its aligned edge lands on `v`.
   */
  method AlignAxis(children: seq<ChildView>, a: Axis, e: Edge, v: real, alignId: string) returns (writes: seq<Request>)
    requires EndSizesDefined(children, a, e, alignId)
    ensures writes == AxisWrites(children, a, e, v, alignId)
  {
    writes := [];
    var i := 0;
    while i < |children|
      invariant 0 <= i <= |children|
      invariant writes == AxisWrites(children[..i], a, e, v, alignId)
    {
      assert children[..i + 1][..i] == children[..i];
      var c := children[i];
      if Pinned(c, a, alignId) {
        i := i + 1;
        continue;
      }
      match e {
        case Start =>
          writes := writes + [SetSmart(c.id, PosBox(a, v), alignId)];
        case Middle =>
          var size := Size(c.box, a);
          if size.Some? {
            writes := writes + [SetSmart(c.id, PosBox(a, v - size.value / 2.0), alignId)];
          }
        case End =>
          writes := writes + [SetSmart(c.id, PosBox(a, v - Size(c.box, a).value), alignId)];
      }
      i := i + 1;
    }
    assert children[..|children|] == children;
  }

  /** A box with its position on axis `a` replaced by `p`. */
  function Moved(b: BBox, a: Axis, p: real): (r: BBox)
    ensures Pos(r, a) == Some(p) && Size(r, a) == Size(b, a)
  {
    if a == Horizontal then b.(left := Some(p)) else b.(top := Some(p))
  }

  /**
   * `w` is this Align's write for child `c`: the child is not pinned, the
   * write is a reconciling write by this Align that sets only the position
   * on the axis, and with that position the child's aligned edge is `v`.
   */
  predicate Aligns(w: Request, c: ChildView, a: Axis, e: Edge, v: real, alignId: string) {
    && !Pinned(c, a, alignId) && w.SetSmart? && w.target == c.id && w.owner == alignId
    && Pos(w.bbox, a).Some? && Size(w.bbox, a).None? && Pos(w.bbox, Cross(a)).None? && Size(w.bbox, Cross(a)).None?
    && EdgeValue(Moved(c.box, a, Pos(w.bbox, a).value), a, e) == Some(v)
  }

  /** Is child `c` one the loop writes to? Not pinned, and for Middle its size is known. */
  predicate Movable(c: ChildView, a: Axis, e: Edge, alignId: string) {
    !Pinned(c, a, alignId) && (e == Middle ==> Size(c.box, a).Some?)
  }

  /** The write for one child, if any, aligns it; a movable child gets exactly one. */
  lemma AlignWriteAligns(c: ChildView, a: Axis, e: Edge, v: real, alignId: string)
    requires e == End && !Pinned(c, a, alignId) ==> Size(c.box, a).Some?
    ensures forall w :: w in AlignWrite(c, a, e, v, alignId) ==> Aligns(w, c, a, e, v, alignId)
    ensures Movable(c, a, e, alignId) <==> |AlignWrite(c, a, e, v, alignId)| == 1
  {
    var ws := AlignWrite(c, a, e, v, alignId);
    if |ws| == 1 {
      var p := Pos(ws[0].bbox, a).value;
      assert EdgeValue(Moved(c.box, a, p), a, e) == Some(v);
    }
  }

  /**
   * Every write of an axis loop is the write of some child, and puts that
   * child's aligned edge on `v`; so pinned children get no write.
   */
  lemma {:induction false} AxisWritesSound(children: seq<ChildView>, a: Axis, e: Edge, v: real, alignId: string)
    requires EndSizesDefined(children, a, e, alignId)
    ensures forall w :: w in AxisWrites(children, a, e, v, alignId) ==>
      exists i :: 0 <= i < |children| && Aligns(w, children[i], a, e, v, alignId)
    decreases |children|
  {
    if children != [] {
      var init := children[..|children| - 1];
      var last := |children| - 1;
      AxisWritesSound(init, a, e, v, alignId);
      AlignWriteAligns(children[last], a, e, v, alignId);
      forall w | w in AxisWrites(children, a, e, v, alignId)
        ensures exists i :: 0 <= i < |children| && Aligns(w, children[i], a, e, v, alignId)
      {
        if w in AxisWrites(init, a, e, v, alignId) {
          var i :| 0 <= i < |init| && Aligns(w, init[i], a, e, v, alignId);
          assert init[i] == children[i];
        } else {
          assert Aligns(w, children[last], a, e, v, alignId);
        }
      }
    }
  }

  /** Every movable child (not pinned; for Middle, of known size) gets its write. */
  lemma {:induction false} AxisWritesComplete(children: seq<ChildView>, a: Axis, e: Edge, v: real, alignId: string)
    requires EndSizesDefined(children, a, e, alignId)
    ensures forall i :: 0 <= i < |children| && Movable(children[i], a, e, alignId) ==>
      exists w :: w in AxisWrites(children, a, e, v, alignId) && Aligns(w, children[i], a, e, v, alignId)
    decreases |children|
  {
    if children != [] {
      var init := children[..|children| - 1];
      var last := |children| - 1;
      AxisWritesComplete(init, a, e, v, alignId);
      AlignWriteAligns(children[last], a, e, v, alignId);
      var ws := AxisWrites(children, a, e, v, alignId);
      assert ws == AxisWrites(init, a, e, v, alignId) + AlignWrite(children[last], a, e, v, alignId);
      forall i | 0 <= i < |children| && Movable(children[i], a, e, alignId)
        ensures exists w :: w in ws && Aligns(w, children[i], a, e, v, alignId)
      {
        if i < last {
          assert init[i] == children[i];
          var w :| w in AxisWrites(init, a, e, v, alignId) && Aligns(w, init[i], a, e, v, alignId);
          assert w in ws;
        } else {
          var w := AlignWrite(children[last], a, e, v, alignId)[0];
          assert w in ws;
        }
      }
    }
  }

  /**
   * Bottom-aligning a child with no position yet to a placed one: the
   * reference is the placed child's bottom edge, 10, and the unplaced child
   * of height 4 is moved to top 6.
   */
  lemma BottomAlignUnplaced()
    ensures
      var placed := ChildView("a", BBox(None, Some(0.0), None, Some(10.0)), NoBBoxOwners, NoTranslateOwners);
      var unplaced := ChildView("b", BBox(None, None, None, Some(4.0)), NoBBoxOwners, NoTranslateOwners);
      && AxisDefined([placed, unplaced], Vertical, PartOn(Some(AlignBottom), Vertical), "al")
      && AlignWrites([placed, unplaced], Some(AlignBottom), "al")
         == [SetSmart("a", PosBox(Vertical, 0.0), "al"), SetSmart("b", PosBox(Vertical, 6.0), "al")]
  {
    var placed := ChildView("a", BBox(None, Some(0.0), None, Some(10.0)), NoBBoxOwners, NoTranslateOwners);
    var unplaced := ChildView("b", BBox(None, None, None, Some(4.0)), NoBBoxOwners, NoTranslateOwners);
    var cs := [placed, unplaced];
    assert ReferenceValue(cs, Vertical, End, "al") == 10.0;
    assert cs[..1] == [placed];
    assert AxisWrites([placed], Vertical, End, 10.0, "al") == [SetSmart("a", PosBox(Vertical, 0.0), "al")];
  }

  /** The writes of the whole callback: the vertical loop's, then the horizontal loop's. */
  function AlignWrites(children: seq<ChildView>, alignment: Option<Alignment>, alignId: string): seq<Request>
    requires AxisDefined(children, Vertical, PartOn(alignment, Vertical), alignId)
    requires AxisDefined(children, Horizontal, PartOn(alignment, Horizontal), alignId)
  {
    var vertical := PartOn(alignment, Vertical);
    var horizontal := PartOn(alignment, Horizontal);
    (if vertical.Some?
     then AxisWrites(children, Vertical, vertical.value, ReferenceValue(children, Vertical, vertical.value, alignId), alignId)
     else [])
    + (if horizontal.Some?
       then AxisWrites(children, Horizontal, horizontal.value, ReferenceValue(children, Horizontal, horizontal.value, alignId), alignId)
       else [])
  }

  /**
   * Align's aggregate, over the children's boxes as read after the writes:
   * the union box, and translate `props.x - left` / `props.y - top` where
   * the props give x / y (undefined otherwise). Math.min and Math.max of an
   * empty list are infinite, so at least one child is required.
   */
  function AlignAggregate(after: seq<BBox>, x: Option<real>, y: Option<real>): (r: LayoutResult)
    requires |after| > 0
    ensures IsUnion(r.bbox, after)
    ensures r.transform.translate.x == (if x.Some? then Some(x.value - r.bbox.left.value) else None)
    ensures r.transform.translate.y == (if y.Some? then Some(y.value - r.bbox.top.value) else None)
  {
    UnionExtentIsUnion(after);
    var b := ExtentBox(UnionExtent(after));
    LayoutResult(b, Transform(Translate(if x.Some? then Some(x.value - b.left.value) else None,
                                        if y.Some? then Some(y.value - b.top.value) else None)))
  }

  /**
   * Align's layout callback. `children` holds each child's box as getBBox
   * gives it before the writes, and its translate owners; `after` holds the
   * children's boxes as read once the writes have been made, which depends
   * on setSmartBBox.
   */
  method AlignLayout(alignId: string, alignment: Option<Alignment>, x: Option<real>, y: Option<real>,
                     children: seq<ChildView>, after: seq<BBox>)
    returns (writes: seq<Request>, r: LayoutResult)
    requires |after| == |children| > 0
    requires AxisDefined(children, Vertical, PartOn(alignment, Vertical), alignId)
    requires AxisDefined(children, Horizontal, PartOn(alignment, Horizontal), alignId)
    ensures writes == AlignWrites(children, alignment, alignId)
    ensures r == AlignAggregate(after, x, y)
  {
    var (vertical, horizontal) := Parts(alignment);
    writes := [];
    if vertical.Some? {
      var v := ReferenceValue(children, Vertical, vertical.value, alignId);
      writes := AlignAxis(children, Vertical, vertical.value, v, alignId);
    }
    if horizontal.Some? {
      var h := ReferenceValue(children, Horizontal, horizontal.value, alignId);
      var hw := AlignAxis(children, Horizontal, horizontal.value, h, alignId);
      writes := writes + hw;
    }
    r := AlignAggregate(after, x, y);
  }
}
