/**
 * What the layout operators (Row, Group, Align, Distribute) share: the
 * write requests they issue, the result a layout callback returns, the
 * view of a child they read, and the min/max union of children's boxes.
 */
module LayoutCommon {
  import opened Wrappers
  import opened Geometry

  /**
   * A write an operator issues: a raw store write (setBBox, which Row calls
   * setNode) or a reconciling write (setSmartBBox, defined outside this
   * model and kept as a request).
   */
  datatype Request =
    | SetNode(target: string, bbox: BBox, owner: string, transform: Option<Transform>)
    | SetSmart(target: string, bbox: BBox, owner: string)

  /** What a layout callback returns for its own node. */
  datatype LayoutResult = LayoutResult(bbox: BBox, transform: Transform)

  /**
   * What an operator reads about one child: its box (as getBBox or getNode
   * gives it) and its box and translate owner records.
   */
  datatype ChildView = ChildView(id: string, box: BBox, bboxOwners: BBoxOwners, translateOwners: TranslateOwners)

  /**
   * A child another component has already placed on axis `a`: its
   * translate on that axis is owned, and not by operator `opId`.
   */
  predicate Pinned(c: ChildView, a: Axis, opId: string) {
    TranslateOwner(c.translateOwners, a).Some? && TranslateOwner(c.translateOwners, a) != Some(opId)
  }

  /** `v ?? 0` */
  function Or0(v: Option<real>): real {
    v.GetOr(0.0)
  }

  /** Math.max over a non-empty list: an upper bound that is one of the values. */
  function MaxOf(xs: seq<real>): (m: real)
    requires |xs| > 0
    ensures forall i :: 0 <= i < |xs| ==> xs[i] <= m
    ensures m in xs
  {
    if |xs| == 1 then xs[0]
    else
      var rest := MaxOf(xs[1..]);
      if xs[0] >= rest then xs[0] else rest
  }

  /** Math.min over a non-empty list: a lower bound that is one of the values. */
  function MinOf(xs: seq<real>): (m: real)
    requires |xs| > 0
    ensures forall i :: 0 <= i < |xs| ==> m <= xs[i]
    ensures m in xs
  {
    if |xs| == 1 then xs[0]
    else
      var rest := MinOf(xs[1..]);
      if xs[0] <= rest then xs[0] else rest
  }

  /** The four edges of a box with missing fields counted as 0. */
  function LeftOf(b: BBox): real { Or0(b.left) }
  function TopOf(b: BBox): real { Or0(b.top) }
  function RightOf(b: BBox): real { Or0(b.left) + Or0(b.width) }
  function BottomOf(b: BBox): real { Or0(b.top) + Or0(b.height) }

  datatype Extent = Extent(left: real, top: real, right: real, bottom: real)

  /**
   * The union of the children's boxes, each with `?? 0` defaults: the
   * smallest extent holding every child's box, each of its four edges
   * reached by some child.
   */
  function UnionExtent(bs: seq<BBox>): (e: Extent)
    requires |bs| > 0
    ensures forall i :: 0 <= i < |bs| ==>
      e.left <= LeftOf(bs[i]) && RightOf(bs[i]) <= e.right && e.top <= TopOf(bs[i]) && BottomOf(bs[i]) <= e.bottom
    ensures exists i :: 0 <= i < |bs| && LeftOf(bs[i]) == e.left
    ensures exists i :: 0 <= i < |bs| && RightOf(bs[i]) == e.right
    ensures exists i :: 0 <= i < |bs| && TopOf(bs[i]) == e.top
    ensures exists i :: 0 <= i < |bs| && BottomOf(bs[i]) == e.bottom
    ensures (forall i :: 0 <= i < |bs| ==> Or0(bs[i].width) >= 0.0 && Or0(bs[i].height) >= 0.0) ==>
      e.left <= e.right && e.top <= e.bottom
  {
    var lefts := seq(|bs|, i requires 0 <= i < |bs| => LeftOf(bs[i]));
    var rights := seq(|bs|, i requires 0 <= i < |bs| => RightOf(bs[i]));
    var tops := seq(|bs|, i requires 0 <= i < |bs| => TopOf(bs[i]));
    var bottoms := seq(|bs|, i requires 0 <= i < |bs| => BottomOf(bs[i]));
    var e := Extent(MinOf(lefts), MinOf(tops), MaxOf(rights), MaxOf(bottoms));
    assert e.left in lefts && e.right in rights && e.top in tops && e.bottom in bottoms;
    assert forall i :: 0 <= i < |bs| ==>
      lefts[i] == LeftOf(bs[i]) && rights[i] == RightOf(bs[i]) && tops[i] == TopOf(bs[i]) && bottoms[i] == BottomOf(bs[i]);
    e
  }

  /** The box `{left, top, width: right - left, height: bottom - top}` of an extent. */
  function ExtentBox(e: Extent): (b: BBox)
    ensures b.left == Some(e.left) && b.top == Some(e.top)
    ensures b.width.Some? && e.left + b.width.value == e.right
    ensures b.height.Some? && e.top + b.height.value == e.bottom
  {
    BBox(Some(e.left), Some(e.top), Some(e.right - e.left), Some(e.bottom - e.top))
  }

  /**
   * `b` is the union of `bs` (with `?? 0` defaults): all four fields are
   * defined, every child's box lies inside `b`, and each edge of `b` is an
   * edge of some child.
   */
  ghost predicate IsUnion(b: BBox, bs: seq<BBox>) {
    && b.left.Some? && b.top.Some? && b.width.Some? && b.height.Some?
    && (forall i :: 0 <= i < |bs| ==>
          && b.left.value <= LeftOf(bs[i]) && RightOf(bs[i]) <= b.left.value + b.width.value
          && b.top.value <= TopOf(bs[i]) && BottomOf(bs[i]) <= b.top.value + b.height.value)
    && (exists i :: 0 <= i < |bs| && LeftOf(bs[i]) == b.left.value)
    && (exists i :: 0 <= i < |bs| && RightOf(bs[i]) == b.left.value + b.width.value)
    && (exists i :: 0 <= i < |bs| && TopOf(bs[i]) == b.top.value)
    && (exists i :: 0 <= i < |bs| && BottomOf(bs[i]) == b.top.value + b.height.value)
  }

  /** The box of UnionExtent is the union. */
  lemma UnionExtentIsUnion(bs: seq<BBox>)
    requires |bs| > 0
    ensures IsUnion(ExtentBox(UnionExtent(bs)), bs)
  {
  }

  /** The union is unique: two boxes that are both the union of `bs` are equal. */
  lemma UnionUnique(b1: BBox, b2: BBox, bs: seq<BBox>)
    requires IsUnion(b1, bs) && IsUnion(b2, bs)
    ensures b1 == b2
  {
    var i1 :| 0 <= i1 < |bs| && LeftOf(bs[i1]) == b1.left.value;
    var i2 :| 0 <= i2 < |bs| && LeftOf(bs[i2]) == b2.left.value;
    var j1 :| 0 <= j1 < |bs| && RightOf(bs[j1]) == b1.left.value + b1.width.value;
    var j2 :| 0 <= j2 < |bs| && RightOf(bs[j2]) == b2.left.value + b2.width.value;
    var k1 :| 0 <= k1 < |bs| && TopOf(bs[k1]) == b1.top.value;
    var k2 :| 0 <= k2 < |bs| && TopOf(bs[k2]) == b2.top.value;
    var m1 :| 0 <= m1 < |bs| && BottomOf(bs[m1]) == b1.top.value + b1.height.value;
    var m2 :| 0 <= m2 < |bs| && BottomOf(bs[m2]) == b2.top.value + b2.height.value;
  }
}
