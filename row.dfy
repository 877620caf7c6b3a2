/**
 * The Row operator of Row.tsx: it places its present children one after
 * another along x, `spacing` apart, by writing each child's translate, and
 * reports a box as wide as the placed children and as tall as the tallest.
 */
module Row {
  import opened Wrappers
  import opened Geometry
  import opened LayoutCommon
  import opened SolidBBoxStore

  /**
   * The final posX after the children `ids`: the sum, over the children
   * that have a node in the store, of `(width ?? 0) + spacing`. Children
   * without a node add nothing.
   */
  function Advance(ids: seq<string>, sg: map<string, Node>, spacing: real): real
    decreases |ids|
  {
    if ids == [] then 0.0
    else
      var last := ids[|ids| - 1];
      Advance(ids[..|ids| - 1], sg, spacing) + (if last in sg then Or0(sg[last].bbox.width) + spacing else 0.0)
  }

  /** How many of `ids` have a node in the store. */
  function PresentCount(ids: seq<string>, sg: map<string, Node>): nat
    decreases |ids|
  {
    if ids == [] then 0
    else PresentCount(ids[..|ids| - 1], sg) + (if ids[|ids| - 1] in sg then 1 else 0)
  }

  /** The write Row issues for one child: an empty box, owned by the row, translate `{x: posX, y: 0}`. */
  function Place(childId: string, rowId: string, posX: real): Request {
    SetNode(childId, EmptyBBox, rowId, Some(Transform(Translate(Some(posX), Some(0.0)))))
  }

  /** The writes Row issues for `ids`, in order: one per child that has a node. */
  function RowWrites(rowId: string, ids: seq<string>, sg: map<string, Node>, spacing: real): seq<Request>
    decreases |ids|
  {
    if ids == [] then []
    else
      var init, last := ids[..|ids| - 1], ids[|ids| - 1];
      RowWrites(rowId, init, sg, spacing) + (if last in sg then [Place(last, rowId, Advance(init, sg, spacing))] else [])
  }

  /** The heights Math.max runs over: `height ?? 0`, and 0 for a child without a node. */
  function Heights(ids: seq<string>, sg: map<string, Node>): seq<real> {
    seq(|ids|, i requires 0 <= i < |ids| => if ids[i] in sg then Or0(sg[ids[i]].bbox.height) else 0.0)
  }

  /**
   * Row's layout callback over the store snapshot `sg` (a child's box is
   * `scenegraph[childId]?.bbox`; Row's own writes leave boxes unchanged, so
   * one snapshot serves the whole callback). Math.max of an empty list is
   * -Infinity, so at least one child is required.
   */
  method RowLayout(rowId: string, childIds: seq<string>, sg: map<string, Node>, spacing: real, x: Option<real>, y: Option<real>)
    returns (writes: seq<Request>, r: LayoutResult)
    requires |childIds| > 0
    ensures writes == RowWrites(rowId, childIds, sg, spacing)
    ensures r.bbox.left == Some(0.0) && r.bbox.top == Some(0.0)
    ensures r.bbox.width == Some(Advance(childIds, sg, spacing) - spacing)
    ensures r.bbox.height.Some?
    ensures forall i :: 0 <= i < |childIds| ==> Heights(childIds, sg)[i] <= r.bbox.height.value
    ensures r.bbox.height.value in Heights(childIds, sg)
    ensures r.transform == Transform(Translate(x, y))
  {
    var posX := 0.0;
    writes := [];
    var i := 0;
    while i < |childIds|
      invariant 0 <= i <= |childIds|
      invariant posX == Advance(childIds[..i], sg, spacing)
      invariant writes == RowWrites(rowId, childIds[..i], sg, spacing)
    {
      var childId := childIds[i];
      assert childIds[..i + 1][..i] == childIds[..i];
      if childId in sg {
        writes := writes + [Place(childId, rowId, posX)];
        posX := posX + (Or0(sg[childId].bbox.width) + spacing);
      }
      i := i + 1;
    }
    assert childIds[..|childIds|] == childIds;
    var width := posX - spacing;
    var height := MaxOf(Heights(childIds, sg));
    r := LayoutResult(BBox(Some(0.0), Some(0.0), Some(width), Some(height)), Transform(Translate(x, y)));
  }

  /**
   * The writes, one by one: there is one per child with a node, and the
   * child at index i (if it has a node) gets the write at position
   * PresentCount(ids[..i]) with posX = Advance(ids[..i]), the sum of
   * `(width ?? 0) + spacing` over the earlier children with a node.
   */
  lemma {:induction false} RowWritesAt(rowId: string, ids: seq<string>, sg: map<string, Node>, spacing: real)
    ensures |RowWrites(rowId, ids, sg, spacing)| == PresentCount(ids, sg)
    ensures forall i :: 0 <= i < |ids| && ids[i] in sg ==>
      && PresentCount(ids[..i], sg) < |RowWrites(rowId, ids, sg, spacing)|
      && RowWrites(rowId, ids, sg, spacing)[PresentCount(ids[..i], sg)] == Place(ids[i], rowId, Advance(ids[..i], sg, spacing))
    decreases |ids|
  {
    if ids != [] {
      var init := ids[..|ids| - 1];
      RowWritesAt(rowId, init, sg, spacing);
      forall i | 0 <= i < |ids| && ids[i] in sg
        ensures PresentCount(ids[..i], sg) < |RowWrites(rowId, ids, sg, spacing)|
        ensures RowWrites(rowId, ids, sg, spacing)[PresentCount(ids[..i], sg)] == Place(ids[i], rowId, Advance(ids[..i], sg, spacing))
      {
        if i < |init| {
          assert ids[..i] == init[..i];
        } else {
          assert ids[..i] == init;
        }
      }
    }
  }

  /** Every write targets a child with a node, with an empty box, the row as owner and translate.y = 0. */
  lemma {:induction false} RowWritesShape(rowId: string, ids: seq<string>, sg: map<string, Node>, spacing: real)
    ensures forall w :: w in RowWrites(rowId, ids, sg, spacing) ==>
      && w.SetNode? && w.target in sg && w.bbox == EmptyBBox && w.owner == rowId
      && w.transform.Some? && w.transform.value.translate.x.Some? && w.transform.value.translate.y == Some(0.0)
    decreases |ids|
  {
    if ids != [] {
      RowWritesShape(rowId, ids[..|ids| - 1], sg, spacing);
    }
  }

  /** With non-negative widths and spacing, posX never decreases along the children. */
  lemma {:induction false} AdvanceMonotone(ids: seq<string>, sg: map<string, Node>, spacing: real, i: nat, j: nat)
    requires spacing >= 0.0
    requires forall id :: id in sg ==> Or0(sg[id].bbox.width) >= 0.0
    requires i <= j <= |ids|
    ensures Advance(ids[..i], sg, spacing) <= Advance(ids[..j], sg, spacing)
    decreases j - i
  {
    if i < j {
      AdvanceMonotone(ids, sg, spacing, i, j - 1);
      assert ids[..j][..j - 1] == ids[..j - 1];
    }
  }

  /**
   * Every write Row issues is accepted by the store's setBBox on a valid
   * node: its box is empty, and the translate checks never fire. The box is
   * left unchanged and the translate becomes `{x: posX, y: 0}`.
   */
  lemma RowWritesAccepted(rowId: string, ids: seq<string>, sg: map<string, Node>, spacing: real, w: Request)
    requires forall id :: id in sg ==> NodeValid(sg[id])
    requires w in RowWrites(rowId, ids, sg, spacing)
    ensures w.SetNode? && w.target in sg && w.transform.Some?
    ensures UpdateNode(sg[w.target], w.bbox, w.owner, w.transform).Success?
    ensures UpdateNode(sg[w.target], w.bbox, w.owner, w.transform).value.bbox == sg[w.target].bbox
    ensures UpdateNode(sg[w.target], w.bbox, w.owner, w.transform).value.transform.translate == w.transform.value.translate
  {
    RowWritesShape(rowId, ids, sg, spacing);
    OwnRewriteAccepted(sg[w.target], w.bbox, w.owner, w.transform);
  }
}
