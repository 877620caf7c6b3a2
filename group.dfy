/** The Group operator of Group.tsx: its box is the union of its children's boxes. */
module Group {
  import opened Wrappers
  import opened Geometry
  import opened LayoutCommon

  /**
   * Group's layout callback over the children's boxes (as getBBox gives
   * them, in child order): the union box, and the props' `x`, `y` passed
   * through as its translate. Math.min and Math.max of an empty list are
   * infinite, so at least one child is required.
   */
  function GroupLayout(boxes: seq<BBox>, x: Option<real>, y: Option<real>): (r: LayoutResult)
    requires |boxes| > 0
    ensures IsUnion(r.bbox, boxes)
    ensures r.transform == Transform(Translate(x, y))
  {
    UnionExtentIsUnion(boxes);
    LayoutResult(ExtentBox(UnionExtent(boxes)), Transform(Translate(x, y)))
  }
}
