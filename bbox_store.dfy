/**
 * The per-node box store of bboxStore.ts: a node holds a box and, per box
 * field, the component that owns it. `SetBbox` refuses a truthy write to a
 * field another component owns and otherwise claims and merges.
 */
module BBoxStore {
  import opened Wrappers
  import opened Geometry
  import opened Ownership

  class ScenegraphNode {
    const id: string
    var bbox: BBox
    var bboxOwners: BBoxOwners

    /** Every field that has an owner also has a value. */
    ghost predicate Valid()
      reads this
    {
      OwnedHaveValues(bboxOwners, bbox)
    }

    /** A fresh node has an empty box and no owners. */
    constructor (id: string)
      ensures Valid()
      ensures this.id == id && bbox == EmptyBBox && bboxOwners == NoBBoxOwners
    {
      this.id := id;
      bbox := EmptyBBox;
      bboxOwners := NoBBoxOwners;
    }

    /**
     * setBbox: a refused write (`err` is the first conflict in the order
     * left, top, width, height, standing for the thrown error) changes
     * nothing; an accepted one claims the truthy fields for `owner` and
     * merges the defined fields into the box.
     */
    method SetBbox(req: BBox, owner: string) returns (err: Option<Conflict>)
      requires Valid()
      modifies this
      ensures Valid()
      ensures err == BoxConflict(old(bboxOwners), req, owner)
      ensures err.Some? ==> bbox == old(bbox) && bboxOwners == old(bboxOwners)
      ensures err.None? ==> bboxOwners == ClaimBox(old(bboxOwners), req, owner)
      ensures err.None? ==> bbox == MergeBBox(old(bbox), req)
    {
      err := BoxConflict(bboxOwners, req, owner);
      if err.Some? {
        return;
      }
      AcceptedWriteKeepsOwnedValued(bboxOwners, bbox, req, owner);
      bboxOwners := ClaimBox(bboxOwners, req, owner);
      bbox := MergeBBox(bbox, req);
    }

    /** getBbox: the node's current box, read without change. */
    function GetBbox(): (b: BBox)
      reads this
      ensures b == bbox
    {
      bbox
    }
  }

  /**
   * Two writers on one node: "rect" claims the width, "row" is then refused
   * a width of its own and the node is unchanged, while "rect" may rewrite
   * its width.
   */
  method SingleWriterScenario() returns (first: Option<Conflict>, second: Option<Conflict>, third: Option<Conflict>)
    ensures first.None? && third.None?
    ensures second == Some(Conflict(BoxField(Width), 20.0, "rect"))
  {
    var n := new ScenegraphNode("a");
    first := n.SetBbox(BBox(None, None, Some(10.0), None), "rect");
    second := n.SetBbox(BBox(Some(3.0), None, Some(20.0), None), "row");
    assert n.bbox.width == Some(10.0) && n.bbox.left.None?;
    third := n.SetBbox(BBox(None, None, Some(30.0), None), "rect");
    assert n.bbox.width == Some(30.0) && n.bboxOwners.width == Some("rect");
  }
}
