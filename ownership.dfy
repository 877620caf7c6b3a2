/**
 * The ownership rule shared by both box stores (bboxStore.ts and
 * solidBBoxStore.ts): a write of a truthy value to a box field that another
 * component already owns is refused; otherwise the writer becomes the owner
 * of every field it wrote a truthy value to.
 */
module Ownership {
  import opened Wrappers
  import opened Geometry

  /** The field a refused write names: a box key or a translate component. */
  datatype Field = BoxField(key: BoxKey) | TranslateField(axis: Axis)

  /** A refused write: the writer tried to set `field` to `attempted`, which `holder` owns. */
  datatype Conflict = Conflict(field: Field, attempted: real, holder: string)

  /**
   * The guard of one check: the requested value is truthy (so `undefined`
   * and `0` are never checked) and the field is owned by someone else.
   */
  predicate Refuses(v: Option<real>, held: Option<string>, owner: string) {
    Truthy(v) && held.Some? && held.value != owner
  }

  predicate KeyConflicts(owners: BBoxOwners, req: BBox, owner: string, k: BoxKey) {
    Refuses(Get(req, k), Owner(owners, k), owner)
  }

  function KeyConflict(owners: BBoxOwners, req: BBox, owner: string, k: BoxKey): Option<Conflict> {
    if KeyConflicts(owners, req, owner, k)
    then Some(Conflict(BoxField(k), Get(req, k).value, Owner(owners, k).value))
    else None
  }

  /**
   * The four box checks, in the order left, top, width, height: the first
   * conflicting key, if any. No conflict exactly when no key conflicts.
   */
  function BoxConflict(owners: BBoxOwners, req: BBox, owner: string): (r: Option<Conflict>)
    ensures r.None? <==> forall k: BoxKey :: !KeyConflicts(owners, req, owner, k)
    ensures r.Some? ==>
      && r.value.field.BoxField?
      && r == KeyConflict(owners, req, owner, r.value.field.key)
      && KeyConflicts(owners, req, owner, r.value.field.key)
      && forall j: BoxKey :: KeyIndex(j) < KeyIndex(r.value.field.key) ==> !KeyConflicts(owners, req, owner, j)
  {
    if KeyConflicts(owners, req, owner, Left) then KeyConflict(owners, req, owner, Left)
    else if KeyConflicts(owners, req, owner, Top) then KeyConflict(owners, req, owner, Top)
    else if KeyConflicts(owners, req, owner, Width) then KeyConflict(owners, req, owner, Width)
    else if KeyConflicts(owners, req, owner, Height) then KeyConflict(owners, req, owner, Height)
    else None
  }

  /** One owner entry after a write: claimed by the writer exactly when the written value is truthy. */
  function Claim(held: Option<string>, v: Option<real>, owner: string): Option<string> {
    if Truthy(v) then Some(owner) else held
  }

  /** The new owner record `{...owners, ...(req.left ? {left: owner} : {}), ...}`. */
  function ClaimBox(owners: BBoxOwners, req: BBox, owner: string): (r: BBoxOwners)
    ensures forall k: BoxKey :: Truthy(Get(req, k)) ==> Owner(r, k) == Some(owner)
    ensures forall k: BoxKey :: !Truthy(Get(req, k)) ==> Owner(r, k) == Owner(owners, k)
  {
    BBoxOwners(Claim(owners.left, req.left, owner), Claim(owners.top, req.top, owner),
               Claim(owners.width, req.width, owner), Claim(owners.height, req.height, owner))
  }

  /** Every owned box field holds a value. */
  ghost predicate OwnedHaveValues(owners: BBoxOwners, bbox: BBox) {
    forall k: BoxKey :: Owner(owners, k).Some? ==> Get(bbox, k).Some?
  }

  /** An accepted write keeps every owned field valued: claims are only made with a defined value, and a merge never undefines a value. */
  lemma AcceptedWriteKeepsOwnedValued(owners: BBoxOwners, bbox: BBox, req: BBox, owner: string)
    requires OwnedHaveValues(owners, bbox)
    ensures OwnedHaveValues(ClaimBox(owners, req, owner), MergeBBox(bbox, req))
  {
  }

  /**
   * Single-writer rule, as the code has it: after a write that passed the
   * box checks, a field owned by another component keeps its owner, and it
   * keeps its value unless the writer sent 0 (which is never checked).
   */
  lemma ForeignFieldKept(owners: BBoxOwners, bbox: BBox, req: BBox, owner: string, k: BoxKey)
    requires BoxConflict(owners, req, owner).None?
    requires Owner(owners, k).Some? && Owner(owners, k).value != owner
    ensures Owner(ClaimBox(owners, req, owner), k) == Owner(owners, k)
    ensures Get(MergeBBox(bbox, req), k) == Get(bbox, k) || Get(req, k) == Some(0.0)
  {
    assert !KeyConflicts(owners, req, owner, k);
  }

  /** A writer that only writes fields it owns, or that nobody owns, passes the box checks. */
  lemma OwnRewritePasses(owners: BBoxOwners, req: BBox, owner: string)
    requires forall k: BoxKey :: Truthy(Get(req, k)) ==> Owner(owners, k) in {None, Some(owner)}
    ensures BoxConflict(owners, req, owner).None?
  {
  }

  /**
   * A 0 is written past another component's claim: with `left` owned by "A",
   * a write of left = 0 by "B" passes, stores 0 and leaves "A" the owner.
   */
  lemma ZeroBypassesOwnership()
    ensures var owners := BBoxOwners(Some("A"), None, None, None);
            var req := BBox(Some(0.0), None, None, None);
            && BoxConflict(owners, req, "B").None?
            && ClaimBox(owners, req, "B").left == Some("A")
            && MergeBBox(BBox(Some(5.0), None, None, None), req).left == Some(0.0)
  {
  }
}
