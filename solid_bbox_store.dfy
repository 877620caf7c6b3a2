/**
 * The keyed scenegraph store of solidBBoxStore.ts: a table from node id to
 * a node holding a box, a transform and their owner records. `SetBBox`
 * applies the same ownership rule as bboxStore.ts to the box and then
 * shallow-merges the transform.
 *
 * Two details of the code are kept as written: translate owners are
 * recorded under top-level `x`/`y` keys of the transform owners while the
 * checks read `translate.x`/`translate.y`, which therefore stay empty; and
 * the transform merge replaces the whole `translate` object.
 */
module SolidBBoxStore {
  import opened Wrappers
  import opened Geometry
  import opened Ownership

  /**
   * The transform owner record as the code builds it: the declared
   * `translate` part, which nothing fills, and the top-level `x`/`y` keys
   * that setBBox writes.
   */
  datatype TransformOwners = TransformOwners(translate: TranslateOwners, x: Option<string>, y: Option<string>)

  datatype Node = Node(bbox: BBox, bboxOwners: BBoxOwners, transform: Transform, transformOwners: TransformOwners)

  /** The node createNode installs. */
  const EmptyNode := Node(EmptyBBox, NoBBoxOwners, EmptyTransform, TransformOwners(NoTranslateOwners, None, None))

  /** Why setBBox throws: the id has no node, or a write conflicts. */
  datatype SetError = MissingNode | Rejected(conflict: Conflict)

  /** What every node of the store satisfies. */
  ghost predicate NodeValid(n: Node) {
    && n.transformOwners.translate == NoTranslateOwners
    && OwnedHaveValues(n.bboxOwners, n.bbox)
  }

  /** The check on one translate component: it reads the `translate` owner entry. */
  function TranslateConflict(n: Node, transform: Option<Transform>, owner: string, a: Axis): Option<Conflict> {
    if transform.Some?
       && Refuses(if a == Horizontal then transform.value.translate.x else transform.value.translate.y,
                  TranslateOwner(n.transformOwners.translate, a), owner)
    then Some(Conflict(TranslateField(a),
                       (if a == Horizontal then transform.value.translate.x else transform.value.translate.y).value,
                       TranslateOwner(n.transformOwners.translate, a).value))
    else None
  }

  /** The value of translate component `a` in an optional transform (`transform?.translate.x`). */
  function Requested(transform: Option<Transform>, a: Axis): Option<real> {
    if transform.None? then None
    else if a == Horizontal then transform.value.translate.x else transform.value.translate.y
  }

  /**
   * The updater that setBBox hands to the store, as a function of the old
   * node: the six checks in the order left, top, width, height, translate.x,
   * translate.y (the first failing one is the error); on success the claimed
   * owners, the merged box, the shallow-merged transform, and translate
   * claims under the top-level `x`/`y` keys.
   */
  function UpdateNode(n: Node, req: BBox, owner: string, transform: Option<Transform>): (r: Result<Node, Conflict>)
    ensures r.Failure? <==>
      || BoxConflict(n.bboxOwners, req, owner).Some?
      || TranslateConflict(n, transform, owner, Horizontal).Some?
      || TranslateConflict(n, transform, owner, Vertical).Some?
    ensures r.Failure? && BoxConflict(n.bboxOwners, req, owner).Some? ==>
      r.error == BoxConflict(n.bboxOwners, req, owner).value
    ensures r.Failure? && BoxConflict(n.bboxOwners, req, owner).None? ==>
      if TranslateConflict(n, transform, owner, Horizontal).Some?
      then r.error == TranslateConflict(n, transform, owner, Horizontal).value
      else r.error == TranslateConflict(n, transform, owner, Vertical).value
    ensures r.Success? ==>
      && r.value.bbox == MergeBBox(n.bbox, req)
      && r.value.bboxOwners == ClaimBox(n.bboxOwners, req, owner)
      && r.value.transform.translate == (if transform.Some? then transform.value.translate else EmptyTransform.translate)
      && r.value.transformOwners.translate == n.transformOwners.translate
      && r.value.transformOwners.x == Claim(n.transformOwners.x, Requested(transform, Horizontal), owner)
      && r.value.transformOwners.y == Claim(n.transformOwners.y, Requested(transform, Vertical), owner)
  {
    var boxConflict := BoxConflict(n.bboxOwners, req, owner);
    if boxConflict.Some? then Failure(boxConflict.value)
    else if TranslateConflict(n, transform, owner, Horizontal).Some? then
      Failure(TranslateConflict(n, transform, owner, Horizontal).value)
    else if TranslateConflict(n, transform, owner, Vertical).Some? then
      Failure(TranslateConflict(n, transform, owner, Vertical).value)
    else
      var owners := TransformOwners(n.transformOwners.translate,
                                    Claim(n.transformOwners.x, Requested(transform, Horizontal), owner),
                                    Claim(n.transformOwners.y, Requested(transform, Vertical), owner));
      Success(Node(MergeBBox(n.bbox, req), ClaimBox(n.bboxOwners, req, owner),
                   MergeTransform(n.transform, transform.GetOr(EmptyTransform)), owners))
  }

  /**
   * On a valid node the translate checks never fire (they read entries
   * nothing fills), so a write is refused exactly when a box check fails,
   * and the refused write names that box conflict.
   */
  lemma TranslateNeverConflicts(n: Node, req: BBox, owner: string, transform: Option<Transform>)
    requires NodeValid(n)
    ensures UpdateNode(n, req, owner, transform).Failure? <==> BoxConflict(n.bboxOwners, req, owner).Some?
    ensures UpdateNode(n, req, owner, transform).Failure? ==>
      UpdateNode(n, req, owner, transform).error == BoxConflict(n.bboxOwners, req, owner).value
  {
  }

  /**
   * A writer that only writes box fields it owns, or that nobody owns, is
   * accepted on a valid node, whatever transform it sends.
   */
  lemma OwnRewriteAccepted(n: Node, req: BBox, owner: string, transform: Option<Transform>)
    requires NodeValid(n)
    requires forall k: BoxKey :: Truthy(Get(req, k)) ==> Owner(n.bboxOwners, k) in {None, Some(owner)}
    ensures UpdateNode(n, req, owner, transform).Success?
  {
    OwnRewritePasses(n.bboxOwners, req, owner);
    TranslateNeverConflicts(n, req, owner, transform);
  }

  /** Accepted updates keep a node valid. */
  lemma UpdateKeepsValid(n: Node, req: BBox, owner: string, transform: Option<Transform>)
    requires NodeValid(n)
    requires UpdateNode(n, req, owner, transform).Success?
    ensures NodeValid(UpdateNode(n, req, owner, transform).value)
  {
    AcceptedWriteKeepsOwnedValued(n.bboxOwners, n.bbox, req, owner);
  }

  /**
   * Ownership of a translate component does not protect it: after "A"
   * claimed translate.x = 5, a write by "B" that leaves out the transform
   * is accepted and resets translate to `{}`, and a write by "B" that sets
   * translate.x = 7 is accepted too.
   */
  lemma TranslateClaimUnprotected()
    ensures var n := UpdateNode(EmptyNode, EmptyBBox, "A", Some(Transform(Translate(Some(5.0), None))));
            && n.Success?
            && n.value.transformOwners.x == Some("A")
            && n.value.transform.translate.x == Some(5.0)
            && UpdateNode(n.value, EmptyBBox, "B", None).Success?
            && UpdateNode(n.value, EmptyBBox, "B", None).value.transform.translate == Translate(None, None)
            && UpdateNode(n.value, EmptyBBox, "B", Some(Transform(Translate(Some(7.0), None)))).Success?
            && UpdateNode(n.value, EmptyBBox, "B", Some(Transform(Translate(Some(7.0), None)))).value.transformOwners.x == Some("B")
  {
  }

  /** The store: a table from node id to node, updated in place. */
  class Scenegraph {
    var nodes: map<string, Node>

    ghost predicate Valid()
      reads this
    {
      forall id :: id in nodes ==> NodeValid(nodes[id])
    }

    /** createScenegraph: an empty table. */
    constructor ()
      ensures Valid() && nodes == map[]
    {
      nodes := map[];
    }

    /**
     * createNode: installs an empty node at `id`. On an existing id the
     * store merges the new record into the old one key by key, and since the
     * record sets all four keys that is a replacement.
     */
    method CreateNode(id: string)
      requires Valid()
      modifies this
      ensures Valid()
      ensures nodes == old(nodes)[id := EmptyNode]
    {
      nodes := nodes[id := EmptyNode];
    }

    /**
     * setBBox: applies UpdateNode to the node at `id`. A missing node or a
     * refused write is an error and leaves the table unchanged; an accepted
     * write replaces the node at `id` and no other entry.
     */
    method SetBBox(id: string, req: BBox, owner: string, transform: Option<Transform>) returns (err: Option<SetError>)
      requires Valid()
      modifies this
      ensures Valid()
      ensures id !in old(nodes) ==> err == Some(MissingNode) && nodes == old(nodes)
      ensures id in old(nodes) && UpdateNode(old(nodes)[id], req, owner, transform).Failure? ==>
        && err == Some(Rejected(UpdateNode(old(nodes)[id], req, owner, transform).error))
        && nodes == old(nodes)
      ensures id in old(nodes) && UpdateNode(old(nodes)[id], req, owner, transform).Success? ==>
        && err.None?
        && nodes == old(nodes)[id := UpdateNode(old(nodes)[id], req, owner, transform).value]
    {
      if id !in nodes {
        return Some(MissingNode);
      }
      var r := UpdateNode(nodes[id], req, owner, transform);
      if r.Failure? {
        return Some(Rejected(r.error));
      }
      UpdateKeepsValid(nodes[id], req, owner, transform);
      nodes := nodes[id := r.value];
      err := None;
    }
  }
}
