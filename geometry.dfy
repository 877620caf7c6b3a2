/**
 * The value types shared by the box stores and the layout operators:
 * boxes, translations and their owner records, with JavaScript's
 * `undefined` as `None`.
 */
module Geometry {
  import opened Wrappers

  /** An intrinsic box; every field may still be undefined. */
  datatype BBox = BBox(left: Option<real>, top: Option<real>, width: Option<real>, height: Option<real>)

  const EmptyBBox := BBox(None, None, None, None)

  datatype Translate = Translate(x: Option<real>, y: Option<real>)

  datatype Transform = Transform(translate: Translate)

  const EmptyTransform := Transform(Translate(None, None))

  /** Per box field, the id of the component that claimed it. */
  datatype BBoxOwners = BBoxOwners(left: Option<string>, top: Option<string>, width: Option<string>, height: Option<string>)

  const NoBBoxOwners := BBoxOwners(None, None, None, None)

  /** Per translate component, the id of the component that claimed it. */
  datatype TranslateOwners = TranslateOwners(x: Option<string>, y: Option<string>)

  const NoTranslateOwners := TranslateOwners(None, None)

  /** The four box keys, in the order in which the stores check them. */
  datatype BoxKey = Left | Top | Width | Height

  function KeyIndex(k: BoxKey): nat {
    match k
    case Left => 0
    case Top => 1
    case Width => 2
    case Height => 3
  }

  function Get(b: BBox, k: BoxKey): Option<real> {
    match k
    case Left => b.left
    case Top => b.top
    case Width => b.width
    case Height => b.height
  }

  function Owner(o: BBoxOwners, k: BoxKey): Option<string> {
    match k
    case Left => o.left
    case Top => o.top
    case Width => o.width
    case Height => o.height
  }

  /**
   * JavaScript truthiness of an optional number: `undefined` and `0` are
   * falsy, every other number is truthy (NaN is not modelled).
   */
  predicate Truthy(v: Option<real>) {
    v.Some? && v.value != 0.0
  }

  /** mergeObjects on one key: a defined new value wins, an undefined one keeps the old value. */
  function MergeKey<T>(current: Option<T>, incoming: Option<T>): Option<T> {
    if incoming.Some? then incoming else current
  }

  /**
   * mergeObjects(obj1, obj2) on boxes: a copy of obj1 in which every key that
   * is defined in obj2 takes obj2's value. obj1 itself is a value and is not
   * changed.
   */
  function MergeBBox(obj1: BBox, obj2: BBox): (r: BBox)
    ensures forall k: BoxKey :: Get(obj2, k).Some? ==> Get(r, k) == Get(obj2, k)
    ensures forall k: BoxKey :: Get(obj2, k).None? ==> Get(r, k) == Get(obj1, k)
  {
    BBox(MergeKey(obj1.left, obj2.left), MergeKey(obj1.top, obj2.top),
         MergeKey(obj1.width, obj2.width), MergeKey(obj1.height, obj2.height))
  }

  /**
   * mergeObjects(obj1, obj2) on transforms. A transform has the single key
   * `translate`, and obj2 always defines it, so the merge is shallow: obj2's
   * translate replaces obj1's as a whole, components included.
   */
  function MergeTransform(obj1: Transform, obj2: Transform): (r: Transform)
    ensures r.translate == obj2.translate
  {
    var t := MergeKey(Some(obj1.translate), Some(obj2.translate));
    Transform(t.value)
  }

  /** The two axes: horizontal (left, width, translate.x) and vertical (top, height, translate.y). */
  datatype Axis = Horizontal | Vertical

  function Pos(b: BBox, a: Axis): Option<real> {
    if a == Horizontal then b.left else b.top
  }

  function Size(b: BBox, a: Axis): Option<real> {
    if a == Horizontal then b.width else b.height
  }

  function SizeOwner(o: BBoxOwners, a: Axis): Option<string> {
    if a == Horizontal then o.width else o.height
  }

  function TranslateOwner(o: TranslateOwners, a: Axis): Option<string> {
    if a == Horizontal then o.x else o.y
  }

  /** A request box that sets only the position on axis `a`. */
  function PosBox(a: Axis, v: real): (b: BBox)
    ensures Pos(b, a) == Some(v) && Size(b, a).None?
    ensures Pos(b, Cross(a)).None? && Size(b, Cross(a)).None?
  {
    if a == Horizontal then BBox(Some(v), None, None, None) else BBox(None, Some(v), None, None)
  }

  /** A request box that sets only the size on axis `a`. */
  function SizeBox(a: Axis, v: real): (b: BBox)
    ensures Size(b, a) == Some(v) && Pos(b, a).None?
    ensures Pos(b, Cross(a)).None? && Size(b, Cross(a)).None?
  {
    if a == Horizontal then BBox(None, None, Some(v), None) else BBox(None, None, None, Some(v))
  }

  function Cross(a: Axis): Axis {
    if a == Horizontal then Vertical else Horizontal
  }
}
