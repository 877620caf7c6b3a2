/**
 * The Distribute operator of Distribute.tsx: along one axis it settles a
 * total extent and a gap from its props and the children it may size,
 * sizes those children, and then places every child one after another,
 * keeping in place the first child that another component has already
 * placed. The vertical branch works on top/height/translate.y, the
 * horizontal one on left/width/translate.x.
 */
module Distribute {
  import opened Wrappers
  import opened Geometry
  import opened LayoutCommon

  datatype DistributeProps = DistributeProps(
    id: string, x: Option<real>, y: Option<real>, direction: string, total: Option<real>, spacing: Option<real>)

  /** The two thrown errors: neither spacing nor total, and an unknown direction. */
  datatype DistributeError = InvalidOptions | InvalidDirection

  function AxisOf(direction: string): Option<Axis> {
    if direction == "vertical" then Some(Vertical)
    else if direction == "horizontal" then Some(Horizontal)
    else None
  }

  // ----- Sizing -----

  /** A child whose size on the axis this Distribute owns, or nobody owns. */
  predicate Owned(c: ChildView, a: Axis, distId: string) {
    SizeOwner(c.bboxOwners, a) == Some(distId) || SizeOwner(c.bboxOwners, a).None?
  }

  /** The owned half of the partition, in child order. */
  function OwnedPart(cs: seq<ChildView>, a: Axis, distId: string): (r: seq<ChildView>)
    ensures |r| <= |cs|
    decreases |cs|
  {
    if cs == [] then []
    else
      var last := cs[|cs| - 1];
      OwnedPart(cs[..|cs| - 1], a, distId) + (if Owned(last, a, distId) then [last] else [])
  }

  /** The children sized are exactly the owned ones. */
  lemma {:induction false} OwnedPartMembers(cs: seq<ChildView>, a: Axis, distId: string)
    ensures forall c :: c in OwnedPart(cs, a, distId) <==> c in cs && Owned(c, a, distId)
    decreases |cs|
  {
    if cs != [] {
      var last := cs[|cs| - 1];
      OwnedPartMembers(cs[..|cs| - 1], a, distId);
      assert cs == cs[..|cs| - 1] + [last];
    }
  }

  /** The sizes Distribute sums (with `!`) are defined: those of the children it does not own. */
  predicate SizesKnown(cs: seq<ChildView>, a: Axis, distId: string) {
    forall i :: 0 <= i < |cs| ==> !Owned(cs[i], a, distId) ==> Size(cs[i].box, a).Some?
  }

  /** The sum of the sizes of the children it does not own. */
  function UnownedSum(cs: seq<ChildView>, a: Axis, distId: string): real
    requires SizesKnown(cs, a, distId)
    decreases |cs|
  {
    if cs == [] then 0.0
    else
      var last := cs[|cs| - 1];
      UnownedSum(cs[..|cs| - 1], a, distId) + (if Owned(last, a, distId) then 0.0 else Size(last.box, a).value)
  }

  /**
   * The sizes once the owned children have size `each`: the sum of `each`
   * over the owned children and of the current size over the others.
   */
  function FilledSum(cs: seq<ChildView>, a: Axis, distId: string, each: real): real
    requires SizesKnown(cs, a, distId)
    decreases |cs|
  {
    if cs == [] then 0.0
    else
      var last := cs[|cs| - 1];
      FilledSum(cs[..|cs| - 1], a, distId, each) + (if Owned(last, a, distId) then each else Size(last.box, a).value)
  }

  /** n copies of x added up. */
  function Repeated(n: nat, x: real): real {
    if n == 0 then 0.0 else Repeated(n - 1, x) + x
  }

  lemma {:induction false} RepeatedIsProduct(n: nat, x: real)
    ensures Repeated(n, x) == n as real * x
  {
    if n > 0 {
      RepeatedIsProduct(n - 1, x);
      assert n as real * x == (n - 1) as real * x + x;
    }
  }

  /** Filling the owned children with `each` adds `each` once per owned child to the other sizes. */
  lemma {:induction false} FilledSumSplit(cs: seq<ChildView>, a: Axis, distId: string, each: real)
    requires SizesKnown(cs, a, distId)
    ensures FilledSum(cs, a, distId, each) == UnownedSum(cs, a, distId) + Repeated(|OwnedPart(cs, a, distId)|, each)
    decreases |cs|
  {
    if cs != [] {
      var init := cs[..|cs| - 1];
      assert SizesKnown(init, a, distId) by {
        assert forall i :: 0 <= i < |init| ==> init[i] == cs[i];
      }
      FilledSumSplit(init, a, distId, each);
    }
  }

  lemma DivCancels(x: real, k: real)
    requires k != 0.0
    ensures k * (x / k) == x
  {
  }

  /** The settled main extent and gap, or the two failures of the sizing step. */
  datatype Sizing =
    | Spread(total: real, spacing: real)
    | Unresolvable  // the children's sizes are not all known: an empty box is returned
    | BadOptions    // neither spacing nor total: an error is thrown

  /** total-only mode divides by n - 1: with one child that the Distribute cannot size, n - 1 is 0. */
  predicate TotalOnlyDivisible(props: DistributeProps, cs: seq<ChildView>, a: Axis) {
    props.spacing.None? && props.total.Some? && |OwnedPart(cs, a, props.id)| == 0 ==> |cs| != 1
  }

  /**
   * The three modes. With spacing and total, both are taken as given. With
   * spacing only, or total only, every child's size must be known (none
   * owned), and the missing one follows: total = sum of sizes + spacing *
   * (n - 1), or spacing = (total - sum of sizes) / (n - 1). With neither,
   * the options are invalid.
   */
  function SizingOf(props: DistributeProps, cs: seq<ChildView>, a: Axis): (r: Sizing)
    requires SizesKnown(cs, a, props.id) && TotalOnlyDivisible(props, cs, a)
    ensures r.BadOptions? <==> props.spacing.None? && props.total.None?
    ensures r.Unresolvable? <==> (props.spacing.None? != props.total.None?) && |OwnedPart(cs, a, props.id)| > 0
    ensures r.Spread? && props.spacing.Some? ==> r.spacing == props.spacing.value
    ensures r.Spread? && props.total.Some? ==> r.total == props.total.value
  {
    var n := |cs| as real;
    var owned := OwnedPart(cs, a, props.id);
    if props.spacing.Some? && props.total.Some? then Spread(props.total.value, props.spacing.value)
    else if props.spacing.Some? then
      if |owned| > 0 then Unresolvable
      else Spread(UnownedSum(cs, a, props.id) + props.spacing.value * (n - 1.0), props.spacing.value)
    else if props.total.Some? then
      if |owned| > 0 then Unresolvable
      else Spread(props.total.value, (props.total.value - UnownedSum(cs, a, props.id)) / (n - 1.0))
    else BadOptions
  }

  /**
   * The size requested for each owned child in spacing-and-total mode: what
   * is left of the total after the other children's sizes and the n - 1
   * gaps, shared equally.
   */
  function EachSize(props: DistributeProps, cs: seq<ChildView>, a: Axis): real
    requires SizesKnown(cs, a, props.id)
    requires props.spacing.Some? && props.total.Some? && |OwnedPart(cs, a, props.id)| > 0
  {
    (props.total.value - UnownedSum(cs, a, props.id) - props.spacing.value * (|cs| as real - 1.0))
      / (|OwnedPart(cs, a, props.id)| as real)
  }

  /**
   * With both props given and a child to size, the owned children at their
   * share, the other children at their size and the n - 1 gaps add up to
   * exactly the total.
   */
  lemma BothGivenFills(props: DistributeProps, cs: seq<ChildView>, a: Axis)
    requires SizesKnown(cs, a, props.id)
    requires props.spacing.Some? && props.total.Some? && |OwnedPart(cs, a, props.id)| > 0
    ensures FilledSum(cs, a, props.id, EachSize(props, cs, a)) + props.spacing.value * (|cs| as real - 1.0)
            == props.total.value
  {
    FilledSumSplit(cs, a, props.id, EachSize(props, cs, a));
    RepeatedIsProduct(|OwnedPart(cs, a, props.id)|, EachSize(props, cs, a));
    EachSizeFills(props, cs, a);
  }

  /** The shares of the owned children make up what the other sizes and the gaps leave of the total. */
  lemma EachSizeFills(props: DistributeProps, cs: seq<ChildView>, a: Axis)
    requires SizesKnown(cs, a, props.id)
    requires props.spacing.Some? && props.total.Some? && |OwnedPart(cs, a, props.id)| > 0
    ensures UnownedSum(cs, a, props.id) + |OwnedPart(cs, a, props.id)| as real * EachSize(props, cs, a)
            + props.spacing.value * (|cs| as real - 1.0) == props.total.value
  {
    var rest := props.total.value - UnownedSum(cs, a, props.id) - props.spacing.value * (|cs| as real - 1.0);
    DivCancels(rest, |OwnedPart(cs, a, props.id)| as real);
  }

  /** With the spacing only, the derived total is what the known sizes and the n - 1 gaps take up. */
  lemma SpacingOnlyFills(props: DistributeProps, cs: seq<ChildView>, a: Axis, each: real)
    requires SizesKnown(cs, a, props.id) && TotalOnlyDivisible(props, cs, a)
    requires props.spacing.Some? && props.total.None? && |OwnedPart(cs, a, props.id)| == 0
    ensures FilledSum(cs, a, props.id, each) + props.spacing.value * (|cs| as real - 1.0)
            == SizingOf(props, cs, a).total
  {
    FilledSumSplit(cs, a, props.id, each);
  }

  /** With the total only, the derived gap makes the known sizes and the n - 1 gaps fill the total. */
  lemma TotalOnlyFills(props: DistributeProps, cs: seq<ChildView>, a: Axis, each: real)
    requires SizesKnown(cs, a, props.id) && TotalOnlyDivisible(props, cs, a)
    requires props.spacing.None? && props.total.Some? && |OwnedPart(cs, a, props.id)| == 0
    ensures FilledSum(cs, a, props.id, each) + SizingOf(props, cs, a).spacing * (|cs| as real - 1.0)
            == props.total.value
  {
    FilledSumSplit(cs, a, props.id, each);
    var n1 := |cs| as real - 1.0;
    var rest := props.total.value - UnownedSum(cs, a, props.id);
    assert SizingOf(props, cs, a).spacing == rest / n1;
    DivCancels(rest, n1);
  }


  /** The size writes, one per owned child in order, each setting only its size to `each`. */
  function SizeWrites(owned: seq<ChildView>, a: Axis, distId: string, each: real): (ws: seq<Request>)
    ensures |ws| == |owned|
    ensures forall i :: 0 <= i < |owned| ==> ws[i] == SetSmart(owned[i].id, SizeBox(a, each), distId)
    decreases |owned|
  {
    if owned == [] then []
    else SizeWrites(owned[..|owned| - 1], a, distId, each) + [SetSmart(owned[|owned| - 1].id, SizeBox(a, each), distId)]
  }

  // ----- Placement -----

  /**
   * findIndex of the fixed child: the first child another component has
   * already placed on the axis.
   */
  function FixedIndex(cs: seq<ChildView>, a: Axis, distId: string): (k: Option<nat>)
    ensures k.Some? ==> k.value < |cs| && Pinned(cs[k.value], a, distId)
    ensures k.Some? ==> forall j :: 0 <= j < k.value ==> !Pinned(cs[j], a, distId)
    ensures k.None? ==> forall j :: 0 <= j < |cs| ==> !Pinned(cs[j], a, distId)
    decreases |cs|
  {
    if cs == [] then None
    else if Pinned(cs[0], a, distId) then Some(0)
    else
      var rest := FixedIndex(cs[1..], a, distId);
      assert forall j :: 1 <= j < |cs| ==> cs[1..][j - 1] == cs[j];
      if rest.Some? then Some(rest.value + 1) else None
  }

  /** The placement reads `size!` of every child, and `pos!` of the fixed one. */
  predicate PlacementDefined(boxes: seq<BBox>, a: Axis, k: Option<nat>) {
    && (forall i :: 0 <= i < |boxes| ==> Size(boxes[i], a).Some?)
    && (k.Some? ==> k.value < |boxes| && Pos(boxes[k.value], a).Some?)
  }

  /** The sum of the sizes of the first i boxes. */
  function PrefixSize(boxes: seq<BBox>, a: Axis, i: nat): real
    requires i <= |boxes|
    requires forall j :: 0 <= j < |boxes| ==> Size(boxes[j], a).Some?
  {
    if i == 0 then 0.0 else PrefixSize(boxes, a, i - 1) + Size(boxes[i - 1], a).value
  }

  /**
   * The starting offset: 0 with no fixed child; otherwise the fixed child's
   * position less the gaps and sizes of the k children before it, so that
   * the running offset reaches the fixed child at its current position.
   */
  function StartOffset(boxes: seq<BBox>, a: Axis, spacing: real, k: Option<nat>): real
    requires PlacementDefined(boxes, a, k)
  {
    if k.None? then 0.0
    else Pos(boxes[k.value], a).value - spacing * (k.value as real) - PrefixSize(boxes, a, k.value)
  }

  /**
   * The starting offset as the code computes it. The sizes before the fixed
   * child are summed with lodash's sumBy over `Object.entries` pairs by the
   * key "height" (or "width"); the pairs have no such key, so for k > 0 the
   * sum is undefined and the offset is NaN, written here as None.
   */
  function StartOffsetAsWritten(boxes: seq<BBox>, a: Axis, spacing: real, k: Option<nat>): Option<real>
    requires PlacementDefined(boxes, a, k)
  {
    if k.None? then Some(0.0)
    else if k.value == 0 then Some(Pos(boxes[0], a).value - spacing * 0.0 - 0.0)
    else None
  }

  /** The running offset `y` (or `x`) before child i: it grows by each child's size plus the gap. */
  function OffsetAt(boxes: seq<BBox>, a: Axis, spacing: real, start: real, i: nat): real
    requires i <= |boxes|
    requires forall j :: 0 <= j < |boxes| ==> Size(boxes[j], a).Some?
  {
    if i == 0 then start else OffsetAt(boxes, a, spacing, start, i - 1) + Size(boxes[i - 1], a).value + spacing
  }

  /** The running offset in closed form: the start, the earlier sizes and i gaps. */
  lemma {:induction false} OffsetClosedForm(boxes: seq<BBox>, a: Axis, spacing: real, start: real, i: nat)
    requires i <= |boxes|
    requires forall j :: 0 <= j < |boxes| ==> Size(boxes[j], a).Some?
    ensures OffsetAt(boxes, a, spacing, start, i) == start + PrefixSize(boxes, a, i) + spacing * (i as real)
  {
    if i > 0 {
      OffsetClosedForm(boxes, a, spacing, start, i - 1);
      assert spacing * (i as real) == spacing * ((i - 1) as real) + spacing;
    }
  }

  /** With the starting offset above, the running offset reaches the fixed child exactly at its current position. */
  lemma FixedChildStaysPut(boxes: seq<BBox>, a: Axis, spacing: real, k: nat)
    requires PlacementDefined(boxes, a, Some(k))
    ensures OffsetAt(boxes, a, spacing, StartOffset(boxes, a, spacing, Some(k)), k) == Pos(boxes[k], a).value
  {
    OffsetClosedForm(boxes, a, spacing, StartOffset(boxes, a, spacing, Some(k)), k);
  }

  /** The two offsets agree when there is no fixed child or it is the first one. */
  lemma StartOffsetAgrees(boxes: seq<BBox>, a: Axis, spacing: real, k: Option<nat>)
    requires PlacementDefined(boxes, a, k)
    requires k.None? || k.value == 0
    ensures StartOffsetAsWritten(boxes, a, spacing, k) == Some(StartOffset(boxes, a, spacing, k))
  {
  }

  /**
   * The discrepancy: with two children of height 10 and the second one
   * placed at top 50 by another component, the code's starting offset is
   * NaN, while the intended one is 50 - 5 - 10 = 35, which puts the second
   * child back at 50.
   */
  lemma StartOffsetAsWrittenIsNaN()
    ensures var boxes := [BBox(None, Some(0.0), None, Some(10.0)), BBox(None, Some(50.0), None, Some(10.0))];
            && StartOffsetAsWritten(boxes, Vertical, 5.0, Some(1)).None?
            && StartOffset(boxes, Vertical, 5.0, Some(1)) == 35.0
            && OffsetAt(boxes, Vertical, 5.0, 35.0, 1) == 50.0
  {
  }

  /** The placement writes for the first i children: every child but the fixed one is moved to its offset. */
  function PlaceWrites(cs: seq<ChildView>, boxes: seq<BBox>, a: Axis, distId: string, fixedId: Option<string>,
                       spacing: real, start: real, i: nat): seq<Request>
    requires i <= |cs| == |boxes|
    requires forall j :: 0 <= j < |boxes| ==> Size(boxes[j], a).Some?
  {
    if i == 0 then []
    else
      PlaceWrites(cs, boxes, a, distId, fixedId, spacing, start, i - 1)
      + (if Some(cs[i - 1].id) != fixedId
         then [PlaceAt(cs, boxes, a, distId, spacing, start, i - 1)]
         else [])
  }

  /** The placement write for child j: its position on the axis becomes its running offset. */
  function PlaceAt(cs: seq<ChildView>, boxes: seq<BBox>, a: Axis, distId: string, spacing: real, start: real, j: nat): Request
    requires j < |cs| == |boxes|
    requires forall i :: 0 <= i < |boxes| ==> Size(boxes[i], a).Some?
  {
    SetSmart(cs[j].id, PosBox(a, OffsetAt(boxes, a, spacing, start, j)), distId)
  }

  /** Every placement write moves a child other than the fixed one to its running offset, setting nothing else. */
  lemma {:induction false} PlaceWritesSound(cs: seq<ChildView>, boxes: seq<BBox>, a: Axis, distId: string,
                                            fixedId: Option<string>, spacing: real, start: real, i: nat)
    requires i <= |cs| == |boxes|
    requires forall j :: 0 <= j < |boxes| ==> Size(boxes[j], a).Some?
    ensures forall w :: w in PlaceWrites(cs, boxes, a, distId, fixedId, spacing, start, i) ==>
      Some(w.target) != fixedId && exists j :: 0 <= j < i && w == PlaceAt(cs, boxes, a, distId, spacing, start, j)
  {
    if i > 0 {
      PlaceWritesSound(cs, boxes, a, distId, fixedId, spacing, start, i - 1);
      var prev := PlaceWrites(cs, boxes, a, distId, fixedId, spacing, start, i - 1);
      var ws := PlaceWrites(cs, boxes, a, distId, fixedId, spacing, start, i);
      forall w | w in ws
        ensures Some(w.target) != fixedId && exists j :: 0 <= j < i && w == PlaceAt(cs, boxes, a, distId, spacing, start, j)
      {
        if w !in prev {
          assert w == PlaceAt(cs, boxes, a, distId, spacing, start, i - 1);
        }
      }
    }
  }

  /** Every child other than the fixed one gets its placement write. */
  lemma {:induction false} PlaceWritesComplete(cs: seq<ChildView>, boxes: seq<BBox>, a: Axis, distId: string,
                                               fixedId: Option<string>, spacing: real, start: real, i: nat)
    requires i <= |cs| == |boxes|
    requires forall j :: 0 <= j < |boxes| ==> Size(boxes[j], a).Some?
    ensures forall j :: 0 <= j < i && Some(cs[j].id) != fixedId ==>
      PlaceAt(cs, boxes, a, distId, spacing, start, j) in PlaceWrites(cs, boxes, a, distId, fixedId, spacing, start, i)
  {
    if i > 0 {
      PlaceWritesComplete(cs, boxes, a, distId, fixedId, spacing, start, i - 1);
      var prev := PlaceWrites(cs, boxes, a, distId, fixedId, spacing, start, i - 1);
      var ws := PlaceWrites(cs, boxes, a, distId, fixedId, spacing, start, i);
      assert forall w :: w in prev ==> w in ws;
    }
  }

  // ----- The box on the cross axis -----

  function CrossPositions(after: seq<BBox>, a: Axis): seq<real>
    requires forall i :: 0 <= i < |after| ==> Pos(after[i], a).Some?
  {
    seq(|after|, i requires 0 <= i < |after| => Pos(after[i], a).value)
  }

  function CrossEnds(after: seq<BBox>, a: Axis): seq<real>
    requires forall i :: 0 <= i < |after| ==> Pos(after[i], a).Some? && Size(after[i], a).Some?
  {
    seq(|after|, i requires 0 <= i < |after| => Pos(after[i], a).value + Size(after[i], a).value)
  }

  /**
   * The position and size of the box on the cross axis `a`, from the
   * children's boxes after the writes: the least position if every child
   * has one (lodash's _.min, undefined for no children), and the greatest
   * end minus it if every child also has a size.
   */
  function CrossBox(after: seq<BBox>, a: Axis): (r: (Option<real>, Option<real>))
    ensures r.0.Some? <==> |after| > 0 && forall i :: 0 <= i < |after| ==> Pos(after[i], a).Some?
    ensures r.0.Some? ==> forall i :: 0 <= i < |after| ==> r.0.value <= Pos(after[i], a).value
    ensures r.0.Some? ==> exists i :: 0 <= i < |after| && r.0.value == Pos(after[i], a).value
    ensures r.1.Some? <==> r.0.Some? && forall i :: 0 <= i < |after| ==> Size(after[i], a).Some?
    ensures r.1.Some? ==> forall i :: 0 <= i < |after| ==>
      Pos(after[i], a).value + Size(after[i], a).value <= r.0.value + r.1.value
    ensures r.1.Some? ==>
      exists i :: 0 <= i < |after| && Pos(after[i], a).value + Size(after[i], a).value == r.0.value + r.1.value
  {
    if |after| == 0 || exists i :: 0 <= i < |after| && Pos(after[i], a).None? then (None, None)
    else
      var lo := MinOf(CrossPositions(after, a));
      assert forall i :: 0 <= i < |after| ==> CrossPositions(after, a)[i] == Pos(after[i], a).value;
      if exists i :: 0 <= i < |after| && Size(after[i], a).None? then (Some(lo), None)
      else
        var hi := MaxOf(CrossEnds(after, a));
        assert forall i :: 0 <= i < |after| ==> CrossEnds(after, a)[i] == Pos(after[i], a).value + Size(after[i], a).value;
        (Some(lo), Some(hi - lo))
  }

  // ----- The callback -----

  /** What the source demands for its `!` reads and its division, on the axis of `props.direction`. */
  predicate WellDefined(props: DistributeProps, cs: seq<ChildView>, boxes: seq<BBox>) {
    AxisOf(props.direction).Some? ==>
      var a := AxisOf(props.direction).value;
      && SizesKnown(cs, a, props.id)
      && TotalOnlyDivisible(props, cs, a)
      && (SizingOf(props, cs, a).Spread? ==> PlacementDefined(boxes, a, FixedIndex(cs, a, props.id)))
  }

  /** The box returned when the sizes are not all known: position and size 0 on the axis, empty translate. */
  function UnresolvedResult(a: Axis): LayoutResult {
    if a == Vertical then LayoutResult(BBox(None, Some(0.0), None, Some(0.0)), EmptyTransform)
    else LayoutResult(BBox(Some(0.0), None, Some(0.0), None), EmptyTransform)
  }

  /**
   * The returned box and translate: position `start` and size `total` on
   * the axis, the cross box on the other. The vertical branch defaults a
   * missing translate component to 0, the horizontal one leaves it
   * undefined.
   */
  function SpreadResult(props: DistributeProps, a: Axis, start: real, total: real, cross: (Option<real>, Option<real>)): LayoutResult {
    if a == Vertical then
      LayoutResult(BBox(cross.0, Some(start), cross.1, Some(total)),
                   Transform(Translate(if props.x.Some? && cross.0.Some? then Some(props.x.value - cross.0.value) else Some(0.0),
                                       if props.y.Some? then Some(props.y.value - start) else Some(0.0))))
    else
      LayoutResult(BBox(Some(start), cross.0, Some(total), cross.1),
                   Transform(Translate(if props.x.Some? then Some(props.x.value - start) else None,
                                       if props.y.Some? && cross.0.Some? then Some(props.y.value - cross.0.value) else None)))
  }

  /** The sizing pass: each owned child, in order, is asked for size `each` on the axis. */
  method SizeChildren(owned: seq<ChildView>, a: Axis, distId: string, each: real) returns (writes: seq<Request>)
    ensures writes == SizeWrites(owned, a, distId, each)
  {
    writes := [];
    var j := 0;
    while j < |owned|
      invariant 0 <= j <= |owned|
      invariant writes == SizeWrites(owned[..j], a, distId, each)
    {
      assert owned[..j + 1][..j] == owned[..j];
      writes := writes + [SetSmart(owned[j].id, SizeBox(a, each), distId)];
      j := j + 1;
    }
    assert owned[..|owned|] == owned;
  }

  /**
   * The placement pass: a running offset starts at `start` and grows by
   * each child's size and the gap; every child but the fixed one is moved
   * to it.
   */
  method PlaceChildren(cs: seq<ChildView>, boxes: seq<BBox>, a: Axis, distId: string, fixedId: Option<string>,
                       spacing: real, start: real) returns (writes: seq<Request>)
    requires |cs| == |boxes|
    requires forall j :: 0 <= j < |boxes| ==> Size(boxes[j], a).Some?
    ensures writes == PlaceWrites(cs, boxes, a, distId, fixedId, spacing, start, |cs|)
  {
    writes := [];
    var y := start;
    var i := 0;
    while i < |cs|
      invariant 0 <= i <= |cs|
      invariant y == OffsetAt(boxes, a, spacing, start, i)
      invariant writes == PlaceWrites(cs, boxes, a, distId, fixedId, spacing, start, i)
    {
      if Some(cs[i].id) != fixedId {
        writes := writes + [SetSmart(cs[i].id, PosBox(a, y), distId)];
      }
      y := y + Size(boxes[i], a).value + spacing;
      i := i + 1;
    }
  }

  /**
   * Distribute's layout callback. `cs` holds, per child in order, the node
   * as getNode gives it (box and owner records); `boxes` the boxes getBBox
   * gives once the size writes are made; `after` the boxes read once all
   * writes are made. Both later reads depend on setSmartBBox.
   */
  method DistributeLayout(props: DistributeProps, cs: seq<ChildView>, boxes: seq<BBox>, after: seq<BBox>)
    returns (writes: seq<Request>, r: Result<LayoutResult, DistributeError>)
    requires |boxes| == |cs| && |after| == |cs|
    requires WellDefined(props, cs, boxes)
    ensures AxisOf(props.direction).None? ==> writes == [] && r == Failure(InvalidDirection)
    ensures AxisOf(props.direction).Some? ==>
      var a := AxisOf(props.direction).value;
      var sizing := SizingOf(props, cs, a);
      && (sizing.BadOptions? ==> writes == [] && r == Failure(InvalidOptions))
      && (sizing.Unresolvable? ==> writes == [] && r == Success(UnresolvedResult(a)))
      && (sizing.Spread? ==>
            var owned := OwnedPart(cs, a, props.id);
            var k := FixedIndex(cs, a, props.id);
            var fixedId := if k.Some? then Some(cs[k.value].id) else None;
            var start := StartOffset(boxes, a, sizing.spacing, k);
            && writes == (if props.spacing.Some? && props.total.Some? && |owned| > 0
                          then SizeWrites(owned, a, props.id, EachSize(props, cs, a)) else [])
                         + PlaceWrites(cs, boxes, a, props.id, fixedId, sizing.spacing, start, |cs|)
            && r == Success(SpreadResult(props, a, start, sizing.total, CrossBox(after, Cross(a)))))
  {
    writes := [];
    var axis := AxisOf(props.direction);
    if axis.None? {
      return [], Failure(InvalidDirection);
    }
    var a := axis.value;
    var sizing := SizingOf(props, cs, a);
    if sizing.BadOptions? {
      return [], Failure(InvalidOptions);
    }
    if sizing.Unresolvable? {
      return [], Success(UnresolvedResult(a));
    }
    var owned := OwnedPart(cs, a, props.id);
    var sizeWrites := [];
    if props.spacing.Some? && props.total.Some? && |owned| > 0 {
      sizeWrites := SizeChildren(owned, a, props.id, EachSize(props, cs, a));
    }
    var k := FixedIndex(cs, a, props.id);
    var fixedId := if k.Some? then Some(cs[k.value].id) else None;
    var start := StartOffset(boxes, a, sizing.spacing, k);
    var placeWrites := PlaceChildren(cs, boxes, a, props.id, fixedId, sizing.spacing, start);
    writes := sizeWrites + placeWrites;
    r := Success(SpreadResult(props, a, start, sizing.total, CrossBox(after, Cross(a))));
  }
}
