# Bluefish scenegraph store and layout operators, in Dafny

This project models the core of Bluefish, a diagramming library. Every
shape and every layout operator is a node of a shared **scenegraph**. A
node holds an intrinsic bounding box (`left`, `top`, `width`, `height`,
each possibly undefined) and a transform (`translate.x`, `translate.y`).
Alongside each field it records an **owner**. A box field's owner is the
first component to write a truthy value to it. A truthy write by another
component to an owned box field is refused, and the refusal is atomic: the
whole write is dropped and nothing changes. A write of `0` is neither
checked nor claimed.

In `solidBBoxStore.ts`, translate owners are recorded too, but never
enforced. Each truthy write to `translate.x` or `translate.y` makes its writer the owner,
so the owner is the last truthy writer, and no translate write is refused.
The list of notable behaviours below gives the details.

The model covers:

- **The two box stores.**
  - `bboxStore.ts` holds a node object that is updated in place. It is the
    class `BBoxStore.ScenegraphNode`.
  - `solidBBoxStore.ts` holds a keyed table of node records. It is the
    class `SolidBBoxStore.Scenegraph`, a map reassigned by `CreateNode` and
    `SetBBox`, over the pure node updater `SolidBBoxStore.UpdateNode`.
  - The merge (`mergeObjects`), the first-conflict check and the owner
    claim are shared by both stores. They live once, in `Geometry` and
    `Ownership`.
- **Four layout operators.** Row, Group, Align (with `splitAlignment`) and
  Distribute each become a callback. It receives the children's current
  state as values and returns two things:
  - the writes it issues to the store, in order;
  - the box and translate it reports for itself.

  The loops of Row, Align and Distribute are methods with loop invariants.
  Each is proved equal to a specification function, and the lemmas
  establish what those functions mean. For example:
  - every movable child gets a write that puts its aligned edge on the
    reference value;
  - Distribute's sizes and gaps fill the requested total;
  - with the corrected starting offset (see Findings), the fixed child of
    a Distribute stays where it is.
- **The two todo stores** (`TodoStore.ts`, `ObservableTodoStore.ts`). These
  are classes over a `seq` of todos. The counting and report logic they
  share is in `Todos`.

Conventions used throughout:

- Numbers are `real`, and JavaScript `undefined` is `None`.
- A number is truthy when it is defined and not 0. NaN is not modelled.
- Thrown errors are `Result.Failure` or an `Option` error value.
- The layout callbacks call `setSmartBBox`, `getBBox` and `getNode`. These
  are defined outside the modelled files and reach the operators through
  `useScenegraph`, imported from `./solidBBoxStore`. Calls to them appear as
  **requests**.
  - `SetNode(...)` is a write through the store's `setBBox`.
  - `SetSmart(...)` is a reconciling write through `setSmartBBox`.
  - Boxes read after a write arrive as a separate snapshot parameter.

Notable behaviours of the code, which the model keeps:

- A conflict throws an `Error` instead of being logged and skipped.
- The field checks use JavaScript truthiness, so a write of `0` is neither
  checked nor claimed. Writing 0 over another component's value succeeds.
- Translate ownership is recorded under top-level `x`/`y` keys of
  `transformOwners`. The checks read `transformOwners.translate.x/y`, which
  nothing fills, so translate writes are never refused.
- `createNode` on an existing id replaces the node. It does not keep the
  first one.
- There is no NaN guard.

## Model

| member | source | states |
|---|---|---|
| `Geometry.MergeBBox` | src/pages/api/solidBBoxStore.ts:25-40 | mergeObjects on boxes (identical to src/pages/api/bboxStore.ts:26-41): each key takes the incoming value when it is defined, and keeps the current one otherwise |
| `Geometry.MergeTransform` | src/pages/api/solidBBoxStore.ts:152-155 | the transform merge is shallow: the whole `translate` object is replaced by the incoming one |
| `Ownership.BoxConflict` | src/pages/api/bboxStore.ts:58-90 | a write is refused exactly when some key has a truthy request value and an owner other than the writer; the reported conflict is the first such key in the order left, top, width, height |
| `Ownership.ClaimBox` | src/pages/api/solidBBoxStore.ts:135-141 | every key written with a truthy value becomes owned by the writer; every other key keeps its owner |
| `Ownership.AcceptedWriteKeepsOwnedValued` | src/pages/api/bboxStore.ts:92-101 | after an accepted write every owned field still holds a value (claims come with a value, and the merge never undefines one) |
| `Ownership.ForeignFieldKept` | src/pages/api/bboxStore.ts:57-101 | single-writer rule as coded: a field owned by another component keeps its owner through an accepted write, and keeps its value unless the write sent 0 |
| `Ownership.OwnRewritePasses` | src/pages/api/bboxStore.ts:58-90 | a writer that only writes fields it owns, or that nobody owns, is never refused |
| `Ownership.ZeroBypassesOwnership` | src/pages/api/bboxStore.ts:59-61 | concrete case: with left owned by "A", "B" writing left = 0 passes, stores 0, and "A" stays the owner |
| `BBoxStore.ScenegraphNode.constructor` | src/pages/api/bboxStore.ts:44-47 | a new node has an empty box and no owners |
| `BBoxStore.ScenegraphNode.SetBbox` | src/pages/api/bboxStore.ts:57-102 | a conflicting write returns the first conflict and changes nothing; otherwise the owners are claimed and the box merged; the invariant "owned fields hold values" is kept |
| `BBoxStore.ScenegraphNode.GetBbox` | src/pages/api/bboxStore.ts:104-106 | the getter returns the stored box |
| `BBoxStore.SingleWriterScenario` | src/pages/api/bboxStore.ts:74-81 | "rect" sets width 10; "row" setting width 20 is refused with that conflict and the node is unchanged; "rect" rewriting 30 succeeds |
| `SolidBBoxStore.UpdateNode` | src/pages/api/solidBBoxStore.ts:84-164 | the setBBox updater fails exactly when a box or translate check fails, and the error is the first failing check: a box conflict, then translate.x, then translate.y; on success it holds the merged box, the claimed owners, the supplied translate (or `{}`), and translate claims under `x`/`y` |
| `SolidBBoxStore.TranslateNeverConflicts` | src/pages/api/solidBBoxStore.ts:117-147 | because claims go to `x`/`y` while checks read `translate.x/y`, on a store node the updater fails exactly on a box conflict |
| `SolidBBoxStore.OwnRewriteAccepted` | src/pages/api/solidBBoxStore.ts:85-133 | a writer that writes only its own or unowned box fields always succeeds, whatever translate it sends |
| `SolidBBoxStore.UpdateKeepsValid` | src/pages/api/solidBBoxStore.ts:135-164 | an accepted update keeps the node invariant: translate owners empty, owned box fields valued |
| `SolidBBoxStore.TranslateClaimUnprotected` | src/pages/api/solidBBoxStore.ts:143-155 | concrete case: after "A" sets translate.x = 5, "B" is accepted both when it sends no transform (translate reset to `{}`) and when it sets translate.x = 7, which makes "B" the owner of `x` |
| `SolidBBoxStore.Scenegraph.constructor` | src/pages/api/solidBBoxStore.ts:60-63 | a new scenegraph is an empty table |
| `SolidBBoxStore.Scenegraph.CreateNode` | src/pages/api/solidBBoxStore.ts:65-76 | the entry at `id` becomes the empty node; the other entries are unchanged |
| `SolidBBoxStore.Scenegraph.SetBBox` | src/pages/api/solidBBoxStore.ts:78-166 | a missing id or a refused write is an error that leaves the table unchanged; an accepted write replaces only the entry at `id`, with the updater's result |
| `LayoutCommon.MaxOf` | src/pages/api/Group.tsx:21-26 | Math.max over a non-empty list: an element of the list that bounds every element from above |
| `LayoutCommon.MinOf` | src/pages/api/Group.tsx:18-20 | Math.min over a non-empty list: an element of the list that bounds every element from below |
| `LayoutCommon.UnionExtent` | src/pages/api/Group.tsx:18-39 | the edges of the union: every child's edges (undefined read as 0) lie within them, each edge is attained by some child, and with non-negative sizes left <= right and top <= bottom |
| `LayoutCommon.UnionExtentIsUnion` | src/pages/api/Group.tsx:18-46 | the box built from those edges is the least box containing every child's box |
| `LayoutCommon.UnionUnique` | src/pages/api/Group.tsx:18-46 | two boxes that are both the union of the same children are equal |
| `Group.GroupLayout` | src/pages/api/Group.tsx:16-57 | Group reports the union of its children's boxes and passes the props' x and y through as its translate |
| `Row.RowLayout` | src/pages/api/Row.tsx:17-57 | Row issues exactly the row writes; it reports left = top = 0, width = advance - spacing, height = the largest child height (0 for undefined), and the props' x and y as translate |
| `Row.RowWritesAt` | src/pages/api/Row.tsx:22-32 | one write per child present in the store, in order; that child's write puts its translate at x = the sum of (width ?? 0) + spacing over the present children before it, y = 0 |
| `Row.RowWritesShape` | src/pages/api/Row.tsx:26-28 | every Row write targets a child that has a node: a setBBox by the row of an empty box with a translate `{x, y: 0}` |
| `Row.AdvanceMonotone` | src/pages/api/Row.tsx:29 | with non-negative widths and spacing, posX never decreases along the row |
| `Row.RowWritesAccepted` | src/pages/api/Row.tsx:26-28 | every write Row issues to a store node is accepted, leaves its box unchanged and sets its translate to the written one |
| `Align.SplitAlignment` | src/pages/api/Align.tsx:54-102 | every two-dimensional alignment has a vertical and a horizontal part; a one-dimensional one has exactly the one of its axis |
| `Align.SplitAlignmentInjective` | src/pages/api/Align.tsx:54-102 | no two alignments split into the same pair of parts |
| `Align.ReferenceValue` | src/pages/api/Align.tsx:153-182 | the reference value is the edge value of the first child whose translate on the axis is not owned by this Align and whose edge value is defined (for bottom/right, the first such child whatever its value, since `top! + height!` is never undefined), or 0 when there is none; for bottom/right only that child needs a position and a size |
| `Align.AlignAxis` | src/pages/api/Align.tsx:218-241 | one axis loop produces exactly the axis writes: pinned children are skipped, and a centre-aligned child of unknown size is skipped |
| `Align.AlignWriteAligns` | src/pages/api/Align.tsx:225-240 | a child's write moves only its position on the axis, so that its aligned edge lands on the reference value; a movable child gets exactly one write |
| `Align.AxisWritesSound` | src/pages/api/Align.tsx:218-266 | every write of an axis loop aligns some child that is not pinned |
| `Align.AxisWritesComplete` | src/pages/api/Align.tsx:218-266 | every movable child gets a write that aligns it |
| `Align.BottomAlignUnplaced` | src/pages/api/Align.tsx:153-241 | concrete case: bottom-aligning a child without a position (height 4) to a placed child (top 0, height 10) takes reference 10 and writes top 0 and top 6 |
| `Align.AlignAggregate` | src/pages/api/Align.tsx:268-299 | Align reports the union of its children's boxes after the writes; its translate is `x - left` / `y - top` where the props give x / y, undefined otherwise |
| `Align.AlignLayout` | src/pages/api/Align.tsx:119-302 | the Align callback issues the vertical loop's writes, then the horizontal loop's, each against its reference value, and returns the aggregate of the same children as re-read after the writes |
| `Distribute.OwnedPartMembers` | src/pages/api/Distribute.tsx:27-32 | the children Distribute may size are exactly those whose size on the axis it owns or nobody owns |
| `Distribute.FilledSumSplit` | src/pages/api/Distribute.tsx:40-52 | giving every owned child size `each` adds `each` once per owned child to the sizes of the others |
| `Distribute.SizingOf` | src/pages/api/Distribute.tsx:34-99 | the three modes: neither spacing nor total is invalid options; spacing-only or total-only is unresolvable as soon as some child's size is owned by this Distribute or by nobody (even if that size is defined); otherwise the given spacing and total are kept |
| `Distribute.BothGivenFills` | src/pages/api/Distribute.tsx:37-52 | with spacing and total given, the owned children at their share, the others at their size and the n - 1 gaps add up to exactly the total |
| `Distribute.EachSizeFills` | src/pages/api/Distribute.tsx:45-49 | the shares of the owned children make up what the other sizes and the gaps leave of the total |
| `Distribute.SpacingOnlyFills` | src/pages/api/Distribute.tsx:53-75 | with spacing only, the derived total is the children's sizes plus n - 1 gaps |
| `Distribute.TotalOnlyFills` | src/pages/api/Distribute.tsx:76-96 | with total only, the derived spacing makes the sizes and n - 1 gaps fill the total |
| `Distribute.SizeWrites` | src/pages/api/Distribute.tsx:50-52 | one size write per owned child, in order, setting only its size on the axis |
| `Distribute.FixedIndex` | src/pages/api/Distribute.tsx:105-111 | the fixed child is the first child whose translate on the axis is owned by another component; none when there is no such child |
| `Distribute.OffsetClosedForm` | src/pages/api/Distribute.tsx:126-132 | the running offset before child i is the start plus the sizes of the children before it plus i gaps |
| `Distribute.FixedChildStaysPut` | src/pages/api/Distribute.tsx:113-132 | with the corrected starting offset, the running offset reaches the fixed child exactly at its current position |
| `Distribute.StartOffsetAgrees` | src/pages/api/Distribute.tsx:115-123 | with no fixed child, or with the first child fixed, the coded starting offset equals the corrected one |
| `Distribute.StartOffsetAsWrittenIsNaN` | src/pages/api/Distribute.tsx:115-123 | concrete case: with the second of two children fixed, the coded starting offset is NaN, while the corrected one puts that child back at its position |
| `Distribute.PlaceWritesSound` | src/pages/api/Distribute.tsx:126-132 | every placement write moves a child other than the fixed one to its running offset, setting nothing else |
| `Distribute.PlaceWritesComplete` | src/pages/api/Distribute.tsx:126-132 | every child other than the fixed one gets its placement write |
| `Distribute.CrossBox` | src/pages/api/Distribute.tsx:134-158 | cross-axis box: defined only when every child has a position (and a size), then the least position and the extent to the greatest far edge, both attained |
| `Distribute.SizeChildren` | src/pages/api/Distribute.tsx:50-52 | the sizing loop issues exactly the size writes |
| `Distribute.PlaceChildren` | src/pages/api/Distribute.tsx:126-132 | the placement loop issues exactly the placement writes |
| `Distribute.DistributeLayout` | src/pages/api/Distribute.tsx:18-341 | the Distribute callback: unknown direction and invalid options are errors without writes; unresolvable sizes give the zero box; otherwise it issues the size writes, then the placement writes, and reports start (the corrected StartOffset) and total on the axis, the cross box, and the translate (defaults 0 vertically, undefined horizontally) |
| `Todos.CompletedCount` | src/pages/api/TodoStore.ts:9-11 | the completed count is at most the number of todos |
| `Todos.CompletedCountIsCardinality` | src/pages/api/TodoStore.ts:9-11 | the count equals the number of positions that hold a completed todo |
| `Todos.CompletedCountAppend` | src/pages/api/TodoStore.ts:9-30 | appending a todo raises the count by one exactly when that todo is completed |
| `Todos.NextTask` | src/pages/api/TodoStore.ts:18 | the next task exists exactly when some todo is open, and it is the task of the first open todo |
| `Todos.NatToString` | src/pages/api/TodoStore.ts:20-21 | a number prints as a non-empty string of decimal digits without a leading zero |
| `Todos.NatToStringRoundTrip` | src/pages/api/TodoStore.ts:20-21 | the printed digits read back as the number |
| `Todos.Report` | src/pages/api/TodoStore.ts:13-23 | the report is `<none>` exactly when there are no todos; otherwise it names the next task (or `<none>`) and shows completed/total |
| `Todos.AllDone` | src/pages/api/TodoStore.ts:18-21 | the progress reads n/n exactly when every todo is completed, and then no next task is named |
| `TodoStore.TodoStore.constructor` | src/pages/api/TodoStore.ts:7 | a new store has no todos |
| `TodoStore.TodoStore.AddTodo` | src/pages/api/TodoStore.ts:25-30 | appends one open todo with the task; earlier todos are unchanged |
| `TodoStore.TodoStore.CompletedTodosCount` | src/pages/api/TodoStore.ts:9-11 | the getter counts the completed todos, at most their number |
| `TodoStore.TodoStore.Report` | src/pages/api/TodoStore.ts:13-23 | the store's report is `<none>` exactly when it is empty |
| `TodoStore.AddTodoKeepsCount` | src/pages/api/TodoStore.ts:9-30 | adding a todo leaves the completed count unchanged and makes the report non-empty |
| `TodoStore.TwoTasks` | src/pages/api/TodoStore.ts:18-30 | after adding "walk" and "shop", the count is 0 and the next task is "walk" |
| `ObservableTodoStore.Plain` | src/pages/api/ObservableTodoStore.ts:8-12 | the count and the report see each todo's completion flag and task, whatever its assignee |
| `ObservableTodoStore.ObservableTodoStore.constructor` | src/pages/api/ObservableTodoStore.ts:15-16 | a new store has no todos and no pending requests |
| `ObservableTodoStore.ObservableTodoStore.AddTodo` | src/pages/api/ObservableTodoStore.ts:45-50 | appends one open, unassigned todo; earlier todos and `pendingRequests` are unchanged |
| `ObservableTodoStore.ObservableTodoStore.CompletedTodosCount` | src/pages/api/ObservableTodoStore.ts:29-31 | the getter counts the completed todos, at most their number |
| `ObservableTodoStore.ObservableTodoStore.Report` | src/pages/api/ObservableTodoStore.ts:33-43 | the report is `<none>` exactly when there are no todos |
| `ObservableTodoStore.AddTodoKeepsCount` | src/pages/api/ObservableTodoStore.ts:29-50 | adding a todo leaves the completed count unchanged |

## Left out

- Reactivity and logging are not modelled: MobX `makeObservable`/`autorun`, Solid's `createStore` notifications, React hooks and `console.error`/`console.log`. The state changes are modelled without them.
- `Date.now` timing in Row, and the `paint` callbacks that render SVG, are left out. They have no effect on the store.
- `setSmartBBox`, `getBBox` and `getNode` are not part of this model. They are defined outside the modelled files and reach the operators through `useScenegraph` (Row.tsx:3, Group.tsx:3, Align.tsx:11, Distribute.tsx:3). The operators' calls to them are requests, and what they read back is a parameter.
- NaN and Infinity are outside the model. The callbacks therefore require that the inputs below, which would produce them, are absent. One NaN case is not excluded; see `Distribute.DistributeLayout` below:
  - a non-empty child list for Row, Group and Align (`Math.min`/`Math.max` of nothing is infinite);
  - for Align's bottom/right edges, a defined position and size of the first child whose translate the Align does not own (the reference, `top! + height!`), and a defined size of every child it does not skip as pinned (`height!`);
  - defined sizes wherever Distribute reads them with `!`, and, once the sizes are resolved, a fixed child with a position;
  - at least two children in total-only mode when every child's size is owned by another component (division by `n - 1`).
- Object key order and key collapse are not modelled. `Object.fromEntries`/`Object.entries` keep insertion order only for distinct, non-integer ids. The model takes child ids in the given order and assumes they are distinct.
- Align also returns `right` and `bottom` keys in its box. The model's box has only the four fields.
- Between writes, Align reads a child's size again (`getBBox` inside its loops). The model reads it from the snapshot taken before the writes, which is the same value unless `setSmartBBox` changes sizes.
- `Distribute.DistributeLayout`: when the fixed child is past index 0, the callback reports and places from the corrected `StartOffset`, where Distribute.tsx:115-123 (and 266-274) yield a NaN offset. The code as written is `StartOffsetAsWritten`, and `StartOffsetAsWrittenIsNaN` exhibits the difference (see Findings). With no fixed child, or with the first child fixed, the two agree (`StartOffsetAgrees`).
- lodash `sumBy` skips undefined terms. The model instead requires the summed sizes to be defined, as the `!` in the code asserts.
- The MobX annotations on `ObservableTodoStore`, and the log of its report on every change, are left out. They are wiring around the same list logic.

## Findings

| source | as written | input that shows it | evidently intended | confidence | as-written member | corrected member |
|---|---|---|---|---|---|---|
| src/pages/api/Distribute.tsx:115-123 | the starting offset subtracts `_.sumBy(Object.entries(childBBoxes).slice(0, k), "height")`; the entries are `[id, box]` pairs with no `height` key, so for k > 0 the sum is undefined and the offset is NaN (the same at lines 266-274 with `"width"`) | two children of height 10, spacing 5, the second one's translate owned by another component and its top at 50: the offset is NaN where 35 is meant | subtract the sizes of the k children before the fixed one, so that the fixed child keeps its position | not executed | `Distribute.StartOffsetAsWrittenIsNaN` | `Distribute.FixedChildStaysPut` |
