# Aggregation stage of the grouped row model

This project models the aggregation stage of ag-Grid Enterprise's in-memory row
model (`src/rowStages/aggregationStage.ts`) and proves what it computes.

The stage runs after the row tree has been grouped. It walks the tree post-order
and, at every group node, works out that group's aggregate row data. Each group
is handled in one of four ways:

- a user-supplied `groupRowAggNodes` override computes the result;
- with no value columns, the result is `null`;
- without pivoting, there is one cell per value column. A cell reduces the
  children's values: a child group's already-computed cell, or a leaf row's
  value from the value service;
- with pivoting, there is one cell per pivot column definition:
  - a leaf group follows the definition's key path through its `childrenMapped`
    buckets and reduces the values of the rows it finds;
  - any other group reduces its children's cells for the same column.

The result object becomes the group's `data`. If the group has a footer row
(`sibling`), the footer gets the same object. Reducers are either looked up by
name in the registry (`sum`, `first`, `last`, `min`, `max`) or supplied as
functions. A reference that cannot be called yields `null`.

Modules:

- `Values` (`values.dfy`): cell values. A JavaScript number is an exact integer.
  `Null` and `Undefined` are kept apart, as the source keeps them apart.
- `AggFunctions` (`agg_functions.dfy`): the five reducers and name resolution.
  - Each reducer is a specification function (`SumOf`, `MinOf`, `MaxOf`,
    `FirstOf`, `LastOf`).
  - The `sum`/`min`/`max` loops are methods proved equal to those functions.
  - Lemmas cover:
    - what each reducer means;
    - how `sum`, `min` and `max` distribute over concatenation, which is what
      makes reading child aggregates correct.
- `AggregationStage` (`aggregation_stage.dfy`): the stage itself.
  - `RowNode` and `RowData` are classes. The stage writes only `data`, so that
    is the only mutable field.
  - `RowData` also carries a ghost `owner`: the group the stage built the object
    for. It exists only in the proofs and lets them state, node by node, that
    no two groups share a result object.
  - The walk, the dispatch and the three value gatherers are methods, each proved
    against ghost functions that specify a node's cells (`AggCells`).
  - `Execute` ends with every group and footer holding the cells those functions
    prescribe.
- `AggregationProperties` (`aggregation_properties.dfy`): properties of whole
  subtrees.
  - For `sum`, `min` and `max`, a group's cell (built only from its children's
    cells) equals the reducer applied to every value below the group. This holds
    both flat and pivoted.
  - Also: the shape of the result object, how key paths behave, and a worked
    two-level pivot example.

## Model

| member | source | states |
|---|---|---|
| AggFunctions.Sum | src/rowStages/aggregationStage.ts:196-209 | The accumulator loop returns `SumOf(input)`: Null when no element is a number, otherwise the total of the numeric elements. |
| AggFunctions.SumOfSnoc | src/rowStages/aggregationStage.ts:199-207 | One loop step: a numeric element seeds the result when it is still Null and is added to it otherwise; any other element leaves it as it is. |
| AggFunctions.SumOfMeaning | src/rowStages/aggregationStage.ts:196-209 | `sum` is Null exactly when no element is a number. Otherwise it is the number that a head-first sum over the numeric elements gives (`NumericTotal`, defined independently). |
| AggFunctions.NumericTotalIsTotal | src/rowStages/aggregationStage.ts:196-209 | Seeding with the first number and then adding gives the same total as an independent head-first sum. |
| AggFunctions.NumbersAreNumericElements | src/rowStages/aggregationStage.ts:200 | The elements the reducers keep are exactly the numeric elements of the input. The kept list is empty exactly when no element is numeric. |
| AggFunctions.Min | src/rowStages/aggregationStage.ts:227-240 | The loop returns `MinOf(input)`. |
| AggFunctions.MinOfSnoc | src/rowStages/aggregationStage.ts:230-238 | One loop step: a numeric element seeds a Null result and replaces a larger one; anything else is skipped. |
| AggFunctions.MinOfMeaning | src/rowStages/aggregationStage.ts:227-240 | `min` is Null exactly when no element is a number. Otherwise it is one of the numeric elements and no numeric element is smaller. |
| AggFunctions.MinimumIsLeast | src/rowStages/aggregationStage.ts:234-236 | The running minimum of a non-empty list of numbers is an element of the list and a lower bound of it. |
| AggFunctions.Max | src/rowStages/aggregationStage.ts:242-255 | The loop returns `MaxOf(input)`. |
| AggFunctions.MaxOfSnoc | src/rowStages/aggregationStage.ts:245-253 | One loop step: a numeric element seeds a Null result and replaces a smaller one; anything else is skipped. |
| AggFunctions.MaxOfMeaning | src/rowStages/aggregationStage.ts:242-255 | `max` is Null exactly when no element is a number. Otherwise it is one of the numeric elements and no numeric element is larger. |
| AggFunctions.MaximumIsGreatest | src/rowStages/aggregationStage.ts:249-251 | The running maximum of a non-empty list of numbers is an element of the list and an upper bound of it. |
| AggFunctions.SumOfConcat | src/rowStages/aggregationStage.ts:196-209 | `sum` over two pieces joined equals `sum` of the two partial sums. Null partials are skipped. |
| AggFunctions.MinOfConcat | src/rowStages/aggregationStage.ts:227-240 | `min` over two pieces joined equals `min` of the two partial minima. |
| AggFunctions.MaxOfConcat | src/rowStages/aggregationStage.ts:242-255 | `max` over two pieces joined equals `max` of the two partial maxima. |
| AggFunctions.NumericResult | src/rowStages/aggregationStage.ts:196-255 | `sum`, `min` and `max` return a number or Null, and reducing that result again on its own returns it unchanged. |
| AggFunctions.NumericRollup | src/rowStages/aggregationStage.ts:155-158 | For `sum`, `min` and `max`, reducing the parts' results equals reducing all parts joined. This is why a group may aggregate its child groups' aggregates. |
| AggFunctions.FirstLastSelect | src/rowStages/aggregationStage.ts:211-225 | `first` returns the element in front and `last` the element at the back, whatever its kind. |
| AggFunctions.FirstLastAsWrittenOnEmpty | src/rowStages/aggregationStage.ts:211-225 | As written, an empty input makes `first` and `last` return undefined. `first` never reaches its `null` branch: it returns Null only when the first element is Null. |
| AggFunctions.FirstLastCorrected | src/rowStages/aggregationStage.ts:211-225 | With the intended guard, `first`/`last` agree with the source on every non-empty input and return Null on the empty one, as `sum` does. |
| AggFunctions.RegistryNames | src/rowStages/aggregationStage.ts:194-261 | Aggregating with each of the five registry names applies that reducer. For `first` and `last` this is the corrected reducer, which gives Null where the code gives undefined (see Left out). |
| AggFunctions.ResolutionOutcomes | src/rowStages/aggregationStage.ts:169-186 | A supplied function is called with the values unchanged. A reference that cannot be called, and a name missing from the registry, both give Null. |
| AggFunctions.Invoke | src/rowStages/aggregationStage.ts:184-185 | Calling a resolved reducer returns what that reducer specifies for the values. |
| AggFunctions.AggregateValues | src/rowStages/aggregationStage.ts:169-186 | Returns the resolved reducer applied to the values, and Null whenever resolution finds nothing callable. |
| AggregationStage.Execute | src/rowStages/aggregationStage.ts:27-39 | With a node-child-details function, nothing in the tree changes. Otherwise every group under the root, and every footer, ends holding exactly the result its dispatch prescribes. When the stage computes cells itself, every visited group holds a newly allocated result object, and no two of them share one. |
| AggregationStage.RecursivelyCreateAggData | src/rowStages/aggregationStage.ts:41-51 | Post-order walk: once it returns, the node and every group below it (with their footers) are aggregated. It writes only those nodes. When the stage computes cells itself, every visited group holds a newly allocated result object, and no two of them share one. |
| AggregationStage.AggregateChildSubtree | src/rowStages/aggregationStage.ts:44-48 | Aggregating one child group's subtree leaves the earlier children's subtrees aggregated and their result objects untouched, because footprints are disjoint. The child's own groups get newly allocated result objects. |
| AggregationStage.AggregateAfterChildren | src/rowStages/aggregationStage.ts:50 | With every child group's subtree aggregated, aggregating the node completes its subtree. The node gets a newly allocated result object, and the groups below keep theirs. |
| AggregationStage.AggregateRowNode | src/rowStages/aggregationStage.ts:53-77 | Dispatch, first match wins: override result, else `null` without value columns, else value cells, else pivot cells. The node's `data` is then that object, and so is its footer's. Only these two nodes are written. In the computing branches the child groups must already hold their cells, and the object is newly allocated and built for this node. |
| AggregationStage.AggregateRowNodeUsingValuesAndPivot | src/rowStages/aggregationStage.ts:79-102 | Returns a fresh result object whose cells are the pivot cells of the node: one entry per pivot column id, each being the column's reducer applied to the leaf group's bucket values or to the children's cells. |
| AggregationStage.AggregateRowNodeUsingValuesOnly | src/rowStages/aggregationStage.ts:104-114 | Returns a fresh result object whose cells are the node's value cells: one entry per value column id, holding that column's reducer over the children's values. A later column with the same id wins. |
| AggregationStage.GetValuesPivotNonLeaf | src/rowStages/aggregationStage.ts:116-123 | One value per child, in child order: a child group's cell for the column (undefined when absent), or a leaf row's own field. |
| AggregationStage.GetValuesFromMappedSet | src/rowStages/aggregationStage.ts:125-140 | Follows the key path through the buckets. Nothing found gives the empty list; otherwise one value per bucket row, in bucket order. |
| AggregationStage.GetValuesNormal | src/rowStages/aggregationStage.ts:142-167 | One list per value column, each as long as the children and in child order. A child group contributes its cell for the column; a leaf row contributes its value from the value service. |
| AggregationProperties.WalkConcat | src/rowStages/aggregationStage.ts:127 | Following a key path in two pieces is following it at once. |
| AggregationProperties.WalkFromNothing | src/rowStages/aggregationStage.ts:127 | Once the pointer is empty, the remaining keys leave it empty. |
| AggregationProperties.MissingKeyGivesNoValues | src/rowStages/aggregationStage.ts:125-131 | A key missing at any depth of the path gives an empty value list. `sum`, `min` and `max` then return Null, as in the source. `first` and `last` as written return undefined; the corrected ones, which the model's registry uses, return Null. |
| AggregationProperties.BucketValues | src/rowStages/aggregationStage.ts:133-139 | A path that reaches a row list gives exactly one value per row, in the row list's order. |
| AggregationProperties.PathsResolveWithoutPivot | src/rowStages/aggregationStage.ts:64-65 | Without pivoting, no key path is followed, so the walk's requirement on key paths holds for every tree. |
| AggregationProperties.ValuesOnlyCellsAt | src/rowStages/aggregationStage.ts:109-111 | The result object holds a value column's aggregate under its id unless a later column reuses the id. |
| AggregationProperties.FlatRollup | src/rowStages/aggregationStage.ts:142-167 | Without pivoting, for `sum`/`min`/`max`, a group's cell equals the reducer over every leaf row value below it, in display order, even though each group reads only its children. |
| AggregationProperties.PivotCellsAt | src/rowStages/aggregationStage.ts:97 | The result object holds a pivot column's aggregate under its id unless a later definition reuses the id. |
| AggregationProperties.PivotRollup | src/rowStages/aggregationStage.ts:79-102 | With pivoting, for `sum`/`min`/`max`, a group's pivot cell equals the reducer over every bucket row that the column's key path reaches in the leaf groups below it. |
| AggregationProperties.ValuesOnlyCellsKeys | src/rowStages/aggregationStage.ts:109-111 | After k value columns, the result's keys are exactly those columns' ids. |
| AggregationProperties.PivotCellsKeys | src/rowStages/aggregationStage.ts:83-99 | After k pivot column definitions, the result's keys are exactly their ids. |
| AggregationProperties.AggCellsKeys | src/rowStages/aggregationStage.ts:64-67 | Without pivoting, the result has one entry per value column id. With pivoting, it has one per pivot column id and no value column ids. |
| AggregationProperties.PivotExampleLeaf | src/rowStages/aggregationStage.ts:88-91 | A leaf group with buckets A → [2, 3] and B → [5], summed, holds 5 in both pivot cells. |
| AggregationProperties.PivotExample | src/rowStages/aggregationStage.ts:92-95 | That group's parent reads the two cells from its only child and holds the same 5 and 5. |

## Left out

- Dependency injection (`@Bean`, `@Autowired`), the grid options wrapper, the column controller and the pivot service are not modelled. What they would return is passed in as `Env`: the node-child-details flag, the optional override, the value columns, the pivot columns and the pivot column definitions.
- Leaf-row values are not modelled. The value service (`getValueUsingSpecificData` and `getValue`) is one abstract function `Env.getValue`. A leaf row's own record, read by `getValuesPivotNonLeaf`, is the abstract `Env.rowField`. Neither can look at or change the heap.
- AggregationStage.AggregateRowNode: the override `groupRowAggNodes` is modelled as a pure function of the child list. It cannot read the children's `data`, so in that branch the children-first order of the walk is not observable. It cannot allocate, so no freshness is claimed for its result. It cannot change the tree.
- AggFunctions.Apply: on an empty input, `first` and `last` give Null, following the corrected reducers; the code gives undefined. This affects `AggFunctions.RegistryNames`, `AggregationProperties.MissingKeyGivesNoValues`, and the stage's cells that use `first` or `last`. One example is a pivot cell whose key path is missing, which stores undefined in the source. Cells built from such a cell by `getValuesPivotNonLeaf` are affected too.
- The `console.error` report for an unresolvable reducer is not modelled; only the `null` result is.
- Floating point is not modelled. Numbers are exact integers, so NaN, infinities and rounding in `+=` are outside the model.
- Lookups of names inherited from JavaScript's object prototype are not modelled:
  - a registry name such as `toString`: the source would find and call such a function; the model finds no reducer;
  - a column or cell id such as `constructor` read from a result object (`Lookup`): the source would find the inherited member; the model finds nothing and gives undefined.
- Key paths are not fully modelled. A key path that ends on a nested bucket map makes the source call `forEach` on a plain object and throw. The walk (`RecursivelyCreateAggData`, `Execute`) therefore requires that every pivot key path ends on a row list or on nothing (`PathsResolve`).
- Array-index keys such as `"0"` or `"length"`, applied to a bucket that is a row list, are not modelled. A key applied to a row list finds nothing.
- Building the group tree, `childrenAfterFilter` and the `childrenMapped` buckets is not modelled: these are given, fixed inputs. The tree invariant `RowNode.Valid` also demands:
  - disjoint footprints for sibling groups;
  - a footer outside the child groups' footprints.
- Reducers supplied as functions are modelled as pure functions of the values.
- `FlatRollup` and `PivotRollup` are stated for `sum`, `min` and `max` only. `first`, `last` and supplied functions do not in general compose across levels, and nothing is claimed for them.
- `dist/lib/toolPanel/columnDrop/abstractColumnDropPanel.d.ts` is not part of this model. It holds only declarations for a user-interface panel.

The model follows the code everywhere except one place. On an empty input, `first` and `last` are modelled twice (see Findings), and the registry and the stage use the corrected version.

## Findings

| source | as written | input that shows it | evidently intended | confidence | as-written member | corrected member |
|---|---|---|---|---|---|---|
| src/rowStages/aggregationStage.ts:211-225 | `first` and `last` guard with `input.length >= 0`, which always holds. The `null` branch is dead, and an empty input returns `input[0]` / `input[-1]`, i.e. undefined. | `[]` | Return `null` on an empty input (guard `length > 0`), as `sum`, `min` and `max` do | not executed | AggFunctions.FirstLastAsWrittenOnEmpty | AggFunctions.FirstLastCorrected |
