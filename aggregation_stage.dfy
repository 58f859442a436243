/** The aggregation row stage: a post-order walk over the grouped row tree
    that computes each group's aggregated data from its children (flat
    grouping) or from its pivot buckets and pivoted children (pivoting), and
    writes the same result object to the group and to its footer row. */
module AggregationStage {
  import opened Values
  import opened AggFunctions

  // ---------------------------------------------------------------------------
  // Data model
  // ---------------------------------------------------------------------------

  /** The object a group's `data` points at once aggregated: column id to
      value. A group and its footer hold the same object. */
  class RowData {
    var cells: map<string, Value>
    /** The group the stage built this object for (ghost: no such field
        exists at run time). */
    ghost const owner: RowNode

    constructor (ghost owner: RowNode)
      ensures cells == map[] && this.owner == owner
    {
      cells := map[];
      this.owner := owner;
    }
  }

  /** A leaf group's `childrenMapped`: nested maps from pivot key to bucket,
      ending in the rows of one pivot cell. */
  datatype Bucket = Rows(rows: seq<RowNode>) | Keys(buckets: map<string, Bucket>)

  datatype Column = Column(id: string, aggFunc: AggFuncRef)

  /** A pivot column definition: the output column id, the pivot key path of
      its cell, and the value column whose values it aggregates. */
  datatype PivotColumnDef = PivotColumnDef(colId: string, keys: seq<string>, valueColumn: Column)

  /** What the stage obtains from its collaborators. `getValue` is the value
      service on a leaf row; `rowField` reads a property of a leaf row's own
      record, which the stage never writes. */
  datatype Env = Env(
    nodeChildDetailsFunc: bool,
    groupRowAggNodes: Option<seq<RowNode> -> RowData?>,
    valueColumns: seq<Column>,
    pivotColumns: seq<Column>,
    pivotColumnDefs: seq<PivotColumnDef>,
    getValue: (Column, RowNode) -> Value,
    rowField: (RowNode, string) -> Value)

  /** A node of the row tree. The stage writes only `data`; everything else
      is fixed while it runs, so it is `const` here. */
  class RowNode {
    const group: bool
    const leafGroup: bool
    const childrenAfterFilter: seq<RowNode>
    const childrenMapped: Option<Bucket>
    /** The footer row of a group, if any. */
    const sibling: RowNode?
    var data: RowData?

    /** The footer and every group below this node, with their footers. */
    ghost const Below: set<RowNode>

    /** The nodes whose `data` aggregating this subtree writes. */
    ghost function Repr(): set<RowNode> {
      {this} + Below
    }

    /** The group tree is a tree: group children own disjoint footprints that
        hold neither this node nor its footer. */
    ghost predicate Valid()
      decreases Repr()
    {
      && this !in Below
      && (sibling != null ==> sibling in Below)
      && (forall c :: c in childrenAfterFilter && c.group ==>
            && c.Repr() <= Below
            && (sibling != null ==> sibling !in c.Repr())
            && c.Valid())
      && (forall i, j :: 0 <= i < j < |childrenAfterFilter| && childrenAfterFilter[i].group && childrenAfterFilter[j].group
            ==> childrenAfterFilter[i].Repr() !! childrenAfterFilter[j].Repr())
    }

    constructor (group: bool, leafGroup: bool, children: seq<RowNode>, mapped: Option<Bucket>, sibling: RowNode?)
      requires forall c :: c in children && c.group ==> c.Valid() && (sibling != null ==> sibling !in c.Repr())
      requires forall i, j :: 0 <= i < j < |children| && children[i].group && children[j].group
                 ==> children[i].Repr() !! children[j].Repr()
      ensures Valid()
      ensures this.group == group && this.leafGroup == leafGroup && childrenAfterFilter == children
      ensures childrenMapped == mapped && this.sibling == sibling && data == null
      ensures Below == (if sibling == null then {} else {sibling}) + GroupChildrenRepr(children)
    {
      this.group := group;
      this.leafGroup := leafGroup;
      childrenAfterFilter := children;
      childrenMapped := mapped;
      this.sibling := sibling;
      data := null;
      Below := (if sibling == null then {} else {sibling}) + GroupChildrenRepr(children);
      new;
      GroupChildrenReprBound(children);
    }
  }

  /** The union of the footprints of the group children in `children`. */
  ghost function GroupChildrenRepr(children: seq<RowNode>): set<RowNode> {
    set c, x | c in children && c.group && x in c.Repr() :: x
  }

  lemma GroupChildrenReprBound(children: seq<RowNode>)
    ensures forall c :: c in children && c.group ==> c.Repr() <= GroupChildrenRepr(children)
  {
  }

  // ---------------------------------------------------------------------------
  // Dispatch and the specification of one node's result
  // ---------------------------------------------------------------------------

  datatype AggBranch = UseOverride | NoValueColumns | ValuesOnly | ValuesAndPivot

  /** The four cases of `aggregateRowNode`, first match wins. */
  function Dispatch(env: Env): AggBranch {
    if env.groupRowAggNodes.Some? then UseOverride
    else if |env.valueColumns| == 0 then NoValueColumns
    else if |env.pivotColumns| == 0 then ValuesOnly
    else ValuesAndPivot
  }

  /** The stage computes the cells itself (neither override nor no-op). */
  predicate Computes(env: Env) {
    Dispatch(env) == ValuesOnly || Dispatch(env) == ValuesAndPivot
  }

  /** A JavaScript property read: undefined when the key is absent. */
  function Lookup(cells: map<string, Value>, key: string): Value {
    if key in cells then cells[key] else Undefined
  }

  /** `mapPointer ? mapPointer[key] : null`: a missing key, or a key applied to
      a row list, leaves nothing. */
  function Step(pointer: Option<Bucket>, key: string): Option<Bucket> {
    match pointer
    case None => None
    case Some(Keys(m)) => if key in m then Some(m[key]) else None
    case Some(Rows(_)) => None
  }

  /** Follows a pivot key path through the bucket maps. */
  function Walk(pointer: Option<Bucket>, keys: seq<string>): Option<Bucket>
    decreases |keys|
  {
    if keys == [] then pointer else Walk(Step(pointer, keys[0]), keys[1..])
  }

  /** The walk ends on nothing or on a row list; ending on a nested map would
      make the source call `forEach` on a plain object. */
  predicate EndsWell(pointer: Option<Bucket>) {
    pointer.None? || pointer.value.Rows?
  }

  /** The values of a leaf group's pivot cell: one per row of the bucket the
      key path reaches, in bucket order, or none when the path is missing. */
  function MappedSetValues(mappedSet: Option<Bucket>, keys: seq<string>, valueColumn: Column,
                           getValue: (Column, RowNode) -> Value): seq<Value>
    requires EndsWell(Walk(mappedSet, keys))
  {
    match Walk(mappedSet, keys)
    case None => []
    case Some(b) =>
      var rows := b.rows;
      seq(|rows|, i requires 0 <= i < |rows| => getValue(valueColumn, rows[i]))
  }

  /** In pivot mode every leaf group below `n` resolves every pivot key path
      to a row list or to nothing. */
  ghost predicate PathsResolve(n: RowNode, env: Env)
    requires n.Valid()
    decreases n.Repr()
  {
    && (Dispatch(env) == ValuesAndPivot && n.leafGroup ==>
          forall d :: d in env.pivotColumnDefs ==> EndsWell(Walk(n.childrenMapped, d.keys)))
    && (forall c :: c in n.childrenAfterFilter && c.group ==> PathsResolve(c, env))
  }

  /** The cells the stage computes for `n` when it computes them itself: the
      result of the value-column loop without pivoting, of the pivot-column-def
      loop with it. Children's cells are this same function of the children,
      which is what reading them after a post-order walk amounts to. */
  ghost function AggCells(n: RowNode, env: Env): map<string, Value>
    requires n.Valid() && Computes(env) && PathsResolve(n, env)
    decreases n.Repr(), 3, 0
  {
    if |env.pivotColumns| == 0 then ValuesOnlyCells(n, env, |env.valueColumns|)
    else PivotCells(n, env, |env.pivotColumnDefs|)
  }

  /** The result object after the first `k` value columns. */
  ghost function ValuesOnlyCells(n: RowNode, env: Env, k: nat): map<string, Value>
    requires n.Valid() && Computes(env) && PathsResolve(n, env)
    requires k <= |env.valueColumns|
    decreases n.Repr(), 2, k
  {
    if k == 0 then map[]
    else
      var col := env.valueColumns[k - 1];
      ValuesOnlyCells(n, env, k - 1)[col.id := Aggregate(NormalValues(n, col, env), col.aggFunc)]
  }

  /** The result object after the first `k` pivot column defs. */
  ghost function PivotCells(n: RowNode, env: Env, k: nat): map<string, Value>
    requires n.Valid() && Computes(env) && PathsResolve(n, env)
    requires Dispatch(env) == ValuesAndPivot && k <= |env.pivotColumnDefs|
    decreases n.Repr(), 2, k
  {
    if k == 0 then map[]
    else
      var d := env.pivotColumnDefs[k - 1];
      PivotCells(n, env, k - 1)[d.colId := Aggregate(PivotValues(n, d, env), d.valueColumn.aggFunc)]
  }

  /** Flat grouping: per child, a group's aggregated cell or a leaf row's value. */
  ghost function NormalValues(n: RowNode, col: Column, env: Env): seq<Value>
    requires n.Valid() && Computes(env) && PathsResolve(n, env)
    decreases n.Repr(), 1, 0
  {
    var ch := n.childrenAfterFilter;
    seq(|ch|, i requires 0 <= i < |ch| =>
      if ch[i].group then Lookup(AggCells(ch[i], env), col.id) else env.getValue(col, ch[i]))
  }

  /** Pivoting: a leaf group reads its bucket, any other group its children's
      cells for the same pivot column. */
  ghost function PivotValues(n: RowNode, d: PivotColumnDef, env: Env): seq<Value>
    requires n.Valid() && Computes(env) && PathsResolve(n, env)
    requires Dispatch(env) == ValuesAndPivot && d in env.pivotColumnDefs
    decreases n.Repr(), 1, 0
  {
    if n.leafGroup then MappedSetValues(n.childrenMapped, d.keys, d.valueColumn, env.getValue)
    else PivotNonLeafValues(n, d.colId, env)
  }

  ghost function PivotNonLeafValues(n: RowNode, colId: string, env: Env): seq<Value>
    requires n.Valid() && Computes(env) && PathsResolve(n, env)
    decreases n.Repr(), 0, 0
  {
    var ch := n.childrenAfterFilter;
    seq(|ch|, i requires 0 <= i < |ch| =>
      if ch[i].group then Lookup(AggCells(ch[i], env), colId) else env.rowField(ch[i], colId))
  }

  // ---------------------------------------------------------------------------
  // State after aggregation
  // ---------------------------------------------------------------------------

  /** `n` and every group below it: the nodes the walk aggregates. */
  ghost function Visited(n: RowNode): (r: set<RowNode>)
    requires n.Valid()
    decreases n.Repr()
    ensures n in r
    ensures forall g :: g in r ==> g in n.Repr() && g.Valid() && g.Repr() <= n.Repr()
  {
    {n} + (set c, g | c in n.childrenAfterFilter && c.group && g in Visited(c) :: g)
  }

  /** `n.data` is what the dispatch demands, and the footer shares it. */
  ghost predicate Aggregated(n: RowNode, env: Env)
    requires n.Valid() && PathsResolve(n, env)
    reads n, n.data, n.sibling
  {
    && (match Dispatch(env)
        case UseOverride => n.data == env.groupRowAggNodes.value(n.childrenAfterFilter)
        case NoValueColumns => n.data == null
        case _ => n.data != null && n.data.cells == AggCells(n, env) && n.data.owner == n)
    && (n.sibling != null ==> n.sibling.data == n.data)
  }

  /** The result objects the nodes of `s` point at. */
  ghost function DataOf(s: set<RowNode>): set<RowData>
    reads s
  {
    set g | g in s && g.data != null :: g.data
  }

  /** Every node the walk visits under `n`, `n` included, is aggregated. */
  ghost predicate AllAggregated(n: RowNode, env: Env)
    requires n.Valid() && PathsResolve(n, env)
    reads n.Repr(), DataOf(n.Repr())
  {
    forall g :: g in Visited(n) ==> PathsResolve(g, env) && Aggregated(g, env)
  }

  lemma {:induction false} PathsResolveVisited(n: RowNode, env: Env)
    requires n.Valid() && PathsResolve(n, env)
    decreases n.Repr()
    ensures forall g :: g in Visited(n) ==> PathsResolve(g, env)
  {
    forall c | c in n.childrenAfterFilter && c.group
      ensures forall g :: g in Visited(c) ==> PathsResolve(g, env)
    {
      PathsResolveVisited(c, env);
    }
  }

  /** Once the group children are aggregated, the cells `n` reads from them
      are in place. */
  lemma ChildrenReady(n: RowNode, env: Env)
    requires n.Valid() && PathsResolve(n, env)
    requires forall c :: c in n.childrenAfterFilter && c.group ==> AllAggregated(c, env)
    ensures Computes(env) ==> GroupChildrenAggregated(n, env)
  {
    if Computes(env) {
      forall c | c in n.childrenAfterFilter && c.group
        ensures c.data != null && c.data.cells == AggCells(c, env)
      {
        assert c in Visited(c);
      }
    }
  }

  /** The walk's post-order step: aggregated children plus an aggregated
      node give an aggregated subtree. */
  lemma AllAggregatedStep(n: RowNode, env: Env)
    requires n.Valid() && PathsResolve(n, env)
    requires forall c :: c in n.childrenAfterFilter && c.group ==> AllAggregated(c, env)
    requires Aggregated(n, env)
    ensures AllAggregated(n, env)
  {
    PathsResolveVisited(n, env);
    forall g | g in Visited(n)
      ensures PathsResolve(g, env) && Aggregated(g, env)
    {
      if g != n {
        var c :| c in n.childrenAfterFilter && c.group && g in Visited(c);
        assert AllAggregated(c, env);
      }
    }
  }

  /** No two nodes of `s` share a result object. */
  ghost predicate DistinctResults(s: set<RowNode>)
    reads s
  {
    forall g, h :: g in s && h in s && g != h ==> g.data != h.data
  }

  /** Every group child of `n` already holds its computed cells. */
  ghost predicate GroupChildrenAggregated(n: RowNode, env: Env)
    requires n.Valid() && Computes(env) && PathsResolve(n, env)
    reads n.childrenAfterFilter, set c | c in n.childrenAfterFilter :: c.data
  {
    forall c :: c in n.childrenAfterFilter && c.group ==> c.data != null && c.data.cells == AggCells(c, env)
  }

  // ---------------------------------------------------------------------------
  // The stage
  // ---------------------------------------------------------------------------

  /** `execute`: nothing at all when the caller supplied the groups, otherwise
      the post-order walk from the root. */
  method Execute(rootNode: RowNode, env: Env)
    requires rootNode.Valid()
    requires !env.nodeChildDetailsFunc ==> PathsResolve(rootNode, env)
    modifies rootNode.Repr()
    ensures env.nodeChildDetailsFunc ==> unchanged(rootNode.Repr())
    ensures !env.nodeChildDetailsFunc ==> AllAggregated(rootNode, env)
    ensures !env.nodeChildDetailsFunc && Computes(env) ==>
              && (forall g :: g in Visited(rootNode) ==> fresh(g.data))
              && DistinctResults(Visited(rootNode))
  {
    var rowsAlreadyGrouped := env.nodeChildDetailsFunc;
    if rowsAlreadyGrouped {
      return;
    }
    RecursivelyCreateAggData(rootNode, env);
  }

  /** Aggregates every group child first, then `rowNode` itself. */
  method RecursivelyCreateAggData(rowNode: RowNode, env: Env)
    requires rowNode.Valid() && PathsResolve(rowNode, env)
    modifies rowNode.Repr()
    decreases rowNode.Repr(), 1
    ensures AllAggregated(rowNode, env)
    ensures Computes(env) ==> forall g :: g in Visited(rowNode) ==> fresh(g.data)
    ensures Computes(env) ==> DistinctResults(Visited(rowNode))
  {
    var children := rowNode.childrenAfterFilter;
    for i := 0 to |children|
      invariant forall k :: 0 <= k < i && children[k].group ==> AllAggregated(children[k], env)
      invariant Computes(env) ==> forall k, g :: 0 <= k < i && children[k].group && g in Visited(children[k]) ==> fresh(g.data)
    {
      var child := children[i];
      if child.group {
        AggregateChildSubtree(rowNode, i, env);
      }
    }
    forall c | c in children && c.group
      ensures AllAggregated(c, env)
    {
      var k :| 0 <= k < |children| && children[k] == c;
    }
    AggregateAfterChildren(rowNode, env);
    if Computes(env) {
      forall g | g in Visited(rowNode)
        ensures fresh(g.data)
      {
        if g != rowNode {
          var c :| c in children && c.group && g in Visited(c);
          var k :| 0 <= k < |children| && children[k] == c;
        }
      }
    }
  }

  /** One turn of the loop over the children: aggregates the subtree of the
      `i`-th child, which leaves the earlier children's disjoint subtrees as
      they were. */
  method AggregateChildSubtree(rowNode: RowNode, i: nat, env: Env)
    requires rowNode.Valid() && PathsResolve(rowNode, env)
    requires i < |rowNode.childrenAfterFilter| && rowNode.childrenAfterFilter[i].group
    requires forall k :: 0 <= k < i && rowNode.childrenAfterFilter[k].group ==>
               AllAggregated(rowNode.childrenAfterFilter[k], env)
    modifies rowNode.childrenAfterFilter[i].Repr()
    decreases rowNode.Repr(), 0
    ensures forall k :: 0 <= k <= i && rowNode.childrenAfterFilter[k].group ==>
              AllAggregated(rowNode.childrenAfterFilter[k], env)
    ensures forall k, g :: 0 <= k < i && rowNode.childrenAfterFilter[k].group && g in Visited(rowNode.childrenAfterFilter[k]) ==>
              g.data == old(g.data)
    ensures Computes(env) ==> forall g :: g in Visited(rowNode.childrenAfterFilter[i]) ==> fresh(g.data)
  {
    var children := rowNode.childrenAfterFilter;
    var child := children[i];
    RecursivelyCreateAggData(child, env);
    forall k | 0 <= k < i && children[k].group
      ensures AllAggregated(children[k], env)
    {
      assert children[k].Repr() !! child.Repr();
      assert unchanged(children[k].Repr());
      assert unchanged(old(DataOf(children[k].Repr())));
    }
  }

  /** The post-order step: with every group child aggregated, aggregating
      `rowNode` completes its subtree. */
  method AggregateAfterChildren(rowNode: RowNode, env: Env)
    requires rowNode.Valid() && PathsResolve(rowNode, env)
    requires forall c :: c in rowNode.childrenAfterFilter && c.group ==> AllAggregated(c, env)
    modifies rowNode, rowNode.sibling
    ensures AllAggregated(rowNode, env)
    ensures Computes(env) ==> fresh(rowNode.data)
    ensures forall c, g :: c in rowNode.childrenAfterFilter && c.group && g in Visited(c) ==> g.data == old(g.data)
  {
    ChildrenReady(rowNode, env);
    AggregateRowNode(rowNode, env);
    forall c | c in rowNode.childrenAfterFilter && c.group
      ensures AllAggregated(c, env)
    {
      assert rowNode !in c.Repr();
    }
    AllAggregatedStep(rowNode, env);
  }

  method AggregateRowNode(rowNode: RowNode, env: Env)
    requires rowNode.Valid() && PathsResolve(rowNode, env)
    requires Computes(env) ==> GroupChildrenAggregated(rowNode, env)
    modifies rowNode, rowNode.sibling
    ensures Aggregated(rowNode, env)
    ensures Computes(env) ==> fresh(rowNode.data)
  {
    var valueColumnsMissing := |env.valueColumns| == 0;
    var pivotColumnsMissing := |env.pivotColumns| == 0;
    var userProvidedGroupRowAggNodes := env.groupRowAggNodes;

    var aggResult: RowData?;
    if userProvidedGroupRowAggNodes.Some? {
      aggResult := userProvidedGroupRowAggNodes.value(rowNode.childrenAfterFilter);
    } else if valueColumnsMissing {
      aggResult := null;
    } else if pivotColumnsMissing {
      aggResult := AggregateRowNodeUsingValuesOnly(rowNode, env);
    } else {
      aggResult := AggregateRowNodeUsingValuesAndPivot(rowNode, env);
    }

    rowNode.data := aggResult;
    if rowNode.sibling != null {
      rowNode.sibling.data := aggResult;
    }
  }

  method AggregateRowNodeUsingValuesAndPivot(rowNode: RowNode, env: Env) returns (result: RowData)
    requires rowNode.Valid() && Dispatch(env) == ValuesAndPivot && PathsResolve(rowNode, env)
    requires GroupChildrenAggregated(rowNode, env)
    ensures fresh(result) && result.owner == rowNode
    ensures result.cells == AggCells(rowNode, env)
  {
    result := new RowData(rowNode);
    var pivotColumnDefs := env.pivotColumnDefs;
    for k := 0 to |pivotColumnDefs|
      invariant result.cells == PivotCells(rowNode, env, k)
    {
      var pivotColumnDef := pivotColumnDefs[k];
      var valueColumn := pivotColumnDef.valueColumn;
      var values: seq<Value>;
      if rowNode.leafGroup {
        values := GetValuesFromMappedSet(rowNode.childrenMapped, pivotColumnDef.keys, valueColumn, env);
      } else {
        values := GetValuesPivotNonLeaf(rowNode, pivotColumnDef.colId, env);
      }
      var v := AggregateValues(values, valueColumn.aggFunc);
      result.cells := result.cells[pivotColumnDef.colId := v];
    }
  }

  method AggregateRowNodeUsingValuesOnly(rowNode: RowNode, env: Env) returns (result: RowData)
    requires rowNode.Valid() && Dispatch(env) == ValuesOnly && PathsResolve(rowNode, env)
    requires GroupChildrenAggregated(rowNode, env)
    ensures fresh(result) && result.owner == rowNode
    ensures result.cells == AggCells(rowNode, env)
  {
    result := new RowData(rowNode);
    var valueColumns := env.valueColumns;
    var values2d := GetValuesNormal(rowNode, env);
    for index := 0 to |valueColumns|
      invariant result.cells == ValuesOnlyCells(rowNode, env, index)
    {
      var valueColumn := valueColumns[index];
      var v := AggregateValues(values2d[index], valueColumn.aggFunc);
      result.cells := result.cells[valueColumn.id := v];
    }
  }

  method GetValuesPivotNonLeaf(rowNode: RowNode, colId: string, env: Env) returns (values: seq<Value>)
    requires rowNode.Valid() && Computes(env) && PathsResolve(rowNode, env)
    requires GroupChildrenAggregated(rowNode, env)
    ensures values == PivotNonLeafValues(rowNode, colId, env)
  {
    values := [];
    var children := rowNode.childrenAfterFilter;
    for i := 0 to |children|
      invariant values == PivotNonLeafValues(rowNode, colId, env)[..i]
    {
      var child := children[i];
      var value: Value;
      if child.group {
        value := Lookup(child.data.cells, colId);
      } else {
        value := env.rowField(child, colId);
      }
      values := values + [value];
    }
  }

  method GetValuesFromMappedSet(mappedSet: Option<Bucket>, keys: seq<string>, valueColumn: Column, env: Env)
    returns (values: seq<Value>)
    requires EndsWell(Walk(mappedSet, keys))
    ensures values == MappedSetValues(mappedSet, keys, valueColumn, env.getValue)
  {
    var mapPointer := mappedSet;
    for i := 0 to |keys|
      invariant Walk(mapPointer, keys[i..]) == Walk(mappedSet, keys)
    {
      assert keys[i..][1..] == keys[i + 1..];
      mapPointer := Step(mapPointer, keys[i]);
    }
    assert keys[|keys|..] == [];

    if mapPointer.None? {
      return [];
    }

    values := [];
    var rows := mapPointer.value.rows;
    for i := 0 to |rows|
      invariant values == MappedSetValues(mappedSet, keys, valueColumn, env.getValue)[..i]
    {
      var value := env.getValue(valueColumn, rows[i]);
      values := values + [value];
    }
  }

  /** One list per value column, each holding one value per child in child
      order: a group child's aggregated cell, a leaf row's value. */
  method GetValuesNormal(rowNode: RowNode, env: Env) returns (values: seq<seq<Value>>)
    requires rowNode.Valid() && Computes(env) && PathsResolve(rowNode, env)
    requires GroupChildrenAggregated(rowNode, env)
    ensures |values| == |env.valueColumns|
    ensures forall j :: 0 <= j < |values| ==> values[j] == NormalValues(rowNode, env.valueColumns[j], env)
    ensures forall j :: 0 <= j < |values| ==> |values[j]| == |rowNode.childrenAfterFilter|
  {
    var valueColumns := env.valueColumns;
    values := [];
    for j := 0 to |valueColumns|
      invariant values == seq(j, _ => [])
    {
      values := values + [[]];
    }

    var valueColumnCount := |valueColumns|;
    var children := rowNode.childrenAfterFilter;
    var rowCount := |children|;
    ghost var expected := seq(valueColumnCount, k requires 0 <= k < valueColumnCount => NormalValues(rowNode, valueColumns[k], env));
    for i := 0 to rowCount
      invariant |values| == valueColumnCount
      invariant forall k :: 0 <= k < valueColumnCount ==> values[k] == expected[k][..i]
    {
      var childNode := children[i];
      for j := 0 to valueColumnCount
        invariant |values| == valueColumnCount
        invariant forall k :: 0 <= k < valueColumnCount ==> values[k] == expected[k][..if k < j then i + 1 else i]
      {
        var valueColumn := valueColumns[j];
        var value: Value;
        if childNode.group {
          value := Lookup(childNode.data.cells, valueColumn.id);
        } else {
          value := env.getValue(valueColumn, childNode);
        }
        assert value == expected[j][i];
        assert expected[j][..i + 1] == expected[j][..i] + [value];
        values := values[j := values[j] + [value]];
      }
    }
    forall k | 0 <= k < valueColumnCount
      ensures values[k] == NormalValues(rowNode, valueColumns[k], env)
    {
      assert expected[k][..rowCount] == expected[k];
    }
  }
}
