/** What the aggregation stage computes, stated over whole subtrees: a group's
    cell, built from its children's cells, equals the reducer applied to every
    value below the group; plus the behaviour of pivot key paths. */
module AggregationProperties {
  import opened Values
  import opened AggFunctions
  import opened AggregationStage

  // ---------------------------------------------------------------------------
  // Pivot key paths
  // ---------------------------------------------------------------------------

  /** Walking a path in two pieces is walking it at once. */
  lemma {:induction false} WalkConcat(p: Option<Bucket>, a: seq<string>, b: seq<string>)
    decreases |a|
    ensures Walk(p, a + b) == Walk(Walk(p, a), b)
  {
    if a == [] {
      assert a + b == b;
    } else {
      assert (a + b)[0] == a[0] && (a + b)[1..] == a[1..] + b;
      WalkConcat(Step(p, a[0]), a[1..], b);
    }
  }

  /** Once a key is missing the walk stays on nothing. */
  lemma {:induction false} WalkFromNothing(keys: seq<string>)
    decreases |keys|
    ensures Walk(None, keys) == None
  {
    if keys != [] {
      WalkFromNothing(keys[1..]);
    }
  }

  /** A key missing anywhere along the path leaves the pivot cell without
      values. Every registry reducer of the model then gives null there, while
      `first`/`last` as the code writes them give undefined. */
  lemma MissingKeyGivesNoValues(mapped: Option<Bucket>, keys: seq<string>, i: nat,
                                valueColumn: Column, getValue: (Column, RowNode) -> Value)
    requires i <= |keys| && Walk(mapped, keys[..i]) == None
    ensures EndsWell(Walk(mapped, keys))
    ensures MappedSetValues(mapped, keys, valueColumn, getValue) == []
    ensures forall name :: name in AggFunctionsMap ==>
              Aggregate(MappedSetValues(mapped, keys, valueColumn, getValue), Named(name)) == Null
    ensures FirstAsWritten(MappedSetValues(mapped, keys, valueColumn, getValue)) == Undefined
    ensures LastAsWritten(MappedSetValues(mapped, keys, valueColumn, getValue)) == Undefined
  {
    assert keys == keys[..i] + keys[i..];
    WalkConcat(mapped, keys[..i], keys[i..]);
    WalkFromNothing(keys[i..]);
  }

  /** A path that reaches a bucket's row list yields one value per row, in
      bucket order. */
  lemma BucketValues(mapped: Option<Bucket>, keys: seq<string>, rows: seq<RowNode>,
                     valueColumn: Column, getValue: (Column, RowNode) -> Value)
    requires Walk(mapped, keys) == Some(Rows(rows))
    ensures |MappedSetValues(mapped, keys, valueColumn, getValue)| == |rows|
    ensures forall i :: 0 <= i < |rows| ==>
              MappedSetValues(mapped, keys, valueColumn, getValue)[i] == getValue(valueColumn, rows[i])
  {
  }

  /** Without pivoting no key path is followed, so every tree qualifies. */
  lemma {:induction false} PathsResolveWithoutPivot(n: RowNode, env: Env)
    requires n.Valid() && Dispatch(env) != ValuesAndPivot
    decreases n.Repr()
    ensures PathsResolve(n, env)
  {
    forall c | c in n.childrenAfterFilter && c.group
      ensures PathsResolve(c, env)
    {
      PathsResolveWithoutPivot(c, env);
    }
  }

  // ---------------------------------------------------------------------------
  // Flat grouping: rolling up over the whole subtree
  // ---------------------------------------------------------------------------

  /** Every leaf row value of `col` below `n`, in display order. */
  ghost function LeafValues(n: RowNode, col: Column, env: Env): seq<Value>
    requires n.Valid()
    decreases n.Repr(), 1
  {
    Flatten(LeafParts(n, col, env))
  }

  /** Per child of `n`: its leaf values when it is a group, its own value when
      it is a row. */
  ghost function LeafParts(n: RowNode, col: Column, env: Env): (r: seq<seq<Value>>)
    requires n.Valid()
    decreases n.Repr(), 0
    ensures |r| == |n.childrenAfterFilter|
  {
    var ch := n.childrenAfterFilter;
    seq(|ch|, i requires 0 <= i < |ch| =>
      if ch[i].group then LeafValues(ch[i], col, env) else [env.getValue(col, ch[i])])
  }

  /** The result object holds, under a column's id, the aggregate of that
      column unless a later value column reuses the id. */
  lemma {:induction false} ValuesOnlyCellsAt(n: RowNode, env: Env, k: nat, j: nat)
    requires n.Valid() && Computes(env) && PathsResolve(n, env)
    requires j < k <= |env.valueColumns|
    requires forall m :: j < m < k ==> env.valueColumns[m].id != env.valueColumns[j].id
    ensures Lookup(ValuesOnlyCells(n, env, k), env.valueColumns[j].id)
         == Aggregate(NormalValues(n, env.valueColumns[j], env), env.valueColumns[j].aggFunc)
  {
    if k - 1 != j {
      ValuesOnlyCellsAt(n, env, k - 1, j);
    }
  }

  /** Without pivoting, with `sum`, `min` or `max`, a group's cell equals the
      reducer over every leaf row below it, although each group only reads
      its children's cells. */
  lemma {:induction false} FlatRollup(n: RowNode, env: Env, j: nat, f: AggFunction)
    requires n.Valid() && Dispatch(env) == ValuesOnly
    requires j < |env.valueColumns|
    requires forall m :: j < m < |env.valueColumns| ==> env.valueColumns[m].id != env.valueColumns[j].id
    requires Resolve(env.valueColumns[j].aggFunc) == Some(f) && IsNumeric(f)
    decreases n.Repr()
    ensures PathsResolve(n, env)
    ensures Lookup(AggCells(n, env), env.valueColumns[j].id)
         == Apply(f, LeafValues(n, env.valueColumns[j], env))
  {
    PathsResolveWithoutPivot(n, env);
    var col := env.valueColumns[j];
    ValuesOnlyCellsAt(n, env, |env.valueColumns|, j);
    var values := NormalValues(n, col, env);
    var parts := LeafParts(n, col, env);
    forall i | 0 <= i < |values|
      ensures NumberOf(values[i]) == NumberOf(Apply(f, parts[i]))
    {
      var c := n.childrenAfterFilter[i];
      if c.group {
        FlatRollup(c, env, j, f);
      } else {
        NumericSingleton(f, env.getValue(col, c));
      }
    }
    RollupStep(f, values, parts);
  }

  // ---------------------------------------------------------------------------
  // Pivoting: rolling up over the whole subtree
  // ---------------------------------------------------------------------------

  /** Every value feeding pivot cell `d` below `n`: a leaf group's bucket rows,
      and below any other group its children's in order. */
  ghost function PivotLeafValues(n: RowNode, d: PivotColumnDef, env: Env): seq<Value>
    requires n.Valid() && Dispatch(env) == ValuesAndPivot && PathsResolve(n, env)
    requires d in env.pivotColumnDefs
    decreases n.Repr(), 1
  {
    if n.leafGroup then MappedSetValues(n.childrenMapped, d.keys, d.valueColumn, env.getValue)
    else Flatten(PivotLeafParts(n, d, env))
  }

  ghost function PivotLeafParts(n: RowNode, d: PivotColumnDef, env: Env): (r: seq<seq<Value>>)
    requires n.Valid() && Dispatch(env) == ValuesAndPivot && PathsResolve(n, env)
    requires d in env.pivotColumnDefs
    decreases n.Repr(), 0
    ensures |r| == |n.childrenAfterFilter|
  {
    var ch := n.childrenAfterFilter;
    seq(|ch|, i requires 0 <= i < |ch| =>
      if ch[i].group then PivotLeafValues(ch[i], d, env) else [env.rowField(ch[i], d.colId)])
  }

  /** The result object holds, under a pivot column's id, that column's
      aggregate unless a later def reuses the id. */
  lemma {:induction false} PivotCellsAt(n: RowNode, env: Env, k: nat, j: nat)
    requires n.Valid() && Dispatch(env) == ValuesAndPivot && PathsResolve(n, env)
    requires j < k <= |env.pivotColumnDefs|
    requires forall m :: j < m < k ==> env.pivotColumnDefs[m].colId != env.pivotColumnDefs[j].colId
    ensures Lookup(PivotCells(n, env, k), env.pivotColumnDefs[j].colId)
         == Aggregate(PivotValues(n, env.pivotColumnDefs[j], env), env.pivotColumnDefs[j].valueColumn.aggFunc)
  {
    if k - 1 != j {
      PivotCellsAt(n, env, k - 1, j);
    }
  }

  /** With pivoting, with `sum`, `min` or `max`, a group's pivot cell equals
      the reducer over every bucket row the key path reaches in the leaf
      groups below it, although groups above the leaf level only read their
      children's cells. */
  lemma {:induction false} PivotRollup(n: RowNode, env: Env, j: nat, f: AggFunction)
    requires n.Valid() && Dispatch(env) == ValuesAndPivot && PathsResolve(n, env)
    requires j < |env.pivotColumnDefs|
    requires forall m :: j < m < |env.pivotColumnDefs| ==>
               env.pivotColumnDefs[m].colId != env.pivotColumnDefs[j].colId
    requires Resolve(env.pivotColumnDefs[j].valueColumn.aggFunc) == Some(f) && IsNumeric(f)
    decreases n.Repr()
    ensures Lookup(AggCells(n, env), env.pivotColumnDefs[j].colId)
         == Apply(f, PivotLeafValues(n, env.pivotColumnDefs[j], env))
  {
    var d := env.pivotColumnDefs[j];
    PivotCellsAt(n, env, |env.pivotColumnDefs|, j);
    assert AggCells(n, env) == PivotCells(n, env, |env.pivotColumnDefs|);
    assert Lookup(AggCells(n, env), d.colId) == Apply(f, PivotValues(n, d, env));
    if !n.leafGroup {
      var values := PivotNonLeafValues(n, d.colId, env);
      var parts := PivotLeafParts(n, d, env);
      forall i | 0 <= i < |values|
        ensures NumberOf(values[i]) == NumberOf(Apply(f, parts[i]))
      {
        var c := n.childrenAfterFilter[i];
        if c.group {
          PivotRollup(c, env, j, f);
        } else {
          NumericSingleton(f, env.rowField(c, d.colId));
        }
      }
      RollupStep(f, values, parts);
      assert PivotValues(n, d, env) == values;
      assert PivotLeafValues(n, d, env) == Flatten(parts);
    }
  }

  // ---------------------------------------------------------------------------
  // Shape of the result object
  // ---------------------------------------------------------------------------

  lemma {:induction false} ValuesOnlyCellsKeys(n: RowNode, env: Env, k: nat)
    requires n.Valid() && Computes(env) && PathsResolve(n, env)
    requires k <= |env.valueColumns|
    ensures ValuesOnlyCells(n, env, k).Keys == set m | 0 <= m < k :: env.valueColumns[m].id
  {
    if k > 0 {
      ValuesOnlyCellsKeys(n, env, k - 1);
    }
  }

  lemma {:induction false} PivotCellsKeys(n: RowNode, env: Env, k: nat)
    requires n.Valid() && Dispatch(env) == ValuesAndPivot && PathsResolve(n, env)
    requires k <= |env.pivotColumnDefs|
    ensures PivotCells(n, env, k).Keys == set m | 0 <= m < k :: env.pivotColumnDefs[m].colId
  {
    if k > 0 {
      PivotCellsKeys(n, env, k - 1);
    }
  }

  lemma ColumnIds(cols: seq<Column>)
    ensures (set m | 0 <= m < |cols| :: cols[m].id) == set c | c in cols :: c.id
  {
    forall c | c in cols
      ensures c.id in set m | 0 <= m < |cols| :: cols[m].id
    {
      var m :| 0 <= m < |cols| && cols[m] == c;
    }
  }

  lemma PivotColumnIds(defs: seq<PivotColumnDef>)
    ensures (set m | 0 <= m < |defs| :: defs[m].colId) == set d | d in defs :: d.colId
  {
    forall d | d in defs
      ensures d.colId in set m | 0 <= m < |defs| :: defs[m].colId
    {
      var m :| 0 <= m < |defs| && defs[m] == d;
    }
  }

  /** Without pivoting the result object has one entry per value column id;
      with pivoting, one per pivot column id and none for the value columns. */
  lemma AggCellsKeys(n: RowNode, env: Env)
    requires n.Valid() && Computes(env) && PathsResolve(n, env)
    ensures Dispatch(env) == ValuesOnly ==>
              AggCells(n, env).Keys == set c | c in env.valueColumns :: c.id
    ensures Dispatch(env) == ValuesAndPivot ==>
              AggCells(n, env).Keys == set d | d in env.pivotColumnDefs :: d.colId
  {
    if Dispatch(env) == ValuesOnly {
      ValuesOnlyCellsKeys(n, env, |env.valueColumns|);
      ColumnIds(env.valueColumns);
    } else {
      PivotCellsKeys(n, env, |env.pivotColumnDefs|);
      PivotColumnIds(env.pivotColumnDefs);
    }
  }

  // ---------------------------------------------------------------------------
  // A worked pivot example
  // ---------------------------------------------------------------------------

  const Amount := Column("amount", Named("sum"))

  /** The environment of the example: one value column `amount`, summed,
      pivoted on a single key into the cells `A_amount` and `B_amount`. */
  ghost predicate ExampleEnv(env: Env) {
    && env.groupRowAggNodes.None? && env.valueColumns == [Amount] && env.pivotColumns != []
    && env.pivotColumnDefs == [PivotColumnDef("A_amount", ["A"], Amount),
                               PivotColumnDef("B_amount", ["B"], Amount)]
  }

  /** A leaf group whose buckets are A -> [2, 3] and B -> [5] holds 5 under
      both pivot cells. */
  lemma PivotExampleLeaf(l: RowNode, r1: RowNode, r2: RowNode, r3: RowNode, env: Env)
    requires l.Valid() && l.group && l.leafGroup && l.childrenAfterFilter == [r1, r2, r3]
    requires !r1.group && !r2.group && !r3.group
    requires l.childrenMapped == Some(Keys(map["A" := Rows([r1, r2]), "B" := Rows([r3])]))
    requires ExampleEnv(env)
    requires env.getValue(Amount, r1) == Num(2) && env.getValue(Amount, r2) == Num(3)
    requires env.getValue(Amount, r3) == Num(5)
    ensures PathsResolve(l, env)
    ensures AggCells(l, env) == map["A_amount" := Num(5), "B_amount" := Num(5)]
  {
    var defs := env.pivotColumnDefs;
    var a := MappedSetValues(l.childrenMapped, ["A"], Amount, env.getValue);
    var b := MappedSetValues(l.childrenMapped, ["B"], Amount, env.getValue);
    assert PathsResolve(l, env) && a == [Num(2), Num(3)] && b == [Num(5)] by {
      assert Walk(l.childrenMapped, ["A"]) == Some(Rows([r1, r2]));
      assert Walk(l.childrenMapped, ["B"]) == Some(Rows([r3]));
    }
    assert Aggregate(a, Amount.aggFunc) == Num(5) by {
      NumbersPair(Num(2), Num(3));
      TotalSmall(2, 3);
      RegistryNames(a);
    }
    assert Aggregate(b, Amount.aggFunc) == Num(5) by {
      NumbersSingleton(Num(5));
      TotalSmall(5, 0);
      RegistryNames(b);
    }
    assert PivotCells(l, env, 1) == map["A_amount" := Num(5)] by {
      assert PivotValues(l, defs[0], env) == a;
    }
    assert PivotCells(l, env, 2) == map["A_amount" := Num(5), "B_amount" := Num(5)] by {
      assert PivotValues(l, defs[1], env) == b;
    }
    assert AggCells(l, env) == PivotCells(l, env, 2);
  }

  /** The parent of that leaf group, reading the two cells as its only
      child's, holds the same. */
  lemma PivotExample(p: RowNode, l: RowNode, r1: RowNode, r2: RowNode, r3: RowNode, env: Env)
    requires p.Valid() && !p.leafGroup && p.childrenAfterFilter == [l]
    requires l.group && l.leafGroup && l.childrenAfterFilter == [r1, r2, r3]
    requires !r1.group && !r2.group && !r3.group
    requires l.childrenMapped == Some(Keys(map["A" := Rows([r1, r2]), "B" := Rows([r3])]))
    requires ExampleEnv(env)
    requires env.getValue(Amount, r1) == Num(2) && env.getValue(Amount, r2) == Num(3)
    requires env.getValue(Amount, r3) == Num(5)
    ensures l.Valid() && PathsResolve(p, env)
    ensures AggCells(l, env) == map["A_amount" := Num(5), "B_amount" := Num(5)]
    ensures AggCells(p, env) == AggCells(l, env)
  {
    var defs := env.pivotColumnDefs;
    PivotExampleLeaf(l, r1, r2, r3, env);
    var cells := AggCells(l, env);
    assert PathsResolve(p, env);
    var b := [Num(5)];
    assert Aggregate(b, Amount.aggFunc) == Num(5) by {
      NumbersSingleton(Num(5));
      TotalSmall(5, 0);
      RegistryNames(b);
    }
    assert PivotCells(p, env, 1) == map["A_amount" := Num(5)] by {
      assert PivotNonLeafValues(p, "A_amount", env) == [Lookup(cells, "A_amount")];
      assert PivotValues(p, defs[0], env) == b;
    }
    assert PivotCells(p, env, 2) == cells by {
      assert PivotNonLeafValues(p, "B_amount", env) == [Lookup(cells, "B_amount")];
      assert PivotValues(p, defs[1], env) == b;
    }
    assert AggCells(p, env) == PivotCells(p, env, 2);
  }
}
