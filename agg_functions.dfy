/** The aggregation function registry: the built-in reducers `sum`, `first`,
    `last`, `min` and `max`, lookup by name, and the resolution of a column's
    aggregation reference (a name or a function) into a reducer. */
module AggFunctions {
  import opened Values

  // ---------------------------------------------------------------------------
  // Numeric filtering shared by sum, min and max
  // ---------------------------------------------------------------------------

  /** The value `v` contributes to a numeric reducer: its number, or nothing. */
  function NumberOf(v: Value): seq<int> {
    if v.Num? then [v.n] else []
  }

  /** The numbers among `input`, in input order; every other value is skipped. */
  function Numbers(input: seq<Value>): (r: seq<int>)
    ensures |r| <= |input|
  {
    if input == [] then []
    else Numbers(input[..|input| - 1]) + NumberOf(input[|input| - 1])
  }

  predicate HasNumber(input: seq<Value>) {
    exists i :: 0 <= i < |input| && input[i].Num?
  }

  function Total(xs: seq<int>): int {
    if xs == [] then 0 else Total(xs[..|xs| - 1]) + xs[|xs| - 1]
  }

  function Minimum(xs: seq<int>): int
    requires xs != []
  {
    if |xs| == 1 then xs[0]
    else
      var m := Minimum(xs[..|xs| - 1]);
      if m > xs[|xs| - 1] then xs[|xs| - 1] else m
  }

  function Maximum(xs: seq<int>): int
    requires xs != []
  {
    if |xs| == 1 then xs[0]
    else
      var m := Maximum(xs[..|xs| - 1]);
      if m < xs[|xs| - 1] then xs[|xs| - 1] else m
  }

  // ---------------------------------------------------------------------------
  // The built-in reducers, as specification functions
  // ---------------------------------------------------------------------------

  /** `sum`: the total of the numeric elements, or Null when there are none
      (the accumulator starts as null and is seeded by the first number). */
  function SumOf(input: seq<Value>): Value {
    var ns := Numbers(input);
    if ns == [] then Null else Num(Total(ns))
  }

  /** `min`: the least numeric element, or Null when there are none. */
  function MinOf(input: seq<Value>): Value {
    var ns := Numbers(input);
    if ns == [] then Null else Num(Minimum(ns))
  }

  /** `max`: the greatest numeric element, or Null when there are none. */
  function MaxOf(input: seq<Value>): Value {
    var ns := Numbers(input);
    if ns == [] then Null else Num(Maximum(ns))
  }

  /** Reading `input[i]` of a JavaScript array: undefined outside the bounds. */
  function ArrayRead(input: seq<Value>, i: int): Value {
    if 0 <= i < |input| then input[i] else Undefined
  }

  /** `first` as the source writes it: the guard `length >= 0` always holds,
      so an empty input reads `input[0]`, which is undefined. */
  function FirstAsWritten(input: seq<Value>): Value {
    if |input| >= 0 then ArrayRead(input, 0) else Null
  }

  /** `last` as the source writes it: an empty input reads `input[-1]`. */
  function LastAsWritten(input: seq<Value>): Value {
    if |input| >= 0 then ArrayRead(input, |input| - 1) else Null
  }

  /** `first` with the guard the fallback branch was written for
      (`length > 0`): the element at position 0, of whatever kind, or Null. */
  function FirstOf(input: seq<Value>): Value {
    if |input| > 0 then input[0] else Null
  }

  /** `last` with the intended guard: the last element, or Null. */
  function LastOf(input: seq<Value>): Value {
    if |input| > 0 then input[|input| - 1] else Null
  }

  // ---------------------------------------------------------------------------
  // Registry and resolution
  // ---------------------------------------------------------------------------

  /** A callable reducer: one of the built-ins or a function the caller supplied. */
  datatype AggFunction =
    | AggSum | AggFirst | AggLast | AggMin | AggMax
    | Custom(fn: seq<Value> -> Value)

  /** What a value column carries as its aggregation function: a registry
      name, a function, or some other value that cannot be called. */
  datatype AggFuncRef =
    | Named(name: string)
    | Callable(fn: seq<Value> -> Value)
    | NotCallable

  /** The table the registry fills in its constructor and never changes. */
  const AggFunctionsMap: map<string, AggFunction> :=
    map["sum" := AggSum, "first" := AggFirst, "last" := AggLast,
        "min" := AggMin, "max" := AggMax]

  /** `getAggFunction`: an unknown name finds nothing. */
  function GetAggFunction(name: string): Option<AggFunction> {
    if name in AggFunctionsMap then Some(AggFunctionsMap[name]) else None
  }

  /** A string is looked up in the registry, a function is used as it is, and
      anything that does not end up callable resolves to nothing. */
  function Resolve(ref: AggFuncRef): Option<AggFunction> {
    match ref
    case Named(name) => GetAggFunction(name)
    case Callable(fn) => Some(Custom(fn))
    case NotCallable => None
  }

  function Apply(f: AggFunction, values: seq<Value>): Value {
    match f
    case AggSum => SumOf(values)
    case AggFirst => FirstOf(values)
    case AggLast => LastOf(values)
    case AggMin => MinOf(values)
    case AggMax => MaxOf(values)
    case Custom(fn) => fn(values)
  }

  /** `aggregateValues`: the resolved reducer applied to `values`, or Null
      (after reporting the error) when the reference does not resolve. */
  function Aggregate(values: seq<Value>, ref: AggFuncRef): Value {
    match Resolve(ref)
    case None => Null
    case Some(f) => Apply(f, values)
  }

  // ---------------------------------------------------------------------------
  // The reducers as the source runs them: loops over an accumulator
  // ---------------------------------------------------------------------------

  method Sum(input: seq<Value>) returns (result: Value)
    ensures result == SumOf(input)
  {
    result := Null;
    var length := |input|;
    for i := 0 to length
      invariant result == SumOf(input[..i])
    {
      SumOfSnoc(input[..i], input[i]);
      assert input[..i + 1] == input[..i] + [input[i]];
      if input[i].Num? {
        if result == Null {
          result := input[i];
        } else {
          result := Num(result.n + input[i].n);
        }
      }
    }
    assert input[..length] == input;
  }

  method Min(input: seq<Value>) returns (result: Value)
    ensures result == MinOf(input)
  {
    result := Null;
    var length := |input|;
    for i := 0 to length
      invariant result == MinOf(input[..i])
    {
      MinOfSnoc(input[..i], input[i]);
      assert input[..i + 1] == input[..i] + [input[i]];
      if input[i].Num? {
        if result == Null {
          result := input[i];
        } else if result.n > input[i].n {
          result := input[i];
        }
      }
    }
    assert input[..length] == input;
  }

  method Max(input: seq<Value>) returns (result: Value)
    ensures result == MaxOf(input)
  {
    result := Null;
    var length := |input|;
    for i := 0 to length
      invariant result == MaxOf(input[..i])
    {
      MaxOfSnoc(input[..i], input[i]);
      assert input[..i + 1] == input[..i] + [input[i]];
      if input[i].Num? {
        if result == Null {
          result := input[i];
        } else if result.n < input[i].n {
          result := input[i];
        }
      }
    }
    assert input[..length] == input;
  }

  /** Calls a resolved reducer on `values`. */
  method Invoke(f: AggFunction, values: seq<Value>) returns (result: Value)
    ensures result == Apply(f, values)
  {
    match f
    case AggSum => result := Sum(values);
    case AggFirst => result := FirstOf(values);
    case AggLast => result := LastOf(values);
    case AggMin => result := Min(values);
    case AggMax => result := Max(values);
    case Custom(fn) => result := fn(values);
  }

  method AggregateValues(values: seq<Value>, aggFuncOrString: AggFuncRef) returns (result: Value)
    ensures result == Aggregate(values, aggFuncOrString)
    ensures Resolve(aggFuncOrString).None? ==> result == Null
  {
    var aggFunction := Resolve(aggFuncOrString);
    if aggFunction.None? {
      // the source reports the unrecognised function on the console here
      return Null;
    }
    result := Invoke(aggFunction.value, values);
  }

  // ---------------------------------------------------------------------------
  // Lemmas
  // ---------------------------------------------------------------------------

  lemma NumbersSnoc(s: seq<Value>, x: Value)
    ensures Numbers(s + [x]) == Numbers(s) + NumberOf(x)
  {
    assert (s + [x])[..|s|] == s;
  }

  lemma TotalSnoc(xs: seq<int>, x: int)
    ensures Total(xs + [x]) == Total(xs) + x
  {
    assert (xs + [x])[..|xs|] == xs;
  }

  lemma NumbersSingleton(v: Value)
    ensures Numbers([v]) == NumberOf(v)
  {
    assert [v] == [] + [v];
    NumbersSnoc([], v);
  }

  lemma NumbersPair(v: Value, w: Value)
    ensures Numbers([v, w]) == NumberOf(v) + NumberOf(w)
  {
    assert [v, w] == [v] + [w];
    NumbersSnoc([v], w);
    NumbersSingleton(v);
  }

  lemma TotalSmall(x: int, y: int)
    ensures Total([]) == 0 && Total([x]) == x && Total([x, y]) == x + y
  {
    assert [x] == [] + [x];
    TotalSnoc([], x);
    assert [x, y] == [x] + [y];
    TotalSnoc([x], y);
  }

  /** One step of the `min` loop: a number replaces the accumulator when the
      accumulator is null or greater. */
  lemma MinOfSnoc(s: seq<Value>, v: Value)
    ensures MinOf(s + [v]) ==
      if !v.Num? then MinOf(s)
      else if MinOf(s) == Null || MinOf(s).n > v.n then v
      else MinOf(s)
  {
    NumbersSnoc(s, v);
    var ns := Numbers(s);
    if v.Num? {
      assert (ns + [v.n])[..|ns|] == ns;
    } else {
      assert ns + [] == ns;
    }
  }

  /** One step of the `max` loop. */
  lemma MaxOfSnoc(s: seq<Value>, v: Value)
    ensures MaxOf(s + [v]) ==
      if !v.Num? then MaxOf(s)
      else if MaxOf(s) == Null || MaxOf(s).n < v.n then v
      else MaxOf(s)
  {
    NumbersSnoc(s, v);
    var ns := Numbers(s);
    if v.Num? {
      assert (ns + [v.n])[..|ns|] == ns;
    } else {
      assert ns + [] == ns;
    }
  }

  /** One step of the `sum` loop: the first number seeds the accumulator,
      later numbers are added to it. */
  lemma SumOfSnoc(s: seq<Value>, v: Value)
    ensures SumOf(s + [v]) ==
      if !v.Num? then SumOf(s)
      else if SumOf(s) == Null then v
      else Num(SumOf(s).n + v.n)
  {
    NumbersSnoc(s, v);
    var ns := Numbers(s);
    if v.Num? {
      TotalSnoc(ns, v.n);
      TotalSmall(v.n, 0);
    } else {
      assert ns + [] == ns;
    }
  }

  lemma {:induction false} NumbersConcat(s: seq<Value>, t: seq<Value>)
    ensures Numbers(s + t) == Numbers(s) + Numbers(t)
  {
    if t == [] {
      assert s + t == s;
    } else {
      var t', x := t[..|t| - 1], t[|t| - 1];
      assert t == t' + [x];
      assert s + t == (s + t') + [x];
      NumbersConcat(s, t');
      NumbersSnoc(s + t', x);
      NumbersSnoc(t', x);
    }
  }

  lemma {:induction false} TotalConcat(xs: seq<int>, ys: seq<int>)
    ensures Total(xs + ys) == Total(xs) + Total(ys)
  {
    if ys == [] {
      assert xs + ys == xs;
    } else {
      var ys', y := ys[..|ys| - 1], ys[|ys| - 1];
      assert ys == ys' + [y];
      assert xs + ys == (xs + ys') + [y];
      TotalConcat(xs, ys');
      TotalSnoc(xs + ys', y);
      TotalSnoc(ys', y);
    }
  }

  /** The numbers `Numbers` keeps are exactly the numeric elements of the input. */
  lemma {:induction false} NumbersAreNumericElements(input: seq<Value>)
    ensures forall x :: x in Numbers(input) <==> Num(x) in input
    ensures Numbers(input) == [] <==> !HasNumber(input)
  {
    if input != [] {
      var s, v := input[..|input| - 1], input[|input| - 1];
      assert input == s + [v];
      NumbersAreNumericElements(s);
      NumbersSnoc(s, v);
      if HasNumber(s) {
        var i :| 0 <= i < |s| && s[i].Num?;
        assert input[i] == s[i];
      }
      if v.Num? {
        assert input[|input| - 1].Num?;
      }
      if HasNumber(input) && !v.Num? {
        var i :| 0 <= i < |input| && input[i].Num?;
        assert i < |s| && s[i] == input[i];
      }
    }
  }

  lemma {:induction false} MinimumIsLeast(xs: seq<int>)
    requires xs != []
    ensures Minimum(xs) in xs
    ensures forall x :: x in xs ==> Minimum(xs) <= x
  {
    if |xs| > 1 {
      var p := xs[..|xs| - 1];
      assert xs == p + [xs[|xs| - 1]];
      MinimumIsLeast(p);
    }
  }

  lemma {:induction false} MaximumIsGreatest(xs: seq<int>)
    requires xs != []
    ensures Maximum(xs) in xs
    ensures forall x :: x in xs ==> x <= Maximum(xs)
  {
    if |xs| > 1 {
      var p := xs[..|xs| - 1];
      assert xs == p + [xs[|xs| - 1]];
      MaximumIsGreatest(p);
    }
  }

  /** The total of the numeric elements, computed front to back with 0 for
      every other element: an independent reference for `sum`. */
  function NumericTotal(input: seq<Value>): int {
    if input == [] then 0
    else (if input[0].Num? then input[0].n else 0) + NumericTotal(input[1..])
  }

  lemma {:induction false} NumericTotalIsTotal(input: seq<Value>)
    ensures NumericTotal(input) == Total(Numbers(input))
  {
    if input != [] {
      var v, rest := input[0], input[1..];
      NumericTotalIsTotal(rest);
      assert input == [v] + rest;
      NumbersConcat([v], rest);
      NumbersSingleton(v);
      TotalConcat(NumberOf(v), Numbers(rest));
      if v.Num? {
        TotalSmall(v.n, 0);
      }
    }
  }

  /** `sum` ignores every non-number: it is Null exactly when no element is a
      number, and otherwise the total of the numeric elements. */
  lemma SumOfMeaning(input: seq<Value>)
    ensures SumOf(input) == Null <==> !HasNumber(input)
    ensures HasNumber(input) ==> SumOf(input) == Num(NumericTotal(input))
  {
    NumbersAreNumericElements(input);
    NumericTotalIsTotal(input);
  }

  /** `min` yields Null exactly when no element is a number; otherwise one of
      the numeric inputs that is at most every numeric input. */
  lemma MinOfMeaning(input: seq<Value>)
    ensures MinOf(input) == Null <==> !HasNumber(input)
    ensures MinOf(input).Num? || MinOf(input).Null?
    ensures MinOf(input).Num? ==>
      MinOf(input) in input &&
      forall i :: 0 <= i < |input| && input[i].Num? ==> MinOf(input).n <= input[i].n
  {
    NumbersAreNumericElements(input);
    var ns := Numbers(input);
    if ns != [] {
      MinimumIsLeast(ns);
      forall i | 0 <= i < |input| && input[i].Num?
        ensures Minimum(ns) <= input[i].n
      {
        assert Num(input[i].n) in input;
      }
    }
  }

  /** `max` yields Null exactly when no element is a number; otherwise one of
      the numeric inputs that is at least every numeric input. */
  lemma MaxOfMeaning(input: seq<Value>)
    ensures MaxOf(input) == Null <==> !HasNumber(input)
    ensures MaxOf(input).Num? || MaxOf(input).Null?
    ensures MaxOf(input).Num? ==>
      MaxOf(input) in input &&
      forall i :: 0 <= i < |input| && input[i].Num? ==> input[i].n <= MaxOf(input).n
  {
    NumbersAreNumericElements(input);
    var ns := Numbers(input);
    if ns != [] {
      MaximumIsGreatest(ns);
      forall i | 0 <= i < |input| && input[i].Num?
        ensures input[i].n <= Maximum(ns)
      {
        assert Num(input[i].n) in input;
      }
    }
  }

  /** Summing two parts and then summing the two partial sums gives the sum
      of the whole: the fact that lets a parent group read its children's
      already-aggregated sums instead of their rows. */
  lemma SumOfConcat(s: seq<Value>, t: seq<Value>)
    ensures SumOf(s + t) == SumOf([SumOf(s), SumOf(t)])
  {
    NumbersConcat(s, t);
    TotalConcat(Numbers(s), Numbers(t));
    SumOfPair(SumOf(s), SumOf(t));
    if Numbers(s) == [] {
      assert Numbers(s) + Numbers(t) == Numbers(t);
    } else if Numbers(t) == [] {
      assert Numbers(s) + Numbers(t) == Numbers(s);
    }
  }

  /** The sum of two partial sums (each a number or Null). */
  lemma SumOfPair(a: Value, b: Value)
    requires (a.Num? || a.Null?) && (b.Num? || b.Null?)
    ensures SumOf([a, b]) ==
      if a.Null? && b.Null? then Null
      else Num((if a.Num? then a.n else 0) + (if b.Num? then b.n else 0))
  {
    NumbersPair(a, b);
    if a.Num? && b.Num? {
      TotalSmall(a.n, b.n);
      assert NumberOf(a) + NumberOf(b) == [a.n, b.n];
    } else if a.Num? {
      TotalSmall(a.n, 0);
      assert NumberOf(a) + NumberOf(b) == [a.n];
    } else if b.Num? {
      TotalSmall(b.n, 0);
      assert NumberOf(a) + NumberOf(b) == [b.n];
    } else {
      assert NumberOf(a) + NumberOf(b) == [];
    }
  }

  lemma {:induction false} MinimumConcat(xs: seq<int>, ys: seq<int>)
    requires xs != [] && ys != []
    ensures Minimum(xs + ys) == if Minimum(xs) > Minimum(ys) then Minimum(ys) else Minimum(xs)
  {
    var zs := xs + ys;
    if |ys| == 1 {
      assert zs[..|zs| - 1] == xs;
    } else {
      var ys' := ys[..|ys| - 1];
      assert zs[..|zs| - 1] == xs + ys';
      MinimumConcat(xs, ys');
    }
  }

  lemma {:induction false} MaximumConcat(xs: seq<int>, ys: seq<int>)
    requires xs != [] && ys != []
    ensures Maximum(xs + ys) == if Maximum(xs) < Maximum(ys) then Maximum(ys) else Maximum(xs)
  {
    var zs := xs + ys;
    if |ys| == 1 {
      assert zs[..|zs| - 1] == xs;
    } else {
      var ys' := ys[..|ys| - 1];
      assert zs[..|zs| - 1] == xs + ys';
      MaximumConcat(xs, ys');
    }
  }

  /** The minimum of two parts' minima is the minimum of the whole. */
  lemma MinOfConcat(s: seq<Value>, t: seq<Value>)
    ensures MinOf(s + t) == MinOf([MinOf(s), MinOf(t)])
  {
    NumbersConcat(s, t);
    var ns, nt := Numbers(s), Numbers(t);
    var a, b := MinOf(s), MinOf(t);
    NumbersPair(a, b);
    if ns != [] && nt != [] {
      MinimumConcat(ns, nt);
      assert NumberOf(a) + NumberOf(b) == [a.n, b.n];
      assert [a.n, b.n] == [a.n] + [b.n];
      MinimumConcat([a.n], [b.n]);
    } else if ns != [] {
      assert ns + nt == ns;
      assert NumberOf(a) + NumberOf(b) == [a.n];
    } else if nt != [] {
      assert ns + nt == nt;
      assert NumberOf(a) + NumberOf(b) == [b.n];
    } else {
      assert ns + nt == [];
    }
  }

  /** The maximum of two parts' maxima is the maximum of the whole. */
  lemma MaxOfConcat(s: seq<Value>, t: seq<Value>)
    ensures MaxOf(s + t) == MaxOf([MaxOf(s), MaxOf(t)])
  {
    NumbersConcat(s, t);
    var ns, nt := Numbers(s), Numbers(t);
    var a, b := MaxOf(s), MaxOf(t);
    NumbersPair(a, b);
    if ns != [] && nt != [] {
      MaximumConcat(ns, nt);
      assert NumberOf(a) + NumberOf(b) == [a.n, b.n];
      assert [a.n, b.n] == [a.n] + [b.n];
      MaximumConcat([a.n], [b.n]);
    } else if ns != [] {
      assert ns + nt == ns;
      assert NumberOf(a) + NumberOf(b) == [a.n];
    } else if nt != [] {
      assert ns + nt == nt;
      assert NumberOf(a) + NumberOf(b) == [b.n];
    } else {
      assert ns + nt == [];
    }
  }

  /** `first` and `last` select by position and do not filter: on a non-empty
      input they return the element at that position, whatever its kind. */
  lemma FirstLastSelect(input: seq<Value>, v: Value)
    ensures FirstOf([v] + input) == v
    ensures LastOf(input + [v]) == v
  {
  }

  /** As written, the guard of `first`/`last` never fails, so the Null branch
      is dead and an empty input yields undefined rather than Null. */
  lemma FirstLastAsWrittenOnEmpty()
    ensures FirstAsWritten([]) == Undefined && LastAsWritten([]) == Undefined
    ensures forall s: seq<Value> :: FirstAsWritten(s) != Null || (|s| > 0 && s[0] == Null)
  {
  }

  /** With the intended guard, `first`/`last` agree with the code as written
      on every non-empty input, and an empty input gives the same "no value"
      marker as the numeric reducers give when there is nothing to reduce. */
  lemma FirstLastCorrected(input: seq<Value>)
    ensures |input| > 0 ==> FirstOf(input) == FirstAsWritten(input) && LastOf(input) == LastAsWritten(input)
    ensures |input| == 0 ==> FirstOf(input) == SumOf(input) == Null && LastOf(input) == Null
  {
  }

  /** Each of the five registry names runs its own reducer. */
  lemma RegistryNames(values: seq<Value>)
    ensures Aggregate(values, Named("sum")) == SumOf(values)
    ensures Aggregate(values, Named("min")) == MinOf(values)
    ensures Aggregate(values, Named("max")) == MaxOf(values)
    ensures Aggregate(values, Named("first")) == FirstOf(values)
    ensures Aggregate(values, Named("last")) == LastOf(values)
  {
  }

  /** A supplied function is called with the values as they are; a reference
      that does not resolve gives Null whatever the values. */
  lemma ResolutionOutcomes(values: seq<Value>, fn: seq<Value> -> Value, name: string)
    ensures Aggregate(values, Callable(fn)) == fn(values)
    ensures Aggregate(values, NotCallable) == Null
    ensures name !in AggFunctionsMap ==> Aggregate(values, Named(name)) == Null
  {
  }

  // ---------------------------------------------------------------------------
  // Rolling up partial results
  // ---------------------------------------------------------------------------

  /** The parts joined end to end, in order. */
  function Flatten(parts: seq<seq<Value>>): seq<Value> {
    if parts == [] then [] else Flatten(parts[..|parts| - 1]) + parts[|parts| - 1]
  }

  /** The reducers whose result depends only on the numbers of the input. */
  predicate IsNumeric(f: AggFunction) {
    f.AggSum? || f.AggMin? || f.AggMax?
  }

  /** `f` applied to each part separately. */
  function PartialResults(f: AggFunction, parts: seq<seq<Value>>): (r: seq<Value>)
    ensures |r| == |parts|
  {
    seq(|parts|, i requires 0 <= i < |parts| => Apply(f, parts[i]))
  }

  lemma {:induction false} NumbersPointwise(xs: seq<Value>, ys: seq<Value>)
    requires |xs| == |ys|
    requires forall i :: 0 <= i < |xs| ==> NumberOf(xs[i]) == NumberOf(ys[i])
    ensures Numbers(xs) == Numbers(ys)
  {
    if xs != [] {
      var m := |xs| - 1;
      NumbersPointwise(xs[..m], ys[..m]);
    }
  }

  /** A numeric reducer's result is a number or Null, and reducing it again
      on its own changes nothing. */
  lemma NumericResult(f: AggFunction, s: seq<Value>)
    requires IsNumeric(f)
    ensures Apply(f, s).Num? || Apply(f, s).Null?
    ensures Apply(f, [Apply(f, s)]) == Apply(f, s)
  {
    var r := Apply(f, s);
    NumbersSingleton(r);
    if r.Num? {
      TotalSmall(r.n, 0);
    }
  }

  /** A single leaf value counts in a rolled-up numeric reduction exactly as
      the reduction of that value alone does. */
  lemma NumericSingleton(f: AggFunction, v: Value)
    requires IsNumeric(f)
    ensures NumberOf(Apply(f, [v])) == NumberOf(v)
  {
    NumbersSingleton(v);
    if v.Num? {
      TotalSmall(v.n, 0);
    }
  }

  lemma NumericConcat(f: AggFunction, s: seq<Value>, t: seq<Value>)
    requires IsNumeric(f)
    ensures Apply(f, s + t) == Apply(f, [Apply(f, s), Apply(f, t)])
  {
    match f
    case AggSum => SumOfConcat(s, t);
    case AggMin => MinOfConcat(s, t);
    case AggMax => MaxOfConcat(s, t);
  }

  /** For `sum`, `min` and `max`, reducing the parts' results gives the
      result over all parts together: a group may aggregate its children's
      aggregates instead of every row below it. */
  lemma PartialResultsSnoc(f: AggFunction, parts: seq<seq<Value>>)
    requires parts != []
    ensures PartialResults(f, parts)
         == PartialResults(f, parts[..|parts| - 1]) + [Apply(f, parts[|parts| - 1])]
  {
  }

  /** For `sum`, `min` and `max`, reducing the parts' results gives the
      result over all parts together: a group may aggregate its children's
      aggregates instead of every row below it. */
  lemma {:induction false} NumericRollup(f: AggFunction, parts: seq<seq<Value>>)
    requires IsNumeric(f)
    ensures Apply(f, PartialResults(f, parts)) == Apply(f, Flatten(parts))
  {
    if parts == [] {
      assert PartialResults(f, parts) == [];
    } else {
      var m := |parts| - 1;
      var init, last := parts[..m], parts[m];
      var a, b := PartialResults(f, init), Flatten(init);
      NumericRollup(f, init);
      PartialResultsSnoc(f, parts);
      NumericConcat(f, a, [Apply(f, last)]);
      NumericResult(f, last);
      NumericConcat(f, b, last);
      calc {
        Apply(f, PartialResults(f, parts));
        Apply(f, a + [Apply(f, last)]);
        Apply(f, [Apply(f, a), Apply(f, [Apply(f, last)])]);
        Apply(f, [Apply(f, b), Apply(f, last)]);
        Apply(f, b + last);
      }
    }
  }

  /** A group's values that count as its parts' results roll up to the
      result over all parts. */
  lemma RollupStep(f: AggFunction, values: seq<Value>, parts: seq<seq<Value>>)
    requires IsNumeric(f) && |values| == |parts|
    requires forall i :: 0 <= i < |values| ==> NumberOf(values[i]) == NumberOf(Apply(f, parts[i]))
    ensures Apply(f, values) == Apply(f, Flatten(parts))
  {
    var partials := PartialResults(f, parts);
    NumbersPointwise(values, partials);
    NumericSameNumbers(f, values, partials);
    NumericRollup(f, parts);
  }

  lemma NumericSameNumbers(f: AggFunction, s: seq<Value>, t: seq<Value>)
    requires IsNumeric(f) && Numbers(s) == Numbers(t)
    ensures Apply(f, s) == Apply(f, t)
  {
  }
}
