/** `DataTransformation`: choose the continuous columns from the training
    table, cap their outliers in place in both tables, split off the target,
    fit the column transformer on the training features only, and append the
    target to every transformed row. */
module DataTransformation {
  import opened Common
  import opened Params
  import opened Library
  import opened Storage

  /** Selection threshold: a numerical column with at least this many distinct
      training values is continuous. */
  const ContinuousThreshold := 25

  /** `len(series.unique())` */
  function DistinctCount(v: seq<real>): nat {
    |set x | x in v|
  }

  /** `a` keeps some of the elements of `b`, in `b`'s order. */
  predicate IsSubsequence<T(==)>(a: seq<T>, b: seq<T>)
    decreases |b|
  {
    if |a| == 0 then true
    else if |b| == 0 then false
    else if a[0] == b[0] then IsSubsequence(a[1..], b[1..])
    else IsSubsequence(a, b[1..])
  }

  /** A column of the table with at least the threshold of distinct values. */
  predicate IsContinuous(train: Table, c: string) {
    train.Get(c).Ok? && DistinctCount(train.Get(c).value) >= ContinuousThreshold
  }

  /** Filtering keeps every copy of a kept element, none of the others, and
      the order of `s`: the step from the tail of `s` to the whole of it. */
  lemma {:induction false} FilterStep<T>(s: seq<T>, rest: seq<T>, keep: T -> bool)
    requires |s| > 0
    requires IsSubsequence(rest, s[1..])
    requires forall c :: multiset(rest)[c] == (if keep(c) then multiset(s[1..])[c] else 0)
    ensures var r := if keep(s[0]) then [s[0]] + rest else rest;
      && IsSubsequence(r, s)
      && (forall c :: multiset(r)[c] == (if keep(c) then multiset(s)[c] else 0))
      && (forall c :: c in r <==> c in s && keep(c))
  {
    var r := if keep(s[0]) then [s[0]] + rest else rest;
    assert multiset(s) == multiset{s[0]} + multiset(s[1..]) by { assert s == [s[0]] + s[1..]; }
    if keep(s[0]) {
      assert r[1..] == rest;
    } else {
      SubsequenceOfTail(rest, s);
    }
    forall c ensures c in r <==> c in s && keep(c) {
      assert c in r <==> multiset(r)[c] > 0;
      assert c in s <==> multiset(s)[c] > 0;
    }
  }

  /** The comprehension over `numerical_columns`; `train_set[feature]` raises
      for a configured column the table lacks. */
  function ContinuousColumns(numerical: seq<string>, train: Table): (r: Result<seq<string>>)
    ensures r.Err? <==> exists c :: c in numerical && c !in train.Names()
    ensures r.Err? ==> exists c :: c in numerical && c !in train.Names() && r.error == KeyMissing(c)
    ensures r.Ok? ==> forall c :: c in r.value <==> c in numerical && IsContinuous(train, c)
    ensures r.Ok? ==> IsSubsequence(r.value, numerical)
    ensures r.Ok? ==> forall c :: multiset(r.value)[c] == (if IsContinuous(train, c) then multiset(numerical)[c] else 0)
  {
    if |numerical| == 0 then Ok([])
    else
      assert forall c :: c in numerical <==> c == numerical[0] || c in numerical[1..];
      var values := train.Get(numerical[0]);
      match values
      case Err(e) => Err(e)
      case Ok(v) =>
        match ContinuousColumns(numerical[1..], train)
        case Err(e) => Err(e)
        case Ok(rest) =>
          FilterStep(numerical, rest, (c: string) => IsContinuous(train, c));
          if DistinctCount(v) >= ContinuousThreshold then Ok([numerical[0]] + rest) else Ok(rest)
  }

  lemma {:induction false} SubsequenceOfTail<T>(a: seq<T>, b: seq<T>)
    requires |b| > 0 && IsSubsequence(a, b[1..])
    ensures IsSubsequence(a, b)
    decreases |b|
  {
    if |a| > 0 && a[0] == b[0] {
      if |b| > 1 {
        assert IsSubsequence(a[1..], b[1..][1..]) by {
          if a[0] == b[1..][0] {
          } else {
            SubsequenceDropFirst(a, b[1..]);
          }
        }
        SubsequenceOfTail(a[1..], b[1..]);
      }
    }
  }

  lemma {:induction false} SubsequenceDropFirst<T>(a: seq<T>, b: seq<T>)
    requires |a| > 0 && IsSubsequence(a, b)
    ensures |b| > 0 && IsSubsequence(a[1..], b[1..])
    decreases |b|
  {
    if a[0] != b[0] {
      SubsequenceDropFirst(a, b[1..]);
      SubsequenceOfTail(a[1..], b[1..]);
    }
  }

  /** The two masked writes of `_outlier_capping`, in order: values above the
      upper limit become it, then values below the lower limit become it. */
  function CapValue(x: real, lower: real, upper: real): (y: real)
    ensures lower <= upper ==> lower <= y <= upper
    ensures upper < x ==> y == (if upper < lower then lower else upper)
    ensures x < lower ==> y == lower
    ensures lower <= x <= upper ==> y == x
  {
    var afterUpper := if x > upper then upper else x;
    if afterUpper < lower then lower else afterUpper
  }

  function CapValues(v: seq<real>, lower: real, upper: real): (r: seq<real>)
    ensures |r| == |v|
    ensures forall j :: 0 <= j < |v| ==> r[j] == CapValue(v[j], lower, upper)
  {
    seq(|v|, j requires 0 <= j < |v| => CapValue(v[j], lower, upper))
  }

  /** `(lower_limit, upper_limit)` from the column's own quartiles. */
  function Limits(quantile: (seq<real>, real) -> real, v: seq<real>): (real, real) {
    var p25 := quantile(v, 0.25);
    var p75 := quantile(v, 0.75);
    var iqr := p75 - p25;
    (p25 - 1.5 * iqr, p75 + 1.5 * iqr)
  }

  /** Ordered quartiles give ordered limits. */
  lemma LimitsOrdered(quantile: (seq<real>, real) -> real, v: seq<real>)
    requires quantile(v, 0.25) <= quantile(v, 0.75)
    ensures Limits(quantile, v).0 <= Limits(quantile, v).1
  {
  }

  /** `_outlier_capping(col, df)` on the table's value. */
  function CapColumn(quantile: (seq<real>, real) -> real, t: Table, col: string): (r: Result<Table>)
    ensures r.Err? <==> col !in t.Names()
    ensures r.Err? ==> r.error == Wrapped(KeyMissing(col))
    ensures r.Ok? ==> |r.value.columns| == |t.columns| && r.value.Names() == t.Names()
    ensures r.Ok? ==> forall j :: 0 <= j < |t.columns| ==> |r.value.columns[j].values| == |t.columns[j].values|
    ensures r.Ok? ==> exists i :: (
      && 0 <= i < |t.columns| && t.columns[i].name == col && col !in t.Names()[..i]
      && (forall j :: 0 <= j < |t.columns| && j != i ==> r.value.columns[j] == t.columns[j])
      && var (lower, upper) := Limits(quantile, t.columns[i].values);
         r.value.columns[i].values == CapValues(t.columns[i].values, lower, upper))
  {
    match IndexOf(t.Names(), col)
    case None => Err(Wrapped(KeyMissing(col)))
    case Some(i) =>
      var v := t.columns[i].values;
      var (lower, upper) := Limits(quantile, v);
      var r := Table(t.columns[i := Column(col, CapValues(v, lower, upper))]);
      assert r.Names() == t.Names();
      Ok(r)
  }

  /** Every value of the capped column lies between the limits, when the quartiles are ordered. */
  lemma CapColumnBounds(quantile: (seq<real>, real) -> real, t: Table, col: string, i: nat)
    requires i < |t.columns| && t.columns[i].name == col && col !in t.Names()[..i]
    requires quantile(t.columns[i].values, 0.25) <= quantile(t.columns[i].values, 0.75)
    ensures CapColumn(quantile, t, col).Ok?
    ensures var (lower, upper) := Limits(quantile, t.columns[i].values);
      forall x :: x in CapColumn(quantile, t, col).value.columns[i].values ==> lower <= x <= upper
  {
    var r := CapColumn(quantile, t, col).value;
    var k :| 0 <= k < |t.columns| && t.columns[k].name == col && col !in t.Names()[..k]
      && (forall j :: 0 <= j < |t.columns| && j != k ==> r.columns[j] == t.columns[j])
      && var (lower, upper) := Limits(quantile, t.columns[k].values);
         r.columns[k].values == CapValues(t.columns[k].values, lower, upper);
    assert k == i by {
      assert t.Names()[k] == col && t.Names()[i] == col;
      assert forall m :: 0 <= m < i ==> t.Names()[m] != col by {
        forall m | 0 <= m < i ensures t.Names()[m] != col { assert t.Names()[..i][m] == t.Names()[m]; }
      }
      assert forall m :: 0 <= m < k ==> t.Names()[m] != col by {
        forall m | 0 <= m < k ensures t.Names()[m] != col { assert t.Names()[..k][m] == t.Names()[m]; }
      }
    }
    LimitsOrdered(quantile, t.columns[i].values);
  }

  /** Capping with fixed limits a second time changes nothing. */
  lemma CapValuesIdempotent(v: seq<real>, lower: real, upper: real)
    ensures CapValues(CapValues(v, lower, upper), lower, upper) == CapValues(v, lower, upper)
  {
  }

  /** The list comprehension of `_outlier_capping` calls over `cols`, in order. */
  function CapAll(quantile: (seq<real>, real) -> real, t: Table, cols: seq<string>): (r: Result<Table>)
    decreases |cols|
    ensures r.Ok? <==> forall c :: c in cols ==> c in t.Names()
    ensures r.Err? ==> exists c :: c in cols && r.error == Wrapped(KeyMissing(c))
    ensures r.Ok? ==> r.value.Names() == t.Names() && |r.value.columns| == |t.columns|
    ensures r.Ok? ==> forall j :: 0 <= j < |t.columns| ==> |r.value.columns[j].values| == |t.columns[j].values|
    ensures r.Ok? ==> forall j :: 0 <= j < |t.columns| && t.columns[j].name !in cols ==> r.value.columns[j] == t.columns[j]
  {
    if |cols| == 0 then Ok(t)
    else
      match CapColumn(quantile, t, cols[0])
      case Err(e) => Err(e)
      case Ok(t') =>
        var r := CapAll(quantile, t', cols[1..]);
        assert forall c :: c in cols <==> c == cols[0] || c in cols[1..];
        if r.Ok? then
          assert forall j :: 0 <= j < |t.columns| && t.columns[j].name != cols[0] ==> t'.columns[j] == t.columns[j] by {
            forall j | 0 <= j < |t.columns| && t.columns[j].name != cols[0]
              ensures t'.columns[j] == t.columns[j]
            {
              var i :| 0 <= i < |t.columns| && t.columns[i].name == cols[0]
                && (forall j :: 0 <= j < |t.columns| && j != i ==> t'.columns[j] == t.columns[j]);
            }
          }
          assert forall j :: 0 <= j < |t.columns| ==> t'.columns[j].name == t.columns[j].name by {
            forall j | 0 <= j < |t.columns| ensures t'.columns[j].name == t.columns[j].name {
              assert t'.Names()[j] == t.Names()[j];
            }
          }
          r
        else r
  }

  /** Capping with limits from the column's own quartiles. */
  function CapOwn(quantile: (seq<real>, real) -> real, v: seq<real>): seq<real> {
    CapValues(v, Limits(quantile, v).0, Limits(quantile, v).1)
  }

  /** Column `j` is the first of its name, the one `df[name]` selects. */
  predicate FirstOfName(t: Table, j: nat)
    requires j < |t.columns|
  {
    t.columns[j].name !in t.Names()[..j]
  }

  /** Two columns that are each the first of the same name are one column. */
  lemma FirstOfNameUnique(t: Table, i: nat, j: nat)
    requires i < |t.columns| && j < |t.columns| && FirstOfName(t, i) && FirstOfName(t, j)
    requires t.columns[i].name == t.columns[j].name
    ensures i == j
  {
    assert forall m :: 0 <= m < j ==> t.Names()[..j][m] == t.columns[m].name;
    assert forall m :: 0 <= m < i ==> t.Names()[..i][m] == t.columns[m].name;
  }

  /** What `CapAll` does to each column, for a list that names no column
      twice: the first column of each listed name is capped with limits from
      its own quartiles, and every other column is left as it was. */
  lemma {:induction false} CapAllCaps(quantile: (seq<real>, real) -> real, t: Table, cols: seq<string>)
    requires CapAll(quantile, t, cols).Ok?
    requires forall c :: multiset(cols)[c] <= 1
    ensures var r := CapAll(quantile, t, cols).value;
      forall j :: 0 <= j < |t.columns| && t.columns[j].name in cols && FirstOfName(t, j) ==>
        r.columns[j].values == CapOwn(quantile, t.columns[j].values)
    ensures var r := CapAll(quantile, t, cols).value;
      forall j :: 0 <= j < |t.columns| && !(t.columns[j].name in cols && FirstOfName(t, j)) ==>
        r.columns[j] == t.columns[j]
    decreases |cols|
  {
    if |cols| > 0 {
      var t' := CapColumn(quantile, t, cols[0]).value;
      var r := CapAll(quantile, t, cols).value;
      assert CapAll(quantile, t', cols[1..]) == Ok(r);
      assert multiset(cols) == multiset{cols[0]} + multiset(cols[1..]) by { assert cols == [cols[0]] + cols[1..]; }
      assert forall c :: multiset(cols)[c] == multiset{cols[0]}[c] + multiset(cols[1..])[c];
      assert cols[0] !in cols[1..] by {
        assert multiset(cols)[cols[0]] == 1 + multiset(cols[1..])[cols[0]];
      }
      CapAllCaps(quantile, t', cols[1..]);
      forall j | 0 <= j < |t.columns|
        ensures t.columns[j].name in cols && FirstOfName(t, j) ==> r.columns[j].values == CapOwn(quantile, t.columns[j].values)
        ensures !(t.columns[j].name in cols && FirstOfName(t, j)) ==> r.columns[j] == t.columns[j]
      {
        CapColumnEffect(quantile, t, cols[0], j);
        var n := t.columns[j].name;
        assert n in cols <==> n == cols[0] || n in cols[1..];
        if n == cols[0] {
          assert r.columns[j] == t'.columns[j];
        } else {
          assert t'.columns[j] == t.columns[j];
        }
      }
    }
  }

  /** What `CapColumn` does to column `j`: it keeps its name and whether it is
      the first of that name, and it is capped with its own limits exactly
      when it is the first column named `col`. */
  lemma CapColumnEffect(quantile: (seq<real>, real) -> real, t: Table, col: string, j: nat)
    requires CapColumn(quantile, t, col).Ok? && j < |t.columns|
    ensures var t' := CapColumn(quantile, t, col).value;
      && j < |t'.columns| && t'.columns[j].name == t.columns[j].name && FirstOfName(t', j) == FirstOfName(t, j)
      && (t.columns[j].name == col && FirstOfName(t, j) ==> t'.columns[j].values == CapOwn(quantile, t.columns[j].values))
      && (!(t.columns[j].name == col && FirstOfName(t, j)) ==> t'.columns[j] == t.columns[j])
  {
    var t' := CapColumn(quantile, t, col).value;
    var i :| 0 <= i < |t.columns| && t.columns[i].name == col && col !in t.Names()[..i]
      && (forall j :: 0 <= j < |t.columns| && j != i ==> t'.columns[j] == t.columns[j])
      && var (lower, upper) := Limits(quantile, t.columns[i].values);
         t'.columns[i].values == CapValues(t.columns[i].values, lower, upper);
    assert t'.columns[j].name == t.columns[j].name by { assert t'.Names()[j] == t.Names()[j]; }
    assert t'.Names()[..j] == t.Names()[..j];
    if j != i && t.columns[j].name == col && FirstOfName(t, j) {
      FirstOfNameUnique(t, i, j);
    }
  }

  /** Splits off `train_set[target]` and `train_set.drop(columns=[target])`;
      both raise when the table has no such column. */
  function SplitTarget(t: Table, target: string): (r: Result<(Table, seq<real>)>)
    ensures r.Err? <==> target !in t.Names()
    ensures r.Err? ==> r.error == KeyMissing(target)
    ensures r.Ok? ==> t.Get(target) == Ok(r.value.1)
    ensures r.Ok? ==> target !in r.value.0.Names()
    ensures r.Ok? ==> forall c :: c in r.value.0.columns <==> c in t.columns && c.name != target
    ensures r.Ok? ==> IsSubsequence(r.value.0.columns, t.columns)
    ensures r.Ok? ==> forall c :: multiset(r.value.0.columns)[c] == (if c.name != target then multiset(t.columns)[c] else 0)
  {
    match t.Get(target)
    case Err(e) => Err(e)
    case Ok(y) =>
      var features := DropNamed(t.columns, target);
      assert forall k :: 0 <= k < |features| ==> features[k].name != target;
      Ok((Table(features), y))
  }

  /** The columns not named `name`, in order. */
  function DropNamed(cols: seq<Column>, name: string): (r: seq<Column>)
    ensures forall c :: c in r <==> c in cols && c.name != name
    ensures IsSubsequence(r, cols)
    ensures forall c :: multiset(r)[c] == (if c.name != name then multiset(cols)[c] else 0)
  {
    if |cols| == 0 then []
    else
      var rest := DropNamed(cols[1..], name);
      FilterStep(cols, rest, (c: Column) => c.name != name);
      if cols[0].name != name then [cols[0]] + rest else rest
  }

  /** `np.c_[features, target]`: the target appended to each row as its last
      element; arrays of different lengths raise. */
  function AppendTarget(features: Matrix, target: seq<real>): (r: Result<Matrix>)
    ensures r.Ok? <==> |features.rows| == |target|
    ensures r.Err? ==> r.error == ShapeMismatch
    ensures r.Ok? ==> r.value.width == features.width + 1 && |r.value.rows| == |target|
    ensures r.Ok? ==> forall i :: 0 <= i < |target| ==>
      r.value.rows[i][..features.width] == features.rows[i] && r.value.rows[i][features.width] == target[i]
  {
    if |features.rows| != |target| then Err(ShapeMismatch)
    else
      var rows := seq(|target|, i requires 0 <= i < |target| => features.rows[i] + [target[i]]);
      assert forall i :: 0 <= i < |target| ==> rows[i][..features.width] == features.rows[i];
      Ok(Array2(features.width + 1, rows))
  }

  /** `get_data_transformer_object`: the column groups taken from the schema. */
  function TransformerObject(schema: Schema): (spec: TransformerSpec)
    ensures spec.onehotColumns == schema.onehotColumns && spec.binaryColumns == schema.binaryColumns
    ensures spec.numericalColumns == schema.numericalColumns
  {
    TransformerSpec(schema.onehotColumns, schema.binaryColumns, schema.numericalColumns)
  }

  /** Everything `initiate_data_transformation` produces. */
  datatype TransformOutput = TransformOutput(
    trainCapped: Table, testCapped: Table, preprocessor: Preprocessor, trainArr: Matrix, testArr: Matrix)

  function PreprocessorPath(artifactsDir: string): string {
    artifactsDir + "/preprocessor.pkl"
  }

  /** The values `initiate_data_transformation` computes; its errors come wrapped. */
  function Transformation(lib: Library, schema: Schema, train: Table, test: Table): Result<TransformOutput>
  {
    match CapBoth(lib, schema, train, test)
    case Err(e) => Err(e)
    case Ok((train', test')) => Encode(lib, schema, train', test')
  }

  /** The capping: the continuous columns are chosen on the training table,
      then capped in the training table and in the test table. */
  function CapBoth(lib: Library, schema: Schema, train: Table, test: Table): Result<(Table, Table)>
  {
    match ContinuousColumns(schema.numericalColumns, train)
    case Err(e) => Err(Wrapped(e))
    case Ok(continuous) =>
      var train' := CapAll(lib.quantile, train, continuous).value;
      match CapAll(lib.quantile, test, continuous)
      case Err(e) => Err(Wrapped(e))
      case Ok(test') => Ok((train', test'))
  }

  /** The target split, the fit and the encoding that follow the capping. */
  function Encode(lib: Library, schema: Schema, train': Table, test': Table): Result<TransformOutput>
  {
    match SplitTarget(train', schema.targetColumn)
    case Err(e) => Err(Wrapped(e))
    case Ok((trainFeatures, trainTarget)) =>
      match SplitTarget(test', schema.targetColumn)
      case Err(e) => Err(Wrapped(e))
      case Ok((testFeatures, testTarget)) =>
        var p := lib.fitPreprocessor(TransformerObject(schema), trainFeatures);
        match AppendTarget(lib.transform(p, trainFeatures), trainTarget)
        case Err(e) => Err(Wrapped(e))
        case Ok(trainArr) =>
          match AppendTarget(lib.transform(p, testFeatures), testTarget)
          case Err(e) => Err(Wrapped(e))
          case Ok(testArr) => Ok(TransformOutput(train', test', p, trainArr, testArr))
  }

  /** What a successful transformation consists of: the continuous columns
      are chosen on the training table and capped in both tables, each with
      its own quartiles; the target is split off; the preprocessor is fitted on
      the training features; each output row is a transformed feature row
      followed by that row's target. */
  lemma TransformationOutputs(lib: Library, schema: Schema, train: Table, test: Table)
    requires Transformation(lib, schema, train, test).Ok?
    ensures ContinuousColumns(schema.numericalColumns, train).Ok?
    ensures var out := Transformation(lib, schema, train, test).value;
      var continuous := ContinuousColumns(schema.numericalColumns, train).value;
      && CapAll(lib.quantile, train, continuous) == Ok(out.trainCapped)
      && CapAll(lib.quantile, test, continuous) == Ok(out.testCapped)
    ensures var out := Transformation(lib, schema, train, test).value;
      && SplitTarget(out.trainCapped, schema.targetColumn).Ok?
      && SplitTarget(out.testCapped, schema.targetColumn).Ok?
      && var (trainFeatures, trainTarget) := SplitTarget(out.trainCapped, schema.targetColumn).value;
         var (testFeatures, testTarget) := SplitTarget(out.testCapped, schema.targetColumn).value;
         && schema.targetColumn !in trainFeatures.Names() && schema.targetColumn !in testFeatures.Names()
         && out.preprocessor == lib.fitPreprocessor(TransformerObject(schema), trainFeatures)
         && RowsEndWithTarget(out.trainArr, lib.transform(out.preprocessor, trainFeatures), trainTarget)
         && RowsEndWithTarget(out.testArr, lib.transform(out.preprocessor, testFeatures), testTarget)
  {
  }

  /** The capping at table level, for a `numerical_columns` list that names
      each column once: in the training table and in the test table, the
      first column of each name chosen on the training table is capped with
      limits from that table's own quartiles, and every other column is kept. */
  lemma BothTablesCapped(lib: Library, schema: Schema, train: Table, test: Table)
    requires Transformation(lib, schema, train, test).Ok?
    requires forall c :: multiset(schema.numericalColumns)[c] <= 1
    ensures var out := Transformation(lib, schema, train, test).value;
      |out.trainCapped.columns| == |train.columns| && |out.testCapped.columns| == |test.columns|
    ensures var out := Transformation(lib, schema, train, test).value;
      forall j :: 0 <= j < |train.columns| ==>
        if Chosen(schema, train, train.columns[j].name) && FirstOfName(train, j)
        then out.trainCapped.columns[j].values == CapOwn(lib.quantile, train.columns[j].values)
        else out.trainCapped.columns[j] == train.columns[j]
    ensures var out := Transformation(lib, schema, train, test).value;
      forall j :: 0 <= j < |test.columns| ==>
        if Chosen(schema, train, test.columns[j].name) && FirstOfName(test, j)
        then out.testCapped.columns[j].values == CapOwn(lib.quantile, test.columns[j].values)
        else out.testCapped.columns[j] == test.columns[j]
  {
    TransformationOutputs(lib, schema, train, test);
    var continuous := ContinuousColumns(schema.numericalColumns, train).value;
    assert forall c :: multiset(continuous)[c] <= 1;
    CapAllCaps(lib.quantile, train, continuous);
    CapAllCaps(lib.quantile, test, continuous);
  }

  /** A column the transformation chooses for capping: a configured
      numerical column that is continuous in the training table. */
  predicate Chosen(schema: Schema, train: Table, c: string) {
    c in schema.numericalColumns && IsContinuous(train, c)
  }

  /** Each row of `arr` is the corresponding row of `features` followed by the row's target. */
  predicate RowsEndWithTarget(arr: Matrix, features: Matrix, target: seq<real>) {
    && arr.width == features.width + 1 && |arr.rows| == |features.rows| == |target|
    && forall i :: 0 <= i < |target| ==>
         arr.rows[i][..features.width] == features.rows[i] && arr.rows[i][features.width] == target[i]
  }

  /** The preprocessor is never refitted on the test split: two runs on the
      same training table and different test tables fit the same preprocessor
      and build the same training array. */
  lemma FitIgnoresTestSplit(lib: Library, schema: Schema, train: Table, test1: Table, test2: Table)
    requires Transformation(lib, schema, train, test1).Ok? && Transformation(lib, schema, train, test2).Ok?
    ensures Transformation(lib, schema, train, test1).value.preprocessor
         == Transformation(lib, schema, train, test2).value.preprocessor
    ensures Transformation(lib, schema, train, test1).value.trainArr
         == Transformation(lib, schema, train, test2).value.trainArr
  {
  }

  /** A pandas data frame that capping updates in place. */
  class Frame {
    var columns: seq<Column>

    constructor (t: Table)
      ensures Value() == t
    {
      columns := t.columns;
    }

    function Value(): Table
      reads this
    {
      Table(columns)
    }

    /** `df.loc[df[col] > upper_limit, col] = upper_limit` on column `i`. */
    method ClampAbove(i: nat, upper: real)
      requires i < |columns|
      modifies this
      ensures |columns| == |old(columns)| && columns[i].name == old(columns[i].name)
      ensures forall j :: 0 <= j < |columns| && j != i ==> columns[j] == old(columns[j])
      ensures |columns[i].values| == |old(columns[i].values)|
      ensures forall j :: 0 <= j < |columns[i].values| ==>
        columns[i].values[j] == (if old(columns[i].values[j]) > upper then upper else old(columns[i].values[j]))
    {
      ghost var v := columns[i].values;
      for k := 0 to |columns[i].values|
        invariant |columns| == |old(columns)| && columns[i].name == old(columns[i].name)
        invariant forall j :: 0 <= j < |columns| && j != i ==> columns[j] == old(columns[j])
        invariant |columns[i].values| == |v|
        invariant forall j :: 0 <= j < k ==> columns[i].values[j] == (if v[j] > upper then upper else v[j])
        invariant forall j :: k <= j < |v| ==> columns[i].values[j] == v[j]
      {
        if columns[i].values[k] > upper {
          columns := columns[i := Column(columns[i].name, columns[i].values[k := upper])];
        }
      }
    }

    /** `df.loc[df[col] < lower_limit, col] = lower_limit` on column `i`. */
    method ClampBelow(i: nat, lower: real)
      requires i < |columns|
      modifies this
      ensures |columns| == |old(columns)| && columns[i].name == old(columns[i].name)
      ensures forall j :: 0 <= j < |columns| && j != i ==> columns[j] == old(columns[j])
      ensures |columns[i].values| == |old(columns[i].values)|
      ensures forall j :: 0 <= j < |columns[i].values| ==>
        columns[i].values[j] == (if old(columns[i].values[j]) < lower then lower else old(columns[i].values[j]))
    {
      ghost var w := columns[i].values;
      for k := 0 to |columns[i].values|
        invariant |columns| == |old(columns)| && columns[i].name == old(columns[i].name)
        invariant forall j :: 0 <= j < |columns| && j != i ==> columns[j] == old(columns[j])
        invariant |columns[i].values| == |w|
        invariant forall j :: 0 <= j < k ==> columns[i].values[j] == (if w[j] < lower then lower else w[j])
        invariant forall j :: k <= j < |w| ==> columns[i].values[j] == w[j]
      {
        if columns[i].values[k] < lower {
          columns := columns[i := Column(columns[i].name, columns[i].values[k := lower])];
        }
      }
    }

    /** `_outlier_capping(col, self)`: both limits are computed from the
        column before either masked write. */
    method OutlierCapping(col: string, quantile: (seq<real>, real) -> real) returns (r: Result<()>)
      modifies this
      ensures r.Ok? <==> CapColumn(quantile, old(Value()), col).Ok?
      ensures r.Ok? ==> Value() == CapColumn(quantile, old(Value()), col).value
      ensures r.Err? ==> r.error == Wrapped(KeyMissing(col)) && Value() == old(Value())
    {
      var found := IndexOf(Value().Names(), col);
      if found.None? {
        return Err(Wrapped(KeyMissing(col)));
      }
      var i := found.value;
      var v := columns[i].values;
      var p25 := quantile(v, 0.25);
      var p75 := quantile(v, 0.75);
      var iqr := p75 - p25;
      var upper := p75 + 1.5 * iqr;
      var lower := p25 - 1.5 * iqr;
      ClampAbove(i, upper);
      ClampBelow(i, lower);
      assert columns[i].values == CapValues(v, lower, upper);
      assert columns == old(columns)[i := Column(col, CapValues(v, lower, upper))];
      r := Ok(());
    }

    /** `[_outlier_capping(col, self) for col in cols]`; the first failure propagates. */
    method CapColumns(cols: seq<string>, quantile: (seq<real>, real) -> real) returns (r: Result<()>)
      modifies this
      ensures r.Ok? <==> CapAll(quantile, old(Value()), cols).Ok?
      ensures r.Ok? ==> Value() == CapAll(quantile, old(Value()), cols).value
    {
      for n := 0 to |cols|
        invariant CapAll(quantile, old(Value()), cols) == CapAll(quantile, Value(), cols[n..])
      {
        assert cols[n..][1..] == cols[n + 1..];
        var status := OutlierCapping(cols[n], quantile);
        if status.Err? {
          return Err(status.error);
        }
      }
      r := Ok(());
    }
  }

  /** The capping steps of `initiate_data_transformation`, in place on both frames. */
  method CapFrames(lib: Library, schema: Schema, train: Frame, test: Frame) returns (r: Result<()>)
    requires train != test
    modifies train, test
    ensures var spec := CapBoth(lib, schema, old(train.Value()), old(test.Value()));
      && (r.Ok? <==> spec.Ok?)
      && (r.Err? ==> r.error == spec.error)
      && (r.Ok? ==> (train.Value(), test.Value()) == spec.value)
  {
    var trainTable := train.Value();
    var testTable := test.Value();
    var selected := ContinuousColumns(schema.numericalColumns, trainTable);
    if selected.Err? {
      return Err(Wrapped(selected.error));
    }
    var continuous := selected.value;
    var trainCapped := train.CapColumns(continuous, lib.quantile);
    assert trainCapped.Ok?;
    var testCapped := test.CapColumns(continuous, lib.quantile);
    if testCapped.Err? {
      return Err(Wrapped(CapAll(lib.quantile, testTable, continuous).error));
    }
    r := Ok(());
  }

  /** The steps of `initiate_data_transformation` after the capping: split
      off the target, fit and apply the preprocessor, save it. */
  method EncodeAndSave(lib: Library, schema: Schema, artifactsDir: string,
                       trainCapped: Table, testCapped: Table, store: Store)
    returns (r: Result<(Matrix, Matrix)>)
    modifies store
    ensures var spec := Encode(lib, schema, trainCapped, testCapped);
      && (r.Ok? <==> spec.Ok?)
      && (r.Err? ==> r.error == spec.error && store.files == old(store.files) && store.log == old(store.log))
      && (r.Ok? ==>
            && r.value == (spec.value.trainArr, spec.value.testArr)
            && store.files == old(store.files)[PreprocessorPath(artifactsDir) := PreprocessorObject(spec.value.preprocessor)]
            && store.log == old(store.log) + [ObjectSaved(PreprocessorPath(artifactsDir), PreprocessorObject(spec.value.preprocessor))])
      && store.params == old(store.params) && store.uploads == old(store.uploads)
  {
    var trainSplit := SplitTarget(trainCapped, schema.targetColumn);
    if trainSplit.Err? {
      return Err(Wrapped(trainSplit.error));
    }
    var testSplit := SplitTarget(testCapped, schema.targetColumn);
    if testSplit.Err? {
      return Err(Wrapped(testSplit.error));
    }
    var (trainFeatures, trainTarget) := trainSplit.value;
    var (testFeatures, testTarget) := testSplit.value;
    var preprocessor := lib.fitPreprocessor(TransformerObject(schema), trainFeatures);
    var trainArr := AppendTarget(lib.transform(preprocessor, trainFeatures), trainTarget);
    if trainArr.Err? {
      return Err(Wrapped(trainArr.error));
    }
    var testArr := AppendTarget(lib.transform(preprocessor, testFeatures), testTarget);
    if testArr.Err? {
      return Err(Wrapped(testArr.error));
    }
    store.SaveObject(PreprocessorPath(artifactsDir), PreprocessorObject(preprocessor));
    r := Ok((trainArr.value, testArr.value));
  }

  /** `initiate_data_transformation(train_set, test_set)`: caps both frames in
      place, saves the fitted preprocessor, and returns the two arrays. */
  method InitiateDataTransformation(lib: Library, schema: Schema, artifactsDir: string,
                                    train: Frame, test: Frame, store: Store)
    returns (r: Result<(Matrix, Matrix)>)
    requires train != test
    modifies train, test, store
    ensures var spec := Transformation(lib, schema, old(train.Value()), old(test.Value()));
      && (r.Ok? <==> spec.Ok?)
      && (r.Err? ==> r.error == spec.error)
      && (r.Ok? ==>
            && r.value == (spec.value.trainArr, spec.value.testArr)
            && train.Value() == spec.value.trainCapped && test.Value() == spec.value.testCapped
            && store.files == old(store.files)[PreprocessorPath(artifactsDir) := PreprocessorObject(spec.value.preprocessor)]
            && store.log == old(store.log) + [ObjectSaved(PreprocessorPath(artifactsDir), PreprocessorObject(spec.value.preprocessor))])
      && (r.Err? ==> store.files == old(store.files) && store.log == old(store.log))
      && store.params == old(store.params) && store.uploads == old(store.uploads)
  {
    var capped := CapFrames(lib, schema, train, test);
    if capped.Err? {
      return Err(capped.error);
    }
    r := EncodeAndSave(lib, schema, artifactsDir, train.Value(), test.Value(), store);
  }
}
