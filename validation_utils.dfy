/** The schema checks over one data frame. Each presence check loops over
    the configured columns and overwrites one status variable per column, so
    only the last configured column decides the result, and an empty list
    leaves the variable unassigned. */
module ValidationUtils {
  import opened Common
  import opened Params

  /** What a presence check returns: the status the LAST configured column
      left behind, or the wrapped error of reading a never-assigned status. */
  function LastColumnStatus(configured: seq<string>, names: seq<string>): Result<bool> {
    if |configured| == 0 then Err(Wrapped(Unbound("validation_status")))
    else Ok(configured[|configured| - 1] in names)
  }

  /** What the column-count check returns. */
  function ColumnCountStatus(schema: Schema, names: seq<string>): bool {
    schema.columns.Some? && |names| == |schema.columns.value|
  }

  /** What a presence check would have to return to mean "every configured column is present". */
  predicate AllPresent(configured: seq<string>, names: seq<string>) {
    forall i :: 0 <= i < |configured| ==> configured[i] in names
  }

  /** `validate_schema_columns`: the column count equals the schema's; a
      schema without `columns` fails the inner handler and yields False. */
  method ValidateSchemaColumns(schema: Schema, df: Table) returns (status: bool)
    ensures status <==> schema.columns.Some? && |df.columns| == |schema.columns.value|
    ensures status == ColumnCountStatus(schema, df.Names())
  {
    if schema.columns.None? {
      status := false;
    } else if |df.Names()| == |schema.columns.value| {
      status := true;
    } else {
      status := false;
    }
  }

  /** The loop both presence checks share: one membership test per configured column. */
  method CheckColumnsPresent(configured: seq<string>, df: Table) returns (r: Result<bool>)
    ensures r == LastColumnStatus(configured, df.Names())
  {
    var names := df.Names();
    var status: Option<bool> := None;
    for i := 0 to |configured|
      invariant i == 0 ==> status == None
      invariant i > 0 ==> status == Some(configured[i - 1] in names)
    {
      if configured[i] in names {
        status := Some(true);
      } else {
        status := Some(false);
      }
    }
    if status.None? {
      r := Err(Wrapped(Unbound("validation_status")));
    } else {
      r := Ok(status.value);
    }
  }

  /** `validate_schema_for_numerical_datatype` */
  method ValidateSchemaForNumerical(schema: Schema, df: Table) returns (r: Result<bool>)
    ensures |schema.numericalColumns| == 0 ==> r == Err(Wrapped(Unbound("validation_status")))
    ensures |schema.numericalColumns| > 0 ==>
      r == Ok(schema.numericalColumns[|schema.numericalColumns| - 1] in df.Names())
  {
    r := CheckColumnsPresent(schema.numericalColumns, df);
  }

  /** `validate_schema_for_categorical_datatype` */
  method ValidateSchemaForCategorical(schema: Schema, df: Table) returns (r: Result<bool>)
    ensures |schema.categoricalColumns| == 0 ==> r == Err(Wrapped(Unbound("validation_status")))
    ensures |schema.categoricalColumns| > 0 ==>
      r == Ok(schema.categoricalColumns[|schema.categoricalColumns| - 1] in df.Names())
  {
    r := CheckColumnsPresent(schema.categoricalColumns, df);
  }

  /** Every column present makes a non-empty check pass. */
  lemma AllPresentPasses(configured: seq<string>, names: seq<string>)
    requires |configured| > 0 && AllPresent(configured, names)
    ensures LastColumnStatus(configured, names) == Ok(true)
  {
    assert configured[|configured| - 1] in names;
  }

  /** A failing check does mean some column is missing. */
  lemma FailureMeansMissing(configured: seq<string>, names: seq<string>)
    requires LastColumnStatus(configured, names) == Ok(false)
    ensures !AllPresent(configured, names)
  {
    assert configured[|configured| - 1] !in names;
  }

  /** The converse fails: an absent earlier column is ignored when the last one is present. */
  lemma EarlierAbsenceIgnored()
    ensures !AllPresent(["Age", "MonthlyIncome"], ["MonthlyIncome"])
    ensures LastColumnStatus(["Age", "MonthlyIncome"], ["MonthlyIncome"]) == Ok(true)
  {
    var configured: seq<string> := ["Age", "MonthlyIncome"];
    assert configured[0] == "Age" && "Age" != "MonthlyIncome";
  }

  /** An absent last column fails the check whatever the other columns are. */
  lemma AbsentLastFails(configured: seq<string>, names: seq<string>)
    requires |configured| > 0 && configured[|configured| - 1] !in names
    ensures LastColumnStatus(configured, names) == Ok(false)
    ensures forall extra :: LastColumnStatus(extra + configured, names) == Ok(false)
  {
    forall extra ensures LastColumnStatus(extra + configured, names) == Ok(false) {
      assert (extra + configured)[|extra + configured| - 1] == configured[|configured| - 1];
    }
  }
}
