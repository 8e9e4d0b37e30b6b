/** `DataValidation`: the decision whether the pipeline may proceed. Its
    fields are set once at construction and never written again, so each
    operation is a function of the schema and the two tables. */
module DataValidation {
  import opened Common
  import opened Params
  import opened Library
  import opened ValidationUtils

  /** What `detect_dataset_drift` returns: the drifted-feature ratio or the report's flag. */
  datatype DriftResult = Ratio(ratio: real) | Flag(flag: Json)

  /** `validate_dataset_schema_columns`: the column-count check on train, then on test. */
  function ValidateDatasetSchemaColumns(schema: Schema, train: Table, test: Table): (r: (bool, bool))
    ensures r.0 <==> schema.columns.Some? && |train.columns| == |schema.columns.value|
    ensures r.1 <==> schema.columns.Some? && |test.columns| == |schema.columns.value|
  {
    (ColumnCountStatus(schema, train.Names()), ColumnCountStatus(schema, test.Names()))
  }

  /** The shape both presence wrappers share: the check on train, then on test,
      a failure of either re-raised wrapped. */
  function PresencePair(configured: seq<string>, train: Table, test: Table): (r: Result<(bool, bool)>)
    ensures r.Ok? <==> |configured| > 0
    ensures r.Err? ==> r.error == Wrapped(Wrapped(Unbound("validation_status")))
    ensures r.Ok? ==> r.value.0 == (configured[|configured| - 1] in train.Names())
    ensures r.Ok? ==> r.value.1 == (configured[|configured| - 1] in test.Names())
  {
    var onTrain := LastColumnStatus(configured, train.Names());
    var onTest := LastColumnStatus(configured, test.Names());
    if onTrain.Ok? && onTest.Ok? then Ok((onTrain.value, onTest.value))
    else if onTrain.Err? then Err(Wrapped(onTrain.error))
    else Err(Wrapped(Wrapped(Unbound("validation_status"))))
  }

  /** `validate_dataset_schema_for_numerical_datatype` */
  function ValidateDatasetSchemaForNumerical(schema: Schema, train: Table, test: Table): (r: Result<(bool, bool)>)
    ensures r.Ok? <==> |schema.numericalColumns| > 0
    ensures r.Ok? ==> r.value == (LastColumnStatus(schema.numericalColumns, train.Names()).value,
                                  LastColumnStatus(schema.numericalColumns, test.Names()).value)
  {
    PresencePair(schema.numericalColumns, train, test)
  }

  /** `validate_dataset_schema_for_categorical_datatype` */
  function ValidateDatasetSchemaForCategorical(schema: Schema, train: Table, test: Table): (r: Result<(bool, bool)>)
    ensures r.Ok? <==> |schema.categoricalColumns| > 0
    ensures r.Ok? ==> r.value == (LastColumnStatus(schema.categoricalColumns, train.Names()).value,
                                  LastColumnStatus(schema.categoricalColumns, test.Names()).value)
  {
    PresencePair(schema.categoricalColumns, train, test)
  }

  /** `detect_dataset_drift(reference, production, get_ratio)`. */
  function DetectDatasetDrift(lib: Library, reference: Table, production: Table, getRatio: bool): (r: Result<DriftResult>)
    ensures var report := lib.driftProfile(reference, production);
      && (!getRatio ==> r == Ok(Flag(report.datasetDrift)))
      && (getRatio && report.nFeatures == 0 ==> r == Err(Wrapped(ZeroDivision)))
      && (getRatio && report.nFeatures > 0 ==>
            r.Ok? && r.value.Ratio? && r.value.ratio * report.nFeatures as real == report.nDriftedFeatures as real)
  {
    var report := lib.driftProfile(reference, production);
    if getRatio then
      if report.nFeatures == 0 then Err(Wrapped(ZeroDivision))
      else Ok(Ratio(report.nDriftedFeatures as real / report.nFeatures as real))
    else Ok(Flag(report.datasetDrift))
  }

  /** `initiate_data_validation`: drift first; with no drift, the six statuses
      (column count, categorical, numerical; each on train and test). */
  function InitiateDataValidation(lib: Library, schema: Schema, train: Table, test: Table): (r: Result<bool>)
    // anything but the literal `False` flag stops validation before any schema check
    ensures lib.driftProfile(train, test).datasetDrift != JBool(false) ==> r == Ok(false)
    // with no drift, an empty column list raises from the check that loops over it
    ensures lib.driftProfile(train, test).datasetDrift == JBool(false) ==>
      (r.Err? <==> |schema.categoricalColumns| == 0 || |schema.numericalColumns| == 0)
    // otherwise: true exactly when all six statuses are true
    ensures lib.driftProfile(train, test).datasetDrift == JBool(false) && r.Ok? ==>
      (r.value <==>
        && ColumnCountStatus(schema, train.Names()) && ColumnCountStatus(schema, test.Names())
        && LastColumnStatus(schema.categoricalColumns, train.Names()) == Ok(true)
        && LastColumnStatus(schema.categoricalColumns, test.Names()) == Ok(true)
        && LastColumnStatus(schema.numericalColumns, train.Names()) == Ok(true)
        && LastColumnStatus(schema.numericalColumns, test.Names()) == Ok(true))
  {
    // without the ratio, drift detection cannot fail
    var drift := DetectDatasetDrift(lib, train, test, false);
    if drift == Ok(Flag(JBool(false))) then
      var (trainCols, testCols) := ValidateDatasetSchemaColumns(schema, train, test);
      var (trainCat, testCat) :- Wrap(ValidateDatasetSchemaForCategorical(schema, train, test));
      var (trainNum, testNum) :- Wrap(ValidateDatasetSchemaForNumerical(schema, train, test));
      Ok(trainCat && testCat && trainNum && testNum && trainCols && testCols)
    else
      Ok(false)
  }

  /** A schema column missing from the training table (the last configured
      numerical one) stops validation with False, not with an error. */
  lemma MissingColumnStopsValidation(lib: Library, schema: Schema, train: Table, test: Table)
    requires lib.driftProfile(train, test).datasetDrift == JBool(false)
    requires |schema.categoricalColumns| > 0 && |schema.numericalColumns| > 0
    requires schema.numericalColumns[|schema.numericalColumns| - 1] !in train.Names()
    ensures InitiateDataValidation(lib, schema, train, test) == Ok(false)
  {
    AbsentLastFails(schema.numericalColumns, train.Names());
  }

  /** Validation sees the tables only through their column names and the drift report. */
  lemma ValidationSeesOnlyNames(lib: Library, schema: Schema, train: Table, test: Table, train': Table, test': Table)
    requires train.Names() == train'.Names() && test.Names() == test'.Names()
    requires lib.driftProfile(train, test).datasetDrift == lib.driftProfile(train', test').datasetDrift
    ensures InitiateDataValidation(lib, schema, train, test) == InitiateDataValidation(lib, schema, train', test')
  {
  }
}
