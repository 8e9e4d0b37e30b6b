/** The third-party libraries the pipeline delegates to, as uninterpreted
    functions gathered in one record: the drift profiler, pandas' quantile,
    the column transformer, the estimator registries, grid search, fitting,
    prediction and the R² metric. Nothing is assumed about them beyond their
    signatures. */
module Library {
  import opened Common
  import opened Params

  /** The `ColumnTransformer` as configured from the schema. */
  datatype TransformerSpec = TransformerSpec(
    onehotColumns: seq<string>, binaryColumns: seq<string>, numericalColumns: seq<string>)

  /** A fitted preprocessor: its configuration and the state fitting produced. */
  datatype Preprocessor = Preprocessor(spec: TransformerSpec, fitState: nat)

  /** Parameters set on an estimator (`set_params`). */
  type EstimatorParams = map<string, string>

  /** An estimator instance: the name of its class, its parameters, and the
      state of its last `fit`, if any. */
  datatype Estimator = Estimator(className: string, params: EstimatorParams, fitState: Option<nat>)

  /** One entry of the tuner's result: (score, fitted model, class name). */
  datatype Candidate = Candidate(score: real, model: Estimator, name: string)

  /** A trained bundle (`TourismModel`): whatever object was loaded as the
      preprocessor, and a fitted model. The constructor does not check the
      kind of the object it is given. */
  datatype TourismModel = TourismModel(preprocessing: Artifact, trainedModel: Estimator)

  /** The objects the pipeline serialises with dill. */
  datatype Artifact = PreprocessorObject(preprocessor: Preprocessor) | ModelObject(model: TourismModel)

  /** The JSON values the drift report can hold under `dataset_drift`. */
  datatype Json = JBool(b: bool) | JNumber(x: real) | JNull

  /** The `metrics` section of the drift profile's report. */
  datatype DriftReport = DriftReport(nFeatures: nat, nDriftedFeatures: nat, datasetDrift: Json)

  datatype Library = Library(
    /** `Profile([DataDriftProfileSection()]).calculate(reference, production)` */
    driftProfile: (Table, Table) -> DriftReport,
    /** `series.quantile(p)` */
    quantile: (seq<real>, real) -> real,
    /** `ColumnTransformer.fit` on a feature table */
    fitPreprocessor: (TransformerSpec, Table) -> Preprocessor,
    /** `ColumnTransformer.transform`; its output is a NumPy array */
    transform: (Preprocessor, Table) -> Matrix,
    /** `xgboost.__dict__`: attribute name to the class name of the instance it constructs */
    xgboost: map<string, string>,
    /** `all_estimators()`: (name, class name) pairs in registry order */
    allEstimators: seq<(string, string)>,
    /** default parameters of a freshly constructed estimator of a class */
    defaultParams: string -> EstimatorParams,
    /** `GridSearchCV(model, grid, **kwargs).fit(x, y).best_params_` */
    gridSearch: (Estimator, ParamGrid, Matrix, seq<real>) -> EstimatorParams,
    /** the state `model.fit(x, y)` leaves in the model */
    fit: (Estimator, Matrix, seq<real>) -> nat,
    /** `model.predict(x)` */
    predict: (Estimator, Matrix) -> seq<real>,
    /** `r2_score(y_true, y_pred)` */
    r2: (seq<real>, seq<real>) -> real)
}
