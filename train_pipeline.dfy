/** `TrainPipeline`: ingest, validate, and, only when validation passes,
    transform, train and push. Each stage is wrapped in its own handler and
    the whole run in one more, so every failure surfaces wrapped twice. */
module TrainPipeline {
  import opened Common
  import opened Params
  import opened Library
  import opened Storage
  import opened DataValidation
  import opened DataTransformation
  import opened ModelTrainer

  datatype Stage = Ingest | Validate | Transform | Train | Push

  /** The stages in the order `run_pipeline` runs them. */
  const AllStages: seq<Stage> := [Ingest, Validate, Transform, Train, Push]

  /** `start_data_ingestion()`: the table fetched from MongoDB is split as it
      is; the schema's `drop_columns` are not applied on this path. */
  function StartDataIngestion(fetched: Result<Table>, split: Table -> (Table, Table)): (r: Result<(Table, Table)>)
    ensures r.Ok? <==> fetched.Ok?
    ensures r.Ok? ==> r.value == split(fetched.value)
    ensures r.Err? ==> r.error == Wrapped(fetched.error)
  {
    match fetched
    case Err(e) => Err(Wrapped(e))
    case Ok(df) => Ok(split(df))
  }

  /** `start_data_validation(train_set, test_set)` */
  function StartDataValidation(lib: Library, schema: Schema, train: Table, test: Table): (r: Result<bool>)
    ensures r.Ok? <==> InitiateDataValidation(lib, schema, train, test).Ok?
    ensures r.Ok? ==> r.value == InitiateDataValidation(lib, schema, train, test).value
    ensures r.Err? ==> r.error.Wrapped? && r.error.cause.Wrapped?
  {
    Wrap(InitiateDataValidation(lib, schema, train, test))
  }

  /** What one stage did: what it returned, the store's config document and
      files after it, and the folders it uploaded and the writes it made, in
      order. */
  datatype Effect<T> = Effect(
    result: Result<T>, params: Doc<Setting>, files: map<string, Artifact>,
    uploaded: seq<(string, string)>, events: seq<Event>)

  /** A stage whose handler caught `e` before anything was written. */
  function Failed<T>(e: Error, params: Doc<Setting>, files: map<string, Artifact>): Effect<T> {
    Effect(Err(Wrapped(e)), params, files, [], [])
  }

  /** The transformation stage: the settings the new `DataTransformation`
      reads, then the transformation, then the preprocessor saved. */
  function TransformStage(lib: Library, schema: Schema, params: Doc<Setting>, files: map<string, Artifact>,
                          train: Table, test: Table): Effect<(Matrix, Matrix)>
  {
    match ReadSettings(params)
    case Err(e) => Failed(e, params, files)
    case Ok(s) =>
      match Transformation(lib, schema, train, test)
      case Err(e) => Failed(e, params, files)
      case Ok(t) =>
        var saved := PreprocessorObject(t.preprocessor);
        var path := PreprocessorPath(s.artifactsDir);
        Effect(Ok((t.trainArr, t.testArr)), params, files[path := saved], [], [ObjectSaved(path, saved)])
  }

  /** The training stage: the settings the new `ModelTrainer` reads, then the
      promotion gate, then the new baseline and the bundle written. */
  function TrainStage(lib: Library, params: Doc<Setting>, files: map<string, Artifact>,
                      trainArr: Matrix, testArr: Matrix): Effect<()>
  {
    match ReadSettings(params)
    case Err(e) => Failed(e, params, files)
    case Ok(s) =>
      match Promote(lib, s, files, trainArr, testArr)
      case Err(e) => Failed(e, params, files)
      case Ok(p) =>
        var params' := Set(params, BaseModelScoreKey, Number(p.bestScore));
        var path := ModelPath(s.artifactsDir);
        Effect(Ok(()), params', files[path := ModelObject(p.bundle)], [],
               [ParamsWritten(params'), ObjectSaved(path, ModelObject(p.bundle))])
  }

  /** The push stage: the settings another new `ModelTrainer` reads, then the upload. */
  function PushStage(params: Doc<Setting>, files: map<string, Artifact>): Effect<()>
  {
    match ReadSettings(params)
    case Err(e) => Failed(e, params, files)
    case Ok(s) =>
      Effect(Ok(()), params, files, [(s.artifactsDir, s.inputFilesBucket)],
             [FolderUploaded(s.artifactsDir, s.inputFilesBucket)])
  }

  /** The end state of one run: its result, the stages entered, the new
      config document and artifact files, the folders uploaded and the
      writes made, in order. */
  datatype Outcome = Outcome(
    result: Result<()>, trace: seq<Stage>, params: Doc<Setting>, files: map<string, Artifact>,
    uploaded: seq<(string, string)>, events: seq<Event>)

  /** What `run_pipeline()` does, given the fetched table, the split, and the
      store's config document and files when it starts. */
  function Pipeline(lib: Library, schema: Schema, params: Doc<Setting>, files: map<string, Artifact>,
                    fetched: Result<Table>, split: Table -> (Table, Table)): Outcome
  {
    match StartDataIngestion(fetched, split)
    case Err(e) => Outcome(Err(Wrapped(e)), AllStages[..1], params, files, [], [])
    case Ok((train, test)) =>
      match StartDataValidation(lib, schema, train, test)
      case Err(e) => Outcome(Err(Wrapped(e)), AllStages[..2], params, files, [], [])
      case Ok(valid) =>
        if !valid then Outcome(Ok(()), AllStages[..2], params, files, [], [])
        else TrainingRun(lib, schema, params, files, train, test)
  }

  /** The stages a passing validation leads to: transform, train, push; each
      failure is wrapped once more by the outer handler. */
  function TrainingRun(lib: Library, schema: Schema, params: Doc<Setting>, files: map<string, Artifact>,
                       train: Table, test: Table): Outcome
  {
    AfterTransform(lib, TransformStage(lib, schema, params, files, train, test))
  }

  /** The rest of a run once the transformation stage has ended with `t`. */
  function AfterTransform(lib: Library, t: Effect<(Matrix, Matrix)>): Outcome
  {
    if t.result.Err? then Outcome(Err(Wrapped(t.result.error)), AllStages[..3], t.params, t.files, t.uploaded, t.events)
    else
      var o := TrainAndPush(lib, t.params, t.files, t.result.value.0, t.result.value.1);
      Outcome(o.result, o.trace, o.params, o.files, t.uploaded + o.uploaded, t.events + o.events)
  }

  /** The training and push stages, on the arrays the transformation returned. */
  function TrainAndPush(lib: Library, params: Doc<Setting>, files: map<string, Artifact>,
                        trainArr: Matrix, testArr: Matrix): Outcome
  {
    AfterTrain(TrainStage(lib, params, files, trainArr, testArr))
  }

  /** The rest of a run once the training stage has ended with `m`. */
  function AfterTrain(m: Effect<()>): Outcome
  {
    if m.result.Err? then Outcome(Err(Wrapped(m.result.error)), AllStages[..4], m.params, m.files, m.uploaded, m.events)
    else
      var u := PushStage(m.params, m.files);
      Outcome(Wrap(u.result), AllStages, u.params, u.files, m.uploaded + u.uploaded, m.events + u.events)
  }

  /** A training stage that succeeded without uploading, followed by a push
      of `dir` to `bucket`, ends the run with that one upload last. */
  lemma AfterTrainPushes(m: Effect<()>, dir: string, bucket: string)
    requires m.result.Ok? && m.uploaded == []
    requires PushStage(m.params, m.files) == Effect(Ok(()), m.params, m.files, [(dir, bucket)], [FolderUploaded(dir, bucket)])
    ensures AfterTrain(m) == Outcome(Ok(()), AllStages, m.params, m.files, [(dir, bucket)], m.events + [FolderUploaded(dir, bucket)])
  {
  }

  /** The training stage succeeds exactly when the settings read and the
      promotion gate passes; it then rewrites the baseline and saves the
      bundle, in that order, and otherwise writes nothing. */
  lemma TrainStageEffect(lib: Library, params: Doc<Setting>, files: map<string, Artifact>,
                         trainArr: Matrix, testArr: Matrix)
    ensures var m := TrainStage(lib, params, files, trainArr, testArr);
      && (m.result.Ok? <==> ReadSettings(params).Ok? && Promote(lib, ReadSettings(params).value, files, trainArr, testArr).Ok?)
      && (m.result.Err? ==> (
            && m.result.error.Wrapped? && m.params == params && m.files == files && m.uploaded == [] && m.events == []))
      && (m.result.Ok? ==> (
            var s := ReadSettings(params).value;
            var p := Promote(lib, s, files, trainArr, testArr).value;
            && m.params == Set(params, BaseModelScoreKey, Number(p.bestScore))
            && m.files == files[ModelPath(s.artifactsDir) := ModelObject(p.bundle)] && m.uploaded == []
            && m.events == [ParamsWritten(m.params), ObjectSaved(ModelPath(s.artifactsDir), ModelObject(p.bundle))]))
  {
  }

  /** After a promotion the push cannot fail on its settings: the trainer
      it constructs re-reads the rewritten config, whose other settings are
      unchanged. The upload itself never fails in this model. */
  lemma PushAfterPromotionSucceeds(params: Doc<Setting>, files: map<string, Artifact>, score: real)
    requires ReadSettings(params).Ok?
    ensures var s := ReadSettings(params).value;
      PushStage(Set(params, BaseModelScoreKey, Number(score)), files)
        == Effect(Ok(()), Set(params, BaseModelScoreKey, Number(score)), files,
                  [(s.artifactsDir, s.inputFilesBucket)], [FolderUploaded(s.artifactsDir, s.inputFilesBucket)])
  {
    ReadSettingsAfterScoreUpdate(params, score);
  }

  /** The training stage decides how far the run gets: the push is entered
      exactly when the run succeeds, and a failure stops it before the push. */
  lemma TrainAndPushTrace(lib: Library, params: Doc<Setting>, files: map<string, Artifact>,
                          trainArr: Matrix, testArr: Matrix)
    ensures var o := TrainAndPush(lib, params, files, trainArr, testArr);
      && (o.result.Ok? <==> o.trace == AllStages)
      && (o.result.Err? <==> o.trace == AllStages[..4])
  {
    var m := TrainStage(lib, params, files, trainArr, testArr);
    TrainStageEffect(lib, params, files, trainArr, testArr);
    if m.result.Ok? {
      var p := Promote(lib, ReadSettings(params).value, files, trainArr, testArr).value;
      PushAfterPromotionSucceeds(params, m.files, p.bestScore);
    }
  }

  /** A failed training stage has written nothing, and its error is wrapped
      by the stage's handler and by the outer handler. */
  lemma TrainFailureWritesNothing(lib: Library, params: Doc<Setting>, files: map<string, Artifact>,
                                  trainArr: Matrix, testArr: Matrix)
    ensures var o := TrainAndPush(lib, params, files, trainArr, testArr);
      o.result.Err? ==> (
        && o.result.error.Wrapped? && o.result.error.cause.Wrapped?
        && o.params == params && o.files == files && o.uploaded == [] && o.events == [])
  {
    var m := TrainStage(lib, params, files, trainArr, testArr);
    TrainStageEffect(lib, params, files, trainArr, testArr);
    if m.result.Ok? {
      var p := Promote(lib, ReadSettings(params).value, files, trainArr, testArr).value;
      PushAfterPromotionSucceeds(params, m.files, p.bestScore);
    }
  }

  /** The push is entered only after the promotion gate passed: the settings
      were read and the selected score reached the stored baseline. */
  lemma PushOnlyAfterPromotion(lib: Library, params: Doc<Setting>, files: map<string, Artifact>,
                               trainArr: Matrix, testArr: Matrix)
    ensures var o := TrainAndPush(lib, params, files, trainArr, testArr);
      Push in o.trace ==> (
        && ReadSettings(params).Ok?
        && var p := Promote(lib, ReadSettings(params).value, files, trainArr, testArr);
        && p.Ok? && ReadSettings(params).value.baseModelScore <= p.value.bestScore)
  {
    var m := TrainStage(lib, params, files, trainArr, testArr);
    TrainStageEffect(lib, params, files, trainArr, testArr);
    if m.result.Ok? {
      PromotedScoreReachesBaseline(lib, ReadSettings(params).value, files, trainArr, testArr);
    } else {
      assert AfterTrain(m).trace == [Ingest, Validate, Transform, Train];
    }
  }

  /** Since writes and uploads never fail in this model, a promotion is
      always followed by a successful push of the artifacts folder to the
      input files bucket; the run ends with the new baseline and the bundle
      in place. */
  lemma PromotionIsPushed(lib: Library, params: Doc<Setting>, files: map<string, Artifact>,
                          trainArr: Matrix, testArr: Matrix)
    requires ReadSettings(params).Ok?
    requires Promote(lib, ReadSettings(params).value, files, trainArr, testArr).Ok?
    ensures var s := ReadSettings(params).value;
      var p := Promote(lib, s, files, trainArr, testArr).value;
      var o := TrainAndPush(lib, params, files, trainArr, testArr);
      && o.result == Ok(()) && o.trace == AllStages
      && o.params == Set(params, BaseModelScoreKey, Number(p.bestScore))
      && o.files == files[ModelPath(s.artifactsDir) := ModelObject(p.bundle)]
      && o.uploaded == [(s.artifactsDir, s.inputFilesBucket)]
  {
    var s := ReadSettings(params).value;
    var p := Promote(lib, s, files, trainArr, testArr).value;
    var m := TrainStage(lib, params, files, trainArr, testArr);
    TrainStageEffect(lib, params, files, trainArr, testArr);
    PushAfterPromotionSucceeds(params, m.files, p.bestScore);
    AfterTrainPushes(m, s.artifactsDir, s.inputFilesBucket);
  }

  /** The writes of a promoted run, in order: the new baseline, the bundle,
      then the upload. */
  lemma PromotionWritesInOrder(lib: Library, params: Doc<Setting>, files: map<string, Artifact>,
                               trainArr: Matrix, testArr: Matrix)
    requires ReadSettings(params).Ok?
    requires Promote(lib, ReadSettings(params).value, files, trainArr, testArr).Ok?
    ensures var s := ReadSettings(params).value;
      var p := Promote(lib, s, files, trainArr, testArr).value;
      var o := TrainAndPush(lib, params, files, trainArr, testArr);
      o.events == [ParamsWritten(o.params), ObjectSaved(ModelPath(s.artifactsDir), ModelObject(p.bundle)),
                   FolderUploaded(s.artifactsDir, s.inputFilesBucket)]
  {
    var s := ReadSettings(params).value;
    var p := Promote(lib, s, files, trainArr, testArr).value;
    var m := TrainStage(lib, params, files, trainArr, testArr);
    TrainStageEffect(lib, params, files, trainArr, testArr);
    PushAfterPromotionSucceeds(params, m.files, p.bestScore);
    AfterTrainPushes(m, s.artifactsDir, s.inputFilesBucket);
  }

  /** After validation passes, the run enters the transformation, training
      and push stages in that order and stops after the first that fails. */
  lemma TrainingRunTrace(lib: Library, schema: Schema, params: Doc<Setting>, files: map<string, Artifact>,
                         train: Table, test: Table)
    ensures var o := TrainingRun(lib, schema, params, files, train, test);
      && 3 <= |o.trace| <= |AllStages| && o.trace == AllStages[..|o.trace|]
      && (o.result.Ok? <==> o.trace == AllStages)
  {
    var t := TransformStage(lib, schema, params, files, train, test);
    if t.result.Ok? {
      TrainAndPushTrace(lib, t.params, t.files, t.result.value.0, t.result.value.1);
    }
  }

  /** A failed run after validation keeps the stored baseline and uploads
      nothing, and its error is wrapped twice. This holds since writes and
      uploads never fail in this model: the only failures come before the
      baseline rewrite. */
  lemma TrainingRunFailure(lib: Library, schema: Schema, params: Doc<Setting>, files: map<string, Artifact>,
                           train: Table, test: Table)
    ensures var o := TrainingRun(lib, schema, params, files, train, test);
      o.result.Err? ==> o.result.error.Wrapped? && o.result.error.cause.Wrapped? && o.params == params && o.uploaded == []
  {
    TransformStageKeepsConfig(lib, schema, params, files, train, test);
    AfterTransformFailure(lib, TransformStage(lib, schema, params, files, train, test));
  }

  /** Whatever transformation stage left the config alone and uploaded
      nothing, a failure after it keeps the config and uploads nothing. */
  lemma AfterTransformFailure(lib: Library, t: Effect<(Matrix, Matrix)>)
    requires t.uploaded == [] && (t.result.Err? ==> t.result.error.Wrapped?)
    ensures var o := AfterTransform(lib, t);
      o.result.Err? ==> o.result.error.Wrapped? && o.result.error.cause.Wrapped? && o.params == t.params && o.uploaded == []
  {
    if t.result.Ok? {
      TrainFailureWritesNothing(lib, t.params, t.files, t.result.value.0, t.result.value.1);
    }
  }

  /** The transformation stage never touches `params.yaml` or uploads, and
      its failure is wrapped. */
  lemma TransformStageKeepsConfig(lib: Library, schema: Schema, params: Doc<Setting>, files: map<string, Artifact>,
                                  train: Table, test: Table)
    ensures var t := TransformStage(lib, schema, params, files, train, test);
      t.params == params && t.uploaded == [] && (t.result.Err? ==> t.result.error.Wrapped?)
  {
  }

  /** A trace is a non-empty prefix of the stage order. */
  predicate RanInOrder(trace: seq<Stage>) {
    1 <= |trace| <= |AllStages| && trace == AllStages[..|trace|]
  }

  lemma PrefixRanInOrder(k: nat)
    requires 1 <= k <= |AllStages|
    ensures RanInOrder(AllStages[..k])
  {
  }

  /** Ingestion always runs first, and the stages entered are a prefix of
      ingest, validate, transform, train, push. */
  lemma StagesRunInOrder(lib: Library, schema: Schema, params: Doc<Setting>, files: map<string, Artifact>,
                         fetched: Result<Table>, split: Table -> (Table, Table))
    ensures var o := Pipeline(lib, schema, params, files, fetched, split);
      RanInOrder(o.trace) && o.trace[0] == Ingest
  {
    var o := Pipeline(lib, schema, params, files, fetched, split);
    var k: nat := 1;
    if fetched.Ok? {
      var (train, test) := split(fetched.value);
      var valid := StartDataValidation(lib, schema, train, test);
      if valid.Err? || !valid.value {
        k := 2;
      } else {
        TrainingRunTrace(lib, schema, params, files, train, test);
        k := |o.trace|;
      }
    }
    PrefixRanInOrder(k);
  }

  /** Validation that finds the data invalid ends the run successfully with
      no later stage entered and nothing written. */
  lemma ValidationGatesTraining(lib: Library, schema: Schema, params: Doc<Setting>, files: map<string, Artifact>,
                                fetched: Result<Table>, split: Table -> (Table, Table))
    requires fetched.Ok?
    requires StartDataValidation(lib, schema, split(fetched.value).0, split(fetched.value).1) == Ok(false)
    ensures Pipeline(lib, schema, params, files, fetched, split) == Outcome(Ok(()), [Ingest, Validate], params, files, [], [])
  {
  }

  /** A successful run either stopped at a failed validation or went all the
      way through the push. */
  lemma SuccessfulRunStopsAtValidationOrPushes(lib: Library, schema: Schema, params: Doc<Setting>,
                                               files: map<string, Artifact>,
                                               fetched: Result<Table>, split: Table -> (Table, Table))
    ensures var o := Pipeline(lib, schema, params, files, fetched, split);
      o.result.Ok? ==> o.trace == [Ingest, Validate] || o.trace == AllStages
  {
    if fetched.Ok? {
      var (train, test) := split(fetched.value);
      TrainingRunTrace(lib, schema, params, files, train, test);
    }
  }

  /** Every failure of the run is wrapped by its stage's handler and by the
      outer one. Since writes and uploads never fail in this model, a failed
      run uploads nothing and keeps the stored baseline. */
  lemma FailedRunKeepsBaseline(lib: Library, schema: Schema, params: Doc<Setting>, files: map<string, Artifact>,
                               fetched: Result<Table>, split: Table -> (Table, Table))
    ensures var o := Pipeline(lib, schema, params, files, fetched, split);
      o.result.Err? ==> o.result.error.Wrapped? && o.result.error.cause.Wrapped? && o.params == params && o.uploaded == []
  {
    if fetched.Ok? {
      var (train, test) := split(fetched.value);
      TrainingRunFailure(lib, schema, params, files, train, test);
    }
  }

  /** `start_data_transformation(train_set, test_set)`: a fresh
      `DataTransformation` reads its settings, then transforms two frames
      holding the tables. */
  method StartDataTransformation(lib: Library, schema: Schema, store: Store, train: Table, test: Table)
    returns (r: Result<(Matrix, Matrix)>)
    modifies store
    ensures var e := TransformStage(lib, schema, old(store.params), old(store.files), train, test);
      && r == e.result && store.params == e.params && store.files == e.files
      && store.uploads == old(store.uploads) + e.uploaded && store.log == old(store.log) + e.events
  {
    var settings := ReadSettings(store.params);
    if settings.Err? {
      return Err(Wrapped(settings.error));
    }
    var trainFrame := new Frame(train);
    var testFrame := new Frame(test);
    var out := InitiateDataTransformation(lib, schema, settings.value.artifactsDir, trainFrame, testFrame, store);
    if out.Err? {
      r := Err(Wrapped(out.error));
    } else {
      r := Ok(out.value);
    }
  }

  /** `start_model_trainer(train_set, test_set)`: a fresh `ModelTrainer`
      reads its settings, then runs the promotion gate. */
  method StartModelTrainer(lib: Library, store: Store, trainArr: Matrix, testArr: Matrix) returns (r: Result<()>)
    modifies store
    ensures var e := TrainStage(lib, old(store.params), old(store.files), trainArr, testArr);
      && r == e.result && store.params == e.params && store.files == e.files
      && store.uploads == old(store.uploads) + e.uploaded && store.log == old(store.log) + e.events
  {
    var settings := ReadSettings(store.params);
    if settings.Err? {
      return Err(Wrapped(settings.error));
    }
    var out := InitiateModelTrainer(lib, settings.value, store, trainArr, testArr);
    if out.Err? {
      r := Err(Wrapped(out.error));
    } else {
      r := Ok(());
    }
  }

  /** `start_model_pusher()`: a fresh `ModelTrainer` reads its settings, then
      uploads the artifacts folder. */
  method StartModelPusher(store: Store) returns (r: Result<()>)
    modifies store
    ensures var e := PushStage(old(store.params), old(store.files));
      && r == e.result && store.params == e.params && store.files == e.files
      && store.uploads == old(store.uploads) + e.uploaded && store.log == old(store.log) + e.events
  {
    var settings := ReadSettings(store.params);
    if settings.Err? {
      return Err(Wrapped(settings.error));
    }
    InitiateModelPusher(settings.value, store);
    r := Ok(());
  }

  /** Train, then push, once the transformation stage has returned the arrays. */
  method RunTrainAndPush(lib: Library, store: Store, trainArr: Matrix, testArr: Matrix)
    returns (r: Result<()>, trace: seq<Stage>)
    modifies store
    ensures var o := TrainAndPush(lib, old(store.params), old(store.files), trainArr, testArr);
      && r == o.result && trace == o.trace
      && store.params == o.params && store.files == o.files
      && store.uploads == old(store.uploads) + o.uploaded && store.log == old(store.log) + o.events
  {
    ghost var m := TrainStage(lib, store.params, store.files, trainArr, testArr);
    trace := AllStages[..4];
    var trained := StartModelTrainer(lib, store, trainArr, testArr);
    if trained.Err? {
      return Err(Wrapped(trained.error)), trace;
    }
    ghost var u := PushStage(m.params, m.files);
    trace := AllStages;
    var pushed := StartModelPusher(store);
    AppendAssoc(old(store.uploads), m.uploaded, u.uploaded);
    AppendAssoc(old(store.log), m.events, u.events);
    if pushed.Err? {
      r := Err(Wrapped(pushed.error));
    } else {
      r := Ok(());
    }
  }

  /** Transform, train and push, once validation has passed. */
  method RunTrainingStages(lib: Library, schema: Schema, store: Store, train: Table, test: Table)
    returns (r: Result<()>, trace: seq<Stage>)
    modifies store
    ensures var o := TrainingRun(lib, schema, old(store.params), old(store.files), train, test);
      && r == o.result && trace == o.trace
      && store.params == o.params && store.files == o.files
      && store.uploads == old(store.uploads) + o.uploaded && store.log == old(store.log) + o.events
  {
    ghost var t := TransformStage(lib, schema, store.params, store.files, train, test);
    trace := AllStages[..3];
    var arrays := StartDataTransformation(lib, schema, store, train, test);
    if arrays.Err? {
      return Err(Wrapped(arrays.error)), trace;
    }
    var (trainArr, testArr) := arrays.value;
    ghost var o := TrainAndPush(lib, t.params, t.files, trainArr, testArr);
    r, trace := RunTrainAndPush(lib, store, trainArr, testArr);
    AppendAssoc(old(store.uploads), t.uploaded, o.uploaded);
    AppendAssoc(old(store.log), t.events, o.events);
  }

  /** `run_pipeline()`; `trace` lists the stages entered. */
  method RunPipeline(lib: Library, schema: Schema, store: Store, fetched: Result<Table>, split: Table -> (Table, Table))
    returns (r: Result<()>, trace: seq<Stage>)
    modifies store
    ensures var o := Pipeline(lib, schema, old(store.params), old(store.files), fetched, split);
      && r == o.result && trace == o.trace
      && store.params == o.params && store.files == o.files
      && store.uploads == old(store.uploads) + o.uploaded && store.log == old(store.log) + o.events
  {
    trace := AllStages[..1];
    var ingested := StartDataIngestion(fetched, split);
    if ingested.Err? {
      return Err(Wrapped(ingested.error)), trace;
    }
    var (train, test) := ingested.value;
    trace := AllStages[..2];
    var valid := StartDataValidation(lib, schema, train, test);
    if valid.Err? {
      return Err(Wrapped(valid.error)), trace;
    }
    if !valid.value {
      return Ok(()), trace;
    }
    r, trace := RunTrainingStages(lib, schema, store, train, test);
  }
}
