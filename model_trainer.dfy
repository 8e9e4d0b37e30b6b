/** `ModelTrainer` and the `TourismModel` bundle: tune every configured model,
    pick the best, and promote it only when it reaches the stored baseline
    score. Promotion first rewrites the baseline in `params.yaml`, then saves
    the bundle of preprocessor and model. */
module ModelTrainer {
  import opened Common
  import opened Params
  import opened Library
  import opened Storage
  import opened MainUtils
  import opened Tuner

  /** `TourismModel.predict(X)`: transform with the bundled preprocessor, then
      predict with the bundled model. A bundled object that is itself a
      `TourismModel` has no `transform`, which raises inside the method's
      handler. */
  function Predict(lib: Library, bundle: TourismModel, x: Table): (r: Result<seq<real>>)
    ensures r.Ok? <==> bundle.preprocessing.PreprocessorObject?
    ensures r.Ok? ==> r.value == lib.predict(bundle.trainedModel, lib.transform(bundle.preprocessing.preprocessor, x))
    ensures r.Err? ==> r.error == Wrapped(NoAttribute("transform"))
  {
    match bundle.preprocessing
    case PreprocessorObject(p) => Ok(lib.predict(bundle.trainedModel, lib.transform(p, x)))
    case ModelObject(_) => Err(Wrapped(NoAttribute("transform")))
  }

  /** `TourismModel.__repr__` and `__str__`: the trained model's class name followed by `()`. */
  function Display(bundle: TourismModel): (s: string)
    ensures |s| == |bundle.trainedModel.className| + 2
    ensures s[..|bundle.trainedModel.className|] == bundle.trainedModel.className
    ensures s[|bundle.trainedModel.className|..] == "()"
  {
    bundle.trainedModel.className + "()"
  }

  /** Two bundles display alike exactly when their models are of the same class. */
  lemma DisplayShowsClass(a: TourismModel, b: TourismModel)
    ensures Display(a) == Display(b) <==> a.trainedModel.className == b.trainedModel.className
  {
    if Display(a) == Display(b) {
      var n := |a.trainedModel.className|;
      assert Display(a)[..n] == Display(b)[..n];
    }
  }

  /** Where the promoted bundle is saved. */
  function ModelPath(artifactsDir: string): string {
    artifactsDir + "/model.sav"
  }

  /** `load_object(preprocessor_obj_file_name)`: whatever object the file
      holds, unchecked; a missing file raises wrapped. */
  function LoadPreprocessor(files: map<string, Artifact>, path: string): (r: Result<Artifact>)
    ensures r.Ok? <==> path in files
    ensures r.Ok? ==> r.value == files[path]
    ensures r.Err? ==> r.error == Wrapped(FileMissing(path))
  {
    if path in files then Ok(files[path]) else Err(Wrapped(FileMissing(path)))
  }

  /** What a successful promotion writes: the new baseline and the bundle. */
  datatype Promotion = Promotion(bestScore: real, bundle: TourismModel)

  /** The decision `initiate_model_trainer` takes, given the files present. */
  function Promote(lib: Library, settings: Settings, files: map<string, Artifact>,
                   trainArr: Matrix, testArr: Matrix): (r: Result<Promotion>)
    ensures r.Err? ==> r.error.Wrapped?
    ensures r.Ok? ==> settings.preprocessorFile in files && r.value.bundle.preprocessing == files[settings.preprocessorFile]
  {
    match GetTrainedModels(lib, settings.trainModel, trainArr, testArr)
    case Err(e) => Err(Wrapped(e))
    case Ok(lst) =>
      match GetBestModelWithNameAndScore(lst)
      case Err(e) => Err(Wrapped(e))
      case Ok((best, score)) =>
        match LoadPreprocessor(files, settings.preprocessorFile)
        case Err(e) => Err(Wrapped(e))
        case Ok(pre) =>
          if score >= settings.baseModelScore then Ok(Promotion(score, TourismModel(pre, best)))
          else Err(Wrapped(NoQualifyingModel))
  }

  /** The promotion gate: a bundle is promoted exactly when every model was
      tuned, one was selected and the configured file loaded, and the selected
      score reaches the baseline (so equality promotes); the promoted score
      beats every candidate, and every failure is wrapped. */
  lemma PromotionGate(lib: Library, settings: Settings, files: map<string, Artifact>,
                      trainArr: Matrix, testArr: Matrix)
    ensures var r := Promote(lib, settings, files, trainArr, testArr);
      r.Err? ==> r.error.Wrapped?
    ensures var r := Promote(lib, settings, files, trainArr, testArr);
      var lst := GetTrainedModels(lib, settings.trainModel, trainArr, testArr);
      r.Ok? ==> (
        && lst.Ok? && GetBestModelWithNameAndScore(lst.value).Ok?
        && LoadPreprocessor(files, settings.preprocessorFile).Ok?
        && var (best, score) := GetBestModelWithNameAndScore(lst.value).value;
        && r.value == Promotion(score, TourismModel(LoadPreprocessor(files, settings.preprocessorFile).value, best))
        && settings.baseModelScore <= score
        && forall i :: 0 <= i < |lst.value| ==> lst.value[i].score <= score)
    ensures var r := Promote(lib, settings, files, trainArr, testArr);
      var lst := GetTrainedModels(lib, settings.trainModel, trainArr, testArr);
      lst.Ok? && GetBestModelWithNameAndScore(lst.value).Ok? && LoadPreprocessor(files, settings.preprocessorFile).Ok? ==> (
        var score := GetBestModelWithNameAndScore(lst.value).value.1;
        && (r.Ok? <==> settings.baseModelScore <= score)
        && (score < settings.baseModelScore ==> r == Err(Wrapped(NoQualifyingModel))))
  {
  }

  /** A promoted score reached the baseline the trainer read. */
  lemma PromotedScoreReachesBaseline(lib: Library, settings: Settings, files: map<string, Artifact>,
                                     trainArr: Matrix, testArr: Matrix)
    requires Promote(lib, settings, files, trainArr, testArr).Ok?
    ensures settings.baseModelScore <= Promote(lib, settings, files, trainArr, testArr).value.bestScore
  {
  }

  /** The promoted bundle holds the object loaded from the configured file,
      whatever its kind, and the selected model. It predicts with that model
      on the preprocessor's output when the object is a preprocessor, and
      raises when it is a stored bundle. */
  lemma PromotedBundlePredicts(lib: Library, settings: Settings, files: map<string, Artifact>,
                               trainArr: Matrix, testArr: Matrix, x: Table)
    requires Promote(lib, settings, files, trainArr, testArr).Ok?
    ensures var bundle := Promote(lib, settings, files, trainArr, testArr).value.bundle;
      var lst := GetTrainedModels(lib, settings.trainModel, trainArr, testArr).value;
      && bundle.preprocessing == files[settings.preprocessorFile]
      && bundle.trainedModel == GetBestModelWithNameAndScore(lst).value.0
      && (files[settings.preprocessorFile].PreprocessorObject? ==>
            Predict(lib, bundle, x)
              == Ok(lib.predict(GetBestModelWithNameAndScore(lst).value.0,
                                lib.transform(files[settings.preprocessorFile].preprocessor, x))))
      && (files[settings.preprocessorFile].ModelObject? ==>
            Predict(lib, bundle, x) == Err(Wrapped(NoAttribute("transform"))))
  {
  }

  /** Rerunning on the same inputs after a promotion, with the baseline the
      promotion wrote, promotes the same bundle again: equality promotes. */
  lemma PromotionIsStable(lib: Library, d: Doc<Setting>, files: map<string, Artifact>,
                          trainArr: Matrix, testArr: Matrix)
    requires ReadSettings(d).Ok?
    requires Promote(lib, ReadSettings(d).value, files, trainArr, testArr).Ok?
    ensures var p := Promote(lib, ReadSettings(d).value, files, trainArr, testArr).value;
      var d' := Set(d, BaseModelScoreKey, Number(p.bestScore));
      && ReadSettings(d').Ok?
      && ReadSettings(d').value.baseModelScore == p.bestScore
      && Promote(lib, ReadSettings(d').value, files, trainArr, testArr) == Ok(p)
  {
    var p := Promote(lib, ReadSettings(d).value, files, trainArr, testArr).value;
    ReadSettingsAfterScoreUpdate(d, p.bestScore);
    PromoteAtOwnScore(lib, ReadSettings(d).value, files, trainArr, testArr);
  }

  /** Raising the baseline to the promoted score keeps the promotion. */
  lemma PromoteAtOwnScore(lib: Library, settings: Settings, files: map<string, Artifact>,
                          trainArr: Matrix, testArr: Matrix)
    requires Promote(lib, settings, files, trainArr, testArr).Ok?
    ensures var p := Promote(lib, settings, files, trainArr, testArr);
      Promote(lib, settings.(baseModelScore := p.value.bestScore), files, trainArr, testArr) == p
  {
  }

  /** The writes of a promotion, in order: the new baseline, then the bundle. */
  method PromoteBundle(store: Store, artifactsDir: string, p: Promotion)
    modifies store
    ensures store.params == Set(old(store.params), BaseModelScoreKey, Number(p.bestScore))
    ensures store.files == old(store.files)[ModelPath(artifactsDir) := ModelObject(p.bundle)]
    ensures store.log == old(store.log) + [ParamsWritten(store.params), ObjectSaved(ModelPath(artifactsDir), ModelObject(p.bundle))]
    ensures store.uploads == old(store.uploads)
  {
    UpdateModelScore(store, p.bestScore);
    ghost var written := ParamsWritten(store.params);
    store.SaveObject(ModelPath(artifactsDir), ModelObject(p.bundle));
    assert store.log == old(store.log) + [written] + [ObjectSaved(ModelPath(artifactsDir), ModelObject(p.bundle))];
  }

  /** `initiate_model_trainer(train_set, test_set)` with the settings read
      when the trainer was constructed. */
  method InitiateModelTrainer(lib: Library, settings: Settings, store: Store, trainArr: Matrix, testArr: Matrix)
    returns (r: Result<()>)
    modifies store
    ensures r.Ok? <==> Promote(lib, settings, old(store.files), trainArr, testArr).Ok?
    ensures r.Err? ==> r.error == Promote(lib, settings, old(store.files), trainArr, testArr).error
    ensures r.Err? ==> store.params == old(store.params) && store.files == old(store.files) && store.log == old(store.log)
    ensures r.Ok? ==>
      var p := Promote(lib, settings, old(store.files), trainArr, testArr).value;
      && store.params == Set(old(store.params), BaseModelScoreKey, Number(p.bestScore))
      && store.files == old(store.files)[ModelPath(settings.artifactsDir) := ModelObject(p.bundle)]
      && store.log == old(store.log) + [ParamsWritten(store.params), ObjectSaved(ModelPath(settings.artifactsDir), ModelObject(p.bundle))]
    ensures store.uploads == old(store.uploads)
  {
    ghost var p := Promote(lib, settings, store.files, trainArr, testArr);
    var lst := GetTrainedModels(lib, settings.trainModel, trainArr, testArr);
    if lst.Err? {
      assert p == Err(Wrapped(lst.error));
      return Err(Wrapped(lst.error));
    }
    var best := GetBestModelWithNameAndScore(lst.value);
    if best.Err? {
      assert p == Err(Wrapped(best.error));
      return Err(Wrapped(best.error));
    }
    var (bestModel, bestScore) := best.value;
    ghost var pre := LoadPreprocessor(store.files, settings.preprocessorFile);
    var loaded := store.LoadObject(settings.preprocessorFile);
    if loaded.Err? {
      assert p == Err(Wrapped(pre.error)) && pre.error == loaded.error;
      return Err(Wrapped(loaded.error));
    }
    var preprocessing := loaded.value;
    assert pre == Ok(preprocessing);
    if bestScore >= settings.baseModelScore {
      var bundle := TourismModel(preprocessing, bestModel);
      assert p == Ok(Promotion(bestScore, bundle));
      PromoteBundle(store, settings.artifactsDir, Promotion(bestScore, bundle));
      r := Ok(());
    } else {
      assert p == Err(Wrapped(NoQualifyingModel));
      r := Err(Wrapped(NoQualifyingModel));
    }
  }

  /** `initiate_model_pusher()`: uploads the artifacts folder to the input files bucket. */
  method InitiateModelPusher(settings: Settings, store: Store)
    modifies store
    ensures store.uploads == old(store.uploads) + [(settings.artifactsDir, settings.inputFilesBucket)]
    ensures store.params == old(store.params) && store.files == old(store.files)
    ensures store.log == old(store.log) + [FolderUploaded(settings.artifactsDir, settings.inputFilesBucket)]
  {
    store.UploadFolder(settings.artifactsDir, settings.inputFilesBucket);
  }
}
