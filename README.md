# Tourism training pipeline — a verified model

This project models the training path of the `tourism` package in Dafny:

- the schema checks and the validation decision;
- continuous-column selection and in-place IQR outlier capping;
- the target split and the `np.c_` array construction;
- the tuner's last-column split and per-model loop;
- estimator resolution by name and grid lookup;
- Python-`max` best-model selection;
- the promotion gate with its rewrite of `base_model_score`;
- the `TrainPipeline` stage sequence.

The statistical libraries are uninterpreted functions, gathered in one `Library` record:

- the evidently drift profile and pandas `quantile`;
- the `ColumnTransformer` fit and transform;
- the xgboost namespace and `all_estimators()`;
- `GridSearchCV`, `fit`, `predict` and `r2_score`.

The state outside the process is a `Storage.Store` object. It holds `params.yaml` as an ordered document, the dill-serialised artifact files, and the folders uploaded to S3. A ghost log records the order of the writes.

Modules follow the source files:

| module | source file | form |
|---|---|---|
| `ValidationUtils` | `tourism/utils/data_validation_utils.py` | methods with loops |
| `DataValidation` | `tourism/components/data_validation.py` | functions |
| `DataTransformation` | `tourism/components/data_transformation.py` | functions, plus a `Frame` class for in-place capping |
| `Tuner` | `tourism/components/tuner.py` | functions |
| `MainUtils` | `tourism/utils/main_utils.py` | functions, a `Utils` class for `get_tuned_model`, a method for `update_model_score` |
| `ModelTrainer` | `tourism/components/model_trainer.py` | functions, and methods over the store |
| `TrainPipeline` | `tourism/pipeline/train_pipeline.py` | methods over the store |

`Common`, `Params`, `Library` and `Storage` hold the shared vocabulary.

Every `try/except` that re-raises `TourismException(e, sys)` is modelled by the `Wrapped` error constructor. So a stage failure reaches the caller of `run_pipeline` wrapped twice: once by the stage wrapper and once by `run_pipeline`'s own handler.

Each state-changing pipeline method is proved against a specification function of the old state:

- `StartDataTransformation` against `TransformStage`;
- `StartModelTrainer` against `TrainStage`;
- `StartModelPusher` against `PushStage`;
- `RunTrainAndPush` against `TrainAndPush`;
- `RunTrainingStages` against `TrainingRun`;
- `RunPipeline` against `Pipeline`.

The ordering, gating and failure properties are then lemmas about those functions.

Behaviours of the code that the model keeps as they are:

- **Presence checks.** They report only the *last* configured column (the loop overwrites one status variable), so an earlier missing column is not detected (`EarlierAbsenceIgnored`). An empty column list leaves that variable unbound, which raises.
- **Best-model selection.** It uses `max` over `(score, model, name)` tuples. `max` keeps a running maximum, and a later score *equal to that running maximum* makes Python compare the two estimator objects, which define no order, so `max` raises `TypeError` (`Err(Unorderable)`). An equal score that comes after a higher one is never compared, so `[0.3, 0.9, 0.3]` selects without raising. `PyMaxIndexCorrect` states exactly when selection succeeds, and `TieRaises` gives an input that raises.
- **Baseline before bundle.** The baseline score in `params.yaml` is rewritten *before* the bundle is saved (`model_trainer.py:85-102`).
- **Rejected model.** `raise "…"` with a plain string raises `TypeError` in Python 3. It is still an exception, so it is caught and wrapped like the others (`NoQualifyingModel`).
- **Preprocessor path.** The trainer loads the preprocessor from the configured `preprocessor_obj_file_name`, while the transformation saves it to `artifacts_dir + "/preprocessor.pkl"`. The two paths are kept separate. `load_object` returns whatever object the file holds, and the bundle takes it unchecked: a stored bundle at that path is promoted as the "preprocessor", and only the bundle's `predict` then fails, since the object has no `transform`.
- **Push settings.** Every stage wrapper constructs a fresh component, which re-reads `params.yaml`. So the pusher reads the config *after* the baseline rewrite. `PushAfterPromotionSucceeds` shows the re-read cannot make the push fail; since writes and uploads never fail in this model, the push then succeeds.
- **Test-set capping.** The test table is capped with limits from its own quartiles, as the code does, not from the training table's.

## Model

| member | source | states |
|---|---|---|
| ValidationUtils.ValidateSchemaColumns | tourism/utils/data_validation_utils.py:11-23 | True exactly when the schema has `columns` and the frame has that many columns; a schema without `columns` gives False rather than an error |
| ValidationUtils.CheckColumnsPresent | tourism/utils/data_validation_utils.py:27-37 | the loop returns the membership of the last configured column only; an empty list leaves the status unbound and fails wrapped |
| ValidationUtils.ValidateSchemaForNumerical | tourism/utils/data_validation_utils.py:25-40 | result is `Ok(last numerical column is present)`, or the wrapped unbound-variable error for an empty list |
| ValidationUtils.ValidateSchemaForCategorical | tourism/utils/data_validation_utils.py:42-57 | the same over `categorical_columns` |
| ValidationUtils.AllPresentPasses | tourism/utils/data_validation_utils.py:27-37 | with every configured column present, a non-empty check passes |
| ValidationUtils.FailureMeansMissing | tourism/utils/data_validation_utils.py:27-37 | a failed check does imply some configured column is missing |
| ValidationUtils.EarlierAbsenceIgnored | tourism/utils/data_validation_utils.py:27-37 | counterexample: an absent earlier column with the last one present passes |
| ValidationUtils.AbsentLastFails | tourism/utils/data_validation_utils.py:27-37 | an absent last column fails whatever columns precede it |
| DataValidation.ValidateDatasetSchemaColumns | tourism/components/data_validation.py:25-46 | the pair is the column-count check on train and on test |
| DataValidation.PresencePair | tourism/components/data_validation.py:56-72 | the pair is the presence check on train and on test; it fails, wrapped twice, exactly when the list is empty |
| DataValidation.ValidateDatasetSchemaForNumerical | tourism/components/data_validation.py:48-75 | succeeds iff `numerical_columns` is non-empty, with the two last-column statuses |
| DataValidation.ValidateDatasetSchemaForCategorical | tourism/components/data_validation.py:77-106 | succeeds iff `categorical_columns` is non-empty, with the two last-column statuses |
| DataValidation.DetectDatasetDrift | tourism/components/data_validation.py:108-132 | without the ratio, the report's `dataset_drift` value; with it, `n_drifted / n_features`, and division by zero fails wrapped |
| DataValidation.InitiateDataValidation | tourism/components/data_validation.py:134-198 | any drift value other than `False` gives False; otherwise it fails iff a presence list is empty, else it is True iff all six statuses are True |
| DataValidation.MissingColumnStopsValidation | tourism/components/data_validation.py:168-191 | an absent last numerical column in the training table makes validation return False, not raise |
| DataValidation.ValidationSeesOnlyNames | tourism/components/data_validation.py:140-195 | tables with the same column names and drift flag validate alike: row values are never read |
| DataTransformation.ContinuousColumns | tourism/components/data_transformation.py:126-130 | exactly the numerical columns with at least 25 distinct training values, in configured order, each as many times as it is configured; a configured column missing from the table raises |
| DataTransformation.CapValue | tourism/components/data_transformation.py:93-95 | values above the upper limit become it, values below the lower become it, values between are unchanged |
| DataTransformation.CapValues | tourism/components/data_transformation.py:93-95 | every value of the column is capped, and the length is kept |
| DataTransformation.LimitsOrdered | tourism/components/data_transformation.py:83-91 | limits `Q1 - 1.5 IQR` and `Q3 + 1.5 IQR` are ordered when the quartiles are |
| DataTransformation.CapColumn | tourism/components/data_transformation.py:76-106 | only the first column named `col` changes, to its values capped with limits from its own quartiles; columns, names and lengths kept; a missing column raises wrapped |
| DataTransformation.CapColumnBounds | tourism/components/data_transformation.py:83-95 | after capping every value of the column lies between the limits |
| DataTransformation.CapValuesIdempotent | tourism/components/data_transformation.py:93-95 | capping twice with the same limits equals capping once |
| DataTransformation.CapAll | tourism/components/data_transformation.py:134-138 | capping a list of columns keeps names and lengths, leaves every other column unchanged, and fails iff a listed column is missing |
| DataTransformation.CapColumnEffect | tourism/components/data_transformation.py:76-106 | column by column: the first column named `col` gets its values capped with its own quartile limits, every other column is unchanged, and names are kept |
| DataTransformation.FirstOfNameUnique | tourism/components/data_transformation.py:83 | `t[col]` on a name picks one column: two first occurrences of the same name are the same column |
| DataTransformation.CapAllCaps | tourism/components/data_transformation.py:134-138 | for a list naming each column once, the first column of each listed name is capped with limits from its own quartiles, and every other column is unchanged |
| DataTransformation.BothTablesCapped | tourism/components/data_transformation.py:126-138 | for a `numerical_columns` list naming each column once, each table's columns chosen on the training table are capped with that table's own quartile limits (the test table with the test quartiles); all other columns are unchanged |
| DataTransformation.SplitTarget | tourism/components/data_transformation.py:142-152 | the target is `t[target]`; the features are the other columns in order, every copy kept, without the target; a missing target raises |
| DataTransformation.DropNamed | tourism/components/data_transformation.py:142-144 | `drop(columns=[target])` keeps exactly the other columns, in order and with every copy |
| DataTransformation.AppendTarget | tourism/components/data_transformation.py:170-174 | each output row is the feature row followed by its target; unequal lengths raise |
| DataTransformation.TransformerObject | tourism/components/data_transformation.py:32-73 | the one-hot, binary and numerical column groups come from the schema |
| DataTransformation.TransformationOutputs | tourism/components/data_transformation.py:126-174 | a successful run chose the continuous columns on train and capped both tables with them, split off the target, fitted on the training features only, and built rows ending with the target |
| DataTransformation.FitIgnoresTestSplit | tourism/components/data_transformation.py:160-166 | two runs differing only in the test table fit the same preprocessor and build the same training array |
| DataTransformation.Frame.ClampAbove | tourism/components/data_transformation.py:93 | in place: values of column `i` above `upper` become `upper`; nothing else changes |
| DataTransformation.Frame.ClampBelow | tourism/components/data_transformation.py:95 | in place: values of column `i` below `lower` become `lower`; nothing else changes |
| DataTransformation.Frame.OutlierCapping | tourism/components/data_transformation.py:76-106 | the frame afterwards equals `CapColumn` of the frame before; a missing column raises and changes nothing |
| DataTransformation.Frame.CapColumns | tourism/components/data_transformation.py:134 | the frame afterwards equals `CapAll` of the frame before |
| DataTransformation.CapFrames | tourism/components/data_transformation.py:126-138 | both frames are capped in place with the columns chosen on the training frame, as `CapBoth` states |
| DataTransformation.EncodeAndSave | tourism/components/data_transformation.py:142-182 | returns the two arrays of `Encode` and saves the fitted preprocessor at `artifacts_dir/preprocessor.pkl`; on failure nothing is saved |
| DataTransformation.InitiateDataTransformation | tourism/components/data_transformation.py:108-193 | result, capped frames, saved preprocessor and write log are those of `Transformation`; failures are wrapped and save nothing |
| Tuner.SplitLast | tourism/components/tuner.py:21-26 | features are each row without its last element and the target is each row's last element; an array without columns raises |
| Tuner.SplitAfterAppend | tourism/components/tuner.py:21-26 | splitting rows built as features ++ [target] gives back exactly the features and the targets |
| Tuner.AppendAfterSplit | tourism/components/tuner.py:21-26 | appending the split-off target again rebuilds the array |
| Tuner.TuneEach | tourism/components/tuner.py:28-39 | one candidate per name in order, each `get_tuned_model` on the same four arrays; the first failure is the result, with every earlier name tuned |
| Tuner.GetTrainedModels | tourism/components/tuner.py:17-44 | one candidate per `train_model` key in key order; an array without columns raises wrapped |
| Tuner.GetTrainedModelsSucceeds | tourism/components/tuner.py:17-44 | the pass succeeds iff every key tunes; a failure is the first failing key's error, wrapped by the pass's handler, with every earlier key tuned |
| Tuner.OneFailureAbortsAll | tourism/components/tuner.py:28-44 | one failing model makes the whole call fail: no partial list |
| MainUtils.Lower | tourism/utils/main_utils.py:63 | `str.lower` on ASCII letters, length kept |
| MainUtils.GetBaseModel | tourism/utils/main_utils.py:61-74 | an `xgb…` name (any case) is an xgboost attribute or a `KeyError`; any other name resolves to the first registry entry with that name, or raises `ValueError` |
| MainUtils.GetModelParams | tourism/utils/main_utils.py:76-91 | the grid searched is the one keyed by the model's class name; a missing key raises |
| MainUtils.TunedModelSteps | tourism/utils/main_utils.py:31-48 | a candidate is the resolved class with the searched parameters set, fitted on train, scored by R² of its test predictions, named by its class |
| MainUtils.Utils.GetTunedModel | tourism/utils/main_utils.py:31-48 | the step-by-step method returns `TunedModel` and leaves the model, best parameters, predictions and score in its fields |
| MainUtils.MaxScore | tourism/utils/main_utils.py:103 | the largest score of a non-empty list is reached by some candidate |
| MainUtils.PyMaxIndex | tourism/utils/main_utils.py:103-105 | `max` of an empty list raises, and only then `EmptySequence`; any other failure is an unorderable model comparison; a success is a position in the list |
| MainUtils.MaxIndexFrom | tourism/utils/main_utils.py:103-105 | the running-maximum scan from position `k` returns a position in the list, and fails only by comparing two models |
| MainUtils.PyMaxIndexCorrect | tourism/utils/main_utils.py:103-105 | `max` succeeds iff the list is non-empty and no candidate ties the best score before it; the chosen candidate's score is strictly above every other |
| MainUtils.DistinctScoresSelect | tourism/utils/main_utils.py:103-105 | pairwise distinct scores never reach a model comparison |
| MainUtils.GetBestModelWithNameAndScore | tourism/utils/main_utils.py:101-110 | returns the model and score of the strictly best candidate; an empty list or a tie fails wrapped |
| MainUtils.SelectsHighestScore | tourism/utils/main_utils.py:103-107 | among scores 0.81, 0.93 and 0.77 the 0.93 model is selected |
| MainUtils.TieRaises | tourism/utils/main_utils.py:103-105 | two equal scores make selection raise |
| MainUtils.UpdateModelScore | tourism/utils/main_utils.py:142-152 | `params.yaml` is rewritten with only `base_model_score` set, in key order; one write logged |
| Params.Keys | tourism/components/tuner.py:19 | the keys of a mapping in file order (`list(d.keys())`; also the names of `all_estimators()`) |
| Params.Lookup | tourism/components/model_trainer.py:82 | `config[k]` gives the value of an entry with that key, or a `KeyError` exactly when the key is absent |
| Params.LookupFirst | tourism/components/model_trainer.py:82 | `config[k]` reads the first entry with key `k`, whatever entries with that key follow |
| Params.Set | tourism/utils/main_utils.py:144-149 | after `d[k] = v` the key is present, and the document grows by one entry exactly when the key was absent |
| Params.SetKeys | tourism/utils/main_utils.py:144-149 | setting a key keeps the key order, appending the key only when it was absent |
| Params.SetLookup | tourism/utils/main_utils.py:144-149 | after the update the key reads the new value and every other key reads what it read before |
| Params.SetUnique | tourism/utils/main_utils.py:144-149 | the update keeps the keys unique |
| Params.GetText | tourism/components/model_trainer.py:52-56 | a text setting reads its text; a missing key is a `KeyError`, and a value of another type is a wrong-type error |
| Params.InputFilesBucket | tourism/components/model_trainer.py:54 | `config["s3_bucket"]["tourism_input_files_bucket"]`: the nested text value; a `KeyError` when either key is missing; a `TypeError` (wrong type) when `s3_bucket` is a number or a string, which cannot be subscripted, or when the key holds a grid rather than a name |
| Params.Assemble | tourism/components/model_trainer.py:48-56 | the settings are built iff every read succeeded with the right type; a failure is the first failing read's error, or a wrong type for `train_model` or `base_model_score`; each field is the value read |
| Params.ReadSettingsReads | tourism/components/model_trainer.py:48-56 | read settings are exactly the configured `artifacts_dir`, `preprocessor_obj_file_name`, `s3_bucket.tourism_input_files_bucket`, `train_model` and `base_model_score` |
| Params.ReadSettingsSucceeds | tourism/utils/main_utils.py:25-29 | the settings read iff `model_utils` is present, `artifacts_dir` and `preprocessor_obj_file_name` are text, the bucket reads, `train_model` is a grid and `base_model_score` a number; every failure is a `KeyError` or a wrong-type error naming one of the keys read |
| Params.ReadSettingsAfterScoreUpdate | tourism/utils/main_utils.py:142-152 | after the baseline rewrite the config still reads, with only the baseline changed |
| Common.Wrap | tourism/pipeline/train_pipeline.py:42-43 | a handler passes a success through and wraps a failure once |
| Common.IndexOf | tourism/utils/main_utils.py:67 | `list.index`: the first position of the value, or absence |
| Storage.Store.WriteParams | tourism/utils/main_utils.py:148-149 | the whole document is replaced; one write logged |
| Storage.Store.SaveObject | tourism/utils/main_utils.py:93-99 | one file written or overwritten; one write logged |
| Storage.Store.LoadObject | tourism/utils/main_utils.py:112-118 | a present file is returned; a missing one raises `FileNotFoundError`, wrapped |
| Storage.Store.UploadFolder | tourism/components/model_trainer.py:123 | one folder appended to the uploads; one write logged |
| ModelTrainer.Display | tourism/components/model_trainer.py:33-37 | the class name of the trained model followed by `()` |
| ModelTrainer.DisplayShowsClass | tourism/components/model_trainer.py:33-37 | two bundles display alike iff their models have the same class name |
| ModelTrainer.Predict | tourism/components/model_trainer.py:18-31 | the bundled model's predictions on the bundled preprocessor's transform; a bundled object without `transform` raises wrapped |
| ModelTrainer.LoadPreprocessor | tourism/utils/main_utils.py:112-118 | whatever object is stored at the configured file, of either kind, or a wrapped `FileNotFoundError` if absent |
| ModelTrainer.Promote | tourism/components/model_trainer.py:64-113 | every failure is wrapped; a promoted bundle holds exactly the object stored at the configured file |
| ModelTrainer.PromotionGate | tourism/components/model_trainer.py:64-113 | promotion happens iff tuning, selection and loading succeed and the best score is >= the baseline; the bundle pairs the loaded object with the best model, whose score beats every candidate; below the baseline it raises |
| ModelTrainer.PromotedScoreReachesBaseline | tourism/components/model_trainer.py:82-85 | a promoted score is at least the baseline the trainer read |
| ModelTrainer.PromotedBundlePredicts | tourism/components/model_trainer.py:18-31 | the promoted bundle holds the loaded object and the best model; it predicts with that model on the object's transform when the object is a preprocessor, and raises when it is a stored bundle |
| ModelTrainer.PromoteAtOwnScore | tourism/components/model_trainer.py:82-85 | with the baseline raised to the promoted score, the same bundle is promoted again |
| ModelTrainer.PromotionIsStable | tourism/components/model_trainer.py:82-85 | rerunning after a promotion, with the rewritten baseline, promotes the same bundle: equality promotes |
| ModelTrainer.PromoteBundle | tourism/components/model_trainer.py:84-102 | baseline rewritten, then the bundle saved at `artifacts_dir/model.sav`, in that order |
| ModelTrainer.InitiateModelTrainer | tourism/components/model_trainer.py:58-113 | succeeds iff `Promote` does; on success writes exactly the baseline and then the bundle; on failure writes nothing and returns `Promote`'s error |
| ModelTrainer.InitiateModelPusher | tourism/components/model_trainer.py:115-132 | uploads the artifacts folder to the input files bucket; nothing else changes |
| TrainPipeline.StartDataIngestion | tourism/pipeline/train_pipeline.py:23-43 | the fetched table is split as it is (`drop_columns` is never applied); a fetch failure is wrapped |
| TrainPipeline.StartDataValidation | tourism/pipeline/train_pipeline.py:45-53 | the validation status of `initiate_data_validation`; a failure is wrapped by the validation component and again by the stage |
| TrainPipeline.PushAfterPromotionSucceeds | tourism/pipeline/train_pipeline.py:81-89 | after the baseline rewrite the push re-reads the config and succeeds, uploading the artifacts folder, since uploads never fail in this model |
| TrainPipeline.TrainAndPushTrace | tourism/pipeline/train_pipeline.py:101-103 | the push is entered iff the run succeeds; a training failure stops before the push |
| TrainPipeline.TrainStageEffect | tourism/pipeline/train_pipeline.py:69-79 | the training stage succeeds iff the settings read and the gate passes; it then rewrites the baseline and saves the bundle, in that order, and otherwise writes nothing |
| TrainPipeline.AfterTrainPushes | tourism/pipeline/train_pipeline.py:101-103 | a training stage that succeeded, followed by a push, ends the run with that one upload after the stage's writes |
| TrainPipeline.TrainFailureWritesNothing | tourism/pipeline/train_pipeline.py:101-106 | a failed training stage writes nothing and its error is wrapped twice |
| TrainPipeline.PushOnlyAfterPromotion | tourism/pipeline/train_pipeline.py:101-103 | the push is entered only after the gate passed: the best score reached the baseline |
| TrainPipeline.PromotionIsPushed | tourism/pipeline/train_pipeline.py:101-103 | since writes and uploads never fail in this model, a promotion is always followed by a successful push; the new baseline, bundle and upload are in place |
| TrainPipeline.PromotionWritesInOrder | tourism/pipeline/train_pipeline.py:101-103 | a promoted run writes the baseline, then the bundle, then uploads |
| TrainPipeline.TrainingRunTrace | tourism/pipeline/train_pipeline.py:97-103 | after validation, transform, train and push are entered in order up to the first failure; success means all ran |
| TrainPipeline.TrainingRunFailure | tourism/pipeline/train_pipeline.py:97-106 | since writes and uploads never fail in this model, a failed run after validation keeps the baseline, uploads nothing, and is wrapped twice |
| TrainPipeline.TransformStageKeepsConfig | tourism/pipeline/train_pipeline.py:55-67 | the transformation stage leaves `params.yaml` alone, uploads nothing, and wraps its failure |
| TrainPipeline.AfterTransformFailure | tourism/pipeline/train_pipeline.py:97-106 | after a transformation stage that kept the config and uploaded nothing, a failed run keeps the config, uploads nothing and is wrapped twice |
| TrainPipeline.StagesRunInOrder | tourism/pipeline/train_pipeline.py:91-106 | ingestion runs first, and the stages entered are a prefix of ingest, validate, transform, train, push |
| TrainPipeline.ValidationGatesTraining | tourism/pipeline/train_pipeline.py:95 | validation returning False ends the run normally after validation, with nothing written |
| TrainPipeline.SuccessfulRunStopsAtValidationOrPushes | tourism/pipeline/train_pipeline.py:91-106 | a successful run either stopped at validation or went through the push |
| TrainPipeline.FailedRunKeepsBaseline | tourism/pipeline/train_pipeline.py:105-106 | every failure is wrapped by its stage and by `run_pipeline`; since writes and uploads never fail in this model, a failed run uploads nothing and keeps the baseline |
| TrainPipeline.StartDataTransformation | tourism/pipeline/train_pipeline.py:55-67 | the store and result after the stage are those of `TransformStage` |
| TrainPipeline.StartModelTrainer | tourism/pipeline/train_pipeline.py:69-79 | the store and result after the stage are those of `TrainStage` |
| TrainPipeline.StartModelPusher | tourism/pipeline/train_pipeline.py:81-89 | the store and result after the stage are those of `PushStage` |
| TrainPipeline.RunTrainAndPush | tourism/pipeline/train_pipeline.py:101-103 | trainer then pusher; store, trace and result are those of `TrainAndPush` |
| TrainPipeline.RunTrainingStages | tourism/pipeline/train_pipeline.py:97-103 | transformation, trainer, pusher on the previous stage's output; store, trace and result are those of `TrainingRun` |
| TrainPipeline.RunPipeline | tourism/pipeline/train_pipeline.py:91-106 | store, trace and result of `run_pipeline` are those of `Pipeline` |

## Left out

- I/O is modelled as values or left out:
  - MongoDB fetching is the `fetched` parameter of `RunPipeline`;
  - the random `train_test_split` is the `split` parameter;
  - reading `params.yaml` and `schema.yaml` means the documents are given values.
- Library internals are uninterpreted. Their mathematics is not modelled: evidently, pandas quantiles, encoders and scaler, grid search, fitting, `r2_score`, the xgboost and scikit-learn registries.
- Library calls are assumed never to fail: every field of `Library` is a total function. The model does not cover these failures:
  - `GridSearchCV.fit` with a grid naming an unknown parameter (`main_utils.py:86`);
  - `fit`, `predict` and `r2_score` on arrays of mismatched shapes (`main_utils.py:39-52`, `model_trainer.py:25-28`);
  - the column transformer's `fit_transform` and `transform` over a schema group that names a missing column (`data_transformation.py:160-166`);
  - the drift profile (`data_validation.py:115-129`).

  So `TunedModelSteps`, `TransformationOutputs` and the drift results describe only runs in which the library succeeds.
- Schema keys: `schema.yaml` is assumed to hold every key the code reads except `columns`, whose absence is modelled. The other `Schema` fields are total, so the `KeyError` raised for a missing `numerical_columns` or `categorical_columns` (`data_validation_utils.py:27`, `:44`) or for a missing transformation key is not modelled.
- Floating point is modelled as `real`. NaN comparisons and rounding of the limits and ratios are not covered.
- `Lower` covers ASCII letters only; Unicode case mapping is not modelled.
- The tuner's `model_utils` keyword arguments to `GridSearchCV` are part of the uninterpreted grid search.
- Frames after a failure: the state a failed transformation leaves in the two frames is not specified. `InitiateDataTransformation` states the frames only on success.
- `ReadSettings` reads all settings at once, whenever a component is constructed. A component that would fail on one key only when that key is used is not distinguished. An ill-typed value (a non-text `artifacts_dir`, a non-grid `train_model`, a non-number `base_model_score`) is reported there as `WrongType`. The code reads the value as it is and raises `TypeError` or `AttributeError` only where it is used (`data_transformation.py:30`, `tuner.py:19`, `model_trainer.py:84`); the model keeps the error kind but moves it to construction time. The constructor-time read of `TrainPipeline.__init__` is not modelled, since it affects nothing downstream.
- The `MainUtils` fields that `get_tuned_model` overwrites are local to each `Utils` object. Sharing one object among tuning calls is not modelled.
- Failing writes are not modelled: `save_object`, the `params.yaml` write and the S3 upload always succeed.
  - This hides one failure: the baseline is rewritten (`model_trainer.py:85`) before the bundle is saved (`:102`) and the folder uploaded (`:123`). A failed save or upload there would end a failed run whose `params.yaml` already holds the new baseline.
  - `PromotionIsPushed`, `TrainingRunFailure`, `FailedRunKeepsBaseline` and `PushAfterPromotionSucceeds` hold only because of this.
- Column names are assumed unique within a table. With duplicate names pandas' `t[col]` returns every column of that name; `Table.Get` returns the first one, and `CapColumn` caps only that one.
- The `model_utils` value is read, so a missing key fails as in every `MainUtils` constructor (`main_utils.py:25`), but the value is not kept: it only feeds the uninterpreted grid search.
- A single run is modelled. Concurrent runs against one `params.yaml` are out of scope.
- Outside the training core, and not part of this model:
  - `main.py` (the web layer) and `tourism/components/model_predictor.py`;
  - `tourism/utils/mongo_operations.py`, `tourism/utils/read_params.py` and `get_version.py`;
  - the internals of `tourism/components/data_ingestion.py`;
  - the zip, unzip and `get_car_list` helpers of `main_utils.py`.
- CapAllCaps, BothTablesCapped: stated only for column lists that name each column once. With a duplicate name in `numerical_columns` the second `_outlier_capping` pass recomputes the quartiles from the already-capped values, and those quartiles come from the uninterpreted `quantile`, so the result is not pinned down. `CapAll` and `CapColumn` still describe such runs pass by pass.
- CapValuesIdempotent: states idempotence for fixed limits only. A second `_outlier_capping` pass recomputes the quartiles from the capped column with an uninterpreted `quantile`, so whole-pass idempotence holds only if the quartiles come out the same.
