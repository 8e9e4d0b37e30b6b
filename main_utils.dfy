/** `MainUtils`: estimator resolution by name, grid search over the
    configured grid, tuning one model, picking the best candidate with
    Python's `max`, and rewriting the baseline score in `params.yaml`. */
module MainUtils {
  import opened Common
  import opened Params
  import opened Library
  import opened Storage

  /** `str.lower` on ASCII letters. */
  function Lower(s: string): (r: string)
    ensures |r| == |s|
    ensures forall i :: 0 <= i < |s| ==> r[i] == (if 'A' <= s[i] <= 'Z' then (s[i] as int + 32) as char else s[i])
  {
    seq(|s|, i requires 0 <= i < |s| => if 'A' <= s[i] <= 'Z' then (s[i] as int + 32) as char else s[i])
  }

  /** `model_name.lower().startswith("xgb")` */
  predicate IsXgbName(name: string) {
    var l := Lower(name);
    |l| >= 3 && l[..3] == "xgb"
  }

  /** A new, unfitted instance of a class. */
  function Instantiate(lib: Library, className: string): Estimator {
    Estimator(className, lib.defaultParams(className), None)
  }

  /** `get_base_model(model_name)`: names starting with "xgb" (in any case) are
      attributes of the xgboost module; every other name is looked up by
      position in the estimator registry, and an absent name raises. */
  function GetBaseModel(lib: Library, name: string): (r: Result<Estimator>)
    ensures IsXgbName(name) ==> (r.Ok? <==> name in lib.xgboost)
    ensures IsXgbName(name) && r.Ok? ==> r.value == Instantiate(lib, lib.xgboost[name])
    ensures IsXgbName(name) && r.Err? ==> r.error == Wrapped(KeyMissing(name))
    ensures !IsXgbName(name) ==> (r.Ok? <==> name in Keys(lib.allEstimators))
    ensures !IsXgbName(name) && r.Ok? ==> exists i :: (
      && 0 <= i < |lib.allEstimators|
      && lib.allEstimators[i].0 == name && name !in Keys(lib.allEstimators)[..i]
      && r.value == Instantiate(lib, lib.allEstimators[i].1))
    ensures !IsXgbName(name) && r.Err? ==> r.error == Wrapped(NotInList(name))
  {
    if IsXgbName(name) then
      if name in lib.xgboost then Ok(Instantiate(lib, lib.xgboost[name]))
      else Err(Wrapped(KeyMissing(name)))
    else
      // `[model[0] for model in all_estimators()].index(model_name)`
      match IndexOf(Keys(lib.allEstimators), name)
      case None => Err(Wrapped(NotInList(name)))
      case Some(i) => Ok(Instantiate(lib, lib.allEstimators[i].1))
  }

  /** `get_model_params(model, x, y)`: the grid is the one configured under the
      model's CLASS name, not under the name the model was requested by. */
  function GetModelParams(lib: Library, trainModel: seq<(string, ParamGrid)>, model: Estimator,
                          x: Matrix, y: seq<real>): (r: Result<EstimatorParams>)
    ensures r.Ok? <==> model.className in Keys(trainModel)
    ensures r.Err? ==> r.error == Wrapped(KeyMissing(model.className))
    ensures r.Ok? ==> exists i :: (
      && 0 <= i < |trainModel| && trainModel[i].0 == model.className
      && r.value == lib.gridSearch(model, trainModel[i].1, x, y))
  {
    match Lookup(trainModel, model.className)
    case Err(e) => Err(Wrapped(e))
    case Ok(grid) => Ok(lib.gridSearch(model, grid, x, y))
  }

  /** `get_tuned_model` as a value: resolve, search on train, set the best
      parameters, fit on train, predict on test, score. */
  function TunedModel(lib: Library, trainModel: seq<(string, ParamGrid)>, name: string,
                      trainX: Matrix, trainY: seq<real>, testX: Matrix, testY: seq<real>): Result<Candidate>
  {
    match GetBaseModel(lib, name)
    case Err(e) => Err(Wrapped(e))
    case Ok(base) =>
      match GetModelParams(lib, trainModel, base, trainX, trainY)
      case Err(e) => Err(Wrapped(e))
      case Ok(best) =>
        var configured := base.(params := base.params + best);
        var fitted := configured.(fitState := Some(lib.fit(configured, trainX, trainY)));
        var preds := lib.predict(fitted, testX);
        Ok(Candidate(lib.r2(testY, preds), fitted, fitted.className))
  }

  /** A tuned candidate is the resolved class, carrying the searched
      parameters, fitted on the training split and scored by R² of its
      predictions on the test split. Since the library calls are total here,
      it fails exactly when resolution or the grid lookup fails. */
  lemma TunedModelSteps(lib: Library, trainModel: seq<(string, ParamGrid)>, name: string,
                        trainX: Matrix, trainY: seq<real>, testX: Matrix, testY: seq<real>)
    ensures var r := TunedModel(lib, trainModel, name, trainX, trainY, testX, testY);
      r.Ok? <==> GetBaseModel(lib, name).Ok? && GetModelParams(lib, trainModel, GetBaseModel(lib, name).value, trainX, trainY).Ok?
    ensures var r := TunedModel(lib, trainModel, name, trainX, trainY, testX, testY);
      r.Ok? ==>
        var base := GetBaseModel(lib, name).value;
        var best := GetModelParams(lib, trainModel, base, trainX, trainY).value;
        && r.value.name == r.value.model.className == base.className
        && r.value.model.params == base.params + best
        && r.value.model.fitState == Some(lib.fit(r.value.model.(fitState := None), trainX, trainY))
        && r.value.score == lib.r2(testY, lib.predict(r.value.model, testX))
  {
  }

  /** The object `get_tuned_model` updates step by step. */
  class Utils {
    var model: Option<Estimator>
    var modelBestParams: Option<EstimatorParams>
    var preds: Option<seq<real>>
    var modelScore: Option<real>

    constructor ()
      ensures model == None && modelBestParams == None && preds == None && modelScore == None
    {
      model, modelBestParams, preds, modelScore := None, None, None, None;
    }

    method GetTunedModel(lib: Library, trainModel: seq<(string, ParamGrid)>, name: string,
                         trainX: Matrix, trainY: seq<real>, testX: Matrix, testY: seq<real>)
      returns (r: Result<Candidate>)
      modifies this
      ensures r == TunedModel(lib, trainModel, name, trainX, trainY, testX, testY)
      ensures r.Ok? ==>
        && model == Some(r.value.model) && modelScore == Some(r.value.score)
        && preds == Some(lib.predict(r.value.model, testX))
        && modelBestParams == Some(GetModelParams(lib, trainModel, GetBaseModel(lib, name).value, trainX, trainY).value)
    {
      var base := GetBaseModel(lib, name);
      if base.Err? {
        return Err(Wrapped(base.error));
      }
      model := Some(base.value);
      var best := GetModelParams(lib, trainModel, model.value, trainX, trainY);
      if best.Err? {
        return Err(Wrapped(best.error));
      }
      modelBestParams := Some(best.value);
      // set_params(**best), then fit: both change the model object itself
      model := Some(model.value.(params := model.value.params + best.value));
      model := Some(model.value.(fitState := Some(lib.fit(model.value, trainX, trainY))));
      preds := Some(lib.predict(model.value, testX));
      modelScore := Some(lib.r2(testY, preds.value));
      r := Ok(Candidate(modelScore.value, model.value, model.value.className));
    }
  }

  /** The largest score among `s`. */
  function MaxScore(s: seq<Candidate>): (m: real)
    requires |s| > 0
    ensures forall i :: 0 <= i < |s| ==> s[i].score <= m
    ensures exists i :: 0 <= i < |s| && s[i].score == m
  {
    if |s| == 1 then s[0].score
    else
      var m := MaxScore(s[..|s| - 1]);
      assert forall i :: 0 <= i < |s| - 1 ==> s[..|s| - 1][i] == s[i];
      if s[|s| - 1].score > m then s[|s| - 1].score else m
  }

  /** Python's `max` over (score, model, name) tuples, scanning from index `k`
      with the current maximum at index `b`. Tuples compare by score first; on
      equal scores they compare the two model objects, which define no order,
      so `max` raises. */
  function MaxIndexFrom(lst: seq<Candidate>, b: nat, k: nat): (r: Result<nat>)
    requires b < k <= |lst|
    ensures r.Ok? ==> r.value < |lst|
    ensures r.Err? ==> r.error == Unorderable
    decreases |lst| - k
  {
    if k == |lst| then Ok(b)
    else if lst[k].score == lst[b].score then Err(Unorderable)
    else MaxIndexFrom(lst, if lst[k].score > lst[b].score then k else b, k + 1)
  }

  /** `max(lst)`, as the position of the tuple it returns: an empty list
      raises, and so does a comparison of two models. */
  function PyMaxIndex(lst: seq<Candidate>): (r: Result<nat>)
    ensures r.Ok? ==> r.value < |lst|
    ensures r == Err(EmptySequence) <==> |lst| == 0
    ensures r.Err? && |lst| > 0 ==> r.error == Unorderable
  {
    if |lst| == 0 then Err(EmptySequence) else MaxIndexFrom(lst, 0, 1)
  }

  /** Before position `k`, the candidate at `b` has a strictly larger score than every other. */
  predicate StrictLeader(lst: seq<Candidate>, b: nat, k: nat)
    requires b < k <= |lst|
  {
    forall i :: 0 <= i < k && i != b ==> lst[i].score < lst[b].score
  }

  /** No candidate ties the best score of the candidates before it. */
  predicate NoRunningTie(lst: seq<Candidate>) {
    forall k :: 1 <= k < |lst| ==> lst[k].score != MaxScore(lst[..k])
  }

  lemma LeaderIsMax(lst: seq<Candidate>, b: nat, k: nat)
    requires b < k <= |lst| && StrictLeader(lst, b, k)
    ensures MaxScore(lst[..k]) == lst[b].score
  {
    var m := MaxScore(lst[..k]);
    assert lst[..k][b] == lst[b];
    var i :| 0 <= i < k && lst[..k][i].score == m;
    assert lst[..k][i] == lst[i];
  }

  lemma {:induction false} MaxIndexFromCorrect(lst: seq<Candidate>, b: nat, k: nat)
    requires b < k <= |lst| && StrictLeader(lst, b, k)
    ensures MaxIndexFrom(lst, b, k).Ok? <==>
      forall j :: k <= j < |lst| ==> lst[j].score != MaxScore(lst[..j])
    ensures MaxIndexFrom(lst, b, k).Ok? ==>
      var m := MaxIndexFrom(lst, b, k).value;
      m < |lst| && forall i :: 0 <= i < |lst| && i != m ==> lst[i].score < lst[m].score
    decreases |lst| - k
  {
    if k < |lst| {
      LeaderIsMax(lst, b, k);
      if lst[k].score != lst[b].score {
        var b' := if lst[k].score > lst[b].score then k else b;
        assert StrictLeader(lst, b', k + 1);
        MaxIndexFromCorrect(lst, b', k + 1);
      }
    }
  }

  /** `max` succeeds exactly on a non-empty list in which no candidate ties the
      best score before it; what it returns then is the one candidate whose
      score is strictly greater than every other candidate's. */
  lemma PyMaxIndexCorrect(lst: seq<Candidate>)
    ensures PyMaxIndex(lst).Ok? <==> |lst| > 0 && NoRunningTie(lst)
    ensures |lst| == 0 ==> PyMaxIndex(lst) == Err(EmptySequence)
    ensures PyMaxIndex(lst).Ok? ==>
      var m := PyMaxIndex(lst).value;
      m < |lst| && forall i :: 0 <= i < |lst| && i != m ==> lst[i].score < lst[m].score
  {
    if |lst| > 0 {
      MaxIndexFromCorrect(lst, 0, 1);
    }
  }

  /** With pairwise distinct scores, `max` cannot reach a model comparison. */
  lemma DistinctScoresSelect(lst: seq<Candidate>)
    requires |lst| > 0
    requires forall i, j :: 0 <= i < j < |lst| ==> lst[i].score != lst[j].score
    ensures PyMaxIndex(lst).Ok?
  {
    forall k | 1 <= k < |lst| ensures lst[k].score != MaxScore(lst[..k]) {
      var i :| 0 <= i < k && lst[..k][i].score == MaxScore(lst[..k]);
      assert lst[..k][i] == lst[i];
    }
    PyMaxIndexCorrect(lst);
  }

  /** `get_best_model_with_name_and_score(lst)`: the model and the score of `max(lst)`. */
  function GetBestModelWithNameAndScore(lst: seq<Candidate>): (r: Result<(Estimator, real)>)
    ensures |lst| == 0 ==> r == Err(Wrapped(EmptySequence))
    ensures r.Ok? <==> |lst| > 0 && NoRunningTie(lst)
    ensures r.Err? && |lst| > 0 ==> r == Err(Wrapped(Unorderable))
    ensures r.Ok? ==> exists m :: (
      && 0 <= m < |lst| && r.value == (lst[m].model, lst[m].score)
      && forall i :: 0 <= i < |lst| && i != m ==> lst[i].score < r.value.1)
  {
    PyMaxIndexCorrect(lst);
    match PyMaxIndex(lst)
    case Err(e) =>
      assert |lst| > 0 ==> MaxIndexFrom(lst, 0, 1).Err? && e == Unorderable by {
        if |lst| > 0 { MaxIndexFromErr(lst, 0, 1); }
      }
      Err(Wrapped(e))
    case Ok(m) => Ok((lst[m].model, lst[m].score))
  }

  lemma {:induction false} MaxIndexFromErr(lst: seq<Candidate>, b: nat, k: nat)
    requires b < k <= |lst|
    ensures MaxIndexFrom(lst, b, k).Err? ==> MaxIndexFrom(lst, b, k).error == Unorderable
    decreases |lst| - k
  {
    if k < |lst| && lst[k].score != lst[b].score {
      MaxIndexFromErr(lst, if lst[k].score > lst[b].score then k else b, k + 1);
    }
  }

  /** Three candidates with distinct scores: the one scored 0.93 is chosen. */
  lemma SelectsHighestScore(m1: Estimator, m2: Estimator, m3: Estimator)
    ensures GetBestModelWithNameAndScore(
      [Candidate(0.81, m1, "A"), Candidate(0.93, m2, "B"), Candidate(0.77, m3, "C")]) == Ok((m2, 0.93))
  {
    var lst := [Candidate(0.81, m1, "A"), Candidate(0.93, m2, "B"), Candidate(0.77, m3, "C")];
    assert MaxIndexFrom(lst, 0, 1) == MaxIndexFrom(lst, 1, 2) == MaxIndexFrom(lst, 1, 3) == Ok(1);
  }

  /** Two candidates with the same score: `max` compares the model objects and raises. */
  lemma TieRaises(m1: Estimator, m2: Estimator)
    ensures GetBestModelWithNameAndScore([Candidate(0.9, m1, "A"), Candidate(0.9, m2, "B")])
         == Err(Wrapped(Unorderable))
  {
    var lst := [Candidate(0.9, m1, "A"), Candidate(0.9, m2, "B")];
    assert MaxIndexFrom(lst, 0, 1) == Err(Unorderable);
  }

  /** `update_model_score(best_model_score)`: re-reads `params.yaml`, sets
      `base_model_score`, and writes the whole document back in key order. */
  method UpdateModelScore(store: Store, bestModelScore: real)
    modifies store
    ensures store.params == Set(old(store.params), BaseModelScoreKey, Number(bestModelScore))
    ensures store.files == old(store.files) && store.uploads == old(store.uploads)
    ensures store.log == old(store.log) + [ParamsWritten(store.params)]
  {
    var config := store.params;
    config := Set(config, BaseModelScoreKey, Number(bestModelScore));
    store.WriteParams(config);
  }
}
