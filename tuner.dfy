/** `ModelFinder`: split the last column off each array as the target, then
    tune one model per configured model key, in key order. */
module Tuner {
  import opened Common
  import opened Params
  import opened Library
  import opened DataTransformation
  import opened MainUtils

  /** `(data[:, :-1], data[:, -1])`; indexing the last column of an array
      with no columns raises. */
  function SplitLast(data: Matrix): (r: Result<(Matrix, seq<real>)>)
    ensures r.Err? <==> data.width == 0
    ensures r.Err? ==> r.error == IndexOutOfRange
    ensures r.Ok? ==> r.value.0.width == data.width - 1 && |r.value.0.rows| == |r.value.1| == |data.rows|
    ensures r.Ok? ==> forall i :: 0 <= i < |data.rows| ==>
      r.value.0.rows[i] == data.rows[i][..data.width - 1] && r.value.1[i] == data.rows[i][data.width - 1]
  {
    if data.width == 0 then Err(IndexOutOfRange)
    else
      var w := data.width - 1;
      var features := Array2(w, seq(|data.rows|, i requires 0 <= i < |data.rows| => data.rows[i][..w]));
      var target := seq(|data.rows|, i requires 0 <= i < |data.rows| => data.rows[i][w]);
      Ok((features, target))
  }

  /** Splitting an array built as feature row ++ [target] gives back exactly
      the features and the targets. */
  lemma SplitAfterAppend(features: Matrix, target: seq<real>)
    requires |features.rows| == |target|
    ensures AppendTarget(features, target).Ok?
    ensures SplitLast(AppendTarget(features, target).value) == Ok((features, target))
  {
    var arr := AppendTarget(features, target).value;
    var (f, y) := SplitLast(arr).value;
    assert f.rows == features.rows;
    assert y == target;
  }

  /** Appending the split-off target again rebuilds the array. */
  lemma AppendAfterSplit(data: Matrix)
    requires data.width > 0
    ensures var (f, y) := SplitLast(data).value;
      AppendTarget(f, y) == Ok(data)
  {
    var (f, y) := SplitLast(data).value;
    var arr := AppendTarget(f, y).value;
    forall i | 0 <= i < |data.rows| ensures arr.rows[i] == data.rows[i] {
      calc {
        arr.rows[i];
        arr.rows[i][..f.width] + [arr.rows[i][f.width]];
        f.rows[i] + [y[i]];
        data.rows[i][..data.width - 1] + [data.rows[i][data.width - 1]];
        data.rows[i];
      }
    }
    assert arr.rows == data.rows;
  }

  /** The comprehension `[get_tuned_model(name, ...) for name in names]`:
      the first failure aborts it, and no partial list is returned. */
  function TuneEach(lib: Library, trainModel: seq<(string, ParamGrid)>, names: seq<string>,
                    trainX: Matrix, trainY: seq<real>, testX: Matrix, testY: seq<real>): (r: Result<seq<Candidate>>)
    ensures r.Ok? <==> forall i :: 0 <= i < |names| ==>
      TunedModel(lib, trainModel, names[i], trainX, trainY, testX, testY).Ok?
    ensures r.Ok? ==> |r.value| == |names| && forall i :: 0 <= i < |names| ==>
      r.value[i] == TunedModel(lib, trainModel, names[i], trainX, trainY, testX, testY).value
    ensures r.Err? ==> exists i :: (
      && 0 <= i < |names|
      && TunedModel(lib, trainModel, names[i], trainX, trainY, testX, testY) == Err(r.error)
      && forall j :: 0 <= j < i ==> TunedModel(lib, trainModel, names[j], trainX, trainY, testX, testY).Ok?)
  {
    if |names| == 0 then Ok([])
    else
      match TunedModel(lib, trainModel, names[0], trainX, trainY, testX, testY)
      case Err(e) => Err(e)
      case Ok(first) =>
        match TuneEach(lib, trainModel, names[1..], trainX, trainY, testX, testY)
        case Err(e) =>
          ghost var i :| 0 <= i < |names[1..]|
            && TunedModel(lib, trainModel, names[1..][i], trainX, trainY, testX, testY) == Err(e)
            && forall j :: 0 <= j < i ==> TunedModel(lib, trainModel, names[1..][j], trainX, trainY, testX, testY).Ok?;
          assert forall j :: 0 <= j < i + 1 ==> TunedModel(lib, trainModel, names[j], trainX, trainY, testX, testY).Ok? by {
            forall j | 0 < j < i + 1 ensures TunedModel(lib, trainModel, names[j], trainX, trainY, testX, testY).Ok? {
              assert names[j] == names[1..][j - 1];
            }
          }
          Err(e)
        case Ok(rest) =>
          assert forall i :: 0 < i < |names| ==> names[i] == names[1..][i - 1];
          Ok([first] + rest)
  }

  /** `get_trained_models(X_data, Y_data)`: one candidate per key of
      `train_model`, in key order, each tuned on the same four arrays. */
  function GetTrainedModels(lib: Library, trainModel: seq<(string, ParamGrid)>, trainArr: Matrix, testArr: Matrix)
    : (r: Result<seq<Candidate>>)
    ensures trainArr.width == 0 || testArr.width == 0 ==> r == Err(Wrapped(IndexOutOfRange))
    ensures r.Ok? ==> trainArr.width > 0 && testArr.width > 0
    ensures r.Ok? ==> (
      var (trainX, trainY) := SplitLast(trainArr).value;
      var (testX, testY) := SplitLast(testArr).value;
      && |r.value| == |trainModel|
      && forall i :: 0 <= i < |trainModel| ==>
        TunedModel(lib, trainModel, trainModel[i].0, trainX, trainY, testX, testY) == Ok(r.value[i]))
  {
    match (SplitLast(trainArr), SplitLast(testArr))
    case (Ok((trainX, trainY)), Ok((testX, testY))) =>
      Wrap(TuneEach(lib, trainModel, Keys(trainModel), trainX, trainY, testX, testY))
    case _ => Err(Wrapped(IndexOutOfRange))
  }

  /** The pass succeeds exactly when every key tunes, and a failure is the
      first failing key's error, wrapped by the pass's own handler. */
  lemma GetTrainedModelsSucceeds(lib: Library, trainModel: seq<(string, ParamGrid)>, trainArr: Matrix, testArr: Matrix)
    ensures var r := GetTrainedModels(lib, trainModel, trainArr, testArr);
      trainArr.width > 0 && testArr.width > 0 ==> (
        var (trainX, trainY) := SplitLast(trainArr).value;
        var (testX, testY) := SplitLast(testArr).value;
        && (r.Ok? <==> forall i :: 0 <= i < |trainModel| ==>
              TunedModel(lib, trainModel, trainModel[i].0, trainX, trainY, testX, testY).Ok?)
        && (r.Err? ==> r.error.Wrapped? && exists i :: (
              && 0 <= i < |trainModel|
              && TunedModel(lib, trainModel, trainModel[i].0, trainX, trainY, testX, testY) == Err(r.error.cause)
              && forall j :: 0 <= j < i ==> TunedModel(lib, trainModel, trainModel[j].0, trainX, trainY, testX, testY).Ok?)))
  {
  }

  /** One failing model aborts the whole pass. */
  lemma OneFailureAbortsAll(lib: Library, trainModel: seq<(string, ParamGrid)>, trainArr: Matrix, testArr: Matrix, k: nat)
    requires trainArr.width > 0 && testArr.width > 0 && k < |trainModel|
    requires var (trainX, trainY) := SplitLast(trainArr).value;
      var (testX, testY) := SplitLast(testArr).value;
      TunedModel(lib, trainModel, trainModel[k].0, trainX, trainY, testX, testY).Err?
    ensures GetTrainedModels(lib, trainModel, trainArr, testArr).Err?
  {
    GetTrainedModelsSucceeds(lib, trainModel, trainArr, testArr);
  }
}
