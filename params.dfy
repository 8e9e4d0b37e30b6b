/** The two configuration documents: `params.yaml`, an ordered mapping that
    the trainer rewrites, and `schema.yaml`, read-only column lists. */
module Params {
  import opened Common

  /** A hyper-parameter grid: parameter name to candidate values (opaque text). */
  type ParamGrid = map<string, seq<string>>

  /** The values `params.yaml` holds at its top level. */
  datatype Setting =
    | Number(x: real)
    | Text(s: string)
    | Grids(models: seq<(string, ParamGrid)>)   // `train_model`: model key to grid, in file order
    | Strings(entries: seq<(string, string)>)   // a nested mapping of text values

  /** A YAML mapping as loaded: keys in file order. */
  type Doc<V> = seq<(string, V)>

  function Keys<V>(d: Doc<V>): (r: seq<string>)
    ensures |r| == |d|
    ensures forall i :: 0 <= i < |d| ==> r[i] == d[i].0
  {
    seq(|d|, i requires 0 <= i < |d| => d[i].0)
  }

  /** `d[k]`: the value of the first entry with key `k`. */
  function Lookup<V>(d: Doc<V>, k: string): (r: Result<V>)
    ensures r.Err? <==> k !in Keys(d)
    ensures r.Err? ==> r.error == KeyMissing(k)
    ensures r.Ok? ==> exists i :: 0 <= i < |d| && d[i] == (k, r.value)
  {
    if |d| == 0 then Err(KeyMissing(k))
    else if d[0].0 == k then Ok(d[0].1)
    else
      assert Keys(d) == [d[0].0] + Keys(d[1..]);
      Lookup(d[1..], k)
  }

  /** `d[k]` reads the first entry with key `k`, whatever entries follow it. */
  lemma {:induction false} LookupFirst<V>(d: Doc<V>, k: string, i: nat)
    requires i < |d| && d[i].0 == k
    requires forall m :: 0 <= m < i ==> d[m].0 != k
    ensures Lookup(d, k) == Ok(d[i].1)
    decreases i
  {
    if i > 0 {
      assert d[0].0 != k;
      assert forall m :: 0 <= m < i - 1 ==> d[1..][m] == d[m + 1];
      LookupFirst(d[1..], k, i - 1);
    }
  }

  /** `d[k] = v`: an existing key keeps its place, a new key goes last. */
  function Set<V>(d: Doc<V>, k: string, v: V): (r: Doc<V>)
    ensures |r| == if k in Keys(d) then |d| else |d| + 1
    ensures k in Keys(r)
  {
    assert |d| > 0 ==> (k in Keys(d) <==> d[0].0 == k || k in Keys(d[1..]));
    var r := if |d| == 0 then [(k, v)]
      else if d[0].0 == k then [(k, v)] + d[1..]
      else [d[0]] + Set(d[1..], k, v);
    assert k in Keys(r) by {
      if |d| == 0 || d[0].0 == k {
        assert Keys(r)[0] == k;
      } else {
        var i :| 0 <= i < |Set(d[1..], k, v)| && Keys(Set(d[1..], k, v))[i] == k;
        assert Keys(r)[i + 1] == k;
      }
    }
    r
  }

  /** A mapping loaded from YAML never repeats a key. */
  predicate UniqueKeys<V>(d: Doc<V>) {
    forall i, j :: 0 <= i < j < |d| ==> d[i].0 != d[j].0
  }

  /** Setting a key keeps the key order, adding the key at the end only when it was absent. */
  lemma {:induction false} SetKeys<V>(d: Doc<V>, k: string, v: V)
    ensures k in Keys(d) ==> Keys(Set(d, k, v)) == Keys(d)
    ensures k !in Keys(d) ==> Keys(Set(d, k, v)) == Keys(d) + [k]
  {
    var s := Set(d, k, v);
    if |d| == 0 {
      assert Keys(s) == [k];
    } else {
      KeysCons(d);
      KeysCons(s);
      if d[0].0 == k {
        assert s[1..] == d[1..];
      } else {
        assert s[0] == d[0] && s[1..] == Set(d[1..], k, v);
        SetKeys(d[1..], k, v);
        AppendAssoc([d[0].0], Keys(d[1..]), [k]);
      }
    }
  }

  /** The keys of a non-empty mapping: its first key, then the rest's. */
  lemma KeysCons<V>(d: Doc<V>)
    requires |d| > 0
    ensures Keys(d) == [d[0].0] + Keys(d[1..])
  {
  }

  /** After `d[k] = v`, `k` reads `v` and every other key reads what it read before. */
  lemma {:induction false} SetLookup<V>(d: Doc<V>, k: string, v: V, k': string)
    ensures Lookup(Set(d, k, v), k) == Ok(v)
    ensures k' != k ==> Lookup(Set(d, k, v), k') == Lookup(d, k')
  {
    if |d| > 0 && d[0].0 != k {
      SetLookup(d[1..], k, v, k');
      assert Set(d, k, v)[1..] == Set(d[1..], k, v);
    }
  }

  /** Setting a key of a mapping with unique keys leaves its keys unique. */
  lemma {:induction false} SetUnique<V>(d: Doc<V>, k: string, v: V)
    requires UniqueKeys(d)
    ensures UniqueKeys(Set(d, k, v))
  {
    if |d| > 0 {
      assert UniqueKeys(d[1..]) by {
        forall i, j | 0 <= i < j < |d[1..]| ensures d[1..][i].0 != d[1..][j].0 {
          assert d[1..][i] == d[i + 1] && d[1..][j] == d[j + 1];
        }
      }
      if d[0].0 != k {
        SetUnique(d[1..], k, v);
        SetKeys(d[1..], k, v);
        var s := Set(d, k, v);
        assert s == [d[0]] + Set(d[1..], k, v);
        forall j | 0 < j < |s| ensures s[0].0 != s[j].0 {
          assert s[j].0 == Keys(Set(d[1..], k, v))[j - 1];
          if j - 1 < |d[1..]| {
            assert Keys(d[1..])[j - 1] == d[j].0;
          }
        }
      } else {
        var s := Set(d, k, v);
        forall i, j | 0 <= i < j < |s| ensures s[i].0 != s[j].0 {
          assert s[j] == d[j];
          if i > 0 { assert s[i] == d[i]; }
        }
      }
    }
  }

  /** `schema.yaml`. Only `columns` is read inside a handler that turns a
      failure into `False`, so only its absence is modelled. */
  datatype Schema = Schema(
    columns: Option<seq<string>>,
    numericalColumns: seq<string>,
    categoricalColumns: seq<string>,
    onehotColumns: seq<string>,
    binaryColumns: seq<string>,
    targetColumn: string,
    dropColumns: seq<string>)

  /** What the stage classes read from `params.yaml` when they are constructed. */
  datatype Settings = Settings(
    artifactsDir: string,
    preprocessorFile: string,
    inputFilesBucket: string,
    trainModel: seq<(string, ParamGrid)>,
    baseModelScore: real)

  const BaseModelScoreKey := "base_model_score"

  /** The keys, top-level or nested, that a component reads at construction. */
  const SettingKeys: set<string> := {"model_utils", "artifacts_dir", "preprocessor_obj_file_name", "s3_bucket",
                                    "tourism_input_files_bucket", "train_model", BaseModelScoreKey}

  function GetText(d: Doc<Setting>, k: string): (r: Result<string>)
    ensures r.Ok? <==> Lookup(d, k).Ok? && Lookup(d, k).value.Text?
    ensures r.Ok? ==> r.value == Lookup(d, k).value.s
    ensures r.Err? ==> r.error == if Lookup(d, k).Err? then KeyMissing(k) else WrongType(k)
  {
    var v :- Lookup(d, k);
    if v.Text? then Ok(v.s) else Err(WrongType(k))
  }

  /** `config["s3_bucket"]["tourism_input_files_bucket"]`. Subscripting a
      number or a string raises `TypeError`; a grid mapping is subscripted,
      and a found value is a grid rather than a bucket name. */
  function InputFilesBucket(d: Doc<Setting>): (r: Result<string>)
    ensures r.Ok? <==> (
      && Lookup(d, "s3_bucket").Ok? && Lookup(d, "s3_bucket").value.Strings?
      && Lookup(Lookup(d, "s3_bucket").value.entries, "tourism_input_files_bucket").Ok?)
    ensures r.Ok? ==> Lookup(Lookup(d, "s3_bucket").value.entries, "tourism_input_files_bucket") == r
    ensures Lookup(d, "s3_bucket").Err? ==> r == Err(KeyMissing("s3_bucket"))
    ensures Lookup(d, "s3_bucket").Ok? && (Lookup(d, "s3_bucket").value.Number? || Lookup(d, "s3_bucket").value.Text?)
      ==> r == Err(WrongType("s3_bucket"))
    ensures Lookup(d, "s3_bucket").Ok? && Lookup(d, "s3_bucket").value.Grids? ==>
      r == Err(if "tourism_input_files_bucket" in Keys(Lookup(d, "s3_bucket").value.models)
               then WrongType("tourism_input_files_bucket") else KeyMissing("tourism_input_files_bucket"))
  {
    var s3 :- Lookup(d, "s3_bucket");
    match s3
    case Strings(entries) => Lookup(entries, "tourism_input_files_bucket")
    case Grids(models) =>
      if "tourism_input_files_bucket" in Keys(models) then Err(WrongType("tourism_input_files_bucket"))
      else Err(KeyMissing("tourism_input_files_bucket"))
    case _ => Err(WrongType("s3_bucket"))
  }

  /** Reads the settings, failing with the first missing or ill-typed key.
      `model_utils` is read first, as every `MainUtils` constructor does,
      though its value (the grid-search arguments) is not kept. */
  function ReadSettings(d: Doc<Setting>): Result<Settings>
  {
    Assemble(Lookup(d, "model_utils"), GetText(d, "artifacts_dir"), GetText(d, "preprocessor_obj_file_name"),
             InputFilesBucket(d), Lookup(d, "train_model"), Lookup(d, BaseModelScoreKey))
  }

  /** Each setting read is the value stored under its key: the baseline
      score, the grid, the artifacts folder, the preprocessor file name and
      `s3_bucket.tourism_input_files_bucket`. */
  lemma ReadSettingsReads(d: Doc<Setting>)
    requires ReadSettings(d).Ok?
    ensures var s := ReadSettings(d).value;
      && Lookup(d, BaseModelScoreKey) == Ok(Number(s.baseModelScore))
      && Lookup(d, "train_model") == Ok(Grids(s.trainModel))
      && Lookup(d, "artifacts_dir") == Ok(Text(s.artifactsDir))
      && Lookup(d, "preprocessor_obj_file_name") == Ok(Text(s.preprocessorFile))
      && InputFilesBucket(d) == Ok(s.inputFilesBucket)
  {
  }

  /** The settings read exactly when every key is present with the expected
      kind of value; any failure is a missing key (`KeyError`) or a key whose
      value has the wrong type (`TypeError` or `AttributeError` in the code). */
  lemma ReadSettingsSucceeds(d: Doc<Setting>)
    ensures ReadSettings(d).Ok? <==> (
      && Lookup(d, "model_utils").Ok?
      && GetText(d, "artifacts_dir").Ok? && GetText(d, "preprocessor_obj_file_name").Ok?
      && InputFilesBucket(d).Ok?
      && Lookup(d, "train_model").Ok? && Lookup(d, "train_model").value.Grids?
      && Lookup(d, BaseModelScoreKey).Ok? && Lookup(d, BaseModelScoreKey).value.Number?)
    ensures ReadSettings(d).Err? ==> (
      || (ReadSettings(d).error.KeyMissing? && ReadSettings(d).error.key in SettingKeys)
      || (ReadSettings(d).error.WrongType? && ReadSettings(d).error.setting in SettingKeys))
  {
  }

  function Assemble(kwargs: Result<Setting>, dir: Result<string>, pre: Result<string>, bucket: Result<string>,
                    grids: Result<Setting>, score: Result<Setting>): (r: Result<Settings>)
    ensures r.Ok? <==> (
      && kwargs.Ok? && dir.Ok? && pre.Ok? && bucket.Ok?
      && grids.Ok? && grids.value.Grids? && score.Ok? && score.value.Number?)
    ensures r.Err? ==> (
      || (kwargs.Err? && r.error == kwargs.error) || (dir.Err? && r.error == dir.error)
      || (pre.Err? && r.error == pre.error) || (bucket.Err? && r.error == bucket.error)
      || (grids.Err? && r.error == grids.error) || (score.Err? && r.error == score.error)
      || r.error == WrongType(BaseModelScoreKey) || r.error == WrongType("train_model"))
    ensures r.Ok? ==> dir == Ok(r.value.artifactsDir) && pre == Ok(r.value.preprocessorFile)
    ensures r.Ok? ==> bucket == Ok(r.value.inputFilesBucket)
    ensures r.Ok? ==> grids == Ok(Grids(r.value.trainModel)) && score == Ok(Number(r.value.baseModelScore))
  {
    var _ :- kwargs;
    var dir :- dir;
    var pre :- pre;
    var bucket :- bucket;
    var grids :- grids;
    var score :- score;
    if grids.Grids? && score.Number? then
      Ok(Settings(dir, pre, bucket, grids.models, score.x))
    else Err(WrongType(if grids.Grids? then BaseModelScoreKey else "train_model"))
  }

  /** Rewriting the baseline score keeps every setting readable and changes
      only the baseline the stages will read next. */
  lemma ReadSettingsAfterScoreUpdate(d: Doc<Setting>, score: real)
    requires ReadSettings(d).Ok?
    ensures ReadSettings(Set(d, BaseModelScoreKey, Number(score)))
         == Ok(ReadSettings(d).value.(baseModelScore := score))
  {
    var d' := Set(d, BaseModelScoreKey, Number(score));
    SetLookup(d, BaseModelScoreKey, Number(score), "artifacts_dir");
    SetLookup(d, BaseModelScoreKey, Number(score), "preprocessor_obj_file_name");
    SetLookup(d, BaseModelScoreKey, Number(score), "s3_bucket");
    SetLookup(d, BaseModelScoreKey, Number(score), "train_model");
    SetLookup(d, BaseModelScoreKey, Number(score), "model_utils");
    assert GetText(d', "artifacts_dir") == GetText(d, "artifacts_dir");
    assert GetText(d', "preprocessor_obj_file_name") == GetText(d, "preprocessor_obj_file_name");
    assert InputFilesBucket(d') == InputFilesBucket(d);
    AssembleWithScore(Lookup(d, "model_utils"), GetText(d, "artifacts_dir"), GetText(d, "preprocessor_obj_file_name"),
                      InputFilesBucket(d), Lookup(d, "train_model"), Lookup(d, BaseModelScoreKey), score);
  }

  /** Settings assembled with another readable baseline differ only in the baseline. */
  lemma AssembleWithScore(kwargs: Result<Setting>, dir: Result<string>, pre: Result<string>, bucket: Result<string>,
                          grids: Result<Setting>, previous: Result<Setting>, score: real)
    requires Assemble(kwargs, dir, pre, bucket, grids, previous).Ok?
    ensures Assemble(kwargs, dir, pre, bucket, grids, Ok(Number(score)))
         == Ok(Assemble(kwargs, dir, pre, bucket, grids, previous).value.(baseModelScore := score))
  {
  }
}
