/** Shared vocabulary of the pipeline model: results with wrapped errors,
    tables of named real-valued columns, and rectangular 2-D arrays. */
module Common {

  datatype Option<+T> = None | Some(value: T)

  /** The exceptions the pipeline raises. `Wrapped` is the project's
      exception class, which every stage puts around the cause it caught. */
  datatype Error =
    | KeyMissing(key: string)        // a dictionary or column lookup that failed
    | FileMissing(path: string)      // `open` of a file that does not exist
    | WrongType(setting: string)     // a setting whose value has the wrong type for its use
    | Unbound(variable: string)      // a local read before any assignment
    | ZeroDivision
    | NotInList(name: string)        // `list.index` of an absent value
    | EmptySequence                  // `max` of an empty list
    | Unorderable                    // `<` between two objects without an ordering
    | ShapeMismatch                  // arrays that cannot be stacked side by side
    | IndexOutOfRange
    | NoAttribute(name: string)      // a method the object does not have
    | NoQualifyingModel
    | Wrapped(cause: Error)

  datatype Result<+T> = Ok(value: T) | Err(error: Error) {
    predicate IsFailure() { Err? }
    function PropagateFailure<U>(): Result<U> requires Err? { Err(error) }
    function Extract(): T requires Ok? { value }
  }

  /** Re-raises the failure of `r` inside the project's exception class;
      a success is passed through. */
  function Wrap<T>(r: Result<T>): (w: Result<T>)
    ensures r.Ok? ==> w == r
    ensures r.Err? ==> w == Err(Wrapped(r.error))
  {
    match r
    case Ok(v) => Ok(v)
    case Err(e) => Err(Wrapped(e))
  }

  /** Index of the first occurrence of `x` in `s`, if any. */
  function IndexOf<T(==)>(s: seq<T>, x: T): (r: Option<nat>)
    ensures r.None? <==> x !in s
    ensures r.Some? ==> r.value < |s| && s[r.value] == x && x !in s[..r.value]
  {
    if |s| == 0 then None
    else if s[0] == x then Some(0)
    else match IndexOf(s[1..], x)
      case None => None
      case Some(i) => assert s[1..][..i] == s[1..i + 1]; Some(i + 1)
  }

  /** Appending in two steps is appending the concatenation. */
  lemma AppendAssoc<T>(a: seq<T>, b: seq<T>, c: seq<T>)
    ensures a + (b + c) == a + b + c
  {
  }

  /** One named column of a data frame; categorical values are encoded as reals. */
  datatype Column = Column(name: string, values: seq<real>)

  /** A data frame: its columns in order. */
  datatype Table = Table(columns: seq<Column>) {
    function Names(): (r: seq<string>)
      ensures |r| == |columns|
      ensures forall i :: 0 <= i < |columns| ==> r[i] == columns[i].name
    {
      seq(|columns|, i requires 0 <= i < |columns| => columns[i].name)
    }

    /** `df[name]`: the first column with that name, or a KeyError. */
    function Get(name: string): (r: Result<seq<real>>)
      ensures r.Err? <==> name !in Names()
      ensures r.Err? ==> r.error == KeyMissing(name)
      ensures r.Ok? ==> exists i :: 0 <= i < |columns| && columns[i] == Column(name, r.value)
    {
      match IndexOf(Names(), name)
      case None => Err(KeyMissing(name))
      case Some(i) => Ok(columns[i].values)
    }
  }

  /** A 2-D numeric array: a width and its rows. */
  datatype Array2 = Array2(width: nat, rows: seq<seq<real>>) {
    predicate Rectangular() {
      forall i :: 0 <= i < |rows| ==> |rows[i]| == width
    }
  }

  /** NumPy arrays are always rectangular. */
  type Matrix = m: Array2 | m.Rectangular() witness Array2(0, [])
}
