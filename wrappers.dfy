/**
 * Option and Result, the Python exceptions the pipeline raises locally, and
 * the way a Python list comprehension propagates the first exception raised
 * by one of its elements.
 */
module Wrappers {

  datatype Option<+T> = None | Some(value: T)

  datatype Result<+T, +E> = Ok(value: T) | Err(error: E)

  /** The exceptions raised by the pipeline itself, before any service is contacted. */
  datatype PyError =
    | ValueError(message: string)
    | TypeError(message: string)
    | IndexError(message: string)
    | AttributeError(message: string)

  /**
   * `[f(x) for x in xs]` where each `f(x)` may raise: evaluated left to right,
   * the comprehension either yields every value or raises the exception of the
   * first element that fails.
   */
  function Collect<T>(rs: seq<Result<T, PyError>>): (r: Result<seq<T>, PyError>)
    ensures r.Ok? <==> forall i | 0 <= i < |rs| :: rs[i].Ok?
    ensures r.Ok? ==> |r.value| == |rs| && forall i | 0 <= i < |rs| :: rs[i] == Ok(r.value[i])
    ensures r.Err? ==> exists i | 0 <= i < |rs| :: rs[i] == Err(r.error) && forall j | 0 <= j < i :: rs[j].Ok?
  {
    if rs == [] then Ok([])
    else if rs[0].Err? then Err(rs[0].error)
    else
      match Collect(rs[1..])
      case Ok(vs) => Ok([rs[0].value] + vs)
      case Err(e) =>
        assert exists i | 0 <= i < |rs| - 1 :: rs[1..][i] == Err(e) && forall j | 0 <= j < i :: rs[1..][j].Ok?;
        var i :| 0 <= i < |rs| - 1 && rs[1..][i] == Err(e) && forall j | 0 <= j < i :: rs[1..][j].Ok?;
        assert rs[i + 1] == Err(e) && forall j | 0 <= j < i + 1 :: rs[j].Ok?;
        Err(e)
  }

  /** The first failing element determines the exception: nothing after it matters. */
  lemma {:induction false} CollectFirstError<T>(rs: seq<Result<T, PyError>>, k: nat)
    requires k < |rs| && rs[k].Err?
    requires forall j | 0 <= j < k :: rs[j].Ok?
    ensures Collect(rs) == Err(rs[k].error)
  {
    var r := Collect(rs);
    var i :| 0 <= i < |rs| && rs[i] == Err(r.error) && forall j | 0 <= j < i :: rs[j].Ok?;
    assert i == k;
  }
}
