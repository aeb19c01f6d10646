/** Failure-carrying values: the Java exceptions that the core can raise
    (and that its callers catch or let escape) become explicit results. */
module Wrappers {

  datatype Option<+T> = None | Some(value: T)

  /** The runtime exceptions the parsers can raise. */
  datatype Exception =
    | NumberFormat(input: string)       // Integer.parseInt / Float.parseFloat rejected `input`
    | IndexOutOfBounds(index: int)      // an array was indexed at `index`
    | IllegalArgument(name: string)     // AlleleProperty.valueOf(name) found no constant
    | NullPointer                       // a missing map entry was dereferenced

  datatype Result<+T> = Ok(value: T) | Err(error: Exception) {

    predicate IsFailure() {
      Err?
    }

    function PropagateFailure<U>(): Result<U>
      requires Err?
    {
      Err(error)
    }

    function Extract(): T
      requires Ok?
    {
      value
    }
  }

  /** The values of a sequence of results, or the error of the first one
      that failed: what a loop over the results yields when each failure
      is an exception that leaves the loop. */
  function AllOk<T>(rs: seq<Result<T>>): (r: Result<seq<T>>)
    ensures r.Ok? <==> forall i :: 0 <= i < |rs| ==> rs[i].Ok?
    ensures r.Ok? ==> |r.value| == |rs| && forall i :: 0 <= i < |rs| ==> rs[i] == Ok(r.value[i])
  {
    if rs == [] then Ok([])
    else if rs[0].Err? then Err(rs[0].error)
    else
      match AllOk(rs[1..])
      case Err(e) => Err(e)
      case Ok(vs) => Ok([rs[0].value] + vs)
  }

  /** A run of successes followed by a failure fails with that failure. */
  lemma {:induction false} AllOkFirstError<T>(rs: seq<Result<T>>, k: nat)
    requires k < |rs| && rs[k].Err?
    requires forall i :: 0 <= i < k ==> rs[i].Ok?
    ensures AllOk(rs) == Err(rs[k].error)
  {
    if k > 0 {
      assert rs[1..][k - 1] == rs[k];
      AllOkFirstError(rs[1..], k - 1);
    }
  }

  /** The first |vs| outcomes are the successes vs. */
  ghost predicate OkPrefix<T>(rs: seq<Result<T>>, vs: seq<T>) {
    |vs| <= |rs| && forall j :: 0 <= j < |vs| ==> rs[j] == Ok(vs[j])
  }

  /** One more success extends the prefix. */
  lemma OkPrefixStep<T>(rs: seq<Result<T>>, vs: seq<T>, v: T)
    requires OkPrefix(rs, vs) && |vs| < |rs| && rs[|vs|] == Ok(v)
    ensures OkPrefix(rs, vs + [v])
  {
  }

  /** A failure right after the successful prefix is the overall failure. */
  lemma OkPrefixBreaks<T>(rs: seq<Result<T>>, vs: seq<T>)
    requires OkPrefix(rs, vs) && |vs| < |rs| && rs[|vs|].Err?
    ensures AllOk(rs) == Err(rs[|vs|].error)
  {
    AllOkFirstError(rs, |vs|);
  }

  /** Successes all along collect their values. */
  lemma OkPrefixAll<T>(rs: seq<Result<T>>, vs: seq<T>)
    requires OkPrefix(rs, vs) && |vs| == |rs|
    ensures AllOk(rs) == Ok(vs)
  {
    assert AllOk(rs).Ok?;
    assert AllOk(rs).value == vs;
  }
}
