/** Failure-carrying values. An external call that raises an exception is modelled
    as a `Failure` carrying the exception's message. */
module Wrappers {

  datatype Option<+T> = None | Some(value: T)

  datatype Result<+T, +E> = Success(value: T) | Failure(error: E)

  /** The position of the first failed outcome in `os`, or `|os|` when none failed. */
  function FirstFailure<T, E>(os: seq<Result<T, E>>): (k: nat)
    ensures k <= |os|
    ensures forall j :: 0 <= j < k ==> os[j].Success?
    ensures k < |os| ==> os[k].Failure?
  {
    if os == [] then 0
    else if os[0].Failure? then 0
    else 1 + FirstFailure(os[1..])
  }
}
