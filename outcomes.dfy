/** Values shared by every part of the promise model: errors, outcomes,
    the result of a throwing closure, dispatch-queue tags and the values
    promises carry. */
module Outcomes {

  datatype Option<T> = None | Some(value: T)

  /** A Swift `Error`: the name of its dynamic type and which value of that
      type it is (an enum case, with its associated data folded into one
      number). Two errors are equal exactly when both parts are. */
  datatype Error = Error(errorType: string, payload: int)

  /** How a promise settles: with a value or with an error. */
  datatype Outcome<V> = Success(value: V) | Failure(error: Error)

  /** What a `throws` closure does: returns a result or throws an error. */
  datatype Thrown<T> = Returns(value: T) | Throws(error: Error)

  /** A `DispatchQueue`, only as a tag: `.main` or a labelled queue. */
  datatype Queue = Main | Labelled(name: string)

  /** The values promises carry. Swift's generic `Value` parameter is erased
      to this one type so that promises of different value types can hand
      results to each other; `Unit` is the `Success()` of Success.swift,
      `Tuple` what `zip` produces and `Array` what `flatten` produces. */
  datatype Value =
    | Unit
    | Number(n: int)
    | Text(s: string)
    | Tuple(items: seq<Value>)
    | Array(items: seq<Value>)

  /** `error as? ErrorType`: the error itself when its dynamic type is
      `errorType`, nothing otherwise. */
  function Cast(error: Error, errorType: string): (r: Option<Error>)
    ensures r.Some? <==> error.errorType == errorType
    ensures r.Some? ==> r.value == error
  {
    if error.errorType == errorType then Some(error) else None
  }
}
