/** Small datatypes used throughout the model: `Option` stands for a JavaScript value
    that may be `undefined` (read with `??`), and `Result` for a computation that either
    returned a value or threw an error with a message. */
module Wrappers {

  datatype Option<+T> = None | Some(value: T) {

    /** The value carried by Some, or `default` (JavaScript's `x ?? default`). */
    function GetOr(default: T): T {
      match this
      case Some(v) => v
      case None => default
    }
  }

  /** A computation that either produced a value or threw an error whose message is `error`. */
  datatype Result<+R, +E> = Success(value: R) | Failure(error: E)

  /** Applies `f` to every element in order, as JavaScript's `xs.map(f)` does when `f`
      may throw: None as soon as one application fails. */
  function MapAll<A, B>(xs: seq<A>, f: A -> Option<B>): (r: Option<seq<B>>)
    ensures r.Some? <==> forall i :: 0 <= i < |xs| ==> f(xs[i]).Some?
    ensures r.Some? ==> |r.value| == |xs| && forall i :: 0 <= i < |xs| ==> f(xs[i]) == Some(r.value[i])
  {
    if |xs| == 0 then Some([])
    else
      match f(xs[0])
      case None => None
      case Some(y) =>
        match MapAll(xs[1..], f)
        case None => None
        case Some(rest) => Some([y] + rest)
  }
}
