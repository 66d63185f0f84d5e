/**
 * The few JavaScript value shapes the dashboard's logic depends on:
 * a value that may be `undefined`/`null`, the TypeError thrown when a
 * property of `undefined` is read, and `Array.prototype.indexOf`.
 */
module JsValues {

  /** `None` stands for `undefined` (or `null`), `Some(v)` for a present value. */
  datatype Option<+T> = None | Some(value: T)
  {
    function GetOr(default: T): T
    {
      match this
      case Some(v) => v
      case None => default
    }
  }

  /** The only exception the modelled code can raise. */
  datatype Error = TypeError

  /** A computation that either finishes with a value or throws. */
  datatype Result<+T> = Ok(value: T) | Err(error: Error)

  /** `xs.indexOf(x)`: the first index holding `x`, or -1. */
  function IndexOf<T(==)>(xs: seq<T>, x: T): (r: int)
    ensures -1 <= r < |xs|
    ensures r == -1 <==> x !in xs
    ensures 0 <= r ==> xs[r] == x && forall q :: 0 <= q < r ==> xs[q] != x
  {
    if |xs| == 0 then -1
    else if xs[0] == x then 0
    else
      var r := IndexOf(xs[1..], x);
      if r == -1 then -1 else r + 1
  }

  /** Extending a prefix by the next element gives the next prefix. */
  lemma PrefixExtend<T>(s: seq<T>, i: nat)
    requires i < |s|
    ensures s[..i] + [s[i]] == s[..i + 1]
  {
  }
}
