/** Optional values: Python's `None` next to a present value. */
module Wrappers {
  datatype Option<+T> = None | Some(value: T)
}

/**
 * The exceptions the modelled code can raise.  `ModelError` is the library's
 * own exception (sfsimodels.exceptions, which is not part of this model); the
 * others are the Python built-ins that the modelled expressions raise.
 */
module Exceptions {
  datatype Error =
    | ModelError(message: string)
    | ZeroDivisionError     // a float or int division by zero
    | TypeError             // arithmetic on None, or a non-integer slice index
    | KeyError              // a missing dictionary key
    | IndexError            // a list index out of range
    | ValueError            // `int()` of a string that is not a whole number
    | AttributeError(name: string)

  /** What a call that returns a value either gives back or raises. */
  datatype Result<+T> = Ok(value: T) | Err(error: Error)

  /** What a call that returns nothing either does (`Pass`) or raises. */
  datatype Outcome = Pass | Fail(error: Error)
}

/** The few Python built-ins whose exact semantics the model relies on. */
module Builtins {
  import opened Wrappers

  /** `int(x)` for a float `x`: truncation toward zero. */
  function Trunc(x: real): (n: int)
    ensures 0.0 <= x ==> n as real <= x < n as real + 1.0
    ensures x < 0.0 ==> n as real - 1.0 < x <= n as real
  {
    if x >= 0.0 then x.Floor else -((-x).Floor)
  }

  /** The position `xs[i]` denotes in a list of length `n`, negative indices counting from the end. */
  function ListIndex(n: nat, i: int): (r: Option<nat>)
    ensures r.Some? <==> -(n as int) <= i < n
    ensures r.Some? ==> r.value < n && r.value as int == (if i < 0 then i + n else i)
  {
    if 0 <= i < n then Some(i as nat) else if -(n as int) <= i < 0 then Some((i + n) as nat) else None
  }

  /** One bound of `xs[s:e]` after Python clamps it to `0..n`. */
  function SliceBound(n: nat, b: int): (r: nat)
    ensures r <= n
    ensures 0 <= b <= n ==> r == b
    ensures -(n as int) <= b < 0 ==> r == b + n
    ensures b < -(n as int) ==> r == 0
    ensures n < b ==> r == n
  {
    if b < 0 then (if b + n < 0 then 0 else (b + n) as nat)
    else if b > n then n else b as nat
  }

  /** `xs[s:e]` on a list. */
  function Slice<T>(xs: seq<T>, s: int, e: int): seq<T> {
    var lo, hi := SliceBound(|xs|, s), SliceBound(|xs|, e);
    if lo < hi then xs[lo..hi] else []
  }

  /** A slice holds exactly the elements between its clamped bounds, in order. */
  lemma SliceElements<T>(xs: seq<T>, s: int, e: int)
    ensures var lo, hi := SliceBound(|xs|, s), SliceBound(|xs|, e);
      |Slice(xs, s, e)| == (if lo < hi then hi - lo else 0) &&
      forall k :: 0 <= k < |Slice(xs, s, e)| ==> Slice(xs, s, e)[k] == xs[lo + k]
  {
  }
}
