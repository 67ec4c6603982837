/** The few pieces of Python's run-time behaviour the viewer's aggregation relies on:
    the exceptions it can raise, and how a list is indexed. */
module Py {

  /** The exceptions the modelled code can raise. `Raised` is a plain `Exception(message)`. */
  datatype Failure = IndexError | ValueError | KeyError | Raised(message: string)

  datatype Option<T> = None | Some(value: T)

  /** A value, or the exception that computing it raised. */
  datatype Result<T> = Ok(value: T) | Err(error: Failure)

  /** The outcome of a statement that either completes or raises. */
  datatype Outcome = Pass | Fail(error: Failure)

  /** `s[c]` in Python: a negative index counts from the end; anything else out of range
      raises `IndexError` (here: `None`). */
  function Item<T>(s: seq<T>, c: int): (r: Option<T>)
    ensures r.Some? <==> -|s| <= c < |s|
    ensures 0 <= c < |s| ==> r == Some(s[c])
    ensures -|s| <= c < 0 ==> r == Some(s[|s| + c])
  {
    if 0 <= c < |s| then Some(s[c])
    else if -|s| <= c < 0 then Some(s[|s| + c])
    else None
  }

  /** `s.index(x)` in Python: the first position holding `x`, or `ValueError`. */
  function IndexOf<T(==)>(s: seq<T>, x: T): (r: Result<nat>)
    ensures r.Ok? <==> x in s
    ensures r.Ok? ==> r.value < |s| && s[r.value] == x && x !in s[..r.value]
    ensures r.Err? ==> r.error == ValueError
  {
    if s == [] then Err(ValueError)
    else if s[0] == x then Ok(0)
    else match IndexOf(s[1..], x)
      case Ok(i) => (assert s[1..][..i] == s[1..i + 1]; Ok(i + 1))
      case Err(e) => Err(e)
  }
}
