/** The pieces of Python semantics the playlist logic relies on:
    integer `min`, prefix slicing with a possibly negative bound,
    and the exceptions the modelled code can raise. */
module Python {

  /** The exceptions the modelled code raises on its own (service failures are not modelled). */
  datatype PyError =
    | ValueError(message: string)  // `range()` with a step of 0
    | KeyError(key: string)        // a DataFrame column that does not exist

  function Min(a: int, b: int): int { if a <= b then a else b }

  function Max(a: int, b: int): int { if a <= b then b else a }

  /** `s[:min(len(s), k)]`, the truncation applied to related artists and top tracks.
      A negative bound counts from the end of the list, as Python slicing does. */
  function Head<T>(s: seq<T>, k: int): (r: seq<T>)
    ensures r <= s
    ensures k >= 0 ==> |r| == Min(|s|, k)
    ensures k < 0 ==> |r| == Max(0, |s| + k)
  {
    var m := Min(|s|, k);
    if m >= 0 then s[..m]
    else if |s| + m >= 0 then s[..|s| + m]
    else []
  }
}
