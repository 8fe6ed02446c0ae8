/** Optional values and asynchronous outcomes, and JavaScript's `||` defaulting as the slices use it. */
module Optional {

  /** A value that may be `null`/`undefined` in the source. */
  datatype Option<+T> = None | Some(value: T)

  /** The outcome of an asynchronous step: a value, or a failure whose message may be missing. */
  datatype Result<+T> = Ok(value: T) | Err(message: Option<string>)

  /** A string is truthy in JavaScript exactly when it is present and non-empty. */
  predicate Truthy(s: Option<string>)
  {
    s.Some? && s.value != ""
  }

  /** `s || fallback` for an optional string. */
  function OrElse(s: Option<string>, fallback: string): string
  {
    if Truthy(s) then s.value else fallback
  }

  /** `n || 0` for an optional integer amount: a missing amount reads as zero. */
  function OrZero(n: Option<int>): int
  {
    if n.Some? then n.value else 0
  }

  /** A message produced by `||` with a non-empty fallback is never empty. */
  lemma OrElseNonEmpty(s: Option<string>, fallback: string)
    requires fallback != ""
    ensures OrElse(s, fallback) != ""
    ensures OrElse(s, fallback) == fallback || Some(OrElse(s, fallback)) == s
  {
  }
}
