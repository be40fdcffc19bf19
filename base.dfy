/** Small value types shared by every module of the model. */
module Base {

  /** A value that may be absent (JavaScript `null`, `undefined` or `NaN`). */
  datatype Option<T> = None | Some(value: T)

  /** The value of a call that either returns or throws. */
  datatype Result<T, E> = Ok(value: T) | Err(error: E)

  /** The reply of a backend call that carries no data: success, or an error
      whose `message` is "" when the error object has none. */
  datatype Outcome = Success | Failure(message: string)

  /** How an awaited backend call that reports errors ends: it succeeds, it
      answers with an error object carrying `message`, or it throws. */
  datatype CallReply = Accepted | Rejected(message: string) | Thrown

  /** `s || fallback` on a string (such as `err.message || fallback`): the
      string when it is non-empty, otherwise the fallback. */
  function OrElse(s: string, fallback: string): (r: string)
    ensures s != "" ==> r == s
    ensures s == "" ==> r == fallback
  {
    if s != "" then s else fallback
  }

  /** `v ?? fallback`, and a destructuring default, which both apply only to a
      missing value: any present value, `false` and "" included, is kept. */
  function Coalesce<T>(v: Option<T>, fallback: T): (r: T)
    ensures v.Some? ==> r == v.value
    ensures v.None? ==> r == fallback
  {
    if v.Some? then v.value else fallback
  }
}
