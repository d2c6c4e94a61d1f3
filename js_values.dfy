/** Optional values and the two JavaScript idioms the core leans on:
    `v || fallback` on a possibly-absent string, and an operation that either
    returns or throws. */
module JsValues {

  /** A value that may be absent (`undefined` or `null` in the source). */
  datatype Option<+T> = None | Some(value: T) {
    function GetOr(default: T): T {
      match this
      case Some(v) => v
      case None => default
    }
  }

  /** The outcome of a call into code outside the model: it returns a value or
      throws an error whose `message` the source reports. */
  datatype Attempt<+T> = Returned(value: T) | Threw(message: string)

  /** A string is truthy in JavaScript when it is present and not empty. */
  predicate Truthy(v: Option<string>) {
    v.Some? && v.value != ""
  }

  /** `v || fallback` where `v` is an optional string: the fallback replaces an
      absent or empty value. */
  function OrElse(v: Option<string>, fallback: string): (r: string)
    ensures Truthy(v) ==> r == v.value
    ensures !Truthy(v) ==> r == fallback
    ensures fallback != "" ==> r != ""
  {
    if v.Some? && v.value != "" then v.value else fallback
  }

  /** `v || null`: an empty string becomes null, so the result is never the
      empty string. */
  function OrNull(v: Option<string>): (r: Option<string>)
    ensures r.Some? <==> Truthy(v)
    ensures r.Some? ==> r == v && r.value != ""
  {
    if v.Some? && v.value != "" then v else None
  }
}
