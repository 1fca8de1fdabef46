/** JSON values as the blog and the worker see them: a field that may be absent
    or `null`, and JavaScript's truthiness rule for strings, which the `||`
    fallbacks of both programs rely on. */
module JsValues {

  /** An optional JSON field: `None` stands for `null` or a missing property. */
  datatype Option<+T> = None | Some(value: T)

  /** A string field is truthy in JavaScript when it is present and non-empty. */
  predicate Truthy(s: Option<string>) {
    s.Some? && s.value != ""
  }

  /** `a || b` on two optional strings: the left operand when it is truthy,
      otherwise the right one, whatever it is. */
  function Or(a: Option<string>, b: Option<string>): (r: Option<string>)
    ensures Truthy(a) ==> r == a
    ensures !Truthy(a) ==> r == b
  {
    if Truthy(a) then a else b
  }

  /** `s || ''`: the string itself, or the empty string for a missing field. */
  function OrEmpty(s: Option<string>): (r: string)
    ensures s.Some? ==> r == s.value
    ensures s.None? ==> r == ""
  {
    match s
    case Some(v) => v
    case None => ""
  }

  /** `s || null`: the string when it is truthy, otherwise `null`, so that an
      empty string is stored as `null`. */
  function OrNull(s: Option<string>): (r: Option<string>)
    ensures r.Some? <==> Truthy(s)
    ensures r.Some? ==> r == s
  {
    if Truthy(s) then s else None
  }
}
