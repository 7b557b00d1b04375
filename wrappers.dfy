/** Optional values and the two JavaScript fallback operators the page uses. */
module Wrappers {

  /** An optional value: `undefined`/`null` is `None`. */
  datatype Option<+T> = None | Some(value: T)

  /** `a ?? d` on a value: replaces only an absent value. */
  function NullishOr<T>(a: Option<T>, d: T): (r: T)
    ensures a.Some? ==> r == a.value
    ensures a.None? ==> r == d
  {
    match a
    case Some(v) => v
    case None => d
  }

  /** `a ?? b` on two optional values. */
  function Coalesce<T>(a: Option<T>, b: Option<T>): (r: Option<T>)
    ensures r.Some? <==> a.Some? || b.Some?
    ensures a.Some? ==> r == a
    ensures a.None? ==> r == b
  {
    if a.Some? then a else b
  }

  /** Truthiness of an optional string: absent and `""` are falsy. */
  predicate Truthy(a: Option<string>)
  {
    a.Some? && a.value != ""
  }

  /** `a || d` on an optional string: replaces an absent or empty value. */
  function FalsyOr(a: Option<string>, d: string): (r: string)
    ensures Truthy(a) ==> r == a.value
    ensures !Truthy(a) ==> r == d
  {
    if Truthy(a) then a.value else d
  }
}
