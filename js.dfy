/**
 * JavaScript truthiness, restricted to the value types the handlers and
 * components read: an optional string is falsy when absent or "", an
 * optional number is falsy when absent or 0.
 */
module Js {
  import opened Wrappers

  predicate TruthyString(v: Option<string>) {
    v.Some? && v.value != ""
  }

  predicate TruthyNumber(v: Option<int>) {
    v.Some? && v.value != 0
  }

  /** `v || null` on an optional string. */
  function StringOrNull(v: Option<string>): (r: Option<string>)
    ensures r.Some? <==> TruthyString(v)
    ensures r.Some? ==> r == v
  {
    if TruthyString(v) then v else None
  }

  /** `v || 0` on an optional number. */
  function NumberOrZero(v: Option<int>): (r: int)
    ensures r == 0 <==> !TruthyNumber(v)
    ensures TruthyNumber(v) ==> r == v.value
  {
    if TruthyNumber(v) then v.value else 0
  }
}
