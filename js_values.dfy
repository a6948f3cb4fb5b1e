/** JavaScript values as the components read them from the content object:
    an optional string field (`undefined`/`null` is `None`) and the truthiness
    that `||` and `&&` test. */
module JsValues {

  datatype Option<+T> = None | Some(value: T)

  /** A string-valued field is truthy iff it is present and not the empty string. */
  predicate Truthy(v: Option<string>)
  {
    v.Some? && v.value != ""
  }

  /** `v || fallback`: the field itself when it is truthy, the fallback otherwise. */
  function Or(v: Option<string>, fallback: string): (r: string)
    ensures Truthy(v) ==> r == v.value
    ensures !Truthy(v) ==> r == fallback
    ensures fallback != "" ==> r != ""
  {
    if Truthy(v) then v.value else fallback
  }

  /** `s.startsWith(prefix)` */
  function StartsWith(s: string, prefix: string): (b: bool)
    ensures b <==> |prefix| <= |s| && forall i :: 0 <= i < |prefix| ==> s[i] == prefix[i]
  {
    |prefix| <= |s| && s[..|prefix|] == prefix
  }
}
