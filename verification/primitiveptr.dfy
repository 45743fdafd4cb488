/** primitiveptr: a `*string` is an optional string; `nil` is `None`. */
module PrimitivePtr {
  import opened Wrappers

  /** `String`: a pointer to a copy of the value, never `nil`. */
  function String(v: string): (p: Option<string>)
    ensures p.Some? && p.value == v
  {
    Some(v)
  }

  /** `StringDeref`: the pointed-to string, `""` for `nil`. */
  function StringDeref(p: Option<string>): (s: string)
    ensures p.None? ==> s == ""
    ensures p.Some? ==> s == p.value
  {
    match p
    case None => ""
    case Some(v) => v
  }

  /** Dereferencing undoes `String`. */
  lemma DerefString(v: string)
    ensures StringDeref(String(v)) == v
  {
  }

  /** `nil` and a pointer to `""` dereference alike. */
  lemma DerefForgetsNil()
    ensures StringDeref(None) == StringDeref(String(""))
    ensures None != String("")
  {
  }
}
