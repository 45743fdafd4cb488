/** webstd/context_key.go: keys for `context.WithValue` scoped to an application component. */
module ContextKey {
  datatype AppContextKey = AppContextKey(app: string, name: string)

  /** `NewAppContextKey`. */
  function NewAppContextKey(app: string, name: string): (k: AppContextKey)
    ensures k.app == app && k.name == name
  {
    AppContextKey(app, name)
  }

  const Infix: string := " context value "

  /** `String`: the component, the fixed infix, then the key name. */
  function String(k: AppContextKey): (s: string)
    ensures |s| == |k.app| + |k.name| + 15
    ensures s[..|k.app|] == k.app
    ensures s[|s| - |k.name|..] == k.name
    ensures s[|k.app|..|k.app| + 15] == Infix
  {
    k.app + Infix + k.name
  }

  /** Keys whose components are equally long print alike only if they have equal component
      and name. This compares contents: Go's keys are pointers, distinct per call. */
  lemma StringInjective(k1: AppContextKey, k2: AppContextKey)
    requires |k1.app| == |k2.app|
    requires String(k1) == String(k2)
    ensures k1 == k2
  {
    var s := String(k1);
    assert k1.app == s[..|k1.app|] == k2.app;
    assert k1.name == s[|s| - |k1.name|..] == k2.name;
  }
}
