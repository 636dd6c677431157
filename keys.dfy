/** JavaScript property keys as they reach a proxy trap or a template literal.
    A number used as a key has already been converted to its string form by
    the time a trap sees it, so only strings and symbols remain. */
module PropertyKeys {

  datatype PropertyKey =
    | StringKey(name: string)
      /** The module-private `Symbol('_setReturnValue')` of the unmocked guard.
          No code outside that module holds it, so it equals no other key. */
    | SetReturnValueSymbol
      /** Any other symbol. Two symbols with the same description are still
          distinct, so identity is carried by `id`. */
    | OtherSymbol(id: nat, description: string)
  {
    predicate IsSymbol() { !StringKey? }
  }

  /** The string key `"toString"`: the unmocked guard answers it with a
      function, so an explicit `toString()` call yields the reason instead of
      throwing. */
  const ToStringKey: PropertyKey := StringKey("toString")
}
