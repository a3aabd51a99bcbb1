/**
 * The two JavaScript idioms the contact path is written with, for fields that
 * are either missing from a JSON object or hold a string: the falsy test
 * (`!x`) and the `||` default (`x || fallback`).
 */
module JsValues {

  /** A property of a parsed JSON object: absent (undefined) or a string. */
  datatype Field = Absent | Given(value: string)

  /** The falsy values such a property can take. */
  const FalsyValues: set<Field> := {Absent, Given("")}

  /** JavaScript truthiness of such a property: `undefined` and `''` are falsy. */
  predicate Truthy(f: Field)
    ensures Truthy(f) <==> f !in FalsyValues
  {
    f.Given? && f.value != ""
  }

  /**
   * `f || fallback`: the property itself when it is truthy, else the
   * fallback. The result is one of the two operands, and it is falsy only
   * when both are.
   */
  function Or(f: Field, fallback: string): (r: string)
    ensures Truthy(f) ==> r == f.value
    ensures !Truthy(f) ==> r == fallback
    ensures r == fallback || (f.Given? && r == f.value)
    ensures r != "" <==> Truthy(f) || fallback != ""
  {
    if Truthy(f) then f.value else fallback
  }
}
