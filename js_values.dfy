/** JavaScript value conventions the diagram code relies on: values that may be
    missing (`null`/`undefined`), truthiness of strings, the `a || d` default
    and the coercion of a value inside a template literal. */
module JsValues {

  /** A value that may be missing, as `getAttribute` returns `null` and an
      optional property reads `undefined`. */
  datatype Opt<+T> = None | Some(value: T)

  /** A possibly-missing string is truthy when it is present and not empty. */
  predicate Truthy(o: Opt<string>)
  {
    o.Some? && o.value != ""
  }

  /** `o || d`: the value when it is truthy, otherwise the default. The default
      therefore also replaces the empty string. */
  function OrDefault(o: Opt<string>, d: string): (r: string)
    ensures Truthy(o) ==> r == o.value
    ensures !Truthy(o) ==> r == d
  {
    if Truthy(o) then o.value else d
  }

  /** `${o}` inside a template literal: a missing value renders as "null". */
  function Template(o: Opt<string>): (r: string)
    ensures o.Some? ==> r == o.value
    ensures o.None? ==> r == "null"
  {
    match o
    case None => "null"
    case Some(s) => s
  }

  /** With a non-empty default, `o || d` is never empty, and applying the same
      default to its own result changes nothing. */
  lemma OrDefaultStable(o: Opt<string>, d: string)
    requires d != ""
    ensures OrDefault(o, d) != ""
    ensures OrDefault(Some(OrDefault(o, d)), d) == OrDefault(o, d)
  {
  }

  /** A missing value and the text "null" render alike, so a rendered value
      cannot tell them apart. */
  lemma TemplateConflatesNull()
    ensures Template(None) == Template(Some("null"))
    ensures forall o: Opt<string> :: Template(o) == "null" <==> o == None || o == Some("null")
  {
  }
}
