/**
 * Dynamically typed JavaScript values as they flow through the invoice
 * pipeline: the parsed extraction reply hands the review form values of
 * any type, and the form copies them on with `||` defaults.
 */
module JsValues {
  import opened JsStrings
  import opened JsNumbers

  /** The JavaScript values the core handles (objects and arrays are not modelled). */
  datatype Js = Undefined | Null | Bool(b: bool) | Number(n: JsNumber) | Str(s: string)

  const Zero: Js := Number(Finite(0.0))

  /** JavaScript truthiness: `undefined`, `null`, `false`, `0`, `NaN` and `""` are falsy. */
  predicate Truthy(v: Js) {
    match v
    case Undefined => false
    case Null => false
    case Bool(b) => b
    case Number(n) => n.Finite? && n.value != 0.0
    case Str(s) => s != ""
  }

  /** `a || b`: `a` when it is truthy, otherwise `b`. */
  function Or(a: Js, b: Js): Js {
    if Truthy(a) then a else b
  }

  /** `String(v)`, which is also what a template literal substitutes for `${v}`. */
  function ToJsString(v: Js): string {
    match v
    case Undefined => "undefined"
    case Null => "null"
    case Bool(b) => if b then "true" else "false"
    case Number(n) => NumberToString(n)
    case Str(s) => s
  }

  /**
   * `parseFloat(v)`: the argument is converted to a string first. For a
   * number the result is the number itself (its shortest decimal form
   * reads back exactly), which is what is written here directly.
   */
  function ParseFloatOf(v: Js): JsNumber {
    match v
    case Number(n) => n
    case _ => ParseFloat(ToJsString(v))
  }

  /** `x || ''` followed by string substitution: the text a template shows for an optional field. */
  function TextOrEmpty(v: Js): (r: string)
    ensures !Truthy(v) ==> r == ""
    ensures v.Str? ==> r == v.s
  {
    ToJsString(Or(v, Str("")))
  }

  /**
   * A numeric column as the database keeps it and hands it back. Rows
   * travel as JSON, which has no NaN: `JSON.stringify` writes NaN as
   * `null`, so a NaN sent is a null stored.
   */
  datatype Stored = StoredNumber(value: real) | StoredNull

  /** The column value a JavaScript number becomes once written. */
  function Store(n: JsNumber): (d: Stored)
    ensures d.StoredNull? <==> n.NaN?
  {
    match n
    case Finite(v) => StoredNumber(v)
    case NaN => StoredNull
  }

  /** A stored value used in arithmetic: `null` converts to 0. */
  function Arithmetic(d: Stored): real {
    match d
    case StoredNumber(v) => v
    case StoredNull => 0.0
  }

  /** Number inputs never reach a string that `parseFloat` reads differently from the number itself. */
  lemma ParseFloatOfWholeNumberText(k: int)
    ensures ParseFloatOf(Str(ToJsString(Number(Finite(k as real))))) == Finite(k as real)
  {
    WholeNumberRoundTrip(k);
  }
}
