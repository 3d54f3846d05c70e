/**
 * The JavaScript values an untyped variable value can hold, and the ECMA-262
 * abstract operations the coercion uses: ToBoolean (section 7.1.2),
 * ToNumber (section 7.1.4) and the `toString()` methods of booleans, numbers
 * and strings.
 *
 * Numbers are kept at the level the coercion needs: NaN, the two infinities
 * and finite values. Parsing a numeric string and printing a positive finite
 * number follow IEEE 754 double semantics; both are supplied by the host as
 * the two functions of a `NumberConversions` value.
 */
module JsValues {

  datatype JsNumber = NaN | Infinity(negative: bool) | Finite(value: real)

  datatype JsValue =
    | Null
    | Undefined
    | Bool(b: bool)
    | Num(n: JsNumber)
    | Str(s: string)

  /**
   * The float-level conversions left to the host: the StringToNumber grammar
   * of ECMA-262 section 7.1.4.1, and the decimal digits Number::toString
   * prints for a positive finite value.
   */
  datatype NumberConversions = NumberConversions(parse: string -> JsNumber, format: real -> string)

  /** A host whose printer never prints nothing for a positive number. */
  ghost predicate PrintsDigits(conv: NumberConversions)
  {
    forall x: real :: x > 0.0 ==> conv.format(x) != ""
  }

  /** The values ECMA-262 section 7.1.2 lists as converting to false. */
  const Falsy: set<JsValue> := {Null, Undefined, Bool(false), Num(NaN), Num(Finite(0.0)), Str("")}

  /** ToBoolean, ECMA-262 section 7.1.2. */
  predicate ToBoolean(v: JsValue)
    ensures ToBoolean(v) <==> v !in Falsy
  {
    match v
    case Null => false
    case Undefined => false
    case Bool(b) => b
    case Num(n) => !n.NaN? && n != Finite(0.0)
    case Str(s) => |s| > 0
  }

  /** ToNumber, ECMA-262 section 7.1.4, with string parsing left to the host. */
  function ToNumber(v: JsValue, conv: NumberConversions): (n: JsNumber)
    ensures v.Num? ==> n == v.n
    ensures !v.Str? ==> (ToBoolean(Num(n)) <==> ToBoolean(v))
  {
    match v
    case Null => Finite(0.0)
    case Undefined => NaN
    case Bool(b) => if b then Finite(1.0) else Finite(0.0)
    case Num(n) => n
    case Str(s) => conv.parse(s)
  }

  /** Number::toString in radix 10, with the digits of a positive value left to the host. */
  function NumberToString(x: JsNumber, conv: NumberConversions): (s: string)
    ensures PrintsDigits(conv) ==> s != ""
    ensures x.Finite? && x.value < 0.0 ==> |s| > 0 && s[0] == '-'
  {
    match x
    case NaN => "NaN"
    case Infinity(negative) => if negative then "-Infinity" else "Infinity"
    case Finite(r) =>
      if r == 0.0 then "0"
      else if r < 0.0 then "-" + conv.format(-r)
      else conv.format(r)
  }

  /**
   * `value.toString()` on a primitive. Calling it on null or undefined
   * throws a TypeError, so the caller must rule those out.
   */
  function ToStringMethod(v: JsValue, conv: NumberConversions): (s: string)
    requires !v.Null? && !v.Undefined?
    ensures v.Str? ==> s == v.s
    ensures v.Bool? ==> (s == "true" <==> v.b)
    ensures PrintsDigits(conv) && !v.Str? ==> s != ""
  {
    match v
    case Bool(b) => if b then "true" else "false"
    case Num(n) => NumberToString(n, conv)
    case Str(s) => s
  }
}
