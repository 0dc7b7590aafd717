/** The values the page reads from the catalog's JSON responses, and the
    parts of JavaScript's semantics the normalisation helpers rely on:
    reading a missing property, the loose `!= null` test, truthiness, and
    numeric coercion by unary `+`. */
module JsValues {

  datatype Option<+T> = None | Some(value: T)

  /** A JavaScript value as it can appear in a decoded response. `Undefined`
      is what reading a missing property yields. Numbers are integers. */
  datatype JsValue =
    | Undefined
    | Null
    | Bool(b: bool)
    | Num(n: int)
    | Str(s: string)
    | Arr(elems: seq<JsValue>)
    | Obj(fields: map<string, JsValue>)

  /** A plain object: its own enumerable properties by name. */
  type JsObject = map<string, JsValue>

  /** `obj[k]`: the property's value, or `undefined` when it is missing. */
  function Lookup(obj: JsObject, k: string): JsValue
  {
    if k in obj then obj[k] else Undefined
  }

  /** `v == null` under loose equality: true of `null` and `undefined` only. */
  predicate IsNullish(v: JsValue)
  {
    v.Undefined? || v.Null?
  }

  /** The values `||` treats as false. Arrays and objects, even empty ones,
      are truthy. */
  predicate IsFalsy(v: JsValue)
  {
    match v
    case Undefined => true
    case Null => true
    case Bool(b) => !b
    case Num(n) => n == 0
    case Str(s) => s == ""
    case Arr(_) => false
    case Obj(_) => false
  }

  /** The result of numeric coercion: an integer or `NaN`. */
  datatype Number = Finite(value: int) | NaN

  predicate IsDigit(c: char)
  {
    '0' <= c <= '9'
  }

  predicate AllDigits(s: string)
  {
    forall i | 0 <= i < |s| :: IsDigit(s[i])
  }

  /** The value of a string of decimal digits, most significant first. */
  function DigitsValue(s: string): nat
    requires AllDigits(s)
  {
    if s == [] then 0
    else DigitsValue(s[..|s| - 1]) * 10 + (s[|s| - 1] as int - '0' as int)
  }

  /** Unary `+v`. A string made of decimal digits converts to its value and
      the empty string to 0; every other string is `NaN`. */
  function ToNumber(v: JsValue): Number
  {
    match v
    case Undefined => NaN
    case Null => Finite(0)
    case Bool(b) => Finite(if b then 1 else 0)
    case Num(n) => Finite(n)
    case Str(s) => if AllDigits(s) then Finite(DigitsValue(s)) else NaN
    case Arr(_) => NaN
    case Obj(_) => NaN
  }

  /** `n || 0` for a number: the falsy numbers (0 and NaN) become 0. */
  function OrZero(n: Number): int
  {
    match n
    case Finite(x) => x
    case NaN => 0
  }

  /** The decimal rendering of a natural number, as a template literal
      `${n}` writes it. */
  function DecimalString(n: nat): string
  {
    if n < 10 then [('0' as int + n) as char]
    else DecimalString(n / 10) + [('0' as int + n % 10) as char]
  }

  /** Rendering a natural number in decimal and coercing the text back with
      unary `+` gives the number again. */
  lemma {:induction false} DecimalRoundTrip(n: nat)
    ensures AllDigits(DecimalString(n))
    ensures ToNumber(Str(DecimalString(n))) == Finite(n)
  {
    var s := DecimalString(n);
    if n < 10 {
      assert s[..|s| - 1] == [];
    } else {
      DecimalRoundTrip(n / 10);
      var p := DecimalString(n / 10);
      assert s == p + [('0' as int + n % 10) as char];
      assert s[..|s| - 1] == p;
      assert AllDigits(s) by {
        forall i | 0 <= i < |s| ensures IsDigit(s[i]) {
          if i < |p| { assert s[i] == p[i]; }
        }
      }
      assert DigitsValue(s) == DigitsValue(p) * 10 + n % 10;
    }
  }
}
