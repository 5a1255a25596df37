/**
 * The JavaScript values the server and the page pass around: query and body
 * fields that may be absent (`undefined`), URL parameters that may be `null`,
 * strings, and the one integer literal the server uses (the fallback floor).
 * Truthiness and string conversion follow JavaScript.
 */
module JsValues {

  datatype Value = Undefined | Null | Str(s: string) | Num(n: int)

  /** JavaScript truthiness: `!v` is `!Truthy(v)`; the falsy values are exactly `undefined`, `null`, `''` and `0`. */
  predicate Truthy(v: Value): (ok: bool)
    ensures !ok <==> v == Undefined || v == Null || v == Str("") || v == Num(0)
  {
    match v
    case Undefined => false
    case Null => false
    case Str(s) => s != ""
    case Num(n) => n != 0
  }

  /**
   * `String(v)`, which is also what a template literal `${v}` inserts: a
   * string as itself, a number as its sign and decimal digits (see `ToStringNumber`).
   */
  function ToString(v: Value): (r: string)
    ensures v == Undefined ==> r == "undefined"
    ensures v == Null ==> r == "null"
    ensures v.Str? ==> r == v.s
    ensures v.Num? ==> r != "" && (r[0] == '-' <==> v.n < 0)
  {
    match v
    case Undefined => "undefined"
    case Null => "null"
    case Str(s) => s
    case Num(n) => if n < 0 then "-" + NatToString(-n) else NatToString(n)
  }

  /** `v || ''` where the result is used as a string: empty exactly for a falsy value, otherwise `String(v)`. */
  function OrEmpty(v: Value): (r: string)
    ensures r == "" <==> !Truthy(v)
    ensures r != "" ==> r == ToString(v)
  {
    if Truthy(v) then ToString(v) else ""
  }

  function DigitChar(d: nat): char
    requires d < 10
  {
    "0123456789"[d]
  }

  /**
   * Decimal rendering of a natural number. `String(n)` gives this for an
   * integer below 10^21, such as the fallback floor 4; larger numbers and
   * fractions are not values of this model.
   */
  function NatToString(n: nat): (r: string)
    ensures |r| >= 1
    ensures IsDigits(r)
    ensures n < 10 <==> |r| == 1
  {
    if n < 10 then [DigitChar(n)] else NatToString(n / 10) + [DigitChar(n % 10)]
  }

  /** Every character is a decimal digit. */
  predicate IsDigits(s: string) {
    forall i :: 0 <= i < |s| ==> '0' <= s[i] <= '9'
  }

  /** The number a string of decimal digits denotes, read left to right. */
  function DigitsValue(s: string): nat
    requires IsDigits(s)
    decreases |s|
  {
    if |s| == 0 then 0
    else DigitsValue(s[..|s| - 1]) * 10 + (s[|s| - 1] as int - '0' as int)
  }

  /** `NatToString` renders exactly the number it is given. */
  lemma {:induction false} NatToStringValue(n: nat)
    ensures DigitsValue(NatToString(n)) == n
  {
    var r := NatToString(n);
    if n >= 10 {
      NatToStringValue(n / 10);
      assert r[..|r| - 1] == NatToString(n / 10);
    }
  }

  /** `String(n)` of an integer: its decimal digits, after a minus sign when it is negative. */
  lemma ToStringNumber(n: int)
    ensures var r := ToString(Num(n));
      && (n >= 0 ==> IsDigits(r) && DigitsValue(r) == n)
      && (n < 0 ==> |r| >= 2 && r[0] == '-' && IsDigits(r[1..]) && DigitsValue(r[1..]) == -n)
  {
    var r := ToString(Num(n));
    if n < 0 {
      var d := NatToString(-n);
      NatToStringValue(-n);
      assert r == "-" + d;
      assert r[1..] == d;
    } else {
      NatToStringValue(n);
    }
  }

  /** A non-empty string is truthy and renders as itself. */
  lemma TruthyStr(s: string)
    requires s != ""
    ensures Truthy(Str(s)) && ToString(Str(s)) == s && OrEmpty(Str(s)) == s
  {
  }
}
