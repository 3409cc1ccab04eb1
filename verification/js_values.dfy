/**
 * The JavaScript values the cache handles: JSON payloads, the numbers that
 * `Number(...)` produces from file names and file contents, and the decimal
 * rendering of timestamps.
 */
module JsValues {

  datatype Option<T> = None | Some(value: T)

  /** A JavaScript number as the cache meets one: NaN or an integer. */
  datatype Num = NaN | Int(v: int)

  /** JavaScript `<` on numbers: false as soon as either side is NaN. */
  predicate Less(a: Num, b: Num)
  {
    a.Int? && b.Int? && a.v < b.v
  }

  /** A JSON value as written by `JSON.stringify` and read back by `JSON.parse`. */
  datatype Value =
    | Null
    | Bool(b: bool)
    | Number(n: int)
    | Str(s: string)
    | Arr(items: seq<Value>)
    | Obj(props: map<string, Value>)

  /** JavaScript truthiness of a JSON value (`!v` is true exactly for these). */
  predicate Falsy(v: Value)
  {
    v == Null || v == Bool(false) || v == Number(0) || v == Str("")
  }

  predicate IsDigit(c: char)
  {
    '0' <= c <= '9'
  }

  predicate AllDigits(s: string)
  {
    forall i :: 0 <= i < |s| ==> IsDigit(s[i])
  }

  /** The value of a string of decimal digits, read left to right. */
  function DigitsValue(s: string): nat
    requires AllDigits(s)
  {
    if s == [] then 0
    else DigitsValue(s[..|s| - 1]) * 10 + (s[|s| - 1] as int - '0' as int)
  }

  function DigitChar(d: nat): (c: char)
    requires d < 10
    ensures IsDigit(c) && c as int - '0' as int == d
  {
    ('0' as int + d) as char
  }

  /** The decimal rendering of a non-negative integer, as `String(n)` gives it. */
  function ShowNat(n: nat): (r: string)
    ensures |r| > 0 && AllDigits(r)
    ensures n < 10 <==> |r| == 1
  {
    if n < 10 then [DigitChar(n)] else ShowNat(n / 10) + [DigitChar(n % 10)]
  }

  /** `String(i)` for an integer. */
  function ShowInt(i: int): (r: string)
    ensures |r| > 0
  {
    if i < 0 then "-" + ShowNat(-i) else ShowNat(i)
  }

  /** `String(n)` for a number. */
  function ShowNum(n: Num): (r: string)
    ensures |r| > 0
  {
    match n
    case NaN => "NaN"
    case Int(v) => ShowInt(v)
  }

  /** The characters `String.prototype.trim` (and so `Number(s)`) strips. */
  predicate IsJsSpace(c: char)
  {
    c == ' ' || c == '\t' || c == '\n' || c == '\r' || c == '\U{B}' || c == '\U{C}'
    || c == '\U{A0}' || c == '\U{FEFF}' || c == '\U{2028}' || c == '\U{2029}'
  }

  /**
   * `Number(s)` for a string: surrounding white space is ignored (peeled off
   * one character at a time), the empty string is 0, an optionally signed run
   * of decimal digits is its value, anything else is NaN.
   */
  function JsNumber(s: string): (r: Num)
    ensures AllDigits(s) && s != [] ==> r == Int(DigitsValue(s))
    decreases |s|
  {
    if s != [] && IsJsSpace(s[0]) then JsNumber(s[1..])
    else if s != [] && IsJsSpace(s[|s| - 1]) then JsNumber(s[..|s| - 1])
    else if s == [] then Int(0)
    else if s[0] == '-' && |s| > 1 && AllDigits(s[1..]) then Int(-(DigitsValue(s[1..]) as int))
    else if s[0] == '+' && |s| > 1 && AllDigits(s[1..]) then Int(DigitsValue(s[1..]))
    else if AllDigits(s) then Int(DigitsValue(s))
    else NaN
  }

  /** Without a `-` there is no minus sign to read, so `Number(s)` is NaN or non-negative. */
  lemma {:induction false} NumberWithoutMinus(s: string)
    requires '-' !in s
    ensures JsNumber(s).NaN? || JsNumber(s).v >= 0
    decreases |s|
  {
    if s != [] && IsJsSpace(s[0]) {
      assert forall c :: c in s[1..] ==> c in s;
      NumberWithoutMinus(s[1..]);
    } else if s != [] && IsJsSpace(s[|s| - 1]) {
      assert forall c :: c in s[..|s| - 1] ==> c in s;
      NumberWithoutMinus(s[..|s| - 1]);
    }
  }

  /** Reading back the decimal rendering of `n` gives `n`. */
  lemma {:induction false} DigitsValueShowNat(n: nat)
    ensures DigitsValue(ShowNat(n)) == n
  {
    if n >= 10 {
      var s := ShowNat(n / 10);
      assert ShowNat(n) == s + [DigitChar(n % 10)];
      assert (s + [DigitChar(n % 10)])[..|s|] == s;
      DigitsValueShowNat(n / 10);
    }
  }

  /** `Number(String(n)) === n` for every non-negative integer `n`. */
  lemma NumberOfShowNat(n: nat)
    ensures JsNumber(ShowNat(n)) == Int(n)
    ensures '-' !in ShowNat(n)
  {
    DigitsValueShowNat(n);
    var s := ShowNat(n);
    assert IsDigit(s[0]) && IsDigit(s[|s| - 1]);
  }

  /** Distinct numbers have distinct renderings. */
  lemma ShowNatInjective(m: nat, n: nat)
    requires ShowNat(m) == ShowNat(n)
    ensures m == n
  {
    DigitsValueShowNat(m);
    DigitsValueShowNat(n);
  }

  /** `String` is injective on non-negative integers. */
  lemma ShowNatInjectiveAll()
    ensures forall m: nat, n: nat :: ShowNat(m) == ShowNat(n) ==> m == n
  {
    forall m: nat, n: nat | ShowNat(m) == ShowNat(n)
      ensures m == n
    {
      ShowNatInjective(m, n);
    }
  }

  /** The string an array turns into under `String(array)`: its elements joined by commas. */
  function ArrayString(xs: seq<Value>): string
    decreases xs
  {
    if xs == [] then ""
    else
      var last := xs[|xs| - 1];
      var prefix := if |xs| == 1 then "" else ArrayString(xs[..|xs| - 1]) + ",";
      prefix + match last
        case Null => ""
        case Bool(b) => if b then "true" else "false"
        case Number(n) => ShowInt(n)
        case Str(s) => s
        case Arr(inner) => ArrayString(inner)
        case Obj(_) => "[object Object]"
  }

  /** JavaScript's ToNumber of a JSON value (what `<` and `Math.min` apply). */
  function ToNumber(v: Value): Num
  {
    match v
    case Null => Int(0)
    case Bool(b) => Int(if b then 1 else 0)
    case Number(n) => Int(n)
    case Str(s) => JsNumber(s)
    case Arr(xs) => JsNumber(ArrayString(xs))
    case Obj(_) => NaN
  }
}
