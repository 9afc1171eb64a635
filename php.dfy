/**
 * The pieces of PHP's runtime the client relies on: the values it inspects, property
 * reads and `isset` on decoded JSON, `empty`, string conversion, `ltrim`, and the
 * end-of-subject anchor of PCRE patterns.
 */
module Php {

  /**
   * A PHP value as the client sees it: an argument handed to a setter, or a response
   * body after json_decode (JSON objects become stdClass objects, JSON arrays lists).
   * A \DateTime object is known here only by what its format('c') returns.
   */
  datatype Value =
    | Null
    | Bool(truth: bool)
    | Int(number: int)
    | Str(text: string)
    | List(items: seq<Value>)
    | Object(fields: map<string, Value>)
    | DateTime(iso: string)

  /** `$v->name`: the property of an object, or null when it is missing or `$v` is not an object. */
  function Property(v: Value, name: string): Value
  {
    if v.Object? && name in v.fields then v.fields[name] else Null
  }

  /** `isset($v->name)`: the property exists and is not null. */
  predicate IsSet(v: Value, name: string)
  {
    !Property(v, name).Null?
  }

  /** `empty($v)`: the value converts to false; for strings that is "" and also "0". */
  predicate Empty(v: Value)
  {
    match v
    case Null => true
    case Bool(b) => !b
    case Int(n) => n == 0
    case Str(s) => s == "" || s == "0"
    case List(items) => items == []
    case Object(_) => false
    case DateTime(_) => false
  }

  predicate IsDigit(c: char)
  {
    '0' <= c <= '9'
  }

  predicate AllDigits(s: string)
  {
    forall i :: 0 <= i < |s| ==> IsDigit(s[i])
  }

  function DigitChar(d: nat): (c: char)
    requires d < 10
    ensures IsDigit(c)
  {
    ('0' as int + d) as char
  }

  function DigitValue(c: char): (d: nat)
    requires IsDigit(c)
    ensures d < 10 && DigitChar(d) == c
  {
    c as int - '0' as int
  }

  /** The number a string of decimal digits denotes. */
  function DecimalValue(s: string): nat
    requires AllDigits(s)
  {
    if s == [] then 0 else 10 * DecimalValue(s[..|s| - 1]) + DigitValue(s[|s| - 1])
  }

  /** The decimal rendering of a natural number, without leading zeros. */
  function NatToDecimal(n: nat): (s: string)
    ensures s != [] && AllDigits(s)
    ensures |s| > 1 ==> s[0] != '0'
    ensures DecimalValue(s) == n
    decreases n
  {
    if n < 10 then [DigitChar(n)]
    else
      var prefix := NatToDecimal(n / 10);
      var s := prefix + [DigitChar(n % 10)];
      assert s[..|s| - 1] == prefix;
      s
  }

  /** The string PHP makes of an integer: an optional minus sign, then the decimal digits. */
  function IntToString(n: int): (s: string)
    ensures s != [] && (s[0] == '-' <==> n < 0)
    ensures n >= 0 ==> AllDigits(s) && DecimalValue(s) == n
    ensures n < 0 ==> AllDigits(s[1..]) && DecimalValue(s[1..]) == -n
    ensures n >= 0 && |s| > 1 ==> s[0] != '0'
    ensures n < 0 ==> |s| > 1 && s[1] != '0'
  {
    if n < 0 then
      var digits := NatToDecimal(-n);
      assert ("-" + digits)[1..] == digits;
      "-" + digits
    else NatToDecimal(n)
  }

  /**
   * String conversion as `.` and the exception constructor perform it on the scalar
   * values: null and false give "", true gives "1", integers their decimal form.
   */
  function ToText(v: Value): string
  {
    match v
    case Null => ""
    case Bool(b) => if b then "1" else ""
    case Int(n) => IntToString(n)
    case Str(s) => s
    case List(_) => "Array"
    case Object(_) => ""
    case DateTime(_) => ""
  }

  /** `ltrim(s, c)`: s without every one of its leading c characters. */
  function LTrim(s: string, c: char): (r: string)
    ensures |r| <= |s| && r == s[|s| - |r|..]
    ensures forall i :: 0 <= i < |s| - |r| ==> s[i] == c
    ensures r == [] || r[0] != c
  {
    if s != [] && s[0] == c then LTrim(s[1..], c) else s
  }

  /**
   * PCRE's `$` without the D modifier, after a match of the first n characters: the
   * subject ends there, or only a single final newline follows.
   */
  predicate EndsAt(s: string, n: nat)
  {
    |s| == n || (|s| == n + 1 && s[n] == '\n')
  }
}
