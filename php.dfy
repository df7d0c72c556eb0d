/** PHP values as the plugin sees them in Mailster's settings, in transients and in mail headers,
    together with the PHP conversions and loose comparisons that its branches depend on. */
module Php {

  datatype Option<+T> = None | Some(value: T)

  /** A PHP value: null, a boolean, an integer, a string or a list (a PHP array with keys 0, 1, ...). */
  datatype Value = Null | Bool(b: bool) | Int(i: int) | Str(s: string) | List(items: seq<Value>)

  function Min(x: int, y: int): int
  {
    if x <= y then x else y
  }

  function Max(x: int, y: int): int
  {
    if x >= y then x else y
  }

  /** PHP's conversion to boolean: null, false, 0, "", "0" and the empty array are falsy. */
  predicate Truthy(v: Value)
  {
    match v
    case Null => false
    case Bool(b) => b
    case Int(i) => i != 0
    case Str(s) => s != "" && s != "0"
    case List(xs) => xs != []
  }

  predicate IsDigit(c: char)
  {
    '0' <= c <= '9'
  }

  /** Length of the run of decimal digits at the start of `s`. */
  function DigitRun(s: string): (n: nat)
    ensures n <= |s|
    ensures forall i :: 0 <= i < n ==> IsDigit(s[i])
    ensures n < |s| ==> !IsDigit(s[n])
  {
    if s == [] || !IsDigit(s[0]) then 0 else 1 + DigitRun(s[1..])
  }

  /** The number written by a string of decimal digits. */
  function DigitsValue(d: string): nat
    requires forall i :: 0 <= i < |d| ==> IsDigit(d[i])
  {
    if d == [] then 0
    else
      assert IsDigit(d[|d| - 1]);
      10 * DigitsValue(d[..|d| - 1]) + (d[|d| - 1] as int - '0' as int)
  }

  /** The digits after an optional leading minus sign. */
  function Magnitude(s: string): string
  {
    if |s| > 0 && s[0] == '-' then s[1..] else s
  }

  /** PHP's integer conversion of a string: an optional '-' and the leading digits; 0 when there are none. */
  function StrToInt(s: string): int
  {
    var t := Magnitude(s);
    var n: int := DigitsValue(t[..DigitRun(t)]);
    if |s| > 0 && s[0] == '-' then -n else n
  }

  /** A numeric string: an optional '-' followed by one or more digits and nothing else. */
  predicate IsNumeric(s: string)
  {
    var t := Magnitude(s);
    |t| > 0 && DigitRun(t) == |t|
  }

  /** The integer a setting stands for where the plugin computes with it (`*`, `/`, `min`): for null,
      booleans, integers and numeric strings this is the number PHP computes with. PHP 8 throws a
      TypeError on arithmetic with a non-numeric string or an array; the model continues with the
      leading digits of such a string (0 when there are none) and with 0 or 1 for an array. */
  function ToInt(v: Value): int
  {
    match v
    case Null => 0
    case Bool(b) => if b then 1 else 0
    case Int(i) => i
    case Str(s) => StrToInt(s)
    case List(xs) => if xs == [] then 0 else 1
  }

  /** PHP 8's loose comparison `v == n` against an integer literal `n`. */
  predicate EqualsInt(v: Value, n: int)
  {
    match v
    case Null => n == 0
    case Bool(b) => b == (n != 0)
    case Int(i) => i == n
    case Str(s) => IsNumeric(s) && StrToInt(s) == n
    case List(_) => false
  }

  /** PHP 8's loose comparison `v == w` against a non-empty, non-numeric string literal `w`. */
  predicate EqualsWord(v: Value, w: string)
    requires w != "" && !IsNumeric(w)
  {
    match v
    case Null => false
    case Bool(b) => b
    case Int(_) => false
    case Str(s) => s == w
    case List(_) => false
  }

  /** Reading `key` from a settings array: the stored value, or `fallback` when the key is unset or null.
      This is Mailster's `mailster_option(key, fallback)` and, with fallback Null, PHP's `$options[key]`. */
  function Lookup(m: map<string, Value>, key: string, fallback: Value): Value
  {
    if key in m && m[key] != Null then m[key] else fallback
  }

  /** Numeric strings convert to the number they spell, so a port or interval typed into a form
      compares and computes like the integer. */
  lemma {:induction false} NumericStringValue(d: string)
    requires |d| > 0 && forall i :: 0 <= i < |d| ==> IsDigit(d[i])
    ensures IsNumeric(d) && StrToInt(d) == DigitsValue(d)
    ensures d[0] != '-'
  {
    DigitRunAll(d);
    assert d[..|d|] == d;
  }

  lemma {:induction false} DigitRunAll(d: string)
    requires forall i :: 0 <= i < |d| ==> IsDigit(d[i])
    ensures DigitRun(d) == |d|
  {
    if d != [] {
      DigitRunAll(d[1..]);
    }
  }
}
