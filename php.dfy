/**
 * The fragment of PHP's value model that the gateway relies on: dynamically
 * typed values, array and property access, truthiness, string conversion and
 * the two library primitives (SHA-256, urlencode) that are left abstract.
 */
module Php {

  /** A PHP value. Numbers (int and float) are exact amounts of hundredths;
      a `Str` is any string, numeric or not. `Arr` is an associative array
      or, in a value that `json_decode` produced, a `stdClass` object;
      `List` is a list array. */
  datatype Value =
    | Null
    | Bool(b: bool)
    | Num(hundredths: int)
    | Str(s: string)
    | Arr(fields: map<string, Value>)
    | List(items: seq<Value>)

  /** What a PHP operation throws. `Fatal` stands for an Error that no
      `catch (Exception $e)` of the gateway handles. */
  datatype Failure =
    | Exception(message: string)
    | TypeError(message: string)
    | Fatal(message: string)

  datatype Result<T> = Ok(value: T) | Err(failure: Failure)

  datatype Option<T> = None | Some(value: T)

  /** Library code outside the model: `hash('sha256', …)` and `urlencode`. */
  datatype Foreign = Foreign(sha256: string -> string, urlencode: string -> string)

  /** `is_array($v)` */
  predicate IsArray(v: Value) {
    v.Arr? || v.List?
  }

  /** `key_exists($k, $v)` for the non-numeric key names used by the core:
      a key whose value is null still exists. */
  predicate HasKey(v: Value, k: string) {
    v.Arr? && k in v.fields
  }

  /** `$v[$k]` or `$v->k`; reading a missing key or a property of a
      non-object yields null (PHP only warns). */
  function Get(v: Value, k: string): (r: Value)
    ensures HasKey(v, k) ==> r == v.fields[k]
    ensures !HasKey(v, k) ==> r == Null
  {
    if v.Arr? && k in v.fields then v.fields[k] else Null
  }

  /** `isset($v)` for a value already read. */
  predicate IsSet(v: Value) {
    !v.Null?
  }

  /** PHP's conversion to bool. */
  predicate Truthy(v: Value) {
    match v
    case Null => false
    case Bool(b) => b
    case Num(h) => h != 0
    case Str(s) => s != "" && s != "0"
    case Arr(m) => m != map[]
    case List(xs) => xs != []
  }

  /** `empty($v)` */
  predicate Empty(v: Value) {
    !Truthy(v)
  }

  predicate IsDigit(c: char) {
    '0' <= c <= '9'
  }

  predicate AllDigits(s: string) {
    forall i :: 0 <= i < |s| ==> IsDigit(s[i])
  }

  function DigitChar(d: nat): (c: char)
    requires d < 10
    ensures IsDigit(c)
  {
    "0123456789"[d]
  }

  function DigitValue(c: char): (d: nat)
    requires IsDigit(c)
    ensures d < 10
  {
    (c as int - '0' as int) as nat
  }

  lemma DigitRoundTrip(d: nat)
    requires d < 10
    ensures DigitValue(DigitChar(d)) == d
  {
  }

  /** Decimal rendering of a natural number, without grouping separators. */
  function NatToString(n: nat): (s: string)
    ensures |s| > 0 && AllDigits(s)
  {
    if n < 10 then [DigitChar(n)] else NatToString(n / 10) + [DigitChar(n % 10)]
  }

  /** Decimal rendering of an integer: a leading '-' for negative numbers. */
  function IntToString(i: int): (s: string)
    ensures i >= 0 ==> s == NatToString(i)
    ensures i < 0 ==> s == "-" + NatToString(-i)
  {
    if i >= 0 then NatToString(i) else "-" + NatToString(-i)
  }

  /** Value of a non-empty string of decimal digits (leading zeros allowed). */
  function DigitsValue(s: string): nat
    requires |s| > 0 && AllDigits(s)
  {
    if |s| == 1 then DigitValue(s[0])
    else DigitsValue(s[..|s| - 1]) * 10 + DigitValue(s[|s| - 1])
  }

  /** A plain decimal numeral, as PHP's numeric-string test accepts it for
      the order ids the core handles. */
  function ParseNat(s: string): Option<nat>
  {
    if |s| > 0 && AllDigits(s) then Some(DigitsValue(s)) else None
  }

  lemma {:induction false} NatToStringRoundTrip(n: nat)
    ensures ParseNat(NatToString(n)) == Some(n)
  {
    if n < 10 {
      DigitRoundTrip(n);
    } else {
      var s := NatToString(n);
      assert s[..|s| - 1] == NatToString(n / 10);
      NatToStringRoundTrip(n / 10);
      DigitRoundTrip(n % 10);
    }
  }

  /** The hundredths a numeric string spells when PHP reads it as a number:
      a decimal numeral with at most two decimals ("12", "12.5", "12.50"). */
  function DecimalHundredths(s: string): Option<nat>
  {
    if ParseNat(s).Some? then Some(100 * ParseNat(s).value)
    else if |s| >= 3 && s[|s| - 2] == '.' && ParseNat(s[..|s| - 2]).Some? && IsDigit(s[|s| - 1]) then
      Some(100 * ParseNat(s[..|s| - 2]).value + 10 * DigitValue(s[|s| - 1]))
    else if |s| >= 4 && s[|s| - 3] == '.' && ParseNat(s[..|s| - 3]).Some? && ParseNat(s[|s| - 2..]).Some? then
      Some(100 * ParseNat(s[..|s| - 3]).value + ParseNat(s[|s| - 2..]).value)
    else None
  }

  /** The numeral for `w` units, `d` tenths and `e` hundredths, dropping
      trailing zero decimals. */
  function Numeral(w: nat, d: nat, e: nat): string
    requires d < 10 && e < 10
  {
    if d == 0 && e == 0 then NatToString(w)
    else if e == 0 then NatToString(w) + "." + [DigitChar(d)]
    else NatToString(w) + "." + [DigitChar(d), DigitChar(e)]
  }

  /** PHP's string form of a number: at most two decimals, no trailing zero. */
  function NumToString(h: int): string
  {
    var sign := if h < 0 then "-" else "";
    var a := if h < 0 then -h else h;
    sign + Numeral(a / 100, a % 100 / 10, a % 100 % 10)
  }

  /** `strval($v)`, which is also how `implode` and `.` convert their operands;
      arrays become "Array" (PHP warns). */
  function StrVal(v: Value): string
  {
    match v
    case Null => ""
    case Bool(b) => if b then "1" else ""
    case Num(h) => NumToString(h)
    case Str(s) => s
    case Arr(_) => "Array"
    case List(_) => "Array"
  }

  /** A numeral with one decimal. */
  lemma OneDecimal(w: string, d: nat)
    requires ParseNat(w).Some? && d < 10
    ensures DecimalHundredths(w + "." + [DigitChar(d)]) == Some(100 * ParseNat(w).value + 10 * d)
  {
    var s := w + "." + [DigitChar(d)];
    assert s[..|s| - 2] == w && s[|s| - 2] == '.' && s[|s| - 1] == DigitChar(d);
    assert !AllDigits(s) by { assert !IsDigit(s[|s| - 2]); }
    DigitRoundTrip(d);
  }

  /** A numeral with two decimals. */
  lemma TwoDecimals(w: string, d: nat, e: nat)
    requires ParseNat(w).Some? && d < 10 && e < 10
    ensures DecimalHundredths(w + "." + [DigitChar(d), DigitChar(e)]) == Some(100 * ParseNat(w).value + 10 * d + e)
  {
    var last := [DigitChar(d), DigitChar(e)];
    var s := w + "." + last;
    assert s[..|s| - 3] == w && s[|s| - 3] == '.' && s[|s| - 2..] == last;
    assert !AllDigits(s) by { assert !IsDigit(s[|s| - 3]); }
    assert !IsDigit(s[|s| - 2]) ==> false by { assert s[|s| - 2] == DigitChar(d); }
    DigitRoundTrip(d);
    DigitRoundTrip(e);
    assert last[..1] == [DigitChar(d)] && last[1] == DigitChar(e);
    assert AllDigits(last);
    assert DigitsValue(last[..1]) == d;
    assert DigitsValue(last) == 10 * d + e;
  }

  /** A numeral without decimals. */
  lemma NoDecimals(w: string)
    requires ParseNat(w).Some?
    ensures DecimalHundredths(w) == Some(100 * ParseNat(w).value)
  {
  }

  /** A numeral reads back as the amount it spells. */
  lemma NumeralRoundTrip(w: nat, d: nat, e: nat)
    requires d < 10 && e < 10
    ensures DecimalHundredths(Numeral(w, d, e)) == Some(100 * w + 10 * d + e)
  {
    NatToStringRoundTrip(w);
    if d == 0 && e == 0 {
      NoDecimals(NatToString(w));
    } else if e == 0 {
      OneDecimal(NatToString(w), d);
    } else {
      TwoDecimals(NatToString(w), d, e);
    }
  }

  /** PHP's string form of a non-negative number reads back as that number. */
  lemma NumStringRoundTrip(h: nat)
    ensures DecimalHundredths(NumToString(h)) == Some(h)
  {
    var w, d, e := h / 100, h % 100 / 10, h % 100 % 10;
    assert h == 100 * w + 10 * d + e;
    assert NumToString(h) == Numeral(w, d, e);
    NumeralRoundTrip(w, d, e);
  }

  lemma IntegralNumString(n: nat)
    ensures StrVal(Num(100 * n)) == NatToString(n)
  {
    var h := 100 * n;
    assert h / 100 == n && h % 100 == 0;
    assert NumToString(h) == "" + Numeral(n, 0, 0);
  }

  /** `$v == $lit` in PHP 8 for a literal that is not a numeric string. */
  predicate LooseEquals(v: Value, lit: string) {
    match v
    case Null => lit == ""
    case Bool(b) => b == Truthy(Str(lit))
    case Num(h) => NumToString(h) == lit
    case Str(s) => s == lit
    case Arr(_) => false
    case List(_) => false
  }

  /** Index `i` holds the first key of `keys` that `v` lacks. */
  predicate FirstMissingAt(keys: seq<string>, v: Value, i: int) {
    0 <= i < |keys| && !HasKey(v, keys[i]) && forall j :: 0 <= j < i ==> HasKey(v, keys[j])
  }

  /** `$v == $n` in PHP 8 for an integer literal `n`; a numeric string
      compares as the number it spells. */
  predicate LooseEqualsInt(v: Value, n: int) {
    match v
    case Null => n == 0
    case Bool(b) => b == (n != 0)
    case Num(h) => h == 100 * n
    case Str(s) => n >= 0 && DecimalHundredths(s) == Some(100 * n)
    case Arr(_) => false
    case List(_) => false
  }

  /** The first of `keys`, in order, that `key_exists` does not find in `v`. */
  function FirstMissing(keys: seq<string>, v: Value): (r: Option<string>)
    ensures r.None? <==> forall i :: 0 <= i < |keys| ==> HasKey(v, keys[i])
    ensures forall i :: FirstMissingAt(keys, v, i) ==> r == Some(keys[i])
  {
    if keys == [] then None
    else if !HasKey(v, keys[0]) then Some(keys[0])
    else
      var rest := FirstMissing(keys[1..], v);
      assert forall i :: FirstMissingAt(keys, v, i) ==> FirstMissingAt(keys[1..], v, i - 1) by {
        forall i | FirstMissingAt(keys, v, i) ensures FirstMissingAt(keys[1..], v, i - 1) {
          assert i != 0;
          forall j | 0 <= j < i - 1 ensures HasKey(v, keys[1..][j]) {
            assert keys[1..][j] == keys[j + 1];
          }
        }
      }
      assert (forall i :: 0 <= i < |keys[1..]| ==> HasKey(v, keys[1..][i])) ==>
             (forall i :: 0 <= i < |keys| ==> HasKey(v, keys[i])) by {
        if forall i :: 0 <= i < |keys[1..]| ==> HasKey(v, keys[1..][i]) {
          forall i | 0 <= i < |keys| ensures HasKey(v, keys[i]) {
            if i > 0 { assert keys[i] == keys[1..][i - 1]; }
          }
        }
      }
      rest
  }

  /** Converting a `stdClass` object to a string (`.`, `implode`, `strval`)
      throws this Error. */
  const ObjectToString := Fatal("Object of class stdClass could not be converted to string")

  /** Some value of a decoded message is an object. */
  predicate HasObject(vs: seq<Value>) {
    exists i :: 0 <= i < |vs| && vs[i].Arr?
  }

  /** The exception message both request validators throw for a missing key. */
  function MissingParameter(key: string): string {
    "Payout error: Missing required parameter \"" + key + "\"."
  }

  const WrongParameters := "Payout error: Wrong checkout parameters."
}
