/**
 * The small slice of PHP's value semantics the CSRF gate relies on:
 * the values a request attribute, a body parameter or a decoded payload
 * can hold, `empty()`, `isset`, the `(array)` cast and the coercion a
 * `?string` return type applies in PHP's default (non-strict) mode.
 */
module Php {

  datatype Option<+T> = None | Some(value: T) {
    function GetOr(default: T): T {
      match this
      case Some(v) => v
      case None => default
    }
  }

  /** A PHP call either returns a value or raises an error nothing catches. */
  datatype Outcome<+T> = Returns(value: T) | Throws

  /**
   * A PHP value. Arrays and objects map keys to values; PHP treats the
   * integer key 5 and the string key "5" as the same key, so an integer
   * key is written here as its decimal string. Entry order is not kept:
   * nothing the gate decides depends on it. Floats are not modelled.
   */
  datatype Value =
    | Null
    | Bool(b: bool)
    | Int(i: int)
    | Str(s: string)
    | Arr(entries: map<string, Value>)
    | Obj(props: map<string, Value>)

  /** What `(array)` yields: a PHP array, keyed as above. */
  type PhpArray = map<string, Value>

  predicate IsScalar(v: Value) {
    v.Bool? || v.Int? || v.Str?
  }

  /** PHP's `empty()`: null, false, 0, "", "0" and the empty array; never an object. */
  function Empty(v: Value): (r: bool)
    ensures r <==> v in {Null, Bool(false), Int(0), Str(""), Str("0"), Arr(map[])}
  {
    assert v.Arr? && |v.entries| == 0 ==> v.entries == map[];
    match v
    case Null => true
    case Bool(b) => !b
    case Int(i) => i == 0
    case Str(s) => s == "" || s == "0"
    case Arr(m) => |m| == 0
    case Obj(_) => false
  }

  /** A string is non-empty in PHP's sense exactly when it is neither "" nor "0". */
  lemma EmptyString(s: string)
    ensures Empty(Str(s)) <==> s in {"", "0"}
  {
  }

  /**
   * The `(array)` cast: null becomes the empty array, an array is kept,
   * an object becomes the array of its properties and a scalar becomes
   * a one-element list holding it under key 0.
   */
  function ToArray(v: Value): (a: PhpArray)
    ensures |a| == 0 <==> v in {Null, Arr(map[]), Obj(map[])}
    ensures IsScalar(v) ==> a.Keys == {"0"} && a["0"] == v
  {
    match v
    case Null => map[]
    case Arr(m) => m
    case Obj(p) => p
    case _ => map["0" := v]
  }

  /** Casting the cast again changes nothing: its result is already an array. */
  lemma ToArrayIdempotent(v: Value)
    ensures ToArray(Arr(ToArray(v))) == ToArray(v)
    ensures ToArray(Obj(ToArray(v))) == ToArray(v)
  {
  }

  function DigitChar(d: nat): (c: char)
    requires d < 10
    ensures '0' <= c <= '9'
    ensures c as int - '0' as int == d
  {
    "0123456789"[d]
  }

  /** The decimal digits of n, most significant first. */
  function Digits(n: nat): (r: string)
    ensures |r| > 0
    ensures forall k :: 0 <= k < |r| ==> '0' <= r[k] <= '9'
    ensures r[0] == '0' <==> n == 0
    ensures n < 10 <==> |r| == 1
  {
    if n < 10 then [DigitChar(n)] else Digits(n / 10) + [DigitChar(n % 10)]
  }

  /** How PHP writes an integer as a string. */
  function DecimalString(i: int): (r: string)
    ensures r != []
    ensures r == "0" <==> i == 0
    ensures r[0] == '-' <==> i < 0
  {
    if i < 0 then "-" + Digits(-i) else Digits(i)
  }

  /** A non-empty run of decimal digits. */
  predicate IsDigits(s: string) {
    s != [] && forall k :: 0 <= k < |s| ==> '0' <= s[k] <= '9'
  }

  /** The number a run of decimal digits denotes, read from the last digit back. */
  function DigitsValue(s: string): nat
    requires IsDigits(s)
  {
    var last := s[|s| - 1] as int - '0' as int;
    if |s| == 1 then last else DigitsValue(s[..|s| - 1]) * 10 + last
  }

  /** The integer a decimal string denotes, with an optional leading "-"; None for anything else. */
  function DecimalValue(s: string): Option<int> {
    if s != [] && s[0] == '-' && IsDigits(s[1..]) then Some(-(DigitsValue(s[1..]) as int))
    else if IsDigits(s) then Some(DigitsValue(s))
    else None
  }

  /** Reading back the digits of n gives n. */
  lemma {:induction false} DigitsRoundTrip(n: nat)
    ensures DigitsValue(Digits(n)) == n
  {
    if n >= 10 {
      var s := Digits(n);
      assert s[..|s| - 1] == Digits(n / 10);
      DigitsRoundTrip(n / 10);
    }
  }

  /** The decimal form of an integer parses back to that integer. */
  lemma {:induction false} DecimalRoundTrip(i: int)
    ensures DecimalValue(DecimalString(i)) == Some(i)
  {
    if i < 0 {
      var n: nat := -i;
      var d := Digits(n);
      assert DecimalString(i) == "-" + d;
      assert DecimalValue("-" + d) == Some(i) by {
        NegativeRoundTrip(n);
      }
    } else {
      assert DecimalString(i) == Digits(i);
      UnsignedRoundTrip(i);
    }
  }

  /** A minus sign before the digits of n reads back as -n. */
  lemma NegativeRoundTrip(n: nat)
    ensures DecimalValue("-" + Digits(n)) == Some(-(n as int))
  {
    SignedDigits(Digits(n));
    DigitsRoundTrip(n);
  }

  /** The bare digits of n read back as n. */
  lemma UnsignedRoundTrip(n: nat)
    ensures DecimalValue(Digits(n)) == Some(n)
  {
    SignedDigits(Digits(n));
    DigitsRoundTrip(n);
  }

  /** A run of digits, bare or after a minus sign, denotes its value or its negation. */
  lemma SignedDigits(d: string)
    requires IsDigits(d)
    ensures DecimalValue(d) == Some(DigitsValue(d) as int)
    ensures DecimalValue("-" + d) == Some(-(DigitsValue(d) as int))
  {
    assert ("-" + d)[1..] == d;
  }

  /**
   * The value a function declared `: ?string` hands back when its body
   * returns v in PHP's coercive typing mode: a string as it is, an
   * integer in decimal, true as "1", false as ""; an array or an object
   * raises a TypeError.
   */
  function CoerceToString(v: Value): (r: Outcome<string>)
    requires v != Null
    ensures r.Returns? <==> IsScalar(v)
    ensures v.Str? ==> r == Returns(v.s)
    ensures v.Bool? ==> r == Returns(if v.b then "1" else "")
    ensures v.Int? ==> r.Returns? && DecimalValue(r.value) == Some(v.i)
  {
    match v
    case Str(s) => Returns(s)
    case Int(i) => DecimalRoundTrip(i); Returns(DecimalString(i))
    case Bool(b) => Returns(if b then "1" else "")
    case _ => Throws
  }
}
