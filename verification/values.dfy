/**
 * Raw argument values as `json.load` produces them, and the two conversions,
 * `int(v)` and `float(v)`, that the handler annotations ask for.
 */
module Values {
  import opened Wrappers

  /** A JSON value. `Other` is a JSON array or object. Floats are finite. */
  datatype Value =
    | Str(s: string)
    | Int(i: int)
    | Float(x: real)
    | Bool(b: bool)
    | Null
    | Other

  /** The two parameter annotations the handlers use. */
  datatype Ty = IntTy | FloatTy

  /** The three outcomes of calling `int(v)` or `float(v)`. */
  datatype Conversion = Converted(v: Value) | ValueError | TypeError

  predicate IsDigit(c: char) { '0' <= c <= '9' }

  predicate AllDigits(s: string) { forall i :: 0 <= i < |s| ==> IsDigit(s[i]) }

  function DigitChar(d: nat): (c: char)
    requires d < 10
    ensures IsDigit(c)
  {
    ('0' as int + d) as char
  }

  /** The value of a string of decimal digits, most significant first. */
  function DigitsValue(s: string): nat
    requires AllDigits(s)
  {
    if s == [] then 0 else DigitsValue(s[..|s| - 1]) * 10 + (s[|s| - 1] as int - '0' as int)
  }

  /** The decimal digits of `n`, as Python's `str(n)` writes them for n >= 0. */
  function NatToDigits(n: nat): (s: string)
    ensures |s| >= 1 && AllDigits(s)
  {
    if n < 10 then [DigitChar(n)] else NatToDigits(n / 10) + [DigitChar(n % 10)]
  }

  lemma {:induction false} DigitsRoundTrip(n: nat)
    ensures DigitsValue(NatToDigits(n)) == n
  {
    if n >= 10 {
      var s := NatToDigits(n / 10) + [DigitChar(n % 10)];
      assert s[..|s| - 1] == NatToDigits(n / 10);
      DigitsRoundTrip(n / 10);
    }
  }

  /** Distinct numbers have distinct decimal renderings (so `f'arg{i}'` keys never collide). */
  lemma NatToDigitsInjective(m: nat, n: nat)
    requires NatToDigits(m) == NatToDigits(n)
    ensures m == n
  {
    DigitsRoundTrip(m);
    DigitsRoundTrip(n);
  }

  /** `str(n)` for an int. */
  function IntToString(n: int): string
  {
    if n < 0 then "-" + NatToDigits(-n) else NatToDigits(n)
  }

  /**
   * `int(s)` for a str: an optional sign followed by one or more ASCII digits;
   * every other string makes `int` raise ValueError (None here).
   */
  function ParseInt(s: string): Option<int>
  {
    if |s| > 0 && (s[0] == '-' || s[0] == '+') then
      var body := s[1..];
      if |body| > 0 && AllDigits(body) then
        var magnitude: int := DigitsValue(body);
        Some(if s[0] == '-' then -magnitude else magnitude)
      else None
    else if |s| > 0 && AllDigits(s) then Some(DigitsValue(s))
    else None
  }

  lemma ParseIntRoundTrip(n: int)
    ensures ParseInt(IntToString(n)) == Some(n)
  {
    if n < 0 {
      var d := NatToDigits(-n);
      var s := "-" + d;
      assert IntToString(n) == s;
      assert s[0] == '-' && s[1..] == d;
      DigitsRoundTrip(-n);
    } else {
      var s := NatToDigits(n);
      assert IntToString(n) == s && IsDigit(s[0]);
      DigitsRoundTrip(n);
    }
  }

  /** A string with a letter in it, such as "RANDOM", "UP" or "DOWN", is not an int. */
  lemma ParseIntRejectsLetters(s: string, k: nat)
    requires k < |s| && !IsDigit(s[k]) && s[k] != '-' && s[k] != '+'
    ensures ParseInt(s) == None
  {
    if k > 0 && (s[0] == '-' || s[0] == '+') {
      assert s[1..][k - 1] == s[k];
    }
  }

  function Pow10(n: nat): (r: nat)
    ensures r >= 1
  {
    if n == 0 then 1 else 10 * Pow10(n - 1)
  }

  /** The position of the first `c` in `s`. */
  function FirstIndex(s: string, c: char): (i: nat)
    requires c in s
    ensures i < |s| && s[i] == c && c !in s[..i]
  {
    if s[0] == c then 0 else 1 + FirstIndex(s[1..], c)
  }

  /** `float(s)` without sign: digits, or digits '.' digits with a digit on at least one side. */
  function ParseUnsignedFloat(s: string): Option<real>
  {
    if |s| > 0 && AllDigits(s) then Some(DigitsValue(s) as real)
    else if '.' in s then
      var k := FirstIndex(s, '.');
      var whole, frac := s[..k], s[k + 1..];
      if AllDigits(whole) && AllDigits(frac) && |whole| + |frac| > 0 then
        Some(DigitsValue(whole) as real + DigitsValue(frac) as real / Pow10(|frac|) as real)
      else None
    else None
  }

  /** `float(s)` for a str, limited to plain decimal notation; None stands for ValueError. */
  function ParseFloat(s: string): Option<real>
  {
    if |s| > 0 && (s[0] == '-' || s[0] == '+') then
      match ParseUnsignedFloat(s[1..])
      case Some(x) => Some(if s[0] == '-' then -x else x)
      case None => None
    else ParseUnsignedFloat(s)
  }

  /** Every string `int` accepts, `float` accepts too, with the same value. */
  lemma ParseFloatExtendsParseInt(s: string)
    requires ParseInt(s).Some?
    ensures ParseFloat(s) == Some(ParseInt(s).value as real)
  {
  }

  /** `int(x)` for a float truncates toward zero. */
  function Truncate(x: real): (n: int)
    ensures 0.0 <= x ==> 0.0 <= n as real <= x < n as real + 1.0
    ensures x < 0.0 ==> n as real - 1.0 < x <= n as real <= 0.0
  {
    if x >= 0.0 then x.Floor else -((-x).Floor)
  }

  /** Python's `int(v)` (IntTy) or `float(v)` (FloatTy) applied to a JSON value. */
  function Convert(t: Ty, v: Value): (r: Conversion)
    ensures r.Converted? ==> (t == IntTy ==> r.v.Int?) && (t == FloatTy ==> r.v.Float?)
    ensures r.TypeError? <==> v.Null? || v.Other?
    ensures r.ValueError? <==> v.Str? && (if t == IntTy then ParseInt(v.s).None? else ParseFloat(v.s).None?)
  {
    match v
    case Str(s) =>
      if t == IntTy then
        (match ParseInt(s) case Some(n) => Converted(Int(n)) case None => ValueError)
      else
        (match ParseFloat(s) case Some(x) => Converted(Float(x)) case None => ValueError)
    case Int(i) => if t == IntTy then Converted(v) else Converted(Float(i as real))
    case Float(x) => if t == IntTy then Converted(Int(Truncate(x))) else Converted(v)
    case Bool(b) =>
      var n := if b then 1 else 0;
      if t == IntTy then Converted(Int(n)) else Converted(Float(n as real))
    case Null => TypeError
    case Other => TypeError
  }

  /** Converting twice is converting once: `int(int(v)) == int(v)`, likewise for float. */
  lemma ConvertIdempotent(t: Ty, v: Value)
    requires Convert(t, v).Converted?
    ensures Convert(t, Convert(t, v).v) == Convert(t, v)
  {
  }

  /** A value of the annotated type is left as it is. */
  lemma ConvertKeepsTyped(t: Ty, v: Value)
    requires (t == IntTy && v.Int?) || (t == FloatTy && v.Float?)
    ensures Convert(t, v) == Converted(v)
  {
  }
}
