/** Python's `int(v)` and `float(v)` on decoded JSON values, the conversions the tools apply to
    their numeric parameters. A string argument is parsed as decimal text (surrounding
    whitespace and one sign allowed); anything Python refuses gives None. */
module Numbers {
  import opened Wrappers
  import opened Text
  import opened Json

  /** `int(x)` for a float: truncation toward zero (not Dafny's floor). */
  function Trunc(x: real): (r: int)
    ensures r as real <= x < r as real + 1.0 || r as real - 1.0 < x <= r as real
    ensures 0.0 <= x ==> 0 <= r && r as real <= x < r as real + 1.0
    ensures x < 0.0 ==> r <= 0 && r as real - 1.0 < x <= r as real
  {
    if x >= 0.0 then x.Floor else -((-x).Floor)
  }

  predicate IsDigit(c: char) {
    '0' <= c <= '9'
  }

  predicate AllDigits(s: string) {
    forall i :: 0 <= i < |s| ==> IsDigit(s[i])
  }

  /** The number a string of decimal digits spells. */
  function DigitsValue(s: string): nat
    requires AllDigits(s)
  {
    if s == [] then 0 else DigitsValue(s[..|s| - 1]) * 10 + (s[|s| - 1] as int - '0' as int)
  }

  /** The digit character of `d` stands for `d`. */
  lemma DigitCharValue(d: nat)
    requires d < 10
    ensures IsDigit(DigitChar(d)) && DigitChar(d) as int - '0' as int == d
  {
  }

  /** The digits `str(n)` prints spell `n` again. */
  lemma {:induction false} DigitsValueShowNat(n: nat)
    ensures AllDigits(ShowNat(n)) && DigitsValue(ShowNat(n)) == n
  {
    var s := ShowNat(n);
    DigitCharValue(n % 10);
    if n < 10 {
      assert s == [DigitChar(n)] && s[..0] == [];
    } else {
      var q, d := n / 10, n % 10;
      DigitsValueShowNat(q);
      assert s == ShowNat(q) + [DigitChar(d)];
      assert s[..|s| - 1] == ShowNat(q);
      assert DigitsValue(s) == DigitsValue(ShowNat(q)) * 10 + d;
      assert q * 10 + d == n;
    }
  }

  /** Splits a leading sign off: the factor it stands for and the rest of the text. */
  function SplitSign(t: string): (int, string) {
    if t != [] && t[0] == '-' then (-1, t[1..])
    else if t != [] && t[0] == '+' then (1, t[1..])
    else (1, t)
  }

  /** `int(s)` for a string: optional whitespace, an optional sign, then one or more digits. */
  function ParseInt(s: string): Option<int> {
    var (sign, body) := SplitSign(Strip(s));
    if body != [] && AllDigits(body) then Some(sign * DigitsValue(body)) else None
  }

  /** `str(i)` is a sign, when negative, followed by the digits of `|i|`. */
  lemma SplitShowInt(i: int)
    ensures var n: nat := if i < 0 then -i else i;
      SplitSign(ShowInt(i)) == (if i < 0 then -1 else 1, ShowNat(n))
    ensures forall k :: 0 <= k < |ShowInt(i)| ==> !IsSpace(ShowInt(i)[k])
  {
    var n: nat := if i < 0 then -i else i;
    var digits := ShowNat(n);
    var s := ShowInt(i);
    if i < 0 {
      assert s == "-" + digits;
      assert s[1..] == digits;
      forall k | 0 <= k < |s| ensures !IsSpace(s[k]) {
        if k > 0 {
          assert s[k] == digits[k - 1];
        }
      }
    }
  }

  /** `int(str(i)) == i`. */
  lemma ParseIntShowInt(i: int)
    ensures ParseInt(ShowInt(i)) == Some(i)
  {
    var n: nat := if i < 0 then -i else i;
    DigitsValueShowNat(n);
    SplitShowInt(i);
    NoSpaceStrip(ShowInt(i));
  }

  /** A string with no whitespace is its own strip. */
  lemma NoSpaceStrip(s: string)
    requires forall k :: 0 <= k < |s| ==> !IsSpace(s[k])
    ensures Strip(s) == s
  {
    StripSlice(s);
    StripDropsSpace(s);
    StripEnds(s);
    if s != [] {
      assert !IsSpace(s[0]) && !IsSpace(s[|s| - 1]);
    }
  }

  /** The value of the fraction digits `d` in `0.d`. */
  function FractionValue(d: string): real
    requires AllDigits(d)
  {
    if d == [] then 0.0 else ((d[0] as int - '0' as int) as real + FractionValue(d[1..])) / 10.0
  }

  /** `float(s)` for a string in positional decimal notation: optional whitespace and sign,
      digits, optionally a point and more digits, with at least one digit in all. */
  function ParseDecimal(s: string): Option<real> {
    var (sign, body) := SplitSign(Strip(s));
    match IndexOf(body, '.')
    case None =>
      if body != [] && AllDigits(body) then Some(sign as real * DigitsValue(body) as real) else None
    case Some(p) =>
      var whole, frac := body[..p], body[p + 1..];
      if (whole != [] || frac != []) && AllDigits(whole) && AllDigits(frac) then
        Some(sign as real * (DigitsValue(whole) as real + FractionValue(frac)))
      else None
  }

  /** `int(v)`: numbers truncate toward zero, strings are parsed, None and lists raise. */
  function IntOf(v: Value): (r: Option<int>)
    ensures v.Int? ==> r == Some(v.i)
    ensures v.Float? ==> r == Some(Trunc(v.x))
    ensures v.Null? || v.List? ==> r.None?
  {
    match v
    case Int(i) => Some(i)
    case Float(x) => Some(Trunc(x))
    case Bool(b) => Some(if b then 1 else 0)
    case Str(s) => ParseInt(s)
    case _ => None
  }

  /** `float(v)`: numbers convert exactly, strings are parsed, None and lists raise. */
  function FloatOf(v: Value): (r: Option<real>)
    ensures AsNumber(v).Some? ==> r == AsNumber(v)
    ensures v.Null? || v.List? ==> r.None?
  {
    match v
    case Str(s) => ParseDecimal(s)
    case _ => AsNumber(v)
  }

  /** `int(params.get(key, default))`. */
  function IntParam(params: Fields, key: string, default: int): Option<int> {
    if key in params then IntOf(params[key]) else Some(default)
  }

  /** `float(params.get(key, default))`. */
  function FloatParam(params: Fields, key: string, default: real): Option<real> {
    if key in params then FloatOf(params[key]) else Some(default)
  }
}
