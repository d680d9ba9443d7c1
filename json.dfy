/** Decoded JSON values as the tools see them: flat records of named values, and the few
    Python built-ins applied to such values (`str()`, truthiness, typed `dict.get`). */
module Json {
  import opened Wrappers

  /** A JSON value after `json.load`: strings, integers, floats, booleans, null and arrays. */
  datatype Value =
    | Str(s: string)
    | Int(i: int)
    | Float(x: real)
    | Bool(b: bool)
    | Null
    | List(items: seq<Value>)

  /** One flat record (a Python dict decoded from a JSON object). */
  type Fields = map<string, Value>

  function DigitChar(d: nat): char
    requires d < 10
  {
    "0123456789"[d]
  }

  /** Decimal notation of a natural number, as `str(n)` prints it. */
  function ShowNat(n: nat): (r: string)
    ensures |r| >= 1
    ensures forall k :: 0 <= k < |r| ==> '0' <= r[k] <= '9'
    ensures n < 10 <==> |r| == 1
  {
    if n < 10 then [DigitChar(n)] else ShowNat(n / 10) + [DigitChar(n % 10)]
  }

  /** `str(i)` for a Python int. */
  function ShowInt(i: int): string {
    if i < 0 then "-" + ShowNat(-i) else ShowNat(i)
  }

  /** Up to `n` decimal digits of a fraction `0 <= f < 1`, stopping when the rest is zero. */
  function FractionDigits(f: real, n: nat): string
    requires 0.0 <= f < 1.0
    decreases n
  {
    if n == 0 || f == 0.0 then ""
    else
      var d := (f * 10.0).Floor;
      assert 0 <= d < 10;
      [DigitChar(d)] + FractionDigits(f * 10.0 - d as real, n - 1)
  }

  /** `str(x)` for a Python float, as positional decimal notation with at least one fraction
      digit ("3.0", "4.5", "-0.25"). */
  function ShowFloat(x: real): string {
    var a := if x < 0.0 then -x else x;
    var whole := a.Floor;
    var frac := a - whole as real;
    (if x < 0.0 then "-" else "") + ShowNat(whole) + "."
      + (if frac == 0.0 then "0" else FractionDigits(frac, 17))
  }

  /** A lower-case hexadecimal digit. */
  function HexDigit(d: nat): char
    requires d < 16
  {
    "0123456789abcdef"[d]
  }

  /** The quote `repr` puts around a string: double quotes when the text holds a single quote
      and no double quote, single quotes otherwise. */
  function QuoteFor(s: string): char {
    if '\'' in s && '"' !in s then '"' else '\''
  }

  /** How `repr` writes one character of a string between `quote`s: the backslash and the
      quote itself escaped, tab, newline and carriage return by letter, other ASCII control
      characters as `\xNN`, everything else as it is. */
  function EscapeChar(c: char, quote: char): string {
    if c == '\\' || c == quote then ['\\', c]
    else if c == '\t' then "\\t"
    else if c == '\n' then "\\n"
    else if c == '\r' then "\\r"
    else if c < ' ' || c as int == 127 then "\\x" + [HexDigit(c as int / 16), HexDigit(c as int % 16)]
    else [c]
  }

  /** The characters of `s` as `repr` writes them between `quote`s. */
  function Escape(s: string, quote: char): string {
    if s == [] then "" else EscapeChar(s[0], quote) + Escape(s[1..], quote)
  }

  /** `repr(s)` for a string. */
  function Repr(s: string): string {
    [QuoteFor(s)] + Escape(s, QuoteFor(s)) + [QuoteFor(s)]
  }

  /** The value of a hexadecimal digit, if it is one. */
  function HexValue(c: char): Option<nat> {
    if '0' <= c <= '9' then Some(c as int - '0' as int)
    else if 'a' <= c <= 'f' then Some(c as int - 'a' as int + 10)
    else None
  }

  /** Reads the body of a string literal back: the escapes `repr` writes stand for their
      characters, every other character for itself; None on an escape `repr` never writes. */
  function Unescape(t: string): Option<string>
    decreases |t|
  {
    if t == [] then Some("")
    else if t[0] != '\\' then
      match Unescape(t[1..])
      case None => None
      case Some(rest) => Some([t[0]] + rest)
    else if |t| < 2 then None
    else
      var e := t[1];
      if e == '\\' || e == '\'' || e == '"' || e == 't' || e == 'n' || e == 'r' then
        var c := if e == 't' then '\t' else if e == 'n' then '\n' else if e == 'r' then '\r' else e;
        match Unescape(t[2..])
        case None => None
        case Some(rest) => Some([c] + rest)
      else if e == 'x' && |t| >= 4 && HexValue(t[2]).Some? && HexValue(t[3]).Some? then
        var code := HexValue(t[2]).value * 16 + HexValue(t[3]).value;
        match Unescape(t[4..])
        case None => None
        case Some(rest) => Some([code as char] + rest)
      else None
  }

  /** Reading one escaped character back gives the character, whatever follows it. */
  lemma UnescapeChar(c: char, quote: char, t: string)
    requires quote == '\'' || quote == '"'
    ensures Unescape(EscapeChar(c, quote) + t) ==
      match Unescape(t) case None => None case Some(rest) => Some([c] + rest)
  {
    var e := EscapeChar(c, quote);
    if c == '\\' || c == quote || c == '\t' || c == '\n' || c == '\r' {
      assert (e + t)[2..] == t;
    } else if c < ' ' || c as int == 127 {
      var hi, lo := c as int / 16, c as int % 16;
      assert HexValue(HexDigit(hi)) == Some(hi);
      assert HexValue(HexDigit(lo)) == Some(lo);
      assert (e + t)[4..] == t;
    } else {
      assert (e + t)[1..] == t;
    }
  }

  /** `repr` loses nothing: the body it writes between the quotes reads back as the string. */
  lemma {:induction false} UnescapeEscape(s: string, quote: char)
    requires quote == '\'' || quote == '"'
    ensures Unescape(Escape(s, quote)) == Some(s)
  {
    if s != [] {
      UnescapeEscape(s[1..], quote);
      UnescapeChar(s[0], quote, Escape(s[1..], quote));
      assert [s[0]] + s[1..] == s;
    }
  }

  /** The quotes `repr` picks never need escaping unless the string holds both kinds. */
  lemma ReprQuote(s: string)
    ensures QuoteFor(s) !in s || ('\'' in s && '"' in s)
    ensures QuoteFor(s) == '\'' || QuoteFor(s) == '"'
  {
  }

  /** A string without backslashes, quotes or control characters is written as it is. */
  lemma {:induction false} EscapePlain(s: string, quote: char)
    requires forall k :: 0 <= k < |s| ==> s[k] != '\\' && s[k] != quote && ' ' <= s[k] && s[k] as int != 127
    ensures Escape(s, quote) == s
  {
    if s != [] {
      EscapePlain(s[1..], quote);
    }
  }

  /** Escaping works character by character. */
  lemma {:induction false} EscapeConcat(s: string, t: string, quote: char)
    ensures Escape(s + t, quote) == Escape(s, quote) + Escape(t, quote)
  {
    if s != [] {
      assert (s + t)[0] == s[0] && (s + t)[1..] == s[1..] + t;
      EscapeConcat(s[1..], t, quote);
      assert Escape(s + t, quote) == EscapeChar(s[0], quote) + Escape(s[1..] + t, quote);
    } else {
      assert s + t == t;
    }
  }

  /** `repr` picks double quotes for a string holding a single quote. */
  lemma ReprSingleQuote()
    ensures Repr("it's") == "\"it's\""
  {
    var s := "it's";
    assert s[2] == '\'';
    assert QuoteFor(s) == '"';
    EscapePlain(s, '"');
  }

  /** `repr` doubles a backslash. */
  lemma ReprBackslash()
    ensures Repr("a\\b") == "'a\\\\b'"
  {
    var s := "a\\b";
    assert s == "a" + "\\" + "b";
    assert QuoteFor(s) == '\'';
    EscapeConcat("a" + "\\", "b", '\'');
    EscapeConcat("a", "\\", '\'');
    EscapePlain("a", '\'');
    EscapePlain("b", '\'');
    assert Escape("\\", '\'') == "\\\\";
  }

  /** So a list holding such a string prints it that way. */
  lemma ShowListExample()
    ensures Show(List([Str("it's")])) == "[\"it's\"]"
  {
    ReprSingleQuote();
    assert ShowItems(List([Str("it's")]), 1) == "";
  }

  /** `str(v)`. Strings print bare; inside a list they print as `repr` writes them. */
  function Show(v: Value): string
    decreases v, 1
  {
    match v
    case Str(s) => s
    case Int(i) => ShowInt(i)
    case Float(x) => ShowFloat(x)
    case Bool(b) => if b then "True" else "False"
    case Null => "None"
    case List(items) => "[" + ShowItems(v, 0) + "]"
  }

  /** The items of list `v` from index `k` on, as `str(list)` joins them. */
  function ShowItems(v: Value, k: nat): string
    requires v.List? && k <= |v.items|
    decreases v, 0, |v.items| - k
  {
    if k == |v.items| then ""
    else
      var item := v.items[k];
      (if k > 0 then ", " else "")
        + (if item.Str? then Repr(item.s) else Show(item))
        + ShowItems(v, k + 1)
  }

  /** `bool(v)`. */
  predicate Truthy(v: Value) {
    match v
    case Str(s) => s != ""
    case Int(i) => i != 0
    case Float(x) => x != 0.0
    case Bool(b) => b
    case Null => false
    case List(items) => items != []
  }

  /** The number a numeric JSON value stands for (a bool is the int 0 or 1 in Python). */
  function AsNumber(v: Value): Option<real> {
    match v
    case Int(i) => Some(i as real)
    case Float(x) => Some(x)
    case Bool(b) => Some(if b then 1.0 else 0.0)
    case _ => None
  }

  /** `f.get(key, default)`. */
  function FieldOr(f: Fields, key: string, default: Value): Value {
    if key in f then f[key] else default
  }

  /** `f.get(key, default)` used as a string (the caller goes on to call a string method on it):
      None when the stored value is not a string, where Python raises AttributeError. */
  function TextOr(f: Fields, key: string, default: string): (r: Option<string>)
    ensures key !in f ==> r == Some(default)
    ensures key in f ==> (r.Some? <==> f[key].Str?)
    ensures key in f && f[key].Str? ==> r == Some(f[key].s)
  {
    match FieldOr(f, key, Str(default))
    case Str(s) => Some(s)
    case _ => None
  }

  /** `f.get(key, "")` used as a string (the caller goes on to call `.lower()` on it):
      None when the stored value is not a string, where Python raises AttributeError. */
  function TextField(f: Fields, key: string): (r: Option<string>)
    ensures key !in f ==> r == Some("")
    ensures key in f ==> (r.Some? <==> f[key].Str?)
    ensures key in f && f[key].Str? ==> r == Some(f[key].s)
  {
    TextOr(f, key, "")
  }

  /** `f.get(key, default)` used in arithmetic or in a comparison with a number:
      None when the stored value is not a number, where Python raises TypeError. */
  function NumberField(f: Fields, key: string, default: real): (r: Option<real>)
    ensures key !in f ==> r == Some(default)
    ensures key in f ==> r == AsNumber(f[key])
  {
    if key !in f then Some(default) else AsNumber(f[key])
  }
}
