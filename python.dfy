/** The slice of Python's value semantics that the integration relies on:
    decoded JSON payloads, keyword-argument dictionaries, truthiness,
    `dict.get`, subscripting, `in`, `int()` and `float()`, and the
    exceptions these raise. Python floats are modelled as exact reals. */
module Python {

  datatype Option<+T> = None | Some(value: T)

  /** A decoded JSON value (also used for keyword arguments and the
      results of Python properties). */
  datatype Json =
    | JNull
    | JBool(b: bool)
    | JInt(i: int)
    | JReal(r: real)
    | JStr(s: string)
    | JList(items: seq<Json>)
    | JObj(fields: map<string, Json>)

  /** The exception classes the modelled code can raise or catch.
      `IOError` stands for the OS/transport errors, `OtherError` for any
      other exception raised by code outside the model. */
  datatype Exc = KeyError | IndexError | AttributeError | TypeError | ValueError | IOError | OtherError

  /** The result of evaluating a Python expression: a value or a raised exception. */
  datatype Outcome<+T> = Ok(value: T) | Raise(exc: Exc) {
    predicate IsFailure() { Raise? }
    function PropagateFailure<U>(): Outcome<U>
      requires Raise?
    {
      Raise(exc)
    }
    function Extract(): T
      requires Ok?
    {
      value
    }
  }

  const EmptyObj: Json := JObj(map[])

  /** Python's `bool(x)`. */
  predicate Truthy(j: Json) {
    match j
    case JNull => false
    case JBool(b) => b
    case JInt(i) => i != 0
    case JReal(r) => r != 0.0
    case JStr(s) => s != []
    case JList(l) => l != []
    case JObj(m) => m != map[]
  }

  /** `type(x) in (float, int)`; `bool` is a distinct type. */
  predicate IsNumber(j: Json) {
    j.JInt? || j.JReal?
  }

  /** Python's `x == n` for an int literal `n` (True == 1, 3.0 == 3, "3" != 3). */
  predicate EqualsInt(j: Json, n: int) {
    match j
    case JInt(i) => i == n
    case JReal(r) => r == n as real
    case JBool(b) => (if b then 1 else 0) == n
    case _ => false
  }

  /** `x.get(k, d)`: only dictionaries have `get`. */
  function Get(j: Json, k: string, d: Json): (r: Outcome<Json>)
    ensures r.Ok? <==> j.JObj?
    ensures j.JObj? && k in j.fields ==> r == Ok(j.fields[k])
    ensures j.JObj? && k !in j.fields ==> r == Ok(d)
  {
    match j
    case JObj(m) => Ok(if k in m then m[k] else d)
    case _ => Raise(AttributeError)
  }

  /** A chain `x.get(k1, inner).get(k2, inner)...get(kn, last)`. */
  function Dig(j: Json, path: seq<string>, inner: Json, last: Json): Outcome<Json>
    decreases |path|
  {
    if |path| == 0 then Ok(j)
    else if |path| == 1 then Get(j, path[0], last)
    else
      var next :- Get(j, path[0], inner);
      Dig(next, path[1..], inner, last)
  }

  /** `x[k]` for a string key. */
  function Subscript(j: Json, k: string): (r: Outcome<Json>)
    ensures r.Ok? <==> j.JObj? && k in j.fields
    ensures r.Ok? ==> r.value == j.fields[k]
    ensures j.JObj? && k !in j.fields ==> r == Raise(KeyError)
  {
    match j
    case JObj(m) => if k in m then Ok(m[k]) else Raise(KeyError)
    case _ => Raise(TypeError)
  }

  /** `x[n]` for a non-negative int index; dictionaries here have string keys only. */
  function IndexAt(j: Json, n: nat): (r: Outcome<Json>)
    ensures j.JList? && n < |j.items| ==> r == Ok(j.items[n])
    ensures j.JList? && n >= |j.items| ==> r == Raise(IndexError)
    ensures j.JObj? ==> r == Raise(KeyError)
  {
    match j
    case JList(l) => if n < |l| then Ok(l[n]) else Raise(IndexError)
    case JStr(s) => if n < |s| then Ok(JStr([s[n]])) else Raise(IndexError)
    case JObj(_) => Raise(KeyError)
    case _ => Raise(TypeError)
  }

  predicate StartsWith(s: string, p: string) {
    |p| <= |s| && s[..|p|] == p
  }

  /** Substring test, Python's `p in s` for strings. */
  predicate Contains(s: string, p: string)
    decreases |s|
  {
    StartsWith(s, p) || (|s| > 0 && Contains(s[1..], p))
  }

  lemma {:induction false} ContainsAt(s: string, p: string, i: nat)
    requires i + |p| <= |s| && s[i..i + |p|] == p
    ensures Contains(s, p)
    decreases i
  {
    if i == 0 {
      assert s[..|p|] == p;
    } else {
      assert s[1..][i - 1..i - 1 + |p|] == s[i..i + |p|];
      ContainsAt(s[1..], p, i - 1);
    }
  }

  /** `key in container` for a string key. */
  function In(key: string, container: Json): (r: Outcome<bool>)
    ensures container.JObj? ==> r == Ok(key in container.fields)
    ensures container.JList? ==> r == Ok(JStr(key) in container.items)
    ensures r.Raise? <==> !(container.JObj? || container.JList? || container.JStr?)
  {
    match container
    case JObj(m) => Ok(key in m)
    case JList(l) => Ok(JStr(key) in l)
    case JStr(s) => Ok(Contains(s, key))
    case _ => Raise(TypeError)
  }

  // ---------------------------------------------------------------------
  // int() and float() of strings

  /** ASCII whitespace (`Py_ISSPACE`: space, \t, \n, \v, \f, \r), the
      whitespace `bytes.fromhex` skips. */
  predicate IsSpace(c: char) {
    c == ' ' || 9 <= c as int <= 13
  }

  /** Whitespace as `str.isspace()` knows it: the ASCII whitespace, the
      separators U+001C to U+001F, and the Unicode spaces and line separators.
      `int()` and `float()` ignore it around a number. */
  predicate IsWhitespace(c: char) {
    IsSpace(c) || 0x1c <= c as int <= 0x1f || c as int == 0x85 || c as int == 0xa0 ||
    c as int == 0x1680 || 0x2000 <= c as int <= 0x200a || c as int == 0x2028 || c as int == 0x2029 ||
    c as int == 0x202f || c as int == 0x205f || c as int == 0x3000
  }

  predicate IsDigit(c: char) {
    '0' <= c <= '9'
  }

  predicate AllDigits(s: string) {
    forall i :: 0 <= i < |s| ==> IsDigit(s[i])
  }

  function TrimLeft(s: string): (r: string)
    ensures |r| <= |s|
    ensures r == [] || !IsWhitespace(r[0])
    decreases |s|
  {
    if |s| > 0 && IsWhitespace(s[0]) then TrimLeft(s[1..]) else s
  }

  function TrimRight(s: string): (r: string)
    ensures |r| <= |s|
    ensures r == [] || !IsWhitespace(r[|r| - 1])
    decreases |s|
  {
    if |s| > 0 && IsWhitespace(s[|s| - 1]) then TrimRight(s[..|s| - 1]) else s
  }

  function Trim(s: string): string {
    TrimRight(TrimLeft(s))
  }

  /** Every `_` of `s` stands between two digits, the only place where
      `int()` and `float()` accept one (PEP 515). */
  predicate UnderscoresBetweenDigits(s: string) {
    forall i :: 0 <= i < |s| && s[i] == '_' ==> 0 < i < |s| - 1 && IsDigit(s[i - 1]) && IsDigit(s[i + 1])
  }

  /** `s` without its underscores. */
  function DropUnderscores(s: string): (r: string)
    ensures (forall i :: 0 <= i < |s| ==> s[i] != '_') ==> r == s
    decreases |s|
  {
    if s == [] then []
    else (if s[0] == '_' then [] else [s[0]]) + DropUnderscores(s[1..])
  }

  function DigitValue(c: char): nat
    requires IsDigit(c)
  {
    (c as int) - ('0' as int)
  }

  /** The value of a string of decimal digits, most significant first. */
  function DigitsValue(ds: string): nat
    requires AllDigits(ds)
    decreases |ds|
  {
    if ds == [] then 0 else DigitsValue(ds[..|ds| - 1]) * 10 + DigitValue(ds[|ds| - 1])
  }

  /** A sign and the text after it. */
  function SplitSign(t: string): (bool, string) {
    if |t| > 0 && (t[0] == '-' || t[0] == '+') then (t[0] == '-', t[1..]) else (false, t)
  }

  /** `int(s)` for a string: surrounding whitespace, an optional sign and
      at least one ASCII digit, with single underscores allowed between
      digits. */
  function ParseInt(s: string): Option<int> {
    var t := Trim(s);
    if !UnderscoresBetweenDigits(t) then None
    else
      var (neg, body) := SplitSign(DropUnderscores(t));
      if |body| > 0 && AllDigits(body) then
        Some(if neg then -(DigitsValue(body) as int) else DigitsValue(body))
      else None
  }

  /** `int(x)`. Floats are truncated toward zero; bool is an int. */
  function PyInt(j: Json): (r: Outcome<int>)
    ensures j.JInt? ==> r == Ok(j.i)
    ensures j.JNull? || j.JList? || j.JObj? ==> r == Raise(TypeError)
  {
    match j
    case JInt(i) => Ok(i)
    case JBool(b) => Ok(if b then 1 else 0)
    case JReal(x) => Ok(if x >= 0.0 then x.Floor else -((-x).Floor))
    case JStr(s) =>
      (match ParseInt(s)
       case Some(n) => Ok(n)
       case None => Raise(ValueError))
    case _ => Raise(TypeError)
  }

  /** The decimal digits of a natural number, without leading zeros. */
  function NatToDecimal(n: nat): (r: string)
    ensures |r| > 0 && AllDigits(r)
    decreases n
  {
    var d := ['0' + ((n % 10) as char)];
    if n < 10 then d else NatToDecimal(n / 10) + d
  }

  lemma {:induction false} NatToDecimalValue(n: nat)
    ensures DigitsValue(NatToDecimal(n)) == n
    decreases n
  {
    var r := NatToDecimal(n);
    if n >= 10 {
      NatToDecimalValue(n / 10);
      assert r[..|r| - 1] == NatToDecimal(n / 10);
    }
  }

  lemma NoSpaceTrimmed(s: string)
    requires forall i :: 0 <= i < |s| ==> !IsWhitespace(s[i])
    ensures Trim(s) == s
  {
    assert TrimLeft(s) == s;
  }

  /** `int(str(n))` gives back `n`: the decimal round trip the payload codes rely on. */
  lemma IntOfDecimalString(n: nat)
    ensures PyInt(JStr(NatToDecimal(n))) == Ok(n)
  {
    var s := NatToDecimal(n);
    ParseDigits(s);
    NatToDecimalValue(n);
  }

  /** A non-empty run of digits reads as its value. */
  lemma ParseDigits(s: string)
    requires |s| > 0 && AllDigits(s)
    ensures ParseInt(s) == Some(DigitsValue(s))
  {
    NoSpaceTrimmed(s);
    assert forall i :: 0 <= i < |s| ==> s[i] != '_';
    assert UnderscoresBetweenDigits(s);
    assert DropUnderscores(s) == s;
    assert SplitSign(s) == (false, s);
  }

  /** An underscore between digits is accepted, as `int("1_0") == 10`. */
  lemma IntWithUnderscore()
    ensures ParseInt("1_0") == Some(10)
  {
    assert TrimLeft("1_0") == "1_0" && TrimRight("1_0") == "1_0";
    assert UnderscoresBetweenDigits("1_0");
    assert "1_0"[1..] == "_0" && "_0"[1..] == "0" && "0"[1..] == "";
    assert DropUnderscores("0") == "0";
    assert DropUnderscores("_0") == "0";
    assert DropUnderscores("1_0") == "10";
    assert Trim("1_0") == "1_0";
    assert SplitSign("10") == (false, "10");
    assert "10"[..1] == "1" && "1"[..0] == "";
    assert DigitsValue("1") == 1;
    assert DigitsValue("10") == 10;
  }

  /** Unicode whitespace around the number is ignored. */
  lemma IntWithUnicodeSpace()
    ensures ParseInt("3\U{1c}") == Some(3)
    ensures ParseInt("\U{a0}-7") == Some(-7)
  {
    assert "3\U{1c}"[..1] == "3";
    assert TrimLeft("3\U{1c}") == "3\U{1c}";
    assert TrimRight("3\U{1c}") == "3";
    assert "\U{a0}-7"[1..] == "-7" && TrimLeft("\U{a0}-7") == "-7";
    assert TrimRight("-7") == "-7";
    assert DropUnderscores("-7") == "-7";
    assert "-7"[1..] == "7";
  }

  /** An underscore that does not stand between two digits is rejected. */
  lemma MisplacedUnderscore()
    ensures ParseInt("_1") == None && ParseInt("1_") == None && ParseInt("1__0") == None
  {
    assert !UnderscoresBetweenDigits("_1") by { assert "_1"[0] == '_'; }
    assert !UnderscoresBetweenDigits("1_") by { assert "1_"[1] == '_'; }
    assert !UnderscoresBetweenDigits("1__0") by { assert "1__0"[1] == '_' && "1__0"[2] == '_'; }
    assert TrimLeft("_1") == "_1" && TrimRight("_1") == "_1";
    assert TrimLeft("1_") == "1_" && TrimRight("1_") == "1_";
    assert TrimLeft("1__0") == "1__0" && TrimRight("1__0") == "1__0";
  }

  /** `float(s)` for a string: whitespace, an optional sign, digits with an
      optional fractional part (at least one digit overall) and an optional
      exponent, with single underscores allowed between digits. */
  function ParseFloat(s: string): Option<real> {
    var t := Trim(s);
    if !UnderscoresBetweenDigits(t) then None
    else
      var (neg, body) := SplitSign(DropUnderscores(t));
      match ParseUnsignedFloat(body)
      case Some(x) => Some(if neg then -x else x)
      case None => None
  }

  /** A positive exponent scales the mantissa up: `float("2e3") == 2000.0`. */
  lemma FloatWithExponent()
    ensures ParseFloat("2e3") == Some(2000.0)
  {
    var t := "2e3";
    assert t[0] == '2' && t[2] == '3';
    assert TrimLeft(t) == t;
    assert TrimRight(t) == t;
    assert UnderscoresBetweenDigits(t);
    assert t[1..] == "e3" && "e3"[1..] == "3" && "3"[1..] == "";
    assert DropUnderscores(t) == t;
    assert SplitSign(t) == (false, t);
    assert ExponentAt(t) == 1;
    assert ParseUnsignedDecimal(t[..1]) == Some(2.0) by {
      assert t[..1] == "2" && "2"[..0] == "";
      assert DigitsValue("2") == 2;
    }
    assert ParseExponent(t[2..]) == Some(3) by {
      assert t[2..] == "3" && "3"[..0] == "";
      assert DigitsValue("3") == 3;
    }
    assert Pow10(3) == 1000;
  }

  /** A negative exponent scales it down: `float("5E-1") == 0.5`. */
  lemma FloatWithNegativeExponent()
    ensures ParseFloat("5E-1") == Some(0.5)
  {
    var t := "5E-1";
    assert t[0] == '5' && t[2] == '-' && t[3] == '1';
    assert TrimLeft(t) == t;
    assert TrimRight(t) == t;
    assert UnderscoresBetweenDigits(t);
    assert t[1..] == "E-1" && "E-1"[1..] == "-1" && "-1"[1..] == "1" && "1"[1..] == "";
    assert DropUnderscores(t) == t;
    assert SplitSign(t) == (false, t);
    assert ExponentAt(t) == 1;
    assert ParseUnsignedDecimal(t[..1]) == Some(5.0) by {
      assert t[..1] == "5" && "5"[..0] == "";
      assert DigitsValue("5") == 5;
    }
    assert ParseExponent(t[2..]) == Some(-1) by {
      assert t[2..] == "-1" && SplitSign("-1") == (true, "1");
      assert "1"[..0] == "" && DigitsValue("1") == 1;
    }
    assert Pow10(1) == 10;
  }

  function Pow10(k: nat): (r: nat)
    ensures r >= 1
  {
    if k == 0 then 1 else 10 * Pow10(k - 1)
  }

  /** A decimal number with an optional exponent `e` or `E`. */
  function ParseUnsignedFloat(body: string): Option<real> {
    var i := ExponentAt(body);
    if i == |body| then ParseUnsignedDecimal(body)
    else
      match (ParseUnsignedDecimal(body[..i]), ParseExponent(body[i + 1..]))
      case (Some(m), Some(k)) => Some(if k >= 0 then m * (Pow10(k) as real) else m / (Pow10(-k) as real))
      case _ => None
  }

  /** The position of the first `e` or `E`, or the length when there is none. */
  function ExponentAt(s: string): (i: nat)
    ensures i <= |s|
    ensures i < |s| ==> s[i] == 'e' || s[i] == 'E'
    ensures forall k :: 0 <= k < i ==> s[k] != 'e' && s[k] != 'E'
    decreases |s|
  {
    if s == [] || s[0] == 'e' || s[0] == 'E' then 0 else 1 + ExponentAt(s[1..])
  }

  /** An exponent: an optional sign and at least one digit. */
  function ParseExponent(s: string): Option<int> {
    var (neg, ds) := SplitSign(s);
    if |ds| > 0 && AllDigits(ds) then Some(if neg then -(DigitsValue(ds) as int) else DigitsValue(ds))
    else None
  }

  function ParseUnsignedDecimal(body: string): Option<real> {
    if exists i :: 0 <= i < |body| && body[i] == '.' then
      var i := DotIndex(body);
      var whole := body[..i];
      var frac := body[i + 1..];
      if |whole| + |frac| > 0 && AllDigits(whole) && AllDigits(frac) then
        Some(DigitsValue(whole) as real + (DigitsValue(frac) as real) / (Pow10(|frac|) as real))
      else None
    else if |body| > 0 && AllDigits(body) then Some(DigitsValue(body) as real)
    else None
  }

  function DotIndex(s: string): (i: nat)
    requires exists i :: 0 <= i < |s| && s[i] == '.'
    ensures i < |s| && s[i] == '.'
    ensures forall k :: 0 <= k < i ==> s[k] != '.'
    decreases |s|
  {
    if s[0] == '.' then 0 else
      assert exists i :: 0 <= i < |s[1..]| && s[1..][i] == '.' by {
        var j :| 0 <= j < |s| && s[j] == '.';
        assert s[1..][j - 1] == '.';
      }
      1 + DotIndex(s[1..])
  }

  /** `float(x)`. */
  function PyFloat(j: Json): (r: Outcome<real>)
    ensures j.JInt? ==> r == Ok(j.i as real)
    ensures j.JReal? ==> r == Ok(j.r)
  {
    match j
    case JInt(i) => Ok(i as real)
    case JReal(x) => Ok(x)
    case JBool(b) => Ok(if b then 1.0 else 0.0)
    case JStr(s) =>
      (match ParseFloat(s)
       case Some(x) => Ok(x)
       case None => Raise(ValueError))
    case _ => Raise(TypeError)
  }

  /** `x / 10` (true division). */
  function DivideBy10(j: Json): (r: Outcome<Json>)
    ensures j.JInt? ==> r == Ok(JReal(j.i as real / 10.0))
    ensures j.JStr? || j.JList? || j.JObj? || j.JNull? ==> r == Raise(TypeError)
  {
    match j
    case JInt(i) => Ok(JReal(i as real / 10.0))
    case JReal(x) => Ok(JReal(x / 10.0))
    case JBool(b) => Ok(JReal(if b then 0.1 else 0.0))
    case _ => Raise(TypeError)
  }

  /** `s * n` for a string or list `s`. */
  function Repeat<T>(s: seq<T>, n: nat): (r: seq<T>)
    ensures |r| == |s| * n
  {
    if n == 0 then [] else s + Repeat(s, n - 1)
  }

  /** `x * n` for a non-negative int `n`: numbers multiply (a bool counts as
      0 or 1), strings and lists repeat, anything else raises TypeError. */
  function Times(j: Json, n: nat): (r: Outcome<Json>)
    ensures j.JInt? ==> r == Ok(JInt(j.i * n))
    ensures j.JStr? ==> r.Ok? && r.value.JStr? && |r.value.s| == |j.s| * n
    ensures r.Raise? <==> j.JNull? || j.JObj?
  {
    match j
    case JInt(i) => Ok(JInt(i * n))
    case JBool(b) => Ok(JInt(if b then n else 0))
    case JReal(x) => Ok(JReal(x * n as real))
    case JStr(s) => Ok(JStr(Repeat(s, n)))
    case JList(l) => Ok(JList(Repeat(l, n)))
    case _ => Raise(TypeError)
  }

  /** Keyword arguments, and other dictionaries with string keys. */
  type Kw = map<string, Json>

  /** The keyword-argument lookup `kwargs.get(k, d)` on a dictionary. */
  function KwGet(kw: Kw, k: string, d: Json): Json {
    if k in kw then kw[k] else d
  }
}
