/** JSON values as the request handlers see them after decoding, and the text
    Python's `str()` gives for them: that text is what the service uses as the
    key of a stored prediction. */
module PyJson {

  /** An outcome that either carries a value or the text of the exception raised. */
  datatype Result<T> = Ok(value: T) | Err(message: string)

  /** A decoded JSON value. `JFloat` carries the text Python's `str()` prints for
      the float (floating-point formatting is not part of this model); nothing
      here restricts that text to what a float can print, which always holds
      `.`, `e`, `inf` or `nan`, so `JFloat("5")` is a value the decoder never
      yields. An object keeps its members in document order; the decoder keeps
      one member per name, which the datatype does not enforce. */
  datatype Json =
    | JNull
    | JBool(b: bool)
    | JInt(i: int)
    | JFloat(text: string)
    | JString(s: string)
    | JArray(items: seq<Json>)
    | JObject(members: seq<(string, Json)>)

  predicate AllDigits(s: string) {
    forall i :: 0 <= i < |s| ==> '0' <= s[i] <= '9'
  }

  function DigitChar(d: nat): char
    requires d < 10
  {
    ('0' as int + d) as char
  }

  /** Decimal digits of `n`, most significant first, without leading zeros. */
  function NatToDecimal(n: nat): (s: string)
    ensures |s| >= 1 && AllDigits(s)
    ensures s[0] == '0' ==> n == 0
    decreases n
  {
    if n < 10 then [DigitChar(n)] else NatToDecimal(n / 10) + [DigitChar(n % 10)]
  }

  /** Python's `str()` of an integer: a minus sign for negatives, then the digits. */
  function IntToDecimal(n: int): (s: string)
    ensures |s| >= 1
    ensures s[0] == '-' <==> n < 0
    ensures n >= 0 ==> AllDigits(s)
    ensures n < 0 ==> AllDigits(s[1..]) && |s| >= 2
  {
    if n < 0 then "-" + NatToDecimal(-n) else NatToDecimal(n)
  }

  /** The number a string of decimal digits denotes. */
  function DigitsValue(s: string): nat
    requires AllDigits(s)
    decreases |s|
  {
    if s == [] then 0 else DigitsValue(s[..|s| - 1]) * 10 + (s[|s| - 1] as int - '0' as int)
  }

  /** Reading back the digits Python prints gives the number again. */
  lemma {:induction false} DecimalRoundTrip(n: nat)
    ensures DigitsValue(NatToDecimal(n)) == n
  {
    if n >= 10 {
      DecimalRoundTrip(n / 10);
      var s := NatToDecimal(n / 10) + [DigitChar(n % 10)];
      assert s[..|s| - 1] == NatToDecimal(n / 10);
    }
  }

  /** Two different integer ids never print to the same key. */
  lemma {:induction false} IntKeysInjective(a: int, b: int)
    requires PyStr(JInt(a)) == PyStr(JInt(b))
    ensures a == b
  {
    assert PyStr(JInt(a)) == IntToDecimal(a);
    assert PyStr(JInt(b)) == IntToDecimal(b);
    DecimalInjective(a, b);
  }

  lemma {:induction false} DigitsInjective(a: nat, b: nat)
    requires NatToDecimal(a) == NatToDecimal(b)
    ensures a == b
  {
    DecimalRoundTrip(a);
    DecimalRoundTrip(b);
  }

  lemma {:induction false} DecimalInjective(a: int, b: int)
    requires IntToDecimal(a) == IntToDecimal(b)
    ensures a == b
  {
    var s := IntToDecimal(a);
    if a < 0 {
      assert b < 0;
      assert s == "-" + NatToDecimal(-a) && s == "-" + NatToDecimal(-b);
      assert s[1..] == NatToDecimal(-a) && s[1..] == NatToDecimal(-b);
      DigitsInjective(-a, -b);
    } else {
      assert b >= 0;
      DigitsInjective(a, b);
    }
  }

  /** An integer id and the string holding its decimal digits print to the same key. */
  lemma IntKeyIsItsText(n: int)
    ensures PyStr(JInt(n)) == PyStr(JString(IntToDecimal(n)))
    ensures PyStr(JString(IntToDecimal(n))) == IntToDecimal(n)
  {
  }

  /** Python's escape of one character inside a quoted string literal using quote `q`. */
  function EscapeChar(c: char, q: char): string {
    if c == '\\' then "\\\\"
    else if c == q then ['\\', q]
    else if c == '\n' then "\\n"
    else if c == '\r' then "\\r"
    else if c == '\t' then "\\t"
    else [c]
  }

  function Escape(s: string, q: char): string
    decreases |s|
  {
    if s == [] then "" else EscapeChar(s[0], q) + Escape(s[1..], q)
  }

  /** Python's `repr()` of a string: single quotes unless the text holds a single
      quote and no double quote. */
  function QuoteString(s: string): string {
    var q := if '\'' in s && '"' !in s then '"' else '\'';
    [q] + Escape(s, q) + [q]
  }

  /** Python's `str()` of a decoded JSON value. */
  function PyStr(v: Json): string
    decreases v, 0
  {
    match v
    case JNull => "None"
    case JBool(b) => if b then "True" else "False"
    case JInt(i) => IntToDecimal(i)
    case JFloat(text) => text
    case JString(s) => s
    case JArray(items) => "[" + ReprItems(items) + "]"
    case JObject(members) => "{" + ReprMembers(members) + "}"
  }

  /** Python's `repr()` of a decoded JSON value, as used inside lists and dicts. */
  function PyRepr(v: Json): string
    decreases v, 1
  {
    if v.JString? then QuoteString(v.s) else PyStr(v)
  }

  /** The elements of a list, each through `repr()`, separated by ", ". */
  function ReprItems(items: seq<Json>): string
    decreases items
  {
    if items == [] then ""
    else PyRepr(items[0]) + (if |items| == 1 then "" else ", " + ReprItems(items[1..]))
  }

  /** The members of a dict as `'name': repr(value)`, separated by ", ". */
  function ReprMembers(members: seq<(string, Json)>): string
    decreases members
  {
    if members == [] then ""
    else
      var (name, value) := members[0];
      assert value < members[0];
      QuoteString(name) + ": " + PyRepr(value)
        + (if |members| == 1 then "" else ", " + ReprMembers(members[1..]))
  }

  /** `null`, `true` and `false` ids name the same rows as the strings "None",
      "True" and "False". */
  lemma NullAndBoolKeys()
    ensures PyStr(JNull) == PyStr(JString("None"))
    ensures PyStr(JBool(true)) == PyStr(JString("True"))
    ensures PyStr(JBool(false)) == PyStr(JString("False"))
  {
  }

  /** A list id prints its elements through `repr()`: `[1, ["x"]]` gives `[1, ['x']]`. */
  lemma ListKeyExample()
    ensures PyStr(JArray([JInt(1), JArray([JString("x")])])) == "[1, ['x']]"
  {
    assert QuoteString("x") == "'x'";
  }

  /** A dict id prints quoted names and `repr()` values in document order:
      `{"a": null, "b": true}` gives `{'a': None, 'b': True}`. */
  lemma DictKeyExample()
    ensures PyStr(JObject([("a", JNull), ("b", JBool(true))])) == "{'a': None, 'b': True}"
  {
    assert QuoteString("a") == "'a'";
    assert QuoteString("b") == "'b'";
  }

  /** `repr()` of a string holding a single quote and no double quote uses
      double quotes and leaves the single quote alone. */
  lemma DoubleQuotedRepr()
    ensures QuoteString("it's") == "\"it's\""
  {
    var s := "it's";
    assert s[2] == '\'' && '\'' in s;
    assert forall i :: 0 <= i < |s| ==> s[i] != '"';
    assert Escape(s[4..], '"') == "";
    assert Escape(s[3..], '"') == "s";
    assert Escape(s[2..], '"') == "'s";
    assert Escape(s[1..], '"') == "t's";
    assert Escape(s, '"') == "it's";
  }

  /** `repr()` of a string holding both quotes keeps single quotes and escapes
      the single quote inside. */
  lemma EscapedQuoteRepr()
    ensures QuoteString("a'\"") == "'a\\'\"'"
  {
    var s := "a'\"";
    assert s[2] == '"' && '"' in s;
    assert Escape(s[3..], '\'') == "";
    assert Escape(s[2..], '\'') == "\"";
    assert Escape(s[1..], '\'') == "\\'\"";
    assert Escape(s, '\'') == "a\\'\"";
  }
}
