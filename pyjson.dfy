/** JSON values as Python's `json` module hands them to the client (`None`,
    `bool`, `int`, `str`, `list`, `dict`), with Python's truthiness, `dict.get`
    and the `str()` text that f-strings insert. */
module PyJson {
  import opened Wrappers
  import PyText

  /** A decoded JSON value. An object keeps its members as the document lists
      them; for a name listed more than once, Python's decoder keeps the last
      value, and `Get` reads that one. */
  datatype Json =
    | JNull
    | JBool(b: bool)
    | JInt(i: int)
    | JStr(s: string)
    | JArray(items: seq<Json>)
    | JObject(fields: seq<(string, Json)>)

  /** Python's `bool(v)`: exactly `None`, `False`, `0`, `""` and the empty
      list and dict are false. */
  function Truthy(j: Json): (t: bool)
    ensures !t <==> j == JNull || j == JBool(false) || j == JInt(0) || j == JStr("") || j == JArray([]) || j == JObject([])
  {
    match j
    case JNull => false
    case JBool(b) => b
    case JInt(i) => i != 0
    case JStr(s) => s != ""
    case JArray(xs) => xs != []
    case JObject(fs) => fs != []
  }

  /** Python's `d.get(key)` on a decoded object: `None` when no member is
      named `key`, else the value of the last member so named (the decoder
      lets a later member overwrite an earlier one). */
  function Get(fields: seq<(string, Json)>, key: string): (r: Option<Json>)
    ensures r.None? <==> forall k :: 0 <= k < |fields| ==> fields[k].0 != key
    ensures r.Some? ==>
      exists k :: 0 <= k < |fields| && fields[k] == (key, r.value) && forall i :: k < i < |fields| ==> fields[i].0 != key
    decreases |fields|
  {
    if |fields| == 0 then None
    else if fields[|fields| - 1].0 == key then Some(fields[|fields| - 1].1)
    else Get(fields[..|fields| - 1], key)
  }

  /** Python's `repr(s)` of a string: single quotes, or double quotes when the
      text holds a single quote and no double quote; backslashes, the chosen
      quote and control characters are escaped. */
  function QuoteRepr(s: string): string
  {
    var q := if '\'' in s && '"' !in s then '"' else '\'';
    [q] + EscapeChars(s, q) + [q]
  }

  function EscapeChars(s: string, q: char): string
    decreases |s|
  {
    if |s| == 0 then ""
    else EscapeChar(s[0], q) + EscapeChars(s[1..], q)
  }

  function EscapeChar(c: char, q: char): string
  {
    if c == q || c == '\\' then ['\\', c]
    else if c == '\t' then "\\t"
    else if c == '\n' then "\\n"
    else if c == '\r' then "\\r"
    else if c as int < 0x20 || 0x7f <= c as int <= 0xa0 then "\\x" + [HexDigit(c as int / 16), HexDigit(c as int % 16)]
    else [c]
  }

  function HexDigit(d: nat): char
    requires d < 16
  {
    "0123456789abcdef"[d]
  }

  /** The value of a lower-case hex digit: the inverse of `HexDigit`. */
  function HexValue(c: char): (v: nat)
    ensures v < 16
  {
    if '0' <= c <= '9' then c as int - '0' as int
    else if 'a' <= c <= 'f' then c as int - 'a' as int + 10
    else 0
  }

  /** The character a one-letter escape stands for. */
  function Unescaped(c: char): char
  {
    if c == 't' then '\t' else if c == 'n' then '\n' else if c == 'r' then '\r' else c
  }

  /** Reading the text between the quotes of a string literal back: the
      inverse of `EscapeChars`. */
  function Unescape(t: string): string
    decreases |t|
  {
    if |t| == 0 then ""
    else if t[0] == '\\' && |t| >= 4 && t[1] == 'x' then [(HexValue(t[2]) * 16 + HexValue(t[3])) as char] + Unescape(t[4..])
    else if t[0] == '\\' && |t| >= 2 then [Unescaped(t[1])] + Unescape(t[2..])
    else [t[0]] + Unescape(t[1..])
  }

  /** Reading back one escaped character, followed by anything, yields it. */
  lemma UnescapeChar(c: char, q: char, rest: string)
    requires q == '\'' || q == '"'
    ensures Unescape(EscapeChar(c, q) + rest) == [c] + Unescape(rest)
  {
    var t := EscapeChar(c, q) + rest;
    if c as int < 0x20 || 0x7f <= c as int <= 0xa0 {
      if c != '\t' && c != '\n' && c != '\r' {
        var v := c as int;
        assert HexValue(HexDigit(v / 16)) == v / 16;
        assert HexValue(HexDigit(v % 16)) == v % 16;
        assert t[4..] == rest;
      } else {
        assert t[2..] == rest;
      }
    } else if c == q || c == '\\' {
      assert t[2..] == rest;
    } else {
      assert t[1..] == rest;
    }
  }

  /** Escaping loses nothing: the escaped text reads back as the original. */
  lemma {:induction false} UnescapeEscapeChars(s: string, q: char)
    requires q == '\'' || q == '"'
    ensures Unescape(EscapeChars(s, q)) == s
    decreases |s|
  {
    if |s| > 0 {
      UnescapeChar(s[0], q, EscapeChars(s[1..], q));
      UnescapeEscapeChars(s[1..], q);
      assert [s[0]] + s[1..] == s;
    }
  }

  /** `repr(s)` of a string is a literal: it opens and closes with the same
      quote, and what lies between reads back as `s`. */
  lemma QuoteReprRoundTrip(s: string)
    ensures var t := QuoteRepr(s);
      && |t| >= 2 && t[0] == t[|t| - 1] && (t[0] == '\'' || t[0] == '"')
      && Unescape(t[1..|t| - 1]) == s
  {
    var q := if '\'' in s && '"' !in s then '"' else '\'';
    var t := QuoteRepr(s);
    assert t[1..|t| - 1] == EscapeChars(s, q);
    UnescapeEscapeChars(s, q);
  }

  /** Python's `repr(v)` of a decoded value: how it is printed inside a list
      or dict. Its first character tells the kind of value apart. */
  function Repr(j: Json): (r: string)
    ensures |r| >= 1
    ensures r[0] == '[' <==> j.JArray?
    ensures r[0] == '{' <==> j.JObject?
    ensures r[0] == '\'' || r[0] == '"' <==> j.JStr?
    ensures r[0] == '-' || '0' <= r[0] <= '9' <==> j.JInt?
    decreases j
  {
    match j
    case JNull => "None"
    case JBool(b) => if b then "True" else "False"
    case JInt(i) => PyText.IntStr(i)
    case JStr(s) => QuoteRepr(s)
    case JArray(xs) =>
      "[" + PyText.Join(seq(|xs|, k requires 0 <= k < |xs| => Repr(xs[k])), ", ") + "]"
    case JObject(fs) =>
      "{" + PyText.Join(seq(|fs|, k requires 0 <= k < |fs| => QuoteRepr(fs[k].0) + ": " + Repr(fs[k].1)), ", ") + "}"
  }

  /** Python's `str(v)`, which is what `f"{v}"` inserts: a string as it is,
      anything else as its `repr`. Only the empty string prints as nothing. */
  function Str(j: Json): (r: string)
    ensures j.JStr? ==> r == j.s
    ensures !j.JStr? ==> r == Repr(j)
    ensures r == "" <==> j == JStr("")
  {
    if j.JStr? then j.s else Repr(j)
  }
}
