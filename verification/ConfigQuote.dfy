/** Quoted strings as the definition printer and parser meet them: `json.Marshal` writes values,
    `strconv.Quote` writes keys, `strconv.Unquote` and the JSON decoder read them back
    (internal/session/definitions.go:706-775, definition_config.go:14-75). */
module ConfigQuote {
  import opened Basics
  import opened ConfigText

  // ----- hexadecimal digits -----

  function HexDigit(n: nat): char
    requires n < 16
  {
    if n < 10 then '0' + n as char else 'a' + (n - 10) as char
  }

  function HexValue(c: char): Option<nat> {
    if '0' <= c <= '9' then Some(c as int - '0' as int)
    else if 'a' <= c <= 'f' then Some(c as int - 'a' as int + 10)
    else if 'A' <= c <= 'F' then Some(c as int - 'A' as int + 10)
    else None
  }

  /** The last `width` hexadecimal digits of `n`. */
  function Hex(n: nat, width: nat): (s: string)
    ensures |s| == width
  {
    if width == 0 then "" else Hex(n / 16, width - 1) + [HexDigit(n % 16)]
  }

  function HexRead(s: string): Option<nat> {
    if s == "" then Some(0)
    else
      var high, low := HexRead(s[..|s| - 1]), HexValue(s[|s| - 1]);
      if high.Some? && low.Some? then Some(16 * high.value + low.value) else None
  }

  function Pow16(k: nat): nat { if k == 0 then 1 else 16 * Pow16(k - 1) }

  lemma {:induction false} HexReads(n: nat, width: nat)
    requires n < Pow16(width)
    ensures HexRead(Hex(n, width)) == Some(n)
  {
    if width > 0 {
      HexReads(n / 16, width - 1);
      var s := Hex(n, width);
      assert s[..|s| - 1] == Hex(n / 16, width - 1) && s[|s| - 1] == HexDigit(n % 16);
      assert HexValue(HexDigit(n % 16)) == Some(n % 16);
    }
  }

  // ----- writing -----

  /** One character as `json.Marshal` writes it inside a string. */
  function JsonEscape(c: char): string {
    if c == '"' then "\\\"" else if c == '\\' then "\\\\"
    else if c == '\U{8}' then "\\b" else if c == '\U{c}' then "\\f"
    else if c == '\n' then "\\n" else if c == '\r' then "\\r" else if c == '\t' then "\\t"
    else if c < ' ' || c == '<' || c == '>' || c == '&' || c == '\U{2028}' || c == '\U{2029}' then "\\u" + Hex(c as int, 4)
    else [c]
  }

  /** One character as `strconv.Quote` writes it; `printable` is `strconv.IsPrint`. */
  function GoEscape(printable: char -> bool, c: char): string {
    if c == '"' then "\\\"" else if c == '\\' then "\\\\"
    else if printable(c) then [c]
    else if c == '\U{7}' then "\\a" else if c == '\U{8}' then "\\b" else if c == '\U{c}' then "\\f"
    else if c == '\n' then "\\n" else if c == '\r' then "\\r" else if c == '\t' then "\\t" else if c == '\U{b}' then "\\v"
    else if c < ' ' || c == '\U{7f}' then "\\x" + Hex(c as int, 2)
    else if c as int < 0x10000 then "\\u" + Hex(c as int, 4)
    else "\\U" + Hex(c as int, 8)
  }

  function JsonBody(s: string): string { if s == "" then "" else JsonEscape(s[0]) + JsonBody(s[1..]) }

  function GoBody(printable: char -> bool, s: string): string {
    if s == "" then "" else GoEscape(printable, s[0]) + GoBody(printable, s[1..])
  }

  function JsonQuote(s: string): string { "\"" + JsonBody(s) + "\"" }

  function GoQuote(printable: char -> bool, s: string): string { "\"" + GoBody(printable, s) + "\"" }

  // ----- reading -----

  const REPLACEMENT := '\U{fffd}'

  predicate Surrogate(n: int) { 0xd800 <= n < 0xe000 }

  function CharOf(n: nat): Option<char> {
    if Surrogate(n) || n > 0x10ffff then None else Some(n as char)
  }

  /** An escape of `width` hexadecimal digits after the two characters that announce it. */
  function HexEscape(s: string, width: nat): Option<nat> {
    if |s| < 2 + width then None else HexRead(s[2..2 + width])
  }

  /** The first character of a double-quoted Go string's body, and the rest of the body. */
  function GoChar(s: string): (r: Option<(char, string)>)
    requires s != ""
    ensures r.Some? ==> |r.value.1| < |s|
  {
    if s[0] == '"' || s[0] == '\n' then None
    else if s[0] != '\\' then Some((s[0], s[1..]))
    else if |s| < 2 then None
    else match s[1]
      case 'a' => Some(('\U{7}', s[2..]))
      case 'b' => Some(('\U{8}', s[2..]))
      case 'f' => Some(('\U{c}', s[2..]))
      case 'n' => Some(('\n', s[2..]))
      case 'r' => Some(('\r', s[2..]))
      case 't' => Some(('\t', s[2..]))
      case 'v' => Some(('\U{b}', s[2..]))
      case '\\' => Some(('\\', s[2..]))
      case '"' => Some(('"', s[2..]))
      case 'x' => GoHex(s, 2)
      case 'u' => GoHex(s, 4)
      case 'U' => GoHex(s, 8)
      case _ => GoOctal(s)
  }

  predicate IsOctal(c: char) { '0' <= c <= '7' }

  /** Three octal digits, of at most 255. */
  function GoOctal(s: string): (r: Option<(char, string)>)
    requires |s| >= 2
    ensures r.Some? ==> |r.value.1| < |s|
  {
    if |s| < 4 || !IsOctal(s[1]) || !IsOctal(s[2]) || !IsOctal(s[3]) then None
    else
      var n := 64 * (s[1] as int - '0' as int) + 8 * (s[2] as int - '0' as int) + (s[3] as int - '0' as int);
      if n > 255 then None else Some((n as char, s[4..]))
  }

  function GoHex(s: string, width: nat): (r: Option<(char, string)>)
    requires |s| >= 2
    ensures r.Some? ==> |r.value.1| < |s|
  {
    var n := HexEscape(s, width);
    if n.None? || CharOf(n.value).None? then None else Some((CharOf(n.value).value, s[2 + width..]))
  }

  function GoUnescape(s: string): Option<string>
    decreases |s|
  {
    if s == "" then Some("")
    else
      var first := GoChar(s);
      if first.None? then None
      else
        var rest := GoUnescape(first.value.1);
        if rest.None? then None else Some([first.value.0] + rest.value)
  }

  /** `strconv.Unquote` on a text that begins with a double quote. */
  function Unquote(raw: string): Option<string> {
    if |raw| < 2 || raw[0] != '"' || raw[|raw| - 1] != '"' then None else GoUnescape(raw[1..|raw| - 1])
  }

  /** The first character of a JSON string's body, and the rest of the body. */
  function JsonChar(s: string): (r: Option<(char, string)>)
    requires s != ""
    ensures r.Some? ==> |r.value.1| < |s|
  {
    if s[0] == '"' || s[0] < ' ' then None
    else if s[0] != '\\' then Some((s[0], s[1..]))
    else if |s| < 2 then None
    else match s[1]
      case 'b' => Some(('\U{8}', s[2..]))
      case 'f' => Some(('\U{c}', s[2..]))
      case 'n' => Some(('\n', s[2..]))
      case 'r' => Some(('\r', s[2..]))
      case 't' => Some(('\t', s[2..]))
      case '\\' => Some(('\\', s[2..]))
      case '/' => Some(('/', s[2..]))
      case '"' => Some(('"', s[2..]))
      case 'u' =>
        var n := HexEscape(s, 4);
        if n.None? then None
        else if !Surrogate(n.value) then Some((if CharOf(n.value).Some? then CharOf(n.value).value else REPLACEMENT, s[6..]))
        else JsonPair(n.value, s)
      case _ => None
  }

  /** A high surrogate escape takes the low one after it along; any other is replaced. */
  function JsonPair(high: nat, s: string): (r: Option<(char, string)>)
    requires |s| >= 6 && Surrogate(high)
    ensures r.Some? ==> |r.value.1| < |s|
  {
    var rest := s[6..];
    var low := if |rest| >= 6 && rest[0] == '\\' && rest[1] == 'u' then HexEscape(rest, 4) else None;
    if high < 0xdc00 && low.Some? && 0xdc00 <= low.value < 0xe000 then
      var n := 0x10000 + (high - 0xd800) * 0x400 + (low.value - 0xdc00);
      Some((if CharOf(n).Some? then CharOf(n).value else REPLACEMENT, rest[6..]))
    else Some((REPLACEMENT, rest))
  }

  /** The rest of a JSON string after its opening quote, and what follows its closing one. */
  function JsonString(s: string): (r: Option<(string, string)>)
    ensures r.Some? ==> |r.value.1| < |s|
    decreases |s|
  {
    if s == "" then None
    else if s[0] == '"' then Some(("", s[1..]))
    else
      var first := JsonChar(s);
      if first.None? then None
      else
        var rest := JsonString(first.value.1);
        if rest.None? then None else Some(([first.value.0] + rest.value.0, rest.value.1))
  }

  // ----- what is written is read back -----

  lemma {:induction false} HexEscapeReads(n: nat, width: nat, mark: char, rest: string)
    requires n < Pow16(width)
    ensures HexEscape(['\\', mark] + Hex(n, width) + rest, width) == Some(n)
    ensures (['\\', mark] + Hex(n, width) + rest)[2 + width..] == rest
  {
    var s := ['\\', mark] + Hex(n, width) + rest;
    assert s[2..2 + width] == Hex(n, width);
    HexReads(n, width);
  }

  lemma {:induction false} Powers()
    ensures Pow16(2) == 0x100 && Pow16(4) == 0x10000 && Pow16(8) == 0x1_0000_0000
  {
    assert Pow16(3) == 0x1000 && Pow16(5) == 0x10_0000 && Pow16(6) == 0x100_0000 && Pow16(7) == 0x1000_0000;
  }

  lemma {:induction false} CharOfChar(c: char)
    ensures CharOf(c as int) == Some(c)
  {}

  lemma {:induction false} JsonEscapeReads(c: char, rest: string)
    ensures var s := JsonEscape(c) + rest;
      s != "" && s[0] != '"' && JsonChar(s) == Some((c, rest)) && GoChar(s) == Some((c, rest))
  {
    var s := JsonEscape(c) + rest;
    if c < ' ' || c == '<' || c == '>' || c == '&' || c == '\U{2028}' || c == '\U{2029}' {
      Powers();
      HexEscapeReads(c as int, 4, 'u', rest);
      CharOfChar(c);
      assert "\\u" + Hex(c as int, 4) + rest == ['\\', 'u'] + Hex(c as int, 4) + rest;
    }
    assert |JsonEscape(c)| == 1 ==> s[1..] == rest;
    assert |JsonEscape(c)| == 2 ==> s[2..] == rest;
  }

  lemma {:induction false} GoHexReads(c: char, mark: char, width: nat, rest: string)
    requires c as int < Pow16(width)
    ensures var s := ['\\', mark] + Hex(c as int, width) + rest;
      |s| >= 2 && s[0] == '\\' && s[1] == mark && GoHex(s, width) == Some((c, rest))
  {
    hide Hex, Pow16;
    HexEscapeReads(c as int, width, mark, rest);
    CharOfChar(c);
  }

  lemma {:induction false} GoEscapeReads(printable: char -> bool, c: char, rest: string)
    requires forall d :: printable(d) ==> d >= ' '
    ensures var s := GoEscape(printable, c) + rest; s != "" && GoChar(s) == Some((c, rest))
  {
    hide Hex, Pow16, GoHex, HexEscape;
    var e := GoEscape(printable, c);
    var s := e + rest;
    Powers();
    if |e| == 1 {
      assert s[1..] == rest;
    } else if |e| == 2 {
      assert s[2..] == rest;
    } else if c < ' ' || c == '\U{7f}' {
      GoHexReads(c, 'x', 2, rest);
      assert s == ['\\', 'x'] + Hex(c as int, 2) + rest;
    } else if c as int < 0x10000 {
      GoHexReads(c, 'u', 4, rest);
      assert s == ['\\', 'u'] + Hex(c as int, 4) + rest;
    } else {
      GoHexReads(c, 'U', 8, rest);
      assert s == ['\\', 'U'] + Hex(c as int, 8) + rest;
    }
  }

  lemma {:induction false} JsonBodyReads(s: string, rest: string)
    ensures JsonString(JsonBody(s) + "\"" + rest) == Some((s, rest))
    ensures GoUnescape(JsonBody(s)) == Some(s)
  {
    hide JsonEscape, JsonChar, GoChar;
    if s == "" {
      assert JsonBody(s) + "\"" + rest == "\"" + rest && ("\"" + rest)[1..] == rest;
    } else {
      var more := JsonBody(s[1..]) + "\"" + rest;
      JsonBodyReads(s[1..], rest);
      JsonEscapeReads(s[0], more);
      assert JsonBody(s) + "\"" + rest == JsonEscape(s[0]) + more;
      JsonEscapeReads(s[0], JsonBody(s[1..]));
      assert [s[0]] + s[1..] == s;
    }
  }

  lemma {:induction false} GoBodyReads(printable: char -> bool, s: string)
    requires forall d :: printable(d) ==> d >= ' '
    ensures GoUnescape(GoBody(printable, s)) == Some(s)
  {
    hide GoEscape, GoChar;
    if s != "" {
      GoBodyReads(printable, s[1..]);
      GoEscapeReads(printable, s[0], GoBody(printable, s[1..]));
      assert [s[0]] + s[1..] == s;
    }
  }

  /** What either printer quotes, `strconv.Unquote` gives back. */
  lemma {:induction false} QuotesUnquote(printable: char -> bool, s: string)
    requires forall d :: printable(d) ==> d >= ' '
    ensures Unquote(GoQuote(printable, s)) == Some(s) && Unquote(JsonQuote(s)) == Some(s)
  {
    hide GoUnescape, GoBody, JsonBody;
    GoBodyReads(printable, s);
    JsonBodyReads(s, "");
    assert GoQuote(printable, s)[1..|GoQuote(printable, s)| - 1] == GoBody(printable, s);
    assert JsonQuote(s)[1..|JsonQuote(s)| - 1] == JsonBody(s);
  }
}
