/** What the definition printer writes for a value, the definition parser reads as that value. */
module ConfigRoundTrip {
  import opened Basics
  import opened Text
  import opened Conversation
  import opened ConfigText
  import opened ConfigQuote
  import opened ConfigValues

  // ----- what is printed, and what is read back -----

  /** Every number is the token its float prints as. */
  ghost predicate Numeric(c: Codec, v: Json)
    decreases v
  {
    match v
    case JNumber(t) => JsonNumber(t) && c.parseFloat(t) == Some(t)
    case JArray(items) => forall i :: 0 <= i < |items| ==> Numeric(c, items[i])
    case JObject(fields) => forall k :: k in fields ==> Numeric(c, fields[k])
    case _ => true
  }

  ghost predicate NoNulls(v: Json)
    decreases v
  {
    match v
    case JNull => false
    case JArray(items) => forall i :: 0 <= i < |items| ==> NoNulls(items[i])
    case JObject(fields) => forall k :: k in fields ==> NoNulls(fields[k])
    case _ => true
  }

  /** No entry has an empty name. */
  ghost predicate KeysNamed(v: Json)
    decreases v
  {
    match v
    case JArray(items) => forall i :: 0 <= i < |items| ==> KeysNamed(items[i])
    case JObject(fields) => "" !in fields && forall k :: k in fields ==> KeysNamed(fields[k])
    case _ => true
  }

  /** No map inside has entries: what is printed is JSON. */
  ghost predicate Flat(v: Json)
    decreases v
  {
    match v
    case JArray(items) => forall i :: 0 <= i < |items| ==> Flat(items[i])
    case JObject(fields) => fields == map[]
    case _ => true
  }

  /** A value can be printed if and only if it holds no null. */
  lemma {:induction false} PrintsUnlessNull(c: Codec, v: Json)
    requires Sound(c)
    ensures Encode(c, v).Some? <==> NoNulls(v)
    decreases v, 1
  {
    match v
    case JArray(items) => ItemsPrintUnlessNull(c, items);
    case JObject(fields) =>
      assert Enumerates(c.order(fields), fields);
      FieldsPrintUnlessNull(c, v, c.order(fields));
    case _ =>
  }

  lemma {:induction false} ItemsPrintUnlessNull(c: Codec, items: seq<Json>)
    requires Sound(c)
    ensures EncodeItems(c, items).Some? <==> forall i :: 0 <= i < |items| ==> NoNulls(items[i])
    decreases items
  {
    if items != [] {
      PrintsUnlessNull(c, items[0]);
      ItemsPrintUnlessNull(c, items[1..]);
      assert forall i :: 0 <= i < |items| - 1 ==> items[1..][i] == items[i + 1];
    }
  }

  lemma {:induction false} FieldsPrintUnlessNull(c: Codec, v: Json, keys: seq<string>)
    requires Sound(c) && v.JObject? && forall k :: k in keys ==> k in v.fields
    ensures EncodeFields(c, v, keys).Some? <==> forall k :: k in keys ==> NoNulls(v.fields[k])
    decreases v, 0, |keys|
  {
    if keys != [] {
      PrintsUnlessNull(c, v.fields[keys[0]]);
      FieldsPrintUnlessNull(c, v, keys[1..]);
      assert forall k :: k in keys <==> k == keys[0] || k in keys[1..];
    }
  }

  // ----- the shape of what is printed -----

  /** The delimiters a printed value is split at, or searched for. */
  const DELIMITERS := {',', ':', '=', '#'}

  predicate OneLine(t: string) { forall i :: 0 <= i < |t| ==> t[i] != '\n' && t[i] != '\r' }

  /** A text that scans past as one piece and stays as it is when trimmed. */
  ghost predicate Solid(t: string) {
    && t != "" && !IsSpace(t[0]) && !IsSpace(t[|t| - 1])
    && Level(t) && OneLine(t) && (forall d :: d in DELIMITERS ==> Whole(TOP, t, d))
  }

  /** How a printed value begins and ends. */
  predicate Marked(v: Json, t: string)
    requires t != ""
  {
    match v
    case JArray(_) => |t| >= 2 && t[0] == '[' && t[|t| - 1] == ']'
    case JObject(_) => |t| >= 2 && t[0] == '{' && t[|t| - 1] == '}'
    case JString(_) => t[0] == '"'
    case JNumber(_) => t[0] == '-' || IsDigit(t[0])
    case _ => true
  }

  const INSIDE := Cursor(Double, 0)

  lemma {:induction false} HexIsPlain(n: nat, width: nat)
    ensures Walk(INSIDE, Hex(n, width)) == INSIDE && Below(INSIDE, Hex(n, width), 0)
    ensures OneLine(Hex(n, width)) && forall d :: Whole(INSIDE, Hex(n, width), d)
  {
    if width > 0 {
      HexIsPlain(n / 16, width - 1);
      var last := [HexDigit(n % 16)];
      assert last[1..] == "" && Step(INSIDE, last[0]) == INSIDE;
      WalkAppend(INSIDE, Hex(n / 16, width - 1), last);
      BelowAppend(INSIDE, Hex(n / 16, width - 1), last, 0);
      forall d ensures Whole(INSIDE, Hex(n, width), d) { WholeAppend(INSIDE, Hex(n / 16, width - 1), last, d); }
    }
  }

  /** A text that keeps a scan inside double quotes. */
  ghost predicate Quoted(t: string) {
    Walk(INSIDE, t) == INSIDE && Below(INSIDE, t, 0) && OneLine(t) && forall d :: Whole(INSIDE, t, d)
  }

  lemma {:induction false} QuotedAppend(a: string, b: string)
    requires Quoted(a) && Quoted(b)
    ensures Quoted(a + b)
  {
    WalkAppend(INSIDE, a, b);
    BelowAppend(INSIDE, a, b, 0);
    forall d ensures Whole(INSIDE, a + b, d) { WholeAppend(INSIDE, a, b, d); }
  }

  lemma {:induction false} PlainQuoted(c: char)
    requires c != '"' && c != '\\' && c != '\n' && c != '\r'
    ensures Quoted([c])
  {
    assert [c][1..] == "" && Step(INSIDE, c) == INSIDE;
  }

  lemma {:induction false} PairQuoted(c: char)
    requires c != '\n' && c != '\r'
    ensures Quoted(['\\', c])
  {
    var t := ['\\', c];
    assert t[1..] == [c] && [c][1..] == "";
    var escaped := Cursor(Escaped, 0);
    assert Step(INSIDE, '\\') == escaped && Step(escaped, c) == INSIDE;
    assert Walk(escaped, [c]) == INSIDE && Below(escaped, [c], 0);
    forall d ensures Whole(INSIDE, t, d) { assert Whole(escaped, [c], d); }
  }

  lemma {:induction false} HexQuoted(c: char, n: nat, width: nat)
    requires c != '\n' && c != '\r'
    ensures Quoted(['\\', c] + Hex(n, width))
  {
    PairQuoted(c);
    HexIsPlain(n, width);
    QuotedAppend(['\\', c], Hex(n, width));
  }

  lemma {:induction false} EscapesQuoted(printable: char -> bool, c: char)
    requires forall d :: printable(d) ==> d >= ' '
    ensures Quoted(JsonEscape(c)) && Quoted(GoEscape(printable, c))
  {
    hide Quoted, Hex;
    var j, g := JsonEscape(c), GoEscape(printable, c);
    if |j| == 1 { PlainQuoted(j[0]); assert j == [j[0]]; }
    else if |j| == 2 { PairQuoted(j[1]); assert j == ['\\', j[1]]; }
    else { HexQuoted('u', c as int, 4); assert j == ['\\', 'u'] + Hex(c as int, 4); }
    if |g| == 1 { PlainQuoted(g[0]); assert g == [g[0]]; }
    else if |g| == 2 { PairQuoted(g[1]); assert g == ['\\', g[1]]; }
    else if c < ' ' || c == '\U{7f}' { HexQuoted('x', c as int, 2); assert g == ['\\', 'x'] + Hex(c as int, 2); }
    else if c as int < 0x10000 { HexQuoted('u', c as int, 4); assert g == ['\\', 'u'] + Hex(c as int, 4); }
    else { HexQuoted('U', c as int, 8); assert g == ['\\', 'U'] + Hex(c as int, 8); }
  }

  lemma {:induction false} BodiesQuoted(printable: char -> bool, s: string)
    requires forall d :: printable(d) ==> d >= ' '
    ensures Quoted(JsonBody(s)) && Quoted(GoBody(printable, s))
  {
    hide JsonEscape, GoEscape;
    if s == "" {
      assert Quoted("");
    } else {
      hide Quoted;
      EscapesQuoted(printable, s[0]);
      BodiesQuoted(printable, s[1..]);
      QuotedAppend(JsonEscape(s[0]), JsonBody(s[1..]));
      QuotedAppend(GoEscape(printable, s[0]), GoBody(printable, s[1..]));
    }
  }

  lemma {:induction false} QuoteIsSolid(body: string)
    requires Quoted(body)
    ensures var t := "\"" + body + "\"";
      Solid(t) && t[0] == '"' && forall d :: d != '"' && d != '\'' ==> Whole(TOP, t, d)
  {
    var t := "\"" + body + "\"";
    var inner := body + "\"";
    assert t == "\"" + inner && t[0] == '"' && t[1..] == inner;
    assert Step(TOP, '"') == INSIDE && Step(INSIDE, '"') == TOP && "\""[1..] == "";
    WalkAppend(INSIDE, body, "\"");
    BelowAppend(INSIDE, body, "\"", 0);
    assert Walk(INSIDE, "\"") == TOP && Below(INSIDE, "\"", 0);
    forall d | d != '"' && d != '\'' ensures Whole(TOP, t, d) {
      WholeAppend(INSIDE, body, "\"", d);
      assert Whole(INSIDE, "\"", d);
    }
    assert OneLine(t) by { assert forall i :: 0 <= i < |t| ==> t[i] == '"' || t[i] == body[i - 1]; }
  }

  lemma {:induction false} StringIsSolid(s: string)
    ensures Solid(JsonQuote(s)) && JsonQuote(s)[0] == '"'
  {
    hide Solid, Quoted, JsonBody;
    BodiesQuoted(_ => false, s);
    QuoteIsSolid(JsonBody(s));
  }

  lemma {:induction false} KeyIsSolid(c: Codec, key: string)
    requires Sound(c)
    ensures var t := GoQuote(c.printable, key);
      Solid(t) && t[0] == '"' && (forall d :: d != '"' && d != '\'' ==> Whole(TOP, t, d))
  {
    hide Solid, Quoted, GoBody, Enumerates;
    BodiesQuoted(c.printable, key);
    QuoteIsSolid(GoBody(c.printable, key));
  }

  predicate NumberText(s: string) { forall i :: 0 <= i < |s| ==> NumberChar(s[i]) }

  lemma {:induction false} NumberAppend(a: string, b: string)
    requires NumberText(a) && NumberText(b)
    ensures NumberText(a + b)
  {}

  lemma {:induction false} DigitsAreNumber(s: string)
    ensures NumberText(s[..Digits(s)])
  {}

  lemma {:induction false} ExponentIsNumber(s: string)
    requires JsonExponent(s)
    ensures NumberText(s)
  {
    if s != "" {
      var k := if |s| > 1 && (s[1] == '+' || s[1] == '-') then 2 else 1;
      DigitsAreNumber(s[k..]);
      assert s[k..][..|s[k..]|] == s[k..];
      assert NumberText(s[..k]);
      hide JsonExponent, Digits, NumberText;
      NumberAppend(s[..k], s[k..]);
      assert s == s[..k] + s[k..];
    }
  }

  lemma {:induction false} FractionIsNumber(s: string)
    requires JsonFraction(s)
    ensures NumberText(s)
  {
    if s != "" && s[0] == '.' {
      var n := Digits(s[1..]);
      ExponentIsNumber(s[1 + n..]);
      DigitsAreNumber(s[1..]);
      assert NumberText(".");
      hide JsonExponent, Digits, NumberText, JsonFraction;
      NumberAppend(".", s[1..][..n]);
      NumberAppend("." + s[1..][..n], s[1 + n..]);
      assert s == "." + s[1..][..n] + s[1 + n..];
    } else {
      ExponentIsNumber(s);
    }
  }

  lemma {:induction false} WholeIsNumber(s: string)
    requires Digits(s) > 0 && JsonFraction(s[Digits(s)..])
    ensures s != "" && IsDigit(s[0]) && NumberText(s)
  {
    var n := Digits(s);
    FractionIsNumber(s[n..]);
    DigitsAreNumber(s);
    hide JsonFraction, Digits, NumberText;
    NumberAppend(s[..n], s[n..]);
    assert s[..n] + s[n..] == s;
  }

  lemma {:induction false} NumberIsNumber(t: string)
    requires JsonNumber(t)
    ensures t != "" && (t[0] == '-' || IsDigit(t[0])) && NumberText(t)
  {
    hide JsonFraction, Digits;
    if t != "" && t[0] == '-' {
      WholeIsNumber(t[1..]);
      assert NumberText("-");
      NumberAppend("-", t[1..]);
      assert t == "-" + t[1..];
    } else {
      WholeIsNumber(t);
    }
  }

  lemma {:induction false} PlainIsSolid(t: string)
    requires t != "" && forall i :: 0 <= i < |t| ==> NumberChar(t[i]) || 'a' <= t[i] <= 'z'
    ensures Solid(t)
  {
    OrdinaryIsLevel(t);
    assert NumberChar(t[0]) || 'a' <= t[0] <= 'z';
    assert NumberChar(t[|t| - 1]) || 'a' <= t[|t| - 1] <= 'z';
  }

  /** Level texts joined by ordinary ones stay level and on one line. */
  lemma {:induction false} JoinedIsLevel(parts: seq<string>)
    requires forall p :: p in parts ==> Level(p) && OneLine(p)
    ensures Level(JoinWith(parts, ", ")) && OneLine(JoinWith(parts, ", "))
  {
    if parts == [] {
      assert Level("");
    } else if |parts| > 1 {
      assert parts[0] in parts;
      JoinedIsLevel(parts[1..]);
      OrdinaryIsLevel(", ");
      hide Level;
      LevelAppend(parts[0], ", ");
      LevelAppend(parts[0] + ", ", JoinWith(parts[1..], ", "));
    } else {
      assert parts[0] in parts;
    }
  }

  lemma {:induction false} BracketedIsSolid(open: char, inner: string, close: char)
    requires (open == '[' && close == ']') || (open == '{' && close == '}')
    requires Level(inner) && OneLine(inner)
    ensures Solid([open] + inner + [close])
  {
    var t := [open] + inner + [close];
    forall d | d in DELIMITERS ensures Whole(TOP, t, d) { BracketsHold(open, inner, close, d); }
    BracketsHold(open, inner, close, ',');
    hide Level, Whole;
    assert OneLine(t) by { assert forall i :: 0 <= i < |t| ==> t[i] == open || t[i] == close || t[i] == inner[i - 1]; }
  }

  lemma {:induction false} FieldIsLevel(c: Codec, key: string, t: string)
    requires Sound(c) && Solid(t)
    ensures var part := GoQuote(c.printable, key) + " = " + t; Level(part) && OneLine(part)
  {
    KeyIsSolid(c, key);
    var k := GoQuote(c.printable, key);
    OrdinaryIsLevel(" = ");
    LevelAppend(k, " = ");
    LevelAppend(k + " = ", t);
  }

  lemma {:induction false} ValueIsSolid(c: Codec, v: Json)
    requires Sound(c) && Numeric(c, v) && Encode(c, v).Some?
    ensures var t := Encode(c, v).value; Solid(t) && Marked(v, t)
    decreases v, 1
  {
    match v
    case JBool(b) => PlainIsSolid(if b then "true" else "false");
    case JNumber(t) => NumberIsNumber(t); PlainIsSolid(t);
    case JString(s) => StringIsSolid(s);
    case JArray(items) =>
      ItemsAreSolid(c, items);
      JoinedIsLevel(EncodeItems(c, items).value);
      BracketedIsSolid('[', JoinWith(EncodeItems(c, items).value, ", "), ']');
    case JObject(fields) =>
      assert Enumerates(c.order(fields), fields);
      FieldsAreLevel(c, v, c.order(fields));
      JoinedIsLevel(EncodeFields(c, v, c.order(fields)).value);
      BracketedIsSolid('{', JoinWith(EncodeFields(c, v, c.order(fields)).value, ", "), '}');
  }

  lemma {:induction false} ItemsAreSolid(c: Codec, items: seq<Json>)
    requires Sound(c) && (forall i :: 0 <= i < |items| ==> Numeric(c, items[i])) && EncodeItems(c, items).Some?
    ensures forall p :: p in EncodeItems(c, items).value ==> Solid(p)
    decreases items
  {
    hide Solid;
    if items != [] {
      ValueIsSolid(c, items[0]);
      assert forall i :: 0 <= i < |items| - 1 ==> items[1..][i] == items[i + 1];
      ItemsAreSolid(c, items[1..]);
    }
  }

  lemma {:induction false} FieldsAreLevel(c: Codec, v: Json, keys: seq<string>)
    requires Sound(c) && Numeric(c, v) && v.JObject? && (forall k :: k in keys ==> k in v.fields) && EncodeFields(c, v, keys).Some?
    ensures forall p :: p in EncodeFields(c, v, keys).value ==> Level(p) && OneLine(p)
    decreases v, 0, |keys|
  {
    hide Level, OneLine, GoQuote, Enumerates;
    if keys != [] {
      ValueIsSolid(c, v.fields[keys[0]]);
      FieldIsLevel(c, keys[0], Encode(c, v.fields[keys[0]]).value);
      FieldsAreLevel(c, v, keys[1..]);
    }
  }

  // ----- what is printed, read as JSON -----

  lemma {:induction false} NoSpaceToSkip(s: string)
    requires s == "" || !JsonSpace(s[0])
    ensures SkipSpace(s) == s && SkipSpace(" " + s) == s
  {
    assert (" " + s)[1..] == s;
  }

  lemma {:induction false} SpaceBefore(c: Codec, s: string)
    ensures JsonValue(c, " " + s) == JsonValue(c, s) && JsonElements(c, " " + s) == JsonElements(c, s)
  {
    assert (" " + s)[0] == ' ' && (" " + s)[1..] == s;
    assert SkipSpace(" " + s) == SkipSpace(s);
    assert JsonValue(c, " " + s) == JsonValue(c, s);
  }

  lemma {:induction false} NotJsonSpace(ch: char)
    ensures JsonSpace(ch) ==> IsSpace(ch)
  {}

  lemma {:induction false} NumberEnds(t: string, rest: string)
    requires (forall i :: 0 <= i < |t| ==> NumberChar(t[i])) && (rest != "" ==> !NumberChar(rest[0]))
    ensures NumberRun(t + rest) == |t|
  {
    assert forall i :: 0 <= i < |t| ==> (t + rest)[i] == t[i];
    assert rest != "" ==> (t + rest)[|t|] == rest[0];
  }

  // How `JsonValue` begins, by the first character.

  lemma {:induction false} StringBegins(c: Codec, s: string)
    ensures var text := JsonString(s);
      JsonValue(c, "\"" + s) == if text.None? then None else Some((JString(text.value.0), text.value.1))
  {
    hide JsonString, JsonArray, JsonObject, JsonNumber;
    NoSpaceToSkip("\"" + s);
    assert ("\"" + s)[1..] == s;
  }

  lemma {:induction false} ListBegins(c: Codec, s: string)
    ensures var items := JsonArray(c, s);
      JsonValue(c, "[" + s) == if items.None? then None else Some((JArray(items.value.0), items.value.1))
  {
    hide JsonString, JsonArray, JsonObject, JsonNumber;
    NoSpaceToSkip("[" + s);
    assert ("[" + s)[1..] == s;
  }

  lemma {:induction false} MapBegins(c: Codec, s: string)
    ensures var fields := JsonObject(c, s);
      JsonValue(c, "{" + s) == if fields.None? then None else Some((JObject(fields.value.0), fields.value.1))
  {
    hide JsonString, JsonArray, JsonObject, JsonNumber;
    NoSpaceToSkip("{" + s);
    assert ("{" + s)[1..] == s;
  }

  lemma {:induction false} BoolReads(c: Codec, b: bool, rest: string)
    ensures JsonValue(c, (if b then "true" else "false") + rest) == Some((JBool(b), rest))
  {
    hide JsonString, JsonArray, JsonObject, JsonNumber;
    var s := (if b then "true" else "false") + rest;
    NoSpaceToSkip(s);
    assert b ==> s[4..] == rest;
    assert !b ==> s[5..] == rest;
  }

  lemma {:induction false} NumberReads(c: Codec, t: string, rest: string)
    requires JsonNumber(t) && c.parseFloat(t) == Some(t) && (rest != "" ==> !NumberChar(rest[0]))
    ensures JsonValue(c, t + rest) == Some((JNumber(t), rest))
  {
    NumberIsNumber(t);
    NumberEnds(t, rest);
    hide JsonString, JsonArray, JsonObject, JsonNumber;
    var s := t + rest;
    assert s[0] == t[0] && s[..|t|] == t && s[|t|..] == rest;
    NoSpaceToSkip(s);
    assert !("true" <= s) && !("false" <= s) && !("null" <= s) by {
      assert s[0] != 't' && s[0] != 'f' && s[0] != 'n';
    }
  }

  lemma {:induction false} ScalarReads(c: Codec, v: Json, t: string, rest: string)
    requires Sound(c) && Numeric(c, v) && Encode(c, v) == Some(t) && !v.JArray? && !v.JObject?
    requires rest != "" ==> !NumberChar(rest[0])
    ensures JsonValue(c, t + rest) == Some((v, rest))
  {
    hide Enumerates, JsonValue, JsonNumber, JsonBody;
    match v
    case JBool(b) => BoolReads(c, b, rest);
    case JNumber(_) => NumberReads(c, t, rest);
    case JString(text) =>
      JsonBodyReads(text, rest);
      StringBegins(c, JsonBody(text) + "\"" + rest);
      assert t + rest == "\"" + (JsonBody(text) + "\"" + rest);
  }

  /** A key as Go quotes it is, to the JSON decoder, that key or no string at all. */
  lemma {:induction false} KeyInJson(printable: char -> bool, key: string, rest: string)
    requires forall d :: printable(d) ==> d >= ' '
    ensures var r := JsonString(GoBody(printable, key) + "\"" + rest); r.None? || r == Some((key, rest))
  {
    if key == "" {
      assert GoBody(printable, key) + "\"" + rest == "\"" + rest && ("\"" + rest)[1..] == rest;
    } else {
      var more := GoBody(printable, key[1..]) + "\"" + rest;
      hide GoEscape, JsonChar;
      KeyInJson(printable, key[1..], rest);
      EscapeInJson(printable, key[0], more);
      assert GoBody(printable, key) + "\"" + rest == GoEscape(printable, key[0]) + more;
      assert [key[0]] + key[1..] == key;
    }
  }

  lemma {:induction false} EscapeInJson(printable: char -> bool, ch: char, rest: string)
    requires forall d :: printable(d) ==> d >= ' '
    ensures var s := GoEscape(printable, ch) + rest;
      s != "" && s[0] != '"' && (JsonChar(s).None? || JsonChar(s) == Some((ch, rest)))
  {
    hide Hex, Pow16, HexEscape;
    var e := GoEscape(printable, ch);
    var s := e + rest;
    Powers();
    if |e| == 1 {
      assert s[1..] == rest;
    } else if |e| == 2 {
      assert s[2..] == rest;
    } else if ch < ' ' || ch == '\U{7f}' {
      assert s[1] == 'x';
    } else if ch as int < 0x10000 {
      HexEscapeReads(ch as int, 4, 'u', rest);
      CharOfChar(ch);
      assert s == ['\\', 'u'] + Hex(ch as int, 4) + rest;
    } else {
      assert s[1] == 'U';
    }
  }

  lemma {:induction false} JoinedStart(parts: seq<string>, between: string)
    requires parts != []
    ensures JoinWith(parts, between)
      == if |parts| == 1 then parts[0] else parts[0] + (between + JoinWith(parts[1..], between))
  {
    if |parts| > 1 { assert parts[0] + between + JoinWith(parts[1..], between) == parts[0] + (between + JoinWith(parts[1..], between)); }
  }

  /** What is printed is JSON exactly when no map inside has entries. */
  lemma {:induction false} JsonReads(c: Codec, v: Json, t: string, rest: string)
    requires Sound(c) && Numeric(c, v) && Encode(c, v) == Some(t)
    requires rest != "" ==> !NumberChar(rest[0])
    ensures JsonValue(c, t + rest) == if Flat(v) then Some((v, rest)) else None
    decreases v, 2
  {
    match v
    case JArray(items) => JsonReadsList(c, v, t, rest);
    case JObject(fields) => JsonReadsMap(c, v, t, rest);
    case _ => ScalarReads(c, v, t, rest);
  }

  lemma {:induction false} JsonReadsList(c: Codec, v: Json, t: string, rest: string)
    requires Sound(c) && Numeric(c, v) && Encode(c, v) == Some(t) && v.JArray?
    ensures JsonValue(c, t + rest) == if Flat(v) then Some((v, rest)) else None
    decreases v, 1
  {
    hide Enumerates, JsonValue;
    var parts := EncodeItems(c, v.items).value;
    var inner := JoinWith(parts, ", ");
    var s := inner + "]" + rest;
    assert t + rest == "[" + s;
    ListBegins(c, s);
    if v.items == [] {
      assert s == "]" + rest && ("]" + rest)[1..] == rest;
      NoSpaceToSkip(s);
    } else {
      ItemsAreSolid(c, v.items);
      assert parts[0] in parts;
      JoinedStart(parts, ", ");
      ValueStarts(c, v.items[0], parts[0]);
      assert s[0] == parts[0][0];
      NotJsonSpace(s[0]);
      NoSpaceToSkip(s);
      ElementsRead(c, v.items, rest);
    }
  }

  /** No printed value begins like the end of a list. */
  lemma {:induction false} ValueStarts(c: Codec, v: Json, t: string)
    requires Sound(c) && Numeric(c, v) && Encode(c, v) == Some(t)
    ensures t != "" && t[0] != ']' && t[0] != '}' && !IsSpace(t[0])
  {
    ValueIsSolid(c, v);
  }

  lemma {:induction false} ElementsRead(c: Codec, items: seq<Json>, rest: string)
    requires Sound(c) && (forall i :: 0 <= i < |items| ==> Numeric(c, items[i])) && EncodeItems(c, items).Some? && items != []
    ensures JsonElements(c, JoinWith(EncodeItems(c, items).value, ", ") + "]" + rest)
      == if forall i :: 0 <= i < |items| ==> Flat(items[i]) then Some((items, rest)) else None
    decreases items
  {
    hide Enumerates, Numeric, JsonValue, Encode;
    var parts := EncodeItems(c, items).value;
    var s := JoinWith(parts, ", ") + "]" + rest;
    JoinedStart(parts, ", ");
    if |items| == 1 {
      assert items[1..] == [] && parts == [parts[0]];
      assert s == parts[0] + ("]" + rest) && ("]" + rest)[1..] == rest;
      JsonReads(c, items[0], parts[0], "]" + rest);
      NoSpaceToSkip("]" + rest);
      assert [items[0]] == items;
    } else {
      var more := JoinWith(parts[1..], ", ") + "]" + rest;
      assert s == parts[0] + (", " + more);
      assert (", " + more)[0] == ',' && (", " + more)[1..] == " " + more;
      JsonReads(c, items[0], parts[0], ", " + more);
      NoSpaceToSkip(", " + more);
      assert forall i :: 0 <= i < |items| - 1 ==> items[1..][i] == items[i + 1];
      ElementsRead(c, items[1..], rest);
      SpaceBefore(c, more);
      assert parts[1..] == EncodeItems(c, items[1..]).value;
      assert [items[0]] + items[1..] == items;
    }
  }

  lemma {:induction false} JsonReadsMap(c: Codec, v: Json, t: string, rest: string)
    requires Sound(c) && Numeric(c, v) && Encode(c, v) == Some(t) && v.JObject?
    ensures JsonValue(c, t + rest) == if Flat(v) then Some((v, rest)) else None
    decreases v, 1
  {
    assert Enumerates(c.order(v.fields), v.fields);
    var keys := c.order(v.fields);
    var parts := EncodeFields(c, v, keys).value;
    var s := JoinWith(parts, ", ") + "}" + rest;
    assert t + rest == "{" + s;
    hide JsonValue, GoQuote, Numeric, JsonMembers;
    MapBegins(c, s);
    if keys == [] {
      NoEntries(keys, v.fields);
      assert s == "}" + rest && ("}" + rest)[1..] == rest;
      NoSpaceToSkip(s);
    } else {
      assert keys[0] in v.fields;
      FirstField(c, v, keys, s, rest);
    }
  }

  lemma {:induction false} NoEntries(keys: seq<string>, fields: map<string, Json>)
    requires Enumerates(keys, fields) && keys == []
    ensures fields == map[]
  {
    assert forall k :: k !in fields;
  }

  /** A map that begins with an entry is no JSON object. */
  lemma {:induction false} FirstField(c: Codec, v: Json, keys: seq<string>, s: string, rest: string)
    requires Sound(c) && v.JObject? && keys != [] && (forall k :: k in keys ==> k in v.fields)
    requires EncodeFields(c, v, keys).Some? && s == JoinWith(EncodeFields(c, v, keys).value, ", ") + "}" + rest
    ensures JsonObject(c, s).None?
  {
    hide Enumerates, JsonMembers, GoQuote, Encode;
    var parts := EncodeFields(c, v, keys).value;
    JoinedStart(parts, ", ");
    var tail := if |parts| == 1 then "}" + rest else (", " + JoinWith(parts[1..], ", ")) + "}" + rest;
    var value := Encode(c, v.fields[keys[0]]).value;
    assert s == parts[0] + tail;
    assert parts[0] + tail == GoQuote(c.printable, keys[0]) + " = " + (value + tail);
    EqualsIsNotColon(c, keys[0], value + tail);
    NoSpaceToSkip(s);
  }

  lemma {:induction false} EqualsIsNotColon(c: Codec, key: string, rest: string)
    requires Sound(c)
    ensures var s := GoQuote(c.printable, key) + " = " + rest;
      s[0] == '"' && JsonMembers(c, s, map[]).None?
  {
    hide Enumerates, GoBody;
    var s := GoQuote(c.printable, key) + " = " + rest;
    var after := " = " + rest;
    KeyInJson(c.printable, key, after);
    assert s[0] == '"' && s[1..] == GoBody(c.printable, key) + "\"" + after;
    NoSpaceToSkip(s);
    assert after == " " + ("= " + rest) && ("= " + rest)[0] == '=';
    NoSpaceToSkip("= " + rest);
  }

  // ----- splitting what is printed -----

  function Spaced(parts: seq<string>): seq<string> {
    if parts == [] then [] else [" " + parts[0]] + Spaced(parts[1..])
  }

  /** Texts joined by a comma and a space split into those texts, all but the first behind the
      space. */
  lemma {:induction false} SplitJoined(piece: string, parts: seq<string>)
    requires parts != [] && forall p :: p in parts ==> Level(p) && Whole(TOP, p, ',')
    ensures SplitFrom(TOP, piece, JoinWith(parts, ", "), ',') == [piece + parts[0]] + Spaced(parts[1..])
    decreases |parts|
  {
    hide Whole, SplitFrom;
    var p := parts[0];
    assert p in parts;
    assert Walk(TOP, p) == TOP;
    hide Level;
    JoinedStart(parts, ", ");
    if |parts| == 1 {
      assert p + "" == p && parts[1..] == [];
      SplitOver(TOP, piece, p, "", ',');
      EndOfScan(TOP, piece + p, ',');
    } else {
      var rest := JoinWith(parts[1..], ", ");
      SplitOver(TOP, piece, p, ", " + rest, ',');
      CommaCuts(piece + p, rest);
      SplitJoined(" ", parts[1..]);
      assert parts[1..][0] == parts[1] && [" " + parts[1]] + Spaced(parts[1..][1..]) == Spaced(parts[1..]);
    }
  }

  lemma {:induction false} CommaCuts(piece: string, rest: string)
    ensures SplitFrom(TOP, piece, ", " + rest, ',') == [piece] + SplitFrom(TOP, " ", rest, ',')
  {
    var s := ", " + rest;
    assert s[0] == ',' && s[1..] == " " + rest && (" " + rest)[1..] == rest;
    assert Cuts(TOP, ',', ',') && !Cuts(TOP, ' ', ',') && Step(TOP, ',') == TOP && Step(TOP, ' ') == TOP;
    assert "" + [' '] == " ";
    assert SplitFrom(TOP, "", " " + rest, ',') == SplitFrom(TOP, " ", rest, ',');
  }

  /** A text without the delimiter at the top is one piece. */
  lemma {:induction false} OnePiece(t: string, delimiter: char)
    requires Whole(TOP, t, delimiter)
    ensures Split(t, delimiter) == [t]
  {
    hide Whole, SplitFrom;
    assert t + "" == t && "" + t == t;
    SplitOver(TOP, "", t, "", delimiter);
    EndOfScan(Walk(TOP, t), t, delimiter);
  }

  lemma {:induction false} SolidScans(t: string)
    requires Solid(t)
    ensures Level(t) && Walk(TOP, t) == TOP && OneLine(t) && t != "" && !IsSpace(t[0]) && !IsSpace(t[|t| - 1])
    ensures Whole(TOP, t, ',') && Whole(TOP, t, ':') && Whole(TOP, t, '=') && Whole(TOP, t, '#')
  {
    assert '=' in DELIMITERS && ':' in DELIMITERS && ',' in DELIMITERS && '#' in DELIMITERS;
  }

  lemma {:induction false} SpacesScan()
    ensures Walk(TOP, "") == TOP && Walk(TOP, " ") == TOP && Walk(TOP, " = ") == TOP
    ensures forall d :: Whole(TOP, "", d) && (d != ' ' ==> Whole(TOP, " ", d)) && (d != ' ' && d != '=' ==> Whole(TOP, " = ", d))
  {
    OrdinaryIsLevel("");
    OrdinaryIsLevel(" ");
    OrdinaryIsLevel(" = ");
    forall d | d != ' ' && d != '=' ensures Whole(TOP, " = ", d) {}
    forall d | d != ' ' ensures Whole(TOP, " ", d) {}
  }

  /** An entry splits at its equals sign into the quoted key and the value, and nowhere else. */
  lemma {:induction false} EntrySplits(c: Codec, lead: string, key: string, t: string)
    requires Sound(c) && Solid(t) && (lead == "" || lead == " ")
    ensures var k := GoQuote(c.printable, key);
      var entry := lead + (k + " = " + t);
      && Split(entry, ':') == [entry] && Split(entry, '=') == [lead + k + " ", " " + t]
      && Whole(TOP, entry, ',')
  {
    hide *;
    KeyIsSolid(c, key);
    var k := GoQuote(c.printable, key);
    SolidScans(k);
    SolidScans(t);
    SpacesScan();
    var first, second := lead + k + " ", " " + t;
    var entry := lead + (k + " = " + t);
    WholeAppend(TOP, lead, k, '=');
    WalkAppend(TOP, lead, k);
    WholeAppend(TOP, lead + k, " ", '=');
    WalkAppend(TOP, lead + k, " ");
    WholeAppend(TOP, " ", t, '=');
    assert entry == first + ("=" + second);
    SplitsAtEquals(first, second);
    EntryIsWhole(lead, k, t, ':');
    EntryIsWhole(lead, k, t, ',');
    OnePiece(entry, ':');
  }

  lemma {:induction false} SplitsAtEquals(first: string, second: string)
    requires Whole(TOP, first, '=') && Walk(TOP, first) == TOP && Whole(TOP, second, '=')
    ensures Split(first + ("=" + second), '=') == [first, second]
  {
    SplitOver(TOP, "", first, "=" + second, '=');
    assert "" + first == first;
    EqualsCuts(first, second);
    OnePiece(second, '=');
    hide SplitFrom, Whole, Walk;
    assert [first] + [second] == [first, second];
  }

  lemma {:induction false} EqualsCuts(piece: string, rest: string)
    ensures SplitFrom(TOP, piece, "=" + rest, '=') == [piece] + SplitFrom(TOP, "", rest, '=')
  {
    var s := "=" + rest;
    assert s[0] == '=' && s[1..] == rest && Cuts(TOP, '=', '=') && Step(TOP, '=') == TOP;
  }

  lemma {:induction false} EntryIsWhole(lead: string, k: string, t: string, d: char)
    requires (lead == "" || lead == " ") && (d == ':' || d == ',')
    requires Walk(TOP, k) == TOP && Whole(TOP, k, d) && Whole(TOP, t, d)
    ensures Whole(TOP, lead + (k + " = " + t), d)
  {
    hide *;
    SpacesScan();
    WholeAppend(TOP, lead, k + " = " + t, d);
    WholeAppend(TOP, k + " = ", t, d);
    WholeAppend(TOP, k, " = ", d);
    WalkAppend(TOP, k, " = ");
  }

  // ----- what is printed, read as a value -----

  lemma {:induction false} OnlyTrimCounts(c: Codec, a: string, b: string)
    requires Trim(a) == Trim(b)
    ensures ConfigValue(c, a) == ConfigValue(c, b)
  {
    hide Trim, Split, JsonText, Unquote, ConfigItems, ConfigFields, Unpair;
  }

  // How `ConfigValue` goes on, by the first character.

  lemma {:induction false} StringValue(c: Codec, t: string, text: string)
    requires t != "" && Trim(t) == t && t[0] == '"' && Unquote(t) == Some(text)
    ensures ConfigValue(c, t) == Some(JString(text))
  {
    hide Trim, Split, JsonText, Unquote, ConfigItems, ConfigFields, Unpair;
  }

  lemma {:induction false} BoolValue(c: Codec, b: bool)
    ensures ConfigValue(c, if b then "true" else "false") == Some(JBool(b))
  {
    var t := if b then "true" else "false";
    TrimOfTight(t);
    hide Trim, Split, JsonText, Unquote, ConfigItems, ConfigFields, Unpair;
  }

  lemma {:induction false} NumberValue(c: Codec, t: string)
    requires t != "" && Trim(t) == t && (t[0] == '-' || IsDigit(t[0])) && c.parseFloat(t) == Some(t)
    ensures ConfigValue(c, t) == Some(JNumber(t))
  {
    hide Trim, Split, JsonText, Unquote, ConfigItems, ConfigFields, Unpair;
  }

  lemma {:induction false} JsonTaken(c: Codec, t: string, v: Json)
    requires t != "" && Trim(t) == t && (t[0] == '[' || t[0] == '{') && JsonText(c, t) == Some(v)
    ensures ConfigValue(c, t) == Some(v)
  {
    hide Trim, Split, JsonText, Unquote, ConfigItems, ConfigFields, Unpair;
  }

  lemma {:induction false} ListValue(c: Codec, t: string)
    requires Trim(t) == t && |t| >= 2 && t[0] == '[' && t[|t| - 1] == ']' && JsonText(c, t).None?
    ensures forall p :: p in Split(t[1..|t| - 1], ',') ==> |p| < |t| - 1
    ensures var items := ConfigItems(c, Split(t[1..|t| - 1], ','), |t| - 1);
      ConfigValue(c, t) == if items.None? then None else Some(JArray(items.value))
  {
    hide Trim, JsonText, ConfigItems, Unquote, SplitFrom, Unpair;
  }

  lemma {:induction false} MapValue(c: Codec, t: string)
    requires Trim(t) == t && |t| >= 2 && t[0] == '{' && t[|t| - 1] == '}' && JsonText(c, t).None?
    ensures forall p :: p in Split(t[1..|t| - 1], ',') ==> |p| < |t| - 1
    ensures var fields := ConfigFields(c, Split(t[1..|t| - 1], ','), |t| - 1, map[]);
      ConfigValue(c, t) == if fields.None? then None else Some(JObject(fields.value))
  {
    hide Trim, JsonText, ConfigFields, Unquote, SplitFrom, Unpair;
  }

  lemma {:induction false} ScalarValue(c: Codec, v: Json, t: string)
    requires Sound(c) && Numeric(c, v) && Encode(c, v) == Some(t) && !v.JArray? && !v.JObject?
    ensures ConfigValue(c, t) == Some(v)
  {
    hide ConfigValue, Solid, Trim, Unquote, JsonQuote, JsonNumber, Enumerates;
    ValueIsSolid(c, v);
    ValueTrimmed(c, v, t);
    match v
    case JBool(b) => BoolValue(c, b);
    case JNumber(_) => NumberIsNumber(t); NumberValue(c, t);
    case JString(text) =>
      QuotesUnquote(c.printable, text);
      StringIsSolid(text);
      SolidScans(t);
      StringValue(c, t, text);
  }

  lemma {:induction false} JsonValueRead(c: Codec, v: Json, t: string)
    requires Sound(c) && Numeric(c, v) && Encode(c, v) == Some(t) && (v.JArray? || v.JObject?)
    ensures JsonText(c, t) == if Flat(v) then Some(v) else None
    ensures Trim(t) == t && |t| >= 2 && t[0] == (if v.JArray? then '[' else '{') && t[|t| - 1] == (if v.JArray? then ']' else '}')
  {
    ValueIsSolid(c, v);
    TrimOfTight(t);
    hide Trim, Numeric, Encode, Solid, JsonValue;
    assert t + "" == t;
    JsonReads(c, v, t, "");
    NoSpaceToSkip("");
  }

  /** What is printed is read as the value it was, unless some entry has no name. */
  lemma {:induction false} ConfigReads(c: Codec, v: Json, t: string)
    requires Sound(c) && Numeric(c, v) && Encode(c, v) == Some(t)
    ensures ConfigValue(c, t) == if KeysNamed(v) then Some(v) else None
    decreases v, 3
  {
    match v
    case JArray(items) => ListReads(c, v, t);
    case JObject(fields) => MapReads(c, v, t);
    case _ => ScalarValue(c, v, t);
  }

  lemma {:induction false} FlatIsNamed(v: Json)
    requires Flat(v)
    ensures KeysNamed(v)
    decreases v
  {
    match v
    case JArray(items) => forall i | 0 <= i < |items| ensures KeysNamed(items[i]) { FlatIsNamed(items[i]); }
    case _ =>
  }

  lemma {:induction false} ListShape(c: Codec, v: Json, t: string)
    requires Sound(c) && Numeric(c, v) && Encode(c, v) == Some(t) && v.JArray?
    ensures EncodeItems(c, v.items).Some? && t == "[" + JoinWith(EncodeItems(c, v.items).value, ", ") + "]"
    ensures KeysNamed(v) <==> AllNamed(v.items)
    ensures AllNumeric(c, v.items) && forall i :: 0 <= i < |v.items| ==> Numeric(c, v.items[i])
    ensures !Flat(v) ==> v.items != []
  {
    hide EncodeItems, JoinWith, Enumerates;
  }

  lemma {:induction false} ListReads(c: Codec, v: Json, t: string)
    requires Sound(c) && Numeric(c, v) && Encode(c, v) == Some(t) && v.JArray?
    ensures ConfigValue(c, t) == if KeysNamed(v) then Some(v) else None
    decreases v, 2
  {
    hide *;
    JsonValueRead(c, v, t);
    ListShape(c, v, t);
    if Flat(v) {
      FlatIsNamed(v);
      JsonTaken(c, t, v);
    } else {
      var parts := EncodeItems(c, v.items).value;
      PartsPrinted(c, v.items);
      ItemsAreSolid(c, v.items);
      var pieces := [parts[0]] + Spaced(parts[1..]);
      PartsSplit(parts);
      assert t[1..|t| - 1] == JoinWith(parts, ", ");
      ListValue(c, t);
      ItemsRead(c, v.items, pieces, |t| - 1);
    }
  }

  lemma {:induction false} PartsPrinted(c: Codec, items: seq<Json>)
    requires Sound(c) && EncodeItems(c, items).Some?
    ensures |EncodeItems(c, items).value| == |items|
  {
    hide Encode, Enumerates;
    if items != [] { PartsPrinted(c, items[1..]); }
  }

  lemma {:induction false} SplitIs(raw: string, delimiter: char)
    ensures Split(raw, delimiter) == SplitFrom(TOP, "", raw, delimiter)
  {}

  /** The pieces of a printed list, trimmed, are what was joined. */
  lemma {:induction false} PartsSplit(parts: seq<string>)
    requires parts != [] && forall p :: p in parts ==> Solid(p)
    ensures var pieces := [parts[0]] + Spaced(parts[1..]);
      && Split(JoinWith(parts, ", "), ',') == pieces && AllTrimmed(pieces, parts)
  {
    hide Solid, Level, Whole, Walk, Trim, SplitFrom, Split, Spaced, JoinWith, IsSpace;
    var pieces := [parts[0]] + Spaced(parts[1..]);
    forall p | p in parts ensures Level(p) && Whole(TOP, p, ',') { SolidScans(p); }
    SplitJoined("", parts);
    SplitIs(JoinWith(parts, ", "), ',');
    assert "" + parts[0] == parts[0];
    SpacedAt(parts[1..]);
    forall i | 0 <= i < |parts| ensures Trim(pieces[i]) == parts[i] {
      assert parts[i] in parts;
      SolidScans(parts[i]);
      TrimOfTight(parts[i]);
    }
  }

  lemma {:induction false} SpacedAt(parts: seq<string>)
    ensures |Spaced(parts)| == |parts| && forall i :: 0 <= i < |parts| ==> Spaced(parts)[i] == " " + parts[i]
  {
    if parts != [] { SpacedAt(parts[1..]); }
  }

  ghost predicate AllNamed(items: seq<Json>) { forall i :: 0 <= i < |items| ==> KeysNamed(items[i]) }

  lemma {:induction false} AllNamedNext(items: seq<Json>)
    requires items != []
    ensures AllNamed(items) <==> KeysNamed(items[0]) && AllNamed(items[1..])
  {
    hide KeysNamed;
    var rest := items[1..];
    assert forall i :: 0 <= i < |rest| ==> rest[i] == items[i + 1];
    if KeysNamed(items[0]) && AllNamed(rest) {
      forall i | 0 <= i < |items| ensures KeysNamed(items[i]) {
        if i > 0 { assert items[i] == rest[i - 1]; }
      }
    }
  }

  ghost predicate AllNumeric(c: Codec, items: seq<Json>) { forall i :: 0 <= i < |items| ==> Numeric(c, items[i]) }

  lemma {:induction false} OneItem(c: Codec, pieces: seq<string>, n: nat)
    requires pieces != [] && (forall p :: p in pieces ==> |p| < n) && Trim(pieces[0]) != ""
    ensures var first, rest := ConfigValue(c, pieces[0]), ConfigItems(c, pieces[1..], n);
      ConfigItems(c, pieces, n) == if first.None? || rest.None? then None else Some([first.value] + rest.value)
  {
    hide ConfigValue, Trim;
  }

  lemma {:induction false} ItemsEncoded(c: Codec, items: seq<Json>)
    requires Sound(c) && items != [] && EncodeItems(c, items).Some?
    ensures Encode(c, items[0]).Some? && EncodeItems(c, items[1..]).Some?
    ensures EncodeItems(c, items).value == [Encode(c, items[0]).value] + EncodeItems(c, items[1..]).value
  {
    hide Encode, Enumerates;
  }

  lemma {:induction false} AllNumericNext(c: Codec, items: seq<Json>)
    requires items != [] && AllNumeric(c, items)
    ensures Numeric(c, items[0]) && AllNumeric(c, items[1..])
  {
    hide Numeric;
  }

  predicate AllTrimmed(pieces: seq<string>, parts: seq<string>) {
    |pieces| == |parts| && forall i :: 0 <= i < |parts| ==> Trim(pieces[i]) == parts[i]
  }

  lemma {:induction false} AllTrimmedNext(pieces: seq<string>, t: string, rest: seq<string>)
    requires AllTrimmed(pieces, [t] + rest)
    ensures pieces != [] && Trim(pieces[0]) == t && AllTrimmed(pieces[1..], rest)
  {
    hide Trim;
    assert forall i :: 0 <= i < |rest| ==> ([t] + rest)[i + 1] == rest[i] && pieces[1..][i] == pieces[i + 1];
  }

  lemma {:induction false} NoItems(c: Codec, pieces: seq<string>, n: nat)
    requires Sound(c) && EncodeItems(c, []).Some? && AllTrimmed(pieces, EncodeItems(c, []).value)
    ensures pieces == [] && ConfigItems(c, [], n) == Some([]) && AllNamed([])
  {
    hide Enumerates;
  }

  lemma {:induction false} ItemsRead(c: Codec, items: seq<Json>, pieces: seq<string>, n: nat)
    requires Sound(c) && AllNumeric(c, items) && EncodeItems(c, items).Some?
    requires AllTrimmed(pieces, EncodeItems(c, items).value) && (forall p :: p in pieces ==> |p| < n)
    ensures ConfigItems(c, pieces, n) == if AllNamed(items) then Some(items) else None
    decreases items
  {
    hide *;
    if items == [] {
      NoItems(c, pieces, n);
    } else {
      ItemsEncoded(c, items);
      var t, rest := Encode(c, items[0]).value, EncodeItems(c, items[1..]).value;
      AllNumericNext(c, items);
      AllTrimmedNext(pieces, t, rest);
      ValueStarts(c, items[0], t);
      ValueTrimmed(c, items[0], t);
      ConfigReads(c, items[0], t);
      OnlyTrimCounts(c, pieces[0], t);
      ItemsRead(c, items[1..], pieces[1..], n);
      OneItem(c, pieces, n);
      AllNamedNext(items);
      assert [items[0]] + items[1..] == items;
    }
  }

  lemma {:induction false} ValueTrimmed(c: Codec, v: Json, t: string)
    requires Sound(c) && Numeric(c, v) && Encode(c, v) == Some(t)
    ensures Trim(t) == t
  {
    ValueIsSolid(c, v);
    TrimOfTight(t);
  }

  // ----- maps -----

  /** The map once the entries of `keys` have been added. */
  function Extended(fields: map<string, Json>, keys: seq<string>, sofar: map<string, Json>): map<string, Json>
    requires forall k :: k in keys ==> k in fields
    decreases |keys|
  {
    if keys == [] then sofar else Extended(fields, keys[1..], sofar[keys[0] := fields[keys[0]]])
  }

  lemma {:induction false} ExtendedHolds(fields: map<string, Json>, keys: seq<string>, sofar: map<string, Json>)
    requires forall k :: k in keys ==> k in fields
    ensures forall k :: k in Extended(fields, keys, sofar) <==> k in keys || k in sofar
    ensures forall k :: k in Extended(fields, keys, sofar) ==>
      Extended(fields, keys, sofar)[k] == if k in keys then fields[k] else sofar[k]
    decreases |keys|
  {
    if keys != [] {
      assert forall k :: k in keys <==> k == keys[0] || k in keys[1..];
      ExtendedHolds(fields, keys[1..], sofar[keys[0] := fields[keys[0]]]);
    }
  }

  lemma {:induction false} AllEntries(keys: seq<string>, fields: map<string, Json>)
    requires Enumerates(keys, fields)
    ensures Extended(fields, keys, map[]) == fields
  {
    ExtendedHolds(fields, keys, map[]);
  }

  /** A piece of a printed map: an entry, behind a space or not. */
  ghost predicate EntryOf(c: Codec, v: Json, key: string, piece: string)
    requires v.JObject? && key in v.fields && Sound(c)
  {
    var t := Encode(c, v.fields[key]);
    t.Some? && (piece == GoQuote(c.printable, key) + " = " + t.value || piece == " " + (GoQuote(c.printable, key) + " = " + t.value))
  }

  ghost predicate EntriesNamed(fields: map<string, Json>, keys: seq<string>) {
    forall k :: k in keys ==> k in fields && k != "" && KeysNamed(fields[k])
  }

  lemma {:induction false} EntriesNamedNext(fields: map<string, Json>, keys: seq<string>)
    requires keys != [] && keys[0] in fields
    ensures EntriesNamed(fields, keys) <==> keys[0] != "" && KeysNamed(fields[keys[0]]) && EntriesNamed(fields, keys[1..])
  {
    hide KeysNamed;
    assert forall k :: k in keys <==> k == keys[0] || k in keys[1..];
  }

  ghost predicate AllEntriesOf(c: Codec, v: Json, keys: seq<string>, pieces: seq<string>)
    requires v.JObject? && Sound(c)
  {
    |pieces| == |keys| && forall i :: 0 <= i < |keys| ==> keys[i] in v.fields && EntryOf(c, v, keys[i], pieces[i])
  }

  lemma {:induction false} AllEntriesNext(c: Codec, v: Json, keys: seq<string>, pieces: seq<string>)
    requires v.JObject? && Sound(c) && keys != [] && AllEntriesOf(c, v, keys, pieces)
    ensures pieces != [] && keys[0] in v.fields && EntryOf(c, v, keys[0], pieces[0]) && AllEntriesOf(c, v, keys[1..], pieces[1..])
  {
    hide EntryOf, Enumerates;
    assert forall i :: 0 <= i < |keys| - 1 ==> keys[1..][i] == keys[i + 1] && pieces[1..][i] == pieces[i + 1];
  }

  lemma {:induction false} OneEntry(c: Codec, pieces: seq<string>, n: nat, sofar: map<string, Json>)
    requires pieces != [] && (forall p :: p in pieces ==> |p| < n)
    requires |Split(pieces[0], ':')| != 2 && |Split(pieces[0], '=')| == 2
    ensures var parts := Split(pieces[0], '=');
      var key, value := ConfigKey(c, parts[0]), ConfigValue(c, parts[1]);
      ConfigFields(c, pieces, n, sofar)
        == if key.None? || value.None? then None else ConfigFields(c, pieces[1..], n, sofar[key.value := value.value])
  {
    hide ConfigValue, SplitFrom, KeyOf;
  }

  lemma {:induction false} FieldsRead(c: Codec, v: Json, keys: seq<string>, pieces: seq<string>, n: nat, sofar: map<string, Json>)
    requires Sound(c) && Numeric(c, v) && v.JObject? && (forall k :: k in keys ==> k in v.fields)
    requires AllEntriesOf(c, v, keys, pieces) && (forall p :: p in pieces ==> |p| < n)
    ensures ConfigFields(c, pieces, n, sofar)
      == if EntriesNamed(v.fields, keys) then Some(Extended(v.fields, keys, sofar)) else None
    decreases v, 1, |keys|
  {
    if keys == [] {
      hide ConfigValue, Numeric, KeysNamed, Enumerates;
    } else {
      hide *;
      AllEntriesNext(c, v, keys, pieces);
      EntryReads(c, v, keys[0], pieces[0]);
      OneEntry(c, pieces, n, sofar);
      EntriesNamedNext(v.fields, keys);
      ExtendedNext(v.fields, keys, sofar);
      FieldsRead(c, v, keys[1..], pieces[1..], n, sofar[keys[0] := v.fields[keys[0]]]);
    }
  }

  lemma {:induction false} ExtendedNext(fields: map<string, Json>, keys: seq<string>, sofar: map<string, Json>)
    requires keys != [] && forall k :: k in keys ==> k in fields
    ensures Extended(fields, keys, sofar) == Extended(fields, keys[1..], sofar[keys[0] := fields[keys[0]]])
  {}

  /** One entry: its two pieces, the key they name, and the value they hold. */
  lemma {:induction false} EntryReads(c: Codec, v: Json, key: string, piece: string)
    requires Sound(c) && Numeric(c, v) && v.JObject? && key in v.fields && EntryOf(c, v, key, piece)
    ensures |Split(piece, ':')| != 2 && |Split(piece, '=')| == 2
    ensures ConfigKey(c, Split(piece, '=')[0]) == if key != "" then Some(key) else None
    ensures ConfigValue(c, Split(piece, '=')[1]) == if KeysNamed(v.fields[key]) then Some(v.fields[key]) else None
    decreases v, 0
  {
    var k, t := GoQuote(c.printable, key), Encode(c, v.fields[key]).value;
    var lead := if piece == k + " = " + t then "" else " ";
    assert piece == lead + (k + " = " + t) && Numeric(c, v.fields[key]);
    hide *;
    ValueIsSolid(c, v.fields[key]);
    EntrySplits(c, lead, key, t);
    KeyReads(c, lead, key);
    ConfigReads(c, v.fields[key], t);
    SolidScans(t);
    TrimOfTight(t);
    OnlyTrimCounts(c, " " + t, t);
  }

  lemma {:induction false} KeyReads(c: Codec, lead: string, key: string)
    requires Sound(c) && (lead == "" || lead == " ")
    ensures ConfigKey(c, lead + GoQuote(c.printable, key) + " ") == if key != "" then Some(key) else None
    ensures ConfigKey(c, GoQuote(c.printable, key)) == if key != "" then Some(key) else None
  {
    hide GoQuote, Solid, Trim, Split, Unquote, Enumerates, ConfigValue;
    var k := GoQuote(c.printable, key);
    KeyIsSolid(c, key);
    SolidScans(k);
    QuotesUnquote(c.printable, key);
    TrimOfTight(k);
    assert "" + k + " " == k + " ";
    OnlyTrimCounts(c, lead + k + " ", k);
    StringValue(c, k, key);
  }

  lemma {:induction false} MapShape(c: Codec, v: Json, t: string)
    requires Sound(c) && Numeric(c, v) && Encode(c, v) == Some(t) && v.JObject?
    ensures var keys := c.order(v.fields);
      && Enumerates(keys, v.fields) && (forall k :: k in keys ==> k in v.fields)
      && EncodeFields(c, v, keys).Some? && t == "{" + JoinWith(EncodeFields(c, v, keys).value, ", ") + "}"
      && (KeysNamed(v) <==> EntriesNamed(v.fields, keys))
      && (!Flat(v) ==> keys != [])
  {
    var keys := c.order(v.fields);
    assert Enumerates(keys, v.fields);
    hide EncodeFields, JoinWith;
    if v.fields != map[] { SomeKey(keys, v.fields); }
  }

  lemma {:induction false} MapReads(c: Codec, v: Json, t: string)
    requires Sound(c) && Numeric(c, v) && Encode(c, v) == Some(t) && v.JObject?
    ensures ConfigValue(c, t) == if KeysNamed(v) then Some(v) else None
    decreases v, 2
  {
    hide *;
    JsonValueRead(c, v, t);
    MapShape(c, v, t);
    if Flat(v) {
      FlatIsNamed(v);
      JsonTaken(c, t, v);
    } else {
      var keys := c.order(v.fields);
      var parts := EncodeFields(c, v, keys).value;
      EntriesPrinted(c, v, keys);
      EntriesSplit(c, v, keys, parts);
      var pieces := [parts[0]] + Spaced(parts[1..]);
      assert t[1..|t| - 1] == JoinWith(parts, ", ");
      MapValue(c, t);
      FieldsRead(c, v, keys, pieces, |t| - 1, map[]);
      AllEntries(keys, v.fields);
    }
  }

  lemma {:induction false} EntriesSplit(c: Codec, v: Json, keys: seq<string>, parts: seq<string>)
    requires Sound(c) && v.JObject? && keys != [] && (forall k :: k in keys ==> k in v.fields) && |parts| == |keys|
    requires forall i :: 0 <= i < |keys| ==> EntryAt(c, v, keys[i], parts[i])
    requires forall p :: p in parts ==> Level(p) && Whole(TOP, p, ',')
    ensures var pieces := [parts[0]] + Spaced(parts[1..]);
      && Split(JoinWith(parts, ", "), ',') == pieces && AllEntriesOf(c, v, keys, pieces)
  {
    hide Level, Whole, GoQuote, Encode, Enumerates, SplitFrom;
    SplitJoined("", parts);
    assert "" + parts[0] == parts[0];
    SpacedAt(parts[1..]);
    var pieces := [parts[0]] + Spaced(parts[1..]);
    forall i | 0 <= i < |keys| ensures EntryOf(c, v, keys[i], pieces[i]) {
      assert EntryAt(c, v, keys[i], parts[i]);
      assert i > 0 ==> pieces[i] == " " + parts[i];
    }
  }

  /** The entry of `key` as it is printed. */
  ghost predicate EntryAt(c: Codec, v: Json, key: string, part: string)
    requires v.JObject? && Sound(c)
  {
    key in v.fields && Encode(c, v.fields[key]).Some?
    && part == GoQuote(c.printable, key) + " = " + Encode(c, v.fields[key]).value
  }

  lemma {:induction false} SomeKey(keys: seq<string>, fields: map<string, Json>)
    requires Enumerates(keys, fields) && fields != map[]
    ensures keys != []
  {
    assert fields.Keys != {};
    var k :| k in fields.Keys;
    assert k in keys;
  }

  lemma {:induction false} EntriesPrinted(c: Codec, v: Json, keys: seq<string>)
    requires Sound(c) && Numeric(c, v) && v.JObject? && (forall k :: k in keys ==> k in v.fields) && EncodeFields(c, v, keys).Some?
    ensures var parts := EncodeFields(c, v, keys).value;
      && |parts| == |keys| && (forall i :: 0 <= i < |keys| ==> EntryAt(c, v, keys[i], parts[i]))
      && (forall p :: p in parts ==> Level(p) && Whole(TOP, p, ','))
  {
    if keys != [] {
      hide Level, Whole, GoQuote, Solid, Enumerates, Split, OneLine, Encode;
      var t := Encode(c, v.fields[keys[0]]).value;
      assert Numeric(c, v.fields[keys[0]]);
      hide Numeric;
      ValueIsSolid(c, v.fields[keys[0]]);
      FieldIsLevel(c, keys[0], t);
      EntrySplits(c, "", keys[0], t);
      assert "" + (GoQuote(c.printable, keys[0]) + " = " + t) == GoQuote(c.printable, keys[0]) + " = " + t;
      EntriesPrinted(c, v, keys[1..]);
    }
  }
}
