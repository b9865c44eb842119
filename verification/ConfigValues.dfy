/** The values of agent definition files: how one is printed, and how text is read as one
    (internal/session/definitions.go:706-742, definition_config.go:14-96). */
module ConfigValues {
  import opened Basics
  import opened Text
  import opened Conversation
  import opened ConfigText
  import opened ConfigQuote

  /** The library's part: what `strconv.ParseFloat` makes of a text, as the token that prints the
      number; `strconv.IsPrint`; and the order in which a map's entries are printed. */
  datatype Codec = Codec(parseFloat: string -> Option<string>, printable: char -> bool, order: map<string, Json> -> seq<string>)

  ghost predicate Enumerates(keys: seq<string>, m: map<string, Json>) {
    && (forall i, j :: 0 <= i < j < |keys| ==> keys[i] != keys[j])
    && (forall k :: k in keys <==> k in m)
  }

  /** Control characters are not printable, and every entry of a map is printed once. */
  ghost predicate Sound(c: Codec) {
    && (forall d :: c.printable(d) ==> d >= ' ')
    && (forall m :: Enumerates(c.order(m), m))
  }

  // ----- printing -----

  function JoinWith(parts: seq<string>, between: string): string {
    if parts == [] then "" else if |parts| == 1 then parts[0] else parts[0] + between + JoinWith(parts[1..], between)
  }

  function Encode(c: Codec, v: Json): Option<string>
    requires Sound(c)
    decreases v, 1
  {
    match v
    case JNull => None
    case JBool(b) => Some(if b then "true" else "false")
    case JNumber(digits) => Some(digits)
    case JString(s) => Some(JsonQuote(s))
    case JArray(items) =>
      var parts := EncodeItems(c, items);
      if parts.None? then None else Some("[" + JoinWith(parts.value, ", ") + "]")
    case JObject(fields) =>
      assert Enumerates(c.order(fields), fields);
      var parts := EncodeFields(c, v, c.order(fields));
      if parts.None? then None else Some("{" + JoinWith(parts.value, ", ") + "}")
  }

  function EncodeItems(c: Codec, items: seq<Json>): Option<seq<string>>
    requires Sound(c)
    decreases items
  {
    if items == [] then Some([])
    else
      var first, rest := Encode(c, items[0]), EncodeItems(c, items[1..]);
      if first.None? || rest.None? then None else Some([first.value] + rest.value)
  }

  function EncodeFields(c: Codec, v: Json, keys: seq<string>): Option<seq<string>>
    requires Sound(c) && v.JObject? && forall k :: k in keys ==> k in v.fields
    decreases v, 0, |keys|
  {
    if keys == [] then Some([])
    else
      var first, rest := Encode(c, v.fields[keys[0]]), EncodeFields(c, v, keys[1..]);
      if first.None? || rest.None? then None
      else Some([GoQuote(c.printable, keys[0]) + " = " + first.value] + rest.value)
  }

  // ----- reading JSON -----

  predicate JsonSpace(c: char) { c == ' ' || c == '\t' || c == '\n' || c == '\r' }

  function SkipSpace(s: string): (r: string)
    ensures |r| <= |s|
  {
    if s != "" && JsonSpace(s[0]) then SkipSpace(s[1..]) else s
  }

  predicate IsDigit(c: char) { '0' <= c <= '9' }

  predicate NumberChar(c: char) { IsDigit(c) || c == '+' || c == '-' || c == '.' || c == 'e' || c == 'E' }

  function NumberRun(s: string): (n: nat)
    ensures n <= |s| && (forall i :: 0 <= i < n ==> NumberChar(s[i])) && (n < |s| ==> !NumberChar(s[n]))
  {
    if s == "" || !NumberChar(s[0]) then 0
    else
      var n := NumberRun(s[1..]);
      assert forall i :: 0 < i < n + 1 ==> s[i] == s[1..][i - 1];
      n + 1
  }

  function Digits(s: string): (n: nat)
    ensures n <= |s| && forall i :: 0 <= i < n ==> IsDigit(s[i])
  {
    if s == "" || !IsDigit(s[0]) then 0
    else
      var n := Digits(s[1..]);
      assert forall i :: 0 < i < n + 1 ==> s[i] == s[1..][i - 1];
      n + 1
  }

  predicate JsonExponent(s: string) {
    s == "" || ((s[0] == 'e' || s[0] == 'E') &&
      var digits := if |s| > 1 && (s[1] == '+' || s[1] == '-') then s[2..] else s[1..];
      digits != "" && Digits(digits) == |digits|)
  }

  predicate JsonFraction(s: string) {
    if s != "" && s[0] == '.' then Digits(s[1..]) > 0 && JsonExponent(s[1 + Digits(s[1..])..]) else JsonExponent(s)
  }

  /** The number grammar of RFC 8259, section 6. */
  predicate JsonNumber(t: string) {
    var whole := if t != "" && t[0] == '-' then t[1..] else t;
    var n := Digits(whole);
    n > 0 && (whole[0] == '0' ==> n == 1) && JsonFraction(whole[n..])
  }

  function JsonValue(c: Codec, raw: string): (r: Option<(Json, string)>)
    ensures r.Some? ==> |r.value.1| < |raw|
    decreases |raw|, 1
  {
    var s := SkipSpace(raw);
    if s == "" then None
    else if s[0] == '"' then
      var text := JsonString(s[1..]);
      if text.None? then None else Some((JString(text.value.0), text.value.1))
    else if s[0] == '[' then
      var items := JsonArray(c, s[1..]);
      if items.None? then None else Some((JArray(items.value.0), items.value.1))
    else if s[0] == '{' then
      var fields := JsonObject(c, s[1..]);
      if fields.None? then None else Some((JObject(fields.value.0), fields.value.1))
    else if "true" <= s then Some((JBool(true), s[4..]))
    else if "false" <= s then Some((JBool(false), s[5..]))
    else if "null" <= s then Some((JNull, s[4..]))
    else
      var n := NumberRun(s);
      if n == 0 || !JsonNumber(s[..n]) then None
      else
        var number := c.parseFloat(s[..n]);
        if number.None? then None else Some((JNumber(number.value), s[n..]))
  }

  function JsonArray(c: Codec, s: string): (r: Option<(seq<Json>, string)>)
    ensures r.Some? ==> |r.value.1| < |s|
    decreases |s|, 3
  {
    var inner := SkipSpace(s);
    if inner == "" then None
    else if inner[0] == ']' then Some(([], inner[1..]))
    else JsonElements(c, s)
  }

  function JsonElements(c: Codec, s: string): (r: Option<(seq<Json>, string)>)
    ensures r.Some? ==> |r.value.1| < |s|
    decreases |s|, 2
  {
    var first := JsonValue(c, s);
    if first.None? then None
    else
      var after := SkipSpace(first.value.1);
      if after == "" then None
      else if after[0] == ']' then Some(([first.value.0], after[1..]))
      else if after[0] == ',' then
        var rest := JsonElements(c, after[1..]);
        if rest.None? then None else Some(([first.value.0] + rest.value.0, rest.value.1))
      else None
  }

  function JsonObject(c: Codec, s: string): (r: Option<(map<string, Json>, string)>)
    ensures r.Some? ==> |r.value.1| < |s|
    decreases |s|, 3
  {
    var inner := SkipSpace(s);
    if inner == "" then None
    else if inner[0] == '}' then Some((map[], inner[1..]))
    else JsonMembers(c, s, map[])
  }

  /** A repeated name keeps its last value. */
  function JsonMembers(c: Codec, s: string, fields: map<string, Json>): (r: Option<(map<string, Json>, string)>)
    ensures r.Some? ==> |r.value.1| < |s|
    decreases |s|, 2
  {
    var start := SkipSpace(s);
    if start == "" || start[0] != '"' then None
    else
      var key := JsonString(start[1..]);
      if key.None? then None
      else
        var colon := SkipSpace(key.value.1);
        if colon == "" || colon[0] != ':' then None
        else
          var value := JsonValue(c, colon[1..]);
          if value.None? then None
          else
            var after, fields' := SkipSpace(value.value.1), fields[key.value.0 := value.value.0];
            if after == "" then None
            else if after[0] == '}' then Some((fields', after[1..]))
            else if after[0] == ',' then JsonMembers(c, after[1..], fields')
            else None
  }

  function JsonText(c: Codec, raw: string): Option<Json> {
    var v := JsonValue(c, raw);
    if v.Some? && SkipSpace(v.value.1) == "" then Some(v.value.0) else None
  }

  // ----- reading values -----

  function Unpair(s: string): string
    decreases |s|
  {
    if s == "" then "" else if "''" <= s then "'" + Unpair(s[2..]) else [s[0]] + Unpair(s[1..])
  }

  /** JSON if it is JSON; otherwise brackets hold items split at commas, braces hold entries split
      at a colon or an equals sign, and anything else is a scalar. */
  function ConfigValue(c: Codec, raw: string): Option<Json>
    decreases |raw|, 0
  {
    var t := Trim(raw);
    if t == "" then Some(JString(""))
    else if t[0] == '[' || t[0] == '{' then
      var last := t[|t| - 1];
      if JsonText(c, t).Some? then JsonText(c, t)
      else if t[0] == '[' && last == ']' then
        var items := ConfigItems(c, Split(t[1..|t| - 1], ','), |t| - 1);
        if items.None? then None else Some(JArray(items.value))
      else if t[0] == '{' && last == '}' then
        var fields := ConfigFields(c, Split(t[1..|t| - 1], ','), |t| - 1, map[]);
        if fields.None? then None else Some(JObject(fields.value))
      else None
    else if t[0] == '"' then
      var text := Unquote(t);
      if text.None? then None else Some(JString(text.value))
    else if t[0] == '\'' then
      if |t| < 2 || t[|t| - 1] != '\'' then None else Some(JString(Unpair(t[1..|t| - 1])))
    else if t == "true" then Some(JBool(true))
    else if t == "false" then Some(JBool(false))
    else if t == "null" || t == "~" then Some(JNull)
    else if c.parseFloat(t).Some? then Some(JNumber(c.parseFloat(t).value))
    else if t[0] in {'&', '*', '!', '|', '>'} then None
    else Some(JString(t))
  }

  function ConfigItems(c: Codec, items: seq<string>, n: nat): Option<seq<Json>>
    requires forall p :: p in items ==> |p| < n
    decreases n, |items|
  {
    if items == [] then Some([])
    else if Trim(items[0]) == "" then ConfigItems(c, items[1..], n)
    else
      var first, rest := ConfigValue(c, items[0]), ConfigItems(c, items[1..], n);
      if first.None? || rest.None? then None else Some([first.value] + rest.value)
  }

  function ConfigFields(c: Codec, items: seq<string>, n: nat, fields: map<string, Json>): Option<map<string, Json>>
    requires forall p :: p in items ==> |p| < n
    decreases n, |items|
  {
    if items == [] then Some(fields)
    else
      var byColon := Split(items[0], ':');
      var parts := if |byColon| == 2 then byColon else Split(items[0], '=');
      if |parts| != 2 then None
      else
        assert parts[0] in parts && parts[1] in parts;
        var key, value := ConfigValue(c, parts[0]), ConfigValue(c, parts[1]);
        if KeyOf(key).None? || value.None? then None
        else ConfigFields(c, items[1..], n, fields[KeyOf(key).value := value.value])
  }

  /** A key is a string that is not empty. */
  function KeyOf(v: Option<Json>): Option<string> {
    match v
    case Some(JString(k)) => if k == "" then None else Some(k)
    case _ => None
  }

  function ConfigKey(c: Codec, raw: string): Option<string> { KeyOf(ConfigValue(c, raw)) }
}
