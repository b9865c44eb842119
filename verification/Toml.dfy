/** Agent definitions as TOML: the printer (internal/session/definitions.go:706-775) and the
    parser (internal/session/definition_config.go:137-274). */
module Toml {
  import opened Basics
  import opened Text
  import opened Conversation
  import opened ConfigText
  import opened ConfigQuote
  import opened ConfigValues

  type Table = map<string, Json>

  // ----- printing -----

  /** The entries that are neither tables nor null, one line each. */
  function ScalarLines(c: Codec, m: Table, keys: seq<string>): Option<seq<string>>
    requires Sound(c) && forall k :: k in keys ==> k in m
    decreases |keys|
  {
    if keys == [] then Some([])
    else
      var rest, value := ScalarLines(c, m, keys[1..]), m[keys[0]];
      if value.JObject? || value.JNull? then rest
      else
        var text := Encode(c, value);
        if text.None? || rest.None? then None
        else Some([GoQuote(c.printable, keys[0]) + " = " + text.value] + rest.value)
  }

  function Header(c: Codec, path: seq<string>): string { "[" + JoinWith(QuoteAll(c, path), ".") + "]" }

  function QuoteAll(c: Codec, path: seq<string>): seq<string> {
    if path == [] then [] else [GoQuote(c.printable, path[0])] + QuoteAll(c, path[1..])
  }

  /** The tables among the entries, each behind an empty line and its header. */
  function SubLines(c: Codec, v: Json, path: seq<string>, keys: seq<string>): Option<seq<string>>
    requires Sound(c) && v.JObject? && forall k :: k in keys ==> k in v.fields
    decreases v, 0, |keys|
  {
    if keys == [] then Some([])
    else
      var rest, sub := SubLines(c, v, path, keys[1..]), v.fields[keys[0]];
      if !sub.JObject? then rest
      else
        var lines := TableLines(c, sub, path + [keys[0]]);
        if lines.None? || rest.None? then None
        else Some(["", Header(c, path + [keys[0]])] + lines.value + rest.value)
  }

  /** A table: its entries, then the tables inside it. */
  function TableLines(c: Codec, v: Json, path: seq<string>): Option<seq<string>>
    requires Sound(c) && v.JObject?
    decreases v, 1
  {
    assert Enumerates(c.order(v.fields), v.fields);
    var scalars, subs := ScalarLines(c, v.fields, c.order(v.fields)), SubLines(c, v, path, c.order(v.fields));
    if scalars.None? || subs.None? then None else Some(scalars.value + subs.value)
  }

  function Unlines(lines: seq<string>): string { if lines == [] then "" else lines[0] + "\n" + Unlines(lines[1..]) }

  /** Fails when a list holds a null, which TOML cannot say. */
  function EncodeToml(c: Codec, v: Json): Option<string>
    requires Sound(c) && v.JObject?
  {
    var lines := TableLines(c, v, []);
    if lines.None? then None else Some(Unlines(lines.value))
  }

  // ----- parsing -----

  /** A line without its comment. */
  function Comment(line: string): string { Trim(Split(line, '#')[0]) }

  function Lines(s: string): (lines: seq<string>)
    ensures lines != []
  {
    if s == "" then [""]
    else
      var rest := Lines(s[1..]);
      if s[0] == '\n' then [""] + rest else [[s[0]] + rest[0]] + rest[1..]
  }

  /** Line breaks of two characters become one. */
  function Unify(s: string): string
    decreases |s|
  {
    if s == "" then "" else if "\r\n" <= s then "\n" + Unify(s[2..]) else [s[0]] + Unify(s[1..])
  }

  function TableAt(root: Table, path: seq<string>): Option<Table>
    decreases |path|
  {
    if path == [] then Some(root)
    else if path[0] in root && root[path[0]].JObject? then TableAt(root[path[0]].fields, path[1..])
    else None
  }

  /** The root with the table at `path` replaced. */
  function Put(root: Table, path: seq<string>, table: Table): Table
    decreases |path|
  {
    if path == [] then table
    else if path[0] in root && root[path[0]].JObject? then root[path[0] := JObject(Put(root[path[0]].fields, path[1..], table))]
    else root
  }

  /** Walks down the keys of a header from `at`, making the tables that are missing. */
  function Open(c: Codec, root: Table, at: seq<string>, keys: seq<string>): Option<(Table, seq<string>)>
    decreases |keys|
  {
    if keys == [] then Some((root, at))
    else
      var key, table := ConfigKey(c, keys[0]), TableAt(root, at);
      if key.None? || table.None? then None
      else
        var k := key.value;
        if k !in table.value || table.value[k].JNull? then
          Open(c, Put(root, at, table.value[k := JObject(map[])]), at + [k], keys[1..])
        else if table.value[k].JObject? then Open(c, root, at + [k], keys[1..])
        else None
  }

  function IndexOf(s: string, sub: string): (at: Option<nat>)
    ensures at.Some? ==> at.value + |sub| <= |s|
  {
    if |s| < |sub| then None
    else if s[..|sub|] == sub then Some(0)
    else if s == "" then None
    else
      var later := IndexOf(s[1..], sub);
      if later.None? then None else Some(later.value + 1)
  }

  function SkipBlank(s: string): (r: string)
    ensures |r| <= |s|
  {
    if s != "" && s[0] in {' ', '\t', '\r', '\n'} then SkipBlank(s[1..]) else s
  }

  /** A basic multi-line string: a backslash at the end of a line swallows the space after it. */
  function DecodeMultiline(raw: string): Option<string>
    decreases |raw|
  {
    if raw == "" then Some("")
    else if raw[0] != '\\' then
      var rest := DecodeMultiline(raw[1..]);
      if rest.None? then None else Some([raw[0]] + rest.value)
    else if |raw| < 2 then None
    else if raw[1] == '\n' || raw[1] == '\r' then DecodeMultiline(SkipBlank(raw[2..]))
    else
      var end := if raw[1] == 'u' then 6 else if raw[1] == 'U' then 10 else 2;
      if end > |raw| then None
      else
        var value, rest := Unquote("\"" + raw[..end] + "\""), DecodeMultiline(raw[end..]);
        if value.None? || rest.None? then None else Some(value.value + rest.value)
  }

  const QUOTES := "\"\"\""
  const APOSTROPHES := "'''"

  predicate OpensMultiline(raw: string) { QUOTES <= raw || APOSTROPHES <= raw }

  /** Lines are added to `raw` until it holds the delimiter. */
  function Gather(raw: string, delimiter: string, lines: seq<string>): (r: Option<(string, seq<string>)>)
    ensures r.Some? ==> |r.value.1| <= |lines|
    decreases |lines|
  {
    if IndexOf(raw, delimiter).Some? then Some((raw, lines))
    else if lines == [] then None
    else Gather(raw + "\n" + lines[0], delimiter, lines[1..])
  }

  /** A multi-line string that begins in `raw`, and the lines after it. */
  function Multiline(raw: string, lines: seq<string>): (r: Option<(string, seq<string>)>)
    requires OpensMultiline(raw)
    ensures r.Some? ==> |r.value.1| <= |lines|
  {
    var delimiter := raw[..3];
    if raw[3..] == "" && lines == [] then None
    else
      var start, after := if raw[3..] == "" then lines[0] else raw[3..], if raw[3..] == "" then lines[1..] else lines;
      var gathered := Gather(start, delimiter, after);
      if gathered.None? then None
      else
        var whole := gathered.value.0;
        var end := IndexOf(whole, delimiter);
        if end.None? || Trim(Comment(whole[end.value + 3..])) != "" then None
        else
          var text := if delimiter == QUOTES then DecodeMultiline(whole[..end.value]) else Some(whole[..end.value]);
          if text.None? then None else Some((text.value, gathered.value.1))
  }

  predicate OpenList(raw: string) { raw != "" && raw[0] == '[' && raw[|raw| - 1] != ']' }

  /** A list that is not closed goes on over the lines that follow. */
  function Continue(raw: string, lines: seq<string>): (r: Option<(string, seq<string>)>)
    ensures r.Some? ==> |r.value.1| <= |lines|
    decreases |lines|
  {
    if !OpenList(raw) then Some((raw, lines))
    else if lines == [] then None
    else Continue(raw + " " + Comment(lines[0]), lines[1..])
  }

  /** What stands after the equals sign, and the lines after it. */
  function Value(c: Codec, raw: string, lines: seq<string>): (r: Option<(Json, seq<string>)>)
    ensures r.Some? ==> |r.value.1| <= |lines|
  {
    if OpensMultiline(raw) then
      var text := Multiline(raw, lines);
      if text.None? then None else Some((JString(text.value.0), text.value.1))
    else
      var whole := Continue(raw, lines);
      if whole.None? then None
      else
        var value := ConfigValue(c, whole.value.0);
        if value.None? then None else Some((value.value, whole.value.1))
  }

  predicate IsHeader(line: string) { line != "" && line[0] == '[' }

  /** What a header line does: the root it leaves, and the table it opens. */
  function OpenHeader(c: Codec, root: Table, line: string): Option<(Table, seq<string>)>
    requires IsHeader(line)
  {
    if "[[" <= line || line[|line| - 1] != ']' then None
    else Open(c, root, [], Split(line[1..|line| - 1], '.'))
  }

  /** What an entry line does: the root it leaves, and the lines after it. */
  function Enter(c: Codec, root: Table, at: seq<string>, line: string, lines: seq<string>): (r: Option<(Table, seq<string>)>)
    ensures r.Some? ==> |r.value.1| <= |lines|
  {
    var pieces := Split(line, '=');
    if |pieces| < 2 then None
    else
      var key, value := ConfigKey(c, pieces[0]), Value(c, Trim(JoinWith(pieces[1..], "=")), lines);
      var table := TableAt(root, at);
      if key.None? || value.None? || table.None? || key.value in table.value then None
      else Some((Put(root, at, table.value[key.value := value.value.0]), value.value.1))
  }

  function ParseFrom(c: Codec, root: Table, at: seq<string>, lines: seq<string>): Option<Table>
    decreases |lines|
  {
    if lines == [] then Some(root)
    else
      var line := Comment(lines[0]);
      if line == "" then ParseFrom(c, root, at, lines[1..])
      else if IsHeader(line) then
        var header := OpenHeader(c, root, line);
        if header.None? then None else ParseFrom(c, header.value.0, header.value.1, lines[1..])
      else
        var entered := Enter(c, root, at, line, lines[1..]);
        if entered.None? then None else ParseFrom(c, entered.value.0, at, entered.value.1)
  }

  function ParseToml(c: Codec, text: string): Option<Table> { ParseFrom(c, map[], [], Lines(Unify(text))) }

  // ----- the printer and the parser as the source runs them -----

  class TomlWriter {
    var out: string

    constructor ()
      ensures out == ""
    {
      out := "";
    }

    /** Appends one table and the tables inside it. */
    method Write(c: Codec, v: Json, path: seq<string>) returns (ok: bool)
      requires Sound(c) && v.JObject?
      modifies this
      ensures ok <==> TableLines(c, v, path).Some?
      ensures ok ==> out == old(out) + Unlines(TableLines(c, v, path).value)
      decreases v, 1
    {
      assert Enumerates(c.order(v.fields), v.fields);
      var keys := c.order(v.fields);
      ok := WriteScalars(c, v.fields, keys);
      if !ok { return; }
      ok := WriteTables(c, v, path, keys);
      if ok {
        UnlinesAppend(ScalarLines(c, v.fields, keys).value, SubLines(c, v, path, keys).value);
      }
    }

    method WriteScalars(c: Codec, m: Table, keys: seq<string>) returns (ok: bool)
      requires Sound(c) && forall k :: k in keys ==> k in m
      modifies this
      ensures ok <==> ScalarLines(c, m, keys).Some?
      ensures ok ==> out == old(out) + Unlines(ScalarLines(c, m, keys).value)
    {
      ghost var whole := ScalarLines(c, m, keys);
      assert keys[0..] == keys;
      for i := 0 to |keys|
        invariant whole.Some? <==> ScalarLines(c, m, keys[i..]).Some?
        invariant whole.Some? ==> out + Unlines(ScalarLines(c, m, keys[i..]).value) == old(out) + Unlines(whole.value)
      {
        hide Sound, Encode, GoQuote, Unlines;
        var value := m[keys[i]];
        assert keys[i..][0] == keys[i] && keys[i..][1..] == keys[i + 1..];
        if value.JObject? || value.JNull? { continue; }
        var text := Encode(c, value);
        if text.None? { return false; }
        ghost var rest := ScalarLines(c, m, keys[i + 1..]);
        var line := GoQuote(c.printable, keys[i]) + " = " + text.value;
        if rest.Some? { UnlinesCons(out, line, rest.value); }
        out := out + line + "\n";
      }
      assert keys[|keys|..] == [];
      ok := true;
    }

    method WriteTables(c: Codec, v: Json, path: seq<string>, keys: seq<string>) returns (ok: bool)
      requires Sound(c) && v.JObject? && forall k :: k in keys ==> k in v.fields
      modifies this
      ensures ok <==> SubLines(c, v, path, keys).Some?
      ensures ok ==> out == old(out) + Unlines(SubLines(c, v, path, keys).value)
      decreases v, 0
    {
      ghost var whole := SubLines(c, v, path, keys);
      assert keys[0..] == keys;
      for i := 0 to |keys|
        invariant whole.Some? <==> SubLines(c, v, path, keys[i..]).Some?
        invariant whole.Some? ==> out + Unlines(SubLines(c, v, path, keys[i..]).value) == old(out) + Unlines(whole.value)
      {
        hide Sound, Unlines, Header, TableLines;
        var sub := v.fields[keys[i]];
        assert keys[i..][0] == keys[i] && keys[i..][1..] == keys[i + 1..];
        if !sub.JObject? { continue; }
        var inner := path + [keys[i]];
        ghost var lines, rest := TableLines(c, sub, inner), SubLines(c, v, path, keys[i + 1..]);
        if lines.Some? && rest.Some? {
          UnlinesTable(out, Header(c, inner), lines.value, rest.value);
        }
        out := out + "\n" + Header(c, inner) + "\n";
        ok := Write(c, sub, inner);
        if !ok { return; }
      }
      assert keys[|keys|..] == [];
      ok := true;
    }
  }

  lemma {:induction false} UnlinesAppend(a: seq<string>, b: seq<string>)
    ensures Unlines(a + b) == Unlines(a) + Unlines(b)
  {
    if a == [] {
      assert a + b == b;
    } else {
      assert (a + b)[0] == a[0] && (a + b)[1..] == a[1..] + b;
      UnlinesAppend(a[1..], b);
      assert a[0] + "\n" + (Unlines(a[1..]) + Unlines(b)) == (a[0] + "\n" + Unlines(a[1..])) + Unlines(b);
    }
  }

  lemma {:induction false} UnlinesCons(out: string, line: string, rest: seq<string>)
    ensures out + Unlines([line] + rest) == (out + line + "\n") + Unlines(rest)
  {
    assert ([line] + rest)[0] == line && ([line] + rest)[1..] == rest;
  }

  lemma {:induction false} UnlinesTable(out: string, header: string, lines: seq<string>, rest: seq<string>)
    ensures out + Unlines(["", header] + lines + rest) == (out + "\n" + header + "\n") + Unlines(lines) + Unlines(rest)
  {
    UnlinesAppend(["", header] + lines, rest);
    UnlinesAppend(["", header], lines);
    assert ["", header][1..] == [header] && [header][1..] == [];
    assert Unlines(["", header]) == "\n" + header + "\n";
  }

  method EncodeDefinitionToml(c: Codec, v: Json) returns (text: Option<string>)
    requires Sound(c) && v.JObject?
    ensures text == EncodeToml(c, v)
  {
    var writer := new TomlWriter();
    var ok := writer.Write(c, v, []);
    if !ok { return None; }
    text := Some(writer.out);
    assert "" + Unlines(TableLines(c, v, []).value) == Unlines(TableLines(c, v, []).value);
  }

  method OpenTable(c: Codec, from: Table, keys: seq<string>) returns (result: Option<(Table, seq<string>)>)
    ensures result == Open(c, from, [], keys)
  {
    var root, current := from, [];
    assert keys[0..] == keys;
    for i := 0 to |keys|
      invariant Open(c, root, current, keys[i..]) == Open(c, from, [], keys)
    {
      hide ConfigKey, TableAt, Put;
      assert keys[i..][0] == keys[i] && keys[i..][1..] == keys[i + 1..];
      var key, table := ConfigKey(c, keys[i]), TableAt(root, current);
      if key.None? || table.None? { return None; }
      var k := key.value;
      if k !in table.value || table.value[k].JNull? {
        root := Put(root, current, table.value[k := JObject(map[])]);
      } else if !table.value[k].JObject? {
        return None;
      }
      current := current + [k];
    }
    assert keys[|keys|..] == [];
    result := Some((root, current));
  }

  /** Reads on from line `i` until `raw` holds the delimiter. */
  method GatherLines(raw: string, delimiter: string, lines: seq<string>, i: nat) returns (result: Option<(string, nat)>)
    requires i <= |lines|
    ensures result.None? <==> Gather(raw, delimiter, lines[i..]).None?
    ensures result.Some? ==> i <= result.value.1 <= |lines| && Gather(raw, delimiter, lines[i..]) == Some((result.value.0, lines[result.value.1..]))
  {
    var text, next := raw, i;
    while IndexOf(text, delimiter).None?
      invariant i <= next <= |lines|
      invariant Gather(text, delimiter, lines[next..]) == Gather(raw, delimiter, lines[i..])
      decreases |lines| - next
    {
      hide IndexOf;
      if next >= |lines| { return None; }
      assert lines[next..][0] == lines[next] && lines[next..][1..] == lines[next + 1..];
      text, next := text + "\n" + lines[next], next + 1;
    }
    result := Some((text, next));
  }

  /** Reads on from line `i` while a list is open. */
  method ContinueList(raw: string, lines: seq<string>, i: nat) returns (result: Option<(string, nat)>)
    requires i <= |lines|
    ensures result.None? <==> Continue(raw, lines[i..]).None?
    ensures result.Some? ==> i <= result.value.1 <= |lines| && Continue(raw, lines[i..]) == Some((result.value.0, lines[result.value.1..]))
  {
    hide *;
    var text, next := raw, i;
    while OpenList(text)
      invariant i <= next <= |lines|
      invariant Continue(text, lines[next..]) == Continue(raw, lines[i..])
      decreases |lines| - next
    {
      hide *;
      ContinueStep(text, lines[next..]);
      if next >= |lines| { return None; }
      assert lines[next..][0] == lines[next] && lines[next..][1..] == lines[next + 1..];
      text, next := text + " " + Comment(lines[next]), next + 1;
    }
    ContinueStep(text, lines[next..]);
    result := Some((text, next));
  }

  lemma {:induction false} ContinueStep(raw: string, lines: seq<string>)
    ensures Continue(raw, lines) ==
      if !OpenList(raw) then Some((raw, lines))
      else if lines == [] then None
      else Continue(raw + " " + Comment(lines[0]), lines[1..])
  {
    hide OpenList, Comment;
  }

  method ReadMultiline(raw: string, lines: seq<string>, i: nat) returns (result: Option<(string, nat)>)
    requires i <= |lines| && OpensMultiline(raw)
    ensures result.None? <==> Multiline(raw, lines[i..]).None?
    ensures result.Some? ==> i <= result.value.1 <= |lines| && Multiline(raw, lines[i..]) == Some((result.value.0, lines[result.value.1..]))
  {
    hide IndexOf, DecodeMultiline, Gather, Comment, Trim;
    var delimiter, start, next := raw[..3], raw[3..], i;
    if start == "" {
      if i >= |lines| { return None; }
      assert lines[i..][0] == lines[i] && lines[i..][1..] == lines[i + 1..];
      start, next := lines[i], i + 1;
    }
    var gathered := GatherLines(start, delimiter, lines, next);
    if gathered.None? { return None; }
    var whole := gathered.value.0;
    var end := IndexOf(whole, delimiter);
    if end.None? || Trim(Comment(whole[end.value + 3..])) != "" { return None; }
    var text := whole[..end.value];
    if delimiter == QUOTES {
      var decoded := DecodeMultiline(text);
      if decoded.None? { return None; }
      text := decoded.value;
    }
    result := Some((text, gathered.value.1));
  }

  method ReadValue(c: Codec, raw: string, lines: seq<string>, i: nat) returns (result: Option<(Json, nat)>)
    requires i <= |lines|
    ensures result.None? <==> Value(c, raw, lines[i..]).None?
    ensures result.Some? ==> i <= result.value.1 <= |lines| && Value(c, raw, lines[i..]) == Some((result.value.0, lines[result.value.1..]))
  {
    hide Multiline, Continue, ConfigValue, OpensMultiline;
    if OpensMultiline(raw) {
      var text := ReadMultiline(raw, lines, i);
      if text.None? { return None; }
      return Some((JString(text.value.0), text.value.1));
    }
    var whole := ContinueList(raw, lines, i);
    if whole.None? { return None; }
    var value := ConfigValue(c, whole.value.0);
    if value.None? { return None; }
    result := Some((value.value, whole.value.1));
  }

  /** The parse as the source runs it: one line index, the root, and the table being filled. */
  method ParseDefinitionToml(c: Codec, text: string) returns (result: Option<Table>)
    ensures result == ParseToml(c, text)
  {
    var lines := Lines(Unify(text));
    var root: Table, current, i := map[], [], 0;
    assert lines[0..] == lines;
    while i < |lines|
      invariant i <= |lines| && ParseFrom(c, root, current, lines[i..]) == ParseToml(c, text)
    {
      hide Comment, OpenHeader, Open, Split, ConfigKey, Value, TableAt, Put, ParseToml;
      assert lines[i..][0] == lines[i] && lines[i..][1..] == lines[i + 1..];
      var line := Comment(lines[i]);
      i := i + 1;
      if line == "" { continue; }
      if IsHeader(line) {
        var header := ReadHeader(c, root, line);
        if header.None? { return None; }
        root, current := header.value.0, header.value.1;
        continue;
      }
      var pieces := Split(line, '=');
      if |pieces| < 2 { return None; }
      var key := ConfigKey(c, pieces[0]);
      if key.None? { return None; }
      var value := ReadValue(c, Trim(JoinWith(pieces[1..], "=")), lines, i);
      if value.None? { return None; }
      var table := TableAt(root, current);
      if table.None? || key.value in table.value { return None; }
      root := Put(root, current, table.value[key.value := value.value.0]);
      i := value.value.1;
    }
    assert lines[i..] == [];
    result := Some(root);
  }

  method ReadHeader(c: Codec, root: Table, line: string) returns (result: Option<(Table, seq<string>)>)
    requires IsHeader(line)
    ensures result == OpenHeader(c, root, line)
  {
    if "[[" <= line || line[|line| - 1] != ']' { return None; }
    result := OpenTable(c, root, Split(line[1..|line| - 1], '.'));
  }
}
