/** The definition printer and parser undo each other on every map of definitions. */
module TomlRoundTrip {
  import opened Basics
  import opened Text
  import opened Conversation
  import opened ConfigText
  import opened ConfigQuote
  import opened ConfigValues
  import opened ConfigRoundTrip
  import opened Toml

  // ----- what is kept, and what can be said -----

  /** The table as it is read back: entries that are null are gone. */
  function Dropped(v: Json): Json
    requires v.JObject?
    decreases v
  {
    JObject(map k | k in v.fields && !v.fields[k].JNull? :: if v.fields[k].JObject? then Dropped(v.fields[k]) else v.fields[k])
  }

  /** No list in any table holds a null. */
  ghost predicate Sayable(v: Json)
    requires v.JObject?
    decreases v
  {
    forall k :: k in v.fields ==>
      if v.fields[k].JObject? then Sayable(v.fields[k]) else v.fields[k].JNull? || NoNulls(v.fields[k])
  }

  /** No entry that is printed has an empty name. */
  ghost predicate TableNamed(v: Json)
    requires v.JObject?
    decreases v
  {
    forall k :: k in v.fields && !v.fields[k].JNull? ==>
      k != "" && if v.fields[k].JObject? then TableNamed(v.fields[k]) else KeysNamed(v.fields[k])
  }

  predicate Scalar(value: Json) { !value.JObject? && !value.JNull? }

  // ----- printing fails exactly on a null in a list -----

  lemma {:induction false} ScalarsPrint(c: Codec, m: Table, keys: seq<string>)
    requires Sound(c) && forall k :: k in keys ==> k in m
    ensures ScalarLines(c, m, keys).Some? <==> forall k :: k in keys && Scalar(m[k]) ==> NoNulls(m[k])
    decreases |keys|
  {
    if keys != [] {
      hide Encode, Enumerates, NoNulls, GoQuote;
      ScalarsPrint(c, m, keys[1..]);
      PrintsUnlessNull(c, m[keys[0]]);
      assert forall k :: k in keys <==> k == keys[0] || k in keys[1..];
    }
  }

  lemma {:induction false} TablePrints(c: Codec, v: Json, path: seq<string>)
    requires Sound(c) && v.JObject?
    ensures TableLines(c, v, path).Some? <==> Sayable(v)
    decreases v, 1
  {
    assert Enumerates(c.order(v.fields), v.fields);
    hide ScalarLines, SubLines, NoNulls;
    ScalarsPrint(c, v.fields, c.order(v.fields));
    SubsPrint(c, v, path, c.order(v.fields));
  }

  lemma {:induction false} SubsPrint(c: Codec, v: Json, path: seq<string>, keys: seq<string>)
    requires Sound(c) && v.JObject? && forall k :: k in keys ==> k in v.fields
    ensures SubLines(c, v, path, keys).Some? <==> forall k :: k in keys && v.fields[k].JObject? ==> Sayable(v.fields[k])
    decreases v, 0, |keys|
  {
    if keys != [] {
      hide TableLines, Header, Enumerates, Sayable;
      SubsPrint(c, v, path, keys[1..]);
      if v.fields[keys[0]].JObject? { TablePrints(c, v.fields[keys[0]], path + [keys[0]]); }
      assert forall k :: k in keys <==> k == keys[0] || k in keys[1..];
    }
  }

  // ----- tables inside tables -----

  lemma {:induction false} PutThenAt(root: Table, path: seq<string>, table: Table)
    requires TableAt(root, path).Some?
    ensures TableAt(Put(root, path, table), path) == Some(table)
    decreases |path|
  {
    if path != [] { PutThenAt(root[path[0]].fields, path[1..], table); }
  }

  lemma {:induction false} PutTwice(root: Table, path: seq<string>, a: Table, b: Table)
    requires TableAt(root, path).Some?
    ensures Put(Put(root, path, a), path, b) == Put(root, path, b)
    decreases |path|
  {
    if path != [] {
      var k, inner := path[0], root[path[0]].fields;
      PutTwice(inner, path[1..], a, b);
      PutThenAt(inner, path[1..], a);
      var root1 := Put(root, path, a);
      assert root1 == root[k := JObject(Put(inner, path[1..], a))];
      assert root1[k := JObject(Put(inner, path[1..], b))] == root[k := JObject(Put(inner, path[1..], b))];
    }
  }

  lemma {:induction false} AtDeeper(root: Table, path: seq<string>, k: string)
    requires TableAt(root, path).Some?
    ensures var table := TableAt(root, path).value;
      TableAt(root, path + [k]) == if k in table && table[k].JObject? then Some(table[k].fields) else None
    decreases |path|
  {
    if path == [] {
      assert [k][1..] == [];
    } else {
      assert (path + [k])[0] == path[0] && (path + [k])[1..] == path[1..] + [k];
      AtDeeper(root[path[0]].fields, path[1..], k);
    }
  }

  lemma {:induction false} PutDeeper(root: Table, path: seq<string>, k: string, inner: Table)
    requires TableAt(root, path).Some? && k in TableAt(root, path).value && TableAt(root, path).value[k].JObject?
    ensures Put(root, path + [k], inner) == Put(root, path, TableAt(root, path).value[k := JObject(inner)])
    decreases |path|
  {
    if path == [] {
      assert [k][1..] == [];
    } else {
      assert (path + [k])[0] == path[0] && (path + [k])[1..] == path[1..] + [k];
      PutDeeper(root[path[0]].fields, path[1..], k, inner);
    }
  }

  lemma {:induction false} PutSame(root: Table, path: seq<string>)
    requires TableAt(root, path).Some?
    ensures Put(root, path, TableAt(root, path).value) == root
    decreases |path|
  {
    if path != [] { PutSame(root[path[0]].fields, path[1..]); }
  }

  // ----- one line for one entry -----

  /** The line of an entry, without a comment to strip, is no header and names its key and value. */
  lemma {:induction false} EntryLine(c: Codec, key: string, t: string)
    requires Sound(c) && Solid(t)
    ensures var line := GoQuote(c.printable, key) + " = " + t;
      && Comment(line) == line && line != "" && !IsHeader(line) && OneLine(line)
      && Split(line, '=') == [GoQuote(c.printable, key) + " ", " " + t]
  {
    hide *;
    var k := GoQuote(c.printable, key);
    var line := k + " = " + t;
    KeyIsSolid(c, key);
    SolidScans(k);
    SolidScans(t);
    EntrySplits(c, "", key, t);
    assert "" + line == line && "" + k == k;
    FieldIsLevel(c, key, t);
    SpacesScan();
    WholeAppend(TOP, k + " = ", t, '#');
    WholeAppend(TOP, k, " = ", '#');
    WalkAppend(TOP, k, " = ");
    OnePiece(line, '#');
    TrimOfTight(line);
    CommentIs(line);
    QuoteStarts(line);
  }

  lemma {:induction false} CommentIs(line: string)
    requires Split(line, '#') == [line] && Trim(line) == line
    ensures Comment(line) == line
  {
    hide Split, Trim;
  }

  lemma {:induction false} QuoteStarts(line: string)
    requires line != "" && line[0] == '"'
    ensures !IsHeader(line)
  {}

  /** No printed value begins a multi-line string, and a printed list is closed. */
  lemma {:induction false} ValueStandsAlone(c: Codec, v: Json, t: string)
    requires Sound(c) && Numeric(c, v) && Encode(c, v) == Some(t)
    ensures !OpensMultiline(t) && !OpenList(t)
  {
    ValueIsSolid(c, v);
    if v.JString? {
      hide Solid, JsonEscape;
      if v.s != "" {
        JsonEscapeReads(v.s[0], JsonBody(v.s[1..]));
        assert t[1] == JsonBody(v.s)[0];
      }
    }
    hide Encode, Solid;
  }

  lemma {:induction false} PrintedValueReads(c: Codec, v: Json, t: string, lines: seq<string>)
    requires Sound(c) && Numeric(c, v) && Encode(c, v) == Some(t)
    ensures Value(c, Trim(JoinWith([" " + t], "=")), lines) == if KeysNamed(v) then Some((v, lines)) else None
  {
    ValueIsSolid(c, v);
    hide Solid, Encode, Numeric, KeysNamed, ConfigValue, Multiline, OpensMultiline, OpenList, Trim, Enumerates;
    SolidScans(t);
    TrimOfTight(t);
    ValueStandsAlone(c, v, t);
    ConfigReads(c, v, t);
    assert Continue(t, lines) == Some((t, lines));
  }

  /** An entry line adds its entry to the table being filled, or is refused for a missing name. */
  lemma {:induction false} EntryEnters(c: Codec, key: string, v: Json, t: string, root: Table, at: seq<string>, lines: seq<string>)
    requires Sound(c) && Numeric(c, v) && Encode(c, v) == Some(t)
    requires TableAt(root, at).Some? && key !in TableAt(root, at).value
    ensures var line := GoQuote(c.printable, key) + " = " + t;
      ParseFrom(c, root, at, [line] + lines)
        == if key != "" && KeysNamed(v) then ParseFrom(c, Put(root, at, TableAt(root, at).value[key := v]), at, lines) else None
  {
    ValueIsSolid(c, v);
    hide *;
    var line := GoQuote(c.printable, key) + " = " + t;
    EntryLine(c, key, t);
    KeyReads(c, "", key);
    assert "" + GoQuote(c.printable, key) + " " == GoQuote(c.printable, key) + " ";
    PrintedValueReads(c, v, t, lines);
    EntersAs(c, root, at, line, lines);
    ParsesEntry(c, root, at, line, lines);
  }

  lemma {:induction false} EntersAs(c: Codec, root: Table, at: seq<string>, line: string, lines: seq<string>)
    requires |Split(line, '=')| == 2 && TableAt(root, at).Some?
    ensures var pieces, table := Split(line, '='), TableAt(root, at).value;
      var key, value := ConfigKey(c, pieces[0]), Value(c, Trim(JoinWith([pieces[1]], "=")), lines);
      Enter(c, root, at, line, lines) ==
        if key.None? || value.None? || key.value in table then None
        else Some((Put(root, at, table[key.value := value.value.0]), value.value.1))
  {
    hide Split, ConfigKey, Value, Trim, TableAt, Put;
    var pieces := Split(line, '=');
    assert pieces[1..] == [pieces[1]];
  }

  lemma {:induction false} ParsesEntry(c: Codec, root: Table, at: seq<string>, line: string, lines: seq<string>)
    requires Comment(line) == line && line != "" && !IsHeader(line)
    ensures var entered := Enter(c, root, at, line, lines);
      ParseFrom(c, root, at, [line] + lines) == if entered.None? then None else ParseFrom(c, entered.value.0, at, entered.value.1)
  {
    hide Comment, Enter, IsHeader, OpenHeader;
    assert ([line] + lines)[0] == line && ([line] + lines)[1..] == lines;
  }

  // ----- the entries of one table -----

  function WithScalars(m: Table, keys: seq<string>, table: Table): Table
    requires forall k :: k in keys ==> k in m
    decreases |keys|
  {
    if keys == [] then table
    else WithScalars(m, keys[1..], if Scalar(m[keys[0]]) then table[keys[0] := m[keys[0]]] else table)
  }

  ghost predicate ScalarsNamed(m: Table, keys: seq<string>) {
    forall k :: k in keys && k in m && Scalar(m[k]) ==> k != "" && KeysNamed(m[k])
  }

  ghost predicate Once(keys: seq<string>) { forall i, j :: 0 <= i < j < |keys| ==> keys[i] != keys[j] }

  lemma {:induction false} OnceNext(keys: seq<string>)
    requires keys != [] && Once(keys)
    ensures keys[0] !in keys[1..] && Once(keys[1..]) && forall k :: k in keys <==> k == keys[0] || k in keys[1..]
  {
    assert forall i :: 0 <= i < |keys| - 1 ==> keys[1..][i] == keys[i + 1];
  }

  lemma {:induction false} ScalarsNamedNext(m: Table, keys: seq<string>)
    requires keys != [] && keys[0] in m
    ensures ScalarsNamed(m, keys)
      <==> (Scalar(m[keys[0]]) ==> keys[0] != "" && KeysNamed(m[keys[0]])) && ScalarsNamed(m, keys[1..])
  {
    hide KeysNamed, Scalar;
    assert forall k :: k in keys <==> k == keys[0] || k in keys[1..];
  }

  /** The first of the scalar lines, if the first key has one. */
  lemma {:induction false} ScalarLinesNext(c: Codec, m: Table, keys: seq<string>)
    requires Sound(c) && (forall k :: k in keys ==> k in m) && keys != [] && ScalarLines(c, m, keys).Some?
    ensures ScalarLines(c, m, keys[1..]).Some?
    ensures var rest := ScalarLines(c, m, keys[1..]).value;
      if Scalar(m[keys[0]]) then
        Encode(c, m[keys[0]]).Some?
        && ScalarLines(c, m, keys).value == [GoQuote(c.printable, keys[0]) + " = " + Encode(c, m[keys[0]]).value] + rest
      else ScalarLines(c, m, keys).value == rest
  {
    hide Encode, GoQuote, Enumerates;
  }

  lemma {:induction false} ScalarsRead(c: Codec, m: Table, keys: seq<string>, root: Table, at: seq<string>, after: seq<string>)
    requires Sound(c) && Numeric(c, JObject(m)) && (forall k :: k in keys ==> k in m) && ScalarLines(c, m, keys).Some?
    requires TableAt(root, at).Some? && Once(keys) && forall k :: k in keys ==> k !in TableAt(root, at).value
    ensures ParseFrom(c, root, at, ScalarLines(c, m, keys).value + after)
      == if ScalarsNamed(m, keys) then ParseFrom(c, Put(root, at, WithScalars(m, keys, TableAt(root, at).value)), at, after) else None
    decreases |keys|
  {
    var table := TableAt(root, at).value;
    if keys == [] {
      hide ParseFrom, TableAt, Put, Enumerates;
      PutSame(root, at);
      assert [] + after == after;
    } else {
      NumericEntry(c, m, keys[0]);
      hide *;
      OnceNext(keys);
      ScalarsNamedNext(m, keys);
      ScalarLinesNext(c, m, keys);
      WithScalarsNext(m, keys, table);
      var rest := ScalarLines(c, m, keys[1..]).value;
      if Scalar(m[keys[0]]) {
        var t := Encode(c, m[keys[0]]).value;
        var line := GoQuote(c.printable, keys[0]) + " = " + t;
        assert [line] + rest + after == [line] + (rest + after);
        EntryEnters(c, keys[0], m[keys[0]], t, root, at, rest + after);
        if keys[0] != "" && KeysNamed(m[keys[0]]) {
          var table1 := table[keys[0] := m[keys[0]]];
          var root1 := Put(root, at, table1);
          PutThenAt(root, at, table1);
          ScalarsRead(c, m, keys[1..], root1, at, after);
          PutTwice(root, at, table1, WithScalars(m, keys[1..], table1));
        }
      } else {
        ScalarsRead(c, m, keys[1..], root, at, after);
      }
    }
  }

  lemma {:induction false} NumericEntry(c: Codec, m: Table, k: string)
    requires Numeric(c, JObject(m)) && k in m
    ensures Numeric(c, m[k])
  {}

  lemma {:induction false} WithScalarsNext(m: Table, keys: seq<string>, table: Table)
    requires (forall k :: k in keys ==> k in m) && keys != []
    ensures WithScalars(m, keys, table)
      == WithScalars(m, keys[1..], if Scalar(m[keys[0]]) then table[keys[0] := m[keys[0]]] else table)
  {
    hide Scalar;
  }

  // ----- headers -----

  /** From here on the table being filled does not matter: a header comes before any entry. */
  predicate Anew(lines: seq<string>)
    decreases |lines|
  {
    lines == [] || IsHeader(Comment(lines[0])) || (Comment(lines[0]) == "" && Anew(lines[1..]))
  }

  lemma {:induction false} AnewIgnoresTable(c: Codec, root: Table, a: seq<string>, b: seq<string>, lines: seq<string>)
    requires Anew(lines)
    ensures ParseFrom(c, root, a, lines) == ParseFrom(c, root, b, lines)
    decreases |lines|
  {
    hide Comment, OpenHeader, Enter;
    if lines != [] && !IsHeader(Comment(lines[0])) { AnewIgnoresTable(c, root, a, b, lines[1..]); }
  }

  lemma {:induction false} SplitDots(piece: string, parts: seq<string>)
    requires parts != [] && forall p :: p in parts ==> Walk(TOP, p) == TOP && Whole(TOP, p, '.')
    ensures SplitFrom(TOP, piece, JoinWith(parts, "."), '.') == [piece + parts[0]] + parts[1..]
    decreases |parts|
  {
    hide Whole, SplitFrom, Walk;
    var p := parts[0];
    assert p in parts;
    JoinedStart(parts, ".");
    if |parts| == 1 {
      assert p + "" == p && parts[1..] == [];
      SplitOver(TOP, piece, p, "", '.');
      EndOfScan(TOP, piece + p, '.');
    } else {
      var rest := JoinWith(parts[1..], ".");
      SplitOver(TOP, piece, p, "." + rest, '.');
      DotCuts(piece + p, rest);
      SplitDots("", parts[1..]);
      assert "" + parts[1] == parts[1] && [parts[1]] + parts[1..][1..] == parts[1..];
    }
  }

  lemma {:induction false} DotCuts(piece: string, rest: string)
    ensures SplitFrom(TOP, piece, "." + rest, '.') == [piece] + SplitFrom(TOP, "", rest, '.')
  {
    var s := "." + rest;
    assert s[0] == '.' && s[1..] == rest && Cuts(TOP, '.', '.') && Step(TOP, '.') == TOP;
  }

  lemma {:induction false} QuotesScan(c: Codec, path: seq<string>)
    requires Sound(c)
    ensures |QuoteAll(c, path)| == |path|
    ensures forall p :: p in QuoteAll(c, path) ==> Level(p) && OneLine(p) && Walk(TOP, p) == TOP && Whole(TOP, p, '.')
    ensures path != [] ==> QuoteAll(c, path)[0] != "" && QuoteAll(c, path)[0][0] == '"'
  {
    if path != [] {
      hide Level, OneLine, Walk, Whole, Enumerates, GoQuote, Solid;
      QuotesScan(c, path[1..]);
      KeyIsSolid(c, path[0]);
      SolidScans(GoQuote(c.printable, path[0]));
    }
  }

  lemma {:induction false} DottedIsLevel(parts: seq<string>)
    requires forall p :: p in parts ==> Level(p) && OneLine(p)
    ensures Level(JoinWith(parts, ".")) && OneLine(JoinWith(parts, "."))
  {
    if parts == [] {
      assert Level("");
    } else if |parts| > 1 {
      assert parts[0] in parts;
      DottedIsLevel(parts[1..]);
      OrdinaryIsLevel(".");
      hide Level;
      LevelAppend(parts[0], ".");
      LevelAppend(parts[0] + ".", JoinWith(parts[1..], "."));
    } else {
      assert parts[0] in parts;
    }
  }

  /** A header line opens the table its quoted keys name. */
  lemma {:induction false} HeaderLine(c: Codec, path: seq<string>, root: Table)
    requires Sound(c) && path != []
    ensures var line := Header(c, path);
      Comment(line) == line && IsHeader(line) && OneLine(line) && OpenHeader(c, root, line) == Open(c, root, [], QuoteAll(c, path))
  {
    var parts := QuoteAll(c, path);
    var inner := JoinWith(parts, ".");
    var line := Header(c, path);
    assert line == "[" + inner + "]" && line[1..|line| - 1] == inner;
    QuotesScan(c, path);
    hide *;
    JoinedStart(parts, ".");
    assert inner != "" && inner[0] == '"' && line[1] == '"';
    DottedIsLevel(parts);
    BracketedIsSolid('[', inner, ']');
    assert "[" + inner + "]" == ['['] + inner + [']'];
    SolidScans(line);
    OnePiece(line, '#');
    TrimOfTight(line);
    CommentIs(line);
    SplitDots("", parts);
    SplitIs(inner, '.');
    assert "" + parts[0] == parts[0] && [parts[0]] + parts[1..] == parts;
    OpensAs(c, root, line, parts);
  }

  lemma {:induction false} OpensAs(c: Codec, root: Table, line: string, parts: seq<string>)
    requires |line| >= 2 && line[0] == '[' && line[1] != '[' && line[|line| - 1] == ']' && Split(line[1..|line| - 1], '.') == parts
    ensures IsHeader(line) && OpenHeader(c, root, line) == Open(c, root, [], parts)
  {
    hide Split, Open;
  }

  ghost predicate Names(path: seq<string>) { forall i :: 0 <= i < |path| ==> path[i] != "" }

  lemma {:induction false} TableAbove(root: Table, a: seq<string>, b: seq<string>)
    requires TableAt(root, a + b).Some?
    ensures TableAt(root, a).Some?
    decreases |a|
  {
    if a != [] {
      assert (a + b)[0] == a[0] && (a + b)[1..] == a[1..] + b;
      TableAbove(root[a[0]].fields, a[1..], b);
    }
  }

  /** Opening a table walks down the tables above it, which are there, and makes the last. */
  lemma {:induction false} OpenReaches(c: Codec, root: Table, at: seq<string>, names: seq<string>, k: string)
    requires Sound(c) && Names(names) && TableAt(root, at + names).Some? && k !in TableAt(root, at + names).value
    ensures Open(c, root, at, QuoteAll(c, names + [k])) ==
      if k == "" then None
      else Some((Put(root, at + names, TableAt(root, at + names).value[k := JObject(map[])]), at + names + [k]))
    decreases |names|
  {
    hide TableAt, Put, ConfigKey, Enumerates, GoQuote;
    if names == [] {
      assert at + names == at && names + [k] == [k] && [k][1..] == [];
      KeyReads(c, "", k);
      assert QuoteAll(c, [k]) == [GoQuote(c.printable, k)];
      OpenOne(c, root, at, GoQuote(c.printable, k));
    } else {
      var n, rest := names[0], names[1..];
      assert (names + [k])[0] == n && (names + [k])[1..] == rest + [k];
      assert at + names == (at + [n]) + rest;
      TableAbove(root, at + [n], rest);
      TableAbove(root, at, [n]);
      AtDeeper(root, at, n);
      KeyReads(c, "", n);
      OpenDown(c, root, at, n, QuoteAll(c, rest + [k]));
      OpenReaches(c, root, at + [n], rest, k);
    }
  }

  lemma {:induction false} OpenOne(c: Codec, root: Table, at: seq<string>, raw: string)
    requires TableAt(root, at).Some?
    requires ConfigKey(c, raw).Some? ==> ConfigKey(c, raw).value !in TableAt(root, at).value
    ensures Open(c, root, at, [raw]) ==
      if ConfigKey(c, raw).None? then None
      else Some((Put(root, at, TableAt(root, at).value[ConfigKey(c, raw).value := JObject(map[])]), at + [ConfigKey(c, raw).value]))
  {
    hide TableAt, Put, ConfigKey;
    assert [raw][1..] == [];
  }

  lemma {:induction false} OpenDown(c: Codec, root: Table, at: seq<string>, n: string, more: seq<string>)
    requires Sound(c) && ConfigKey(c, GoQuote(c.printable, n)) == Some(n)
    requires TableAt(root, at).Some? && n in TableAt(root, at).value && TableAt(root, at).value[n].JObject?
    ensures Open(c, root, at, [GoQuote(c.printable, n)] + more) == Open(c, root, at + [n], more)
  {
    hide TableAt, Put, ConfigKey, Enumerates, GoQuote;
    var keys := [GoQuote(c.printable, n)] + more;
    assert keys[0] == GoQuote(c.printable, n) && keys[1..] == more;
  }

  // ----- the tables inside one table -----

  function WithTables(v: Json, keys: seq<string>, table: Table): Table
    requires v.JObject? && forall k :: k in keys ==> k in v.fields
    decreases |keys|
  {
    if keys == [] then table
    else WithTables(v, keys[1..], if v.fields[keys[0]].JObject? then table[keys[0] := Dropped(v.fields[keys[0]])] else table)
  }

  ghost predicate TablesNamed(v: Json, keys: seq<string>)
    requires v.JObject?
  {
    forall k :: k in keys && k in v.fields && v.fields[k].JObject? ==> k != "" && TableNamed(v.fields[k])
  }

  lemma {:induction false} TablesNamedNext(v: Json, keys: seq<string>)
    requires v.JObject? && keys != [] && keys[0] in v.fields
    ensures TablesNamed(v, keys)
      <==> (v.fields[keys[0]].JObject? ==> keys[0] != "" && TableNamed(v.fields[keys[0]])) && TablesNamed(v, keys[1..])
  {
    hide TableNamed;
    assert forall k :: k in keys <==> k == keys[0] || k in keys[1..];
  }

  lemma {:induction false} WithTablesNext(v: Json, keys: seq<string>, table: Table)
    requires v.JObject? && (forall k :: k in keys ==> k in v.fields) && keys != []
    ensures WithTables(v, keys, table)
      == WithTables(v, keys[1..], if v.fields[keys[0]].JObject? then table[keys[0] := Dropped(v.fields[keys[0]])] else table)
  {
    hide Dropped;
  }

  lemma {:induction false} SubLinesNext(c: Codec, v: Json, path: seq<string>, keys: seq<string>)
    requires Sound(c) && v.JObject? && (forall k :: k in keys ==> k in v.fields) && keys != [] && SubLines(c, v, path, keys).Some?
    ensures SubLines(c, v, path, keys[1..]).Some?
    ensures var sub, rest := v.fields[keys[0]], SubLines(c, v, path, keys[1..]).value;
      if sub.JObject? then
        TableLines(c, sub, path + [keys[0]]).Some?
        && SubLines(c, v, path, keys).value == ["", Header(c, path + [keys[0]])] + TableLines(c, sub, path + [keys[0]]).value + rest
      else SubLines(c, v, path, keys).value == rest
  {
    hide TableLines, Header, Enumerates;
  }

  lemma {:induction false} TableLinesAre(c: Codec, v: Json, path: seq<string>)
    requires Sound(c) && v.JObject? && TableLines(c, v, path).Some?
    ensures var keys := c.order(v.fields);
      && Once(keys) && (forall k :: k in keys <==> k in v.fields)
      && ScalarLines(c, v.fields, keys).Some? && SubLines(c, v, path, keys).Some?
      && TableLines(c, v, path).value == ScalarLines(c, v.fields, keys).value + SubLines(c, v, path, keys).value
  {
    hide ScalarLines, SubLines;
    assert Enumerates(c.order(v.fields), v.fields);
  }

  lemma {:induction false} EmptyLine()
    ensures Comment("") == ""
  {
    assert Split("", '#') == [""];
  }

  lemma {:induction false} ParsesBlank(c: Codec, root: Table, at: seq<string>, lines: seq<string>)
    ensures ParseFrom(c, root, at, [""] + lines) == ParseFrom(c, root, at, lines)
  {
    EmptyLine();
    hide Comment, OpenHeader, Enter;
    assert ([""] + lines)[0] == "" && ([""] + lines)[1..] == lines;
  }

  lemma {:induction false} ParsesHeader(c: Codec, root: Table, at: seq<string>, line: string, lines: seq<string>)
    requires Comment(line) == line && IsHeader(line)
    ensures var header := OpenHeader(c, root, line);
      ParseFrom(c, root, at, [line] + lines) == if header.None? then None else ParseFrom(c, header.value.0, header.value.1, lines)
  {
    hide Comment, OpenHeader, Enter;
    assert ([line] + lines)[0] == line && ([line] + lines)[1..] == lines;
  }

  lemma {:induction false} SubsAnew(c: Codec, v: Json, path: seq<string>, keys: seq<string>, after: seq<string>)
    requires Sound(c) && v.JObject? && (forall k :: k in keys ==> k in v.fields) && SubLines(c, v, path, keys).Some? && Anew(after)
    ensures Anew(SubLines(c, v, path, keys).value + after)
    decreases |keys|
  {
    if keys == [] {
      assert [] + after == after;
    } else {
      hide SubLines, TableLines, Header, Comment, IsHeader, OpenHeader;
      SubLinesNext(c, v, path, keys);
      if v.fields[keys[0]].JObject? {
        EmptyLine();
        HeaderLine(c, path + [keys[0]], map[]);
        var lines := SubLines(c, v, path, keys).value + after;
        assert lines[0] == "" && lines[1..][0] == Header(c, path + [keys[0]]);
        assert Anew(lines[1..]);
      } else {
        SubsAnew(c, v, path, keys[1..], after);
      }
    }
  }

  /** Behind its header, an empty table is made and opened. */
  lemma {:induction false} HeaderReads(c: Codec, names: seq<string>, k: string, root: Table, at: seq<string>, lines: seq<string>)
    requires Sound(c) && Names(names) && TableAt(root, names).Some? && k !in TableAt(root, names).value
    ensures ParseFrom(c, root, at, ["", Header(c, names + [k])] + lines) ==
      if k == "" then None
      else ParseFrom(c, Put(root, names, TableAt(root, names).value[k := JObject(map[])]), names + [k], lines)
  {
    hide *;
    var line := Header(c, names + [k]);
    assert ["", line] + lines == [""] + ([line] + lines);
    ParsesBlank(c, root, at, [line] + lines);
    HeaderLine(c, names + [k], root);
    ParsesHeader(c, root, at, line, lines);
    assert [] + names == names;
    OpenReaches(c, root, [], names, k);
  }

  /** Filling the table just made is the same as adding it filled. */
  lemma {:induction false} FillNew(root: Table, names: seq<string>, k: string, inner: Table)
    requires TableAt(root, names).Some?
    ensures var table := TableAt(root, names).value;
      var root1 := Put(root, names, table[k := JObject(map[])]);
      && TableAt(root1, names + [k]) == Some(map[])
      && Put(root1, names + [k], inner) == Put(root, names, table[k := JObject(inner)])
  {
    hide *;
    var table := TableAt(root, names).value;
    var table1 := table[k := JObject(map[])];
    var root1 := Put(root, names, table1);
    PutThenAt(root, names, table1);
    AtDeeper(root1, names, k);
    PutDeeper(root1, names, k, inner);
    PutTwice(root, names, table1, table1[k := JObject(inner)]);
    assert table1[k := JObject(inner)] == table[k := JObject(inner)];
  }

  lemma {:induction false} SubsRead(c: Codec, v: Json, names: seq<string>, keys: seq<string>, root: Table, at: seq<string>, after: seq<string>)
    requires Sound(c) && v.JObject? && Numeric(c, v) && Names(names) && Once(keys) && Anew(after)
    requires (forall k :: k in keys ==> k in v.fields) && SubLines(c, v, names, keys).Some?
    requires TableAt(root, names).Some? && forall k :: k in keys && v.fields[k].JObject? ==> k !in TableAt(root, names).value
    ensures ParseFrom(c, root, at, SubLines(c, v, names, keys).value + after)
      == if TablesNamed(v, keys) then ParseFrom(c, Put(root, names, WithTables(v, keys, TableAt(root, names).value)), [], after) else None
    decreases v, 0, |keys|
  {
    var table := TableAt(root, names).value;
    if keys == [] {
      hide ParseFrom, TableAt, Put, Enumerates, Anew;
      PutSame(root, names);
      assert [] + after == after;
      AnewIgnoresTable(c, root, at, [], after);
    } else {
      var k, sub := keys[0], v.fields[keys[0]];
      NumericEntry(c, v.fields, k);
      hide *;
      OnceNext(keys);
      TablesNamedNext(v, keys);
      SubLinesNext(c, v, names, keys);
      WithTablesNext(v, keys, table);
      var rest := SubLines(c, v, names, keys[1..]).value;
      if sub.JObject? {
        SubsAnew(c, v, names, keys[1..], after);
        Regroup(["", Header(c, names + [k])] + TableLines(c, sub, names + [k]).value, rest, after);
        SubReads(c, sub, names, k, root, at, rest + after);
        if k != "" && TableNamed(sub) {
          var table2 := table[k := Dropped(sub)];
          PutThenAt(root, names, table2);
          SubsRead(c, v, names, keys[1..], Put(root, names, table2), [], after);
          PutTwice(root, names, table2, WithTables(v, keys[1..], table2));
        }
      } else {
        SubsRead(c, v, names, keys[1..], root, at, after);
      }
    }
  }

  lemma {:induction false} Regroup<T>(a: seq<T>, b: seq<T>, d: seq<T>)
    ensures a + b + d == a + (b + d)
  {}

  /** The header and the lines of an inner table add that table. */
  lemma {:induction false} SubReads(c: Codec, sub: Json, names: seq<string>, k: string, root: Table, at: seq<string>, after: seq<string>)
    requires Sound(c) && sub.JObject? && Numeric(c, sub) && Names(names) && Anew(after)
    requires TableLines(c, sub, names + [k]).Some? && TableAt(root, names).Some? && k !in TableAt(root, names).value
    ensures ParseFrom(c, root, at, ["", Header(c, names + [k])] + TableLines(c, sub, names + [k]).value + after)
      == if k != "" && TableNamed(sub) then ParseFrom(c, Put(root, names, TableAt(root, names).value[k := Dropped(sub)]), [], after) else None
    decreases sub, 2
  {
    hide *;
    var table, lines := TableAt(root, names).value, TableLines(c, sub, names + [k]).value;
    Regroup(["", Header(c, names + [k])], lines, after);
    HeaderReads(c, names, k, root, at, lines + after);
    if k != "" {
      DroppedIsObject(sub);
      FillNew(root, names, k, Dropped(sub).fields);
      NamesMore(names, k);
      TableReads(c, sub, names + [k], Put(root, names, table[k := JObject(map[])]), after);
    }
  }

  lemma {:induction false} DroppedIsObject(v: Json)
    requires v.JObject?
    ensures Dropped(v) == JObject(Dropped(v).fields)
  {}

  lemma {:induction false} NamesMore(names: seq<string>, k: string)
    requires Names(names) && k != ""
    ensures Names(names + [k])
  {}

  /** The lines of a table fill the table they were printed from, without its nulls. */
  lemma {:induction false} TableReads(c: Codec, v: Json, names: seq<string>, root: Table, after: seq<string>)
    requires Sound(c) && v.JObject? && Numeric(c, v) && Names(names) && Anew(after) && TableLines(c, v, names).Some?
    requires TableAt(root, names) == Some(map[])
    ensures ParseFrom(c, root, names, TableLines(c, v, names).value + after)
      == if TableNamed(v) then ParseFrom(c, Put(root, names, Dropped(v).fields), [], after) else None
    decreases v, 1
  {
    hide *;
    var keys := c.order(v.fields);
    TableLinesAre(c, v, names);
    var scalars, subs := ScalarLines(c, v.fields, keys).value, SubLines(c, v, names, keys).value;
    assert scalars + subs + after == scalars + (subs + after);
    assert v == JObject(v.fields);
    ScalarsRead(c, v.fields, keys, root, names, subs + after);
    NamedInParts(v, keys);
    if ScalarsNamed(v.fields, keys) {
      var table := WithScalars(v.fields, keys, map[]);
      var root1 := Put(root, names, table);
      PutThenAt(root, names, table);
      TablesNotYet(v, keys);
      SubsRead(c, v, names, keys, root1, names, after);
      PutTwice(root, names, table, WithTables(v, keys, table));
      DroppedInParts(v, keys);
    }
  }

  lemma {:induction false} NamedInParts(v: Json, keys: seq<string>)
    requires v.JObject? && forall k :: k in keys <==> k in v.fields
    ensures TableNamed(v) <==> ScalarsNamed(v.fields, keys) && TablesNamed(v, keys)
  {
    hide KeysNamed;
  }

  lemma {:induction false} ScalarsOnly(m: Table, keys: seq<string>, table: Table)
    requires forall k :: k in keys ==> k in m
    ensures forall k :: k in WithScalars(m, keys, table) <==> k in table || (k in keys && Scalar(m[k]))
    ensures forall k :: k in WithScalars(m, keys, table) ==>
      WithScalars(m, keys, table)[k] == if k in keys && Scalar(m[k]) then m[k] else table[k]
    decreases |keys|
  {
    if keys != [] {
      assert forall k :: k in keys <==> k == keys[0] || k in keys[1..];
      ScalarsOnly(m, keys[1..], if Scalar(m[keys[0]]) then table[keys[0] := m[keys[0]]] else table);
    }
  }

  lemma {:induction false} TablesNotYet(v: Json, keys: seq<string>)
    requires v.JObject? && forall k :: k in keys ==> k in v.fields
    ensures forall k :: k in keys && v.fields[k].JObject? ==> k !in WithScalars(v.fields, keys, map[])
  {
    hide WithScalars;
    ScalarsOnly(v.fields, keys, map[]);
  }

  lemma {:induction false} TablesOnly(v: Json, keys: seq<string>, table: Table)
    requires v.JObject? && forall k :: k in keys ==> k in v.fields
    ensures forall k :: k in WithTables(v, keys, table) <==> k in table || (k in keys && v.fields[k].JObject?)
    ensures forall k :: k in WithTables(v, keys, table) ==>
      WithTables(v, keys, table)[k] == if k in keys && v.fields[k].JObject? then Dropped(v.fields[k]) else table[k]
    decreases |keys|
  {
    if keys != [] {
      hide Dropped;
      assert forall k :: k in keys <==> k == keys[0] || k in keys[1..];
      TablesOnly(v, keys[1..], if v.fields[keys[0]].JObject? then table[keys[0] := Dropped(v.fields[keys[0]])] else table);
    }
  }

  lemma {:induction false} DroppedInParts(v: Json, keys: seq<string>)
    requires v.JObject? && forall k :: k in keys <==> k in v.fields
    ensures WithTables(v, keys, WithScalars(v.fields, keys, map[])) == Dropped(v).fields
  {
    hide WithTables, WithScalars;
    ScalarsOnly(v.fields, keys, map[]);
    TablesOnly(v, keys, WithScalars(v.fields, keys, map[]));
  }

  // ----- the whole document -----

  lemma {:induction false} ScalarsOneLine(c: Codec, m: Table, keys: seq<string>)
    requires Sound(c) && Numeric(c, JObject(m)) && (forall k :: k in keys ==> k in m) && ScalarLines(c, m, keys).Some?
    ensures forall line :: line in ScalarLines(c, m, keys).value ==> OneLine(line)
    decreases |keys|
  {
    if keys != [] {
      NumericEntry(c, m, keys[0]);
      hide Encode, Enumerates, GoQuote, OneLine, ScalarLines, Numeric;
      ScalarLinesNext(c, m, keys);
      ScalarsOneLine(c, m, keys[1..]);
      if Scalar(m[keys[0]]) {
        ValueIsSolid(c, m[keys[0]]);
        EntryLine(c, keys[0], Encode(c, m[keys[0]]).value);
      }
    }
  }

  lemma {:induction false} TableOneLine(c: Codec, v: Json, path: seq<string>)
    requires Sound(c) && v.JObject? && Numeric(c, v) && TableLines(c, v, path).Some?
    ensures forall line :: line in TableLines(c, v, path).value ==> OneLine(line)
    decreases v, 1
  {
    hide *;
    TableLinesAre(c, v, path);
    assert v == JObject(v.fields);
    ScalarsOneLine(c, v.fields, c.order(v.fields));
    SubsOneLine(c, v, path, c.order(v.fields));
  }

  lemma {:induction false} SubsOneLine(c: Codec, v: Json, path: seq<string>, keys: seq<string>)
    requires Sound(c) && v.JObject? && Numeric(c, v) && (forall k :: k in keys ==> k in v.fields) && SubLines(c, v, path, keys).Some?
    ensures forall line :: line in SubLines(c, v, path, keys).value ==> OneLine(line)
    decreases v, 0, |keys|
  {
    if keys != [] {
      NumericEntry(c, v.fields, keys[0]);
      hide Encode, Enumerates, OneLine, SubLines, TableLines, Numeric, Header, IsHeader, OpenHeader, Open, Comment;
      SubLinesNext(c, v, path, keys);
      SubsOneLine(c, v, path, keys[1..]);
      if v.fields[keys[0]].JObject? {
        TableOneLine(c, v.fields[keys[0]], path + [keys[0]]);
        HeaderLine(c, path + [keys[0]], map[]);
        EmptyIsOneLine();
      }
    }
  }

  lemma {:induction false} EmptyIsOneLine()
    ensures OneLine("")
  {}

  /** Text without carriage returns is left as it is. */
  lemma {:induction false} UnifyKeeps(s: string)
    requires '\r' !in s
    ensures Unify(s) == s
  {
    if s != "" {
      assert s[0] != '\r';
      UnifyKeeps(s[1..]);
    }
  }

  lemma {:induction false} LinesOver(line: string, rest: string)
    requires OneLine(line)
    ensures Lines(line + "\n" + rest) == [line] + Lines(rest)
  {
    var s := line + "\n" + rest;
    if line == "" {
      assert s[0] == '\n' && s[1..] == rest;
    } else {
      assert s[0] == line[0] && s[1..] == line[1..] + "\n" + rest;
      LinesOver(line[1..], rest);
      assert [line[0]] + line[1..] == line;
    }
  }

  lemma {:induction false} LinesReturn(lines: seq<string>)
    requires forall line :: line in lines ==> OneLine(line)
    ensures Lines(Unlines(lines)) == lines + [""] && '\r' !in Unlines(lines)
  {
    if lines != [] {
      hide OneLine, Lines;
      LinesReturn(lines[1..]);
      LinesOver(lines[0], Unlines(lines[1..]));
      NoReturn(lines[0]);
      assert lines == [lines[0]] + lines[1..];
    }
  }

  lemma {:induction false} NoReturn(line: string)
    requires OneLine(line)
    ensures '\r' !in line
  {}

  /** A definition can be printed exactly when no list in it holds a null, and what is printed reads back as the
      definition without its null entries, unless an entry that is printed has an empty name: then it is refused. */
  lemma {:induction false} DefinitionReturns(c: Codec, v: Json)
    requires Sound(c) && v.JObject? && Numeric(c, v)
    ensures EncodeToml(c, v).Some? <==> Sayable(v)
    ensures Sayable(v) ==>
      ParseToml(c, EncodeToml(c, v).value) == if TableNamed(v) then Some(Dropped(v).fields) else None
  {
    hide Sayable, TableNamed, Dropped, TableLines, ParseFrom, Lines, Unify, Enumerates, Numeric, Unlines, Anew, OneLine;
    TablePrints(c, v, []);
    if Sayable(v) {
      var lines := TableLines(c, v, []).value;
      TableOneLine(c, v, []);
      LinesReturn(lines);
      UnifyKeeps(Unlines(lines));
      LastLine();
      DroppedIsObject(v);
      TableReads(c, v, [], map[], [""]);
      assert [""] + [] == [""];
      ParsesBlank(c, Dropped(v).fields, [], []);
      ParsesNothing(c, Dropped(v).fields, []);
    }
  }

  lemma {:induction false} LastLine()
    ensures Anew([""])
  {
    EmptyLine();
    assert Anew([""][1..]);
  }

  lemma {:induction false} ParsesNothing(c: Codec, root: Table, at: seq<string>)
    ensures ParseFrom(c, root, at, []) == Some(root)
  {}

  // ----- two definitions that do not survive -----

  /** An entry with an empty name is printed and then refused. */
  lemma {:induction false} EmptyNameIsRefused(c: Codec)
    requires Sound(c)
    ensures var v := JObject(map["" := JBool(true)]);
      EncodeToml(c, v).Some? && ParseToml(c, EncodeToml(c, v).value).None?
  {
    var v := JObject(map["" := JBool(true)]);
    assert "" in v.fields && !v.fields[""].JNull?;
    DefinitionReturns(c, v);
  }

  /** A null inside a list cannot be printed, where one that stands alone is left out. */
  lemma {:induction false} NullInListIsRefused(c: Codec)
    requires Sound(c)
    ensures EncodeToml(c, JObject(map["models" := JArray([JNull])])).None?
    ensures var v := JObject(map["models" := JNull]);
      EncodeToml(c, v).Some? && ParseToml(c, EncodeToml(c, v).value) == Some(map[])
  {
    NullListed();
    NullAlone();
    hide Sayable, TableNamed, Dropped, EncodeToml, ParseToml, Enumerates;
    DefinitionReturns(c, JObject(map["models" := JArray([JNull])]));
    DefinitionReturns(c, JObject(map["models" := JNull]));
  }

  lemma {:induction false} NullListed()
    ensures !Sayable(JObject(map["models" := JArray([JNull])]))
  {
    var v := JObject(map["models" := JArray([JNull])]);
    assert !NoNulls([JNull][0]) && !NoNulls(JArray([JNull]));
    assert "models" in v.fields && v.fields["models"] == JArray([JNull]);
  }

  lemma {:induction false} NullAlone()
    ensures var v := JObject(map["models" := JNull]); Sayable(v) && TableNamed(v) && Dropped(v).fields == map[]
  {
    var v := JObject(map["models" := JNull]);
    assert forall k :: k in v.fields <==> k == "models";
  }
}
