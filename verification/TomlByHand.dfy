/** Agent definitions as people write them: multi-line strings, lists over several lines, bare
    keys, literal strings and comments, none of which the printer emits
    (internal/session/definition_config.go:137-274). */
module TomlByHand {
  import opened Basics
  import opened Text
  import opened Conversation
  import opened ConfigText
  import opened ConfigQuote
  import opened ConfigValues
  import opened ConfigRoundTrip
  import opened ConfigByHand
  import opened Toml
  import opened TomlRoundTrip

  // ----- what is written, and what it says -----

  /** A part of a `"""` string. A joint is a backslash at the end of a line with the white space
      that follows it. */
  datatype Piece = Verbatim(s: string) | Escaped(s: string) | Joint(blanks: string)

  /** A line of a list: one value, or nothing but a comment. */
  datatype Row = Item(pad: string, value: Json, remark: string) | Gap(remark: string)

  datatype Form =
    | Printed(value: Json)
    | Unquoted(t: string, value: Json)
    | InBraces(pairs: seq<Pair>, colon: bool)
    | Literal(s: string)
    | LiteralLines(s: string)
    | QuotedLines(pieces: seq<Piece>)
    | ListLines(rows: seq<Row>, comma: bool, pad: string)

  datatype Key = Key(name: string, bare: bool)

  datatype Statement = Note(remark: string) | Entry(key: Key, form: Form, remark: string)

  function KeyText(c: Codec, key: Key): string { if key.bare then key.name else GoQuote(c.printable, key.name) }

  function Doubled(s: string): string { if s == "" then "" else (if s[0] == '\'' then "''" else [s[0]]) + Doubled(s[1..]) }

  function Raw(pieces: seq<Piece>): string {
    if pieces == [] then ""
    else
      (match pieces[0]
       case Verbatim(s) => s
       case Escaped(s) => JsonBody(s)
       case Joint(blanks) => "\\\n" + blanks) + Raw(pieces[1..])
  }

  /** What the pieces say: a joint says nothing. */
  function Said(pieces: seq<Piece>): string {
    if pieces == [] then "" else (if pieces[0].Joint? then "" else pieces[0].s) + Said(pieces[1..])
  }

  function Items(rows: seq<Row>): seq<Json> {
    if rows == [] then [] else (if rows[0].Item? then [rows[0].value] else []) + Items(rows[1..])
  }

  function Meaning(form: Form): Json {
    match form
    case Printed(value) => value
    case Unquoted(_, value) => value
    case InBraces(pairs, _) => JObject(Mapped(pairs, map[]))
    case Literal(s) => JString(s)
    case LiteralLines(s) => JString(s)
    case QuotedLines(pieces) => JString(Said(pieces))
    case ListLines(rows, _, _) => JArray(Items(rows))
  }

  /** Every value is followed by a comma, except the last where `comma` is false. */
  function RowText(c: Codec, row: Row, comma: bool): string
    requires Sound(c)
  {
    match row
    case Gap(remark) => remark
    case Item(pad, value, remark) =>
      var t := Encode(c, value);
      pad + (if t.Some? then t.value else "") + (if comma then "," else "") + remark
  }

  function RowTexts(c: Codec, rows: seq<Row>, comma: bool): seq<string>
    requires Sound(c)
  {
    if rows == [] then []
    else [RowText(c, rows[0], comma || Items(rows[1..]) != [])] + RowTexts(c, rows[1..], comma)
  }

  /** What stands behind the equals sign. */
  function FormText(c: Codec, form: Form): string
    requires Sound(c)
  {
    match form
    case Printed(value) => if Encode(c, value).Some? then Encode(c, value).value else ""
    case Unquoted(t, _) => t
    case InBraces(pairs, colon) => Braces(c, pairs, colon)
    case Literal(s) => "'" + Doubled(s) + "'"
    case LiteralLines(s) => "'''\n" + s + "'''"
    case QuotedLines(pieces) => "\"\"\"\n" + Raw(pieces) + "\"\"\""
    case ListLines(rows, comma, pad) => "[\n" + Unlines(RowTexts(c, rows, comma)) + pad + "]"
  }

  function Written(c: Codec, statement: Statement): string
    requires Sound(c)
  {
    match statement
    case Note(remark) => remark + "\n"
    case Entry(key, form, remark) => KeyText(c, key) + " = " + FormText(c, form) + remark + "\n"
  }

  function Document(c: Codec, statements: seq<Statement>): string
    requires Sound(c)
  {
    if statements == [] then "" else Written(c, statements[0]) + Document(c, statements[1..])
  }

  /** The table with what a statement says added; none if it has no name, or one that is taken. */
  ghost function Entered(statement: Statement, table: Table): Option<Table> {
    if statement.Note? then Some(table)
    else
      var name, value := statement.key.name, Meaning(statement.form);
      if name == "" || name in table || !KeysNamed(value) then None else Some(table[name := value])
  }

  ghost function Entries(statements: seq<Statement>, table: Table): Option<Table>
    decreases |statements|
  {
    if statements == [] then Some(table)
    else
      var entered := Entered(statements[0], table);
      if entered.None? then None else Entries(statements[1..], entered.value)
  }

  // ----- what may be written -----

  /** White space, then possibly a comment. */
  predicate Remark(s: string)
    decreases |s|
  {
    OneLine(s) && (s == "" || s[0] == '#' || (IsSpace(s[0]) && Remark(s[1..])))
  }

  predicate Pad(s: string) { Blank(s) && OneLine(s) }

  /** What words, numbers and the like are made of. */
  predicate LooseChar(ch: char) { BareChar(ch) || ch == '.' || ch == '+' || ch == '~' }

  /** The delimiter is met first where it closes the text: the text does not hold it, nor ends in
      a part of it. */
  ghost predicate Closes(text: string, delimiter: string) {
    forall i :: 0 <= i < |text| ==> !Found(text + delimiter, delimiter, i)
  }

  predicate Found(s: string, sub: string, i: int) { 0 <= i && i + |sub| <= |s| && s[i..i + |sub|] == sub }

  predicate Swallowed(ch: char) { ch == ' ' || ch == '\t' || ch == '\r' || ch == '\n' }

  ghost predicate Readable(pieces: seq<Piece>)
    decreases |pieces|
  {
    pieces == [] || (Readable(pieces[1..]) &&
      match pieces[0]
      case Verbatim(s) => '\\' !in s
      case Escaped(_) => true
      case Joint(blanks) =>
        && (forall i :: 0 <= i < |blanks| ==> Swallowed(blanks[i]))
        && (Raw(pieces[1..]) == "" || !Swallowed(Raw(pieces[1..])[0])))
  }

  ghost predicate RowFair(c: Codec, row: Row)
    requires Sound(c)
  {
    Remark(row.remark) && (row.Item? ==> Pad(row.pad) && Numeric(c, row.value) && Encode(c, row.value).Some?)
  }

  predicate LastStaysOpen(rows: seq<Row>, comma: bool) {
    !comma && Items(rows) != [] ==> !Items(rows)[|Items(rows)| - 1].JArray?
  }

  ghost predicate RowsFair(c: Codec, rows: seq<Row>)
    requires Sound(c)
  {
    forall i :: 0 <= i < |rows| ==> RowFair(c, rows[i])
  }

  /** A list ends at the first line that ends in a bracket, and no comment stands behind its own. */
  ghost predicate Fair(c: Codec, statement: Statement)
    requires Sound(c)
  {
    Remark(statement.remark) && (statement.Entry? ==>
      && (statement.key.bare ==> Bare(c, statement.key.name))
      && match statement.form
         case Printed(value) => Numeric(c, value) && Encode(c, value).Some?
         case Unquoted(t, value) => t != "" && (forall i :: 0 <= i < |t| ==> LooseChar(t[i])) && MeansBare(c, t, Some(value))
         case InBraces(pairs, _) => pairs != [] && PairsFair(c, pairs) && NamesApart(pairs)
         case Literal(s) => OneLine(s) && !("'" <= s)
         case LiteralLines(s) => Closes(s, APOSTROPHES)
         case QuotedLines(pieces) => Readable(pieces) && Closes(Raw(pieces), QUOTES)
         case ListLines(rows, comma, pad) =>
           Pad(pad) && statement.remark == "" && RowsFair(c, rows) && LastStaysOpen(rows, comma))
  }

  // ----- comments -----

  lemma {:induction false} SpaceIsOrdinary(ch: char)
    requires IsSpace(ch)
    ensures Ordinary(ch) && ch != '#' && ch != '=' && ch != ','
  {}

  lemma {:induction false} OrdinaryStep(ch: char, delimiter: char)
    requires Ordinary(ch)
    ensures Step(TOP, ch) == TOP && (Cuts(TOP, ch, delimiter) <==> ch == delimiter)
  {}

  /** Of a remark, the piece before the comment is white space. */
  lemma {:induction false} RemarkCut(piece: string, remark: string) returns (blanks: string)
    requires Remark(remark)
    ensures Blank(blanks) && SplitFrom(TOP, piece, remark, '#')[0] == piece + blanks
    decreases |remark|
  {
    hide IsSpace, Ordinary, Cuts, Step;
    if remark == "" {
      blanks := "";
      assert piece + blanks == piece;
    } else if remark[0] == '#' {
      blanks := "";
      assert piece + blanks == piece;
      HashCuts();
    } else {
      SpaceIsOrdinary(remark[0]);
      OrdinaryStep(remark[0], '#');
      var more := RemarkCut(piece + [remark[0]], remark[1..]);
      blanks := [remark[0]] + more;
      assert piece + blanks == piece + [remark[0]] + more;
    }
  }

  lemma HashCuts()
    ensures Cuts(TOP, '#', '#')
  {}

  /** A comment is taken off a line that scans as one piece and is level where the comment begins. */
  lemma {:induction false} CommentOff(pad: string, t: string, remark: string)
    requires Blank(pad) && t != "" && !IsSpace(t[0]) && !IsSpace(t[|t| - 1]) && Whole(TOP, t, '#')
    requires Remark(remark) && (remark == "" || Walk(TOP, t) == TOP)
    ensures Comment(pad + t + remark) == t
  {
    hide Whole, SplitFrom, IsSpace, Remark, Walk;
    PadScans(pad);
    assert pad + t + remark == pad + (t + remark) && "" + pad == pad;
    SplitOver(TOP, "", pad, t + remark, '#');
    SplitOver(TOP, pad, t, remark, '#');
    var blanks := "";
    if remark == "" {
      EndOfScan(Walk(TOP, t), pad + t, '#');
      assert pad + t + "" == pad + t;
    } else {
      blanks := RemarkCut(pad + t, remark);
    }
    TrimAround(pad, t, blanks);
    CommentSplits(pad + t + remark, pad + t + blanks);
  }

  lemma {:induction false} CommentSplits(line: string, first: string)
    requires SplitFrom(TOP, "", line, '#')[0] == first
    ensures Comment(line) == Trim(first)
  {
    hide SplitFrom, Trim;
  }

  lemma {:induction false} PadScans(pad: string)
    requires Blank(pad)
    ensures Walk(TOP, pad) == TOP && Whole(TOP, pad, '#') && Whole(TOP, pad, '=') && Whole(TOP, pad, ',')
  {
    hide IsSpace, Ordinary, Cuts, Step;
    if pad != "" {
      assert pad[0] in pad;
      SpaceIsOrdinary(pad[0]);
      OrdinaryStep(pad[0], '#');
      OrdinaryStep(pad[0], '=');
      OrdinaryStep(pad[0], ',');
      PadScans(pad[1..]);
    }
  }

  /** A line with nothing on it but a remark is blank to the parser. */
  lemma {:induction false} RemarkIsNothing(remark: string)
    requires Remark(remark)
    ensures Comment(remark) == ""
  {
    hide IsSpace, Remark, SplitFrom;
    var blanks := RemarkCut("", remark);
    assert "" + blanks == blanks && "" + "" + blanks == blanks;
    TrimAround("", "", blanks);
    CommentSplits(remark, blanks);
  }

  // ----- multi-line strings -----

  ghost predicate NotFound(s: string, sub: string, before: int) { forall i :: i < before ==> !Found(s, sub, i) }

  lemma {:induction false} FoundInTail(s: string, sub: string, i: int)
    requires s != "" && i >= 1
    ensures Found(s, sub, i) <==> Found(s[1..], sub, i - 1)
  {
    if i + |sub| <= |s| {
      var a, b := s[i..i + |sub|], s[1..][i - 1..i - 1 + |sub|];
      assert forall k :: 0 <= k < |sub| ==> a[k] == b[k];
      assert a == b;
    }
  }

  lemma {:induction false} FoundAtStart(s: string, sub: string)
    ensures Found(s, sub, 0) <==> |sub| <= |s| && s[..|sub|] == sub
  {
    if |sub| <= |s| { assert s[0..0 + |sub|] == s[..|sub|]; }
  }

  lemma {:induction false} NotFoundInTail(s: string, sub: string, before: int)
    requires s != "" && !Found(s, sub, 0) && NotFound(s[1..], sub, before - 1)
    ensures NotFound(s, sub, before)
  {
    forall i | i < before ensures !Found(s, sub, i) {
      if i >= 1 { FoundInTail(s, sub, i); }
    }
  }

  lemma {:induction false} IndexIsFirst(s: string, sub: string)
    requires sub != ""
    ensures var at := IndexOf(s, sub);
      if at.None? then NotFound(s, sub, |s| + 1) else Found(s, sub, at.value) && NotFound(s, sub, at.value)
  {
    FoundAtStart(s, sub);
    if |s| >= |sub| && s[..|sub|] != sub {
      IndexIsFirst(s[1..], sub);
      var later := IndexOf(s[1..], sub);
      NotFoundInTail(s, sub, if later.None? then |s| + 1 else later.value + 1);
      if later.Some? { FoundInTail(s, sub, later.value + 1); }
    }
  }

  lemma {:induction false} FirstIsOne(s: string, sub: string, a: nat, b: nat)
    requires Found(s, sub, a) && NotFound(s, sub, a) && Found(s, sub, b) && NotFound(s, sub, b)
    ensures a == b
  {}

  lemma {:induction false} SomewhereFound(s: string, sub: string, k: nat)
    requires Found(s, sub, k)
    ensures !NotFound(s, sub, |s| + 1)
  {
    assert k < |s| + 1;
  }

  lemma {:induction false} IndexIs(s: string, sub: string, k: nat)
    requires sub != "" && Found(s, sub, k) && NotFound(s, sub, k)
    ensures IndexOf(s, sub) == Some(k)
  {
    hide *;
    IndexIsFirst(s, sub);
    SomewhereFound(s, sub, k);
    if IndexOf(s, sub).Some? { FirstIsOne(s, sub, IndexOf(s, sub).value, k); }
  }

  /** Finding it in a text is finding it in that text with more behind it. */
  lemma {:induction false} FoundInLonger(s: string, more: string, sub: string, i: int)
    requires i + |sub| <= |s|
    ensures Found(s, sub, i) <==> Found(s + more, sub, i)
  {
    if 0 <= i { assert (s + more)[i..i + |sub|] == s[i..i + |sub|]; }
  }

  lemma {:induction false} NotFoundInLonger(s: string, more: string, sub: string, k: nat)
    requires k + |sub| <= |s| && NotFound(s, sub, k)
    ensures NotFound(s + more, sub, k)
  {
    forall i | i < k ensures !Found(s + more, sub, i) {
      assert !Found(s, sub, i);
      FoundInLonger(s, more, sub, i);
    }
  }

  lemma {:induction false} IndexInLonger(s: string, more: string, sub: string)
    requires sub != "" && IndexOf(s, sub).Some?
    ensures IndexOf(s + more, sub) == IndexOf(s, sub)
  {
    hide *;
    IndexIsFirst(s, sub);
    var k := IndexOf(s, sub).value;
    FoundInLonger(s, more, sub, k);
    NotFoundInLonger(s, more, sub, k);
    IndexIs(s + more, sub, k);
  }

  /** Where a text closes, the delimiter is found. */
  lemma {:induction false} ClosesAt(text: string, delimiter: string, more: string)
    requires delimiter != "" && Closes(text, delimiter)
    ensures IndexOf(text + delimiter + more, delimiter) == Some(|text|)
  {
    var s := text + delimiter;
    assert NotFound(s, delimiter, |text|);
    hide *;
    EndsWith(text, delimiter);
    IndexIs(s, delimiter, |text|);
    IndexInLonger(s, more, delimiter);
  }

  lemma {:induction false} EndsWith(text: string, sub: string)
    ensures Found(text + sub, sub, |text|)
  {
    assert (text + sub)[|text|..|text| + |sub|] == sub;
  }

  /** Lines put together again. */
  function Rejoined(raw: string, lines: seq<string>): string
    decreases |lines|
  {
    if lines == [] then raw else Rejoined(raw + "\n" + lines[0], lines[1..])
  }

  lemma {:induction false} RejoinedExtends(raw: string, lines: seq<string>) returns (more: string)
    ensures Rejoined(raw, lines) == raw + more && (lines != [] ==> more != "" && more[0] == '\n')
    decreases |lines|
  {
    if lines == [] {
      more := "";
      assert raw + more == raw;
    } else {
      var rest := RejoinedExtends(raw + "\n" + lines[0], lines[1..]);
      more := "\n" + lines[0] + rest;
      assert raw + "\n" + lines[0] + rest == raw + more;
    }
  }

  lemma {:induction false} RejoinedAppend(a: string, raw: string, lines: seq<string>)
    ensures Rejoined(a + raw, lines) == a + Rejoined(raw, lines)
    decreases |lines|
  {
    if lines != [] {
      RejoinedAppend(a, raw + "\n" + lines[0], lines[1..]);
      assert a + raw + "\n" + lines[0] == a + (raw + "\n" + lines[0]);
    }
  }

  lemma {:induction false} LinesFrom(ch: char, s: string)
    ensures Lines([ch] + s) == if ch == '\n' then [""] + Lines(s) else [[ch] + Lines(s)[0]] + Lines(s)[1..]
  {
    assert ([ch] + s)[0] == ch && ([ch] + s)[1..] == s;
  }

  lemma {:induction false} LinesRejoin(s: string)
    ensures Rejoined(Lines(s)[0], Lines(s)[1..]) == s
  {
    if s == "" {
      EmptyDocument();
    } else {
      var rest := Lines(s[1..]);
      LinesRejoin(s[1..]);
      LinesFrom(s[0], s[1..]);
      assert s == [s[0]] + s[1..];
      hide Lines;
      if s[0] == '\n' {
        assert ([""] + rest)[1..] == rest && "" + "\n" + rest[0] == "\n" + rest[0];
        RejoinedAppend("\n", rest[0], rest[1..]);
      } else {
        assert ([[s[0]] + rest[0]] + rest[1..])[1..] == rest[1..];
        RejoinedAppend([s[0]], rest[0], rest[1..]);
      }
    }
  }

  lemma {:induction false} LinesAppend(a: string, b: string)
    ensures Lines(a + "\n" + b) == Lines(a) + Lines(b)
  {
    if a == "" {
      LinesFrom('\n', b);
      assert a + "\n" + b == ['\n'] + b;
    } else {
      var first, rest := [a[0]], a[1..];
      LinesAppend(rest, b);
      LinesFrom(a[0], rest);
      LinesFrom(a[0], rest + "\n" + b);
      hide *;
      assert first + rest == a && first + (rest + "\n" + b) == a + "\n" + b;
      Cons(Lines(rest), Lines(b));
      Regroup([""], Lines(rest), Lines(b));
      Regroup([first + Lines(rest)[0]], Lines(rest)[1..], Lines(b));
    }
  }

  /** A string that closes is gathered up to the end of the line it closes on. */
  lemma {:induction false} Gathers(raw: string, delimiter: string, lines: seq<string>, after: seq<string>, text: string, remark: string)
    requires delimiter != "" && '\n' !in delimiter && '\n' !in remark && Closes(text, delimiter)
    requires Rejoined(raw, lines) == text + delimiter + remark
    ensures Gather(raw, delimiter, lines + after) == Some((text + delimiter + remark, after))
    decreases |lines|
  {
    hide IndexOf;
    ClosesAt(text, delimiter, remark);
    if lines == [] {
      assert lines + after == after;
    } else {
      hide Closes, Found;
      var whole := text + delimiter + remark;
      var more := RejoinedExtends(raw, lines);
      assert whole[|raw|] == '\n' && |raw| < |text|;
      if IndexOf(raw, delimiter).Some? {
        IndexInLonger(raw, more, delimiter);
        assert false;
      }
      assert (lines + after)[0] == lines[0] && (lines + after)[1..] == lines[1..] + after;
      Gathers(raw + "\n" + lines[0], delimiter, lines[1..], after, text, remark);
    }
  }

  /** A multi-line string opened at the end of a line is the text up to the delimiter, decoded
      between double quotes. */
  lemma {:induction false} MultilineReads(delimiter: string, text: string, remark: string, after: seq<string>)
    requires (delimiter == QUOTES || delimiter == APOSTROPHES) && Closes(text, delimiter) && Remark(remark)
    ensures OpensMultiline(delimiter)
    ensures var said := if delimiter == QUOTES then DecodeMultiline(text) else Some(text);
      Multiline(delimiter, Lines(text + delimiter + remark) + after) == if said.None? then None else Some((said.value, after))
  {
    var whole := text + delimiter + remark;
    var lines := Lines(whole);
    RemarkOneLine(remark);
    LinesRejoin(whole);
    ClosesAt(text, delimiter, remark);
    Gathers(lines[0], delimiter, lines[1..], after, text, remark);
    RemarkIsNothing(remark);
    assert whole[|text| + 3..] == remark && whole[..|text|] == text;
    hide *;
    Cons(lines, after);
    NothingToTrim();
    MultilineIs(delimiter, lines + after, whole, |text|, after);
  }

  lemma {:induction false} Cons<T>(lines: seq<T>, after: seq<T>)
    requires lines != []
    ensures (lines + after)[0] == lines[0] && (lines + after)[1..] == lines[1..] + after
  {}

  lemma NothingToTrim()
    ensures Trim("") == ""
  {}

  lemma {:induction false} MultilineIs(delimiter: string, lines: seq<string>, whole: string, end: nat, after: seq<string>)
    requires (delimiter == QUOTES || delimiter == APOSTROPHES) && lines != [] && end + 3 <= |whole|
    requires Gather(lines[0], delimiter, lines[1..]) == Some((whole, after)) && IndexOf(whole, delimiter) == Some(end)
    requires Trim(Comment(whole[end + 3..])) == ""
    ensures OpensMultiline(delimiter)
    ensures var said := if delimiter == QUOTES then DecodeMultiline(whole[..end]) else Some(whole[..end]);
      Multiline(delimiter, lines) == if said.None? then None else Some((said.value, after))
  {
    hide IndexOf, Gather, Comment, DecodeMultiline, Trim;
    assert delimiter[..3] == delimiter && delimiter[3..] == "";
  }

  lemma {:induction false} RemarkOneLine(remark: string)
    requires Remark(remark)
    ensures '\n' !in remark
  {}

  // ----- `"""` strings -----

  lemma {:induction false} VerbatimDecodes(s: string, rest: string)
    requires '\\' !in s
    ensures var r := DecodeMultiline(rest);
      DecodeMultiline(s + rest) == if r.None? then None else Some(s + r.value)
  {
    hide Unquote, SkipBlank;
    if s == "" {
      assert s + rest == rest;
      assert DecodeMultiline(rest).Some? ==> s + DecodeMultiline(rest).value == DecodeMultiline(rest).value;
    } else {
      assert (s + rest)[0] == s[0] && (s + rest)[1..] == s[1..] + rest;
      VerbatimDecodes(s[1..], rest);
      var r := DecodeMultiline(rest);
      if r.Some? { assert [s[0]] + (s[1..] + r.value) == s + r.value; }
    }
  }

  lemma {:induction false} EscapeShape(ch: char)
    ensures var e := JsonEscape(ch);
      && (|e| == 1 ==> e == [ch] && ch != '\\')
      && (|e| == 2 ==> e[0] == '\\' && e[1] != '\n' && e[1] != '\r' && e[1] != 'u' && e[1] != 'U')
      && (|e| == 6 ==> e[0] == '\\' && e[1] == 'u')
      && (|e| == 1 || |e| == 2 || |e| == 6)
  {
    hide Hex;
  }

  lemma {:induction false} EscapeUnquotes(ch: char)
    ensures Unquote("\"" + JsonEscape(ch) + "\"") == Some([ch])
  {
    var e := JsonEscape(ch);
    JsonEscapeReads(ch, "");
    assert e + "" == e;
    hide JsonEscape, GoChar;
    var quoted := "\"" + e + "\"";
    assert quoted[1..|quoted| - 1] == e;
    assert GoUnescape("") == Some("") && [ch] + "" == [ch];
  }

  lemma {:induction false} EscapeDecodes(ch: char, rest: string)
    ensures var r := DecodeMultiline(rest);
      DecodeMultiline(JsonEscape(ch) + rest) == if r.None? then None else Some([ch] + r.value)
  {
    EscapeShape(ch);
    EscapeUnquotes(ch);
    hide JsonEscape, Unquote, SkipBlank;
    var e := JsonEscape(ch);
    var s := e + rest;
    assert s[..|e|] == e && s[|e|..] == rest;
  }

  lemma {:induction false} BodyDecodes(said: string, rest: string)
    ensures var r := DecodeMultiline(rest);
      DecodeMultiline(JsonBody(said) + rest) == if r.None? then None else Some(said + r.value)
  {
    hide JsonEscape, DecodeMultiline;
    var r := DecodeMultiline(rest);
    if said == "" {
      assert JsonBody(said) + rest == rest && (r.Some? ==> "" + r.value == r.value);
    } else {
      BodyDecodes(said[1..], rest);
      EscapeDecodes(said[0], JsonBody(said[1..]) + rest);
      assert JsonEscape(said[0]) + JsonBody(said[1..]) + rest == JsonEscape(said[0]) + (JsonBody(said[1..]) + rest);
      if r.Some? { assert [said[0]] + (said[1..] + r.value) == said + r.value; }
    }
  }

  lemma {:induction false} Skips(blanks: string, rest: string)
    requires (forall i :: 0 <= i < |blanks| ==> Swallowed(blanks[i])) && (rest == "" || !Swallowed(rest[0]))
    ensures SkipBlank(blanks + rest) == rest
  {
    if blanks == "" {
      assert blanks + rest == rest;
    } else {
      assert (blanks + rest)[0] == blanks[0] && (blanks + rest)[1..] == blanks[1..] + rest;
      Skips(blanks[1..], rest);
    }
  }

  /** A backslash at the end of a line joins what stands before it to the next thing that is not
      white space. */
  lemma {:induction false} JointDecodes(blanks: string, rest: string)
    requires (forall i :: 0 <= i < |blanks| ==> Swallowed(blanks[i])) && (rest == "" || !Swallowed(rest[0]))
    ensures DecodeMultiline("\\\n" + blanks + rest) == DecodeMultiline(rest)
  {
    Skips(blanks, rest);
    hide SkipBlank, Unquote;
    var s := "\\\n" + blanks + rest;
    assert s[2..] == blanks + rest;
  }

  /** What a `"""` string says, piece by piece. */
  lemma {:induction false} PiecesDecode(pieces: seq<Piece>)
    requires Readable(pieces)
    ensures DecodeMultiline(Raw(pieces)) == Some(Said(pieces))
  {
    hide DecodeMultiline, Swallowed, JsonBody;
    if pieces == [] {
      NothingDecodes();
    } else {
      var rest := Raw(pieces[1..]);
      PiecesDecode(pieces[1..]);
      match pieces[0]
      case Verbatim(s) => VerbatimDecodes(s, rest);
      case Escaped(s) => BodyDecodes(s, rest);
      case Joint(blanks) =>
        JointDecodes(blanks, rest);
        assert "" + Said(pieces[1..]) == Said(pieces[1..]);
    }
  }

  lemma NothingDecodes()
    ensures DecodeMultiline("") == Some("")
  {}

  // ----- lists over several lines -----

  /** What a row adds to the list. */
  function RowSays(c: Codec, row: Row, comma: bool): string
    requires Sound(c)
  {
    match row
    case Gap(_) => ""
    case Item(_, value, _) =>
      var t := Encode(c, value);
      (if t.Some? then t.value else "") + (if comma then "," else "")
  }

  function Gathered(c: Codec, rows: seq<Row>, comma: bool): string
    requires Sound(c)
  {
    if rows == [] then "" else " " + RowSays(c, rows[0], comma || Items(rows[1..]) != []) + Gathered(c, rows[1..], comma)
  }

  lemma {:induction false} CommaScans()
    ensures Walk(TOP, ",") == TOP && Whole(TOP, ",", '#') && !IsSpace(',')
  {
    assert ","[1..] == "" && Step(TOP, ',') == TOP;
  }

  lemma {:induction false} PadOneLine(pad: string)
    requires Pad(pad)
    ensures Blank(pad) && OneLine(pad)
  {}

  lemma {:induction false} RemarkIsOneLine(remark: string)
    requires Remark(remark)
    ensures OneLine(remark)
  {}

  /** The value on a row, and the comma behind it, are what is left of the row. */
  lemma {:induction false} RowReads(c: Codec, row: Row, comma: bool)
    requires Sound(c) && RowFair(c, row)
    ensures Comment(RowText(c, row, comma)) == RowSays(c, row, comma) && OneLine(RowText(c, row, comma))
  {
    hide Numeric, Encode, Remark, Pad, Comment, OneLine, Enumerates, Solid;
    match row
    case Gap(remark) =>
      RemarkIsNothing(remark);
      RemarkIsOneLine(remark);
    case Item(pad, value, remark) =>
      var t, mark := Encode(c, value).value, if comma then "," else "";
      ValueIsSolid(c, value);
      hide RowFair;
      SolidScans(t);
      PadOneLine(pad);
      RemarkIsOneLine(remark);
      CommaScans();
      SpacesScan();
      hide *;
      WholeAppend(TOP, t, mark, '#');
      WalkAppend(TOP, t, mark);
      CommentOff(pad, t + mark, remark);
      RowIs(c, row, comma, t);
      assert pad + (t + mark) + remark == pad + t + mark + remark;
      OneLineParts(pad, t, mark, remark);
  }

  lemma {:induction false} RowIs(c: Codec, row: Row, comma: bool, t: string)
    requires Sound(c) && row.Item? && Encode(c, row.value) == Some(t)
    ensures RowText(c, row, comma) == row.pad + t + (if comma then "," else "") + row.remark
    ensures RowSays(c, row, comma) == t + (if comma then "," else "")
  {
    hide Encode, Enumerates;
  }

  lemma {:induction false} OneLineParts(a: string, b: string, mark: string, d: string)
    requires OneLine(a) && OneLine(b) && (mark == "" || mark == ",") && OneLine(d)
    ensures OneLine(a + b + mark + d)
  {}

  lemma {:induction false} NumberHasNoBracket(t: string)
    requires t != "" && NumberText(t)
    ensures t[|t| - 1] != ']'
  {}

  /** Of all printed values only a list ends like one. */
  lemma {:induction false} EndsOpen(c: Codec, v: Json, t: string)
    requires Sound(c) && Numeric(c, v) && Encode(c, v) == Some(t) && !v.JArray?
    ensures t != "" && t[|t| - 1] != ']'
  {
    match v
    case JBool(b) =>
    case JNumber(_) => NumberIsNumber(t); NumberHasNoBracket(t);
    case JString(s) => assert t[|t| - 1] == '"';
    case JObject(_) => hide EncodeFields, Enumerates, JoinWith, Numeric; assert t[|t| - 1] == '}';
  }

  lemma {:induction false} StaysOpen(c: Codec, rows: seq<Row>, comma: bool, raw: string)
    requires Sound(c) && rows != [] && RowsFair(c, rows) && LastStaysOpen(rows, comma) && OpenList(raw)
    ensures OpenList(raw + " " + RowSays(c, rows[0], comma || Items(rows[1..]) != []))
    ensures RowsFair(c, rows[1..]) && LastStaysOpen(rows[1..], comma) && RowFair(c, rows[0])
  {
    var row, more := rows[0], Items(rows[1..]);
    var mark := comma || more != [];
    assert RowFair(c, row);
    if row.Item? && !mark {
      assert Items(rows) == [row.value];
      EndsOpen(c, row.value, Encode(c, row.value).value);
    }
    hide Encode, Numeric, Remark, Pad, Enumerates;
    if row.Item? { RowIs(c, row, mark, Encode(c, row.value).value); }
  }

  lemma {:induction false} ContinueTakes(raw: string, line: string, lines: seq<string>, says: string)
    requires OpenList(raw) && Comment(line) == says
    ensures Continue(raw, [line] + lines) == Continue(raw + " " + says, lines)
  {
    hide OpenList, Comment;
    assert ([line] + lines)[0] == line && ([line] + lines)[1..] == lines;
  }

  lemma {:induction false} NoRows(c: Codec, comma: bool)
    requires Sound(c)
    ensures RowTexts(c, [], comma) == [] && Gathered(c, [], comma) == "" && Items([]) == []
  {}

  lemma {:induction false} ContinueEnds(raw: string, after: seq<string>)
    ensures Continue(raw + "]", after) == Some((raw + "]", after))
  {}

  lemma {:induction false} BracketEnds(raw: string, pad: string, after: seq<string>)
    requires OpenList(raw) && Pad(pad)
    ensures Continue(raw, [] + ([pad + "]"] + after)) == Some((raw + "" + " ]", after))
  {
    hide *;
    BracketReads(pad);
    assert [] + ([pad + "]"] + after) == [pad + "]"] + after;
    assert raw + "" + " ]" == raw + " " + "]";
    ContinueTakes(raw, pad + "]", after, "]");
    ContinueEnds(raw + " ", after);
  }

  lemma {:induction false} Glue(raw: string, says: string, more: string)
    ensures raw + " " + says + more + " ]" == raw + (" " + says + more) + " ]"
  {}

  /** The rows and the closing bracket are put on one line. */
  lemma {:induction false} RowsContinue(c: Codec, rows: seq<Row>, comma: bool, pad: string, raw: string, after: seq<string>)
    requires Sound(c) && RowsFair(c, rows) && LastStaysOpen(rows, comma) && OpenList(raw) && Pad(pad)
    ensures Continue(raw, RowTexts(c, rows, comma) + ([pad + "]"] + after)) == Some((raw + Gathered(c, rows, comma) + " ]", after))
    decreases |rows|
  {
    if rows == [] {
      NoRows(c, comma);
      hide *;
      BracketEnds(raw, pad, after);
    } else {
      hide *;
      StaysOpen(c, rows, comma, raw);
      var mark := comma || Items(rows[1..]) != [];
      var line, says := RowText(c, rows[0], mark), RowSays(c, rows[0], mark);
      RowReads(c, rows[0], mark);
      RowsNext(c, rows, comma);
      var rest := RowTexts(c, rows[1..], comma) + ([pad + "]"] + after);
      Regroup([line], RowTexts(c, rows[1..], comma), [pad + "]"] + after);
      ContinueTakes(raw, line, rest, says);
      RowsContinue(c, rows[1..], comma, pad, raw + " " + says, after);
      Glue(raw, says, Gathered(c, rows[1..], comma));
    }
  }

  lemma {:induction false} RowsNext(c: Codec, rows: seq<Row>, comma: bool)
    requires Sound(c) && rows != []
    ensures var mark := comma || Items(rows[1..]) != [];
      && RowTexts(c, rows, comma) == [RowText(c, rows[0], mark)] + RowTexts(c, rows[1..], comma)
      && Gathered(c, rows, comma) == " " + RowSays(c, rows[0], mark) + Gathered(c, rows[1..], comma)
      && Items(rows) == (if rows[0].Item? then [rows[0].value] else []) + Items(rows[1..])
  {
    hide RowText, RowSays, Enumerates;
  }

  lemma {:induction false} BracketReads(pad: string)
    requires Pad(pad)
    ensures Comment(pad + "]") == "]" && OneLine(pad + "]")
  {
    PadOneLine(pad);
    assert "]"[1..] == "" && Whole(TOP, "]", '#') && !IsSpace(']') && Remark("");
    hide *;
    CommentOff(pad, "]", "");
    assert pad + "]" + "" == pad + "]";
    OneLineBracket(pad);
  }

  lemma {:induction false} OneLineBracket(pad: string)
    requires OneLine(pad)
    ensures OneLine(pad + "]")
  {}

  // The line that results, read as JSON: refused, or the list.

  lemma {:induction false} SpacesSkip(s: string, rest: string)
    requires (forall ch :: ch in s ==> ch == ' ') && rest != "" && !JsonSpace(rest[0])
    ensures SkipSpace(s + rest) == rest
  {
    if s == "" {
      assert s + rest == rest;
    } else {
      assert s[0] in s && (s + rest)[0] == s[0] && (s + rest)[1..] == s[1..] + rest;
      assert forall ch :: ch in s[1..] ==> ch in s;
      SpacesSkip(s[1..], rest);
    }
  }

  lemma {:induction false} GapsAreSpaces(c: Codec, rows: seq<Row>, comma: bool)
    requires Sound(c) && Items(rows) == []
    ensures forall ch :: ch in Gathered(c, rows, comma) ==> ch == ' '
  {
    hide Encode, Enumerates;
    if rows != [] { GapsAreSpaces(c, rows[1..], comma); }
  }

  lemma {:induction false} NothingReads(c: Codec, s: string, rest: string)
    requires SkipSpace(s) == "]" + rest
    ensures JsonElements(c, s).None?
  {
    hide SkipSpace;
    assert JsonValue(c, s).None?;
  }

  lemma {:induction false} ElementBefore(c: Codec, s: string, v: Json, t: string, rest: string)
    requires Sound(c) && Numeric(c, v) && Encode(c, v) == Some(t) && rest != "" && !NumberChar(rest[0]) && s == " " + t + rest
    ensures JsonValue(c, s) == if Flat(v) then Some((v, rest)) else None
  {
    hide *;
    Regroup(" ", t, rest);
    JsonReads(c, v, t, rest);
    SpaceBefore(c, t + rest);
  }

  lemma {:induction false} ElementThenMore(c: Codec, s: string, v: Json, rest: string)
    requires JsonValue(c, s) == Some((v, "," + rest))
    ensures var more := JsonElements(c, rest);
      JsonElements(c, s) == if more.None? then None else Some(([v] + more.value.0, more.value.1))
  {
    hide JsonValue;
    NoSpaceToSkip("," + rest);
    assert ("," + rest)[1..] == rest;
  }

  lemma {:induction false} ElementLast(c: Codec, s: string, v: Json, rest: string)
    requires JsonValue(c, s).Some? ==> JsonValue(c, s).value.0 == v && SkipSpace(JsonValue(c, s).value.1) == "]"
    ensures JsonElements(c, s) == if JsonValue(c, s).Some? then Some(([v], "")) else None
  {
    hide JsonValue;
    assert "]"[1..] == "";
  }

  ghost predicate ReadAs(r: Option<(seq<Json>, string)>, items: seq<Json>) { r.Some? ==> r == Some((items, "")) && AllNamed(items) }

  lemma {:induction false} ReadAsNext(r: Option<(seq<Json>, string)>, v: Json, items: seq<Json>)
    requires ReadAs(r, items) && Flat(v)
    ensures ReadAs(if r.None? then None else Some(([v] + r.value.0, r.value.1)), [v] + items)
  {
    FlatIsNamed(v);
    hide Flat, KeysNamed;
    AllNamedNext([v] + items);
    assert ([v] + items)[0] == v && ([v] + items)[1..] == items;
  }

  lemma {:induction false} ReadAsNone(items: seq<Json>)
    ensures ReadAs(None, items)
  {}

  lemma NoNames()
    ensures AllNamed([]) && ReadAs(Some(([], "")), [])
  {}

  lemma {:induction false} GapAsJson(c: Codec, more: string, items: seq<Json>)
    requires ReadAs(JsonElements(c, more + " ]"), items)
    ensures ReadAs(JsonElements(c, " " + "" + more + " ]"), [] + items)
  {
    hide *;
    assert " " + "" + more + " ]" == " " + (more + " ]") && [] + items == items;
    SpaceBefore(c, more + " ]");
  }

  lemma {:induction false} ItemAsJson(c: Codec, v: Json, t: string, more: string, items: seq<Json>)
    requires Sound(c) && Numeric(c, v) && Encode(c, v) == Some(t) && ReadAs(JsonElements(c, more + " ]"), items)
    ensures ReadAs(JsonElements(c, " " + (t + ",") + more + " ]"), [v] + items)
  {
    hide *;
    var s, rest := " " + (t + ",") + more + " ]", more + " ]";
    assert s == " " + t + ("," + rest) && ("," + rest)[0] == ',';
    CommaEndsNumber();
    ElementBefore(c, s, v, t, "," + rest);
    if Flat(v) {
      ElementThenMore(c, s, v, rest);
      ReadAsNext(JsonElements(c, rest), v, items);
    } else {
      NoElement(c, s, [v] + items);
    }
  }

  lemma {:induction false} LastAsJson(c: Codec, v: Json, t: string, spaces: string)
    requires Sound(c) && Numeric(c, v) && Encode(c, v) == Some(t) && forall ch :: ch in spaces ==> ch == ' '
    ensures ReadAs(JsonElements(c, " " + (t + "") + spaces + " ]"), [v] + [])
  {
    hide *;
    var s, rest := " " + (t + "") + spaces + " ]", spaces + " ]";
    assert s == " " + t + rest;
    GapsThenBracket(spaces);
    SpacesEndNumber(spaces);
    ElementBefore(c, s, v, t, rest);
    ElementLast(c, s, v, rest);
    if Flat(v) {
      NoNames();
      ReadAsNext(Some(([], "")), v, []);
      assert [v] + [] == [v];
    } else {
      NoElement(c, s, [v] + []);
    }
  }

  lemma {:induction false} RowsAsJson(c: Codec, rows: seq<Row>, comma: bool)
    requires Sound(c) && RowsFair(c, rows)
    ensures ReadAs(JsonElements(c, Gathered(c, rows, comma) + " ]"), Items(rows))
    decreases |rows|
  {
    hide *;
    if Items(rows) == [] {
      GapsAreSpaces(c, rows, comma);
      GapsThenBracket(Gathered(c, rows, comma));
      assert "]" + "" == "]";
      NothingReads(c, Gathered(c, rows, comma) + " ]", "");
      ReadAsNone([]);
    } else {
      NoRows(c, comma);
      var row, more := rows[0], Items(rows[1..]);
      var mark := comma || more != [];
      RowsFairNext(c, rows);
      RowsNext(c, rows, comma);
      RowsAsJson(c, rows[1..], comma);
      if row.Gap? {
        GapSays(c, row, mark);
        GapAsJson(c, Gathered(c, rows[1..], comma), more);
      } else {
        FairItem(c, row);
        var t := Encode(c, row.value).value;
        RowIs(c, row, mark, t);
        if mark {
          ItemAsJson(c, row.value, t, Gathered(c, rows[1..], comma), more);
        } else {
          GapsAreSpaces(c, rows[1..], comma);
          LastAsJson(c, row.value, t, Gathered(c, rows[1..], comma));
        }
      }
    }
  }

  lemma {:induction false} NoElement(c: Codec, s: string, items: seq<Json>)
    requires JsonValue(c, s).None?
    ensures ReadAs(JsonElements(c, s), items)
  {
    hide JsonValue;
  }

  lemma CommaEndsNumber()
    ensures !NumberChar(',')
  {}

  lemma {:induction false} SpacesEndNumber(spaces: string)
    requires forall ch :: ch in spaces ==> ch == ' '
    ensures spaces + " ]" != "" && !NumberChar((spaces + " ]")[0])
  {
    if spaces != "" { assert spaces[0] in spaces; }
  }

  lemma {:induction false} GapsThenBracket(spaces: string)
    requires forall ch :: ch in spaces ==> ch == ' '
    ensures SkipSpace(spaces + " ]") == "]"
  {
    assert spaces + " ]" == (spaces + " ") + "]";
    SpacesSkip(spaces + " ", "]");
  }

  lemma {:induction false} RowsFairNext(c: Codec, rows: seq<Row>)
    requires Sound(c) && rows != [] && RowsFair(c, rows)
    ensures RowFair(c, rows[0]) && RowsFair(c, rows[1..])
  {
    hide RowFair, Enumerates;
  }

  lemma {:induction false} FairItem(c: Codec, row: Row)
    requires Sound(c) && RowFair(c, row) && row.Item?
    ensures Numeric(c, row.value) && Encode(c, row.value).Some?
    ensures Pad(row.pad) && Remark(row.remark)
  {
    hide Numeric, Encode, Pad, Remark, Enumerates;
  }

  lemma {:induction false} GapSays(c: Codec, row: Row, comma: bool)
    requires Sound(c) && row.Gap?
    ensures RowSays(c, row, comma) == ""
  {}

  lemma {:induction false} SkipsOneSpace(s: string)
    ensures SkipSpace(" " + s) == SkipSpace(s)
  {
    assert (" " + s)[1..] == s;
  }

  lemma {:induction false} NothingSkipped(c: Codec, v: Json, t: string, rest: string)
    requires Sound(c) && Numeric(c, v) && Encode(c, v) == Some(t)
    ensures SkipSpace(t + rest) == t + rest && t + rest != "" && (t + rest)[0] != ']'
  {
    ValueStarts(c, v, t);
    NotJsonSpace(t[0]);
    hide Encode, Numeric;
    assert (t + rest)[0] == t[0];
  }

  /** A list with a value in it does not begin with its closing bracket. */
  lemma {:induction false} RowsStart(c: Codec, rows: seq<Row>, comma: bool)
    requires Sound(c) && RowsFair(c, rows) && Items(rows) != []
    ensures var s := SkipSpace(Gathered(c, rows, comma) + " ]"); s != "" && s[0] != ']'
    decreases |rows|
  {
    hide *;
    NoRows(c, comma);
    var row, rest := rows[0], Gathered(c, rows[1..], comma) + " ]";
    var mark := comma || Items(rows[1..]) != [];
    RowsFairNext(c, rows);
    RowsNext(c, rows, comma);
    SkipsOneSpace(RowSays(c, row, mark) + rest);
    assert Gathered(c, rows, comma) + " ]" == " " + (RowSays(c, row, mark) + rest);
    if row.Gap? {
      GapSays(c, row, mark);
      assert "" + rest == rest && [] + Items(rows[1..]) == Items(rows[1..]);
      RowsStart(c, rows[1..], comma);
    } else {
      FairItem(c, row);
      var t := Encode(c, row.value).value;
      RowIs(c, row, mark, t);
      var sep := if mark then "," else "";
      NothingSkipped(c, row.value, t, sep + rest);
      assert t + sep + rest == t + (sep + rest);
    }
  }

  lemma {:induction false} ArrayIs(c: Codec, s: string)
    requires SkipSpace(s) != ""
    ensures JsonArray(c, s) == if SkipSpace(s)[0] == ']' then Some(([], SkipSpace(s)[1..])) else JsonElements(c, s)
  {}

  lemma {:induction false} TextIs(c: Codec, s: string)
    requires var r := JsonArray(c, s); r.Some? ==> r.value.1 == ""
    ensures var r := JsonArray(c, s); JsonText(c, "[" + s) == if r.None? then None else Some(JArray(r.value.0))
  {
    ListBegins(c, s);
    hide JsonValue, JsonArray;
    assert SkipSpace("") == "";
  }

  lemma {:induction false} ReadAsMeans(r: Option<(seq<Json>, string)>, items: seq<Json>)
    requires ReadAs(r, items)
    ensures r.Some? ==> r == Some((items, "")) && AllNamed(items)
  {}

  lemma {:induction false} RowsAsText(c: Codec, rows: seq<Row>, comma: bool)
    requires Sound(c) && RowsFair(c, rows)
    ensures var r := JsonText(c, "[" + (Gathered(c, rows, comma) + " ]"));
      r.Some? ==> r == Some(JArray(Items(rows))) && AllNamed(Items(rows))
  {
    hide *;
    var s := Gathered(c, rows, comma) + " ]";
    if Items(rows) == [] {
      GapsAreSpaces(c, rows, comma);
      GapsThenBracket(Gathered(c, rows, comma));
      ArrayIs(c, s);
      assert "]"[1..] == "";
      NoNames();
    } else {
      RowsStart(c, rows, comma);
      ArrayIs(c, s);
      RowsAsJson(c, rows, comma);
      ReadAsMeans(JsonElements(c, s), Items(rows));
    }
    TextIs(c, s);
  }

  // The line that results, split at its commas.

  lemma {:induction false} SpaceStep(piece: string, rest: string)
    ensures SplitFrom(TOP, piece, " " + rest, ',') == SplitFrom(TOP, piece + " ", rest, ',')
  {
    assert (" " + rest)[0] == ' ' && (" " + rest)[1..] == rest && !Cuts(TOP, ' ', ',') && Step(TOP, ' ') == TOP;
  }

  lemma {:induction false} CommaStep(piece: string, rest: string)
    ensures SplitFrom(TOP, piece, "," + rest, ',') == [piece] + SplitFrom(TOP, "", rest, ',')
  {
    assert ("," + rest)[0] == ',' && ("," + rest)[1..] == rest && Cuts(TOP, ',', ',') && Step(TOP, ',') == TOP;
  }

  lemma {:induction false} SpacesAreBlank(piece: string, spaces: string)
    requires Blank(piece) && forall ch :: ch in spaces ==> ch == ' '
    ensures Blank(piece + spaces) && Blank(spaces)
  {
    SpaceIsSpace();
    hide IsSpace;
  }

  lemma {:induction false} BlankPiece(c: Codec, piece: string, rest: seq<string>, n: nat)
    requires Blank(piece) && forall p :: p in [piece] + rest ==> |p| < n
    ensures forall p :: p in rest ==> |p| < n
    ensures ConfigItems(c, [piece] + rest, n) == ConfigItems(c, rest, n)
  {
    forall p | p in rest ensures |p| < n { assert p in [piece] + rest; }
    TrimIsTight(piece);
    hide Trim, ConfigValue, Blank;
    assert ([piece] + rest)[0] == piece && ([piece] + rest)[1..] == rest;
  }

  lemma {:induction false} NoPieces(c: Codec, n: nat)
    ensures ConfigItems(c, [], n) == Some([])
  {}

  lemma {:induction false} PieceBound(piece: string, s: string, n: nat)
    requires |piece| + |s| < n
    ensures forall p :: p in SplitFrom(TOP, piece, s, ',') ==> |p| < n
  {
    hide SplitFrom;
  }

  /** A value behind white space, as a piece of its own. */
  lemma {:induction false} ValuePiece(c: Codec, v: Json, t: string, before: string, after: string)
    requires Sound(c) && Numeric(c, v) && Encode(c, v) == Some(t) && Blank(before) && Blank(after)
    ensures Trim(before + t + after) != ""
    ensures ConfigValue(c, before + t + after) == if KeysNamed(v) then Some(v) else None
  {
    ConfigReads(c, v, t);
    ValueIsSolid(c, v);
    hide *;
    SolidScans(t);
    TrimAround(before, t, after);
    ValueTrimmed(c, v, t);
    OnlyTrimCounts(c, before + t + after, t);
  }

  lemma {:induction false} FirstPiece(c: Codec, v: Json, piece: string, rest: seq<string>, n: nat, items: seq<Json>)
    requires forall p :: p in [piece] + rest ==> |p| < n
    requires Trim(piece) != "" && ConfigValue(c, piece) == if KeysNamed(v) then Some(v) else None
    requires (forall p :: p in rest ==> |p| < n) && ConfigItems(c, rest, n) == if AllNamed(items) then Some(items) else None
    ensures ConfigItems(c, [piece] + rest, n) == if AllNamed([v] + items) then Some([v] + items) else None
  {
    assert ([piece] + rest)[0] == piece && ([piece] + rest)[1..] == rest;
    assert ([v] + items)[0] == v && ([v] + items)[1..] == items;
    hide *;
    OneItem(c, [piece] + rest, n);
    AllNamedNext([v] + items);
  }

  lemma {:induction false} RowsAsItems(c: Codec, rows: seq<Row>, comma: bool, piece: string, n: nat)
    requires Sound(c) && RowsFair(c, rows) && Blank(piece) && |piece| + |Gathered(c, rows, comma) + " "| < n
    ensures var pieces := SplitFrom(TOP, piece, Gathered(c, rows, comma) + " ", ',');
      && (forall p :: p in pieces ==> |p| < n)
      && ConfigItems(c, pieces, n) == if AllNamed(Items(rows)) then Some(Items(rows)) else None
    decreases |rows|
  {
    hide *;
    PieceBound(piece, Gathered(c, rows, comma) + " ", n);
    NoRows(c, comma);
    NoNames();
    if rows == [] {
      SpacesAreBlank(piece, " ");
      NoRowsAsItems(c, piece, n);
    } else {
      var row, more := rows[0], Items(rows[1..]);
      var rest, mark := Gathered(c, rows[1..], comma) + " ", comma || more != [];
      RowsFairNext(c, rows);
      RowsNext(c, rows, comma);
      SpacesAreBlank(piece, " ");
      assert Gathered(c, rows, comma) + " " == " " + (RowSays(c, row, mark) + rest);
      SpaceStep(piece, RowSays(c, row, mark) + rest);
      if row.Gap? {
        GapSays(c, row, mark);
        assert "" + rest == rest && [] + more == more;
        RowsAsItems(c, rows[1..], comma, piece + " ", n);
      } else {
        FairItem(c, row);
        var t := Encode(c, row.value).value;
        RowIs(c, row, mark, t);
        ValueWhole(c, row.value, t);
        if mark {
          assert t + "," + rest == t + ("," + rest);
          EmptyIsBlank();
          RowsAsItems(c, rows[1..], comma, "", n);
          ItemAsPiece(c, row.value, t, piece + " ", rest, n, more);
        } else {
          assert t + "" + rest == t + rest;
          GapsAreSpaces(c, rows[1..], comma);
          LastAsPiece(c, row.value, t, piece + " ", Gathered(c, rows[1..], comma), n);
        }
      }
    }
  }

  lemma EmptyIsBlank()
    ensures Blank("")
  {}

  lemma {:induction false} ValueWhole(c: Codec, v: Json, t: string)
    requires Sound(c) && Numeric(c, v) && Encode(c, v) == Some(t)
    ensures Whole(TOP, t, ',') && Walk(TOP, t) == TOP
  {
    ValueIsSolid(c, v);
    hide *;
    SolidScans(t);
  }

  lemma {:induction false} NoRowsAsItems(c: Codec, piece: string, n: nat)
    requires Blank(piece + " ") && |piece| + 1 < n
    ensures SplitFrom(TOP, piece, "" + " ", ',') == [piece + " "] && ConfigItems(c, [piece + " "], n) == Some([])
  {
    SpaceStep(piece, "");
    EndOfScan(TOP, piece + " ", ',');
    hide *;
    assert "" + " " == " " + "" && [piece + " "] == [piece + " "] + [];
    BlankPiece(c, piece + " ", [], n);
    NoPieces(c, n);
  }

  lemma {:induction false} ItemAsPiece(c: Codec, v: Json, t: string, before: string, rest: string, n: nat, items: seq<Json>)
    requires Sound(c) && Numeric(c, v) && Encode(c, v) == Some(t) && Blank(before)
    requires Whole(TOP, t, ',') && Walk(TOP, t) == TOP
    requires forall p :: p in SplitFrom(TOP, before, t + ("," + rest), ',') ==> |p| < n
    requires forall p :: p in SplitFrom(TOP, "", rest, ',') ==> |p| < n
    requires ConfigItems(c, SplitFrom(TOP, "", rest, ','), n) == if AllNamed(items) then Some(items) else None
    ensures ConfigItems(c, SplitFrom(TOP, before, t + ("," + rest), ','), n)
      == if AllNamed([v] + items) then Some([v] + items) else None
  {
    hide *;
    SplitOver(TOP, before, t, "," + rest, ',');
    CommaStep(before + t, rest);
    EmptyIsBlank();
    ValuePiece(c, v, t, before, "");
    assert before + t + "" == before + t;
    FirstPiece(c, v, before + t, SplitFrom(TOP, "", rest, ','), n, items);
  }

  lemma {:induction false} LastAsPiece(c: Codec, v: Json, t: string, before: string, spaces: string, n: nat)
    requires Sound(c) && Numeric(c, v) && Encode(c, v) == Some(t) && Blank(before)
    requires Whole(TOP, t, ',') && Walk(TOP, t) == TOP && (forall ch :: ch in spaces ==> ch == ' ')
    requires forall p :: p in SplitFrom(TOP, before, t + (spaces + " "), ',') ==> |p| < n
    ensures ConfigItems(c, SplitFrom(TOP, before, t + (spaces + " "), ','), n) == if AllNamed([v] + []) then Some([v] + []) else None
  {
    var after := spaces + " ";
    assert forall ch :: ch in after ==> ch == ' ';
    EmptyIsBlank();
    SpacesAreBlank("", after);
    hide *;
    PadScans(after);
    SplitOver(TOP, before, t, after, ',');
    SplitOver(TOP, before + t, after, "", ',');
    assert after + "" == after;
    EndOfScan(TOP, before + t + after, ',');
    ValuePiece(c, v, t, before, after);
    NoPieces(c, n);
    NoNames();
    assert [before + t + after] + [] == [before + t + after];
    FirstPiece(c, v, before + t + after, [], n, []);
  }

  /** The line that a list over several lines becomes reads as its values. */
  lemma {:induction false} RowsRead(c: Codec, rows: seq<Row>, comma: bool)
    requires Sound(c) && RowsFair(c, rows)
    ensures ConfigValue(c, "[" + Gathered(c, rows, comma) + " ]") == if AllNamed(Items(rows)) then Some(JArray(Items(rows))) else None
  {
    hide *;
    var s := Gathered(c, rows, comma);
    var t := "[" + s + " ]";
    assert t == "[" + (s + " ]");
    RowsAsText(c, rows, comma);
    BracketsAreTight(s + " ");
    assert t == "[" + (s + " ") + "]" && t[1..|t| - 1] == s + " ";
    if JsonText(c, t).Some? {
      JsonTaken(c, t, JArray(Items(rows)));
    } else {
      ListValue(c, t);
      SplitIs(s + " ", ',');
      EmptyIsBlank();
      RowsAsItems(c, rows, comma, "", |t| - 1);
    }
  }

  lemma {:induction false} BracketsAreTight(s: string)
    ensures Trim("[" + s + "]") == "[" + s + "]"
  {
    var t := "[" + s + "]";
    assert t[0] == '[' && t[|t| - 1] == ']';
    TrimOfTight(t);
  }

  // ----- keys and values on one line -----

  lemma {:induction false} KeyStands(c: Codec, key: Key)
    requires Sound(c) && (key.bare ==> Bare(c, key.name))
    ensures var k := KeyText(c, key);
      && k != "" && Walk(TOP, k) == TOP && OneLine(k) && !IsSpace(k[0]) && k[0] != '['
      && Whole(TOP, k, '#') && Whole(TOP, k, '=')
      && ConfigKey(c, k + " ") == if key.name != "" then Some(key.name) else None
  {
    if key.bare {
      BareReads(c, key.name);
      BareIsSolid(key.name);
      SolidScans(key.name);
    } else {
      hide *;
      KeyIsSolid(c, key.name);
      SolidScans(GoQuote(c.printable, key.name));
      KeyReads(c, "", key.name);
      assert "" + GoQuote(c.printable, key.name) + " " == GoQuote(c.printable, key.name) + " ";
      QuotedKey(c, key);
    }
  }

  lemma {:induction false} QuotedKey(c: Codec, key: Key)
    requires !key.bare
    ensures KeyText(c, key) == GoQuote(c.printable, key.name)
  {
    hide GoQuote;
  }

  /** A value or the opening of one: what may follow the equals sign on the line of an entry. */
  ghost predicate Opening(t: string) {
    && t != "" && !IsSpace(t[0]) && !IsSpace(t[|t| - 1]) && OneLine(t) && Whole(TOP, t, '#') && Whole(TOP, t, '=')
  }

  lemma {:induction false} HeadComment(k: string, t: string, remark: string)
    requires k != "" && !IsSpace(k[0]) && Walk(TOP, k) == TOP && Whole(TOP, k, '#')
    requires Opening(t) && Remark(remark) && (remark == "" || Walk(TOP, t) == TOP)
    ensures Comment(k + " = " + t + remark) == k + " = " + t
  {
    OpeningMeans(t);
    hide *;
    var line := k + " = " + t;
    SpacesScan();
    WholeAppend(TOP, k + " = ", t, '#');
    WholeAppend(TOP, k, " = ", '#');
    WalkAppend(TOP, k + " = ", t);
    WalkAppend(TOP, k, " = ");
    EmptyIsBlank();
    assert line[0] == k[0] && line[|line| - 1] == t[|t| - 1] && "" + line + remark == line + remark;
    CommentOff("", line, remark);
  }

  lemma {:induction false} HeadSplits(k: string, t: string)
    requires Walk(TOP, k) == TOP && Whole(TOP, k, '=') && Whole(TOP, t, '=')
    ensures Split(k + " = " + t, '=') == [k + " ", " " + t]
  {
    hide *;
    SpacesScan();
    WholeAppend(TOP, k, " ", '=');
    WalkAppend(TOP, k, " ");
    WholeAppend(TOP, " ", t, '=');
    assert k + " = " + t == (k + " ") + ("=" + (" " + t));
    SplitsAtEquals(k + " ", " " + t);
  }

  lemma {:induction false} HeadLine(c: Codec, key: Key, t: string, remark: string)
    requires Sound(c) && (key.bare ==> Bare(c, key.name)) && Opening(t) && Remark(remark) && (remark == "" || Walk(TOP, t) == TOP)
    ensures var line := KeyText(c, key) + " = " + t;
      && Comment(line + remark) == line && line != "" && !IsHeader(line) && OneLine(line + remark)
      && Split(line, '=') == [KeyText(c, key) + " ", " " + t]
  {
    hide *;
    KeyStands(c, key);
    OpeningMeans(t);
    var k := KeyText(c, key);
    HeadComment(k, t, remark);
    HeadSplits(k, t);
    assert (k + " = " + t)[0] == k[0];
    NoHeader(k + " = " + t);
    RemarkIsOneLine(remark);
    OneLineJoined(k, t, remark);
  }

  lemma {:induction false} OpeningMeans(t: string)
    requires Opening(t)
    ensures t != "" && !IsSpace(t[0]) && !IsSpace(t[|t| - 1]) && OneLine(t) && Whole(TOP, t, '#') && Whole(TOP, t, '=')
  {}

  lemma {:induction false} NoHeader(line: string)
    requires line != "" && line[0] != '['
    ensures !IsHeader(line)
  {}

  lemma {:induction false} OneLineJoined(k: string, t: string, remark: string)
    requires OneLine(k) && OneLine(t) && OneLine(remark)
    ensures OneLine(k + " = " + t + remark)
  {
    var s := k + " = " + t + remark;
    forall i | 0 <= i < |s| ensures s[i] != '\n' && s[i] != '\r' {
      if |k| <= i < |k| + 3 { assert s[i] == " = "[i - |k|]; }
    }
  }

  // ----- literal strings on one line -----

  const APART := Cursor(Single, 0)

  /** Doubled quotes leave the string and enter it again. */
  lemma {:induction false} DoubledScans(s: string, d: char)
    requires OneLine(s) && d != '\''
    ensures Walk(APART, Doubled(s)) == APART && Whole(APART, Doubled(s), d) && OneLine(Doubled(s))
  {
    if s != "" {
      DoubledScans(s[1..], d);
      var first := if s[0] == '\'' then "''" else [s[0]];
      DoubledStep(s[0], d);
      WalkAppend(APART, first, Doubled(s[1..]));
      WholeAppend(APART, first, Doubled(s[1..]), d);
    }
  }

  lemma {:induction false} DoubledStep(ch: char, d: char)
    requires d != '\''
    ensures var first := if ch == '\'' then "''" else [ch];
      Walk(APART, first) == APART && Whole(APART, first, d)
  {
    if ch == '\'' {
      assert "''"[1..] == "'" && "'"[1..] == "" && Step(APART, '\'') == TOP && Step(TOP, '\'') == APART;
      assert Walk(TOP, "'") == APART && Whole(TOP, "'", d);
    } else {
      assert [ch][1..] == "" && Step(APART, ch) == APART;
    }
  }

  lemma {:induction false} DoubledUndone(s: string)
    ensures Unpair(Doubled(s)) == s
  {
    if s != "" {
      DoubledUndone(s[1..]);
      var t := Doubled(s);
      if s[0] == '\'' {
        assert t[2..] == Doubled(s[1..]);
      } else {
        assert t[0] == s[0] && t[1..] == Doubled(s[1..]);
      }
      assert [s[0]] + s[1..] == s;
    }
  }

  lemma {:induction false} LiteralOpens(s: string)
    requires OneLine(s)
    ensures var t := "'" + Doubled(s) + "'"; Opening(t) && Walk(TOP, t) == TOP
  {
    var t := "'" + Doubled(s) + "'";
    assert t[0] == '\'' && t[|t| - 1] == '\'' && "'"[1..] == "" && Step(TOP, '\'') == APART && Step(APART, '\'') == TOP;
    forall d | d == '#' || d == '=' ensures Whole(TOP, t, d) && Walk(TOP, t) == TOP {
      DoubledScans(s, d);
      assert Walk(TOP, "'") == APART && Whole(TOP, "'", d) && Walk(APART, "'") == TOP && Whole(APART, "'", d);
      hide *;
      WalkAppend(TOP, "'" + Doubled(s), "'");
      WalkAppend(TOP, "'", Doubled(s));
      WholeAppend(TOP, "'" + Doubled(s), "'", d);
      WholeAppend(TOP, "'", Doubled(s), d);
    }
    assert Whole(TOP, t, '#');
    assert OneLine(t) by {
      DoubledScans(s, '#');
      hide Doubled, Whole, Walk;
      assert forall i :: 0 <= i < |t| ==> t[i] == '\'' || t[i] == Doubled(s)[i - 1];
    }
  }

  lemma {:induction false} LiteralReads(c: Codec, s: string)
    requires OneLine(s) && !("'" <= s)
    ensures var t := "'" + Doubled(s) + "'";
      !OpensMultiline(t) && !OpenList(t) && ConfigValue(c, t) == Some(JString(s))
  {
    var t := "'" + Doubled(s) + "'";
    LiteralOpens(s);
    DoubledUndone(s);
    TrimOfTight(t);
    assert t[0] == '\'' && t[|t| - 1] == '\'' && t[1..|t| - 1] == Doubled(s);
    assert !OpensMultiline(t) by {
      if s != "" { assert t[1] == Doubled(s)[0] == s[0]; }
    }
    hide Trim, Split, JsonText, Unquote, ConfigItems, ConfigFields, Unpair, IsSpace, Level, Whole, Doubled;
  }

  // ----- one statement -----

  /** What stands on the line of the key. */
  function Start(c: Codec, form: Form): string
    requires Sound(c)
  {
    match form
    case Printed(value) => if Encode(c, value).Some? then Encode(c, value).value else ""
    case Unquoted(t, _) => t
    case InBraces(pairs, colon) => Braces(c, pairs, colon)
    case Literal(s) => "'" + Doubled(s) + "'"
    case LiteralLines(_) => APOSTROPHES
    case QuotedLines(_) => QUOTES
    case ListLines(_, _, _) => "["
  }

  predicate OnOneLine(form: Form) { form.Printed? || form.Unquoted? || form.InBraces? || form.Literal? }

  /** The lines of an entry after the first. */
  function More(c: Codec, form: Form, remark: string): seq<string>
    requires Sound(c)
  {
    match form
    case LiteralLines(s) => Lines(s + APOSTROPHES + remark)
    case QuotedLines(pieces) => Lines(Raw(pieces) + QUOTES + remark)
    case ListLines(rows, comma, pad) => RowTexts(c, rows, comma) + [pad + "]"]
    case _ => []
  }

  function LinesOf(c: Codec, statement: Statement): seq<string>
    requires Sound(c)
  {
    match statement
    case Note(remark) => [remark]
    case Entry(key, form, remark) =>
      [KeyText(c, key) + " = " + Start(c, form) + (if OnOneLine(form) then remark else "")] + More(c, form, remark)
  }

  lemma {:induction false} QuoteMarksOpen()
    ensures Opening(APOSTROPHES) && Opening(QUOTES) && Opening("[")
  {
    QuoteMarksScan('\'', '#');
    QuoteMarksScan('\'', '=');
    QuoteMarksScan('"', '#');
    QuoteMarksScan('"', '=');
    assert "["[1..] == "";
  }

  lemma {:induction false} QuoteMarksScan(quote: char, d: char)
    requires (quote == '"' || quote == '\'') && (d == '#' || d == '=')
    ensures Whole(TOP, [quote, quote, quote], d)
  {
    var t := [quote, quote, quote];
    assert t[1..] == [quote, quote] && t[1..][1..] == [quote] && [quote][1..] == "";
    var inside := Step(TOP, quote);
    assert Step(inside, quote) == TOP;
    assert Whole(inside, [], d) && Whole(TOP, [quote], d) && Whole(inside, [quote, quote], d);
  }

  lemma {:induction false} PrintedOpens(c: Codec, v: Json, t: string)
    requires Sound(c) && Numeric(c, v) && Encode(c, v) == Some(t)
    ensures Opening(t) && Walk(TOP, t) == TOP
  {
    ValueIsSolid(c, v);
    hide Encode, Numeric, Solid, Level;
    SolidScans(t);
  }

  lemma {:induction false} LooseIsOrdinary(ch: char)
    requires LooseChar(ch)
    ensures Ordinary(ch) && !IsSpace(ch) && ch != '#' && ch != '=' && ch != '[' && ch != '{' && ch != '"' && ch != '\'' && ch != '\n' && ch != '\r'
  {}

  lemma {:induction false} LooseOpens(t: string)
    requires t != "" && forall i :: 0 <= i < |t| ==> LooseChar(t[i])
    ensures Opening(t) && Walk(TOP, t) == TOP
  {
    hide LooseChar, Ordinary, IsSpace, Whole;
    forall i | 0 <= i < |t| ensures Ordinary(t[i]) && t[i] != '#' && t[i] != '=' && t[i] != '\n' && t[i] != '\r' { LooseIsOrdinary(t[i]); }
    LooseIsOrdinary(t[0]);
    LooseIsOrdinary(t[|t| - 1]);
    OrdinaryIsLevel(t);
  }

  lemma {:induction false} BracesOpen(c: Codec, pairs: seq<Pair>, colon: bool)
    requires Sound(c) && PairsFair(c, pairs)
    ensures Opening(Braces(c, pairs, colon)) && Walk(TOP, Braces(c, pairs, colon)) == TOP
  {
    BracesAreSolid(c, pairs, colon);
    hide Braces, Solid, Level, PairsFair, Enumerates;
    SolidScans(Braces(c, pairs, colon));
  }

  lemma {:induction false} StartOpens(c: Codec, form: Form, remark: string)
    requires Sound(c) && Fair(c, Entry(Key("", false), form, remark))
    ensures Opening(Start(c, form)) && (OnOneLine(form) ==> Walk(TOP, Start(c, form)) == TOP) && Remark(remark)
  {
    hide Opening, Encode, Numeric, Remark, Closes, Readable, OneLine, Pad, Walk, RowsFair, Enumerates, Doubled;
    match form
    case Printed(value) => PrintedOpens(c, value, Encode(c, value).value);
    case Unquoted(t, _) => LooseOpens(t);
    case InBraces(pairs, colon) => BracesOpen(c, pairs, colon);
    case Literal(s) => LiteralOpens(s);
    case _ => QuoteMarksOpen();
  }

  lemma {:induction false} ValueTakes(c: Codec, t: string, lines: seq<string>)
    requires Opening(t)
    ensures Trim(JoinWith([" " + t], "=")) == t
  {
    OpeningMeans(t);
    TrimOfTight(t);
  }

  lemma {:induction false} ValueOfText(c: Codec, raw: string, lines: seq<string>)
    ensures Value(c, raw, lines) ==
      if OpensMultiline(raw) then
        var text := Multiline(raw, lines);
        if text.None? then None else Some((JString(text.value.0), text.value.1))
      else
        var whole := Continue(raw, lines);
        if whole.None? then None
        else
          var value := ConfigValue(c, whole.value.0);
          if value.None? then None else Some((value.value, whole.value.1))
  {
    hide Multiline, Continue, ConfigValue, OpensMultiline;
  }

  lemma StringsAreNamed(s: string)
    ensures KeysNamed(JString(s))
  {}

  lemma {:induction false} ListsAreNamed(items: seq<Json>)
    ensures KeysNamed(JArray(items)) <==> AllNamed(items)
  {}

  lemma BracketIsOpen()
    ensures OpenList("[") && !OpensMultiline("[")
  {}

  ghost predicate Reads(c: Codec, form: Form, remark: string, after: seq<string>)
    requires Sound(c)
  {
    Value(c, Start(c, form), More(c, form, remark) + after)
      == if KeysNamed(Meaning(form)) then Some((Meaning(form), after)) else None
  }

  lemma {:induction false} PrintedFormReads(c: Codec, value: Json, remark: string, after: seq<string>)
    requires Sound(c) && Numeric(c, value) && Encode(c, value).Some?
    ensures Reads(c, Printed(value), remark, after)
  {
    hide Numeric, Encode, Value, KeysNamed, Trim, JoinWith, Opening;
    var t := Encode(c, value).value;
    PrintedOpens(c, value, t);
    ValueTakes(c, t, after);
    PrintedValueReads(c, value, t, after);
    assert [] + after == after;
  }

  lemma {:induction false} PlainStart(t: string)
    requires t != "" && t[0] != '[' && t[0] != '"' && t[0] != '\''
    ensures !OpensMultiline(t) && !OpenList(t)
  {}

  lemma {:induction false} UnquotedFormReads(c: Codec, t: string, value: Json, remark: string, after: seq<string>)
    requires Sound(c) && t != "" && (forall i :: 0 <= i < |t| ==> LooseChar(t[i])) && MeansBare(c, t, Some(value))
    ensures Reads(c, Unquoted(t, value), remark, after)
  {
    LooseIsOrdinary(t[0]);
    LooseIsOrdinary(t[|t| - 1]);
    PlainStart(t);
    UnquotedReads(c, t);
    BareMeansOne(c, t, value, ConfigValue(c, t));
    hide Value, ConfigValue, OpensMultiline, OpenList, Multiline, MeansBare, LooseChar, IsSpace;
    ValueOfText(c, t, after);
    assert [] + after == after && Continue(t, after) == Some((t, after));
  }

  lemma {:induction false} BareMeansOne(c: Codec, t: string, value: Json, read: Option<Json>)
    requires MeansBare(c, t, Some(value)) && MeansBare(c, t, read)
    ensures read == Some(value) && KeysNamed(value)
  {}

  lemma {:induction false} BracesFormRead(c: Codec, pairs: seq<Pair>, colon: bool, remark: string, after: seq<string>)
    requires Sound(c) && pairs != [] && PairsFair(c, pairs) && NamesApart(pairs)
    ensures Reads(c, InBraces(pairs, colon), remark, after)
  {
    BracesAreSolid(c, pairs, colon);
    BracesRead(c, pairs, colon);
    MappedIsNamed(c, pairs);
    var t := Braces(c, pairs, colon);
    PlainStart(t);
    hide Value, ConfigValue, OpensMultiline, OpenList, Multiline, Braces, Solid, PairsFair, NamesApart, KeysNamed, ValuesNamed, Mapped, Enumerates;
    ValueOfText(c, t, after);
    assert [] + after == after && Continue(t, after) == Some((t, after));
  }

  lemma {:induction false} LiteralFormReads(c: Codec, s: string, remark: string, after: seq<string>)
    requires Sound(c) && OneLine(s) && !("'" <= s)
    ensures Reads(c, Literal(s), remark, after)
  {
    hide Value, Doubled, OneLine, ConfigValue, OpensMultiline, OpenList, Multiline;
    var t := "'" + Doubled(s) + "'";
    LiteralReads(c, s);
    ValueOfText(c, t, after);
    StringsAreNamed(s);
    assert [] + after == after;
  }

  lemma {:induction false} LiteralLinesRead(c: Codec, s: string, remark: string, after: seq<string>)
    requires Sound(c) && Closes(s, APOSTROPHES) && Remark(remark)
    ensures Reads(c, LiteralLines(s), remark, after)
  {
    hide Value, Closes, Remark, OpensMultiline, Multiline, Lines;
    MultilineReads(APOSTROPHES, s, remark, after);
    ValueOfText(c, APOSTROPHES, Lines(s + APOSTROPHES + remark) + after);
    StringsAreNamed(s);
  }

  lemma {:induction false} QuotedLinesRead(c: Codec, pieces: seq<Piece>, remark: string, after: seq<string>)
    requires Sound(c) && Readable(pieces) && Closes(Raw(pieces), QUOTES) && Remark(remark)
    ensures Reads(c, QuotedLines(pieces), remark, after)
  {
    hide Value, Closes, Remark, OpensMultiline, Multiline, Lines, Readable, Raw, Said, DecodeMultiline;
    PiecesDecode(pieces);
    MultilineReads(QUOTES, Raw(pieces), remark, after);
    ValueOfText(c, QUOTES, Lines(Raw(pieces) + QUOTES + remark) + after);
    StringsAreNamed(Said(pieces));
  }

  lemma {:induction false} ListLinesRead(c: Codec, rows: seq<Row>, comma: bool, pad: string, remark: string, after: seq<string>)
    requires Sound(c) && Pad(pad) && RowsFair(c, rows) && LastStaysOpen(rows, comma)
    ensures Reads(c, ListLines(rows, comma, pad), remark, after)
  {
    BracketIsOpen();
    hide Value, Pad, RowsFair, LastStaysOpen, OpensMultiline, OpenList, RowTexts, Gathered, ConfigValue, Items, KeysNamed, AllNamed;
    Regroup(RowTexts(c, rows, comma), [pad + "]"], after);
    RowsContinue(c, rows, comma, pad, "[", after);
    ValueOfText(c, "[", RowTexts(c, rows, comma) + [pad + "]"] + after);
    RowsRead(c, rows, comma);
    ListsAreNamed(Items(rows));
  }

  /** An entry's value is what its form means, and the lines after it are left. */
  lemma {:induction false} FormReads(c: Codec, form: Form, remark: string, after: seq<string>)
    requires Sound(c) && Fair(c, Entry(Key("", false), form, remark))
    ensures Reads(c, form, remark, after)
  {
    hide Reads, Numeric, Encode, Closes, Readable, OneLine, Pad, RowsFair, LastStaysOpen, Remark, Raw, Enumerates;
    match form
    case Printed(value) => PrintedFormReads(c, value, remark, after);
    case Unquoted(t, value) => UnquotedFormReads(c, t, value, remark, after);
    case InBraces(pairs, colon) => BracesFormRead(c, pairs, colon, remark, after);
    case Literal(s) => LiteralFormReads(c, s, remark, after);
    case LiteralLines(s) => LiteralLinesRead(c, s, remark, after);
    case QuotedLines(pieces) => QuotedLinesRead(c, pieces, remark, after);
    case ListLines(rows, comma, pad) => ListLinesRead(c, rows, comma, pad, remark, after);
  }

  lemma {:induction false} ParsesAfterRemark(c: Codec, root: Table, at: seq<string>, raw: string, lines: seq<string>)
    ensures var line := Comment(raw);
      ParseFrom(c, root, at, [raw] + lines) ==
        if line == "" then ParseFrom(c, root, at, lines)
        else if IsHeader(line) then
          var header := OpenHeader(c, root, line);
          if header.None? then None else ParseFrom(c, header.value.0, header.value.1, lines)
        else
          var entered := Enter(c, root, at, line, lines);
          if entered.None? then None else ParseFrom(c, entered.value.0, at, entered.value.1)
  {
    hide Comment, Enter, IsHeader, OpenHeader;
    assert ([raw] + lines)[0] == raw && ([raw] + lines)[1..] == lines;
  }

  lemma {:induction false} EntersForm(c: Codec, key: Key, form: Form, remark: string, root: Table, at: seq<string>, after: seq<string>)
    requires Sound(c) && Fair(c, Entry(key, form, remark)) && TableAt(root, at).Some?
    ensures var table, line := TableAt(root, at).value, KeyText(c, key) + " = " + Start(c, form);
      Enter(c, root, at, line, More(c, form, remark) + after) ==
        if key.name == "" || key.name in table || !KeysNamed(Meaning(form)) then None
        else Some((Put(root, at, table[key.name := Meaning(form)]), after))
  {
    FairKey(c, key, form, remark);
    hide *;
    var line, lines := KeyText(c, key) + " = " + Start(c, form), More(c, form, remark) + after;
    StartOpens(c, form, remark);
    EmptyRemark();
    HeadLine(c, key, Start(c, form), "");
    KeyStands(c, key);
    ValueTakes(c, Start(c, form), lines);
    FormReads(c, form, remark, after);
    ReadsMeans(c, form, remark, after);
    EntersAs(c, root, at, line, lines);
  }

  lemma EmptyRemark()
    ensures Remark("")
  {}

  lemma {:induction false} ReadsMeans(c: Codec, form: Form, remark: string, after: seq<string>)
    requires Sound(c) && Reads(c, form, remark, after)
    ensures Value(c, Start(c, form), More(c, form, remark) + after)
      == if KeysNamed(Meaning(form)) then Some((Meaning(form), after)) else None
  {}

  lemma {:induction false} FairKey(c: Codec, key: Key, form: Form, remark: string)
    requires Sound(c) && Fair(c, Entry(key, form, remark))
    ensures (key.bare ==> Bare(c, key.name)) && Fair(c, Entry(Key("", false), form, remark))
  {
    hide Numeric, Encode, Closes, Readable, OneLine, Pad, RowsFair, LastStaysOpen, Remark, Raw, Enumerates, Bare;
  }

  lemma {:induction false} EnteredIs(statement: Statement, table: Table)
    ensures Entered(statement, table) ==
      if statement.Note? then Some(table)
      else
        var name, value := statement.key.name, Meaning(statement.form);
        if name == "" || name in table || !KeysNamed(value) then None else Some(table[name := value])
  {
    hide KeysNamed, Meaning;
  }

  /** Wherever a statement stands, the parser reads it as what it says and goes on behind it. */
  lemma {:induction false} StatementReads(c: Codec, statement: Statement, root: Table, at: seq<string>, after: seq<string>)
    requires Sound(c) && Fair(c, statement) && TableAt(root, at).Some?
    ensures var entered := Entered(statement, TableAt(root, at).value);
      ParseFrom(c, root, at, LinesOf(c, statement) + after)
        == if entered.None? then None else ParseFrom(c, Put(root, at, entered.value), at, after)
  {
    var table := TableAt(root, at).value;
    EnteredIs(statement, table);
    match statement
    case Note(remark) =>
      assert Remark(remark);
      hide *;
      assert LinesOf(c, statement) + after == [remark] + after by { NoteLines(c, remark); }
      RemarkIsNothing(remark);
      ParsesAfterRemark(c, root, at, remark, after);
      PutSame(root, at);
    case Entry(key, form, remark) =>
      FairKey(c, key, form, remark);
      hide *;
      StartOpens(c, form, remark);
      EmptyRemark();
      var shown := if OnOneLine(form) then remark else "";
      var line := KeyText(c, key) + " = " + Start(c, form);
      HeadLine(c, key, Start(c, form), shown);
      EntryLines(c, key, form, remark);
      Regroup([line + shown], More(c, form, remark), after);
      ParsesAfterRemark(c, root, at, line + shown, More(c, form, remark) + after);
      EntersForm(c, key, form, remark, root, at, after);
  }

  lemma {:induction false} NoteLines(c: Codec, remark: string)
    requires Sound(c)
    ensures LinesOf(c, Note(remark)) == [remark]
  {}

  lemma {:induction false} EntryLines(c: Codec, key: Key, form: Form, remark: string)
    requires Sound(c)
    ensures LinesOf(c, Entry(key, form, remark))
      == [KeyText(c, key) + " = " + Start(c, form) + (if OnOneLine(form) then remark else "")] + More(c, form, remark)
  {
    hide KeyText, Start, More;
  }

  // ----- whole documents -----

  lemma {:induction false} UnlinesThen(lines: seq<string>, rest: string)
    requires AllOneLine(lines)
    ensures Lines(Unlines(lines) + rest) == lines + Lines(rest)
  {
    if lines == [] {
      assert Unlines(lines) + rest == rest;
    } else {
      var first, more := lines[0], lines[1..];
      assert lines == [first] + more && Unlines(lines) == first + "\n" + Unlines(more);
      assert OneLine(first) && AllOneLine(more) by {
        assert forall i :: 0 <= i < |more| ==> more[i] == lines[i + 1];
      }
      hide *;
      UnlinesThen(more, rest);
      LinesOver(first, Unlines(more) + rest);
      assert first + "\n" + Unlines(more) + rest == first + "\n" + (Unlines(more) + rest);
      Regroup([first], more, Lines(rest));
    }
  }

  ghost predicate AllOneLine(lines: seq<string>) { forall i :: 0 <= i < |lines| ==> OneLine(lines[i]) }

  lemma {:induction false} AllOneLineNext(line: string, lines: seq<string>)
    requires OneLine(line) && AllOneLine(lines)
    ensures AllOneLine([line] + lines)
  {
    hide OneLine;
  }

  lemma {:induction false} RowsOneLine(c: Codec, rows: seq<Row>, comma: bool)
    requires Sound(c) && RowsFair(c, rows)
    ensures AllOneLine(RowTexts(c, rows, comma))
    decreases |rows|
  {
    if rows == [] {
      NoRows(c, comma);
    } else {
      hide *;
      RowsFairNext(c, rows);
      RowsNext(c, rows, comma);
      RowReads(c, rows[0], comma || Items(rows[1..]) != []);
      RowsOneLine(c, rows[1..], comma);
      AllOneLineNext(RowText(c, rows[0], comma || Items(rows[1..]) != []), RowTexts(c, rows[1..], comma));
    }
  }

  /** The text of an entry after its first line. */
  function Tail(c: Codec, form: Form, remark: string): string
    requires Sound(c)
  {
    match form
    case LiteralLines(s) => s + APOSTROPHES + remark + "\n"
    case QuotedLines(pieces) => Raw(pieces) + QUOTES + remark + "\n"
    case ListLines(rows, comma, pad) => Unlines(RowTexts(c, rows, comma)) + (pad + "]") + "\n"
    case _ => ""
  }

  /** What stands behind the equals sign, up to the line end and behind it. */
  lemma {:induction false} FormIs(c: Codec, form: Form)
    requires Sound(c)
    ensures match form
      case LiteralLines(s) => FormText(c, form) == Start(c, form) + "\n" + s + APOSTROPHES
      case QuotedLines(pieces) => FormText(c, form) == Start(c, form) + "\n" + Raw(pieces) + QUOTES
      case ListLines(rows, comma, pad) => FormText(c, form) == Start(c, form) + "\n" + Unlines(RowTexts(c, rows, comma)) + (pad + "]")
      case _ => FormText(c, form) == Start(c, form)
  {
    hide Encode, Raw, Enumerates, Doubled, RowTexts, Unlines;
    match form
    case ListLines(rows, comma, pad) => Regroup("[\n" + Unlines(RowTexts(c, rows, comma)), pad, "]");
    case _ =>
  }

  lemma {:induction false} TextIsEntry(c: Codec, key: Key, form: Form, remark: string)
    requires Sound(c) && (form.ListLines? ==> remark == "")
    ensures Written(c, Entry(key, form, remark))
      == KeyText(c, key) + " = " + Start(c, form) + (if OnOneLine(form) then remark else "") + "\n" + Tail(c, form, remark)
  {
    FormIs(c, form);
    hide Encode, Raw, Enumerates, KeyText, Doubled, RowTexts, Unlines, FormText, Start;
    var k := KeyText(c, key);
    match form
    case LiteralLines(s) => Opened(k, Start(c, form), s, APOSTROPHES, remark);
    case QuotedLines(pieces) => Opened(k, Start(c, form), Raw(pieces), QUOTES, remark);
    case ListLines(rows, comma, pad) =>
      Opened(k, Start(c, form), Unlines(RowTexts(c, rows, comma)), pad + "]", "");
      NothingAdded(Unlines(RowTexts(c, rows, comma)) + (pad + "]"));
    case _ => NothingAdded(k + " = " + Start(c, form) + remark + "\n");
  }

  lemma {:induction false} Opened(k: string, mark: string, s: string, close: string, remark: string)
    ensures k + " = " + (mark + "\n" + s + close) + remark + "\n" == k + " = " + mark + "" + "\n" + (s + close + remark + "\n")
  {}

  lemma {:induction false} TailLines(c: Codec, form: Form, remark: string, rest: string)
    requires Sound(c) && Fair(c, Entry(Key("", false), form, remark))
    ensures Lines(Tail(c, form, remark) + rest) == More(c, form, remark) + Lines(rest)
  {
    hide Numeric, Encode, Closes, Readable, OneLine, RowsFair, LastStaysOpen, Remark, Raw, Enumerates, RowTexts, Unlines, Lines, KeyText, Pad;
    match form
    case LiteralLines(s) => TextLines(s + APOSTROPHES + remark, rest);
    case QuotedLines(pieces) => TextLines(Raw(pieces) + QUOTES + remark, rest);
    case ListLines(rows, comma, pad) => RowLines(c, rows, comma, pad, rest);
    case _ =>
      assert "" + rest == rest && [] + Lines(rest) == Lines(rest);
  }

  lemma {:induction false} TextLines(s: string, rest: string)
    ensures Lines(s + "\n" + rest) == Lines(s) + Lines(rest)
  {
    LinesAppend(s, rest);
  }

  lemma {:induction false} FourJoined(a: string, b: string, d: string, e: string)
    ensures a + b + d + e == a + (b + d + e)
  {}

  lemma {:induction false} RowLines(c: Codec, rows: seq<Row>, comma: bool, pad: string, rest: string)
    requires Sound(c) && RowsFair(c, rows) && Pad(pad)
    ensures Lines(Unlines(RowTexts(c, rows, comma)) + (pad + "]") + "\n" + rest) == RowTexts(c, rows, comma) + [pad + "]"] + Lines(rest)
  {
    RowsOneLine(c, rows, comma);
    var texts, more := RowTexts(c, rows, comma), pad + "]" + "\n" + rest;
    UnlinesThen(texts, more);
    BracketReads(pad);
    hide *;
    LinesOver(pad + "]", rest);
    FourJoined(Unlines(texts), pad + "]", "\n", rest);
    Regroup(texts, [pad + "]"], Lines(rest));
  }

  lemma {:induction false} HeadOneLine(c: Codec, key: Key, form: Form, remark: string)
    requires Sound(c) && Fair(c, Entry(key, form, remark))
    ensures OneLine(KeyText(c, key) + " = " + Start(c, form) + (if OnOneLine(form) then remark else ""))
  {
    FairKey(c, key, form, remark);
    hide *;
    StartOpens(c, form, remark);
    EmptyRemark();
    HeadLine(c, key, Start(c, form), if OnOneLine(form) then remark else "");
  }

  lemma {:induction false} FairEnds(c: Codec, key: Key, form: Form, remark: string)
    requires Sound(c) && Fair(c, Entry(key, form, remark))
    ensures form.ListLines? ==> remark == ""
  {
    hide Numeric, Encode, Closes, Readable, OneLine, Pad, RowsFair, LastStaysOpen, Remark, Raw, Enumerates, Bare;
  }

  /** The text of a statement is its lines. */
  lemma {:induction false} StatementLines(c: Codec, statement: Statement, rest: string)
    requires Sound(c) && Fair(c, statement)
    ensures Lines(Written(c, statement) + rest) == LinesOf(c, statement) + Lines(rest)
  {
    match statement
    case Note(remark) =>
      assert Remark(remark);
      hide Lines, OneLine, Remark;
      RemarkIsOneLine(remark);
      LinesOver(remark, rest);
    case Entry(key, form, remark) =>
      FairKey(c, key, form, remark);
      FairEnds(c, key, form, remark);
      hide *;
      TextIsEntry(c, key, form, remark);
      HeadOneLine(c, key, form, remark);
      EntryLines(c, key, form, remark);
      TailLines(c, form, remark, rest);
      var head := KeyText(c, key) + " = " + Start(c, form) + (if OnOneLine(form) then remark else "");
      LinesOver(head, Tail(c, form, remark) + rest);
      Regroup(head + "\n", Tail(c, form, remark), rest);
      Regroup([head], More(c, form, remark), Lines(rest));
  }

  ghost predicate AllFair(c: Codec, statements: seq<Statement>)
    requires Sound(c)
  {
    forall i :: 0 <= i < |statements| ==> Fair(c, statements[i])
  }

  lemma {:induction false} DocumentNext(c: Codec, statements: seq<Statement>, table: Table)
    requires Sound(c) && statements != [] && AllFair(c, statements)
    ensures Fair(c, statements[0]) && AllFair(c, statements[1..])
    ensures Document(c, statements) == Written(c, statements[0]) + Document(c, statements[1..])
    ensures var entered := Entered(statements[0], table);
      Entries(statements, table) == if entered.None? then None else Entries(statements[1..], entered.value)
  {
    hide Fair, Written, Entered, Enumerates;
  }

  lemma {:induction false} NoStatements(c: Codec, table: Table, after: string)
    requires Sound(c)
    ensures Document(c, []) + after == after && Entries([], table) == Some(table)
  {}

  lemma {:induction false} StatementsRead(c: Codec, statements: seq<Statement>, root: Table, at: seq<string>, after: string)
    requires Sound(c) && AllFair(c, statements) && TableAt(root, at).Some?
    ensures var entries := Entries(statements, TableAt(root, at).value);
      ParseFrom(c, root, at, Lines(Document(c, statements) + after))
        == if entries.None? then None else ParseFrom(c, Put(root, at, entries.value), at, Lines(after))
    decreases |statements|
  {
    var table := TableAt(root, at).value;
    if statements == [] {
      NoStatements(c, table, after);
      hide *;
      PutSame(root, at);
    } else {
      hide *;
      DocumentNext(c, statements, table);
      var first, rest := statements[0], Document(c, statements[1..]) + after;
      StatementLines(c, first, rest);
      Regroup(Written(c, first), Document(c, statements[1..]), after);
      StatementReads(c, first, root, at, Lines(rest));
      var entered := Entered(first, table);
      if entered.Some? {
        PutThenAt(root, at, entered.value);
        StatementsRead(c, statements[1..], Put(root, at, entered.value), at, after);
        var entries := Entries(statements[1..], entered.value);
        if entries.Some? { PutTwice(root, at, entered.value, entries.value); }
      }
    }
  }

  /** A document written by hand reads as what its statements say, whatever its line ends; one with an empty
      name, or with a name twice, is refused. */
  lemma {:induction false} DocumentReads(c: Codec, text: string, statements: seq<Statement>)
    requires Sound(c) && AllFair(c, statements) && Unify(text) == Document(c, statements)
    ensures ParseToml(c, text) == Entries(statements, map[])
  {
    StatementsRead(c, statements, map[], [], "");
    hide Lines, Unify, Document, Entries, AllFair, Enumerates;
    assert Document(c, statements) + "" == Document(c, statements);
    var entries := Entries(statements, map[]);
    if entries.Some? {
      EmptyDocument();
      EmptyRemark();
      RemarkIsNothing("");
      assert [""] + [] == [""];
      ParsesAfterRemark(c, entries.value, [], "", []);
      ParsesNothing(c, entries.value, []);
    }
  }

  lemma EmptyDocument()
    ensures Lines("") == [""]
  {}

  // ----- line ends -----

  function Crlf(s: string): string { if s == "" then "" else (if s[0] == '\n' then "\r\n" else [s[0]]) + Crlf(s[1..]) }

  /** With two-character line ends a document reads as with the short ones. */
  lemma {:induction false} LineEndsDoNotMatter(c: Codec, text: string)
    requires '\r' !in text
    ensures ParseToml(c, Crlf(text)) == ParseToml(c, text)
  {
    UnifyKeeps(text);
    CrlfUnified(text);
    hide Unify, Lines, ParseFrom;
  }

  lemma {:induction false} CrlfUnified(s: string)
    requires '\r' !in s
    ensures Unify(Crlf(s)) == s
  {
    if s != "" {
      CrlfUnified(s[1..]);
      var t := Crlf(s);
      if s[0] == '\n' {
        assert t[..2] == "\r\n" && t[2..] == Crlf(s[1..]);
      } else {
        assert t[0] == s[0] && t[0] != '\r' && t[1..] == Crlf(s[1..]);
      }
      assert [s[0]] + s[1..] == s;
    }
  }

  // ----- exactly which texts can be written on lines -----

  lemma {:induction false} GatherTakesPrefix(raw: string, delimiter: string, lines: seq<string>) returns (more: string)
    requires Gather(raw, delimiter, lines).Some?
    ensures Rejoined(raw, lines) == Gather(raw, delimiter, lines).value.0 + more
    ensures IndexOf(Gather(raw, delimiter, lines).value.0, delimiter).Some?
    decreases |lines|
  {
    hide IndexOf;
    if IndexOf(raw, delimiter).Some? {
      more := RejoinedExtends(raw, lines);
    } else {
      more := GatherTakesPrefix(raw + "\n" + lines[0], delimiter, lines[1..]);
    }
  }

  /** A string that does not close where it should is read as less. */
  lemma {:induction false} ClosesEarly(delimiter: string, s: string, more: string)
    requires delimiter != "" && !Closes(s, delimiter)
    ensures IndexOf(s + delimiter + more, delimiter).Some? && IndexOf(s + delimiter + more, delimiter).value < |s|
  {
    var i :| 0 <= i < |s| && Found(s + delimiter, delimiter, i);
    FoundInLonger(s + delimiter, more, delimiter, i);
    IndexIsFirst(s + delimiter + more, delimiter);
  }

  predicate Plainly(delimiter: string, s: string) {
    delimiter == APOSTROPHES || (delimiter == QUOTES && '\\' !in s)
  }

  lemma {:induction false} SaidPlainly(delimiter: string, s: string)
    requires Plainly(delimiter, s)
    ensures (if delimiter == QUOTES then DecodeMultiline(s) else Some(s)) == Some(s)
  {
    if '\\' !in s {
      VerbatimDecodes(s, "");
      NothingDecodes();
      assert s + "" == s;
    }
  }

  lemma {:induction false} MultilineStops(delimiter: string, lines: seq<string>)
    requires (delimiter == QUOTES || delimiter == APOSTROPHES) && lines != [] && Multiline(delimiter, lines).Some?
    ensures Gather(lines[0], delimiter, lines[1..]).Some?
    ensures var whole := Gather(lines[0], delimiter, lines[1..]).value.0;
      var end := IndexOf(whole, delimiter);
      && end.Some?
      && Some(Multiline(delimiter, lines).value.0) == if delimiter == QUOTES then DecodeMultiline(whole[..end.value]) else Some(whole[..end.value])
  {
    hide IndexOf, Gather, Comment, DecodeMultiline, Trim;
    assert delimiter[..3] == delimiter && delimiter[3..] == "";
  }

  lemma {:induction false} SamePrefix(a: string, more: string, b: string, rest: string, n: nat)
    requires a + more == b + rest && n <= |a| && n <= |b|
    ensures a[..n] == b[..n]
  {
    assert (a + more)[..n] == a[..n] && (b + rest)[..n] == b[..n];
  }

  lemma {:induction false} ReadsLess(delimiter: string, s: string, more: string)
    requires Plainly(delimiter, s) && !Closes(s, delimiter)
    ensures var read := Multiline(delimiter, Lines(s + delimiter + more)); read.Some? ==> read.value.0 != s
  {
    assert delimiter == QUOTES || delimiter == APOSTROPHES;
    hide *;
    var lines := Lines(s + delimiter + more);
    if Multiline(delimiter, lines).Some? {
      MultilineStops(delimiter, lines);
      LinesRejoin(s + delimiter + more);
      var rest := GatherTakesPrefix(lines[0], delimiter, lines[1..]);
      var whole := Gather(lines[0], delimiter, lines[1..]).value.0;
      IndexInLonger(whole, rest, delimiter);
      ClosesEarly(delimiter, s, more);
      var end := IndexOf(whole, delimiter).value;
      Regroup(s, delimiter, more);
      SamePrefix(whole, rest, s, delimiter + more, end);
      PlainlyUpTo(delimiter, s, end);
      SaidPlainly(delimiter, s[..end]);
    }
  }

  lemma {:induction false} PlainlyUpTo(delimiter: string, s: string, end: nat)
    requires Plainly(delimiter, s) && end <= |s|
    ensures Plainly(delimiter, s[..end])
  {
    assert forall ch :: ch in s[..end] ==> ch in s;
  }

  /** What a document has said stays said. */
  ghost predicate Holds(root: Table, name: string, value: Json) { name in root && root[name] == value }

  lemma {:induction false} PutHolds(root: Table, at: seq<string>, table: Table, k: string, v: Json, name: string, value: Json)
    requires Holds(root, name, value) && !value.JObject? && !value.JNull?
    requires TableAt(root, at) == Some(table) && (k !in table || table[k].JNull?)
    ensures Holds(Put(root, at, table[k := v]), name, value)
  {
  }

  lemma {:induction false} OpenHolds(c: Codec, root: Table, at: seq<string>, keys: seq<string>, name: string, value: Json)
    requires Holds(root, name, value) && !value.JObject? && !value.JNull? && Open(c, root, at, keys).Some?
    ensures Holds(Open(c, root, at, keys).value.0, name, value)
    decreases |keys|
  {
    hide ConfigKey, TableAt, Put, Holds;
    if keys != [] {
      var k, table := ConfigKey(c, keys[0]).value, TableAt(root, at).value;
      if k !in table || table[k].JNull? {
        PutHolds(root, at, table, k, JObject(map[]), name, value);
        OpenHolds(c, Put(root, at, table[k := JObject(map[])]), at + [k], keys[1..], name, value);
      } else {
        OpenHolds(c, root, at + [k], keys[1..], name, value);
      }
    }
  }

  lemma {:induction false} EnterHolds(c: Codec, root: Table, at: seq<string>, line: string, lines: seq<string>, name: string, value: Json)
    requires Holds(root, name, value) && !value.JObject? && !value.JNull? && Enter(c, root, at, line, lines).Some?
    ensures Holds(Enter(c, root, at, line, lines).value.0, name, value)
  {
    hide Split, ConfigKey, Value, Trim, TableAt, Put, Holds, JoinWith;
    var pieces := Split(line, '=');
    var key, read := ConfigKey(c, pieces[0]).value, Value(c, Trim(JoinWith(pieces[1..], "=")), lines).value.0;
    PutHolds(root, at, TableAt(root, at).value, key, read, name, value);
  }

  lemma {:induction false} ParseHolds(c: Codec, root: Table, at: seq<string>, lines: seq<string>, name: string, value: Json)
    requires Holds(root, name, value) && !value.JObject? && !value.JNull? && ParseFrom(c, root, at, lines).Some?
    ensures Holds(ParseFrom(c, root, at, lines).value, name, value)
    decreases |lines|
  {
    hide Comment, OpenHeader, Enter, Holds, IsHeader;
    if lines != [] {
      var line := Comment(lines[0]);
      if line == "" {
        ParseHolds(c, root, at, lines[1..], name, value);
      } else if IsHeader(line) {
        HeaderHolds(c, root, line, name, value);
        var header := OpenHeader(c, root, line).value;
        ParseHolds(c, header.0, header.1, lines[1..], name, value);
      } else {
        EnterHolds(c, root, at, line, lines[1..], name, value);
        var entered := Enter(c, root, at, line, lines[1..]).value;
        ParseHolds(c, entered.0, at, entered.1, name, value);
      }
    }
  }

  lemma {:induction false} HeaderHolds(c: Codec, root: Table, line: string, name: string, value: Json)
    requires Holds(root, name, value) && !value.JObject? && !value.JNull? && IsHeader(line) && OpenHeader(c, root, line).Some?
    ensures Holds(OpenHeader(c, root, line).value.0, name, value)
  {
    hide Open, Split, Holds;
    OpenHolds(c, root, [], Split(line[1..|line| - 1], '.'), name, value);
  }

  /** The text that opens a multi-line string at the end of a line and closes it behind `s`. */
  function OnLines(c: Codec, key: Key, delimiter: string, s: string, remark: string): string {
    KeyText(c, key) + " = " + delimiter + "\n" + s + delimiter + remark + "\n"
  }

  lemma {:induction false} ShortReads(c: Codec, key: Key, delimiter: string, s: string, more: string)
    requires Sound(c) && (key.bare ==> Bare(c, key.name)) && Plainly(delimiter, s) && !Closes(s, delimiter)
    ensures var line, lines := KeyText(c, key) + " = " + delimiter, Lines(s + delimiter + more);
      var entered := Enter(c, map[], [], line, lines);
      entered.Some? ==> exists value :: value != s && Holds(entered.value.0, key.name, JString(value))
  {
    var line, lines := KeyText(c, key) + " = " + delimiter, Lines(s + delimiter + more);
    assert delimiter == QUOTES || delimiter == APOSTROPHES;
    hide *;
    QuoteMarksOpen();
    EmptyRemark();
    HeadLine(c, key, delimiter, "");
    KeyStands(c, key);
    ValueTakes(c, delimiter, lines);
    RootIsThere();
    EntersAs(c, map[], [], line, lines);
    ValueOfText(c, delimiter, lines);
    MarksOpen(delimiter);
    ReadsLess(delimiter, s, more);
    var read := Multiline(delimiter, lines);
    if Enter(c, map[], [], line, lines).Some? {
      PutRoot(key.name, JString(read.value.0));
    }
  }

  lemma RootIsThere()
    ensures TableAt(map[], []) == Some(map[])
  {}

  lemma {:induction false} MarksOpen(delimiter: string)
    requires delimiter == QUOTES || delimiter == APOSTROPHES
    ensures OpensMultiline(delimiter)
  {}

  lemma {:induction false} PutRoot(name: string, value: Json)
    ensures Holds(Put(map[], [], map[][name := value]), name, value)
  {}

  /** A text can be written on lines of its own, between either delimiter and before anything else, exactly when
      the delimiter first stands where it ends. */
  lemma {:induction false} OnLinesExactly(c: Codec, text: string, key: Key, delimiter: string, s: string, remark: string, rest: string)
    requires Sound(c) && key.name != "" && (key.bare ==> Bare(c, key.name)) && Plainly(delimiter, s) && Remark(remark)
    requires Unify(text) == OnLines(c, key, delimiter, s, remark) + rest
    ensures Closes(s, delimiter) ==> ParseToml(c, text) == ParseFrom(c, map[key.name := JString(s)], [], Lines(rest))
    ensures var read := ParseToml(c, text);
      (read.Some? && Holds(read.value, key.name, JString(s))) <==>
        Closes(s, delimiter) && ParseFrom(c, map[key.name := JString(s)], [], Lines(rest)).Some?
  {
    hide *;
    if Closes(s, delimiter) {
      OnLinesRead(c, text, key, delimiter, s, remark, rest);
      var root: Table := map[key.name := JString(s)];
      HoldsAlone(key.name, JString(s));
      if ParseFrom(c, root, [], Lines(rest)).Some? {
        ParseHolds(c, root, [], Lines(rest), key.name, JString(s));
      }
    } else {
      OnLinesMisread(c, text, key, delimiter, s, remark, rest);
    }
  }

  lemma HoldsAlone(name: string, value: Json)
    ensures Holds(map[name := value], name, value)
  {}

  lemma {:induction false} OnLinesRead(c: Codec, text: string, key: Key, delimiter: string, s: string, remark: string, rest: string)
    requires Sound(c) && key.name != "" && (key.bare ==> Bare(c, key.name)) && Plainly(delimiter, s) && Remark(remark)
    requires Unify(text) == OnLines(c, key, delimiter, s, remark) + rest && Closes(s, delimiter)
    ensures ParseToml(c, text) == ParseFrom(c, map[key.name := JString(s)], [], Lines(rest))
  {
    var form := if delimiter == QUOTES then QuotedLines([Verbatim(s)]) else LiteralLines(s);
    var statement := Entry(key, form, remark);
    PlainForm(c, key, delimiter, s, remark);
    assert AllFair(c, [statement]);
    hide *;
    RootIsThere();
    DocumentNext(c, [statement], map[]);
    OneStatement(c, statement);
    StatementsRead(c, [statement], map[], [], rest);
    EnteredIs(statement, map[]);
    StringsAreNamed(s);
    PutAtRoot(map[key.name := JString(s)]);
    ParseIs(c, text);
  }

  lemma {:induction false} ParseIs(c: Codec, text: string)
    ensures ParseToml(c, text) == ParseFrom(c, map[], [], Lines(Unify(text)))
  {}

  lemma {:induction false} PutAtRoot(table: Table)
    ensures Put(map[], [], table) == table
  {}

  lemma {:induction false} OneStatement(c: Codec, statement: Statement)
    requires Sound(c)
    ensures [statement][1..] == [] && Document(c, []) == "" && Document(c, [statement]) == Written(c, statement)
    ensures forall table :: Entries([], table) == Some(table)
  {
    hide Written, Enumerates;
    assert [statement][1..] == [];
  }

  lemma {:induction false} OnePieceOnly(s: string)
    ensures var pieces := [Verbatim(s)]; Raw(pieces) == s && Said(pieces) == s && ('\\' !in s ==> Readable(pieces))
  {
    var pieces := [Verbatim(s)];
    assert pieces[1..] == [] && Raw([]) == "" && Said([]) == "";
    NothingAdded(s);
    assert Readable([]);
  }

  lemma {:induction false} PlainForm(c: Codec, key: Key, delimiter: string, s: string, remark: string)
    requires Sound(c) && (key.bare ==> Bare(c, key.name)) && Plainly(delimiter, s) && Remark(remark) && Closes(s, delimiter)
    ensures var form := if delimiter == QUOTES then QuotedLines([Verbatim(s)]) else LiteralLines(s);
      && Fair(c, Entry(key, form, remark)) && Written(c, Entry(key, form, remark)) == OnLines(c, key, delimiter, s, remark)
      && Meaning(form) == JString(s)
  {
    OnePieceOnly(s);
    var form := if delimiter == QUOTES then QuotedLines([Verbatim(s)]) else LiteralLines(s);
    hide Closes, Remark, Bare, KeyText, Enumerates, Raw, Said, Readable;
    TextIsEntry(c, key, form, remark);
    hide Written;
    var head := KeyText(c, key) + " = " + delimiter;
    NothingAdded(head);
    OnLinesAre(head, delimiter, s, remark);
  }

  lemma {:induction false} OnLinesAre(head: string, delimiter: string, s: string, remark: string)
    ensures head + "\n" + (s + delimiter + remark + "\n") == head + "\n" + s + delimiter + remark + "\n"
  {
    FourJoined(s, delimiter, remark, "\n");
    FourJoined(head + "\n", s, delimiter, remark);
    Regroup(head + "\n", s + delimiter + remark, "\n");
  }

  lemma {:induction false} OnLinesIs(c: Codec, key: Key, delimiter: string, s: string, remark: string, rest: string)
    ensures OnLines(c, key, delimiter, s, remark) + rest == KeyText(c, key) + " = " + delimiter + "\n" + (s + delimiter + (remark + "\n" + rest))
  {
    hide KeyText;
    var head, tail := KeyText(c, key) + " = " + delimiter + "\n", s + delimiter;
    assert head + s + delimiter == head + tail;
    Regroup(head + tail, remark, "\n");
    Regroup(head, tail, remark + "\n");
    Regroup(head, tail + (remark + "\n"), rest);
    Regroup(tail, remark + "\n", rest);
  }

  lemma NothingAdded(s: string)
    ensures s + "" == s
  {}

  lemma {:induction false} OnLinesMisread(c: Codec, text: string, key: Key, delimiter: string, s: string, remark: string, rest: string)
    requires Sound(c) && (key.bare ==> Bare(c, key.name)) && Plainly(delimiter, s)
    requires Unify(text) == OnLines(c, key, delimiter, s, remark) + rest && !Closes(s, delimiter)
    ensures ParseToml(c, text).Some? ==> !Holds(ParseToml(c, text).value, key.name, JString(s))
  {
    var line, more := KeyText(c, key) + " = " + delimiter, remark + "\n" + rest;
    assert delimiter == QUOTES || delimiter == APOSTROPHES;
    OnLinesIs(c, key, delimiter, s, remark, rest);
    hide *;
    QuoteMarksOpen();
    EmptyRemark();
    HeadLine(c, key, delimiter, "");
    NothingAdded(line);
    LinesOver(line, s + delimiter + more);
    ParseIs(c, text);
    var lines := Lines(s + delimiter + more);
    ParsesAfterRemark(c, map[], [], line, lines);
    ShortReads(c, key, delimiter, s, more);
    if ParseToml(c, text).Some? {
      var entered := Enter(c, map[], [], line, lines).value;
      var value :| value != s && Holds(entered.0, key.name, JString(value));
      ParseHolds(c, entered.0, [], entered.1, key.name, JString(value));
      HoldsOne(ParseToml(c, text).value, key.name, JString(value), JString(s));
    }
  }

  lemma {:induction false} HoldsOne(root: Table, name: string, a: Json, b: Json)
    requires Holds(root, name, a) && a != b
    ensures !Holds(root, name, b)
  {}

  // ----- lists that cannot be written over several lines -----

  function ListHead(c: Codec, key: Key): string { KeyText(c, key) + " = " + "[" }

  lemma {:induction false} ListHeadLine(c: Codec, key: Key)
    requires Sound(c) && (key.bare ==> Bare(c, key.name))
    ensures var line := ListHead(c, key);
      && Comment(line) == line && line != "" && !IsHeader(line) && OneLine(line)
      && Split(line, '=') == [KeyText(c, key) + " ", " " + "["] && Trim(JoinWith([" " + "["], "=")) == "["
  {
    QuoteMarksOpen();
    EmptyRemark();
    HeadLine(c, key, "[", "");
    ValueTakes(c, "[", []);
    hide *;
    assert KeyText(c, key) + " = " + "[" + "" == KeyText(c, key) + " = " + "[";
    ListHeadIs(c, key);
  }

  lemma ListHeadIs(c: Codec, key: Key)
    ensures ListHead(c, key) == KeyText(c, key) + " = " + "["
  {}

  /** The root entry whose list goes on over the lines after its first. */
  lemma {:induction false} ListEnters(c: Codec, key: Key, lines: seq<string>)
    requires Sound(c) && (key.bare ==> Bare(c, key.name))
    requires Continue("[", lines).Some? ==> ConfigValue(c, Continue("[", lines).value.0).None?
    ensures ParseFrom(c, map[], [], [ListHead(c, key)] + lines).None?
  {
    hide *;
    ListHeadLine(c, key);
    RootIsThere();
    EntersAs(c, map[], [], ListHead(c, key), lines);
    BracketIsOpen();
    ValueOfText(c, "[", lines);
    ParsesEntry(c, map[], [], ListHead(c, key), lines);
  }

  /** Behind the bracket that closes a list nothing is taken for a comment. */
  lemma {:induction false} NoteStays(note: string)
    requires OneLine(note) && forall i :: 0 <= i < |note| ==> Ordinary(note[i])
    ensures var line := Comment("] #" + note); line != "" && line[|line| - 1] != ']'
  {
    var line := "]" + " #" + note;
    assert line == "] #" + note;
    NoteIsWhole(note);
    hide *;
    OnePiece(line, '#');
    SplitIs(line, '#');
    CommentSplits(line, line);
    NoBracketIn(note);
    TrimmedEnd("]", " #", note);
  }

  lemma {:induction false} NoBracketIn(note: string)
    requires forall i :: 0 <= i < |note| ==> Ordinary(note[i])
    ensures forall i :: 0 <= i < |note| ==> note[i] != ']'
  {}

  lemma {:induction false} NoteIsWhole(note: string)
    requires forall i :: 0 <= i < |note| ==> Ordinary(note[i])
    ensures Whole(TOP, "]" + " #" + note, '#')
  {
    var s := " #" + note;
    var line := "]" + " #" + note;
    assert line == "]" + s && ("]" + s)[0] == ']' && ("]" + s)[1..] == s && Step(TOP, ']') == Cursor(Plain, -1);
    assert forall i :: 0 <= i < |s| ==> Ordinary(s[i]) by {
      forall i | 0 <= i < |s| ensures Ordinary(s[i]) { assert i < 2 ==> s[i] == " #"[i]; }
    }
    UnderIsWhole(s);
    hide Ordinary;
  }

  lemma {:induction false} UnderIsWhole(s: string)
    requires forall i :: 0 <= i < |s| ==> Ordinary(s[i])
    ensures Whole(Cursor(Plain, -1), s, '#')
  {
    if s != "" {
      assert Step(Cursor(Plain, -1), s[0]) == Cursor(Plain, -1);
      assert forall i :: 0 <= i < |s| - 1 ==> s[1..][i] == s[i + 1];
      UnderIsWhole(s[1..]);
    }
  }

  lemma {:induction false} TrimmedEnd(a: string, mark: string, note: string)
    requires a == "]" && mark == " #" && forall i :: 0 <= i < |note| ==> note[i] != ']'
    ensures var line := Trim(a + mark + note); line != "" && line[|line| - 1] != ']'
    decreases |note|
  {
    var s := a + mark + note;
    assert s[0] == ']' && !IsSpace(']') && TrimLeft(s) == s && !IsSpace('#');
    if note != "" && IsSpace(note[|note| - 1]) {
      var less := note[..|note| - 1];
      assert s[..|s| - 1] == a + mark + less && s[|s| - 1] == note[|note| - 1];
      TrimmedEnd(a, mark, less);
      assert TrimLeft(a + mark + less) == a + mark + less by { assert (a + mark + less)[0] == ']'; }
    } else {
      assert s[|s| - 1] == if note == "" then '#' else note[|note| - 1];
    }
  }

  /** A comment behind the bracket that closes a list is no comment: the list goes on to the end of the document,
      which is refused. */
  lemma {:induction false} CommentBehindBracketIsRefused(c: Codec, text: string, key: Key, note: string)
    requires Sound(c) && (key.bare ==> Bare(c, key.name)) && OneLine(note) && forall i :: 0 <= i < |note| ==> Ordinary(note[i])
    requires Unify(text) == ListHead(c, key) + "\n" + ("] #" + note) + "\n"
    ensures ParseToml(c, text).None?
  {
    NoteStays(note);
    NoteOneLine(note);
    hide *;
    var last := "] #" + note;
    var said := Comment(last);
    ListHeadLine(c, key);
    ParseIs(c, text);
    TwoLines(ListHead(c, key), last);
    BracketIsOpen();
    StillOpen("[", said);
    ContinueTakes("[", last, [""], said);
    EmptyRemark();
    RemarkIsNothing("");
    StillOpen("[" + " " + said, "");
    ContinueTakes("[" + " " + said, "", [], "");
    NothingAfter([""]);
    NothingMore("[" + " " + said + " " + "");
    ListEnters(c, key, [last] + [""]);
  }

  lemma NothingAfter<T>(s: seq<T>)
    ensures s + [] == s
  {}

  lemma {:induction false} TwoLines(a: string, b: string)
    requires OneLine(a) && OneLine(b)
    ensures Lines(a + "\n" + b + "\n") == [a] + ([b] + [""])
  {
    EmptyDocument();
    hide *;
    assert a + "\n" + b + "\n" == a + "\n" + (b + "\n" + "");
    LinesOver(a, b + "\n" + "");
    LinesOver(b, "");
  }

  lemma {:induction false} NoteOneLine(note: string)
    requires OneLine(note)
    ensures OneLine("] #" + note)
  {
    var s := "] #" + note;
    forall i | 0 <= i < |s| ensures s[i] != '\n' && s[i] != '\r' { assert i < 3 ==> s[i] == "] #"[i]; }
  }

  lemma {:induction false} StillOpen(raw: string, said: string)
    requires OpenList(raw) && (said == "" || said[|said| - 1] != ']')
    ensures OpenList(raw + " " + said)
  {}

  lemma {:induction false} NothingMore(raw: string)
    requires OpenList(raw)
    ensures Continue(raw, []).None?
  {}

  // ----- what the entries come to -----

  ghost predicate NamedAt(statements: seq<Statement>, i: int, name: string) {
    0 <= i < |statements| && statements[i].Entry? && statements[i].key.name == name
  }

  ghost predicate Sayings(statements: seq<Statement>, table: Table) {
    && (forall i, name :: NamedAt(statements, i, name) ==>
          name != "" && name !in table && KeysNamed(Meaning(statements[i].form)))
    && (forall i, j, name :: NamedAt(statements, i, name) && NamedAt(statements, j, name) ==> i == j)
  }

  ghost predicate SaidBy(statements: seq<Statement>, table: Table, told: Table) {
    && (forall name :: name in told <==> name in table || exists i :: NamedAt(statements, i, name))
    && (forall name :: name in table ==> name in told && told[name] == table[name])
    && (forall i, name :: NamedAt(statements, i, name) ==> name in told && told[name] == Meaning(statements[i].form))
  }

  lemma {:induction false} NamedNext(statements: seq<Statement>, i: int, name: string)
    requires statements != [] && i != 0
    ensures NamedAt(statements, i, name) <==> NamedAt(statements[1..], i - 1, name)
  {
    if 0 < i < |statements| { assert statements[1..][i - 1] == statements[i]; }
  }

  /** A document is read exactly when every name is given once and none is empty; then each name has the value
      that was given to it, and there are no others. */
  lemma {:induction false} EntriesExactly(statements: seq<Statement>, table: Table)
    ensures Entries(statements, table).Some? <==> Sayings(statements, table)
    ensures Entries(statements, table).Some? ==> SaidBy(statements, table, Entries(statements, table).value)
    decreases |statements|
  {
    if statements != [] {
      var first, rest := statements[0], statements[1..];
      EnteredIs(first, table);
      hide Entered, Meaning, KeysNamed, SaidBy, Sayings;
      FirstSays(statements, table);
      if Entered(first, table).Some? {
        EntriesExactly(rest, Entered(first, table).value);
        if Entries(statements, table).Some? { SaidByFirst(statements, table, Entries(statements, table).value); }
      }
    } else {
      hide Meaning, KeysNamed;
    }
  }

  lemma {:induction false} FirstSays(statements: seq<Statement>, table: Table)
    requires statements != []
    ensures var entered := Entered(statements[0], table);
      Sayings(statements, table) <==> entered.Some? && Sayings(statements[1..], entered.value)
  {
    EnteredIs(statements[0], table);
    hide Entered, Meaning, KeysNamed;
    var rest := statements[1..];
    forall i, name | i != 0 ensures NamedAt(statements, i, name) <==> NamedAt(rest, i - 1, name) {
      NamedNext(statements, i, name);
    }
    var entered := Entered(statements[0], table);
    if Sayings(statements, table) {
      SayingsFirst(statements, table);
      SayingsLater(statements, table);
    } else if entered.Some? && Sayings(rest, entered.value) {
      SayingsBoth(statements, table);
    }
  }

  lemma {:induction false} SayingsFirst(statements: seq<Statement>, table: Table)
    requires statements != [] && Sayings(statements, table)
    ensures Entered(statements[0], table).Some?
  {
    hide Meaning, KeysNamed;
    if statements[0].Entry? { assert NamedAt(statements, 0, statements[0].key.name); }
  }

  lemma {:induction false} SayingsLater(statements: seq<Statement>, table: Table)
    requires statements != [] && Sayings(statements, table) && Entered(statements[0], table).Some?
    ensures Sayings(statements[1..], Entered(statements[0], table).value)
  {
    hide Meaning, KeysNamed;
    var rest, more := statements[1..], Entered(statements[0], table).value;
    forall i, name | NamedAt(rest, i, name)
      ensures name != "" && name !in more && KeysNamed(Meaning(rest[i].form))
    {
      NamedNext(statements, i + 1, name);
      assert NamedAt(statements, i + 1, name);
      if statements[0].Entry? { assert NamedAt(statements, 0, statements[0].key.name); }
    }
    forall i, j, name | NamedAt(rest, i, name) && NamedAt(rest, j, name) ensures i == j {
      NamedNext(statements, i + 1, name);
      NamedNext(statements, j + 1, name);
    }
  }

  lemma {:induction false} SayingsBoth(statements: seq<Statement>, table: Table)
    requires statements != [] && Entered(statements[0], table).Some? && Sayings(statements[1..], Entered(statements[0], table).value)
    ensures Sayings(statements, table)
  {
    hide Meaning, KeysNamed;
    var rest, more := statements[1..], Entered(statements[0], table).value;
    forall i, name | NamedAt(statements, i, name)
      ensures name != "" && name !in table && KeysNamed(Meaning(statements[i].form))
    {
      if i > 0 {
        NamedNext(statements, i, name);
        assert NamedAt(rest, i - 1, name) && rest[i - 1] == statements[i];
      }
    }
    forall i, j, name | NamedAt(statements, i, name) && NamedAt(statements, j, name) ensures i == j {
      if i > 0 { NamedNext(statements, i, name); assert name !in more; }
      if j > 0 { NamedNext(statements, j, name); assert name !in more; }
    }
  }

  lemma {:induction false} SaidByFirst(statements: seq<Statement>, table: Table, told: Table)
    requires statements != [] && Entered(statements[0], table).Some?
    requires SaidBy(statements[1..], Entered(statements[0], table).value, told) && Sayings(statements, table)
    ensures SaidBy(statements, table, told)
  {
    hide Meaning, KeysNamed;
    var rest, more := statements[1..], Entered(statements[0], table).value;
    forall i, name | NamedAt(statements, i, name) ensures name in told && told[name] == Meaning(statements[i].form) {
      if i > 0 {
        NamedNext(statements, i, name);
        assert NamedAt(rest, i - 1, name) && rest[i - 1] == statements[i];
      } else {
        assert name in more && more[name] == Meaning(statements[0].form);
      }
    }
    forall name | name in table ensures name in told && told[name] == table[name] {
      assert name in more && more[name] == table[name];
    }
    forall name | name in told ensures name in table || exists i :: NamedAt(statements, i, name) {
      if name !in more {
        var i :| NamedAt(rest, i, name);
        NamedNext(statements, i + 1, name);
        assert NamedAt(statements, i + 1, name);
      } else if name !in table {
        assert NamedAt(statements, 0, name);
      }
    }
  }

  // ----- a list that ends too early -----

  /** A value and the spaces before it. */
  datatype Spacious = Spacious(spaces: string, value: Json)

  ghost predicate SpaciousFair(c: Codec, item: Spacious)
    requires Sound(c)
  {
    (forall ch :: ch in item.spaces ==> ch == ' ') && Numeric(c, item.value) && Encode(c, item.value).Some?
  }

  ghost predicate AllSpacious(c: Codec, items: seq<Spacious>)
    requires Sound(c)
  {
    forall i :: 0 <= i < |items| ==> SpaciousFair(c, items[i])
  }

  function SpaciousText(c: Codec, item: Spacious): string
    requires Sound(c)
  {
    item.spaces + if Encode(c, item.value).Some? then Encode(c, item.value).value else ""
  }

  /** Values with commas between them, and nothing behind the last. */
  function Listed(c: Codec, items: seq<Spacious>): string
    requires Sound(c)
  {
    if items == [] then ""
    else if |items| == 1 then SpaciousText(c, items[0])
    else SpaciousText(c, items[0]) + "," + Listed(c, items[1..])
  }

  lemma {:induction false} SpaciousIs(c: Codec, items: seq<Spacious>)
    requires Sound(c) && AllSpacious(c, items) && items != []
    ensures SpaciousFair(c, items[0]) && AllSpacious(c, items[1..]) && Encode(c, items[0].value).Some?
    ensures SpaciousText(c, items[0]) == items[0].spaces + Encode(c, items[0].value).value
    ensures Listed(c, items) == if |items| == 1 then SpaciousText(c, items[0]) else SpaciousText(c, items[0]) + "," + Listed(c, items[1..])
  {
    hide Numeric, Encode, Enumerates;
  }

  lemma {:induction false} SpacesBefore(c: Codec, spaces: string, s: string)
    requires forall ch :: ch in spaces ==> ch == ' '
    ensures JsonElements(c, spaces + s) == JsonElements(c, s)
  {
    hide JsonElements;
    if spaces == "" {
      assert spaces + s == s;
    } else {
      assert spaces[0] in spaces && spaces + s == " " + (spaces[1..] + s);
      assert forall ch :: ch in spaces[1..] ==> ch in spaces;
      SpacesBefore(c, spaces[1..], s);
      SpaceBefore(c, spaces[1..] + s);
    }
  }

  lemma {:induction false} LastUnclosed(c: Codec, v: Json, t: string)
    requires Sound(c) && Numeric(c, v) && Encode(c, v) == Some(t)
    ensures JsonElements(c, t).None?
  {
    NothingAdded(t);
    JsonReads(c, v, t, "");
    hide Numeric, Encode, JsonValue, Flat, Enumerates;
    assert SkipSpace("") == "";
  }

  lemma {:induction false} OneGoesOn(c: Codec, v: Json, t: string, rest: string)
    requires Sound(c) && Numeric(c, v) && Encode(c, v) == Some(t) && JsonElements(c, rest).None?
    ensures JsonElements(c, t + ("," + rest)).None?
  {
    CommaEndsNumber();
    assert ("," + rest)[0] == ',';
    JsonReads(c, v, t, "," + rest);
    hide *;
    if Flat(v) { ElementThenMore(c, t + ("," + rest), v, rest); } else { NoneAtAll(c, t + ("," + rest)); }
  }

  lemma {:induction false} NoneAtAll(c: Codec, s: string)
    requires JsonValue(c, s).None?
    ensures JsonElements(c, s).None?
  {
    hide JsonValue;
  }

  /** Without its bracket no list is JSON. */
  lemma {:induction false} UnclosedElements(c: Codec, items: seq<Spacious>)
    requires Sound(c) && AllSpacious(c, items) && items != []
    ensures JsonElements(c, Listed(c, items)).None?
    decreases |items|
  {
    SpaciousIs(c, items);
    SpaciousParts(c, items[0]);
    hide *;
    var spaces, v := items[0].spaces, items[0].value;
    var t := Encode(c, v).value;
    if |items| == 1 {
      LastUnclosed(c, v, t);
      SpacesBefore(c, spaces, t);
    } else {
      UnclosedElements(c, items[1..]);
      OneGoesOn(c, v, t, Listed(c, items[1..]));
      SpacesBefore(c, spaces, t + ("," + Listed(c, items[1..])));
      FourJoined(spaces, t, ",", Listed(c, items[1..]));
      Regroup(t, ",", Listed(c, items[1..]));
    }
  }

  lemma {:induction false} SpaciousParts(c: Codec, item: Spacious)
    requires Sound(c) && SpaciousFair(c, item)
    ensures (forall ch :: ch in item.spaces ==> ch == ' ') && Numeric(c, item.value) && Encode(c, item.value).Some?
  {
    hide Numeric, Encode, Enumerates;
  }

  lemma {:induction false} ListedStarts(c: Codec, items: seq<Spacious>)
    requires Sound(c) && AllSpacious(c, items) && items != []
    ensures var s := SkipSpace(Listed(c, items)); s != "" && s[0] != ']'
  {
    SpaciousIs(c, items);
    SpaciousParts(c, items[0]);
    hide *;
    var spaces, v := items[0].spaces, items[0].value;
    var t := Encode(c, v).value;
    var more := if |items| == 1 then "" else "," + Listed(c, items[1..]);
    NothingSkipped(c, v, t, more);
    ValueStarts(c, v, t);
    NotJsonSpace(t[0]);
    NothingAdded(t);
    SpacesSkip(spaces, t + more);
    if |items| > 1 { FourJoined(spaces, t, ",", Listed(c, items[1..])); Regroup(t, ",", Listed(c, items[1..])); }
    assert spaces + (t + "") == spaces + t;
  }

  lemma {:induction false} UnclosedText(c: Codec, items: seq<Spacious>)
    requires Sound(c) && AllSpacious(c, items) && items != []
    ensures JsonText(c, "[" + Listed(c, items)).None?
  {
    hide *;
    UnclosedElements(c, items);
    ListedStarts(c, items);
    ArrayIs(c, Listed(c, items));
    TextIs(c, Listed(c, items));
  }

  /** The value of the last item without its last character. */
  function Shorn(c: Codec, items: seq<Spacious>): string
    requires Sound(c) && items != []
  {
    var t := SpaciousText(c, items[|items| - 1]);
    if t == "" then "" else t[..|t| - 1]
  }

  lemma {:induction false} ShornNext(c: Codec, items: seq<Spacious>)
    requires Sound(c) && |items| > 1
    ensures Shorn(c, items) == Shorn(c, items[1..])
  {
    hide SpaciousText, Enumerates;
  }

  lemma {:induction false} ListedNotEmpty(c: Codec, items: seq<Spacious>)
    requires Sound(c) && AllSpacious(c, items) && items != []
    ensures Listed(c, items) != ""
  {
    SpaciousIs(c, items);
    SpaciousParts(c, items[0]);
    hide *;
    ValueStarts(c, items[0].value, Encode(c, items[0].value).value);
  }

  lemma {:induction false} SpacesWhole(c: Codec, item: Spacious)
    requires Sound(c) && SpaciousFair(c, item)
    ensures var t := SpaciousText(c, item);
      t != "" && Whole(TOP, t, ',') && Walk(TOP, t) == TOP && Whole(TOP, t[..|t| - 1], ',')
  {
    SpaciousParts(c, item);
    var spaces, t := item.spaces, Encode(c, item.value).value;
    assert SpaciousText(c, item) == spaces + t;
    EmptyIsBlank();
    SpacesAreBlank("", spaces);
    hide *;
    ValueStarts(c, item.value, t);
    ValueWhole(c, item.value, t);
    PadScans(spaces);
    WholeAppend(TOP, spaces, t, ',');
    WalkAppend(TOP, spaces, t);
    var all := spaces + t;
    WholeAppend(TOP, all[..|all| - 1], all[|all| - 1..], ',');
    assert all == all[..|all| - 1] + all[|all| - 1..];
  }

  /** Split at its commas, such a list without its last character has the shorn value for its last piece. */
  lemma {:induction false} ShornIsLast(c: Codec, items: seq<Spacious>) returns (pieces: seq<string>)
    requires Sound(c) && AllSpacious(c, items) && items != []
    ensures var s := Listed(c, items); s != "" && SplitFrom(TOP, "", s[..|s| - 1], ',') == pieces + [Shorn(c, items)]
    decreases |items|
  {
    SpaciousIs(c, items);
    ListedNotEmpty(c, items);
    SpacesWhole(c, items[0]);
    if |items| == 1 {
      pieces := [];
      var t := SpaciousText(c, items[0]);
      assert Shorn(c, items) == t[..|t| - 1];
      hide *;
      OnePiece(t[..|t| - 1], ',');
      SplitIs(t[..|t| - 1], ',');
    } else {
      hide *;
      ShornNext(c, items);
      ListedNotEmpty(c, items[1..]);
      var p, rest := SpaciousText(c, items[0]), Listed(c, items[1..]);
      var more := ShornIsLast(c, items[1..]);
      pieces := [p] + more;
      ShearRight(p, rest);
      SplitOver(TOP, "", p, "," + rest[..|rest| - 1], ',');
      CommaStep("" + p, rest[..|rest| - 1]);
      assert "" + p == p;
      Regroup([p], more, [Shorn(c, items[1..])]);
    }
  }

  lemma {:induction false} ShearRight(p: string, rest: string)
    requires rest != ""
    ensures var s := p + "," + rest; s[..|s| - 1] == p + ("," + rest[..|rest| - 1])
  {}

  lemma {:induction false} LastRefuses(c: Codec, pieces: seq<string>, last: string, n: nat)
    requires (forall p :: p in pieces + [last] ==> |p| < n) && Trim(last) != "" && ConfigValue(c, last).None?
    ensures ConfigItems(c, pieces + [last], n).None?
    decreases |pieces|
  {
    var all := pieces + [last];
    if pieces == [] {
      assert all == [last] && [last][1..] == [];
      hide *;
      OneItem(c, all, n);
    } else {
      assert all[0] == pieces[0] && all[1..] == pieces[1..] + [last];
      forall p | p in pieces[1..] + [last] ensures |p| < n { assert p in all; }
      LastRefuses(c, pieces[1..], last, n);
      hide ConfigValue, Trim;
    }
  }

  ghost predicate RefusedAt(c: Codec, s: string) { ConfigValue(c, s).None? && Trim(s) != "" }

  lemma {:induction false} ListedIsTight(c: Codec, items: seq<Spacious>)
    requires Sound(c) && AllSpacious(c, items) && items != []
    ensures var s := Listed(c, items); s != "" && !IsSpace(s[|s| - 1])
    ensures var s := Listed(c, items); s[|s| - 1] == ']' <==> items[|items| - 1].value.JArray?
    decreases |items|
  {
    SpaciousIs(c, items);
    SpaciousParts(c, items[0]);
    var v := items[0].value;
    var t := Encode(c, v).value;
    if |items| == 1 {
      ValueIsSolid(c, v);
      if !v.JArray? { EndsOpen(c, v, t); }
      hide Encode, Numeric, IsSpace, Level, Whole, Enumerates;
    } else {
      ListedIsTight(c, items[1..]);
      hide Encode, Numeric, IsSpace, Enumerates, SpaciousText;
    }
  }

  lemma {:induction false} NoBracketRefused(c: Codec, t: string)
    requires t != "" && Trim(t) == t && t[0] == '[' && t[|t| - 1] != ']' && JsonText(c, t).None?
    ensures RefusedAt(c, t)
  {
    hide Trim, Split, JsonText, Unquote, ConfigItems, ConfigFields, Unpair;
  }

  lemma {:induction false} BehindBracket(s: string)
    requires s != "" && !IsSpace(s[|s| - 1])
    ensures var t := "[" + s;
      Trim(t) == t && |t| >= 2 && t[0] == '[' && t[|t| - 1] == s[|s| - 1] && t[1..|t| - 1] == s[..|s| - 1]
  {
    var t := "[" + s;
    assert t[0] == '[' && !IsSpace('[');
    TrimOfTight(t);
  }

  /** A list that is cut off behind a list is no value if that list cut off is none. */
  lemma {:induction false} UnclosedRefused(c: Codec, items: seq<Spacious>)
    requires Sound(c) && AllSpacious(c, items) && items != []
    requires items[|items| - 1].value.JArray? ==> RefusedAt(c, Shorn(c, items))
    ensures RefusedAt(c, "[" + Listed(c, items))
  {
    hide *;
    ListedIsTight(c, items);
    BehindBracket(Listed(c, items));
    UnclosedText(c, items);
    if items[|items| - 1].value.JArray? {
      UnclosedByLast(c, items);
    } else {
      NoBracketRefused(c, "[" + Listed(c, items));
    }
  }

  lemma {:induction false} UnclosedByLast(c: Codec, items: seq<Spacious>)
    requires Sound(c) && AllSpacious(c, items) && items != [] && items[|items| - 1].value.JArray? && RefusedAt(c, Shorn(c, items))
    requires var s := Listed(c, items); var t := "[" + s;
      s != "" && Trim(t) == t && |t| >= 2 && t[0] == '[' && t[|t| - 1] == ']' && t[1..|t| - 1] == s[..|s| - 1] && JsonText(c, t).None?
    ensures RefusedAt(c, "[" + Listed(c, items))
  {
    hide *;
    var s := Listed(c, items);
    var pieces := ShornIsLast(c, items);
    RefusedMeans(c, Shorn(c, items));
    ListValue(c, "[" + s);
    SplitIs(s[..|s| - 1], ',');
    LastRefuses(c, pieces, Shorn(c, items), |"[" + s| - 1);
    RefusedBy(c, "[" + s);
  }

  lemma {:induction false} RefusedMeans(c: Codec, s: string)
    requires RefusedAt(c, s)
    ensures ConfigValue(c, s).None? && Trim(s) != ""
  {}

  lemma {:induction false} RefusedBy(c: Codec, s: string)
    requires ConfigValue(c, s).None? && Trim(s) != ""
    ensures RefusedAt(c, s)
  {}

  function AsPrinted(items: seq<Json>): seq<Spacious> {
    seq(|items|, i requires 0 <= i < |items| => Spacious(if i == 0 then "" else " ", items[i]))
  }

  function Behind(items: seq<Json>): seq<Spacious> { seq(|items|, i requires 0 <= i < |items| => Spacious(" ", items[i])) }

  lemma {:induction false} SpacedOne(c: Codec, spaces: string, items: seq<Json>, rest: seq<Spacious>)
    requires Sound(c) && EncodeItems(c, items).Some? && items != []
    ensures Encode(c, items[0]).Some? && EncodeItems(c, items[1..]).Some?
    ensures Listed(c, [Spacious(spaces, items[0])] + rest)
      == if rest == [] then spaces + Encode(c, items[0]).value else spaces + Encode(c, items[0]).value + "," + Listed(c, rest)
    ensures JoinWith(EncodeItems(c, items).value, ", ")
      == if |items| == 1 then Encode(c, items[0]).value
         else Encode(c, items[0]).value + (", " + JoinWith(EncodeItems(c, items[1..]).value, ", "))
  {
    ItemsEncoded(c, items);
    PartsPrinted(c, items);
    var parts := EncodeItems(c, items).value;
    assert parts[1..] == EncodeItems(c, items[1..]).value && parts[0] == Encode(c, items[0]).value;
    JoinedStart(parts, ", ");
    var item := Spacious(spaces, items[0]);
    SpaciousOf(c, item, parts[0]);
    hide Encode, EncodeItems, JoinWith, SpaciousText, Enumerates;
    if rest == [] { ListedOne(c, item); } else { ListedMore(c, item, rest); }
  }

  lemma {:induction false} CommaSpace(spaces: string, t: string, rest: string)
    ensures spaces + t + "," + (" " + rest) == spaces + (t + (", " + rest))
  {}

  lemma {:induction false} BehindNext(items: seq<Json>)
    requires items != []
    ensures Behind(items) == [Spacious(" ", items[0])] + Behind(items[1..])
    ensures AsPrinted(items) == [Spacious("", items[0])] + Behind(items[1..])
    ensures Behind(items[1..]) == [] <==> |items| == 1
  {}

  lemma {:induction false} BehindIs(c: Codec, items: seq<Json>)
    requires Sound(c) && EncodeItems(c, items).Some? && items != []
    ensures Listed(c, Behind(items)) == " " + JoinWith(EncodeItems(c, items).value, ", ")
    decreases |items|
  {
    hide *;
    BehindNext(items);
    SpacedOne(c, " ", items, Behind(items[1..]));
    if |items| > 1 {
      BehindIs(c, items[1..]);
      CommaSpace(" ", Encode(c, items[0]).value, JoinWith(EncodeItems(c, items[1..]).value, ", "));
    }
  }

  lemma {:induction false} PrintedIs(c: Codec, items: seq<Json>)
    requires Sound(c) && EncodeItems(c, items).Some? && items != []
    ensures Listed(c, AsPrinted(items)) == JoinWith(EncodeItems(c, items).value, ", ")
  {
    hide *;
    BehindNext(items);
    SpacedOne(c, "", items, Behind(items[1..]));
    var t := Encode(c, items[0]).value;
    assert "" + t == t;
    if |items| > 1 {
      var rest := JoinWith(EncodeItems(c, items[1..]).value, ", ");
      BehindIs(c, items[1..]);
      CommaSpace("", t, rest);
      assert "" + (t + (", " + rest)) == t + (", " + rest);
    }
  }

  lemma {:induction false} AsPrintedFair(c: Codec, items: seq<Json>)
    requires Sound(c) && AllNumeric(c, items) && EncodeItems(c, items).Some?
    ensures AllSpacious(c, AsPrinted(items))
    ensures forall i :: 0 <= i < |items| ==> Encode(c, items[i]).Some?
  {
    EachEncodes(c, items);
    hide Numeric, Encode, Enumerates;
  }

  lemma {:induction false} EachEncodes(c: Codec, items: seq<Json>)
    requires Sound(c) && EncodeItems(c, items).Some?
    ensures forall i :: 0 <= i < |items| ==> Encode(c, items[i]).Some?
  {
    if items != [] {
      ItemsEncoded(c, items);
      EachEncodes(c, items[1..]);
      hide Encode, EncodeItems, Enumerates;
      assert forall i :: 0 <= i < |items| - 1 ==> items[1..][i] == items[i + 1];
    }
  }

  lemma {:induction false} BracketRefused(c: Codec)
    ensures RefusedAt(c, "[")
  {
    var t := "[";
    TrimOfTight(t);
    assert "[" + "" == t;
    ListBegins(c, "");
    assert JsonText(c, t).None?;
    hide Trim, Split, JsonText, Unquote, ConfigItems, ConfigFields, Unpair;
  }

  lemma {:induction false} PrintedCutOff(c: Codec, items: seq<Json>, t: string)
    requires Sound(c) && EncodeItems(c, items).Some? && t == "[" + JoinWith(EncodeItems(c, items).value, ", ") + "]"
    ensures |t| >= 2 && t[..|t| - 1] == if items == [] then "[" else "[" + Listed(c, AsPrinted(items))
  {
    PartsPrinted(c, items);
    if items != [] { PrintedIs(c, items); }
    hide EncodeItems, Listed, Enumerates;
  }

  lemma {:induction false} LastIsFair(c: Codec, items: seq<Json>)
    requires Sound(c) && AllNumeric(c, items) && EncodeItems(c, items).Some? && items != []
    ensures var all := AsPrinted(items); var last := items[|items| - 1];
      |all| == |items| && all != [] && all[|all| - 1].value == last && AllSpacious(c, all) && Numeric(c, last) && Encode(c, last).Some?
  {
    AsPrintedFair(c, items);
    hide Numeric, Encode, EncodeItems, AllSpacious, Enumerates;
  }

  /** A printed list without its closing bracket is no value. */
  lemma {:induction false} CutOffRefused(c: Codec, v: Json, t: string)
    requires Sound(c) && Numeric(c, v) && Encode(c, v) == Some(t) && v.JArray?
    ensures |t| >= 2 && RefusedAt(c, t[..|t| - 1])
    decreases v
  {
    hide *;
    ListShape(c, v, t);
    var items := v.items;
    PrintedCutOff(c, items, t);
    if items == [] {
      BracketRefused(c);
    } else {
      LastIsFair(c, items);
      var last := items[|items| - 1];
      if last.JArray? {
        var u := Encode(c, last).value;
        CutOffRefused(c, last, u);
        ShornIs(c, AsPrinted(items), u);
      }
      UnclosedRefused(c, AsPrinted(items));
    }
  }

  lemma {:induction false} ShornText(c: Codec, all: seq<Spacious>, u: string)
    requires Sound(c) && AllSpacious(c, all) && all != [] && Encode(c, all[|all| - 1].value) == Some(u) && |u| >= 2
    ensures Shorn(c, all) == all[|all| - 1].spaces + u[..|u| - 1] && Blank(all[|all| - 1].spaces)
  {
    var item := all[|all| - 1];
    assert SpaciousFair(c, item);
    SpaciousParts(c, item);
    EmptyIsBlank();
    SpacesAreBlank("", item.spaces);
    assert SpaciousText(c, item) == item.spaces + u;
    hide Encode, Numeric, Enumerates, SpaciousText, Blank;
    LastOff(item.spaces, u);
  }

  lemma {:induction false} LastOff(a: string, b: string)
    requires b != ""
    ensures a + b != "" && (a + b)[..|a + b| - 1] == a + b[..|b| - 1]
  {}

  lemma {:induction false} ShornIs(c: Codec, all: seq<Spacious>, u: string)
    requires Sound(c) && AllSpacious(c, all) && all != [] && Encode(c, all[|all| - 1].value) == Some(u) && |u| >= 2 && RefusedAt(c, u[..|u| - 1])
    ensures RefusedAt(c, Shorn(c, all))
  {
    hide *;
    ShornText(c, all, u);
    var spaces, short := all[|all| - 1].spaces, u[..|u| - 1];
    TrimSpaces(spaces, short);
    OnlyTrimCounts(c, spaces + short, short);
    RefusedMeans(c, short);
    RefusedBy(c, spaces + short);
  }

  lemma {:induction false} TrimSpaces(spaces: string, s: string)
    requires Blank(spaces)
    ensures Trim(spaces + s) == Trim(s)
  {
    TrimLeftPad(spaces, s);
    hide TrimLeft, TrimRight, Blank;
  }

  // The rows of a list whose last item is a list without a comma.

  /** The items of the rows, each behind the spaces of the gaps before it. */
  function RowItems(rows: seq<Row>, spaces: string): seq<Spacious>
    decreases |rows|
  {
    if rows == [] then []
    else if rows[0].Gap? then RowItems(rows[1..], spaces + " ")
    else [Spacious(spaces + " ", rows[0].value)] + RowItems(rows[1..], "")
  }

  ghost predicate ItemsSpaced(c: Codec, all: seq<Spacious>, items: seq<Json>)
    requires Sound(c)
  {
    AllSpacious(c, all) && |all| == |items| && forall i :: 0 <= i < |all| ==> all[i].value == items[i]
  }

  lemma {:induction false} ItemsSpacedNext(c: Codec, item: Spacious, all: seq<Spacious>, items: seq<Json>)
    requires Sound(c) && SpaciousFair(c, item) && ItemsSpaced(c, all, items)
    ensures ItemsSpaced(c, [item] + all, [item.value] + items)
  {
    hide SpaciousFair, Enumerates;
  }

  lemma {:induction false} NoneSpaced(c: Codec, spaces: string)
    requires Sound(c)
    ensures ItemsSpaced(c, RowItems([], spaces), Items([]))
  {}

  lemma {:induction false} MoreSpaces(spaces: string)
    requires forall ch :: ch in spaces ==> ch == ' '
    ensures forall ch :: ch in spaces + " " ==> ch == ' '
  {}

  lemma {:induction false} FairSpacious(c: Codec, spaces: string, v: Json)
    requires Sound(c) && Numeric(c, v) && Encode(c, v).Some? && forall ch :: ch in spaces ==> ch == ' '
    ensures SpaciousFair(c, Spacious(spaces, v))
  {
    hide Numeric, Encode, Enumerates;
  }

  lemma {:induction false} RowItemsAre(c: Codec, rows: seq<Row>, spaces: string)
    requires Sound(c) && RowsFair(c, rows) && forall ch :: ch in spaces ==> ch == ' '
    ensures ItemsSpaced(c, RowItems(rows, spaces), Items(rows))
    decreases |rows|
  {
    hide *;
    if rows == [] {
      NoneSpaced(c, spaces);
    } else {
      RowsFairNext(c, rows);
      RowsNext(c, rows, false);
      RowItemsNext(rows, spaces);
      MoreSpaces(spaces);
      if rows[0].Gap? {
        assert [] + Items(rows[1..]) == Items(rows[1..]);
        RowItemsAre(c, rows[1..], spaces + " ");
      } else {
        FairItem(c, rows[0]);
        RowItemsAre(c, rows[1..], "");
        FairSpacious(c, spaces + " ", rows[0].value);
        ItemsSpacedNext(c, Spacious(spaces + " ", rows[0].value), RowItems(rows[1..], ""), Items(rows[1..]));
      }
    }
  }

  ghost predicate EndsInList(rows: seq<Row>) { Items(rows) != [] && Items(rows)[|Items(rows)| - 1].JArray? }

  lemma {:induction false} ListEndsOpenly(c: Codec, v: Json, t: string)
    requires Sound(c) && Numeric(c, v) && Encode(c, v) == Some(t) && v.JArray?
    ensures t != "" && t == t[..|t| - 1] + "]"
  {
    ValueIsSolid(c, v);
    hide Encode, Numeric, Solid;
    assert t[..|t| - 1] + [t[|t| - 1]] == t;
  }

  lemma {:induction false} MarkedStaysOpen(c: Codec, row: Row, raw: string)
    requires Sound(c) && RowFair(c, row) && OpenList(raw)
    ensures OpenList(raw + " " + RowSays(c, row, true))
  {
    hide Numeric, Remark, Pad, Enumerates;
    if row.Item? {
      RowIs(c, row, true, Encode(c, row.value).value);
      hide Encode;
    }
  }

  lemma {:induction false} RowItemsNext(rows: seq<Row>, spaces: string)
    requires rows != []
    ensures RowItems(rows, spaces) ==
      if rows[0].Gap? then RowItems(rows[1..], spaces + " ") else [Spacious(spaces + " ", rows[0].value)] + RowItems(rows[1..], "")
  {}

  lemma {:induction false} EndsInListNext(rows: seq<Row>)
    requires EndsInList(rows)
    ensures rows != [] && (Items(rows[1..]) != [] ==> EndsInList(rows[1..]))
    ensures rows[0].Gap? ==> Items(rows[1..]) != []
    ensures Items(rows[1..]) == [] ==> rows[0].Item? && rows[0].value.JArray?
  {}

  ghost predicate StopsAt(c: Codec, raw: string, spaces: string, rows: seq<Row>, rest: seq<string>, left: seq<string>)
    requires Sound(c)
  {
    Continue(raw + spaces, RowTexts(c, rows, false) + rest) == Some((raw + Listed(c, RowItems(rows, spaces)), left))
  }

  lemma {:induction false} StopsMeans(c: Codec, raw: string, spaces: string, rows: seq<Row>, rest: seq<string>, left: seq<string>)
    requires Sound(c)
    ensures StopsAt(c, raw, spaces, rows, rest, left)
      <==> Continue(raw + spaces, RowTexts(c, rows, false) + rest) == Some((raw + Listed(c, RowItems(rows, spaces)), left))
  {}

  /** One row less. */
  lemma {:induction false} RowTaken(c: Codec, rows: seq<Row>, before: string, rest: seq<string>)
    requires Sound(c) && rows != [] && RowsFair(c, rows) && OpenList(before)
    ensures Continue(before, RowTexts(c, rows, false) + rest)
      == Continue(before + " " + RowSays(c, rows[0], Items(rows[1..]) != []), RowTexts(c, rows[1..], false) + rest)
  {
    hide *;
    RowsFairNext(c, rows);
    RowsNext(c, rows, false);
    var mark := Items(rows[1..]) != [];
    RowReads(c, rows[0], mark);
    Regroup([RowText(c, rows[0], mark)], RowTexts(c, rows[1..], false), rest);
    ContinueTakes(before, RowText(c, rows[0], mark), RowTexts(c, rows[1..], false) + rest, RowSays(c, rows[0], mark));
  }

  /** The list is taken to end at its last item. */
  lemma {:induction false} RowsStopEarly(c: Codec, rows: seq<Row>, raw: string, spaces: string, rest: seq<string>) returns (left: seq<string>)
    requires Sound(c) && RowsFair(c, rows) && EndsInList(rows) && OpenList(raw + spaces)
    ensures StopsAt(c, raw, spaces, rows, rest, left)
    decreases |rows|
  {
    hide *;
    EndsInListNext(rows);
    RowsFairNext(c, rows);
    RowTaken(c, rows, raw + spaces, rest);
    RowItemsNext(rows, spaces);
    var row, mark := rows[0], Items(rows[1..]) != [];
    if row.Gap? {
      GapSays(c, row, mark);
      SpaceMore(raw, spaces);
      StillOpen(raw + spaces, "");
      left := RowsStopEarly(c, rows[1..], raw, spaces + " ", rest);
      StopsMeans(c, raw, spaces + " ", rows[1..], rest, left);
    } else {
      FairItem(c, row);
      var t := Encode(c, row.value).value;
      RowIs(c, row, mark, t);
      var item := Spacious(spaces + " ", row.value);
      SpaciousOf(c, item, t);
      if mark {
        var next := raw + spaces + " " + (t + ",");
        MarkedStaysOpen(c, row, raw + spaces);
        SomeItems(c, rows[1..]);
        ListedMore(c, item, RowItems(rows[1..], ""));
        NothingAdded(next);
        left := RowsStopEarly(c, rows[1..], next, "", rest);
        StopsMeans(c, next, "", rows[1..], rest, left);
        GlueList(raw, spaces, t, Listed(c, RowItems(rows[1..], "")));
      } else {
        left := RowTexts(c, rows[1..], false) + rest;
        NoMoreItems(rows[1..]);
        ListedOne(c, item);
        ListEndsOpenly(c, row.value, t);
        NothingAdded(t);
        GlueLast(raw, spaces, t);
        ContinueEnds(raw + spaces + " " + t[..|t| - 1], left);
      }
    }
    StopsMeans(c, raw, spaces, rows, rest, left);
  }

  lemma {:induction false} SpaceMore(raw: string, spaces: string)
    ensures raw + spaces + " " + "" == raw + (spaces + " ")
  {}

  lemma {:induction false} SpaciousOf(c: Codec, item: Spacious, t: string)
    requires Sound(c) && Encode(c, item.value) == Some(t)
    ensures SpaciousText(c, item) == item.spaces + t
  {}

  lemma {:induction false} ListedOne(c: Codec, item: Spacious)
    requires Sound(c)
    ensures [item] + [] == [item] && Listed(c, [item]) == SpaciousText(c, item)
  {
    hide SpaciousText, Enumerates;
  }

  lemma {:induction false} NoMoreItems(rows: seq<Row>)
    requires Items(rows) == []
    ensures forall spaces :: RowItems(rows, spaces) == []
    decreases |rows|
  {
    if rows != [] { NoMoreItems(rows[1..]); }
  }

  lemma {:induction false} SomeItems(c: Codec, rows: seq<Row>)
    requires Sound(c) && RowsFair(c, rows) && Items(rows) != []
    ensures RowItems(rows, "") != []
  {
    RowItemsAre(c, rows, "");
  }

  lemma {:induction false} ListedMore(c: Codec, item: Spacious, items: seq<Spacious>)
    requires Sound(c) && items != []
    ensures Listed(c, [item] + items) == SpaciousText(c, item) + "," + Listed(c, items)
  {
    hide SpaciousText, Enumerates;
    assert ([item] + items)[1..] == items;
  }

  lemma {:induction false} GlueList(raw: string, spaces: string, t: string, more: string)
    ensures raw + spaces + " " + (t + ",") + more == raw + (spaces + " " + t + "," + more)
  {}

  lemma {:induction false} GlueLast(raw: string, spaces: string, t: string)
    requires t != "" && t == t[..|t| - 1] + "]"
    ensures raw + spaces + " " + t == raw + (spaces + " " + t) && raw + spaces + " " + t == raw + spaces + " " + t[..|t| - 1] + "]"
  {
    Regroup(raw + spaces + " ", t[..|t| - 1], "]");
  }

  lemma {:induction false} EndsInListRefused(c: Codec, rows: seq<Row>)
    requires Sound(c) && RowsFair(c, rows) && EndsInList(rows)
    ensures RowItems(rows, "") != [] && ConfigValue(c, "[" + Listed(c, RowItems(rows, ""))).None?
  {
    RowItemsAre(c, rows, "");
    var all := RowItems(rows, "");
    var last := all[|all| - 1].value;
    assert SpaciousFair(c, all[|all| - 1]);
    SpaciousParts(c, all[|all| - 1]);
    var u := Encode(c, last).value;
    hide *;
    CutOffRefused(c, last, u);
    ShornIs(c, all, u);
    UnclosedRefused(c, all);
    RefusedMeans(c, "[" + Listed(c, all));
  }

  /** A list over several lines can be read exactly when its last value, if no comma stands behind it, is no list: the
      first line that ends in a bracket is taken for its end. */
  lemma {:induction false} ListLinesExactly(c: Codec, text: string, key: Key, rows: seq<Row>, comma: bool, pad: string, rest: string)
    requires Sound(c) && key.name != "" && (key.bare ==> Bare(c, key.name)) && RowsFair(c, rows) && Pad(pad) && AllNamed(Items(rows))
    requires Unify(text) == Written(c, Entry(key, ListLines(rows, comma, pad), "")) + rest
    ensures ParseToml(c, text)
      == if LastStaysOpen(rows, comma) then ParseFrom(c, map[key.name := JArray(Items(rows))], [], Lines(rest)) else None
  {
    if LastStaysOpen(rows, comma) {
      ListIsRead(c, text, key, rows, comma, pad, rest);
    } else {
      ListIsRefused(c, text, key, rows, pad, rest);
    }
  }

  lemma {:induction false} ListIsRead(c: Codec, text: string, key: Key, rows: seq<Row>, comma: bool, pad: string, rest: string)
    requires Sound(c) && key.name != "" && (key.bare ==> Bare(c, key.name)) && RowsFair(c, rows) && Pad(pad) && AllNamed(Items(rows))
    requires Unify(text) == Written(c, Entry(key, ListLines(rows, comma, pad), "")) + rest && LastStaysOpen(rows, comma)
    ensures ParseToml(c, text) == ParseFrom(c, map[key.name := JArray(Items(rows))], [], Lines(rest))
  {
    var statement := Entry(key, ListLines(rows, comma, pad), "");
    EmptyRemark();
    assert Fair(c, statement);
    assert AllFair(c, [statement]);
    hide *;
    RootIsThere();
    DocumentNext(c, [statement], map[]);
    OneStatement(c, statement);
    StatementsRead(c, [statement], map[], [], rest);
    EnteredIs(statement, map[]);
    MeaningOfList(rows, comma, pad);
    ListsAreNamed(Items(rows));
    PutAtRoot(map[key.name := JArray(Items(rows))]);
    ParseIs(c, text);
  }

  lemma {:induction false} MeaningOfList(rows: seq<Row>, comma: bool, pad: string)
    ensures Meaning(ListLines(rows, comma, pad)) == JArray(Items(rows))
  {}

  lemma {:induction false} ListIsRefused(c: Codec, text: string, key: Key, rows: seq<Row>, pad: string, rest: string)
    requires Sound(c) && (key.bare ==> Bare(c, key.name)) && RowsFair(c, rows) && Pad(pad)
    requires Unify(text) == Written(c, Entry(key, ListLines(rows, false, pad), "")) + rest && !LastStaysOpen(rows, false)
    ensures ParseToml(c, text).None?
  {
    var form := ListLines(rows, false, pad);
    assert EndsInList(rows);
    assert Start(c, form) == "[" && Tail(c, form, "") == Unlines(RowTexts(c, rows, false)) + (pad + "]") + "\n";
    TextIsEntry(c, key, form, "");
    BracketIsOpen();
    hide *;
    var head, tail := ListHead(c, key), Unlines(RowTexts(c, rows, false)) + (pad + "]") + "\n";
    ListHeadLine(c, key);
    ListHeadIs(c, key);
    NothingAdded(head);
    Regroup(head + "\n", tail, rest);
    LinesOver(head, tail + rest);
    RowLines(c, rows, false, pad, rest);
    ParseIs(c, text);
    NothingAdded("[");
    var more := [pad + "]"] + Lines(rest);
    Regroup(RowTexts(c, rows, false), [pad + "]"], Lines(rest));
    var left := RowsStopEarly(c, rows, "[", "", more);
    StopsMeans(c, "[", "", rows, more, left);
    EndsInListRefused(c, rows);
    ListEnters(c, key, RowTexts(c, rows, false) + more);
  }
}
