/** Values of agent definitions that the printer never writes: words and numbers without quotes, and maps in braces with
    bare keys, before a colon or an equals sign (internal/session/definition_config.go:36-102). */
module ConfigByHand {
  import opened Basics
  import opened Text
  import opened Conversation
  import opened ConfigText
  import opened ConfigQuote
  import opened ConfigValues
  import opened ConfigRoundTrip

  // ----- words -----

  predicate BareChar(ch: char) { 'a' <= ch <= 'z' || 'A' <= ch <= 'Z' || '0' <= ch <= '9' || ch == '_' || ch == '-' }

  /** A name that needs no quotes: one that reads as a word and not as a number. */
  predicate Bare(c: Codec, name: string) {
    && name != "" && (forall i :: 0 <= i < |name| ==> BareChar(name[i]))
    && name != "true" && name != "false" && name != "null" && c.parseFloat(name).None?
  }

  lemma {:induction false} BareIsOrdinary(ch: char)
    requires BareChar(ch)
    ensures Ordinary(ch) && !IsSpace(ch) && ch != '#' && ch != '=' && ch != ':' && ch != ',' && ch != '[' && ch != '\n' && ch != '\r'
  {}

  lemma {:induction false} BareIsSolid(name: string)
    requires name != "" && forall i :: 0 <= i < |name| ==> BareChar(name[i])
    ensures Solid(name) && name[0] != '[' && name[0] != '"' && name[0] != '}'
  {
    hide BareChar, Ordinary, IsSpace, Level, Whole;
    forall i | 0 <= i < |name|
      ensures Ordinary(name[i]) && name[i] != '#' && name[i] != '=' && name[i] != ':' && name[i] != ',' && name[i] != '\n' && name[i] != '\r'
    {
      BareIsOrdinary(name[i]);
    }
    BareIsOrdinary(name[0]);
    BareIsOrdinary(name[|name| - 1]);
    OrdinaryIsLevel(name);
    assert Ordinary(name[0]) && !Ordinary('"') && !Ordinary('}') by { hide *; NotOrdinary(); }
  }

  lemma NotOrdinary()
    ensures !Ordinary('"') && !Ordinary('}')
  {}

  lemma {:induction false} BareReads(c: Codec, name: string)
    requires Bare(c, name)
    ensures ConfigKey(c, name) == ConfigKey(c, name + " ") == ConfigKey(c, " " + name) == ConfigKey(c, " " + name + " ") == Some(name)
  {
    BareIsSolid(name);
    TrimOfTight(name);
    assert BareChar(name[0]);
    hide Trim, Split, JsonText, Unquote, ConfigItems, ConfigFields, Unpair, IsSpace, Level, Whole;
    OnlyTrimCounts(c, name + " ", name);
    OnlyTrimCounts(c, " " + name, name);
    OnlyTrimCounts(c, " " + name + " ", name);
    assert ConfigValue(c, name) == Some(JString(name));
  }

  // ----- text without quotes -----

  /** What a text means that begins neither with a bracket nor with a quote. */
  ghost predicate MeansBare(c: Codec, t: string, value: Option<Json>) {
    && (t == "true" ==> value == Some(JBool(true)))
    && (t == "false" ==> value == Some(JBool(false)))
    && (t == "null" || t == "~" ==> value == Some(JNull))
    && (t != "true" && t != "false" && t != "null" && t != "~" ==>
          match c.parseFloat(t)
          case Some(number) => value == Some(JNumber(number))
          case None =>
            if "&" <= t || "*" <= t || "!" <= t || "|" <= t || ">" <= t then value == None
            else value == Some(JString(t)))
  }

  /** A truth value, nothing, a number, a refused feature of YAML, or else the text itself. */
  lemma {:induction false} UnquotedReads(c: Codec, t: string)
    requires t != "" && !IsSpace(t[0]) && !IsSpace(t[|t| - 1]) && t[0] != '[' && t[0] != '{' && t[0] != '"' && t[0] != '\''
    ensures MeansBare(c, t, ConfigValue(c, t))
  {
    TrimOfTight(t);
    hide Trim, Split, JsonText, Unquote, ConfigItems, ConfigFields, Unpair, IsSpace;
  }

  // ----- maps in braces -----

  datatype Pair = Pair(name: string, value: Json)

  function Sign(colon: bool): string { if colon then ":" else " =" }

  function PairText(c: Codec, pair: Pair, colon: bool): string
    requires Sound(c)
  {
    pair.name + Sign(colon) + " " + (if Encode(c, pair.value).Some? then Encode(c, pair.value).value else "")
  }

  function PairTexts(c: Codec, pairs: seq<Pair>, colon: bool): seq<string>
    requires Sound(c)
  {
    if pairs == [] then [] else [PairText(c, pairs[0], colon)] + PairTexts(c, pairs[1..], colon)
  }

  function Braces(c: Codec, pairs: seq<Pair>, colon: bool): string
    requires Sound(c)
  {
    "{" + JoinWith(PairTexts(c, pairs, colon), ", ") + "}"
  }

  /** Of two entries of one name the later one counts. */
  function Mapped(pairs: seq<Pair>, sofar: map<string, Json>): map<string, Json>
    decreases |pairs|
  {
    if pairs == [] then sofar else Mapped(pairs[1..], sofar[pairs[0].name := pairs[0].value])
  }

  ghost predicate PairFair(c: Codec, pair: Pair)
    requires Sound(c)
  {
    Bare(c, pair.name) && Numeric(c, pair.value) && Encode(c, pair.value).Some?
  }

  ghost predicate PairsFair(c: Codec, pairs: seq<Pair>)
    requires Sound(c)
  {
    forall i :: 0 <= i < |pairs| ==> PairFair(c, pairs[i])
  }

  ghost predicate ValuesNamed(pairs: seq<Pair>) { forall i :: 0 <= i < |pairs| ==> KeysNamed(pairs[i].value) }

  lemma {:induction false} SignScans(colon: bool)
    ensures Level(Sign(colon) + " ") && OneLine(Sign(colon) + " ") && Whole(TOP, Sign(colon) + " ", ',')
    ensures !colon ==> Whole(TOP, Sign(colon) + " ", ':')
  {
    OrdinaryIsLevel(Sign(colon) + " ");
  }

  /** One entry as text: level, on one line, one piece between commas. */
  lemma {:induction false} PairScans(c: Codec, pair: Pair, colon: bool)
    requires Sound(c) && PairFair(c, pair)
    ensures var t := PairText(c, pair, colon); Level(t) && OneLine(t) && Whole(TOP, t, ',') && Walk(TOP, t) == TOP
  {
    BareIsSolid(pair.name);
    ValueIsSolid(c, pair.value);
    var k, sign, t := pair.name, Sign(colon) + " ", Encode(c, pair.value).value;
    SignScans(colon);
    PairIs(c, pair, colon);
    hide *;
    SolidScans(k);
    SolidScans(t);
    LevelAppend(k, sign);
    LevelAppend(k + sign, t);
    LevelWalks(k + sign);
    LevelWalks(k + sign + t);
    WholeAppend(TOP, k, sign, ',');
    WholeAppend(TOP, k + sign, t, ',');
    OneLineBoth(k, sign);
    OneLineBoth(k + sign, t);
  }

  lemma {:induction false} PairIs(c: Codec, pair: Pair, colon: bool)
    requires Sound(c) && Encode(c, pair.value).Some?
    ensures PairText(c, pair, colon) == pair.name + (Sign(colon) + " ") + Encode(c, pair.value).value
  {
    hide Encode, Enumerates;
    assert pair.name + Sign(colon) + " " == pair.name + (Sign(colon) + " ");
  }

  lemma {:induction false} LevelWalks(t: string)
    requires Level(t)
    ensures Walk(TOP, t) == TOP
  {}

  lemma {:induction false} OneLineBoth(a: string, b: string)
    requires OneLine(a) && OneLine(b)
    ensures OneLine(a + b)
  {}

  lemma {:induction false} ColonCuts(first: string, second: string)
    requires Whole(TOP, first, ':') && Walk(TOP, first) == TOP && Whole(TOP, second, ':')
    ensures Split(first + (":" + second), ':') == [first, second]
  {
    SplitOver(TOP, "", first, ":" + second, ':');
    assert "" + first == first;
    ColonStep(first, second);
    OnePiece(second, ':');
    hide SplitFrom, Whole, Walk;
    assert [first] + [second] == [first, second];
  }

  lemma {:induction false} ColonStep(piece: string, rest: string)
    ensures SplitFrom(TOP, piece, ":" + rest, ':') == [piece] + SplitFrom(TOP, "", rest, ':')
  {
    var s := ":" + rest;
    assert s[0] == ':' && s[1..] == rest && Cuts(TOP, ':', ':') && Step(TOP, ':') == TOP;
  }

  lemma {:induction false} LeadScans(lead: string, k: string, d: char)
    requires (lead == "" || lead == " ") && Walk(TOP, k) == TOP && Whole(TOP, k, d) && (d == ':' || d == '=')
    ensures Walk(TOP, lead + k) == TOP && Whole(TOP, lead + k, d)
    ensures Walk(TOP, lead + k + " ") == TOP && Whole(TOP, lead + k + " ", d)
  {
    hide *;
    SpacesScan();
    WalkAppend(TOP, lead, k);
    WholeAppend(TOP, lead, k, d);
    WalkAppend(TOP, lead + k, " ");
    WholeAppend(TOP, lead + k, " ", d);
  }

  /** One entry: its pieces, the key they name, and the value they hold. */
  ghost predicate PairRead(c: Codec, piece: string, pair: Pair) {
    var byColon := Split(piece, ':');
    var parts := if |byColon| == 2 then byColon else Split(piece, '=');
    |parts| == 2 && ConfigKey(c, parts[0]) == Some(pair.name) && ConfigValue(c, parts[1]) == if KeysNamed(pair.value) then Some(pair.value) else None
  }

  lemma {:induction false} ColonReads(c: Codec, k: string, t: string, v: Json, lead: string)
    requires Sound(c) && Bare(c, k) && Solid(k) && Numeric(c, v) && Encode(c, v) == Some(t) && Solid(t) && (lead == "" || lead == " ")
    ensures PairRead(c, lead + (k + (":" + " ") + t), Pair(k, v))
  {
    hide *;
    SolidScans(k);
    SolidScans(t);
    LeadScans(lead, k, ':');
    SpacesScan();
    WholeAppend(TOP, " ", t, ':');
    var piece := lead + (k + (":" + " ") + t);
    assert piece == (lead + k) + (":" + (" " + t));
    ColonCuts(lead + k, " " + t);
    BareReads(c, k);
    assert lead == "" ==> lead + k == k;
    ValueBehindSpace(c, v, t);
    PairReadBy(c, piece, Pair(k, v), lead + k, " " + t, true);
  }

  lemma {:induction false} EqualsReads(c: Codec, k: string, t: string, v: Json, lead: string)
    requires Sound(c) && Bare(c, k) && Solid(k) && Numeric(c, v) && Encode(c, v) == Some(t) && Solid(t) && (lead == "" || lead == " ")
    ensures PairRead(c, lead + (k + (" =" + " ") + t), Pair(k, v))
  {
    hide *;
    SolidScans(k);
    SolidScans(t);
    LeadScans(lead, k, '=');
    LeadScans(lead, k, ':');
    SpacesScan();
    WholeAppend(TOP, " ", t, '=');
    var piece := lead + (k + (" =" + " ") + t);
    assert piece == (lead + k + " ") + ("=" + (" " + t));
    SplitsAtEquals(lead + k + " ", " " + t);
    EntryIsWhole(lead, k, t, ':');
    assert lead + (k + " = " + t) == piece;
    OnePiece(piece, ':');
    BareReads(c, k);
    assert lead == "" ==> lead + k + " " == k + " ";
    ValueBehindSpace(c, v, t);
    PairReadBy(c, piece, Pair(k, v), lead + k + " ", " " + t, false);
  }

  lemma {:induction false} PairReadBy(c: Codec, piece: string, pair: Pair, first: string, second: string, colon: bool)
    requires if colon then Split(piece, ':') == [first, second] else Split(piece, ':') == [piece] && Split(piece, '=') == [first, second]
    requires ConfigKey(c, first) == Some(pair.name)
    requires ConfigValue(c, second) == if KeysNamed(pair.value) then Some(pair.value) else None
    ensures PairRead(c, piece, pair)
  {
    hide Split, ConfigKey, ConfigValue, KeysNamed;
  }

  lemma {:induction false} ValueBehindSpace(c: Codec, v: Json, t: string)
    requires Sound(c) && Numeric(c, v) && Encode(c, v) == Some(t)
    ensures ConfigValue(c, " " + t) == if KeysNamed(v) then Some(v) else None
  {
    ValueIsSolid(c, v);
    hide *;
    SolidScans(t);
    TrimOfTight(t);
    ConfigReads(c, v, t);
    OnlyTrimCounts(c, " " + t, t);
  }

  lemma {:induction false} PairReads(c: Codec, pair: Pair, colon: bool, lead: string)
    requires Sound(c) && PairFair(c, pair) && (lead == "" || lead == " ")
    ensures PairRead(c, lead + PairText(c, pair, colon), pair)
  {
    BareIsSolid(pair.name);
    ValueIsSolid(c, pair.value);
    PairIs(c, pair, colon);
    assert Sign(true) + " " == ":" + " " && Sign(false) + " " == " =" + " ";
    hide PairRead, PairText, Solid, Encode, Numeric, Bare, Enumerates;
    if colon { ColonReads(c, pair.name, Encode(c, pair.value).value, pair.value, lead); }
    else { EqualsReads(c, pair.name, Encode(c, pair.value).value, pair.value, lead); }
  }

  ghost predicate AllPairsRead(c: Codec, pieces: seq<string>, pairs: seq<Pair>) {
    |pieces| == |pairs| && forall i :: 0 <= i < |pairs| ==> PairRead(c, pieces[i], pairs[i])
  }

  lemma {:induction false} AllPairsNext(c: Codec, pieces: seq<string>, pairs: seq<Pair>)
    requires AllPairsRead(c, pieces, pairs) && pairs != []
    ensures pieces != [] && PairRead(c, pieces[0], pairs[0]) && AllPairsRead(c, pieces[1..], pairs[1..])
  {
    hide PairRead;
  }

  lemma {:induction false} ValuesNamedNext(pairs: seq<Pair>)
    requires pairs != []
    ensures ValuesNamed(pairs) <==> KeysNamed(pairs[0].value) && ValuesNamed(pairs[1..])
  {
    hide KeysNamed;
    var rest := pairs[1..];
    assert forall i :: 0 <= i < |rest| ==> rest[i] == pairs[i + 1];
    if KeysNamed(pairs[0].value) && ValuesNamed(rest) {
      forall i | 0 <= i < |pairs| ensures KeysNamed(pairs[i].value) { if i > 0 { assert pairs[i] == rest[i - 1]; } }
    }
  }

  lemma {:induction false} OnePair(c: Codec, pieces: seq<string>, n: nat, sofar: map<string, Json>, pair: Pair)
    requires pieces != [] && (forall p :: p in pieces ==> |p| < n) && PairRead(c, pieces[0], pair)
    ensures forall p :: p in pieces[1..] ==> |p| < n
    ensures ConfigFields(c, pieces, n, sofar)
      == if KeysNamed(pair.value) then ConfigFields(c, pieces[1..], n, sofar[pair.name := pair.value]) else None
  {
    hide ConfigValue, SplitFrom, KeyOf, KeysNamed;
  }

  lemma {:induction false} PairsAsFields(c: Codec, pieces: seq<string>, pairs: seq<Pair>, n: nat, sofar: map<string, Json>)
    requires AllPairsRead(c, pieces, pairs) && (forall p :: p in pieces ==> |p| < n)
    ensures ConfigFields(c, pieces, n, sofar) == if ValuesNamed(pairs) then Some(Mapped(pairs, sofar)) else None
    decreases |pairs|
  {
    if pairs == [] {
      hide PairRead, KeysNamed;
      assert pieces == [];
    } else {
      hide *;
      AllPairsNext(c, pieces, pairs);
      OnePair(c, pieces, n, sofar, pairs[0]);
      ValuesNamedNext(pairs);
      MappedNext(pairs, sofar);
      PairsAsFields(c, pieces[1..], pairs[1..], n, sofar[pairs[0].name := pairs[0].value]);
    }
  }

  lemma {:induction false} MappedNext(pairs: seq<Pair>, sofar: map<string, Json>)
    requires pairs != []
    ensures Mapped(pairs, sofar) == Mapped(pairs[1..], sofar[pairs[0].name := pairs[0].value])
  {}

  lemma {:induction false} TextsOfPairs(c: Codec, pairs: seq<Pair>, colon: bool)
    requires Sound(c) && PairsFair(c, pairs)
    ensures var texts := PairTexts(c, pairs, colon);
      && |texts| == |pairs| && (forall i :: 0 <= i < |pairs| ==> texts[i] == PairText(c, pairs[i], colon))
      && (forall p :: p in texts ==> Level(p) && OneLine(p) && Whole(TOP, p, ','))
    decreases |pairs|
  {
    if pairs != [] {
      assert PairFair(c, pairs[0]);
      assert forall i :: 0 <= i < |pairs| - 1 ==> pairs[1..][i] == pairs[i + 1];
      hide PairFair, PairText, Level, OneLine, Whole, Enumerates;
      PairScans(c, pairs[0], colon);
      TextsOfPairs(c, pairs[1..], colon);
    }
  }

  /** A map in braces scans as one value. */
  lemma {:induction false} BracesAreSolid(c: Codec, pairs: seq<Pair>, colon: bool)
    requires Sound(c) && PairsFair(c, pairs)
    ensures Solid(Braces(c, pairs, colon)) && Braces(c, pairs, colon)[0] == '{'
  {
    TextsOfPairs(c, pairs, colon);
    var texts := PairTexts(c, pairs, colon);
    hide PairTexts, Level, OneLine, Whole, PairsFair, Solid, Enumerates;
    JoinedIsLevel(texts);
    BracketedIsSolid('{', JoinWith(texts, ", "), '}');
  }

  lemma {:induction false} FirstIsBare(c: Codec, pairs: seq<Pair>, colon: bool)
    requires Sound(c) && PairsFair(c, pairs) && pairs != []
    ensures var s := JoinWith(PairTexts(c, pairs, colon), ", "); s != "" && BareChar(s[0])
  {
    assert PairFair(c, pairs[0]);
    hide Encode, Numeric, Enumerates;
    var texts := PairTexts(c, pairs, colon);
    JoinedStart(texts, ", ");
    assert texts[0][0] == pairs[0].name[0];
  }

  /** A map that begins with a bare key is no JSON. */
  lemma {:induction false} BareIsNoJson(c: Codec, s: string)
    requires s != "" && BareChar(s[0])
    ensures JsonText(c, "{" + s + "}").None?
  {
    assert "{" + s + "}" == "{" + (s + "}") && (s + "}")[0] == s[0];
    MapBegins(c, s + "}");
    NoSpaceToSkip(s + "}");
    hide JsonValue;
  }

  lemma {:induction false} PiecesOfPairs(c: Codec, pairs: seq<Pair>, colon: bool)
    requires Sound(c) && PairsFair(c, pairs) && pairs != []
    ensures AllPairsRead(c, Split(JoinWith(PairTexts(c, pairs, colon), ", "), ','), pairs)
  {
    TextsOfPairs(c, pairs, colon);
    var texts := PairTexts(c, pairs, colon);
    hide PairTexts, Level, OneLine, Whole, Enumerates, PairFair, PairText, PairRead, SplitFrom;
    SplitJoined("", texts);
    SplitIs(JoinWith(texts, ", "), ',');
    assert "" + texts[0] == texts[0];
    SpacedAt(texts[1..]);
    var pieces := [texts[0]] + Spaced(texts[1..]);
    forall i | 0 <= i < |pairs| ensures PairRead(c, pieces[i], pairs[i]) {
      assert PairFair(c, pairs[i]);
      PairReads(c, pairs[i], colon, if i == 0 then "" else " ");
      assert i > 0 ==> pieces[i] == " " + texts[i];
      assert "" + texts[0] == texts[0];
    }
  }

  /** A map in braces, with bare keys before either sign, is the map of its entries, unless a map inside one has a key
      without a name: then it is refused. */
  lemma {:induction false} BracesRead(c: Codec, pairs: seq<Pair>, colon: bool)
    requires Sound(c) && PairsFair(c, pairs) && pairs != []
    ensures ConfigValue(c, Braces(c, pairs, colon)) == if ValuesNamed(pairs) then Some(JObject(Mapped(pairs, map[]))) else None
  {
    hide *;
    var s := JoinWith(PairTexts(c, pairs, colon), ", ");
    var t := Braces(c, pairs, colon);
    BracesIs(c, pairs, colon);
    BracesAreSolid(c, pairs, colon);
    SolidScans(t);
    TrimOfTight(t);
    FirstIsBare(c, pairs, colon);
    BareIsNoJson(c, s);
    assert t[1..|t| - 1] == s;
    MapValue(c, t);
    PiecesOfPairs(c, pairs, colon);
    PairsAsFields(c, Split(s, ','), pairs, |t| - 1, map[]);
  }

  lemma {:induction false} BracesIs(c: Codec, pairs: seq<Pair>, colon: bool)
    requires Sound(c)
    ensures Braces(c, pairs, colon) == "{" + JoinWith(PairTexts(c, pairs, colon), ", ") + "}"
  {
    hide PairTexts, JoinWith, Enumerates;
  }

  ghost predicate NamesApart(pairs: seq<Pair>) { forall i, j :: 0 <= i < j < |pairs| ==> pairs[i].name != pairs[j].name }

  lemma {:induction false} MappedHolds(pairs: seq<Pair>, sofar: map<string, Json>)
    requires NamesApart(pairs)
    ensures var m := Mapped(pairs, sofar);
      && (forall i :: 0 <= i < |pairs| ==> pairs[i].name in m && m[pairs[i].name] == pairs[i].value)
      && (forall k :: k in m ==> (exists i :: 0 <= i < |pairs| && pairs[i].name == k) || (k in sofar && m[k] == sofar[k]))
      && (forall k :: k in sofar && (forall i :: 0 <= i < |pairs| ==> pairs[i].name != k) ==> k in m && m[k] == sofar[k])
    decreases |pairs|
  {
    if pairs != [] {
      var rest, next := pairs[1..], sofar[pairs[0].name := pairs[0].value];
      assert forall i :: 0 <= i < |rest| ==> rest[i] == pairs[i + 1];
      MappedHolds(rest, next);
      var m := Mapped(rest, next);
      forall i | 0 <= i < |pairs| ensures pairs[i].name in m && m[pairs[i].name] == pairs[i].value {
        if i > 0 { assert rest[i - 1] == pairs[i]; }
      }
      forall k | k in m ensures (exists i :: 0 <= i < |pairs| && pairs[i].name == k) || (k in sofar && m[k] == sofar[k]) {
        if i :| 0 <= i < |rest| && rest[i].name == k { assert pairs[i + 1].name == k; }
        else if k == pairs[0].name { assert pairs[0].name == k; }
      }
      forall k | k in sofar && (forall i :: 0 <= i < |pairs| ==> pairs[i].name != k) ensures k in m && m[k] == sofar[k] {
        assert pairs[0].name != k;
        forall i | 0 <= i < |rest| ensures rest[i].name != k { assert rest[i] == pairs[i + 1]; }
      }
    }
  }

  /** With names apart, the map has its keys named exactly when the values have. */
  lemma {:induction false} MappedIsNamed(c: Codec, pairs: seq<Pair>)
    requires Sound(c) && PairsFair(c, pairs) && NamesApart(pairs)
    ensures KeysNamed(JObject(Mapped(pairs, map[]))) <==> ValuesNamed(pairs)
  {
    MappedHolds(pairs, map[]);
    var m := Mapped(pairs, map[]);
    assert forall i :: 0 <= i < |pairs| ==> pairs[i].name != "" by {
      forall i | 0 <= i < |pairs| ensures pairs[i].name != "" { assert PairFair(c, pairs[i]); }
    }
    hide Mapped, PairFair, Enumerates, PairsFair, NamesApart;
    if KeysNamed(JObject(m)) {
      forall i | 0 <= i < |pairs| ensures KeysNamed(pairs[i].value) { assert m[pairs[i].name] == pairs[i].value; }
    }
    if ValuesNamed(pairs) {
      forall k | k in m ensures KeysNamed(m[k]) {
        var i :| 0 <= i < |pairs| && pairs[i].name == k;
        assert KeysNamed(pairs[i].value);
      }
    }
  }
}
