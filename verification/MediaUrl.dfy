/** Media and the URLs that carry them: base64, data URLs, and what a reader makes of either
    (internal/session/util.go:229-281, 313-322). */
module MediaUrl {
  import opened Basics
  import opened Text

  // ----- base64 -----

  /** A text without its line breaks, which the decoder skips. */
  function Unbroken(s: string): string {
    if s == "" then "" else (if s[0] in {'\r', '\n'} then "" else [s[0]]) + Unbroken(s[1..])
  }

  predicate Digit64(c: char, urlSafe: bool) {
    || 'a' <= c <= 'z' || 'A' <= c <= 'Z' || '0' <= c <= '9'
    || (if urlSafe then c in {'-', '_'} else c in {'+', '/'})
  }

  /** A text without the padding at its end. */
  function Unpadded(t: string): string {
    if |t| >= 2 && t[|t| - 2..] == "==" then t[..|t| - 2]
    else if t != "" && t[|t| - 1] == '=' then t[..|t| - 1]
    else t
  }

  predicate Decodes(t: string, urlSafe: bool) {
    && (forall c :: c in Unpadded(t) ==> Digit64(c, urlSafe))
    && (if Unpadded(t) == t then |t| % 4 != 1 else |t| % 4 == 0)
  }

  /** One of Go's four encodings accepts the text: standard or URL-safe, padded or not. */
  predicate IsBase64(s: string) { Decodes(Unbroken(s), false) || Decodes(Unbroken(s), true) }

  lemma {:induction false} UnbrokenHolds(s: string)
    ensures forall c :: c in s ==> c in {'\r', '\n'} || c in Unbroken(s)
  {
    if s != "" { UnbrokenHolds(s[1..]); }
  }

  lemma {:induction false} PaddingTaken(t: string) returns (pad: string)
    ensures (pad == "" || pad == "=" || pad == "==") && t == Unpadded(t) + pad
  {
    if |t| >= 2 && t[|t| - 2..] == "==" {
      pad := "==";
      assert t == t[..|t| - 2] + pad;
    } else if t != "" && t[|t| - 1] == '=' {
      pad := "=";
      assert t == t[..|t| - 1] + pad;
    } else {
      pad := "";
      assert t == t + pad;
    }
  }

  lemma {:induction false} PaddingOnly(t: string)
    ensures forall c :: c in t ==> c in Unpadded(t) || c == '='
  {
    var pad := PaddingTaken(t);
    hide Unpadded;
    forall c | c in t ensures c in Unpadded(t) || c == '=' {
      if c !in Unpadded(t) { assert c in pad; }
    }
  }

  /** The characters of base64 and the line breaks inside it. */
  predicate Char64(c: char) { c in {'\r', '\n', '='} || Digit64(c, false) || Digit64(c, true) }

  lemma {:induction false} CharsOfBase64(s: string)
    requires IsBase64(s)
    ensures forall c :: c in s ==> Char64(c)
  {
    UnbrokenHolds(s);
    PaddingOnly(Unbroken(s));
  }

  lemma {:induction false} NoSemicolon(s: string)
    requires ';' in s
    ensures !IsBase64(s)
  {
    hide IsBase64;
    if IsBase64(s) { CharsOfBase64(s); }
  }

  lemma {:induction false} UnbrokenSnoc(s: string, c: char)
    ensures Unbroken(s + [c]) == Unbroken(s) + (if c in {'\r', '\n'} then "" else [c])
  {
    if s == "" {
      assert s + [c] == [c] && [c][1..] == "";
    } else {
      assert (s + [c])[0] == s[0] && (s + [c])[1..] == s[1..] + [c];
      UnbrokenSnoc(s[1..], c);
    }
  }

  lemma {:induction false} UnbrokenLeft(s: string)
    requires forall c :: c in s ==> Char64(c)
    ensures Unbroken(TrimLeft(s)) == Unbroken(s) && (forall c :: c in TrimLeft(s) ==> Char64(c))
  {
    if s != "" && IsSpace(s[0]) {
      assert Char64(s[0]);
      UnbrokenLeft(s[1..]);
    }
  }

  lemma {:induction false} UnbrokenRight(s: string)
    requires forall c :: c in s ==> Char64(c)
    ensures Unbroken(TrimRight(s)) == Unbroken(s)
  {
    if s != "" && IsSpace(s[|s| - 1]) {
      assert Char64(s[|s| - 1]);
      assert s == s[..|s| - 1] + [s[|s| - 1]];
      UnbrokenSnoc(s[..|s| - 1], s[|s| - 1]);
      UnbrokenRight(s[..|s| - 1]);
    }
  }

  /** Only line breaks are trimmed from base64, so it stays base64. */
  lemma {:induction false} TrimmedBase64(s: string)
    requires IsBase64(s)
    ensures IsBase64(Trim(s))
  {
    CharsOfBase64(s);
    UnbrokenLeft(s);
    UnbrokenRight(TrimLeft(s));
  }

  // ----- media -----

  /** Media as a part holds them; empty `data` is none. */
  datatype MediaRef = MediaRef(mediaType: string, data: string, url: string, filename: string)

  /** Media that the check accepts: with data or URL, base64 if inline, and of some type. */
  predicate SoundMedia(m: MediaRef) { (m.data == "" ==> m.url != "") && (m.data != "" ==> IsBase64(m.data)) && !Blank(m.mediaType) }

  const DATA_SCHEME := "data:"
  const ANY_TYPE := "application/octet-stream"

  /** The text before and after the first comma. */
  function Cut(s: string): (r: Option<(string, string)>)
    ensures r.Some? ==> |r.value.0| + |r.value.1| < |s|
  {
    if s == "" then None
    else if s[0] == ',' then Some(("", s[1..]))
    else
      var later := Cut(s[1..]);
      if later.None? then None else Some(([s[0]] + later.value.0, later.value.1))
  }

  /** The fields that semicolons separate. */
  function Fields(s: string): (fields: seq<string>)
    ensures fields != []
  {
    if s == "" then [""]
    else
      var rest := Fields(s[1..]);
      if s[0] == ';' then [""] + rest else [[s[0]] + rest[0]] + rest[1..]
  }

  predicate IsDataUrl(url: string) { |url| >= 5 && SameFolded(url[..5], DATA_SCHEME) }

  /** An inline payload, if it is marked and decodes as base64. */
  function ReadDataUrl(url: string, mediaType: string, filename: string): Option<MediaRef>
    requires IsDataUrl(url)
  {
    var cut := Cut(url);
    if cut.None? then None
    else
      var fields := Fields(if |cut.value.0| >= 5 then cut.value.0[5..] else cut.value.0);
      var payload := Trim(cut.value.1);
      var named := if mediaType == "" then fields[0] else mediaType;
      if !(exists field :: field in fields[1..] && SameFolded(field, "base64")) || payload == "" || !IsBase64(payload) then None
      else Some(MediaRef(if named == "" then ANY_TYPE else named, payload, "", filename))
  }

  function ReadMedia(rawUrl: string, rawType: string, filename: string): Option<MediaRef> {
    var url, mediaType := Trim(rawUrl), Trim(rawType);
    if IsDataUrl(url) then ReadDataUrl(url, mediaType, filename)
    else if url == "" then None
    else Some(MediaRef(if mediaType == "" then ANY_TYPE else mediaType, "", url, filename))
  }

  const MARK := ";base64,"

  /** The URL that stands for media in a record: a data URL for inline ones. */
  function UrlOf(m: MediaRef): string {
    if m.data != "" then DATA_SCHEME + (if m.mediaType == "" then ANY_TYPE else m.mediaType) + MARK + m.data else m.url
  }

  // ----- what reading makes of a data URL -----

  lemma {:induction false} TrimRightAfter(pre: string, s: string)
    requires pre != "" && !IsSpace(pre[|pre| - 1])
    ensures TrimRight(pre + s) == pre + TrimRight(s)
  {
    hide IsSpace;
    if s == "" {
      assert pre + s == pre && pre + "" == pre;
    } else {
      assert (pre + s)[|pre + s| - 1] == s[|s| - 1] && (pre + s)[..|pre + s| - 1] == pre + s[..|s| - 1];
      if IsSpace(s[|s| - 1]) { TrimRightAfter(pre, s[..|s| - 1]); }
    }
  }

  lemma {:induction false} TrimRightFirst(s: string)
    ensures Trim(TrimRight(s)) == Trim(s)
  {
    hide IsSpace;
    if s != "" && IsSpace(s[|s| - 1]) {
      var t, c := s[..|s| - 1], s[|s| - 1];
      TrimRightFirst(t);
      assert s == t + [c];
      TrimLeftSpaceAfter(t, c);
      TrimLeftBlank(t);
      assert (TrimLeft(t) + [c])[..|TrimLeft(t)|] == TrimLeft(t);
    }
  }

  lemma {:induction false} CutFirst(a: string, b: string)
    requires ',' !in a
    ensures Cut(a + "," + b) == Some((a, b))
  {
    if a == "" {
      assert "" + "," + b == "," + b && ("," + b)[1..] == b;
    } else {
      assert (a + "," + b)[0] == a[0] && (a + "," + b)[1..] == a[1..] + "," + b;
      CutFirst(a[1..], b);
      assert [a[0]] + a[1..] == a;
    }
  }

  lemma {:induction false} CutEarlier(a: string, b: string)
    requires ',' in a
    ensures Cut(a + b).Some? && exists k :: 0 <= k <= |a| && Cut(a + b).value.1 == a[k..] + b
  {
    assert (a + b)[0] == a[0] && (a + b)[1..] == a[1..] + b;
    if a[0] == ',' {
      assert Cut(a + b).value.1 == a[1..] + b;
    } else {
      CutEarlier(a[1..], b);
      var k :| 0 <= k <= |a[1..]| && Cut(a[1..] + b).value.1 == a[1..][k..] + b;
      assert a[1..][k..] == a[k + 1..];
    }
  }

  lemma {:induction false} LastField(a: string)
    ensures |Fields(a + ";base64")| >= 2 && "base64" in Fields(a + ";base64")[1..]
  {
    if a == "" {
      assert "" + ";base64" == ";base64";
      PlainField("base64");
      assert ";base64"[1..] == "base64";
    } else {
      assert (a + ";base64")[0] == a[0] && (a + ";base64")[1..] == a[1..] + ";base64";
      LastField(a[1..]);
      var rest := Fields(a[1..] + ";base64");
      assert ([""] + rest)[1..] == rest && ([[a[0]] + rest[0]] + rest[1..])[1..] == rest[1..];
      assert forall x :: x in rest[1..] ==> x in rest;
    }
  }

  lemma {:induction false} PlainField(s: string)
    requires ';' !in s
    ensures Fields(s) == [s]
  {
    if s != "" {
      PlainField(s[1..]);
      assert [s[0]] + s[1..] == s;
    }
  }

  lemma {:induction false} DataUrlTrims(mediaType: string, data: string)
    ensures Trim(DATA_SCHEME + mediaType + MARK + data) == DATA_SCHEME + mediaType + MARK + TrimRight(data)
    ensures IsDataUrl(DATA_SCHEME + mediaType + MARK + TrimRight(data))
  {
    var pre := DATA_SCHEME + mediaType + MARK;
    var url := pre + TrimRight(data);
    assert pre[0] == 'd' && pre[|pre| - 1] == ',' && (pre + data)[0] == 'd';
    TrimRightAfter(pre, data);
    assert url[..5] == DATA_SCHEME;
  }

  lemma {:induction false} InlineBack(mediaType: string, data: string, filename: string)
    requires !Blank(mediaType)
    ensures ReadMedia(DATA_SCHEME + mediaType + MARK + data, mediaType, filename) ==
      if ',' in mediaType || Trim(data) == "" || !IsBase64(Trim(data)) then None
      else Some(MediaRef(Trim(mediaType), Trim(data), "", filename))
  {
    hide Trim, TrimRight, SameFolded, Fields, Cut, IsDataUrl, IsBase64;
    var url := DATA_SCHEME + mediaType + MARK + TrimRight(data);
    DataUrlTrims(mediaType, data);
    TrimIsTight(mediaType);
    TrimRightFirst(data);
    var head := DATA_SCHEME + mediaType + ";base64";
    assert url == head + "," + TrimRight(data);
    if ',' in mediaType {
      var a := DATA_SCHEME + mediaType;
      assert a[5..] == mediaType && ',' in a;
      assert url == a + (MARK + TrimRight(data));
      CutEarlier(a, MARK + TrimRight(data));
      var k :| 0 <= k <= |a| && Cut(url).value.1 == a[k..] + (MARK + TrimRight(data));
      SemicolonStays(a[k..], TrimRight(data));
      NoSemicolon(Trim(Cut(url).value.1));
    } else {
      assert ',' !in head;
      CutFirst(head, TrimRight(data));
      assert head[5..] == mediaType + ";base64";
      LastField(mediaType);
      FoldsToItself();
    }
  }

  lemma {:induction false} FoldsToItself()
    ensures SameFolded("base64", "base64")
  {}

  /** Trimming does not reach into the mark. */
  lemma {:induction false} SemicolonStays(a: string, b: string)
    ensures ';' in Trim(a + (MARK + b))
  {
    if a != "" && IsSpace(a[0]) {
      assert (a + (MARK + b))[0] == a[0] && (a + (MARK + b))[1..] == a[1..] + (MARK + b);
      SemicolonStays(a[1..], b);
    } else {
      var s, pre := a + (MARK + b), a + MARK;
      assert s[0] == if a == "" then ';' else a[0];
      assert s == pre + b && pre[|pre| - 1] == ',';
      TrimRightAfter(pre, b);
      assert pre[|a|] == ';' && (pre + TrimRight(b))[|a|] == ';';
    }
  }

  // ----- what a record that also gives the type carries -----

  /** What reading makes of media written with their type beside their URL. */
  function Carried(m: MediaRef): Option<MediaRef> { ReadMedia(UrlOf(m), m.mediaType, m.filename) }

  /** Inline media that are only inline and whose type holds no comma, or a link that is none of data; no space around
      what they are made of. */
  predicate Carries(m: MediaRef) {
    && m.mediaType == Trim(m.mediaType)
    && if m.data == "" then m.url == Trim(m.url) && !IsDataUrl(m.url) else m.url == "" && ',' !in m.mediaType && m.data == Trim(m.data)
  }

  /** How much there is to lose: a link may be read as data, and data are read plainly or not at all. */
  function Rank(m: MediaRef): (n: nat)
    ensures 1 <= n <= 3
  {
    if Carries(m) then 1 else if m.data != "" then 2 else 3
  }

  lemma {:induction false} InlineCarried(m: MediaRef)
    requires SoundMedia(m) && m.data != ""
    ensures Carried(m) == if ',' in m.mediaType || Trim(m.data) == "" then None
      else Some(MediaRef(Trim(m.mediaType), Trim(m.data), "", m.filename))
  {
    hide Trim, ReadMedia, IsBase64;
    InlineBack(m.mediaType, m.data, m.filename);
    TrimmedBase64(m.data);
    assert m.mediaType != "" by { assert !Blank(m.mediaType); }
  }

  lemma {:induction false} LinkCarried(m: MediaRef)
    requires SoundMedia(m) && m.data == ""
    ensures var r := Carried(m);
      if IsDataUrl(Trim(m.url)) then r.Some? ==> r.value.data != ""
      else r == if Trim(m.url) == "" then None else Some(MediaRef(Trim(m.mediaType), "", Trim(m.url), m.filename))
  {
    hide IsDataUrl, Cut, Fields, SameFolded, IsBase64;
    TrimIsTight(m.mediaType);
  }

  /** Media come through such a record as they were exactly when they are of those kinds. */
  lemma {:induction false} CarriedExactly(m: MediaRef)
    requires SoundMedia(m)
    ensures Carried(m) == Some(m) <==> Carries(m)
  {
    hide IsSpace, Blank, Trim, Carried, IsDataUrl, IsBase64;
    if m.data == "" { LinkCarried(m); } else { InlineCarried(m); }
  }

  /** And what comes through otherwise has less to lose. */
  lemma {:induction false} CarriedLoses(m: MediaRef)
    requires SoundMedia(m) && Carried(m).Some? && !Carries(m)
    ensures Rank(Carried(m).value) < Rank(m)
  {
    TrimTwice(m.mediaType);
    TrimTwice(m.data);
    TrimTwice(m.url);
    hide IsSpace, Blank, Trim, Carried, IsDataUrl, IsBase64;
    if m.data == "" {
      LinkCarried(m);
    } else {
      if ',' in Trim(m.mediaType) { TrimHolds(m.mediaType, ','); }
      InlineCarried(m);
    }
  }

  // ----- a small inline image -----

  const SHOT := MediaRef("image/png", "QQ==", "", "")

  lemma {:induction false} PayloadUnbroken()
    ensures Unbroken("QQ==") == "QQ=="
  {
    var one, two, three := "=", "==", "Q==";
    assert one[1..] == "" && Unbroken(one) == one;
    assert two[1..] == one && Unbroken(two) == two;
    assert three[1..] == two && Unbroken(three) == three;
    assert "QQ=="[1..] == three;
  }

  lemma {:induction false} PayloadDecodes()
    ensures IsBase64("QQ==")
  {
    PayloadUnbroken();
    hide Unbroken;
    var t := "QQ==";
    assert t[2..] == "==" && t[..2] == "QQ" && Unpadded(t) == "QQ";
  }

  lemma {:induction false} TypeIsPlain()
    ensures Trim("image/png") == "image/png" && !Blank("image/png") && Trim("QQ==") == "QQ=="
  {
    var t, u := "image/png", "QQ==";
    assert t[0] == 'i' && !IsSpace('i') && t[|t| - 1] == 'g' && !IsSpace('g');
    assert u[0] == 'Q' && !IsSpace('Q') && u[|u| - 1] == '=' && !IsSpace('=');
    TrimOfTight(t);
    TrimOfTight(u);
  }

  /** A small inline image is of the kind that records carry. */
  lemma {:induction false} ShotCarries()
    ensures SoundMedia(SHOT) && Carries(SHOT) && Carried(SHOT) == Some(SHOT)
  {
    PayloadDecodes();
    TypeIsPlain();
    hide Trim, Blank, Carried, IsBase64;
    CarriedExactly(SHOT);
  }

  // ----- base64 spells bytes, RFC 4648 sections 4 and 5 -----

  function Value64(c: char): nat {
    if 'A' <= c <= 'Z' then c as int - 'A' as int
    else if 'a' <= c <= 'z' then c as int - 'a' as int + 26
    else if '0' <= c <= '9' then c as int - '0' as int + 52
    else if c == '+' || c == '-' then 62 else 63
  }

  /** A digit of the standard alphabet, or of the one that is safe in URLs. */
  predicate DigitOf(c: char, urlSafe: bool) {
    || ('A' <= c <= 'Z') || ('a' <= c <= 'z') || ('0' <= c <= '9')
    || (urlSafe && (c == '-' || c == '_')) || (!urlSafe && (c == '+' || c == '/'))
  }

  predicate AllDigits(t: string, urlSafe: bool) { forall i :: 0 <= i < |t| ==> DigitOf(t[i], urlSafe) }

  /** Four digits spell three bytes; at the end two spell one and three spell two, with or without their padding. */
  predicate Spelt(bytes: seq<nat>, t: string, urlSafe: bool)
    decreases |t|
  {
    if t == "" then bytes == []
    else if |t| >= 4 && AllDigits(t[..4], urlSafe) then
      && |bytes| >= 3
      && bytes[0] == Value64(t[0]) * 4 + Value64(t[1]) / 16
      && bytes[1] == Value64(t[1]) % 16 * 16 + Value64(t[2]) / 4
      && bytes[2] == Value64(t[2]) % 4 * 64 + Value64(t[3])
      && Spelt(bytes[3..], t[4..], urlSafe)
    else if |t| >= 3 && AllDigits(t[..3], urlSafe) then
      && (t[3..] == "" || t[3..] == "=") && |bytes| == 2
      && bytes[0] == Value64(t[0]) * 4 + Value64(t[1]) / 16
      && bytes[1] == Value64(t[1]) % 16 * 16 + Value64(t[2]) / 4
    else
      |t| >= 2 && AllDigits(t[..2], urlSafe) && (t[2..] == "" || t[2..] == "==")
      && |bytes| == 1 && bytes[0] == Value64(t[0]) * 4 + Value64(t[1]) / 16
  }

  lemma {:induction false} DigitsAlike(c: char, urlSafe: bool)
    ensures DigitOf(c, urlSafe) <==> Digit64(c, urlSafe)
    ensures !DigitOf('=', urlSafe) && Value64(c) < 64
  {}

  lemma {:induction false} AllAlike(t: string, urlSafe: bool)
    ensures AllDigits(t, urlSafe) <==> forall c :: c in t ==> Digit64(c, urlSafe)
  {
    forall c ensures DigitOf(c, urlSafe) <==> Digit64(c, urlSafe) { DigitsAlike(c, urlSafe); }
    hide DigitOf, Digit64;
    if forall c :: c in t ==> Digit64(c, urlSafe) {
      forall i | 0 <= i < |t| ensures DigitOf(t[i], urlSafe) { assert t[i] in t; }
    }
  }

  lemma {:induction false} LastTwo(a: string, t: string)
    requires |t| >= 2
    ensures (a + t)[|a + t| - 2..] == t[|t| - 2..] && (a + t)[..|a + t| - 2] == a + t[..|t| - 2]
  {}

  lemma {:induction false} LastOne(a: string, t: string)
    requires t != ""
    ensures (a + t)[|a + t| - 1] == t[|t| - 1] && (a + t)[..|a + t| - 1] == a + t[..|t| - 1]
  {}

  lemma {:induction false} NoPadding(a: string, urlSafe: bool)
    requires AllDigits(a, urlSafe)
    ensures Unpadded(a) == a && (a != "" ==> a[|a| - 1] != '=')
  {
    DigitsAlike('=', urlSafe);
    hide DigitOf;
    if |a| >= 2 { assert a[|a| - 2..][1] == a[|a| - 1]; }
  }

  lemma {:induction false} UnpaddedLater(a: string, t: string, urlSafe: bool)
    requires AllDigits(a, urlSafe)
    ensures Unpadded(a + t) == a + Unpadded(t)
  {
    NoPadding(a, urlSafe);
    hide AllDigits, DigitOf;
    if |t| >= 2 {
      LastTwo(a, t);
      LastOne(a, t);
    } else if |t| == 1 {
      LastOne(a, t);
      assert t[..0] == "" && a + "" == a;
      if a != "" { assert (a + t)[|a + t| - 2..][0] == a[|a| - 1]; }
    } else {
      assert a + t == a && a + Unpadded(t) == a;
    }
  }

  lemma {:induction false} FourMore(a: string, t: string, urlSafe: bool)
    requires |a| == 4 && AllDigits(a, urlSafe)
    ensures Decodes(a + t, urlSafe) <==> Decodes(t, urlSafe)
  {
    UnpaddedLater(a, t, urlSafe);
    AllAlike(a, urlSafe);
    hide Unpadded, AllDigits, Digit64;
    assert forall c :: c in a + Unpadded(t) <==> c in a || c in Unpadded(t);
    assert (a + Unpadded(t) == a + t) <==> (Unpadded(t) == t) by {
      assert (a + Unpadded(t))[4..] == Unpadded(t) && (a + t)[4..] == t;
    }
  }

  lemma {:induction false} DigitsOnly(t: string, urlSafe: bool)
    requires AllDigits(t, urlSafe)
    ensures Unpadded(t) == t && (Decodes(t, urlSafe) <==> |t| % 4 != 1)
  {
    UnpaddedLater(t, "", urlSafe);
    AllAlike(t, urlSafe);
    assert t + "" == t;
  }

  lemma {:induction false} UnpaddedTail(b: string)
    requires b != ""
    ensures if b == "=" || b == "==" then Unpadded(b) == "" else Unpadded(b) != "" && Unpadded(b)[0] == b[0]
  {
    if |b| == 1 { assert b == [b[0]]; }
    if |b| == 2 { assert b == [b[0], b[1]] && b[..1] == [b[0]]; }
  }

  lemma {:induction false} HoldsOther(t: string, a: string, c: char, urlSafe: bool)
    requires c in a && !Digit64(c, urlSafe) && Unpadded(t) == a
    ensures !Decodes(t, urlSafe)
  {
    hide Unpadded, Digit64;
  }

  lemma {:induction false} PaddedBy(t: string, a: string, urlSafe: bool)
    requires Unpadded(t) == a && a != t && forall c :: c in a ==> Digit64(c, urlSafe)
    ensures Decodes(t, urlSafe) <==> |t| % 4 == 0
  {
    hide Unpadded, Digit64;
  }

  lemma {:induction false} EndedBy(a: string, b: string, urlSafe: bool)
    requires AllDigits(a, urlSafe) && |a| < 4 && b != "" && !DigitOf(b[0], urlSafe)
    ensures Decodes(a + b, urlSafe) <==> (|a| == 2 && b == "==") || (|a| == 3 && b == "=")
  {
    hide *;
    UnpaddedLater(a, b, urlSafe);
    AllAlike(a, urlSafe);
    DigitsAlike(b[0], urlSafe);
    UnpaddedTail(b);
    if b == "=" || b == "==" {
      assert a + "" == a;
      PaddedBy(a + b, a, urlSafe);
    } else {
      HeadIn(a, Unpadded(b));
      HoldsOther(a + b, a + Unpadded(b), b[0], urlSafe);
    }
  }

  lemma {:induction false} HeadIn(a: string, b: string)
    requires b != ""
    ensures b[0] in a + b
  {}

  lemma {:induction false} Ended(t: string, n: nat, urlSafe: bool)
    requires n <= |t| && n < 4 && AllDigits(t[..n], urlSafe) && n < |t| && !DigitOf(t[n], urlSafe)
    ensures Decodes(t, urlSafe) <==> (n == 2 && t[2..] == "==") || (n == 3 && t[3..] == "=")
  {
    EndedBy(t[..n], t[n..], urlSafe);
    hide *;
    assert t == t[..n] + t[n..];
  }

  function FirstOf(t: string): nat
    requires |t| >= 2
  {
    Value64(t[0]) * 4 + Value64(t[1]) / 16
  }

  function SecondOf(t: string): nat
    requires |t| >= 3
  {
    Value64(t[1]) % 16 * 16 + Value64(t[2]) / 4
  }

  /** How many digits the text begins with, up to four. */
  function Leading(t: string, urlSafe: bool): (n: nat)
    ensures n <= 4 && n <= |t| && AllDigits(t[..n], urlSafe) && (n < 4 && n < |t| ==> !DigitOf(t[n], urlSafe))
  {
    if |t| == 0 || !DigitOf(t[0], urlSafe) then 0
    else if |t| == 1 || !DigitOf(t[1], urlSafe) then 1
    else if |t| == 2 || !DigitOf(t[2], urlSafe) then 2
    else if |t| == 3 || !DigitOf(t[3], urlSafe) then 3
    else 4
  }

  lemma {:induction false} NotAllDigits(t: string, n: nat, urlSafe: bool)
    requires Leading(t, urlSafe) < n <= |t| && n <= 4
    ensures !AllDigits(t[..n], urlSafe)
  {
    var k := Leading(t, urlSafe);
    assert t[..n][k] == t[k];
  }

  /** The bytes that a text spells, if it is base64. */
  lemma {:induction false} DecodesSpells(t: string, urlSafe: bool) returns (bytes: seq<nat>)
    requires Decodes(t, urlSafe)
    ensures Spelt(bytes, t, urlSafe)
    decreases |t|
  {
    var n := Leading(t, urlSafe);
    hide Decodes, AllDigits, DigitOf, Leading;
    if n == 4 {
      assert t == t[..4] + t[4..];
      FourMore(t[..4], t[4..], urlSafe);
      var rest := DecodesSpells(t[4..], urlSafe);
      bytes := [FirstOf(t), SecondOf(t), Value64(t[2]) % 4 * 64 + Value64(t[3])] + rest;
      assert bytes[3..] == rest;
    } else {
      if |t| >= 4 { NotAllDigits(t, 4, urlSafe); }
      if n == |t| { assert t[..n] == t; DigitsOnly(t, urlSafe); } else { Ended(t, n, urlSafe); }
      if t == "" {
        bytes := [];
      } else if n == 3 {
        bytes := [FirstOf(t), SecondOf(t)];
      } else {
        bytes := [FirstOf(t)];
        if |t| >= 3 { NotAllDigits(t, 3, urlSafe); }
      }
    }
  }

  lemma {:induction false} SpeltDecodes(bytes: seq<nat>, t: string, urlSafe: bool)
    requires Spelt(bytes, t, urlSafe)
    ensures Decodes(t, urlSafe)
    decreases |t|
  {
    DigitsAlike('=', urlSafe);
    hide Decodes, AllDigits, DigitOf;
    if t == "" {
      NothingDecodes(urlSafe);
    } else if |t| >= 4 && AllDigits(t[..4], urlSafe) {
      assert t == t[..4] + t[4..];
      SpeltDecodes(bytes[3..], t[4..], urlSafe);
      FourMore(t[..4], t[4..], urlSafe);
    } else if |t| >= 3 && AllDigits(t[..3], urlSafe) {
      if t[3..] == "" { assert t[..3] == t; DigitsOnly(t, urlSafe); } else { assert t[3] == t[3..][0]; Ended(t, 3, urlSafe); }
    } else {
      if t[2..] == "" { assert t[..2] == t; DigitsOnly(t, urlSafe); } else { assert t[2] == t[2..][0]; Ended(t, 2, urlSafe); }
    }
  }

  lemma NothingDecodes(urlSafe: bool)
    ensures Decodes("", urlSafe)
  {}

  /** A text is accepted as base64 exactly when, without its line breaks, it spells bytes in either alphabet. */
  lemma {:induction false} Base64Exactly(s: string)
    ensures IsBase64(s) <==> exists bytes, urlSafe :: Spelt(bytes, Unbroken(s), urlSafe)
  {
    hide Decodes, Spelt;
    if Decodes(Unbroken(s), false) { var bytes := DecodesSpells(Unbroken(s), false); }
    if Decodes(Unbroken(s), true) { var bytes := DecodesSpells(Unbroken(s), true); }
    if exists bytes, urlSafe :: Spelt(bytes, Unbroken(s), urlSafe) {
      var bytes, urlSafe :| Spelt(bytes, Unbroken(s), urlSafe);
      SpeltDecodes(bytes, Unbroken(s), urlSafe);
      if urlSafe { assert Decodes(Unbroken(s), true); } else { assert Decodes(Unbroken(s), false); }
    }
  }

  // ----- data URLs in general -----

  function Joined(fields: seq<string>): string
    requires fields != []
  {
    if |fields| == 1 then fields[0] else fields[0] + ";" + Joined(fields[1..])
  }

  lemma {:induction false} FieldsOfJoined(fields: seq<string>)
    requires fields != [] && forall i :: 0 <= i < |fields| ==> ';' !in fields[i]
    ensures Fields(Joined(fields)) == fields
  {
    if |fields| == 1 {
      PlainField(fields[0]);
      assert fields == [fields[0]];
    } else {
      assert forall i :: 0 <= i < |fields| - 1 ==> fields[1..][i] == fields[i + 1];
      FieldsOfJoined(fields[1..]);
      FieldsAfter(fields[0], Joined(fields[1..]));
      assert fields == [fields[0]] + fields[1..];
    }
  }

  lemma {:induction false} FieldsAfter(a: string, rest: string)
    requires ';' !in a
    ensures Fields(a + ";" + rest) == [a] + Fields(rest)
  {
    var s := a + ";" + rest;
    if a == "" {
      assert s[0] == ';' && s[1..] == rest;
    } else {
      assert s[0] == a[0] && s[1..] == a[1..] + ";" + rest;
      FieldsAfter(a[1..], rest);
      assert [a[0]] + a[1..] == a;
    }
  }

  /** The word in any mixture of cases. */
  predicate InAnyCase(s: string, word: string) {
    |s| == |word| && forall i :: 0 <= i < |s| ==> s[i] == word[i] || (s[i] as int + 32 == word[i] as int && 'A' <= s[i] <= 'Z')
  }

  lemma {:induction false} AnyCaseFolds(s: string, word: string)
    requires forall i :: 0 <= i < |word| ==> !('A' <= word[i] <= 'Z')
    ensures InAnyCase(s, word) <==> SameFolded(s, word)
  {}

  lemma {:induction false} CommaFree(scheme: string, fields: seq<string>)
    requires fields != [] && ',' !in scheme && forall i :: 0 <= i < |fields| ==> ',' !in fields[i]
    ensures ',' !in scheme + Joined(fields)
    decreases |fields|
  {
    if |fields| > 1 {
      assert forall i :: 0 <= i < |fields| - 1 ==> fields[1..][i] == fields[i + 1];
      CommaFree("", fields[1..]);
      assert "" + Joined(fields[1..]) == Joined(fields[1..]);
    }
  }

  /** A data URL gives its payload when one of its fields after the first says it is base64, in any case, and it is;
      its type is the one given beside it, else its first field. */
  lemma {:induction false} DataUrlReads(scheme: string, fields: seq<string>, payload: string, mediaType: string, filename: string)
    requires InAnyCase(scheme, "data:") && fields != [] && (forall i :: 0 <= i < |fields| ==> ';' !in fields[i] && ',' !in fields[i])
    requires Trim(scheme + Joined(fields) + "," + payload) == scheme + Joined(fields) + "," + payload
    ensures var named := if Trim(mediaType) != "" then Trim(mediaType) else if fields[0] != "" then fields[0] else "application/octet-stream";
      ReadMedia(scheme + Joined(fields) + "," + payload, mediaType, filename) ==
        if (exists i :: 1 <= i < |fields| && InAnyCase(fields[i], "base64")) && Trim(payload) != "" && IsBase64(Trim(payload))
        then Some(MediaRef(named, Trim(payload), "", filename)) else None
  {
    var head := scheme + Joined(fields);
    var url := head + "," + payload;
    AnyCaseFolds(scheme, "data:");
    assert scheme[..5] == scheme && url[..5] == scheme && head[5..] == Joined(fields);
    assert ',' !in scheme by { NoCommaInScheme(scheme); }
    CommaFree(scheme, fields);
    CutFirst(head, payload);
    FieldsOfJoined(fields);
    AnyField(fields);
    hide Trim, SameFolded, InAnyCase, Fields, Cut, IsBase64, Joined;
  }

  lemma {:induction false} NoCommaInScheme(scheme: string)
    requires InAnyCase(scheme, "data:")
    ensures ',' !in scheme
  {
    forall i | 0 <= i < |scheme| ensures scheme[i] != ',' {
      assert scheme[i] == "data:"[i] || 'A' <= scheme[i] <= 'Z';
    }
  }

  lemma {:induction false} AnyField(fields: seq<string>)
    requires fields != []
    ensures (exists field :: field in fields[1..] && SameFolded(field, "base64"))
      <==> exists i :: 1 <= i < |fields| && InAnyCase(fields[i], "base64")
  {
    forall s ensures InAnyCase(s, "base64") <==> SameFolded(s, "base64") { AnyCaseFolds(s, "base64"); }
    hide SameFolded, InAnyCase;
    if exists field :: field in fields[1..] && SameFolded(field, "base64") {
      var field :| field in fields[1..] && SameFolded(field, "base64");
      var i :| 0 <= i < |fields[1..]| && fields[1..][i] == field;
      assert InAnyCase(fields[i + 1], "base64");
    }
    if exists i :: 1 <= i < |fields| && InAnyCase(fields[i], "base64") {
      var i :| 1 <= i < |fields| && InAnyCase(fields[i], "base64");
      assert fields[1..][i - 1] == fields[i];
      assert fields[i] in fields[1..] && SameFolded(fields[i], "base64");
    }
  }
}
