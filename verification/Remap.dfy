/** Renaming the ids of delegated runs inside the records of the calls that spawned them
    (internal/session/branches.go:63-155). */
module Remap {
  import opened Basics
  import opened Text
  import opened Conversation

  // ----- id tokens -----

  predicate IsIdChar(c: char) { 'a' <= c <= 'z' || 'A' <= c <= 'Z' || '0' <= c <= '9' || c == '_' || c == '-' }

  predicate IsToken(t: string) { t != "" && forall i :: 0 <= i < |t| ==> IsIdChar(t[i]) }

  /** The length of the run of id characters that `s` starts with. */
  function RunLength(s: string): (n: nat)
    ensures n <= |s| && (forall i :: 0 <= i < n ==> IsIdChar(s[i])) && (n < |s| ==> !IsIdChar(s[n]))
  {
    if s == "" || !IsIdChar(s[0]) then 0
    else
      var n := RunLength(s[1..]);
      assert forall i :: 0 < i < n + 1 ==> s[i] == s[1..][i - 1];
      n + 1
  }

  /** A text cut into maximal id tokens and single other characters. */
  function Tokens(s: string): seq<string>
    decreases |s|
  {
    if s == "" then []
    else if !IsIdChar(s[0]) then [s[..1]] + Tokens(s[1..])
    else [s[..RunLength(s)]] + Tokens(s[RunLength(s)..])
  }

  function Join(tokens: seq<string>): string { if tokens == [] then "" else tokens[0] + Join(tokens[1..]) }

  /** Nothing but id tokens and single other characters, no two id tokens in a row. */
  predicate Cut(tokens: seq<string>) {
    && (forall i :: 0 <= i < |tokens| ==> IsToken(tokens[i]) || (|tokens[i]| == 1 && !IsIdChar(tokens[i][0])))
    && (forall i :: 0 <= i < |tokens| - 1 ==> !IsToken(tokens[i]) || !IsToken(tokens[i + 1]))
  }

  function Rename(ids: map<string, string>, token: string): string {
    if IsToken(token) && token in ids then ids[token] else token
  }

  function RenameAll(ids: map<string, string>, tokens: seq<string>): seq<string> {
    if tokens == [] then [] else [Rename(ids, tokens[0])] + RenameAll(ids, tokens[1..])
  }

  function RemapText(s: string, ids: map<string, string>): string { Join(RenameAll(ids, Tokens(s))) }

  // ----- tokens determine a text and a text its tokens -----

  lemma CutTail(tokens: seq<string>)
    requires Cut(tokens) && tokens != []
    ensures Cut(tokens[1..])
  {}

  lemma CutCons(t: string, rest: seq<string>)
    requires Cut(rest) && (IsToken(t) || (|t| == 1 && !IsIdChar(t[0])))
    requires IsToken(t) && rest != [] ==> !IsToken(rest[0])
    ensures Cut([t] + rest)
  {
    assert forall i :: 0 < i < |rest| + 1 ==> ([t] + rest)[i] == rest[i - 1];
  }

  lemma TokensStart(s: string) returns (n: nat)
    requires s != ""
    ensures 0 < n <= |s| && Tokens(s) == [s[..n]] + Tokens(s[n..])
    ensures IsToken(s[..n]) <==> IsIdChar(s[0])
    ensures IsToken(s[..n]) || (|s[..n]| == 1 && !IsIdChar(s[..n][0]))
    ensures IsToken(s[..n]) && n < |s| ==> !IsIdChar(s[n..][0])
  {
    n := if IsIdChar(s[0]) then RunLength(s) else 1;
    FirstToken(s, n);
    hide IsToken, IsIdChar, RunLength;
    assert Tokens(s) == [s[..n]] + Tokens(s[n..]);
  }

  lemma {:induction false} JoinOfTokens(s: string)
    ensures Join(Tokens(s)) == s
    decreases |s|
  {
    if s != "" {
      var n := TokensStart(s);
      hide Tokens, IsToken, IsIdChar;
      JoinOfTokens(s[n..]);
      var first, rest := s[..n], Tokens(s[n..]);
      assert ([first] + rest)[0] == first && ([first] + rest)[1..] == rest;
      assert first + s[n..] == s;
    }
  }

  lemma {:induction false} TokensAreCut(s: string)
    ensures Cut(Tokens(s))
    ensures s != "" ==> Tokens(s) != [] && (IsToken(Tokens(s)[0]) <==> IsIdChar(s[0]))
    decreases |s|
  {
    if s == "" {
      NothingIsCut();
    } else {
      var n := TokensStart(s);
      hide *;
      TokensAreCut(s[n..]);
      CutCons(s[..n], Tokens(s[n..]));
    }
  }

  lemma NothingIsCut()
    ensures Tokens("") == [] && Cut([])
  {}

  lemma {:induction false} FirstToken(s: string, n: nat)
    requires s != "" && n == if IsIdChar(s[0]) then RunLength(s) else 1
    ensures 0 < n <= |s| && (IsToken(s[..n]) <==> IsIdChar(s[0]))
    ensures IsToken(s[..n]) || (|s[..n]| == 1 && !IsIdChar(s[..n][0]))
    ensures IsToken(s[..n]) && n < |s| ==> !IsIdChar(s[n..][0])
  {
    assert s[..n][0] == s[0];
  }

  lemma {:induction false} RunOfJoin(t: string, rest: string)
    requires IsToken(t) && (rest != "" ==> !IsIdChar(rest[0]))
    ensures RunLength(t + rest) == |t|
  {
    assert forall i :: 0 <= i < |t| ==> (t + rest)[i] == t[i];
    assert rest != "" ==> (t + rest)[|t|] == rest[0];
  }

  lemma {:induction false} JoinStart(tokens: seq<string>)
    requires Cut(tokens) && tokens != []
    ensures Join(tokens) != "" && (IsIdChar(Join(tokens)[0]) <==> IsToken(tokens[0]))
  {}

  lemma {:induction false} TokensOfJoin(tokens: seq<string>)
    requires Cut(tokens)
    ensures Tokens(Join(tokens)) == tokens
  {
    if tokens != [] {
      var t, rest := tokens[0], tokens[1..];
      CutTail(tokens);
      TokensOfJoin(rest);
      if rest != [] { JoinStart(rest); }
      var s := t + Join(rest);
      if IsToken(t) {
        RunOfJoin(t, Join(rest));
      }
      assert s[..|t|] == t && s[|t|..] == Join(rest);
      assert tokens == [t] + rest;
    }
  }

  // ----- renaming -----

  ghost predicate NamesTokens(ids: map<string, string>) { forall k :: k in ids ==> IsToken(ids[k]) }

  lemma {:induction false} RenameKeepsCut(ids: map<string, string>, tokens: seq<string>)
    requires NamesTokens(ids) && Cut(tokens)
    ensures |RenameAll(ids, tokens)| == |tokens| && Cut(RenameAll(ids, tokens))
    ensures tokens != [] ==> (IsToken(RenameAll(ids, tokens)[0]) <==> IsToken(tokens[0]))
  {
    if tokens != [] {
      CutTail(tokens);
      RenameKeepsCut(ids, tokens[1..]);
      CutCons(Rename(ids, tokens[0]), RenameAll(ids, tokens[1..]));
    }
  }

  /** Renaming is a homomorphism on tokens: each maximal id token is replaced once, everything
      else is copied, and nothing the replacement brings is looked at again. */
  lemma {:induction false} RemapTokens(s: string, ids: map<string, string>)
    requires NamesTokens(ids)
    ensures Tokens(RemapText(s, ids)) == RenameAll(ids, Tokens(s))
  {
    TokensAreCut(s);
    RenameKeepsCut(ids, Tokens(s));
    TokensOfJoin(RenameAll(ids, Tokens(s)));
  }

  // ----- a word in its place -----

  /** What ids are made of. */
  predicate WordChar(c: char) { ('0' <= c <= '9') || ('A' <= c <= 'Z') || ('a' <= c <= 'z') || c == '-' || c == '_' }

  predicate Word(w: string) { w != "" && forall i :: 0 <= i < |w| ==> WordChar(w[i]) }

  /** No word runs over the place where the texts meet. */
  predicate Apart(a: string, b: string) { a == "" || b == "" || !WordChar(a[|a| - 1]) || !WordChar(b[0]) }

  lemma {:induction false} JoinOfBoth(a: seq<string>, b: seq<string>)
    ensures Join(a + b) == Join(a) + Join(b)
  {
    if a == [] {
      assert a + b == b;
    } else {
      assert (a + b)[0] == a[0] && (a + b)[1..] == a[1..] + b;
      JoinOfBoth(a[1..], b);
    }
  }

  lemma {:induction false} RenameBoth(ids: map<string, string>, a: seq<string>, b: seq<string>)
    ensures RenameAll(ids, a + b) == RenameAll(ids, a) + RenameAll(ids, b)
  {
    hide Rename;
    if a == [] {
      assert a + b == b;
    } else {
      assert (a + b)[0] == a[0] && (a + b)[1..] == a[1..] + b;
      RenameBoth(ids, a[1..], b);
    }
  }

  /** The last token of a text is a word exactly when its last character is a word's. */
  lemma {:induction false} LastTokenTold(s: string)
    requires s != ""
    ensures Tokens(s) != [] && (IsToken(Tokens(s)[|Tokens(s)| - 1]) <==> IsIdChar(s[|s| - 1]))
    decreases |s|
  {
    var n := TokensStart(s);
    var rest := Tokens(s[n..]);
    assert Tokens(s) == [s[..n]] + rest;
    if s[n..] == "" {
      assert rest == [] && s[..n] == s;
    } else {
      LastTokenTold(s[n..]);
      assert Tokens(s)[|Tokens(s)| - 1] == rest[|rest| - 1] && s[n..][|s| - n - 1] == s[|s| - 1];
    }
  }

  lemma {:induction false} CutBoth(a: seq<string>, b: seq<string>)
    requires Cut(a) && Cut(b) && (a != [] && b != [] ==> !IsToken(a[|a| - 1]) || !IsToken(b[0]))
    ensures Cut(a + b)
  {
    hide IsToken, IsIdChar;
    forall i | 0 <= i < |a + b| - 1 ensures !IsToken((a + b)[i]) || !IsToken((a + b)[i + 1]) {
      if i >= |a| { assert (a + b)[i] == b[i - |a|] && (a + b)[i + 1] == b[i - |a| + 1]; }
    }
  }

  lemma {:induction false} TokensOfBoth(a: string, b: string)
    requires Apart(a, b)
    ensures Tokens(a + b) == Tokens(a) + Tokens(b)
  {
    TokensAreCut(a);
    TokensAreCut(b);
    if a != "" { LastTokenTold(a); }
    if a == "" || b == "" { NothingIsCut(); }
    hide Tokens;
    CutBoth(Tokens(a), Tokens(b));
    TokensOfJoin(Tokens(a) + Tokens(b));
    JoinOfBoth(Tokens(a), Tokens(b));
    JoinOfTokens(a);
    JoinOfTokens(b);
  }

  lemma {:induction false} WordIsToken(w: string)
    requires Word(w)
    ensures IsToken(w) && Tokens(w) == [w]
  {
    assert IsToken(w);
    RunOfJoin(w, "");
    assert w + "" == w && w[..|w|] == w && w[|w|..] == "";
  }

  /** A word that stands by itself is renamed where it is an id, and what is around it is renamed apart from it. */
  lemma {:induction false} WordRenamed(a: string, w: string, b: string, ids: map<string, string>)
    requires Word(w) && Apart(a, w) && Apart(w, b)
    ensures RemapText(a + w + b, ids) == RemapText(a, ids) + (if w in ids then ids[w] else w) + RemapText(b, ids)
  {
    WordIsToken(w);
    assert Apart(a + w, b);
    hide Tokens, IsToken, Word, Apart;
    TokensOfBoth(a, w);
    TokensOfBoth(a + w, b);
    var here := [w];
    RenameBoth(ids, Tokens(a) + here, Tokens(b));
    RenameBoth(ids, Tokens(a), here);
    JoinOfBoth(RenameAll(ids, Tokens(a)) + RenameAll(ids, here), RenameAll(ids, Tokens(b)));
    JoinOfBoth(RenameAll(ids, Tokens(a)), RenameAll(ids, here));
    assert here[1..] == [] && RenameAll(ids, []) == [] && RenameAll(ids, here) == [Rename(ids, w)];
    assert Join([Rename(ids, w)]) == Rename(ids, w) by { OneJoined(Rename(ids, w)); }
  }

  lemma {:induction false} OneJoined(t: string)
    ensures Join([t]) == t
  {
    assert [t][1..] == [] && Join([]) == "" && t + "" == t;
  }

  /** A text with no word in it stays. */
  lemma {:induction false} NoWordStays(s: string, ids: map<string, string>)
    requires forall i :: 0 <= i < |s| ==> !WordChar(s[i])
    ensures RemapText(s, ids) == s
  {
    if s != "" {
      var n := TokensStart(s);
      assert n == 1;
      assert forall i :: 0 <= i < |s| - 1 ==> s[1..][i] == s[i + 1];
      NoWordStays(s[1..], ids);
      assert !IsToken(s[..1]);
      assert Tokens(s)[0] == s[..1] && Tokens(s)[1..] == Tokens(s[1..]);
      assert s[..1] + s[1..] == s;
    }
  }

  /** The renaming that `back` undoes. */
  ghost predicate Undoes(back: map<string, string>, ids: map<string, string>) {
    && (forall k :: k in ids ==> ids[k] in back && back[ids[k]] == k)
    && (forall v :: v in back ==> exists k :: k in ids && ids[k] == v)
  }

  ghost predicate NoTokenIn(tokens: seq<string>, ids: map<string, string>) {
    forall i, k :: 0 <= i < |tokens| && k in ids ==> tokens[i] != ids[k]
  }

  lemma {:induction false} RenameUndone(ids: map<string, string>, back: map<string, string>, tokens: seq<string>)
    requires NamesTokens(ids) && Undoes(back, ids) && NoTokenIn(tokens, ids)
    ensures RenameAll(back, RenameAll(ids, tokens)) == tokens
  {
    if tokens != [] {
      var t := tokens[0];
      assert NoTokenIn(tokens[1..], ids) by {
        assert forall i :: 0 <= i < |tokens| - 1 ==> tokens[1..][i] == tokens[i + 1];
      }
      RenameUndone(ids, back, tokens[1..]);
      assert forall k :: k in ids ==> tokens[0] != ids[k];
      assert Rename(back, Rename(ids, t)) == t;
      assert RenameAll(ids, tokens)[1..] == RenameAll(ids, tokens[1..]);
      assert tokens == [t] + tokens[1..];
    }
  }

  /** Renaming to tokens the text does not hold, and renaming back, gives the text back. */
  lemma {:induction false} RemapUndone(s: string, ids: map<string, string>, back: map<string, string>)
    requires NamesTokens(ids) && Undoes(back, ids) && NoTokenIn(Tokens(s), ids)
    ensures RemapText(RemapText(s, ids), back) == s
  {
    RemapTokens(s, ids);
    RenameUndone(ids, back, Tokens(s));
    JoinOfTokens(s);
  }

  lemma RemapNext(s: string, ids: map<string, string>, i: nat, end: nat, out: string)
    requires i < end <= |s| && end == i + (if IsIdChar(s[i]) then RunLength(s[i..]) else 1)
    ensures out + RemapText(s[i..], ids) == (out + Rename(ids, s[i..end])) + RemapText(s[end..], ids)
  {
    hide Rename;
    var rest := s[i..];
    assert rest[..end - i] == s[i..end] && rest[end - i..] == s[end..];
    assert Tokens(rest) == [s[i..end]] + Tokens(s[end..]);
    assert ([s[i..end]] + Tokens(s[end..]))[1..] == Tokens(s[end..]);
    var one, more := Rename(ids, s[i..end]), RemapText(s[end..], ids);
    assert ([one] + RenameAll(ids, Tokens(s[end..])))[1..] == RenameAll(ids, Tokens(s[end..]));
    assert out + (one + more) == (out + one) + more;
  }

  /** One scan of the text, as the source runs it. */
  method RemapIdText(s: string, ids: map<string, string>) returns (out: string)
    ensures out == RemapText(s, ids)
  {
    out := "";
    var i := 0;
    assert s[0..] == s && "" + RemapText(s, ids) == RemapText(s, ids);
    while i < |s|
      invariant i <= |s|
      invariant out + RemapText(s[i..], ids) == RemapText(s, ids)
    {
      hide RemapText, RunLength, Rename;
      if !IsIdChar(s[i]) {
        RemapNext(s, ids, i, i + 1, out);
        OtherCharacter(ids, s[i..i + 1]);
        out := out + [s[i]];
        i := i + 1;
        continue;
      }
      var end := i + 1;
      while end < |s| && IsIdChar(s[end])
        invariant i < end <= |s| && forall k :: i <= k < end ==> IsIdChar(s[k])
      {
        end := end + 1;
      }
      RunEnds(s, i, end);
      RemapNext(s, ids, i, end, out);
      var token := s[i..end];
      TokenRenamed(ids, token);
      if token in ids { token := ids[token]; }
      out := out + token;
      i := end;
    }
    assert s[|s|..] == "" && RemapText("", ids) == "" && out + "" == out;
  }

  lemma OtherCharacter(ids: map<string, string>, t: string)
    requires |t| == 1 && !IsIdChar(t[0])
    ensures Rename(ids, t) == t == [t[0]]
  {}

  lemma TokenRenamed(ids: map<string, string>, t: string)
    requires IsToken(t)
    ensures Rename(ids, t) == if t in ids then ids[t] else t
  {}

  lemma RunEnds(s: string, i: nat, end: nat)
    requires i < end <= |s| && (forall k :: i <= k < end ==> IsIdChar(s[k])) && (end < |s| ==> !IsIdChar(s[end]))
    ensures end == i + RunLength(s[i..]) && IsToken(s[i..end])
  {
    assert forall k :: 0 <= k < end - i ==> s[i..][k] == s[i + k];
    assert end < |s| ==> s[i..][end - i] == s[end];
  }

  // ----- which calls delegate -----

  function Lower(s: string): string {
    if s == "" then "" else [if 'A' <= s[0] <= 'Z' then s[0] - 'A' + 'a' else s[0]] + Lower(s[1..])
  }

  /** What follows the last dot. */
  function AfterDots(s: string): string
    decreases |s|
  {
    if '.' !in s then s
    else if s[0] == '.' && '.' !in s[1..] then s[1..]
    else AfterDots(s[1..])
  }

  const DELEGATIONS :=
    {"task", "agent", "agentswarm", "spawn_agent", "send_input", "resume_agent", "wait", "wait_agent", "close_agent"}

  predicate IsDelegation(name: string) { AfterDots(Lower(name)) in DELEGATIONS }

  function DelegationsIn(parts: seq<Part>): set<string> {
    set p | p in parts && p.kind.ToolCall? && IsDelegation(p.toolName) :: p.callId
  }

  /** The calls of a stream that delegate. */
  function Delegations(events: seq<Event>): set<string> {
    if events == [] then {} else DelegationsIn(events[0].parts) + Delegations(events[1..])
  }

  // ----- renaming in JSON values -----

  function RenameKey(ids: map<string, string>, key: string): string { if key in ids then ids[key] else key }

  /** `w` is `v` with its strings and keys renamed.  When two keys of an object become one, the
      value kept is that of either. */
  ghost predicate Rewritten(ids: map<string, string>, v: Json, w: Json)
    decreases v
  {
    match v
    case JString(s) => w == JString(RemapText(s, ids))
    case JArray(items) => w.JArray? && |w.items| == |items| && forall i :: 0 <= i < |items| ==> Rewritten(ids, items[i], w.items[i])
    case JObject(fields) =>
      && w.JObject?
      && (forall k :: k in fields ==> RenameKey(ids, k) in w.fields)
      && (forall k' :: k' in w.fields ==> exists k :: k in fields && RenameKey(ids, k) == k' && Rewritten(ids, fields[k], w.fields[k']))
    case _ => w == v
  }

  method RewriteJson(v: Json, ids: map<string, string>) returns (w: Json)
    ensures Rewritten(ids, v, w)
    decreases v, 1
  {
    match v {
      case JString(s) =>
        var text := RemapIdText(s, ids);
        w := JString(text);
      case JArray(items) =>
        var out: seq<Json> := [];
        for i := 0 to |items|
          invariant |out| == i && forall k :: 0 <= k < i ==> Rewritten(ids, items[k], out[k])
        {
          var item := RewriteJson(items[i], ids);
          out := out + [item];
        }
        w := JArray(out);
      case JObject(fields) =>
        var out := RewriteFields(v, ids);
        w := JObject(out);
      case _ => w := v;
    }
  }

  /** The fields are visited in no particular order. */
  method RewriteFields(v: Json, ids: map<string, string>) returns (out: map<string, Json>)
    requires v.JObject?
    ensures forall k :: k in v.fields ==> RenameKey(ids, k) in out
    ensures forall k' :: k' in out ==> exists k :: k in v.fields && RenameKey(ids, k) == k' && Rewritten(ids, v.fields[k], out[k'])
    decreases v, 0
  {
    out := map[];
    var todo := v.fields.Keys;
    while todo != {}
      invariant todo <= v.fields.Keys
      invariant forall k :: k in v.fields && k !in todo ==> RenameKey(ids, k) in out
      invariant forall k' :: k' in out ==> exists k :: k in v.fields && RenameKey(ids, k) == k' && Rewritten(ids, v.fields[k], out[k'])
      decreases |todo|
    {
      hide Rewritten;
      var k :| k in todo;
      todo := todo - {k};
      var value := RewriteJson(v.fields[k], ids);
      out := out[RenameKey(ids, k) := value];
    }
  }

  /** The tokens to be brought in occur nowhere in the value. */
  ghost predicate Unused(ids: map<string, string>, v: Json)
    decreases v
  {
    match v
    case JString(s) => NoTokenIn(Tokens(s), ids)
    case JArray(items) => forall i :: 0 <= i < |items| ==> Unused(ids, items[i])
    case JObject(fields) => forall k :: k in fields ==> (forall j :: j in ids ==> ids[j] != k) && Unused(ids, fields[k])
    case _ => true
  }

  lemma KeyUndone(ids: map<string, string>, back: map<string, string>, k: string)
    requires Undoes(back, ids) && forall j :: j in ids ==> ids[j] != k
    ensures RenameKey(back, RenameKey(ids, k)) == k
  {
    assert k !in back;
  }

  /** Renaming a value and renaming it back gives the value back. */
  lemma {:induction false} RewriteUndone(ids: map<string, string>, back: map<string, string>, v: Json, w: Json, u: Json)
    requires NamesTokens(ids) && Undoes(back, ids) && Unused(ids, v)
    requires Rewritten(ids, v, w) && Rewritten(back, w, u)
    ensures u == v
    decreases v, 2
  {
    match v
    case JString(s) => RemapUndone(s, ids, back);
    case JArray(items) => ItemsUndone(ids, back, v, w, u);
    case JObject(fields) => FieldsUndone(ids, back, v, w, u);
    case _ =>
  }

  lemma {:induction false} ItemsUndone(ids: map<string, string>, back: map<string, string>, v: Json, w: Json, u: Json)
    requires NamesTokens(ids) && Undoes(back, ids) && Unused(ids, v) && v.JArray?
    requires Rewritten(ids, v, w) && Rewritten(back, w, u)
    ensures u == v
    decreases v, 1
  {
    forall i | 0 <= i < |v.items| ensures u.items[i] == v.items[i] {
      RewriteUndone(ids, back, v.items[i], w.items[i], u.items[i]);
    }
    assert u.items == v.items;
  }

  lemma {:induction false} FieldsUndone(ids: map<string, string>, back: map<string, string>, v: Json, w: Json, u: Json)
    requires NamesTokens(ids) && Undoes(back, ids) && Unused(ids, v) && v.JObject?
    requires Rewritten(ids, v, w) && Rewritten(back, w, u)
    ensures u == v
    decreases v, 1
  {
    hide *;
    StaysObject(ids, v, w);
    StaysObject(back, w, u);
    forall k | k in v.fields ensures k in u.fields && u.fields[k] == v.fields[k] {
      FieldUndone(ids, back, v, w, u, k);
    }
    forall k | k in u.fields ensures k in v.fields {
      var _ := SourceOfField(ids, back, v, w, u, k);
    }
    assert u.fields == v.fields;
  }

  lemma {:induction false} StaysObject(ids: map<string, string>, v: Json, w: Json)
    requires v.JObject? && Rewritten(ids, v, w)
    ensures w.JObject?
  {}

  /** A field of the value that comes back is the field it was. */
  lemma SourceOfField(ids: map<string, string>, back: map<string, string>, v: Json, w: Json, u: Json, k: string)
      returns (k1: string)
    requires Undoes(back, ids) && Unused(ids, v) && v.JObject? && Rewritten(ids, v, w) && Rewritten(back, w, u)
    requires u.JObject? && k in u.fields
    ensures k in v.fields && w.JObject? && k1 in w.fields
    ensures Rewritten(ids, v.fields[k], w.fields[k1]) && Rewritten(back, w.fields[k1], u.fields[k])
  {
    hide Undoes, RenameKey;
    k1 :| k1 in w.fields && RenameKey(back, k1) == k && Rewritten(back, w.fields[k1], u.fields[k]);
    var j :| j in v.fields && RenameKey(ids, j) == k1 && Rewritten(ids, v.fields[j], w.fields[k1]);
    KeyUndone(ids, back, j);
  }

  lemma {:induction false} FieldUndone(ids: map<string, string>, back: map<string, string>, v: Json, w: Json, u: Json, k: string)
    requires NamesTokens(ids) && Undoes(back, ids) && Unused(ids, v) && v.JObject? && k in v.fields
    requires Rewritten(ids, v, w) && Rewritten(back, w, u)
    ensures u.JObject? && k in u.fields && u.fields[k] == v.fields[k]
    decreases v, 0
  {
    KeyUndone(ids, back, k);
    assert RenameKey(ids, k) in w.fields && k in u.fields by {
      assert RenameKey(back, RenameKey(ids, k)) in u.fields;
    }
    var k1 := SourceOfField(ids, back, v, w, u, k);
    assert Unused(ids, v.fields[k]);
    RewriteUndone(ids, back, v.fields[k], w.fields[k1], u.fields[k]);
  }

  // ----- renaming in a stream -----

  /** `q` is `p` as the renaming leaves it: only the input and the results of calls that
      delegate are touched, and in them only what they say. */
  ghost predicate PartRemapped(ids: map<string, string>, calls: set<string>, p: Part, q: Part) {
    if p.callId in calls && p.kind.ToolCall? && p.data.text != "" && p.data.value.Some? then
      && q == p.(data := q.data) && q.data.text != "" && q.data.value.Some?
      && Rewritten(ids, p.data.value.value, q.data.value.value)
    else if p.callId in calls && p.kind.ToolResult? then q == p.(text := RemapText(p.text, ids))
    else q == p
  }

  ghost predicate EventRemapped(ids: map<string, string>, calls: set<string>, e: Event, f: Event) {
    && f == e.(parts := f.parts) && |f.parts| == |e.parts|
    && forall j :: 0 <= j < |e.parts| ==> PartRemapped(ids, calls, e.parts[j], f.parts[j])
  }

  ghost predicate EventsRemapped(ids: map<string, string>, calls: set<string>, events: seq<Event>, out: seq<Event>) {
    |out| == |events| && forall i :: 0 <= i < |events| ==> EventRemapped(ids, calls, events[i], out[i])
  }

  method DelegationsOf(parts: seq<Part>) returns (calls: set<string>)
    ensures calls == DelegationsIn(parts)
  {
    calls := {};
    for j := 0 to |parts|
      invariant calls == DelegationsIn(parts[..j])
    {
      hide IsDelegation;
      assert parts[..j + 1] == parts[..j] + [parts[j]];
      if parts[j].kind.ToolCall? && IsDelegation(parts[j].toolName) { calls := calls + {parts[j].callId}; }
    }
    assert parts[..|parts|] == parts;
  }

  method CollectDelegations(events: seq<Event>) returns (calls: set<string>)
    ensures calls == Delegations(events)
  {
    calls := {};
    assert events[0..] == events;
    for i := 0 to |events|
      invariant calls + Delegations(events[i..]) == Delegations(events)
    {
      hide DelegationsIn;
      assert events[i..][0] == events[i] && events[i..][1..] == events[i + 1..];
      var here := DelegationsOf(events[i].parts);
      calls := calls + here;
    }
    assert events[|events|..] == [];
  }

  method RemapPart(p: Part, ids: map<string, string>, calls: set<string>, encode: Json -> string) returns (q: Part)
    requires forall v :: encode(v) != ""
    ensures PartRemapped(ids, calls, p, q)
  {
    q := p;
    if p.callId !in calls { return; }
    match p.kind {
      case ToolCall =>
        if p.data.text != "" && p.data.value.Some? {
          var value := RewriteJson(p.data.value.value, ids);
          q := p.(data := RawJson(encode(value), Some(value)));
        }
      case ToolResult =>
        var text := RemapIdText(p.text, ids);
        q := p.(text := text);
      case _ =>
    }
  }

  /** Renames in the calls that delegate and in their results; `encode` writes JSON. */
  method RemapDelegation(events: seq<Event>, ids: map<string, string>, encode: Json -> string) returns (out: seq<Event>)
    requires forall v :: encode(v) != ""
    ensures EventsRemapped(ids, Delegations(events), events, out)
  {
    var calls := CollectDelegations(events);
    out := [];
    for i := 0 to |events|
      invariant |out| == i && forall k :: 0 <= k < i ==> EventRemapped(ids, calls, events[k], out[k])
    {
      hide PartRemapped, Delegations;
      var parts: seq<Part> := [];
      for j := 0 to |events[i].parts|
        invariant |parts| == j && forall k :: 0 <= k < j ==> PartRemapped(ids, calls, events[i].parts[k], parts[k])
      {
        var part := RemapPart(events[i].parts[j], ids, calls, encode);
        parts := parts + [part];
      }
      out := out + [events[i].(parts := parts)];
    }
  }

  // ----- what renaming leaves alone -----

  lemma {:induction false} PartsCheckAlike(ids: map<string, string>, calls: set<string>, s: Scan, role: string, a: seq<Part>, b: seq<Part>)
    requires |a| == |b| && forall j :: 0 <= j < |a| ==> PartRemapped(ids, calls, a[j], b[j])
    ensures CheckParts(s, role, b) == CheckParts(s, role, a)
    decreases |a|
  {
    if a != [] {
      PartChecksAlike(ids, calls, s, role, a[0], b[0]);
      hide PartRemapped, CheckPart;
      assert forall j :: 0 <= j < |a| - 1 ==> a[1..][j] == a[j + 1] && b[1..][j] == b[j + 1];
      if CheckPart(s, role, a[0]).Fine? {
        PartsCheckAlike(ids, calls, CheckPart(s, role, a[0]).scan, role, a[1..], b[1..]);
      }
    }
  }

  lemma PartChecksAlike(ids: map<string, string>, calls: set<string>, s: Scan, role: string, p: Part, q: Part)
    requires PartRemapped(ids, calls, p, q)
    ensures CheckPart(s, role, q) == CheckPart(s, role, p)
  {
    hide Rewritten, RemapText, Blank;
  }

  /** The well-formedness check reads a renamed stream exactly as it reads the stream: the same
      verdict, the same calls in the same order, the same answers. */
  lemma {:induction false} ChecksAlike(ids: map<string, string>, calls: set<string>, s: Scan, events: seq<Event>, out: seq<Event>)
    requires EventsRemapped(ids, calls, events, out)
    ensures CheckEvents(s, out) == CheckEvents(s, events)
    decreases |events|
  {
    if events != [] {
      assert EventRemapped(ids, calls, events[0], out[0]);
      PartsCheckAlike(ids, calls, s, events[0].role, events[0].parts, out[0].parts);
      hide PartRemapped, CheckParts;
      assert EventsRemapped(ids, calls, events[1..], out[1..]) by {
        assert forall i :: 0 <= i < |events| - 1 ==> events[1..][i] == events[i + 1] && out[1..][i] == out[i + 1];
      }
      if CheckEvent(s, events[0]).Fine? {
        ChecksAlike(ids, calls, CheckEvent(s, events[0]).scan, events[1..], out[1..]);
      }
    }
  }

  lemma {:induction false} RemapKeepsMeaning(ids: map<string, string>, events: seq<Event>, out: seq<Event>)
    requires EventsRemapped(ids, Delegations(events), events, out)
    ensures WellFormed(out) <==> WellFormed(events)
    ensures WellFormed(events) ==> ScanOf(out) == ScanOf(events) && Dangling(out) == Dangling(events)
    ensures Delegations(out) == Delegations(events)
  {
    ChecksAlike(ids, Delegations(events), UNREAD, events, out);
    DelegationsAlike(ids, Delegations(events), events, out);
  }

  lemma {:induction false} DelegationsAlike(ids: map<string, string>, calls: set<string>, events: seq<Event>, out: seq<Event>)
    requires EventsRemapped(ids, calls, events, out)
    ensures Delegations(out) == Delegations(events)
    decreases |events|
  {
    if events != [] {
      hide IsDelegation, Rewritten, RemapText;
      assert EventRemapped(ids, calls, events[0], out[0]);
      var a, b := events[0].parts, out[0].parts;
      assert DelegationsIn(a) == DelegationsIn(b) by {
        forall j | 0 <= j < |a|
          ensures a[j].kind == b[j].kind && a[j].toolName == b[j].toolName && a[j].callId == b[j].callId
        {
          assert PartRemapped(ids, calls, a[j], b[j]);
        }
        forall p | p in a && p.kind.ToolCall? && IsDelegation(p.toolName) ensures p.callId in DelegationsIn(b) {
          var j :| 0 <= j < |a| && a[j] == p;
          assert b[j] in b;
        }
        forall q | q in b && q.kind.ToolCall? && IsDelegation(q.toolName) ensures q.callId in DelegationsIn(a) {
          var j :| 0 <= j < |b| && b[j] == q;
          assert a[j] in a;
        }
      }
      assert EventsRemapped(ids, calls, events[1..], out[1..]) by {
        assert forall i :: 0 <= i < |events| - 1 ==> events[1..][i] == events[i + 1] && out[1..][i] == out[i + 1];
      }
      DelegationsAlike(ids, calls, events[1..], out[1..]);
    }
  }

  ghost predicate UnusedIn(ids: map<string, string>, calls: set<string>, p: Part) {
    p.callId in calls ==>
      && (p.kind.ToolResult? ==> NoTokenIn(Tokens(p.text), ids))
      && (p.kind.ToolCall? && p.data.value.Some? ==> Unused(ids, p.data.value.value))
  }

  /** Renaming a stream to tokens it does not use and renaming it back gives back every part,
      but that inputs are encoded anew. */
  lemma {:induction false} RemapDelegationUndone(ids: map<string, string>, back: map<string, string>,
      events: seq<Event>, there: seq<Event>, again: seq<Event>, i: nat, j: nat)
    requires NamesTokens(ids) && Undoes(back, ids)
    requires EventsRemapped(ids, Delegations(events), events, there)
    requires EventsRemapped(back, Delegations(there), there, again)
    requires i < |events| && j < |events[i].parts| && UnusedIn(ids, Delegations(events), events[i].parts[j])
    ensures |again| == |events| && again[i] == events[i].(parts := again[i].parts) && |again[i].parts| == |events[i].parts|
    ensures var p, q := events[i].parts[j], again[i].parts[j];
      q == p.(data := q.data) && q.data.value == p.data.value
  {
    RemapKeepsMeaning(ids, events, there);
    var calls := Delegations(events);
    assert EventRemapped(ids, calls, events[i], there[i]) && EventRemapped(back, calls, there[i], again[i]);
    hide Delegations, Rewritten, Unused, NoTokenIn, RemapText, Tokens;
    var p, m, q := events[i].parts[j], there[i].parts[j], again[i].parts[j];
    assert PartRemapped(ids, calls, p, m) && PartRemapped(back, calls, m, q);
    if p.callId in calls && p.kind.ToolCall? && p.data.text != "" && p.data.value.Some? {
      RewriteUndone(ids, back, p.data.value.value, m.data.value.value, q.data.value.value);
    } else if p.callId in calls && p.kind.ToolResult? {
      RemapUndone(p.text, ids, back);
    }
  }
}
