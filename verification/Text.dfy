/** Go's `strings.TrimSpace` with the white space it trims, and comparison without regard to case. */
module Text {

  predicate IsSpace(c: char) {
    c in {' ', '\t', '\n', '\r', '\U{0b}', '\U{0c}', '\U{85}', '\U{a0}', '\U{1680}', '\U{2028}', '\U{2029}',
          '\U{202f}', '\U{205f}', '\U{3000}'}
    || '\U{2000}' <= c <= '\U{200a}'
  }

  predicate Blank(s: string) { forall c :: c in s ==> IsSpace(c) }

  function TrimLeft(s: string): (r: string)
    ensures |r| <= |s|
  {
    if s != "" && IsSpace(s[0]) then TrimLeft(s[1..]) else s
  }

  function TrimRight(s: string): (r: string)
    ensures |r| <= |s|
  {
    if s != "" && IsSpace(s[|s| - 1]) then TrimRight(s[..|s| - 1]) else s
  }

  function Trim(s: string): (r: string)
    ensures |r| <= |s|
  {
    TrimRight(TrimLeft(s))
  }

  function LowerChar(c: char): char { if 'A' <= c <= 'Z' then c - 'A' + 'a' else c }

  predicate SameFolded(s: string, tag: string) {
    |s| == |tag| && forall i :: 0 <= i < |s| ==> LowerChar(s[i]) == tag[i]
  }

  lemma {:induction false} TrimLeftBlank(s: string)
    ensures Blank(s) <==> TrimLeft(s) == ""
    ensures TrimLeft(s) != "" ==> !IsSpace(TrimLeft(s)[0])
  {
    if s != "" && IsSpace(s[0]) {
      TrimLeftBlank(s[1..]);
      assert forall c :: c in s <==> c == s[0] || c in s[1..];
    }
  }

  lemma {:induction false} TrimLeftSpaceAfter(s: string, c: char)
    requires IsSpace(c)
    ensures TrimLeft(s + [c]) == if Blank(s) then "" else TrimLeft(s) + [c]
  {
    if s == "" {
      assert s + [c] == [c] && [c][1..] == "";
    } else {
      assert (s + [c])[0] == s[0] && (s + [c])[1..] == s[1..] + [c];
      assert forall d :: d in s <==> d == s[0] || d in s[1..];
      if IsSpace(s[0]) { TrimLeftSpaceAfter(s[1..], c); }
    }
  }

  lemma {:induction false} TrimRightKeeps(s: string)
    requires s != "" && !IsSpace(s[0])
    ensures TrimRight(s) != "" && TrimRight(s)[0] == s[0] && !IsSpace(TrimRight(s)[|TrimRight(s)| - 1])
  {
    if IsSpace(s[|s| - 1]) { TrimRightKeeps(s[..|s| - 1]); }
  }

  lemma {:induction false} TrimLeftHolds(s: string, c: char)
    requires c in TrimLeft(s)
    ensures c in s
  {
    hide IsSpace;
    if s != "" && IsSpace(s[0]) { TrimLeftHolds(s[1..], c); }
  }

  lemma {:induction false} TrimRightHolds(s: string, c: char)
    requires c in TrimRight(s)
    ensures c in s
  {
    hide IsSpace;
    if s != "" && IsSpace(s[|s| - 1]) { TrimRightHolds(s[..|s| - 1], c); }
  }

  lemma {:induction false} TrimHolds(s: string, c: char)
    requires c in Trim(s)
    ensures c in s
  {
    TrimRightHolds(TrimLeft(s), c);
    TrimLeftHolds(s, c);
  }

  lemma TrimIsTight(s: string)
    ensures Trim(s) == "" <==> Blank(s)
    ensures Trim(s) != "" ==> !IsSpace(Trim(s)[0]) && !IsSpace(Trim(s)[|Trim(s)| - 1]) && !Blank(Trim(s))
  {
    TrimLeftBlank(s);
    if TrimLeft(s) != "" {
      TrimRightKeeps(TrimLeft(s));
      assert Trim(s)[0] in Trim(s);
    }
  }

  lemma TrimTwice(s: string)
    ensures Trim(Trim(s)) == Trim(s)
  {
    hide IsSpace;
    TrimIsTight(s);
  }

  lemma TrimBetweenLines(s: string)
    ensures Trim("\n" + s + "\n") == Trim(s)
  {
    NewlineIsSpace();
    hide IsSpace;
    var t := s + "\n";
    assert "\n" + s + "\n" == ['\n'] + t && (['\n'] + t)[1..] == t;
    TrimLeftSpaceAfter(s, '\n');
    TrimLeftBlank(s);
    var u := TrimLeft(s);
    if u != "" {
      assert (u + ['\n'])[..|u|] == u;
      assert TrimRight(u + ['\n']) == TrimRight(u);
    }
  }

  lemma NewlineIsSpace()
    ensures IsSpace('\n')
  {}

  /** A text with no space at either end is left alone, and so is it behind a space. */
  lemma {:induction false} TrimOfTight(t: string)
    requires t != "" && !IsSpace(t[0]) && !IsSpace(t[|t| - 1])
    ensures Trim(t) == t && Trim(" " + t) == t && Trim(t + " ") == t && Trim(" " + t + " ") == t
  {
    SpaceIsSpace();
    hide IsSpace;
    assert (" " + t)[1..] == t && (t + " ")[..|t|] == t && (" " + t + " ")[1..] == t + " ";
    assert TrimRight(t) == t && TrimLeft(t) == t;
    assert TrimLeft(" " + t) == t && TrimLeft(t + " ") == t + " " && TrimRight(t + " ") == t;
  }

  lemma {:induction false} SpaceIsSpace()
    ensures IsSpace(' ')
  {}

  lemma {:induction false} TrimLeftPad(pad: string, s: string)
    requires Blank(pad)
    ensures TrimLeft(pad + s) == TrimLeft(s)
  {
    hide IsSpace;
    if pad == "" {
      assert pad + s == s;
    } else {
      assert (pad + s)[0] == pad[0] && (pad + s)[1..] == pad[1..] + s && pad[0] in pad;
      TrimLeftPad(pad[1..], s);
    }
  }

  lemma {:induction false} TrimRightPad(s: string, pad: string)
    requires Blank(pad)
    ensures TrimRight(s + pad) == TrimRight(s)
    decreases |pad|
  {
    hide IsSpace;
    if pad == "" {
      assert s + pad == s;
    } else {
      var n := |pad| - 1;
      assert (s + pad)[|s + pad| - 1] == pad[n] && (s + pad)[..|s + pad| - 1] == s + pad[..n] && pad[n] in pad;
      TrimRightPad(s, pad[..n]);
    }
  }

  /** White space around a text is trimmed off, and no more. */
  lemma {:induction false} TrimAround(before: string, t: string, after: string)
    requires Blank(before) && Blank(after) && (t != "" ==> !IsSpace(t[0]) && !IsSpace(t[|t| - 1]))
    ensures Trim(before + t + after) == t
  {
    assert before + t + after == before + (t + after);
    TrimLeftPad(before, t + after);
    if t == "" {
      assert t + after == after + "";
      TrimLeftPad(after, "");
      hide IsSpace;
    } else {
      assert (t + after)[0] == t[0];
      TrimRightPad(t, after);
    }
  }

  lemma {:induction false} TrimLeftSplits(s: string) returns (before: string)
    ensures Blank(before) && s == before + TrimLeft(s)
  {
    if s != "" && IsSpace(s[0]) {
      var rest := TrimLeftSplits(s[1..]);
      before := [s[0]] + rest;
      assert forall c :: c in before <==> c == s[0] || c in rest;
    } else {
      before := "";
    }
  }

  lemma {:induction false} TrimRightSplits(s: string) returns (after: string)
    ensures Blank(after) && s == TrimRight(s) + after
  {
    if s != "" && IsSpace(s[|s| - 1]) {
      var rest := TrimRightSplits(s[..|s| - 1]);
      after := rest + [s[|s| - 1]];
      assert forall c :: c in after <==> c == s[|s| - 1] || c in rest;
    } else {
      after := "";
    }
  }

  /** Trimming takes white space off both ends and nothing else. */
  lemma {:induction false} TrimSplits(s: string) returns (before: string, after: string)
    ensures Blank(before) && Blank(after) && s == before + Trim(s) + after
  {
    before := TrimLeftSplits(s);
    after := TrimRightSplits(TrimLeft(s));
    hide TrimLeft, TrimRight, IsSpace;
    assert before + (TrimRight(TrimLeft(s)) + after) == before + Trim(s) + after;
  }
}
