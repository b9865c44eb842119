/** What the estimate of a text says about the text: its bytes are those of its characters in UTF-8, and what is
    counted are the characters (internal/session/compact.go:72-118). */
module CompactEstimate {
  import opened Basics
  import opened Conversation
  import opened Compact

  // ----- UTF-8, RFC 3629 section 3 -----

  function Byte(n: nat): char
    requires n < 256
  {
    n as char
  }

  function Trailing(n: nat): char { Byte(0x80 + n % 64) }

  function Utf8Char(c: char): (bytes: string)
    ensures 1 <= |bytes| <= 4
  {
    var n := c as int;
    if n < 0x80 then [Byte(n)]
    else if n < 0x800 then [Byte(0xc0 + n / 64), Trailing(n)]
    else if n < 0x1_0000 then [Byte(0xe0 + n / 4096), Trailing(n / 64), Trailing(n)]
    else [Byte(0xf0 + n / 262144), Trailing(n / 4096), Trailing(n / 64), Trailing(n)]
  }

  function Utf8(text: string): string { if text == "" then "" else Utf8Char(text[0]) + Utf8(text[1..]) }

  function Ascii(text: string): nat { if text == "" then 0 else (if text[0] as int < 0x80 then 1 else 0) + Ascii(text[1..]) }

  /** Two for each character beyond the basic plane, one for each other that is not ASCII. */
  function Wide(text: string): nat {
    if text == "" then 0
    else (if text[0] as int < 0x80 then 0 else if text[0] as int < 0x1_0000 then 1 else 2) + Wide(text[1..])
  }

  // ----- the scan finds the characters -----

  lemma {:induction false} TwoBytes(s: string, n: nat)
    requires 0x80 <= n < 0x800 && |s| >= 2 && s[0] == Byte(0xc0 + n / 64) && s[1] == Trailing(n)
    ensures RuneSize(s) == 2
  {}

  lemma {:induction false} ThreeBytes(s: string, n: nat)
    requires 0x800 <= n < 0x1_0000 && !(0xd800 <= n < 0xe000) && |s| >= 3
    requires s[0] == Byte(0xe0 + n / 4096) && s[1] == Trailing(n / 64) && s[2] == Trailing(n)
    ensures RuneSize(s) == 3
  {
    assert n / 4096 == n / 64 / 64;
    if n / 4096 == 0 { assert n / 64 % 64 == n / 64 >= 32; }
    if n / 4096 == 13 { assert n < 0xd800 && n / 64 % 64 == n / 64 - 13 * 64 <= 31; }
  }

  lemma {:induction false} FourBytes(s: string, n: nat)
    requires 0x1_0000 <= n < 0x11_0000 && |s| >= 4
    requires s[0] == Byte(0xf0 + n / 262144) && s[1] == Trailing(n / 4096) && s[2] == Trailing(n / 64) && s[3] == Trailing(n)
    ensures RuneSize(s) == 4
  {
    assert n / 262144 == n / 4096 / 64;
    if n / 262144 == 0 { assert n / 4096 % 64 == n / 4096 >= 16; }
    if n / 262144 == 4 { assert n / 4096 % 64 == n / 4096 - 4 * 64 <= 15; }
  }

  lemma {:induction false} CharFound(c: char, rest: string)
    ensures RuneSize(Utf8Char(c) + rest) == |Utf8Char(c)|
    ensures Utf8Char(c)[0] < '\U{80}' <==> c as int < 0x80
    ensures c as int >= 0x80 ==> (|Utf8Char(c)| == 4 <==> c as int >= 0x1_0000)
  {
    var n := c as int;
    var s := Utf8Char(c) + rest;
    assert forall i :: 0 <= i < |Utf8Char(c)| ==> s[i] == Utf8Char(c)[i];
    hide RuneSize;
    if n < 0x80 {
    } else if n < 0x800 {
      TwoBytes(s, n);
    } else if n < 0x1_0000 {
      ThreeBytes(s, n);
    } else {
      FourBytes(s, n);
    }
  }

  lemma {:induction false} CountsAreCharacters(text: string)
    ensures TextCounts(Utf8(text)) == (Ascii(text), Wide(text))
  {
    if text != "" {
      var first, rest := Utf8Char(text[0]), Utf8(text[1..]);
      CountsAreCharacters(text[1..]);
      CharFound(text[0], rest);
      hide RuneSize, Utf8Char;
      assert (first + rest)[|first|..] == rest && (first + rest)[0] == first[0];
    }
  }

  /** A text is estimated by its characters: seven of ASCII make two tokens, rounded up over the text, and any other
      is a token, or two where it takes four bytes. */
  lemma {:induction false} EstimateIsOfCharacters(text: string)
    ensures var tokens := EstimateText(Utf8(text)) - Wide(text);
      2 * Ascii(text) <= 7 * tokens < 2 * Ascii(text) + 7
  {
    CountsAreCharacters(text);
    hide TextCounts, Utf8, Ascii, Wide;
  }

  /** Longer texts are never estimated at less, and two texts together at no more than apart. */
  lemma {:induction false} EstimateOfBoth(a: string, b: string)
    ensures EstimateText(Utf8(a)) <= EstimateText(Utf8(a + b)) <= EstimateText(Utf8(a)) + EstimateText(Utf8(b))
  {
    CharactersOfBoth(a, b);
    EstimateIsOfCharacters(a);
    EstimateIsOfCharacters(b);
    EstimateIsOfCharacters(a + b);
    hide EstimateText, Utf8, Ascii, Wide;
  }

  lemma {:induction false} CharactersOfBoth(a: string, b: string)
    ensures Ascii(a + b) == Ascii(a) + Ascii(b) && Wide(a + b) == Wide(a) + Wide(b)
  {
    if a == "" {
      assert a + b == b;
    } else {
      assert (a + b)[0] == a[0] && (a + b)[1..] == a[1..] + b;
      CharactersOfBoth(a[1..], b);
    }
  }
}
