/** The order that puts agent-2 before agent-10 (internal/session/types.go:390-417). */
module NaturalOrder {
  import opened Basics

  const MAX_INT64 := 0x7fff_ffff_ffff_ffff

  predicate IsDigit(c: char) { '0' <= c <= '9' }

  function DigitRun(s: string): (n: nat)
    ensures n <= |s| && (forall i :: 0 <= i < n ==> IsDigit(s[i])) && (n < |s| ==> !IsDigit(s[n]))
  {
    if s == "" || !IsDigit(s[0]) then 0
    else
      var n := DigitRun(s[1..]);
      assert forall i :: 0 < i < n + 1 ==> s[i] == s[1..][i - 1];
      n + 1
  }

  function Decimal(digits: string): nat {
    if digits == "" then 0
    else
      var last := digits[|digits| - 1];
      10 * Decimal(digits[..|digits| - 1]) + (if IsDigit(last) then last as int - '0' as int else 0)
  }

  /** What `strconv.Atoi` returns for a run of digits: a number too large is the largest. */
  function Atoi(digits: string): nat { Min(Decimal(digits), MAX_INT64) }

  // ----- the order as the source computes it -----

  function NaturalLess(a: string, b: string): bool
    decreases |a| + |b|
  {
    if a == "" || b == "" then |a| < |b|
    else if IsDigit(a[0]) && IsDigit(b[0]) then
      var ai, bi := DigitRun(a), DigitRun(b);
      var an, bn := Atoi(a[..ai]), Atoi(b[..bi]);
      if an != bn then an < bn else NaturalLess(a[ai..], b[bi..])
    else if a[0] != b[0] then a[0] < b[0]
    else NaturalLess(a[1..], b[1..])
  }

  method Less(first: string, second: string) returns (less: bool)
    ensures less == NaturalLess(first, second)
  {
    var a, b := first, second;
    while |a| > 0 && |b| > 0
      invariant NaturalLess(a, b) == NaturalLess(first, second)
      decreases |a| + |b|
    {
      if IsDigit(a[0]) && IsDigit(b[0]) {
        var ai := 1;
        while ai < |a| && IsDigit(a[ai])
          invariant 1 <= ai <= |a| && forall i :: 0 <= i < ai ==> IsDigit(a[i])
        {
          ai := ai + 1;
        }
        var bi := 1;
        while bi < |b| && IsDigit(b[bi])
          invariant 1 <= bi <= |b| && forall i :: 0 <= i < bi ==> IsDigit(b[i])
        {
          bi := bi + 1;
        }
        assert ai == DigitRun(a) && bi == DigitRun(b);
        var an, bn := Atoi(a[..ai]), Atoi(b[..bi]);
        if an != bn { return an < bn; }
        a, b := a[ai..], b[bi..];
        continue;
      }
      if a[0] != b[0] { return a[0] < b[0]; }
      a, b := a[1..], b[1..];
    }
    less := |a| < |b|;
  }

  // ----- what it means -----

  /** A run of digits is one number; anything else is a character. */
  datatype Token = Number(n: nat) | Character(c: char)

  function Tokens(s: string): seq<Token>
    decreases |s|
  {
    if s == "" then []
    else if IsDigit(s[0]) then [Number(Atoi(s[..DigitRun(s)]))] + Tokens(s[DigitRun(s)..])
    else [Character(s[0])] + Tokens(s[1..])
  }

  /** Numbers by value, where the digits stand among the characters. */
  predicate Before(x: Token, y: Token) {
    match (x, y)
    case (Number(m), Number(n)) => m < n
    case (Character(c), Character(d)) => c < d
    case (Number(_), Character(d)) => '0' < d
    case (Character(c), Number(_)) => c < '0'
  }

  predicate Lexicographic(a: seq<Token>, b: seq<Token>) {
    b != [] && (a == [] || Before(a[0], b[0]) || (a[0] == b[0] && Lexicographic(a[1..], b[1..])))
  }

  /** A character token is no digit. */
  predicate Proper(s: seq<Token>) { forall i :: 0 <= i < |s| && s[i].Character? ==> !IsDigit(s[i].c) }

  lemma {:induction false} TokensProper(s: string)
    ensures Proper(Tokens(s)) && (s != "" ==> Tokens(s) != [])
    decreases |s|
  {
    if s != "" {
      var n := if IsDigit(s[0]) then DigitRun(s) else 1;
      TokensProper(s[n..]);
    }
  }

  /** The order is lexicographic on tokens. */
  lemma {:induction false} NaturalIsLexicographic(a: string, b: string)
    ensures NaturalLess(a, b) == Lexicographic(Tokens(a), Tokens(b))
    decreases |a| + |b|
  {
    if a == "" || b == "" {
      TokensProper(a);
      TokensProper(b);
    } else {
      var m := if IsDigit(a[0]) then DigitRun(a) else 1;
      var n := if IsDigit(b[0]) then DigitRun(b) else 1;
      NaturalIsLexicographic(a[m..], b[n..]);
      var x, y := Tokens(a)[0], Tokens(b)[0];
      assert Tokens(a) == [x] + Tokens(a[m..]) && Tokens(b) == [y] + Tokens(b[n..]);
      assert Tokens(a)[1..] == Tokens(a[m..]) && Tokens(b)[1..] == Tokens(b[n..]);
    }
  }

  // ----- a strict weak order -----

  lemma {:induction false} LexicographicTransitive(a: seq<Token>, b: seq<Token>, c: seq<Token>)
    requires Proper(a) && Proper(b) && Proper(c) && Lexicographic(a, b) && Lexicographic(b, c)
    ensures Lexicographic(a, c)
    decreases |a|
  {
    if a != [] && a[0] == b[0] && b[0] == c[0] {
      LexicographicTransitive(a[1..], b[1..], c[1..]);
    }
  }

  lemma {:induction false} LexicographicTotal(a: seq<Token>, b: seq<Token>)
    requires Proper(a) && Proper(b)
    ensures Lexicographic(a, b) || a == b || Lexicographic(b, a)
    ensures !(Lexicographic(a, b) && Lexicographic(b, a)) && !Lexicographic(a, a)
    decreases |a|
  {
    if a != [] && b != [] {
      LexicographicTotal(a[1..], b[1..]);
      if a[0] == b[0] && a[1..] == b[1..] { assert a == [a[0]] + a[1..] == b; }
    }
    if a != [] { LexicographicTotal(a[1..], a[1..]); }
  }

  /** Irreflexive and transitive; and two ids that neither precedes the other are the ones with
      the same tokens, so that incomparability is transitive too. */
  lemma {:induction false} StrictWeakOrder(a: string, b: string, c: string)
    ensures !NaturalLess(a, a)
    ensures NaturalLess(a, b) && NaturalLess(b, c) ==> NaturalLess(a, c)
    ensures !NaturalLess(a, b) && !NaturalLess(b, a) <==> Tokens(a) == Tokens(b)
  {
    TokensProper(a);
    TokensProper(b);
    TokensProper(c);
    NaturalIsLexicographic(a, a);
    NaturalIsLexicographic(a, b);
    NaturalIsLexicographic(b, a);
    NaturalIsLexicographic(b, c);
    NaturalIsLexicographic(a, c);
    LexicographicTotal(Tokens(a), Tokens(b));
    LexicographicTotal(Tokens(b), Tokens(a));
    if NaturalLess(a, b) && NaturalLess(b, c) { LexicographicTransitive(Tokens(a), Tokens(b), Tokens(c)); }
  }
}
