/** The text of agent definition files: splitting at a delimiter that stands outside quotes and
    brackets (internal/session/definition_config.go:98-140). */
module ConfigText {
  import opened Basics

  // ----- one scan of a text -----

  datatype Mode = Plain | Double | Escaped | Single

  /** Where a scan stands: inside which quotes, and how deep in brackets. */
  datatype Cursor = Cursor(mode: Mode, depth: int)

  const TOP := Cursor(Plain, 0)

  function Step(at: Cursor, c: char): Cursor {
    match at.mode
    case Escaped => at.(mode := Double)
    case Double => if c == '\\' then at.(mode := Escaped) else if c == '"' then at.(mode := Plain) else at
    case Single => if c == '\'' then at.(mode := Plain) else at
    case Plain =>
      if c == '"' then at.(mode := Double)
      else if c == '\'' then at.(mode := Single)
      else if c == '[' || c == '{' then at.(depth := at.depth + 1)
      else if c == ']' || c == '}' then at.(depth := at.depth - 1)
      else at
  }

  /** The scan ends a piece at `c`. */
  predicate Cuts(at: Cursor, c: char, delimiter: char) {
    at.mode.Plain? && c != '"' && c != '\'' && c == delimiter && Step(at, c).depth == 0
  }

  /** The pieces of what is still to be scanned, the first of which has begun with `piece`. */
  function SplitFrom(at: Cursor, piece: string, s: string, delimiter: char): (pieces: seq<string>)
    ensures pieces != [] && forall p :: p in pieces ==> |p| <= |piece| + |s|
    decreases |s|
  {
    if s == "" then [piece]
    else if Cuts(at, s[0], delimiter) then [piece] + SplitFrom(Step(at, s[0]), "", s[1..], delimiter)
    else SplitFrom(Step(at, s[0]), piece + [s[0]], s[1..], delimiter)
  }

  function Split(raw: string, delimiter: char): seq<string> { SplitFrom(TOP, "", raw, delimiter) }

  /** `raw` has been scanned up to `i`, the piece under way begins at `start`, and the pieces
      before it are `out`. */
  ghost predicate Scanned(raw: string, delimiter: char, at: Cursor, start: nat, i: nat, out: seq<string>) {
    start <= i <= |raw| && out + SplitFrom(at, raw[start..i], raw[i..], delimiter) == Split(raw, delimiter)
  }

  lemma {:induction false} ScanStarts(raw: string, delimiter: char)
    ensures Scanned(raw, delimiter, TOP, 0, 0, [])
  {
    assert raw[0..] == raw && raw[0..0] == "" && [] + Split(raw, delimiter) == Split(raw, delimiter);
  }

  lemma {:induction false} ScanNext(raw: string, delimiter: char, at: Cursor, start: nat, i: nat, out: seq<string>)
    requires Scanned(raw, delimiter, at, start, i, out) && i < |raw|
    ensures if Cuts(at, raw[i], delimiter) then Scanned(raw, delimiter, Step(at, raw[i]), i + 1, i + 1, out + [raw[start..i]])
      else Scanned(raw, delimiter, Step(at, raw[i]), start, i + 1, out)
  {
    hide Cuts, Step, Split;
    assert raw[i..][0] == raw[i] && raw[i..][1..] == raw[i + 1..];
    assert raw[start..i] + [raw[i]] == raw[start..i + 1] && raw[i + 1..i + 1] == "";
    var rest := SplitFrom(Step(at, raw[i]), "", raw[i + 1..], delimiter);
    assert out + ([raw[start..i]] + rest) == (out + [raw[start..i]]) + rest;
  }

  lemma {:induction false} ScanEnds(raw: string, delimiter: char, at: Cursor, start: nat, out: seq<string>)
    requires Scanned(raw, delimiter, at, start, |raw|, out)
    ensures out + [raw[start..]] == Split(raw, delimiter)
  {
    hide Split;
    EndOfScan(at, raw[start..|raw|], delimiter);
    assert raw[|raw|..] == "" && raw[start..] == raw[start..|raw|];
  }

  /** The source's view of a scan: the open quote and the depth, if there is more to scan. */
  ghost predicate ScannedAs(raw: string, delimiter: char, at: Cursor, start: nat, i: nat, out: seq<string>, quote: Option<char>, depth: int) {
    if i < |raw| then Scanned(raw, delimiter, at, start, i, out) && Tracks(at, quote, depth)
    else Scanned(raw, delimiter, at, start, |raw|, out)
  }

  predicate Tracks(at: Cursor, quote: Option<char>, depth: int) {
    && at.depth == depth && !at.mode.Escaped?
    && quote == match at.mode case Plain => None case Single => Some('\'') case _ => Some('"')
  }

  lemma {:induction false} ScanEscaped(raw: string, delimiter: char, at: Cursor, start: nat, i: nat, out: seq<string>, depth: int)
      returns (at': Cursor)
    requires i < |raw| && raw[i] == '\\' && ScannedAs(raw, delimiter, at, start, i, out, Some('"'), depth)
    ensures ScannedAs(raw, delimiter, at', start, i + 2, out, Some('"'), depth)
  {
    hide Scanned;
    ScanNext(raw, delimiter, at, start, i, out);
    at' := Step(at, raw[i]);
    if i + 1 < |raw| {
      ScanNext(raw, delimiter, at', start, i + 1, out);
      at' := Step(at', raw[i + 1]);
    }
  }

  lemma {:induction false} ScanQuoted(raw: string, delimiter: char, at: Cursor, start: nat, i: nat, out: seq<string>, quote: char, depth: int)
      returns (at': Cursor)
    requires i < |raw| && !(raw[i] == '\\' && quote == '"')
    requires ScannedAs(raw, delimiter, at, start, i, out, Some(quote), depth)
    ensures ScannedAs(raw, delimiter, at', start, i + 1, out, if raw[i] == quote then None else Some(quote), depth)
  {
    hide Scanned;
    ScanNext(raw, delimiter, at, start, i, out);
    at' := Step(at, raw[i]);
  }

  lemma {:induction false} ScanOpening(raw: string, delimiter: char, at: Cursor, start: nat, i: nat, out: seq<string>, depth: int)
      returns (at': Cursor)
    requires i < |raw| && (raw[i] == '"' || raw[i] == '\'') && ScannedAs(raw, delimiter, at, start, i, out, None, depth)
    ensures ScannedAs(raw, delimiter, at', start, i + 1, out, Some(raw[i]), depth)
  {
    hide Scanned;
    ScanNext(raw, delimiter, at, start, i, out);
    at' := Step(at, raw[i]);
  }

  function DepthAfter(depth: int, c: char): int {
    if c == '[' || c == '{' then depth + 1 else if c == ']' || c == '}' then depth - 1 else depth
  }

  lemma {:induction false} ScanPlain(raw: string, delimiter: char, at: Cursor, start: nat, i: nat, out: seq<string>, depth: int)
      returns (at': Cursor)
    requires i < |raw| && raw[i] != '"' && raw[i] != '\'' && ScannedAs(raw, delimiter, at, start, i, out, None, depth)
    ensures start <= i
    ensures var depth' := DepthAfter(depth, raw[i]);
      if raw[i] == delimiter && depth' == 0
      then ScannedAs(raw, delimiter, at', i + 1, i + 1, out + [raw[start..i]], None, depth')
      else ScannedAs(raw, delimiter, at', start, i + 1, out, None, depth')
  {
    ScanNext(raw, delimiter, at, start, i, out);
    assert start <= i;
    hide Scanned;
    at' := Step(at, raw[i]);
  }

  lemma {:induction false} ScanBegins(raw: string, delimiter: char)
    ensures ScannedAs(raw, delimiter, TOP, 0, 0, [], None, 0)
  {
    ScanStarts(raw, delimiter);
  }

  lemma {:induction false} ScanDone(raw: string, delimiter: char, at: Cursor, start: nat, i: nat, out: seq<string>, quote: Option<char>, depth: int)
    requires i >= |raw| && ScannedAs(raw, delimiter, at, start, i, out, quote, depth)
    ensures start <= |raw| && out + [raw[start..]] == Split(raw, delimiter)
  {
    InRange(raw, delimiter, at, start, out);
    ScanEnds(raw, delimiter, at, start, out);
  }

  /** The split as the source runs it: one index, the open quote, and the bracket depth. */
  method SplitConfig(raw: string, delimiter: char) returns (out: seq<string>)
    ensures out == Split(raw, delimiter)
  {
    hide *;
    out := [];
    var start, depth, i := 0, 0, 0;
    var quote: Option<char> := None;
    ghost var at := TOP;
    ScanBegins(raw, delimiter);
    while i < |raw|
      invariant 0 <= start && ScannedAs(raw, delimiter, at, start, i, out, quote, depth)
    {
      hide *;
      var c := raw[i];
      if quote.Some? {
        if c == '\\' && quote.value == '"' {
          at := ScanEscaped(raw, delimiter, at, start, i, out, depth);
          i := i + 2;
          continue;
        }
        at := ScanQuoted(raw, delimiter, at, start, i, out, quote.value, depth);
        if c == quote.value { quote := None; }
        i := i + 1;
        continue;
      }
      if c == '"' || c == '\'' {
        at := ScanOpening(raw, delimiter, at, start, i, out, depth);
        quote := Some(c);
        i := i + 1;
        continue;
      }
      at := ScanPlain(raw, delimiter, at, start, i, out, depth);
      depth := DepthAfter(depth, c);
      if c == delimiter && depth == 0 {
        out := out + [raw[start..i]];
        start := i + 1;
      }
      i := i + 1;
    }
    ScanDone(raw, delimiter, at, start, i, out, quote, depth);
    out := out + [raw[start..]];
  }

  lemma {:induction false} InRange(raw: string, delimiter: char, at: Cursor, start: nat, out: seq<string>)
    requires Scanned(raw, delimiter, at, start, |raw|, out)
    ensures start <= |raw|
  {}

  lemma {:induction false} EndOfScan(at: Cursor, piece: string, delimiter: char)
    ensures SplitFrom(at, piece, "", delimiter) == [piece]
  {}

  // ----- texts that a scan passes over -----

  function Walk(at: Cursor, t: string): Cursor
    decreases |t|
  {
    if t == "" then at else Walk(Step(at, t[0]), t[1..])
  }

  /** No piece ends inside `t`. */
  predicate Whole(at: Cursor, t: string, delimiter: char)
    decreases |t|
  {
    t == "" || (!Cuts(at, t[0], delimiter) && Whole(Step(at, t[0]), t[1..], delimiter))
  }

  /** The scan of `t` never comes above `floor`. */
  predicate Below(at: Cursor, t: string, floor: int)
    decreases |t|
  {
    at.depth >= floor && (t == "" || Below(Step(at, t[0]), t[1..], floor))
  }

  lemma {:induction false} SplitOver(at: Cursor, piece: string, t: string, rest: string, delimiter: char)
    requires Whole(at, t, delimiter)
    ensures SplitFrom(at, piece, t + rest, delimiter) == SplitFrom(Walk(at, t), piece + t, rest, delimiter)
    decreases |t|
  {
    hide Step, Cuts;
    if t == "" {
      assert t + rest == rest && piece + t == piece;
    } else {
      assert (t + rest)[0] == t[0] && (t + rest)[1..] == t[1..] + rest;
      SplitOver(Step(at, t[0]), piece + [t[0]], t[1..], rest, delimiter);
      assert piece + [t[0]] + t[1..] == piece + t;
    }
  }

  lemma {:induction false} WalkAppend(at: Cursor, a: string, b: string)
    ensures Walk(at, a + b) == Walk(Walk(at, a), b)
    decreases |a|
  {
    hide Step;
    if a == "" {
      assert a + b == b;
    } else {
      assert (a + b)[0] == a[0] && (a + b)[1..] == a[1..] + b;
      WalkAppend(Step(at, a[0]), a[1..], b);
    }
  }

  lemma {:induction false} WholeAppend(at: Cursor, a: string, b: string, delimiter: char)
    ensures Whole(at, a + b, delimiter) <==> Whole(at, a, delimiter) && Whole(Walk(at, a), b, delimiter)
    decreases |a|
  {
    hide Step, Cuts;
    if a == "" {
      assert a + b == b;
    } else {
      assert (a + b)[0] == a[0] && (a + b)[1..] == a[1..] + b;
      WholeAppend(Step(at, a[0]), a[1..], b, delimiter);
    }
  }

  lemma {:induction false} BelowAppend(at: Cursor, a: string, b: string, floor: int)
    ensures Below(at, a + b, floor) <==> Below(at, a, floor) && Below(Walk(at, a), b, floor)
    decreases |a|
  {
    hide Step;
    if a == "" {
      assert a + b == b;
      BelowStart(Walk(at, a), b, floor);
    } else {
      assert (a + b)[0] == a[0] && (a + b)[1..] == a[1..] + b;
      BelowAppend(Step(at, a[0]), a[1..], b, floor);
    }
  }

  lemma {:induction false} BelowStart(at: Cursor, t: string, floor: int)
    ensures Below(at, t, floor) ==> at.depth >= floor
  {}

  function Deeper(at: Cursor, k: int): Cursor { at.(depth := at.depth + k) }

  lemma StepDeeper(at: Cursor, c: char, k: int)
    ensures Step(Deeper(at, k), c) == Deeper(Step(at, c), k)
  {}

  lemma {:induction false} WalkDeeper(at: Cursor, t: string, floor: int, k: int)
    ensures Walk(Deeper(at, k), t) == Deeper(Walk(at, t), k)
    ensures Below(Deeper(at, k), t, floor + k) <==> Below(at, t, floor)
    decreases |t|
  {
    if t != "" {
      StepDeeper(at, t[0], k);
      WalkDeeper(Step(at, t[0]), t[1..], floor, k);
    }
  }

  /** Inside brackets nothing ends a piece. */
  lemma {:induction false} BuriedIsWhole(at: Cursor, t: string, delimiter: char)
    requires Below(at, t, 1)
    ensures Whole(at, t, delimiter)
    decreases |t|
  {
    if t != "" {
      BelowStart(Step(at, t[0]), t[1..], 1);
      BuriedIsWhole(Step(at, t[0]), t[1..], delimiter);
    }
  }

  /** A scan of `t` ends as it began and never comes above where it began. */
  predicate Level(t: string) { Walk(TOP, t) == TOP && Below(TOP, t, 0) }

  lemma LevelAppend(a: string, b: string)
    requires Level(a) && Level(b)
    ensures Level(a + b)
  {
    WalkAppend(TOP, a, b);
    BelowAppend(TOP, a, b, 0);
  }

  lemma {:induction false} LevelAt(t: string, k: int)
    requires Level(t)
    ensures Walk(Deeper(TOP, k), t) == Deeper(TOP, k) && Below(Deeper(TOP, k), t, k)
  {
    WalkDeeper(TOP, t, 0, k);
  }

  predicate Ordinary(c: char) { c != '"' && c != '\'' && c != '[' && c != '{' && c != ']' && c != '}' }

  lemma {:induction false} OrdinaryIsLevel(t: string)
    requires forall i :: 0 <= i < |t| ==> Ordinary(t[i])
    ensures Level(t)
    ensures forall d :: (forall i :: 0 <= i < |t| ==> t[i] != d) ==> Whole(TOP, t, d)
    decreases |t|
  {
    if t != "" {
      assert forall i :: 0 <= i < |t| - 1 ==> t[1..][i] == t[i + 1];
      OrdinaryIsLevel(t[1..]);
      assert Step(TOP, t[0]) == TOP;
      forall d | forall i :: 0 <= i < |t| ==> t[i] != d ensures Whole(TOP, t, d) {}
    }
  }

  /** Brackets around a level text make a level text in which no piece ends. */
  lemma {:induction false} BracketsHold(open: char, inner: string, close: char, delimiter: char)
    requires (open == '[' && close == ']') || (open == '{' && close == '}')
    requires Level(inner) && Ordinary(delimiter)
    ensures Level([open] + inner + [close]) && Whole(TOP, [open] + inner + [close], delimiter)
  {
    var in1 := Deeper(TOP, 1);
    var t := inner + [close];
    assert [open] + inner + [close] == [open] + t;
    assert ([open] + t)[0] == open && ([open] + t)[1..] == t && Step(TOP, open) == in1;
    LevelAt(inner, 1);
    WalkAppend(in1, inner, [close]);
    WholeAppend(in1, inner, [close], delimiter);
    BelowAppend(in1, inner, [close], 0);
    BuriedIsWhole(in1, inner, delimiter);
    BelowLower(in1, inner);
    assert [close][1..] == "" && Step(in1, close) == TOP;
    assert Walk(in1, [close]) == TOP && Below(in1, [close], 0) && Whole(in1, [close], delimiter);
  }

  lemma {:induction false} BelowLower(at: Cursor, t: string)
    requires Below(at, t, 1)
    ensures Below(at, t, 0)
    decreases |t|
  {
    if t != "" { BelowLower(Step(at, t[0]), t[1..]); }
  }
}
