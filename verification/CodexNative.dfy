/** Rollouts as Codex records them, with everything the writer here never emits: reasoning, outputs in several
    blocks, plans, input that is not JSON, and blocks of no known kind.  Every rollout is one of these, so what is
    said here of them is said of all that the reader may be given (internal/session/codex.go:240-423). */
module CodexNative {
  import opened Basics
  import opened Text
  import opened Conversation
  import opened MediaUrl
  import opened ConfigValues
  import opened Codex

  // ----- plans proposed in text -----

  /** Letter by letter the tag, in either case. */
  predicate Tagged(s: string, tag: string) {
    |s| == |tag| && forall i :: 0 <= i < |s| ==> s[i] == tag[i] || (s[i] as int + 32 == tag[i] as int && 'A' <= s[i] <= 'Z')
  }

  /** The text is a plan between its tags, with nothing but white space around them. */
  predicate Proposes(text: string, before: string, open: string, plan: string, close: string, after: string) {
    && text == before + open + plan + close + after && Blank(before) && Blank(after)
    && Tagged(open, "<proposed_plan>") && Tagged(close, "</proposed_plan>")
  }

  ghost predicate IsProposal(text: string) {
    exists before, open, plan, close, after :: Proposes(text, before, open, plan, close, after)
  }

  lemma {:induction false} TaggedIsFolded(s: string, tag: string)
    requires forall i :: 0 <= i < |tag| ==> !('A' <= tag[i] <= 'Z')
    ensures Tagged(s, tag) <==> SameFolded(s, tag)
  {}

  lemma {:induction false} TagsAreFolded(open: string, close: string)
    ensures Tagged(open, OPEN_PLAN) <==> SameFolded(open, OPEN_PLAN)
    ensures Tagged(close, CLOSE_PLAN) <==> SameFolded(close, CLOSE_PLAN)
  {
    TaggedIsFolded(open, OPEN_PLAN);
    TaggedIsFolded(close, CLOSE_PLAN);
  }

  lemma {:induction false} TagEnds(open: string, close: string)
    requires SameFolded(open, OPEN_PLAN) && SameFolded(close, CLOSE_PLAN)
    ensures open[0] == '<' && close[|close| - 1] == '>'
  {
    assert LowerChar(open[0]) == OPEN_PLAN[0] && LowerChar(close[|close| - 1]) == CLOSE_PLAN[15];
  }

  lemma {:induction false} ProposalTaken(t: string, open: string, plan: string, close: string)
    requires t == open + plan + close && SameFolded(open, OPEN_PLAN) && SameFolded(close, CLOSE_PLAN) && Trim(t) == t
    ensures ProposedPlan(t) == Some(Trim(plan))
  {
    assert t[..|OPEN_PLAN|] == open && t[|t| - |CLOSE_PLAN|..] == close && t[|OPEN_PLAN|..|t| - |CLOSE_PLAN|] == plan;
    hide Trim, SameFolded;
  }

  lemma {:induction false} OnlyTrimmed(a: string, b: string)
    requires Trim(a) == Trim(b)
    ensures ProposedPlan(a) == ProposedPlan(b)
  {
    hide Trim, SameFolded;
  }

  lemma {:induction false} ProposalReads(text: string, before: string, open: string, plan: string, close: string, after: string)
    requires Proposes(text, before, open, plan, close, after)
    ensures ProposedPlan(text) == Some(Trim(plan))
  {
    TagsAreFolded(open, close);
    TagEnds(open, close);
    hide SameFolded, Tagged;
    var t := open + plan + close;
    assert t[0] == '<' && t[|t| - 1] == '>' && !IsSpace('<') && !IsSpace('>');
    assert text == before + t + after;
    hide ProposedPlan;
    TrimAround(before, t, after);
    TrimOfTight(t);
    ProposalTaken(t, open, plan, close);
    OnlyTrimmed(text, t);
  }

  lemma {:induction false} ProposalFound(text: string)
    requires ProposedPlan(text).Some?
    ensures IsProposal(text)
  {
    var before, after := TrimSplits(text);
    var t := Trim(text);
    var open, plan, close := t[..|OPEN_PLAN|], t[|OPEN_PLAN|..|t| - |CLOSE_PLAN|], t[|t| - |CLOSE_PLAN|..];
    TagsAreFolded(open, close);
    hide Trim, SameFolded, Tagged;
    assert t == open + plan + close;
    assert text == before + open + plan + close + after;
    assert Proposes(text, before, open, plan, close, after);
  }

  /** A text proposes a plan exactly when it is one between its tags. */
  lemma {:induction false} ProposalExactly(text: string)
    ensures ProposedPlan(text).Some? <==> IsProposal(text)
  {
    hide ProposedPlan, Proposes;
    if ProposedPlan(text).Some? { ProposalFound(text); }
    if IsProposal(text) {
      var before, open, plan, close, after :| Proposes(text, before, open, plan, close, after);
      ProposalReads(text, before, open, plan, close, after);
    }
  }

  // ----- messages -----

  predicate TextKind(kind: string) { kind == "input_text" || kind == "output_text" || kind == "text" }

  predicate MessageMediaKind(kind: string) {
    || kind == "input_image" || kind == "output_image" || kind == "image_url" || kind == "computer_screenshot"
    || kind == "input_file" || kind == "output_file" || kind == "file_url"
  }

  datatype Uttered =
    | Words(kind: string, text: string, other: Option<MediaRef>)
    | Shown(kind: string, other': string, media: MediaRef)
    | Proposal(kind: string, text: string, plan: string, other: Option<MediaRef>)
    | Silence(block: Option<Block>)

  ghost predicate UtteredFair(role: string, u: Uttered) {
    match u
    case Words(kind, text, _) => TextKind(kind) && text != "" && (role == "assistant" ==> !IsProposal(text))
    case Shown(kind, _, _) => MessageMediaKind(kind)
    case Proposal(kind, text, plan, _) =>
      role == "assistant" && TextKind(kind) && exists before, open, close, after :: Proposes(text, before, open, plan, close, after)
    case Silence(block) =>
      block.Some? ==> var b := block.value;
        if TextKind(b.kind) then b.text == "" else MessageMediaKind(b.kind) ==> b.media.None?
  }

  function UtteredBlock(u: Uttered): Option<Block> {
    match u
    case Words(kind, text, other) => Some(Block(kind, text, other))
    case Shown(kind, other, media) => Some(Block(kind, other, Some(media)))
    case Proposal(kind, text, _, other) => Some(Block(kind, text, other))
    case Silence(block) => block
  }

  function UtteredBlocks(us: seq<Uttered>): seq<Option<Block>> {
    if us == [] then [] else [UtteredBlock(us[0])] + UtteredBlocks(us[1..])
  }

  function UtteredParts(u: Uttered): seq<Part> {
    match u
    case Words(_, text, _) => [Part(Text, "", "", text, NO_DATA, false, "", "", "", "")]
    case Shown(_, _, m) => [Part(Media, "", "", "", NO_DATA, false, m.mediaType, m.data, m.url, m.filename)]
    case _ => []
  }

  function UtteredPlans(u: Uttered): seq<string> { if u.Proposal? then [Trim(u.plan)] else [] }

  function HeardParts(us: seq<Uttered>): seq<Part> { if us == [] then [] else UtteredParts(us[0]) + HeardParts(us[1..]) }

  function HeardPlans(us: seq<Uttered>): seq<string> { if us == [] then [] else UtteredPlans(us[0]) + HeardPlans(us[1..]) }

  ghost predicate AllUttered(role: string, us: seq<Uttered>) { forall i :: 0 <= i < |us| ==> UtteredFair(role, us[i]) }

  lemma KindsAreNamed(kind: string)
    ensures TextKind(kind) <==> kind in MESSAGE_TEXT
    ensures MessageMediaKind(kind) <==> kind in MESSAGE_MEDIA
    ensures OutputMediaKind(kind) <==> kind in OUTPUT_MEDIA
    ensures !(TextKind(kind) && (MessageMediaKind(kind) || OutputMediaKind(kind)))
  {}

  lemma {:induction false} NotProposed(text: string)
    requires !IsProposal(text)
    ensures ProposedPlan(text).None?
  {
    ProposalExactly(text);
  }

  lemma {:induction false} EmptyIsNoProposal()
    ensures ProposedPlan("").None?
  {}

  /** One block, before the others. */
  lemma {:induction false} OneUttered(role: string, u: Uttered, rest: seq<Option<Block>>)
    requires UtteredFair(role, u)
    ensures var (parts, plans) := ReadContent(role, rest);
      ReadContent(role, [UtteredBlock(u)] + rest) == (UtteredParts(u) + parts, UtteredPlans(u) + plans)
  {
    var blocks := [UtteredBlock(u)] + rest;
    assert blocks[0] == UtteredBlock(u) && blocks[1..] == rest;
    var (parts, plans) := ReadContent(role, rest);
    assert [] + parts == parts && [] + plans == plans;
    EmptyIsNoProposal();
    if UtteredBlock(u).Some? { KindsAreNamed(UtteredBlock(u).value.kind); }
    match u
    case Words(_, text, _) =>
      if role == "assistant" { NotProposed(text); }
      hide IsProposal, ProposedPlan;
    case Proposal(_, text, plan, _) =>
      var before, open, close, after :| Proposes(text, before, open, plan, close, after);
      ProposalReads(text, before, open, plan, close, after);
      hide IsProposal, ProposedPlan, Proposes, Trim;
    case _ => hide IsProposal, ProposedPlan, Trim;
  }

  lemma {:induction false} NoContent(role: string)
    ensures ReadContent(role, []) == ([], [])
  {}

  lemma {:induction false} ContentReads(role: string, us: seq<Uttered>)
    requires AllUttered(role, us)
    ensures ReadContent(role, UtteredBlocks(us)) == (HeardParts(us), HeardPlans(us))
  {
    hide UtteredFair, UtteredParts, UtteredPlans, UtteredBlock, ReadContent;
    if us == [] {
      assert ReadContent(role, []) == ([], []) by { NoContent(role); }
    } else {
      ContentReads(role, us[1..]);
      OneUttered(role, us[0], UtteredBlocks(us[1..]));
    }
  }

  lemma {:induction false} BlockIsUttered(role: string, block: Option<Block>) returns (u: Uttered)
    ensures UtteredFair(role, u) && UtteredBlock(u) == block
  {
    u := Silence(block);
    if block.Some? {
      var b := block.value;
      if TextKind(b.kind) && b.text != "" {
        u := Words(b.kind, b.text, b.media);
        if role == "assistant" && IsProposal(b.text) {
          var before, open, plan, close, after :| Proposes(b.text, before, open, plan, close, after);
          u := Proposal(b.kind, b.text, plan, b.media);
        }
      } else if MessageMediaKind(b.kind) && b.media.Some? {
        u := Shown(b.kind, b.text, b.media.value);
      }
    }
  }

  lemma {:induction false} ContentIsUttered(role: string, content: seq<Option<Block>>) returns (us: seq<Uttered>)
    ensures AllUttered(role, us) && UtteredBlocks(us) == content
  {
    us := [];
    if content != [] {
      hide UtteredFair, UtteredBlock;
      var u := BlockIsUttered(role, content[0]);
      var rest := ContentIsUttered(role, content[1..]);
      us := [u] + rest;
      assert us[0] == u && us[1..] == rest;
    }
  }

  // ----- outputs -----

  predicate OutputMediaKind(kind: string) { MessageMediaKind(kind) || kind == "image" || kind == "file" }

  datatype Piece =
    | SaidPiece(kind: string, text: string, other: Option<MediaRef>)
    | ShownPiece(kind: string, other': string, media: MediaRef)
    | NoPiece(block: Option<Block>)

  predicate PieceFair(piece: Piece) {
    match piece
    case SaidPiece(kind, _, _) => TextKind(kind)
    case ShownPiece(kind, _, _) => OutputMediaKind(kind)
    case NoPiece(block) => block.Some? ==> !TextKind(block.value.kind) && (OutputMediaKind(block.value.kind) ==> block.value.media.None?)
  }

  function PieceBlock(piece: Piece): Option<Block> {
    match piece
    case SaidPiece(kind, text, other) => Some(Block(kind, text, other))
    case ShownPiece(kind, other, media) => Some(Block(kind, other, Some(media)))
    case NoPiece(block) => block
  }

  function PieceBlocks(pieces: seq<Piece>): seq<Option<Block>> {
    if pieces == [] then [] else [PieceBlock(pieces[0])] + PieceBlocks(pieces[1..])
  }

  function AnswerPart(callId: string, error: bool, text: string): Part {
    Part(ToolResult, callId, "", text, NO_DATA, error, "", "", "", "")
  }

  /** Each piece answers the call. */
  function PiecePart(callId: string, error: bool, piece: Piece): seq<Part> {
    match piece
    case SaidPiece(_, text, _) => [AnswerPart(callId, error, text)]
    case ShownPiece(_, _, m) => [Part(Media, callId, "", "", NO_DATA, error, m.mediaType, m.data, m.url, m.filename)]
    case NoPiece(_) => []
  }

  function PieceParts(callId: string, error: bool, pieces: seq<Piece>): seq<Part> {
    if pieces == [] then [] else PiecePart(callId, error, pieces[0]) + PieceParts(callId, error, pieces[1..])
  }

  predicate AllPieces(pieces: seq<Piece>) { forall i :: 0 <= i < |pieces| ==> PieceFair(pieces[i]) }

  lemma {:induction false} FlaggedAppend(a: seq<Part>, b: seq<Part>, error: bool)
    ensures Flagged(a + b, error) == Flagged(a, error) + Flagged(b, error)
  {
    if a == [] {
      assert a + b == b;
    } else {
      assert (a + b)[0] == a[0] && (a + b)[1..] == a[1..] + b;
      FlaggedAppend(a[1..], b, error);
    }
  }

  lemma {:induction false} OneFlagged(p: Part, error: bool)
    ensures Flagged([p], error) == [p.(error := error)]
  {
    assert [p][1..] == [] && Flagged([], error) == [];
  }

  lemma {:induction false} OnePiece(callId: string, error: bool, piece: Piece, rest: seq<Option<Block>>)
    requires PieceFair(piece)
    ensures Flagged(ReadOutputBlocks(callId, [PieceBlock(piece)] + rest), error)
      == PiecePart(callId, error, piece) + Flagged(ReadOutputBlocks(callId, rest), error)
  {
    OnePieceRead(callId, piece, rest);
    hide ReadOutputBlocks, PieceFair;
    var more := ReadOutputBlocks(callId, rest);
    match piece
    case SaidPiece(_, text, _) =>
      FlaggedAppend([ResultPart(callId, text)], more, error);
      OneFlagged(ResultPart(callId, text), error);
    case ShownPiece(_, _, m) =>
      FlaggedAppend([MediaPart(m, callId, false)], more, error);
      OneFlagged(MediaPart(m, callId, false), error);
    case NoPiece(_) =>
      assert [] + more == more && [] + Flagged(more, error) == Flagged(more, error);
  }

  lemma {:induction false} OnePieceRead(callId: string, piece: Piece, rest: seq<Option<Block>>)
    requires PieceFair(piece)
    ensures ReadOutputBlocks(callId, [PieceBlock(piece)] + rest)
      == (match piece
          case SaidPiece(_, text, _) => [ResultPart(callId, text)]
          case ShownPiece(_, _, m) => [MediaPart(m, callId, false)]
          case NoPiece(_) => []) + ReadOutputBlocks(callId, rest)
  {
    var blocks := [PieceBlock(piece)] + rest;
    assert blocks[0] == PieceBlock(piece) && blocks[1..] == rest;
    if PieceBlock(piece).Some? { KindsAreNamed(PieceBlock(piece).value.kind); }
  }

  lemma {:induction false} PiecesRead(callId: string, error: bool, pieces: seq<Piece>)
    requires AllPieces(pieces)
    ensures Flagged(ReadOutputBlocks(callId, PieceBlocks(pieces)), error) == PieceParts(callId, error, pieces)
  {
    hide PieceFair, PieceBlock, PiecePart;
    if pieces != [] {
      PiecesRead(callId, error, pieces[1..]);
      OnePiece(callId, error, pieces[0], PieceBlocks(pieces[1..]));
    }
  }

  lemma {:induction false} FlaggedNone(parts: seq<Part>, error: bool)
    ensures Flagged(parts, error) == [] <==> parts == []
  {}

  lemma {:induction false} BlocksArePieces(blocks: seq<Option<Block>>) returns (pieces: seq<Piece>)
    ensures AllPieces(pieces) && PieceBlocks(pieces) == blocks
  {
    pieces := [];
    if blocks != [] {
      var piece := NoPiece(blocks[0]);
      if blocks[0].Some? {
        var b := blocks[0].value;
        KindsAreNamed(b.kind);
        if TextKind(b.kind) { piece := SaidPiece(b.kind, b.text, b.media); }
        else if OutputMediaKind(b.kind) && b.media.Some? { piece := ShownPiece(b.kind, b.text, b.media.value); }
      }
      assert PieceFair(piece) && PieceBlock(piece) == blocks[0];
      hide PieceFair, PieceBlock;
      var rest := BlocksArePieces(blocks[1..]);
      pieces := [piece] + rest;
      assert pieces[0] == piece && pieces[1..] == rest;
    }
  }

  // ----- whole rollouts -----

  datatype Reply = Silent | Plainly(text: string) | InPieces(pieces: seq<Piece>) | Encoded(text: string) | Unencodable

  /** What a call was given: an object, no value, another value, or a text that is no JSON. */
  datatype Input = AnObject(text: string, fields: map<string, Json>) | NoValue(text: string) | AValue(text: string, value: Json) | NoJson(text: string, odd: Option<Json>)

  datatype Native =
    | Speech(timestamp: int, role: string, us: seq<Uttered>)
    | Thought(timestamp: int, lines: seq<Option<string>>)
    | Call(timestamp: int, callId: string, name: string, input: Input)
    | Answer(timestamp: int, callId: string, reply: Reply, error: bool)
    | Planned(timestamp: int, text: string)
    | Noise(record: Record)

  ghost predicate NativeFair(n: Native) {
    match n
    case Speech(_, role, us) => (role == "user" || role == "assistant") && AllUttered(role, us)
    case Thought(_, lines) => forall i :: 0 <= i < |lines| && lines[i].Some? ==> lines[i].value != ""
    case Call(_, _, _, input) =>
      (match input
       case AnObject(text, _) => text != ""
       case NoValue(text) => text != ""
       case AValue(text, value) => text != "" && !value.JObject? && !value.JNull?
       case NoJson(text, value) => text == "" || value.None?)
    case Answer(_, _, reply, _) => reply.InPieces? ==> AllPieces(reply.pieces)
    case Planned(_, text) => text != ""
    case Noise(record) =>
      (match record
       case ResponseItem(_, item) =>
         item.OtherItem? || (item.MessageItem? && ((item.role != "user" && item.role != "assistant") || item.content.None?))
       case PlanUpdate(_, text) => text == ""
       case OtherRecord(_) => true)
  }

  function RawLines(lines: seq<Option<string>>): seq<string> {
    if lines == [] then [] else [if lines[0].Some? then lines[0].value else ""] + RawLines(lines[1..])
  }

  function Thoughts(lines: seq<Option<string>>): seq<string> {
    if lines == [] then [] else (if lines[0].Some? then [lines[0].value] else []) + Thoughts(lines[1..])
  }

  function InputText(input: Input): RawJson {
    match input
    case AnObject(text, fields) => RawJson(text, Some(JObject(fields)))
    case NoValue(text) => RawJson(text, Some(JNull))
    case AValue(text, value) => RawJson(text, Some(value))
    case NoJson(text, value) => RawJson(text, value)
  }

  function ReplyOutput(reply: Reply): Output {
    match reply
    case Silent => NoOutput
    case Plainly(text) => OutText(text)
    case InPieces(pieces) => OutBlocks(PieceBlocks(pieces))
    case Encoded(text) => OutOther(Some(text))
    case Unencodable => OutOther(None)
  }

  function NativeRecord(n: Native): Record {
    match n
    case Speech(ts, role, us) => ResponseItem(ts, MessageItem(role, Some(UtteredBlocks(us))))
    case Thought(ts, lines) => ResponseItem(ts, ReasoningItem(RawLines(lines)))
    case Call(ts, callId, name, input) => ResponseItem(ts, FunctionCall(callId, name, InputText(input)))
    case Answer(ts, callId, reply, error) => ResponseItem(ts, FunctionCallOutput(callId, ReplyOutput(reply), error))
    case Planned(ts, text) => PlanUpdate(ts, text)
    case Noise(record) => record
  }

  function NativeRecords(ns: seq<Native>): seq<Record> { if ns == [] then [] else [NativeRecord(ns[0])] + NativeRecords(ns[1..]) }

  function PlansAt(ts: int, plans: seq<string>): seq<Event> {
    if plans == [] then [] else [Event(Plan, "assistant", ts, [], plans[0])] + PlansAt(ts, plans[1..])
  }

  /** What a call's input becomes: an object, in every case but no value. */
  function GivenInput(input: Input): RawJson {
    match input
    case AnObject(text, fields) => RawJson(text, Some(JObject(fields)))
    case NoValue(text) => RawJson(text, Some(JNull))
    case AValue(text, value) => RawJson("{\"value\":" + text + "}", Some(JObject(map["value" := value])))
    case NoJson(text, _) => RawJson("{\"input\":\"" + text + "\"}", Some(JObject(map["input" := JString(text)])))
  }

  function AnswerParts(callId: string, reply: Reply, error: bool): seq<Part> {
    match reply
    case Silent => [AnswerPart(callId, error, "")]
    case Plainly(text) => [AnswerPart(callId, error, text)]
    case InPieces(pieces) =>
      var parts := PieceParts(callId, error, pieces);
      if parts == [] then [AnswerPart(callId, error, "")] else parts
    case Encoded(text) => [AnswerPart(callId, error, text)]
    case Unencodable => []
  }

  function NativeEvents(n: Native): seq<Event> {
    match n
    case Speech(ts, role, us) =>
      (if HeardParts(us) == [] then [] else [Event(Message, role, ts, HeardParts(us), "")]) + PlansAt(ts, HeardPlans(us))
    case Thought(ts, lines) =>
      if Thoughts(lines) == [] then []
      else [Event(Message, "assistant", ts, [Part(Reasoning, "", "", JoinWith(Thoughts(lines), "\n"), NO_DATA, false, "", "", "", "")], "")]
    case Call(ts, callId, name, input) =>
      [Event(Message, "assistant", ts, [Part(ToolCall, callId, name, "", GivenInput(input), false, "", "", "", "")], "")]
    case Answer(ts, callId, reply, error) => [Event(Message, "tool", ts, AnswerParts(callId, reply, error), "")]
    case Planned(ts, text) => [Event(Plan, "assistant", ts, [], text)]
    case Noise(_) => []
  }

  function AllNativeEvents(ns: seq<Native>): seq<Event> { if ns == [] then [] else NativeEvents(ns[0]) + AllNativeEvents(ns[1..]) }

  ghost predicate AllNative(ns: seq<Native>) { forall i :: 0 <= i < |ns| ==> NativeFair(ns[i]) }

  lemma {:induction false} PlansAre(ts: int, plans: seq<string>)
    ensures PlanEvents(ts, plans) == PlansAt(ts, plans)
  {
    if plans != [] { PlansAre(ts, plans[1..]); }
  }

  lemma {:induction false} LinesJoin(lines: seq<string>)
    ensures JoinLines(lines) == JoinWith(lines, "\n")
  {
    if |lines| > 1 { LinesJoin(lines[1..]); }
  }

  lemma {:induction false} LinesThought(lines: seq<Option<string>>)
    requires forall i :: 0 <= i < |lines| && lines[i].Some? ==> lines[i].value != ""
    ensures NonEmpty(RawLines(lines)) == Thoughts(lines)
  {
    if lines != [] {
      assert forall i :: 0 <= i < |lines| - 1 ==> lines[1..][i] == lines[i + 1];
      LinesThought(lines[1..]);
    }
  }

  lemma {:induction false} SpeechReads(ts: int, role: string, us: seq<Uttered>)
    requires (role == "user" || role == "assistant") && AllUttered(role, us)
    ensures ReadRecord(NativeRecord(Speech(ts, role, us))) == NativeEvents(Speech(ts, role, us))
  {
    ContentReads(role, us);
    PlansAre(ts, HeardPlans(us));
    hide ReadContent, UtteredBlocks, HeardParts, HeardPlans, PlanEvents, PlansAt, AllUttered;
  }

  lemma {:induction false} AnswerReads(ts: int, callId: string, reply: Reply, error: bool)
    requires reply.InPieces? ==> AllPieces(reply.pieces)
    ensures ReadRecord(NativeRecord(Answer(ts, callId, reply, error))) == NativeEvents(Answer(ts, callId, reply, error))
  {
    hide PieceFair;
    match reply
    case Silent => OneFlagged(ResultPart(callId, ""), error);
    case Plainly(text) => OneFlagged(ResultPart(callId, text), error);
    case InPieces(pieces) =>
      PiecesRead(callId, error, pieces);
      FlaggedNone(ReadOutputBlocks(callId, PieceBlocks(pieces)), error);
      OneFlagged(ResultPart(callId, ""), error);
      hide ReadOutputBlocks, PieceBlocks, PieceParts;
    case Encoded(text) => OneFlagged(ResultPart(callId, text), error);
    case Unencodable => FlaggedNone([], error);
  }

  lemma {:induction false} NativeReads(n: Native)
    requires NativeFair(n)
    ensures ReadRecord(NativeRecord(n)) == NativeEvents(n)
  {
    match n
    case Speech(ts, role, us) => SpeechReads(ts, role, us);
    case Thought(ts, lines) =>
      LinesThought(lines);
      LinesJoin(Thoughts(lines));
      hide NonEmpty, RawLines, Thoughts, JoinLines, JoinWith;
    case Call(_, _, _, _) =>
    case Answer(ts, callId, reply, error) =>
      hide AllPieces;
      AnswerReads(ts, callId, reply, error);
    case Planned(_, _) =>
    case Noise(_) => hide ReadContent, ReadOutput;
  }

  /** Whatever a rollout says in these ways is read so, record by record. */
  lemma {:induction false} RolloutReads(ns: seq<Native>)
    requires AllNative(ns)
    ensures Read(NativeRecords(ns)) == AllNativeEvents(ns)
  {
    hide NativeFair, NativeRecord, NativeEvents, ReadRecord;
    if ns != [] {
      NativeReads(ns[0]);
      RolloutReads(ns[1..]);
    }
  }

  lemma {:induction false} LinesAreThought(summary: seq<string>) returns (lines: seq<Option<string>>)
    ensures RawLines(lines) == summary && forall i :: 0 <= i < |lines| && lines[i].Some? ==> lines[i].value != ""
  {
    lines := [];
    if summary != [] {
      var rest := LinesAreThought(summary[1..]);
      lines := [if summary[0] == "" then None else Some(summary[0])] + rest;
      assert lines[1..] == rest;
    }
  }

  lemma {:induction false} RecordIsNative(record: Record) returns (n: Native)
    ensures NativeFair(n) && NativeRecord(n) == record
  {
    hide AllUttered, AllPieces, UtteredBlocks, PieceBlocks, RawLines;
    n := Noise(record);
    match record
    case ResponseItem(ts, item) =>
      match item {
       case MessageItem(role, content) =>
         if (role == "user" || role == "assistant") && content.Some? {
           var us := ContentIsUttered(role, content.value);
           n := Speech(ts, role, us);
         }
       case FunctionCall(callId, name, raw) =>
         n := Call(ts, callId, name,
                   if raw.text == "" || raw.value.None? then NoJson(raw.text, raw.value)
                   else if raw.value.value.JObject? then AnObject(raw.text, raw.value.value.fields)
                   else if raw.value.value.JNull? then NoValue(raw.text)
                   else AValue(raw.text, raw.value.value));
       case FunctionCallOutput(callId, output, error) =>
         var pieces: seq<Piece> := [];
         if output.OutBlocks? { pieces := BlocksArePieces(output.blocks); }
         n := Answer(ts, callId,
                     match output
                     case NoOutput => Silent
                     case OutText(text) => Plainly(text)
                     case OutBlocks(_) => InPieces(pieces)
                     case OutOther(encoded) => (if encoded.Some? then Encoded(encoded.value) else Unencodable),
                     error);
       case ReasoningItem(summary) =>
         var lines := LinesAreThought(summary);
         n := Thought(ts, lines);
       case OtherItem(_) =>
      }
    case PlanUpdate(ts, text) => if text != "" { n := Planned(ts, text); }
    case OtherRecord(_) =>
  }

  /** Every rollout says something in these ways, so every rollout is read so. */
  lemma {:induction false} EveryRolloutIsNative(records: seq<Record>) returns (ns: seq<Native>)
    ensures AllNative(ns) && NativeRecords(ns) == records && Read(records) == AllNativeEvents(ns)
  {
    ns := [];
    if records != [] {
      hide NativeFair, NativeRecord, Read, AllNativeEvents;
      var n := RecordIsNative(records[0]);
      var rest := EveryRolloutIsNative(records[1..]);
      ns := [n] + rest;
      assert ns[0] == n && ns[1..] == rest;
    }
    hide NativeRecord, NativeFair;
    RolloutReads(ns);
  }
}
