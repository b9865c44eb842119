/** A conversation as Claude transcript records: what the writer emits for each event and what
    the reader makes of each user and assistant record (internal/session/claude.go, util.go).
    Attachments, queued prompts and record ids are not modelled. */
module Claude {
  import opened Basics
  import opened Text
  import opened Conversation
  import opened MediaUrl
  import opened Codex

  /** How JSON values are printed. */
  datatype Foreign = Foreign(encode: Json -> string)

  // ----- records -----

  datatype Source = Base64Source(mediaType: string, data: string) | UrlSource(url: string, mediaType: string) | OtherSource

  datatype Inner = InnerText(text: string) | InnerMedia(source: Source, filename: string) | OtherInner

  datatype ResultContent = NoResult | TextResult(text: string) | ListResult(items: seq<Inner>) | OtherResult

  datatype Claim =
    | TextBlock(text: string)
    | ThinkingBlock(text: string)
    | MediaBlock(source: Source, filename: string)
    | ToolUse(id: string, name: string, input: Json)
    | ToolResultBlock(id: string, content: ResultContent, error: bool)
    | OtherBlock

  datatype Content = PlainText(text: string) | Blocks(blocks: seq<Claim>) | OtherContent

  datatype Line = Line(role: string, timestamp: int, content: Content) | OtherLine

  // ----- the writer -----

  function SourceOf(p: Part): Source {
    if p.mediaData == "" then UrlSource(p.mediaUrl, "") else Base64Source(p.mediaType, p.mediaData)
  }

  /** The block of one part; `OtherPart`s have none. */
  function BlockOf(role: string, p: Part): seq<Claim> {
    match p.kind
    case Text => [TextBlock(p.text)]
    case Reasoning => [TextBlock(p.text)]
    case ToolCall =>
      var input := ObjectInput(p.data);
      [ToolUse(p.callId, p.toolName, if input.value.Some? then input.value.value else JNull)]
    case ToolResult => [ToolResultBlock(p.callId, TextResult(p.text), p.error)]
    case Media =>
      if role == "assistant" || p.callId == "" then [MediaBlock(SourceOf(p), p.filename)]
      else [ToolResultBlock(p.callId, ListResult([InnerMedia(SourceOf(p), p.filename)]), p.error)]
    case OtherPart(_) => []
  }

  /** Whether the part goes into the assistant's record. */
  predicate AssistantSide(role: string, p: Part) {
    p.kind.Reasoning? || p.kind.ToolCall? || (role == "assistant" && (p.kind.Text? || p.kind.Media?))
  }

  function BlocksOf(role: string, parts: seq<Part>, assistant: bool): seq<Claim> {
    if parts == [] then []
    else
      (if AssistantSide(role, parts[0]) == assistant then BlockOf(role, parts[0]) else [])
      + BlocksOf(role, parts[1..], assistant)
  }

  function CallsWithout(answered: set<string>, parts: seq<Part>): seq<string> {
    if parts == [] then []
    else
      (if parts[0].kind.ToolCall? && parts[0].callId !in answered then [parts[0].callId] else [])
      + CallsWithout(answered, parts[1..])
  }

  function Interruptions(ids: seq<string>): seq<Claim> {
    if ids == [] then [] else [ToolResultBlock(ids[0], TextResult(INTERRUPTED), true)] + Interruptions(ids[1..])
  }

  function LineOf(role: string, ts: int, blocks: seq<Claim>): seq<Line> {
    if blocks == [] then [] else [Line(role, ts, Blocks(blocks))]
  }

  function WriteEventLines(e: Event, now: int, answered: set<string>): seq<Line> {
    var ts := TimestampOr(e.timestamp, now);
    if e.kind.Plan? then
      if Blank(e.planText) then []
      else [Line("assistant", ts, Blocks([TextBlock(OPEN_PLAN + "\n" + e.planText + "\n" + CLOSE_PLAN)]))]
    else
      LineOf("assistant", ts, BlocksOf(e.role, e.parts, true)) + LineOf("user", ts, BlocksOf(e.role, e.parts, false))
      + LineOf("user", ts, Interruptions(CallsWithout(answered, e.parts)))
  }

  function WriteLines(events: seq<Event>, now: int, answered: set<string>): seq<Line> {
    if events == [] then [] else WriteEventLines(events[0], now, answered) + WriteLines(events[1..], now, answered)
  }

  function WriteClaude(events: seq<Event>, now: int): seq<Line> { WriteLines(events, now, Answered(events)) }

  // ----- media on their way in -----

  function ReadSource(source: Source, filename: string): Option<MediaRef> {
    match source
    case Base64Source(mediaType, data) =>
      ReadMedia(DATA_SCHEME + mediaType + MARK + data, mediaType, filename)
    case UrlSource(url, mediaType) => ReadMedia(url, mediaType, filename)
    case OtherSource => None
  }

  // ----- the reader -----

  function ReadInner(id: string, error: bool, items: seq<Inner>): seq<Part> {
    if items == [] then []
    else
      var rest := ReadInner(id, error, items[1..]);
      match items[0]
      case InnerText(text) => [ResultPart(id, text).(error := error)] + rest
      case InnerMedia(source, filename) =>
        var media := ReadSource(source, filename);
        (if media.Some? then [MediaPart(media.value, id, error)] else []) + rest
      case OtherInner => rest
  }

  function ReadResult(id: string, error: bool, content: ResultContent): seq<Part> {
    match content
    case NoResult => [ResultPart(id, "").(error := error)]
    case TextResult(text) => [ResultPart(id, text).(error := error)]
    case ListResult(items) => ReadInner(id, error, items)
    case OtherResult => []
  }

  const EXIT_PLAN := {"ExitPlanMode", "ExitPlanModeV2", "exit-plan-mode-v2"}

  /** The plan that a call leaves plan mode with. */
  function ExitPlan(name: string, input: Json): seq<string> {
    if name in EXIT_PLAN && input.JObject? && "plan" in input.fields && input.fields["plan"].JString?
       && !Blank(input.fields["plan"].s)
    then [input.fields["plan"].s] else []
  }

  function CallPart(id: string, name: string, input: RawJson): Part {
    Part(ToolCall, id, name, "", input, false, "", "", "", "")
  }

  /** No input is an empty object. */
  function Reencoded(f: Foreign, input: Json): RawJson {
    if input.JNull? then EMPTY_OBJECT else RawJson(f.encode(input), Some(input))
  }

  /** The parts of one block, and the plans it proposes. */
  function ReadBlock(f: Foreign, role: string, block: Claim): (seq<Part>, seq<string>) {
    match block
    case TextBlock(text) =>
      if text == "" then ([], [])
      else if role == "assistant" && ProposedPlan(text).Some? then ([], [ProposedPlan(text).value])
      else ([TextPart(text)], [])
    case ThinkingBlock(text) => (if text == "" then [] else [TextPart(text).(kind := Reasoning)], [])
    case MediaBlock(source, filename) =>
      var media := ReadSource(source, filename);
      (if media.Some? then [MediaPart(media.value, "", false)] else [], [])
    case ToolUse(id, name, input) => ([CallPart(id, name, Reencoded(f, input))], ExitPlan(name, input))
    case ToolResultBlock(id, content, error) => (ReadResult(id, error, content), [])
    case OtherBlock => ([], [])
  }

  function ReadBlocks(f: Foreign, role: string, blocks: seq<Claim>): (seq<Part>, seq<string>) {
    if blocks == [] then ([], [])
    else
      var (parts, plans) := ReadBlock(f, role, blocks[0]);
      var (more, others) := ReadBlocks(f, role, blocks[1..]);
      (parts + more, plans + others)
  }

  predicate OnlyResults(parts: seq<Part>) {
    parts != [] && forall p :: p in parts ==> p.kind.ToolResult? || (p.kind.Media? && p.callId != "")
  }

  function ReadLine(f: Foreign, line: Line): seq<Event> {
    if line.OtherLine? || line.role !in {"user", "assistant"} then []
    else
      var (parts, plans) :=
        match line.content
        case PlainText(text) => (if text == "" then [] else [TextPart(text)], [])
        case Blocks(blocks) => ReadBlocks(f, line.role, blocks)
        case OtherContent => ([], []);
      (if parts == [] then [] else [MessageEvent(if OnlyResults(parts) then "tool" else line.role, line.timestamp, parts)])
      + PlanEvents(line.timestamp, plans)
  }

  function ReadClaude(f: Foreign, lines: seq<Line>): seq<Event> {
    if lines == [] then [] else ReadLine(f, lines[0]) + ReadClaude(f, lines[1..])
  }

  function Trip(f: Foreign, events: seq<Event>, now: int): seq<Event> { ReadClaude(f, WriteClaude(events, now)) }

  lemma {:induction false} ReadAppends(f: Foreign, a: seq<Line>, b: seq<Line>)
    ensures ReadClaude(f, a + b) == ReadClaude(f, a) + ReadClaude(f, b)
  {
    hide ReadLine;
    if a == [] {
      assert a + b == b && ReadClaude(f, a) + ReadClaude(f, b) == ReadClaude(f, b);
    } else {
      assert (a + b)[0] == a[0] && (a + b)[1..] == a[1..] + b;
      ReadAppends(f, a[1..], b);
      assert ReadLine(f, a[0]) + (ReadClaude(f, a[1..]) + ReadClaude(f, b))
          == (ReadLine(f, a[0]) + ReadClaude(f, a[1..])) + ReadClaude(f, b);
    }
  }

  // ----- the writer and the reader as the source runs them -----

  lemma {:induction false} BlocksNext(role: string, parts: seq<Part>, i: nat, assistant: bool, blocks: seq<Claim>)
    requires i < |parts|
    ensures blocks + BlocksOf(role, parts[i..], assistant)
      == (if AssistantSide(role, parts[i]) == assistant then blocks + BlockOf(role, parts[i]) else blocks)
         + BlocksOf(role, parts[i + 1..], assistant)
  {
    hide BlockOf, AssistantSide;
    assert parts[i..][0] == parts[i] && parts[i..][1..] == parts[i + 1..];
    var here := if AssistantSide(role, parts[i]) == assistant then BlockOf(role, parts[i]) else [];
    var rest := BlocksOf(role, parts[i + 1..], assistant);
    assert blocks + (here + rest) == (blocks + here) + rest;
    assert blocks + [] == blocks;
  }

  lemma {:induction false} CallsNext(answered: set<string>, parts: seq<Part>, i: nat, ids: seq<string>)
    requires i < |parts|
    ensures ids + CallsWithout(answered, parts[i..])
      == (if parts[i].kind.ToolCall? && parts[i].callId !in answered then ids + [parts[i].callId] else ids)
         + CallsWithout(answered, parts[i + 1..])
  {
    assert parts[i..][0] == parts[i] && parts[i..][1..] == parts[i + 1..];
    var here := if parts[i].kind.ToolCall? && parts[i].callId !in answered then [parts[i].callId] else [];
    var rest := CallsWithout(answered, parts[i + 1..]);
    assert ids + (here + rest) == (ids + here) + rest;
    assert ids + [] == ids;
  }

  /** Splits one event into the blocks of its two records and the calls to be interrupted. */
  method ClaudeBlocks(event: Event, results: set<string>)
    returns (assistant: seq<Claim>, user: seq<Claim>, dangling: seq<string>)
    ensures assistant == BlocksOf(event.role, event.parts, true)
    ensures user == BlocksOf(event.role, event.parts, false)
    ensures dangling == CallsWithout(results, event.parts)
  {
    assistant, user, dangling := [], [], [];
    ghost var parts := event.parts;
    assert parts[0..] == parts;
    assert [] + BlocksOf(event.role, parts, true) == BlocksOf(event.role, parts, true);
    assert [] + BlocksOf(event.role, parts, false) == BlocksOf(event.role, parts, false);
    assert [] + CallsWithout(results, parts) == CallsWithout(results, parts);
    for i := 0 to |event.parts|
      invariant assistant + BlocksOf(event.role, parts[i..], true) == BlocksOf(event.role, parts, true)
      invariant user + BlocksOf(event.role, parts[i..], false) == BlocksOf(event.role, parts, false)
      invariant dangling + CallsWithout(results, parts[i..]) == CallsWithout(results, parts)
    {
      hide BlocksOf, CallsWithout, ObjectInput;
      BlocksNext(event.role, parts, i, true, assistant);
      BlocksNext(event.role, parts, i, false, user);
      CallsNext(results, parts, i, dangling);
      assistant, user, dangling := AddBlock(event.role, event.parts[i], results, assistant, user, dangling);
    }
    assert parts[|parts|..] == [];
    assert assistant + [] == assistant && user + [] == user && dangling + [] == dangling;
  }

  method AddBlock(role: string, part: Part, results: set<string>, assistant: seq<Claim>, user: seq<Claim>, dangling: seq<string>)
    returns (assistant': seq<Claim>, user': seq<Claim>, dangling': seq<string>)
    ensures assistant' == if AssistantSide(role, part) then assistant + BlockOf(role, part) else assistant
    ensures user' == if AssistantSide(role, part) then user else user + BlockOf(role, part)
    ensures dangling' == if part.kind.ToolCall? && part.callId !in results then dangling + [part.callId] else dangling
  {
    hide ObjectInput;
    assistant', user', dangling' := assistant, user, dangling;
    match part.kind {
      case Text =>
        if role == "assistant" { assistant' := assistant + [TextBlock(part.text)]; }
        else { user' := user + [TextBlock(part.text)]; }
      case Reasoning => assistant' := assistant + [TextBlock(part.text)];
      case ToolCall =>
        var input := ObjectInput(part.data);
        assistant' := assistant + [ToolUse(part.callId, part.toolName, if input.value.Some? then input.value.value else JNull)];
        if part.callId !in results { dangling' := dangling + [part.callId]; }
      case Media =>
        var source := SourceOf(part);
        if role == "assistant" {
          assistant' := assistant + [MediaBlock(source, part.filename)];
        } else if part.callId != "" {
          user' := user + [ToolResultBlock(part.callId, ListResult([InnerMedia(source, part.filename)]), part.error)];
        } else {
          user' := user + [MediaBlock(source, part.filename)];
        }
      case ToolResult => user' := user + [ToolResultBlock(part.callId, TextResult(part.text), part.error)];
      case OtherPart(_) => assert user + [] == user;
    }
  }

  method InterruptedBlocks(dangling: seq<string>) returns (blocks: seq<Claim>)
    ensures blocks == Interruptions(dangling)
  {
    blocks := [];
    assert dangling[0..] == dangling;
    for i := 0 to |dangling|
      invariant blocks + Interruptions(dangling[i..]) == Interruptions(dangling)
    {
      assert dangling[i..][0] == dangling[i] && dangling[i..][1..] == dangling[i + 1..];
      blocks := blocks + [ToolResultBlock(dangling[i], TextResult(INTERRUPTED), true)];
    }
    assert dangling[|dangling|..] == [];
  }

  lemma {:induction false} LinesNext(events: seq<Event>, now: int, answered: set<string>, i: nat, lines: seq<Line>)
    requires i < |events|
    ensures lines + WriteLines(events[i..], now, answered)
      == (lines + WriteEventLines(events[i], now, answered)) + WriteLines(events[i + 1..], now, answered)
  {
    hide WriteEventLines;
    assert events[i..][0] == events[i] && events[i..][1..] == events[i + 1..];
    var next, rest := WriteEventLines(events[i], now, answered), WriteLines(events[i + 1..], now, answered);
    assert lines + (next + rest) == (lines + next) + rest;
  }

  /** Writes the transcript of a thread and reports the last plan in it. */
  method WriteClaudeEvents(events: seq<Event>, now: int) returns (lines: seq<Line>, planText: string)
    ensures lines == WriteClaude(events, now)
    ensures planText == LastPlan(events)
  {
    var results := CollectResults(events);
    lines, planText := [], "";
    assert events[0..] == events && [] + WriteLines(events, now, results) == WriteLines(events, now, results);
    assert events[..0] == [];
    for i := 0 to |events|
      invariant lines + WriteLines(events[i..], now, results) == WriteLines(events, now, results)
      invariant planText == LastPlan(events[..i])
    {
      hide *;
      LinesNext(events, now, results, i, lines);
      LastPlanNext(events, i);
      var written, plan := WriteOneEvent(events[i], now, results, planText);
      lines, planText := lines + written, plan;
    }
    assert events[|events|..] == [] && events[..|events|] == events;
    assert lines + [] == lines;
  }

  /** The text of the last plan that says anything. */
  function LastPlan(events: seq<Event>): string {
    if events == [] then ""
    else
      var last := events[|events| - 1];
      if last.kind.Plan? && !Blank(last.planText) then last.planText else LastPlan(events[..|events| - 1])
  }

  lemma {:induction false} LastPlanNext(events: seq<Event>, i: nat)
    requires i < |events|
    ensures LastPlan(events[..i + 1])
      == if events[i].kind.Plan? && !Blank(events[i].planText) then events[i].planText else LastPlan(events[..i])
  {
    hide Blank;
    assert events[..i + 1][i] == events[i] && events[..i + 1][..i] == events[..i];
  }

  method WriteOneEvent(event: Event, now: int, results: set<string>, before: string)
    returns (lines: seq<Line>, planText: string)
    ensures lines == WriteEventLines(event, now, results)
    ensures planText == if event.kind.Plan? && !Blank(event.planText) then event.planText else before
  {
    hide Blank, BlocksOf, CallsWithout, Interruptions;
    var ts := TimestampOr(event.timestamp, now);
    if event.kind.Plan? {
      if Blank(event.planText) { return [], before; }
      return [Line("assistant", ts, Blocks([TextBlock(OPEN_PLAN + "\n" + event.planText + "\n" + CLOSE_PLAN)]))], event.planText;
    }
    lines, planText := [], before;
    var assistant, user, dangling := ClaudeBlocks(event, results);
    if assistant != [] { lines := lines + [Line("assistant", ts, Blocks(assistant))]; }
    if user != [] { lines := lines + [Line("user", ts, Blocks(user))]; }
    var blocks := InterruptedBlocks(dangling);
    if dangling != [] { lines := lines + [Line("user", ts, Blocks(blocks))]; }
    InterruptionsEmpty(dangling);
  }

  lemma {:induction false} InterruptionsEmpty(ids: seq<string>)
    ensures Interruptions(ids) == [] <==> ids == []
  {}

  lemma {:induction false} ReadLinesNext(f: Foreign, lines: seq<Line>, i: nat, events: seq<Event>)
    requires i < |lines|
    ensures events + ReadClaude(f, lines[i..]) == (events + ReadLine(f, lines[i])) + ReadClaude(f, lines[i + 1..])
  {
    hide ReadLine;
    assert lines[i..][0] == lines[i] && lines[i..][1..] == lines[i + 1..];
    var next, rest := ReadLine(f, lines[i]), ReadClaude(f, lines[i + 1..]);
    assert events + (next + rest) == (events + next) + rest;
  }

  lemma {:induction false} ReadBlocksNext(f: Foreign, role: string, blocks: seq<Claim>, i: nat, parts: seq<Part>, plans: seq<string>)
    requires i < |blocks|
    ensures var (here, proposed), (more, others) := ReadBlock(f, role, blocks[i]), ReadBlocks(f, role, blocks[i + 1..]);
      var (rest, later) := ReadBlocks(f, role, blocks[i..]);
      parts + rest == (parts + here) + more && plans + later == (plans + proposed) + others
  {
    hide ReadBlock;
    assert blocks[i..][0] == blocks[i] && blocks[i..][1..] == blocks[i + 1..];
  }

  lemma {:induction false} NothingRead(f: Foreign, line: Line)
    ensures line.OtherLine? || line.role !in {"user", "assistant"} ==> ReadLine(f, line) == []
  {
    hide ReadBlocks, OnlyResults;
  }

  lemma {:induction false} LineReads(f: Foreign, line: Line, parts: seq<Part>, plans: seq<string>)
    requires line.Line? && line.role in {"user", "assistant"}
    requires line.content.PlainText? ==> parts == (if line.content.text == "" then [] else [TextPart(line.content.text)]) && plans == []
    requires line.content.Blocks? ==> (parts, plans) == ReadBlocks(f, line.role, line.content.blocks)
    requires line.content.OtherContent? ==> parts == [] && plans == []
    ensures ReadLine(f, line) ==
      (if parts == [] then [] else [MessageEvent(if OnlyResults(parts) then "tool" else line.role, line.timestamp, parts)])
      + PlanEvents(line.timestamp, plans)
  {
    hide ReadBlocks, OnlyResults;
  }

  /** The stream a transcript is read into. */
  class ClaudeStream {
    var events: seq<Event>

    constructor ()
      ensures events == []
    {
      events := [];
    }

    /** Reads one record: at most one message, then the plans it proposes. */
    method Record(f: Foreign, line: Line)
      modifies this
      ensures events == old(events) + ReadLine(f, line)
    {
      hide *;
      NothingRead(f, line);
      if line.OtherLine? || line.role !in {"user", "assistant"} { return; }
      var parts, plans := [], [];
      match line.content {
        case PlainText(text) => if text != "" { parts := [TextPart(text)]; }
        case Blocks(blocks) => parts, plans := ReadEach(f, line.role, blocks);
        case OtherContent =>
      }
      ghost var message := if parts == [] then [] else [MessageEvent(if OnlyResults(parts) then "tool" else line.role, line.timestamp, parts)];
      LineReads(f, line, parts, plans);
      if parts != [] {
        events := events + [MessageEvent(if OnlyResults(parts) then "tool" else line.role, line.timestamp, parts)];
      }
      assert events == old(events) + message;
      ghost var before := events;
      assert plans[0..] == plans;
      for i := 0 to |plans|
        invariant events + PlanEvents(line.timestamp, plans[i..]) == before + PlanEvents(line.timestamp, plans)
      {
        hide *;
        PlanEventsNext(line.timestamp, plans, i, events);
        events := events + [PlanEvent(line.timestamp, plans[i])];
      }
      NoPlans(line.timestamp, plans[|plans|..]);
      assert before + PlanEvents(line.timestamp, plans) == old(events) + (message + PlanEvents(line.timestamp, plans));
    }
  }

  lemma {:induction false} PlanEventsNext(ts: int, plans: seq<string>, i: nat, events: seq<Event>)
    requires i < |plans|
    ensures events + PlanEvents(ts, plans[i..]) == (events + [PlanEvent(ts, plans[i])]) + PlanEvents(ts, plans[i + 1..])
  {
    assert plans[i..][0] == plans[i] && plans[i..][1..] == plans[i + 1..];
  }

  lemma {:induction false} NoPlans(ts: int, plans: seq<string>)
    requires plans == []
    ensures PlanEvents(ts, plans) == []
  {}

  method ReadEach(f: Foreign, role: string, blocks: seq<Claim>) returns (parts: seq<Part>, plans: seq<string>)
    ensures (parts, plans) == ReadBlocks(f, role, blocks)
  {
    parts, plans := [], [];
    ghost var (all, proposed) := ReadBlocks(f, role, blocks);
    assert blocks[0..] == blocks;
    for i := 0 to |blocks|
      invariant var (rest, later) := ReadBlocks(f, role, blocks[i..]); parts + rest == all && plans + later == proposed
    {
      hide *;
      ReadBlocksNext(f, role, blocks, i, parts, plans);
      var (here, others) := ReadBlock(f, role, blocks[i]);
      parts, plans := parts + here, plans + others;
    }
    assert blocks[|blocks|..] == [] && ReadBlocks(f, role, []) == ([], []);
    assert parts == all && plans == proposed;
  }

  method ParseRecords(f: Foreign, lines: seq<Line>) returns (events: seq<Event>)
    ensures events == ReadClaude(f, lines)
  {
    var stream := new ClaudeStream();
    assert lines[0..] == lines;
    for i := 0 to |lines|
      invariant stream.events + ReadClaude(f, lines[i..]) == ReadClaude(f, lines)
    {
      hide *;
      ReadLinesNext(f, lines, i, stream.events);
      stream.Record(f, lines[i]);
    }
    assert lines[|lines|..] == [];
    events := stream.events;
  }
}
