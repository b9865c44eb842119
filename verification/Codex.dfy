/** A conversation as Codex rollout records: what the writer emits for each event and what the
    reader makes of each record (internal/session/codex.go, util.go).  Record ids and the display
    copies in `event_msg` records are not modelled. */
module Codex {
  import opened Basics
  import opened Text
  import opened Conversation
  import opened MediaUrl

  // ----- plan-shaped text -----

  const OPEN_PLAN := "<proposed_plan>"
  const CLOSE_PLAN := "</proposed_plan>"

  /** The plan inside a text that is nothing but a proposed plan. */
  function ProposedPlan(text: string): Option<string> {
    var t := Trim(text);
    if |t| < |OPEN_PLAN| || !SameFolded(t[..|OPEN_PLAN|], OPEN_PLAN) then None
    else if |t| < |CLOSE_PLAN| || !SameFolded(t[|t| - |CLOSE_PLAN|..], CLOSE_PLAN) then None
    else if |t| - |CLOSE_PLAN| < |OPEN_PLAN| then None
    else Some(Trim(t[|OPEN_PLAN|..|t| - |CLOSE_PLAN|]))
  }

  // ----- records -----

  function MediaOf(p: Part): MediaRef { MediaRef(p.mediaType, p.mediaData, p.mediaUrl, p.filename) }

  function MediaPart(m: MediaRef, callId: string, error: bool): Part {
    Part(Media, callId, "", "", NO_DATA, error, m.mediaType, m.data, m.url, m.filename)
  }

  /** A content block: `media` is what its URL fields decode to. */
  datatype Block = Block(kind: string, text: string, media: Option<MediaRef>)

  datatype Output = NoOutput | OutText(text: string) | OutBlocks(blocks: seq<Option<Block>>) | OutOther(encoded: Option<string>)

  datatype Item =
    | MessageItem(role: string, content: Option<seq<Option<Block>>>)
    | FunctionCall(callId: string, name: string, arguments: RawJson)
    | FunctionCallOutput(callId: string, output: Output, error: bool)
    | ReasoningItem(summary: seq<string>)
    | OtherItem(kind: string)

  datatype Record =
    | ResponseItem(timestamp: int, item: Item)
    | PlanUpdate(timestamp: int, text: string)
    | OtherRecord(kind: string)

  const MESSAGE_TEXT := {"input_text", "output_text", "text"}
  const MESSAGE_MEDIA :=
    {"input_image", "output_image", "image_url", "computer_screenshot", "input_file", "output_file", "file_url"}
  const OUTPUT_MEDIA :=
    {"input_image", "output_image", "image_url", "computer_screenshot", "image", "input_file", "output_file", "file_url", "file"}

  const EMPTY_OBJECT := RawJson("{}", Some(JObject(map[])))

  /** Tool input as an object: anything else is wrapped, and no input is an empty object. */
  function ObjectInput(raw: RawJson): RawJson {
    if raw.text == "" || raw.value.None? then EMPTY_OBJECT
    else if raw.value.value.JObject? || raw.value.value.JNull? then raw
    else RawJson("{\"value\":" + raw.text + "}", Some(JObject(map["value" := raw.value.value])))
  }

  /** Text that is not JSON becomes the `input` field of an object. */
  function ReadInput(raw: RawJson): RawJson {
    if raw.text != "" && raw.value.Some? then ObjectInput(raw)
    else RawJson("{\"input\":\"" + raw.text + "\"}", Some(JObject(map["input" := JString(raw.text)])))
  }

  const INTERRUPTED := "[Tool execution was interrupted before teleport]"

  // ----- the writer -----

  function TimestampOr(ts: int, fallback: int): int { if ts == 0 then fallback else ts }

  function IsImage(mediaType: string): bool {
    |mediaType| >= 6 && SameFolded(mediaType[..6], "image/")
  }

  function MediaKind(role: string, p: Part): string {
    if role == "assistant" then (if IsImage(p.mediaType) then "output_image" else "output_file")
    else (if IsImage(p.mediaType) then "input_image" else "input_file")
  }

  function TextKind(role: string): string { if role == "assistant" then "output_text" else "input_text" }

  function Flush(role: string, ts: int, content: seq<Option<Block>>): seq<Record> {
    if content == [] then []
    else [ResponseItem(ts, MessageItem(role, Some(content))), OtherRecord("event_msg")]
  }

  function OutputRecord(ts: int, callId: string, output: Output, error: bool): Record {
    ResponseItem(ts, FunctionCallOutput(callId, output, error))
  }

  /** A call that nothing answers gets an interrupted result right after it. */
  function CallRecords(ts: int, answered: set<string>, p: Part): seq<Record> {
    [ResponseItem(ts, FunctionCall(p.callId, p.toolName, ObjectInput(p.data)))]
    + (if p.callId in answered then [] else [OutputRecord(ts, p.callId, OutText(INTERRUPTED), true)])
  }

  /** The block of media: its URL, beside its type and file name, is what a reader will make of it. */
  function UrlBlock(role: string, p: Part): Option<Block> {
    Some(Block(MediaKind(role, p), "", Carried(MediaOf(p))))
  }

  /** What writing one part emits, and the content then still waiting to be a message. */
  function WritePart(inTool: bool, role: string, ts: int, answered: set<string>, p: Part, content: seq<Option<Block>>)
    : (seq<Record>, seq<Option<Block>>)
  {
    match p.kind
    case Text => ([], content + [Some(Block(TextKind(role), p.text, None))])
    case Reasoning => ([], content + [Some(Block(TextKind(role), p.text, None))])
    case Media =>
      var block := UrlBlock(role, p);
      if inTool && p.callId != "" then
        (Flush(role, ts, content) + [OutputRecord(ts, p.callId, OutBlocks([block]), p.error)], [])
      else ([], content + [block])
    case ToolCall => (Flush(role, ts, content) + CallRecords(ts, answered, p), [])
    case ToolResult => (Flush(role, ts, content) + [OutputRecord(ts, p.callId, OutText(p.text), p.error)], [])
    case OtherPart(_) => ([], content)
  }

  function WriteParts(inTool: bool, role: string, ts: int, answered: set<string>, parts: seq<Part>, content: seq<Option<Block>>)
    : seq<Record>
    decreases |parts|
  {
    if parts == [] then Flush(role, ts, content)
    else
      var (emitted, content') := WritePart(inTool, role, ts, answered, parts[0], content);
      emitted + WriteParts(inTool, role, ts, answered, parts[1..], content')
  }

  function PlanBlock(plan: string): Option<Block> {
    Some(Block("output_text", OPEN_PLAN + "\n" + plan + "\n" + CLOSE_PLAN, None))
  }

  function WriteEvent(e: Event, now: int, answered: set<string>): seq<Record> {
    var ts := TimestampOr(e.timestamp, now);
    if e.kind.Plan? then Flush("assistant", ts, [PlanBlock(e.planText)])
    else WriteParts(e.role == "tool", if e.role == "tool" then "user" else e.role, ts, answered, e.parts, [])
  }

  function WriteEvents(events: seq<Event>, now: int, answered: set<string>): seq<Record> {
    if events == [] then [] else WriteEvent(events[0], now, answered) + WriteEvents(events[1..], now, answered)
  }

  /** Calls that some tool result or some media names, wherever it is recorded. */
  function AnsweredBy(parts: seq<Part>): set<string> {
    if parts == [] then {}
    else (if parts[0].kind.ToolResult? || (parts[0].kind.Media? && parts[0].callId != "") then {parts[0].callId} else {})
         + AnsweredBy(parts[1..])
  }

  function Answered(events: seq<Event>): set<string> {
    if events == [] then {} else AnsweredBy(events[0].parts) + Answered(events[1..])
  }

  function Write(events: seq<Event>, now: int): seq<Record> { WriteEvents(events, now, Answered(events)) }

  // ----- the reader -----

  /** The parts of a message, and the plans its text proposes. */
  function ReadContent(role: string, content: seq<Option<Block>>): (seq<Part>, seq<string>) {
    if content == [] then ([], [])
    else
      var (parts, plans) := ReadContent(role, content[1..]);
      match content[0]
      case None => (parts, plans)
      case Some(b) =>
        if b.kind in MESSAGE_TEXT then
          if role == "assistant" && ProposedPlan(b.text).Some? then (parts, [ProposedPlan(b.text).value] + plans)
          else if b.text != "" then ([TextPart(b.text)] + parts, plans)
          else (parts, plans)
        else if b.kind in MESSAGE_MEDIA && b.media.Some? then ([MediaPart(b.media.value, "", false)] + parts, plans)
        else (parts, plans)
  }

  function PlanEvent(ts: int, plan: string): Event { Event(Plan, "assistant", ts, [], plan) }

  function PlanEvents(ts: int, plans: seq<string>): seq<Event> {
    if plans == [] then [] else [PlanEvent(ts, plans[0])] + PlanEvents(ts, plans[1..])
  }

  function ReadOutputBlocks(callId: string, blocks: seq<Option<Block>>): seq<Part> {
    if blocks == [] then []
    else
      var rest := ReadOutputBlocks(callId, blocks[1..]);
      match blocks[0]
      case None => rest
      case Some(b) =>
        if b.kind in MESSAGE_TEXT then [ResultPart(callId, b.text)] + rest
        else if b.kind in OUTPUT_MEDIA && b.media.Some? then [MediaPart(b.media.value, callId, false)] + rest
        else rest
  }

  /** Skipping every block of an output still leaves a result, so the call stays paired. */
  function ReadOutput(callId: string, output: Output): seq<Part> {
    match output
    case NoOutput => [ResultPart(callId, "")]
    case OutText(text) => [ResultPart(callId, text)]
    case OutOther(encoded) => if encoded.Some? then [ResultPart(callId, encoded.value)] else []
    case OutBlocks(blocks) =>
      var parts := ReadOutputBlocks(callId, blocks);
      if parts == [] then [ResultPart(callId, "")] else parts
  }

  function Flagged(parts: seq<Part>, error: bool): seq<Part> {
    if parts == [] then [] else [parts[0].(error := error)] + Flagged(parts[1..], error)
  }

  function JoinLines(lines: seq<string>): string {
    if lines == [] then "" else if |lines| == 1 then lines[0] else lines[0] + "\n" + JoinLines(lines[1..])
  }

  function NonEmpty(lines: seq<string>): seq<string> {
    if lines == [] then [] else (if lines[0] != "" then [lines[0]] else []) + NonEmpty(lines[1..])
  }

  function MessageEvent(role: string, ts: int, parts: seq<Part>): Event { Event(Message, role, ts, parts, "") }

  function ReadItem(ts: int, item: Item): seq<Event> {
    match item
    case MessageItem(role, content) =>
      if role !in {"user", "assistant"} || content.None? then []
      else
        var (parts, plans) := ReadContent(role, content.value);
        (if parts == [] then [] else [MessageEvent(role, ts, parts)]) + PlanEvents(ts, plans)
    case FunctionCall(callId, name, arguments) =>
      [MessageEvent("assistant", ts, [Part(ToolCall, callId, name, "", ReadInput(arguments), false, "", "", "", "")])]
    case FunctionCallOutput(callId, output, error) =>
      [MessageEvent("tool", ts, Flagged(ReadOutput(callId, output), error))]
    case ReasoningItem(summary) =>
      if NonEmpty(summary) == [] then []
      else [MessageEvent("assistant", ts, [TextPart(JoinLines(NonEmpty(summary))).(kind := Reasoning)])]
    case OtherItem(_) => []
  }

  function ReadRecord(r: Record): seq<Event> {
    match r
    case ResponseItem(ts, item) => ReadItem(ts, item)
    case PlanUpdate(ts, text) => if text == "" then [] else [PlanEvent(ts, text)]
    case OtherRecord(_) => []
  }

  function Read(records: seq<Record>): seq<Event> {
    if records == [] then [] else ReadRecord(records[0]) + Read(records[1..])
  }

  function RoundTrip(events: seq<Event>, now: int): seq<Event> { Read(Write(events, now)) }

  lemma {:induction false} ReadAppend(a: seq<Record>, b: seq<Record>)
    ensures Read(a + b) == Read(a) + Read(b)
  {
    hide ReadRecord;
    if a == [] {
      assert a + b == b && Read(a) + Read(b) == Read(b);
    } else {
      assert (a + b)[0] == a[0] && (a + b)[1..] == a[1..] + b;
      ReadAppend(a[1..], b);
      assert ReadRecord(a[0]) + (Read(a[1..]) + Read(b)) == (ReadRecord(a[0]) + Read(a[1..])) + Read(b);
    }
  }

  // ----- the writer and the reader as the source runs them -----

  method CollectResults(events: seq<Event>) returns (results: set<string>)
    ensures results == Answered(events)
  {
    results := {};
    for i := 0 to |events|
      invariant results + Answered(events[i..]) == Answered(events)
    {
      ghost var before := results;
      var parts := events[i].parts;
      assert events[i..][0] == events[i] && events[i..][1..] == events[i + 1..];
      for j := 0 to |parts|
        invariant results + AnsweredBy(parts[j..]) == before + AnsweredBy(parts)
      {
        assert parts[j..][0] == parts[j] && parts[j..][1..] == parts[j + 1..];
        if parts[j].kind.ToolResult? || (parts[j].kind.Media? && parts[j].callId != "") {
          results := results + {parts[j].callId};
        }
      }
      assert parts[|parts|..] == [];
    }
    assert events[|events|..] == [];
  }

  lemma {:induction false} WriteEventsNext(events: seq<Event>, now: int, answered: set<string>, i: nat, written: seq<Record>)
    requires i < |events|
    ensures written + WriteEvents(events[i..], now, answered)
      == (written + WriteEvent(events[i], now, answered)) + WriteEvents(events[i + 1..], now, answered)
  {
    hide WriteEvent;
    assert events[i..][0] == events[i] && events[i..][1..] == events[i + 1..];
    var next, rest := WriteEvent(events[i], now, answered), WriteEvents(events[i + 1..], now, answered);
    assert written + (next + rest) == (written + next) + rest;
  }

  method WriteThread(events: seq<Event>, now: int) returns (records: seq<Record>)
    ensures records == Write(events, now)
  {
    var results := CollectResults(events);
    records := [];
    assert events[0..] == events && [] + WriteEvents(events, now, results) == WriteEvents(events, now, results);
    for i := 0 to |events|
      invariant records + WriteEvents(events[i..], now, results) == WriteEvents(events, now, results)
    {
      hide *;
      WriteEventsNext(events, now, results, i, records);
      var written := WriteOne(events[i], now, results);
      records := records + written;
    }
    assert events[|events|..] == [];
    assert records + [] == records;
  }

  lemma {:induction false} WritePartsNext(inTool: bool, role: string, ts: int, answered: set<string>, parts: seq<Part>, j: nat,
      content: seq<Option<Block>>, written: seq<Record>)
    requires j < |parts|
    ensures var (emitted, content') := WritePart(inTool, role, ts, answered, parts[j], content);
      written + WriteParts(inTool, role, ts, answered, parts[j..], content)
        == (written + emitted) + WriteParts(inTool, role, ts, answered, parts[j + 1..], content')
  {
    hide WritePart, Flush;
    assert parts[j..][0] == parts[j] && parts[j..][1..] == parts[j + 1..];
    var (emitted, content') := WritePart(inTool, role, ts, answered, parts[j], content);
    var rest := WriteParts(inTool, role, ts, answered, parts[j + 1..], content');
    assert written + (emitted + rest) == (written + emitted) + rest;
  }

  method WriteOne(event: Event, now: int, results: set<string>) returns (records: seq<Record>)
    ensures records == WriteEvent(event, now, results)
  {
    var ts := TimestampOr(event.timestamp, now);
    if event.kind.Plan? {
      return Flush("assistant", ts, [PlanBlock(event.planText)]);
    }
    var inTool := event.role == "tool";
    var role := if inTool then "user" else event.role;
    records := [];
    var content: seq<Option<Block>> := [];
    ghost var all := WriteParts(inTool, role, ts, results, event.parts, []);
    assert event.parts[0..] == event.parts;
    assert [] + all == all;
    for j := 0 to |event.parts|
      invariant records + WriteParts(inTool, role, ts, results, event.parts[j..], content) == all
    {
      hide WritePart, WriteParts, Flush;
      WritePartsNext(inTool, role, ts, results, event.parts, j, content, records);
      var emitted;
      emitted, content := WriteNext(inTool, role, ts, results, event.parts[j], content);
      records := records + emitted;
    }
    assert event.parts[|event.parts|..] == [];
    records := records + Flush(role, ts, content);
  }

  method WriteNext(inTool: bool, role: string, ts: int, results: set<string>, part: Part, content: seq<Option<Block>>)
    returns (emitted: seq<Record>, content': seq<Option<Block>>)
    ensures (emitted, content') == WritePart(inTool, role, ts, results, part, content)
  {
    emitted, content' := [], content;
    match part.kind {
      case Text => content' := content + [Some(Block(TextKind(role), part.text, None))];
      case Reasoning => content' := content + [Some(Block(TextKind(role), part.text, None))];
      case Media =>
        var block := UrlBlock(role, part);
        if inTool && part.callId != "" {
          emitted := Flush(role, ts, content) + [OutputRecord(ts, part.callId, OutBlocks([block]), part.error)];
          content' := [];
        } else {
          content' := content + [block];
        }
      case ToolCall =>
        emitted := Flush(role, ts, content) + [ResponseItem(ts, FunctionCall(part.callId, part.toolName, ObjectInput(part.data)))];
        if part.callId !in results {
          emitted := emitted + [OutputRecord(ts, part.callId, OutText(INTERRUPTED), true)];
        }
        content' := [];
        assert emitted == Flush(role, ts, content) + CallRecords(ts, results, part);
      case ToolResult =>
        emitted := Flush(role, ts, content) + [OutputRecord(ts, part.callId, OutText(part.text), part.error)];
        content' := [];
      case OtherPart(_) =>
    }
  }

  lemma ReadNext(records: seq<Record>, i: nat, read: seq<Event>)
    requires i < |records|
    ensures read + Read(records[i..]) == (read + ReadRecord(records[i])) + Read(records[i + 1..])
  {
    hide ReadRecord;
    assert records[i..][0] == records[i] && records[i..][1..] == records[i + 1..];
    var next, rest := ReadRecord(records[i]), Read(records[i + 1..]);
    assert read + (next + rest) == (read + next) + rest;
  }

  method ReadThread(records: seq<Record>) returns (events: seq<Event>)
    ensures events == Read(records)
  {
    events := [];
    assert records[0..] == records && [] + Read(records) == Read(records);
    for i := 0 to |records|
      invariant events + Read(records[i..]) == Read(records)
    {
      hide *;
      ReadNext(records, i, events);
      events := events + ReadRecord(records[i]);
    }
    assert records[|records|..] == [];
    assert events + [] == events;
  }
}
