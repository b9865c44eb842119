/** The canonical session and what makes its event streams well formed
    (internal/session/types.go). */
module Conversation {
  import opened Basics
  import opened MediaUrl
  import opened Text

  datatype PartKind = Text | Reasoning | ToolCall | ToolResult | Media | OtherPart(name: string)

  datatype Json =
    | JNull
    | JBool(b: bool)
    | JNumber(digits: string)
    | JString(s: string)
    | JArray(items: seq<Json>)
    | JObject(fields: map<string, Json>)

  /** The bytes of a JSON field, and what they decode to if they are valid JSON. */
  datatype RawJson = RawJson(text: string, value: Option<Json>)

  const NO_DATA := RawJson("", None)

  datatype Part = Part(
    kind: PartKind, callId: string, toolName: string, text: string, data: RawJson, error: bool,
    mediaType: string, mediaData: string, mediaUrl: string, filename: string)
  {
    /** The part answers the call it names. */
    predicate Answers(id: string) {
      callId == id && (kind.ToolResult? || (kind.Media? && id != ""))
    }

    predicate IsResultOf(id: string) { kind.ToolResult? && callId == id }

    predicate Opens(id: string) { kind.ToolCall? && callId == id }
  }

  function TextPart(text: string): Part {
    Part(Text, "", "", text, NO_DATA, false, "", "", "", "")
  }

  function ResultPart(callId: string, text: string): Part {
    Part(ToolResult, callId, "", text, NO_DATA, false, "", "", "", "")
  }

  datatype EventKind = Message | Plan | OtherEvent(name: string)

  /** `timestamp` 0 is the zero time. */
  datatype Event = Event(kind: EventKind, role: string, timestamp: int, parts: seq<Part>, planText: string)

  datatype Branch = Branch(
    id: string, cwd: string, parentId: string, callId: string, name: string, description: string,
    model: string, status: string, events: seq<Event>)

  datatype Session = Session(
    source: string, sourceId: string, cwd: string, title: string, model: string, createdAt: int, updatedAt: int,
    events: seq<Event>, branches: seq<Branch>, warnings: seq<string>)

  // ----- the check -----

  datatype Fault =
    | UnsupportedRole | NoContent | EmptyPlan | UnsupportedEvent
    | EmptyText | TextInToolMessage | MisplacedReasoning
    | MisplacedCall | IncompleteCall | DuplicateCall(id: string) | InvalidInput(id: string)
    | MisplacedResult | ResultWithoutCallId | ResultBeforeCall(id: string) | DuplicateResult(id: string)
    | ToolMediaWithoutCallId | MediaWithoutSource | InvalidPayload | MediaWithoutType | MediaBeforeCall(id: string)
    | UnsupportedPart

  /** What a reading of a stream's prefix knows: the calls in recorded order, the answered
      ones, those holding a tool result in an earlier event, and those holding one in the
      event being read. */
  datatype Scan = Scan(order: seq<string>, answered: set<string>, settled: set<string>, here: set<string>)

  const UNREAD := Scan([], {}, {}, {})

  datatype Verdict = Fine(scan: Scan) | Bad(fault: Fault)

  function CheckPart(s: Scan, role: string, p: Part): Verdict {
    match p.kind
    case Text =>
      if p.text == "" then Bad(EmptyText)
      else if role == "tool" then Bad(TextInToolMessage)
      else Fine(s)
    case Reasoning =>
      if p.text == "" then Bad(EmptyText)
      else if role == "tool" then Bad(TextInToolMessage)
      else if role != "assistant" then Bad(MisplacedReasoning)
      else Fine(s)
    case ToolCall =>
      if role != "assistant" then Bad(MisplacedCall)
      else if p.callId == "" || p.toolName == "" then Bad(IncompleteCall)
      else if p.callId in s.order then Bad(DuplicateCall(p.callId))
      else if p.data.text == "" || p.data.value.None? then Bad(InvalidInput(p.callId))
      else Fine(s.(order := s.order + [p.callId]))
    case ToolResult =>
      if role == "assistant" then Bad(MisplacedResult)
      else if p.callId == "" then Bad(ResultWithoutCallId)
      else if p.callId !in s.order then Bad(ResultBeforeCall(p.callId))
      else if p.callId in s.settled then Bad(DuplicateResult(p.callId))
      else Fine(s.(answered := s.answered + {p.callId}, here := s.here + {p.callId}))
    case Media =>
      if role == "tool" && p.callId == "" then Bad(ToolMediaWithoutCallId)
      else if p.mediaData == "" && p.mediaUrl == "" then Bad(MediaWithoutSource)
      else if p.mediaData != "" && !IsBase64(p.mediaData) then Bad(InvalidPayload)
      else if Blank(p.mediaType) then Bad(MediaWithoutType)
      else if p.callId == "" then Fine(s)
      else if p.callId !in s.order then Bad(MediaBeforeCall(p.callId))
      else Fine(s.(answered := s.answered + {p.callId}))
    case OtherPart(_) => Bad(UnsupportedPart)
  }

  function CheckParts(s: Scan, role: string, parts: seq<Part>): Verdict
    decreases |parts|
  {
    if parts == [] then Fine(s)
    else match CheckPart(s, role, parts[0])
      case Bad(f) => Bad(f)
      case Fine(s') => CheckParts(s', role, parts[1..])
  }

  function EventFault(e: Event): Option<Fault> {
    match e.kind
    case Message =>
      if e.role !in {"user", "assistant", "tool"} then Some(UnsupportedRole)
      else if e.parts == [] then Some(NoContent)
      else None
    case Plan => if Blank(e.planText) then Some(EmptyPlan) else None
    case OtherEvent(_) => Some(UnsupportedEvent)
  }

  function Settle(s: Scan): Scan { s.(settled := s.settled + s.here, here := {}) }

  function CheckEvent(s: Scan, e: Event): Verdict {
    match EventFault(e)
    case Some(f) => Bad(f)
    case None =>
      match CheckParts(s, e.role, e.parts)
      case Bad(f) => Bad(f)
      case Fine(s') => Fine(Settle(s'))
  }

  function CheckEvents(s: Scan, events: seq<Event>): Verdict
    decreases |events|
  {
    if events == [] then Fine(s)
    else match CheckEvent(s, events[0])
      case Bad(f) => Bad(f)
      case Fine(s') => CheckEvents(s', events[1..])
  }

  predicate WellFormed(events: seq<Event>) { CheckEvents(UNREAD, events).Fine? }

  function ScanOf(events: seq<Event>): Scan
    requires WellFormed(events)
  {
    CheckEvents(UNREAD, events).scan
  }

  /** The calls of `order` that were never answered, in recorded order. */
  function Unanswered(order: seq<string>, answered: set<string>): seq<string> {
    if order == [] then []
    else (if order[0] !in answered then [order[0]] else []) + Unanswered(order[1..], answered)
  }

  function Dangling(events: seq<Event>): seq<string>
    requires WellFormed(events)
  {
    Unanswered(ScanOf(events).order, ScanOf(events).answered)
  }

  // ----- reading a stream in pieces -----

  lemma {:induction false} CheckPartsAppend(s: Scan, role: string, a: seq<Part>, b: seq<Part>)
    ensures CheckParts(s, role, a + b) ==
      (match CheckParts(s, role, a) case Bad(f) => Bad(f) case Fine(s') => CheckParts(s', role, b))
    decreases |a|
  {
    if a == [] {
      assert a + b == b;
    } else {
      assert (a + b)[0] == a[0] && (a + b)[1..] == a[1..] + b;
      match CheckPart(s, role, a[0])
      case Bad(_) =>
      case Fine(s') => CheckPartsAppend(s', role, a[1..], b);
    }
  }

  lemma {:induction false} CheckEventsAppend(s: Scan, a: seq<Event>, b: seq<Event>)
    ensures CheckEvents(s, a + b) ==
      (match CheckEvents(s, a) case Bad(f) => Bad(f) case Fine(s') => CheckEvents(s', b))
    decreases |a|
  {
    hide CheckEvent;
    if a == [] {
      assert a + b == b;
    } else {
      assert (a + b)[0] == a[0] && (a + b)[1..] == a[1..] + b;
      match CheckEvent(s, a[0])
      case Bad(_) =>
      case Fine(s') => CheckEventsAppend(s', a[1..], b);
    }
  }

  // ----- the check as the source runs it -----

  /** What the check keeps while it reads: the source's four collections. */
  datatype Tables = Tables(
    calls: set<string>, callOrder: seq<string>, results: set<string>, toolResultEvents: map<string, nat>)
  {
    /** The collections describe reading `s`, now inside event `ei`. */
    ghost predicate Describe(s: Scan, ei: nat) {
      && callOrder == s.order && results == s.answered
      && (forall id :: id in calls <==> id in callOrder)
      && (forall id :: id in toolResultEvents <==> id in s.settled || id in s.here)
      && (forall id :: id in toolResultEvents ==>
            if id in s.settled then toolResultEvents[id] < ei else toolResultEvents[id] == ei)
    }
  }

  method ValidatePart(part: Part, role: string, ei: nat, tables: Tables, ghost s: Scan)
    returns (fault: Option<Fault>, tables': Tables)
    requires tables.Describe(s, ei)
    ensures match CheckPart(s, role, part)
      case Bad(f) => fault == Some(f)
      case Fine(s') => fault.None? && tables'.Describe(s', ei)
  {
    fault, tables' := None, tables;
    match part.kind
    case Text =>
      if part.text == "" { return Some(EmptyText), tables; }
      if role == "tool" { return Some(TextInToolMessage), tables; }
    case Reasoning =>
      if part.text == "" { return Some(EmptyText), tables; }
      if role == "tool" { return Some(TextInToolMessage), tables; }
      if role != "assistant" { return Some(MisplacedReasoning), tables; }
    case ToolCall =>
      if role != "assistant" { return Some(MisplacedCall), tables; }
      if part.callId == "" || part.toolName == "" { return Some(IncompleteCall), tables; }
      if part.callId in tables.calls { return Some(DuplicateCall(part.callId)), tables; }
      if part.data.text == "" || part.data.value.None? { return Some(InvalidInput(part.callId)), tables; }
      tables' := tables.(calls := tables.calls + {part.callId}, callOrder := tables.callOrder + [part.callId]);
    case ToolResult =>
      if role == "assistant" { return Some(MisplacedResult), tables; }
      if part.callId == "" { return Some(ResultWithoutCallId), tables; }
      if part.callId !in tables.calls { return Some(ResultBeforeCall(part.callId)), tables; }
      if part.callId in tables.toolResultEvents && tables.toolResultEvents[part.callId] != ei {
        return Some(DuplicateResult(part.callId)), tables;
      }
      tables' := tables.(toolResultEvents := tables.toolResultEvents[part.callId := ei],
                         results := tables.results + {part.callId});
    case Media =>
      if role == "tool" && part.callId == "" { return Some(ToolMediaWithoutCallId), tables; }
      if part.mediaData == "" && part.mediaUrl == "" { return Some(MediaWithoutSource), tables; }
      if part.mediaData != "" && !IsBase64(part.mediaData) { return Some(InvalidPayload), tables; }
      if Blank(part.mediaType) { return Some(MediaWithoutType), tables; }
      if part.callId != "" {
        if part.callId !in tables.calls { return Some(MediaBeforeCall(part.callId)), tables; }
        tables' := tables.(results := tables.results + {part.callId});
      }
    case OtherPart(_) => return Some(UnsupportedPart), tables;
  }

  /** Checks one ordered event stream.  A rejection names the first event that cannot follow
      the ones before it; an acceptance reports the calls and the unanswered ones. */
  method ValidateEvents(events: seq<Event>)
    returns (fault: Option<Fault>, at: nat, calls: set<string>, dangling: seq<string>)
    ensures fault.None? <==> WellFormed(events)
    ensures fault.Some? ==>
      && at < |events| && WellFormed(events[..at]) && CheckEvents(UNREAD, events[..at + 1]) == Bad(fault.value)
      && CheckEvents(UNREAD, events) == Bad(fault.value)
    ensures fault.None? ==>
      && (forall id :: id in calls <==> id in ScanOf(events).order)
      && dangling == Dangling(events)
  {
    fault, at, calls, dangling := None, 0, {}, [];
    var tables := Tables({}, [], {}, map[]);
    ghost var s := UNREAD;
    assert events[..0] == [];
    hide CheckPart, Unanswered, EventFault;
    for ei := 0 to |events|
      invariant CheckEvents(UNREAD, events[..ei]) == Fine(s)
      invariant tables.Describe(s, ei) && s.here == {} && fault.None?
    {
      hide CheckEvents, CheckPart, Tables.Describe;
      var event := events[ei];
      ReadNext(events, ei, s);
      fault := EventFault(event);
      if fault.Some? { return fault, ei, {}, []; }
      ghost var t := s;
      assert event.parts[..0] == [];
      NoParts(s, event.role);
      for pi := 0 to |event.parts|
        invariant CheckParts(s, event.role, event.parts[..pi]) == Fine(t)
        invariant tables.Describe(t, ei) && fault.None?
      {
        hide CheckParts;
        PartNext(s, event.role, event.parts, pi, t);
        fault, tables := ValidatePart(event.parts[pi], event.role, ei, tables, t);
        if fault.Some? { return fault, ei, {}, []; }
        t := CheckPart(t, event.role, event.parts[pi]).scan;
      }
      assert event.parts[..|event.parts|] == event.parts;
      SettleDescribed(tables, t, ei);
      s := Settle(t);
    }
    assert events[..|events|] == events;
    calls := tables.calls;
    dangling := WithoutResult(tables.callOrder, tables.results);
  }

  method WithoutResult(callOrder: seq<string>, results: set<string>) returns (dangling: seq<string>)
    ensures dangling == Unanswered(callOrder, results)
  {
    dangling := [];
    for i := 0 to |callOrder|
      invariant dangling == Unanswered(callOrder[..i], results)
    {
      hide Unanswered;
      assert callOrder[..i + 1] == callOrder[..i] + [callOrder[i]];
      UnansweredAppend(callOrder[..i], callOrder[i], results);
      if callOrder[i] !in results { dangling := dangling + [callOrder[i]]; }
    }
    assert callOrder[..|callOrder|] == callOrder;
  }

  lemma {:induction false} UnansweredAppend(order: seq<string>, id: string, answered: set<string>)
    ensures Unanswered(order + [id], answered) == Unanswered(order, answered) + (if id !in answered then [id] else [])
  {
    if order == [] {
      assert order + [id] == [id] && [id][1..] == [];
    } else {
      assert (order + [id])[0] == order[0] && (order + [id])[1..] == order[1..] + [id];
      UnansweredAppend(order[1..], id, answered);
    }
  }

  lemma {:induction false} NoParts(s: Scan, role: string)
    ensures CheckParts(s, role, []) == Fine(s)
  {}

  lemma SettleDescribed(tables: Tables, t: Scan, ei: nat)
    requires tables.Describe(t, ei)
    ensures tables.Describe(Settle(t), ei + 1) && Settle(t).here == {}
  {}

  lemma {:induction false} ReadNext(events: seq<Event>, ei: nat, s: Scan)
    requires ei < |events| && CheckEvents(UNREAD, events[..ei]) == Fine(s)
    ensures CheckEvents(UNREAD, events[..ei + 1]) == CheckEvent(s, events[ei])
    ensures CheckEvent(s, events[ei]).Bad? ==> CheckEvents(UNREAD, events) == CheckEvent(s, events[ei])
  {
    hide CheckEvent;
    assert events[..ei + 1] == events[..ei] + [events[ei]];
    CheckEventsAppend(UNREAD, events[..ei], [events[ei]]);
    assert [events[ei]][1..] == [];
    assert events == events[..ei] + events[ei..];
    CheckEventsAppend(UNREAD, events[..ei], events[ei..]);
  }

  lemma {:induction false} PartNext(s: Scan, role: string, parts: seq<Part>, pi: nat, t: Scan)
    requires pi < |parts| && CheckParts(s, role, parts[..pi]) == Fine(t)
    ensures CheckParts(s, role, parts[..pi + 1]) == CheckPart(t, role, parts[pi])
    ensures CheckPart(t, role, parts[pi]).Bad? ==> CheckParts(s, role, parts) == CheckPart(t, role, parts[pi])
  {
    hide CheckPart;
    assert parts[..pi + 1] == parts[..pi] + [parts[pi]];
    CheckPartsAppend(s, role, parts[..pi], [parts[pi]]);
    assert [parts[pi]][1..] == [];
    assert parts == parts[..pi] + parts[pi..];
    CheckPartsAppend(s, role, parts[..pi], parts[pi..]);
  }
}
