/** A conversation that has been through Codex records once is not changed by going again. */
module CodexFixedPoint {
  import opened Basics
  import opened Text
  import opened Conversation
  import opened MediaUrl
  import opened Codex
  import opened CodexRoundTrip
  import opened CodexLoss
  import opened CodexValid

  // ----- the events that reading produces -----

  /** A part of a message as the reader makes it. */
  predicate PlainPart(role: string, p: Part) {
    || (p == TextPart(p.text) && p.text != "" && !LooksLikePlan(role, p.text))
    || (p == MediaPart(MediaOf(p), "", false) && Carried(MediaOf(p)) == Some(MediaOf(p)))
  }

  predicate PlainMessage(e: Event) {
    e.role in {"user", "assistant"} && e.parts != [] && forall p :: p in e.parts ==> PlainPart(e.role, p)
  }

  predicate LoneCall(e: Event) {
    && e.role == "assistant" && |e.parts| == 1
    && var p := e.parts[0];
       p == Part(ToolCall, p.callId, p.toolName, "", p.data, false, "", "", "", "") && ObjectInput(p.data) == p.data
  }

  predicate LoneAnswer(e: Event) {
    && e.role == "tool" && |e.parts| == 1
    && var p := e.parts[0];
       || p == ResultPart(p.callId, p.text).(error := p.error)
       || (p.callId != "" && p == MediaPart(MediaOf(p), p.callId, p.error) && Carried(MediaOf(p)) == Some(MediaOf(p)))
  }

  predicate Stable(e: Event) {
    && e.timestamp != 0
    && match e.kind
       case Plan => e == PlanEvent(e.timestamp, Trim(e.planText))
       case Message => e.planText == "" && (PlainMessage(e) || LoneCall(e) || LoneAnswer(e))
       case OtherEvent(_) => false
  }

  predicate AllStable(events: seq<Event>) { forall e :: e in events ==> Stable(e) }

  // ----- a stable event comes back as it is -----

  function BlocksOf(role: string, parts: seq<Part>): seq<Option<Block>> {
    if parts == [] then [] else [BlockFor(role, parts[0])] + BlocksOf(role, parts[1..])
  }

  lemma {:induction false} MessageWrites(role: string, ts: int, answered: set<string>, parts: seq<Part>, content: seq<Option<Block>>)
    requires forall p :: p in parts ==> PlainPart(role, p)
    ensures WriteParts(false, role, ts, answered, parts, content) == Flush(role, ts, content + BlocksOf(role, parts))
    decreases |parts|
  {
    hide IsImage, ProposedPlan, Flush, Carried;
    if parts == [] {
      EmptyTail(content);
    } else {
      assert PlainPart(role, parts[0]);
      var b := BlockFor(role, parts[0]);
      assert WritePart(false, role, ts, answered, parts[0], content) == ([], content + [b]);
      MessageWrites(role, ts, answered, parts[1..], content + [b]);
      assert (content + [b]) + BlocksOf(role, parts[1..]) == content + BlocksOf(role, parts);
      EmptyTail(WriteParts(false, role, ts, answered, parts[1..], content + [b]));
    }
  }

  lemma {:induction false} BlocksRead(role: string, parts: seq<Part>)
    requires role in {"user", "assistant"} && forall p :: p in parts ==> PlainPart(role, p)
    ensures ReadContent(role, BlocksOf(role, parts)) == (parts, [])
    ensures parts != [] ==> BlocksOf(role, parts) != []
  {
    if parts != [] {
      hide IsImage, ProposedPlan, Carried;
      BlocksRead(role, parts[1..]);
      var p := parts[0];
      assert PlainPart(role, p);
      TextIsNotMedia(BlockFor(role, p).value.kind);
      assert BlocksOf(role, parts)[1..] == BlocksOf(role, parts[1..]);
      assert parts == [p] + parts[1..];
    }
  }

  lemma MessageStays(e: Event, now: int, answered: set<string>)
    requires Stable(e) && e.kind.Message? && PlainMessage(e)
    ensures Read(WriteEvent(e, now, answered)) == [e]
  {
    hide PlainPart, ReadContent, BlocksOf, WriteParts, Flush, LoneCall, LoneAnswer;
    MessageWrites(e.role, e.timestamp, answered, e.parts, []);
    BlocksRead(e.role, e.parts);
    var blocks := BlocksOf(e.role, e.parts);
    EmptyTail(blocks);
    FlushRead(e.role, e.timestamp, blocks);
    EmptyTail([e]);
  }

  lemma {:induction false} WriteOnePart(inTool: bool, role: string, ts: int, answered: set<string>, p: Part)
    ensures var (emitted, content') := WritePart(inTool, role, ts, answered, p, []);
      WriteParts(inTool, role, ts, answered, [p], []) == emitted + Flush(role, ts, content')
  {
    hide WritePart, Flush;
    assert [p][1..] == [];
  }

  lemma CallStays(e: Event, now: int, answered: set<string>)
    requires Stable(e) && e.kind.Message? && LoneCall(e) && e.parts[0].callId in answered
    ensures Read(WriteEvent(e, now, answered)) == [e]
  {
    hide ObjectInput, ReadInput, PlainMessage, LoneAnswer, WriteParts;
    var p := e.parts[0];
    WriteOnePart(false, "assistant", e.timestamp, answered, p);
    assert e.parts == [p];
    var call := ResponseItem(e.timestamp, FunctionCall(p.callId, p.toolName, ObjectInput(p.data)));
    assert WriteEvent(e, now, answered) == [call] by {
      EmptyTail([call]);
    }
    InputReturns(p.data);
    OneRecord(call);
  }

  lemma AnswerStays(e: Event, now: int, answered: set<string>)
    requires Stable(e) && e.kind.Message? && LoneAnswer(e)
    ensures Read(WriteEvent(e, now, answered)) == [e]
  {
    hide PlainMessage, LoneCall, WriteParts, IsImage, Read, Carried;
    var p := e.parts[0];
    WriteOnePart(true, "user", e.timestamp, answered, p);
    assert e.parts == [p];
    if p.kind.Media? {
      var block := UrlBlock("user", p);
      AnswerReads(e.timestamp, p);
      EmptyTail([OutputRecord(e.timestamp, p.callId, OutBlocks([block]), p.error)]);
    } else {
      var r := OutputRecord(e.timestamp, p.callId, OutText(p.text), p.error);
      EmptyTail([r]);
      OneRecord(r);
      OneFlagged(ResultPart(p.callId, p.text), p.error);
    }
  }

  lemma EventStays(e: Event, now: int, answered: set<string>)
    requires Stable(e) && CallsOf(e.parts) <= answered
    ensures Read(WriteEvent(e, now, answered)) == [e]
  {
    if e.kind.Plan? {
      hide Read, Flush, Trim;
      PlanReturns(e.timestamp, e.planText);
    } else if PlainMessage(e) {
      MessageStays(e, now, answered);
    } else if LoneCall(e) {
      assert e.parts[0] in e.parts && e.parts[0].callId in CallsOf(e.parts);
      CallStays(e, now, answered);
    } else {
      AnswerStays(e, now, answered);
    }
  }

  lemma {:induction false} EventsStay(events: seq<Event>, now: int, answered: set<string>)
    requires AllStable(events) && Calls(events) <= answered
    ensures Read(WriteEvents(events, now, answered)) == events
  {
    hide Stable, ReadRecord, WriteEvent, CallsOf;
    if events != [] {
      EventStays(events[0], now, answered);
      EventsStay(events[1..], now, answered);
      ReadAppend(WriteEvent(events[0], now, answered), WriteEvents(events[1..], now, answered));
      assert [events[0]] + events[1..] == events;
    }
  }

  // ----- what comes back is stable -----

  /** A block whose media, if it holds any, are carried as they are. */
  predicate KeptBlock(b: Option<Block>) {
    WaitingBlock(b) && (b.value.kind in MESSAGE_MEDIA ==> b.value.media.Some? && Carried(b.value.media.value) == b.value.media)
  }

  predicate KeptContent(content: seq<Option<Block>>) { forall b :: b in content ==> KeptBlock(b) }

  lemma {:induction false} ContentIsStable(role: string, content: seq<Option<Block>>)
    requires KeptContent(content)
    ensures forall p :: p in ReadContent(role, content).0 ==> PlainPart(role, p)
    ensures forall plan :: plan in ReadContent(role, content).1 ==> Trim(plan) == plan
  {
    if content != [] {
      hide Trim, SameFolded, Carried;
      assert KeptBlock(content[0]);
      ContentIsStable(role, content[1..]);
      PlansAreTrimmed(content[0].value.text);
      TextIsNotMedia(content[0].value.kind);
    }
  }

  lemma PlansAreTrimmed(text: string)
    ensures ProposedPlan(text).Some? ==> Trim(ProposedPlan(text).value) == ProposedPlan(text).value
  {
    hide Trim, SameFolded;
    var t := Trim(text);
    if ProposedPlan(text).Some? { TrimTwice(t[|OPEN_PLAN|..|t| - |CLOSE_PLAN|]); }
  }

  lemma {:induction false} PlansAreStable(ts: int, plans: seq<string>)
    requires ts != 0 && forall plan :: plan in plans ==> Trim(plan) == plan
    ensures AllStable(PlanEvents(ts, plans))
  {
    hide Trim;
    if plans != [] { PlansAreStable(ts, plans[1..]); }
  }

  lemma FlushIsStable(role: string, ts: int, content: seq<Option<Block>>)
    requires role in {"user", "assistant"} && KeptContent(content) && ts != 0
    ensures AllStable(Read(Flush(role, ts, content)))
  {
    hide KeptContent, ReadContent, PlanEvents, PlainPart;
    if content != [] {
      FlushRead(role, ts, content);
      ContentIsStable(role, content);
      PlansAreStable(ts, ReadContent(role, content).1);
    }
  }

  lemma {:induction false} StableAppend(a: seq<Record>, b: seq<Record>)
    requires AllStable(Read(a)) && AllStable(Read(b))
    ensures AllStable(Read(a + b))
  {
    hide Stable;
    ReadAppend(a, b);
  }

  lemma ResultIsStable(ts: int, callId: string, text: string, error: bool)
    requires ts != 0
    ensures AllStable(Read([OutputRecord(ts, callId, OutText(text), error)]))
  {
    OneRecord(OutputRecord(ts, callId, OutText(text), error));
    OneFlagged(ResultPart(callId, text), error);
  }

  lemma CallIsStable(ts: int, answered: set<string>, p: Part)
    requires p.kind.ToolCall? && ts != 0
    ensures AllStable(Read(CallRecords(ts, answered, p)))
  {
    var call := ResponseItem(ts, FunctionCall(p.callId, p.toolName, ObjectInput(p.data)));
    OneRecord(call);
    InputReturns(p.data);
    InputIsObject(p.data);
    hide ObjectInput, ReadInput;
    assert LoneCall(ReadRecord(call)[0]);
    if p.callId in answered {
      EmptyTail([call]);
    } else {
      ResultIsStable(ts, p.callId, INTERRUPTED, true);
      StableAppend([call], [OutputRecord(ts, p.callId, OutText(INTERRUPTED), true)]);
    }
  }

  lemma InputIsObject(raw: RawJson)
    ensures ObjectInput(ObjectInput(raw)) == ObjectInput(raw)
  {}

  lemma {:induction false} WaitingIsKept(role: string, ts: int, answered: set<string>, p: Part, content: seq<Option<Block>>)
    requires role in {"user", "assistant"} && Shaped(role, p) && FaithfulPart(role, p) && KeptContent(content)
    requires p.kind.Text? || p.kind.Reasoning? || p.kind.Media?
    ensures var (emitted, content') := WritePart(false, role, ts, answered, p, content);
      emitted == [] && KeptContent(content')
  {
    if p.kind.Media? { CarriedExactly(MediaOf(p)); }
    hide ProposedPlan, IsImage, Carried, Carries, SoundMedia;
    TextIsNotMedia(TextKind(role));
    assert WritePart(false, role, ts, answered, p, content) == ([], content + [BlockFor(role, p)]);
    assert KeptBlock(BlockFor(role, p));
  }

  lemma PartIsStable(role: string, ts: int, answered: set<string>, p: Part, content: seq<Option<Block>>)
    requires role in {"user", "assistant", "tool"} && Shaped(role, p) && FaithfulPart(role, p) && KeptContent(content) && ts != 0
    ensures var (emitted, content') := WritePart(role == "tool", WriterRole(role), ts, answered, p, content);
      KeptContent(content') && AllStable(Read(emitted))
  {
    if p.kind.Media? { CarriedExactly(MediaOf(p)); }
    hide Read, Flush, CallRecords, ProposedPlan, IsImage, AllStable, Carried, Carries, SoundMedia;
    var writer := WriterRole(role);
    match p.kind
    case Text => NothingIsStable(); WaitingIsKept(role, ts, answered, p, content);
    case Reasoning => NothingIsStable(); WaitingIsKept(role, ts, answered, p, content);
    case Media =>
      if role != "tool" { NothingIsStable(); WaitingIsKept(role, ts, answered, p, content); }
      else {
        FlushIsStable(writer, ts, content);
        AnswerReads(ts, p);
        AnswerIsStable(ts, p);
        var block := UrlBlock("user", p);
        StableAppend(Flush(writer, ts, content), [OutputRecord(ts, p.callId, OutBlocks([block]), p.error)]);
      }
    case ToolCall =>
      FlushIsStable(writer, ts, content);
      CallIsStable(ts, answered, p);
      StableAppend(Flush(writer, ts, content), CallRecords(ts, answered, p));
    case ToolResult =>
      FlushIsStable(writer, ts, content);
      ResultIsStable(ts, p.callId, p.text, p.error);
      StableAppend(Flush(writer, ts, content), [OutputRecord(ts, p.callId, OutText(p.text), p.error)]);
  }

  lemma AnswerIsStable(ts: int, p: Part)
    requires ts != 0 && p.callId != "" && Carried(MediaOf(p)) == Some(MediaOf(p))
    ensures AllStable([MessageEvent("tool", ts, [AnswerRead(p)])])
  {
    hide Carried;
    assert LoneAnswer(MessageEvent("tool", ts, [MediaPart(MediaOf(p), p.callId, p.error)]));
  }

  lemma NothingIsStable()
    ensures AllStable(Read([]))
  {}

  lemma {:induction false} PartsAreStable(role: string, ts: int, answered: set<string>, parts: seq<Part>, content: seq<Option<Block>>)
    requires role in {"user", "assistant", "tool"} && ts != 0
    requires (forall p :: p in parts ==> Shaped(role, p) && FaithfulPart(role, p)) && KeptContent(content)
    ensures AllStable(Read(WriteParts(role == "tool", WriterRole(role), ts, answered, parts, content)))
    decreases |parts|
  {
    hide Read, AllStable, Shaped, KeptContent, WritePart, FaithfulPart, Flush;
    var writer := WriterRole(role);
    if parts == [] {
      FlushIsStable(writer, ts, content);
    } else {
      PartIsStable(role, ts, answered, parts[0], content);
      var (emitted, content') := WritePart(role == "tool", writer, ts, answered, parts[0], content);
      PartsAreStable(role, ts, answered, parts[1..], content');
      StableAppend(emitted, WriteParts(role == "tool", writer, ts, answered, parts[1..], content'));
    }
  }

  lemma {:induction false} EventsAreStable(events: seq<Event>, now: int, answered: set<string>)
    requires (forall e :: e in events ==> ShapedEvent(e) && FaithfulEvent(e)) && now != 0
    ensures AllStable(Read(WriteEvents(events, now, answered)))
  {
    hide Read, AllStable, WriteParts, Flush, Shaped, Trim, KeptContent, FaithfulPart;
    if events == [] {
      NothingIsStable();
    } else {
      var e := events[0];
      assert ShapedEvent(e);
      var ts := TimestampOr(e.timestamp, now);
      EventsAreStable(events[1..], now, answered);
      if e.kind.Plan? {
        PlanReturns(ts, e.planText);
        PlanIsStable(ts, e.planText);
      } else {
        NoneWait();
        PartsAreStable(e.role, ts, answered, e.parts, []);
      }
      StableAppend(WriteEvent(e, now, answered), WriteEvents(events[1..], now, answered));
    }
  }

  lemma NoneWait()
    ensures KeptContent([])
  {}

  lemma PlanIsStable(ts: int, plan: string)
    requires ts != 0
    ensures AllStable([PlanEvent(ts, Trim(plan))])
  {
    hide Trim;
    TrimTwice(plan);
  }

  /** Written and read again, what came back the first time comes back event by event,
      whenever the second trip happens. */
  lemma SecondTripChangesNothing(events: seq<Event>, now: int, later: int)
    requires WellFormed(events) && Faithful(events) && now != 0
    ensures RoundTrip(RoundTrip(events, now), later) == RoundTrip(events, now)
  {
    assert forall e :: e in events ==> FaithfulEvent(e);
    hide CheckEvents, ShapedEvent, FaithfulEvent, Read, WriteEvents, Faithful, Calls, Answered, AllStable;
    var back := RoundTrip(events, now);
    EventsShaped(UNREAD, events);
    EventsAreStable(events, now, Answered(events));
    EveryCallIsAnswered(events, now);
    EventsStay(back, later, Answered(back));
  }
}
