/** Exactly which conversations survive the trip through Claude records. */
module ClaudeRoundTrip {
  import opened Basics
  import opened Text
  import opened Conversation
  import opened MediaUrl
  import opened Codex
  import opened CodexRoundTrip
  import opened Claude

  // ----- media on their way out and back -----

  /** Inline media that are only inline and whose type holds no comma; remote media of no particular type.
      Neither has space around what it is made of. */
  predicate Untouched(m: MediaRef) {
    if m.data == "" then m.url == Trim(m.url) && !IsDataUrl(m.url) && m.mediaType == ANY_TYPE
    else m.url == "" && m.mediaType == Trim(m.mediaType) && ',' !in m.mediaType && m.data == Trim(m.data)
  }

  function MediaBack(p: Part): Option<MediaRef> { ReadSource(SourceOf(p), p.filename) }

  lemma {:induction false} RemoteBack(url: string, filename: string)
    requires url != ""
    ensures var r := ReadSource(UrlSource(url, ""), filename);
      if IsDataUrl(Trim(url)) then r.Some? ==> r.value.data != ""
      else r == if Trim(url) == "" then None else Some(MediaRef(ANY_TYPE, "", Trim(url), filename))
  {
    hide IsDataUrl, Cut, Fields, SameFolded, IsBase64;
    assert Trim("") == "";
  }

  /** Inline media are read as from a record that gives their type. */
  lemma {:induction false} InlineSource(p: Part)
    requires p.mediaData != "" && SoundMedia(MediaOf(p))
    ensures MediaBack(p) == Carried(MediaOf(p))
  {
    hide ReadMedia, IsBase64;
    assert p.mediaType != "";
  }

  /** Media come back as they were exactly when they are of the kinds that the format can say. */
  lemma {:induction false} MediaComesBack(p: Part)
    requires p.kind.Media? && SoundMedia(MediaOf(p))
    ensures MediaBack(p) == Some(MediaOf(p)) <==> Untouched(MediaOf(p))
  {
    if p.mediaData != "" { InlineSource(p); }
    hide IsSpace, Blank, Trim, ReadSource, IsDataUrl, Carried, IsBase64;
    if p.mediaData == "" { RemoteBack(p.mediaUrl, p.filename); } else { InlineCarried(MediaOf(p)); }
  }

  // ----- what a faithful trip gives -----

  function HealedPart(f: Foreign, p: Part): Part {
    match p.kind
    case ToolCall => CallPart(p.callId, p.toolName, InputBack(f, p))
    case ToolResult => ResultPart(p.callId, p.text).(error := p.error)
    case Media => MediaPart(MediaOf(p), p.callId, p.callId != "" && p.error)
    case _ => TextPart(p.text)
  }

  function HealedParts(f: Foreign, parts: seq<Part>): seq<Part> {
    if parts == [] then [] else [HealedPart(f, parts[0])] + HealedParts(f, parts[1..])
  }

  /** Input as an object, printed anew. */
  function InputBack(f: Foreign, p: Part): RawJson {
    var input := ObjectInput(p.data);
    Reencoded(f, if input.value.Some? then input.value.value else JNull)
  }

  function RoleBack(role: string, parts: seq<Part>): string {
    if role == "assistant" then "assistant" else if OnlyResults(parts) then "tool" else "user"
  }

  function InterruptedParts(ids: seq<string>): seq<Part> {
    if ids == [] then [] else [ResultPart(ids[0], INTERRUPTED).(error := true)] + InterruptedParts(ids[1..])
  }

  function InterruptedEvents(ts: int, ids: seq<string>): seq<Event> {
    if ids == [] then [] else [MessageEvent("tool", ts, InterruptedParts(ids))]
  }

  /** An event as it should come back: reasoning becomes text, input becomes an object, a message of nothing but
      results is a tool message, plan text is trimmed, and the calls that nothing answers are interrupted. */
  function HealedEvent(f: Foreign, e: Event, now: int, answered: set<string>): seq<Event> {
    var ts := TimestampOr(e.timestamp, now);
    if e.kind.Plan? then [PlanEvent(ts, Trim(e.planText)).(parts := HealedParts(f, e.parts))]
    else
      [MessageEvent(RoleBack(e.role, e.parts), ts, HealedParts(f, e.parts))]
      + InterruptedEvents(ts, CallsWithout(answered, e.parts))
  }

  function HealedEvents(f: Foreign, events: seq<Event>, now: int, answered: set<string>): seq<Event> {
    if events == [] then [] else HealedEvent(f, events[0], now, answered) + HealedEvents(f, events[1..], now, answered)
  }

  function Healed(f: Foreign, events: seq<Event>, now: int): seq<Event> { HealedEvents(f, events, now, Answered(events)) }

  // ----- what must be avoided -----

  function CallInput(p: Part): Json {
    var input := ObjectInput(p.data);
    if input.value.Some? then input.value.value else JNull
  }

  /** Assistant text must not be a proposed plan, calls must not leave plan mode with one, media must be of the kinds
      the format can say, and those of the assistant must not answer a call. */
  predicate Transparent(role: string, p: Part) {
    && ((p.kind.Text? || p.kind.Reasoning?) && role == "assistant" ==> ProposedPlan(p.text).None?)
    && (p.kind.ToolCall? ==> ExitPlan(p.toolName, CallInput(p)) == [])
    && (p.kind.Media? ==> Untouched(MediaOf(p)) && (role == "assistant" ==> p.callId == ""))
  }

  predicate TransparentEvent(e: Event) {
    if e.kind.Plan? then e.parts == [] else forall p :: p in e.parts ==> Transparent(e.role, p)
  }

  ghost predicate TransparentAll(events: seq<Event>) { forall e :: e in events ==> TransparentEvent(e) }

  // ----- one part -----

  /** What comes back of one part: at most one part, and the plans found in it. */
  function PartBack(f: Foreign, role: string, p: Part): (seq<Part>, seq<string>)
  {
    if p.kind.OtherPart? then ([], []) else ReadBlock(f, if role == "assistant" then role else "user", BlockOf(role, p)[0])
  }

  function PartsBack(f: Foreign, role: string, parts: seq<Part>): (seq<Part>, seq<string>)
  {
    if parts == [] then ([], [])
    else
      var (here, plans), (more, others) := PartBack(f, role, parts[0]), PartsBack(f, role, parts[1..]);
      (here + more, plans + others)
  }

  lemma {:induction false} AnswerBack(id: string, error: bool, source: Source, filename: string)
    ensures var media := ReadSource(source, filename);
      ReadResult(id, error, ListResult([InnerMedia(source, filename)]))
        == if media.Some? then [MediaPart(media.value, id, error)] else []
  {
    hide ReadSource;
    var items := [InnerMedia(source, filename)];
    assert items[1..] == [] && ReadInner(id, error, []) == [];
    var media := ReadSource(source, filename);
    var here := if media.Some? then [MediaPart(media.value, id, error)] else [];
    assert here + [] == here;
  }

  lemma {:induction false} PartComesBack(f: Foreign, role: string, p: Part)
    requires Shaped(role, p)
    ensures var (parts, plans) := PartBack(f, role, p);
      && |parts| <= 1 && (parts == [HealedPart(f, p)] && plans == [] <==> Transparent(role, p))
  {
    hide ProposedPlan, Untouched, ReadSource, ObjectInput, ExitPlan, Blank, SoundMedia;
    match p.kind
    case Media =>
      MediaComesBack(p);
      AnswerBack(p.callId, p.error, SourceOf(p), p.filename);
    case _ =>
  }

  lemma {:induction false} PartsComeBack(f: Foreign, role: string, parts: seq<Part>)
    requires forall p :: p in parts ==> Shaped(role, p)
    ensures var (back, plans) := PartsBack(f, role, parts);
      && |back| <= |parts|
      && (back == HealedParts(f, parts) && plans == [] <==> forall p :: p in parts ==> Transparent(role, p))
    decreases |parts|
  {
    if parts != [] {
      hide PartBack, Shaped, Transparent, HealedPart;
      PartComesBack(f, role, parts[0]);
      PartsComeBack(f, role, parts[1..]);
      assert forall p :: p in parts <==> p == parts[0] || p in parts[1..];
      var (here, plans) := PartBack(f, role, parts[0]);
      var (more, others) := PartsBack(f, role, parts[1..]);
      HealedLength(f, parts[1..]);
      OneAndRest(here, more, HealedPart(f, parts[0]), HealedParts(f, parts[1..]));
    }
  }

  lemma {:induction false} OneAndRest<T>(here: seq<T>, more: seq<T>, h: T, rest: seq<T>)
    requires |here| <= 1 && |more| <= |rest|
    ensures here + more == [h] + rest <==> here == [h] && more == rest
  {
    if here + more == [h] + rest {
      assert |here| == 1 && (here + more)[0] == here[0] && ([h] + rest)[0] == h;
      assert (here + more)[1..] == more && ([h] + rest)[1..] == rest;
    }
  }

  lemma {:induction false} HealedLength(f: Foreign, parts: seq<Part>)
    ensures |HealedParts(f, parts)| == |parts|
  {
    if parts != [] { HealedLength(f, parts[1..]); }
  }

  // ----- one event -----

  function Side(role: string): string { if role == "assistant" then "assistant" else "user" }

  lemma {:induction false} BlocksAreOneSided(f: Foreign, role: string, parts: seq<Part>)
    requires forall p :: p in parts ==> Shaped(role, p)
    ensures ReadBlocks(f, Side(role), BlocksOf(role, parts, role == "assistant")) == PartsBack(f, role, parts)
    ensures BlocksOf(role, parts, role != "assistant") == []
    ensures BlocksOf(role, parts, role == "assistant") == [] <==> parts == []
    decreases |parts|
  {
    if parts != [] {
      hide ReadBlock, SoundMedia, ObjectInput;
      var p := parts[0];
      assert Shaped(role, p);
      BlocksAreOneSided(f, role, parts[1..]);
      var b, rest := BlockOf(role, p), BlocksOf(role, parts[1..], role == "assistant");
      assert |b| == 1 && (b + rest)[0] == b[0] && (b + rest)[1..] == rest;
    }
  }

  lemma {:induction false} InterruptionsRead(f: Foreign, ids: seq<string>)
    ensures ReadBlocks(f, "user", Interruptions(ids)) == (InterruptedParts(ids), [])
    ensures Interruptions(ids) == [] <==> ids == []
    ensures |InterruptedParts(ids)| == |ids| && forall p :: p in InterruptedParts(ids) ==> p.kind.ToolResult?
  {
    if ids != [] {
      InterruptionsRead(f, ids[1..]);
      var first := ToolResultBlock(ids[0], TextResult(INTERRUPTED), true);
      InterruptionReads(f, ids[0], Interruptions(ids[1..]));
    }
  }

  lemma {:induction false} InterruptionReads(f: Foreign, id: string, rest: seq<Claim>)
    ensures var (more, others) := ReadBlocks(f, "user", rest);
      ReadBlocks(f, "user", [ToolResultBlock(id, TextResult(INTERRUPTED), true)] + rest)
        == ([ResultPart(id, INTERRUPTED).(error := true)] + more, others)
  {
    var first := ToolResultBlock(id, TextResult(INTERRUPTED), true);
    var (more, others) := ReadBlocks(f, "user", rest);
    assert ([first] + rest)[0] == first && ([first] + rest)[1..] == rest;
    assert ReadBlock(f, "user", first) == ([ResultPart(id, INTERRUPTED).(error := true)], []);
    assert [] + others == others;
  }

  /** The message that one record holds. */
  function MessageBack(side: string, ts: int, parts: seq<Part>): seq<Event> {
    if parts == [] then [] else [MessageEvent(if OnlyResults(parts) then "tool" else side, ts, parts)]
  }

  /** What comes back of one event. */
  function EventBack(f: Foreign, e: Event, now: int, answered: set<string>): seq<Event>
  {
    var ts := TimestampOr(e.timestamp, now);
    if e.kind.Plan? then [PlanEvent(ts, Trim(e.planText))]
    else
      var (parts, plans) := PartsBack(f, e.role, e.parts);
      MessageBack(Side(e.role), ts, parts) + PlanEvents(ts, plans) + InterruptedEvents(ts, CallsWithout(answered, e.parts))
  }

  lemma {:induction false} OneLine(f: Foreign, role: string, ts: int, blocks: seq<Claim>)
    requires role in {"user", "assistant"}
    ensures ReadClaude(f, LineOf(role, ts, blocks)) ==
      if blocks == [] then []
      else
        var (parts, plans) := ReadBlocks(f, role, blocks);
        MessageBack(role, ts, parts) + PlanEvents(ts, plans)
  {
    hide ReadBlocks, OnlyResults;
    if blocks != [] {
      var line := Line(role, ts, Blocks(blocks));
      assert [line][1..] == [] && ReadLine(f, line) + [] == ReadLine(f, line);
    }
  }

  lemma {:induction false} InterruptedLine(f: Foreign, ts: int, ids: seq<string>)
    ensures ReadClaude(f, LineOf("user", ts, Interruptions(ids))) == InterruptedEvents(ts, ids)
  {
    hide ReadClaude, ReadBlocks, Interruptions, InterruptedParts;
    OneLine(f, "user", ts, Interruptions(ids));
    InterruptionsRead(f, ids);
    assert PlanEvents(ts, []) == [];
    if ids != [] { assert MessageBack("user", ts, InterruptedParts(ids)) + [] == InterruptedEvents(ts, ids); }
  }

  ghost predicate SensibleEvent(e: Event) {
    && (e.kind.Plan? ==> !Blank(e.planText))
    && (e.kind.Message? ==> e.role in {"user", "assistant", "tool"} && e.parts != []) && !e.kind.OtherEvent?
    && forall p :: p in e.parts ==> Shaped(e.role, p)
  }

  lemma {:induction false} EventReadsBack(f: Foreign, e: Event, now: int, answered: set<string>)
    requires SensibleEvent(e)
    ensures ReadClaude(f, WriteEventLines(e, now, answered)) == EventBack(f, e, now, answered)
  {
    hide ReadClaude, ReadBlocks, Interruptions, BlocksOf, PartsBack, MessageBack, Trim, ProposedPlan, Shaped, LineOf, Blank;
    var ts := TimestampOr(e.timestamp, now);
    if e.kind.Plan? {
      PlanLine(f, ts, e.planText);
    } else {
      var assistant := e.role == "assistant";
      var first, second := LineOf("assistant", ts, BlocksOf(e.role, e.parts, true)), LineOf("user", ts, BlocksOf(e.role, e.parts, false));
      var third := LineOf("user", ts, Interruptions(CallsWithout(answered, e.parts)));
      BlocksAreOneSided(f, e.role, e.parts);
      ReadAppends(f, first + second, third);
      ReadAppends(f, first, second);
      OneLine(f, "assistant", ts, BlocksOf(e.role, e.parts, true));
      OneLine(f, "user", ts, BlocksOf(e.role, e.parts, false));
      InterruptedLine(f, ts, CallsWithout(answered, e.parts));
      var (parts, plans) := PartsBack(f, e.role, e.parts);
      var message := MessageBack(Side(e.role), ts, parts) + PlanEvents(ts, plans);
      assert message + [] == message && [] + message == message;
    }
  }

  lemma {:induction false} PlanLine(f: Foreign, ts: int, plan: string)
    ensures ReadClaude(f, [Line("assistant", ts, Blocks([TextBlock(OPEN_PLAN + "\n" + plan + "\n" + CLOSE_PLAN)]))])
      == [PlanEvent(ts, Trim(plan))]
  {
    hide ReadClaude, Trim, ProposedPlan;
    var block := TextBlock(OPEN_PLAN + "\n" + plan + "\n" + CLOSE_PLAN);
    PlanReads(plan);
    OneLine(f, "assistant", ts, [block]);
    assert [block][1..] == [] && ReadBlocks(f, "assistant", []) == ([], []);
    assert [Trim(plan)] + [] == [Trim(plan)] && [Trim(plan)][1..] == [];
    assert ReadBlocks(f, "assistant", [block]) == ([], [Trim(plan)]);
    assert PlanEvents(ts, [Trim(plan)]) == [PlanEvent(ts, Trim(plan))];
  }

  lemma {:induction false} HealedKinds(f: Foreign, parts: seq<Part>)
    ensures OnlyResults(HealedParts(f, parts)) <==> OnlyResults(parts)
  {
    HealedLength(f, parts);
    HealedAt(f, parts);
    hide HealedParts;
    if OnlyResults(HealedParts(f, parts)) {
      forall p | p in parts ensures p.kind.ToolResult? || (p.kind.Media? && p.callId != "") {
        var i :| 0 <= i < |parts| && parts[i] == p;
        assert HealedParts(f, parts)[i] in HealedParts(f, parts);
      }
    }
    if OnlyResults(parts) {
      forall q | q in HealedParts(f, parts) ensures q.kind.ToolResult? || (q.kind.Media? && q.callId != "") {
        var i :| 0 <= i < |parts| && HealedParts(f, parts)[i] == q;
        assert parts[i] in parts;
      }
    }
  }

  lemma {:induction false} HealedAt(f: Foreign, parts: seq<Part>)
    ensures |HealedParts(f, parts)| == |parts| && forall i :: 0 <= i < |parts| ==> HealedParts(f, parts)[i] == HealedPart(f, parts[i])
  {
    if parts != [] {
      hide HealedPart;
      HealedAt(f, parts[1..]);
    }
  }

  /** What an assistant says faithfully is more than results. */
  lemma {:induction false} AssistantSaysMore(parts: seq<Part>)
    requires parts != [] && forall p :: p in parts ==> Shaped("assistant", p) && Transparent("assistant", p)
    ensures !OnlyResults(parts)
  {
    hide Untouched, ProposedPlan, ExitPlan, SoundMedia;
    assert parts[0] in parts;
  }

  lemma {:induction false} EventExactly(f: Foreign, e: Event, now: int, answered: set<string>)
    requires SensibleEvent(e)
    ensures EventBack(f, e, now, answered) == HealedEvent(f, e, now, answered) <==> TransparentEvent(e)
  {
    hide PartsBack, Trim, Shaped, Transparent, HealedParts, OnlyResults, InterruptedParts, CallsWithout, Blank;
    var ts := TimestampOr(e.timestamp, now);
    HealedLength(f, e.parts);
    if e.kind.Message? {
      PartsComeBack(f, e.role, e.parts);
      HealedKinds(f, e.parts);
      var (parts, plans) := PartsBack(f, e.role, e.parts);
      var ends := InterruptedEvents(ts, CallsWithout(answered, e.parts));
      var message := MessageEvent(RoleBack(e.role, e.parts), ts, HealedParts(f, e.parts));
      assert EventBack(f, e, now, answered) == MessageBack(Side(e.role), ts, parts) + PlanEvents(ts, plans) + ends;
      PlanEventsLength(ts, plans);
      if TransparentEvent(e) {
        if e.role == "assistant" { AssistantSaysMore(e.parts); }
        assert MessageBack(Side(e.role), ts, parts) + [] + ends == [message] + ends;
      }
      FirstBack(MessageBack(Side(e.role), ts, parts), PlanEvents(ts, plans), ends, message);
    }
  }

  /** A message and the plans after it, before the same ends, are one message exactly if there are no plans. */
  lemma {:induction false} FirstBack(back: seq<Event>, plans: seq<Event>, ends: seq<Event>, message: Event)
    requires |back| <= 1 && message.kind.Message? && forall e :: e in plans ==> e.kind.Plan?
    ensures back + plans + ends == [message] + ends <==> back == [message] && plans == []
  {
    if back + plans + ends == [message] + ends {
      assert |back + plans| == 1 && (back + plans + ends)[0] == (back + plans)[0] && ([message] + ends)[0] == message;
      assert back == [] ==> back + plans == plans;
    } else if plans == [] {
      assert back + plans == back;
    }
  }

  lemma {:induction false} PlanEventsLength(ts: int, plans: seq<string>)
    ensures |PlanEvents(ts, plans)| == |plans| && forall e :: e in PlanEvents(ts, plans) ==> e.kind.Plan? && e.parts == []
  {
    if plans != [] { PlanEventsLength(ts, plans[1..]); }
  }

  // ----- counting what is lost -----

  function Plans(events: seq<Event>): nat {
    if events == [] then 0 else (if events[0].kind.Plan? then 1 else 0) + Plans(events[1..])
  }

  function PartCount(events: seq<Event>): nat {
    if events == [] then 0 else |events[0].parts| + PartCount(events[1..])
  }

  lemma {:induction false} CountsAppend(a: seq<Event>, b: seq<Event>)
    ensures Plans(a + b) == Plans(a) + Plans(b) && PartCount(a + b) == PartCount(a) + PartCount(b)
  {
    if a == [] {
      assert a + b == b;
    } else {
      assert (a + b)[0] == a[0] && (a + b)[1..] == a[1..] + b;
      CountsAppend(a[1..], b);
    }
  }

  lemma {:induction false} OneCount(e: Event)
    ensures Plans([e]) == (if e.kind.Plan? then 1 else 0) && PartCount([e]) == |e.parts|
  {
    assert [e][1..] == [];
  }

  lemma {:induction false} PlansCount(events: seq<Event>)
    requires forall e :: e in events ==> e.kind.Plan? && e.parts == []
    ensures Plans(events) == |events| && PartCount(events) == 0
  {
    if events != [] {
      assert events[0] in events;
      PlansCount(events[1..]);
    }
  }

  /** A trip adds plans and loses parts, never the other way; and if it does neither, as many events come back. */
  lemma {:induction false} EventCounts(f: Foreign, e: Event, now: int, answered: set<string>)
    requires SensibleEvent(e)
    ensures var back, healed := EventBack(f, e, now, answered), HealedEvent(f, e, now, answered);
      && Plans(back) >= Plans(healed) && PartCount(back) <= PartCount(healed)
      && (Plans(back) == Plans(healed) && PartCount(back) == PartCount(healed) ==> |back| == |healed|)
  {
    hide PartsBack, Trim, Shaped, HealedParts, OnlyResults, InterruptedParts, CallsWithout, Plans, PartCount, Blank;
    var ts := TimestampOr(e.timestamp, now);
    HealedLength(f, e.parts);
    if e.kind.Plan? {
      OneCount(PlanEvent(ts, Trim(e.planText)));
      OneCount(PlanEvent(ts, Trim(e.planText)).(parts := HealedParts(f, e.parts)));
    } else {
      PartsComeBack(f, e.role, e.parts);
      var (parts, plans) := PartsBack(f, e.role, e.parts);
      var ends := InterruptedEvents(ts, CallsWithout(answered, e.parts));
      var message := MessageEvent(RoleBack(e.role, e.parts), ts, HealedParts(f, e.parts));
      var back := MessageBack(Side(e.role), ts, parts);
      assert EventBack(f, e, now, answered) == back + PlanEvents(ts, plans) + ends;
      assert HealedEvent(f, e, now, answered) == [message] + ends;
      PlanEventsLength(ts, plans);
      PlansCount(PlanEvents(ts, plans));
      OneCount(message);
      CountsAppend([message], ends);
      CountsAppend(back + PlanEvents(ts, plans), ends);
      CountsAppend(back, PlanEvents(ts, plans));
      MessageCount(Side(e.role), ts, parts);
    }
  }

  lemma {:induction false} MessageCount(side: string, ts: int, parts: seq<Part>)
    ensures var back := MessageBack(side, ts, parts);
      Plans(back) == 0 && PartCount(back) == |parts| && (parts != [] ==> |back| == 1)
  {
    hide OnlyResults;
    if parts != [] { OneCount(MessageBack(side, ts, parts)[0]); }
  }

  // ----- whole conversations -----

  function EventsBack(f: Foreign, events: seq<Event>, now: int, answered: set<string>): seq<Event> {
    if events == [] then [] else EventBack(f, events[0], now, answered) + EventsBack(f, events[1..], now, answered)
  }

  lemma {:induction false} EventsReadBack(f: Foreign, events: seq<Event>, now: int, answered: set<string>)
    requires forall e :: e in events ==> SensibleEvent(e)
    ensures ReadClaude(f, WriteLines(events, now, answered)) == EventsBack(f, events, now, answered)
  {
    if events != [] {
      hide ReadLine, WriteEventLines, EventBack, SensibleEvent;
      EventReadsBack(f, events[0], now, answered);
      EventsReadBack(f, events[1..], now, answered);
      ReadAppends(f, WriteEventLines(events[0], now, answered), WriteLines(events[1..], now, answered));
    }
  }

  lemma {:induction false} EventsCounts(f: Foreign, events: seq<Event>, now: int, answered: set<string>)
    requires forall e :: e in events ==> SensibleEvent(e)
    ensures Plans(EventsBack(f, events, now, answered)) >= Plans(HealedEvents(f, events, now, answered))
    ensures PartCount(EventsBack(f, events, now, answered)) <= PartCount(HealedEvents(f, events, now, answered))
  {
    if events != [] {
      hide EventBack, HealedEvent, SensibleEvent, Plans, PartCount;
      EventCounts(f, events[0], now, answered);
      EventsCounts(f, events[1..], now, answered);
      CountsAppend(EventBack(f, events[0], now, answered), EventsBack(f, events[1..], now, answered));
      CountsAppend(HealedEvent(f, events[0], now, answered), HealedEvents(f, events[1..], now, answered));
    }
  }

  lemma {:induction false} EventsExactly(f: Foreign, events: seq<Event>, now: int, answered: set<string>)
    requires forall e :: e in events ==> SensibleEvent(e)
    ensures EventsBack(f, events, now, answered) == HealedEvents(f, events, now, answered) <==> TransparentAll(events)
  {
    if events != [] {
      hide EventBack, HealedEvent, SensibleEvent, Plans, PartCount, TransparentEvent;
      var e, rest := events[0], events[1..];
      EventExactly(f, e, now, answered);
      EventsExactly(f, rest, now, answered);
      EventCounts(f, e, now, answered);
      EventsCounts(f, rest, now, answered);
      var back, more := EventBack(f, e, now, answered), EventsBack(f, rest, now, answered);
      var healed, others := HealedEvent(f, e, now, answered), HealedEvents(f, rest, now, answered);
      CountsAppend(back, more);
      CountsAppend(healed, others);
      assert forall d :: d in events <==> d == e || d in rest;
      if back + more == healed + others { SplitAlike(back, more, healed, others); }
    }
  }

  lemma {:induction false} SplitAlike<T>(a: seq<T>, b: seq<T>, c: seq<T>, d: seq<T>)
    requires a + b == c + d && |a| == |c|
    ensures a == c && b == d
  {
    assert (a + b)[..|a|] == a && (a + b)[|a|..] == b && (c + d)[..|c|] == c && (c + d)[|c|..] == d;
  }

  lemma {:induction false} EventsSensible(s: Scan, events: seq<Event>)
    requires CheckEvents(s, events).Fine?
    ensures forall e :: e in events ==> SensibleEvent(e)
    decreases |events|
  {
    if events != [] {
      hide CheckParts, Shaped, Blank;
      PartsShaped(s, events[0].role, events[0].parts);
      EventsSensible(CheckEvent(s, events[0]).scan, events[1..]);
      assert forall e :: e in events <==> e == events[0] || e in events[1..];
    }
  }

  /** A well-formed conversation comes back healed, event by event and part by part, if and only if no assistant text is
      a proposed plan, no call leaves plan mode with one, plans carry no parts, the assistant's media answer no call, and
      media are plainly inline, or remote and of no particular type. */
  lemma {:induction false} ComesBackExactly(f: Foreign, events: seq<Event>, now: int)
    requires WellFormed(events)
    ensures Trip(f, events, now) == Healed(f, events, now) <==> TransparentAll(events)
  {
    hide CheckEvents, SensibleEvent, TransparentAll, EventsBack, HealedEvents, WriteLines, ReadClaude;
    EventsSensible(UNREAD, events);
    EventsReadBack(f, events, now, Answered(events));
    EventsExactly(f, events, now, Answered(events));
  }
}
