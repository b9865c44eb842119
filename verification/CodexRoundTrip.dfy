/** What of a conversation survives being written as Codex records and read back. */
module CodexRoundTrip {
  import opened Basics
  import opened Text
  import opened Conversation
  import opened MediaUrl
  import opened Codex

  // ----- a conversation as the flat sequence of what it says -----

  datatype Atom =
    | TextAtom(role: string, text: string)
    | ReasoningAtom(text: string)
    | MediaAtom(role: string, media: MediaRef)
    | AnswerAtom(callId: string, media: MediaRef, error: bool)
    | CallAtom(callId: string, name: string, input: RawJson)
    | ResultAtom(callId: string, text: string, error: bool)
    | PlanAtom(text: string)

  function AtomsOf(role: string, p: Part): seq<Atom> {
    match p.kind
    case Text => [TextAtom(role, p.text)]
    case Reasoning => [ReasoningAtom(p.text)]
    case ToolCall => [CallAtom(p.callId, p.toolName, p.data)]
    case ToolResult => [ResultAtom(p.callId, p.text, p.error)]
    case Media => if p.callId == "" then [MediaAtom(role, MediaOf(p))] else [AnswerAtom(p.callId, MediaOf(p), p.error)]
    case OtherPart(_) => []
  }

  function PartAtoms(role: string, parts: seq<Part>): seq<Atom> {
    if parts == [] then [] else AtomsOf(role, parts[0]) + PartAtoms(role, parts[1..])
  }

  function EventAtoms(e: Event): seq<Atom> {
    PartAtoms(e.role, e.parts) + (if e.kind.Plan? then [PlanAtom(e.planText)] else [])
  }

  function Atoms(events: seq<Event>): seq<Atom> {
    if events == [] then [] else EventAtoms(events[0]) + Atoms(events[1..])
  }

  /** Reasoning becomes plain text, input becomes an object, plan text is trimmed, and an
      unanswered call gets an interrupted result. */
  function HealAtom(answered: set<string>, a: Atom): seq<Atom> {
    match a
    case ReasoningAtom(text) => [TextAtom("assistant", text)]
    case CallAtom(id, name, input) =>
      [CallAtom(id, name, ObjectInput(input))] + (if id in answered then [] else [ResultAtom(id, INTERRUPTED, true)])
    case PlanAtom(text) => [PlanAtom(Trim(text))]
    case _ => [a]
  }

  function Heal(answered: set<string>, atoms: seq<Atom>): seq<Atom> {
    if atoms == [] then [] else HealAtom(answered, atoms[0]) + Heal(answered, atoms[1..])
  }

  // ----- what a stream must avoid to survive -----

  predicate FaithfulPart(role: string, p: Part) {
    && ((p.kind.Text? || p.kind.Reasoning?) && role == "assistant" ==> ProposedPlan(p.text).None?)
    && (p.kind.Media? ==> Carries(MediaOf(p)) && (p.callId != "" ==> role == "tool"))
  }

  predicate FaithfulEvent(e: Event) {
    if e.kind.Plan? then e.parts == [] else forall p :: p in e.parts ==> FaithfulPart(e.role, p)
  }

  /** Plans carry no parts, no assistant text looks like a proposed plan, only tool events hold media
      that answers a call, and all media are of the kinds that a record carries. */
  predicate Faithful(events: seq<Event>) { forall e :: e in events ==> FaithfulEvent(e) }

  // ----- what the well-formedness check says of a part wherever it stands -----

  predicate Shaped(role: string, p: Part) {
    match p.kind
    case Text => p.text != "" && role != "tool"
    case Reasoning => p.text != "" && role == "assistant"
    case ToolCall => role == "assistant" && p.data.text != "" && p.data.value.Some?
    case ToolResult => role != "assistant"
    case Media => SoundMedia(MediaOf(p)) && (role == "tool" ==> p.callId != "")
    case OtherPart(_) => false
  }

  predicate ShapedEvent(e: Event) {
    && (e.kind.Message? ==> e.role in {"user", "assistant", "tool"})
    && !e.kind.OtherEvent?
    && forall p :: p in e.parts ==> Shaped(e.role, p)
  }

  lemma {:induction false} PartsShaped(s: Scan, role: string, parts: seq<Part>)
    requires CheckParts(s, role, parts).Fine?
    ensures forall p :: p in parts ==> Shaped(role, p)
    decreases |parts|
  {
    hide Blank, IsBase64;
    if parts != [] { PartsShaped(CheckPart(s, role, parts[0]).scan, role, parts[1..]); }
  }

  lemma {:induction false} EventsShaped(s: Scan, events: seq<Event>)
    requires CheckEvents(s, events).Fine?
    ensures forall e :: e in events ==> ShapedEvent(e)
    decreases |events|
  {
    if events != [] {
      hide CheckParts, Shaped;
      PartsShaped(s, events[0].role, events[0].parts);
      EventsShaped(CheckEvent(s, events[0]).scan, events[1..]);
    }
  }

  // ----- concatenation -----

  lemma {:induction false} AtomsAppend(a: seq<Event>, b: seq<Event>)
    ensures Atoms(a + b) == Atoms(a) + Atoms(b)
  {
    hide EventAtoms;
    if a == [] {
      assert a + b == b && Atoms(a) + Atoms(b) == Atoms(b);
    } else {
      assert (a + b)[0] == a[0] && (a + b)[1..] == a[1..] + b;
      AtomsAppend(a[1..], b);
      assert EventAtoms(a[0]) + (Atoms(a[1..]) + Atoms(b)) == (EventAtoms(a[0]) + Atoms(a[1..])) + Atoms(b);
    }
  }

  lemma {:induction false} HealAppend(answered: set<string>, a: seq<Atom>, b: seq<Atom>)
    ensures Heal(answered, a + b) == Heal(answered, a) + Heal(answered, b)
  {
    hide HealAtom;
    if a == [] {
      assert a + b == b && Heal(answered, a) + Heal(answered, b) == Heal(answered, b);
    } else {
      assert (a + b)[0] == a[0] && (a + b)[1..] == a[1..] + b;
      HealAppend(answered, a[1..], b);
      var h, t, u := HealAtom(answered, a[0]), Heal(answered, a[1..]), Heal(answered, b);
      assert h + (t + u) == (h + t) + u;
    }
  }

  lemma {:induction false} ReadAtomsAppend(a: seq<Record>, b: seq<Record>)
    ensures Atoms(Read(a + b)) == Atoms(Read(a)) + Atoms(Read(b))
  {
    ReadAppend(a, b);
    AtomsAppend(Read(a), Read(b));
  }

  lemma OneRecord(r: Record)
    ensures Read([r]) == ReadRecord(r)
  {
    hide ReadRecord;
    assert [r][1..] == [];
    assert ReadRecord(r) + [] == ReadRecord(r);
  }

  lemma OneEvent(e: Event)
    ensures Atoms([e]) == EventAtoms(e)
  {
    hide EventAtoms;
    assert [e][1..] == [];
    assert EventAtoms(e) + [] == EventAtoms(e);
  }

  lemma {:induction false} OnePart(role: string, p: Part)
    ensures PartAtoms(role, [p]) == AtomsOf(role, p)
  {
    assert [p][1..] == [];
    assert AtomsOf(role, p) + [] == AtomsOf(role, p);
  }

  lemma {:induction false} OneAtom(answered: set<string>, a: Atom)
    ensures Heal(answered, [a]) == HealAtom(answered, a)
  {
    assert [a][1..] == [];
    assert HealAtom(answered, a) + [] == HealAtom(answered, a);
  }

  // ----- message content on its way out and back -----

  /** A block that waits to be written in a message, and is no plan. */
  predicate PlainBlock(role: string, b: Option<Block>) {
    && b.Some?
    && (|| (b.value.kind in MESSAGE_TEXT && b.value.text != "" && b.value.media.None?
            && (role == "assistant" ==> ProposedPlan(b.value.text).None?))
        || (b.value.kind in MESSAGE_MEDIA && b.value.media.Some?))
  }

  function BlockAtom(role: string, b: Block): Atom {
    if b.media.Some? then MediaAtom(role, b.media.value) else TextAtom(role, b.text)
  }

  function ContentAtoms(role: string, content: seq<Option<Block>>): seq<Atom> {
    if content == [] then []
    else (if content[0].Some? then [BlockAtom(role, content[0].value)] else []) + ContentAtoms(role, content[1..])
  }

  lemma {:induction false} ContentAtomsSnoc(role: string, content: seq<Option<Block>>, b: Block)
    ensures ContentAtoms(role, content + [Some(b)]) == ContentAtoms(role, content) + [BlockAtom(role, b)]
  {
    if content == [] {
      assert content + [Some(b)] == [Some(b)] && [Some(b)][1..] == [];
    } else {
      assert (content + [Some(b)])[0] == content[0] && (content + [Some(b)])[1..] == content[1..] + [Some(b)];
      ContentAtomsSnoc(role, content[1..], b);
    }
  }

  lemma TextIsNotMedia(kind: string)
    ensures kind in MESSAGE_TEXT ==> kind !in MESSAGE_MEDIA
  {}

  lemma {:induction false} ContentReturns(role: string, content: seq<Option<Block>>)
    requires forall b :: b in content ==> PlainBlock(role, b)
    ensures var (parts, plans) := ReadContent(role, content);
      plans == [] && PartAtoms(role, parts) == ContentAtoms(role, content) && (parts == [] <==> content == [])
  {
    if content != [] {
      hide ProposedPlan;
      ContentReturns(role, content[1..]);
      var (parts, plans) := ReadContent(role, content[1..]);
      assert PlainBlock(role, content[0]);
      var b := content[0].value;
      TextIsNotMedia(b.kind);
      var p := if b.media.Some? then MediaPart(b.media.value, "", false) else TextPart(b.text);
      assert ReadContent(role, content) == ([p] + parts, plans);
      assert ([p] + parts)[1..] == parts;
      assert AtomsOf(role, p) == [BlockAtom(role, b)];
    }
  }

  lemma {:induction false} FlushReturns(role: string, ts: int, content: seq<Option<Block>>)
    requires role in {"user", "assistant"}
    requires forall b :: b in content ==> PlainBlock(role, b)
    ensures Atoms(Read(Flush(role, ts, content))) == ContentAtoms(role, content)
  {
    hide PlainBlock, ContentAtoms, PartAtoms;
    if content != [] {
      FlushRead(role, ts, content);
      ContentReturns(role, content);
      var (parts, plans) := ReadContent(role, content);
      var e := MessageEvent(role, ts, parts);
      assert Read(Flush(role, ts, content)) == [e] + [] == [e];
      OneEvent(e);
      assert PartAtoms(role, parts) + [] == PartAtoms(role, parts);
    } else {
      NoContentNoAtoms(role);
    }
  }

  lemma {:induction false} NoContentNoAtoms(role: string)
    ensures ContentAtoms(role, []) == []
  {}

  lemma FlushRead(role: string, ts: int, content: seq<Option<Block>>)
    requires content != []
    ensures Read(Flush(role, ts, content)) == ReadItem(ts, MessageItem(role, Some(content)))
  {
    hide ReadItem;
    var r := ResponseItem(ts, MessageItem(role, Some(content)));
    assert Flush(role, ts, content) == [r] + [OtherRecord("event_msg")];
    ReadAppend([r], [OtherRecord("event_msg")]);
    OneRecord(r);
    OneRecord(OtherRecord("event_msg"));
    assert ReadRecord(r) + [] == ReadRecord(r);
  }

  // ----- parts on their way out and back -----

  function WriterRole(role: string): string { if role == "tool" then "user" else role }

  lemma InputReturns(raw: RawJson)
    ensures ReadInput(ObjectInput(raw)) == ObjectInput(raw)
  {}

  lemma {:induction false} CallReturns(ts: int, answered: set<string>, p: Part)
    requires p.kind.ToolCall?
    ensures Atoms(Read(CallRecords(ts, answered, p))) == Heal(answered, AtomsOf("assistant", p))
  {
    hide ReadInput, ObjectInput;
    var call := ResponseItem(ts, FunctionCall(p.callId, p.toolName, ObjectInput(p.data)));
    InputReturns(p.data);
    OneRecord(call);
    OneEvent(ReadRecord(call)[0]);
    OneAtom(answered, AtomsOf("assistant", p)[0]);
    var atom := CallAtom(p.callId, p.toolName, ObjectInput(p.data));
    OnePart("assistant", ReadRecord(call)[0].parts[0]);
    assert Atoms(Read([call])) == [atom] + [] == [atom];
    if p.callId in answered {
      assert [call] + [] == [call] && [atom] + [] == [atom];
    } else {
      ReadAtomsAppend([call], [OutputRecord(ts, p.callId, OutText(INTERRUPTED), true)]);
      ResultReturns(ts, p.callId, INTERRUPTED, true);
    }
  }

  lemma ResultReturns(ts: int, callId: string, text: string, error: bool)
    ensures Atoms(Read([OutputRecord(ts, callId, OutText(text), error)])) == [ResultAtom(callId, text, error)]
  {
    var r := OutputRecord(ts, callId, OutText(text), error);
    OneRecord(r);
    var p := ResultPart(callId, text).(error := error);
    OneFlagged(ResultPart(callId, text), error);
    assert ReadRecord(r) == [MessageEvent("tool", ts, [p])];
    OneEvent(MessageEvent("tool", ts, [p]));
    OnePart("tool", p);
    assert [ResultAtom(callId, text, error)] + [] == [ResultAtom(callId, text, error)];
  }

  lemma {:induction false} OneFlagged(p: Part, error: bool)
    ensures Flagged([p], error) == [p.(error := error)]
  {
    assert [p][1..] == [];
  }

  /** What reading makes of media that answer a call. */
  function AnswerRead(p: Part): Part {
    var media := Carried(MediaOf(p));
    if media.Some? then MediaPart(media.value, p.callId, p.error) else ResultPart(p.callId, "").(error := p.error)
  }

  lemma {:induction false} AnswerReads(ts: int, p: Part)
    requires p.kind.Media? && p.callId != ""
    ensures Read([OutputRecord(ts, p.callId, OutBlocks([UrlBlock("user", p)]), p.error)]) == [MessageEvent("tool", ts, [AnswerRead(p)])]
    ensures Atoms([MessageEvent("tool", ts, [AnswerRead(p)])]) == AtomsOf("tool", AnswerRead(p))
  {
    hide Carried, IsImage;
    var block := UrlBlock("user", p);
    var r := OutputRecord(ts, p.callId, OutBlocks([block]), p.error);
    OneRecord(r);
    assert [block][1..] == [] && ReadOutputBlocks(p.callId, []) == [];
    assert MediaKind("user", p) in {"input_image", "input_file"};
    var media := Carried(MediaOf(p));
    var m := if media.Some? then MediaPart(media.value, p.callId, false) else ResultPart(p.callId, "");
    assert ReadOutputBlocks(p.callId, [block]) == if media.Some? then [m] + [] else [];
    assert ReadOutput(p.callId, OutBlocks([block])) == [m];
    OneFlagged(m, p.error);
    assert m.(error := p.error) == AnswerRead(p);
    OneEvent(MessageEvent("tool", ts, [AnswerRead(p)]));
    OnePart("tool", AnswerRead(p));
    EmptyTail(AtomsOf("tool", AnswerRead(p)));
  }

  lemma {:induction false} AnswerReturns(p: Part)
    requires p.kind.Media? && p.callId != "" && SoundMedia(MediaOf(p)) && Carries(MediaOf(p))
    ensures AnswerRead(p) == MediaPart(MediaOf(p), p.callId, p.error) && AtomsOf("tool", AnswerRead(p)) == AtomsOf("tool", p)
  {
    CarriedExactly(MediaOf(p));
    hide Carried, Carries, SoundMedia;
  }

  predicate PlainContent(role: string, content: seq<Option<Block>>) {
    forall b :: b in content ==> PlainBlock(role, b)
  }

  /** One part: what has come back and what still waits say what the part says. */
  lemma {:induction false} PartReturns(role: string, ts: int, answered: set<string>, p: Part, content: seq<Option<Block>>)
    requires role in {"user", "assistant", "tool"} && Shaped(role, p) && FaithfulPart(role, p)
    requires PlainContent(WriterRole(role), content)
    ensures var (emitted, content') := WritePart(role == "tool", WriterRole(role), ts, answered, p, content);
      && PlainContent(WriterRole(role), content')
      && Atoms(Read(emitted)) + ContentAtoms(WriterRole(role), content')
         == ContentAtoms(WriterRole(role), content) + Heal(answered, AtomsOf(role, p))
  {
    hide Read, Atoms, Heal, ContentAtoms, Flush, CallRecords, ProposedPlan, IsImage, Carried, Carries, SoundMedia;
    var writer := WriterRole(role);
    var before := ContentAtoms(writer, content);
    NoContentNoAtoms(writer);
    match p.kind
    case Text => WaitingReturns(role, ts, answered, p, content);
    case Reasoning => WaitingReturns(role, ts, answered, p, content);
    case Media =>
      if role != "tool" { WaitingReturns(role, ts, answered, p, content); }
      else {
        FlushReturns(writer, ts, content);
        AnswerReads(ts, p);
        AnswerReturns(p);
        OneAtom(answered, AtomsOf(role, p)[0]);
        var block := UrlBlock("user", p);
        ReadAtomsAppend(Flush(writer, ts, content), [OutputRecord(ts, p.callId, OutBlocks([block]), p.error)]);
        EmptyTail(before + AtomsOf(role, p));
      }
    case ToolCall =>
      FlushReturns(writer, ts, content);
      CallReturns(ts, answered, p);
      ReadAtomsAppend(Flush(writer, ts, content), CallRecords(ts, answered, p));
      EmptyTail(before + Heal(answered, AtomsOf(role, p)));
    case ToolResult =>
      FlushReturns(writer, ts, content);
      ResultReturns(ts, p.callId, p.text, p.error);
      OneAtom(answered, AtomsOf(role, p)[0]);
      ReadAtomsAppend(Flush(writer, ts, content), [OutputRecord(ts, p.callId, OutText(p.text), p.error)]);
      EmptyTail(before + AtomsOf(role, p));
  }

  lemma EmptyTail<T>(s: seq<T>)
    ensures s + [] == s && [] + s == s
  {}

  lemma {:induction false} WaitingReturns(role: string, ts: int, answered: set<string>, p: Part, content: seq<Option<Block>>)
    requires role in {"user", "assistant"} && Shaped(role, p) && FaithfulPart(role, p)
    requires PlainContent(role, content) && (p.kind.Text? || p.kind.Reasoning? || p.kind.Media?)
    ensures var (emitted, content') := WritePart(false, role, ts, answered, p, content);
      && emitted == [] && PlainContent(role, content')
      && Atoms(Read(emitted)) + ContentAtoms(role, content')
         == ContentAtoms(role, content) + Heal(answered, AtomsOf(role, p))
  {
    if p.kind.Media? { CarriedExactly(MediaOf(p)); }
    hide ContentAtoms, ProposedPlan, IsImage, Heal, Carried, Carries, SoundMedia;
    var (emitted, content') := WritePart(false, role, ts, answered, p, content);
    var b := content'[|content|].value;
    assert content' == content + [Some(b)];
    assert PlainBlock(role, Some(b));
    ContentAtomsSnoc(role, content, b);
    OneAtom(answered, AtomsOf(role, p)[0]);
    assert AtomsOf(role, p) == [AtomsOf(role, p)[0]];
    assert Read([]) == [] && Atoms([]) == [];
    EmptyTail(ContentAtoms(role, content'));
  }

  lemma {:induction false} PartsReturn(role: string, ts: int, answered: set<string>, parts: seq<Part>, content: seq<Option<Block>>)
    requires role in {"user", "assistant", "tool"}
    requires forall p :: p in parts ==> Shaped(role, p) && FaithfulPart(role, p)
    requires PlainContent(WriterRole(role), content)
    ensures Atoms(Read(WriteParts(role == "tool", WriterRole(role), ts, answered, parts, content)))
      == ContentAtoms(WriterRole(role), content) + Heal(answered, PartAtoms(role, parts))
    decreases |parts|
  {
    hide Read, Atoms, ContentAtoms, Shaped, FaithfulPart, PlainContent, WritePart, AtomsOf, HealAtom, Flush;
    var writer := WriterRole(role);
    if parts == [] {
      assert PlainContent(writer, content);
      PlainFlush(writer, ts, content);
      EmptyTail(ContentAtoms(writer, content));
    } else {
      PartReturns(role, ts, answered, parts[0], content);
      var (emitted, content') := WritePart(role == "tool", writer, ts, answered, parts[0], content);
      PartsReturn(role, ts, answered, parts[1..], content');
      ReadAtomsAppend(emitted, WriteParts(role == "tool", writer, ts, answered, parts[1..], content'));
      HealAppend(answered, AtomsOf(role, parts[0]), PartAtoms(role, parts[1..]));
      Pushed(Atoms(Read(emitted)), ContentAtoms(writer, content'), Heal(answered, PartAtoms(role, parts[1..])),
        ContentAtoms(writer, content), Heal(answered, AtomsOf(role, parts[0])));
    }
  }

  lemma {:induction false} Pushed<T>(came: seq<T>, now: seq<T>, rest: seq<T>, was: seq<T>, one: seq<T>)
    requires came + now == was + one
    ensures came + (now + rest) == was + (one + rest)
  {
    assert came + (now + rest) == (came + now) + rest == (was + one) + rest == was + (one + rest);
  }

  lemma {:induction false} PlainFlush(role: string, ts: int, content: seq<Option<Block>>)
    requires role in {"user", "assistant"} && PlainContent(role, content)
    ensures Atoms(Read(Flush(role, ts, content))) == ContentAtoms(role, content)
  {
    FlushReturns(role, ts, content);
  }

  // ----- plans on their way out and back -----

  lemma PlanReads(plan: string)
    ensures ProposedPlan(OPEN_PLAN + "\n" + plan + "\n" + CLOSE_PLAN) == Some(Trim(plan))
  {
    var text := OPEN_PLAN + "\n" + plan + "\n" + CLOSE_PLAN;
    assert text[0] == '<' && text[|text| - 1] == '>';
    assert Trim(text) == text;
    assert text[..|OPEN_PLAN|] == OPEN_PLAN;
    assert text[|text| - |CLOSE_PLAN|..] == CLOSE_PLAN;
    assert text[|OPEN_PLAN|..|text| - |CLOSE_PLAN|] == "\n" + plan + "\n";
    TrimBetweenLines(plan);
    TagsMatchThemselves();
  }

  lemma TagsMatchThemselves()
    ensures SameFolded(OPEN_PLAN, OPEN_PLAN) && SameFolded(CLOSE_PLAN, CLOSE_PLAN)
  {}

  lemma PlanReturns(ts: int, plan: string)
    ensures Read(Flush("assistant", ts, [PlanBlock(plan)])) == [PlanEvent(ts, Trim(plan))]
    ensures Atoms([PlanEvent(ts, Trim(plan))]) == [PlanAtom(Trim(plan))]
  {
    hide ProposedPlan, Trim;
    var content := [PlanBlock(plan)];
    assert content[1..] == [];
    FlushRead("assistant", ts, content);
    PlanReads(plan);
    assert ReadContent("assistant", content) == ([], [Trim(plan)]) by {
      assert [Trim(plan)] + [] == [Trim(plan)];
    }
    assert [Trim(plan)][1..] == [];
    var e := PlanEvent(ts, Trim(plan));
    assert PlanEvents(ts, [Trim(plan)]) == [e] + [] == [e];
    assert [] + [e] == [e];
    OneEvent(e);
    assert [] + [PlanAtom(Trim(plan))] == [PlanAtom(Trim(plan))];
  }

  // ----- whole conversations -----

  lemma {:induction false} EventReturns(e: Event, now: int, answered: set<string>)
    requires ShapedEvent(e) && FaithfulEvent(e)
    ensures Atoms(Read(WriteEvent(e, now, answered))) == Heal(answered, EventAtoms(e))
  {
    hide Read, Atoms, Heal, ContentAtoms, Shaped, FaithfulPart, WritePart, Flush, Trim, PlainBlock;
    var ts := TimestampOr(e.timestamp, now);
    if e.kind.Plan? {
      PlanReturns(ts, e.planText);
      OneAtom(answered, PlanAtom(e.planText));
      assert [] + [PlanAtom(e.planText)] == [PlanAtom(e.planText)];
    } else {
      PartsReturn(e.role, ts, answered, e.parts, []);
      NoContentNoAtoms(WriterRole(e.role));
      EmptyTail(PartAtoms(e.role, e.parts));
      EmptyTail(Heal(answered, PartAtoms(e.role, e.parts)));
    }
  }

  lemma {:induction false} EventsReturn(events: seq<Event>, now: int, answered: set<string>)
    requires forall e :: e in events ==> ShapedEvent(e) && FaithfulEvent(e)
    ensures Atoms(Read(WriteEvents(events, now, answered))) == Heal(answered, Atoms(events))
  {
    hide ShapedEvent, FaithfulEvent, WriteEvent, EventAtoms, ReadRecord, HealAtom;
    if events != [] {
      EventReturns(events[0], now, answered);
      EventsReturn(events[1..], now, answered);
      ReadAtomsAppend(WriteEvent(events[0], now, answered), WriteEvents(events[1..], now, answered));
      HealAppend(answered, EventAtoms(events[0]), Atoms(events[1..]));
    }
  }

  // ----- when it was said -----

  /** Each event was said when the one it comes from was, or now if that is unknown, and they come in order. */
  ghost predicate Dated(events: seq<Event>, now: int, out: seq<Event>) {
    exists from :: DatedBy(events, now, out, from)
  }

  ghost predicate DatedBy(events: seq<Event>, now: int, out: seq<Event>, from: seq<nat>) {
    && |from| == |out|
    && (forall k :: 0 <= k < |from| ==> from[k] < |events| && out[k].timestamp == (if events[from[k]].timestamp == 0 then now else events[from[k]].timestamp))
    && (forall j, k :: 0 <= j < k < |from| ==> from[j] <= from[k])
  }

  ghost predicate AllAt(records: seq<Record>, ts: int) {
    forall i :: 0 <= i < |records| && records[i].ResponseItem? ==> records[i].timestamp == ts
  }

  predicate NoPlanUpdates(records: seq<Record>) { forall i :: 0 <= i < |records| ==> !records[i].PlanUpdate? }

  lemma {:induction false} ItemAt(ts: int, item: Item)
    ensures forall e :: e in ReadItem(ts, item) ==> e.timestamp == ts
  {
    hide ReadContent, ReadOutput, NonEmpty, JoinLines, ReadInput, Flagged;
    if item.MessageItem? && item.content.Some? { PlansAt(ts, ReadContent(item.role, item.content.value).1); }
  }

  lemma {:induction false} PlansAt(ts: int, plans: seq<string>)
    ensures forall e :: e in PlanEvents(ts, plans) ==> e.timestamp == ts
  {
    if plans != [] { PlansAt(ts, plans[1..]); }
  }

  lemma {:induction false} ReadAt(records: seq<Record>, ts: int)
    requires AllAt(records, ts) && NoPlanUpdates(records)
    ensures forall e :: e in Read(records) ==> e.timestamp == ts
  {
    hide ReadItem;
    if records != [] {
      assert forall i :: 0 <= i < |records| - 1 ==> records[1..][i] == records[i + 1];
      ReadAt(records[1..], ts);
      if records[0].ResponseItem? { ItemAt(ts, records[0].item); }
    }
  }

  lemma {:induction false} PartWrittenAt(inTool: bool, role: string, ts: int, answered: set<string>, p: Part, content: seq<Option<Block>>)
    ensures AllAt(WritePart(inTool, role, ts, answered, p, content).0, ts) && NoPlanUpdates(WritePart(inTool, role, ts, answered, p, content).0)
  {
    hide ObjectInput, UrlBlock;
  }

  lemma {:induction false} BothAt(a: seq<Record>, b: seq<Record>, ts: int)
    requires AllAt(a, ts) && AllAt(b, ts) && NoPlanUpdates(a) && NoPlanUpdates(b)
    ensures AllAt(a + b, ts) && NoPlanUpdates(a + b)
  {}

  lemma {:induction false} PartsWrittenAt(inTool: bool, role: string, ts: int, answered: set<string>, parts: seq<Part>, content: seq<Option<Block>>)
    ensures AllAt(WriteParts(inTool, role, ts, answered, parts, content), ts) && NoPlanUpdates(WriteParts(inTool, role, ts, answered, parts, content))
    decreases |parts|
  {
    if parts != [] {
      hide WritePart, AllAt, NoPlanUpdates;
      var (emitted, content') := WritePart(inTool, role, ts, answered, parts[0], content);
      PartWrittenAt(inTool, role, ts, answered, parts[0], content);
      PartsWrittenAt(inTool, role, ts, answered, parts[1..], content');
      BothAt(emitted, WriteParts(inTool, role, ts, answered, parts[1..], content'), ts);
    }
  }

  lemma {:induction false} EventAt(e: Event, now: int, answered: set<string>)
    ensures var ts := if e.timestamp == 0 then now else e.timestamp;
      forall f :: f in Read(WriteEvent(e, now, answered)) ==> f.timestamp == ts
  {
    var ts := if e.timestamp == 0 then now else e.timestamp;
    if !e.kind.Plan? { PartsWrittenAt(e.role == "tool", if e.role == "tool" then "user" else e.role, ts, answered, e.parts, []); }
    hide Read, WriteParts;
    ReadAt(WriteEvent(e, now, answered), ts);
  }

  lemma {:induction false} DatedNext(e: Event, events: seq<Event>, now: int, first: seq<Event>, out: seq<Event>, from: seq<nat>)
    requires forall f :: f in first ==> f.timestamp == if e.timestamp == 0 then now else e.timestamp
    requires DatedBy(events, now, out, from)
    ensures Dated([e] + events, now, first + out)
  {
    var later := seq(|first| + |from|, k requires 0 <= k < |first| + |from| => if k < |first| then 0 else from[k - |first|] + 1);
    forall k | 0 <= k < |later|
      ensures later[k] < |[e] + events|
        && (first + out)[k].timestamp == (if ([e] + events)[later[k]].timestamp == 0 then now else ([e] + events)[later[k]].timestamp)
    {
      if k < |first| { assert first[k] in first; } else { assert (first + out)[k] == out[k - |first|]; }
    }
    assert DatedBy([e] + events, now, first + out, later);
  }

  /** Whatever comes back was said when it was said. */
  lemma {:induction false} TimesReturn(events: seq<Event>, now: int, answered: set<string>)
    ensures Dated(events, now, Read(WriteEvents(events, now, answered)))
  {
    if events == [] {
      assert DatedBy(events, now, [], []);
    } else {
      hide Read, WriteEvent, DatedBy;
      EventAt(events[0], now, answered);
      TimesReturn(events[1..], now, answered);
      ReadAppend(WriteEvent(events[0], now, answered), WriteEvents(events[1..], now, answered));
      var from :| DatedBy(events[1..], now, Read(WriteEvents(events[1..], now, answered)), from);
      DatedNext(events[0], events[1..], now, Read(WriteEvent(events[0], now, answered)), Read(WriteEvents(events[1..], now, answered)), from);
      assert [events[0]] + events[1..] == events;
    }
  }

  // ----- whose blocks they are -----

  /** Codex takes only such blocks from either side. */
  predicate SpokenBy(role: string, b: Option<Block>) {
    b.Some? &&
    if role == "assistant" then b.value.kind == "output_text" || b.value.kind == "output_image" || b.value.kind == "output_file"
    else b.value.kind == "input_text" || b.value.kind == "input_image" || b.value.kind == "input_file"
  }

  predicate AllSpoken(role: string, content: seq<Option<Block>>) { forall i :: 0 <= i < |content| ==> SpokenBy(role, content[i]) }

  predicate RecordSpoken(record: Record) {
    record.ResponseItem? && record.item.MessageItem? ==>
      record.item.content.Some? && record.item.content.value != [] && AllSpoken(record.item.role, record.item.content.value)
  }

  predicate RecordsSpoken(records: seq<Record>) { forall i :: 0 <= i < |records| ==> RecordSpoken(records[i]) }

  lemma {:induction false} BothSpoken(a: seq<Record>, b: seq<Record>)
    requires RecordsSpoken(a) && RecordsSpoken(b)
    ensures RecordsSpoken(a + b)
  {
    hide RecordSpoken;
  }

  lemma {:induction false} FlushSpoken(role: string, ts: int, content: seq<Option<Block>>)
    requires AllSpoken(role, content)
    ensures RecordsSpoken(Flush(role, ts, content))
  {
    hide AllSpoken;
  }

  lemma {:induction false} MediaSpoken(role: string, p: Part)
    ensures SpokenBy(role, UrlBlock(role, p))
    ensures UrlBlock(role, p).value.kind in {"output_image", "input_image"} <==> |p.mediaType| >= 6 && InAnyCase(p.mediaType[..6], "image/")
  {
    if |p.mediaType| >= 6 { AnyCaseFolds(p.mediaType[..6], "image/"); }
    hide Carried, SameFolded, InAnyCase;
  }

  lemma {:induction false} PartSpoken(inTool: bool, role: string, ts: int, answered: set<string>, p: Part, content: seq<Option<Block>>)
    requires AllSpoken(role, content)
    ensures var (emitted, content') := WritePart(inTool, role, ts, answered, p, content); RecordsSpoken(emitted) && AllSpoken(role, content')
  {
    FlushSpoken(role, ts, content);
    MediaSpoken(role, p);
    hide ObjectInput, UrlBlock, Flush;
  }

  lemma {:induction false} PartsSpoken(inTool: bool, role: string, ts: int, answered: set<string>, parts: seq<Part>, content: seq<Option<Block>>)
    requires AllSpoken(role, content)
    ensures RecordsSpoken(WriteParts(inTool, role, ts, answered, parts, content))
    decreases |parts|
  {
    hide WritePart, AllSpoken, RecordsSpoken, Flush;
    if parts == [] {
      FlushSpoken(role, ts, content);
    } else {
      var (emitted, content') := WritePart(inTool, role, ts, answered, parts[0], content);
      PartSpoken(inTool, role, ts, answered, parts[0], content);
      PartsSpoken(inTool, role, ts, answered, parts[1..], content');
      BothSpoken(emitted, WriteParts(inTool, role, ts, answered, parts[1..], content'));
    }
  }

  /** Every message that is written has blocks of its speaker's kinds only, images as images and other media as files. */
  lemma {:induction false} BlocksAreTheSpeakers(events: seq<Event>, now: int, answered: set<string>)
    ensures RecordsSpoken(WriteEvents(events, now, answered))
  {
    if events != [] {
      var e := events[0];
      if e.kind.Plan? {
        assert AllSpoken("assistant", [PlanBlock(e.planText)]);
        FlushSpoken("assistant", TimestampOr(e.timestamp, now), [PlanBlock(e.planText)]);
      } else {
        PartsSpoken(e.role == "tool", if e.role == "tool" then "user" else e.role, TimestampOr(e.timestamp, now), answered, e.parts, []);
      }
      hide WriteParts, RecordsSpoken, Flush, PlanBlock;
      BlocksAreTheSpeakers(events[1..], now, answered);
      BothSpoken(WriteEvent(e, now, answered), WriteEvents(events[1..], now, answered));
    }
  }
}
