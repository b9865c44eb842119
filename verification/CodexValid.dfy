/** A conversation read back from its Codex records: when it is well formed, that none of its
    calls is left unanswered, and that a second trip changes nothing. */
module CodexValid {
  import opened Basics
  import opened Text
  import opened Conversation
  import opened MediaUrl
  import opened Codex
  import opened CodexRoundTrip
  import opened CodexLoss

  // ----- when what comes back is well formed -----

  /** No call is given a second tool result, neither by `parts` nor after `here`. */
  predicate SingleFrom(here: set<string>, parts: seq<Part>) {
    && (forall i, j :: 0 <= i < j < |parts| && parts[i].kind.ToolResult? && parts[j].kind.ToolResult? ==>
          parts[i].callId != parts[j].callId)
    && (forall i :: 0 <= i < |parts| && parts[i].kind.ToolResult? ==> parts[i].callId !in here)
  }

  predicate SingleResults(events: seq<Event>) { forall e :: e in events ==> SingleFrom({}, e.parts) }

  lemma SingleNext(here: set<string>, parts: seq<Part>)
    requires parts != []
    ensures SingleFrom(here, parts) <==>
      if parts[0].kind.ToolResult? then parts[0].callId !in here && SingleFrom(here + {parts[0].callId}, parts[1..])
      else SingleFrom(here, parts[1..])
  {
    var rest := parts[1..];
    assert forall i :: 0 <= i < |rest| ==> rest[i] == parts[i + 1];
    var single := parts[0].kind.ToolResult? ==> parts[0].callId !in here && SingleFrom(here + {parts[0].callId}, rest);
    if SingleFrom(here, rest) && single {
      forall i, j | 0 <= i < j < |parts| && parts[i].kind.ToolResult? && parts[j].kind.ToolResult?
        ensures parts[i].callId != parts[j].callId
      {
        assert parts[j] == rest[j - 1];
        if i > 0 { assert parts[i] == rest[i - 1]; }
      }
      forall i | 0 <= i < |parts| && parts[i].kind.ToolResult? ensures parts[i].callId !in here {
        if i > 0 { assert parts[i] == rest[i - 1]; }
      }
    }
  }

  /** Only calls are answered. */
  ghost predicate Sane(s: Scan) {
    forall id :: id in s.settled || id in s.here ==> id in s.order
  }

  /** `t` has read what came back of all that `s` has read: an answer settles at once, and so
      does a call that nothing in the conversation answers. */
  ghost predicate Matches(answered: set<string>, s: Scan, t: Scan) {
    && t.order == s.order && t.here == {}
    && (forall id :: id in t.settled <==> id in s.settled || id in s.here || (id in s.order && id !in answered))
  }

  predicate SoundBlock(role: string, b: Option<Block>) {
    PlainBlock(role, b) && (b.value.media.Some? ==> SoundMedia(b.value.media.value))
  }

  predicate SoundContent(role: string, content: seq<Option<Block>>) {
    forall b :: b in content ==> SoundBlock(role, b)
  }

  lemma {:induction false} ContentChecks(t: Scan, role: string, content: seq<Option<Block>>)
    requires role in {"user", "assistant"} && SoundContent(role, content)
    ensures var (parts, plans) := ReadContent(role, content);
      CheckParts(t, role, parts) == Fine(t) && plans == [] && (parts == [] <==> content == [])
  {
    if content != [] {
      hide ProposedPlan, Blank, IsBase64;
      assert SoundBlock(role, content[0]);
      ContentChecks(t, role, content[1..]);
      var (parts, plans) := ReadContent(role, content[1..]);
      var b := content[0].value;
      TextIsNotMedia(b.kind);
      var p := if b.media.Some? then MediaPart(b.media.value, "", false) else TextPart(b.text);
      assert ReadContent(role, content) == ([p] + parts, plans);
      assert ([p] + parts)[1..] == parts && ([p] + parts)[0] == p;
      assert CheckPart(t, role, p) == Fine(t);
    }
  }

  lemma {:induction false} OneEventChecks(t: Scan, e: Event)
    ensures CheckEvents(t, [e]) == CheckEvent(t, e)
  {
    hide CheckEvent;
    assert [e][1..] == [];
  }

  lemma {:induction false} OnePartChecks(t: Scan, role: string, p: Part)
    ensures CheckParts(t, role, [p]) == CheckPart(t, role, p)
  {
    hide CheckPart;
    assert [p][1..] == [];
  }

  lemma {:induction false} FlushChecks(t: Scan, role: string, ts: int, content: seq<Option<Block>>)
    requires role in {"user", "assistant"} && SoundContent(role, content) && t.here == {}
    ensures CheckEvents(t, Read(Flush(role, ts, content))) == Fine(t)
  {
    hide SoundContent, CheckParts, ReadContent;
    if content != [] {
      FlushRead(role, ts, content);
      ContentChecks(t, role, content);
      var (parts, plans) := ReadContent(role, content);
      assert Read(Flush(role, ts, content)) == [MessageEvent(role, ts, parts)] by {
        EmptyTail([MessageEvent(role, ts, parts)]);
      }
      OneEventChecks(t, MessageEvent(role, ts, parts));
      assert t.settled + {} == t.settled;
    }
  }

  lemma {:induction false} ReadChecks(t: Scan, a: seq<Record>, b: seq<Record>)
    ensures CheckEvents(t, Read(a + b)) ==
      (match CheckEvents(t, Read(a)) case Bad(f) => Bad(f) case Fine(t') => CheckEvents(t', Read(b)))
  {
    hide CheckEvents, Read;
    ReadAppend(a, b);
    CheckEventsAppend(t, Read(a), Read(b));
  }

  /** A recorded result is accepted unless its call is already settled. */
  lemma {:induction false} ResultChecks(t: Scan, ts: int, callId: string, text: string, error: bool)
    requires callId != "" && callId in t.order && t.here == {}
    ensures CheckEvents(t, Read([OutputRecord(ts, callId, OutText(text), error)])) ==
      if callId in t.settled then Bad(DuplicateResult(callId))
      else Fine(t.(answered := t.answered + {callId}, settled := t.settled + {callId}))
  {
    var r := OutputRecord(ts, callId, OutText(text), error);
    OneRecord(r);
    OneFlagged(ResultPart(callId, text), error);
    var e := MessageEvent("tool", ts, [ResultPart(callId, text).(error := error)]);
    assert ReadRecord(r) == [e];
    OneEventChecks(t, e);
    OnePartChecks(t, "tool", e.parts[0]);
    assert {} + {callId} == {callId};
  }

  lemma {:induction false} AnswerChecks(t: Scan, ts: int, p: Part)
    requires p.kind.Media? && p.callId != "" && p.callId in t.order && t.here == {} && SoundMedia(MediaOf(p))
    ensures CheckEvents(t, [MessageEvent("tool", ts, [MediaPart(MediaOf(p), p.callId, p.error)])])
      == Fine(t.(answered := t.answered + {p.callId}))
  {
    hide Blank, IsBase64;
    var e := MessageEvent("tool", ts, [MediaPart(MediaOf(p), p.callId, p.error)]);
    OneEventChecks(t, e);
    OnePartChecks(t, "tool", e.parts[0]);
    assert t.settled + {} == t.settled;
  }

  lemma {:induction false} CallChecks(t: Scan, ts: int, answered: set<string>, p: Part)
    requires p.kind.ToolCall? && p.callId != "" && p.toolName != "" && p.data.text != "" && p.data.value.Some?
    requires p.callId !in t.order && p.callId !in t.settled && t.here == {}
    ensures var v := CheckEvents(t, Read(CallRecords(ts, answered, p)));
      v.Fine? && v.scan.order == t.order + [p.callId] && v.scan.here == {}
      && v.scan.settled == t.settled + (if p.callId in answered then {} else {p.callId})
  {
    hide ReadInput, ObjectInput;
    var call := ResponseItem(ts, FunctionCall(p.callId, p.toolName, ObjectInput(p.data)));
    InputReturns(p.data);
    InputIsValid(p.data);
    OneRecord(call);
    var e := ReadRecord(call)[0];
    OneEventChecks(t, e);
    OnePartChecks(t, "assistant", e.parts[0]);
    var u := t.(order := t.order + [p.callId]);
    assert t.settled + {} == t.settled;
    assert CheckEvents(t, Read([call])) == Fine(u);
    if p.callId in answered {
      EmptyTail([call]);
    } else {
      ReadChecks(t, [call], [OutputRecord(ts, p.callId, OutText(INTERRUPTED), true)]);
      ResultChecks(u, ts, p.callId, INTERRUPTED, true);
    }
  }

  lemma InputIsValid(raw: RawJson)
    requires raw.text != "" && raw.value.Some?
    ensures ObjectInput(raw).text != "" && ObjectInput(raw).value.Some?
  {}

  /** One part against what comes back of it: accepted alike, except that a second result in
      one event is refused on the way back. */
  lemma {:induction false} PartChecks(s: Scan, t: Scan, role: string, ts: int, answered: set<string>, p: Part, content: seq<Option<Block>>)
    requires role in {"user", "assistant", "tool"} && CheckPart(s, role, p).Fine? && FaithfulPart(role, p)
    requires Sane(s) && Matches(answered, s, t) && SoundContent(WriterRole(role), content)
    requires p.kind.ToolResult? ==> p.callId in answered
    ensures var (emitted, content') := WritePart(role == "tool", WriterRole(role), ts, answered, p, content);
      && SoundContent(WriterRole(role), content')
      && var v := CheckEvents(t, Read(emitted));
         if p.kind.ToolResult? && p.callId in s.here then v.Bad?
         else v.Fine? && Sane(CheckPart(s, role, p).scan) && Matches(answered, CheckPart(s, role, p).scan, v.scan)
  {
    hide Read, Flush, CallRecords, ProposedPlan, IsImage, CheckEvents, Blank, IsBase64, Carried, Carries;
    var writer := WriterRole(role);
    match p.kind
    case Text => WaitingChecks(s, t, role, ts, answered, p, content);
    case Reasoning => WaitingChecks(s, t, role, ts, answered, p, content);
    case Media =>
      if role != "tool" { WaitingChecks(s, t, role, ts, answered, p, content); }
      else {
        FlushChecks(t, writer, ts, content);
        AnswerReads(ts, p);
        AnswerReturns(p);
        AnswerChecks(t, ts, p);
        var block := UrlBlock("user", p);
        ReadChecks(t, Flush(writer, ts, content), [OutputRecord(ts, p.callId, OutBlocks([block]), p.error)]);
      }
    case ToolCall =>
      FlushChecks(t, writer, ts, content);
      CallChecks(t, ts, answered, p);
      ReadChecks(t, Flush(writer, ts, content), CallRecords(ts, answered, p));
    case ToolResult =>
      FlushChecks(t, writer, ts, content);
      ResultChecks(t, ts, p.callId, p.text, p.error);
      ReadChecks(t, Flush(writer, ts, content), [OutputRecord(ts, p.callId, OutText(p.text), p.error)]);
  }

  lemma {:induction false} WaitingChecks(s: Scan, t: Scan, role: string, ts: int, answered: set<string>, p: Part, content: seq<Option<Block>>)
    requires role in {"user", "assistant"} && CheckPart(s, role, p).Fine? && FaithfulPart(role, p)
    requires Matches(answered, s, t) && SoundContent(role, content)
    requires p.kind.Text? || p.kind.Reasoning? || p.kind.Media?
    ensures var (emitted, content') := WritePart(false, role, ts, answered, p, content);
      && SoundContent(role, content') && CheckEvents(t, Read(emitted)) == Fine(t) && CheckPart(s, role, p) == Fine(s)
  {
    if p.kind.Media? { CarriedExactly(MediaOf(p)); }
    hide ProposedPlan, IsImage, Blank, IsBase64, Carried, Carries;
    var (emitted, content') := WritePart(false, role, ts, answered, p, content);
    var b := content'[|content|];
    assert content' == content + [b];
    assert SoundBlock(role, b);
    assert emitted == [] && Read([]) == [];
  }

  lemma {:induction false} PartsCheck(s: Scan, t: Scan, role: string, ts: int, answered: set<string>, parts: seq<Part>,
      content: seq<Option<Block>>)
    requires role in {"user", "assistant", "tool"} && CheckParts(s, role, parts).Fine?
    requires forall p :: p in parts ==> FaithfulPart(role, p) && (p.kind.ToolResult? ==> p.callId in answered)
    requires Sane(s) && Matches(answered, s, t) && SoundContent(WriterRole(role), content)
    ensures var v := CheckEvents(t, Read(WriteParts(role == "tool", WriterRole(role), ts, answered, parts, content)));
      if SingleFrom(s.here, parts) then
        v.Fine? && Sane(CheckParts(s, role, parts).scan) && Matches(answered, CheckParts(s, role, parts).scan, v.scan)
      else v.Bad?
    decreases |parts|
  {
    hide Read, CheckEvents, Sane, SoundContent, WritePart, Flush, FaithfulPart, SingleFrom, CheckPart;
    var writer := WriterRole(role);
    if parts == [] {
      FlushChecks(t, writer, ts, content);
      NoneIsSingle(s.here);
    } else {
      PartChecks(s, t, role, ts, answered, parts[0], content);
      SingleNext(s.here, parts);
      var (emitted, content') := WritePart(role == "tool", writer, ts, answered, parts[0], content);
      ReadChecks(t, emitted, WriteParts(role == "tool", writer, ts, answered, parts[1..], content'));
      HereAfter(s, role, parts[0]);
      var v := CheckEvents(t, Read(emitted));
      if v.Fine? {
        PartsCheck(CheckPart(s, role, parts[0]).scan, v.scan, role, ts, answered, parts[1..], content');
      }
    }
  }

  lemma NoneIsSingle(here: set<string>)
    ensures SingleFrom(here, [])
  {}

  lemma HereAfter(s: Scan, role: string, p: Part)
    requires CheckPart(s, role, p).Fine?
    ensures CheckPart(s, role, p).scan.here == if p.kind.ToolResult? then s.here + {p.callId} else s.here
  {}

  lemma {:induction false} AnsweredIncludes(answered: set<string>, parts: seq<Part>)
    requires AnsweredBy(parts) <= answered
    ensures forall p :: p in parts && p.kind.ToolResult? ==> p.callId in answered
  {
    if parts != [] {
      AnsweredIncludes(answered, parts[1..]);
      assert forall p :: p in parts <==> p == parts[0] || p in parts[1..];
    }
  }

  lemma {:induction false} EventChecks(s: Scan, t: Scan, e: Event, now: int, answered: set<string>)
    requires CheckEvent(s, e).Fine? && FaithfulEvent(e) && AnsweredBy(e.parts) <= answered
    requires Sane(s) && s.here == {} && Matches(answered, s, t)
    ensures var v := CheckEvents(t, Read(WriteEvent(e, now, answered)));
      if SingleFrom({}, e.parts) then
        && v.Fine? && Sane(CheckEvent(s, e).scan) && Matches(answered, CheckEvent(s, e).scan, v.scan)
        && CheckEvent(s, e).scan.here == {}
      else v.Bad?
  {
    hide Read, CheckEvents, WriteParts, Flush, Trim, FaithfulPart, CheckParts, SoundBlock, Blank, SingleFrom, AnsweredBy, ReadContent;
    var ts := TimestampOr(e.timestamp, now);
    if e.kind.Plan? {
      PlanReturns(ts, e.planText);
      TrimIsTight(e.planText);
      var back := PlanEvent(ts, Trim(e.planText));
      OneEventChecks(t, back);
      NoParts(t, "assistant");
      NoParts(s, e.role);
      NoneIsSingle({});
      assert t.settled + {} == t.settled && s.settled + {} == s.settled;
    } else {
      AnsweredIncludes(answered, e.parts);
      PartsCheck(s, t, e.role, ts, answered, e.parts, []);
    }
  }

  lemma {:induction false} EventsCheck(s: Scan, t: Scan, events: seq<Event>, now: int, answered: set<string>)
    requires CheckEvents(s, events).Fine? && Faithful(events) && Answered(events) <= answered
    requires Sane(s) && s.here == {} && Matches(answered, s, t)
    ensures var v := CheckEvents(t, Read(WriteEvents(events, now, answered)));
      if SingleResults(events) then v.Fine? && Matches(answered, CheckEvents(s, events).scan, v.scan) else v.Bad?
    decreases |events|
  {
    hide Read, CheckEvent, WriteEvent, FaithfulEvent, AnsweredBy, Sane, Matches, SingleFrom;
    if events != [] {
      EventChecks(s, t, events[0], now, answered);
      ReadChecks(t, WriteEvent(events[0], now, answered), WriteEvents(events[1..], now, answered));
      var v := CheckEvents(t, Read(WriteEvent(events[0], now, answered)));
      assert forall d :: d in events <==> d == events[0] || d in events[1..];
      if v.Fine? {
        EventsCheck(CheckEvent(s, events[0]).scan, v.scan, events[1..], now, answered);
      }
    } else {
      NothingChecks(t);
    }
  }

  lemma {:induction false} NothingChecks(t: Scan)
    ensures CheckEvents(t, Read([])) == Fine(t)
  {}

  // ----- that no call comes back unanswered -----

  function CallsOf(parts: seq<Part>): set<string> {
    set p | p in parts && p.kind.ToolCall? :: p.callId
  }

  function Calls(events: seq<Event>): set<string> {
    if events == [] then {} else CallsOf(events[0].parts) + Calls(events[1..])
  }

  function AtomCalls(atoms: seq<Atom>): set<string> { set a | a in atoms && a.CallAtom? :: a.callId }

  function AtomAnswers(atoms: seq<Atom>): set<string> {
    set a | a in atoms && (a.ResultAtom? || a.AnswerAtom?) :: a.callId
  }

  lemma {:induction false} PartAtomCalls(role: string, parts: seq<Part>)
    ensures AtomCalls(PartAtoms(role, parts)) == CallsOf(parts)
    ensures AtomAnswers(PartAtoms(role, parts)) == AnsweredBy(parts)
  {
    if parts != [] {
      PartAtomCalls(role, parts[1..]);
      AtomsUnion(AtomsOf(role, parts[0]), PartAtoms(role, parts[1..]));
      OnePartCalls(role, parts[0]);
      assert CallsOf(parts) == CallsOf([parts[0]]) + CallsOf(parts[1..]) by {
        assert forall p :: p in parts <==> p in [parts[0]] || p in parts[1..];
      }
    }
  }

  lemma OnePartCalls(role: string, p: Part)
    ensures AtomCalls(AtomsOf(role, p)) == CallsOf([p])
    ensures AtomAnswers(AtomsOf(role, p))
      == if p.kind.ToolResult? || (p.kind.Media? && p.callId != "") then {p.callId} else {}
  {
    assert p in [p];
    var atoms := AtomsOf(role, p);
    assert atoms == [] || (atoms == [atoms[0]] && atoms[0] in atoms);
  }

  lemma AtomsUnion(a: seq<Atom>, b: seq<Atom>)
    ensures AtomCalls(a + b) == AtomCalls(a) + AtomCalls(b)
    ensures AtomAnswers(a + b) == AtomAnswers(a) + AtomAnswers(b)
  {
    assert forall x :: x in a + b <==> x in a || x in b;
  }

  lemma {:induction false} EventAtomCalls(events: seq<Event>)
    ensures AtomCalls(Atoms(events)) == Calls(events)
    ensures AtomAnswers(Atoms(events)) == Answered(events)
  {
    hide AtomCalls, AtomAnswers, PartAtoms, AnsweredBy, CallsOf;
    if events == [] {
      NoAtoms();
    } else {
      var e := events[0];
      EventAtomCalls(events[1..]);
      PartAtomCalls(e.role, e.parts);
      PlanAnswersNothing(e.planText);
      AtomsUnion(PartAtoms(e.role, e.parts), if e.kind.Plan? then [PlanAtom(e.planText)] else []);
      AtomsUnion(EventAtoms(e), Atoms(events[1..]));
    }
  }

  lemma NoAtoms()
    ensures AtomCalls([]) == {} && AtomAnswers([]) == {}
  {}

  lemma PlanAnswersNothing(plan: string)
    ensures AtomCalls([PlanAtom(plan)]) == {} && AtomAnswers([PlanAtom(plan)]) == {}
    ensures AtomCalls([]) == {} && AtomAnswers([]) == {}
  {}

  lemma {:induction false} HealAnswers(answered: set<string>, atoms: seq<Atom>)
    ensures AtomCalls(Heal(answered, atoms)) == AtomCalls(atoms)
    ensures AtomAnswers(Heal(answered, atoms)) == AtomAnswers(atoms) + (AtomCalls(atoms) - answered)
  {
    if atoms == [] {
      NoAtoms();
    } else {
      hide AtomCalls, AtomAnswers, HealAtom;
      HealAnswers(answered, atoms[1..]);
      HealAtomAnswers(answered, atoms[0]);
      AtomsUnion(HealAtom(answered, atoms[0]), Heal(answered, atoms[1..]));
      assert [atoms[0]] + atoms[1..] == atoms;
      AtomsUnion([atoms[0]], atoms[1..]);
    }
  }

  lemma HealAtomAnswers(answered: set<string>, a: Atom)
    ensures AtomCalls(HealAtom(answered, a)) == AtomCalls([a])
    ensures AtomAnswers(HealAtom(answered, a)) == AtomAnswers([a]) + (AtomCalls([a]) - answered)
  {
    assert a in [a];
    var healed := HealAtom(answered, a);
    assert healed[0] in healed;
    assert |healed| == 2 ==> healed[1] in healed;
    assert |healed| <= 2 && (forall x :: x in healed ==> x == healed[0] || (|healed| == 2 && x == healed[1]));
  }

  lemma {:induction false} EveryCallIsAnswered(events: seq<Event>, now: int)
    requires WellFormed(events) && Faithful(events)
    ensures Calls(RoundTrip(events, now)) == Calls(events)
    ensures Answered(RoundTrip(events, now)) == Answered(events) + Calls(events)
  {
    hide AtomCalls, AtomAnswers, Heal, Atoms, Read, Write, Calls, Answered, Faithful;
    ComesBackExactly(events, now);
    EventAtomCalls(events);
    EventAtomCalls(RoundTrip(events, now));
    HealAnswers(Answered(events), Atoms(events));
  }

  // ----- the check's own account of calls and answers -----

  lemma {:induction false} PartsAccount(s: Scan, role: string, parts: seq<Part>)
    requires CheckParts(s, role, parts).Fine?
    ensures var t := CheckParts(s, role, parts).scan;
      && t.answered == s.answered + AnsweredBy(parts)
      && forall id :: id in t.order <==> id in s.order || id in CallsOf(parts)
    decreases |parts|
  {
    if parts != [] {
      PartsAccount(CheckPart(s, role, parts[0]).scan, role, parts[1..]);
      assert CallsOf(parts) == CallsOf([parts[0]]) + CallsOf(parts[1..]) by {
        assert forall p :: p in parts <==> p in [parts[0]] || p in parts[1..];
      }
      assert parts[0] in [parts[0]];
    }
  }

  lemma {:induction false} EventsAccount(s: Scan, events: seq<Event>)
    requires CheckEvents(s, events).Fine?
    ensures var t := CheckEvents(s, events).scan;
      && t.answered == s.answered + Answered(events)
      && forall id :: id in t.order <==> id in s.order || id in Calls(events)
    decreases |events|
  {
    if events != [] {
      hide CheckParts, CallsOf, AnsweredBy;
      PartsAccount(s, events[0].role, events[0].parts);
      EventsAccount(CheckEvent(s, events[0]).scan, events[1..]);
    }
  }

  lemma {:induction false} AllAnswered(order: seq<string>, answered: set<string>)
    requires forall id :: id in order ==> id in answered
    ensures Unanswered(order, answered) == []
  {
    if order != [] { AllAnswered(order[1..], answered); }
  }

  /** What comes back is well formed if and only if no event holds two results for one call;
      its calls are then the same calls in the same order, all answered. */
  lemma ComesBackWellFormed(events: seq<Event>, now: int)
    requires WellFormed(events) && Faithful(events)
    ensures WellFormed(RoundTrip(events, now)) <==> SingleResults(events)
    ensures SingleResults(events) ==>
      && ScanOf(RoundTrip(events, now)).order == ScanOf(events).order
      && Dangling(RoundTrip(events, now)) == []
  {
    hide CheckEvents, Read, WriteEvents, Faithful, Calls, Answered, SingleResults, Unanswered;
    EventsCheck(UNREAD, UNREAD, events, now, Answered(events));
    if SingleResults(events) {
      var back := RoundTrip(events, now);
      EveryCallIsAnswered(events, now);
      EventsAccount(UNREAD, back);
      EventsAccount(UNREAD, events);
      AllAnswered(ScanOf(back).order, ScanOf(back).answered);
    }
  }

  /** A result given in two parts of one event, as the Claude reader records it, is well formed
      and faithful, and comes back refused. */
  lemma TwoPartResultComesBackRefused(now: int)
    ensures var call := Part(ToolCall, "c", "read", "", EMPTY_OBJECT, false, "", "", "", "");
      var events := [MessageEvent("assistant", 1, [call]),
                     MessageEvent("tool", 2, [ResultPart("c", "first"), ResultPart("c", "second")])];
      WellFormed(events) && Faithful(events) && !WellFormed(RoundTrip(events, now))
  {
    var call := Part(ToolCall, "c", "read", "", EMPTY_OBJECT, false, "", "", "", "");
    var results := [ResultPart("c", "first"), ResultPart("c", "second")];
    var events := [MessageEvent("assistant", 1, [call]), MessageEvent("tool", 2, results)];
    OnePartChecks(UNREAD, "assistant", call);
    var s := Settle(UNREAD.(order := ["c"]));
    assert CheckEvent(UNREAD, events[0]) == Fine(s);
    assert results[1..] == [results[1]];
    OnePartChecks(CheckPart(s, "tool", results[0]).scan, "tool", results[1]);
    assert CheckEvent(s, events[1]).Fine?;
    assert events[1..] == [events[1]];
    OneEventChecks(s, events[1]);
    assert WellFormed(events);
    assert !SingleFrom({}, events[1].parts) && events[1] in events;
    hide WellFormed, RoundTrip;
    assert Faithful(events);
    ComesBackWellFormed(events, now);
  }

  /** A call that an assistant message answers with media comes back with no answer at all, and the media with no call. */
  lemma {:induction false} AssistantAnswerLosesItsCall(now: int)
    ensures var call := Part(ToolCall, "c", "look", "", EMPTY_OBJECT, false, "", "", "", "");
      var events := [MessageEvent("assistant", 1, [call]), MessageEvent("assistant", 2, [MediaPart(SHOT, "c", false)])];
      && WellFormed(events) && Dangling(events) == []
      && RoundTrip(events, now) == [MessageEvent("assistant", 1, [call]), MessageEvent("assistant", 2, [MediaPart(SHOT, "", false)])]
      && Answered(RoundTrip(events, now)) == {}
  {
    var call := Part(ToolCall, "c", "look", "", EMPTY_OBJECT, false, "", "", "", "");
    var answer, first := MediaPart(SHOT, "c", false), ResponseItem(1, FunctionCall("c", "look", EMPTY_OBJECT));
    var block := UrlBlock("assistant", answer);
    ShotCarries();
    hide Carried, Carries, SoundMedia;
    assert MediaOf(answer) == SHOT;
    hide Write, Flush, WellFormed, CheckEvents, Answered, IsImage;
    AnsweredCallChecks(call, answer);
    AnsweredCallWritten(call, answer, now);
    ReadAppend([first], Flush("assistant", 2, [block]));
    OneRecord(first);
    FlushRead("assistant", 2, [block]);
    MediaRead(SHOT, MediaKind("assistant", answer));
    NeitherAnswers(call, MediaPart(SHOT, "", false));
  }

  lemma {:induction false} NeitherAnswers(call: Part, media: Part)
    requires call.kind.ToolCall? && media.kind.Media? && media.callId == ""
    ensures Answered([MessageEvent("assistant", 1, [call]), MessageEvent("assistant", 2, [media])]) == {}
  {
    var events := [MessageEvent("assistant", 1, [call]), MessageEvent("assistant", 2, [media])];
    OneAnswers(call);
    OneAnswers(media);
    hide AnsweredBy;
    assert events[1..] == [events[1]] && [events[1]][1..] == [];
    assert Answered([events[1]]) == {} + {};
  }

  lemma {:induction false} MediaRead(media: MediaRef, kind: string)
    requires kind in MESSAGE_MEDIA
    ensures ReadItem(2, MessageItem("assistant", Some([Some(Block(kind, "", Some(media)))]))) == [MessageEvent("assistant", 2, [MediaPart(media, "", false)])]
  {
    var block := Some(Block(kind, "", Some(media)));
    TextIsNotMedia(kind);
    assert [block][1..] == [] && ReadContent("assistant", []) == ([], []);
    assert [MediaPart(media, "", false)] + [] == [MediaPart(media, "", false)];
    assert ReadContent("assistant", [block]) == ([MediaPart(media, "", false)], []);
  }

  /** The records of a call and of the assistant's media that answer it. */
  lemma {:induction false} AnsweredCallWritten(call: Part, answer: Part, now: int)
    requires call == Part(ToolCall, "c", "look", "", EMPTY_OBJECT, false, "", "", "", "")
    requires answer.kind.Media? && answer.callId == "c"
    ensures var block := UrlBlock("assistant", answer);
      Write([MessageEvent("assistant", 1, [call]), MessageEvent("assistant", 2, [answer])], now)
        == [ResponseItem(1, FunctionCall("c", "look", EMPTY_OBJECT))] + Flush("assistant", 2, [block])
  {
    var events := [MessageEvent("assistant", 1, [call]), MessageEvent("assistant", 2, [answer])];
    assert events[1..] == [events[1]] && [events[1]][1..] == [];
    OneAnswers(call);
    OneAnswers(answer);
    assert Answered(events) == {"c"} by { assert Answered([events[1]]) == {"c"}; assert {} + {"c"} == {"c"} + {} == {"c"}; }
    var first := ResponseItem(1, FunctionCall("c", "look", EMPTY_OBJECT));
    OneWritten("assistant", 1, {"c"}, call);
    assert WriteEvent(events[0], now, {"c"}) == [first];
    var block := UrlBlock("assistant", answer);
    OneWritten("assistant", 2, {"c"}, answer);
    assert [] + [block] == [block] && [] + Flush("assistant", 2, [block]) == Flush("assistant", 2, [block]);
    assert WritePart(false, "assistant", 2, {"c"}, answer, []) == ([], [block]);
    assert WriteEvent(events[1], now, {"c"}) == Flush("assistant", 2, [block]);
    hide WriteEvent, Flush;
    assert WriteEvents([events[1]], now, {"c"}) == Flush("assistant", 2, [block]) + [];
  }

  lemma {:induction false} OneAnswers(p: Part)
    ensures AnsweredBy([p]) == if p.kind.ToolResult? || (p.kind.Media? && p.callId != "") then {p.callId} else {}
  {
    assert [p][1..] == [];
  }

  /** What an assistant message of one part is written as. */
  lemma {:induction false} OneWritten(role: string, ts: int, answered: set<string>, p: Part)
    ensures WriteParts(false, role, ts, answered, [p], []) == WritePart(false, role, ts, answered, p, []).0 + Flush(role, ts, WritePart(false, role, ts, answered, p, []).1)
  {
    hide WritePart, Flush;
    assert [p][1..] == [];
  }

  lemma {:induction false} AnsweredCallChecks(call: Part, answer: Part)
    requires call.kind.ToolCall? && call.callId == "c" && call.toolName != "" && call.data == EMPTY_OBJECT
    requires answer.kind.Media? && answer.callId == "c" && SoundMedia(MediaOf(answer))
    ensures var events := [MessageEvent("assistant", 1, [call]), MessageEvent("assistant", 2, [answer])];
      WellFormed(events) && Dangling(events) == [] && ScanOf(events).order == ["c"]
  {
    var events := [MessageEvent("assistant", 1, [call]), MessageEvent("assistant", 2, [answer])];
    hide IsBase64, Blank;
    var s1 := UNREAD.(order := ["c"]);
    var s2 := s1.(answered := s1.answered + {"c"});
    assert Settle(s1) == s1 && Settle(s2) == s2 by { assert UNREAD.settled + {} == UNREAD.settled; }
    OnePartChecks(UNREAD, "assistant", call);
    OnePartChecks(s1, "assistant", answer);
    assert CheckPart(UNREAD, "assistant", call) == Fine(s1) && CheckPart(s1, "assistant", answer) == Fine(s2);
    hide CheckPart;
    assert CheckEvent(UNREAD, events[0]) == Fine(s1) && CheckEvent(s1, events[1]) == Fine(s2);
    hide CheckEvent;
    assert events[1..] == [events[1]] && [events[1]][1..] == [];
    assert CheckEvents(s1, [events[1]]) == Fine(s2);
    assert CheckEvents(UNREAD, events) == Fine(s2);
    assert ["c"][1..] == [] && Unanswered(["c"], {"c"}) == [] + Unanswered([], {"c"});
    assert s2.answered == {"c"};
  }
}
