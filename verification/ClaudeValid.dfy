/** A conversation read back from its Claude records: exactly when it is well formed, and which
    of its calls are then left unanswered. */
module ClaudeValid {
  import opened Basics
  import opened Text
  import opened Conversation
  import opened MediaUrl
  import opened Codex
  import opened CodexRoundTrip
  import opened Claude
  import opened ClaudeRoundTrip
  import CodexValid
  import StreamLaws

  /** Assistant text that proposes a plan and then says nothing. */
  predicate Hollow(role: string, p: Part) {
    role == "assistant" && (p.kind.Text? || p.kind.Reasoning?) && ProposedPlan(p.text) == Some("")
  }

  /** A data URL that stands where a link belongs and declares a blank type. */
  predicate Untyped(p: Part) {
    p.kind.Media? && p.mediaData == ""
    && var media := ReadMedia(p.mediaUrl, "", p.filename); media.Some? && Blank(media.value.mediaType)
  }

  predicate Sound(role: string, p: Part) { !Hollow(role, p) && !Untyped(p) }

  predicate AllSound(events: seq<Event>) {
    forall e :: e in events && e.kind.Message? ==> forall p :: p in e.parts ==> Sound(e.role, p)
  }

  function CallsIn(parts: seq<Part>): set<string> {
    if parts == [] then {} else (if parts[0].kind.ToolCall? then {parts[0].callId} else {}) + CallsIn(parts[1..])
  }

  /** The calls that plans make: a plan comes back without its parts. */
  function PlanCalls(events: seq<Event>): set<string> {
    if events == [] then {} else (if events[0].kind.Plan? then CallsIn(events[0].parts) else {}) + PlanCalls(events[1..])
  }

  function Without(order: seq<string>, lost: set<string>): seq<string> {
    if order == [] then [] else (if order[0] in lost then [] else [order[0]]) + Without(order[1..], lost)
  }

  lemma {:induction false} WithoutMembers(order: seq<string>, lost: set<string>)
    ensures forall id :: id in Without(order, lost) <==> id in order && id !in lost
  {
    if order != [] { WithoutMembers(order[1..], lost); }
  }

  lemma {:induction false} WithoutAppend(a: seq<string>, b: seq<string>, lost: set<string>)
    ensures Without(a + b, lost) == Without(a, lost) + Without(b, lost)
  {
    if a == [] {
      assert a + b == b;
    } else {
      assert (a + b)[0] == a[0] && (a + b)[1..] == a[1..] + b;
      WithoutAppend(a[1..], b, lost);
    }
  }

  lemma {:induction false} WithoutOne(order: seq<string>, id: string, lost: set<string>)
    ensures Without(order + [id], lost) == Without(order, lost) + (if id in lost then [] else [id])
  {
    WithoutAppend(order, [id], lost);
    assert [id][1..] == [];
  }

  /** Every JSON value prints as something. */
  ghost predicate Prints(f: Foreign) { forall v :: f.encode(v) != "" }

  /** The call that an answer still names when it comes back, if it comes back. */
  function KeptBy(role: string, p: Part): set<string> {
    if p.kind.ToolResult? || (p.kind.Media? && p.callId != "" && role != "assistant" && MediaBack(p).Some?) then {p.callId} else {}
  }

  function KeptByAll(role: string, parts: seq<Part>): set<string> {
    if parts == [] then {} else KeptBy(role, parts[0]) + KeptByAll(role, parts[1..])
  }

  /** The calls that some answer still names. */
  function KeptAnswers(events: seq<Event>): set<string> {
    if events == [] then {}
    else (if events[0].kind.Message? then KeptByAll(events[0].role, events[0].parts) else {}) + KeptAnswers(events[1..])
  }

  // ----- inside a message -----

  /** `t` has read what came back of all that `s` has read; the calls in `lost` do not come back. */
  ghost predicate Mirrors(answered: set<string>, lost: set<string>, s: Scan, t: Scan) {
    && t.order == Without(s.order, lost) && t.here == s.here
    && (forall id :: id in answered && id in t.settled ==> id in s.settled)
    && (forall id :: id in t.settled || id in t.here ==> id in t.order)
    && (forall id :: id in t.here ==> id in answered)
  }

  /** What comes back of the part is refused. */
  predicate Spoils(role: string, lost: set<string>, p: Part) { Untyped(p) || KeptBy(role, p) * lost != {} }

  lemma {:induction false} OneMeets(id: string, lost: set<string>)
    ensures {id} * lost != {} <==> id in lost
    ensures {} * lost == {}
  {
    assert id in {id} * lost <==> id in lost;
  }

  lemma {:induction false} MediaBackTyped(p: Part)
    requires p.kind.Media? && SoundMedia(MediaOf(p))
    ensures var r := MediaBack(p);
      r.Some? ==> && (r.value.data == "" ==> r.value.url != "") && (r.value.data != "" ==> IsBase64(r.value.data))
                  && (Blank(r.value.mediaType) <==> p.mediaData == "" && Blank(ReadMedia(p.mediaUrl, "", p.filename).value.mediaType))
  {
    hide Trim, IsDataUrl, Fields, Cut, SameFolded, IsSpace, Blank;
    if p.mediaData == "" {
      RemoteBack(p.mediaUrl, p.filename);
    } else {
      InlineSource(p);
      InlineCarried(MediaOf(p));
      TrimmedBase64(p.mediaData);
      TrimIsTight(p.mediaType);
    }
  }

  lemma {:induction false} AtMostOne(t: Scan, role: string, back: seq<Part>)
    requires |back| <= 1
    ensures CheckParts(t, role, back) == if back == [] then Fine(t) else CheckPart(t, role, back[0])
  {
    hide CheckPart;
  }

  lemma {:induction false} MediaChecks(f: Foreign, s: Scan, t: Scan, role: string, answered: set<string>, lost: set<string>, p: Part)
    requires Prints(f) && role in {"user", "assistant", "tool"}
    requires CheckPart(s, role, p).Fine? && Shaped(role, p) && Mirrors(answered, lost, s, t)
    requires p.kind.Media?
    ensures var (back, plans) := PartBack(f, role, p);
      var v := CheckParts(t, Side(role), back);
      if Spoils(role, lost, p) then v.Bad?
      else
        && v.Fine? && Mirrors(answered, lost, CheckPart(s, role, p).scan, v.scan)
        && v.scan.answered == t.answered + KeptBy(role, p) && v.scan.settled == t.settled
  {
    var (back, plans) := PartBack(f, role, p);
    var media, id := MediaBack(p), if role == "assistant" then "" else p.callId;
    MediaBackIs(f, role, p);
    AcceptedMedia(s, role, p);
    MediaBackTyped(p);
    UntypedIsMedia(p);
    AtMostOne(t, Side(role), back);
    WithoutMembers(s.order, lost);
    OneMeets(p.callId, lost);
    assert t.answered + {} == t.answered;
    if media.Some? { ReturnedMedia(t, Side(role), back[0]); }
    hide Blank, MediaBack, PartBack, Untyped, CheckParts, CheckPart, Without, Prints, Shaped;
  }

  lemma {:induction false} MediaBackIs(f: Foreign, role: string, p: Part)
    requires p.kind.Media?
    ensures var media, id := MediaBack(p), if role == "assistant" then "" else p.callId;
      PartBack(f, role, p) == (if media.None? then [] else [MediaPart(media.value, id, id != "" && p.error)], [])
  {
    hide ReadSource;
    AnswerBack(p.callId, p.error, SourceOf(p), p.filename);
  }

  lemma {:induction false} AcceptedMedia(s: Scan, role: string, p: Part)
    requires CheckPart(s, role, p).Fine? && p.kind.Media?
    ensures var s' := CheckPart(s, role, p).scan;
      && s'.order == s.order && s'.here == s.here && s'.settled == s.settled && (p.callId != "" ==> p.callId in s.order)
      && SoundMedia(MediaOf(p))
  {
    hide Blank;
  }

  lemma {:induction false} ReturnedMedia(t: Scan, side: string, q: Part)
    requires side in {"user", "assistant"} && q.kind.Media?
    requires (q.mediaData == "" ==> q.mediaUrl != "") && (q.mediaData != "" ==> IsBase64(q.mediaData))
    ensures if Blank(q.mediaType) || (q.callId != "" && q.callId !in t.order) then CheckPart(t, side, q).Bad?
      else CheckPart(t, side, q) == Fine(if q.callId == "" then t else t.(answered := t.answered + {q.callId}))
  {
    hide Blank;
  }

  lemma {:induction false} TextChecks(f: Foreign, s: Scan, t: Scan, role: string, answered: set<string>, lost: set<string>, p: Part)
    requires Prints(f) && role in {"user", "assistant", "tool"}
    requires CheckPart(s, role, p).Fine? && Shaped(role, p) && Mirrors(answered, lost, s, t)
    requires (p.kind.ToolResult? ==> p.callId in answered) && (p.kind.ToolCall? ==> p.callId !in lost) && !p.kind.Media?
    requires p.kind.Text? || p.kind.Reasoning?
    ensures var (back, plans) := PartBack(f, role, p);
      var v := CheckParts(t, Side(role), back);
      if Spoils(role, lost, p) then v.Bad?
      else
        && v.Fine? && Mirrors(answered, lost, CheckPart(s, role, p).scan, v.scan)
        && v.scan.answered == t.answered + KeptBy(role, p) && v.scan.settled == t.settled
  {
    hide ProposedPlan, ObjectInput, ExitPlan, Blank, ReadMedia, ReadSource, Without;
    var (back, plans) := PartBack(f, role, p);
    PartComesBack(f, role, p);
    AtMostOne(t, Side(role), back);
    WithoutMembers(s.order, lost);
    WithoutOne(s.order, p.callId, lost);
    OneMeets(p.callId, lost);
    assert t.answered + {} == t.answered;
  }

  lemma {:induction false} CallPartChecks(f: Foreign, s: Scan, t: Scan, role: string, answered: set<string>, lost: set<string>, p: Part)
    requires Prints(f) && role in {"user", "assistant", "tool"}
    requires CheckPart(s, role, p).Fine? && Shaped(role, p) && Mirrors(answered, lost, s, t)
    requires (p.kind.ToolResult? ==> p.callId in answered) && (p.kind.ToolCall? ==> p.callId !in lost) && !p.kind.Media?
    requires p.kind.ToolCall?
    ensures var (back, plans) := PartBack(f, role, p);
      var v := CheckParts(t, Side(role), back);
      if Spoils(role, lost, p) then v.Bad?
      else
        && v.Fine? && Mirrors(answered, lost, CheckPart(s, role, p).scan, v.scan)
        && v.scan.answered == t.answered + KeptBy(role, p) && v.scan.settled == t.settled
  {
    hide ProposedPlan, ObjectInput, ExitPlan, Blank, ReadMedia, ReadSource, Without;
    var (back, plans) := PartBack(f, role, p);
    PartComesBack(f, role, p);
    AtMostOne(t, Side(role), back);
    WithoutMembers(s.order, lost);
    WithoutOne(s.order, p.callId, lost);
    OneMeets(p.callId, lost);
    assert t.answered + {} == t.answered;
  }

  lemma {:induction false} ResultPartChecks(f: Foreign, s: Scan, t: Scan, role: string, answered: set<string>, lost: set<string>, p: Part)
    requires Prints(f) && role in {"user", "assistant", "tool"}
    requires CheckPart(s, role, p).Fine? && Shaped(role, p) && Mirrors(answered, lost, s, t)
    requires (p.kind.ToolResult? ==> p.callId in answered) && (p.kind.ToolCall? ==> p.callId !in lost) && !p.kind.Media?
    requires p.kind.ToolResult?
    ensures var (back, plans) := PartBack(f, role, p);
      var v := CheckParts(t, Side(role), back);
      if Spoils(role, lost, p) then v.Bad?
      else
        && v.Fine? && Mirrors(answered, lost, CheckPart(s, role, p).scan, v.scan)
        && v.scan.answered == t.answered + KeptBy(role, p) && v.scan.settled == t.settled
  {
    hide ProposedPlan, ObjectInput, ExitPlan, Blank, ReadMedia, ReadSource, Without;
    var (back, plans) := PartBack(f, role, p);
    PartComesBack(f, role, p);
    AtMostOne(t, Side(role), back);
    WithoutMembers(s.order, lost);
    WithoutOne(s.order, p.callId, lost);
    OneMeets(p.callId, lost);
    assert t.answered + {} == t.answered;
  }

  lemma {:induction false} PartChecks(f: Foreign, s: Scan, t: Scan, role: string, answered: set<string>, lost: set<string>, p: Part)
    requires Prints(f) && role in {"user", "assistant", "tool"}
    requires CheckPart(s, role, p).Fine? && Shaped(role, p) && Mirrors(answered, lost, s, t)
    requires (p.kind.ToolResult? ==> p.callId in answered) && (p.kind.ToolCall? ==> p.callId !in lost)
    ensures var (back, plans) := PartBack(f, role, p);
      var v := CheckParts(t, Side(role), back);
      if Spoils(role, lost, p) then v.Bad?
      else
        && v.Fine? && Mirrors(answered, lost, CheckPart(s, role, p).scan, v.scan)
        && v.scan.answered == t.answered + KeptBy(role, p) && v.scan.settled == t.settled
  {
    hide *;
    NotOther(role, p);
    match p.kind
    case Media => MediaChecks(f, s, t, role, answered, lost, p);
    case ToolCall => CallPartChecks(f, s, t, role, answered, lost, p);
    case ToolResult => ResultPartChecks(f, s, t, role, answered, lost, p);
    case _ => TextChecks(f, s, t, role, answered, lost, p);
  }

  lemma {:induction false} NotOther(role: string, p: Part)
    requires Shaped(role, p)
    ensures !p.kind.OtherPart?
  {
    hide SoundMedia;
  }

  lemma {:induction false} UntypedIsMedia(p: Part)
    ensures Untyped(p) <==> p.kind.Media? && p.mediaData == "" && MediaBack(p).Some? && Blank(MediaBack(p).value.mediaType)
  {
    hide ReadMedia, Blank;
  }

  lemma {:induction false} PartsCheck(f: Foreign, s: Scan, t: Scan, role: string, answered: set<string>, lost: set<string>, parts: seq<Part>)
    requires Prints(f) && role in {"user", "assistant", "tool"}
    requires CheckParts(s, role, parts).Fine? && Mirrors(answered, lost, s, t)
    requires forall p :: p in parts ==>
      Shaped(role, p) && (p.kind.ToolResult? ==> p.callId in answered) && (p.kind.ToolCall? ==> p.callId !in lost)
    ensures var v := CheckParts(t, Side(role), PartsBack(f, role, parts).0);
      if exists p :: p in parts && Spoils(role, lost, p) then v.Bad?
      else
        && v.Fine? && Mirrors(answered, lost, CheckParts(s, role, parts).scan, v.scan)
        && v.scan.answered == t.answered + KeptByAll(role, parts) && v.scan.settled == t.settled
    decreases |parts|
  {
    if parts == [] {
      assert t.answered + {} == t.answered;
    } else {
      hide CheckPart, Mirrors, PartBack, KeptBy, Spoils, Shaped, Side, Prints;
      PartChecks(f, s, t, role, answered, lost, parts[0]);
      var (here, plans) := PartBack(f, role, parts[0]);
      var more := PartsBack(f, role, parts[1..]).0;
      CheckPartsAppend(t, Side(role), here, more);
      assert forall p :: p in parts <==> p == parts[0] || p in parts[1..];
      if !Spoils(role, lost, parts[0]) {
        PartsCheck(f, CheckPart(s, role, parts[0]).scan, CheckParts(t, Side(role), here).scan, role, answered, lost, parts[1..]);
      }
    }
  }

  /** Results alone are checked alike in a user and in a tool message. */
  lemma {:induction false} ResultsAlone(t: Scan, parts: seq<Part>)
    requires forall p :: p in parts ==> p.kind.ToolResult? || (p.kind.Media? && p.callId != "")
    ensures CheckParts(t, "tool", parts) == CheckParts(t, "user", parts)
    decreases |parts|
  {
    if parts != [] {
      hide Blank;
      var p := parts[0];
      assert p in parts;
      assert CheckPart(t, "tool", p) == CheckPart(t, "user", p);
      if CheckPart(t, "tool", p).Fine? { ResultsAlone(CheckPart(t, "tool", p).scan, parts[1..]); }
    }
  }

  lemma {:induction false} AssistantHasNoResults(f: Foreign, parts: seq<Part>)
    requires forall p :: p in parts ==> Shaped("assistant", p)
    ensures var back := PartsBack(f, "assistant", parts).0;
      !OnlyResults(back) && forall q :: q in back ==> !q.kind.ToolResult? && (q.kind.Media? ==> q.callId == "")
    decreases |parts|
  {
    if parts != [] {
      hide Blank, ProposedPlan, ObjectInput, ExitPlan, ReadSource, SoundMedia;
      AssistantHasNoResults(f, parts[1..]);
      assert Shaped("assistant", parts[0]);
      var here := PartBack(f, "assistant", parts[0]).0;
      assert forall q :: q in here ==> !q.kind.ToolResult? && (q.kind.Media? ==> q.callId == "");
    }
  }

  // ----- the plans found, and the calls interrupted -----

  lemma {:induction false} PlansFound(f: Foreign, role: string, parts: seq<Part>)
    requires forall p :: p in parts ==> Shaped(role, p)
    ensures (forall x :: x in PartsBack(f, role, parts).1 ==> !Blank(x)) <==> forall p :: p in parts ==> !Hollow(role, p)
    decreases |parts|
  {
    if parts != [] {
      hide PartBack, Hollow, Shaped, Blank;
      PlansFound(f, role, parts[1..]);
      PlanFound(f, role, parts[0]);
      assert forall p :: p in parts <==> p == parts[0] || p in parts[1..];
      var plans, others := PartBack(f, role, parts[0]).1, PartsBack(f, role, parts[1..]).1;
      assert forall x :: x in plans + others <==> x in plans || x in others;
    }
  }

  lemma {:induction false} PlanFound(f: Foreign, role: string, p: Part)
    requires Shaped(role, p)
    ensures (forall x :: x in PartBack(f, role, p).1 ==> !Blank(x)) <==> !Hollow(role, p)
  {
    hide ObjectInput, ReadSource, SoundMedia, Blank;
    if p.kind.Text? || p.kind.Reasoning? {
      ProposalIsTrimmed(p.text);
      hide ProposedPlan;
    }
  }

  lemma {:induction false} ProposalIsTrimmed(text: string)
    ensures ProposedPlan(text).Some? ==> (Blank(ProposedPlan(text).value) <==> ProposedPlan(text).value == "")
  {
    hide SameFolded, IsSpace;
    var t := Trim(text);
    if ProposedPlan(text).Some? { TrimIsTight(t[|OPEN_PLAN|..|t| - |CLOSE_PLAN|]); }
  }

  lemma {:induction false} PlansCheck(t: Scan, ts: int, plans: seq<string>)
    requires t.here == {}
    ensures if forall x :: x in plans ==> !Blank(x) then CheckEvents(t, PlanEvents(ts, plans)) == Fine(t)
      else CheckEvents(t, PlanEvents(ts, plans)).Bad?
  {
    if plans != [] {
      hide Blank;
      PlansCheck(t, ts, plans[1..]);
      NoParts(t, "assistant");
      assert t.settled + {} == t.settled;
      assert forall x :: x in plans <==> x == plans[0] || x in plans[1..];
    }
  }

  lemma {:induction false} InterruptionsCheck(t: Scan, ids: seq<string>)
    requires forall id :: id in ids ==> id != "" && id in t.order && id !in t.settled
    decreases |ids|
    ensures CheckParts(t, "tool", InterruptedParts(ids))
      == Fine(t.(answered := t.answered + (set id | id in ids), here := t.here + (set id | id in ids)))
  {
    if ids == [] {
      assert t.answered + (set id | id in ids) == t.answered && t.here + (set id | id in ids) == t.here;
    } else {
      var t1 := t.(answered := t.answered + {ids[0]}, here := t.here + {ids[0]});
      assert CheckPart(t, "tool", InterruptedParts(ids)[0]) == Fine(t1);
      assert forall id :: id in ids <==> id == ids[0] || id in ids[1..];
      InterruptionsCheck(t1, ids[1..]);
      assert (set id | id in ids) == {ids[0]} + (set id | id in ids[1..]);
      assert t.answered + (set id | id in ids) == t1.answered + (set id | id in ids[1..]);
      assert t.here + (set id | id in ids) == t1.here + (set id | id in ids[1..]);
    }
  }

  lemma {:induction false} CallsMade(s: Scan, role: string, parts: seq<Part>, answered: set<string>)
    requires CheckParts(s, role, parts).Fine?
    ensures var s' := CheckParts(s, role, parts).scan; var ids := CallsWithout(answered, parts);
      && (forall id :: id in ids ==> id != "" && id in s'.order && id !in s.order && id !in answered && id in CallsIn(parts))
      && (forall id :: id in s.order ==> id in s'.order)
      && (forall id :: id in s'.order && id !in s.order && id !in answered ==> id in ids)
    decreases |parts|
  {
    if parts != [] {
      hide Blank;
      var p := parts[0];
      var s1 := CheckPart(s, role, p).scan;
      CallsMade(s1, role, parts[1..], answered);
      assert forall id :: id in s1.order <==> id in s.order || p.Opens(id);
    }
  }

  // ----- one event -----

  /** Between events: also what `t` has seen answered is what is kept and what was interrupted. */
  ghost predicate Keeps(answered: set<string>, lost: set<string>, kept: set<string>, s: Scan, t: Scan) {
    && Mirrors(answered, lost, s, t) && s.here == {}
    && forall id :: id in t.answered <==> id in kept || (id in t.order && id !in answered)
  }

  lemma {:induction false} OneEventCheck(t: Scan, e: Event)
    ensures CheckEvents(t, [e]) == CheckEvent(t, e)
  {
    hide CheckEvent;
    assert [e][1..] == [];
  }

  lemma {:induction false} MessageChecks(f: Foreign, t: Scan, role: string, ts: int, parts: seq<Part>)
    requires role in {"user", "assistant", "tool"} && t.here == {}
    requires forall p :: p in parts ==> Shaped(role, p)
    ensures var back := PartsBack(f, role, parts).0;
      var v := CheckParts(t, Side(role), back);
      CheckEvents(t, MessageBack(Side(role), ts, back)) == if v.Fine? then Fine(Settle(v.scan)) else v
  {
    hide PartsBack, CheckParts, Shaped;
    var back := PartsBack(f, role, parts).0;
    if back == [] {
      NoParts(t, Side(role));
      assert t.settled + {} == t.settled;
    } else {
      var e := MessageBack(Side(role), ts, back)[0];
      OneEventCheck(t, e);
      if OnlyResults(back) {
        if role == "assistant" { AssistantHasNoResults(f, parts); }
        ResultsAlone(t, back);
      }
    }
  }

  lemma {:induction false} EndsCheck(t: Scan, ts: int, ids: seq<string>)
    requires t.here == {} && forall id :: id in ids ==> id != "" && id in t.order && id !in t.settled
    ensures var made := set id | id in ids;
      CheckEvents(t, InterruptedEvents(ts, ids)) == Fine(t.(answered := t.answered + made, settled := t.settled + made))
  {
    var made := set id | id in ids;
    if ids == [] {
      assert t.answered + made == t.answered && t.settled + made == t.settled;
    } else {
      hide CheckParts;
      InterruptionsCheck(t, ids);
      OneEventCheck(t, InterruptedEvents(ts, ids)[0]);
      assert {} + made == made;
    }
  }

  lemma {:induction false} KeptOn(answered: set<string>, lost: set<string>, kept: set<string>, more: set<string>, s: Scan, t: Scan, s1: Scan, t1: Scan, ids: seq<string>)
    requires Keeps(answered, lost, kept, s, t) && Mirrors(answered, lost, s1, t1) && t1.answered == t.answered + more && t1.settled == t.settled
    requires s1.settled == s.settled
    requires forall id :: id in ids ==> id != "" && id in s1.order && id !in s.order && id !in answered && id !in lost
    requires forall id :: id in s.order ==> id in s1.order
    requires forall id :: id in s1.order && id !in s.order && id !in answered ==> id in ids
    ensures var made := set id | id in ids;
      var t2 := Settle(t1);
      && (forall id :: id in ids ==> id in t2.order && id !in t2.settled)
      && Keeps(answered, lost, kept + more, Settle(s1), t2.(answered := t2.answered + made, settled := t2.settled + made))
  {
    WithoutMembers(s.order, lost);
    WithoutMembers(s1.order, lost);
  }

  lemma {:induction false} SettledStays(s: Scan, role: string, parts: seq<Part>)
    requires CheckParts(s, role, parts).Fine?
    ensures CheckParts(s, role, parts).scan.settled == s.settled
    decreases |parts|
  {
    if parts != [] {
      hide Blank;
      SettledStays(CheckPart(s, role, parts[0]).scan, role, parts[1..]);
    }
  }

  lemma {:induction false} EventCheck(f: Foreign, s: Scan, t: Scan, e: Event, now: int, answered: set<string>, lost: set<string>, kept: set<string>)
    requires Prints(f) && SensibleEvent(e) && e.kind.Message? && CheckEvent(s, e).Fine? && Keeps(answered, lost, kept, s, t)
    requires forall p :: p in e.parts && p.kind.ToolResult? ==> p.callId in answered
    requires CallsIn(e.parts) !! lost
    ensures var v := CheckEvents(t, EventBack(f, e, now, answered));
      if (forall p :: p in e.parts ==> Sound(e.role, p)) && KeptByAll(e.role, e.parts) !! lost then
        v.Fine? && Keeps(answered, lost, kept + KeptByAll(e.role, e.parts), CheckEvent(s, e).scan, v.scan)
      else v.Bad?
  {
    hide *;
    MessageParts(s, e);
    CallsInMembers(e.parts);
    var ts := TimestampOr(e.timestamp, now);
    var (back, plans) := PartsBack(f, e.role, e.parts);
    var message, found := MessageBack(Side(e.role), ts, back), PlanEvents(ts, plans);
    var ids := CallsWithout(answered, e.parts);
    var ends := InterruptedEvents(ts, ids);
    MessageEventBack(f, e, now, answered);
    BetweenMirrors(answered, lost, kept, s, t);
    PartsCheck(f, s, t, e.role, answered, lost, e.parts);
    MessageChecks(f, t, e.role, ts, e.parts);
    PlansFound(f, e.role, e.parts);
    CheckEventsAppend(t, message + found, ends);
    CheckEventsAppend(t, message, found);
    SoundMeans(f, e, lost);
    var v := CheckParts(t, Side(e.role), back);
    if v.Fine? {
      SettleHere(v.scan);
      PlansCheck(Settle(v.scan), ts, plans);
      CallsMade(s, e.role, e.parts, answered);
      SettledStays(s, e.role, e.parts);
      KeptOn(answered, lost, kept, KeptByAll(e.role, e.parts), s, t, CheckParts(s, e.role, e.parts).scan, v.scan, ids);
      EndsCheck(Settle(v.scan), ts, ids);
    }
  }

  lemma {:induction false} CallsInMembers(parts: seq<Part>)
    ensures forall p :: p in parts && p.kind.ToolCall? ==> p.callId in CallsIn(parts)
  {
    if parts != [] {
      CallsInMembers(parts[1..]);
      assert forall p :: p in parts <==> p == parts[0] || p in parts[1..];
    }
  }

  lemma {:induction false} SettleHere(t: Scan)
    ensures Settle(t).here == {}
  {}

  lemma {:induction false} KeptApart(role: string, parts: seq<Part>, lost: set<string>)
    ensures KeptByAll(role, parts) !! lost <==> forall p :: p in parts ==> KeptBy(role, p) * lost == {}
  {
    if parts != [] {
      hide KeptBy;
      KeptApart(role, parts[1..], lost);
      assert forall p :: p in parts <==> p == parts[0] || p in parts[1..];
    }
  }

  lemma {:induction false} SoundMeans(f: Foreign, e: Event, lost: set<string>)
    ensures (forall p :: p in e.parts ==> Sound(e.role, p)) && KeptByAll(e.role, e.parts) !! lost
      <==> (forall p :: p in e.parts ==> !Hollow(e.role, p)) && !(exists p :: p in e.parts && Spoils(e.role, lost, p))
  {
    hide Hollow, Untyped, KeptBy, KeptByAll;
    KeptApart(e.role, e.parts, lost);
  }

  lemma {:induction false} BetweenMirrors(answered: set<string>, lost: set<string>, kept: set<string>, s: Scan, t: Scan)
    requires Keeps(answered, lost, kept, s, t)
    ensures Mirrors(answered, lost, s, t) && t.here == {}
  {}

  lemma {:induction false} MessageParts(s: Scan, e: Event)
    requires SensibleEvent(e) && e.kind.Message? && CheckEvent(s, e).Fine?
    ensures e.role in {"user", "assistant", "tool"} && forall p :: p in e.parts ==> Shaped(e.role, p)
    ensures CheckParts(s, e.role, e.parts).Fine? && CheckEvent(s, e).scan == Settle(CheckParts(s, e.role, e.parts).scan)
  {
    hide Shaped, CheckParts, Settle;
  }

  lemma {:induction false} MessageEventBack(f: Foreign, e: Event, now: int, answered: set<string>)
    requires e.kind.Message?
    ensures var ts := TimestampOr(e.timestamp, now);
      var (parts, plans) := PartsBack(f, e.role, e.parts);
      EventBack(f, e, now, answered)
        == MessageBack(Side(e.role), ts, parts) + PlanEvents(ts, plans) + InterruptedEvents(ts, CallsWithout(answered, e.parts))
  {
    hide PartsBack, MessageBack, PlanEvents, InterruptedEvents, CallsWithout;
  }

  lemma {:induction false} OrderAfter(s: Scan, role: string, p: Part)
    requires CheckPart(s, role, p).Fine?
    ensures var s1 := CheckPart(s, role, p).scan;
      s1.order == (if p.kind.ToolCall? then s.order + [p.callId] else s.order) && s1.settled == s.settled
  {
    hide Blank;
  }

  /** A plan's own parts are read, and none comes back. */
  lemma {:induction false} PlanPartsLost(s: Scan, role: string, parts: seq<Part>, lost: set<string>)
    requires CheckParts(s, role, parts).Fine? && CallsIn(parts) <= lost
    ensures Without(CheckParts(s, role, parts).scan.order, lost) == Without(s.order, lost)
    ensures CheckParts(s, role, parts).scan.settled == s.settled
    decreases |parts|
  {
    if parts != [] {
      hide CheckPart, Without;
      var s1 := CheckPart(s, role, parts[0]).scan;
      OrderAfter(s, role, parts[0]);
      WithoutOne(s.order, parts[0].callId, lost);
      PlanPartsLost(s1, role, parts[1..], lost);
    }
  }

  lemma {:induction false} PlanChecks(f: Foreign, s: Scan, t: Scan, e: Event, now: int, answered: set<string>, lost: set<string>, kept: set<string>)
    requires e.kind.Plan? && !Blank(e.planText) && CheckEvent(s, e).Fine? && Keeps(answered, lost, kept, s, t)
    requires CallsIn(e.parts) <= lost
    ensures var v := CheckEvents(t, EventBack(f, e, now, answered));
      v.Fine? && Keeps(answered, lost, kept, CheckEvent(s, e).scan, v.scan)
  {
    hide Blank, Trim, CheckPart;
    TrimIsTight(e.planText);
    OneEventCheck(t, PlanEvent(TimestampOr(e.timestamp, now), Trim(e.planText)));
    NoParts(t, "assistant");
    PlanPartsLost(s, e.role, e.parts, lost);
    hide CheckParts, Without;
  }

  // ----- whole conversations -----

  lemma {:induction false} ResultsAnswered(parts: seq<Part>)
    ensures forall p :: p in parts && p.kind.ToolResult? ==> p.callId in AnsweredBy(parts)
  {
    if parts != [] {
      ResultsAnswered(parts[1..]);
      assert forall p :: p in parts <==> p == parts[0] || p in parts[1..];
    }
  }

  /** Exactly the calls in `lost` are made by plans. */
  ghost predicate LostCalls(events: seq<Event>, lost: set<string>) {
    forall e :: e in events ==> if e.kind.Plan? then CallsIn(e.parts) <= lost else CallsIn(e.parts) !! lost
  }

  lemma {:induction false} EventsCheck(f: Foreign, s: Scan, t: Scan, events: seq<Event>, now: int, answered: set<string>, lost: set<string>,
      kept: set<string>)
    requires Prints(f) && LostCalls(events, lost) && forall e :: e in events ==> SensibleEvent(e)
    requires CheckEvents(s, events).Fine? && Answered(events) <= answered && Keeps(answered, lost, kept, s, t)
    ensures var v := CheckEvents(t, EventsBack(f, events, now, answered));
      if AllSound(events) && KeptAnswers(events) !! lost then
        v.Fine? && Keeps(answered, lost, kept + KeptAnswers(events), CheckEvents(s, events).scan, v.scan)
      else v.Bad?
    decreases |events|
  {
    if events == [] {
      hide Keeps, Prints;
      assert kept + {} == kept;
    } else {
      hide Prints, SensibleEvent, CheckEvent, Keeps, AnsweredBy, EventBack, Sound, KeptByAll, CallsIn;
      var e, rest := events[0], events[1..];
      assert forall d :: d in events <==> d == e || d in rest;
      ResultsAnswered(e.parts);
      if e.kind.Message? {
        EventCheck(f, s, t, e, now, answered, lost, kept);
      } else {
        PlanSays(e);
        PlanChecks(f, s, t, e, now, answered, lost, kept);
      }
      CheckEventsAppend(t, EventBack(f, e, now, answered), EventsBack(f, rest, now, answered));
      var v := CheckEvents(t, EventBack(f, e, now, answered));
      if v.Fine? {
        var more := if e.kind.Message? then KeptByAll(e.role, e.parts) else {};
        assert kept + {} == kept && (kept + more) + KeptAnswers(rest) == kept + (more + KeptAnswers(rest));
        EventsCheck(f, CheckEvent(s, e).scan, v.scan, rest, now, answered, lost, kept + more);
      }
    }
  }

  lemma {:induction false} PlanSays(e: Event)
    requires SensibleEvent(e) && !e.kind.Message?
    ensures e.kind.Plan? && !Blank(e.planText)
  {
    hide Shaped, Blank;
  }

  lemma {:induction false} NewCalls(s: Scan, role: string, parts: seq<Part>)
    requires CheckParts(s, role, parts).Fine?
    ensures forall id :: id in CallsIn(parts) ==> id !in s.order
    ensures forall id :: id in CheckParts(s, role, parts).scan.order <==> id in s.order || id in CallsIn(parts)
    decreases |parts|
  {
    if parts != [] {
      hide Blank;
      NewCalls(CheckPart(s, role, parts[0]).scan, role, parts[1..]);
    }
  }

  lemma {:induction false} NewPlanCalls(s: Scan, events: seq<Event>)
    requires CheckEvents(s, events).Fine?
    ensures forall id :: id in PlanCalls(events) ==> id !in s.order
    ensures forall e :: e in events ==> forall id :: id in CallsIn(e.parts) ==> id !in s.order
    decreases |events|
  {
    if events != [] {
      hide CheckParts, CallsIn;
      NewCalls(s, events[0].role, events[0].parts);
      NewPlanCalls(CheckEvent(s, events[0]).scan, events[1..]);
      assert forall d :: d in events <==> d == events[0] || d in events[1..];
    }
  }

  lemma {:induction false} LostIsPlans(s: Scan, events: seq<Event>)
    requires CheckEvents(s, events).Fine?
    ensures LostCalls(events, PlanCalls(events))
    decreases |events|
  {
    if events != [] {
      hide CheckParts, CallsIn;
      var s1 := CheckEvent(s, events[0]).scan;
      NewCalls(s, events[0].role, events[0].parts);
      NewPlanCalls(s1, events[1..]);
      LostIsPlans(s1, events[1..]);
      assert forall d :: d in events <==> d == events[0] || d in events[1..];
    }
  }

  /** What comes back is well formed if and only if no assistant text proposes an empty plan, no link is an untyped data
      URL, and no answer that comes back names a call that a plan made.  Its calls are then the same calls in the same
      order but for those of plans, and those left unanswered are exactly the ones whose answers were all media that did
      not come back naming them. */
  lemma {:induction false} ComesBackWellFormed(f: Foreign, events: seq<Event>, now: int)
    requires WellFormed(events) && Prints(f)
    ensures WellFormed(Trip(f, events, now)) <==> AllSound(events) && KeptAnswers(events) !! PlanCalls(events)
    ensures WellFormed(Trip(f, events, now)) ==>
      && ScanOf(Trip(f, events, now)).order == Without(ScanOf(events).order, PlanCalls(events))
      && forall id :: id in Dangling(Trip(f, events, now))
           <==> id in ScanOf(Trip(f, events, now)).order && id in Answered(events) && id !in KeptAnswers(events)
  {
    hide CheckEvents, SensibleEvent, Prints, EventsBack, WriteLines, ReadClaude, AllSound, LostCalls, PlanCalls, Unanswered,
      KeptAnswers, Answered;
    EventsSensible(UNREAD, events);
    EventsReadBack(f, events, now, Answered(events));
    LostIsPlans(UNREAD, events);
    EventsCheck(f, UNREAD, UNREAD, events, now, Answered(events), PlanCalls(events), {});
    if WellFormed(Trip(f, events, now)) {
      var t := ScanOf(Trip(f, events, now));
      forall id ensures id in Dangling(Trip(f, events, now))
        <==> id in t.order && id in Answered(events) && id !in KeptAnswers(events)
      {
        StreamLaws.InUnanswered(t.order, t.answered, id);
      }
    }
  }

  /** An assistant that proposes an empty plan says something well formed that comes back refused. */
  lemma {:induction false} EmptyProposalComesBackRefused(f: Foreign, now: int)
    requires Prints(f)
    ensures var events := [MessageEvent("assistant", 1, [TextPart(OPEN_PLAN + "\n" + "" + "\n" + CLOSE_PLAN)])];
      WellFormed(events) && !WellFormed(Trip(f, events, now))
  {
    var p := TextPart(OPEN_PLAN + "\n" + "" + "\n" + CLOSE_PLAN);
    var e := MessageEvent("assistant", 1, [p]);
    var events := [e];
    PlanReads("");
    assert Trim("") == "";
    AtMostOne(UNREAD, "assistant", [p]);
    OneEventCheck(UNREAD, e);
    assert Hollow("assistant", p) && p in e.parts && e in events;
    hide WellFormed, Trip, Hollow, Untyped;
    ComesBackWellFormed(f, events, now);
  }

  /** A remote image comes back with no particular type. */
  lemma {:induction false} RemoteImageLosesItsType(filename: string)
    ensures var p := MediaPart(MediaRef("image/png", "", "https://host/a.png", filename), "", false);
      MediaBack(p) == Some(MediaRef(ANY_TYPE, "", "https://host/a.png", filename))
  {
    var url := "https://host/a.png";
    assert url[..5] == "https" && url[..5][0] == 'h';
    assert Trim(url) == url;
    RemoteBack(url, filename);
  }

  /** A call that an assistant message answers with media comes back well formed and unanswered. */
  lemma {:induction false} AssistantAnswerLosesItsCall(f: Foreign, now: int)
    requires Prints(f)
    ensures var call := Part(ToolCall, "c", "look", "", EMPTY_OBJECT, false, "", "", "", "");
      var shot := MediaPart(SHOT, "c", false);
      var events := [MessageEvent("assistant", 1, [call]), MessageEvent("assistant", 2, [shot])];
      && WellFormed(events) && Dangling(events) == []
      && WellFormed(Trip(f, events, now)) && "c" in Dangling(Trip(f, events, now))
  {
    var call := Part(ToolCall, "c", "look", "", EMPTY_OBJECT, false, "", "", "", "");
    var shot := MediaPart(SHOT, "c", false);
    var events := [MessageEvent("assistant", 1, [call]), MessageEvent("assistant", 2, [shot])];
    ShotCarries();
    assert MediaOf(shot) == SHOT;
    hide SoundMedia, Carried, Carries;
    CodexValid.AnsweredCallChecks(call, shot);
    NothingKept(call, shot);
    SoundPair(call, shot);
    BothAnswered(call, shot);
    hide *;
    ComesBackWellFormed(f, events, now);
    WithoutMembers(["c"], {});
  }

  lemma {:induction false} SoundPair(call: Part, shot: Part)
    requires call.kind.ToolCall? && shot.kind.Media? && shot.mediaData != ""
    ensures AllSound([MessageEvent("assistant", 1, [call]), MessageEvent("assistant", 2, [shot])])
  {
    hide ReadMedia, Blank, ProposedPlan;
  }

  lemma {:induction false} BothAnswered(call: Part, shot: Part)
    requires call.kind.ToolCall? && shot.kind.Media? && shot.callId != ""
    ensures shot.callId in Answered([MessageEvent("assistant", 1, [call]), MessageEvent("assistant", 2, [shot])])
  {
    var events := [MessageEvent("assistant", 1, [call]), MessageEvent("assistant", 2, [shot])];
    assert events[1..] == [events[1]];
    CodexValid.OneAnswers(shot);
    assert shot.callId in Answered([events[1]]);
  }

  lemma {:induction false} NothingKept(call: Part, shot: Part)
    requires call.kind.ToolCall? && shot.kind.Media?
    ensures var events := [MessageEvent("assistant", 1, [call]), MessageEvent("assistant", 2, [shot])];
      KeptAnswers(events) == {} && PlanCalls(events) == {} && KeptAnswers(events) !! PlanCalls(events)
  {
    var events := [MessageEvent("assistant", 1, [call]), MessageEvent("assistant", 2, [shot])];
    assert events[1..] == [events[1]] && [events[1]][1..] == [] && [call][1..] == [] && [shot][1..] == [];
    assert KeptBy("assistant", call) == {} && KeptBy("assistant", shot) == {};
    hide KeptBy;
    assert KeptByAll("assistant", [call]) == {} + {} && KeptByAll("assistant", [shot]) == {} + {};
    assert KeptAnswers([events[1]]) == {} + {} && PlanCalls([events[1]]) == {} + {};
    assert KeptAnswers(events) == {} + {} && PlanCalls(events) == {} + {};
  }

  /** A call made inside a plan does not come back, and its result is then refused. */
  lemma {:induction false} PlanCallComesBackRefused(f: Foreign, now: int)
    requires Prints(f)
    ensures var call := Part(ToolCall, "c", "look", "", EMPTY_OBJECT, false, "", "", "", "");
      var events := [Event(Plan, "assistant", 1, [call], "plan"), MessageEvent("tool", 2, [ResultPart("c", "seen")])];
      WellFormed(events) && !WellFormed(Trip(f, events, now))
  {
    var call := Part(ToolCall, "c", "look", "", EMPTY_OBJECT, false, "", "", "", "");
    var plan, answer := Event(Plan, "assistant", 1, [call], "plan"), MessageEvent("tool", 2, [ResultPart("c", "seen")]);
    PlannedCallChecks(call, plan, answer);
    PlannedCallKept(plan, answer);
    hide *;
    ComesBackWellFormed(f, [plan, answer], now);
  }

  lemma {:induction false} PlannedCallKept(plan: Event, answer: Event)
    requires plan.kind.Plan? && |plan.parts| == 1 && plan.parts[0].kind.ToolCall? && plan.parts[0].callId == "c"
    requires answer.kind.Message? && answer.parts == [ResultPart("c", "seen")]
    ensures !(KeptAnswers([plan, answer]) !! PlanCalls([plan, answer]))
  {
    assert [plan, answer][1..] == [answer] && [answer][1..] == [] && plan.parts[1..] == [] && answer.parts[1..] == [];
    assert "c" in KeptByAll(answer.role, answer.parts) && "c" in CallsIn(plan.parts);
    assert "c" in KeptAnswers([answer]);
    assert "c" in KeptAnswers([plan, answer]) && "c" in PlanCalls([plan, answer]);
  }

  lemma {:induction false} PlannedCallChecks(call: Part, plan: Event, answer: Event)
    requires call == Part(ToolCall, "c", "look", "", EMPTY_OBJECT, false, "", "", "", "")
    requires plan == Event(Plan, "assistant", 1, [call], "plan") && answer == MessageEvent("tool", 2, [ResultPart("c", "seen")])
    ensures WellFormed([plan, answer])
  {
    assert "plan"[0] == 'p' && !IsSpace('p') && !Blank("plan");
    hide IsSpace, Blank;
    AtMostOne(UNREAD, "assistant", [call]);
    var s1 := UNREAD.(order := ["c"]);
    assert Settle(s1) == s1 by { assert UNREAD.settled + {} == UNREAD.settled; }
    AtMostOne(s1, "tool", answer.parts);
    assert CheckPart(UNREAD, "assistant", call) == Fine(s1) && CheckPart(s1, "tool", answer.parts[0]).Fine?;
    hide CheckPart;
    assert CheckEvent(UNREAD, plan) == Fine(s1) && CheckEvent(s1, answer).Fine?;
    hide CheckEvent;
    assert [plan, answer][1..] == [answer] && [answer][1..] == [];
    assert CheckEvents(s1, [answer]).Fine?;
  }
}
