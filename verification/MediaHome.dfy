/** When stripping inline media keeps a stream valid: exactly when no call without a tool
    result is answered by media in two events (internal/session/compact.go:271-384). */
module MediaHome {
  import opened Basics
  import opened Text
  import opened Conversation
  import opened Reduction

  /** Calls an event answers with media that stripping turns into a tool result. */
  function MediaAnswers(e: Event): set<string> {
    if e.kind.Plan? || e.role == "assistant" then {} else MediaIds(e.parts)
  }

  function MediaIds(parts: seq<Part>): set<string> {
    if parts == [] then {}
    else (if parts[0].kind.Media? && parts[0].callId != "" then {parts[0].callId} else {}) + MediaIds(parts[1..])
  }

  function ResultsBefore(events: seq<Event>, n: nat): set<string>
    requires n <= |events|
  {
    if n == 0 then {} else ResultsBefore(events, n - 1) + ResultIds(events[n - 1].parts)
  }

  /** The call has a tool result somewhere in the stream. */
  predicate HasResult(events: seq<Event>, id: string) { id in ResultsBefore(events, |events|) }

  /** The media that answer one call, when nothing else does, share an event. */
  ghost predicate MediaTogether(events: seq<Event>) {
    forall i, k, id :: 0 <= i < k < |events| && id in MediaAnswers(events[i]) && id in MediaAnswers(events[k])
      ==> HasResult(events, id)
  }

  // ----- tool results of a well-formed stream -----

  lemma {:induction false} ReadSettled(events: seq<Event>, n: nat)
    requires WellFormed(events) && n <= |events|
    ensures CheckEvents(UNREAD, events[..n]).Fine?
    ensures CheckEvents(UNREAD, events[..n]).scan.settled == ResultsBefore(events, n)
    ensures CheckEvents(UNREAD, events[..n]).scan.here == {}
    decreases n
  {
    assert events == events[..n] + events[n..];
    CheckEventsAppend(UNREAD, events[..n], events[n..]);
    if n > 0 {
      hide CheckEvent;
      ReadSettled(events, n - 1);
      var s := CheckEvents(UNREAD, events[..n - 1]).scan;
      ReadNext(events, n - 1, s);
      OneEventSettles(s, events[n - 1]);
    }
  }

  lemma OneEventSettles(s: Scan, e: Event)
    requires CheckEvent(s, e).Fine? && s.here == {}
    ensures ResultIds(e.parts) !! s.settled && "" !in ResultIds(e.parts)
    ensures CheckEvent(s, e).scan.settled == s.settled + ResultIds(e.parts) && CheckEvent(s, e).scan.here == {}
  {
    hide CheckPart;
    PlanPartsInStep(e.role, e.parts, s, s);
    ResultsNamed(s, e.role, e.parts);
  }

  lemma {:induction false} ResultsNamed(s: Scan, role: string, parts: seq<Part>)
    requires CheckParts(s, role, parts).Fine?
    ensures "" !in ResultIds(parts)
    decreases |parts|
  {
    hide Blank;
    if parts != [] { ResultsNamed(CheckPart(s, role, parts[0]).scan, role, parts[1..]); }
  }

  lemma {:induction false} ResultWasBefore(events: seq<Event>, n: nat, k: nat, id: string)
    requires k < n <= |events| && id in ResultIds(events[k].parts)
    ensures id in ResultsBefore(events, n)
    decreases n
  {
    if k < n - 1 { ResultWasBefore(events, n - 1, k, id); }
  }

  /** A result held by one event of a well-formed stream is held by no other. */
  lemma ResultsApart(events: seq<Event>, k: nat, n: nat, id: string)
    requires WellFormed(events) && k < n < |events| && id in ResultIds(events[k].parts)
    ensures id !in ResultIds(events[n].parts)
  {
    hide CheckEvent, CheckEvents;
    ReadSettled(events, n);
    ReadSettled(events, n + 1);
    ResultWasBefore(events, n, k, id);
    ReadNext(events, n, CheckEvents(UNREAD, events[..n]).scan);
    OneEventSettles(CheckEvents(UNREAD, events[..n]).scan, events[n]);
  }

  lemma NoBlankResult(events: seq<Event>, n: nat)
    requires WellFormed(events) && n < |events|
    ensures "" !in ResultIds(events[n].parts)
  {
    hide CheckEvent, CheckEvents;
    ReadSettled(events, n);
    ReadSettled(events, n + 1);
    ReadNext(events, n, CheckEvents(UNREAD, events[..n]).scan);
    OneEventSettles(CheckEvents(UNREAD, events[..n]).scan, events[n]);
  }

  /** In a well-formed stream the index of results points at their one event. */
  lemma {:induction false} HomeIsExact(events: seq<Event>, n: nat, id: string)
    requires WellFormed(events) && n <= |events|
    ensures var home := ResultEventIndex(events[..n]);
      && (id in home <==> id in ResultsBefore(events, n))
      && (id in home ==> home[id] < n && id in ResultIds(events[home[id]].parts))
      && (forall k :: 0 <= k < n && id in ResultIds(events[k].parts) ==> id in home && home[id] == k)
    decreases n
  {
    hide WellFormed;
    if n > 0 {
      HomeIsExact(events, n - 1, id);
      assert events[..n][..n - 1] == events[..n - 1];
      NoBlankResult(events, n - 1);
      if id in ResultIds(events[n - 1].parts) {
        forall k | 0 <= k < n - 1 ensures id !in ResultIds(events[k].parts) {
          if id in ResultIds(events[k].parts) { ResultsApart(events, k, n - 1, id); }
        }
      }
    }
  }

  // ----- what an event emits -----

  lemma {:induction false} PartsEmitExactly(r: Rung, home: map<string, nat>, i: nat, role: string, parts: seq<Part>, id: string)
    ensures id in PartsEmit(r, home, i, role, parts) <==>
      || id in ResultIds(parts)
      || (r.stripMedia && role != "assistant" && id in MediaIds(parts) && !(id in home && home[id] != i))
  {
    if parts != [] { PartsEmitExactly(r, home, i, role, parts[1..], id); }
  }

  lemma EmitsExactly(r: Rung, home: map<string, nat>, i: nat, e: Event, id: string)
    ensures id in EventEmits(r, home, i, e) <==>
      || id in ResultIds(e.parts)
      || (r.stripMedia && id in MediaAnswers(e) && !(id in home && home[id] != i))
  {
    PartsEmitExactly(r, home, i, e.role, e.parts, id);
  }

  lemma {:induction false} EmittedEarlier(r: Rung, home: map<string, nat>, events: seq<Event>, n: nat, id: string)
    requires n <= |events|
    ensures id in EmittedBefore(r, home, events, n) <==> exists k :: 0 <= k < n && id in EventEmits(r, home, k, events[k])
    decreases n
  {
    if n > 0 { EmittedEarlier(r, home, events, n - 1, id); }
  }

  /** A call that has a tool result is only ever answered, in the reduced stream, there. */
  lemma {:induction false} EmittedAtHome(r: Rung, events: seq<Event>, i: nat, id: string)
    requires WellFormed(events) && i < |events|
    requires id in EventEmits(r, ResultEventIndex(events), i, events[i])
    ensures HasResult(events, id) ==> id in ResultEventIndex(events) && ResultEventIndex(events)[id] == i
    ensures !HasResult(events, id) ==> r.stripMedia && id in MediaAnswers(events[i])
  {
    assert events[..|events|] == events;
    HomeIsExact(events, |events|, id);
    EmitsExactly(r, ResultEventIndex(events), i, events[i], id);
  }

  /** The media hypothesis is exactly what keeps results together. */
  lemma TogetherExactly(r: Rung, events: seq<Event>)
    requires WellFormed(events)
    ensures ResultsTogether(r, events) <==> (r.stripMedia ==> MediaTogether(events))
  {
    var home := ResultEventIndex(events);
    if r.stripMedia ==> MediaTogether(events) {
      forall n | 0 <= n < |events| ensures EmittedBefore(r, home, events, n) !! EventEmits(r, home, n, events[n]) {
        forall id | id in EmittedBefore(r, home, events, n) && id in EventEmits(r, home, n, events[n]) ensures false {
          EmittedEarlier(r, home, events, n, id);
          var k :| 0 <= k < n && id in EventEmits(r, home, k, events[k]);
          EmittedAtHome(r, events, n, id);
          EmittedAtHome(r, events, k, id);
        }
      }
    } else {
      var i, k, id :| 0 <= i < k < |events| && id in MediaAnswers(events[i]) && id in MediaAnswers(events[k])
        && !HasResult(events, id);
      assert events[..|events|] == events;
      HomeIsExact(events, |events|, id);
      EmitsExactly(r, home, i, events[i], id);
      EmitsExactly(r, home, k, events[k], id);
      EmittedEarlier(r, home, events, k, id);
    }
  }

  // ----- which calls stay answered -----

  /** Calls answered by a part that survives in some form. */
  function PartKeepsAnswer(r: Rung, role: string, p: Part): set<string> {
    if p.kind.ToolResult? then {p.callId}
    else if p.kind.Media? && p.callId != "" && !(r.stripMedia && role == "assistant") then {p.callId}
    else {}
  }

  function PartsKeepAnswers(r: Rung, role: string, parts: seq<Part>): set<string> {
    if parts == [] then {} else PartKeepsAnswer(r, role, parts[0]) + PartsKeepAnswers(r, role, parts[1..])
  }

  /** Everything but media in an assistant message, when media are stripped. */
  function EventKeepsAnswers(r: Rung, e: Event): set<string> {
    if e.kind.Plan? then ResultIds(e.parts) + MediaIds(e.parts) else PartsKeepAnswers(r, e.role, e.parts)
  }

  function KeptAnswers(r: Rung, events: seq<Event>, n: nat): set<string>
    requires n <= |events|
    decreases n
  {
    if n == 0 then {} else KeptAnswers(r, events, n - 1) + EventKeepsAnswers(r, events[n - 1])
  }

  /** Answers read so far: all kept ones, except those whose tool result is still to come. */
  ghost predicate AnswersInStep(home: map<string, nat>, i: nat, answered: set<string>, kept: set<string>) {
    && answered <= kept
    && forall id :: id in kept && id !in answered ==> id in home && home[id] >= i
  }

  /** Every call whose result lives before event `i` has been answered. */
  ghost predicate HomesRead(home: map<string, nat>, i: nat, answered: set<string>) {
    forall id :: id in home && home[id] < i ==> id in answered
  }

  lemma {:induction false} PartsAnswers(r: Rung, env: Prosing, home: map<string, nat>, i: nat, role: string,
                                        parts: seq<Part>, w: Work, s: Scan, t: Scan)
    requires CheckParts(s, role, parts).Fine?
    requires CheckParts(t, role, ReduceParts(r, env, home, i, role, parts, w).0).Fine?
    ensures var t' := CheckParts(t, role, ReduceParts(r, env, home, i, role, parts, w).0).scan;
      var kept := PartsKeepAnswers(r, role, parts);
      && t'.answered <= t.answered + kept
      && t.answered + ResultIds(parts) <= t'.answered
      && forall id :: id in kept && id !in t'.answered ==> id in home && home[id] != i
    decreases |parts|
  {
    if parts != [] {
      hide CheckPart, ReducePart, PartKeepsAnswer;
      var p := parts[0];
      var (k, w1) := ReducePart(r, env, home, i, role, p, w);
      var rest := ReduceParts(r, env, home, i, role, parts[1..], w1).0;
      OnePartAnswers(r, env, home, i, role, p, w, s, t);
      if k.None? {
        assert [] + rest == rest;
        PartsAnswers(r, env, home, i, role, parts[1..], w1, CheckPart(s, role, p).scan, t);
      } else {
        assert ([k.value] + rest)[0] == k.value && ([k.value] + rest)[1..] == rest;
        PartsAnswers(r, env, home, i, role, parts[1..], w1, CheckPart(s, role, p).scan, CheckPart(t, role, k.value).scan);
      }
    }
  }

  lemma OnePartAnswers(r: Rung, env: Prosing, home: map<string, nat>, i: nat, role: string, p: Part, w: Work, s: Scan, t: Scan)
    requires CheckPart(s, role, p).Fine?
    ensures var k := ReducePart(r, env, home, i, role, p, w).0;
      var kept := PartKeepsAnswer(r, role, p);
      if k.None? then !p.kind.ToolResult? && forall id :: id in kept ==> id in home && home[id] != i
      else CheckPart(t, role, k.value).Fine? ==>
        CheckPart(t, role, k.value).scan.answered == t.answered + kept && (p.kind.ToolResult? ==> p.callId in kept)
  {
    hide Truncate, PathOf, Blank;
  }

  lemma {:induction false} PlanAnswers(t: Scan, role: string, parts: seq<Part>)
    requires CheckParts(t, role, parts).Fine?
    ensures CheckParts(t, role, parts).scan.answered == t.answered + ResultIds(parts) + MediaIds(parts)
    decreases |parts|
  {
    hide Blank;
    if parts != [] { PlanAnswers(CheckPart(t, role, parts[0]).scan, role, parts[1..]); }
  }

  lemma {:induction false} EventAnswers(r: Rung, env: Prosing, home: map<string, nat>, i: nat, e: Event, w: Work, s: Scan, t: Scan)
    requires CheckEvent(s, e).Fine? && CheckEvents(t, ReduceEvent(r, env, home, i, e, w).0).Fine?
    ensures var t' := CheckEvents(t, ReduceEvent(r, env, home, i, e, w).0).scan;
      var kept := EventKeepsAnswers(r, e);
      && t'.answered <= t.answered + kept
      && t.answered + ResultIds(e.parts) <= t'.answered
      && forall id :: id in kept && id !in t'.answered ==> id in home && home[id] != i
  {
    hide CheckPart, ReducePart;
    var out := ReduceEvent(r, env, home, i, e, w).0;
    if out != [] { assert out[1..] == []; }
    if e.kind.Plan? { PlanAnswers(t, e.role, e.parts); }
    else { PartsAnswers(r, env, home, i, e.role, e.parts, w, s, t); }
  }

  lemma {:induction false} EventsAnswers(r: Rung, env: Prosing, events: seq<Event>, i: nat, w: Work, s: Scan, t: Scan)
    requires WellFormed(events) && i <= |events| && CheckEvents(s, events[i..]).Fine?
    requires CheckEvents(t, ReduceEvents(r, env, ResultEventIndex(events), i, events[i..], w).0).Fine?
    requires AnswersInStep(ResultEventIndex(events), i, t.answered, KeptAnswers(r, events, i))
    requires HomesRead(ResultEventIndex(events), i, t.answered)
    ensures CheckEvents(t, ReduceEvents(r, env, ResultEventIndex(events), i, events[i..], w).0).scan.answered
      == KeptAnswers(r, events, |events|)
    decreases |events| - i
  {
    hide CheckEvent, ReduceEvent, EventKeepsAnswers, WellFormed, ResultEventIndex;
    var home := ResultEventIndex(events);
    HomesInside(events);
    if i < |events| {
      assert events[i..][0] == events[i] && events[i..][1..] == events[i + 1..];
      var (first, w1) := ReduceEvent(r, env, home, i, events[i], w);
      var rest := ReduceEvents(r, env, home, i + 1, events[i + 1..], w1).0;
      CheckEventsAppend(t, first, rest);
      HomesAt(events, i);
      EventAnswers(r, env, home, i, events[i], w, s, t);
      EventsAnswers(r, env, events, i + 1, w1, CheckEvent(s, events[i]).scan, CheckEvents(t, first).scan);
    }
  }

  lemma {:induction false} HomesAt(events: seq<Event>, i: nat)
    requires WellFormed(events) && i < |events|
    ensures forall id :: id in ResultEventIndex(events) && ResultEventIndex(events)[id] == i ==> id in ResultIds(events[i].parts)
  {
    assert events[..|events|] == events;
    forall id | id in ResultEventIndex(events) && ResultEventIndex(events)[id] == i ensures id in ResultIds(events[i].parts) {
      HomeIsExact(events, |events|, id);
    }
  }

  lemma {:induction false} HomesInside(events: seq<Event>)
    requires WellFormed(events)
    ensures forall id :: id in ResultEventIndex(events) ==> ResultEventIndex(events)[id] < |events|
  {
    assert events[..|events|] == events;
    forall id | id in ResultEventIndex(events) ensures ResultEventIndex(events)[id] < |events| {
      HomeIsExact(events, |events|, id);
    }
  }

  /** Reduction keeps exactly the answers that are not media in an assistant message (and,
      when media are not stripped, all of them). */
  lemma {:induction false} ThinnedAnswers(r: Rung, env: Prosing, events: seq<Event>)
    requires WellFormed(events) && WellFormed(Thinned(r, env, events).0)
    ensures ScanOf(Thinned(r, env, events).0).answered == KeptAnswers(r, events, |events|)
  {
    assert events[0..] == events;
    EventsAnswers(r, env, events, 0, Work([], NOTHING), UNREAD, UNREAD);
  }

  /** All the answers a stream records. */
  function AllAnswers(events: seq<Event>, n: nat): set<string>
    requires n <= |events|
    decreases n
  {
    if n == 0 then {} else AllAnswers(events, n - 1) + ResultIds(events[n - 1].parts) + MediaIds(events[n - 1].parts)
  }

  lemma {:induction false} ReadAnswers(events: seq<Event>, n: nat)
    requires WellFormed(events) && n <= |events|
    ensures CheckEvents(UNREAD, events[..n]).Fine?
    ensures CheckEvents(UNREAD, events[..n]).scan.answered == AllAnswers(events, n)
    decreases n
  {
    hide WellFormed;
    ReadSettled(events, n);
    if n > 0 {
      ReadAnswers(events, n - 1);
      var s := CheckEvents(UNREAD, events[..n - 1]).scan;
      ReadNext(events, n - 1, s);
      PlanAnswers(s, events[n - 1].role, events[n - 1].parts);
    }
  }

  /** Every answer the call has is media in an assistant message. */
  predicate OnlyAssistantMedia(r: Rung, events: seq<Event>, id: string) {
    id in AllAnswers(events, |events|) && id !in KeptAnswers(r, events, |events|)
  }

  lemma {:induction false} UnansweredMembers(order: seq<string>, answered: set<string>, id: string)
    ensures id in Unanswered(order, answered) <==> id in order && id !in answered
  {
    if order != [] { UnansweredMembers(order[1..], answered, id); }
  }

  lemma {:induction false} KeptAreAnswers(r: Rung, events: seq<Event>, n: nat)
    requires n <= |events|
    ensures KeptAnswers(r, events, n) <= AllAnswers(events, n)
    ensures !r.stripMedia ==> KeptAnswers(r, events, n) == AllAnswers(events, n)
    decreases n
  {
    if n > 0 {
      KeptAreAnswers(r, events, n - 1);
      PartsKept(r, events[n - 1].role, events[n - 1].parts);
    }
  }

  lemma {:induction false} PartsKept(r: Rung, role: string, parts: seq<Part>)
    ensures PartsKeepAnswers(r, role, parts) <= ResultIds(parts) + MediaIds(parts)
    ensures !r.stripMedia || role != "assistant" ==> PartsKeepAnswers(r, role, parts) == ResultIds(parts) + MediaIds(parts)
    ensures r.stripMedia && role == "assistant" ==> PartsKeepAnswers(r, role, parts) == ResultIds(parts)
  {
    if parts != [] { PartsKept(r, role, parts[1..]); }
  }

  /** A call is left unanswered by reduction exactly when it was unanswered already, or media
      are stripped and its only answers were media in an assistant message. */
  lemma ThinnedDangling(r: Rung, env: Prosing, events: seq<Event>, id: string)
    requires WellFormed(events) && WellFormed(Thinned(r, env, events).0)
    ensures id in Dangling(Thinned(r, env, events).0) <==>
      id in Dangling(events) || (id in ScanOf(events).order && r.stripMedia && OnlyAssistantMedia(r, events, id))
  {
    var thin := Thinned(r, env, events).0;
    hide WellFormed, Thinned;
    ThinnedWellFormed(r, env, events);
    ThinnedAnswers(r, env, events);
    assert events[..|events|] == events;
    ReadAnswers(events, |events|);
    KeptAreAnswers(r, events, |events|);
    UnansweredMembers(ScanOf(thin).order, ScanOf(thin).answered, id);
    UnansweredMembers(ScanOf(events).order, ScanOf(events).answered, id);
  }
}
