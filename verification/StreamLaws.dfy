/** What the check of an event stream amounts to, said of the stream as a whole rather than of
    one reading of it (internal/session/types.go:254-362). */
module StreamLaws {
  import opened Text
  import opened Conversation
  import opened MediaUrl

  /** A part, the role that speaks it and the event it stands in. */
  datatype Spoken = Spoken(at: nat, role: string, part: Part)

  function SpokenParts(at: nat, role: string, parts: seq<Part>): seq<Spoken>
    decreases |parts|
  {
    if parts == [] then [] else [Spoken(at, role, parts[0])] + SpokenParts(at, role, parts[1..])
  }

  /** Everything said from event `at` on, in order. */
  function Said(at: nat, events: seq<Event>): seq<Spoken>
    decreases |events|
  {
    if events == [] then [] else SpokenParts(at, events[0].role, events[0].parts) + Said(at + 1, events[1..])
  }

  // ----- the laws -----

  /** What a part must be by itself, for the role that speaks it. */
  predicate Fits(role: string, p: Part) {
    match p.kind
    case Text => p.text != "" && role != "tool"
    case Reasoning => p.text != "" && role == "assistant"
    case ToolCall => role == "assistant" && p.callId != "" && p.toolName != "" && p.data.text != "" && p.data.value.Some?
    case ToolResult => role != "assistant" && p.callId != ""
    case Media =>
      && (role == "tool" ==> p.callId != "")
      && (p.mediaData == "" ==> p.mediaUrl != "") && (p.mediaData != "" ==> IsBase64(p.mediaData)) && !Blank(p.mediaType)
    case OtherPart(_) => false
  }

  ghost predicate OpenedBefore(said: seq<Spoken>, n: nat, id: string) {
    exists m :: 0 <= m < n && m < |said| && said[m].part.Opens(id)
  }

  ghost predicate Lawful(said: seq<Spoken>) {
    // every part suits its speaker
    && (forall n :: 0 <= n < |said| ==> Fits(said[n].role, said[n].part))
    // no two calls share an id
    && (forall m, n :: 0 <= m < n < |said| && said[m].part.kind.ToolCall? && said[n].part.kind.ToolCall? ==>
          said[m].part.callId != said[n].part.callId)
    // every answer comes after its call
    && (forall n :: 0 <= n < |said| && said[n].part.Answers(said[n].part.callId) ==> OpenedBefore(said, n, said[n].part.callId))
    // the results of one call stand in one event
    && (forall m, n :: 0 <= m < n < |said| && said[m].part.kind.ToolResult? && said[n].part.IsResultOf(said[m].part.callId) ==>
          said[m].at == said[n].at)
  }

  /** An event has content: a message by a known role with parts, or a plan with text. */
  predicate HasContent(e: Event) {
    match e.kind
    case Message => e.role in {"user", "assistant", "tool"} && e.parts != []
    case Plan => !Blank(e.planText)
    case OtherEvent(_) => false
  }

  // ----- what one reading knows -----

  ghost predicate Opened(said: seq<Spoken>, id: string) { exists n :: 0 <= n < |said| && said[n].part.Opens(id) }

  ghost predicate Answered(said: seq<Spoken>, id: string) { exists n :: 0 <= n < |said| && said[n].part.Answers(id) }

  ghost predicate SettledIn(said: seq<Spoken>, id: string, at: nat) {
    exists n :: 0 <= n < |said| && said[n].part.IsResultOf(id) && said[n].at == at
  }

  ghost predicate SettledBefore(said: seq<Spoken>, id: string, at: nat) {
    exists n :: 0 <= n < |said| && said[n].part.IsResultOf(id) && said[n].at < at
  }

  /** The scan holds what has been said, the last of it in event `at`. */
  ghost predicate Knows(s: Scan, said: seq<Spoken>, at: nat) {
    && (forall id :: id in s.order <==> Opened(said, id))
    && (forall id :: id in s.answered <==> Answered(said, id))
    && (forall id :: id in s.settled <==> SettledBefore(said, id, at))
    && (forall id :: id in s.here <==> SettledIn(said, id, at))
    && (forall n :: 0 <= n < |said| ==> said[n].at <= at)
  }

  lemma {:induction false} LawfulPrefix(a: seq<Spoken>, b: seq<Spoken>)
    requires Lawful(a + b)
    ensures Lawful(a)
  {
    hide Fits, Part.Answers, Part.IsResultOf, Part.Opens;
    var all := a + b;
    forall n | 0 <= n < |a| ensures Fits(a[n].role, a[n].part) { assert all[n] == a[n]; }
    forall m, n | 0 <= m < n < |a| && a[m].part.kind.ToolCall? && a[n].part.kind.ToolCall?
      ensures a[m].part.callId != a[n].part.callId { assert all[m] == a[m] && all[n] == a[n]; }
    forall n | 0 <= n < |a| && a[n].part.Answers(a[n].part.callId) ensures OpenedBefore(a, n, a[n].part.callId) {
      assert all[n] == a[n];
      assert OpenedBefore(all, n, a[n].part.callId);
      var m :| 0 <= m < n && all[m].part.Opens(a[n].part.callId);
      assert a[m] == all[m];
    }
    forall m, n | 0 <= m < n < |a| && a[m].part.kind.ToolResult? && a[n].part.IsResultOf(a[m].part.callId)
      ensures a[m].at == a[n].at { assert all[m] == a[m] && all[n] == a[n]; }
  }

  /** What one more part must be and meet, given the ones before it. */
  ghost predicate Follows(said: seq<Spoken>, x: Spoken) {
    && Fits(x.role, x.part)
    && (x.part.kind.ToolCall? ==> !Opened(said, x.part.callId))
    && (x.part.Answers(x.part.callId) ==> Opened(said, x.part.callId))
    && (x.part.kind.ToolResult? ==> !SettledBefore(said, x.part.callId, x.at))
  }

  lemma {:induction false} LawfulNext(said: seq<Spoken>, x: Spoken)
    requires Lawful(said) && forall n :: 0 <= n < |said| ==> said[n].at <= x.at
    ensures Lawful(said + [x]) <==> Follows(said, x)
  {
    hide Fits;
    var all, last := said + [x], |said|;
    assert all[last] == x && forall n :: 0 <= n < last ==> all[n] == said[n];
    if Lawful(all) {
      assert Fits(x.role, x.part);
      forall n | x.part.kind.ToolCall? && 0 <= n < |said| ensures !said[n].part.Opens(x.part.callId) {
        assert all[n].part.kind.ToolCall? ==> all[n].part.callId != all[last].part.callId;
      }
      if x.part.Answers(x.part.callId) {
        assert OpenedBefore(all, last, x.part.callId);
        var m :| 0 <= m < last && all[m].part.Opens(x.part.callId);
        assert said[m].part.Opens(x.part.callId);
      }
      forall n | x.part.kind.ToolResult? && 0 <= n < |said| && said[n].part.IsResultOf(x.part.callId) ensures said[n].at == x.at {
        assert all[last].part.IsResultOf(all[n].part.callId);
      }
    }
    if Follows(said, x) { LawfulSnoc(said, x); }
  }

  lemma {:induction false} LawfulSnoc(said: seq<Spoken>, x: Spoken)
    requires Lawful(said) && Follows(said, x) && forall n :: 0 <= n < |said| ==> said[n].at <= x.at
    ensures Lawful(said + [x])
  {
    hide Fits;
    var all := said + [x];
    assert forall n :: 0 <= n < |said| ==> all[n] == said[n];
    forall m, n | 0 <= m < n < |all| && all[m].part.kind.ToolCall? && all[n].part.kind.ToolCall?
      ensures all[m].part.callId != all[n].part.callId
    {
      if n == |said| { assert said[m].part.Opens(said[m].part.callId); }
    }
    forall n | 0 <= n < |all| && all[n].part.Answers(all[n].part.callId) ensures OpenedBefore(all, n, all[n].part.callId) {
      var id := all[n].part.callId;
      if n < |said| {
        assert OpenedBefore(said, n, id);
        var m :| 0 <= m < n && said[m].part.Opens(id);
        assert all[m].part.Opens(id);
      } else {
        assert Opened(said, id);
        var m :| 0 <= m < |said| && said[m].part.Opens(id);
        assert all[m].part.Opens(id);
      }
    }
    forall m, n | 0 <= m < n < |all| && all[m].part.kind.ToolResult? && all[n].part.IsResultOf(all[m].part.callId)
      ensures all[m].at == all[n].at
    {
      if n == |said| { assert said[m].part.IsResultOf(x.part.callId); }
    }
  }

  // ----- one part, one event, the whole stream -----

  lemma {:induction false} OpenedNext(said: seq<Spoken>, x: Spoken, id: string)
    ensures Opened(said + [x], id) <==> Opened(said, id) || x.part.Opens(id)
    ensures Answered(said + [x], id) <==> Answered(said, id) || x.part.Answers(id)
  {
    hide Part.Opens, Part.Answers;
    var all := said + [x];
    assert all[|said|] == x && forall n :: 0 <= n < |said| ==> all[n] == said[n];
    if Opened(said, id) { var n :| 0 <= n < |said| && said[n].part.Opens(id); assert all[n].part.Opens(id); }
    if Answered(said, id) { var n :| 0 <= n < |said| && said[n].part.Answers(id); assert all[n].part.Answers(id); }
  }

  lemma {:induction false} SettledNext(said: seq<Spoken>, x: Spoken, id: string)
    ensures SettledIn(said + [x], id, x.at) <==> SettledIn(said, id, x.at) || x.part.IsResultOf(id)
    ensures SettledBefore(said + [x], id, x.at) <==> SettledBefore(said, id, x.at)
  {
    hide Part.IsResultOf;
    var all := said + [x];
    assert all[|said|] == x && forall n :: 0 <= n < |said| ==> all[n] == said[n];
    if SettledIn(said, id, x.at) {
      var n :| 0 <= n < |said| && said[n].part.IsResultOf(id) && said[n].at == x.at;
      assert all[n].part.IsResultOf(id);
    }
    if SettledBefore(said, id, x.at) {
      var n :| 0 <= n < |said| && said[n].part.IsResultOf(id) && said[n].at < x.at;
      assert all[n].part.IsResultOf(id);
    }
  }

  lemma {:induction false} CheckMeans(s: Scan, said: seq<Spoken>, x: Spoken)
    requires Knows(s, said, x.at)
    ensures CheckPart(s, x.role, x.part).Fine? <==> Follows(said, x)
  {
    hide Opened, Answered, SettledBefore, SettledIn, Blank;
  }

  /** What a part that is accepted adds to what is known. */
  lemma {:induction false} ScanNext(s: Scan, role: string, p: Part)
    requires CheckPart(s, role, p).Fine?
    ensures var t := CheckPart(s, role, p).scan;
      && (forall id :: id in t.order <==> id in s.order || p.Opens(id))
      && (forall id :: id in t.answered <==> id in s.answered || p.Answers(id))
      && (forall id :: id in t.here <==> id in s.here || p.IsResultOf(id)) && t.settled == s.settled
  {
    hide Blank;
  }

  lemma {:induction false} PartKnown(s: Scan, said: seq<Spoken>, x: Spoken)
    requires Knows(s, said, x.at) && CheckPart(s, x.role, x.part).Fine?
    ensures Knows(CheckPart(s, x.role, x.part).scan, said + [x], x.at)
  {
    hide CheckPart, Opened, Answered, SettledBefore, SettledIn, Part.Opens, Part.Answers, Part.IsResultOf;
    ScanNext(s, x.role, x.part);
    forall id
      ensures Opened(said + [x], id) <==> Opened(said, id) || x.part.Opens(id)
      ensures Answered(said + [x], id) <==> Answered(said, id) || x.part.Answers(id)
      ensures SettledIn(said + [x], id, x.at) <==> SettledIn(said, id, x.at) || x.part.IsResultOf(id)
      ensures SettledBefore(said + [x], id, x.at) <==> SettledBefore(said, id, x.at)
    {
      OpenedNext(said, x, id);
      SettledNext(said, x, id);
    }
  }

  lemma {:induction false} PartsMean(s: Scan, said: seq<Spoken>, at: nat, role: string, parts: seq<Part>)
    requires Knows(s, said, at) && Lawful(said)
    ensures CheckParts(s, role, parts).Fine? <==> Lawful(said + SpokenParts(at, role, parts))
    ensures CheckParts(s, role, parts).Fine? ==> Knows(CheckParts(s, role, parts).scan, said + SpokenParts(at, role, parts), at)
    decreases |parts|
  {
    hide Knows, Lawful, Follows, CheckPart;
    if parts == [] {
      assert said + [] == said;
    } else {
      var x, rest := Spoken(at, role, parts[0]), SpokenParts(at, role, parts[1..]);
      assert said + ([x] + rest) == (said + [x]) + rest;
      KnownTimes(s, said, at);
      CheckMeans(s, said, x);
      LawfulNext(said, x);
      if CheckPart(s, role, parts[0]).Fine? {
        PartKnown(s, said, x);
        PartsMean(CheckPart(s, role, parts[0]).scan, said + [x], at, role, parts[1..]);
      } else if Lawful(said + [x] + rest) {
        LawfulPrefix(said + [x], rest);
      }
    }
  }

  lemma {:induction false} KnownTimes(s: Scan, said: seq<Spoken>, at: nat)
    requires Knows(s, said, at)
    ensures forall n :: 0 <= n < |said| ==> said[n].at <= at
  {}

  lemma {:induction false} KnownNextEvent(s: Scan, said: seq<Spoken>, at: nat)
    requires Knows(s, said, at)
    ensures Knows(Settle(s), said, at + 1)
  {
    hide Part.Opens, Part.Answers, Part.IsResultOf, Opened, Answered;
    forall id
      ensures SettledBefore(said, id, at + 1) <==> SettledBefore(said, id, at) || SettledIn(said, id, at)
      ensures !SettledIn(said, id, at + 1)
    {}
  }

  lemma {:induction false} EventsMean(s: Scan, said: seq<Spoken>, at: nat, events: seq<Event>)
    requires Knows(s, said, at) && Lawful(said)
    ensures CheckEvents(s, events).Fine?
      <==> (forall e :: e in events ==> HasContent(e)) && Lawful(said + Said(at, events))
    ensures CheckEvents(s, events).Fine? ==>
      Knows(CheckEvents(s, events).scan, said + Said(at, events), at + |events|)
    decreases |events|
  {
    if events == [] {
      hide Knows, Lawful;
      assert said + [] == said;
    } else {
      hide *;
      var e := events[0];
      var here, rest := SpokenParts(at, e.role, e.parts), Said(at + 1, events[1..]);
      SaidNext(at, events);
      assert said + (here + rest) == (said + here) + rest;
      assert forall d :: d in events <==> d == e || d in events[1..];
      ChecksNext(s, events);
      ContentMeans(e);
      PartsMean(s, said, at, e.role, e.parts);
      if HasContent(e) {
        if CheckParts(s, e.role, e.parts).Fine? {
          var t := CheckParts(s, e.role, e.parts).scan;
          KnownNextEvent(t, said + here, at);
          EventsMean(Settle(t), said + here, at + 1, events[1..]);
        } else if Lawful(said + here + rest) {
          LawfulPrefix(said + here, rest);
        }
      }
    }
  }

  lemma {:induction false} SaidNext(at: nat, events: seq<Event>)
    requires events != []
    ensures Said(at, events) == SpokenParts(at, events[0].role, events[0].parts) + Said(at + 1, events[1..])
  {}

  lemma {:induction false} ContentMeans(e: Event)
    ensures EventFault(e).None? <==> HasContent(e)
  {
    hide Blank;
  }

  lemma {:induction false} ChecksNext(s: Scan, events: seq<Event>)
    requires events != []
    ensures var e, rest := events[0], events[1..];
      var parts := CheckParts(s, e.role, e.parts);
      && (EventFault(e).Some? || parts.Bad? ==> CheckEvents(s, events).Bad?)
      && (EventFault(e).None? && parts.Fine? ==> CheckEvents(s, events) == CheckEvents(Settle(parts.scan), rest))
  {
    hide CheckParts, EventFault, Settle;
  }

  lemma {:induction false} NothingKnown()
    ensures Knows(UNREAD, [], 0) && Lawful([])
  {}

  lemma {:induction false} InUnanswered(order: seq<string>, answered: set<string>, id: string)
    ensures id in Unanswered(order, answered) <==> id in order && id !in answered
  {
    if order != [] { InUnanswered(order[1..], answered, id); }
  }

  /** The check accepts exactly the streams that obey the laws: every event has content, every part suits its speaker,
      calls are unique, answers come after their calls, and the results of a call share an event.  The calls it then
      reports unanswered are exactly the calls no part answers. */
  lemma {:induction false} WellFormedMeans(events: seq<Event>)
    ensures WellFormed(events) <==> (forall e :: e in events ==> HasContent(e)) && Lawful(Said(0, events))
    ensures WellFormed(events) ==>
      && (forall id :: id in ScanOf(events).order <==> Opened(Said(0, events), id))
      && (forall id :: id in Dangling(events) <==> Opened(Said(0, events), id) && !Answered(Said(0, events), id))
  {
    hide CheckEvents, HasContent, Lawful, Opened, Answered, SettledIn, SettledBefore, Unanswered;
    NothingKnown();
    assert [] + Said(0, events) == Said(0, events);
    EventsMean(UNREAD, [], 0, events);
    if WellFormed(events) {
      forall id ensures id in Dangling(events) <==> Opened(Said(0, events), id) && !Answered(Said(0, events), id) {
        InUnanswered(ScanOf(events).order, ScanOf(events).answered, id);
      }
    }
  }
}
