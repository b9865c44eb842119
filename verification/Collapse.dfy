/** Collapsing the middle of a thread: the boundary moves back until every answer in the kept
    tail has its call beside it (internal/session/compact.go:436-522). */
module Collapse {
  import opened Basics
  import opened Text
  import opened Conversation
  import opened Reduction
  import opened MediaHome

  function CallIds(parts: seq<Part>): set<string> {
    if parts == [] then {}
    else (if parts[0].kind.ToolCall? then {parts[0].callId} else {}) + CallIds(parts[1..])
  }

  /** Calls the parts answer; a part without a call id answers nothing. */
  function AnswerIds(parts: seq<Part>): set<string> {
    if parts == [] then {}
    else (if parts[0].callId != "" && (parts[0].kind.ToolResult? || parts[0].kind.Media?) then {parts[0].callId} else {})
         + AnswerIds(parts[1..])
  }

  function CallsIn(events: seq<Event>): set<string> {
    if events == [] then {} else CallIds(events[0].parts) + CallsIn(events[1..])
  }

  function AnswersIn(events: seq<Event>): set<string> {
    if events == [] then {} else AnswerIds(events[0].parts) + AnswersIn(events[1..])
  }

  /** Every answer from event `k` on has its call from event `k` on. */
  predicate ClosedFrom(events: seq<Event>, k: nat)
    requires k <= |events|
  {
    AnswersIn(events[k..]) <= CallsIn(events[k..])
  }

  /** The greatest index not exceeding `limit` from which the thread is closed. */
  function BestBoundary(events: seq<Event>, limit: nat): (b: nat)
    requires limit <= |events|
    ensures b <= limit
    ensures forall k :: b < k <= limit ==> !ClosedFrom(events, k)
    ensures b > 0 ==> ClosedFrom(events, b)
  {
    if limit == 0 || ClosedFrom(events, limit) then limit else BestBoundary(events, limit - 1)
  }

  // ----- facts about calls and answers of a well-formed stream -----

  lemma {:induction false} CallsAppend(a: seq<Event>, b: seq<Event>)
    ensures CallsIn(a + b) == CallsIn(a) + CallsIn(b)
    ensures AnswersIn(a + b) == AnswersIn(a) + AnswersIn(b)
  {
    if a == [] {
      assert a + b == b;
    } else {
      assert (a + b)[0] == a[0] && (a + b)[1..] == a[1..] + b;
      CallsAppend(a[1..], b);
    }
  }

  lemma {:induction false} PartsCalls(s: Scan, role: string, parts: seq<Part>)
    requires CheckParts(s, role, parts).Fine?
    ensures var s' := CheckParts(s, role, parts).scan;
      && (forall id :: id in s'.order <==> id in s.order || id in CallIds(parts))
      && (forall id :: id in CallIds(parts) ==> id !in s.order)
      && (forall id :: id in AnswerIds(parts) ==> id in s'.order)
    decreases |parts|
  {
    hide Blank;
    if parts != [] {
      var s1 := CheckPart(s, role, parts[0]).scan;
      PartsCalls(s1, role, parts[1..]);
    }
  }

  /** Reading events adds exactly their calls, all new, and answers only calls already read. */
  lemma {:induction false} EventsCalls(s: Scan, events: seq<Event>)
    requires CheckEvents(s, events).Fine?
    ensures var s' := CheckEvents(s, events).scan;
      && (forall id :: id in s'.order <==> id in s.order || id in CallsIn(events))
      && (forall id :: id in CallsIn(events) ==> id !in s.order)
      && (forall id :: id in AnswersIn(events) ==> id in s'.order)
    decreases |events|
  {
    if events != [] {
      hide CheckParts;
      PartsCalls(s, events[0].role, events[0].parts);
      EventsCalls(CheckEvent(s, events[0]).scan, events[1..]);
    }
  }

  /** In a well-formed stream a call is made in one place, before anything answers it. */
  lemma CallsSplit(events: seq<Event>, k: nat)
    requires WellFormed(events) && k <= |events|
    ensures CallsIn(events[..k]) !! CallsIn(events[k..])
    ensures AnswersIn(events[k..]) <= CallsIn(events[..k]) + CallsIn(events[k..])
    ensures AnswersIn(events[..k]) <= CallsIn(events[..k])
  {
    assert events == events[..k] + events[k..];
    CheckEventsAppend(UNREAD, events[..k], events[k..]);
    EventsCalls(UNREAD, events[..k]);
    EventsCalls(CheckEvents(UNREAD, events[..k]).scan, events[k..]);
  }

  /** A boundary past the call some kept answer needs is not closed. */
  lemma MustReachBack(events: seq<Event>, k: nat, i: nat, start: nat, id: string)
    requires WellFormed(events) && i < k <= start <= |events|
    requires id in CallIds(events[i].parts) && id in AnswersIn(events[start..])
    ensures !ClosedFrom(events, k)
  {
    hide WellFormed, CallIds, CallsIn, AnswersIn;
    CallsSplit(events, k);
    CalledBefore(events, k, i, id);
    assert events[k..] == events[k..start] + events[start..];
    CallsAppend(events[k..start], events[start..]);
    assert id in CallsIn(events[..k]) && id !in CallsIn(events[k..]);
  }

  lemma CalledBefore(events: seq<Event>, k: nat, i: nat, id: string)
    requires i < k <= |events| && id in CallIds(events[i].parts)
    ensures id in CallsIn(events[..k])
  {
    hide CallIds;
    assert events[..k] == events[..i] + events[i..k];
    CallsAppend(events[..i], events[i..k]);
    assert events[i..k][0] == events[i];
    assert CallsIn(events[i..k]) == CallIds(events[i].parts) + CallsIn(events[i..k][1..]);
  }

  // ----- the boundary loop -----

  method DefinedIn(events: seq<Event>) returns (defined: set<string>)
    ensures defined == CallsIn(events)
  {
    defined := {};
    for i := 0 to |events|
      invariant defined + CallsIn(events[i..]) == CallsIn(events)
    {
      var event := events[i];
      assert events[i..][0] == event && events[i..][1..] == events[i + 1..];
      ghost var before := defined;
      for j := 0 to |event.parts|
        invariant defined + CallIds(event.parts[j..]) == before + CallIds(event.parts)
      {
        assert event.parts[j..][0] == event.parts[j] && event.parts[j..][1..] == event.parts[j + 1..];
        if event.parts[j].kind.ToolCall? { defined := defined + {event.parts[j].callId}; }
      }
      assert event.parts[|event.parts|..] == [];
    }
    assert events[|events|..] == [];
  }

  method DefinesCall(event: Event, id: string) returns (found: bool)
    ensures found <==> id in CallIds(event.parts)
  {
    for j := 0 to |event.parts|
      invariant id in CallIds(event.parts) <==> id in CallIds(event.parts[j..])
    {
      assert event.parts[j..][0] == event.parts[j] && event.parts[j..][1..] == event.parts[j + 1..];
      if event.parts[j].kind.ToolCall? && event.parts[j].callId == id { return true; }
    }
    assert event.parts[|event.parts|..] == [];
    return false;
  }

  /** The nearest event before `start` that makes call `id`, or `start` if none does. */
  method LastDefinition(events: seq<Event>, start: nat, id: string) returns (at: nat)
    requires start <= |events|
    ensures at <= start && (at < start ==> id in CallIds(events[at].parts))
    ensures at == start ==> id !in CallsIn(events[..start])
  {
    var i := start;
    while i > 0
      invariant 0 <= i <= start
      invariant forall k :: i <= k < start ==> id !in CallIds(events[k].parts)
    {
      i := i - 1;
      var found := DefinesCall(events[i], id);
      if found { return i; }
    }
    NoCall(events, start, id);
    return start;
  }

  lemma {:induction false} NoCall(events: seq<Event>, n: nat, id: string)
    requires n <= |events| && forall k :: 0 <= k < n ==> id !in CallIds(events[k].parts)
    ensures id !in CallsIn(events[..n])
    decreases n
  {
    if n > 0 {
      NoCall(events, n - 1, id);
      assert events[..n] == events[..n - 1] + [events[n - 1]];
      CallsAppend(events[..n - 1], [events[n - 1]]);
      assert [events[n - 1]][1..] == [];
    }
  }

  /** `next` is the earliest event some unresolved answer of the tail needs. */
  ghost predicate Needed(events: seq<Event>, start: nat, unresolved: set<string>, next: nat)
    requires start <= |events|
  {
    && next <= start
    && (next < start ==> exists id :: id in unresolved && id in CallIds(events[next].parts))
    && (next == start ==> forall id :: id in unresolved ==> id !in CallsIn(events[..start]))
  }

  lemma NeededMore(events: seq<Event>, start: nat, seen: set<string>, next: nat, id: string, at: nat)
    requires start <= |events| && Needed(events, start, seen, next)
    requires at <= start && (at < start ==> id in CallIds(events[at].parts))
    requires at == start ==> id !in CallsIn(events[..start])
    ensures Needed(events, start, seen + {id}, if at < next then at else next)
  {
    if at < next {
      assert id in seen + {id} && id in CallIds(events[at].parts);
    } else if next < start {
      var x :| x in seen && x in CallIds(events[next].parts);
      assert x in seen + {id};
    }
  }

  /** Takes the answers of one event into account. */
  method NeededByParts(events: seq<Event>, start: nat, defined: set<string>, parts: seq<Part>, next0: nat, ghost seen0: set<string>)
    returns (next: nat, ghost seen: set<string>)
    requires start <= |events| && Needed(events, start, seen0, next0)
    ensures Needed(events, start, seen, next) && seen == seen0 + (AnswerIds(parts) - defined)
  {
    hide Needed;
    next, seen := next0, seen0;
    for j := 0 to |parts|
      invariant Needed(events, start, seen, next)
      invariant seen + (AnswerIds(parts[j..]) - defined) == seen0 + (AnswerIds(parts) - defined)
    {
      var part := parts[j];
      assert parts[j..][0] == part && parts[j..][1..] == parts[j + 1..];
      if part.callId == "" || part.callId in defined { continue; }
      if !part.kind.ToolResult? && !part.kind.Media? { continue; }
      var at := LastDefinition(events, start, part.callId);
      NeededMore(events, start, seen, next, part.callId, at);
      if at < next { next := at; }
      seen := seen + {part.callId};
    }
    assert parts[|parts|..] == [];
  }

  /** How far back the unresolved answers of the kept tail reach. */
  method EarliestNeeded(events: seq<Event>, start: nat, defined: set<string>) returns (next: nat)
    requires start <= |events| && defined == CallsIn(events[start..])
    ensures Needed(events, start, AnswersIn(events[start..]) - defined, next)
  {
    next := start;
    ghost var seen: set<string> := {};
    for n := start to |events|
      invariant Needed(events, start, seen, next)
      invariant seen + (AnswersIn(events[n..]) - defined) == AnswersIn(events[start..]) - defined
    {
      hide Needed;
      assert events[n..][0] == events[n] && events[n..][1..] == events[n + 1..];
      next, seen := NeededByParts(events, start, defined, events[n].parts, next, seen);
    }
    assert events[|events|..] == [];
  }

  /** Where the kept tail starts.  On a well-formed thread this is the best boundary unless
      that falls at or before `head`, and then the loop stops at or before `head` too. */
  method Boundary(events: seq<Event>, limit: nat, head: nat) returns (start: nat)
    requires limit <= |events|
    ensures start <= limit
    ensures WellFormed(events) ==>
      && BestBoundary(events, limit) <= start
      && (start > head ==> start == BestBoundary(events, limit))
  {
    start := limit;
    while start > head
      invariant 0 <= start <= limit
      invariant WellFormed(events) ==> BestBoundary(events, limit) <= start
      decreases start
    {
      hide WellFormed, CallsIn, AnswersIn;
      var defined := DefinedIn(events[start..]);
      var next := EarliestNeeded(events, start, defined);
      if next == start {
        if WellFormed(events) { Unneeded(events, start, defined); }
        break;
      }
      if WellFormed(events) { ReachBack(events, limit, start, defined, next); }
      start := next;
    }
  }

  lemma Unneeded(events: seq<Event>, start: nat, defined: set<string>)
    requires WellFormed(events) && start <= |events| && defined == CallsIn(events[start..])
    requires Needed(events, start, AnswersIn(events[start..]) - defined, start)
    ensures ClosedFrom(events, start)
  {
    CallsSplit(events, start);
  }

  lemma {:induction false} ReachBack(events: seq<Event>, limit: nat, start: nat, defined: set<string>, next: nat)
    requires WellFormed(events) && next < start <= limit <= |events| && defined == CallsIn(events[start..])
    requires BestBoundary(events, limit) <= start
    requires Needed(events, start, AnswersIn(events[start..]) - defined, next)
    ensures BestBoundary(events, limit) <= next
  {
    var id :| id in AnswersIn(events[start..]) - defined && id in CallIds(events[next].parts);
    var b := BestBoundary(events, limit);
    if b > next {
      MustReachBack(events, b, next, start, id);
      assert false;
    }
  }
}
