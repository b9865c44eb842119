/** Compaction as a whole: every rung, the search for the first that fits, and what the
    session it returns still guarantees (internal/session/compact.go:189-340, 436-504). */
module Compact {
  import opened Basics
  import opened Text
  import opened Conversation
  import opened MediaUrl
  import opened Branches
  import opened Reduction
  import opened Archive
  import opened MediaHome
  import opened Collapse

  // ----- collapsing turns -----

  predicate HasToolCall(e: Event) { exists j :: 0 <= j < |e.parts| && e.parts[j].kind.ToolCall? }

  function UserNote(text: Prose, timestamp: int): Event {
    Event(Message, "user", timestamp, [TextPart(text)], "")
  }

  function FirstTimestamp(events: seq<Event>, fallback: int): int {
    if events == [] then fallback
    else if events[0].timestamp != 0 then events[0].timestamp
    else FirstTimestamp(events[1..], fallback)
  }

  /** The opening request survives when it is a plain user turn. */
  function HeadSize(events: seq<Event>): nat {
    if events != [] && events[0].kind.Message? && events[0].role == "user" && !HasToolCall(events[0]) then 1 else 0
  }

  /** The thread with everything between the head and event `start` replaced by one brief. */
  function CollapseAt(env: Prosing, now: int, events: seq<Event>, start: nat, w: Work): (seq<Event>, Work)
    requires HeadSize(events) <= start <= |events|
  {
    var head := HeadSize(events);
    var elided := events[head..start];
    var shard := Shard("collapsed_turns", head, "", "", env.render(elided));
    (events[..head] + [UserNote(env.brief(elided, PathOf(env, w, shard)), FirstTimestamp(events[start..], now))]
       + events[start..],
     Archived(w, shard).(counts := w.counts.(collapsed := start - head)))
  }

  /** What collapsing does to a well-formed thread. */
  function Collapsed(env: Prosing, now: int, keepRecent: nat, events: seq<Event>, w: Work): (seq<Event>, Work) {
    if |events| <= keepRecent + 2 then (events, w)
    else
      var start := BestBoundary(events, |events| - keepRecent);
      if start <= HeadSize(events) then (events, w) else CollapseAt(env, now, events, start, w)
  }

  /** Reading a plain user note changes nothing. */
  lemma NoteIsNeutral(s: Scan, text: Prose, timestamp: int)
    requires s.here == {}
    ensures CheckEvent(s, UserNote(text, timestamp)) == Fine(s)
  {
    var parts := UserNote(text, timestamp).parts;
    assert parts[1..] == [];
    assert CheckPart(s, "user", parts[0]) == Fine(s);
    assert CheckParts(s, "user", parts) == Fine(s);
    assert Settle(s) == s;
  }

  /** A first event without calls has nothing to answer, so it leaves nothing behind. */
  lemma {:induction false} NothingToAnswer(role: string, parts: seq<Part>)
    requires CheckParts(UNREAD, role, parts).Fine? && role == "user"
    ensures CheckParts(UNREAD, role, parts) == Fine(UNREAD)
    decreases |parts|
  {
    hide Blank;
    if parts != [] { NothingToAnswer(role, parts[1..]); }
  }

  lemma HeadIsNeutral(events: seq<Event>)
    requires WellFormed(events)
    ensures CheckEvents(UNREAD, events[..HeadSize(events)]) == Fine(UNREAD)
  {
    if HeadSize(events) == 1 {
      NothingToAnswer("user", events[0].parts);
      assert events[..1] == [events[0]];
      assert [events[0]][1..] == [];
    }
  }

  /** The kept tail is read on its own as it was read after the whole thread before it. */
  ghost predicate TailInStep(before: seq<string>, s: Scan, u: Scan) {
    && s.order == before + u.order
    && u.settled <= s.settled && u.here == s.here
    && (forall id :: id in s.answered ==> id in s.order)
    && (forall id :: id in u.order && id in s.answered ==> id in u.answered)
    && u.answered <= s.answered
    && (forall id :: id in u.order ==> id !in before)
  }

  lemma TailPart(before: seq<string>, s: Scan, u: Scan, role: string, p: Part)
    requires TailInStep(before, s, u) && CheckPart(s, role, p).Fine?
    requires p.callId != "" && (p.kind.ToolResult? || p.kind.Media?) ==> p.callId !in before
    ensures CheckPart(u, role, p).Fine? && TailInStep(before, CheckPart(s, role, p).scan, CheckPart(u, role, p).scan)
  {
    hide Blank;
    if p.kind.ToolCall? {
      assert s.order + [p.callId] == before + (u.order + [p.callId]);
    }
  }

  lemma {:induction false} TailParts(before: seq<string>, s: Scan, u: Scan, role: string, parts: seq<Part>)
    requires TailInStep(before, s, u) && CheckParts(s, role, parts).Fine?
    requires forall id :: id in AnswerIds(parts) ==> id !in before
    ensures CheckParts(u, role, parts).Fine? && TailInStep(before, CheckParts(s, role, parts).scan, CheckParts(u, role, parts).scan)
    decreases |parts|
  {
    hide CheckPart, TailInStep;
    if parts != [] {
      TailPart(before, s, u, role, parts[0]);
      TailParts(before, CheckPart(s, role, parts[0]).scan, CheckPart(u, role, parts[0]).scan, role, parts[1..]);
    }
  }

  lemma {:induction false} TailEvents(before: seq<string>, s: Scan, u: Scan, events: seq<Event>)
    requires TailInStep(before, s, u) && CheckEvents(s, events).Fine?
    requires forall id :: id in AnswersIn(events) ==> id !in before
    ensures CheckEvents(u, events).Fine? && TailInStep(before, CheckEvents(s, events).scan, CheckEvents(u, events).scan)
    decreases |events|
  {
    hide CheckParts;
    if events != [] {
      TailParts(before, s, u, events[0].role, events[0].parts);
      TailEvents(before, CheckEvent(s, events[0]).scan, CheckEvent(u, events[0]).scan, events[1..]);
    }
  }

  lemma {:induction false} AnsweredAreCalls(s: Scan, events: seq<Event>)
    requires CheckEvents(s, events).Fine? && forall id :: id in s.answered ==> id in s.order
    ensures forall id :: id in CheckEvents(s, events).scan.answered ==> id in CheckEvents(s, events).scan.order
    decreases |events|
  {
    hide CheckParts;
    if events != [] {
      PartsAnsweredAreCalls(s, events[0].role, events[0].parts);
      AnsweredAreCalls(CheckEvent(s, events[0]).scan, events[1..]);
    }
  }

  lemma {:induction false} PartsAnsweredAreCalls(s: Scan, role: string, parts: seq<Part>)
    requires CheckParts(s, role, parts).Fine? && forall id :: id in s.answered ==> id in s.order
    ensures forall id :: id in CheckParts(s, role, parts).scan.answered ==> id in CheckParts(s, role, parts).scan.order
    decreases |parts|
  {
    hide Blank;
    if parts != [] { PartsAnsweredAreCalls(CheckPart(s, role, parts[0]).scan, role, parts[1..]); }
  }

  /** A tail that is closed is a well-formed thread by itself.  Its calls are the last ones of
      the whole thread, and each is answered in the tail if it was answered at all. */
  lemma TailStandsAlone(events: seq<Event>, k: nat)
    requires WellFormed(events) && k <= |events| && ClosedFrom(events, k)
    ensures WellFormed(events[k..])
    ensures var whole := ScanOf(events); var tail := ScanOf(events[k..]);
      && |tail.order| <= |whole.order| && whole.order[|whole.order| - |tail.order|..] == tail.order
      && (forall id :: id in tail.order ==> (id in tail.answered <==> id in whole.answered))
  {
    assert events == events[..k] + events[k..];
    CheckEventsAppend(UNREAD, events[..k], events[k..]);
    var s := CheckEvents(UNREAD, events[..k]).scan;
    EventsCalls(UNREAD, events[..k]);
    CallsSplit(events, k);
    ReadSettled(events, k);
    AnsweredAreCalls(UNREAD, events[..k]);
    assert s.order + [] == s.order;
    TailEvents(s.order, s, UNREAD, events[k..]);
  }

  /** `b` is the end of `a`. */
  predicate IsSuffix(b: seq<string>, a: seq<string>) { |b| <= |a| && a[|a| - |b|..] == b }

  /** Collapsing keeps a thread well formed; the calls it keeps are the last ones, and none of
      them loses or gains an answer. */
  lemma CollapsedStandsAlone(env: Prosing, now: int, keepRecent: nat, events: seq<Event>, w: Work)
    requires WellFormed(events)
    ensures var out := Collapsed(env, now, keepRecent, events, w).0;
      && WellFormed(out)
      && IsSuffix(ScanOf(out).order, ScanOf(events).order)
      && (forall id :: id in ScanOf(out).order ==> (id in ScanOf(out).answered <==> id in ScanOf(events).answered))
  {
    var out := Collapsed(env, now, keepRecent, events, w).0;
    if out != events {
      var start := BestBoundary(events, |events| - keepRecent);
      var head := events[..HeadSize(events)];
      var brief := [out[HeadSize(events)]];
      assert out == head + (brief + events[start..]);
      TailStandsAlone(events, start);
      HeadIsNeutral(events);
      CheckEventsAppend(UNREAD, head, brief + events[start..]);
      CheckEventsAppend(UNREAD, brief, events[start..]);
      var elided := events[HeadSize(events)..start];
      NoteIsNeutral(UNREAD, env.brief(elided, PathOf(env, w, Shard("collapsed_turns", HeadSize(events), "", "", env.render(elided)))),
                    FirstTimestamp(events[start..], now));
      assert brief[1..] == [];
      assert CheckEvents(UNREAD, out) == CheckEvents(UNREAD, events[start..]);
    }
  }

  /** A thread is left alone exactly when it is short or the best boundary reaches the head;
      otherwise the tail it keeps is the longest that is closed and no longer than asked. */
  lemma CollapseIsOptimal(env: Prosing, now: int, keepRecent: nat, events: seq<Event>, w: Work)
    requires WellFormed(events)
    ensures var (out, w') := Collapsed(env, now, keepRecent, events, w);
      var head := HeadSize(events);
      if |events| <= keepRecent + 2
         || forall k :: head < k <= |events| - keepRecent ==> !ClosedFrom(events, k)
      then out == events && w' == w
      else exists b :: head < b <= |events| - keepRecent && ClosedFrom(events, b)
             && (forall k :: b < k <= |events| - keepRecent ==> !ClosedFrom(events, k))
             && out[..head] == events[..head] && out[head + 1..] == events[b..] && |out| == head + 1 + |events| - b
             && w'.counts == w.counts.(collapsed := b - head)
  {
    hide WellFormed, CallsIn, AnswersIn, ClosedFrom, HasToolCall;
    var head := HeadSize(events);
    if |events| > keepRecent + 2 {
      var b := BestBoundary(events, |events| - keepRecent);
      if b > head {
        assert ClosedFrom(events, b);
        var out := CollapseAt(env, now, events, b, w).0;
        assert out[..head] == events[..head];
        assert out[head + 1..] == events[b..];
      }
    }
  }

  // ----- one candidate -----

  datatype Options = Options(budget: int, archiveDir: string, now: int)

  datatype Candidate = Candidate(session: Session, shards: seq<Shard>, counts: Counts)

  /** The events of a rung before the digest goes in front. */
  function Body(env: Prosing, now: int, events: seq<Event>, r: Rung): (seq<Event>, Work) {
    var (thin, w) := Thinned(r, env, events);
    if r.keepRecent > 0 then Collapsed(env, now, r.keepRecent, thin, w) else (thin, w)
  }

  function WithDigest(env: Prosing, now: int, history: Session, events: seq<Event>, counts: Counts): seq<Event> {
    if counts == NOTHING then events
    else [UserNote(env.digest(history, counts), FirstTimestamp(events, now))] + events
  }

  function Apply(env: Prosing, now: int, history: Session, r: Rung): Candidate {
    var (events, w) := Body(env, now, history.events, r);
    Candidate(history.(title := if Blank(history.title) then env.titleOf(history) else history.title,
                       events := WithDigest(env, now, history, events, w.counts)),
              w.shards, w.counts)
  }

  // ----- what the archive of a candidate holds -----

  /** A message of the user's that calls no tool. */
  predicate OpensPlainly(events: seq<Event>) {
    && events != [] && events[0].kind.Message? && events[0].role == "user"
    && forall j :: 0 <= j < |events[0].parts| ==> !events[0].parts[j].kind.ToolCall?
  }

  /** When the first event with a known time was said, or the fallback if none has one. */
  ghost predicate FirstSaid(events: seq<Event>, fallback: int, t: int) {
    || (exists k :: 0 <= k < |events| && events[k].timestamp == t && t != 0 && forall j :: 0 <= j < k ==> events[j].timestamp == 0)
    || (t == fallback && forall j :: 0 <= j < |events| ==> events[j].timestamp == 0)
  }

  lemma {:induction false} FirstTimestampIs(events: seq<Event>, fallback: int)
    ensures FirstSaid(events, fallback, FirstTimestamp(events, fallback))
  {
    if events != [] && events[0].timestamp == 0 {
      var t := FirstTimestamp(events[1..], fallback);
      FirstTimestampIs(events[1..], fallback);
      if k :| 0 <= k < |events[1..]| && events[1..][k].timestamp == t && t != 0 && forall j :: 0 <= j < k ==> events[1..][j].timestamp == 0 {
        assert events[k + 1].timestamp == t;
        forall j | 0 <= j < k + 1 ensures events[j].timestamp == 0 { if j > 0 { assert events[1..][j - 1].timestamp == 0; } }
      } else {
        forall j | 0 <= j < |events| ensures events[j].timestamp == 0 { if j > 0 { assert events[1..][j - 1].timestamp == 0; } }
      }
    }
  }

  /** The run of turns that was collapsed, if any, is the last shard, rendered whole, and the brief in its place
      names that shard's file. */
  ghost predicate Gathers(env: Prosing, now: int, thin: seq<Event>, shards: seq<Shard>, collapsed: nat, events: seq<Event>, all: seq<Shard>) {
    if collapsed == 0 then events == thin && all == shards
    else
      var head := if OpensPlainly(thin) then 1 else 0;
      && head + collapsed <= |thin| && |all| == |shards| + 1 && all[..|shards|] == shards
      && var run, last := thin[head..head + collapsed], all[|shards|];
         && last == Shard("collapsed_turns", head, "", "", env.render(run))
         && events == thin[..head] + [UserNote(env.brief(run, env.pathOf(|shards|, last)), FirstTimestamp(thin[head + collapsed..], now))]
              + thin[head + collapsed..]
  }

  /** The session keeps everything but its title, if that was blank, and its events; a digest stands in front of
      those if anything was removed. */
  ghost predicate Presents(env: Prosing, now: int, history: Session, events: seq<Event>, c: Candidate) {
    && c.session == history.(title := c.session.title, events := c.session.events)
    && c.session.title == (if Blank(history.title) then env.titleOf(history) else history.title)
    && if c.counts == NOTHING then c.session.events == events
       else c.session.events == [UserNote(env.digest(history, c.counts), FirstTimestamp(events, now))] + events
  }

  /** All that is said of a candidate: the thread thinned, its turns collapsed, and the session around it. */
  ghost predicate Accounts(env: Prosing, now: int, history: Session, r: Rung, c: Candidate) {
    exists thin, shards, counts, events :: AccountsBy(env, now, history, r, c, thin, shards, counts, events)
  }

  ghost predicate AccountsBy(env: Prosing, now: int, history: Session, r: Rung, c: Candidate,
                             thin: seq<Event>, shards: seq<Shard>, counts: Counts, events: seq<Event>) {
    && Thins(env, r, history.events, thin, shards, counts) && c.counts == counts.(collapsed := c.counts.collapsed)
    && Gathers(env, now, thin, shards, c.counts.collapsed, events, c.shards)
    && Presents(env, now, history, events, c)
  }

  lemma {:induction false} HeadIs(events: seq<Event>)
    ensures HeadSize(events) == if OpensPlainly(events) then 1 else 0
  {}

  lemma {:induction false} CollapsedGathers(env: Prosing, now: int, keepRecent: nat, thin: seq<Event>, w: Work)
    requires w.counts.collapsed == 0
    ensures var (out, w') := Collapsed(env, now, keepRecent, thin, w);
      && w'.counts == w.counts.(collapsed := w'.counts.collapsed)
      && Gathers(env, now, thin, w.shards, w'.counts.collapsed, out, w'.shards)
  {
    HeadIs(thin);
    hide FirstTimestamp, HeadSize, OpensPlainly;
    if |thin| > keepRecent + 2 {
      var start, head := BestBoundary(thin, |thin| - keepRecent), HeadSize(thin);
      if start > head {
        var shard := Shard("collapsed_turns", head, "", "", env.render(thin[head..start]));
        assert (w.shards + [shard])[..|w.shards|] == w.shards && (w.shards + [shard])[|w.shards|] == shard;
        assert head + (start - head) == start;
      }
    }
  }

  /** What a rung leaves of a session, and what it puts in the archive. */
  lemma {:induction false} CandidateAccounts(env: Prosing, now: int, history: Session, r: Rung)
    ensures Accounts(env, now, history, r, Apply(env, now, history, r))
  {
    var (thin, w) := Thinned(r, env, history.events);
    ThinnedIsArchived(r, env, history.events);
    ThinnedSurvives(env, r, history.events, thin, w.shards, w.counts);
    var (events, w') := Body(env, now, history.events, r);
    hide Thinned, Thins, Collapsed, FirstTimestamp, Blank, Gathers, Survives;
    if r.keepRecent > 0 { CollapsedGathers(env, now, r.keepRecent, thin, w); } else { NoneGathered(env, now, thin, w.shards); }
    hide Body;
    assert w.counts.(collapsed := 0) == w.counts;
    assert AccountsBy(env, now, history, r, Apply(env, now, history, r), thin, w.shards, w.counts, events);
  }

  lemma NoneGathered(env: Prosing, now: int, thin: seq<Event>, shards: seq<Shard>)
    ensures Gathers(env, now, thin, shards, 0, thin, shards)
  {}

  /** In a run of turns the archive renders whole. */
  ghost predicate InRun(env: Prosing, shards: seq<Shard>, q: Placed) {
    exists run :: Rendered(env, shards, run) && Holds(run, q)
  }

  ghost predicate Rendered(env: Prosing, shards: seq<Shard>, run: seq<Event>) {
    exists k :: 0 <= k < |shards| && shards[k].kind == "collapsed_turns" && shards[k].payload == env.render(run)
  }

  ghost predicate PlanInRun(env: Prosing, shards: seq<Shard>, e: Event) { exists run :: Rendered(env, shards, run) && e in run }

  /** Of a session nothing is lost but reasoning: every plan, and every other part of every message, is in the
      session handed over, or in full in a shard, or in a run of turns that is rendered in one. */
  ghost predicate NothingLost(env: Prosing, history: Session, events: seq<Event>, shards: seq<Shard>) {
    && (forall e :: e in history.events && e.kind.Plan? ==> e in events || PlanInRun(env, shards, e))
    && (forall i :: 0 <= i < |AllParts(0, history.events)| ==> PartKept(env, AllParts(0, history.events)[i], events, shards))
  }

  ghost predicate PartKept(env: Prosing, q: Placed, events: seq<Event>, shards: seq<Shard>) {
    q.part.kind.Reasoning? || Stored(shards, q) || Holds(events, q) || InRun(env, shards, q)
  }

  /** What is in the thread before turns are collapsed is in it afterwards, or in the run. */
  lemma {:induction false} GatheredHolds(env: Prosing, now: int, thin: seq<Event>, shards: seq<Shard>, collapsed: nat, events: seq<Event>, all: seq<Shard>, n: nat)
    requires Gathers(env, now, thin, shards, collapsed, events, all) && n < |thin|
    ensures thin[n] in events || (exists run :: Rendered(env, all, run) && thin[n] in run)
  {
    hide FirstTimestamp, OpensPlainly;
    if collapsed > 0 {
      var head := if OpensPlainly(thin) then 1 else 0;
      var run, tail := thin[head..head + collapsed], thin[head + collapsed..];
      if n < head {
        assert events[n] == thin[n];
      } else if n < head + collapsed {
        assert run[n - head] == thin[n];
        assert all[|shards|].payload == env.render(run);
        assert Rendered(env, all, run) && thin[n] in run;
      } else {
        assert tail[n - head - collapsed] == thin[n];
        assert events[n - collapsed + 1] == thin[n];
      }
    }
  }

  lemma {:induction false} PrefixStores(shards: seq<Shard>, all: seq<Shard>, q: Placed)
    requires shards <= all && Stored(shards, q)
    ensures Stored(all, q)
  {
    hide Stores;
    var k :| 0 <= k < |shards| && Stores(shards[k], q);
    assert all[k] == shards[k];
  }

  lemma {:induction false} PresentedHolds(env: Prosing, now: int, history: Session, events: seq<Event>, c: Candidate, e: Event)
    requires Presents(env, now, history, events, c) && e in events
    ensures e in c.session.events
  {
    hide FirstTimestamp;
  }

  lemma {:induction false} PartIsKept(env: Prosing, now: int, history: Session, c: Candidate, thin: seq<Event>, shards: seq<Shard>, events: seq<Event>, q: Placed)
    requires Gathers(env, now, thin, shards, c.counts.collapsed, events, c.shards) && Presents(env, now, history, events, c)
    requires PartSurvives(q, thin, shards)
    ensures PartKept(env, q, c.session.events, c.shards)
  {
    if Stored(shards, q) {
      hide *;
      GathersPrefix(env, now, thin, shards, c.counts.collapsed, events, c.shards);
      PrefixStores(shards, c.shards, q);
      StoredIsKept(env, q, c.session.events, c.shards);
    } else if !q.part.kind.Reasoning? {
      var n :| 0 <= n < |thin| && thin[n].role == q.role && q.part in thin[n].parts;
      hide Gathers, Presents, Rendered, Stored;
      GatheredHolds(env, now, thin, shards, c.counts.collapsed, events, c.shards, n);
      if thin[n] in events {
        PresentedHolds(env, now, history, events, c, thin[n]);
        InSomeEvent(c.session.events, thin[n], q);
      } else {
        var run :| Rendered(env, c.shards, run) && thin[n] in run;
        InSomeEvent(run, thin[n], q);
      }
    }
  }

  lemma {:induction false} InSomeEvent(events: seq<Event>, e: Event, q: Placed)
    requires e in events && e.role == q.role && q.part in e.parts
    ensures Holds(events, q)
  {
    var n :| 0 <= n < |events| && events[n] == e;
  }

  lemma {:induction false} StoredIsKept(env: Prosing, q: Placed, events: seq<Event>, shards: seq<Shard>)
    requires Stored(shards, q)
    ensures PartKept(env, q, events, shards)
  {}

  lemma {:induction false} GathersPrefix(env: Prosing, now: int, thin: seq<Event>, shards: seq<Shard>, collapsed: nat, events: seq<Event>, all: seq<Shard>)
    requires Gathers(env, now, thin, shards, collapsed, events, all)
    ensures shards <= all && |all| == |shards| + if collapsed > 0 then 1 else 0
  {
    hide FirstTimestamp, OpensPlainly;
  }

  /** There is a shard for each payload counted and one for a run of turns, and between them and the session
      nothing but reasoning is lost. */
  lemma {:induction false} NothingIsLost(env: Prosing, now: int, history: Session, r: Rung, c: Candidate)
    requires Accounts(env, now, history, r, c)
    ensures NothingLost(env, history, c.session.events, c.shards)
    ensures |c.shards| == Shards(c.counts)
  {
    var thin, shards, counts, events :| AccountsBy(env, now, history, r, c, thin, shards, counts, events);
    ThinnedSurvives(env, r, history.events, thin, shards, counts);
    hide Thins, Gathers, Presents, AllParts, PartKept, PartSurvives, PlanInRun, Rendered;
    GathersPrefix(env, now, thin, shards, c.counts.collapsed, events, c.shards);
    forall i | 0 <= i < |AllParts(0, history.events)| ensures PartKept(env, AllParts(0, history.events)[i], c.session.events, c.shards) {
      assert PartSurvives(AllParts(0, history.events)[i], thin, shards);
      PartIsKept(env, now, history, c, thin, shards, events, AllParts(0, history.events)[i]);
    }
    forall e | e in history.events && e.kind.Plan? ensures e in c.session.events || PlanInRun(env, c.shards, e) {
      PlanIsKept(env, now, history, c, thin, shards, events, e);
    }
  }

  lemma {:induction false} PlanIsKept(env: Prosing, now: int, history: Session, c: Candidate, thin: seq<Event>, shards: seq<Shard>, events: seq<Event>, e: Event)
    requires Gathers(env, now, thin, shards, c.counts.collapsed, events, c.shards) && Presents(env, now, history, events, c)
    requires e in thin
    ensures e in c.session.events || PlanInRun(env, c.shards, e)
  {
    var n :| 0 <= n < |thin| && thin[n] == e;
    hide Gathers, Presents, Rendered;
    GatheredHolds(env, now, thin, shards, c.counts.collapsed, events, c.shards, n);
    if e in events { PresentedHolds(env, now, history, events, c, e); }
  }

  lemma {:induction false} DigestIsNeutral(env: Prosing, now: int, history: Session, events: seq<Event>, counts: Counts)
    ensures CheckEvents(UNREAD, WithDigest(env, now, history, events, counts)) == CheckEvents(UNREAD, events)
  {
    if counts != NOTHING {
      var digest := UserNote(env.digest(history, counts), FirstTimestamp(events, now));
      NoteIsNeutral(UNREAD, env.digest(history, counts), FirstTimestamp(events, now));
      CheckEventsAppend(UNREAD, [digest], events);
      assert [digest][1..] == [];
    }
  }

  /** Without collapsing, a rung is well formed exactly when it does not strip media or the
      media that answer a call alone share an event; with it, that is enough. */
  lemma BodyWellFormed(env: Prosing, now: int, events: seq<Event>, r: Rung)
    requires WellFormed(events)
    ensures (r.stripMedia ==> MediaTogether(events)) ==> WellFormed(Body(env, now, events, r).0)
    ensures r.keepRecent == 0 && WellFormed(Body(env, now, events, r).0) ==> (r.stripMedia ==> MediaTogether(events))
  {
    hide WellFormed, Thinned, MediaTogether, ResultsTogether, Collapsed;
    ThinnedWellFormed(r, env, events);
    TogetherExactly(r, events);
    var (thin, w) := Thinned(r, env, events);
    if WellFormed(thin) && r.keepRecent > 0 { CollapsedStandsAlone(env, now, r.keepRecent, thin, w); }
  }

  // ----- a session -----

  ghost predicate SessionValid(s: Session) {
    && s.sourceId != "" && s.cwd != "" && s.events != []
    && IsForest(s.branches)
    && WellFormed(s.events)
    && forall i :: 0 <= i < |s.branches| ==> s.branches[i].events != [] && WellFormed(s.branches[i].events)
  }

  /** Rejects corrupt or unrepresentable histories; accepts exactly the valid ones. */
  method Validate(s: Session) returns (ok: bool)
    ensures ok <==> SessionValid(s)
  {
    hide WellFormed, IsForest;
    if s.sourceId == "" || s.cwd == "" || s.events == [] { return false; }
    var forestFault, _ := OrderedBranches(s.branches);
    if forestFault.Some? { return false; }
    var fault, _, _, _ := ValidateEvents(s.events);
    if fault.Some? { return false; }
    for i := 0 to |s.branches|
      invariant forall k :: 0 <= k < i ==> s.branches[k].events != [] && WellFormed(s.branches[k].events)
    {
      if s.branches[i].events == [] { return false; }
      var branchFault, _, _, _ := ValidateEvents(s.branches[i].events);
      if branchFault.Some? { return false; }
    }
    return true;
  }

  // ----- nothing removed -----

  function Size(c: Counts): nat { c.reasoning + c.media + c.toolResults + c.textParts + c.collapsed }

  lemma PartUntouched(r: Rung, env: Prosing, home: map<string, nat>, i: nat, role: string, p: Part, w: Work)
    ensures var (kept, w') := ReducePart(r, env, home, i, role, p, w);
      Size(w'.counts) >= Size(w.counts) && (Size(w'.counts) == Size(w.counts) ==> kept == Some(p) && w' == w)
  {
    hide Truncate, PathOf;
  }

  lemma {:induction false} PartsUntouched(r: Rung, env: Prosing, home: map<string, nat>, i: nat, role: string,
                                          parts: seq<Part>, w: Work)
    ensures var (kept, w') := ReduceParts(r, env, home, i, role, parts, w);
      Size(w'.counts) >= Size(w.counts) && (Size(w'.counts) == Size(w.counts) ==> kept == parts && w' == w)
    decreases |parts|
  {
    hide ReducePart, Size;
    if parts != [] {
      PartUntouched(r, env, home, i, role, parts[0], w);
      var w1 := ReducePart(r, env, home, i, role, parts[0], w).1;
      PartsUntouched(r, env, home, i, role, parts[1..], w1);
    }
  }

  lemma {:induction false} EventsUntouched(r: Rung, env: Prosing, home: map<string, nat>, i: nat, events: seq<Event>, w: Work)
    requires forall k :: 0 <= k < |events| ==> EventFault(events[k]).None?
    ensures var (kept, w') := ReduceEvents(r, env, home, i, events, w);
      Size(w'.counts) >= Size(w.counts) && (Size(w'.counts) == Size(w.counts) ==> kept == events && w' == w)
    decreases |events|
  {
    hide ReduceParts, Size;
    if events != [] {
      PartsUntouched(r, env, home, i, events[0].role, events[0].parts, w);
      var w1 := ReduceEvent(r, env, home, i, events[0], w).1;
      EventsUntouched(r, env, home, i + 1, events[1..], w1);
    }
  }

  lemma {:induction false} NoEventFault(s: Scan, events: seq<Event>)
    requires CheckEvents(s, events).Fine?
    ensures forall k :: 0 <= k < |events| ==> EventFault(events[k]).None?
    decreases |events|
  {
    hide CheckParts;
    if events != [] {
      NoEventFault(CheckEvent(s, events[0]).scan, events[1..]);
      forall k | 0 <= k < |events| ensures EventFault(events[k]).None? {
        if k > 0 { assert events[k] == events[1..][k - 1]; }
      }
    }
  }

  lemma CollapsedOrNot(env: Prosing, now: int, keepRecent: nat, events: seq<Event>, w: Work)
    ensures var (out, w') := Collapsed(env, now, keepRecent, events, w);
      w'.counts.collapsed == 0 ==> out == events && w' == w
  {
    hide CallsIn, AnswersIn, HasToolCall;
  }

  lemma ThinnedUntouched(env: Prosing, events: seq<Event>, r: Rung)
    requires WellFormed(events) && Thinned(r, env, events).1.counts == NOTHING
    ensures Thinned(r, env, events).0 == events
  {
    hide ReduceEvents;
    NoFaults(events);
    EventsUntouched(r, env, ResultEventIndex(events), 0, events, Work([], NOTHING));
  }

  /** A rung that counts nothing removed leaves the events as they were. */
  lemma NothingRemoved(env: Prosing, now: int, history: Session, r: Rung)
    requires WellFormed(history.events) && Apply(env, now, history, r).counts == NOTHING
    ensures Apply(env, now, history, r).session.events == history.events
  {
    hide WellFormed, Thinned, Collapsed;
    var (thin, w) := Thinned(r, env, history.events);
    if r.keepRecent > 0 { CollapsedOrNot(env, now, r.keepRecent, thin, w); }
    ThinnedUntouched(env, history.events, r);
  }

  /** The source is a note and then exactly `body`. */
  predicate OpensWith(history: Session, note: Prose, now: int, body: seq<Event>) {
    history.events != [] && history.events[0] == UserNote(note, FirstTimestamp(body, now)) && history.events[1..] == body
  }

  /** A rung leaves the events as they were exactly when it counts nothing removed, or when the source already opens with
      the digest the rung puts in front and what follows is what the rung leaves. */
  lemma {:induction false} UnchangedExactly(env: Prosing, now: int, history: Session, r: Rung)
    requires WellFormed(history.events)
    ensures var c, (body, w) := Apply(env, now, history, r), Body(env, now, history.events, r);
      c.session.events == history.events <==> c.counts == NOTHING || OpensWith(history, env.digest(history, c.counts), now, body)
  {
    hide WellFormed, Body;
    var c, body := Apply(env, now, history, r), Body(env, now, history.events, r).0;
    if c.counts == NOTHING {
      NothingRemoved(env, now, history, r);
    } else {
      var note := UserNote(env.digest(history, c.counts), FirstTimestamp(body, now));
      assert c.session.events == [note] + body && ([note] + body)[1..] == body;
      assert history.events != [] ==> history.events == [history.events[0]] + history.events[1..];
    }
  }

  lemma {:induction false} NoFaults(events: seq<Event>)
    requires WellFormed(events)
    ensures forall k :: 0 <= k < |events| ==> EventFault(events[k]).None?
  {
    NoEventFault(UNREAD, events);
  }

  // ----- one rung, as the source runs it -----

  method CollapseOldTurns(env: Prosing, now: int, keepRecent: nat, events: seq<Event>, w: Work)
    returns (out: seq<Event>, w': Work)
    ensures WellFormed(events) ==> (out, w') == Collapsed(env, now, keepRecent, events, w)
  {
    hide WellFormed, CallsIn, AnswersIn;
    if |events| <= keepRecent + 2 { return events, w; }
    var head := 0;
    var first := events[0];
    if first.kind.Message? && first.role == "user" {
      var calls := false;
      for j := 0 to |first.parts|
        invariant calls <==> exists k :: 0 <= k < j && first.parts[k].kind.ToolCall?
      {
        if first.parts[j].kind.ToolCall? { calls := true; }
      }
      if !calls { head := 1; }
    }
    assert head == HeadSize(events);
    var start := Boundary(events, |events| - keepRecent, head);
    if start <= head { return events, w; }
    var elided := events[head..start];
    var shard := Shard("collapsed_turns", head, "", "", env.render(elided));
    var brief := UserNote(env.brief(elided, PathOf(env, w, shard)), FirstTimestamp(events[start..], now));
    out := events[..head] + [brief] + events[start..];
    w' := Archived(w, shard).(counts := w.counts.(collapsed := |elided|));
  }

  lemma {:induction false} ReducePartsSnoc(r: Rung, env: Prosing, home: map<string, nat>, i: nat, role: string,
                                           parts: seq<Part>, p: Part, w: Work)
    ensures var (kept, w1) := ReduceParts(r, env, home, i, role, parts, w);
      var (k, w2) := ReducePart(r, env, home, i, role, p, w1);
      ReduceParts(r, env, home, i, role, parts + [p], w) == (kept + (if k.Some? then [k.value] else []), w2)
    decreases |parts|
  {
    hide ReducePart;
    if parts == [] {
      assert parts + [p] == [p] && [p][1..] == [];
      var k := ReducePart(r, env, home, i, role, p, w).0;
      var back := if k.Some? then [k.value] else [];
      assert back + [] == back && [] + back == back;
    } else {
      assert (parts + [p])[0] == parts[0] && (parts + [p])[1..] == parts[1..] + [p];
      var (first, w0) := ReducePart(r, env, home, i, role, parts[0], w);
      var (rest, w1) := ReduceParts(r, env, home, i, role, parts[1..], w0);
      var k := ReducePart(r, env, home, i, role, p, w1).0;
      ReducePartsSnoc(r, env, home, i, role, parts[1..], p, w0);
      var front := if first.Some? then [first.value] else [];
      var back := if k.Some? then [k.value] else [];
      assert front + (rest + back) == (front + rest) + back;
    }
  }

  lemma {:induction false} ReduceEventsSnoc(r: Rung, env: Prosing, home: map<string, nat>, i: nat, events: seq<Event>,
                                            e: Event, w: Work)
    ensures var (out, w1) := ReduceEvents(r, env, home, i, events, w);
      var (last, w2) := ReduceEvent(r, env, home, i + |events|, e, w1);
      ReduceEvents(r, env, home, i, events + [e], w) == (out + last, w2)
    decreases |events|
  {
    hide ReduceEvent;
    if events == [] {
      assert events + [e] == [e] && [e][1..] == [];
      var last := ReduceEvent(r, env, home, i, e, w).0;
      assert last + [] == last && [] + last == last;
    } else {
      assert (events + [e])[0] == events[0] && (events + [e])[1..] == events[1..] + [e];
      var (first, w0) := ReduceEvent(r, env, home, i, events[0], w);
      var (rest, w1) := ReduceEvents(r, env, home, i + 1, events[1..], w0);
      var last := ReduceEvent(r, env, home, i + |events|, e, w1).0;
      ReduceEventsSnoc(r, env, home, i + 1, events[1..], e, w0);
      assert first + (rest + last) == (first + rest) + last;
    }
  }

  /** Builds one candidate from the pristine source. */
  method ApplyReduction(env: Prosing, now: int, history: Session, r: Rung) returns (c: Candidate)
    ensures r.keepRecent == 0 || WellFormed(Thinned(r, env, history.events).0) ==> c == Apply(env, now, history, r)
  {
    var home := ResultEventIndex(history.events);
    var events: seq<Event> := [];
    var w := Work([], NOTHING);
    for i := 0 to |history.events|
      invariant (events, w) == ReduceEvents(r, env, home, 0, history.events[..i], Work([], NOTHING))
    {
      hide ReduceEvents, ReduceParts, ReducePart, Thinned, WellFormed, Apply, FirstTimestamp, ResultEventIndex, Blank;
      var event := history.events[i];
      assert history.events[..i + 1] == history.events[..i] + [event];
      ReduceEventsSnoc(r, env, home, 0, history.events[..i], event, Work([], NOTHING));
      if event.kind.Plan? {
        events := events + [event];
        continue;
      }
      var parts;
      parts, w := ReduceEach(r, env, home, i, event, w);
      assert events + [] == events;
      if parts != [] { events := events + [event.(parts := parts)]; }
    }
    assert history.events[..|history.events|] == history.events;
    hide ReduceEvents, ResultEventIndex, WellFormed, FirstTimestamp, Blank;
    if r.keepRecent > 0 {
      events, w := CollapseOldTurns(env, now, r.keepRecent, events, w);
    }
    var title := if Blank(history.title) then env.titleOf(history) else history.title;
    if w.counts != NOTHING {
      events := [UserNote(env.digest(history, w.counts), FirstTimestamp(events, now))] + events;
    }
    c := Candidate(history.(title := title, events := events), w.shards, w.counts);
  }

  method ReduceEach(r: Rung, env: Prosing, home: map<string, nat>, i: nat, event: Event, start: Work)
    returns (parts: seq<Part>, w: Work)
    ensures (parts, w) == ReduceParts(r, env, home, i, event.role, event.parts, start)
  {
    parts, w := [], start;
    NoPartsYet(r, env, home, i, event.role, start);
    assert event.parts[..0] == [];
    for j := 0 to |event.parts|
      invariant (parts, w) == ReduceParts(r, env, home, i, event.role, event.parts[..j], start)
    {
      hide ReduceParts, ReducePart;
      assert event.parts[..j + 1] == event.parts[..j] + [event.parts[j]];
      ReducePartsSnoc(r, env, home, i, event.role, event.parts[..j], event.parts[j], start);
      var kept;
      kept, w := ReduceOne(r, env, home, i, event.role, event.parts[j], w);
      assert parts + [] == parts;
      if kept.Some? { parts := parts + [kept.value]; }
    }
    assert event.parts[..|event.parts|] == event.parts;
  }

  lemma {:induction false} NoPartsYet(r: Rung, env: Prosing, home: map<string, nat>, i: nat, role: string, w: Work)
    ensures ReduceParts(r, env, home, i, role, [], w) == ([], w)
  {}

  /** The reduction of one part, branch by branch. */
  method ReduceOne(r: Rung, env: Prosing, home: map<string, nat>, i: nat, role: string, p: Part, w: Work)
    returns (kept: Option<Part>, w': Work)
    ensures (kept, w') == ReducePart(r, env, home, i, role, p, w)
  {
    hide Truncate, ArchiveMedia;
    if p.kind.Reasoning? && r.dropReasoning {
      return None, w.(counts := w.counts.(reasoning := w.counts.reasoning + 1));
    }
    if p.kind.Media? && r.stripMedia {
      var (converted, w1) := ArchiveMedia(env, p, role, i, home, w);
      return converted, w1.(counts := w1.counts.(media := w1.counts.media + 1));
    }
    if p.kind.ToolResult? && r.toolResultLimit > 0 && |p.text| > r.toolResultLimit {
      var shard := Shard("tool_result", i, "", p.callId, p.text);
      var text := Truncate(env, p.text, r.toolResultLimit, PathOf(env, w, shard));
      return Some(p.(text := text)), Archived(w, shard).(counts := w.counts.(toolResults := w.counts.toolResults + 1));
    }
    if p.kind.Text? && r.textLimit > 0 && |p.text| > r.textLimit {
      var shard := Shard("message", i, role, "", p.text);
      var text := Truncate(env, p.text, r.textLimit, PathOf(env, w, shard));
      return Some(p.(text := text)), Archived(w, shard).(counts := w.counts.(textParts := w.counts.textParts + 1));
    }
    return Some(p), w;
  }

  // ----- the estimate -----

  predicate ByteIn(s: string, i: nat, low: char, high: char) { i < |s| && low <= s[i] <= high }

  /** How many bytes the first character of a UTF-8 text takes; a byte that begins no whole character stands alone. */
  function RuneSize(s: string): (n: nat)
    requires s != ""
    ensures 1 <= n <= |s| && (s[0] < '\U{80}' ==> n == 1)
  {
    var low := if s[0] == '\U{e0}' then '\U{a0}' else if s[0] == '\U{f0}' then '\U{90}' else '\U{80}';
    var high := if s[0] == '\U{ed}' then '\U{9f}' else if s[0] == '\U{f4}' then '\U{8f}' else '\U{bf}';
    if ByteIn(s, 0, '\U{c2}', '\U{df}') && ByteIn(s, 1, low, high) then 2
    else if ByteIn(s, 0, '\U{e0}', '\U{ef}') && ByteIn(s, 1, low, high) && ByteIn(s, 2, '\U{80}', '\U{bf}') then 3
    else if ByteIn(s, 0, '\U{f0}', '\U{f4}') && ByteIn(s, 1, low, high) && ByteIn(s, 2, '\U{80}', '\U{bf}')
            && ByteIn(s, 3, '\U{80}', '\U{bf}') then 4
    else 1
  }

  /** ASCII characters, and the tokens of all others: two beyond the basic plane, which takes four bytes, else one. */
  function TextCounts(s: string): (nat, nat)
    decreases |s|
  {
    if s == "" then (0, 0)
    else
      var size := RuneSize(s);
      var (ascii, tokens) := TextCounts(s[size..]);
      if s[0] < '\U{80}' then (ascii + 1, tokens) else (ascii, tokens + if size == 4 then 2 else 1)
  }

  /** An ASCII character is two sevenths of a token. */
  function EstimateText(s: string): nat {
    var (ascii, tokens) := TextCounts(s);
    tokens + (ascii * 2 + 6) / 7
  }

  method CountText(s: string) returns (total: nat)
    ensures total == EstimateText(s)
  {
    var ascii, tokens, i := 0, 0, 0;
    assert s[0..] == s;
    while i < |s|
      invariant i <= |s| && (ascii + TextCounts(s[i..]).0, tokens + TextCounts(s[i..]).1) == TextCounts(s)
    {
      hide RuneSize;
      var size := RuneSize(s[i..]);
      assert s[i..][size..] == s[i + size..];
      if s[i] < '\U{80}' { ascii := ascii + 1; }
      else if size == 4 { tokens := tokens + 2; }
      else { tokens := tokens + 1; }
      i := i + size;
    }
    assert s[i..] == "";
    total := tokens + (ascii * 2 + 6) / 7;
  }

  function EstimatePart(p: Part): nat {
    4 + match p.kind
      case Media => 1600
      case ToolCall => EstimateText(p.toolName) + EstimateText(p.data.text)
      case _ => EstimateText(p.text)
  }

  function EstimateParts(parts: seq<Part>): nat {
    if parts == [] then 0 else EstimatePart(parts[0]) + EstimateParts(parts[1..])
  }

  function EstimateEvent(e: Event): nat {
    8 + if e.kind.Plan? then EstimateText(e.planText) else EstimateParts(e.parts)
  }

  function EstimateEvents(events: seq<Event>): nat {
    if events == [] then 0 else EstimateEvent(events[0]) + EstimateEvents(events[1..])
  }

  method EstimateTokens(events: seq<Event>) returns (total: nat)
    ensures total == EstimateEvents(events)
  {
    total := 0;
    for i := 0 to |events|
      invariant total + EstimateEvents(events[i..]) == EstimateEvents(events)
    {
      hide EstimateText;
      var event := events[i];
      assert events[i..][0] == event && events[i..][1..] == events[i + 1..];
      total := total + 8;
      if event.kind.Plan? {
        var text := CountText(event.planText);
        total := total + text;
        continue;
      }
      ghost var before := total;
      for j := 0 to |event.parts|
        invariant total + EstimateParts(event.parts[j..]) == before + EstimateParts(event.parts)
      {
        assert event.parts[j..][0] == event.parts[j] && event.parts[j..][1..] == event.parts[j + 1..];
        total := total + EstimatePart(event.parts[j]);
      }
      assert event.parts[|event.parts|..] == [];
    }
    assert events[|events|..] == [];
  }

  // ----- the search -----

  datatype Report = Report(budget: int, before: nat, after: nat, fit: bool, counts: Counts)

  datatype Result =
    | NoArchiveDirectory
    | NoBudget
    | Untransferable(level: nat)
    | Compacted(session: Session, archive: Option<seq<Shard>>, report: Report)

  function Rungs(): seq<Rung> { LADDER }

  predicate FitsAt(env: Prosing, opts: Options, history: Session, level: nat)
    requires level < |LADDER|
  {
    EstimateEvents(Apply(env, opts.now, history, LADDER[level]).session.events) <= opts.budget
  }

  /** `level` is the first rung that fits, or the last of the ladder if none does. */
  ghost predicate Chosen(env: Prosing, opts: Options, history: Session, level: nat) {
    && level < |LADDER|
    && (forall k :: 0 <= k < level ==> !FitsAt(env, opts, history, k))
    && (FitsAt(env, opts, history, level) || level == |LADDER| - 1)
  }

  lemma CandidateValid(env: Prosing, now: int, history: Session, r: Rung)
    requires SessionValid(history)
    ensures (r.stripMedia ==> MediaTogether(history.events)) ==> SessionValid(Apply(env, now, history, r).session)
    ensures r.keepRecent == 0 && SessionValid(Apply(env, now, history, r).session) ==>
      (r.stripMedia ==> MediaTogether(history.events))
  {
    hide Body, IsForest, MediaTogether;
    BodyWellFormed(env, now, history.events, r);
    var (events, w) := Body(env, now, history.events, r);
    DigestIsNeutral(env, now, history, events, w.counts);
    if w.counts == NOTHING { NothingRemoved(env, now, history, r); }
  }

  lemma LadderSize()
    ensures |LADDER| == 13
  {}

  /** The ladder strips media from rung 8 on and collapses turns from rung 9 on. */
  lemma LadderShape(k: nat)
    requires k < |LADDER|
    ensures LADDER[k].stripMedia <==> k >= 8
    ensures LADDER[k].keepRecent > 0 <==> k >= 9
  {}

  /** Reduces a valid session until its estimate fits.  It fails only when media must be
      stripped and the media answering one call alone are spread over two events; otherwise
      the result is valid, is the first rung that fits or else the last, and has an archive
      exactly when something was removed. */
  method CompactSession(env: Prosing, opts: Options, history: Session) returns (result: Result)
    ensures result.NoArchiveDirectory? <==> opts.archiveDir == ""
    ensures result.NoBudget? <==> opts.archiveDir != "" && opts.budget <= 0
    ensures SessionValid(history) && opts.archiveDir != "" && opts.budget > 0 ==>
      (result.Untransferable? <==> !MediaTogether(history.events) && forall k :: 0 <= k < 8 ==> !FitsAt(env, opts, history, k))
    ensures SessionValid(history) && result.Untransferable? ==> result.level == 8
    ensures SessionValid(history) && result.Compacted? ==>
      && SessionValid(result.session)
      && (exists level :: Chosen(env, opts, history, level) && Describes(env, opts, history, level, result) && Delivers(env, opts, history, level, result))
      && (result.report.fit <==> EstimateEvents(result.session.events) <= opts.budget)
      && result.report.after == EstimateEvents(result.session.events)
      && result.report.before == EstimateEvents(history.events)
      && (result.archive.None? ==> result.session.events == history.events)
      && NothingLost(env, history, result.session.events, ArchiveOf(result))
      && |ArchiveOf(result)| == Shards(result.report.counts)
  {
    hide SessionValid, MediaTogether, Apply, EstimateEvents, LADDER, NothingLost, Delivers;
    if opts.archiveDir == "" { return NoArchiveDirectory; }
    if opts.budget <= 0 { return NoBudget; }
    var before := EstimateTokens(history.events);
    var rungs := Rungs();
    LadderSize();
    var chosen := history;
    var shards: seq<Shard> := [];
    var report := Report(opts.budget, before, before, false, NOTHING);
    var i := 0;
    while i < |rungs|
      invariant 0 <= i <= |rungs| == |LADDER|
      invariant SessionValid(history) ==> forall k :: 0 <= k < i ==> !FitsAt(env, opts, history, k)
      invariant SessionValid(history) && i > 8 ==> MediaTogether(history.events)
      invariant SessionValid(history) && i > 0 ==>
        && SessionValid(chosen) && Candidate(chosen, shards, report.counts) == Apply(env, opts.now, history, LADDER[i - 1])
        && report.after == EstimateEvents(chosen.events) > opts.budget
      invariant report.budget == opts.budget && report.before == before && !report.fit
      decreases |rungs| - i
    {
      var c := ApplyReduction(env, opts.now, history, rungs[i]);
      var after := EstimateTokens(c.session.events);
      var ok := Validate(c.session);
      LadderShape(i);
      if SessionValid(history) { CandidateKnown(env, opts.now, history, rungs[i], i, c); }
      if !ok { return Untransferable(i); }
      chosen, shards := c.session, c.shards;
      report := report.(after := after, counts := c.counts);
      if after <= opts.budget {
        report := report.(fit := true);
        if SessionValid(history) { assert Chosen(env, opts, history, i); }
        break;
      }
      i := i + 1;
    }
    ghost var level := if i < |rungs| then i else |rungs| - 1;
    var archive := if RemovedNothing(report) then None else Some(shards);
    result := Compacted(chosen, archive, report);
    if SessionValid(history) {
      assert Chosen(env, opts, history, level);
      if report.counts == NOTHING { Unchanged(env, opts, history, level); }
      DescribedDelivers(env, opts, history, level, result);
    }
  }

  predicate RemovedNothing(report: Report) { report.before == report.after && report.counts == NOTHING }

  /** The result is the candidate of rung `level`, with its archive unless nothing was removed. */
  ghost predicate Describes(env: Prosing, opts: Options, history: Session, level: nat, result: Result)
    requires result.Compacted? && level < |LADDER|
  {
    var c := Apply(env, opts.now, history, LADDER[level]);
    && result.session == c.session && result.report.counts == c.counts
    && result.archive == if c.counts == NOTHING then None else Some(c.shards)
  }

  function ArchiveOf(result: Result): seq<Shard>
    requires result.Compacted?
  {
    if result.archive.Some? then result.archive.value else []
  }

  /** One shard for each payload counted, and one for a run of turns. */
  function Shards(counts: Counts): nat { counts.media + counts.toolResults + counts.textParts + if counts.collapsed > 0 then 1 else 0 }

  /** The session and the archive are what rung `level` makes of the thread. */
  ghost predicate Delivers(env: Prosing, opts: Options, history: Session, level: nat, result: Result)
    requires result.Compacted? && level < |LADDER|
  {
    Accounts(env, opts.now, history, LADDER[level], Candidate(result.session, ArchiveOf(result), result.report.counts))
  }

  lemma {:induction false} DescribedDelivers(env: Prosing, opts: Options, history: Session, level: nat, result: Result)
    requires result.Compacted? && level < |LADDER| && Describes(env, opts, history, level, result)
    ensures Delivers(env, opts, history, level, result)
    ensures NothingLost(env, history, result.session.events, ArchiveOf(result)) && |ArchiveOf(result)| == Shards(result.report.counts)
  {
    var c := Apply(env, opts.now, history, LADDER[level]);
    CandidateAccounts(env, opts.now, history, LADDER[level]);
    NothingIsLost(env, opts.now, history, LADDER[level], c);
    hide Apply, LADDER, Accounts, NothingLost;
    assert |c.shards| == Shards(c.counts);
    if c.counts == NOTHING { assert c.shards == []; }
    assert c == Candidate(result.session, ArchiveOf(result), result.report.counts);
  }

  lemma Unchanged(env: Prosing, opts: Options, history: Session, level: nat)
    requires SessionValid(history) && level < |LADDER|
    requires Apply(env, opts.now, history, LADDER[level]).counts == NOTHING
    ensures Apply(env, opts.now, history, LADDER[level]).session.events == history.events
  {
    hide Apply;
    NothingRemoved(env, opts.now, history, LADDER[level]);
  }

  /** What one round of the search learns about a valid session. */
  lemma CandidateKnown(env: Prosing, now: int, history: Session, r: Rung, level: nat, c: Candidate)
    requires SessionValid(history)
    requires r.stripMedia <==> level >= 8
    requires r.keepRecent > 0 <==> level >= 9
    requires level >= 9 ==> MediaTogether(history.events)
    requires r.keepRecent == 0 || WellFormed(Thinned(r, env, history.events).0) ==> c == Apply(env, now, history, r)
    ensures c == Apply(env, now, history, r)
    ensures SessionValid(c.session) <==> level < 8 || MediaTogether(history.events)
  {
    hide Apply, Thinned, MediaTogether, WellFormed;
    ThinnedWellFormed(r, env, history.events);
    TogetherExactly(r, history.events);
    CandidateValid(env, now, history, r);
  }

  /** Over every rung: a call the compacted session still makes is unanswered in it exactly
      when it was unanswered in the source, or media were stripped and its only answers were
      media in an assistant message. */
  lemma CompactionKeepsAnswers(env: Prosing, now: int, history: Session, r: Rung, id: string)
    requires SessionValid(history) && (r.stripMedia ==> MediaTogether(history.events))
    ensures SessionValid(Apply(env, now, history, r).session)
    ensures var out := Apply(env, now, history, r).session.events;
      && IsSuffix(ScanOf(out).order, ScanOf(history.events).order)
      && (r.keepRecent == 0 ==> ScanOf(out).order == ScanOf(history.events).order)
      && (id in ScanOf(out).order ==>
          (id in Dangling(out) <==>
            id in Dangling(history.events) || (r.stripMedia && OnlyAssistantMedia(r, history.events, id))))
  {
    hide Apply, Thinned, MediaTogether, WellFormed, Collapsed, SessionValid, OnlyAssistantMedia;
    CandidateValid(env, now, history, r);
    assert WellFormed(history.events) by { ValidIsWellFormed(history); }
    ThinnedWellFormed(r, env, history.events);
    TogetherExactly(r, history.events);
    ThinnedDangling(r, env, history.events, id);
    var (thin, w) := Thinned(r, env, history.events);
    if r.keepRecent > 0 { CollapsedStandsAlone(env, now, r.keepRecent, thin, w); }
    AppliedScan(env, now, history, r);
    ValidIsWellFormed(Apply(env, now, history, r).session);
    var out := Apply(env, now, history, r).session.events;
    UnansweredMembers(ScanOf(out).order, ScanOf(out).answered, id);
    UnansweredMembers(ScanOf(thin).order, ScanOf(thin).answered, id);
  }

  lemma ValidIsWellFormed(s: Session)
    requires SessionValid(s)
    ensures WellFormed(s.events)
  {}

  lemma AppliedScan(env: Prosing, now: int, history: Session, r: Rung)
    ensures CheckEvents(UNREAD, Apply(env, now, history, r).session.events) == CheckEvents(UNREAD, Body(env, now, history.events, r).0)
  {
    hide Body;
    var (events, w) := Body(env, now, history.events, r);
    DigestIsNeutral(env, now, history, events, w.counts);
  }

  // ----- a session that compaction cannot reduce -----

  /** A call whose screenshots arrived in two messages. */
  function Spread(source: string): Session {
    var call := Part(ToolCall, "c", "look", "", RawJson("{}", Some(JObject(map[]))), false, "", "", "", "");
    var shot := Part(Media, "c", "", "", NO_DATA, false, SHOT.mediaType, SHOT.data, "", "");
    Session(source, "s", "/", "", "", 0, 0,
      [Event(Message, "assistant", 1, [call], ""), Event(Message, "user", 2, [shot], ""), Event(Message, "user", 3, [shot], "")], [], [])
  }

  /** It is valid, nothing in it can be reduced while media stay, and no budget below what its media cost fits it. */
  lemma {:induction false} SpreadIsUntransferable(env: Prosing, opts: Options, source: string)
    requires 0 < opts.budget < 3200
    ensures SessionValid(Spread(source)) && !MediaTogether(Spread(source).events)
    ensures forall k :: 0 <= k < 8 ==> !FitsAt(env, opts, Spread(source), k)
  {
    SpreadIsValid(source);
    SpreadIsApart(source);
    SpreadCost(source);
    hide SessionValid, MediaTogether, EstimateEvents, Spread, Thinned;
    forall k | 0 <= k < 8 ensures !FitsAt(env, opts, Spread(source), k) {
      LadderShape(k);
      SpreadStays(env, source, LADDER[k]);
    }
  }

  /** A part that a rung which keeps media does not touch. */
  lemma {:induction false} EventStays(r: Rung, env: Prosing, home: map<string, nat>, i: nat, e: Event, w: Work)
    requires !r.stripMedia && |e.parts| == 1 && (e.parts[0].kind.Media? || e.parts[0].kind.ToolCall?)
    ensures ReduceEvent(r, env, home, i, e, w) == ([e], w)
  {
    hide Truncate, ArchiveMedia;
    var p := e.parts[0];
    assert ReducePart(r, env, home, i, e.role, p, w) == (Some(p), w);
    assert e.parts[1..] == [] && [p] + [] == e.parts;
    assert ReduceParts(r, env, home, i, e.role, [], w) == ([], w);
    assert ReduceParts(r, env, home, i, e.role, e.parts, w) == (e.parts, w);
    assert e.(parts := e.parts) == e;
  }

  /** Events that are not touched one by one are not touched together. */
  lemma {:induction false} EventsStay(r: Rung, env: Prosing, home: map<string, nat>, i: nat, events: seq<Event>, w: Work)
    requires !r.stripMedia
    requires forall e :: e in events ==> |e.parts| == 1 && (e.parts[0].kind.Media? || e.parts[0].kind.ToolCall?)
    ensures ReduceEvents(r, env, home, i, events, w) == (events, w)
    decreases |events|
  {
    hide ReduceEvent;
    if events != [] {
      EventStays(r, env, home, i, events[0], w);
      EventsStay(r, env, home, i + 1, events[1..], w);
      assert [events[0]] + events[1..] == events;
    }
  }

  lemma {:induction false} SpreadStays(env: Prosing, source: string, r: Rung)
    requires !r.stripMedia
    ensures Thinned(r, env, Spread(source).events) == (Spread(source).events, Work([], NOTHING))
  {
    var events := Spread(source).events;
    EventsStay(r, env, ResultEventIndex(events), 0, events, Work([], NOTHING));
  }

  /** Each of the two media costs 1600 tokens. */
  lemma {:induction false} SpreadCost(source: string)
    ensures EstimateEvents(Spread(source).events) >= 3200
  {
    hide EstimateText;
    var events := Spread(source).events;
    assert events[1..] == [events[1], events[2]] && events[1..][1..] == [events[2]] && [events[2]][1..] == [];
    assert events[1].parts[1..] == [] && events[2].parts[1..] == [];
    assert EstimateEvent(events[1]) >= 1600 && EstimateEvent(events[2]) >= 1600;
    hide EstimateEvent;
    assert EstimateEvents([events[2]]) >= 1600;
    assert EstimateEvents([events[1], events[2]]) >= 3200;
  }

  lemma {:induction false} SpreadParts(source: string, s: Scan)
    requires s.order == ["c"]
    ensures CheckPart(UNREAD, "assistant", Spread(source).events[0].parts[0]) == Fine(UNREAD.(order := ["c"]))
    ensures CheckPart(s, "user", Spread(source).events[1].parts[0]) == Fine(s.(answered := s.answered + {"c"}))
  {
    ShotCarries();
    hide Blank, IsBase64, Carried, Carries;
  }

  lemma {:induction false} OneChecked(s: Scan, e: Event, s': Scan)
    requires e.kind.Message? && e.role in {"user", "assistant"} && |e.parts| == 1 && CheckPart(s, e.role, e.parts[0]) == Fine(s') && Settle(s') == s'
    ensures CheckEvent(s, e) == Fine(s')
  {
    hide CheckPart;
    OnlyPart(s, e.role, e.parts[0]);
    assert e.parts == [e.parts[0]];
  }

  lemma {:induction false} SpreadIsValid(source: string)
    ensures SessionValid(Spread(source))
  {
    var events := Spread(source).events;
    assert IsForest([]);
    assert events[1..] == [events[1], events[2]] && events[1..][1..] == [events[2]] && [events[2]][1..] == [];
    var s1 := UNREAD.(order := ["c"]);
    var s2 := s1.(answered := s1.answered + {"c"});
    assert s2.answered + {"c"} == s2.answered;
    assert Settle(s1) == s1 && Settle(s2) == s2 by { assert UNREAD.settled + {} == UNREAD.settled; }
    SpreadParts(source, s1);
    SpreadParts(source, s2);
    hide CheckPart, Settle;
    OneChecked(UNREAD, events[0], s1);
    OneChecked(s1, events[1], s2);
    OneChecked(s2, events[2], s2);
    hide CheckEvent;
    assert CheckEvents(s2, [events[2]]) == Fine(s2);
    assert CheckEvents(s1, [events[1], events[2]]) == Fine(s2);
    assert CheckEvents(UNREAD, events) == Fine(s2);
  }

  lemma {:induction false} OnlyPart(s: Scan, role: string, p: Part)
    ensures CheckParts(s, role, [p]) == CheckPart(s, role, p)
  {
    hide CheckPart;
    assert [p][1..] == [];
  }

  lemma {:induction false} SpreadIsApart(source: string)
    ensures !MediaTogether(Spread(source).events)
  {
    var events := Spread(source).events;
    assert events[1].parts[1..] == [];
    assert "c" in MediaAnswers(events[1]) && "c" in MediaAnswers(events[2]);
    NoResultThere(events, "c");
  }

  lemma {:induction false} NoResultThere(events: seq<Event>, id: string)
    requires forall e, p :: e in events && p in e.parts ==> !p.kind.ToolResult?
    ensures !HasResult(events, id)
  {
    hide ResultIds;
    NoneBefore(events, |events|, id);
  }

  lemma {:induction false} NoneIds(parts: seq<Part>)
    requires forall p :: p in parts ==> !p.kind.ToolResult?
    ensures ResultIds(parts) == {}
  {
    if parts != [] { NoneIds(parts[1..]); }
  }

  lemma {:induction false} NoneBefore(events: seq<Event>, n: nat, id: string)
    requires n <= |events| && forall e, p :: e in events && p in e.parts ==> !p.kind.ToolResult?
    ensures id !in ResultsBefore(events, n)
    decreases n
  {
    if n > 0 {
      NoneBefore(events, n - 1, id);
      NoneIds(events[n - 1].parts);
    }
  }
}
