/** One rung of the compaction ladder, applied to the pristine event stream
    (internal/session/compact.go:152-434).  Prose (file names, markers, digest, brief) is
    whatever functions the caller supplies, as long as a text that stands for content is
    not empty. */
module Reduction {
  import opened Basics
  import opened Text
  import opened Conversation
  import opened MediaUrl

  type Prose = s: string | s != "" witness "."

  datatype Rung = Rung(dropReasoning: bool, toolResultLimit: nat, textLimit: nat, stripMedia: bool, keepRecent: nat)

  const LADDER: seq<Rung> := [
    Rung(false, 0, 0, false, 0),
    Rung(true, 0, 0, false, 0),
    Rung(true, 8000, 0, false, 0),
    Rung(true, 2000, 0, false, 0),
    Rung(true, 600, 0, false, 0),
    Rung(true, 600, 6000, false, 0),
    Rung(true, 600, 2000, false, 0),
    Rung(true, 300, 2000, false, 0),
    Rung(true, 300, 2000, true, 0),
    Rung(true, 300, 2000, true, 60),
    Rung(true, 300, 2000, true, 30),
    Rung(true, 300, 2000, true, 14),
    Rung(true, 300, 2000, true, 6)
  ]

  /** One file of the archive and the content it stands for. */
  datatype Shard = Shard(kind: string, event: nat, role: string, callId: string, payload: string)

  datatype Counts = Counts(reasoning: nat, media: nat, toolResults: nat, textParts: nat, collapsed: nat)

  const NOTHING := Counts(0, 0, 0, 0, 0)

  datatype Prosing = Prosing(
    pathOf: (nat, Shard) -> string, elision: (nat, nat, string) -> Prose, mediaNote: (Part, string) -> Prose,
    render: seq<Event> -> string, brief: (seq<Event>, string) -> Prose, digest: (Session, Counts) -> Prose, titleOf: Session -> string)

  /** What the loop accumulates beside the events. */
  datatype Work = Work(shards: seq<Shard>, counts: Counts)

  function Archived(w: Work, shard: Shard): Work { w.(shards := w.shards + [shard]) }

  function PathOf(env: Prosing, w: Work, shard: Shard): string { env.pathOf(|w.shards|, shard) }

  // ----- truncation -----

  function Newlines(s: string): nat {
    if s == "" then 0 else (if s[0] == '\n' then 1 else 0) + Newlines(s[1..])
  }

  /** Index of the first newline, or the length. */
  function FirstNewline(s: string): (i: nat)
    ensures i <= |s| && (i < |s| ==> s[i] == '\n') && forall k :: 0 <= k < i ==> s[k] != '\n'
  {
    if s == "" || s[0] == '\n' then 0 else 1 + FirstNewline(s[1..])
  }

  /** Index just past the last newline, or 0. */
  function PastLastNewline(s: string): (i: nat)
    ensures i <= |s| && (i > 0 ==> s[i - 1] == '\n') && forall k :: i <= k < |s| ==> s[k] != '\n'
  {
    if s == "" then 0 else if s[|s| - 1] == '\n' then |s| else PastLastNewline(s[..|s| - 1])
  }

  /** How much of the opening is kept: back to a newline, unless that costs over a quarter. */
  function HeadLength(s: string): (n: nat)
    ensures n <= |s| && |s| - n <= |s| / 4
  {
    var i := PastLastNewline(s);
    if i > 0 && |s| - (i - 1) <= |s| / 4 then i - 1 else |s|
  }

  /** Where the closing starts: past a newline, unless that costs over a quarter. */
  function TailStart(s: string): (n: nat)
    ensures n <= |s|
  {
    var i := FirstNewline(s);
    if i < |s| && i <= |s| / 4 then i + 1 else 0
  }

  /** How many bytes of the opening and of the closing a cap on the payload keeps. */
  function Opening(text: string, cap: nat): (h: nat)
    requires cap <= |text|
    ensures h <= cap * 6 / 10 && 4 * h >= 3 * (cap * 6 / 10)
  {
    HeadLength(text[..cap * 6 / 10])
  }

  function Closing(text: string, cap: nat): (t: nat)
    requires cap <= |text|
    ensures t <= cap - cap * 6 / 10
  {
    var tail := cap - cap * 6 / 10;
    tail - TailStart(text[|text| - tail..])
  }

  function Cap(limit: nat): nat { if limit < 200 then 200 else limit }

  function Truncate(env: Prosing, text: string, limit: nat, path: string): string {
    if Cap(limit) >= |text| then text
    else
      var h := Opening(text, Cap(limit));
      var t := Closing(text, Cap(limit));
      var elided := |text| - h - t;
      var lines := Newlines(text) + 1;
      var kept := Newlines(text[..h]) + Newlines(text[|text| - t..]) + 2;
      text[..h] + "\n\n" + env.elision(elided, Max(0, lines - kept), path) + "\n\n" + text[|text| - t..]
  }

  /** `r` is the first `h` bytes of `text`, a note, and its last `t` bytes. */
  predicate KeepsEnds(text: string, r: string, h: nat, t: nat, note: Prose) {
    h + t <= |text| && r == text[..h] + "\n\n" + note + "\n\n" + text[|text| - t..]
  }

  /** A truncated payload keeps a true opening and a true closing that never overlap, within
      the limit, with a note between them; a payload within the limit is untouched. */
  lemma TruncateKeepsEnds(env: Prosing, text: string, limit: nat, path: string)
    ensures var r := Truncate(env, text, limit, path);
      if |text| <= Cap(limit) then r == text
      else exists h: nat, t: nat, note: Prose ::
        KeepsEnds(text, r, h, t, note) && h + t <= Cap(limit) && 4 * h >= 3 * (Cap(limit) * 6 / 10)
  {
    hide Newlines, Opening, Closing;
    if |text| > Cap(limit) {
      var h := Opening(text, Cap(limit));
      var t := Closing(text, Cap(limit));
      var kept := Newlines(text[..h]) + Newlines(text[|text| - t..]) + 2;
      var note := env.elision(|text| - h - t, Max(0, Newlines(text) + 1 - kept), path);
      assert KeepsEnds(text, Truncate(env, text, limit, path), h, t, note);
    }
  }

  lemma TruncateNotEmpty(env: Prosing, text: string, limit: nat, path: string)
    requires text != ""
    ensures Truncate(env, text, limit, path) != ""
  {
    TruncateKeepsEnds(env, text, limit, path);
    if |text| > Cap(limit) {
      var h: nat, t: nat, note: Prose :| KeepsEnds(text, Truncate(env, text, limit, path), h, t, note);
      assert |Truncate(env, text, limit, path)| >= |note|;
    }
  }

  // ----- one part -----

  /** The last event holding a tool result for each call. */
  function ResultEventIndex(events: seq<Event>): map<string, nat> {
    if events == [] then map[]
    else
      var n := |events| - 1;
      ResultEventIndex(events[..n]) + (map id | id in ResultIds(events[n].parts) && id != "" :: n)
  }

  function ResultIds(parts: seq<Part>): set<string> {
    if parts == [] then {}
    else (if parts[0].kind.ToolResult? then {parts[0].callId} else {}) + ResultIds(parts[1..])
  }

  /** An inline payload becomes a reference to its file: a tool result where the call it answers
      must stay answered, text in an assistant or plain message, and nothing where neither fits. */
  function ArchiveMedia(env: Prosing, p: Part, role: string, i: nat, home: map<string, nat>, w: Work): (Option<Part>, Work) {
    var shard := if p.mediaData != "" && IsBase64(p.mediaData) then Shard("media", i, "", p.callId, p.mediaData)
                 else Shard("media_reference", i, "", p.callId, "source URL: " + p.mediaUrl + "\n");
    var note := env.mediaNote(p, PathOf(env, w, shard));
    var w' := Archived(w, shard);
    if role == "assistant" || p.callId == "" then
      (if role == "tool" then None else Some(TextPart(note)), w')
    else if p.callId in home && home[p.callId] != i then (None, w')
    else (Some(ResultPart(p.callId, note)), w')
  }

  function ReducePart(r: Rung, env: Prosing, home: map<string, nat>, i: nat, role: string, p: Part, w: Work)
    : (Option<Part>, Work)
  {
    if p.kind.Reasoning? && r.dropReasoning then
      (None, w.(counts := w.counts.(reasoning := w.counts.reasoning + 1)))
    else if p.kind.Media? && r.stripMedia then
      var (converted, w') := ArchiveMedia(env, p, role, i, home, w);
      (converted, w'.(counts := w'.counts.(media := w'.counts.media + 1)))
    else if p.kind.ToolResult? && r.toolResultLimit > 0 && |p.text| > r.toolResultLimit then
      var shard := Shard("tool_result", i, "", p.callId, p.text);
      var text := Truncate(env, p.text, r.toolResultLimit, PathOf(env, w, shard));
      (Some(p.(text := text)),
       Archived(w, shard).(counts := w.counts.(toolResults := w.counts.toolResults + 1)))
    else if p.kind.Text? && r.textLimit > 0 && |p.text| > r.textLimit then
      var shard := Shard("message", i, role, "", p.text);
      var text := Truncate(env, p.text, r.textLimit, PathOf(env, w, shard));
      (Some(p.(text := text)),
       Archived(w, shard).(counts := w.counts.(textParts := w.counts.textParts + 1)))
    else (Some(p), w)
  }

  function ReduceParts(r: Rung, env: Prosing, home: map<string, nat>, i: nat, role: string, parts: seq<Part>, w: Work)
    : (seq<Part>, Work)
    decreases |parts|
  {
    if parts == [] then ([], w)
    else
      var (kept, w1) := ReducePart(r, env, home, i, role, parts[0], w);
      var (rest, w2) := ReduceParts(r, env, home, i, role, parts[1..], w1);
      ((if kept.Some? then [kept.value] else []) + rest, w2)
  }

  /** An event whose every part was dropped is dropped with them; a plan passes through. */
  function ReduceEvent(r: Rung, env: Prosing, home: map<string, nat>, i: nat, e: Event, w: Work)
    : (seq<Event>, Work)
  {
    if e.kind.Plan? then ([e], w)
    else
      var (parts, w') := ReduceParts(r, env, home, i, e.role, e.parts, w);
      (if parts == [] then [] else [e.(parts := parts)], w')
  }

  /** Reduces `events`, the first of which is number `i` of the source. */
  function ReduceEvents(r: Rung, env: Prosing, home: map<string, nat>, i: nat, events: seq<Event>, w: Work)
    : (seq<Event>, Work)
    decreases |events|
  {
    if events == [] then ([], w)
    else
      var (first, w1) := ReduceEvent(r, env, home, i, events[0], w);
      var (rest, w2) := ReduceEvents(r, env, home, i + 1, events[1..], w1);
      (first + rest, w2)
  }

  // ----- which results a reduced stream holds -----

  /** The call whose tool result a reduced part is, if it is one. */
  function PartEmits(r: Rung, home: map<string, nat>, i: nat, role: string, p: Part): set<string> {
    if p.kind.ToolResult? then {p.callId}
    else if p.kind.Media? && r.stripMedia && role != "assistant" && p.callId != ""
            && !(p.callId in home && home[p.callId] != i) then {p.callId}
    else {}
  }

  function PartsEmit(r: Rung, home: map<string, nat>, i: nat, role: string, parts: seq<Part>): set<string> {
    if parts == [] then {} else PartEmits(r, home, i, role, parts[0]) + PartsEmit(r, home, i, role, parts[1..])
  }

  function EventEmits(r: Rung, home: map<string, nat>, i: nat, e: Event): set<string> {
    if e.kind.Plan? then ResultIds(e.parts) else PartsEmit(r, home, i, e.role, e.parts)
  }

  function EmittedBefore(r: Rung, home: map<string, nat>, events: seq<Event>, n: nat): set<string>
    requires n <= |events|
    decreases n
  {
    if n == 0 then {} else EmittedBefore(r, home, events, n - 1) + EventEmits(r, home, n - 1, events[n - 1])
  }

  /** No call's results end up in two events. */
  ghost predicate ResultsTogether(r: Rung, events: seq<Event>) {
    var home := ResultEventIndex(events);
    forall n :: 0 <= n < |events| ==> EmittedBefore(r, home, events, n) !! EventEmits(r, home, n, events[n])
  }

  // ----- simulation -----

  /** The reduced stream has been read as far as the source: same calls, and its settled
      results are those emitted. */
  ghost predicate InStep(s: Scan, t: Scan, emitted: set<string>) {
    s.order == t.order && t.settled == emitted && s.here == {} && t.here == {}
  }

  ghost predicate PartStaysInStep(r: Rung, home: map<string, nat>, i: nat, role: string, p: Part, kept: Option<Part>,
                                  s: Scan, t: Scan)
    requires CheckPart(s, role, p).Fine?
  {
    var s' := CheckPart(s, role, p).scan;
    var emits := PartEmits(r, home, i, role, p);
    if kept.None? then s'.order == s.order && emits == {}
    else if emits !! t.settled then
      && CheckPart(t, role, kept.value).Fine?
      && var t' := CheckPart(t, role, kept.value).scan;
         t'.order == s'.order && t'.settled == t.settled && t'.here == t.here + emits
    else CheckPart(t, role, kept.value).Bad?
  }

  lemma MediaInStep(r: Rung, env: Prosing, home: map<string, nat>, i: nat, role: string, p: Part, w: Work, s: Scan, t: Scan)
    requires s.order == t.order && CheckPart(s, role, p).Fine? && p.kind.Media?
    ensures PartStaysInStep(r, home, i, role, p, ReducePart(r, env, home, i, role, p, w).0, s, t)
  {
    hide PathOf, Blank;
  }

  lemma TextInStep(r: Rung, env: Prosing, home: map<string, nat>, i: nat, role: string, p: Part, w: Work, s: Scan, t: Scan)
    requires s.order == t.order && CheckPart(s, role, p).Fine? && (p.kind.Text? || p.kind.Reasoning?)
    ensures PartStaysInStep(r, home, i, role, p, ReducePart(r, env, home, i, role, p, w).0, s, t)
  {
    hide Truncate, PathOf;
    TruncateNotEmpty(env, p.text, r.textLimit, PathOf(env, w, Shard("message", i, role, "", p.text)));
  }

  lemma PartInStep(r: Rung, env: Prosing, home: map<string, nat>, i: nat, role: string, p: Part, w: Work, s: Scan, t: Scan)
    requires s.order == t.order && CheckPart(s, role, p).Fine?
    ensures PartStaysInStep(r, home, i, role, p, ReducePart(r, env, home, i, role, p, w).0, s, t)
  {
    if p.kind.Media? {
      MediaInStep(r, env, home, i, role, p, w, s, t);
    } else if p.kind.Text? || p.kind.Reasoning? {
      TextInStep(r, env, home, i, role, p, w, s, t);
    } else {
      hide Truncate, PathOf, Blank, ArchiveMedia;
    }
  }

  lemma {:induction false} PartsInStep(r: Rung, env: Prosing, home: map<string, nat>, i: nat, role: string,
                                       parts: seq<Part>, w: Work, s: Scan, t: Scan)
    requires s.order == t.order && CheckParts(s, role, parts).Fine?
    ensures var kept := ReduceParts(r, env, home, i, role, parts, w).0;
      var s' := CheckParts(s, role, parts).scan;
      var emits := PartsEmit(r, home, i, role, parts);
      && (kept == [] ==> s'.order == s.order && emits == {})
      && (CheckParts(t, role, kept).Fine? <==> emits !! t.settled)
      && (CheckParts(t, role, kept).Fine? ==>
          var t' := CheckParts(t, role, kept).scan;
          t'.order == s'.order && t'.settled == t.settled && t'.here == t.here + emits)
    decreases |parts|
  {
    if parts != [] {
      hide ReducePart, CheckPart, PartEmits;
      var p := parts[0];
      PartInStep(r, env, home, i, role, p, w, s, t);
      var (k, w1) := ReducePart(r, env, home, i, role, p, w);
      var s1 := CheckPart(s, role, p).scan;
      var rest := ReduceParts(r, env, home, i, role, parts[1..], w1).0;
      if k.None? {
        assert [] + rest == rest;
        PartsInStep(r, env, home, i, role, parts[1..], w1, s1, t);
      } else {
        var kept := [k.value] + rest;
        assert kept[0] == k.value && kept[1..] == rest;
        if PartEmits(r, home, i, role, p) !! t.settled {
          PartsInStep(r, env, home, i, role, parts[1..], w1, s1, CheckPart(t, role, k.value).scan);
        }
      }
    }
  }

  lemma {:induction false} PlanPartsInStep(role: string, parts: seq<Part>, s: Scan, t: Scan)
    requires s.order == t.order && CheckParts(s, role, parts).Fine?
    ensures var s' := CheckParts(s, role, parts).scan;
      && (CheckParts(t, role, parts).Fine? <==> ResultIds(parts) !! t.settled)
      && (CheckParts(t, role, parts).Fine? ==>
          var t' := CheckParts(t, role, parts).scan;
          t'.order == s'.order && t'.settled == t.settled && t'.here == t.here + ResultIds(parts))
    decreases |parts|
  {
    hide Blank;
    if parts != [] {
      var p := parts[0];
      if CheckPart(t, role, p).Fine? {
        PlanPartsInStep(role, parts[1..], CheckPart(s, role, p).scan, CheckPart(t, role, p).scan);
      }
    }
  }

  lemma {:induction false} EventInStep(r: Rung, env: Prosing, home: map<string, nat>, i: nat, e: Event, w: Work, s: Scan, t: Scan, emitted: set<string>)
    requires InStep(s, t, emitted) && CheckEvent(s, e).Fine?
    ensures var kept := ReduceEvent(r, env, home, i, e, w).0;
      var emits := EventEmits(r, home, i, e);
      && (CheckEvents(t, kept).Fine? <==> emits !! emitted)
      && (CheckEvents(t, kept).Fine? ==> InStep(CheckEvent(s, e).scan, CheckEvents(t, kept).scan, emitted + emits))
  {
    hide Blank;
    var kept := ReduceEvent(r, env, home, i, e, w).0;
    if e.kind.Plan? {
      PlanPartsInStep(e.role, e.parts, s, t);
      assert [e][1..] == [];
    } else {
      PartsInStep(r, env, home, i, e.role, e.parts, w, s, t);
      if kept != [] { assert kept[1..] == []; }
    }
  }

  lemma {:induction false} EventsInStep(r: Rung, env: Prosing, events: seq<Event>, i: nat, w: Work, s: Scan, t: Scan)
    requires i <= |events| && CheckEvents(s, events[i..]).Fine?
    requires InStep(s, t, EmittedBefore(r, ResultEventIndex(events), events, i))
    ensures var home := ResultEventIndex(events);
      var kept := ReduceEvents(r, env, home, i, events[i..], w).0;
      && (CheckEvents(t, kept).Fine? <==>
            forall n :: i <= n < |events| ==> EmittedBefore(r, home, events, n) !! EventEmits(r, home, n, events[n]))
      && (CheckEvents(t, kept).Fine? ==> CheckEvents(t, kept).scan.order == CheckEvents(s, events[i..]).scan.order)
    decreases |events| - i
  {
    hide ReduceEvent, CheckEvent, EventEmits;
    var home := ResultEventIndex(events);
    if i < |events| {
      assert events[i..][0] == events[i] && events[i..][1..] == events[i + 1..];
      var emitted := EmittedBefore(r, home, events, i);
      EventInStep(r, env, home, i, events[i], w, s, t, emitted);
      var (first, w1) := ReduceEvent(r, env, home, i, events[i], w);
      var rest := ReduceEvents(r, env, home, i + 1, events[i + 1..], w1).0;
      CheckEventsAppend(t, first, rest);
      if EventEmits(r, home, i, events[i]) !! emitted {
        EventsInStep(r, env, events, i + 1, w1, CheckEvent(s, events[i]).scan, CheckEvents(t, first).scan);
      }
    }
  }

  /** A rung's event stream, before turns are collapsed. */
  function Thinned(r: Rung, env: Prosing, events: seq<Event>): (seq<Event>, Work) {
    ReduceEvents(r, env, ResultEventIndex(events), 0, events, Work([], NOTHING))
  }

  /** Reducing a well-formed stream gives a well-formed stream exactly when no call's results
      end up in two events, and always keeps every call. */
  lemma ThinnedWellFormed(r: Rung, env: Prosing, events: seq<Event>)
    requires WellFormed(events)
    ensures WellFormed(Thinned(r, env, events).0) <==> ResultsTogether(r, events)
    ensures WellFormed(Thinned(r, env, events).0) ==> ScanOf(Thinned(r, env, events).0).order == ScanOf(events).order
  {
    assert events[0..] == events;
    EventsInStep(r, env, events, 0, Work([], NOTHING), UNREAD, UNREAD);
  }
}
