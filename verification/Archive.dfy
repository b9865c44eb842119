/** What a reduction takes out of a thread and where it goes: the archive has one shard for each
    payload taken out, in order, and each note names the file of its own shard
    (internal/session/compact.go:266-384, archive.go:107-181). */
module Archive {
  import opened Basics
  import opened Text
  import opened Conversation
  import opened MediaUrl
  import opened Reduction

  // ----- the parts of a thread -----

  /** A part with the number of its event and the role of its author. */
  datatype Placed = Placed(event: nat, role: string, part: Part)

  function PlacedParts(i: nat, role: string, parts: seq<Part>): (ps: seq<Placed>)
    ensures |ps| == |parts| && forall j :: 0 <= j < |parts| ==> ps[j] == Placed(i, role, parts[j])
  {
    seq(|parts|, j requires 0 <= j < |parts| => Placed(i, role, parts[j]))
  }

  /** The parts of every event that is not a plan; the first event is number `i`. */
  function AllParts(i: nat, events: seq<Event>): seq<Placed>
    decreases |events|
  {
    if events == [] then []
    else (if events[0].kind.Plan? then [] else PlacedParts(i, events[0].role, events[0].parts)) + AllParts(i + 1, events[1..])
  }

  // ----- what becomes of each -----

  datatype Fate = Stays | Dropped | Stripped | ResultCut | TextCut

  function FateOf(r: Rung, p: Part): Fate {
    match p.kind
    case Reasoning => if r.dropReasoning then Dropped else Stays
    case Media => if r.stripMedia then Stripped else Stays
    case ToolResult => if 0 < r.toolResultLimit < |p.text| then ResultCut else Stays
    case Text => if 0 < r.textLimit < |p.text| then TextCut else Stays
    case _ => Stays
  }

  /** The payload leaves the thread for the archive. */
  predicate Leaves(r: Rung, p: Part) { FateOf(r, p).Stripped? || FateOf(r, p).ResultCut? || FateOf(r, p).TextCut? }

  /** The shard holds all of the part: its event, whose it is or which call it answers, and its full payload, which
      for media without data of their own is the address they are at. */
  predicate Stores(shard: Shard, q: Placed) {
    && shard.event == q.event
    && match q.part.kind
       case ToolResult => shard.kind == "tool_result" && shard.callId == q.part.callId && shard.role == "" && shard.payload == q.part.text
       case Text => shard.kind == "message" && shard.role == q.role && shard.callId == "" && shard.payload == q.part.text
       case Media =>
         && shard.callId == q.part.callId && shard.role == ""
         && (if q.part.mediaData != "" && IsBase64(q.part.mediaData) then shard.kind == "media" && shard.payload == q.part.mediaData
             else shard.kind == "media_reference" && shard.payload == "source URL: " + q.part.mediaUrl + "\n")
       case _ => false
  }

  /** How many of the first `n` parts leave. */
  function Left(r: Rung, ps: seq<Placed>, n: nat): (k: nat)
    requires n <= |ps|
    ensures k <= n
  {
    if n == 0 then 0 else Left(r, ps, n - 1) + if Leaves(r, ps[n - 1].part) then 1 else 0
  }

  function Fated(r: Rung, ps: seq<Placed>, fate: Fate): nat {
    if ps == [] then 0 else (if FateOf(r, ps[0].part) == fate then 1 else 0) + Fated(r, ps[1..], fate)
  }

  /** The `k`-th payload to leave is that of part `i`. */
  predicate LeavesAs(r: Rung, ps: seq<Placed>, i: int, k: int) { 0 <= i < |ps| && Leaves(r, ps[i].part) && Left(r, ps, i) == k }

  ghost predicate Shelf(r: Rung, ps: seq<Placed>, shard: Shard, k: int) { exists i :: LeavesAs(r, ps, i, k) && Stores(shard, ps[i]) }

  /** One shard for each part that leaves, in order, and no others. */
  ghost predicate Shelved(r: Rung, ps: seq<Placed>, shards: seq<Shard>) {
    && |shards| == Left(r, ps, |ps|)
    && (forall i, k :: LeavesAs(r, ps, i, k) ==> k < |shards| && Stores(shards[k], ps[i]))
    && (forall k :: 0 <= k < |shards| ==> Shelf(r, ps, shards[k], k))
  }

  /** What stands where a part stood; `path` is the file its payload went to. */
  ghost predicate StandsFor(env: Prosing, r: Rung, home: map<string, nat>, q: Placed, path: string, kept: Option<Part>) {
    var p := q.part;
    match FateOf(r, p)
    case Stays => kept == Some(p)
    case Dropped => kept == None
    case Stripped =>
      var note := env.mediaNote(p, path);
      if q.role == "assistant" || (p.callId == "" && q.role != "tool") then kept == Some(TextPart(note))
      else if p.callId == "" || (p.callId in home && home[p.callId] != q.event) then kept == None
      else kept == Some(ResultPart(p.callId, note))
    case ResultCut => kept.Some? && kept.value == p.(text := kept.value.text) && Abridges(env, p.text, r.toolResultLimit, path, kept.value.text)
    case TextCut => kept.Some? && kept.value == p.(text := kept.value.text) && Abridges(env, p.text, r.textLimit, path, kept.value.text)
  }

  /** A text within the cap is whole; a longer one keeps its ends around a note that says how much is missing and
      names the file. */
  ghost predicate Abridges(env: Prosing, text: string, limit: nat, path: string, t: string) {
    if |text| <= Cap(limit) then t == text
    else exists h: nat, l: nat, lines: nat :: EndsAround(env, text, Cap(limit), path, t, h, l, lines)
  }

  ghost predicate EndsAround(env: Prosing, text: string, cap: nat, path: string, t: string, h: nat, l: nat, lines: nat) {
    h + l <= cap <= |text| && KeepsEnds(text, t, h, l, env.elision(|text| - h - l, lines, path))
  }

  function Somes(kept: seq<Option<Part>>): seq<Part> {
    if kept == [] then [] else (if kept[0].Some? then [kept[0].value] else []) + Somes(kept[1..])
  }

  /** The thread put together again from what stands for its parts: plans as they were, and no event without parts. */
  function Assembled(events: seq<Event>, kept: seq<Option<Part>>): seq<Event>
    decreases |events|
  {
    if events == [] then []
    else
      var e := events[0];
      if e.kind.Plan? then [e] + Assembled(events[1..], kept)
      else
        var n := if |e.parts| <= |kept| then |e.parts| else |kept|;
        var parts := Somes(kept[..n]);
        (if parts == [] then [] else [e.(parts := parts)]) + Assembled(events[1..], kept[n..])
  }

  ghost predicate Stand(env: Prosing, r: Rung, home: map<string, nat>, ps: seq<Placed>, shards: seq<Shard>, before: nat, kept: seq<Option<Part>>) {
    && |kept| == |ps|
    && forall i :: 0 <= i < |ps| ==> StandsAt(env, r, home, ps, shards, before, kept, i)
  }

  /** The note that stands for a part names the file of the shard that stores it. */
  ghost predicate StandsAt(env: Prosing, r: Rung, home: map<string, nat>, ps: seq<Placed>, shards: seq<Shard>, before: nat, kept: seq<Option<Part>>, i: nat)
    requires i < |ps| && |kept| == |ps|
  {
    if Leaves(r, ps[i].part) then
      var k := before + Left(r, ps, i);
      k < |shards| && StandsFor(env, r, home, ps[i], env.pathOf(k, shards[k]), kept[i])
    else StandsFor(env, r, home, ps[i], "", kept[i])
  }

  // ----- one part -----

  function Plus(a: Counts, b: Counts): Counts {
    Counts(a.reasoning + b.reasoning, a.media + b.media, a.toolResults + b.toolResults, a.textParts + b.textParts, a.collapsed + b.collapsed)
  }

  function One(fate: Fate): Counts {
    match fate
    case Stays => NOTHING
    case Dropped => NOTHING.(reasoning := 1)
    case Stripped => NOTHING.(media := 1)
    case ResultCut => NOTHING.(toolResults := 1)
    case TextCut => NOTHING.(textParts := 1)
  }

  lemma {:induction false} TruncateAbridges(env: Prosing, text: string, limit: nat, path: string)
    ensures Abridges(env, text, limit, path, Truncate(env, text, limit, path))
  {
    hide Newlines, Opening, Closing;
    if |text| > Cap(limit) {
      var h := Opening(text, Cap(limit));
      var l := Closing(text, Cap(limit));
      var kept := Newlines(text[..h]) + Newlines(text[|text| - l..]) + 2;
      assert EndsAround(env, text, Cap(limit), path, Truncate(env, text, limit, path), h, l, Max(0, Newlines(text) + 1 - kept));
    }
  }

  /** The reduction of one part: what stands for it, the shard it leaves behind, and what is counted. */
  lemma {:induction false} PartLeaves(r: Rung, env: Prosing, home: map<string, nat>, i: nat, role: string, p: Part, w: Work)
    ensures var (kept, w') := ReducePart(r, env, home, i, role, p, w);
      var q := Placed(i, role, p);
      && w'.counts == Plus(w.counts, One(FateOf(r, p)))
      && (if Leaves(r, p) then
            |w'.shards| == |w.shards| + 1 && w'.shards[..|w.shards|] == w.shards && Stores(w'.shards[|w.shards|], q)
            && StandsFor(env, r, home, q, env.pathOf(|w.shards|, w'.shards[|w.shards|]), kept)
          else w'.shards == w.shards && StandsFor(env, r, home, q, "", kept))
  {
    hide Truncate, IsBase64, Abridges;
    var (kept, w') := ReducePart(r, env, home, i, role, p, w);
    match FateOf(r, p)
    case ResultCut =>
      var shard := Shard("tool_result", i, "", p.callId, p.text);
      TruncateAbridges(env, p.text, r.toolResultLimit, PathOf(env, w, shard));
    case TextCut =>
      var shard := Shard("message", i, role, "", p.text);
      TruncateAbridges(env, p.text, r.textLimit, PathOf(env, w, shard));
    case _ =>
  }

  // ----- one part after another -----

  lemma {:induction false} LeftAppend(r: Rung, a: seq<Placed>, b: seq<Placed>, n: nat)
    requires n <= |a| + |b|
    ensures Left(r, a + b, n) == if n <= |a| then Left(r, a, n) else Left(r, a, |a|) + Left(r, b, n - |a|)
  {
    if n > 0 {
      LeftAppend(r, a, b, n - 1);
      hide Leaves;
      assert (a + b)[n - 1] == if n <= |a| then a[n - 1] else b[n - 1 - |a|];
      if n == |a| + 1 { assert Left(r, b, 0) == 0; }
    }
  }

  lemma {:induction false} LeavesAppend(r: Rung, a: seq<Placed>, b: seq<Placed>, i: int, k: int)
    ensures i < |a| ==> (LeavesAs(r, a + b, i, k) <==> LeavesAs(r, a, i, k))
    ensures i >= |a| ==> (LeavesAs(r, a + b, i, k) <==> LeavesAs(r, b, i - |a|, k - Left(r, a, |a|)))
  {
    hide Leaves;
    if 0 <= i < |a| + |b| { LeftAppend(r, a, b, i); }
  }

  /** The shards grow by those of the parts that leave. */
  ghost predicate Grown(r: Rung, ps: seq<Placed>, base: seq<Shard>, shards: seq<Shard>) {
    && base <= shards && |shards| == |base| + Left(r, ps, |ps|)
    && forall i, k :: LeavesAs(r, ps, i, k) ==> |base| + k < |shards| && Stores(shards[|base| + k], ps[i])
  }

  lemma {:induction false} GrownAppend(r: Rung, a: seq<Placed>, b: seq<Placed>, base: seq<Shard>, mid: seq<Shard>, end: seq<Shard>)
    requires Grown(r, a, base, mid) && Grown(r, b, mid, end)
    ensures Grown(r, a + b, base, end)
  {
    hide Stores, Left, Leaves, LeavesAs;
    LeftAppend(r, a, b, |a| + |b|);
    LeftAppend(r, a, b, |a|);
    LeftZero(r, b);
    forall i, k | LeavesAs(r, a + b, i, k)
      ensures 0 <= i < |a + b| && 0 <= |base| + k < |end| && Stores(end[|base| + k], (a + b)[i])
    {
      OneGrown(r, a, b, base, mid, end, i, k);
    }
  }

  lemma {:induction false} LeftZero(r: Rung, ps: seq<Placed>)
    ensures Left(r, ps, 0) == 0
  {}

  lemma {:induction false} OneGrown(r: Rung, a: seq<Placed>, b: seq<Placed>, base: seq<Shard>, mid: seq<Shard>, end: seq<Shard>, i: int, k: int)
    requires Grown(r, a, base, mid) && Grown(r, b, mid, end) && LeavesAs(r, a + b, i, k)
    ensures 0 <= i < |a + b| && 0 <= |base| + k < |end| && Stores(end[|base| + k], (a + b)[i])
  {
    hide Stores, Left, Leaves;
    LeavesAppend(r, a, b, i, k);
    if i < |a| {
      assert LeavesAs(r, a, i, k) && mid[|base| + k] == end[|base| + k];
    } else {
      assert LeavesAs(r, b, i - |a|, k - Left(r, a, |a|));
    }
  }

  lemma {:induction false} StandAppend(env: Prosing, r: Rung, home: map<string, nat>, a: seq<Placed>, b: seq<Placed>,
                                       mid: seq<Shard>, end: seq<Shard>, before: nat, ka: seq<Option<Part>>, kb: seq<Option<Part>>)
    requires Stand(env, r, home, a, mid, before, ka) && mid <= end && |mid| == before + Left(r, a, |a|)
    requires Stand(env, r, home, b, end, |mid|, kb)
    ensures Stand(env, r, home, a + b, end, before, ka + kb)
  {
    hide StandsFor, Left, Leaves;
    forall i | 0 <= i < |a + b| ensures StandsAt(env, r, home, a + b, end, before, ka + kb, i) {
      LeftAppend(r, a, b, i);
      if i < |a| {
        assert StandsAt(env, r, home, a, mid, before, ka, i);
      } else {
        if i == |a| { LeftZero(r, b); }
        assert StandsAt(env, r, home, b, end, |mid|, kb, i - |a|);
      }
    }
  }

  /** What is counted. */
  function Tally(r: Rung, ps: seq<Placed>): Counts {
    Counts(Fated(r, ps, Dropped), Fated(r, ps, Stripped), Fated(r, ps, ResultCut), Fated(r, ps, TextCut), 0)
  }

  lemma {:induction false} FatedAppend(r: Rung, a: seq<Placed>, b: seq<Placed>, fate: Fate)
    ensures Fated(r, a + b, fate) == Fated(r, a, fate) + Fated(r, b, fate)
  {
    hide FateOf;
    if a == [] {
      assert a + b == b;
    } else {
      assert (a + b)[0] == a[0] && (a + b)[1..] == a[1..] + b;
      FatedAppend(r, a[1..], b, fate);
    }
  }

  lemma {:induction false} TallyAppend(r: Rung, a: seq<Placed>, b: seq<Placed>, w: Counts)
    ensures Plus(Plus(w, Tally(r, a)), Tally(r, b)) == Plus(w, Tally(r, a + b))
  {
    hide Fated;
    FatedAppend(r, a, b, Dropped);
    FatedAppend(r, a, b, Stripped);
    FatedAppend(r, a, b, ResultCut);
    FatedAppend(r, a, b, TextCut);
  }

  lemma {:induction false} OneTally(r: Rung, q: Placed)
    ensures Tally(r, [q]) == One(FateOf(r, q.part))
  {
    hide FateOf;
    assert [q][1..] == [];
    assert forall fate :: Fated(r, [q], fate) == (if FateOf(r, q.part) == fate then 1 else 0) + Fated(r, [], fate);
  }

  /** What a stretch of the thread becomes. */
  ghost predicate Became(env: Prosing, r: Rung, home: map<string, nat>, ps: seq<Placed>, w: Work, w': Work, kept: seq<Option<Part>>) {
    && Grown(r, ps, w.shards, w'.shards) && Stand(env, r, home, ps, w'.shards, |w.shards|, kept)
    && w'.counts == Plus(w.counts, Tally(r, ps))
  }

  lemma {:induction false} BecameAppend(env: Prosing, r: Rung, home: map<string, nat>, a: seq<Placed>, b: seq<Placed>,
                                        w: Work, mid: Work, end: Work, ka: seq<Option<Part>>, kb: seq<Option<Part>>)
    requires Became(env, r, home, a, w, mid, ka) && Became(env, r, home, b, mid, end, kb)
    ensures Became(env, r, home, a + b, w, end, ka + kb)
  {
    hide Stand, Left, LeavesAs, Stores, Tally, Plus;
    GrownAppend(r, a, b, w.shards, mid.shards, end.shards);
    StandAppend(env, r, home, a, b, mid.shards, end.shards, |w.shards|, ka, kb);
    TallyAppend(r, a, b, w.counts);
  }

  lemma {:induction false} BecameNothing(env: Prosing, r: Rung, home: map<string, nat>, w: Work)
    ensures Became(env, r, home, [], w, w, [])
  {
    hide StandsFor, Stores;
  }

  lemma {:induction false} BecameOne(r: Rung, env: Prosing, home: map<string, nat>, i: nat, role: string, p: Part, w: Work)
    ensures var (kept, w') := ReducePart(r, env, home, i, role, p, w);
      Became(env, r, home, [Placed(i, role, p)], w, w', [kept])
  {
    PartLeaves(r, env, home, i, role, p, w);
    OneTally(r, Placed(i, role, p));
    hide StandsFor, Stores, ReducePart, Tally, Leaves;
    var (kept, w') := ReducePart(r, env, home, i, role, p, w);
    var ps := [Placed(i, role, p)];
    assert Left(r, ps, 0) == 0 && Left(r, ps, 1) == if Leaves(r, p) then 1 else 0;
    assert StandsAt(env, r, home, ps, w'.shards, |w.shards|, [kept], 0);
  }

  lemma {:induction false} PartsBecome(r: Rung, env: Prosing, home: map<string, nat>, i: nat, role: string, parts: seq<Part>, w: Work)
      returns (kept: seq<Option<Part>>)
    ensures var (out, w') := ReduceParts(r, env, home, i, role, parts, w);
      Became(env, r, home, PlacedParts(i, role, parts), w, w', kept) && out == Somes(kept)
    decreases |parts|
  {
    if parts == [] {
      kept := [];
      assert PlacedParts(i, role, parts) == [];
      BecameNothing(env, r, home, w);
    } else {
      var (k, w1) := ReducePart(r, env, home, i, role, parts[0], w);
      var rest := PartsBecome(r, env, home, i, role, parts[1..], w1);
      kept := [k] + rest;
      assert PlacedParts(i, role, parts) == [Placed(i, role, parts[0])] + PlacedParts(i, role, parts[1..]);
      BecameOne(r, env, home, i, role, parts[0], w);
      hide Became, ReducePart;
      var w2 := ReduceParts(r, env, home, i, role, parts[1..], w1).1;
      BecameAppend(env, r, home, [Placed(i, role, parts[0])], PlacedParts(i, role, parts[1..]), w, w1, w2, [k], rest);
      assert kept[0] == k && kept[1..] == rest;
    }
  }

  lemma {:induction false} AssembledNext(e: Event, events: seq<Event>, k: seq<Option<Part>>, kept: seq<Option<Part>>)
    requires |k| == if e.kind.Plan? then 0 else |e.parts|
    ensures Assembled([e] + events, k + kept)
      == (if e.kind.Plan? then [e] else if Somes(k) == [] then [] else [e.(parts := Somes(k))]) + Assembled(events, kept)
  {
    assert ([e] + events)[0] == e && ([e] + events)[1..] == events;
    if e.kind.Plan? {
      assert k + kept == kept;
    } else {
      assert (k + kept)[..|e.parts|] == k && (k + kept)[|e.parts|..] == kept;
    }
  }

  lemma {:induction false} KeptForEach(env: Prosing, r: Rung, home: map<string, nat>, ps: seq<Placed>, w: Work, w': Work, kept: seq<Option<Part>>)
    requires Became(env, r, home, ps, w, w', kept)
    ensures |kept| == |ps|
  {
    hide Grown, StandsAt, Tally, Plus;
  }

  lemma {:induction false} EventBecomes(r: Rung, env: Prosing, home: map<string, nat>, i: nat, e: Event, w: Work)
      returns (kept: seq<Option<Part>>)
    ensures var (out, w') := ReduceEvent(r, env, home, i, e, w);
      var ps := if e.kind.Plan? then [] else PlacedParts(i, e.role, e.parts);
      && Became(env, r, home, ps, w, w', kept)
      && out == (if e.kind.Plan? then [e] else if Somes(kept) == [] then [] else [e.(parts := Somes(kept))])
  {
    if e.kind.Plan? {
      kept := [];
      BecameNothing(env, r, home, w);
    } else {
      kept := PartsBecome(r, env, home, i, e.role, e.parts, w);
    }
    hide Became, ReduceParts;
  }

  lemma {:induction false} EventsBecome(r: Rung, env: Prosing, home: map<string, nat>, i: nat, events: seq<Event>, w: Work)
      returns (kept: seq<Option<Part>>)
    ensures var (out, w') := ReduceEvents(r, env, home, i, events, w);
      Became(env, r, home, AllParts(i, events), w, w', kept) && out == Assembled(events, kept)
    decreases |events|
  {
    if events == [] {
      kept := [];
      BecameNothing(env, r, home, w);
    } else {
      var e := events[0];
      var (first, w1) := ReduceEvent(r, env, home, i, e, w);
      var k := EventBecomes(r, env, home, i, e, w);
      var rest := EventsBecome(r, env, home, i + 1, events[1..], w1);
      kept := k + rest;
      var ps := if e.kind.Plan? then [] else PlacedParts(i, e.role, e.parts);
      KeptForEach(env, r, home, ps, w, w1, k);
      hide Became, ReduceEvent, Assembled;
      var w2 := ReduceEvents(r, env, home, i + 1, events[1..], w1).1;
      BecameAppend(env, r, home, ps, AllParts(i + 1, events[1..]), w, w1, w2, k, rest);
      AssembledNext(e, events[1..], k, rest);
      assert [e] + events[1..] == events;
    }
  }

  // ----- the whole thread -----

  lemma {:induction false} EveryShelf(r: Rung, ps: seq<Placed>, n: nat, k: nat) returns (i: int)
    requires n <= |ps| && k < Left(r, ps, n)
    ensures LeavesAs(r, ps, i, k)
  {
    hide Leaves;
    if Left(r, ps, n - 1) == k { i := n - 1; } else { i := EveryShelf(r, ps, n - 1, k); }
  }

  lemma {:induction false} GrownFromNothing(r: Rung, ps: seq<Placed>, shards: seq<Shard>)
    requires Grown(r, ps, [], shards)
    ensures Shelved(r, ps, shards)
  {
    hide Stores, Left, Leaves;
    forall k | 0 <= k < |shards| ensures Shelf(r, ps, shards[k], k) {
      var i := EveryShelf(r, ps, |ps|, k);
      assert LeavesAs(r, ps, i, k) && Stores(shards[0 + k], ps[i]);
    }
  }

  /** Everything a rung says of a thread before turns are collapsed. */
  ghost predicate Thins(env: Prosing, r: Rung, events: seq<Event>, thin: seq<Event>, shards: seq<Shard>, counts: Counts) {
    var ps := AllParts(0, events);
    && Shelved(r, ps, shards) && counts == Tally(r, ps)
    && exists kept :: Stand(env, r, ResultEventIndex(events), ps, shards, 0, kept) && thin == Assembled(events, kept)
  }

  /** The archive of a rung holds every payload that left the thread, in full and in order, and nothing else; each
      note names the file of its own shard; and the counts are those of the parts that left or were dropped. */
  lemma {:induction false} ThinnedIsArchived(r: Rung, env: Prosing, events: seq<Event>)
    ensures var (thin, w) := Thinned(r, env, events); Thins(env, r, events, thin, w.shards, w.counts)
  {
    var home := ResultEventIndex(events);
    var kept := EventsBecome(r, env, home, 0, events, Work([], NOTHING));
    var (thin, w) := Thinned(r, env, events);
    var ps := AllParts(0, events);
    hide AllParts, Tally, Assembled, Stand, ReduceEvents, ResultEventIndex, Grown, Shelved;
    GrownFromNothing(r, ps, w.shards);
    NothingPlus(Tally(r, ps));
  }

  lemma NothingPlus(counts: Counts)
    ensures Plus(NOTHING, counts) == counts
  {}

  // ----- nothing is lost -----

  /** Every part that leaves is counted once. */
  lemma {:induction false} LeftIsCounted(r: Rung, ps: seq<Placed>)
    ensures Left(r, ps, |ps|) == Fated(r, ps, Stripped) + Fated(r, ps, ResultCut) + Fated(r, ps, TextCut)
  {
    if ps != [] {
      var first, rest := ps[..1], ps[1..];
      assert first + rest == ps && first[0] == ps[0];
      LeftIsCounted(r, rest);
      LeftAppend(r, first, rest, |ps|);
      hide FateOf;
      assert Left(r, first, 0) == 0 && Left(r, first, 1) == if Leaves(r, ps[0].part) then 1 else 0;
    }
  }

  /** The part is in an event of the same author. */
  ghost predicate Holds(events: seq<Event>, q: Placed) {
    exists n :: 0 <= n < |events| && events[n].role == q.role && q.part in events[n].parts
  }

  lemma {:induction false} HoldsFirst(e: Event, events: seq<Event>, q: Placed)
    requires e.role == q.role && q.part in e.parts
    ensures Holds([e] + events, q)
  {
    assert ([e] + events)[0] == e;
  }

  lemma {:induction false} HoldsLater(first: seq<Event>, events: seq<Event>, q: Placed)
    requires Holds(events, q)
    ensures Holds(first + events, q)
  {
    var n :| 0 <= n < |events| && events[n].role == q.role && q.part in events[n].parts;
    assert (first + events)[|first| + n] == events[n];
  }

  lemma {:induction false} SomesHold(kept: seq<Option<Part>>, i: nat)
    requires i < |kept| && kept[i].Some?
    ensures kept[i].value in Somes(kept)
  {
    if i > 0 {
      SomesHold(kept[1..], i - 1);
      assert kept[1..][i - 1] == kept[i];
    }
  }

  lemma {:induction false} AllPartsNext(i: nat, events: seq<Event>)
    requires events != []
    ensures var e := events[0];
      AllParts(i, events) == (if e.kind.Plan? then [] else PlacedParts(i, e.role, e.parts)) + AllParts(i + 1, events[1..])
  {}

  lemma {:induction false} NoParts(i: nat)
    ensures AllParts(i, []) == []
  {}

  /** A part that stands as it was is in the thread put together again. */
  lemma {:induction false} AssembledHolds(i: nat, events: seq<Event>, kept: seq<Option<Part>>, k: nat)
    requires |kept| == |AllParts(i, events)| && k < |kept| && kept[k] == Some(AllParts(i, events)[k].part)
    ensures Holds(Assembled(events, kept), AllParts(i, events)[k])
    decreases |events|
  {
    hide *;
    NoParts(i);
    AllPartsNext(i, events);
    var e, rest := events[0], events[1..];
    var ps := if e.kind.Plan? then [] else PlacedParts(i, e.role, e.parts);
    var later := AllParts(i + 1, rest);
    var q := (ps + later)[k];
    var mine, theirs := kept[..|ps|], kept[|ps|..];
    assert kept == mine + theirs && events == [e] + rest;
    AssembledNext(e, rest, mine, theirs);
    if k < |ps| {
      SomesHold(mine, k);
      HoldsFirst(e.(parts := Somes(mine)), Assembled(rest, theirs), q);
    } else {
      AssembledHolds(i + 1, rest, theirs, k - |ps|);
      HoldsLater(if e.kind.Plan? then [e] else if Somes(mine) == [] then [] else [e.(parts := Somes(mine))], Assembled(rest, theirs), q);
    }
  }

  lemma {:induction false} PlansStay(events: seq<Event>, kept: seq<Option<Part>>, e: Event)
    requires e in events && e.kind.Plan?
    ensures e in Assembled(events, kept)
    decreases |events|
  {
    if e != events[0] {
      assert e in events[1..];
      var n := if |events[0].parts| <= |kept| then |events[0].parts| else |kept|;
      PlansStay(events[1..], if events[0].kind.Plan? then kept else kept[n..], e);
    }
    hide Somes;
  }

  /** The archive stores the part. */
  ghost predicate Stored(shards: seq<Shard>, q: Placed) { exists k :: 0 <= k < |shards| && Stores(shards[k], q) }

  /** Every plan and every part of the thread still stands, is stored in full, or was reasoning. */
  ghost predicate Survives(events: seq<Event>, thin: seq<Event>, shards: seq<Shard>) {
    && (forall e :: e in events && e.kind.Plan? ==> e in thin)
    && (forall i :: 0 <= i < |AllParts(0, events)| ==> PartSurvives(AllParts(0, events)[i], thin, shards))
  }

  ghost predicate PartSurvives(q: Placed, thin: seq<Event>, shards: seq<Shard>) {
    q.part.kind.Reasoning? || Stored(shards, q) || Holds(thin, q)
  }

  lemma {:induction false} ThinnedSurvives(env: Prosing, r: Rung, events: seq<Event>, thin: seq<Event>, shards: seq<Shard>, counts: Counts)
    requires Thins(env, r, events, thin, shards, counts)
    ensures Survives(events, thin, shards)
    ensures |shards| == counts.media + counts.toolResults + counts.textParts && counts.collapsed == 0
  {
    var ps, home := AllParts(0, events), ResultEventIndex(events);
    LeftIsCounted(r, ps);
    var kept :| Stand(env, r, home, ps, shards, 0, kept) && thin == Assembled(events, kept);
    forall e | e in events && e.kind.Plan? ensures e in thin { PlansStay(events, kept, e); }
    forall i | 0 <= i < |ps| ensures PartSurvives(ps[i], thin, shards) {
      OneSurvives(env, r, home, events, shards, kept, i);
    }
    hide AllParts, Assembled, Shelved, Stand, Fated, Left;
  }

  lemma {:induction false} OneStored(r: Rung, ps: seq<Placed>, shards: seq<Shard>, i: nat)
    requires i < |ps| && Shelved(r, ps, shards) && Leaves(r, ps[i].part)
    ensures Stored(shards, ps[i])
  {
    hide Left, Stores, Leaves;
    assert LeavesAs(r, ps, i, Left(r, ps, i));
  }

  lemma {:induction false} OneStands(env: Prosing, r: Rung, home: map<string, nat>, ps: seq<Placed>, shards: seq<Shard>, kept: seq<Option<Part>>, i: nat)
    requires i < |ps| && Stand(env, r, home, ps, shards, 0, kept) && !Leaves(r, ps[i].part)
    ensures |kept| == |ps| && (ps[i].part.kind.Reasoning? || kept[i] == Some(ps[i].part))
  {
    hide Left;
    assert StandsAt(env, r, home, ps, shards, 0, kept, i);
  }

  lemma {:induction false} StoredSurvives(q: Placed, thin: seq<Event>, shards: seq<Shard>)
    requires Stored(shards, q) || q.part.kind.Reasoning?
    ensures PartSurvives(q, thin, shards)
  {}

  lemma {:induction false} OneSurvives(env: Prosing, r: Rung, home: map<string, nat>, events: seq<Event>, shards: seq<Shard>, kept: seq<Option<Part>>, i: nat)
    requires i < |AllParts(0, events)| && Shelved(r, AllParts(0, events), shards)
    requires Stand(env, r, home, AllParts(0, events), shards, 0, kept)
    ensures PartSurvives(AllParts(0, events)[i], Assembled(events, kept), shards)
  {
    hide *;
    var ps := AllParts(0, events);
    if Leaves(r, ps[i].part) {
      OneStored(r, ps, shards, i);
      StoredSurvives(ps[i], Assembled(events, kept), shards);
    } else {
      OneStands(env, r, home, ps, shards, kept, i);
      if ps[i].part.kind.Reasoning? {
        StoredSurvives(ps[i], Assembled(events, kept), shards);
      } else {
        AssembledHolds(0, events, kept, i);
        HoldsSurvives(ps[i], Assembled(events, kept), shards);
      }
    }
  }

  lemma {:induction false} HoldsSurvives(q: Placed, thin: seq<Event>, shards: seq<Shard>)
    requires Holds(thin, q)
    ensures PartSurvives(q, thin, shards)
  {}
}
