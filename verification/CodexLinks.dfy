/** Which call a child thread is attached to, said by positions in its parent's stream and file
    (internal/session/codex_branches.go:53-165). */
module CodexLinks {
  import opened Basics
  import opened Conversation
  import Branches
  import opened Remap
  import opened CodexTree

  /** The parts of a stream in order, whichever events they stand in. */
  function Flat(events: seq<Event>): seq<Part> {
    if events == [] then [] else events[0].parts + Flat(events[1..])
  }

  predicate Delegates(p: Part, callId: string) { p.kind.ToolCall? && IsDelegation(p.toolName) && p.callId == callId }

  /** Part `n` is the result of an earlier delegation, and names thread `id`. */
  ghost predicate Spawns(d: Decoding, parts: seq<Part>, n: int, id: string) {
    && 0 <= n < |parts| && id != "" && parts[n].kind.ToolResult? && d.threadOf(parts[n].text) == id
    && exists m :: 0 <= m < n && Delegates(parts[m], parts[n].callId)
  }

  ghost predicate LastSpawn(d: Decoding, parts: seq<Part>, n: int, id: string) {
    Spawns(d, parts, n, id) && forall k :: n < k < |parts| ==> !Spawns(d, parts, k, id)
  }

  /** Part `m` is the last delegation under that id among the first `n`. */
  predicate LastDelegation(parts: seq<Part>, m: int, n: int, callId: string) {
    0 <= m < n <= |parts| && Delegates(parts[m], callId) && forall k :: m < k < n ==> !Delegates(parts[k], callId)
  }

  predicate Records(ends: seq<SpawnEnd>, m: int, id: string) { 0 <= m < |ends| && id != "" && ends[m].newThread == id }

  ghost predicate Recorded(ends: seq<SpawnEnd>, id: string) { exists m :: Records(ends, m, id) }

  ghost predicate Spawned(d: Decoding, parts: seq<Part>, id: string) { exists n :: Spawns(d, parts, n, id) }

  predicate LastRecord(ends: seq<SpawnEnd>, m: int, id: string) {
    Records(ends, m, id) && forall k :: m < k < |ends| ==> !Records(ends, k, id)
  }

  // ----- the scan by positions -----

  const UNLINKED := LinkScan(map[], map[])

  lemma {:induction false} PartsAppend(d: Decoding, s: LinkScan, a: seq<Part>, b: seq<Part>)
    ensures LinkParts(d, s, a + b) == LinkParts(d, LinkParts(d, s, a), b)
    decreases |a|
  {
    hide LinkPart;
    if a == [] {
      assert a + b == b;
    } else {
      assert (a + b)[0] == a[0] && (a + b)[1..] == a[1..] + b;
      PartsAppend(d, LinkPart(d, s, a[0]), a[1..], b);
    }
  }

  lemma {:induction false} EventsAreParts(d: Decoding, s: LinkScan, events: seq<Event>)
    ensures LinkEvents(d, s, events) == LinkParts(d, s, Flat(events))
    decreases |events|
  {
    hide LinkPart;
    if events != [] {
      PartsAppend(d, s, events[0].parts, Flat(events[1..]));
      EventsAreParts(d, LinkParts(d, s, events[0].parts), events[1..]);
    }
  }

  lemma {:induction false} LastPart(d: Decoding, parts: seq<Part>)
    requires parts != []
    ensures LinkParts(d, UNLINKED, parts) == LinkPart(d, LinkParts(d, UNLINKED, parts[..|parts| - 1]), parts[|parts| - 1])
  {
    var before, last := parts[..|parts| - 1], parts[|parts| - 1];
    assert parts == before + [last] && [last][1..] == [];
    PartsAppend(d, UNLINKED, before, [last]);
    hide LinkPart;
  }

  lemma {:induction false} NextDelegation(d: Decoding, parts: seq<Part>, callId: string)
    requires parts != []
    ensures var was, kept := LinkParts(d, UNLINKED, parts[..|parts| - 1]).delegation, LinkParts(d, UNLINKED, parts).delegation;
      if Delegates(parts[|parts| - 1], callId) then callId in kept && kept[callId] == parts[|parts| - 1]
      else (callId in kept <==> callId in was) && (callId in was ==> kept[callId] == was[callId])
  {
    LastPart(d, parts);
    hide IsDelegation, LinkParts;
  }

  ghost predicate Delegated(parts: seq<Part>, callId: string) { exists m :: 0 <= m < |parts| && Delegates(parts[m], callId) }

  lemma {:induction false} DelegatedBefore(parts: seq<Part>, callId: string)
    requires parts != []
    ensures var n := |parts| - 1;
      Delegated(parts, callId) <==> Delegates(parts[n], callId) || Delegated(parts[..n], callId)
  {
    hide Delegates;
    var before := parts[..|parts| - 1];
    if m :| 0 <= m < |before| && Delegates(before[m], callId) { assert Delegates(parts[m], callId); }
    if m :| 0 <= m < |parts| && Delegates(parts[m], callId) {
      if m < |before| { assert Delegates(before[m], callId); }
    }
  }

  lemma {:induction false} LastDelegationBefore(parts: seq<Part>, callId: string, m: int)
    requires LastDelegation(parts, m, |parts|, callId)
    ensures var n := |parts| - 1;
      if Delegates(parts[n], callId) then m == n else m < n && LastDelegation(parts[..n], m, n, callId) && parts[..n][m] == parts[m]
  {
    hide Delegates;
  }

  lemma {:induction false} DelegationsKept(d: Decoding, parts: seq<Part>, callId: string)
    ensures callId in LinkParts(d, UNLINKED, parts).delegation <==> Delegated(parts, callId)
    ensures forall m :: LastDelegation(parts, m, |parts|, callId) ==>
      var kept := LinkParts(d, UNLINKED, parts).delegation; callId in kept && kept[callId] == parts[m]
  {
    if parts != [] {
      var n := |parts| - 1;
      var before := parts[..n];
      NextDelegation(d, parts, callId);
      DelegationsKept(d, before, callId);
      DelegatedBefore(parts, callId);
      hide Delegates, LinkParts, Delegated, LastDelegation;
      forall m | LastDelegation(parts, m, |parts|, callId)
        ensures var kept := LinkParts(d, UNLINKED, parts).delegation; callId in kept && WithinParts(parts, m) && kept[callId] == parts[m]
      {
        WithinRange(parts, m, |parts|, callId);
        LastDelegationBefore(parts, callId, m);
      }
    } else {
      assert !Delegated(parts, callId);
    }
  }

  predicate WithinParts(parts: seq<Part>, m: int) { 0 <= m < |parts| }

  /** What holds of the first parts holds of all, as far as it concerns those. */
  lemma {:induction false} SpawnsBefore(d: Decoding, parts: seq<Part>, id: string)
    requires parts != []
    ensures var n, before := |parts| - 1, parts[..|parts| - 1];
      && (forall k :: k < n ==> (Spawns(d, parts, k, id) <==> Spawns(d, before, k, id)))
      && (forall m, k, c :: k <= n ==> (LastDelegation(parts, m, k, c) <==> LastDelegation(before, m, k, c)))
  {
    var n, before := |parts| - 1, parts[..|parts| - 1];
    hide Delegates;
    forall k | k < n ensures Spawns(d, parts, k, id) <==> Spawns(d, before, k, id) {
      assert forall m :: 0 <= m < n ==> before[m] == parts[m];
    }
  }

  /** What the results alone say of a thread. */
  lemma {:induction false} ResultsLink(d: Decoding, parts: seq<Part>, id: string)
    ensures id in LinkParts(d, UNLINKED, parts).links <==> exists n :: Spawns(d, parts, n, id)
    ensures forall n, m :: LastSpawn(d, parts, n, id) && LastDelegation(parts, m, n, parts[n].callId) ==>
      var links := LinkParts(d, UNLINKED, parts).links; id in links && links[id] == Link(parts[n].callId, d.messageOf(parts[m].data), "unknown")
  {
    if parts != [] {
      var n := |parts| - 1;
      var before := parts[..n];
      ResultsLink(d, before, id);
      NextLink(d, parts, id);
      SpawnsBefore(d, parts, id);
      hide LinkParts, Delegates, LastDelegation;
      if Spawns(d, parts, n, id) {
        forall k, m | LastSpawn(d, parts, k, id) && LastDelegation(parts, m, k, parts[k].callId) ensures k == n {}
      } else {
        forall k | LastSpawn(d, parts, k, id) ensures k < n && LastSpawn(d, before, k, id) && before[k] == parts[k] {}
        if k :| Spawns(d, parts, k, id) { assert Spawns(d, before, k, id); }
        if k :| Spawns(d, before, k, id) { assert Spawns(d, parts, k, id); }
        forall k, m | LastSpawn(d, parts, k, id) && LastDelegation(parts, m, k, parts[k].callId)
          ensures LastDelegation(before, m, k, before[k].callId) && 0 <= m < k && before[m] == parts[m]
        {
          WithinRange(parts, m, k, parts[k].callId);
        }
      }
    }
  }

  lemma WithinRange(parts: seq<Part>, m: int, n: int, callId: string)
    requires LastDelegation(parts, m, n, callId)
    ensures 0 <= m < n <= |parts|
  {}

  /** What the last part adds. */
  lemma {:induction false} NextLink(d: Decoding, parts: seq<Part>, id: string)
    requires parts != []
    ensures var n := |parts| - 1;
      var was, links := LinkParts(d, UNLINKED, parts[..n]).links, LinkParts(d, UNLINKED, parts).links;
      if Spawns(d, parts, n, id) then
        && id in links
        && forall m :: LastDelegation(parts, m, n, parts[n].callId) ==> links[id] == Link(parts[n].callId, d.messageOf(parts[m].data), "unknown")
      else (id in links <==> id in was) && (id in was ==> links[id] == was[id])
  {
    var n := |parts| - 1;
    var before, last := parts[..n], parts[n];
    LastPart(d, parts);
    DelegationsKept(d, before, last.callId);
    var s := LinkParts(d, UNLINKED, before);
    hide IsDelegation, LinkParts;
    if m :| 0 <= m < n && Delegates(parts[m], last.callId) { assert Delegates(before[m], last.callId); }
    if Delegated(before, last.callId) {
      var m :| 0 <= m < |before| && Delegates(before[m], last.callId);
      assert Delegates(parts[m], last.callId);
    }
    forall m | LastDelegation(parts, m, n, last.callId) ensures LastDelegation(before, m, n, last.callId) {
      assert forall k :: 0 <= k < n ==> before[k] == parts[k];
    }
  }

  lemma {:induction false} RecordsLink(links: map<string, Link>, ends: seq<SpawnEnd>, id: string)
    ensures var after := LinkEnds(links, ends);
      && (id in after <==> id in links || exists m :: Records(ends, m, id))
      && ((forall m :: !Records(ends, m, id)) && id in links ==> after[id] == links[id])
      && forall m :: LastRecord(ends, m, id) ==> id in after && after[id] == Link(ends[m].callId, ends[m].prompt, ends[m].status)
    decreases |ends|
  {
    if ends != [] {
      var e, rest := ends[0], ends[1..];
      var links' := if e.newThread != "" then links[e.newThread := Link(e.callId, e.prompt, e.status)] else links;
      RecordsLink(links', rest, id);
      var after := LinkEnds(links, ends);
      assert after == LinkEnds(links', rest);
      hide LinkEnds;
      assert forall m :: 0 <= m < |rest| ==> (Records(ends, m + 1, id) <==> Records(rest, m, id));
      forall m | LastRecord(ends, m, id) ensures id in after && after[id] == Link(ends[m].callId, ends[m].prompt, ends[m].status) {
        if m > 0 {
          assert LastRecord(rest, m - 1, id) by {
            forall k | m - 1 < k < |rest| ensures !Records(rest, k, id) { assert !Records(ends, k + 1, id); }
          }
        } else {
          forall k ensures !Records(rest, k, id) { if 0 <= k < |rest| { assert !Records(ends, k + 1, id); } }
        }
      }
      if m :| Records(ends, m, id) {
        if m > 0 { assert Records(rest, m - 1, id); }
      }
      if forall m :: !Records(ends, m, id) {
        assert !Records(ends, 0, id);
        forall k ensures !Records(rest, k, id) { if 0 <= k < |rest| { assert !Records(ends, k + 1, id); } }
      }
      if m :| Records(rest, m, id) { assert Records(ends, m + 1, id); }
      if e.newThread == id && id != "" { assert Records(ends, 0, id); }
    }
  }

  function EndsOf(file: Option<Rollout>): seq<SpawnEnd> { if file.None? then [] else file.value.ends }

  /** A thread is linked exactly when a spawn record names it, or the result of an earlier delegation does; the last spawn
      record has the last word, else the last such result, with the call it answers and that call's message. */
  lemma {:induction false} LinksExactly(d: Decoding, events: seq<Event>, file: Option<Rollout>, id: string)
    ensures var links, parts, ends := SpawnLinks(d, events, file), Flat(events), EndsOf(file);
      && (id in links <==> Recorded(ends, id) || Spawned(d, parts, id))
      && (forall m :: LastRecord(ends, m, id) ==> links[id] == Link(ends[m].callId, ends[m].prompt, ends[m].status))
      && (!Recorded(ends, id) ==>
            forall n, m :: LastSpawn(d, parts, n, id) && LastDelegation(parts, m, n, parts[n].callId) ==>
              links[id] == Link(parts[n].callId, d.messageOf(parts[m].data), "unknown"))
  {
    EventsAreParts(d, UNLINKED, events);
    ResultsLink(d, Flat(events), id);
    RecordsLink(LinkParts(d, UNLINKED, Flat(events)).links, EndsOf(file), id);
    hide Flat, LinkParts, LinkEnds, Spawns, LastDelegation, Records;
    NoEnds(LinkParts(d, UNLINKED, Flat(events)).links);
  }

  lemma {:induction false} NoEnds(links: map<string, Link>)
    ensures LinkEnds(links, []) == links
  {}

  // ----- the branches of a tree -----

  /** What a branch says of itself: the branch record in its file, or what its thread is known by. */
  function Own(r: Rollout): Branch {
    if r.meta.Some? then r.meta.value else Branch(r.id, r.cwd, "", "", r.role, r.nickname, r.model, "unknown", [])
  }

  /** The call, the description and the status a thread gets from where it was spawned. */
  ghost predicate AttachedBy(d: Decoding, events: seq<Event>, ends: seq<SpawnEnd>, id: string, link: Link) {
    || (exists m :: LastRecord(ends, m, id) && link == Link(ends[m].callId, ends[m].prompt, ends[m].status))
    || (!Recorded(ends, id)
        && exists n, m :: LastSpawn(d, Flat(events), n, id) && LastDelegation(Flat(events), m, n, Flat(events)[n].callId)
             && link == Link(Flat(events)[n].callId, d.messageOf(Flat(events)[m].data), "unknown"))
  }

  ghost predicate Unattached(d: Decoding, events: seq<Event>, ends: seq<SpawnEnd>, id: string) {
    !Recorded(ends, id) && !Spawned(d, Flat(events), id)
  }

  /** A branch as its own file and its parent's make it: the call it was spawned by is the parent's to say; a description and a status
      of its own it keeps. */
  ghost predicate BranchSays(d: Decoding, r: Rollout, parent: string, events: seq<Event>, ends: seq<SpawnEnd>, b: Branch) {
    && b.id == r.id && b.parentId == parent && b.cwd == r.cwd && b.events == EventsIn(r) && b.name == Own(r).name && b.model == Own(r).model
    && (Unattached(d, events, ends, r.id) ==>
          b.callId == Own(r).callId && b.description == Own(r).description && b.status == Own(r).status)
    && (!Unattached(d, events, ends, r.id) ==>
          exists link :: AttachedBy(d, events, ends, r.id, link) && b.callId == link.callId
            && b.description == (if Own(r).description == "" then link.description else Own(r).description)
            && b.status == (if Own(r).status == "unknown" then link.status else Own(r).status))
  }

  lemma {:induction false} LastOfRecords(ends: seq<SpawnEnd>, id: string, m: int)
    requires Records(ends, m, id)
    ensures exists k :: LastRecord(ends, k, id)
    decreases |ends| - m
  {
    if !LastRecord(ends, m, id) {
      var k :| m < k < |ends| && Records(ends, k, id);
      LastOfRecords(ends, id, k);
    }
  }

  lemma {:induction false} LastOfSpawns(d: Decoding, parts: seq<Part>, id: string, n: int)
    requires Spawns(d, parts, n, id)
    ensures exists k :: LastSpawn(d, parts, k, id)
    decreases |parts| - n
  {
    hide Spawns;
    if !LastSpawn(d, parts, n, id) {
      var k :| n < k < |parts| && Spawns(d, parts, k, id);
      LastOfSpawns(d, parts, id, k);
    }
  }

  lemma {:induction false} LastOfDelegations(parts: seq<Part>, callId: string, m: int, n: int)
    requires 0 <= m < n <= |parts| && Delegates(parts[m], callId)
    ensures exists k :: LastDelegation(parts, k, n, callId)
    decreases n - m
  {
    if !LastDelegation(parts, m, n, callId) {
      var k :| m < k < n && Delegates(parts[k], callId);
      LastOfDelegations(parts, callId, k, n);
    }
  }

  /** Some result attaches the thread by its last such result and that one's last delegation. */
  lemma {:induction false} SomeSpawn(d: Decoding, parts: seq<Part>, id: string) returns (n: int, m: int)
    requires Spawned(d, parts, id)
    ensures LastSpawn(d, parts, n, id) && 0 <= n < |parts| && LastDelegation(parts, m, n, parts[n].callId) && 0 <= m < |parts|
  {
    var k :| Spawns(d, parts, k, id);
    LastOfSpawns(d, parts, id, k);
    n :| LastSpawn(d, parts, n, id);
    var q :| 0 <= q < n && Delegates(parts[q], parts[n].callId);
    LastOfDelegations(parts, parts[n].callId, q, n);
    m :| LastDelegation(parts, m, n, parts[n].callId);
  }

  /** A link is what attaches the thread; without one nothing does. */
  lemma {:induction false} LinkAttaches(d: Decoding, events: seq<Event>, file: Option<Rollout>, id: string)
    ensures var links := SpawnLinks(d, events, file);
      if id in links then AttachedBy(d, events, EndsOf(file), id, links[id]) && !Unattached(d, events, EndsOf(file), id)
      else Unattached(d, events, EndsOf(file), id)
  {
    LinksExactly(d, events, file, id);
    var parts, ends := Flat(events), EndsOf(file);
    hide SpawnLinks, Flat, EndsOf, Recorded, Spawned, LastSpawn, LastDelegation, LastRecord;
    if Recorded(ends, id) {
      var k := SomeRecord(ends, id);
    } else if Spawned(d, parts, id) {
      var n, m := SomeSpawn(d, parts, id);
    }
  }

  lemma SomeRecord(ends: seq<SpawnEnd>, id: string) returns (k: int)
    requires Recorded(ends, id)
    ensures LastRecord(ends, k, id) && 0 <= k < |ends|
  {
    var m :| Records(ends, m, id);
    LastOfRecords(ends, id, m);
    k :| LastRecord(ends, k, id);
  }

  lemma {:induction false} RestoredSays(d: Decoding, r: Rollout, parent: string, events: seq<Event>, file: Option<Rollout>)
    ensures BranchSays(d, r, parent, events, EndsOf(file), Restored(r, parent, SpawnLinks(d, events, file)))
  {
    LinkAttaches(d, events, file, r.id);
    hide SpawnLinks, EndsOf, AttachedBy, Unattached, EventsIn;
  }

  /** Every branch that the walk of a directory lists, rollouts written elsewhere included. */
  lemma {:induction false} EveryBranchSays(d: Decoding, dir: seq<Rollout>, root: Rollout, out: seq<Branch>, at: Places, entered: set<string>, k: nat)
    requires Explored(d, dir, root, out, at, entered) && k < |out|
    ensures out[k].id in at && at[out[k].id] < |dir|
    ensures var r := dir[at[out[k].id]];
      BranchSays(d, r, if r.parentId == root.id then "" else r.parentId,
                 if r.parentId in at then EventsIn(dir[at[r.parentId]]) else EventsIn(root), EndsOf(FileOf(dir, root, r.parentId)), out[k])
  {
    hide BranchSays, Complete, Lists, NoneEmpty, DistinctIds, Branches.ParentsFirst, Restored, SpawnLinks, FileOf, EventsIn;
    var seen :| Walked(d, dir, root, seen, out, at, entered);
    var r := dir[at[out[k].id]];
    RestoredSays(d, r, if r.parentId == root.id then "" else r.parentId, EventsAt(dir, root, at, r.parentId), FileOf(dir, root, r.parentId));
  }
}
