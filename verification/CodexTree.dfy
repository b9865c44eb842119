/** Reading a tree of Codex rollouts back from a directory full of unrelated ones
    (internal/session/codex_branches.go:14-165).  A rollout's place in the directory walk
    stands for its path; rollouts whose first record cannot be read are not listed. */
module CodexTree {
  import opened Basics
  import opened Conversation
  import Branches
  import opened Codex
  import opened Remap

  datatype SpawnEnd = SpawnEnd(callId: string, newThread: string, prompt: string, status: string)

  /** `meta` is the branch record this tool leaves in what it writes; `content` is missing when
      the records cannot be read. */
  datatype Rollout = Rollout(
    id: string, cwd: string, parentId: string, role: string, nickname: string, model: string,
    meta: Option<Branch>, content: Option<seq<Record>>, ends: seq<SpawnEnd>)

  datatype Link = Link(callId: string, description: string, status: string)

  /** What foreign formats decode to: the thread a result names, or "", and the message a call
      carries. */
  datatype Decoding = Decoding(threadOf: string -> string, messageOf: RawJson -> string)

  function EventsIn(r: Rollout): seq<Event> { if r.content.Some? then Read(r.content.value) else [] }

  // ----- which call spawned which thread -----

  datatype LinkScan = LinkScan(delegation: map<string, Part>, links: map<string, Link>)

  function LinkPart(d: Decoding, s: LinkScan, p: Part): LinkScan {
    if p.kind.ToolCall? && IsDelegation(p.toolName) then s.(delegation := s.delegation[p.callId := p])
    else if p.kind.ToolResult? && p.callId in s.delegation && d.threadOf(p.text) != "" then
      s.(links := s.links[d.threadOf(p.text) := Link(p.callId, d.messageOf(s.delegation[p.callId].data), "unknown")])
    else s
  }

  function LinkParts(d: Decoding, s: LinkScan, parts: seq<Part>): LinkScan
    decreases |parts|
  {
    if parts == [] then s else LinkParts(d, LinkPart(d, s, parts[0]), parts[1..])
  }

  function LinkEvents(d: Decoding, s: LinkScan, events: seq<Event>): LinkScan
    decreases |events|
  {
    if events == [] then s else LinkEvents(d, LinkParts(d, s, events[0].parts), events[1..])
  }

  function LinkEnds(links: map<string, Link>, ends: seq<SpawnEnd>): map<string, Link>
    decreases |ends|
  {
    if ends == [] then links
    else
      var e := ends[0];
      LinkEnds(if e.newThread != "" then links[e.newThread := Link(e.callId, e.prompt, e.status)] else links, ends[1..])
  }

  /** Results name threads; the spawn records in the parent's own file have the last word. */
  function SpawnLinks(d: Decoding, events: seq<Event>, file: Option<Rollout>): map<string, Link> {
    var links := LinkEvents(d, LinkScan(map[], map[]), events).links;
    if file.None? then links else LinkEnds(links, file.value.ends)
  }

  method CodexSpawnLinks(d: Decoding, events: seq<Event>, file: Option<Rollout>) returns (links: map<string, Link>)
    ensures links == SpawnLinks(d, events, file)
  {
    var s := LinkScan(map[], map[]);
    assert events[0..] == events;
    for i := 0 to |events|
      invariant LinkEvents(d, s, events[i..]) == LinkEvents(d, LinkScan(map[], map[]), events)
    {
      assert events[i..][0] == events[i] && events[i..][1..] == events[i + 1..];
      s := ScanParts(d, s, events[i].parts);
    }
    assert events[|events|..] == [];
    links := s.links;
    if file.None? { return; }
    var ends := file.value.ends;
    assert ends[0..] == ends;
    for i := 0 to |ends|
      invariant LinkEnds(links, ends[i..]) == LinkEnds(s.links, ends)
    {
      assert ends[i..][0] == ends[i] && ends[i..][1..] == ends[i + 1..];
      if ends[i].newThread != "" {
        links := links[ends[i].newThread := Link(ends[i].callId, ends[i].prompt, ends[i].status)];
      }
    }
    assert ends[|ends|..] == [];
  }

  method ScanParts(d: Decoding, start: LinkScan, parts: seq<Part>) returns (s: LinkScan)
    ensures s == LinkParts(d, start, parts)
  {
    s := start;
    assert parts[0..] == parts;
    for j := 0 to |parts|
      invariant LinkParts(d, s, parts[j..]) == LinkParts(d, start, parts)
    {
      hide IsDelegation;
      var p := parts[j];
      assert parts[j..][0] == p && parts[j..][1..] == parts[j + 1..];
      if p.kind.ToolCall? && IsDelegation(p.toolName) {
        s := s.(delegation := s.delegation[p.callId := p]);
      }
      if p.kind.ToolResult? && p.callId in s.delegation {
        var id := d.threadOf(p.text);
        if id != "" {
          s := s.(links := s.links[id := Link(p.callId, d.messageOf(s.delegation[p.callId].data), "unknown")]);
        }
      }
    }
    assert parts[|parts|..] == [];
  }

  // ----- what the walk of the directory finds -----

  /** The rollouts that name `id` as their parent, in the order of the walk. */
  function ChildrenOf(dir: seq<Rollout>, id: string): (found: seq<nat>)
    ensures forall i :: i in found <==> 0 <= i < |dir| && dir[i].parentId == id
    ensures forall j, k :: 0 <= j < k < |found| ==> found[j] < found[k]
  {
    if dir == [] then []
    else
      var last := |dir| - 1;
      var earlier := ChildrenOf(dir[..last], id);
      assert forall i :: i in earlier <==> 0 <= i < last && dir[..last][i].parentId == id;
      assert forall i :: i in earlier <==> 0 <= i < last && dir[i].parentId == id;
      assert forall j :: 0 <= j < |earlier| ==> earlier[j] in earlier;
      earlier + (if dir[last].parentId == id then [last] else [])
  }

  /** The last rollout of the walk that has a parent and this id. */
  function PathOf(dir: seq<Rollout>, id: string): (found: Option<nat>)
    ensures found.Some? ==> found.value < |dir| && dir[found.value].id == id && dir[found.value].parentId != ""
    ensures found.None? ==> forall i :: 0 <= i < |dir| ==> dir[i].id != id || dir[i].parentId == ""
  {
    if dir == [] then None
    else
      var last := |dir| - 1;
      if dir[last].id == id && dir[last].parentId != "" then Some(last) else PathOf(dir[..last], id)
  }

  /** The file an id is read from: the root's is known from the start. */
  function FileOf(dir: seq<Rollout>, root: Rollout, id: string): Option<Rollout> {
    var path := PathOf(dir, id);
    if path.Some? then Some(dir[path.value]) else if id == root.id then Some(root) else None
  }

  // ----- what becomes of one rollout -----

  /** The branch a rollout is read as, under the parent it is attached to. */
  function Restored(r: Rollout, parent: string, links: map<string, Link>): Branch {
    var b0 :=
      if r.meta.Some? then r.meta.value.(id := r.id, parentId := parent, cwd := r.cwd, events := EventsIn(r))
      else Branch(r.id, r.cwd, parent, "", r.role, r.nickname, r.model, "unknown", EventsIn(r));
    if r.id !in links then b0
    else
      var link := links[r.id];
      b0.(callId := link.callId,
          description := if b0.description == "" then link.description else b0.description,
          status := if b0.status == "unknown" then link.status else b0.status)
  }

  /** Which rollout each id was read from. */
  type Places = map<string, nat>

  ghost predicate PlacesIn(dir: seq<Rollout>, at: Places) {
    forall q :: q in at ==> at[q] < |dir| && dir[at[q]].id == q && dir[at[q]].parentId != ""
  }

  function EventsAt(dir: seq<Rollout>, root: Rollout, at: Places, id: string): seq<Event>
    requires id in at ==> at[id] < |dir|
  {
    if id in at then EventsIn(dir[at[id]]) else EventsIn(root)
  }

  /** The branch read from `at[q]`, attached where its parent was read. */
  ghost function RestoredAt(d: Decoding, dir: seq<Rollout>, root: Rollout, at: Places, q: string): Branch
    requires PlacesIn(dir, at) && q in at
  {
    var p := dir[at[q]].parentId;
    Restored(dir[at[q]], if p == root.id then "" else p, SpawnLinks(d, EventsAt(dir, root, at, p), FileOf(dir, root, p)))
  }

  // ----- the recursive load -----

  datatype TreeFault = DuplicateOrCyclic(id: string) | Unreadable(id: string)

  /** Which ids have been seen: the root's, and those of the rollouts read, whose parents have
      all been entered. */
  ghost predicate Reached(dir: seq<Rollout>, root: Rollout, seen: set<string>, at: Places, entered: set<string>) {
    && PlacesIn(dir, at)
    && root.id in seen && root.id !in at && (forall q :: q in seen <==> q == root.id || q in at)
    && root.id in entered && (forall q :: q in entered ==> q in seen)
    && (forall q :: q in at ==> dir[at[q]].parentId in entered)
  }

  ghost predicate DistinctIds(out: seq<Branch>) { forall j, k :: 0 <= j < k < |out| ==> out[j].id != out[k].id }

  ghost predicate Lists(out: seq<Branch>, id: string) { exists k :: 0 <= k < |out| && out[k].id == id }

  /** Every id entered but the root's was read from a rollout with something in it. */
  ghost predicate NoneEmpty(dir: seq<Rollout>, root: Rollout, at: Places, entered: set<string>)
    requires PlacesIn(dir, at)
  {
    forall q :: q in entered && q != root.id && q in at ==> EventsIn(dir[at[q]]) != []
  }

  /** What the load has read so far: every id it has entered but the root's is one branch, read
      from one rollout that is not empty, listed after its parent. */
  ghost predicate Walked(d: Decoding, dir: seq<Rollout>, root: Rollout, seen: set<string>, out: seq<Branch>, at: Places, entered: set<string>) {
    && Reached(dir, root, seen, at, entered)
    && (forall k :: 0 <= k < |out| ==> out[k].id in at && out[k].id in entered && out[k] == RestoredAt(d, dir, root, at, out[k].id))
    && DistinctIds(out) && Branches.ParentsFirst(out)
    && (forall q :: q in entered && q != root.id ==> Lists(out, q))
    && NoneEmpty(dir, root, at, entered)
  }

  /** Every rollout that names `q` as its parent has been read, and entered unless it is empty. */
  ghost predicate Complete(dir: seq<Rollout>, at: Places, entered: set<string>, q: string) {
    forall i :: 0 <= i < |dir| && dir[i].parentId == q ==>
      dir[i].id in at && at[dir[i].id] == i && (EventsIn(dir[i]) != [] ==> dir[i].id in entered)
  }

  /** Nothing read so far is a child of `q`. */
  ghost predicate Untouched(dir: seq<Rollout>, at: Places, q: string)
    requires PlacesIn(dir, at)
  {
    forall x :: x in at ==> dir[at[x]].parentId != q
  }

  /** Below `rootId` only the ids of `family` occur, each once, and all of it can be read. */
  ghost predicate Tame(dir: seq<Rollout>, rootId: string, family: set<string>) {
    && rootId !in family
    && (forall i :: 0 <= i < |dir| && (dir[i].parentId in family || dir[i].parentId == rootId) ==>
          dir[i].id in family && dir[i].content.Some?)
    && (forall i, j :: (
          0 <= i < j < |dir| && (dir[i].parentId in family || dir[i].parentId == rootId)
          && (dir[j].parentId in family || dir[j].parentId == rootId)) ==> dir[i].id != dir[j].id)
  }

  ghost predicate Within(entered: set<string>, rootId: string, family: set<string>) {
    forall q :: q in entered ==> q in family || q == rootId
  }

  /** One load went from `at`, `entered` to `at'`, `entered'`: it read `p` and what hangs below. */
  ghost predicate Loaded(dir: seq<Rollout>, at: Places, entered: set<string>, at': Places, entered': set<string>, p: string)
    requires PlacesIn(dir, at')
  {
    && (forall q :: q in at ==> q in at' && at'[q] == at[q]) && entered <= entered'
    && (forall q :: q in at' && q !in at ==>
          dir[at'[q]].parentId == p || (dir[at'[q]].parentId in entered' && dir[at'[q]].parentId !in entered))
    && Complete(dir, at', entered', p)
    && (forall q :: q in entered' && q !in entered ==> Complete(dir, at', entered', q))
  }

  lemma RestoredStays(d: Decoding, dir: seq<Rollout>, root: Rollout, at: Places, at': Places, q: string)
    requires PlacesIn(dir, at) && PlacesIn(dir, at') && q in at && root.id !in at'
    requires forall x :: x in at ==> x in at' && at'[x] == at[x]
    requires dir[at[q]].parentId in at || dir[at[q]].parentId == root.id
    ensures RestoredAt(d, dir, root, at', q) == RestoredAt(d, dir, root, at, q)
  {
    hide SpawnLinks, Restored, FileOf, EventsIn;
  }

  /** An empty rollout is read and passed over. */
  lemma PassedOver(d: Decoding, dir: seq<Rollout>, root: Rollout, seen: set<string>, out: seq<Branch>, at: Places, entered: set<string>, i: nat)
    requires Walked(d, dir, root, seen, out, at, entered) && i < |dir|
    requires dir[i].parentId in entered && dir[i].parentId != "" && dir[i].id !in seen
    ensures Walked(d, dir, root, seen + {dir[i].id}, out, at[dir[i].id := i], entered)
  {
    hide RestoredAt;
    var at' := at[dir[i].id := i];
    forall k | 0 <= k < |out| ensures out[k] == RestoredAt(d, dir, root, at', out[k].id) {
      RestoredStays(d, dir, root, at, at', out[k].id);
    }
  }

  /** Any other is read, listed and entered. */
  lemma ListedNext(d: Decoding, dir: seq<Rollout>, root: Rollout, seen: set<string>, out: seq<Branch>, at: Places, entered: set<string>, i: nat)
    requires Walked(d, dir, root, seen, out, at, entered) && i < |dir|
    requires dir[i].parentId in entered && dir[i].parentId != "" && dir[i].id !in seen && EventsIn(dir[i]) != []
    ensures var at', id := at[dir[i].id := i], dir[i].id;
      && PlacesIn(dir, at')
      && Walked(d, dir, root, seen + {id}, out + [RestoredAt(d, dir, root, at', id)], at', entered + {id})
  {
    var at', id, p := at[dir[i].id := i], dir[i].id, dir[i].parentId;
    PassedOver(d, dir, root, seen, out, at, entered, i);
    RestoredIds(d, dir, root, at', id);
    NotYetListed(d, dir, root, seen, out, at, entered, id);
    if p != root.id { ParentListed(d, dir, root, seen, out, at, entered, p); }
    hide *;
    EnteredNext(d, dir, root, seen + {id}, out, at', entered, id);
  }

  lemma RestoredIds(d: Decoding, dir: seq<Rollout>, root: Rollout, at: Places, q: string)
    requires PlacesIn(dir, at) && q in at
    ensures var b, p := RestoredAt(d, dir, root, at, q), dir[at[q]].parentId;
      b.id == q && b.parentId == if p == root.id then "" else p
  {
    hide SpawnLinks, FileOf, EventsIn;
  }

  lemma NotYetListed(d: Decoding, dir: seq<Rollout>, root: Rollout, seen: set<string>, out: seq<Branch>, at: Places, entered: set<string>, id: string)
    requires Walked(d, dir, root, seen, out, at, entered) && id !in seen
    ensures !Lists(out, id) && id !in entered
  {
    hide RestoredAt;
  }

  lemma ParentListed(d: Decoding, dir: seq<Rollout>, root: Rollout, seen: set<string>, out: seq<Branch>, at: Places, entered: set<string>, p: string)
    requires Walked(d, dir, root, seen, out, at, entered) && p in entered && p != root.id
    ensures Lists(out, p)
  {
    hide RestoredAt;
  }

  lemma EnteredNext(d: Decoding, dir: seq<Rollout>, root: Rollout, seen: set<string>, out: seq<Branch>, at: Places, entered: set<string>, id: string)
    requires Walked(d, dir, root, seen, out, at, entered) && id in at && id !in entered && !Lists(out, id)
    requires var b := RestoredAt(d, dir, root, at, id); b.id == id && (b.parentId == "" || Lists(out, b.parentId))
    requires EventsIn(dir[at[id]]) != []
    ensures Walked(d, dir, root, seen, out + [RestoredAt(d, dir, root, at, id)], at, entered + {id})
  {
    hide RestoredAt, Lists, DistinctIds, Branches.ParentsFirst;
    var b := RestoredAt(d, dir, root, at, id);
    OneMore(out, b);
    var out' := out + [b];
    assert forall k :: 0 <= k < |out| ==> out'[k] == out[k];
  }

  lemma OneMore(out: seq<Branch>, b: Branch)
    requires DistinctIds(out) && Branches.ParentsFirst(out) && !Lists(out, b.id)
    requires b.parentId == "" || Lists(out, b.parentId)
    ensures DistinctIds(out + [b]) && Branches.ParentsFirst(out + [b]) && Lists(out + [b], b.id)
    ensures forall q :: Lists(out, q) ==> Lists(out + [b], q)
  {
    var out' := out + [b];
    assert out'[|out|].id == b.id;
    assert forall k :: 0 <= k < |out| ==> out'[k] == out[k];
    forall k | 0 <= k < |out'| && out'[k].parentId != "" ensures exists j :: 0 <= j < k && out'[j].id == out'[k].parentId {
      if k < |out| {
        var j :| 0 <= j < k && out[j].id == out[k].parentId;
        assert out'[j].id == out'[k].parentId;
      } else {
        var j :| 0 <= j < |out| && out[j].id == b.parentId;
        assert out'[j].id == b.parentId;
      }
    }
  }

  function ChildrenIn(children: map<string, seq<nat>>, p: string): seq<nat> { if p in children then children[p] else [] }

  function PathIn(paths: map<string, Rollout>, p: string): Option<Rollout> { if p in paths then Some(paths[p]) else None }

  ghost predicate Indexed(dir: seq<Rollout>, root: Rollout, children: map<string, seq<nat>>, paths: map<string, Rollout>) {
    forall p :: (p != "" ==> ChildrenIn(children, p) == ChildrenOf(dir, p)) && PathIn(paths, p) == FileOf(dir, root, p)
  }

  lemma {:induction false} ChildrenNext(dir: seq<Rollout>, i: nat, p: string)
    requires i < |dir|
    ensures ChildrenOf(dir[..i + 1], p) == ChildrenOf(dir[..i], p) + (if dir[i].parentId == p then [i] else [])
  {
    assert dir[..i + 1][..i] == dir[..i];
  }

  lemma FileNext(dir: seq<Rollout>, i: nat, root: Rollout, p: string)
    requires i < |dir|
    ensures FileOf(dir[..i + 1], root, p)
      == if dir[i].id == p && dir[i].parentId != "" then Some(dir[i]) else FileOf(dir[..i], root, p)
  {
    assert dir[..i + 1][..i] == dir[..i];
    var path := PathOf(dir[..i], p);
    if path.Some? { assert dir[..i + 1][path.value] == dir[..i][path.value]; }
  }

  lemma NextIndexed(dir: seq<Rollout>, i: nat, root: Rollout, children: map<string, seq<nat>>, paths: map<string, Rollout>)
    requires i < |dir| && Indexed(dir[..i], root, children, paths)
    ensures var r := dir[i];
      if r.parentId == "" then Indexed(dir[..i + 1], root, children, paths)
      else Indexed(dir[..i + 1], root, children[r.parentId := ChildrenIn(children, r.parentId) + [i]], paths[r.id := r])
  {
    hide FileOf, ChildrenOf;
    var r := dir[i];
    var children' := if r.parentId == "" then children else children[r.parentId := ChildrenIn(children, r.parentId) + [i]];
    var paths' := if r.parentId == "" then paths else paths[r.id := r];
    forall p
      ensures (p != "" ==> ChildrenIn(children', p) == ChildrenOf(dir[..i + 1], p)) && PathIn(paths', p) == FileOf(dir[..i + 1], root, p)
    {
      ChildrenNext(dir, i, p);
      FileNext(dir, i, root, p);
      assert ChildrenOf(dir[..i], p) + [] == ChildrenOf(dir[..i], p);
      assert (p != "" ==> ChildrenIn(children, p) == ChildrenOf(dir[..i], p)) && PathIn(paths, p) == FileOf(dir[..i], root, p);
    }
  }

  /** Every rollout of the walk has an id. */
  ghost predicate Named(dir: seq<Rollout>) { forall i :: 0 <= i < |dir| ==> dir[i].id != "" }

  // ----- one load, child by child -----

  ghost predicate Extends(at: Places, at': Places) { forall q :: q in at ==> q in at' && at'[q] == at[q] }

  /** One child, read at `i`, has been dealt with. */
  predicate DealtWith(dir: seq<Rollout>, at: Places, entered: set<string>, i: nat)
    requires i < |dir|
  {
    dir[i].id in at && at[dir[i].id] == i && (EventsIn(dir[i]) != [] ==> dir[i].id in entered)
  }

  /** The load of `p` that began with `at0`, `entered0` has dealt with its first `k` children and
      everything below them, and with nothing else. */
  ghost predicate HalfLoaded(dir: seq<Rollout>, kids: seq<nat>, k: nat, at0: Places, entered0: set<string>,
      at: Places, entered: set<string>, p: string)
    requires PlacesIn(dir, at) && k <= |kids|
  {
    && Extends(at0, at) && entered0 <= entered
    && (forall q :: q in at && q !in at0 ==>
          dir[at[q]].parentId == p || (dir[at[q]].parentId in entered && dir[at[q]].parentId !in entered0))
    && (forall q :: q in entered && q !in entered0 ==> Complete(dir, at, entered, q))
    && (forall m :: 0 <= m < k ==> kids[m] < |dir| && DealtWith(dir, at, entered, kids[m]))
    && (forall q :: q in at && dir[at[q]].parentId == p ==> at[q] in kids[..k])
  }

  lemma CompleteStays(dir: seq<Rollout>, at: Places, entered: set<string>, at': Places, entered': set<string>, q: string)
    requires Complete(dir, at, entered, q) && Extends(at, at') && entered <= entered'
    ensures Complete(dir, at', entered', q)
  {}

  lemma HalfStart(dir: seq<Rollout>, kids: seq<nat>, at: Places, entered: set<string>, p: string)
    requires PlacesIn(dir, at) && Untouched(dir, at, p)
    ensures HalfLoaded(dir, kids, 0, at, entered, at, entered, p)
  {}

  lemma {:induction false} HalfDone(dir: seq<Rollout>, kids: seq<nat>, at0: Places, entered0: set<string>, at: Places, entered: set<string>, p: string)
    requires PlacesIn(dir, at) && HalfLoaded(dir, kids, |kids|, at0, entered0, at, entered, p) && kids == ChildrenOf(dir, p)
    ensures Loaded(dir, at0, entered0, at, entered, p)
  {
    hide EventsIn;
    forall i | 0 <= i < |dir| && dir[i].parentId == p ensures DealtWith(dir, at, entered, i) {
      assert i in kids;
    }
  }

  lemma HalfPassed(dir: seq<Rollout>, kids: seq<nat>, k: nat, at0: Places, entered0: set<string>, at: Places, entered: set<string>, p: string)
    requires k < |kids| && kids[k] < |dir| && dir[kids[k]].parentId == p && dir[kids[k]].id !in at
    requires PlacesIn(dir, at) && HalfLoaded(dir, kids, k, at0, entered0, at, entered, p)
    requires EventsIn(dir[kids[k]]) == [] && p != ""
    ensures var at' := at[dir[kids[k]].id := kids[k]];
      PlacesIn(dir, at') && HalfLoaded(dir, kids, k + 1, at0, entered0, at', entered, p)
  {
    hide EventsIn;
    var i := kids[k];
    var at' := at[dir[i].id := i];
    assert kids[..k + 1] == kids[..k] + [i];
    forall q | q in entered && q !in entered0 ensures Complete(dir, at', entered, q) {
      CompleteStays(dir, at, entered, at', entered, q);
    }
    hide Complete;
  }

  /** The child has been entered, and a load of its own has gone from `at1`, `entered1` to
      `at2`, `entered2`. */
  lemma HalfEntered(dir: seq<Rollout>, kids: seq<nat>, k: nat, at0: Places, entered0: set<string>, at: Places, entered: set<string>,
      at2: Places, entered2: set<string>, p: string)
    requires k < |kids| && kids[k] < |dir| && dir[kids[k]].parentId == p && dir[kids[k]].id !in at && dir[kids[k]].id !in entered
    requires PlacesIn(dir, at) && HalfLoaded(dir, kids, k, at0, entered0, at, entered, p) && p != "" && p in entered0
    requires var id := dir[kids[k]].id;
      id != p && PlacesIn(dir, at2) && Loaded(dir, at[id := kids[k]], entered + {id}, at2, entered2, id)
    ensures HalfLoaded(dir, kids, k + 1, at0, entered0, at2, entered2, p)
  {
    hide EventsIn;
    var i, id := kids[k], dir[kids[k]].id;
    var at1, entered1 := at[id := i], entered + {id};
    assert kids[..k + 1] == kids[..k] + [i];
    assert Extends(at, at2) && Extends(at0, at2) && at2[id] == i;
    forall q | q in entered2 && q !in entered0 ensures Complete(dir, at2, entered2, q) {
      if q in entered { CompleteStays(dir, at, entered, at2, entered2, q); }
    }
    hide Complete;
    forall q | q in at2 && q !in at0
      ensures dir[at2[q]].parentId == p || (dir[at2[q]].parentId in entered2 && dir[at2[q]].parentId !in entered0)
    {
      if q in at { assert at2[q] == at[q]; }
    }
    forall q | q in at2 && dir[at2[q]].parentId == p ensures at2[q] in kids[..k + 1] {
      if q in at { assert at2[q] == at[q]; }
    }
    forall m | 0 <= m < k + 1 ensures kids[m] < |dir| && DealtWith(dir, at2, entered2, kids[m]) {
      if m < k { assert DealtWith(dir, at, entered, kids[m]); }
    }
  }

  /** Reads a root thread and every run delegated below it. */
  class TreeReader {
    const d: Decoding
    const dir: seq<Rollout>
    const root: Rollout
    var children: map<string, seq<nat>>
    var paths: map<string, Rollout>
    var seen: set<string>
    var out: seq<Branch>
    ghost var at: Places
    ghost var entered: set<string>

    constructor (d: Decoding, dir: seq<Rollout>, root: Rollout)
      ensures this.d == d && this.dir == dir && this.root == root
      ensures children == map[] && paths == map[root.id := root] && seen == {root.id} && out == []
      ensures at == map[] && entered == {root.id}
    {
      this.d, this.dir, this.root := d, dir, root;
      children, paths, seen, out, at, entered := map[], map[root.id := root], {root.id}, [], map[], {root.id};
    }

    method Index()
      requires children == map[] && paths == map[root.id := root]
      modifies this`children, this`paths
      ensures Indexed(dir, root, children, paths)
    {
      assert dir[..0] == [];
      for i := 0 to |dir|
        invariant Indexed(dir[..i], root, children, paths)
      {
        hide *;
        NextIndexed(dir, i, root, children, paths);
        var r := dir[i];
        if r.parentId != "" {
          children := children[r.parentId := ChildrenIn(children, r.parentId) + [i]];
          paths := paths[r.id := r];
        }
      }
      assert dir[..|dir|] == dir;
    }

    /** Attaches the rollouts below `nativeParent` and, recursively, below each of those. */
    method Load(nativeParent: string, parent: string, events: seq<Event>, ghost family: set<string>) returns (fault: Option<TreeFault>)
      requires Indexed(dir, root, children, paths) && Named(dir) && Walked(d, dir, root, seen, out, at, entered)
      requires nativeParent in entered && nativeParent != "" && Untouched(dir, at, nativeParent)
      requires parent == (if nativeParent == root.id then "" else nativeParent) && events == EventsAt(dir, root, at, nativeParent)
      modifies this`seen, this`out, this`at, this`entered
      ensures old(seen) <= seen
      ensures fault.None? ==>
        Walked(d, dir, root, seen, out, at, entered) && PlacesIn(dir, at) && Loaded(dir, old(at), old(entered), at, entered, nativeParent)
      ensures Tame(dir, root.id, family) && Within(old(entered), root.id, family) ==>
        fault.None? && Within(entered, root.id, family)
      decreases IdsOf(dir) - seen, 1
    {
      hide *;
      ghost var at0, entered0, seen0 := at, entered, seen;
      LoadStarts(d, dir, root, seen, out, at, entered, children, paths, nativeParent);
      var links := CodexSpawnLinks(d, events, PathIn(paths, nativeParent));
      var kids := ChildrenIn(children, nativeParent);
      for k := 0 to |kids|
        invariant Walked(d, dir, root, seen, out, at, entered) && PlacesIn(dir, at)
        invariant HalfLoaded(dir, kids, k, at0, entered0, at, entered, nativeParent)
        invariant seen0 <= seen
        invariant Tame(dir, root.id, family) && Within(entered0, root.id, family) ==> Within(entered, root.id, family)
      {
        hide *;
        fault := Attach(nativeParent, parent, links, kids, k, at0, entered0, family);
        if fault.Some? { return; }
      }
      HalfDone(dir, kids, at0, entered0, at, entered, nativeParent);
      fault := None;
    }

    /** One child: it is read, listed unless it is empty, and loaded in its turn. */
    method Attach(nativeParent: string, parent: string, links: map<string, Link>, kids: seq<nat>, k: nat,
                  ghost at0: Places, ghost entered0: set<string>, ghost family: set<string>)
      returns (fault: Option<TreeFault>)
      requires Indexed(dir, root, children, paths) && Named(dir) && Walked(d, dir, root, seen, out, at, entered) && PlacesIn(dir, at)
      requires nativeParent in entered0 && nativeParent != "" && kids == ChildrenOf(dir, nativeParent) && k < |kids|
      requires PlacesIn(dir, at0) && (nativeParent in at0 || nativeParent == root.id)
      requires parent == (if nativeParent == root.id then "" else nativeParent)
      requires links == SpawnLinks(d, EventsAt(dir, root, at0, nativeParent), FileOf(dir, root, nativeParent))
      requires HalfLoaded(dir, kids, k, at0, entered0, at, entered, nativeParent)
      requires Tame(dir, root.id, family) && Within(entered0, root.id, family) ==> Within(entered, root.id, family)
      modifies this`seen, this`out, this`at, this`entered
      ensures old(seen) <= seen
      ensures fault.None? ==>
        && Walked(d, dir, root, seen, out, at, entered) && PlacesIn(dir, at)
        && HalfLoaded(dir, kids, k + 1, at0, entered0, at, entered, nativeParent)
      ensures Tame(dir, root.id, family) && Within(entered0, root.id, family) ==>
        fault.None? && Within(entered, root.id, family)
      decreases IdsOf(dir) - seen, 0
    {
      hide *;
      ChildFacts(dir, kids, k, at0, entered0, at, entered, nativeParent);
      var i := kids[k];
      var child := dir[i];
      if child.id in seen {
        SeenBefore(d, dir, root, seen, out, at, entered, kids, k, at0, entered0, nativeParent, family);
        return Some(DuplicateOrCyclic(child.id));
      }
      ghost var seen1, at1, entered1 := seen, at, entered;
      Shrinks(dir, seen, seen, i);
      seen := seen + {child.id};
      if child.content.None? {
        TameReads(dir, root, i, entered0, nativeParent, family);
        return Some(Unreadable(child.id));
      }
      var part := ReadThread(child.content.value);
      EventsAreRead(child, part);
      FreshChild(d, dir, root, seen1, out, at1, entered1, i, family);
      if part == [] {
        HalfPassed(dir, kids, k, at0, entered0, at, entered, nativeParent);
        PassedOver(d, dir, root, seen1, out, at, entered, i);
        at := at[child.id := i];
        return None;
      }
      var b := Restored(child, parent, links);
      ListedNext(d, dir, root, seen1, out, at, entered, i);
      RestoredHere(d, dir, root, at0, at, i, nativeParent, parent, links);
      out := out + [b];
      at := at[child.id := i];
      entered := entered + {child.id};
      fault := Load(child.id, b.id, part, family);
      if fault.None? {
        HalfEntered(dir, kids, k, at0, entered0, at1, entered1, at, entered, nativeParent);
      }
    }
  }

  /** All there is below the root has been read: `out` is it. */
  ghost predicate Explored(d: Decoding, dir: seq<Rollout>, root: Rollout, out: seq<Branch>, at: Places, entered: set<string>) {
    && PlacesIn(dir, at)
    && (exists seen :: Walked(d, dir, root, seen, out, at, entered))
    && (forall q :: q in entered ==> Complete(dir, at, entered, q))
  }

  /** Reads the thread `root` and everything delegated below it. */
  method ReadTree(d: Decoding, dir: seq<Rollout>, root: Rollout, ghost family: set<string>)
    returns (fault: Option<TreeFault>, events: seq<Event>, out: seq<Branch>, ghost at: Places, ghost entered: set<string>)
    requires root.id != "" && Named(dir)
    ensures fault.None? ==> root.content.Some? && events == EventsIn(root) && Explored(d, dir, root, out, at, entered)
    ensures Tame(dir, root.id, family) && root.content.Some? ==>
      fault.None? && forall k :: 0 <= k < |out| ==> out[k].id in family
  {
    events, out, at, entered := [], [], map[], {};
    if root.content.None? { return Some(Unreadable(root.id)), events, out, at, entered; }
    events := ReadThread(root.content.value);
    var reader := new TreeReader(d, dir, root);
    reader.Index();
    assert Walked(d, dir, root, reader.seen, reader.out, reader.at, reader.entered);
    hide Complete, Tame, Indexed, RestoredAt, Loaded;
    fault := reader.Load(root.id, "", events, family);
    out, at, entered := reader.out, reader.at, reader.entered;
    if fault.None? {
      LoadedAll(dir, root.id, at, entered);
      assert Walked(d, dir, root, reader.seen, out, at, entered);
    }
  }

  lemma LoadedAll(dir: seq<Rollout>, rootId: string, at: Places, entered: set<string>)
    requires PlacesIn(dir, at) && Loaded(dir, map[], {rootId}, at, entered, rootId)
    ensures forall q :: q in entered ==> Complete(dir, at, entered, q)
  {
    hide Complete;
  }

  function IdsOf(dir: seq<Rollout>): set<string> { set i | 0 <= i < |dir| :: dir[i].id }

  lemma {:induction false} IndexedAt(dir: seq<Rollout>, root: Rollout, children: map<string, seq<nat>>, paths: map<string, Rollout>, p: string)
    requires Indexed(dir, root, children, paths) && p != ""
    ensures ChildrenIn(children, p) == ChildrenOf(dir, p) && PathIn(paths, p) == FileOf(dir, root, p)
  {
    hide ChildrenOf, FileOf;
  }

  lemma {:induction false} LoadStarts(d: Decoding, dir: seq<Rollout>, root: Rollout, seen: set<string>, out: seq<Branch>, at: Places, entered: set<string>,
      children: map<string, seq<nat>>, paths: map<string, Rollout>, p: string)
    requires Indexed(dir, root, children, paths) && Walked(d, dir, root, seen, out, at, entered)
    requires p in entered && p != "" && Untouched(dir, at, p)
    ensures PlacesIn(dir, at) && (p in at || p == root.id)
    ensures ChildrenIn(children, p) == ChildrenOf(dir, p) && PathIn(paths, p) == FileOf(dir, root, p)
    ensures HalfLoaded(dir, ChildrenIn(children, p), 0, at, entered, at, entered, p)
  {
    hide RestoredAt, HalfLoaded, ChildrenOf, FileOf;
    IndexedAt(dir, root, children, paths, p);
    HalfStart(dir, ChildrenOf(dir, p), at, entered, p);
  }

  lemma {:induction false} ChildFacts(dir: seq<Rollout>, kids: seq<nat>, k: nat, at0: Places, entered0: set<string>, at: Places, entered: set<string>, p: string)
    requires PlacesIn(dir, at) && k < |kids| && kids == ChildrenOf(dir, p) && Named(dir) && p in entered0
    requires HalfLoaded(dir, kids, k, at0, entered0, at, entered, p)
    ensures kids[k] < |dir| && dir[kids[k]].parentId == p && dir[kids[k]].id != "" && p in entered && Extends(at0, at)
  {
    assert kids[k] in kids;
  }

  /** In a tame directory a child cannot have been seen before its turn. */
  lemma {:induction false} SeenBefore(d: Decoding, dir: seq<Rollout>, root: Rollout, seen: set<string>, out: seq<Branch>, at: Places, entered: set<string>,
      kids: seq<nat>, k: nat, at0: Places, entered0: set<string>, p: string, family: set<string>)
    requires Walked(d, dir, root, seen, out, at, entered) && PlacesIn(dir, at) && p in entered
    requires k < |kids| && kids == ChildrenOf(dir, p) && kids[k] < |dir| && dir[kids[k]].parentId == p
    requires HalfLoaded(dir, kids, k, at0, entered0, at, entered, p) && dir[kids[k]].id in seen
    requires Tame(dir, root.id, family) && Within(entered0, root.id, family) ==> Within(entered, root.id, family)
    ensures !(Tame(dir, root.id, family) && Within(entered0, root.id, family))
  {
    hide *;
    if Tame(dir, root.id, family) && Within(entered0, root.id, family) {
      ReachedIn(d, dir, root, seen, out, at, entered);
      NotYetSeen(dir, root, seen, at, entered, kids, k, at0, entered0, p, family);
    }
  }

  lemma ReachedIn(d: Decoding, dir: seq<Rollout>, root: Rollout, seen: set<string>, out: seq<Branch>, at: Places, entered: set<string>)
    requires Walked(d, dir, root, seen, out, at, entered)
    ensures Reached(dir, root, seen, at, entered)
  {
    hide RestoredAt, Reached;
  }

  lemma ReadOnce(dir: seq<Rollout>, root: Rollout, seen: set<string>, at: Places, entered: set<string>, i: nat, family: set<string>)
    requires Reached(dir, root, seen, at, entered) && i < |dir| && dir[i].parentId in entered
    requires Tame(dir, root.id, family) && Within(entered, root.id, family)
    ensures dir[i].id in at ==> at[dir[i].id] == i
    ensures dir[i].id != root.id
  {}

  lemma {:induction false} NotYetSeen(dir: seq<Rollout>, root: Rollout, seen: set<string>, at: Places, entered: set<string>,
      kids: seq<nat>, k: nat, at0: Places, entered0: set<string>, p: string, family: set<string>)
    requires Reached(dir, root, seen, at, entered) && p in entered
    requires k < |kids| && kids == ChildrenOf(dir, p) && kids[k] < |dir| && dir[kids[k]].parentId == p
    requires HalfLoaded(dir, kids, k, at0, entered0, at, entered, p)
    requires Tame(dir, root.id, family) && Within(entered, root.id, family)
    ensures dir[kids[k]].id !in seen
  {
    var i := kids[k];
    assert forall m :: 0 <= m < k ==> kids[m] < kids[k];
    assert i !in kids[..k];
    ReadOnce(dir, root, seen, at, entered, i, family);
    hide Complete, DealtWith, EventsIn, ChildrenOf, Tame, Within;
  }

  lemma TameReads(dir: seq<Rollout>, root: Rollout, i: nat, entered0: set<string>, p: string, family: set<string>)
    requires i < |dir| && dir[i].parentId == p && p in entered0 && dir[i].content.None?
    ensures !(Tame(dir, root.id, family) && Within(entered0, root.id, family))
  {}

  lemma EventsAreRead(r: Rollout, events: seq<Event>)
    requires r.content.Some? && events == Read(r.content.value)
    ensures events == EventsIn(r)
  {}

  lemma RestoredHere(d: Decoding, dir: seq<Rollout>, root: Rollout, at0: Places, at: Places, i: nat, p: string, parent: string, links: map<string, Link>)
    requires i < |dir| && PlacesIn(dir, at0) && PlacesIn(dir, at) && Extends(at0, at) && dir[i].parentId == p != ""
    requires (p in at0 || p == root.id) && root.id !in at && dir[i].id != root.id && dir[i].id !in at
    requires parent == (if p == root.id then "" else p)
    requires links == SpawnLinks(d, EventsAt(dir, root, at0, p), FileOf(dir, root, p))
    ensures var at' := at[dir[i].id := i];
      PlacesIn(dir, at') && RestoredAt(d, dir, root, at', dir[i].id) == Restored(dir[i], parent, links)
    ensures Restored(dir[i], parent, links).id == dir[i].id
  {
    hide SpawnLinks, FileOf, EventsIn;
  }

  /** What a load of the child starts from. */
  lemma FreshChild(d: Decoding, dir: seq<Rollout>, root: Rollout, seen: set<string>, out: seq<Branch>, at: Places, entered: set<string>,
      i: nat, family: set<string>)
    requires Walked(d, dir, root, seen, out, at, entered) && i < |dir| && dir[i].parentId in entered && dir[i].parentId != ""
    requires dir[i].id !in seen
    ensures var id, at' := dir[i].id, at[dir[i].id := i];
      && PlacesIn(dir, at') && Untouched(dir, at', id) && EventsAt(dir, root, at', id) == EventsIn(dir[i])
      && id !in at && root.id !in at && id !in entered && id != root.id && id != dir[i].parentId
    ensures Tame(dir, root.id, family) && Within(entered, root.id, family) ==> Within(entered + {dir[i].id}, root.id, family)
  {
    hide RestoredAt, EventsIn;
  }

  lemma Shrinks(dir: seq<Rollout>, seen0: set<string>, seen: set<string>, i: nat)
    requires i < |dir| && seen0 <= seen && dir[i].id !in seen
    ensures IdsOf(dir) - (seen + {dir[i].id}) < IdsOf(dir) - seen0
  {
    assert dir[i].id in IdsOf(dir) - seen0;
  }
}
