/** Writing a session's delegated runs as Codex child rollouts, and what comes back of them
    (internal/session/codex_branches.go:167-288, branches.go:157-172). */
module CodexTreeRoundTrip {
  import opened Basics
  import opened Conversation
  import B = Branches
  import opened Codex
  import opened CodexLoss
  import opened Remap
  import opened CodexTree
  import opened MediaUrl

  // ----- the writer -----

  /** Where a tree is written, and how: `canonical` resolves a directory, `encode` writes JSON. */
  datatype Target = Target(cwd: string, now: int, canonical: string -> string, encode: Json -> string)

  function TransferredStatus(b: Branch): string {
    if b.status == "completed" then "completed"
    else if b.status in {"failed", "errored"} then "errored"
    else if b.status in {"killed", "shutdown"} then "shutdown"
    else "interrupted"
  }

  /** The new ids: `taken[0]` is the root's, `taken[i + 1]` the i-th branch's. */
  function NewIds(bs: seq<Branch>, taken: seq<string>): map<string, string>
    requires |taken| == |bs| + 1
  {
    if bs == [] then map["" := taken[0]]
    else NewIds(bs[..|bs| - 1], taken[..|bs|])[bs[|bs| - 1].id := taken[|bs|]]
  }

  const CLAUDE_PREFIX := "agent-"

  /** The names a branch goes by in records: its id, and for Claude its id without the prefix. */
  function ReferenceIds(source: string, bs: seq<Branch>, ids: map<string, string>): map<string, string>
    requires forall i :: 0 <= i < |bs| ==> bs[i].id in ids
  {
    if bs == [] then ids - {""}
    else
      var before, id := ReferenceIds(source, bs[..|bs| - 1], ids), bs[|bs| - 1].id;
      if source == "claude" && CLAUDE_PREFIX <= id then before[id[|CLAUDE_PREFIX|..] := ids[id]] else before
  }

  /** The names that records go by: every branch's own id, and for Claude also its id without the prefix, which stands
      before any id that happens to be the same. */
  lemma {:induction false} ReferenceIdsExactly(source: string, bs: seq<Branch>, ids: map<string, string>)
    requires (forall i :: 0 <= i < |bs| ==> bs[i].id in ids) && B.IdsUsable(bs)
    ensures var refs := ReferenceIds(source, bs, ids);
      && (forall name :: name in refs <==> (name in ids && name != "") || Alias(source, bs, name))
      && (forall name :: name in refs && !Alias(source, bs, name) ==> refs[name] == ids[name])
      && (forall name, i :: AliasOf(source, bs, name, i) ==> name in refs && refs[name] == ids[bs[i].id])
  {
    if bs != [] {
      var n := |bs| - 1;
      var before, id := bs[..n], bs[n].id;
      ReferenceIdsExactly(source, before, ids);
      ReferenceIdsNext(source, bs, ids);
      var refs, old' := ReferenceIds(source, bs, ids), ReferenceIds(source, before, ids);
      hide ReferenceIds, AliasOf;
      forall name ensures Alias(source, bs, name) <==> Alias(source, before, name) || AliasOf(source, bs, name, n) { AliasNext(source, bs, name); }
      forall name, i | AliasOf(source, bs, name, i) ensures name in refs && refs[name] == ids[bs[i].id] {
        AliasBefore(source, bs, name, i);
      }
    }
  }

  /** One more branch: its alias, if it has one, is added, and nothing else changes. */
  lemma {:induction false} ReferenceIdsNext(source: string, bs: seq<Branch>, ids: map<string, string>)
    requires (forall i :: 0 <= i < |bs| ==> bs[i].id in ids) && bs != []
    ensures var n := |bs| - 1;
      var refs, before := ReferenceIds(source, bs, ids), ReferenceIds(source, bs[..n], ids);
      forall name ::
        && (name in refs <==> name in before || AliasOf(source, bs, name, n))
        && (name in refs ==> refs[name] == if AliasOf(source, bs, name, n) then ids[bs[n].id] else before[name])
  {
    var n := |bs| - 1;
    PrefixTaken(bs[n].id);
    forall name ensures AliasOf(source, bs, name, n) <==> source == "claude" && CLAUDE_PREFIX <= bs[n].id && name == bs[n].id[|CLAUDE_PREFIX|..] {
      if bs[n].id != "agent-" + name { OtherAlias(name, bs[n].id); }
    }
  }

  ghost predicate AliasOf(source: string, bs: seq<Branch>, name: string, i: int) {
    source == "claude" && 0 <= i < |bs| && bs[i].id == "agent-" + name
  }

  lemma {:induction false} AliasBefore(source: string, bs: seq<Branch>, name: string, i: int)
    requires B.IdsUsable(bs) && AliasOf(source, bs, name, i)
    ensures 0 <= i < |bs| && (i < |bs| - 1 ==> AliasOf(source, bs[..|bs| - 1], name, i) && bs[..|bs| - 1][i] == bs[i] && !AliasOf(source, bs, name, |bs| - 1))
  {}

  ghost predicate Alias(source: string, bs: seq<Branch>, name: string) { exists i :: AliasOf(source, bs, name, i) }

  lemma {:induction false} AliasNext(source: string, bs: seq<Branch>, name: string)
    requires bs != []
    ensures Alias(source, bs, name) <==> Alias(source, bs[..|bs| - 1], name) || AliasOf(source, bs, name, |bs| - 1)
  {
    var before := bs[..|bs| - 1];
    if i :| AliasOf(source, bs, name, i) && i < |before| { assert AliasOf(source, before, name, i); }
    if i :| AliasOf(source, before, name, i) { assert AliasOf(source, bs, name, i); }
  }

  lemma {:induction false} PrefixTaken(id: string)
    ensures CLAUDE_PREFIX <= id ==> id == "agent-" + id[|CLAUDE_PREFIX|..]
    ensures forall name :: id == "agent-" + name ==> CLAUDE_PREFIX <= id && name == id[|CLAUDE_PREFIX|..]
  {}

  lemma {:induction false} OtherAlias(name: string, id: string)
    requires id != "agent-" + name
    ensures CLAUDE_PREFIX <= id ==> id[|CLAUDE_PREFIX|..] != name
  {
    if CLAUDE_PREFIX <= id { assert id == "agent-" + id[|CLAUDE_PREFIX|..]; }
  }

  /** The spawn records of the runs that `parent` delegated, in order. */
  function EndsFor(bs: seq<Branch>, ids: map<string, string>, parent: string): seq<SpawnEnd>
    requires forall i :: 0 <= i < |bs| ==> bs[i].id in ids
  {
    if bs == [] then []
    else
      var b := bs[|bs| - 1];
      EndsFor(bs[..|bs| - 1], ids, parent)
      + (if b.callId != "" && b.parentId == parent then [SpawnEnd(b.callId, ids[b.id], b.description, TransferredStatus(b))] else [])
  }

  /** The child rollout of `b`: its records are those of its events, renamed. */
  ghost predicate Describes(t: Target, refs: map<string, string>, ids: map<string, string>, bs: seq<Branch>, b: Branch, r: Rollout)
    requires b.id in ids && b.parentId in ids && forall i :: 0 <= i < |bs| ==> bs[i].id in ids
  {
    && r.id == ids[b.id] && r.parentId == ids[b.parentId]
    && r.cwd == t.canonical(if b.cwd != "" then b.cwd else t.cwd)
    && r.role == b.name && r.nickname == b.description && r.model == b.model
    && r.meta == Some(b.(id := ids[b.id], parentId := if b.parentId == "" then "" else ids[b.parentId], events := []))
    && r.ends == EndsFor(bs, ids, b.id)
    && r.content.Some?
    && exists told :: EventsRemapped(refs, Delegations(b.events), b.events, told) && r.content.value == Write(told, t.now)
  }

  ghost predicate DescribesRoot(t: Target, refs: map<string, string>, events: seq<Event>, r: Rollout) {
    && r.parentId == "" && r.content.Some?
    && exists told :: EventsRemapped(refs, Delegations(events), events, told) && r.content.value == Write(told, t.now)
  }

  ghost predicate WrittenTree(t: Target, source: string, events: seq<Event>, bs: seq<Branch>, taken: seq<string>, root: Rollout, files: seq<Rollout>)
    requires |taken| == |bs| + 1
  {
    var ids := NewIds(bs, taken);
    && (forall i :: 0 <= i < |bs| ==> bs[i].id in ids && bs[i].parentId in ids)
    && root.id == taken[0] && root.ends == EndsFor(bs, ids, "")
    && DescribesRoot(t, ReferenceIds(source, bs, ids), events, root)
    && |files| == |bs|
    && forall i :: 0 <= i < |bs| ==> Describes(t, ReferenceIds(source, bs, ids), ids, bs, bs[i], files[i])
  }

  lemma {:induction false} NewIdsName(bs: seq<Branch>, taken: seq<string>)
    requires |taken| == |bs| + 1 && B.IdsUsable(bs)
    ensures var ids := NewIds(bs, taken);
      && "" in ids && ids[""] == taken[0]
      && forall i :: 0 <= i < |bs| ==> bs[i].id in ids && ids[bs[i].id] == taken[i + 1]
  {
    if bs != [] {
      var last := |bs| - 1;
      assert forall i :: 0 <= i < last ==> bs[..last][i] == bs[i] && taken[..last + 1][i + 1] == taken[i + 1];
      assert taken[..last + 1][0] == taken[0];
      NewIdsName(bs[..last], taken[..last + 1]);
    }
  }

  lemma NewIdsNext(bs: seq<Branch>, taken: seq<string>, i: nat)
    requires i < |bs| && |taken| == |bs| + 1
    ensures NewIds(bs[..i + 1], taken[..i + 2]) == NewIds(bs[..i], taken[..i + 1])[bs[i].id := taken[i + 1]]
  {
    assert bs[..i + 1][..i] == bs[..i] && taken[..i + 2][..i + 1] == taken[..i + 1];
  }

  method MapIds(bs: seq<Branch>, taken: seq<string>) returns (ids: map<string, string>)
    requires |taken| == |bs| + 1
    ensures ids == NewIds(bs, taken)
  {
    ids := map["" := taken[0]];
    assert bs[..0] == [] && taken[..1] == [taken[0]];
    for i := 0 to |bs|
      invariant ids == NewIds(bs[..i], taken[..i + 1])
    {
      hide NewIds;
      NewIdsNext(bs, taken, i);
      ids := ids[bs[i].id := taken[i + 1]];
    }
    assert bs[..|bs|] == bs && taken[..|bs| + 1] == taken;
  }

  method BranchReferenceIds(source: string, bs: seq<Branch>, ids: map<string, string>) returns (refs: map<string, string>)
    requires forall i :: 0 <= i < |bs| ==> bs[i].id in ids
    ensures refs == ReferenceIds(source, bs, ids)
  {
    refs := ids - {""};
    assert bs[..0] == [];
    for i := 0 to |bs|
      invariant refs == ReferenceIds(source, bs[..i], ids)
    {
      assert bs[..i + 1][..i] == bs[..i];
      var id := bs[i].id;
      if source == "claude" && CLAUDE_PREFIX <= id {
        refs := refs[id[|CLAUDE_PREFIX|..] := ids[id]];
      }
    }
    assert bs[..|bs|] == bs;
  }

  function SpawnedBy(spawned: map<string, seq<SpawnEnd>>, p: string): seq<SpawnEnd> { if p in spawned then spawned[p] else [] }

  function EndOf(b: Branch, ids: map<string, string>): SpawnEnd
    requires b.id in ids
  {
    SpawnEnd(b.callId, ids[b.id], b.description, TransferredStatus(b))
  }

  lemma {:induction false} EndsNext(bs: seq<Branch>, ids: map<string, string>, i: nat, p: string)
    requires i < |bs| && forall k :: 0 <= k < |bs| ==> bs[k].id in ids
    ensures EndsFor(bs[..i + 1], ids, p)
      == if bs[i].callId != "" && bs[i].parentId == p then EndsFor(bs[..i], ids, p) + [EndOf(bs[i], ids)] else EndsFor(bs[..i], ids, p)
  {
    assert bs[..i + 1][..i] == bs[..i];
    assert EndsFor(bs[..i], ids, p) + [] == EndsFor(bs[..i], ids, p);
  }

  /** The spawn records of every parent, gathered from the ordered branches. */
  method SpawnEvents(bs: seq<Branch>, ids: map<string, string>) returns (spawned: map<string, seq<SpawnEnd>>)
    requires forall i :: 0 <= i < |bs| ==> bs[i].id in ids
    ensures forall p :: SpawnedBy(spawned, p) == EndsFor(bs, ids, p)
  {
    spawned := map[];
    assert bs[..0] == [];
    for i := 0 to |bs|
      invariant forall p :: SpawnedBy(spawned, p) == EndsFor(bs[..i], ids, p)
    {
      hide EndsFor, EndOf;
      var b := bs[i];
      ghost var before := spawned;
      if b.callId != "" {
        spawned := spawned[b.parentId := SpawnedBy(spawned, b.parentId) + [EndOf(b, ids)]];
      }
      forall p ensures SpawnedBy(spawned, p) == EndsFor(bs[..i + 1], ids, p) {
        EndsNext(bs, ids, i, p);
        assert SpawnedBy(before, p) == EndsFor(bs[..i], ids, p);
      }
    }
    assert bs[..|bs|] == bs;
  }

  lemma {:induction false} ParentsHaveIds(bs: seq<Branch>, taken: seq<string>)
    requires |taken| == |bs| + 1 && B.IdsUsable(bs) && B.ParentsFirst(bs)
    ensures var ids := NewIds(bs, taken); forall i :: 0 <= i < |bs| ==> bs[i].id in ids && bs[i].parentId in ids
  {
    NewIdsName(bs, taken);
    forall i | 0 <= i < |bs| ensures bs[i].parentId in NewIds(bs, taken) {
      if bs[i].parentId != "" {
        var j :| 0 <= j < i && bs[j].id == bs[i].parentId;
      }
    }
  }

  method WriteBranch(t: Target, refs: map<string, string>, ids: map<string, string>, ghost bs: seq<Branch>, b: Branch, ends: seq<SpawnEnd>)
    returns (r: Rollout)
    requires b.id in ids && b.parentId in ids && forall i :: 0 <= i < |bs| ==> bs[i].id in ids
    requires (forall v :: t.encode(v) != "") && ends == EndsFor(bs, ids, b.id)
    ensures Describes(t, refs, ids, bs, b, r)
  {
    hide EventsRemapped, Write, EndsFor;
    var told := RemapDelegation(b.events, refs, t.encode);
    var records := WriteThread(told, t.now);
    var meta := b.(id := ids[b.id], parentId := if b.parentId == "" then "" else ids[b.parentId], events := []);
    r := Rollout(ids[b.id], t.canonical(if b.cwd != "" then b.cwd else t.cwd), ids[b.parentId], b.name, b.description, b.model,
                 Some(meta), Some(records), ends);
  }

  method WriteRoot(t: Target, refs: map<string, string>, id: string, model: string, events: seq<Event>, ends: seq<SpawnEnd>)
    returns (r: Rollout)
    requires forall v :: t.encode(v) != ""
    ensures r.id == id && r.ends == ends && DescribesRoot(t, refs, events, r)
  {
    hide EventsRemapped, Write;
    var told := RemapDelegation(events, refs, t.encode);
    var records := WriteThread(told, t.now);
    r := Rollout(id, t.canonical(t.cwd), "", "", "", model, None, Some(records), ends);
  }

  method WriteOrdered(t: Target, history: Session, bs: seq<Branch>, taken: seq<string>)
    returns (root: Rollout, files: seq<Rollout>)
    requires |taken| == |bs| + 1 && (forall v :: t.encode(v) != "") && B.ParentsFirst(bs) && B.IdsUsable(bs)
    ensures WrittenTree(t, history.source, history.events, bs, taken, root, files)
  {
    hide *;
    ParentsHaveIds(bs, taken);
    var ids := MapIds(bs, taken);
    var refs := BranchReferenceIds(history.source, bs, ids);
    var spawned := SpawnEvents(bs, ids);
    root := WriteRoot(t, refs, taken[0], history.model, history.events, SpawnedBy(spawned, ""));
    files := [];
    for i := 0 to |bs|
      invariant |files| == i && forall k :: 0 <= k < i ==> Describes(t, refs, ids, bs, bs[k], files[k])
    {
      hide *;
      var b := bs[i];
      var file := WriteBranch(t, refs, ids, bs, b, SpawnedBy(spawned, b.id));
      files := files + [file];
    }
    ThusWritten(t, history.source, history.events, bs, taken, root, files);
  }

  lemma {:induction false} ThusWritten(t: Target, source: string, events: seq<Event>, bs: seq<Branch>, taken: seq<string>, root: Rollout, files: seq<Rollout>)
    requires |taken| == |bs| + 1 && |files| == |bs| && root.id == taken[0]
    requires var ids := NewIds(bs, taken);
      && (forall i :: 0 <= i < |bs| ==> bs[i].id in ids && bs[i].parentId in ids)
      && root.ends == EndsFor(bs, ids, "") && DescribesRoot(t, ReferenceIds(source, bs, ids), events, root)
      && forall i :: 0 <= i < |bs| ==> Describes(t, ReferenceIds(source, bs, ids), ids, bs, bs[i], files[i])
    ensures WrittenTree(t, source, events, bs, taken, root, files)
  {
    hide NewIds, EndsFor, ReferenceIds, Describes, DescribesRoot;
  }

  /** Writes the root thread and one child rollout for each delegated run. */
  method WriteTree(t: Target, history: Session, taken: seq<string>)
    returns (fault: Option<B.ForestFault>, root: Rollout, files: seq<Rollout>, ghost bs: seq<Branch>)
    requires |taken| == |history.branches| + 1 && forall v :: t.encode(v) != ""
    ensures fault.None? <==> B.IsForest(history.branches)
    ensures fault.None? ==>
      && multiset(bs) == multiset(history.branches) && |bs| == |history.branches| && B.ParentsFirst(bs) && B.IdsUsable(bs)
      && WrittenTree(t, history.source, history.events, bs, taken, root, files)
  {
    root, files, bs := Rollout(taken[0], "", "", "", "", "", None, None, []), [], [];
    hide *;
    var ordered;
    fault, ordered := B.OrderedBranches(history.branches);
    if fault.Some? { return; }
    bs := ordered;
    SameLength(bs, history.branches);
    root, files := WriteOrdered(t, history, ordered, taken);
  }

  lemma SameLength(a: seq<Branch>, b: seq<Branch>)
    requires multiset(a) == multiset(b)
    ensures |a| == |b|
  {
    assert |multiset(a)| == |a| && |multiset(b)| == |b|;
  }

  // ----- what comes back -----

  /** The ids taken for a tree are new: distinct, none empty. */
  ghost predicate Distinct(taken: seq<string>) {
    (forall i :: 0 <= i < |taken| ==> taken[i] != "") && forall i, j :: 0 <= i < j < |taken| ==> taken[i] != taken[j]
  }

  /** A rollout that has nothing to do with the ids taken, except that it may be a main thread. */
  predicate Stranger(r: Rollout, taken: seq<string>) { r.parentId !in taken && (r.parentId != "" ==> r.id !in taken) }

  /** The directory lists each child once, among main threads, the tree's own included, and any other rollouts that
      have nothing to do with the ids taken. */
  ghost predicate Published(dir: seq<Rollout>, place: seq<nat>, files: seq<Rollout>, taken: seq<string>) {
    && |place| == |files|
    && (forall i :: 0 <= i < |files| ==> place[i] < |dir| && dir[place[i]] == files[i])
    && (forall i, j :: 0 <= i < j < |place| ==> place[i] != place[j])
    && (forall k :: 0 <= k < |dir| && k !in place ==> Stranger(dir[k], taken))
  }

  /** The ids taken for the branches. */
  function Family(taken: seq<string>): set<string> { set i | 1 <= i < |taken| :: taken[i] }

  /** Everything the written tree is known by. */
  ghost predicate Tree(t: Target, source: string, events: seq<Event>, bs: seq<Branch>, taken: seq<string>,
      root: Rollout, files: seq<Rollout>, dir: seq<Rollout>, place: seq<nat>)
  {
    && |taken| == |bs| + 1 && Distinct(taken) && B.ParentsFirst(bs) && B.IdsUsable(bs)
    && WrittenTree(t, source, events, bs, taken, root, files) && Published(dir, place, files, taken)
  }

  /** Where branch `i` went. */
  lemma {:induction false} Placed(t: Target, source: string, events: seq<Event>, bs: seq<Branch>, taken: seq<string>,
      root: Rollout, files: seq<Rollout>, dir: seq<Rollout>, place: seq<nat>, i: nat)
    requires Tree(t, source, events, bs, taken, root, files, dir, place) && i < |bs|
    ensures |place| == |bs| && place[i] < |dir|
    ensures var ids, r := NewIds(bs, taken), dir[place[i]];
      && bs[i].id in ids && ids[bs[i].id] == taken[i + 1] && bs[i].parentId in ids && "" in ids && ids[""] == taken[0]
      && r.id == taken[i + 1] && r.parentId == ids[bs[i].parentId]
      && (forall k :: 0 <= k < |bs| ==> bs[k].id in ids)
      && Describes(t, ReferenceIds(source, bs, ids), ids, bs, bs[i], r)
  {
    hide EndsFor, ReferenceIds, DescribesRoot;
    NewIdsName(bs, taken);
    hide NewIds;
  }

  lemma ParentIdTaken(t: Target, source: string, events: seq<Event>, bs: seq<Branch>, taken: seq<string>,
      root: Rollout, files: seq<Rollout>, dir: seq<Rollout>, place: seq<nat>, i: nat)
    requires Tree(t, source, events, bs, taken, root, files, dir, place) && i < |bs|
    ensures place[i] < |dir|
    ensures if bs[i].parentId == "" then dir[place[i]].parentId == taken[0]
      else exists j :: 0 <= j < i && bs[j].id == bs[i].parentId && dir[place[i]].parentId == taken[j + 1]
  {
    Placed(t, source, events, bs, taken, root, files, dir, place, i);
    hide NewIds, Describes, WrittenTree, Published;
    if bs[i].parentId != "" {
      var j :| 0 <= j < i && bs[j].id == bs[i].parentId;
      Placed(t, source, events, bs, taken, root, files, dir, place, j);
    }
  }

  /** A rollout whose parent was taken, or that has a parent and whose id was taken, is one of the files. */
  lemma OneOfOurs(dir: seq<Rollout>, place: seq<nat>, files: seq<Rollout>, taken: seq<string>, k: nat)
    requires Published(dir, place, files, taken) && k < |dir|
    requires dir[k].parentId in taken || (dir[k].parentId != "" && dir[k].id in taken)
    ensures exists i :: 0 <= i < |files| && place[i] == k
  {
    assert k in place;
  }

  /** What hangs from an id that was taken is the file of some branch. */
  lemma TakenFile(t: Target, source: string, events: seq<Event>, bs: seq<Branch>, taken: seq<string>,
      root: Rollout, files: seq<Rollout>, dir: seq<Rollout>, place: seq<nat>, k: nat) returns (i: nat)
    requires Tree(t, source, events, bs, taken, root, files, dir, place) && k < |dir|
    requires dir[k].parentId in Family(taken) || dir[k].parentId == taken[0]
    ensures i < |bs| && |place| == |bs| && place[i] == k && dir[k].id == taken[i + 1] && dir[k].content.Some?
  {
    assert dir[k].parentId in taken;
    OneOfOurs(dir, place, files, taken, k);
    i :| 0 <= i < |files| && place[i] == k;
    Placed(t, source, events, bs, taken, root, files, dir, place, i);
  }

  lemma TreeIsTame(t: Target, source: string, events: seq<Event>, bs: seq<Branch>, taken: seq<string>,
      root: Rollout, files: seq<Rollout>, dir: seq<Rollout>, place: seq<nat>)
    requires Tree(t, source, events, bs, taken, root, files, dir, place)
    ensures |taken| > 0 && Tame(dir, taken[0], Family(taken))
  {
    hide WrittenTree, Published, B.ParentsFirst, B.IdsUsable;
    forall k | 0 <= k < |dir| && (dir[k].parentId in Family(taken) || dir[k].parentId == taken[0])
      ensures dir[k].id in Family(taken) && dir[k].content.Some?
    {
      var _ := TakenFile(t, source, events, bs, taken, root, files, dir, place, k);
    }
    forall k, m | (
        0 <= k < m < |dir| && (dir[k].parentId in Family(taken) || dir[k].parentId == taken[0])
        && (dir[m].parentId in Family(taken) || dir[m].parentId == taken[0]))
      ensures dir[k].id != dir[m].id
    {
      var i := TakenFile(t, source, events, bs, taken, root, files, dir, place, k);
      var j := TakenFile(t, source, events, bs, taken, root, files, dir, place, m);
    }
  }

  // ----- which branches are reached -----

  ghost predicate Transferable(bs: seq<Branch>) {
    forall i :: 0 <= i < |bs| ==> WellFormed(bs[i].events)
  }

  /** The branch, and every one that it hangs from, has more to say than media that no reader will make anything of. */
  ghost predicate Heard(bs: seq<Branch>, i: nat)
    requires i < |bs|
  {
    Speaks(bs[i].events) && (bs[i].parentId == "" || exists j :: 0 <= j < i && bs[j].id == bs[i].parentId && Heard(bs, j))
  }

  lemma {:induction false} RemapStaysSilent(refs: map<string, string>, calls: set<string>, e: Event, f: Event)
    requires EventRemapped(refs, calls, e, f)
    ensures SilentEvent(f) <==> SilentEvent(e)
  {
    hide Carried, Rewritten, RemapText;
    forall j | 0 <= j < |e.parts| ensures Silent(f.role, f.parts[j]) <==> Silent(e.role, e.parts[j]) {
      assert PartRemapped(refs, calls, e.parts[j], f.parts[j]);
    }
    hide Silent, EventRemapped;
    forall p | p in e.parts ensures exists j :: 0 <= j < |e.parts| && e.parts[j] == p {}
    forall p | p in f.parts ensures exists j :: 0 <= j < |f.parts| && f.parts[j] == p {}
  }

  lemma {:induction false} RemapSpeaks(refs: map<string, string>, calls: set<string>, events: seq<Event>, told: seq<Event>)
    requires EventsRemapped(refs, calls, events, told)
    ensures Speaks(told) <==> Speaks(events)
  {
    forall i | 0 <= i < |events| ensures SilentEvent(told[i]) <==> SilentEvent(events[i]) {
      RemapStaysSilent(refs, calls, events[i], told[i]);
    }
  }

  /** The events of a child rollout: what a trip through records makes of the branch's, renamed. */
  lemma ChildEvents(t: Target, refs: map<string, string>, ids: map<string, string>, bs: seq<Branch>, b: Branch, r: Rollout)
      returns (told: seq<Event>)
    requires b.id in ids && b.parentId in ids && forall i :: 0 <= i < |bs| ==> bs[i].id in ids
    requires Describes(t, refs, ids, bs, b, r) && WellFormed(b.events)
    ensures EventsRemapped(refs, Delegations(b.events), b.events, told)
    ensures EventsIn(r) == RoundTrip(told, t.now) && (EventsIn(r) != [] <==> Speaks(b.events))
  {
    hide EndsFor, EventsRemapped, Read, Write, WellFormed;
    told :| EventsRemapped(refs, Delegations(b.events), b.events, told) && r.content.value == Write(told, t.now);
    RemapKeepsMeaning(refs, b.events, told);
    RemapSpeaks(refs, Delegations(b.events), b.events, told);
    hide Speaks, Delegations;
    SomethingComesBack(told, t.now);
  }

  lemma {:induction false} BranchEntered(d: Decoding, t: Target, source: string, events: seq<Event>, bs: seq<Branch>, taken: seq<string>,
      root: Rollout, files: seq<Rollout>, dir: seq<Rollout>, place: seq<nat>, out: seq<Branch>, at: Places, entered: set<string>, i: nat)
    requires Tree(t, source, events, bs, taken, root, files, dir, place) && Transferable(bs)
    requires Explored(d, dir, root, out, at, entered) && i < |bs| && Heard(bs, i)
    ensures |place| == |bs| && taken[i + 1] in entered && taken[i + 1] in at && at[taken[i + 1]] == place[i]
    decreases i
  {
    Placed(t, source, events, bs, taken, root, files, dir, place, i);
    RootEntered(d, dir, root, out, at, entered);
    assert root.id == taken[0];
    var p := dir[place[i]].parentId;
    if bs[i].parentId != "" {
      var j :| 0 <= j < i && bs[j].id == bs[i].parentId && Heard(bs, j);
      Placed(t, source, events, bs, taken, root, files, dir, place, j);
      BranchEntered(d, t, source, events, bs, taken, root, files, dir, place, out, at, entered, j);
    }
    assert Complete(dir, at, entered, p);
    FileSpeaks(t, source, events, bs, taken, root, files, dir, place, i);
    hide NewIds, Describes, EventsIn, WrittenTree, Explored, WellFormed, Speaks;
  }

  /** What has been entered was read from a file with something in it, hung from what was entered before. */
  lemma {:induction false} EnteredFrom(d: Decoding, dir: seq<Rollout>, root: Rollout, out: seq<Branch>, at: Places, entered: set<string>, q: string)
    requires Explored(d, dir, root, out, at, entered) && q in entered && q != root.id
    ensures q in at && at[q] < |dir| && dir[at[q]].id == q && dir[at[q]].parentId != "" && dir[at[q]].parentId in entered
    ensures EventsIn(dir[at[q]]) != []
  {
    hide RestoredAt, DistinctIds, B.ParentsFirst, Complete, Lists, EventsIn;
    var seen :| Walked(d, dir, root, seen, out, at, entered);
  }

  /** What has been entered under a branch's new id is that branch's file. */
  lemma {:induction false} EnteredFile(d: Decoding, t: Target, source: string, events: seq<Event>, bs: seq<Branch>, taken: seq<string>,
      root: Rollout, files: seq<Rollout>, dir: seq<Rollout>, place: seq<nat>, out: seq<Branch>, at: Places, entered: set<string>, i: nat)
    requires Tree(t, source, events, bs, taken, root, files, dir, place)
    requires Explored(d, dir, root, out, at, entered) && i < |bs| && taken[i + 1] in entered
    ensures |place| == |bs| && place[i] < |dir| && EventsIn(dir[place[i]]) != [] && dir[place[i]].parentId in entered
  {
    hide NewIds, Describes, EventsIn, WrittenTree, Explored;
    RootIdTaken(t, source, events, bs, taken, root, files, dir, place);
    assert taken[i + 1] != taken[0];
    EnteredFrom(d, dir, root, out, at, entered, taken[i + 1]);
    var k := at[taken[i + 1]];
    OneOfOurs(dir, place, files, taken, k);
    var m :| 0 <= m < |files| && place[m] == k;
    FilePlaced(t, source, events, bs, taken, root, files, dir, place, m);
    FilePlaced(t, source, events, bs, taken, root, files, dir, place, i);
  }

  lemma {:induction false} RootIdTaken(t: Target, source: string, events: seq<Event>, bs: seq<Branch>, taken: seq<string>,
      root: Rollout, files: seq<Rollout>, dir: seq<Rollout>, place: seq<nat>)
    requires Tree(t, source, events, bs, taken, root, files, dir, place)
    ensures |taken| == |bs| + 1 && root.id == taken[0] && |files| == |bs| == |place|
  {
    hide NewIds, Describes, DescribesRoot, EndsFor, ReferenceIds, Distinct;
  }

  lemma {:induction false} FilePlaced(t: Target, source: string, events: seq<Event>, bs: seq<Branch>, taken: seq<string>,
      root: Rollout, files: seq<Rollout>, dir: seq<Rollout>, place: seq<nat>, i: nat)
    requires Tree(t, source, events, bs, taken, root, files, dir, place) && i < |bs|
    ensures |place| == |bs| && place[i] < |dir| && dir[place[i]].id == taken[i + 1]
  {
    hide Describes, WrittenTree, Published;
    Placed(t, source, events, bs, taken, root, files, dir, place, i);
  }

  lemma {:induction false} FileSpeaks(t: Target, source: string, events: seq<Event>, bs: seq<Branch>, taken: seq<string>,
      root: Rollout, files: seq<Rollout>, dir: seq<Rollout>, place: seq<nat>, i: nat)
    requires Tree(t, source, events, bs, taken, root, files, dir, place) && Transferable(bs) && i < |bs|
    ensures |place| == |bs| && place[i] < |dir| && (EventsIn(dir[place[i]]) != [] <==> Speaks(bs[i].events))
  {
    Placed(t, source, events, bs, taken, root, files, dir, place, i);
    var ids := NewIds(bs, taken);
    hide NewIds, Describes, EventsIn, WrittenTree, WellFormed, Speaks;
    var _ := ChildEvents(t, ReferenceIds(source, bs, ids), ids, bs, bs[i], dir[place[i]]);
  }

  /** Only what is heard is entered. */
  lemma {:induction false} EnteredIsHeard(d: Decoding, t: Target, source: string, events: seq<Event>, bs: seq<Branch>, taken: seq<string>,
      root: Rollout, files: seq<Rollout>, dir: seq<Rollout>, place: seq<nat>, out: seq<Branch>, at: Places, entered: set<string>, i: nat)
    requires Tree(t, source, events, bs, taken, root, files, dir, place) && Transferable(bs)
    requires Explored(d, dir, root, out, at, entered) && i < |bs| && taken[i + 1] in entered
    ensures Heard(bs, i)
    decreases i
  {
    EnteredFile(d, t, source, events, bs, taken, root, files, dir, place, out, at, entered, i);
    FileSpeaks(t, source, events, bs, taken, root, files, dir, place, i);
    ParentIdTaken(t, source, events, bs, taken, root, files, dir, place, i);
    SizesAgree(t, source, events, bs, taken, root, files, dir, place);
    hide Tree, Transferable, Explored, EventsIn, Speaks;
    if bs[i].parentId != "" {
      var j :| 0 <= j < i && bs[j].id == bs[i].parentId && dir[place[i]].parentId == taken[j + 1];
      EnteredIsHeard(d, t, source, events, bs, taken, root, files, dir, place, out, at, entered, j);
    }
  }

  lemma RootEntered(d: Decoding, dir: seq<Rollout>, root: Rollout, out: seq<Branch>, at: Places, entered: set<string>)
    requires Explored(d, dir, root, out, at, entered)
    ensures root.id in entered
    ensures forall q :: q in entered && q != root.id ==> Lists(out, q)
    ensures forall k :: 0 <= k < |out| ==> out[k].id in at && out[k] == RestoredAt(d, dir, root, at, out[k].id)
    ensures DistinctIds(out) && B.ParentsFirst(out)
  {
    hide RestoredAt, DistinctIds, B.ParentsFirst, Complete, Lists;
    var seen :| Walked(d, dir, root, seen, out, at, entered);
  }

  // ----- which file an id is read from -----

  lemma RootFile(dir: seq<Rollout>, place: seq<nat>, files: seq<Rollout>, taken: seq<string>, root: Rollout)
    requires Published(dir, place, files, taken) && Distinct(taken) && |taken| == |files| + 1 && root.id == taken[0]
    requires forall i :: 0 <= i < |files| ==> files[i].id == taken[i + 1]
    ensures FileOf(dir, root, taken[0]) == Some(root)
  {
    forall k | 0 <= k < |dir| && dir[k].parentId != "" ensures dir[k].id != taken[0] {
      if k in place {
        var i :| 0 <= i < |place| && place[i] == k;
        assert dir[k].id == taken[i + 1];
      } else {
        assert dir[k].id !in taken;
      }
    }
  }

  lemma BranchFile(dir: seq<Rollout>, place: seq<nat>, files: seq<Rollout>, taken: seq<string>, root: Rollout, j: nat)
    requires Published(dir, place, files, taken) && Distinct(taken) && |taken| == |files| + 1 && j < |files|
    requires forall i :: 0 <= i < |files| ==> files[i].id == taken[i + 1] && files[i].parentId != ""
    ensures FileOf(dir, root, taken[j + 1]) == Some(files[j])
  {
    var path := PathOf(dir, taken[j + 1]);
    assert dir[place[j]].id == taken[j + 1];
    assert dir[path.value].id in taken;
    OneOfOurs(dir, place, files, taken, path.value);
    var i :| 0 <= i < |files| && place[i] == path.value;
    assert i == j;
  }

  // ----- the spawning call is kept -----

  lemma {:induction false} LastEndCounts(links: map<string, Link>, ends: seq<SpawnEnd>, id: string, call: string)
    requires id != "" && forall m :: 0 <= m < |ends| && ends[m].newThread == id ==> ends[m].callId == call
    requires (id in links && links[id].callId == call) || exists m :: 0 <= m < |ends| && ends[m].newThread == id
    ensures id in LinkEnds(links, ends) && LinkEnds(links, ends)[id].callId == call
    decreases |ends|
  {
    if ends != [] {
      var e := ends[0];
      var links' := if e.newThread != "" then links[e.newThread := Link(e.callId, e.prompt, e.status)] else links;
      if !(id in links' && links'[id].callId == call) {
        var m :| 0 <= m < |ends| && ends[m].newThread == id;
        assert ends[1..][m - 1] == ends[m];
      }
      LastEndCounts(links', ends[1..], id, call);
    }
  }

  lemma {:induction false} EndsForLast(bs: seq<Branch>, ids: map<string, string>, p: string)
    requires bs != [] && forall i :: 0 <= i < |bs| ==> bs[i].id in ids
    ensures var before, b := bs[..|bs| - 1], bs[|bs| - 1];
      && (forall i :: 0 <= i < |before| ==> before[i] == bs[i] && before[i].id in ids)
      && EndsFor(bs, ids, p) == EndsFor(before, ids, p) + (if b.callId != "" && b.parentId == p then [EndOf(b, ids)] else [])
  {}

  lemma {:induction false} EndsForExactly(bs: seq<Branch>, ids: map<string, string>, p: string)
    requires forall i :: 0 <= i < |bs| ==> bs[i].id in ids
    ensures forall i :: 0 <= i < |bs| && bs[i].callId != "" && bs[i].parentId == p ==> EndOf(bs[i], ids) in EndsFor(bs, ids, p)
    ensures forall e :: e in EndsFor(bs, ids, p) ==> exists i :: 0 <= i < |bs| && e == EndOf(bs[i], ids)
  {
    if bs != [] {
      var last, before := |bs| - 1, bs[..|bs| - 1];
      EndsForLast(bs, ids, p);
      EndsForExactly(before, ids, p);
      hide EndsFor, EndOf;
      forall e | e in EndsFor(bs, ids, p) ensures exists i :: 0 <= i < |bs| && e == EndOf(bs[i], ids) {
        if e in EndsFor(before, ids, p) {
          var i :| 0 <= i < last && e == EndOf(before[i], ids);
          assert e == EndOf(bs[i], ids);
        } else {
          assert e == EndOf(bs[last], ids);
        }
      }
    }
  }

  lemma {:induction false} CallKept(d: Decoding, parentEvents: seq<Event>, file: Rollout, bs: seq<Branch>, ids: map<string, string>, taken: seq<string>, i: nat)
    requires i < |bs| && |taken| == |bs| + 1 && Distinct(taken)
    requires forall k :: 0 <= k < |bs| ==> bs[k].id in ids && ids[bs[k].id] == taken[k + 1]
    requires file.ends == EndsFor(bs, ids, bs[i].parentId) && bs[i].callId != ""
    ensures var links := SpawnLinks(d, parentEvents, Some(file));
      taken[i + 1] in links && links[taken[i + 1]].callId == bs[i].callId
  {
    EndsForExactly(bs, ids, bs[i].parentId);
    var ends := file.ends;
    hide EndsFor, LinkEvents, LinkEnds, TransferredStatus;
    forall m | 0 <= m < |ends| && ends[m].newThread == taken[i + 1] ensures ends[m].callId == bs[i].callId {
      assert ends[m] in ends;
      var j :| 0 <= j < |bs| && ends[m] == EndOf(bs[j], ids);
      assert taken[j + 1] == taken[i + 1];
    }
    var m :| 0 <= m < |ends| && ends[m] == EndOf(bs[i], ids);
    LastEndCounts(LinkEvents(d, LinkScan(map[], map[]), parentEvents).links, ends, taken[i + 1], bs[i].callId);
  }

  // ----- the tree that comes back -----

  /** What a branch is after the trip: the same run under its new id, hung from its parent's new
      id, with its events taken through records and its spawning call kept. */
  ghost predicate Returned(t: Target, refs: map<string, string>, b: Branch, back: Branch, id: string, parent: string) {
    && back.id == id && back.parentId == parent
    && back.cwd == t.canonical(if b.cwd != "" then b.cwd else t.cwd)
    && back.name == b.name && back.model == b.model
    && (b.callId != "" ==> back.callId == b.callId)
    && (b.description != "" ==> back.description == b.description)
    && (b.status != "unknown" ==> back.status == b.status)
    && exists told :: EventsRemapped(refs, Delegations(b.events), b.events, told) && back.events == RoundTrip(told, t.now)
  }

  ghost predicate ReturnedAmong(t: Target, refs: map<string, string>, b: Branch, out: seq<Branch>, id: string, parent: string) {
    exists k :: 0 <= k < |out| && Returned(t, refs, b, out[k], id, parent)
  }

  /** The new id of a parent; the main thread stays nameless. */
  function NewParent(ids: map<string, string>, parent: string): string {
    if parent == "" || parent !in ids then "" else ids[parent]
  }

  lemma RestoredIsReturned(t: Target, refs: map<string, string>, ids: map<string, string>, bs: seq<Branch>, b: Branch, r: Rollout,
      parent: string, links: map<string, Link>)
    requires b.id in ids && b.parentId in ids && forall i :: 0 <= i < |bs| ==> bs[i].id in ids
    requires Describes(t, refs, ids, bs, b, r) && WellFormed(b.events)
    requires b.callId != "" ==> r.id in links && links[r.id].callId == b.callId
    ensures Returned(t, refs, b, Restored(r, parent, links), r.id, parent)
  {
    var told := ChildEvents(t, refs, ids, bs, b, r);
    hide EndsFor, EventsRemapped, EventsIn, WellFormed, RoundTrip;
    assert Restored(r, parent, links).events == EventsIn(r);
  }

  lemma {:induction false} BranchReturns(d: Decoding, t: Target, source: string, events: seq<Event>, bs: seq<Branch>, taken: seq<string>,
      root: Rollout, files: seq<Rollout>, dir: seq<Rollout>, place: seq<nat>, out: seq<Branch>, at: Places, entered: set<string>, i: nat)
    requires Tree(t, source, events, bs, taken, root, files, dir, place) && Transferable(bs)
    requires Explored(d, dir, root, out, at, entered) && i < |bs| && Heard(bs, i)
    ensures var ids := NewIds(bs, taken);
      && (forall k :: 0 <= k < |bs| ==> bs[k].id in ids)
      && ReturnedAmong(t, ReferenceIds(source, bs, ids), bs[i], out, taken[i + 1], NewParent(ids, bs[i].parentId))
  {
    BranchEntered(d, t, source, events, bs, taken, root, files, dir, place, out, at, entered, i);
    RootEntered(d, dir, root, out, at, entered);
    Placed(t, source, events, bs, taken, root, files, dir, place, i);
    ParentFile(t, source, events, bs, taken, root, files, dir, place, i);
    var ids, r := NewIds(bs, taken), dir[place[i]];
    assert taken[i + 1] != taken[0] && root.id == taken[0];
    var k :| 0 <= k < |out| && out[k].id == taken[i + 1];
    var p := r.parentId;
    var parent := if p == root.id then "" else p;
    var links := SpawnLinks(d, EventsAt(dir, root, at, p), FileOf(dir, root, p));
    assert out[k] == Restored(r, parent, links);
    forall m | 0 <= m < |bs| ensures bs[m].id in ids && ids[bs[m].id] == taken[m + 1] {
      Placed(t, source, events, bs, taken, root, files, dir, place, m);
    }
    if bs[i].callId != "" {
      CallKept(d, EventsAt(dir, root, at, p), FileOf(dir, root, p).value, bs, ids, taken, i);
    }
    hide *;
    RestoredIsReturned(t, ReferenceIds(source, bs, ids), ids, bs, bs[i], r, parent, links);
  }

  /** The file of a branch's parent holds the spawn records of the branches below it. */
  lemma {:induction false} ParentFile(t: Target, source: string, events: seq<Event>, bs: seq<Branch>, taken: seq<string>,
      root: Rollout, files: seq<Rollout>, dir: seq<Rollout>, place: seq<nat>, i: nat)
    requires Tree(t, source, events, bs, taken, root, files, dir, place) && i < |bs|
    ensures var ids := NewIds(bs, taken);
      && place[i] < |dir| && (forall k :: 0 <= k < |bs| ==> bs[k].id in ids)
      && var p := dir[place[i]].parentId; var file := FileOf(dir, root, p);
         && file.Some? && file.value.ends == EndsFor(bs, ids, bs[i].parentId)
         && (if p == root.id then "" else p) == NewParent(ids, bs[i].parentId)
  {
    forall k | 0 <= k < |bs| ensures files[k].id == taken[k + 1] && files[k].parentId != "" && files[k].parentId in taken {
      Placed(t, source, events, bs, taken, root, files, dir, place, k);
      ParentIdTaken(t, source, events, bs, taken, root, files, dir, place, k);
    }
    Placed(t, source, events, bs, taken, root, files, dir, place, i);
    ParentIdTaken(t, source, events, bs, taken, root, files, dir, place, i);
    if bs[i].parentId == "" {
      RootFile(dir, place, files, taken, root);
    } else {
      var j :| 0 <= j < i && bs[j].id == bs[i].parentId && dir[place[i]].parentId == taken[j + 1];
      BranchFile(dir, place, files, taken, root, j);
      Placed(t, source, events, bs, taken, root, files, dir, place, j);
    }
  }

  lemma {:induction false} DistinctCount(s: seq<string>)
    requires forall i, j :: 0 <= i < j < |s| ==> s[i] != s[j]
    ensures |set x | x in s| == |s|
  {
    if s != [] {
      var rest := s[1..];
      assert forall i :: 0 <= i < |rest| ==> rest[i] == s[i + 1];
      DistinctCount(rest);
      assert (set x | x in s) == (set x | x in rest) + {s[0]};
      assert s[0] !in rest;
    }
  }

  lemma ListIsForest(out: seq<Branch>)
    requires DistinctIds(out) && B.ParentsFirst(out) && forall k :: 0 <= k < |out| ==> out[k].id != ""
    ensures B.IsForest(out)
  {
    var done := set b | b in out :: b.id;
    assert forall k :: 0 <= k < |out| ==> out[k] in out && out[k].id in done;
    assert B.Listed(out, out, done) by {
      forall id | id in done ensures B.Named(out, id) {
        var b :| b in out && b.id == id;
        var k :| 0 <= k < |out| && out[k] == b;
      }
    }
    B.ListedParents(out, out, done);
    B.ListedAcyclic(out, out, done);
  }

  /** As many branches come back as went exactly when every one is listed. */
  lemma NoneExtra(out: seq<Branch>, taken: seq<string>)
    requires DistinctIds(out) && Distinct(taken) && |taken| > 0
    requires forall k :: 0 <= k < |out| ==> out[k].id in Family(taken)
    ensures |out| == |taken| - 1 <==> AllListed(out, taken)
  {
    var ids := seq(|out|, k requires 0 <= k < |out| => out[k].id);
    DistinctCount(ids);
    DistinctCount(taken[1..]);
    var back := set x | x in ids;
    assert (set x | x in taken[1..]) == Family(taken) by {
      assert forall i :: 1 <= i < |taken| ==> taken[1..][i - 1] == taken[i];
    }
    assert forall x :: x in back <==> Lists(out, x) by {
      forall x | Lists(out, x) ensures x in back {
        var k :| 0 <= k < |out| && out[k].id == x;
        assert ids[k] == x;
      }
    }
    assert back <= Family(taken);
    if |back| == |Family(taken)| { SameSize(back, Family(taken)); }
    else { assert back != Family(taken); }
  }

  lemma SameSize(a: set<string>, b: set<string>)
    requires a <= b && |a| == |b|
    ensures a == b
  {
    if x :| x in b && x !in a { assert a <= b - {x}; SubsetSize(a, b - {x}); }
  }

  lemma {:induction false} SubsetSize(a: set<string>, b: set<string>)
    requires a <= b
    ensures |a| <= |b|
  {
    if x :| x in a { SubsetSize(a - {x}, b - {x}); }
  }

  ghost predicate AllHeard(bs: seq<Branch>) { forall i :: 0 <= i < |bs| ==> Heard(bs, i) }

  ghost predicate AllSpeak(bs: seq<Branch>) { forall i :: 0 <= i < |bs| ==> Speaks(bs[i].events) }

  ghost predicate AllListed(out: seq<Branch>, taken: seq<string>) { forall i :: 1 <= i < |taken| ==> Lists(out, taken[i]) }

  /** Everybody is heard exactly when everybody speaks. */
  lemma {:induction false} AllAreHeard(bs: seq<Branch>)
    requires B.ParentsFirst(bs)
    ensures AllHeard(bs) <==> AllSpeak(bs)
  {
    hide Speaks, Heard, B.ParentsFirst;
    if AllHeard(bs) {
      forall i | 0 <= i < |bs| ensures Speaks(bs[i].events) { HeardSpeaks(bs, i); }
    }
    if AllSpeak(bs) {
      forall i | 0 <= i < |bs| ensures Heard(bs, i) { HeardBelow(bs, i); }
    }
  }

  lemma {:induction false} HeardSpeaks(bs: seq<Branch>, i: nat)
    requires i < |bs| && Heard(bs, i)
    ensures Speaks(bs[i].events)
  {
    hide Speaks;
  }

  lemma {:induction false} HeardBelow(bs: seq<Branch>, i: nat)
    requires B.ParentsFirst(bs) && i < |bs| && AllSpeak(bs)
    ensures Heard(bs, i)
    decreases i
  {
    hide Speaks;
    if bs[i].parentId != "" {
      var j :| 0 <= j < i && bs[j].id == bs[i].parentId;
      HeardBelow(bs, j);
    }
  }

  /** What has come back of the branches: those that are heard, each under its new id with its parent's, and no others. */
  ghost predicate HeardReturned(t: Target, source: string, bs: seq<Branch>, taken: seq<string>, out: seq<Branch>)
    requires |taken| == |bs| + 1
  {
    && B.IsForest(out) && B.ParentsFirst(out) && (forall k :: 0 <= k < |out| ==> out[k].id in Family(taken))
    && (|out| == |bs| <==> AllSpeak(bs))
    && forall i :: 0 <= i < |bs| ==> EitherWay(t, source, bs, taken, out, i)
  }

  /** Reads back a tree that was written, out of a directory where anything else may lie: the walk ends, and what it
      returns is the forest of the branches that are heard, each exactly once under its new id with its parent's new id,
      its spawning call, and its events as records carry them. */
  method ReadWrittenTree(d: Decoding, dir: seq<Rollout>, root: Rollout,
      ghost t: Target, ghost source: string, ghost told: seq<Event>, ghost bs: seq<Branch>, ghost taken: seq<string>,
      ghost files: seq<Rollout>, ghost place: seq<nat>)
    returns (fault: Option<TreeFault>, events: seq<Event>, out: seq<Branch>)
    requires Tree(t, source, told, bs, taken, root, files, dir, place) && Transferable(bs)
    requires CodexTree.Named(dir)
    ensures fault.None? && HeardReturned(t, source, bs, taken, out)
    ensures exists main :: EventsRemapped(ReferenceIdsOf(source, bs, taken), Delegations(told), told, main) && events == RoundTrip(main, t.now)
  {
    TreeIsTame(t, source, told, bs, taken, root, files, dir, place);
    RootReturns(t, source, told, bs, taken, root, files, dir, place);
    hide *;
    ghost var at, entered;
    fault, events, out, at, entered := ReadTree(d, dir, root, Family(taken));
    WholeTreeReturns(d, t, source, told, bs, taken, root, files, dir, place, out, at, entered);
  }

  ghost function ReferenceIdsOf(source: string, bs: seq<Branch>, taken: seq<string>): map<string, string>
    requires |taken| == |bs| + 1
  {
    var ids := NewIds(bs, taken);
    if forall i :: 0 <= i < |bs| ==> bs[i].id in ids then ReferenceIds(source, bs, ids) else map[]
  }

  lemma {:induction false} RootReturns(t: Target, source: string, told: seq<Event>, bs: seq<Branch>, taken: seq<string>,
      root: Rollout, files: seq<Rollout>, dir: seq<Rollout>, place: seq<nat>)
    requires Tree(t, source, told, bs, taken, root, files, dir, place)
    ensures |taken| == |bs| + 1 && root.id == taken[0] != "" && root.content.Some?
    ensures exists main ::
      EventsRemapped(ReferenceIdsOf(source, bs, taken), Delegations(told), told, main) && EventsIn(root) == RoundTrip(main, t.now)
  {
    hide NewIds, ReferenceIds, EndsFor, EventsRemapped, Describes, Published, Read, Write;
    var refs := ReferenceIdsOf(source, bs, taken);
    assert DescribesRoot(t, refs, told, root);
    var main :| EventsRemapped(refs, Delegations(told), told, main) && root.content.value == Write(main, t.now);
    assert EventsIn(root) == RoundTrip(main, t.now);
  }

  lemma {:induction false} WholeTreeReturns(d: Decoding, t: Target, source: string, told: seq<Event>, bs: seq<Branch>, taken: seq<string>,
      root: Rollout, files: seq<Rollout>, dir: seq<Rollout>, place: seq<nat>, out: seq<Branch>, at: Places, entered: set<string>)
    requires Tree(t, source, told, bs, taken, root, files, dir, place) && Transferable(bs)
    requires Explored(d, dir, root, out, at, entered) && forall k :: 0 <= k < |out| ==> out[k].id in Family(taken)
    ensures |taken| == |bs| + 1 && HeardReturned(t, source, bs, taken, out)
  {
    RootEntered(d, dir, root, out, at, entered);
    assert |taken| == |bs| + 1 && Distinct(taken) && B.ParentsFirst(bs);
    hide *;
    forall i | 0 <= i < |bs| ensures EitherWay(t, source, bs, taken, out, i) {
      EachReturns(d, t, source, told, bs, taken, root, files, dir, place, out, at, entered, i);
    }
    HeardCount(t, source, bs, taken, out);
    forall k | 0 <= k < |out| ensures out[k].id != "" { FamilyIsNamed(taken, out[k].id); }
    ListIsForest(out);
    TheHeard(t, source, bs, taken, out);
  }

  /** A branch that is heard has come back; any other is not listed. */
  ghost predicate EitherWay(t: Target, source: string, bs: seq<Branch>, taken: seq<string>, out: seq<Branch>, i: nat)
    requires |taken| == |bs| + 1 && i < |bs|
  {
    if Heard(bs, i) then
      ReturnedAmong(t, ReferenceIdsOf(source, bs, taken), bs[i], out, taken[i + 1], NewParent(NewIds(bs, taken), bs[i].parentId))
    else !Lists(out, taken[i + 1])
  }

  lemma {:induction false} EachReturns(d: Decoding, t: Target, source: string, told: seq<Event>, bs: seq<Branch>, taken: seq<string>,
      root: Rollout, files: seq<Rollout>, dir: seq<Rollout>, place: seq<nat>, out: seq<Branch>, at: Places, entered: set<string>, i: nat)
    requires Tree(t, source, told, bs, taken, root, files, dir, place) && Transferable(bs)
    requires Explored(d, dir, root, out, at, entered) && i < |bs|
    ensures |taken| == |bs| + 1 && EitherWay(t, source, bs, taken, out, i)
  {
    hide Tree, Transferable, Explored, ReturnedAmong, ReferenceIdsOf, NewIds, NewParent, Lists, Heard;
    assert |taken| == |bs| + 1 by { SizesAgree(t, source, told, bs, taken, root, files, dir, place); }
    if Heard(bs, i) {
      BranchReturns(d, t, source, told, bs, taken, root, files, dir, place, out, at, entered, i);
      SameReferences(source, bs, taken);
    } else if Lists(out, taken[i + 1]) {
      ListedIsEntered(d, dir, root, out, at, entered, taken[i + 1]);
      EnteredIsHeard(d, t, source, told, bs, taken, root, files, dir, place, out, at, entered, i);
    }
  }

  lemma SizesAgree(t: Target, source: string, told: seq<Event>, bs: seq<Branch>, taken: seq<string>,
      root: Rollout, files: seq<Rollout>, dir: seq<Rollout>, place: seq<nat>)
    requires Tree(t, source, told, bs, taken, root, files, dir, place)
    ensures |taken| == |bs| + 1
  {
    hide Distinct, WrittenTree, Published;
  }

  lemma {:induction false} HeardIsListed(t: Target, source: string, bs: seq<Branch>, taken: seq<string>, out: seq<Branch>, i: nat)
    requires |taken| == |bs| + 1 && i < |bs| && EitherWay(t, source, bs, taken, out, i)
    ensures Lists(out, taken[i + 1]) <==> Heard(bs, i)
  {
    hide ReturnedAmong, ReferenceIdsOf, NewIds, NewParent, Lists, Heard;
    if Heard(bs, i) {
      AmongIsListed(t, ReferenceIdsOf(source, bs, taken), bs[i], out, taken[i + 1], NewParent(NewIds(bs, taken), bs[i].parentId));
    }
  }

  lemma {:induction false} HeardCount(t: Target, source: string, bs: seq<Branch>, taken: seq<string>, out: seq<Branch>)
    requires |taken| == |bs| + 1 && DistinctIds(out) && Distinct(taken) && B.ParentsFirst(bs)
    requires forall k :: 0 <= k < |out| ==> out[k].id in Family(taken)
    requires forall i :: 0 <= i < |bs| ==> EitherWay(t, source, bs, taken, out, i)
    ensures |out| == |bs| <==> AllSpeak(bs)
  {
    NoneExtra(out, taken);
    AllAreHeard(bs);
    hide ReturnedAmong, Lists, Heard, AllSpeak, EitherWay, DistinctIds, Distinct, B.ParentsFirst, Family;
    if AllListed(out, taken) {
      forall i | 0 <= i < |bs| ensures Heard(bs, i) {
        HeardIsListed(t, source, bs, taken, out, i);
        assert Lists(out, taken[i + 1]);
      }
    }
    if AllHeard(bs) {
      forall i | 1 <= i < |taken| ensures Lists(out, taken[i]) {
        assert EitherWay(t, source, bs, taken, out, i - 1);
        HeardIsListed(t, source, bs, taken, out, i - 1);
        assert Heard(bs, i - 1);
      }
    }
  }

  lemma {:induction false} TheHeard(t: Target, source: string, bs: seq<Branch>, taken: seq<string>, out: seq<Branch>)
    requires |taken| == |bs| + 1
    requires B.IsForest(out) && B.ParentsFirst(out) && forall k :: 0 <= k < |out| ==> out[k].id in Family(taken)
    requires |out| == |bs| <==> AllSpeak(bs)
    requires forall i :: 0 <= i < |bs| ==> EitherWay(t, source, bs, taken, out, i)
    ensures HeardReturned(t, source, bs, taken, out)
  {
    hide EitherWay, Family, AllSpeak, B.IsForest, B.ParentsFirst;
  }

  lemma {:induction false} ListedIsEntered(d: Decoding, dir: seq<Rollout>, root: Rollout, out: seq<Branch>, at: Places, entered: set<string>, q: string)
    requires Explored(d, dir, root, out, at, entered) && Lists(out, q)
    ensures q in entered
  {
    hide RestoredAt, DistinctIds, B.ParentsFirst, Complete, NoneEmpty;
    var seen :| Walked(d, dir, root, seen, out, at, entered);
  }

  lemma {:induction false} SameReferences(source: string, bs: seq<Branch>, taken: seq<string>)
    requires |taken| == |bs| + 1 && forall i :: 0 <= i < |bs| ==> bs[i].id in NewIds(bs, taken)
    ensures ReferenceIdsOf(source, bs, taken) == ReferenceIds(source, bs, NewIds(bs, taken))
  {
    hide NewIds, ReferenceIds;
  }

  lemma AmongIsListed(t: Target, refs: map<string, string>, b: Branch, out: seq<Branch>, id: string, parent: string)
    requires ReturnedAmong(t, refs, b, out, id, parent)
    ensures Lists(out, id)
  {
    var k :| 0 <= k < |out| && Returned(t, refs, b, out[k], id, parent);
    assert out[k].id == id;
  }

  lemma FamilyIsNamed(taken: seq<string>, id: string)
    requires Distinct(taken) && id in Family(taken)
    ensures id != ""
  {}

  // ----- from writing to reading -----

  /** A directory that lists the root and the files among rollouts known by other ids is one the tree can be read from. */
  lemma {:induction false} RootAmongOthers(t: Target, source: string, events: seq<Event>, bs: seq<Branch>, taken: seq<string>,
      root: Rollout, files: seq<Rollout>, dir: seq<Rollout>, place: seq<nat>, rootAt: nat)
    requires |taken| == |bs| + 1 && Distinct(taken) && B.ParentsFirst(bs) && B.IdsUsable(bs)
    requires WrittenTree(t, source, events, bs, taken, root, files)
    requires |place| == |files| && rootAt < |dir| && dir[rootAt] == root
    requires (forall i :: 0 <= i < |files| ==> place[i] < |dir| && place[i] != rootAt && dir[place[i]] == files[i])
    requires (forall i, j :: 0 <= i < j < |place| ==> place[i] != place[j])
    requires forall k :: 0 <= k < |dir| && k !in place && k != rootAt ==> dir[k].id !in taken && dir[k].parentId !in taken
    ensures Tree(t, source, events, bs, taken, root, files, dir, place)
  {
    hide NewIds, EndsFor, ReferenceIds, Describes;
    assert root.parentId == "" && "" !in taken;
  }

  /** Writes a session's runs into a directory that holds other rollouts, and reads them back from there. */
  method WriteThenRead(t: Target, d: Decoding, history: Session, taken: seq<string>, others: seq<Rollout>)
    returns (refused: bool, back: seq<Branch>, ghost bs: seq<Branch>)
    requires |taken| == |history.branches| + 1 && Distinct(taken) && (forall v :: t.encode(v) != "")
    requires forall b :: b in history.branches ==> WellFormed(b.events)
    requires forall r :: r in others ==> r.id != "" && r.id !in taken && r.parentId !in taken
    ensures refused <==> !B.IsForest(history.branches)
    ensures !refused ==>
      && multiset(bs) == multiset(history.branches) && |bs| == |history.branches|
      && HeardReturned(t, history.source, bs, taken, back)
  {
    hide *;
    back := [];
    var fault, root, files;
    fault, root, files, bs := WriteTree(t, history, taken);
    refused := fault.Some?;
    if refused { return; }
    var dir := others + [root] + files;
    ghost var place := PlacesAfter(|others|, |files|);
    FilesAreNamed(t, history.source, history.events, bs, taken, root, files);
    Listed(root, files, others, taken);
    RootAmongOthers(t, history.source, history.events, bs, taken, root, files, dir, place, |others|);
    StillTransferable(history.branches, bs);
    var readFault, events;
    readFault, events, back :=
      ReadWrittenTree(d, dir, root, t, history.source, history.events, bs, taken, files, place);
  }

  lemma {:induction false} StillTransferable(branches: seq<Branch>, bs: seq<Branch>)
    requires multiset(bs) == multiset(branches)
    requires forall b :: b in branches ==> WellFormed(b.events)
    ensures Transferable(bs)
  {
    hide WellFormed;
    forall i | 0 <= i < |bs| ensures WellFormed(bs[i].events) {
      assert bs[i] in multiset(bs);
      assert bs[i] in branches;
    }
  }

  lemma {:induction false} FilesAreNamed(t: Target, source: string, events: seq<Event>, bs: seq<Branch>, taken: seq<string>,
      root: Rollout, files: seq<Rollout>)
    requires |taken| == |bs| + 1 && Distinct(taken) && B.IdsUsable(bs) && WrittenTree(t, source, events, bs, taken, root, files)
    ensures root.id != "" && |files| == |bs| && forall i :: 0 <= i < |files| ==> files[i].id != ""
  {
    NewIdsName(bs, taken);
    hide NewIds, EndsFor, ReferenceIds, DescribesRoot;
  }

  /** Where the files stand behind `n` others and the root. */
  function PlacesAfter(n: nat, files: nat): (place: seq<nat>)
    ensures |place| == files && forall i :: 0 <= i < files ==> place[i] == n + 1 + i
  {
    seq(files, i requires 0 <= i < files => n + 1 + i)
  }

  lemma {:induction false} Listed(root: Rollout, files: seq<Rollout>, others: seq<Rollout>, taken: seq<string>)
    requires root.id != "" && forall i :: 0 <= i < |files| ==> files[i].id != ""
    requires forall r :: r in others ==> r.id != "" && r.id !in taken && r.parentId !in taken
    ensures var dir, place := others + [root] + files, PlacesAfter(|others|, |files|);
      && dir[|others|] == root && CodexTree.Named(dir)
      && (forall i :: 0 <= i < |files| ==> dir[place[i]] == files[i])
      && forall k :: 0 <= k < |dir| && k !in place && k != |others| ==> dir[k].id !in taken && dir[k].parentId !in taken
  {
    var dir, place := others + [root] + files, PlacesAfter(|others|, |files|);
    hide PlacesAfter;
    forall k | 0 <= k < |dir| ensures dir[k].id != "" {
      if k < |others| { assert dir[k] in others; }
      else if k > |others| { assert dir[k] == files[k - |others| - 1]; }
    }
    forall k | |others| < k < |dir| ensures k in place { assert place[k - |others| - 1] == k; }
    forall k | 0 <= k < |dir| && k !in place && k != |others| ensures dir[k].id !in taken && dir[k].parentId !in taken {
      assert dir[k] in others;
    }
  }
}
