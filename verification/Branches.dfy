/** Delegated runs form a forest; this is how it is checked and put in an order that lists
    every parent before its children (internal/session/branches.go:10-53), and the depth
    table writers build from that order (internal/session/codex_branches.go:177-186). */
module Branches {
  import opened Basics
  import opened Conversation

  datatype ForestFault = NoId | DuplicateId(id: string) | ParentCycle(id: string) | UnknownParent(id: string)

  // ----- what a forest is -----

  ghost predicate IdsUsable(bs: seq<Branch>) {
    && (forall i :: 0 <= i < |bs| ==> bs[i].id != "")
    && (forall i, j :: 0 <= i < j < |bs| ==> bs[i].id != bs[j].id)
  }

  ghost predicate Named(bs: seq<Branch>, id: string) {
    exists i :: 0 <= i < |bs| && bs[i].id == id
  }

  ghost predicate NamedAsParent(bs: seq<Branch>, id: string) {
    id != "" && exists i :: 0 <= i < |bs| && bs[i].parentId == id
  }

  ghost predicate ParentsNamed(bs: seq<Branch>) {
    forall i :: 0 <= i < |bs| && bs[i].parentId != "" ==> Named(bs, bs[i].parentId)
  }

  /** The parent of `id`: "" for the main thread, for a top-level branch and for a stranger. */
  function ParentOf(bs: seq<Branch>, id: string): string {
    if bs == [] then "" else if bs[0].id == id then bs[0].parentId else ParentOf(bs[1..], id)
  }

  function Ancestor(bs: seq<Branch>, id: string, n: nat): string
    decreases n
  {
    if n == 0 then id else Ancestor(bs, ParentOf(bs, id), n - 1)
  }

  ghost predicate Acyclic(bs: seq<Branch>) {
    forall id, n: nat :: Named(bs, id) && n > 0 ==> Ancestor(bs, id, n) != id
  }

  ghost predicate IsForest(bs: seq<Branch>) {
    IdsUsable(bs) && ParentsNamed(bs) && Acyclic(bs)
  }

  ghost predicate ParentsFirst(out: seq<Branch>) {
    forall i :: 0 <= i < |out| && out[i].parentId != "" ==> exists j :: 0 <= j < i && out[j].id == out[i].parentId
  }

  // ----- the order a forest is put in -----

  /** Branch `i` is `id` or descends from it. */
  ghost predicate DueBy(bs: seq<Branch>, id: string, i: int) { 0 <= i < |bs| && exists n: nat :: Ancestor(bs, bs[i].id, n) == id }

  /** What each branch of the order is listed for: the first branch that is it or descends from it.  These come in
      their own order, and what is listed for one of them is listed from the top down. */
  ghost predicate Caused(bs: seq<Branch>, out: seq<Branch>, cause: seq<nat>) {
    && |cause| == |out|
    && (forall p :: 0 <= p < |out| ==> DueBy(bs, out[p].id, cause[p]))
    && (forall p, m :: 0 <= p < |out| && 0 <= m < cause[p] ==> !DueBy(bs, out[p].id, m))
    && (forall p, q :: 0 <= p < q < |out| ==> cause[p] <= cause[q])
    && (forall p :: 0 < p < |out| && cause[p - 1] == cause[p] ==> out[p].parentId == out[p - 1].id)
  }

  lemma {:induction false} ParentOfMember(bs: seq<Branch>, i: nat)
    requires i < |bs| && forall j, k :: 0 <= j < k < |bs| ==> bs[j].id != bs[k].id
    ensures ParentOf(bs, bs[i].id) == bs[i].parentId
  {
    if i > 0 {
      assert bs[1..][i - 1] == bs[i];
      ParentOfMember(bs[1..], i - 1);
    }
  }

  lemma {:induction false} AncestorStep(bs: seq<Branch>, id: string, n: nat)
    ensures Ancestor(bs, id, n + 1) == ParentOf(bs, Ancestor(bs, id, n))
    decreases n
  {
    if n > 0 { AncestorStep(bs, ParentOf(bs, id), n - 1); }
  }

  lemma {:induction false} ParentOfNobody(bs: seq<Branch>)
    requires forall i :: 0 <= i < |bs| ==> bs[i].id != ""
    ensures ParentOf(bs, "") == ""
  {
    if bs != [] {
      assert forall i :: 0 <= i < |bs[1..]| ==> bs[1..][i] == bs[i + 1];
      ParentOfNobody(bs[1..]);
    }
  }

  // ----- the ordering walk -----

  datatype Color = White | Gray | Black

  class Walk {
    const bs: seq<Branch>
    var byId: map<string, nat>
    var state: map<string, Color>
    var out: seq<Branch>
    ghost var stack: seq<string>
    ghost var gray: set<string>
    ghost var done: set<string>
    ghost var cause: seq<nat>
    ghost var now: nat

    constructor (bs: seq<Branch>)
      ensures this.bs == bs && Unused()
    {
      this.bs := bs;
      byId, state, out, stack, gray, done, cause, now := map[], map[], [], [], {}, {}, [], 0;
    }

    ghost predicate Unused()
      reads this
    {
      byId == map[] && state == map[] && out == [] && stack == [] && gray == {} && done == {} && cause == [] && now == 0
    }

    function ColorOf(id: string): Color
      reads this
    {
      if id in state then state[id] else White
    }

    /** The gray branches are a path of parents ending at the one being visited; the black
        ones are exactly those output, each after its parent. */
    ghost predicate Valid()
      reads this
    {
      && Indexed(bs, byId)
      && Colored(state, gray, done)
      && done + gray <= byId.Keys
      && IsPath(bs, stack, gray)
      && Listed(bs, out, done)
      && Ordered(bs, out, cause, done, stack, now)
    }

    method Index() returns (fault: Option<ForestFault>)
      requires Unused()
      modifies `byId
      ensures fault.None? ==> Valid() && stack == [] && gray == {} && now == 0 && NoneYet(cause, 0)
      ensures fault.None? <==> IdsUsable(bs)
      ensures fault == Some(NoId) ==> exists i :: 0 <= i < |bs| && bs[i].id == ""
      ensures fault.Some? ==> fault.value.NoId? || fault.value.DuplicateId?
      ensures fault.Some? && fault.value.DuplicateId? ==>
        exists i, j :: 0 <= i < j < |bs| && bs[i].id == bs[j].id == fault.value.id
    {
      for i := 0 to |bs|
        invariant forall k :: 0 <= k < i ==> bs[k].id != ""
        invariant forall j, k :: 0 <= j < k < i ==> bs[j].id != bs[k].id
        invariant forall id :: id in byId <==> exists k :: 0 <= k < i && bs[k].id == id
        invariant forall id :: id in byId ==> byId[id] < i && bs[byId[id]].id == id
      {
        if bs[i].id == "" { return Some(NoId); }
        if bs[i].id in byId {
          assert bs[byId[bs[i].id]].id == bs[i].id;
          return Some(DuplicateId(bs[i].id));
        }
        byId := byId[bs[i].id := i];
      }
      return None;
    }

    /** Visits `id` and, first, everything it descends from. */
    method Visit(id: string) returns (fault: Option<ForestFault>)
      requires Valid()
      requires stack != [] ==> id == ParentOf(bs, stack[|stack| - 1])
      requires DueBy(bs, id, now) && NoneYet(cause, now)
      modifies `state, `out, `stack, `gray, `done, `cause
      ensures fault.None? ==> Valid() && stack == old(stack) && gray == old(gray) && id in done && old(done) <= done
      ensures fault.None? ==> NoneYet(cause, now) || LastIs(out, id)
      ensures fault.Some? ==>
        || (fault.value.ParentCycle? && !Acyclic(bs))
        || (fault.value.UnknownParent? && !Named(bs, fault.value.id)
            && (fault.value.id == id || NamedAsParent(bs, fault.value.id)))
      decreases byId.Keys - done - gray
    {
      hide Indexed, IsPath, Listed, Acyclic, Colored, Named, NamedAsParent, Ordered, DueBy, NoneYet, LastIs;
      ColorsTell(state, gray, done, id);
      if ColorOf(id).Black? { return None; }
      if ColorOf(id).Gray? {
        CycleFound(id);
        return Some(ParentCycle(id));
      }
      if id !in byId {
        Unindexed(bs, byId, id);
        return Some(UnknownParent(id));
      }
      IndexedParent(bs, byId, id);
      var b := bs[byId[id]];
      Enter(id);
      if b.parentId != "" {
        DueAbove(bs, id, now);
        fault := Visit(b.parentId);
        if fault.Some? { return fault; }
      }
      Leave(b);
      return None;
    }

    method Enter(id: string)
      requires Valid() && id in byId && id !in done && id !in gray
      requires stack != [] ==> id == ParentOf(bs, stack[|stack| - 1])
      requires DueBy(bs, id, now)
      modifies `state, `stack, `gray
      ensures Valid() && stack == old(stack) + [id] && gray == old(gray) + {id}
    {
      hide Indexed, IsPath, Listed, Colored, Ordered, DueBy;
      OrderPush(bs, out, cause, done, stack, now, id);
      Push(bs, stack, gray, id);
      PaintGray(state, gray, done, id);
      state := state[id := Gray];
      stack := stack + [id];
      gray := gray + {id};
    }

    method Leave(b: Branch)
      requires Valid() && b in bs && (b.parentId == "" || b.parentId in done)
      requires stack != [] && stack[|stack| - 1] == b.id
      requires NoneYet(cause, now) || LastIs(out, b.parentId)
      modifies `state, `stack, `gray, `out, `done, `cause
      ensures LastIs(out, b.id)
      ensures Valid() && stack == old(stack)[..|old(stack)| - 1] && gray == old(gray) - {b.id} && done == old(done) + {b.id}
    {
      hide Indexed, IsPath, Listed, Colored, Ordered, NoneYet, LastIs, DueBy;
      Pop(bs, stack, gray);
      PaintBlack(state, gray, done, b.id);
      OrderList(bs, byId, out, cause, done, stack, now, b);
      Blacken(byId.Keys, gray, done, b.id);
      List(bs, out, done, b);
      state := state[b.id := Black];
      stack := stack[..|stack| - 1];
      gray := gray - {b.id};
      out := out + [b];
      done := done + {b.id};
      cause := cause + [now];
    }

    ghost method Advance()
      requires Valid() && stack == [] && now < |bs| && bs[now].id in done
      modifies `now
      ensures Valid() && now == old(now) + 1 && NoneYet(cause, now)
    {
      hide Indexed, IsPath, Listed, Colored, Ordered, NoneYet;
      OrderNext(bs, out, cause, done, now);
      now := now + 1;
    }

    /** Starts a visit from every branch in turn. */
    method VisitAll() returns (fault: Option<ForestFault>)
      requires Valid() && stack == [] && gray == {} && now == 0 && NoneYet(cause, 0)
      modifies `state, `out, `stack, `gray, `done, `cause, `now
      ensures fault.None? ==> Valid() && forall k :: 0 <= k < |bs| ==> bs[k].id in done
      ensures fault.Some? ==>
        || (fault.value.ParentCycle? && !Acyclic(bs))
        || (fault.value.UnknownParent? && !Named(bs, fault.value.id) && NamedAsParent(bs, fault.value.id))
    {
      for i := 0 to |bs|
        invariant Valid() && stack == [] && gray == {} && now == i && NoneYet(cause, now)
        invariant forall k :: 0 <= k < i ==> bs[k].id in done
      {
        hide *;
        IsNamed(bs, i);
        DueByItself(bs, i);
        fault := Visit(bs[i].id);
        if fault.Some? { return fault; }
        Advance();
      }
      return None;
    }

    lemma CycleFound(id: string)
      requires Indexed(bs, byId) && IsPath(bs, stack, gray) && id in gray && id in byId
      requires stack != [] ==> id == ParentOf(bs, stack[|stack| - 1])
      ensures !Acyclic(bs)
    {
      var k :| 0 <= k < |stack| && stack[k] == id;
      var n := |stack| - 1 - k;
      Climb(bs, stack, gray, k, n);
      AncestorStep(bs, id, n);
      assert Named(bs, id);
    }
  }

  /** The order so far: everything up to branch `now` is listed, and what is being visited is listed for that. */
  ghost predicate Ordered(bs: seq<Branch>, out: seq<Branch>, cause: seq<nat>, done: set<string>, stack: seq<string>, now: nat) {
    && Caused(bs, out, cause)
    && (forall p :: 0 <= p < |cause| ==> cause[p] <= now)
    && (forall m :: 0 <= m < now && m < |bs| ==> bs[m].id in done)
    && (forall k :: 0 <= k < |stack| ==> DueBy(bs, stack[k], now))
  }

  /** Nothing has been listed for branch `now`. */
  ghost predicate NoneYet(cause: seq<nat>, now: nat) { forall p :: 0 <= p < |cause| ==> cause[p] < now }

  predicate LastIs(out: seq<Branch>, id: string) { out != [] && out[|out| - 1].id == id }

  lemma {:induction false} DueByItself(bs: seq<Branch>, i: nat)
    requires i < |bs|
    ensures DueBy(bs, bs[i].id, i)
  {
    assert Ancestor(bs, bs[i].id, 0) == bs[i].id;
  }

  lemma {:induction false} DueAbove(bs: seq<Branch>, id: string, i: int)
    requires DueBy(bs, id, i)
    ensures DueBy(bs, ParentOf(bs, id), i)
  {
    var n: nat :| Ancestor(bs, bs[i].id, n) == id;
    AncestorStep(bs, bs[i].id, n);
  }

  lemma {:induction false} OrderPush(bs: seq<Branch>, out: seq<Branch>, cause: seq<nat>, done: set<string>, stack: seq<string>, now: nat, id: string)
    requires Ordered(bs, out, cause, done, stack, now) && DueBy(bs, id, now)
    ensures Ordered(bs, out, cause, done, stack + [id], now)
  {
    hide Caused, DueBy;
  }

  lemma {:induction false} OrderNext(bs: seq<Branch>, out: seq<Branch>, cause: seq<nat>, done: set<string>, now: nat)
    requires Ordered(bs, out, cause, done, [], now) && now < |bs| && bs[now].id in done
    ensures Ordered(bs, out, cause, done, [], now + 1) && NoneYet(cause, now + 1)
  {
    hide Caused, DueBy;
  }

  /** What is listed has its ancestors listed. */
  lemma {:induction false} AncestorsListed(bs: seq<Branch>, out: seq<Branch>, done: set<string>, id: string, n: nat)
    requires IdsUsable(bs) && Listed(bs, out, done) && id in done
    ensures Ancestor(bs, id, n) == "" || Ancestor(bs, id, n) in done
    decreases n
  {
    if n > 0 {
      AncestorsListed(bs, out, done, id, n - 1);
      AncestorStep(bs, id, n - 1);
      var below := Ancestor(bs, id, n - 1);
      if below == "" {
        ParentOfNobody(bs);
      } else {
        var k :| 0 <= k < |out| && out[k].id == below;
        var m :| 0 <= m < |bs| && bs[m] == out[k];
        ParentOfMember(bs, m);
      }
    }
  }

  lemma {:induction false} NotDueBefore(bs: seq<Branch>, out: seq<Branch>, done: set<string>, id: string, m: int)
    requires IdsUsable(bs) && Listed(bs, out, done) && id !in done && id != "" && 0 <= m < |bs| && bs[m].id in done
    ensures !DueBy(bs, id, m)
  {
    if DueBy(bs, id, m) {
      var n: nat :| Ancestor(bs, bs[m].id, n) == id;
      AncestorsListed(bs, out, done, bs[m].id, n);
    }
  }

  lemma {:induction false} OrderList(bs: seq<Branch>, byId: map<string, nat>, out: seq<Branch>, cause: seq<nat>, done: set<string>, stack: seq<string>, now: nat, b: Branch)
    requires Indexed(bs, byId) && Ordered(bs, out, cause, done, stack, now) && Listed(bs, out, done) && b in bs && b.id !in done
    requires stack != [] && stack[|stack| - 1] == b.id && (NoneYet(cause, now) || LastIs(out, b.parentId))
    ensures Ordered(bs, out + [b], cause + [now], done + {b.id}, stack[..|stack| - 1], now) && LastIs(out + [b], b.id)
  {
    hide DueBy, Listed;
    var out', cause' := out + [b], cause + [now];
    forall m | 0 <= m < now ensures !DueBy(bs, b.id, m) {
      if m < |bs| { NotDueBefore(bs, out, done, b.id, m); } else { NotDueBeyond(bs, b.id, m); }
    }
    assert DueBy(bs, b.id, now);
    forall p | 0 <= p < |out'| ensures out'[p] == (if p < |out| then out[p] else b) && cause'[p] == (if p < |out| then cause[p] else now) {}
  }

  lemma NotDueBeyond(bs: seq<Branch>, id: string, m: int)
    requires m >= |bs|
    ensures !DueBy(bs, id, m)
  {}

  lemma IsNamed(bs: seq<Branch>, i: nat)
    requires i < |bs|
    ensures Named(bs, bs[i].id)
  {}

  ghost predicate Indexed(bs: seq<Branch>, byId: map<string, nat>) {
    && IdsUsable(bs)
    && (forall id :: id in byId <==> Named(bs, id))
    && (forall id :: id in byId ==> byId[id] < |bs| && bs[byId[id]].id == id)
  }

  lemma Unindexed(bs: seq<Branch>, byId: map<string, nat>, id: string)
    requires Indexed(bs, byId) && id !in byId
    ensures !Named(bs, id)
  {}

  lemma {:induction false} IndexedParent(bs: seq<Branch>, byId: map<string, nat>, id: string)
    requires Indexed(bs, byId) && id in byId
    ensures byId[id] < |bs| && bs[byId[id]] in bs && bs[byId[id]].id == id
    ensures ParentOf(bs, id) == bs[byId[id]].parentId
    ensures bs[byId[id]].parentId != "" ==> NamedAsParent(bs, bs[byId[id]].parentId)
  {
    ParentOfMember(bs, byId[id]);
  }

  ghost predicate Colored(state: map<string, Color>, gray: set<string>, done: set<string>) {
    && gray !! done
    && (forall id :: id in done <==> id in state && state[id].Black?)
    && (forall id :: id in gray <==> id in state && state[id].Gray?)
  }

  lemma ColorsTell(state: map<string, Color>, gray: set<string>, done: set<string>, id: string)
    requires Colored(state, gray, done)
    ensures id in done <==> id in state && state[id].Black?
    ensures id in gray <==> id in state && state[id].Gray?
  {}

  lemma PaintGray(state: map<string, Color>, gray: set<string>, done: set<string>, id: string)
    requires Colored(state, gray, done) && id !in done && id !in gray
    ensures Colored(state[id := Gray], gray + {id}, done)
  {}

  lemma Blacken(keys: set<string>, gray: set<string>, done: set<string>, id: string)
    requires done + gray <= keys && id in gray
    ensures (done + {id}) + (gray - {id}) <= keys
  {}

  lemma PaintBlack(state: map<string, Color>, gray: set<string>, done: set<string>, id: string)
    requires Colored(state, gray, done) && id in gray
    ensures Colored(state[id := Black], gray - {id}, done + {id}) && id !in done
  {}

  /** Each entry's parent is the next entry, no entry repeats, and `gray` holds the entries. */
  ghost predicate IsPath(bs: seq<Branch>, stack: seq<string>, gray: set<string>) {
    && (forall k :: 0 < k < |stack| ==> stack[k] == ParentOf(bs, stack[k - 1]))
    && (forall j, k :: 0 <= j < k < |stack| ==> stack[j] != stack[k])
    && (forall id :: id in gray <==> id in stack)
  }

  ghost predicate Listed(bs: seq<Branch>, out: seq<Branch>, done: set<string>) {
    && (forall k :: 0 <= k < |out| ==> out[k] in bs && out[k].id in done)
    && (forall id :: id in done ==> Named(out, id))
    && (forall i, j :: 0 <= i < j < |out| ==> out[i].id != out[j].id)
    && ParentsFirst(out)
  }

  lemma {:induction false} Push(bs: seq<Branch>, stack: seq<string>, gray: set<string>, id: string)
    requires IsPath(bs, stack, gray) && id !in gray && (stack != [] ==> id == ParentOf(bs, stack[|stack| - 1]))
    ensures IsPath(bs, stack + [id], gray + {id})
  {}

  lemma Pop(bs: seq<Branch>, stack: seq<string>, gray: set<string>)
    requires IsPath(bs, stack, gray) && stack != []
    ensures IsPath(bs, stack[..|stack| - 1], gray - {stack[|stack| - 1]})
    ensures stack[|stack| - 1] in gray
  {}

  lemma List(bs: seq<Branch>, out: seq<Branch>, done: set<string>, b: Branch)
    requires Listed(bs, out, done) && b in bs && b.id !in done && (b.parentId == "" || b.parentId in done)
    ensures Listed(bs, out + [b], done + {b.id})
  {
    var out' := out + [b];
    assert forall k :: 0 <= k < |out| ==> out'[k] == out[k];
    assert out'[|out|] == b;
    OneMoreNamed(out, b);
    OneMoreAfterParent(out, b);
    hide Named, ParentsFirst;
  }

  lemma OneMoreNamed(out: seq<Branch>, b: Branch)
    ensures forall id :: Named(out + [b], id) <==> Named(out, id) || id == b.id
  {
    var out' := out + [b];
    assert out'[|out|].id == b.id;
    forall id ensures Named(out', id) <==> Named(out, id) || id == b.id {
      if Named(out, id) {
        var i :| 0 <= i < |out| && out[i].id == id;
        assert out'[i].id == id;
      }
    }
  }

  lemma OneMoreAfterParent(out: seq<Branch>, b: Branch)
    requires ParentsFirst(out) && (b.parentId == "" || Named(out, b.parentId))
    ensures ParentsFirst(out + [b])
  {
    var out' := out + [b];
    forall i | 0 <= i < |out'| && out'[i].parentId != "" ensures exists j :: 0 <= j < i && out'[j].id == out'[i].parentId {
      if i < |out| {
        var j :| 0 <= j < i && out[j].id == out[i].parentId;
        assert out'[j].id == out'[i].parentId;
      } else {
        var j :| 0 <= j < |out| && out[j].id == b.parentId;
        assert out'[j].id == out'[i].parentId;
      }
    }
  }


  lemma {:induction false} Climb(bs: seq<Branch>, stack: seq<string>, gray: set<string>, k: nat, n: nat)
    requires IsPath(bs, stack, gray) && k + n < |stack|
    ensures Ancestor(bs, stack[k], n) == stack[k + n]
    decreases n
  {
    if n > 0 {
      Climb(bs, stack, gray, k, n - 1);
      AncestorStep(bs, stack[k], n - 1);
      assert stack[k + n] == ParentOf(bs, stack[k + n - 1]);
    }
  }

  // ----- the order -----

  /** The walk in full: succeeds exactly on forests, and then lists every branch once with
      each parent before its children; otherwise the fault it reports is really there. */
  method OrderedBranches(bs: seq<Branch>) returns (fault: Option<ForestFault>, out: seq<Branch>)
    ensures fault.None? <==> IsForest(bs)
    ensures fault.None? ==> multiset(out) == multiset(bs) && ParentsFirst(out) && IdsUsable(out)
    ensures fault.None? ==> exists cause :: Caused(bs, out, cause)
    ensures fault.Some? ==> match fault.value
      case NoId => exists i :: 0 <= i < |bs| && bs[i].id == ""
      case DuplicateId(id) => exists i, j :: 0 <= i < j < |bs| && bs[i].id == bs[j].id == id
      case ParentCycle(_) => !Acyclic(bs)
      case UnknownParent(id) => !Named(bs, id) && NamedAsParent(bs, id)
  {
    var walk := new Walk(bs);
    fault := walk.Index();
    if fault.Some? { return fault, []; }
    fault := walk.VisitAll();
    if fault.Some? {
      NoForest(bs, fault.value);
      return fault, [];
    }
    assert Caused(bs, walk.out, walk.cause);
    hide Listed, Colored, Acyclic, IsPath, NamedAsParent, IsForest, Caused;
    out := walk.out;
    Complete(bs, out, walk.done);
    return None, out;
  }

  lemma NoForest(bs: seq<Branch>, fault: ForestFault)
    requires (fault.ParentCycle? && !Acyclic(bs)) || (fault.UnknownParent? && !Named(bs, fault.id) && NamedAsParent(bs, fault.id))
    ensures !IsForest(bs)
  {}

  lemma ListedParents(bs: seq<Branch>, out: seq<Branch>, done: set<string>)
    requires IdsUsable(bs) && Listed(bs, out, done) && forall k :: 0 <= k < |bs| ==> bs[k].id in done
    ensures ParentsNamed(bs)
  {
    forall i | 0 <= i < |bs| && bs[i].parentId != "" ensures Named(bs, bs[i].parentId) {
      var k :| 0 <= k < |out| && out[k].id == bs[i].id;
      SameById(bs, out[k], bs[i]);
      var j :| 0 <= j < k && out[j].id == out[k].parentId;
      var m :| 0 <= m < |bs| && bs[m] == out[j];
    }
  }

  lemma ListedAcyclic(bs: seq<Branch>, out: seq<Branch>, done: set<string>)
    requires IdsUsable(bs) && Listed(bs, out, done) && forall k :: 0 <= k < |bs| ==> bs[k].id in done
    ensures Acyclic(bs)
  {
    forall id, n: nat | Named(bs, id) && n > 0 ensures Ancestor(bs, id, n) != id {
      var m :| 0 <= m < |bs| && bs[m].id == id;
      var k :| 0 <= k < |out| && out[k].id == id;
      Descend(bs, out, k, n);
    }
  }

  lemma Complete(bs: seq<Branch>, out: seq<Branch>, done: set<string>)
    requires IdsUsable(bs) && Listed(bs, out, done) && forall k :: 0 <= k < |bs| ==> bs[k].id in done
    ensures IsForest(bs) && multiset(out) == multiset(bs) && ParentsFirst(out) && IdsUsable(out)
  {
    hide Acyclic, ParentsNamed, ParentsFirst;
    ListedParents(bs, out, done);
    ListedAcyclic(bs, out, done);
    forall b | b in bs ensures b in out {
      var k :| 0 <= k < |out| && out[k].id == b.id;
      SameById(bs, out[k], b);
    }
    SameMultiset(out, bs);
  }

  lemma SameById(bs: seq<Branch>, a: Branch, b: Branch)
    requires IdsUsable(bs) && a in bs && b in bs && a.id == b.id
    ensures a == b
  {}

  /** Every step towards the root moves strictly earlier in the order. */
  lemma {:induction false} Descend(bs: seq<Branch>, out: seq<Branch>, i: nat, n: nat)
    requires IdsUsable(bs) && ParentsFirst(out) && i < |out| && forall k :: 0 <= k < |out| ==> out[k] in bs
    requires forall j, k :: 0 <= j < k < |out| ==> out[j].id != out[k].id
    ensures Ancestor(bs, out[i].id, n) == "" || exists j :: 0 <= j <= i - n && out[j].id == Ancestor(bs, out[i].id, n)
    ensures n > 0 ==> Ancestor(bs, out[i].id, n) != out[i].id
    decreases n
  {
    if n == 0 {
      assert out[i].id == Ancestor(bs, out[i].id, 0);
    } else {
      Descend(bs, out, i, n - 1);
      AncestorStep(bs, out[i].id, n - 1);
      var below := Ancestor(bs, out[i].id, n - 1);
      if below == "" {
        ParentOfNobody(bs);
      } else {
        var j :| 0 <= j <= i - (n - 1) && out[j].id == below;
        var m :| 0 <= m < |bs| && bs[m] == out[j];
        ParentOfMember(bs, m);
      }
      assert out[i] in bs;
    }
  }

  lemma {:induction false} CountOnce(s: seq<Branch>, b: Branch)
    requires forall i, j :: 0 <= i < j < |s| ==> s[i] != s[j]
    ensures multiset(s)[b] == if b in s then 1 else 0
  {
    if s != [] {
      assert s == [s[0]] + s[1..];
      assert forall i :: 0 <= i < |s[1..]| ==> s[1..][i] == s[i + 1];
      CountOnce(s[1..], b);
    }
  }

  lemma SameMultiset(a: seq<Branch>, b: seq<Branch>)
    requires forall i, j :: 0 <= i < j < |a| ==> a[i].id != a[j].id
    requires forall i, j :: 0 <= i < j < |b| ==> b[i].id != b[j].id
    requires forall x :: x in a <==> x in b
    ensures multiset(a) == multiset(b)
  {
    forall x ensures multiset(a)[x] == multiset(b)[x] {
      CountOnce(a, x);
      CountOnce(b, x);
    }
  }

  // ----- the order is the only one of its kind -----

  lemma {:induction false} ChainUp(bs: seq<Branch>, out: seq<Branch>, cause: seq<nat>, p: nat, r: nat)
    requires IdsUsable(bs) && Caused(bs, out, cause) && (forall b :: b in out ==> b in bs)
    requires p <= r < |out| && cause[p] == cause[r]
    ensures Ancestor(bs, out[r].id, r - p) == out[p].id
    decreases r - p
  {
    hide DueBy;
    if p < r {
      assert cause[p] <= cause[r - 1] <= cause[r];
      ChainUp(bs, out, cause, p, r - 1);
      assert out[r] in bs;
      var i :| 0 <= i < |bs| && bs[i] == out[r];
      ParentOfMember(bs, i);
      assert out[r].parentId == out[r - 1].id;
    }
  }

  lemma {:induction false} CauseIs(bs: seq<Branch>, out: seq<Branch>, cause: seq<nat>, p: nat)
    requires Caused(bs, out, cause) && p < |out|
    ensures |cause| == |out| && DueBy(bs, out[p].id, cause[p])
  {
    hide DueBy;
  }

  lemma {:induction false} CauseIsFirst(bs: seq<Branch>, out: seq<Branch>, cause: seq<nat>, p: nat, m: nat)
    requires Caused(bs, out, cause) && p < |out| && DueBy(bs, out[p].id, m)
    ensures |cause| == |out| && cause[p] <= m
  {
    hide DueBy;
  }

  lemma {:induction false} SameCause(bs: seq<Branch>, a: seq<Branch>, ca: seq<nat>, b: seq<Branch>, cb: seq<nat>, p: nat, q: nat)
    requires Caused(bs, a, ca) && Caused(bs, b, cb) && p < |a| && q < |b| && a[p] == b[q]
    ensures |ca| == |a| && |cb| == |b| && ca[p] == cb[q]
  {
    hide *;
    CauseIs(bs, a, ca, p);
    CauseIs(bs, b, cb, q);
    CauseIsFirst(bs, a, ca, p, cb[q]);
    CauseIsFirst(bs, b, cb, q, ca[p]);
  }

  lemma {:induction false} Position(s: seq<Branch>, x: Branch) returns (p: nat)
    requires x in s
    ensures p < |s| && s[p] == x
  {
    p :| 0 <= p < |s| && s[p] == x;
  }

  lemma {:induction false} SameNext(bs: seq<Branch>, a: seq<Branch>, ca: seq<nat>, b: seq<Branch>, cb: seq<nat>, p: nat)
    requires IsForest(bs) && Caused(bs, a, ca) && Caused(bs, b, cb)
    requires (forall x :: x in a <==> x in bs) && (forall x :: x in b <==> x in bs) && IdsUsable(a) && IdsUsable(b)
    requires p < |a| && p < |b| && a[..p] == b[..p]
    ensures a[p] == b[p]
  {
    ForestIds(bs);
    var x, y := a[p], b[p];
    if x != y {
      assert x in bs && y in bs && y in a && x in b;
      var r := Position(a, y);
      var q := Position(b, x);
      hide *;
      LaterThan(a, b, p, q);
      LaterThan(b, a, p, r);
      SameCause(bs, a, ca, b, cb, p, q);
      SameCause(bs, a, ca, b, cb, r, p);
      CausesInOrder(bs, a, ca, p, r);
      CausesInOrder(bs, b, cb, p, q);
      ChainUp(bs, a, ca, p, r);
      ChainUp(bs, b, cb, p, q);
      NameOf(bs, y);
      NoCycle(bs, y.id, x.id, r - p, q - p);
    }
  }

  lemma {:induction false} NameOf(bs: seq<Branch>, b: Branch)
    requires b in bs
    ensures Named(bs, b.id)
  {
    var i := Position(bs, b);
  }

  lemma {:induction false} NoCycle(bs: seq<Branch>, id: string, above: string, n: nat, m: nat)
    requires IsForest(bs) && Named(bs, id) && n > 0 && Ancestor(bs, id, n) == above
    ensures Ancestor(bs, above, m) != id
  {
    AncestorsAdd(bs, id, n, m);
  }

  lemma {:induction false} CausesInOrder(bs: seq<Branch>, out: seq<Branch>, cause: seq<nat>, p: nat, r: nat)
    requires Caused(bs, out, cause) && p <= r < |out|
    ensures cause[p] <= cause[r]
  {
    hide DueBy;
  }

  lemma {:induction false} AncestorsAdd(bs: seq<Branch>, id: string, n: nat, m: nat)
    ensures Ancestor(bs, id, n + m) == Ancestor(bs, Ancestor(bs, id, n), m)
    decreases m
  {
    if m > 0 {
      AncestorsAdd(bs, id, n, m - 1);
      AncestorStep(bs, id, n + m - 1);
      AncestorStep(bs, Ancestor(bs, id, n), m - 1);
    }
  }

  lemma {:induction false} LaterThan(a: seq<Branch>, b: seq<Branch>, p: nat, q: nat)
    requires IdsUsable(a) && p < |a| && p < |b| && a[..p] == b[..p] && q < |b| && b[q] == a[p] && a[p] != b[p]
    ensures q > p
  {
    SameBefore(a, b, p, q);
  }

  lemma {:induction false} SameBefore(a: seq<Branch>, b: seq<Branch>, p: nat, q: nat)
    requires p <= |a| && p <= |b| && a[..p] == b[..p] && q < |b|
    ensures q < p ==> a[q] == b[q]
  {
    if q < p { assert a[..p][q] == b[..p][q]; }
  }

  lemma {:induction false} SameUpTo(bs: seq<Branch>, a: seq<Branch>, ca: seq<nat>, b: seq<Branch>, cb: seq<nat>, p: nat)
    requires IsForest(bs) && Caused(bs, a, ca) && Caused(bs, b, cb)
    requires (forall x :: x in a <==> x in bs) && (forall x :: x in b <==> x in bs) && IdsUsable(a) && IdsUsable(b)
    requires p <= |a| && p <= |b|
    ensures a[..p] == b[..p]
  {
    if p > 0 {
      SameUpTo(bs, a, ca, b, cb, p - 1);
      SameNext(bs, a, ca, b, cb, p - 1);
      hide *;
      assert a[..p] == a[..p - 1] + [a[p - 1]] && b[..p] == b[..p - 1] + [b[p - 1]];
    }
  }

  /** A forest can be put in this order in one way only. */
  lemma {:induction false} OrderIsUnique(bs: seq<Branch>, a: seq<Branch>, ca: seq<nat>, b: seq<Branch>, cb: seq<nat>)
    requires IsForest(bs) && Caused(bs, a, ca) && Caused(bs, b, cb) && multiset(a) == multiset(b) == multiset(bs)
    requires IdsUsable(a) && IdsUsable(b)
    ensures a == b
  {
    hide Caused, IsForest, IdsUsable;
    SameMembers(bs, a);
    SameMembers(bs, b);
    assert |multiset(a)| == |a| && |multiset(b)| == |b|;
    SameUpTo(bs, a, ca, b, cb, |a|);
    assert a[..|a|] == a && b[..|a|] == b;
  }

  lemma {:induction false} EarlierOnly(bs: seq<Branch>, i: nat, n: nat)
    requires IdsUsable(bs) && ParentsFirst(bs) && i < |bs|
    ensures Ancestor(bs, bs[i].id, n) == "" || exists j :: 0 <= j <= i && bs[j].id == Ancestor(bs, bs[i].id, n)
    decreases n
  {
    if n == 0 {
      assert bs[i].id == Ancestor(bs, bs[i].id, 0);
    } else {
      EarlierOnly(bs, i, n - 1);
      AncestorStep(bs, bs[i].id, n - 1);
      var below := Ancestor(bs, bs[i].id, n - 1);
      if below == "" {
        ParentOfNobody(bs);
      } else {
        var j :| 0 <= j <= i && bs[j].id == below;
        ParentOfMember(bs, j);
      }
    }
  }

  lemma {:induction false} DueLater(bs: seq<Branch>, p: nat, m: nat)
    requires IdsUsable(bs) && ParentsFirst(bs) && m < p < |bs|
    ensures !DueBy(bs, bs[p].id, m)
  {
    if DueBy(bs, bs[p].id, m) {
      var n: nat :| Ancestor(bs, bs[m].id, n) == bs[p].id;
      EarlierOnly(bs, m, n);
    }
  }

  /** Branches that are listed parents first already stay as they are. */
  lemma {:induction false} OrderStays(bs: seq<Branch>, out: seq<Branch>, cause: seq<nat>)
    requires IsForest(bs) && ParentsFirst(bs) && Caused(bs, out, cause) && multiset(out) == multiset(bs) && IdsUsable(out)
    ensures out == bs
  {
    var here := seq(|bs|, p requires 0 <= p < |bs| => p as nat);
    assert Caused(bs, bs, here) by {
      hide DueBy, IsForest, ParentsFirst, IdsUsable;
      assert IdsUsable(bs) by { ForestIds(bs); }
      forall p | 0 <= p < |bs| ensures DueBy(bs, bs[p].id, here[p]) { DueByItself(bs, p); }
      forall p, m | 0 <= p < |bs| && 0 <= m < here[p] ensures !DueBy(bs, bs[p].id, m) { DueLater(bs, p, m); }
    }
    hide *;
    ForestIds(bs);
    OrderIsUnique(bs, out, cause, bs, here);
  }

  // ----- depth -----

  /** `id` is `d` steps below the main thread, and no fewer. */
  ghost predicate AtDepth(bs: seq<Branch>, id: string, d: nat) {
    Ancestor(bs, id, d) == "" && forall m: nat :: m < d ==> Ancestor(bs, id, m) != ""
  }

  /** The table the tree writers fill in the order computed above holds true distances. */
  method DepthTable(ghost bs: seq<Branch>, out: seq<Branch>) returns (depth: map<string, nat>)
    requires IsForest(bs) && multiset(out) == multiset(bs) && ParentsFirst(out)
    ensures forall b :: b in bs ==> b.id in depth && AtDepth(bs, b.id, depth[b.id])
  {
    hide *;
    SameMembers(bs, out);
    ForestIds(bs);
    depth := map[];
    for i := 0 to |out|
      invariant forall k :: 0 <= k < i ==> out[k].id in depth
      invariant "" !in depth
      invariant forall id :: id in depth ==> AtDepth(bs, id, depth[id])
    {
      hide *;
      var b := out[i];
      var above := if b.parentId in depth then depth[b.parentId] else 0;
      ParentDeeper(bs, out, i, depth);
      OneDeeper(bs, b, above);
      depth := depth[b.id := above + 1];
    }
  }

  lemma ForestIds(bs: seq<Branch>)
    requires IsForest(bs)
    ensures IdsUsable(bs)
  {}

  lemma SameMembers(bs: seq<Branch>, out: seq<Branch>)
    requires multiset(out) == multiset(bs)
    ensures forall b :: b in out <==> b in bs
  {
    forall b ensures b in out <==> b in bs {
      assert b in out <==> b in multiset(out);
      assert b in bs <==> b in multiset(bs);
    }
  }

  /** By the time a branch is reached its parent has a depth. */
  lemma ParentDeeper(bs: seq<Branch>, out: seq<Branch>, i: nat, depth: map<string, nat>)
    requires IdsUsable(bs) && ParentsFirst(out) && i < |out| && out[i] in bs && "" !in depth
    requires forall k :: 0 <= k < i ==> out[k].id in depth
    ensures out[i].id != "" && (out[i].parentId in depth <==> out[i].parentId != "")
  {
    if out[i].parentId != "" {
      var j :| 0 <= j < i && out[j].id == out[i].parentId;
    }
  }

  lemma OneDeeper(bs: seq<Branch>, b: Branch, d: nat)
    requires IdsUsable(bs) && b in bs && (if b.parentId == "" then d == 0 else AtDepth(bs, b.parentId, d))
    ensures AtDepth(bs, b.id, d + 1)
  {
    var i :| 0 <= i < |bs| && bs[i] == b;
    ParentOfMember(bs, i);
    forall m: nat | m < d + 1 ensures Ancestor(bs, b.id, m) != "" {
      if m > 0 { assert Ancestor(bs, b.id, m) == Ancestor(bs, b.parentId, m - 1); }
    }
    assert Ancestor(bs, b.id, d + 1) == Ancestor(bs, b.parentId, d);
  }
}
