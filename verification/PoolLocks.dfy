/** The store's two locks (internal/store/store.go): `writeMu` is held from before an operation
    touches memory until the file agrees, `mu` only while memory changes.  Every interleaving
    of any number of operations is a sequence of the steps below; what happens under `mu` is
    one step. */
module PoolLocks {
  import opened Basics
  import opened Selection
  import opened Store

  datatype Op = UpsertOp(account: Account) | UpdateOp(id: string, change: Change) | RemoveOp(id: string) | ReloadOp

  /** Where a thread stands in its operation. */
  datatype Phase =
    | Idle
    | Asking(op: Op)                        // waiting for writeMu
    | Entered(op: Op)                       // holds writeMu
    | Changed(snapshot: seq<Account>)       // memory is changed, the file is not yet written
    | HasRead(found: seq<Account>)          // a reload has read the file
    | Leaving                               // about to release writeMu

  datatype State = State(memory: seq<Account>, file: seq<Account>, holder: Option<nat>, phases: map<nat, Phase>)
  {
    function PhaseOf(t: nat): Phase { if t in phases then phases[t] else Idle }

    function At(t: nat, p: Phase): State { this.(phases := phases[t := p]) }
  }

  datatype Action =
    | Begin(op: Op)
    | Acquire
    | Touch                                 // under mu: change memory and take the snapshot
    | Save(written: bool)                   // replace the file, or fail to
    | ReadFile
    | Adopt                                 // under mu: adopt what a reload has read
    | Release

  datatype Event = Event(thread: nat, action: Action)

  function Applied(memory: seq<Account>, op: Op): seq<Account> {
    match op
    case UpsertOp(a) => Upserted(memory, a)
    case UpdateOp(id, c) => Updated(memory, id, c)
    case RemoveOp(id) => Removed(memory, id)
    case ReloadOp => memory
  }

  /** The account an operation needs is missing. */
  predicate Misses(memory: seq<Account>, op: Op) {
    match op
    case UpdateOp(id, _) => Find(memory, id).None?
    case RemoveOp(id) => Find(memory, id).None?
    case _ => false
  }

  /** An operation the store does not refuse outright. */
  predicate Admissible(op: Op) { op.UpsertOp? ==> op.account.id != "" && ValidLane(op.account.lane) }

  predicate Enabled(s: State, e: Event) {
    var p := s.PhaseOf(e.thread);
    match e.action
    case Begin(op) => p.Idle? && Admissible(op)
    case Acquire => p.Asking? && s.holder.None?
    case Touch => p.Entered? && !p.op.ReloadOp?
    case Save(_) => p.Changed?
    case ReadFile => p.Entered? && p.op.ReloadOp?
    case Adopt => p.HasRead?
    case Release => p.Leaving?
  }

  ghost function Next(s: State, e: Event): State
    requires Enabled(s, e)
  {
    var t, p := e.thread, s.PhaseOf(e.thread);
    match e.action
    case Begin(op) => s.At(t, Asking(op))
    case Acquire => s.(holder := Some(t)).At(t, Entered(p.op))
    case Touch =>
      if Misses(s.memory, p.op) then s.At(t, Leaving)
      else
        var memory := Applied(s.memory, p.op);
        s.(memory := memory).At(t, Changed(memory))
    case Save(written) => s.(file := if written then p.snapshot else s.file).At(t, Leaving)
    case ReadFile => s.At(t, HasRead(s.file))
    case Adopt => (if Addressable(p.found) then s.(memory := p.found) else s).At(t, Leaving)
    case Release => s.(holder := None).At(t, Idle)
  }

  ghost predicate IsRun(s: State, events: seq<Event>)
    decreases |events|
  {
    events != [] ==> Enabled(s, events[0]) && IsRun(Next(s, events[0]), events[1..])
  }

  ghost function After(s: State, events: seq<Event>): State
    requires IsRun(s, events)
    decreases |events|
  {
    if events == [] then s else After(Next(s, events[0]), events[1..])
  }

  ghost predicate Start(s: State) {
    s.holder.None? && Addressable(s.memory) && s.file == s.memory && forall t :: t in s.phases ==> s.phases[t].Idle?
  }

  // ----- what every interleaving keeps -----

  predicate Inside(p: Phase) { !p.Idle? && !p.Asking? }

  /** Whether a failed write is outstanding after a step: only a later write or an adopted file
      makes up for it. */
  function Outstanding(failed: bool, e: Event): bool {
    match e.action
    case Save(written) => !written
    case Adopt => false
    case _ => failed
  }

  function OutstandingAfter(failed: bool, events: seq<Event>): bool
    decreases |events|
  {
    if events == [] then failed else OutstandingAfter(Outstanding(failed, events[0]), events[1..])
  }

  /** Only the holder of writeMu is inside; a reload has read the file; and, unless a failed
      write is outstanding, the file agrees with memory except between a change and its write. */
  ghost predicate Inv(s: State, failed: bool) {
    && Addressable(s.memory) && Addressable(s.file)
    && (forall t: nat :: Inside(s.PhaseOf(t)) <==> s.holder == Some(t))
    && (forall t: nat :: s.PhaseOf(t).Changed? ==> s.PhaseOf(t).snapshot == s.memory)
    && (forall t: nat :: s.PhaseOf(t).HasRead? ==> s.PhaseOf(t).found == s.file)
    && (forall t: nat :: (s.PhaseOf(t).Asking? || s.PhaseOf(t).Entered?) ==> Admissible(s.PhaseOf(t).op))
    && (!failed ==> s.file == s.memory || exists t: nat :: s.PhaseOf(t).Changed?)
  }

  lemma AppliedKeeps(memory: seq<Account>, op: Op)
    requires Addressable(memory) && Admissible(op)
    ensures Addressable(Applied(memory, op))
  {
    match op
    case UpsertOp(a) => UpsertKeeps(memory, a);
    case UpdateOp(id, c) => UpdateKeeps(memory, id, c);
    case RemoveOp(id) => RemoveKeeps(memory, id);
    case ReloadOp =>
  }

  lemma StepKeeps(s: State, e: Event, failed: bool)
    requires Inv(s, failed) && Enabled(s, e)
    ensures Inv(Next(s, e), Outstanding(failed, e))
  {
    hide Addressable, Applied, Misses, Admissible;
    var s', t := Next(s, e), e.thread;
    assert forall u: nat :: u != t ==> s'.PhaseOf(u) == s.PhaseOf(u);
    assert s'.PhaseOf(t) == s'.phases[t];
    assert !s.PhaseOf(t).Changed? && s.file != s.memory && !failed ==>
      exists u: nat :: s'.PhaseOf(u).Changed? by {
      if !s.PhaseOf(t).Changed? && s.file != s.memory && !failed {
        var u: nat :| s.PhaseOf(u).Changed?;
        assert s'.PhaseOf(u).Changed?;
      }
    }
    match e.action
    case Begin(_) => BegunAdmissible(s, e);
    case Touch =>
      AppliedKeeps(s.memory, s.PhaseOf(t).op);
      assert Misses(s.memory, s.PhaseOf(t).op) || s'.PhaseOf(t).Changed?;
    case _ =>
  }

  lemma BegunAdmissible(s: State, e: Event)
    requires Enabled(s, e) && e.action.Begin?
    ensures Admissible(e.action.op)
  {}

  lemma {:induction false} RunKeeps(s: State, events: seq<Event>, failed: bool)
    requires Inv(s, failed) && IsRun(s, events)
    ensures Inv(After(s, events), OutstandingAfter(failed, events))
    decreases |events|
  {
    hide Inv, Enabled, Next;
    if events != [] {
      StepKeeps(s, events[0], failed);
      RunKeeps(Next(s, events[0]), events[1..], Outstanding(failed, events[0]));
    }
  }

  lemma StartsWell(s: State)
    requires Start(s)
    ensures Inv(s, false)
  {}

  /** In every interleaving, whenever writeMu is free and no failed write is outstanding, the
      file is memory; and the pool is always one whose accounts can be addressed. */
  lemma {:induction false} FileAgreesWhenFree(s: State, events: seq<Event>)
    requires Start(s) && IsRun(s, events)
    ensures var s' := After(s, events);
      && Addressable(s'.memory) && Addressable(s'.file)
      && (s'.holder.None? && !OutstandingAfter(false, events) ==> s'.file == s'.memory)
  {
    StartsWell(s);
    RunKeeps(s, events, false);
  }

  // ----- operations take effect one at a time, and a reload takes none back -----

  /** The changes a run makes, in the order they reach memory. */
  ghost function Committed(s: State, events: seq<Event>): seq<Op>
    requires IsRun(s, events)
    decreases |events|
  {
    if events == [] then []
    else
      var p := s.PhaseOf(events[0].thread);
      (if events[0].action.Touch? && !Misses(s.memory, p.op) then [p.op] else []) + Committed(Next(s, events[0]), events[1..])
  }

  function AllApplied(memory: seq<Account>, ops: seq<Op>): seq<Account>
    decreases |ops|
  {
    if ops == [] then memory else AllApplied(Applied(memory, ops[0]), ops[1..])
  }

  /** No file is adopted while a failed write is outstanding. */
  predicate CleanReloads(failed: bool, events: seq<Event>)
    decreases |events|
  {
    events != [] ==> !(events[0].action.Adopt? && failed) && CleanReloads(Outstanding(failed, events[0]), events[1..])
  }

  lemma AdoptChangesNothing(s: State, e: Event)
    requires Inv(s, false) && Enabled(s, e) && e.action.Adopt?
    ensures Next(s, e).memory == s.memory
  {
    assert Inside(s.PhaseOf(e.thread));
    forall t: nat ensures !s.PhaseOf(t).Changed? {
      assert Inside(s.PhaseOf(t)) <==> t == e.thread;
    }
  }

  /** With a failed write outstanding, a reload brings back what was last written. */
  lemma AdoptedIsTheFile(s: State, e: Event, failed: bool)
    requires Inv(s, failed) && Enabled(s, e) && e.action.Adopt?
    ensures Next(s, e).memory == s.file && Next(s, e).file == s.file
  {}

  // ----- failed writes, and exactly what a reload then takes back -----

  /** The changes that stand: those up to the last write that succeeded, and those since. */
  datatype Ledger = Ledger(kept: seq<Op>, since: seq<Op>)

  ghost function Posted(l: Ledger, s: State, e: Event): Ledger {
    var p := s.PhaseOf(e.thread);
    match e.action
    case Touch => if p.Entered? && !Misses(s.memory, p.op) then l.(since := l.since + [p.op]) else l
    case Save(written) => if written then Ledger(l.kept + l.since, []) else l
    case Adopt => l.(since := [])
    case _ => l
  }

  ghost function LedgerAfter(l: Ledger, s: State, events: seq<Event>): Ledger
    requires IsRun(s, events)
    decreases |events|
  {
    if events == [] then l else LedgerAfter(Posted(l, s, events[0]), Next(s, events[0]), events[1..])
  }

  /** The file is what the kept changes leave, and memory what all that stand leave. */
  ghost predicate Balanced(initial: seq<Account>, l: Ledger, s: State) {
    && s.file == AllApplied(initial, l.kept) && s.memory == AllApplied(initial, l.kept + l.since)
  }

  lemma {:induction false} AllAppliedAppend(memory: seq<Account>, a: seq<Op>, b: seq<Op>)
    ensures AllApplied(memory, a + b) == AllApplied(AllApplied(memory, a), b)
    decreases |a|
  {
    hide Applied;
    if a == [] {
      assert a + b == b;
    } else {
      assert (a + b)[0] == a[0] && (a + b)[1..] == a[1..] + b;
      AllAppliedAppend(Applied(memory, a[0]), a[1..], b);
    }
  }

  lemma {:induction false} AppliedLast(memory: seq<Account>, a: seq<Op>, op: Op)
    ensures AllApplied(memory, a + [op]) == Applied(AllApplied(memory, a), op)
  {
    hide Applied;
    AllAppliedAppend(memory, a, [op]);
    assert [op][1..] == [];
  }

  lemma {:induction false} StaysBalanced(initial: seq<Account>, l: Ledger, s: State, e: Event, failed: bool)
    requires Inv(s, failed) && Enabled(s, e) && Balanced(initial, l, s)
    ensures Balanced(initial, Posted(l, s, e), Next(s, e))
  {
    hide Applied, Misses, Admissible, Addressable, AllApplied;
    var p := s.PhaseOf(e.thread);
    assert l.kept + [] == l.kept && (l.kept + l.since) + [] == l.kept + l.since;
    if e.action.Touch? && !Misses(s.memory, p.op) {
      AppliedLast(initial, l.kept + l.since, p.op);
      assert l.kept + (l.since + [p.op]) == (l.kept + l.since) + [p.op];
    }
  }

  lemma {:induction false} RunStaysBalanced(initial: seq<Account>, l: Ledger, s: State, events: seq<Event>, failed: bool)
    requires Inv(s, failed) && IsRun(s, events) && Balanced(initial, l, s)
    ensures Balanced(initial, LedgerAfter(l, s, events), After(s, events))
    decreases |events|
  {
    hide Inv, Enabled, Next, Balanced, Posted;
    if events != [] {
      StepKeeps(s, events[0], failed);
      StaysBalanced(initial, l, s, events[0], failed);
      RunStaysBalanced(initial, Posted(l, s, events[0]), Next(s, events[0]), events[1..], Outstanding(failed, events[0]));
    }
  }

  const NO_CHANGES := Ledger([], [])

  /** In every interleaving, failed writes included, the file is what the changes up to the last successful write leave,
      and memory what those and the ones since leave. */
  lemma {:induction false} PoolIsItsLedger(s: State, events: seq<Event>)
    requires Start(s) && IsRun(s, events)
    ensures Balanced(s.memory, LedgerAfter(NO_CHANGES, s, events), After(s, events))
  {
    hide IsRun, After, LedgerAfter;
    StartsWell(s);
    assert NO_CHANGES.kept + NO_CHANGES.since == [] && AllApplied(s.memory, []) == s.memory;
    RunStaysBalanced(s.memory, NO_CHANGES, s, events, false);
  }

  /** A reload takes back exactly the changes made since the last successful write: it changes nothing if and only if
      those leave the pool as that write had it. */
  lemma {:induction false} ReloadTakesBackExactly(s: State, events: seq<Event>, e: Event)
    requires Start(s) && IsRun(s, events) && Enabled(After(s, events), e) && e.action.Adopt?
    ensures var l, before, after := LedgerAfter(NO_CHANGES, s, events), After(s, events).memory, Next(After(s, events), e).memory;
      var written := AllApplied(s.memory, l.kept);
      && after == written && before == AllApplied(written, l.since)
      && (after == before <==> AllApplied(written, l.since) == written)
  {
    hide IsRun, After, LedgerAfter, Enabled, AllApplied;
    PoolIsItsLedger(s, events);
    StartsWell(s);
    RunKeeps(s, events, false);
    AdoptedIsTheFile(After(s, events), e, OutstandingAfter(false, events));
    var l := LedgerAfter(NO_CHANGES, s, events);
    AllAppliedAppend(s.memory, l.kept, l.since);
  }

  /** Changes that no write has made up for stand only while a failed write is outstanding. */
  ghost predicate Accounted(l: Ledger, s: State, failed: bool) {
    !failed ==> l.since == [] || exists t: nat :: s.PhaseOf(t).Changed?
  }

  lemma {:induction false} StaysAccounted(l: Ledger, s: State, e: Event, failed: bool)
    requires Inv(s, failed) && Enabled(s, e) && Accounted(l, s, failed)
    ensures Accounted(Posted(l, s, e), Next(s, e), Outstanding(failed, e))
    ensures e.action.Adopt? && !failed ==> l.since == []
  {
    hide Addressable, Applied, Misses, Admissible;
    var s', t := Next(s, e), e.thread;
    assert forall u: nat :: u != t ==> s'.PhaseOf(u) == s.PhaseOf(u);
    assert s'.PhaseOf(t) == s'.phases[t];
    assert Inside(s.PhaseOf(t)) || e.action.Begin? || e.action.Acquire?;
    if !failed && l.since != [] {
      var u: nat :| s.PhaseOf(u).Changed?;
      assert Inside(s.PhaseOf(u));
      if u != t { assert s'.PhaseOf(u).Changed?; }
    }
    if e.action.Touch? && !Misses(s.memory, s.PhaseOf(t).op) { assert s'.PhaseOf(t).Changed?; }
  }

  /** As long as no reload finds a failed write outstanding, every change made stands. */
  lemma {:induction false} EveryChangeStands(l: Ledger, s: State, events: seq<Event>, failed: bool)
    requires Inv(s, failed) && IsRun(s, events) && Accounted(l, s, failed) && CleanReloads(failed, events)
    ensures var l' := LedgerAfter(l, s, events); l'.kept + l'.since == (l.kept + l.since) + Committed(s, events)
    decreases |events|
  {
    if events == [] {
      assert (l.kept + l.since) + [] == l.kept + l.since;
    } else {
      var e, s', rest := events[0], Next(s, events[0]), events[1..];
      FirstEvent(l, s, events, failed);
      hide *;
      StepKeeps(s, e, failed);
      StaysAccounted(l, s, e, failed);
      PostedIsCommitted(l, s, e);
      EveryChangeStands(Posted(l, s, e), s', rest, Outstanding(failed, e));
      assert ((l.kept + l.since) + CommittedBy(s, e)) + Committed(s', rest) == (l.kept + l.since) + (CommittedBy(s, e) + Committed(s', rest));
    }
  }

  /** The change an event makes to memory. */
  ghost function CommittedBy(s: State, e: Event): seq<Op>
    requires Enabled(s, e)
  {
    if e.action.Touch? && !Misses(s.memory, s.PhaseOf(e.thread).op) then [s.PhaseOf(e.thread).op] else []
  }

  lemma {:induction false} FirstEvent(l: Ledger, s: State, events: seq<Event>, failed: bool)
    requires events != [] && IsRun(s, events) && CleanReloads(failed, events)
    ensures var e, s' := events[0], Next(s, events[0]);
      && IsRun(s', events[1..]) && CleanReloads(Outstanding(failed, e), events[1..]) && !(e.action.Adopt? && failed)
      && Committed(s, events) == CommittedBy(s, e) + Committed(s', events[1..])
      && LedgerAfter(l, s, events) == LedgerAfter(Posted(l, s, e), s', events[1..])
  {
    hide Misses, Posted, Outstanding;
  }

  lemma {:induction false} PostedIsCommitted(l: Ledger, s: State, e: Event)
    requires Enabled(s, e) && (e.action.Adopt? ==> l.since == [])
    ensures Posted(l, s, e).kept + Posted(l, s, e).since == (l.kept + l.since) + CommittedBy(s, e)
  {
    hide Misses;
    assert (l.kept + l.since) + [] == l.kept + l.since;
  }

  const RELOADING := [Event(1, Begin(ReloadOp)), Event(1, Acquire), Event(1, ReadFile), Event(1, Adopt)]

  function FailedUpdate(id: string, c: Change): seq<Event> {
    [Event(0, Begin(UpdateOp(id, c))), Event(0, Acquire), Event(0, Touch), Event(0, Save(false)), Event(0, Release)]
  }

  /** An update whose write fails, then a reload: memory is back to what it was, whatever the
      update had put there. */
  lemma {:induction false} FailedWriteIsTakenBack(s: State, id: string, c: Change)
    requires Start(s) && Find(s.memory, id).Some?
    ensures var events := FailedUpdate(id, c) + RELOADING;
      IsRun(s, events) && Committed(s, events) == [UpdateOp(id, c)] && After(s, events).memory == s.memory
    ensures IsRun(s, FailedUpdate(id, c)) && After(s, FailedUpdate(id, c)).memory == Updated(s.memory, id, c)
    ensures c.On(Find(s.memory, id).value) != Find(s.memory, id).value ==> Updated(s.memory, id, c) != s.memory
  {
    hide Addressable, Find, Updated, IsRun, After, Committed;
    var e0, e1, e2, e3, e4 := Event(0, Begin(UpdateOp(id, c))), Event(0, Acquire), Event(0, Touch), Event(0, Save(false)), Event(0, Release);
    var s1 := Next(s, e0);
    var s2 := Next(s1, e1);
    var s3 := Next(s2, e2);
    var s4 := Next(s3, e3);
    var s5 := Next(s4, e4);
    assert s5.PhaseOf(1).Idle? && s5.holder.None? && s5.file == s.memory;
    AReload(s5);
    Then(s4, e4, RELOADING);
    Then(s3, e3, [e4] + RELOADING);
    Then(s2, e2, [e3] + ([e4] + RELOADING));
    Then(s1, e1, [e2] + ([e3] + ([e4] + RELOADING)));
    Then(s, e0, [e1] + ([e2] + ([e3] + ([e4] + RELOADING))));
    assert [e0] + ([e1] + ([e2] + ([e3] + ([e4] + RELOADING)))) == FailedUpdate(id, c) + RELOADING;
    NoEvents(s5);
    Then(s4, e4, []);
    Then(s3, e3, [e4] + []);
    Then(s2, e2, [e3] + ([e4] + []));
    Then(s1, e1, [e2] + ([e3] + ([e4] + [])));
    Then(s, e0, [e1] + ([e2] + ([e3] + ([e4] + []))));
    assert [e0] + ([e1] + ([e2] + ([e3] + ([e4] + [])))) == FailedUpdate(id, c);
    FindAfter(s.memory, UpdateOp(id, c), id);
    assert Applied(s.memory, UpdateOp(id, c)) == Updated(s.memory, id, c);
  }

  lemma {:induction false} AReload(s: State)
    requires s.PhaseOf(1).Idle? && s.holder.None? && Addressable(s.file)
    ensures IsRun(s, RELOADING) && Committed(s, RELOADING) == [] && After(s, RELOADING).memory == s.file
  {
    hide Addressable, IsRun, After, Committed;
    var s1 := Next(s, RELOADING[0]);
    var s2 := Next(s1, RELOADING[1]);
    var s3 := Next(s2, RELOADING[2]);
    NoEvents(Next(s3, RELOADING[3]));
    Then(s3, RELOADING[3], []);
    Then(s2, RELOADING[2], [RELOADING[3]] + []);
    Then(s1, RELOADING[1], [RELOADING[2]] + ([RELOADING[3]] + []));
    Then(s, RELOADING[0], [RELOADING[1]] + ([RELOADING[2]] + ([RELOADING[3]] + [])));
    assert [RELOADING[0]] + ([RELOADING[1]] + ([RELOADING[2]] + ([RELOADING[3]] + []))) == RELOADING;
  }

  lemma {:induction false} NoEvents(s: State)
    ensures IsRun(s, []) && After(s, []) == s && Committed(s, []) == []
  {}

  lemma {:induction false} Then(s: State, e: Event, rest: seq<Event>)
    requires Enabled(s, e) && IsRun(Next(s, e), rest)
    ensures IsRun(s, [e] + rest) && After(s, [e] + rest) == After(Next(s, e), rest)
    ensures Committed(s, [e] + rest)
      == (if e.action.Touch? && !Misses(s.memory, s.PhaseOf(e.thread).op) then [s.PhaseOf(e.thread).op] else [])
         + Committed(Next(s, e), rest)
  {
    assert ([e] + rest)[0] == e && ([e] + rest)[1..] == rest;
  }

  /** What a change does to the account that `id` addresses. */
  lemma {:induction false} FindAfter(memory: seq<Account>, op: Op, id: string)
    requires Addressable(memory)
    ensures var was := Find(memory, id);
      Find(Applied(memory, op), id) ==
        match op
        case UpsertOp(a) => if a.id == id then Some(a) else was
        case UpdateOp(other, c) => if other == id && was.Some? then Some(c.On(was.value)) else was
        case RemoveOp(other) => if other == id then None else was
        case ReloadOp => was
  {
    hide UniqueIds, AsMap, Change.On;
    var m := AsMap(memory);
    UniqueMapsExactly(memory);
    FindIsLookup(memory, m, id);
    match op
    case UpsertOp(a) =>
      UpsertIsMapUpdate(memory, m, a);
      FindIsLookup(Upserted(memory, a), m[a.id := a], id);
    case UpdateOp(other, c) =>
      UpdateMaps(memory, m, other, c);
      FindIsLookup(Updated(memory, other, c), MapUpdated(m, other, c), id);
    case RemoveOp(other) =>
      RemoveIsMapRemoval(memory, m, other);
      FindIsLookup(Removed(memory, other), m - {other}, id);
    case ReloadOp =>
  }

  // ----- somebody can always go on -----

  lemma NobodyIsStuck(s: State, failed: bool, t: nat)
    requires Inv(s, failed) && !s.PhaseOf(t).Idle?
    ensures exists e :: Enabled(s, e) && !e.action.Begin? && (s.holder.None? || s.holder == Some(e.thread))
  {
    hide Addressable, Admissible;
    if s.holder.None? {
      assert Enabled(s, Event(t, Acquire));
    } else {
      var h := s.holder.value;
      assert Inside(s.PhaseOf(h));
      match s.PhaseOf(h)
      case Entered(op) =>
        if op.ReloadOp? { assert Enabled(s, Event(h, ReadFile)); } else { assert Enabled(s, Event(h, Touch)); }
      case Changed(_) => assert Enabled(s, Event(h, Save(true)));
      case HasRead(_) => assert Enabled(s, Event(h, Adopt));
      case Leaving => assert Enabled(s, Event(h, Release));
    }
  }

  /** The steps a thread inside still has to take before it lets go of writeMu. */
  function StepsLeft(p: Phase): nat {
    match p
    case Entered(_) => 3
    case Changed(_) => 2
    case HasRead(_) => 2
    case Leaving => 1
    case _ => 0
  }

  lemma HolderGetsOut(s: State, e: Event, failed: bool)
    requires Inv(s, failed) && Enabled(s, e) && s.holder == Some(e.thread)
    ensures StepsLeft(Next(s, e).PhaseOf(e.thread)) < StepsLeft(s.PhaseOf(e.thread))
    ensures Next(s, e).holder.None? <==> StepsLeft(Next(s, e).PhaseOf(e.thread)) == 0
  {
    hide Addressable, Admissible, Applied, Misses;
    assert Inside(s.PhaseOf(e.thread));
  }
}
