/** No caller of the token renewal waits for nobody: from every reachable state the caller itself,
    the one that leads its call and the holder of the store's lock can, in a bounded number of
    steps, see it served (internal/engine/refresh.go:36-93). */
module RefreshProgress {
  import opened Basics
  import opened Selection
  import opened Store
  import Locks = PoolLocks
  import opened Refresh
  import opened RefreshExact

  /** What whoever holds writeMu still has to do. */
  function HolderLeft(p: Locks.State): nat { if p.holder.Some? then Locks.StepsLeft(p.PhaseOf(p.holder.value)) else 0 }

  /** How far thread `t` is from the end of its store operation. */
  function StoreDistance(p: Locks.State, t: nat): nat {
    var phase := p.PhaseOf(t);
    if phase.Idle? then 0 else if phase.Asking? then 4 + HolderLeft(p) else Locks.StepsLeft(phase)
  }

  /** How far a caller that leads is from having published. */
  function LeaderDistance(s: State, q: nat): nat
    requires q in s.callers
  {
    match s.callers[q]
    case Leading(_, _) => 9 + HolderLeft(s.pool)
    case Spending(_, _, _) => 8 + HolderLeft(s.pool)
    case Renewed(_, _, _) => 7 + HolderLeft(s.pool)
    case Storing(_, _, _) => 2 + StoreDistance(s.pool, q)
    case Finished(_, _, _) => 1
    case _ => 0
  }

  ghost function LeaderOf(s: State): nat
    requires GroupInv(s) && s.inflight.Some?
    ensures LeaderOf(s) in s.callers && s.callers[LeaderOf(s)].Leads()
  {
    var q :| q in s.callers && s.callers[q].Leads(); q
  }

  /** How far caller `r` is from being served. */
  ghost function Distance(s: State, r: nat): nat
    requires GroupInv(s) && r in s.callers
  {
    match s.callers[r]
    case Calling(_) => if s.inflight.Some? then 2 + LeaderDistance(s, LeaderOf(s)) else 10 + HolderLeft(s.pool)
    case Joined(_, c) => if c in s.published then 1 else if s.inflight.Some? then 1 + LeaderDistance(s, LeaderOf(s)) else 0
    case Done(_, _) => 0
    case _ => LeaderDistance(s, r)
  }

  predicate Leader(s: State, q: nat) { q in s.callers && s.callers[q].Leads() }

  /** Whose thread takes the step. */
  function Actor(a: Action): nat { if a.Work? then a.t else a.r }

  /** The caller that `r` has to wait for: whoever leads its call, or itself. */
  ghost function AwaitedCaller(s: State, r: nat): nat
    requires GroupInv(s) && r in s.callers
  {
    var p := s.callers[r];
    if s.inflight.Some? && p.Joined? && p.call !in s.published then LeaderOf(s) else r
  }

  /** The caller has yet to get hold of writeMu. */
  predicate NeedsLock(s: State, q: nat) {
    && q in s.callers
    && var p := s.callers[q];
       p.Leading? || p.Spending? || p.Renewed? || (p.Storing? && s.pool.PhaseOf(q).Asking?)
  }

  /** `r` waits for thread `t`: itself, the caller that leads its call, or the holder of the lock that one needs. */
  ghost predicate Awaits(s: State, r: nat, t: nat)
    requires GroupInv(s) && r in s.callers
  {
    var q := AwaitedCaller(s, r);
    t == r || t == q || (NeedsLock(s, q) && s.pool.holder == Some(t))
  }

  lemma {:induction false} OnlyLeader(s: State, q: nat)
    requires GroupInv(s) && Leader(s, q)
    ensures s.inflight.Some? && LeaderOf(s) == q && s.inflight == Some(s.callers[q].call) && AwaitedCaller(s, q) == q
  {}

  /** The leader has come closer, and nobody else has moved. */
  ghost predicate LeaderMoved(s: State, s': State, q: nat)
    requires q in s.callers
  {
    && q in s'.callers && s'.callers.Keys == s.callers.Keys && (forall r :: r in s.callers && r != q ==> s'.callers[r] == s.callers[r])
    && (s'.callers[q].Leads() || s'.callers[q].Done?)
    && LeaderDistance(s', q) < LeaderDistance(s, q)
    && (if s'.callers[q].Done? then s.callers[q].Leads() && s'.inflight.None? && s'.published.Keys == s.published.Keys + {s.callers[q].call}
        else s'.inflight == s.inflight && s'.published == s.published)
  }

  // ----- every step of the one that leads -----

  lemma {:induction false} LeaderStepHelps(s: State, q: nat, a: Action)
    requires GroupInv(s) && WorkInv(s) && Leader(s, q) && Enabled(s, a) && Actor(a) == q
    ensures LeaderMoved(s, Next(s, a), q)
  {
    assert if a.Work? then a.t == q else a.r == q;
    hide *;
    if a.Work? {
      StoreStepHelps(s, q, a);
    } else if a.Record? {
      RecordHelps(s, q);
    } else {
      OwnStepHelps(s, q, a);
    }
  }

  lemma {:induction false} OwnStepHelps(s: State, q: nat, a: Action)
    requires Leader(s, q) && Enabled(s, a) && Actor(a) == q && !a.Work? && !a.Record?
    ensures LeaderMoved(s, Next(s, a), q)
  {
    hide Find, CanExchange, Granting, Locks.State.PhaseOf, Locks.StepsLeft;
  }

  lemma {:induction false} RecordHelps(s: State, q: nat)
    requires WorkInv(s) && Leader(s, q) && Enabled(s, Record(q))
    ensures LeaderMoved(s, Next(s, Record(q)), q)
  {
    hide Addressable, Find;
    assert s.pool.PhaseOf(q).Idle?;
    assert s.pool.holder != Some(q) by { assert Locks.Inv(s.pool, s.failed); }
    HolderElsewhere(s.pool, q, Locks.Asking(Locks.UpdateOp(s.id, Refresh.Renewal(s.callers[q].current))));
  }

  lemma {:induction false} HolderElsewhere(p: Locks.State, t: nat, phase: Locks.Phase)
    requires p.holder != Some(t)
    ensures HolderLeft(p.At(t, phase)) == HolderLeft(p) && p.At(t, phase).PhaseOf(t) == phase
  {}

  lemma {:induction false} StoreStepHelps(s: State, q: nat, a: Action)
    requires GroupInv(s) && WorkInv(s) && Leader(s, q) && Enabled(s, a) && a.Work? && a.t == q
    ensures LeaderMoved(s, Next(s, a), q)
  {
    assert Locks.Inv(s.pool, s.failed);
    PoolStepHelps(s.pool, s.failed, Locks.Event(q, a.step));
    hide Locks.Next, Locks.Enabled, Locks.Inv, StoreDistance, Find;
  }

  /** Every step of a thread inside a store operation brings it closer to its end. */
  lemma {:induction false} PoolStepHelps(p: Locks.State, failed: bool, e: Locks.Event)
    requires Locks.Inv(p, failed) && Locks.Enabled(p, e) && !e.action.Begin?
    ensures StoreDistance(Locks.Next(p, e), e.thread) < StoreDistance(p, e.thread)
  {
    hide Addressable, Locks.Admissible, Locks.Applied, Locks.Misses;
    if !e.action.Acquire? {
      assert Locks.Inside(p.PhaseOf(e.thread));
      Locks.HolderGetsOut(p, e, failed);
    }
  }

  // ----- every step of the holder of the lock -----

  lemma {:induction false} HolderStepHelps(p: Locks.State, failed: bool, e: Locks.Event, q: nat)
    requires Locks.Inv(p, failed) && Locks.Enabled(p, e) && p.holder == Some(e.thread) && e.thread != q
    ensures var p' := Locks.Next(p, e); HolderLeft(p') < HolderLeft(p) && p'.PhaseOf(q) == p.PhaseOf(q)
  {
    hide Addressable, Locks.Admissible, Locks.Applied, Locks.Misses;
    assert Locks.Inside(p.PhaseOf(e.thread));
    Locks.HolderGetsOut(p, e, failed);
  }

  /** A holder that is no caller's leader is an editor or a reload. */
  lemma {:induction false} HolderIsAtWork(s: State, a: Action)
    requires WorkInv(s) && Enabled(s, a) && s.pool.holder == Some(Actor(a)) && !Leader(s, Actor(a))
    ensures a.Work? && Actor(a) !in s.callers
  {
    hide Addressable, Find;
    assert Locks.Inside(s.pool.PhaseOf(Actor(a))) by { assert Locks.Inv(s.pool, s.failed); }
  }

  lemma {:induction false} HolderHelpsLeader(s: State, q: nat, a: Action)
    requires GroupInv(s) && WorkInv(s) && Leader(s, q) && NeedsLock(s, q) && Enabled(s, a) && s.pool.holder == Some(Actor(a)) && Actor(a) != q
    ensures a.Work? && LeaderMoved(s, Next(s, a), q)
  {
    if Leader(s, Actor(a)) { OnlyLeader(s, Actor(a)); OnlyLeader(s, q); }
    HolderIsAtWork(s, a);
    assert Locks.Inv(s.pool, s.failed);
    HolderStepHelps(s.pool, s.failed, Locks.Event(a.t, a.step), q);
    hide Locks.Next, Locks.Enabled, Locks.Inv, HolderLeft, Locks.State.PhaseOf, Locks.StepsLeft, Find;
  }

  // ----- every step that a caller waits for -----

  /** Whoever `r` waits for, every step it can take brings `r` closer to being served. */
  lemma {:induction false} EveryAwaitedStepHelps(s: State, r: nat, a: Action)
    requires GroupInv(s) && WorkInv(s) && r in s.callers && !s.callers[r].Done?
    requires Enabled(s, a) && Civil(s, a) && Awaits(s, r, Actor(a))
    ensures GroupInv(Next(s, a)) && WorkInv(Next(s, a)) && r in Next(s, a).callers
    ensures Distance(Next(s, a), r) < Distance(s, r)
  {
    GroupStep(s, a);
    WorkStep(s, a);
    AwaitedIs(s, r);
    if s.callers[r].Calling? && Actor(a) == r {
      Joins(s, r, a);
    } else if s.callers[r].Joined? && Actor(a) == r {
      Wakes(s, r, a);
    } else {
      var q := AwaitedCaller(s, r);
      hide *;
      AwaitedActs(s, r, a);
      if Actor(a) == q { LeaderStepHelps(s, q, a); } else { HolderHelpsLeader(s, q, a); }
      Follows(s, a, q, r);
    }
  }

  lemma {:induction false} AwaitedIs(s: State, r: nat)
    requires GroupInv(s) && r in s.callers && !s.callers[r].Done?
    ensures var q := AwaitedCaller(s, r);
      || Leader(s, q)
      || (q == r && s.callers[r].Calling?)
      || (q == r && s.callers[r].Joined? && s.callers[r].call in s.published)
  {}

  lemma {:induction false} AwaitedActs(s: State, r: nat, a: Action)
    requires GroupInv(s) && r in s.callers && !s.callers[r].Done? && Awaits(s, r, Actor(a))
    requires Actor(a) == r ==> !s.callers[r].Calling? && !s.callers[r].Joined?
    ensures var q := AwaitedCaller(s, r); Leader(s, q) && (Actor(a) == q || (NeedsLock(s, q) && s.pool.holder == Some(Actor(a))))
    ensures AwaitedCaller(s, r) == r || (s.callers[r].Joined? && s.callers[r].call !in s.published)
  {}

  lemma {:induction false} Joins(s: State, r: nat, a: Action)
    requires GroupInv(s) && WorkInv(s) && r in s.callers && s.callers[r].Calling? && Enabled(s, a) && Actor(a) == r && GroupInv(Next(s, a))
    ensures a == Join(r) && r in Next(s, a).callers && Distance(Next(s, a), r) < Distance(s, r)
  {
    hide Locks.Inv, Find, Locks.State.PhaseOf, Locks.StepsLeft;
    var s' := Next(s, a);
    if s.inflight.Some? {
      var q := LeaderOf(s);
      assert Leader(s', q);
      OnlyLeader(s', q);
    }
  }

  lemma {:induction false} Wakes(s: State, r: nat, a: Action)
    requires GroupInv(s) && r in s.callers && s.callers[r].Joined? && Enabled(s, a) && Actor(a) == r && GroupInv(Next(s, a))
    ensures a == Wake(r) && r in Next(s, a).callers && Distance(Next(s, a), r) < Distance(s, r)
  {
    hide GroupInv, LeaderDistance;
  }

  lemma {:induction false} Follows(s: State, a: Action, q: nat, r: nat)
    requires GroupInv(s) && Leader(s, q) && r in s.callers && q == AwaitedCaller(s, r) && Enabled(s, a) && GroupInv(Next(s, a))
    requires q == r || (s.callers[r].Joined? && s.callers[r].call !in s.published)
    requires LeaderMoved(s, Next(s, a), q)
    ensures r in Next(s, a).callers && Distance(Next(s, a), r) < Distance(s, r)
  {
    OnlyLeader(s, q);
    var s' := Next(s, a);
    if Leader(s', q) { OnlyLeader(s', q); }
    LeaderLast(s, q);
    hide Next, Enabled, LeaderDistance;
  }

  lemma {:induction false} LeaderLast(s: State, q: nat)
    requires Leader(s, q)
    ensures LeaderDistance(s, q) >= 1 && LeaderDistance(s, q) <= 12
  {
    hide Locks.State.PhaseOf, Locks.StepsLeft;
    StoreBound(s.pool, q);
  }

  // ----- somebody waited for can always take a step -----

  /** Whoever has not been served waits for somebody who can take a step, and that step brings it closer. */
  lemma {:induction false} CallerAdvances(s: State, r: nat) returns (a: Action)
    requires GroupInv(s) && WorkInv(s) && r in s.callers && !s.callers[r].Done?
    ensures Enabled(s, a) && Civil(s, a) && Awaits(s, r, Actor(a))
    ensures GroupInv(Next(s, a)) && WorkInv(Next(s, a)) && r in Next(s, a).callers
    ensures Distance(Next(s, a), r) < Distance(s, r)
  {
    AwaitedIs(s, r);
    var q := AwaitedCaller(s, r);
    if Leader(s, q) {
      a := LeaderCanStep(s, q);
    } else {
      a := if s.callers[r].Calling? then Join(r) else Wake(r);
      WaitsForItself(s, r, a);
    }
    assert Awaits(s, r, Actor(a));
    hide *;
    EveryAwaitedStepHelps(s, r, a);
  }

  lemma {:induction false} WaitsForItself(s: State, r: nat, a: Action)
    requires GroupInv(s) && r in s.callers && AwaitedCaller(s, r) == r && !Leader(s, r)
    requires a == (if s.callers[r].Calling? then Join(r) else Wake(r))
    requires !s.callers[r].Calling? ==> s.callers[r].Joined? && s.callers[r].call in s.published
    ensures Enabled(s, a) && Civil(s, a)
  {}

  /** A leader can take a step of its own, or the holder of the lock that it needs can. */
  lemma {:induction false} LeaderCanStep(s: State, q: nat) returns (a: Action)
    requires WorkInv(s) && Leader(s, q)
    ensures Enabled(s, a) && Civil(s, a)
    ensures Actor(a) == q || (NeedsLock(s, q) && s.pool.holder == Some(Actor(a)))
  {
    hide Find, Locks.Inv, Locks.Enabled;
    match s.callers[q]
    case Leading(_, _) => a := Read(q);
    case Spending(_, _, _) => a := Swap(q, Refused);
    case Renewed(_, _, _) => a := Record(q); RecordIsEnabled(s, q);
    case Finished(_, _, _) => a := Publish(q);
    case Storing(_, _, _) =>
      if s.pool.PhaseOf(q).Idle? {
        a := Recorded(q);
      } else {
        a := StoreCanStep(s, q);
      }
  }

  lemma {:induction false} RecordIsEnabled(s: State, q: nat)
    requires WorkInv(s) && Leader(s, q) && s.callers[q].Renewed?
    ensures Enabled(s, Record(q)) && Civil(s, Record(q))
  {
    hide Addressable, Find;
  }

  lemma {:induction false} StoreCanStep(s: State, q: nat) returns (a: Action)
    requires WorkInv(s) && Leader(s, q) && s.callers[q].Storing? && !s.pool.PhaseOf(q).Idle?
    ensures a.Work? && Enabled(s, a) && Civil(s, a) && (a.t == q || (s.pool.PhaseOf(q).Asking? && s.pool.holder == Some(a.t)))
  {
    var e := PoolCanStep(s.pool, s.failed, q);
    a := Work(e.thread, e.action);
    hide Locks.Next, Locks.Enabled, Locks.Inv, Find;
    if e.thread in s.callers && e.thread != q { HolderStores(s, e.thread); }
  }

  /** Any caller inside a store operation is recording. */
  lemma {:induction false} HolderStores(s: State, t: nat)
    requires WorkInv(s) && t in s.callers && !s.pool.PhaseOf(t).Idle?
    ensures s.callers[t].Storing?
  {
    hide Locks.Inv;
  }

  lemma {:induction false} PoolCanStep(p: Locks.State, failed: bool, q: nat) returns (e: Locks.Event)
    requires Locks.Inv(p, failed) && !p.PhaseOf(q).Idle?
    ensures Locks.Enabled(p, e) && !e.action.Begin? && !p.PhaseOf(e.thread).Idle?
    ensures e.thread == q || (p.PhaseOf(q).Asking? && p.holder == Some(e.thread))
  {
    hide Addressable, Locks.Admissible, Locks.Applied, Locks.Misses;
    if p.holder.None? {
      assert !Locks.Inside(p.PhaseOf(q));
      e := Locks.Event(q, Locks.Acquire);
    } else {
      var h := p.holder.value;
      assert Locks.Inside(p.PhaseOf(h));
      var step := if p.PhaseOf(h).Entered? then (if p.PhaseOf(h).op.ReloadOp? then Locks.ReadFile else Locks.Touch)
                  else if p.PhaseOf(h).Changed? then Locks.Save(true)
                  else if p.PhaseOf(h).HasRead? then Locks.Adopt else Locks.Release;
      e := Locks.Event(h, step);
      if q != h { assert p.PhaseOf(q).Asking? by { assert !Locks.Inside(p.PhaseOf(q)); } }
    }
  }

  // ----- runs of those that are waited for -----

  /** A run in which, until `r` is served, only those act that it waits for. */
  ghost predicate HelpingRun(s: State, actions: seq<Action>, r: nat)
    decreases |actions|
  {
    actions != [] ==>
      && GroupInv(s) && r in s.callers && !s.callers[r].Done?
      && Enabled(s, actions[0]) && Civil(s, actions[0]) && Awaits(s, r, Actor(actions[0])) && HelpingRun(Next(s, actions[0]), actions[1..], r)
  }

  ghost function AfterHelp(s: State, actions: seq<Action>, r: nat): State
    requires HelpingRun(s, actions, r)
    decreases |actions|
  {
    if actions == [] then s else AfterHelp(Next(s, actions[0]), actions[1..], r)
  }

  ghost predicate Served(s: State, r: nat) { r in s.callers && s.callers[r].Done? }

  /** Somebody that `r` waits for can take a step. */
  ghost predicate SomebodyCanHelp(s: State, r: nat) {
    GroupInv(s) && r in s.callers && exists a :: Enabled(s, a) && Civil(s, a) && Awaits(s, r, Actor(a))
  }

  /** However those that `r` waits for act, they run out of steps only once it is served. */
  lemma {:induction false} HelpRunsOut(s: State, actions: seq<Action>, r: nat)
    requires GroupInv(s) && WorkInv(s) && r in s.callers && HelpingRun(s, actions, r)
    ensures |actions| <= Distance(s, r)
    ensures Served(AfterHelp(s, actions, r), r) || SomebodyCanHelp(AfterHelp(s, actions, r), r)
    decreases |actions|
  {
    hide GroupInv, WorkInv, Next, Enabled, Civil, Awaits, Distance;
    if actions != [] {
      EveryAwaitedStepHelps(s, r, actions[0]);
      HelpRunsOut(Next(s, actions[0]), actions[1..], r);
    } else if !s.callers[r].Done? {
      var a := CallerAdvances(s, r);
    }
  }

  /** From every reachable state, a waiting caller can be served by so many steps of those it waits for. */
  lemma {:induction false} ServedWithin(s: State, r: nat) returns (actions: seq<Action>)
    requires GroupInv(s) && WorkInv(s) && r in s.callers
    ensures |actions| <= Distance(s, r) && HelpingRun(s, actions, r)
    ensures Served(AfterHelp(s, actions, r), r)
    decreases Distance(s, r)
  {
    hide GroupInv, WorkInv, Next, Enabled, Civil, Awaits, Distance;
    actions := [];
    if !s.callers[r].Done? {
      var a := CallerAdvances(s, r);
      var rest := ServedWithin(Next(s, a), r);
      actions := [a] + rest;
      assert actions[1..] == rest;
    }
  }

  lemma {:induction false} CivilKeeps(s: State, actions: seq<Action>)
    requires GroupInv(s) && WorkInv(s) && IsCivilRun(s, actions)
    ensures GroupInv(AfterCivil(s, actions)) && WorkInv(AfterCivil(s, actions))
    decreases |actions|
  {
    hide GroupInv, WorkInv, Next, Enabled, Civil;
    if actions != [] {
      GroupStep(s, actions[0]);
      WorkStep(s, actions[0]);
      CivilKeeps(Next(s, actions[0]), actions[1..]);
    }
  }

  /** Whatever callers, edits, failed writes and reloads came before, every caller can be served in at most sixteen steps
      of those it waits for. */
  lemma {:induction false} EveryCallerCanBeServed(s: State, before: seq<Action>, r: nat) returns (actions: seq<Action>)
    requires Start(s) && IsCivilRun(s, before) && r in AfterCivil(s, before).callers
    ensures var s' := AfterCivil(s, before); |actions| <= 16 && HelpingRun(s', actions, r) && Served(AfterHelp(s', actions, r), r)
  {
    var s' := Reached(s, before, r);
    hide *;
    DistanceBound(s', r);
    actions := ServedWithin(s', r);
  }

  /** And they cannot help acting so: in whatever order those it waits for take whatever steps they can, they take
      at most sixteen, and while the caller is not served one of them can take another. */
  lemma {:induction false} EveryCallerIsServed(s: State, before: seq<Action>, r: nat, actions: seq<Action>)
    requires Start(s) && IsCivilRun(s, before) && r in AfterCivil(s, before).callers
    requires HelpingRun(AfterCivil(s, before), actions, r)
    ensures |actions| <= 16
    ensures var end := AfterHelp(AfterCivil(s, before), actions, r); Served(end, r) || SomebodyCanHelp(end, r)
  {
    var s' := Reached(s, before, r);
    hide *;
    DistanceBound(s', r);
    HelpRunsOut(s', actions, r);
  }

  lemma {:induction false} Reached(s: State, before: seq<Action>, r: nat) returns (s': State)
    requires Start(s) && IsCivilRun(s, before) && r in AfterCivil(s, before).callers
    ensures s' == AfterCivil(s, before) && GroupInv(s') && WorkInv(s')
  {
    StartsWell(s);
    InvParts(s, First(s), s.live);
    hide *;
    CivilKeeps(s, before);
    s' := AfterCivil(s, before);
  }

  lemma {:induction false} StoreBound(p: Locks.State, t: nat)
    ensures HolderLeft(p) <= 3 && StoreDistance(p, t) <= 7
  {}

  lemma {:induction false} DistanceBound(s: State, r: nat)
    requires GroupInv(s) && r in s.callers
    ensures Distance(s, r) <= 16
  {
    StoreBound(s.pool, r);
    if s.inflight.Some? { StoreBound(s.pool, LeaderOf(s)); }
    hide GroupInv, HolderLeft, StoreDistance;
  }
}
