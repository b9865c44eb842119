/** Two promises of the token renewal that fail, each with exactly what it takes to keep it
    (internal/engine/refresh.go, internal/store/store.go). */
module RefreshExact {
  import opened Basics
  import opened Selection
  import opened Store
  import Locks = PoolLocks
  import opened Refresh

  // ----- exactly when a retired token can come back -----

  /** A run in which the rest of the world keeps to its part, whatever is reloaded when. */
  ghost predicate IsCivilRun(s: State, actions: seq<Action>)
    decreases |actions|
  {
    actions != [] ==> Enabled(s, actions[0]) && Civil(s, actions[0]) && IsCivilRun(Next(s, actions[0]), actions[1..])
  }

  ghost function AfterCivil(s: State, actions: seq<Action>): State
    requires IsCivilRun(s, actions)
    decreases |actions|
  {
    if actions == [] then s else AfterCivil(Next(s, actions[0]), actions[1..])
  }

  /** Some reload of the run adopts a file that lacks changes. */
  ghost predicate RevertsIn(s: State, actions: seq<Action>)
    requires IsCivilRun(s, actions)
    decreases |actions|
  {
    actions != [] && (Reverts(s, actions[0]) || RevertsIn(Next(s, actions[0]), actions[1..]))
  }

  /** An exchange presents a refresh token that an earlier one retired. */
  predicate SpendsRetired(log: seq<Exchange>) {
    exists i, j :: 0 <= i < j < |log| && log[i].left != log[i].spent && log[j].spent == log[i].spent
  }

  lemma {:induction false} CivilIsOrderly(s: State, actions: seq<Action>)
    requires IsCivilRun(s, actions) && !RevertsIn(s, actions)
    ensures IsRun(s, actions) && After(s, actions) == AfterCivil(s, actions)
    decreases |actions|
  {
    hide Enabled, Civil, Reverts, Next;
    if actions != [] { CivilIsOrderly(Next(s, actions[0]), actions[1..]); }
  }

  /** A retired refresh token is presented again only in a run that reloads a file lacking changes; and from every start
      with a renewable account there is a run that does both. */
  lemma {:induction false} RetiredTokenReturnsExactly(s: State)
    requires Start(s)
    ensures forall actions :: IsCivilRun(s, actions) && !RevertsIn(s, actions) ==> !SpendsRetired(AfterCivil(s, actions).log)
    ensures CanExchange(Find(s.pool.memory, s.id).value) ==>
      exists actions :: IsCivilRun(s, actions) && SpendsRetired(AfterCivil(s, actions).log)
  {
    hide IsCivilRun, AfterCivil, RevertsIn, SpendsRetired, CanExchange, Find;
    forall actions | IsCivilRun(s, actions) && !RevertsIn(s, actions) ensures !SpendsRetired(AfterCivil(s, actions).log) {
      CivilIsOrderly(s, actions);
      NeverSpendsTwice(s, actions);
      NoneIsRetired(After(s, actions).log);
    }
    if CanExchange(Find(s.pool.memory, s.id).value) { var actions := RevivesRetired(s); }
  }

  lemma {:induction false} NoneIsRetired(log: seq<Exchange>)
    requires forall i, j :: 0 <= i < j < |log| && log[i].left != log[i].spent ==> log[j].spent != log[i].spent
    ensures !SpendsRetired(log)
  {}

  /** Tokens nobody has seen: longer than the two that are known. */
  function NewToken(s: State, first: string, suffix: string): string { first + s.live + suffix }

  function Renewing(s: State, first: string): seq<Action> {
    [Call(1, first), Join(1), Read(1), Swap(1, Granted(NewToken(s, first, "a"), NewToken(s, first, "rr"), None)), Record(1)]
  }

  const LOSING := [Work(1, Locks.Acquire), Work(1, Locks.Touch), Work(1, Locks.Save(false)), Work(1, Locks.Release), Recorded(1), Publish(1)]

  const RELOADING := [Work(9, Locks.Begin(Locks.ReloadOp)), Work(9, Locks.Acquire), Work(9, Locks.ReadFile), Work(9, Locks.Adopt)]

  function Respending(first: string, access: string): seq<Action> {
    [Call(2, first), Join(2), Read(2), Swap(2, Granted(access, "", None))]
  }

  lemma {:induction false} CivilThen(s: State, a: Action, rest: seq<Action>)
    requires Enabled(s, a) && Civil(s, a) && IsCivilRun(Next(s, a), rest)
    ensures IsCivilRun(s, [a] + rest) && AfterCivil(s, [a] + rest) == AfterCivil(Next(s, a), rest)
  {
    hide Next, Enabled, Civil;
    assert ([a] + rest)[0] == a && ([a] + rest)[1..] == rest;
  }

  lemma {:induction false} CivilAppend(s: State, a: seq<Action>, b: seq<Action>)
    requires IsCivilRun(s, a) && IsCivilRun(AfterCivil(s, a), b)
    ensures IsCivilRun(s, a + b) && AfterCivil(s, a + b) == AfterCivil(AfterCivil(s, a), b)
    decreases |a|
  {
    hide Next, Enabled, Civil;
    if a == [] {
      assert a + b == b;
    } else {
      assert (a + b)[0] == a[0] && (a + b)[1..] == a[1..] + b;
      CivilAppend(Next(s, a[0]), a[1..], b);
    }
  }

  /** A leader has exchanged the pool's token and is about to record what it got; the token it spent is retired. */
  lemma {:induction false} RenewsFirst(s: State)
    requires Start(s) && CanExchange(Find(s.pool.memory, s.id).value)
    ensures var actions := Renewing(s, First(s));
      && IsCivilRun(s, actions)
      && var s' := AfterCivil(s, actions); var first := First(s);
         && s'.id == s.id && s'.inflight.Some? && !s'.failed
         && 1 in s'.callers && s'.callers.Keys == {1} && s'.callers[1].Storing? && s'.callers[1].call == s'.inflight.value
         && s'.pool == s.pool.At(1, Locks.Asking(Locks.UpdateOp(s.id, Refresh.Renewal(s'.callers[1].current))))
         && s'.known == {first, s.live, NewToken(s, first, "a"), NewToken(s, first, "rr")}
         && |s'.log| == 1 && s'.log[0].spent == s.live && s'.log[0].left != s.live
  {
    var first, live := First(s), s.live;
    var actions, new1, new2 := Renewing(s, first), NewToken(s, first, "a"), NewToken(s, first, "rr");
    NewerTokens(s, first);
    ReadsFirst(s);
    hide *;
    var s3 := Next(Next(Next(s, Call(1, first)), Join(1)), Read(1));
    SwapsFirst(s3, new1, new2);
    assert [actions[0]] + ([actions[1]] + ([actions[2]] + [actions[3], actions[4]])) == actions by { RenewingIs(s, first); }
    RenewingIs(s, first);
    var last := [actions[3], actions[4]];
    CivilThen(Next(Next(s, actions[0]), actions[1]), actions[2], last);
    CivilThen(Next(s, actions[0]), actions[1], [actions[2]] + last);
    CivilThen(s, actions[0], [actions[1]] + ([actions[2]] + last));
  }

  lemma {:induction false} RenewingIs(s: State, first: string)
    ensures var actions, new1, new2 := Renewing(s, first), NewToken(s, first, "a"), NewToken(s, first, "rr");
      && |actions| == 5
      && actions == [actions[0]] + ([actions[1]] + ([actions[2]] + [actions[3], actions[4]]))
      && actions[0] == Call(1, first) && actions[1] == Join(1) && actions[2] == Read(1)
      && actions[3] == Swap(1, Granted(new1, new2, None)) && actions[4] == Record(1)
  {
    hide NewToken;
  }

  lemma {:induction false} ReadsFirst(s: State)
    requires Start(s)
    ensures var first := First(s);
      && Enabled(s, Call(1, first)) && Civil(s, Call(1, first))
      && var s1 := Next(s, Call(1, first));
      && Enabled(s1, Join(1)) && Civil(s1, Join(1))
      && var s2 := Next(s1, Join(1));
      && Enabled(s2, Read(1)) && Civil(s2, Read(1))
      && var s3 := Next(s2, Read(1));
      && s3.id == s.id && !s3.failed && s3.pool == s.pool && s3.log == [] && s3.known == {first, s.live}
      && s3.inflight.Some? && s3.callers.Keys == {1}
      && s3.callers[1] == Spending(first, s3.inflight.value, Find(s.pool.memory, s.id).value)
  {
    hide Locks.Next, Locks.Enabled, Find, Addressable;
  }

  lemma {:induction false} SwapsFirst(s: State, access: string, refresh: string)
    requires 1 in s.callers && s.callers.Keys == {1} && s.callers[1].Spending? && CanExchange(s.callers[1].current)
    requires access != "" && refresh != "" && access != refresh && access !in s.known && refresh !in s.known
    requires s.callers[1].current.refreshToken in s.known
    ensures var actions := [Swap(1, Granted(access, refresh, None)), Record(1)];
      && IsCivilRun(s, actions)
      && var s' := AfterCivil(s, actions);
         && s'.id == s.id && s'.failed == s.failed && s'.inflight == s.inflight
         && 1 in s'.callers && s'.callers.Keys == {1} && s'.callers[1].Storing? && s'.callers[1].call == s.callers[1].call
         && s'.pool == s.pool.At(1, Locks.Asking(Locks.UpdateOp(s.id, Refresh.Renewal(s'.callers[1].current))))
         && s'.known == s.known + {access, refresh}
         && |s'.log| == |s.log| + 1 && s'.log[|s.log|].spent == s.callers[1].current.refreshToken && s'.log[|s.log|].left == refresh
  {
    hide Locks.Next, Locks.Enabled, Find, IsCivilRun, AfterCivil;
    var swap := Swap(1, Granted(access, refresh, None));
    var s1 := Next(s, swap);
    var s2 := Next(s1, Record(1));
    NoCivil(s2);
    CivilThen(s1, Record(1), []);
    CivilThen(s, swap, [Record(1)] + []);
    assert [swap] + ([Record(1)] + []) == [swap, Record(1)];
  }

  lemma {:induction false} NoCivil(s: State)
    ensures IsCivilRun(s, []) && AfterCivil(s, []) == s
  {}

  lemma {:induction false} PoolLoses(p: Locks.State, op: Locks.Op)
    requires p.holder.None? && p.PhaseOf(1) == Locks.Asking(op) && op.UpdateOp? && Find(p.memory, op.id).Some?
    ensures Locks.Enabled(p, Locks.Event(1, Locks.Acquire))
    ensures var p1 := Locks.Next(p, Locks.Event(1, Locks.Acquire));
      && Locks.Enabled(p1, Locks.Event(1, Locks.Touch))
      && var p2 := Locks.Next(p1, Locks.Event(1, Locks.Touch));
      && Locks.Enabled(p2, Locks.Event(1, Locks.Save(false)))
      && var p3 := Locks.Next(p2, Locks.Event(1, Locks.Save(false)));
      && Locks.Enabled(p3, Locks.Event(1, Locks.Release))
      && var p4 := Locks.Next(p3, Locks.Event(1, Locks.Release));
      && p4.file == p.file && p4.holder.None? && p4.PhaseOf(1).Idle? && forall t: nat :: t != 1 ==> p4.PhaseOf(t) == p.PhaseOf(t)
  {
    hide Find, Locks.Applied;
  }

  /** Recording it fails to reach the file, and the group is free again. */
  lemma {:induction false} LosesWrite(s: State)
    requires s.inflight.Some? && 1 in s.callers && s.callers.Keys == {1} && s.callers[1].Storing? && s.callers[1].call == s.inflight.value
    requires s.pool.holder.None? && s.pool.PhaseOf(1) == Locks.Asking(Locks.UpdateOp(s.id, Refresh.Renewal(s.callers[1].current)))
    requires Find(s.pool.memory, s.id).Some?
    ensures IsCivilRun(s, LOSING)
    ensures var s' := AfterCivil(s, LOSING);
      && s'.id == s.id && s'.log == s.log && s'.known == s.known && s'.failed && s'.inflight.None? && s'.callers.Keys == {1}
      && s'.pool.file == s.pool.file && s'.pool.holder.None? && forall t: nat :: t != 1 ==> s'.pool.PhaseOf(t) == s.pool.PhaseOf(t)
  {
    hide Find, IsCivilRun, AfterCivil, Addressable, Locks.Next, Locks.Enabled, Locks.State.PhaseOf, Refresh.Renewal;
    PoolLoses(s.pool, Locks.UpdateOp(s.id, Refresh.Renewal(s.callers[1].current)));
    var s1 := Next(s, LOSING[0]);
    var s2 := Next(s1, LOSING[1]);
    var s3 := Next(s2, LOSING[2]);
    var s4 := Next(s3, LOSING[3]);
    var s5 := Next(s4, LOSING[4]);
    var s6 := Next(s5, LOSING[5]);
    hide *;
    NoCivil(s6);
    CivilThen(s5, LOSING[5], []);
    CivilThen(s4, LOSING[4], [LOSING[5]] + []);
    CivilThen(s3, LOSING[3], [LOSING[4]] + ([LOSING[5]] + []));
    CivilThen(s2, LOSING[2], [LOSING[3]] + ([LOSING[4]] + ([LOSING[5]] + [])));
    CivilThen(s1, LOSING[1], [LOSING[2]] + ([LOSING[3]] + ([LOSING[4]] + ([LOSING[5]] + []))));
    CivilThen(s, LOSING[0], [LOSING[1]] + ([LOSING[2]] + ([LOSING[3]] + ([LOSING[4]] + ([LOSING[5]] + [])))));
    assert [LOSING[0]] + ([LOSING[1]] + ([LOSING[2]] + ([LOSING[3]] + ([LOSING[4]] + ([LOSING[5]] + []))))) == LOSING;
  }

  /** A reload puts back what the file holds. */
  lemma {:induction false} ReloadsFile(s: State)
    requires s.pool.holder.None? && s.pool.PhaseOf(9).Idle? && 9 !in s.callers && Addressable(s.pool.file)
    ensures IsCivilRun(s, RELOADING)
    ensures var s' := AfterCivil(s, RELOADING);
      && s'.id == s.id && s'.log == s.log && s'.known == s.known && s'.inflight == s.inflight && s'.callers == s.callers
      && s'.pool.memory == s.pool.file && s'.pool.PhaseOf(2) == s.pool.PhaseOf(2)
  {
    hide Find, IsCivilRun, AfterCivil, Addressable, Locks.Applied;
    var s1 := Next(s, RELOADING[0]);
    var s2 := Next(s1, RELOADING[1]);
    var s3 := Next(s2, RELOADING[2]);
    var s4 := Next(s3, RELOADING[3]);
    NoCivil(s4);
    CivilThen(s3, RELOADING[3], []);
    CivilThen(s2, RELOADING[2], [RELOADING[3]] + []);
    CivilThen(s1, RELOADING[1], [RELOADING[2]] + ([RELOADING[3]] + []));
    CivilThen(s, RELOADING[0], [RELOADING[1]] + ([RELOADING[2]] + ([RELOADING[3]] + [])));
    assert [RELOADING[0]] + ([RELOADING[1]] + ([RELOADING[2]] + ([RELOADING[3]] + []))) == RELOADING;
  }

  /** Whoever still holds the old access token now presents the old refresh token. */
  lemma {:induction false} SpendsAgain(s: State, a: Account, access: string)
    requires s.inflight.None? && 2 !in s.callers && s.pool.PhaseOf(2).Idle? && Find(s.pool.memory, s.id) == Some(a) && CanExchange(a)
    requires access != "" && access !in s.known && access != a.accessToken
    ensures IsCivilRun(s, Respending(a.accessToken, access))
    ensures var s' := AfterCivil(s, Respending(a.accessToken, access));
      |s'.log| == |s.log| + 1 && s'.log[..|s.log|] == s.log && s'.log[|s.log|].spent == a.refreshToken
  {
    hide Locks.Next, Locks.Enabled, Find, IsCivilRun, AfterCivil;
    var actions := Respending(a.accessToken, access);
    var s1 := Next(s, actions[0]);
    var s2 := Next(s1, actions[1]);
    var s3 := Next(s2, actions[2]);
    var s4 := Next(s3, actions[3]);
    NoCivil(s4);
    CivilThen(s3, actions[3], []);
    CivilThen(s2, actions[2], [actions[3]] + []);
    CivilThen(s1, actions[1], [actions[2]] + ([actions[3]] + []));
    CivilThen(s, actions[0], [actions[1]] + ([actions[2]] + ([actions[3]] + [])));
    assert [actions[0]] + ([actions[1]] + ([actions[2]] + ([actions[3]] + []))) == actions;
  }

  /** A renewal whose write fails, a reload, and a caller that still holds the old access token: the refresh token that
      the renewal retired is presented again. */
  lemma {:induction false} RevivesRetired(s: State) returns (actions: seq<Action>)
    requires Start(s) && CanExchange(Find(s.pool.memory, s.id).value)
    ensures IsCivilRun(s, actions) && SpendsRetired(AfterCivil(s, actions).log)
  {
    var a, access := Find(s.pool.memory, s.id).value, NewToken(s, First(s), "aaa");
    assert a.accessToken == First(s) && a.refreshToken == s.live;
    StartPhases(s);
    RenewsFirst(s);
    NewestToken(s, First(s));
    hide *;
    var s1 := AfterCivil(s, Renewing(s, a.accessToken));
    OthersKeepPhase(s.pool, 1, Locks.Asking(Locks.UpdateOp(s.id, Refresh.Renewal(s1.callers[1].current))));
    LosesThenSpends(s1, a, access);
    var rest := LOSING + (RELOADING + Respending(a.accessToken, access));
    CivilAppend(s, Renewing(s, a.accessToken), rest);
    actions := Renewing(s, a.accessToken) + rest;
    SpentTwice(AfterCivil(s, actions).log);
  }

  lemma {:induction false} LosesThenSpends(s: State, a: Account, access: string)
    requires s.inflight.Some? && 1 in s.callers && s.callers.Keys == {1} && s.callers[1].Storing? && s.callers[1].call == s.inflight.value
    requires s.pool.holder.None? && s.pool.PhaseOf(1) == Locks.Asking(Locks.UpdateOp(s.id, Refresh.Renewal(s.callers[1].current)))
    requires Find(s.pool.memory, s.id).Some? && Find(s.pool.file, s.id) == Some(a) && Addressable(s.pool.file) && CanExchange(a)
    requires s.pool.PhaseOf(2).Idle? && s.pool.PhaseOf(9).Idle?
    requires access != "" && access !in s.known && access != a.accessToken
    ensures var actions := LOSING + (RELOADING + Respending(a.accessToken, access));
      && IsCivilRun(s, actions)
      && var log := AfterCivil(s, actions).log;
         |log| == |s.log| + 1 && log[..|s.log|] == s.log && log[|s.log|].spent == a.refreshToken
  {
    hide *;
    LosesWrite(s);
    var s2 := AfterCivil(s, LOSING);
    ReloadsFile(s2);
    var s3 := AfterCivil(s2, RELOADING);
    SpendsAgain(s3, a, access);
    var last := Respending(a.accessToken, access);
    CivilAppend(s2, RELOADING, last);
    CivilAppend(s, LOSING, RELOADING + last);
  }

  lemma {:induction false} NewerTokens(s: State, first: string)
    ensures var a, r := NewToken(s, first, "a"), NewToken(s, first, "rr");
      a != "" && r != "" && a != r && a !in {first, s.live} && r !in {first, s.live}
  {
    var a, r := NewToken(s, first, "a"), NewToken(s, first, "rr");
    assert |r| > |a| > |first| && |a| > |s.live|;
  }

  lemma {:induction false} NewestToken(s: State, first: string)
    ensures var t := NewToken(s, first, "aaa");
      t != "" && t != first && t !in {first, s.live, NewToken(s, first, "a"), NewToken(s, first, "rr")}
  {
    var t := NewToken(s, first, "aaa");
    assert |t| > |NewToken(s, first, "rr")| > |NewToken(s, first, "a")| > |first| && |t| > |s.live|;
  }

  lemma {:induction false} OthersKeepPhase(p: Locks.State, t: nat, phase: Locks.Phase)
    ensures var p' := p.At(t, phase);
      && p'.memory == p.memory && p'.file == p.file && p'.holder == p.holder && p'.PhaseOf(t) == phase
      && forall u: nat :: u != t ==> p'.PhaseOf(u) == p.PhaseOf(u)
  {}

  lemma {:induction false} SpentTwice(log: seq<Exchange>)
    requires |log| == 2 && log[0].left != log[0].spent && log[1].spent == log[0].spent
    ensures SpendsRetired(log)
  {}

  lemma {:induction false} StartPhases(s: State)
    requires Start(s)
    ensures s.pool.holder.None? && s.pool.file == s.pool.memory && Addressable(s.pool.file) && forall t: nat :: s.pool.PhaseOf(t).Idle?
  {
    hide Find, Addressable;
  }

  // ----- exactly when nobody is given its own token back -----

  /** Every caller comes with a token of `held`. */
  ghost predicate AllFrom(actions: seq<Action>, held: set<string>) {
    forall a :: a in actions && a.Call? ==> a.stale in held
  }

  /** While nobody comes with the pool's token, everybody who is served is given that token and none is exchanged. */
  ghost predicate QuietInv(s: State, first: string, held: set<string>) {
    && s.log == []
    && (forall r :: r in s.callers ==> s.callers[r].stale in held)
    && (forall r :: r in s.callers ==> !s.callers[r].Spending? && !s.callers[r].Renewed? && !s.callers[r].Storing?)
  }

  lemma {:induction false} QuietStep(s: State, a: Action, first: string, seed: string, held: set<string>)
    requires Inv(s, first, seed) && QuietInv(s, first, held) && first != "" && first !in held
    requires Enabled(s, a) && Orderly(s, a) && (a.Call? ==> a.stale in held)
    ensures QuietInv(Next(s, a), first, held)
  {
    hide Inv, GroupInv, WorkInv, TokenInv, LogInv, ResultInv, Next, Enabled, Orderly;
    InvParts(s, first, seed);
    OnlyOneCaller(s, a);
    MovedCallerStale(s, a);
    NothingExchanged(s, a);
    if a.Read? { QuietRead(s, a.r, first, held); }
  }

  lemma {:induction false} NothingExchanged(s: State, a: Action)
    requires Enabled(s, a)
    requires forall r :: r in s.callers ==> !s.callers[r].Spending? && !s.callers[r].Renewed? && !s.callers[r].Storing?
    ensures Next(s, a).log == s.log
    ensures !a.Work? && !a.Read? ==>
      a.r in Next(s, a).callers && var p := Next(s, a).callers[a.r]; !p.Spending? && !p.Renewed? && !p.Storing?
  {
    hide Find, Locks.Next, Locks.Enabled, Locks.State.PhaseOf;
  }

  lemma {:induction false} QuietRead(s: State, r: nat, first: string, held: set<string>)
    requires GroupInv(s) && TokenInv(s, first) && QuietInv(s, first, held) && first != "" && first !in held && Enabled(s, Read(r))
    ensures Next(s, Read(r)).callers[r].Finished?
  {
    LeaderHasRecorded(s, r);
    hide Find, GroupInv, Unrecorded;
    assert PoolIsNewest(s, first);
  }

  lemma {:induction false} QuietRun(s: State, actions: seq<Action>, first: string, seed: string, held: set<string>)
    requires Inv(s, first, seed) && QuietInv(s, first, held) && first != "" && first !in held
    requires IsRun(s, actions) && AllFrom(actions, held)
    ensures QuietInv(After(s, actions), first, held)
    decreases |actions|
  {
    hide Enabled, Orderly, Next, QuietInv, Inv;
    if actions != [] {
      StepKeeps(s, actions[0], first, seed);
      QuietStep(s, actions[0], first, seed, held);
      QuietRun(Next(s, actions[0]), actions[1..], first, seed, held);
    }
  }

  lemma {:induction false} QuietIsFair(s: State, first: string, held: set<string>)
    requires ResultInv(s, first) && QuietInv(s, first, held) && first !in held
    ensures NobodyGetsItsOwn(s)
  {
    forall r | r in s.callers && s.callers[r].Done? && s.callers[r].result.Ok?
      ensures s.callers[r].result.account.accessToken != s.callers[r].stale
    {
      assert CallerTold(s, first, s.callers[r]);
    }
  }

  /** Whatever the interleaving, nobody is handed the token it came with: this holds exactly when no caller can come with
      the pool's token, or none with any other. */
  lemma {:induction false} OwnTokenBackExactly(s: State, held: set<string>)
    requires Start(s) && First(s) != ""
    ensures (forall actions :: IsRun(s, actions) && AllFrom(actions, held) ==> NobodyGetsItsOwn(After(s, actions)))
      <==> First(s) !in held || held == {First(s)}
  {
    hide IsRun, After, Inv, NobodyGetsItsOwn, AllFrom, OnlyInv, QuietInv;
    if First(s) !in held || held == {First(s)} {
      forall actions | IsRun(s, actions) && AllFrom(actions, held) ensures NobodyGetsItsOwn(After(s, actions)) {
        if First(s) in held { OneTokenIsFair(s, actions, held); } else { OtherTokensAreFair(s, actions, held); }
      }
    } else {
      assert held != {First(s)};
      var older :| older in held && older != First(s);
      JoinerMayGetItsOwnTokenBack(s, older);
      var actions := [Call(1, older), Call(2, First(s)), Join(1), Join(2), Read(1), Publish(1), Wake(2)];
      SharedRunIsFrom(older, First(s), held);
      NotFair(s, actions);
    }
  }

  lemma {:induction false} NotFair(s: State, actions: seq<Action>)
    requires Start(s) && IsRun(s, actions) && 2 in After(s, actions).callers
    requires After(s, actions).callers[2] == Done(First(s), Ok(Find(s.pool.memory, s.id).value))
    ensures !NobodyGetsItsOwn(After(s, actions))
  {
    hide IsRun, After, Find;
  }

  lemma {:induction false} SharedRunIsFrom(older: string, first: string, held: set<string>)
    requires older in held && first in held
    ensures AllFrom([Call(1, older), Call(2, first), Join(1), Join(2), Read(1), Publish(1), Wake(2)], held)
  {}

  lemma {:induction false} OneTokenIsFair(s: State, actions: seq<Action>, held: set<string>)
    requires Start(s) && IsRun(s, actions) && AllFrom(actions, held) && held == {First(s)}
    ensures NobodyGetsItsOwn(After(s, actions))
  {
    hide IsRun, After, Inv, Find;
    StartsWell(s);
    assert AllHold(actions, First(s));
    OnlyRun(s, actions, First(s), s.live, First(s));
    OnlyIsFair(After(s, actions), First(s));
  }

  lemma {:induction false} OtherTokensAreFair(s: State, actions: seq<Action>, held: set<string>)
    requires Start(s) && IsRun(s, actions) && AllFrom(actions, held) && First(s) != "" && First(s) !in held
    ensures NobodyGetsItsOwn(After(s, actions))
  {
    hide IsRun, After, Inv, Find;
    StartsWell(s);
    QuietRun(s, actions, First(s), s.live, held);
    RunKeeps(s, actions, First(s), s.live);
    InvParts(After(s, actions), First(s), s.live);
    QuietIsFair(After(s, actions), First(s), held);
  }
}
