/** What every run of `Execute` keeps (internal/engine/engine.go:180-439). */
module EngineTheorems {
  import opened Basics
  import opened Selection
  import opened EngineRun

  /** What the store guarantees about the pool, and the clock about itself. */
  ghost predicate Inv(st: State) {
    UniqueIds(st.accounts) && st.clock > 0
  }

  predicate AvailableIn(st: State, id: string) {
    HealthOf(st.health, id).AvailableAt(st.clock)
  }

  lemma SelectedIsEligible(cfg: Config, lane: string, key: string, st: State)
    requires Inv(st)
    ensures SelectionView(cfg, lane, key, st).IsChoice(SelectionView(cfg, lane, key, st).Select())
  {
    SelectIsChoice(SelectionView(cfg, lane, key, st));
  }

  /** A run keeps every account's identity, lane and kind: only tokens are rewritten,
      and only on OAuth accounts of the lane, which keep a token. */
  ghost predicate SamePool(lane: string, before: seq<Account>, after: seq<Account>) {
    && |after| == |before|
    && forall i {:trigger after[i]} :: 0 <= i < |after| ==>
      && after[i].id == before[i].id && after[i].kind == before[i].kind
      && InLane(after[i], lane) == InLane(before[i], lane)
  }

  lemma {:induction false} RenewKeepsPool(lane: string, accounts: seq<Account>, a: Account, t: Renewal)
    requires UniqueIds(accounts) && a in accounts && InLane(a, lane) && a.kind.OAuth? && t.Renewed?
    ensures SamePool(lane, accounts, RenewIn(accounts, a.id, t))
  {}

  /** Nothing but account `id` had its health or its refusal count touched. */
  ghost predicate OnlyTouches(id: string, st: State, st': State) {
    st'.health - {id} == st.health - {id} && st'.progress.auth - {id} == st.progress.auth - {id}
  }

  lemma Untouched(id: string, st: State, st': State, x: string)
    requires OnlyTouches(id, st, st') && x != id
    ensures HealthOf(st'.health, x) == HealthOf(st.health, x)
    ensures AuthCount(st'.progress, x) == AuthCount(st.progress, x)
  {
    assert x in st.health <==> x in st.health - {id};
    assert x in st'.health <==> x in st'.health - {id};
    assert x in st.health ==> st.health[x] == (st.health - {id})[x];
    assert x in st'.health ==> st'.health[x] == (st'.health - {id})[x];
    assert x in st.progress.auth <==> x in st.progress.auth - {id};
    assert x in st'.progress.auth <==> x in st'.progress.auth - {id};
    assert x in st.progress.auth ==> st.progress.auth[x] == (st.progress.auth - {id})[x];
    assert x in st'.progress.auth ==> st'.progress.auth[x] == (st'.progress.auth - {id})[x];
  }

  /** At most account `id` joined the accounts to skip this round. */
  ghost predicate OnlySkips(id: string, st: State, st': State) {
    st'.progress.tried == st.progress.tried || st'.progress.tried == st.progress.tried + {id}
  }

  /** The account list after handling a reply for `a`. */
  ghost predicate MaybeRenewed(a: Account, t: Renewal, before: seq<Account>, after: seq<Account>) {
    after == before || (a.kind.OAuth? && t.Renewed? && after == RenewIn(before, a.id, t))
  }

  lemma RefusalKeeps(cfg: Config, st: State, a: Account, reason: string, e: Effect, inp: Input)
    ensures var (st', e') := HandleRefusal(cfg, st, a, reason, e, inp);
      && MaybeRenewed(a, inp.renewal, st.accounts, st'.accounts)
      && OnlyTouches(a.id, st, st') && OnlySkips(a.id, st, st') && st'.clock == st.clock && e'.(ending := e.ending) == e
  {}

  lemma OverloadKeeps(cfg: Config, mayRotate: bool, st: State, a: Account, e: Effect, inp: Input)
    ensures var (st', e') := HandleOverload(cfg, mayRotate, st, a, e, inp);
      && st'.accounts == st.accounts && st'.health == st.health && st'.progress.auth == st.progress.auth
      && OnlySkips(a.id, st, st') && st'.clock >= st.clock && e'.(ending := e.ending, slept := e.slept) == e
  {}

  lemma DispatchKeeps(cfg: Config, lane: string, key: string, st: State, a: Account, e: Effect, inp: Input)
    ensures var (st', e') := Dispatch(cfg, lane, key, st, a, e, inp);
      && MaybeRenewed(a, inp.renewal, st.accounts, st'.accounts)
      && OnlyTouches(a.id, st, st') && OnlySkips(a.id, st, st')
      && st.clock + inp.lag == e'.heard <= st'.clock
      && e'.reply == Some(inp.reply) && e'.now == e.now && e'.picked == e.picked && e'.parked == e.parked
  {
    hide HandleRefusal, HandleOverload, LaneAccounts, StickySet, HealthOf, RenewIn;
    var st1 := st.(clock := st.clock + inp.lag);
    var e1 := e.(reply := Some(inp.reply), heard := st.clock + inp.lag);
    match inp.reply
    case Unreachable => OverloadKeeps(cfg, true, st1, a, e1, inp);
    case Response(windows, outcome) =>
      var st2 := Observe(st1, a.id, windows);
      assert OnlyTouches(a.id, st1, st2);
      match outcome {
        case RefreshAuth(reason) => RefusalKeeps(cfg, st2, a, reason, e1, inp);
        case Overloaded(_) => OverloadKeeps(cfg, |LaneAccounts(st2.accounts, lane)| > 1, st2, a, e1, inp);
        case _ =>
      }
  }

  lemma PoolAfterReply(lane: string, before: seq<Account>, a: Account, t: Renewal, after: seq<Account>)
    requires UniqueIds(before) && a in before && InLane(a, lane) && MaybeRenewed(a, t, before, after)
    ensures SamePool(lane, before, after) && UniqueIds(after)
  {
    PoolAfterRenewal(lane, before, a, t);
  }

  lemma SamePoolTransitive(lane: string, a: seq<Account>, b: seq<Account>, c: seq<Account>)
    requires SamePool(lane, a, b) && SamePool(lane, b, c)
    ensures SamePool(lane, a, c)
  {}

  lemma {:induction false} PoolAfterRenewal(lane: string, accounts: seq<Account>, a: Account, t: Renewal)
    requires UniqueIds(accounts) && a in accounts && InLane(a, lane)
    ensures a.kind.OAuth? && t.Renewed? ==>
      var after := RenewIn(accounts, a.id, t);
      && SamePool(lane, accounts, after) && UniqueIds(after)
      && a.Renewed(t.access, t.refresh, t.expiresAt) in after
      && InLane(a.Renewed(t.access, t.refresh, t.expiresAt), lane)
  {
    if a.kind.OAuth? && t.Renewed? {
      var after := RenewIn(accounts, a.id, t);
      var k :| 0 <= k < |accounts| && accounts[k] == a;
      assert after[k] == a.Renewed(t.access, t.refresh, t.expiresAt);
      RenewKeepsPool(lane, accounts, a, t);
    }
  }

  lemma AttemptKeeps(cfg: Config, lane: string, key: string, st: State, a: Account, e: Effect, inp: Input)
    requires Inv(st) && InLane(a, lane) && a in st.accounts && st.clock == e.now == e.heard
    requires a.TokenExpiredAt(st.clock, REFRESH_SKEW) ==> a.kind.OAuth?
    ensures var (st', e') := Attempt(cfg, lane, key, st, a, e, inp);
      && SamePool(lane, st.accounts, st'.accounts)
      && OnlyTouches(a.id, st, st') && OnlySkips(a.id, st, st')
      && st.clock == e'.now <= e'.heard <= st'.clock && e'.picked == Some(a) && e'.parked == e.parked
  {
    hide Dispatch, HealthOf, InLane, Account.TokenExpiredAt, Account.Renewed, UniqueIds, SamePool, MaybeRenewed, RenewIn;
    var st1 := st.(progress := st.progress.(attempts := st.progress.attempts + 1));
    var e1 := e.(picked := Some(a));
    var st' := Attempt(cfg, lane, key, st, a, e, inp).0;
    if !a.TokenExpiredAt(st.clock, REFRESH_SKEW) {
      DispatchKeeps(cfg, lane, key, st1, a, e1, inp);
      PoolAfterReply(lane, st.accounts, a, inp.renewal, st'.accounts);
    } else if inp.freshen.Renewed? {
      PoolAfterRenewal(lane, st.accounts, a, inp.freshen);
      var b := a.Renewed(inp.freshen.access, inp.freshen.refresh, inp.freshen.expiresAt);
      RenewedIdentity(a, inp.freshen);
      var st2 := st1.(accounts := RenewIn(st1.accounts, a.id, inp.freshen));
      DispatchKeeps(cfg, lane, key, st2, b, e1, inp);
      PoolAfterReply(lane, st2.accounts, b, inp.renewal, st'.accounts);
      SamePoolTransitive(lane, st.accounts, st2.accounts, st'.accounts);
    } else {
      SamePoolReflexive(lane, st.accounts);
    }
  }

  lemma RenewedIdentity(a: Account, t: Renewal)
    requires t.Renewed?
    ensures var b := a.Renewed(t.access, t.refresh, t.expiresAt); b.id == a.id && b.kind == a.kind
  {}

  lemma SamePoolReflexive(lane: string, accounts: seq<Account>)
    ensures SamePool(lane, accounts, accounts)
  {}

  /** What every iteration keeps: the pool, the clock's direction, and the health and
      refusal counts of every account but the one it picked. */
  lemma StepKeeps(cfg: Config, lane: string, key: string, st: State, inp: Input)
    requires Inv(st)
    ensures var (st', e) := Step(cfg, lane, key, st, inp);
      && Inv(st') && st.clock <= e.now <= e.heard <= st'.clock
      && (!inp.cancelled ==> e.now == st.clock + inp.tick)
      && SamePool(lane, st.accounts, st'.accounts)
      && (e.picked.None? ==> st'.health == st.health && st'.progress.auth == st.progress.auth)
      && (e.picked.Some? ==>
          && OnlyTouches(e.picked.value.id, st, st') && OnlySkips(e.picked.value.id, st, st')
          && SelectionView(cfg, lane, key, st.(clock := e.now)).Eligible(e.picked.value))
  {
    hide Attempt, View.Select, LaneAccounts, NextRecovery, Unusable, HealthOf, InLane;
    if !inp.cancelled {
      var st1 := st.(clock := st.clock + inp.tick);
      SelectedIsEligible(cfg, lane, key, st1);
      var e := Effect(st1.clock, None, None, st1.clock, None, false, None);
      match SelectionView(cfg, lane, key, st1).Select()
      case None =>
      case Some(a) => AttemptKeeps(cfg, lane, key, st1, a, e, inp);
    }
  }
}
