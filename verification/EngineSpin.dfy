/** The retry loop cannot spin (internal/engine/engine.go:180-363): at any one instant of
    its clock a request is sent a bounded number of times, and the bound needs exactly the
    configuration condition stated here. */
module EngineSpin {
  import opened Basics
  import opened Selection
  import opened EngineRun
  import opened EngineTheorems

  /** The least delay is at least two of the clock's units, so that jitter cannot
      truncate it to nothing; durations count nanoseconds. */
  predicate DelaysCount(cfg: Config) {
    cfg.Valid() && cfg.overloadInitial >= 2
  }

  /** A throttle names a wait that is actually a wait. */
  predicate ThrottlesWait(inp: Input) {
    inp.reply.Response? && inp.reply.outcome.Throttled? ==> inp.reply.outcome.retryAfter > 0
  }

  ghost predicate AllThrottlesWait(script: seq<Input>) {
    forall i :: 0 <= i < |script| ==> ThrottlesWait(script[i])
  }

  /** The condition on the configuration: two refusals in a row before rotating, unless
      a pool that has been tried is never tried again. */
  predicate CannotSpin(cfg: Config) {
    cfg.rotateAfter >= 2 || !cfg.parkEnabled
  }

  /** How many requests were sent in iterations that read the clock as `t`. */
  function SendsAt(trace: seq<Effect>, t: Time): nat {
    if trace == [] then 0
    else (if trace[0].Sent() && trace[0].now == t then 1 else 0) + SendsAt(trace[1..], t)
  }

  function LaneSize(accounts: seq<Account>, lane: string): nat {
    |LaneAccounts(accounts, lane)|
  }

  function SendBound(cfg: Config, n: nat): nat {
    n * (Max(0, cfg.authRefreshAttempts) + 1) + 2
  }

  // ----- the measure -----

  /** Sends account `id` can still absorb without any time passing. */
  function Budget(cfg: Config, st: State, id: string): nat {
    if !AvailableIn(st, id) || (!cfg.parkEnabled && id in st.progress.tried) then 0
    else 1 + Max(0, cfg.authRefreshAttempts - AuthCount(st.progress, id))
  }

  function Total(cfg: Config, lane: string, accounts: seq<Account>, st: State): nat {
    if accounts == [] then 0
    else (if InLane(accounts[0], lane) then Budget(cfg, st, accounts[0].id) else 0)
         + Total(cfg, lane, accounts[1..], st)
  }

  function StreakTerm(st: State): nat { if st.progress.streak > 0 then 1 else 0 }

  function Potential(cfg: Config, lane: string, st: State): nat {
    Total(cfg, lane, st.accounts, st) + StreakTerm(st)
  }

  function Members(accounts: seq<Account>, lane: string): nat {
    |Filter(accounts, InLaneTest(lane))|
  }

  lemma {:induction false} TotalBound(cfg: Config, lane: string, accounts: seq<Account>, st: State)
    ensures Total(cfg, lane, accounts, st) <= Members(accounts, lane) * (Max(0, cfg.authRefreshAttempts) + 1)
  {
    if accounts != [] {
      hide Budget, Members, InLane;
      TotalBound(cfg, lane, accounts[1..], st);
      BudgetBound(cfg, st, accounts[0].id);
      MembersNext(accounts, lane);
      OneMore(Members(accounts[1..], lane), Max(0, cfg.authRefreshAttempts) + 1);
    }
  }

  lemma {:induction false} MembersNext(accounts: seq<Account>, lane: string)
    requires accounts != []
    ensures Members(accounts, lane) == (if InLane(accounts[0], lane) then 1 else 0) + Members(accounts[1..], lane)
  {
    hide InLane;
  }

  lemma {:induction false} OneMore(m: nat, k: nat)
    ensures (1 + m) * k == k + m * k && (0 + m) * k == m * k
  {}

  lemma BudgetBound(cfg: Config, st: State, id: string)
    ensures Budget(cfg, st, id) <= Max(0, cfg.authRefreshAttempts) + 1
  {}

  lemma {:induction false} SamePoolMembers(lane: string, before: seq<Account>, after: seq<Account>)
    requires SamePool(lane, before, after)
    ensures Members(after, lane) == Members(before, lane)
  {
    if before != [] {
      assert after[1..][..] == after[1..];
      assert SamePool(lane, before[1..], after[1..]) by {
        forall i | 0 <= i < |after[1..]| ensures
          after[1..][i].id == before[1..][i].id && after[1..][i].kind == before[1..][i].kind
          && InLane(after[1..][i], lane) == InLane(before[1..][i], lane) {
          assert after[1..][i] == after[i + 1] && before[1..][i] == before[i + 1];
        }
      }
      SamePoolMembers(lane, before[1..], after[1..]);
      assert after[0].id == before[0].id;
    }
  }

  /** If no account's budget grows and that of `id` drops by `drop`, so does the total. */
  lemma {:induction false} TotalDrops(cfg: Config, lane: string, before: seq<Account>, after: seq<Account>,
                                      st: State, st': State, id: string, drop: nat)
    requires SamePool(lane, before, after)
    requires forall x :: x != id ==> Budget(cfg, st', x) <= Budget(cfg, st, x)
    requires Budget(cfg, st', id) + drop <= Budget(cfg, st, id)
    requires drop > 0 ==> exists a :: a in before && InLane(a, lane) && a.id == id
    ensures Total(cfg, lane, after, st') + drop <= Total(cfg, lane, before, st)
  {
    hide Budget, InLane;
    if before != [] {
      assert SamePool(lane, before[1..], after[1..]) by {
        forall i | 0 <= i < |after[1..]| ensures
          after[1..][i].id == before[1..][i].id && after[1..][i].kind == before[1..][i].kind
          && InLane(after[1..][i], lane) == InLane(before[1..][i], lane) {
          assert after[1..][i] == after[i + 1] && before[1..][i] == before[i + 1];
        }
      }
      assert after[0].id == before[0].id && InLane(after[0], lane) == InLane(before[0], lane);
      if before[0].id == id && InLane(before[0], lane) {
        TotalDrops(cfg, lane, before[1..], after[1..], st, st', id, 0);
      } else {
        if drop > 0 {
          var a :| a in before && InLane(a, lane) && a.id == id;
          assert a in before[1..];
        }
        TotalDrops(cfg, lane, before[1..], after[1..], st, st', id, drop);
      }
    }
  }

  lemma BackoffPositive(cfg: Config, attempt: int, jitter: Jitter)
    requires DelaysCount(cfg)
    ensures Backoff(cfg, attempt, jitter) >= 1
  {
    hide Doubled, Jittered;
    DoubledMonotone(cfg.overloadInitial, 0, if attempt < 1 then 0 else attempt - 1);
    JitteredPositive(BackoffBase(cfg, attempt), jitter);
  }

  // ----- one iteration -----

  /** A send that lets no time pass is paid for. */
  ghost predicate Pays(cfg: Config, id: string, st: State, st': State, cost: nat) {
    Budget(cfg, st', id) + StreakTerm(st') + cost <= Budget(cfg, st, id) + StreakTerm(st)
    && Budget(cfg, st', id) <= Budget(cfg, st, id)
  }

  lemma RefusalPays(cfg: Config, st: State, a: Account, reason: string, e: Effect, inp: Input)
    requires AvailableIn(st, a.id) && a.id !in st.progress.tried
    ensures var (st', e') := HandleRefusal(cfg, st, a, reason, e, inp);
      e'.ending == e.ending ==> Pays(cfg, a.id, st, st', 1)
  {}

  lemma OverloadPays(cfg: Config, mayRotate: bool, st: State, a: Account, e: Effect, inp: Input)
    requires DelaysCount(cfg) && CannotSpin(cfg)
    requires AvailableIn(st, a.id) && a.id !in st.progress.tried && e.ending.None?
    ensures var (st', e') := HandleOverload(cfg, mayRotate, st, a, e, inp);
      e'.ending.None? && st'.clock == st.clock ==> Pays(cfg, a.id, st, st', 1)
  {
    hide Backoff;
    BackoffPositive(cfg, st.progress.streak + 1, inp.jitter);
  }

  lemma DispatchPays(cfg: Config, lane: string, key: string, st: State, a: Account, e: Effect, inp: Input)
    requires DelaysCount(cfg) && CannotSpin(cfg) && ThrottlesWait(inp)
    requires AvailableIn(st, a.id) && a.id !in st.progress.tried && e.ending.None?
    ensures var (st', e') := Dispatch(cfg, lane, key, st, a, e, inp);
      e'.ending.None? && st'.clock == st.clock ==> Pays(cfg, a.id, st, st', 1)
  {
    hide HandleRefusal, HandleOverload, LaneAccounts, StickySet, RenewIn;
    DispatchKeeps(cfg, lane, key, st, a, e, inp);
    if inp.lag > 0 { return; }
    var st1 := st.(clock := st.clock + inp.lag);
    var e1 := e.(reply := Some(inp.reply), heard := st.clock + inp.lag);
    match inp.reply
    case Unreachable => OverloadPays(cfg, true, st1, a, e1, inp);
    case Response(windows, outcome) =>
      var st2 := Observe(st1, a.id, windows);
      match outcome {
        case RefreshAuth(reason) =>
          RefusalKeeps(cfg, st2, a, reason, e1, inp);
          RefusalPays(cfg, st2, a, reason, e1, inp);
        case Overloaded(_) => OverloadPays(cfg, |LaneAccounts(st2.accounts, lane)| > 1, st2, a, e1, inp);
        case _ =>
      }
  }

  function Cost(e: Effect): nat { if e.Sent() then 1 else 0 }

  lemma AttemptPays(cfg: Config, lane: string, key: string, st: State, a: Account, e: Effect, inp: Input)
    requires DelaysCount(cfg) && CannotSpin(cfg) && ThrottlesWait(inp)
    requires AvailableIn(st, a.id) && a.id !in st.progress.tried && e.ending.None? && e.reply.None?
    ensures var (st', e') := Attempt(cfg, lane, key, st, a, e, inp);
      e'.ending.None? && st'.clock == st.clock ==> Pays(cfg, a.id, st, st', Cost(e'))
  {
    hide Dispatch, RenewIn, Account.TokenExpiredAt, Account.Renewed;
    var st1 := st.(progress := st.progress.(attempts := st.progress.attempts + 1));
    var e1 := e.(picked := Some(a));
    if !a.TokenExpiredAt(st.clock, REFRESH_SKEW) {
      DispatchPays(cfg, lane, key, st1, a, e1, inp);
    } else if inp.freshen.Renewed? {
      RenewedIdentity(a, inp.freshen);
      DispatchPays(cfg, lane, key, st1.(accounts := RenewIn(st1.accounts, a.id, inp.freshen)),
                   a.Renewed(inp.freshen.access, inp.freshen.refresh, inp.freshen.expiresAt), e1, inp);
    }
  }

  /** An iteration that ends nothing, and during which the clock stands still once read,
      lowers the measure by its sends. */
  lemma StepPays(cfg: Config, lane: string, key: string, st: State, inp: Input)
    requires Inv(st) && DelaysCount(cfg) && CannotSpin(cfg) && ThrottlesWait(inp)
    ensures var (st', e) := Step(cfg, lane, key, st, inp);
      e.ending.None? && st'.clock == e.now ==>
        Potential(cfg, lane, st') + Cost(e) <= Potential(cfg, lane, st.(clock := e.now))
  {
    hide Step, InLane, AvailableIn;
    var (st', e) := Step(cfg, lane, key, st, inp);
    if e.ending.None? && st'.clock == e.now {
      StepKeeps(cfg, lane, key, st, inp);
      var at := st.(clock := e.now);
      if e.picked.None? {
        ParkPays(cfg, lane, key, st, inp);
      } else {
        var a := e.picked.value;
        PickPays(cfg, lane, key, st, a, inp);
        forall x | x != a.id ensures Budget(cfg, st', x) <= Budget(cfg, at, x) {
          Untouched(a.id, st, st', x);
          SameAvailability(at, st', x);
        }
        TotalDrops(cfg, lane, st.accounts, st'.accounts, at, st', a.id, Budget(cfg, at, a.id) - Budget(cfg, st', a.id));
      }
    }
  }

  lemma SameAvailability(st: State, st': State, id: string)
    requires HealthOf(st.health, id) == HealthOf(st'.health, id) && st.clock == st'.clock
    ensures AvailableIn(st, id) == AvailableIn(st', id)
  {}

  lemma ParkPays(cfg: Config, lane: string, key: string, st: State, inp: Input)
    ensures var (st', e) := Step(cfg, lane, key, st, inp);
      e.picked.None? && e.ending.None? && st'.clock == e.now && SamePool(lane, st.accounts, st'.accounts) ==>
        Cost(e) == 0 && Potential(cfg, lane, st') <= Potential(cfg, lane, st.(clock := e.now))
  {
    hide Attempt, View.Select, LaneAccounts, NextRecovery, Unusable, HealthOf, InLane, SkewAllowance;
    var (st', e) := Step(cfg, lane, key, st, inp);
    if e.picked.None? && e.ending.None? && st'.clock == e.now && SamePool(lane, st.accounts, st'.accounts) {
      var st1 := st.(clock := st.clock + inp.tick);
      match SelectionView(cfg, lane, key, st1).Select()
      case Some(a) => AttemptPicks(cfg, lane, key, st1, a, Effect(st1.clock, None, None, st1.clock, None, false, None), inp);
      case None =>
        TotalDrops(cfg, lane, st.accounts, st'.accounts, st1, st', "", 0);
    }
  }

  lemma AttemptPicks(cfg: Config, lane: string, key: string, st: State, a: Account, e: Effect, inp: Input)
    ensures Attempt(cfg, lane, key, st, a, e, inp).1.picked == Some(a)
  {
    hide Dispatch, RenewIn, Account.TokenExpiredAt, Account.Renewed;
    var st1 := st.(progress := st.progress.(attempts := st.progress.attempts + 1));
    var e1 := e.(picked := Some(a));
    DispatchKeeps(cfg, lane, key, st1, a, e1, inp);
    if inp.freshen.Renewed? {
      DispatchKeeps(cfg, lane, key, st1.(accounts := RenewIn(st1.accounts, a.id, inp.freshen)),
                    a.Renewed(inp.freshen.access, inp.freshen.refresh, inp.freshen.expiresAt), e1, inp);
    }
  }

  lemma PickPays(cfg: Config, lane: string, key: string, st: State, a: Account, inp: Input)
    requires Inv(st) && DelaysCount(cfg) && CannotSpin(cfg) && ThrottlesWait(inp)
    ensures var (st', e) := Step(cfg, lane, key, st, inp);
      e.picked == Some(a) && e.ending.None? && st'.clock == e.now ==>
        Pays(cfg, a.id, st.(clock := e.now), st', Cost(e))
  {
    hide Attempt, View.Select, LaneAccounts, Park, HealthOf, InLane, Budget;
    var (st', e) := Step(cfg, lane, key, st, inp);
    if e.picked == Some(a) && e.ending.None? && st'.clock == e.now {
      StepKeeps(cfg, lane, key, st, inp);
      assert !inp.cancelled;
      var st1 := st.(clock := e.now);
      assert st.(clock := st.clock + inp.tick) == st1;
      var e0 := Effect(st1.clock, None, None, st1.clock, None, false, None);
      match SelectionView(cfg, lane, key, st1).Select()
      case None => ParkPicksNothing(cfg, lane, st1, e0, inp);
      case Some(b) =>
        AttemptPicks(cfg, lane, key, st1, b, e0, inp);
        AttemptPays(cfg, lane, key, st1, b, e0, inp);
    }
  }

  lemma ParkPicksNothing(cfg: Config, lane: string, st: State, e: Effect, inp: Input)
    ensures Park(cfg, lane, st, e, inp).1.picked == e.picked
  {}

  // ----- runs -----

  /** No iteration of a run reads the clock as anything before the run's start. */
  lemma {:induction false} NothingSentBefore(cfg: Config, lane: string, key: string, st: State, script: seq<Input>, t: Time)
    requires Inv(st) && t < st.clock
    ensures SendsAt(RunFrom(cfg, lane, key, st, script).trace, t) == 0
    decreases |script|
  {
    hide Step, Inv;
    if script != [] {
      var (st', e) := Step(cfg, lane, key, st, script[0]);
      StepKeeps(cfg, lane, key, st, script[0]);
      if e.ending.None? {
        NothingSentBefore(cfg, lane, key, st', script[1..], t);
        assert ([e] + RunFrom(cfg, lane, key, st', script[1..]).trace)[1..] == RunFrom(cfg, lane, key, st', script[1..]).trace;
      }
    }
  }

  /** From a state whose clock already reads `t`, the measure bounds the sends at `t`. */
  lemma {:induction false} SendsPaidFor(cfg: Config, lane: string, key: string, st: State, script: seq<Input>)
    requires Inv(st) && DelaysCount(cfg) && CannotSpin(cfg) && AllThrottlesWait(script)
    ensures SendsAt(RunFrom(cfg, lane, key, st, script).trace, st.clock) <= Potential(cfg, lane, st) + 1
    decreases |script|
  {
    hide Step, Inv, DelaysCount, CannotSpin, ThrottlesWait, Potential;
    if script != [] {
      var (st', e) := Step(cfg, lane, key, st, script[0]);
      StepKeeps(cfg, lane, key, st, script[0]);
      if e.ending.None? {
        var rest := RunFrom(cfg, lane, key, st', script[1..]).trace;
        assert ([e] + rest)[1..] == rest;
        if st'.clock == st.clock {
          assert st.(clock := e.now) == st;
          StepPays(cfg, lane, key, st, script[0]);
          SendsPaidFor(cfg, lane, key, st', script[1..]);
        } else {
          NothingSentBefore(cfg, lane, key, st', script[1..], st.clock);
        }
      }
    }
  }

  lemma PotentialBound(cfg: Config, lane: string, st: State)
    ensures Potential(cfg, lane, st) + 1 <= SendBound(cfg, LaneSize(st.accounts, lane))
  {
    TotalBound(cfg, lane, st.accounts, st);
  }

  lemma SamePoolSize(lane: string, before: seq<Account>, after: seq<Account>)
    requires SamePool(lane, before, after)
    ensures LaneSize(after, lane) == LaneSize(before, lane)
  {
    SamePoolMembers(lane, before, after);
  }

  /** No busy loop: whatever the upstream, the clock and the caller do, the iterations that
      read the clock as `t` send at most n*(A+1)+2 requests, so a run that sends more
      than that has waited. */
  lemma {:induction false} NoBusyLoop(cfg: Config, lane: string, key: string, st: State, script: seq<Input>, t: Time)
    requires Inv(st) && DelaysCount(cfg) && CannotSpin(cfg) && AllThrottlesWait(script)
    ensures SendsAt(RunFrom(cfg, lane, key, st, script).trace, t) <= SendBound(cfg, LaneSize(st.accounts, lane))
    decreases |script|
  {
    hide Step, Inv, DelaysCount, CannotSpin, ThrottlesWait, Potential, LaneSize, SendBound, SamePool;
    if t < st.clock {
      NothingSentBefore(cfg, lane, key, st, script, t);
    } else if t == st.clock {
      SendsPaidFor(cfg, lane, key, st, script);
      PotentialBound(cfg, lane, st);
    } else if script != [] {
      var inp := script[0];
      var (st', e) := Step(cfg, lane, key, st, inp);
      StepKeeps(cfg, lane, key, st, inp);
      var rest := RunFrom(cfg, lane, key, st', script[1..]).trace;
      assert ([e] + rest)[1..] == rest;
      if e.ending.Some? {
        SendBoundPositive(cfg, LaneSize(st.accounts, lane));
      } else if e.now == t {
        var at := st.(clock := t);
        PotentialBound(cfg, lane, at);
        if st'.clock == t {
          StepPays(cfg, lane, key, st, inp);
          SendsPaidFor(cfg, lane, key, st', script[1..]);
        } else {
          NothingSentBefore(cfg, lane, key, st', script[1..], t);
          SendBoundPositive(cfg, LaneSize(st.accounts, lane));
        }
      } else {
        NoBusyLoop(cfg, lane, key, st', script[1..], t);
        SamePoolSize(lane, st.accounts, st'.accounts);
      }
    }
  }

  lemma SendBoundPositive(cfg: Config, n: nat)
    ensures SendBound(cfg, n) >= 2
  {}

  // ----- the condition is needed -----

  const FOREVER: Input :=
    Input(false, 0, RenewalFailed(""), 0, Unreachable, RenewalFailed(""), 1.0, 0, false)

  function Repeat(inp: Input, n: nat): (r: seq<Input>)
    ensures |r| == n && forall i :: 0 <= i < n ==> r[i] == inp
  {
    if n == 0 then [] else [inp] + Repeat(inp, n - 1)
  }

  /** A pool of one API key. */
  function Lone(lane: string): Account {
    Account("key", lane, ApiKey, "", 0, true, "", "", 0, "", "k", "")
  }

  function LoneState(lane: string, attempts: nat): State {
    State([Lone(lane)], map[], map[], 1, Progress({}, 0, map[], attempts))
  }

  lemma LoneSelected(cfg: Config, lane: string, key: string, tried: set<string>, attempts: nat)
    requires cfg.rotateAfter == 1 && cfg.parkEnabled
    ensures LaneAccounts([Lone(lane)], lane) == [Lone(lane)]
    ensures SelectionView(cfg, lane, key, LoneState(lane, attempts).(progress := Progress(tried, 0, map[], attempts))).Select()
      == if "key" in tried then None else Some(Lone(lane))
  {
    var a := Lone(lane);
    assert InLane(a, lane);
    assert Filter([a], InLaneTest(lane)) == [a];
    assert Rank([a]) == [a] by { assert Rank([]) == []; assert [a][1..] == []; }
    var v := SelectionView(cfg, lane, key, LoneState(lane, attempts).(progress := Progress(tried, 0, map[], attempts)));
    assert LaneAccounts(v.accounts, lane) == [a];
    assert [a][1..] == [];
    assert v.Usable(a) == ("key" !in tried);
  }

  /** First the lone account is tried and set aside; then a park that need not wait puts
      it back. */
  lemma SpinTwice(cfg: Config, lane: string, key: string, attempts: nat)
    requires cfg.rotateAfter == 1 && cfg.parkEnabled
    ensures var (st1, e1) := Step(cfg, lane, key, LoneState(lane, attempts), FOREVER);
      var (st2, e2) := Step(cfg, lane, key, st1, FOREVER);
      && e1.ending.None? && e1.Sent() && e1.now == 1
      && e2.ending.None? && !e2.Sent() && st2 == LoneState(lane, attempts + 1)
  {
    hide LaneAccounts, View.Select, Backoff;
    var st := LoneState(lane, attempts);
    LoneSelected(cfg, lane, key, {}, attempts);
    LoneSelected(cfg, lane, key, {"key"}, attempts + 1);
    var (st1, e1) := Step(cfg, lane, key, st, FOREVER);
    assert st1 == st.(progress := Progress({"key"}, 0, map[], attempts + 1));
    assert NextRecovery([Lone(lane)], st1.health, 1) == Some(1);
  }

  lemma {:induction false} RunTwice(cfg: Config, lane: string, key: string, st: State, script: seq<Input>)
    requires |script| >= 2
    ensures var (st1, e1) := Step(cfg, lane, key, st, script[0]);
      var (st2, e2) := Step(cfg, lane, key, st1, script[1]);
      e1.ending.None? && e2.ending.None? ==>
        RunFrom(cfg, lane, key, st, script).trace == [e1, e2] + RunFrom(cfg, lane, key, st2, script[2..]).trace
  {
    hide Step;
    assert script[1..][0] == script[1] && script[1..][1..] == script[2..];
    var st1 := Step(cfg, lane, key, st, script[0]).0;
    assert RunFrom(cfg, lane, key, st1, script[1..]).trace == RunFrom(cfg, lane, key, st1, script[1..]).trace;
  }

  lemma {:induction false} SendsAtTwo(e1: Effect, e2: Effect, rest: seq<Effect>, t: Time)
    ensures SendsAt([e1, e2] + rest, t)
      == (if e1.Sent() && e1.now == t then 1 else 0) + (if e2.Sent() && e2.now == t then 1 else 0) + SendsAt(rest, t)
  {
    assert ([e1, e2] + rest)[1..] == [e2] + rest && ([e2] + rest)[1..] == rest;
  }

  /** With `RotateAfter == 1` and parking on, an unreachable upstream is retried without
      bound and without ever waiting. */
  lemma {:induction false} RotateAfterOneSpins(cfg: Config, lane: string, key: string, n: nat, attempts: nat)
    requires cfg.Valid() && cfg.rotateAfter == 1 && cfg.parkEnabled
    ensures SendsAt(RunFrom(cfg, lane, key, LoneState(lane, attempts), Repeat(FOREVER, 2 * n)).trace, 1) == n
    decreases n
  {
    hide Step, LoneState;
    var st := LoneState(lane, attempts);
    var script := Repeat(FOREVER, 2 * n);
    if n > 0 {
      var (st1, e1) := Step(cfg, lane, key, st, FOREVER);
      var (st2, e2) := Step(cfg, lane, key, st1, FOREVER);
      SpinTwice(cfg, lane, key, attempts);
      RunTwice(cfg, lane, key, st, script);
      assert script[2..] == Repeat(FOREVER, 2 * (n - 1));
      RotateAfterOneSpins(cfg, lane, key, n - 1, attempts + 1);
      SendsAtTwo(e1, e2, RunFrom(cfg, lane, key, st2, script[2..]).trace, 1);
    }
  }

  ghost predicate SendsBounded(cfg: Config, lane: string, key: string, st: State, script: seq<Input>, t: Time) {
    SendsAt(RunFrom(cfg, lane, key, st, script).trace, t) <= SendBound(cfg, LaneSize(st.accounts, lane))
  }

  /** The configuration condition is exact. */
  lemma NoBusyLoopExactly(cfg: Config, lane: string, key: string)
    requires DelaysCount(cfg)
    ensures CannotSpin(cfg) <==>
      forall st, script, t :: Inv(st) && AllThrottlesWait(script) ==> SendsBounded(cfg, lane, key, st, script, t)
  {
    if CannotSpin(cfg) {
      forall st, script, t | Inv(st) && AllThrottlesWait(script) ensures SendsBounded(cfg, lane, key, st, script, t) {
        NoBusyLoop(cfg, lane, key, st, script, t);
      }
    } else {
      var st := LoneState(lane, 0);
      var n := SendBound(cfg, LaneSize(st.accounts, lane)) + 1;
      RotateAfterOneSpins(cfg, lane, key, n, 0);
      assert Inv(st) && AllThrottlesWait(Repeat(FOREVER, 2 * n));
      assert !SendsBounded(cfg, lane, key, st, Repeat(FOREVER, 2 * n), 1);
    }
  }

  // ----- and so is a wait in every throttle -----

  const HOLD: Input := FOREVER.(reply := Response([], Throttled(0, "")))

  /** One API key that can be used at once, whatever else is known of it. */
  predicate LoneReady(lane: string, st: State) {
    && st.accounts == [Lone(lane)] && st.sticky == map[] && st.clock == 1 && st.progress.tried == {}
    && HealthOf(st.health, "key").AvailableAt(1)
  }

  lemma {:induction false} LoneReadyPicked(cfg: Config, lane: string, key: string, st: State)
    requires LoneReady(lane, st)
    ensures SelectionView(cfg, lane, key, st).Select() == Some(Lone(lane))
  {
    var a, v := Lone(lane), SelectionView(cfg, lane, key, st);
    assert a in v.accounts && InLane(a, lane);
    assert v.Eligible(a);
    SelectIsChoice(v);
  }

  /** The account is used, told to hold for no time at all, and is ready again. */
  lemma {:induction false} HeldForNoTime(cfg: Config, lane: string, key: string, st: State)
    requires LoneReady(lane, st)
    ensures var (st', e) := Step(cfg, lane, key, st, HOLD);
      e.ending.None? && e.Sent() && e.now == 1 && LoneReady(lane, st')
  {
    hide View.Select;
    LoneReadyPicked(cfg, lane, key, st);
    assert st.(clock := st.clock + HOLD.tick) == st;
  }

  lemma {:induction false} HoldSpins(cfg: Config, lane: string, key: string, st: State, n: nat)
    requires LoneReady(lane, st)
    ensures SendsAt(RunFrom(cfg, lane, key, st, Repeat(HOLD, n)).trace, 1) == n
    decreases n
  {
    hide Step, LoneReady;
    if n > 0 {
      HeldForNoTime(cfg, lane, key, st);
      var (st', e) := Step(cfg, lane, key, st, HOLD);
      var script := Repeat(HOLD, n);
      assert script[1..] == Repeat(HOLD, n - 1);
      HoldSpins(cfg, lane, key, st', n - 1);
      var rest := RunFrom(cfg, lane, key, st', script[1..]).trace;
      assert ([e] + rest)[1..] == rest;
    }
  }

  /** Under no configuration is there a bound once a throttle may name no wait. */
  lemma {:induction false} ThrottlesMustWait(cfg: Config, lane: string, key: string)
    ensures exists st, script, t :: Inv(st) && !AllThrottlesWait(script) && !SendsBounded(cfg, lane, key, st, script, t)
  {
    var st := LoneState(lane, 0);
    var n := SendBound(cfg, LaneSize(st.accounts, lane)) + 1;
    HoldSpins(cfg, lane, key, st, n);
    assert !ThrottlesWait(Repeat(HOLD, n)[0]);
    assert Inv(st) && !AllThrottlesWait(Repeat(HOLD, n));
    assert !SendsBounded(cfg, lane, key, st, Repeat(HOLD, n), 1);
  }

  // ----- and so is a delay that jitter cannot truncate to nothing -----

  const BUSY: Input := FOREVER.(reply := Response([], Overloaded("")), jitter := 0.5)

  /** With a cap of one nanosecond an overloaded upstream is asked again at once. */
  lemma {:induction false} RetriedAtOnce(cfg: Config, lane: string, key: string, st: State)
    requires cfg.Valid() && cfg.overloadMax == 1 && LoneReady(lane, st)
    ensures var (st', e) := Step(cfg, lane, key, st, BUSY);
      e.ending.None? && e.Sent() && e.now == 1 && LoneReady(lane, st')
  {
    hide View.Select;
    LoneReadyPicked(cfg, lane, key, st);
    assert st.(clock := st.clock + BUSY.tick) == st;
    LoneLane(lane);
    NoDelay(cfg, st.progress.streak + 1);
  }

  lemma {:induction false} LoneLane(lane: string)
    ensures |LaneAccounts([Lone(lane)], lane)| == 1
  {
    var a := Lone(lane);
    assert InLane(a, lane);
    assert Filter([a], InLaneTest(lane)) == [a];
    assert Rank([a]) == [a] by { assert Rank([]) == []; assert [a][1..] == []; }
  }

  lemma {:induction false} NoDelay(cfg: Config, attempt: int)
    requires cfg.Valid() && cfg.overloadMax == 1
    ensures Backoff(cfg, attempt, 0.5) == 0
  {
    BaseWithinCap(cfg, attempt);
    WithinLimit(BackoffBase(cfg, attempt));
  }

  lemma {:induction false} WithinLimit(d: int)
    requires 0 <= d <= 1
    ensures Jittered(d, 0.5) == 0
  {
    if d == 0 { assert d as real * 0.5 == 0.0; } else { assert d as real * 0.5 == 0.5; }
  }

  lemma {:induction false} BusySpins(cfg: Config, lane: string, key: string, st: State, n: nat)
    requires cfg.Valid() && cfg.overloadMax == 1 && LoneReady(lane, st)
    ensures SendsAt(RunFrom(cfg, lane, key, st, Repeat(BUSY, n)).trace, 1) == n
    decreases n
  {
    hide Step, LoneReady;
    if n > 0 {
      RetriedAtOnce(cfg, lane, key, st);
      var (st', e) := Step(cfg, lane, key, st, BUSY);
      var script := Repeat(BUSY, n);
      assert script[1..] == Repeat(BUSY, n - 1);
      BusySpins(cfg, lane, key, st', n - 1);
      var rest := RunFrom(cfg, lane, key, st', script[1..]).trace;
      assert ([e] + rest)[1..] == rest;
    }
  }

  /** With delays capped at one nanosecond there is no bound, whatever else is configured and though no throttle is involved. */
  lemma {:induction false} DelaysMustCount(cfg: Config, lane: string, key: string)
    requires cfg.Valid() && cfg.overloadMax == 1
    ensures exists st, script, t :: Inv(st) && AllThrottlesWait(script) && !SendsBounded(cfg, lane, key, st, script, t)
  {
    var st := LoneState(lane, 0);
    var n := SendBound(cfg, LaneSize(st.accounts, lane)) + 1;
    BusySpins(cfg, lane, key, st, n);
    assert Inv(st) && AllThrottlesWait(Repeat(BUSY, n));
    assert !SendsBounded(cfg, lane, key, st, Repeat(BUSY, n), 1);
  }
}
