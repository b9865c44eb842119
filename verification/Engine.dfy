/** The retry loop as the engine runs it: one object whose fields the loop updates in place
    (internal/engine/engine.go, select.go).  Every method is tied to the step function, so
    what is proved about runs holds of this code. */
module Engine {
  import opened Basics
  import opened Selection
  import Spec = EngineRun
  import opened EngineRun
  import opened EngineTheorems

  class Executor {
    const cfg: Config
    const lane: string
    const key: string

    // The store and the clock.
    var accounts: seq<Account>
    var health: HealthMap
    var sticky: map<string, StickyEntry>
    var clock: Time

    // What one request remembers.
    var tried: set<string>
    var overloadStreak: int
    var authAttempts: map<string, nat>
    var attempts: nat

    function State(): Spec.State
      reads this
    {
      Spec.State(accounts, health, sticky, clock, Progress(tried, overloadStreak, authAttempts, attempts))
    }

    constructor (cfg: Config, lane: string, key: string, accounts: seq<Account>, health: HealthMap,
                 sticky: map<string, StickyEntry>, clock: Time)
      ensures this.cfg == cfg && this.lane == lane && this.key == key
      ensures State() == Start(accounts, health, sticky, clock)
    {
      this.cfg, this.lane, this.key := cfg, lane, key;
      this.accounts, this.health, this.sticky, this.clock := accounts, health, sticky, clock;
      tried, overloadStreak, authAttempts, attempts := {}, 0, map[], 0;
    }

    // ----- the store -----

    /** Enabled, problem-free accounts of the lane in the order they are preferred. */
    method Accounts() returns (out: seq<Account>)
      ensures out == LaneAccounts(accounts, lane)
    {
      FilterNil(InLaneTest(lane));
      hide Filter, InLane;
      out := [];
      for i := 0 to |accounts|
        invariant out == Filter(accounts[..i], InLaneTest(lane))
      {
        assert accounts[..i + 1] == accounts[..i] + [accounts[i]];
        FilterSnoc(accounts[..i], accounts[i], InLaneTest(lane));
        if InLane(accounts[i], lane) { out := out + [accounts[i]]; }
      }
      assert accounts[..|accounts|] == accounts;
      out := Rank(out);
    }

    // ----- selection -----

    method IsDrained(h: Health, now: Time) returns (drained: bool)
      ensures drained <==> Drained(h, cfg.rotation.drainAbove, now)
    {
      for i := 0 to |h.windows|
        invariant forall k :: 0 <= k < i ==>
          h.windows[k].utilization < cfg.rotation.drainAbove
          || (h.windows[k].resetAt != 0 && now >= h.windows[k].resetAt)
      {
        var w := h.windows[i];
        if w.utilization < cfg.rotation.drainAbove { continue; }
        if w.resetAt != 0 && now >= w.resetAt { continue; }
        assert w in h.windows;
        return true;
      }
      return false;
    }

    /** The account to try next: `None` when every account is spent or was tried this round. */
    method SelectAccount() returns (r: Option<Account>)
      ensures r == SelectionView(cfg, lane, key, State()).Select()
    {
      hide Filter, Drained, InLane, LaneAccounts;
      ghost var v := SelectionView(cfg, lane, key, State());
      FilterNil(v.UsableTest());
      FilterNil(v.FreshTest());
      var all := Accounts();
      var usable: seq<Account> := [];
      for i := 0 to |all|
        invariant usable == Filter(all[..i], v.UsableTest())
      {
        assert all[..i + 1] == all[..i] + [all[i]];
        FilterSnoc(all[..i], all[i], v.UsableTest());
        if all[i].id in tried { continue; }
        if !HealthOf(health, all[i].id).AvailableAt(clock) { continue; }
        usable := usable + [all[i]];
      }
      assert all[..|all|] == all;
      if usable == [] {
        assert v.UsableList() == [];
        return None;
      }

      var pool: seq<Account> := [];
      for i := 0 to |usable|
        invariant pool == Filter(usable[..i], v.FreshTest())
      {
        assert usable[..i + 1] == usable[..i] + [usable[i]];
        FilterSnoc(usable[..i], usable[i], v.FreshTest());
        var drained := IsDrained(HealthOf(health, usable[i].id), clock);
        if !drained { pool := pool + [usable[i]]; }
      }
      assert usable[..|usable|] == usable;
      if pool == [] { pool := usable; }
      assert pool == v.PoolList();

      if cfg.rotation.sticky {
        var preferred := StickyGet(sticky, cfg.rotation.stickyTtl, key, clock);
        if preferred.Some? {
          for i := 0 to |pool|
            invariant FirstWithId(pool, preferred.value) == FirstWithId(pool[i..], preferred.value)
          {
            if pool[i].id == preferred.value { return Some(pool[i]); }
            assert pool[i..][1..] == pool[i + 1..];
          }
          assert pool[|pool|..] == [];
        }
      }
      return Some(pool[0]);
    }

    /** The soonest any account of the lane recovers, if waiting can help at all. */
    method NextAvailable() returns (best: Option<Time>)
      requires clock > 0
      ensures best == NextRecovery(LaneAccounts(accounts, lane), health, clock)
    {
      hide LaneAccounts, HealthOf;
      var all := Accounts();
      best := None;
      for i := 0 to |all|
        invariant best.Some? ==> best.value > clock
        invariant NextRecovery(all, health, clock) == Sooner(best, NextRecovery(all[i..], health, clock))
      {
        var h := HealthOf(health, all[i].id);
        RecoveryNotPast(all[i..][1..], health, clock);
        assert all[i..][1..] == all[i + 1..];
        if h.AvailableAt(clock) { return Some(clock); }
        var t := h.NextAvailable(clock);
        if t == 0 { continue; }
        if best.None? || t < best.value { best := Some(t); }
      }
      assert all[|all|..] == [];
    }

    // ----- health -----

    method MarkInvalid(id: string, why: string)
      modifies `health
      ensures State() == Spec.MarkInvalid(old(State()), id, why)
    {
      var h := HealthOf(health, id);
      health := health[id := h.(state := Invalid, consecFails := h.consecFails + 1, lastError := why)];
    }

    method MarkCooling(id: string, until: Time, why: string)
      modifies `health
      ensures State() == Spec.MarkCooling(old(State()), id, until, why)
    {
      health := health[id := HealthOf(health, id).(state := Cooling, until := until, lastError := why)];
    }

    method MarkExhausted(id: string, resetAt: Time, why: string)
      modifies `health
      ensures State() == Spec.MarkExhausted(old(State()), id, resetAt, why)
    {
      var reset := resetAt;
      if resetAt <= clock { reset := clock + MIN_COOLDOWN; }
      var h := HealthOf(health, id);
      health := health[id := h.(state := Exhausted, resetAt := reset, rotations := h.rotations + 1, lastError := why)];
    }

    method MarkSuccess(id: string)
      modifies `health, `sticky
      ensures State() == Spec.MarkSuccess(cfg, key, old(State()), id)
    {
      sticky := StickySet(sticky, cfg.rotation.stickyTtl, key, id, clock);
      var h := HealthOf(health, id);
      health := health[id := h.(state := Available, lastUsed := clock, requests := h.requests + 1, consecFails := 0, lastError := "")];
    }

    // ----- waiting -----

    /** Exponential backoff, jittered after the cap. */
    method BackoffDelay(attempt: int, jitter: Jitter) returns (d: int)
      requires cfg.Valid()
      ensures d == Backoff(cfg, attempt, jitter)
      ensures 0 <= d && d as real < 1.5 * cfg.overloadMax as real
    {
      hide Doubled, Jittered;
      DoubledMonotone(cfg.overloadInitial, 0, 0);
      DoubledOnce(cfg.overloadInitial);
      var n := if attempt < 1 then 1 else attempt;
      d := cfg.overloadInitial;
      var i := 1;
      while i < n && d < cfg.overloadMax
        invariant 1 <= i <= n && d == Doubled(cfg.overloadInitial, i - 1) && d > 0
      {
        DoubledAgain(cfg.overloadInitial, i);
        d := d * 2;
        i := i + 1;
      }
      if i < n { DoubledMonotone(cfg.overloadInitial, i - 1, n - 1); }
      if d > cfg.overloadMax { d := cfg.overloadMax; }
      assert d == BackoffBase(cfg, attempt);
      JitteredBound(d, jitter, cfg.overloadMax);
      d := Jittered(d, jitter);
    }

    method Wait(d: int, inp: Input, ghost e: Effect) returns (ok: bool, ghost e': Effect)
      requires e.ending.None?
      modifies `clock
      ensures (State(), e') == Sleep(old(State()), e, d, inp)
      ensures ok <==> e'.ending.None?
      ensures !ok ==> e'.ending == Some(Cancelled)
    {
      e' := e.(slept := Some(d));
      if d <= 0 { return true, e'; }
      if inp.aborted { return false, e'.(ending := Some(Cancelled)); }
      clock := clock + d + inp.oversleep;
      return true, e';
    }

    /** Explains why a lane that has accounts could not serve the request. */
    method WhyUnusable() returns (ending: Ending)
      ensures ending == Unusable(lane, State())
    {
      hide LaneAccounts;
      var all := Accounts();
      var rejected: seq<Rejected> := [];
      for i := 0 to |all|
        invariant rejected == RejectedList(all[..i], health)
      {
        hide RejectedList;
        assert all[..i + 1] == all[..i] + [all[i]];
        RejectedSnoc(all[..i], all[i], health);
        var h := HealthOf(health, all[i].id);
        if h.state.Invalid? {
          rejected := rejected + [Entry(all[i], h)];
        }
      }
      assert all[..|all|] == all;
      if |rejected| > 0 { return CredentialsRejected(rejected); }
      return NoAccounts;
    }

    method ParkRequest(inp: Input, ghost e: Effect) returns (ending: Option<Ending>, ghost e': Effect)
      requires e.ending.None? && clock > 0
      modifies `clock, `tried, `overloadStreak
      ensures (State(), e') == Park(cfg, lane, old(State()), e, inp) && e'.ending == ending
    {
      hide LaneAccounts, NextRecovery, RejectedList;
      e' := e;
      var until := NextAvailable();
      if until.None? || !cfg.parkEnabled {
        var why := WhyUnusable();
        return Some(why), Ended(e, why);
      }
      var wait := until.value - clock;
      var allowance := cfg.parkBuffer;
      if allowance > wait { allowance := wait; }
      if allowance < 0 { allowance := 0; }
      var deadline := until.value + allowance;
      var d := deadline - clock;
      if d > 0 {
        if d > cfg.maxHold { return Some(ParkTooLong(deadline)), Ended(e, ParkTooLong(deadline)); }
        var ok;
        ok, e' := Wait(d, inp, e.(parked := true));
        if !ok { return Some(Cancelled), e'; }
      } else {
        e' := e.(parked := true);
      }
      tried, overloadStreak := {}, 0;
      return None, e';
    }

    // ----- one attempt -----

    method Renew(id: string, t: Renewal)
      requires t.Renewed?
      modifies `accounts
      ensures State() == old(State()).(accounts := RenewIn(old(accounts), id, t))
    {
      var i := 0;
      while i < |accounts|
        invariant 0 <= i <= |accounts| == |old(accounts)|
        invariant forall k :: i <= k < |accounts| ==> accounts[k] == old(accounts)[k]
        invariant forall k :: 0 <= k < i ==>
          accounts[k] == if old(accounts)[k].id == id
                         then old(accounts)[k].Renewed(t.access, t.refresh, t.expiresAt) else old(accounts)[k]
      {
        if accounts[i].id == id {
          accounts := accounts[i := accounts[i].Renewed(t.access, t.refresh, t.expiresAt)];
        }
        i := i + 1;
      }
      assert accounts == RenewIn(old(accounts), id, t);
    }

    method OnRefusal(a: Account, reason: string, inp: Input, ghost e: Effect)
      returns (ending: Option<Ending>, ghost e': Effect)
      requires e.ending.None?
      modifies `accounts, `health, `tried, `authAttempts
      ensures (State(), e') == HandleRefusal(cfg, old(State()), a, reason, e, inp) && e'.ending == ending
    {
      if !a.kind.OAuth? {
        MarkInvalid(a.id, reason);
        tried := tried + {a.id};
        return None, e;
      }
      authAttempts := authAttempts[a.id := (if a.id in authAttempts then authAttempts[a.id] else 0) + 1];
      if authAttempts[a.id] > cfg.authRefreshAttempts {
        MarkInvalid(a.id, reason);
        tried := tried + {a.id};
        return None, e;
      }
      match inp.renewal
      case Renewed(_, _, _) =>
        Renew(a.id, inp.renewal);
        return None, e;
      case RenewalFailed(why) =>
        if inp.aborted { return Some(Cancelled), Ended(e, Cancelled); }
        MarkInvalid(a.id, reason + "; renewing it failed: " + why);
        tried := tried + {a.id};
        return None, e;
    }

    method OnOverload(mayRotate: bool, a: Account, inp: Input, ghost e: Effect)
      returns (ending: Option<Ending>, ghost e': Effect)
      requires e.ending.None? && cfg.Valid()
      modifies `clock, `tried, `overloadStreak
      ensures (State(), e') == HandleOverload(cfg, mayRotate, old(State()), a, e, inp) && e'.ending == ending
    {
      overloadStreak := overloadStreak + 1;
      if overloadStreak >= cfg.rotateAfter && mayRotate {
        tried, overloadStreak := tried + {a.id}, 0;
        return None, e;
      }
      var d := BackoffDelay(overloadStreak, inp.jitter);
      var ok;
      ok, e' := Wait(d, inp, e);
      ending := if ok then None else Some(Cancelled);
    }

    method OnReply(a: Account, now: Time, inp: Input, ghost e: Effect)
      returns (ending: Option<Ending>, ghost e': Effect)
      requires e.ending.None? && cfg.Valid()
      modifies this
      ensures (State(), e') == HandleReply(cfg, lane, key, old(State()), a, now, e, inp) && e'.ending == ending
    {
      hide HandleRefusal, HandleOverload, LaneAccounts, StickySet, RenewIn, HealthOf;
      match inp.reply
      case Unreachable =>
        if inp.aborted { return Some(Cancelled), Ended(e, Cancelled); }
        ending, e' := OnOverload(true, a, inp, e);
      case Response(windows, outcome) =>
        if windows != [] { health := health[a.id := HealthOf(health, a.id).(windows := windows)]; }
        match outcome {
          case Relay =>
            MarkSuccess(a.id);
            return Some(Served(a, attempts)), Ended(e, Served(a, attempts));
          case Fatal => return Some(HandedBack(a, attempts)), Ended(e, HandedBack(a, attempts));
          case RefreshAuth(reason) => ending, e' := OnRefusal(a, reason, inp, e);
          case Overloaded(_) =>
            var all := Accounts();
            ending, e' := OnOverload(|all| > 1, a, inp, e);
          case Throttled(retryAfter, reason) =>
            MarkCooling(a.id, now + retryAfter, reason);
            var ok;
            ok, e' := Wait(retryAfter, inp, e);
            ending := if ok then None else Some(Cancelled);
          case Rotate(resetAt, reason) =>
            MarkExhausted(a.id, resetAt, reason);
            tried, overloadStreak := tried + {a.id}, 0;
            return None, e;
          case Unhandled => return Some(UnhandledOutcome), Ended(e, UnhandledOutcome);
        }
    }

    method TryAccount(a: Account, inp: Input, ghost e: Effect) returns (ending: Option<Ending>, ghost e': Effect)
      requires e.ending.None? && cfg.Valid()
      modifies this
      ensures (State(), e') == Attempt(cfg, lane, key, old(State()), a, e, inp) && e'.ending == ending
    {
      hide HandleReply, RenewIn, Account.Renewed;
      attempts := attempts + 1;
      var now := clock;
      var acct := a;
      if a.TokenExpiredAt(now, REFRESH_SKEW) {
        match inp.freshen
        case RenewalFailed(why) =>
          if inp.aborted { return Some(Cancelled), Ended(e.(picked := Some(a)), Cancelled); }
          MarkInvalid(a.id, why);
          tried := tried + {a.id};
          return None, e.(picked := Some(a));
        case Renewed(access, refresh, expiresAt) =>
          Renew(a.id, inp.freshen);
          acct := a.Renewed(access, refresh, expiresAt);
      }
      clock := clock + inp.lag;
      ending, e' := OnReply(acct, now, inp, e.(picked := Some(a), reply := Some(inp.reply), heard := now + inp.lag));
    }

    // ----- the loop -----

    /** Sends the request against the pool until there is something worth returning.  The
        trace and the state it leaves are those of the run of `script`; a script that runs
        out is a caller that went away. */
    method Execute(lanes: set<string>, script: seq<Input>) returns (ending: Ending, ghost trace: seq<Effect>)
      requires cfg.Valid() && Inv(State())
      requires State() == Start(accounts, health, sticky, clock)
      modifies this
      ensures lane !in lanes ==> ending == UnknownLane && trace == [] && State() == old(State())
      ensures lane in lanes && LaneAccounts(old(accounts), lane) == [] ==>
        ending == NoAccounts && trace == [] && State() == old(State())
      ensures lane in lanes && LaneAccounts(old(accounts), lane) != [] ==>
        var r := RunFrom(cfg, lane, key, old(State()), script);
        && trace == r.trace && State() == r.last
        && ending == if r.Over() then trace[|trace|-1].ending.value else Cancelled
    {
      hide Attempt, Park, View.Select, LaneAccounts, UniqueIds, SamePool, OnlyTouches, View.Eligible, RunFrom;
      trace := [];
      if lane !in lanes { return UnknownLane, trace; }
      var all := Accounts();
      if |all| == 0 { return NoAccounts, trace; }
      ghost var start := State();
      assert script[0..] == script;
      AfterNothing(RunFrom(cfg, lane, key, start, script));
      for n := 0 to |script|
        invariant Inv(State())
        invariant RunFrom(cfg, lane, key, start, script) == RunFrom(cfg, lane, key, State(), script[n..]).After(trace)
        invariant trace != [] ==> trace[|trace|-1].ending.None?
      {
        var inp := script[n];
        ghost var before := State();
        ghost var step := Step(cfg, lane, key, before, inp);
        assert script[n..][0] == inp && script[n..][1..] == script[n + 1..];
        AfterStep(cfg, lane, key, before, script[n..], trace);
        StepKeeps(cfg, lane, key, before, inp);
        if inp.cancelled {
          trace := trace + [step.1];
          return Cancelled, trace;
        }
        clock := clock + inp.tick;
        ghost var e := Effect(clock, None, None, clock, None, false, None);
        var acct := SelectAccount();
        var done: Option<Ending>;
        match acct {
          case None => done, e := ParkRequest(inp, e);
          case Some(a) => done, e := TryAccount(a, inp, e);
        }
        assert (State(), e) == step;
        trace := trace + [e];
        if done.Some? { return done.value, trace; }
      }
      assert script[|script|..] == [];
      RunNothing(cfg, lane, key, State());
      return Cancelled, trace;
    }
  }

  // ----- facts the methods use -----

  lemma FilterNil(keep: Account -> bool)
    ensures Filter([], keep) == []
  {}

  lemma {:induction false} RejectedSnoc(s: seq<Account>, a: Account, health: HealthMap)
    ensures RejectedList(s + [a], health)
      == RejectedList(s, health) + (if HealthOf(health, a.id).state.Invalid? then [Entry(a, HealthOf(health, a.id))] else [])
  {
    hide HealthOf, Entry;
    var last := if HealthOf(health, a.id).state.Invalid? then [Entry(a, HealthOf(health, a.id))] else [];
    if s == [] {
      assert s + [a] == [a] && [a][1..] == [];
      assert last + [] == [] + last == last;
    } else {
      assert (s + [a])[1..] == s[1..] + [a] && (s + [a])[0] == s[0];
      RejectedSnoc(s[1..], a, health);
      var h := HealthOf(health, s[0].id);
      var one := if h.state.Invalid? then [Entry(s[0], h)] else [];
      assert one + (RejectedList(s[1..], health) + last) == (one + RejectedList(s[1..], health)) + last;
    }
  }

  function Sooner(a: Option<Time>, b: Option<Time>): Option<Time> {
    if a.None? then b else if b.None? then a else Some(Min(a.value, b.value))
  }

  lemma {:induction false} RecoveryNotPast(s: seq<Account>, health: HealthMap, now: Time)
    requires now > 0
    ensures NextRecovery(s, health, now).Some? ==> NextRecovery(s, health, now).value >= now
  {
    if s != [] { RecoveryNotPast(s[1..], health, now); }
  }

  lemma DoubledOnce(initial: int)
    ensures Doubled(initial, 0) == initial
  {}

  lemma AfterNothing(r: Run)
    ensures r.After([]) == r
  {
    assert [] + r.trace == r.trace;
  }

  lemma {:induction false} RunNothing(cfg: Config, lane: string, key: string, st: Spec.State)
    ensures RunFrom(cfg, lane, key, st, []) == Run([], st)
  {}

  lemma {:induction false} AfterStep(cfg: Config, lane: string, key: string, st: Spec.State, script: seq<Input>, trace: seq<Effect>)
    requires script != []
    ensures var (st', e) := Step(cfg, lane, key, st, script[0]);
      RunFrom(cfg, lane, key, st, script).After(trace)
        == if e.ending.Some? then Run(trace + [e], st') else RunFrom(cfg, lane, key, st', script[1..]).After(trace + [e])
  {
    hide Step;
    var (st', e) := Step(cfg, lane, key, st, script[0]);
    var rest := RunFrom(cfg, lane, key, st', script[1..]);
    assert trace + ([e] + rest.trace) == (trace + [e]) + rest.trace;
  }
}
