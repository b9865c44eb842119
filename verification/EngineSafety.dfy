/** Parking makes progress, errors are only reported when they are true, and an account
    that was refused is left alone (internal/engine/engine.go:287-439, 550-568). */
module EngineSafety {
  import opened Basics
  import opened Selection
  import opened EngineRun
  import opened EngineTheorems

  ghost predicate NoneAvailable(st: State, lane: string) {
    forall a :: a in LaneAccounts(st.accounts, lane) ==> !AvailableIn(st, a.id)
  }

  /** `t` is when the first of the lane's accounts recovers, none being available now. */
  ghost predicate EarliestRecovery(st: State, lane: string, t: Time) {
    && t > st.clock
    && (exists a :: a in LaneAccounts(st.accounts, lane) && HealthOf(st.health, a.id).AvailableAt(t))
    && forall a, u {:trigger HealthOf(st.health, a.id).AvailableAt(u)} ::
         a in LaneAccounts(st.accounts, lane) && st.clock <= u < t ==> !HealthOf(st.health, a.id).AvailableAt(u)
  }

  ghost predicate AllInvalid(st: State, lane: string) {
    forall a :: a in LaneAccounts(st.accounts, lane) ==> HealthOf(st.health, a.id).state.Invalid?
  }

  // ----- the soonest recovery -----

  lemma RecoversAt(h: Health, now: Time)
    requires now > 0 && !h.AvailableAt(now)
    ensures h.state.Invalid? <==> h.NextAvailable(now) == 0
    ensures h.NextAvailable(now) != 0 ==> h.NextAvailable(now) > now
    ensures h.NextAvailable(now) != 0 ==> forall u :: h.AvailableAt(u) <==> u >= h.NextAvailable(now)
  {}

  lemma {:induction false} NextRecoveryExact(s: seq<Account>, health: HealthMap, now: Time)
    requires now > 0
    ensures var r := NextRecovery(s, health, now);
      && (r.None? <==> forall a :: a in s ==> HealthOf(health, a.id).state.Invalid?)
      && (r.Some? ==> r.value >= now && exists a :: a in s && HealthOf(health, a.id).AvailableAt(r.value))
      && (r.Some? ==> forall a, u {:trigger HealthOf(health, a.id).AvailableAt(u)} ::
            a in s && now <= u < r.value ==> !HealthOf(health, a.id).AvailableAt(u))
  {
    if s != [] {
      NextRecoveryExact(s[1..], health, now);
      var h := HealthOf(health, s[0].id);
      var r := NextRecovery(s, health, now);
      var rest := NextRecovery(s[1..], health, now);
      assert forall a :: a in s <==> a == s[0] || a in s[1..];
      if !h.AvailableAt(now) {
        RecoversAt(h, now);
        if r.Some? {
          if r == rest {
            var a :| a in s[1..] && HealthOf(health, a.id).AvailableAt(rest.value);
            assert a in s;
          } else {
            assert s[0] in s && h.AvailableAt(r.value);
          }
        }
      } else {
        assert s[0] in s;
      }
    }
  }

  function InvalidTest(health: HealthMap): Account -> bool {
    (a: Account) => HealthOf(health, a.id).state.Invalid?
  }

  function InvalidOnes(s: seq<Account>, health: HealthMap): seq<Account> {
    Filter(s, InvalidTest(health))
  }

  /** `rejected` reports exactly the invalid accounts of `s`, in order, each with the
      reason its health recorded, its name, and whether a new login can do without a new key. */
  ghost predicate Reports(rejected: seq<Rejected>, s: seq<Account>, health: HealthMap) {
    var bad := InvalidOnes(s, health);
    && |rejected| == |bad|
    && forall i :: 0 <= i < |bad| ==>
      && rejected[i].id == bad[i].id && rejected[i].reason == HealthOf(health, bad[i].id).lastError
      && rejected[i].kind == bad[i].kind && (rejected[i].renewable <==> bad[i].refreshToken != "")
      && (if bad[i].display == "" then rejected[i].display == bad[i].id else rejected[i].display == bad[i].display)
  }

  lemma {:induction false} OneMoreReported(s: seq<Account>, health: HealthMap)
    requires s != [] && HealthOf(health, s[0].id).state.Invalid? && Reports(RejectedList(s[1..], health), s[1..], health)
    ensures Reports(RejectedList(s, health), s, health)
  {
    var bad, told := InvalidOnes(s[1..], health), RejectedList(s[1..], health);
    var x := Entry(s[0], HealthOf(health, s[0].id));
    assert InvalidOnes(s, health) == [s[0]] + bad && RejectedList(s, health) == [x] + told;
    assert forall i :: 0 < i <= |bad| ==> ([s[0]] + bad)[i] == bad[i - 1] && ([x] + told)[i] == told[i - 1];
  }

  lemma {:induction false} NoneMoreReported(s: seq<Account>, health: HealthMap)
    requires s != [] && !HealthOf(health, s[0].id).state.Invalid? && Reports(RejectedList(s[1..], health), s[1..], health)
    ensures Reports(RejectedList(s, health), s, health)
  {
    assert InvalidOnes(s, health) == InvalidOnes(s[1..], health);
    assert RejectedList(s, health) == RejectedList(s[1..], health);
  }

  lemma {:induction false} EachInvalidReported(s: seq<Account>, health: HealthMap)
    ensures Reports(RejectedList(s, health), s, health)
  {
    if s != [] {
      EachInvalidReported(s[1..], health);
      if HealthOf(health, s[0].id).state.Invalid? { OneMoreReported(s, health); } else { NoneMoreReported(s, health); }
    }
  }

  lemma {:induction false} AllInvalidKept(s: seq<Account>, health: HealthMap)
    requires forall a :: a in s ==> HealthOf(health, a.id).state.Invalid?
    ensures InvalidOnes(s, health) == s
  {
    if s != [] {
      assert s[0] in s && forall a :: a in s[1..] ==> a in s;
      AllInvalidKept(s[1..], health);
      assert InvalidOnes(s, health) == [s[0]] + InvalidOnes(s[1..], health);
    }
  }

  lemma {:induction false} RejectedExact(s: seq<Account>, health: HealthMap)
    ensures Reports(RejectedList(s, health), s, health)
    ensures InvalidOnes(s, health) == [] <==> forall a :: a in s ==> !HealthOf(health, a.id).state.Invalid?
    ensures (forall a :: a in s ==> HealthOf(health, a.id).state.Invalid?) ==> InvalidOnes(s, health) == s
  {
    EachInvalidReported(s, health);
    var bad := InvalidOnes(s, health);
    if bad != [] { assert bad[0] in bad; }
    if forall a :: a in s ==> HealthOf(health, a.id).state.Invalid? { AllInvalidKept(s, health); }
  }

  // ----- parking -----

  /** What one park decides. */
  ghost predicate ParkDecision(cfg: Config, lane: string, st: State, e: Effect) {
    match e.ending
    case Some(ParkTooLong(until)) =>
      && cfg.parkEnabled && NoneAvailable(st, lane) && !e.parked
      && exists t :: EarliestRecovery(st, lane, t)
           && until == t + SkewAllowance(cfg, t - st.clock) && until - st.clock > cfg.maxHold
    case Some(CredentialsRejected(rejected)) =>
      && !e.parked && rejected != [] && Reports(rejected, LaneAccounts(st.accounts, lane), st.health)
      && (cfg.parkEnabled ==> AllInvalid(st, lane) && |rejected| == |LaneAccounts(st.accounts, lane)|)
    case Some(NoAccounts) => !e.parked && (cfg.parkEnabled ==> LaneAccounts(st.accounts, lane) == [])
    case Some(Cancelled) => e.slept.Some?
    case Some(_) => false
    case None =>
      && e.parked
      && (match e.slept
          case None => !NoneAvailable(st, lane)
          case Some(d) =>
            && NoneAvailable(st, lane) && 0 < d <= cfg.maxHold
            && exists t :: EarliestRecovery(st, lane, t) && IsParkLength(cfg, t - st.clock, d))
  }

  /** A park sleeps the wait plus the smaller of the buffer and the wait itself. */
  predicate IsParkLength(cfg: Config, wait: int, d: int) {
    && wait <= d <= 2 * wait
    && (cfg.parkBuffer >= 0 ==> d == wait + Min(cfg.parkBuffer, wait))
    && (cfg.parkBuffer < 0 ==> d == wait)
  }

  lemma ParkDecides(cfg: Config, lane: string, st: State, e: Effect, inp: Input)
    requires st.clock > 0 && e.ending.None? && e.slept.None? && !e.parked
    ensures var (st', e') := Park(cfg, lane, st, e, inp);
      && ParkDecision(cfg, lane, st, e')
      && (e'.ending.Some? ==> st' == st)
      && (e'.ending.None? ==>
          && st'.progress.tried == {} && st'.progress.streak == 0
          && st'.health == st.health && st'.accounts == st.accounts
          && st'.clock == st.clock + (if e'.slept.Some? then e'.slept.value + inp.oversleep else 0))
  {
    hide LaneAccounts, NextRecovery, RejectedList, InvalidOnes, Reports;
    var s := LaneAccounts(st.accounts, lane);
    NextRecoveryExact(s, st.health, st.clock);
    RejectedExact(s, st.health);
    var r := NextRecovery(s, st.health, st.clock);
    if r.Some? {
      if r.value == st.clock {
        var a :| a in s && HealthOf(st.health, a.id).AvailableAt(r.value);
        assert AvailableIn(st, a.id);
      } else {
        assert EarliestRecovery(st, lane, r.value);
        forall a | a in s ensures !AvailableIn(st, a.id) {
          assert !HealthOf(st.health, a.id).AvailableAt(st.clock);
        }
      }
    }
  }

  // ----- runs -----

  /** The three errors that are claims about the pool. */
  predicate PoolClaim(ending: Option<Ending>) {
    ending.Some? && (ending.value.ParkTooLong? || ending.value.CredentialsRejected? || ending.value.NoAccounts?)
  }

  lemma DispatchClaimsNothing(cfg: Config, lane: string, key: string, st: State, a: Account, e: Effect, inp: Input)
    requires e.ending.None?
    ensures !PoolClaim(Dispatch(cfg, lane, key, st, a, e, inp).1.ending)
  {
    hide LaneAccounts, HealthOf, StickySet, RenewIn, Backoff;
  }

  lemma AttemptClaimsNothing(cfg: Config, lane: string, key: string, st: State, a: Account, e: Effect, inp: Input)
    requires e.ending.None?
    ensures !PoolClaim(Attempt(cfg, lane, key, st, a, e, inp).1.ending)
    ensures Attempt(cfg, lane, key, st, a, e, inp).1.picked == Some(a)
    ensures Attempt(cfg, lane, key, st, a, e, inp).1.parked == e.parked
  {
    hide Dispatch, RenewIn, Account.TokenExpiredAt, Account.Renewed;
    var st1 := st.(progress := st.progress.(attempts := st.progress.attempts + 1));
    var e1 := e.(picked := Some(a));
    DispatchClaimsNothing(cfg, lane, key, st1, a, e1, inp);
    DispatchKeeps(cfg, lane, key, st1, a, e1, inp);
    if inp.freshen.Renewed? {
      var st2 := st1.(accounts := RenewIn(st1.accounts, a.id, inp.freshen));
      var b := a.Renewed(inp.freshen.access, inp.freshen.refresh, inp.freshen.expiresAt);
      DispatchClaimsNothing(cfg, lane, key, st2, b, e1, inp);
      DispatchKeeps(cfg, lane, key, st2, b, e1, inp);
    }
  }

  /** An iteration either uses the eligible account it picked, or parks because there is none. */
  lemma StepDecides(cfg: Config, lane: string, key: string, st: State, inp: Input)
    requires Inv(st) && !inp.cancelled
    ensures var (st', e) := Step(cfg, lane, key, st, inp);
      var at := st.(clock := e.now);
      if e.picked.Some? then !PoolClaim(e.ending) && !e.parked
      else
        && ParkDecision(cfg, lane, at, e)
        && (forall a :: !SelectionView(cfg, lane, key, at).Eligible(a))
        && (e.ending.Some? ==> st' == at)
        && (e.ending.None? ==>
            && st'.progress.tried == {} && st'.health == st.health && st'.accounts == st.accounts
            && st'.clock >= at.clock + (if e.slept.Some? then e.slept.value else 0))
  {
    hide Attempt, Park, View.Select, View.IsChoice, ParkDecision;
    StepKeeps(cfg, lane, key, st, inp);
    var st1 := st.(clock := st.clock + inp.tick);
    var e := Effect(st1.clock, None, None, st1.clock, None, false, None);
    SelectedIsEligible(cfg, lane, key, st1);
    match SelectionView(cfg, lane, key, st1).Select()
    case None =>
      NoChoice(SelectionView(cfg, lane, key, st1));
      ParkDecides(cfg, lane, st1, e, inp);
      ParkNow(cfg, lane, st1, e, inp);
    case Some(a) => AttemptClaimsNothing(cfg, lane, key, st1, a, e, inp);
  }

  lemma NoChoice(v: View)
    requires v.IsChoice(None)
    ensures forall a :: !v.Eligible(a)
  {}

  lemma ParkNow(cfg: Config, lane: string, st: State, e: Effect, inp: Input)
    ensures Park(cfg, lane, st, e, inp).1.now == e.now && Park(cfg, lane, st, e, inp).1.picked == e.picked
  {}

  /** Errors are only reported when they are true of the pool the run leaves behind. */
  lemma {:induction false} EndingsAreTrue(cfg: Config, lane: string, key: string, st: State, script: seq<Input>)
    requires Inv(st)
    ensures var r := RunFrom(cfg, lane, key, st, script);
      && SamePool(lane, st.accounts, r.last.accounts)
      && (r.Over() && PoolClaim(r.trace[|r.trace|-1].ending) ==> ParkDecision(cfg, lane, r.last, r.trace[|r.trace|-1]))
    decreases |script|
  {
    hide Step, Inv, SamePool, ParkDecision;
    if script == [] {
      SamePoolReflexive(lane, st.accounts);
    } else {
      var (st', e) := Step(cfg, lane, key, st, script[0]);
      StepKeeps(cfg, lane, key, st, script[0]);
      if e.ending.Some? {
        if PoolClaim(e.ending) {
          CancelledClaimsNothing(cfg, lane, key, st, script[0]);
          StepDecides(cfg, lane, key, st, script[0]);
        }
      } else {
        var rest := RunFrom(cfg, lane, key, st', script[1..]);
        EndingsAreTrue(cfg, lane, key, st', script[1..]);
        SamePoolTransitive(lane, st.accounts, st'.accounts, rest.last.accounts);
      }
    }
  }

  lemma CancelledClaimsNothing(cfg: Config, lane: string, key: string, st: State, inp: Input)
    ensures inp.cancelled ==> !PoolClaim(Step(cfg, lane, key, st, inp).1.ending)
  {}

  /** A later moment finds every recovered account still usable. */
  lemma StaysAvailable(h: Health, t: Time, u: Time)
    requires h.AvailableAt(t) && t <= u
    ensures h.AvailableAt(u)
  {}

  /** The selection right after a park finds an account, however long the park overslept. */
  lemma ParkThenPick(cfg: Config, lane: string, key: string, st: State, inp: Input, next: Input)
    requires Inv(st) && !next.cancelled
    requires Step(cfg, lane, key, st, inp).1.parked && Step(cfg, lane, key, st, inp).1.ending.None?
    ensures Step(cfg, lane, key, Step(cfg, lane, key, st, inp).0, next).1.picked.Some?
  {
    hide Step, Inv, LaneAccounts, InLane;
    var (st', e) := Step(cfg, lane, key, st, inp);
    var at := st.(clock := e.now);
    CancelledParksNothing(cfg, lane, key, st, inp);
    StepDecides(cfg, lane, key, st, inp);
    StepKeeps(cfg, lane, key, st, inp);
    var t := if e.slept.Some? then RecoveryOf(cfg, lane, at, e) else at.clock;
    var a :| a in LaneAccounts(at.accounts, lane) && HealthOf(at.health, a.id).AvailableAt(t);
    LaneMembers(at.accounts, lane);
    StepDecides(cfg, lane, key, st', next);
    StepKeeps(cfg, lane, key, st', next);
    var at' := st'.(clock := Step(cfg, lane, key, st', next).1.now);
    StaysAvailable(HealthOf(at.health, a.id), t, at'.clock);
    assert SelectionView(cfg, lane, key, at').Eligible(a);
  }

  ghost function RecoveryOf(cfg: Config, lane: string, st: State, e: Effect): (t: Time)
    requires ParkDecision(cfg, lane, st, e) && e.ending.None? && e.slept.Some?
    ensures EarliestRecovery(st, lane, t) && IsParkLength(cfg, t - st.clock, e.slept.value)
  {
    var t :| EarliestRecovery(st, lane, t) && IsParkLength(cfg, t - st.clock, e.slept.value); t
  }

  lemma CancelledParksNothing(cfg: Config, lane: string, key: string, st: State, inp: Input)
    ensures inp.cancelled ==> Step(cfg, lane, key, st, inp).1.ending.Some?
  {}

  // ----- accounts that were refused -----

  /** The account is out of rotation until `reset`, or for good. */
  predicate OutUntil(st: State, id: string, reset: Time) {
    var h := HealthOf(st.health, id);
    h.state.Exhausted? && h.resetAt >= reset
  }

  predicate Condemned(st: State, id: string) {
    HealthOf(st.health, id).state.Invalid?
  }

  lemma UnpickedUntouched(cfg: Config, lane: string, key: string, st: State, inp: Input, id: string)
    requires Inv(st)
    ensures var (st', e) := Step(cfg, lane, key, st, inp);
      (e.picked.Some? ==> e.picked.value.id != id) ==>
        HealthOf(st'.health, id) == HealthOf(st.health, id) && AuthCount(st'.progress, id) == AuthCount(st.progress, id)
  {
    hide Step, Inv;
    var (st', e) := Step(cfg, lane, key, st, inp);
    StepKeeps(cfg, lane, key, st, inp);
    if e.picked.Some? && e.picked.value.id != id { Untouched(e.picked.value.id, st, st', id); }
  }

  /** An account marked exhausted is not used again before its recorded reset. */
  lemma {:induction false} ExhaustedStaysOut(cfg: Config, lane: string, key: string, st: State, script: seq<Input>,
                                             id: string, reset: Time, k: nat)
    requires Inv(st) && (OutUntil(st, id, reset) || st.clock >= reset)
    requires k < |RunFrom(cfg, lane, key, st, script).trace|
    requires RunFrom(cfg, lane, key, st, script).trace[k].picked.Some?
    requires RunFrom(cfg, lane, key, st, script).trace[k].picked.value.id == id
    ensures RunFrom(cfg, lane, key, st, script).trace[k].now >= reset
    decreases |script|
  {
    hide Step, Inv, SamePool;
    var (st', e) := Step(cfg, lane, key, st, script[0]);
    StepKeeps(cfg, lane, key, st, script[0]);
    if k > 0 {
      UnpickedUntouched(cfg, lane, key, st, script[0], id);
      ExhaustedStaysOut(cfg, lane, key, st', script[1..], id, reset, k - 1);
    }
  }

  /** An account marked invalid is never used again. */
  lemma {:induction false} InvalidStaysOut(cfg: Config, lane: string, key: string, st: State, script: seq<Input>,
                                           id: string, k: nat)
    requires Inv(st) && Condemned(st, id)
    requires k < |RunFrom(cfg, lane, key, st, script).trace|
    ensures var e := RunFrom(cfg, lane, key, st, script).trace[k]; e.picked.Some? ==> e.picked.value.id != id
    decreases |script|
  {
    hide Step, Inv, SamePool;
    var (st', e) := Step(cfg, lane, key, st, script[0]);
    StepKeeps(cfg, lane, key, st, script[0]);
    if k > 0 {
      UnpickedUntouched(cfg, lane, key, st, script[0], id);
      InvalidStaysOut(cfg, lane, key, st', script[1..], id, k - 1);
    }
  }

  predicate RotatedBy(e: Effect) {
    e.picked.Some? && e.reply.Some? && e.reply.value.Response? && e.reply.value.outcome.Rotate?
  }

  /** What gets recorded when a lane names a reset: never a moment already past. */
  function RecordedReset(e: Effect): Time
    requires RotatedBy(e)
  {
    if e.reply.value.outcome.resetAt <= e.heard then e.heard + MIN_COOLDOWN else e.reply.value.outcome.resetAt
  }

  lemma DispatchRecords(cfg: Config, lane: string, key: string, st: State, a: Account, e: Effect, inp: Input)
    requires e.picked.Some? && e.picked.value.id == a.id && e.ending.None?
    ensures var (st', e') := Dispatch(cfg, lane, key, st, a, e, inp);
      RotatedBy(e') ==> e'.ending.None? && OutUntil(st', a.id, RecordedReset(e'))
  {
    hide HandleRefusal, HandleOverload, LaneAccounts, StickySet, RenewIn;
    DispatchKeeps(cfg, lane, key, st, a, e, inp);
  }

  lemma StepRecords(cfg: Config, lane: string, key: string, st: State, inp: Input)
    ensures var (st', e) := Step(cfg, lane, key, st, inp);
      RotatedBy(e) ==> e.ending.None? && OutUntil(st', e.picked.value.id, RecordedReset(e))
  {
    hide Dispatch, RenewIn, Account.TokenExpiredAt, Account.Renewed, View.Select, Park;
    if !inp.cancelled {
      var st1 := st.(clock := st.clock + inp.tick);
      var e0 := Effect(st1.clock, None, None, st1.clock, None, false, None);
      match SelectionView(cfg, lane, key, st1).Select()
      case None => ParkNow(cfg, lane, st1, e0, inp);
      case Some(a) =>
        var st2 := st1.(progress := st1.progress.(attempts := st1.progress.attempts + 1));
        var e1 := e0.(picked := Some(a));
        DispatchRecords(cfg, lane, key, st2, a, e1, inp);
        DispatchKeeps(cfg, lane, key, st2, a, e1, inp);
        if inp.freshen.Renewed? {
          RenewedIdentity(a, inp.freshen);
          var st3 := st2.(accounts := RenewIn(st2.accounts, a.id, inp.freshen));
          var b := a.Renewed(inp.freshen.access, inp.freshen.refresh, inp.freshen.expiresAt);
          DispatchRecords(cfg, lane, key, st3, b, e1, inp);
          DispatchKeeps(cfg, lane, key, st3, b, e1, inp);
        }
    }
  }

  /** Across a whole run: once a lane rotates away from an account, that account is not used
      again before the reset recorded for it, which lies strictly after the refusal. */
  lemma {:induction false} RotationIsRespected(cfg: Config, lane: string, key: string, st: State, script: seq<Input>,
                                               i: nat, j: nat)
    requires Inv(st)
    requires i < j < |RunFrom(cfg, lane, key, st, script).trace|
    requires RotatedBy(RunFrom(cfg, lane, key, st, script).trace[i])
    ensures var trace := RunFrom(cfg, lane, key, st, script).trace;
      && RecordedReset(trace[i]) > trace[i].heard
      && (trace[j].picked.Some? && trace[j].picked.value.id == trace[i].picked.value.id ==>
            trace[j].now >= RecordedReset(trace[i]))
    decreases |script|
  {
    hide Step, Inv, SamePool, OutUntil;
    var (st', e) := Step(cfg, lane, key, st, script[0]);
    StepKeeps(cfg, lane, key, st, script[0]);
    var trace := RunFrom(cfg, lane, key, st, script).trace;
    var rest := RunFrom(cfg, lane, key, st', script[1..]).trace;
    assert trace == [e] + rest;
    if i > 0 {
      RotationIsRespected(cfg, lane, key, st', script[1..], i - 1, j - 1);
    } else {
      StepRecords(cfg, lane, key, st, script[0]);
      if trace[j].picked.Some? && trace[j].picked.value.id == e.picked.value.id {
        assert trace[j] == rest[j - 1];
        ExhaustedStaysOut(cfg, lane, key, st', script[1..], e.picked.value.id, RecordedReset(e), j - 1);
      }
    }
  }

  // ----- refusals of a credential -----

  predicate RefusedFor(e: Effect, id: string) {
    && e.picked.Some? && e.picked.value.id == id
    && e.reply.Some? && e.reply.value.Response? && e.reply.value.outcome.RefreshAuth?
  }

  function Refusals(trace: seq<Effect>, id: string): nat {
    if trace == [] then 0 else (if RefusedFor(trace[0], id) then 1 else 0) + Refusals(trace[1..], id)
  }

  ghost predicate KindIs(st: State, id: string, oauth: bool) {
    forall i :: 0 <= i < |st.accounts| && st.accounts[i].id == id ==> st.accounts[i].kind.OAuth? == oauth
  }

  /** Refusals the account can still be given: the ones renewing may help, and the last. */
  function RefusalsLeft(cfg: Config, st: State, id: string, oauth: bool): nat {
    if Condemned(st, id) then 0
    else 1 + if oauth then Max(0, cfg.authRefreshAttempts - AuthCount(st.progress, id)) else 0
  }

  lemma RefusalCounts(cfg: Config, st: State, a: Account, reason: string, e: Effect, inp: Input)
    requires e.ending.None? && !Condemned(st, a.id)
    ensures var (st', e') := HandleRefusal(cfg, st, a, reason, e, inp);
      e'.ending.None? ==> RefusalsLeft(cfg, st', a.id, a.kind.OAuth?) + 1 <= RefusalsLeft(cfg, st, a.id, a.kind.OAuth?)
  {
    hide RenewIn;
  }

  lemma DispatchCountsRefusal(cfg: Config, lane: string, key: string, st: State, a: Account, e: Effect, inp: Input)
    requires e.picked.Some? && e.picked.value.id == a.id && e.ending.None? && !Condemned(st, a.id)
    ensures var (st', e') := Dispatch(cfg, lane, key, st, a, e, inp);
      e'.ending.None? ==>
        RefusalsLeft(cfg, st', a.id, a.kind.OAuth?) + (if RefusedFor(e', a.id) then 1 else 0)
          <= RefusalsLeft(cfg, st, a.id, a.kind.OAuth?)
  {
    hide HandleRefusal, HandleOverload, LaneAccounts, StickySet, RenewIn;
    DispatchKeeps(cfg, lane, key, st, a, e, inp);
    var st1 := st.(clock := st.clock + inp.lag);
    var e1 := e.(reply := Some(inp.reply), heard := st.clock + inp.lag);
    match inp.reply
    case Unreachable => OverloadKeeps(cfg, true, st1, a, e1, inp);
    case Response(windows, outcome) =>
      var st2 := Observe(st1, a.id, windows);
      match outcome {
        case RefreshAuth(reason) => RefusalCounts(cfg, st2, a, reason, e1, inp);
        case Overloaded(_) => OverloadKeeps(cfg, |LaneAccounts(st2.accounts, lane)| > 1, st2, a, e1, inp);
        case _ =>
      }
  }

  lemma AttemptCountsRefusal(cfg: Config, lane: string, key: string, st: State, a: Account, e: Effect, inp: Input)
    requires e.ending.None? && e.reply.None? && !Condemned(st, a.id)
    ensures var (st', e') := Attempt(cfg, lane, key, st, a, e, inp);
      e'.ending.None? ==>
        RefusalsLeft(cfg, st', a.id, a.kind.OAuth?) + (if RefusedFor(e', a.id) then 1 else 0)
          <= RefusalsLeft(cfg, st, a.id, a.kind.OAuth?)
  {
    hide Dispatch, RenewIn, Account.TokenExpiredAt, Account.Renewed;
    var st1 := st.(progress := st.progress.(attempts := st.progress.attempts + 1));
    var e1 := e.(picked := Some(a));
    DispatchCountsRefusal(cfg, lane, key, st1, a, e1, inp);
    if inp.freshen.Renewed? {
      RenewedIdentity(a, inp.freshen);
      DispatchCountsRefusal(cfg, lane, key, st1.(accounts := RenewIn(st1.accounts, a.id, inp.freshen)),
                            a.Renewed(inp.freshen.access, inp.freshen.refresh, inp.freshen.expiresAt), e1, inp);
    }
  }

  lemma StepCountsRefusal(cfg: Config, lane: string, key: string, st: State, inp: Input, id: string, oauth: bool)
    requires Inv(st) && KindIs(st, id, oauth)
    ensures var (st', e) := Step(cfg, lane, key, st, inp);
      && KindIs(st', id, oauth)
      && (RefusedFor(e, id) ==> RefusalsLeft(cfg, st, id, oauth) >= 1)
      && (e.ending.None? ==>
            RefusalsLeft(cfg, st', id, oauth) + (if RefusedFor(e, id) then 1 else 0) <= RefusalsLeft(cfg, st, id, oauth))
  {
    hide Attempt, Park, View.Select, InLane;
    var (st', e) := Step(cfg, lane, key, st, inp);
    StepKeeps(cfg, lane, key, st, inp);
    UnpickedUntouched(cfg, lane, key, st, inp, id);
    assert KindIs(st', id, oauth) by {
      forall i | 0 <= i < |st'.accounts| && st'.accounts[i].id == id ensures st'.accounts[i].kind.OAuth? == oauth {
        assert st'.accounts[i].kind == st.accounts[i].kind;
      }
    }
    if e.picked.Some? && e.picked.value.id == id {
      var st1 := st.(clock := e.now);
      assert st.(clock := st.clock + inp.tick) == st1;
      var e0 := Effect(st1.clock, None, None, st1.clock, None, false, None);
      match SelectionView(cfg, lane, key, st1).Select() {
        case None => ParkNow(cfg, lane, st1, e0, inp);
        case Some(a) =>
          AttemptClaimsNothing(cfg, lane, key, st1, a, e0, inp);
          AttemptCountsRefusal(cfg, lane, key, st1, a, e0, inp);
      }
    }
  }

  /** In one request an account is refused at most A+1 times, an API key at most once. */
  lemma {:induction false} RefusalsAreBounded(cfg: Config, lane: string, key: string, st: State, script: seq<Input>,
                                              id: string, oauth: bool)
    requires Inv(st) && KindIs(st, id, oauth)
    ensures Refusals(RunFrom(cfg, lane, key, st, script).trace, id) <= RefusalsLeft(cfg, st, id, oauth)
    ensures RefusalsLeft(cfg, st, id, oauth) <= if oauth then Max(0, cfg.authRefreshAttempts) + 1 else 1
    decreases |script|
  {
    hide Step, Inv, SamePool, KindIs, RefusedFor;
    if script != [] {
      var (st', e) := Step(cfg, lane, key, st, script[0]);
      StepKeeps(cfg, lane, key, st, script[0]);
      StepCountsRefusal(cfg, lane, key, st, script[0], id, oauth);
      if e.ending.None? {
        var rest := RunFrom(cfg, lane, key, st', script[1..]).trace;
        assert ([e] + rest)[1..] == rest;
        RefusalsAreBounded(cfg, lane, key, st', script[1..], id, oauth);
      } else {
        assert [e][1..] == [];
        assert Refusals([e], id) == if RefusedFor(e, id) then 1 else 0;
      }
    }
  }

  // ----- what a mark means for the requests that follow -----

  /** An account marked exhausted is passed over until its recorded reset, which lies ahead, and from then on can be
      picked like any other; nobody else is affected. */
  lemma {:induction false} ExhaustionHolds(cfg: Config, lane: string, key: string, st: State, a: Account, resetAt: Time,
      why: string, later: State)
    requires Inv(st) && a in st.accounts && InLane(a, lane)
    requires later.accounts == st.accounts && later.health == MarkExhausted(st, a.id, resetAt, why).health
    requires later.clock >= st.clock
    ensures var reset, v := HealthOf(later.health, a.id).resetAt, SelectionView(cfg, lane, key, later);
      && reset > st.clock && (resetAt > st.clock ==> reset == resetAt)
      && (v.Eligible(a) <==> later.clock >= reset && a.id !in later.progress.tried)
      && (later.clock < reset ==> v.Select() != Some(a))
      && (forall b: Account :: b.id != a.id ==>
            (v.Eligible(b) <==> SelectionView(cfg, lane, key, later.(health := st.health)).Eligible(b)))
  {
    assert Inv(later);
    hide *;
    SelectedCanBeUsed(cfg, lane, key, later);
    MarkedOut(st, a.id, resetAt, why);
    CanBeUsed(cfg, lane, key, later, a);
    forall b: Account | b.id != a.id
      ensures SelectionView(cfg, lane, key, later).Eligible(b)
        <==> SelectionView(cfg, lane, key, later.(health := st.health)).Eligible(b)
    {
      CanBeUsed(cfg, lane, key, later, b);
      CanBeUsed(cfg, lane, key, later.(health := st.health), b);
    }
  }

  lemma {:induction false} CanBeUsed(cfg: Config, lane: string, key: string, st: State, a: Account)
    ensures SelectionView(cfg, lane, key, st).Eligible(a)
      <==> a in st.accounts && InLane(a, lane) && a.id !in st.progress.tried && HealthOf(st.health, a.id).AvailableAt(st.clock)
  {
    hide InLane, HealthOf, Health.AvailableAt;
  }

  lemma {:induction false} SelectedCanBeUsed(cfg: Config, lane: string, key: string, st: State)
    requires Inv(st)
    ensures var v := SelectionView(cfg, lane, key, st); v.Select().Some? ==> v.Eligible(v.Select().value)
  {
    SelectedIsEligible(cfg, lane, key, st);
    hide View.Select, InLane, HealthOf, Health.AvailableAt, Drained;
  }

  lemma {:induction false} MarkedOut(st: State, id: string, resetAt: Time, why: string)
    ensures var h := HealthOf(MarkExhausted(st, id, resetAt, why).health, id);
      && h.resetAt > st.clock && (resetAt > st.clock ==> h.resetAt == resetAt)
      && forall t :: h.AvailableAt(t) <==> t >= h.resetAt
    ensures forall x :: x != id ==> HealthOf(MarkExhausted(st, id, resetAt, why).health, x) == HealthOf(st.health, x)
  {}

  /** After a success a later request of the same conversation, within the time stickiness lasts, goes to the same
      account, unless that is nearly spent while another account is not. */
  lemma {:induction false} SuccessSticks(cfg: Config, lane: string, key: string, st: State, a: Account, later: State)
    requires Inv(st) && a in st.accounts && InLane(a, lane) && cfg.rotation.sticky && key != ""
    requires later.accounts == st.accounts && later.progress.tried == {}
    requires later.health == MarkSuccess(cfg, key, st, a.id).health && later.sticky == MarkSuccess(cfg, key, st, a.id).sticky
    requires st.clock <= later.clock <= st.clock + cfg.rotation.stickyTtl
    ensures var v := SelectionView(cfg, lane, key, later);
      && v.Eligible(a)
      && (v.Select() == Some(a) <==> v.Fresh(a) || forall b :: v.Eligible(b) ==> !v.Fresh(b))
  {
    var v := SelectionView(cfg, lane, key, later);
    SelectedIsEligible(cfg, lane, key, later);
    CanBeUsed(cfg, lane, key, later, a);
    assert HealthOf(later.health, a.id).AvailableAt(later.clock);
    assert v.preferred == Some(a.id);
    Preferred(v, st.accounts, a);
  }

  /** The preferred account is chosen whenever it is in the pool. */
  lemma {:induction false} Preferred(v: View, accounts: seq<Account>, a: Account)
    requires v.IsChoice(v.Select()) && v.Eligible(a) && v.preferred == Some(a.id) && UniqueIds(accounts) && v.accounts == accounts
    ensures v.Select() == Some(a) <==> v.Fresh(a) || forall b :: v.Eligible(b) ==> !v.Fresh(b)
  {
    hide View.Select, View.Usable, View.Fresh, UniqueIds;
    if v.InPool(a) { assert v.PreferredInPool(); }
    if v.Select().Some? && v.Select().value.id == a.id { SameIdSame(accounts, a, v.Select().value); }
  }

  lemma {:induction false} SameIdSame(accounts: seq<Account>, a: Account, b: Account)
    requires UniqueIds(accounts) && a in accounts && b in accounts && a.id == b.id
    ensures a == b
  {}
}
