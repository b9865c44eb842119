/** What a run says of the pool it leaves: every account is what its own replies have made of it, whoever else was tried,
    and overloads are waited out or walked away from as the streak of them demands
    (internal/engine/engine.go:180-363). */
module EngineReplies {
  import opened Basics
  import opened Selection
  import opened EngineRun
  import opened EngineTheorems
  import EngineSpin
  import EngineSafety

  // ----- one account's history -----

  /** One account as a request knows it. */
  datatype Seen = Seen(account: Option<Account>, health: Health, refusals: nat, tried: bool)
  {
    function Tokens(t: Renewal): Seen
      requires t.Renewed?
    {
      this.(account := if account.None? then None else Some(account.value.Renewed(t.access, t.refresh, t.expiresAt)))
    }

    function Condemned(why: string): Seen {
      this.(tried := true, health := health.(state := Invalid, consecFails := health.consecFails + 1, lastError := why))
    }
  }

  function SeenIn(st: State, id: string): Seen {
    Seen(FirstWithId(st.accounts, id), HealthOf(st.health, id), AuthCount(st.progress, id), id in st.progress.tried)
  }

  predicate For(e: Effect, id: string) { e.picked.Some? && e.picked.value.id == id }

  /** A token that expires within the minute is renewed before it is used. */
  predicate NeedsRenewal(a: Account, now: Time) {
    a.kind.OAuth? && a.expiresAt != 0 && UNIX_EPOCH + a.expiresAt * 1_000_000 < now + 60_000_000_000
  }

  /** The iteration set its account aside because overloads of it persisted: it neither waited nor ended. */
  predicate WalkedAway(e: Effect) { OverloadSeen(e) && e.slept.None? && e.ending.None? }

  predicate OverloadSeen(e: Effect) {
    e.picked.Some? && e.reply.Some? && (e.reply.value.Unreachable? || e.reply.value.outcome.Overloaded?)
  }

  /** What an outcome makes of the account it came from. */
  function Judged(cfg: Config, v: Seen, e: Effect, inp: Input): Seen
    requires e.picked.Some? && e.reply.Some? && e.reply.value.Response?
  {
    var h := v.health;
    match e.reply.value.outcome
    case Relay => v.(health := h.(state := Available, lastUsed := e.heard, requests := h.requests + 1, consecFails := 0, lastError := ""))
    case Throttled(wait, why) => v.(health := h.(state := Cooling, until := e.now + wait, lastError := why))
    case Rotate(resetAt, why) =>
      var ahead := if resetAt > e.heard then resetAt else e.heard + 60_000_000_000;
      v.(tried := true, health := h.(state := Exhausted, resetAt := ahead, rotations := h.rotations + 1, lastError := why))
    case RefreshAuth(why) =>
      if !e.picked.value.kind.OAuth? then v.Condemned(why)
      else
        var u := v.(refusals := v.refusals + 1);
        if u.refusals > cfg.authRefreshAttempts then u.Condemned(why)
        else if inp.renewal.Renewed? then u.Tokens(inp.renewal)
        else if e.ending.Some? then u
        else u.Condemned(why + "; renewing it failed: " + inp.renewal.why)
    case _ => v
  }

  /** What an answer makes of the account: the windows it reports, then its outcome. */
  function Answered(cfg: Config, v: Seen, e: Effect, inp: Input): Seen
    requires e.picked.Some?
  {
    if e.reply.None? then v
    else if e.reply.value.Unreachable? then (if WalkedAway(e) then v.(tried := true) else v)
    else
      var seen := if e.reply.value.windows == [] then v else v.(health := v.health.(windows := e.reply.value.windows));
      if WalkedAway(e) then seen.(tried := true) else Judged(cfg, seen, e, inp)
  }

  /** What one iteration that picked the account makes of it. */
  function Hears(cfg: Config, v: Seen, e: Effect, inp: Input): Seen
    requires e.picked.Some?
  {
    var due := NeedsRenewal(e.picked.value, e.now);
    if due && !inp.freshen.Renewed? then (if e.ending.Some? then v else v.Condemned(inp.freshen.why))
    else
      Answered(cfg, if due then v.Tokens(inp.freshen) else v, e, inp)
  }

  /** A round that parked and went on starts afresh with everybody. */
  predicate NewRoundAfter(e: Effect) { e.picked.None? && e.ending.None? }

  function SeenNext(cfg: Config, v: Seen, e: Effect, inp: Input, id: string): Seen {
    if For(e, id) then Hears(cfg, v, e, inp) else if NewRoundAfter(e) then v.(tried := false) else v
  }

  function SeenAfter(cfg: Config, v: Seen, trace: seq<Effect>, script: seq<Input>, id: string): Seen
    requires |trace| <= |script|
    decreases |trace|
  {
    if trace == [] then v else SeenAfter(cfg, SeenNext(cfg, v, trace[0], script[0], id), trace[1..], script[1..], id)
  }

  /** Overloads in a row, counted from the replies. */
  function StreakAfter(streak: int, trace: seq<Effect>): int
    decreases |trace|
  {
    if trace == [] then streak else StreakAfter(StreakNext(streak, trace[0]), trace[1..])
  }

  function StreakNext(streak: int, e: Effect): int {
    if NewRoundAfter(e) || WalkedAway(e) then 0
    else if OverloadSeen(e) && e.slept.Some? then streak + 1
    else if e.reply.Some? && e.reply.value.Response? && e.reply.value.outcome.Rotate? then 0
    else streak
  }

  // ----- one iteration -----

  /** What is sent on, and with what: the account picked, its token renewed if it had to be. */
  function SentOn(st: State, e: Effect, inp: Input): (State, Account)
    requires e.picked.Some?
  {
    var a := e.picked.value;
    var at := st.(clock := e.now, progress := st.progress.(attempts := st.progress.attempts + 1));
    if NeedsRenewal(a, e.now) && inp.freshen.Renewed? then
      (at.(accounts := RenewIn(at.accounts, a.id, inp.freshen)), a.Renewed(inp.freshen.access, inp.freshen.refresh, inp.freshen.expiresAt))
    else (at, a)
  }

  lemma {:induction false} ExpiryMeans(a: Account, now: Time)
    ensures a.TokenExpiredAt(now, REFRESH_SKEW) <==> NeedsRenewal(a, now)
  {}

  function Opened(now: Time, a: Account): Effect { Effect(now, Some(a), None, now, None, false, None) }

  lemma {:induction false} DispatchSent(cfg: Config, lane: string, key: string, st: State, a: Account, e: Effect, inp: Input)
    ensures var e' := Dispatch(cfg, lane, key, st, a, e, inp).1; e'.picked == e.picked && e'.reply == Some(inp.reply) && e'.now == e.now
  {
    hide Dispatch;
    DispatchKeeps(cfg, lane, key, st, a, e, inp);
  }

  /** An iteration that picks an account either sends on it or fails to renew it first. */
  lemma {:induction false} PickSends(cfg: Config, lane: string, key: string, st: State, inp: Input)
    requires Inv(st)
    ensures var (st', e) := Step(cfg, lane, key, st, inp);
      e.picked.Some? ==>
        && FirstWithId(st.accounts, e.picked.value.id) == e.picked && e.now == st.clock + inp.tick
        && (e.reply.None? <==> NeedsRenewal(e.picked.value, e.now) && !inp.freshen.Renewed?)
        && (if e.reply.None? then FailsFresh(st, inp, st', e)
            else var (base, a) := SentOn(st, e, inp); (st', e) == Dispatch(cfg, lane, key, base, a, Opened(e.now, e.picked.value), inp))
  {
    hide Dispatch, View.Select, Park, Account.TokenExpiredAt, NeedsRenewal, UniqueIds;
    if !inp.cancelled {
      var st1 := st.(clock := st.clock + inp.tick);
      SelectedIsEligible(cfg, lane, key, st1);
      var e0 := Effect(st1.clock, None, None, st1.clock, None, false, None);
      match SelectionView(cfg, lane, key, st1).Select()
      case None => ParkPicksNobody(cfg, lane, st1, e0, inp);
      case Some(a) =>
        ExpiryMeans(a, st1.clock);
        FoundByItsId(st.accounts, a);
        var st2 := st1.(progress := st1.progress.(attempts := st1.progress.attempts + 1));
        DispatchSent(cfg, lane, key, st2, a, Opened(st1.clock, a), inp);
        if inp.freshen.Renewed? {
          DispatchSent(cfg, lane, key, st2.(accounts := RenewIn(st2.accounts, a.id, inp.freshen)),
                       a.Renewed(inp.freshen.access, inp.freshen.refresh, inp.freshen.expiresAt), Opened(st1.clock, a), inp);
        }
    }
  }

  /** The account could not be renewed: it is condemned, unless the request was given up meanwhile. */
  predicate FailsFresh(st: State, inp: Input, st': State, e: Effect)
    requires e.picked.Some?
  {
    var a := e.picked.value;
    var at := st.(clock := e.now, progress := st.progress.(attempts := st.progress.attempts + 1));
    && !inp.freshen.Renewed?
    && (if inp.aborted then st' == at && e == Opened(e.now, a).(ending := Some(Cancelled))
        else st' == SkipForNow(MarkInvalid(at, a.id, inp.freshen.why), a.id) && e == Opened(e.now, a))
  }

  lemma ParkPicksNobody(cfg: Config, lane: string, st: State, e: Effect, inp: Input)
    ensures Park(cfg, lane, st, e, inp).1.picked == e.picked
  {
    hide LaneAccounts, NextRecovery, Unusable;
  }

  lemma {:induction false} FoundByItsId(accounts: seq<Account>, a: Account)
    requires UniqueIds(accounts) && a in accounts
    ensures FirstWithId(accounts, a.id) == Some(a)
  {
    var found := FirstWithId(accounts, a.id);
    if found.Some? {
      var i :| 0 <= i < |accounts| && accounts[i] == a;
      var j :| 0 <= j < |accounts| && accounts[j] == found.value;
    }
  }

  // ----- what a reply does -----

  lemma {:induction false} FoundAfterRenewal(accounts: seq<Account>, id: string, t: Renewal, x: string)
    requires t.Renewed?
    ensures FirstWithId(RenewIn(accounts, id, t), x) ==
      match FirstWithId(accounts, x)
      case None => None
      case Some(a) => Some(if x == id then a.Renewed(t.access, t.refresh, t.expiresAt) else a)
  {
    if accounts != [] { FoundAfterRenewal(accounts[1..], id, t, x); }
  }

  /** The iteration waits, or walks away, as the streak demands. */
  predicate OverloadTold(cfg: Config, mayRotate: bool, streak: int, e: Effect, inp: Input) {
    if streak + 1 >= cfg.rotateAfter && mayRotate then e.slept.None? && e.ending.None?
    else Waited(e, Backoff(cfg, streak + 1, inp.jitter), inp)
  }

  predicate Waited(e: Effect, wait: int, inp: Input) {
    e.slept == Some(wait) && e.ending == if wait > 0 && inp.aborted then Some(Cancelled) else None
  }

  /** How an iteration that sent ends, and what it waits for. */
  predicate EndsAsTold(cfg: Config, accounts: nat, streak: int, refusals: nat, attempts: nat, sent: Account, e: Effect, inp: Input)
    requires e.reply.Some?
  {
    match e.reply.value
    case Unreachable =>
      if inp.aborted then e.slept.None? && e.ending == Some(Cancelled) else OverloadTold(cfg, true, streak, e, inp)
    case Response(_, outcome) =>
      match outcome
      case Overloaded(_) => OverloadTold(cfg, accounts > 1, streak, e, inp)
      case Throttled(wait, _) => Waited(e, wait, inp)
      case RefreshAuth(_) =>
        e.slept.None? && e.ending == if sent.kind.OAuth? && refusals < cfg.authRefreshAttempts && !inp.renewal.Renewed? && inp.aborted
                                     then Some(Cancelled) else None
      case Relay => e.slept.None? && e.ending == Some(Served(sent, attempts))
      case Fatal => e.slept.None? && e.ending == Some(HandedBack(sent, attempts))
      case Unhandled => e.slept.None? && e.ending == Some(UnhandledOutcome)
      case Rotate(_, _) => e.slept.None? && e.ending.None?
  }

  /** The answer has left everything as it says: the account, how the iteration ends, and the rest of the state. */
  ghost predicate Told(cfg: Config, lane: string, key: string, st: State, a: Account, st': State, e: Effect, inp: Input) {
    && e.picked.Some? && e.reply == Some(inp.reply) && e.heard == st.clock + inp.lag
    && SeenIn(st', a.id) == Answered(cfg, SeenIn(st, a.id), e, inp)
    && EndsAsTold(cfg, |LaneAccounts(st.accounts, lane)|, st.progress.streak, AuthCount(st.progress, a.id), st.progress.attempts, a, e, inp)
    && st'.progress.streak == StreakNext(st.progress.streak, e) && st'.progress.attempts == st.progress.attempts
    && (e.ending.None? ==> st'.clock == e.heard + (if e.slept.Some? && e.slept.value > 0 then e.slept.value + inp.oversleep else 0))
    && st'.sticky == (if inp.reply.Response? && inp.reply.outcome.Relay?
                      then StickySet(st.sticky, cfg.rotation.stickyTtl, key, a.id, e.heard) else st.sticky)
  }

  /** The effect of a request on its way: the account it goes to, and nothing heard yet. */
  predicate OnItsWay(e: Effect, st: State, a: Account) {
    e.ending.None? && e.slept.None? && e.picked.Some? && e.picked.value.kind == a.kind && e.now == st.clock
  }

  lemma {:induction false} OverloadIs(cfg: Config, mayRotate: bool, st: State, a: Account, e: Effect, inp: Input)
    requires e.ending.None? && e.slept.None? && OverloadSeen(e)
    ensures var (st', e') := HandleOverload(cfg, mayRotate, st, a, e, inp);
      && OverloadTold(cfg, mayRotate, st.progress.streak, e', inp) && e' == e.(slept := e'.slept, ending := e'.ending)
      && SeenIn(st', a.id) == (if WalkedAway(e') then SeenIn(st, a.id).(tried := true) else SeenIn(st, a.id))
      && st'.progress.streak == StreakNext(st.progress.streak, e') && st'.progress.attempts == st.progress.attempts
      && (e'.ending.None? ==> st'.clock == st.clock + if e'.slept.Some? && e'.slept.value > 0 then e'.slept.value + inp.oversleep else 0)
      && st'.sticky == st.sticky
  {
    hide Backoff, FirstWithId;
  }

  lemma {:induction false} SeenObserved(st: State, id: string, windows: seq<Window>)
    ensures var v, st' := SeenIn(st, id), Observe(st, id, windows);
      && SeenIn(st', id) == (if windows == [] then v else v.(health := v.health.(windows := windows)))
      && st' == st.(health := st'.health)
  {
    hide FirstWithId;
  }

  lemma {:induction false} UnreachableIs(cfg: Config, lane: string, key: string, st: State, a: Account, e: Effect, inp: Input)
    requires OnItsWay(e, st, a) && inp.reply.Unreachable?
    ensures var (st', e') := Dispatch(cfg, lane, key, st, a, e, inp); Told(cfg, lane, key, st, a, st', e', inp)
  {
    hide HandleOverload, LaneAccounts, FirstWithId, Backoff;
    OverloadIs(cfg, true, st.(clock := st.clock + inp.lag), a, e.(reply := Some(inp.reply), heard := st.clock + inp.lag), inp);
  }

  lemma {:induction false} OverloadedIs(cfg: Config, lane: string, key: string, st: State, a: Account, e: Effect, inp: Input)
    requires OnItsWay(e, st, a) && inp.reply.Response? && inp.reply.outcome.Overloaded?
    ensures var (st', e') := Dispatch(cfg, lane, key, st, a, e, inp); Told(cfg, lane, key, st, a, st', e', inp)
  {
    hide HandleOverload, LaneAccounts, FirstWithId, Backoff, Observe;
    var st1 := st.(clock := st.clock + inp.lag);
    SeenObserved(st1, a.id, inp.reply.windows);
    OverloadIs(cfg, |LaneAccounts(st.accounts, lane)| > 1, Observe(st1, a.id, inp.reply.windows), a,
               e.(reply := Some(inp.reply), heard := st.clock + inp.lag), inp);
  }

  /** The credential was refused and something was renewed, or nothing was. */
  lemma {:induction false} RenewalIs(st: State, id: string, t: Renewal, count: nat)
    requires t.Renewed?
    ensures SeenIn(st.(progress := st.progress.(auth := st.progress.auth[id := count]), accounts := RenewIn(st.accounts, id, t)), id)
      == SeenIn(st, id).(refusals := count).Tokens(t)
  {
    FoundAfterRenewal(st.accounts, id, t, id);
    hide FirstWithId, RenewIn, HealthOf;
  }

  lemma {:induction false} CondemnedIs(st: State, id: string, why: string)
    ensures SeenIn(SkipForNow(MarkInvalid(st, id, why), id), id) == SeenIn(st, id).Condemned(why)
  {
    hide FirstWithId;
  }

  lemma {:induction false} CountedIs(st: State, id: string, count: nat)
    ensures SeenIn(st.(progress := st.progress.(auth := st.progress.auth[id := count])), id) == SeenIn(st, id).(refusals := count)
  {
    hide FirstWithId, HealthOf;
  }

  lemma {:induction false} RefusalIs(cfg: Config, st: State, a: Account, reason: string, e: Effect, inp: Input)
    requires e.ending.None? && e.picked.Some? && e.picked.value.kind == a.kind
    requires e.reply.Some? && e.reply.value.Response? && e.reply.value.outcome == RefreshAuth(reason)
    ensures var (st', e') := HandleRefusal(cfg, st, a, reason, e, inp);
      && SeenIn(st', a.id) == Judged(cfg, SeenIn(st, a.id), e', inp) && e' == e.(ending := e'.ending)
      && e'.ending == (if a.kind.OAuth? && AuthCount(st.progress, a.id) < cfg.authRefreshAttempts && !inp.renewal.Renewed? && inp.aborted
                       then Some(Cancelled) else None)
      && st'.progress.streak == st.progress.streak && st'.progress.attempts == st.progress.attempts
      && st'.clock == st.clock && st'.sticky == st.sticky
  {
    var count := AuthCount(st.progress, a.id) + 1;
    var st1 := st.(progress := st.progress.(auth := st.progress.auth[a.id := count]));
    assert SeenIn(st, a.id).refusals == AuthCount(st.progress, a.id);
    hide SeenIn, RenewIn, AuthCount, Seen.Condemned, Seen.Tokens, HealthOf;
    if !a.kind.OAuth? {
      CondemnedIs(st, a.id, reason);
    } else {
      CountedIs(st, a.id, count);
      if count > cfg.authRefreshAttempts { CondemnedIs(st1, a.id, reason); }
      else if inp.renewal.Renewed? { RenewalIs(st, a.id, inp.renewal, count); }
      else if !inp.aborted { CondemnedIs(st1, a.id, reason + "; renewing it failed: " + inp.renewal.why); }
    }
  }

  lemma {:induction false} RefusedIs(cfg: Config, lane: string, key: string, st: State, a: Account, e: Effect, inp: Input)
    requires OnItsWay(e, st, a) && inp.reply.Response? && inp.reply.outcome.RefreshAuth?
    ensures var (st', e') := Dispatch(cfg, lane, key, st, a, e, inp); Told(cfg, lane, key, st, a, st', e', inp)
  {
    hide HandleRefusal, LaneAccounts, FirstWithId, Observe, Judged;
    var st1 := st.(clock := st.clock + inp.lag);
    SeenObserved(st1, a.id, inp.reply.windows);
    RefusalIs(cfg, Observe(st1, a.id, inp.reply.windows), a, inp.reply.outcome.reason,
              e.(reply := Some(inp.reply), heard := st.clock + inp.lag), inp);
  }

  lemma {:induction false} RelayedIs(cfg: Config, lane: string, key: string, st: State, a: Account, e: Effect, inp: Input)
    requires OnItsWay(e, st, a) && inp.reply.Response? && inp.reply.outcome.Relay?
    ensures var (st', e') := Dispatch(cfg, lane, key, st, a, e, inp); Told(cfg, lane, key, st, a, st', e', inp)
  {
    hide LaneAccounts, FirstWithId, Observe, StickySet, HandleOverload, HandleRefusal, Backoff;
    var st1 := st.(clock := st.clock + inp.lag);
    SeenObserved(st1, a.id, inp.reply.windows);
  }

  lemma {:induction false} ThrottledIs(cfg: Config, lane: string, key: string, st: State, a: Account, e: Effect, inp: Input)
    requires OnItsWay(e, st, a) && inp.reply.Response? && inp.reply.outcome.Throttled?
    ensures var (st', e') := Dispatch(cfg, lane, key, st, a, e, inp); Told(cfg, lane, key, st, a, st', e', inp)
  {
    hide LaneAccounts, FirstWithId, Observe, StickySet, HandleOverload, HandleRefusal, Backoff;
    var st1 := st.(clock := st.clock + inp.lag);
    SeenObserved(st1, a.id, inp.reply.windows);
  }

  lemma {:induction false} RotatedIs(cfg: Config, lane: string, key: string, st: State, a: Account, e: Effect, inp: Input)
    requires OnItsWay(e, st, a) && inp.reply.Response? && inp.reply.outcome.Rotate?
    ensures var (st', e') := Dispatch(cfg, lane, key, st, a, e, inp); Told(cfg, lane, key, st, a, st', e', inp)
  {
    hide LaneAccounts, FirstWithId, Observe, StickySet, HandleOverload, HandleRefusal, Backoff;
    var st1 := st.(clock := st.clock + inp.lag);
    SeenObserved(st1, a.id, inp.reply.windows);
  }

  lemma {:induction false} HandedBackIs(cfg: Config, lane: string, key: string, st: State, a: Account, e: Effect, inp: Input)
    requires OnItsWay(e, st, a) && inp.reply.Response? && (inp.reply.outcome.Fatal? || inp.reply.outcome.Unhandled?)
    ensures var (st', e') := Dispatch(cfg, lane, key, st, a, e, inp); Told(cfg, lane, key, st, a, st', e', inp)
  {
    hide LaneAccounts, FirstWithId, Observe, StickySet, HandleOverload, HandleRefusal, Backoff;
    var st1 := st.(clock := st.clock + inp.lag);
    SeenObserved(st1, a.id, inp.reply.windows);
  }

  lemma {:induction false} DispatchTells(cfg: Config, lane: string, key: string, st: State, a: Account, e: Effect, inp: Input)
    requires OnItsWay(e, st, a)
    ensures var (st', e') := Dispatch(cfg, lane, key, st, a, e, inp); Told(cfg, lane, key, st, a, st', e', inp)
  {
    hide Dispatch, Told, OnItsWay;
    if inp.reply.Unreachable? { UnreachableIs(cfg, lane, key, st, a, e, inp); }
    else if inp.reply.outcome.Overloaded? { OverloadedIs(cfg, lane, key, st, a, e, inp); }
    else if inp.reply.outcome.RefreshAuth? { RefusedIs(cfg, lane, key, st, a, e, inp); }
    else if inp.reply.outcome.Relay? { RelayedIs(cfg, lane, key, st, a, e, inp); }
    else if inp.reply.outcome.Throttled? { ThrottledIs(cfg, lane, key, st, a, e, inp); }
    else if inp.reply.outcome.Rotate? { RotatedIs(cfg, lane, key, st, a, e, inp); }
    else { HandedBackIs(cfg, lane, key, st, a, e, inp); }
  }

  // ----- what an iteration does -----

  lemma {:induction false} OthersUnseen(cfg: Config, lane: string, key: string, st: State, a: Account, e: Effect, inp: Input, x: string)
    requires x != a.id
    ensures SeenIn(Dispatch(cfg, lane, key, st, a, e, inp).0, x) == SeenIn(st, x)
  {
    hide Dispatch, FirstWithId, HealthOf, AuthCount, RenewIn;
    DispatchKeeps(cfg, lane, key, st, a, e, inp);
    Untouched(a.id, st, Dispatch(cfg, lane, key, st, a, e, inp).0, x);
    if inp.renewal.Renewed? { FoundAfterRenewal(st.accounts, a.id, inp.renewal, x); }
  }

  lemma {:induction false} BaseSeen(st: State, e: Effect, inp: Input, x: string)
    requires e.picked.Some? && FirstWithId(st.accounts, e.picked.value.id) == e.picked
    ensures var v, (base, a) := SeenIn(st, x), SentOn(st, e, inp);
      && a.id == e.picked.value.id && a.kind == e.picked.value.kind && base.clock == e.now
      && base.progress == st.progress.(attempts := st.progress.attempts + 1) && base.sticky == st.sticky
      && SeenIn(base, x) == (if For(e, x) && NeedsRenewal(e.picked.value, e.now) && inp.freshen.Renewed? then v.Tokens(inp.freshen) else v)
      && (x == a.id ==> SeenIn(base, x).account == Some(a))
  {
    hide NeedsRenewal, FirstWithId, RenewIn;
    if inp.freshen.Renewed? { FoundAfterRenewal(st.accounts, e.picked.value.id, inp.freshen, x); }
  }

  /** Everything an iteration leaves is told by its effect and its input. */
  ghost predicate StepTold(cfg: Config, lane: string, key: string, st: State, inp: Input, st': State, e: Effect) {
    && (forall id :: SeenIn(st', id) == SeenNext(cfg, SeenIn(st, id), e, inp, id))
    && st'.progress.streak == StreakNext(st.progress.streak, e)
    && st'.progress.attempts == st.progress.attempts + (if e.picked.Some? then 1 else 0)
    && (e.picked.Some? ==>
        && e.picked == SeenIn(st, e.picked.value.id).account
        && (e.reply.None? <==> NeedsRenewal(e.picked.value, e.now) && !inp.freshen.Renewed?)
        && (e.reply.None? ==> e.slept.None? && e.ending == (if inp.aborted then Some(Cancelled) else None))
        && (e.reply.Some? ==>
            && e.reply == Some(inp.reply) && e.heard == e.now + inp.lag
            && EndsAsTold(cfg, |LaneAccounts(st.accounts, lane)|, st.progress.streak, AuthCount(st.progress, e.picked.value.id),
                          st.progress.attempts + 1, SentOn(st, e, inp).1, e, inp)
            && (e.ending.None? ==> st'.clock == e.heard + (if e.slept.Some? && e.slept.value > 0 then e.slept.value + inp.oversleep else 0))))
    && st'.sticky == (if e.picked.Some? && e.reply.Some? && e.reply.value.Response? && e.reply.value.outcome.Relay?
                      then StickySet(st.sticky, cfg.rotation.stickyTtl, key, e.picked.value.id, e.heard) else st.sticky)
  }

  lemma {:induction false} SentTold(cfg: Config, lane: string, key: string, st: State, inp: Input)
    requires Inv(st)
    ensures var (st', e) := Step(cfg, lane, key, st, inp);
      e.picked.Some? && e.reply.Some? ==> StepTold(cfg, lane, key, st, inp, st', e)
  {
    hide Step, Dispatch, EndsAsTold, Answered, NeedsRenewal, LaneAccounts, SeenIn, SentOn, StickySet, StreakNext, AuthCount, Inv, FailsFresh;
    var (st', e) := Step(cfg, lane, key, st, inp);
    if e.picked.Some? && e.reply.Some? {
      PickSends(cfg, lane, key, st, inp);
      var (base, a) := SentOn(st, e, inp);
      BaseSeen(st, e, inp, a.id);
      PickedIsSeen(st, e);
      BaseLane(cfg, lane, key, st, inp);
      DispatchTells(cfg, lane, key, base, a, Opened(e.now, e.picked.value), inp);
      BaseCounts(st, base, a.id);
      forall id ensures SeenIn(st', id) == SeenNext(cfg, SeenIn(st, id), e, inp, id) {
        BaseSeen(st, e, inp, id);
        if id != a.id { OthersUnseen(cfg, lane, key, base, a, Opened(e.now, e.picked.value), inp, id); }
      }
    }
  }

  lemma {:induction false} PickedIsSeen(st: State, e: Effect)
    requires e.picked.Some? && FirstWithId(st.accounts, e.picked.value.id) == e.picked
    ensures e.picked == SeenIn(st, e.picked.value.id).account
  {
    hide FirstWithId, HealthOf, AuthCount;
  }

  lemma {:induction false} BaseCounts(st: State, base: State, id: string)
    requires base.progress == st.progress.(attempts := st.progress.attempts + 1)
    ensures AuthCount(base.progress, id) == AuthCount(st.progress, id) && base.progress.streak == st.progress.streak
    ensures base.progress.attempts == st.progress.attempts + 1
  {}

  lemma {:induction false} BaseLane(cfg: Config, lane: string, key: string, st: State, inp: Input)
    requires Inv(st)
    ensures var e := Step(cfg, lane, key, st, inp).1;
      e.picked.Some? ==> |LaneAccounts(SentOn(st, e, inp).0.accounts, lane)| == |LaneAccounts(st.accounts, lane)|
  {
    hide Step, LaneAccounts, InLane, RenewIn, View.Select, HealthOf, SamePool;
    var e := Step(cfg, lane, key, st, inp).1;
    if e.picked.Some? && NeedsRenewal(e.picked.value, e.now) && inp.freshen.Renewed? {
      StepKeeps(cfg, lane, key, st, inp);
      RenewKeepsPool(lane, st.accounts, e.picked.value, inp.freshen);
      EngineSpin.SamePoolSize(lane, st.accounts, RenewIn(st.accounts, e.picked.value.id, inp.freshen));
    }
  }

  lemma {:induction false} FreshTold(cfg: Config, lane: string, key: string, st: State, inp: Input)
    requires Inv(st)
    ensures var (st', e) := Step(cfg, lane, key, st, inp);
      e.picked.Some? && e.reply.None? ==> StepTold(cfg, lane, key, st, inp, st', e)
  {
    hide Step, Dispatch, EndsAsTold, Answered, NeedsRenewal, LaneAccounts, StickySet, FirstWithId, SentOn, Inv;
    PickSends(cfg, lane, key, st, inp);
  }

  lemma {:induction false} ParkLeaves(cfg: Config, lane: string, st: State, e: Effect, inp: Input)
    requires e.picked.None? && e.ending.None?
    ensures var (st', e') := Park(cfg, lane, st, e, inp);
      e'.picked.None? && e'.reply == e.reply && st' == (if e'.ending.Some? then st else NewRound(st.(clock := st'.clock)))
  {
    hide LaneAccounts, NextRecovery, Unusable, SkewAllowance;
  }

  lemma {:induction false} RoundTold(cfg: Config, lane: string, key: string, st: State, inp: Input, st': State, e: Effect)
    requires e.picked.None? && e.reply.None?
    requires if e.ending.Some? then st' == st.(clock := st'.clock) else st' == NewRound(st.(clock := st'.clock))
    ensures StepTold(cfg, lane, key, st, inp, st', e)
  {
    hide FirstWithId, HealthOf, StickySet, LaneAccounts;
  }

  lemma {:induction false} ParkTold(cfg: Config, lane: string, key: string, st: State, inp: Input)
    requires Inv(st)
    ensures var (st', e) := Step(cfg, lane, key, st, inp);
      e.picked.None? ==> StepTold(cfg, lane, key, st, inp, st', e)
  {
    hide Attempt, View.Select, Park, StepTold, Inv;
    var (st', e) := Step(cfg, lane, key, st, inp);
    if e.picked.None? {
      if !inp.cancelled {
        var st1 := st.(clock := st.clock + inp.tick);
        var e0 := Effect(st1.clock, None, None, st1.clock, None, false, None);
        match SelectionView(cfg, lane, key, st1).Select()
        case Some(a) => EngineSpin.AttemptPicks(cfg, lane, key, st1, a, e0, inp);
        case None => ParkLeaves(cfg, lane, st1, e0, inp);
      }
      RoundTold(cfg, lane, key, st, inp, st', e);
    }
  }

  lemma {:induction false} StepTells(cfg: Config, lane: string, key: string, st: State, inp: Input)
    requires Inv(st)
    ensures var (st', e) := Step(cfg, lane, key, st, inp); StepTold(cfg, lane, key, st, inp, st', e)
  {
    hide Step, StepTold, Inv;
    var (st', e) := Step(cfg, lane, key, st, inp);
    if e.picked.None? { ParkTold(cfg, lane, key, st, inp); }
    else if e.reply.Some? { SentTold(cfg, lane, key, st, inp); }
    else { FreshTold(cfg, lane, key, st, inp); }
  }

  // ----- whole runs -----

  function Picks(trace: seq<Effect>): nat {
    if trace == [] then 0 else (if trace[0].picked.Some? then 1 else 0) + Picks(trace[1..])
  }

  /** Over whole runs: each account is what its own replies, in order, have made of it, whoever else was tried and
      whatever they answered; the streak and the attempts are counted from the replies. */
  lemma {:induction false} RunIsTold(cfg: Config, lane: string, key: string, st: State, script: seq<Input>, id: string)
    requires Inv(st)
    ensures var r := RunFrom(cfg, lane, key, st, script);
      && SeenIn(r.last, id) == SeenAfter(cfg, SeenIn(st, id), r.trace, script, id)
      && r.last.progress.streak == StreakAfter(st.progress.streak, r.trace)
      && r.last.progress.attempts == st.progress.attempts + Picks(r.trace)
    decreases |script|
  {
    hide Step, Inv, SamePool, StreakNext, SeenNext, SeenIn;
    if script != [] {
      var (st', e) := Step(cfg, lane, key, st, script[0]);
      StepKeeps(cfg, lane, key, st, script[0]);
      StepTells(cfg, lane, key, st, script[0]);
      if e.ending.None? {
        RunIsTold(cfg, lane, key, st', script[1..], id);
        var rest := RunFrom(cfg, lane, key, st', script[1..]).trace;
        assert ([e] + rest)[1..] == rest && ([e] + rest)[0] == e;
      } else {
        assert [e][1..] == [];
      }
    }
  }

  /** How an iteration of a run stands to the iterations before it: how it ends, and what it waits for. */
  lemma {:induction false} EveryReplyIsTold(cfg: Config, lane: string, key: string, st: State, script: seq<Input>, i: nat)
    requires Inv(st) && i < |RunFrom(cfg, lane, key, st, script).trace|
    ensures var trace := RunFrom(cfg, lane, key, st, script).trace;
      var e := trace[i];
      e.picked.Some? ==>
        && e.picked == SeenAfter(cfg, SeenIn(st, e.picked.value.id), trace[..i], script[..i], e.picked.value.id).account
        && (e.reply.None? <==> NeedsRenewal(e.picked.value, e.now) && !script[i].freshen.Renewed?)
        && (e.reply.Some? ==>
            && e.reply == Some(script[i].reply)
            && EndsAsTold(cfg, |LaneAccounts(st.accounts, lane)|, StreakAfter(st.progress.streak, trace[..i]),
                          SeenAfter(cfg, SeenIn(st, e.picked.value.id), trace[..i], script[..i], e.picked.value.id).refusals,
                          st.progress.attempts + Picks(trace[..i]) + 1, SentFor(e, script[i]), e, script[i]))
    decreases |script|
  {
    hide Step, Inv, SamePool, StreakNext, SeenNext, SeenIn, EndsAsTold, NeedsRenewal, LaneAccounts, StickySet;
    var (st', e) := Step(cfg, lane, key, st, script[0]);
    StepKeeps(cfg, lane, key, st, script[0]);
    StepTells(cfg, lane, key, st, script[0]);
    var trace := RunFrom(cfg, lane, key, st, script).trace;
    if i == 0 {
      assert trace[0] == e && trace[..0] == [] && script[..0] == [];
      if e.picked.Some? { CountsFromStart(cfg, lane, key, st, e, script[0], st'); }
    } else {
      EveryReplyIsTold(cfg, lane, key, st', script[1..], i - 1);
      var rest := RunFrom(cfg, lane, key, st', script[1..]).trace;
      EngineSpin.SamePoolSize(lane, st.accounts, st'.accounts);
      assert trace == [e] + rest && trace[..i][0] == e && trace[..i][1..] == rest[..i - 1];
      assert script[..i][0] == script[0] && script[..i][1..] == script[1..][..i - 1];
    }
  }

  /** The account a request goes out with. */
  function SentFor(e: Effect, inp: Input): Account
    requires e.picked.Some?
  {
    var a := e.picked.value;
    if NeedsRenewal(a, e.now) && inp.freshen.Renewed? then a.Renewed(inp.freshen.access, inp.freshen.refresh, inp.freshen.expiresAt) else a
  }

  lemma {:induction false} SentIs(st: State, e: Effect, inp: Input)
    requires e.picked.Some?
    ensures SentOn(st, e, inp).1 == SentFor(e, inp)
  {
    hide NeedsRenewal;
  }

  lemma {:induction false} CountsFromStart(cfg: Config, lane: string, key: string, st: State, e: Effect, inp: Input, st': State)
    requires e.picked.Some? && StepTold(cfg, lane, key, st, inp, st', e)
    ensures e.reply.Some? ==> EndsAsTold(cfg, |LaneAccounts(st.accounts, lane)|, StreakAfter(st.progress.streak, []),
      SeenAfter(cfg, SeenIn(st, e.picked.value.id), [], [], e.picked.value.id).refusals, st.progress.attempts + Picks([]) + 1, SentFor(e, inp), e, inp)
    ensures e.reply.Some? ==> e.reply == Some(inp.reply)
    ensures e.picked == SeenAfter(cfg, SeenIn(st, e.picked.value.id), [], [], e.picked.value.id).account
    ensures e.reply.None? <==> NeedsRenewal(e.picked.value, e.now) && !inp.freshen.Renewed?
  {
    SentIs(st, e, inp);
    hide EndsAsTold, NeedsRenewal, LaneAccounts, StickySet, StreakNext, SeenNext, SentOn;
  }

  // ----- overloads in a row -----

  /** Every iteration sends on this account, hears that it is overloaded, and ends nothing. */
  predicate OverloadedOn(trace: seq<Effect>, id: string) {
    forall i :: 0 <= i < |trace| ==>
      For(trace[i], id) && trace[i].reply.Some? && trace[i].reply.value.Response? && trace[i].reply.value.outcome.Overloaded? && trace[i].ending.None?
  }

  lemma {:induction false} OverloadedTail(e: Effect, rest: seq<Effect>, id: string)
    requires OverloadedOn([e] + rest, id)
    ensures OverloadedOn([e], id) && OverloadedOn(rest, id)
  {
    assert ([e] + rest)[0] == e;
    assert forall i :: 0 <= i < |rest| ==> rest[i] == ([e] + rest)[i + 1];
  }

  /** One overload: the account is waited for or walked away from, and is otherwise what it was. */
  lemma {:induction false} OverloadStep(cfg: Config, lane: string, key: string, st: State, inp: Input, id: string)
    requires Inv(st) && OverloadedOn([Step(cfg, lane, key, st, inp).1], id)
    ensures var (st', e) := Step(cfg, lane, key, st, inp);
      var rotates := st.progress.streak + 1 >= cfg.rotateAfter && |LaneAccounts(st.accounts, lane)| > 1;
      && st'.progress.streak == (if rotates then 0 else st.progress.streak + 1)
      && e.slept == (if rotates then None else Some(Backoff(cfg, st.progress.streak + 1, inp.jitter)))
      && (id in st'.progress.tried <==> rotates || id in st.progress.tried)
      && HealthOf(st'.health, id) == HealthOf(st.health, id).(windows := HealthOf(st'.health, id).windows)
  {
    var (st', e) := Step(cfg, lane, key, st, inp);
    assert [e][0] == e;
    StepTells(cfg, lane, key, st, inp);
    HearsOverload(cfg, SeenIn(st, id), e, inp);
    assert SeenIn(st', id) == Hears(cfg, SeenIn(st, id), e, inp);
    hide Step, LaneAccounts, StickySet, Backoff, NeedsRenewal, FirstWithId, AuthCount, SentOn, HealthOf, Inv, Hears, SeenNext;
  }

  lemma {:induction false} HearsOverload(cfg: Config, v: Seen, e: Effect, inp: Input)
    requires OverloadSeen(e) && e.ending.None? && e.reply.value.Response?
    requires NeedsRenewal(e.picked.value, e.now) ==> inp.freshen.Renewed?
    ensures var u := Hears(cfg, v, e, inp);
      u.tried == (v.tried || e.slept.None?) && u.health == v.health.(windows := u.health.windows)
  {
    hide NeedsRenewal;
  }

  /** Once the streak is full on one account of several, the last overload waits for nothing, and if any other account
      can be used the next request goes to one. */
  lemma {:induction false} OverloadsRotate(cfg: Config, lane: string, key: string, st: State, script: seq<Input>, id: string, next: Input)
    requires Inv(st) && 0 <= st.progress.streak && st.progress.streak + |script| == cfg.rotateAfter && script != []
    requires |LaneAccounts(st.accounts, lane)| > 1
    requires var trace := RunFrom(cfg, lane, key, st, script).trace; |trace| == |script| && OverloadedOn(trace, id)
    ensures var r := RunFrom(cfg, lane, key, st, script); var n := |script| - 1;
      && (forall i :: 0 <= i < n ==> r.trace[i].slept == Some(Backoff(cfg, st.progress.streak + i + 1, script[i].jitter)))
      && r.trace[n].slept.None? && r.last.progress.streak == 0
      && var e := Step(cfg, lane, key, r.last, next).1;
         && !For(e, id)
         && (!next.cancelled && (exists b: Account :: b.id != id && SelectionView(cfg, lane, key, r.last.(clock := e.now)).Eligible(b)) ==> e.picked.Some?)
    decreases |script|
  {
    hide Step, Inv, LaneAccounts, Backoff, SamePool, View.Eligible, HealthOf;
    var (st', e) := Step(cfg, lane, key, st, script[0]);
    var rest := RunFrom(cfg, lane, key, st', script[1..]).trace;
    var r := RunFrom(cfg, lane, key, st, script);
    assert e.ending.None? by { assert r.trace[0] == e; }
    assert r.trace == [e] + rest;
    OverloadedTail(e, rest, id);
    StepKeeps(cfg, lane, key, st, script[0]);
    OverloadStep(cfg, lane, key, st, script[0], id);
    EngineSpin.SamePoolSize(lane, st.accounts, st'.accounts);
    if |script| > 1 {
      OverloadsRotate(cfg, lane, key, st', script[1..], id, next);
      forall i | 0 <= i < |script| - 1 ensures r.trace[i].slept == Some(Backoff(cfg, st.progress.streak + i + 1, script[i].jitter)) {
        if i > 0 { assert r.trace[i] == rest[i - 1] && script[i] == script[1..][i - 1]; }
      }
    } else {
      assert script[1..] == [] && rest == [] && r.last == st';
      NotTriedAgain(cfg, lane, key, st', next, id);
    }
  }

  lemma {:induction false} NotTriedAgain(cfg: Config, lane: string, key: string, st: State, next: Input, id: string)
    requires Inv(st) && id in st.progress.tried
    ensures var e := Step(cfg, lane, key, st, next).1;
      && !For(e, id)
      && (!next.cancelled && (exists b: Account :: b.id != id && SelectionView(cfg, lane, key, st.(clock := e.now)).Eligible(b)) ==> e.picked.Some?)
  {
    hide Step, HealthOf, InLane, EngineSafety.ParkDecision, SamePool;
    StepKeeps(cfg, lane, key, st, next);
    if !next.cancelled { EngineSafety.StepDecides(cfg, lane, key, st, next); } else { CancelledPicksNobody(cfg, lane, key, st, next); }
  }

  lemma CancelledPicksNobody(cfg: Config, lane: string, key: string, st: State, inp: Input)
    requires inp.cancelled
    ensures Step(cfg, lane, key, st, inp).1.picked.None?
  {}

  /** The only account of a lane is never walked away from: each overload waits its backoff, longer and longer, and the
      next request goes to the same account. */
  lemma {:induction false} LoneAccountBacksOff(cfg: Config, lane: string, key: string, st: State, script: seq<Input>, id: string, next: Input)
    requires Inv(st) && script != [] && |LaneAccounts(st.accounts, lane)| == 1
    requires var trace := RunFrom(cfg, lane, key, st, script).trace; |trace| == |script| && OverloadedOn(trace, id)
    ensures var r := RunFrom(cfg, lane, key, st, script);
      && (forall i :: 0 <= i < |script| ==> r.trace[i].slept == Some(Backoff(cfg, st.progress.streak + i + 1, script[i].jitter)))
      && (!next.cancelled ==> For(Step(cfg, lane, key, r.last, next).1, id))
    decreases |script|
  {
    hide Step, Inv, LaneAccounts, Backoff, SamePool, HealthOf;
    var (st', e) := Step(cfg, lane, key, st, script[0]);
    var rest := RunFrom(cfg, lane, key, st', script[1..]).trace;
    var r := RunFrom(cfg, lane, key, st, script);
    assert e.ending.None? by { assert r.trace[0] == e; }
    assert r.trace == [e] + rest;
    OverloadedTail(e, rest, id);
    StepKeeps(cfg, lane, key, st, script[0]);
    OverloadStep(cfg, lane, key, st, script[0], id);
    EngineSpin.SamePoolSize(lane, st.accounts, st'.accounts);
    if |script| > 1 {
      LoneAccountBacksOff(cfg, lane, key, st', script[1..], id, next);
      forall i | 0 <= i < |script| ensures r.trace[i].slept == Some(Backoff(cfg, st.progress.streak + i + 1, script[i].jitter)) {
        if i > 0 { assert r.trace[i] == rest[i - 1] && script[i] == script[1..][i - 1]; }
      }
    } else {
      assert script[1..] == [] && rest == [] && r.last == st';
      if !next.cancelled { PickedAgain(cfg, lane, key, st, script[0], id, next); }
    }
  }

  lemma {:induction false} PickedAgain(cfg: Config, lane: string, key: string, st: State, inp: Input, id: string, next: Input)
    requires Inv(st) && |LaneAccounts(st.accounts, lane)| == 1 && !next.cancelled
    requires OverloadedOn([Step(cfg, lane, key, st, inp).1], id)
    ensures For(Step(cfg, lane, key, Step(cfg, lane, key, st, inp).0, next).1, id)
  {
    var (st', e) := Step(cfg, lane, key, st, inp);
    assert [e][0] == e;
    OverloadStep(cfg, lane, key, st, inp, id);
    StepKeeps(cfg, lane, key, st, inp);
    StepKeeps(cfg, lane, key, st', next);
    EngineSafety.StepDecides(cfg, lane, key, st', next);
    var e' := Step(cfg, lane, key, st', next).1;
    hide Step, InLane, LaneAccounts, EngineSafety.ParkDecision, Health.AvailableAt, HealthOf, Backoff;
    assert HealthOf(st.health, id).AvailableAt(e.now);
    SameButWindows(HealthOf(st.health, id), HealthOf(st'.health, id));
    EngineSafety.StaysAvailable(HealthOf(st'.health, id), e.now, e'.now);
    var a := StillThere(lane, st.accounts, st'.accounts, e.picked.value);
    assert SelectionView(cfg, lane, key, st'.(clock := e'.now)).Eligible(a);
    EngineSpin.SamePoolSize(lane, st.accounts, st'.accounts);
    OnlyOne(lane, st'.accounts, a, e'.picked.value);
  }

  lemma SameButWindows(h: Health, h': Health)
    requires h' == h.(windows := h'.windows)
    ensures forall t :: h'.AvailableAt(t) == h.AvailableAt(t)
  {}

  lemma {:induction false} StillThere(lane: string, before: seq<Account>, after: seq<Account>, a: Account) returns (b: Account)
    requires SamePool(lane, before, after) && a in before && InLane(a, lane)
    ensures b in after && b.id == a.id && InLane(b, lane)
  {
    hide InLane;
    var i :| 0 <= i < |before| && before[i] == a;
    b := after[i];
  }

  lemma {:induction false} OnlyOne(lane: string, accounts: seq<Account>, a: Account, b: Account)
    requires |LaneAccounts(accounts, lane)| == 1 && a in accounts && b in accounts && InLane(a, lane) && InLane(b, lane)
    ensures a == b
  {
    hide LaneAccounts, InLane;
    LaneMembers(accounts, lane);
  }

  // ----- throttles -----

  predicate HeldUntil(st: State, id: string, t: Time) {
    var h := HealthOf(st.health, id);
    h.state.Cooling? && h.until >= t
  }

  predicate ThrottledOn(e: Effect) {
    e.picked.Some? && e.reply.Some? && e.reply.value.Response? && e.reply.value.outcome.Throttled?
  }

  lemma {:induction false} HeldStaysOut(cfg: Config, lane: string, key: string, st: State, script: seq<Input>, id: string, t: Time, k: nat)
    requires Inv(st) && (HeldUntil(st, id, t) || st.clock >= t)
    requires k < |RunFrom(cfg, lane, key, st, script).trace| && For(RunFrom(cfg, lane, key, st, script).trace[k], id)
    ensures RunFrom(cfg, lane, key, st, script).trace[k].now >= t
    decreases |script|
  {
    hide Step, Inv, SamePool;
    var (st', e) := Step(cfg, lane, key, st, script[0]);
    StepKeeps(cfg, lane, key, st, script[0]);
    if k > 0 {
      EngineSafety.UnpickedUntouched(cfg, lane, key, st, script[0], id);
      HeldStaysOut(cfg, lane, key, st', script[1..], id, t, k - 1);
    }
  }

  /** An account told to hold is waited for, and is not used again before that time has passed since the request was made. */
  lemma {:induction false} ThrottleIsRespected(cfg: Config, lane: string, key: string, st: State, script: seq<Input>, i: nat, j: nat)
    requires Inv(st) && i < |RunFrom(cfg, lane, key, st, script).trace| && ThrottledOn(RunFrom(cfg, lane, key, st, script).trace[i])
    ensures var trace := RunFrom(cfg, lane, key, st, script).trace; var wait := trace[i].reply.value.outcome.retryAfter;
      && trace[i].slept == Some(wait)
      && (i < j < |trace| && For(trace[j], trace[i].picked.value.id) ==> trace[j].now >= trace[i].now + wait)
    decreases |script|
  {
    hide Step, Inv, SamePool;
    var (st', e) := Step(cfg, lane, key, st, script[0]);
    StepKeeps(cfg, lane, key, st, script[0]);
    var trace := RunFrom(cfg, lane, key, st, script).trace;
    var rest := RunFrom(cfg, lane, key, st', script[1..]).trace;
    if i > 0 {
      assert trace == [e] + rest;
      ThrottleIsRespected(cfg, lane, key, st', script[1..], i - 1, if j > 0 then j - 1 else 0);
    } else {
      assert trace[0] == e;
      HeldByThrottle(cfg, lane, key, st, script[0]);
      if j > 0 && j < |trace| && For(trace[j], e.picked.value.id) {
        assert trace == [e] + rest && trace[j] == rest[j - 1];
        HeldStaysOut(cfg, lane, key, st', script[1..], e.picked.value.id, e.now + e.reply.value.outcome.retryAfter, j - 1);
      }
    }
  }

  lemma {:induction false} HeldByThrottle(cfg: Config, lane: string, key: string, st: State, inp: Input)
    requires Inv(st) && ThrottledOn(Step(cfg, lane, key, st, inp).1)
    ensures var (st', e) := Step(cfg, lane, key, st, inp); var wait := e.reply.value.outcome.retryAfter;
      e.slept == Some(wait) && HeldUntil(st', e.picked.value.id, e.now + wait)
  {
    hide Step, Inv, StepTold;
    var (st', e) := Step(cfg, lane, key, st, inp);
    StepTells(cfg, lane, key, st, inp);
    ThrottleTold(cfg, lane, key, st, inp, st', e);
  }

  lemma {:induction false} ThrottleTold(cfg: Config, lane: string, key: string, st: State, inp: Input, st': State, e: Effect)
    requires ThrottledOn(e) && StepTold(cfg, lane, key, st, inp, st', e)
    ensures var wait := e.reply.value.outcome.retryAfter; e.slept == Some(wait) && HeldUntil(st', e.picked.value.id, e.now + wait)
  {
    var id := e.picked.value.id;
    HearsThrottle(cfg, SeenIn(st, id), e, inp);
    assert SeenIn(st', id) == Hears(cfg, SeenIn(st, id), e, inp);
    hide StickySet, NeedsRenewal, AuthCount, LaneAccounts, SentOn, Hears, StreakNext, HealthOf, OverloadTold;
  }

  lemma {:induction false} HearsThrottle(cfg: Config, v: Seen, e: Effect, inp: Input)
    requires ThrottledOn(e) && (NeedsRenewal(e.picked.value, e.now) ==> inp.freshen.Renewed?)
    ensures var u := Hears(cfg, v, e, inp); u.health.state.Cooling? && u.health.until == e.now + e.reply.value.outcome.retryAfter
  {
    hide NeedsRenewal;
  }

  // ----- the account that served -----

  predicate ServedLast(trace: seq<Effect>) {
    trace != [] && trace[|trace| - 1].ending.Some? && trace[|trace| - 1].ending.value.Served?
  }

  /** A later request, made of what an earlier one has left. */
  predicate MadeLater(st: State, later: State) {
    && later.accounts == st.accounts && later.health == st.health && later.sticky == st.sticky
    && later.progress.tried == {} && later.clock >= st.clock
  }

  /** The account that served is there to be used: preferred while stickiness lasts, and no longer. */
  ghost predicate Sticks(cfg: Config, lane: string, key: string, later: State, e: Effect)
    requires e.ending.Some? && e.ending.value.Served?
  {
    var a, v := e.ending.value.account, SelectionView(cfg, lane, key, later);
    && For(e, a.id) && a in later.accounts && v.Eligible(a)
    && (later.clock <= e.heard + cfg.rotation.stickyTtl ==>
          (v.Select() == Some(a) <==> v.Fresh(a) || forall b :: v.Eligible(b) ==> !v.Fresh(b)))
    && (later.clock > e.heard + cfg.rotation.stickyTtl ==> v.preferred.None?)
  }

  /** A served request names the account it was sent with; a later request of the same conversation goes to it while
      stickiness lasts, unless it is nearly spent while another is not, and once that is over nothing is preferred. */
  lemma {:induction false} ServedSticks(cfg: Config, lane: string, key: string, st: State, script: seq<Input>, later: State)
    requires Inv(st) && cfg.rotation.sticky && cfg.rotation.stickyTtl >= 0 && key != ""
    requires ServedLast(RunFrom(cfg, lane, key, st, script).trace) && MadeLater(RunFrom(cfg, lane, key, st, script).last, later)
    ensures var trace := RunFrom(cfg, lane, key, st, script).trace; Sticks(cfg, lane, key, later, trace[|trace| - 1])
    decreases |script|
  {
    hide Step, Inv, SamePool, Sticks, MadeLater;
    var (st', e) := Step(cfg, lane, key, st, script[0]);
    StepKeeps(cfg, lane, key, st, script[0]);
    var r := RunFrom(cfg, lane, key, st, script);
    if e.ending.None? {
      var rest := RunFrom(cfg, lane, key, st', script[1..]);
      assert r.trace == [e] + rest.trace;
      ServedSticks(cfg, lane, key, st', script[1..], later);
    } else {
      assert r.trace == [e];
      ServedNow(cfg, lane, key, st, script[0], later);
    }
  }

  lemma {:induction false} ServedNow(cfg: Config, lane: string, key: string, st: State, inp: Input, later: State)
    requires Inv(st) && cfg.rotation.sticky && cfg.rotation.stickyTtl >= 0 && key != ""
    requires var (st', e) := Step(cfg, lane, key, st, inp);
      e.ending.Some? && e.ending.value.Served? && MadeLater(st', later)
    ensures Sticks(cfg, lane, key, later, Step(cfg, lane, key, st, inp).1)
  {
    var (st', e) := Step(cfg, lane, key, st, inp);
    ServedBy(cfg, lane, key, st, inp);
    StepKeeps(cfg, lane, key, st, inp);
    hide Step, HealthOf, InLane, SamePool, UniqueIds, View.Select, View.Eligible, View.Fresh;
    ServedView(cfg, lane, key, later, e.ending.value.account, e.heard);
  }

  /** What a served request leaves of the account that served it. */
  lemma {:induction false} ServedBy(cfg: Config, lane: string, key: string, st: State, inp: Input)
    requires Inv(st) && Step(cfg, lane, key, st, inp).1.ending.Some? && Step(cfg, lane, key, st, inp).1.ending.value.Served?
    ensures var (st', e) := Step(cfg, lane, key, st, inp); var a := e.ending.value.account;
      && For(e, a.id) && a in st'.accounts && InLane(a, lane) && HealthOf(st'.health, a.id).state.Available?
      && st'.sticky == StickySet(st.sticky, cfg.rotation.stickyTtl, key, a.id, e.heard)
  {
    hide Step, Inv, StepTold, InLane, SamePool, HealthOf, SeenNext, SeenIn, StickySet, EngineSafety.ParkDecision, View.Eligible;
    var (st', e) := Step(cfg, lane, key, st, inp);
    StepKeeps(cfg, lane, key, st, inp);
    StepTells(cfg, lane, key, st, inp);
    if e.picked.None? {
      ParkServesNobody(cfg, lane, key, st, inp);
    } else {
      RelayTold(cfg, lane, key, st, inp, st', e);
      PickedInLane(cfg, lane, key, st, e);
      InvIsUnique(st);
      InLaneStill(lane, st.accounts, st'.accounts, e.picked.value, e.ending.value.account);
    }
  }

  lemma InvIsUnique(st: State)
    requires Inv(st)
    ensures UniqueIds(st.accounts)
  {}

  lemma PickedInLane(cfg: Config, lane: string, key: string, st: State, e: Effect)
    requires e.picked.Some? && SelectionView(cfg, lane, key, st.(clock := e.now)).Eligible(e.picked.value)
    ensures e.picked.value in st.accounts && InLane(e.picked.value, lane)
  {
    hide InLane, HealthOf;
  }

  lemma {:induction false} RelayTold(cfg: Config, lane: string, key: string, st: State, inp: Input, st': State, e: Effect)
    requires e.picked.Some? && StepTold(cfg, lane, key, st, inp, st', e) && e.ending.Some? && e.ending.value.Served?
    ensures var a := e.ending.value.account;
      && For(e, a.id) && a in st'.accounts && HealthOf(st'.health, a.id).state.Available?
      && st'.sticky == StickySet(st.sticky, cfg.rotation.stickyTtl, key, a.id, e.heard)
  {
    hide StepTold, Hears, SeenIn, SentFor, NeedsRenewal, HealthOf, StickySet;
    ServedIsRelayed(cfg, lane, key, st, inp, st', e);
    HearsRelay(cfg, SeenIn(st, e.picked.value.id), e, inp);
    RelayedSeen(cfg, lane, key, st, inp, st', e);
  }

  lemma {:induction false} ServedIsRelayed(cfg: Config, lane: string, key: string, st: State, inp: Input, st': State, e: Effect)
    requires e.picked.Some? && StepTold(cfg, lane, key, st, inp, st', e) && e.ending.Some? && e.ending.value.Served?
    ensures e.reply.Some? && e.reply.value.Response? && e.reply.value.outcome.Relay? && e.ending.value.account == SentFor(e, inp)
    ensures SentFor(e, inp).id == e.picked.value.id && e.picked == SeenIn(st, e.picked.value.id).account
    ensures NeedsRenewal(e.picked.value, e.now) ==> inp.freshen.Renewed?
  {
    SentIs(st, e, inp);
    hide SeenIn, SeenNext, LaneAccounts, StickySet, StreakNext, NeedsRenewal, SentOn, AuthCount, EndsAsTold;
    if e.reply.Some? {
      EndsServed(cfg, |LaneAccounts(st.accounts, lane)|, st.progress.streak, AuthCount(st.progress, e.picked.value.id),
                 st.progress.attempts + 1, SentOn(st, e, inp).1, e, inp);
    }
  }

  lemma {:induction false} EndsServed(cfg: Config, accounts: nat, streak: int, refusals: nat, attempts: nat, sent: Account, e: Effect, inp: Input)
    requires e.reply.Some? && EndsAsTold(cfg, accounts, streak, refusals, attempts, sent, e, inp) && e.ending.Some? && e.ending.value.Served?
    ensures e.reply.value.Response? && e.reply.value.outcome.Relay? && e.ending == Some(Served(sent, attempts))
  {
    hide Backoff;
  }

  lemma {:induction false} RelayedSeen(cfg: Config, lane: string, key: string, st: State, inp: Input, st': State, e: Effect)
    requires e.picked.Some? && StepTold(cfg, lane, key, st, inp, st', e)
    requires e.reply.Some? && e.reply.value.Response? && e.reply.value.outcome.Relay?
    requires var u := Hears(cfg, SeenIn(st, e.picked.value.id), e, inp);
      u.account.Some? && u.account.value.id == e.picked.value.id && u.health.state.Available?
    ensures var id := e.picked.value.id; var u := Hears(cfg, SeenIn(st, id), e, inp);
      && u.account.value in st'.accounts && HealthOf(st'.health, id).state.Available?
      && st'.sticky == StickySet(st.sticky, cfg.rotation.stickyTtl, key, id, e.heard)
  {
    var id := e.picked.value.id;
    assert SeenIn(st', id) == SeenNext(cfg, SeenIn(st, id), e, inp, id);
    hide StickySet, NeedsRenewal, AuthCount, LaneAccounts, SentOn, Hears, StreakNext, HealthOf, EndsAsTold;
  }

  lemma {:induction false} HearsRelay(cfg: Config, v: Seen, e: Effect, inp: Input)
    requires e.picked.Some? && e.picked == v.account && e.reply.Some? && e.reply.value.Response? && e.reply.value.outcome.Relay?
    requires NeedsRenewal(e.picked.value, e.now) ==> inp.freshen.Renewed?
    ensures var u := Hears(cfg, v, e, inp); u.account == Some(SentFor(e, inp)) && u.health.state.Available?
  {
    hide NeedsRenewal;
  }

  lemma {:induction false} InLaneStill(lane: string, before: seq<Account>, after: seq<Account>, a: Account, b: Account)
    requires SamePool(lane, before, after) && UniqueIds(before) && a in before && InLane(a, lane) && b in after && b.id == a.id
    ensures InLane(b, lane)
  {
    hide InLane;
    var i :| 0 <= i < |before| && before[i] == a;
    var j :| 0 <= j < |after| && after[j] == b;
    assert before[j].id == b.id;
  }

  lemma ParkServesNobody(cfg: Config, lane: string, key: string, st: State, inp: Input)
    requires Inv(st)
    ensures var e := Step(cfg, lane, key, st, inp).1; e.picked.None? && e.ending.Some? ==> !e.ending.value.Served?
  {
    if !inp.cancelled {
      hide Step, View.Eligible, Inv;
      EngineSafety.StepDecides(cfg, lane, key, st, inp);
    }
  }

  lemma {:induction false} ServedView(cfg: Config, lane: string, key: string, later: State, a: Account, at: Time)
    requires Inv(later) && cfg.rotation.sticky && cfg.rotation.stickyTtl >= 0 && key != ""
    requires a in later.accounts && InLane(a, lane) && HealthOf(later.health, a.id).state.Available? && later.progress.tried == {}
    requires exists before :: later.sticky == StickySet(before, cfg.rotation.stickyTtl, key, a.id, at)
    ensures var v := SelectionView(cfg, lane, key, later);
      && v.Eligible(a)
      && (later.clock <= at + cfg.rotation.stickyTtl ==> (v.Select() == Some(a) <==> v.Fresh(a) || forall b :: v.Eligible(b) ==> !v.Fresh(b)))
      && (later.clock > at + cfg.rotation.stickyTtl ==> v.preferred.None?)
  {
    var v := SelectionView(cfg, lane, key, later);
    SelectedIsEligible(cfg, lane, key, later);
    EngineSafety.CanBeUsed(cfg, lane, key, later, a);
    hide View.Select, View.IsChoice, InLane;
    assert later.sticky[key] == StickyEntry(a.id, at);
    if later.clock <= at + cfg.rotation.stickyTtl { EngineSafety.Preferred(v, later.accounts, a); }
  }
}
