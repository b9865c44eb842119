/** One request's run against the pool, as a step function over everything the loop in
    `Engine.Execute` reads and writes (internal/engine/engine.go).  Each loop iteration
    consumes one `Input`: what the clock, the network, the lane and the caller's context
    did during it.  Every finite prefix of a run is the run of some sequence of inputs. */
module EngineRun {
  import opened Basics
  import opened Selection

  datatype Config = Config(
    rotation: Rotation, overloadInitial: int, overloadMax: int, rotateAfter: int,
    authRefreshAttempts: int, parkEnabled: bool, parkBuffer: int, maxHold: int)
  {
    /** The part of `Config.Validate` that governs the retry loop. */
    predicate Valid() {
      0 < overloadInitial <= overloadMax && 1 <= rotateAfter
    }
  }

  const REFRESH_SKEW := 60_000_000_000
  const MIN_COOLDOWN := 60_000_000_000

  type Jitter = j: real | 0.5 <= j < 1.5 witness 1.0
  type Token = s: string | s != "" witness "t"

  datatype Renewal = Renewed(access: Token, refresh: string, expiresAt: nat) | RenewalFailed(why: string)

  datatype Outcome =
    | Relay
    | Fatal
    | RefreshAuth(reason: string)
    | Overloaded(reason: string)
    | Throttled(retryAfter: int, reason: string)
    | Rotate(resetAt: Time, reason: string)
    | Unhandled

  datatype Reply = Unreachable | Response(windows: seq<Window>, outcome: Outcome)

  /** `tick` passes before the clock is read, `lag` while the request is in flight, and
      `oversleep` beyond the length of a wait.  `cancelled` is the context's state at the
      top of the iteration, `aborted` its state once something later in it has failed. */
  datatype Input = Input(
    cancelled: bool, tick: nat, freshen: Renewal, lag: nat, reply: Reply,
    renewal: Renewal, jitter: Jitter, oversleep: nat, aborted: bool)

  datatype Progress = Progress(tried: set<string>, streak: int, auth: map<string, nat>, attempts: nat)

  datatype State = State(
    accounts: seq<Account>, health: HealthMap, sticky: map<string, StickyEntry>, clock: Time,
    progress: Progress)

  datatype Rejected = Rejected(id: string, display: string, reason: string, kind: Kind, renewable: bool)

  datatype Ending =
    | Cancelled
    | UnknownLane
    | Served(account: Account, attempts: nat)
    | HandedBack(account: Account, attempts: nat)
    | ParkTooLong(until: Time)
    | CredentialsRejected(rejected: seq<Rejected>)
    | NoAccounts
    | UnhandledOutcome

  /** What one iteration did, as an observer sees it: `heard` is when the reply came. */
  datatype Effect = Effect(
    now: Time, picked: Option<Account>, reply: Option<Reply>, heard: Time, slept: Option<int>, parked: bool,
    ending: Option<Ending>)
  {
    predicate Sent() { reply.Some? }
  }

  // ----- small computations -----

  function AuthCount(p: Progress, id: string): nat { if id in p.auth then p.auth[id] else 0 }

  function Pow2(n: nat): (r: nat)
    ensures r >= 1
  {
    if n == 0 then 1 else 2 * Pow2(n - 1)
  }

  /** `initial` doubled `n` times. */
  function Doubled(initial: int, n: nat): int { initial * Pow2(n) }

  /** The un-jittered delay before retry number `attempt`: doubling, then capped. */
  function BackoffBase(cfg: Config, attempt: int): int {
    Min(cfg.overloadMax, Doubled(cfg.overloadInitial, if attempt < 1 then 0 else attempt - 1))
  }

  /** Truncated like Go's conversion of a float to a duration. */
  function Jittered(d: int, jitter: Jitter): int { (d as real * jitter).Floor }

  function Backoff(cfg: Config, attempt: int, jitter: Jitter): int {
    Jittered(BackoffBase(cfg, attempt), jitter)
  }

  lemma ScaleMonotone(a: real, b: real, c: real)
    requires a <= b && c >= 0.0
    ensures a * c <= b * c
  {
    assert (b - a) * c >= 0.0;
  }

  lemma FloorBounds(p: real, lower: int, upper: real)
    requires lower as real <= p < upper
    ensures lower <= p.Floor && p.Floor as real < upper
  {}

  /** The jitter is applied after the cap, so the cap is exceeded by up to half. */
  lemma JitteredBound(d: int, jitter: Jitter, limit: int)
    requires 0 <= d <= limit && limit > 0
    ensures 0 <= Jittered(d, jitter) && Jittered(d, jitter) as real < 1.5 * limit as real
  {
    ScaledBelow(d as real, jitter, 1.5 * limit as real);
    FloorBounds(d as real * jitter, 0, 1.5 * limit as real);
  }

  lemma {:induction false} ProductSign(a: real, b: real)
    requires a >= 0.0 && b >= 0.0
    ensures a * b >= 0.0
    ensures a > 0.0 && b > 0.0 ==> a * b > 0.0
  {}

  lemma {:induction false} Distribute(a: real, b: real, c: real)
    ensures (b - a) * c == b * c - a * c
  {}

  lemma {:induction false} ScaleCancels(a: real, b: real, c: real)
    requires c > 0.0
    ensures a * c <= b * c <==> a <= b
    ensures a * c < b * c <==> a < b
  {
    Distribute(a, b, c);
    if a <= b { ProductSign(b - a, c); } else { Distribute(b, a, c); ProductSign(a - b, c); }
  }

  lemma {:induction false} InReals(d: int, l: int)
    ensures 3 * d <= 2 * l <==> 1.5 * d as real <= l as real
    ensures d <= 2 * l <==> 0.5 * d as real <= l as real
  {
    assert (3 * d) as real == 3.0 * d as real && (2 * l) as real == 2.0 * l as real;
  }

  lemma {:induction false} Cancel(x: real, r: real)
    requires r > 0.0
    ensures (x / r) * r == x && r * (x / r) == x
  {}

  lemma {:induction false} Between(x: real, r: real, q: real)
    requires r > 0.0 && q * r == x && 0.5 * r <= x < 1.5 * r
    ensures 0.5 <= q < 1.5
  {
    ScaleCancels(0.5, q, r);
    ScaleCancels(q, 1.5, r);
  }

  lemma {:induction false} Ratio(a: int, d: int)
    requires d > 0 && d <= 2 * a < 3 * d
    ensures var q := a as real / d as real; 0.5 <= q < 1.5 && d as real * q == a as real
  {
    InReals(d, a);
    Cancel(a as real, d as real);
    Between(a as real, d as real, a as real / d as real);
  }

  lemma {:induction false} ReachesOver(d: int, limit: int) returns (j: Jitter)
    requires d >= 0 && !(0 <= limit && 3 * d <= 2 * (limit + 1))
    ensures Jittered(d, j) > limit
  {
    if limit < 0 || 2 * (limit + 1) < d {
      j := 1.0;
    } else {
      Ratio(limit + 1, d);
      j := (limit + 1) as real / d as real;
    }
  }

  lemma {:induction false} JitteredBelow(d: int, j: Jitter, limit: int)
    requires d >= 0 && 0 <= limit && 3 * d <= 2 * (limit + 1)
    ensures Jittered(d, j) <= limit
  {
    InReals(d, limit + 1);
    ScaledBelow(d as real, j, (limit + 1) as real);
    FloorBounds(d as real * j, 0, (limit + 1) as real);
    JitteredIs(d, j);
  }

  lemma {:induction false} ScaledBelow(b: real, c: real, l: real)
    requires 0.0 <= b && 0.5 <= c < 1.5 && 1.5 * b <= l && l > 0.0
    ensures 0.0 <= b * c < l
  {
    ProductSign(b, c);
    Distribute(c, 1.5, b);
    ProductSign(1.5 - c, b);
    assert c * b == b * c;
  }

  lemma {:induction false} JitteredIs(d: int, j: Jitter)
    ensures Jittered(d, j) == (d as real * j).Floor
  {}

  /** Jitter leaves a delay within a limit exactly when the limit, and one more, is half as much again. */
  lemma {:induction false} WithinLimitExactly(d: int, limit: int)
    requires d >= 0
    ensures (forall j: Jitter :: Jittered(d, j) <= limit) <==> 0 <= limit && 3 * d <= 2 * (limit + 1)
  {
    hide Jittered;
    if 0 <= limit && 3 * d <= 2 * (limit + 1) {
      forall j: Jitter ensures Jittered(d, j) <= limit {
        JitteredBelow(d, j, limit);
      }
    } else {
      var j := ReachesOver(d, limit);
    }
  }

  lemma {:induction false} Pow2Grows(n: nat)
    ensures Pow2(n) > n
  {
    if n > 0 { Pow2Grows(n - 1); }
  }

  lemma {:induction false} CapIsReached(cfg: Config)
    requires cfg.Valid()
    ensures BackoffBase(cfg, cfg.overloadMax + 1) == cfg.overloadMax
  {
    Pow2Grows(cfg.overloadMax);
    hide Pow2;
    AtLeastFactor(cfg.overloadInitial, Pow2(cfg.overloadMax));
  }

  lemma {:induction false} AtLeastFactor(n: int, p: int)
    requires n >= 1 && p >= 0
    ensures n * p >= p
  {
    assert (n - 1) * p >= 0;
  }

  lemma {:induction false} BaseWithinCap(cfg: Config, attempt: int)
    requires cfg.Valid()
    ensures 0 <= BackoffBase(cfg, attempt) <= cfg.overloadMax
  {
    DoubledMonotone(cfg.overloadInitial, 0, if attempt < 1 then 0 else attempt - 1);
  }

  /** Every delay stays within the cap exactly when the cap is two nanoseconds or less. */
  lemma {:induction false} CapHoldsExactly(cfg: Config)
    requires cfg.Valid()
    ensures (forall attempt: int, j: Jitter :: Backoff(cfg, attempt, j) <= cfg.overloadMax) <==> cfg.overloadMax <= 2
  {
    hide BackoffBase, Jittered;
    if cfg.overloadMax <= 2 {
      forall attempt: int, j: Jitter ensures Backoff(cfg, attempt, j) <= cfg.overloadMax {
        BaseWithinCap(cfg, attempt);
        WithinLimitExactly(BackoffBase(cfg, attempt), cfg.overloadMax);
      }
    } else {
      CapIsReached(cfg);
      var j := ReachesOver(cfg.overloadMax, cfg.overloadMax);
      assert Backoff(cfg, cfg.overloadMax + 1, j) > cfg.overloadMax;
    }
  }

  const SECOND := 1_000_000_000

  /** With the defaults, a second doubled up to a minute, the seventh retry may wait for seventy-five seconds. */
  lemma {:induction false} SeventhRetryOverCap(cfg: Config)
    requires cfg.overloadInitial == SECOND && cfg.overloadMax == 60 * SECOND
    ensures Backoff(cfg, 7, 1.25) == 75 * SECOND > cfg.overloadMax
  {
    assert Pow2(6) == 64 by { assert Pow2(2) == 4; assert Pow2(4) == 16; }
    assert (60 * SECOND) as real * 1.25 == 75_000_000_000.0;
  }

  lemma JitteredPositive(d: int, jitter: Jitter)
    requires d >= 2
    ensures Jittered(d, jitter) >= 1
  {
    ScaleMonotone(2.0, d as real, jitter);
    FloorBounds(d as real * jitter, 1, d as real * jitter + 1.0);
  }

  lemma DoubledAgain(initial: int, n: nat)
    requires n >= 1
    ensures Doubled(initial, n) == 2 * Doubled(initial, n - 1)
  {}

  lemma {:induction false} DoubledMonotone(initial: int, m: nat, n: nat)
    requires initial >= 0 && m <= n
    ensures initial <= Doubled(initial, m) <= Doubled(initial, n)
    decreases n
  {
    if n == 0 {
      assert Pow2(0) == 1;
    } else {
      DoubledAgain(initial, n);
      if m < n { DoubledMonotone(initial, m, n - 1); }
      else { DoubledMonotone(initial, m - 1, n - 1); DoubledAgain(initial, m); }
    }
  }

  /** The first delay is the configured one, and each is twice the one before, up to the cap. */
  lemma {:induction false} BackoffDoubles(cfg: Config, attempt: int)
    requires cfg.Valid()
    ensures attempt <= 1 ==> BackoffBase(cfg, attempt) == cfg.overloadInitial
    ensures attempt >= 1 ==> BackoffBase(cfg, attempt + 1) == Min(cfg.overloadMax, 2 * BackoffBase(cfg, attempt))
  {
    if attempt >= 1 {
      DoubledAgain(cfg.overloadInitial, attempt);
      DoubledMonotone(cfg.overloadInitial, 0, attempt - 1);
      hide Doubled;
    } else {
      assert Pow2(0) == 1;
    }
    assert Pow2(0) == 1 && cfg.overloadInitial * 1 == cfg.overloadInitial;
  }

  function SkewAllowance(cfg: Config, wait: int): int {
    Max(0, Min(cfg.parkBuffer, wait))
  }

  /** The soonest any of `s` can be used again; an account available now makes that `now`. */
  function NextRecovery(s: seq<Account>, health: HealthMap, now: Time): Option<Time> {
    if s == [] then None
    else
      var h := HealthOf(health, s[0].id);
      var rest := NextRecovery(s[1..], health, now);
      if h.AvailableAt(now) then Some(now)
      else if h.NextAvailable(now) == 0 then rest
      else if rest.None? then Some(h.NextAvailable(now))
      else Some(Min(h.NextAvailable(now), rest.value))
  }

  function Entry(a: Account, h: Health): Rejected {
    Rejected(a.id, if a.display != "" then a.display else a.id, h.lastError, a.kind, a.refreshToken != "")
  }

  function RejectedList(s: seq<Account>, health: HealthMap): seq<Rejected> {
    if s == [] then []
    else
      var h := HealthOf(health, s[0].id);
      (if h.state.Invalid? then [Entry(s[0], h)] else []) + RejectedList(s[1..], health)
  }

  function RenewIn(accounts: seq<Account>, id: string, t: Renewal): (r: seq<Account>)
    requires t.Renewed?
    ensures |r| == |accounts|
    ensures forall i :: 0 <= i < |r| ==>
      r[i] == if accounts[i].id == id then accounts[i].Renewed(t.access, t.refresh, t.expiresAt) else accounts[i]
  {
    if accounts == [] then []
    else [if accounts[0].id == id then accounts[0].Renewed(t.access, t.refresh, t.expiresAt) else accounts[0]]
         + RenewIn(accounts[1..], id, t)
  }

  // ----- how an iteration changes the state -----

  function SetHealth(st: State, id: string, h: Health): State {
    st.(health := st.health[id := h])
  }

  function MarkInvalid(st: State, id: string, why: string): State {
    var h := HealthOf(st.health, id);
    SetHealth(st, id, h.(state := Invalid, consecFails := h.consecFails + 1, lastError := why))
  }

  function MarkCooling(st: State, id: string, until: Time, why: string): State {
    SetHealth(st, id, HealthOf(st.health, id).(state := Cooling, until := until, lastError := why))
  }

  function MarkExhausted(st: State, id: string, resetAt: Time, why: string): State {
    var h := HealthOf(st.health, id);
    var reset := if resetAt <= st.clock then st.clock + MIN_COOLDOWN else resetAt;
    SetHealth(st, id, h.(state := Exhausted, resetAt := reset, rotations := h.rotations + 1, lastError := why))
  }

  function MarkSuccess(cfg: Config, key: string, st: State, id: string): State {
    var h := HealthOf(st.health, id);
    SetHealth(st.(sticky := StickySet(st.sticky, cfg.rotation.stickyTtl, key, id, st.clock)), id,
              h.(state := Available, lastUsed := st.clock, requests := h.requests + 1, consecFails := 0, lastError := ""))
  }

  function Observe(st: State, id: string, windows: seq<Window>): State {
    if windows == [] then st else SetHealth(st, id, HealthOf(st.health, id).(windows := windows))
  }

  function SkipForNow(st: State, id: string): State {
    st.(progress := st.progress.(tried := st.progress.tried + {id}))
  }

  function SetStreak(st: State, streak: int): State {
    st.(progress := st.progress.(streak := streak))
  }

  function NewRound(st: State): State {
    st.(progress := st.progress.(tried := {}, streak := 0))
  }

  function SelectionView(cfg: Config, lane: string, key: string, st: State): View {
    View(st.accounts, st.health, st.progress.tried, lane,
         if cfg.rotation.sticky then StickyGet(st.sticky, cfg.rotation.stickyTtl, key, st.clock) else None,
         cfg.rotation.drainAbove, st.clock)
  }

  /** Waiting for `d`; a wait that is not positive returns at once. */
  function Sleep(st: State, e: Effect, d: int, inp: Input): (State, Effect) {
    if d <= 0 then (st, e.(slept := Some(d)))
    else if inp.aborted then (st, e.(slept := Some(d), ending := Some(Cancelled)))
    else (st.(clock := st.clock + d + inp.oversleep), e.(slept := Some(d)))
  }

  function Ended(e: Effect, ending: Ending): Effect { e.(ending := Some(ending)) }

  function Unusable(lane: string, st: State): Ending {
    var rejected := RejectedList(LaneAccounts(st.accounts, lane), st.health);
    if rejected == [] then NoAccounts else CredentialsRejected(rejected)
  }

  /** No account can be picked: wait for one, or say why waiting is pointless. */
  function Park(cfg: Config, lane: string, st: State, e: Effect, inp: Input): (State, Effect) {
    var recovery := NextRecovery(LaneAccounts(st.accounts, lane), st.health, st.clock);
    if recovery.None? || !cfg.parkEnabled then (st, Ended(e, Unusable(lane, st)))
    else
      var wait := recovery.value - st.clock;
      var d := wait + SkewAllowance(cfg, wait);
      if d <= 0 then (NewRound(st), e.(parked := true))
      else if d > cfg.maxHold then (st, Ended(e, ParkTooLong(st.clock + d)))
      else
        var (st', e') := Sleep(st, e.(parked := true), d, inp);
        if e'.ending.Some? then (st', e') else (NewRound(st'), e')
  }

  /** The credential was refused: renew it, unless that has stopped helping. */
  function HandleRefusal(cfg: Config, st: State, a: Account, reason: string, e: Effect, inp: Input): (State, Effect) {
    if !a.kind.OAuth? then (SkipForNow(MarkInvalid(st, a.id, reason), a.id), e)
    else
      var count := AuthCount(st.progress, a.id) + 1;
      var st1 := st.(progress := st.progress.(auth := st.progress.auth[a.id := count]));
      if count > cfg.authRefreshAttempts then (SkipForNow(MarkInvalid(st1, a.id, reason), a.id), e)
      else match inp.renewal
        case Renewed(_, _, _) => (st1.(accounts := RenewIn(st1.accounts, a.id, inp.renewal)), e)
        case RenewalFailed(why) =>
          if inp.aborted then (st1, Ended(e, Cancelled))
          else (SkipForNow(MarkInvalid(st1, a.id, reason + "; renewing it failed: " + why), a.id), e)
  }

  /** Overload, or no answer at all: absorb a few on this account, then try another. */
  function HandleOverload(cfg: Config, mayRotate: bool, st: State, a: Account, e: Effect, inp: Input): (State, Effect) {
    var streak := st.progress.streak + 1;
    if streak >= cfg.rotateAfter && mayRotate then (SetStreak(SkipForNow(st, a.id), 0), e)
    else Sleep(SetStreak(st, streak), e, Backoff(cfg, streak, inp.jitter), inp)
  }

  function HandleReply(cfg: Config, lane: string, key: string, st: State, a: Account, now: Time, e: Effect, inp: Input)
    : (State, Effect)
  {
    match inp.reply
    case Unreachable =>
      if inp.aborted then (st, Ended(e, Cancelled)) else HandleOverload(cfg, true, st, a, e, inp)
    case Response(windows, outcome) =>
      var st := Observe(st, a.id, windows);
      match outcome
      case Relay => (MarkSuccess(cfg, key, st, a.id), Ended(e, Served(a, st.progress.attempts)))
      case Fatal => (st, Ended(e, HandedBack(a, st.progress.attempts)))
      case RefreshAuth(reason) => HandleRefusal(cfg, st, a, reason, e, inp)
      case Overloaded(_) => HandleOverload(cfg, |LaneAccounts(st.accounts, lane)| > 1, st, a, e, inp)
      case Throttled(retryAfter, reason) =>
        Sleep(MarkCooling(st, a.id, now + retryAfter, reason), e, retryAfter, inp)
      case Rotate(resetAt, reason) =>
        (SetStreak(SkipForNow(MarkExhausted(st, a.id, resetAt, reason), a.id), 0), e)
      case Unhandled => (st, Ended(e, UnhandledOutcome))
  }

  /** Send on account `a`, whose token is good. */
  function Dispatch(cfg: Config, lane: string, key: string, st: State, a: Account, e: Effect, inp: Input): (State, Effect) {
    HandleReply(cfg, lane, key, st.(clock := st.clock + inp.lag), a, st.clock,
                e.(reply := Some(inp.reply), heard := st.clock + inp.lag), inp)
  }

  /** Use account `a`, renewing its token first when it is about to expire. */
  function Attempt(cfg: Config, lane: string, key: string, st: State, a: Account, e: Effect, inp: Input): (State, Effect) {
    var st := st.(progress := st.progress.(attempts := st.progress.attempts + 1));
    var e := e.(picked := Some(a));
    if !a.TokenExpiredAt(st.clock, REFRESH_SKEW) then Dispatch(cfg, lane, key, st, a, e, inp)
    else match inp.freshen
      case Renewed(access, refresh, expiresAt) =>
        Dispatch(cfg, lane, key, st.(accounts := RenewIn(st.accounts, a.id, inp.freshen)),
                 a.Renewed(access, refresh, expiresAt), e, inp)
      case RenewalFailed(why) =>
        if inp.aborted then (st, Ended(e, Cancelled))
        else (SkipForNow(MarkInvalid(st, a.id, why), a.id), e)
  }

  /** One iteration of the loop. */
  function Step(cfg: Config, lane: string, key: string, st: State, inp: Input): (State, Effect) {
    if inp.cancelled then
      (st, Effect(st.clock, None, None, st.clock, None, false, Some(Cancelled)))
    else
      var st := st.(clock := st.clock + inp.tick);
      var e := Effect(st.clock, None, None, st.clock, None, false, None);
      match SelectionView(cfg, lane, key, st).Select()
      case None => Park(cfg, lane, st, e, inp)
      case Some(a) => Attempt(cfg, lane, key, st, a, e, inp)
  }

  /** A finite part of a run: its effects in order, and the state it leaves. */
  datatype Run = Run(trace: seq<Effect>, last: State)
  {
    predicate Over() { trace != [] && trace[|trace|-1].ending.Some? }

    function After(earlier: seq<Effect>): Run { Run(earlier + trace, last) }
  }

  function RunFrom(cfg: Config, lane: string, key: string, st: State, script: seq<Input>): (r: Run)
    ensures |r.trace| <= |script|
    decreases |script|
  {
    if script == [] then Run([], st)
    else
      var (st', e) := Step(cfg, lane, key, st, script[0]);
      if e.ending.Some? then Run([e], st')
      else RunFrom(cfg, lane, key, st', script[1..]).After([e])
  }

  /** What `Execute` starts from. */
  function Start(accounts: seq<Account>, health: HealthMap, sticky: map<string, StickyEntry>, clock: Time): State {
    State(accounts, health, sticky, clock, Progress({}, 0, map[], 0))
  }
}
