/** Renewing one account's tokens (internal/engine/refresh.go) over the store's lock protocol.
    Callers coalesce in a group, the one that leads exchanges the refresh token upstream and
    records the new tokens through `UpdateAccount`; other threads edit and reload the pool
    meanwhile.  Every interleaving is a sequence of the actions below. */
module Refresh {
  import opened Basics
  import opened Selection
  import opened Store
  import Locks = PoolLocks

  datatype Result = Failed | Ok(account: Account)

  /** Where a caller stands.  `call` numbers the coalesced call it belongs to. */
  datatype Phase =
    | Calling(stale: string)
    | Joined(stale: string, call: nat)                        // waits for whoever leads the call
    | Leading(stale: string, call: nat)                       // about to read the pool
    | Spending(stale: string, call: nat, current: Account)    // about to exchange
    | Renewed(stale: string, call: nat, current: Account)     // exchanged, not yet recorded
    | Storing(stale: string, call: nat, current: Account)     // inside UpdateAccount
    | Finished(stale: string, call: nat, result: Result)      // about to publish
    | Done(stale: string, result: Result)
  {
    predicate Leads() { Leading? || Spending? || Renewed? || Storing? || Finished? }
  }

  datatype Reply = Refused | Granted(access: string, refresh: string, expires: Option<nat>)

  /** One exchange: the access token its caller held, the tokens the pool held, the new access
      token, the refresh token that is good afterwards, and the upstream's reply. */
  datatype Exchange = Exchange(stale: string, before: string, spent: string, access: string, left: string, reply: Reply)

  datatype State = State(
    id: string, pool: Locks.State, failed: bool,
    inflight: Option<nat>, nextCall: nat, published: map<nat, Result>, callers: map<nat, Phase>,
    live: string, born: nat, known: set<string>, log: seq<Exchange>)
  {
    function At(r: nat, p: Phase): State { this.(callers := callers[r := p]) }
  }

  datatype Action =
    | Call(r: nat, stale: string)
    | Join(r: nat)
    | Read(r: nat)
    | Swap(r: nat, reply: Reply)
    | Record(r: nat)
    | Work(t: nat, step: Locks.Action)     // a store step of a caller that records, or of an editor
    | Recorded(r: nat)
    | Publish(r: nat)
    | Wake(r: nat)

  function Renewal(a: Account): Change { Change.Renewal(a.accessToken, a.refreshToken, a.expiresAt) }

  predicate CanExchange(a: Account) { a.kind.OAuth? && a.refreshToken != "" }

  function Granting(a: Account, reply: Reply): Account
    requires reply.Granted?
  {
    a.Renewed(reply.access, if reply.refresh != "" then reply.refresh else a.refreshToken,
              if reply.expires.Some? then reply.expires.value else a.expiresAt)
  }

  predicate Enabled(s: State, a: Action) {
    match a
    case Call(r, _) => r !in s.callers && s.pool.PhaseOf(r).Idle?
    case Join(r) => r in s.callers && s.callers[r].Calling?
    case Read(r) => r in s.callers && s.callers[r].Leading?
    case Swap(r, _) => r in s.callers && s.callers[r].Spending?
    case Record(r) => r in s.callers && s.callers[r].Renewed?
    case Work(t, step) =>
      && Locks.Enabled(s.pool, Locks.Event(t, step))
      && (t in s.callers ==> s.callers[t].Storing? && !step.Begin?)
    case Recorded(r) => r in s.callers && s.callers[r].Storing? && s.pool.PhaseOf(r).Idle?
    case Publish(r) => r in s.callers && s.callers[r].Finished?
    case Wake(r) => r in s.callers && s.callers[r].Joined? && s.callers[r].call in s.published
  }

  /** What the rest of the world keeps to: the upstream issues tokens nobody has seen and
      answers every exchange it makes, and nobody else renews or replaces the account's login. */
  predicate Civil(s: State, a: Action) {
    match a
    case Swap(_, Granted(access, refresh, _)) =>
      access != "" && access !in s.known && access != refresh && (refresh != "" ==> refresh !in s.known)
    case Work(t, Begin(op)) =>
      && (op.UpsertOp? ==> op.account.id != s.id)
      && (op.UpdateOp? && op.id == s.id ==> op.change.Settings?)
    case _ => true
  }

  /** A reload adopts a file that lacks changes. */
  predicate Reverts(s: State, a: Action) { a.Work? && a.step.Adopt? && s.failed }

  /** Also no file is reloaded while a failed write is outstanding. */
  predicate Orderly(s: State, a: Action) { Civil(s, a) && !Reverts(s, a) }

  ghost function Next(s: State, a: Action): State
    requires Enabled(s, a)
  {
    match a
    case Call(r, stale) => s.(known := s.known + {stale}).At(r, Calling(stale))
    case Join(r) =>
      var stale := s.callers[r].stale;
      if s.inflight.Some? then s.At(r, Joined(stale, s.inflight.value))
      else s.(inflight := Some(s.nextCall), nextCall := s.nextCall + 1).At(r, Leading(stale, s.nextCall))
    case Read(r) =>
      var p := s.callers[r];
      var found := Find(s.pool.memory, s.id);
      if found.None? then s.At(r, Finished(p.stale, p.call, Failed))
      else if found.value.accessToken != "" && found.value.accessToken != p.stale then
        s.At(r, Finished(p.stale, p.call, Ok(found.value)))
      else s.At(r, Spending(p.stale, p.call, found.value))
    case Swap(r, reply) =>
      var p := s.callers[r];
      if !CanExchange(p.current) || reply.Refused? then s.At(r, Finished(p.stale, p.call, Failed))
      else
        var renewed := Granting(p.current, reply);
        var entry := Exchange(p.stale, p.current.accessToken, p.current.refreshToken, renewed.accessToken, renewed.refreshToken, reply);
        s.(live := renewed.refreshToken, known := s.known + {reply.access, renewed.refreshToken}, log := s.log + [entry])
         .At(r, Renewed(p.stale, p.call, renewed))
    case Record(r) =>
      var p := s.callers[r];
      s.(pool := s.pool.At(r, Locks.Asking(Locks.UpdateOp(s.id, Renewal(p.current))))).At(r, Storing(p.stale, p.call, p.current))
    case Work(t, step) =>
      var e := Locks.Event(t, step);
      s.(pool := Locks.Next(s.pool, e), failed := Locks.Outstanding(s.failed, e))
    case Recorded(r) =>
      var p := s.callers[r];
      s.At(r, Finished(p.stale, p.call, Ok(p.current)))
    case Publish(r) =>
      var p := s.callers[r];
      s.(inflight := None, published := s.published[p.call := p.result]).At(r, Done(p.stale, p.result))
    case Wake(r) =>
      var p := s.callers[r];
      s.At(r, Done(p.stale, s.published[p.call]))
  }

  ghost predicate IsRun(s: State, actions: seq<Action>)
    decreases |actions|
  {
    actions != [] ==> Enabled(s, actions[0]) && Orderly(s, actions[0]) && IsRun(Next(s, actions[0]), actions[1..])
  }

  ghost function After(s: State, actions: seq<Action>): State
    requires IsRun(s, actions)
    decreases |actions|
  {
    if actions == [] then s else After(Next(s, actions[0]), actions[1..])
  }

  /** Nobody is renewing; the pool holds the account with the refresh token the upstream takes, and a token that expires
      at `born`. */
  ghost predicate Start(s: State) {
    && Locks.Start(s.pool) && !s.failed
    && s.inflight.None? && s.published == map[] && s.callers == map[] && s.log == []
    && var a := Find(s.pool.memory, s.id);
       a.Some? && a.value.refreshToken == s.live && a.value.expiresAt == s.born && s.known == {a.value.accessToken, s.live}
  }

  // ----- one leader at a time -----

  ghost predicate GroupInv(s: State) {
    && (forall r :: r in s.callers && s.callers[r].Leads() ==> s.inflight == Some(s.callers[r].call))
    && (forall q, r :: q in s.callers && r in s.callers && s.callers[q].Leads() && s.callers[r].Leads() ==> q == r)
    && (s.inflight.Some? ==> exists r :: r in s.callers && s.callers[r].Leads())
    && (s.inflight.Some? ==> s.inflight.value < s.nextCall && s.inflight.value !in s.published)
    && (forall c :: c in s.published ==> c < s.nextCall)
    && (forall r :: r in s.callers && s.callers[r].Joined? ==>
          s.callers[r].call in s.published || s.inflight == Some(s.callers[r].call))
  }

  lemma GroupStep(s: State, a: Action)
    requires GroupInv(s) && Enabled(s, a)
    ensures GroupInv(Next(s, a))
  {
    hide Locks.Next, Locks.Enabled, Locks.Outstanding, Find, CanExchange, Granting, Renewal;
    match a
    case Call(_, _) => SameGroup(s, Next(s, a), a.r);
    case Work(_, _) =>
    case Join(r) => JoinStep(s, r);
    case Publish(r) => PublishStep(s, r);
    case Read(_) => SameGroup(s, Next(s, a), a.r);
    case Swap(_, _) => SameGroup(s, Next(s, a), a.r);
    case Record(_) => SameGroup(s, Next(s, a), a.r);
    case Recorded(_) => SameGroup(s, Next(s, a), a.r);
    case Wake(_) => SameGroup(s, Next(s, a), a.r);
  }

  /** A caller that keeps its part in its call changes nothing for the group. */
  lemma SameGroup(s: State, s': State, r: nat)
    requires GroupInv(s) && r in s'.callers && s'.callers == s.callers[r := s'.callers[r]]
    requires s'.inflight == s.inflight && s'.nextCall == s.nextCall && s'.published == s.published
    requires !s'.callers[r].Joined? && (s'.callers[r].Leads() <==> r in s.callers && s.callers[r].Leads())
    requires s'.callers[r].Leads() ==> s'.callers[r].call == s.callers[r].call
    ensures GroupInv(s')
  {
    hide Phase.Leads;
    if s.inflight.Some? {
      var q :| q in s.callers && s.callers[q].Leads();
      assert q in s'.callers && s'.callers[q].Leads();
    }
  }

  lemma JoinStep(s: State, r: nat)
    requires GroupInv(s) && Enabled(s, Join(r))
    ensures GroupInv(Next(s, Join(r)))
  {
    var s' := Next(s, Join(r));
    if s.inflight.Some? {
      var q :| q in s.callers && s.callers[q].Leads();
      assert q in s'.callers && s'.callers[q].Leads();
    } else {
      assert s'.callers[r].Leads();
    }
  }

  lemma PublishStep(s: State, r: nat)
    requires GroupInv(s) && Enabled(s, Publish(r))
    ensures GroupInv(Next(s, Publish(r)))
  {
    assert s.callers[r].Leads();
  }

  // ----- whose store steps they are -----

  predicate Harmless(op: Locks.Op, id: string) {
    match op
    case UpsertOp(a) => a.id != id
    case UpdateOp(other, c) => other == id ==> c.Settings?
    case _ => true
  }

  predicate Pending(p: Locks.Phase) { p.Asking? || p.Entered? }

  ghost predicate WorkInv(s: State) {
    && Locks.Inv(s.pool, s.failed)
    && (forall t: nat :: t in s.callers && !s.callers[t].Storing? ==> s.pool.PhaseOf(t).Idle?)
    && (forall t: nat :: t in s.callers && Pending(s.pool.PhaseOf(t)) ==>
          s.callers[t].Storing? && s.pool.PhaseOf(t).op == Locks.UpdateOp(s.id, Renewal(s.callers[t].current)))
    && (forall t: nat :: t !in s.callers && Pending(s.pool.PhaseOf(t)) ==> Harmless(s.pool.PhaseOf(t).op, s.id))
  }

  lemma RecordKeepsLocks(s: Locks.State, t: nat, op: Locks.Op, failed: bool)
    requires Locks.Inv(s, failed) && s.PhaseOf(t).Idle? && !op.UpsertOp?
    ensures Locks.Inv(s.At(t, Locks.Asking(op)), failed)
  {
    assert s.At(t, Locks.Asking(op)) == Locks.Next(s, Locks.Event(t, Locks.Begin(op)));
    Locks.StepKeeps(s, Locks.Event(t, Locks.Begin(op)), failed);
  }

  lemma PhasesElsewhere(s: Locks.State, e: Locks.Event)
    requires Locks.Enabled(s, e)
    ensures forall t: nat :: t != e.thread ==> Locks.Next(s, e).PhaseOf(t) == s.PhaseOf(t)
    ensures var p, p' := s.PhaseOf(e.thread), Locks.Next(s, e).PhaseOf(e.thread);
      Pending(p') ==> if e.action.Begin? then p' == Locks.Asking(e.action.op) else Pending(p) && p'.op == p.op
  {
    hide Addressable, Locks.Applied, Locks.Misses;
  }

  lemma WorkStep(s: State, a: Action)
    requires WorkInv(s) && Enabled(s, a) && Civil(s, a)
    ensures WorkInv(Next(s, a))
  {
    match a
    case Work(t, step) => StoreStep(s, t, step);
    case Record(r) => RecordStep(s, r);
    case _ => CallerStep(s, a);
  }

  lemma StoreStep(s: State, t: nat, step: Locks.Action)
    requires WorkInv(s) && Enabled(s, Work(t, step)) && Civil(s, Work(t, step))
    ensures WorkInv(Next(s, Work(t, step)))
  {
    hide Locks.Inv, Locks.Next, Locks.Enabled, Locks.Outstanding, Find, Renewal, Locks.State.PhaseOf;
    var e := Locks.Event(t, step);
    Locks.StepKeeps(s.pool, e, s.failed);
    PhasesElsewhere(s.pool, e);
    WorksOwnThread(s, Work(t, step));
  }

  lemma RecordStep(s: State, r: nat)
    requires WorkInv(s) && Enabled(s, Record(r))
    ensures WorkInv(Next(s, Record(r)))
  {
    hide Locks.Inv, Locks.Next, Locks.Enabled, Find, Renewal;
    var s' := Next(s, Record(r));
    RecordKeepsLocks(s.pool, r, Locks.UpdateOp(s.id, Renewal(s.callers[r].current)), s.failed);
    assert forall t: nat :: t != r ==> s'.pool.PhaseOf(t) == s.pool.PhaseOf(t);
  }

  /** Every other action moves one caller, to or from no store operation. */
  lemma CallerStep(s: State, a: Action)
    requires WorkInv(s) && Enabled(s, a) && !a.Work? && !a.Record?
    ensures WorkInv(Next(s, a)) && Next(s, a).pool == s.pool
  {
    hide Locks.Inv, Find, CanExchange, Granting, Renewal, Locks.State.PhaseOf;
    OneCallerMoves(s, a);
    hide Next, Enabled;
  }

  lemma OneCallerMoves(s: State, a: Action)
    requires Enabled(s, a) && !a.Work? && !a.Record?
    ensures var s' := Next(s, a);
      && s'.pool == s.pool && s'.failed == s.failed && s'.id == s.id
      && (a.r in s.callers ==> !s.callers[a.r].Storing? || s.pool.PhaseOf(a.r).Idle?)
      && (a.r !in s.callers ==> s.pool.PhaseOf(a.r).Idle?)
      && a.r in s'.callers && !s'.callers[a.r].Storing? && s'.callers == s.callers[a.r := s'.callers[a.r]]
  {
    hide Find, CanExchange, Granting, Locks.State.PhaseOf;
  }

  lemma WorksOwnThread(s: State, a: Action)
    requires Enabled(s, a) && a.Work?
    ensures a.t in s.callers ==> s.callers[a.t].Storing? && !a.step.Begin?
  {}

  // ----- which tokens are held where -----

  function LastAccess(s: State, first: string): string { if s.log == [] then first else s.log[|s.log| - 1].access }

  /** The expiry the last reply to name one has named, or the one it all began with. */
  function LastExpiry(log: seq<Exchange>, born: nat): nat {
    if log == [] then born
    else
      var reply := log[|log| - 1].reply;
      if reply.Granted? && reply.expires.Some? then reply.expires.value else LastExpiry(log[..|log| - 1], born)
  }

  /** `a` holds the newest access token, the refresh token the upstream takes, and the newest expiry. */
  predicate Newest(s: State, first: string, a: Account) {
    a.refreshToken == s.live && a.accessToken == LastAccess(s, first) && a.expiresAt == LastExpiry(s.log, s.born)
  }

  predicate SameTokens(a: Account, b: Account) {
    a.accessToken == b.accessToken && a.refreshToken == b.refreshToken && a.expiresAt == b.expiresAt
  }

  /** `r` has exchanged, and the pool does not have the new tokens yet. */
  predicate Unrecorded(s: State, r: nat) {
    r in s.callers && (s.callers[r].Renewed? || (s.callers[r].Storing? && Pending(s.pool.PhaseOf(r))))
  }

  predicate PoolIsNewest(s: State, first: string) {
    var a := Find(s.pool.memory, s.id);
    a.None? || Newest(s, first, a.value)
  }

  ghost predicate TokenInv(s: State, first: string) {
    && (forall r :: r in s.callers && (s.callers[r].Spending? || s.callers[r].Renewed? || s.callers[r].Storing?) ==>
          Newest(s, first, s.callers[r].current))
    && (forall r :: r in s.callers && s.callers[r].Spending? ==>
          s.callers[r].current.accessToken == "" || s.callers[r].current.accessToken == s.callers[r].stale)
    && (forall r :: r in s.callers && (s.callers[r].Renewed? || s.callers[r].Storing?) ==>
          s.log != [] && s.log[|s.log| - 1].stale == s.callers[r].stale)
    && ((forall r: nat :: !Unrecorded(s, r)) ==> PoolIsNewest(s, first))
  }

  /** What a store step does to the tokens the pool holds for the account. */
  lemma StoreStepTokens(s: State, t: nat, step: Locks.Action)
    requires WorkInv(s) && Enabled(s, Work(t, step)) && Orderly(s, Work(t, step))
    ensures var was, now := Find(s.pool.memory, s.id), Find(Next(s, Work(t, step)).pool.memory, s.id);
      if t in s.callers && step.Touch? then
        was.None? == now.None?
        && (now.Some? ==> SameTokens(now.value, s.callers[t].current))
      else now.None? || (was.Some? && SameTokens(now.value, was.value))
    ensures forall r: nat :: r != t ==> (Unrecorded(Next(s, Work(t, step)), r) <==> Unrecorded(s, r))
    ensures Unrecorded(Next(s, Work(t, step)), t) <==> Unrecorded(s, t) && !step.Touch?
  {
    var e := Locks.Event(t, step);
    WorksOwnThread(s, Work(t, step));
    if step.Touch? { TouchTokens(s, t); }
    if step.Adopt? { Locks.AdoptChangesNothing(s.pool, e); }
    hide Locks.Inv, Addressable, Locks.Applied, Locks.Misses, Find;
    PhasesElsewhere(s.pool, e);
  }

  lemma TouchTokens(s: State, t: nat)
    requires WorkInv(s) && Enabled(s, Work(t, Locks.Touch))
    ensures var was, now := Find(s.pool.memory, s.id), Find(Next(s, Work(t, Locks.Touch)).pool.memory, s.id);
      if t in s.callers then
        was.None? == now.None?
        && (now.Some? ==> SameTokens(now.value, s.callers[t].current))
      else now.None? || (was.Some? && SameTokens(now.value, was.value))
  {
    assert Locks.Inv(s.pool, s.failed) && Pending(s.pool.PhaseOf(t));
    hide Addressable, Find, Locks.Applied;
    Locks.FindAfter(s.pool.memory, s.pool.PhaseOf(t).op, s.id);
  }

  lemma TokenStep(s: State, a: Action, first: string)
    requires GroupInv(s) && WorkInv(s) && TokenInv(s, first) && Enabled(s, a) && Orderly(s, a)
    ensures TokenInv(Next(s, a), first)
  {
    match a
    case Work(t, step) => TokensOverStore(s, t, step, first);
    case Read(r) => TokensOverRead(s, r, first);
    case Swap(r, reply) => TokensOverSwap(s, r, reply, first);
    case Record(r) => TokensOverRecord(s, r, first);
    case _ => TokensOverRest(s, a, first);
  }

  /** What the exchanges so far determine stays, and callers hold what they held. */
  lemma TokensKept(s: State, s': State, first: string)
    requires TokenInv(s, first) && s'.log == s.log && s'.live == s.live && s'.born == s.born
    requires forall r :: r in s'.callers && (s'.callers[r].Spending? || s'.callers[r].Renewed? || s'.callers[r].Storing?) ==>
      && r in s.callers && (s.callers[r].Spending? || s.callers[r].Renewed? || s.callers[r].Storing?)
      && s'.callers[r].current == s.callers[r].current && s'.callers[r].stale == s.callers[r].stale
      && (s'.callers[r].Spending? <==> s.callers[r].Spending?)
    requires (forall r: nat :: !Unrecorded(s', r)) ==> (forall r: nat :: !Unrecorded(s, r)) && (PoolIsNewest(s, first) ==> PoolIsNewest(s', first))
    ensures TokenInv(s', first)
  {
    hide Unrecorded, PoolIsNewest;
  }

  lemma TokensOverStore(s: State, t: nat, step: Locks.Action, first: string)
    requires GroupInv(s) && WorkInv(s) && TokenInv(s, first)
    requires Enabled(s, Work(t, step)) && Orderly(s, Work(t, step))
    ensures TokenInv(Next(s, Work(t, step)), first)
  {
    hide *;
    var s' := Next(s, Work(t, step));
    StoreStepTokens(s, t, step);
    StoreStepCallers(s, t, step);
    if t in s.callers && step.Touch? {
      TouchIsNewest(s, s', t, first);
    } else {
      OthersRecord(s, t, step);
      StillNewest(s, s', first);
      TokensKept(s, s', first);
    }
  }

  lemma StoreStepCallers(s: State, t: nat, step: Locks.Action)
    requires Enabled(s, Work(t, step))
    ensures var s' := Next(s, Work(t, step)); s'.callers == s.callers && s'.log == s.log && s'.live == s.live && s'.born == s.born && s'.id == s.id
    ensures t in s.callers ==> s.callers[t].Storing?
  {
    hide Locks.Next, Locks.Enabled;
  }

  lemma TouchIsNewest(s: State, s': State, t: nat, first: string)
    requires TokenInv(s, first) && t in s.callers && s.callers[t].Storing?
    requires s'.callers == s.callers && s'.log == s.log && s'.live == s.live && s'.born == s.born && s'.id == s.id
    requires var now := Find(s'.pool.memory, s.id);
      now.Some? ==> SameTokens(now.value, s.callers[t].current)
    ensures TokenInv(s', first)
  {
    hide Find, Unrecorded;
  }

  lemma StillNewest(s: State, s': State, first: string)
    requires s'.log == s.log && s'.live == s.live && s'.born == s.born && s'.id == s.id
    requires var was, now := Find(s.pool.memory, s.id), Find(s'.pool.memory, s.id);
      now.None? || (was.Some? && SameTokens(now.value, was.value))
    ensures PoolIsNewest(s, first) ==> PoolIsNewest(s', first)
  {
    hide Find;
  }

  lemma OthersRecord(s: State, t: nat, step: Locks.Action)
    requires Enabled(s, Work(t, step)) && !(t in s.callers && step.Touch?)
    ensures Unrecorded(s, t) ==> !step.Touch?
  {}

  /** While a caller leads without having exchanged, nothing is unrecorded. */
  lemma LeaderHasRecorded(s: State, r: nat)
    requires GroupInv(s) && r in s.callers && s.callers[r].Leads() && !s.callers[r].Renewed? && !s.callers[r].Storing?
    ensures forall q: nat :: !Unrecorded(s, q)
    ensures forall q :: q in s.callers && q != r ==> !s.callers[q].Leads()
  {
    hide Locks.State.PhaseOf;
    forall q: nat ensures !Unrecorded(s, q) {
      if q in s.callers && q != r { assert !s.callers[q].Leads(); }
    }
  }

  lemma TokensOverRead(s: State, r: nat, first: string)
    requires GroupInv(s) && TokenInv(s, first) && Enabled(s, Read(r))
    ensures TokenInv(Next(s, Read(r)), first)
  {
    ReadGives(s, r);
    LeaderHasRecorded(s, r);
    var s' := Next(s, Read(r));
    SameNewest(s, s', first);
    hide Find, GroupInv, Unrecorded, Newest, Next, Enabled;
    assert PoolIsNewest(s, first);
    SamePoolIsNewest(s, s', first);
  }

  lemma ReadGives(s: State, r: nat)
    requires Enabled(s, Read(r))
    ensures r in s.callers && s.callers[r].Leading?
    ensures var s' := Next(s, Read(r)); var found := Find(s.pool.memory, s.id);
      && s'.pool == s.pool && s'.id == s.id && s'.log == s.log && s'.live == s.live && s'.born == s.born
      && r in s'.callers && s'.callers == s.callers[r := s'.callers[r]]
      && (s'.callers[r].Finished?
          || (s'.callers[r].Spending? && found == Some(s'.callers[r].current)
              && (found.value.accessToken == "" || found.value.accessToken == s'.callers[r].stale)))
  {
    hide Find;
  }

  lemma {:induction false} SameNewest(s: State, s': State, first: string)
    requires s'.log == s.log && s'.live == s.live && s'.born == s.born
    ensures forall a :: Newest(s', first, a) <==> Newest(s, first, a)
  {}

  lemma TokensOverSwap(s: State, r: nat, reply: Reply, first: string)
    requires GroupInv(s) && TokenInv(s, first) && Enabled(s, Swap(r, reply))
    ensures TokenInv(Next(s, Swap(r, reply)), first)
  {
    LeaderHasRecorded(s, r);
    var s' := Next(s, Swap(r, reply));
    if s'.callers[r].Renewed? {
      hide Find, GroupInv, PoolIsNewest, Locks.State.PhaseOf;
      assert s'.log[..|s.log|] == s.log;
      assert Unrecorded(s', r);
    } else {
      SameNewest(s, s', first);
      hide Find, GroupInv, PoolIsNewest, Unrecorded, Newest, LastExpiry, LastAccess;
      SamePoolIsNewest(s, s', first);
    }
  }

  lemma TokensOverRecord(s: State, r: nat, first: string)
    requires TokenInv(s, first) && Enabled(s, Record(r))
    ensures TokenInv(Next(s, Record(r)), first)
  {
    hide Find;
    var s' := Next(s, Record(r));
    assert Unrecorded(s', r);
  }

  lemma TokensOverRest(s: State, a: Action, first: string)
    requires TokenInv(s, first) && Enabled(s, a)
    requires a.Call? || a.Join? || a.Recorded? || a.Publish? || a.Wake?
    ensures TokenInv(Next(s, a), first)
  {
    hide *;
    var s' := Next(s, a);
    OneCallerMoves(s, a);
    RestChangesNoTokens(s, a);
    NoLongerUnrecorded(s, a);
    OthersUnrecorded(s, s', a.r);
    SamePoolIsNewest(s, s', first);
    TokensKept(s, s', first);
  }

  lemma RestChangesNoTokens(s: State, a: Action)
    requires Enabled(s, a)
    requires a.Call? || a.Join? || a.Recorded? || a.Publish? || a.Wake?
    ensures var s' := Next(s, a);
      && s'.log == s.log && s'.live == s.live && s'.born == s.born && a.r in s'.callers
      && !s'.callers[a.r].Spending? && !s'.callers[a.r].Renewed? && !s'.callers[a.r].Storing?
  {
    hide Find, Locks.State.PhaseOf;
  }

  lemma SamePoolIsNewest(s: State, s': State, first: string)
    requires s'.pool == s.pool && s'.id == s.id && s'.log == s.log && s'.live == s.live && s'.born == s.born
    ensures PoolIsNewest(s', first) <==> PoolIsNewest(s, first)
  {
    hide Find;
  }

  lemma NoLongerUnrecorded(s: State, a: Action)
    requires Enabled(s, a)
    requires a.Call? || a.Join? || a.Recorded? || a.Publish? || a.Wake?
    ensures !Unrecorded(s, a.r)
  {}

  lemma OthersUnrecorded(s: State, s': State, r: nat)
    requires r in s'.callers && s'.callers == s.callers[r := s'.callers[r]] && s'.pool == s.pool
    ensures forall q: nat :: q != r ==> (Unrecorded(s, q) <==> Unrecorded(s', q))
  {}

  // ----- the exchanges form a chain -----

  /** The access token exchange `i` replaces, and the refresh token it must present. */
  function AccessBefore(log: seq<Exchange>, first: string, i: nat): string
    requires i <= |log|
  {
    if i == 0 then first else log[i - 1].access
  }

  function LiveBefore(log: seq<Exchange>, seed: string, i: nat): string
    requires i <= |log|
  {
    if i == 0 then seed else log[i - 1].left
  }

  /** Exchange `i` presents the refresh token its predecessor left, on behalf of a caller that
      held the access token it replaces; what it brings is what the reply says, and new. */
  predicate LinkAt(log: seq<Exchange>, first: string, seed: string, i: nat)
    requires i < |log|
  {
    var e := log[i];
    && e.before == AccessBefore(log, first, i) && e.spent == LiveBefore(log, seed, i)
    && (e.before == "" || e.before == e.stale) && e.spent != "" && e.reply.Granted? && e.access == e.reply.access
    && e.left == (if e.reply.refresh == "" then e.spent else e.reply.refresh)
    && e.access != "" && e.access != first && e.access != e.stale
    && (forall k :: 0 <= k < i ==> e.access != log[k].access && e.access != log[k].stale)
    && (e.left != e.spent ==> e.left != seed && forall k :: 0 <= k < i ==> e.left != log[k].left)
  }

  ghost predicate Chain(log: seq<Exchange>, first: string, seed: string) {
    forall i :: 0 <= i < |log| ==> LinkAt(log, first, seed, i)
  }

  ghost predicate LogInv(s: State, first: string, seed: string) {
    && Chain(s.log, first, seed)
    && s.live == LiveBefore(s.log, seed, |s.log|)
    && first in s.known && seed in s.known
    && (forall i :: 0 <= i < |s.log| ==> s.log[i].access in s.known && s.log[i].left in s.known && s.log[i].stale in s.known)
    && (forall r :: r in s.callers ==> s.callers[r].stale in s.known)
  }

  lemma LinksStay(log: seq<Exchange>, e: Exchange, first: string, seed: string)
    requires Chain(log, first, seed) && LinkAt(log + [e], first, seed, |log|)
    ensures Chain(log + [e], first, seed)
  {
    forall i | 0 <= i < |log| ensures LinkAt(log + [e], first, seed, i) {
      assert LinkAt(log, first, seed, i);
    }
  }

  lemma LogStep(s: State, a: Action, first: string, seed: string)
    requires TokenInv(s, first) && LogInv(s, first, seed) && Enabled(s, a) && Orderly(s, a)
    ensures LogInv(Next(s, a), first, seed)
  {
    hide Find, Locks.Next, Locks.Enabled, Locks.State.PhaseOf, LinkAt, Unrecorded, PoolIsNewest;
    var s' := Next(s, a);
    if s'.log == s.log {
      LogUnmoved(s, a);
    } else {
      var e := s'.log[|s.log|];
      NewLink(s, a.r, a.reply, first, seed);
      LinksStay(s.log, e, first, seed);
    }
  }

  lemma LogUnmoved(s: State, a: Action)
    requires Enabled(s, a) && Next(s, a).log == s.log
    ensures Next(s, a).live == s.live && s.known <= Next(s, a).known
    ensures forall r :: r in Next(s, a).callers ==>
      Next(s, a).callers[r].stale in Next(s, a).known || (r in s.callers && Next(s, a).callers[r].stale == s.callers[r].stale)
  {
    hide *;
    OnlyOneCaller(s, a);
    MovedCallerStale(s, a);
    LiveAndKnown(s, a);
  }

  lemma LiveAndKnown(s: State, a: Action)
    requires Enabled(s, a) && Next(s, a).log == s.log
    ensures Next(s, a).live == s.live && s.known <= Next(s, a).known && (a.Call? ==> a.stale in Next(s, a).known)
  {
    hide Find, CanExchange, Granting, Locks.Next, Locks.Enabled, Locks.State.PhaseOf;
  }

  lemma NewLink(s: State, r: nat, reply: Reply, first: string, seed: string)
    requires TokenInv(s, first) && LogInv(s, first, seed) && Enabled(s, Swap(r, reply)) && Orderly(s, Swap(r, reply))
    requires Next(s, Swap(r, reply)).log != s.log
    ensures var s' := Next(s, Swap(r, reply));
      && |s'.log| == |s.log| + 1 && s'.log[..|s.log|] == s.log
      && LinkAt(s'.log, first, seed, |s.log|)
      && s'.live == s'.log[|s.log|].left
      && s'.log[|s.log|].access in s'.known && s'.log[|s.log|].left in s'.known && s'.log[|s.log|].stale in s'.known
  {
    hide Find, Locks.Next, Locks.Enabled, Locks.State.PhaseOf, Unrecorded, PoolIsNewest, Chain;
    assert Newest(s, first, s.callers[r].current);
  }

  // ----- what callers are given -----

  ghost predicate Issued(log: seq<Exchange>, first: string, access: string) {
    access == first || exists i :: 0 <= i < |log| && log[i].access == access
  }

  /** A credential some exchange brought, or the one the pool began with. */
  ghost predicate Genuine(s: State, first: string, result: Result) {
    result.Ok? ==> Issued(s.log, first, result.account.accessToken)
  }

  ghost predicate CallerTold(s: State, first: string, p: Phase) {
    match p
    case Renewed(stale, _, current) => current.accessToken != stale && Issued(s.log, first, current.accessToken)
    case Storing(stale, _, current) => current.accessToken != stale && Issued(s.log, first, current.accessToken)
    case Finished(stale, _, result) => Genuine(s, first, result) && (result.Ok? ==> result.account.accessToken != stale)
    case Done(_, result) => Genuine(s, first, result)
    case _ => true
  }

  ghost predicate ResultInv(s: State, first: string) {
    && (forall r :: r in s.callers ==> CallerTold(s, first, s.callers[r]))
    && (forall c :: c in s.published ==> Genuine(s, first, s.published[c]))
  }

  lemma ResultStep(s: State, a: Action, first: string, seed: string)
    requires GroupInv(s) && TokenInv(s, first) && ResultInv(s, first) && LogInv(s, first, seed)
    requires Enabled(s, a) && Orderly(s, a)
    ensures ResultInv(Next(s, a), first)
  {
    hide *;
    var s' := Next(s, a);
    OnlyOneCaller(s, a);
    LogGrows(s, a);
    if !a.Work? {
      MovedCallerTold(s, a, first, seed);
    }
    ResultsStay(s, s', a, first);
  }

  lemma OnlyOneCaller(s: State, a: Action)
    requires Enabled(s, a)
    ensures var s' := Next(s, a);
      && (a.Work? ==> s'.callers == s.callers && s'.published == s.published)
      && (!a.Work? ==> a.r in s'.callers && s'.callers == s.callers[a.r := s'.callers[a.r]])
      && (!a.Work? && !a.Publish? ==> s'.published == s.published)
      && (a.Publish? ==>
           && a.r in s.callers && s.callers[a.r].Finished? && s'.callers[a.r] == Done(s.callers[a.r].stale, s.callers[a.r].result)
           && s'.published == s.published[s.callers[a.r].call := s.callers[a.r].result])
  {
    hide Find, CanExchange, Granting, Locks.Next, Locks.Enabled, Locks.State.PhaseOf;
  }

  lemma LogGrows(s: State, a: Action)
    requires Enabled(s, a)
    ensures s.log <= Next(s, a).log
  {
    hide Find, CanExchange, Granting, Locks.Next, Locks.Enabled, Locks.State.PhaseOf;
  }

  lemma MovedCallerTold(s: State, a: Action, first: string, seed: string)
    requires GroupInv(s) && TokenInv(s, first) && ResultInv(s, first) && LogInv(s, first, seed)
    requires Enabled(s, a) && Orderly(s, a) && !a.Work?
    ensures a.r in Next(s, a).callers && CallerTold(Next(s, a), first, Next(s, a).callers[a.r])
  {
    if a.Read? {
      ReaderTold(s, a.r, first);
    } else if a.Swap? {
      SwapperTold(s, a.r, a.reply, first, seed);
    } else {
      hide Find, GroupInv, TokenInv, LogInv, Issued, Locks.State.PhaseOf;
      if a.r in s.callers { assert CallerTold(s, first, s.callers[a.r]); }
    }
  }

  lemma ReaderTold(s: State, r: nat, first: string)
    requires GroupInv(s) && TokenInv(s, first) && Enabled(s, Read(r))
    ensures CallerTold(Next(s, Read(r)), first, Next(s, Read(r)).callers[r])
  {
    LeaderHasRecorded(s, r);
    hide Find, GroupInv, Unrecorded;
    assert PoolIsNewest(s, first);
    if s.log != [] { assert LastAccess(s, first) == s.log[|s.log| - 1].access; }
    assert Issued(s.log, first, LastAccess(s, first));
  }

  lemma SwapperTold(s: State, r: nat, reply: Reply, first: string, seed: string)
    requires LogInv(s, first, seed) && Enabled(s, Swap(r, reply)) && Orderly(s, Swap(r, reply))
    ensures CallerTold(Next(s, Swap(r, reply)), first, Next(s, Swap(r, reply)).callers[r])
  {
    hide Find, Chain;
    assert s.callers[r].stale in s.known;
    var s' := Next(s, Swap(r, reply));
    if s'.callers[r].Renewed? { assert s'.log[|s.log|].access == s'.callers[r].current.accessToken; }
  }

  lemma ResultsStay(s: State, s': State, a: Action, first: string)
    requires ResultInv(s, first) && s.log <= s'.log
    requires a.Work? ==> s'.callers == s.callers && s'.published == s.published
    requires !a.Work? ==> a.r in s'.callers && s'.callers == s.callers[a.r := s'.callers[a.r]] && CallerTold(s', first, s'.callers[a.r])
    requires !a.Work? && !a.Publish? ==> s'.published == s.published
    requires a.Publish? ==>
      && s'.callers[a.r].Done? && a.r in s.callers && s.callers[a.r].Finished?
      && s'.published == s.published[s.callers[a.r].call := s'.callers[a.r].result]
    ensures ResultInv(s', first)
  {
    forall x | Issued(s.log, first, x) ensures Issued(s'.log, first, x) {
      if x != first {
        var i :| 0 <= i < |s.log| && s.log[i].access == x;
        assert s'.log[i] == s.log[i];
      }
    }
    hide Issued;
    forall r | r in s'.callers ensures CallerTold(s', first, s'.callers[r]) {
      if a.Work? || r != a.r { assert CallerTold(s, first, s.callers[r]); }
    }
  }

  // ----- callers that all hold one token -----

  ghost predicate OnlyInv(s: State, x: string) {
    && (forall r :: r in s.callers ==> s.callers[r].stale == x)
    && (forall r :: r in s.callers && s.callers[r].Done? && s.callers[r].result.Ok? ==> s.callers[r].result.account.accessToken != x)
    && (forall c :: c in s.published && s.published[c].Ok? ==> s.published[c].account.accessToken != x)
    && (forall i :: 0 <= i < |s.log| ==> s.log[i].stale == x)
  }

  lemma OnlyStep(s: State, a: Action, first: string, x: string)
    requires ResultInv(s, first) && OnlyInv(s, x) && Enabled(s, a) && (a.Call? ==> a.stale == x)
    ensures OnlyInv(Next(s, a), x)
  {
    var s' := Next(s, a);
    OnlyOneCaller(s, a);
    LogGrows(s, a);
    MovedCallerStale(s, a);
    if a.Publish? { assert CallerTold(s, first, s.callers[a.r]); }
    hide Next, Enabled, ResultInv, CallerTold, Genuine;
    forall i | 0 <= i < |s'.log| ensures s'.log[i].stale == x {
      if i < |s.log| { assert s'.log[i] == s.log[i]; }
    }
  }

  lemma MovedCallerStale(s: State, a: Action)
    requires Enabled(s, a)
    ensures var s' := Next(s, a);
      && |s'.log| <= |s.log| + 1
      && (|s'.log| == |s.log| + 1 ==> !a.Work? && a.r in s.callers && s'.log[|s.log|].stale == s.callers[a.r].stale)
      && (!a.Work? ==>
           && a.r in s'.callers
           && s'.callers[a.r].stale == (if a.Call? then a.stale else if a.r in s.callers then s.callers[a.r].stale else ""))
      && (!a.Work? && !a.Call? ==> a.r in s.callers)
      && (!a.Work? && s'.callers[a.r].Done? && !a.Publish? ==>
           exists c :: c in s.published && s'.callers[a.r].result == s.published[c])
  {
    hide Find, CanExchange, Granting, Locks.Next, Locks.Enabled, Locks.State.PhaseOf;
  }

  // ----- every run -----

  ghost predicate Inv(s: State, first: string, seed: string) {
    GroupInv(s) && WorkInv(s) && TokenInv(s, first) && LogInv(s, first, seed) && ResultInv(s, first)
  }

  lemma StepKeeps(s: State, a: Action, first: string, seed: string)
    requires Inv(s, first, seed) && Enabled(s, a) && Orderly(s, a)
    ensures Inv(Next(s, a), first, seed)
  {
    hide *;
    assert GroupInv(s) && WorkInv(s) && TokenInv(s, first) && LogInv(s, first, seed) && ResultInv(s, first) by {
      InvParts(s, first, seed);
    }
    GroupStep(s, a);
    OrderlyIsCivil(s, a);
    WorkStep(s, a);
    TokenStep(s, a, first);
    LogStep(s, a, first, seed);
    ResultStep(s, a, first, seed);
    InvParts(Next(s, a), first, seed);
  }

  lemma {:induction false} OrderlyIsCivil(s: State, a: Action)
    requires Orderly(s, a)
    ensures Civil(s, a)
  {
    hide Civil;
  }

  lemma InvParts(s: State, first: string, seed: string)
    ensures Inv(s, first, seed)
      <==> GroupInv(s) && WorkInv(s) && TokenInv(s, first) && LogInv(s, first, seed) && ResultInv(s, first)
  {
    hide GroupInv, WorkInv, TokenInv, LogInv, ResultInv;
  }

  lemma {:induction false} RunKeeps(s: State, actions: seq<Action>, first: string, seed: string)
    requires Inv(s, first, seed) && IsRun(s, actions)
    ensures Inv(After(s, actions), first, seed)
    decreases |actions|
  {
    hide Inv, Enabled, Orderly, Next;
    if actions != [] {
      StepKeeps(s, actions[0], first, seed);
      RunKeeps(Next(s, actions[0]), actions[1..], first, seed);
    }
  }

  function First(s: State): string
    requires Find(s.pool.memory, s.id).Some?
  {
    Find(s.pool.memory, s.id).value.accessToken
  }

  lemma StartsWell(s: State)
    requires Start(s)
    ensures Inv(s, First(s), s.live)
  {
    hide Find;
    Locks.StartsWell(s.pool);
  }

  // ----- what a chain of exchanges means -----

  lemma {:induction false} RetiredStaysRetired(log: seq<Exchange>, first: string, seed: string, i: nat, j: nat)
    requires Chain(log, first, seed) && i <= j < |log| && log[i].left != log[i].spent
    ensures log[j].left != log[i].spent
  {
    assert LinkAt(log, first, seed, i) && LinkAt(log, first, seed, j);
    if i < j {
      RetiredStaysRetired(log, first, seed, i, j - 1);
      if log[j].left != log[j].spent && i > 0 { assert log[i].spent == log[i - 1].left; }
    }
  }

  /** A refresh token that an exchange retired is never presented again, and no two exchanges
      are made for callers that held one access token. */
  lemma ChainNeverRepeats(log: seq<Exchange>, first: string, seed: string, i: nat, j: nat)
    requires Chain(log, first, seed) && i < j < |log|
    ensures log[i].left != log[i].spent ==> log[j].spent != log[i].spent
    ensures log[i].stale != log[j].stale
  {
    assert LinkAt(log, first, seed, j) && LinkAt(log, first, seed, j - 1);
    if log[i].left != log[i].spent { RetiredStaysRetired(log, first, seed, i, j - 1); }
    assert log[j].stale == log[j - 1].access;
  }

  /** In every interleaving of any number of callers with edits, removals and reloads, each
      exchange presents the refresh token its predecessor left, none presents a retired one,
      and each stale access token causes at most one exchange. */
  lemma {:induction false} NeverSpendsTwice(s: State, actions: seq<Action>)
    requires Start(s) && IsRun(s, actions)
    ensures var log := After(s, actions).log;
      && (forall i :: 0 <= i < |log| ==> log[i].spent == LiveBefore(log, s.live, i))
      && (forall i, j :: 0 <= i < j < |log| && log[i].left != log[i].spent ==> log[j].spent != log[i].spent)
      && (forall i, j :: 0 <= i < j < |log| ==> log[i].stale != log[j].stale)
  {
    hide Locks.Start, IsRun, After, LinkAt, GroupInv, WorkInv, TokenInv, ResultInv;
    StartsWell(s);
    RunKeeps(s, actions, First(s), s.live);
    var log := After(s, actions).log;
    forall i | 0 <= i < |log| ensures log[i].spent == LiveBefore(log, s.live, i) {
      LinkSpends(log, First(s), s.live, i);
    }
    forall i, j | 0 <= i < j < |log|
      ensures log[i].stale != log[j].stale && (log[i].left != log[i].spent ==> log[j].spent != log[i].spent)
    {
      ChainNeverRepeats(log, First(s), s.live, i, j);
    }
  }

  lemma LinkSpends(log: seq<Exchange>, first: string, seed: string, i: nat)
    requires i < |log| && LinkAt(log, first, seed, i)
    ensures log[i].spent == LiveBefore(log, seed, i)
  {}

  // ----- callers that start from one token -----

  predicate AllHold(actions: seq<Action>, x: string) {
    forall a :: a in actions && a.Call? ==> a.stale == x
  }

  ghost predicate NobodyGetsItsOwn(s: State) {
    forall r :: r in s.callers && s.callers[r].Done? && s.callers[r].result.Ok? ==>
      s.callers[r].result.account.accessToken != s.callers[r].stale
  }

  lemma {:induction false} OnlyIsFair(s: State, x: string)
    requires OnlyInv(s, x)
    ensures NobodyGetsItsOwn(s)
  {}

  lemma {:induction false} OnlyRun(s: State, actions: seq<Action>, first: string, seed: string, x: string)
    requires Inv(s, first, seed) && OnlyInv(s, x) && IsRun(s, actions) && AllHold(actions, x)
    ensures OnlyInv(After(s, actions), x)
    decreases |actions|
  {
    hide Enabled, Orderly, Next, OnlyInv, Inv;
    if actions != [] {
      StepKeeps(s, actions[0], first, seed);
      InvParts(s, first, seed);
      OnlyStep(s, actions[0], first, x);
      OnlyRun(Next(s, actions[0]), actions[1..], first, seed, x);
    }
  }

  lemma TwoExchangesTwoTokens(log: seq<Exchange>, x: string)
    requires |log| > 1 && forall i, j :: 0 <= i < j < |log| ==> log[i].stale != log[j].stale
    ensures exists i :: 0 <= i < |log| && log[i].stale != x
  {
    assert log[0].stale != log[1].stale;
  }

  lemma AtMostOneExchange(log: seq<Exchange>, x: string)
    requires forall i :: 0 <= i < |log| ==> log[i].stale == x
    requires forall i, j :: 0 <= i < j < |log| ==> log[i].stale != log[j].stale
    ensures |log| <= 1
  {
    if |log| > 1 { TwoExchangesTwoTokens(log, x); }
  }

  /** However many callers hold the pool's access token, and however they interleave, they
      cause at most one exchange; exactly one if any of them is given a credential, which is
      then another one. */
  lemma {:induction false} OneExchangeForAll(s: State, actions: seq<Action>)
    requires Start(s) && IsRun(s, actions) && AllHold(actions, First(s))
    ensures var s' := After(s, actions);
      && |s'.log| <= 1
      && NobodyGetsItsOwn(s')
      && ((exists r :: r in s'.callers && s'.callers[r].Done? && s'.callers[r].result.Ok?) ==> |s'.log| == 1)
  {
    hide IsRun, After, AllHold, Chain, GroupInv, WorkInv, TokenInv;
    StartsWell(s);
    RunKeeps(s, actions, First(s), s.live);
    OnlyRun(s, actions, First(s), s.live, First(s));
    NeverSpendsTwice(s, actions);
    var s' := After(s, actions);
    AtMostOneExchange(s'.log, First(s));
    OnlyIsFair(s', First(s));
    if r :| r in s'.callers && s'.callers[r].Done? && s'.callers[r].result.Ok? {
      assert CallerTold(s', First(s), s'.callers[r]);
    }
  }

  /** A caller that leads is never given back the access token it came with. */
  lemma {:induction false} LeaderGetsAnotherToken(s: State, actions: seq<Action>, r: nat)
    requires Start(s) && IsRun(s, actions)
    ensures var s' := After(s, actions);
      r in s'.callers && s'.callers[r].Finished? && s'.callers[r].result.Ok? ==>
        s'.callers[r].result.account.accessToken != s'.callers[r].stale
  {
    hide IsRun, After, Locks.Start, GroupInv, WorkInv, TokenInv, LogInv;
    StartsWell(s);
    RunKeeps(s, actions, First(s), s.live);
    if r in After(s, actions).callers { assert CallerTold(After(s, actions), First(s), After(s, actions).callers[r]); }
  }

  // ----- what a renewal leaves in the pool -----

  /** `a` holds what the last exchange left: its access token, the refresh token that the reply named, or else the one
      presented, and the expiry that the last reply to name one has named. */
  ghost predicate HoldsLast(log: seq<Exchange>, a: Account, was: Account) {
    && a.expiresAt == LastExpiry(log, was.expiresAt)
    && if log == [] then a.accessToken == was.accessToken && a.refreshToken == was.refreshToken
       else
         var e := log[|log| - 1];
         && e.reply.Granted? && a.accessToken == e.reply.access
         && a.refreshToken == (if e.reply.refresh == "" then e.spent else e.reply.refresh)
  }

  lemma {:induction false} NewestHoldsLast(s: State, first: string, seed: string, a: Account, was: Account)
    requires LogInv(s, first, seed) && Newest(s, first, a) && was.accessToken == first && was.refreshToken == seed && was.expiresAt == s.born
    ensures HoldsLast(s.log, a, was)
  {
    if s.log != [] { assert LinkAt(s.log, first, seed, |s.log| - 1); }
  }

  lemma {:induction false} BornOnce(s: State, actions: seq<Action>)
    requires IsRun(s, actions)
    ensures After(s, actions).born == s.born && After(s, actions).id == s.id
    decreases |actions|
  {
    hide Enabled, Orderly, Next;
    if actions != [] {
      SameBirth(s, actions[0]);
      BornOnce(Next(s, actions[0]), actions[1..]);
    }
  }

  lemma SameBirth(s: State, a: Action)
    requires Enabled(s, a)
    ensures Next(s, a).born == s.born && Next(s, a).id == s.id
  {
    hide Find, Locks.Next, Locks.Enabled, CanExchange, Granting;
  }

  /** Whenever nobody is in the middle of a renewal, the account in the pool holds what the last exchange left, or what
      it held to begin with; and a caller on its way back from an exchange of its own is given just that. */
  lemma {:induction false} PoolHoldsLastExchange(s: State, actions: seq<Action>)
    requires Start(s) && IsRun(s, actions)
    ensures var s', was := After(s, actions), Find(s.pool.memory, s.id).value; var now := Find(s'.pool.memory, s.id);
      && ((forall r :: r in s'.callers ==> !s'.callers[r].Renewed? && !s'.callers[r].Storing?) && now.Some? ==>
            HoldsLast(s'.log, now.value, was))
      && (forall r :: Enabled(s', Recorded(r)) ==>
            && s'.log != [] && s'.log[|s'.log| - 1].stale == s'.callers[r].stale
            && var p := Next(s', Recorded(r)).callers[r]; p.result.Ok? && HoldsLast(s'.log, p.result.account, was))
  {
    hide IsRun, After, Locks.Start, GroupInv, WorkInv, ResultInv, HoldsLast, Find, LogInv, LastExpiry, LastAccess;
    StartsWell(s);
    RunKeeps(s, actions, First(s), s.live);
    BornOnce(s, actions);
    var s', was := After(s, actions), Find(s.pool.memory, s.id).value;
    var now := Find(s'.pool.memory, s.id);
    if (forall r :: r in s'.callers ==> !s'.callers[r].Renewed? && !s'.callers[r].Storing?) && now.Some? {
      assert forall r: nat :: !Unrecorded(s', r);
      NewestHoldsLast(s', First(s), s.live, now.value, was);
    }
    forall r | Enabled(s', Recorded(r))
      ensures s'.log != [] && s'.log[|s'.log| - 1].stale == s'.callers[r].stale
      ensures var p := Next(s', Recorded(r)).callers[r]; p.result.Ok? && HoldsLast(s'.log, p.result.account, was)
    {
      NewestHoldsLast(s', First(s), s.live, s'.callers[r].current, was);
    }
  }

  // ----- edits survive -----

  /** An account but for its tokens. */
  function Blank(a: Account): Account { a.Renewed("", "", 0) }

  function AllOn(a: Account, changes: seq<Change>): Account
    decreases |changes|
  {
    if changes == [] then a else AllOn(changes[0].On(a), changes[1..])
  }

  /** The change an action makes to the account on an editor's behalf. */
  function EditBy(s: State, a: Action): seq<Change>
    requires Enabled(s, a)
  {
    if a.Work? && a.step.Touch? && a.t !in s.callers then
      var op := s.pool.PhaseOf(a.t).op;
      if op.UpdateOp? && op.id == s.id then [op.change] else []
    else []
  }

  ghost function Edits(s: State, actions: seq<Action>): seq<Change>
    requires IsRun(s, actions)
    decreases |actions|
  {
    if actions == [] then [] else EditBy(s, actions[0]) + Edits(Next(s, actions[0]), actions[1..])
  }

  lemma {:induction false} AllOnAppend(a: Account, b: seq<Change>, c: seq<Change>)
    ensures AllOn(a, b + c) == AllOn(AllOn(a, b), c)
    decreases |b|
  {
    hide Change.On;
    if b == [] {
      assert b + c == c;
    } else {
      assert (b + c)[0] == b[0] && (b + c)[1..] == b[1..] + c;
      AllOnAppend(b[0].On(a), b[1..], c);
    }
  }

  lemma {:induction false} AllOnIgnoresTokens(a: Account, b: Account, changes: seq<Change>)
    requires Blank(a) == Blank(b)
    ensures Blank(AllOn(a, changes)) == Blank(AllOn(b, changes))
    decreases |changes|
  {
    if changes != [] { AllOnIgnoresTokens(changes[0].On(a), changes[0].On(b), changes[1..]); }
  }

  lemma StepEdits(s: State, a: Action)
    requires WorkInv(s) && Enabled(s, a) && Orderly(s, a)
    ensures var was, now := Find(s.pool.memory, s.id), Find(Next(s, a).pool.memory, Next(s, a).id);
      now.Some? ==> was.Some? && Blank(now.value) == Blank(AllOn(was.value, EditBy(s, a)))
  {
    if a.Work? && a.step.Touch? {
      TouchEdits(s, a.t);
    } else {
      hide Find, Locks.Applied, Addressable;
      if a.Work? && a.step.Adopt? { Locks.AdoptChangesNothing(s.pool, Locks.Event(a.t, a.step)); }
    }
  }

  lemma TouchEdits(s: State, t: nat)
    requires WorkInv(s) && Enabled(s, Work(t, Locks.Touch))
    ensures var was, now := Find(s.pool.memory, s.id), Find(Next(s, Work(t, Locks.Touch)).pool.memory, s.id);
      now.Some? ==> was.Some? && Blank(now.value) == Blank(AllOn(was.value, EditBy(s, Work(t, Locks.Touch))))
  {
    assert Locks.Inv(s.pool, s.failed) && Pending(s.pool.PhaseOf(t));
    hide Addressable, Find, Locks.Applied;
    Locks.FindAfter(s.pool.memory, s.pool.PhaseOf(t).op, s.id);
    var op := s.pool.PhaseOf(t).op;
    if op.UpdateOp? { assert [op.change][1..] == []; }
  }

  lemma {:induction false} RunEdits(s: State, actions: seq<Action>, first: string, seed: string)
    requires Inv(s, first, seed) && IsRun(s, actions)
    ensures var was, now := Find(s.pool.memory, s.id), Find(After(s, actions).pool.memory, s.id);
      now.Some? ==> was.Some? && Blank(now.value) == Blank(AllOn(was.value, Edits(s, actions)))
    decreases |actions|
  {
    hide Inv, Enabled, Orderly, Next, Find, Blank, EditBy;
    if actions != [] {
      StepKeeps(s, actions[0], first, seed);
      InvParts(s, first, seed);
      StepEdits(s, actions[0]);
      SameBirth(s, actions[0]);
      var s1 := Next(s, actions[0]);
      RunEdits(s1, actions[1..], first, seed);
      var was, then_ := Find(s.pool.memory, s.id), Find(s1.pool.memory, s.id);
      if then_.Some? && was.Some? {
        AllOnIgnoresTokens(then_.value, AllOn(was.value, EditBy(s, actions[0])), Edits(s1, actions[1..]));
        AllOnAppend(was.value, EditBy(s, actions[0]), Edits(s1, actions[1..]));
      }
    }
  }

  /** The value the last edit to set one has set, or the one there was. */
  function LastSet<T(==)>(edits: seq<Change>, set_: Change -> Option<T>, was: T): T {
    if edits == [] then was
    else
      var last := set_(edits[|edits| - 1]);
      if last.Some? then last.value else LastSet(edits[..|edits| - 1], set_, was)
  }

  function DisplaySet(c: Change): Option<string> { if c.Settings? then c.display else None }
  function PrioritySet(c: Change): Option<int> { if c.Settings? then c.priority else None }
  function EnabledSet(c: Change): Option<bool> { if c.Settings? then c.enabled else None }
  function KeySet(c: Change): Option<string> { if c.Settings? then c.apiKey else None }

  /** The account as the last edits of each setting have left it. */
  function LastEdited(a: Account, edits: seq<Change>): Account {
    a.(display := LastSet(edits, DisplaySet, a.display), priority := LastSet(edits, PrioritySet, a.priority),
       enabled := LastSet(edits, EnabledSet, a.enabled), apiKey := LastSet(edits, KeySet, a.apiKey))
  }

  lemma {:induction false} AllOnIsLastEdited(a: Account, changes: seq<Change>)
    ensures Blank(AllOn(a, changes)) == Blank(LastEdited(a, changes))
  {
    if changes != [] {
      var before, last := changes[..|changes| - 1], changes[|changes| - 1];
      AllOnIsLastEdited(a, before);
      assert changes == before + [last] && [last][1..] == [];
      AllOnAppend(a, before, [last]);
      OnLastEdited(AllOn(a, before), a, changes);
    }
  }

  lemma {:induction false} OnLastEdited(b: Account, a: Account, changes: seq<Change>)
    requires changes != [] && Blank(b) == Blank(LastEdited(a, changes[..|changes| - 1]))
    ensures Blank(changes[|changes| - 1].On(b)) == Blank(LastEdited(a, changes))
  {
    var last := changes[|changes| - 1];
    ChangeSays(last, b);
  }

  /** Renewals leave every edit standing: but for its tokens, the account is what it was, with each setting as the last
      edit to set it has set it. */
  lemma {:induction false} EditsSurvive(s: State, actions: seq<Action>)
    requires Start(s) && IsRun(s, actions)
    ensures var was, now := Find(s.pool.memory, s.id), Find(After(s, actions).pool.memory, s.id);
      now.Some? ==> Blank(now.value) == Blank(LastEdited(was.value, Edits(s, actions)))
  {
    hide IsRun, After, Inv, Blank;
    StartsWell(s);
    RunEdits(s, actions, First(s), s.live);
    var was := Find(s.pool.memory, s.id);
    if was.Some? { AllOnIsLastEdited(was.value, Edits(s, actions)); }
  }

  // ----- a joiner shares its leader's answer, whatever it came with -----

  /** A caller whose token was refused, joining one that merely held a stale copy, is handed the
      refused token back and no exchange is made. */
  lemma {:induction false} JoinerMayGetItsOwnTokenBack(s: State, older: string)
    requires Start(s) && First(s) != "" && older != First(s)
    ensures var actions := [Call(1, older), Call(2, First(s)), Join(1), Join(2), Read(1), Publish(1), Wake(2)];
      && IsRun(s, actions) && After(s, actions).log == []
      && 2 in After(s, actions).callers
      && After(s, actions).callers[2] == Done(First(s), Ok(Find(s.pool.memory, s.id).value))
  {
    hide Locks.Next, Locks.Enabled, Find, IsRun, After, Addressable;
    var s1 := Next(s, Call(1, older));
    var s2 := Next(s1, Call(2, First(s)));
    var s3 := Next(s2, Join(1));
    var s4 := Next(s3, Join(2));
    SharedAnswer(s4, s.nextCall);
    hide Next;
    var told := [Read(1), Publish(1), Wake(2)];
    Then(s3, Join(2), told);
    Then(s2, Join(1), [Join(2)] + told);
    Then(s1, Call(2, First(s)), [Join(1)] + ([Join(2)] + told));
    Then(s, Call(1, older), [Call(2, First(s))] + ([Join(1)] + ([Join(2)] + told)));
    assert [Call(1, older)] + ([Call(2, First(s))] + ([Join(1)] + ([Join(2)] + told)))
      == [Call(1, older), Call(2, First(s)), Join(1), Join(2), Read(1), Publish(1), Wake(2)];
  }

  lemma {:induction false} SharedAnswer(s: State, c: nat)
    requires 1 in s.callers && s.callers[1].Leading? && s.callers[1].call == c
    requires 2 in s.callers && s.callers[2].Joined? && s.callers[2].call == c
    requires var a := Find(s.pool.memory, s.id);
      a.Some? && a.value.accessToken != "" && a.value.accessToken != s.callers[1].stale
    ensures var actions := [Read(1), Publish(1), Wake(2)];
      && IsRun(s, actions) && After(s, actions).log == s.log
      && 2 in After(s, actions).callers
      && After(s, actions).callers[2] == Done(s.callers[2].stale, Ok(Find(s.pool.memory, s.id).value))
  {
    hide Locks.Next, Locks.Enabled, Find, IsRun, After;
    var s1 := Next(s, Read(1));
    var s2 := Next(s1, Publish(1));
    NoActions(Next(s2, Wake(2)));
    Then(s2, Wake(2), []);
    Then(s1, Publish(1), [Wake(2)] + []);
    Then(s, Read(1), [Publish(1)] + ([Wake(2)] + []));
    assert [Read(1)] + ([Publish(1)] + ([Wake(2)] + [])) == [Read(1), Publish(1), Wake(2)];
  }

  lemma {:induction false} NoActions(s: State)
    ensures IsRun(s, []) && After(s, []) == s
  {}

  lemma {:induction false} Then(s: State, a: Action, rest: seq<Action>)
    requires Enabled(s, a) && Orderly(s, a) && IsRun(Next(s, a), rest)
    ensures IsRun(s, [a] + rest) && After(s, [a] + rest) == After(Next(s, a), rest)
  {
    hide Next, Enabled, Orderly;
    assert ([a] + rest)[0] == a && ([a] + rest)[1..] == rest;
  }
}
