/** The credential pool as the engine sees it: accounts, their health, the order the
    store hands them out in, and the account `selectAccount` picks next
    (internal/store/account.go, health.go, store.go; internal/engine/select.go, sticky.go). */
module Selection {
  import opened Basics

  /** Nanoseconds since Go's zero time, so 0 is what `IsZero` recognises. */
  type Time = int

  const UNIX_EPOCH: Time := 62_135_596_800_000_000_000

  datatype Kind = OAuth | ApiKey | OtherKind(name: string)

  datatype Account = Account(
    id: string, lane: string, kind: Kind, display: string, priority: int, enabled: bool,
    accessToken: string, refreshToken: string, expiresAt: nat, workspace: string,
    apiKey: string, authStyle: string)
  {
    /** `Problem() == ""`: nothing about this entry makes it unusable. */
    predicate ProblemFree() {
      && authStyle in {"", "bearer", "x-api-key"}
      && match kind
         case ApiKey => apiKey != ""
         case OAuth => accessToken != "" || refreshToken != ""
         case OtherKind(_) => false
    }

    predicate TokenExpiredAt(now: Time, skew: int) {
      kind.OAuth? && expiresAt != 0 && UNIX_EPOCH + expiresAt * 1_000_000 - skew < now
    }

    function Renewed(access: string, refresh: string, expires: nat): Account {
      this.(accessToken := access, refreshToken := refresh, expiresAt := expires)
    }
  }

  datatype Window = Window(utilization: real, resetAt: Time)

  datatype Condition = Available | Cooling | Exhausted | Invalid

  datatype Health = Health(
    state: Condition, until: Time, resetAt: Time, windows: seq<Window>, lastUsed: Time,
    lastError: string, requests: int, rotations: int, consecFails: int)
  {
    predicate AvailableAt(now: Time) {
      match state
      case Invalid => false
      case Cooling => now >= until
      case Exhausted => now >= resetAt
      case Available => true
    }

    /** 0 means "now, or never". */
    function NextAvailable(now: Time): Time {
      if AvailableAt(now) then 0
      else match state
        case Cooling => until
        case Exhausted => resetAt
        case _ => 0
    }
  }

  const FRESH_HEALTH := Health(Available, 0, 0, [], 0, "", 0, 0, 0)

  type HealthMap = map<string, Health>

  /** A missing entry reads as a fresh available account. */
  function HealthOf(health: HealthMap, id: string): Health {
    if id in health then health[id] else FRESH_HEALTH
  }

  // ----- the store's order -----

  /** Subscriptions first, then ascending priority, then id. */
  predicate Precedes(a: Account, b: Account) {
    if a.kind.OAuth? != b.kind.OAuth? then a.kind.OAuth?
    else if a.priority != b.priority then a.priority < b.priority
    else Less(a.id, b.id)
  }

  ghost predicate UniqueIds(accounts: seq<Account>) {
    forall i, j :: 0 <= i < j < |accounts| ==> accounts[i].id != accounts[j].id
  }

  predicate InLane(a: Account, lane: string) {
    a.lane == lane && a.enabled && a.ProblemFree()
  }

  function Filter(accounts: seq<Account>, keep: Account -> bool): (r: seq<Account>)
    ensures forall a :: a in r <==> a in accounts && keep(a)
    ensures |r| <= |accounts|
  {
    if accounts == [] then []
    else (if keep(accounts[0]) then [accounts[0]] else []) + Filter(accounts[1..], keep)
  }

  lemma {:induction false} FilterSnoc(s: seq<Account>, x: Account, keep: Account -> bool)
    ensures Filter(s + [x], keep) == Filter(s, keep) + (if keep(x) then [x] else [])
  {
    var last := if keep(x) then [x] else [];
    if s == [] {
      assert s + [x] == [x] && [x][1..] == [] && last + [] == [] + last == last;
    } else {
      var one, rest := if keep(s[0]) then [s[0]] else [], Filter(s[1..], keep);
      assert (s + [x])[0] == s[0] && (s + [x])[1..] == s[1..] + [x];
      FilterSnoc(s[1..], x, keep);
      assert one + (rest + last) == (one + rest) + last;
    }
  }

  function Insert(a: Account, sorted: seq<Account>): (r: seq<Account>)
    ensures multiset(r) == multiset(sorted) + multiset{a}
    ensures |r| == |sorted| + 1
  {
    if sorted == [] then [a]
    else if Precedes(sorted[0], a) then
      assert sorted == [sorted[0]] + sorted[1..];
      [sorted[0]] + Insert(a, sorted[1..])
    else [a] + sorted
  }

  /** What the library's stable sort returns for `Precedes`. */
  function Rank(accounts: seq<Account>): (r: seq<Account>)
    ensures multiset(r) == multiset(accounts)
    ensures |r| == |accounts|
  {
    if accounts == [] then []
    else
      assert accounts == [accounts[0]] + accounts[1..];
      Insert(accounts[0], Rank(accounts[1..]))
  }

  function InLaneTest(lane: string): Account -> bool {
    a => InLane(a, lane)
  }

  function LaneAccounts(accounts: seq<Account>, lane: string): seq<Account> {
    Rank(Filter(accounts, InLaneTest(lane)))
  }

  ghost predicate Ranked(s: seq<Account>) {
    forall i, j :: 0 <= i < j < |s| ==> !Precedes(s[j], s[i])
  }

  lemma PrecedesTransitive(a: Account, b: Account, c: Account)
    requires Precedes(a, b) && Precedes(b, c)
    ensures Precedes(a, c)
  {
    if a.id != "" || c.id != "" {
      if Less(a.id, b.id) && Less(b.id, c.id) { LessTransitive(a.id, b.id, c.id); }
    }
  }

  lemma PrecedesTotal(a: Account, b: Account)
    ensures Precedes(a, b) || Precedes(b, a) || a.id == b.id
    ensures !(Precedes(a, b) && Precedes(b, a))
  {
    LessTotal(a.id, b.id);
    if Less(a.id, b.id) { LessAsymmetric(a.id, b.id); }
  }

  lemma NotPrecedesTransitive(a: Account, b: Account, c: Account)
    requires !Precedes(b, a) && !Precedes(c, b)
    ensures !Precedes(c, a)
  {
    PrecedesTotal(a, b);
    PrecedesTotal(b, c);
    LessTotal(a.id, b.id);
    LessTotal(b.id, c.id);
    if Precedes(c, a) {
      if Precedes(a, b) { PrecedesTransitive(c, a, b); PrecedesTotal(b, c); }
      else if Precedes(b, c) { PrecedesTransitive(b, c, a); }
    }
  }

  lemma {:induction false} InsertRanked(a: Account, s: seq<Account>)
    requires Ranked(s)
    ensures Ranked(Insert(a, s))
  {
    if s != [] {
      if Precedes(s[0], a) {
        InsertRanked(a, s[1..]);
        var t := Insert(a, s[1..]);
        forall j | 0 <= j < |t| ensures !Precedes(t[j], s[0]) {
          assert t[j] in multiset(t);
          if t[j] == a { PrecedesTotal(s[0], a); }
          else { assert t[j] in s[1..]; }
        }
        assert Insert(a, s) == [s[0]] + t;
      } else {
        forall j | 0 <= j < |s| ensures !Precedes(s[j], a) {
          if j > 0 { NotPrecedesTransitive(a, s[0], s[j]); }
        }
        assert Insert(a, s) == [a] + s;
      }
    }
  }

  lemma {:induction false} RankRanked(s: seq<Account>)
    ensures Ranked(Rank(s))
  {
    if s != [] { RankRanked(s[1..]); InsertRanked(s[0], Rank(s[1..])); }
  }

  lemma {:induction false} RankMembers(s: seq<Account>)
    ensures forall a :: a in Rank(s) <==> a in s
  {
    forall a ensures a in Rank(s) <==> a in s {
      assert a in Rank(s) <==> a in multiset(Rank(s));
      assert a in s <==> a in multiset(s);
    }
  }

  lemma LaneMembers(accounts: seq<Account>, lane: string)
    ensures forall a :: a in LaneAccounts(accounts, lane) <==> a in accounts && InLane(a, lane)
  {
    RankMembers(Filter(accounts, InLaneTest(lane)));
  }

  // ----- selection -----

  datatype StickyEntry = StickyEntry(account: string, at: Time)

  datatype Rotation = Rotation(drainAbove: real, sticky: bool, stickyTtl: int)

  function StickyGet(sticky: map<string, StickyEntry>, ttl: int, key: string, now: Time): Option<string> {
    if key == "" || key !in sticky || now - sticky[key].at > ttl then None else Some(sticky[key].account)
  }

  /** The opportunistic sweep runs once the table has grown past 4096 entries. */
  function StickySet(sticky: map<string, StickyEntry>, ttl: int, key: string, id: string, now: Time)
    : map<string, StickyEntry>
  {
    if key == "" then sticky
    else
      var m := sticky[key := StickyEntry(id, now)];
      if |m| > 4096 then map k | k in m && now - m[k].at <= ttl :: m[k] else m
  }

  predicate Drained(h: Health, drainAbove: real, now: Time) {
    exists w :: w in h.windows && w.utilization >= drainAbove && !(w.resetAt != 0 && now >= w.resetAt)
  }

  /** What selection looks at. */
  datatype View = View(
    accounts: seq<Account>, health: HealthMap, tried: set<string>, lane: string,
    preferred: Option<string>, drainAbove: real, now: Time)
  {
    predicate Usable(a: Account) {
      a.id !in tried && HealthOf(health, a.id).AvailableAt(now)
    }

    predicate Fresh(a: Account) {
      !Drained(HealthOf(health, a.id), drainAbove, now)
    }

    function UsableTest(): Account -> bool { a => Usable(a) }

    function FreshTest(): Account -> bool { a => Fresh(a) }

    function UsableList(): seq<Account> {
      Filter(LaneAccounts(accounts, lane), UsableTest())
    }

    function PoolList(): seq<Account> {
      var undrained := Filter(UsableList(), FreshTest());
      if undrained == [] then UsableList() else undrained
    }

    function Select(): Option<Account> {
      var pool := PoolList();
      if pool == [] then None
      else match preferred
        case None => Some(pool[0])
        case Some(id) =>
          match FirstWithId(pool, id)
          case None => Some(pool[0])
          case Some(a) => Some(a)
    }

    /** An account the request could be sent on now. */
    ghost predicate Eligible(a: Account) {
      a in accounts && InLane(a, lane) && Usable(a)
    }

    /** An eligible account that selection does not set aside as nearly spent. */
    ghost predicate InPool(a: Account) {
      Eligible(a) && (SomeFresh() ==> Fresh(a))
    }

    ghost predicate SomeFresh() {
      exists b :: Eligible(b) && Fresh(b)
    }

    ghost predicate PreferredInPool() {
      exists b :: InPool(b) && preferred == Some(b.id)
    }

    /** What selection promises, stated on the set of stored accounts. */
    ghost predicate IsChoice(r: Option<Account>) {
      match r
      case None => forall a :: !Eligible(a)
      case Some(a) =>
        && InPool(a)
        && (if PreferredInPool()
            then preferred == Some(a.id)
            else forall b :: InPool(b) && b != a ==> Precedes(a, b))
    }
  }

  function FirstWithId(s: seq<Account>, id: string): (r: Option<Account>)
    ensures r.Some? ==> r.value in s && r.value.id == id
    ensures r.None? ==> forall a :: a in s ==> a.id != id
  {
    if s == [] then None else if s[0].id == id then Some(s[0]) else FirstWithId(s[1..], id)
  }

  lemma {:induction false} FilterRanked(s: seq<Account>, keep: Account -> bool)
    requires Ranked(s)
    ensures Ranked(Filter(s, keep))
  {
    if s != [] {
      FilterRanked(s[1..], keep);
      var t := Filter(s[1..], keep);
      forall j | 0 <= j < |t| ensures !Precedes(t[j], s[0]) {
        assert t[j] in s[1..];
      }
    }
  }

  lemma UsableMembers(v: View)
    ensures forall a :: a in v.UsableList() <==> v.Eligible(a)
    ensures Ranked(v.UsableList())
  {
    LaneMembers(v.accounts, v.lane);
    RankRanked(Filter(v.accounts, InLaneTest(v.lane)));
    FilterRanked(LaneAccounts(v.accounts, v.lane), v.UsableTest());
  }

  lemma PoolMembers(v: View)
    ensures forall a :: a in v.PoolList() <==> v.InPool(a)
    ensures Ranked(v.PoolList())
    ensures v.PoolList() == [] ==> v.UsableList() == []
  {
    UsableMembers(v);
    FilterRanked(v.UsableList(), v.FreshTest());
    var undrained := Filter(v.UsableList(), v.FreshTest());
    if undrained != [] { assert v.Eligible(undrained[0]) && v.Fresh(undrained[0]); }
  }

  /** The head of a ranked list with unique ids precedes everything else in it. */
  lemma HeadPrecedes(accounts: seq<Account>, pool: seq<Account>, b: Account)
    requires UniqueIds(accounts) && Ranked(pool)
    requires forall a :: a in pool ==> a in accounts
    requires b in pool && b != pool[0]
    ensures Precedes(pool[0], b)
  {
    var k :| 0 <= k < |pool| && pool[k] == b;
    assert !Precedes(pool[k], pool[0]);
    PrecedesTotal(pool[0], b);
    assert pool[0] in pool;
  }

  /** Selection meets its promise on every pool whose ids are unique. */
  lemma SelectIsChoice(v: View)
    requires UniqueIds(v.accounts)
    ensures v.IsChoice(v.Select())
  {
    UsableMembers(v);
    PoolMembers(v);
    var pool := v.PoolList();
    if pool == [] {
      assert v.UsableList() == [];
    } else if v.preferred.Some? && FirstWithId(pool, v.preferred.value).Some? {
      var a := FirstWithId(pool, v.preferred.value).value;
      assert v.InPool(a);
    } else {
      assert v.InPool(pool[0]);
      assert !v.PreferredInPool();
      forall b | v.InPool(b) && b != pool[0] ensures Precedes(pool[0], b) {
        HeadPrecedes(v.accounts, pool, b);
      }
    }
  }

  /** The promise leaves no freedom, so the stored order cannot matter. */
  lemma ChoiceUnique(v: View, r: Option<Account>, s: Option<Account>)
    requires UniqueIds(v.accounts)
    requires v.IsChoice(r) && v.IsChoice(s)
    ensures r == s
  {
    if r.Some? && s.Some? && r != s {
      PrecedesTotal(r.value, s.value);
    }
  }

  lemma SamePromise(v: View, w: View, r: Option<Account>)
    requires w == v.(accounts := w.accounts)
    requires forall a :: w.Eligible(a) <==> v.Eligible(a)
    requires v.IsChoice(r)
    ensures w.IsChoice(r)
  {
    hide View.Eligible;
    assert w.SomeFresh() <==> v.SomeFresh() by {
      forall b ensures w.Eligible(b) && w.Fresh(b) <==> v.Eligible(b) && v.Fresh(b) {}
    }
    assert forall b :: w.InPool(b) <==> v.InPool(b);
    assert w.PreferredInPool() <==> v.PreferredInPool();
  }

  /** Two stores holding the same accounts in different orders lead to the same choice. */
  lemma SelectIgnoresStoredOrder(v: View, permuted: seq<Account>)
    requires UniqueIds(v.accounts) && UniqueIds(permuted)
    requires forall a :: a in permuted <==> a in v.accounts
    ensures v.(accounts := permuted).Select() == v.Select()
  {
    hide View.Select, View.IsChoice, UniqueIds;
    var w := v.(accounts := permuted);
    SelectIsChoice(v);
    SelectIsChoice(w);
    SamePromise(v, w, v.Select());
    ChoiceUnique(w, w.Select(), v.Select());
  }
}
