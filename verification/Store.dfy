/** The credential pool on disk and in memory, one operation at a time
    (internal/store/store.go, account.go).  A write either replaces `accounts.json` whole or
    leaves it alone. */
module Store {
  import opened Basics
  import opened Selection

  // ----- the pool as a value -----

  /** What a caller of `UpdateAccount` does to the record: edit settings, or renew tokens. */
  datatype Change =
    | Settings(display: Option<string>, priority: Option<int>, enabled: Option<bool>, apiKey: Option<string>)
    | Renewal(access: string, refresh: string, expires: nat)
  {
    function On(a: Account): Account {
      match this
      case Renewal(access, refresh, expires) => a.Renewed(access, refresh, expires)
      case Settings(d, p, e, k) =>
        a.(display := if d.Some? then d.value else a.display, priority := if p.Some? then p.value else a.priority,
           enabled := if e.Some? then e.value else a.enabled, apiKey := if k.Some? then k.value else a.apiKey)
    }
  }

  function Find(accounts: seq<Account>, id: string): Option<Account> {
    if accounts == [] then None else if accounts[0].id == id then Some(accounts[0]) else Find(accounts[1..], id)
  }

  function Upserted(accounts: seq<Account>, a: Account): seq<Account> {
    if accounts == [] then [a]
    else if accounts[0].id == a.id then [a] + accounts[1..]
    else [accounts[0]] + Upserted(accounts[1..], a)
  }

  function Updated(accounts: seq<Account>, id: string, c: Change): seq<Account> {
    if accounts == [] then []
    else if accounts[0].id == id then [c.On(accounts[0])] + accounts[1..]
    else [accounts[0]] + Updated(accounts[1..], id, c)
  }

  function Removed(accounts: seq<Account>, id: string): seq<Account> {
    if accounts == [] then []
    else if accounts[0].id == id then accounts[1..]
    else [accounts[0]] + Removed(accounts[1..], id)
  }

  // ----- a pool with unique ids is a map, and each operation is a map operation -----

  function AsMap(accounts: seq<Account>): map<string, Account> {
    if accounts == [] then map[] else AsMap(accounts[1..])[accounts[0].id := accounts[0]]
  }

  ghost predicate MapsExactly(accounts: seq<Account>, m: map<string, Account>) {
    && UniqueIds(accounts)
    && (forall a :: a in accounts ==> a.id in m && m[a.id] == a)
    && (forall id :: id in m ==> m[id] in accounts && m[id].id == id)
  }

  lemma UniqueTail(a: Account, rest: seq<Account>)
    ensures UniqueIds([a] + rest) <==> UniqueIds(rest) && forall b :: b in rest ==> b.id != a.id
  {
    var s := [a] + rest;
    assert forall i :: 0 <= i < |rest| ==> s[i + 1] == rest[i];
    if UniqueIds(s) {
      forall b | b in rest ensures b.id != a.id {
        var i :| 0 <= i < |rest| && rest[i] == b;
        assert s[0].id != s[i + 1].id;
      }
      forall i, j | 0 <= i < j < |rest| ensures rest[i].id != rest[j].id {
        assert s[i + 1].id != s[j + 1].id;
      }
    }
    if UniqueIds(rest) && forall b :: b in rest ==> b.id != a.id {
      forall i, j | 0 <= i < j < |s| ensures s[i].id != s[j].id {
        assert s[j] == rest[j - 1];
        if i > 0 { assert s[i] == rest[i - 1]; }
      }
    }
  }

  lemma MapTail(accounts: seq<Account>, m: map<string, Account>)
    requires MapsExactly(accounts, m) && accounts != []
    ensures MapsExactly(accounts[1..], m - {accounts[0].id})
  {
    assert accounts == [accounts[0]] + accounts[1..];
    UniqueTail(accounts[0], accounts[1..]);
  }

  lemma MapCons(a: Account, rest: seq<Account>, m: map<string, Account>)
    requires MapsExactly(rest, m) && a.id !in m
    ensures MapsExactly([a] + rest, m[a.id := a])
  {
    UniqueTail(a, rest);
  }

  lemma {:induction false} FindIsLookup(accounts: seq<Account>, m: map<string, Account>, id: string)
    requires MapsExactly(accounts, m)
    ensures Find(accounts, id) == if id in m then Some(m[id]) else None
  {
    if accounts != [] {
      MapTail(accounts, m);
      assert accounts[0] in accounts;
      FindIsLookup(accounts[1..], m - {accounts[0].id}, id);
    }
  }

  lemma PutBack<V>(m: map<string, V>, k: string, v: V)
    requires k in m && m[k] == v
    ensures (m - {k})[k := v] == m
  {}

  lemma PutBackUpdated<V>(m: map<string, V>, k: string, v: V, id: string, w: V)
    requires k in m && m[k] == v && id != k
    ensures (m - {k})[id := w][k := v] == m[id := w]
  {}

  lemma PutBackRemoved<V>(m: map<string, V>, k: string, v: V, id: string)
    requires k in m && m[k] == v && id != k
    ensures (m - {k} - {id})[k := v] == m - {id}
  {}

  lemma Replaced<V>(m: map<string, V>, k: string, w: V)
    requires k in m
    ensures (m - {k})[k := w] == m[k := w]
  {}

  lemma {:induction false} UpsertIsMapUpdate(accounts: seq<Account>, m: map<string, Account>, a: Account)
    requires MapsExactly(accounts, m)
    ensures MapsExactly(Upserted(accounts, a), m[a.id := a])
  {
    if accounts == [] {
      assert m == map[];
      MapCons(a, [], m);
      assert [a] + [] == [a];
    } else {
      var h, rest := accounts[0], accounts[1..];
      MapTail(accounts, m);
      HeadMapped(accounts, m);
      hide MapsExactly;
      if h.id == a.id {
        MapCons(a, rest, m - {h.id});
        Replaced(m, h.id, a);
      } else {
        UpsertIsMapUpdate(rest, m - {h.id}, a);
        MapCons(h, Upserted(rest, a), (m - {h.id})[a.id := a]);
        PutBackUpdated(m, h.id, h, a.id, a);
      }
    }
  }

  function MapUpdated(m: map<string, Account>, id: string, c: Change): map<string, Account> {
    if id in m then m[id := c.On(m[id])] else m
  }

  lemma ChangeKeepsId(c: Change, a: Account)
    ensures c.On(a).id == a.id
  {}

  predicate Kept<T(==)>(edit: Option<T>, was: T, now: T) { now == if edit.Some? then edit.value else was }

  /** What the change says, field by field: a renewal brings three tokens' worth and nothing else, an edit each setting it
      names and nothing else. */
  predicate Becomes(c: Change, was: Account, now: Account) {
    && now.id == was.id && now.lane == was.lane && now.kind == was.kind && now.workspace == was.workspace && now.authStyle == was.authStyle
    && match c
       case Renewal(access, refresh, expires) =>
         && now.accessToken == access && now.refreshToken == refresh && now.expiresAt == expires
         && now.display == was.display && now.priority == was.priority && now.enabled == was.enabled && now.apiKey == was.apiKey
       case Settings(display, priority, enabled, apiKey) =>
         && now.accessToken == was.accessToken && now.refreshToken == was.refreshToken && now.expiresAt == was.expiresAt
         && Kept(display, was.display, now.display) && Kept(priority, was.priority, now.priority)
         && Kept(enabled, was.enabled, now.enabled) && Kept(apiKey, was.apiKey, now.apiKey)
  }

  lemma ChangeSays(c: Change, a: Account)
    ensures Becomes(c, a, c.On(a))
  {}

  /** An update changes one entry of the map, and that as the change says. */
  lemma {:induction false} UpdateIsMapUpdate(accounts: seq<Account>, m: map<string, Account>, id: string, c: Change)
    requires MapsExactly(accounts, m)
    ensures MapsExactly(Updated(accounts, id, c), MapUpdated(m, id, c))
    ensures var m' := MapUpdated(m, id, c); m'.Keys == m.Keys && m' - {id} == m - {id} && (id in m ==> Becomes(c, m[id], m'[id]))
  {
    UpdateMaps(accounts, m, id, c);
    hide Change.On, Becomes, MapsExactly;
    if id in m { ChangeSays(c, m[id]); }
  }

  lemma {:induction false} UpdateMaps(accounts: seq<Account>, m: map<string, Account>, id: string, c: Change)
    requires MapsExactly(accounts, m)
    ensures MapsExactly(Updated(accounts, id, c), MapUpdated(m, id, c))
  {
    hide Change.On;
    if accounts != [] {
      var h, rest := accounts[0], accounts[1..];
      MapTail(accounts, m);
      HeadMapped(accounts, m);
      hide MapsExactly;
      var m' := m - {h.id};
      if h.id == id {
        ChangeKeepsId(c, h);
        MapCons(c.On(h), rest, m');
        Replaced(m, id, c.On(h));
      } else {
        UpdateMaps(rest, m', id, c);
        MapCons(h, Updated(rest, id, c), MapUpdated(m', id, c));
        if id in m { PutBackUpdated(m, h.id, h, id, c.On(m[id])); } else { PutBack(m, h.id, h); }
      }
    }
  }

  lemma HeadMapped(accounts: seq<Account>, m: map<string, Account>)
    requires MapsExactly(accounts, m) && accounts != []
    ensures accounts[0].id in m && m[accounts[0].id] == accounts[0]
  {
    assert accounts[0] in accounts;
  }

  lemma {:induction false} RemoveIsMapRemoval(accounts: seq<Account>, m: map<string, Account>, id: string)
    requires MapsExactly(accounts, m)
    ensures MapsExactly(Removed(accounts, id), m - {id})
  {
    if accounts == [] {
      assert m - {id} == m;
    } else {
      var h, rest := accounts[0], accounts[1..];
      MapTail(accounts, m);
      HeadMapped(accounts, m);
      hide MapsExactly;
      if h.id != id {
        RemoveIsMapRemoval(rest, m - {h.id}, id);
        MapCons(h, Removed(rest, id), m - {h.id} - {id});
        PutBackRemoved(m, h.id, h, id);
      }
    }
  }

  lemma {:induction false} UniqueMapsExactly(accounts: seq<Account>)
    requires UniqueIds(accounts)
    ensures MapsExactly(accounts, AsMap(accounts))
  {
    if accounts != [] {
      var h, rest := accounts[0], accounts[1..];
      assert accounts == [h] + rest;
      UniqueTail(h, rest);
      UniqueMapsExactly(rest);
      MapCons(h, rest, AsMap(rest));
    }
  }

  // ----- what may be in the file -----

  datatype PoolFault = NoId(at: nat) | DuplicateId(id: string) | UnknownLane(id: string)

  predicate ValidLane(lane: string) { lane in {"anthropic", "openai"} }

  /** Every account can be addressed, and by its id alone. */
  ghost predicate Addressable(accounts: seq<Account>) {
    UniqueIds(accounts) && forall a :: a in accounts ==> a.id != "" && ValidLane(a.lane)
  }

  /** `accounts.json` as it reads. */
  datatype Disk = Absent | Unreadable | Garbled | Holds(accounts: seq<Account>)

  predicate SameCredential(a: Account, b: Account) {
    a.lane == b.lane && a.kind == b.kind &&
    match a.kind
    case ApiKey => a.apiKey != "" && a.apiKey == b.apiKey
    case _ =>
      if a.workspace != "" || b.workspace != "" then a.workspace == b.workspace
      else (a.refreshToken != "" && a.refreshToken == b.refreshToken) || (a.accessToken != "" && a.accessToken == b.accessToken)
  }

  /** `a` is new to the pool, or signs in differently than it did. */
  predicate Differs(was: seq<Account>, a: Account) {
    var held := Find(was, a.id);
    held.None? || !SameCredential(held.value, a)
  }

  function Differing(was: seq<Account>, accounts: seq<Account>): seq<string> {
    if accounts == [] then []
    else (if Differs(was, accounts[0]) then [accounts[0].id] else []) + Differing(was, accounts[1..])
  }

  datatype StoreError = IdRequired | LaneUnknown | NotFound | WriteFailed | ReadFailed | ParseFailed | Rejected(fault: PoolFault)

  method ValidateAccounts(accounts: seq<Account>) returns (fault: Option<PoolFault>)
    ensures fault.None? <==> Addressable(accounts)
    ensures match fault
      case None => true
      case Some(NoId(at)) => 1 <= at <= |accounts| && accounts[at - 1].id == "" && Addressable(accounts[..at - 1])
      case Some(DuplicateId(id)) =>
        exists i, j :: 0 <= i < j < |accounts| && accounts[i].id == accounts[j].id == id && Addressable(accounts[..j])
      case Some(UnknownLane(id)) =>
        exists j :: 0 <= j < |accounts| && accounts[j].id == id && !ValidLane(accounts[j].lane) && Addressable(accounts[..j])
  {
    var seen: set<string> := {};
    for i := 0 to |accounts|
      invariant Addressable(accounts[..i])
      invariant forall id :: id in seen <==> exists k :: 0 <= k < i && accounts[k].id == id
    {
      var a := accounts[i];
      if a.id == "" { return Some(NoId(i + 1)); }
      if a.id in seen { return Some(DuplicateId(a.id)); }
      if !ValidLane(a.lane) { return Some(UnknownLane(a.id)); }
      seen := seen + {a.id};
      NextAddressable(accounts, i);
    }
    assert accounts[..|accounts|] == accounts;
    fault := None;
  }

  lemma NextAddressable(accounts: seq<Account>, i: nat)
    requires i < |accounts| && Addressable(accounts[..i]) && accounts[i].id != "" && ValidLane(accounts[i].lane)
    requires forall k :: 0 <= k < i ==> accounts[k].id != accounts[i].id
    ensures Addressable(accounts[..i + 1])
  {
    assert accounts[..i + 1] == accounts[..i] + [accounts[i]];
  }

  // ----- the store -----

  class Pool {
    var accounts: seq<Account>
    var health: HealthMap
    var disk: Disk

    ghost predicate Valid()
      reads this
    {
      Addressable(accounts)
    }

    /** A store that has loaded nothing yet. */
    constructor (disk: Disk)
      ensures accounts == [] && health == map[] && this.disk == disk && Valid()
    {
      accounts, health, this.disk := [], map[], disk;
    }

    method IndexOf(id: string) returns (at: int)
      ensures at < 0 ==> Find(accounts, id).None?
      ensures at >= 0 ==> at < |accounts| && accounts[at].id == id && Find(accounts, id) == Some(accounts[at])
      ensures at >= 0 ==> forall k :: 0 <= k < at ==> accounts[k].id != id
    {
      assert accounts[0..] == accounts;
      for i := 0 to |accounts|
        invariant Find(accounts, id) == Find(accounts[i..], id)
        invariant forall k :: 0 <= k < i ==> accounts[k].id != id
      {
        assert accounts[i..][0] == accounts[i] && accounts[i..][1..] == accounts[i + 1..];
        if accounts[i].id == id { return i; }
      }
      at := -1;
    }

    method Get(id: string) returns (found: Option<Account>)
      ensures found == Find(accounts, id)
    {
      var at := IndexOf(id);
      found := if at < 0 then None else Some(accounts[at]);
    }

    /** Writes the pool whole, unless the write fails. */
    method Persist(written: bool) returns (error: Option<StoreError>)
      modifies this`disk
      ensures disk == if written then Holds(accounts) else old(disk)
      ensures error == if written then None else Some(WriteFailed)
    {
      if !written { return Some(WriteFailed); }
      disk := Holds(accounts);
      error := None;
    }

    method Upsert(a: Account, written: bool) returns (error: Option<StoreError>)
      modifies this`accounts, this`disk
      ensures a.id == "" ==> error == Some(IdRequired)
      ensures a.id != "" && !ValidLane(a.lane) ==> error == Some(LaneUnknown)
      ensures a.id == "" || !ValidLane(a.lane) ==> unchanged(this)
      ensures a.id != "" && ValidLane(a.lane) ==>
        && accounts == Upserted(old(accounts), a)
        && disk == (if written then Holds(accounts) else old(disk))
        && error == (if written then None else Some(WriteFailed))
      ensures old(Valid()) ==> Valid()
    {
      if a.id == "" { return Some(IdRequired); }
      if !ValidLane(a.lane) { return Some(LaneUnknown); }
      var at := IndexOf(a.id);
      UpsertAt(accounts, a, at);
      ghost var before := accounts;
      if at >= 0 { accounts := accounts[at := a]; } else { accounts := accounts + [a]; }
      if Addressable(before) { UpsertKeeps(before, a); }
      error := Persist(written);
    }

    method UpdateAccount(id: string, c: Change, written: bool) returns (error: Option<StoreError>)
      modifies this`accounts, this`disk
      ensures Find(old(accounts), id).None? ==> error == Some(NotFound) && unchanged(this)
      ensures Find(old(accounts), id).Some? ==>
        && accounts == Updated(old(accounts), id, c)
        && Find(accounts, id).Some? && Becomes(c, Find(old(accounts), id).value, Find(accounts, id).value)
        && disk == (if written then Holds(accounts) else old(disk))
        && error == (if written then None else Some(WriteFailed))
      ensures old(Valid()) ==> Valid()
    {
      var at := IndexOf(id);
      if at < 0 { return Some(NotFound); }
      UpdateAt(accounts, id, c, at);
      FindUpdated(accounts, id, c);
      ghost var before := accounts;
      accounts := accounts[at := c.On(accounts[at])];
      if Addressable(before) { UpdateKeeps(before, id, c); }
      error := Persist(written);
    }

    method Remove(id: string, written: bool) returns (error: Option<StoreError>)
      modifies this
      ensures Find(old(accounts), id).None? ==> error == Some(NotFound) && unchanged(this)
      ensures Find(old(accounts), id).Some? ==>
        && accounts == Removed(old(accounts), id) && health == old(health) - {id}
        && disk == (if written then Holds(accounts) else old(disk))
        && error == (if written then None else Some(WriteFailed))
      ensures old(Valid()) ==> Valid()
    {
      var at := IndexOf(id);
      if at < 0 { return Some(NotFound); }
      RemoveAt(accounts, id, at);
      ghost var before := accounts;
      accounts := accounts[..at] + accounts[at + 1..];
      if Addressable(before) { RemoveKeeps(before, id); }
      health := health - {id};
      error := Persist(written);
    }

    method Compare(found: seq<Account>) returns (changed: seq<string>)
      ensures changed == Differing(accounts, found)
    {
      changed := [];
      assert found[0..] == found && [] + Differing(accounts, found) == Differing(accounts, found);
      for i := 0 to |found|
        invariant changed + Differing(accounts, found[i..]) == Differing(accounts, found)
      {
        hide Differing, SameCredential;
        DifferingNext(accounts, found, i, changed);
        var was := Get(found[i].id);
        if was.None? || !SameCredential(was.value, found[i]) { changed := changed + [found[i].id]; }
        assert changed + [] == changed;
      }
      assert found[|found|..] == [] && changed + [] == changed;
    }

    /** Adopts the pool on disk if it can be addressed, and names the accounts that sign in
        differently. */
    method Reload() returns (changed: seq<string>, error: Option<StoreError>)
      modifies this`accounts
      ensures error.None? <==> disk.Absent? || (disk.Holds? && Addressable(disk.accounts))
      ensures error.None? ==>
        && accounts == (if disk.Absent? then [] else disk.accounts)
        && changed == Differing(old(accounts), accounts) && Valid()
      ensures error.Some? ==> unchanged(this) && changed == []
    {
      changed := [];
      hide UniqueIds, Differing;
      var found: seq<Account> := [];
      match disk {
        case Absent =>
        case Unreadable => return [], Some(ReadFailed);
        case Garbled => return [], Some(ParseFailed);
        case Holds(read) => found := read;
      }
      var fault := ValidateAccounts(found);
      if fault.Some? { return [], Some(Rejected(fault.value)); }
      changed := Compare(found);
      accounts := found;
      error := None;
    }
  }

  lemma {:induction false} DifferingNext(was: seq<Account>, accounts: seq<Account>, i: nat, changed: seq<string>)
    requires i < |accounts|
    ensures changed + Differing(was, accounts[i..])
      == (changed + (if Differs(was, accounts[i]) then [accounts[i].id] else [])) + Differing(was, accounts[i + 1..])
  {
    hide Differs;
    assert accounts[i..][0] == accounts[i] && accounts[i..][1..] == accounts[i + 1..];
  }

  lemma {:induction false} UpsertAt(accounts: seq<Account>, a: Account, at: int)
    requires at < |accounts| && (at >= 0 ==> accounts[at].id == a.id)
    requires at >= 0 ==> forall k :: 0 <= k < at ==> accounts[k].id != a.id
    requires at < 0 ==> Find(accounts, a.id).None?
    ensures Upserted(accounts, a) == if at >= 0 then accounts[at := a] else accounts + [a]
    decreases |accounts|
  {
    if at != 0 && accounts != [] {
      UpsertAt(accounts[1..], a, at - 1);
      assert accounts == [accounts[0]] + accounts[1..];
    }
  }

  lemma {:induction false} UpdateAt(accounts: seq<Account>, id: string, c: Change, at: nat)
    requires at < |accounts| && accounts[at].id == id && forall k :: 0 <= k < at ==> accounts[k].id != id
    ensures Updated(accounts, id, c) == accounts[at := c.On(accounts[at])]
  {
    if at > 0 {
      UpdateAt(accounts[1..], id, c, at - 1);
    }
  }

  lemma {:induction false} FindUpdated(accounts: seq<Account>, id: string, c: Change)
    requires Find(accounts, id).Some?
    ensures Find(Updated(accounts, id, c), id).Some? && Becomes(c, Find(accounts, id).value, Find(Updated(accounts, id, c), id).value)
  {
    hide Becomes;
    if accounts[0].id == id { ChangeSays(c, accounts[0]); ChangeKeepsId(c, accounts[0]); } else { FindUpdated(accounts[1..], id, c); }
  }

  lemma {:induction false} RemoveAt(accounts: seq<Account>, id: string, at: nat)
    requires at < |accounts| && accounts[at].id == id && forall k :: 0 <= k < at ==> accounts[k].id != id
    ensures Removed(accounts, id) == accounts[..at] + accounts[at + 1..]
  {
    if at > 0 {
      RemoveAt(accounts[1..], id, at - 1);
    }
  }

  lemma {:induction false} UpsertKeeps(accounts: seq<Account>, a: Account)
    requires Addressable(accounts) && a.id != "" && ValidLane(a.lane)
    ensures Addressable(Upserted(accounts, a))
  {
    UniqueMapsExactly(accounts);
    UpsertIsMapUpdate(accounts, AsMap(accounts), a);
  }

  lemma {:induction false} UpdateKeeps(accounts: seq<Account>, id: string, c: Change)
    requires Addressable(accounts)
    ensures Addressable(Updated(accounts, id, c))
  {
    UniqueMapsExactly(accounts);
    UpdateMaps(accounts, AsMap(accounts), id, c);
  }

  lemma {:induction false} RemoveKeeps(accounts: seq<Account>, id: string)
    requires Addressable(accounts)
    ensures Addressable(Removed(accounts, id))
  {
    UniqueMapsExactly(accounts);
    RemoveIsMapRemoval(accounts, AsMap(accounts), id);
  }

  /** The accounts a reload reports are exactly those whose next request signs in with
      something the pool did not hold. */
  lemma {:induction false} DifferingExactly(before: seq<Account>, accounts: seq<Account>, id: string)
    ensures id in Differing(before, accounts) <==> exists a :: a in accounts && a.id == id && Differs(before, a)
  {
    hide Differs;
    if accounts != [] { DifferingExactly(before, accounts[1..], id); }
  }
}
