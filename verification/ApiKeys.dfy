/** The API key service: fixed-window rate limiting per key, and rotation and revocation of keys. */
module ApiKeys {
  import opened Common

  type Hash = string

  datatype Limit = Limit(windowMs: nat, max: nat)
  datatype Usage = Usage(count: nat, windowStart: int)

  // ----- the fixed-window limiter

  /** One call at `now`: a new window when the old one is older than the window length. */
  function Bump(u: Option<Usage>, now: int, limit: Limit): Usage {
    if u.None? || now - u.value.windowStart > limit.windowMs then Usage(1, now)
    else Usage(u.value.count + 1, u.value.windowStart)
  }

  predicate NonDecreasing(times: seq<int>) {
    forall i, j :: 0 <= i < j < |times| ==> times[i] <= times[j]
  }

  /** The usage record after calls at `times`. */
  function UsageAfter(times: seq<int>, limit: Limit): Option<Usage> {
    if times == [] then None
    else Some(Bump(UsageAfter(times[..|times| - 1], limit), times[|times| - 1], limit))
  }

  /** The last call of `times` is let through. */
  predicate LastAdmitted(times: seq<int>, limit: Limit)
    requires times != []
  {
    UsageAfter(times, limit).value.count <= limit.max
  }

  /** How many admitted calls fall into the window that starts at `start`. */
  function AdmittedInWindow(times: seq<int>, limit: Limit, start: int): nat {
    if times == [] then 0 else
      AdmittedInWindow(times[..|times| - 1], limit, start)
      + (if LastAdmitted(times, limit) && UsageAfter(times, limit).value.windowStart == start then 1 else 0)
  }

  /** Admitted calls with lo <= time <= hi whose window starts before `lo` (early) or not (late). */
  function AdmittedBetween(times: seq<int>, limit: Limit, lo: int, hi: int, early: bool): nat {
    if times == [] then 0 else
      AdmittedBetween(times[..|times| - 1], limit, lo, hi, early)
      + (if LastAdmitted(times, limit) && lo <= times[|times| - 1] <= hi
            && (UsageAfter(times, limit).value.windowStart < lo <==> early) then 1 else 0)
  }

  function AdmittedTotal(times: seq<int>, limit: Limit, lo: int, hi: int): nat {
    if times == [] then 0 else
      AdmittedTotal(times[..|times| - 1], limit, lo, hi)
      + (if LastAdmitted(times, limit) && lo <= times[|times| - 1] <= hi then 1 else 0)
  }

  /** Each window admits at most `max` calls. */
  lemma {:induction false} WindowBound(times: seq<int>, limit: Limit, start: int)
    requires NonDecreasing(times)
    ensures AdmittedInWindow(times, limit, start) <= limit.max
    ensures times != [] && UsageAfter(times, limit).value.windowStart == start ==>
      AdmittedInWindow(times, limit, start) <= UsageAfter(times, limit).value.count
    ensures times != [] ==> UsageAfter(times, limit).value.windowStart <= times[|times| - 1]
    ensures times != [] && start > UsageAfter(times, limit).value.windowStart ==>
      AdmittedInWindow(times, limit, start) == 0
  {
    if times != [] {
      WindowBound(times[..|times| - 1], limit, start);
    }
  }

  /** What the counts look like after each call, by where the current window starts. */
  lemma {:induction false} BetweenInvariant(times: seq<int>, limit: Limit, lo: int, hi: int)
    requires NonDecreasing(times) && lo <= hi <= lo + limit.windowMs
    ensures times != [] && times[|times| - 1] < lo ==>
      AdmittedBetween(times, limit, lo, hi, true) == AdmittedBetween(times, limit, lo, hi, false) == 0
    ensures times != [] ==>
      var u := UsageAfter(times, limit).value;
      var early, late := AdmittedBetween(times, limit, lo, hi, true), AdmittedBetween(times, limit, lo, hi, false);
      && u.windowStart <= times[|times| - 1]
      && early <= limit.max && late <= limit.max
      && (u.windowStart < lo ==> late == 0 && early <= u.count)
      && (lo <= u.windowStart <= hi ==> late <= u.count)
  {
    if |times| > 1 {
      BetweenInvariant(times[..|times| - 1], limit, lo, hi);
    } else if |times| == 1 {
      assert times[..0] == [];
    }
  }

  lemma {:induction false} TotalIsBoth(times: seq<int>, limit: Limit, lo: int, hi: int)
    ensures AdmittedTotal(times, limit, lo, hi)
         == AdmittedBetween(times, limit, lo, hi, true) + AdmittedBetween(times, limit, lo, hi, false)
  {
    if times != [] {
      TotalIsBoth(times[..|times| - 1], limit, lo, hi);
    }
  }

  /** Every interval no longer than the window length contains at most twice `max` admitted calls. */
  lemma IntervalBound(times: seq<int>, limit: Limit, lo: int, hi: int)
    requires NonDecreasing(times) && lo <= hi <= lo + limit.windowMs
    ensures AdmittedTotal(times, limit, lo, hi) <= 2 * limit.max
  {
    TotalIsBoth(times, limit, lo, hi);
    BetweenInvariant(times, limit, lo, hi);
  }

  // ----- which calls are admitted

  /** The first call of the window that the last call falls into: a window lasts until a call comes more than its
      length after its first. */
  function WindowFirst(times: seq<int>, limit: Limit): (k: nat)
    requires times != []
    ensures k < |times|
  {
    var n := |times| - 1;
    if n == 0 then 0 else
      var k := WindowFirst(times[..n], limit);
      if times[n] - times[k] > limit.windowMs then n else k
  }

  /** The record counts the calls of the current window, admitted or not. */
  lemma {:induction false} UsageCountsWindow(times: seq<int>, limit: Limit)
    requires times != []
    ensures var k := WindowFirst(times, limit);
      UsageAfter(times, limit) == Some(Usage(|times| - k, times[k]))
  {
    var n := |times| - 1;
    if n > 0 {
      UsageCountsWindow(times[..n], limit);
    } else {
      assert times[..0] == [];
    }
  }

  /** A call is admitted exactly when it is among the first `max` of its window. */
  lemma AdmittedIff(times: seq<int>, limit: Limit)
    requires times != []
    ensures LastAdmitted(times, limit) <==> |times| - WindowFirst(times, limit) <= limit.max
  {
    UsageCountsWindow(times, limit);
  }

  // ----- keys

  datatype Meta = Meta(
    id: string,
    hash: Hash,
    limit: Limit,
    revoked: bool,
    lastUsed: Option<int>,
    rotatedFrom: Option<string>)

  /** The key map in insertion order. */
  type Store = seq<Meta>

  function Find(store: Store, hash: Hash): (r: Option<nat>)
    ensures r.Some? ==> r.value < |store| && store[r.value].hash == hash
    ensures r.None? ==> forall i :: 0 <= i < |store| ==> store[i].hash != hash
  {
    if store == [] then None else
      var n := |store| - 1;
      var found := Find(store[..n], hash);
      if found.Some? then found else if store[n].hash == hash then Some(n) else None
  }

  function FindId(store: Store, id: string): (r: Option<nat>)
    ensures r.Some? ==> r.value < |store| && store[r.value].id == id
    ensures r.Some? ==> forall i :: 0 <= i < r.value ==> store[i].id != id
    ensures r.None? ==> forall i :: 0 <= i < |store| ==> store[i].id != id
  {
    if store == [] then None else
      var n := |store| - 1;
      var found := FindId(store[..n], id);
      if found.Some? then found else if store[n].id == id then Some(n) else None
  }

  function Revoke(store: Store, i: nat): Store
    requires i < |store|
  {
    store[i := store[i].(revoked := true)]
  }

  datatype KeyEvent =
    | Create(hash: Hash, id: string, limit: Limit)
    | Rotate(oldHash: Hash, hash: Hash, id: string)
    | RevokeId(id: string)
    | Use(hash: Hash, now: int)

  /** The new key's hash and identifier have not been drawn before. */
  predicate Fresh(store: Store, e: KeyEvent) {
    e.Create? || e.Rotate? ==> forall i :: 0 <= i < |store| ==> store[i].hash != e.hash && store[i].id != e.id
  }

  predicate Usable(store: Store, hash: Hash) {
    var i := Find(store, hash);
    i.Some? && !store[i.value].revoked
  }

  function After(store: Store, e: KeyEvent): Store {
    match e
    case Create(hash, id, limit) => store + [Meta(id, hash, limit, false, None, None)]
    case Rotate(oldHash, hash, id) =>
      if !Usable(store, oldHash) then store else
        var i := Find(store, oldHash).value;
        Revoke(store, i) + [Meta(id, hash, store[i].limit, false, None, Some(store[i].id))]
    case RevokeId(id) =>
      var i := FindId(store, id);
      if i.Some? then Revoke(store, i.value) else store
    case Use(hash, now) =>
      if !Usable(store, hash) then store else
        var i := Find(store, hash).value;
        store[i := store[i].(lastUsed := Some(now))]
  }

  function RunTo(events: seq<KeyEvent>): Store {
    if events == [] then [] else After(RunTo(events[..|events| - 1]), events[|events| - 1])
  }

  predicate FreshRun(events: seq<KeyEvent>) {
    events == [] || (FreshRun(events[..|events| - 1]) && Fresh(RunTo(events[..|events| - 1]), events[|events| - 1]))
  }

  /** The predecessor of a rotated key is an earlier, revoked entry. */
  predicate Descends(store: Store, i: nat)
    requires i < |store|
  {
    store[i].rotatedFrom.Some? ==>
      var p := FindId(store[..i], store[i].rotatedFrom.value);
      p.Some? && store[p.value].revoked
  }

  /** Distinct keys, and rotation chains that never fork. */
  ghost predicate Linear(store: Store) {
    && (forall i, j :: 0 <= i < j < |store| ==> store[i].hash != store[j].hash && store[i].id != store[j].id)
    && (forall i, j :: 0 <= i < j < |store| && store[i].rotatedFrom.Some? ==>
          store[i].rotatedFrom != store[j].rotatedFrom)
    && (forall i :: 0 <= i < |store| ==> Descends(store, i))
  }

  /** Revoking or using a key keeps identities and origins, and never un-revokes one. */
  ghost predicate SameKeys(store: Store, store': Store) {
    |store'| == |store| && forall i :: 0 <= i < |store| ==>
      && store'[i].id == store[i].id && store'[i].hash == store[i].hash && store'[i].rotatedFrom == store[i].rotatedFrom
      && (store[i].revoked ==> store'[i].revoked)
  }

  lemma {:induction false} FindIdSame(store: Store, store': Store, id: string)
    requires SameKeys(store, store')
    ensures FindId(store', id) == FindId(store, id)
  {
    if store != [] {
      FindIdSame(store[..|store| - 1], store'[..|store| - 1], id);
    }
  }

  lemma SameKeysLinear(store: Store, store': Store)
    requires Linear(store) && SameKeys(store, store')
    ensures Linear(store')
  {
    forall i | 0 <= i < |store'|
      ensures Descends(store', i)
    {
      if store'[i].rotatedFrom.Some? {
        assert Descends(store, i);
        FindIdSame(store[..i], store'[..i], store[i].rotatedFrom.value);
      }
    }
  }

  lemma FindIdIs(store: Store, i: nat)
    requires i < |store| && forall j, k :: 0 <= j < k < |store| ==> store[j].id != store[k].id
    ensures FindId(store, store[i].id) == Some(i)
  {
    var r := FindId(store, store[i].id);
    assert r.Some? && store[r.value].id == store[i].id;
  }

  /** Appending a fresh key that starts a chain, or continues a revoked key's chain for the first time. */
  lemma AppendLinear(store: Store, m: Meta)
    requires Linear(store)
    requires forall i :: 0 <= i < |store| ==> store[i].hash != m.hash && store[i].id != m.id
    requires m.rotatedFrom.Some? ==>
      && (exists i :: 0 <= i < |store| && store[i].id == m.rotatedFrom.value && store[i].revoked)
      && (forall i :: 0 <= i < |store| ==> store[i].rotatedFrom != m.rotatedFrom)
    ensures Linear(store + [m])
  {
    var all := store + [m];
    forall i | 0 <= i < |all|
      ensures Descends(all, i)
    {
      assert all[..i] == store[..i];
      if i < |store| {
        assert Descends(store, i);
      } else if m.rotatedFrom.Some? {
        assert store[..i] == store;
        var k :| 0 <= k < |store| && store[k].id == m.rotatedFrom.value && store[k].revoked;
        FindIdIs(store, k);
      }
    }
  }

  /** A key that can still validate has not been rotated. */
  lemma NoSuccessor(store: Store, i: nat)
    requires Linear(store) && i < |store| && !store[i].revoked
    ensures forall j :: 0 <= j < |store| ==> store[j].rotatedFrom != Some(store[i].id)
  {
    forall j | 0 <= j < |store|
      ensures store[j].rotatedFrom != Some(store[i].id)
    {
      assert Descends(store, j);
    }
  }

  lemma LinearStep(store: Store, e: KeyEvent)
    requires Linear(store) && Fresh(store, e)
    ensures Linear(After(store, e))
  {
    match e
    case Create(hash, id, limit) => AppendLinear(store, Meta(id, hash, limit, false, None, None));
    case Rotate(oldHash, hash, id) =>
      if Usable(store, oldHash) {
        var i := Find(store, oldHash).value;
        var revoked := Revoke(store, i);
        SameKeysLinear(store, revoked);
        NoSuccessor(store, i);
        assert revoked[i].id == store[i].id && revoked[i].revoked;
        AppendLinear(revoked, Meta(id, hash, store[i].limit, false, None, Some(store[i].id)));
      }
    case RevokeId(id) => SameKeysLinear(store, After(store, e));
    case Use(hash, now) => SameKeysLinear(store, After(store, e));
  }

  lemma {:induction false} AlwaysLinear(events: seq<KeyEvent>)
    requires FreshRun(events)
    ensures Linear(RunTo(events))
  {
    if events != [] {
      AlwaysLinear(events[..|events| - 1]);
      LinearStep(RunTo(events[..|events| - 1]), events[|events| - 1]);
    }
  }

  // ----- which keys validate

  lemma FindAppended(store: Store, m: Meta, hash: Hash)
    ensures Find(store + [m], hash) ==
      if Find(store, hash).Some? then Find(store, hash) else if m.hash == hash then Some(|store|) else None
  {
    assert (store + [m])[..|store|] == store;
  }

  lemma {:induction false} FindKept(store: Store, i: nat, m: Meta, hash: Hash)
    requires i < |store| && m.hash == store[i].hash
    ensures Find(store[i := m], hash) == Find(store, hash)
  {
    var n := |store| - 1;
    if i < n {
      FindKept(store[..n], i, m, hash);
      assert store[i := m][..n] == store[..n][i := m];
    } else {
      assert store[i := m][..n] == store[..n];
    }
  }

  lemma UsableAppended(store: Store, m: Meta, hash: Hash)
    requires forall i :: 0 <= i < |store| ==> store[i].hash != m.hash
    ensures Usable(store + [m], hash) <==> if hash == m.hash then !m.revoked else Usable(store, hash)
  {
    FindAppended(store, m, hash);
  }

  lemma UsableRevoked(store: Store, i: nat, hash: Hash)
    requires Linear(store) && i < |store|
    ensures Usable(Revoke(store, i), hash) <==> Usable(store, hash) && hash != store[i].hash
  {
    FindKept(store, i, store[i].(revoked := true), hash);
    var k := Find(store, hash);
    if k.Some? && k.value != i {
      assert store[k.value].hash != store[i].hash;
    }
  }

  lemma UsableRotated(store: Store, former: Hash, h: Hash, id: string, hash: Hash)
    requires Linear(store) && Fresh(store, Rotate(former, h, id)) && Usable(store, former)
    ensures Usable(After(store, Rotate(former, h, id)), hash) <==>
      hash == h || (hash != former && Usable(store, hash))
  {
    var i := Find(store, former).value;
    UsableRevoked(store, i, hash);
    UsableAppended(Revoke(store, i), Meta(id, h, store[i].limit, false, None, Some(store[i].id)), hash);
    assert forall k :: 0 <= k < |store| ==> store[k].hash != h;
  }

  /** Which keys validate after an event: a created key and the new key of a rotation do, the old key of a rotation
      and a revoked key no longer do, and nothing else changes. */
  lemma UsableAfterIff(store: Store, e: KeyEvent, hash: Hash)
    requires Linear(store) && Fresh(store, e)
    ensures Usable(After(store, e), hash) <==>
      match e
      case Create(h, _, _) => hash == h || Usable(store, hash)
      case Rotate(former, h, _) =>
        if Usable(store, former) then hash == h || (hash != former && Usable(store, hash)) else Usable(store, hash)
      case RevokeId(id) => Usable(store, hash) && store[Find(store, hash).value].id != id
      case Use(_, _) => Usable(store, hash)
  {
    match e
    case Create(h, id, limit) => UsableAppended(store, Meta(id, h, limit, false, None, None), hash);
    case Rotate(former, h, id) =>
      if Usable(store, former) {
        UsableRotated(store, former, h, id, hash);
      }
    case RevokeId(id) =>
      var i := FindId(store, id);
      if i.Some? {
        UsableRevoked(store, i.value, hash);
      }
    case Use(h, now) =>
      if Usable(store, h) {
        var i := Find(store, h).value;
        FindKept(store, i, store[i].(lastUsed := Some(now)), hash);
      }
  }

  /** A rotation passes the limit and the identity of the old key on to the new one; using a key stamps that key
      only. */
  lemma EventsRecord(store: Store, e: KeyEvent)
    ensures e.Rotate? && Usable(store, e.oldHash) ==>
      var i := Find(store, e.oldHash).value;
      && |After(store, e)| == |store| + 1 && After(store, e)[i].revoked
      && After(store, e)[|store|] == Meta(e.id, e.hash, store[i].limit, false, None, Some(store[i].id))
      && (forall k :: 0 <= k < |store| && k != i ==> After(store, e)[k] == store[k])
    ensures e.Use? && Usable(store, e.hash) ==>
      var i := Find(store, e.hash).value;
      && |After(store, e)| == |store| && After(store, e)[i] == store[i].(lastUsed := Some(e.now))
      && (forall k :: 0 <= k < |store| && k != i ==> After(store, e)[k] == store[k])
  {
  }

  /** A revoked key stays revoked whatever happens later. */
  lemma {:induction false} RevokedForever(events: seq<KeyEvent>, k: nat, i: nat)
    requires k <= |events| && i < |RunTo(events[..k])| && RunTo(events[..k])[i].revoked
    ensures i < |RunTo(events)| && RunTo(events)[i].revoked && RunTo(events)[i].hash == RunTo(events[..k])[i].hash
    decreases |events|
  {
    if k == |events| {
      assert events[..k] == events;
    } else {
      assert events[..|events| - 1][..k] == events[..k];
      RevokedForever(events[..|events| - 1], k, i);
    }
  }

  // ----- chains

  function Parent(store: Store, i: nat): (p: nat)
    requires i < |store| && store[i].rotatedFrom.Some? && Descends(store, i)
    ensures p < i && store[p].id == store[i].rotatedFrom.value
  {
    FindId(store[..i], store[i].rotatedFrom.value).value
  }

  /** The first key of the chain that key `i` belongs to. */
  ghost function Root(store: Store, i: nat): (r: nat)
    requires Linear(store) && i < |store|
    ensures r <= i
  {
    assert Descends(store, i);
    if store[i].rotatedFrom.None? then i else Root(store, Parent(store, i))
  }

  ghost function Depth(store: Store, i: nat): nat
    requires Linear(store) && i < |store|
  {
    assert Descends(store, i);
    if store[i].rotatedFrom.None? then 0 else 1 + Depth(store, Parent(store, i))
  }

  /** A chain has one key at each depth. */
  lemma {:induction false} OneKeyPerDepth(store: Store, i: nat, j: nat)
    requires Linear(store) && i < |store| && j < |store|
    requires Root(store, i) == Root(store, j) && Depth(store, i) == Depth(store, j)
    ensures i == j
    decreases i
  {
    assert Descends(store, i) && Descends(store, j);
    if store[i].rotatedFrom.Some? {
      OneKeyPerDepth(store, Parent(store, i), Parent(store, j));
      assert store[i].rotatedFrom == store[j].rotatedFrom;
    }
  }

  /** Every key but the deepest of its chain has been rotated. */
  lemma {:induction false} ShallowerIsRotated(store: Store, i: nat, j: nat)
    requires Linear(store) && i < |store| && j < |store|
    requires Root(store, i) == Root(store, j) && Depth(store, i) < Depth(store, j)
    ensures exists k :: 0 <= k < |store| && store[k].rotatedFrom == Some(store[i].id)
    decreases j
  {
    assert Descends(store, j);
    var p := Parent(store, j);
    if Depth(store, p) == Depth(store, i) {
      OneKeyPerDepth(store, i, p);
      assert store[j].rotatedFrom == Some(store[i].id);
    } else {
      ShallowerIsRotated(store, i, p);
    }
  }

  /** In every run with fresh keys, at most one key of a rotation chain can validate, and it is the newest. */
  lemma OnlyNewestValidates(events: seq<KeyEvent>, i: nat, j: nat)
    requires FreshRun(events) && i < |RunTo(events)| && j < |RunTo(events)|
    requires !RunTo(events)[i].revoked
    ensures Linear(RunTo(events))
    ensures Root(RunTo(events), i) == Root(RunTo(events), j) ==>
      && Depth(RunTo(events), j) <= Depth(RunTo(events), i)
      && (!RunTo(events)[j].revoked ==> i == j)
  {
    AlwaysLinear(events);
    var store := RunTo(events);
    if Root(store, i) == Root(store, j) {
      NoSuccessor(store, i);
      if Depth(store, i) < Depth(store, j) {
        ShallowerIsRotated(store, i, j);
      }
      if !store[j].revoked {
        NoSuccessor(store, j);
        if Depth(store, j) < Depth(store, i) {
          ShallowerIsRotated(store, j, i);
        }
        OneKeyPerDepth(store, i, j);
      }
    }
  }

  // ----- rate limits over whole runs of the service

  /** Both maps of the service. */
  datatype Books = Books(keys: Store, usage: map<Hash, Usage>)

  datatype ServiceCall = OnKeys(event: KeyEvent) | Check(hash: Hash, now: int)

  function UsageOf(b: Books, hash: Hash): Option<Usage> {
    if hash in b.usage then Some(b.usage[hash]) else None
  }

  function LimitOf(b: Books, hash: Hash): Option<Limit> {
    var i :- Find(b.keys, hash);
    Some(b.keys[i].limit)
  }

  /** The usage record a rate-limit check leaves; unknown keys leave none. */
  function Bumped(b: Books, hash: Hash, now: int): Option<Usage> {
    var limit :- LimitOf(b, hash);
    Some(Bump(UsageOf(b, hash), now, limit))
  }

  /** The verdict of a rate-limit check. */
  predicate Allows(b: Books, hash: Hash, now: int) {
    Bumped(b, hash, now).Some? && Bumped(b, hash, now).value.count <= LimitOf(b, hash).value.max
  }

  function Next(b: Books, c: ServiceCall): Books {
    match c
    case OnKeys(e) => b.(keys := After(b.keys, e))
    case Check(hash, now) =>
      var u := Bumped(b, hash, now);
      if u.Some? then b.(usage := b.usage[hash := u.value]) else b
  }

  function BooksAfter(calls: seq<ServiceCall>): Books {
    if calls == [] then Books([], map[]) else Next(BooksAfter(calls[..|calls| - 1]), calls[|calls| - 1])
  }

  /** Every key drawn during the run is fresh. */
  predicate FreshCalls(calls: seq<ServiceCall>) {
    calls == [] ||
    (var n := |calls| - 1;
     FreshCalls(calls[..n]) && (calls[n].OnKeys? ==> Fresh(BooksAfter(calls[..n]).keys, calls[n].event)))
  }

  lemma {:induction false} FreshPrefix(calls: seq<ServiceCall>, k: nat)
    requires FreshCalls(calls) && k <= |calls|
    ensures FreshCalls(calls[..k])
  {
    if k < |calls| {
      FreshPrefix(calls[..|calls| - 1], k);
      assert calls[..|calls| - 1][..k] == calls[..k];
    } else {
      assert calls[..k] == calls;
    }
  }

  predicate ClockForward(calls: seq<ServiceCall>) {
    forall i, j :: 0 <= i < j < |calls| && calls[i].Check? && calls[j].Check? ==> calls[i].now <= calls[j].now
  }

  predicate Counts(b: Books, c: ServiceCall, hash: Hash) {
    c.Check? && c.hash == hash && LimitOf(b, hash).Some?
  }

  /** The times of the checks of one known key, among checks of other keys and changes to any key. */
  function Times(calls: seq<ServiceCall>, hash: Hash): seq<int> {
    if calls == [] then [] else
      var n := |calls| - 1;
      Times(calls[..n], hash) + (if Counts(BooksAfter(calls[..n]), calls[n], hash) then [calls[n].now] else [])
  }

  /** How many checks of one key the run admits between `lo` and `hi`. */
  function AdmittedChecks(calls: seq<ServiceCall>, hash: Hash, lo: int, hi: int): nat {
    if calls == [] then 0 else
      var n := |calls| - 1;
      AdmittedChecks(calls[..n], hash, lo, hi)
      + (if calls[n].Check? && calls[n].hash == hash && lo <= calls[n].now <= hi
            && Allows(BooksAfter(calls[..n]), hash, calls[n].now) then 1 else 0)
  }

  /** How many checks of one key the run admits in its window that starts at `start`. */
  function AdmittedFrom(calls: seq<ServiceCall>, hash: Hash, start: int): nat {
    if calls == [] then 0 else
      var n := |calls| - 1;
      var b := BooksAfter(calls[..n]);
      AdmittedFrom(calls[..n], hash, start)
      + (if calls[n].Check? && calls[n].hash == hash && Allows(b, hash, calls[n].now)
            && Bumped(b, hash, calls[n].now).value.windowStart == start then 1 else 0)
  }

  /** No event on keys changes or removes the limit of a known key. */
  lemma LimitKept(b: Books, e: KeyEvent, hash: Hash)
    requires Fresh(b.keys, e) && LimitOf(b, hash).Some?
    ensures LimitOf(b.(keys := After(b.keys, e)), hash) == LimitOf(b, hash)
  {
    match e
    case Create(h, id, limit) => FindAppended(b.keys, Meta(id, h, limit, false, None, None), hash);
    case Rotate(oldHash, h, id) =>
      if Usable(b.keys, oldHash) {
        var i := Find(b.keys, oldHash).value;
        FindKept(b.keys, i, b.keys[i].(revoked := true), hash);
        FindAppended(Revoke(b.keys, i), Meta(id, h, b.keys[i].limit, false, None, Some(b.keys[i].id)), hash);
      }
    case RevokeId(id) =>
      var i := FindId(b.keys, id);
      if i.Some? {
        FindKept(b.keys, i.value, b.keys[i.value].(revoked := true), hash);
      }
    case Use(h, now) =>
      if Usable(b.keys, h) {
        var i := Find(b.keys, h).value;
        FindKept(b.keys, i, b.keys[i].(lastUsed := Some(now)), hash);
      }
  }

  /** What the limit of a key may do in one call: appear with the key, and then stay. */
  lemma LimitStep(b: Books, c: ServiceCall, hash: Hash)
    requires c.OnKeys? ==> Fresh(b.keys, c.event)
    ensures LimitOf(b, hash).Some? ==> LimitOf(Next(b, c), hash) == LimitOf(b, hash)
    ensures c.Check? ==> LimitOf(Next(b, c), hash) == LimitOf(b, hash)
  {
    if c.OnKeys? && LimitOf(b, hash).Some? {
      LimitKept(b, c.event, hash);
    }
  }

  lemma TimesStep(calls: seq<ServiceCall>, hash: Hash)
    requires calls != []
    ensures var n := |calls| - 1;
      var times, counted := Times(calls[..n], hash), Counts(BooksAfter(calls[..n]), calls[n], hash);
      && Times(calls, hash) == (if counted then times + [calls[n].now] else times)
      && (counted ==> Times(calls, hash)[..|times|] == times)
  {
  }

  /** Whatever else happens, the record of a key is the one its own checks alone leave. */
  lemma {:induction false} UsageIsOwn(calls: seq<ServiceCall>, hash: Hash)
    requires FreshCalls(calls)
    ensures var b, times := BooksAfter(calls), Times(calls, hash);
      if LimitOf(b, hash).None? then times == [] && UsageOf(b, hash) == None
      else UsageOf(b, hash) == UsageAfter(times, LimitOf(b, hash).value)
  {
    if calls != [] {
      var n := |calls| - 1;
      UsageIsOwn(calls[..n], hash);
      LimitStep(BooksAfter(calls[..n]), calls[n], hash);
      TimesStep(calls, hash);
    }
  }

  /** The verdict on a check is the one the limiter alone gives. */
  lemma VerdictIsOwn(calls: seq<ServiceCall>, hash: Hash)
    requires calls != [] && FreshCalls(calls)
    ensures var n := |calls| - 1;
      var b := BooksAfter(calls[..n]);
      Counts(b, calls[n], hash) ==>
        && LimitOf(BooksAfter(calls), hash) == LimitOf(b, hash) && Times(calls, hash) != []
        && Bumped(b, hash, calls[n].now) == UsageAfter(Times(calls, hash), LimitOf(b, hash).value)
        && (Allows(b, hash, calls[n].now) <==> LastAdmitted(Times(calls, hash), LimitOf(b, hash).value))
  {
    var n := |calls| - 1;
    UsageIsOwn(calls[..n], hash);
    LimitStep(BooksAfter(calls[..n]), calls[n], hash);
    TimesStep(calls, hash);
  }

  /** The run admits exactly those checks of a key that the limiter alone would. */
  lemma {:induction false} ChecksAreOwn(calls: seq<ServiceCall>, hash: Hash, lo: int, hi: int)
    requires FreshCalls(calls)
    ensures AdmittedChecks(calls, hash, lo, hi) ==
      if LimitOf(BooksAfter(calls), hash).None? then 0
      else AdmittedTotal(Times(calls, hash), LimitOf(BooksAfter(calls), hash).value, lo, hi)
  {
    if calls != [] {
      var n := |calls| - 1;
      ChecksAreOwn(calls[..n], hash, lo, hi);
      UsageIsOwn(calls[..n], hash);
      LimitStep(BooksAfter(calls[..n]), calls[n], hash);
      VerdictIsOwn(calls, hash);
      TimesStep(calls, hash);
    }
  }

  lemma {:induction false} WindowsAreOwn(calls: seq<ServiceCall>, hash: Hash, start: int)
    requires FreshCalls(calls)
    ensures AdmittedFrom(calls, hash, start) ==
      if LimitOf(BooksAfter(calls), hash).None? then 0
      else AdmittedInWindow(Times(calls, hash), LimitOf(BooksAfter(calls), hash).value, start)
  {
    if calls != [] {
      var n := |calls| - 1;
      WindowsAreOwn(calls[..n], hash, start);
      UsageIsOwn(calls[..n], hash);
      LimitStep(BooksAfter(calls[..n]), calls[n], hash);
      VerdictIsOwn(calls, hash);
      TimesStep(calls, hash);
    }
  }

  lemma {:induction false} TimesBelow(calls: seq<ServiceCall>, hash: Hash, last: int)
    requires forall i :: 0 <= i < |calls| && calls[i].Check? ==> calls[i].now <= last
    ensures forall k :: 0 <= k < |Times(calls, hash)| ==> Times(calls, hash)[k] <= last
  {
    if calls != [] {
      TimesBelow(calls[..|calls| - 1], hash, last);
    }
  }

  lemma {:induction false} TimesAscend(calls: seq<ServiceCall>, hash: Hash)
    requires ClockForward(calls)
    ensures NonDecreasing(Times(calls, hash))
  {
    if calls != [] {
      var n := |calls| - 1;
      TimesAscend(calls[..n], hash);
      if calls[n].Check? {
        TimesBelow(calls[..n], hash, calls[n].now);
      }
    }
  }

  /** In every run, a check is admitted exactly when its key is known and it is among the first `max` checks of that
      key's own window; checks of an unknown key are refused. */
  lemma ServiceAdmitsIff(calls: seq<ServiceCall>, hash: Hash, now: int)
    requires FreshCalls(calls)
    ensures var b := BooksAfter(calls);
      var times := Times(calls, hash) + [now];
      Allows(b, hash, now) <==>
        LimitOf(b, hash).Some? && |times| - WindowFirst(times, LimitOf(b, hash).value) <= LimitOf(b, hash).value.max
  {
    var b := BooksAfter(calls);
    if LimitOf(b, hash).Some? {
      var times := Times(calls, hash) + [now];
      UsageIsOwn(calls, hash);
      assert times[..|times| - 1] == Times(calls, hash);
      AdmittedIff(times, LimitOf(b, hash).value);
    }
  }

  /** In every run of the service with fresh keys and a clock that does not go back, checks of many keys,
      rotations and revocations interleaved: each window of a key admits at most `max` of its checks, and every
      interval no longer than the window length contains at most twice `max` admitted ones. */
  lemma ServiceIsLimited(calls: seq<ServiceCall>, hash: Hash, lo: int, hi: int, start: int)
    requires FreshCalls(calls) && ClockForward(calls) && LimitOf(BooksAfter(calls), hash).Some?
    ensures var limit := LimitOf(BooksAfter(calls), hash).value;
      && AdmittedFrom(calls, hash, start) <= limit.max
      && (lo <= hi <= lo + limit.windowMs ==> AdmittedChecks(calls, hash, lo, hi) <= 2 * limit.max)
  {
    var limit := LimitOf(BooksAfter(calls), hash).value;
    ChecksAreOwn(calls, hash, lo, hi);
    WindowsAreOwn(calls, hash, start);
    TimesAscend(calls, hash);
    WindowBound(Times(calls, hash), limit, start);
    if lo <= hi <= lo + limit.windowMs {
      IntervalBound(Times(calls, hash), limit, lo, hi);
    }
  }

  // ----- the service

  class Service {
    var keys: Store
    var usage: map<Hash, Usage>

    function View(): Books
      reads this
    {
      Books(keys, usage)
    }

    constructor ()
      ensures keys == [] && usage == map[]
    {
      keys, usage := [], map[];
    }

    /** The hash and identifier of the new key are the random draws of the source. */
    method CreateKey(hash: Hash, id: string, limit: Limit)
      requires Fresh(keys, Create(hash, id, limit))
      modifies this`keys
      ensures keys == After(old(keys), Create(hash, id, limit))
    {
      keys := keys + [Meta(id, hash, limit, false, None, None)];
    }

    method ValidateKey(hash: Hash, hasPrefix: bool, now: int) returns (meta: Option<Meta>)
      modifies this`keys
      ensures meta.Some? <==> hasPrefix && Usable(old(keys), hash)
      ensures keys == if hasPrefix then After(old(keys), Use(hash, now)) else old(keys)
      ensures meta.Some? ==> meta.value in keys && meta.value.hash == hash && !meta.value.revoked
    {
      if !hasPrefix { return None; }
      var i := Find(keys, hash);
      if i.None? || keys[i.value].revoked { return None; }
      var used := keys[i.value].(lastUsed := Some(now));
      keys := keys[i.value := used];
      assert keys[i.value] == used;
      return Some(used);
    }

    method CheckRateLimit(hash: Hash, now: int) returns (allowed: bool)
      modifies this`usage
      ensures View() == Next(old(View()), Check(hash, now))
      ensures allowed <==> Allows(old(View()), hash, now)
    {
      var i := Find(keys, hash);
      if i.None? { return false; }
      var limit := keys[i.value].limit;
      var u: Usage;
      if hash !in usage || now - usage[hash].windowStart > limit.windowMs {
        u := Usage(0, now);
      } else {
        u := usage[hash];
      }
      u := u.(count := u.count + 1);
      usage := usage[hash := u];
      allowed := u.count <= limit.max;
    }

    method RotateKey(oldHash: Hash, hash: Hash, id: string) returns (ok: bool)
      requires Fresh(keys, Rotate(oldHash, hash, id))
      modifies this`keys
      ensures ok <==> Usable(old(keys), oldHash)
      ensures keys == After(old(keys), Rotate(oldHash, hash, id))
    {
      var i := Find(keys, oldHash);
      if i.None? || keys[i.value].revoked { return false; }
      var meta := keys[i.value];
      keys := keys[i.value := meta.(revoked := true)];
      keys := keys + [Meta(id, hash, meta.limit, false, None, Some(meta.id))];
      return true;
    }

    method RevokeById(id: string) returns (found: bool)
      modifies this`keys
      ensures found <==> FindId(old(keys), id).Some?
      ensures keys == After(old(keys), RevokeId(id))
    {
      for i := 0 to |keys|
        invariant keys == old(keys)
        invariant forall j :: 0 <= j < i ==> keys[j].id != id
      {
        if keys[i].id == id {
          keys := keys[i := keys[i].(revoked := true)];
          return true;
        }
      }
      return false;
    }

    /** One call of the service. */
    method Perform(c: ServiceCall) returns (ok: bool)
      requires c.OnKeys? ==> Fresh(keys, c.event)
      modifies this
      ensures View() == Next(old(View()), c)
      ensures c.Check? ==> (ok <==> Allows(old(View()), c.hash, c.now))
    {
      ok := true;
      match c {
        case OnKeys(Create(hash, id, limit)) => CreateKey(hash, id, limit);
        case OnKeys(Rotate(oldHash, hash, id)) => ok := RotateKey(oldHash, hash, id);
        case OnKeys(RevokeId(id)) => ok := RevokeById(id);
        case OnKeys(Use(hash, now)) => var meta := ValidateKey(hash, true, now);
        case Check(hash, now) => ok := CheckRateLimit(hash, now);
      }
    }

    /** A new service driven through a list of calls is the service the run theorems speak about. */
    method Drive(calls: seq<ServiceCall>)
      requires View() == BooksAfter([]) && FreshCalls(calls)
      modifies this
      ensures View() == BooksAfter(calls)
    {
      for i := 0 to |calls|
        invariant View() == BooksAfter(calls[..i])
      {
        FreshPrefix(calls, i + 1);
        assert calls[..i + 1][..i] == calls[..i];
        var _ := Perform(calls[i]);
      }
      assert calls[..|calls|] == calls;
    }
  }
}
