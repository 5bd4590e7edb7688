/**
 * The in-process cache of src/lib/cache.ts (`MemoryCache`): a JavaScript
 * `Map` from string keys to `{data, timestamp, expiresAt}` items, with lazy
 * expiry in `get`/`has`, a `cleanup` sweep, eviction of the oldest item when
 * the map is full, and statistics.
 *
 * The clock (`Date.now()`) is the explicit argument `now`. The `Map` keeps its
 * keys in insertion order, and `evictOldest` breaks ties by that order, so the
 * model keeps the order beside the entries.
 */
module MemCache {
  import opened Base

  datatype CacheItem<T> = CacheItem(data: T, timestamp: int, expiresAt: int)

  datatype CacheConfig = CacheConfig(ttl: int, maxSize: int)

  datatype CacheStats = CacheStats(
    totalEntries: nat,
    validEntries: nat,
    expiredEntries: nat,
    maxSize: int,
    ttl: int)

  const Minute: int := 60 * 1000

  /** The constructor's default configuration. */
  const DefaultConfig := CacheConfig(5 * Minute, 100)
  /** Configurations of the three shared instances. */
  const AirQualityConfig := CacheConfig(10 * Minute, 50)
  const MeasurementsConfig := CacheConfig(5 * Minute, 100)
  const UserSettingsConfig := CacheConfig(30 * Minute, 20)

  /** The contents of the `Map`: its entries, and its keys in insertion order. */
  datatype MapState<T> = MapState(items: map<string, CacheItem<T>>, order: seq<string>)

  /** The order lists every key of the map exactly once. */
  ghost predicate WellFormed<T>(s: MapState<T>) {
    Distinct(s.order) && forall k :: k in s.order <==> k in s.items
  }

  predicate Expired<T>(item: CacheItem<T>, now: int) {
    now > item.expiresAt
  }

  /** What `get` answers at time `now`: the data of a present item that has not expired. */
  function Lookup<T>(items: map<string, CacheItem<T>>, key: string, now: int): Option<T> {
    if key in items && !Expired(items[key], now) then Some(items[key].data) else None
  }

  /** `Map.delete(key)` */
  function Remove<T>(s: MapState<T>, key: string): (r: MapState<T>)
    ensures WellFormed(s) ==> WellFormed(r)
    ensures r.items.Keys == s.items.Keys - {key}
  {
    MinusDistinct(s.order, {key});
    MapState(s.items - {key}, Minus(s.order, {key}))
  }

  /** The map after a read at `now`: an expired item under `key` is deleted, nothing else changes. */
  function ReadSpec<T>(s: MapState<T>, key: string, now: int): (r: MapState<T>)
    ensures WellFormed(s) ==> WellFormed(r)
  {
    if key in s.items && Expired(s.items[key], now) then Remove(s, key) else s
  }

  /**
   * Among the first `n` keys of `o`, the one at index `i` has the least
   * timestamp, that timestamp is strictly before `now`, and no earlier key
   * has the same timestamp.
   */
  ghost predicate OldestAt<T>(m: map<string, CacheItem<T>>, o: seq<string>, now: int, n: nat, i: nat) {
    && i < n <= |o|
    && (forall j :: 0 <= j < n ==> o[j] in m)
    && m[o[i]].timestamp < now
    && (forall j :: 0 <= j < n ==> m[o[i]].timestamp <= m[o[j]].timestamp)
    && (forall j :: 0 <= j < i ==> m[o[i]].timestamp < m[o[j]].timestamp)
  }

  /** The key at index `i` of the order is the one `evictOldest` removes at `now`. */
  ghost predicate IsVictim<T>(s: MapState<T>, now: int, i: nat) {
    OldestAt(s.items, s.order, now, |s.order|, i)
  }

  /** At most one key is the eviction victim. */
  lemma VictimUnique<T>(s: MapState<T>, now: int, i: nat, j: nat)
    requires IsVictim(s, now, i) && IsVictim(s, now, j)
    ensures i == j
  {
  }

  /** If some key of the prefix is older than `now`, the prefix has an oldest key. */
  lemma {:induction false} OldestExists<T>(m: map<string, CacheItem<T>>, o: seq<string>, now: int, n: nat)
    requires n <= |o| && forall j :: 0 <= j < |o| ==> o[j] in m
    requires exists j :: 0 <= j < n && m[o[j]].timestamp < now
    ensures exists i :: OldestAt(m, o, now, n, i)
  {
    var last := n - 1;
    if exists j :: 0 <= j < last && m[o[j]].timestamp < now {
      OldestExists(m, o, now, last);
      var i: nat :| OldestAt(m, o, now, last, i);
      if m[o[last]].timestamp < m[o[i]].timestamp {
        assert OldestAt(m, o, now, n, last);
      } else {
        assert OldestAt(m, o, now, n, i);
      }
    } else {
      assert OldestAt(m, o, now, n, last);
    }
  }

  /** The index of the eviction victim, if any key is older than `now`. */
  ghost function Victim<T>(s: MapState<T>, now: int): (v: Option<nat>)
    ensures v.Some? ==> IsVictim(s, now, v.value)
    ensures v.None? ==> forall i :: !IsVictim(s, now, i)
  {
    if exists i :: IsVictim(s, now, i) then
      var i :| IsVictim(s, now, i); Some(i)
    else
      None
  }

  /**
   * A victim exists exactly when some item was stamped strictly before `now`:
   * items stamped at `now` or later are never evicted.
   */
  lemma VictimExistsIff<T>(s: MapState<T>, now: int)
    requires WellFormed(s)
    ensures Victim(s, now).Some? <==> exists k :: k in s.items && s.items[k].timestamp < now
  {
    if k :| k in s.items && s.items[k].timestamp < now {
      var j :| 0 <= j < |s.order| && s.order[j] == k;
      assert s.items[s.order[j]].timestamp < now;
      OldestExists(s.items, s.order, now, |s.order|);
      var i: nat :| OldestAt(s.items, s.order, now, |s.order|, i);
      assert IsVictim(s, now, i);
    }
  }

  /** The map after `evictOldest` at `now`. A victim whose key is `""` is kept, as `if (oldestKey)` is false for it. */
  ghost function EvictSpec<T>(s: MapState<T>, now: int): (r: MapState<T>)
    ensures WellFormed(s) ==> WellFormed(r)
    ensures forall k :: k in r.items ==> k in s.items && r.items[k] == s.items[k]
    ensures |r.items| >= |s.items| - 1
  {
    match Victim(s, now)
    case None => s
    case Some(i) => if s.order[i] == "" then s else Remove(s, s.order[i])
  }

  /** `customTtl || config.ttl`: an absent or zero custom TTL falls back to the configured one. */
  function EffectiveTtl(customTtl: Option<int>, configTtl: int): int {
    if customTtl.Some? && customTtl.value != 0 then customTtl.value else configTtl
  }

  /**
   * The map after `set(key, data, customTtl)` at `now`: one eviction when the
   * map already holds `maxSize` items (whether or not `key` is among them),
   * then the new item under `key`, which keeps its place if it was present.
   */
  ghost function SetSpec<T>(s: MapState<T>, config: CacheConfig, key: string, data: T, customTtl: Option<int>, now: int): (r: MapState<T>)
    ensures WellFormed(s) ==> WellFormed(r)
  {
    var s1 := if |s.items| >= config.maxSize then EvictSpec(s, now) else s;
    Put(s1, key, CacheItem(data, now, now + EffectiveTtl(customTtl, config.ttl)))
  }

  /** `Map.set(key, item)`: a new key goes last in the order, an existing one keeps its place. */
  function Put<T>(s: MapState<T>, key: string, item: CacheItem<T>): (r: MapState<T>)
    ensures WellFormed(s) ==> WellFormed(r)
  {
    MapState(s.items[key := item], if key in s.order then s.order else s.order + [key])
  }

  /** At capacity, `set` is one eviction followed by `Map.set`. */
  lemma SetAtCapacity<T>(s: MapState<T>, config: CacheConfig, key: string, data: T, customTtl: Option<int>, now: int)
    requires |s.items| >= config.maxSize
    ensures SetSpec(s, config, key, data, customTtl, now) == Put(EvictSpec(s, now), key, CacheItem(data, now, now + EffectiveTtl(customTtl, config.ttl)))
  {
  }

  /** Below capacity, `set` is a plain `Map.set`. */
  lemma SetBelowCapacity<T>(s: MapState<T>, config: CacheConfig, key: string, data: T, customTtl: Option<int>, now: int)
    requires |s.items| < config.maxSize
    ensures SetSpec(s, config, key, data, customTtl, now) == Put(s, key, CacheItem(data, now, now + EffectiveTtl(customTtl, config.ttl)))
  {
  }

  function ExpiredKeys<T>(items: map<string, CacheItem<T>>, now: int): set<string> {
    set k | k in items && Expired(items[k], now)
  }

  function LiveKeys<T>(items: map<string, CacheItem<T>>, now: int): set<string> {
    set k | k in items && !Expired(items[k], now)
  }

  /** The map after `cleanup` at `now`: exactly the expired items are gone. */
  function SweepSpec<T>(s: MapState<T>, now: int): (r: MapState<T>)
    ensures WellFormed(s) ==> WellFormed(r)
    ensures forall k :: k in r.items ==> k in s.items && r.items[k] == s.items[k] && !Expired(r.items[k], now)
    ensures forall k :: k in s.items && !Expired(s.items[k], now) ==> k in r.items
  {
    var gone := ExpiredKeys(s.items, now);
    MinusDistinct(s.order, gone);
    MapState(s.items - gone, Minus(s.order, gone))
  }

  /** Keys among `ks` whose item in `m` has expired (the part of a sweep done so far). */
  ghost function ExpiredAmong<T>(m: map<string, CacheItem<T>>, ks: seq<string>, now: int): set<string> {
    set k | k in ks && k in m && Expired(m[k], now)
  }

  /** Keys among `ks` whose item in `m` is still valid. */
  ghost function LiveAmong<T>(m: map<string, CacheItem<T>>, ks: seq<string>, now: int): set<string> {
    set k | k in ks && k in m && !Expired(m[k], now)
  }

  /** Extending the visited keys by one key adds that key to exactly one of the two sets. */
  lemma AmongStep<T>(m: map<string, CacheItem<T>>, ks: seq<string>, k: string, now: int)
    requires k in m
    ensures Expired(m[k], now) ==> ExpiredAmong(m, ks + [k], now) == ExpiredAmong(m, ks, now) + {k}
    ensures Expired(m[k], now) ==> LiveAmong(m, ks + [k], now) == LiveAmong(m, ks, now)
    ensures !Expired(m[k], now) ==> LiveAmong(m, ks + [k], now) == LiveAmong(m, ks, now) + {k}
    ensures !Expired(m[k], now) ==> ExpiredAmong(m, ks + [k], now) == ExpiredAmong(m, ks, now)
  {
  }

  /** The map once the sweep has visited the first `i` keys of the order. */
  ghost function SweptPrefix<T>(s: MapState<T>, i: nat, now: int): MapState<T>
    requires i <= |s.order|
  {
    if i == 0 then s
    else
      var p := SweptPrefix(s, i - 1, now);
      var key := s.order[i - 1];
      if key in s.items && Expired(s.items[key], now) then MapState(p.items - {key}, Minus(p.order, {key})) else p
  }

  /** After `i` keys, exactly the expired keys among them are gone. */
  lemma {:induction false} SweptPrefixRemoves<T>(s: MapState<T>, i: nat, now: int)
    requires WellFormed(s) && i <= |s.order|
    ensures var done := ExpiredAmong(s.items, s.order[..i], now);
      SweptPrefix(s, i, now) == MapState(s.items - done, Minus(s.order, done))
  {
    if i == 0 {
      assert s.order[..0] == [];
      assert ExpiredAmong(s.items, [], now) == {};
      assert s.items - {} == s.items;
      MinusAbsent(s.order, {});
    } else {
      var j := i - 1;
      SweptPrefixRemoves(s, j, now);
      var key := s.order[j];
      var done := ExpiredAmong(s.items, s.order[..j], now);
      PrefixStep(s.order, j);
      AmongStep(s.items, s.order[..j], key, now);
      MapMinusStep(s.items, done, key);
      MinusMinus(s.order, done, {key});
    }
  }

  /** The next key to visit is still in the partly swept map, with its original item. */
  lemma SweepNext<T>(s: MapState<T>, i: nat, now: int)
    requires WellFormed(s) && i < |s.order|
    ensures s.order[i] in s.items
    ensures s.order[i] in SweptPrefix(s, i, now).items
    ensures SweptPrefix(s, i, now).items[s.order[i]] == s.items[s.order[i]]
  {
    SweptPrefixRemoves(s, i, now);
    var key := s.order[i];
    assert key !in s.order[..i];
  }

  /** Once every key is visited, the sweep has done what `cleanup` promises. */
  lemma SweptWhole<T>(s: MapState<T>, now: int)
    requires WellFormed(s)
    ensures SweptPrefix(s, |s.order|, now) == SweepSpec(s, now)
  {
    SweptPrefixRemoves(s, |s.order|, now);
    assert s.order[..|s.order|] == s.order;
    SweptAll(s, now);
  }

  /** Removing a set of keys and then one more key is removing both at once. */
  lemma MapMinusStep<T>(m: map<string, CacheItem<T>>, done: set<string>, key: string)
    ensures (m - done) - {key} == m - (done + {key})
  {
  }

  /** Once every key of the order is visited, the expired keys found are all the expired keys. */
  lemma SweptAll<T>(s: MapState<T>, now: int)
    requires WellFormed(s)
    ensures ExpiredAmong(s.items, s.order, now) == ExpiredKeys(s.items, now)
    ensures LiveAmong(s.items, s.order, now) == LiveKeys(s.items, now)
  {
  }

  // ---------------------------------------------------------------------------
  // Properties of the operations
  // ---------------------------------------------------------------------------

  /** A `get` within the TTL of a `set` returns the data just stored. */
  lemma GetAfterSet<T>(s: MapState<T>, config: CacheConfig, key: string, data: T, customTtl: Option<int>, now: int, later: int)
    requires now <= later <= now + EffectiveTtl(customTtl, config.ttl)
    ensures Lookup(SetSpec(s, config, key, data, customTtl, now).items, key, later) == Some(data)
    ensures customTtl.None? ==> SetSpec(s, config, key, data, customTtl, now).items[key].expiresAt == now + config.ttl
  {
  }

  /** `get` at `now` after a `set` that expires earlier misses. */
  lemma GetAfterExpiry<T>(s: MapState<T>, config: CacheConfig, key: string, data: T, customTtl: Option<int>, now: int, later: int)
    requires later > now + EffectiveTtl(customTtl, config.ttl)
    ensures Lookup(SetSpec(s, config, key, data, customTtl, now).items, key, later) == None
    ensures key !in ReadSpec(SetSpec(s, config, key, data, customTtl, now), key, later).items
  {
  }

  /**
   * While every stored item was stamped strictly before `now` (and no key is
   * `""`), a `set` keeps the map within `maxSize`.
   */
  lemma {:induction false} SetKeepsBound<T>(s: MapState<T>, config: CacheConfig, key: string, data: T, customTtl: Option<int>, now: int)
    requires WellFormed(s) && 1 <= config.maxSize && |s.items| <= config.maxSize
    requires "" !in s.items
    requires forall k :: k in s.items ==> s.items[k].timestamp < now
    ensures |SetSpec(s, config, key, data, customTtl, now).items| <= config.maxSize
  {
    if |s.items| >= config.maxSize {
      assert s.order != [];
      assert s.order[0] in s.items;
      VictimExistsIff(s, now);
      EvictShrinks(s, now);
    }
  }

  /** A victim whose key is not `""` is removed, and the map shrinks by one. */
  lemma EvictShrinks<T>(s: MapState<T>, now: int)
    requires WellFormed(s) && "" !in s.items && Victim(s, now).Some?
    ensures Victim(s, now).value < |s.order|
    ensures var v := s.order[Victim(s, now).value];
      && v in s.items
      && EvictSpec(s, now) == Remove(s, v)
      && |EvictSpec(s, now).items| == |s.items| - 1
  {
    var v := s.order[Victim(s, now).value];
    assert v in s.items;
    assert |Remove(s, v).items.Keys| == |s.items.Keys| - 1;
  }

  /** No item is older than the victim. */
  lemma VictimIsOldest<T>(s: MapState<T>, now: int, k: string)
    requires WellFormed(s) && Victim(s, now).Some? && k in s.items
    ensures Victim(s, now).value < |s.order|
    ensures s.items[s.order[Victim(s, now).value]].timestamp <= s.items[k].timestamp
  {
    var j :| 0 <= j < |s.order| && s.order[j] == k;
  }

  /**
   * Items stamped in the current millisecond are never evicted: adding a new
   * key then grows the map by one even when it is already full.
   */
  lemma {:induction false} SameMillisecondOverflow<T>(s: MapState<T>, config: CacheConfig, key: string, data: T, customTtl: Option<int>, now: int)
    requires WellFormed(s) && key !in s.items
    requires forall k :: k in s.items ==> s.items[k].timestamp >= now
    ensures |SetSpec(s, config, key, data, customTtl, now).items| == |s.items| + 1
  {
    VictimExistsIff(s, now);
    assert EvictSpec(s, now) == s;
  }

  /**
   * `set` evicts even when it overwrites a key that is already present: in a
   * full map where every other item is older than the overwritten one and
   * older than `now`, the map shrinks by one.
   */
  lemma {:induction false} OverwriteStillEvicts<T>(s: MapState<T>, config: CacheConfig, key: string, data: T, customTtl: Option<int>, now: int)
    requires WellFormed(s) && key in s.items && |s.items| >= config.maxSize && "" !in s.items
    requires forall k :: k in s.items && k != key ==> s.items[k].timestamp < s.items[key].timestamp && s.items[k].timestamp < now
    requires exists k :: k in s.items && k != key
    ensures |SetSpec(s, config, key, data, customTtl, now).items| == |s.items| - 1
  {
    var other :| other in s.items && other != key;
    VictimExistsIff(s, now);
    EvictShrinks(s, now);
    VictimIsOldest(s, now, other);
    SetAtCapacity(s, config, key, data, customTtl, now);
    assert key in EvictSpec(s, now).items;
  }

  /** Valid and expired items partition the map. */
  lemma StatsPartition<T>(items: map<string, CacheItem<T>>, now: int)
    ensures |LiveKeys(items, now)| + |ExpiredKeys(items, now)| == |items|
  {
    var live, gone := LiveKeys(items, now), ExpiredKeys(items, now);
    assert live * gone == {};
    assert live + gone == items.Keys;
  }

  // ---------------------------------------------------------------------------
  // The class
  // ---------------------------------------------------------------------------

  /** The loop of `cleanup` over the entries, on a snapshot of the map. */
  method Sweep<T>(s0: MapState<T>, now: int) returns (r: MapState<T>)
    requires WellFormed(s0)
    ensures r == SweepSpec(s0, now)
  {
    var keys, m, o := s0.order, s0.items, s0.order;
    var i := 0;
    while i < |keys|
      invariant 0 <= i <= |keys| && keys == s0.order
      invariant MapState(m, o) == SweptPrefix(s0, i, now)
    {
      var key := keys[i];
      SweepNext(s0, i, now);
      if now > m[key].expiresAt {
        m, o := m - {key}, Minus(o, {key});
      }
      i := i + 1;
    }
    SweptWhole(s0, now);
    r := MapState(m, o);
  }

  /** The loop of `getStats`: valid and expired items counted over the keys. */
  method Tally<T>(s: MapState<T>, now: int) returns (valid: nat, expired: nat)
    requires WellFormed(s)
    ensures valid == |LiveKeys(s.items, now)| && expired == |ExpiredKeys(s.items, now)|
    ensures valid + expired == |s.items|
  {
    valid, expired := 0, 0;
    var i := 0;
    while i < |s.order|
      invariant 0 <= i <= |s.order|
      invariant valid == |LiveAmong(s.items, s.order[..i], now)|
      invariant expired == |ExpiredAmong(s.items, s.order[..i], now)|
    {
      TallyStep(s, i, now);
      if now > s.items[s.order[i]].expiresAt {
        expired := expired + 1;
      } else {
        valid := valid + 1;
      }
      i := i + 1;
    }
    assert s.order[..i] == s.order;
    SweptAll(s, now);
    StatsPartition(s.items, now);
  }

  /** Visiting one more key adds one to exactly one of the two counts. */
  lemma TallyStep<T>(s: MapState<T>, i: nat, now: int)
    requires WellFormed(s) && i < |s.order|
    ensures var key := s.order[i];
      && key in s.items
      && |LiveAmong(s.items, s.order[..i + 1], now)| == |LiveAmong(s.items, s.order[..i], now)| + (if Expired(s.items[key], now) then 0 else 1)
      && |ExpiredAmong(s.items, s.order[..i + 1], now)| == |ExpiredAmong(s.items, s.order[..i], now)| + (if Expired(s.items[key], now) then 1 else 0)
  {
    var key := s.order[i];
    PrefixStep(s.order, i);
    assert key !in s.order[..i];
    AmongStep(s.items, s.order[..i], key, now);
  }

  class MemoryCache<T> {
    const config: CacheConfig
    var items: map<string, CacheItem<T>>
    var order: seq<string>

    function State(): MapState<T>
      reads this
    {
      MapState(items, order)
    }

    ghost predicate Valid()
      reads this
    {
      WellFormed(State())
    }

    constructor (config: CacheConfig)
      ensures Valid() && this.config == config
      ensures items == map[] && order == []
    {
      this.config := config;
      items := map[];
      order := [];
    }

    method Set(key: string, data: T, customTtl: Option<int>, now: int)
      requires Valid()
      modifies this
      ensures Valid()
      ensures State() == SetSpec(old(State()), config, key, data, customTtl, now)
    {
      var ttl := EffectiveTtl(customTtl, config.ttl);
      if |items| >= config.maxSize {
        EvictOldest(now);
      }
      if key !in items {
        order := order + [key];
      }
      items := items[key := CacheItem(data, now, now + ttl)];
    }

    method Get(key: string, now: int) returns (r: Option<T>)
      requires Valid()
      modifies this
      ensures Valid()
      ensures r == Lookup(old(items), key, now)
      ensures State() == ReadSpec(old(State()), key, now)
    {
      if key !in items {
        return None;
      }
      var item := items[key];
      if now > item.expiresAt {
        MinusDistinct(order, {key});
        items := items - {key};
        order := Minus(order, {key});
        return None;
      }
      return Some(item.data);
    }

    method Has(key: string, now: int) returns (present: bool)
      requires Valid()
      modifies this
      ensures Valid()
      ensures present <==> Lookup(old(items), key, now).Some?
      ensures State() == ReadSpec(old(State()), key, now)
    {
      if key !in items {
        return false;
      }
      var item := items[key];
      if now > item.expiresAt {
        MinusDistinct(order, {key});
        items := items - {key};
        order := Minus(order, {key});
        return false;
      }
      return true;
    }

    method Delete(key: string) returns (removed: bool)
      requires Valid()
      modifies this
      ensures Valid()
      ensures removed <==> key in old(items)
      ensures State() == Remove(old(State()), key)
    {
      removed := key in items;
      MinusDistinct(order, {key});
      items := items - {key};
      order := Minus(order, {key});
    }

    method Clear()
      requires Valid()
      modifies this
      ensures Valid() && items == map[] && order == []
    {
      items := map[];
      order := [];
    }

    method Size() returns (n: nat)
      ensures n == |items|
    {
      n := |items|;
    }

    /** Deletes every expired item, visiting the keys in insertion order. */
    method Cleanup(now: int)
      requires Valid()
      modifies this
      ensures Valid()
      ensures State() == SweepSpec(old(State()), now)
    {
      var swept := Sweep(State(), now);
      items, order := swept.items, swept.order;
    }

    /**
     * Deletes the first key (in insertion order) whose timestamp is the least
     * of those strictly before `now`; the running minimum starts at `now`.
     */
    method EvictOldest(now: int)
      requires Valid()
      modifies this
      ensures Valid()
      ensures State() == EvictSpec(old(State()), now)
    {
      var oldestKey: Option<string> := None;
      var oldestTimestamp := now;
      ghost var w := 0;
      var i := 0;
      while i < |order|
        invariant 0 <= i <= |order|
        invariant oldestKey.None? ==> oldestTimestamp == now && forall j :: 0 <= j < i ==> items[order[j]].timestamp >= now
        invariant oldestKey.Some? ==>
          OldestAt(items, order, now, i, w) && oldestKey.value == order[w] && oldestTimestamp == items[order[w]].timestamp
      {
        var key := order[i];
        var item := items[key];
        if item.timestamp < oldestTimestamp {
          oldestTimestamp := item.timestamp;
          oldestKey := Some(key);
          w := i;
        }
        i := i + 1;
      }
      ghost var s0 := State();
      if oldestKey.Some? {
        assert IsVictim(s0, now, w);
        VictimUnique(s0, now, w, Victim(s0, now).value);
        if oldestKey.value != "" {
          MinusDistinct(order, {oldestKey.value});
          items := items - {oldestKey.value};
          order := Minus(order, {oldestKey.value});
        }
      } else {
        assert Victim(s0, now).None?;
      }
    }

    /** Counts valid and expired items in one pass over the keys. */
    method GetStats(now: int) returns (stats: CacheStats)
      requires Valid()
      ensures stats.totalEntries == |items|
      ensures stats.validEntries == |LiveKeys(items, now)|
      ensures stats.expiredEntries == |ExpiredKeys(items, now)|
      ensures stats.validEntries + stats.expiredEntries == stats.totalEntries
      ensures stats.maxSize == config.maxSize && stats.ttl == config.ttl
    {
      var valid, expired := Tally(State(), now);
      stats := CacheStats(|items|, valid, expired, config.maxSize, config.ttl);
    }
  }
}
