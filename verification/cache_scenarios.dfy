/**
 * Sequences of `MemoryCache` calls, followed through the specification
 * functions: expiry, capacity eviction (and its failure when the clock has
 * not moved), and overwriting a key.
 */
module CacheScenarios {
  import opened Base
  import opened MemCache

  function Empty<T>(): (s: MapState<T>)
    ensures WellFormed(s) && |s.items| == 0
  {
    MapState(map[], [])
  }

  /** `set(k, v, 100)` at `t`: a `get` at `t + 50` hits; one at `t + 150` misses and leaves the cache empty. */
  lemma TtlExpiry<T>(config: CacheConfig, k: string, v: T, t: int)
    ensures var s := SetSpec(Empty(), config, k, v, Some(100), t);
      && Lookup(s.items, k, t + 50) == Some(v)
      && Lookup(s.items, k, t + 150) == None
      && |ReadSpec(s, k, t + 150).items| == 0
  {
    var s := SetSpec(Empty<T>(), config, k, v, Some(100), t);
    assert s.items == map[k := CacheItem(v, t, t + 100)];
  }

  /** The state after writing three keys at `t1`, `t2`, `t3` with the default TTL. */
  ghost function ThreeWrites<T>(config: CacheConfig, a: string, b: string, c: string, va: T, vb: T, vc: T,
                                t1: int, t2: int, t3: int): MapState<T>
  {
    var s1 := SetSpec(Empty(), config, a, va, None, t1);
    var s2 := SetSpec(s1, config, b, vb, None, t2);
    SetSpec(s2, config, c, vc, None, t3)
  }

  /** Two distinct keys written into an empty cache with room for both. */
  lemma TwoWrites<T>(config: CacheConfig, a: string, b: string, va: T, vb: T, t1: int, t2: int)
    requires config.maxSize >= 2 && a != b
    ensures SetSpec(SetSpec(Empty(), config, a, va, None, t1), config, b, vb, None, t2)
         == MapState(map[a := CacheItem(va, t1, t1 + config.ttl), b := CacheItem(vb, t2, t2 + config.ttl)], [a, b])
  {
    FirstWrite(config, a, va, t1);
    SecondWrite(config, a, b, CacheItem(va, t1, t1 + config.ttl), vb, t2);
  }

  /** A write into an empty cache stores one item. */
  lemma FirstWrite<T>(config: CacheConfig, a: string, va: T, t: int)
    requires config.maxSize >= 1
    ensures SetSpec(Empty(), config, a, va, None, t) == MapState(map[a := CacheItem(va, t, t + config.ttl)], [a])
  {
    SetBelowCapacity(Empty(), config, a, va, None, t);
  }

  /** A write of a new key into a cache of one item, with room for two, appends it. */
  lemma SecondWrite<T>(config: CacheConfig, a: string, b: string, ia: CacheItem<T>, vb: T, t: int)
    requires config.maxSize >= 2 && a != b
    ensures SetSpec(MapState(map[a := ia], [a]), config, b, vb, None, t)
         == MapState(map[a := ia, b := CacheItem(vb, t, t + config.ttl)], [a, b])
  {
    SetBelowCapacity(MapState(map[a := ia], [a]), config, b, vb, None, t);
  }

  /** Of two items, the one stamped earlier (and before `now`) is evicted. */
  lemma EvictEarlierOfTwo<T>(a: string, b: string, ia: CacheItem<T>, ib: CacheItem<T>, now: int)
    requires a != b && a != ""
    requires ia.timestamp < now && ia.timestamp <= ib.timestamp
    ensures EvictSpec(MapState(map[a := ia, b := ib], [a, b]), now) == MapState(map[b := ib], [b])
  {
    var s := MapState(map[a := ia, b := ib], [a, b]);
    assert IsVictim(s, now, 0);
    VictimUnique(s, now, 0, Victim(s, now).value);
    assert Remove(s, a).items == map[b := ib];
  }

  /** A write of a third key into a full cache of two evicts the earlier of the two. */
  lemma ThirdWriteEvicts<T>(config: CacheConfig, a: string, b: string, c: string, ia: CacheItem<T>, ib: CacheItem<T>,
                            vc: T, now: int)
    requires config.maxSize == 2
    requires a != b && a != ""
    requires ia.timestamp < now && ia.timestamp <= ib.timestamp
    ensures SetSpec(MapState(map[a := ia, b := ib], [a, b]), config, c, vc, None, now)
         == Put(MapState(map[b := ib], [b]), c, CacheItem(vc, now, now + config.ttl))
  {
    var s2 := MapState(map[a := ia, b := ib], [a, b]);
    EvictEarlierOfTwo(a, b, ia, ib, now);
    assert |s2.items| == 2 by {
      assert s2.items.Keys == {a, b};
    }
    SetAtCapacity(s2, config, c, vc, None, now);
  }

  /**
   * With `maxSize` 2 and the clock advancing between writes, the third
   * distinct key evicts the first; the last two stay readable.
   */
  lemma {:induction false} CapacityEviction<T>(config: CacheConfig, a: string, b: string, c: string, va: T, vb: T, vc: T,
                                               t1: int, t2: int, t3: int)
    requires config.maxSize == 2
    requires a != b && b != c && a != c && a != ""
    requires t1 < t2 < t3 <= t2 + config.ttl
    ensures var s := ThreeWrites(config, a, b, c, va, vb, vc, t1, t2, t3);
      && |s.items| == 2
      && Lookup(s.items, a, t3) == None
      && Lookup(s.items, b, t3) == Some(vb)
      && Lookup(s.items, c, t3) == Some(vc)
  {
    TwoWrites(config, a, b, va, vb, t1, t2);
    ThirdWriteEvicts(config, a, b, c, CacheItem(va, t1, t1 + config.ttl), CacheItem(vb, t2, t2 + config.ttl), vc, t3);
    var s := ThreeWrites(config, a, b, c, va, vb, vc, t1, t2, t3);
    assert s.items == map[b := CacheItem(vb, t2, t2 + config.ttl), c := CacheItem(vc, t3, t3 + config.ttl)];
    assert s.items.Keys == {b, c};
  }

  /**
   * The same three writes within one millisecond: nothing is older than
   * `now`, so nothing is evicted and the cache holds three items with
   * `maxSize` 2.
   */
  lemma {:induction false} CapacityOverflowSameMillisecond<T>(config: CacheConfig, a: string, b: string, c: string,
                                                              va: T, vb: T, vc: T, t: int)
    requires config.maxSize == 2 && config.ttl >= 0
    requires a != b && b != c && a != c
    ensures var s := ThreeWrites(config, a, b, c, va, vb, vc, t, t, t);
      && |s.items| == 3 > config.maxSize
      && Lookup(s.items, a, t) == Some(va)
  {
    TwoWrites(config, a, b, va, vb, t, t);
    var s2 := SetSpec(SetSpec(Empty(), config, a, va, None, t), config, b, vb, None, t);
    SameMillisecondOverflow(s2, config, c, vc, None, t);
    VictimExistsIff(s2, t);
  }

  /**
   * A cache with `maxSize` 1 and a TTL of 1000, written under `x` and then
   * under another key `y`: `x` is evicted when the clock has moved, and
   * survives when both writes fall in the same millisecond.
   */
  lemma {:induction false} SingleSlot<T>(x: string, y: string, vx: T, vy: T, t1: int, t2: int)
    requires x != y && x != ""
    requires t1 <= t2 <= t1 + 1000
    ensures var config := CacheConfig(1000, 1);
      var s := SetSpec(SetSpec(Empty(), config, x, vx, None, t1), config, y, vy, None, t2);
      && Lookup(s.items, y, t2) == Some(vy)
      && (t1 < t2 ==> Lookup(s.items, x, t2) == None)
      && (t1 == t2 ==> Lookup(s.items, x, t2) == Some(vx))
  {
    var config := CacheConfig(1000, 1);
    var item := CacheItem(vx, t1, t1 + 1000);
    SetBelowCapacity(Empty(), config, x, vx, None, t1);
    var s1 := MapState(map[x := item], [x]);
    assert SetSpec(Empty(), config, x, vx, None, t1) == s1;
    SetAtCapacity(s1, config, y, vy, None, t2);
    EvictOnlyItem(x, item, t2);
  }

  /** A single item is evicted exactly when it was stamped before `now`. */
  lemma EvictOnlyItem<T>(k: string, item: CacheItem<T>, now: int)
    requires k != ""
    ensures var s := MapState(map[k := item], [k]);
      EvictSpec(s, now) == if item.timestamp < now then MapState(map[], []) else s
  {
    var s := MapState(map[k := item], [k]);
    if item.timestamp < now {
      assert IsVictim(s, now, 0);
      VictimUnique(s, now, 0, Victim(s, now).value);
      assert Remove(s, k).items == map[];
    } else {
      VictimExistsIff(s, now);
    }
  }

  /** Writing one key twice into an empty cache leaves one item holding the second value. */
  lemma {:induction false} OverwriteKeepsSize<T>(config: CacheConfig, k: string, v1: T, v2: T, t1: int, t2: int)
    requires t1 <= t2 && config.ttl >= 0
    ensures var s := SetSpec(SetSpec(Empty(), config, k, v1, None, t1), config, k, v2, None, t2);
      |s.items| == 1 && Lookup(s.items, k, t2) == Some(v2)
  {
    var s1 := SetSpec(Empty(), config, k, v1, None, t1);
    assert s1.items == map[k := CacheItem(v1, t1, t1 + config.ttl)];
    var s0 := if |s1.items| >= config.maxSize then EvictSpec(s1, t2) else s1;
    assert s0.items.Keys <= {k};
    var s := SetSpec(s1, config, k, v2, None, t2);
    assert s.items.Keys == {k};
  }
}
