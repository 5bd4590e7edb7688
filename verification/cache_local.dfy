/**
 * `LocalStorageCache` of src/lib/cache.ts: items kept in the browser's
 * `localStorage` under `${prefix}-${key}` as JSON envelopes
 * `{data, timestamp, expiresAt}`.
 *
 * The storage area is a `Storage` object shared by every instance (and by
 * any other script on the page), so it is a class of its own. A stored value
 * is either an envelope that parses, an empty string, or text that does not
 * parse as JSON. Whether `window` exists, and whether the browser accepts a
 * write (its quota), are fixed properties of the storage.
 */
module LocalCache {
  import opened Base
  import MemCache

  /** A value held in `localStorage`, as this class reads it back. */
  datatype Stored<T> =
    | Envelope(data: T, timestamp: int, expiresAt: int)  // JSON text of a cache item
    | Blank                                              // the empty string, which `if (!itemStr)` treats as absent
    | Corrupt                                            // text on which `JSON.parse` throws

  const DefaultPrefix: string := "eco-tracker-cache"
  const DefaultLocalTtl: int := 5 * MemCache.Minute

  /** The default parameter `ttl = 5 * 60 * 1000` applies only when no TTL is passed (a zero TTL is kept). */
  function LocalTtl(ttl: Option<int>): (t: int)
    ensures ttl.None? ==> t == DefaultLocalTtl
    ensures ttl.Some? ==> t == ttl.value
  {
    ttl.GetOr(DefaultLocalTtl)
  }

  /** `${prefix}-${key}` */
  function StorageKey(prefix: string, key: string): (k: string)
    ensures StartsWith(k, prefix)
  {
    StartsWithConcat(prefix, "-" + key);
    prefix + "-" + key
  }

  /** Within one namespace, distinct keys never share a storage slot. */
  lemma StorageKeyInjective(prefix: string, a: string, b: string)
    requires StorageKey(prefix, a) == StorageKey(prefix, b)
    ensures a == b
  {
    var n := |prefix| + 1;
    assert a == StorageKey(prefix, a)[n..];
    assert b == StorageKey(prefix, b)[n..];
  }

  /** What `get` returns for the stored value `v` at `now`. */
  function ReadValue<T>(v: Option<Stored<T>>, now: int): Option<T> {
    match v
    case Some(Envelope(data, _, expiresAt)) => if now > expiresAt then None else Some(data)
    case _ => None
  }

  /** What `get` answers for `skey` at `now`. */
  function ReadEntry<T>(entries: map<string, Stored<T>>, skey: string, now: int): Option<T> {
    ReadValue(if skey in entries then Some(entries[skey]) else None, now)
  }

  /** The storage after `get` at `now`: only an expired envelope under `skey` is removed; a corrupt one stays. */
  function AfterRead<T>(entries: map<string, Stored<T>>, skey: string, now: int): (r: map<string, Stored<T>>)
    ensures forall k :: k in r <==> k in entries && (k != skey || ReadEntry(entries, skey, now).Some? || !entries[skey].Envelope?)
    ensures forall k :: k in r ==> r[k] == entries[k]
  {
    if skey in entries && entries[skey].Envelope? && now > entries[skey].expiresAt then entries - {skey} else entries
  }

  /** The fixed facts about a `LocalStorageCache` and its storage: whether `window` exists, whether writes are refused, the prefix. */
  datatype Browser = Browser(available: bool, full: bool, prefix: string)

  /** The storage after `set` of `data` under `skey` at `now`: written only when `window` exists and the browser accepts it. */
  function AfterSet<T>(entries: map<string, Stored<T>>, available: bool, full: bool, skey: string,
                       data: T, ttl: Option<int>, now: int): map<string, Stored<T>> {
    if available && !full then entries[skey := Envelope(data, now, now + LocalTtl(ttl))] else entries
  }

  /** What `get` returns for `skey` at `now`: nothing without `window`. */
  function GetResult<T>(entries: map<string, Stored<T>>, available: bool, skey: string, now: int): Option<T> {
    if available then ReadEntry(entries, skey, now) else None
  }

  /** The storage after `get` of `skey` at `now`. */
  function AfterGet<T>(entries: map<string, Stored<T>>, available: bool, skey: string, now: int): map<string, Stored<T>> {
    if available then AfterRead(entries, skey, now) else entries
  }

  /** The storage after `delete` of `skey`. */
  function AfterDelete<T>(entries: map<string, Stored<T>>, available: bool, skey: string): map<string, Stored<T>> {
    if available then entries - {skey} else entries
  }

  /** `cleanup` deletes a value under the prefix that does not parse or whose envelope has expired. */
  predicate Stale<T>(v: Stored<T>, now: int) {
    v.Corrupt? || (v.Envelope? && now > v.expiresAt)
  }

  /** The storage after `clear`: every key that starts with the bare prefix is gone. */
  function WithoutPrefixed<T>(entries: map<string, Stored<T>>, prefix: string): (r: map<string, Stored<T>>)
    ensures forall k :: k in r <==> k in entries && !StartsWith(k, prefix)
    ensures forall k :: k in r ==> r[k] == entries[k]
  {
    map k | k in entries && !StartsWith(k, prefix) :: entries[k]
  }

  /** The storage after `cleanup` at `now`. */
  function Swept<T>(entries: map<string, Stored<T>>, prefix: string, now: int): (r: map<string, Stored<T>>)
    ensures forall k :: k in r <==> k in entries && !(StartsWith(k, prefix) && Stale(entries[k], now))
    ensures forall k :: k in r ==> r[k] == entries[k]
  {
    map k | k in entries && !(StartsWith(k, prefix) && Stale(entries[k], now)) :: entries[k]
  }

  /** Part of `clear`: prefixed keys outside `pending` are already gone. */
  ghost function ClearedExcept<T>(entries: map<string, Stored<T>>, prefix: string, pending: set<string>): map<string, Stored<T>> {
    map k | k in entries && (k in pending || !StartsWith(k, prefix)) :: entries[k]
  }

  /** Part of `cleanup`: stale prefixed keys outside `pending` are already gone. */
  ghost function SweptExcept<T>(entries: map<string, Stored<T>>, prefix: string, now: int, pending: set<string>): map<string, Stored<T>> {
    map k | k in entries && (k in pending || !(StartsWith(k, prefix) && Stale(entries[k], now))) :: entries[k]
  }

  class Storage<T> {
    /** `typeof window !== 'undefined'` */
    const available: bool
    /** `setItem` throws (quota exceeded or storage disabled). */
    const full: bool
    var entries: map<string, Stored<T>>

    constructor (available: bool, full: bool, entries: map<string, Stored<T>>)
      ensures this.available == available && this.full == full && this.entries == entries
    {
      this.available := available;
      this.full := full;
      this.entries := entries;
    }
  }

  class LocalStorageCache<T> {
    const prefix: string
    const storage: Storage<T>

    /** `new LocalStorageCache(prefix?)`; an omitted prefix is `eco-tracker-cache`. */
    constructor (prefix: Option<string>, storage: Storage<T>)
      ensures this.prefix == prefix.GetOr(DefaultPrefix) && this.storage == storage
    {
      this.prefix := prefix.GetOr(DefaultPrefix);
      this.storage := storage;
    }

    method Set(key: string, data: T, ttl: Option<int>, now: int)
      modifies storage
      ensures storage.entries ==
        AfterSet(old(storage.entries), storage.available, storage.full, StorageKey(prefix, key), data, ttl, now)
    {
      if !storage.available {
        return;
      }
      var item := Envelope(data, now, now + LocalTtl(ttl));
      if !storage.full {
        storage.entries := storage.entries[StorageKey(prefix, key) := item];
      }
    }

    method Get(key: string, now: int) returns (r: Option<T>)
      modifies storage
      ensures r == GetResult(old(storage.entries), storage.available, StorageKey(prefix, key), now)
      ensures storage.entries == AfterGet(old(storage.entries), storage.available, StorageKey(prefix, key), now)
    {
      if !storage.available {
        return None;
      }
      var skey := StorageKey(prefix, key);
      if skey !in storage.entries {
        return None;
      }
      match storage.entries[skey]
      case Blank => return None;
      case Corrupt => return None;
      case Envelope(data, _, expiresAt) =>
        if now > expiresAt {
          storage.entries := storage.entries - {skey};
          return None;
        }
        return Some(data);
    }

    method Delete(key: string)
      modifies storage
      ensures storage.entries == AfterDelete(old(storage.entries), storage.available, StorageKey(prefix, key))
    {
      if !storage.available {
        return;
      }
      storage.entries := storage.entries - {StorageKey(prefix, key)};
    }

    /** Removes every key that starts with the prefix, visiting the keys in an unspecified order. */
    method Clear()
      modifies storage
      ensures storage.entries ==
        if storage.available then WithoutPrefixed(old(storage.entries), prefix) else old(storage.entries)
    {
      if !storage.available {
        return;
      }
      ghost var e0 := storage.entries;
      var keys := storage.entries.Keys;
      assert ClearedExcept(e0, prefix, keys) == e0;
      while keys != {}
        invariant keys <= e0.Keys
        invariant storage.entries == ClearedExcept(e0, prefix, keys)
        decreases |keys|
      {
        var key :| key in keys;
        if StartsWith(key, prefix) {
          storage.entries := storage.entries - {key};
        }
        keys := keys - {key};
      }
      assert ClearedExcept(e0, prefix, {}) == WithoutPrefixed(e0, prefix);
    }

    /** Removes every prefixed value that is corrupt or has expired at `now`. */
    method Cleanup(now: int)
      modifies storage
      ensures storage.entries ==
        if storage.available then Swept(old(storage.entries), prefix, now) else old(storage.entries)
    {
      if !storage.available {
        return;
      }
      ghost var e0 := storage.entries;
      var keys := storage.entries.Keys;
      assert SweptExcept(e0, prefix, now, keys) == e0;
      while keys != {}
        invariant keys <= e0.Keys
        invariant storage.entries == SweptExcept(e0, prefix, now, keys)
        decreases |keys|
      {
        var key :| key in keys;
        if StartsWith(key, prefix) {
          match storage.entries[key]
          case Blank =>
          case Corrupt =>
            storage.entries := storage.entries - {key};
          case Envelope(_, _, expiresAt) =>
            if now > expiresAt {
              storage.entries := storage.entries - {key};
            }
        }
        keys := keys - {key};
      }
      assert SweptExcept(e0, prefix, now, {}) == Swept(e0, prefix, now);
    }
  }

  // ---------------------------------------------------------------------------
  // Properties
  // ---------------------------------------------------------------------------

  /** A value written under a key reads back until its expiry, when the browser accepted the write. */
  lemma ReadAfterWrite<T>(entries: map<string, Stored<T>>, available: bool, full: bool, skey: string,
                          data: T, ttl: Option<int>, now: int, later: int)
    requires available && !full && later <= now + LocalTtl(ttl)
    ensures GetResult(AfterSet(entries, available, full, skey, data, ttl, now), available, skey, later) == Some(data)
    ensures AfterGet(AfterSet(entries, available, full, skey, data, ttl, now), available, skey, later)
         == AfterSet(entries, available, full, skey, data, ttl, now)
  {
  }

  /** A refused write leaves the storage as it was. */
  lemma RefusedWrite<T>(entries: map<string, Stored<T>>, available: bool, full: bool, skey: string,
                        data: T, ttl: Option<int>, now: int)
    requires !available || full
    ensures AfterSet(entries, available, full, skey, data, ttl, now) == entries
  {
  }

  /** Writing one key of a namespace leaves every other key of it as it read before. */
  lemma WriteIsolated<T>(entries: map<string, Stored<T>>, prefix: string, key: string, other: string, v: Stored<T>, now: int)
    requires key != other
    ensures ReadEntry(entries[StorageKey(prefix, key) := v], StorageKey(prefix, other), now)
         == ReadEntry(entries, StorageKey(prefix, other), now)
  {
    if StorageKey(prefix, key) == StorageKey(prefix, other) {
      StorageKeyInjective(prefix, key, other);
    }
  }

  /**
   * `clear` tests the bare prefix, not `${prefix}-`: clearing a namespace also
   * wipes every namespace whose prefix extends it (such as
   * `eco-tracker-cache2` for the default one).
   */
  lemma {:induction false} ClearReachesLongerPrefix<T>(entries: map<string, Stored<T>>, prefix: string, longer: string, key: string)
    requires StartsWith(longer, prefix)
    ensures StorageKey(longer, key) !in WithoutPrefixed(entries, prefix)
  {
    var k := StorageKey(longer, key);
    assert k[..|longer|] == longer;
    assert k[..|prefix|] == longer[..|prefix|];
  }

  /** `clear` and `cleanup` never touch a key outside the prefix. */
  lemma ForeignKeysSurvive<T>(entries: map<string, Stored<T>>, prefix: string, k: string, now: int)
    requires k in entries && !StartsWith(k, prefix)
    ensures k in WithoutPrefixed(entries, prefix) && k in Swept(entries, prefix, now)
  {
  }

  /** After `cleanup`, every value left under the prefix reads as a hit or is blank. */
  lemma SweptLeavesOnlyLive<T>(entries: map<string, Stored<T>>, prefix: string, now: int, k: string)
    requires k in Swept(entries, prefix, now) && StartsWith(k, prefix)
    ensures ReadEntry(Swept(entries, prefix, now), k, now).Some? || Swept(entries, prefix, now)[k].Blank?
  {
  }
}
