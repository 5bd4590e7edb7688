/**
 * `useCachedAirQuality` and `useCachedMeasurements` of
 * src/hooks/use-cached-air-quality.ts. Both hooks run the same callback
 * (`fetchData` and `fetchMeasurements`): unless forced, answer from
 * `localCache`; otherwise call the API, show its result and write
 * `{data, timestamp}` back to `localCache`. They differ only in the cache
 * key, the TTL and the error text, which a `Query` holds.
 *
 * The API call's outcome is a parameter (`Api.GetAirQualityByLocation` and
 * `Api.GetLatestMeasurements` model it); its value is `None` for the
 * `undefined` that `getLatestMeasurements` can resolve to. `now` is the clock
 * at the local-storage read and `later` the clock once the API call has
 * settled.
 */
module QueryHooks {
  import opened Base
  import opened LocalCache
  import CacheKey
  import MemCache
  import SettingsHook

  /**
   * What the hooks store in `localCache`: `{ data, timestamp }`, inside the
   * cache's own envelope. `data` is `None` for `undefined`, which
   * `getLatestMeasurements` resolves to for an answer without `results`;
   * `JSON.stringify` drops that field and the read-back object has none.
   */
  datatype Snapshot<E> = Snapshot(data: Option<seq<E>>, timestamp: int)

  /** The hook's React state (`data` is `None` for `undefined`); `lastUpdated` is the time in milliseconds of the `Date`. */
  datatype HookView<E> = HookView(data: Option<seq<E>>, loading: bool, error: Option<string>, lastUpdated: Option<int>)

  /** The hook state and the storage after one callback. */
  datatype Fetched<E> = Fetched(view: HookView<E>, entries: map<string, Stored<Snapshot<E>>>)

  /** A hook's fixed settings: its key (`None` without a location or parameter), TTL, error text and `enableLocalStorage`. */
  datatype Query = Query(key: Option<string>, ttl: int, errorText: string, enableLocalStorage: bool)

  const AirQualityHookTtl: int := 10 * MemCache.Minute
  const MeasurementsHookTtl: int := 5 * MemCache.Minute
  const DefaultHookLimit: int := 100
  const AirQualityError: string := "Ошибка при загрузке данных о качестве воздуха"
  const MeasurementsError: string := "Ошибка при загрузке измерений"

  /** `generateCacheKey('air-quality-hook', { lat, lng })`, given the text of the two numbers. */
  function AirQualityHookKey(latitude: string, longitude: string): (key: string)
    ensures StartsWith(key, "air-quality-hook:")
  {
    CacheKey.GenerateCacheKey("air-quality-hook", [("lat", latitude), ("lng", longitude)])
  }

  /** `generateCacheKey('measurements-hook', { parameter, limit })` */
  function MeasurementsHookKey(parameter: string, limit: int): (key: string)
    ensures StartsWith(key, "measurements-hook:")
  {
    CacheKey.GenerateCacheKey("measurements-hook", [("parameter", parameter), ("limit", IntToString(limit))])
  }

  /** The air-quality key renders `lat` then `lng`, the object's own order. */
  lemma AirQualityHookKeyShape(latitude: string, longitude: string)
    ensures AirQualityHookKey(latitude, longitude)
         == "air-quality-hook" + ":" + Join([CacheKey.RenderParam(("lat", latitude)), CacheKey.RenderParam(("lng", longitude))], "&")
  {
    var ps := [("lat", latitude), ("lng", longitude)];
    assert CacheKey.Below("lat", "lng");
    CacheKey.KeyIsSortedRendering("air-quality-hook", ps, ps);
  }

  /** The measurements key renders `limit` before `parameter`, against the object's own order. */
  lemma MeasurementsHookKeyShape(parameter: string, limit: int)
    ensures MeasurementsHookKey(parameter, limit)
         == "measurements-hook" + ":" + Join([CacheKey.RenderParam(("limit", IntToString(limit))), CacheKey.RenderParam(("parameter", parameter))], "&")
  {
    var ps := [("parameter", parameter), ("limit", IntToString(limit))];
    var sorted := [ps[1], ps[0]];
    assert CacheKey.SortedByName(sorted) by {
      assert CacheKey.Below("limit", "parameter");
    }
    assert multiset(sorted) == multiset(ps);
    CacheKey.KeyIsSortedRendering("measurements-hook", ps, sorted);
  }

  /**
   * One call of `fetchData(force)` / `fetchMeasurements(force)` from the state
   * `v` and the storage `entries`.
   */
  function FetchSpec<E>(v: HookView<E>, entries: map<string, Stored<Snapshot<E>>>, b: Browser, q: Query,
                        force: bool, fetched: Outcome<Option<seq<E>>>, now: int, later: int): (r: Fetched<E>)
    ensures q.key.Some? ==> !r.view.loading
    ensures q.key.None? ==> r == Fetched(v, entries)
  {
    if q.key.None? then Fetched(v, entries)
    else
      var skey := StorageKey(b.prefix, q.key.value);
      var consult := !force && q.enableLocalStorage;
      var e1 := if consult then AfterGet(entries, b.available, skey, now) else entries;
      var hit := if consult then GetResult(entries, b.available, skey, now) else None;
      if hit.Some? then Fetched(HookView(hit.value.data, false, None, Some(hit.value.timestamp)), e1)
      else
        match fetched
        case Threw(_) => Fetched(HookView(v.data, false, Some(q.errorText), v.lastUpdated), e1)
        case Returned(d) =>
          var e2 := if q.enableLocalStorage then AfterSet(e1, b.available, b.full, skey, Snapshot(d, later), Some(q.ttl), later) else e1;
          Fetched(HookView(d, false, None, Some(later)), e2)
  }

  class CachedQueryHook<E> {
    const query: Query
    /** `localCache` */
    const local: LocalStorageCache<Snapshot<E>>
    var data: Option<seq<E>>
    var loading: bool
    var error: Option<string>
    var lastUpdated: Option<int>

    function ViewOf(): HookView<E>
      reads this
    {
      HookView(data, loading, error, lastUpdated)
    }

    function Env(): Browser {
      Browser(local.storage.available, local.storage.full, local.prefix)
    }

    /**
     * `useCachedAirQuality(location, { enableLocalStorage })`; the location
     * is given as the text of its two numbers.
     */
    constructor ForLocation(location: Option<(string, string)>, enableLocalStorage: bool, local: LocalStorageCache<Snapshot<E>>)
      ensures query.key == (if location.Some? then Some(AirQualityHookKey(location.value.0, location.value.1)) else None)
      ensures query.ttl == AirQualityHookTtl && query.errorText == AirQualityError
      ensures query.enableLocalStorage == enableLocalStorage && this.local == local
      ensures ViewOf() == HookView(Some([]), false, None, None)
    {
      query := Query(if location.Some? then Some(AirQualityHookKey(location.value.0, location.value.1)) else None,
                     AirQualityHookTtl, AirQualityError, enableLocalStorage);
      this.local := local;
      data := Some([]);
      loading := false;
      error := None;
      lastUpdated := None;
    }

    /** `useCachedMeasurements(parameter, limit = 100, { enableLocalStorage })`; an empty parameter counts as none. */
    constructor ForParameter(parameter: Option<string>, limit: Option<int>, enableLocalStorage: bool,
                             local: LocalStorageCache<Snapshot<E>>)
      ensures query.key == (if parameter.Some? && parameter.value != ""
                            then Some(MeasurementsHookKey(parameter.value, limit.GetOr(DefaultHookLimit))) else None)
      ensures query.ttl == MeasurementsHookTtl && query.errorText == MeasurementsError
      ensures query.enableLocalStorage == enableLocalStorage && this.local == local
      ensures ViewOf() == HookView(Some([]), false, None, None)
    {
      query := Query(if parameter.Some? && parameter.value != ""
                     then Some(MeasurementsHookKey(parameter.value, limit.GetOr(DefaultHookLimit))) else None,
                     MeasurementsHookTtl, MeasurementsError, enableLocalStorage);
      this.local := local;
      data := Some([]);
      loading := false;
      error := None;
      lastUpdated := None;
    }

    /** `fetchData(force)` / `fetchMeasurements(force)` */
    method Fetch(force: bool, fetched: Outcome<Option<seq<E>>>, now: int, later: int)
      modifies this, local.storage
      ensures Fetched(ViewOf(), local.storage.entries)
           == FetchSpec(old(ViewOf()), old(local.storage.entries), Env(), query, force, fetched, now, later)
    {
      if query.key.None? {
        return;
      }
      var key := query.key.value;
      loading := true;
      error := None;
      if !force && query.enableLocalStorage {
        var cached := local.Get(key, now);
        if cached.Some? {
          data := cached.value.data;
          lastUpdated := Some(cached.value.timestamp);
          loading := false;
          return;
        }
      }
      match fetched {
        case Threw(_) =>
          error := Some(query.errorText);
        case Returned(d) =>
          data := d;
          lastUpdated := Some(later);
          if query.enableLocalStorage {
            local.Set(key, Snapshot(d, later), Some(query.ttl), later);
          }
      }
      loading := false;
    }

    /** `refresh()`: the callback with `force = true`. */
    method Refresh(fetched: Outcome<Option<seq<E>>>, now: int, later: int)
      modifies this, local.storage
      ensures Fetched(ViewOf(), local.storage.entries)
           == FetchSpec(old(ViewOf()), old(local.storage.entries), Env(), query, true, fetched, now, later)
    {
      Fetch(true, fetched, now, later);
    }
  }

  // ---------------------------------------------------------------------------
  // Properties
  // ---------------------------------------------------------------------------

  /** A local-storage hit (not forced, storage enabled) is shown and the API outcome is never used. */
  lemma LocalHitSkipsApi<E>(v: HookView<E>, entries: map<string, Stored<Snapshot<E>>>, b: Browser, q: Query,
                            fetched: Outcome<Option<seq<E>>>, other: Outcome<Option<seq<E>>>, now: int, later: int, snap: Snapshot<E>)
    requires q.key.Some? && q.enableLocalStorage
    requires GetResult(entries, b.available, StorageKey(b.prefix, q.key.value), now) == Some(snap)
    ensures var r := FetchSpec(v, entries, b, q, false, fetched, now, later);
      && r == Fetched(HookView(snap.data, false, None, Some(snap.timestamp)), entries)
      && r == FetchSpec(v, entries, b, q, false, other, now, later)
  {
  }

  /** `refresh` skips the local-storage read but still writes the fresh result back. */
  lemma RefreshWritesBack<E>(v: HookView<E>, entries: map<string, Stored<Snapshot<E>>>, b: Browser, q: Query,
                             d: Option<seq<E>>, now: int, later: int)
    requires q.key.Some? && q.enableLocalStorage
    ensures FetchSpec(v, entries, b, q, true, Returned(d), now, later)
         == Fetched(HookView(d, false, None, Some(later)),
                    AfterSet(entries, b.available, b.full, StorageKey(b.prefix, q.key.value), Snapshot(d, later), Some(q.ttl), later))
  {
  }

  /** With local storage disabled, `localCache` is neither read nor written. */
  lemma DisabledLeavesStorage<E>(v: HookView<E>, entries: map<string, Stored<Snapshot<E>>>, b: Browser, q: Query,
                                 force: bool, fetched: Outcome<Option<seq<E>>>, now: int, later: int)
    requires !q.enableLocalStorage
    ensures FetchSpec(v, entries, b, q, force, fetched, now, later).entries == entries
  {
  }

  /** A failed API call sets the error, keeps the data, and writes nothing. */
  lemma FailureWritesNothing<E>(v: HookView<E>, entries: map<string, Stored<Snapshot<E>>>, b: Browser, q: Query,
                                e: string, now: int, later: int)
    requires q.key.Some?
    requires GetResult(entries, b.available, StorageKey(b.prefix, q.key.value), now).None?
    ensures var r := FetchSpec(v, entries, b, q, false, Threw(e), now, later);
      && r.view == HookView(v.data, false, Some(q.errorText), v.lastUpdated)
      && r.entries == (if q.enableLocalStorage then AfterGet(entries, b.available, StorageKey(b.prefix, q.key.value), now) else entries)
      && (forall k :: k in r.entries ==> k in entries && r.entries[k] == entries[k])
  {
  }

  /**
   * A successful fetch followed, within the TTL, by a second unforced call:
   * the second call shows the same data with the first call's time and does
   * not use its API outcome.
   */
  lemma {:induction false} FetchThenHit<E>(v: HookView<E>, entries: map<string, Stored<Snapshot<E>>>, b: Browser, q: Query,
                                           force: bool, d: Option<seq<E>>, other: Outcome<Option<seq<E>>>, now: int, later: int,
                                           now2: int, later2: int)
    requires q.key.Some? && q.enableLocalStorage && b.available && !b.full
    requires force || GetResult(entries, b.available, StorageKey(b.prefix, q.key.value), now).None?
    requires now2 <= later + q.ttl
    ensures var r1 := FetchSpec(v, entries, b, q, force, Returned(d), now, later);
      var r2 := FetchSpec(r1.view, r1.entries, b, q, false, other, now2, later2);
      r2.view == HookView(d, false, None, Some(later)) && r2.entries == r1.entries
  {
    var skey := StorageKey(b.prefix, q.key.value);
    var e1 := if !force then AfterGet(entries, b.available, skey, now) else entries;
    ReadAfterWrite(e1, b.available, b.full, skey, Snapshot(d, later), Some(q.ttl), later, now2);
  }

  /** The three users of `localCache` (settings, air quality, measurements) never share a key. */
  lemma HookKeysDisjoint(userId: string, latitude: string, longitude: string, parameter: string, limit: int)
    ensures AirQualityHookKey(latitude, longitude) != MeasurementsHookKey(parameter, limit)
    ensures AirQualityHookKey(latitude, longitude) != SettingsHook.SettingsKey(userId)
    ensures MeasurementsHookKey(parameter, limit) != SettingsHook.SettingsKey(userId)
  {
    var a, m, u := AirQualityHookKey(latitude, longitude), MeasurementsHookKey(parameter, limit), SettingsHook.SettingsKey(userId);
    PrefixesApart(a, m, "air-quality-hook:", "measurements-hook:");
    PrefixesApart(a, u, "air-quality-hook:", "user-settings:");
    PrefixesApart(m, u, "measurements-hook:", "user-settings:");
  }

  /** Strings starting with prefixes whose first characters differ are different. */
  lemma PrefixesApart(a: string, b: string, pa: string, pb: string)
    requires StartsWith(a, pa) && StartsWith(b, pb)
    requires |pa| > 0 && |pb| > 0 && pa[0] != pb[0]
    ensures a != b
  {
    assert a[0] == pa[0] && b[0] == pb[0];
  }
}
