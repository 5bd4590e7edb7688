/**
 * `withCache(fn, cache, keyGenerator, ttl)` of src/lib/cache.ts: an async
 * wrapper that answers from a `MemoryCache` when it holds a non-null value
 * under the generated key, and otherwise awaits `fn`, stores what it
 * resolves to, and returns it. A rejection of `fn` passes through and is not
 * stored.
 *
 * The wrapped call is one sequential invocation: the key is already
 * generated, `fn`'s outcome is a parameter (used only when `fn` is invoked),
 * `now` is the clock at the cache read and `later` the clock after `fn`
 * settles. Cached values are `Option<R>`, `None` standing for `null`.
 */
module Memoize {
  import opened Base
  import opened MemCache

  /** The cache contents after one wrapped call, what the call returned or threw, and whether `fn` ran. */
  datatype Call<R> = Call(state: MapState<Option<R>>, result: Outcome<Option<R>>, invoked: bool)

  /** `cache.get(key) !== null` at `now`: a present, unexpired, non-null value. */
  predicate Cached<R>(items: map<string, CacheItem<Option<R>>>, key: string, now: int) {
    var hit := Lookup(items, key, now);
    hit.Some? && hit.value.Some?
  }

  /** One call of the wrapped function. */
  ghost function Memoized<R>(s: MapState<Option<R>>, config: CacheConfig, key: string, ttl: Option<int>,
                             call: Outcome<Option<R>>, now: int, later: int): (c: Call<R>)
    ensures WellFormed(s) ==> WellFormed(c.state)
    ensures c.invoked <==> !Cached(s.items, key, now)
    ensures !c.invoked ==> c.state == s && c.result.Returned? && c.result.value.Some?
  {
    var s1 := ReadSpec(s, key, now);
    if Cached(s.items, key, now) then
      Call(s1, Returned(Lookup(s.items, key, now).value), false)
    else
      match call
      case Returned(v) => Call(SetSpec(s1, config, key, v, ttl, later), call, true)
      case Threw(_) => Call(s1, call, true)
  }

  method WithCache<R>(cache: MemoryCache<Option<R>>, key: string, ttl: Option<int>,
                      call: Outcome<Option<R>>, now: int, later: int)
      returns (result: Outcome<Option<R>>, invoked: bool)
    requires cache.Valid()
    modifies cache
    ensures cache.Valid()
    ensures Call(cache.State(), result, invoked) == Memoized(old(cache.State()), cache.config, key, ttl, call, now, later)
  {
    var cached := cache.Get(key, now);
    if cached.Some? && cached.value.Some? {
      return Returned(cached.value), false;
    }
    invoked := true;
    match call {
      case Returned(v) =>
        cache.Set(key, v, ttl, later);
        result := call;
      case Threw(e) =>
        result := Threw(e);
    }
  }

  /**
   * `withCache` around an `fn` that resolves to the non-null value `v`: on a
   * miss the wrapper returns `v` and the key serves it at `later`; on a hit
   * it returns the value read at `now` and leaves the cache as it was.
   */
  method WithResolved<R>(cache: MemoryCache<Option<R>>, key: string, ttl: Option<int>, v: R, now: int, later: int)
      returns (result: Outcome<Option<R>>, invoked: bool)
    requires cache.Valid() && EffectiveTtl(ttl, cache.config.ttl) >= 0
    modifies cache
    ensures cache.Valid() && result.Returned? && result.value.Some?
    ensures invoked <==> !Cached(old(cache.items), key, now)
    ensures invoked ==> result == Returned(Some(v)) && Lookup(cache.items, key, later) == Some(Some(v))
    ensures !invoked ==> cache.State() == old(cache.State()) && Lookup(old(cache.items), key, now) == Some(result.value)
  {
    ghost var s0 := cache.State();
    result, invoked := WithCache(cache, key, ttl, Returned(Some(v)), now, later);
    ResolvedCall(s0, cache.config, key, ttl, v, now, later, cache.State(), result, invoked);
  }

  // ---------------------------------------------------------------------------
  // Properties
  // ---------------------------------------------------------------------------

  /** A hit returns the cached value, does not invoke `fn`, and changes nothing. */
  lemma HitSkipsCall<R>(s: MapState<Option<R>>, config: CacheConfig, key: string, ttl: Option<int>,
                        call: Outcome<Option<R>>, now: int, later: int, v: R)
    requires Lookup(s.items, key, now) == Some(Some(v))
    ensures var c := Memoized(s, config, key, ttl, call, now, later);
      !c.invoked && c.result == Returned(Some(v)) && c.state == s
  {
  }

  /** A miss invokes `fn` exactly once and returns its outcome unchanged. */
  lemma MissInvokes<R>(s: MapState<Option<R>>, config: CacheConfig, key: string, ttl: Option<int>,
                       call: Outcome<Option<R>>, now: int, later: int)
    requires !Cached(s.items, key, now)
    ensures var c := Memoized(s, config, key, ttl, call, now, later);
      c.invoked && c.result == call
  {
  }

  /** A stored `null` is read as a miss: `fn` runs again. */
  lemma StoredNullIsMiss<R>(s: MapState<Option<R>>, config: CacheConfig, key: string, ttl: Option<int>,
                            call: Outcome<Option<R>>, now: int, later: int)
    requires Lookup(s.items, key, now) == Some(None)
    ensures Memoized(s, config, key, ttl, call, now, later).invoked
  {
  }

  /** A resolved value is stored and served until its TTL runs out. */
  lemma ResultStored<R>(s: MapState<Option<R>>, config: CacheConfig, key: string, ttl: Option<int>,
                        v: Option<R>, now: int, later: int, t: int)
    requires !Cached(s.items, key, now)
    requires later <= t <= later + EffectiveTtl(ttl, config.ttl)
    ensures Lookup(Memoized(s, config, key, ttl, Returned(v), now, later).state.items, key, t) == Some(v)
  {
    GetAfterSet(ReadSpec(s, key, now), config, key, v, ttl, later, t);
  }

  /**
   * A call whose `fn` resolves to a non-null value `v`: when `fn` ran, the
   * wrapper returns `v` and the key serves `v` at `later`; when it hit, it
   * returns the value read at `now` and the cache is as it was.
   */
  lemma ResolvedCached<R>(s: MapState<Option<R>>, config: CacheConfig, key: string, ttl: Option<int>,
                          v: R, now: int, later: int)
    requires EffectiveTtl(ttl, config.ttl) >= 0
    ensures var c := Memoized(s, config, key, ttl, Returned(Some(v)), now, later);
      && (c.invoked ==> c.result == Returned(Some(v)) && Lookup(c.state.items, key, later) == Some(Some(v)))
      && (!c.invoked ==> c.state == s && c.result == Returned(Lookup(s.items, key, now).value) && c.result.value.Some?)
  {
    if !Cached(s.items, key, now) {
      ResultStored(s, config, key, ttl, Some(v), now, later, later);
    }
  }

  /** `ResolvedCached`, read off a wrapped call whose outcome is known to be that of `Memoized`. */
  lemma ResolvedCall<R>(s: MapState<Option<R>>, config: CacheConfig, key: string, ttl: Option<int>,
                        v: R, now: int, later: int, after: MapState<Option<R>>, result: Outcome<Option<R>>, invoked: bool)
    requires EffectiveTtl(ttl, config.ttl) >= 0
    requires Call(after, result, invoked) == Memoized(s, config, key, ttl, Returned(Some(v)), now, later)
    ensures invoked <==> !Cached(s.items, key, now)
    ensures invoked ==> result == Returned(Some(v)) && Lookup(after.items, key, later) == Some(Some(v))
    ensures !invoked ==> after == s && result.Returned? && Lookup(s.items, key, now) == Some(result.value)
  {
    ResolvedCached(s, config, key, ttl, v, now, later);
  }

  /**
   * A rejection is not cached: only the read's lazy expiry changes the
   * cache, and from `now` on the key still holds no non-null value.
   */
  lemma FailureNotCached<R>(s: MapState<Option<R>>, config: CacheConfig, key: string, ttl: Option<int>,
                            error: string, now: int, later: int, t: int)
    requires !Cached(s.items, key, now) && t >= now
    ensures var c := Memoized(s, config, key, ttl, Threw(error), now, later);
      c.state == ReadSpec(s, key, now) && !Cached(c.state.items, key, t)
  {
  }

  /**
   * A call that throws, then one that succeeds, then a third call within the
   * TTL: the first two invoke `fn`, the third is served from the cache.
   */
  lemma {:induction false} FailThenSucceed<R>(s: MapState<Option<R>>, config: CacheConfig, key: string, ttl: Option<int>,
                                              error: string, v: R, other: Outcome<Option<R>>, t1: int, t2: int, t3: int)
    requires !Cached(s.items, key, t1)
    requires t1 <= t2 <= t3 <= t2 + EffectiveTtl(ttl, config.ttl)
    ensures var c1 := Memoized(s, config, key, ttl, Threw(error), t1, t1);
      var c2 := Memoized(c1.state, config, key, ttl, Returned(Some(v)), t2, t2);
      var c3 := Memoized(c2.state, config, key, ttl, other, t3, t3);
      c1.invoked && c1.result == Threw(error)
      && c2.invoked && c2.result == Returned(Some(v))
      && !c3.invoked && c3.result == Returned(Some(v))
  {
    var c1 := Memoized(s, config, key, ttl, Threw(error), t1, t1);
    FailureNotCached(s, config, key, ttl, error, t1, t1, t2);
    var c2 := Memoized(c1.state, config, key, ttl, Returned(Some(v)), t2, t2);
    ResultStored(c1.state, config, key, ttl, Some(v), t2, t2, t3);
    HitSkipsCall(c2.state, config, key, ttl, other, t3, t3, v);
  }
}
