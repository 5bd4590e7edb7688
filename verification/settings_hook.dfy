/**
 * `useCachedSettings` of src/hooks/use-cached-settings.ts: a user's settings
 * kept in two cache tiers, the shared `userSettingsCache` (a `MemoryCache`,
 * 30-minute TTL, 20 items) and the shared `localCache` (a
 * `LocalStorageCache`), in front of the settings endpoint of the server.
 *
 * The hook's React state (`settings`, `loading`, `error`) is a class whose
 * methods are the hook's callbacks. The server's answers are parameters:
 * `LoadReply` for the GET and `SaveReply` for the POST. `now` is the clock
 * before the server call and `later` the clock after it settles.
 */
module SettingsHook {
  import opened Base
  import opened MemCache
  import opened LocalCache
  import CacheKey

  /** `UserSettings` */
  datatype Settings = Settings(
    notificationsEmail: bool,
    notificationsPush: bool,
    notificationFrequency: string,
    defaultLocation: string,
    thresholds: map<string, real>)

  /** `Partial<UserSettings>`: `None` for a field the object does not have. */
  datatype SettingsPatch = SettingsPatch(
    notificationsEmail: Option<bool>,
    notificationsPush: Option<bool>,
    notificationFrequency: Option<string>,
    defaultLocation: Option<string>,
    thresholds: Option<map<string, real>>)

  const NoChange: SettingsPatch := SettingsPatch(None, None, None, None, None)

  /** `DEFAULT_SETTINGS` */
  const DefaultSettings: Settings := Settings(true, false, "daily", "moscow",
    map["co2" := 1000.0, "pm25" := 35.0, "pm10" := 50.0, "voc" := 100.0, "temperature" := 30.0,
        "humidity" := 70.0, "pressure" := 1030.0, "o3" := 70.0, "no2" := 100.0, "so2" := 75.0])

  /** The TTL passed to `localCache.set`. */
  const SettingsTtl: int := 30 * Minute
  const LoadError: string := "Ошибка при загрузке настроек"
  const SaveError: string := "Ошибка при сохранении настроек"

  /** What the GET of the settings endpoint gives: a failure (network, non-OK status or bad JSON), or the body's `data`. */
  datatype LoadReply = LoadFailed | LoadOk(data: Option<Settings>)

  /** What the POST of the settings endpoint gives: a failure, or the body's `data`. */
  datatype SaveReply = SaveFailed | SaveOk(data: Settings)

  /** Both tiers: the memory cache's contents and the local storage's entries. */
  datatype Tiers = Tiers(memory: MapState<Settings>, local: map<string, Stored<Settings>>)

  /** The hook's React state. */
  datatype View = View(settings: Settings, loading: bool, error: Option<string>)

  datatype Step = Step(tiers: Tiers, view: View)

  /** `getCacheKey(userId)` */
  function SettingsKey(userId: string): (key: string)
    ensures StartsWith(key, "user-settings:")
    ensures key == "user-settings:userId=" + userId
  {
    CacheKey.KeyIsSortedRendering("user-settings", [("userId", userId)], [("userId", userId)]);
    CacheKey.GenerateCacheKey("user-settings", [("userId", userId)])
  }

  /** `{ ...settings, ...newSettings }`: supplied fields override, the others are kept. */
  function Merge(s: Settings, patch: SettingsPatch): (r: Settings)
    ensures patch.notificationsEmail.Some? ==> r.notificationsEmail == patch.notificationsEmail.value
    ensures patch.notificationsPush.Some? ==> r.notificationsPush == patch.notificationsPush.value
    ensures patch.notificationFrequency.Some? ==> r.notificationFrequency == patch.notificationFrequency.value
    ensures patch.defaultLocation.Some? ==> r.defaultLocation == patch.defaultLocation.value
    ensures patch.thresholds.Some? ==> r.thresholds == patch.thresholds.value
    ensures patch == NoChange ==> r == s
  {
    Settings(
      patch.notificationsEmail.GetOr(s.notificationsEmail),
      patch.notificationsPush.GetOr(s.notificationsPush),
      patch.notificationFrequency.GetOr(s.notificationFrequency),
      patch.defaultLocation.GetOr(s.defaultLocation),
      patch.thresholds.GetOr(s.thresholds))
  }

  /** The patch `updateThreshold(parameter, value)` saves: `{ thresholds: { ...settings.thresholds, [parameter]: value } }`. */
  function ThresholdPatch(s: Settings, parameter: string, value: real): SettingsPatch {
    SettingsPatch(None, None, None, None, Some(s.thresholds[parameter := value]))
  }

  /** `loadSettings`, for the signed-in user `user` (`None` when not authenticated or no user). */
  ghost function LoadSpec(t: Tiers, b: Browser, user: Option<string>, v: View, reply: LoadReply,
                          now: int, later: int): (r: Step)
    ensures !r.view.loading
    ensures WellFormed(t.memory) ==> WellFormed(r.tiers.memory)
  {
    if user.None? then Step(t, View(DefaultSettings, false, v.error))
    else
      var key := SettingsKey(user.value);
      var skey := StorageKey(b.prefix, key);
      var m1 := ReadSpec(t.memory, key, now);
      var hit := Lookup(t.memory.items, key, now);
      if hit.Some? then Step(Tiers(m1, t.local), View(hit.value, false, v.error))
      else
        var l1 := AfterGet(t.local, b.available, skey, now);
        var stored := GetResult(t.local, b.available, skey, now);
        if stored.Some? then
          Step(Tiers(SetSpec(m1, UserSettingsConfig, key, stored.value, None, now), l1), View(stored.value, false, v.error))
        else
          match reply
          case LoadFailed => Step(Tiers(m1, l1), View(DefaultSettings, false, Some(LoadError)))
          case LoadOk(data) =>
            var s := data.GetOr(DefaultSettings);
            Step(Tiers(SetSpec(m1, UserSettingsConfig, key, s, None, later),
                       AfterSet(l1, b.available, b.full, skey, s, Some(SettingsTtl), later)),
                 View(s, false, None))
  }

  /** Both tiers after the optimistic write of `updated` at `now`. */
  ghost function Optimistic(t: Tiers, b: Browser, key: string, updated: Settings, now: int): Tiers {
    Tiers(SetSpec(t.memory, UserSettingsConfig, key, updated, None, now),
          AfterSet(t.local, b.available, b.full, StorageKey(b.prefix, key), updated, Some(SettingsTtl), now))
  }

  /**
   * `saveSettings(newSettings)`: the optimistic write at `now`, the server's
   * answer at `later`, and on failure the "rollback" `loadSettings` with the
   * reply `rollback`, reading at `later` and writing at `after`.
   */
  ghost function SaveSpec(t: Tiers, b: Browser, user: Option<string>, v: View, patch: SettingsPatch,
                          reply: SaveReply, rollback: LoadReply, now: int, later: int, after: int): (r: (Step, bool))
    ensures user.None? ==> r == (Step(t, v), false)
    ensures user.Some? ==> !r.0.view.loading && (r.1 <==> reply.SaveOk?)
    ensures WellFormed(t.memory) ==> WellFormed(r.0.tiers.memory)
  {
    if user.None? then (Step(t, v), false)
    else
      var key := SettingsKey(user.value);
      var updated := Merge(v.settings, patch);
      var t1 := Optimistic(t, b, key, updated, now);
      match reply
      case SaveOk(s) =>
        (Step(Optimistic(t1, b, key, s, later), View(s, false, None)), true)
      case SaveFailed =>
        var r := LoadSpec(t1, b, user, View(updated, true, Some(SaveError)), rollback, later, after);
        (Step(r.tiers, View(r.view.settings, false, r.view.error)), false)
  }

  class SettingsHook {
    const authenticated: bool
    /** `user?.id` */
    const user: Option<string>
    /** `userSettingsCache` */
    const memory: MemoryCache<Settings>
    /** `localCache` */
    const local: LocalStorageCache<Settings>
    var settings: Settings
    var loading: bool
    var error: Option<string>

    /** `isAuthenticated && user`: the user whose settings are loaded and saved. */
    function SignedIn(): Option<string> {
      if authenticated then user else None
    }

    function Env(): Browser {
      Browser(local.storage.available, local.storage.full, local.prefix)
    }

    function TiersOf(): Tiers
      reads memory, local.storage
    {
      Tiers(memory.State(), local.storage.entries)
    }

    function ViewOf(): View
      reads this
    {
      View(settings, loading, error)
    }

    ghost predicate Valid()
      reads this, memory
    {
      memory.Valid() && memory.config == UserSettingsConfig
    }

    /** The hook's first render: default settings, loading. */
    constructor (authenticated: bool, user: Option<string>, memory: MemoryCache<Settings>, local: LocalStorageCache<Settings>)
      requires memory.Valid() && memory.config == UserSettingsConfig
      ensures Valid()
      ensures this.authenticated == authenticated && this.user == user
      ensures this.memory == memory && this.local == local
      ensures ViewOf() == View(DefaultSettings, true, None)
    {
      this.authenticated := authenticated;
      this.user := user;
      this.memory := memory;
      this.local := local;
      settings := DefaultSettings;
      loading := true;
      error := None;
    }

    /** `loadSettings()` */
    method Load(reply: LoadReply, now: int, later: int)
      requires Valid()
      modifies this, memory, local.storage
      ensures Valid()
      ensures Step(TiersOf(), ViewOf()) == LoadSpec(old(TiersOf()), Env(), SignedIn(), old(ViewOf()), reply, now, later)
    {
      if SignedIn().None? {
        settings := DefaultSettings;
        loading := false;
        return;
      }
      var key := SettingsKey(SignedIn().value);
      var cached := memory.Get(key, now);
      if cached.Some? {
        settings := cached.value;
        loading := false;
        return;
      }
      cached := local.Get(key, now);
      if cached.Some? {
        settings := cached.value;
        memory.Set(key, cached.value, None, now);
        loading := false;
        return;
      }
      match reply {
        case LoadFailed =>
          error := Some(LoadError);
          settings := DefaultSettings;
        case LoadOk(data) =>
          var s := data.GetOr(DefaultSettings);
          memory.Set(key, s, None, later);
          local.Set(key, s, Some(SettingsTtl), later);
          settings := s;
          error := None;
      }
      loading := false;
    }

    /** `userSettingsCache.set(key, value)` then `localCache.set(key, value, 30 * 60 * 1000)`. */
    method WriteBoth(key: string, value: Settings, now: int)
      requires Valid()
      modifies memory, local.storage
      ensures Valid()
      ensures TiersOf() == Optimistic(old(TiersOf()), Env(), key, value, now)
    {
      memory.Set(key, value, None, now);
      local.Set(key, value, Some(SettingsTtl), now);
    }

    /** `saveSettings(newSettings)`; `ok` is the promise's value. */
    method Save(patch: SettingsPatch, reply: SaveReply, rollback: LoadReply, now: int, later: int, after: int)
        returns (ok: bool)
      requires Valid()
      modifies this, memory, local.storage
      ensures Valid()
      ensures (Step(TiersOf(), ViewOf()), ok)
           == SaveSpec(old(TiersOf()), Env(), SignedIn(), old(ViewOf()), patch, reply, rollback, now, later, after)
    {
      if SignedIn().None? {
        return false;
      }
      var key := SettingsKey(SignedIn().value);
      var updated := Merge(settings, patch);
      loading := true;
      settings := updated;
      WriteBoth(key, updated, now);
      match reply {
        case SaveOk(s) =>
          settings := s;
          WriteBoth(key, s, later);
          error := None;
          ok := true;
        case SaveFailed =>
          error := Some(SaveError);
          Load(rollback, later, after);
          ok := false;
      }
      loading := false;
    }

    /** `updateThreshold(parameter, value)` */
    method UpdateThreshold(parameter: string, value: real, reply: SaveReply, rollback: LoadReply,
                           now: int, later: int, after: int) returns (ok: bool)
      requires Valid()
      modifies this, memory, local.storage
      ensures Valid()
      ensures (Step(TiersOf(), ViewOf()), ok)
           == SaveSpec(old(TiersOf()), Env(), SignedIn(), old(ViewOf()), ThresholdPatch(old(settings), parameter, value),
                       reply, rollback, now, later, after)
    {
      ok := Save(ThresholdPatch(settings, parameter, value), reply, rollback, now, later, after);
    }

    /** `clearSettingsCache()`: needs only a user, not an authenticated session. */
    method ClearSettingsCache()
      requires Valid()
      modifies memory, local.storage
      ensures Valid()
      ensures user.None? ==> TiersOf() == old(TiersOf())
      ensures user.Some? ==> TiersOf() == Tiers(Remove(old(memory.State()), SettingsKey(user.value)),
        AfterDelete(old(local.storage.entries), local.storage.available, StorageKey(local.prefix, SettingsKey(user.value))))
    {
      if user.None? {
        return;
      }
      var key := SettingsKey(user.value);
      var _ := memory.Delete(key);
      local.Delete(key);
    }
  }

  // ---------------------------------------------------------------------------
  // Properties
  // ---------------------------------------------------------------------------

  /** Keys of different users differ. */
  lemma SettingsKeyInjective(a: string, b: string)
    requires SettingsKey(a) == SettingsKey(b)
    ensures a == b
  {
    var n := |"user-settings:userId="|;
    assert a == SettingsKey(a)[n..];
    assert b == SettingsKey(b)[n..];
  }

  /** Supplied fields override, the others are kept. */
  lemma MergeOverrides(s: Settings, patch: SettingsPatch)
    ensures var r := Merge(s, patch);
      && (patch.notificationsEmail.Some? ==> r.notificationsEmail == patch.notificationsEmail.value)
      && (patch.notificationsEmail.None? ==> r.notificationsEmail == s.notificationsEmail)
      && (patch.thresholds.Some? ==> r.thresholds == patch.thresholds.value)
      && (patch.thresholds.None? ==> r.thresholds == s.thresholds)
      && (patch.defaultLocation.None? ==> r.defaultLocation == s.defaultLocation)
  {
  }

  /** An empty patch changes nothing, and applying a patch twice is applying it once. */
  lemma MergeLaws(s: Settings, patch: SettingsPatch)
    ensures Merge(s, NoChange) == s
    ensures Merge(Merge(s, patch), patch) == Merge(s, patch)
  {
  }

  /** `updateThreshold` changes only `thresholds[parameter]`. */
  lemma ThresholdUpdateIsolated(s: Settings, parameter: string, value: real)
    ensures var r := Merge(s, ThresholdPatch(s, parameter, value));
      && r.thresholds[parameter] == value
      && (forall q :: q in s.thresholds && q != parameter ==> q in r.thresholds && r.thresholds[q] == s.thresholds[q])
      && r.thresholds.Keys == s.thresholds.Keys + {parameter}
      && r == s.(thresholds := r.thresholds)
  {
  }

  /** Without a signed-in user, `loadSettings` sets the defaults and touches no tier. */
  lemma SignedOutLoad(t: Tiers, b: Browser, v: View, reply: LoadReply, now: int, later: int)
    ensures LoadSpec(t, b, None, v, reply, now, later) == Step(t, View(DefaultSettings, false, v.error))
  {
  }

  /** A memory hit wins: the value is shown, local storage and the server are not consulted. */
  lemma MemoryHitFirst(t: Tiers, b: Browser, userId: string, v: View, reply: LoadReply, other: LoadReply,
                       now: int, later: int, s: Settings)
    requires Lookup(t.memory.items, SettingsKey(userId), now) == Some(s)
    ensures var r := LoadSpec(t, b, Some(userId), v, reply, now, later);
      && r.view.settings == s
      && r.tiers.local == t.local
      && r == LoadSpec(t, b, Some(userId), v, other, now, later)
  {
  }

  /** On a memory miss, a local-storage hit is shown and promoted to the memory tier; the server is not consulted. */
  lemma LocalHitPromoted(t: Tiers, b: Browser, userId: string, v: View, reply: LoadReply, other: LoadReply,
                         now: int, later: int, s: Settings)
    requires Lookup(t.memory.items, SettingsKey(userId), now).None?
    requires GetResult(t.local, b.available, StorageKey(b.prefix, SettingsKey(userId)), now) == Some(s)
    ensures var r := LoadSpec(t, b, Some(userId), v, reply, now, later);
      && r.view.settings == s
      && Lookup(r.tiers.memory.items, SettingsKey(userId), now) == Some(s)
      && r == LoadSpec(t, b, Some(userId), v, other, now, later)
  {
    GetAfterSet(ReadSpec(t.memory, SettingsKey(userId), now), UserSettingsConfig, SettingsKey(userId), s, None, now, now);
  }

  /** On a double miss the server's settings (or the defaults) are shown and written to both tiers. */
  lemma ServerResultCached(t: Tiers, b: Browser, userId: string, v: View, data: Option<Settings>,
                           now: int, later: int, t2: int)
    requires Lookup(t.memory.items, SettingsKey(userId), now).None?
    requires GetResult(t.local, b.available, StorageKey(b.prefix, SettingsKey(userId)), now).None?
    requires b.available && !b.full && later <= t2 <= later + SettingsTtl
    ensures var r := LoadSpec(t, b, Some(userId), v, LoadOk(data), now, later);
      var s := data.GetOr(DefaultSettings);
      && r.view == View(s, false, None)
      && Lookup(r.tiers.memory.items, SettingsKey(userId), t2) == Some(s)
      && GetResult(r.tiers.local, b.available, StorageKey(b.prefix, SettingsKey(userId)), t2) == Some(s)
  {
    var key := SettingsKey(userId);
    var s := data.GetOr(DefaultSettings);
    GetAfterSet(ReadSpec(t.memory, key, now), UserSettingsConfig, key, s, None, later, t2);
    ReadAfterWrite(AfterGet(t.local, b.available, StorageKey(b.prefix, key), now), b.available, b.full,
                   StorageKey(b.prefix, key), s, Some(SettingsTtl), later, t2);
  }

  /** A failed server load shows the defaults with an error and writes nothing to either tier. */
  lemma FailedLoadWritesNothing(t: Tiers, b: Browser, userId: string, v: View, now: int, later: int)
    requires Lookup(t.memory.items, SettingsKey(userId), now).None?
    requires GetResult(t.local, b.available, StorageKey(b.prefix, SettingsKey(userId)), now).None?
    ensures var key := SettingsKey(userId);
      LoadSpec(t, b, Some(userId), v, LoadFailed, now, later)
        == Step(Tiers(ReadSpec(t.memory, key, now), AfterGet(t.local, b.available, StorageKey(b.prefix, key), now)),
                View(DefaultSettings, false, Some(LoadError)))
  {
  }

  /** Without a signed-in user, `saveSettings` answers `false` and changes nothing. */
  lemma SignedOutSave(t: Tiers, b: Browser, v: View, patch: SettingsPatch, reply: SaveReply, rollback: LoadReply,
                      now: int, later: int, after: int)
    ensures SaveSpec(t, b, None, v, patch, reply, rollback, now, later, after) == (Step(t, v), false)
  {
  }

  /** A successful save shows the server's settings and leaves them in both tiers. */
  lemma SaveStoresServerValue(t: Tiers, b: Browser, userId: string, v: View, patch: SettingsPatch, s: Settings,
                              rollback: LoadReply, now: int, later: int, after: int, t2: int)
    requires b.available && !b.full && later <= t2 <= later + SettingsTtl
    ensures var r := SaveSpec(t, b, Some(userId), v, patch, SaveOk(s), rollback, now, later, after);
      && r.1
      && r.0.view == View(s, false, None)
      && Lookup(r.0.tiers.memory.items, SettingsKey(userId), t2) == Some(s)
      && GetResult(r.0.tiers.local, b.available, StorageKey(b.prefix, SettingsKey(userId)), t2) == Some(s)
  {
    var key := SettingsKey(userId);
    var t1 := Optimistic(t, b, key, Merge(v.settings, patch), now);
    GetAfterSet(t1.memory, UserSettingsConfig, key, s, None, later, t2);
    ReadAfterWrite(t1.local, b.available, b.full, StorageKey(b.prefix, key), s, Some(SettingsTtl), later, t2);
  }

  /**
   * A failed save does not roll back: the "rollback" load finds the
   * optimistic value in the memory tier, so the hook ends showing the
   * unsaved settings, with the save error, and answers `false`.
   */
  lemma {:induction false} FailedSaveKeepsOptimistic(t: Tiers, b: Browser, userId: string, v: View, patch: SettingsPatch,
                                                     rollback: LoadReply, now: int, later: int, after: int)
    requires now <= later <= now + SettingsTtl
    ensures var r := SaveSpec(t, b, Some(userId), v, patch, SaveFailed, rollback, now, later, after);
      && !r.1
      && r.0.view == View(Merge(v.settings, patch), false, Some(SaveError))
  {
    var key := SettingsKey(userId);
    var updated := Merge(v.settings, patch);
    var t1 := Optimistic(t, b, key, updated, now);
    GetAfterSet(t.memory, UserSettingsConfig, key, updated, None, now, later);
    MemoryHitFirst(t1, b, userId, View(updated, true, Some(SaveError)), rollback, rollback, later, after, updated);
  }

  /** `clearSettingsCache` removes only the user's key: every other key reads as before in both tiers. */
  lemma ClearOnlyUsersKey(t: Tiers, b: Browser, userId: string, otherKey: string, now: int)
    requires otherKey != SettingsKey(userId)
    ensures Lookup(Remove(t.memory, SettingsKey(userId)).items, otherKey, now) == Lookup(t.memory.items, otherKey, now)
    ensures GetResult(AfterDelete(t.local, b.available, StorageKey(b.prefix, SettingsKey(userId))), b.available,
                      StorageKey(b.prefix, otherKey), now)
         == GetResult(t.local, b.available, StorageKey(b.prefix, otherKey), now)
  {
    if StorageKey(b.prefix, otherKey) == StorageKey(b.prefix, SettingsKey(userId)) {
      StorageKeyInjective(b.prefix, otherKey, SettingsKey(userId));
    }
  }
}
