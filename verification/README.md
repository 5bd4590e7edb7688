# eco-tracker caching core, modelled in Dafny

eco-tracker is a Next.js dashboard for air quality. Its data layer has four parts.

- **`src/lib/cache.ts`** provides:
  - an in-memory `MemoryCache` with TTL expiry, capacity eviction of the oldest item, a sweep and statistics;
  - a `LocalStorageCache` that keeps JSON envelopes under `${prefix}-${key}` in the browser's storage;
  - the key builder `generateCacheKey`;
  - the memoising wrapper `withCache`.
- **`src/lib/air-quality-utils.ts`** sorts a reading into one of six ordered categories, using the threshold table of `src/lib/api.ts`. It also computes an overall index.
- **`src/lib/api.ts`** wraps two OpenAQ fetchers in `withCache`. Any failure of a fetcher falls back to demo data.
- **`src/lib/export-utils.ts`** turns report rows into export records and CSV text.

Two React hooks put these together:

- `useCachedSettings`: memory cache → local storage → server, an optimistic save, and a rollback.
- `useCachedAirQuality` / `useCachedMeasurements`: local storage unless forced, then the API, then a write-back.

## How the model is built

- Clocks are explicit parameters:
  - `now` is the clock at a call;
  - `later` (and `after`) are the clock once an awaited request has settled.
- Server replies and API outcomes are parameters.
- `MemoryCache` is a class whose `items` map and `order` sequence (the `Map`'s insertion order) its methods update. Each method is proved against a specification function of the old state: `SetSpec`, `ReadSpec`, `EvictSpec`, `SweepSpec`.
- The loops of `cleanup`, `evictOldest` and `getStats` are `while` loops with invariants.
- `localStorage` is a `Storage` class that all `LocalStorageCache` instances share. A stored value is one of:
  - an envelope that parses;
  - the empty string;
  - text that does not parse.
- The hooks are classes whose fields are the React state. Their callbacks are methods. The methods are specified by the functions `LoadSpec`, `SaveSpec` and `FetchSpec`.
- JavaScript numbers that are only compared become `real`. Integers that are rendered into keys go through `IntToString`. Coordinates reach a key as the text `${latitude}` renders.

The model reproduces these behaviours of the code, which a reader might not expect:

- A corrupt `localStorage` entry is a miss for `get` but is not removed by it. Only `cleanup` removes it.
- `set` at capacity evicts even when it overwrites a key that is already present.
- `evictOldest` never evicts an item stamped in the current millisecond, so the map can grow past `maxSize`.
- After a failed save, the "rollback" reload finds the optimistic value in the memory cache and keeps it.
- `MemoryCache.set` takes `customTtl || ttl`, so a custom TTL of 0 falls back to the configured TTL. `LocalStorageCache.set` applies its default only when the TTL is absent.

## Model

| member | source | states |
|---|---|---|
| MemCache.MemoryCache.constructor | src/lib/cache.ts:14-25 | a new cache is empty and keeps the given configuration |
| MemCache.MemoryCache.Set | src/lib/cache.ts:27-41 | the new map is `SetSpec` of the old one: one eviction when `size >= maxSize`, even if the key exists, then the item `{data, now, now + (customTtl \|\| ttl)}`; the map stays well formed |
| MemCache.MemoryCache.Get | src/lib/cache.ts:43-57 | returns the data exactly when the key is present and `now <= expiresAt`; an expired item is deleted and nothing else changes |
| MemCache.MemoryCache.Has | src/lib/cache.ts:59-73 | true exactly when `Get` would return data; same lazy deletion as `get` |
| MemCache.MemoryCache.Delete | src/lib/cache.ts:75-77 | returns whether the key was present; removes only that key |
| MemCache.MemoryCache.Clear | src/lib/cache.ts:79-81 | the cache is empty afterwards |
| MemCache.MemoryCache.Size | src/lib/cache.ts:83-85 | the number of items |
| MemCache.MemoryCache.Cleanup | src/lib/cache.ts:88-96 | the new map is `SweepSpec`: exactly the items with `now > expiresAt` are gone, the others unchanged |
| MemCache.Sweep | src/lib/cache.ts:91-95 | the loop over the entries in insertion order, deleting as it goes, ends in `SweepSpec` |
| MemCache.SweepSpec | src/lib/cache.ts:88-96 | every kept item is unexpired and unchanged, and every unexpired item is kept |
| MemCache.MemoryCache.EvictOldest | src/lib/cache.ts:99-113 | the running-minimum loop (seeded with `now`, strict `<`) removes the unique `IsVictim` key, unless none is older than `now` or the key is `""` |
| MemCache.EvictSpec | src/lib/cache.ts:99-113 | eviction keeps every other item unchanged and removes at most one |
| MemCache.VictimUnique | src/lib/cache.ts:103-108 | the first key in insertion order with the least timestamp below `now` is unique |
| MemCache.VictimExistsIff | src/lib/cache.ts:100-108 | a victim exists exactly when some item is stamped strictly before `now` |
| MemCache.VictimIsOldest | src/lib/cache.ts:103-108 | no item is older than the victim |
| MemCache.EvictShrinks | src/lib/cache.ts:110-112 | a victim other than `""` is removed and the size drops by one |
| MemCache.MemoryCache.GetStats | src/lib/cache.ts:116-136 | `validEntries` and `expiredEntries` count the live and expired keys, sum to `totalEntries`, and `maxSize`/`ttl` echo the configuration |
| MemCache.Tally | src/lib/cache.ts:117-127 | the counting loop yields the number of live and of expired keys, which add up to the size |
| MemCache.StatsPartition | src/lib/cache.ts:121-127 | live and expired keys partition the map |
| MemCache.Remove | src/lib/cache.ts:52 | `Map.delete` keeps the map well formed and drops exactly that key |
| MemCache.ReadSpec | src/lib/cache.ts:50-54 | the lazy deletion of a read keeps the map well formed |
| MemCache.Put | src/lib/cache.ts:36-40 | `Map.set` keeps the map well formed |
| MemCache.SetSpec | src/lib/cache.ts:27-41 | `set` keeps the map well formed |
| MemCache.SetAtCapacity | src/lib/cache.ts:32-40 | at capacity, `set` is one eviction followed by `Map.set` |
| MemCache.SetBelowCapacity | src/lib/cache.ts:32-40 | below capacity, `set` is a plain `Map.set` |
| MemCache.GetAfterSet | src/lib/cache.ts:27-57 | a `get` within the effective TTL of a `set` returns the data just written |
| MemCache.GetAfterExpiry | src/lib/cache.ts:27-57 | a `get` after the TTL misses and removes the item |
| MemCache.SetKeepsBound | src/lib/cache.ts:32-34 | `size <= maxSize` is preserved when every item is older than `now` and no key is `""` |
| MemCache.SameMillisecondOverflow | src/lib/cache.ts:100-107 | when no item is older than `now`, a new key grows a full map past `maxSize` |
| MemCache.OverwriteStillEvicts | src/lib/cache.ts:32-34 | overwriting a present key in a full map still evicts another key, so the map shrinks |
| CacheScenarios.TtlExpiry | src/lib/cache.ts:27-57 | `set(k, v, 100)`: hit at +50, miss at +150, and the miss empties the cache |
| CacheScenarios.TwoWrites | src/lib/cache.ts:27-41 | two distinct keys below capacity are stored in insertion order |
| CacheScenarios.EvictEarlierOfTwo | src/lib/cache.ts:99-113 | of two items, the earlier-stamped one is evicted |
| CacheScenarios.ThirdWriteEvicts | src/lib/cache.ts:27-41 | a third key written into a full cache of two evicts the earlier one |
| CacheScenarios.CapacityEviction | src/lib/cache.ts:27-113 | with `maxSize` 2 and an advancing clock, the first key is gone after the third write and the other two are readable |
| CacheScenarios.CapacityOverflowSameMillisecond | src/lib/cache.ts:99-113 | three writes in one millisecond leave three items in a cache of `maxSize` 2 |
| CacheScenarios.SingleSlot | src/lib/cache.ts:27-113 | with `maxSize` 1, the first key is evicted if the clock moved and survives if it did not |
| CacheScenarios.EvictOnlyItem | src/lib/cache.ts:99-113 | a lone item is evicted exactly when it is older than `now` |
| CacheScenarios.OverwriteKeepsSize | src/lib/cache.ts:27-41 | writing one key twice leaves one item with the second value |
| LocalCache.LocalStorageCache.constructor | src/lib/cache.ts:156-161 | the prefix defaults to `eco-tracker-cache` |
| LocalCache.LocalStorageCache.Set | src/lib/cache.ts:163-177 | writes only `${prefix}-${key}`, with `expiresAt = now + ttl` (default 5 minutes); nothing changes without `window` or when the write throws |
| LocalCache.LocalStorageCache.Get | src/lib/cache.ts:179-202 | returns the data of an unexpired parsed envelope, otherwise null; only an expired envelope is removed |
| LocalCache.LocalStorageCache.Delete | src/lib/cache.ts:204-207 | removes only `${prefix}-${key}`; a no-op without `window` |
| LocalCache.LocalStorageCache.Clear | src/lib/cache.ts:209-218 | removes exactly the keys starting with the prefix (no dash) |
| LocalCache.LocalStorageCache.Cleanup | src/lib/cache.ts:221-243 | removes exactly the prefixed keys that are expired or unparseable; all others stay |
| LocalCache.LocalTtl | src/lib/cache.ts:163 | the default TTL applies only when none is passed; 0 is kept |
| LocalCache.StorageKey | src/lib/cache.ts:173 | the storage key starts with the prefix |
| LocalCache.StorageKeyInjective | src/lib/cache.ts:173 | distinct keys get distinct storage keys |
| LocalCache.AfterRead | src/lib/cache.ts:183-197 | a read removes at most the key read, and only when its envelope expired |
| LocalCache.WithoutPrefixed | src/lib/cache.ts:212-217 | exactly the prefixed keys are gone, the rest unchanged |
| LocalCache.Swept | src/lib/cache.ts:224-242 | exactly the stale prefixed keys are gone, the rest unchanged |
| LocalCache.ReadAfterWrite | src/lib/cache.ts:163-202 | a read within the TTL of an accepted write returns the data and removes nothing |
| LocalCache.RefusedWrite | src/lib/cache.ts:164-176 | without `window`, or when `setItem` throws, a write changes nothing |
| LocalCache.WriteIsolated | src/lib/cache.ts:173 | writing one key never changes what another key reads |
| LocalCache.ClearReachesLongerPrefix | src/lib/cache.ts:214 | `clear` also removes keys of any instance whose prefix extends this one |
| LocalCache.ForeignKeysSurvive | src/lib/cache.ts:214-228 | keys outside the prefix survive `clear` and `cleanup` |
| LocalCache.SweptLeavesOnlyLive | src/lib/cache.ts:228-236 | after `cleanup`, a prefixed key either reads as a hit or holds the empty string |
| CacheKey.BelowIrreflexive | src/lib/cache.ts:251 | the sort order is irreflexive |
| CacheKey.BelowTransitive | src/lib/cache.ts:251 | the sort order is transitive |
| CacheKey.BelowTotal | src/lib/cache.ts:251 | the sort order is total on distinct names |
| CacheKey.BelowAsymmetric | src/lib/cache.ts:251 | the sort order is asymmetric |
| CacheKey.Insert | src/lib/cache.ts:251 | inserting into a sorted list keeps it sorted and adds exactly the new element |
| CacheKey.SortByName | src/lib/cache.ts:250-251 | the result is sorted by name and a permutation of the parameters |
| CacheKey.SortedUnique | src/lib/cache.ts:250-251 | two sorted permutations of the same parameters are equal |
| CacheKey.RenderParams | src/lib/cache.ts:252 | one `name=value` per parameter, in order |
| CacheKey.GenerateCacheKey | src/lib/cache.ts:249-256 | the key starts with `prefix:` |
| CacheKey.SwappedPairKey | src/lib/cache.ts:249-256 | two parameters written in descending name order are rendered in swapped order |
| CacheKey.KeyIsSortedRendering | src/lib/cache.ts:249-256 | the key is `prefix:` and the sorted `name=value` pairs joined by `&` |
| CacheKey.SortSorted | src/lib/cache.ts:250-251 | already sorted parameters are left as they are |
| CacheKey.KeyOrderIndependent | src/lib/cache.ts:249-256 | the key depends only on the set of pairs, not their order |
| CacheKey.KeyWithoutParams | src/lib/cache.ts:255 | no parameters give `prefix:` |
| Memoize.Memoized | src/lib/cache.ts:265-283 | `fn` is invoked exactly when the cache has no non-null value; a hit changes nothing and returns a non-null value |
| Memoize.WithCache | src/lib/cache.ts:265-283 | the wrapped call's result, whether `fn` ran, and the cache afterwards are those of `Memoized` |
| Memoize.HitSkipsCall | src/lib/cache.ts:269-272 | a hit returns the cached value without calling `fn` |
| Memoize.MissInvokes | src/lib/cache.ts:275-281 | a miss calls `fn` once and passes its outcome through |
| Memoize.StoredNullIsMiss | src/lib/cache.ts:270 | a stored `null` counts as a miss |
| Memoize.ResultStored | src/lib/cache.ts:276-277 | a resolved value is served from the cache within its TTL |
| Memoize.ResolvedCached | src/lib/cache.ts:269-278 | when `fn` runs and resolves to `v`, the call returns `v` and the key serves `v`; on a hit it returns the value read and the cache is unchanged |
| Memoize.ResolvedCall | src/lib/cache.ts:269-278 | the same facts, for a call whose outcome is known to be `Memoized`'s: `fn` runs exactly on a miss |
| Memoize.WithResolved | src/lib/cache.ts:265-283 | `withCache` around a `fn` that resolves: on a miss it returns the resolved value and the key serves it; on a hit it returns the cached value and changes nothing |
| Memoize.FailureNotCached | src/lib/cache.ts:279-282 | a rejection stores nothing |
| Memoize.FailThenSucceed | src/lib/cache.ts:265-283 | reject, resolve, then hit: `fn` runs twice and the third call is served from the cache |
| Api.ParametersWellFormed | src/lib/api.ts:35-186 | ten rows, strictly increasing thresholds in each, pairwise distinct ids |
| Api.FindParameter | src/lib/air-quality-utils.ts:65 | `find` returns a row with the id exactly when one exists |
| Api.FindRow | src/lib/air-quality-utils.ts:98-100 | with distinct ids, `find` returns that very row |
| Api.GetParameterById | src/lib/air-quality-utils.ts:98-100 | a result is a table row with that id; none means no row has it |
| Api.UnitMatchesTable | src/lib/api.ts:341-356 | the unit lookup agrees with the table's unit for all ten ids |
| Api.GetParameterUnit | src/lib/api.ts:341-356 | never empty, and a unit the record stores is returned unchanged (the `'unit'` fallback never hides one); with `Api.UnitMatchesTable` and `Api.UnitFallback` this is the table's unit for the ten ids and `'unit'` otherwise |
| Api.UnitFallback | src/lib/api.ts:355 | `'unit'` is returned exactly for ids outside the table (ids that are not `Object.prototype` property names) |
| Api.KnownRow | src/lib/api.ts:342-353 | every id of the unit record has a table row |
| Api.AirQualityKeyParams | src/lib/api.ts:248-249 | the key's parameters have distinct names and are already sorted |
| Api.AirQualityKey | src/lib/api.ts:248-249 | the key starts with `air-quality:` |
| Api.AirQualityKeyDefault | src/lib/api.ts:248-249 | the key is `generateCacheKey('air-quality', {latitude, longitude, radius})`; omitting the radius and passing 10000 give the same key |
| Api.MeasurementsKeyParams | src/lib/api.ts:312-313 | the key's parameters have distinct names |
| Api.MeasurementsKey | src/lib/api.ts:312-313 | the key starts with `measurements:` |
| Api.MeasurementsKeyGenerated | src/lib/api.ts:312-313 | the key is `generateCacheKey('measurements', {parameter, limit})`, which renders `limit` before `parameter` |
| Api.MeasurementsKeyDefault | src/lib/api.ts:312-313 | omitting the limit and passing 100 give the same key |
| Api.DemoAirQualityData | src/lib/api.ts:254-272 | one station with six readings |
| Api.DemoAirQualityUnits | src/lib/api.ts:254-272 | each demo reading carries the unit `getParameterUnit` gives its parameter |
| Api.DemoMeasurements | src/lib/api.ts:318-338 | as many items as the loop runs (`limit`, or 0 when not positive) |
| Api.DemoMeasurementsShape | src/lib/api.ts:318-338 | each item has the parameter and its unit, a value in [10, 110), and a timestamp `i` hours back, so timestamps strictly decrease |
| Api.GetDemoMeasurements | src/lib/api.ts:318-338 | the loop builds exactly `DemoMeasurements` |
| Api.OrUnknown | src/lib/api.ts:225-226 | never empty; a non-empty value is kept |
| Api.ToStation | src/lib/api.ts:223-237 | one reading per parameter; city and country never empty |
| Api.ToStations | src/lib/api.ts:222-237 | `results.map(...)`: one station per location, in order, each the location's mapping |
| Api.FetchAirQuality | src/lib/api.ts:194-242 | never rejects; `getDemoAirQualityData` for the same coordinates without a key, on failure, on a non-ok status or an unreadable body; else each location mapped to its station, in order |
| Api.FetchLatestMeasurements | src/lib/api.ts:275-306 | never rejects; without a key the demo list for the same parameter and limit dated from the clock at the call; on a failed request, a non-ok status or an unreadable body the same list dated from the clock once `fetch` has settled; else the body's `results`, which is `undefined` when the field is missing |
| Api.GetAirQualityByLocation | src/lib/api.ts:245-251 | always returns a non-null value; the fetcher runs exactly on a miss, and then its stations are returned and served under the key; on a hit the cached value is returned and the cache is unchanged |
| Api.GetLatestMeasurements | src/lib/api.ts:309-315 | always returns a non-null value; the fetcher runs exactly on a miss, and then its result is returned and served under the key: the demo list dated `now` without a key, dated `later` after a failed or unreadable answer, else `results` or `undefined`; on a hit the cached value is returned and the cache is unchanged |
| AirQualityUtils.CategoryInfo | src/lib/air-quality-utils.ts:21-58 | each table entry's `category` is its own key |
| AirQualityUtils.Rank | src/lib/air-quality-utils.ts:121-128 | a category's rank is in 1..6 |
| AirQualityUtils.Classify | src/lib/air-quality-utils.ts:73-85 | the chain answers `good` exactly when the value is within the good bound |
| AirQualityUtils.GetAirQualityCategory | src/lib/air-quality-utils.ts:60-86 | `good` exactly for an id outside the table or a value within the id's good bound; any other category needs a known id (with `AirQualityUtils.RankAtMost`, `AirQualityUtils.CategoryMonotone` and `AirQualityUtils.UnknownIsGood` for every bound) |
| AirQualityUtils.RankAtMost | src/lib/air-quality-utils.ts:73-85 | with increasing thresholds, rank `<= k` exactly when the value is `<=` the k-th bound (bounds are inclusive) |
| AirQualityUtils.AboveAllBounds | src/lib/air-quality-utils.ts:73-85 | hazardous exactly when the value exceeds every bound up to very unhealthy |
| AirQualityUtils.ClassifyMonotone | src/lib/air-quality-utils.ts:73-85 | a larger value never gets a better category |
| AirQualityUtils.CategoryMonotone | src/lib/air-quality-utils.ts:61-86 | for every id, the category is monotone in the value |
| AirQualityUtils.UnknownIsGood | src/lib/air-quality-utils.ts:65-69 | an id outside the table is good, and its individual index is 0 |
| AirQualityUtils.OverallCategory | src/lib/air-quality-utils.ts:143-151 | an index 1..6 gives the category of that rank, anything else `good` (`AirQualityUtils.OverallInvertsRank`: it inverts `Rank`) |
| AirQualityUtils.GetAirQualityAssessment | src/lib/air-quality-utils.ts:89-95 | the assessment's category is `getAirQualityCategory`'s |
| AirQualityUtils.FormatValueWithUnit | src/lib/air-quality-utils.ts:103-109 | the bare value for an unknown id, else the value, a space and the unit |
| AirQualityUtils.FormatUsesParameterUnit | src/lib/air-quality-utils.ts:103-109 | the appended unit is the one `getParameterUnit` in src/lib/api.ts reports, and a bare value goes with its `'unit'` fallback |
| AirQualityUtils.IndividualAqi | src/lib/air-quality-utils.ts:114-130 | at most 6, and 0 exactly for an unknown id |
| AirQualityUtils.IndividualAqis | src/lib/air-quality-utils.ts:114-130 | one rank per entry, in order |
| AirQualityUtils.MaxOf | src/lib/air-quality-utils.ts:138 | the maximum bounds every element and is one of them |
| AirQualityUtils.CalculateAqi | src/lib/air-quality-utils.ts:112-139 | 0 for no entries; otherwise the maximum individual index: at least every entry's and equal to one; always at most 6 |
| AirQualityUtils.AqiNeverDecreases | src/lib/air-quality-utils.ts:112-139 | adding a reading for a new parameter never lowers the index, and the index is at least the new reading's own |
| AirQualityUtils.GetOverallAirQualityAssessment | src/lib/air-quality-utils.ts:142-152 | the assessment of the category the switch picks |
| AirQualityUtils.OverallInvertsRank | src/lib/air-quality-utils.ts:121-128 | the overall assessment inverts the category→rank switch |
| AirQualityUtils.OverallOutOfRange | src/lib/air-quality-utils.ts:150 | an index outside 1..6 is assessed as good |
| AirQualityUtils.SingleReadingOverall | src/lib/air-quality-utils.ts:112-152 | for one reading, the overall assessment is that reading's category |
| ExportUtils.AssessmentBounds | src/lib/export-utils.ts:169-182 | `[0, 50, 100]` for an unknown parameter; the three bounds always increase |
| ExportUtils.Severity | src/lib/export-utils.ts:184-187 | labels are ordered 0..3 |
| ExportUtils.GetAssessmentLabel | src/lib/export-utils.ts:166-188 | 'Хорошее' exactly up to the first bound; 'Вредное' exactly past the last bound |
| ExportUtils.LabelBounds | src/lib/export-utils.ts:184-187 | inclusive bounds: severity `<= k` exactly when the value is `<=` the k-th bound |
| ExportUtils.LabelMonotone | src/lib/export-utils.ts:169-187 | a larger value never gets a milder label |
| ExportUtils.UnknownUsesDefault | src/lib/export-utils.ts:163-182 | a parameter whose unit falls back to `'unit'` uses `[0, 50, 100]` |
| ExportUtils.LabelsDistinct | src/lib/export-utils.ts:184-187 | the four labels are distinct texts |
| ExportUtils.ExportUnit | src/lib/export-utils.ts:149-164 | `'unit'` exactly for a parameter outside the record |
| ExportUtils.UpperChar | src/lib/export-utils.ts:140 | a lower-case ASCII letter becomes the upper-case letter at the same place in the alphabet; other characters are kept |
| ExportUtils.ToUpperCase | src/lib/export-utils.ts:140 | same length, character by character |
| ExportUtils.UpperIdempotent | src/lib/export-utils.ts:140 | upper-casing twice is upper-casing once |
| ExportUtils.FormatDataForExport | src/lib/export-utils.ts:133-146 | one row per day in order, with the day's date and average, the upper-cased parameter, its unit, the location and the label |
| ExportUtils.FormatConcat | src/lib/export-utils.ts:138-145 | formatting distributes over concatenation of the days |
| ExportUtils.Fields | src/lib/export-utils.ts:18-25 | six fields per row, as many as headers |
| ExportUtils.CsvLines | src/lib/export-utils.ts:16-26 | the header line, then one line per row: `data.length + 1` lines |
| ExportUtils.CsvContent | src/lib/export-utils.ts:16-26 | the content starts with the header line |
| ExportUtils.LineCommas | src/lib/export-utils.ts:18-25 | a line has five separators plus the commas inside fields: nothing is escaped |
| ExportUtils.CsvLineCount | src/lib/export-utils.ts:16-26 | with no newline in a field, the content has exactly one newline per row |
| ExportUtils.ReportLineCount | src/lib/export-utils.ts:16-26 | a formatted report without newlines in its texts gives one CSV line per day plus the header |
| SettingsHook.SettingsKey | src/hooks/use-cached-settings.ts:41 | the key is `user-settings:userId=` and the id |
| SettingsHook.SettingsKeyInjective | src/hooks/use-cached-settings.ts:41 | different users get different keys |
| SettingsHook.LoadSpec | src/hooks/use-cached-settings.ts:44-97 | loading always ends with `loading` false and a well-formed memory tier |
| SettingsHook.SaveSpec | src/hooks/use-cached-settings.ts:100-151 | signed out: nothing changes and false; signed in: returns true exactly on a successful reply, and `loading` ends false |
| SettingsHook.SettingsHook.constructor | src/hooks/use-cached-settings.ts:35-38 | initial state is the defaults, loading, no error |
| SettingsHook.SettingsHook.Load | src/hooks/use-cached-settings.ts:44-97 | the tiers and the state afterwards are `LoadSpec`'s |
| SettingsHook.SettingsHook.Save | src/hooks/use-cached-settings.ts:100-151 | the tiers, the state and the result are `SaveSpec`'s |
| SettingsHook.SettingsHook.WriteBoth | src/hooks/use-cached-settings.ts:115-116 | writes the value to memory (default TTL) and to local storage (30 minutes) |
| SettingsHook.SettingsHook.UpdateThreshold | src/hooks/use-cached-settings.ts:163-166 | a save of the patch holding the thresholds with `parameter` set to `value` |
| SettingsHook.SettingsHook.ClearSettingsCache | src/hooks/use-cached-settings.ts:154-160 | without a user nothing changes; else the user's key is deleted from both tiers |
| SettingsHook.Merge | src/hooks/use-cached-settings.ts:106 | `{ ...settings, ...newSettings }`: every supplied field overrides; an empty patch changes nothing |
| SettingsHook.MergeOverrides | src/hooks/use-cached-settings.ts:106 | supplied fields override, absent ones are kept |
| SettingsHook.MergeLaws | src/hooks/use-cached-settings.ts:106 | an empty patch changes nothing; applying a patch twice is applying it once |
| SettingsHook.ThresholdUpdateIsolated | src/hooks/use-cached-settings.ts:163-166 | only `thresholds[parameter]` changes; every other threshold and field is kept |
| SettingsHook.SignedOutLoad | src/hooks/use-cached-settings.ts:45-49 | signed out, loading sets the defaults and touches neither tier |
| SettingsHook.MemoryHitFirst | src/hooks/use-cached-settings.ts:55-61 | a memory hit is used, local storage is untouched and the server reply is irrelevant |
| SettingsHook.LocalHitPromoted | src/hooks/use-cached-settings.ts:64-72 | a local hit is used, promoted into memory, and the server reply is irrelevant |
| SettingsHook.ServerResultCached | src/hooks/use-cached-settings.ts:75-89 | after a double miss, the server's value (or the defaults) is shown and readable from both tiers for 30 minutes |
| SettingsHook.FailedLoadWritesNothing | src/hooks/use-cached-settings.ts:77-94 | a failed load shows the defaults with the error and writes to neither tier |
| SettingsHook.SignedOutSave | src/hooks/use-cached-settings.ts:101-103 | signed out, saving returns false and changes nothing |
| SettingsHook.SaveStoresServerValue | src/hooks/use-cached-settings.ts:131-140 | a successful save shows the server's value and both tiers serve it |
| SettingsHook.FailedSaveKeepsOptimistic | src/hooks/use-cached-settings.ts:111-147 | a failed save returns false and the rollback reload keeps the optimistic value, with the save error |
| SettingsHook.ClearOnlyUsersKey | src/hooks/use-cached-settings.ts:154-160 | clearing leaves every other key readable as before in both tiers |
| QueryHooks.AirQualityHookKey | src/hooks/use-cached-air-quality.ts:37-40 | the key starts with `air-quality-hook:` |
| QueryHooks.AirQualityHookKeyShape | src/hooks/use-cached-air-quality.ts:37-40 | the key is `air-quality-hook:lat=…&lng=…` |
| QueryHooks.MeasurementsHookKey | src/hooks/use-cached-air-quality.ts:143-146 | the key starts with `measurements-hook:` |
| QueryHooks.MeasurementsHookKeyShape | src/hooks/use-cached-air-quality.ts:143-146 | the key is `measurements-hook:limit=…&parameter=…` |
| QueryHooks.HookKeysDisjoint | src/hooks/use-cached-air-quality.ts:37-40 | the two hook keys and the settings key never collide in the shared storage |
| QueryHooks.FetchSpec | src/hooks/use-cached-air-quality.ts:34-88 | without a location or parameter nothing changes; otherwise `loading` ends false; the data may be `undefined` (`None`), as `getLatestMeasurements` can resolve to, and is then shown and stored as such |
| QueryHooks.CachedQueryHook.ForLocation | src/hooks/use-cached-air-quality.ts:18-31 | the air-quality hook's key, 10-minute TTL and error text; empty initial state |
| QueryHooks.CachedQueryHook.ForParameter | src/hooks/use-cached-air-quality.ts:123-137 | the measurements hook's key (limit 100 by default), 5-minute TTL and error text |
| QueryHooks.CachedQueryHook.Fetch | src/hooks/use-cached-air-quality.ts:34-88 | the state and storage afterwards are `FetchSpec`'s, for any outcome including an `undefined` result |
| QueryHooks.CachedQueryHook.Refresh | src/hooks/use-cached-air-quality.ts:91-93 | `Fetch` with `force` set |
| QueryHooks.LocalHitSkipsApi | src/hooks/use-cached-air-quality.ts:47-58 | an unforced local hit shows the snapshot and the API outcome is irrelevant |
| QueryHooks.RefreshWritesBack | src/hooks/use-cached-air-quality.ts:67-80 | a forced fetch shows the result and writes `{data, timestamp}` back with the hook's TTL |
| QueryHooks.DisabledLeavesStorage | src/hooks/use-cached-air-quality.ts:47-71 | with local storage disabled, the storage is never changed |
| QueryHooks.FailureWritesNothing | src/hooks/use-cached-air-quality.ts:82-87 | a failure sets the error text and writes nothing |
| QueryHooks.FetchThenHit | src/hooks/use-cached-air-quality.ts:47-80 | a fetch that wrote back is served from local storage by the next call within the TTL, with the first call's time; an `undefined` result comes back as `undefined` |

## Left out

- Timers are not modelled: the `setInterval` sweep of `MemoryCache` and the hooks' auto-refresh intervals. `cleanup` and `fetch` are methods that are called explicitly.
- The network is not modelled. This covers `fetch` to OpenAQ and to the settings endpoint, the route handlers, Supabase and authentication. Their results are parameters.
- `JSON.stringify`/`JSON.parse` are not modelled; a stored value is already one of the three `Stored` cases. `Object.keys(localStorage)` is the map's key set, visited in an unspecified order.
- MemCache.MemoryCache.Set: `set` and `evictOldest` each read `Date.now()`; the model uses one reading `now` for both.
- LocalCache.LocalStorageCache.Set: `timestamp` and `expiresAt` read the clock twice; the model uses one reading.
- QueryHooks.FetchSpec: the hooks' `new Date()` and `timestamp: Date.now()` are both the one clock `later`.
- The browser's `localStorage` is modelled as one storage per value type. This is sound only because keys never collide (`QueryHooks.HookKeysDisjoint`); interference with other scripts' keys is not modelled.
- Api.FetchAirQuality: missing `results`, `coordinates` or `parameters` fields raise a `TypeError`, which falls back to demo data; the model counts them as an unreadable body.
- Api.GetAirQualityByLocation: on a miss, states what the key serves, not the rest of the cache afterwards. The eviction that `set` may do is stated by `Memoize.WithCache`.
- Api.GetLatestMeasurements: the same as `Api.GetAirQualityByLocation`.
- LocalCache.Storage: whether a write is refused is one flag, `full`, for the whole storage. In the source a quota failure happens per write and depends on the value's size, so the model cannot show an optimistic settings write that succeeds followed by a server-value write that fails.
- Api.UnitFallback: ids are assumed not to be `Object.prototype` property names. The source indexes a plain object literal, so `units["constructor"]` is an inherited truthy value, not `'unit'`.
- Api.GetParameterUnit: the same assumption as `Api.UnitFallback`.
- ExportUtils.ExportUnit: the same assumption as `Api.UnitFallback`.
- ExportUtils.AssessmentBounds: the same assumption. For a name such as `toString`, the source compares the value with `undefined` bounds and labels every value 'Вредное'; the model uses `[0, 50, 100]`.
- ExportUtils.UnknownUsesDefault: the same assumption as `ExportUtils.AssessmentBounds`.
- Api.DemoAirQualityData: `toFixed(2)`, `toISOString()` and `Math.random()` are parameters. Only the shape is stated.
- Parameter descriptions of `AIR_QUALITY_PARAMETERS` are not kept; nothing reads them.
- SettingsHook.SaveSpec: a successful reply whose `data` is `undefined` is not modelled; a `SaveOk` always carries settings.
- ExportUtils.UpperChar, ExportUtils.ToUpperCase: `toUpperCase` is modelled for ASCII letters only; other characters are kept. JavaScript also upper-cases non-ASCII letters and can change the length (`'ß'` becomes `'SS'`), which the same-length ensures of `ToUpperCase` does not capture.
- The `Array.prototype.sort` order of cache-key names is compared per character, not per UTF-16 code unit.
- Floating point is not modelled: `NaN`, and the number-to-text conversion `${value}`, which is a parameter (`show`, `valueText`). Readings are `real`.
- Concurrency of `withCache` and of the hooks (overlapping calls, React re-renders, the `useEffect` triggers) is not modelled; each call runs alone.
- The Blob/DOM download, `exportToJSON` and `exportToPDF` are browser I/O.
- `getStats` reads `Date.now()`; here the clock is the parameter `now`.
