/**
 * The modelled part of src/lib/api.ts: the air-quality parameter table, the
 * unit lookup, the cache keys of the two cached fetchers, the demo data used
 * as a fallback, and the fetchers' rule that every failure falls back to demo
 * data instead of rejecting.
 *
 * The HTTP exchange with OpenAQ is a parameter: whether the API key is set,
 * and what the request produced. `Math.random()` draws are a parameter too.
 * Coordinates reach the cache key as the text `${latitude}` renders.
 */
module Api {
  import opened Base
  import opened CacheKey
  import MemCache
  import Memoize

  datatype Thresholds = Thresholds(
    good: real,
    moderate: real,
    unhealthyForSensitive: real,
    unhealthy: real,
    veryUnhealthy: real,
    hazardous: real)

  datatype Parameter = Parameter(id: string, name: string, displayName: string, unit: string, thresholds: Thresholds)

  /** `AIR_QUALITY_PARAMETERS` (descriptions omitted). */
  const AirQualityParameters: seq<Parameter> := [
    Parameter("co2", "CO2", "Уровень CO2", "ppm", Thresholds(400.0, 1000.0, 1500.0, 2000.0, 5000.0, 10000.0)),
    Parameter("pm25", "PM2.5", "PM2.5", "µg/m³", Thresholds(12.0, 35.4, 55.4, 150.4, 250.4, 350.4)),
    Parameter("pm10", "PM10", "PM10", "µg/m³", Thresholds(54.0, 154.0, 254.0, 354.0, 424.0, 504.0)),
    Parameter("voc", "VOC", "ЛОС", "ppb", Thresholds(50.0, 100.0, 150.0, 200.0, 300.0, 500.0)),
    Parameter("temperature", "Temperature", "Температура", "°C", Thresholds(20.0, 25.0, 30.0, 35.0, 40.0, 45.0)),
    Parameter("humidity", "Humidity", "Влажность", "%", Thresholds(40.0, 60.0, 70.0, 80.0, 90.0, 100.0)),
    Parameter("pressure", "Pressure", "Давление", "гПа", Thresholds(1013.0, 1020.0, 1030.0, 1040.0, 1050.0, 1060.0)),
    Parameter("o3", "O3", "Озон", "ppb", Thresholds(54.0, 70.0, 85.0, 105.0, 200.0, 300.0)),
    Parameter("no2", "NO2", "Диоксид азота", "ppb", Thresholds(53.0, 100.0, 360.0, 649.0, 1249.0, 1649.0)),
    Parameter("so2", "SO2", "Диоксид серы", "ppb", Thresholds(35.0, 75.0, 185.0, 304.0, 604.0, 804.0))
  ]

  /** The six bounds strictly increase. */
  predicate Increasing(t: Thresholds) {
    t.good < t.moderate < t.unhealthyForSensitive < t.unhealthy < t.veryUnhealthy < t.hazardous
  }

  /** Every row has strictly increasing thresholds and no two rows share an id. */
  lemma ParametersWellFormed()
    ensures |AirQualityParameters| == 10
    ensures forall i :: 0 <= i < |AirQualityParameters| ==> Increasing(AirQualityParameters[i].thresholds)
    ensures forall i, j :: 0 <= i < j < |AirQualityParameters| ==> AirQualityParameters[i].id != AirQualityParameters[j].id
  {
  }

  /** `AIR_QUALITY_PARAMETERS.find(p => p.id === id)`: the first row with that id. */
  function FindParameter(ps: seq<Parameter>, id: string): (r: Option<Parameter>)
    ensures r.Some? <==> exists i :: 0 <= i < |ps| && ps[i].id == id
    ensures r.Some? ==> r.value in ps && r.value.id == id
  {
    if |ps| == 0 then None
    else if ps[0].id == id then Some(ps[0])
    else FindParameter(ps[1..], id)
  }

  /** In a table with distinct ids, `find` returns the row with the id. */
  lemma {:induction false} FindRow(ps: seq<Parameter>, i: nat)
    requires i < |ps|
    requires forall a, b :: 0 <= a < b < |ps| ==> ps[a].id != ps[b].id
    ensures FindParameter(ps, ps[i].id) == Some(ps[i])
  {
    if i > 0 {
      FindRow(ps[1..], i - 1);
    }
  }

  /** `getParameterById` (src/lib/air-quality-utils.ts) */
  function GetParameterById(id: string): (r: Option<Parameter>)
    ensures r.Some? ==> r.value in AirQualityParameters && r.value.id == id
    ensures r.None? ==> forall p :: p in AirQualityParameters ==> p.id != id
  {
    FindParameter(AirQualityParameters, id)
  }

  /** The `units` record of `getParameterUnit`: the unit stored under a key, if any. */
  function UnitEntry(parameter: string): Option<string> {
    match parameter
    case "pm25" => Some("µg/m³")
    case "pm10" => Some("µg/m³")
    case "co2" => Some("ppm")
    case "no2" => Some("ppb")
    case "o3" => Some("ppb")
    case "so2" => Some("ppb")
    case "voc" => Some("ppb")
    case "temperature" => Some("°C")
    case "humidity" => Some("%")
    case "pressure" => Some("гПа")
    case _ => None
  }

  /**
   * `units[parameter] || 'unit'`: never empty, and a stored unit is never
   * replaced by the fallback, since none is empty (`UnitFallback` says when
   * the fallback is used).
   */
  function GetParameterUnit(parameter: string): (u: string)
    ensures u != ""
    ensures UnitEntry(parameter).Some? ==> u == UnitEntry(parameter).value
  {
    match UnitEntry(parameter)
    case Some(u) => if u != "" then u else "unit"
    case None => "unit"
  }

  /** For each of the ten ids, the unit lookup gives the unit of the table row. */
  lemma UnitMatchesTable()
    ensures forall i :: 0 <= i < |AirQualityParameters| ==>
      GetParameterUnit(AirQualityParameters[i].id) == AirQualityParameters[i].unit
  {
  }

  /** The lookup answers `unit` exactly for the ids the table does not have. */
  lemma UnitFallback(parameter: string)
    ensures GetParameterById(parameter).None? <==> GetParameterUnit(parameter) == "unit"
  {
    UnitMatchesTable();
    assert forall i :: 0 <= i < |AirQualityParameters| ==> AirQualityParameters[i].unit != "unit";
    if GetParameterUnit(parameter) == "unit" {
      assert forall i :: 0 <= i < |AirQualityParameters| ==> AirQualityParameters[i].id != parameter;
    } else {
      var row := KnownRow(parameter);
      assert AirQualityParameters[row].id == parameter;
    }
  }

  /** The table row of an id the unit lookup knows. */
  function KnownRow(parameter: string): (row: nat)
    requires UnitEntry(parameter).Some?
    ensures row < |AirQualityParameters| && AirQualityParameters[row].id == parameter
  {
    match parameter
    case "co2" => 0
    case "pm25" => 1
    case "pm10" => 2
    case "voc" => 3
    case "temperature" => 4
    case "humidity" => 5
    case "pressure" => 6
    case "o3" => 7
    case "no2" => 8
    case "so2" => 9
  }

  // ---------------------------------------------------------------------------
  // Cache keys of the cached fetchers
  // ---------------------------------------------------------------------------

  const DefaultRadius: int := 10000
  const DefaultLimit: int := 100
  const AirQualityTtl: int := 10 * MemCache.Minute
  const MeasurementsTtl: int := 5 * MemCache.Minute

  /** The parameters object `{ latitude, longitude, radius }`, with `radius = 10000` when omitted. */
  function AirQualityKeyParams(latitude: string, longitude: string, radius: Option<int>): (ps: seq<Param>)
    ensures DistinctNames(ps) && SortedByName(ps)
  {
    assert Below("latitude", "longitude") && Below("longitude", "radius");
    BelowTransitive("latitude", "longitude", "radius");
    [("latitude", latitude), ("longitude", longitude), ("radius", IntToString(radius.GetOr(DefaultRadius)))]
  }

  /**
   * The key generator of `getAirQualityByLocation`, written as the rendering
   * of the parameters in the object's own order, which is already the sorted
   * one (`AirQualityKeyDefault` proves it is `generateCacheKey`'s key).
   */
  function AirQualityKey(latitude: string, longitude: string, radius: Option<int>): (key: string)
    ensures StartsWith(key, "air-quality:")
  {
    "air-quality" + ":" + Join(RenderParams(AirQualityKeyParams(latitude, longitude, radius)), "&")
  }

  /** The key is `generateCacheKey('air-quality', …)`, and omitting the radius and passing 10000 give the same key. */
  lemma AirQualityKeyDefault(latitude: string, longitude: string, radius: Option<int>)
    ensures AirQualityKey(latitude, longitude, radius) == GenerateCacheKey("air-quality", AirQualityKeyParams(latitude, longitude, radius))
    ensures AirQualityKey(latitude, longitude, None) == AirQualityKey(latitude, longitude, Some(10000))
  {
    SortSorted(AirQualityKeyParams(latitude, longitude, radius));
  }

  /** The parameters object `{ parameter, limit }`, with `limit = 100` when omitted. */
  function MeasurementsKeyParams(parameter: string, limit: Option<int>): (ps: seq<Param>)
    ensures DistinctNames(ps)
  {
    [("parameter", parameter), ("limit", IntToString(limit.GetOr(DefaultLimit)))]
  }

  /**
   * The key generator of `getLatestMeasurements`, written as the rendering of
   * `limit` then `parameter`, the sorted order (`MeasurementsKeyGenerated`
   * proves it is `generateCacheKey`'s key).
   */
  function MeasurementsKey(parameter: string, limit: Option<int>): (key: string)
    ensures StartsWith(key, "measurements:")
  {
    "measurements" + ":" + Join([RenderParam(("limit", IntToString(limit.GetOr(DefaultLimit)))), RenderParam(("parameter", parameter))], "&")
  }

  /** The key is `generateCacheKey('measurements', …)`, which renders `limit` before `parameter`. */
  lemma MeasurementsKeyGenerated(parameter: string, limit: Option<int>)
    ensures MeasurementsKey(parameter, limit) == GenerateCacheKey("measurements", MeasurementsKeyParams(parameter, limit))
  {
    assert Below("limit", "parameter");
    SwappedPairKey("measurements", ("parameter", parameter), ("limit", IntToString(limit.GetOr(DefaultLimit))));
  }

  /** Omitting the limit and passing 100 give the same key. */
  lemma MeasurementsKeyDefault(parameter: string)
    ensures MeasurementsKey(parameter, None) == MeasurementsKey(parameter, Some(100))
  {
  }

  // ---------------------------------------------------------------------------
  // Demo data
  // ---------------------------------------------------------------------------

  /** One reading of a station. */
  datatype Reading = Reading(parameter: string, value: real, unit: string, lastUpdated: string)

  /** `AirQualityData`: one station and its latest readings. */
  datatype Station = Station(
    location: string,
    city: string,
    country: string,
    latitude: real,
    longitude: real,
    measurements: seq<Reading>)

  /** One element of the `getLatestMeasurements` result; `utc` is the instant in milliseconds. */
  datatype Measurement = Measurement(
    parameter: string,
    value: real,
    unit: string,
    utc: int,
    location: string,
    city: string,
    country: string)

  const Hour: int := 60 * 60 * 1000

  /** A `Math.random()` draw. */
  predicate Draw(r: real) {
    0.0 <= r < 1.0
  }

  /** The demo station's name, `Станция ${latitude.toFixed(2)}, ${longitude.toFixed(2)}`. */
  function DemoLocation(latFixed: string, lngFixed: string): string {
    "Станция " + latFixed + ", " + lngFixed
  }

  /** The city and country of every demo record. */
  function DemoCity(): string { "Демо-город" }

  function DemoCountry(): string { "Россия" }

  /**
   * `getDemoAirQualityData`: one station at the given coordinates with six
   * readings. `latFixed`/`lngFixed` are the `toFixed(2)` renderings, `nowIso`
   * the current time as ISO text, and `r` the six random draws.
   */
  function DemoAirQualityData(latitude: real, longitude: real, latFixed: string, lngFixed: string,
                              nowIso: string, r: seq<real>): (data: seq<Station>)
    requires |r| == 6
    ensures |data| == 1 && |data[0].measurements| == 6
  {
    [Station(
      DemoLocation(latFixed, lngFixed), DemoCity(), DemoCountry(), latitude, longitude,
      [ Reading("pm25", r[0] * 50.0 + 10.0, "µg/m³", nowIso),
        Reading("pm10", r[1] * 80.0 + 20.0, "µg/m³", nowIso),
        Reading("co2", r[2] * 200.0 + 400.0, "ppm", nowIso),
        Reading("no2", r[3] * 50.0 + 10.0, "ppb", nowIso),
        Reading("o3", r[4] * 60.0 + 20.0, "ppb", nowIso),
        Reading("so2", r[5] * 30.0 + 5.0, "ppb", nowIso)])]
  }

  /** Every demo reading carries the unit `getParameterUnit` gives its parameter. */
  lemma DemoAirQualityUnits(latitude: real, longitude: real, latFixed: string, lngFixed: string,
                            nowIso: string, r: seq<real>)
    requires |r| == 6
    ensures var ms := DemoAirQualityData(latitude, longitude, latFixed, lngFixed, nowIso, r)[0].measurements;
      forall i :: 0 <= i < |ms| ==> ms[i].unit == GetParameterUnit(ms[i].parameter)
  {
    assert GetParameterUnit("pm25") == "µg/m³" && GetParameterUnit("pm10") == "µg/m³";
    assert GetParameterUnit("co2") == "ppm" && GetParameterUnit("no2") == "ppb";
    assert GetParameterUnit("o3") == "ppb" && GetParameterUnit("so2") == "ppb";
  }

  /** The `i`-th demo measurement: `i` hours before `now`. */
  function DemoMeasurement(parameter: string, now: int, i: int, r: real): Measurement {
    Measurement(parameter, r * 100.0 + 10.0, GetParameterUnit(parameter), now - i * Hour, "Демо-станция", DemoCity(), DemoCountry())
  }

  /** The number of iterations of `for (let i = 0; i < limit; i++)`. */
  function Count(limit: int): nat {
    if limit > 0 then limit else 0
  }

  /** The list `getDemoMeasurements` builds, with draw `random[i]` for element `i`. */
  function DemoMeasurements(parameter: string, limit: int, now: int, random: seq<real>): (ms: seq<Measurement>)
    requires |random| >= Count(limit)
    ensures |ms| == Count(limit)
  {
    seq(Count(limit), i requires 0 <= i < Count(limit) => DemoMeasurement(parameter, now, i, random[i]))
  }

  /**
   * The demo list has `limit` elements (none for a non-positive limit), all of
   * the requested parameter and its unit, with values in [10, 110) and
   * timestamps one hour apart, strictly decreasing from `now`.
   */
  lemma DemoMeasurementsShape(parameter: string, limit: int, now: int, random: seq<real>)
    requires |random| >= Count(limit)
    requires forall i :: 0 <= i < |random| ==> Draw(random[i])
    ensures var ms := DemoMeasurements(parameter, limit, now, random);
      && |ms| == (if limit > 0 then limit else 0)
      && (forall i :: 0 <= i < |ms| ==> ms[i].parameter == parameter && ms[i].unit == GetParameterUnit(parameter))
      && (forall i :: 0 <= i < |ms| ==> 10.0 <= ms[i].value < 110.0 && ms[i].utc == now - i * Hour)
      && (forall i, j :: 0 <= i < j < |ms| ==> ms[j].utc < ms[i].utc)
  {
  }

  /** `getDemoMeasurements(parameter, limit)`, one `push` per iteration. */
  method GetDemoMeasurements(parameter: string, limit: int, now: int, random: seq<real>) returns (ms: seq<Measurement>)
    requires |random| >= Count(limit)
    ensures ms == DemoMeasurements(parameter, limit, now, random)
  {
    ms := [];
    var i := 0;
    while i < limit
      invariant 0 <= i <= Count(limit)
      invariant ms == DemoMeasurements(parameter, i, now, random)
    {
      ms := ms + [DemoMeasurement(parameter, now, i, random[i])];
      i := i + 1;
    }
  }

  // ---------------------------------------------------------------------------
  // Fetchers
  // ---------------------------------------------------------------------------

  /** What the request to OpenAQ produced: it threw, answered with a non-ok status, or answered ok with a body. */
  datatype Response<B> = Failed | NotOk | Ok(body: Option<B>)  // `body` is None when reading or mapping it throws

  /** A location of the OpenAQ answer; `city`/`country` may be absent or empty. */
  datatype RawLocation = RawLocation(
    name: string,
    city: Option<string>,
    country: Option<string>,
    latitude: real,
    longitude: real,
    parameters: seq<RawParameter>)

  datatype RawParameter = RawParameter(parameter: string, lastValue: real, unit: string, lastUpdated: string)

  /** `s || 'Неизвестно'` */
  function OrUnknown(s: Option<string>): (r: string)
    ensures r != ""
    ensures s.Some? && s.value != "" ==> r == s.value
  {
    if s.Some? && s.value != "" then s.value else "Неизвестно"
  }

  function ToReading(p: RawParameter): Reading {
    Reading(p.parameter, p.lastValue, p.unit, p.lastUpdated)
  }

  /** The mapping of one OpenAQ location to a station. */
  function ToStation(l: RawLocation): (s: Station)
    ensures |s.measurements| == |l.parameters|
    ensures s.city != "" && s.country != ""
  {
    Station(l.name, OrUnknown(l.city), OrUnknown(l.country), l.latitude, l.longitude,
            seq(|l.parameters|, i requires 0 <= i < |l.parameters| => ToReading(l.parameters[i])))
  }

  /**
   * `_getAirQualityByLocation(latitude, longitude)`: without an API key, on a
   * failed or non-ok request, or when the body cannot be read, the demo data
   * for the same coordinates; otherwise each location mapped to a station.
   * It never rejects. The arguments after `response` are those of
   * `DemoAirQualityData`.
   */
  function FetchAirQuality(hasApiKey: bool, response: Response<seq<RawLocation>>,
                           latitude: real, longitude: real, latFixed: string, lngFixed: string,
                           nowIso: string, draws: seq<real>): (r: Outcome<seq<Station>>)
    requires |draws| == 6
    ensures r.Returned?
    ensures !hasApiKey || !response.Ok? || response.body.None? ==>
      r.value == DemoAirQualityData(latitude, longitude, latFixed, lngFixed, nowIso, draws)
    ensures hasApiKey && response.Ok? && response.body.Some? ==>
      |r.value| == |response.body.value|
      && forall i :: 0 <= i < |r.value| ==> r.value[i] == ToStation(response.body.value[i])
  {
    var demo := DemoAirQualityData(latitude, longitude, latFixed, lngFixed, nowIso, draws);
    if !hasApiKey then Returned(demo)
    else match response
      case Failed => Returned(demo)
      case NotOk => Returned(demo)
      case Ok(None) => Returned(demo)
      case Ok(Some(locations)) => Returned(ToStations(locations))
  }

  /** Each location of the answer mapped to a station, in order. */
  function ToStations(locations: seq<RawLocation>): (stations: seq<Station>)
    ensures |stations| == |locations|
    ensures forall i :: 0 <= i < |stations| ==> stations[i] == ToStation(locations[i])
  {
    if |locations| == 0 then [] else [ToStation(locations[0])] + ToStations(locations[1..])
  }

  /**
   * `_getLatestMeasurements`: the `results` of an ok answer, otherwise the
   * demo list. It never rejects. An ok body is `Some(results)`, where
   * `results` is `None` when the answer has no `results` field: `data.results`
   * is then `undefined`, which the fetcher returns as it is. `now` is the
   * clock when the fetcher starts and `later` the clock once `fetch` has
   * settled: without a key the demo list is built before any `await`,
   * after a failed or unreadable answer it is built after.
   */
  method FetchLatestMeasurements(hasApiKey: bool, parameter: string, limit: int,
                                 response: Response<Option<seq<Measurement>>>,
                                 now: int, later: int, random: seq<real>) returns (r: Outcome<Option<seq<Measurement>>>)
    requires |random| >= Count(limit)
    ensures r.Returned?
    ensures !hasApiKey ==> r.value == Some(DemoMeasurements(parameter, limit, now, random))
    ensures hasApiKey && (!response.Ok? || response.body.None?) ==>
      r.value == Some(DemoMeasurements(parameter, limit, later, random))
    ensures hasApiKey && response.Ok? && response.body.Some? ==> r.value == response.body.value
  {
    if !hasApiKey {
      var demo := GetDemoMeasurements(parameter, limit, now, random);
      return Returned(Some(demo));
    }
    match response {
      case Ok(Some(results)) =>
        return Returned(results);
      case _ =>
        var demo := GetDemoMeasurements(parameter, limit, later, random);
        return Returned(Some(demo));
    }
  }

  /**
   * `getAirQualityByLocation(latitude, longitude, radius?)`: the fetcher
   * wrapped by `withCache` on the air-quality cache with a 10-minute TTL.
   * `latText`/`lngText` are the coordinates as `${latitude}` renders them.
   * On a miss the fetcher's stations are returned and cached; on a hit the
   * cached value is returned and the cache is unchanged.
   */
  method GetAirQualityByLocation(cache: MemCache.MemoryCache<Option<seq<Station>>>,
                                 latitude: real, longitude: real, latText: string, lngText: string,
                                 radius: Option<int>, hasApiKey: bool, response: Response<seq<RawLocation>>,
                                 latFixed: string, lngFixed: string, nowIso: string, draws: seq<real>,
                                 now: int, later: int)
      returns (result: Outcome<Option<seq<Station>>>, invoked: bool)
    requires cache.Valid() && cache.config == MemCache.AirQualityConfig
    requires |draws| == 6
    modifies cache
    ensures cache.Valid() && result.Returned? && result.value.Some?
    ensures invoked ==>
      var fetched := FetchAirQuality(hasApiKey, response, latitude, longitude, latFixed, lngFixed, nowIso, draws).value;
      result.value == Some(fetched)
      && MemCache.Lookup(cache.items, AirQualityKey(latText, lngText, radius), later) == Some(Some(fetched))
    ensures invoked <==> !Memoize.Cached(old(cache.items), AirQualityKey(latText, lngText, radius), now)
    ensures !invoked ==>
      MemCache.Lookup(old(cache.items), AirQualityKey(latText, lngText, radius), now) == Some(result.value)
      && cache.State() == old(cache.State())
  {
    var fetched := FetchAirQuality(hasApiKey, response, latitude, longitude, latFixed, lngFixed, nowIso, draws);
    var key := AirQualityKey(latText, lngText, radius);
    result, invoked := Memoize.WithResolved(cache, key, Some(AirQualityTtl), fetched.value, now, later);
  }

  /**
   * `getLatestMeasurements(parameter, limit?)`: the fetcher wrapped by
   * `withCache` on the measurements cache with a 5-minute TTL. A cached
   * `undefined` (`Some(None)`) is not `null`, so it is served as a hit.
   */
  method GetLatestMeasurements(cache: MemCache.MemoryCache<Option<Option<seq<Measurement>>>>,
                               parameter: string, limit: Option<int>,
                               hasApiKey: bool, response: Response<Option<seq<Measurement>>>,
                               now: int, later: int, random: seq<real>)
      returns (result: Outcome<Option<Option<seq<Measurement>>>>, invoked: bool)
    requires cache.Valid() && cache.config == MemCache.MeasurementsConfig
    requires |random| >= Count(limit.GetOr(DefaultLimit))
    modifies cache
    ensures cache.Valid() && result.Returned? && result.value.Some?
    ensures invoked ==> MemCache.Lookup(cache.items, MeasurementsKey(parameter, limit), later) == Some(result.value)
    ensures invoked && !hasApiKey ==>
      result.value == Some(Some(DemoMeasurements(parameter, limit.GetOr(DefaultLimit), now, random)))
    ensures invoked && hasApiKey && (!response.Ok? || response.body.None?) ==>
      result.value == Some(Some(DemoMeasurements(parameter, limit.GetOr(DefaultLimit), later, random)))
    ensures invoked && hasApiKey && response.Ok? && response.body.Some? ==> result.value == Some(response.body.value)
    ensures invoked <==> !Memoize.Cached(old(cache.items), MeasurementsKey(parameter, limit), now)
    ensures !invoked ==>
      MemCache.Lookup(old(cache.items), MeasurementsKey(parameter, limit), now) == Some(result.value)
      && cache.State() == old(cache.State())
  {
    var fetched := FetchLatestMeasurements(hasApiKey, parameter, limit.GetOr(DefaultLimit), response, now, later, random);
    var key := MeasurementsKey(parameter, limit);
    result, invoked := Memoize.WithResolved(cache, key, Some(MeasurementsTtl), fetched.value, now, later);
  }
}
