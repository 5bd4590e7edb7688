/**
 * src/lib/air-quality-utils.ts: classification of a reading into one of six
 * ordered categories by the thresholds of its parameter, the category
 * descriptions, and the overall index (the worst category rank among several
 * readings).
 */
module AirQualityUtils {
  import opened Base
  import opened Api

  /** `AirQualityCategory`, from best to worst. */
  datatype Category = Good | Moderate | UnhealthyForSensitive | Unhealthy | VeryUnhealthy | Hazardous

  /** `AirQualityAssessment`; its `label` field is `caption` here (`label` is a Dafny keyword). */
  datatype Assessment = Assessment(category: Category, color: string, caption: string, description: string)

  /** `AIR_QUALITY_CATEGORIES[c]` */
  function CategoryInfo(c: Category): (a: Assessment)
    ensures a.category == c
  {
    Assessment(c, Color(c), Caption(c), Description(c))
  }

  function Color(c: Category): string {
    match c
    case Good => "#00E400"
    case Moderate => "#FFFF00"
    case UnhealthyForSensitive => "#FF7E00"
    case Unhealthy => "#FF0000"
    case VeryUnhealthy => "#99004C"
    case Hazardous => "#7E0023"
  }

  function Caption(c: Category): string {
    match c
    case Good => "Хорошее"
    case Moderate => "Умеренное"
    case UnhealthyForSensitive => "Вредное для чувствительных групп"
    case Unhealthy => "Вредное"
    case VeryUnhealthy => "Очень вредное"
    case Hazardous => "Опасное"
  }

  function Description(c: Category): string {
    match c
    case Good => "Качество воздуха считается удовлетворительным, и загрязнение воздуха представляет незначительный риск или не представляет риска."
    case Moderate => "Качество воздуха приемлемое; однако некоторые загрязнители могут представлять умеренную опасность для очень небольшого числа людей, которые особенно чувствительны к загрязнению воздуха."
    case UnhealthyForSensitive => "Представители чувствительных групп могут испытывать последствия для здоровья. Широкая общественность, скорее всего, не будет затронута."
    case Unhealthy => "Каждый может начать испытывать последствия для здоровья; представители чувствительных групп могут испытывать более серьезные последствия для здоровья."
    case VeryUnhealthy => "Предупреждения о риске для здоровья, означающие, что каждый может испытывать более серьезные последствия для здоровья."
    case Hazardous => "Тревога о здоровье: каждый может испытывать более серьезные последствия для здоровья."
  }

  /** The `switch (category)` of `calculateAQI`: 1 for good up to 6 for hazardous. */
  function Rank(c: Category): (r: nat)
    ensures 1 <= r <= 6
  {
    match c
    case Good => 1
    case Moderate => 2
    case UnhealthyForSensitive => 3
    case Unhealthy => 4
    case VeryUnhealthy => 5
    case Hazardous => 6
  }

  /** The inclusive upper bound of the `k`-th category (1 = good … 5 = very unhealthy). */
  function Bound(t: Thresholds, k: int): real
    requires 1 <= k <= 5
  {
    if k == 1 then t.good
    else if k == 2 then t.moderate
    else if k == 3 then t.unhealthyForSensitive
    else if k == 4 then t.unhealthy
    else t.veryUnhealthy
  }

  /** The threshold chain of `getAirQualityCategory` for a known parameter. */
  function Classify(value: real, t: Thresholds): (c: Category)
    ensures c == Good <==> value <= t.good
  {
    if value <= t.good then Good
    else if value <= t.moderate then Moderate
    else if value <= t.unhealthyForSensitive then UnhealthyForSensitive
    else if value <= t.unhealthy then Unhealthy
    else if value <= t.veryUnhealthy then VeryUnhealthy
    else Hazardous
  }

  /**
   * `getAirQualityCategory(value, parameterId)`: `good` for an id not in the
   * table, and for a known id exactly when the value is within its good bound.
   */
  function GetAirQualityCategory(value: real, parameterId: string): (c: Category)
    ensures c == Good <==>
      GetParameterById(parameterId).None? || value <= GetParameterById(parameterId).value.thresholds.good
    ensures c != Good ==> GetParameterById(parameterId).Some?
  {
    var found := GetParameterById(parameterId);
    if found.None? then Good else Classify(value, found.value.thresholds)
  }

  /** `getAirQualityAssessment(value, parameterId)` */
  function GetAirQualityAssessment(value: real, parameterId: string): (a: Assessment)
    ensures a.category == GetAirQualityCategory(value, parameterId)
  {
    CategoryInfo(GetAirQualityCategory(value, parameterId))
  }

  /**
   * `formatValueWithUnit(value, parameterId)`, given the text `${value}`
   * renders: the unit of a known parameter after a space, nothing otherwise.
   */
  function FormatValueWithUnit(valueText: string, parameterId: string): (s: string)
    ensures GetParameterById(parameterId).None? ==> s == valueText
    ensures GetParameterById(parameterId).Some? ==>
      StartsWith(s, valueText + " ") && s[|valueText| + 1..] == GetParameterById(parameterId).value.unit
  {
    match GetParameterById(parameterId)
    case None => valueText
    case Some(p) =>
      StartsWithConcat(valueText + " ", p.unit);
      valueText + " " + p.unit
  }

  /**
   * The unit `formatValueWithUnit` appends is the one `getParameterUnit`
   * reports; an id it leaves bare is one `getParameterUnit` calls `'unit'`.
   */
  lemma FormatUsesParameterUnit(valueText: string, parameterId: string)
    ensures GetParameterById(parameterId).Some? ==>
      FormatValueWithUnit(valueText, parameterId) == valueText + " " + GetParameterUnit(parameterId)
    ensures GetParameterById(parameterId).None? ==>
      FormatValueWithUnit(valueText, parameterId) == valueText && GetParameterUnit(parameterId) == "unit"
  {
    UnitFallback(parameterId);
    var p := GetParameterById(parameterId);
    if p.Some? {
      var i :| 0 <= i < |AirQualityParameters| && AirQualityParameters[i] == p.value;
      UnitMatchesTable();
    }
  }

  /** The rank `calculateAQI` gives one entry: 0 for an unknown id. */
  function IndividualAqi(entry: (string, real)): (r: nat)
    ensures r <= 6
    ensures GetParameterById(entry.0).None? <==> r == 0
  {
    if GetParameterById(entry.0).None? then 0
    else Rank(GetAirQualityCategory(entry.1, entry.0))
  }

  /** `individualAQIs`: the rank of each entry, in order. */
  function IndividualAqis(entries: seq<(string, real)>): (ranks: seq<nat>)
    ensures |ranks| == |entries|
    ensures forall i :: 0 <= i < |entries| ==> ranks[i] == IndividualAqi(entries[i])
  {
    seq(|entries|, i requires 0 <= i < |entries| => IndividualAqi(entries[i]))
  }

  /** `Math.max(...xs)` for a non-empty list. */
  function MaxOf(xs: seq<nat>): (m: nat)
    requires |xs| > 0
    ensures forall i :: 0 <= i < |xs| ==> xs[i] <= m
    ensures exists i :: 0 <= i < |xs| && xs[i] == m
  {
    if |xs| == 1 then xs[0]
    else
      var rest := MaxOf(xs[1..]);
      assert forall i :: 1 <= i < |xs| ==> xs[i] == xs[1..][i - 1];
      if xs[0] < rest then
        var j :| 0 <= j < |xs[1..]| && xs[1..][j] == rest;
        assert xs[j + 1] == rest;
        rest
      else xs[0]
  }

  /** `calculateAQI(measurements)` over `Object.entries(measurements)`. */
  function CalculateAqi(entries: seq<(string, real)>): (aqi: nat)
    ensures aqi <= 6
    ensures |entries| == 0 ==> aqi == 0
    ensures forall i :: 0 <= i < |entries| ==> IndividualAqi(entries[i]) <= aqi
    ensures |entries| > 0 ==> exists i :: 0 <= i < |entries| && IndividualAqi(entries[i]) == aqi
  {
    var ranks := IndividualAqis(entries);
    if |ranks| == 0 then 0 else MaxOf(ranks)
  }

  /** The `switch (aqi)` of `getOverallAirQualityAssessment`: ranks 1..6 back to their categories, anything else to good. */
  function OverallCategory(aqi: int): (c: Category)
    ensures 1 <= aqi <= 6 ==> Rank(c) == aqi
    ensures aqi < 1 || aqi > 6 ==> c == Good
  {
    if aqi == 1 then Good
    else if aqi == 2 then Moderate
    else if aqi == 3 then UnhealthyForSensitive
    else if aqi == 4 then Unhealthy
    else if aqi == 5 then VeryUnhealthy
    else if aqi == 6 then Hazardous
    else Good
  }

  /** `getOverallAirQualityAssessment(aqi)` */
  function GetOverallAirQualityAssessment(aqi: int): (a: Assessment)
    ensures a.category == OverallCategory(aqi)
  {
    CategoryInfo(OverallCategory(aqi))
  }

  // ---------------------------------------------------------------------------
  // Properties
  // ---------------------------------------------------------------------------

  /**
   * Bounds are inclusive: with increasing thresholds, a value's rank is at
   * most `k` exactly when it does not exceed the `k`-th bound.
   */
  lemma RankAtMost(value: real, t: Thresholds, k: int)
    requires Increasing(t) && 1 <= k <= 5
    ensures Rank(Classify(value, t)) <= k <==> value <= Bound(t, k)
  {
  }

  /** Beyond the very-unhealthy bound a value is hazardous (the hazardous threshold itself is never consulted). */
  lemma AboveAllBounds(value: real, t: Thresholds)
    ensures Classify(value, t) == Hazardous <==>
      (value > t.veryUnhealthy && value > t.unhealthy && value > t.unhealthyForSensitive
       && value > t.moderate && value > t.good)
  {
  }

  /** With increasing thresholds, a larger value never gets a better category. */
  lemma ClassifyMonotone(v1: real, v2: real, t: Thresholds)
    requires Increasing(t) && v1 <= v2
    ensures Rank(Classify(v1, t)) <= Rank(Classify(v2, t))
  {
    var k := Rank(Classify(v2, t));
    if k <= 5 {
      RankAtMost(v2, t, k);
      RankAtMost(v1, t, k);
    }
  }

  /** For every parameter of the table the category is monotone in the value. */
  lemma CategoryMonotone(parameterId: string, v1: real, v2: real)
    requires v1 <= v2
    ensures Rank(GetAirQualityCategory(v1, parameterId)) <= Rank(GetAirQualityCategory(v2, parameterId))
  {
    var p := GetParameterById(parameterId);
    if p.Some? {
      ParametersWellFormed();
      var i :| 0 <= i < |AirQualityParameters| && AirQualityParameters[i] == p.value;
      ClassifyMonotone(v1, v2, p.value.thresholds);
    }
  }

  /** An id outside the table is always good, whatever the value. */
  lemma UnknownIsGood(value: real, parameterId: string)
    requires forall p :: p in AirQualityParameters ==> p.id != parameterId
    ensures GetAirQualityCategory(value, parameterId) == Good
    ensures IndividualAqi((parameterId, value)) == 0
  {
  }

  /** The overall assessment inverts the rank of every category. */
  lemma OverallInvertsRank(c: Category)
    ensures OverallCategory(Rank(c)) == c
  {
  }

  /** An index outside 1..6 is assessed as good. */
  lemma OverallOutOfRange(aqi: int)
    requires aqi < 1 || aqi > 6
    ensures OverallCategory(aqi) == Good
  {
  }

  /**
   * Adding a reading for a parameter the record does not have yet never
   * lowers the index. (Assigning an existing name replaces its value, which
   * can lower it.)
   */
  lemma AqiNeverDecreases(entries: seq<(string, real)>, extra: (string, real))
    requires forall i :: 0 <= i < |entries| ==> entries[i].0 != extra.0
    ensures CalculateAqi(entries) <= CalculateAqi(entries + [extra])
    ensures IndividualAqi(extra) <= CalculateAqi(entries + [extra])
  {
    var more := entries + [extra];
    if |entries| > 0 {
      var i :| 0 <= i < |entries| && IndividualAqi(entries[i]) == CalculateAqi(entries);
      assert more[i] == entries[i];
    }
    assert more[|entries|] == extra;
  }

  /** For a single reading, the overall assessment is the reading's own category. */
  lemma SingleReadingOverall(parameterId: string, value: real)
    ensures OverallCategory(CalculateAqi([(parameterId, value)])) == GetAirQualityCategory(value, parameterId)
  {
    var entries := [(parameterId, value)];
    assert CalculateAqi(entries) == IndividualAqi((parameterId, value));
    if GetParameterById(parameterId).Some? {
      OverallInvertsRank(GetAirQualityCategory(value, parameterId));
    }
  }
}
