/** The weather entity: the five-entry daily forecast, the current condition,
    the pressure and the native units, all read from the data object's
    snapshot and units tuple. */
module Weather {
  import opened Wrappers
  import opened Json
  import opened Const
  import opened Units
  import opened Icons
  import opened WuData

  /** One `Forecast` dict, its keys in the order the source writes them. */
  datatype ForecastEntry = ForecastEntry(
    condition: Option<Condition>,
    precipitation: Json,
    precipitationProbability: Json,
    temperature: Json,
    templow: Json,
    time: Json,
    windBearing: Json,
    windSpeed: Json)

  /** The half-day field whose missing first value shows that today's day
      part is over. */
  const FIELD_FORECAST_TEMPERATURE := "temperature"

  /** The half-day period of entry `k`: the day part of day `k`, except that
      the first entry is tonight once today's day part is gone. */
  function Period(shifted: bool, k: nat): nat {
    if k == 0 && shifted then 1 else 2 * k
  }

  /** `days`: the even periods 0, 2, 4, 6, 8, the first one moved to the night
      when today's day-part temperature is None. */
  function ForecastPeriods(data: Json): Result<seq<nat>, PyError> {
    var first :- GetForecast(data, FIELD_FORECAST_TEMPERATURE, 0);
    Ok([if first == JNull then 1 else 0, 2, 4, 6, 8])
  }

  /** The dict for one period, its values computed in the order they are written. */
  function EntryAt(data: Json, period: nat): Result<ForecastEntry, PyError> {
    var icon :- GetForecast(data, FIELD_FORECAST_ICONCODE, period);
    var precipitation :- GetForecast(data, FIELD_FORECAST_QPF, period);
    var probability :- GetForecast(data, FIELD_FORECAST_PRECIPCHANCE, period);
    var temperature :- GetForecast(data, FIELD_FORECAST_TEMPERATUREMAX, period);
    var templow :- GetForecast(data, FIELD_FORECAST_TEMPERATUREMIN, period + 1);
    var validTime :- GetForecast(data, FIELD_FORECAST_VALIDTIMEUTC, period);
    var time :- Mul(validTime, 1000);
    var bearing :- GetForecast(data, FIELD_FORECAST_WINDDIRECTIONCARDINAL, period);
    var speed :- GetForecast(data, FIELD_FORECAST_WINDSPEED, period);
    Ok(ForecastEntry(ConditionOf(icon), precipitation, probability, temperature, templow, time, bearing, speed))
  }

  /** The list comprehension over the periods: one entry per period, in
      order, or the exception of the first period that raises. */
  function Entries(data: Json, periods: seq<nat>): (r: Result<seq<ForecastEntry>, PyError>)
    ensures r.Ok? <==> forall k :: 0 <= k < |periods| ==> EntryAt(data, periods[k]).Ok?
    ensures r.Ok? ==>
      |r.value| == |periods| && forall k :: 0 <= k < |periods| ==> Ok(r.value[k]) == EntryAt(data, periods[k])
    ensures r.Err? ==>
      exists k :: 0 <= k < |periods| && EntryAt(data, periods[k]) == Err(r.error) &&
        forall j :: 0 <= j < k ==> EntryAt(data, periods[j]).Ok?
  {
    if periods == [] then Ok([])
    else
      var e :- EntryAt(data, periods[0]);
      var rest :- Entries(data, periods[1..]);
      Ok([e] + rest)
  }

  /** The `forecast` property. */
  function Forecast(data: Json): Result<seq<ForecastEntry>, PyError> {
    var periods :- ForecastPeriods(data);
    Entries(data, periods)
  }

  /** Entry `k` is always on day `k`; only the first can be a night, and it
      is exactly when today's day-part temperature is None. */
  lemma ForecastPeriodsByDay(data: Json)
    ensures ForecastPeriods(data).Ok? <==> GetForecast(data, FIELD_FORECAST_TEMPERATURE, 0).Ok?
    ensures ForecastPeriods(data).Ok? ==>
      var shifted := GetForecast(data, FIELD_FORECAST_TEMPERATURE, 0) == Ok(JNull);
      var ps := ForecastPeriods(data).value;
      |ps| == MAX_FORECAST_DAYS
      && (forall k :: 0 <= k < |ps| ==> ps[k] == Period(shifted, k) && ps[k] / 2 == k)
      && (ps[0] == 1 <==> shifted)
  {
  }

  /** The entry of day `k`: its maximum, minimum and time come from the
      daily arrays at that day, except that a night entry for today takes
      tomorrow's minimum (the source reads the minimum at the following
      period); the half-day fields come from the entry's own period. */
  lemma EntryOnDay(data: Json, shifted: bool, k: nat, e: ForecastEntry)
    requires EntryAt(data, Period(shifted, k)) == Ok(e)
    ensures Ok(e.temperature) == GetForecast(data, FIELD_FORECAST_TEMPERATUREMAX, 2 * k)
    ensures Ok(e.templow) == GetForecast(data, FIELD_FORECAST_TEMPERATUREMIN, if shifted && k == 0 then 2 else 2 * k)
    ensures var t := GetForecast(data, FIELD_FORECAST_VALIDTIMEUTC, 2 * k); t.Ok? && Mul(t.value, 1000) == Ok(e.time)
    ensures Ok(e.precipitation) == GetForecast(data, FIELD_FORECAST_QPF, Period(shifted, k))
    ensures Ok(e.precipitationProbability) == GetForecast(data, FIELD_FORECAST_PRECIPCHANCE, Period(shifted, k))
    ensures Ok(e.windBearing) == GetForecast(data, FIELD_FORECAST_WINDDIRECTIONCARDINAL, Period(shifted, k))
    ensures Ok(e.windSpeed) == GetForecast(data, FIELD_FORECAST_WINDSPEED, Period(shifted, k))
    ensures e.condition == ConditionOf(GetForecast(data, FIELD_FORECAST_ICONCODE, Period(shifted, k)).value)
  {
    EntryReads(data, Period(shifted, k), e);
    DailyReadsOfPeriod(data, shifted, k);
  }

  /** The daily arrays read at entry `k`'s period, and at the one after it,
      are those of day `k`, except tomorrow's minimum for tonight's entry. */
  lemma DailyReadsOfPeriod(data: Json, shifted: bool, k: nat)
    ensures var p := Period(shifted, k);
      && GetForecast(data, FIELD_FORECAST_TEMPERATUREMAX, p) == GetForecast(data, FIELD_FORECAST_TEMPERATUREMAX, 2 * k)
      && GetForecast(data, FIELD_FORECAST_VALIDTIMEUTC, p) == GetForecast(data, FIELD_FORECAST_VALIDTIMEUTC, 2 * k)
      && GetForecast(data, FIELD_FORECAST_TEMPERATUREMIN, p + 1)
         == GetForecast(data, FIELD_FORECAST_TEMPERATUREMIN, if shifted && k == 0 then 2 else 2 * k)
  {
    var p := Period(shifted, k);
    assert p / 2 == k && (p + 1) / 2 == (if shifted && k == 0 then 1 else k);
    DailyFieldsIgnoreHalfDay(data, FIELD_FORECAST_TEMPERATUREMAX, k);
    DailyFieldsIgnoreHalfDay(data, FIELD_FORECAST_VALIDTIMEUTC, k);
    if shifted && k == 0 {
      assert p + 1 == 2;
    } else {
      assert p + 1 == 2 * k + 1;
      DailyFieldsIgnoreHalfDay(data, FIELD_FORECAST_TEMPERATUREMIN, k);
    }
  }

  /** Where each value of an entry comes from: the fields at its period,
      the minimum at the period after it. */
  lemma EntryReads(data: Json, period: nat, e: ForecastEntry)
    requires EntryAt(data, period) == Ok(e)
    ensures Ok(e.temperature) == GetForecast(data, FIELD_FORECAST_TEMPERATUREMAX, period)
    ensures Ok(e.templow) == GetForecast(data, FIELD_FORECAST_TEMPERATUREMIN, period + 1)
    ensures var t := GetForecast(data, FIELD_FORECAST_VALIDTIMEUTC, period); t.Ok? && Mul(t.value, 1000) == Ok(e.time)
    ensures Ok(e.precipitation) == GetForecast(data, FIELD_FORECAST_QPF, period)
    ensures Ok(e.precipitationProbability) == GetForecast(data, FIELD_FORECAST_PRECIPCHANCE, period)
    ensures Ok(e.windBearing) == GetForecast(data, FIELD_FORECAST_WINDDIRECTIONCARDINAL, period)
    ensures Ok(e.windSpeed) == GetForecast(data, FIELD_FORECAST_WINDSPEED, period)
    ensures e.condition == ConditionOf(GetForecast(data, FIELD_FORECAST_ICONCODE, period).value)
  {
  }

  /** A forecast has one entry per day, each the entry of its day's period. */
  lemma ForecastByDay(data: Json)
    requires Forecast(data).Ok?
    ensures var es := Forecast(data).value;
      var shifted := GetForecast(data, FIELD_FORECAST_TEMPERATURE, 0) == Ok(JNull);
      |es| == MAX_FORECAST_DAYS && forall k :: 0 <= k < |es| ==> EntryAt(data, Period(shifted, k)) == Ok(es[k])
  {
    ForecastPeriodsByDay(data);
  }

  /** The forecast fails only with a KeyError or a TypeError: an IndexError
      is None, and None times 1000 is a TypeError. */
  lemma ForecastErrorKinds(data: Json)
    ensures Forecast(data).Err? ==> Forecast(data).error in {KeyError, TypeError}
  {
    var periods := ForecastPeriods(data);
    if periods.Ok? {
      var r := Entries(data, periods.value);
      if r.Err? {
        var k :| 0 <= k < |periods.value| && EntryAt(data, periods.value[k]) == Err(r.error);
        EntryErrorKinds(data, periods.value[k]);
      }
    } else {
      GetForecastErrorKinds(data, FIELD_FORECAST_TEMPERATURE, 0);
    }
  }

  lemma EntryErrorKinds(data: Json, period: nat)
    ensures EntryAt(data, period).Err? ==> EntryAt(data, period).error in {KeyError, TypeError}
  {
    GetForecastErrorKinds(data, FIELD_FORECAST_ICONCODE, period);
    GetForecastErrorKinds(data, FIELD_FORECAST_QPF, period);
    GetForecastErrorKinds(data, FIELD_FORECAST_PRECIPCHANCE, period);
    GetForecastErrorKinds(data, FIELD_FORECAST_TEMPERATUREMAX, period);
    GetForecastErrorKinds(data, FIELD_FORECAST_TEMPERATUREMIN, period + 1);
    GetForecastErrorKinds(data, FIELD_FORECAST_VALIDTIMEUTC, period);
    GetForecastErrorKinds(data, FIELD_FORECAST_WINDDIRECTIONCARDINAL, period);
    GetForecastErrorKinds(data, FIELD_FORECAST_WINDSPEED, period);
  }

  /** `get_forecast` raises nothing but a KeyError or a TypeError. */
  lemma GetForecastErrorKinds(data: Json, field: string, period: nat)
    ensures GetForecast(data, field, period).Err? ==> GetForecast(data, field, period).error in {KeyError, TypeError}
  {
  }

  /** The `condition` property as written: the icon of today's day part, or
      of tonight when that one is falsy. */
  function CurrentCondition(data: Json): Result<Option<Condition>, PyError> {
    var day :- GetForecast(data, FIELD_FORECAST_ICONCODE, 0);
    var night :- GetForecast(data, FIELD_FORECAST_ICONCODE, 1);
    Ok(ConditionOf(Or(day, night)))
  }

  /** The condition as evidently intended: tonight's icon only when today's
      day part is gone (None). */
  function IntendedCondition(data: Json): (r: Result<Option<Condition>, PyError>)
    ensures r.Ok? <==>
      GetForecast(data, FIELD_FORECAST_ICONCODE, 0).Ok? && GetForecast(data, FIELD_FORECAST_ICONCODE, 1).Ok?
    ensures r.Ok? && GetForecast(data, FIELD_FORECAST_ICONCODE, 0).value != JNull ==>
      r.value == ConditionOf(GetForecast(data, FIELD_FORECAST_ICONCODE, 0).value)
    ensures r.Ok? && GetForecast(data, FIELD_FORECAST_ICONCODE, 0).value == JNull ==>
      r.value == ConditionOf(GetForecast(data, FIELD_FORECAST_ICONCODE, 1).value)
  {
    var day :- GetForecast(data, FIELD_FORECAST_ICONCODE, 0);
    var night :- GetForecast(data, FIELD_FORECAST_ICONCODE, 1);
    Ok(ConditionOf(if day != JNull then day else night))
  }

  /** The two agree unless today's icon is a falsy code other than None. */
  lemma ConditionsAgree(data: Json)
    ensures var day := GetForecast(data, FIELD_FORECAST_ICONCODE, 0);
      (day.Ok? ==> Truthy(day.value) || day.value == JNull) ==>
        CurrentCondition(data) == IntendedCondition(data)
  {
  }

  /** Snapshot whose daypart icons are `day` then `night`. */
  function IconSnapshot(day: int, night: int): Json {
    JObj(map[FIELD_DAYPART := JArr([JObj(map[FIELD_FORECAST_ICONCODE := JArr([JInt(day), JInt(night)])])])])
  }

  /** The snapshot gives `day` at period 0 and `night` at period 1. */
  lemma IconSnapshotReads(day: int, night: int)
    ensures GetForecast(IconSnapshot(day, night), FIELD_FORECAST_ICONCODE, 0) == Ok(JInt(day))
    ensures GetForecast(IconSnapshot(day, night), FIELD_FORECAST_ICONCODE, 1) == Ok(JInt(night))
  {
    var icons := map[FIELD_FORECAST_ICONCODE := JArr([JInt(day), JInt(night)])];
    var data := IconSnapshot(day, night);
    GetForecastDaypartArray(data.fields, FIELD_FORECAST_ICONCODE, 0, [JObj(icons)], icons, [JInt(day), JInt(night)]);
    GetForecastDaypartArray(data.fields, FIELD_FORECAST_ICONCODE, 1, [JObj(icons)], icons, [JInt(day), JInt(night)]);
  }

  /** Icon code 0 (tornado) is falsy, so a tornado by day is reported as
      tonight's condition; the intended reading reports it. */
  lemma TornadoByDayIsLost()
    ensures CurrentCondition(IconSnapshot(0, 32)) == Ok(Some(Sunny))
    ensures IntendedCondition(IconSnapshot(0, 32)) == Ok(Some(Exceptional))
  {
    IconSnapshotReads(0, 32);
    ConditionOfInt(0);
    ConditionOfInt(32);
    assert ListedAt(2, 0);
    assert ListedAt(12, 32);
  }

  /** `native_pressure`: the observed pressure when it is not None, and the
      implicit None otherwise, which is the observed value in both cases. */
  function NativePressure(data: Json, unitSystem: string): (r: Result<Json, PyError>)
    ensures r == GetCondition(data, unitSystem, FIELD_CONDITION_PRESSURE)
  {
    var pressure :- GetCondition(data, unitSystem, FIELD_CONDITION_PRESSURE);
    if pressure != JNull then GetCondition(data, unitSystem, FIELD_CONDITION_PRESSURE) else Ok(JNull)
  }

  /** `native_temperature_unit`. */
  function NativeTemperatureUnit(unitSystemApi: string): (u: Unit)
    ensures QuantityOf(u) == Temperature && (IsMetric(u) <==> unitSystemApi == "m")
  {
    UnitsOfMeasurement(unitSystemApi)[TEMPUNIT]
  }

  /** `native_pressure_unit`. */
  function NativePressureUnit(unitSystemApi: string): (u: Unit)
    ensures QuantityOf(u) == Pressure && (IsMetric(u) <==> unitSystemApi == "m")
  {
    UnitsOfMeasurement(unitSystemApi)[PRESSUREUNIT]
  }

  /** `native_wind_speed_unit`. */
  function NativeWindSpeedUnit(unitSystemApi: string): (u: Unit)
    ensures QuantityOf(u) == Speed && (IsMetric(u) <==> unitSystemApi == "m")
  {
    UnitsOfMeasurement(unitSystemApi)[SPEEDUNIT]
  }

  /** `native_precipitation_unit`. */
  function NativePrecipitationUnit(unitSystemApi: string): (u: Unit)
    ensures QuantityOf(u) == Length && (IsMetric(u) <==> unitSystemApi == "m")
  {
    UnitsOfMeasurement(unitSystemApi)[LENGTHUNIT]
  }

  /** The entity's four units are all metric or all imperial, as Home
      Assistant spells them. */
  lemma WeatherUnitLabels(unitSystemApi: string)
    ensures unitSystemApi == "m" ==>
      [Label(NativeTemperatureUnit(unitSystemApi)), Label(NativePressureUnit(unitSystemApi)),
       Label(NativeWindSpeedUnit(unitSystemApi)), Label(NativePrecipitationUnit(unitSystemApi))]
      == ["°C", "mbar", "km/h", "mm"]
    ensures unitSystemApi != "m" ==>
      [Label(NativeTemperatureUnit(unitSystemApi)), Label(NativePressureUnit(unitSystemApi)),
       Label(NativeWindSpeedUnit(unitSystemApi)), Label(NativePrecipitationUnit(unitSystemApi))]
      == ["°F", "inHg", "mph", "in"]
  {
  }
}
