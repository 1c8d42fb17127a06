/** The sensor descriptions of the forecast sensors: two per-day sensors
    and five per-half-day ones. */
module ForecastSensors {
  import opened Wrappers
  import opened Json
  import opened Units
  import opened ObsSensors

  /** `forecast_sensor_descriptions`, in source order. */
  const FORECAST_SENSOR_DESCRIPTIONS: seq<Description> := [
    Description("narrative", "Weather Summary", Forecast, NoUnit, AsIs, false),
    Description("qpfSnow", "Snow Amount", Forecast, ByMetric(Millimeters, Inches), AsIs, false),
    Description("temperature", "Forecast Temperature", ForecastDaypart, ByMetric(Celsius, Fahrenheit), NoneOrAsIs, false),
    Description("narrative", "Forecast Summary", ForecastDaypart, NoUnit, NoneOrAsIs, false),
    Description("windSpeed", "Average Wind", ForecastDaypart, ByMetric(KilometersPerHour, MilesPerHour), NoneOrAsIs, false),
    Description("qpf", "Precipitation Amount", ForecastDaypart, ByMetric(Millimeters, Inches), NoneOrAsIs, false),
    Description("precipChance", "Precipitation Probability", ForecastDaypart, Fixed(Percentage), NoneOrAsIs, false)
  ]

  /** The first two descriptions are per day, the other five per half-day,
      and every one of them is disabled until the user enables it. */
  lemma ForecastTags(i: nat)
    requires i < |FORECAST_SENSOR_DESCRIPTIONS|
    ensures FORECAST_SENSOR_DESCRIPTIONS[i].feature == (if i < 2 then Forecast else ForecastDaypart)
    ensures !FORECAST_SENSOR_DESCRIPTIONS[i].enabledByDefault
  {
  }

  /** "narrative" is the key of two descriptions, so a key alone does not
      name a description; the key together with the feature does. */
  lemma KeyAndFeatureIdentify(i: nat, j: nat)
    requires i < |FORECAST_SENSOR_DESCRIPTIONS| && j < |FORECAST_SENSOR_DESCRIPTIONS|
    requires FORECAST_SENSOR_DESCRIPTIONS[i].key == FORECAST_SENSOR_DESCRIPTIONS[j].key
    ensures FORECAST_SENSOR_DESCRIPTIONS[i].feature == FORECAST_SENSOR_DESCRIPTIONS[j].feature <==> i == j
    ensures i != j ==> FORECAST_SENSOR_DESCRIPTIONS[i].key == "narrative"
  {
    var d := FORECAST_SENSOR_DESCRIPTIONS;
    assert d[0].key == d[3].key;
  }

  /** A per-half-day sensor passes None through and leaves every other
      value as it is. */
  lemma DaypartValuesPassNone(i: nat, v: Json)
    requires i < |FORECAST_SENSOR_DESCRIPTIONS|
    requires FORECAST_SENSOR_DESCRIPTIONS[i].feature == ForecastDaypart
    ensures ApplyValue(FORECAST_SENSOR_DESCRIPTIONS[i].valueFn, JNull) == Ok(JNull)
    ensures ApplyValue(FORECAST_SENSOR_DESCRIPTIONS[i].valueFn, v) == Ok(v)
  {
    assert FORECAST_SENSOR_DESCRIPTIONS[i].valueFn == NoneOrAsIs;
  }

  /** The units: none for the summaries, always a percentage for the
      precipitation probability, and otherwise a metric or an imperial unit
      of the same quantity as the host's system says. */
  lemma ForecastUnits(i: nat, hostIsMetric: bool)
    requires i < |FORECAST_SENSOR_DESCRIPTIONS|
    ensures var d := FORECAST_SENSOR_DESCRIPTIONS[i];
      (ApplyUnit(d.unitFn, hostIsMetric).None? <==> d.key == "narrative")
      && (d.key == "precipChance" ==> ApplyUnit(d.unitFn, hostIsMetric) == Some(Percentage))
      && (d.unitFn.ByMetric? ==>
            var u := ApplyUnit(d.unitFn, hostIsMetric).value;
            (hostIsMetric ==> IsMetric(u)) && (!hostIsMetric ==> IsImperial(u))
            && QuantityOf(d.unitFn.metric) == QuantityOf(d.unitFn.imperial))
  {
  }
}
