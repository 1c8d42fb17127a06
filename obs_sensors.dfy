/** The sensor descriptions of the observation and condition sensors, the
    description record every sensor is built from, and the wind-direction
    conversion one of them uses. */
module ObsSensors {
  import opened Wrappers
  import opened Json
  import opened Const
  import opened Units
  import opened WuData

  /** The feature tag of a description: where its value is read in the snapshot.
      `Untagged` is the empty tag, whose sensor receives the whole snapshot. */
  datatype Feature = Observations | Conditions | Forecast | ForecastDaypart | Untagged

  /** The `value_fn` lambdas of the tables, by what they do to their input. */
  datatype ValueFn =
    | AsIs           // `cast(str, data)` or `cast(float, data)`: the value itself
    | OrZero         // `cast(int, data) or 0`
    | NoneOrAsIs     // `cast(float, data) if (data is not None) else None`
    | CardinalOfSnapshot  // the cardinal label of `data['observations'][0]['winddir']`, `or ""`

  /** The `unit_fn` lambdas, by their answer to "is the host metric?". */
  datatype UnitFn =
    | NoUnit                               // `lambda _: None` (also the default)
    | Fixed(unit: Unit)                    // `lambda _: PERCENTAGE` and the like
    | ByMetric(metric: Unit, imperial: Unit)  // `lambda metric: A if metric else B`

  /** A sensor description: the fields the integration's logic reads. */
  datatype Description = Description(
    key: string,
    name: string,
    feature: Feature,
    unitFn: UnitFn,
    valueFn: ValueFn,
    enabledByDefault: bool)

  /** The unit a `unit_fn` returns for the host's unit system. */
  function ApplyUnit(f: UnitFn, hostIsMetric: bool): (r: Option<Unit>)
    ensures r.None? <==> f.NoUnit?
    ensures f.ByMetric? ==> r == Some(if hostIsMetric then f.metric else f.imperial)
    ensures f.Fixed? ==> r == Some(f.unit)
  {
    match f
    case NoUnit => None
    case Fixed(u) => Some(u)
    case ByMetric(m, i) => if hostIsMetric then Some(m) else Some(i)
  }

  /** The sixteen compass points in clockwise order from north. */
  const DIRS: seq<string> := ["N", "NNE", "NE", "ENE", "E", "ESE", "SE", "SSE",
                              "S", "SSW", "SW", "WSW", "W", "WNW", "NW", "NNW"]

  /** Python's `round(q / r)` on the exact quotient: to the nearest integer,
      a tie to the even one. */
  function RoundHalfEven(q: int, r: int): (n: int)
    requires r > 0
    ensures 2 * q - r <= 2 * r * n <= 2 * q + r
    ensures 2 * r * n == 2 * q - r || 2 * r * n == 2 * q + r ==> n % 2 == 0
  {
    var f := q / r;
    var rem := q % r;
    assert q == r * f + rem;
    if 2 * rem < r then f
    else if 2 * rem > r then f + 1
    else if f % 2 == 0 then f
    else f + 1
  }

  /** The compass point of the quotient `q / r` degrees: `dirs[round(q/r / 22.5) % 16]`. */
  function Direction(q: int, r: int): (point: string)
    requires r > 0
    ensures point in DIRS
  {
    DIRS[RoundHalfEven(2 * q, 45 * r) % 16]
  }

  /** `degrees_to_cardinal` on a JSON value: 'None' for None, the compass
      point of a number (a bool is 0 or 1), a TypeError for anything the
      division rejects. */
  function DegreesToCardinal(d: Json): (r: Result<string, PyError>)
    ensures d == JNull ==> r == Ok("None")
    ensures r.Err? <==> d.JStr? || d.JArr? || d.JObj?
    ensures r.Err? ==> r.error == TypeError
    ensures r.Ok? && d != JNull ==> r.value in DIRS
    ensures r.Ok? ==> r.value != ""
  {
    match d
    case JNull => Ok("None")
    case JBool(b) => Ok(Direction(if b then 1 else 0, 1))
    case JInt(i) => Ok(Direction(i, 1))
    case JFloat(m, s) => Ok(Direction(m, Pow10(s)))
    case _ => Err(TypeError)
  }

  /** For an integer there is never a tie, so the label is the one the plain
      floor formula picks: `dirs[floor((4d + 45) / 90) % 16]`. */
  lemma IntegerDegrees(d: int)
    ensures DegreesToCardinal(JInt(d)) == Ok(DIRS[((4 * d + 45) / 90) % 16])
  {
    var n := RoundHalfEven(2 * d, 45);
    assert 4 * d - 45 <= 90 * n <= 4 * d + 45;
    // 90n is even and 4d +- 45 is odd, so the bounds are strict
    assert 90 * n != 4 * d - 45 && 90 * n != 4 * d + 45;
    QuotientByNinety(4 * d + 45, n);
  }

  /** The quotient by 90 is the `n` whose multiple lies at most 89 below. */
  lemma QuotientByNinety(x: int, n: int)
    requires 90 * n <= x < 90 * n + 90
    ensures x / 90 == n
  {
  }

  /** Sample directions: north at 0 and 360, east at 90, south at 180 and
      190, west at 270. */
  lemma CardinalSamples(d: int)
    requires d in {0, 90, 180, 190, 270, 360}
    ensures DegreesToCardinal(JInt(d))
      == Ok(if d == 0 || d == 360 then "N" else if d == 90 then "E" else if d == 270 then "W" else "S")
  {
    if d == 0 {
      SampleDegrees(0, 0, "N");
    } else if d == 360 {
      SampleDegrees(360, 0, "N");
    } else if d == 90 {
      SampleDegrees(90, 4, "E");
    } else if d == 270 {
      SampleDegrees(270, 12, "W");
    } else if d == 180 {
      SampleDegrees(180, 8, "S");
    } else {
      SampleDegrees(190, 8, "S");
    }
  }

  lemma SampleDegrees(d: int, k: nat, point: string)
    requires k < 16 && (4 * d + 45) / 90 % 16 == k && DIRS[k] == point
    ensures DegreesToCardinal(JInt(d)) == Ok(point)
  {
    IntegerDegrees(d);
  }

  /** A full turn gives the same label. */
  lemma CardinalPeriodic(d: int)
    ensures DegreesToCardinal(JInt(d + 360)) == DegreesToCardinal(JInt(d))
  {
    IntegerDegrees(d);
    IntegerDegrees(d + 360);
    var x := 4 * d + 45;
    var m := x / 90;
    assert x == 90 * m + x % 90;
    assert x + 1440 == 90 * (m + 16) + x % 90;
    assert (x + 1440) / 90 == m + 16;
    assert 4 * (d + 360) + 45 == x + 1440;
    assert (m + 16) % 16 == m % 16;
  }

  /** Where the cardinal sensor reads the wind direction in the whole snapshot. */
  const WINDDIR_PATH := [Key(FIELD_OBSERVATIONS), Index(0), Key(FIELD_CONDITION_WINDDIR)]

  /** What a `value_fn` returns for the sensor data it is given. */
  function ApplyValue(f: ValueFn, data: Json): Result<Json, PyError> {
    match f
    case AsIs => Ok(data)
    case OrZero => Ok(Or(data, JInt(0)))
    case NoneOrAsIs => Ok(if data != JNull then data else JNull)
    case CardinalOfSnapshot =>
      var degrees :- Lookup(data, WINDDIR_PATH);
      var point :- DegreesToCardinal(degrees);
      Ok(Or(JStr(point), JStr("")))
  }

  /** The observation sensors read straight from the first observation. */
  const OBSERVATION_DESCRIPTIONS: seq<Description> := [
    Description("neighborhood", "Neighborhood", Observations, NoUnit, AsIs, true),
    Description("obsTimeLocal", "Local Observation Time", Observations, NoUnit, AsIs, true),
    Description("humidity", "Relative Humidity", Observations, Fixed(Percentage), OrZero, true),
    Description("stationID", "Station ID", Observations, NoUnit, AsIs, true),
    Description("solarRadiation", "Solar Radiation", Observations, Fixed(WattsPerSquareMeter), OrZero, true),
    Description("uv", "UV Index", Observations, Fixed(UvIndex), OrZero, true),
    Description("winddir", "Wind Direction - Degrees", Observations, Fixed(Degree), OrZero, true),
    Description("windDirectionCardinal", "Wind Direction - Cardinal", Untagged, NoUnit, CardinalOfSnapshot, true)
  ]

  /** The condition sensors read from the unit-system sub-object. */
  const CONDITION_DESCRIPTIONS: seq<Description> := [
    Description("elev", "Elevation", Conditions, ByMetric(Meters, Feet), AsIs, true),
    Description("dewpt", "Dewpoint", Conditions, ByMetric(Celsius, Fahrenheit), AsIs, true),
    Description("temp", "Temperature", Conditions, ByMetric(Celsius, Fahrenheit), AsIs, true),
    Description("heatIndex", "Heat Index", Conditions, ByMetric(Celsius, Fahrenheit), AsIs, true),
    Description("windChill", "Wind Chill", Conditions, ByMetric(Celsius, Fahrenheit), AsIs, true),
    Description("precipRate", "Precipitation Rate", Conditions, ByMetric(MillimetersPerHour, InchesPerHour), AsIs, true),
    Description("precipTotal", "Precipitation Today", Conditions, ByMetric(Millimeters, Inches), AsIs, true),
    Description("pressure", "Pressure", Conditions, ByMetric(Mbar, InHg), AsIs, true),
    Description("windGust", "Wind Gust", Conditions, ByMetric(KilometersPerHour, MilesPerHour), AsIs, true),
    Description("windSpeed", "Wind Speed", Conditions, ByMetric(KilometersPerHour, MilesPerHour), AsIs, true)
  ]

  /** `obs_sensor_descriptions`, in source order. */
  const OBS_SENSOR_DESCRIPTIONS: seq<Description> := OBSERVATION_DESCRIPTIONS + CONDITION_DESCRIPTIONS

  /** The four numeric observations never report None or 0 as anything but 0,
      and keep any truthy value. */
  lemma OrZeroObservations(i: nat, v: Json)
    requires i < |OBS_SENSOR_DESCRIPTIONS|
    requires OBS_SENSOR_DESCRIPTIONS[i].key in ["humidity", "solarRadiation", "uv", "winddir"]
    ensures ApplyValue(OBS_SENSOR_DESCRIPTIONS[i].valueFn, JNull) == Ok(JInt(0))
    ensures ApplyValue(OBS_SENSOR_DESCRIPTIONS[i].valueFn, JInt(0)) == Ok(JInt(0))
    ensures Truthy(v) ==> ApplyValue(OBS_SENSOR_DESCRIPTIONS[i].valueFn, v) == Ok(v)
  {
    assert OBS_SENSOR_DESCRIPTIONS[i].valueFn == OrZero by {
      if i < |OBSERVATION_DESCRIPTIONS| {
        assert OBS_SENSOR_DESCRIPTIONS[i] == OBSERVATION_DESCRIPTIONS[i];
      } else {
        assert false;
      }
    }
  }

  /** Exactly the condition sensors depend on the host's unit system, each
      choosing between a metric and an imperial unit of the same quantity. */
  lemma UnitSystemDependentSensors(i: nat)
    requires i < |OBS_SENSOR_DESCRIPTIONS|
    ensures var d := OBS_SENSOR_DESCRIPTIONS[i];
      (d.feature == Conditions <==> d.unitFn.ByMetric?)
      && (d.unitFn.ByMetric? ==>
            IsMetric(d.unitFn.metric) && IsImperial(d.unitFn.imperial)
            && QuantityOf(d.unitFn.metric) == QuantityOf(d.unitFn.imperial))
  {
    if i < |OBSERVATION_DESCRIPTIONS| {
      assert OBS_SENSOR_DESCRIPTIONS[i] == OBSERVATION_DESCRIPTIONS[i];
    } else {
      assert OBS_SENSOR_DESCRIPTIONS[i] == CONDITION_DESCRIPTIONS[i - |OBSERVATION_DESCRIPTIONS|];
    }
  }

  /** The cardinal sensor is the only untagged one, so it receives the whole
      snapshot; its value is the label of `observations[0]['winddir']` and is
      never the empty string. */
  lemma CardinalSensor(i: nat, data: Json)
    requires i < |OBS_SENSOR_DESCRIPTIONS|
    ensures OBS_SENSOR_DESCRIPTIONS[i].feature == Untagged <==> OBS_SENSOR_DESCRIPTIONS[i].key == "windDirectionCardinal"
    ensures OBS_SENSOR_DESCRIPTIONS[i].feature == Untagged ==>
      var r := ApplyValue(OBS_SENSOR_DESCRIPTIONS[i].valueFn, data);
      var w := Lookup(data, WINDDIR_PATH);
      (r.Ok? <==> w.Ok? && DegreesToCardinal(w.value).Ok?)
      && (r.Ok? ==> r.value == JStr(DegreesToCardinal(w.value).value) && r.value != JStr(""))
  {
    if i < |OBSERVATION_DESCRIPTIONS| {
      assert OBS_SENSOR_DESCRIPTIONS[i] == OBSERVATION_DESCRIPTIONS[i];
    } else {
      assert OBS_SENSOR_DESCRIPTIONS[i] == CONDITION_DESCRIPTIONS[i - |OBSERVATION_DESCRIPTIONS|];
    }
  }
}
