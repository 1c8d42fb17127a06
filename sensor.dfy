/** The sensor platform: which sensors are created, how each reads its value
    from the snapshot, its unique id and requested object id, its name, its
    unit and its availability, and the refresh on every coordinator update. */
module Sensor {
  import opened Wrappers
  import opened Json
  import opened Const
  import opened Units
  import opened PyText
  import opened WuData
  import opened Fetch
  import opened ObsSensors
  import opened ForecastSensors

  // ---------------------------------------------------------------------
  // Reading a sensor's value

  /** `_get_sensor_data`: where a sensor of the given feature finds its value. */
  function GetSensorData(data: Json, kind: string, unitSystem: string, feature: Feature,
                         day: Option<nat>): Result<Json, PyError> {
    match feature
    case Conditions => Lookup(data, [Key(FIELD_OBSERVATIONS), Index(0), Key(unitSystem), Key(kind)])
    case Forecast =>
      var values :- GetKey(data, kind);
      GetIndexOpt(values, day)
    case ForecastDaypart =>
      var values :- Lookup(data, [Key(FIELD_DAYPART), Index(0), Key(kind)]);
      GetIndexOpt(values, day)
    case Observations => Lookup(data, [Key(FIELD_OBSERVATIONS), Index(0), Key(kind)])
    case Untagged => Ok(data)
  }

  /** A condition sensor reads exactly what the data object's `get_condition`
      reads for a field with a unit. */
  lemma ConditionSensorsAgreeWithAccessor(data: Json, kind: string, unitSystem: string, day: Option<nat>)
    requires kind !in UNITLESS_FIELDS
    ensures GetSensorData(data, kind, unitSystem, Conditions, day) == GetCondition(data, unitSystem, kind)
  {
    GetConditionReads(data, unitSystem, kind);
  }

  /** For the two unit-less fields, an observation sensor followed by the
      `or 0` value function gives what `get_condition` gives. */
  lemma UnitlessSensorsAgreeWithAccessor(data: Json, kind: string, unitSystem: string)
    requires kind in UNITLESS_FIELDS
    ensures GetCondition(data, unitSystem, kind)
      == (var v :- GetSensorData(data, kind, unitSystem, Observations, None); ApplyValue(OrZero, v))
  {
    GetConditionReads(data, unitSystem, kind);
  }

  /** A half-day sensor for a field read per half-day reads what
      `get_forecast` reads at that period, except that it raises IndexError
      where `get_forecast` answers None. */
  lemma DaypartSensorsAgreeWithAccessor(data: Json, kind: string, unitSystem: string, period: nat)
    requires kind !in DAILY_FIELDS
    ensures var r := GetSensorData(data, kind, unitSystem, ForecastDaypart, Some(period));
      GetForecast(data, kind, period) == (if r == Err(IndexError) then Ok(JNull) else r)
  {
    GetForecastReads(data, kind, period);
    LookupStep(data, Key(FIELD_DAYPART), [Index(0), Key(kind)]);
    LookupStep(data, Key(FIELD_DAYPART), [Index(0), Key(kind), Index(period)]);
    var daypart := GetKey(data, FIELD_DAYPART);
    if daypart.Ok? {
      LookupStep(daypart.value, Index(0), [Key(kind)]);
      LookupStep(daypart.value, Index(0), [Key(kind), Index(period)]);
      var first := GetIndex(daypart.value, 0);
      if first.Ok? {
        LookupStep(first.value, Key(kind), []);
        LookupStep(first.value, Key(kind), [Index(period)]);
        var values := GetKey(first.value, kind);
        if values.Ok? {
          LookupStep(values.value, Index(period), []);
        }
      }
    }
  }

  /** A per-day sensor reads day `n` of its array without halving, which is
      where `get_forecast` reads a daily field for both periods `2n` and `2n+1`. */
  lemma DailySensorsReadDay(data: Json, kind: string, unitSystem: string, n: nat)
    ensures GetSensorData(data, kind, unitSystem, Forecast, Some(n)) == Lookup(data, [Key(kind), Index(n)])
    ensures kind in DAILY_FIELDS ==>
      ForecastPath(kind, 2 * n) == [Key(kind), Index(n)] == ForecastPath(kind, 2 * n + 1)
  {
    LookupStep(data, Key(kind), [Index(n)]);
    var values := GetKey(data, kind);
    if values.Ok? {
      LookupStep(values.value, Index(n), []);
    }
  }

  /** The untagged sensor gets the whole snapshot; any other read can only
      fail with a subscript error. */
  lemma SensorDataErrorKinds(data: Json, kind: string, unitSystem: string, feature: Feature, day: Option<nat>)
    ensures feature == Untagged ==> GetSensorData(data, kind, unitSystem, feature, day) == Ok(data)
    ensures GetSensorData(data, kind, unitSystem, feature, day).Err? ==>
      GetSensorData(data, kind, unitSystem, feature, day).error in {KeyError, IndexError, TypeError}
  {
    LookupErrorKinds(data, [Key(FIELD_OBSERVATIONS), Index(0), Key(unitSystem), Key(kind)]);
    LookupErrorKinds(data, [Key(FIELD_DAYPART), Index(0), Key(kind)]);
    LookupErrorKinds(data, [Key(FIELD_OBSERVATIONS), Index(0), Key(kind)]);
  }

  // ---------------------------------------------------------------------
  // Which sensors `async_setup_entry` creates

  /** A sensor to create: its description, its forecast day, and whether it
      is a forecast sensor (whose refresh passes the day on). */
  datatype Planned = Planned(description: Description, day: Option<nat>, forecastSensor: bool)

  /** One plain sensor per description, without a day. */
  function Untimed(ds: seq<Description>): seq<Planned> {
    if ds == [] then [] else [Planned(ds[0], None, false)] + Untimed(ds[1..])
  }

  /** The forecast sensors of one day: the descriptions with the feature, in order. */
  function OnDay(ds: seq<Description>, feature: Feature, day: nat): seq<Planned> {
    if ds == [] then []
    else (if ds[0].feature == feature then [Planned(ds[0], Some(day), true)] else [])
         + OnDay(ds[1..], feature, day)
  }

  /** `for day in range(days) for description in ... if description.feature == feature`. */
  function ForDays(days: nat, feature: Feature): seq<Planned> {
    if days == 0 then [] else ForDays(days - 1, feature) + OnDay(FORECAST_SENSOR_DESCRIPTIONS, feature, days - 1)
  }

  /** The sensors `async_setup_entry` adds. */
  function SensorsToCreate(forecastEnable: bool): seq<Planned> {
    Untimed(OBS_SENSOR_DESCRIPTIONS)
    + (if forecastEnable
       then ForDays(MAX_FORECAST_DAYS, Forecast) + ForDays(2 * MAX_FORECAST_DAYS, ForecastDaypart)
       else [])
  }

  lemma {:induction false} UntimedMembers(ds: seq<Description>, p: Planned)
    ensures |Untimed(ds)| == |ds|
    ensures p in Untimed(ds) <==> p.description in ds && p.day.None? && !p.forecastSensor
  {
    if ds != [] {
      UntimedMembers(ds[1..], p);
      assert ds == [ds[0]] + ds[1..];
    }
  }

  lemma {:induction false} OnDayMembers(ds: seq<Description>, feature: Feature, day: nat, p: Planned)
    ensures p in OnDay(ds, feature, day) <==>
      p.description in ds && p.description.feature == feature && p.day == Some(day) && p.forecastSensor
  {
    if ds != [] {
      OnDayMembers(ds[1..], feature, day, p);
      assert ds == [ds[0]] + ds[1..];
    }
  }

  lemma {:induction false} ForDaysMembers(days: nat, feature: Feature, p: Planned)
    ensures p in ForDays(days, feature) <==>
      p.description in FORECAST_SENSOR_DESCRIPTIONS && p.description.feature == feature
      && p.day.Some? && p.day.value < days && p.forecastSensor
  {
    if days > 0 {
      ForDaysMembers(days - 1, feature, p);
      OnDayMembers(FORECAST_SENSOR_DESCRIPTIONS, feature, days - 1, p);
    }
  }

  /** What is created: every observation and condition sensor without a day;
      and, only when forecasts are enabled, every per-day description for the
      days `0..4` and every per-half-day description for the periods `0..9`. */
  lemma CreatedSensors(forecastEnable: bool, p: Planned)
    ensures p in SensorsToCreate(forecastEnable) <==>
      (p.description in OBS_SENSOR_DESCRIPTIONS && p.day.None? && !p.forecastSensor)
      || (forecastEnable && p.description in FORECAST_SENSOR_DESCRIPTIONS && p.forecastSensor && p.day.Some?
          && (if p.description.feature == Forecast then p.day.value < MAX_FORECAST_DAYS
              else p.description.feature == ForecastDaypart && p.day.value < 2 * MAX_FORECAST_DAYS))
  {
    UntimedMembers(OBS_SENSOR_DESCRIPTIONS, p);
    ForDaysMembers(MAX_FORECAST_DAYS, Forecast, p);
    ForDaysMembers(2 * MAX_FORECAST_DAYS, ForecastDaypart, p);
    if p.description in FORECAST_SENSOR_DESCRIPTIONS {
      ForecastFeatures(p.description);
    }
  }

  lemma ForecastFeatures(d: Description)
    requires d in FORECAST_SENSOR_DESCRIPTIONS
    ensures d.feature == Forecast || d.feature == ForecastDaypart
  {
    var i :| 0 <= i < |FORECAST_SENSOR_DESCRIPTIONS| && FORECAST_SENSOR_DESCRIPTIONS[i] == d;
    ForecastTags(i);
  }

  lemma {:induction false} OnDayAppend(a: seq<Description>, b: seq<Description>, feature: Feature, day: nat)
    ensures OnDay(a + b, feature, day) == OnDay(a, feature, day) + OnDay(b, feature, day)
  {
    if a == [] {
      assert a + b == b;
    } else {
      var head := if a[0].feature == feature then [Planned(a[0], Some(day), true)] else [];
      assert (a + b)[0] == a[0] && (a + b)[1..] == a[1..] + b;
      OnDayAppend(a[1..], b, feature, day);
      assert OnDay(a + b, feature, day) == head + (OnDay(a[1..], feature, day) + OnDay(b, feature, day));
    }
  }

  /** The length of `OnDay` when all or none of the descriptions have the feature. */
  lemma {:induction false} OnDayUniform(ds: seq<Description>, feature: Feature, day: nat, all: bool)
    requires forall i :: 0 <= i < |ds| ==> (ds[i].feature == feature) == all
    ensures |OnDay(ds, feature, day)| == if all then |ds| else 0
  {
    if ds != [] {
      OnDayUniform(ds[1..], feature, day, all);
    }
  }

  lemma OnDayCounts(day: nat)
    ensures |OnDay(FORECAST_SENSOR_DESCRIPTIONS, Forecast, day)| == 2
    ensures |OnDay(FORECAST_SENSOR_DESCRIPTIONS, ForecastDaypart, day)| == 5
  {
    var ds := FORECAST_SENSOR_DESCRIPTIONS;
    forall i | 0 <= i < |ds| {
      ForecastTags(i);
    }
    assert ds == ds[..2] + ds[2..];
    OnDayAppend(ds[..2], ds[2..], Forecast, day);
    OnDayAppend(ds[..2], ds[2..], ForecastDaypart, day);
    OnDayUniform(ds[..2], Forecast, day, true);
    OnDayUniform(ds[2..], Forecast, day, false);
    OnDayUniform(ds[..2], ForecastDaypart, day, false);
    OnDayUniform(ds[2..], ForecastDaypart, day, true);
  }

  lemma {:induction false} ForDaysCount(days: nat)
    ensures |ForDays(days, Forecast)| == 2 * days
    ensures |ForDays(days, ForecastDaypart)| == 5 * days
  {
    if days > 0 {
      ForDaysCount(days - 1);
      OnDayCounts(days - 1);
    }
  }

  lemma ObsCount()
    ensures |Untimed(OBS_SENSOR_DESCRIPTIONS)| == 18
  {
    UntimedMembers(OBS_SENSOR_DESCRIPTIONS, Planned(OBS_SENSOR_DESCRIPTIONS[0], None, false));
  }

  /** Eighteen sensors without forecasts, seventy-eight with them. */
  lemma SensorCount(forecastEnable: bool)
    ensures |SensorsToCreate(forecastEnable)| == if forecastEnable then 78 else 18
  {
    ObsCount();
    if forecastEnable {
      ForDaysCount(MAX_FORECAST_DAYS);
      ForDaysCount(2 * MAX_FORECAST_DAYS);
    }
  }

  // ---------------------------------------------------------------------
  // Unique ids and requested object ids

  /** What follows the key in a unique id: nothing without a day, `_{day}f`
      for a per-day sensor and `_{day}fdp` for a per-half-day one. */
  function IdSuffix(feature: Feature, day: Option<nat>): string {
    match day
    case None => ""
    case Some(n) => "_" + NatText(n) + (if feature == ForecastDaypart then "fdp" else "f")
  }

  /** `_attr_unique_id`: the lower-cased `{pws_id},{key}` and the day suffix. */
  function UniqueId(pwsId: string, p: Planned): string {
    Lower(pwsId + "," + p.description.key + IdSuffix(p.description.feature, p.day))
  }

  /** The suffix of the object id `generate_entity_id` is asked for: the day
      for a per-day sensor, and the period with `d` (the even periods of the
      five days) or `n` (any other) for a per-half-day one. */
  function ObjectIdSuffix(feature: Feature, day: Option<nat>): string {
    match day
    case None => ""
    case Some(n) =>
      "_" + NatText(n)
      + (if feature != ForecastDaypart then ""
         else if n % 2 == 0 && n < 2 * MAX_FORECAST_DAYS then "d" else "n")
  }

  /** The object id requested for a sensor, before `generate_entity_id`
      turns it into a unique entity id. */
  function RequestedObjectId(pwsId: string, p: Planned): string {
    pwsId + "_" + p.description.name + ObjectIdSuffix(p.description.feature, p.day)
  }

  /** Of the ten half-day periods the even ones are days and the odd ones
      nights, as in the provider's `daypart` arrays, which start with today's
      day part. */
  lemma DayNightSuffix(pwsId: string, p: Planned)
    requires p.description.feature == ForecastDaypart && p.day.Some? && p.day.value < 2 * MAX_FORECAST_DAYS
    ensures var o := RequestedObjectId(pwsId, p);
      o[|o| - 1] == (if p.day.value % 2 == 0 then 'd' else 'n')
  {
  }

  // Why unique ids never collide. Lower-casing keeps every character of
  // the day suffix, never produces '_', and is told apart, on the keys of
  // the tables, by the length and two characters of the lower-cased key.

  predicate NoUnderscore(s: string) {
    forall k :: 0 <= k < |s| ==> s[k] != '_'
  }

  predicate NoUpper(s: string) {
    forall k :: 0 <= k < |s| ==> !('A' <= s[k] <= 'Z')
  }

  lemma LowerKeeps(s: string)
    requires NoUpper(s)
    ensures Lower(s) == s
  {
  }

  lemma IdSuffixShape(feature: Feature, day: Option<nat>)
    ensures var t := IdSuffix(feature, day);
      NoUpper(t) && Lower(t) == t && (t == [] <==> day.None?) && (t != [] ==> t[0] == '_')
  {
    var t := IdSuffix(feature, day);
    assert NoUpper(t) by {
      if day.Some? {
        var digits := NatText(day.value);
        assert forall k :: 0 <= k < |digits| ==> IsDigit(digits[k]);
      }
    }
    LowerKeeps(t);
  }

  /** The length and the lower-cased first and fifth characters. */
  function Fingerprint(s: string): (int, char, char) {
    (|s|, if |s| > 0 then LowerChar(s[0]) else ' ', if |s| > 4 then LowerChar(s[4]) else ' ')
  }

  lemma FingerprintOfLower(a: string, b: string)
    requires Lower(a) == Lower(b)
    ensures Fingerprint(a) == Fingerprint(b)
  {
    assert |a| == |Lower(a)| == |Lower(b)| == |b|;
    if |a| > 0 {
      assert LowerChar(a[0]) == Lower(a)[0] == Lower(b)[0] == LowerChar(b[0]);
    }
    if |a| > 4 {
      assert LowerChar(a[4]) == Lower(a)[4] == Lower(b)[4] == LowerChar(b[4]);
    }
  }

  lemma LowerNoUnderscore(s: string)
    requires NoUnderscore(s)
    ensures NoUnderscore(Lower(s))
  {
  }

  // The fingerprints of the keys of the three tables, in table order.
  const OBSERVATION_PRINTS: seq<(int, char, char)> := [
    (12, 'n', 'h'), (12, 'o', 'i'), (8, 'h', 'd'), (9, 's', 'i'), (14, 's', 'r'), (2, 'u', ' '),
    (7, 'w', 'd'), (21, 'w', 'd')]
  const CONDITION_PRINTS: seq<(int, char, char)> := [
    (4, 'e', ' '), (5, 'd', 't'), (4, 't', ' '), (9, 'h', 'i'), (9, 'w', 'c'),
    (10, 'p', 'i'), (11, 'p', 'i'), (8, 'p', 's'), (8, 'w', 'g'), (9, 'w', 's')]
  const FORECAST_PRINTS: seq<(int, char, char)> := [
    (9, 'n', 'a'), (7, 'q', 'n'), (11, 't', 'e'), (9, 'n', 'a'), (9, 'w', 's'), (3, 'q', ' '), (12, 'p', 'i')]

  lemma ObservationPrints(i: nat)
    requires i < |OBSERVATION_DESCRIPTIONS|
    ensures Fingerprint(OBSERVATION_DESCRIPTIONS[i].key) == OBSERVATION_PRINTS[i]
  {
  }

  lemma ObservationKeysPlain(i: nat)
    requires i < |OBSERVATION_DESCRIPTIONS|
    ensures NoUnderscore(OBSERVATION_DESCRIPTIONS[i].key)
  {
  }

  lemma ConditionPrints(i: nat)
    requires i < |CONDITION_DESCRIPTIONS|
    ensures Fingerprint(CONDITION_DESCRIPTIONS[i].key) == CONDITION_PRINTS[i]
  {
  }

  lemma ConditionKeysPlain(i: nat)
    requires i < |CONDITION_DESCRIPTIONS|
    ensures NoUnderscore(CONDITION_DESCRIPTIONS[i].key)
  {
  }

  lemma ForecastPrints(i: nat)
    requires i < |FORECAST_SENSOR_DESCRIPTIONS|
    ensures Fingerprint(FORECAST_SENSOR_DESCRIPTIONS[i].key) == FORECAST_PRINTS[i]
  {
  }

  lemma ForecastKeysPlain(i: nat)
    requires i < |FORECAST_SENSOR_DESCRIPTIONS|
    ensures NoUnderscore(FORECAST_SENSOR_DESCRIPTIONS[i].key)
  {
  }

  /** The fingerprint of an observation or condition sensor's key, and that it has no '_'. */
  lemma ObsPrint(i: nat)
    requires i < |OBS_SENSOR_DESCRIPTIONS|
    ensures Fingerprint(OBS_SENSOR_DESCRIPTIONS[i].key) == (OBSERVATION_PRINTS + CONDITION_PRINTS)[i]
    ensures NoUnderscore(OBS_SENSOR_DESCRIPTIONS[i].key)
  {
    if i < |OBSERVATION_DESCRIPTIONS| {
      assert OBS_SENSOR_DESCRIPTIONS[i] == OBSERVATION_DESCRIPTIONS[i];
      ObservationPrints(i);
      ObservationKeysPlain(i);
    } else {
      assert OBS_SENSOR_DESCRIPTIONS[i] == CONDITION_DESCRIPTIONS[i - |OBSERVATION_DESCRIPTIONS|];
      ConditionPrints(i - |OBSERVATION_DESCRIPTIONS|);
      ConditionKeysPlain(i - |OBSERVATION_DESCRIPTIONS|);
    }
  }

  lemma ObsPrintsDistinct(i: nat, j: nat)
    requires i < |OBSERVATION_PRINTS + CONDITION_PRINTS| && j < |OBSERVATION_PRINTS + CONDITION_PRINTS|
    requires (OBSERVATION_PRINTS + CONDITION_PRINTS)[i] == (OBSERVATION_PRINTS + CONDITION_PRINTS)[j]
    ensures i == j
  {
  }

  /** The keys of one half of a forecast table are told apart by fingerprint. */
  lemma ForecastPrintsDistinct(i: nat, j: nat)
    requires i < |FORECAST_SENSOR_DESCRIPTIONS| && j < |FORECAST_SENSOR_DESCRIPTIONS|
    requires (i < 2) == (j < 2) && FORECAST_PRINTS[i] == FORECAST_PRINTS[j]
    ensures i == j
  {
  }

  /** Where two splittings of one string disagree on the length of the
      first part, the longer first part holds the start of the other suffix. */
  lemma SuffixStartInside(a: string, s: string, b: string, t: string)
    requires a + s == b + t && |a| < |b| && s != []
    ensures b[|a|] == s[0]
  {
    assert (a + s)[|a|] == s[0];
    assert (b + t)[|a|] == b[|a|];
  }

  /** A key without '_' followed by a suffix that is empty or starts with '_'
      can be split back into the two. */
  lemma SplitAtSuffix(a: string, s: string, b: string, t: string)
    requires NoUnderscore(a) && NoUnderscore(b)
    requires s == [] || s[0] == '_'
    requires t == [] || t[0] == '_'
    requires a + s == b + t
    ensures a == b && s == t
  {
    if |a| < |b| {
      if s != [] {
        SuffixStartInside(a, s, b, t);
      }
      assert false;
    } else if |b| < |a| {
      if t != [] {
        SuffixStartInside(b, t, a, s);
      }
      assert false;
    }
    assert a == (a + s)[..|a|] == (b + t)[..|b|] == b;
    assert s == (a + s)[|a|..] == (b + t)[|b|..] == t;
  }

  lemma CancelHead(h: string, x: string, y: string)
    requires h + x == h + y
    ensures x == y
  {
    assert x == (h + x)[|h|..];
    assert y == (h + y)[|h|..];
  }

  /** Equal lower-cased texts with a common head have equal lower-cased tails. */
  lemma LowerTail(w: string, a: string, b: string)
    requires Lower(w + a) == Lower(w + b)
    ensures Lower(a) == Lower(b)
  {
    LowerAppend(w, a);
    LowerAppend(w, b);
    CancelHead(Lower(w), Lower(a), Lower(b));
  }

  /** The same, for a tail made of two parts. */
  lemma TailOfLower(w: string, x: string, y: string, u: string, v: string)
    requires Lower(w + x + y) == Lower(w + u + v)
    ensures Lower(x) + Lower(y) == Lower(u) + Lower(v)
  {
    Regroup(w, x, y);
    Regroup(w, u, v);
    LowerTail(w, x + y, u + v);
    LowerAppend(x, y);
    LowerAppend(u, v);
  }

  lemma Regroup(w: string, x: string, y: string)
    ensures w + x + y == w + (x + y)
  {
  }

  /** The day suffix gives back the day, and whether it is a half-day. */
  lemma {:induction false} IdSuffixInjective(f: Feature, m: Option<nat>, g: Feature, n: Option<nat>)
    requires IdSuffix(f, m) == IdSuffix(g, n)
    ensures m == n
    ensures m.Some? ==> (f == ForecastDaypart <==> g == ForecastDaypart)
  {
    IdSuffixShape(f, m);
    IdSuffixShape(g, n);
    if m.Some? {
      var tf := if f == ForecastDaypart then "fdp" else "f";
      var tg := if g == ForecastDaypart then "fdp" else "f";
      var s := IdSuffix(f, m);
      assert s == "_" + NatText(m.value) + tf == "_" + NatText(n.value) + tg;
      assert s[|s| - 1] == tf[|tf| - 1] && s[|s| - 1] == tg[|tg| - 1];
      assert tf == tg;
      assert NatText(m.value) == s[1..|s| - |tf|] == NatText(n.value);
      NatTextInjective(m.value, n.value);
    }
  }

  /** Equal unique ids have equal lower-cased keys and equal day suffixes. */
  lemma SameIdSameKeyAndDay(pwsId: string, p: Planned, q: Planned)
    requires NoUnderscore(p.description.key) && NoUnderscore(q.description.key)
    requires UniqueId(pwsId, p) == UniqueId(pwsId, q)
    ensures Lower(p.description.key) == Lower(q.description.key)
    ensures p.day == q.day
    ensures p.day.Some? ==> (p.description.feature == ForecastDaypart <==> q.description.feature == ForecastDaypart)
  {
    var kp, kq := p.description.key, q.description.key;
    var sp, sq := IdSuffix(p.description.feature, p.day), IdSuffix(q.description.feature, q.day);
    TailOfLower(pwsId + ",", kp, sp, kq, sq);
    IdSuffixShape(p.description.feature, p.day);
    IdSuffixShape(q.description.feature, q.day);
    LowerNoUnderscore(kp);
    LowerNoUnderscore(kq);
    SplitAtSuffix(Lower(kp), sp, Lower(kq), sq);
    IdSuffixInjective(p.description.feature, p.day, q.description.feature, q.day);
  }

  lemma ObsIndex(d: Description) returns (i: nat)
    requires d in OBS_SENSOR_DESCRIPTIONS
    ensures i < |OBS_SENSOR_DESCRIPTIONS| && OBS_SENSOR_DESCRIPTIONS[i] == d
    ensures Fingerprint(d.key) == (OBSERVATION_PRINTS + CONDITION_PRINTS)[i]
    ensures NoUnderscore(d.key)
  {
    i :| 0 <= i < |OBS_SENSOR_DESCRIPTIONS| && OBS_SENSOR_DESCRIPTIONS[i] == d;
    ObsPrint(i);
  }

  lemma ForecastIndex(d: Description) returns (i: nat)
    requires d in FORECAST_SENSOR_DESCRIPTIONS
    ensures i < |FORECAST_SENSOR_DESCRIPTIONS| && FORECAST_SENSOR_DESCRIPTIONS[i] == d
    ensures Fingerprint(d.key) == FORECAST_PRINTS[i]
    ensures d.feature == ForecastDaypart <==> i >= 2
    ensures NoUnderscore(d.key)
  {
    i :| 0 <= i < |FORECAST_SENSOR_DESCRIPTIONS| && FORECAST_SENSOR_DESCRIPTIONS[i] == d;
    ForecastTags(i);
    ForecastPrints(i);
    ForecastKeysPlain(i);
  }

  /** The shape every created sensor has: a table description, and a day
      exactly when it is a forecast sensor. */
  predicate PlannedShape(p: Planned) {
    (p.description in OBS_SENSOR_DESCRIPTIONS && p.day.None? && !p.forecastSensor)
    || (p.description in FORECAST_SENSOR_DESCRIPTIONS && p.day.Some? && p.forecastSensor)
  }

  lemma CreatedShape(forecastEnable: bool, p: Planned)
    requires p in SensorsToCreate(forecastEnable)
    ensures PlannedShape(p)
  {
    CreatedSensors(forecastEnable, p);
  }

  /** Where a sensor's description sits in its table, with what the
      uniqueness argument needs to know about its key. */
  lemma PlannedIndex(p: Planned) returns (i: nat)
    requires PlannedShape(p)
    ensures p.day.None? ==>
      i < |OBS_SENSOR_DESCRIPTIONS| && OBS_SENSOR_DESCRIPTIONS[i] == p.description
      && Fingerprint(p.description.key) == (OBSERVATION_PRINTS + CONDITION_PRINTS)[i]
    ensures p.day.Some? ==>
      i < |FORECAST_SENSOR_DESCRIPTIONS| && FORECAST_SENSOR_DESCRIPTIONS[i] == p.description
      && Fingerprint(p.description.key) == FORECAST_PRINTS[i]
      && (p.description.feature == ForecastDaypart <==> i >= 2)
    ensures NoUnderscore(p.description.key)
  {
    if p.day.None? {
      i := ObsIndex(p.description);
    } else {
      i := ForecastIndex(p.description);
    }
  }

  /** Unique ids are unique: two created sensors with the same unique id are
      the same sensor, although "narrative" is the key of two descriptions
      and lower-casing merges letters. */
  lemma UniqueIdsAreUnique(pwsId: string, forecastEnable: bool, p: Planned, q: Planned)
    requires p in SensorsToCreate(forecastEnable) && q in SensorsToCreate(forecastEnable)
    requires UniqueId(pwsId, p) == UniqueId(pwsId, q)
    ensures p == q
  {
    CreatedShape(forecastEnable, p);
    CreatedShape(forecastEnable, q);
    var i := PlannedIndex(p);
    var j := PlannedIndex(q);
    SameIdSameKeyAndDay(pwsId, p, q);
    FingerprintOfLower(p.description.key, q.description.key);
    if p.day.None? {
      ObsPrintsDistinct(i, j);
    } else {
      ForecastPrintsDistinct(i, j);
    }
  }

  // ---------------------------------------------------------------------
  // Unit, name and availability

  /** `_attr_native_unit_of_measurement`: the unit function's answer, which
      may be None, or the empty string when the sensor data is None. */
  datatype NativeUnitValue = NoUnitOfMeasurement | UnitIs(unit: Unit) | EmptyUnit

  function NativeUnit(d: Description, sensorData: Json, hostIsMetric: bool): (r: NativeUnitValue)
    ensures r == EmptyUnit <==> sensorData == JNull
    ensures sensorData != JNull ==>
      (r == NoUnitOfMeasurement <==> d.unitFn.NoUnit?)
      && (d.unitFn.ByMetric? ==> r == UnitIs(if hostIsMetric then d.unitFn.metric else d.unitFn.imperial))
      && (d.unitFn.Fixed? ==> r == UnitIs(d.unitFn.unit))
  {
    if sensorData == JNull then EmptyUnit
    else match ApplyUnit(d.unitFn, hostIsMetric)
      case None => NoUnitOfMeasurement
      case Some(u) => UnitIs(u)
  }

  /** A sensor is available while the coordinator holds a snapshot. Once it
      has one it keeps one, whatever later cycles do, and the first completed
      cycle makes it available. */
  lemma AvailabilityPersists(s: Settings, data: Json, fetch: Network)
    ensures data != JNull ==> Cycle(s, data, fetch).data != JNull
    ensures Cycle(s, data, fetch).outcome == Completed ==> Cycle(s, data, fetch).data != JNull
  {
    FailedRunKeepsData(s, data, fetch, CurrentRequest(s), ForecastUrlFor(s));
  }

  /** Python's `key in j.keys()`: only a dict has `keys`. */
  function KeysContain(j: Json, key: string): Result<bool, PyError> {
    if j.JObj? then Ok(key in j.fields) else Err(AttributeError)
  }

  /** `name`: the translated caption, followed for a per-half-day sensor by the
      period's name (or the translated "expired" when the provider no longer
      names it) and for a per-day sensor by the day of the week; the
      description's own name when the key has no translation. */
  function Name(tranfile: Json, data: Json, d: Description, day: Option<nat>): Result<Json, PyError> {
    var topLevel :- KeysContain(tranfile, d.key);
    var translated :-
      if topLevel then Ok(true)
      else
        var daypartTable :- GetKey(tranfile, FIELD_DAYPART);
        KeysContain(daypartTable, d.key);
    if !translated then Ok(JStr(d.name))
    else if day.None? then GetKey(tranfile, d.key)
    else if d.feature == ForecastDaypart then
      var periodName :- Lookup(data, [Key(FIELD_DAYPART), Index(0), Key(FIELD_FORECAST_DAYPARTNAME), Index(day.value)]);
      var daypartTable :- GetKey(tranfile, FIELD_DAYPART);
      var caption :- GetKey(daypartTable, d.key);
      var prefix :- Add(caption, JStr(" "));
      if periodName != JNull then Add(prefix, periodName)
      else
        var expired :- GetKey(daypartTable, FIELD_FORECAST_EXPIRED);
        Add(prefix, expired)
    else
      var caption :- GetKey(tranfile, d.key);
      var prefix :- Add(caption, JStr(" "));
      var weekday :- Lookup(data, [Key(FIELD_FORECAST_DAYOFWEEK), Index(day.value)]);
      Add(prefix, weekday)
  }

  /** The snapshot's period names: `daypart[0]['daypartName']`. */
  predicate HasPeriodNames(data: Json, names: seq<Json>) {
    data.JObj? && FIELD_DAYPART in data.fields && data.fields[FIELD_DAYPART].JArr?
    && |data.fields[FIELD_DAYPART].items| > 0 && data.fields[FIELD_DAYPART].items[0].JObj?
    && FIELD_FORECAST_DAYPARTNAME in data.fields[FIELD_DAYPART].items[0].fields
    && data.fields[FIELD_DAYPART].items[0].fields[FIELD_FORECAST_DAYPARTNAME] == JArr(names)
  }

  /** A key the translation tables do not know keeps the description's name. */
  lemma UntranslatedName(top: map<string, Json>, daypart: map<string, Json>, data: Json,
                         d: Description, day: Option<nat>)
    requires FIELD_DAYPART in top && top[FIELD_DAYPART] == JObj(daypart)
    requires d.key !in top && d.key !in daypart
    ensures Name(JObj(top), data, d, day) == Ok(JStr(d.name))
  {
  }

  lemma PeriodNameRead(data: Json, names: seq<Json>, n: nat)
    requires HasPeriodNames(data, names) && n < |names|
    ensures Lookup(data, [Key(FIELD_DAYPART), Index(0), Key(FIELD_FORECAST_DAYPARTNAME), Index(n)]) == Ok(names[n])
  {
    var path := [Key(FIELD_DAYPART), Index(0), Key(FIELD_FORECAST_DAYPARTNAME), Index(n)];
    LookupStep(data, path[0], path[1..]);
    LookupStep(data.fields[FIELD_DAYPART], path[1], path[2..]);
    LookupStep(data.fields[FIELD_DAYPART].items[0], path[2], path[3..]);
    LookupStep(JArr(names), path[3], []);
  }

  /** A half-day sensor is named by its caption and the period's name, or by
      its caption and "expired" once the provider reports no name. */
  lemma DaypartName(top: map<string, Json>, daypart: map<string, Json>, data: Json,
                    d: Description, n: nat, names: seq<Json>, caption: string)
    requires FIELD_DAYPART in top && top[FIELD_DAYPART] == JObj(daypart)
    requires d.key in daypart && daypart[d.key] == JStr(caption)
    requires d.feature == ForecastDaypart
    requires HasPeriodNames(data, names) && n < |names|
    requires names[n].JStr? || (names[n] == JNull && FIELD_FORECAST_EXPIRED in daypart
                                && daypart[FIELD_FORECAST_EXPIRED].JStr?)
    ensures Name(JObj(top), data, d, Some(n))
      == Ok(JStr(caption + " " + (if names[n].JStr? then names[n].s else daypart[FIELD_FORECAST_EXPIRED].s)))
  {
    PeriodNameRead(data, names, n);
  }

  /** A per-day sensor is named by its caption and the day of the week. */
  lemma DailyName(top: map<string, Json>, data: Json, d: Description, n: nat,
                  weekdays: seq<Json>, caption: string, weekday: string)
    requires d.key in top && top[d.key] == JStr(caption)
    requires d.feature != ForecastDaypart
    requires data.JObj? && FIELD_FORECAST_DAYOFWEEK in data.fields
    requires data.fields[FIELD_FORECAST_DAYOFWEEK] == JArr(weekdays)
    requires n < |weekdays| && weekdays[n] == JStr(weekday)
    ensures Name(JObj(top), data, d, Some(n)) == Ok(JStr(caption + " " + weekday))
  {
    var path := [Key(FIELD_FORECAST_DAYOFWEEK), Index(n)];
    LookupStep(data, path[0], path[1..]);
    LookupStep(JArr(weekdays), path[1], []);
  }

  /** A key translated only in the half-day table cannot name a sensor that
      is not a half-day sensor: the top-level lookup raises KeyError. */
  lemma KeyOnlyInDaypartTable(top: map<string, Json>, daypart: map<string, Json>, data: Json,
                              d: Description, day: Option<nat>)
    requires FIELD_DAYPART in top && top[FIELD_DAYPART] == JObj(daypart)
    requires d.key !in top && d.key in daypart
    requires day.None? || d.feature != ForecastDaypart
    ensures Name(JObj(top), data, d, day) == Err(KeyError)
  {
  }

  // ---------------------------------------------------------------------
  // The sensor entity

  /** A sensor entity: what it was created with, and the value it last read. */
  class PwsSensor {
    const coordinator: WUndergroundData
    const description: Description
    const forecastDay: Option<nat>
    const forecastSensor: bool
    const uniqueId: string
    const objectId: string
    const nativeUnit: NativeUnitValue
    var sensorData: Json

    /** The day the refresh passes on: the plain sensor passes none. */
    function RefreshDay(): Option<nat>
      reads this
    {
      if forecastSensor then forecastDay else None
    }

    /** `available`. */
    function Available(): (r: bool)
      reads this, coordinator
      ensures r <==> coordinator.data != JNull
    {
      coordinator.data != JNull
    }

    /** `native_value`: the value function applied to the last read. */
    function NativeValue(): Result<Json, PyError>
      reads this
    {
      ApplyValue(description.valueFn, sensorData)
    }

    constructor (coordinator: WUndergroundData, p: Planned, hostIsMetric: bool, sensorData: Json)
      ensures this.coordinator == coordinator && description == p.description
      ensures forecastDay == p.day && forecastSensor == p.forecastSensor
      ensures uniqueId == UniqueId(coordinator.pwsId, p)
      ensures objectId == RequestedObjectId(coordinator.pwsId, p)
      ensures nativeUnit == NativeUnit(p.description, sensorData, hostIsMetric)
      ensures this.sensorData == sensorData
    {
      this.coordinator := coordinator;
      description := p.description;
      forecastDay := p.day;
      forecastSensor := p.forecastSensor;
      uniqueId := UniqueId(coordinator.pwsId, p);
      objectId := RequestedObjectId(coordinator.pwsId, p);
      nativeUnit := NativeUnit(p.description, sensorData, hostIsMetric);
      this.sensorData := sensorData;
    }

    /** `_handle_coordinator_update`: read the value again from the current
      snapshot; an exception leaves the last value in place. */
    method HandleCoordinatorUpdate() returns (error: Option<PyError>)
      modifies this
      ensures var read := GetSensorData(coordinator.data, description.key, coordinator.unitSystem,
                                        description.feature, RefreshDay());
        (read.Ok? ==> sensorData == read.value && error.None?)
        && (read.Err? ==> sensorData == old(sensorData) && error == Some(read.error))
    {
      var read := GetSensorData(coordinator.data, description.key, coordinator.unitSystem,
                                description.feature, RefreshDay());
      if read.Ok? {
        sensorData := read.value;
        error := None;
      } else {
        error := Some(read.error);
      }
    }
  }

  /** The entity constructor: the unique id, the object id, the first read
      of the sensor data (an exception aborts the creation) and the unit
      chosen from that read. */
  method NewSensor(coordinator: WUndergroundData, p: Planned, hostIsMetric: bool)
    returns (r: Result<PwsSensor, PyError>)
    ensures var read := GetSensorData(coordinator.data, p.description.key, coordinator.unitSystem,
                                      p.description.feature, p.day);
      (r.Ok? <==> read.Ok?) && (r.Err? ==> r.error == read.error)
      && (r.Ok? ==>
            fresh(r.value) && r.value.coordinator == coordinator
            && r.value.description == p.description && r.value.forecastDay == p.day
            && r.value.forecastSensor == p.forecastSensor
            && r.value.uniqueId == UniqueId(coordinator.pwsId, p)
            && r.value.objectId == RequestedObjectId(coordinator.pwsId, p)
            && r.value.sensorData == read.value
            && r.value.nativeUnit == NativeUnit(p.description, read.value, hostIsMetric))
  {
    var read := GetSensorData(coordinator.data, p.description.key, coordinator.unitSystem,
                              p.description.feature, p.day);
    if read.Err? {
      return Err(read.error);
    }
    var sensor := new PwsSensor(coordinator, p, hostIsMetric, read.value);
    return Ok(sensor);
  }

  /** Every created sensor refreshes from the place it first read: a plain
      sensor has no day to pass, and a forecast sensor passes its own. */
  lemma RefreshReadsTheSamePlace(forecastEnable: bool, p: Planned)
    requires p in SensorsToCreate(forecastEnable)
    ensures (if p.forecastSensor then p.day else None) == p.day
  {
    CreatedSensors(forecastEnable, p);
  }
}
