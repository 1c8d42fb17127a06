/** The pure part of the Weather Underground data object: the request URLs,
    the provider error check and the two snapshot accessors. The data object
    of the update coordinator repeats these methods word for word, so they are
    modelled once. */
module WuData {
  import opened Wrappers
  import opened Json
  import opened PyText
  import opened Const

  // The request templates, spelled as literal text and `{name}` fields
  // (`Template` writes each field back as `{name}`).
  const HOST: seq<Plain> := "https://api.weather.com"
  const CURRENT_PATH: seq<Plain> := "/v2/pws/observations/current"
  const FORECAST_PATH: seq<Plain> := "/v3/wx/forecast/daily/5day"

  const SHARED_PIECES := [Text("&format=json"), Text("&apiKey="), Field("apiKey"), Text("&units="), Field("units")]
  const CURRENT_PIECES := [Text(HOST), Text(CURRENT_PATH), Text("?stationId="), Field("stationId")]
  const FORECAST_PIECES := [Text(HOST), Text(FORECAST_PATH), Text("?geocode="), Field("latitude"), Text(","), Field("longitude")]
  const PRECISION_PIECES := [Text("&numericPrecision="), Field("numericPrecision")]
  const LANGUAGE_PIECES := [Text("&language="), Field("language")]

  const RESOURCE_SHARED := Template(SHARED_PIECES)
  const RESOURCE_CURRENT := Template(CURRENT_PIECES)
  const RESOURCE_FORECAST := Template(FORECAST_PIECES)

  /** What the data object keeps for building requests. A coordinate that was
      not configured is `JNull` (Python's None) until the first observation
      fills it in. */
  datatype Settings = Settings(
    apiKey: string,
    pwsId: string,
    numericPrecision: string,
    unitSystemApi: string,
    lang: string,
    latitude: Json,
    longitude: Json)

  function UrlArgNames(): set<string> {
    {"apiKey", "language", "latitude", "longitude", "numericPrecision", "stationId", "units"}
  }

  /** The keyword arguments `_build_url` passes to `format`; a coordinate is
      converted with `str`. */
  function UrlArgs(s: Settings): map<string, string> {
    map[
      "apiKey" := s.apiKey,
      "language" := s.lang,
      "latitude" := StrOf(s.latitude),
      "longitude" := StrOf(s.longitude),
      "numericPrecision" := s.numericPrecision,
      "stationId" := s.pwsId,
      "units" := s.unitSystemApi
    ]
  }

  lemma UrlArgsValues(s: Settings)
    ensures UrlArgNames() == UrlArgs(s).Keys
    ensures UrlArgs(s)["apiKey"] == s.apiKey && UrlArgs(s)["units"] == s.unitSystemApi
    ensures UrlArgs(s)["stationId"] == s.pwsId && UrlArgs(s)["numericPrecision"] == s.numericPrecision
    ensures UrlArgs(s)["language"] == s.lang
    ensures UrlArgs(s)["latitude"] == StrOf(s.latitude) && UrlArgs(s)["longitude"] == StrOf(s.longitude)
  {
  }

  /** `_build_url`: the endpoint-specific query parameters, the shared ones,
      then `format`. */
  function BuildUrl(baseUrl: string, s: Settings): Result<string, PyError> {
    var withQuery :=
      if baseUrl == RESOURCE_CURRENT then
        if s.numericPrecision != "none" then baseUrl + Template(PRECISION_PIECES) else baseUrl
      else if baseUrl == RESOURCE_FORECAST then baseUrl + Template(LANGUAGE_PIECES)
      else baseUrl;
    Format(withQuery + RESOURCE_SHARED, UrlArgs(s))
  }

  /** The shared query parameters every request ends with. */
  function SharedSuffix(s: Settings): string {
    "&format=json" + "&apiKey=" + s.apiKey + "&units=" + s.unitSystemApi
  }

  /** The observations URL spelled out: the station, the precision parameter
      exactly when the precision is not `none`, no language, the shared suffix. */
  function CurrentRequest(s: Settings): string {
    "https://api.weather.com" + "/v2/pws/observations/current" + "?stationId=" + s.pwsId
    + (if s.numericPrecision != "none" then "&numericPrecision=" + s.numericPrecision else "")
    + SharedSuffix(s)
  }

  /** The forecast URL spelled out for the coordinates `lat` and `lon`: both
      as `str` renders them, the language, the shared suffix. */
  function ForecastRequest(s: Settings, lat: Json, lon: Json): string {
    "https://api.weather.com" + "/v3/wx/forecast/daily/5day" + "?geocode=" + StrOf(lat) + "," + StrOf(lon)
    + "&language=" + s.lang + SharedSuffix(s)
  }

  /** Every field the templates name is one of the arguments `_build_url` passes. */
  lemma TemplatesWellFormed(args: map<string, string>)
    requires UrlArgNames() <= args.Keys
    ensures WellFormed(SHARED_PIECES, args)
    ensures WellFormed(CURRENT_PIECES, args) && WellFormed(PRECISION_PIECES, args)
    ensures WellFormed(FORECAST_PIECES, args) && WellFormed(LANGUAGE_PIECES, args)
  {
  }

  /** Each template piece list substitutes to its text with the arguments in place. */
  lemma SharedPieces(args: map<string, string>, apiKey: string, units: string)
    requires "apiKey" in args && args["apiKey"] == apiKey && "units" in args && args["units"] == units
    ensures Substitute(SHARED_PIECES, args) == "&format=json" + "&apiKey=" + apiKey + "&units=" + units
  {
    assert Substitute(SHARED_PIECES[4..], args) == units;
    assert Substitute(SHARED_PIECES[3..], args) == "&units=" + units;
    assert Substitute(SHARED_PIECES[2..], args) == apiKey + "&units=" + units;
    assert Substitute(SHARED_PIECES[1..], args) == "&apiKey=" + apiKey + "&units=" + units;
  }

  lemma CurrentPieces(args: map<string, string>, stationId: string)
    requires "stationId" in args && args["stationId"] == stationId
    ensures Substitute(CURRENT_PIECES, args)
      == "https://api.weather.com" + "/v2/pws/observations/current" + "?stationId=" + stationId
  {
    assert Substitute(CURRENT_PIECES[3..], args) == stationId;
    assert Substitute(CURRENT_PIECES[2..], args) == "?stationId=" + stationId;
    assert Substitute(CURRENT_PIECES[1..], args) == "/v2/pws/observations/current" + "?stationId=" + stationId;
  }

  lemma PrecisionPieces(args: map<string, string>, precision: string)
    requires "numericPrecision" in args && args["numericPrecision"] == precision
    ensures Substitute(PRECISION_PIECES, args) == "&numericPrecision=" + precision
  {
    assert Substitute(PRECISION_PIECES[1..], args) == precision;
  }

  lemma LanguagePieces(args: map<string, string>, lang: string)
    requires "language" in args && args["language"] == lang
    ensures Substitute(LANGUAGE_PIECES, args) == "&language=" + lang
  {
    assert Substitute(LANGUAGE_PIECES[1..], args) == lang;
  }

  lemma ForecastPieces(args: map<string, string>, lat: string, lon: string)
    requires "latitude" in args && args["latitude"] == lat && "longitude" in args && args["longitude"] == lon
    ensures Substitute(FORECAST_PIECES, args)
      == "https://api.weather.com" + "/v3/wx/forecast/daily/5day" + "?geocode=" + lat + "," + lon
  {
    assert Substitute(FORECAST_PIECES[5..], args) == lon;
    assert Substitute(FORECAST_PIECES[4..], args) == "," + lon;
    assert Substitute(FORECAST_PIECES[3..], args) == lat + "," + lon;
    assert Substitute(FORECAST_PIECES[2..], args) == "?geocode=" + lat + "," + lon;
    assert Substitute(FORECAST_PIECES[1..], args) == "/v3/wx/forecast/daily/5day" + "?geocode=" + lat + "," + lon;
  }

  /** The two endpoints are different templates (they differ in the API version). */
  lemma EndpointsDiffer()
    ensures RESOURCE_CURRENT != RESOURCE_FORECAST
  {
    assert Template(CURRENT_PIECES[1..]) == CURRENT_PATH + Template(CURRENT_PIECES[2..]);
    assert RESOURCE_CURRENT == HOST + (CURRENT_PATH + Template(CURRENT_PIECES[2..]));
    assert Template(FORECAST_PIECES[1..]) == FORECAST_PATH + Template(FORECAST_PIECES[2..]);
    assert RESOURCE_FORECAST == HOST + (FORECAST_PATH + Template(FORECAST_PIECES[2..]));
    assert |HOST| == 23 && CURRENT_PATH[2] == '2' && FORECAST_PATH[2] == '3';
    assert RESOURCE_CURRENT[25] == '2';
    assert RESOURCE_FORECAST[25] == '3';
  }

  /** `_build_url` on the observations endpoint gives the URL spelled out above. */
  lemma CurrentUrl(s: Settings)
    ensures BuildUrl(RESOURCE_CURRENT, s) == Ok(CurrentRequest(s))
  {
    var args := UrlArgs(s);
    var query := CurrentQuery(s);
    UrlArgsValues(s);
    TemplatesWellFormed(args);
    FormatTemplates3(CURRENT_PIECES, query, SHARED_PIECES, args);
    if s.numericPrecision == "none" {
      assert RESOURCE_CURRENT + Template(query) == RESOURCE_CURRENT;
    }
    CurrentText(s);
  }

  /** The query pieces `_build_url` adds to the observations endpoint. */
  function CurrentQuery(s: Settings): seq<Piece> {
    if s.numericPrecision != "none" then PRECISION_PIECES else []
  }

  /** The observation piece lists, substituted, spell the observations URL. */
  lemma CurrentText(s: Settings)
    ensures Substitute(CURRENT_PIECES, UrlArgs(s)) + Substitute(CurrentQuery(s), UrlArgs(s))
      + Substitute(SHARED_PIECES, UrlArgs(s)) == CurrentRequest(s)
  {
    var args := UrlArgs(s);
    UrlArgsValues(s);
    SharedPieces(args, s.apiKey, s.unitSystemApi);
    CurrentPieces(args, s.pwsId);
    PrecisionPieces(args, s.numericPrecision);
    if s.numericPrecision == "none" {
      assert Substitute(CURRENT_PIECES, args) + Substitute([], args) == Substitute(CURRENT_PIECES, args);
    }
  }

  /** `_build_url` on the forecast endpoint gives the URL spelled out above,
      for the stored coordinates. */
  lemma ForecastUrl(s: Settings)
    ensures BuildUrl(RESOURCE_FORECAST, s) == Ok(ForecastRequest(s, s.latitude, s.longitude))
  {
    var args := UrlArgs(s);
    UrlArgsValues(s);
    EndpointsDiffer();
    TemplatesWellFormed(args);
    FormatTemplates3(FORECAST_PIECES, LANGUAGE_PIECES, SHARED_PIECES, args);
    ForecastText(s);
  }

  /** The three forecast piece lists, substituted, spell the forecast URL. */
  lemma ForecastText(s: Settings)
    ensures Substitute(FORECAST_PIECES, UrlArgs(s)) + Substitute(LANGUAGE_PIECES, UrlArgs(s))
      + Substitute(SHARED_PIECES, UrlArgs(s)) == ForecastRequest(s, s.latitude, s.longitude)
  {
    var args := UrlArgs(s);
    UrlArgsValues(s);
    SharedPieces(args, s.apiKey, s.unitSystemApi);
    LanguagePieces(args, s.lang);
    ForecastPieces(args, StrOf(s.latitude), StrOf(s.longitude));
    var x := Substitute(FORECAST_PIECES, args);
    assert x + ("&language=" + s.lang) == x + "&language=" + s.lang;
  }

  /** The message list of a truthy `errors` value: `e['message']` for each
      element, in order, stopping at the first subscript that raises. */
  function Messages(items: seq<Json>): (r: Result<seq<Json>, PyError>)
    ensures r.Ok? ==> (|r.value| == |items| &&
      forall k :: 0 <= k < |items| ==> GetKey(items[k], "message") == Ok(r.value[k]))
    ensures r.Err? <==> exists k :: 0 <= k < |items| && GetKey(items[k], "message").Err?
    ensures r.Err? ==> r.error == KeyError || r.error == TypeError
  {
    if items == [] then Ok([])
    else
      var m :- GetKey(items[0], "message");
      var rest :- Messages(items[1..]);
      Ok([m] + rest)
  }

  predicate AllText(ms: seq<Json>) {
    forall k :: 0 <= k < |ms| ==> ms[k].JStr?
  }

  function Texts(ms: seq<Json>): (r: seq<string>)
    requires AllText(ms)
    ensures |r| == |ms| && forall k :: 0 <= k < |ms| ==> r[k] == ms[k].s
  {
    if ms == [] then [] else [ms[0].s] + Texts(ms[1..])
  }

  /** The separator of the error message. The f-string and the literal after
      it are one string, so the URL prefix is the text placed between two
      messages, not in front of the first. */
  function ErrorSeparator(url: string): string {
    "Error from " + url + ": ; "
  }

  /** `_check_errors`: returns when there is no `errors` key or its value is
      falsy; otherwise builds and raises the ValueError, or fails on the way
      with the exception the iteration, a subscript or the `join` raises. */
  function CheckErrors(url: string, response: map<string, Json>): Result<(), PyError> {
    if "errors" !in response || !Truthy(response["errors"]) then Ok(())
    else
      match response["errors"]
      case JArr(items) =>
        var ms :- Messages(items);
        if AllText(ms) then Err(ValueError(Join(ErrorSeparator(url), Texts(ms))))
        else Err(TypeError)
      // Iterating a dict or a string yields strings, which cannot be
      // subscripted with 'message'; a number or a bool is not iterable.
      case _ => Err(TypeError)
  }

  /** The check passes exactly when `errors` is absent or falsy, and a failed
      check always raises. */
  lemma CheckErrorsPasses(url: string, response: map<string, Json>)
    ensures CheckErrors(url, response).Ok? <==> "errors" !in response || !Truthy(response["errors"])
  {
  }

  /** A list of error objects, each with a text message. */
  predicate WellFormedErrors(items: seq<Json>) {
    forall k :: 0 <= k < |items| ==>
      items[k].JObj? && "message" in items[k].fields && items[k].fields["message"].JStr?
  }

  function MessageTexts(items: seq<Json>): (r: seq<string>)
    requires WellFormedErrors(items)
    ensures |r| == |items|
    ensures forall k :: 0 <= k < |items| ==> r[k] == items[k].fields["message"].s
  {
    if items == [] then [] else [items[0].fields["message"].s] + MessageTexts(items[1..])
  }

  /** Well-formed provider errors raise a ValueError whose text is the
      messages joined with the URL separator. */
  lemma {:induction false} CheckErrorsMessage(url: string, response: map<string, Json>, items: seq<Json>)
    requires "errors" in response && response["errors"] == JArr(items)
    requires items != [] && WellFormedErrors(items)
    ensures CheckErrors(url, response) == Err(ValueError(Join(ErrorSeparator(url), MessageTexts(items))))
  {
    var r := Messages(items);
    assert r.Ok? by {
      forall k | 0 <= k < |items| ensures GetKey(items[k], "message").Ok? {
      }
    }
    assert AllText(r.value);
    assert Texts(r.value) == MessageTexts(items);
  }

  /** A single provider error comes out as its bare message, without the URL. */
  lemma SingleErrorIsBare(url: string, response: map<string, Json>, error: map<string, Json>, message: string)
    requires "errors" in response && response["errors"] == JArr([JObj(error)])
    requires "message" in error && error["message"] == JStr(message)
    ensures CheckErrors(url, response) == Err(ValueError(message))
  {
    CheckErrorsMessage(url, response, [JObj(error)]);
  }

  /** Every provider message appears in the raised text. */
  lemma ErrorTextHasEveryMessage(url: string, response: map<string, Json>, items: seq<Json>, k: nat)
    requires "errors" in response && response["errors"] == JArr(items)
    requires WellFormedErrors(items) && k < |items|
    ensures exists msg, p, q :: (CheckErrors(url, response) == Err(ValueError(msg))
      && msg == p + items[k].fields["message"].s + q)
  {
    CheckErrorsMessage(url, response, items);
    JoinContains(ErrorSeparator(url), MessageTexts(items), k);
  }

  /** An error object without a message, or an `errors` value that is not a
      list, makes the check raise something other than a ValueError. */
  lemma MalformedErrorsAreNotValueErrors(url: string, response: map<string, Json>)
    requires "errors" in response && Truthy(response["errors"])
    requires !response["errors"].JArr? || !WellFormedErrors(response["errors"].items)
    ensures CheckErrors(url, response) == Err(KeyError) || CheckErrors(url, response) == Err(TypeError)
  {
    match response["errors"]
    case JArr(items) =>
      var r := Messages(items);
      if r.Ok? {
        assert !AllText(r.value) by {
          var k :| 0 <= k < |items| && !(items[k].JObj? && "message" in items[k].fields
            && items[k].fields["message"].JStr?);
          assert GetKey(items[k], "message") == Ok(r.value[k]);
        }
      }
    case _ =>
  }

  /** `get_condition`: a unit-less field is read from the first observation
      and replaced by 0 when falsy; any other field from the sub-object of
      the configured unit system. */
  function GetCondition(data: Json, unitSystem: string, field: string): Result<Json, PyError> {
    var observations :- GetKey(data, FIELD_OBSERVATIONS);
    var first :- GetIndex(observations, 0);
    if field in UNITLESS_FIELDS then
      var v :- GetKey(first, field);
      Ok(Or(v, JInt(0)))
    else
      var units :- GetKey(first, unitSystem);
      GetKey(units, field)
  }

  /** A step of a subscript chain. */
  datatype Step = Key(k: string) | Index(i: nat)

  /** Python's `j[s0][s1]...`: the value at the end of the chain, or the first exception. */
  function Lookup(j: Json, path: seq<Step>): Result<Json, PyError>
    decreases |path|
  {
    if path == [] then Ok(j)
    else
      var next :- Subscript(j, path[0]);
      Lookup(next, path[1..])
  }

  function Subscript(j: Json, step: Step): Result<Json, PyError> {
    match step
    case Key(k) => GetKey(j, k)
    case Index(i) => GetIndex(j, i)
  }

  /** One step of a chain: subscript, then follow the rest. */
  lemma LookupStep(j: Json, step: Step, rest: seq<Step>)
    ensures Lookup(j, [step] + rest)
      == (var next := Subscript(j, step); if next.Err? then Err(next.error) else Lookup(next.value, rest))
  {
    assert ([step] + rest)[1..] == rest;
  }

  /** The value `get_condition` returns is the one at `observations[0][field]`
      (unit-less fields, never falsy but 0) or at `observations[0][unit][field]`,
      and it fails exactly when that subscript chain fails. */
  lemma GetConditionReads(data: Json, unitSystem: string, field: string)
    ensures field in UNITLESS_FIELDS ==>
      var v := Lookup(data, [Key(FIELD_OBSERVATIONS), Index(0), Key(field)]);
      GetCondition(data, unitSystem, field) == (if v.Ok? then Ok(Or(v.value, JInt(0))) else v)
    ensures field in UNITLESS_FIELDS && GetCondition(data, unitSystem, field).Ok? ==>
      var r := GetCondition(data, unitSystem, field).value;
      Truthy(r) || r == JInt(0)
    ensures field !in UNITLESS_FIELDS ==>
      GetCondition(data, unitSystem, field)
        == Lookup(data, [Key(FIELD_OBSERVATIONS), Index(0), Key(unitSystem), Key(field)])
  {
    LookupStep(data, Key(FIELD_OBSERVATIONS), [Index(0), Key(field)]);
    assert [Key(FIELD_OBSERVATIONS)] + [Index(0), Key(field)] == [Key(FIELD_OBSERVATIONS), Index(0), Key(field)];
    LookupStep(data, Key(FIELD_OBSERVATIONS), [Index(0), Key(unitSystem), Key(field)]);
    assert [Key(FIELD_OBSERVATIONS)] + [Index(0), Key(unitSystem), Key(field)]
      == [Key(FIELD_OBSERVATIONS), Index(0), Key(unitSystem), Key(field)];
    var obs := GetKey(data, FIELD_OBSERVATIONS);
    if obs.Ok? {
      LookupStep(obs.value, Index(0), [Key(field)]);
      LookupStep(obs.value, Index(0), [Key(unitSystem), Key(field)]);
      var first := GetIndex(obs.value, 0);
      if first.Ok? {
        LookupStep(first.value, Key(field), []);
        LookupStep(first.value, Key(unitSystem), [Key(field)]);
        var units := GetKey(first.value, unitSystem);
        if units.Ok? {
          LookupStep(units.value, Key(field), []);
        }
      }
    }
  }

  /** `get_forecast`: a daily field is read at half the period, any other
      field per half-day in `daypart[0]`; an IndexError anywhere becomes None. */
  function GetForecast(data: Json, field: string, period: nat): (r: Result<Json, PyError>)
    ensures r != Err(IndexError)
  {
    var read :=
      if field in DAILY_FIELDS then
        var values :- GetKey(data, field);
        GetIndex(values, period / 2)
      else
        var daypart :- GetKey(data, FIELD_DAYPART);
        var first :- GetIndex(daypart, 0);
        var values :- GetKey(first, field);
        GetIndex(values, period);
    if read == Err(IndexError) then Ok(JNull) else read
  }

  /** The chain `get_forecast` subscripts for a field. */
  function ForecastPath(field: string, period: nat): seq<Step> {
    if field in DAILY_FIELDS then [Key(field), Index(period / 2)]
    else [Key(FIELD_DAYPART), Index(0), Key(field), Index(period)]
  }

  /** `get_forecast` is the subscript chain with IndexError turned into None. */
  lemma GetForecastReads(data: Json, field: string, period: nat)
    ensures var v := Lookup(data, ForecastPath(field, period));
      GetForecast(data, field, period) == (if v == Err(IndexError) then Ok(JNull) else v)
  {
    if field in DAILY_FIELDS {
      LookupStep(data, Key(field), [Index(period / 2)]);
      var values := GetKey(data, field);
      if values.Ok? {
        LookupStep(values.value, Index(period / 2), []);
      }
    } else {
      LookupStep(data, Key(FIELD_DAYPART), [Index(0), Key(field), Index(period)]);
      var daypart := GetKey(data, FIELD_DAYPART);
      if daypart.Ok? {
        LookupStep(daypart.value, Index(0), [Key(field), Index(period)]);
        var first := GetIndex(daypart.value, 0);
        if first.Ok? {
          LookupStep(first.value, Key(field), [Index(period)]);
          var values := GetKey(first.value, field);
          if values.Ok? {
            LookupStep(values.value, Index(period), []);
          }
        }
      }
    }
  }

  /** An array the snapshot holds, read at an index: the element, or None past the end. */
  lemma GetForecastArray(data: map<string, Json>, field: string, period: nat, values: seq<Json>)
    requires field in DAILY_FIELDS && field in data && data[field] == JArr(values)
    ensures GetForecast(JObj(data), field, period)
      == Ok(if period / 2 < |values| then values[period / 2] else JNull)
  {
  }

  lemma GetForecastDaypartArray(data: map<string, Json>, field: string, period: nat,
                                daypart: seq<Json>, first: map<string, Json>, values: seq<Json>)
    requires field !in DAILY_FIELDS
    requires FIELD_DAYPART in data && data[FIELD_DAYPART] == JArr(daypart)
    requires daypart != [] && daypart[0] == JObj(first)
    requires field in first && first[field] == JArr(values)
    ensures GetForecast(JObj(data), field, period)
      == Ok(if period < |values| then values[period] else JNull)
  {
  }

  /** The two half-day periods of a day read the same entry of a daily field. */
  lemma DailyFieldsIgnoreHalfDay(data: Json, field: string, day: nat)
    requires field in DAILY_FIELDS
    ensures GetForecast(data, field, 2 * day) == GetForecast(data, field, 2 * day + 1)
  {
    assert (2 * day) / 2 == day && (2 * day + 1) / 2 == day;
  }
}
