/** The fetch cycle of the Weather Underground data object: the observations
    request, the coordinate back-fill, the forecast request and the merge, with
    every early exit of the source and the exceptions it catches. The HTTP
    transport is a parameter: the response (or the failure) each URL gets. */
module Fetch {
  import opened Wrappers
  import opened Json
  import opened PyText
  import opened Const
  import opened Units
  import opened WuData

  /** What a request and its `response.json()` produce: a decoded object, a
      JSON `null`, or an exception (a timeout, a client error, a decode error). */
  datatype Response = Body(fields: map<string, Json>) | NullBody | Failed(error: PyError)

  /** The network: the response each URL gets. A URL it holds no response
      for fails as an unreachable host does, with a client error. */
  type Network = imap<string, Response>

  function Respond(net: Network, url: string): Response {
    if url in net then net[url] else Failed(ClientError)
  }

  /** How `async_update` ends: normally, with an exception its handlers
      absorb, or with one that escapes to the caller. */
  datatype Outcome = Completed | Caught(error: PyError) | Raised(error: PyError)

  /** The handlers of `async_update` catch ValueError, the timeout and aiohttp's client errors. */
  predicate IsCaught(e: PyError) {
    e.ValueError? || e == TimeoutError || e == ClientError
  }

  function Abort(e: PyError): Outcome {
    if IsCaught(e) then Caught(e) else Raised(e)
  }

  /** The state a cycle leaves behind, the URLs it requested in order, and how it ended. */
  datatype CycleResult = CycleResult(
    latitude: Json,
    longitude: Json,
    data: Json,
    requests: seq<string>,
    outcome: Outcome)

  /** A response that must be an object: `None` raises the given ValueError,
      and the provider error check runs on the body. */
  function ReadBody(url: string, r: Response, nullMessage: string): Result<map<string, Json>, PyError> {
    match r
    case Failed(e) => Err(e)
    case NullBody => Err(ValueError(nullMessage))
    case Body(b) =>
      var _ :- CheckErrors(url, b);
      Ok(b)
  }

  /** Where the back-fill reads a coordinate: `observations[0][field]`. */
  function CoordinatePath(field: string): seq<Step> {
    [Key(FIELD_OBSERVATIONS), Index(0), Key(field)]
  }

  /** A stored coordinate is kept when truthy; otherwise it is read from the observations. */
  function BackFill(stored: Json, current: map<string, Json>, field: string): Result<Json, PyError> {
    if Truthy(stored) then Ok(stored) else Lookup(JObj(current), CoordinatePath(field))
  }

  /** How the forecast URL is formed from the coordinates the cycle settles on. */
  function ForecastUrlFor(s: Settings): (Json, Json) -> string {
    (lat, lon) => ForecastRequest(s, lat, lon)
  }

  /** One run of `async_update` for the given observations URL and forecast
      URL rule, step by step as the source takes them. */
  function Run(s: Settings, data: Json, fetch: Network,
               url1: string, forecastUrl: (Json, Json) -> string): CycleResult {
    match ReadBody(url1, Respond(fetch, url1), "NO CURRENT RESULT")
    case Err(e) => CycleResult(s.latitude, s.longitude, data, [url1], Abort(e))
    case Ok(current) =>
      match BackFill(s.longitude, current, FIELD_LONGITUDE)
      case Err(e) => CycleResult(s.latitude, s.longitude, data, [url1], Abort(e))
      case Ok(lon) =>
        match BackFill(s.latitude, current, FIELD_LATITUDE)
        case Err(e) => CycleResult(s.latitude, lon, data, [url1], Abort(e))
        case Ok(lat) =>
          var url2 := forecastUrl(lat, lon);
          match ReadBody(url2, Respond(fetch, url2), "NO FORECAST RESULT")
          case Err(e) => CycleResult(lat, lon, data, [url1, url2], Abort(e))
          case Ok(forecast) => CycleResult(lat, lon, JObj(current + forecast), [url1, url2], Completed)
  }

  /** One run of `async_update` with the URLs `_build_url` gives for the settings. */
  function Cycle(s: Settings, data: Json, fetch: Network): CycleResult {
    Run(s, data, fetch, CurrentRequest(s), ForecastUrlFor(s))
  }

  /** The data object: its request settings, the units tuple it picks at
      construction, and the snapshot and coordinates the fetch cycle updates. */
  class WUndergroundData {
    const apiKey: string
    const pwsId: string
    const numericPrecision: string
    const unitSystemApi: string
    const unitSystem: string
    const lang: string
    const unitsOfMeasurement: seq<Unit>
    var latitude: Json
    var longitude: Json
    var data: Json

    function RequestSettings(): Settings
      reads this
    {
      WuData.Settings(apiKey, pwsId, numericPrecision, unitSystemApi, lang, latitude, longitude)
    }

    /** `__init__`: no snapshot yet, and the units tuple chosen by the API unit code. */
    constructor (apiKey: string, pwsId: string, numericPrecision: string, unitSystemApi: string,
                 unitSystem: string, lang: string, latitude: Json, longitude: Json)
      ensures RequestSettings() == WuData.Settings(apiKey, pwsId, numericPrecision, unitSystemApi, lang, latitude, longitude)
      ensures this.unitSystem == unitSystem && data == JNull
      ensures unitsOfMeasurement == UnitsOfMeasurement(unitSystemApi)
    {
      this.apiKey := apiKey;
      this.pwsId := pwsId;
      this.numericPrecision := numericPrecision;
      this.unitSystemApi := unitSystemApi;
      this.unitSystem := unitSystem;
      this.lang := lang;
      this.latitude := latitude;
      this.longitude := longitude;
      this.data := JNull;
      if unitSystemApi == "m" {
        unitsOfMeasurement := [Celsius, Millimeters, Meters, KilometersPerHour, Mbar, MillimetersPerHour, Percentage];
      } else {
        unitsOfMeasurement := [Fahrenheit, Inches, Feet, MilesPerHour, InHg, InchesPerHour, Percentage];
      }
    }

    /** `async_update`: each step may end the cycle; the coordinates are
        written as soon as they are read, the snapshot only at the end. */
    method AsyncUpdate(fetch: Network) returns (outcome: Outcome, requests: seq<string>)
      modifies this
      ensures var c := Cycle(old(RequestSettings()), old(data), fetch);
        latitude == c.latitude && longitude == c.longitude && data == c.data
        && requests == c.requests && outcome == c.outcome
    {
      // `_build_url(_RESOURCECURRENT)`, spelled out (WuData.CurrentUrl)
      var url := CurrentRequest(RequestSettings());
      requests := [url];
      var current := ReadBody(url, Respond(fetch, url), "NO CURRENT RESULT");
      if current.Err? {
        outcome := Abort(current.error);
        return;
      }
      if !Truthy(longitude) {
        var v := Lookup(JObj(current.value), CoordinatePath(FIELD_LONGITUDE));
        if v.Err? {
          outcome := Abort(v.error);
          return;
        }
        longitude := v.value;
      }
      if !Truthy(latitude) {
        var v := Lookup(JObj(current.value), CoordinatePath(FIELD_LATITUDE));
        if v.Err? {
          outcome := Abort(v.error);
          return;
        }
        latitude := v.value;
      }
      // `_build_url(_RESOURCEFORECAST)` with the coordinates as they now are (WuData.ForecastUrl)
      url := ForecastRequest(RequestSettings(), latitude, longitude);
      requests := requests + [url];
      var forecast := ReadBody(url, Respond(fetch, url), "NO FORECAST RESULT");
      if forecast.Err? {
        outcome := Abort(forecast.error);
        return;
      }
      data := JObj(current.value + forecast.value);
      outcome := Completed;
    }
  }

  /** Every cycle requests the observations URL `_build_url` gives for its
      settings, and at most one forecast URL after it, built with the
      coordinates the cycle leaves behind. */
  lemma CycleRequests(s: Settings, data: Json, fetch: Network)
    ensures var c := Cycle(s, data, fetch);
      (|c.requests| == 1 || |c.requests| == 2) && Ok(c.requests[0]) == BuildUrl(RESOURCE_CURRENT, s)
      && (|c.requests| == 2 ==>
            Ok(c.requests[1]) == BuildUrl(RESOURCE_FORECAST, s.(latitude := c.latitude, longitude := c.longitude)))
  {
    var c := Cycle(s, data, fetch);
    RequestsOfRun(s, data, fetch, CurrentRequest(s), ForecastUrlFor(s));
    CurrentUrl(s);
    if |c.requests| == 2 {
      ForecastUrl(s.(latitude := c.latitude, longitude := c.longitude));
    }
  }

  /** A run requests the observations URL first and, when it gets that far,
      the forecast URL for the coordinates it leaves behind. */
  lemma RequestsOfRun(s: Settings, data: Json, fetch: Network,
    url1: string, forecastUrl: (Json, Json) -> string)
    ensures var c := Run(s, data, fetch, url1, forecastUrl);
      (|c.requests| == 1 || |c.requests| == 2) && c.requests[0] == url1
      && (|c.requests| == 2 ==> c.requests[1] == forecastUrl(c.latitude, c.longitude))
  {
  }

  /** Only a completed cycle replaces the snapshot; after any exception, caught
      or not, the previous snapshot stays. */
  lemma FailedRunKeepsData(s: Settings, data: Json, fetch: Network,
    url1: string, forecastUrl: (Json, Json) -> string)
    ensures Run(s, data, fetch, url1, forecastUrl).outcome != Completed ==> Run(s, data, fetch, url1, forecastUrl).data == data
    ensures Run(s, data, fetch, url1, forecastUrl).outcome == Completed ==> Run(s, data, fetch, url1, forecastUrl).data.JObj?
  {
  }

  /** A cycle completes exactly when both responses are objects that pass the
      error check and any coordinate that needs the back-fill is present; the
      snapshot is then the key union of the two bodies, forecast values winning. */
  lemma CompletedRun(s: Settings, data: Json, fetch: Network,
    url1: string, forecastUrl: (Json, Json) -> string)
    ensures var c := Run(s, data, fetch, url1, forecastUrl);
      c.outcome == Completed <==>
        (|c.requests| == 2
         && ReadBody(c.requests[0], Respond(fetch, c.requests[0]), "NO CURRENT RESULT").Ok?
         && BackFill(s.longitude, Respond(fetch, c.requests[0]).fields, FIELD_LONGITUDE).Ok?
         && BackFill(s.latitude, Respond(fetch, c.requests[0]).fields, FIELD_LATITUDE).Ok?
         && ReadBody(c.requests[1], Respond(fetch, c.requests[1]), "NO FORECAST RESULT").Ok?)
    ensures var c := Run(s, data, fetch, url1, forecastUrl);
      c.outcome == Completed ==>
        var current := Respond(fetch, c.requests[0]).fields;
        var forecast := Respond(fetch, c.requests[1]).fields;
        c.data == JObj(current + forecast)
        && c.data.fields.Keys == current.Keys + forecast.Keys
        && (forall k :: k in forecast ==> c.data.fields[k] == forecast[k])
        && (forall k :: k in current && k !in forecast ==> c.data.fields[k] == current[k])
  {
  }

  /** A `null` observations body ends the cycle with the caught 'NO CURRENT
      RESULT' before the forecast is requested, and changes nothing. */
  lemma NullCurrentResult(s: Settings, data: Json, fetch: Network,
    url1: string, forecastUrl: (Json, Json) -> string)
    requires Respond(fetch, url1) == NullBody
    ensures Run(s, data, fetch, url1, forecastUrl)
      == CycleResult(s.latitude, s.longitude, data, [url1], Caught(ValueError("NO CURRENT RESULT")))
  {
  }

  /** A `null` forecast body ends the cycle with the caught 'NO FORECAST
      RESULT'; the snapshot stays, the back-filled coordinates are kept. */
  lemma NullForecastResult(s: Settings, data: Json, fetch: Network,
    url1: string, forecastUrl: (Json, Json) -> string)
    requires |Run(s, data, fetch, url1, forecastUrl).requests| == 2
    requires Respond(fetch, Run(s, data, fetch, url1, forecastUrl).requests[1]) == NullBody
    ensures Run(s, data, fetch, url1, forecastUrl).outcome == Caught(ValueError("NO FORECAST RESULT"))
    ensures Run(s, data, fetch, url1, forecastUrl).data == data
  {
  }

  /** Provider errors in either body are raised as a ValueError and caught. */
  lemma ProviderErrorsAreCaught(s: Settings, data: Json, fetch: Network,
    url1: string, forecastUrl: (Json, Json) -> string, k: nat, items: seq<Json>)
    requires k < |Run(s, data, fetch, url1, forecastUrl).requests|
    requires var r := Respond(fetch, Run(s, data, fetch, url1, forecastUrl).requests[k]);
      r.Body? && "errors" in r.fields && r.fields["errors"] == JArr(items)
    requires items != [] && WellFormedErrors(items)
    ensures Run(s, data, fetch, url1, forecastUrl).outcome.Caught? && Run(s, data, fetch, url1, forecastUrl).outcome.error.ValueError?
    ensures Run(s, data, fetch, url1, forecastUrl).data == data
  {
    var c := Run(s, data, fetch, url1, forecastUrl);
    var url := c.requests[k];
    CheckErrorsMessage(url, Respond(fetch, url).fields, items);
  }

  /** Timeouts and client errors of either request are absorbed. */
  lemma TransportErrorsAreCaught(s: Settings, data: Json, fetch: Network,
    url1: string, forecastUrl: (Json, Json) -> string, k: nat)
    requires k < |Run(s, data, fetch, url1, forecastUrl).requests|
    requires Respond(fetch, Run(s, data, fetch, url1, forecastUrl).requests[k]) in {Failed(TimeoutError), Failed(ClientError)}
    ensures Run(s, data, fetch, url1, forecastUrl).outcome == Caught(Respond(fetch, Run(s, data, fetch, url1, forecastUrl).requests[k]).error)
    ensures Run(s, data, fetch, url1, forecastUrl).data == data
  {
  }

  /** Each coordinate is back-filled on its own: a truthy stored value is never
      replaced, and a falsy one becomes `observations[0]['lon'/'lat']` once the
      cycle gets past the back-fill. */
  lemma BackFillIsPerCoordinate(s: Settings, data: Json, fetch: Network,
    url1: string, forecastUrl: (Json, Json) -> string)
    ensures Truthy(s.longitude) ==> Run(s, data, fetch, url1, forecastUrl).longitude == s.longitude
    ensures Truthy(s.latitude) ==> Run(s, data, fetch, url1, forecastUrl).latitude == s.latitude
    ensures var c := Run(s, data, fetch, url1, forecastUrl);
      |c.requests| == 2 ==>
        var current := Respond(fetch, c.requests[0]).fields;
        c.longitude == (if Truthy(s.longitude) then s.longitude
                        else Lookup(JObj(current), CoordinatePath(FIELD_LONGITUDE)).value)
        && c.latitude == (if Truthy(s.latitude) then s.latitude
                          else Lookup(JObj(current), CoordinatePath(FIELD_LATITUDE)).value)
  {
  }

  /** When the transport fails only with the errors the handlers name, an
      exception escapes only from a subscript: a provider error without a
      message, an `errors` value that cannot be iterated, or a back-fill read. */
  lemma EscapingErrorsAreSubscriptErrors(s: Settings, data: Json, fetch: Network,
    url1: string, forecastUrl: (Json, Json) -> string)
    requires forall u :: Respond(fetch, u).Failed? ==> IsCaught(Respond(fetch, u).error)
    ensures Run(s, data, fetch, url1, forecastUrl).outcome.Raised? ==>
      Run(s, data, fetch, url1, forecastUrl).outcome.error in {KeyError, IndexError, TypeError}
  {
    var c := Run(s, data, fetch, url1, forecastUrl);
    var r1 := Respond(fetch, url1);
    if r1.Body? {
      CheckErrorsKinds(url1, r1.fields);
      var cur := r1.fields;
      LookupErrorKinds(JObj(cur), CoordinatePath(FIELD_LONGITUDE));
      LookupErrorKinds(JObj(cur), CoordinatePath(FIELD_LATITUDE));
      if |c.requests| == 2 {
        var r2 := Respond(fetch, c.requests[1]);
        if r2.Body? {
          CheckErrorsKinds(c.requests[1], r2.fields);
        }
      }
    }
  }

  /** The check raises a ValueError, or a KeyError or TypeError on the way. */
  lemma CheckErrorsKinds(url: string, response: map<string, Json>)
    ensures CheckErrors(url, response).Err? ==>
      CheckErrors(url, response).error.ValueError? || CheckErrors(url, response).error in {KeyError, TypeError}
  {
  }

  /** A subscript chain fails with KeyError, IndexError or TypeError only. */
  lemma {:induction false} LookupErrorKinds(j: Json, path: seq<Step>)
    ensures Lookup(j, path).Err? ==> Lookup(j, path).error in {KeyError, IndexError, TypeError}
    decreases |path|
  {
    if path != [] {
      var next := Subscript(j, path[0]);
      if next.Ok? {
        LookupErrorKinds(next.value, path[1..]);
      }
    }
  }
}
