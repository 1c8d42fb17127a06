# Weather Underground PWS integration for Home Assistant — a Dafny model

This project models the logic of the `wundergroundpws` custom integration for
Home Assistant. The integration reads a personal weather station's current
observations and a five-day forecast from the weather.com API. It keeps the
merged JSON answer as a snapshot and presents it as a weather entity and a set
of sensors.

The model covers:

- **The snapshot and Python's subscripts** (`json.dfy`). The merged answer is
  a JSON tree. `d[k]` and `l[i]` fail exactly as Python does: KeyError,
  IndexError or TypeError. Truthiness, `or`, `+` and `* 1000` are modelled
  too. Numbers are exact decimals.
- **Text helpers** (`pytext.dfy`). These are `str` of an integer or a
  decimal (with Python's switch to exponent notation below 10^-4 and from
  10^16 on), `str.lower` on ASCII letters, `str.join`, `split('-', 1)[0]` and
  `str.format` over `{name}` fields, each proved on its own.
- **Constants** (`const.py`, in `const.dfy`). These are the field names, the
  unit-tuple indices, the supported language tags and the defaults.
- **Units** (`units.dfy`). The seven-unit tuple is chosen by the API unit
  code. The host's unit system is mapped to the pair (API code, observation
  key).
- **The icon table** (`icons.dfy`). This is the icon-code → condition map and
  its first-match search. The search is a `method` with a loop, proved
  against a recursive specification.
- **The data object's pure methods** (`wudata.dfy`). These are `_build_url`,
  `_check_errors`, `get_condition` and `get_forecast`. The update
  coordinator repeats these methods word for word, so both files cite the
  same members.
- **The fetch cycle** (`fetch.dfy`). The data object is a `class` whose
  `AsyncUpdate` method changes `data`, `_latitude` and `_longitude` step by
  step. The method is proved equal to a functional description of one cycle,
  and the cycle's properties are proved about that function.
- **The weather entity** (`weather.py`, in `weather.dfy`). This covers the
  forecast list, the current condition, the pressure and the unit properties.
- **The sensor description tables** (`obs_sensors.dfy`,
  `forecast_sensors.dfy`). This covers the value and unit functions and
  `degrees_to_cardinal`.
- **The sensor platform** (`sensor.dfy`). This covers where each sensor reads
  its value and which sensors are created. It also covers the unique ids and
  requested object ids (proved unique), the unit, the name and the
  availability. The sensor is a `class` with its update handler.
- **Setup** (`setup.dfy`). This covers the configuration schema, the
  translation file with its English fallback, and `async_setup`. Setup
  builds the data object, runs one fetch cycle and refuses to set up without
  data. The host's data slot is a `class`.

The network, the clock and the translation directory are parameters:

- the network is a map from URL to response: a body, `null`, or a
  transport failure. A URL the map holds no response for fails with a
  client error, as an unreachable host does;
- the directory is a map from file name to its parsed contents.

## Model

All paths are under `custom_components/wundergroundpws/`.

| member | source | states |
|---|---|---|
| Const.LangCodesAreTags | custom_components/wundergroundpws/const.py:24-32 | every supported language tag is two letters, a dash and two letters, so its translation base name has exactly two characters |
| Const.BaseCodeOfTag | custom_components/wundergroundpws/__init__.py:61 | for a tag of that shape, the text before the first dash is its first two letters |
| Const.DefaultsAreValid | custom_components/wundergroundpws/const.py:37-39 | the default language `en-US` is a supported tag with base name `en`; the default precision `none` is one of the schema's two choices |
| Units.UnitsOfMeasurement | custom_components/wundergroundpws/wunderground_data.py:75-82 | seven units. Each position holds the quantity its index constant names: temperature, precipitation length (mm/in), altitude (m/ft), speed, pressure, rate, percentage. All are metric for code `m`, all imperial for any other code, and the last is always the percentage. The copy in `coordinator.py` does the same |
| Units.UnitOfQuantity | custom_components/wundergroundpws/wunderground_data.py:75-82 | a quantity and a unit system determine the unit, so the tuple is exactly (°C, mm, m, km/h, mbar, mm/h, %) for `m` and (°F, in, ft, mph, inHg, in/h, %) otherwise |
| Units.TuplesShareOnlyPercentage | custom_components/wundergroundpws/wunderground_data.py:75-82 | the metric tuple and the tuple of any other code agree at the percentage position and differ at every other position |
| Units.UnitSystemChoice | custom_components/wundergroundpws/__init__.py:88-93 | the code is `m` and the key `metric` exactly for a metric host; otherwise `e` and `imperial` |
| Units.ChoiceAgrees | custom_components/wundergroundpws/__init__.py:88-93 | the API code and the observation key always agree, and the tuple chosen from the code is metric exactly for a metric host |
| Icons.FirstMatchSpec | custom_components/wundergroundpws/wunderground_data.py:112-118 | the lookup gives None exactly when no list holds the code; otherwise it gives the condition of the first entry, in table order, whose list holds it |
| Icons.FindCondition | custom_components/wundergroundpws/wunderground_data.py:113-118 | the loop over the entries, with its early return, gives the first-match result |
| Icons.IconCodeToCondition | custom_components/wundergroundpws/wunderground_data.py:112-118 | `_iconCode_to_condition` is the first-match lookup over the icon table. The copy in `coordinator.py` does the same |
| Icons.IconCodesCovered | custom_components/wundergroundpws/wunderground_data.py:39-55 | every code 0..47 other than 44 is in some list |
| Icons.IconListsDisjoint | custom_components/wundergroundpws/wunderground_data.py:39-55 | no code is in two lists, and every listed code is in 0..47 and is not 44. With the previous row, the lists partition {0..47} \ {44} |
| Icons.IconConditionsDistinct | custom_components/wundergroundpws/wunderground_data.py:39-55 | each condition names exactly one entry of the table |
| Icons.ConditionOfInt | custom_components/wundergroundpws/wunderground_data.py:39-55 | an integer code is mapped exactly when it is in 0..47 and not 44. It is then mapped to the condition of the one entry that lists it |
| Icons.NeverLightningNorWindyVariant | custom_components/wundergroundpws/wunderground_data.py:45-54 | `lightning` and `windy-variant` have empty lists, so no code is ever mapped to them |
| Icons.EmptyListNeverMatches | custom_components/wundergroundpws/wunderground_data.py:112-118 | a condition whose only entry has an empty list is never the lookup's answer |
| PyText.ExponentFormIffOutOfRange | custom_components/wundergroundpws/wunderground_data.py:129-137 | `str` of a non-zero coordinate, as `format` writes it into the URL, uses exponent notation exactly when its magnitude is below 10^-4 or at least 10^16 |
| PyText.FixedSamples | custom_components/wundergroundpws/wunderground_data.py:129-137 | `0.0001` stays fixed, and a whole float keeps `.0` (`5.0`) |
| PyText.ExponentSample | custom_components/wundergroundpws/wunderground_data.py:129-137 | a coordinate of 0.00001 is written `1e-05` |
| PyText.NegativeExponentSample | custom_components/wundergroundpws/wunderground_data.py:129-137 | -0.000025 is written `-2.5e-05`: one digit, the point, the rest, then a signed two-digit exponent |
| WuData.UrlArgsValues | custom_components/wundergroundpws/wunderground_data.py:129-137 | `format` gets exactly the seven keyword arguments. Each is the stored setting, and each coordinate goes through `str` |
| WuData.TemplatesWellFormed | custom_components/wundergroundpws/coordinator.py:37-41 | every `{field}` of the resource templates and of the appended parameters is one of those arguments |
| WuData.SharedPieces | custom_components/wundergroundpws/coordinator.py:37 | the shared template becomes `&format=json&apiKey=<key>&units=<code>` |
| WuData.CurrentPieces | custom_components/wundergroundpws/coordinator.py:38-39 | the observations template becomes the endpoint with `?stationId=<station>` |
| WuData.PrecisionPieces | custom_components/wundergroundpws/wunderground_data.py:123 | the precision parameter becomes `&numericPrecision=<precision>` |
| WuData.LanguagePieces | custom_components/wundergroundpws/wunderground_data.py:125 | the language parameter becomes `&language=<lang>` |
| WuData.ForecastPieces | custom_components/wundergroundpws/coordinator.py:40-41 | the forecast template becomes the endpoint with `?geocode=<lat>,<lon>` |
| WuData.EndpointsDiffer | custom_components/wundergroundpws/coordinator.py:38-41 | the two resource templates differ, so `_build_url` tells them apart |
| WuData.CurrentUrl | custom_components/wundergroundpws/wunderground_data.py:120-137 | the observations URL is the station URL, then `&numericPrecision=` exactly when the precision is not `none`, then the shared suffix. It never has `&language=`. The copy in `coordinator.py` does the same |
| WuData.ForecastUrl | custom_components/wundergroundpws/wunderground_data.py:120-137 | the forecast URL is `...5day?geocode=<str(lat)>,<str(lon)>&language=<lang>`, then the shared suffix |
| WuData.Messages | custom_components/wundergroundpws/wunderground_data.py:188-191 | gives one message per error element, in order. It fails exactly when some element's `['message']` fails, and then only with KeyError or TypeError |
| WuData.CheckErrorsPasses | custom_components/wundergroundpws/wunderground_data.py:181-192 | the check returns exactly when `errors` is absent or falsy |
| WuData.CheckErrorsMessage | custom_components/wundergroundpws/wunderground_data.py:185-192 | well-formed provider errors raise a ValueError whose text is the messages joined with the separator `Error from <url>: ; `. The copy in `coordinator.py` does the same |
| WuData.SingleErrorIsBare | custom_components/wundergroundpws/wunderground_data.py:186-191 | a single provider error is raised as its bare message, without the URL |
| WuData.ErrorTextHasEveryMessage | custom_components/wundergroundpws/wunderground_data.py:186-191 | every provider message occurs in the raised text |
| WuData.MalformedErrorsAreNotValueErrors | custom_components/wundergroundpws/wunderground_data.py:185-191 | an error without a message, or an `errors` value that is not a list, raises KeyError or TypeError instead of ValueError |
| WuData.GetConditionReads | custom_components/wundergroundpws/wunderground_data.py:88-95 | `humidity` and `winddir` are `observations[0][field] or 0`, which is truthy or 0. Any other field is `observations[0][unit_system][field]`. Each fails exactly when its subscript chain fails. The copy in `coordinator.py` does the same |
| WuData.GetForecast | custom_components/wundergroundpws/wunderground_data.py:97-110 | `get_forecast` never raises IndexError |
| WuData.GetForecastReads | custom_components/wundergroundpws/wunderground_data.py:97-110 | `get_forecast` is the subscript chain `data[field][period // 2]` for the five daily fields and `data['daypart'][0][field][period]` otherwise, with IndexError replaced by None. The copy in `coordinator.py` does the same |
| WuData.GetForecastArray | custom_components/wundergroundpws/wunderground_data.py:99-107 | a daily field held as a list gives its element at `period // 2`, or None past its end |
| WuData.GetForecastDaypartArray | custom_components/wundergroundpws/wunderground_data.py:108-110 | a half-day field held in `daypart[0]` gives its element at `period`, or None past its end |
| WuData.DailyFieldsIgnoreHalfDay | custom_components/wundergroundpws/wunderground_data.py:99-107 | for a daily field, periods `2k` and `2k+1` read the same value |
| Fetch.WUndergroundData.constructor | custom_components/wundergroundpws/wunderground_data.py:57-82 | the new data object holds the given settings and no snapshot (None), and its unit tuple is the one its API code selects |
| Fetch.WUndergroundData.AsyncUpdate | custom_components/wundergroundpws/wunderground_data.py:139-178 | the method's new coordinates, new snapshot, requests made and outcome are those of one cycle from the old state |
| Fetch.CycleRequests | custom_components/wundergroundpws/wunderground_data.py:145-158 | a cycle requests the observations URL `_build_url` gives. At most one forecast request follows, whose URL uses the coordinates as back-filled |
| Fetch.RequestsOfRun | custom_components/wundergroundpws/wunderground_data.py:145-159 | one or two requests: the observations URL first, then the forecast URL for the coordinates the cycle leaves |
| Fetch.FailedRunKeepsData | custom_components/wundergroundpws/wunderground_data.py:143-178 | only a completed cycle replaces the snapshot, and then with an object. After any exception, caught or not, the old snapshot stays |
| Fetch.CompletedRun | custom_components/wundergroundpws/wunderground_data.py:146-168 | a cycle completes exactly when both bodies are objects that pass the error check and every needed back-fill succeeds. The snapshot is then the key union of the two bodies, and the forecast's value wins on a shared key |
| Fetch.NullCurrentResult | custom_components/wundergroundpws/wunderground_data.py:147-150 | a `null` observations body ends the cycle with the caught `NO CURRENT RESULT`. No forecast request is made and nothing changes |
| Fetch.NullForecastResult | custom_components/wundergroundpws/wunderground_data.py:162-163 | a `null` forecast body ends the cycle with the caught `NO FORECAST RESULT` and the snapshot stays |
| Fetch.ProviderErrorsAreCaught | custom_components/wundergroundpws/wunderground_data.py:150-176 | well-formed provider errors in either body end the cycle with a caught ValueError and the snapshot stays |
| Fetch.TransportErrorsAreCaught | custom_components/wundergroundpws/wunderground_data.py:175-178 | a timeout or client error of either request is caught and the snapshot stays |
| Fetch.BackFillIsPerCoordinate | custom_components/wundergroundpws/wunderground_data.py:152-155 | each coordinate is handled on its own. A truthy stored value is never replaced. A falsy one becomes `observations[0]['lon'/'lat']` once the cycle passes the back-fill |
| Fetch.EscapingErrorsAreSubscriptErrors | custom_components/wundergroundpws/wunderground_data.py:143-178 | when the transport fails only with the handled errors, an escaping exception is KeyError, IndexError or TypeError |
| Fetch.CheckErrorsKinds | custom_components/wundergroundpws/wunderground_data.py:181-192 | the error check raises only ValueError, KeyError or TypeError |
| Fetch.LookupErrorKinds | custom_components/wundergroundpws/wunderground_data.py:153-155 | a subscript chain fails only with KeyError, IndexError or TypeError |
| Weather.Entries | custom_components/wundergroundpws/weather.py:163-195 | the comprehension gives one entry per period, in order. It fails exactly when some period's entry fails, and then with the error of the first such period |
| Weather.ForecastPeriodsByDay | custom_components/wundergroundpws/weather.py:159-161 | five periods, where period `k` is on day `k`. The first is 1 exactly when today's `temperature` is None, and 0 otherwise; the rest are 2, 4, 6, 8 |
| Weather.EntryOnDay | custom_components/wundergroundpws/weather.py:164-193 | an entry's `temp` and `time × 1000` come from its day's daily arrays. Its `templow` does too, except that tonight's entry takes tomorrow's minimum. Condition, precipitation, precipitation probability, wind bearing and wind speed come from the entry's own half-day period |
| Weather.ForecastByDay | custom_components/wundergroundpws/weather.py:156-197 | a forecast has exactly five entries, entry `k` being the entry of day `k`'s period |
| Weather.ForecastErrorKinds | custom_components/wundergroundpws/weather.py:156-197 | the forecast raises only KeyError, or TypeError (None × 1000); never IndexError |
| Weather.EntryErrorKinds | custom_components/wundergroundpws/weather.py:164-193 | one entry raises only KeyError or TypeError |
| Weather.GetForecastErrorKinds | custom_components/wundergroundpws/wunderground_data.py:97-110 | `get_forecast` raises only KeyError or TypeError |
| Weather.IntendedCondition | custom_components/wundergroundpws/weather.py:206-211 | corrected condition: defined exactly when both icon reads succeed. It is today's icon whenever that is not None, and tonight's icon when today's is None |
| Weather.ConditionsAgree | custom_components/wundergroundpws/weather.py:206-211 | the property as written and the corrected one agree unless today's icon is a falsy code other than None |
| Weather.TornadoByDayIsLost | custom_components/wundergroundpws/weather.py:206-211 | with today's icon 0 (tornado, `exceptional`) and tonight's 32, the property as written reports `sunny`. The corrected one reports `exceptional` |
| Weather.NativePressure | custom_components/wundergroundpws/weather.py:109-114 | the pressure is the observed value, both when it is set and when it is None |
| Weather.NativeTemperatureUnit | custom_components/wundergroundpws/weather.py:104-107 | a temperature unit, metric exactly for API code `m` |
| Weather.NativePressureUnit | custom_components/wundergroundpws/weather.py:116-119 | a pressure unit, metric exactly for API code `m` |
| Weather.NativeWindSpeedUnit | custom_components/wundergroundpws/weather.py:131-134 | a speed unit, metric exactly for API code `m` |
| Weather.NativePrecipitationUnit | custom_components/wundergroundpws/weather.py:199-204 | a length unit, metric exactly for API code `m` |
| Weather.WeatherUnitLabels | custom_components/wundergroundpws/weather.py:104-204 | the four units read °C, mbar, km/h and mm for code `m`, and °F, inHg, mph and in otherwise |
| ObsSensors.ApplyUnit | custom_components/wundergroundpws/wupws_obs_sensors.py:118-209 | a unit function gives None exactly when it has no unit. A metric/imperial choice gives the unit for the host's system, and a fixed unit gives itself |
| ObsSensors.RoundHalfEven | custom_components/wundergroundpws/wupws_obs_sensors.py:32 | `round` of an exact quotient is within one half of it, and a tie goes to the even neighbour |
| ObsSensors.Direction | custom_components/wundergroundpws/wupws_obs_sensors.py:30-33 | the point of a number of degrees is one of the sixteen compass labels |
| ObsSensors.DegreesToCardinal | custom_components/wundergroundpws/wupws_obs_sensors.py:29-34 | None gives the string `'None'` and a number gives a compass label. A string, list or object gives TypeError, and nothing else fails apart from the overflow named under "## Left out". The result is never empty |
| ObsSensors.IntegerDegrees | custom_components/wundergroundpws/wupws_obs_sensors.py:30-33 | integer degrees never tie, so the label is `dirs[floor((4d + 45) / 90) mod 16]` |
| ObsSensors.CardinalSamples | custom_components/wundergroundpws/wupws_obs_sensors.py:30-33 | 0 and 360 give N, 90 gives E, 180 and 190 give S, and 270 gives W |
| ObsSensors.CardinalPeriodic | custom_components/wundergroundpws/wupws_obs_sensors.py:30-33 | `d` and `d + 360` give the same label |
| ObsSensors.OrZeroObservations | custom_components/wundergroundpws/wupws_obs_sensors.py:56-100 | humidity, solar radiation, UV and wind direction report None and 0 as 0, and keep every truthy value |
| ObsSensors.UnitSystemDependentSensors | custom_components/wundergroundpws/wupws_obs_sensors.py:112-210 | exactly the condition sensors depend on the host's system. Each chooses a metric and an imperial unit of the same quantity |
| ObsSensors.CardinalSensor | custom_components/wundergroundpws/wupws_obs_sensors.py:102-109 | the cardinal sensor is the only one without a feature tag. Its value is the label of `observations[0]['winddir']` in the whole snapshot, and never the empty string |
| ForecastSensors.ForecastTags | custom_components/wundergroundpws/wupws_forecast_sensors.py:16-86 | the first two forecast descriptions are per day and the other five per half-day. All are disabled by default |
| ForecastSensors.KeyAndFeatureIdentify | custom_components/wundergroundpws/wupws_forecast_sensors.py:16-57 | two descriptions with the same key are the same exactly when their features agree. Only `narrative` is shared |
| ForecastSensors.DaypartValuesPassNone | custom_components/wundergroundpws/wupws_forecast_sensors.py:40-86 | every half-day value function passes None through and keeps any other value |
| ForecastSensors.ForecastUnits | custom_components/wundergroundpws/wupws_forecast_sensors.py:24-86 | the summaries have no unit and the probability is always %. The rest use the host system's unit of one quantity |
| Sensor.ConditionSensorsAgreeWithAccessor | custom_components/wundergroundpws/sensor.py:173-174 | a condition sensor reads exactly what `get_condition` reads for a field with a unit |
| Sensor.UnitlessSensorsAgreeWithAccessor | custom_components/wundergroundpws/sensor.py:179-180 | for `humidity` and `winddir`, the observation read followed by `or 0` is `get_condition` |
| Sensor.DaypartSensorsAgreeWithAccessor | custom_components/wundergroundpws/sensor.py:177-178 | a half-day sensor reads what `get_forecast` reads at its period, except that it raises IndexError where `get_forecast` gives None |
| Sensor.DailySensorsReadDay | custom_components/wundergroundpws/sensor.py:175-176 | a per-day sensor reads `data[kind][day]`, without halving. For a daily field this is where `get_forecast` reads for both periods `2·day` and `2·day+1` |
| Sensor.SensorDataErrorKinds | custom_components/wundergroundpws/sensor.py:165-182 | an untagged sensor gets the whole snapshot, and any other read fails only with KeyError, IndexError or TypeError |
| Sensor.CreatedSensors | custom_components/wundergroundpws/sensor.py:41-65 | created are every observation sensor, without a day. When forecasts are enabled, also every per-day description for days 0..4 and every half-day description for periods 0..9. Nothing else is created |
| Sensor.SensorCount | custom_components/wundergroundpws/sensor.py:41-65 | 18 sensors without forecasts and 78 with them |
| Sensor.DayNightSuffix | custom_components/wundergroundpws/sensor.py:90-99 | a half-day sensor's requested object id ends in `d` for an even period and in `n` for an odd one |
| Sensor.UniqueIdsAreUnique | custom_components/wundergroundpws/sensor.py:85-110 | two created sensors with the same lower-cased unique id are the same sensor, although `narrative` is the key of two descriptions |
| Sensor.SameIdSameKeyAndDay | custom_components/wundergroundpws/sensor.py:87-110 | equal unique ids have equal lower-cased keys, the same day, and the same half-day flag |
| Sensor.IdSuffixInjective | custom_components/wundergroundpws/sensor.py:87-103 | the suffixes `_{day}f` and `_{day}fdp` give back the day and the half-day flag |
| Sensor.NativeUnit | custom_components/wundergroundpws/sensor.py:118-119 | the unit is the empty string exactly when the first read is None. Otherwise it is the unit function's answer for the host's system, which is None when there is no unit |
| Sensor.AvailabilityPersists | custom_components/wundergroundpws/sensor.py:121-124 | once the coordinator has a snapshot, it keeps one after any cycle, and a completed cycle always leaves one |
| Sensor.UntranslatedName | custom_components/wundergroundpws/sensor.py:126-144 | a key neither translation table knows keeps the description's name |
| Sensor.DaypartName | custom_components/wundergroundpws/sensor.py:131-139 | a half-day sensor is named by its caption and the period's name, or by its caption and the translated `expired` when the name is None |
| Sensor.DailyName | custom_components/wundergroundpws/sensor.py:140-141 | a per-day sensor is named by its caption and the day of the week |
| Sensor.KeyOnlyInDaypartTable | custom_components/wundergroundpws/sensor.py:129-142 | a key translated only in the half-day table raises KeyError for a sensor that is not a half-day sensor |
| Sensor.PwsSensor.Available | custom_components/wundergroundpws/sensor.py:121-124 | available exactly when the coordinator holds a snapshot |
| Sensor.PwsSensor.constructor | custom_components/wundergroundpws/sensor.py:74-119 | the entity holds its description, day, unique id, requested object id, first read and the unit chosen from that read |
| Sensor.PwsSensor.HandleCoordinatorUpdate | custom_components/wundergroundpws/sensor.py:156-162 | reads the sensor data again from the current snapshot. A failing read leaves the old value and reports the error |
| Sensor.NewSensor | custom_components/wundergroundpws/sensor.py:74-119 | creation succeeds exactly when the first read does, failing with its error. The new entity's ids, read and unit are as stated above |
| Sensor.RefreshReadsTheSamePlace | custom_components/wundergroundpws/sensor.py:193-200 | a forecast sensor refreshes at its own day and a plain one without a day, which is where each first read |
| Setup.SchemaRules | custom_components/wundergroundpws/__init__.py:35-55 | the rule of each key is as follows. Key and station are strings. The precision is `none` or `decimal` and the language a supported tag. The calendar-day flag is a boolean, latitude is within ±90 and longitude within ±180. Every defaulted key has a rule |
| Setup.RuleGuarantees | custom_components/wundergroundpws/__init__.py:38-51 | a string or choice is kept as given and lies in its choices. A boolean comes out a boolean. A coordinate comes out a number within its bound. An extra key is kept |
| Setup.CheckedValuesAreFixed | custom_components/wundergroundpws/__init__.py:38-51 | a value a rule accepted is accepted again unchanged |
| Setup.ValidatedValue | custom_components/wundergroundpws/__init__.py:35-55 | the validated section has the given keys plus the defaulted ones. Each given value is the one its rule produced, and each absent optional key holds its default |
| Setup.ValidatedDomain | custom_components/wundergroundpws/__init__.py:35-55 | what the schema guarantees: the required strings kept, the options from their choices or defaulted (`none`, `en-US`, false), and a boolean flag. Coordinates are in range and paired, and every other key is as given |
| Setup.ValidatedOptions | custom_components/wundergroundpws/__init__.py:40-45 | a validated precision is `none` or `decimal` and a validated language is a supported tag. The calendar-day flag is a boolean. Each of the three holds its default (`none`, `en-US`, false) when it was not given |
| Setup.ValidatedCoordinates | custom_components/wundergroundpws/__init__.py:46-51 | a validated section has both coordinates or neither. A latitude is a number within ±90 and a longitude a number within ±180 |
| Setup.RejectedDomain | custom_components/wundergroundpws/__init__.py:35-55 | the section is rejected exactly when a required key is missing, a coordinate comes without the other, or a value fails its rule |
| Setup.FixedPointPasses | custom_components/wundergroundpws/__init__.py:35-55 | a section with the required, defaulted and paired keys, whose every value its rule keeps, passes unchanged |
| Setup.ValidationIsIdempotent | custom_components/wundergroundpws/__init__.py:35-55 | validating a validated section changes nothing |
| Setup.MinimalConfigGetsDefaults | custom_components/wundergroundpws/__init__.py:38-45 | an API key and a station id alone pass, with precision `none`, language `en-US`, the calendar-day flag false and no coordinates |
| Setup.TranFileFallback | custom_components/wundergroundpws/__init__.py:59-69 | gives the language's own file (its base code with `.json`) when that opens and parses, and otherwise the English file. It fails exactly when both fail, with an OSError or a ValueError |
| Setup.CoordinatorTranFileFallback | custom_components/wundergroundpws/coordinator.py:218-227 | the coordinator's `get_tran_file` reads through Home Assistant's `load_json`. A missing own file reads as the empty object with no fallback. An own file that parses is used. An own file that does not parse falls back to the English file. It fails, with HomeAssistantError, exactly when both files are present and neither parses |
| Setup.TranFileCopiesDiffer | custom_components/wundergroundpws/coordinator.py:218-227 | the two copies of `get_tran_file` disagree: when the language's file is missing and the English file holds a non-empty object, `__init__.py`'s copy gives the English file and the coordinator's gives `{}` |
| Setup.TranFileOfSupportedTag | custom_components/wundergroundpws/__init__.py:59-69 | for a supported tag the file tried first is its two-letter code with `.json`, and a parsable English file makes the lookup succeed |
| Setup.ValidatedPlatform | custom_components/wundergroundpws/__init__.py:75-86 | a validated configuration's section has every value `async_setup` reads, of the type it expects |
| Setup.SchemaOutputIsReadable | custom_components/wundergroundpws/__init__.py:75-86 | whatever configuration the schema outputs, including one it filled with defaults, meets `async_setup`'s precondition `Setup.Readable` |
| Setup.SetupNeedsData | custom_components/wundergroundpws/__init__.py:72-115 | setup succeeds only after a first cycle that completed with truthy data, and then records the configured language's translation file. A cycle that ended with a caught error means PlatformNotReady and writes nothing. No entry is written exactly when setup fails before the data check passes |
| Setup.HomeAssistant.AsyncSetup | custom_components/wundergroundpws/__init__.py:72-115 | the result and the domain entry are those of the setup above. The entry holds a new data object carrying the first cycle's snapshot and coordinates, and the host's unit key and unit tuple. A setup that fails before the data check writes nothing. When only the translation file fails, the entry is already written, without a translation file, and the error is returned |
| Setup.StartDataObject | custom_components/wundergroundpws/__init__.py:88-102 | the data object is new. After its first update it holds that cycle's snapshot and coordinates, and the unit key and unit tuple the host's unit system selects. The returned outcome is the cycle's |
| Setup.HomeAssistant.Install | custom_components/wundergroundpws/__init__.py:106-115 | once the first cycle has left data, the result and the entry are those of the setup. The entry's data object is the one built before, still holding that cycle's snapshot and coordinates |

## Left out

- HTTP transport: the aiohttp session, the ten-second timeouts, the gzip header and the JSON decoding of a body. Each response is a parameter: an object body, `null`, or a timeout or client error. A body that is JSON but not an object is not modelled.
- The `Throttle` decorator on `async_update`. Its code is part of Home Assistant and is not part of this model. Every call is modelled as a full cycle.
- Logging (the warnings and errors written on caught exceptions and unmapped icon codes). These calls have no effect on the state.
- `config_flow.py`. This is the setup wizard, with live HTTP probing of the API key and station.
- Home Assistant's entity framework: `generate_entity_id` (only the requested object id is modelled), `async_write_ha_state`, `DataUpdateCoordinator` scheduling, device information, icons, device and state classes, and the `attr_fn` extra attributes.
- The update coordinator's `get_weather`. It is a stub that returns a hard-coded fixture, so its fetch is modelled from the data object's `async_update`.
- `request_feature` and the `_features` set. They are written but never read.
- Setup.CoordinatorTranFileFallback: Home Assistant's `load_json` is not part of this model. `Setup.LoadJson` states its documented behaviour: a missing file gives the default `{}`, and a file it cannot read or parse raises HomeAssistantError. Other OS errors are folded into the unparsable case.
- Setup.Check: the configuration validators are approximated. `cv.string` accepts only strings and does not convert numbers with `str`. `cv.boolean` does not strip whitespace. `cv.latitude` and `cv.longitude` do not parse strings. voluptuous's detailed error reports are collapsed to one `Invalid` error.
- Setup.Setup and Setup.HomeAssistant.AsyncSetup require only that a domain section that is an object holds every value `async_setup` reads, with its type (`Setup.Readable`). Home Assistant validates the configuration against the schema before calling `async_setup`, and Setup.SchemaOutputIsReadable shows that every configuration the schema outputs meets this. A domain section that is absent or not an object is kept as `config.get(DOMAIN).get` failing with AttributeError.
- PyText.StrOf: a float is an exact decimal, so its text keeps every digit of it. Python prints the shortest text that reads back as the same binary double, at most 17 significant digits; the two agree for decimals of up to 15 significant digits within the range of a double. The exponent form below 10^-4 and from 10^16 on is modelled. A list or a dict renders as `[...]` or `{...}` rather than as its elements' `repr`; neither is a coordinate the schema or the provider supplies.
- PyText.Lower: lower-cases ASCII letters only. Python's `str.lower` also maps other Unicode letters (`Σ` to `σ` or, at the end of a word, `ς`; `İ` to two code points), so unique ids of a station id with such letters differ from the source's.
- ObsSensors.DegreesToCardinal: numbers are exact decimals, so binary floating-point rounding of `d / 22.5` is not modelled, and neither are NaN or infinities. An integer too large for a float makes `d / 22.5` raise OverflowError in Python; the model gives it a label instead.
- The weather entity's plain reads of `get_condition` (temperature, humidity, wind speed, wind bearing) and its ozone and visibility attributes. They are single accessor calls covered by the `get_condition` rows.
- `native_value` and the value functions that only cast (`cast(str, …)`, `cast(float, …)`). A cast does nothing at run time, so these value functions are the identity.
- The snapshot is a JSON tree rather than a typed record. The accessors' failures depend on the shape of the answer (missing keys, short lists, `null`s), and a tree keeps them visible.
- `sensor.py` relies on names that are not in this version's `const.py` (`MAX_FORECAST_DAYS`, the feature tags and three field names). It also relies on coordinator attributes that the coordinator class in `coordinator.py` does not define (`forecast_enable`, `_tranfile`, `pws_id`). These are modelled as the constant 5, an enumeration, the field names `daypartName`, `dayOfWeek` and `expired`, and parameters.
- The coordinator's `ICON_CONDITION_MAP` is not in this version's `const.py`. The table of `wunderground_data.py` is used for both.

## Findings

| source | as written | input that shows it | evidently intended | confidence | as-written member | corrected member |
|---|---|---|---|---|---|---|
| custom_components/wundergroundpws/weather.py:206-211 | `condition` maps `day or night`, and icon code 0 (tornado) is falsy | today's icon 0 with tonight's icon 32 reports `sunny` instead of `exceptional` (Weather.TornadoByDayIsLost) | fall back to tonight's icon only when today's is None (the day part is over) | medium, not executed | Weather.CurrentCondition | Weather.IntendedCondition (with Weather.ConditionsAgree) |
