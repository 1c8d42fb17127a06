/** The integration's setup: the configuration schema, the translation file
    with its English fallback, and `async_setup`, which builds the data
    object, runs one fetch cycle and refuses to set up without data. */
module Setup {
  import opened Wrappers
  import opened Json
  import opened PyText
  import opened Const
  import opened Units
  import opened WuData
  import opened Fetch

  // Home Assistant's own configuration keys.
  const CONF_API_KEY := "api_key"
  const CONF_LATITUDE := "latitude"
  const CONF_LONGITUDE := "longitude"

  // ---------------------------------------------------------------------
  // The configuration schema
  // ---------------------------------------------------------------------

  /** What the schema demands of the value under one key of the domain section. */
  datatype Rule =
    | Str                           // `cv.string`
    | OneOf(options: seq<string>)   // `vol.In(...)`
    | Boolean                       // `cv.boolean`
    | Degrees(bound: int)           // `cv.latitude` / `cv.longitude`
    | Extra                         // any other key: kept as it is

  function RuleFor(key: string): Rule {
    if key == CONF_API_KEY || key == CONF_PWS_ID then Str
    else if key == CONF_NUMERIC_PRECISION then OneOf(["none", "decimal"])
    else if key == CONF_LANG then OneOf(LANG_CODES)
    else if key == CONF_CALENDARDAYTEMPERATURE then Boolean
    else if key == CONF_LATITUDE then Degrees(90)
    else if key == CONF_LONGITUDE then Degrees(180)
    else Extra
  }

  const TRUE_WORDS: seq<string> := ["1", "true", "yes", "on", "enable"]
  const FALSE_WORDS: seq<string> := ["0", "false", "no", "off", "disable"]

  /** One value checked (and coerced) by its rule; a rejection is `Invalid`. */
  function Check(rule: Rule, v: Json): Result<Json, PyError> {
    match rule
    case Str => if v.JStr? then Ok(v) else Err(Invalid)
    case OneOf(options) => if v.JStr? && v.s in options then Ok(v) else Err(Invalid)
    case Boolean =>
      (match v
       case JBool(_) => Ok(v)
       case JStr(s) =>
         if Lower(s) in TRUE_WORDS then Ok(JBool(true))
         else if Lower(s) in FALSE_WORDS then Ok(JBool(false))
         else Err(Invalid)
       case JInt(i) => Ok(JBool(i != 0))
       case JFloat(m, _) => Ok(JBool(m != 0))
       case _ => Err(Invalid))
    case Degrees(bound) =>
      var f := match v
        case JBool(b) => Some(JFloat(if b then 1 else 0, 0))
        case JInt(i) => Some(JFloat(i, 0))
        case JFloat(_, _) => Some(v)
        case _ => None;
      if f.Some? && -bound as real <= NumValue(f.value).value <= bound as real then Ok(f.value)
      else Err(Invalid)
    case Extra => Ok(v)
  }

  /** The defaults the schema fills in for absent optional keys. */
  const DEFAULTS: map<string, Json> := map[
    CONF_NUMERIC_PRECISION := JStr(DEFAULT_NUMERIC_PRECISION),
    CONF_LANG := JStr(DEFAULT_LANG),
    CONF_CALENDARDAYTEMPERATURE := JBool(DEFAULT_CALENDARDAYTEMPERATURE)]

  /** The domain section through the schema: both required keys, latitude
      and longitude together or not at all, every value accepted by its rule;
      then the coerced values with the defaults under them. */
  function ValidateDomain(c: map<string, Json>): Result<map<string, Json>, PyError> {
    if CONF_API_KEY !in c || CONF_PWS_ID !in c then Err(Invalid)
    else if (CONF_LATITUDE in c) != (CONF_LONGITUDE in c) then Err(Invalid)
    else if exists k :: k in c && Check(RuleFor(k), c[k]).Err? then Err(Invalid)
    else Ok(DEFAULTS + map k | k in c :: Check(RuleFor(k), c[k]).value)
  }

  /** `CONFIG_SCHEMA`: the domain section, when present, must be an object
      that passes; keys beside it are kept. */
  function ValidateConfig(config: map<string, Json>): Result<map<string, Json>, PyError> {
    if DOMAIN !in config then Ok(config)
    else match config[DOMAIN]
      case JObj(c) =>
        var d :- ValidateDomain(c);
        Ok(config[DOMAIN := JObj(d)])
      case _ => Err(Invalid)
  }

  /** A domain section the schema let through, as `async_setup` reads it. */
  predicate WellTyped(d: map<string, Json>) {
    && CONF_API_KEY in d && d[CONF_API_KEY].JStr?
    && CONF_PWS_ID in d && d[CONF_PWS_ID].JStr?
    && CONF_NUMERIC_PRECISION in d && d[CONF_NUMERIC_PRECISION].JStr?
    && d[CONF_NUMERIC_PRECISION].s in ["none", "decimal"]
    && CONF_LANG in d && d[CONF_LANG].JStr? && d[CONF_LANG].s in LANG_CODES
    && CONF_CALENDARDAYTEMPERATURE in d && d[CONF_CALENDARDAYTEMPERATURE].JBool?
    && (CONF_LATITUDE in d <==> CONF_LONGITUDE in d)
  }

  /** A validated value is one its rule accepts unchanged. */
  lemma CheckedValuesAreFixed(rule: Rule, v: Json)
    requires Check(rule, v).Ok?
    ensures Check(rule, Check(rule, v).value) == Check(rule, v)
  {
  }

  /** The rules of the schema's own keys. */
  lemma SchemaRules()
    ensures RuleFor(CONF_API_KEY) == Str && RuleFor(CONF_PWS_ID) == Str
    ensures RuleFor(CONF_NUMERIC_PRECISION) == OneOf(["none", "decimal"])
    ensures RuleFor(CONF_LANG) == OneOf(LANG_CODES)
    ensures RuleFor(CONF_CALENDARDAYTEMPERATURE) == Boolean
    ensures RuleFor(CONF_LATITUDE) == Degrees(90) && RuleFor(CONF_LONGITUDE) == Degrees(180)
    ensures forall k :: k in DEFAULTS ==> RuleFor(k) != Extra
  {
  }

  /** What each rule guarantees of the value it lets through. */
  lemma RuleGuarantees(rule: Rule, v: Json)
    requires Check(rule, v).Ok?
    ensures var w := Check(rule, v).value;
      && (rule == Str ==> w == v && w.JStr?)
      && (rule.OneOf? ==> w == v && w.JStr? && w.s in rule.options)
      && (rule == Boolean ==> w.JBool? && (v.JBool? ==> w == v))
      && (rule.Degrees? ==> w.JFloat? && -rule.bound as real <= NumValue(w).value <= rule.bound as real)
      && (rule == Extra ==> w == v)
  {
  }

  /** Where each value of a validated section comes from: the given value
      through its rule, or the default. */
  lemma ValidatedValue(c: map<string, Json>, k: string)
    requires ValidateDomain(c).Ok?
    ensures ValidateDomain(c).value.Keys == c.Keys + DEFAULTS.Keys
    ensures k in c ==> Check(RuleFor(k), c[k]) == Ok(ValidateDomain(c).value[k])
    ensures k !in c && k in DEFAULTS ==> ValidateDomain(c).value[k] == DEFAULTS[k]
  {
    if k in c {
      assert Check(RuleFor(k), c[k]).Ok?;
    }
  }

  /** What the schema guarantees: the required strings, the optional values
      from their choice lists or defaulted, a boolean flag, coordinates in
      range and paired, and every other key as given. */
  lemma ValidatedDomain(c: map<string, Json>)
    requires ValidateDomain(c).Ok?
    ensures var d := ValidateDomain(c).value;
      && WellTyped(d)
      && d.Keys == c.Keys + DEFAULTS.Keys
      && d[CONF_API_KEY] == c[CONF_API_KEY] && d[CONF_PWS_ID] == c[CONF_PWS_ID]
      && (CONF_LANG !in c ==> d[CONF_LANG] == JStr(DEFAULT_LANG))
      && (CONF_NUMERIC_PRECISION !in c ==> d[CONF_NUMERIC_PRECISION] == JStr(DEFAULT_NUMERIC_PRECISION))
      && (CONF_CALENDARDAYTEMPERATURE !in c ==> d[CONF_CALENDARDAYTEMPERATURE] == JBool(false))
      && (CONF_LATITUDE in d ==> d[CONF_LATITUDE].JFloat? && -90.0 <= NumValue(d[CONF_LATITUDE]).value <= 90.0)
      && (CONF_LONGITUDE in d ==> d[CONF_LONGITUDE].JFloat? && -180.0 <= NumValue(d[CONF_LONGITUDE]).value <= 180.0)
      && (forall k :: k in c && RuleFor(k) == Extra ==> d[k] == c[k])
  {
    var d := ValidateDomain(c).value;
    SchemaRules();
    ValidatedValue(c, CONF_API_KEY);
    RuleGuarantees(Str, c[CONF_API_KEY]);
    ValidatedValue(c, CONF_PWS_ID);
    RuleGuarantees(Str, c[CONF_PWS_ID]);
    ValidatedOptions(c);
    ValidatedCoordinates(c);
    forall k | k in c && RuleFor(k) == Extra
      ensures d[k] == c[k]
    {
      ValidatedValue(c, k);
    }
  }

  /** The three optional settings of a validated section: each from its
      choice list or of its type, and the default when it was not given. */
  lemma ValidatedOptions(c: map<string, Json>)
    requires ValidateDomain(c).Ok?
    ensures var d := ValidateDomain(c).value;
      && CONF_NUMERIC_PRECISION in d && d[CONF_NUMERIC_PRECISION].JStr?
      && d[CONF_NUMERIC_PRECISION].s in ["none", "decimal"]
      && CONF_LANG in d && d[CONF_LANG].JStr? && d[CONF_LANG].s in LANG_CODES
      && CONF_CALENDARDAYTEMPERATURE in d && d[CONF_CALENDARDAYTEMPERATURE].JBool?
      && (CONF_LANG !in c ==> d[CONF_LANG] == JStr(DEFAULT_LANG))
      && (CONF_NUMERIC_PRECISION !in c ==> d[CONF_NUMERIC_PRECISION] == JStr(DEFAULT_NUMERIC_PRECISION))
      && (CONF_CALENDARDAYTEMPERATURE !in c ==> d[CONF_CALENDARDAYTEMPERATURE] == JBool(false))
  {
    DefaultsAreValid();
    SchemaRules();
    ValidatedValue(c, CONF_NUMERIC_PRECISION);
    if CONF_NUMERIC_PRECISION in c {
      RuleGuarantees(RuleFor(CONF_NUMERIC_PRECISION), c[CONF_NUMERIC_PRECISION]);
    }
    ValidatedValue(c, CONF_LANG);
    if CONF_LANG in c {
      RuleGuarantees(RuleFor(CONF_LANG), c[CONF_LANG]);
    }
    ValidatedValue(c, CONF_CALENDARDAYTEMPERATURE);
    if CONF_CALENDARDAYTEMPERATURE in c {
      RuleGuarantees(Boolean, c[CONF_CALENDARDAYTEMPERATURE]);
    }
  }

  /** The coordinates of a validated section: paired, and each in range. */
  lemma ValidatedCoordinates(c: map<string, Json>)
    requires ValidateDomain(c).Ok?
    ensures var d := ValidateDomain(c).value;
      && (CONF_LATITUDE in d <==> CONF_LONGITUDE in d)
      && (CONF_LATITUDE in d ==> d[CONF_LATITUDE].JFloat? && -90.0 <= NumValue(d[CONF_LATITUDE]).value <= 90.0)
      && (CONF_LONGITUDE in d ==> d[CONF_LONGITUDE].JFloat? && -180.0 <= NumValue(d[CONF_LONGITUDE]).value <= 180.0)
  {
    SchemaRules();
    ValidatedValue(c, CONF_LATITUDE);
    ValidatedValue(c, CONF_LONGITUDE);
    if CONF_LATITUDE in c {
      RuleGuarantees(Degrees(90), c[CONF_LATITUDE]);
      RuleGuarantees(Degrees(180), c[CONF_LONGITUDE]);
    }
  }

  /** A section whose every value its rule keeps, holding the required keys,
      the defaulted ones and paired coordinates, passes unchanged. */
  lemma FixedPointPasses(d: map<string, Json>)
    requires CONF_API_KEY in d && CONF_PWS_ID in d && DEFAULTS.Keys <= d.Keys
    requires (CONF_LATITUDE in d) == (CONF_LONGITUDE in d)
    requires forall k :: k in d ==> Check(RuleFor(k), d[k]) == Ok(d[k])
    ensures ValidateDomain(d) == Ok(d)
  {
    var m := map k | k in d :: Check(RuleFor(k), d[k]).value;
    assert m == d;
    assert (DEFAULTS + m).Keys == m.Keys;
    assert DEFAULTS + m == m;
  }

  /** The schema is idempotent: a validated section passes again unchanged. */
  lemma ValidationIsIdempotent(c: map<string, Json>)
    requires ValidateDomain(c).Ok?
    ensures ValidateDomain(ValidateDomain(c).value) == ValidateDomain(c)
  {
    var d := ValidateDomain(c).value;
    ValidatedDomain(c);
    forall k | k in d
      ensures Check(RuleFor(k), d[k]) == Ok(d[k])
    {
      ValidatedValue(c, k);
      if k in c {
        CheckedValuesAreFixed(RuleFor(k), c[k]);
      } else {
        DefaultsAreValid();
        SchemaRules();
      }
    }
    FixedPointPasses(d);
  }

  /** Each rejection: a missing required key, a lone coordinate, or a value
      its rule refuses. */
  lemma RejectedDomain(c: map<string, Json>)
    ensures ValidateDomain(c).Err? <==>
      CONF_API_KEY !in c || CONF_PWS_ID !in c
      || (CONF_LATITUDE in c) != (CONF_LONGITUDE in c)
      || (exists k :: k in c && Check(RuleFor(k), c[k]).Err?)
    ensures ValidateDomain(c).Err? ==> ValidateDomain(c).error == Invalid
  {
  }

  /** The smallest accepted section: an API key and a station id, with every
      option at its default and no coordinates. */
  lemma MinimalConfigGetsDefaults(apiKey: string, pwsId: string)
    ensures var d := ValidateDomain(map[CONF_API_KEY := JStr(apiKey), CONF_PWS_ID := JStr(pwsId)]);
      && d.Ok?
      && d.value[CONF_NUMERIC_PRECISION] == JStr("none")
      && d.value[CONF_LANG] == JStr("en-US")
      && d.value[CONF_CALENDARDAYTEMPERATURE] == JBool(false)
      && CONF_LATITUDE !in d.value && CONF_LONGITUDE !in d.value
  {
    var c := map[CONF_API_KEY := JStr(apiKey), CONF_PWS_ID := JStr(pwsId)];
    assert c.Keys == {CONF_API_KEY, CONF_PWS_ID};
    assert forall k :: k in c ==> Check(RuleFor(k), c[k]).Ok?;
  }

  // ---------------------------------------------------------------------
  // The translation file
  // ---------------------------------------------------------------------

  /** Opening and parsing one file of the translation directory: a missing
      file fails to open, an unparsable one fails to decode. The directory is
      a parameter: each present file name with its parsed contents, or None
      when it is not valid JSON. */
  function LoadFile(files: map<string, Option<Json>>, name: string): Result<Json, PyError> {
    if name !in files then Err(OSError)
    else if files[name].None? then Err(ValueError("invalid JSON"))
    else Ok(files[name].value)
  }

  /** `get_tran_file`: the file named after the text of the language tag
      before its first dash; on any failure, the English file, unguarded. */
  function GetTranFile(lang: string, files: map<string, Option<Json>>): Result<Json, PyError> {
    match LoadFile(files, BaseCode(lang) + ".json")
    case Ok(t) => Ok(t)
    case Err(_) => LoadFile(files, "en.json")
  }

  /** The language's own file when it is present and parses; the English file
      otherwise; and an error only when both fail, one of the two kinds. */
  lemma TranFileFallback(lang: string, files: map<string, Option<Json>>)
    ensures var own := BaseCode(lang) + ".json";
      && (own in files && files[own].Some? ==> GetTranFile(lang, files) == Ok(files[own].value))
      && (!(own in files && files[own].Some?) ==> GetTranFile(lang, files) == LoadFile(files, "en.json"))
    ensures GetTranFile(lang, files).Err? <==>
      !(BaseCode(lang) + ".json" in files && files[BaseCode(lang) + ".json"].Some?)
      && !("en.json" in files && files["en.json"].Some?)
    ensures GetTranFile(lang, files).Err? ==>
      GetTranFile(lang, files).error == OSError || GetTranFile(lang, files).error.ValueError?
  {
  }

  /** Home Assistant's `load_json`, which the coordinator's copy of
      `get_tran_file` uses: a missing file is not an error and reads as an
      empty object; an unparsable one raises HomeAssistantError. */
  function LoadJson(files: map<string, Option<Json>>, name: string): Result<Json, PyError> {
    if name !in files then Ok(JObj(map[]))
    else if files[name].None? then Err(HomeAssistantError)
    else Ok(files[name].value)
  }

  /** The coordinator's `get_tran_file`: the same file names as above, read
      with `load_json`; the English file only after an exception. */
  function CoordinatorTranFile(lang: string, files: map<string, Option<Json>>): Result<Json, PyError> {
    match LoadJson(files, BaseCode(lang) + ".json")
    case Ok(t) => Ok(t)
    case Err(_) => LoadJson(files, "en.json")
  }

  /** In the coordinator's copy a missing language file gives an empty table
      with no fallback; only an unparsable one falls back to English; and it
      fails exactly when both files are present and unparsable. */
  lemma CoordinatorTranFileFallback(lang: string, files: map<string, Option<Json>>)
    ensures var own := BaseCode(lang) + ".json";
      && (own !in files ==> CoordinatorTranFile(lang, files) == Ok(JObj(map[])))
      && (own in files && files[own].Some? ==> CoordinatorTranFile(lang, files) == Ok(files[own].value))
      && (own in files && files[own].None? ==> CoordinatorTranFile(lang, files) == LoadJson(files, "en.json"))
    ensures CoordinatorTranFile(lang, files).Err? <==>
      && BaseCode(lang) + ".json" in files && files[BaseCode(lang) + ".json"].None?
      && "en.json" in files && files["en.json"].None?
    ensures CoordinatorTranFile(lang, files).Err? ==> CoordinatorTranFile(lang, files).error == HomeAssistantError
  {
  }

  /** The two copies differ on a missing language file: `__init__.py`'s falls
      back to the English table, the coordinator's gives an empty one. */
  lemma TranFileCopiesDiffer(lang: string, files: map<string, Option<Json>>)
    requires BaseCode(lang) + ".json" !in files
    requires "en.json" in files && files["en.json"].Some? && files["en.json"].value != JObj(map[])
    ensures GetTranFile(lang, files) == Ok(files["en.json"].value)
    ensures CoordinatorTranFile(lang, files) == Ok(JObj(map[]))
    ensures GetTranFile(lang, files) != CoordinatorTranFile(lang, files)
  {
  }

  /** For a supported tag, the file tried first is the two-letter language
      code with `.json`, and with a parsable English file the lookup never fails. */
  lemma TranFileOfSupportedTag(lang: string, files: map<string, Option<Json>>)
    requires lang in LANG_CODES
    ensures |lang| == 5 && BaseCode(lang) + ".json" == lang[..2] + ".json"
    ensures "en.json" in files && files["en.json"].Some? ==> GetTranFile(lang, files).Ok?
  {
    LangCodesAreTags();
    BaseCodeOfTag(lang);
  }

  // ---------------------------------------------------------------------
  // async_setup
  // ---------------------------------------------------------------------

  /** `config.get(DOMAIN)` followed by `.get`: anything but an object has no `get`. */
  function PlatformConfig(config: map<string, Json>): Result<map<string, Json>, PyError> {
    if DOMAIN in config && config[DOMAIN].JObj? then Ok(config[DOMAIN].fields)
    else Err(AttributeError)
  }

  /** `dict.get`: the value, or None. */
  function Get(m: map<string, Json>, key: string): Json {
    if key in m then m[key] else JNull
  }

  /** A validated configuration's domain section is well typed. */
  lemma ValidatedPlatform(config: map<string, Json>)
    requires ValidateConfig(config) == Ok(config)
    requires PlatformConfig(config).Ok?
    ensures WellTyped(PlatformConfig(config).value)
  {
    var c := config[DOMAIN].fields;
    ValidatedDomain(c);
    assert config[DOMAIN := JObj(ValidateDomain(c).value)][DOMAIN] == config[DOMAIN];
  }

  /** What the schema hands `async_setup` is readable: validation's output
      meets the precondition of the setup. */
  lemma SchemaOutputIsReadable(config: map<string, Json>)
    requires ValidateConfig(config).Ok?
    ensures Readable(ValidateConfig(config).value)
  {
    var v := ValidateConfig(config).value;
    if DOMAIN in config && config[DOMAIN].JObj? {
      var c := config[DOMAIN].fields;
      ValidationIsIdempotent(c);
      assert v[DOMAIN := JObj(ValidateDomain(v[DOMAIN].fields).value)] == v;
      ValidatedPlatform(v);
    }
  }

  /** What `async_setup` relies on: a domain section that is an object holds
      every value it reads, with its type. The schema guarantees this
      (`ValidatedPlatform`). */
  predicate Readable(config: map<string, Json>) {
    PlatformConfig(config).Ok? ==> WellTyped(PlatformConfig(config).value)
  }

  /** The request settings `async_setup` hands the data object. */
  function SettingsFor(hostIsMetric: bool, pc: map<string, Json>): Settings
    requires WellTyped(pc)
  {
    WuData.Settings(pc[CONF_API_KEY].s, pc[CONF_PWS_ID].s, pc[CONF_NUMERIC_PRECISION].s,
                    UnitSystemChoice(hostIsMetric).0, pc[CONF_LANG].s,
                    Get(pc, CONF_LATITUDE), Get(pc, CONF_LONGITUDE))
  }

  /** What `hass.data[DOMAIN]` holds once set (apart from the data object). */
  datatype EntryValues = EntryValues(pwsId: string, lang: string, calendarDayTemperature: bool, tranFile: Option<Json>)

  /** How a setup ends: its result, the first fetch cycle when there was one,
      and the domain entry it leaves, if any. */
  datatype SetupState = SetupState(result: Result<bool, PyError>, first: Option<CycleResult>, entry: Option<EntryValues>)

  /** `async_setup`, step by step. */
  function Setup(hostIsMetric: bool, config: map<string, Json>, fetch: Network,
                 files: map<string, Option<Json>>): SetupState
    requires Readable(config)
  {
    match PlatformConfig(config)
    case Err(e) => SetupState(Err(e), None, None)
    case Ok(pc) =>
      var c := Cycle(SettingsFor(hostIsMetric, pc), JNull, fetch);
      if c.outcome.Raised? then SetupState(Err(c.outcome.error), Some(c), None)
      else if !Truthy(c.data) then SetupState(Err(PlatformNotReady), Some(c), None)
      else
        var lang := pc[CONF_LANG].s;
        var entry := EntryValues(pc[CONF_PWS_ID].s, lang, pc[CONF_CALENDARDAYTEMPERATURE].b, None);
        match GetTranFile(lang, files)
        case Err(e) => SetupState(Err(e), Some(c), Some(entry))
        case Ok(t) => SetupState(Ok(true), Some(c), Some(entry.(tranFile := Some(t))))
  }

  /** Setup succeeds only after a first cycle that completed with data, and
      then records the translation file of the configured language; a cycle
      that ended early leaves no data, so it always means "not ready". */
  lemma SetupNeedsData(hostIsMetric: bool, config: map<string, Json>, fetch: Network,
                       files: map<string, Option<Json>>)
    requires Readable(config)
    ensures var st := Setup(hostIsMetric, config, fetch, files);
      && (st.result.Ok? ==>
            (&& st.result.value && st.first.Some? && st.first.value.outcome == Completed
             && Truthy(st.first.value.data) && st.entry.Some? && st.entry.value.tranFile.Some?
             && GetTranFile(st.entry.value.lang, files) == Ok(st.entry.value.tranFile.value)))
      && (st.first.Some? && st.first.value.outcome.Caught? ==> st.result == Err(PlatformNotReady) && st.entry.None?)
      && (st.entry.None? <==> st.result.Err? && (st.result.error == PlatformNotReady || st.result.error == AttributeError
                                                 || (st.first.Some? && st.first.value.outcome.Raised?)))
  {
    var st := Setup(hostIsMetric, config, fetch, files);
    if PlatformConfig(config).Ok? {
      var pc := PlatformConfig(config).value;
      var s := SettingsFor(hostIsMetric, pc);
      FailedRunKeepsData(s, JNull, fetch, CurrentRequest(s), ForecastUrlFor(s));
      var c := Cycle(s, JNull, fetch);
      if !c.outcome.Raised? && Truthy(c.data) {
        TranFileFallback(pc[CONF_LANG].s, files);
      }
    }
  }

  /** `Setup` once the section is read: its steps in terms of the first cycle. */
  lemma SetupAfterCycle(hostIsMetric: bool, config: map<string, Json>, fetch: Network,
                        files: map<string, Option<Json>>)
    requires Readable(config)
    requires PlatformConfig(config).Ok?
    ensures var pc := PlatformConfig(config).value;
      && WellTyped(pc)
      && var c := Cycle(SettingsFor(hostIsMetric, pc), JNull, fetch);
      && var st := Setup(hostIsMetric, config, fetch, files);
      && st.first == Some(c)
      && (c.outcome.Raised? ==> st.result == Err(c.outcome.error) && st.entry.None?)
      && (!c.outcome.Raised? && !Truthy(c.data) ==> st.result == Err(PlatformNotReady) && st.entry.None?)
      && (!c.outcome.Raised? && Truthy(c.data) ==>
            && st.entry.Some?
            && st.entry.value.pwsId == pc[CONF_PWS_ID].s && st.entry.value.lang == pc[CONF_LANG].s
            && st.entry.value.calendarDayTemperature == pc[CONF_CALENDARDAYTEMPERATURE].b
            && var t := GetTranFile(pc[CONF_LANG].s, files);
            && (t.Err? ==> st.result == Err(t.error) && st.entry.value.tranFile.None?)
            && (t.Ok? ==> st.result == Ok(true) && st.entry.value.tranFile == Some(t.value)))
  {
  }

  /** The part of `async_setup` that builds the data object from the
      section and runs its first update: the object is new and holds the
      first cycle's snapshot and coordinates and the host's units. */
  method StartDataObject(unitsAreMetric: bool, platform: map<string, Json>, fetch: Network)
    returns (rest: WUndergroundData, outcome: Outcome)
    requires WellTyped(platform)
    ensures var c := Cycle(SettingsFor(unitsAreMetric, platform), JNull, fetch);
      && fresh(rest) && outcome == c.outcome
      && rest.data == c.data && rest.latitude == c.latitude && rest.longitude == c.longitude
      && rest.unitSystem == UnitSystemChoice(unitsAreMetric).1
      && rest.unitsOfMeasurement == UnitsOfMeasurement(UnitSystemChoice(unitsAreMetric).0)
  {
    var apiKey := platform[CONF_API_KEY].s;
    var pwsId := platform[CONF_PWS_ID].s;
    var latitude := Get(platform, CONF_LATITUDE);
    var longitude := Get(platform, CONF_LONGITUDE);
    var numericPrecision := platform[CONF_NUMERIC_PRECISION].s;
    var lang := platform[CONF_LANG].s;
    var choice := UnitSystemChoice(unitsAreMetric);
    rest := new WUndergroundData(apiKey, pwsId, numericPrecision, choice.0, choice.1,
                                 lang, latitude, longitude);
    assert rest.RequestSettings() == SettingsFor(unitsAreMetric, platform);
    var requests;
    outcome, requests := rest.AsyncUpdate(fetch);
  }

  /** `hass.data[DOMAIN]` as `async_setup` writes it. */
  datatype DomainEntry = DomainEntry(
    coordinator: WUndergroundData,
    pwsId: string,
    lang: string,
    calendarDayTemperature: bool,
    tranFile: Option<Json>)

  function Values(e: DomainEntry): EntryValues {
    EntryValues(e.pwsId, e.lang, e.calendarDayTemperature, e.tranFile)
  }

  /** The part of Home Assistant the setup touches: the host's unit system
      and the integration's slot in `hass.data`. */
  class HomeAssistant {
    const unitsAreMetric: bool
    var domainData: Option<DomainEntry>

    constructor (unitsAreMetric: bool)
      ensures this.unitsAreMetric == unitsAreMetric && domainData == None
    {
      this.unitsAreMetric := unitsAreMetric;
      domainData := None;
    }

    /** `async_setup`: the result and the domain entry are the ones `Setup`
        describes; the entry's data object is new and holds the first cycle's
        snapshot; nothing is written before the data check passes. */
    method AsyncSetup(config: map<string, Json>, fetch: Network,
                      files: map<string, Option<Json>>) returns (r: Result<bool, PyError>)
      requires Readable(config)
      modifies this
      ensures var st := Setup(unitsAreMetric, config, fetch, files);
        && r == st.result
        && (st.entry.None? ==> domainData == old(domainData))
        && (st.entry.Some? ==>
              && domainData.Some? && Values(domainData.value) == st.entry.value
              && fresh(domainData.value.coordinator)
              && domainData.value.coordinator.data == st.first.value.data
              && domainData.value.coordinator.latitude == st.first.value.latitude
              && domainData.value.coordinator.longitude == st.first.value.longitude
              && domainData.value.coordinator.unitSystem == UnitSystemChoice(unitsAreMetric).1
              && domainData.value.coordinator.unitsOfMeasurement
                 == UnitsOfMeasurement(UnitSystemChoice(unitsAreMetric).0))
    {
      var pc := PlatformConfig(config);
      if pc.Err? {
        return Err(pc.error);
      }
      SetupAfterCycle(unitsAreMetric, config, fetch, files);
      var rest, outcome := StartDataObject(unitsAreMetric, pc.value, fetch);
      if outcome.Raised? {
        return Err(outcome.error);
      }
      if !Truthy(rest.data) {
        return Err(PlatformNotReady);
      }
      r := Install(config, fetch, files, rest);
    }

    /** The end of `async_setup`, once the first cycle has left data: the
        entry is stored, then given the translation file; a file that cannot
        be read ends the setup with its error and leaves the entry without one. */
    method Install(config: map<string, Json>, fetch: Network, files: map<string, Option<Json>>,
                   rest: WUndergroundData) returns (r: Result<bool, PyError>)
      requires Readable(config) && PlatformConfig(config).Ok?
      requires var c := Cycle(SettingsFor(unitsAreMetric, PlatformConfig(config).value), JNull, fetch);
        && !c.outcome.Raised? && Truthy(c.data)
        && rest.data == c.data && rest.latitude == c.latitude && rest.longitude == c.longitude
      modifies this
      ensures var st := Setup(unitsAreMetric, config, fetch, files);
        && r == st.result && st.entry.Some?
        && domainData.Some? && Values(domainData.value) == st.entry.value
        && domainData.value.coordinator == rest
        && rest.data == st.first.value.data
        && rest.latitude == st.first.value.latitude
        && rest.longitude == st.first.value.longitude
    {
      var platform := PlatformConfig(config).value;
      var lang := platform[CONF_LANG].s;
      SetupAfterCycle(unitsAreMetric, config, fetch, files);
      var entry := DomainEntry(rest, platform[CONF_PWS_ID].s, lang, platform[CONF_CALENDARDAYTEMPERATURE].b, None);
      domainData := Some(entry);
      var tranFile := GetTranFile(lang, files);
      if tranFile.Err? {
        return Err(tranFile.error);
      }
      domainData := Some(entry.(tranFile := Some(tranFile.value)));
      r := Ok(true);
    }
  }
}
