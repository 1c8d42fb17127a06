/** The integration's constants: configuration defaults, the supported
    language tags, the unit-tuple positions and the JSON field names. */
module Const {
  import opened PyText

  const DOMAIN := "wundergroundpws"

  const CONF_PWS_ID := "pws_id"
  const CONF_NUMERIC_PRECISION := "numeric_precision"
  const CONF_LANG := "lang"
  const CONF_CALENDARDAYTEMPERATURE := "calendarday_temp"

/** Supported language tags of the provider's forecast endpoint, in source
      order (written as eight runs so that each can be checked on its own). */
  const LANG_CODES: seq<string> :=
    LANG_CODES_A + LANG_CODES_B + LANG_CODES_C + LANG_CODES_D + LANG_CODES_E + LANG_CODES_F + LANG_CODES_G + LANG_CODES_H
  const LANG_CODES_A: seq<string> := [
    "am-ET", "ar-AE", "az-AZ", "bg-BG", "bn-BD", "bn-IN", "bs-BA", "ca-ES", "cs-CZ", "da-DK", "de-DE"
  ]
  const LANG_CODES_B: seq<string> := [
    "el-GR", "en-GB", "en-IN", "en-US", "es-AR", "es-ES", "es-LA", "es-MX", "es-UN", "es-US", "et-EE"
  ]
  const LANG_CODES_C: seq<string> := [
    "fa-IR", "fi-FI", "fr-CA", "fr-FR", "gu-IN", "he-IL", "hi-IN", "hr-HR", "hu-HU", "in-ID", "is-IS"
  ]
  const LANG_CODES_D: seq<string> := [
    "it-IT", "iw-IL", "ja-JP", "jv-ID", "ka-GE", "kk-KZ", "km-KH", "kn-IN", "ko-KR", "lo-LA", "lt-LT"
  ]
  const LANG_CODES_E: seq<string> := [
    "lv-LV", "mk-MK", "mn-MN", "mr-IN", "ms-MY", "my-MM", "ne-IN", "ne-NP", "nl-NL", "no-NO", "om-ET"
  ]
  const LANG_CODES_F: seq<string> := [
    "pa-IN", "pa-PK", "pl-PL", "pt-BR", "pt-PT", "ro-RO", "ru-RU", "si-LK", "sk-SK", "sl-SI", "sq-AL"
  ]
  const LANG_CODES_G: seq<string> := [
    "sr-BA", "sr-ME", "sr-RS", "sv-SE", "sw-KE", "ta-IN", "ta-LK", "te-IN", "ti-ER", "ti-ET", "tg-TJ"
  ]
  const LANG_CODES_H: seq<string> := [
    "th-TH", "tk-TM", "tl-PH", "tr-TR", "uk-UA", "ur-PK", "uz-UZ", "vi-VN", "zh-CN", "zh-HK", "zh-TW"
  ]

  const DEFAULT_NUMERIC_PRECISION := "none"
  const DEFAULT_LANG := "en-US"
  const DEFAULT_CALENDARDAYTEMPERATURE := false

  // Positions in the units-of-measurement 7-tuple.
  const TEMPUNIT := 0
  const LENGTHUNIT := 1
  const ALTITUDEUNIT := 2
  const SPEEDUNIT := 3
  const PRESSUREUNIT := 4
  const RATE := 5
  const PERCENTAGEUNIT := 6

  const FIELD_LATITUDE := "lat"
  const FIELD_LONGITUDE := "lon"

  const FIELD_OBSERVATIONS := "observations"
  const FIELD_CONDITION_HUMIDITY := "humidity"
  const FIELD_CONDITION_PRESSURE := "pressure"
  const FIELD_CONDITION_TEMP := "temp"
  const FIELD_CONDITION_WINDDIR := "winddir"
  const FIELD_CONDITION_WINDSPEED := "windSpeed"

  const FIELD_DAYPART := "daypart"
  const FIELD_FORECAST_PRECIPCHANCE := "precipChance"
  const FIELD_FORECAST_QPF := "qpf"
  const FIELD_FORECAST_TEMPERATUREMAX := "temperatureMax"
  const FIELD_FORECAST_TEMPERATUREMIN := "temperatureMin"
  const FIELD_FORECAST_CALENDARDAYTEMPERATUREMAX := "calendarDayTemperatureMax"
  const FIELD_FORECAST_CALENDARDAYTEMPERATUREMIN := "calendarDayTemperatureMin"
  const FIELD_FORECAST_VALIDTIMEUTC := "validTimeUtc"
  const FIELD_FORECAST_WINDDIRECTIONCARDINAL := "windDirectionCardinal"
  const FIELD_FORECAST_WINDSPEED := "windSpeed"
  const FIELD_FORECAST_ICONCODE := "iconCode"

  // Names the sensor platform imports from a newer const.py than the one
  // modelled here; their values are the provider's own field names.
  const FIELD_FORECAST_DAYPARTNAME := "daypartName"
  const FIELD_FORECAST_DAYOFWEEK := "dayOfWeek"
  const FIELD_FORECAST_EXPIRED := "expired"
  const MAX_FORECAST_DAYS := 5

  /** Fields that exist once per day rather than once per half-day period. */
  const DAILY_FIELDS := [
    FIELD_FORECAST_TEMPERATUREMAX,
    FIELD_FORECAST_TEMPERATUREMIN,
    FIELD_FORECAST_CALENDARDAYTEMPERATUREMAX,
    FIELD_FORECAST_CALENDARDAYTEMPERATUREMIN,
    FIELD_FORECAST_VALIDTIMEUTC
  ]

  /** Observation fields stored outside the unit-keyed sub-object. */
  const UNITLESS_FIELDS := [FIELD_CONDITION_HUMIDITY, FIELD_CONDITION_WINDDIR]

  predicate IsLetter(c: char) {
    ('a' <= c <= 'z') || ('A' <= c <= 'Z')
  }

  /** Two letters, a dash, two letters. */
  predicate IsLangTag(s: string) {
    |s| == 5 && IsLetter(s[0]) && IsLetter(s[1]) && s[2] == '-' && IsLetter(s[3]) && IsLetter(s[4])
  }

  /** The translation-file base name of a tag: the text before its first dash. */
  function BaseCode(lang: string): string {
    BeforeFirst(lang, '-')
  }

  lemma BaseCodeOfTag(s: string)
    requires IsLangTag(s)
    ensures BaseCode(s) == s[..2]
  {
    var b := BaseCode(s);
    assert forall i :: 0 <= i < |b| ==> b[i] != '-';
    assert |b| <= 2;
    assert |b| == |s| || s[|b|] == '-';
    assert |b| == 2;
  }

  predicate AllTags(s: seq<string>) {
    forall i :: 0 <= i < |s| ==> IsLangTag(s[i])
  }

  lemma AllTagsAppend(a: seq<string>, b: seq<string>)
    requires AllTags(a) && AllTags(b)
    ensures AllTags(a + b)
  {
    forall i | 0 <= i < |a + b|
      ensures IsLangTag((a + b)[i])
    {
      if i < |a| {
        assert (a + b)[i] == a[i];
      } else {
        assert (a + b)[i] == b[i - |a|];
      }
    }
  }

  lemma RunATags()
    ensures AllTags(LANG_CODES_A)
  {
  }

  lemma RunBTags()
    ensures AllTags(LANG_CODES_B)
  {
  }

  lemma RunCTags()
    ensures AllTags(LANG_CODES_C)
  {
  }

  lemma RunDTags()
    ensures AllTags(LANG_CODES_D)
  {
  }

  lemma RunETags()
    ensures AllTags(LANG_CODES_E)
  {
  }

  lemma RunFTags()
    ensures AllTags(LANG_CODES_F)
  {
  }

  lemma RunGTags()
    ensures AllTags(LANG_CODES_G)
  {
  }

  lemma RunHTags()
    ensures AllTags(LANG_CODES_H)
  {
  }

  /** Every supported tag has the two-letter, dash, two-letter shape, so its
      translation base name is exactly two letters. */
  lemma LangCodesAreTags()
    ensures forall i :: 0 <= i < |LANG_CODES| ==> IsLangTag(LANG_CODES[i])
    ensures forall i :: 0 <= i < |LANG_CODES| ==> |BaseCode(LANG_CODES[i])| == 2
  {
    RunATags();
    RunBTags();
    RunCTags();
    RunDTags();
    RunETags();
    RunFTags();
    RunGTags();
    RunHTags();
    AllTagsAppend(LANG_CODES_A, LANG_CODES_B);
    AllTagsAppend(LANG_CODES_A + LANG_CODES_B, LANG_CODES_C);
    AllTagsAppend(LANG_CODES_A + LANG_CODES_B + LANG_CODES_C, LANG_CODES_D);
    AllTagsAppend(LANG_CODES_A + LANG_CODES_B + LANG_CODES_C + LANG_CODES_D, LANG_CODES_E);
    AllTagsAppend(LANG_CODES_A + LANG_CODES_B + LANG_CODES_C + LANG_CODES_D + LANG_CODES_E, LANG_CODES_F);
    AllTagsAppend(LANG_CODES_A + LANG_CODES_B + LANG_CODES_C + LANG_CODES_D + LANG_CODES_E + LANG_CODES_F, LANG_CODES_G);
    AllTagsAppend(LANG_CODES_A + LANG_CODES_B + LANG_CODES_C + LANG_CODES_D + LANG_CODES_E + LANG_CODES_F + LANG_CODES_G, LANG_CODES_H);
    forall i | 0 <= i < |LANG_CODES|
      ensures |BaseCode(LANG_CODES[i])| == 2
    {
      BaseCodeOfTag(LANG_CODES[i]);
    }
  }

  /** The configuration defaults are themselves valid choices. */
  lemma DefaultsAreValid()
    ensures DEFAULT_LANG in LANG_CODES
    ensures DEFAULT_NUMERIC_PRECISION in ["none", "decimal"]
    ensures BaseCode(DEFAULT_LANG) == "en"
  {
    assert LANG_CODES_B[3] == DEFAULT_LANG;
    assert LANG_CODES[14] == LANG_CODES_B[3];
    BaseCodeOfTag(DEFAULT_LANG);
  }
}
