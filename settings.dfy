/** Loading and saving the scrubber's settings (src/lib/settings.ts). Storage
    access and JSON text are outside the model: loading starts from what
    `localStorage.getItem` returned, with `JSON.parse` as a parameter, and saving
    stops at the value `JSON.stringify` would write. JSON numbers are reals. */
module Settings {
  import opened Optional
  import opened Constants

  /** A parsed JSON value. */
  datatype Json =
    | JNull
    | JBool(b: bool)
    | JNumber(n: real)
    | JString(s: string)
    | JArray(items: seq<Json>)
    | JObject(fields: map<string, Json>)

  /** What `localStorage.getItem` gave: it threw (storage unavailable), returned
      `null`, or returned a text. */
  datatype Stored = Unavailable | Missing | Text(raw: string)

  /** What `JSON.parse` gave: it threw, or returned a value. */
  datatype Parsed = SyntaxError | Value(json: Json)

  /** The persisted settings. */
  datatype ScrubberSettings = ScrubberSettings(speed: real, slowMoSpeed: real, holdTickRateMs: real)

  const DefaultSettings: ScrubberSettings := ScrubberSettings(1.0, SlowMoSpeedDefault, HoldTickRateMsDefault)

  /** The number at `key` of an object; `None` when the field is missing or not a
      number, and for every other kind of value (`parsed.key` is then
      `undefined`, whose `typeof` is not "number"). */
  function NumberField(j: Json, key: string): Option<real> {
    if j.JObject? && key in j.fields && j.fields[key].JNumber? then Some(j.fields[key].n) else None
  }

  /** `Math.max(lo, Math.min(hi, x))`. */
  function Clamp(x: real, lo: real, hi: real): (r: real)
    requires lo <= hi
    ensures lo <= r <= hi
    ensures lo <= x <= hi ==> r == x
    ensures x > hi ==> r == hi
    ensures x < lo ==> r == lo
  {
    if x > hi then hi else if x < lo then lo else x
  }

  /** Decodes a parsed value field by field. `null` makes the first field access
      throw, which yields the defaults; otherwise each field that is a number is
      taken (the two bounded ones clamped) and every other field takes its own
      default. */
  function DecodeSettings(parsed: Json): (r: ScrubberSettings)
    ensures parsed.JNull? ==> r == DefaultSettings
    ensures SlowMoSpeedMin <= r.slowMoSpeed <= SlowMoSpeedMax
    ensures HoldTickRateMsMin <= r.holdTickRateMs <= HoldTickRateMsMax
    ensures r.speed == NumberField(parsed, "speed").GetOr(DefaultSettings.speed)
    ensures NumberField(parsed, "slowMoSpeed").None? ==> r.slowMoSpeed == SlowMoSpeedDefault
    ensures NumberField(parsed, "holdTickRateMs").None? ==> r.holdTickRateMs == HoldTickRateMsDefault
    ensures NumberField(parsed, "slowMoSpeed").Some? ==>
      r.slowMoSpeed == Clamp(NumberField(parsed, "slowMoSpeed").value, SlowMoSpeedMin, SlowMoSpeedMax)
    ensures NumberField(parsed, "holdTickRateMs").Some? ==>
      r.holdTickRateMs == Clamp(NumberField(parsed, "holdTickRateMs").value, HoldTickRateMsMin, HoldTickRateMsMax)
  {
    if parsed.JNull? then DefaultSettings
    else
      var speed := NumberField(parsed, "speed");
      var slowMo := NumberField(parsed, "slowMoSpeed");
      var tick := NumberField(parsed, "holdTickRateMs");
      ScrubberSettings(
        speed := if speed.Some? then speed.value else DefaultSettings.speed,
        slowMoSpeed := if slowMo.Some? then Clamp(slowMo.value, SlowMoSpeedMin, SlowMoSpeedMax) else DefaultSettings.slowMoSpeed,
        holdTickRateMs := if tick.Some? then Clamp(tick.value, HoldTickRateMsMin, HoldTickRateMsMax) else DefaultSettings.holdTickRateMs)
  }

  /** `loadSettings`: the defaults without a window, when storage throws, when
      nothing or an empty text is stored, and when the text is not JSON;
      otherwise the decoded value. */
  function LoadSettings(hasWindow: bool, stored: Stored, parse: string -> Parsed): (r: ScrubberSettings)
    ensures !hasWindow || !stored.Text? || stored.raw == "" ==> r == DefaultSettings
    ensures hasWindow && stored.Text? && stored.raw != "" && parse(stored.raw).SyntaxError? ==> r == DefaultSettings
    ensures hasWindow && stored.Text? && stored.raw != "" && parse(stored.raw).Value? ==>
      r == DecodeSettings(parse(stored.raw).json)
    ensures SlowMoSpeedMin <= r.slowMoSpeed <= SlowMoSpeedMax
    ensures HoldTickRateMsMin <= r.holdTickRateMs <= HoldTickRateMsMax
  {
    if !hasWindow then DefaultSettings
    else match stored
      case Unavailable => DefaultSettings
      case Missing => DefaultSettings
      case Text(raw) =>
        if raw == "" then DefaultSettings
        else match parse(raw)
          case SyntaxError => DefaultSettings
          case Value(json) => DecodeSettings(json)
  }

  /** The value `saveSettings` hands to `JSON.stringify`. */
  function SettingsToJson(s: ScrubberSettings): (j: Json)
    ensures j.JObject? && j.fields.Keys == {"speed", "slowMoSpeed", "holdTickRateMs"}
    ensures NumberField(j, "speed") == Some(s.speed)
    ensures NumberField(j, "slowMoSpeed") == Some(s.slowMoSpeed)
    ensures NumberField(j, "holdTickRateMs") == Some(s.holdTickRateMs)
  {
    JObject(map["speed" := JNumber(s.speed), "slowMoSpeed" := JNumber(s.slowMoSpeed), "holdTickRateMs" := JNumber(s.holdTickRateMs)])
  }

  /** Settings whose bounded fields are in range. */
  predicate InRange(s: ScrubberSettings) {
    SlowMoSpeedMin <= s.slowMoSpeed <= SlowMoSpeedMax && HoldTickRateMsMin <= s.holdTickRateMs <= HoldTickRateMsMax
  }

  /** Loading what was saved gives back settings whose bounded fields are in
      range, whatever other fields the stored object carries. */
  lemma SaveThenLoad(s: ScrubberSettings, extra: map<string, Json>)
    requires InRange(s)
    requires forall k :: k in extra ==> k !in {"speed", "slowMoSpeed", "holdTickRateMs"}
    ensures DecodeSettings(SettingsToJson(s)) == s
    ensures DecodeSettings(JObject(extra + SettingsToJson(s).fields)) == s
  {
  }

  /** The full round trip through storage: when the stored text is what
      `JSON.stringify` wrote for in-range settings and `JSON.parse` reads that
      text back, loading returns the saved settings. */
  lemma SaveThenLoadStored(s: ScrubberSettings, text: string, parse: string -> Parsed)
    requires InRange(s)
    requires text != ""
    requires parse(text) == Value(SettingsToJson(s))
    ensures LoadSettings(true, Text(text), parse) == s
  {
    SaveThenLoad(s, map[]);
  }

  /** Loading is idempotent in effect: whatever is loaded can be saved and loaded
      again unchanged. */
  lemma LoadIsStable(hasWindow: bool, stored: Stored, parse: string -> Parsed)
    ensures var s := LoadSettings(hasWindow, stored, parse); DecodeSettings(SettingsToJson(s)) == s
  {
  }

  /** Each field is decided on its own: replacing one field of the stored object
      changes no other decoded field. */
  lemma FieldsIndependent(fields: map<string, Json>, key: string, value: Json)
    ensures var before := DecodeSettings(JObject(fields));
      var after := DecodeSettings(JObject(fields[key := value]));
      && (key != "speed" ==> after.speed == before.speed)
      && (key != "slowMoSpeed" ==> after.slowMoSpeed == before.slowMoSpeed)
      && (key != "holdTickRateMs" ==> after.holdTickRateMs == before.holdTickRateMs)
  {
  }

  /** A stored `{"speed": "fast"}` loads as the full defaults. */
  lemma WrongTypeLoadsDefaults()
    ensures DecodeSettings(JObject(map["speed" := JString("fast")])) == DefaultSettings
  {
  }

  /** The out-of-range values are pulled to the nearest bound, while `speed` is
      taken as stored. */
  lemma ClampsBoundedFieldsOnly()
    ensures DecodeSettings(JObject(map["speed" := JNumber(16.0), "slowMoSpeed" := JNumber(2.0), "holdTickRateMs" := JNumber(5.0)]))
      == ScrubberSettings(16.0, SlowMoSpeedMax, HoldTickRateMsMin)
  {
  }
}
