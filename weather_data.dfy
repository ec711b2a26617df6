/**
 * The part of `format_weather` that both weather servers share: turning the input
 * into a value, the error short-circuit, and the lookups with their defaults.
 */
module WeatherData {
  import opened Wrappers
  import opened Json

  const UNKNOWN: string := "未知"
  const NOT_AVAILABLE: string := "N/A"
  const PARSE_ERROR_PREFIX: string := "无法解析天气数据："

  /** The six values the report prints, each already rendered by `str()`. */
  datatype Report = Report(city: string, country: string, temp: string,
                           humidity: string, windSpeed: string, description: string)

  /** How `format_weather` treats its input, before any text is laid out. */
  datatype Analysis =
    | ParseError(message: string)   // the text did not parse; `message` is the exception's text
    | ErrorField(text: string)      // the record has an "error" key; `text` is its value rendered
    | Weather(report: Report)       // the values to lay out
    | Raises                        // evaluating the lookups raises (see WellShaped)

  /** What `format_weather` ends with: the text it returns, or an exception it lets escape. */
  datatype Formatted = Text(s: string) | Raised

  /** The value the formatter works on: the result of parsing a string, and any other value itself. */
  function Decoded(data: JValue, loads: Loads): Result<JValue, string>
  {
    if data.Str? then loads(data.shown) else Success(data)
  }

  /** `obj.get(key, default)` printed by an f-string. */
  function Shown(fields: map<string, JValue>, key: string, default: string): string
  {
    if key in fields then fields[key].shown else default
  }

  /**
   * `data.get(key, {})` as a receiver of a further `.get`: the fields of the sub-record,
   * none when the key is missing, and None when the value is not a dict (the `.get` raises).
   */
  function SubRecord(fields: map<string, JValue>, key: string): Option<map<string, JValue>>
  {
    if key !in fields then Some(map[])
    else if fields[key].Object? then Some(fields[key].fields)
    else None
  }

  /**
   * `data.get("weather", [{}])[0]` as a receiver of `.get`: None when the value is not a
   * list, is an empty list, or starts with something other than a dict (all raise).
   */
  function FirstWeather(fields: map<string, JValue>): Option<map<string, JValue>>
  {
    if "weather" !in fields then Some(map[])
    else
      var w := fields["weather"];
      if w.Array? && |w.items| > 0 && w.items[0].Object? then Some(w.items[0].fields)
      else None
  }

  /** A record whose lookups all succeed: every nested value that is read with `.get` is a dict. */
  predicate WellShaped(fields: map<string, JValue>)
  {
    && ("sys" in fields ==> fields["sys"].Object?)
    && ("main" in fields ==> fields["main"].Object?)
    && ("wind" in fields ==> fields["wind"].Object?)
    && ("weather" in fields ==>
          fields["weather"].Array? && |fields["weather"].items| > 0 &&
          fields["weather"].items[0].Object?)
  }

  /** `obj.get(outer, {}).get(inner, default)` on a well-shaped record, printed. */
  function NestedShown(fields: map<string, JValue>, outer: string, inner: string, default: string): string
    requires outer in fields ==> fields[outer].Object?
  {
    if outer in fields then Shown(fields[outer].fields, inner, default) else default
  }

  /** The body of `format_weather` up to its return statements. */
  function Analyze(data: JValue, loads: Loads): (r: Analysis)
    ensures r.ParseError? <==> data.Str? && loads(data.shown).Failure?
    ensures r.ParseError? ==> r.message == loads(data.shown).error
    ensures r.ErrorField? <==>
      Decoded(data, loads).Success? && Decoded(data, loads).value.Object? &&
      "error" in Decoded(data, loads).value.fields
    ensures r.ErrorField? ==> r.text == Decoded(data, loads).value.fields["error"].shown
    ensures r.Weather? <==>
      Decoded(data, loads).Success? && Decoded(data, loads).value.Object? &&
      "error" !in Decoded(data, loads).value.fields && WellShaped(Decoded(data, loads).value.fields)
    ensures r.Weather? ==>
      var f := Decoded(data, loads).value.fields;
      && r.report.city == Shown(f, "name", UNKNOWN)
      && r.report.country == NestedShown(f, "sys", "country", UNKNOWN)
      && r.report.temp == NestedShown(f, "main", "temp", NOT_AVAILABLE)
      && r.report.humidity == NestedShown(f, "main", "humidity", NOT_AVAILABLE)
      && r.report.windSpeed == NestedShown(f, "wind", "speed", NOT_AVAILABLE)
      && r.report.description ==
           (if "weather" in f then Shown(f["weather"].items[0].fields, "description", UNKNOWN) else UNKNOWN)
  {
    match Decoded(data, loads)
    case Failure(e) => ParseError(e)
    case Success(v) =>
      if !v.Object? then Raises
      else if "error" in v.fields then ErrorField(v.fields["error"].shown)
      else
        var f := v.fields;
        var sys, main, wind, head := SubRecord(f, "sys"), SubRecord(f, "main"), SubRecord(f, "wind"), FirstWeather(f);
        if sys.None? || main.None? || wind.None? || head.None? then Raises
        else
          Weather(Report(
            Shown(f, "name", UNKNOWN),
            Shown(sys.value, "country", UNKNOWN),
            Shown(main.value, "temp", NOT_AVAILABLE),
            Shown(main.value, "humidity", NOT_AVAILABLE),
            Shown(wind.value, "speed", NOT_AVAILABLE),
            Shown(head.value, "description", UNKNOWN)))
  }

  /** Text that parses to anything but a string is treated exactly as the parsed value would be. */
  lemma TextIsTreatedAsItsParse(data: JValue, loads: Loads)
    requires data.Str? && loads(data.shown).Success? && !loads(data.shown).value.Str?
    ensures Analyze(data, loads) == Analyze(loads(data.shown).value, loads)
  {
  }

  /** Each field missing from the record is printed as its fixed default. */
  lemma MissingFieldsTakeDefaults(data: JValue, loads: Loads)
    requires Analyze(data, loads).Weather?
    ensures var f := Decoded(data, loads).value.fields;
            var rep := Analyze(data, loads).report;
            && ("name" !in f ==> rep.city == UNKNOWN)
            && ("sys" !in f || "country" !in f["sys"].fields ==> rep.country == UNKNOWN)
            && ("main" !in f || "temp" !in f["main"].fields ==> rep.temp == NOT_AVAILABLE)
            && ("main" !in f || "humidity" !in f["main"].fields ==> rep.humidity == NOT_AVAILABLE)
            && ("wind" !in f || "speed" !in f["wind"].fields ==> rep.windSpeed == NOT_AVAILABLE)
            && ("weather" !in f || "description" !in f["weather"].items[0].fields ==> rep.description == UNKNOWN)
  {
  }

  /** Each field present in the record is printed as its own rendering. */
  lemma PresentFieldsAreShown(data: JValue, loads: Loads)
    requires Analyze(data, loads).Weather?
    ensures var f := Decoded(data, loads).value.fields;
            var rep := Analyze(data, loads).report;
            && ("name" in f ==> rep.city == f["name"].shown)
            && ("sys" in f && "country" in f["sys"].fields ==> rep.country == f["sys"].fields["country"].shown)
            && ("main" in f && "temp" in f["main"].fields ==> rep.temp == f["main"].fields["temp"].shown)
            && ("main" in f && "humidity" in f["main"].fields ==> rep.humidity == f["main"].fields["humidity"].shown)
            && ("wind" in f && "speed" in f["wind"].fields ==> rep.windSpeed == f["wind"].fields["speed"].shown)
            && ("weather" in f && "description" in f["weather"].items[0].fields ==>
                  rep.description == f["weather"].items[0].fields["description"].shown)
  {
  }

  /** No printed value contains a newline, so the report's layout has exactly one line per value. */
  predicate SingleLineValues(rep: Report)
  {
    && '\n' !in rep.city && '\n' !in rep.country && '\n' !in rep.temp
    && '\n' !in rep.humidity && '\n' !in rep.windSpeed && '\n' !in rep.description
  }
}
