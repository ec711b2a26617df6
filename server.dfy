/** The formatter and the city guard of the second weather tool server, whose report lines are plain. */
module Server {
  import opened Json
  import opened PyStr
  import opened WeatherData

  const EMPTY_CITY_MESSAGE: string := "错误：城市名称不能为空，请提供有效的城市名（英文）。"

  /** The five report lines, without their newlines, in print order. */
  function ReportLines(rep: Report): seq<string>
  {
    [ rep.city + ", " + rep.country,
      "温度：" + rep.temp + "°C",
      "湿度：" + rep.humidity + "%",
      "风速：" + rep.windSpeed + " m/s",
      "天气：" + rep.description ]
  }

  /** The f-string that `format_weather` returns for a report. */
  function Layout(rep: Report): string
  {
    rep.city + ", " + rep.country + "\n" +
    "温度：" + rep.temp + "°C\n" +
    "湿度：" + rep.humidity + "%\n" +
    "风速：" + rep.windSpeed + " m/s\n" +
    "天气：" + rep.description + "\n"
  }

  /**
   * The layout is the five report lines, each ending in a newline; when no value spans
   * several lines, splitting the text at its newlines gives back exactly those five lines.
   */
  lemma {:induction false} LayoutHasFiveLines(rep: Report)
    ensures Layout(rep) == JoinLines(ReportLines(rep))
    ensures SingleLineValues(rep) ==> Lines(Layout(rep)) == ReportLines(rep) && |Lines(Layout(rep))| == 5
  {
    var ls := ReportLines(rep);
    JoinFiveLines(ls[0], ls[1], ls[2], ls[3], ls[4]);
    if SingleLineValues(rep) {
      assert '\n' !in ls[0] && '\n' !in ls[1] && '\n' !in ls[2] && '\n' !in ls[3] && '\n' !in ls[4];
      LinesOfJoinLines(ls);
    }
  }

  /** `format_weather(data)`. */
  function FormatWeather(data: JValue, loads: Loads): (r: Formatted)
    ensures data.Str? && loads(data.shown).Failure? ==>
              r == Text(PARSE_ERROR_PREFIX + loads(data.shown).error)
    ensures Decoded(data, loads).Success? && Decoded(data, loads).value.Object? &&
            "error" in Decoded(data, loads).value.fields ==>
              r == Text(Decoded(data, loads).value.fields["error"].shown)
    ensures r.Raised? <==> Analyze(data, loads).Raises?
    ensures Analyze(data, loads).Weather? ==> r == Text(Layout(Analyze(data, loads).report))
  {
    match Analyze(data, loads)
    case ParseError(e) => Text(PARSE_ERROR_PREFIX + e)
    case ErrorField(t) => Text(t)
    case Weather(rep) => Text(Layout(rep))
    case Raises => Raised
  }

  /**
   * The tool `query_weather(city)`: a city name made of whitespace only is refused with a
   * fixed message before anything is fetched; otherwise whatever the fetch answers is formatted,
   * a string being parsed first.
   */
  function QueryWeather(city: string, fetch: string -> JValue, loads: Loads): (r: Formatted)
    ensures AllSpace(city) ==> r == Text(EMPTY_CITY_MESSAGE)
    ensures !AllSpace(city) ==> r == FormatWeather(fetch(city), loads)
  {
    StripEmptyIffAllSpace(city);
    if Strip(city) == [] then Text(EMPTY_CITY_MESSAGE)
    else FormatWeather(fetch(city), loads)
  }

  /** The answer to a blank city does not depend on the fetcher: no fetch happens. */
  lemma BlankCityIsNotFetched(city: string, fetch1: string -> JValue, fetch2: string -> JValue, loads: Loads)
    requires AllSpace(city)
    ensures QueryWeather(city, fetch1, loads) == QueryWeather(city, fetch2, loads) == Text(EMPTY_CITY_MESSAGE)
  {
  }
}
