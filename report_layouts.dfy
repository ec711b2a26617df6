/** How the two weather servers' outputs relate: they differ only in the emoji that open the report lines. */
module ReportLayouts {
  import opened Json
  import opened PyStr
  import opened WeatherData
  import WeatherServer
  import Server

  /** The prefixes that the emoji report puts before each of its five lines. */
  const EMOJI_PREFIXES: seq<string> :=
    ["\U{1F30D} ", "\U{1F321}\U{FE0F} ", "\U{1F4A7} ", "\U{1F343} ", "\U{1F324}\U{FE0F} "]

  /** Each emoji report line is the plain report line behind its emoji prefix. */
  lemma ReportLinesDifferByEmojiPrefix(rep: Report)
    ensures |WeatherServer.ReportLines(rep)| == |Server.ReportLines(rep)| == |EMOJI_PREFIXES|
    ensures forall i | 0 <= i < 5 ::
              WeatherServer.ReportLines(rep)[i] == EMOJI_PREFIXES[i] + Server.ReportLines(rep)[i]
  {
    var e, p := WeatherServer.ReportLines(rep), Server.ReportLines(rep);
    assert e[0] == EMOJI_PREFIXES[0] + p[0];
    assert e[1] == EMOJI_PREFIXES[1] + p[1];
    assert e[2] == EMOJI_PREFIXES[2] + p[2];
    assert e[3] == EMOJI_PREFIXES[3] + p[3];
    assert e[4] == EMOJI_PREFIXES[4] + p[4];
  }

  /** Line by line, the emoji report is the plain report with one emoji prefix per line. */
  lemma LinesDifferByEmojiPrefix(rep: Report)
    requires SingleLineValues(rep)
    ensures |Lines(WeatherServer.Layout(rep))| == |Lines(Server.Layout(rep))| == 5
    ensures forall i | 0 <= i < 5 ::
              Lines(WeatherServer.Layout(rep))[i] == EMOJI_PREFIXES[i] + Lines(Server.Layout(rep))[i]
  {
    WeatherServer.LayoutHasFiveLines(rep);
    Server.LayoutHasFiveLines(rep);
    ReportLinesDifferByEmojiPrefix(rep);
  }

  /** Whenever no report is laid out (parse error, error field, exception) the two servers return the same. */
  lemma FormattersAgreeOutsideReports(data: JValue, loads: Loads)
    requires !Analyze(data, loads).Weather?
    ensures WeatherServer.FormatWeather(data, loads) == Server.FormatWeather(data, loads)
  {
  }

  /** Both servers refuse a blank city with the same message. */
  lemma SameBlankCityMessage(city: string, fetch: string -> JValue, loads: Loads)
    requires AllSpace(city)
    ensures WeatherServer.QueryWeather(city, fetch, loads) == Server.QueryWeather(city, fetch, loads)
  {
  }
}
