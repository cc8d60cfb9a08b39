/**
 * The whole run of the script: normalise the arguments, build the URL,
 * make the one request, then `displayWeather` on success and `showError`
 * on any rejection, including an error thrown by `displayWeather`.
 */
module WeatherCli {
  import opened Options
  import opened JsText
  import opened Args
  import opened Request
  import opened Report
  import opened ErrorReport

  /** The outcome of the one HTTP GET. */
  datatype Fetched =
    | Ok(response: Response)
    | HttpErr(status: int, message: string, statusText: string)
    | Fault(description: string)

  /** What the process prints, one string per console.log call, and its exit status. */
  datatype Output = Output(lines: seq<string>, exitCode: int)

  /** The URL the script requests for its arguments. */
  function UrlFor(argv: seq<string>, apiKey: string): string
  {
    RequestUrl(apiKey, Normalize(argv))
  }

  /**
   * `axios.get(url).then(displayWeather).catch(showError)`, with `fetch`
   * standing for the provider's answer to each URL. The handler catches
   * every rejection, so only `process.exit(9)` gives a non-zero status.
   */
  function Run(argv: seq<string>, apiKey: string, fetch: string -> Fetched): (out: Output)
    ensures var answer := fetch(UrlFor(argv, apiKey));
      && (out.exitCode == InvalidArgument
          <==> answer.Ok? && |argv| > 0 && Mismatch(argv[0], answer.response.location.name))
      && (out.exitCode != InvalidArgument ==> out.exitCode == 0)
      && (answer.HttpErr? ==> out.lines == ShowError(ApiError(answer.status, answer.message, answer.statusText)))
      && (answer.Fault? ==> out.lines == ShowError(ScriptError(answer.description)))
      && (answer.Ok? && |argv| == 0 ==> out.lines == ShowError(ScriptError(MissingCityError)))
      && (answer.Ok? && |argv| > 0 ==> out.lines == Display(Normalize(argv), answer.response).lines)
  {
    var q := Normalize(argv);
    match fetch(RequestUrl(apiKey, q))
    case Ok(response) =>
      (match Display(q, response)
       case Finished(lines) => Output(lines, 0)
       case Exited(lines, code) => Output(lines, code)
       case Threw(error) => Output(ShowError(ScriptError(error)), 0))
    case HttpErr(status, message, statusText) => Output(ShowError(ApiError(status, message, statusText)), 0)
    case Fault(description) => Output(ShowError(ScriptError(description)), 0)
  }

  // ---------------------------------------------------------------- scenarios

  /** "Paris" alone: the current-conditions URL, then the header and a one-day report in Celsius. */
  lemma ParisScenario(apiKey: string, fetch: string -> Fetched, current: Current)
    requires fetch(UrlFor(["Paris"], apiKey)) == Ok(Response(Location("Paris", "France"), current, None))
    ensures UrlFor(["Paris"], apiKey) == "http://api.weatherapi.com/v1/" + "current" + ".json?key=" + apiKey + "&q=" + "Paris"
    ensures var out := Run(["Paris"], apiKey, fetch);
      && out.exitCode == 0
      && out.lines == [Header()] + TodaysReport("Paris", "France", current.tempC + "°C", current.condition)
  {
    CityOnly("Paris");
    var q := Normalize(["Paris"]);
    SingleDayUrl(apiKey, q);
    MatchIgnoresCase("Paris", "Paris");
    var resp := Response(Location("Paris", "France"), current, None);
    var temp := Temperature(current.tempC, current.tempF, false);
    assert Display(q, resp) == Finished([Header()] + TodaysReport("Paris", "France", temp, current.condition));
  }

  /** "Tokyo 3 F" and "Tokyo F 3" both ask for three days in Fahrenheit. */
  lemma TokyoQuery()
    ensures Normalize(["Tokyo", "F", "3"]) == Normalize(["Tokyo", "3", "F"]) == Query(Some("Tokyo"), 3, true)
  {
    assert !IsNumeric("F") by { assert TrimEnd(TrimStart("F")) == "F"; }
    assert Decimal(3) == "3";
    OrderIrrelevantForNumerals("Tokyo", 3, "F");
  }

  /** The request for "Tokyo 3 F" goes to the forecast endpoint with `&days=3`. */
  lemma TokyoRequest(apiKey: string, argv: seq<string>)
    requires argv == ["Tokyo", "3", "F"] || argv == ["Tokyo", "F", "3"]
    ensures UrlFor(argv, apiKey) == "http://api.weatherapi.com/v1/" + "forecast" + ".json?key=" + apiKey + "&q=" + "Tokyo" + "&days=" + "3"
  {
    TokyoQuery();
    var q := Query(Some("Tokyo"), 3, true);
    assert Normalize(argv) == q;
    assert Decimal(3) == "3";
    ForecastUrl(apiKey, q);
  }

  lemma UpperTokyoJapan()
    ensures ToUpper("Tokyo") == "TOKYO" && ToUpper("Japan") == "JAPAN"
  {
    var t, j := ToUpper("Tokyo"), ToUpper("Japan");
    assert t[0] == 'T' && t[1] == 'O' && t[2] == 'K' && t[3] == 'Y' && t[4] == 'O';
    assert j[0] == 'J' && j[1] == 'A' && j[2] == 'P' && j[3] == 'A' && j[4] == 'N';
  }

  /** The report for a three-day Tokyo answer: the banner says THREE and each day's average is in Fahrenheit, in order. */
  lemma TokyoReport(current: Current, days: seq<ForecastDay>)
    requires |days| == 3
    ensures var lines := Display(Query(Some("Tokyo"), 3, true), Response(Location("Tokyo", "Japan"), current, Some(days))).lines;
      && |lines| == 15
      && lines[2] == "\n* THE WEATHER FORECAST FOR " + "TOKYO" + ", " + "JAPAN" + " FOR THE NEXT " + "THREE" + " DAYS *\n"
      && (forall i :: 0 <= i < 3 ==>
            lines[3 + 4 * i] == "Day: " + days[i].date
            && lines[4 + 4 * i] == "Average Temperature: " + days[i].avgTempF + "°F")
  {
    var q := Query(Some("Tokyo"), 3, true);
    MatchIgnoresCase("Tokyo", "Tokyo");
    var resp := Response(Location("Tokyo", "Japan"), current, Some(days));
    ForecastShape(q, resp);
    UpperTokyoJapan();
  }

  /**
   * A three-day answer to tokens that normalise as "Tokyo 3 F" does (so
   * also "Tokyo F 3", by TokyoQuery) prints that report and exits with 0.
   */
  lemma TokyoScenario(argv: seq<string>, apiKey: string, fetch: string -> Fetched, current: Current, days: seq<ForecastDay>)
    requires Normalize(argv) == Query(Some("Tokyo"), 3, true)
    requires |days| == 3
    requires fetch(UrlFor(argv, apiKey)) == Ok(Response(Location("Tokyo", "Japan"), current, Some(days)))
    ensures Run(argv, apiKey, fetch)
      == Output(Display(Query(Some("Tokyo"), 3, true), Response(Location("Tokyo", "Japan"), current, Some(days))).lines, 0)
  {
    TokyoReport(current, days);
  }

  /** "Londin" resolved to "London": only the mismatch message, and exit status 9. */
  lemma LondinScenario(apiKey: string, fetch: string -> Fetched, current: Current, forecast: Option<seq<ForecastDay>>)
    requires fetch(UrlFor(["Londin"], apiKey)) == Ok(Response(Location("London", "United Kingdom"), current, forecast))
    ensures Run(["Londin"], apiKey, fetch) == Output([MismatchMessage("Londin", "London")], 9)
  {
    CityOnly("Londin");
    assert Mismatch("Londin", "London") by {
      assert ToLower("Londin")[4] == LowerChar('i') == 'i';
      assert ToLower("London")[4] == LowerChar('o') == 'o';
    }
  }

  /** A 401 answer prints the error line and the two credential hints, and no weather. */
  lemma UnauthorizedScenario(argv: seq<string>, apiKey: string, fetch: string -> Fetched, message: string, statusText: string)
    requires fetch(UrlFor(argv, apiKey)) == HttpErr(401, message, statusText)
    ensures Run(argv, apiKey, fetch) == Output([message + ": " + statusText, KeyHint, SignupHint], 0)
  {
  }
}
