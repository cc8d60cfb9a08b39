/**
 * The presenter and the city check run on a successful response
 * (`displayWeather` and the functions it calls). Each console.log call
 * becomes one string of the returned lines: its arguments joined by one
 * space, with every colour or style wrapper read as the identity.
 */
module Report {
  import opened Options
  import opened JsText
  import opened Args

  datatype Location = Location(name: string, country: string)

  /** Provider temperatures are kept as the text JavaScript gives the numbers. */
  datatype Current = Current(tempC: string, tempF: string, condition: string)

  datatype ForecastDay = ForecastDay(
    date: string, avgTempC: string, avgTempF: string, condition: string, sunrise: string, sunset: string)

  /** The provider's payload; `forecast` is present only for a multi-day request. */
  datatype Response = Response(location: Location, current: Current, forecast: Option<seq<ForecastDay>>)

  /**
   * How `displayWeather` ends: it returns after printing `lines`, it calls
   * `process.exit(code)` after printing `lines`, or it throws `error`
   * (which the promise chain hands to `showError`).
   */
  datatype Outcome = Finished(lines: seq<string>) | Exited(lines: seq<string>, code: int) | Threw(error: string)

  /** The exit status for a city the provider resolved to another name. */
  const InvalidArgument := 9

  /** What `city.toLowerCase()` throws when no city token was given (first line of the report). */
  const MissingCityError := "TypeError: Cannot read properties of undefined (reading 'toLowerCase')"

  /** `showHeader`: the title framed by two inverse-video boxes of stars. */
  function Header(): (h: string)
    ensures |h| > 44 && h[29..44] == "WEATHER PROGRAM"
  {
    "\n ********************* \n * " + " " + "WEATHER PROGRAM" + " " + " * \n ********************* "
  }

  /** The mismatch message names the requested city in quotes and suggests the resolved name. */
  function MismatchMessage(city: string, name: string): (m: string)
    ensures |m| > 29 + |city| && m[29..29 + |city|] == city && m[29 + |city|] == '"'
    ensures var tail := name + "? Please check your spelling."; |m| >= |tail| && m[|m| - |tail|..] == tail
  {
    "Error: " + " " + "No weather data for \"" + city + "\" found. Perhaps you meant " + name + "? Please check your spelling."
  }

  /** The degree suffix for the chosen scale. */
  function Suffix(useF: bool): string { if useF then "°F" else "°C" }

  /** The temperature text for the chosen scale: the Fahrenheit field and "°F", or the Celsius field and "°C". */
  function Temperature(celsius: string, fahrenheit: string, useF: bool): (t: string)
    ensures |t| >= 2
    ensures t[|t| - 2..] == "°F" <==> useF
    ensures t[|t| - 2..] == "°C" <==> !useF
    ensures t[..|t| - 2] == if useF then fahrenheit else celsius
  {
    if useF then fahrenheit + "°F" else celsius + "°C"
  }

  /**
   * The word for a number of forecast days, looked up in the array
   * `[, , "TWO", "THREE", "FOUR", "FIVE"]`; an index with no entry gives
   * `undefined`, which the template literal prints as "undefined".
   */
  function CountWord(n: int): (w: string)
    ensures 2 <= n <= 5 ==> w == ["TWO", "THREE", "FOUR", "FIVE"][n - 2]
    ensures !(2 <= n <= 5) ==> w == "undefined"
  {
    if n == 2 then "TWO"
    else if n == 3 then "THREE"
    else if n == 4 then "FOUR"
    else if n == 5 then "FIVE"
    else "undefined"
  }

  /** The four lines printed for one forecast day. */
  function DayBlock(day: ForecastDay, useF: bool): (block: seq<string>)
    ensures |block| == 4
    ensures |block[0]| == 5 + |day.date| && block[0][5..] == day.date
    ensures |block[1]| >= 2 && block[1][|block[1]| - 2..] == Suffix(useF)
    ensures |block[2]| == 20 + |day.condition| && block[2][20..] == day.condition
    ensures |block[3]| >= 9 + |day.sunrise| && block[3][9..9 + |day.sunrise|] == day.sunrise
    ensures var tail := day.sunset + " \n"; |block[3]| >= |tail| && block[3][|block[3]| - |tail|..] == tail
  {
    [ "Day: " + day.date,
      "Average Temperature: " + Temperature(day.avgTempC, day.avgTempF, useF),
      "Weather Conditions: " + day.condition,
      "Sunrise: " + day.sunrise + " " + "\n" + " " + "Sunset: " + day.sunset + " " + "\n" ]
  }

  /** `forecastday.map(showForecastForADay)`: one block per day, in the provider's order. */
  function DayBlocks(days: seq<ForecastDay>, useF: bool): (lines: seq<string>)
    ensures |lines| == 4 * |days|
    ensures forall i :: 0 <= i < |days| ==> lines[4 * i..4 * i + 4] == DayBlock(days[i], useF)
  {
    if days == [] then []
    else
      var rest := DayBlocks(days[1..], useF);
      var lines := DayBlock(days[0], useF) + rest;
      assert forall i :: 1 <= i < |days| ==> lines[4 * i..4 * i + 4] == rest[4 * (i - 1)..4 * (i - 1) + 4];
      lines
  }

  /** `showForecast`: the current temperature, a banner, then the day blocks. */
  function ForecastReport(name: string, country: string, temp: string, days: seq<ForecastDay>, useF: bool): (lines: seq<string>)
    ensures |lines| == 2 + 4 * |days|
    ensures |lines[0]| >= |temp| && lines[0][|lines[0]| - |temp|..] == temp
    ensures lines[2..] == DayBlocks(days, useF)
  {
    [ "\nIn " + name + " the current temperature is: " + temp,
      "\n* THE WEATHER FORECAST FOR " + ToUpper(name) + ", " + ToUpper(country)
        + " FOR THE NEXT " + CountWord(|days|) + " DAYS *\n" ]
    + DayBlocks(days, useF)
  }

  /** `showTodaysWeather`: the current temperature and place, then the quoted conditions. */
  function TodaysReport(name: string, country: string, temp: string, conditions: string): (lines: seq<string>)
    ensures |lines| == 2
    ensures |lines[0]| >= 11 + |temp| && lines[0][11..11 + |temp|] == temp
    ensures var place := name + ", " + country; |lines[0]| >= |place| && lines[0][|lines[0]| - |place|..] == place
    ensures |lines[1]| >= 38 + |conditions| && lines[1][38..38 + |conditions|] == conditions
  {
    [ "\nIt is now " + temp + " in " + name + ", " + country,
      "The current weather conditions are : " + "\"" + conditions + "\"\n" ]
  }

  /** Whether the requested city and the resolved name differ after lower-casing. */
  function Mismatch(city: string, name: string): (differ: bool)
    ensures city == name ==> !differ
    ensures |city| != |name| ==> differ
  {
    ToLower(city) != ToLower(name)
  }

  /**
   * `displayWeather`: check the resolved name against the requested city,
   * then print the header and exactly one report.
   */
  function Display(q: Query, resp: Response): (o: Outcome)
    ensures o.Threw? <==> q.city.None?
    ensures o.Exited? <==> q.city.Some? && Mismatch(q.city.value, resp.location.name)
    ensures o.Exited? ==> o.code == InvalidArgument && o.lines == [MismatchMessage(q.city.value, resp.location.name)]
    ensures o.Finished? ==> |o.lines| >= 3 && o.lines[0] == Header()
    ensures o.Finished? && resp.forecast.Some? ==> |o.lines| == 3 + 4 * |resp.forecast.value|
    ensures o.Finished? && resp.forecast.None? ==> |o.lines| == 3
  {
    match q.city
    case None => Threw(MissingCityError)
    case Some(city) =>
      var name := resp.location.name;
      if Mismatch(city, name) then
        Exited([MismatchMessage(city, name)], InvalidArgument)
      else
        var temp := Temperature(resp.current.tempC, resp.current.tempF, q.useF);
        match resp.forecast
        case Some(days) => Finished([Header()] + ForecastReport(name, resp.location.country, temp, days, q.useF))
        case None => Finished([Header()] + TodaysReport(name, resp.location.country, temp, resp.current.condition))
  }

  // ---------------------------------------------------------------- properties

  /** The count word names the count: it is "undefined" exactly outside 2..5, and distinct counts get distinct words. */
  lemma CountWordNamesCount(m: int, n: int)
    ensures CountWord(n) != "undefined" <==> 2 <= n <= 5
    ensures 2 <= m <= 5 && CountWord(m) == CountWord(n) ==> m == n
  {
  }

  /**
   * A city matches a resolved name exactly when the two have the same
   * length and agree letter by letter once lower-cased; in particular a
   * city matches its upper- and lower-cased forms.
   */
  lemma MatchIgnoresCase(city: string, name: string)
    ensures !Mismatch(city, name) <==>
      |city| == |name| && forall i :: 0 <= i < |city| ==> LowerChar(city[i]) == LowerChar(name[i])
    ensures !Mismatch(city, ToUpper(city)) && !Mismatch(ToLower(city), city)
  {
    if |city| == |name| && forall i :: 0 <= i < |city| ==> LowerChar(city[i]) == LowerChar(name[i]) {
      assert ToLower(city) == ToLower(name);
    }
    if !Mismatch(city, name) {
      forall i | 0 <= i < |city| ensures LowerChar(city[i]) == LowerChar(name[i]) {
        assert ToLower(city)[i] == ToLower(name)[i];
      }
    }
    assert ToLower(ToUpper(city)) == ToLower(city);
    assert ToLower(ToLower(city)) == ToLower(city);
  }

  /**
   * A forecast report: the current temperature in the chosen scale, a
   * banner whose count word comes from the number of entries returned
   * (not from the days asked for), then one block per entry in order,
   * each with its date, its average temperature in the chosen scale, its
   * conditions, and its sunrise and sunset times.
   */
  lemma ForecastShape(q: Query, resp: Response)
    requires Display(q, resp).Finished? && resp.forecast.Some?
    ensures var lines := Display(q, resp).lines;
      var days := resp.forecast.value;
      var loc := resp.location;
      && lines[1] == "\nIn " + loc.name + " the current temperature is: "
                     + Temperature(resp.current.tempC, resp.current.tempF, q.useF)
      && lines[2] == "\n* THE WEATHER FORECAST FOR " + ToUpper(loc.name) + ", " + ToUpper(loc.country)
                     + " FOR THE NEXT " + CountWord(|days|) + " DAYS *\n"
      && (forall i :: 0 <= i < |days| ==>
            && lines[3 + 4 * i] == "Day: " + days[i].date
            && lines[4 + 4 * i] == "Average Temperature: " + Temperature(days[i].avgTempC, days[i].avgTempF, q.useF)
            && lines[5 + 4 * i] == "Weather Conditions: " + days[i].condition
            && lines[6 + 4 * i] == "Sunrise: " + days[i].sunrise + " " + "\n" + " " + "Sunset: " + days[i].sunset + " " + "\n")
  {
    var lines := Display(q, resp).lines;
    var days := resp.forecast.value;
    var blocks := DayBlocks(days, q.useF);
    var temp := Temperature(resp.current.tempC, resp.current.tempF, q.useF);
    var report := ForecastReport(resp.location.name, resp.location.country, temp, days, q.useF);
    ForecastDisplayed(q, resp);
    assert lines[1..] == report;
    assert lines[3..] == blocks;
    forall i | 0 <= i < |days|
      ensures lines[3 + 4 * i] == "Day: " + days[i].date
      ensures lines[4 + 4 * i] == "Average Temperature: " + Temperature(days[i].avgTempC, days[i].avgTempF, q.useF)
      ensures lines[5 + 4 * i] == "Weather Conditions: " + days[i].condition
      ensures lines[6 + 4 * i] == "Sunrise: " + days[i].sunrise + " " + "\n" + " " + "Sunset: " + days[i].sunset + " " + "\n"
    {
      DayBlockAt(days, q.useF, i);
      assert lines[3 + 4 * i] == blocks[4 * i];
      assert lines[4 + 4 * i] == blocks[4 * i + 1];
      assert lines[5 + 4 * i] == blocks[4 * i + 2];
      assert lines[6 + 4 * i] == blocks[4 * i + 3];
    }
  }

  /** A finished display with a forecast is the header followed by the forecast report. */
  lemma ForecastDisplayed(q: Query, resp: Response)
    requires Display(q, resp).Finished? && resp.forecast.Some?
    ensures var temp := Temperature(resp.current.tempC, resp.current.tempF, q.useF);
      Display(q, resp).lines
        == [Header()] + ForecastReport(resp.location.name, resp.location.country, temp, resp.forecast.value, q.useF)
  {
  }

  /**
   * Block `i` is entry `i`'s: its date, its average temperature in the
   * chosen scale, its conditions, then its sunrise and sunset times.
   */
  lemma DayBlockAt(days: seq<ForecastDay>, useF: bool, i: nat)
    requires i < |days|
    ensures var blocks := DayBlocks(days, useF);
      && blocks[4 * i] == "Day: " + days[i].date
      && blocks[4 * i + 1] == "Average Temperature: " + Temperature(days[i].avgTempC, days[i].avgTempF, useF)
      && blocks[4 * i + 2] == "Weather Conditions: " + days[i].condition
      && blocks[4 * i + 3] == "Sunrise: " + days[i].sunrise + " " + "\n" + " " + "Sunset: " + days[i].sunset + " " + "\n"
  {
    var blocks := DayBlocks(days, useF);
    var block := DayBlock(days[i], useF);
    assert blocks[4 * i..4 * i + 4] == block;
    assert blocks[4 * i] == block[0] && blocks[4 * i + 1] == block[1];
    assert blocks[4 * i + 2] == block[2] && blocks[4 * i + 3] == block[3];
  }

  /** A one-day report: the current temperature in the chosen scale with the place, then the conditions. */
  lemma TodayShape(q: Query, resp: Response)
    requires Display(q, resp).Finished? && resp.forecast.None?
    ensures var lines := Display(q, resp).lines;
      var loc := resp.location;
      && lines[1] == "\nIt is now " + Temperature(resp.current.tempC, resp.current.tempF, q.useF)
                     + " in " + loc.name + ", " + loc.country
      && lines[2] == "The current weather conditions are : \"" + resp.current.condition + "\"\n"
  {
  }
}
