# Weather CLI model

A Dafny model of `index.js`, a command-line script that prints the weather
for a city. The script runs as follows:

- It reads up to three positional tokens (`city [days|scale] [scale|days]`).
- It builds one weatherapi.com URL and makes one HTTP GET.
- On success it checks that the provider's resolved city name matches the
  requested one, ignoring case. On a mismatch it prints one message and
  exits with status 9.
- On a match it prints a header and then either a one-day report or a
  forecast report.
- On any failure, including an error thrown while rendering, it prints a
  diagnostic. A 400 or 401 answer also gets troubleshooting hints.

Each part is a module:

- `JsText`: the JavaScript built-ins the script relies on. These are
  `toLowerCase`/`toUpperCase`, `parseInt(s, 10)`, the numeric test behind
  `isNaN`, and the decimal text of a number.
- `Args`: the argument normaliser, as a declarative function `Normalize`
  and as the script's own step-by-step method `ParseArgs`. The method
  destructures with defaults, swaps the tokens and overwrites the day count.
- `Request`: the URL builder.
- `Report`: `displayWeather` and the functions it calls.
- `ErrorReport`: `showError`.
- `WeatherCli`: the whole run. This is the promise chain
  `axios.get(url).then(displayWeather).catch(showError)`.

Console output is a `seq<string>`. Each element is the text of one
`console.log` call: its arguments joined by one space, without the final
newline. Colour and style wrappers are the identity. `colors` also joins
several arguments with one space.

`.catch(showError)` handles every rejection. A failed request therefore
ends the process with status 0, and so does an error thrown by
`displayWeather`. Only the mismatch `process.exit(9)` gives a non-zero
status.

## Model

| member | source | states |
|---|---|---|
| `JsText.UpperIsF` | index.js:26 | only the tokens "f" and "F" upper-case to "F" |
| `JsText.ParseDecimal` | index.js:25 | `parseInt` reads the decimal text of a natural number back as that number |
| `JsText.ParseNegativeDecimal` | index.js:25 | `parseInt` reads "-" followed by the decimal text of n back as -n |
| `JsText.ParseInt` | index.js:25 | empty text gives no number; an all-digit token reads as its decimal value; "-" followed by digits reads as the negated value; a token whose first character is neither a digit, white space nor a sign gives no number |
| `JsText.ParseSigned` | index.js:25 | leading white space, then an optional "+" or "-", then a run of digits, then anything not starting with a digit, reads as the digits' value, negated after "-" |
| `JsText.ParseLeading` | index.js:25 | the same for the decimal text of any natural number n: it reads back as n or -n whatever follows it, so "2.5" gives 2, "3days" gives 3 and " +4" gives 4 |
| `JsText.IsNumeric` | index.js:19 | empty text and any all-digit token pass the `!isNaN` test; a single character that is neither a digit nor white space fails it |
| `JsText.DecimalIsNumeric` | index.js:19 | the decimal text of a natural number passes the `!isNaN` test |
| `Args.Swapped` | index.js:19-20 | with fewer than two optional tokens nothing is swapped; an all-digit third token always triggers the swap |
| `Args.DaysToken` | index.js:16-21 | with no optional token the day token reads as 1; with exactly one optional token it is that token |
| `Args.ScaleToken` | index.js:16-21 | with fewer than two optional tokens the scale is "C"; with two, the day and scale tokens are the two given tokens, in one order or the other |
| `Args.DayCount` | index.js:25 | the day count is always in [1,5]; a token that does not parse gives 1; a value below 1 (0 included) gives 1; a value above 5 gives 5; a value in [1,5] is kept |
| `Args.Normalize` | index.js:16-26 | the normalised days are in [1,5]; `useF` holds exactly when the scale token is "f" or "F"; the city is present exactly when a first token was given |
| `Args.ParseArgs` | index.js:16-26 | the step-by-step destructure, swap and overwrite yields exactly the declarative `Normalize` query |
| `Args.CityOnly` | index.js:16 | a city alone gives 1 day in Celsius |
| `Args.OneOptionalToken` | index.js:16-26 | with one optional token, that token is the day count and the scale is Celsius, so "city F" gives 1 day in Celsius |
| `Args.OrderIrrelevant` | index.js:18-21 | a numeric day token and a non-numeric scale token give the same query in either order: the day count from the day token and Fahrenheit iff the scale token is f/F |
| `Args.OrderIrrelevantForNumerals` | index.js:18-25 | "city N S" and "city S N" agree for every natural N and non-numeric S, with N clamped to [1,5] |
| `Args.DayCountOfNumeral` | index.js:25 | a day token made of white space, an optional "+", the digits of a natural number n and any text not starting with a digit gives 1 when n is 0, 5 when n > 5, and n otherwise |
| `Args.DayCountOfNegative` | index.js:25 | a day token made of white space, "-", digits and any text not starting with a digit gives 1 day |
| `Args.ExtraTokensIgnored` | index.js:16 | tokens after the third do not change the query |
| `Request.RequestUrl` | index.js:30-32 | every URL starts with the provider's fixed prefix; a one-day URL ends with `&q=` and the city; any other ends with `&days=` and the decimal day count |
| `Request.SingleDayUrl` | index.js:30-32 | a one-day query gives the fixed prefix, `current.json?key=`, the key, `&q=` and the city, with no day parameter |
| `Request.ForecastUrl` | index.js:30-32 | a query for more days gives the fixed prefix, `forecast.json?key=`, the key, `&q=`, the city, and `&days=` followed by the decimal day count, which `parseInt` reads back as the day count |
| `Request.ForecastUrlDigit` | index.js:31-32 | for 2 to 5 days the URL ends in `&days=` and one digit equal to the day count |
| `Request.CurrentSegment` | index.js:31-32 | a one-day URL has `current` right after the fixed prefix |
| `Request.ForecastSegment` | index.js:31-32 | a URL for more days has `forecast` right after the fixed prefix |
| `Request.EndpointChoice` | index.js:30-31 | the endpoint segment is `current` exactly when days is 1 and `forecast` exactly when it is not |
| `Report.Header` | index.js:98-104 | the header carries the title "WEATHER PROGRAM" between its two boxes |
| `Report.MismatchMessage` | index.js:75-78 | the message quotes the requested city and ends by suggesting the resolved name and asking to check the spelling |
| `Report.Mismatch` | index.js:74 | identical names never mismatch; names of different lengths always do |
| `Report.DayBlock` | index.js:132-147 | four lines per day: the first is "Day: " and the date; the second ends in the chosen scale's suffix; the third gives the conditions after its label; the fourth gives the sunrise time after its label and ends with the sunset time and " \n" |
| `Report.ForecastReport` | index.js:111-129 | two lines and then four per entry; the first line ends in the current temperature; the lines after the banner are the day blocks in order |
| `Report.TodaysReport` | index.js:149-160 | two lines: the first gives the temperature and ends in "name, country"; the second gives the conditions after the label and an opening quote |
| `Report.Temperature` | index.js:85 | the temperature text ends in "°F" iff Fahrenheit is chosen and in "°C" iff not; what precedes the suffix is the Fahrenheit field or the Celsius field accordingly |
| `Report.CountWord` | index.js:113 | 2, 3, 4 and 5 give TWO, THREE, FOUR and FIVE; any other count gives "undefined" |
| `Report.CountWordNamesCount` | index.js:113 | the word is "undefined" exactly outside 2..5, and different counts in 2..5 get different words |
| `Report.DayBlocks` | index.js:129 | four lines per forecast entry; block i is entry i's block, in the provider's order |
| `Report.DayBlockAt` | index.js:132-147 | block i is entry i's date, its average temperature in the chosen scale, its conditions, then its sunrise and sunset times |
| `Report.Display` | index.js:69-93 | throws exactly when no city was given; exits exactly on a case-insensitive mismatch, with status 9 and only the mismatch message; otherwise the header and then the forecast report (3 + 4 per entry lines) when a forecast is present, or the one-day report (3 lines) when it is not |
| `Report.MatchIgnoresCase` | index.js:74 | a city matches a resolved name exactly when both have the same length and agree letter by letter after lower-casing; so a city matches its upper- and lower-cased forms |
| `Report.ForecastDisplayed` | index.js:82-88 | a finished display with a forecast is the header and then the forecast report for the current temperature in the chosen scale |
| `Report.ForecastShape` | index.js:111-147 | the forecast report gives the current temperature in the chosen scale, then a banner naming the upper-cased city and country, with the count word taken from the number of entries returned; then for each entry, in order, its date, its average temperature in the chosen scale, its conditions, and its sunrise and sunset times |
| `Report.TodayShape` | index.js:149-160 | the one-day report gives the current temperature in the chosen scale with city and country, then the quoted conditions |
| `ErrorReport.Hints` | index.js:49-59 | status 400 gives the minimum-length hint, 401 the two API-key hints, and any other status none |
| `ErrorReport.ShowError` | index.js:42-64 | an HTTP error prints "message: statusText" and then its hints; any other error prints one "Error:" line and no hints |
| `ErrorReport.HintsOnlyFor400And401` | index.js:43-63 | more than one line is printed exactly for an HTTP error with status 400 or 401; a 401 prints both API-key hints and a 400 the length hint |
| `WeatherCli.Run` | index.js:35 | exit status 9 exactly when the request succeeded, a city was given and it does not match the resolved name; any other run exits 0; an HTTP error or fault prints what `showError` prints; a success without a city prints the thrown TypeError; a success with a city prints exactly what `displayWeather` prints for the normalised query and the answer |
| `WeatherCli.ParisScenario` | index.js:30-92 | "Paris" requests the current-conditions URL, then prints the header and a one-day report with a "°C" temperature, and exits 0 |
| `WeatherCli.TokyoQuery` | index.js:16-26 | "Tokyo 3 F" and "Tokyo F 3" both normalise to Tokyo, 3 days, Fahrenheit |
| `WeatherCli.TokyoRequest` | index.js:30-32 | both orders request the forecast URL ending in `&days=3` |
| `WeatherCli.TokyoReport` | index.js:111-147 | a three-entry answer prints 15 lines, the banner "... TOKYO, JAPAN FOR THE NEXT THREE DAYS *", and three day blocks in order with "°F" averages |
| `WeatherCli.TokyoScenario` | index.js:35 | the run for those tokens prints exactly that report and exits 0 |
| `WeatherCli.LondinScenario` | index.js:74-80 | "Londin" resolved as "London" prints only the mismatch message and exits 9 |
| `WeatherCli.UnauthorizedScenario` | index.js:42-58 | a 401 answer prints the error line and the two API-key hints, and exits 0 |

## Left out

- The network request (`axios.get`, index.js:35) is not modelled. The
  provider's answer to each URL is the `fetch` parameter of `WeatherCli.Run`.
- Loading the API key (`dotenv`, `process.env`, index.js:6-7) is not
  modelled. The key is a string parameter. A missing key renders as
  "undefined" in the URL, so a caller passes that text.
- Terminal styling (`colors`) is read as the identity function. It has no
  meaning beyond presentation.
- Temperatures are the text JavaScript gives the provider's numbers. The
  model never does arithmetic on them.
- `JsText.IsNumeric` covers only part of `Number()`. It accepts blank text
  and decimal forms (sign, digits, at most one point). It does not cover
  exponents, `0x`/`0o`/`0b` prefixes or "Infinity". Both it and `ParseInt`
  skip only ASCII white space, no-break space and the byte-order mark, not
  every Unicode space.
- Case mapping is ASCII only. JavaScript's `toLowerCase`/`toUpperCase` use
  full Unicode case mapping.
- `Args.DaysToken` represents the script's numeric default `days = 1` by the
  token "1". `parseInt` reads both as 1, and the swap can never move that
  default, because a third token implies a second.
- `process.exit` and `console.log` are returned values (`Report.Outcome`,
  `WeatherCli.Output`), not effects.
- The printed form of a thrown error (`util.inspect`, with its stack trace)
  is an opaque description string. For a missing city only the error's first
  line is modelled.
- A malformed provider payload (a missing field that makes `displayWeather`
  throw) is not modelled. A missing city token is the one thrown error
  that is modelled.
