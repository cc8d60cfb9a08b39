/** The request builder: the provider URL for a normalised query. */
module Request {
  import opened Options
  import opened JsText
  import opened Args

  /** A template literal renders an absent value as the text "undefined". */
  function Text(v: Option<string>): string
  {
    match v
    case Some(s) => s
    case None => "undefined"
  }

  /**
   * One day asks the `current` endpoint with no day parameter; more days
   * ask the `forecast` endpoint with `&days=N` appended.
   */
  function RequestUrl(apiKey: string, q: Query): (url: string)
    ensures |url| > 29 && url[..29] == "http://api.weatherapi.com/v1/"
    ensures q.days == 1 ==> var tail := "&q=" + Text(q.city); |url| >= |tail| && url[|url| - |tail|..] == tail
    ensures q.days != 1 ==> var tail := "&days=" + NumberText(q.days); |url| >= |tail| && url[|url| - |tail|..] == tail
  {
    var (range, forecast) := if q.days == 1 then ("current", "") else ("forecast", "&days=" + NumberText(q.days));
    "http://api.weatherapi.com/v1/" + range + ".json?key=" + apiKey + "&q=" + Text(q.city) + forecast
  }

  /** A one-day query: the current-conditions endpoint, then the key and the city, and no day parameter. */
  lemma SingleDayUrl(apiKey: string, q: Query)
    requires q.days == 1
    ensures RequestUrl(apiKey, q) == "http://api.weatherapi.com/v1/" + "current" + ".json?key=" + apiKey + "&q=" + Text(q.city)
  {
  }

  /**
   * A query for more days: the forecast endpoint, then the key and the
   * city, then `&days=` and the decimal form of the day count, which reads
   * back as the day count.
   */
  lemma ForecastUrl(apiKey: string, q: Query)
    requires q.days > 1
    ensures var digits := Decimal(q.days);
      && RequestUrl(apiKey, q)
         == "http://api.weatherapi.com/v1/" + "forecast" + ".json?key=" + apiKey + "&q=" + Text(q.city) + "&days=" + digits
      && ParseInt(digits) == Some(q.days)
  {
    ParseDecimal(q.days);
  }

  /** For a normalised query of 2 to 5 days, the URL ends in `&days=` and the single digit of the day count. */
  lemma ForecastUrlDigit(apiKey: string, q: Query)
    requires 2 <= q.days <= 5
    ensures var url := RequestUrl(apiKey, q);
      && |url| > 7
      && url[|url| - 7..|url| - 1] == "&days="
      && url[|url| - 1] as int - '0' as int == q.days
  {
    var url := RequestUrl(apiKey, q);
    var head := "http://api.weatherapi.com/v1/" + "forecast" + ".json?key=" + apiKey + "&q=" + Text(q.city);
    var tail := "&days=" + Decimal(q.days);
    assert |Decimal(q.days)| == 1;
    assert url == head + tail;
    assert url[|url| - 7..] == tail;
  }

  /** The endpoint is `current` exactly when one day is asked for. */
  lemma EndpointChoice(apiKey: string, q: Query)
    ensures var url := RequestUrl(apiKey, q);
      && |url| > 36
      && (url[29..36] == "current" <==> q.days == 1)
      && (url[29..37] == "forecast" <==> q.days != 1)
  {
    var url := RequestUrl(apiKey, q);
    if q.days == 1 {
      CurrentSegment(apiKey, q);
      assert url[29..37][0] == 'c';
    } else {
      ForecastSegment(apiKey, q);
      assert url[29..36][0] == 'f';
    }
  }

  /** A one-day URL names the `current` endpoint right after the fixed prefix. */
  lemma CurrentSegment(apiKey: string, q: Query)
    requires q.days == 1
    ensures var url := RequestUrl(apiKey, q); |url| > 37 && url[29..36] == "current" && url[29] == 'c'
  {
    var key := ".json?key=" + apiKey + "&q=" + Text(q.city);
    SegmentAt("http://api.weatherapi.com/v1/", "current", key);
  }

  /** A URL for more days names the `forecast` endpoint right after the fixed prefix. */
  lemma ForecastSegment(apiKey: string, q: Query)
    requires q.days != 1
    ensures var url := RequestUrl(apiKey, q); |url| > 37 && url[29..37] == "forecast" && url[29] == 'f'
  {
    var rest := ".json?key=" + apiKey + "&q=" + Text(q.city) + "&days=" + NumberText(q.days);
    SegmentAt("http://api.weatherapi.com/v1/", "forecast", rest);
  }

  /** The middle piece of a three-piece concatenation sits right after the first piece. */
  lemma SegmentAt(prefix: string, range: string, rest: string)
    ensures var s := prefix + range + rest;
      && s[|prefix|..|prefix| + |range|] == range
      && s[|prefix| + |range|..] == rest
  {
  }
}
