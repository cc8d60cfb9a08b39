/**
 * The argument normaliser at the top of the script: the positional
 * tokens after `node` and the script name become the query
 * (city, number of days, Fahrenheit or not).
 */
module Args {
  import opened Options
  import opened JsText

  /** The normalised query. `city` is `None` when no city token was given (JavaScript `undefined`). */
  datatype Query = Query(city: Option<string>, days: int, useF: bool)

  /** The first positional token, if any. */
  function CityArg(argv: seq<string>): Option<string>
  {
    if |argv| > 0 then Some(argv[0]) else None
  }

  /**
   * The two optional tokens are swapped exactly when the third token is
   * numeric. Without a third token the scale defaults to "C", which is not
   * numeric, so the defaults never swap; a third token of digits always does.
   */
  function Swapped(argv: seq<string>): (swap: bool)
    ensures |argv| < 3 ==> !swap
    ensures |argv| > 2 && argv[2] != [] && AllDigits(argv[2]) ==> swap
  {
    |argv| > 2 && IsNumeric(argv[2])
  }

  /**
   * The token read as the day count. An absent second token defaults to
   * the number 1, written here as the token "1", which `parseInt` reads
   * as the same value.
   */
  function DaysToken(argv: seq<string>): (token: string)
    ensures |argv| < 2 ==> ParseInt(token) == Some(1)
    ensures |argv| == 2 ==> token == argv[1]
  {
    assert Decimal(1) == "1";
    ParseDecimal(1);
    if Swapped(argv) then argv[2] else if |argv| > 1 then argv[1] else "1"
  }

  /** The token read as the temperature scale; "C" when absent. */
  function ScaleToken(argv: seq<string>): (token: string)
    ensures |argv| < 3 ==> token == "C"
    ensures |argv| > 2 ==> multiset{DaysToken(argv), token} == multiset{argv[1], argv[2]}
  {
    if Swapped(argv) then argv[1] else if |argv| > 2 then argv[2] else "C"
  }

  /**
   * `Math.max(1, Math.min(parseInt(token, 10) || 1, 5))`: a token that does
   * not parse, or parses to 0, counts as 1; the result is clamped to [1,5].
   */
  function DayCount(token: string): (d: int)
    ensures 1 <= d <= 5
    ensures ParseInt(token).None? ==> d == 1
    ensures ParseInt(token).Some? && ParseInt(token).value < 1 ==> d == 1
    ensures ParseInt(token).Some? && ParseInt(token).value > 5 ==> d == 5
    ensures ParseInt(token).Some? && 1 <= ParseInt(token).value <= 5 ==> d == ParseInt(token).value
  {
    var n := match ParseInt(token)
      case None => 1
      case Some(v) => if v == 0 then 1 else v;
    if n < 1 then 1 else if n > 5 then 5 else n
  }

  /** The query the script derives from its positional tokens. */
  function Normalize(argv: seq<string>): (q: Query)
    ensures 1 <= q.days <= 5
    ensures q.useF <==> ScaleToken(argv) == "f" || ScaleToken(argv) == "F"
    ensures q.city.Some? <==> |argv| > 0
  {
    UpperIsF(ScaleToken(argv));
    Query(CityArg(argv), DayCount(DaysToken(argv)), ToUpper(ScaleToken(argv)) == "F")
  }

  /**
   * The script's own steps: destructure with defaults, swap the two
   * optional tokens when the third is numeric, then overwrite the day
   * count with its clamped value and test the scale.
   */
  method ParseArgs(argv: seq<string>) returns (q: Query)
    ensures q == Normalize(argv)
  {
    var city := CityArg(argv);
    var days := if |argv| > 1 then argv[1] else "1";
    var scale := if |argv| > 2 then argv[2] else "C";
    if IsNumeric(scale) {
      days, scale := scale, days;
    }
    assert days == DaysToken(argv);
    assert scale == ScaleToken(argv);
    q := Query(city, DayCount(days), ToUpper(scale) == "F");
  }

  // ---------------------------------------------------------------- properties

  /** With only a city, the query asks for one day in Celsius. */
  lemma CityOnly(city: string)
    ensures Normalize([city]) == Query(Some(city), 1, false)
  {
    assert ParseInt("1") == Some(1) by { ParseDecimal(1); }
  }

  /**
   * With one optional token, that token is always read as the day count
   * and the scale stays Celsius: "city F" asks for 1 day in Celsius.
   */
  lemma OneOptionalToken(city: string, token: string)
    ensures Normalize([city, token]) == Query(Some(city), DayCount(token), false)
    ensures Normalize([city, "F"]) == Query(Some(city), 1, false)
  {
    assert ParseInt("F") == None by {
      assert TrimStart("F") == "F";
      assert Unsigned("F") == "F";
    }
  }

  /** The two optional tokens may be given in either order when the day token is numeric and the scale token is not. */
  lemma OrderIrrelevant(city: string, daysToken: string, scaleToken: string)
    requires IsNumeric(daysToken) && !IsNumeric(scaleToken)
    ensures Normalize([city, daysToken, scaleToken]) == Normalize([city, scaleToken, daysToken])
    ensures Normalize([city, scaleToken, daysToken]).days == DayCount(daysToken)
    ensures Normalize([city, scaleToken, daysToken]).useF <==> scaleToken == "f" || scaleToken == "F"
  {
  }

  /** "city F 3" and "city 3 F" give the same query: 3 days in Fahrenheit. */
  lemma OrderIrrelevantForNumerals(city: string, n: nat, scaleToken: string)
    requires !IsNumeric(scaleToken)
    ensures Normalize([city, Decimal(n), scaleToken]) == Normalize([city, scaleToken, Decimal(n)])
    ensures Normalize([city, scaleToken, Decimal(n)]).days == (if n < 1 then 1 else if n > 5 then 5 else n)
  {
    DecimalIsNumeric(n);
    OrderIrrelevant(city, Decimal(n), scaleToken);
    ParseDecimal(n);
  }

  /**
   * A day token that starts with a natural number (after white space and an
   * optional "+") gives that number clamped to [1,5], with 0 giving 1; text
   * after the digits is ignored, so "2.5" gives 2 and "3days" gives 3.
   */
  lemma DayCountOfNumeral(ws: string, sign: string, n: nat, rest: string)
    requires AllSpace(ws) && (sign == "" || sign == "+")
    requires rest == [] || !IsDigit(rest[0])
    ensures DayCount(ws + sign + Decimal(n) + rest) == (if n == 0 then 1 else if n > 5 then 5 else n)
  {
    ParseLeading(ws, sign, n, rest);
  }

  /** A negative day token gives 1 day, whatever follows its digits. */
  lemma DayCountOfNegative(ws: string, n: nat, rest: string)
    requires AllSpace(ws)
    requires rest == [] || !IsDigit(rest[0])
    ensures DayCount(ws + "-" + Decimal(n) + rest) == 1
  {
    ParseLeading(ws, "-", n, rest);
  }

  /** Tokens after the third are ignored. */
  lemma ExtraTokensIgnored(argv: seq<string>)
    requires |argv| > 3
    ensures Normalize(argv) == Normalize(argv[..3])
  {
  }
}
