/**
 * The JavaScript built-ins the weather script leans on, over `string`:
 * case mapping (`toLowerCase`, `toUpperCase`), `parseInt(s, 10)`,
 * the numeric test behind `isNaN(s)`, and the decimal text of an integer
 * as a template literal renders it.
 */
module JsText {
  import opened Options

  predicate IsDigit(c: char) { '0' <= c <= '9' }

  predicate AllDigits(s: string) { forall i :: 0 <= i < |s| ==> IsDigit(s[i]) }

  /** White space that `parseInt` and `Number` skip (the ASCII ones, no-break space and the byte-order mark). */
  predicate IsSpace(c: char) {
    c == ' ' || c == '\t' || c == '\n' || c == '\r' || c == '\U{0B}' || c == '\U{0C}'
    || c == '\U{A0}' || c == '\U{FEFF}'
  }

  predicate AllSpace(s: string) { forall i :: 0 <= i < |s| ==> IsSpace(s[i]) }

  // ---------------------------------------------------------------- case mapping

  function LowerChar(c: char): char { if 'A' <= c <= 'Z' then (c as int + 32) as char else c }

  function UpperChar(c: char): char { if 'a' <= c <= 'z' then (c as int - 32) as char else c }

  /** `s.toLowerCase()` */
  function ToLower(s: string): string { seq(|s|, i requires 0 <= i < |s| => LowerChar(s[i])) }

  /** `s.toUpperCase()` */
  function ToUpper(s: string): string { seq(|s|, i requires 0 <= i < |s| => UpperChar(s[i])) }

  /** Only "f" and "F" upper-case to "F". */
  lemma UpperIsF(s: string)
    ensures ToUpper(s) == "F" <==> s == "f" || s == "F"
  {
  }

  // ---------------------------------------------------------------- parseInt

  /** `s` with its leading white space removed. */
  function TrimStart(s: string): string
  {
    if s != [] && IsSpace(s[0]) then TrimStart(s[1..]) else s
  }

  /** `s` with its trailing white space removed. */
  function TrimEnd(s: string): string
  {
    if s != [] && IsSpace(s[|s| - 1]) then TrimEnd(s[..|s| - 1]) else s
  }

  /** `s` without one leading sign character, if it has one. */
  function Unsigned(s: string): string
  {
    if s != [] && (s[0] == '+' || s[0] == '-') then s[1..] else s
  }

  /** Length of the longest prefix of `s` made of decimal digits. */
  function DigitRun(s: string): (k: nat)
    ensures k <= |s| && AllDigits(s[..k])
    ensures k < |s| ==> !IsDigit(s[k])
  {
    if s != [] && IsDigit(s[0]) then
      var k := 1 + DigitRun(s[1..]);
      assert s[..k] == [s[0]] + s[1..][..k - 1];
      k
    else 0
  }

  /** The value of a string of decimal digits, most significant first. */
  function DigitsValue(ds: string): nat
    requires AllDigits(ds)
  {
    if ds == [] then 0 else 10 * DigitsValue(ds[..|ds| - 1]) + (ds[|ds| - 1] as int - '0' as int)
  }

  /**
   * `parseInt(s, 10)`: leading white space is skipped, one optional sign is
   * read, then the longest run of decimal digits; anything after it is
   * ignored. No digit at all gives `NaN`, here `None`.
   */
  function ParseInt(s: string): (r: Option<int>)
    ensures s == [] ==> r == None
    ensures s != [] && AllDigits(s) ==> r == Some(DigitsValue(s))
    ensures |s| > 1 && s[0] == '-' && AllDigits(s[1..]) ==> r == Some(-(DigitsValue(s[1..]) as int))
    ensures s != [] && !IsDigit(s[0]) && !IsSpace(s[0]) && s[0] != '+' && s[0] != '-' ==> r == None
  {
    DigitRunAll(s);
    DigitRunAll(if s == [] then s else s[1..]);
    assert s[..|s|] == s;
    assert |s| > 1 ==> s[1..][..|s| - 1] == s[1..];
    var t := TrimStart(s);
    var body := Unsigned(t);
    var k := DigitRun(body);
    if k == 0 then None
    else if t[0] == '-' then Some(-(DigitsValue(body[..k]) as int))
    else Some(DigitsValue(body[..k]))
  }

  // ---------------------------------------------------------------- isNaN

  /**
   * `!isNaN(s)`, i.e. `Number(s)` is a number, for the decimal forms:
   * after trimming white space at both ends the text is empty (which
   * `Number` reads as 0), or an optional sign followed by digits with at
   * most one decimal point and at least one digit.
   */
  function IsNumeric(s: string): (numeric: bool)
    ensures s == [] ==> numeric
    ensures s != [] && AllDigits(s) ==> numeric
    ensures |s| == 1 && !IsDigit(s[0]) && !IsSpace(s[0]) ==> !numeric
  {
    DigitRunAll(s);
    var t := TrimEnd(TrimStart(s));
    var body := Unsigned(t);
    var k := DigitRun(body);
    var rest := body[k..];
    t == []
    || (rest == [] && k > 0)
    || (rest != [] && rest[0] == '.' && AllDigits(rest[1..]) && (k > 0 || |rest| > 1))
  }

  // ---------------------------------------------------------------- number text

  function DigitChar(d: nat): (c: char)
    requires d < 10
    ensures IsDigit(c) && c as int - '0' as int == d
  {
    ('0' as int + d) as char
  }

  /** The decimal text of a natural number, without leading zeros. */
  function Decimal(n: nat): (s: string)
    ensures |s| >= 1 && AllDigits(s)
    ensures |s| == 1 <==> n < 10
    ensures s[0] == '0' ==> n == 0
  {
    if n < 10 then [DigitChar(n)] else Decimal(n / 10) + [DigitChar(n % 10)]
  }

  /** The text a template literal gives an integer number. */
  function NumberText(n: int): string
  {
    if n < 0 then "-" + Decimal(-n) else Decimal(n)
  }

  /** The digits of `Decimal(n)` have the value `n`. */
  lemma {:induction false} DecimalValue(n: nat)
    ensures DigitsValue(Decimal(n)) == n
  {
    if n >= 10 {
      var s := Decimal(n);
      assert s[..|s| - 1] == Decimal(n / 10);
      DecimalValue(n / 10);
    }
  }

  /** `parseInt` reads back the decimal text of a natural number. */
  lemma ParseDecimal(n: nat)
    ensures ParseInt(Decimal(n)) == Some(n)
  {
    var s := Decimal(n);
    assert TrimStart(s) == s;
    assert Unsigned(s) == s;
    DigitRunAll(s);
    assert s[..|s|] == s;
    DecimalValue(n);
  }

  /** `parseInt` reads back the decimal text of a negative number. */
  lemma ParseNegativeDecimal(n: nat)
    ensures ParseInt("-" + Decimal(n)) == Some(-(n as int))
  {
    var s := Decimal(n);
    var t := "-" + s;
    assert TrimStart(t) == t;
    assert Unsigned(t) == s;
    DigitRunAll(s);
    assert s[..|s|] == s;
    DecimalValue(n);
  }

  /** Leading white space is skipped up to the first character that is not white space. */
  lemma {:induction false} TrimStartSkips(ws: string, t: string)
    requires AllSpace(ws) && (t == [] || !IsSpace(t[0]))
    ensures TrimStart(ws + t) == t
  {
    if ws == [] {
      assert ws + t == t;
    } else {
      assert (ws + t)[1..] == ws[1..] + t;
      TrimStartSkips(ws[1..], t);
    }
  }

  /** A run of digits followed by anything that does not start with a digit is read up to its end. */
  lemma {:induction false} DigitRunPrefix(ds: string, rest: string)
    requires AllDigits(ds) && (rest == [] || !IsDigit(rest[0]))
    ensures DigitRun(ds + rest) == |ds|
  {
    if ds == [] {
      assert ds + rest == rest;
    } else {
      assert (ds + rest)[1..] == ds[1..] + rest;
      DigitRunPrefix(ds[1..], rest);
    }
  }

  /**
   * `parseInt` skips leading white space and one sign, reads the decimal
   * digits and ignores whatever follows them: "2.5" reads as 2, "3days"
   * as 3 and " +4" as 4.
   */
  lemma ParseLeading(ws: string, sign: string, n: nat, rest: string)
    requires AllSpace(ws)
    requires sign == "" || sign == "+" || sign == "-"
    requires rest == [] || !IsDigit(rest[0])
    ensures ParseInt(ws + sign + Decimal(n) + rest) == Some(if sign == "-" then -(n as int) else n)
  {
    ParseSigned(ws, sign, Decimal(n), rest);
    DecimalValue(n);
  }

  /** `ParseLeading` for any run of digits, read as its decimal value. */
  lemma ParseSigned(ws: string, sign: string, ds: string, rest: string)
    requires AllSpace(ws)
    requires sign == "" || sign == "+" || sign == "-"
    requires ds != [] && AllDigits(ds)
    requires rest == [] || !IsDigit(rest[0])
    ensures ParseInt(ws + sign + ds + rest) == Some(if sign == "-" then -(DigitsValue(ds) as int) else DigitsValue(ds))
  {
    var t := sign + ds + rest;
    assert ws + sign + ds + rest == ws + t;
    SignedStart(sign, ds, rest);
    TrimStartSkips(ws, t);
    ReadDigits(ws + t, ds, rest, sign == "-");
  }

  /** A sign followed by digits: white space trimming leaves it alone, and dropping the sign leaves the digits. */
  lemma SignedStart(sign: string, ds: string, rest: string)
    requires sign == "" || sign == "+" || sign == "-"
    requires ds != [] && AllDigits(ds)
    ensures var t := sign + ds + rest;
      && t != [] && !IsSpace(t[0])
      && Unsigned(t) == ds + rest
      && (t[0] == '-' <==> sign == "-")
  {
    var t := sign + ds + rest;
    if sign == "" {
      assert t == ds + rest;
    } else {
      assert t[1..] == ds + rest;
    }
  }

  /**
   * Once white space and the sign are gone, `parseInt` reads exactly the
   * leading digits, negated when the sign was "-".
   */
  lemma ReadDigits(s: string, ds: string, rest: string, negative: bool)
    requires ds != [] && AllDigits(ds) && (rest == [] || !IsDigit(rest[0]))
    requires TrimStart(s) != [] && Unsigned(TrimStart(s)) == ds + rest
    requires TrimStart(s)[0] == '-' <==> negative
    ensures ParseInt(s) == Some(if negative then -(DigitsValue(ds) as int) else DigitsValue(ds))
  {
    DigitRunPrefix(ds, rest);
    assert (ds + rest)[..|ds|] == ds;
  }

  /** The decimal text of a natural number passes the numeric test, so the swap rule sees it as a day count. */
  lemma DecimalIsNumeric(n: nat)
    ensures IsNumeric(Decimal(n))
  {
  }

  /** A string made only of digits is one whole digit run. */
  lemma {:induction false} DigitRunAll(s: string)
    ensures AllDigits(s) ==> DigitRun(s) == |s|
  {
    if s != [] && AllDigits(s) {
      DigitRunAll(s[1..]);
    }
  }
}
