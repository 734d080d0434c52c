/**
 * The report date: pandas' `to_datetime(..., format='%d/%m/%Y', errors='coerce')`
 * and the two ways a parsed date is written back out (`strftime` for the
 * response, `str(Timestamp)` when a row is searched).
 */
module Dates {
  import opened Wrappers
  import opened Text

  datatype Date = Date(year: int, month: int, day: int)

  predicate IsLeapYear(y: int) {
    y % 4 == 0 && (y % 100 != 0 || y % 400 == 0)
  }

  function DaysInMonth(y: int, m: int): (n: int)
    requires 1 <= m <= 12
    ensures 28 <= n <= 31
  {
    if m == 2 then (if IsLeapYear(y) then 29 else 28)
    else if m == 4 || m == 6 || m == 9 || m == 11 then 30
    else 31
  }

  /** A day that exists in the proleptic Gregorian calendar. */
  predicate ValidDate(d: Date) {
    1 <= d.month <= 12 && 1 <= d.day <= DaysInMonth(d.year, d.month)
  }

  /** Chronological order: `a` is the same day as `b` or an earlier one. */
  predicate NotAfter(a: Date, b: Date) {
    a.year < b.year
    || (a.year == b.year && (a.month < b.month || (a.month == b.month && a.day <= b.day)))
  }

  lemma NotAfterTotal(a: Date, b: Date)
    ensures NotAfter(a, b) || NotAfter(b, a)
  {
  }

  lemma NotAfterTransitive(a: Date, b: Date, c: Date)
    requires NotAfter(a, b) && NotAfter(b, c)
    ensures NotAfter(a, c)
  {
  }

  /**
   * The first and last midnights a nanosecond pandas Timestamp can hold
   * (Timestamp.min is 1677-09-21 00:12:43, Timestamp.max 2262-04-11 23:47:16);
   * a parsed date outside them is out of bounds and `errors='coerce'` makes it NaT.
   */
  const FirstTimestampDay := Date(1677, 9, 22)
  const LastTimestampDay := Date(2262, 4, 11)

  predicate Representable(d: Date) {
    NotAfter(FirstTimestampDay, d) && NotAfter(d, LastTimestampDay)
  }

  /** A calendar day a Timestamp can hold: what a successfully parsed cell contains. */
  type StampDay = d: Date | ValidDate(d) && Representable(d) witness Date(1970, 1, 1)

  /** The `%d` directive: `3[01]|[12]\d|0[1-9]|[1-9]| [1-9]`. */
  function DayField(p: string): (r: Option<int>)
    ensures r.Some? ==> 1 <= r.value <= 31
  {
    if |p| == 1 && IsDigit(p[0]) && p[0] != '0' then Some(DigitValue(p[0]))
    else if |p| == 2 && p[0] == ' ' && IsDigit(p[1]) && p[1] != '0' then Some(DigitValue(p[1]))
    else if |p| == 2 && AllDigits(p) && 1 <= Value2(p) <= 31 then Some(Value2(p))
    else None
  }

  /** The `%m` directive: `1[0-2]|0[1-9]|[1-9]`. */
  function MonthField(p: string): (r: Option<int>)
    ensures r.Some? ==> 1 <= r.value <= 12
  {
    if |p| == 1 && IsDigit(p[0]) && p[0] != '0' then Some(DigitValue(p[0]))
    else if |p| == 2 && AllDigits(p) && 1 <= Value2(p) <= 12 then Some(Value2(p))
    else None
  }

  /** The `%Y` directive: exactly four digits. */
  function YearField(p: string): (r: Option<int>)
    ensures r.Some? ==> 0 <= r.value < 10000
  {
    if |p| == 4 && AllDigits(p) then Some(Value4(p)) else None
  }

  /**
   * The whole text must match `%d/%m/%Y` and name a real calendar day that a
   * Timestamp can hold; anything else (empty text included) becomes None, pandas' NaT.
   */
  function ParseReportDate(s: string): (r: Option<StampDay>)
  {
    var parts := Split(s, '/');
    if |parts| != 3 then None
    else FromFields(DayField(parts[0]), MonthField(parts[1]), YearField(parts[2]))
  }

  /** The date three matched fields name, if it exists and a Timestamp can hold it. */
  function FromFields(day: Option<int>, month: Option<int>, year: Option<int>): (r: Option<StampDay>)
  {
    if day.None? || month.None? || year.None? then None
    else
      var d := Date(year.value, month.value, day.value);
      if ValidDate(d) && Representable(d) then Some(d) else None
  }

  /** The canonical `dd/mm/yyyy` text of a date. */
  function DayMonthYearText(d: Date): (s: string)
    requires 0 <= d.year < 10000 && 1 <= d.month <= 12 && 1 <= d.day <= 31
  {
    Pad2(d.day) + "/" + Pad2(d.month) + "/" + Pad4(d.year)
  }

  /** Every day a Timestamp can hold is accepted in its `dd/mm/yyyy` spelling. */
  lemma ParseDayMonthYear(d: Date)
    requires ValidDate(d) && Representable(d)
    ensures ParseReportDate(DayMonthYearText(d)) == Some(d)
  {
    var dd, mm, yyyy := Pad2(d.day), Pad2(d.month), Pad4(d.year);
    assert '/' !in dd && '/' !in mm && '/' !in yyyy by {
      assert AllDigits(dd) && AllDigits(mm) && AllDigits(yyyy);
    }
    assert DayMonthYearText(d) == dd + ['/'] + (mm + ['/'] + yyyy);
    SplitAt(dd, '/', mm + ['/'] + yyyy);
    SplitAt(mm, '/', yyyy);
    SplitNoSeparator(yyyy, '/');
    assert Split(DayMonthYearText(d), '/') == [dd, mm, yyyy];
  }

  /** `strftime('%Y-%m-%dT%H:%M:%SZ')` of a parsed date (its time is always midnight). */
  function IsoText(d: Date): (s: string)
    requires 0 <= d.year < 10000 && 1 <= d.month <= 12 && 1 <= d.day <= 31
    ensures |s| == 20
  {
    Pad4(d.year) + "-" + Pad2(d.month) + "-" + Pad2(d.day) + "T00:00:00Z"
  }

  /** `str(Timestamp)` of a parsed date: what the search compares against. */
  function TimestampText(d: Date): (s: string)
    requires 0 <= d.year < 10000 && 1 <= d.month <= 12 && 1 <= d.day <= 31
    ensures |s| == 19
  {
    Pad4(d.year) + "-" + Pad2(d.month) + "-" + Pad2(d.day) + " 00:00:00"
  }

  /** Reads an emitted `YYYY-MM-DDT00:00:00Z` timestamp back into a date. */
  function ParseIso(s: string): (r: Option<Date>)
    ensures r.Some? ==> 0 <= r.value.year < 10000 && 0 <= r.value.month < 100 && 0 <= r.value.day < 100
  {
    if |s| == 20 && s[4] == '-' && s[7] == '-' && s[10..] == "T00:00:00Z"
       && AllDigits(s[..4]) && AllDigits(s[5..7]) && AllDigits(s[8..10])
    then Some(Date(Value4(s[..4]), Value2(s[5..7]), Value2(s[8..10])))
    else None
  }

  /** The emitted timestamp determines the date it was written from. */
  lemma ParseIsoText(d: Date)
    requires 0 <= d.year < 10000 && 1 <= d.month <= 12 && 1 <= d.day <= 31
    ensures ParseIso(IsoText(d)) == Some(d)
  {
    var s := IsoText(d);
    var y, m, dd := Pad4(d.year), Pad2(d.month), Pad2(d.day);
    assert s == y + "-" + m + "-" + dd + "T00:00:00Z";
    assert s[..4] == y && s[5..7] == m && s[8..10] == dd && s[10..] == "T00:00:00Z";
  }

  /** Every parsed report date can be emitted: its year has four digits. */
  lemma RepresentableIsEmittable(d: Date)
    requires ValidDate(d) && Representable(d)
    ensures 0 <= d.year < 10000 && 1 <= d.month <= 12 && 1 <= d.day <= 31
  {
  }

  /** Three slash-free pieces joined by slashes are read field by field. */
  lemma ParseThreeFields(a: string, b: string, c: string)
    requires '/' !in a && '/' !in b && '/' !in c
    ensures ParseReportDate(a + "/" + b + "/" + c) == FromFields(DayField(a), MonthField(b), YearField(c))
  {
    assert a + "/" + b + "/" + c == a + ['/'] + (b + ['/'] + c);
    SplitAt(a, '/', b + ['/'] + c);
    SplitAt(b, '/', c);
    SplitNoSeparator(c, '/');
  }

  // One-fact lemmas about literal fields, kept apart so that each example
  // lemma composes facts instead of evaluating every field in one proof.

  lemma MarchFifteenthFields()
    ensures DayField("15") == Some(15) && MonthField("03") == Some(3)
  {
  }

  lemma MarchFifthFields()
    ensures DayField("5") == Some(5) && MonthField("3") == Some(3)
  {
  }

  lemma FebruaryThirtyFirstFields()
    ensures DayField("31") == Some(31) && MonthField("02") == Some(2)
  {
  }

  lemma FebruaryTwentyNinthFields()
    ensures DayField("29") == Some(29) && MonthField("02") == Some(2)
  {
  }

  lemma SeptemberTwentyFirstFields()
    ensures DayField("21") == Some(21) && MonthField("09") == Some(9)
  {
  }

  lemma YearFieldOf2024()
    ensures YearField("2024") == Some(2024)
  {
  }

  lemma YearFieldOf2000()
    ensures YearField("2000") == Some(2000)
  {
  }

  lemma YearFieldOf2023()
    ensures YearField("2023") == Some(2023)
  {
  }

  lemma YearFieldOf1900()
    ensures YearField("1900") == Some(1900)
  {
  }

  lemma YearFieldOf3000()
    ensures YearField("3000") == Some(3000)
  {
  }

  lemma YearFieldOf1677()
    ensures YearField("1677") == Some(1677)
  {
  }

  /** `"15/03/2024"` parses to 15 March 2024 ... */
  lemma ExampleReportDate()
    ensures ParseReportDate("15/03/2024") == Some(Date(2024, 3, 15))
  {
    ParseThreeFields("15", "03", "2024");
    assert "15/03/2024" == "15" + "/" + "03" + "/" + "2024";
    MarchFifteenthFields();
    YearFieldOf2024();
    assert IsLeapYear(2024) == true;
  }

  /** ... and is emitted as `"2024-03-15T00:00:00Z"`. */
  lemma ExampleEmittedDate()
    ensures IsoText(Date(2024, 3, 15)) == "2024-03-15T00:00:00Z"
  {
  }

  /** Single-digit day and month fields are accepted, as `%d` and `%m` allow. */
  lemma ExampleSingleDigits()
    ensures ParseReportDate("5/3/2024") == Some(Date(2024, 3, 5))
  {
    ParseThreeFields("5", "3", "2024");
    assert "5/3/2024" == "5" + "/" + "3" + "/" + "2024";
    MarchFifthFields();
    YearFieldOf2024();
    assert IsLeapYear(2024) == true;
  }

  /** A day that does not exist is coerced to null. */
  lemma ExampleImpossibleDay()
    ensures ParseReportDate("31/02/2024") == None
  {
    ParseThreeFields("31", "02", "2024");
    assert "31/02/2024" == "31" + "/" + "02" + "/" + "2024";
    FebruaryThirtyFirstFields();
    YearFieldOf2024();
    assert IsLeapYear(2024) == true;
  }

  /** 29 February exists in a leap year ... */
  lemma ExampleLeapDay()
    ensures ParseReportDate("29/02/2024") == Some(Date(2024, 2, 29))
  {
    ParseThreeFields("29", "02", "2024");
    assert "29/02/2024" == "29" + "/" + "02" + "/" + "2024";
    FebruaryTwentyNinthFields();
    YearFieldOf2024();
    assert IsLeapYear(2024) == true;
  }

  /** ... and in a leap century ... */
  lemma ExampleLeapCentury()
    ensures ParseReportDate("29/02/2000") == Some(Date(2000, 2, 29))
  {
    ParseThreeFields("29", "02", "2000");
    assert "29/02/2000" == "29" + "/" + "02" + "/" + "2000";
    FebruaryTwentyNinthFields();
    YearFieldOf2000();
    assert IsLeapYear(2000) == true;
  }

  /** ... but not in a common year ... */
  lemma ExampleCommonYear()
    ensures ParseReportDate("29/02/2023") == None
  {
    ParseThreeFields("29", "02", "2023");
    assert "29/02/2023" == "29" + "/" + "02" + "/" + "2023";
    FebruaryTwentyNinthFields();
    YearFieldOf2023();
    assert IsLeapYear(2023) == false;
  }

  /** ... nor in a century that is not a multiple of 400. */
  lemma ExampleCommonCentury()
    ensures ParseReportDate("29/02/1900") == None
  {
    ParseThreeFields("29", "02", "1900");
    assert "29/02/1900" == "29" + "/" + "02" + "/" + "1900";
    FebruaryTwentyNinthFields();
    YearFieldOf1900();
    assert IsLeapYear(1900) == false;
  }

  /** A date after the last Timestamp is coerced to null ... */
  lemma ExampleTooLate()
    ensures ParseReportDate("15/03/3000") == None
  {
    ParseThreeFields("15", "03", "3000");
    assert "15/03/3000" == "15" + "/" + "03" + "/" + "3000";
    MarchFifteenthFields();
    YearFieldOf3000();
    assert IsLeapYear(3000) == false;
  }

  /** ... and so is one before the first. */
  lemma ExampleTooEarly()
    ensures ParseReportDate("21/09/1677") == None
  {
    ParseThreeFields("21", "09", "1677");
    assert "21/09/1677" == "21" + "/" + "09" + "/" + "1677";
    SeptemberTwentyFirstFields();
    YearFieldOf1677();
    assert IsLeapYear(1677) == false;
  }

  /** Other spellings (ISO order, empty text) are not the format and become null. */
  lemma ExampleOtherSpellings()
    ensures ParseReportDate("2024-03-15") == None
    ensures ParseReportDate("") == None
  {
    SplitNoSeparator("2024-03-15", '/');
  }
}
