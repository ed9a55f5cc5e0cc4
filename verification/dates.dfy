/** Calendar days as recordScraper.py handles them: `YYYYMMDD` arguments read into
    proleptic Gregorian dates, the inclusive day range written as `MMDDYYYY` strings,
    and the per-day output file names. */
module Dates {
  import opened Outcome
  import opened PyStrings
  import opened Patterns

  /** `int(s)` for a string of decimal digits. */
  function ParseDigits(s: string): (r: nat)
    requires AllDigits(s)
  {
    if |s| == 0 then 0 else ParseDigits(s[..|s| - 1]) * 10 + (s[|s| - 1] as int - '0' as int)
  }

  function DigitChar(n: nat): (c: char)
    requires n < 10
    ensures IsDigit(c) && c as int - '0' as int == n
  {
    ('0' as int + n) as char
  }

  /** The last `w` decimal digits of `n`, zero-padded: `"%0wd" % n` whenever `n < 10^w`. */
  function Digits(n: nat, w: nat): (r: string)
    ensures |r| == w && AllDigits(r)
  {
    if w == 0 then "" else Digits(n / 10, w - 1) + [DigitChar(n % 10)]
  }

  function Pow10(w: nat): (p: nat)
    ensures p >= 1
  {
    if w == 0 then 1 else 10 * Pow10(w - 1)
  }

  /** Padding a number that fits and reading it back gives the number. */
  lemma {:induction false} ParseDigitsOfDigits(n: nat, w: nat)
    requires n < Pow10(w)
    ensures ParseDigits(Digits(n, w)) == n
  {
    if w > 0 {
      var s := Digits(n, w);
      assert s[..|s| - 1] == Digits(n / 10, w - 1);
      ParseDigitsOfDigits(n / 10, w - 1);
    }
  }

  /** Reading a digit string and padding it back to its width gives the string. */
  lemma {:induction false} DigitsOfParseDigits(s: string)
    requires AllDigits(s)
    ensures Digits(ParseDigits(s), |s|) == s
  {
    if |s| > 0 {
      var init := s[..|s| - 1];
      var d := s[|s| - 1] as int - '0' as int;
      var v := ParseDigits(s);
      assert v == ParseDigits(init) * 10 + d;
      assert v / 10 == ParseDigits(init) && v % 10 == d;
      DigitsOfParseDigits(init);
      assert s == init + [s[|s| - 1]];
    }
  }

  /** A `datetime.date`; valid ones satisfy `ValidDate`. */
  datatype Date = Date(year: nat, month: nat, day: nat)

  predicate IsLeap(y: int)
  {
    y % 4 == 0 && (y % 100 != 0 || y % 400 == 0)
  }

  function DaysInMonth(y: int, m: int): int
  {
    if m == 2 then (if IsLeap(y) then 29 else 28)
    else if m == 4 || m == 6 || m == 9 || m == 11 then 30
    else 31
  }

  function DaysInYear(y: int): int
  {
    if IsLeap(y) then 366 else 365
  }

  /** What `datetime.date(year, month, day)` accepts. */
  predicate ValidDate(d: Date)
  {
    1 <= d.year <= 9999 && 1 <= d.month <= 12 && 1 <= d.day <= DaysInMonth(d.year, d.month)
  }

  /** `date.max`; one day later overflows. */
  const MaxDate: Date := Date(9999, 12, 31)

  /** The next calendar day (`+ timedelta(days=1)` below `date.max`). */
  function Succ(d: Date): Date
  {
    if d.day < DaysInMonth(d.year, d.month) then d.(day := d.day + 1)
    else if d.month < 12 then Date(d.year, d.month + 1, 1)
    else Date(d.year + 1, 1, 1)
  }

  function AddDays(d: Date, n: nat): Date
  {
    if n == 0 then d else Succ(AddDays(d, n - 1))
  }

  function DaysBeforeYear(y: int): int
  {
    if y <= 1 then 0 else DaysBeforeYear(y - 1) + DaysInYear(y - 1)
  }

  /** Days in the months of year `y` before month `m` (1 <= m <= 13). */
  function DaysBeforeMonth(y: int, m: int): int
  {
    var table := [0, 0, 31, 59, 90, 120, 151, 181, 212, 243, 273, 304, 334, 365];
    if 1 <= m <= 13 then table[m] + (if m > 2 && IsLeap(y) then 1 else 0) else 0
  }

  /** `date.toordinal()`: day 1 is 0001-01-01. */
  function Ordinal(d: Date): int
  {
    DaysBeforeYear(d.year) + DaysBeforeMonth(d.year, d.month) + d.day
  }

  /** Date comparison: year, then month, then day. */
  predicate DateLe(a: Date, b: Date)
  {
    a.year < b.year || (a.year == b.year && (a.month < b.month || (a.month == b.month && a.day <= b.day)))
  }

  lemma {:induction false} DaysBeforeYearGrows(y1: int, y2: int)
    requires 1 <= y1 <= y2
    ensures DaysBeforeYear(y1) <= DaysBeforeYear(y2)
    decreases y2
  {
    if y1 < y2 {
      DaysBeforeYearGrows(y1, y2 - 1);
    }
  }

  /** A valid date's ordinal lies within its year's span of ordinals. */
  lemma OrdinalInYear(d: Date)
    requires ValidDate(d)
    ensures DaysBeforeYear(d.year) < Ordinal(d) <= DaysBeforeYear(d.year + 1)
  {
    assert DaysBeforeMonth(d.year, d.month) + DaysInMonth(d.year, d.month) <= DaysInYear(d.year);
  }

  /** Comparing dates is comparing their ordinals. */
  lemma OrdinalOrder(a: Date, b: Date)
    requires ValidDate(a) && ValidDate(b)
    ensures DateLe(a, b) <==> Ordinal(a) <= Ordinal(b)
    ensures a == b <==> Ordinal(a) == Ordinal(b)
  {
    OrdinalInYear(a);
    OrdinalInYear(b);
    if a.year < b.year {
      DaysBeforeYearGrows(a.year + 1, b.year);
    } else if b.year < a.year {
      DaysBeforeYearGrows(b.year + 1, a.year);
    } else if a.month < b.month {
      assert DaysBeforeMonth(a.year, a.month) + DaysInMonth(a.year, a.month) <= DaysBeforeMonth(a.year, b.month);
    } else if b.month < a.month {
      assert DaysBeforeMonth(b.year, b.month) + DaysInMonth(b.year, b.month) <= DaysBeforeMonth(b.year, a.month);
    }
  }

  /** Stepping a valid day below `date.max` gives the valid day with the next ordinal. */
  lemma SuccOrdinal(d: Date)
    requires ValidDate(d) && d != MaxDate
    ensures ValidDate(Succ(d)) && Ordinal(Succ(d)) == Ordinal(d) + 1
  {
    if d.day == DaysInMonth(d.year, d.month) && d.month < 12 {
      assert DaysBeforeMonth(d.year, d.month + 1) == DaysBeforeMonth(d.year, d.month) + DaysInMonth(d.year, d.month);
    }
  }

  lemma {:induction false} AddDaysOrdinal(d: Date, n: nat)
    requires ValidDate(d)
    requires Ordinal(d) + n <= Ordinal(MaxDate)
    ensures ValidDate(AddDays(d, n)) && Ordinal(AddDays(d, n)) == Ordinal(d) + n
  {
    if n > 0 {
      AddDaysOrdinal(d, n - 1);
      var prev := AddDays(d, n - 1);
      OrdinalOrder(prev, MaxDate);
      SuccOrdinal(prev);
    }
  }

  /** `"%02d%02d%04d" % (month, day, year)`. */
  function FormatMmddyyyy(d: Date): string
  {
    Digits(d.month, 2) + Digits(d.day, 2) + Digits(d.year, 4)
  }

  /** `datetime.date(int(s[0:4]), int(s[4:6]), int(s[6:8]))`. */
  function ParseYmd(s: string): Date
    requires |s| == 8 && AllDigits(s)
  {
    Date(ParseDigits(s[0..4]), ParseDigits(s[4..6]), ParseDigits(s[6..8]))
  }

  /** An 8-digit `YYYYMMDD` string naming a real day. */
  predicate IsYmd(s: string)
  {
    |s| == 8 && AllDigits(s) && ValidDate(ParseYmd(s))
  }

  /** The number of days from `s` to `e` inclusive; none when `s` is later. */
  function DayCount(s: Date, e: Date): nat
  {
    if Ordinal(s) <= Ordinal(e) then Ordinal(e) - Ordinal(s) + 1 else 0
  }

  /** The first `n` days from `s`, written `MMDDYYYY`. */
  function DayStrings(s: Date, n: nat): seq<string>
  {
    if n == 0 then [] else DayStrings(s, n - 1) + [FormatMmddyyyy(AddDays(s, n - 1))]
  }

  lemma {:induction false} DayStringsAt(s: Date, n: nat, i: nat)
    requires i < n
    ensures |DayStrings(s, n)| == n && DayStrings(s, n)[i] == FormatMmddyyyy(AddDays(s, i))
  {
    if i < n - 1 {
      DayStringsAt(s, n - 1, i);
    } else {
      DayStringsLength(s, n - 1);
    }
  }

  lemma {:induction false} DayStringsLength(s: Date, n: nat)
    ensures |DayStrings(s, n)| == n
  {
    if n > 0 {
      DayStringsLength(s, n - 1);
    }
  }

  /** What `expand_dates_to_MMDDYYYY_list` returns: every day from `s` to `e` in order;
      a range ending on `date.max` steps past it and raises OverflowError. */
  function ExpandedDates(s: Date, e: Date): Result<seq<string>>
  {
    if DateLe(s, e) && e == MaxDate then Raised(OverflowError)
    else Ok(DayStrings(s, DayCount(s, e)))
  }

  /** The loop invariant of the expansion: `list` holds the days from `s` before `cur`. */
  ghost predicate Expanding(s: Date, e: Date, cur: Date, list: seq<string>)
  {
    && ValidDate(cur) && cur == AddDays(s, |list|)
    && Ordinal(cur) == Ordinal(s) + |list|
    && (DateLe(s, e) ==> Ordinal(cur) <= Ordinal(e) + 1)
    && (!DateLe(s, e) ==> |list| == 0)
    && list == DayStrings(s, |list|)
  }

  lemma ExpandingStep(s: Date, e: Date, cur: Date, list: seq<string>)
    requires ValidDate(s) && ValidDate(e) && Expanding(s, e, cur, list)
    requires DateLe(cur, e) && cur != MaxDate
    ensures Ordinal(cur) <= Ordinal(e) && Ordinal(Succ(cur)) == Ordinal(cur) + 1
    ensures Expanding(s, e, Succ(cur), list + [FormatMmddyyyy(cur)])
  {
    OrdinalOrder(cur, e);
    OrdinalOrder(s, e);
    SuccOrdinal(cur);
    var n := |list|;
    var next := list + [FormatMmddyyyy(cur)];
    assert |next| == n + 1;
    assert AddDays(s, n + 1) == Succ(cur);
    assert DayStrings(s, n + 1) == next;
    assert DateLe(s, e);
  }

  lemma ExpandingOverflows(s: Date, e: Date, cur: Date, list: seq<string>)
    requires ValidDate(s) && ValidDate(e) && Expanding(s, e, cur, list)
    requires DateLe(cur, e) && cur == MaxDate
    ensures ExpandedDates(s, e) == Raised(OverflowError)
  {
    OrdinalOrder(s, cur);
    assert e == MaxDate;
  }

  lemma ExpandingDone(s: Date, e: Date, cur: Date, list: seq<string>)
    requires ValidDate(s) && ValidDate(e) && Expanding(s, e, cur, list)
    requires !DateLe(cur, e)
    ensures ExpandedDates(s, e) == Ok(list)
  {
    OrdinalOrder(cur, e);
    OrdinalOrder(cur, MaxDate);
    OrdinalOrder(s, e);
  }

  method ExpandDatesToMmddyyyyList(startDateStr: string, endDateStr: string) returns (r: Result<seq<string>>)
    requires IsYmd(startDateStr) && IsYmd(endDateStr)
    ensures r == ExpandedDates(ParseYmd(startDateStr), ParseYmd(endDateStr))
  {
    var startDate := Date(ParseDigits(startDateStr[0..4]), ParseDigits(startDateStr[4..6]), ParseDigits(startDateStr[6..8]));
    var endDate := Date(ParseDigits(endDateStr[0..4]), ParseDigits(endDateStr[4..6]), ParseDigits(endDateStr[6..8]));
    var list: seq<string> := [];
    var cur := startDate;
    OrdinalOrder(startDate, endDate);
    while DateLe(cur, endDate)
      invariant Expanding(startDate, endDate, cur, list)
      decreases Ordinal(endDate) - Ordinal(cur)
    {
      if cur == MaxDate {
        ExpandingOverflows(startDate, endDate, cur, list);
        return Raised(OverflowError);
      }
      ExpandingStep(startDate, endDate, cur, list);
      list := list + [FormatMmddyyyy(cur)];
      cur := Succ(cur);
    }
    ExpandingDone(startDate, endDate, cur, list);
    return Ok(list);
  }

  /** The range holds the inclusive day count of entries, the i-th being the start
      plus i days, each a valid day written as eight digits. */
  lemma ExpandedDatesShape(s: Date, e: Date, i: int)
    requires ValidDate(s) && ValidDate(e) && ExpandedDates(s, e).Ok?
    requires 0 <= i < |ExpandedDates(s, e).value|
    ensures |ExpandedDates(s, e).value| == DayCount(s, e)
    ensures ValidDate(AddDays(s, i)) && DateLe(s, AddDays(s, i)) && DateLe(AddDays(s, i), e)
    ensures Ordinal(AddDays(s, i)) == Ordinal(s) + i
    ensures ExpandedDates(s, e).value[i] == FormatMmddyyyy(AddDays(s, i))
    ensures |ExpandedDates(s, e).value[i]| == 8 && AllDigits(ExpandedDates(s, e).value[i])
  {
    DayStringsLength(s, DayCount(s, e));
    DayStringsAt(s, DayCount(s, e), i);
    OrdinalOrder(e, MaxDate);
    AddDaysOrdinal(s, i);
    OrdinalOrder(s, AddDays(s, i));
    OrdinalOrder(AddDays(s, i), e);
  }

  /** A start after the end gives no days. */
  lemma ExpandedDatesEmpty(s: Date, e: Date)
    requires ValidDate(s) && ValidDate(e) && !DateLe(s, e)
    ensures ExpandedDates(s, e) == Ok([])
  {
    OrdinalOrder(s, e);
  }

  /** A single day below `date.max` gives just that day. */
  lemma ExpandedDatesSingle(d: Date)
    requires ValidDate(d) && d != MaxDate
    ensures ExpandedDates(d, d) == Ok([FormatMmddyyyy(d)])
  {
    assert DateLe(d, d);
    assert DayCount(d, d) == 1;
    assert AddDays(d, 0) == d;
    assert DayStrings(d, 1) == DayStrings(d, 0) + [FormatMmddyyyy(AddDays(d, 0))];
    assert DayStrings(d, 1) == [FormatMmddyyyy(d)];
    assert ExpandedDates(d, d) == Ok(DayStrings(d, 1));
  }

  /** Every formatted day reads back as the same day, month first. */
  lemma FormatMmddyyyyParses(d: Date)
    requires ValidDate(d)
    ensures var f := FormatMmddyyyy(d);
            |f| == 8 && ParseDigits(f[0..2]) == d.month && ParseDigits(f[2..4]) == d.day && ParseDigits(f[4..8]) == d.year
  {
    var f := FormatMmddyyyy(d);
    assert f[0..2] == Digits(d.month, 2) && f[2..4] == Digits(d.day, 2) && f[4..8] == Digits(d.year, 4);
    assert Pow10(2) == 100 && Pow10(4) == 10000 by {
      assert Pow10(1) == 10 && Pow10(3) == 1000;
    }
    ParseDigitsOfDigits(d.month, 2);
    ParseDigitsOfDigits(d.day, 2);
    ParseDigitsOfDigits(d.year, 4);
  }

  lemma DigitsExamples()
    ensures Digits(1, 2) == "01" && Digits(2, 2) == "02" && Digits(12, 2) == "12" && Digits(31, 2) == "31"
    ensures Digits(2013, 4) == "2013" && Digits(2012, 4) == "2012"
  {
    assert Digits(0, 0) == "";
    assert Digits(0, 1) == "0" && Digits(1, 1) == "1" && Digits(3, 1) == "3";
    assert Digits(20, 2) == "20" && Digits(201, 3) == "201";
  }

  /** The single-day test case. */
  lemma ExpandedSingleDayExample()
    ensures ExpandedDates(Date(2013, 1, 2), Date(2013, 1, 2)) == Ok(["01022013"])
  {
    DigitsExamples();
    ExpandedDatesSingle(Date(2013, 1, 2));
    assert FormatMmddyyyy(Date(2013, 1, 2)) == "01" + "02" + "2013" == "01022013";
  }

  lemma YearEndDays()
    ensures DayCount(Date(2012, 12, 31), Date(2013, 1, 2)) == 3
    ensures AddDays(Date(2012, 12, 31), 1) == Date(2013, 1, 1)
    ensures AddDays(Date(2012, 12, 31), 2) == Date(2013, 1, 2)
  {
    assert DaysBeforeYear(2013) == DaysBeforeYear(2012) + 366;
  }

  lemma YearEndFormats()
    ensures FormatMmddyyyy(Date(2012, 12, 31)) == "12312012"
    ensures FormatMmddyyyy(Date(2013, 1, 1)) == "01012013"
    ensures FormatMmddyyyy(Date(2013, 1, 2)) == "01022013"
  {
    DigitsExamples();
    assert FormatMmddyyyy(Date(2012, 12, 31)) == "12" + "31" + "2012";
    assert FormatMmddyyyy(Date(2013, 1, 1)) == "01" + "01" + "2013";
    assert FormatMmddyyyy(Date(2013, 1, 2)) == "01" + "02" + "2013";
  }

  /** The date-range test case: three days across a year end. */
  lemma ExpandedYearEndExample()
    ensures ExpandedDates(Date(2012, 12, 31), Date(2013, 1, 2)) == Ok(["12312012", "01012013", "01022013"])
  {
    YearEndDays();
    YearEndFormats();
    var s := Date(2012, 12, 31);
    assert AddDays(s, 0) == s;
    assert DayStrings(s, 1) == ["12312012"];
    assert DayStrings(s, 2) == ["12312012", "01012013"];
    assert DayStrings(s, 3) == ["12312012", "01012013", "01022013"];
  }

  /** `convert_mmddyyyy_to_output_filename`: `path/prefix_YYYYMMDD.json` from `MMDDYYYY`. */
  function OutputFilename(outputPath: string, prefix: string, mmddyyyy: string): string
  {
    outputPath + "/" + prefix + "_" + Slice(mmddyyyy, 4, 8) + Slice(mmddyyyy, 0, 2) + Slice(mmddyyyy, 2, 4) + ".json"
  }

  /** The `_BAD_READ` marker written instead of a day's file when fetching fails. */
  function TombstoneFilename(outputPath: string, prefix: string, mmddyyyy: string): string
  {
    OutputFilename(outputPath, prefix, mmddyyyy) + "_BAD_READ"
  }

  /** A failed day's marker never has the name of any day's output file. */
  lemma TombstoneIsNoOutputFile(p: string, x: string, s: string, p2: string, x2: string, s2: string)
    ensures TombstoneFilename(p, x, s) != OutputFilename(p2, x2, s2)
  {
    var t := TombstoneFilename(p, x, s);
    var f := OutputFilename(p2, x2, s2);
    assert t[|t| - 1] == 'D';
    assert f[|f| - 1] == 'n';
  }

  lemma OutputFilenameExample()
    ensures OutputFilename("outpath", "prefix", "01022013") == "outpath/prefix_20130102.json"
  {
  }

  /** Expanding a single valid `YYYYMMDD` day and naming its file gives back that
      string: `p/x_YYYYMMDD.json`. */
  lemma FilenameRoundTrip(p: string, x: string, ymd: string)
    requires IsYmd(ymd) && ParseYmd(ymd) != MaxDate
    ensures ExpandedDates(ParseYmd(ymd), ParseYmd(ymd)).Ok?
    ensures OutputFilename(p, x, ExpandedDates(ParseYmd(ymd), ParseYmd(ymd)).value[0]) == p + "/" + x + "_" + ymd + ".json"
  {
    var d := ParseYmd(ymd);
    ExpandedDatesSingle(d);
    var f := FormatMmddyyyy(d);
    FormatAsReordered(ymd);
    assert Slice(f, 4, 8) + Slice(f, 0, 2) + Slice(f, 2, 4) == ymd;
  }

  /** A valid day written `MMDDYYYY` is its `YYYYMMDD` string with the year moved to the end. */
  lemma FormatAsReordered(ymd: string)
    requires IsYmd(ymd)
    ensures FormatMmddyyyy(ParseYmd(ymd)) == ymd[4..8] + ymd[0..4]
  {
    DigitsOfParseDigits(ymd[0..4]);
    DigitsOfParseDigits(ymd[4..6]);
    DigitsOfParseDigits(ymd[6..8]);
    assert ymd[4..8] == ymd[4..6] + ymd[6..8];
  }
}
