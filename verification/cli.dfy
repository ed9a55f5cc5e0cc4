/** The two scripts' command-line checks. A rejected command line prints the usage
    text and exits with status 2, which is `Raised(UsageExit)` here. */
module CommandLine {
  import opened Outcome
  import opened PyStrings
  import opened Patterns
  import opened Rows
  import opened Dates

  /** `YYYYMMDD:YYYYMMDD`: 17 characters with the colon at index 8. */
  predicate IsDateRangeArg(arg: string)
  {
    |arg| == 17 && arg[8] == ':'
  }

  /** `RECORD_TYPES.get(name)` is truthy. */
  predicate IsRecordType(name: string)
  {
    name in RecordTypes && RecordTypes[name] != ""
  }

  /** recordScraper's `parse_commandline_arguments`: start date, end date, record-type
      name and output path. */
  function ParseRecordArgs(argv: seq<string>): Result<(string, string, string, string)>
  {
    if |argv| < 4 then Raised(UsageExit)
    else if !IsDateRangeArg(argv[1]) then Raised(UsageExit)
    else if !IsRecordType(argv[2]) then Raised(UsageExit)
    else Ok((Slice(argv[1], 0, 8), Slice(argv[1], 9, 18), argv[2], argv[3]))
  }

  /** The `YYYYMMDD:YYYYMMDD` argument joined from its two halves. */
  function RangeArg(a: string, b: string): string
  {
    a + ":" + b
  }

  /** A command line is accepted exactly when it has four entries or more, a well-shaped
      range and a known record type; the range then splits back into its two dates. */
  lemma RecordArgsAccepted(argv: seq<string>)
    ensures ParseRecordArgs(argv).Ok? <==> |argv| >= 4 && IsDateRangeArg(argv[1]) && argv[2] in RecordTypes
    ensures ParseRecordArgs(argv).Ok? ==>
              var v := ParseRecordArgs(argv).value;
              && |v.0| == 8 && |v.1| == 8 && argv[1] == RangeArg(v.0, v.1)
              && v.2 == argv[2] && v.3 == argv[3]
  {
    if ParseRecordArgs(argv).Ok? {
      var v := ParseRecordArgs(argv).value;
      assert argv[1] == argv[1][0..8] + ":" + argv[1][9..17];
    }
  }

  /** Any two 8-character dates, a record type and a path make a command line that
      parses back into them. */
  lemma RecordArgsRoundTrip(prog: string, a: string, b: string, recordType: string, outputPath: string)
    requires |a| == 8 && |b| == 8 && recordType in RecordTypes
    ensures ParseRecordArgs([prog, RangeArg(a, b), recordType, outputPath]) == Ok((a, b, recordType, outputPath))
  {
    var arg := RangeArg(a, b);
    assert arg[0..8] == a && arg[9..17] == b;
  }

  const ThrottleDefault: real := 200.0

  /** `YYYYMMDD` reordered to `MMDDYYYY` by slicing. */
  function SliceToMmddyyyy(ymd: string): string
  {
    Slice(ymd, 4, 8) + Slice(ymd, 0, 4)
  }

  /** deedScraper's `parse_commandline_arguments`: the two dates as `MMDDYYYY` and the
      throttle. `parseFloat` is Python's `float`, None where it raises ValueError. */
  function ParseDeedArgs(argv: seq<string>, parseFloat: string -> Option<real>): Result<(string, string, real)>
  {
    if |argv| < 2 then Raised(UsageExit)
    else if !IsDateRangeArg(argv[1]) then Raised(UsageExit)
    else
      var first := Slice(argv[1], 4, 8) + Slice(argv[1], 0, 4);
      var second := Slice(argv[1], 13, 18) + Slice(argv[1], 9, 13);
      if |argv| == 3 then
        match parseFloat(argv[2])
        case None => Raised(UsageExit)
        case Some(t) => Ok((first, second, t))
      else Ok((first, second, ThrottleDefault))
  }

  /** The dates come from the two halves of the range, year moved to the end; the
      throttle is the default unless exactly one more argument is given. */
  lemma DeedArgsShape(argv: seq<string>, parseFloat: string -> Option<real>)
    ensures ParseDeedArgs(argv, parseFloat).Ok? <==>
              |argv| >= 2 && IsDateRangeArg(argv[1]) && (|argv| == 3 ==> parseFloat(argv[2]).Some?)
    ensures ParseDeedArgs(argv, parseFloat).Ok? ==>
              var v := ParseDeedArgs(argv, parseFloat).value;
              && v.0 == SliceToMmddyyyy(argv[1][0..8]) && v.1 == SliceToMmddyyyy(argv[1][9..17])
              && v.2 == (if |argv| == 3 then parseFloat(argv[2]).value else ThrottleDefault)
  {
    if ParseDeedArgs(argv, parseFloat).Ok? {
      var arg := argv[1];
      assert arg[0..8][4..8] == arg[4..8] && arg[0..8][0..4] == arg[0..4];
      assert arg[9..17][4..8] == arg[13..17] && arg[9..17][0..4] == arg[9..13];
    }
  }

  /** For a range of two valid days, deedScraper's dates are exactly the strings
      recordScraper's expansion writes for those days. */
  lemma DeedDatesAgreeWithExpansion(prog: string, a: string, b: string, parseFloat: string -> Option<real>)
    requires IsYmd(a) && IsYmd(b)
    ensures ParseDeedArgs([prog, RangeArg(a, b)], parseFloat)
            == Ok((FormatMmddyyyy(ParseYmd(a)), FormatMmddyyyy(ParseYmd(b)), ThrottleDefault))
    ensures ParseYmd(a) != MaxDate ==> ExpandedDates(ParseYmd(a), ParseYmd(a)) == Ok([FormatMmddyyyy(ParseYmd(a))])
  {
    var argv := [prog, RangeArg(a, b)];
    DeedArgsShape(argv, parseFloat);
    assert argv[1][0..8] == a && argv[1][9..17] == b;
    FormatAsReordered(a);
    FormatAsReordered(b);
    if ParseYmd(a) != MaxDate {
      ExpandedDatesSingle(ParseYmd(a));
    }
  }
}
