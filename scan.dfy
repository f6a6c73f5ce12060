/**
 * The pure parts of scan.go: the result records, the classifier that turns
 * the scanner's text into a verdict, and the two ways the "updated" date is
 * obtained. What the source gets from subprocesses and files (the engine and
 * database versions, the marker file) arrives here as parameters.
 */
module Scan {
  import opened Maybe
  import opened GoStrings
  import opened GoTime

  /** `ResultsData`: one verdict with the scanner's metadata. */
  datatype ResultsData = ResultsData(
    infected: bool,
    result: string,
    engine: string,
    database: string,
    updated: string)

  /** `Avast`: the object the plugin prints and returns. */
  datatype Avast = Avast(results: ResultsData)

  /** The `error` that `ParseAvastOutput` can return. */
  datatype ParseError = ParseError(message: string)

  /** What `ParseAvastOutput` returns: a verdict and an error, nil or not. */
  datatype Parsed = Parsed(results: ResultsData, err: Option<ParseError>)

  /** Why a scan ends without a result: `utils.Assert` on an error (a fatal log), or a run-time panic. */
  datatype Abort =
    | DaemonStartFailed
    | ScanFailed
    | VersionQueryFailed
    | DatabaseQueryFailed
    | MarkerReadFailed
    | FieldIndexOutOfRange
    | RetryScanFailed
    | RetryParseFailed

  datatype Outcome<T> = Done(value: T) | Aborted(reason: Abort)

  /** The engine version, database version and updated date that the classifier copies into its verdict. */
  datatype Metadata = Metadata(engine: string, database: string, updated: string)

  /** The token the scanner prints for a clean file. */
  const OkSentinel := "[OK]"

  /** Text the classifier can handle: clean, or with a tab so that there is a second field. */
  predicate Classifiable(avastout: string) {
    Contains(avastout, OkSentinel) || '\t' in avastout
  }

  /**
   * The detection label field of the scanner's report: the text after the
   * first tab, up to the next tab or the end.
   */
  function LabelField(avastout: string): string
    requires '\t' in avastout
  {
    var i := IndexByte(avastout, '\t');
    var rest := avastout[i + 1..];
    var j := IndexByte(rest, '\t');
    if j < 0 then rest else rest[..j]
  }

  /**
   * `ParseAvastOutput` with the metadata it queries given as parameters.
   * The verdict is infected exactly when "[OK]" occurs nowhere in the
   * text; an infected verdict carries the trimmed label field, a clean one
   * an empty label; the metadata is copied unchanged and the error is
   * always nil. An infected report without a tab makes Go index past the
   * split, which the precondition excludes.
   */
  function ParseAvastOutput(avastout: string, path: string, engine: string, database: string, updated: string): (r: Parsed)
    requires Classifiable(avastout)
    ensures r.err == None
    ensures r.results.engine == engine && r.results.database == database && r.results.updated == updated
    ensures r.results.infected <==> !Contains(avastout, OkSentinel)
    ensures !r.results.infected ==> r.results.result == ""
    ensures r.results.infected ==> r.results.result == TrimSpace(LabelField(avastout))
    ensures Trimmed(r.results.result)
  {
    var avast := ResultsData(false, "", engine, database, updated);
    var result := Split(avastout, '\t');
    if !Contains(avastout, OkSentinel) then
      SplitSecondPiece(avastout, '\t');
      Parsed(avast.(infected := true, result := TrimSpace(result[1])), None)
    else
      Parsed(avast, None)
  }

  /** "[OK]" anywhere makes the whole report clean, whatever else it says. */
  lemma OkAnywhereIsClean(before: string, after: string, path: string, meta: Metadata)
    ensures Classifiable(before + OkSentinel + after)
    ensures ParseAvastOutput(before + OkSentinel + after, path, meta.engine, meta.database, meta.updated).results
         == ResultsData(false, "", meta.engine, meta.database, meta.updated)
  {
    ContainsInContext(before, OkSentinel, after);
  }

  /**
   * A report line "path<TAB>label" without "[OK]" is infected, with the
   * label trimmed; anything after a second tab is not part of the label.
   */
  lemma InfectedLine(file: string, name: string, tail: string, meta: Metadata)
    requires '\t' !in file && '\t' !in name
    requires !Contains(file + "\t" + name + tail, OkSentinel)
    requires tail == [] || tail[0] == '\t'
    ensures Classifiable(file + "\t" + name + tail)
    ensures ParseAvastOutput(file + "\t" + name + tail, file, meta.engine, meta.database, meta.updated).results
         == ResultsData(true, TrimSpace(name), meta.engine, meta.database, meta.updated)
  {
    LabelFieldOfLine(file, name, tail);
  }

  /** The label field of "path<TAB>label..." is the label. */
  lemma LabelFieldOfLine(file: string, name: string, tail: string)
    requires '\t' !in file && '\t' !in name
    requires tail == [] || tail[0] == '\t'
    ensures '\t' in file + "\t" + name + tail
    ensures LabelField(file + "\t" + name + tail) == name
  {
    var s := file + "\t" + name + tail;
    assert s[|file|] == '\t' && s[..|file|] == file;
    IndexByteAt(s, '\t', |file|);
    var rest := s[|file| + 1..];
    assert rest == name + tail;
    if tail == [] {
      assert rest == name;
    } else {
      assert rest[|name|] == '\t' && rest[..|name|] == name;
      IndexByteAt(rest, '\t', |name|);
    }
  }

  /**
   * The parse step as `AvScan` sees it: Go panics on an infected report
   * without a tab, before any verdict exists; otherwise `ParseAvastOutput`.
   */
  function AvastParseStep(avastout: string, path: string, meta: Metadata): Outcome<Parsed> {
    if !Contains(avastout, OkSentinel) && |Split(avastout, '\t')| < 2 then Aborted(FieldIndexOutOfRange)
    else Done(ParseAvastOutput(avastout, path, meta.engine, meta.database, meta.updated))
  }

  /** `ParseAvastOutput` never returns an error; it fails only by panicking, on exactly the unclassifiable reports. */
  lemma AvastParseNeverErrs(avastout: string, path: string, meta: Metadata)
    ensures AvastParseStep(avastout, path, meta).Aborted? <==> !Classifiable(avastout)
    ensures AvastParseStep(avastout, path, meta).Aborted? ==> AvastParseStep(avastout, path, meta).reason == FieldIndexOutOfRange
    ensures AvastParseStep(avastout, path, meta).Done? ==> AvastParseStep(avastout, path, meta).value.err == None
  {
  }

  /** Empty scanner output, as from a daemon not yet ready, makes Go panic instead of returning a parse error. */
  lemma EmptyOutputPanics(path: string, meta: Metadata)
    ensures AvastParseStep("", path, meta) == Aborted(FieldIndexOutOfRange)
  {
    assert !Contains("", OkSentinel);
  }

  /**
   * The classifier as the retry in `AvScan` expects it to behave: a report
   * that has neither "[OK]" nor a tab is a parse error, not a panic; every
   * other report is classified as `ParseAvastOutput` does.
   */
  function ParseAvastOutputChecked(avastout: string, path: string, meta: Metadata): (r: Parsed)
    ensures r.err.Some? <==> !Classifiable(avastout)
    ensures r.err.None? ==> r == ParseAvastOutput(avastout, path, meta.engine, meta.database, meta.updated)
  {
    if !Contains(avastout, OkSentinel) && '\t' !in avastout then
      Parsed(ResultsData(false, "", meta.engine, meta.database, meta.updated), Some(ParseError("no tab-separated label in scanner output")))
    else ParseAvastOutput(avastout, path, meta.engine, meta.database, meta.updated)
  }

  function CheckedParseStep(avastout: string, path: string, meta: Metadata): Outcome<Parsed> {
    Done(ParseAvastOutputChecked(avastout, path, meta))
  }

  /**
   * `%d%02d%02d` of a moment's year, month and day: the decimal year
   * followed by the month and the day as two digits each.
   */
  function DateDigits(t: Moment): (r: string)
    requires t.month < 100 && t.day < 100
    ensures |r| >= 5 && AllDigits(r)
    ensures DecimalValue(r[..|r| - 4]) == t.year
    ensures DecimalValue(r[|r| - 4..|r| - 2]) == t.month
    ensures DecimalValue(r[|r| - 2..]) == t.day
    // `%d` writes no leading zero: the year part starts with '0' only for the year 0, written "0".
    ensures r[0] == '0' ==> t.year == 0 && |r| == 5
  {
    assert Pow10(2) == 100;
    ZeroPadWidth(t.month, 2);
    ZeroPadWidth(t.day, 2);
    var y, m, d := Decimal(t.year), ZeroPad(t.month, 2), ZeroPad(t.day, 2);
    assert (y + m + d)[..|y + m + d| - 4] == y;
    assert (y + m + d)[|y + m + d| - 4..|y + m + d| - 2] == m;
    assert (y + m + d)[|y + m + d| - 2..] == d;
    y + m + d
  }

  /** For a four-digit year `%d%02d%02d` is the "20060102" layout. */
  lemma DateDigitsFourDigitYear(t: Moment)
    requires 1000 <= t.year <= 9999 && t.month < 100 && t.day < 100
    ensures DateDigits(t) == FormatDate8(t) && |DateDigits(t)| == 8
  {
    FourDigits(t.year);
    assert Pow10(2) == 100;
    ZeroPadWidth(t.month, 2);
    ZeroPadWidth(t.day, 2);
  }

  /** The zero time gives "10101". */
  lemma ZeroTimeDigits()
    ensures DateDigits(ZeroTime) == "10101"
  {
    assert Decimal(1) == "1";
    assert ZeroPad(1, 2) == "01";
  }

  /**
   * `parseUpdatedDate`: the `%d%02d%02d` digits of the date read with the
   * RFC 1123 layout; a date that does not parse gives the zero time,
   * January 1 of year 1, and so "10101".
   */
  function ParseUpdatedDate(date: string): (r: string)
    ensures ParseLayout(date).None? ==> r == "10101"
    ensures ParseLayout(date).Some? ==> r == DateDigits(ParseLayout(date).value)
  {
    var parsed := ParseLayout(date);
    if parsed.None? then ZeroTimeDigits(); DateDigits(ZeroTime)
    else DateDigits(parsed.value)
  }

  /** For a year from 1000 to 9999 the updated date is exactly the eight digits "20060102" gives. */
  lemma UpdatedDateEightDigits(date: string)
    requires ParseLayout(date).Some? && ParseLayout(date).value.year >= 1000
    ensures |ParseUpdatedDate(date)| == 8 && AllDigits(ParseUpdatedDate(date))
    ensures ParseUpdatedDate(date) == FormatDate8(ParseLayout(date).value)
  {
    DateDigitsFourDigitYear(ParseLayout(date).value);
  }

  /** A date written in the RFC 1123 layout comes back as its "20060102" form, for four-digit years. */
  lemma UpdatedDateOfFormatted(m: Moment, weekday: nat)
    requires ValidMoment(m) && weekday < 7 && m.year >= 1000
    ensures ParseUpdatedDate(FormatLayout(m, weekday)) == FormatDate8(m)
  {
    ParseFormatLayout(m, weekday);
    UpdatedDateEightDigits(FormatLayout(m, weekday));
  }

  /** The zero-padded fields of the example date. */
  lemma ExampleYear()
    ensures ZeroPad(2006, 4) == "2006"
  {
    FourDigits(2006);
    assert Decimal(200) == "200";
  }

  lemma ExamplePadding()
    ensures ZeroPad(2, 2) == "02" && ZeroPad(1, 2) == "01"
    ensures ZeroPad(15, 2) == "15" && ZeroPad(4, 2) == "04" && ZeroPad(5, 2) == "05"
  {
    TwoDigitPad(2);
    TwoDigitPad(1);
    TwoDigitPad(15);
    TwoDigitPad(4);
    TwoDigitPad(5);
  }

  /** The reference time of Go's layouts, written in the RFC 1123 layout, one part at a time. */
  lemma ExampleDayPart()
    ensures FormatDayPart(Moment(2006, 1, 2, 15, 4, 5), 1) == "Mon, 02"
  {
    TwoDigitPad(2);
  }

  lemma ExampleMonthYearPart()
    ensures FormatMonthYearPart(Moment(2006, 1, 2, 15, 4, 5)) == " Jan 2006"
  {
    ExampleYear();
  }

  lemma ExampleClockPart()
    ensures FormatClockPart(Moment(2006, 1, 2, 15, 4, 5)) == " 15:04:05"
  {
    TwoDigitPad(15);
    TwoDigitPad(4);
    TwoDigitPad(5);
  }

  lemma ExampleFormatted()
    ensures FormatLayout(Moment(2006, 1, 2, 15, 4, 5), 1) == "Mon, 02 Jan 2006 15:04:05 +0000"
  {
    ExampleDayPart();
    ExampleMonthYearPart();
    ExampleClockPart();
  }

  /** The reference date in the "20060102" layout. */
  lemma ExampleDate8()
    ensures FormatDate8(Moment(2006, 1, 2, 15, 4, 5)) == "20060102"
  {
    ExampleYear();
    ExamplePadding();
  }

  /** A scanner update date in the RFC 1123 layout becomes "20060102". */
  lemma UpdatedDateExample()
    ensures ParseUpdatedDate("Mon, 02 Jan 2006 15:04:05 +0000") == "20060102"
  {
    var m := Moment(2006, 1, 2, 15, 4, 5);
    assert ValidMoment(m);
    UpdatedDateOfFormatted(m, 1);
    ExampleFormatted();
    ExampleDate8();
  }

  /** The marker file "/opt/malice/UPDATED" as `getUpdatedDate` finds it. */
  datatype MarkerFile = Absent | Present(contents: string) | Unreadable

  /**
   * `getUpdatedDate`: the build time when the marker file does not exist,
   * its contents when it does, a fatal error when it cannot be read.
   */
  function GetUpdatedDate(marker: MarkerFile, buildTime: string): (r: Outcome<string>)
    ensures r.Aborted? <==> marker.Unreadable?
    ensures r.Aborted? ==> r.reason == MarkerReadFailed
    ensures r.Done? ==> r.value == if marker.Present? then marker.contents else buildTime
  {
    match marker
    case Absent => Done(buildTime)
    case Present(contents) => Done(contents)
    case Unreadable => Aborted(MarkerReadFailed)
  }

  /** The marker file as `updateAV` leaves it: the date of the update in the "20060102" layout. */
  function MarkerAfterUpdate(now: Moment): (f: MarkerFile)
    ensures f.Present? && f.contents == FormatDate8(now)
  {
    Present(FormatDate8(now))
  }

  /**
   * After an update the updated date is the update's date as eight digits
   * in the "20060102" layout, the same digits `parseUpdatedDate` makes of
   * that date in the RFC 1123 layout (`UpdatedDateOfFormatted`).
   */
  lemma UpdatedAfterUpdate(now: Moment, buildTime: string)
    requires ValidMoment(now) && now.year >= 1000
    ensures GetUpdatedDate(MarkerAfterUpdate(now), buildTime) == Done(FormatDate8(now))
    ensures |FormatDate8(now)| == 8 && AllDigits(FormatDate8(now))
  {
    DateDigitsFourDigitYear(now);
  }

  /**
   * Marker contents are returned as they are, whatever they hold, not passed
   * through `parseUpdatedDate`: contents that are not an RFC 1123 date stay
   * as written instead of becoming "10101".
   */
  lemma MarkerNotReformatted(contents: string, buildTime: string)
    ensures GetUpdatedDate(Present(contents), buildTime) == Done(contents)
    ensures ParseLayout(contents).None? && contents != "10101"
            ==> GetUpdatedDate(Present(contents), buildTime) != Done(ParseUpdatedDate(contents))
  {
  }

  /** Without a marker file the build time is used as it is, whatever its form. */
  lemma BuildTimeFallback(buildTime: string)
    ensures GetUpdatedDate(Absent, buildTime) == Done(buildTime)
  {
  }
}
