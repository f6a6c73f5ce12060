# Avast plugin scan core in Dafny

This project models the core of the Malice Avast plugin's `scan.go`:

- the records the plugin produces: `ResultsData` and `Avast`;
- `ParseAvastOutput`, which turns the scanner's report into a verdict.
  It checks for "[OK]" anywhere in the text. It splits on tabs. It takes
  the trimmed second field as the detection label. It copies the engine
  version, database version and updated date into the verdict;
- `AvScan`, which starts the scanner daemon under a ten-second deadline,
  sets one deadline from the caller's timeout, runs `scan -abfu <path>`
  and classifies the report, and runs and classifies once more only when
  the first classification returned an error;
- the metadata queries `getAvastVersion` (`/bin/scan -v`) and
  `getAvastVPS` (`/bin/scan -V`), each trimmed;
- `parseUpdatedDate`: `time.Parse` with the layout
  "Mon, 02 Jan 2006 15:04:05 +0000" (the RFC 1123 date of section 5.2.14
  of RFC 1123), then `%d%02d%02d` of year, month and day. A failed parse
  formats the zero time, which gives "10101";
- `getUpdatedDate`: the contents of the marker file `/opt/malice/UPDATED`,
  or the build time. `updateAV` writes that marker as today's date in the
  "20060102" layout.

The modules are:

| Module | File | What it holds |
|---|---|---|
| `Maybe` | `maybe.dfy` | An `Option` type. |
| `GoStrings` | `go_strings.dfy` | `strings.Contains`, `IndexByte`, `Split`/`Join` on one character, and `TrimSpace` with Go's `unicode.IsSpace` set. |
| `GoTime` | `go_time.dfy` | `%d` and `%0Nd`; `time.Parse` restricted to the one layout; `Time.Format` for that layout and for "20060102". |
| `Scan` | `scan.dfy` | The records, the classifier, the date functions and the marker file. |
| `Process` | `process.dfy` | The process runner. It answers each command from a script of replies, keeps a clock in whole seconds and logs every command with its deadline. The `Runner` class holds that state. |
| `Orchestrator` | `orchestrator.dfy` | The queries, one scan attempt and `AvScan`. Each is a method on a `Runner`, proved equal to a specification function of the old state. Lemmas about those functions give the retry rules. |

`utils.RunCommand` is not part of this model. In its place, the runner
finishes a command at the current clock plus the reply's duration. A
command bound to a deadline that it does not beat is killed at the
deadline and fails with a timeout. `utils.Assert` on an error is a fatal
log; here it is an `Aborted` outcome that names the failing step.

The classification step of a scan is a function-valued parameter
(`Orchestrator.Classifier`). `AvastParseStep` is the step scan.go has.
It panics on an infected report without a tab, and otherwise returns
`ParseAvastOutput`'s verdict. `CheckedParseStep` is the corrected step
under "## Findings".

Facts about scan.go that the model follows:

- The clean sentinel "[OK]" is searched for in the whole output, not line
  by line (scan.go:101).
- `ParseAvastOutput` always returns a nil error (scan.go:106). Malformed
  output panics when it indexes the split (scan.go:103; see "## Findings").
- `getUpdatedDate` returns `BuildTime` unchanged when there is no marker
  file (scan.go:132), and `parseUpdatedDate` is never called.
- The version queries run with a nil context (scan.go:111, 118), so they
  have no deadline.

## Model

| member | source | states |
|---|---|---|
| `Scan.ParseAvastOutput` | scan.go:88-107 | For a report with "[OK]" or a tab: the error is nil and the metadata is copied unchanged. The verdict is infected exactly when "[OK]" occurs nowhere. A clean verdict has an empty label. An infected one has the trimmed text between the first tab and the next tab or the end. The label never starts or ends with white space. |
| `Scan.OkAnywhereIsClean` | scan.go:92-104 | "[OK]" anywhere in the text, whatever surrounds it, gives exactly the clean verdict: not infected, empty label, metadata unchanged. |
| `Scan.InfectedLine` | scan.go:99-103 | A report "path TAB label", optionally followed by a further tab and more text, without "[OK]", gives exactly an infected verdict with the trimmed label. |
| `Scan.LabelFieldOfLine` | scan.go:99-103 | The label field of "path TAB label [TAB ...]" is the label. |
| `Scan.AvastParseNeverErrs` | scan.go:99-106 | The as-written parse step fails exactly on reports with neither "[OK]" nor a tab, always by the index panic. When it succeeds its error is nil. |
| `Scan.EmptyOutputPanics` | scan.go:99-103 | Empty scanner output makes the as-written parse step panic. |
| `Scan.ParseAvastOutputChecked` | scan.go:72-80 | Corrected classifier: it returns an error exactly when the report has neither "[OK]" nor a tab. Otherwise its verdict is `ParseAvastOutput`'s. |
| `Scan.DateDigits` | scan.go:127 | `%d%02d%02d`: only digits, at least five of them. The text before the last four denotes the year, the next two the month, the last two the day. The year is written without leading zeros: the text starts with '0' only for the year 0, and then it is five characters long. |
| `Scan.DateDigitsFourDigitYear` | scan.go:127 | For years 1000 to 9999 it is exactly 8 characters, the same as the "20060102" layout. |
| `Scan.ZeroTimeDigits` | scan.go:126-127 | The zero time gives "10101". |
| `Scan.ParseUpdatedDate` | scan.go:124-128 | A date that does not parse in the RFC 1123 layout gives "10101". One that parses gives the `%d%02d%02d` digits of the parsed time. |
| `Scan.UpdatedDateEightDigits` | scan.go:124-128 | For a parsed year of at least 1000: exactly 8 decimal digits, equal to the "20060102" form of the parsed time. |
| `Scan.UpdatedDateOfFormatted` | scan.go:124-128 | For any valid time with a four-digit year, any weekday: a date written in the RFC 1123 layout comes back as that time's "20060102" form. |
| `Scan.UpdatedDateExample` | scan.go:124-128 | "Mon, 02 Jan 2006 15:04:05 +0000" gives "20060102". |
| `Scan.UpdatedAfterUpdate` | scan.go:146-147 | After an update writes the marker, the updated date is the update day's "20060102" form: 8 digits. |
| `Scan.GetUpdatedDate` | scan.go:130-137 | Fails exactly when the marker file cannot be read, with the marker read failure. Otherwise it gives the marker's contents when the file exists, else the build time. |
| `Scan.MarkerAfterUpdate` | scan.go:146-147 | The marker file exists after an update and holds `FormatDate8` of the update time. |
| `Scan.MarkerNotReformatted` | scan.go:134-136 | Marker contents, whatever they hold, are returned verbatim. When they are not an RFC 1123 date and are not "10101", that differs from what `parseUpdatedDate` would make of them. |
| `Scan.AvastParseStep` | scan.go:99-106 | See `Scan.AvastParseNeverErrs`. The as-written step aborts with the index panic exactly on reports with neither "[OK]" nor a tab. Otherwise it gives `ParseAvastOutput`'s verdict with a nil error. |
| `Scan.BuildTimeFallback` | scan.go:131-133 | Without a marker file the build time is returned verbatim. |
| `GoStrings.Contains` | scan.go:101 | True exactly when the text occurs at some position. |
| `GoStrings.IndexByte` | scan.go:99 | The first index of the character, or -1 exactly when it does not occur. |
| `GoStrings.IndexByteAt` | scan.go:99 | An occurrence with none before it is the one `IndexByte` finds. |
| `GoStrings.Split` | scan.go:99 | At least one piece. More than one exactly when the separator occurs. No piece holds the separator. Joining the pieces gives the text back. |
| `GoStrings.SplitJoin` | scan.go:99 | Splitting a join of separator-free pieces gives the pieces back. |
| `GoStrings.SplitSecondPiece` | scan.go:99-103 | The second piece is the text after the first separator, up to the next separator or the end. |
| `GoStrings.SpaceEnd` | scan.go:103 | The first index at or after the start that is not white space: everything before it is. |
| `GoStrings.SpaceStart` | scan.go:103 | The start of the white-space run that ends at the given index, but not before the lower bound. |
| `GoStrings.TrimSpace` | scan.go:103 | The result has no white space at either end and is no longer than the input. |
| `GoStrings.TrimSpaceCutsSpace` | scan.go:103 | The result is a piece of the input. Everything cut from either side is white space. |
| `GoStrings.TrimSpaceUnique` | scan.go:103 | White space, then a piece with non-space ends, then white space, trims to exactly that piece. |
| `GoStrings.TrimSpaceIdempotent` | scan.go:103 | Trimming twice is trimming once. |
| `GoTime.Decimal` | scan.go:127 | `%d`: digits denoting the number, with no leading zero unless the number is 0. |
| `GoTime.ZeroPad` | scan.go:127 | `%0Nd`: digits denoting the number, as long as N or as the number's own digits if those are longer. |
| `GoTime.ZeroPadWidth` | scan.go:127 | A number below 10^N pads to exactly N digits. |
| `GoTime.FourDigits` | scan.go:127 | From 1000 to 9999, `%d` has four digits and agrees with `%04d`. |
| `GoTime.TwoDigitPad` | scan.go:127 | `%02d` of a number below 100 is its tens digit, then its units digit. |
| `GoTime.ParseLayout` | scan.go:125-126 | A parsed time is a valid calendar time: month 1-12, day within the month (leap years included), hour < 24, minute and second < 60, year ≤ 9999. |
| `GoTime.ParseFormatLayout` | scan.go:125-126 | Parsing a valid time written in the layout, with any weekday, gives that time back. |
| `GoTime.ParseFormatDayPart` | scan.go:125-126 | "Mon, 02" parses back to its day, whatever follows. |
| `GoTime.ParseFormatMonthYearPart` | scan.go:125-126 | " Jan 2006" parses back to its month and year, whatever follows. |
| `GoTime.ParseFormatClockPart` | scan.go:125-126 | " 15:04:05" parses back to its hour, minute and second, whatever follows. |
| `GoTime.FormatDate8` | scan.go:146 | `t.Format("20060102")`: digits only, at least eight. For years below 10000 it is exactly eight: four for the year, two for the month, two for the day. |
| `GoTime.FindNameAt` | scan.go:125-126 | In a table where no name matches an earlier one up to case, the time package's table scan finds each name at its own index. |
| `GoTime.MonthLookup` | scan.go:125-126 | The time package's `lookup` of a month name finds that month, whatever follows. |
| `GoTime.DayLookup` | scan.go:125-126 | The time package's `lookup` of a day name finds that day, whatever follows. |
| `Process.Exec` | scan.go:59-70 | A run with no deadline, or one that ends before its deadline, gives its own reply (its output, or a failure) when its duration is over. A run still going at the deadline is killed then and reports a timeout. A run started at or after its deadline fails at once with a timeout. A successful run under a deadline ended before it. |
| `Process.RunIn` | scan.go:62 | A run logs exactly one command, with its deadline and start time, and never turns the clock back. |
| `Process.Runner.Run` | scan.go:62 | The runner's new state and result are those `RunIn` gives for its old state. |
| `Orchestrator.QuerySpec` | scan.go:110-115 | A query adds one log entry with no deadline and advances the clock by the reply's duration. It fails, with its own reason, exactly when the command fails. |
| `Orchestrator.QueryTrims` | scan.go:114 | A successful query returns the command's output trimmed. |
| `Orchestrator.GetAvastVersion` | scan.go:110-115 | `/bin/scan -v` on the runner: result and new state as `QuerySpec` gives them. |
| `Orchestrator.GetAvastVPS` | scan.go:117-122 | `/bin/scan -V` on the runner: result and new state as `QuerySpec` gives them. |
| `Orchestrator.MetadataSpec` | scan.go:92-97 | The metadata step only appends commands: the version query, then possibly the database query. It never turns the clock back. |
| `Orchestrator.SmoothMetadata` | scan.go:92-97 | When both queries succeed and the marker is readable, the metadata is the two trimmed outputs and the updated date. |
| `Orchestrator.MetadataReasons` | scan.go:94-96 | The metadata step fails only because a query failed or the marker could not be read. |
| `Orchestrator.ParseSpec` | scan.go:88-107 | Classifying a report leaves the runner where the metadata queries leave it. |
| `Orchestrator.ParseAvastOutputRun` | scan.go:88-107 | The metadata queries, then the classifier, on the runner: result and new state as `ParseSpec` gives them. |
| `Orchestrator.AttemptSpec` | scan.go:70-72 | An attempt appends the scan command under the given deadline, then only metadata queries. It never turns the clock back. |
| `Orchestrator.AttemptEntriesScans` | scan.go:70-72 | An attempt's commands hold exactly one scan, and it runs under the attempt's deadline. |
| `Orchestrator.AttemptReasons` | scan.go:70-72 | With a classifier that never fails, an attempt fails only because its scan or a query failed, or the marker could not be read. |
| `Orchestrator.ScanAttempt` | scan.go:70-72 | One attempt on the runner: result and new state as `AttemptSpec` gives them. |
| `Orchestrator.ScanCountExact` | scan.go:59-80 | Any classifier. Daemon start first, under now + 10 s. Scan count: 0 if the daemon start failed, 2 if the first classification returned an error, else 1. Every scan uses the one deadline set when the daemon start ends. |
| `Orchestrator.AtMostTwoScans` | scan.go:70-80 | A scan runs the scanner at most twice. |
| `Orchestrator.AsWrittenNeverRetries` | scan.go:72-74 | With scan.go's classifier no attempt asks for the retry. |
| `Orchestrator.AsWrittenScansOnce` | scan.go:70-80 | As written, the scanner runs exactly once when the daemon starts, and never otherwise. |
| `Orchestrator.RetryStarved` | scan.go:67-77 | When the first attempt has used up the shared deadline, the retry is killed at once and the scan fails. |
| `Orchestrator.AsWrittenMalformedPanics` | scan.go:70-80 | As written, a first report with neither "[OK]" nor a tab ends the scan in the index panic after one scan. |
| `Orchestrator.CheckedRetriesMalformed` | scan.go:72-76 | With the corrected classifier, such a report makes the first attempt ask for the retry. |
| `Orchestrator.NoPanicWithoutClassifierFailure` | scan.go:56-85 | With a classifier that never fails, no scan ends in the index panic. |
| `Orchestrator.CheckedNeverPanics` | scan.go:72-80 | With the corrected classifier, no scan ends in the index panic. |
| `Orchestrator.SmoothFirstAttempt` | scan.go:67-72 | When every command succeeds in time, the first attempt applies the classifier to the scan's output, the trimmed query outputs and the updated date. |
| `Orchestrator.SmoothScan` | scan.go:56-85 | As written, such a run over a classifiable report ends with `ParseAvastOutput`'s verdict for that output and metadata. |
| `Orchestrator.DaemonSpec` | scan.go:59-63 | The daemon start is one logged command with a ten-second deadline from the current clock. It takes at most those ten seconds. It succeeds exactly when the reply succeeds within them. |
| `Orchestrator.AvScanSpec` | scan.go:56-85 | A daemon that does not start aborts the scan right after the daemon command. A verdict is the first attempt's when that came without an error, else the retry's, which must itself be error-free. A retry whose classification errs again is fatal. Log order and scan counts are in `Orchestrator.ScanCountExact`. |
| `Orchestrator.AvScanWith` | scan.go:56-85 | `AvScan` with any classifier, on the runner: result and new state as `AvScanSpec` gives them. |
| `Orchestrator.AvScan` | scan.go:56-85 | `AvScan` as written, on the runner: as `AvScanSpec` with scan.go's classifier. The log only grows. The scanner runs once if the daemon started, else never. |
| `Orchestrator.AvScanChecked` | scan.go:56-85 | `AvScan` with the corrected classifier: as `AvScanSpec`, and never the index panic. |

## Left out

- Real process execution is replaced by the scripted runner. That covers `utils.RunCommand`, the daemon start, the version queries and `updateAV`'s signature update. The clock counts whole seconds. Process output is given as text.
- `updateAV`: only the marker it writes is modelled (`Scan.MarkerAfterUpdate`). The update run, `time.Now()` and the file write are I/O.
- Concurrency: the unsynchronised daemon start of concurrent scans, and context cancellation from an HTTP client, are not modelled.
- The daemon start does not change how later commands behave. The script alone decides each reply.
- The marker file is replaced by the `MarkerFile` value: absent, present with contents, or unreadable. That covers `os.Stat` and `ioutil.ReadFile` in `getUpdatedDate`, and `ioutil.WriteFile` in `updateAV`. The other file-system calls are left out with their callers: `ioutil.TempFile` and `os.Remove` belong to the HTTP handler `webAvScan` (scan.go:189-193), and `filepath.Abs` to `main` (scan.go:289).
- Left out as I/O, foreign libraries or process wiring: the HTTP service (`webService`, `webAvScan`), the webhook and proxy, the Elasticsearch write, the SHA-256 identifier, the markdown table, JSON encoding, the command-line wiring and logging.
- `Process.Exec`: a reply's duration is a finite `nat`, so every modelled command ends. A version query that never returns would hang scan.go forever, because it runs with a nil context (scan.go:111, 118). The model does not capture that hang: every modelled `AvScan` terminates.
- `Process.Exec`: `time.Duration(timeout)*time.Second` overflow for huge timeouts is not modelled. Timeouts are unbounded integers, and a non-positive one gives a deadline already past.
- Text is a sequence of Unicode scalar values, not bytes. `TrimSpace` uses the full `unicode.IsSpace` set. Invalid UTF-8 is not modelled.
- `GoTime.ParseLayout` covers only the one layout scan.go uses. The weekday name is checked but not compared with the date, as in Go. Other layouts, zone offsets, and years outside 0-9999 are not modelled.
- `GoTime.FormatLayout` takes the weekday as a parameter instead of computing it from the date; `time.Parse` ignores it.
- `Scan.UpdatedAfterUpdate`: stated for years 1000 to 9999, where "20060102" has exactly eight digits.

## Findings

| source | as written | input that shows it | evidently intended | confidence | as-written member | corrected member |
|---|---|---|---|---|---|---|
| scan.go:72-106 | `ParseAvastOutput` always returns a nil error. `AvScan`'s retry on a parse error (line 74, "If fails try a second time") can never run. Output with neither "[OK]" nor a tab panics at `result[1]` (line 103) instead of being retried. | Empty scanner output, as from a daemon that is not ready yet: `Scan.EmptyOutputPanics`. | Malformed output is a parse error, and the scan retries it once under the same deadline. | not executed | `Scan.EmptyOutputPanics`, `Orchestrator.AsWrittenMalformedPanics`, `Orchestrator.AsWrittenScansOnce` | `Scan.ParseAvastOutputChecked`, `Orchestrator.CheckedRetriesMalformed`, `Orchestrator.CheckedNeverPanics`, `Orchestrator.AvScanChecked` |
