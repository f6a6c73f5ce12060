/**
 * `AvScan` and the metadata queries of scan.go over the scripted runner:
 * start the scanner daemon under a ten-second deadline, scan under the
 * caller's timeout, classify, and scan and classify once more only when
 * the first classification returned an error, under the same deadline.
 * `AvScanSpec` says what one call does to the runner's state; the methods
 * are proved to do exactly that, and the lemmas state the retry rules.
 */
module Orchestrator {
  import opened Maybe
  import opened GoStrings
  import opened Scan
  import opened Process

  /** Seconds the daemon start may take. */
  const DaemonGrace := 10

  const DaemonArgv: seq<string> := ["/etc/init.d/avast", "start"]
  const VersionArgv: seq<string> := ["/bin/scan", "-v"]
  const DatabaseArgv: seq<string> := ["/bin/scan", "-V"]

  function ScanArgv(path: string): seq<string> {
    ["scan", "-abfu", path]
  }

  /** What `getUpdatedDate` looks at: the marker file and the build time. */
  datatype Env = Env(marker: MarkerFile, buildTime: string)

  /**
   * The classification step of a scan: the scanner's text, the scanned
   * path and the metadata, to a verdict or a failure. scan.go uses
   * `AvastParseStep`; `CheckedParseStep` is the classifier that reports
   * malformed output as an error.
   */
  type Classifier = (string, string, Metadata) -> Outcome<Parsed>

  /** The number of scan commands for `path` among `entries`. */
  function ScanCount(entries: seq<Invocation>, path: string): nat {
    if entries == [] then 0
    else (if entries[0].argv == ScanArgv(path) then 1 else 0) + ScanCount(entries[1..], path)
  }

  lemma {:induction false} ScanCountAppend(a: seq<Invocation>, b: seq<Invocation>, path: string)
    ensures ScanCount(a + b, path) == ScanCount(a, path) + ScanCount(b, path)
    decreases |a|
  {
    if a == [] {
      assert a + b == b;
    } else {
      assert (a + b)[0] == a[0] && (a + b)[1..] == a[1..] + b;
      ScanCountAppend(a[1..], b, path);
    }
  }

  /** Every scan command for `path` among `entries` ran under `deadline`. */
  ghost predicate ScansUnder(entries: seq<Invocation>, path: string, deadline: int) {
    forall i :: 0 <= i < |entries| && entries[i].argv == ScanArgv(path) ==> entries[i].deadline == Some(deadline)
  }

  lemma ScansUnderAppend(a: seq<Invocation>, b: seq<Invocation>, path: string, deadline: int)
    requires ScansUnder(a, path, deadline) && ScansUnder(b, path, deadline)
    ensures ScansUnder(a + b, path, deadline)
  {
    forall i | 0 <= i < |a + b| && (a + b)[i].argv == ScanArgv(path)
      ensures (a + b)[i].deadline == Some(deadline)
    {
      if i >= |a| {
        assert (a + b)[i] == b[i - |a|];
      }
    }
  }

  /** `w'` is `w` after more commands have run: its log continues `w`'s. */
  ghost predicate Extends(w: World, w': World) {
    |w.log| <= |w'.log| && w'.log[..|w.log|] == w.log
  }

  /** The commands run from `w` to `w'`. */
  function Added(w: World, w': World): seq<Invocation>
    requires |w.log| <= |w'.log|
  {
    w'.log[|w.log|..]
  }

  /** Commands run in two stretches are the commands of the first, then those of the second. */
  lemma AddedChain(w1: World, w2: World, w3: World)
    requires Extends(w1, w2) && Extends(w2, w3)
    ensures Extends(w1, w3)
    ensures Added(w1, w3) == Added(w1, w2) + Added(w2, w3)
  {
    assert w3.log[..|w1.log|] == w3.log[..|w2.log|][..|w1.log|];
    assert w3.log[|w1.log|..] == w3.log[|w1.log|..|w2.log|] + w3.log[|w2.log|..];
    assert w3.log[|w1.log|..|w2.log|] == w3.log[..|w2.log|][|w1.log|..];
  }

  /**
   * `getAvastVersion` / `getAvastVPS`: run the query without a deadline;
   * its trimmed output, or a fatal error when the command fails.
   */
  function QuerySpec(script: nat -> Reply, w: World, argv: seq<string>, failure: Abort): (r: Step<Outcome<string>>)
    ensures r.world.log == w.log + [Invocation(argv, None, w.clock)]
    ensures Extends(w, r.world) && Added(w, r.world) == [Invocation(argv, None, w.clock)]
    ensures r.world.clock == w.clock + script(|w.log|).duration
    ensures r.result.Aborted? <==> !script(|w.log|).succeeded
    ensures r.result.Aborted? ==> r.result.reason == failure
  {
    var run := RunIn(script, w, argv, None);
    assert run.world.log[..|w.log|] == w.log;
    if run.result.Failed? then Step(Aborted(failure), run.world)
    else Step(Done(TrimSpace(run.result.output)), run.world)
  }

  /** A query that succeeds gives the reply's output with the surrounding white space removed. */
  lemma QueryTrims(script: nat -> Reply, w: World, argv: seq<string>, failure: Abort)
    requires script(|w.log|).succeeded
    ensures QuerySpec(script, w, argv, failure).result == Done(TrimSpace(script(|w.log|).output))
    ensures Trimmed(QuerySpec(script, w, argv, failure).result.value)
  {
  }

  /**
   * The metadata `ParseAvastOutput` gathers, in its order: the engine
   * version, then the database version, then the updated date. A failed
   * query or an unreadable marker file ends the scan.
   */
  function MetadataSpec(script: nat -> Reply, w: World, env: Env): (r: Step<Outcome<Metadata>>)
    ensures r.world.clock >= w.clock
    ensures Extends(w, r.world) && QueryEntries(Added(w, r.world))
  {
    var engine := QuerySpec(script, w, VersionArgv, VersionQueryFailed);
    if engine.result.Aborted? then Step(Aborted(engine.result.reason), engine.world) else
    var database := QuerySpec(script, engine.world, DatabaseArgv, DatabaseQueryFailed);
    AddedChain(w, engine.world, database.world);
    assert Added(w, database.world) == [Invocation(VersionArgv, None, w.clock), Invocation(DatabaseArgv, None, engine.world.clock)];
    if database.result.Aborted? then Step(Aborted(database.result.reason), database.world) else
    var updated := GetUpdatedDate(env.marker, env.buildTime);
    if updated.Aborted? then Step(Aborted(updated.reason), database.world) else
    Step(Done(Metadata(engine.result.value, database.result.value, updated.value)), database.world)
  }

  /** One call of `ParseAvastOutput`: the metadata, then the classifier on the scanner's text. */
  function ParseSpec(script: nat -> Reply, w: World, avastout: string, path: string, env: Env, c: Classifier): (r: Step<Outcome<Parsed>>)
    ensures r.world == MetadataSpec(script, w, env).world
  {
    var meta := MetadataSpec(script, w, env);
    if meta.result.Aborted? then Step(Aborted(meta.result.reason), meta.world)
    else Step(c(avastout, path, meta.result.value), meta.world)
  }

  /** The commands of the metadata queries: the engine version, then possibly the database version. */
  ghost predicate QueryEntries(entries: seq<Invocation>) {
    1 <= |entries| <= 2 && entries[0].argv == VersionArgv && (|entries| == 2 ==> entries[1].argv == DatabaseArgv)
  }

  /** The commands of one attempt: the scan under `deadline`, then the metadata queries if the scan succeeded. */
  ghost predicate AttemptEntries(entries: seq<Invocation>, path: string, deadline: int) {
    && |entries| >= 1
    && entries[0].argv == ScanArgv(path) && entries[0].deadline == Some(deadline)
    && (|entries| == 1 || QueryEntries(entries[1..]))
  }

  /** An attempt has one scan command, under its deadline. */
  lemma AttemptEntriesScans(entries: seq<Invocation>, path: string, deadline: int)
    requires AttemptEntries(entries, path, deadline)
    ensures ScanCount(entries, path) == 1
    ensures ScansUnder(entries, path, deadline)
  {
    assert |ScanArgv(path)| == 3;
    if |entries| == 1 {
      assert entries[1..] == [];
    } else {
      var q := entries[1..];
      assert q[0].argv != ScanArgv(path);
      if |q| == 2 {
        assert q[1].argv != ScanArgv(path);
        assert q[1..][1..] == [];
        assert ScanCount(q[1..], path) == 0;
      } else {
        assert q[1..] == [];
      }
      assert ScanCount(q, path) == 0;
      forall i | 1 <= i < |entries|
        ensures entries[i].argv != ScanArgv(path)
      {
        assert entries[i] == q[i - 1];
      }
    }
  }

  /** One scan attempt: the scan command under `deadline`, then the classifier on its output. */
  function AttemptSpec(script: nat -> Reply, w: World, path: string, deadline: int, env: Env, c: Classifier, scanFailure: Abort): (r: Step<Outcome<Parsed>>)
    ensures Extends(w, r.world) && r.world.clock >= w.clock
    ensures AttemptEntries(Added(w, r.world), path, deadline)
  {
    var run := RunIn(script, w, ScanArgv(path), Some(deadline));
    assert Added(w, run.world) == [Invocation(ScanArgv(path), Some(deadline), w.clock)];
    if run.result.Failed? then
      Step(Aborted(scanFailure), run.world)
    else
      var p := ParseSpec(script, run.world, run.result.output, path, env, c);
      AddedChain(w, run.world, p.world);
      assert Added(w, p.world)[1..] == Added(run.world, p.world);
      p
  }

  /** The daemon start: the first command, with the fixed grace period from the current clock. */
  function DaemonSpec(script: nat -> Reply, w: World): (r: Step<RunResult>)
    ensures r.world.log == w.log + [Invocation(DaemonArgv, Some(w.clock + DaemonGrace), w.clock)]
    ensures w.clock <= r.world.clock <= w.clock + DaemonGrace
    ensures r.result.Ran? <==> script(|w.log|).succeeded && script(|w.log|).duration < DaemonGrace
  {
    RunIn(script, w, DaemonArgv, Some(w.clock + DaemonGrace))
  }

  /** The deadline shared by both scan attempts: the clock when the daemon start ends, plus the timeout. */
  function ScanDeadline(script: nat -> Reply, w: World, timeout: int): int {
    DaemonSpec(script, w).world.clock + timeout
  }

  /** The first scan attempt, as the daemon start leaves the runner. */
  function FirstAttempt(script: nat -> Reply, w: World, path: string, timeout: int, env: Env, c: Classifier): Step<Outcome<Parsed>> {
    AttemptSpec(script, DaemonSpec(script, w).world, path, ScanDeadline(script, w, timeout), env, c, ScanFailed)
  }

  /** The retry, as the first attempt leaves the runner: the same deadline. */
  function RetryAttempt(script: nat -> Reply, w: World, path: string, timeout: int, env: Env, c: Classifier): Step<Outcome<Parsed>> {
    AttemptSpec(script, FirstAttempt(script, w, path, timeout, env, c).world, path, ScanDeadline(script, w, timeout), env, c, RetryScanFailed)
  }

  /** Whether a classification asks for the retry: it returned a verdict together with an error. */
  predicate WantsRetry(p: Outcome<Parsed>) {
    p.Done? && p.value.err.Some?
  }

  /** `AvScan`: what one scan does to the runner, and its outcome. */
  function AvScanSpec(script: nat -> Reply, w: World, path: string, timeout: int, env: Env, c: Classifier): (r: Step<Outcome<Avast>>)
    // A daemon that does not start ends the scan before any scan command.
    ensures DaemonSpec(script, w).result.Failed? ==> r == Step(Aborted(DaemonStartFailed), DaemonSpec(script, w).world)
    // A verdict is the first classification that came without an error: the first attempt's, or else the retry's.
    ensures r.result.Done? ==>
              DaemonSpec(script, w).result.Ran?
              && var first := FirstAttempt(script, w, path, timeout, env, c).result;
                 var retry := RetryAttempt(script, w, path, timeout, env, c).result;
                 first.Done?
                 && if first.value.err.None? then r.result.value.results == first.value.results
                    else retry.Done? && retry.value.err.None? && r.result.value.results == retry.value.results
    // A retry whose classification errs again is fatal.
    ensures DaemonSpec(script, w).result.Ran? && WantsRetry(FirstAttempt(script, w, path, timeout, env, c).result)
            && WantsRetry(RetryAttempt(script, w, path, timeout, env, c).result)
            ==> r.result == Aborted(RetryParseFailed)
  {
    var started := DaemonSpec(script, w);
    if started.result.Failed? then Step(Aborted(DaemonStartFailed), started.world) else
    var first := FirstAttempt(script, w, path, timeout, env, c);
    if first.result.Aborted? then Step(Aborted(first.result.reason), first.world)
    else if first.result.value.err.None? then Step(Done(Avast(first.result.value.results)), first.world)
    else
      var retry := RetryAttempt(script, w, path, timeout, env, c);
      if retry.result.Aborted? then Step(Aborted(retry.result.reason), retry.world)
      else if retry.result.value.err.Some? then Step(Aborted(RetryParseFailed), retry.world)
      else Step(Done(Avast(retry.result.value.results)), retry.world)
  }

  /** Counting and deadlines over two consecutive stretches of commands. */
  lemma StretchChain(w1: World, w2: World, w3: World, path: string, deadline: int)
    requires Extends(w1, w2) && Extends(w2, w3)
    ensures Extends(w1, w3)
    ensures ScanCount(Added(w1, w3), path) == ScanCount(Added(w1, w2), path) + ScanCount(Added(w2, w3), path)
    ensures ScansUnder(Added(w1, w2), path, deadline) && ScansUnder(Added(w2, w3), path, deadline)
            ==> ScansUnder(Added(w1, w3), path, deadline)
    ensures |Added(w1, w2)| >= 1 ==> Added(w1, w3)[0] == Added(w1, w2)[0]
  {
    AddedChain(w1, w2, w3);
    ScanCountAppend(Added(w1, w2), Added(w2, w3), path);
    if ScansUnder(Added(w1, w2), path, deadline) && ScansUnder(Added(w2, w3), path, deadline) {
      ScansUnderAppend(Added(w1, w2), Added(w2, w3), path, deadline);
    }
  }

  /** The daemon start is one command, and not a scan. */
  lemma DaemonEntry(script: nat -> Reply, w: World, path: string, deadline: int)
    ensures Extends(w, DaemonSpec(script, w).world)
    ensures Added(w, DaemonSpec(script, w).world) == [Invocation(DaemonArgv, Some(w.clock + DaemonGrace), w.clock)]
    ensures ScanCount(Added(w, DaemonSpec(script, w).world), path) == 0
    ensures ScansUnder(Added(w, DaemonSpec(script, w).world), path, deadline)
  {
    var daemon := Invocation(DaemonArgv, Some(w.clock + DaemonGrace), w.clock);
    assert Added(w, DaemonSpec(script, w).world) == [daemon];
    assert |ScanArgv(path)| == 3 && DaemonArgv != ScanArgv(path);
    assert [daemon][1..] == [];
  }

  // Where a scan leaves the runner, case by case.

  lemma AvScanWorldNoDaemon(script: nat -> Reply, w: World, path: string, timeout: int, env: Env, c: Classifier)
    requires DaemonSpec(script, w).result.Failed?
    ensures AvScanSpec(script, w, path, timeout, env, c).world == DaemonSpec(script, w).world
  {
  }

  lemma AvScanWorldFirst(script: nat -> Reply, w: World, path: string, timeout: int, env: Env, c: Classifier)
    requires DaemonSpec(script, w).result.Ran?
    requires !WantsRetry(FirstAttempt(script, w, path, timeout, env, c).result)
    ensures AvScanSpec(script, w, path, timeout, env, c).world == FirstAttempt(script, w, path, timeout, env, c).world
  {
  }

  lemma AvScanWorldRetry(script: nat -> Reply, w: World, path: string, timeout: int, env: Env, c: Classifier)
    requires DaemonSpec(script, w).result.Ran?
    requires WantsRetry(FirstAttempt(script, w, path, timeout, env, c).result)
    ensures AvScanSpec(script, w, path, timeout, env, c).world == RetryAttempt(script, w, path, timeout, env, c).world
  {
  }

  /**
   * The daemon is started before anything else, under its own ten-second
   * deadline; a scan runs the scanner once, and a second time exactly when
   * the first classification returned an error; with no daemon, no scan.
   * Every scan runs under the one deadline set after the daemon start.
   */
  lemma ScanCountExact(script: nat -> Reply, w: World, path: string, timeout: int, env: Env, c: Classifier)
    ensures var r := AvScanSpec(script, w, path, timeout, env, c);
            && Extends(w, r.world) && |Added(w, r.world)| >= 1
            && Added(w, r.world)[0] == Invocation(DaemonArgv, Some(w.clock + DaemonGrace), w.clock)
            && ScanCount(Added(w, r.world), path)
               == (if DaemonSpec(script, w).result.Failed? then 0
                   else if WantsRetry(FirstAttempt(script, w, path, timeout, env, c).result) then 2
                   else 1)
            && (DaemonSpec(script, w).result.Ran? ==> ScansUnder(Added(w, r.world), path, ScanDeadline(script, w, timeout)))
  {
    var started := DaemonSpec(script, w);
    var d := ScanDeadline(script, w, timeout);
    DaemonEntry(script, w, path, d);
    if started.result.Failed? {
      AvScanWorldNoDaemon(script, w, path, timeout, env, c);
    } else {
      var first := FirstAttempt(script, w, path, timeout, env, c);
      AttemptEntriesScans(Added(started.world, first.world), path, d);
      StretchChain(w, started.world, first.world, path, d);
      if !WantsRetry(first.result) {
        AvScanWorldFirst(script, w, path, timeout, env, c);
      } else {
        AvScanWorldRetry(script, w, path, timeout, env, c);
        var retry := RetryAttempt(script, w, path, timeout, env, c);
        AttemptEntriesScans(Added(first.world, retry.world), path, d);
        StretchChain(w, first.world, retry.world, path, d);
      }
    }
  }

  /** Hence the scanner runs at most twice in one scan. */
  lemma AtMostTwoScans(script: nat -> Reply, w: World, path: string, timeout: int, env: Env, c: Classifier)
    ensures Extends(w, AvScanSpec(script, w, path, timeout, env, c).world)
    ensures ScanCount(Added(w, AvScanSpec(script, w, path, timeout, env, c).world), path) <= 2
  {
    ScanCountExact(script, w, path, timeout, env, c);
  }

  /** With the classifier of scan.go no attempt ever asks for the retry. */
  lemma AsWrittenNeverRetries(script: nat -> Reply, w: World, path: string, deadline: int, env: Env, failure: Abort)
    ensures !WantsRetry(AttemptSpec(script, w, path, deadline, env, AvastParseStep, failure).result)
  {
    var run := RunIn(script, w, ScanArgv(path), Some(deadline));
    if run.result.Ran? {
      var meta := MetadataSpec(script, run.world, env).result;
      if meta.Done? {
        AvastParseNeverErrs(run.result.output, path, meta.value);
      }
    }
  }

  /** As written, a scan whose daemon starts runs the scanner exactly once: the retry cannot happen. */
  lemma AsWrittenScansOnce(script: nat -> Reply, w: World, path: string, timeout: int, env: Env)
    ensures Extends(w, AvScanSpec(script, w, path, timeout, env, AvastParseStep).world)
    ensures ScanCount(Added(w, AvScanSpec(script, w, path, timeout, env, AvastParseStep).world), path)
         == if DaemonSpec(script, w).result.Ran? then 1 else 0
  {
    ScanCountExact(script, w, path, timeout, env, AvastParseStep);
    AsWrittenNeverRetries(script, DaemonSpec(script, w).world, path, ScanDeadline(script, w, timeout), env, ScanFailed);
  }

  /**
   * The retry shares the first attempt's deadline: when the first attempt
   * and its classification have used up the timeout, the retry is killed
   * at once and the scan fails.
   */
  lemma RetryStarved(script: nat -> Reply, w: World, path: string, timeout: int, env: Env, c: Classifier)
    requires DaemonSpec(script, w).result.Ran?
    requires WantsRetry(FirstAttempt(script, w, path, timeout, env, c).result)
    requires FirstAttempt(script, w, path, timeout, env, c).world.clock >= ScanDeadline(script, w, timeout)
    ensures AvScanSpec(script, w, path, timeout, env, c).result == Aborted(RetryScanFailed)
  {
    var first := FirstAttempt(script, w, path, timeout, env, c);
    var run := RunIn(script, first.world, ScanArgv(path), Some(ScanDeadline(script, w, timeout)));
    assert run.result == Failed(true);
  }

  /** The first scan's run: the command after the daemon start, under the scan deadline. */
  function FirstScanRun(script: nat -> Reply, w: World, path: string, timeout: int): Step<RunResult> {
    RunIn(script, DaemonSpec(script, w).world, ScanArgv(path), Some(ScanDeadline(script, w, timeout)))
  }

  /**
   * As written, a first report with neither "[OK]" nor a tab, such as empty
   * output, ends the scan in the index panic after a single scan, although
   * `AvScan` has a retry for bad output.
   */
  lemma AsWrittenMalformedPanics(script: nat -> Reply, w: World, path: string, timeout: int, env: Env)
    requires DaemonSpec(script, w).result.Ran?
    requires FirstScanRun(script, w, path, timeout).result.Ran?
    requires !Classifiable(FirstScanRun(script, w, path, timeout).result.output)
    requires MetadataSpec(script, FirstScanRun(script, w, path, timeout).world, env).result.Done?
    ensures AvScanSpec(script, w, path, timeout, env, AvastParseStep).result == Aborted(FieldIndexOutOfRange)
    ensures ScanCount(Added(w, AvScanSpec(script, w, path, timeout, env, AvastParseStep).world), path) == 1
  {
    var run := FirstScanRun(script, w, path, timeout);
    var meta := MetadataSpec(script, run.world, env).result;
    AvastParseNeverErrs(run.result.output, path, meta.value);
    AsWrittenScansOnce(script, w, path, timeout, env);
  }

  /** With the checked classifier the same first report is a parse error, so the first attempt asks for the retry. */
  lemma CheckedRetriesMalformed(script: nat -> Reply, w: World, path: string, timeout: int, env: Env)
    requires DaemonSpec(script, w).result.Ran?
    requires FirstScanRun(script, w, path, timeout).result.Ran?
    requires !Classifiable(FirstScanRun(script, w, path, timeout).result.output)
    requires MetadataSpec(script, FirstScanRun(script, w, path, timeout).world, env).result.Done?
    ensures WantsRetry(FirstAttempt(script, w, path, timeout, env, CheckedParseStep).result)
  {
    var run := FirstScanRun(script, w, path, timeout);
    var meta := MetadataSpec(script, run.world, env).result;
    assert ParseAvastOutputChecked(run.result.output, path, meta.value).err.Some?;
  }

  /** The metadata queries fail only for their own reasons. */
  lemma MetadataReasons(script: nat -> Reply, w: World, env: Env)
    ensures MetadataSpec(script, w, env).result.Aborted? ==>
              MetadataSpec(script, w, env).result.reason in {VersionQueryFailed, DatabaseQueryFailed, MarkerReadFailed}
  {
  }

  /** With a classifier that never fails, an attempt fails only for the scan's, or the queries', reasons. */
  lemma AttemptReasons(script: nat -> Reply, w: World, path: string, deadline: int, env: Env, c: Classifier, failure: Abort)
    requires forall avastout, p, meta :: c(avastout, p, meta).Done?
    ensures AttemptSpec(script, w, path, deadline, env, c, failure).result.Aborted? ==>
              AttemptSpec(script, w, path, deadline, env, c, failure).result.reason in {failure, VersionQueryFailed, DatabaseQueryFailed, MarkerReadFailed}
  {
    var run := RunIn(script, w, ScanArgv(path), Some(deadline));
    if run.result.Ran? {
      MetadataReasons(script, run.world, env);
    }
  }

  /** A scan whose classifier never fails does not end in the index panic. */
  lemma NoPanicWithoutClassifierFailure(script: nat -> Reply, w: World, path: string, timeout: int, env: Env, c: Classifier)
    requires forall avastout, p, meta :: c(avastout, p, meta).Done?
    ensures AvScanSpec(script, w, path, timeout, env, c).result != Aborted(FieldIndexOutOfRange)
  {
    var d := ScanDeadline(script, w, timeout);
    AttemptReasons(script, DaemonSpec(script, w).world, path, d, env, c, ScanFailed);
    AttemptReasons(script, FirstAttempt(script, w, path, timeout, env, c).world, path, d, env, c, RetryScanFailed);
  }

  /** The checked classifier never panics, so a scan with it never ends in the index panic. */
  lemma CheckedNeverPanics(script: nat -> Reply, w: World, path: string, timeout: int, env: Env)
    ensures AvScanSpec(script, w, path, timeout, env, CheckedParseStep).result != Aborted(FieldIndexOutOfRange)
  {
    NoPanicWithoutClassifierFailure(script, w, path, timeout, env, CheckedParseStep);
  }

  /**
   * The script of a scan in which every command succeeds in time: the
   * daemon start within its grace period, the scan within the timeout, and
   * both metadata queries, with a readable marker file.
   */
  ghost predicate SmoothRun(script: nat -> Reply, w: World, timeout: int, env: Env) {
    var n := |w.log|;
    && script(n).succeeded && script(n).duration < DaemonGrace
    && script(n + 1).succeeded && script(n + 1).duration < timeout
    && script(n + 2).succeeded && script(n + 3).succeeded
    && !env.marker.Unreadable?
  }

  /** When both queries succeed and the marker file can be read, the metadata is their trimmed outputs and the updated date. */
  lemma SmoothMetadata(script: nat -> Reply, w: World, env: Env)
    requires script(|w.log|).succeeded && script(|w.log| + 1).succeeded && !env.marker.Unreadable?
    ensures MetadataSpec(script, w, env).result
            == Done(Metadata(TrimSpace(script(|w.log|).output), TrimSpace(script(|w.log| + 1).output),
                             GetUpdatedDate(env.marker, env.buildTime).value))
  {
    var engine := QuerySpec(script, w, VersionArgv, VersionQueryFailed);
    QueryTrims(script, w, VersionArgv, VersionQueryFailed);
    QueryTrims(script, engine.world, DatabaseArgv, DatabaseQueryFailed);
  }

  /** In a smooth run the first attempt classifies the scan's output with the trimmed query outputs and the updated date. */
  lemma SmoothFirstAttempt(script: nat -> Reply, w: World, path: string, timeout: int, env: Env, c: Classifier)
    requires SmoothRun(script, w, timeout, env)
    ensures DaemonSpec(script, w).result.Ran?
    ensures var n := |w.log|;
            FirstAttempt(script, w, path, timeout, env, c).result
            == c(script(n + 1).output, path,
                 Metadata(TrimSpace(script(n + 2).output), TrimSpace(script(n + 3).output), GetUpdatedDate(env.marker, env.buildTime).value))
  {
    var run := FirstScanRun(script, w, path, timeout);
    assert run.result.Ran? && |run.world.log| == |w.log| + 2;
    SmoothMetadata(script, run.world, env);
  }

  /**
   * As written, a smooth run over a report the classifier can handle ends
   * with the verdict `ParseAvastOutput` gives for the scan's output and the
   * trimmed outputs of `/bin/scan -v` and `/bin/scan -V`.
   */
  lemma SmoothScan(script: nat -> Reply, w: World, path: string, timeout: int, env: Env)
    requires SmoothRun(script, w, timeout, env)
    requires Classifiable(script(|w.log| + 1).output)
    ensures var n := |w.log|;
            AvScanSpec(script, w, path, timeout, env, AvastParseStep).result
            == Done(Avast(ParseAvastOutput(script(n + 1).output, path, TrimSpace(script(n + 2).output),
                                           TrimSpace(script(n + 3).output), GetUpdatedDate(env.marker, env.buildTime).value).results))
  {
    SmoothFirstAttempt(script, w, path, timeout, env, AvastParseStep);
  }

  // ---------------------------------------------------------------------
  // The steps of a scan, run on a runner
  // ---------------------------------------------------------------------

  /** `getAvastVersion`: `/bin/scan -v`, trimmed. */
  method GetAvastVersion(runner: Runner) returns (o: Outcome<string>)
    modifies runner
    ensures Step(o, runner.State()) == QuerySpec(runner.script, old(runner.State()), VersionArgv, VersionQueryFailed)
  {
    var res := runner.Run(VersionArgv, None);
    if res.Failed? {
      o := Aborted(VersionQueryFailed);
    } else {
      o := Done(TrimSpace(res.output));
    }
  }

  /** `getAvastVPS`: `/bin/scan -V`, trimmed. */
  method GetAvastVPS(runner: Runner) returns (o: Outcome<string>)
    modifies runner
    ensures Step(o, runner.State()) == QuerySpec(runner.script, old(runner.State()), DatabaseArgv, DatabaseQueryFailed)
  {
    var res := runner.Run(DatabaseArgv, None);
    if res.Failed? {
      o := Aborted(DatabaseQueryFailed);
    } else {
      o := Done(TrimSpace(res.output));
    }
  }

  /** `ParseAvastOutput` as it runs: the metadata queries, then the classifier. */
  method ParseAvastOutputRun(runner: Runner, avastout: string, path: string, env: Env, classify: Classifier) returns (o: Outcome<Parsed>)
    modifies runner
    ensures Step(o, runner.State()) == ParseSpec(runner.script, old(runner.State()), avastout, path, env, classify)
  {
    var engine := GetAvastVersion(runner);
    if engine.Aborted? {
      return Aborted(engine.reason);
    }
    var database := GetAvastVPS(runner);
    if database.Aborted? {
      return Aborted(database.reason);
    }
    var updated := GetUpdatedDate(env.marker, env.buildTime);
    if updated.Aborted? {
      return Aborted(updated.reason);
    }
    o := classify(avastout, path, Metadata(engine.value, database.value, updated.value));
  }

  /** One attempt: `scan -abfu path` under the deadline, then the classification of its output. */
  method ScanAttempt(runner: Runner, path: string, deadline: int, env: Env, classify: Classifier, scanFailure: Abort) returns (o: Outcome<Parsed>)
    modifies runner
    ensures Step(o, runner.State()) == AttemptSpec(runner.script, old(runner.State()), path, deadline, env, classify, scanFailure)
  {
    var output := runner.Run(ScanArgv(path), Some(deadline));
    if output.Failed? {
      return Aborted(scanFailure);
    }
    o := ParseAvastOutputRun(runner, output.output, path, env, classify);
  }

  /**
   * `AvScan` with the classification step as a parameter: start the
   * daemon, set the scan deadline once, scan and classify, and scan and
   * classify again only when the classification returned an error.
   */
  method AvScanWith(runner: Runner, path: string, timeout: int, env: Env, classify: Classifier) returns (r: Outcome<Avast>)
    modifies runner
    ensures Step(r, runner.State()) == AvScanSpec(runner.script, old(runner.State()), path, timeout, env, classify)
  {
    ghost var w := runner.State();
    var started := runner.Run(DaemonArgv, Some(runner.clock + DaemonGrace));
    assert Step(started, runner.State()) == DaemonSpec(runner.script, w);
    if started.Failed? {
      return Aborted(DaemonStartFailed);
    }
    var deadline := runner.clock + timeout;
    var results := ScanAttempt(runner, path, deadline, env, classify, ScanFailed);
    assert Step(results, runner.State()) == FirstAttempt(runner.script, w, path, timeout, env, classify);
    if results.Aborted? {
      return Aborted(results.reason);
    }
    if results.value.err.Some? {
      results := ScanAttempt(runner, path, deadline, env, classify, RetryScanFailed);
      assert Step(results, runner.State()) == RetryAttempt(runner.script, w, path, timeout, env, classify);
      if results.Aborted? {
        return Aborted(results.reason);
      }
      if results.value.err.Some? {
        return Aborted(RetryParseFailed);
      }
    }
    r := Done(Avast(results.value.results));
  }

  /** `AvScan` as scan.go has it: the scanner runs once whenever the daemon starts. */
  method AvScan(runner: Runner, path: string, timeout: int, env: Env) returns (r: Outcome<Avast>)
    modifies runner
    ensures Step(r, runner.State()) == AvScanSpec(runner.script, old(runner.State()), path, timeout, env, AvastParseStep)
    ensures Extends(old(runner.State()), runner.State())
    ensures ScanCount(Added(old(runner.State()), runner.State()), path)
         == if DaemonSpec(runner.script, old(runner.State())).result.Ran? then 1 else 0
  {
    AsWrittenScansOnce(runner.script, runner.State(), path, timeout, env);
    r := AvScanWith(runner, path, timeout, env, AvastParseStep);
  }

  /** `AvScan` with the checked classifier: malformed output is retried once and never panics. */
  method AvScanChecked(runner: Runner, path: string, timeout: int, env: Env) returns (r: Outcome<Avast>)
    modifies runner
    ensures Step(r, runner.State()) == AvScanSpec(runner.script, old(runner.State()), path, timeout, env, CheckedParseStep)
    ensures r != Aborted(FieldIndexOutOfRange)
  {
    CheckedNeverPanics(runner.script, runner.State(), path, timeout, env);
    r := AvScanWith(runner, path, timeout, env, CheckedParseStep);
  }
}
