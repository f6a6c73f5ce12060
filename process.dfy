/**
 * The external-process boundary of scan.go. `utils.RunCommand` is not part
 * of this model; in its place a runner answers each command from a script
 * of canned replies, keeps a clock in whole seconds and a log of what it
 * ran. A command bound to a deadline that is still running when the
 * deadline comes is killed then and reports a timeout.
 */
module Process {
  import opened Maybe

  /** A scripted answer: how long the command runs, whether it exits cleanly, and its output. */
  datatype Reply = Reply(duration: nat, succeeded: bool, output: string)

  /** What a command run gives its caller: the output, or an error (a timeout or a failure of the program). */
  datatype RunResult = Ran(output: string) | Failed(timedOut: bool)

  /** A command as the runner saw it: its argument vector, its deadline (none for a nil context) and when it started. */
  datatype Invocation = Invocation(argv: seq<string>, deadline: Option<int>, startedAt: nat)

  /** The runner's state: the clock and the commands run so far, oldest first. */
  datatype World = World(clock: nat, log: seq<Invocation>)

  /** What a step gives back, and the runner's state after it. */
  datatype Step<T> = Step(result: T, world: World)

  function Max(a: int, b: int): int { if a < b then b else a }

  /**
   * Running one command that answers `rep`, starting at `now`: the result
   * and the clock when it ends. Without a deadline the command runs to
   * completion; with one, it must end before the deadline to count.
   */
  function Exec(rep: Reply, now: nat, deadline: Option<int>): (res: (RunResult, nat))
    ensures res.1 >= now
    ensures deadline.None? ==> res.1 == now + rep.duration && (res.0.Ran? <==> rep.succeeded)
    ensures deadline.Some? && res.0.Ran? ==> res.1 < deadline.value
    ensures res.0.Ran? ==> rep.succeeded && res.0.output == rep.output
    ensures res.0.Failed? && res.0.timedOut ==> deadline.Some? && res.1 == Max(now, deadline.value)
    ensures deadline.Some? && now >= deadline.value ==> res == (Failed(true), now)
    // A command that ends before its deadline, or has none, gives its own reply when it ends.
    ensures deadline.None? || now + rep.duration < deadline.value
            ==> res == (if rep.succeeded then Ran(rep.output) else Failed(false), now + rep.duration)
    // One still running at the deadline is killed then, and reports a timeout.
    ensures deadline.Some? && now + rep.duration >= deadline.value ==> res == (Failed(true), Max(now, deadline.value))
  {
    var finish := now + rep.duration;
    match deadline
    case None => (if rep.succeeded then Ran(rep.output) else Failed(false), finish)
    case Some(d) =>
      if finish < d then (if rep.succeeded then Ran(rep.output) else Failed(false), finish)
      else (Failed(true), Max(now, d) as nat)
  }

  /** Running the next scripted command in `w`: the reply is chosen by how many commands ran before it. */
  function RunIn(script: nat -> Reply, w: World, argv: seq<string>, deadline: Option<int>): (r: Step<RunResult>)
    ensures r.world.log == w.log + [Invocation(argv, deadline, w.clock)]
    ensures r.world.clock >= w.clock
    ensures (r.result, r.world.clock) == Exec(script(|w.log|), w.clock, deadline)
  {
    var e := Exec(script(|w.log|), w.clock, deadline);
    Step(e.0, World(e.1, w.log + [Invocation(argv, deadline, w.clock)]))
  }

  /** The process runner: a script of replies, a clock and the log of the commands it ran. */
  class Runner {
    const script: nat -> Reply
    var clock: nat
    var log: seq<Invocation>

    function State(): World
      reads this
    {
      World(clock, log)
    }

    constructor (script: nat -> Reply, start: nat)
      ensures this.script == script && State() == World(start, [])
    {
      this.script := script;
      clock := start;
      log := [];
    }

    /** Run one command under an optional deadline and record it. */
    method Run(argv: seq<string>, deadline: Option<int>) returns (res: RunResult)
      modifies this
      ensures Step(res, State()) == RunIn(script, old(State()), argv, deadline)
    {
      var e := Exec(script(|log|), clock, deadline);
      log := log + [Invocation(argv, deadline, clock)];
      clock := e.1;
      res := e.0;
    }
  }
}
