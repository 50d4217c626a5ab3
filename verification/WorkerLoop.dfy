/** The bounded worker loop: it executes queued items of a topic until policy, convergence or a failure stops it, keeping
    streak counters beside an append-only iteration log. */
module WorkerLoop {
  import opened Prelude
  import opened LedgerModel
  import opened Failures

  datatype Policy = Policy(maxIterations: int, maxNoYield: int, maxMalformed: int, maxRuntimeSeconds: int)

  datatype Summary = Summary(digest: Option<string>, nodes: Option<nat>, edges: Option<nat>)

  /** A failure, and whether its detail classifies it as a supersede contract mismatch. */
  datatype Failure = Failure(code: FailureCode, contractMismatch: bool)

  datatype Report = Report(completed: bool, failure: Option<Failure>)

  datatype Execution = Execution(failure: Option<Failure>, report: Option<Report>)

  /** What the loop observes at the top of its k-th turn, and in it if an item is executed: ended is None when the executor
      raises. */
  datatype Turn = Turn(
    now: int, running: bool, queued: bool, conflicts: bool, before: Summary, ended: Option<Execution>, after: Summary)

  datatype Reason =
    | EmptyQueueConverged | EmptyQueuePausedActiveConflicts | MaxConsecutiveNoYield | MaxIterations | BudgetExhausted
    | RepeatedMalformedProposal | BlockedContractMismatch | ExecutorError

  datatype StopState = Converged | Blocked | Stopped

  /** An iteration as the loop sees it: crashed, the digest it changed the graph to if it yielded, the failure recorded in
      the log, and the effective one, which a report's operator failure overrides. */
  datatype Iteration = Iteration(crashed: bool, change: Option<string>, recorded: Option<Failure>, effective: Option<Failure>)

  /** Meaningful yield: a completed report, a graph write, and a digest or count that differs. */
  function Analyze(before: Summary, after: Summary, report: Option<Report>): Option<string> {
    if report.None? || !report.value.completed || after.digest.None? then None
    else if before == after then None
    else after.digest
  }

  const UNHANDLED := Execution(Some(Failure(QueueMutationMismatch, false)), None)

  function Observe(t: Turn): Iteration {
    var result := if t.ended.Some? then t.ended.value else UNHANDLED;
    var reported := if result.report.Some? then result.report.value.failure else None;
    Iteration(
      t.ended.None?, Analyze(t.before, t.after, result.report), result.failure,
      if reported.Some? then reported else result.failure)
  }

  predicate IsMalformed(f: Option<Failure>) {
    f.Some? && f.value.code == MalformedProposal
  }

  // ----- folds over the log

  /** The length of the longest suffix of iterations that did not yield. */
  function NoYieldStreak(log: seq<Iteration>): nat {
    if |log| == 0 || log[|log| - 1].change.Some? then 0 else NoYieldStreak(log[..|log| - 1]) + 1
  }

  function MalformedStreak(log: seq<Iteration>): nat {
    if |log| == 0 || !IsMalformed(log[|log| - 1].effective) then 0 else MalformedStreak(log[..|log| - 1]) + 1
  }

  function Yielded(log: seq<Iteration>): nat {
    if |log| == 0 then 0 else Yielded(log[..|log| - 1]) + if log[|log| - 1].change.Some? then 1 else 0
  }

  function LastChange(log: seq<Iteration>): Option<string> {
    if |log| == 0 then None
    else if log[|log| - 1].change.Some? then log[|log| - 1].change
    else LastChange(log[..|log| - 1])
  }

  // ----- the stop policy, as functions of the log

  function StateOf(r: Reason): StopState {
    match r
    case EmptyQueueConverged => Converged
    case MaxConsecutiveNoYield => Converged
    case MaxIterations => Stopped
    case _ => Blocked
  }

  /** Why the loop stops after its last iteration. */
  function StopAfter(log: seq<Iteration>, p: Policy): Option<Reason> {
    if |log| == 0 then None else
      var last := log[|log| - 1];
      if last.crashed then Some(ExecutorError)
      else if IsMalformed(last.effective) && last.effective.value.contractMismatch then Some(BlockedContractMismatch)
      else if MalformedStreak(log) >= p.maxMalformed then Some(RepeatedMalformedProposal)
      else if NoYieldStreak(log) >= p.maxNoYield then Some(MaxConsecutiveNoYield)
      else None
  }

  /** Why the loop stops before its next iteration, having done n. */
  function StopBefore(n: nat, t: Turn, start: int, p: Policy): Option<Reason> {
    if n >= p.maxIterations then Some(MaxIterations)
    else if t.now - start >= p.maxRuntimeSeconds * MICROS_PER_SECOND then Some(BudgetExhausted)
    else if !t.queued then Some(if t.conflicts then EmptyQueuePausedActiveConflicts else EmptyQueueConverged)
    else None
  }

  function Observed(turns: nat -> Turn, n: nat): (log: seq<Iteration>)
    ensures |log| == n
  {
    if n == 0 then [] else Observed(turns, n - 1) + [Observe(turns(n - 1))]
  }

  /** The loop goes on to execute the item of turn k. */
  predicate GoesOn(turns: nat -> Turn, k: nat, start: int, p: Policy) {
    turns(k).running && StopBefore(k, turns(k), start, p) == None && StopAfter(Observed(turns, k), p) == None
  }

  /** None when the heartbeat finds the loop no longer running. */
  function ReasonAt(turns: nat -> Turn, n: nat, start: int, p: Policy): Option<Reason> {
    var after := StopAfter(Observed(turns, n), p);
    if after.Some? then after
    else if !turns(n).running then None
    else StopBefore(n, turns(n), start, p)
  }

  /** The loop executes exactly n items: it goes on at every earlier turn, and not at turn n. */
  ghost predicate Executes(turns: nat -> Turn, n: nat, start: int, p: Policy) {
    (forall k: nat :: k < n ==> GoesOn(turns, k, start, p)) && !GoesOn(turns, n, start, p)
  }

  class LoopRow {
    var log: seq<Iteration>
    var iterationCount: nat
    var consecutiveNoYield: nat
    var malformedStreak: nat
    var lastChange: Option<string>
    var stopped: Option<(StopState, Reason)>

    constructor ()
      ensures log == [] && stopped == None && Current()
    {
      log, iterationCount, consecutiveNoYield, malformedStreak, lastChange, stopped := [], 0, 0, 0, None, None;
    }

    /** The stored counters are the folds of the stored log. */
    ghost predicate Current()
      reads this
    {
      && iterationCount == |log| && consecutiveNoYield == NoYieldStreak(log)
      && malformedStreak == MalformedStreak(log) && lastChange == LastChange(log)
    }

    method AppendIteration(it: Iteration, iteration: nat, noYield: nat, malformed: nat, change: Option<string>)
      modifies this`log, this`iterationCount, this`consecutiveNoYield, this`malformedStreak, this`lastChange
      ensures log == old(log) + [it] && iterationCount == iteration && consecutiveNoYield == noYield
      ensures malformedStreak == malformed && lastChange == change
    {
      log := log + [it];
      iterationCount, consecutiveNoYield, malformedStreak, lastChange := iteration, noYield, malformed, change;
    }
  }

  datatype RunResult = RunResult(reason: Option<Reason>, iterations: nat, counters: Counters)

  lemma OneMore(log: seq<Iteration>, it: Iteration)
    ensures NoYieldStreak(log + [it]) == if it.change.Some? then 0 else NoYieldStreak(log) + 1
    ensures MalformedStreak(log + [it]) == if IsMalformed(it.effective) then MalformedStreak(log) + 1 else 0
    ensures Yielded(log + [it]) == Yielded(log) + if it.change.Some? then 1 else 0
    ensures LastChange(log + [it]) == if it.change.Some? then it.change else LastChange(log)
  {
    assert (log + [it])[..|log|] == log;
  }

  method DecideBefore(n: nat, t: Turn, start: int, p: Policy) returns (reason: Option<Reason>, state: StopState)
    ensures reason == StopBefore(n, t, start, p)
    ensures reason.Some? ==> state == StateOf(reason.value)
  {
    reason, state := None, Stopped;
    if n >= p.maxIterations {
      reason := Some(MaxIterations);
    } else if t.now - start >= p.maxRuntimeSeconds * MICROS_PER_SECOND {
      reason, state := Some(BudgetExhausted), Blocked;
    } else if !t.queued {
      if t.conflicts {
        reason, state := Some(EmptyQueuePausedActiveConflicts), Blocked;
      } else {
        reason, state := Some(EmptyQueueConverged), Converged;
      }
    }
  }

  method DecideAfter(row: LoopRow, it: Iteration, p: Policy, noYield: nat, malformed: nat)
    returns (reason: Option<Reason>, state: StopState)
    requires row.log != [] && row.log[|row.log| - 1] == it
    requires noYield == NoYieldStreak(row.log) && malformed == MalformedStreak(row.log)
    ensures reason == StopAfter(row.log, p)
    ensures reason.Some? ==> state == StateOf(reason.value)
  {
    reason, state := None, Stopped;
    if it.crashed {
      reason, state := Some(ExecutorError), Blocked;
    } else if IsMalformed(it.effective) && it.effective.value.contractMismatch {
      reason, state := Some(BlockedContractMismatch), Blocked;
    } else if malformed >= p.maxMalformed {
      reason, state := Some(RepeatedMalformedProposal), Blocked;
    } else if noYield >= p.maxNoYield {
      reason, state := Some(MaxConsecutiveNoYield), Converged;
    }
  }

  datatype Counters = Counters(yielded: nat, noYield: nat, malformed: nat, lastChange: Option<string>)

  ghost predicate Counts(c: Counters, log: seq<Iteration>) {
    && c.yielded == Yielded(log) && c.noYield == NoYieldStreak(log)
    && c.malformed == MalformedStreak(log) && c.lastChange == LastChange(log)
  }

  method RecordIteration(row: LoopRow, it: Iteration, c: Counters) returns (d: Counters)
    requires row.Current() && Counts(c, row.log)
    modifies row
    ensures row.log == old(row.log) + [it] && row.Current() && Counts(d, row.log) && row.stopped == old(row.stopped)
  {
    OneMore(row.log, it);
    d := c;
    if it.change.Some? {
      d := d.(yielded := c.yielded + 1, noYield := 0, lastChange := it.change);
    } else {
      d := d.(noYield := c.noYield + 1);
    }
    d := d.(malformed := if IsMalformed(it.effective) then c.malformed + 1 else 0);
    row.AppendIteration(it, row.iterationCount + 1, d.noYield, d.malformed, d.lastChange);
  }

  /** The k-th turn is observed through turns(k). The loop appends to its row and stops it, unless it finds it is no longer
      running: then the heartbeat's error escapes and the row is left as it is. */
  method RunLoop(row: LoopRow, turns: nat -> Turn, start: int, p: Policy) returns (r: RunResult)
    requires row.log == [] && row.stopped == None && row.Current()
    modifies row
    ensures row.Current() && row.log == Observed(turns, r.iterations)
    ensures Executes(turns, r.iterations, start, p)
    ensures r.reason == ReasonAt(turns, r.iterations, start, p)
    ensures Counts(r.counters, row.log)
    ensures row.stopped == if r.reason.Some? then Some((StateOf(r.reason.value), r.reason.value)) else None
  {
    var iterations: nat := 0;
    var counters := Counters(0, 0, 0, None);
    var reason: Option<Reason> := None;
    var state := Stopped;
    while reason.None?
      invariant row.log == Observed(turns, iterations) && row.Current() && row.stopped == None
      invariant Counts(counters, row.log)
      invariant forall k: nat :: k < iterations ==> GoesOn(turns, k, start, p)
      invariant StopAfter(row.log, p) == reason || (StopAfter(row.log, p) == None && turns(iterations).running)
      invariant reason.Some? ==> reason == ReasonAt(turns, iterations, start, p) && state == StateOf(reason.value)
      decreases reason.None?, p.maxIterations - iterations
    {
      var t := turns(iterations);
      if !t.running {
        return RunResult(None, iterations, counters);
      }
      reason, state := DecideBefore(iterations, t, start, p);
      if reason.None? {
        var it := Observe(t);
        counters := RecordIteration(row, it, counters);
        iterations := iterations + 1;
        reason, state := DecideAfter(row, it, p, counters.noYield, counters.malformed);
      }
    }
    row.stopped := Some((state, reason.value));
    r := RunResult(reason, iterations, counters);
  }
}
