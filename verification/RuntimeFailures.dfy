/** How every execution ends: which launch is its last, what outcome that launch gives it, and what the log then holds, read
    off what the launcher delivered. */
module RuntimeFailures {
  import opened Prelude
  import opened Failures
  import opened RuntimeModel
  import opened RuntimeLaws

  // ----- the last launch

  /** Launch k ran to its end on clean output and left a message that is rejected but may still be repaired. */
  ghost predicate Repairs(launches: nat -> Launch, k: nat, c: Config) {
    && k < c.maxRepairs && Clean(Stream(launches, k + 1), c) && Ran(launches(k)) && VerdictAt(launches, k) == Rejected(true)
  }

  /** Launch n is the first that does not lead to a repair, so the last of the execution. */
  ghost predicate Ends(launches: nat -> Launch, n: nat, c: Config) {
    n <= c.maxRepairs && !Repairs(launches, n, c) && forall j: nat :: j < n ==> Repairs(launches, j, c)
  }

  lemma {:induction false} EndsFrom(launches: nat -> Launch, k: nat, c: Config) returns (n: nat)
    requires k <= c.maxRepairs && forall j: nat :: j < k ==> Repairs(launches, j, c)
    ensures Ends(launches, n, c)
    decreases c.maxRepairs - k
  {
    if Repairs(launches, k, c) { n := EndsFrom(launches, k + 1, c); } else { n := k; }
  }

  /** Every execution has exactly one last launch. */
  lemma EndsOnce(launches: nat -> Launch, c: Config) returns (n: nat)
    ensures Ends(launches, n, c) && forall m: nat :: Ends(launches, m, c) ==> m == n
  {
    n := EndsFrom(launches, 0, c);
    forall m: nat | Ends(launches, m, c) ensures m == n {
      assert m < n ==> Repairs(launches, m, c);
    }
  }

  ghost function Tallied(launches: nat -> Launch, k: nat, c: Config): Tally {
    IngestAll(Begun, Stream(launches, k), c).0
  }

  lemma RepairStep(launches: nat -> Launch, k: nat, c: Config)
    requires Repairs(launches, k, c)
    ensures Execution(Tallied(launches, k, c), launches, k, c) == Execution(Tallied(launches, k + 1, c), launches, k + 1, c)
  {
    CleanStreamPrefix(launches, k, k + 1, c);
    LaunchOutcome(launches, k, c);
  }

  lemma {:induction false} ReachesLast(launches: nat -> Launch, n: nat, c: Config)
    requires forall j: nat :: j < n ==> Repairs(launches, j, c)
    ensures Execution(Begun, launches, 0, c) == Execution(Tallied(launches, n, c), launches, n, c)
  {
    if n > 0 {
      ReachesLast(launches, n - 1, c);
      RepairStep(launches, n - 1, c);
    } else {
      assert Stream(launches, 0) == [];
    }
  }

  lemma CleanBefore(launches: nat -> Launch, n: nat, c: Config)
    requires forall j: nat :: j < n ==> Repairs(launches, j, c)
    ensures Clean(Stream(launches, n), c)
  {
    if n > 0 { assert Repairs(launches, n - 1, c); }
  }

  // ----- the first offending line

  /** Line i is the first that makes the output unclean. */
  ghost predicate FirstOffence(lines: seq<Line>, i: nat, c: Config) {
    i < |lines| && Clean(lines[..i], c) && !Clean(lines[..i + 1], c)
  }

  ghost predicate ToolRefused(l: Line, c: Config) {
    l.Raw? && l.kind.ToolStart? && (l.kind.name == None || l.kind.name.value !in c.allowed)
  }

  /** What the first offending line is an offence against. */
  ghost predicate Offends(lines: seq<Line>, c: Config, code: FailureCode) {
    exists i: nat :: FirstOffence(lines, i, c) && OffenceOf(lines, i, c, code)
  }

  ghost predicate OffenceOf(lines: seq<Line>, i: nat, c: Config, code: FailureCode)
    requires i < |lines|
  {
    match code
    case MalformedCodexEvent => lines[i].Malformed?
    case ExecutionPolicyRejected => ToolRefused(lines[i], c)
    case BudgetExceeded =>
      LineAllowed(lines[i], c) && (TurnLines(lines[..i + 1]) > c.maxTurns || ToolLines(lines[..i + 1]) > c.maxTools)
    case _ => false
  }

  lemma {:induction false} UncleanHasFirst(lines: seq<Line>, c: Config) returns (i: nat)
    requires !Clean(lines, c)
    ensures FirstOffence(lines, i, c)
  {
    assert |lines| != 0;
    var k := |lines| - 1;
    if Clean(lines[..k], c) {
      i := k;
      assert lines[..k + 1] == lines;
    } else {
      i := UncleanHasFirst(lines[..k], c);
      assert lines[..k][..i] == lines[..i] && lines[..k][..i + 1] == lines[..i + 1];
    }
  }

  lemma {:induction false} CleanDown(lines: seq<Line>, i: nat, c: Config)
    requires i <= |lines| && Clean(lines, c)
    ensures Clean(lines[..i], c)
    decreases |lines|
  {
    if i < |lines| {
      var k := |lines| - 1;
      assert lines == lines[..k] + [lines[k]];
      CleanPrefix(lines[..k], lines[k], c);
      CleanDown(lines[..k], i, c);
      assert lines[..k][..i] == lines[..i];
    } else {
      assert lines[..i] == lines;
    }
  }

  lemma CleanBelow(lines: seq<Line>, i: nat, j: nat, c: Config)
    requires i < j <= |lines| && Clean(lines[..j], c)
    ensures Clean(lines[..i + 1], c)
  {
    CleanDown(lines[..j], i + 1, c);
    assert lines[..j][..i + 1] == lines[..i + 1];
  }

  lemma FirstIsOne(lines: seq<Line>, i: nat, j: nat, c: Config)
    requires FirstOffence(lines, i, c) && FirstOffence(lines, j, c)
    ensures i == j
  {
    if i < j { CleanBelow(lines, i, j, c); }
    if j < i { CleanBelow(lines, j, i, c); }
  }

  lemma OffendingStep(t: Tally, lines: seq<Line>, line: Line, c: Config, code: FailureCode)
    requires Reads(t, lines) && Clean(lines, c) && !Clean(lines + [line], c)
    ensures Ingest(t, line, c).1 == Some(code) <==> OffenceOf(lines + [line], |lines|, c, code)
  {
    assert (lines + [line])[..|lines|] == lines && (lines + [line])[..|lines| + 1] == lines + [line];
    IngestReads(t, lines, line, c);
    assert TurnLines(lines + [line]) == TurnLines(lines) + if line == Raw(TurnStart) then 1 else 0;
    assert ToolLines(lines + [line]) == ToolLines(lines) + if line.Raw? && line.kind.ToolStart? then 1 else 0;
    match line
    case Blank =>
    case Malformed =>
    case Compacted(_) =>
    case Raw(kind) =>
  }

  /** Reading stops at the first offending line. */
  lemma IngestStopsAt(lines: seq<Line>, i: nat, c: Config)
    requires FirstOffence(lines, i, c)
    ensures IngestAll(Begun, lines, c) == Ingest(IngestAll(Begun, lines[..i], c).0, lines[i], c)
  {
    IngestsCleanOutput(lines[..i], c);
    IngestsCleanOutput(lines[..i + 1], c);
    assert lines[..i + 1][..i] == lines[..i] && lines[..i + 1][i] == lines[i];
    assert lines == lines[..i + 1] + lines[i + 1..];
    IngestInParts(Begun, lines[..i + 1], lines[i + 1..], c);
  }

  /** What reading fails with, for output that is not clean. */
  lemma ReadingFailsWith(lines: seq<Line>, c: Config, code: FailureCode)
    requires !Clean(lines, c)
    ensures IngestAll(Begun, lines, c).1 == Some(code) <==> Offends(lines, c, code)
  {
    var i := UncleanHasFirst(lines, c);
    IngestStopsAt(lines, i, c);
    IngestsCleanOutput(lines[..i], c);
    assert lines[..i + 1] == lines[..i] + [lines[i]];
    OffendingStep(IngestAll(Begun, lines[..i], c).0, lines[..i], lines[i], c, code);
    assert OffenceOf(lines[..i] + [lines[i]], i, c, code) <==> OffenceOf(lines, i, c, code) by {
      assert (lines[..i] + [lines[i]])[..i + 1] == lines[..i + 1];
    }
    forall j: nat | FirstOffence(lines, j, c) ensures j == i { FirstIsOne(lines, i, j, c); }
  }

  // ----- the outcome

  /** Why the last launch n fails the execution with this code. */
  ghost predicate FailsAs(launches: nat -> Launch, n: nat, c: Config, code: FailureCode) {
    var l := launches(n);
    match l.refused
    case Some(WorkspaceMismatched) => code == WorkspaceMismatch
    case Some(ToolPolicyRejected) => code == ExecutionPolicyRejected
    case Some(SchemaMissing) => code == OutputSchemaValidationFailed
    case Some(PromptTooLong) => code == BudgetExceeded
    case None =>
      if !Clean(Stream(launches, n + 1), c) then Offends(Stream(launches, n + 1), c, code)
      else match code
        case CodexTransportTimeout => l.timedOut
        case CodexProcessCrash => !l.timedOut && (EventLines(l.lines) == 0 || l.exitCode != 0 || l.final == None)
        case OutputSchemaValidationFailed =>
          Ran(l) && (VerdictAt(launches, n) == Rejected(false) || (VerdictAt(launches, n) == Rejected(true) && n == c.maxRepairs))
        case BudgetExceeded =>
          && Ran(l) && VerdictAt(launches, n).Accepted?
          && (VerdictAt(launches, n).turns > c.maxTurns || VerdictAt(launches, n).tools > c.maxTools)
        case _ => false
  }

  lemma LastStep(launches: nat -> Launch, n: nat, c: Config)
    requires Clean(Stream(launches, n), c)
    ensures LaunchStep(Tallied(launches, n, c), launches(n), n, c) ==
      if launches(n).refused.Some? then (Tallied(launches, n, c), Stop(RefusalCode(launches(n).refused.value)))
      else
        var (u, failure) := IngestAll(Begun, Stream(launches, n + 1), c);
        (u, if failure.Some? then Stop(failure.value) else Conclude(Tallied(launches, n, c), u, launches(n), n, c))
  {
    IngestsCleanOutput(Stream(launches, n), c);
    IngestInParts(Begun, Stream(launches, n), launches(n).lines, c);
  }

  /** What the judgement of a clean launch rests on. */
  lemma CleanTallies(launches: nat -> Launch, n: nat, c: Config)
    requires Clean(Stream(launches, n), c) && Clean(Stream(launches, n + 1), c)
    ensures IngestAll(Begun, Stream(launches, n + 1), c).1 == None
    ensures Tallied(launches, n + 1, c).retained == RetainedBy(Stream(launches, n + 1))
    ensures Tallied(launches, n + 1, c).raw == Tallied(launches, n, c).raw + EventLines(launches(n).lines)
  {
    IngestsCleanOutput(Stream(launches, n), c);
    IngestsCleanOutput(Stream(launches, n + 1), c);
    EventsInParts(Stream(launches, n), launches(n).lines);
  }

  /** The judgement of a launch that was made and whose output was read to its end. */
  lemma JudgedAs(launches: nat -> Launch, n: nat, c: Config, code: FailureCode)
    requires launches(n).refused == None && n <= c.maxRepairs
    requires Clean(Stream(launches, n), c) && Clean(Stream(launches, n + 1), c)
    ensures Conclude(Tallied(launches, n, c), Tallied(launches, n + 1, c), launches(n), n, c) == Stop(code)
      <==> FailsAs(launches, n, c, code)
  {
    CleanTallies(launches, n, c);
  }

  lemma RefusedAs(launches: nat -> Launch, n: nat, c: Config, code: FailureCode)
    requires launches(n).refused.Some?
    ensures RefusalCode(launches(n).refused.value) == code <==> FailsAs(launches, n, c, code)
  {
  }

  lemma OffendsAs(launches: nat -> Launch, n: nat, c: Config, code: FailureCode)
    requires launches(n).refused == None && !Clean(Stream(launches, n + 1), c)
    ensures IngestAll(Begun, Stream(launches, n + 1), c).1 == Some(code) <==> FailsAs(launches, n, c, code)
    ensures IngestAll(Begun, Stream(launches, n + 1), c).1.Some?
  {
    IngestsCleanOutput(Stream(launches, n + 1), c);
    ReadingFailsWith(Stream(launches, n + 1), c, code);
  }

  lemma StopsAs(launches: nat -> Launch, n: nat, c: Config, code: FailureCode)
    requires Clean(Stream(launches, n), c) && n <= c.maxRepairs
    ensures LaunchStep(Tallied(launches, n, c), launches(n), n, c).1 == Stop(code) <==> FailsAs(launches, n, c, code)
  {
    LastStep(launches, n, c);
    if launches(n).refused.Some? {
      RefusedAs(launches, n, c, code);
    } else if Clean(Stream(launches, n + 1), c) {
      CleanTallies(launches, n, c);
      JudgedAs(launches, n, c, code);
    } else {
      OffendsAs(launches, n, c, code);
    }
  }

  /** Every failure of every execution, and exactly when it is raised: the last launch was refused, its output offends, it
      timed out, it crashed, or its final message is out of budget or rejected for good. */
  lemma FailsIff(launches: nat -> Launch, c: Config, code: FailureCode, retryable: bool)
    ensures Execution(Begun, launches, 0, c).1 == Raised(code, retryable) <==>
      && (retryable <==> code == CodexTransportTimeout || code == CodexProcessCrash)
      && exists n: nat :: Ends(launches, n, c) && FailsAs(launches, n, c, code)
  {
    var n := EndsOnce(launches, c);
    ReachesLast(launches, n, c);
    CleanBefore(launches, n, c);
    StopsAs(launches, n, c, code);
    NoRepairAfterLast(launches, n, c);
  }

  lemma NoRepairAfterLast(launches: nat -> Launch, n: nat, c: Config)
    requires Ends(launches, n, c) && Clean(Stream(launches, n), c)
    ensures !LaunchStep(Tallied(launches, n, c), launches(n), n, c).1.Repair?
  {
    LaunchOutcome(launches, n, c);
  }

  /** The code OUTPUT_SCHEMA_VALIDATION_FAILED, never retryable, in particular. */
  lemma InvalidOutputIff(launches: nat -> Launch, c: Config)
    ensures Execution(Begun, launches, 0, c).1 == Raised(OutputSchemaValidationFailed, false) <==>
      exists n: nat :: Ends(launches, n, c) &&
        (launches(n).refused == Some(SchemaMissing) ||
         (Clean(Stream(launches, n + 1), c) && Ran(launches(n)) &&
          (VerdictAt(launches, n) == Rejected(false) || (VerdictAt(launches, n) == Rejected(true) && n == c.maxRepairs))))
  {
    FailsIff(launches, c, OutputSchemaValidationFailed, false);
  }

  // ----- success, launches and log

  /** The events lines are recorded as, blank lines apart. */
  ghost function EventsOf(lines: seq<Line>): seq<Kind> {
    if |lines| == 0 then [] else
      EventsOf(lines[..|lines| - 1]) +
      match lines[|lines| - 1]
      case Compacted(ids) => [ContextCompacted(ids)]
      case Raw(kind) => [CodexEvent(kind)]
      case _ => []
  }

  lemma {:induction false} CleanLog(lines: seq<Line>, c: Config)
    requires Clean(lines, c)
    ensures IngestAll(Begun, lines, c).0.log == [RunStarted] + EventsOf(lines)
  {
    if |lines| > 0 {
      var init, line := lines[..|lines| - 1], lines[|lines| - 1];
      assert lines == init + [line];
      CleanPrefix(init, line, c);
      CleanLog(init, c);
      IngestsCleanOutput(init, c);
    }
  }

  /** Reading records every line before the first offending one, and that line too if it is an event. */
  lemma UncleanLog(lines: seq<Line>, i: nat, c: Config)
    requires FirstOffence(lines, i, c)
    ensures IngestAll(Begun, lines, c).0.log == [RunStarted] + EventsOf(lines[..i + 1])
  {
    IngestStopsAt(lines, i, c);
    CleanLog(lines[..i], c);
    assert lines[..i + 1][..i] == lines[..i];
  }

  /** What of the last launch's output is read. */
  ghost predicate ReadUpTo(launches: nat -> Launch, n: nat, c: Config, read: seq<Line>) {
    if launches(n).refused.Some? then read == Stream(launches, n)
    else if Clean(Stream(launches, n + 1), c) then read == Stream(launches, n + 1)
    else ReadsToOffence(Stream(launches, n + 1), c, read)
  }

  ghost predicate ReadsToOffence(lines: seq<Line>, c: Config, read: seq<Line>) {
    exists i: nat :: StopsAfter(lines, i, c, read)
  }

  ghost predicate StopsAfter(lines: seq<Line>, i: nat, c: Config, read: seq<Line>) {
    FirstOffence(lines, i, c) && read == lines[..i + 1]
  }

  lemma ReadLog(launches: nat -> Launch, n: nat, c: Config, read: seq<Line>)
    requires Clean(Stream(launches, n), c) && ReadUpTo(launches, n, c, read)
    ensures LaunchStep(Tallied(launches, n, c), launches(n), n, c).0.log == [RunStarted] + EventsOf(read)
  {
    LastStep(launches, n, c);
    if launches(n).refused.Some? {
      CleanLog(Stream(launches, n), c);
    } else if Clean(Stream(launches, n + 1), c) {
      CleanLog(Stream(launches, n + 1), c);
    } else {
      var i: nat :| StopsAfter(Stream(launches, n + 1), i, c, read);
      UncleanLog(Stream(launches, n + 1), i, c);
    }
  }

  ghost function Ending(outcome: Outcome): seq<Kind> {
    match outcome
    case Raised(code, _) => [RunFailed(code)]
    case Executed(repairs, _, _) => [OutputValidated(repairs), RunCompleted]
  }

  /** The whole log of every execution: its start, the events of everything read up to its last launch, and its ending; and
      the number of launches made. */
  lemma LogIs(launches: nat -> Launch, c: Config, n: nat, read: seq<Line>)
    requires Ends(launches, n, c) && ReadUpTo(launches, n, c, read)
    ensures var (log, outcome, launched) := Execution(Begun, launches, 0, c);
      && log == [RunStarted] + EventsOf(read) + Ending(outcome)
      && launched == if launches(n).refused.Some? then n else n + 1
  {
    ReachesLast(launches, n, c);
    CleanBefore(launches, n, c);
    ReadLog(launches, n, c, read);
    NoRepairAfterLast(launches, n, c);
    if launches(n).refused.Some? { LastStep(launches, n, c); }
  }

  /** A successful execution reports its repairs and the events read, with the three the coordinator adds. */
  lemma SuccessReports(launches: nat -> Launch, c: Config, n: nat)
    requires AcceptedAt(launches, 0, n, c)
    ensures Execution(Begun, launches, 0, c).1 ==
      Executed(n, EventLines(Stream(launches, n + 1)), EventLines(Stream(launches, n + 1)) + 3)
  {
    forall j: nat | j < n ensures Repairs(launches, j, c) { CleanStreamPrefix(launches, j + 1, n + 1, c); }
    ReachesLast(launches, n, c);
    CleanStreamPrefix(launches, n, n + 1, c);
    AcceptedLeadsOn(launches, n, n, c);
    LaunchOutcome(launches, n, c);
    IngestsCleanOutput(Stream(launches, n + 1), c);
  }
}
