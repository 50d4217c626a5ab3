/** What one execution of a run records, as a function of what the launcher delivers. */
module RuntimeModel {
  import opened Prelude
  import opened Failures

  datatype RawKind = TurnStart | ToolStart(name: Option<string>) | OtherEvent

  /** One line of launcher output: blank, not an event, a compaction notice, or any other event. */
  datatype Line = Blank | Malformed | Compacted(retained: set<string>) | Raw(kind: RawKind)

  datatype Kind =
    | RunStarted | ContextCompacted(retained: set<string>) | CodexEvent(raw: RawKind)
    | OutputValidated(repairs: nat) | RunCompleted | RunFailed(code: FailureCode)

  datatype Event = Event(no: int, kind: Kind)

  /** Why an invocation may be refused before anything is launched. */
  datatype Refusal = WorkspaceMismatched | ToolPolicyRejected | SchemaMissing | PromptTooLong

  function RefusalCode(r: Refusal): FailureCode {
    match r
    case WorkspaceMismatched => WorkspaceMismatch
    case ToolPolicyRejected => ExecutionPolicyRejected
    case SchemaMissing => OutputSchemaValidationFailed
    case PromptTooLong => BudgetExceeded
  }

  datatype Verdict = Accepted(turns: nat, tools: nat) | Rejected(repairable: bool)

  /** One launch: its output lines, how the process ended, and what the validator says of the final message, which may
      depend on the artifacts retained by the latest compaction; None when no final message was written. */
  datatype Launch = Launch(
    refused: Option<Refusal>, lines: seq<Line>, timedOut: bool, exitCode: int,
    final: Option<Option<set<string>> -> Verdict>)

  datatype Config = Config(maxTurns: nat, maxTools: nat, maxRepairs: nat, allowed: set<string>)

  /** What has been recorded so far, with the counters kept beside it. */
  datatype Tally = Tally(log: seq<Kind>, raw: nat, turns: nat, tools: nat, retained: Option<set<string>>)

  const Begun := Tally([RunStarted], 0, 0, 0, None)

  predicate OverBudget(turns: nat, tools: nat, c: Config) {
    turns > c.maxTurns || tools > c.maxTools
  }

  function WithinBudget(t: Tally, c: Config): (Tally, Option<FailureCode>) {
    (t, if OverBudget(t.turns, t.tools, c) then Some(BudgetExceeded) else None)
  }

  /** One line is recorded and counted, or stops the execution with a failure. */
  function Ingest(t: Tally, line: Line, c: Config): (Tally, Option<FailureCode>) {
    match line
    case Blank => (t, None)
    case Malformed => (t, Some(MalformedCodexEvent))
    case Compacted(ids) =>
      WithinBudget(t.(log := t.log + [ContextCompacted(ids)], raw := t.raw + 1, retained := Some(ids)), c)
    case Raw(kind) =>
      var seen := t.(log := t.log + [CodexEvent(kind)], raw := t.raw + 1);
      match kind
      case TurnStart => WithinBudget(seen.(turns := t.turns + 1), c)
      case ToolStart(name) =>
        if name.Some? && name.value in c.allowed then WithinBudget(seen.(tools := t.tools + 1), c)
        else (seen, Some(ExecutionPolicyRejected))
      case OtherEvent => WithinBudget(seen, c)
  }

  function IngestAll(t: Tally, lines: seq<Line>, c: Config): (Tally, Option<FailureCode>) {
    if |lines| == 0 then (t, None) else
      var (before, failure) := IngestAll(t, lines[..|lines| - 1], c);
      if failure.Some? then (before, failure) else Ingest(before, lines[|lines| - 1], c)
  }

  datatype Next = Stop(code: FailureCode) | Repair | Finish

  /** What follows the k-th launch (from 0): t counts before its output, u after. */
  function Conclude(t: Tally, u: Tally, l: Launch, k: nat, c: Config): (next: Next)
    ensures next.Repair? ==> k < c.maxRepairs
  {
    if l.timedOut then Stop(CodexTransportTimeout)
    else if u.raw == t.raw || l.exitCode != 0 || l.final.None? then Stop(CodexProcessCrash)
    else
      match l.final.value(u.retained)
      case Rejected(repairable) => if repairable && k < c.maxRepairs then Repair else Stop(OutputSchemaValidationFailed)
      case Accepted(turns, tools) => if OverBudget(turns, tools, c) then Stop(BudgetExceeded) else Finish
  }

  function LaunchStep(t: Tally, l: Launch, k: nat, c: Config): (r: (Tally, Next))
    ensures r.1.Repair? ==> k < c.maxRepairs
  {
    if l.refused.Some? then (t, Stop(RefusalCode(l.refused.value))) else
      var (u, failure) := IngestAll(t, l.lines, c);
      (u, if failure.Some? then Stop(failure.value) else Conclude(t, u, l, k, c))
  }

  datatype Outcome = Executed(proposalRepairs: nat, rawCount: nat, normalizedCount: nat) | Raised(code: FailureCode, retryable: bool)

  predicate RetryableCode(code: FailureCode) {
    code == CodexTransportTimeout || code == CodexProcessCrash
  }

  /** The whole execution from the k-th launch on: what is recorded, its outcome, and how many launches were made. */
  function Execution(t: Tally, launches: nat -> Launch, k: nat, c: Config): (seq<Kind>, Outcome, nat)
    decreases c.maxRepairs - k
  {
    var (u, next) := LaunchStep(t, launches(k), k, c);
    match next
    case Stop(code) =>
      (u.log + [RunFailed(code)], Raised(code, RetryableCode(code)), if launches(k).refused.Some? then k else k + 1)
    case Finish => (u.log + [OutputValidated(k), RunCompleted], Executed(k, u.raw, u.raw + 3), k + 1)
    case Repair => Execution(u, launches, k + 1, c)
  }

  function Numbered(first: int, log: seq<Kind>): (events: seq<Event>) {
    seq(|log|, i requires 0 <= i < |log| => Event(first + i, log[i]))
  }

  /** The number after the greatest used so far, 0 when none was. */
  ghost predicate IsNextSeq(events: seq<Event>, n: int) {
    if |events| == 0 then n == 0 else
      (exists e :: e in events && e.no + 1 == n) && forall e :: e in events ==> e.no < n
  }
}
