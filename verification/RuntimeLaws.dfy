/** The event protocol, budgets and accounting of every execution, and exactly when an execution succeeds. */
module RuntimeLaws {
  import opened Prelude
  import opened Failures
  import opened RuntimeModel

  // ----- folds over the log

  predicate IsTurn(k: Kind) {
    k.CodexEvent? && k.raw.TurnStart?
  }

  predicate IsTool(k: Kind) {
    k.CodexEvent? && k.raw.ToolStart?
  }

  predicate IsRaw(k: Kind) {
    k.CodexEvent? || k.ContextCompacted?
  }

  predicate Terminal(k: Kind) {
    k.RunCompleted? || k.RunFailed?
  }

  function Turns(log: seq<Kind>): nat {
    if |log| == 0 then 0 else Turns(log[..|log| - 1]) + if IsTurn(log[|log| - 1]) then 1 else 0
  }

  function Tools(log: seq<Kind>): nat {
    if |log| == 0 then 0 else Tools(log[..|log| - 1]) + if IsTool(log[|log| - 1]) then 1 else 0
  }

  function Raws(log: seq<Kind>): nat {
    if |log| == 0 then 0 else Raws(log[..|log| - 1]) + if IsRaw(log[|log| - 1]) then 1 else 0
  }

  function LastRetained(log: seq<Kind>): Option<set<string>> {
    if |log| == 0 then None
    else if log[|log| - 1].ContextCompacted? then Some(log[|log| - 1].retained)
    else LastRetained(log[..|log| - 1])
  }

  predicate Permitted(k: Kind, c: Config) {
    IsTool(k) ==> k.raw.name.Some? && k.raw.name.value in c.allowed
  }

  lemma FoldsOfOneMore(log: seq<Kind>, k: Kind)
    ensures Turns(log + [k]) == Turns(log) + if IsTurn(k) then 1 else 0
    ensures Tools(log + [k]) == Tools(log) + if IsTool(k) then 1 else 0
    ensures Raws(log + [k]) == Raws(log) + if IsRaw(k) then 1 else 0
    ensures LastRetained(log + [k]) == if k.ContextCompacted? then Some(k.retained) else LastRetained(log)
  {
    assert (log + [k])[..|log|] == log;
  }

  /** The counters are folds over the log, which is a start followed by permitted launcher events, within budget. */
  ghost predicate Faithful(t: Tally, c: Config) {
    && |t.log| > 0 && t.log[0] == RunStarted
    && (forall i :: 0 < i < |t.log| ==> IsRaw(t.log[i]) && Permitted(t.log[i], c))
    && t.turns == Turns(t.log) <= c.maxTurns
    && t.tools == Tools(t.log) <= c.maxTools
    && t.raw == Raws(t.log) == |t.log| - 1
    && t.retained == LastRetained(t.log)
  }

  /** At most one event after a faithful log, which overruns a budget by at most one or is not permitted. */
  ghost predicate BarelyFailed(t: Tally, c: Config) {
    && |t.log| > 0 && t.log[0] == RunStarted
    && (forall i :: 0 < i < |t.log| ==> IsRaw(t.log[i]))
    && (forall i :: 0 < i < |t.log| - 1 ==> Permitted(t.log[i], c))
    && Turns(t.log) <= c.maxTurns + 1
    && Tools(t.log) <= c.maxTools + 1
  }

  lemma BegunIsFaithful(c: Config)
    ensures Faithful(Begun, c)
  {
    FoldsOfOneMore([], RunStarted);
    assert [] + [RunStarted] == Begun.log;
  }

  /** The event a line is recorded as. */
  function Recorded(line: Line): Kind
    requires line.Compacted? || line.Raw?
  {
    match line
    case Compacted(ids) => ContextCompacted(ids)
    case Raw(kind) => CodexEvent(kind)
  }

  lemma RecordedLog(t: Tally, line: Line, c: Config)
    requires line.Compacted? || line.Raw?
    ensures Ingest(t, line, c).0.log == t.log + [Recorded(line)]
  {
  }

  lemma IngestKeepsFaithful(t: Tally, line: Line, c: Config)
    requires Faithful(t, c) && Ingest(t, line, c).1 == None
    ensures Faithful(Ingest(t, line, c).0, c)
  {
    if line.Compacted? || line.Raw? {
      FoldsOfOneMore(t.log, Recorded(line));
      RecordedLog(t, line, c);
    }
  }

  lemma IngestBarelyFails(t: Tally, line: Line, c: Config)
    requires Faithful(t, c) && Ingest(t, line, c).1.Some?
    ensures BarelyFailed(Ingest(t, line, c).0, c)
  {
    if line.Compacted? || line.Raw? {
      FoldsOfOneMore(t.log, Recorded(line));
      RecordedLog(t, line, c);
    }
  }

  lemma {:induction false} IngestAllKeepsFaithful(t: Tally, lines: seq<Line>, c: Config)
    requires Faithful(t, c)
    ensures IngestAll(t, lines, c).1 == None ==> Faithful(IngestAll(t, lines, c).0, c)
    ensures IngestAll(t, lines, c).1.Some? ==> BarelyFailed(IngestAll(t, lines, c).0, c)
  {
    if |lines| > 0 {
      IngestAllKeepsFaithful(t, lines[..|lines| - 1], c);
      var (u, failure) := IngestAll(t, lines[..|lines| - 1], c);
      if failure.None? {
        if Ingest(u, lines[|lines| - 1], c).1 == None {
          IngestKeepsFaithful(u, lines[|lines| - 1], c);
        } else {
          IngestBarelyFails(u, lines[|lines| - 1], c);
        }
      }
    }
  }

  lemma LaunchKeepsFaithful(t: Tally, l: Launch, k: nat, c: Config)
    requires Faithful(t, c)
    ensures var (u, next) := LaunchStep(t, l, k, c);
      (if next.Stop? then BarelyFailed(u, c) else Faithful(u, c))
  {
    IngestAllKeepsFaithful(t, l.lines, c);
  }

  // ----- the protocol of one execution

  /** RUN_STARTED first; exactly one terminal event, last; it is RUN_COMPLETED just when the execution succeeds. */
  ghost predicate Protocol(log: seq<Kind>, outcome: Outcome) {
    && |log| >= 2 && log[0] == RunStarted
    && (forall i :: 0 <= i < |log| - 1 ==> !Terminal(log[i]))
    && log[|log| - 1] == (match outcome case Executed(_, _, _) => RunCompleted case Raised(code, _) => RunFailed(code))
  }

  lemma {:induction false} ExecutionFollowsProtocol(t: Tally, launches: nat -> Launch, k: nat, c: Config)
    requires Faithful(t, c)
    ensures Protocol(Execution(t, launches, k, c).0, Execution(t, launches, k, c).1)
    decreases c.maxRepairs - k
  {
    LaunchKeepsFaithful(t, launches(k), k, c);
    var (u, next) := LaunchStep(t, launches(k), k, c);
    if next.Repair? {
      ExecutionFollowsProtocol(u, launches, k + 1, c);
    }
  }

  /** Every execution starts with RUN_STARTED and ends with its one terminal event, launches at most one more time than
      repairs are allowed, and is retryable just for a timeout or a crash. */
  lemma EveryExecutionFollowsProtocol(launches: nat -> Launch, c: Config)
    ensures var (log, outcome, launched) := Execution(Begun, launches, 0, c);
      && Protocol(log, outcome)
      && launched <= c.maxRepairs + 1
      && (outcome.Raised? ==> (outcome.retryable <==> outcome.code in {CodexTransportTimeout, CodexProcessCrash}))
  {
    BegunIsFaithful(c);
    ExecutionFollowsProtocol(Begun, launches, 0, c);
    LaunchesAreBounded(Begun, launches, 0, c);
  }

  lemma {:induction false} LaunchesAreBounded(t: Tally, launches: nat -> Launch, k: nat, c: Config)
    requires k <= c.maxRepairs
    ensures var (log, outcome, launched) := Execution(t, launches, k, c);
      && launched <= c.maxRepairs + 1
      && (outcome.Raised? ==> outcome.retryable == RetryableCode(outcome.code))
      && (outcome.Executed? ==> launched == outcome.proposalRepairs + 1)
    decreases c.maxRepairs - k
  {
    var (u, next) := LaunchStep(t, launches(k), k, c);
    if next.Repair? {
      LaunchesAreBounded(u, launches, k + 1, c);
    }
  }

  /** What a successful execution reports about its log. */
  ghost predicate Reported(log: seq<Kind>, outcome: Outcome, c: Config) {
    outcome.Executed? ==>
      && outcome.normalizedCount == |log|
      && outcome.rawCount == Raws(log)
      && Turns(log) <= c.maxTurns && Tools(log) <= c.maxTools
      && (forall i :: 0 <= i < |log| ==> Permitted(log[i], c))
      && |log| >= 2 && log[|log| - 2] == OutputValidated(outcome.proposalRepairs)
  }

  lemma FinishedLog(u: Tally, k: nat, c: Config)
    requires Faithful(u, c)
    ensures Reported(u.log + [OutputValidated(k), RunCompleted], Executed(k, u.raw, u.raw + 3), c)
  {
    FoldsOfOneMore(u.log, OutputValidated(k));
    FoldsOfOneMore(u.log + [OutputValidated(k)], RunCompleted);
    assert u.log + [OutputValidated(k)] + [RunCompleted] == u.log + [OutputValidated(k), RunCompleted];
  }

  /** The reported event counts are the events appended, and turns and tool calls are within budget summed over all repairs. */
  lemma {:induction false} SuccessIsWithinBudget(t: Tally, launches: nat -> Launch, k: nat, c: Config)
    requires Faithful(t, c)
    ensures Reported(Execution(t, launches, k, c).0, Execution(t, launches, k, c).1, c)
    decreases c.maxRepairs - k
  {
    LaunchKeepsFaithful(t, launches(k), k, c);
    var (u, next) := LaunchStep(t, launches(k), k, c);
    match next
    case Stop(_) =>
    case Finish => FinishedLog(u, k, c);
    case Repair => SuccessIsWithinBudget(u, launches, k + 1, c);
  }

  lemma EverySuccessIsWithinBudget(launches: nat -> Launch, c: Config)
    ensures Reported(Execution(Begun, launches, 0, c).0, Execution(Begun, launches, 0, c).1, c)
  {
    BegunIsFaithful(c);
    SuccessIsWithinBudget(Begun, launches, 0, c);
  }

  /** Even a failed execution records at most one turn or tool call beyond its budget. */
  lemma {:induction false} OverrunIsAtMostOne(t: Tally, launches: nat -> Launch, k: nat, c: Config)
    requires Faithful(t, c)
    ensures Turns(Execution(t, launches, k, c).0) <= c.maxTurns + 1
    ensures Tools(Execution(t, launches, k, c).0) <= c.maxTools + 1
    decreases c.maxRepairs - k
  {
    LaunchKeepsFaithful(t, launches(k), k, c);
    var (u, next) := LaunchStep(t, launches(k), k, c);
    match next
    case Stop(code) => FoldsOfOneMore(u.log, RunFailed(code));
    case Finish => FinishedLog(u, k, c);
    case Repair => OverrunIsAtMostOne(u, launches, k + 1, c);
  }

  // ----- exactly when an execution succeeds

  function TurnLines(lines: seq<Line>): nat {
    if |lines| == 0 then 0 else TurnLines(lines[..|lines| - 1]) + if lines[|lines| - 1] == Raw(TurnStart) then 1 else 0
  }

  function ToolLines(lines: seq<Line>): nat {
    if |lines| == 0 then 0 else
      var l := lines[|lines| - 1];
      ToolLines(lines[..|lines| - 1]) + if l.Raw? && l.kind.ToolStart? then 1 else 0
  }

  function EventLines(lines: seq<Line>): nat {
    if |lines| == 0 then 0 else EventLines(lines[..|lines| - 1]) + if lines[|lines| - 1] == Blank then 0 else 1
  }

  function RetainedBy(lines: seq<Line>): Option<set<string>> {
    if |lines| == 0 then None
    else if lines[|lines| - 1].Compacted? then Some(lines[|lines| - 1].retained)
    else RetainedBy(lines[..|lines| - 1])
  }

  predicate LineAllowed(l: Line, c: Config) {
    !l.Malformed? && (l.Raw? && l.kind.ToolStart? ==> l.kind.name.Some? && l.kind.name.value in c.allowed)
  }

  /** Nothing malformed, only permitted tools, and both budgets kept. */
  ghost predicate Clean(lines: seq<Line>, c: Config) {
    && (forall i :: 0 <= i < |lines| ==> LineAllowed(lines[i], c))
    && TurnLines(lines) <= c.maxTurns && ToolLines(lines) <= c.maxTools
  }

  ghost predicate Reads(t: Tally, lines: seq<Line>) {
    t.turns == TurnLines(lines) && t.tools == ToolLines(lines) && t.raw == EventLines(lines) && t.retained == RetainedBy(lines)
  }

  lemma IngestReads(t: Tally, lines: seq<Line>, line: Line, c: Config)
    requires Reads(t, lines) && Clean(lines, c)
    ensures Ingest(t, line, c).1 == None <==> Clean(lines + [line], c)
    ensures Ingest(t, line, c).1 == None ==> Reads(Ingest(t, line, c).0, lines + [line])
  {
    assert (lines + [line])[..|lines|] == lines;
    assert forall i :: 0 <= i < |lines| ==> (lines + [line])[i] == lines[i];
    assert Clean(lines + [line], c) <==>
      LineAllowed(line, c) && TurnLines(lines + [line]) <= c.maxTurns && ToolLines(lines + [line]) <= c.maxTools;
    match line
    case Blank =>
    case Malformed =>
    case Compacted(_) =>
    case Raw(kind) =>
  }

  lemma CleanPrefix(lines: seq<Line>, line: Line, c: Config)
    requires Clean(lines + [line], c)
    ensures Clean(lines, c)
  {
    assert (lines + [line])[..|lines|] == lines;
    forall i | 0 <= i < |lines| ensures LineAllowed(lines[i], c) {
      assert (lines + [line])[i] == lines[i];
    }
  }

  /** Reading succeeds exactly on clean output, and then the tally reflects it. */
  lemma {:induction false} IngestsCleanOutput(lines: seq<Line>, c: Config)
    ensures IngestAll(Begun, lines, c).1 == None <==> Clean(lines, c)
    ensures Clean(lines, c) ==> Reads(IngestAll(Begun, lines, c).0, lines)
  {
    if |lines| > 0 {
      var init, line := lines[..|lines| - 1], lines[|lines| - 1];
      assert lines == init + [line];
      IngestsCleanOutput(init, c);
      if Clean(lines, c) { CleanPrefix(init, line, c); }
      if Clean(init, c) { IngestReads(IngestAll(Begun, init, c).0, init, line, c); }
    }
  }

  /** The output of the first n launches, in order. */
  function Stream(launches: nat -> Launch, n: nat): seq<Line> {
    if n == 0 then [] else Stream(launches, n - 1) + launches(n - 1).lines
  }

  lemma {:induction false} IngestInParts(t: Tally, a: seq<Line>, b: seq<Line>, c: Config)
    ensures IngestAll(t, a + b, c) ==
      if IngestAll(t, a, c).1.Some? then IngestAll(t, a, c) else IngestAll(IngestAll(t, a, c).0, b, c)
  {
    if |b| == 0 {
      assert a + b == a;
    } else {
      assert (a + b)[..|a + b| - 1] == a + b[..|b| - 1];
      IngestInParts(t, a, b[..|b| - 1], c);
    }
  }

  lemma {:induction false} EventsInParts(a: seq<Line>, b: seq<Line>)
    ensures EventLines(a + b) == EventLines(a) + EventLines(b)
  {
    if |b| == 0 {
      assert a + b == a;
    } else {
      assert (a + b)[..|a + b| - 1] == a + b[..|b| - 1];
      EventsInParts(a, b[..|b| - 1]);
    }
  }

  /** The launch was made, ended well after at least one event, and left a final message. */
  ghost predicate Ran(l: Launch) {
    l.refused.None? && !l.timedOut && l.exitCode == 0 && l.final.Some? && EventLines(l.lines) > 0
  }

  ghost function VerdictAt(launches: nat -> Launch, k: nat): Verdict
    requires launches(k).final.Some?
  {
    launches(k).final.value(RetainedBy(Stream(launches, k + 1)))
  }

  /** From launch k on, launch n is the first whose final message is accepted; all before it were repairable. */
  ghost predicate AcceptedAt(launches: nat -> Launch, k: nat, n: nat, c: Config) {
    && k <= n <= c.maxRepairs
    && Clean(Stream(launches, n + 1), c)
    && (forall j: nat :: k <= j <= n ==> Ran(launches(j)))
    && (forall j: nat :: k <= j < n ==> VerdictAt(launches, j) == Rejected(true))
    && VerdictAt(launches, n).Accepted? && !OverBudget(VerdictAt(launches, n).turns, VerdictAt(launches, n).tools, c)
  }

  /** Launch k leads on: to the end when its message is accepted, to a repair otherwise. */
  ghost predicate LeadsOn(launches: nat -> Launch, k: nat, c: Config) {
    && Clean(Stream(launches, k + 1), c)
    && Ran(launches(k))
    && match VerdictAt(launches, k)
       case Accepted(turns, tools) => !OverBudget(turns, tools, c)
       case Rejected(repairable) => repairable && k < c.maxRepairs
  }

  lemma LaunchOutcome(launches: nat -> Launch, k: nat, c: Config)
    requires Clean(Stream(launches, k), c)
    ensures var (u, next) := LaunchStep(IngestAll(Begun, Stream(launches, k), c).0, launches(k), k, c);
      && (!next.Stop? <==> LeadsOn(launches, k, c))
      && (!next.Stop? ==> u == IngestAll(Begun, Stream(launches, k + 1), c).0)
      && (!next.Stop? ==> (next.Finish? <==> VerdictAt(launches, k).Accepted?))
  {
    var before, after := Stream(launches, k), Stream(launches, k + 1);
    IngestsCleanOutput(before, c);
    IngestsCleanOutput(after, c);
    IngestInParts(Begun, before, launches(k).lines, c);
    EventsInParts(before, launches(k).lines);
  }

  lemma {:induction false} CleanStreamPrefix(launches: nat -> Launch, k: nat, n: nat, c: Config)
    requires k <= n && Clean(Stream(launches, n), c)
    ensures Clean(Stream(launches, k), c)
  {
    if k < n {
      IngestsCleanOutput(Stream(launches, n), c);
      IngestInParts(Begun, Stream(launches, n - 1), launches(n - 1).lines, c);
      IngestsCleanOutput(Stream(launches, n - 1), c);
      CleanStreamPrefix(launches, k, n - 1, c);
    }
  }

  lemma AcceptedLeadsOn(launches: nat -> Launch, k: nat, n: nat, c: Config)
    requires AcceptedAt(launches, k, n, c)
    ensures LeadsOn(launches, k, c)
  {
    CleanStreamPrefix(launches, k + 1, n + 1, c);
  }

  ghost predicate SomeAccepted(launches: nat -> Launch, k: nat, c: Config) {
    exists n: nat :: AcceptedAt(launches, k, n, c)
  }

  lemma AcceptedLeadsOnward(launches: nat -> Launch, k: nat, c: Config)
    ensures SomeAccepted(launches, k, c) ==> LeadsOn(launches, k, c)
  {
    forall n: nat | AcceptedAt(launches, k, n, c) ensures LeadsOn(launches, k, c) {
      AcceptedLeadsOn(launches, k, n, c);
    }
  }

  lemma AcceptedNow(launches: nat -> Launch, k: nat, c: Config)
    requires k <= c.maxRepairs && LeadsOn(launches, k, c) && VerdictAt(launches, k).Accepted?
    ensures SomeAccepted(launches, k, c)
  {
    assert AcceptedAt(launches, k, k, c);
  }

  lemma AcceptedLater(launches: nat -> Launch, k: nat, c: Config)
    requires LeadsOn(launches, k, c) && VerdictAt(launches, k).Rejected?
    ensures SomeAccepted(launches, k, c) <==> SomeAccepted(launches, k + 1, c)
  {
    if SomeAccepted(launches, k, c) {
      var n: nat :| AcceptedAt(launches, k, n, c);
      assert AcceptedAt(launches, k + 1, n, c);
    }
    if SomeAccepted(launches, k + 1, c) {
      var n: nat :| AcceptedAt(launches, k + 1, n, c);
      assert AcceptedAt(launches, k, n, c);
    }
  }

  /** The execution from launch k on, after clean output so far. */
  ghost predicate SucceedsAt(launches: nat -> Launch, k: nat, c: Config) {
    Execution(IngestAll(Begun, Stream(launches, k), c).0, launches, k, c).1.Executed?
  }

  lemma SucceedsStep(launches: nat -> Launch, k: nat, c: Config)
    requires Clean(Stream(launches, k), c)
    ensures SucceedsAt(launches, k, c) <==>
      LeadsOn(launches, k, c) && (VerdictAt(launches, k).Rejected? ==> SucceedsAt(launches, k + 1, c))
  {
    LaunchOutcome(launches, k, c);
  }

  lemma {:induction false} SucceedsFrom(launches: nat -> Launch, k: nat, c: Config)
    requires k <= c.maxRepairs && Clean(Stream(launches, k), c)
    ensures SucceedsAt(launches, k, c) <==> SomeAccepted(launches, k, c)
    decreases c.maxRepairs - k
  {
    SucceedsStep(launches, k, c);
    AcceptedLeadsOnward(launches, k, c);
    if LeadsOn(launches, k, c) {
      if VerdictAt(launches, k).Accepted? {
        AcceptedNow(launches, k, c);
      } else {
        SucceedsFrom(launches, k + 1, c);
        AcceptedLater(launches, k, c);
      }
    }
  }

  /** An execution succeeds exactly when some launch within the repair limit is accepted, every launch up to it ran to its
      end and all before it were repairable, and their whole output is clean under the cumulative budgets. */
  lemma SucceedsIff(launches: nat -> Launch, c: Config)
    ensures Execution(Begun, launches, 0, c).1.Executed? <==> exists n: nat :: AcceptedAt(launches, 0, n, c)
  {
    assert Stream(launches, 0) == [];
    SucceedsFrom(launches, 0, c);
  }
}
