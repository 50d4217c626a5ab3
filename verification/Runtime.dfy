/** The runtime coordinator as it runs: events are appended one at a time while counters are kept beside the log. */
module Runtime {
  import opened Prelude
  import opened Failures
  import opened RuntimeModel

  class Coordinator {
    var events: seq<Event>
    var next: int
    var raw: nat
    var turns: nat
    var tools: nat
    var retained: Option<set<string>>
    const config: Config

    constructor (config: Config, events: seq<Event>)
      ensures this.config == config && this.events == events
    {
      this.config, this.events := config, events;
      next, raw, turns, tools, retained := 0, 0, 0, 0, None;
    }

    /** The log is the events of earlier executions, then these, numbered from first. */
    ghost predicate Logged(earlier: seq<Event>, first: int, log: seq<Kind>)
      reads this
    {
      IsNextSeq(earlier, first) && events == earlier + Numbered(first, log) && next == first + |log|
    }

    ghost predicate At(earlier: seq<Event>, first: int, t: Tally)
      reads this
    {
      Logged(earlier, first, t.log) && raw == t.raw && turns == t.turns && tools == t.tools && retained == t.retained
    }

    /** The execution has failed: the failure is logged last. */
    ghost predicate FailedAt(earlier: seq<Event>, first: int, log: seq<Kind>, code: FailureCode)
      reads this
    {
      IsNextSeq(earlier, first) && events == earlier + Numbered(first, log + [RunFailed(code)])
    }

    method NextEventSeq() returns (n: int)
      ensures IsNextSeq(events, n)
    {
      n := 0;
      for i := 0 to |events|
        invariant IsNextSeq(events[..i], n)
      {
        assert events[..i + 1] == events[..i] + [events[i]];
        if i == 0 || events[i].no + 1 > n {
          n := events[i].no + 1;
        }
      }
      assert events[..|events|] == events;
    }

    /** Event numbers are unique per run; a number already used is refused. */
    method AppendEvent(e: Event) returns (ok: bool)
      modifies this`events
      ensures ok == (forall d :: d in old(events) ==> d.no != e.no)
      ensures events == if ok then old(events) + [e] else old(events)
    {
      ok := !(exists d | d in events :: d.no == e.no);
      if ok {
        events := events + [e];
      }
    }

    /** Appends under the running number, which is never a number already used. */
    method Record(kind: Kind, ghost earlier: seq<Event>, ghost first: int, ghost log: seq<Kind>)
      requires Logged(earlier, first, log)
      modifies this`events
      ensures events == earlier + Numbered(first, log + [kind])
    {
      var ok := AppendEvent(Event(next, kind));
      assert ok;
      assert Numbered(first, log + [kind]) == Numbered(first, log) + [Event(next, kind)];
    }

    method RecordNext(kind: Kind, ghost earlier: seq<Event>, ghost first: int, ghost log: seq<Kind>)
      requires Logged(earlier, first, log)
      modifies this`events, this`next
      ensures Logged(earlier, first, log + [kind])
    {
      Record(kind, earlier, first, log);
      next := next + 1;
    }

    method HandleStdoutLine(line: Line, ghost earlier: seq<Event>, ghost first: int, ghost t: Tally)
      returns (failure: Option<FailureCode>)
      requires At(earlier, first, t)
      modifies this
      ensures failure == Ingest(t, line, config).1
      ensures failure == None ==> At(earlier, first, Ingest(t, line, config).0)
      ensures failure.Some? ==> FailedAt(earlier, first, Ingest(t, line, config).0.log, failure.value)
    {
      failure := None;
      if line.Blank? {
        return;
      }
      if line.Malformed? {
        Record(RunFailed(MalformedCodexEvent), earlier, first, t.log);
        return Some(MalformedCodexEvent);
      }
      var kind := if line.Compacted? then ContextCompacted(line.retained) else CodexEvent(line.kind);
      RecordNext(kind, earlier, first, t.log);
      raw := raw + 1;
      if line.Compacted? {
        retained := Some(line.retained);
      } else if line.kind.TurnStart? {
        turns := turns + 1;
      } else if line.kind.ToolStart? {
        if !(line.kind.name.Some? && line.kind.name.value in config.allowed) {
          Record(RunFailed(ExecutionPolicyRejected), earlier, first, t.log + [kind]);
          return Some(ExecutionPolicyRejected);
        }
        tools := tools + 1;
      }
      if turns > config.maxTurns {
        Record(RunFailed(BudgetExceeded), earlier, first, t.log + [kind]);
        return Some(BudgetExceeded);
      }
      if tools > config.maxTools {
        Record(RunFailed(BudgetExceeded), earlier, first, t.log + [kind]);
        return Some(BudgetExceeded);
      }
    }

    method HandleLines(lines: seq<Line>, ghost earlier: seq<Event>, ghost first: int, ghost t: Tally)
      returns (failure: Option<FailureCode>)
      requires At(earlier, first, t)
      modifies this
      ensures failure == IngestAll(t, lines, config).1
      ensures failure == None ==> At(earlier, first, IngestAll(t, lines, config).0)
      ensures failure.Some? ==> FailedAt(earlier, first, IngestAll(t, lines, config).0.log, failure.value)
    {
      failure := None;
      var i := 0;
      while i < |lines| && failure.None?
        invariant i <= |lines|
        invariant failure == IngestAll(t, lines[..i], config).1
        invariant failure == None ==> At(earlier, first, IngestAll(t, lines[..i], config).0)
        invariant failure.Some? ==> FailedAt(earlier, first, IngestAll(t, lines[..i], config).0.log, failure.value)
      {
        assert lines[..i + 1][..i] == lines[..i];
        failure := HandleStdoutLine(lines[i], earlier, first, IngestAll(t, lines[..i], config).0);
        i := i + 1;
      }
      if failure.None? {
        assert lines[..i] == lines;
      } else {
        FailureIsFinal(t, lines, i, config);
      }
    }

    /** One launch and the judgement of its result; repairs counts the launches before it. */
    method RunLaunch(l: Launch, repairs: nat, ghost earlier: seq<Event>, ghost first: int, ghost t: Tally)
      returns (next: Next, retryable: bool)
      requires At(earlier, first, t)
      modifies this
      ensures next == LaunchStep(t, l, repairs, config).1
      ensures next.Stop? ==>
        FailedAt(earlier, first, LaunchStep(t, l, repairs, config).0.log, next.code) && retryable == RetryableCode(next.code)
      ensures !next.Stop? ==> At(earlier, first, LaunchStep(t, l, repairs, config).0)
    {
      retryable := false;
      if l.refused.Some? {
        var code := RefusalCode(l.refused.value);
        Record(RunFailed(code), earlier, first, t.log);
        return Stop(code), false;
      }
      var rawBefore := raw;
      var failure := HandleLines(l.lines, earlier, first, t);
      if failure.Some? {
        IngestCodes(t, l.lines, config);
        return Stop(failure.value), false;
      }
      ghost var u := IngestAll(t, l.lines, config).0;
      if l.timedOut {
        Record(RunFailed(CodexTransportTimeout), earlier, first, u.log);
        return Stop(CodexTransportTimeout), true;
      }
      if raw == rawBefore || l.exitCode != 0 {
        Record(RunFailed(CodexProcessCrash), earlier, first, u.log);
        return Stop(CodexProcessCrash), true;
      }
      if l.final.None? {
        Record(RunFailed(CodexProcessCrash), earlier, first, u.log);
        return Stop(CodexProcessCrash), true;
      }
      var verdict := l.final.value(retained);
      if verdict.Accepted? {
        if verdict.turns > config.maxTurns || verdict.tools > config.maxTools {
          Record(RunFailed(BudgetExceeded), earlier, first, u.log);
          return Stop(BudgetExceeded), false;
        }
        return Finish, false;
      }
      if !verdict.repairable || repairs >= config.maxRepairs {
        Record(RunFailed(OutputSchemaValidationFailed), earlier, first, u.log);
        return Stop(OutputSchemaValidationFailed), false;
      }
      next := Repair;
    }

    method RecordCompletion(repairs: nat, ghost earlier: seq<Event>, ghost first: int, ghost log: seq<Kind>)
      requires Logged(earlier, first, log)
      modifies this`events, this`next
      ensures events == earlier + Numbered(first, log + [OutputValidated(repairs), RunCompleted])
    {
      RecordNext(OutputValidated(repairs), earlier, first, log);
      Record(RunCompleted, earlier, first, log + [OutputValidated(repairs)]);
      assert log + [OutputValidated(repairs)] + [RunCompleted] == log + [OutputValidated(repairs), RunCompleted];
    }

    /** The log of this execution follows whatever the run's log held, numbered on from it. */
    ghost predicate Appended(earlier: seq<Event>, log: seq<Kind>)
      reads this
    {
      exists first :: IsNextSeq(earlier, first) && events == earlier + Numbered(first, log)
    }

    /** Executes a run against a launcher whose k-th launch delivers launches(k); launched counts the launches made. */
    method Execute(launches: nat -> Launch) returns (outcome: Outcome, launched: nat)
      modifies this
      ensures (outcome, launched) == (Execution(Begun, launches, 0, config).1, Execution(Begun, launches, 0, config).2)
      ensures Appended(old(events), Execution(Begun, launches, 0, config).0)
    {
      ghost var earlier := events;
      next := NextEventSeq();
      ghost var first := next;
      assert Numbered(first, []) == [];
      RecordNext(RunStarted, earlier, first, []);
      raw, turns, tools, retained := 0, 0, 0, None;
      ghost var t := Begun;
      ghost var plan := Execution(Begun, launches, 0, config);
      var repairs: nat := 0;
      launched := 0;
      while true
        invariant At(earlier, first, t)
        invariant launched == repairs <= config.maxRepairs
        invariant plan == Execution(t, launches, repairs, config)
        decreases config.maxRepairs - repairs
      {
        var l := launches(repairs);
        ghost var u := LaunchStep(t, l, repairs, config).0;
        if l.refused.None? {
          launched := launched + 1;
        }
        var next, retryable := RunLaunch(l, repairs, earlier, first, t);
        if next.Stop? {
          return Raised(next.code, retryable), launched;
        }
        if next.Finish? {
          RecordCompletion(repairs, earlier, first, u.log);
          return Executed(repairs, raw, raw + 3), launched;
        }
        repairs := repairs + 1;
        t := u;
      }
    }
  }

  lemma {:induction false} IngestCodes(t: Tally, lines: seq<Line>, c: Config)
    ensures var f := IngestAll(t, lines, c).1;
      f.Some? ==> f.value in {MalformedCodexEvent, ExecutionPolicyRejected, BudgetExceeded}
  {
    if |lines| > 0 {
      IngestCodes(t, lines[..|lines| - 1], c);
    }
  }

  lemma {:induction false} FailureIsFinal(t: Tally, lines: seq<Line>, i: nat, c: Config)
    requires i <= |lines| && IngestAll(t, lines[..i], c).1.Some?
    ensures IngestAll(t, lines, c) == IngestAll(t, lines[..i], c)
  {
    if i < |lines| {
      var init := lines[..|lines| - 1];
      assert init[..i] == lines[..i];
      FailureIsFinal(t, init, i, c);
    } else {
      assert lines[..i] == lines;
    }
  }
}
