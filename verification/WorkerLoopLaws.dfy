/** What the worker loop's counters and stop reasons mean. */
module WorkerLoopLaws {
  import opened Prelude
  import opened Failures
  import opened WorkerLoop

  // ----- one outcome, reached in time

  /** The number of iterations a loop executes is determined by what it observes. */
  lemma RunIsDetermined(turns: nat -> Turn, n: nat, m: nat, start: int, p: Policy)
    requires Executes(turns, n, start, p) && Executes(turns, m, start, p)
    ensures n == m
  {
    assert n < m ==> GoesOn(turns, n, start, p);
    assert m < n ==> GoesOn(turns, m, start, p);
  }

  lemma {:induction false} FirstStop(turns: nat -> Turn, from: nat, limit: nat, start: int, p: Policy)
    requires from <= limit && p.maxIterations <= limit && forall k: nat :: k < from ==> GoesOn(turns, k, start, p)
    ensures exists n: nat :: from <= n <= limit && Executes(turns, n, start, p)
    decreases limit - from
  {
    if from == limit || !GoesOn(turns, from, start, p) {
      assert Executes(turns, from, start, p);
    } else {
      FirstStop(turns, from + 1, limit, start, p);
    }
  }

  /** Every loop stops, after at most the policy's number of iterations. */
  lemma RunStopsInTime(turns: nat -> Turn, start: int, p: Policy)
    ensures exists n: nat :: n <= (if p.maxIterations > 0 then p.maxIterations else 0) && Executes(turns, n, start, p)
  {
    FirstStop(turns, 0, if p.maxIterations > 0 then p.maxIterations else 0, start, p);
  }

  // ----- streaks

  /** The last s iterations did not yield, and the one before them, if any, did. */
  ghost predicate EndsWithoutYield(log: seq<Iteration>, s: nat) {
    && s <= |log|
    && (forall i :: |log| - s <= i < |log| ==> log[i].change.None?)
    && (s < |log| ==> log[|log| - s - 1].change.Some?)
  }

  lemma {:induction false} StreakIsMaximal(log: seq<Iteration>, s: nat)
    ensures NoYieldStreak(log) == s <==> EndsWithoutYield(log, s)
  {
    if |log| > 0 && log[|log| - 1].change.None? && s > 0 {
      var init := log[..|log| - 1];
      StreakIsMaximal(init, s - 1);
      assert forall i :: 0 <= i < |init| ==> init[i] == log[i];
    }
  }

  ghost predicate EndsMalformed(log: seq<Iteration>, s: nat) {
    && s <= |log|
    && (forall i :: |log| - s <= i < |log| ==> IsMalformed(log[i].effective))
    && (s < |log| ==> !IsMalformed(log[|log| - s - 1].effective))
  }

  lemma {:induction false} MalformedStreakIsMaximal(log: seq<Iteration>, s: nat)
    ensures MalformedStreak(log) == s <==> EndsMalformed(log, s)
  {
    if |log| > 0 && IsMalformed(log[|log| - 1].effective) && s > 0 {
      var init := log[..|log| - 1];
      MalformedStreakIsMaximal(init, s - 1);
      assert forall i :: 0 <= i < |init| ==> init[i] == log[i];
    }
  }

  // ----- stop reasons

  lemma LastIteration(turns: nat -> Turn, n: nat)
    requires n > 0
    ensures var log := Observed(turns, n); log == Observed(turns, n - 1) + [log[n - 1]] && log[..n - 1] == Observed(turns, n - 1)
  {
  }

  /** Whatever streaks there were before the last iteration did not stop the loop. */
  lemma StreaksBeforeStop(turns: nat -> Turn, n: nat, start: int, p: Policy)
    requires n > 1 && GoesOn(turns, n - 1, start, p)
    ensures NoYieldStreak(Observed(turns, n - 1)) < p.maxNoYield && MalformedStreak(Observed(turns, n - 1)) < p.maxMalformed
  {
  }

  lemma StreaksAtStop(turns: nat -> Turn, n: nat)
    requires n > 0
    ensures NoYieldStreak(Observed(turns, n)) <= NoYieldStreak(Observed(turns, n - 1)) + 1
    ensures MalformedStreak(Observed(turns, n)) <= MalformedStreak(Observed(turns, n - 1)) + 1
  {
    LastIteration(turns, n);
    OneMore(Observed(turns, n - 1), Observed(turns, n)[n - 1]);
  }

  /** A loop that stops for lack of yield did so at the first chance: exactly the last maxNoYield iterations did not yield; under
      a limit that is not positive, it stopped after its first iteration. */
  lemma NoYieldStopIsPrompt(turns: nat -> Turn, n: nat, start: int, p: Policy)
    requires Executes(turns, n, start, p) && ReasonAt(turns, n, start, p) == Some(MaxConsecutiveNoYield)
    ensures if p.maxNoYield > 0 then EndsWithoutYield(Observed(turns, n), p.maxNoYield) else n == 1
  {
    assert GoesOn(turns, n - 1, start, p);
    if n > 1 { StreaksBeforeStop(turns, n, start, p); }
    StreaksAtStop(turns, n);
    if p.maxNoYield > 0 { StreakIsMaximal(Observed(turns, n), p.maxNoYield); }
  }

  lemma MalformedStopIsPrompt(turns: nat -> Turn, n: nat, start: int, p: Policy)
    requires Executes(turns, n, start, p) && ReasonAt(turns, n, start, p) == Some(RepeatedMalformedProposal)
    ensures if p.maxMalformed > 0 then EndsMalformed(Observed(turns, n), p.maxMalformed) else n == 1
  {
    assert GoesOn(turns, n - 1, start, p);
    if n > 1 { StreaksBeforeStop(turns, n, start, p); }
    StreaksAtStop(turns, n);
    if p.maxMalformed > 0 { MalformedStreakIsMaximal(Observed(turns, n), p.maxMalformed); }
  }

  // ----- what the stored log can tell

  /** The malformed streak as one would recompute it from the stored iteration rows, which hold the recorded failure. */
  function RecordedStreak(log: seq<Iteration>): nat {
    if |log| == 0 || !IsMalformed(log[|log| - 1].recorded) then 0 else RecordedStreak(log[..|log| - 1]) + 1
  }

  ghost predicate SameMalformed(it: Iteration) {
    IsMalformed(it.recorded) == IsMalformed(it.effective)
  }

  lemma {:induction false} SameMalformedSameStreak(log: seq<Iteration>)
    requires forall i :: 0 <= i < |log| ==> SameMalformed(log[i])
    ensures RecordedStreak(log) == MalformedStreak(log)
  {
    if |log| > 0 {
      SameMalformedSameStreak(log[..|log| - 1]);
    }
  }

  /** The stored rows reproduce the streak after every iteration exactly when no report's operator failure made an iteration
      malformed, or made a malformed one something else. */
  lemma StoredLogReproducesStreakIff(log: seq<Iteration>)
    ensures (forall k :: 0 <= k <= |log| ==> RecordedStreak(log[..k]) == MalformedStreak(log[..k]))
      <==> (forall i :: 0 <= i < |log| ==> SameMalformed(log[i]))
  {
    if forall i :: 0 <= i < |log| ==> SameMalformed(log[i]) {
      forall k | 0 <= k <= |log| ensures RecordedStreak(log[..k]) == MalformedStreak(log[..k]) {
        SameMalformedSameStreak(log[..k]);
      }
    }
    if forall k :: 0 <= k <= |log| ==> RecordedStreak(log[..k]) == MalformedStreak(log[..k]) {
      forall i | 0 <= i < |log| ensures SameMalformed(log[i]) {
        assert log[..i + 1][..i] == log[..i] && log[..i + 1][i] == log[i];
      }
    }
  }

  /** It does happen: an executor that returns an earlier failed report records no failure code itself. */
  lemma StoredLogCanHideMalformed(t: Turn)
    requires t.ended == Some(Execution(None, Some(Report(false, Some(Failure(MalformedProposal, false))))))
    ensures !SameMalformed(Observe(t)) && MalformedStreak([Observe(t)]) == 1 && RecordedStreak([Observe(t)]) == 0
  {
    assert [Observe(t)][..0] == [];
  }
}
