/** The worker loop read off its turns: what counts as yield and as malformed, why the loop stops, and what it reports. */
module WorkerLoopTurns {
  import opened Prelude
  import opened LedgerModel
  import opened Failures
  import opened WorkerLoop
  import opened WorkerLoopLaws

  // ----- one turn

  /** The executor returned a completed report, the graph exists afterwards, and its digest or a count is another one. */
  ghost predicate Changes(t: Turn) {
    && (exists e, r :: t.ended == Some(e) && e.report == Some(r) && r.completed)
    && t.after.digest != None
    && (t.before.digest != t.after.digest || t.before.nodes != t.after.nodes || t.before.edges != t.after.edges)
  }

  /** The executor raised. */
  ghost predicate Crashes(t: Turn) {
    t.ended == None
  }

  /** The failure the turn counts as: the one its report names, otherwise the one the executor returned. */
  ghost predicate CountsAs(t: Turn, f: Failure) {
    exists e :: t.ended == Some(e) &&
      ((exists r :: e.report == Some(r) && r.failure == Some(f)) ||
       (e.failure == Some(f) && forall r :: e.report == Some(r) ==> r.failure == None))
  }

  ghost predicate Malforms(t: Turn) {
    exists mismatch :: CountsAs(t, Failure(MalformedProposal, mismatch))
  }

  lemma ObservedAt(turns: nat -> Turn, n: nat, k: nat)
    requires k < n
    ensures Observed(turns, n)[k] == Observe(turns(k))
  {
    if k < n - 1 { ObservedAt(turns, n - 1, k); }
  }

  lemma ChangeRead(t: Turn)
    ensures Observe(t).change == if Changes(t) then t.after.digest else None
    ensures Observe(t).change.Some? <==> Changes(t)
  {
  }

  lemma FailureRead(t: Turn)
    ensures IsMalformed(Observe(t).effective) <==> Malforms(t)
    ensures IsMalformed(Observe(t).effective) && Observe(t).effective.value.contractMismatch
      <==> CountsAs(t, Failure(MalformedProposal, true))
    ensures Observe(t).crashed <==> Crashes(t)
  {
    forall f ensures t.ended.Some? ==> (Observe(t).effective == Some(f) <==> CountsAs(t, f)) {}
    if IsMalformed(Observe(t).effective) {
      assert CountsAs(t, Failure(MalformedProposal, Observe(t).effective.value.contractMismatch));
    }
  }

  /** An iteration yields exactly when its turn changes the graph, and the change it records is the new digest. */
  lemma YieldsIff(turns: nat -> Turn, n: nat, k: nat)
    requires k < n
    ensures Observed(turns, n)[k].change == if Changes(turns(k)) then turns(k).after.digest else None
    ensures Observed(turns, n)[k].change.Some? <==> Changes(turns(k))
  {
    ObservedAt(turns, n, k);
    ChangeRead(turns(k));
  }

  lemma MalformedIff(turns: nat -> Turn, n: nat, k: nat)
    requires k < n
    ensures IsMalformed(Observed(turns, n)[k].effective) <==> Malforms(turns(k))
  {
    ObservedAt(turns, n, k);
    FailureRead(turns(k));
  }

  // ----- streaks

  /** None of the last m of n turns changed the graph. */
  ghost predicate NoneChanges(turns: nat -> Turn, n: nat, m: int) {
    m <= n && forall k: nat :: n - m <= k < n ==> !Changes(turns(k))
  }

  ghost predicate AllMalform(turns: nat -> Turn, n: nat, m: int) {
    m <= n && forall k: nat :: n - m <= k < n ==> Malforms(turns(k))
  }

  lemma OneMoreTurn(turns: nat -> Turn, n: nat)
    requires n > 0
    ensures NoYieldStreak(Observed(turns, n)) == if Changes(turns(n - 1)) then 0 else NoYieldStreak(Observed(turns, n - 1)) + 1
    ensures MalformedStreak(Observed(turns, n)) ==
      if Malforms(turns(n - 1)) then MalformedStreak(Observed(turns, n - 1)) + 1 else 0
  {
    LastIteration(turns, n);
    OneMore(Observed(turns, n - 1), Observed(turns, n)[n - 1]);
    YieldsIff(turns, n, n - 1);
    MalformedIff(turns, n, n - 1);
  }

  lemma NoneChangesStep(turns: nat -> Turn, n: nat, m: int)
    requires n > 0
    ensures NoneChanges(turns, n, m) <==> m <= 0 || (!Changes(turns(n - 1)) && NoneChanges(turns, n - 1, m - 1))
  {
  }

  lemma AllMalformStep(turns: nat -> Turn, n: nat, m: int)
    requires n > 0
    ensures AllMalform(turns, n, m) <==> m <= 0 || (Malforms(turns(n - 1)) && AllMalform(turns, n - 1, m - 1))
  {
  }

  lemma {:induction false} NoYieldReaches(turns: nat -> Turn, n: nat, m: int)
    ensures NoYieldStreak(Observed(turns, n)) >= m <==> NoneChanges(turns, n, m)
  {
    if n > 0 {
      OneMoreTurn(turns, n);
      NoneChangesStep(turns, n, m);
      NoYieldReaches(turns, n - 1, m - 1);
    }
  }

  lemma {:induction false} MalformedReaches(turns: nat -> Turn, n: nat, m: int)
    ensures MalformedStreak(Observed(turns, n)) >= m <==> AllMalform(turns, n, m)
  {
    if n > 0 {
      OneMoreTurn(turns, n);
      AllMalformStep(turns, n, m);
      MalformedReaches(turns, n - 1, m - 1);
    }
  }

  // ----- why the loop stops

  /** What ends the loop right after its n-th iteration; an earlier line of the list goes before a later one. */
  ghost predicate EndsAfter(turns: nat -> Turn, n: nat, p: Policy, r: Reason) {
    && n > 0
    && var last := turns(n - 1);
       match r
       case ExecutorError => Crashes(last)
       case BlockedContractMismatch => CountsAs(last, Failure(MalformedProposal, true))
       case RepeatedMalformedProposal =>
         !Crashes(last) && !CountsAs(last, Failure(MalformedProposal, true)) && AllMalform(turns, n, p.maxMalformed)
       case MaxConsecutiveNoYield =>
         && !Crashes(last) && !CountsAs(last, Failure(MalformedProposal, true)) && !AllMalform(turns, n, p.maxMalformed)
         && NoneChanges(turns, n, p.maxNoYield)
       case _ => false
  }

  /** What keeps a running loop from its next iteration at the n-th turn. */
  ghost predicate EndsBefore(turns: nat -> Turn, n: nat, start: int, p: Policy, r: Reason) {
    var late := turns(n).now - start >= p.maxRuntimeSeconds * 1_000_000;
    match r
    case MaxIterations => n >= p.maxIterations
    case BudgetExhausted => n < p.maxIterations && late
    case EmptyQueuePausedActiveConflicts => n < p.maxIterations && !late && !turns(n).queued && turns(n).conflicts
    case EmptyQueueConverged => n < p.maxIterations && !late && !turns(n).queued && !turns(n).conflicts
    case _ => false
  }

  lemma EndsAfterIff(turns: nat -> Turn, n: nat, p: Policy, r: Reason)
    ensures StopAfter(Observed(turns, n), p) == Some(r) <==> EndsAfter(turns, n, p, r)
  {
    if n > 0 {
      ObservedAt(turns, n, n - 1);
      FailureRead(turns(n - 1));
      NoYieldReaches(turns, n, p.maxNoYield);
      MalformedReaches(turns, n, p.maxMalformed);
    }
  }

  lemma EndsBeforeIff(turns: nat -> Turn, n: nat, start: int, p: Policy, r: Reason)
    ensures StopBefore(n, turns(n), start, p) == Some(r) <==> EndsBefore(turns, n, start, p, r)
  {
  }

  ghost predicate NothingEnds(turns: nat -> Turn, n: nat, p: Policy) {
    forall r :: !EndsAfter(turns, n, p, r)
  }

  /** The loop is over after n iterations, for reason r. */
  ghost predicate Over(turns: nat -> Turn, n: nat, start: int, p: Policy, r: Reason) {
    EndsAfter(turns, n, p, r) || (NothingEnds(turns, n, p) && turns(n).running && EndsBefore(turns, n, start, p, r))
  }

  /** The reason a loop stops with, in terms of its turns alone. */
  lemma ReasonIff(turns: nat -> Turn, n: nat, start: int, p: Policy, r: Reason)
    ensures ReasonAt(turns, n, start, p) == Some(r) <==> Over(turns, n, start, p, r)
  {
    forall q { EndsAfterIff(turns, n, p, q); }
    EndsBeforeIff(turns, n, start, p, r);
    var after := StopAfter(Observed(turns, n), p);
    if after.Some? {
      assert EndsAfter(turns, n, p, after.value);
    } else {
      assert NothingEnds(turns, n, p);
    }
  }

  ghost predicate Continues(turns: nat -> Turn, k: nat, start: int, p: Policy) {
    turns(k).running && forall r :: !Over(turns, k, start, p, r)
  }

  lemma GoesOnIff(turns: nat -> Turn, k: nat, start: int, p: Policy)
    ensures GoesOn(turns, k, start, p) <==> Continues(turns, k, start, p)
  {
    forall r { ReasonIff(turns, k, start, p, r); }
    var reason := ReasonAt(turns, k, start, p);
    if reason.Some? { assert Over(turns, k, start, p, reason.value); }
  }

  /** How many items a loop executes: it is not over before any of them, and over, or no longer running, after the last. */
  lemma ExecutesIff(turns: nat -> Turn, n: nat, start: int, p: Policy)
    ensures Executes(turns, n, start, p) <==>
      (forall k: nat :: k < n ==> Continues(turns, k, start, p)) && !Continues(turns, n, start, p)
  {
    forall k: nat { GoesOnIff(turns, k, start, p); }
  }

  /** A loop that stops for lack of yield saw no change in exactly its last maxNoYield turns: the one before them, if there
      is one, changed the graph. */
  lemma NoYieldStopOnTurns(turns: nat -> Turn, n: nat, start: int, p: Policy)
    requires Executes(turns, n, start, p) && ReasonAt(turns, n, start, p) == Some(MaxConsecutiveNoYield) && p.maxNoYield > 0
    ensures NoneChanges(turns, n, p.maxNoYield)
    ensures n > p.maxNoYield ==> Changes(turns(n - p.maxNoYield - 1))
  {
    NoYieldStopIsPrompt(turns, n, start, p);
    NoYieldReaches(turns, n, p.maxNoYield);
    StreakIsMaximal(Observed(turns, n), p.maxNoYield);
    if n > p.maxNoYield { YieldsIff(turns, n, n - p.maxNoYield - 1); }
  }

  lemma MalformedStopOnTurns(turns: nat -> Turn, n: nat, start: int, p: Policy)
    requires Executes(turns, n, start, p) && ReasonAt(turns, n, start, p) == Some(RepeatedMalformedProposal) && p.maxMalformed > 0
    ensures AllMalform(turns, n, p.maxMalformed)
    ensures n > p.maxMalformed ==> !Malforms(turns(n - p.maxMalformed - 1))
  {
    MalformedStopIsPrompt(turns, n, start, p);
    MalformedReaches(turns, n, p.maxMalformed);
    MalformedStreakIsMaximal(Observed(turns, n), p.maxMalformed);
    if n > p.maxMalformed { MalformedIff(turns, n, n - p.maxMalformed - 1); }
  }

  /** The loop leaves its row converged when it lacks yield or work with no conflict left open, stopped when it has used up
      its iterations, and blocked otherwise. */
  lemma StoppedStateIff(turns: nat -> Turn, n: nat, start: int, p: Policy, r: Reason)
    requires ReasonAt(turns, n, start, p) == Some(r)
    ensures StateOf(r) == Converged <==>
      Over(turns, n, start, p, MaxConsecutiveNoYield) || Over(turns, n, start, p, EmptyQueueConverged)
    ensures StateOf(r) == Stopped <==> Over(turns, n, start, p, MaxIterations)
  {
    forall q { ReasonIff(turns, n, start, p, q); }
  }

  // ----- what the loop reports

  ghost function ChangingTurns(turns: nat -> Turn, n: nat): set<nat> {
    set k: nat | k < n && Changes(turns(k))
  }

  lemma ChangingTurnsGrow(turns: nat -> Turn, n: nat)
    requires n > 0
    ensures |ChangingTurns(turns, n)| == |ChangingTurns(turns, n - 1)| + if Changes(turns(n - 1)) then 1 else 0
  {
    assert ChangingTurns(turns, n) == ChangingTurns(turns, n - 1) + if Changes(turns(n - 1)) then {n - 1} else {};
  }

  /** The yielded count is the number of turns that changed the graph. */
  lemma {:induction false} YieldedCountsChanges(turns: nat -> Turn, n: nat)
    ensures Yielded(Observed(turns, n)) == |ChangingTurns(turns, n)|
  {
    if n > 0 {
      LastIteration(turns, n);
      OneMore(Observed(turns, n - 1), Observed(turns, n)[n - 1]);
      YieldsIff(turns, n, n - 1);
      ChangingTurnsGrow(turns, n);
      YieldedCountsChanges(turns, n - 1);
    }
  }

  ghost predicate LastChangingTurn(turns: nat -> Turn, n: nat, k: nat) {
    k < n && Changes(turns(k)) && forall j: nat :: k < j < n ==> !Changes(turns(j))
  }

  /** The last change is the digest after the last turn that changed the graph. */
  lemma {:induction false} LastChangeOnTurns(turns: nat -> Turn, n: nat)
    ensures forall k: nat :: LastChangingTurn(turns, n, k) ==> LastChange(Observed(turns, n)) == turns(k).after.digest
    ensures LastChange(Observed(turns, n)) == None <==> forall k: nat :: k < n ==> !Changes(turns(k))
  {
    if n > 0 {
      LastIteration(turns, n);
      OneMore(Observed(turns, n - 1), Observed(turns, n)[n - 1]);
      YieldsIff(turns, n, n - 1);
      LastChangeOnTurns(turns, n - 1);
      forall k: nat | LastChangingTurn(turns, n, k) && k < n - 1 ensures LastChangingTurn(turns, n - 1, k) {}
    }
  }
}
