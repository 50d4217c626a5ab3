/** The ledger as it runs: tables updated in place inside a transaction that is committed or rolled back. */
module Ledger {
  import opened Prelude
  import Proposals
  import opened LedgerModel

  class SqliteLedger {
    var items: map<string, Item>
    var runs: map<string, RunRow>
    var links: map<string, string>
    var keys: map<string, KeyRow>
    var snapshots: map<(string, nat), Proposals.Snapshot>
    var audit: seq<Audit>

    ghost function View(): Db
      reads this
    {
      Db(items, runs, links, keys, snapshots, audit)
    }

    constructor ()
      ensures View() == EmptyDb()
    {
      items, runs, links, keys, snapshots, audit := map[], map[], map[], map[], map[], [];
    }

    method ReserveIdempotencyKey(key: string, digest: string, run: Option<string>) returns (reply: Reply)
      modifies this`keys
      ensures (View(), reply) == Apply(old(View()), Reserve(key, digest, run))
    {
      if key in keys {
        return Rejected(DuplicateKey);
      }
      keys := keys[key := KeyRow(digest, run)];
      reply := Done;
    }

    method EnqueueJob(id: string, row: Item) returns (reply: Reply)
      modifies this`items
      ensures (View(), reply) == Apply(old(View()), Enqueue(id, row))
    {
      if id in items || exists i | i in items :: items[i].dedupeKey == row.dedupeKey || items[i].key == row.key {
        return Rejected(IntegrityError);
      }
      items := items[id := row.(claimedBy := None, claimedAt := None)];
      reply := Done;
    }

    method StoreTopicSnapshot(s: Proposals.Snapshot) returns (reply: Reply)
      modifies this`snapshots
      ensures (View(), reply) == Apply(old(View()), StoreSnapshot(s))
    {
      if (s.topic, s.version) in snapshots {
        return Rejected(IntegrityError);
      }
      snapshots := snapshots[(s.topic, s.version) := s];
      reply := Done;
    }

    /** UPDATE ... SET state = claimed WHERE id = ? AND state = queued; reports the row count. */
    method UpdateToClaimed(item: string, worker: string, now: int) returns (changed: bool)
      requires item in items
      modifies this`items
      ensures changed == (old(items)[item].state == Queued)
      ensures items == if changed then old(items)[item := MarkClaimed(old(items)[item], worker, now)] else old(items)
    {
      changed := items[item].state == Queued;
      if changed {
        items := items[item := items[item].(state := Claimed, claimedBy := Some(worker), claimedAt := Some(now))];
      }
    }

    method ClaimQueueItemForRun(item: string, worker: string, run: string, mode: RunMode, now: int) returns (reply: Reply)
      modifies this
      ensures (View(), reply) == Apply(old(View()), Op.Claim(item, worker, run, mode, now))
    {
      if item !in items || now < items[item].availableAt {
        return NotClaimable;
      }
      var row := items[item];
      var record := ClaimRecord(item, run, row.topic, row.key, row.attempts, worker);
      if item in links {
        if links[item] != run {
          return Rejected(DuplicateRunStart);
        }
        if row.state == Queued {
          var changed := UpdateToClaimed(item, worker, now);
        }
        return Granted(record);
      }
      var saved := items;
      var changed := UpdateToClaimed(item, worker, now);
      if !changed {
        return NotClaimable;
      }
      if run in runs || (exists r | r in runs :: runs[r].key == row.key) || row.key !in keys || keys[row.key].run.Some? {
        items := saved;
        return Rejected(IntegrityError);
      }
      runs := runs[run := RunRow(row.topic, item, row.key, mode, RunQueued, None)];
      links := links[item := run];
      keys := keys[row.key := keys[row.key].(run := Some(run))];
      reply := Granted(record);
    }

    method ValidateClaimForMutation(item: string, owner: Owner) returns (ok: bool)
      ensures ok == OwnsClaim(View(), item, owner)
    {
      if item !in items || items[item].state != Claimed {
        return false;
      }
      if owner.worker.Some? && items[item].claimedBy != owner.worker {
        return false;
      }
      if item !in links {
        return false;
      }
      ok := owner.run.None? || links[item] == owner.run.value;
    }

    method RecordQueueRetry(item: string, owner: Owner, failure: string, nextAt: int) returns (reply: Reply)
      modifies this`items
      ensures (View(), reply) == Apply(old(View()), Retry(item, owner, failure, nextAt))
    {
      if owner.Named() {
        var ok := ValidateClaimForMutation(item, owner);
        if !ok {
          return Rejected(MutationMismatch);
        }
      }
      if item !in items {
        return Rejected(MutationMismatch);
      }
      var row := items[item];
      items := items[item := row.(
        state := Queued, attempts := row.attempts + 1, availableAt := nextAt, claimedBy := None, claimedAt := None,
        lastFailure := Some(failure))];
      reply := Done;
    }

    method CompleteQueueItem(item: string, run: string, worker: string) returns (reply: Reply)
      modifies this`items
      ensures (View(), reply) == Apply(old(View()), Complete(item, run, worker))
    {
      var ok := ValidateClaimForMutation(item, Owner(Some(run), Some(worker)));
      if !ok {
        return Rejected(MutationMismatch);
      }
      items := items[item := items[item].(state := Completed, claimedBy := None, claimedAt := None)];
      reply := Done;
    }

    method RecordQueueDeadLetter(item: string, owner: Owner, failure: string) returns (reply: Reply)
      modifies this`items, this`runs
      ensures (View(), reply) == Apply(old(View()), DeadLetterItem(item, owner, failure))
    {
      if owner.Named() {
        var ok := ValidateClaimForMutation(item, owner);
        if !ok {
          return Rejected(MutationMismatch);
        }
      }
      if item !in items {
        return Rejected(MutationMismatch);
      }
      var row := items[item];
      items := items[item := row.(
        state := DeadLettered, attempts := row.attempts + 1, claimedBy := None, claimedAt := None,
        lastFailure := Some(failure))];
      if owner.run.Some? && owner.run.value in runs {
        runs := runs[owner.run.value := runs[owner.run.value].(status := DeadLetter)];
      }
      reply := Done;
    }

    method RecoverDeadLetterQueueItem(item: string, availableAt: int) returns (reply: Reply)
      modifies this`items, this`runs, this`audit
      ensures (View(), reply) == Apply(old(View()), RecoverDeadLetter(item, availableAt))
    {
      if item !in items {
        return Rejected(NoSuchRow);
      }
      if items[item].state != DeadLettered {
        return Rejected(MutationMismatch);
      }
      items := items[item := items[item].(state := Queued, claimedBy := None, claimedAt := None, availableAt := availableAt)];
      if item in links && links[item] in runs {
        runs := runs[links[item] := runs[links[item]].(status := RunQueued)];
      }
      audit := audit + [DeadLetterRecovered(item)];
      reply := Recovered(false);
    }

    method RecoverStaleClaimedItem(item: string, action: RecoveryAction, now: int, lease: Option<LeaseView>, staleAfter: int)
      returns (reply: Reply)
      modifies this`items, this`runs, this`audit
      ensures (View(), reply) == Apply(old(View()), RecoverStale(item, action, now, lease, staleAfter))
    {
      if item !in items {
        return Rejected(NoSuchRow);
      }
      var row := items[item];
      if row.state != Claimed {
        if StaleRecovered(item, action) in audit {
          return Recovered(true);
        }
        return Rejected(RecoveryRejected);
      }
      if !StaleClaim(row, lease, now, staleAfter) {
        return Rejected(RecoveryRejected);
      }
      var target, status := Queued, RunQueued;
      if action == DeadLetterClaim {
        target, status := DeadLettered, DeadLetter;
      }
      items := items[item := row.(
        state := target, availableAt := now, claimedBy := None, claimedAt := None,
        lastFailure := Some("runner_host_unavailable"))];
      if item in links && links[item] in runs {
        runs := runs[links[item] := runs[links[item]].(status := status)];
      }
      audit := audit + [StaleRecovered(item, action)];
      reply := Recovered(false);
    }

    method TransitionRunState(run: string, to: RunStatus, pin: Option<nat>, expected: Option<RunStatus>) returns (reply: Reply)
      modifies this`runs
      ensures (View(), reply) == Apply(old(View()), Transition(run, to, pin, expected))
    {
      if run !in runs {
        return Rejected(NoSuchRow);
      }
      if expected.Some? && runs[run].status != expected.value {
        return Rejected(StaleRunState);
      }
      var row := runs[run].(status := to);
      if pin.Some? {
        row := row.(snapshot := pin);
      }
      runs := runs[run := row];
      reply := Done;
    }
  }
}
