/**
 * The sequential code around the job table: `NasSyncService.processNext` and
 * `NasSyncWorker.drainOnce`, for a worker that has the table to itself.
 */
module SyncWorker {
  import opened Backoff
  import opened TransferJobs

  /** What one attempt made of a claimed row: the copy's outcome and the clock readings after it. */
  datatype Attempt = Attempt(id: JobId, result: CopyResult, failedAt: int, markedAt: int)

  /** The row after the attempt. */
  ghost function AttemptedRow(j: Job, a: Attempt, baseMs: int, maxMs: int): Job {
    if a.result == Copied(j.checksum) then j.(status := Synced, updatedAt := a.markedAt)
    else
      FailedRow(j, FailureMessage(a.result), a.failedAt + ComputeBackoffMs(j.retryCount, baseMs, maxMs), a.markedAt)
  }

  /** Marking a claimed row finishes one attempt on the row as it was before, and costs budget. */
  lemma AttemptSpendsBudget(t: Table, claimedAt: int, a: Attempt, baseMs: int, maxMs: int)
    requires RetriesOk(t) && Claimable(t, a.id, claimedAt)
    ensures var claimed := ClaimWrite(t, a.id, claimedAt);
            var marked := claimed[a.id := AttemptedRow(claimed[a.id], a, baseMs, maxMs)];
            && marked == t[a.id := AttemptedRow(t[a.id], a, baseMs, maxMs)]
            && RetriesOk(marked) && Budget(marked) < Budget(t)
  {
    var claimed := ClaimWrite(t, a.id, claimedAt);
    ClaimKeepsBudget(t, a.id, claimedAt);
    AttemptMarks(claimed, a, baseMs, maxMs);
    assert AttemptedRow(claimed[a.id], a, baseMs, maxMs) == AttemptedRow(t[a.id], a, baseMs, maxMs);
    var row := AttemptedRow(t[a.id], a, baseMs, maxMs);
    assert claimed[a.id := row] == t[a.id := row];
  }

  lemma AttemptMarks(claimed: Table, a: Attempt, baseMs: int, maxMs: int)
    requires RetriesOk(claimed) && HasStatus(claimed, a.id, Syncing)
    ensures var marked := claimed[a.id := AttemptedRow(claimed[a.id], a, baseMs, maxMs)];
            RetriesOk(marked) && Budget(marked) < Budget(claimed)
  {
    var nextRetryAt := a.failedAt + ComputeBackoffMs(claimed[a.id].retryCount, baseMs, maxMs);
    MarkSpendsBudget(claimed, a.id, FailureMessage(a.result), nextRetryAt, a.markedAt);
    var marked := claimed[a.id := AttemptedRow(claimed[a.id], a, baseMs, maxMs)];
    if a.result == Copied(claimed[a.id].checksum) {
      assert marked == MarkSyncedWrite(claimed, a.id, a.markedAt);
    } else {
      assert marked == MarkFailedWrite(claimed, a.id, FailureMessage(a.result), nextRetryAt, a.markedAt);
    }
  }

  class NasSyncService {
    const store: TransferJobStore
    const backoffBaseMs: int
    const backoffMaxMs: int
    /** The last reading of the clock. */
    var clock: int

    constructor (store: TransferJobStore, backoffBaseMs: int, backoffMaxMs: int, now: int)
      ensures this.store == store && clock == now
      ensures this.backoffBaseMs == backoffBaseMs && this.backoffMaxMs == backoffMaxMs
    {
      this.store := store;
      this.backoffBaseMs := backoffBaseMs;
      this.backoffMaxMs := backoffMaxMs;
      this.clock := now;
    }

    /** A clock that may advance by any amount between readings. */
    method Now() returns (t: int)
      modifies `clock
      ensures t == clock && old(clock) <= t
    {
      t := *;
      if t < clock {
        t := clock;
      }
      clock := t;
    }

    /** The NAS adapter: it may return any checksum or throw. */
    method CopyToNas(stagingPath: string, repo: string) returns (r: CopyResult)
    {
      r := *;
    }

    /** The rest of `processNext` once the copy has returned or thrown. */
    method Mark(id: JobId, job: Job, result: CopyResult) returns (ghost attempt: Attempt)
      requires HasStatus(store.jobs, id, Syncing) && store.jobs[id] == job
      modifies `clock, store
      ensures attempt.id == id && attempt.result == result
      ensures old(clock) <= attempt.failedAt <= attempt.markedAt == clock
      ensures store.jobs == old(store.jobs)[id := AttemptedRow(job, attempt, backoffBaseMs, backoffMaxMs)]
    {
      var failedAt := Now();
      if result.Copied? && result.checksum == job.checksum {
        var won := store.MarkSynced(id, failedAt);
        attempt := Attempt(id, result, failedAt, failedAt);
      } else {
        var nextRetryAt := failedAt + ComputeBackoffMs(job.retryCount, backoffBaseMs, backoffMaxMs);
        var markedAt := Now();
        var won := store.MarkFailed(id, FailureMessage(result), nextRetryAt, markedAt);
        attempt := Attempt(id, result, failedAt, markedAt);
      }
    }

    /**
     * False means that nothing was eligible at the claim's clock reading and nothing
     * changed.  True means that exactly one job, eligible and as old as any other
     * eligible job, went through one attempt: it is synced if the copy reported the row's own
     * checksum and otherwise charged a failure.  Either way that costs budget.
     */
    method ProcessNext() returns (processed: bool, ghost claimedAt: int, ghost attempt: Attempt)
      requires RetriesOk(store.jobs)
      modifies `clock, store
      ensures RetriesOk(store.jobs) && old(clock) <= claimedAt <= clock
      ensures !processed ==> store.jobs == old(store.jobs)
      ensures !processed ==> forall k :: k in store.jobs ==> !Eligible(store.jobs[k], claimedAt)
      ensures processed ==> Claimable(old(store.jobs), attempt.id, claimedAt)
      ensures processed ==> forall k :: k in old(store.jobs) && Eligible(old(store.jobs)[k], claimedAt) ==>
                              old(store.jobs)[attempt.id].createdAt <= old(store.jobs)[k].createdAt
      ensures processed ==>
                var row := AttemptedRow(old(store.jobs)[attempt.id], attempt, backoffBaseMs, backoffMaxMs);
                store.jobs == old(store.jobs)[attempt.id := row]
      ensures processed ==> claimedAt <= attempt.failedAt <= attempt.markedAt == clock
      ensures processed ==> Budget(store.jobs) < Budget(old(store.jobs))
    {
      var now := Now();
      claimedAt, attempt := now, Attempt("", Threw(""), now, now);
      ghost var before := store.jobs;
      var claim, at, seen, lost := store.ClaimNextEligible(now, true);
      if claim.None? {
        return false, claimedAt, attempt;
      }
      var job := store.jobs[claim.value];
      var result := CopyToNas(job.stagingPath, job.repo);
      attempt := Mark(claim.value, job, result);
      AttemptSpendsBudget(before, now, attempt, backoffBaseMs, backoffMaxMs);
      return true, claimedAt, attempt;
    }
  }

  class NasSyncWorker {
    const service: NasSyncService
    var draining: bool

    constructor (service: NasSyncService)
      ensures this.service == service && !draining
    {
      this.service := service;
      this.draining := false;
    }

    /**
     * A tick that finds another one draining does nothing.  Otherwise the loop ends
     * after at most as many attempts as the budget allows, and at its last claim
     * no job was staged and no retry was due.
     */
    method DrainOnce() returns (ghost attempts: nat, ghost lastClaimAt: int)
      requires RetriesOk(service.store.jobs)
      modifies `draining, service`clock, service.store
      ensures RetriesOk(service.store.jobs)
      ensures old(draining) ==> draining && service.store.jobs == old(service.store.jobs) && attempts == 0
      ensures !old(draining) ==> !draining && old(service.clock) <= lastClaimAt <= service.clock
      ensures !old(draining) ==>
                forall id :: id in service.store.jobs ==>
                  var j := service.store.jobs[id];
                  !j.status.Staged? && (j.status.SyncFailed? ==> lastClaimAt < j.nextRetryAt)
      ensures 0 <= Budget(service.store.jobs) && attempts + Budget(service.store.jobs) <= Budget(old(service.store.jobs))
    {
      attempts, lastClaimAt := 0, service.clock;
      BudgetNonNegative(service.store.jobs);
      if draining {
        return;
      }
      draining := true;
      ghost var attempt: Attempt;
      var processed;
      processed, lastClaimAt, attempt := service.ProcessNext();
      BudgetNonNegative(service.store.jobs);
      while processed
        invariant RetriesOk(service.store.jobs) && Budget(service.store.jobs) >= 0
        invariant old(service.clock) <= lastClaimAt <= service.clock
        invariant attempts + Budget(service.store.jobs) + (if processed then 1 else 0) <= Budget(old(service.store.jobs))
        invariant !processed ==> forall k :: k in service.store.jobs ==> !Eligible(service.store.jobs[k], lastClaimAt)
        decreases Budget(service.store.jobs), processed
      {
        attempts := attempts + 1;
        processed, lastClaimAt, attempt := service.ProcessNext();
        BudgetNonNegative(service.store.jobs);
      }
      draining := false;
    }
  }
}
