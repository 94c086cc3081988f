/**
 * The transfer-job table and its atomic conditional writes
 * (`LibsqlTransferJobStore`).  Each `...Write` function is the effect of one
 * UPDATE statement; the class below performs them on its own table and the
 * protocol in SyncProtocol interleaves them.
 */
module TransferJobs {
  import opened Common

  type JobId = string

  datatype Status = Staged | Syncing | Synced | SyncFailed | DeadLetter

  datatype Job = Job(
    repo: string,
    stagingPath: string,
    checksum: string,
    status: Status,
    retryCount: nat,
    maxRetries: int,
    nextRetryAt: int,
    createdAt: int,
    updatedAt: int,
    lastError: Option<string>)

  type Table = map<JobId, Job>

  /** What copying a staged file to the NAS led to. */
  datatype CopyResult = Copied(checksum: string) | Threw(message: string)

  /** The error recorded for a copy that failed or came out different. */
  function FailureMessage(r: CopyResult): string {
    if r.Threw? then r.message else "Checksum mismatch between staged file and NAS copy"
  }

  /** The row that a finished push session inserts. */
  function NewJob(repo: string, stagingPath: string, checksum: string, maxRetries: int, now: int): Job {
    Job(repo, stagingPath, checksum, Staged, 0, maxRetries, 0, now, now, None)
  }

  predicate Eligible(j: Job, now: int) {
    j.status.Staged? || (j.status.SyncFailed? && j.nextRetryAt <= now)
  }

  predicate HasStatus(t: Table, id: JobId, status: Status) {
    id in t && t[id].status == status
  }

  predicate Claimable(t: Table, id: JobId, now: int) {
    id in t && Eligible(t[id], now)
  }

  function ClaimWrite(t: Table, id: JobId, now: int): Table {
    if Claimable(t, id, now) then t[id := t[id].(status := Syncing, updatedAt := now)] else t
  }

  function MarkSyncedWrite(t: Table, id: JobId, at: int): Table {
    if HasStatus(t, id, Syncing) then t[id := t[id].(status := Synced, updatedAt := at)] else t
  }

  function FailedRow(j: Job, error: string, nextRetryAt: int, at: int): Job {
    j.(status := if j.retryCount + 1 >= j.maxRetries then DeadLetter else SyncFailed,
       retryCount := j.retryCount + 1,
       nextRetryAt := nextRetryAt,
       lastError := Some(error),
       updatedAt := at)
  }

  function MarkFailedWrite(t: Table, id: JobId, error: string, nextRetryAt: int, at: int): Table {
    if HasStatus(t, id, Syncing) then t[id := FailedRow(t[id], error, nextRetryAt, at)] else t
  }

  function RequeueWrite(t: Table, id: JobId, at: int): Table {
    if HasStatus(t, id, DeadLetter)
    then t[id := t[id].(status := Staged, retryCount := 0, lastError := None, updatedAt := at)]
    else t
  }

  const SELECT_LIMIT := 5
  const CLAIM_ATTEMPTS := 5

  /**
   * What the candidate SELECT may return: distinct eligible ids, oldest first,
   * at most five, and leaving out an eligible row only when five rows that are
   * no younger are returned.
   */
  ghost predicate IsSelection(t: Table, now: int, ids: seq<JobId>) {
    && |ids| <= SELECT_LIMIT
    && (forall i :: 0 <= i < |ids| ==> Claimable(t, ids[i], now))
    && (forall i, j :: 0 <= i < j < |ids| ==> ids[i] != ids[j] && t[ids[i]].createdAt <= t[ids[j]].createdAt)
    && (forall id :: id in t && Eligible(t[id], now) && id !in ids ==>
          |ids| == SELECT_LIMIT && forall i :: 0 <= i < |ids| ==> t[ids[i]].createdAt <= t[id].createdAt)
  }

  /** The oldest eligible row outside `ids`. */
  lemma OldestExists(t: Table, now: int, ids: seq<JobId>, rest: set<JobId>) returns (id: JobId)
    requires rest != {} && rest <= t.Keys && forall k :: k in rest ==> Eligible(t[k], now) && k !in ids
    ensures id in rest && forall k :: k in rest ==> t[id].createdAt <= t[k].createdAt
    decreases rest
  {
    id :| id in rest;
    if rest != {id} {
      var k := OldestExists(t, now, ids, rest - {id});
      if t[k].createdAt < t[id].createdAt {
        id := k;
      }
    }
  }

  /** What a SELECT with a lower limit may return. */
  ghost predicate IsSelectionUpTo(t: Table, now: int, ids: seq<JobId>, limit: nat) {
    && |ids| <= limit
    && (forall i :: 0 <= i < |ids| ==> Claimable(t, ids[i], now))
    && (forall i, j :: 0 <= i < j < |ids| ==> ids[i] != ids[j] && t[ids[i]].createdAt <= t[ids[j]].createdAt)
    && (forall id :: id in t && Eligible(t[id], now) && id !in ids ==>
          |ids| == limit && forall i :: 0 <= i < |ids| ==> t[ids[i]].createdAt <= t[id].createdAt)
  }

  /** A SELECT always has an answer. */
  lemma {:induction false} SelectionExists(t: Table, now: int, limit: nat) returns (ids: seq<JobId>)
    ensures IsSelectionUpTo(t, now, ids, limit)
    ensures limit == SELECT_LIMIT ==> IsSelection(t, now, ids)
  {
    ids := [];
    if limit > 0 {
      ids := SelectionExists(t, now, limit - 1);
      var rest := set id | id in t && Eligible(t[id], now) && id !in ids;
      assert forall id :: id in t && Eligible(t[id], now) && id !in ids ==> id in rest;
      if rest != {} {
        var next := OldestExists(t, now, ids, rest);
        var before := ids;
        assert next in rest && |before| == limit - 1;
        ids := before + [next];
        forall id | id in t && Eligible(t[id], now) && id !in ids
          ensures |ids| == limit && forall i :: 0 <= i < |ids| ==> t[ids[i]].createdAt <= t[id].createdAt
        {
          assert id !in before && id in rest;
          assert forall i :: 0 <= i < |before| ==> ids[i] == before[i];
        }
        assert forall i :: 0 <= i < |before| ==> ids[i] == before[i] && t[before[i]].createdAt <= t[next].createdAt;
      }
    }
  }

  /** Attempts a job may still spend before it stops being live. */
  function Remaining(j: Job): int {
    if j.status.Synced? || j.status.DeadLetter? then 0 else j.maxRetries - j.retryCount
  }

  /** The retry budget of a whole table: `Remaining` summed over its rows. */
  ghost function Budget(t: Table): int
    decreases |t|
  {
    if t == map[] then 0 else
      var id :| id in t;
      Remaining(t[id]) + Budget(t - {id})
  }

  lemma {:induction false} BudgetRemove(t: Table, id: JobId)
    requires id in t
    ensures Budget(t) == Remaining(t[id]) + Budget(t - {id})
    decreases |t|
  {
    var pick :| pick in t && Budget(t) == Remaining(t[pick]) + Budget(t - {pick});
    if pick != id {
      BudgetRemove(t - {pick}, id);
      BudgetRemove(t - {id}, pick);
      assert t - {pick} - {id} == t - {id} - {pick};
    }
  }

  lemma BudgetUpdate(t: Table, id: JobId, j: Job)
    requires id in t
    ensures Budget(t[id := j]) == Budget(t) - Remaining(t[id]) + Remaining(j)
  {
    BudgetRemove(t, id);
    BudgetRemove(t[id := j], id);
    assert t[id := j] - {id} == t - {id};
  }

  /** Live rows have attempts left; dead letters have spent them all. */
  predicate RetryOk(j: Job) {
    j.retryCount <= j.maxRetries && (j.retryCount == j.maxRetries <==> j.status.DeadLetter?)
  }

  ghost predicate RetriesOk(t: Table) {
    forall id :: id in t ==> RetryOk(t[id])
  }

  lemma {:induction false} BudgetNonNegative(t: Table)
    requires RetriesOk(t)
    ensures Budget(t) >= 0
    decreases |t|
  {
    if t != map[] {
      var id :| id in t;
      BudgetRemove(t, id);
      BudgetNonNegative(t - {id});
    }
  }

  /** Marking a claimed job spends budget, whichever way it is marked. */
  lemma MarkSpendsBudget(t: Table, id: JobId, error: string, nextRetryAt: int, at: int)
    requires RetriesOk(t) && HasStatus(t, id, Syncing)
    ensures Budget(MarkSyncedWrite(t, id, at)) < Budget(t)
    ensures Budget(MarkFailedWrite(t, id, error, nextRetryAt, at)) == Budget(t) - 1
    ensures RetriesOk(MarkSyncedWrite(t, id, at))
    ensures RetriesOk(MarkFailedWrite(t, id, error, nextRetryAt, at))
  {
    BudgetUpdate(t, id, t[id].(status := Synced, updatedAt := at));
    BudgetUpdate(t, id, FailedRow(t[id], error, nextRetryAt, at));
  }

  /** Claiming spends nothing. */
  lemma ClaimKeepsBudget(t: Table, id: JobId, now: int)
    requires RetriesOk(t)
    ensures Budget(ClaimWrite(t, id, now)) == Budget(t)
    ensures RetriesOk(ClaimWrite(t, id, now))
  {
    if Claimable(t, id, now) {
      BudgetUpdate(t, id, t[id].(status := Syncing, updatedAt := now));
    }
  }

  class TransferJobStore {
    var jobs: Table

    constructor ()
      ensures jobs == map[]
    {
      jobs := map[];
    }

    method Create(id: JobId, job: Job) returns (inserted: bool)
      modifies this
      ensures inserted <==> id !in old(jobs)
      ensures jobs == if inserted then old(jobs)[id := job] else old(jobs)
    {
      inserted := id !in jobs;
      if inserted {
        jobs := jobs[id := job];
      }
    }

    /** The oldest eligible row outside `taken`, if any. */
    method OldestEligible(now: int, taken: seq<JobId>) returns (r: Option<JobId>)
      ensures r.None? ==> forall id :: id in jobs && Eligible(jobs[id], now) ==> id in taken
      ensures r.Some? ==> Claimable(jobs, r.value, now) && r.value !in taken
      ensures r.Some? ==> forall id :: id in jobs && Eligible(jobs[id], now) && id !in taken ==>
                            jobs[r.value].createdAt <= jobs[id].createdAt
    {
      r := None;
      var rest := jobs.Keys;
      while rest != {}
        invariant rest <= jobs.Keys
        invariant r.Some? ==> Claimable(jobs, r.value, now) && r.value !in taken
        invariant forall id :: id in jobs && id !in rest && Eligible(jobs[id], now) && id !in taken ==>
                    r.Some? && jobs[r.value].createdAt <= jobs[id].createdAt
        decreases rest
      {
        var id :| id in rest;
        rest := rest - {id};
        if Eligible(jobs[id], now) && id !in taken && (r.None? || jobs[id].createdAt < jobs[r.value].createdAt) {
          r := Some(id);
        }
      }
    }

    /** SELECT ... ORDER BY created_at ASC LIMIT 5. */
    method SelectCandidates(now: int) returns (ids: seq<JobId>)
      ensures IsSelection(jobs, now, ids)
      ensures |ids| <= 5 && forall i :: 0 <= i < |ids| ==>
                ids[i] in jobs && (jobs[ids[i]].status == Staged || (jobs[ids[i]].status == SyncFailed && jobs[ids[i]].nextRetryAt <= now))
      ensures forall i, j :: 0 <= i < j < |ids| ==> ids[i] != ids[j] && jobs[ids[i]].createdAt <= jobs[ids[j]].createdAt
      ensures forall id :: id in jobs && id !in ids && Eligible(jobs[id], now) ==>
                |ids| == 5 && forall i :: 0 <= i < |ids| ==> jobs[ids[i]].createdAt <= jobs[id].createdAt
      ensures ids == [] ==> forall id :: id in jobs ==> !Eligible(jobs[id], now)
    {
      ids := [];
      while |ids| < SELECT_LIMIT
        invariant |ids| <= SELECT_LIMIT
        invariant forall i :: 0 <= i < |ids| ==> Claimable(jobs, ids[i], now)
        invariant forall i, j :: 0 <= i < j < |ids| ==>
                    ids[i] != ids[j] && jobs[ids[i]].createdAt <= jobs[ids[j]].createdAt
        invariant forall id, i :: id in jobs && Eligible(jobs[id], now) && id !in ids && 0 <= i < |ids| ==>
                    jobs[ids[i]].createdAt <= jobs[id].createdAt
      {
        var next := OldestEligible(now, ids);
        if next.None? {
          return;
        }
        ids := ids + [next.value];
      }
    }

    /** What other workers may do to the table during an await: nothing when `alone`, anything otherwise. */
    method Interference(alone: bool)
      modifies this
      ensures alone ==> jobs == old(jobs)
    {
      if !alone {
        jobs := *;
      }
    }

    /**
     * `claimNextEligible`, with other workers writing between the statements.  A
     * returned id was claimed by one atomic write on the table as it then stood, and
     * was among the candidates selected from the table `seen` before.  None means
     * that the last SELECT found nothing eligible, or that at least five claims were
     * lost, each because its row had stopped being eligible.  Without interference it
     * claims an oldest eligible job, and returns none exactly when nothing is eligible.
     */
    method ClaimNextEligible(now: int, alone: bool)
      returns (r: Option<JobId>, ghost at: Table, ghost seen: Table, ghost lost: seq<(JobId, Table)>)
      modifies this
      ensures forall i :: 0 <= i < |lost| ==> !Claimable(lost[i].1, lost[i].0, now)
      ensures r.Some? ==> exists ids :: IsSelection(seen, now, ids) && r.value in ids
      ensures r.None? ==> (forall id :: id in seen ==> !Eligible(seen[id], now)) || |lost| >= CLAIM_ATTEMPTS
      ensures r.Some? ==> Claimable(at, r.value, now) && jobs == ClaimWrite(at, r.value, now)
      ensures alone ==> at == old(jobs)
      ensures alone && r.None? ==> jobs == at && forall id :: id in at ==> !Eligible(at[id], now)
      ensures alone && r.Some? ==> forall id :: id in at && Eligible(at[id], now) ==>
                                     at[r.value].createdAt <= at[id].createdAt
    {
      r, at, seen, lost := None, jobs, jobs, [];
      var attempt := 0;
      while attempt < CLAIM_ATTEMPTS
        invariant attempt <= CLAIM_ATTEMPTS && attempt <= |lost|
        invariant alone ==> attempt == 0 && jobs == at == old(jobs)
        invariant forall i :: 0 <= i < |lost| ==> !Claimable(lost[i].1, lost[i].0, now)
        decreases CLAIM_ATTEMPTS - attempt
      {
        seen := jobs;
        var candidates := SelectCandidates(now);
        if candidates == [] {
          at := jobs;
          return;
        }
        var k := 0;
        while k < |candidates|
          invariant alone ==> k == 0 && jobs == at == old(jobs)
          invariant k <= |candidates| && |lost| >= attempt + k
          invariant forall i :: 0 <= i < |lost| ==> !Claimable(lost[i].1, lost[i].0, now)
        {
          Interference(alone);
          at := jobs;
          var won := TryClaim(candidates[k], now);
          if won {
            r := Some(candidates[k]);
            return;
          }
          lost := lost + [(candidates[k], at)];
          k := k + 1;
        }
        attempt := attempt + 1;
      }
    }

    /** The claiming UPDATE; `won` is `rowsAffected === 1`. */
    method TryClaim(id: JobId, now: int) returns (won: bool)
      modifies this
      ensures won <==> Claimable(old(jobs), id, now)
      ensures jobs == ClaimWrite(old(jobs), id, now)
    {
      won := id in jobs && (jobs[id].status.Staged? || (jobs[id].status.SyncFailed? && jobs[id].nextRetryAt <= now));
      if won {
        jobs := jobs[id := jobs[id].(status := Syncing, updatedAt := now)];
      }
    }

    method MarkSynced(id: JobId, at: int) returns (won: bool)
      modifies this
      ensures won <==> HasStatus(old(jobs), id, Syncing)
      ensures jobs == MarkSyncedWrite(old(jobs), id, at)
    {
      won := id in jobs && jobs[id].status.Syncing?;
      if won {
        jobs := jobs[id := jobs[id].(status := Synced, updatedAt := at)];
      }
    }

    method MarkFailed(id: JobId, error: string, nextRetryAt: int, at: int) returns (won: bool)
      modifies this
      ensures won <==> HasStatus(old(jobs), id, Syncing)
      ensures jobs == MarkFailedWrite(old(jobs), id, error, nextRetryAt, at)
    {
      won := id in jobs && jobs[id].status.Syncing?;
      if won {
        var j := jobs[id];
        var status := if j.retryCount + 1 >= j.maxRetries then DeadLetter else SyncFailed;
        jobs := jobs[id := j.(status := status, retryCount := j.retryCount + 1, nextRetryAt := nextRetryAt,
                              lastError := Some(error), updatedAt := at)];
      }
    }

    method RequeueDeadLetter(id: JobId, at: int) returns (won: bool)
      modifies this
      ensures won <==> HasStatus(old(jobs), id, DeadLetter)
      ensures jobs == RequeueWrite(old(jobs), id, at)
    {
      won := id in jobs && jobs[id].status.DeadLetter?;
      if won {
        jobs := jobs[id := jobs[id].(status := Staged, retryCount := 0, lastError := None, updatedAt := at)];
      }
    }
  }
}
