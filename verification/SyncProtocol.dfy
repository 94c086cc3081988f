/**
 * Any number of sync workers running `NasSyncService.processNext` against one
 * job table, interleaved at every store call, with pushes and requeues in
 * between.  One action is the code between two awaits.
 */
module SyncProtocol {
  import opened Common
  import opened Backoff
  import opened TransferJobs

  type Worker = nat

  /** Where a worker stands inside `processNext`. */
  datatype Phase =
    | Idle
    | Selecting(now: int, attempt: nat)
    | Claiming(now: int, attempt: nat, candidates: seq<JobId>)
    | Claimed(id: JobId)
    | Copying(id: JobId, job: Job)
    | MarkingSynced(id: JobId, job: Job)
    | MarkingFailed(id: JobId, job: Job, error: string, failedAt: int, nextRetryAt: int)
  {
    /** The job this worker has claimed and not yet marked. */
    function Held(): Option<JobId> {
      match this
      case Idle => None
      case Selecting(_, _) => None
      case Claiming(_, _, _) => None
      case _ => Some(id)
    }

    /** The row as this worker read it after its claim. */
    function Snapshot(): Option<Job> {
      match this
      case Copying(_, job) => Some(job)
      case MarkingSynced(_, job) => Some(job)
      case MarkingFailed(_, job, _, _, _) => Some(job)
      case _ => None
    }
  }

  /** What happened to the table and to the workers, in order. */
  datatype Event =
    | CreatedJob(id: JobId)
    | Requeued(id: JobId)
    | Won(worker: Worker, id: JobId)
    | Failed(worker: Worker, id: JobId, failedAt: int)
    | Succeeded(worker: Worker, id: JobId)
    | Returned(worker: Worker, processed: bool)

  datatype State = State(jobs: Table, workers: map<Worker, Phase>, clock: int, log: seq<Event>)

  datatype Config = Config(backoffBaseMs: int, backoffMaxMs: int)

  datatype Action =
    | Create(id: JobId, repo: string, stagingPath: string, checksum: string, maxRetries: int)
    | Requeue(id: JobId)
    | Tick(elapsed: nat)
    | Begin(worker: Worker)
    | Select(worker: Worker, candidates: seq<JobId>)
    | TryClaim(worker: Worker)
    | ReadRow(worker: Worker)
    | FinishCopy(worker: Worker, result: CopyResult)
    | MarkSynced(worker: Worker)
    | MarkFailed(worker: Worker)

  ghost predicate Init(s: State) {
    && s.jobs == map[]
    && (forall w :: w in s.workers ==> s.workers[w].Idle?)
    && s.log == []
  }

  ghost predicate Enabled(s: State, a: Action) {
    match a
    case Create(id, _, _, _, maxRetries) => id !in s.jobs && maxRetries >= 1
    case Requeue(_) => true
    case Tick(_) => true
    case Begin(w) => w in s.workers && s.workers[w].Idle?
    case Select(w, ids) => w in s.workers && s.workers[w].Selecting? && IsSelection(s.jobs, s.workers[w].now, ids)
    case TryClaim(w) => w in s.workers && s.workers[w].Claiming? && s.workers[w].candidates != []
    case ReadRow(w) => w in s.workers && s.workers[w].Claimed? && s.workers[w].id in s.jobs
    case FinishCopy(w, _) => w in s.workers && s.workers[w].Copying?
    case MarkSynced(w) => w in s.workers && s.workers[w].MarkingSynced?
    case MarkFailed(w) => w in s.workers && s.workers[w].MarkingFailed?
  }

  function Move(s: State, w: Worker, p: Phase): State {
    s.(workers := s.workers[w := p])
  }

  function Return(s: State, w: Worker, processed: bool): State {
    Move(s, w, Idle).(log := s.log + [Returned(w, processed)])
  }

  /** The end of `claimNextEligible`'s inner loop: next candidate, next attempt, or give up. */
  function AfterLostClaim(s: State, w: Worker, p: Phase): State
    requires p.Claiming? && p.candidates != []
  {
    if |p.candidates| > 1 then Move(s, w, p.(candidates := p.candidates[1..]))
    else if p.attempt + 1 < CLAIM_ATTEMPTS then Move(s, w, Selecting(p.now, p.attempt + 1))
    else Return(s, w, false)
  }

  /** The `catch` block up to its store call: it reads the clock once. */
  function Fail(c: Config, s: State, w: Worker, p: Phase, message: string): State
    requires p.Copying?
  {
    var delay := ComputeBackoffMs(p.job.retryCount, c.backoffBaseMs, c.backoffMaxMs);
    Move(s, w, MarkingFailed(p.id, p.job, message, s.clock, s.clock + delay))
  }

  function Next(c: Config, s: State, a: Action): State
    requires Enabled(s, a)
  {
    match a
    case Create(id, repo, stagingPath, checksum, maxRetries) =>
      s.(jobs := s.jobs[id := NewJob(repo, stagingPath, checksum, maxRetries, s.clock)],
         log := s.log + [CreatedJob(id)])
    case Requeue(id) =>
      s.(jobs := RequeueWrite(s.jobs, id, s.clock),
         log := if HasStatus(s.jobs, id, DeadLetter) then s.log + [Requeued(id)] else s.log)
    case Tick(elapsed) => s.(clock := s.clock + elapsed)
    case Begin(w) => Move(s, w, Selecting(s.clock, 0))
    case Select(w, ids) =>
      var p := s.workers[w];
      if ids == [] then Return(s, w, false) else Move(s, w, Claiming(p.now, p.attempt, ids))
    case TryClaim(w) =>
      var p := s.workers[w];
      var id := p.candidates[0];
      if Claimable(s.jobs, id, p.now) then
        Move(s, w, Claimed(id)).(jobs := ClaimWrite(s.jobs, id, p.now), log := s.log + [Won(w, id)])
      else AfterLostClaim(s, w, p)
    case ReadRow(w) => Move(s, w, Copying(s.workers[w].id, s.jobs[s.workers[w].id]))
    case FinishCopy(w, result) =>
      var p := s.workers[w];
      (match result
       case Copied(checksum) =>
         if checksum == p.job.checksum then Move(s, w, MarkingSynced(p.id, p.job))
         else Fail(c, s, w, p, FailureMessage(result))
       case Threw(message) => Fail(c, s, w, p, message))
    case MarkSynced(w) =>
      var p := s.workers[w];
      var log := if HasStatus(s.jobs, p.id, Syncing) then s.log + [Succeeded(w, p.id)] else s.log;
      Return(s.(jobs := MarkSyncedWrite(s.jobs, p.id, s.clock), log := log), w, true)
    case MarkFailed(w) =>
      var p := s.workers[w];
      var log := if HasStatus(s.jobs, p.id, Syncing) then s.log + [Failed(w, p.id, p.failedAt)] else s.log;
      Return(s.(jobs := MarkFailedWrite(s.jobs, p.id, p.error, p.nextRetryAt, s.clock), log := log), w, true)
  }

  /** Action `i` leads from state `i` to the next. */
  ghost predicate StepAt(c: Config, run: seq<State>, acts: seq<Action>, i: nat) {
    i < |acts| && i + 1 < |run| && Enabled(run[i], acts[i]) && run[i + 1] == Next(c, run[i], acts[i])
  }

  /** A run: states and the actions between them, from an empty table and idle workers. */
  ghost predicate IsRun(c: Config, run: seq<State>, acts: seq<Action>) {
    && |run| == |acts| + 1
    && Init(run[0])
    && forall i: nat :: i < |acts| ==> StepAt(c, run, acts, i)
  }

  // ---------------------------------------------------------------- ownership

  type Crew = map<Worker, Phase>

  predicate Holds(ws: Crew, w: Worker, id: JobId) {
    w in ws && ws[w].Held() == Some(id)
  }

  /** Held jobs are exactly the `syncing` ones, each with one holder. */
  ghost predicate Ownership(jobs: Table, ws: Crew) {
    && (forall w, id :: Holds(ws, w, id) ==> HasStatus(jobs, id, Syncing))
    && (forall v, w, id :: Holds(ws, v, id) && Holds(ws, w, id) ==> v == w)
    && (forall id :: HasStatus(jobs, id, Syncing) ==> exists w :: Holds(ws, w, id))
  }

  /** A holder's copy of its row is still the row in the table. */
  ghost predicate Snapshots(jobs: Table, ws: Crew) {
    forall w :: w in ws && ws[w].Snapshot().Some? ==> ws[w].id in jobs && ws[w].Snapshot().value == jobs[ws[w].id]
  }

  ghost predicate Owned(jobs: Table, ws: Crew) {
    Ownership(jobs, ws) && Snapshots(jobs, ws)
  }

  /** A worker may move on with the job it holds, or with none. */
  lemma KeepHeld(jobs: Table, ws: Crew, w: Worker, p: Phase)
    requires Owned(jobs, ws) && w in ws && p.Held() == ws[w].Held()
    requires p.Snapshot().Some? ==> p.id in jobs && p.Snapshot().value == jobs[p.id]
    ensures Owned(jobs, ws[w := p])
  {
    var ws' := ws[w := p];
    assert forall v, id :: Holds(ws', v, id) <==> Holds(ws, v, id);
  }

  /** A row that is not `syncing` may change to another such row. */
  lemma ChangeUnheld(jobs: Table, ws: Crew, id: JobId, j: Job)
    requires Owned(jobs, ws) && !HasStatus(jobs, id, Syncing) && !j.status.Syncing?
    ensures Owned(jobs[id := j], ws)
  {
    var jobs' := jobs[id := j];
    assert forall k :: HasStatus(jobs', k, Syncing) <==> HasStatus(jobs, k, Syncing);
    forall w | w in ws && ws[w].Snapshot().Some?
      ensures ws[w].id != id
    {
      assert Holds(ws, w, ws[w].id);
    }
  }

  /** A winning claim makes the worker the row's only holder. */
  lemma ClaimOwns(jobs: Table, ws: Crew, w: Worker, id: JobId, now: int)
    requires Owned(jobs, ws) && w in ws && ws[w].Held().None? && Claimable(jobs, id, now)
    ensures Owned(ClaimWrite(jobs, id, now), ws[w := Claimed(id)])
  {
    var jobs', ws' := ClaimWrite(jobs, id, now), ws[w := Claimed(id)];
    assert !HasStatus(jobs, id, Syncing) && Holds(ws', w, id);
    assert forall v, k :: v != w ==> (Holds(ws', v, k) <==> Holds(ws, v, k));
    forall k | HasStatus(jobs', k, Syncing) && k != id
      ensures exists v :: Holds(ws', v, k)
    {
      assert HasStatus(jobs, k, Syncing);
      var v :| Holds(ws, v, k);
      assert Holds(ws', v, k);
    }
    forall v | v in ws' && ws'[v].Snapshot().Some?
      ensures ws'[v].id != id
    {
      assert Holds(ws, v, ws[v].id);
    }
  }

  /** Marking takes the row out of `syncing` and leaves its holder idle. */
  lemma MarkReleases(jobs: Table, ws: Crew, w: Worker, id: JobId, j: Job)
    requires Owned(jobs, ws) && Holds(ws, w, id) && !j.status.Syncing?
    ensures Owned(jobs[id := j], ws[w := Idle])
  {
    var jobs', ws' := jobs[id := j], ws[w := Idle];
    assert forall v, k :: v != w ==> (Holds(ws', v, k) <==> Holds(ws, v, k));
    assert ws'[w].Held().None?;
    forall k | HasStatus(jobs', k, Syncing)
      ensures exists v :: Holds(ws', v, k)
    {
      assert HasStatus(jobs, k, Syncing);
      var v :| Holds(ws, v, k);
      assert Holds(ws', v, k);
    }
    forall v | v in ws' && ws'[v].Snapshot().Some?
      ensures ws'[v].id != id
    {
      assert Holds(ws, v, ws[v].id);
    }
  }

  lemma OwnershipStep(c: Config, s: State, a: Action)
    requires Owned(s.jobs, s.workers) && Enabled(s, a)
    ensures Owned(Next(c, s, a).jobs, Next(c, s, a).workers)
  {
    var t := Next(c, s, a);
    match a
    case Create(id, _, _, _, _) => ChangeUnheld(s.jobs, s.workers, id, t.jobs[id]);
    case Requeue(id) =>
      if HasStatus(s.jobs, id, DeadLetter) {
        ChangeUnheld(s.jobs, s.workers, id, t.jobs[id]);
      }
    case Tick(_) =>
    case TryClaim(w) =>
      var p := s.workers[w];
      if Claimable(s.jobs, p.candidates[0], p.now) {
        ClaimOwns(s.jobs, s.workers, w, p.candidates[0], p.now);
      } else {
        KeepHeld(s.jobs, s.workers, w, t.workers[w]);
      }
    case Begin(w) => KeepHeld(s.jobs, s.workers, w, t.workers[w]);
    case Select(w, _) => KeepHeld(s.jobs, s.workers, w, t.workers[w]);
    case ReadRow(w) => KeepHeld(s.jobs, s.workers, w, t.workers[w]);
    case FinishCopy(w, _) => KeepHeld(s.jobs, s.workers, w, t.workers[w]);
    case MarkSynced(w) => MarkOwnershipStep(c, s, w, a);
    case MarkFailed(w) => MarkOwnershipStep(c, s, w, a);
  }

  lemma MarkOwnershipStep(c: Config, s: State, w: Worker, a: Action)
    requires Owned(s.jobs, s.workers) && Enabled(s, a) && (a == MarkSynced(w) || a == MarkFailed(w))
    ensures Owned(Next(c, s, a).jobs, Next(c, s, a).workers)
  {
    var id := s.workers[w].id;
    assert Holds(s.workers, w, id);
    MarkReleases(s.jobs, s.workers, w, id, Next(c, s, a).jobs[id]);
  }

  // ------------------------------------------------------ failures and backoff

  /** The instants at which `id` failed since it was created or last requeued. */
  function Failures(log: seq<Event>, id: JobId): seq<int> {
    if log == [] then [] else
      var before := Failures(log[..|log| - 1], id);
      match log[|log| - 1]
      case CreatedJob(k) => if k == id then [] else before
      case Requeued(k) => if k == id then [] else before
      case Failed(_, k, at) => if k == id then before + [at] else before
      case Won(_, _) => before
      case Succeeded(_, _) => before
      case Returned(_, _) => before
  }

  lemma FailuresAppend(log: seq<Event>, e: Event)
    ensures forall id :: Failures(log + [e], id) ==
              match e
              case CreatedJob(k) => if k == id then [] else Failures(log, id)
              case Requeued(k) => if k == id then [] else Failures(log, id)
              case Failed(_, k, at) => if k == id then Failures(log, id) + [at] else Failures(log, id)
              case _ => Failures(log, id)
  {
    assert (log + [e])[..|log|] == log;
  }

  /** When the failure list `f` allows the next attempt. */
  function RetryFrom(c: Config, f: seq<int>): int
    requires f != []
  {
    f[|f| - 1] + ComputeBackoffMs(|f| - 1, c.backoffBaseMs, c.backoffMaxMs)
  }

  /** How a row's retry columns relate to the failures in the log. */
  ghost predicate RowHistory(c: Config, j: Job, f: seq<int>, clock: int) {
    && RetryOk(j)
    && j.maxRetries >= 1
    && |f| == j.retryCount
    && Spaced(f, c.backoffBaseMs, c.backoffMaxMs)
    && (j.status.Staged? ==> f == [])
    && (j.status.SyncFailed? ==> f != [] && j.nextRetryAt == RetryFrom(c, f))
    && (j.status.Syncing? && f != [] ==> RetryFrom(c, f) <= clock)
  }

  ghost predicate TableHistory(c: Config, s: State) {
    forall id :: id in s.jobs ==> RowHistory(c, s.jobs[id], Failures(s.log, id), s.clock)
  }

  /** A worker's clock readings are in the past, and a pending failure respects the delay. */
  ghost predicate PhaseHistory(c: Config, p: Phase, log: seq<Event>, clock: int) {
    match p
    case Selecting(now, _) => now <= clock
    case Claiming(now, _, _) => now <= clock
    case MarkingFailed(id, job, _, failedAt, nextRetryAt) =>
      && failedAt <= clock
      && nextRetryAt == failedAt + ComputeBackoffMs(job.retryCount, c.backoffBaseMs, c.backoffMaxMs)
      && (Failures(log, id) != [] ==> RetryFrom(c, Failures(log, id)) <= failedAt)
    case _ => true
  }

  ghost predicate CrewHistory(c: Config, s: State) {
    forall w :: w in s.workers ==> PhaseHistory(c, s.workers[w], s.log, s.clock)
  }

  ghost predicate Inv(c: Config, s: State) {
    Owned(s.jobs, s.workers) && TableHistory(c, s) && CrewHistory(c, s)
  }

  /** Rewriting one row and logging an event about it keeps the history of every worker not holding it. */
  lemma HistoryUpdate(c: Config, s: State, t: State, id: JobId)
    requires TableHistory(c, s) && CrewHistory(c, s)
    requires s.clock <= t.clock && id in t.jobs && t.jobs == s.jobs[id := t.jobs[id]]
    requires RowHistory(c, t.jobs[id], Failures(t.log, id), t.clock)
    requires forall k :: k != id ==> Failures(t.log, k) == Failures(s.log, k)
    ensures TableHistory(c, t)
    ensures forall w :: w in s.workers && !Holds(s.workers, w, id) ==> PhaseHistory(c, s.workers[w], t.log, t.clock)
  {
    forall w | w in s.workers && !Holds(s.workers, w, id)
      ensures PhaseHistory(c, s.workers[w], t.log, t.clock)
    {
      assert PhaseHistory(c, s.workers[w], s.log, s.clock);
    }
  }

  /** Moving one worker, advancing the clock and logging a return keeps every row's history. */
  lemma HistoryMove(c: Config, s: State, t: State)
    requires TableHistory(c, s) && CrewHistory(c, s)
    requires s.clock <= t.clock && t.jobs == s.jobs
    requires forall k :: Failures(t.log, k) == Failures(s.log, k)
    requires forall w :: w in t.workers ==>
               PhaseHistory(c, t.workers[w], t.log, t.clock) || (w in s.workers && t.workers[w] == s.workers[w])
    ensures TableHistory(c, t) && CrewHistory(c, t)
  {
    forall w | w in t.workers && w in s.workers && t.workers[w] == s.workers[w]
      ensures PhaseHistory(c, t.workers[w], t.log, t.clock)
    {
      assert PhaseHistory(c, s.workers[w], s.log, s.clock);
    }
  }

  lemma HistoryCreate(c: Config, s: State, a: Action)
    requires Inv(c, s) && a.Create? && Enabled(s, a)
    ensures TableHistory(c, Next(c, s, a)) && CrewHistory(c, Next(c, s, a))
  {
    FailuresAppend(s.log, CreatedJob(a.id));
    assert forall w :: !Holds(s.workers, w, a.id);
    HistoryUpdate(c, s, Next(c, s, a), a.id);
  }

  lemma HistoryRequeue(c: Config, s: State, a: Action)
    requires Inv(c, s) && a.Requeue? && Enabled(s, a)
    ensures TableHistory(c, Next(c, s, a)) && CrewHistory(c, Next(c, s, a))
  {
    if HasStatus(s.jobs, a.id, DeadLetter) {
      FailuresAppend(s.log, Requeued(a.id));
      assert forall w :: !Holds(s.workers, w, a.id);
      assert RowHistory(c, s.jobs[a.id], Failures(s.log, a.id), s.clock);
      HistoryUpdate(c, s, Next(c, s, a), a.id);
    }
  }

  /** A winning claim on a retry happens at or after the instant the backoff allows. */
  lemma HistoryWin(c: Config, s: State, w: Worker, id: JobId)
    requires Inv(c, s) && w in s.workers && s.workers[w].Claiming? && Claimable(s.jobs, id, s.workers[w].now)
    ensures RowHistory(c, ClaimWrite(s.jobs, id, s.workers[w].now)[id], Failures(s.log, id), s.clock)
    ensures forall v :: !Holds(s.workers, v, id)
  {
    assert PhaseHistory(c, s.workers[w], s.log, s.clock);
    assert RowHistory(c, s.jobs[id], Failures(s.log, id), s.clock);
    assert !HasStatus(s.jobs, id, Syncing);
  }

  lemma HistoryLost(c: Config, s: State, w: Worker)
    requires TableHistory(c, s) && CrewHistory(c, s)
    requires w in s.workers && s.workers[w].Claiming? && s.workers[w].candidates != []
    ensures TableHistory(c, AfterLostClaim(s, w, s.workers[w])) && CrewHistory(c, AfterLostClaim(s, w, s.workers[w]))
  {
    var p := s.workers[w];
    assert PhaseHistory(c, p, s.log, s.clock);
    if |p.candidates| > 1 {
      HistoryMove(c, s, Move(s, w, p.(candidates := p.candidates[1..])));
    } else if p.attempt + 1 < CLAIM_ATTEMPTS {
      HistoryMove(c, s, Move(s, w, Selecting(p.now, p.attempt + 1)));
    } else {
      FailuresAppend(s.log, Returned(w, false));
      HistoryMove(c, s, Return(s, w, false));
    }
  }

  lemma HistoryClaim(c: Config, s: State, a: Action)
    requires Inv(c, s) && a.TryClaim? && Enabled(s, a)
    ensures TableHistory(c, Next(c, s, a)) && CrewHistory(c, Next(c, s, a))
  {
    var w, t := a.worker, Next(c, s, a);
    var p := s.workers[w];
    var id := p.candidates[0];
    if Claimable(s.jobs, id, p.now) {
      HistoryWin(c, s, w, id);
      FailuresAppend(s.log, Won(w, id));
      HistoryUpdate(c, s, t, id);
    } else {
      HistoryLost(c, s, w);
    }
  }

  lemma HistoryFinishCopy(c: Config, s: State, a: Action)
    requires Inv(c, s) && a.FinishCopy? && Enabled(s, a)
    ensures TableHistory(c, Next(c, s, a)) && CrewHistory(c, Next(c, s, a))
  {
    var p := s.workers[a.worker];
    if a.result == Copied(p.job.checksum) {
      HistoryMove(c, s, Move(s, a.worker, MarkingSynced(p.id, p.job)));
    } else {
      HistoryFail(c, s, a.worker, FailureMessage(a.result));
    }
  }

  /** A claimed job has waited out its backoff, so a failure now is late enough. */
  lemma HistoryFail(c: Config, s: State, w: Worker, message: string)
    requires Inv(c, s) && w in s.workers && s.workers[w].Copying?
    ensures var t := Fail(c, s, w, s.workers[w], message);
            TableHistory(c, t) && CrewHistory(c, t)
  {
    var p := s.workers[w];
    assert Holds(s.workers, w, p.id);
    assert RowHistory(c, s.jobs[p.id], Failures(s.log, p.id), s.clock);
    HistoryMove(c, s, Fail(c, s, w, p, message));
  }

  /** Marking the held row, either way, fits the failures then in the log. */
  lemma HistoryMarkedRow(c: Config, s: State, w: Worker)
    requires Inv(c, s) && w in s.workers
    ensures s.workers[w].MarkingSynced? ==>
              var id := s.workers[w].id;
              && HasStatus(s.jobs, id, Syncing)
              && RowHistory(c, MarkSyncedWrite(s.jobs, id, s.clock)[id], Failures(s.log, id), s.clock)
    ensures s.workers[w].MarkingFailed? ==>
              var p := s.workers[w];
              && HasStatus(s.jobs, p.id, Syncing)
              && RowHistory(c, MarkFailedWrite(s.jobs, p.id, p.error, p.nextRetryAt, s.clock)[p.id],
                            Failures(s.log, p.id) + [p.failedAt], s.clock)
  {
    var p := s.workers[w];
    if p.MarkingSynced? || p.MarkingFailed? {
      assert Holds(s.workers, w, p.id);
      assert RowHistory(c, s.jobs[p.id], Failures(s.log, p.id), s.clock);
      assert PhaseHistory(c, p, s.log, s.clock);
    }
  }

  lemma HistoryMark(c: Config, s: State, t: State, w: Worker, e: Event)
    requires Inv(c, s) && w in s.workers && (s.workers[w].MarkingSynced? || s.workers[w].MarkingFailed?)
    requires e == (if s.workers[w].MarkingSynced? then Succeeded(w, s.workers[w].id)
                   else Failed(w, s.workers[w].id, s.workers[w].failedAt))
    requires t.clock == s.clock && t.workers == s.workers[w := Idle] && t.log == s.log + [e] + [Returned(w, true)]
    requires t.jobs == (var p := s.workers[w];
                        if p.MarkingSynced? then MarkSyncedWrite(s.jobs, p.id, s.clock)
                        else MarkFailedWrite(s.jobs, p.id, p.error, p.nextRetryAt, s.clock))
    ensures TableHistory(c, t) && CrewHistory(c, t)
  {
    var id := s.workers[w].id;
    HistoryMarkedRow(c, s, w);
    FailuresAppend(s.log, e);
    FailuresAppend(s.log + [e], Returned(w, true));
    HistoryUpdate(c, s, t, id);
    assert Holds(s.workers, w, id);
    assert forall v :: v in t.workers && v != w ==> !Holds(s.workers, v, id);
  }

  lemma HistoryMarkStep(c: Config, s: State, a: Action)
    requires Inv(c, s) && (a.MarkSynced? || a.MarkFailed?) && Enabled(s, a)
    ensures TableHistory(c, Next(c, s, a)) && CrewHistory(c, Next(c, s, a))
  {
    var w, p := a.worker, s.workers[a.worker];
    HistoryMarkedRow(c, s, w);
    HistoryMark(c, s, Next(c, s, a), w, if a.MarkSynced? then Succeeded(w, p.id) else Failed(w, p.id, p.failedAt));
  }

  lemma InvStep(c: Config, s: State, a: Action)
    requires Inv(c, s) && Enabled(s, a)
    ensures Inv(c, Next(c, s, a))
  {
    OwnershipStep(c, s, a);
    match a
    case Create(_, _, _, _, _) => HistoryCreate(c, s, a);
    case Requeue(_) => HistoryRequeue(c, s, a);
    case TryClaim(_) => HistoryClaim(c, s, a);
    case FinishCopy(_, _) => HistoryFinishCopy(c, s, a);
    case MarkSynced(_) => HistoryMarkStep(c, s, a);
    case MarkFailed(_) => HistoryMarkStep(c, s, a);
    case Select(w, _) =>
      FailuresAppend(s.log, Returned(w, false));
      assert PhaseHistory(c, s.workers[w], s.log, s.clock);
      HistoryMove(c, s, Next(c, s, a));
    case Tick(_) => HistoryMove(c, s, Next(c, s, a));
    case Begin(_) => HistoryMove(c, s, Next(c, s, a));
    case ReadRow(_) => HistoryMove(c, s, Next(c, s, a));
  }

  lemma {:induction false} RunInv(c: Config, run: seq<State>, acts: seq<Action>, k: nat)
    requires IsRun(c, run, acts) && k < |run|
    ensures Inv(c, run[k])
  {
    if k == 0 {
      assert forall w, id :: !Holds(run[0].workers, w, id);
    } else {
      RunInv(c, run, acts, k - 1);
      assert StepAt(c, run, acts, k - 1);
      InvStep(c, run[k - 1], acts[k - 1]);
    }
  }

  // ------------------------------------------------------------------ results

  /**
   * At every point of every run the `syncing` jobs and the workers that won a
   * claim and have not marked it are in one-to-one correspondence; a holder's
   * copy of the row is current, so two workers never copy the same job.
   */
  lemma SyncingJobsHaveOneHolder(c: Config, run: seq<State>, acts: seq<Action>, k: nat)
    requires IsRun(c, run, acts) && k < |run|
    ensures Ownership(run[k].jobs, run[k].workers) && Snapshots(run[k].jobs, run[k].workers)
    ensures var ws := run[k].workers;
            forall v, w :: v in ws && w in ws && v != w && ws[v].Copying? && ws[w].Copying? ==> ws[v].id != ws[w].id
  {
    RunInv(c, run, acts, k);
    var ws := run[k].workers;
    forall v, w | v in ws && w in ws && v != w && ws[v].Copying? && ws[w].Copying?
      ensures ws[v].id != ws[w].id
    {
      assert Holds(ws, v, ws[v].id) && Holds(ws, w, ws[w].id);
    }
  }

  /** Every `markSynced` and `markFailed` that a worker issues changes its row. */
  lemma HoldersAlwaysWin(c: Config, run: seq<State>, acts: seq<Action>, k: nat)
    requires IsRun(c, run, acts) && k < |acts| && (acts[k].MarkSynced? || acts[k].MarkFailed?)
    ensures StepAt(c, run, acts, k)
    ensures var id := run[k].workers[acts[k].worker].id;
            && HasStatus(run[k].jobs, id, Syncing)
            && id in run[k + 1].jobs
            && (acts[k].MarkSynced? ==> run[k + 1].jobs[id].status == Synced)
            && (acts[k].MarkFailed? ==>
                  && run[k + 1].jobs[id].status in {SyncFailed, DeadLetter}
                  && run[k + 1].jobs[id].retryCount == run[k].jobs[id].retryCount + 1)
  {
    RunInv(c, run, acts, k);
    assert StepAt(c, run, acts, k);
    HistoryMarkedRow(c, run[k], acts[k].worker);
  }

  predicate IsMarking(p: Phase) {
    p.MarkingSynced? || p.MarkingFailed?
  }

  /** The end of a copy by `w`, in the state `s`, leads to the phase `p`. */
  predicate Concludes(s: State, a: Action, w: Worker, p: Phase)
    requires IsMarking(p)
  {
    && a.FinishCopy? && a.worker == w && w in s.workers && s.workers[w] == Copying(p.id, p.job)
    && (p.MarkingSynced? ==> a.result == Copied(p.job.checksum))
    && (p.MarkingFailed? ==> a.result != Copied(p.job.checksum) && p.failedAt == s.clock)
    && (p.MarkingFailed? && a.result.Threw? ==> p.error == a.result.message)
    && (p.MarkingFailed? && a.result.Copied? ==> p.error == "Checksum mismatch between staged file and NAS copy")
  }

  lemma MarkingStarts(c: Config, s: State, a: Action, w: Worker)
    requires Enabled(s, a) && w in Next(c, s, a).workers && IsMarking(Next(c, s, a).workers[w])
    ensures w in s.workers
    ensures s.workers[w] == Next(c, s, a).workers[w] || Concludes(s, a, w, Next(c, s, a).workers[w])
  {
    if a.FinishCopy? && a.worker == w {
      CopyConcludes(c, s, a);
    }
  }

  lemma CopyConcludes(c: Config, s: State, a: Action)
    requires Enabled(s, a) && a.FinishCopy?
    ensures var t := Next(c, s, a);
            a.worker in t.workers && IsMarking(t.workers[a.worker]) && Concludes(s, a, a.worker, t.workers[a.worker])
  {
  }

  /** Step `i` is where `w` learned how its copy went. */
  ghost predicate Concluded(run: seq<State>, acts: seq<Action>, i: nat, w: Worker, p: Phase)
    requires IsMarking(p)
  {
    i < |acts| && i < |run| && Concludes(run[i], acts[i], w, p)
  }

  lemma {:induction false} PhaseConcluded(c: Config, run: seq<State>, acts: seq<Action>, k: nat, w: Worker) returns (i: nat)
    requires IsRun(c, run, acts) && k < |run| && w in run[k].workers && IsMarking(run[k].workers[w])
    ensures i < k && Concluded(run, acts, i, w, run[k].workers[w])
  {
    i := k - 1;
    assert StepAt(c, run, acts, i);
    MarkingStarts(c, run[i], acts[i], w);
    if run[i].workers[w] == run[k].workers[w] {
      i := PhaseConcluded(c, run, acts, i, w);
    }
  }

  /**
   * A job is marked as its own copy went: synced only after the NAS reported the
   * checksum in the row, failed only after it threw or reported another one.  The
   * next retry counts from the instant at which that was learned.
   */
  lemma OutcomeFollowsCopy(c: Config, run: seq<State>, acts: seq<Action>, k: nat)
    requires IsRun(c, run, acts) && k < |acts| && (acts[k].MarkSynced? || acts[k].MarkFailed?)
    ensures StepAt(c, run, acts, k)
    ensures var p := run[k].workers[acts[k].worker];
            && p.id in run[k].jobs && p.id in run[k + 1].jobs
            && p.job == run[k].jobs[p.id]
            && (exists i: nat :: i < k && Concluded(run, acts, i, acts[k].worker, p))
            && (acts[k].MarkFailed? ==>
                  && run[k + 1].jobs[p.id].lastError == Some(p.error)
                  && IsDelay(run[k + 1].jobs[p.id].nextRetryAt - p.failedAt, p.job.retryCount,
                             c.backoffBaseMs, c.backoffMaxMs))
  {
    RunInv(c, run, acts, k);
    assert StepAt(c, run, acts, k);
    var w := acts[k].worker;
    HistoryMarkedRow(c, run[k], w);
    assert PhaseHistory(c, run[k].workers[w], run[k].log, run[k].clock);
    var i := PhaseConcluded(c, run, acts, k, w);
    DelayLaw(run[k].workers[w].job.retryCount, c.backoffBaseMs, c.backoffMaxMs);
  }

  /** `retryCount` counts the failures since creation or requeue, and reaches `maxRetries` exactly in `dead_letter`. */
  lemma RetryCountCountsFailures(c: Config, run: seq<State>, acts: seq<Action>, k: nat, id: JobId)
    requires IsRun(c, run, acts) && k < |run| && id in run[k].jobs
    ensures var j := run[k].jobs[id];
            && j.retryCount == |Failures(run[k].log, id)|
            && (j.status.DeadLetter? ==> j.retryCount == j.maxRetries)
            && (!j.status.DeadLetter? ==> j.retryCount < j.maxRetries)
  {
    RunInv(c, run, acts, k);
    assert RowHistory(c, run[k].jobs[id], Failures(run[k].log, id), run[k].clock);
  }

  /** A synced row never changes again. */
  lemma {:induction false} SyncedIsFinal(c: Config, run: seq<State>, acts: seq<Action>, i: nat, k: nat, id: JobId)
    requires IsRun(c, run, acts) && i <= k < |run| && HasStatus(run[i].jobs, id, Synced)
    ensures id in run[k].jobs && run[k].jobs[id] == run[i].jobs[id]
    decreases k - i
  {
    if i < k {
      SyncedIsFinal(c, run, acts, i, k - 1, id);
      RowChange(c, run, acts, k - 1, id);
    }
  }

  /** A dead letter stays as it is until a requeue, which restarts it from the top. */
  lemma {:induction false} DeadLetterNeedsRequeue(c: Config, run: seq<State>, acts: seq<Action>, i: nat, k: nat, id: JobId)
    requires IsRun(c, run, acts) && i <= k < |run| && HasStatus(run[i].jobs, id, DeadLetter)
    ensures id in run[k].jobs
    ensures || run[k].jobs[id] == run[i].jobs[id]
            || exists j :: i <= j < k && Requeues(run, acts, j, id)
    decreases k - i
  {
    if i < k {
      DeadLetterNeedsRequeue(c, run, acts, i, k - 1, id);
      RowChange(c, run, acts, k - 1, id);
      if run[k - 1].jobs[id] == run[i].jobs[id] && run[k].jobs[id] != run[i].jobs[id] {
        assert Requeues(run, acts, k - 1, id);
      }
    }
  }

  /** Step `j` takes `id` from `dead_letter` back to `staged` with a zero count. */
  predicate Requeues(run: seq<State>, acts: seq<Action>, j: nat, id: JobId) {
    && j < |acts| && j + 1 < |run| && acts[j] == Requeue(id)
    && HasStatus(run[j].jobs, id, DeadLetter)
    && HasStatus(run[j + 1].jobs, id, Staged) && run[j + 1].jobs[id].retryCount == 0
  }

  /** The only ways a step changes a row. */
  lemma RowChange(c: Config, run: seq<State>, acts: seq<Action>, k: nat, id: JobId)
    requires IsRun(c, run, acts) && k < |acts| && id in run[k].jobs
    ensures id in run[k + 1].jobs
    ensures var j, j' := run[k].jobs[id], run[k + 1].jobs[id];
            || j' == j
            || (j.status.DeadLetter? && acts[k] == Requeue(id) && j'.status.Staged? && j'.retryCount == 0)
            || (j.status.Syncing? && (acts[k].MarkSynced? || acts[k].MarkFailed?))
            || (j'.status.Syncing? && acts[k].TryClaim? && Eligible(j, run[k].clock))
  {
    RunInv(c, run, acts, k);
    assert StepAt(c, run, acts, k);
    match acts[k]
    case TryClaim(w) => assert PhaseHistory(c, run[k].workers[w], run[k].log, run[k].clock);
    case _ =>
  }

  /** A failed job is claimed again only once its backoff has elapsed. */
  lemma NoEarlyRetry(c: Config, run: seq<State>, acts: seq<Action>, k: nat, id: JobId)
    requires IsRun(c, run, acts) && k < |acts|
    requires HasStatus(run[k].jobs, id, SyncFailed) && HasStatus(run[k + 1].jobs, id, Syncing)
    ensures run[k].jobs[id].nextRetryAt <= run[k].clock
    ensures var f := Failures(run[k].log, id);
            && f != []
            && IsDelay(run[k].jobs[id].nextRetryAt - f[|f| - 1], |f| - 1, c.backoffBaseMs, c.backoffMaxMs)
  {
    RunInv(c, run, acts, k);
    RowChange(c, run, acts, k, id);
    assert RowHistory(c, run[k].jobs[id], Failures(run[k].log, id), run[k].clock);
    DelayLaw(|Failures(run[k].log, id)| - 1, c.backoffBaseMs, c.backoffMaxMs);
  }

  /** A dead letter's failures, as many as `maxRetries`, are spaced by every backoff delay. */
  lemma DeadLetterFailures(c: Config, run: seq<State>, acts: seq<Action>, k: nat, id: JobId)
    requires IsRun(c, run, acts) && k < |run| && HasStatus(run[k].jobs, id, DeadLetter)
    ensures var f, n := Failures(run[k].log, id), run[k].jobs[id].maxRetries;
            |f| == n && n >= 1 && Spaced(f, c.backoffBaseMs, c.backoffMaxMs)
  {
    RunInv(c, run, acts, k);
    assert RowHistory(c, run[k].jobs[id], Failures(run[k].log, id), run[k].clock);
  }

  /**
   * A dead letter failed `maxRetries` times.  Between the first and the last failure it took
   * every delay: with the first `m` delays below the cap and the others at it, a geometric
   * sum and then that many times the cap.
   */
  lemma DeadLetterTookEveryBackoff(c: Config, run: seq<State>, acts: seq<Action>, k: nat, id: JobId, m: nat)
    requires IsRun(c, run, acts) && k < |run| && HasStatus(run[k].jobs, id, DeadLetter)
    ensures var f, n := Failures(run[k].log, id), run[k].jobs[id].maxRetries;
            && |f| == n
            && n >= 1
            && TotalBackoff(n - 1, c.backoffBaseMs, c.backoffMaxMs) <= f[n - 1] - f[0]
            && (CappedFrom(m, n - 1, c.backoffBaseMs, c.backoffMaxMs) ==>
                  c.backoffBaseMs * (Pow2(m) - 1) + (n - 1 - m) * c.backoffMaxMs <= f[n - 1] - f[0])
            && (Uncapped(n - 1, c.backoffBaseMs, c.backoffMaxMs) ==>
                  c.backoffBaseMs * (Pow2(n - 1) - 1) <= f[n - 1] - f[0])
  {
    DeadLetterFailures(c, run, acts, k, id);
    var f, n := Failures(run[k].log, id), run[k].jobs[id].maxRetries;
    SpacedTotal(f, n - 1, c.backoffBaseMs, c.backoffMaxMs);
    if CappedFrom(m, n - 1, c.backoffBaseMs, c.backoffMaxMs) {
      SpacedCapped(f, m, n - 1, c.backoffBaseMs, c.backoffMaxMs);
    }
    if Uncapped(n - 1, c.backoffBaseMs, c.backoffMaxMs) {
      SpacedUncapped(f, n - 1, c.backoffBaseMs, c.backoffMaxMs);
    }
  }

  /** How many `processNext` calls have returned true. */
  function Processed(log: seq<Event>): nat {
    if log == [] then 0 else
      Processed(log[..|log| - 1]) + (if log[|log| - 1].Returned? && log[|log| - 1].processed then 1 else 0)
  }

  lemma ProcessedAppend(log: seq<Event>, e: Event)
    ensures Processed(log + [e]) == Processed(log) + (if e.Returned? && e.processed then 1 else 0)
  {
    assert (log + [e])[..|log|] == log;
  }

  lemma TableRetriesOk(c: Config, s: State)
    requires TableHistory(c, s)
    ensures RetriesOk(s.jobs)
  {
    forall id | id in s.jobs
      ensures RetryOk(s.jobs[id])
    {
      assert RowHistory(c, s.jobs[id], Failures(s.log, id), s.clock);
    }
  }

  /** One step spends at least one unit of budget per `true` it returns. */
  lemma BudgetStep(c: Config, s: State, a: Action)
    requires Inv(c, s) && Enabled(s, a) && !a.Create? && !a.Requeue?
    ensures Budget(Next(c, s, a).jobs) + Processed(Next(c, s, a).log) <= Budget(s.jobs) + Processed(s.log)
  {
    TableRetriesOk(c, s);
    match a
    case TryClaim(w) => BudgetClaim(c, s, w);
    case Select(w, _) => ProcessedAppend(s.log, Returned(w, false));
    case MarkSynced(w) => BudgetMark(c, s, w, Succeeded(w, s.workers[w].id));
    case MarkFailed(w) => BudgetMark(c, s, w, Failed(w, s.workers[w].id, s.workers[w].failedAt));
    case _ =>
  }

  lemma BudgetClaim(c: Config, s: State, w: Worker)
    requires RetriesOk(s.jobs) && Enabled(s, TryClaim(w))
    ensures Budget(Next(c, s, TryClaim(w)).jobs) == Budget(s.jobs)
    ensures Processed(Next(c, s, TryClaim(w)).log) == Processed(s.log)
  {
    var p := s.workers[w];
    ClaimKeepsBudget(s.jobs, p.candidates[0], p.now);
    ProcessedAppend(s.log, Won(w, p.candidates[0]));
    ProcessedAppend(s.log, Returned(w, false));
  }

  lemma BudgetMark(c: Config, s: State, w: Worker, e: Event)
    requires Inv(c, s) && w in s.workers && (s.workers[w].MarkingSynced? || s.workers[w].MarkingFailed?)
    requires !e.Returned?
    ensures var p := s.workers[w];
            && HasStatus(s.jobs, p.id, Syncing)
            && Budget(MarkSyncedWrite(s.jobs, p.id, s.clock)) < Budget(s.jobs)
            && (p.MarkingFailed? ==>
                  Budget(MarkFailedWrite(s.jobs, p.id, p.error, p.nextRetryAt, s.clock)) < Budget(s.jobs))
            && Processed(s.log + [e] + [Returned(w, true)]) == Processed(s.log) + 1
  {
    TableRetriesOk(c, s);
    HistoryMarkedRow(c, s, w);
    var p := s.workers[w];
    var (error, at) := if p.MarkingFailed? then (p.error, p.nextRetryAt) else ("", 0);
    MarkSpendsBudget(s.jobs, p.id, error, at, s.clock);
    ProcessedAppend(s.log, e);
    ProcessedAppend(s.log + [e], Returned(w, true));
  }

  /**
   * While nothing is created or requeued, the `true` returns of all workers
   * together are paid for by the retry budget: there are never more of them
   * than the budget at the start, whatever the NAS and the clock do.
   */
  lemma {:induction false} BudgetBoundsProcessing(c: Config, run: seq<State>, acts: seq<Action>, i: nat, k: nat)
    requires IsRun(c, run, acts) && i <= k < |run|
    requires forall n :: i <= n < k ==> !acts[n].Create? && !acts[n].Requeue?
    ensures Budget(run[k].jobs) >= 0
    ensures Processed(run[k].log) - Processed(run[i].log) <= Budget(run[i].jobs) - Budget(run[k].jobs)
    decreases k - i
  {
    BudgetInRun(c, run, acts, k);
    if i < k {
      BudgetBoundsProcessing(c, run, acts, i, k - 1);
      BudgetAt(c, run, acts, k - 1);
    }
  }

  lemma BudgetInRun(c: Config, run: seq<State>, acts: seq<Action>, k: nat)
    requires IsRun(c, run, acts) && k < |run|
    ensures Budget(run[k].jobs) >= 0
  {
    RunInv(c, run, acts, k);
    TableRetriesOk(c, run[k]);
    BudgetNonNegative(run[k].jobs);
  }

  lemma BudgetAt(c: Config, run: seq<State>, acts: seq<Action>, k: nat)
    requires IsRun(c, run, acts) && k < |acts| && !acts[k].Create? && !acts[k].Requeue?
    ensures Budget(run[k + 1].jobs) + Processed(run[k + 1].log) <= Budget(run[k].jobs) + Processed(run[k].log)
  {
    RunInv(c, run, acts, k);
    assert StepAt(c, run, acts, k);
    BudgetStep(c, run[k], acts[k]);
  }

  // -------------------------------------------------------------- what claiming decides

  /**
   * The claiming UPDATE wins exactly on a row that is staged, or failed with its retry due at
   * the worker's clock reading.  A lost claim leads to the next candidate, after the last one
   * to the next of five SELECTs, and after those to a `false` return.
   */
  lemma ClaimMeans(c: Config, run: seq<State>, acts: seq<Action>, k: nat)
    requires IsRun(c, run, acts) && k < |acts| && acts[k].TryClaim?
    ensures StepAt(c, run, acts, k)
    ensures var s, t, w := run[k], run[k + 1], acts[k].worker;
            var p := s.workers[w];
            var id := p.candidates[0];
            if id in s.jobs && (s.jobs[id].status == Staged || (s.jobs[id].status == SyncFailed && s.jobs[id].nextRetryAt <= p.now))
            then && t.jobs == s.jobs[id := s.jobs[id].(status := Syncing, updatedAt := p.now)]
                 && t.workers == s.workers[w := Claimed(id)] && t.log == s.log + [Won(w, id)]
            else && t.jobs == s.jobs
                 && if |p.candidates| > 1 then
                      t.workers == s.workers[w := Claiming(p.now, p.attempt, p.candidates[1..])] && t.log == s.log
                    else if p.attempt < 4 then t.workers == s.workers[w := Selecting(p.now, p.attempt + 1)] && t.log == s.log
                    else t.workers == s.workers[w := Idle] && t.log == s.log + [Returned(w, false)]
  {
    assert StepAt(c, run, acts, k);
  }

  /** A worker reads the clock once per call, and gives up on a SELECT only if nothing is eligible at that reading. */
  lemma SelectMeans(c: Config, run: seq<State>, acts: seq<Action>, k: nat)
    requires IsRun(c, run, acts) && k < |acts|
    ensures acts[k].Begin? ==> run[k + 1].workers == run[k].workers[acts[k].worker := Selecting(run[k].clock, 0)]
    ensures acts[k].Select? ==>
              && StepAt(c, run, acts, k)
              && var s, t, w, ids := run[k], run[k + 1], acts[k].worker, acts[k].candidates;
                 var p := s.workers[w];
                 && t.jobs == s.jobs
                 && (ids != [] ==> t.workers == s.workers[w := Claiming(p.now, p.attempt, ids)])
                 && (ids == [] ==>
                       && t.workers == s.workers[w := Idle] && t.log == s.log + [Returned(w, false)]
                       && forall id :: id in s.jobs ==>
                            s.jobs[id].status != Staged && (s.jobs[id].status == SyncFailed ==> p.now < s.jobs[id].nextRetryAt))
  {
    assert StepAt(c, run, acts, k);
  }

  /** Time passes by any amount, and a push adds a staged row without failures at the clock. */
  lemma SurroundingsMean(c: Config, run: seq<State>, acts: seq<Action>, k: nat)
    requires IsRun(c, run, acts) && k < |acts|
    ensures acts[k].Tick? ==> run[k + 1] == run[k].(clock := run[k].clock + acts[k].elapsed)
    ensures acts[k].Create? ==>
              var a := acts[k];
              && a.id !in run[k].jobs && run[k + 1].workers == run[k].workers
              && run[k + 1].jobs == run[k].jobs[a.id := Job(a.repo, a.stagingPath, a.checksum, Staged, 0, a.maxRetries, 0,
                                                           run[k].clock, run[k].clock, None)]
  {
    assert StepAt(c, run, acts, k);
  }

  // ------------------------------------------------------------------------ progress

  /** Steps that a worker's current call may still take. */
  function StepsLeft(p: Phase): nat {
    match p
    case Idle => 0
    case MarkingSynced(_, _) => 1
    case MarkingFailed(_, _, _, _, _) => 1
    case Copying(_, _) => 2
    case Claimed(_) => 3
    case Claiming(_, attempt, candidates) => (if attempt <= 4 then (4 - attempt) * 7 else 0) + |candidates| + 4
    case Selecting(_, attempt) => (if attempt <= 4 then (4 - attempt) * 7 else 0) + 10
  }

  predicate BoundedPhase(p: Phase) {
    match p
    case Claiming(_, attempt, candidates) => attempt <= 4 && 1 <= |candidates| <= 5
    case Selecting(_, attempt) => attempt <= 4
    case _ => true
  }

  predicate ActsFor(a: Action, w: Worker) {
    match a
    case Create(_, _, _, _, _) => false
    case Requeue(_) => false
    case Tick(_) => false
    case _ => a.worker == w
  }

  lemma BoundedStep(c: Config, s: State, a: Action, w: Worker)
    requires Enabled(s, a) && w in s.workers && BoundedPhase(s.workers[w])
    ensures w in Next(c, s, a).workers && BoundedPhase(Next(c, s, a).workers[w])
    ensures ActsFor(a, w) && !a.Begin? ==> StepsLeft(Next(c, s, a).workers[w]) < StepsLeft(s.workers[w])
    ensures !ActsFor(a, w) ==> Next(c, s, a).workers[w] == s.workers[w]
  {
  }

  lemma {:induction false} RunBounded(c: Config, run: seq<State>, acts: seq<Action>, k: nat, w: Worker)
    requires IsRun(c, run, acts) && k < |run| && w in run[0].workers
    ensures w in run[k].workers && BoundedPhase(run[k].workers[w])
  {
    if k > 0 {
      RunBounded(c, run, acts, k - 1, w);
      assert StepAt(c, run, acts, k - 1);
      BoundedStep(c, run[k - 1], acts[k - 1], w);
    }
  }

  /**
   * No worker is ever stuck, whatever the others do: in every reachable state it has a step
   * to take, its call ends within a bounded number of its own steps, and no other's step
   * touches it.
   */
  lemma WorkerGoesOn(c: Config, run: seq<State>, acts: seq<Action>, k: nat, w: Worker) returns (a: Action)
    requires IsRun(c, run, acts) && k < |run| && w in run[0].workers
    ensures w in run[k].workers && ActsFor(a, w) && Enabled(run[k], a)
    ensures k < |acts| && ActsFor(acts[k], w) && !acts[k].Begin? ==>
              w in run[k + 1].workers && StepsLeft(run[k + 1].workers[w]) < StepsLeft(run[k].workers[w])
    ensures k < |acts| && !ActsFor(acts[k], w) ==> w in run[k + 1].workers && run[k + 1].workers[w] == run[k].workers[w]
  {
    RunBounded(c, run, acts, k, w);
    a := NextAction(c, run, acts, k, w);
    if k < |acts| {
      assert StepAt(c, run, acts, k);
      BoundedStep(c, run[k], acts[k], w);
    }
  }

  lemma NextAction(c: Config, run: seq<State>, acts: seq<Action>, k: nat, w: Worker) returns (a: Action)
    requires IsRun(c, run, acts) && k < |run| && w in run[k].workers && BoundedPhase(run[k].workers[w])
    ensures ActsFor(a, w) && Enabled(run[k], a)
  {
    match run[k].workers[w]
    case Idle => a := Begin(w);
    case Selecting(now, _) =>
      var ids := SelectionExists(run[k].jobs, now, SELECT_LIMIT);
      a := Select(w, ids);
    case Claiming(_, _, _) => a := TryClaim(w);
    case Claimed(id) =>
      SyncingJobsHaveOneHolder(c, run, acts, k);
      assert Holds(run[k].workers, w, id);
      a := ReadRow(w);
    case Copying(_, _) => a := FinishCopy(w, Threw(""));
    case MarkingSynced(_, _) => a := MarkSynced(w);
    case MarkingFailed(_, _, _, _, _) => a := MarkFailed(w);
  }
}
