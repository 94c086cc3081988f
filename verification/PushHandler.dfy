/**
 * `PushSessionHandler`: the per-session state behind one streamed push.  The
 * value functions give the effect of the code between two awaits; the class
 * runs whole methods, and PushSession interleaves the pieces with the events of
 * the stream.
 */
module PushHandler {
  import opened Common
  import TransferJobs

  type Bytes = seq<bv8>

  datatype Sink = NoSink | Open | Ended

  /**
   * `fed` is what the running hash has consumed and `written` what went to the
   * staging file; `removed` says that the staging file was deleted.
   */
  datatype Handler = Handler(
    fed: Bytes,
    written: Bytes,
    bytesReceived: nat,
    ticketId: Option<string>,
    username: Option<string>,
    repo: Option<string>,
    stagingPath: Option<string>,
    sink: Sink,
    closed: bool,
    removed: bool)

  const FRESH := Handler([], [], 0, None, None, None, None, NoSink, false, false)

  /** JavaScript truthiness of an optional string. */
  predicate Truthy(o: Option<string>) {
    o.Some? && o.value != ""
  }

  /** The ticket was consumed: remember the session. */
  function Accept(h: Handler, ticketId: string, username: string, repo: string, path: string): Handler {
    h.(ticketId := Some(ticketId), username := Some(username), repo := Some(repo), stagingPath := Some(path))
  }

  function OpenSink(h: Handler): Handler {
    h.(sink := Open)
  }

  function Feed(h: Handler, data: Bytes): Handler {
    h.(fed := h.fed + data, written := h.written + data, bytesReceived := h.bytesReceived + |data|)
  }

  function Shut(h: Handler): Handler {
    if h.closed then h
    else h.(closed := true, sink := if h.sink.Open? then Ended else h.sink, removed := h.stagingPath.Some?)
  }

  /** Why `finish` refuses to run, if it does. */
  function FinishRefusal(h: Handler): Option<string> {
    if h.closed then Some("Session already finished")
    else if !Truthy(h.ticketId) || !Truthy(h.repo) || !Truthy(h.stagingPath) || h.sink.NoSink? || !Truthy(h.username)
    then Some("finish() called before a valid header was received")
    else None
  }

  function BeginFinish(h: Handler): Handler {
    h.(closed := true, sink := Ended)
  }

  /** What `onBeforePush` decides. */
  datatype Preparation = Preparation(repo: string, stagingPath: string, dryRun: bool)

  datatype FinishResult = Finished(jobId: string, checksum: string, bytesReceived: nat) | Refused(reason: string)

  const DRY_RUN := "dry-run"

  class PushSessionHandler {
    const digest: Bytes -> string
    const jobs: TransferJobs.TransferJobStore
    const maxRetries: int
    var fed: Bytes
    var written: Bytes
    var bytesReceived: nat
    var ticketId: Option<string>
    var username: Option<string>
    var repo: Option<string>
    var stagingPath: Option<string>
    var sink: Sink
    var closed: bool
    var removed: bool

    function View(): Handler
      reads this
    {
      Handler(fed, written, bytesReceived, ticketId, username, repo, stagingPath, sink, closed, removed)
    }

    constructor (digest: Bytes -> string, jobs: TransferJobs.TransferJobStore, maxRetries: int)
      ensures View() == FRESH && this.jobs == jobs && this.maxRetries == maxRetries && this.digest == digest
    {
      this.digest, this.jobs, this.maxRetries := digest, jobs, maxRetries;
      fed, written, bytesReceived := [], [], 0;
      ticketId, username, repo, stagingPath := None, None, None, None;
      sink, closed, removed := NoSink, false, false;
    }

    /** `consumed` is the user on a consumed ticket, or none when the ticket was rejected. */
    method OnHeader(header: string, consumed: Option<string>, toRepo: string, path: string) returns (ok: bool)
      modifies this
      ensures ok <==> !Truthy(old(ticketId)) && consumed.Some?
      ensures View() == if ok then OpenSink(Accept(old(View()), header, consumed.value, toRepo, path)) else old(View())
    {
      ok := !(ticketId.Some? && ticketId.value != "") && consumed.Some?;
      if ok {
        username := consumed;
        ticketId, repo, stagingPath := Some(header), Some(toRepo), Some(path);
        sink := Open;
      }
    }

    method OnChunk(data: Bytes) returns (ok: bool)
      modifies this
      ensures ok <==> !old(sink).NoSink?
      ensures View() == if ok then Feed(old(View()), data) else old(View())
      ensures old(written == fed && bytesReceived == |fed|) ==> written == fed && bytesReceived == |fed|
    {
      ok := !sink.NoSink?;
      if ok {
        written := written + data;
        fed := fed + data;
        bytesReceived := bytesReceived + |data|;
      }
    }

    method Abort()
      modifies this
      ensures View() == Shut(old(View()))
      ensures closed && FinishRefusal(View()).Some? && (!old(closed) ==> !sink.Open? && (stagingPath.Some? ==> removed))
    {
      if closed {
        return;
      }
      closed := true;
      if sink.Open? {
        sink := Ended;
      }
      removed := stagingPath.Some?;
    }

    /**
     * Refused without touching anything, or the session is closed and the reply
     * carries the hash and length of everything fed; unless it was a dry run,
     * exactly one staged row with that hash was added.
     */
    method Finish(prep: Preparation, jobId: string, now: int) returns (r: FinishResult)
      requires jobId !in jobs.jobs && jobId != DRY_RUN
      modifies this, jobs
      ensures r.Refused? <==> FinishRefusal(old(View())).Some?
      ensures r == Refused("Session already finished") <==> old(closed)
      ensures r == Refused("finish() called before a valid header was received") <==>
                !old(closed) && (old(sink) == NoSink || old(ticketId) in {None, Some("")} || old(repo) in {None, Some("")}
                                 || old(stagingPath) in {None, Some("")} || old(username) in {None, Some("")})
      ensures r.Refused? ==> Some(r.reason) == FinishRefusal(old(View()))
      ensures r.Refused? ==> View() == old(View()) && jobs.jobs == old(jobs.jobs)
      ensures r.Finished? ==>
                && View() == BeginFinish(old(View()))
                && r.checksum == digest(old(fed)) && r.bytesReceived == old(bytesReceived)
                && (r.jobId == DRY_RUN <==> prep.dryRun)
                && jobs.jobs == if prep.dryRun then old(jobs.jobs)
                                else old(jobs.jobs)[r.jobId := TransferJobs.Job(
                                       prep.repo, prep.stagingPath, r.checksum, TransferJobs.Staged, 0, maxRetries, 0,
                                       now, now, None)]
    {
      if closed {
        return Refused("Session already finished");
      }
      var refusal := FinishRefusal(View());
      if refusal.Some? {
        return Refused(refusal.value);
      }
      closed := true;
      sink := Ended;
      var checksum := digest(fed);
      if prep.dryRun {
        return Finished(DRY_RUN, checksum, bytesReceived);
      }
      var inserted := jobs.Create(jobId, TransferJobs.NewJob(prep.repo, prep.stagingPath, checksum, maxRetries, now));
      return Finished(jobId, checksum, bytesReceived);
    }
  }
}
