/** Why a push is aborted, and so which pushes succeed. */
module PushCauses {
  import opened Common
  import opened PushHandler
  import opened PushSession
  import T = TicketStore

  predicate HasHeader(ms: seq<Message>) {
    exists i :: 0 <= i < |ms| && ms[i].Header?
  }

  /** The session belongs to this consumed header and ticket. */
  predicate Belongs(h: Handler, header: Option<HeaderFields>, ticket: Option<T.Ticket>) {
    && header.Some? && ticket.Some? && h.stagingPath.Some?
    && h.ticketId == Some(header.value.ticketId) && h.repo == Some(header.value.repo)
    && h.username == Some(ticket.value.username)
  }

  /** How far an unaborted session has come, by its header. */
  predicate Sound(headerReceived: bool, task: Task, h: Handler, header: Option<HeaderFields>, ticket: Option<T.Ticket>,
                  early: bool, errored: bool) {
    && (!headerReceived ==> h.ticketId.None? && h.sink.NoSink? && task.NoTask?)
    && (headerReceived && !task.Consuming? ==> Belongs(h, header, ticket))
    && (headerReceived && !task.Consuming? && !task.MakingDir? ==> !h.sink.NoSink?)
    && (task.Consuming? ==> h.ticketId.None? && h.sink.NoSink?)
    && (h.closed && early ==> errored)
    && (h.sink.Ended? ==> h.closed)
  }

  predicate SoundState(s: State, errored: bool) {
    !s.aborted ==> Sound(s.headerReceived, s.task, s.handler, s.activated, s.ticket, !s.streamEnded, errored)
  }

  /** A name that the session needs is empty. */
  predicate LacksName(s: State) {
    && s.activated.Some? && s.ticket.Some?
    && (s.activated.value.ticketId == "" || s.activated.value.repo == "" || s.ticket.value.username == ""
        || s.handler.stagingPath == Some(""))
  }

  /** An `error` event came before step `k`. */
  predicate ErrorSeen(acts: seq<Action>, k: nat) {
    exists i :: 0 <= i < k && i < |acts| && acts[i].OnError?
  }

  /**
   * The one thing wrong in this step that an abort with this code reports: a message out of
   * order, a step that failed, a write to a sink that an error event has closed, or an end
   * after such an event or without a name.
   */
  predicate Causes(s: State, a: Action, abort: Abort, errored: bool) {
    match a
    case StartNext(writeThrows, _) =>
      s.queue != [] &&
      (match s.queue[0]
       case Data(Header(_)) => abort == Abort(FailedPrecondition, "Header already sent") && HasHeader(s.started)
       case Data(Chunk(_)) =>
         || (abort == Abort(FailedPrecondition, "Chunk received before header") && !HasHeader(s.started))
         || (abort == Abort(PermissionDenied, "Internal error") && writeThrows && errored)
       case Data(Empty) => false
       case End =>
         || (abort == Abort(FailedPrecondition, "Stream ended before a header was sent") && !HasHeader(s.started))
         || (abort.code == Internal && (errored || LacksName(s))))
    case ConsumeDone(ticket, _) => abort == Abort(PermissionDenied, "ticket rejected") && ticket.None?
    case MkdirDone(ok) => abort == Abort(PermissionDenied, "Internal error") && !ok
    case PrepareDone(prep) => abort.code == Internal && prep.None?
    case CreateDone(jobId) => abort.code == Internal && jobId.None?
    case _ => false
  }

  /** What one step keeps, and why it aborts if it does. */
  ghost predicate Explained(s: State, t: State, a: Action, errored: bool) {
    && SoundState(t, errored || a.OnError?)
    && (s.pendingAbort.None? && t.pendingAbort.Some? ==> Causes(s, a, t.pendingAbort.value, errored))
  }

  lemma HeaderFirstHas(ms: seq<Message>, header: HeaderFields)
    requires HeaderFirst(ms, header)
    ensures HasHeader(ms)
  {
    var i: nat :| HeaderAt(ms, header, i);
    assert ms[i].Header?;
  }

  /** An unaborted session has received its header exactly if one was taken off the queue. */
  lemma ReceivedMeansStarted(s: State)
    requires HeadedState(s) && !s.aborted
    ensures s.headerReceived <==> HasHeader(s.started)
  {
    if s.headerReceived {
      HeaderFirstHas(s.started, if s.task.Consuming? then s.task.header else s.activated.value);
    }
  }

  /** An abort is recorded unless the session was aborted before. */
  lemma AbortSound(s: State, abort: Abort, errored: bool)
    requires SoundState(s, errored) || !s.aborted
    ensures SoundState(MarkAborted(s, abort), errored)
    ensures MarkAborted(s, abort).pendingAbort == if s.aborted then s.pendingAbort else Some(abort)
  {
  }

  /** An unaborted session that is about to take an item off the queue. */
  ghost predicate Ready(s: State, a: Action, item: Item, errored: bool) {
    && SoundState(s, errored) && HeadedState(s) && !s.aborted && s.task.NoTask? && !s.streamEnded
    && a.StartNext? && s.queue != [] && s.queue[0] == item
  }

  lemma ExplainHeader(s: State, t: State, header: HeaderFields, a: Action, errored: bool)
    requires Ready(s, a, Data(Header(header)), errored)
    requires t == s.(queue := s.queue[1..], started := s.started + [Header(header)])
    ensures Explained(s, Process(t, Header(header), a.writeThrows), a, errored)
  {
    ReceivedMeansStarted(s);
    AbortSound(t, Abort(FailedPrecondition, "Header already sent"), errored);
  }

  lemma ExplainChunk(s: State, t: State, data: Bytes, a: Action, errored: bool)
    requires Ready(s, a, Data(Chunk(data)), errored)
    requires t == s.(queue := s.queue[1..], started := s.started + [Chunk(data)])
    ensures Explained(s, Process(t, Chunk(data), a.writeThrows), a, errored)
  {
    ReceivedMeansStarted(s);
    AbortSound(t, Abort(FailedPrecondition, "Chunk received before header"), errored);
    AbortSound(t, Abort(PermissionDenied, "Internal error"), errored);
  }

  lemma ExplainEnd(c: Config, s: State, t: State, a: Action, errored: bool)
    requires Ready(s, a, End, errored) && t == s.(queue := s.queue[1..], streamEnded := true)
    ensures Explained(s, Finalize(c, t, a.now), a, errored)
  {
    ReceivedMeansStarted(s);
    if !s.headerReceived {
      AbortSound(t, Abort(FailedPrecondition, "Stream ended before a header was sent"), errored);
    } else if FinishRefusal(s.handler).Some? {
      AbortSound(t, Abort(Internal, FinishRefusal(s.handler).value), errored);
    }
  }

  lemma ExplainMessage(c: Config, s: State, t: State, m: Message, a: Action, errored: bool)
    requires Ready(s, a, Data(m), errored) && t == s.(queue := s.queue[1..], started := s.started + [m])
    ensures Explained(s, Process(t, m, a.writeThrows), a, errored)
  {
    match m
    case Header(header) => ExplainHeader(s, t, header, a, errored);
    case Chunk(data) => ExplainChunk(s, t, data, a, errored);
    case Empty =>
  }

  lemma ExplainStart(c: Config, s: State, a: Action, errored: bool)
    requires a.StartNext? && s.queue != [] && Ready(s, a, s.queue[0], errored)
    ensures Explained(s, Begin(c, s, a.writeThrows, a.now), a, errored)
  {
    match s.queue[0]
    case Data(m) => ExplainMessage(c, s, s.(queue := s.queue[1..], started := s.started + [m]), m, a, errored);
    case End => ExplainEnd(c, s, s.(queue := s.queue[1..], streamEnded := true), a, errored);
  }

  /** An aborted session stays so, and records nothing more. */
  lemma ExplainAborted(c: Config, s: State, a: Action, errored: bool)
    requires s.aborted && Enabled(s, a)
    ensures Explained(s, Next(c, s, a), a, errored)
  {
    StaysUnrecorded(c, s, a);
  }

  lemma ExplainConsume(s: State, ticket: Option<T.Ticket>, path: string, errored: bool)
    requires SoundState(s, errored) && Enabled(s, ConsumeDone(ticket, path)) && !s.aborted && s.headerReceived
    ensures Explained(s, AfterConsume(s, ticket, path), ConsumeDone(ticket, path), errored)
  {
    AbortSound(s, Abort(PermissionDenied, "ticket rejected"), errored);
  }

  lemma ExplainMkdir(s: State, ok: bool, errored: bool)
    requires SoundState(s, errored) && Enabled(s, MkdirDone(ok)) && !s.aborted
    ensures Explained(s, AfterMkdir(s, ok), MkdirDone(ok), errored)
  {
    AbortSound(s, Abort(PermissionDenied, "Internal error"), errored);
  }

  lemma ExplainPrepare(s: State, prep: Option<Preparation>, errored: bool)
    requires SoundState(s, errored) && Enabled(s, PrepareDone(prep)) && !s.aborted
    ensures Explained(s, AfterPrepare(s, prep), PrepareDone(prep), errored)
  {
    AbortSound(s, Abort(Internal, "push preparation failed"), errored);
  }

  lemma ExplainCreate(c: Config, s: State, jobId: Option<string>, errored: bool)
    requires SoundState(s, errored) && Enabled(s, CreateDone(jobId)) && !s.aborted
    ensures Explained(s, AfterCreate(c, s, jobId), CreateDone(jobId), errored)
  {
    AbortSound(s, Abort(Internal, "job store failed"), errored);
  }

  lemma ExplainStep(c: Config, s: State, a: Action, errored: bool)
    requires SoundState(s, errored) && HeadedState(s) && Enabled(s, a) && (a.StartNext? ==> !s.streamEnded) && !s.aborted
    ensures Explained(s, Next(c, s, a), a, errored)
  {
    match a
    case StartNext(_, _) => ExplainStart(c, s, a, errored);
    case ConsumeDone(ticket, path) => ExplainConsume(s, ticket, path, errored);
    case MkdirDone(ok) => ExplainMkdir(s, ok, errored);
    case PrepareDone(prep) => ExplainPrepare(s, prep, errored);
    case CreateDone(jobId) => ExplainCreate(c, s, jobId, errored);
    case _ =>
  }

  lemma {:induction false} RunSound(c: Config, run: seq<State>, acts: seq<Action>, k: nat)
    requires IsRun(c, run, acts) && k < |run|
    ensures SoundState(run[k], ErrorSeen(acts, k))
  {
    if k > 0 {
      RunSound(c, run, acts, k - 1);
      ExplainAt(c, run, acts, k - 1);
      if ErrorSeen(acts, k - 1) {
        var i :| 0 <= i < k - 1 && i < |acts| && acts[i].OnError?;
        assert ErrorSeen(acts, k);
      }
    }
  }

  lemma ExplainAt(c: Config, run: seq<State>, acts: seq<Action>, k: nat)
    requires IsRun(c, run, acts) && k < |acts| && SoundState(run[k], ErrorSeen(acts, k))
    ensures Explained(run[k], run[k + 1], acts[k], ErrorSeen(acts, k))
  {
    assert StepAt(c, run, acts, k);
    if run[k].aborted {
      ExplainAborted(c, run[k], acts[k], ErrorSeen(acts, k));
    } else {
      RunHeaded(c, run, acts, k);
      EndIsLast(c, run, acts, k);
      ExplainStep(c, run[k], acts[k], ErrorSeen(acts, k));
    }
  }

  /** Once the end has been taken off the queue nothing is left in it. */
  lemma EndIsLast(c: Config, run: seq<State>, acts: seq<Action>, k: nat)
    requires IsRun(c, run, acts) && k < |run|
    ensures run[k].streamEnded ==> run[k].queue == []
  {
    RunInv(c, run, acts, k);
  }

  // ------------------------------------------------------------------ results

  /** Every recorded abort has its cause, in the step that recorded it, and nothing was aborted before. */
  lemma {:induction false} AbortHasCause(c: Config, run: seq<State>, acts: seq<Action>, k: nat) returns (j: nat)
    requires IsRun(c, run, acts) && k < |run| && run[k].pendingAbort.Some?
    ensures j < k && run[j].pendingAbort.None? && !run[j].aborted
    ensures Causes(run[j], acts[j], run[k].pendingAbort.value, ErrorSeen(acts, j))
  {
    j := k - 1;
    RunSound(c, run, acts, j);
    ExplainAt(c, run, acts, j);
    if run[j].pendingAbort.Some? {
      j := AbortHasCause(c, run, acts, k - 1);
      FirstAbortStays(c, run, acts, k - 1, k);
    } else {
      AbortNeedsUnaborted(c, run, acts, j);
    }
  }

  lemma AbortNeedsUnaborted(c: Config, run: seq<State>, acts: seq<Action>, k: nat)
    requires IsRun(c, run, acts) && k < |acts| && run[k].pendingAbort.None? && run[k + 1].pendingAbort.Some?
    ensures !run[k].aborted
  {
    assert StepAt(c, run, acts, k);
    if run[k].aborted {
      StaysUnrecorded(c, run[k], acts[k]);
    }
  }

  lemma StaysUnrecorded(c: Config, s: State, a: Action)
    requires s.aborted && Enabled(s, a)
    ensures Next(c, s, a).pendingAbort == s.pendingAbort && Next(c, s, a).aborted
  {
    match a
    case StartNext(writeThrows, now) => StartKeepsAbort(c, s, writeThrows, now);
    case ConsumeDone(ticket, path) => ConsumeKeepsAbort(s, ticket, path);
    case PrepareDone(prep) => PrepareKeepsAbort(s, prep);
    case CreateDone(jobId) => CreateKeepsAbort(c, s, jobId);
    case _ =>
  }

  /** No `error` or `cancelled` event, no await that fails, and no empty user name or path. */
  predicate GoesWell(a: Action) {
    match a
    case OnError => false
    case OnCancelled => false
    case ConsumeDone(ticket, path) => ticket.Some? && ticket.value.username != "" && path != ""
    case MkdirDone(ok) => ok
    case PrepareDone(prep) => prep.Some?
    case CreateDone(jobId) => jobId.Some?
    case _ => true
  }

  predicate Unharmed(s: State) {
    && !s.cancelled
    && (s.ticket.Some? ==> s.ticket.value.username != "")
    && (s.handler.stagingPath.Some? ==> s.handler.stagingPath.value != "")
  }

  lemma UnharmedAbort(s: State, abort: Abort)
    requires Unharmed(s)
    ensures Unharmed(MarkAborted(s, abort)) && MarkAborted(s, abort).arrived == s.arrived && MarkAborted(s, abort).ended == s.ended
  {
  }

  lemma UnharmedMessage(s: State, m: Message, writeThrows: bool)
    requires Unharmed(s)
    ensures var t := Process(s, m, writeThrows);
            Unharmed(t) && t.arrived == s.arrived && t.ended == s.ended
  {
    UnharmedAbort(s, Abort(FailedPrecondition, "Header already sent"));
    UnharmedAbort(s.(headerReceived := true), Abort(PermissionDenied, "Header already received for this session"));
    UnharmedAbort(s, Abort(FailedPrecondition, "Chunk received before header"));
    UnharmedAbort(s, Abort(PermissionDenied, "Received a data chunk before the header"));
    UnharmedAbort(s, Abort(PermissionDenied, "Internal error"));
  }

  lemma UnharmedEnd(c: Config, s: State, now: int)
    requires Unharmed(s)
    ensures var t := Finalize(c, s, now);
            Unharmed(t) && t.arrived == s.arrived && t.ended == s.ended
  {
    UnharmedAbort(s, Abort(FailedPrecondition, "Stream ended before a header was sent"));
    if FinishRefusal(s.handler).Some? {
      UnharmedAbort(s, Abort(Internal, FinishRefusal(s.handler).value));
    }
  }

  lemma UnharmedStart(c: Config, s: State, writeThrows: bool, now: int)
    requires Unharmed(s) && s.queue != []
    ensures var t := Begin(c, s, writeThrows, now);
            Unharmed(t) && t.arrived == s.arrived && t.ended == s.ended
  {
    match s.queue[0]
    case Data(m) => UnharmedMessage(s.(queue := s.queue[1..], started := s.started + [m]), m, writeThrows);
    case End => UnharmedEnd(c, s.(queue := s.queue[1..], streamEnded := true), now);
  }

  lemma UnharmedStep(c: Config, s: State, a: Action)
    requires Unharmed(s) && Enabled(s, a) && GoesWell(a)
    ensures Unharmed(Next(c, s, a)) && s.arrived <= Next(c, s, a).arrived
    ensures s.ended ==> Next(c, s, a).arrived == s.arrived && Next(c, s, a).ended
  {
    if a.StartNext? {
      UnharmedStart(c, s, a.writeThrows, a.now);
    }
  }

  lemma UnharmedAt(c: Config, run: seq<State>, acts: seq<Action>, k: nat)
    requires IsRun(c, run, acts) && k < |acts| && Unharmed(run[k]) && GoesWell(acts[k])
    ensures Unharmed(run[k + 1]) && run[k].arrived <= run[k + 1].arrived
    ensures run[k].ended ==> run[k + 1].arrived == run[k].arrived && run[k + 1].ended
  {
    assert StepAt(c, run, acts, k);
    UnharmedStep(c, run[k], acts[k]);
  }

  lemma {:induction false} RunUnharmed(c: Config, run: seq<State>, acts: seq<Action>, k: nat)
    requires IsRun(c, run, acts) && k < |run| && forall n: nat :: n < k ==> GoesWell(acts[n])
    ensures Unharmed(run[k])
  {
    if k > 0 {
      RunUnharmed(c, run, acts, k - 1);
      UnharmedAt(c, run, acts, k - 1);
    }
  }

  /** What has arrived stays, and nothing arrives after the end. */
  lemma {:induction false} ArrivalsStay(c: Config, run: seq<State>, acts: seq<Action>, i: nat, k: nat)
    requires IsRun(c, run, acts) && i <= k < |run| && forall n: nat :: n < k ==> GoesWell(acts[n])
    ensures run[i].arrived <= run[k].arrived && (run[i].ended ==> run[k].arrived == run[i].arrived && run[k].ended)
    decreases k - i
  {
    if i < k {
      ArrivalsStay(c, run, acts, i, k - 1);
      RunUnharmed(c, run, acts, k - 1);
      UnharmedAt(c, run, acts, k - 1);
    }
  }

  /**
   * Every push that sends one header with its names before its chunks, for which nothing
   * fails and no event interferes, is answered with success once it has ended and drained.
   */
  lemma GoodPushSucceeds(c: Config, run: seq<State>, acts: seq<Action>, k: nat, header: HeaderFields)
    requires IsRun(c, run, acts) && k < |run| && run[k].ended && Quiescent(run[k])
    requires HeaderFirst(run[k].arrived, header) && header.ticketId != "" && header.repo != ""
    requires forall n: nat :: n < k ==> GoesWell(acts[n])
    ensures |run[k].replies| == 1 && run[k].replies[0].Success?
  {
    RunUnharmed(c, run, acts, k);
    ExactlyOneReply(c, run, acts, k);
    RunInv(c, run, acts, k);
    assert ReplyTrue(c, run[k], run[k].replies[0]);
    if run[k].replies[0].Failure? {
      var j := AbortHasCause(c, run, acts, k);
      ArrivalsStay(c, run, acts, j, k);
      RunUnharmed(c, run, acts, j);
      NoCause(c, run, acts, j, header, run[k].arrived, run[k].pendingAbort.value);
    }
  }

  /** In a good push no step has a cause to abort. */
  lemma NoCause(c: Config, run: seq<State>, acts: seq<Action>, j: nat, header: HeaderFields, all: seq<Message>, abort: Abort)
    requires IsRun(c, run, acts) && j < |acts| && HeaderFirst(all, header) && !run[j].aborted
    requires run[j].arrived <= all && (run[j].ended ==> run[j].arrived == all)
    requires header.ticketId != "" && header.repo != "" && GoesWell(acts[j]) && Unharmed(run[j])
    requires forall n: nat :: n < j ==> GoesWell(acts[n])
    ensures !Causes(run[j], acts[j], abort, ErrorSeen(acts, j))
  {
    assert !ErrorSeen(acts, j);
    if acts[j].StartNext? {
      RunInv(c, run, acts, j);
      assert StepAt(c, run, acts, j);
      RunHeaded(c, run, acts, j);
      RunSound(c, run, acts, j);
      NoStartCause(run[j], acts[j], header, all, abort);
    }
  }

  lemma NoStartCause(s: State, a: Action, header: HeaderFields, all: seq<Message>, abort: Abort)
    requires QueueOk(s.arrived, s.started, s.queue, s.ended, s.streamEnded) && HeadedState(s) && Unharmed(s)
    requires s.arrived <= all && (s.ended ==> s.arrived == all) && HeaderFirst(all, header)
    requires header.ticketId != "" && header.repo != "" && a.StartNext? && s.queue != [] && s.task.NoTask? && !s.aborted
    ensures !Causes(s, a, abort, false)
  {
    var i: nat :| HeaderAt(all, header, i);
    var n := |s.started|;
    match s.queue[0]
    case Data(m) =>
      assert m == s.arrived[n] == all[n];
      if m.Header? {
        assert forall k :: 0 <= k < n ==> s.started[k] == all[k];
      } else if m.Chunk? {
        assert s.started[i] == all[i];
      }
    case End =>
      assert s.started == all;
      HeaderFirstHas(all, header);
      ReceivedMeansStarted(s);
      HeaderUnique(all, header, s.activated.value);
  }

  lemma HeaderUnique(ms: seq<Message>, a: HeaderFields, b: HeaderFields)
    requires HeaderFirst(ms, a) && HeaderFirst(ms, b)
    ensures a == b
  {
    var i: nat :| HeaderAt(ms, a, i);
    var j: nat :| HeaderAt(ms, b, j);
    assert ms[i].Header? && ms[j].Header?;
  }
}
