/**
 * The gRPC `push` handler: stream events feed a chain of promises that handles
 * one message at a time, while `error` and `cancelled` act at once, also in the
 * middle of an await.  One action is one event, the start of the next queued
 * item, or the resumption of the item that is waiting.
 */
module PushSession {
  import opened Common
  import opened PushHandler
  import TransferJobs
  import T = TicketStore

  datatype HeaderFields = HeaderFields(ticketId: string, operation: string, repo: string)

  datatype Message = Header(header: HeaderFields) | Chunk(data: Bytes) | Empty

  datatype Item = Data(message: Message) | End

  datatype Status = FailedPrecondition | PermissionDenied | Internal

  datatype Abort = Abort(code: Status, message: string)

  datatype Reply = Success(jobId: string, checksum: string, bytesReceived: nat) | Failure(abort: Abort)

  /** What the item in progress is waiting for; `Replying` is the last await of `finish`. */
  datatype Task =
    | NoTask
    | Consuming(header: HeaderFields)
    | MakingDir
    | Removing(abort: Abort)
    | Preparing(checksum: string, now: int)
    | Creating(checksum: string, now: int, prep: Preparation)
    | Closing(jobId: string, checksum: string)
    | Replying(jobId: string, checksum: string)

  /**
   * `arrived` and `started` are the messages received and taken off the queue; `activated`
   * is the consumed header and `ticket` what was consumed for it.
   */
  datatype State = State(
    headerReceived: bool,
    aborted: bool,
    pendingAbort: Option<Abort>,
    streamEnded: bool,
    queue: seq<Item>,
    task: Task,
    handler: Handler,
    arrived: seq<Message>,
    started: seq<Message>,
    ended: bool,
    cancelled: bool,
    activated: Option<HeaderFields>,
    ticket: Option<T.Ticket>,
    rows: seq<(string, TransferJobs.Job)>,
    replies: seq<Reply>)

  const INITIAL := State(false, false, None, false, [], NoTask, FRESH, [], [], false, false, None, None, [], [])

  datatype Config = Config(digest: Bytes -> string, maxRetries: int)

  datatype Action =
    | OnData(message: Message)
    | OnEnd
    | OnError
    | OnCancelled
    | StartNext(writeThrows: bool, now: int)
    | ConsumeDone(ticket: Option<T.Ticket>, path: string)
    | MkdirDone(ok: bool)
    | AbortDone
    | PrepareDone(prep: Option<Preparation>)
    | CreateDone(jobId: Option<string>)
    | CloseDone
    | ReplyReady

  function OperationName(op: T.Operation): string {
    match op case Push => "push" case Pull => "pull"
  }

  /** What `consumeTicket` returns fits the operation and repo that it was asked for: those of the header. */
  predicate Fits(t: T.Ticket, header: HeaderFields) {
    OperationName(t.operation) == header.operation && t.repo == header.repo
  }

  predicate Enabled(s: State, a: Action) {
    match a
    case OnData(_) => !s.ended
    case OnEnd => !s.ended
    case OnError => true
    case OnCancelled => true
    case StartNext(_, _) => s.task.NoTask? && s.queue != []
    case ConsumeDone(ticket, _) => s.task.Consuming? && (ticket.Some? ==> Fits(ticket.value, s.task.header))
    case MkdirDone(_) => s.task.MakingDir?
    case AbortDone => s.task.Removing?
    case PrepareDone(_) => s.task.Preparing?
    case CreateDone(jobId) => s.task.Creating? && jobId != Some(DRY_RUN)
    case CloseDone => s.task.Closing?
    case ReplyReady => s.task.Replying?
  }

  /** `markAborted` up to its await; a second call does nothing. */
  function MarkAborted(s: State, abort: Abort): State {
    if s.aborted then s.(task := NoTask)
    else s.(aborted := true, pendingAbort := Some(abort), handler := Shut(s.handler), task := Removing(abort))
  }

  function Call(s: State, r: Reply): State {
    s.(replies := s.replies + [r], task := NoTask)
  }

  /** `processMessage` up to its first await. */
  function Process(s: State, m: Message, writeThrows: bool): State {
    if s.aborted then s
    else match m
      case Header(header) =>
        if s.headerReceived then MarkAborted(s, Abort(FailedPrecondition, "Header already sent"))
        else if Truthy(s.handler.ticketId) then
          MarkAborted(s.(headerReceived := true), Abort(PermissionDenied, "Header already received for this session"))
        else s.(headerReceived := true, task := Consuming(header))
      case Chunk(data) =>
        if !s.headerReceived then MarkAborted(s, Abort(FailedPrecondition, "Chunk received before header"))
        else if s.handler.sink.NoSink? then
          MarkAborted(s, Abort(PermissionDenied, "Received a data chunk before the header"))
        else if s.handler.sink.Ended? && writeThrows then MarkAborted(s, Abort(PermissionDenied, "Internal error"))
        else s.(handler := Feed(s.handler, data))
      case Empty => s
  }

  /** `finalizeStream` up to its first await. */
  function Finalize(c: Config, s: State, now: int): State {
    if s.aborted then
      if s.pendingAbort.Some? then Call(s, Failure(s.pendingAbort.value)) else s
    else if !s.headerReceived then MarkAborted(s, Abort(FailedPrecondition, "Stream ended before a header was sent"))
    else if FinishRefusal(s.handler).Some? then MarkAborted(s, Abort(Internal, FinishRefusal(s.handler).value))
    else s.(handler := BeginFinish(s.handler), task := Preparing(c.digest(s.handler.fed), now))
  }

  function Begin(c: Config, s: State, writeThrows: bool, now: int): State
    requires s.queue != []
  {
    var rest := s.(queue := s.queue[1..]);
    match s.queue[0]
    case Data(m) => Process(rest.(started := s.started + [m]), m, writeThrows)
    case End => Finalize(c, rest.(streamEnded := true), now)
  }

  /** `onHeader` after `consumeTicket`: `ticket` is none when it was rejected. */
  function AfterConsume(s: State, ticket: Option<T.Ticket>, path: string): State
    requires s.task.Consuming?
  {
    var m := s.task.header;
    if ticket.None? then MarkAborted(s, Abort(PermissionDenied, "ticket rejected"))
    else s.(activated := Some(m), ticket := ticket, task := MakingDir,
            handler := Accept(s.handler, m.ticketId, ticket.value.username, m.repo, path))
  }

  function AfterMkdir(s: State, ok: bool): State {
    if ok then s.(handler := OpenSink(s.handler), task := NoTask)
    else MarkAborted(s, Abort(PermissionDenied, "Internal error"))
  }

  /** `markAborted` after its await. */
  function AfterAbort(s: State): State
    requires s.task.Removing?
  {
    if s.streamEnded then Call(s, Failure(s.task.abort)) else s.(task := NoTask)
  }

  /** `finish` after `onBeforePush`, which may throw. */
  function AfterPrepare(s: State, prep: Option<Preparation>): State
    requires s.task.Preparing?
  {
    if prep.None? then MarkAborted(s, Abort(Internal, "push preparation failed"))
    else if prep.value.dryRun then s.(task := Replying(DRY_RUN, s.task.checksum))
    else s.(task := Creating(s.task.checksum, s.task.now, prep.value))
  }

  /** `finish` after `jobStore.create`, which may throw and then stores nothing. */
  function AfterCreate(c: Config, s: State, jobId: Option<string>): State
    requires s.task.Creating?
  {
    if jobId.None? then MarkAborted(s, Abort(Internal, "job store failed"))
    else
      var t := s.task;
      var job := TransferJobs.NewJob(t.prep.repo, t.prep.stagingPath, t.checksum, c.maxRetries, t.now);
      s.(rows := s.rows + [(jobId.value, job)], task := Closing(jobId.value, t.checksum))
  }

  function Next(c: Config, s: State, a: Action): State
    requires Enabled(s, a)
  {
    match a
    case OnData(m) => s.(queue := s.queue + [Data(m)], arrived := s.arrived + [m])
    case OnEnd => s.(queue := s.queue + [End], ended := true)
    case OnError => s.(handler := Shut(s.handler))
    case OnCancelled => s.(aborted := true, handler := Shut(s.handler), cancelled := true)
    case StartNext(writeThrows, now) => Begin(c, s, writeThrows, now)
    case ConsumeDone(ticket, path) => AfterConsume(s, ticket, path)
    case MkdirDone(ok) => AfterMkdir(s, ok)
    case AbortDone => AfterAbort(s)
    case PrepareDone(prep) => AfterPrepare(s, prep)
    case CreateDone(jobId) => AfterCreate(c, s, jobId)
    case CloseDone => s.(task := Replying(s.task.jobId, s.task.checksum))
    case ReplyReady => Call(s, Success(s.task.jobId, s.task.checksum, s.handler.bytesReceived))
  }

  /** Action `i` leads from state `i` to the next. */
  ghost predicate StepAt(c: Config, run: seq<State>, acts: seq<Action>, i: nat) {
    i < |acts| && i + 1 < |run| && Enabled(run[i], acts[i]) && run[i + 1] == Next(c, run[i], acts[i])
  }

  ghost predicate IsRun(c: Config, run: seq<State>, acts: seq<Action>) {
    && |run| == |acts| + 1
    && run[0] == INITIAL
    && forall i: nat :: i < |acts| ==> StepAt(c, run, acts, i)
  }

  // ---------------------------------------------------------------- invariant

  /** The bytes of all chunks among the messages, in order. */
  function Chunks(ms: seq<Message>): Bytes {
    if ms == [] then [] else
      var last := ms[|ms| - 1];
      Chunks(ms[..|ms| - 1]) + (if last.Chunk? then last.data else [])
  }

  lemma ChunksAppend(ms: seq<Message>, m: Message)
    ensures Chunks(ms + [m]) == Chunks(ms) + (if m.Chunk? then m.data else [])
  {
    assert (ms + [m])[..|ms|] == ms;
  }

  /** The queue holds the messages not yet started, in arrival order, and then the end. */
  ghost predicate QueueOk(arrived: seq<Message>, started: seq<Message>, queue: seq<Item>, ended: bool, streamEnded: bool) {
    var n := |arrived| - |started|;
    && started <= arrived
    && if streamEnded then ended && queue == [] && n == 0
       else
         && |queue| == n + (if ended then 1 else 0)
         && (forall i :: 0 <= i < n ==> queue[i] == Data(arrived[|started| + i]))
         && (ended ==> queue[n] == End)
  }

  predicate HandlerOk(h: Handler, activated: Option<HeaderFields>) {
    && h.bytesReceived == |h.fed| && h.written == h.fed
    && (h.ticketId.Some? ==> activated.Some? && activated.value.ticketId == h.ticketId.value)
  }

  predicate FlagsOk(aborted: bool, cancelled: bool, pending: Option<Abort>) {
    (pending.Some? ==> aborted) && (aborted && !cancelled ==> pending.Some?)
  }

  predicate RowFor(c: Config, rows: seq<(string, TransferJobs.Job)>, jobId: string, checksum: string) {
    && |rows| == 1 && rows[0].0 == jobId
    && rows[0].1.checksum == checksum && rows[0].1.status.Staged?
    && rows[0].1.retryCount == 0 && rows[0].1.maxRetries == c.maxRetries
  }

  predicate RowsMatch(c: Config, rows: seq<(string, TransferJobs.Job)>, jobId: string, checksum: string) {
    if jobId == DRY_RUN then rows == [] else RowFor(c, rows, jobId, checksum)
  }

  /** `finish` is under way: it has hashed everything that arrived, after a consumed ticket. */
  predicate Finishing(c: Config, s: State, checksum: string) {
    && s.streamEnded && s.activated.Some? && s.replies == [] && (s.aborted ==> s.cancelled)
    && s.handler.fed == Chunks(s.arrived) && checksum == c.digest(Chunks(s.arrived))
  }

  predicate TaskOk(c: Config, s: State) {
    match s.task
    case NoTask => if s.streamEnded then s.replies != [] || (s.cancelled && s.rows == []) else s.replies == [] && s.rows == []
    case Consuming(_) => !s.streamEnded && s.replies == [] && s.rows == []
    case MakingDir => !s.streamEnded && s.replies == [] && s.rows == []
    case Removing(abort) => s.pendingAbort == Some(abort) && s.replies == [] && s.rows == []
    case Preparing(checksum, _) => Finishing(c, s, checksum) && s.rows == []
    case Creating(checksum, _, _) => Finishing(c, s, checksum) && s.rows == []
    case Closing(jobId, checksum) => Finishing(c, s, checksum) && jobId != DRY_RUN && RowFor(c, s.rows, jobId, checksum)
    case Replying(jobId, checksum) => Finishing(c, s, checksum) && RowsMatch(c, s.rows, jobId, checksum)
  }

  predicate ReplyOk(c: Config, s: State) {
    && |s.replies| <= 1
    && (s.replies != [] ==> s.streamEnded && s.task.NoTask? && ReplyTrue(c, s, s.replies[0]))
  }

  /** What a reply says about the rows stored and the bytes received. */
  predicate ReplyTrue(c: Config, s: State, r: Reply) {
    match r
    case Success(jobId, checksum, n) =>
      && s.activated.Some? && Header(s.activated.value) in s.arrived && RowsMatch(c, s.rows, jobId, checksum)
      && checksum == c.digest(Chunks(s.arrived)) && n == |Chunks(s.arrived)|
    case Failure(abort) => s.rows == [] && s.pendingAbort == Some(abort)
  }

  ghost predicate Base(s: State) {
    && QueueOk(s.arrived, s.started, s.queue, s.ended, s.streamEnded)
    && HandlerOk(s.handler, s.activated)
    && FlagsOk(s.aborted, s.cancelled, s.pendingAbort)
    && (s.activated.Some? ==> Header(s.activated.value) in s.started)
    && (s.task.Consuming? ==> Header(s.task.header) in s.started)
  }

  /** Until it is aborted, the handler has hashed every chunk that was taken off the queue. */
  ghost predicate Core(s: State) {
    Base(s) && (!s.aborted ==> s.handler.fed == Chunks(s.started))
  }

  ghost predicate Inv(c: Config, s: State) {
    Core(s) && TaskOk(c, s) && ReplyOk(c, s)
  }

  lemma ArrivalStep(c: Config, s: State, a: Action)
    requires Inv(c, s) && Enabled(s, a) && (a.OnData? || a.OnEnd?)
    ensures Inv(c, Next(c, s, a))
  {
  }

  lemma InterruptStep(c: Config, s: State, a: Action)
    requires Inv(c, s) && Enabled(s, a) && (a.OnError? || a.OnCancelled?)
    ensures Inv(c, Next(c, s, a))
  {
  }

  /** Aborting is safe whenever nothing has been replied or stored. */
  lemma AbortStep(c: Config, s: State, abort: Abort)
    requires Base(s) && s.replies == [] && s.rows == []
    requires s.aborted ==> Core(s) && (s.streamEnded ==> s.cancelled)
    ensures Inv(c, MarkAborted(s, abort))
  {
  }

  /** A state with nothing replied or stored, before the end, with no item in progress. */
  ghost predicate Receiving(s: State) {
    Core(s) && !s.streamEnded && s.replies == [] && s.rows == [] && s.task.NoTask?
  }

  lemma Dequeue(c: Config, s: State, m: Message)
    requires Inv(c, s) && s.task.NoTask? && s.queue != [] && s.queue[0] == Data(m)
    ensures var t := s.(queue := s.queue[1..], started := s.started + [m]);
            && QueueOk(t.arrived, t.started, t.queue, t.ended, t.streamEnded) && !t.streamEnded
            && Chunks(t.started) == Chunks(s.started) + (if m.Chunk? then m.data else [])
  {
    ChunksAppend(s.started, m);
    assert s.arrived[|s.started|] == m;
  }

  /** Taking a message off the queue and handling it up to its first await. */
  lemma ProcessStep(c: Config, s: State, t: State, m: Message, writeThrows: bool)
    requires Inv(c, s) && s.task.NoTask? && s.queue != [] && s.queue[0] == Data(m)
    requires t == s.(queue := s.queue[1..], started := s.started + [m])
    ensures Inv(c, Process(t, m, writeThrows))
  {
    Dequeue(c, s, m);
    if t.aborted {
    } else if m.Chunk? {
      ProcessChunk(c, t, m.data, writeThrows);
    } else if m.Header? {
      ProcessHeader(c, t, m.header, writeThrows);
    }
  }

  lemma ProcessHeader(c: Config, t: State, header: HeaderFields, writeThrows: bool)
    requires Receiving(t) && Header(header) in t.started
    ensures Inv(c, Process(t, Header(header), writeThrows))
  {
    if t.aborted {
    } else if t.headerReceived {
      AbortStep(c, t, Abort(FailedPrecondition, "Header already sent"));
    } else if Truthy(t.handler.ticketId) {
      AbortStep(c, t.(headerReceived := true), Abort(PermissionDenied, "Header already received for this session"));
    }
  }

  lemma ProcessChunk(c: Config, t: State, data: Bytes, writeThrows: bool)
    requires Base(t) && !t.aborted && !t.streamEnded && t.replies == [] && t.rows == [] && t.task.NoTask?
    requires Chunks(t.started) == t.handler.fed + data
    ensures Inv(c, Process(t, Chunk(data), writeThrows))
  {
    if !t.headerReceived {
      AbortStep(c, t, Abort(FailedPrecondition, "Chunk received before header"));
    } else if t.handler.sink.NoSink? {
      AbortStep(c, t, Abort(PermissionDenied, "Received a data chunk before the header"));
    } else if t.handler.sink.Ended? && writeThrows {
      AbortStep(c, t, Abort(PermissionDenied, "Internal error"));
    } else {
      assert HandlerOk(Feed(t.handler, data), t.activated);
    }
  }

  lemma FinalizeStep(c: Config, s: State, t: State, now: int)
    requires Inv(c, s) && s.task.NoTask? && s.queue != [] && s.queue[0] == End
    requires t == s.(queue := s.queue[1..], streamEnded := true)
    ensures Inv(c, Finalize(c, t, now))
  {
    assert s.started == s.arrived;
    if !t.aborted {
      if !t.headerReceived {
        AbortStep(c, t, Abort(FailedPrecondition, "Stream ended before a header was sent"));
      } else if FinishRefusal(t.handler).Some? {
        AbortStep(c, t, Abort(Internal, FinishRefusal(t.handler).value));
      }
    }
  }

  lemma ConsumeStep(c: Config, s: State, ticket: Option<T.Ticket>, path: string)
    requires Inv(c, s) && s.task.Consuming?
    ensures Inv(c, AfterConsume(s, ticket, path))
  {
    if ticket.None? {
      AbortStep(c, s, Abort(PermissionDenied, "ticket rejected"));
    }
  }

  lemma MkdirStep(c: Config, s: State, ok: bool)
    requires Inv(c, s) && s.task.MakingDir?
    ensures Inv(c, AfterMkdir(s, ok))
  {
    if !ok {
      AbortStep(c, s, Abort(PermissionDenied, "Internal error"));
    }
  }

  lemma AbortDoneStep(c: Config, s: State)
    requires Inv(c, s) && s.task.Removing?
    ensures Inv(c, AfterAbort(s))
  {
  }

  /** Inside `finish`, moving to the next await changes nothing else. */
  lemma NextAwait(c: Config, s: State, t: Task)
    requires Inv(c, s) && (s.task.Preparing? || s.task.Closing?)
    requires t.Replying? || (t.Creating? && s.task.Preparing?)
    requires t.checksum == s.task.checksum
    requires t.Replying? ==> t.jobId == if s.task.Preparing? then DRY_RUN else s.task.jobId
    ensures Inv(c, s.(task := t))
  {
    assert Finishing(c, s.(task := t), t.checksum);
  }

  lemma PrepareStep(c: Config, s: State, prep: Option<Preparation>)
    requires Inv(c, s) && s.task.Preparing?
    ensures Inv(c, AfterPrepare(s, prep))
  {
    if prep.None? {
      AbortStep(c, s, Abort(Internal, "push preparation failed"));
    } else if prep.value.dryRun {
      NextAwait(c, s, Replying(DRY_RUN, s.task.checksum));
    } else {
      NextAwait(c, s, Creating(s.task.checksum, s.task.now, prep.value));
    }
  }

  lemma CreateStep(c: Config, s: State, jobId: Option<string>)
    requires Inv(c, s) && s.task.Creating? && jobId != Some(DRY_RUN)
    ensures Inv(c, AfterCreate(c, s, jobId))
  {
    if jobId.None? {
      AbortStep(c, s, Abort(Internal, "job store failed"));
    }
  }

  lemma ReplyStep(c: Config, s: State, a: Action)
    requires Inv(c, s) && (a.CloseDone? || a.ReplyReady?) && Enabled(s, a)
    ensures Inv(c, Next(c, s, a))
  {
    if a.CloseDone? {
      NextAwait(c, s, Replying(s.task.jobId, s.task.checksum));
    }
  }

  lemma StartStep(c: Config, s: State, a: Action)
    requires Inv(c, s) && a.StartNext? && Enabled(s, a)
    ensures Inv(c, Next(c, s, a))
  {
    match s.queue[0]
    case Data(m) => ProcessStep(c, s, s.(queue := s.queue[1..], started := s.started + [m]), m, a.writeThrows);
    case End => FinalizeStep(c, s, s.(queue := s.queue[1..], streamEnded := true), a.now);
  }

  lemma InvStep(c: Config, s: State, a: Action)
    requires Inv(c, s) && Enabled(s, a)
    ensures Inv(c, Next(c, s, a))
  {
    match a
    case OnData(_) => ArrivalStep(c, s, a);
    case OnEnd => ArrivalStep(c, s, a);
    case OnError => InterruptStep(c, s, a);
    case OnCancelled => InterruptStep(c, s, a);
    case StartNext(_, _) => StartStep(c, s, a);
    case ConsumeDone(ticket, path) => ConsumeStep(c, s, ticket, path);
    case MkdirDone(ok) => MkdirStep(c, s, ok);
    case AbortDone => AbortDoneStep(c, s);
    case PrepareDone(prep) => PrepareStep(c, s, prep);
    case CreateDone(jobId) => CreateStep(c, s, jobId);
    case CloseDone => ReplyStep(c, s, a);
    case ReplyReady => ReplyStep(c, s, a);
  }

  lemma {:induction false} RunInv(c: Config, run: seq<State>, acts: seq<Action>, k: nat)
    requires IsRun(c, run, acts) && k < |run|
    ensures Inv(c, run[k])
  {
    if k > 0 {
      RunInv(c, run, acts, k - 1);
      assert StepAt(c, run, acts, k - 1);
      InvStep(c, run[k - 1], acts[k - 1]);
    }
  }

  // ------------------------------------------------------------ the header is first

  /** Nothing before the header, and no other header after it. */
  ghost predicate HeaderFirst(ms: seq<Message>, header: HeaderFields) {
    exists i: nat :: HeaderAt(ms, header, i)
  }

  ghost predicate HeaderAt(ms: seq<Message>, header: HeaderFields, i: nat) {
    && i < |ms| && ms[i] == Header(header)
    && (forall j :: 0 <= j < i ==> ms[j].Empty?) && (forall j :: i < j < |ms| ==> !ms[j].Header?)
  }

  lemma HeaderFirstAppend(ms: seq<Message>, m: Message, header: HeaderFields)
    ensures HeaderFirst(ms, header) && !m.Header? ==> HeaderFirst(ms + [m], header)
    ensures (forall j :: 0 <= j < |ms| ==> ms[j].Empty?) && m == Header(header) ==> HeaderFirst(ms + [m], header)
  {
    if HeaderFirst(ms, header) && !m.Header? {
      var i: nat :| HeaderAt(ms, header, i);
      assert HeaderAt(ms + [m], header, i);
    }
    if (forall j :: 0 <= j < |ms| ==> ms[j].Empty?) && m == Header(header) {
      assert HeaderAt(ms + [m], header, |ms|);
    }
  }

  /** `finish` is under way, or has led to a success reply. */
  predicate Succeeding(task: Task, replies: seq<Reply>) {
    task.Preparing? || task.Creating? || task.Closing? || task.Replying? || (replies != [] && replies[0].Success?)
  }

  ghost predicate Headed(headerReceived: bool, aborted: bool, started: seq<Message>, task: Task,
                         activated: Option<HeaderFields>, replies: seq<Reply>) {
    && (!aborted && !headerReceived ==> forall j :: 0 <= j < |started| ==> started[j].Empty?)
    && (!aborted && headerReceived && task.Consuming? ==> HeaderFirst(started, task.header))
    && ((!aborted && headerReceived && !task.Consuming?) || Succeeding(task, replies) ==>
          activated.Some? && HeaderFirst(started, activated.value))
  }

  predicate TicketFits(activated: Option<HeaderFields>, ticket: Option<T.Ticket>) {
    (activated.Some? <==> ticket.Some?) && (ticket.Some? ==> Fits(ticket.value, activated.value))
  }

  ghost predicate HeadedState(s: State) {
    Headed(s.headerReceived, s.aborted, s.started, s.task, s.activated, s.replies) && TicketFits(s.activated, s.ticket)
  }

  lemma HeadedAbort(s: State, abort: Abort)
    requires s.replies == [] && TicketFits(s.activated, s.ticket)
    ensures HeadedState(MarkAborted(s, abort))
  {
  }

  lemma HeadedProcess(s: State, m: Message, writeThrows: bool)
    requires HeadedState(s) && s.task.NoTask? && s.replies == []
    ensures HeadedState(Process(s.(started := s.started + [m]), m, writeThrows))
  {
    var t := s.(started := s.started + [m]);
    if m.Header? {
      HeaderFirstAppend(s.started, m, m.header);
    }
    if s.activated.Some? {
      HeaderFirstAppend(s.started, m, s.activated.value);
    }
    if t.aborted {
    } else if m.Header? {
      HeadedAbort(t, Abort(FailedPrecondition, "Header already sent"));
      HeadedAbort(t.(headerReceived := true), Abort(PermissionDenied, "Header already received for this session"));
    } else if m.Chunk? {
      HeadedAbort(t, Abort(FailedPrecondition, "Chunk received before header"));
      HeadedAbort(t, Abort(PermissionDenied, "Received a data chunk before the header"));
      HeadedAbort(t, Abort(PermissionDenied, "Internal error"));
    }
  }

  lemma HeadedFinalize(c: Config, s: State, now: int)
    requires HeadedState(s) && s.task.NoTask? && s.replies == []
    ensures HeadedState(Finalize(c, s, now))
  {
    if !s.aborted {
      if !s.headerReceived {
        HeadedAbort(s, Abort(FailedPrecondition, "Stream ended before a header was sent"));
      } else if FinishRefusal(s.handler).Some? {
        HeadedAbort(s, Abort(Internal, FinishRefusal(s.handler).value));
      }
    }
  }

  lemma HeadedBegin(c: Config, s: State, writeThrows: bool, now: int)
    requires HeadedState(s) && s.task.NoTask? && s.replies == [] && s.queue != []
    ensures HeadedState(Begin(c, s, writeThrows, now))
  {
    match s.queue[0]
    case Data(m) => HeadedProcess(s.(queue := s.queue[1..]), m, writeThrows);
    case End => HeadedFinalize(c, s.(queue := s.queue[1..], streamEnded := true), now);
  }

  lemma HeadedConsume(s: State, ticket: Option<T.Ticket>, path: string)
    requires HeadedState(s) && s.replies == [] && Enabled(s, ConsumeDone(ticket, path))
    ensures HeadedState(AfterConsume(s, ticket, path))
  {
    HeadedAbort(s, Abort(PermissionDenied, "ticket rejected"));
  }

  lemma HeadedPrepare(s: State, prep: Option<Preparation>)
    requires HeadedState(s) && s.replies == [] && s.task.Preparing?
    ensures HeadedState(AfterPrepare(s, prep))
  {
    HeadedAbort(s, Abort(Internal, "push preparation failed"));
  }

  lemma HeadedCreate(c: Config, s: State, jobId: Option<string>)
    requires HeadedState(s) && s.replies == [] && s.task.Creating?
    ensures HeadedState(AfterCreate(c, s, jobId))
  {
    HeadedAbort(s, Abort(Internal, "job store failed"));
  }

  lemma HeadedStep(c: Config, s: State, a: Action)
    requires HeadedState(s) && Enabled(s, a) && (IsInternal(a) ==> s.replies == [])
    ensures HeadedState(Next(c, s, a))
  {
    match a
    case StartNext(writeThrows, now) => HeadedBegin(c, s, writeThrows, now);
    case ConsumeDone(ticket, path) => HeadedConsume(s, ticket, path);
    case MkdirDone(_) => HeadedAbort(s, Abort(PermissionDenied, "Internal error"));
    case PrepareDone(prep) => HeadedPrepare(s, prep);
    case CreateDone(jobId) => HeadedCreate(c, s, jobId);
    case _ =>
  }

  lemma {:induction false} RunHeaded(c: Config, run: seq<State>, acts: seq<Action>, k: nat)
    requires IsRun(c, run, acts) && k < |run|
    ensures HeadedState(run[k])
  {
    if k > 0 {
      RunHeaded(c, run, acts, k - 1);
      HeadedAtStep(c, run, acts, k - 1);
    }
  }

  lemma HeadedAtStep(c: Config, run: seq<State>, acts: seq<Action>, k: nat)
    requires IsRun(c, run, acts) && k < |acts| && HeadedState(run[k])
    ensures HeadedState(run[k + 1])
  {
    RunInv(c, run, acts, k);
    assert StepAt(c, run, acts, k);
    NoReplyBefore(c, run[k], acts[k]);
    HeadedStep(c, run[k], acts[k]);
  }

  /** While there is work, nothing has been replied. */
  lemma NoReplyBefore(c: Config, s: State, a: Action)
    requires Inv(c, s) && Enabled(s, a)
    ensures IsInternal(a) ==> s.replies == []
  {
  }

  // ------------------------------------------------------------------ results

  /** The callback fires at most once, and only after `end` and after every message has been handled. */
  lemma AtMostOneReply(c: Config, run: seq<State>, acts: seq<Action>, k: nat)
    requires IsRun(c, run, acts) && k < |run|
    ensures |run[k].replies| <= 1
    ensures run[k].replies != [] ==> run[k].ended && run[k].started == run[k].arrived
  {
    RunInv(c, run, acts, k);
  }

  predicate Quiescent(s: State) {
    s.task.NoTask? && s.queue == []
  }

  /** Once `end` has arrived and the queue has drained, a call that was not cancelled has exactly one reply. */
  lemma ExactlyOneReply(c: Config, run: seq<State>, acts: seq<Action>, k: nat)
    requires IsRun(c, run, acts) && k < |run|
    requires run[k].ended && Quiescent(run[k]) && !run[k].cancelled
    ensures |run[k].replies| == 1
  {
    RunInv(c, run, acts, k);
  }

  /**
   * A success reply that is not a dry run stands for exactly one staged row, carrying
   * the hash of all chunks in arrival order; its length is theirs.  The one header came
   * before every chunk, and a ticket was consumed for the operation and repo that it names.
   */
  lemma SuccessMeansStored(c: Config, run: seq<State>, acts: seq<Action>, k: nat)
    requires IsRun(c, run, acts) && k < |run| && run[k].replies != [] && run[k].replies[0].Success?
    ensures var s, r := run[k], run[k].replies[0];
            && r.checksum == c.digest(Chunks(s.arrived)) && r.bytesReceived == |Chunks(s.arrived)|
            && s.activated.Some? && HeaderFirst(s.arrived, s.activated.value)
            && s.ticket.Some? && s.ticket.value.repo == s.activated.value.repo
            && s.activated.value.operation == (if s.ticket.value.operation.Push? then "push" else "pull")
            && (r.jobId == DRY_RUN ==> s.rows == [])
            && (r.jobId != DRY_RUN ==>
                  && |s.rows| == 1 && s.rows[0].0 == r.jobId
                  && s.rows[0].1.checksum == r.checksum && s.rows[0].1.status.Staged?)
  {
    RunInv(c, run, acts, k);
    RunHeaded(c, run, acts, k);
    assert ReplyTrue(c, run[k], run[k].replies[0]);
    assert run[k].started == run[k].arrived;
  }

  /** A preparation leads to the row it describes, a dry run straight to the reply, and a failed one to an abort. */
  lemma PrepareMeans(c: Config, run: seq<State>, acts: seq<Action>, k: nat)
    requires IsRun(c, run, acts) && k < |acts| && acts[k].PrepareDone? && acts[k].prep.Some?
    ensures run[k].task.Preparing?
    ensures var t, prep := run[k].task, acts[k].prep.value;
            run[k + 1].task == if prep.dryRun then Replying(DRY_RUN, t.checksum) else Creating(t.checksum, t.now, prep)
  {
    assert StepAt(c, run, acts, k);
  }

  /**
   * The row that a push stores: staged, with the repo and path that the preparation gave, the
   * hash of all chunks that arrived, no failures yet, and the clock reading of `finish`.
   */
  lemma StoredRow(c: Config, run: seq<State>, acts: seq<Action>, k: nat)
    requires IsRun(c, run, acts) && k < |acts| && acts[k].CreateDone? && acts[k].jobId.Some?
    ensures run[k].task.Creating?
    ensures var t := run[k].task;
            var row := TransferJobs.Job(t.prep.repo, t.prep.stagingPath, c.digest(Chunks(run[k].arrived)), TransferJobs.Staged,
                                        0, c.maxRetries, 0, t.now, t.now, None);
            run[k + 1].rows == [(acts[k].jobId.value, row)]
  {
    assert StepAt(c, run, acts, k);
    RunInv(c, run, acts, k);
  }

  /**
   * A chunk of an open session is written, hashed and counted, unless the sink was closed by
   * an event and its write throws, which aborts the session.
   */
  lemma ChunkMeans(c: Config, run: seq<State>, acts: seq<Action>, k: nat)
    requires IsRun(c, run, acts) && k < |acts| && acts[k].StartNext? && !run[k].aborted && run[k].headerReceived
    requires run[k].queue != [] && run[k].queue[0].Data? && run[k].queue[0].message.Chunk? && !run[k].handler.sink.NoSink?
    ensures var s, t, data := run[k], run[k + 1], run[k].queue[0].message.data;
            if s.handler.sink.Ended? && acts[k].writeThrows
            then t.aborted && t.pendingAbort == Some(Abort(PermissionDenied, "Internal error"))
            else && !t.aborted && t.handler.fed == s.handler.fed + data && t.handler.written == s.handler.written + data
                 && t.handler.bytesReceived == s.handler.bytesReceived + |data|
  {
    assert StepAt(c, run, acts, k);
  }

  /** An `error` or `cancelled` event closes an open session and removes its staging file; a cancelled one is aborted. */
  lemma EventsClose(c: Config, run: seq<State>, acts: seq<Action>, k: nat)
    requires IsRun(c, run, acts) && k < |acts| && (acts[k].OnError? || acts[k].OnCancelled?)
    ensures var h, h' := run[k].handler, run[k + 1].handler;
            h'.closed && (!h.closed ==> !h'.sink.Open? && h'.removed == h.stagingPath.Some?) && (h.closed ==> h' == h)
    ensures acts[k].OnCancelled? ==> run[k + 1].aborted && run[k + 1].cancelled
    ensures acts[k].OnError? ==> run[k + 1].aborted == run[k].aborted
  {
    assert StepAt(c, run, acts, k);
  }

  /** So does every abort that is recorded. */
  lemma AbortCloses(s: State, abort: Abort)
    requires !s.aborted
    ensures var h, h' := s.handler, MarkAborted(s, abort).handler;
            h'.closed && (!h.closed ==> !h'.sink.Open? && h'.removed == h.stagingPath.Some?) && (h.closed ==> h' == h)
    ensures MarkAborted(s, abort).aborted && MarkAborted(s, abort).pendingAbort == Some(abort)
  {
  }

  /** A recorded abort leaves the session closed. */
  lemma {:induction false} AbortedIsClosed(c: Config, run: seq<State>, acts: seq<Action>, k: nat)
    requires IsRun(c, run, acts) && k < |run| && run[k].aborted
    ensures run[k].handler.closed
  {
    if k > 0 {
      if run[k - 1].aborted {
        AbortedIsClosed(c, run, acts, k - 1);
      }
      assert StepAt(c, run, acts, k - 1);
      ClosedStep(c, run[k - 1], acts[k - 1]);
    }
  }

  lemma ClosedStep(c: Config, s: State, a: Action)
    requires Enabled(s, a) && (s.aborted ==> s.handler.closed)
    ensures Next(c, s, a).aborted ==> Next(c, s, a).handler.closed
  {
    match a
    case StartNext(writeThrows, now) => ClosedStart(c, s, writeThrows, now);
    case ConsumeDone(ticket, path) => ClosedConsume(s, ticket, path);
    case PrepareDone(prep) => ClosedPrepare(s, prep);
    case CreateDone(jobId) => ClosedCreate(c, s, jobId);
    case _ =>
  }

  lemma ClosedAbort(s: State, abort: Abort)
    requires s.aborted ==> s.handler.closed
    ensures MarkAborted(s, abort).handler.closed
  {
  }

  lemma ClosedMessage(s: State, m: Message, writeThrows: bool)
    requires s.aborted ==> s.handler.closed
    ensures Process(s, m, writeThrows).aborted ==> Process(s, m, writeThrows).handler.closed
  {
    if m.Header? {
      ClosedAbort(s, Abort(FailedPrecondition, "Header already sent"));
      ClosedAbort(s.(headerReceived := true), Abort(PermissionDenied, "Header already received for this session"));
    } else if m.Chunk? {
      ClosedAbort(s, Abort(FailedPrecondition, "Chunk received before header"));
      ClosedAbort(s, Abort(PermissionDenied, "Received a data chunk before the header"));
      ClosedAbort(s, Abort(PermissionDenied, "Internal error"));
    }
  }

  lemma ClosedEnd(c: Config, s: State, now: int)
    requires s.aborted ==> s.handler.closed
    ensures Finalize(c, s, now).aborted ==> Finalize(c, s, now).handler.closed
  {
  }

  lemma ClosedStart(c: Config, s: State, writeThrows: bool, now: int)
    requires s.queue != [] && (s.aborted ==> s.handler.closed)
    ensures Begin(c, s, writeThrows, now).aborted ==> Begin(c, s, writeThrows, now).handler.closed
  {
    match s.queue[0]
    case Data(m) => ClosedMessage(s.(queue := s.queue[1..], started := s.started + [m]), m, writeThrows);
    case End => ClosedEnd(c, s.(queue := s.queue[1..], streamEnded := true), now);
  }

  lemma ClosedConsume(s: State, ticket: Option<T.Ticket>, path: string)
    requires s.task.Consuming? && (s.aborted ==> s.handler.closed)
    ensures AfterConsume(s, ticket, path).aborted ==> AfterConsume(s, ticket, path).handler.closed
  {
  }

  lemma ClosedPrepare(s: State, prep: Option<Preparation>)
    requires s.task.Preparing? && (s.aborted ==> s.handler.closed)
    ensures AfterPrepare(s, prep).aborted ==> AfterPrepare(s, prep).handler.closed
  {
  }

  lemma ClosedCreate(c: Config, s: State, jobId: Option<string>)
    requires s.task.Creating? && (s.aborted ==> s.handler.closed)
    ensures AfterCreate(c, s, jobId).aborted ==> AfterCreate(c, s, jobId).handler.closed
  {
  }

  /** An error reply means that no row was stored, and reports the first thing that went wrong. */
  lemma FailureMeansNothingStored(c: Config, run: seq<State>, acts: seq<Action>, k: nat, i: nat)
    requires IsRun(c, run, acts) && k < |run| && run[k].replies != [] && run[k].replies[0].Failure?
    ensures run[k].rows == []
    ensures i <= k && run[i].pendingAbort.Some? ==> run[k].replies[0] == Failure(run[i].pendingAbort.value)
  {
    RunInv(c, run, acts, k);
    assert ReplyTrue(c, run[k], run[k].replies[0]);
    if i <= k && run[i].pendingAbort.Some? {
      FirstAbortStays(c, run, acts, i, k);
    }
  }

  /** A later abort never replaces the recorded one. */
  lemma {:induction false} FirstAbortStays(c: Config, run: seq<State>, acts: seq<Action>, i: nat, k: nat)
    requires IsRun(c, run, acts) && i <= k < |run| && run[i].pendingAbort.Some?
    ensures run[k].pendingAbort == run[i].pendingAbort
    decreases k - i
  {
    if i < k {
      FirstAbortStays(c, run, acts, i, k - 1);
      AbortStays(c, run, acts, k - 1);
    }
  }

  lemma AbortStays(c: Config, run: seq<State>, acts: seq<Action>, k: nat)
    requires IsRun(c, run, acts) && k < |acts| && run[k].pendingAbort.Some?
    ensures run[k + 1].pendingAbort == run[k].pendingAbort
  {
    RunInv(c, run, acts, k);
    assert StepAt(c, run, acts, k);
    StepKeepsAbort(c, run[k], acts[k]);
  }

  lemma StepKeepsAbort(c: Config, s: State, a: Action)
    requires FlagsOk(s.aborted, s.cancelled, s.pendingAbort) && s.pendingAbort.Some? && Enabled(s, a)
    ensures Next(c, s, a).pendingAbort == s.pendingAbort
  {
    match a
    case StartNext(writeThrows, now) => StartKeepsAbort(c, s, writeThrows, now);
    case ConsumeDone(ticket, path) => ConsumeKeepsAbort(s, ticket, path);
    case PrepareDone(prep) => PrepareKeepsAbort(s, prep);
    case CreateDone(jobId) => CreateKeepsAbort(c, s, jobId);
    case _ =>
  }

  lemma StartKeepsAbort(c: Config, s: State, writeThrows: bool, now: int)
    requires s.aborted && s.queue != []
    ensures Begin(c, s, writeThrows, now).pendingAbort == s.pendingAbort && Begin(c, s, writeThrows, now).aborted
  {
  }

  lemma ConsumeKeepsAbort(s: State, ticket: Option<T.Ticket>, path: string)
    requires s.aborted && s.task.Consuming?
    ensures AfterConsume(s, ticket, path).pendingAbort == s.pendingAbort && AfterConsume(s, ticket, path).aborted
  {
  }

  lemma PrepareKeepsAbort(s: State, prep: Option<Preparation>)
    requires s.aborted && s.task.Preparing?
    ensures AfterPrepare(s, prep).pendingAbort == s.pendingAbort && AfterPrepare(s, prep).aborted
  {
  }

  lemma CreateKeepsAbort(c: Config, s: State, jobId: Option<string>)
    requires s.aborted && s.task.Creating?
    ensures AfterCreate(c, s, jobId).pendingAbort == s.pendingAbort && AfterCreate(c, s, jobId).aborted
  {
  }

  predicate IsInternal(a: Action) {
    !a.OnData? && !a.OnEnd? && !a.OnError? && !a.OnCancelled?
  }

  /** Awaits left in the item in progress. */
  function Awaits(t: Task): nat {
    match t
    case NoTask => 0
    case Consuming(_) => 3
    case MakingDir => 2
    case Removing(_) => 1
    case Preparing(_, _) => 5
    case Creating(_, _, _) => 4
    case Closing(_, _) => 3
    case Replying(_, _) => 2
  }

  /** Work left: queued items, and the awaits left in the current one. */
  function Work(s: State): nat {
    6 * |s.queue| + Awaits(s.task)
  }

  /** The handler is never stuck: while there is work, some step is enabled. */
  lemma NeverStuck(s: State) returns (a: Action)
    requires !Quiescent(s)
    ensures IsInternal(a) && Enabled(s, a)
  {
    match s.task
    case NoTask => a := StartNext(false, 0);
    case Consuming(_) => a := ConsumeDone(None, "");
    case MakingDir => a := MkdirDone(true);
    case Removing(_) => a := AbortDone;
    case Preparing(_, _) => a := PrepareDone(None);
    case Creating(_, _, _) => a := CreateDone(None);
    case Closing(_, _) => a := CloseDone;
    case Replying(_, _) => a := ReplyReady;
  }

  lemma AbortWork(s: State, abort: Abort)
    ensures MarkAborted(s, abort).queue == s.queue && Awaits(MarkAborted(s, abort).task) <= 1
  {
  }

  lemma ProcessWork(s: State, m: Message, writeThrows: bool)
    requires s.task.NoTask?
    ensures Process(s, m, writeThrows).queue == s.queue && Awaits(Process(s, m, writeThrows).task) <= 3
  {
    if s.aborted {
    } else if m.Header? {
      AbortWork(s, Abort(FailedPrecondition, "Header already sent"));
      AbortWork(s.(headerReceived := true), Abort(PermissionDenied, "Header already received for this session"));
    } else if m.Chunk? {
      AbortWork(s, Abort(FailedPrecondition, "Chunk received before header"));
      AbortWork(s, Abort(PermissionDenied, "Received a data chunk before the header"));
      AbortWork(s, Abort(PermissionDenied, "Internal error"));
    }
  }

  lemma FinalizeWork(c: Config, s: State, now: int)
    requires s.task.NoTask?
    ensures Finalize(c, s, now).queue == s.queue && Awaits(Finalize(c, s, now).task) <= 5
  {
    if !s.aborted {
      if !s.headerReceived {
        AbortWork(s, Abort(FailedPrecondition, "Stream ended before a header was sent"));
      } else if FinishRefusal(s.handler).Some? {
        AbortWork(s, Abort(Internal, FinishRefusal(s.handler).value));
      }
    }
  }

  lemma StartWork(c: Config, s: State, writeThrows: bool, now: int)
    requires s.task.NoTask? && s.queue != []
    ensures Begin(c, s, writeThrows, now).queue == s.queue[1..] && Awaits(Begin(c, s, writeThrows, now).task) <= 5
  {
    match s.queue[0]
    case Data(m) => ProcessWork(s.(queue := s.queue[1..], started := s.started + [m]), m, writeThrows);
    case End => FinalizeWork(c, s.(queue := s.queue[1..], streamEnded := true), now);
  }

  lemma WorkShrinks(c: Config, s: State, a: Action)
    requires Enabled(s, a) && IsInternal(a)
    ensures Work(Next(c, s, a)) < Work(s)
  {
    match a
    case StartNext(writeThrows, now) => StartWork(c, s, writeThrows, now);
    case ConsumeDone(ticket, path) => ConsumeWork(s, ticket, path);
    case MkdirDone(ok) => AbortWork(s, Abort(PermissionDenied, "Internal error"));
    case PrepareDone(prep) => PrepareWork(s, prep);
    case CreateDone(jobId) => CreateWork(c, s, jobId);
    case _ =>
  }

  lemma ConsumeWork(s: State, ticket: Option<T.Ticket>, path: string)
    requires s.task.Consuming?
    ensures Work(AfterConsume(s, ticket, path)) < Work(s)
  {
    AbortWork(s, Abort(PermissionDenied, "ticket rejected"));
  }

  lemma PrepareWork(s: State, prep: Option<Preparation>)
    requires s.task.Preparing?
    ensures Work(AfterPrepare(s, prep)) < Work(s)
  {
    AbortWork(s, Abort(Internal, "push preparation failed"));
  }

  lemma CreateWork(c: Config, s: State, jobId: Option<string>)
    requires s.task.Creating?
    ensures Work(AfterCreate(c, s, jobId)) < Work(s)
  {
    AbortWork(s, Abort(Internal, "job store failed"));
  }

  /** Once no more events arrive, the handler finishes within the work it has. */
  lemma {:induction false} DrainsInBoundedSteps(c: Config, run: seq<State>, acts: seq<Action>, i: nat, k: nat)
    requires IsRun(c, run, acts) && i <= k < |run|
    requires forall n :: i <= n < k ==> IsInternal(acts[n])
    ensures k - i + Work(run[k]) <= Work(run[i])
    decreases k - i
  {
    if i < k {
      DrainsInBoundedSteps(c, run, acts, i, k - 1);
      assert StepAt(c, run, acts, k - 1);
      WorkShrinks(c, run[k - 1], acts[k - 1]);
    }
  }

  // ------------------------------------------------------------ reachable states

  /** Some run ends in this state. */
  ghost predicate Reachable(c: Config, s: State) {
    exists run, acts :: RunTo(c, run, acts, s)
  }

  ghost predicate RunTo(c: Config, run: seq<State>, acts: seq<Action>, s: State) {
    IsRun(c, run, acts) && run[|acts|] == s
  }

  /** Any enabled action leads to a reachable state again. */
  lemma ReachNext(c: Config, s: State, a: Action)
    requires Reachable(c, s) && Enabled(s, a)
    ensures Reachable(c, Next(c, s, a))
  {
    var run, acts :| RunTo(c, run, acts, s);
    var run', acts' := run + [Next(c, s, a)], acts + [a];
    forall i: nat | i < |acts'|
      ensures StepAt(c, run', acts', i)
    {
      if i < |acts| {
        assert StepAt(c, run, acts, i);
      }
    }
    assert RunTo(c, run', acts', Next(c, s, a));
  }
}
