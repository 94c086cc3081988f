/**
 * `TicketService` calls racing on one ticket table, interleaved at every store
 * call and at the live role check.  One step is the code between two awaits.
 */
module TicketProtocol {
  import opened Common
  import opened TicketStore

  datatype Role = Reader | Writer | Admin

  function Rank(r: Role): nat {
    match r case Reader => 1 case Writer => 2 case Admin => 3
  }

  function MinimumRole(op: Operation): Role {
    match op case Push => Writer case Pull => Reader
  }

  datatype Error = NotFound | TicketExpired | OperationMismatch | AlreadyConsumed | RoleRevoked

  datatype Kind = ConsumeCall(operation: Operation, repo: string) | RenewCall | CloseCall

  datatype Result = Returned(ticket: Ticket) | Renewed(expiresAt: int) | Done | Threw(error: Error)

  /** Where a call stands; each constructor names its next await. */
  datatype Phase =
    | PreCheck
    | RoleCheck(username: string, operation: Operation, repo: string)
    | Write
    | ReadWon
    | ReadLost
    | Finished(result: Result)

  /** `now` is the call's clock reading; `verified` the user whose role re-check it has passed. */
  datatype Call = Call(kind: Kind, id: TicketId, now: int, verified: Option<string>, phase: Phase)

  type CallId = nat

  /** `log` names the call behind each effective write. */
  datatype State = State(
    tickets: Table,
    calls: map<CallId, Call>,
    roles: map<(string, string), Role>,
    clock: int,
    log: seq<CallId>)

  /** `verifies` says whether a role verifier is configured. */
  datatype Config = Config(ttlMs: int, verifies: bool)

  datatype Action =
    | Tick(elapsed: nat)
    | SetRole(username: string, repo: string, role: Option<Role>)
    | Issue(id: TicketId, username: string, operation: Operation, repo: string, syncOptions: Option<string>,
            firstReading: int, secondReading: int)
    | Reap(now: int)
    | Start(call: CallId, kind: Kind, id: TicketId)
    | Advance(call: CallId)

  predicate Init(s: State) {
    s.tickets == map[] && s.calls == map[] && s.log == []
  }

  /**
   * Issuing draws 32 random bytes: the id is new to the table and to every call
   * made so far.  `issueTicket` reads the clock twice before it stores the row.
   */
  ghost predicate Enabled(s: State, a: Action) {
    match a
    case Tick(_) => true
    case SetRole(_, _, _) => true
    case Issue(id, _, _, _, _, t1, t2) =>
      && id !in s.tickets
      && (forall n :: n in s.calls ==> s.calls[n].id != id)
      && t1 <= t2 <= s.clock
    case Reap(now) => now <= s.clock
    case Start(n, _, _) => n !in s.calls
    case Advance(n) => n in s.calls && !s.calls[n].phase.Finished?
  }

  function NewTicket(c: Config, username: string, op: Operation, repo: string, syncOptions: Option<string>,
                     t1: int, t2: int): Ticket {
    Ticket(username, op, repo, Issued, t1, t2 + c.ttlMs, if op == Push then syncOptions else None)
  }

  predicate RoleSuffices(s: State, username: string, op: Operation, repo: string) {
    (username, repo) in s.roles && Rank(s.roles[(username, repo)]) >= Rank(MinimumRole(op))
  }

  function SetPhase(s: State, n: CallId, p: Phase): State
    requires n in s.calls
  {
    s.(calls := s.calls[n := s.calls[n].(phase := p)])
  }

  /** The first read: it decides whether a role check applies. */
  function AfterPreCheck(c: Config, s: State, k: Call): Phase {
    if k.id in s.tickets && c.verifies
       && (k.kind.ConsumeCall? ==> s.tickets[k.id].operation == k.kind.operation && s.tickets[k.id].repo == k.kind.repo)
    then RoleCheck(s.tickets[k.id].username, s.tickets[k.id].operation, s.tickets[k.id].repo)
    else Write
  }

  function AfterReadLost(s: State, k: Call): Error {
    if k.id !in s.tickets then NotFound
    else
      var t := s.tickets[k.id];
      match k.kind
      case ConsumeCall(op, repo) =>
        if t.expiresAt <= k.now then TicketExpired
        else if t.operation != op || t.repo != repo then OperationMismatch
        else AlreadyConsumed
      case _ => if !t.status.Active? then NotFound else TicketExpired
  }

  function AfterWrite(c: Config, s: State, n: CallId, k: Call): State
    requires n in s.calls && s.calls[n] == k
  {
    match k.kind
    case ConsumeCall(op, repo) =>
      if Activatable(s.tickets, k.id, op, repo, k.now) then
        SetPhase(s, n, ReadWon).(tickets := ActivateWrite(s.tickets, k.id, op, repo, k.now), log := s.log + [n])
      else SetPhase(s, n, ReadLost)
    case RenewCall =>
      if Renewable(s.tickets, k.id, k.now) then
        SetPhase(s, n, Finished(Renewed(k.now + c.ttlMs)))
          .(tickets := RenewWrite(s.tickets, k.id, k.now + c.ttlMs, k.now), log := s.log + [n])
      else SetPhase(s, n, ReadLost)
    case CloseCall =>
      if Closable(s.tickets, k.id) then
        SetPhase(s, n, Finished(Done)).(tickets := CloseWrite(s.tickets, k.id), log := s.log + [n])
      else SetPhase(s, n, Finished(Threw(NotFound)))
  }

  function Step(c: Config, s: State, n: CallId): State
    requires n in s.calls && !s.calls[n].phase.Finished?
  {
    var k := s.calls[n];
    match k.phase
    case PreCheck => SetPhase(s, n, AfterPreCheck(c, s, k))
    case RoleCheck(username, op, repo) =>
      if RoleSuffices(s, username, op, repo)
      then s.(calls := s.calls[n := k.(verified := Some(username), phase := Write)])
      else SetPhase(s, n, Finished(Threw(RoleRevoked)))
    case Write => AfterWrite(c, s, n, k)
    case ReadWon =>
      SetPhase(s, n, Finished(if k.id in s.tickets then Returned(s.tickets[k.id]) else Threw(NotFound)))
    case ReadLost => SetPhase(s, n, Finished(Threw(AfterReadLost(s, k))))
  }

  function Next(c: Config, s: State, a: Action): State
    requires Enabled(s, a)
  {
    match a
    case Tick(elapsed) => s.(clock := s.clock + elapsed)
    case SetRole(username, repo, role) =>
      s.(roles := if role.Some? then s.roles[(username, repo) := role.value] else s.roles - {(username, repo)})
    case Issue(id, username, op, repo, syncOptions, t1, t2) =>
      s.(tickets := s.tickets[id := NewTicket(c, username, op, repo, syncOptions, t1, t2)])
    case Reap(now) => s.(tickets := ReapWrite(s.tickets, now))
    case Start(n, kind, id) =>
      s.(calls := s.calls[n := Call(kind, id, s.clock, None, if kind.CloseCall? then Write else PreCheck)])
    case Advance(n) => Step(c, s, n)
  }

  /** Action `i` leads from state `i` to the next. */
  ghost predicate StepAt(c: Config, run: seq<State>, acts: seq<Action>, i: nat) {
    i < |acts| && i + 1 < |run| && Enabled(run[i], acts[i]) && run[i + 1] == Next(c, run[i], acts[i])
  }

  ghost predicate IsRun(c: Config, run: seq<State>, acts: seq<Action>) {
    && |run| == |acts| + 1
    && Init(run[0])
    && forall i: nat :: i < |acts| ==> StepAt(c, run, acts, i)
  }

  // ---------------------------------------------------------------- invariant

  /** The stored ticket is the one this call names, and it authorises the call. */
  predicate Matches(t: Table, k: Call) {
    k.id in t && (k.kind.ConsumeCall? ==> t[k.id].operation == k.kind.operation && t[k.id].repo == k.kind.repo)
  }

  /** Past its role check, or with none to pass. */
  predicate Cleared(c: Config, t: Table, k: Call) {
    c.verifies && Matches(t, k) && !k.kind.CloseCall? ==> k.verified == Some(t[k.id].username)
  }

  predicate HasWon(k: Call) {
    k.kind.ConsumeCall? && (k.phase.ReadWon? || (k.phase.Finished? && k.phase.result.Returned?))
  }

  predicate Wins(s: State, n: CallId) {
    n in s.calls && HasWon(s.calls[n])
  }

  predicate PhaseOk(c: Config, t: Table, k: Call) {
    match k.phase
    case PreCheck => true
    case RoleCheck(username, op, repo) =>
      Matches(t, k) && username == t[k.id].username && op == t[k.id].operation && repo == t[k.id].repo
    case Write => Cleared(c, t, k)
    case ReadWon => k.kind.ConsumeCall? && Matches(t, k) && Cleared(c, t, k) && !t[k.id].status.Issued?
    case ReadLost =>
      k.kind.ConsumeCall? && Matches(t, k) && t[k.id].status.Issued? ==> t[k.id].expiresAt <= k.now
    case Finished(Returned(ticket)) =>
      && k.kind.ConsumeCall? && Matches(t, k) && Cleared(c, t, k)
      && !t[k.id].status.Issued? && Evolves(ticket, t[k.id])
    case Finished(Renewed(_)) => k.kind.RenewCall? && Matches(t, k) && Cleared(c, t, k)
    case Finished(Threw(AlreadyConsumed)) => Matches(t, k) && !t[k.id].status.Issued?
    case Finished(_) => true
  }

  /** A call whose next step could still be its write, or that ended without one. */
  predicate HasNotWritten(k: Call) {
    match k.phase
    case ReadWon => false
    case Finished(Threw(_)) => true
    case Finished(_) => false
    case _ => true
  }

  predicate CallOk(c: Config, t: Table, clock: int, log: seq<CallId>, n: CallId, k: Call) {
    && k.now <= clock
    && (k.id in t ==> t[k.id].issuedAt <= k.now)
    && PhaseOk(c, t, k)
    && (HasNotWritten(k) ==> n !in log)
  }

  predicate TicketOk(c: Config, clock: int, t: Ticket) {
    t.issuedAt <= clock && t.issuedAt + c.ttlMs <= t.expiresAt <= clock + c.ttlMs
  }

  ghost predicate Inv(c: Config, s: State) {
    && (forall id :: id in s.tickets ==> TicketOk(c, s.clock, s.tickets[id]))
    && (forall n :: n in s.calls ==> CallOk(c, s.tickets, s.clock, s.log, n, s.calls[n]))
    && (forall m, n :: Wins(s, m) && Wins(s, n) && s.calls[m].id == s.calls[n].id ==> m == n)
    && (forall n :: n in s.log ==> n in s.calls)
  }

  /** Other people's writes never invalidate what a call relies on. */
  lemma CallStable(c: Config, t: Table, t': Table, clock: int, clock': int, log: seq<CallId>, log': seq<CallId>,
                   n: CallId, k: Call)
    requires CallOk(c, t, clock, log, n, k)
    requires TableEvolves(t, t') && clock <= clock'
    requires k.id in t' ==> k.id in t
    requires n in log' ==> n in log
    ensures CallOk(c, t', clock', log', n, k)
  {
    if k.id in t' {
      assert Evolves(t[k.id], t'[k.id]);
    }
  }

  ghost predicate TicketsOk(c: Config, clock: int, t: Table) {
    forall id :: id in t ==> TicketOk(c, clock, t[id])
  }

  /** A call's write respects ticket evolution and the expiry bounds. */
  lemma WriteTickets(c: Config, s: State, n: CallId, k: Call)
    requires Inv(c, s) && n in s.calls && s.calls[n] == k
    ensures var t := AfterWrite(c, s, n, k).tickets;
            TableEvolves(s.tickets, t) && TicketsOk(c, s.clock, t) && t.Keys == s.tickets.Keys
  {
    assert CallOk(c, s.tickets, s.clock, s.log, n, k);
    match k.kind
    case ConsumeCall(op, repo) => assert ActivateWrite(s.tickets, k.id, op, repo, k.now).Keys == s.tickets.Keys;
    case RenewCall => assert RenewWrite(s.tickets, k.id, k.now + c.ttlMs, k.now).Keys == s.tickets.Keys;
    case CloseCall => assert CloseWrite(s.tickets, k.id).Keys == s.tickets.Keys;
  }

  /** Every action respects ticket evolution, and new ids are unknown to all calls. */
  lemma TicketsStep(c: Config, s: State, a: Action)
    requires Inv(c, s) && Enabled(s, a)
    ensures TableEvolves(s.tickets, Next(c, s, a).tickets) && TicketsOk(c, Next(c, s, a).clock, Next(c, s, a).tickets)
    ensures forall n :: n in s.calls && s.calls[n].id in Next(c, s, a).tickets ==> s.calls[n].id in s.tickets
  {
    if a.Advance? && s.calls[a.call].phase.Write? {
      WriteTickets(c, s, a.call, s.calls[a.call]);
    }
  }

  /** What the acting call's step leaves alone. */
  ghost predicate Frame(s: State, s': State, n: CallId) {
    && n in s.calls && n in s'.calls
    && s'.calls == s.calls[n := s'.calls[n]]
    && s'.calls[n].id == s.calls[n].id
    && s'.clock == s.clock
    && (s'.log == s.log || s'.log == s.log + [n])
  }

  lemma StepFrame(c: Config, s: State, n: CallId)
    requires n in s.calls && !s.calls[n].phase.Finished?
    ensures Frame(s, Step(c, s, n), n)
  {
  }

  /** The acting call itself stays in order. */
  lemma ActingWrite(c: Config, s: State, n: CallId)
    requires Inv(c, s) && n in s.calls && s.calls[n].phase.Write?
    ensures var s' := AfterWrite(c, s, n, s.calls[n]);
            n in s'.calls && CallOk(c, s'.tickets, s'.clock, s'.log, n, s'.calls[n])
  {
    assert CallOk(c, s.tickets, s.clock, s.log, n, s.calls[n]);
  }

  lemma ActingCall(c: Config, s: State, n: CallId)
    requires Inv(c, s) && n in s.calls && !s.calls[n].phase.Finished?
    ensures var s' := Step(c, s, n);
            n in s'.calls && CallOk(c, s'.tickets, s'.clock, s'.log, n, s'.calls[n])
  {
    if s.calls[n].phase.Write? {
      ActingWrite(c, s, n);
    } else {
      assert CallOk(c, s.tickets, s.clock, s.log, n, s.calls[n]);
    }
  }

  /** A call becomes a winner only by taking a ticket out of `issued`, where no winner's ticket is. */
  lemma NewWinner(c: Config, s: State, n: CallId, m: CallId)
    requires Inv(c, s) && n in s.calls && !s.calls[n].phase.Finished?
    requires Wins(Step(c, s, n), n) && Wins(s, m) && m != n
    ensures s.calls[m].id != s.calls[n].id
  {
    assert CallOk(c, s.tickets, s.clock, s.log, n, s.calls[n]);
    assert CallOk(c, s.tickets, s.clock, s.log, m, s.calls[m]);
  }

  lemma Assemble(c: Config, s: State, s': State, n: CallId)
    requires Inv(c, s) && Frame(s, s', n)
    requires TableEvolves(s.tickets, s'.tickets) && TicketsOk(c, s'.clock, s'.tickets)
    requires forall m :: m in s.calls && s.calls[m].id in s'.tickets ==> s.calls[m].id in s.tickets
    requires CallOk(c, s'.tickets, s'.clock, s'.log, n, s'.calls[n])
    requires forall m :: Wins(s', n) && Wins(s, m) && m != n ==> s.calls[m].id != s.calls[n].id
    ensures Inv(c, s')
  {
    forall m | m in s'.calls
      ensures CallOk(c, s'.tickets, s'.clock, s'.log, m, s'.calls[m])
    {
      if m != n {
        CallStable(c, s.tickets, s'.tickets, s.clock, s'.clock, s.log, s'.log, m, s.calls[m]);
      }
    }
    assert forall m :: m != n ==> (Wins(s', m) <==> Wins(s, m));
  }

  lemma AdvanceStep(c: Config, s: State, n: CallId)
    requires Inv(c, s) && Enabled(s, Advance(n))
    ensures Inv(c, Step(c, s, n))
  {
    TicketsStep(c, s, Advance(n));
    StepFrame(c, s, n);
    ActingCall(c, s, n);
    forall m | Wins(Step(c, s, n), n) && Wins(s, m) && m != n
      ensures s.calls[m].id != s.calls[n].id
    {
      NewWinner(c, s, n, m);
    }
    Assemble(c, s, Step(c, s, n), n);
  }

  lemma InvStep(c: Config, s: State, a: Action)
    requires Inv(c, s) && Enabled(s, a)
    ensures Inv(c, Next(c, s, a))
  {
    if a.Advance? {
      AdvanceStep(c, s, a.call);
    } else {
      var s' := Next(c, s, a);
      TicketsStep(c, s, a);
      forall n | n in s.calls
        ensures CallOk(c, s'.tickets, s'.clock, s'.log, n, s.calls[n])
      {
        CallStable(c, s.tickets, s'.tickets, s.clock, s'.clock, s.log, s'.log, n, s.calls[n]);
      }
      assert forall n :: Wins(s', n) ==> Wins(s, n);
    }
  }

  lemma {:induction false} RunInv(c: Config, run: seq<State>, acts: seq<Action>, k: nat)
    requires IsRun(c, run, acts) && k < |run|
    ensures Inv(c, run[k])
  {
    if k > 0 {
      RunInv(c, run, acts, k - 1);
      assert StepAt(c, run, acts, k - 1);
      InvStep(c, run[k - 1], acts[k - 1]);
    }
  }

  // ------------------------------------------------------------------ results

  predicate Consumed(s: State, n: CallId) {
    n in s.calls && s.calls[n].phase.Finished? && s.calls[n].phase.result.Returned?
  }

  /** Single use: at most one `consumeTicket` call per ticket ever returns. */
  lemma AtMostOneConsumer(c: Config, run: seq<State>, acts: seq<Action>, k: nat, m: CallId, n: CallId)
    requires IsRun(c, run, acts) && k < |run|
    requires Consumed(run[k], m) && Consumed(run[k], n) && run[k].calls[m].id == run[k].calls[n].id
    ensures m == n
  {
    RunInv(c, run, acts, k);
    assert CallOk(c, run[k].tickets, run[k].clock, run[k].log, m, run[k].calls[m]);
    assert CallOk(c, run[k].tickets, run[k].clock, run[k].log, n, run[k].calls[n]);
    assert Wins(run[k], m) && Wins(run[k], n);
  }

  /** Who may act on a repo: for a push its writers and admins, for a pull everyone with a role there. */
  predicate MayAct(roles: map<(string, string), Role>, username: string, op: Operation, repo: string) {
    (username, repo) in roles && (op.Push? ==> roles[(username, repo)] == Writer || roles[(username, repo)] == Admin)
  }

  /** The role check of call `n`, passed at step `i` for this user, operation and repo. */
  ghost predicate PassedRoleCheck(run: seq<State>, acts: seq<Action>, i: nat, n: CallId,
                                  username: string, op: Operation, repo: string) {
    && i < |acts| && i < |run| && acts[i] == Advance(n)
    && n in run[i].calls && run[i].calls[n].phase == RoleCheck(username, op, repo)
    && MayAct(run[i].roles, username, op, repo)
  }

  /** What a step may do to the record of an earlier call: set `verified`, and only by passing its role check. */
  ghost predicate VerifiedBy(s: State, a: Action, n: CallId, k: Call, k': Call) {
    && k'.id == k.id && k'.kind == k.kind
    && (k'.verified == k.verified
        || (&& a == Advance(n) && k.phase.RoleCheck? && k'.verified == Some(k.phase.username)
            && MayAct(s.roles, k.phase.username, k.phase.operation, k.phase.repo)))
  }

  lemma VerifiedWrite(c: Config, s: State, n: CallId)
    requires n in s.calls && s.calls[n].phase.Write?
    ensures var s' := AfterWrite(c, s, n, s.calls[n]);
            n in s'.calls && VerifiedBy(s, Advance(n), n, s.calls[n], s'.calls[n])
  {
  }

  lemma VerifiedStep(c: Config, s: State, a: Action, n: CallId)
    requires Enabled(s, a) && n in Next(c, s, a).calls
    ensures var k' := Next(c, s, a).calls[n];
            if n in s.calls then VerifiedBy(s, a, n, s.calls[n], k') else k'.verified.None?
  {
    if a.Advance? {
      StepFrame(c, s, a.call);
      if s.calls[a.call].phase.Write? {
        VerifiedWrite(c, s, a.call);
      }
    }
  }

  lemma VerifiedAt(c: Config, run: seq<State>, acts: seq<Action>, k: nat, n: CallId)
    requires IsRun(c, run, acts) && k < |acts| && n in run[k + 1].calls
    ensures var k' := run[k + 1].calls[n];
            if n in run[k].calls then VerifiedBy(run[k], acts[k], n, run[k].calls[n], k') else k'.verified.None?
  {
    assert StepAt(c, run, acts, k);
    VerifiedStep(c, run[k], acts[k], n);
  }

  lemma EvolvesInRun(c: Config, run: seq<State>, acts: seq<Action>, k: nat, id: TicketId)
    requires IsRun(c, run, acts) && k < |acts| && id in run[k].tickets
    ensures id in run[k + 1].tickets && Evolves(run[k].tickets[id], run[k + 1].tickets[id])
  {
    RunInv(c, run, acts, k);
    assert StepAt(c, run, acts, k);
    TicketsStep(c, run[k], acts[k]);
  }

  /** At its role check a call matches the ticket that it checks. */
  lemma RoleCheckMatches(c: Config, run: seq<State>, acts: seq<Action>, k: nat, n: CallId)
    requires IsRun(c, run, acts) && k < |run| && n in run[k].calls && run[k].calls[n].phase.RoleCheck?
    ensures var s, call := run[k], run[k].calls[n];
            && Matches(s.tickets, call)
            && call.phase.operation == s.tickets[call.id].operation && call.phase.repo == s.tickets[call.id].repo
  {
    RunInv(c, run, acts, k);
    assert CallOk(c, run[k].tickets, run[k].clock, run[k].log, n, run[k].calls[n]);
  }

  /** So `verified` names the step at which the role check for this call's ticket was passed. */
  lemma {:induction false} VerifiedMeansChecked(c: Config, run: seq<State>, acts: seq<Action>, k: nat, n: CallId)
    returns (i: nat)
    requires IsRun(c, run, acts) && k < |run| && n in run[k].calls && run[k].calls[n].verified.Some?
    ensures Matches(run[k].tickets, run[k].calls[n])
    ensures var t := run[k].tickets[run[k].calls[n].id];
            i < k && PassedRoleCheck(run, acts, i, n, run[k].calls[n].verified.value, t.operation, t.repo)
  {
    i := k - 1;
    var s, call := run[i], run[k].calls[n];
    VerifiedAt(c, run, acts, i, n);
    if s.calls[n].verified == call.verified {
      i := VerifiedMeansChecked(c, run, acts, k - 1, n);
    } else {
      RoleCheckMatches(c, run, acts, i, n);
    }
    EvolvesInRun(c, run, acts, k - 1, call.id);
  }

  /**
   * A `consumeTicket` call returns only a ticket for its own operation and repo,
   * and, with a verifier configured, only after the same call found that the
   * ticket's own user still has the role that the operation needs.
   */
  lemma ConsumeIsAuthorised(c: Config, run: seq<State>, acts: seq<Action>, k: nat, n: CallId)
    requires IsRun(c, run, acts) && k < |run| && Consumed(run[k], n)
    ensures run[k].calls[n].kind.ConsumeCall?
    ensures var call, ticket := run[k].calls[n], run[k].calls[n].phase.result.ticket;
            && ticket.operation == call.kind.operation && ticket.repo == call.kind.repo
            && call.id in run[k].tickets && ticket.username == run[k].tickets[call.id].username
            && (c.verifies ==>
                  exists i: nat :: i < k && PassedRoleCheck(run, acts, i, n, ticket.username, ticket.operation, ticket.repo))
  {
    RunInv(c, run, acts, k);
    var call := run[k].calls[n];
    assert CallOk(c, run[k].tickets, run[k].clock, run[k].log, n, call);
    if c.verifies {
      var i := VerifiedMeansChecked(c, run, acts, k, n);
    }
  }

  /** A heartbeat, too, extends a ticket only after its user passed the role check in the same call. */
  lemma RenewIsAuthorised(c: Config, run: seq<State>, acts: seq<Action>, k: nat, n: CallId)
    requires IsRun(c, run, acts) && k < |run| && n in run[k].calls && c.verifies
    requires run[k].calls[n].phase.Finished? && run[k].calls[n].phase.result.Renewed?
    ensures run[k].calls[n].id in run[k].tickets
    ensures var ticket := run[k].tickets[run[k].calls[n].id];
            exists i: nat :: i < k && PassedRoleCheck(run, acts, i, n, ticket.username, ticket.operation, ticket.repo)
  {
    RunInv(c, run, acts, k);
    assert CallOk(c, run[k].tickets, run[k].clock, run[k].log, n, run[k].calls[n]);
    var i := VerifiedMeansChecked(c, run, acts, k, n);
  }

  /** The log only grows, and names every call that changed the table. */
  lemma {:induction false} WritersAreLogged(c: Config, run: seq<State>, acts: seq<Action>, i: nat, k: nat, n: CallId)
    requires IsRun(c, run, acts) && i < k < |run| && acts[i] == Advance(n)
    requires run[i + 1].tickets != run[i].tickets
    ensures n in run[k].log
    decreases k - i
  {
    LogAt(c, run, acts, k - 1);
    if k > i + 1 {
      WritersAreLogged(c, run, acts, i, k - 1, n);
    }
  }

  lemma LogAt(c: Config, run: seq<State>, acts: seq<Action>, k: nat)
    requires IsRun(c, run, acts) && k < |acts|
    ensures run[k].log <= run[k + 1].log
    ensures acts[k].Advance? && run[k + 1].tickets != run[k].tickets ==> acts[k].call in run[k + 1].log
  {
    assert StepAt(c, run, acts, k);
    LogStep(c, run[k], acts[k]);
  }

  lemma LogStep(c: Config, s: State, a: Action)
    requires Enabled(s, a)
    ensures s.log <= Next(c, s, a).log
    ensures a.Advance? && Next(c, s, a).tickets != s.tickets ==> a.call in Next(c, s, a).log
  {
  }

  /** A call that ends in an error, a failed role re-check included, never changed the table. */
  lemma FailedCallWritesNothing(c: Config, run: seq<State>, acts: seq<Action>, k: nat, n: CallId, i: nat)
    requires IsRun(c, run, acts) && i < k < |run| && n in run[k].calls && acts[i] == Advance(n)
    requires run[k].calls[n].phase.Finished? && run[k].calls[n].phase.result.Threw?
    ensures run[i + 1].tickets == run[i].tickets
  {
    RunInv(c, run, acts, k);
    assert CallOk(c, run[k].tickets, run[k].clock, run[k].log, n, run[k].calls[n]);
    if run[i + 1].tickets != run[i].tickets {
      WritersAreLogged(c, run, acts, i, k, n);
    }
  }

  /** A call that wins the activation returns its ticket, as stored when it reads it: the row it wrote is there. */
  lemma WinnersReturn(c: Config, run: seq<State>, acts: seq<Action>, k: nat, n: CallId)
    requires IsRun(c, run, acts) && k < |acts| && acts[k] == Advance(n)
    requires n in run[k].calls && run[k].calls[n].phase.ReadWon?
    ensures Consumed(run[k + 1], n)
    ensures var id := run[k].calls[n].id;
            && id in run[k].tickets && !run[k].tickets[id].status.Issued?
            && run[k + 1].calls[n].phase.result.ticket == run[k].tickets[id] && run[k + 1].tickets == run[k].tickets
  {
    RunInv(c, run, acts, k);
    assert StepAt(c, run, acts, k);
    assert CallOk(c, run[k].tickets, run[k].clock, run[k].log, n, run[k].calls[n]);
  }

  /** Racing heartbeats keep every expiry between its issue and the clock, each plus one lifetime. */
  lemma ExpiryBounds(c: Config, run: seq<State>, acts: seq<Action>, k: nat, id: TicketId)
    requires IsRun(c, run, acts) && k < |run| && id in run[k].tickets
    ensures run[k].tickets[id].issuedAt + c.ttlMs <= run[k].tickets[id].expiresAt <= run[k].clock + c.ttlMs
  {
    RunInv(c, run, acts, k);
    assert TicketOk(c, run[k].clock, run[k].tickets[id]);
  }

  /** Tickets keep their identity; once closed or expired they never change; once used they are never `issued` again. */
  lemma {:induction false} TicketLifecycle(c: Config, run: seq<State>, acts: seq<Action>, i: nat, k: nat, id: TicketId)
    requires IsRun(c, run, acts) && i <= k < |run| && id in run[i].tickets
    ensures id in run[k].tickets && Evolves(run[i].tickets[id], run[k].tickets[id])
    ensures var a, b := run[i].tickets[id], run[k].tickets[id];
            && b.username == a.username && b.operation == a.operation && b.repo == a.repo && b.issuedAt == a.issuedAt
            && (a.status == Closed || a.status == Expired ==> b == a)
            && (b.status == Issued ==> b == a)
    decreases k - i
  {
    if i < k {
      TicketLifecycle(c, run, acts, i, k - 1, id);
      EvolvesInRun(c, run, acts, k - 1, id);
    }
  }

  /** `TicketAlreadyConsumedError` is raised only for a matching ticket that has left `issued`. */
  lemma AlreadyConsumedIsTrue(c: Config, run: seq<State>, acts: seq<Action>, k: nat, n: CallId)
    requires IsRun(c, run, acts) && k < |run| && n in run[k].calls
    requires run[k].calls[n].phase == Finished(Threw(AlreadyConsumed))
    ensures run[k].calls[n].id in run[k].tickets && !run[k].tickets[run[k].calls[n].id].status.Issued?
  {
    RunInv(c, run, acts, k);
    assert CallOk(c, run[k].tickets, run[k].clock, run[k].log, n, run[k].calls[n]);
  }

  // ------------------------------------------------------------ what a step decides

  /** The role check ends a call in `RoleRevoked`, or lets it go on, by the roles that hold at that moment. */
  lemma RoleCheckDecides(c: Config, run: seq<State>, acts: seq<Action>, k: nat, n: CallId)
    requires IsRun(c, run, acts) && k < |acts| && acts[k] == Advance(n)
    requires n in run[k].calls && run[k].calls[n].phase.RoleCheck?
    ensures c.verifies && n in run[k + 1].calls && run[k + 1].tickets == run[k].tickets
    ensures var p := run[k].calls[n].phase;
            if MayAct(run[k].roles, p.username, p.operation, p.repo) then run[k + 1].calls[n].phase.Write?
            else run[k + 1].calls[n].phase == Finished(Threw(RoleRevoked))
  {
    assert StepAt(c, run, acts, k);
    OnlyVerifiersCheck(c, run, acts, k, n);
  }

  /** Without a configured verifier no call comes to a role check. */
  lemma {:induction false} OnlyVerifiersCheck(c: Config, run: seq<State>, acts: seq<Action>, k: nat, n: CallId)
    requires IsRun(c, run, acts) && k < |run| && n in run[k].calls && run[k].calls[n].phase.RoleCheck?
    ensures c.verifies
  {
    assert StepAt(c, run, acts, k - 1);
    var s := run[k - 1];
    if n in s.calls && s.calls[n].phase.RoleCheck? && s.calls[n] == run[k].calls[n] {
      OnlyVerifiersCheck(c, run, acts, k - 1, n);
    }
  }

  /** A call starts at the clock, and its first read leads to the check of the stored ticket's own user and rights. */
  lemma FirstStepsMean(c: Config, run: seq<State>, acts: seq<Action>, k: nat, n: CallId)
    requires IsRun(c, run, acts) && k < |acts|
    ensures acts[k].Start? && acts[k].call == n ==>
              && n in run[k + 1].calls
              && var call := run[k + 1].calls[n];
                 && call.kind == acts[k].kind && call.id == acts[k].id && call.now == run[k].clock
                 && call.phase == if call.kind.CloseCall? then Write else PreCheck
    ensures acts[k] == Advance(n) && n in run[k].calls && run[k].calls[n].phase.PreCheck? ==>
              && n in run[k + 1].calls && run[k + 1].tickets == run[k].tickets
              && var call, t := run[k].calls[n], run[k].tickets;
                 run[k + 1].calls[n].phase ==
                 if c.verifies && call.id in t
                    && (call.kind.ConsumeCall? ==> t[call.id].operation == call.kind.operation && t[call.id].repo == call.kind.repo)
                 then RoleCheck(t[call.id].username, t[call.id].operation, t[call.id].repo) else Write
  {
    assert StepAt(c, run, acts, k);
  }

  /** An issued, matching ticket that has not expired is activated by the write of a consume call, and no other is. */
  lemma ConsumeWriteMeans(c: Config, run: seq<State>, acts: seq<Action>, k: nat, n: CallId)
    requires IsRun(c, run, acts) && k < |acts| && acts[k] == Advance(n)
    requires n in run[k].calls && run[k].calls[n].phase.Write? && run[k].calls[n].kind.ConsumeCall?
    ensures n in run[k + 1].calls
    ensures var t, call := run[k].tickets, run[k].calls[n];
            if call.id in t && t[call.id].status == Issued && t[call.id].operation == call.kind.operation
               && t[call.id].repo == call.kind.repo && t[call.id].expiresAt > call.now
            then run[k + 1].calls[n].phase.ReadWon? && run[k + 1].tickets == t[call.id := t[call.id].(status := Active)]
            else run[k + 1].calls[n].phase.ReadLost? && run[k + 1].tickets == t
  {
    assert StepAt(c, run, acts, k);
  }

  /** A heartbeat moves the expiry of an active, unexpired ticket to one lifetime after its call, and reports that. */
  lemma RenewWriteMeans(c: Config, run: seq<State>, acts: seq<Action>, k: nat, n: CallId)
    requires IsRun(c, run, acts) && k < |acts| && acts[k] == Advance(n)
    requires n in run[k].calls && run[k].calls[n].phase.Write? && run[k].calls[n].kind.RenewCall?
    ensures n in run[k + 1].calls
    ensures var t, call := run[k].tickets, run[k].calls[n];
            var expiry := call.now + c.ttlMs;
            if call.id in t && t[call.id].status == Active && t[call.id].expiresAt > call.now
            then && run[k + 1].calls[n].phase == Finished(Renewed(expiry))
                 && run[k + 1].tickets == t[call.id := t[call.id].(expiresAt := expiry)]
            else run[k + 1].calls[n].phase.ReadLost? && run[k + 1].tickets == t
  {
    assert StepAt(c, run, acts, k);
  }

  /** Closing closes an active ticket, and reports every other one as not found. */
  lemma CloseWriteMeans(c: Config, run: seq<State>, acts: seq<Action>, k: nat, n: CallId)
    requires IsRun(c, run, acts) && k < |acts| && acts[k] == Advance(n)
    requires n in run[k].calls && run[k].calls[n].phase.Write? && run[k].calls[n].kind.CloseCall?
    ensures n in run[k + 1].calls
    ensures var t, call := run[k].tickets, run[k].calls[n];
            if call.id in t && t[call.id].status == Active
            then run[k + 1].calls[n].phase == Finished(Done) && run[k + 1].tickets == t[call.id := t[call.id].(status := Closed)]
            else run[k + 1].calls[n].phase == Finished(Threw(NotFound)) && run[k + 1].tickets == t
  {
    assert StepAt(c, run, acts, k);
  }

  /**
   * The error of a lost consume call is the first that is true of the ticket as it is read:
   * unknown, expired at the call's own clock reading, for another operation or repo, or no
   * longer issued.
   */
  lemma ConsumeErrorIsTrue(c: Config, run: seq<State>, acts: seq<Action>, k: nat, n: CallId)
    requires IsRun(c, run, acts) && k < |acts| && acts[k] == Advance(n)
    requires n in run[k].calls && run[k].calls[n].phase.ReadLost? && run[k].calls[n].kind.ConsumeCall?
    ensures n in run[k + 1].calls && run[k + 1].calls[n].phase.Finished? && run[k + 1].calls[n].phase.result.Threw?
    ensures var t, call, e := run[k].tickets, run[k].calls[n], run[k + 1].calls[n].phase.result.error;
            && (e.NotFound? <==> call.id !in t)
            && (e.TicketExpired? <==> call.id in t && t[call.id].expiresAt <= call.now)
            && (e.OperationMismatch? <==>
                  call.id in t && t[call.id].expiresAt > call.now
                  && (t[call.id].operation != call.kind.operation || t[call.id].repo != call.kind.repo))
            && (e.AlreadyConsumed? ==> call.id in t && t[call.id].status != Issued)
            && !e.RoleRevoked?
  {
    RunInv(c, run, acts, k);
    assert StepAt(c, run, acts, k);
    assert CallOk(c, run[k].tickets, run[k].clock, run[k].log, n, run[k].calls[n]);
  }

  /** A lost heartbeat reports an active ticket as expired, and any other as not found. */
  lemma RenewErrorIsTrue(c: Config, run: seq<State>, acts: seq<Action>, k: nat, n: CallId)
    requires IsRun(c, run, acts) && k < |acts| && acts[k] == Advance(n)
    requires n in run[k].calls && run[k].calls[n].phase.ReadLost? && run[k].calls[n].kind.RenewCall?
    ensures n in run[k + 1].calls
    ensures var t, call := run[k].tickets, run[k].calls[n];
            run[k + 1].calls[n].phase ==
            Finished(Threw(if call.id in t && t[call.id].status == Active then TicketExpired else NotFound))
  {
    assert StepAt(c, run, acts, k);
  }

  /** An issued ticket carries what was asked for, and sync options only for a push. */
  lemma IssueStores(c: Config, run: seq<State>, acts: seq<Action>, k: nat)
    requires IsRun(c, run, acts) && k < |acts| && acts[k].Issue?
    ensures acts[k].id !in run[k].tickets && run[k + 1].tickets.Keys == run[k].tickets.Keys + {acts[k].id}
    ensures forall id :: id in run[k].tickets ==> run[k + 1].tickets[id] == run[k].tickets[id]
    ensures var t, a := run[k + 1].tickets[acts[k].id], acts[k];
            && t.username == a.username && t.operation == a.operation && t.repo == a.repo && t.status == Issued
            && t.issuedAt == a.firstReading && t.expiresAt == a.secondReading + c.ttlMs
            && (a.operation.Push? ==> t.syncOptions == a.syncOptions) && (a.operation.Pull? ==> t.syncOptions == None)
  {
    assert StepAt(c, run, acts, k);
  }

  /** What happens around the calls: time passes, roles change at any moment, and overdue tickets are reaped. */
  lemma SurroundingsMean(c: Config, run: seq<State>, acts: seq<Action>, k: nat)
    requires IsRun(c, run, acts) && k < |acts|
    ensures acts[k].Tick? ==> run[k + 1] == run[k].(clock := run[k].clock + acts[k].elapsed)
    ensures acts[k].SetRole? ==>
              var key := (acts[k].username, acts[k].repo);
              && run[k + 1].tickets == run[k].tickets && run[k + 1].calls == run[k].calls
              && (acts[k].role.Some? ==> run[k + 1].roles == run[k].roles[key := acts[k].role.value])
              && (acts[k].role.None? ==> key !in run[k + 1].roles)
    ensures acts[k].Reap? ==>
              && run[k + 1].tickets.Keys == run[k].tickets.Keys
              && forall id :: id in run[k].tickets ==>
                   var t := run[k].tickets[id];
                   run[k + 1].tickets[id] ==
                   if (t.status == Issued || t.status == Active) && t.expiresAt <= acts[k].now then t.(status := Expired) else t
  {
    assert StepAt(c, run, acts, k);
  }

  // ------------------------------------------------------------------------ progress

  /** Steps that a call still takes at most. */
  function StepsLeft(p: Phase): nat {
    match p
    case PreCheck => 4
    case RoleCheck(_, _, _) => 3
    case Write => 2
    case ReadWon => 1
    case ReadLost => 1
    case Finished(_) => 0
  }

  /** An unfinished call can always go on, every step brings it nearer to its end, and nobody else's step touches it. */
  lemma CallGoesOn(c: Config, run: seq<State>, acts: seq<Action>, k: nat, n: CallId)
    requires IsRun(c, run, acts) && k < |run| && n in run[k].calls && !run[k].calls[n].phase.Finished?
    ensures Enabled(run[k], Advance(n))
    ensures k < |acts| && acts[k] == Advance(n) ==>
              n in run[k + 1].calls && StepsLeft(run[k + 1].calls[n].phase) < StepsLeft(run[k].calls[n].phase)
    ensures k < |acts| && acts[k] != Advance(n) ==> n in run[k + 1].calls && run[k + 1].calls[n] == run[k].calls[n]
  {
    if k < |acts| {
      assert StepAt(c, run, acts, k);
      if acts[k].Advance? {
        StepFrame(c, run[k], acts[k].call);
      }
    }
  }
}
