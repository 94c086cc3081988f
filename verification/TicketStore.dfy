/** The ticket table and its atomic conditional writes (`LibsqlTicketStore`). */
module TicketStore {
  import opened Common

  type TicketId = string

  datatype Operation = Push | Pull
  datatype Status = Issued | Active | Closed | Expired

  datatype Ticket = Ticket(
    username: string,
    operation: Operation,
    repo: string,
    status: Status,
    issuedAt: int,
    expiresAt: int,
    syncOptions: Option<string>)

  type Table = map<TicketId, Ticket>

  predicate Activatable(t: Table, id: TicketId, op: Operation, repo: string, now: int) {
    id in t && t[id].operation == op && t[id].repo == repo && t[id].status.Issued? && t[id].expiresAt > now
  }

  predicate Renewable(t: Table, id: TicketId, now: int) {
    id in t && t[id].status.Active? && t[id].expiresAt > now
  }

  predicate Closable(t: Table, id: TicketId) {
    id in t && t[id].status.Active?
  }

  predicate Reapable(t: Ticket, now: int) {
    (t.status.Issued? || t.status.Active?) && t.expiresAt <= now
  }

  function ActivateWrite(t: Table, id: TicketId, op: Operation, repo: string, now: int): Table {
    if Activatable(t, id, op, repo, now) then t[id := t[id].(status := Active)] else t
  }

  function RenewWrite(t: Table, id: TicketId, newExpiresAt: int, now: int): Table {
    if Renewable(t, id, now) then t[id := t[id].(expiresAt := newExpiresAt)] else t
  }

  function CloseWrite(t: Table, id: TicketId): Table {
    if Closable(t, id) then t[id := t[id].(status := Closed)] else t
  }

  function ReapWrite(t: Table, now: int): Table {
    map id | id in t :: if Reapable(t[id], now) then t[id].(status := Expired) else t[id]
  }

  /**
   * What any write may do to a ticket: its identity is fixed, a ticket that is
   * still issued is untouched, and closed or expired tickets never change.
   */
  predicate Evolves(a: Ticket, b: Ticket) {
    && a.username == b.username && a.operation == b.operation && a.repo == b.repo && a.issuedAt == b.issuedAt
    && (b.status.Issued? ==> a == b)
    && (a.status.Closed? || a.status.Expired? ==> a == b)
  }

  ghost predicate TableEvolves(s: Table, t: Table) {
    forall id :: id in s ==> id in t && Evolves(s[id], t[id])
  }

  class LibsqlTicketStore {
    var tickets: Table

    constructor ()
      ensures tickets == map[]
    {
      tickets := map[];
    }

    method Create(id: TicketId, ticket: Ticket) returns (inserted: bool)
      modifies this
      ensures inserted <==> id !in old(tickets)
      ensures tickets == if inserted then old(tickets)[id := ticket] else old(tickets)
      ensures TableEvolves(old(tickets), tickets)
    {
      inserted := id !in tickets;
      if inserted {
        tickets := tickets[id := ticket];
      }
    }

    method Activate(id: TicketId, op: Operation, repo: string, now: int) returns (won: bool)
      modifies this
      ensures won <==> Activatable(old(tickets), id, op, repo, now)
      ensures tickets == ActivateWrite(old(tickets), id, op, repo, now)
      ensures TableEvolves(old(tickets), tickets)
    {
      won := id in tickets && tickets[id].operation == op && tickets[id].repo == repo
             && tickets[id].status == Issued && tickets[id].expiresAt > now;
      if won {
        tickets := tickets[id := tickets[id].(status := Active)];
      }
    }

    method Renew(id: TicketId, newExpiresAt: int, now: int) returns (won: bool)
      modifies this
      ensures won <==> Renewable(old(tickets), id, now)
      ensures tickets == RenewWrite(old(tickets), id, newExpiresAt, now)
      ensures TableEvolves(old(tickets), tickets)
    {
      won := id in tickets && tickets[id].status == Active && tickets[id].expiresAt > now;
      if won {
        tickets := tickets[id := tickets[id].(expiresAt := newExpiresAt)];
      }
    }

    method Close(id: TicketId) returns (won: bool)
      modifies this
      ensures won <==> Closable(old(tickets), id)
      ensures tickets == CloseWrite(old(tickets), id)
      ensures TableEvolves(old(tickets), tickets)
    {
      won := id in tickets && tickets[id].status == Active;
      if won {
        tickets := tickets[id := tickets[id].(status := Closed)];
      }
    }

    /** Expires every overdue ticket and counts the rows it changed. */
    method ReapExpired(now: int) returns (count: nat)
      modifies this
      ensures tickets == ReapWrite(old(tickets), now)
      ensures count == |set id | id in old(tickets) && Reapable(old(tickets)[id], now)|
      ensures TableEvolves(old(tickets), tickets)
    {
      var before := tickets;
      var overdue := set id | id in before && (before[id].status == Issued || before[id].status == Active)
                              && before[id].expiresAt <= now;
      tickets := map id | id in before :: if id in overdue then before[id].(status := Expired) else before[id];
      assert overdue == set id | id in before && Reapable(before[id], now);
      count := |overdue|;
    }
  }
}
