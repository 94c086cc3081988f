/** The operation that a push consumes its ticket for is the one its own header names. */
module PushExamples {
  import opened Common
  import opened PushHandler
  import opened PushSession
  import T = TicketStore

  const PULL_HEADER := HeaderFields("t", "pull", "r")

  const PULL_TICKET := T.Ticket("u", T.Pull, "r", T.Active, 0, 1, None)

  /** The header has been handled and the sink is open. */
  const OPENED := INITIAL.(
    headerReceived := true, ended := true, queue := [End],
    arrived := [Header(PULL_HEADER)], started := [Header(PULL_HEADER)],
    activated := Some(PULL_HEADER), ticket := Some(PULL_TICKET),
    handler := OpenSink(Accept(FRESH, "t", "u", "r", "p")))

  lemma ReachOpened(c: Config)
    ensures Reachable(c, OPENED)
  {
    assert RunTo(c, [INITIAL], [], INITIAL);
    var s := Go(c, INITIAL, OnData(Header(PULL_HEADER)));
    s := Go(c, s, OnEnd);
    assert s.queue == [Data(Header(PULL_HEADER)), End];
    s := Go(c, s, StartNext(false, 0));
    assert s.queue == [End];
    s := Go(c, s, ConsumeDone(Some(PULL_TICKET), "p"));
    s := Go(c, s, MkdirDone(true));
    assert s == OPENED;
  }

  /** `finish` has begun. */
  const FINISHING := OPENED.(streamEnded := true, queue := [], handler := BeginFinish(OPENED.handler))

  lemma ReachFinishing(c: Config)
    ensures Reachable(c, FINISHING.(task := Preparing(c.digest([]), 0)))
  {
    ReachOpened(c);
    assert FinishRefusal(OPENED.handler).None?;
    var s := Go(c, OPENED, StartNext(false, 0));
    assert s.queue == [];
  }

  lemma Go(c: Config, s: State, a: Action) returns (t: State)
    requires Reachable(c, s) && Enabled(s, a)
    ensures Reachable(c, t) && t == Next(c, s, a)
  {
    t := Next(c, s, a);
    ReachNext(c, s, a);
  }

  /** A header that names the pull operation consumes a pull ticket, and the push goes through and stores its row. */
  lemma PullTicketCarriesPush(c: Config) returns (s: State)
    ensures Reachable(c, s) && s.ticket.Some? && s.ticket.value.operation.Pull?
    ensures s.replies == [Success("j", c.digest([]), 0)] && |s.rows| == 1 && s.rows[0].0 == "j"
  {
    s := FINISHING.(task := Preparing(c.digest([]), 0));
    ReachFinishing(c);
    s := Go(c, s, PrepareDone(Some(Preparation("r", "p", false))));
    s := Go(c, s, CreateDone(Some("j")));
    s := Go(c, s, CloseDone);
    s := Go(c, s, ReplyReady);
  }
}
