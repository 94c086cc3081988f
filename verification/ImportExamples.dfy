/** Runs in which a push succeeds without keeping its fast-forward promise, on the sample engine. */
module ImportExamples {
  import opened Common
  import opened TableNames
  import opened CommitGraph
  import opened CommitTables
  import R = DoltRepo
  import opened SampleEngine
  import opened ConcurrentImport

  /** A push of one empty table. */
  function Push(name: string): seq<R.Pushed> {
    [R.Pushed([Dump(name, "+" + name, HEADER)])]
  }

  predicate Simple(name: string) {
    PassesImport(name) && |name| == 1
  }

  /** A call for such a push that has made no commit yet. */
  predicate Waits(s: State, id: CallId, name: string, phase: Phase) {
    && Simple(name) && id in s.calls
    && s.calls[id].commits == Push(name) && s.calls[id].made == [] && s.calls[id].phase == phase
  }

  /** The call once it has made its commit. */
  function Ended(c: Call, h: Hash, branch: string): Call {
    c.(made := [Made(h, branch)], phase := Finished(R.Imported(h)))
  }

  lemma VisiblePush(name: string)
    requires Simple(name)
    ensures forall c: Call :: c.commits == Push(name) ==> PushedTables(c, 0) == [Dump(name, "+" + name, HEADER)]
  {
    AllVisible([Dump(name, "+" + name, HEADER)]);
  }

  // ------------------------------------------------------------------- single steps

  /** A head query that finds no other head than the named one, or none at all, lets the call go on. */
  lemma QueryStep(s: State, id: CallId, name: string, a: Action)
    requires Waits(s, id, name, ReadingHead) && a in {Step(id), Unread(id)}
    requires !R.Rejected(R.HeadRead(s.repo, s.calls[id].branch, a == Step(id)), s.calls[id].from)
    ensures var c := s.calls[id];
            Next(SAMPLE, s, a) ==
            State(s.repo, s.calls[id := c.(read := R.HeadRead(s.repo, c.branch, a == Step(id)),
                                           tip := R.Tip(s.repo, c.branch), phase := CheckingOut(0))])
  {
  }

  /** The checkout of the current branch changes nothing, and that of a missing one creates it at the head. */
  lemma CheckoutStep(s: State, id: CallId, name: string)
    requires Waits(s, id, name, CheckingOut(0)) && s.repo.current in s.repo.branches
    requires s.calls[id].branch == s.repo.current || s.calls[id].branch !in s.repo.branches
    ensures var c := s.calls[id];
            var branches := s.repo.branches[c.branch := R.Head(s.repo)];
            Next(SAMPLE, s, Step(id)) ==
            State(s.repo.(branches := branches, current := c.branch), s.calls[id := c.(phase := Loading(0, 0))])
  {
    VisiblePush(name);
    var c := s.calls[id];
    if c.branch == s.repo.current {
      assert s.repo.branches[c.branch := R.Head(s.repo)] == s.repo.branches;
    }
  }

  /** The load adds the table, empty. */
  lemma LoadStep(s: State, id: CallId, name: string)
    requires Waits(s, id, name, Loading(0, 0)) && name !in s.repo.working
    ensures Next(SAMPLE, s, Step(id)) ==
            State(s.repo.(working := s.repo.working[name := Table("+" + name, [])]),
                  s.calls[id := s.calls[id].(phase := Committing(0))])
  {
    VisiblePush(name);
    assert ContentLines(HEADER) <= 1 by {
      assert HEADER[..0] == [];
    }
    assert ("+" + name)[1..] == name;
  }

  /** Staging one new empty table makes a commit that adds it to the checked-out branch's head. */
  lemma CommitOne(r: R.Repo, name: string, ds: seq<Dump>)
    requires Simple(name) && R.Valid(r) && ds == [Dump(name, "+" + name, HEADER)]
    requires name in r.working && name !in R.TablesAt(r, R.Head(r))
    ensures var (t, h) := R.CommitStaged(SAMPLE, r, ds);
            && h == Some(|r.graph|) && |t.graph| == |r.graph| + 1
            && R.TablesAt(t, |r.graph|) == R.TablesAt(r, R.Head(r))[name := r.working[name]]
  {
    var head := R.TablesAt(r, R.Head(r));
    assert R.Names(ds) == {name} by {
      assert ds[0].name == name;
    }
    var user := R.Committed(head, r.working, ds);
    assert user == head[name := r.working[name]];
    assert WithDerived(SAMPLE, user) == user && UserTables(user) == user;
    assert name in user && name !in head;
  }

  lemma EndedCall(r: R.Repo, c: Call, name: string)
    requires c.commits == Push(name) && c.made == []
    ensures AfterCommit(r, c, 0, Some(|r.graph|)) == Ended(c, |r.graph|, r.current)
  {
    var h := |r.graph|;
    var more := c.(made := [Made(h, r.current)]);
    assert c.made + [Made(h, r.current)] == more.made;
    assert NextCommit(more, 1) == Finished(R.Imported(h));
  }

  /** The commit goes on top of the branch that is checked out, and the push is done. */
  lemma CommitStep(s: State, id: CallId, name: string)
    requires Waits(s, id, name, Committing(0)) && R.Valid(s.repo)
    requires name in s.repo.working && name !in R.TablesAt(s.repo, R.Head(s.repo))
    ensures var t, h := Next(SAMPLE, s, Step(id)), |s.repo.graph|;
            && R.Valid(t.repo) && t.repo.current == s.repo.current && t.repo.working == s.repo.working
            && |t.repo.graph| == h + 1 && t.repo.graph[h].parents == [R.Head(s.repo)]
            && t.repo.branches == s.repo.branches[s.repo.current := h]
            && R.TablesAt(t.repo, h) == R.TablesAt(s.repo, R.Head(s.repo))[name := s.repo.working[name]]
            && t.calls == s.calls[id := Ended(s.calls[id], h, s.repo.current)]
  {
    VisiblePush(name);
    var ds := [Dump(name, "+" + name, HEADER)];
    assert PushedTables(s.calls[id], 0) == ds;
    CommitOne(s.repo, name, ds);
    R.CommitExtends(SAMPLE, s.repo, ds);
    EndedCall(s.repo, s.calls[id], name);
  }

  // --------------------------------------------------------------------- whole pushes

  ghost predicate Reached(s: State) {
    Reachable(SAMPLE, s) && R.Valid(s.repo)
  }

  lemma Go(s: State, a: Action) returns (t: State)
    requires Reachable(SAMPLE, s) && Enabled(s, a)
    ensures Reachable(SAMPLE, t) && t == Next(SAMPLE, s, a)
  {
    t := Next(SAMPLE, s, a);
    ReachNext(SAMPLE, s, a);
  }

  /** A push at its checkout, of a new table, to the current branch or a missing one. */
  predicate AtCheckout(s: State, id: CallId, name: string) {
    && Waits(s, id, name, CheckingOut(0)) && R.Clean(s.repo) && name !in s.repo.working
    && (s.calls[id].branch == s.repo.current || s.calls[id].branch !in s.repo.branches)
  }

  /** Its checkout and its load. */
  lemma GoLoad(s: State, id: CallId, name: string) returns (t: State)
    requires Reached(s) && AtCheckout(s, id, name)
    ensures Reachable(SAMPLE, t)
    ensures var c := s.calls[id];
            t == State(R.Repo(s.repo.graph, s.repo.branches[c.branch := R.Head(s.repo)], c.branch,
                              s.repo.working[name := Table("+" + name, [])]),
                       s.calls[id := c.(phase := Committing(0))])
  {
    CheckoutStep(s, id, name);
    t := Go(s, Step(id));
    LoadStep(t, id, name);
    t := Go(t, Step(id));
  }

  /** From its checkout to its end, a push that nothing interrupts adds one commit on top of the head. */
  lemma GoPush(s: State, id: CallId, name: string) returns (t: State)
    requires Reached(s) && AtCheckout(s, id, name)
    ensures Reached(t) && Pushed(s, t, id, name, |s.repo.graph|)
  {
    t := GoLoad(s, id, name);
    CommitStep(t, id, name);
    t := Go(t, Step(id));
  }

  /** What such a push has done: commit `h` on top of the old head. */
  ghost predicate Pushed(s: State, t: State, id: CallId, name: string, h: Hash)
    requires id in s.calls
  {
    && R.Clean(t.repo) && t.repo.current == s.calls[id].branch && |t.repo.graph| == h + 1
    && t.repo.working == s.repo.working[name := Table("+" + name, [])]
    && t.repo.graph[h].parents == [R.Head(s.repo)] && R.Head(t.repo) == h
    && (forall b :: b in t.repo.branches ==> b in s.repo.branches || b == s.calls[id].branch)
    && t.calls == s.calls[id := Ended(s.calls[id], h, s.calls[id].branch)]
  }

  const FRESH := State(R.NewRepo(SAMPLE), map[])

  lemma FreshReached()
    ensures Reached(FRESH) && R.Clean(FRESH.repo) && R.TablesAt(FRESH.repo, 0) == map[]
  {
    SampleIsFaithful();
    R.NewRepoIsGrown(SAMPLE);
    assert RunTo(SAMPLE, [FRESH], [], FRESH);
  }

  /** Starts a push that names the root commit, and takes it through its head query. */
  lemma GoStart(s: State, id: CallId, name: string, branch: string, a: Action) returns (t: State)
    requires Reached(s) && Simple(name) && id !in s.calls && a in {Step(id), Unread(id)}
    requires !R.Rejected(R.HeadRead(s.repo, branch, a == Step(id)), Some(0))
    ensures Reached(t) && t.repo == s.repo && id in t.calls && t.calls == s.calls[id := t.calls[id]]
    ensures HasRead(t, id, name, branch) && t.calls[id].read == R.HeadRead(s.repo, branch, a == Step(id))
  {
    t := Go(s, Start(id, Push(name), Some(0), branch));
    QueryStep(t, id, name, a);
    t := Go(t, a);
  }

  /** A push that names the root and has made its head query. */
  predicate HasRead(s: State, id: CallId, name: string, branch: string) {
    Waits(s, id, name, CheckingOut(0)) && s.calls[id].from == Some(0) && s.calls[id].branch == branch
  }

  // ------------------------------------------------------------------------- the runs

  /**
   * Two pushes that name the same head both succeed: the second commit goes on top of the
   * first, and not of the head that its push named.
   */
  lemma BothPushesSucceed() returns (s: State)
    ensures Reachable(SAMPLE, s) && 1 in s.calls && 2 in s.calls
    ensures s.calls[1].from == s.calls[2].from == Some(0) && s.calls[1].branch == s.calls[2].branch
    ensures s.calls[1].phase == Finished(R.Imported(1)) && s.calls[2].phase == Finished(R.Imported(2))
    ensures |s.repo.graph| == 3 && s.repo.graph[2].parents == [1]
  {
    FreshReached();
    s := GoStart(FRESH, 1, "a", R.MAIN, Step(1));
    s := GoStart(s, 2, "b", R.MAIN, Step(2));
    s := GoPush(s, 1, "a");
    s := GoPush(s, 2, "b");
  }

  /** A repository whose branch has one commit after the root. */
  lemma OnePushed() returns (s: State)
    ensures Reached(s) && R.Clean(s.repo) && s.repo.current == R.MAIN && R.Head(s.repo) == 1 && |s.repo.graph| == 2
    ensures "b" !in s.repo.working && "x" !in s.repo.branches && 2 !in s.calls
  {
    FreshReached();
    s := GoStart(FRESH, 1, "a", R.MAIN, Step(1));
    s := GoPush(s, 1, "a");
  }

  /** The outcome of a second push, alone, that names the root: it succeeds on top of commit 1. */
  predicate MissedHead(s: State, branch: string) {
    && 2 in s.calls && s.calls[2].from == Some(0) && s.calls[2].branch == branch && s.calls[2].read.None?
    && s.calls[2].phase == Finished(R.Imported(2)) && |s.repo.graph| == 3 && s.repo.graph[2].parents == [1]
  }

  /**
   * A push to a branch that does not exist is not held to the head that it names: alone, it
   * succeeds on top of whatever is checked out.
   */
  lemma MissingBranchIgnoresHead() returns (s: State)
    ensures Reachable(SAMPLE, s) && MissedHead(s, "x")
  {
    s := OnePushed();
    s := GoStart(s, 2, "b", "x", Step(2));
    s := GoPush(s, 2, "b");
  }

  /** Nor is a push whose head query fails: alone, it succeeds on top of a head that it does not name. */
  lemma UnreadHeadSkipsTest() returns (s: State)
    ensures Reachable(SAMPLE, s) && MissedHead(s, R.MAIN)
  {
    s := OnePushed();
    s := GoStart(s, 2, "b", R.MAIN, Unread(2));
    s := GoPush(s, 2, "b");
  }

  /** A push has checked out its branch, and then another branch was checked out. */
  lemma ReachSwitched() returns (s: State)
    ensures Reached(s) && Waits(s, 1, "a", Loading(0, 0)) && s.calls[1].branch == R.MAIN
    ensures s.repo == R.NewRepo(SAMPLE).(current := "x", branches := map[R.MAIN := 0, "x" := 0])
    ensures R.TablesAt(s.repo, 0) == map[]
  {
    FreshReached();
    s := Go(FRESH, Serve(Create("x")));
    assert s.repo.branches == map[R.MAIN := 0, "x" := 0];
    s := GoStart(s, 1, "a", R.MAIN, Step(1));
    CheckoutStep(s, 1, "a");
    s := Go(s, Step(1));
    assert s.repo.branches == map[R.MAIN := 0, "x" := 0];
    s := Go(s, Serve(Switch("x")));
  }

  /**
   * A branch switch between a push's checkout and its commit moves the commit to another
   * branch: the push succeeds and its own branch has not moved.
   */
  lemma CheckoutMovesCommit() returns (s: State)
    ensures Reachable(SAMPLE, s) && 1 in s.calls && s.calls[1].branch == R.MAIN
    ensures s.calls[1].phase == Finished(R.Imported(1)) && s.repo.branches == map[R.MAIN := 0, "x" := 1]
  {
    s := ReachSwitched();
    LoadStep(s, 1, "a");
    s := Go(s, Step(1));
    CommitStep(s, 1, "a");
    s := Go(s, Step(1));
  }
}
