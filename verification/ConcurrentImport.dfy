/**
 * Any number of `importCommits` calls on one repository, interleaved with each
 * other and with the commands of the branch and merge services: the import takes
 * no mutex between reading the head and its last commit.  One action is a stage of
 * a call: its head query, the checkout (and creation) of its branch, one table
 * from its DDL to its rows, or the add and the commit.
 */
module ConcurrentImport {
  import opened Common
  import opened CommitGraph
  import opened CommitTables
  import R = DoltRepo

  /** The next command of a call: `n` is the pushed commit, `k` its next visible table. */
  datatype Phase =
    | ReadingHead
    | CheckingOut(n: nat)
    | Loading(n: nat, k: nat)
    | Committing(n: nat)
    | Finished(outcome: R.Outcome)

  /** A commit that a call made, and the branch that it moved. */
  datatype Made = Made(commit: Hash, branch: string)

  /** `read` is the head that the call has read, if any, and `tip` where its commits would have gone on from then. */
  datatype Call = Call(
    commits: seq<R.Pushed>,
    from: Option<Hash>,
    branch: string,
    read: Option<Hash>,
    tip: Hash,
    made: seq<Made>,
    phase: Phase)

  type CallId = nat

  datatype State = State(repo: R.Repo, calls: map<CallId, Call>)

  /**
   * Commands of the branch and merge services: `Combine` is a merge that makes a commit, and
   * `Rewrite` one that touches the working set alone, as a merge with conflicts and an abort do.
   */
  datatype Service =
    | Create(branch: string)
    | Switch(branch: string)
    | Delete(branch: string)
    | FastForward(source: string)
    | Combine(source: string, tables: Tables)
    | Rewrite(working: Tables)

  datatype Action =
    | Start(call: CallId, commits: seq<R.Pushed>, from: Option<Hash>, branch: string)
    | Step(call: CallId)
    | Unread(call: CallId)
    | Fail(call: CallId)
    | Serve(service: Service)

  ghost predicate CanServe(r: R.Repo, a: Service) {
    match a
    case Create(b) => b !in r.branches
    case Switch(b) => b in r.branches
    case Delete(b) => b in r.branches && b != r.current && b != R.MAIN
    case FastForward(b) =>
      && R.Valid(r) && b in r.branches && R.Clean(r)
      && Ancestor(r.graph, r.branches[r.current], r.branches[b])
    case Combine(b, _) => R.Valid(r) && b in r.branches && R.Clean(r)
    case Rewrite(_) => true
  }

  function Max(a: nat, b: nat): nat {
    if a < b then b else a
  }

  function Serving(e: Engine, r: R.Repo, a: Service): R.Repo
    requires CanServe(r, a)
  {
    match a
    case Create(b) => r.(branches := r.branches[b := R.Head(r)])
    case Switch(b) => R.Checkout(r, b).0
    case Delete(b) => r.(branches := r.branches - {b})
    case FastForward(b) =>
      var h := r.branches[b];
      r.(branches := r.branches[r.current := h], working := R.TablesAt(r, h))
    case Combine(b, tables) =>
      var ours, theirs := r.branches[r.current], r.branches[b];
      var c := Commit([ours, theirs], Max(r.graph[ours].order, r.graph[theirs].order) + 1, tables);
      r.(graph := r.graph + [c], branches := r.branches[r.current := |r.graph|], working := UserTables(tables))
    case Rewrite(working) => r.(working := working)
  }

  ghost predicate Enabled(s: State, a: Action) {
    match a
    case Start(id, _, _, _) => id !in s.calls
    case Step(id) => id in s.calls && !s.calls[id].phase.Finished?
    case Unread(id) => id in s.calls && s.calls[id].phase.ReadingHead?
    case Fail(id) => id in s.calls && !s.calls[id].phase.Finished? && !s.calls[id].phase.ReadingHead?
    case Serve(service) => CanServe(s.repo, service)
  }

  /** The next pushed commit that carries tables, or the end of the loop. */
  function NextCommit(c: Call, n: nat): Phase
    decreases |c.commits| - n
  {
    if n >= |c.commits| then
      Finished(if c.made == [] then R.NoTableData else R.Imported(c.made[|c.made| - 1].commit))
    else if c.commits[n].tables == [] then NextCommit(c, n + 1)
    else CheckingOut(n)
  }

  function PushedTables(c: Call, n: nat): seq<Dump> {
    if n < |c.commits| then Visible(c.commits[n].tables) else []
  }

  function NextTable(c: Call, n: nat, k: nat): Phase {
    if k < |PushedTables(c, n)| then Loading(n, k) else Committing(n)
  }

  /** After the head query, which is `answered` or fails; either way a call without a head goes on. */
  function AfterRead(r: R.Repo, c: Call, answered: bool): Call {
    var head := R.HeadRead(r, c.branch, answered);
    var read := c.(read := head, tip := R.Tip(r, c.branch));
    read.(phase :=
      if c.commits == [] then Finished(R.NoCommits)
      else if R.Rejected(head, c.from) then Finished(R.NonFastForward(head.value))
      else NextCommit(read, 0))
  }

  function AfterCommit(r: R.Repo, c: Call, n: nat, h: Option<Hash>): Call {
    if h.None? then c.(phase := Finished(R.CommandFailed))
    else
      var more := c.(made := c.made + [Made(h.value, r.current)]);
      more.(phase := NextCommit(more, n + 1))
  }

  /** One command of a call: the repository and the call after it. */
  function Perform(e: Engine, r: R.Repo, c: Call): (R.Repo, Call) {
    match c.phase
    case ReadingHead => (r, AfterRead(r, c, true))
    case CheckingOut(n) =>
      var (out, ok) := R.Checkout(r, c.branch);
      (out, c.(phase := if ok then NextTable(c, n, 0) else Finished(R.CommandFailed)))
    case Loading(n, k) =>
      if k >= |PushedTables(c, n)| then (r, c.(phase := Committing(n)))
      else
        var (working, ok) := ImportTable(e, r.working, PushedTables(c, n)[k]);
        (r.(working := working), c.(phase := if ok then NextTable(c, n, k + 1) else Finished(R.CommandFailed)))
    case Committing(n) =>
      var (out, h) := R.CommitStaged(e, r, PushedTables(c, n));
      (out, AfterCommit(r, c, n, h))
    case Finished(_) => (r, c)
  }

  function Next(e: Engine, s: State, a: Action): State
    requires Enabled(s, a)
  {
    match a
    case Start(id, commits, from, branch) => s.(calls := s.calls[id := Call(commits, from, branch, None, 0, [], ReadingHead)])
    case Step(id) =>
      var (repo, c) := Perform(e, s.repo, s.calls[id]);
      State(repo, s.calls[id := c])
    case Unread(id) => s.(calls := s.calls[id := AfterRead(s.repo, s.calls[id], false)])
    case Fail(id) => s.(calls := s.calls[id := s.calls[id].(phase := Finished(R.CommandFailed))])
    case Serve(service) => s.(repo := Serving(e, s.repo, service))
  }

  ghost predicate StepAt(e: Engine, run: seq<State>, acts: seq<Action>, i: nat) {
    i < |acts| && i + 1 < |run| && Enabled(run[i], acts[i]) && run[i + 1] == Next(e, run[i], acts[i])
  }

  /** A run from a valid repository without calls. */
  ghost predicate IsRun(e: Engine, run: seq<State>, acts: seq<Action>) {
    && |run| == |acts| + 1
    && R.Valid(run[0].repo) && run[0].calls == map[]
    && forall i: nat :: i < |acts| ==> StepAt(e, run, acts, i)
  }

  // ---------------------------------------------------------- no commit is lost

  lemma PerformValid(e: Engine, r: R.Repo, c: Call)
    requires R.Valid(r)
    ensures R.Valid(Perform(e, r, c).0) && r.graph <= Perform(e, r, c).0.graph
  {
    match c.phase
    case CheckingOut(n) => R.CheckoutKeeps(e, r, c.branch);
    case Committing(n) => R.CommitExtends(e, r, PushedTables(c, n));
    case _ =>
  }

  lemma ServingValid(e: Engine, r: R.Repo, a: Service)
    requires R.Valid(r) && CanServe(r, a)
    ensures R.Valid(Serving(e, r, a)) && r.graph <= Serving(e, r, a).graph
  {
    if a.Switch? {
      R.CheckoutKeeps(e, r, a.branch);
    }
  }

  lemma {:induction false} RunValid(e: Engine, run: seq<State>, acts: seq<Action>, k: nat)
    requires IsRun(e, run, acts) && k < |run|
    ensures R.Valid(run[k].repo)
  {
    if k > 0 {
      RunValid(e, run, acts, k - 1);
      ValidStep(e, run, acts, k - 1);
    }
  }

  lemma ValidStep(e: Engine, run: seq<State>, acts: seq<Action>, k: nat)
    requires IsRun(e, run, acts) && k < |acts| && R.Valid(run[k].repo)
    ensures R.Valid(run[k + 1].repo) && run[k].repo.graph <= run[k + 1].repo.graph
  {
    assert StepAt(e, run, acts, k);
    match acts[k]
    case Step(id) => PerformValid(e, run[k].repo, run[k].calls[id]);
    case Serve(service) => ServingValid(e, run[k].repo, service);
    case _ =>
  }

  /** A branch is still there, and has not gone back. */
  ghost predicate Advances(r: R.Repo, t: R.Repo, branch: string)
    requires R.Valid(r) && R.Valid(t) && r.graph <= t.graph
  {
    branch in r.branches ==>
      branch in t.branches && Ancestor(t.graph, r.branches[branch], t.branches[branch])
  }

  lemma SameAdvances(r: R.Repo, t: R.Repo, branch: string)
    requires R.Valid(r) && R.Valid(t) && r.graph <= t.graph
    requires branch in r.branches ==> branch in t.branches && t.branches[branch] == r.branches[branch]
    ensures Advances(r, t, branch)
  {
    if branch in r.branches {
      assert Ancestor(t.graph, r.branches[branch], r.branches[branch]);
    }
  }

  lemma PerformAdvances(e: Engine, r: R.Repo, c: Call, branch: string)
    requires R.Valid(r)
    ensures R.Valid(Perform(e, r, c).0) && r.graph <= Perform(e, r, c).0.graph && Advances(r, Perform(e, r, c).0, branch)
  {
    PerformValid(e, r, c);
    var t := Perform(e, r, c).0;
    match c.phase
    case CheckingOut(n) =>
      R.CheckoutKeeps(e, r, c.branch);
      SameAdvances(r, t, branch);
    case Committing(n) =>
      R.CommitExtends(e, r, PushedTables(c, n));
      if branch == r.current && t != r {
        var h := R.Head(r);
        assert Ancestor(r.graph, h, h);
        R.ExtendsKeepsTip(r.graph, t.graph, h, h, |r.graph|);
      } else {
        SameAdvances(r, t, branch);
      }
    case _ => SameAdvances(r, t, branch);
  }

  lemma ServingAdvances(e: Engine, r: R.Repo, a: Service, branch: string)
    requires R.Valid(r) && CanServe(r, a) && a != Delete(branch)
    ensures R.Valid(Serving(e, r, a)) && r.graph <= Serving(e, r, a).graph && Advances(r, Serving(e, r, a), branch)
  {
    ServingValid(e, r, a);
    var t := Serving(e, r, a);
    if a.Combine? && branch == r.current {
      var h := r.branches[branch];
      assert t.graph[|r.graph|].parents[0] == h;
      assert Ancestor(t.graph, h, h);
      assert Ancestor(t.graph, h, |r.graph|);
    } else if !a.FastForward? || branch != r.current {
      if a.Switch? {
        R.CheckoutKeeps(e, r, a.branch);
      }
      SameAdvances(r, t, branch);
    }
  }

  lemma AdvancesStep(e: Engine, run: seq<State>, acts: seq<Action>, k: nat, branch: string)
    requires IsRun(e, run, acts) && k < |acts| && acts[k] != Serve(Delete(branch))
    ensures R.Valid(run[k].repo) && R.Valid(run[k + 1].repo) && run[k].repo.graph <= run[k + 1].repo.graph
    ensures Advances(run[k].repo, run[k + 1].repo, branch)
  {
    RunValid(e, run, acts, k);
    ValidStep(e, run, acts, k);
    assert StepAt(e, run, acts, k);
    match acts[k]
    case Step(id) => PerformAdvances(e, run[k].repo, run[k].calls[id], branch);
    case Serve(service) => ServingAdvances(e, run[k].repo, service, branch);
    case _ => SameAdvances(run[k].repo, run[k + 1].repo, branch);
  }

  /**
   * However pushes, branch calls and merges interleave, no commit is orphaned: until it is
   * deleted, a branch only advances, and every commit once on it stays on it.
   */
  lemma {:induction false} BranchOnlyAdvances(e: Engine, run: seq<State>, acts: seq<Action>, i: nat, k: nat, branch: string)
    requires IsRun(e, run, acts) && i <= k < |run| && branch in run[i].repo.branches
    requires forall j :: i <= j < k ==> acts[j] != Serve(Delete(branch))
    ensures R.Valid(run[i].repo) && R.Valid(run[k].repo) && run[i].repo.graph <= run[k].repo.graph
    ensures branch in run[k].repo.branches
    ensures Ancestor(run[k].repo.graph, run[i].repo.branches[branch], run[k].repo.branches[branch])
    decreases k - i
  {
    RunValid(e, run, acts, i);
    if i < k {
      BranchOnlyAdvances(e, run, acts, i, k - 1, branch);
      AdvancesStep(e, run, acts, k - 1, branch);
      var g, g' := run[k - 1].repo.graph, run[k].repo.graph;
      var a, b, h := run[i].repo.branches[branch], run[k - 1].repo.branches[branch], run[k].repo.branches[branch];
      AncestorExtend(g, g', a, b);
      AncestorTransitive(g', a, b, h);
    } else {
      var h := run[i].repo.branches[branch];
      assert Ancestor(run[i].repo.graph, h, h);
    }
  }

  // --------------------------------------------------------- the fast-forward promise

  /** The commit that the next one of a call should have as its parent, if they are to start on `base`. */
  function Expected(c: Call, base: Hash): Hash {
    if c.made == [] then base else c.made[|c.made| - 1].commit
  }

  /** The commits of a call form a chain on its branch, on top of `base`. */
  ghost predicate OnTop(g: Graph<Tables>, c: Call, base: Hash) {
    forall i :: 0 <= i < |c.made| ==> MadeOnTop(g, c, base, i)
  }

  predicate MadeOnTop(g: Graph<Tables>, c: Call, base: Hash, i: nat)
    requires i < |c.made|
  {
    && c.made[i].branch == c.branch && c.made[i].commit < |g|
    && g[c.made[i].commit].parents == [if i == 0 then base else c.made[i - 1].commit]
  }

  /** The call makes a commit in this step. */
  predicate Commits(e: Engine, s: State, a: Action, id: CallId) {
    && a == Step(id) && id in s.calls && s.calls[id].phase.Committing?
    && R.CommitStaged(e, s.repo, PushedTables(s.calls[id], s.calls[id].phase.n)).1.Some?
  }

  /** Its branch is checked out, and stands at `base` or where the call left it. */
  predicate InPlace(s: State, id: CallId, base: Hash) {
    id in s.calls && s.repo.current == s.calls[id].branch && R.Head(s.repo) == Expected(s.calls[id], base)
  }

  /** What a call still in progress has read: the tip, if anything, and not another head than the one it names. */
  predicate ReadFits(c: Call) {
    && (c.read.Some? ==> c.read.value == c.tip)
    && (c.phase.ReadingHead? ==> c.made == [])
    && (c.made != [] || c.phase.CheckingOut? || c.phase.Loading? || c.phase.Committing? ==> !R.Rejected(c.read, c.from))
  }

  /** The commits of a call are in the graph. */
  ghost predicate CallOk(s: State, id: CallId) {
    id in s.calls ==>
      && ReadFits(s.calls[id])
      && forall i :: 0 <= i < |s.calls[id].made| ==> s.calls[id].made[i].commit < |s.repo.graph|
  }

  /** What a step adds to the commits of a call. */
  ghost predicate GrowsBy(e: Engine, s: State, t: State, a: Action, id: CallId) {
    && id in s.calls && id in t.calls && s.repo.graph <= t.repo.graph
    && t.calls[id].branch == s.calls[id].branch && t.calls[id].from == s.calls[id].from
    && (!s.calls[id].phase.ReadingHead? ==>
          t.calls[id].tip == s.calls[id].tip && t.calls[id].read == s.calls[id].read && !t.calls[id].phase.ReadingHead?)
    && (Commits(e, s, a, id) ==>
          && t.calls[id].made == s.calls[id].made + [Made(|s.repo.graph|, s.repo.current)]
          && |t.repo.graph| > |s.repo.graph| && t.repo.graph[|s.repo.graph|].parents == [R.Head(s.repo)])
    && (!Commits(e, s, a, id) ==> t.calls[id].made == s.calls[id].made)
  }

  lemma NextCommitPhase(c: Call, n: nat)
    ensures NextCommit(c, n).CheckingOut? || NextCommit(c, n).Finished?
    decreases |c.commits| - n
  {
    if n < |c.commits| && c.commits[n].tables == [] {
      NextCommitPhase(c, n + 1);
    }
  }

  lemma ReadStep(r: R.Repo, c: Call, answered: bool)
    requires c.phase.ReadingHead? && ReadFits(c)
    ensures var c' := AfterRead(r, c, answered);
            && ReadFits(c') && !c'.phase.ReadingHead? && !c'.phase.Loading? && !c'.phase.Committing?
            && c'.made == [] && c'.tip == R.Tip(r, c.branch) && c'.branch == c.branch && c'.from == c.from
  {
    NextCommitPhase(c.(read := R.HeadRead(r, c.branch, answered), tip := R.Tip(r, c.branch)), 0);
  }

  lemma OwnStep(e: Engine, s: State, id: CallId)
    requires R.Valid(s.repo) && Enabled(s, Step(id)) && CallOk(s, id)
    requires s.repo.graph <= Perform(e, s.repo, s.calls[id]).0.graph
    ensures GrowsBy(e, s, Next(e, s, Step(id)), Step(id), id) && CallOk(Next(e, s, Step(id)), id)
  {
    var c := s.calls[id];
    match c.phase
    case ReadingHead => ReadStep(s.repo, c, true);
    case Committing(n) =>
      R.CommitExtends(e, s.repo, PushedTables(c, n));
      var h := R.CommitStaged(e, s.repo, PushedTables(c, n)).1;
      if h.Some? {
        NextCommitPhase(c.(made := c.made + [Made(h.value, s.repo.current)]), n + 1);
      }
    case _ =>
  }

  lemma CallStep(e: Engine, s: State, a: Action, id: CallId)
    requires R.Valid(s.repo) && Enabled(s, a) && CallOk(s, id) && s.repo.graph <= Next(e, s, a).repo.graph
    ensures CallOk(Next(e, s, a), id)
    ensures id in s.calls ==> GrowsBy(e, s, Next(e, s, a), a, id)
  {
    if a == Step(id) {
      OwnStep(e, s, id);
    } else if a == Unread(id) {
      ReadStep(s.repo, s.calls[id], false);
    }
  }

  lemma {:induction false} RunCalls(e: Engine, run: seq<State>, acts: seq<Action>, k: nat, id: CallId)
    requires IsRun(e, run, acts) && k < |run|
    ensures CallOk(run[k], id)
  {
    if k > 0 {
      RunCalls(e, run, acts, k - 1, id);
      CallAt(e, run, acts, k - 1, id);
    }
  }

  lemma CallAt(e: Engine, run: seq<State>, acts: seq<Action>, k: nat, id: CallId)
    requires IsRun(e, run, acts) && k < |acts| && CallOk(run[k], id)
    ensures CallOk(run[k + 1], id)
    ensures id in run[k].calls ==> GrowsBy(e, run[k], run[k + 1], acts[k], id)
    ensures id !in run[k].calls && id in run[k + 1].calls ==> run[k + 1].calls[id].made == []
  {
    RunValid(e, run, acts, k);
    ValidStep(e, run, acts, k);
    assert StepAt(e, run, acts, k);
    CallStep(e, run[k], acts[k], id);
  }

  lemma OnTopGrows(e: Engine, s: State, t: State, a: Action, id: CallId, base: Hash)
    requires CallOk(s, id) && GrowsBy(e, s, t, a, id)
    ensures OnTop(t.repo.graph, t.calls[id], base) <==>
            OnTop(s.repo.graph, s.calls[id], base) && (Commits(e, s, a, id) ==> InPlace(s, id, base))
  {
    var c, c', g, g' := s.calls[id], t.calls[id], s.repo.graph, t.repo.graph;
    forall i | 0 <= i < |c.made|
      ensures MadeOnTop(g', c', base, i) <==> MadeOnTop(g, c, base, i)
    {
      assert c'.made[i] == c.made[i] && g'[c.made[i].commit] == g[c.made[i].commit];
      assert i > 0 ==> c'.made[i - 1] == c.made[i - 1];
    }
    if Commits(e, s, a, id) {
      var n := |c.made|;
      assert c'.made[n] == Made(|g|, s.repo.current);
      assert n > 0 ==> c'.made[n - 1] == c.made[n - 1];
      assert MadeOnTop(g', c', base, n) <==> InPlace(s, id, base);
    }
  }

  /** Each commit step of the call before `k` found its branch checked out, at `base` or where the call left it. */
  ghost predicate Undisturbed(e: Engine, run: seq<State>, acts: seq<Action>, k: nat, id: CallId, base: Hash)
    requires |run| == |acts| + 1 && k < |run|
  {
    forall j: nat :: j < k && Commits(e, run[j], acts[j], id) ==> InPlace(run[j], id, base)
  }

  /** The commits of a call form a chain on `base` exactly when each of them found its branch in place. */
  lemma {:induction false} OnTopIff(e: Engine, run: seq<State>, acts: seq<Action>, k: nat, id: CallId, base: Hash)
    requires IsRun(e, run, acts) && k < |run| && id in run[k].calls
    ensures OnTop(run[k].repo.graph, run[k].calls[id], base) <==> Undisturbed(e, run, acts, k, id, base)
  {
    if k > 0 {
      RunCalls(e, run, acts, k - 1, id);
      CallAt(e, run, acts, k - 1, id);
      if id in run[k - 1].calls {
        OnTopIff(e, run, acts, k - 1, id, base);
        OnTopGrows(e, run[k - 1], run[k], acts[k - 1], id, base);
      } else {
        NeverStarted(e, run, acts, k - 1, id);
      }
    }
  }

  lemma {:induction false} NeverStarted(e: Engine, run: seq<State>, acts: seq<Action>, k: nat, id: CallId)
    requires IsRun(e, run, acts) && k < |run| && id !in run[k].calls
    ensures forall j: nat :: j <= k ==> id !in run[j].calls
  {
    if k > 0 {
      RunCalls(e, run, acts, k - 1, id);
      CallAt(e, run, acts, k - 1, id);
      NeverStarted(e, run, acts, k - 1, id);
    }
  }

  /** What a push that names a head promises: its commits form a chain on its branch, on top of that head. */
  ghost predicate KeepsPromise(g: Graph<Tables>, c: Call)
    requires c.from.Some?
  {
    OnTop(g, c, c.from.value)
  }

  /**
   * Over every run, a push that names a head keeps its fast-forward promise exactly when each
   * of its commits finds its branch checked out, at that head for the first commit and where
   * the push left it for the others; the test at the start does not see to that.
   */
  lemma FastForwardIff(e: Engine, run: seq<State>, acts: seq<Action>, k: nat, id: CallId)
    requires IsRun(e, run, acts) && k < |run| && id in run[k].calls && run[k].calls[id].from.Some?
    ensures KeepsPromise(run[k].repo.graph, run[k].calls[id]) <==>
            Undisturbed(e, run, acts, k, id, run[k].calls[id].from.value)
  {
    OnTopIff(e, run, acts, k, id, run[k].calls[id].from.value);
  }

  // ------------------------------------------------------------ when nobody interferes

  predicate HasCheckedOut(c: Call) {
    c.phase.Loading? || c.phase.Committing?
  }

  /** A step moves the call's branch, or takes the checkout away from under it. */
  predicate Disturbs(s: State, t: State, id: CallId) {
    id in s.calls &&
    (|| R.Tip(t.repo, s.calls[id].branch) != R.Tip(s.repo, s.calls[id].branch)
     || (HasCheckedOut(s.calls[id]) && t.repo.current != s.repo.current))
  }

  /** Past its head read, with its branch where it expects it. */
  predicate Steady(s: State, id: CallId) {
    && id in s.calls && !s.calls[id].phase.ReadingHead?
    && (!s.calls[id].phase.Finished? ==> R.Tip(s.repo, s.calls[id].branch) == Expected(s.calls[id], s.calls[id].tip))
    && (HasCheckedOut(s.calls[id]) ==> s.repo.current == s.calls[id].branch)
  }

  lemma SteadyOwn(e: Engine, s: State, id: CallId)
    requires R.Valid(s.repo) && Enabled(s, Step(id)) && CallOk(s, id) && Steady(s, id)
    ensures Steady(Next(e, s, Step(id)), id)
  {
    var c := s.calls[id];
    match c.phase
    case CheckingOut(n) => R.CheckoutKeeps(e, s.repo, c.branch);
    case Committing(n) =>
      R.CommitExtends(e, s.repo, PushedTables(c, n));
      var h := R.CommitStaged(e, s.repo, PushedTables(c, n)).1;
      if h.Some? {
        NextCommitPhase(c.(made := c.made + [Made(h.value, s.repo.current)]), n + 1);
      }
    case _ =>
  }

  /** The head query of a call, answered or not. */
  predicate Reads(s: State, a: Action, id: CallId) {
    id in s.calls && s.calls[id].phase.ReadingHead? && (a == Step(id) || a == Unread(id))
  }

  lemma SteadyStep(e: Engine, run: seq<State>, acts: seq<Action>, j: nat, id: CallId)
    requires IsRun(e, run, acts) && j < |acts|
    requires Reads(run[j], acts[j], id) || (Steady(run[j], id) && (acts[j] == Step(id) || !Disturbs(run[j], run[j + 1], id)))
    ensures Steady(run[j + 1], id)
    ensures Commits(e, run[j], acts[j], id) ==> InPlace(run[j], id, run[j].calls[id].tip)
  {
    RunValid(e, run, acts, j);
    RunCalls(e, run, acts, j, id);
    assert StepAt(e, run, acts, j);
    if Reads(run[j], acts[j], id) {
      ReadStep(run[j].repo, run[j].calls[id], acts[j] == Step(id));
    } else if acts[j] == Step(id) {
      SteadyOwn(e, run[j], id);
    }
  }

  /** From its head read on nobody else moves its branch, or checks out another one while it loads and commits. */
  ghost predicate Alone(run: seq<State>, acts: seq<Action>, i: nat, k: nat, id: CallId)
    requires |run| == |acts| + 1 && k < |run|
  {
    i < k && Reads(run[i], acts[i], id) &&
    forall j: nat :: i < j < k && acts[j] != Step(id) ==> !Disturbs(run[j], run[j + 1], id)
  }

  /** A push that is left alone chains on the tip that its branch had when it read the head. */
  lemma {:induction false} AloneIsOnTip(e: Engine, run: seq<State>, acts: seq<Action>, i: nat, k: nat, id: CallId)
    requires IsRun(e, run, acts) && k < |run| && Alone(run, acts, i, k, id)
    ensures Steady(run[k], id) && OnTop(run[k].repo.graph, run[k].calls[id], run[k].calls[id].tip)
    decreases k - i
  {
    RunCalls(e, run, acts, k - 1, id);
    if k > i + 1 {
      AloneIsOnTip(e, run, acts, i, k - 1, id);
    }
    CallAt(e, run, acts, k - 1, id);
    SteadyStep(e, run, acts, k - 1, id);
    OnTopGrows(e, run[k - 1], run[k], acts[k - 1], id, run[k].calls[id].tip);
  }

  /**
   * A push that names a head, is left alone and has committed keeps its promise if and only
   * if it read that head, or read none, because the branch was missing or the query failed,
   * while the tip that it went on from was that head.
   */
  lemma AloneIsFastForwardIff(e: Engine, run: seq<State>, acts: seq<Action>, i: nat, k: nat, id: CallId)
    requires IsRun(e, run, acts) && k < |run| && Alone(run, acts, i, k, id)
    requires id in run[k].calls && run[k].calls[id].from.Some? && run[k].calls[id].made != []
    ensures var c := run[k].calls[id];
            KeepsPromise(run[k].repo.graph, c) <==> c.read == c.from || (c.read.None? && c.tip == c.from.value)
  {
    AloneIsOnTip(e, run, acts, i, k, id);
    RunCalls(e, run, acts, k, id);
    var g, c := run[k].repo.graph, run[k].calls[id];
    assert MadeOnTop(g, c, c.tip, 0);
    if KeepsPromise(g, c) {
      assert MadeOnTop(g, c, c.from.value, 0);
    }
  }

  // ------------------------------------------------------------ reachable states

  /** Some run ends in this state. */
  ghost predicate Reachable(e: Engine, s: State) {
    exists run, acts :: RunTo(e, run, acts, s)
  }

  ghost predicate RunTo(e: Engine, run: seq<State>, acts: seq<Action>, s: State) {
    IsRun(e, run, acts) && run[|acts|] == s
  }

  /** Any enabled action leads to a reachable state again. */
  lemma ReachNext(e: Engine, s: State, a: Action)
    requires Reachable(e, s) && Enabled(s, a)
    ensures Reachable(e, Next(e, s, a))
  {
    var run, acts :| RunTo(e, run, acts, s);
    var run', acts' := run + [Next(e, s, a)], acts + [a];
    forall i: nat | i < |acts'|
      ensures StepAt(e, run', acts', i)
    {
      if i < |acts| {
        assert StepAt(e, run, acts, i);
      }
    }
    assert RunTo(e, run', acts', Next(e, s, a));
  }

  // ------------------------------------------------------------ what surrounds the pushes

  /** What the commands of the branch and merge services do to branches, commits and the working set. */
  lemma ServiceMeans(e: Engine, r: R.Repo, a: Service)
    requires R.Valid(r) && CanServe(r, a)
    ensures var t := Serving(e, r, a);
            match a
            case Create(b) => t == r.(branches := r.branches[b := r.branches[r.current]])
            case Switch(b) => t == R.Checkout(r, b).0
            case Delete(b) => b !in t.branches && b != r.current && t == r.(branches := t.branches)
                              && forall k :: k in r.branches && k != b ==> k in t.branches && t.branches[k] == r.branches[k]
            case FastForward(b) => t.graph == r.graph && t.branches == r.branches[r.current := r.branches[b]] && R.Clean(t)
                                   && t.current == r.current
            case Combine(b, tables) =>
              && t.graph[..|r.graph|] == r.graph && |t.graph| == |r.graph| + 1
              && t.graph[|r.graph|].parents == [r.branches[r.current], r.branches[b]] && t.graph[|r.graph|].tables == tables
              && t.branches == r.branches[r.current := |r.graph|] && t.current == r.current && R.Clean(t)
            case Rewrite(working) => t == r.(working := working)
  {
  }

  /** A call whose command fails ends there, without touching the repository. */
  lemma FailEnds(e: Engine, run: seq<State>, acts: seq<Action>, k: nat)
    requires IsRun(e, run, acts) && k < |acts| && acts[k].Fail?
    ensures acts[k].call in run[k + 1].calls && run[k + 1].calls[acts[k].call].phase == Finished(R.CommandFailed)
    ensures run[k + 1].repo == run[k].repo
  {
    assert StepAt(e, run, acts, k);
  }
}
