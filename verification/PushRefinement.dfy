/**
 * The stages of an interleaved push, taken one after the other with nothing in between,
 * are the push that runs alone.
 */
module PushRefinement {
  import opened Common
  import opened CommitGraph
  import opened CommitTables
  import opened ConcurrentImport
  import R = DoltRepo

  // ------------------------------------------------------------- what is left of a loop

  /** The tables from the `k`th on. */
  function LoadRest(e: Engine, ws: Tables, ds: seq<Dump>, k: nat): (Tables, bool)
    decreases |ds| - k
  {
    if k >= |ds| then (ws, true)
    else
      var (next, ok) := ImportTable(e, ws, ds[k]);
      if ok then LoadRest(e, next, ds, k + 1) else (next, false)
  }

  lemma {:induction false} LoadRestIsAll(e: Engine, ws: Tables, ds: seq<Dump>, k: nat)
    requires k <= |ds| && ImportTables(e, ws, ds[..k]).1
    ensures LoadRest(e, ImportTables(e, ws, ds[..k]).0, ds, k) == ImportTables(e, ws, ds)
    decreases |ds| - k
  {
    if k == |ds| {
      assert ds[..k] == ds;
    } else {
      assert ds[..k + 1][..k] == ds[..k];
      if ImportTables(e, ws, ds[..k + 1]).1 {
        LoadRestIsAll(e, ws, ds, k + 1);
      } else {
        FailedStays(e, ws, ds, k + 1);
      }
    }
  }

  lemma {:induction false} FailedStays(e: Engine, ws: Tables, ds: seq<Dump>, n: nat)
    requires n <= |ds| && !ImportTables(e, ws, ds[..n]).1
    ensures ImportTables(e, ws, ds) == ImportTables(e, ws, ds[..n])
  {
    if n < |ds| {
      assert ds[..|ds| - 1][..n] == ds[..n];
      FailedStays(e, ws, ds[..|ds| - 1], n);
    } else {
      assert ds[..n] == ds;
    }
  }

  /** The pushed commits from the `n`th on. */
  function ImportRest(e: Engine, p: R.Progress, commits: seq<R.Pushed>, branch: string, n: nat): R.Progress
    decreases |commits| - n
  {
    if n >= |commits| then p
    else ImportRest(e, R.ImportNext(e, p, commits[n].tables, branch), commits, branch, n + 1)
  }

  lemma {:induction false} ImportRestIsAll(e: Engine, r: R.Repo, commits: seq<R.Pushed>, branch: string, n: nat)
    requires n <= |commits|
    ensures ImportRest(e, R.ImportEach(e, r, commits[..n], branch), commits, branch, n) == R.ImportEach(e, r, commits, branch)
    decreases |commits| - n
  {
    if n == |commits| {
      assert commits[..n] == commits;
    } else {
      R.ImportEachNext(e, r, commits, branch, n);
      ImportRestIsAll(e, r, commits, branch, n + 1);
    }
  }

  lemma {:induction false} FailedRest(e: Engine, p: R.Progress, commits: seq<R.Pushed>, branch: string, n: nat)
    requires !p.ok
    ensures ImportRest(e, p, commits, branch, n) == p
    decreases |commits| - n
  {
    if n < |commits| {
      FailedRest(e, p, commits, branch, n + 1);
    }
  }

  // ---------------------------------------------------------------- what is left of a call

  function LastMade(c: Call): Option<Hash> {
    if c.made == [] then None else Some(c.made[|c.made| - 1].commit)
  }

  function OutcomeOf(p: R.Progress): (R.Repo, R.Outcome) {
    (p.repo, if !p.ok then R.CommandFailed else if p.last.None? then R.NoTableData else R.Imported(p.last.value))
  }

  /** The commit at which a call stands, from its staging on. */
  function CommitFrom(e: Engine, r: R.Repo, c: Call, n: nat): R.Progress {
    var (out, h) := R.CommitStaged(e, r, PushedTables(c, n));
    if h.None? then R.Progress(out, LastMade(c), false) else R.Progress(out, h, true)
  }

  /** The same from its `k`th table on. */
  function LoadFrom(e: Engine, r: R.Repo, c: Call, n: nat, k: nat): R.Progress {
    var (working, ok) := LoadRest(e, r.working, PushedTables(c, n), k);
    if ok then CommitFrom(e, r.(working := working), c, n) else R.Progress(r.(working := working), LastMade(c), false)
  }

  /** How a call ends, and in which repository, if nothing else happens any more. */
  function Ending(e: Engine, r: R.Repo, c: Call): (R.Repo, R.Outcome) {
    match c.phase
    case ReadingHead => R.ImportCommits(e, r, c.commits, c.from, true, c.branch)
    case CheckingOut(n) => OutcomeOf(ImportRest(e, R.Progress(r, LastMade(c), true), c.commits, c.branch, n))
    case Loading(n, k) => OutcomeOf(ImportRest(e, LoadFrom(e, r, c, n, k), c.commits, c.branch, n + 1))
    case Committing(n) => OutcomeOf(ImportRest(e, CommitFrom(e, r, c, n), c.commits, c.branch, n + 1))
    case Finished(outcome) => (r, outcome)
  }

  /** A call stands at a commit with tables, if at any, and has made commits only after its head query. */
  predicate Standing(c: Call) {
    match c.phase
    case ReadingHead => c.made == []
    case CheckingOut(n) => n < |c.commits| && c.commits[n].tables != []
    case Loading(n, k) => n < |c.commits| && c.commits[n].tables != [] && k <= |PushedTables(c, n)|
    case Committing(n) => n < |c.commits| && c.commits[n].tables != []
    case Finished(_) => true
  }

  /** Which commit comes next depends on the push and on what has been committed. */
  lemma {:induction false} NextCommitSame(c: Call, c': Call, n: nat)
    requires c.commits == c'.commits && c.made == c'.made
    ensures NextCommit(c, n) == NextCommit(c', n)
    decreases |c.commits| - n
  {
    if n < |c.commits| {
      NextCommitSame(c, c', n + 1);
    }
  }

  /** Skipping to the next commit with tables changes nothing about the end. */
  lemma {:induction false} SkipsEmpty(e: Engine, r: R.Repo, c: Call, n: nat)
    requires c.phase == NextCommit(c, n)
    ensures Standing(c)
    ensures Ending(e, r, c) == OutcomeOf(ImportRest(e, R.Progress(r, LastMade(c), true), c.commits, c.branch, n))
    decreases |c.commits| - n
  {
    if n < |c.commits| && c.commits[n].tables == [] {
      SkipsEmpty(e, r, c, n + 1);
    }
  }

  lemma LoadIsCommit(e: Engine, r: R.Repo, c: Call, n: nat, k: nat)
    requires k >= |PushedTables(c, n)|
    ensures LoadFrom(e, r, c, n, k) == CommitFrom(e, r, c, n)
  {
    assert r.(working := r.working) == r;
  }

  /** A checkout and the load of all tables is the round of the loop. */
  lemma RoundIsLoad(e: Engine, r: R.Repo, c: Call, n: nat)
    requires n < |c.commits| && c.commits[n].tables != []
    ensures var (s, ok) := R.Checkout(r, c.branch);
            R.ImportNext(e, R.Progress(r, LastMade(c), true), c.commits[n].tables, c.branch) ==
            if ok then LoadFrom(e, s, c, n, 0) else R.Progress(s, LastMade(c), false)
  {
    var (s, ok) := R.Checkout(r, c.branch);
    var ds := PushedTables(c, n);
    assert ds[..0] == [];
    LoadRestIsAll(e, s.working, ds, 0);
  }

  lemma CheckoutKeepsEnding(e: Engine, r: R.Repo, c: Call)
    requires c.phase.CheckingOut? && Standing(c)
    ensures var (r', c') := Perform(e, r, c);
            Ending(e, r', c') == Ending(e, r, c) && Standing(c')
  {
    var n := c.phase.n;
    var (s, ok) := R.Checkout(r, c.branch);
    RoundIsLoad(e, r, c, n);
    if ok {
      var c' := c.(phase := NextTable(c, n, 0));
      if |PushedTables(c, n)| == 0 {
        LoadIsCommit(e, s, c', n, 0);
      }
      assert LoadFrom(e, s, c', n, 0) == LoadFrom(e, s, c, n, 0);
    } else {
      FailedRest(e, R.Progress(s, LastMade(c), false), c.commits, c.branch, n + 1);
    }
  }

  lemma LoadKeepsEnding(e: Engine, r: R.Repo, c: Call)
    requires c.phase.Loading? && Standing(c)
    ensures var (r', c') := Perform(e, r, c);
            Ending(e, r', c') == Ending(e, r, c) && Standing(c')
  {
    var n, k := c.phase.n, c.phase.k;
    if k >= |PushedTables(c, n)| {
      LoadIsCommit(e, r, c, n, k);
    } else {
      var (working, ok) := ImportTable(e, r.working, PushedTables(c, n)[k]);
      var s := r.(working := working);
      if ok {
        var c' := c.(phase := NextTable(c, n, k + 1));
        assert LoadFrom(e, r, c, n, k) == LoadFrom(e, s, c', n, k + 1);
        if k + 1 >= |PushedTables(c, n)| {
          LoadIsCommit(e, s, c', n, k + 1);
        }
      } else {
        FailedRest(e, R.Progress(s, LastMade(c), false), c.commits, c.branch, n + 1);
      }
    }
  }

  lemma CommitKeepsEnding(e: Engine, r: R.Repo, c: Call)
    requires c.phase.Committing? && Standing(c)
    ensures var (r', c') := Perform(e, r, c);
            Ending(e, r', c') == Ending(e, r, c) && Standing(c')
  {
    var n := c.phase.n;
    var (out, h) := R.CommitStaged(e, r, PushedTables(c, n));
    if h.None? {
      FailedRest(e, R.Progress(out, LastMade(c), false), c.commits, c.branch, n + 1);
    } else {
      var c' := Perform(e, r, c).1;
      NextCommitSame(c.(made := c.made + [Made(h.value, r.current)]), c', n + 1);
      SkipsEmpty(e, out, c', n + 1);
    }
  }

  lemma ReadKeepsEnding(e: Engine, r: R.Repo, c: Call)
    requires c.phase.ReadingHead? && Standing(c)
    ensures var (r', c') := Perform(e, r, c);
            Ending(e, r', c') == Ending(e, r, c) && Standing(c')
  {
    var head := R.HeadRead(r, c.branch, true);
    if c.commits != [] && !R.Rejected(head, c.from) {
      var c' := Perform(e, r, c).1;
      NextCommitSame(c.(read := head, tip := R.Tip(r, c.branch)), c', 0);
      SkipsEmpty(e, r, c', 0);
      assert c.commits[..0] == [];
      ImportRestIsAll(e, r, c.commits, c.branch, 0);
    }
  }

  /**
   * Each stage of an interleaved push leaves unchanged how the push would end if it ran alone
   * from there.  So a push whose stages follow one another ends exactly as `ImportCommits`
   * does: with every table loaded, every commit made, and the same outcome.
   */
  lemma StageKeepsEnding(e: Engine, r: R.Repo, c: Call)
    requires Standing(c)
    ensures var (r', c') := Perform(e, r, c);
            Ending(e, r', c') == Ending(e, r, c) && Standing(c')
  {
    match c.phase
    case ReadingHead => ReadKeepsEnding(e, r, c);
    case CheckingOut(_) => CheckoutKeepsEnding(e, r, c);
    case Loading(_, _) => LoadKeepsEnding(e, r, c);
    case Committing(_) => CommitKeepsEnding(e, r, c);
    case Finished(_) =>
  }

  /** A run of stages of one call, with nothing in between, leads where the call alone leads. */
  lemma {:induction false} StagesAreThePush(e: Engine, run: seq<State>, acts: seq<Action>, i: nat, k: nat, id: CallId)
    requires IsRun(e, run, acts) && i <= k < |run| && id in run[i].calls && Standing(run[i].calls[id])
    requires forall j: nat :: i <= j < k ==> acts[j] == Step(id)
    ensures id in run[k].calls && Standing(run[k].calls[id])
    ensures Ending(e, run[k].repo, run[k].calls[id]) == Ending(e, run[i].repo, run[i].calls[id])
    decreases k - i
  {
    if i < k {
      StagesAreThePush(e, run, acts, i, k - 1, id);
      assert StepAt(e, run, acts, k - 1);
      StageKeepsEnding(e, run[k - 1].repo, run[k - 1].calls[id]);
    }
  }

  /** So a started push whose stages run to their end without interruption is `ImportCommits`. */
  lemma LonePushIsSequential(e: Engine, run: seq<State>, acts: seq<Action>, i: nat, k: nat, id: CallId)
    requires IsRun(e, run, acts) && i < k < |run| && acts[i].Start? && acts[i].call == id
    requires forall j: nat :: i < j < k ==> acts[j] == Step(id)
    requires id in run[k].calls && run[k].calls[id].phase.Finished?
    ensures var a := acts[i];
            (run[k].repo, run[k].calls[id].phase.outcome) ==
            R.ImportCommits(e, run[i].repo, a.commits, a.from, true, a.branch)
  {
    assert StepAt(e, run, acts, i);
    StagesAreThePush(e, run, acts, i + 1, k, id);
  }

  // --------------------------------------------------------------------------- progress

  /** Commits left, and stages left of the current one. */
  function StagesLeft(c: Call): (nat, nat) {
    match c.phase
    case ReadingHead => (|c.commits| + 1, 0)
    case CheckingOut(n) => (if n < |c.commits| then |c.commits| - n else 0, |PushedTables(c, n)| + 2)
    case Loading(n, k) =>
      (if n < |c.commits| then |c.commits| - n else 0, if k <= |PushedTables(c, n)| then |PushedTables(c, n)| - k + 1 else 1)
    case Committing(n) => (if n < |c.commits| then |c.commits| - n else 0, 0)
    case Finished(_) => (0, 0)
  }

  lemma {:induction false} NextCommitLater(c: Call, n: nat)
    ensures NextCommit(c, n).CheckingOut? ==> n <= NextCommit(c, n).n
    ensures NextCommit(c, n).CheckingOut? || NextCommit(c, n).Finished?
    decreases |c.commits| - n
  {
    if n < |c.commits| {
      NextCommitLater(c, n + 1);
    }
  }

  /** Every stage leaves fewer: a push whose stages follow one another comes to its end. */
  lemma StagesShrink(e: Engine, r: R.Repo, c: Call)
    requires Standing(c) && !c.phase.Finished?
    ensures var left, left' := StagesLeft(c), StagesLeft(Perform(e, r, c).1);
            left'.0 < left.0 || (left'.0 == left.0 && left'.1 < left.1)
  {
    var c' := Perform(e, r, c).1;
    match c.phase
    case ReadingHead =>
      NextCommitLater(c.(read := R.HeadRead(r, c.branch, true), tip := R.Tip(r, c.branch)), 0);
    case Committing(n) =>
      var h := R.CommitStaged(e, r, PushedTables(c, n)).1;
      if h.Some? {
        NextCommitLater(c.(made := c.made + [Made(h.value, r.current)]), n + 1);
      }
    case _ =>
  }
}
