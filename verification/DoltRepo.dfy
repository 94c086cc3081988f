/**
 * A Dolt repository with branches and one working set, and what the commands of
 * `runDoltCommitImport` and the loop of `importCommits` do to it.
 */
module DoltRepo {
  import opened Common
  import opened CommitGraph
  import opened CommitTables

  datatype Repo = Repo(graph: Graph<Tables>, branches: map<string, Hash>, current: string, working: Tables)

  const MAIN := "main"

  /** `dolt init`: an empty root commit on `main`. */
  function NewRepo(e: Engine): Repo {
    Repo([Commit([], 0, WithDerived(e, map[]))], map[MAIN := 0], MAIN, map[])
  }

  ghost predicate Valid(r: Repo) {
    WellFormed(r.graph) && r.current in r.branches && forall b :: b in r.branches ==> r.branches[b] < |r.graph|
  }

  function Head(r: Repo): Hash {
    if r.current in r.branches then r.branches[r.current] else 0
  }

  /** Where the commits of a push to `branch` go on from: a missing branch starts at the current head. */
  function Tip(r: Repo, branch: string): Hash {
    if branch in r.branches then r.branches[branch] else Head(r)
  }

  function TablesAt(r: Repo, h: Hash): Tables {
    if h < |r.graph| then UserTables(r.graph[h].tables) else map[]
  }

  /** Nothing is uncommitted. */
  predicate Clean(r: Repo) {
    r.working == TablesAt(r, Head(r))
  }

  /**
   * The history has the shape that pulls rely on, and the working set holds the
   * checked-out branch's tables, possibly with leftovers of a failed import.
   */
  ghost predicate Grown(e: Engine, r: Repo) {
    Valid(r) && Faithful(e) && GrownHistory(e, r.graph) && Grows(e, TablesAt(r, Head(r)), r.working)
  }

  // ------------------------------------------------------------------- commands

  /** Checks out the branch, creating a missing one; Dolt refuses to leave uncommitted rows behind. */
  function Checkout(r: Repo, branch: string): (Repo, bool) {
    if branch !in r.branches then (r.(branches := r.branches[branch := Head(r)], current := branch), true)
    else if branch == r.current then (r, true)
    else if !Clean(r) then (r, false)
    else (r.(current := branch, working := TablesAt(r, r.branches[branch])), true)
  }

  function Names(ds: seq<Dump>): set<string> {
    set i | 0 <= i < |ds| :: ds[i].name
  }

  /** The user tables of a commit that stages the named tables of the working set, dropped ones included. */
  function Committed(head: Tables, working: Tables, ds: seq<Dump>): Tables {
    (head - Names(ds)) + map name | name in Names(ds) && name in working :: working[name]
  }

  /**
   * `dolt add` of the imported tables, which must know each of them, and `dolt commit` on
   * whatever branch is checked out; without a change there is nothing to commit.
   */
  function CommitStaged(e: Engine, r: Repo, ds: seq<Dump>): (Repo, Option<Hash>) {
    var tip := Head(r);
    var head := TablesAt(r, tip);
    var tables := WithDerived(e, Committed(head, r.working, ds));
    if tip >= |r.graph| || !(Names(ds) <= r.working.Keys + head.Keys) || tables == r.graph[tip].tables then (r, None)
    else
      (r.(graph := r.graph + [Commit([tip], r.graph[tip].order + 1, tables)],
          branches := r.branches[r.current := |r.graph|]),
       Some(|r.graph|))
  }

  /** The part of `runDoltCommitImport` after the checkout: load the tables, stage them, commit. */
  function LoadAndCommit(e: Engine, r: Repo, tables: seq<Dump>): (Repo, Option<Hash>) {
    var (working, ok) := ImportTables(e, r.working, Visible(tables));
    if ok then CommitStaged(e, r.(working := working), Visible(tables)) else (r.(working := working), None)
  }

  function ImportCommit(e: Engine, r: Repo, tables: seq<Dump>, branch: string): (Repo, Option<Hash>) {
    var (out, ok) := Checkout(r, branch);
    if ok then LoadAndCommit(e, out, tables) else (out, None)
  }

  datatype Pushed = Pushed(tables: seq<Dump>)

  datatype Progress = Progress(repo: Repo, last: Option<Hash>, ok: bool)

  /** One round of the loop: a commit without tables is skipped, and nothing happens after a failure. */
  function ImportNext(e: Engine, p: Progress, tables: seq<Dump>, branch: string): Progress {
    if !p.ok || tables == [] then p
    else
      var (repo, h) := ImportCommit(e, p.repo, tables, branch);
      if h.None? then Progress(repo, p.last, false) else Progress(repo, h, true)
  }

  /** The loop over the pushed commits. */
  function ImportEach(e: Engine, r: Repo, commits: seq<Pushed>, branch: string): Progress {
    if commits == [] then Progress(r, None, true)
    else ImportNext(e, ImportEach(e, r, commits[..|commits| - 1], branch), commits[|commits| - 1].tables, branch)
  }

  lemma ImportEachNext(e: Engine, r: Repo, commits: seq<Pushed>, branch: string, n: nat)
    requires n < |commits|
    ensures ImportEach(e, r, commits[..n + 1], branch) ==
            ImportNext(e, ImportEach(e, r, commits[..n], branch), commits[n].tables, branch)
  {
    assert commits[..n + 1][..n] == commits[..n];
  }

  datatype Outcome =
    | Imported(head: Hash)
    | NonFastForward(head: Hash)
    | NoCommits
    | NoTableData
    | CommandFailed

  /** `runDoltBranchHead`: none for a missing branch, and none when the query fails. */
  function HeadRead(r: Repo, branch: string, answered: bool): Option<Hash> {
    if answered && branch in r.branches then Some(r.branches[branch]) else None
  }

  /** The fast-forward test: the client names a head, and another one was read.  Nothing read passes. */
  predicate Rejected(head: Option<Hash>, from: Option<Hash>) {
    from.Some? && head.Some? && head.value != from.value
  }

  /** `answered` says whether the head query succeeds. */
  function ImportCommits(e: Engine, r: Repo, commits: seq<Pushed>, from: Option<Hash>, answered: bool, branch: string)
    : (Repo, Outcome)
  {
    var head := HeadRead(r, branch, answered);
    if commits == [] then (r, NoCommits)
    else if Rejected(head, from) then (r, NonFastForward(head.value))
    else
      var p := ImportEach(e, r, commits, branch);
      (p.repo, if !p.ok then CommandFailed else if p.last.None? then NoTableData else Imported(p.last.value))
  }

  // ------------------------------------------------------------------- one commit

  lemma CheckoutKeeps(e: Engine, r: Repo, branch: string)
    requires Valid(r)
    ensures var (out, ok) := Checkout(r, branch);
            && Valid(out) && out.graph == r.graph
            && (ok ==> out.current == branch && out.branches == r.branches[branch := Tip(r, branch)])
            && (!ok ==> out == r)
            && (Grown(e, r) ==> Grown(e, out)) && (Clean(r) ==> ok && Clean(out))
  {
    if branch in r.branches {
      assert r.branches[branch := r.branches[branch]] == r.branches;
    }
  }

  /** `g'` is `g` and one more commit on top of `tip`, with other tables. */
  ghost predicate Extends(g: Graph<Tables>, g': Graph<Tables>, tip: Hash, h: Hash) {
    && h == |g| && |g'| == h + 1 && g == g'[..h] && tip < h
    && g'[h].parents == [tip] && g'[h].tables != g'[tip].tables
  }

  /** A commit goes on top of the checked-out branch's head and moves that branch. */
  lemma CommitExtends(e: Engine, r: Repo, ds: seq<Dump>)
    requires Valid(r)
    ensures var (out, h) := CommitStaged(e, r, ds);
            && Valid(out) && out.current == r.current && out.working == r.working
            && (h.None? ==> out == r)
            && (h.Some? ==>
                  && Extends(r.graph, out.graph, Head(r), h.value) && out.branches == r.branches[r.current := h.value]
                  && out.graph[h.value].tables == WithDerived(e, Committed(TablesAt(r, Head(r)), r.working, ds)))
  {
  }

  lemma CommittedGrows(e: Engine, head: Tables, working: Tables, ds: seq<Dump>)
    requires Grows(e, head, working)
    ensures Grows(e, head, Committed(head, working, ds)) && Grows(e, Committed(head, working, ds), working)
  {
  }

  /** Staging tables of a grown working set keeps the repository grown. */
  lemma CommitGrows(e: Engine, r: Repo, ds: seq<Dump>)
    requires Grown(e, r)
    ensures Grown(e, CommitStaged(e, r, ds).0)
    ensures CommitStaged(e, r, ds).1.Some? ==>
              TablesAt(CommitStaged(e, r, ds).0, |r.graph|) == Committed(TablesAt(r, Head(r)), r.working, ds)
  {
    CommitExtends(e, r, ds);
    var (out, h) := CommitStaged(e, r, ds);
    if h.Some? {
      var head, c := TablesAt(r, Head(r)), out.graph[h.value];
      var user := Committed(head, r.working, ds);
      CommittedGrows(e, head, r.working, ds);
      UserOfDerived(e, user);
      GrownExtend(e, r.graph, c);
      assert out.graph == r.graph + [c];
    }
  }

  /** Starting from a clean working set, staging what plain dumps imported stages everything. */
  lemma CommittedAll(e: Engine, ws: Tables, ds: seq<Dump>)
    requires AllPlain(e, ds)
    ensures Committed(ws, ImportTables(e, ws, ds).0, ds) == ImportTables(e, ws, ds).0
  {
    var after := ImportTables(e, ws, ds).0;
    forall name
      ensures name in Committed(ws, after, ds) <==> name in after
      ensures name in after ==> Committed(ws, after, ds)[name] == after[name]
    {
      if name !in Names(ds) {
        assert !Has(ds, name);
        ImportFrame(e, ws, ds, name);
      }
    }
  }

  lemma LoadGrows(e: Engine, r: Repo, tables: seq<Dump>)
    requires Grown(e, r) && AllPlain(e, tables)
    ensures Grown(e, r.(working := ImportTables(e, r.working, Visible(tables)).0))
  {
    VisiblePlain(e, tables);
    ImportGrows(e, r.working, Visible(tables));
    GrowsTransitive(e, TablesAt(r, Head(r)), r.working, ImportTables(e, r.working, Visible(tables)).0);
  }

  /** Loading and committing plain dumps keeps the repository grown; from a clean one, it commits what was imported. */
  lemma LoadAndCommitGrows(e: Engine, r: Repo, tables: seq<Dump>)
    requires Grown(e, r) && AllPlain(e, tables)
    ensures Grown(e, LoadAndCommit(e, r, tables).0)
    ensures var (out, h) := LoadAndCommit(e, r, tables);
            Clean(r) && h.Some? ==>
              && Clean(out)
              && ImportTables(e, TablesAt(r, Head(r)), Visible(tables)) == (TablesAt(out, h.value), true)
  {
    LoadGrows(e, r, tables);
    VisiblePlain(e, tables);
    var (working, ok) := ImportTables(e, r.working, Visible(tables));
    if ok {
      CommitGrows(e, r.(working := working), Visible(tables));
      CommittedAll(e, r.working, Visible(tables));
    }
  }

  /**
   * One pushed commit, whatever SQL it carries: on success the branch gains one commit on
   * top of its tip, and on failure there is none.
   */
  lemma ImportCommitExtends(e: Engine, r: Repo, tables: seq<Dump>, branch: string)
    requires Valid(r)
    ensures var (out, h) := ImportCommit(e, r, tables, branch);
            && Valid(out) && Tip(r, branch) < |r.graph|
            && (h.None? ==> out.graph == r.graph &&
                            (out.branches == r.branches || out.branches == r.branches[branch := Tip(r, branch)]))
            && (h.Some? ==>
                  && Extends(r.graph, out.graph, Tip(r, branch), h.value)
                  && out.current == branch && out.branches == r.branches[branch := h.value])
  {
    CheckoutKeeps(e, r, branch);
    var (s, ok) := Checkout(r, branch);
    if ok {
      CommitExtends(e, s.(working := ImportTables(e, s.working, Visible(tables)).0), Visible(tables));
    }
  }

  /** Plain dumps keep the history replayable and, from a clean working set, commit exactly what was imported. */
  lemma ImportCommitGrows(e: Engine, r: Repo, tables: seq<Dump>, branch: string)
    requires Grown(e, r) && AllPlain(e, tables)
    ensures Grown(e, ImportCommit(e, r, tables, branch).0)
    ensures var (out, h) := ImportCommit(e, r, tables, branch);
            Clean(r) && h.Some? ==>
              && Clean(out)
              && ImportTables(e, TablesAt(r, Tip(r, branch)), Visible(tables)) == (TablesAt(out, h.value), true)
  {
    CheckoutKeeps(e, r, branch);
    var (s, ok) := Checkout(r, branch);
    if ok {
      LoadAndCommitGrows(e, s, tables);
    }
  }

  // ---------------------------------------------------------------- whole pushes

  /** Commits that carry tables; the others are skipped. */
  function WithTables(commits: seq<Pushed>): nat {
    if commits == [] then 0
    else WithTables(commits[..|commits| - 1]) + (if commits[|commits| - 1].tables == [] then 0 else 1)
  }

  /** Every DDL in the push is a plain CREATE TABLE of its dump's own name. */
  ghost predicate PlainPush(e: Engine, commits: seq<Pushed>) {
    forall i :: 0 <= i < |commits| ==> AllPlain(e, commits[i].tables)
  }

  /** The pushed commits as a stream to replay. */
  function PushedStream(commits: seq<Pushed>): seq<Option<seq<Dump>>> {
    if commits == [] then []
    else
      var last := commits[|commits| - 1].tables;
      PushedStream(commits[..|commits| - 1]) + [if last == [] then None else Some(last)]
  }

  /** One more commit on top of the head keeps the tip among its ancestors. */
  lemma ExtendsKeepsTip(g: Graph<Tables>, g': Graph<Tables>, tip: Hash, head: Hash, h: Hash)
    requires WellFormed(g) && WellFormed(g') && Extends(g, g', head, h) && Ancestor(g, tip, head)
    ensures Ancestor(g', tip, h)
  {
    assert g <= g';
    AncestorExtend(g, g', tip, head);
    assert Ancestor(g', head, head) && g'[h].parents[0] == head;
    assert Ancestor(g', head, h);
    AncestorTransitive(g', tip, head, h);
  }

  /** How far a push has come: `n` of its commits carried tables. */
  ghost predicate PushedOnto(r: Repo, p: Progress, branch: string, n: nat) {
    && Valid(r) && Valid(p.repo) && r.graph <= p.repo.graph
    && Tip(p.repo, branch) < |p.repo.graph| && Ancestor(p.repo.graph, Tip(r, branch), Tip(p.repo, branch))
    && (|p.repo.graph| > |r.graph| ==> p.repo.graph[|r.graph|].parents == [Tip(r, branch)])
    && (|p.repo.graph| == |r.graph| ==> Tip(p.repo, branch) == Tip(r, branch))
    && (if p.ok then |p.repo.graph| == |r.graph| + n && (p.last.None? <==> n == 0) else n > 0)
    && (p.ok && p.last.None? ==> p.repo == r)
    && (p.ok && p.last.Some? ==>
          p.repo.current == branch && branch in p.repo.branches && p.repo.branches[branch] == p.last.value)
  }

  lemma ImportNextExtends(e: Engine, r: Repo, p: Progress, tables: seq<Dump>, branch: string, n: nat)
    requires PushedOnto(r, p, branch, n) && p.ok && tables != []
    ensures PushedOnto(r, ImportNext(e, p, tables, branch), branch, n + 1)
  {
    ImportCommitExtends(e, p.repo, tables, branch);
    var (out, h) := ImportCommit(e, p.repo, tables, branch);
    if h.Some? {
      ExtendsKeepsTip(p.repo.graph, out.graph, Tip(r, branch), Tip(p.repo, branch), h.value);
      assert out.graph[..|p.repo.graph|] == p.repo.graph;
    }
  }

  /**
   * A push adds commits on top of the old tip of its branch: one for each pushed commit
   * with tables if every command succeeds, and it never removes one.
   */
  lemma {:induction false} ImportEachExtends(e: Engine, r: Repo, commits: seq<Pushed>, branch: string)
    requires Valid(r)
    ensures PushedOnto(r, ImportEach(e, r, commits, branch), branch, WithTables(commits))
  {
    if commits == [] {
      assert Ancestor(r.graph, Tip(r, branch), Tip(r, branch));
    } else {
      ImportEachExtends(e, r, commits[..|commits| - 1], branch);
      var p, tables := ImportEach(e, r, commits[..|commits| - 1], branch), commits[|commits| - 1].tables;
      if p.ok && tables != [] {
        ImportNextExtends(e, r, p, tables, branch, WithTables(commits[..|commits| - 1]));
      }
    }
  }

  /**
   * A push of plain dumps keeps the history replayable, whether or not it succeeds.  From a
   * clean working set it ends with the tables that replaying the pushed commits gives.
   */
  lemma {:induction false} ImportEachGrows(e: Engine, r: Repo, commits: seq<Pushed>, branch: string)
    requires Grown(e, r) && PlainPush(e, commits)
    ensures var p := ImportEach(e, r, commits, branch);
            && Grown(e, p.repo)
            && (Clean(r) && p.ok ==>
                  && Clean(p.repo)
                  && Replay(e, TablesAt(r, Tip(r, branch)), PushedStream(commits)) ==
                     (TablesAt(p.repo, Tip(p.repo, branch)), true))
  {
    if commits != [] {
      var init, tables := commits[..|commits| - 1], commits[|commits| - 1].tables;
      ImportEachGrows(e, r, init, branch);
      var p := ImportEach(e, r, init, branch);
      PushedNext(e, TablesAt(r, Tip(r, branch)), commits);
      if p.ok && tables != [] {
        ImportCommitGrows(e, p.repo, tables, branch);
        ImportCommitExtends(e, p.repo, tables, branch);
      }
    }
  }

  lemma PushedNext(e: Engine, start: Tables, commits: seq<Pushed>)
    requires commits != []
    ensures var (before, ok) := Replay(e, start, PushedStream(commits[..|commits| - 1]));
            var tables := commits[|commits| - 1].tables;
            Replay(e, start, PushedStream(commits)) ==
            if ok && tables != [] then ImportTables(e, before, Visible(tables)) else (before, ok)
  {
    var stream := PushedStream(commits);
    assert stream[..|stream| - 1] == PushedStream(commits[..|commits| - 1]);
  }

  /**
   * `importCommits`, when nothing else writes meanwhile.  A push is rejected, without effect,
   * exactly when it names another head than the one that was read.  One that succeeds adds a
   * commit per pushed commit with tables, on top of the old tip.  Its first commit goes on top
   * of the head that it names if and only if that head was read, or none was and the tip
   * happens to be that head.
   */
  lemma PushIsFastForward(e: Engine, r: Repo, commits: seq<Pushed>, from: Option<Hash>, answered: bool, branch: string)
    requires Valid(r)
    ensures var (out, o) := ImportCommits(e, r, commits, from, answered, branch);
            var read := HeadRead(r, branch, answered);
            && Valid(out) && r.graph <= out.graph
            && (o.NonFastForward? <==> commits != [] && from.Some? && read.Some? && read != from)
            && (o.NoTableData? <==> commits != [] && !Rejected(read, from) && WithTables(commits) == 0)
            && (o.NoCommits? || o.NonFastForward? || o.NoTableData? ==> out == r)
            && (o.Imported? ==>
                  && out.current == branch && branch in out.branches && out.branches[branch] == o.head < |out.graph|
                  && |out.graph| == |r.graph| + WithTables(commits)
                  && Ancestor(out.graph, Tip(r, branch), o.head)
                  && (from.Some? ==>
                        (out.graph[|r.graph|].parents == [from.value] <==>
                         read == from || (read.None? && Tip(r, branch) == from.value))))
  {
    ImportEachExtends(e, r, commits, branch);
  }

  /** What a push of plain dumps leaves behind: a replayable history and the tables that replaying the push gives. */
  lemma PushIsReplayable(e: Engine, r: Repo, commits: seq<Pushed>, from: Option<Hash>, answered: bool, branch: string)
    requires Grown(e, r) && PlainPush(e, commits)
    ensures var (out, o) := ImportCommits(e, r, commits, from, answered, branch);
            && Grown(e, out)
            && (Clean(r) && o.Imported? ==>
                  && Clean(out)
                  && Replay(e, TablesAt(r, Tip(r, branch)), PushedStream(commits)) == (TablesAt(out, o.head), true))
  {
    ImportEachGrows(e, r, commits, branch);
    ImportEachExtends(e, r, commits, branch);
  }

  lemma NewRepoIsGrown(e: Engine)
    requires Faithful(e)
    ensures Grown(e, NewRepo(e)) && Clean(NewRepo(e))
  {
    UserOfDerived(e, map[]);
    assert GrownAt(e, NewRepo(e).graph, 0);
  }

  // ------------------------------------------------------------- when a push succeeds

  /** From a clean working set, a commit of plain dumps is made exactly when its imports succeed and change something. */
  lemma ImportCommitSucceedsIff(e: Engine, r: Repo, tables: seq<Dump>, branch: string)
    requires Grown(e, r) && Clean(r) && AllPlain(e, tables)
    ensures var start := TablesAt(r, Tip(r, branch));
            var (after, ok) := ImportTables(e, start, Visible(tables));
            ImportCommit(e, r, tables, branch).1.Some? <==> ok && after != start
  {
    CheckoutKeeps(e, r, branch);
    var s := Checkout(r, branch).0;
    var ds, start := Visible(tables), s.working;
    var (after, ok) := ImportTables(e, start, ds);
    VisiblePlain(e, tables);
    ImportGrows(e, start, ds);
    if ok {
      CommittedAll(e, start, ds);
      assert Names(ds) <= after.Keys;
      assert GrownAt(e, s.graph, Head(s));
      LoadGrows(e, s, tables);
      UserOfDerived(e, after);
    }
  }

  /** Each pushed commit with tables can be imported on what those before it give, and changes something there. */
  ghost predicate AllApply(e: Engine, start: Tables, commits: seq<Pushed>) {
    commits == [] ||
    var init, tables := commits[..|commits| - 1], commits[|commits| - 1].tables;
    && AllApply(e, start, init)
    && (tables != [] ==>
          var before := Replay(e, start, PushedStream(init)).0;
          var (after, ok) := ImportTables(e, before, Visible(tables));
          ok && after != before)
  }

  lemma {:induction false} ImportEachSucceedsIff(e: Engine, r: Repo, commits: seq<Pushed>, branch: string)
    requires Grown(e, r) && Clean(r) && PlainPush(e, commits)
    ensures ImportEach(e, r, commits, branch).ok <==> AllApply(e, TablesAt(r, Tip(r, branch)), commits)
  {
    if commits != [] {
      var init, tables := commits[..|commits| - 1], commits[|commits| - 1].tables;
      ImportEachSucceedsIff(e, r, init, branch);
      ImportEachGrows(e, r, init, branch);
      var p := ImportEach(e, r, init, branch);
      if p.ok && tables != [] {
        ImportCommitSucceedsIff(e, p.repo, tables, branch);
      }
    }
  }

  /**
   * How a push of plain dumps that runs alone on a clean repository ends: with success
   * exactly when it passes the head test and every commit with tables can be imported and
   * changes something, and there is one; and with a failed command exactly when one cannot.
   */
  lemma PushSucceedsIff(e: Engine, r: Repo, commits: seq<Pushed>, from: Option<Hash>, answered: bool, branch: string)
    requires Grown(e, r) && Clean(r) && PlainPush(e, commits)
    ensures var o := ImportCommits(e, r, commits, from, answered, branch).1;
            var passes := commits != [] && !Rejected(HeadRead(r, branch, answered), from);
            var applies := AllApply(e, TablesAt(r, Tip(r, branch)), commits);
            && (o.Imported? <==> passes && applies && WithTables(commits) > 0)
            && (o.CommandFailed? <==> passes && !applies)
  {
    ImportEachSucceedsIff(e, r, commits, branch);
    ImportEachExtends(e, r, commits, branch);
  }
}
