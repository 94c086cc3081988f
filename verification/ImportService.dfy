/**
 * The push and pull services on a repository that they change step by step:
 * `runDoltCommitImport`, `CommitImportService.importCommits` and
 * `CommitExportService.streamCommits`.
 */
module ImportService {
  import opened Common
  import opened TableNames
  import opened CommitGraph
  import opened CommitTables
  import opened PullReplay
  import R = DoltRepo
  import ExportService

  class DoltRepository {
    const engine: Engine
    var graph: Graph<Tables>
    var branches: map<string, Hash>
    var current: string
    var working: Tables

    function View(): R.Repo
      reads this
    {
      R.Repo(graph, branches, current, working)
    }

    constructor (engine: Engine)
      ensures this.engine == engine && View() == R.NewRepo(engine)
      ensures R.Valid(View()) && (Faithful(engine) ==> R.Grown(engine, View()) && R.Clean(View()))
    {
      this.engine := engine;
      graph := [Commit([], 0, WithDerived(engine, map[]))];
      branches := map[R.MAIN := 0];
      current := R.MAIN;
      working := map[];
      new;
      if Faithful(engine) {
        R.NewRepoIsGrown(engine);
      }
    }

    method CheckoutForImport(branch: string) returns (ok: bool)
      requires R.Valid(View())
      modifies `branches, `current, `working
      ensures (View(), ok) == R.Checkout(old(View()), branch)
    {
      if branch !in branches {
        branches := branches[branch := branches[current]];
        current := branch;
        return true;
      }
      if branch != current {
        if working != UserTables(graph[branches[current]].tables) {
          return false;
        }
        current := branch;
        working := UserTables(graph[branches[branch]].tables);
      }
      return true;
    }

    /**
     * `importTable`: run the DDL, truncate a table that already exists, then load the rows.
     * A success with a row in the text ends with that load, whatever the DDL did before.
     */
    method ImportOne(d: Dump) returns (ok: bool)
      modifies `working
      ensures (working, ok) == ImportTable(engine, old(working), d)
      ensures ok ==> SafeTableName(d.name) && !engine.run(old(working), d.schema).exit.Refused?
      ensures ok && HasRow(d.data) ==> exists before: Tables :: Loaded(engine, before, d, working)
      ensures ok && !HasRow(d.data) && engine.run(old(working), d.schema).exit.Done? ==>
                working == engine.run(old(working), d.schema).tables
    {
      if !SafeTableName(d.name) {
        return false;
      }
      var create := engine.run(working, d.schema);
      working := create.tables;
      if !create.exit.Done? {
        if !create.exit.AlreadyExists? || d.name !in working || !engine.truncates(working, d.name) {
          return false;
        }
        working := working[d.name := Table(working[d.name].schema, [])];
      }
      ContentLinesCount(d.data);
      if ContentLines(d.data) <= 1 {
        return true;
      }
      if d.name !in working {
        return false;
      }
      var rows := engine.load(working, d.name, d.data);
      if rows.None? {
        return false;
      }
      ghost var before := working;
      assert Loaded(engine, before, d, before[d.name := Table(before[d.name].schema, rows.value)]);
      working := working[d.name := Table(working[d.name].schema, rows.value)];
      return true;
    }

    /** Imports the tables one after the other, stopping at the first failure. */
    method ImportAll(ds: seq<Dump>) returns (ok: bool)
      modifies `working
      ensures (working, ok) == ImportTables(engine, old(working), ds)
    {
      ok := true;
      var n := 0;
      assert ds[..0] == [];
      while n < |ds| && ok
        invariant 0 <= n <= |ds|
        invariant (working, ok) == ImportTables(engine, old(working), ds[..n])
      {
        assert ds[..n + 1][..n] == ds[..n];
        ok := ImportOne(ds[n]);
        n := n + 1;
      }
      if ok {
        assert ds[..n] == ds;
      } else {
        FailureStops(engine, old(working), ds, n);
      }
    }

    /** `dolt add` and `dolt commit`. */
    method CommitStaged(ds: seq<Dump>) returns (r: Option<Hash>)
      requires R.Valid(View())
      modifies `graph, `branches
      ensures (View(), r) == R.CommitStaged(engine, old(View()), ds)
    {
      var tip := branches[current];
      var head := UserTables(graph[tip].tables);
      if !(R.Names(ds) <= working.Keys + head.Keys) {
        return None;
      }
      var tables := WithDerived(engine, R.Committed(head, working, ds));
      if tables == graph[tip].tables {
        return None;
      }
      r := Some(|graph|);
      branches := branches[current := |graph|];
      graph := graph + [Commit([tip], graph[tip].order + 1, tables)];
    }

    /** One pushed commit, from its checkout to its commit. */
    method RunDoltCommitImport(tables: seq<Dump>, branch: string) returns (r: Option<Hash>)
      requires R.Valid(View())
      modifies this
      ensures (View(), r) == R.ImportCommit(engine, old(View()), tables, branch)
      ensures R.Valid(View())
    {
      R.ImportCommitExtends(engine, View(), tables, branch);
      R.CheckoutKeeps(engine, View(), branch);
      var checkedOut := CheckoutForImport(branch);
      if !checkedOut {
        return None;
      }
      var visible := Visible(tables);
      var ok := ImportAll(visible);
      if !ok {
        return None;
      }
      r := CommitStaged(visible);
    }

    /** The head query; `answered` says whether it succeeds. */
    method BranchHead(branch: string, answered: bool) returns (head: Option<Hash>)
      ensures head == R.HeadRead(View(), branch, answered)
    {
      return if answered && branch in branches then Some(branches[branch]) else None;
    }

    /** `importCommits`, when nothing else writes to the repository meanwhile (see ConcurrentImport). */
    method ImportCommits(commits: seq<R.Pushed>, from: Option<Hash>, answered: bool, branch: string) returns (o: R.Outcome)
      requires R.Valid(View())
      modifies this
      ensures (View(), o) == R.ImportCommits(engine, old(View()), commits, from, answered, branch)
      ensures R.Valid(View())
    {
      if commits == [] {
        return R.NoCommits;
      }
      if from.Some? {
        var head := BranchHead(branch, answered);
        if head.Some? && head.value != from.value {
          return R.NonFastForward(head.value);
        }
      }
      var ok, last := ImportEach(commits, branch);
      if !ok {
        return R.CommandFailed;
      }
      return if last.None? then R.NoTableData else R.Imported(last.value);
    }

    /** The loop over the pushed commits, which stops when a command fails. */
    method ImportEach(commits: seq<R.Pushed>, branch: string) returns (ok: bool, last: Option<Hash>)
      requires R.Valid(View())
      modifies this
      ensures R.Progress(View(), last, ok) == R.ImportEach(engine, old(View()), commits, branch)
      ensures R.Valid(View())
    {
      ok, last := true, None;
      var n := 0;
      assert commits[..0] == [];
      while n < |commits|
        invariant 0 <= n <= |commits| && R.Valid(View())
        invariant R.Progress(View(), last, true) == R.ImportEach(engine, old(View()), commits[..n], branch)
      {
        R.ImportEachNext(engine, old(View()), commits, branch, n);
        if commits[n].tables != [] {
          var h := RunDoltCommitImport(commits[n].tables, branch);
          if h.None? {
            PushStops(engine, old(View()), commits, branch, n + 1);
            return false, last;
          }
          last := h;
        }
        n := n + 1;
      }
      assert commits[..n] == commits;
    }

    /**
     * A pull from a repository that only plain imports have changed: for a client with any
     * tables `had`, what is streamed takes it to the branch's tables exactly when the two
     * are reconcilable and every command is accepted in the order sent.
     */
    method StreamCommits(branch: string, from: From, rows: seq<Hash>, ghost had: Tables) returns (stream: Stream)
      requires R.Grown(engine, View()) && branch in branches && (from.At? ==> from.hash < |graph|)
      requires IsListing(graph, rows, CommitsSince(graph, branches[branch], from))
      ensures IsStream(engine, graph, rows, stream)
      ensures var goal := UserTables(graph[branches[branch]].tables);
              Replay(engine, had, stream) == (goal, true) <==>
              && Reconcilable(engine, had, goal, Touched(graph, rows, |rows|))
              && Replayable(engine, graph, rows, stream, had, |rows|)
    {
      stream := ExportService.RunDoltCommitExport(engine, graph, rows);
      ReplayReachesHeadIff(engine, graph, branches[branch], from, rows, stream, had);
    }
  }

  /** Once a table fails, the rest of the commit is not looked at. */
  lemma {:induction false} FailureStops(e: Engine, ws: Tables, ds: seq<Dump>, n: nat)
    requires n <= |ds| && !ImportTables(e, ws, ds[..n]).1
    ensures ImportTables(e, ws, ds) == ImportTables(e, ws, ds[..n])
  {
    if n < |ds| {
      assert ds[..|ds| - 1][..n] == ds[..n];
      FailureStops(e, ws, ds[..|ds| - 1], n);
    } else {
      assert ds[..n] == ds;
    }
  }

  /** Once a commit fails, the rest of the push is not looked at. */
  lemma {:induction false} PushStops(e: Engine, r: R.Repo, commits: seq<R.Pushed>, branch: string, n: nat)
    requires n <= |commits| && !R.ImportEach(e, r, commits[..n], branch).ok
    ensures R.ImportEach(e, r, commits, branch) == R.ImportEach(e, r, commits[..n], branch)
  {
    if n < |commits| {
      assert commits[..|commits| - 1][..n] == commits[..n];
      PushStops(e, r, commits[..|commits| - 1], branch, n);
    } else {
      assert commits[..n] == commits;
    }
  }
}
