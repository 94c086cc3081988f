/**
 * A pull, replayed with the import rules on whatever tables a client has: exactly
 * when that gives what the branch holds.
 */
module PullReplay {
  import opened Common
  import opened CommitGraph
  import opened CommitTables

  type Stream = seq<Option<seq<Dump>>>

  /** One entry per listed commit: what was sent for it, if anything. */
  ghost predicate IsStream(e: Engine, g: Graph<Tables>, rows: seq<Hash>, stream: Stream) {
    && |stream| == |rows|
    && forall i :: 0 <= i < |rows| ==> rows[i] < |g| && IsCommitExport(e, g, rows[i], stream[i])
  }

  /** A pull of the branch at `head` since `from`, from a history that only plain imports have made. */
  ghost predicate IsPull(e: Engine, g: Graph<Tables>, head: Hash, from: From, rows: seq<Hash>, stream: Stream) {
    && Faithful(e) && GrownHistory(e, g) && head < |g| && (from.At? ==> from.hash < |g|)
    && IsListing(g, rows, CommitsSince(g, head, from)) && IsStream(e, g, rows, stream)
  }

  // -------------------------------------------------------------- listed commits

  /** An earlier row is a strict ancestor. */
  lemma EarlierRow<T>(g: Graph<T>, head: Hash, from: From, rows: seq<Hash>, j: nat, i: nat)
    requires WellFormed(g) && Linear(g) && head < |g| && (from.At? ==> from.hash < |g|)
    requires IsListing(g, rows, CommitsSince(g, head, from)) && j < i < |rows|
    ensures Ancestor(g, rows[j], rows[i]) && g[rows[j]].order < g[rows[i]].order
    ensures g[rows[i]].parents != [] && Ancestor(g, rows[j], g[rows[i]].parents[0])
  {
    assert rows[j] in rows && rows[i] in rows;
    LinearListing(g, head, rows, CommitsSince(g, head, from));
    LinearComparable(g, head, rows[j], rows[i]);
    if Ancestor(g, rows[i], rows[j]) {
      AncestorOrder(g, rows[i], rows[j]);
    }
    StrictAncestor(g, rows[j], rows[i]);
  }

  /** On a linear history each listed commit but the first comes right after its parent. */
  lemma RowFollowsRow<T>(g: Graph<T>, head: Hash, from: From, rows: seq<Hash>, i: nat)
    requires WellFormed(g) && Linear(g) && head < |g| && (from.At? ==> from.hash < |g|)
    requires IsListing(g, rows, CommitsSince(g, head, from)) && 0 < i < |rows|
    ensures g[rows[i]].parents == [rows[i - 1]]
  {
    EarlierRow(g, head, from, rows, i - 1, i);
    var p := g[rows[i]].parents[0];
    PullIsParentClosed(g, head, from, rows, i, 0);
    assert rows[i - 1] in rows;
    if from.At? && Ancestor(g, p, from.hash) {
      AncestorTransitive(g, rows[i - 1], p, from.hash);
      assert false;
    }
    AncestorOrder(g, rows[i - 1], p);
    LinearListing(g, head, rows, CommitsSince(g, head, from));
  }

  /** If `from` is on the branch, or there is none, the first listed commit follows it, or is the root. */
  lemma FirstRowFollows<T>(g: Graph<T>, head: Hash, from: From, rows: seq<Hash>)
    requires WellFormed(g) && Linear(g) && head < |g|
    requires from.At? ==> from.hash < |g| && Ancestor(g, from.hash, head)
    requires IsListing(g, rows, CommitsSince(g, head, from)) && rows != []
    ensures g[rows[0]].parents == if from.At? then [from.hash] else []
  {
    assert rows[0] in rows;
    if from.At? {
      LinearComparable(g, head, from.hash, rows[0]);
      StrictAncestor(g, from.hash, rows[0]);
    }
    if g[rows[0]].parents != [] {
      var p := g[rows[0]].parents[0];
      PullIsParentClosed(g, head, from, rows, 0, 0);
      AncestorOrder(g, from.hash, p);
      AncestorOrder(g, p, from.hash);
    }
  }

  /** A pull that lists anything ends with the head; one that lists nothing finds the head among what the client has. */
  lemma LastRowIsHead<T>(g: Graph<T>, head: Hash, from: From, rows: seq<Hash>)
    requires WellFormed(g) && head < |g| && (from.At? ==> from.hash < |g|)
    requires IsListing(g, rows, CommitsSince(g, head, from))
    ensures if rows == [] then from.At? && Ancestor(g, head, from.hash) else rows[|rows| - 1] == head
  {
    assert Ancestor(g, head, head);
    if from.At? && Ancestor(g, head, from.hash) {
      if rows != [] {
        assert rows[0] in rows;
        AncestorTransitive(g, rows[0], head, from.hash);
      }
    } else {
      assert head in CommitsSince(g, head, from);
      var i :| 0 <= i < |rows| && rows[i] == head;
      var last := rows[|rows| - 1];
      assert last in rows;
      AncestorOrder(g, last, head);
    }
  }

  /** Along the history tables only grow. */
  lemma {:induction false} GrowsAlong(e: Engine, g: Graph<Tables>, a: Hash, h: Hash)
    requires GrownHistory(e, g) && h < |g| && Ancestor(g, a, h)
    ensures a <= h && Grows(e, UserTables(g[a].tables), UserTables(g[h].tables))
    decreases h
  {
    if a != h {
      StrictAncestor(g, a, h);
      var p := g[h].parents[0];
      GrowsAlong(e, g, a, p);
      assert GrownAt(e, g, h);
      GrowsTransitive(e, UserTables(g[a].tables), UserTables(g[p].tables), UserTables(g[h].tables));
    }
  }

  // ------------------------------------------------------------ what is predicted

  /** The user tables that one of the first `i` listed commits changed. */
  ghost function Touched(g: Graph<Tables>, rows: seq<Hash>, i: nat): set<string>
    requires i <= |rows| && forall k :: 0 <= k < |rows| ==> rows[k] < |g|
  {
    if i == 0 then {}
    else Touched(g, rows, i - 1) + Changed(UserAt(g, g[rows[i - 1]].parents), UserTables(g[rows[i - 1]].tables))
  }

  /** The branch's user tables after `i` listed commits. */
  function BranchAfter(g: Graph<Tables>, rows: seq<Hash>, i: nat): Tables {
    if 0 < i <= |rows| && rows[i - 1] < |g| then UserTables(g[rows[i - 1]].tables)
    else if i == 0 < |rows| && rows[0] < |g| then UserAt(g, g[rows[0]].parents)
    else map[]
  }

  /** The client's tables with those of the first `i` entries laid over them. */
  ghost function Laid(e: Engine, g: Graph<Tables>, rows: seq<Hash>, stream: Stream, had: Tables, i: nat): Tables
    requires i <= |stream|
  {
    if i == 0 then had else Lay(e, Laid(e, g, rows, stream, had, i - 1), BranchAfter(g, rows, i), stream[i - 1])
  }

  /** Every command of the first `i` entries succeeds on the tables laid until then. */
  ghost predicate Replayable(e: Engine, g: Graph<Tables>, rows: seq<Hash>, stream: Stream, had: Tables, i: nat)
    requires i <= |stream|
  {
    i == 0 ||
    (&& Replayable(e, g, rows, stream, had, i - 1)
     && (stream[i - 1].Some? ==>
           Accepted(e, Laid(e, g, rows, stream, had, i - 1), BranchAfter(g, rows, i), stream[i - 1].value)))
  }

  /** The branch's touched tables, as import sees them, over the client's own. */
  ghost predicate Overlay(e: Engine, had: Tables, b: Tables, r: Tables, touched: set<string>) {
    forall name :: OverlayAt(e, had, b, r, touched, name)
  }

  ghost predicate OverlayAt(e: Engine, had: Tables, b: Tables, r: Tables, touched: set<string>, name: string) {
    if name in touched then name in r && name in b && r[name] == Seen(e, b[name])
    else (name in r <==> name in had) && (name in had ==> r[name] == had[name])
  }

  /** What was sent for a step from `b` to `b'`, if anything: the changed tables, printed. */
  ghost predicate IsSent(e: Engine, b: Tables, b': Tables, sent: Option<seq<Dump>>) {
    && Grows(e, b, b')
    && (sent.None? ==> Changed(b, b') == {})
    && (sent.Some? ==> forall name :: Has(sent.value, name) <==> name in Changed(b, b'))
    && (sent.Some? ==> PrintedFrom(e, b', sent.value) && Visible(sent.value) == sent.value)
  }

  ghost function Lay(e: Engine, r: Tables, target: Tables, sent: Option<seq<Dump>>): Tables {
    if sent.None? then r else Installed(e, r, target, sent.value)
  }

  /** Laying a commit's changed tables over an overlay gives the next overlay. */
  lemma OverlayStep(e: Engine, had: Tables, b: Tables, b': Tables, r: Tables, touched: set<string>,
                    sent: Option<seq<Dump>>)
    requires Overlay(e, had, b, r, touched) && IsSent(e, b, b', sent)
    ensures Overlay(e, had, b', Lay(e, r, b', sent), touched + Changed(b, b'))
  {
    forall name
      ensures OverlayAt(e, had, b', Lay(e, r, b', sent), touched + Changed(b, b'), name)
    {
      assert OverlayAt(e, had, b, r, touched, name);
      assert name !in Changed(b, b') ==> (name in b' ==> name in b && b[name] == b'[name]);
      if sent.Some? {
        assert Has(sent.value, name) <==> name in Changed(b, b');
        InstalledAt(e, r, b', sent.value, name);
      }
    }
  }

  /** One listed commit: where it starts, where it leads, and what was sent for it. */
  lemma EntryFacts(e: Engine, g: Graph<Tables>, head: Hash, from: From, rows: seq<Hash>, stream: Stream, i: nat)
    requires IsPull(e, g, head, from, rows, stream) && i < |rows|
    ensures var b, b' := BranchAfter(g, rows, i), BranchAfter(g, rows, i + 1);
            && b == UserAt(g, g[rows[i]].parents) && b' == UserTables(g[rows[i]].tables)
            && IsSent(e, b, b', stream[i]) && Grows(e, b', UserTables(g[head].tables))
  {
    if i > 0 {
      RowFollowsRow(g, head, from, rows, i);
    }
    assert rows[i] in rows;
    GrowsAlong(e, g, rows[i], head);
    SentIsChanged(e, g, rows[i], stream[i]);
  }

  lemma {:induction false} LaidOverlays(e: Engine, g: Graph<Tables>, head: Hash, from: From, rows: seq<Hash>,
                                        stream: Stream, had: Tables, i: nat)
    requires IsPull(e, g, head, from, rows, stream) && i <= |rows|
    ensures Overlay(e, had, BranchAfter(g, rows, i), Laid(e, g, rows, stream, had, i), Touched(g, rows, i))
  {
    if i > 0 {
      LaidOverlays(e, g, head, from, rows, stream, had, i - 1);
      EntryFacts(e, g, head, from, rows, stream, i - 1);
      OverlayStep(e, had, BranchAfter(g, rows, i - 1), BranchAfter(g, rows, i), Laid(e, g, rows, stream, had, i - 1),
                  Touched(g, rows, i - 1), stream[i - 1]);
    }
  }

  // ------------------------------------------------------------------ the replay

  lemma ReplayNext(e: Engine, ws: Tables, stream: Stream, i: nat)
    requires i < |stream|
    ensures var (before, ok) := Replay(e, ws, stream[..i]);
            Replay(e, ws, stream[..i + 1]) ==
            if ok && stream[i].Some? then ImportTables(e, before, Visible(stream[i].value)) else (before, ok)
  {
    assert stream[..i + 1][..i] == stream[..i];
  }

  /** Importing an entry on `r` succeeds exactly when accepted, and then installs it. */
  ghost predicate GoesAsPredicted(e: Engine, r: Tables, target: Tables, sent: Option<seq<Dump>>) {
    sent.Some? ==>
      && (ImportTables(e, r, Visible(sent.value)).1 <==> Accepted(e, r, target, sent.value))
      && (Accepted(e, r, target, sent.value) ==>
            ImportTables(e, r, Visible(sent.value)).0 == Installed(e, r, target, sent.value))
  }

  ghost predicate EntryGoes(e: Engine, g: Graph<Tables>, rows: seq<Hash>, stream: Stream, had: Tables, i: nat)
  {
    i < |stream| && GoesAsPredicted(e, Laid(e, g, rows, stream, had, i), BranchAfter(g, rows, i + 1), stream[i])
  }

  lemma EntryReplays(e: Engine, g: Graph<Tables>, head: Hash, from: From, rows: seq<Hash>, stream: Stream, had: Tables,
                     i: nat)
    requires IsPull(e, g, head, from, rows, stream) && i < |rows| && SchemasAgree(had, UserTables(g[head].tables))
    ensures EntryGoes(e, g, rows, stream, had, i)
  {
    if stream[i].Some? {
      LaidAgrees(e, g, head, from, rows, stream, had, i);
      EntryFacts(e, g, head, from, rows, stream, i);
      ImportInstalls(e, Laid(e, g, rows, stream, had, i), UserTables(g[rows[i]].tables), stream[i].value);
    }
  }

  /** The replay of the first `i` entries succeeds exactly when `ok`, and then gives `r`. */
  ghost predicate Gives(e: Engine, had: Tables, stream: Stream, i: nat, ok: bool, r: Tables)
    requires i <= |stream|
  {
    (Replay(e, had, stream[..i]).1 <==> ok) && (ok ==> Replay(e, had, stream[..i]).0 == r)
  }

  lemma GivesNext(e: Engine, had: Tables, stream: Stream, i: nat, ok: bool, r: Tables, target: Tables)
    requires i < |stream| && GoesAsPredicted(e, r, target, stream[i]) && Gives(e, had, stream, i, ok, r)
    ensures Gives(e, had, stream, i + 1, ok && (stream[i].Some? ==> Accepted(e, r, target, stream[i].value)),
                  Lay(e, r, target, stream[i]))
  {
    ReplayNext(e, had, stream, i);
  }

  lemma {:induction false} ReplayPrefix(e: Engine, g: Graph<Tables>, rows: seq<Hash>, stream: Stream, had: Tables, i: nat)
    requires i <= |stream|
    requires forall k: nat :: k < i ==> EntryGoes(e, g, rows, stream, had, k)
    ensures Gives(e, had, stream, i, Replayable(e, g, rows, stream, had, i), Laid(e, g, rows, stream, had, i))
  {
    if i > 0 {
      ReplayPrefix(e, g, rows, stream, had, i - 1);
      assert EntryGoes(e, g, rows, stream, had, i - 1);
      GivesNext(e, had, stream, i - 1, Replayable(e, g, rows, stream, had, i - 1),
                Laid(e, g, rows, stream, had, i - 1), BranchAfter(g, rows, i));
    }
  }

  /** Under agreeing schemas the replay goes exactly as predicted, or fails where a command does. */
  lemma ReplayPredicted(e: Engine, g: Graph<Tables>, head: Hash, from: From, rows: seq<Hash>, stream: Stream, had: Tables)
    requires IsPull(e, g, head, from, rows, stream) && SchemasAgree(had, UserTables(g[head].tables))
    ensures Replay(e, had, stream).1 <==> Replayable(e, g, rows, stream, had, |rows|)
    ensures Replayable(e, g, rows, stream, had, |rows|) ==>
              Replay(e, had, stream).0 == Laid(e, g, rows, stream, had, |rows|)
  {
    forall k: nat | k < |rows|
      ensures EntryGoes(e, g, rows, stream, had, k)
    {
      EntryReplays(e, g, head, from, rows, stream, had, k);
    }
    ReplayPrefix(e, g, rows, stream, had, |rows|);
    assert stream[..|rows|] == stream;
  }

  /** What is laid has the schemas of the next commit. */
  lemma LaidAgrees(e: Engine, g: Graph<Tables>, head: Hash, from: From, rows: seq<Hash>, stream: Stream, had: Tables,
                   i: nat)
    requires IsPull(e, g, head, from, rows, stream) && i < |rows| && SchemasAgree(had, UserTables(g[head].tables))
    ensures SchemasAgree(Laid(e, g, rows, stream, had, i), UserTables(g[rows[i]].tables))
  {
    LaidOverlays(e, g, head, from, rows, stream, had, i);
    EntryFacts(e, g, head, from, rows, stream, i);
    var r, b, b' := Laid(e, g, rows, stream, had, i), BranchAfter(g, rows, i), BranchAfter(g, rows, i + 1);
    forall name | name in r && name in b'
      ensures r[name].schema == b'[name].schema
    {
      assert OverlayAt(e, had, b, r, Touched(g, rows, i), name);
    }
  }

  /** Replaying a pull never drops a table nor changes a schema. */
  lemma {:induction false} ReplayOnlyGrows(e: Engine, ws: Tables, stream: Stream)
    requires Faithful(e) && forall i :: 0 <= i < |stream| && stream[i].Some? ==> AllPlain(e, stream[i].value)
    ensures Grows(e, ws, Replay(e, ws, stream).0)
  {
    if stream != [] {
      ReplayOnlyGrows(e, ws, stream[..|stream| - 1]);
      var (before, ok) := Replay(e, ws, stream[..|stream| - 1]);
      var last := stream[|stream| - 1];
      if ok && last.Some? {
        VisiblePlain(e, last.value);
        ImportGrows(e, before, Visible(last.value));
        GrowsTransitive(e, ws, before, Replay(e, ws, stream).0);
      }
    }
  }

  /** What a pull sends is plain. */
  lemma PullIsPlain(e: Engine, g: Graph<Tables>, head: Hash, from: From, rows: seq<Hash>, stream: Stream)
    requires IsPull(e, g, head, from, rows, stream)
    ensures forall i :: 0 <= i < |stream| && stream[i].Some? ==> AllPlain(e, stream[i].value)
  {
    forall i, k | 0 <= i < |stream| && stream[i].Some? && 0 <= k < |stream[i].value|
      ensures CreatesOnly(e, stream[i].value[k].schema, stream[i].value[k].name)
    {
      EntryFacts(e, g, head, from, rows, stream, i);
      var d := stream[i].value[k];
      assert PrintedAs(e, d, BranchAfter(g, rows, i + 1)[d.name]);
    }
  }

  /**
   * What a client's tables, the branch's and the pull must have in common: the client has
   * no table that the branch lacks; a table that no listed commit changed is the same on
   * both sides; one that was changed has the branch's schema, if the client has it, and
   * has no rows or prints with two lines of text.
   */
  ghost predicate Reconcilable(e: Engine, had: Tables, goal: Tables, touched: set<string>) {
    && had.Keys <= goal.Keys
    && SchemasAgree(had, goal)
    && forall name :: name in goal ==>
         if name in touched then Legible(e, goal[name]) else name in had && had[name] == goal[name]
  }

  lemma OverlayIsGoal(e: Engine, had: Tables, goal: Tables, r: Tables, touched: set<string>)
    requires Overlay(e, had, goal, r, touched) && SchemasAgree(had, goal)
    ensures r == goal <==> Reconcilable(e, had, goal, touched)
  {
    forall name
      ensures r == goal && name in had ==> name in goal
      ensures r == goal && name in goal ==>
                if name in touched then Legible(e, goal[name]) else name in had && had[name] == goal[name]
      ensures Reconcilable(e, had, goal, touched) ==> (name in r <==> name in goal)
      ensures Reconcilable(e, had, goal, touched) && name in goal ==> r[name] == goal[name]
    {
      assert OverlayAt(e, had, goal, r, touched, name);
    }
  }

  /**
   * Whatever tables the client has and wherever `from` is, replaying a pull gives exactly
   * the branch's tables if and only if the two are reconcilable and every command is
   * accepted in the order sent.
   */
  lemma ReplayReachesHeadIff(e: Engine, g: Graph<Tables>, head: Hash, from: From, rows: seq<Hash>, stream: Stream,
                             had: Tables)
    requires IsPull(e, g, head, from, rows, stream)
    ensures var goal := UserTables(g[head].tables);
            Replay(e, had, stream) == (goal, true) <==>
            Reconcilable(e, had, goal, Touched(g, rows, |rows|)) && Replayable(e, g, rows, stream, had, |rows|)
  {
    var goal := UserTables(g[head].tables);
    if SchemasAgree(had, goal) {
      ReplayPredicted(e, g, head, from, rows, stream, had);
      LaidReachesHead(e, g, head, from, rows, stream, had);
    } else {
      PullIsPlain(e, g, head, from, rows, stream);
      ReplayOnlyGrows(e, had, stream);
    }
  }

  lemma LaidReachesHead(e: Engine, g: Graph<Tables>, head: Hash, from: From, rows: seq<Hash>, stream: Stream, had: Tables)
    requires IsPull(e, g, head, from, rows, stream) && SchemasAgree(had, UserTables(g[head].tables))
    ensures var goal := UserTables(g[head].tables);
            Laid(e, g, rows, stream, had, |rows|) == goal <==> Reconcilable(e, had, goal, Touched(g, rows, |rows|))
  {
    var goal, r := UserTables(g[head].tables), Laid(e, g, rows, stream, had, |rows|);
    LastRowIsHead(g, head, from, rows);
    LaidOverlays(e, g, head, from, rows, stream, had, |rows|);
    assert Overlay(e, had, goal, r, Touched(g, rows, |rows|));
    OverlayIsGoal(e, had, goal, r, Touched(g, rows, |rows|));
  }

  // ------------------------------------------------------- a client on the branch

  /** The user tables of a client that is where it says it is: at `from`, or without anything. */
  function StartingTables(g: Graph<Tables>, from: From): Tables {
    if from.At? && from.hash < |g| then UserTables(g[from.hash].tables) else map[]
  }

  ghost predicate OnBranch(g: Graph<Tables>, head: Hash, from: From)
    requires WellFormed(g) && head < |g|
  {
    from.At? ==> from.hash < |g| && Ancestor(g, from.hash, head)
  }

  /** A table that no listed commit changed is as the first of them found it. */
  lemma {:induction false} UntouchedStays(e: Engine, g: Graph<Tables>, head: Hash, from: From, rows: seq<Hash>,
                                          stream: Stream, i: nat, name: string)
    requires IsPull(e, g, head, from, rows, stream) && i <= |rows| && rows != [] && name !in Touched(g, rows, i)
    ensures var b, b' := BranchAfter(g, rows, 0), BranchAfter(g, rows, i);
            (name in b <==> name in b') && (name in b ==> b[name] == b'[name])
  {
    if i > 0 {
      UntouchedStays(e, g, head, from, rows, stream, i - 1, name);
      EntryFacts(e, g, head, from, rows, stream, i - 1);
      assert name !in Changed(BranchAfter(g, rows, i - 1), BranchAfter(g, rows, i));
    }
  }

  /** A client on the branch is reconcilable with it, but for changed tables whose rows do not print. */
  lemma OnBranchReconcilable(e: Engine, g: Graph<Tables>, head: Hash, from: From, rows: seq<Hash>, stream: Stream)
    requires IsPull(e, g, head, from, rows, stream) && OnBranch(g, head, from)
    ensures var had, goal, touched := StartingTables(g, from), UserTables(g[head].tables), Touched(g, rows, |rows|);
            Reconcilable(e, had, goal, touched) <==> forall name :: name in goal && name in touched ==> Legible(e, goal[name])
  {
    var had, goal, touched := StartingTables(g, from), UserTables(g[head].tables), Touched(g, rows, |rows|);
    LastRowIsHead(g, head, from, rows);
    if from.At? {
      GrowsAlong(e, g, from.hash, head);
    }
    if rows == [] {
      AncestorOrder(g, head, from.hash);
      AncestorOrder(g, from.hash, head);
    } else {
      FirstRowFollows(g, head, from, rows);
      assert BranchAfter(g, rows, 0) == had;
      forall name | name !in touched
        ensures (name in had <==> name in goal) && (name in had ==> had[name] == goal[name])
      {
        UntouchedStays(e, g, head, from, rows, stream, |rows|, name);
      }
    }
  }

  /**
   * Push then pull preserves meaning.  For a client that is at `from` on the branch, or
   * has nothing, replaying what is sent gives exactly the branch's tables, hidden ones
   * included, if and only if every command is accepted in the order sent and every changed
   * table has no rows or prints with two lines of text.
   */
  lemma ReplayReachesHead(e: Engine, g: Graph<Tables>, head: Hash, from: From, rows: seq<Hash>, stream: Stream)
    requires IsPull(e, g, head, from, rows, stream) && OnBranch(g, head, from)
    ensures var had, goal, touched := StartingTables(g, from), UserTables(g[head].tables), Touched(g, rows, |rows|);
            && (Replay(e, had, stream) == (goal, true) <==>
                && Replayable(e, g, rows, stream, had, |rows|)
                && forall name :: name in goal && name in touched ==> Legible(e, goal[name]))
            && WithDerived(e, goal) == g[head].tables
  {
    ReplayReachesHeadIff(e, g, head, from, rows, stream, StartingTables(g, from));
    OnBranchReconcilable(e, g, head, from, rows, stream);
    assert GrownAt(e, g, head);
  }
}
