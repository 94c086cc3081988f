/**
 * Where foreign keys decide what is accepted, whether a client on the branch reaches
 * its head is a matter of the server's history alone.
 */
module OrderedPull {
  import opened Common
  import opened CommitGraph
  import opened CommitTables
  import opened PullReplay
  import opened ReferenceOrder

  /** The same tables under the same schemas, whatever their rows. */
  ghost predicate SameShape(a: Tables, b: Tables) {
    forall name :: ShapeAt(a, b, name)
  }

  predicate ShapeAt(a: Tables, b: Tables, name: string) {
    (name in a <==> name in b) && (name in a ==> a[name].schema == b[name].schema)
  }

  lemma ReferencedShape(needs: Needs, a: Tables, b: Tables, name: string)
    requires SameShape(a, b) && Referenced(needs, a, name)
    ensures Referenced(needs, b, name)
  {
    var other :| other in a && other != name && name in needs(a[other].schema);
    assert ShapeAt(a, b, other);
  }

  /** The order of a commit's tables depends on the shape of the tables that it meets. */
  lemma InOrderShape(needs: Needs, a: Tables, b: Tables, ds: seq<Dump>)
    requires SameShape(a, b) && InOrder(needs, a, ds)
    ensures InOrder(needs, b, ds)
  {
    forall i: nat | i < |ds|
      ensures InPlace(needs, b, ds, i)
    {
      assert InPlace(needs, a, ds, i) && ShapeAt(a, b, ds[i].name);
      if ds[i].name in b {
        if Referenced(needs, b, ds[i].name) {
          FlipShape(a, b);
          ReferencedShape(needs, b, a, ds[i].name);
        }
      } else {
        assert forall p :: p in needs(ds[i].schema) ==> ShapeAt(a, b, p);
      }
    }
  }

  lemma FlipShape(a: Tables, b: Tables)
    requires SameShape(a, b)
    ensures SameShape(b, a)
  {
    forall name
      ensures ShapeAt(b, a, name)
    {
      assert ShapeAt(a, b, name);
    }
  }

  /** What a client on the branch has laid has the branch's shape. */
  lemma LaidShape(e: Engine, g: Graph<Tables>, head: Hash, from: From, rows: seq<Hash>, stream: Stream, i: nat)
    requires IsPull(e, g, head, from, rows, stream) && OnBranch(g, head, from) && i <= |rows| && rows != []
    ensures SameShape(Laid(e, g, rows, stream, StartingTables(g, from), i), BranchAfter(g, rows, i))
  {
    var had := StartingTables(g, from);
    var r, b := Laid(e, g, rows, stream, had, i), BranchAfter(g, rows, i);
    FirstRowFollows(g, head, from, rows);
    assert BranchAfter(g, rows, 0) == had;
    LaidOverlays(e, g, head, from, rows, stream, had, i);
    forall name
      ensures ShapeAt(r, b, name)
    {
      assert OverlayAt(e, had, b, r, Touched(g, rows, i), name);
      if name !in Touched(g, rows, i) {
        UntouchedStays(e, g, head, from, rows, stream, i, name);
      }
    }
  }

  /** The tables sent for commit `k` come in the order that references need, given what the branch had before it. */
  ghost predicate EntryInOrder(needs: Needs, g: Graph<Tables>, rows: seq<Hash>, stream: Stream, k: nat) {
    k < |stream| && (stream[k].Some? ==> InOrder(needs, BranchAfter(g, rows, k), stream[k].value))
  }

  /** The commands for commit `k` succeed on what was laid before. */
  ghost predicate EntryAccepted(e: Engine, g: Graph<Tables>, rows: seq<Hash>, stream: Stream, had: Tables, k: nat) {
    k < |stream| && (stream[k].Some? ==>
      Accepted(e, Laid(e, g, rows, stream, had, k), BranchAfter(g, rows, k + 1), stream[k].value))
  }

  lemma EntryAcceptedIff(e: Engine, needs: Needs, g: Graph<Tables>, head: Hash, from: From, rows: seq<Hash>,
                         stream: Stream, k: nat)
    requires IsPull(e, g, head, from, rows, stream) && OnBranch(g, head, from) && Referential(e, needs) && k < |rows|
    ensures EntryAccepted(e, g, rows, stream, StartingTables(g, from), k) <==> EntryInOrder(needs, g, rows, stream, k)
  {
    if stream[k].Some? {
      var had, b, ds := StartingTables(g, from), BranchAfter(g, rows, k), stream[k].value;
      var r := Laid(e, g, rows, stream, had, k);
      EntryFacts(e, g, head, from, rows, stream, k);
      StartAgrees(e, g, head, from);
      LaidAgrees(e, g, head, from, rows, stream, had, k);
      AcceptedIffInOrder(e, needs, r, BranchAfter(g, rows, k + 1), ds);
      LaidShape(e, g, head, from, rows, stream, k);
      FlipShape(r, b);
      if InOrder(needs, r, ds) {
        InOrderShape(needs, r, b, ds);
      }
      if InOrder(needs, b, ds) {
        InOrderShape(needs, b, r, ds);
      }
    }
  }

  lemma StartAgrees(e: Engine, g: Graph<Tables>, head: Hash, from: From)
    requires GrownHistory(e, g) && head < |g| && OnBranch(g, head, from)
    ensures SchemasAgree(StartingTables(g, from), UserTables(g[head].tables))
  {
    if from.At? {
      GrowsAlong(e, g, from.hash, head);
    }
  }

  lemma {:induction false} ReplayableAll(e: Engine, g: Graph<Tables>, rows: seq<Hash>, stream: Stream, had: Tables, i: nat)
    requires i <= |stream|
    ensures Replayable(e, g, rows, stream, had, i) <==>
            forall k: nat :: k < i ==> EntryAccepted(e, g, rows, stream, had, k)
  {
    if i > 0 {
      ReplayableAll(e, g, rows, stream, had, i - 1);
      assert Replayable(e, g, rows, stream, had, i) <==>
             Replayable(e, g, rows, stream, had, i - 1) && EntryAccepted(e, g, rows, stream, had, i - 1);
    }
  }

  /**
   * On an engine that checks references, a client on the branch, or with nothing, reaches
   * exactly the branch's tables if and only if each commit's tables are sent in the order
   * that references need, given what the branch had before that commit, and every changed
   * table has no rows or prints with two lines of text.
   */
  lemma OrderedPullReachesHead(e: Engine, needs: Needs, g: Graph<Tables>, head: Hash, from: From, rows: seq<Hash>,
                               stream: Stream)
    requires IsPull(e, g, head, from, rows, stream) && OnBranch(g, head, from) && Referential(e, needs)
    ensures var goal := UserTables(g[head].tables);
            Replay(e, StartingTables(g, from), stream) == (goal, true) <==>
            && (forall k: nat :: k < |rows| ==> EntryInOrder(needs, g, rows, stream, k))
            && forall name :: name in goal && name in Touched(g, rows, |rows|) ==> Legible(e, goal[name])
  {
    ReplayReachesHead(e, g, head, from, rows, stream);
    ReplayableAll(e, g, rows, stream, StartingTables(g, from), |rows|);
    forall k: nat | k < |rows|
      ensures EntryAccepted(e, g, rows, stream, StartingTables(g, from), k) <==> EntryInOrder(needs, g, rows, stream, k)
    {
      EntryAcceptedIff(e, needs, g, head, from, rows, stream, k);
    }
  }
}
