/**
 * The commit history as Dolt presents it, and the commits that a pull lists
 * (`queryCommitsSince`).  A hash is a position in the order of commits.
 */
module CommitGraph {
  import opened Common

  type Hash = nat

  datatype Commit<T> = Commit(parents: seq<Hash>, order: nat, tables: T)

  type Graph<T> = seq<Commit<T>>

  /** Parents are older, in time and in `commit_order`. */
  ghost predicate WellFormed<T>(g: Graph<T>) {
    forall h, i :: 0 <= h < |g| && 0 <= i < |g[h].parents| ==>
      g[h].parents[i] < h && g[g[h].parents[i]].order < g[h].order
  }

  /** `a` is `h` or reachable from it along parents. */
  ghost predicate Ancestor<T>(g: Graph<T>, a: Hash, h: Hash)
    requires WellFormed(g) && h < |g|
    decreases h
  {
    a == h || exists i :: 0 <= i < |g[h].parents| && Ancestor(g, a, g[h].parents[i])
  }

  /** What `dolt_log AS OF h` holds. */
  ghost function Ancestors<T>(g: Graph<T>, h: Hash): set<Hash>
    requires WellFormed(g) && h < |g|
  {
    set a: Hash | a < |g| && Ancestor(g, a, h)
  }

  lemma {:induction false} AncestorOrder<T>(g: Graph<T>, a: Hash, h: Hash)
    requires WellFormed(g) && h < |g| && Ancestor(g, a, h)
    ensures a <= h && (a != h ==> g[a].order < g[h].order)
    decreases h
  {
    if a != h {
      var i :| 0 <= i < |g[h].parents| && Ancestor(g, a, g[h].parents[i]);
      AncestorOrder(g, a, g[h].parents[i]);
    }
  }

  lemma {:induction false} AncestorTransitive<T>(g: Graph<T>, a: Hash, b: Hash, h: Hash)
    requires WellFormed(g) && b < |g| && h < |g| && Ancestor(g, a, b) && Ancestor(g, b, h)
    ensures Ancestor(g, a, h)
    decreases h
  {
    if b != h {
      var i :| 0 <= i < |g[h].parents| && Ancestor(g, b, g[h].parents[i]);
      AncestorTransitive(g, a, b, g[h].parents[i]);
    }
  }

  /** Later commits change nobody's ancestors. */
  lemma {:induction false} AncestorExtend<T>(g: Graph<T>, g': Graph<T>, a: Hash, h: Hash)
    requires WellFormed(g) && WellFormed(g') && g <= g' && h < |g| && Ancestor(g, a, h)
    ensures Ancestor(g', a, h)
    decreases h
  {
    assert g'[h] == g[h];
    if a != h {
      var i :| 0 <= i < |g[h].parents| && Ancestor(g, a, g[h].parents[i]);
      AncestorExtend(g, g', a, g[h].parents[i]);
    }
  }

  /** What the client says it already has. */
  datatype From = Nothing | Unresolvable | At(hash: Hash)

  /**
   * The commits that the log query selects: everything on the branch, minus what
   * `from` reaches.  A `from` that does not resolve makes the filtered query fail,
   * and the service falls back to the unfiltered one.
   */
  ghost function CommitsSince<T>(g: Graph<T>, head: Hash, from: From): set<Hash>
    requires WellFormed(g) && head < |g| && (from.At? ==> from.hash < |g|)
  {
    match from
    case Nothing => Ancestors(g, head)
    case Unresolvable => Ancestors(g, head)
    case At(h) => Ancestors(g, head) - Ancestors(g, h)
  }

  /** A query result: each selected commit once, by ascending `commit_order`. */
  ghost predicate IsListing<T>(g: Graph<T>, rows: seq<Hash>, selected: set<Hash>) {
    && (forall h :: h in rows <==> h in selected)
    && (forall i :: 0 <= i < |rows| ==> rows[i] < |g|)
    && (forall i, j :: 0 <= i < j < |rows| ==> rows[i] != rows[j] && g[rows[i]].order <= g[rows[j]].order)
  }

  /** Every selection has a listing. */
  lemma {:induction false} ListingExists<T>(g: Graph<T>, selected: set<Hash>) returns (rows: seq<Hash>)
    requires forall h :: h in selected ==> h < |g|
    ensures IsListing(g, rows, selected)
    decreases selected
  {
    if selected == {} {
      rows := [];
    } else {
      var last := Latest(g, selected);
      var init := ListingExists(g, selected - {last});
      rows := init + [last];
    }
  }

  lemma {:induction false} Latest<T>(g: Graph<T>, selected: set<Hash>) returns (h: Hash)
    requires selected != {} && forall k :: k in selected ==> k < |g|
    ensures h in selected && forall k :: k in selected ==> g[k].order <= g[h].order
    decreases selected
  {
    h :| h in selected;
    if selected != {h} {
      var k := Latest(g, selected - {h});
      if g[k].order > g[h].order {
        h := k;
      }
    }
  }

  /**
   * Over any commit graph, a pull can be applied in order: each listed commit's
   * parents are listed before it, or the client already has them.
   */
  lemma PullIsParentClosed<T>(g: Graph<T>, head: Hash, from: From, rows: seq<Hash>, i: nat, n: nat)
    requires WellFormed(g) && head < |g| && (from.At? ==> from.hash < |g|)
    requires IsListing(g, rows, CommitsSince(g, head, from))
    requires i < |rows| && n < |g[rows[i]].parents|
    ensures var p := g[rows[i]].parents[n];
            || (exists j :: 0 <= j < i && rows[j] == p)
            || (from.At? && Ancestor(g, p, from.hash))
  {
    var h := rows[i];
    var p := g[h].parents[n];
    assert h in rows && Ancestor(g, h, head);
    assert Ancestor(g, p, p) && Ancestor(g, p, h);
    AncestorTransitive(g, p, h, head);
    if !(from.At? && Ancestor(g, p, from.hash)) {
      assert p in CommitsSince(g, head, from);
      var j :| 0 <= j < |rows| && rows[j] == p;
      assert !(i < j);
    }
  }

  /**
   * A pull lists exactly what the branch has and the client lacks; with it the client
   * has exactly the branch if and only if `from` is on the branch.
   */
  lemma PullCompletesBranch<T>(g: Graph<T>, head: Hash, from: From, rows: seq<Hash>)
    requires WellFormed(g) && head < |g| && (from.At? ==> from.hash < |g|)
    requires IsListing(g, rows, CommitsSince(g, head, from))
    ensures var listed, had := Elements(rows), if from.At? then Ancestors(g, from.hash) else {};
            && listed !! had && listed + had * Ancestors(g, head) == Ancestors(g, head)
            && (listed + had == Ancestors(g, head) <==> (from.At? ==> Ancestor(g, from.hash, head)))
  {
    assert Elements(rows) == CommitsSince(g, head, from);
    if from.At? {
      assert Ancestor(g, from.hash, from.hash);
      assert from.hash in Ancestors(g, from.hash);
      forall a | a in Ancestors(g, from.hash) && Ancestor(g, from.hash, head)
        ensures a in Ancestors(g, head)
      {
        AncestorTransitive(g, a, from.hash, head);
      }
    }
  }

  // ---------------------------------------------------------- linear history

  ghost predicate Linear<T>(g: Graph<T>) {
    forall h :: 0 <= h < |g| ==> |g[h].parents| <= 1
  }

  /** On a linear history any two ancestors of a commit are one before the other. */
  lemma {:induction false} LinearComparable<T>(g: Graph<T>, h: Hash, a: Hash, b: Hash)
    requires WellFormed(g) && Linear(g) && h < |g| && Ancestor(g, a, h) && Ancestor(g, b, h)
    ensures a <= h && b <= h && (Ancestor(g, a, b) || Ancestor(g, b, a))
    decreases h
  {
    AncestorOrder(g, a, h);
    AncestorOrder(g, b, h);
    if a != h && b != h {
      LinearComparable(g, g[h].parents[0], a, b);
    }
  }

  /** A strict ancestor of a commit on a linear history is an ancestor of its parent. */
  lemma StrictAncestor<T>(g: Graph<T>, a: Hash, h: Hash)
    requires WellFormed(g) && Linear(g) && h < |g| && Ancestor(g, a, h) && a != h
    ensures g[h].parents != [] && Ancestor(g, a, g[h].parents[0])
  {
  }

  ghost predicate StrictlyOrdered<T>(g: Graph<T>, rows: seq<Hash>) {
    && (forall i :: 0 <= i < |rows| ==> rows[i] < |g|)
    && forall i, j :: 0 <= i < j < |rows| ==> g[rows[i]].order < g[rows[j]].order
  }

  /** On a linear history a listing leaves no choice of order. */
  lemma LinearListing<T>(g: Graph<T>, head: Hash, rows: seq<Hash>, selected: set<Hash>)
    requires WellFormed(g) && Linear(g) && head < |g| && selected <= Ancestors(g, head)
    requires IsListing(g, rows, selected)
    ensures StrictlyOrdered(g, rows)
  {
    forall i, j | 0 <= i < j < |rows|
      ensures g[rows[i]].order < g[rows[j]].order
    {
      assert rows[i] in rows && rows[j] in rows;
      LinearComparable(g, head, rows[i], rows[j]);
      if Ancestor(g, rows[i], rows[j]) {
        AncestorOrder(g, rows[i], rows[j]);
      } else {
        AncestorOrder(g, rows[j], rows[i]);
      }
    }
  }

  lemma OrderedUnique<T>(g: Graph<T>, xs: seq<Hash>, ys: seq<Hash>)
    requires StrictlyOrdered(g, xs) && StrictlyOrdered(g, ys) && Elements(xs) == Elements(ys)
    ensures xs == ys
  {
    StrictlySortedUnique((a: Hash, b: Hash) => a < |g| && b < |g| && g[a].order < g[b].order, xs, ys);
  }

  /** On a linear history, pulling to `h` and then from `h` lists what one full pull lists. */
  lemma LinearPullsCompose<T>(g: Graph<T>, head: Hash, h: Hash, first: seq<Hash>, second: seq<Hash>, full: seq<Hash>)
    requires WellFormed(g) && Linear(g) && head < |g| && h < |g| && Ancestor(g, h, head)
    requires IsListing(g, first, CommitsSince(g, h, Nothing))
    requires IsListing(g, second, CommitsSince(g, head, At(h)))
    requires IsListing(g, full, CommitsSince(g, head, Nothing))
    ensures full == first + second
  {
    forall a | a in Ancestors(g, h)
      ensures a in Ancestors(g, head)
    {
      AncestorTransitive(g, a, h, head);
    }
    LinearListing(g, head, first, Ancestors(g, h));
    LinearListing(g, head, second, CommitsSince(g, head, At(h)));
    LinearListing(g, head, full, Ancestors(g, head));
    forall i, j | 0 <= i < |first| && 0 <= j < |second|
      ensures g[first[i]].order < g[second[j]].order
    {
      assert first[i] in first && second[j] in second;
      AncestorOrder(g, first[i], h);
      LinearComparable(g, head, h, second[j]);
      AncestorOrder(g, h, second[j]);
    }
    assert Elements(full) == Ancestors(g, head) == Elements(first + second);
    OrderedUnique(g, full, first + second);
  }
}
