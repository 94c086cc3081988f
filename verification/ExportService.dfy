/** The pull side's loops: `runDoltCommitExport` over the listed commits, `exportTable` over the changed tables. */
module ExportService {
  import opened Common
  import opened TableNames
  import opened CommitGraph
  import opened CommitTables
  import opened PullReplay

  /** The changed tables that pass the filter, dumped as of the commit. */
  method ExportTables(e: Engine, before: Tables, after: Tables) returns (exported: seq<Dump>)
    ensures IsExport(e, before, after, exported)
  {
    exported := [];
    var rest := Changed(before, after);
    ghost var all := rest;
    while rest != {}
      invariant rest <= all
      invariant forall i :: 0 <= i < |exported| ==>
                  && exported[i].name in all - rest && PassesExport(exported[i].name)
                  && exported[i] == DumpOf(e, exported[i].name, after[exported[i].name])
      invariant forall name :: name in all - rest && PassesExport(name) ==> Has(exported, name)
      invariant forall i, j :: 0 <= i < j < |exported| ==> exported[i].name != exported[j].name
      decreases rest
    {
      var name :| name in rest;
      rest := rest - {name};
      if PassesExport(name) {
        ghost var shorter := exported;
        exported := exported + [DumpOf(e, name, after[name])];
        assert exported[|shorter|].name == name;
        assert forall k :: Has(shorter, k) ==> Has(exported, k) by {
          forall k | Has(shorter, k)
            ensures Has(exported, k)
          {
            var i :| 0 <= i < |shorter| && shorter[i].name == k;
            assert exported[i].name == k;
          }
        }
      }
    }
  }

  /** One entry per listed commit, in order; the root and commits without a diff send nothing. */
  method RunDoltCommitExport(e: Engine, g: Graph<Tables>, rows: seq<Hash>) returns (stream: seq<Option<seq<Dump>>>)
    requires WellFormed(g) && forall i :: 0 <= i < |rows| ==> rows[i] < |g|
    ensures IsStream(e, g, rows, stream)
  {
    stream := [];
    for n := 0 to |rows|
      invariant |stream| == n
      invariant forall i :: 0 <= i < n ==> IsCommitExport(e, g, rows[i], stream[i])
    {
      var h := rows[n];
      if g[h].parents == [] {
        stream := stream + [None];
      } else {
        var before := g[g[h].parents[0]].tables;
        if before == g[h].tables {
          stream := stream + [None];
        } else {
          var exported := ExportTables(e, before, g[h].tables);
          stream := stream + [Some(exported)];
        }
      }
    }
  }
}
