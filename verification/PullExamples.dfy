/**
 * Pulls exist, and the ways in which replaying one misses the branch's tables, each
 * worked out on the sample engine.
 */
module PullExamples {
  import opened Common
  import opened TableNames
  import opened CommitGraph
  import opened CommitTables
  import opened PullReplay
  import opened ReferenceOrder
  import opened SampleEngine

  // ---------------------------------------------------------------- pulls exist

  /** Any set of tables can be sent, in some order. */
  lemma {:induction false} DumpsExist(e: Engine, after: Tables, names: set<string>) returns (ds: seq<Dump>)
    requires names <= after.Keys
    ensures forall name :: Has(ds, name) <==> name in names
    ensures forall i :: 0 <= i < |ds| ==> ds[i].name in after && ds[i] == DumpOf(e, ds[i].name, after[ds[i].name])
    ensures Distinct(ds)
    decreases names
  {
    ds := [];
    if names != {} {
      var last :| last in names;
      var init := DumpsExist(e, after, names - {last});
      ds := init + [DumpOf(e, last, after[last])];
      assert ds[..|ds| - 1] == init;
      HasLast(ds);
      assert !Has(init, last);
    }
  }

  lemma CommitExportExists(e: Engine, g: Graph<Tables>, h: Hash) returns (sent: Option<seq<Dump>>)
    requires h < |g|
    ensures IsCommitExport(e, g, h, sent)
  {
    if g[h].parents == [] || g[h].parents[0] >= |g| || g[g[h].parents[0]].tables == g[h].tables {
      sent := None;
    } else {
      var changed := Changed(g[g[h].parents[0]].tables, g[h].tables);
      var ds := DumpsExist(e, g[h].tables, set name | name in changed && PassesExport(name));
      sent := Some(ds);
    }
  }

  lemma {:induction false} StreamExists(e: Engine, g: Graph<Tables>, rows: seq<Hash>) returns (stream: Stream)
    requires forall i :: 0 <= i < |rows| ==> rows[i] < |g|
    ensures IsStream(e, g, rows, stream)
  {
    stream := [];
    if rows != [] {
      var init := StreamExists(e, g, rows[..|rows| - 1]);
      var sent := CommitExportExists(e, g, rows[|rows| - 1]);
      stream := init + [sent];
    }
  }

  /** Every branch of a grown history can be pulled since anything. */
  lemma PullExists(e: Engine, g: Graph<Tables>, head: Hash, from: From) returns (rows: seq<Hash>, stream: Stream)
    requires Faithful(e) && GrownHistory(e, g) && head < |g| && (from.At? ==> from.hash < |g|)
    ensures IsPull(e, g, head, from, rows, stream)
  {
    rows := ListingExists(g, CommitsSince(g, head, from));
    stream := StreamExists(e, g, rows);
  }

  // ---------------------------------------------------------------- another branch

  function OneTable(name: string): Tables {
    map[name := Table("+" + name, [])]
  }

  /** Two branches that each add a table to the empty root. */
  function Fork(): Graph<Tables> {
    [Commit([], 0, map[]), Commit([0], 1, OneTable("a")), Commit([0], 2, OneTable("b"))]
  }

  /** A commit that adds one empty table to nothing. */
  lemma OneTableCommit(name: string, order: nat)
    requires PassesImport(name)
    ensures UserTables(OneTable(name)) == OneTable(name)
    ensures GrownCommit(SAMPLE, map[], Commit([0], order, OneTable(name)))
  {
    PlainTexts("+" + name, name);
    assert WithDerived(SAMPLE, OneTable(name)) == OneTable(name);
  }

  lemma ForkIsGrown()
    ensures GrownHistory(SAMPLE, Fork())
    ensures "a" in UserTables(Fork()[1].tables) && "a" !in UserTables(Fork()[2].tables)
  {
    var g := Fork();
    assert PassesImport("a") && PassesImport("b");
    OneTableCommit("a", 1);
    OneTableCommit("b", 2);
    assert GrownAt(SAMPLE, g[..1], 0);
    assert g[..1] + [g[1]] == g[..2] && g[..2] + [g[2]] == g;
    GrownExtend(SAMPLE, g[..1], g[1]);
    GrownExtend(SAMPLE, g[..2], g[2]);
  }

  /** A client on one branch that pulls the other keeps its own table, and so is not in the branch's state. */
  lemma OtherBranchKeepsItsTable() returns (rows: seq<Hash>, stream: Stream)
    ensures IsPull(SAMPLE, Fork(), 2, At(1), rows, stream)
    ensures Replay(SAMPLE, UserTables(Fork()[1].tables), stream) != (UserTables(Fork()[2].tables), true)
  {
    ForkIsGrown();
    SampleIsFaithful();
    rows, stream := PullExists(SAMPLE, Fork(), 2, At(1));
    ReplayReachesHeadIff(SAMPLE, Fork(), 2, At(1), rows, stream, UserTables(Fork()[1].tables));
  }

  /** So does a client with a hash that the server does not know: the full history does not remove its table. */
  lemma StaleClientKeepsItsTable() returns (rows: seq<Hash>, stream: Stream)
    ensures IsPull(SAMPLE, Fork(), 2, Unresolvable, rows, stream)
    ensures Replay(SAMPLE, OneTable("a"), stream) != (UserTables(Fork()[2].tables), true)
  {
    ForkIsGrown();
    SampleIsFaithful();
    rows, stream := PullExists(SAMPLE, Fork(), 2, Unresolvable);
    ReplayReachesHeadIff(SAMPLE, Fork(), 2, Unresolvable, rows, stream, OneTable("a"));
  }

  // ------------------------------------------------------------ texts that are not plain

  /**
   * A push may carry any SQL as DDL.  One that adds a foreign key is imported with success
   * and changes the schema; what a pull then sends for the commit leaves the old schema in
   * place, so the client does not follow.
   */
  lemma AlteringDdl()
    ensures var before: Tables := map["t" := Table("+t", [])];
            var after: Tables := map["t" := Table("&t", [])];
            var sent := DumpOf(SAMPLE, "t", after["t"]);
            && !CreatesOnly(SAMPLE, "!t", "t")
            && ImportTable(SAMPLE, before, Dump("t", "!t", HEADER)) == (after, true)
            && IsExport(SAMPLE, before, after, [sent])
            && ImportTable(SAMPLE, before, sent) == (before, true)
  {
    PlainTexts("!t", "t");
    var before: Tables, after: Tables := map["t" := Table("+t", [])], map["t" := Table("&t", [])];
    AlterRuns(before, after);
    OldSchemaStays(before);
    SoleDump(before, after, DumpOf(SAMPLE, "t", after["t"]));
  }

  lemma AlterRuns(before: Tables, after: Tables)
    requires before == map["t" := Table("+t", [])] && after == map["t" := Table("&t", [])]
    ensures ImportTable(SAMPLE, before, Dump("t", "!t", HEADER)) == (after, true)
  {
    OnlyHeader();
    assert "!t"[1..] == "t" && "&" + "t" == "&t" && SafeTableName("t");
    assert before["t" := Table("&t", [])] == after;
  }

  lemma OldSchemaStays(before: Tables)
    requires before == map["t" := Table("+t", [])]
    ensures ImportTable(SAMPLE, before, DumpOf(SAMPLE, "t", Table("&t", []))) == (before, true)
  {
    OnlyHeader();
    assert "&t"[1..] == "t" && SafeTableName("t");
    assert before["t" := Table("+t", [])] == before;
  }

  /** A text that drops the table is imported with success too, and nothing is sent for it. */
  lemma DroppingDdl()
    ensures var before: Tables := map["t" := Table("+t", [])];
            && ImportTable(SAMPLE, before, Dump("t", "-t", HEADER)) == (map[], true)
            && IsExport(SAMPLE, before, map[], [])
  {
    OnlyHeader();
    assert "-t"[1..] == "t" && SafeTableName("t");
    var before: Tables := map["t" := Table("+t", [])];
    assert before - {"t"} == map[];
  }

  lemma OnlyHeader()
    ensures ContentLines(HEADER) == 1 && SAMPLE.render("+t", []) == HEADER && SAMPLE.render("&t", []) == HEADER
  {
    assert HEADER[..0] == [];
    assert !IsBlank("h") by {
      assert "h"[0] != '\r';
    }
    assert ["h"] + RowLines([]) == HEADER;
  }

  /** A step that changes one table sends that table. */
  lemma SoleDump(before: Tables, after: Tables, sent: Dump)
    requires sent.name in after && sent == DumpOf(SAMPLE, sent.name, after[sent.name]) && PassesExport(sent.name)
    requires Changed(before, after) == {sent.name}
    ensures IsExport(SAMPLE, before, after, [sent])
  {
    assert [sent][0].name == sent.name;
  }

  // ------------------------------------------------------------------- order and rows

  /** A parent table and a child that refers to it. */
  const FAMILY: Tables := map["p" := Table("+p", []), "c" := Table("&c", [])]

  function Printed(name: string): Dump
    requires name in FAMILY
  {
    DumpOf(SAMPLE, name, FAMILY[name])
  }

  lemma FamilyPrinted()
    ensures PrintedAs(SAMPLE, Printed("p"), FAMILY["p"]) && PrintedAs(SAMPLE, Printed("c"), FAMILY["c"])
    ensures PassesExport("p") && PassesExport("c")
  {
    PlainTexts("+p", "p");
    PlainTexts("&c", "c");
  }

  lemma ParentFirst()
    ensures ImportTables(SAMPLE, map[], [Printed("p"), Printed("c")]) == (FAMILY, true)
  {
    var ds := [Printed("p"), Printed("c")];
    FamilyPrinted();
    SampleIsFaithful();
    SampleIsReferential();
    TwoPrinted(FAMILY, ds[0], ds[1]);
    assert References("+p") == {} && References("&c") == {"p"};
    assert InOrder(References, map[], ds) by {
      assert ds[..1] == [ds[0]] && [ds[0]][0].name == "p";
      assert InPlace(References, map[], ds, 0) && InPlace(References, map[], ds, 1);
    }
    AcceptedIffInOrder(SAMPLE, References, map[], FAMILY, ds);
    ImportInstalls(SAMPLE, map[], FAMILY, ds);
    InstalledPair(FAMILY, ds[0], ds[1]);
  }

  lemma ChildFirst()
    ensures IsExport(SAMPLE, map[], FAMILY, [Printed("c"), Printed("p")])
    ensures !ImportTables(SAMPLE, map[], [Printed("c"), Printed("p")]).1
  {
    var ds := [Printed("c"), Printed("p")];
    FamilyPrinted();
    SampleIsFaithful();
    SampleIsReferential();
    TwoPrinted(FAMILY, ds[0], ds[1]);
    assert "p" in References(ds[0].schema) && !Has(ds[..0], "p");
    assert !InPlace(References, map[], ds, 0);
    AcceptedIffInOrder(SAMPLE, References, map[], FAMILY, ds);
    ImportInstalls(SAMPLE, map[], FAMILY, ds);
  }

  /**
   * The order of the diff need not be that of the push.  A commit pushed as parent and
   * then child may be sent as child and then parent, and the client's import fails.
   */
  lemma ChildBeforeParent()
    ensures ImportTables(SAMPLE, map[], [Printed("p"), Printed("c")]) == (FAMILY, true)
    ensures IsExport(SAMPLE, map[], FAMILY, [Printed("c"), Printed("p")])
    ensures !ImportTables(SAMPLE, map[], [Printed("c"), Printed("p")]).1
  {
    ParentFirst();
    ChildFirst();
  }

  lemma TwoPrinted(after: Tables, x: Dump, y: Dump)
    requires x.name != y.name && after.Keys == {x.name, y.name}
    requires PrintedAs(SAMPLE, x, after[x.name]) && PrintedAs(SAMPLE, y, after[y.name])
    ensures PrintedFrom(SAMPLE, after, [x, y]) && Distinct([x, y]) && SchemasAgree(map[], after)
    ensures PassesExport(x.name) && PassesExport(y.name) ==> IsExport(SAMPLE, map[], after, [x, y])
  {
    assert [x, y][0].name == x.name && [x, y][1].name == y.name;
  }

  lemma InstalledPair(after: Tables, x: Dump, y: Dump)
    requires x.name != y.name && after.Keys == {x.name, y.name}
    requires after[x.name].rows == [] && after[y.name].rows == []
    ensures Installed(SAMPLE, map[], after, [x, y]) == after
  {
    assert [x, y][..1] == [x] && [x][..0] == [];
    assert Installed(SAMPLE, map[], after, [x]) == map[x.name := Seen(SAMPLE, after[x.name])];
  }

  /** Rows that all print as blank lines are not loaded: the commit is imported with success and without them. */
  lemma BlankRowsAreLost()
    ensures var t := Table("+t", [[""]]);
            && SAMPLE.render(t.schema, t.rows) == ["h", ""]
            && ImportTable(SAMPLE, map[], DumpOf(SAMPLE, "t", t)) == (map["t" := Table("+t", [])], true)
  {
    var t := Table("+t", [[""]]);
    var data := SAMPLE.render(t.schema, t.rows);
    assert [[""]][1..] == [];
    assert RowLines([[""]]) == [""];
    assert data == ["h"] + [""] == ["h", ""];
    OnlyHeader();
    assert data[..1] == HEADER && IsBlank("");
    assert ContentLines(data) == 1;
    assert "+t"[1..] == "t" && SafeTableName("t");
  }
}
