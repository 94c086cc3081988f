/**
 * How pushed commits change tables (`runDoltCommitImport`, `importTable`), what
 * a pull sends for each commit (`changedTables`, `exportTable`), and when
 * importing what was sent for a commit redoes it.
 */
module CommitTables {
  import opened Common
  import opened TableNames
  import opened CommitGraph

  type Rows = seq<seq<string>>

  /** A schema is what `SHOW CREATE TABLE` prints. */
  datatype Table = Table(schema: string, rows: Rows)

  type Tables = map<string, Table>

  /** A table as it travels: its DDL, and its CSV text as lines. */
  datatype Dump = Dump(name: string, schema: string, data: seq<string>)

  /** How `dolt sql` ends; `AlreadyExists` is a failure whose message says so. */
  datatype Exit = Done | AlreadyExists | Refused

  datatype Ran = Ran(tables: Tables, exit: Exit)

  /**
   * What is Dolt's own.  Every command sees the working set: `run` executes any SQL
   * text on it, `truncates` and `load` say whether TRUNCATE and `table import -r`
   * succeed there, `shown` is how a table that a text created prints, `render` is the
   * CSV output and `derive` gives the hidden tables of full-text indexes.
   */
  datatype Engine = Engine(
    run: (Tables, string) -> Ran,
    truncates: (Tables, string) -> bool,
    load: (Tables, string, seq<string>) -> Option<Rows>,
    shown: string -> string,
    render: (string, Rows) -> seq<string>,
    derive: Tables -> Tables)

  predicate IsBlank(line: string) {
    forall i :: 0 <= i < |line| ==> line[i] == '\r'
  }

  /** Lines that are not blank once carriage returns are dropped. */
  function ContentLines(data: seq<string>): nat {
    if data == [] then 0
    else ContentLines(data[..|data| - 1]) + (if IsBlank(data[|data| - 1]) then 0 else 1)
  }

  /** A line with a character other than a carriage return. */
  ghost predicate HasText(line: string) {
    exists i :: 0 <= i < |line| && line[i] != '\r'
  }

  /** Two different lines have text: a header, and a row. */
  ghost predicate HasRow(data: seq<string>) {
    exists i, j :: 0 <= i < j < |data| && HasText(data[i]) && HasText(data[j])
  }

  /** The count that import takes is above one exactly when there is a row. */
  lemma {:induction false} ContentLinesCount(data: seq<string>)
    ensures ContentLines(data) >= 1 <==> exists i :: 0 <= i < |data| && HasText(data[i])
    ensures ContentLines(data) >= 2 <==> HasRow(data)
  {
    if data != [] {
      var init, last := data[..|data| - 1], data[|data| - 1];
      ContentLinesCount(init);
      assert IsBlank(last) <==> !HasText(last);
      assert forall i :: 0 <= i < |init| ==> init[i] == data[i];
      if HasRow(data) && !HasRow(init) {
        var i, j :| 0 <= i < j < |data| && HasText(data[i]) && HasText(data[j]);
        assert HasText(init[i]);
      }
    }
  }

  /**
   * The text is a plain CREATE TABLE of this name: where the table exists it says so,
   * and elsewhere it adds that table, empty, or fails, in some way; nothing else happens.
   */
  ghost predicate CreatesOnly(e: Engine, text: string, name: string) {
    forall ws: Tables :: CreatesIn(e, ws, text, name)
  }

  predicate CreatesIn(e: Engine, ws: Tables, text: string, name: string) {
    var r := e.run(ws, text);
    if name in ws then r == Ran(ws, AlreadyExists)
    else r == Ran(ws, Refused) || r == Ran(ws, AlreadyExists) || r == Ran(ws[name := Table(e.shown(text), [])], Done)
  }

  /** A schema that creates the table again as it is. */
  ghost predicate Printable(e: Engine, name: string, schema: string) {
    CreatesOnly(e, schema, name) && e.shown(schema) == schema
  }

  predicate LoadsBack(e: Engine, ws: Tables, name: string, rows: Rows) {
    name in ws ==> e.load(ws, name, e.render(ws[name].schema, rows)) in {None, Some(rows)}
  }

  /**
   * The axioms on the engine: printed rows load back under the same schema if they
   * load at all, the printed DDL of a created table creates it again, and derived
   * tables have hidden names.
   */
  ghost predicate Faithful(e: Engine) {
    && (forall ws, name, rows :: LoadsBack(e, ws, name, rows))
    && (forall text, name :: CreatesOnly(e, text, name) ==> Printable(e, name, e.shown(text)))
    && (forall ts, name :: name in e.derive(ts) ==> FulltextInternal(name))
  }

  // ------------------------------------------------------------------- import

  /** Runs the DDL; a table that already exists is truncated instead. */
  function Prepare(e: Engine, ws: Tables, d: Dump): (Tables, bool) {
    var r := e.run(ws, d.schema);
    match r.exit
    case Done => (r.tables, true)
    case Refused => (r.tables, false)
    case AlreadyExists =>
      if d.name in r.tables && e.truncates(r.tables, d.name)
      then (r.tables[d.name := Table(r.tables[d.name].schema, [])], true)
      else (r.tables, false)
  }

  /** Loads the rows; a header alone, or lines that are all blank, load none. */
  function Fill(e: Engine, ws: Tables, d: Dump): (Tables, bool) {
    if ContentLines(d.data) <= 1 then (ws, true)
    else if d.name !in ws then (ws, false)
    else
      match e.load(ws, d.name, d.data)
      case None => (ws, false)
      case Some(rows) => (ws[d.name := Table(ws[d.name].schema, rows)], true)
  }

  /** `dolt table import -r` of this dump turned `before` into `after`. */
  ghost predicate Loaded(e: Engine, before: Tables, d: Dump, after: Tables) {
    && d.name in before && e.load(before, d.name, d.data).Some?
    && after == before[d.name := Table(before[d.name].schema, e.load(before, d.name, d.data).value)]
  }

  /** `importTable` on the working set.  A failure leaves what was done so far. */
  function ImportTable(e: Engine, ws: Tables, d: Dump): (Tables, bool) {
    if !SafeTableName(d.name) then (ws, false)
    else
      var (prepared, ok) := Prepare(e, ws, d);
      if ok then Fill(e, prepared, d) else (prepared, false)
  }

  /** The loop over the tables of a commit, stopping at the first failure. */
  function ImportTables(e: Engine, ws: Tables, ds: seq<Dump>): (Tables, bool) {
    if ds == [] then (ws, true)
    else
      var (before, ok) := ImportTables(e, ws, ds[..|ds| - 1]);
      if ok then ImportTable(e, before, ds[|ds| - 1]) else (before, false)
  }

  /** The dumps that import looks at: not those of hidden tables. */
  function Visible(ds: seq<Dump>): seq<Dump> {
    if ds == [] then []
    else Visible(ds[..|ds| - 1]) + (if FulltextInternal(ds[|ds| - 1].name) then [] else [ds[|ds| - 1]])
  }

  /** No table is dropped and no schema changes. */
  ghost predicate Keeps(a: Tables, b: Tables) {
    forall name :: name in a ==> name in b && b[name].schema == a[name].schema
  }

  /** Importing a table keeps what there is exactly when running its DDL does: nothing checks that text. */
  lemma ImportKeepsIff(e: Engine, ws: Tables, d: Dump)
    requires SafeTableName(d.name)
    ensures Keeps(ws, ImportTable(e, ws, d).0) <==> Keeps(ws, e.run(ws, d.schema).tables)
  {
    var ran := e.run(ws, d.schema).tables;
    var (prepared, ok) := Prepare(e, ws, d);
    var done := ImportTable(e, ws, d).0;
    assert Keeps(ran, prepared) && Keeps(prepared, ran);
    assert Keeps(prepared, done) && Keeps(done, prepared);
  }

  /** Every dump's DDL is a plain CREATE TABLE of its own name. */
  ghost predicate AllPlain(e: Engine, ds: seq<Dump>) {
    forall i :: 0 <= i < |ds| ==> CreatesOnly(e, ds[i].schema, ds[i].name)
  }

  /** Tables are only added or reloaded, and the new ones pass the import filter and can be printed. */
  ghost predicate Grows(e: Engine, a: Tables, b: Tables) {
    && Keeps(a, b)
    && (forall name :: name in b && name !in a ==> PassesImport(name) && Printable(e, name, b[name].schema))
  }

  lemma GrowsTransitive(e: Engine, a: Tables, b: Tables, c: Tables)
    requires Grows(e, a, b) && Grows(e, b, c)
    ensures Grows(e, a, c)
  {
  }

  /** A plain dump concerns its own table alone, and gives a new one the schema that its DDL prints as. */
  lemma PlainOutcome(e: Engine, ws: Tables, d: Dump)
    requires CreatesOnly(e, d.schema, d.name)
    ensures var (r, ok) := ImportTable(e, ws, d);
            && (r == ws || (d.name in r && r == ws[d.name := r[d.name]]))
            && (ok ==> d.name in r)
            && (d.name in r ==> r[d.name].schema == if d.name in ws then ws[d.name].schema else e.shown(d.schema))
            && (d.name in r ==> SafeTableName(d.name) || d.name in ws)
  {
    assert CreatesIn(e, ws, d.schema, d.name);
    var p := Prepare(e, ws, d).0;
    assert p == ws || (d.name in p && p == ws[d.name := p[d.name]]);
  }

  /**
   * What a successful import of a plain dump leaves: the rows that the engine loaded from its
   * text, if two lines of it have text, and no rows otherwise.
   */
  lemma ImportLoadsRows(e: Engine, ws: Tables, d: Dump)
    requires CreatesOnly(e, d.schema, d.name) && ImportTable(e, ws, d).1
    ensures var after := ImportTable(e, ws, d).0;
            var empty := Table(if d.name in ws then ws[d.name].schema else e.shown(d.schema), []);
            && SafeTableName(d.name) && (d.name in ws ==> e.truncates(ws, d.name)) && d.name in after
            && (HasRow(d.data) ==>
                  && e.load(ws[d.name := empty], d.name, d.data).Some?
                  && after[d.name].rows == e.load(ws[d.name := empty], d.name, d.data).value)
            && (!HasRow(d.data) ==> after[d.name].rows == [])
  {
    assert CreatesIn(e, ws, d.schema, d.name);
    ContentLinesCount(d.data);
  }

  lemma ImportTableGrows(e: Engine, ws: Tables, d: Dump)
    requires Faithful(e) && CreatesOnly(e, d.schema, d.name) && !FulltextInternal(d.name)
    ensures Grows(e, ws, ImportTable(e, ws, d).0)
    ensures ImportTable(e, ws, d).1 ==> d.name in ImportTable(e, ws, d).0
  {
    PlainOutcome(e, ws, d);
    assert Printable(e, d.name, e.shown(d.schema));
  }

  /**
   * Importing plain dumps never drops a table and never changes the schema of one
   * that exists, whether or not it succeeds.
   */
  lemma {:induction false} ImportGrows(e: Engine, ws: Tables, ds: seq<Dump>)
    requires Faithful(e) && AllPlain(e, ds) && forall i :: 0 <= i < |ds| ==> !FulltextInternal(ds[i].name)
    ensures Grows(e, ws, ImportTables(e, ws, ds).0)
    ensures ImportTables(e, ws, ds).1 ==> forall i :: 0 <= i < |ds| ==> ds[i].name in ImportTables(e, ws, ds).0
  {
    if ds != [] {
      var init, d := ds[..|ds| - 1], ds[|ds| - 1];
      ImportGrows(e, ws, init);
      var (before, ok) := ImportTables(e, ws, init);
      if ok {
        ImportTableGrows(e, before, d);
        GrowsTransitive(e, ws, before, ImportTable(e, before, d).0);
      }
    }
  }

  /** Importing plain dumps leaves the tables it does not name as they were. */
  lemma {:induction false} ImportFrame(e: Engine, ws: Tables, ds: seq<Dump>, name: string)
    requires AllPlain(e, ds) && !Has(ds, name)
    ensures name in ImportTables(e, ws, ds).0 <==> name in ws
    ensures name in ws ==> ImportTables(e, ws, ds).0[name] == ws[name]
  {
    if ds != [] {
      HasLast(ds);
      ImportFrame(e, ws, ds[..|ds| - 1], name);
      PlainOutcome(e, ImportTables(e, ws, ds[..|ds| - 1]).0, ds[|ds| - 1]);
    }
  }

  lemma {:induction false} VisibleNames(ds: seq<Dump>)
    ensures forall d :: d in Visible(ds) <==> d in ds && !FulltextInternal(d.name)
  {
    if ds != [] {
      VisibleNames(ds[..|ds| - 1]);
      assert ds == ds[..|ds| - 1] + [ds[|ds| - 1]];
    }
  }

  /** The filter goes dump by dump, and keeps their order. */
  lemma {:induction false} VisibleConcat(a: seq<Dump>, b: seq<Dump>)
    ensures Visible(a + b) == Visible(a) + Visible(b)
    ensures |b| == 1 ==> Visible(b) == if FulltextInternal(b[0].name) then [] else b
  {
    if b == [] {
      assert a + b == a;
    } else {
      assert (a + b)[..|a + b| - 1] == a + b[..|b| - 1];
      VisibleConcat(a, b[..|b| - 1]);
    }
  }

  /** The dumps that import looks at are visible, and plain if all are. */
  lemma VisiblePlain(e: Engine, ds: seq<Dump>)
    ensures forall i :: 0 <= i < |Visible(ds)| ==> !FulltextInternal(Visible(ds)[i].name)
    ensures AllPlain(e, ds) ==> AllPlain(e, Visible(ds))
  {
    VisibleNames(ds);
    forall i | 0 <= i < |Visible(ds)|
      ensures !FulltextInternal(Visible(ds)[i].name)
      ensures AllPlain(e, ds) ==> CreatesOnly(e, Visible(ds)[i].schema, Visible(ds)[i].name)
    {
      assert Visible(ds)[i] in Visible(ds);
    }
  }

  // ------------------------------------------------------------------- export

  /** A commit's tables: the user's, and the hidden ones Dolt derives from them. */
  function WithDerived(e: Engine, user: Tables): Tables {
    user + e.derive(user)
  }

  function UserTables(ts: Tables): Tables {
    map name | name in ts && !FulltextInternal(name) :: ts[name]
  }

  /** Names with a row in the diff summary that still exist after the commit. */
  function Changed(before: Tables, after: Tables): set<string> {
    set name | name in after && (name !in before || before[name] != after[name])
  }

  function DumpOf(e: Engine, name: string, t: Table): Dump {
    Dump(name, t.schema, e.render(t.schema, t.rows))
  }

  /** What export sends for a step from `before` to `after`: every changed table that passes the filter, in some order. */
  ghost predicate IsExport(e: Engine, before: Tables, after: Tables, ds: seq<Dump>) {
    && (forall name :: Has(ds, name) <==> name in Changed(before, after) && PassesExport(name))
    && (forall i :: 0 <= i < |ds| ==> ds[i].name in after && ds[i] == DumpOf(e, ds[i].name, after[ds[i].name]))
    && (forall i, j :: 0 <= i < j < |ds| ==> ds[i].name != ds[j].name)
  }

  ghost predicate Has(ds: seq<Dump>, name: string) {
    exists i :: 0 <= i < |ds| && ds[i].name == name
  }

  lemma HasLast(ds: seq<Dump>)
    requires ds != []
    ensures forall name :: Has(ds, name) <==> Has(ds[..|ds| - 1], name) || ds[|ds| - 1].name == name
  {
    forall name
      ensures Has(ds[..|ds| - 1], name) ==> Has(ds, name)
    {
      if Has(ds[..|ds| - 1], name) {
        var i :| 0 <= i < |ds| - 1 && ds[..|ds| - 1][i].name == name;
        assert ds[i].name == name;
      }
    }
  }

  // ----------------------------------------------------- importing what was sent

  /** What import makes of a printed table: rows that all print as blank lines are lost. */
  ghost function Seen(e: Engine, t: Table): Table {
    if Legible(e, t) then t else Table(t.schema, [])
  }

  /** A table without rows, or one that prints with two lines of text. */
  ghost predicate Legible(e: Engine, t: Table) {
    t.rows == [] || HasRow(e.render(t.schema, t.rows))
  }

  /** The commands for a printed table succeed on this working set. */
  ghost predicate Accepts(e: Engine, ws: Tables, name: string, t: Table) {
    && (if name in ws then e.run(ws, t.schema).exit.AlreadyExists? && e.truncates(ws, name)
        else e.run(ws, t.schema).exit.Done?)
    && var data := e.render(t.schema, t.rows);
       (HasRow(data) ==> e.load(ws[name := Table(t.schema, [])], name, data).Some?)
  }

  ghost predicate SchemasAgree(a: Tables, b: Tables) {
    forall name :: name in a && name in b ==> a[name].schema == b[name].schema
  }

  /** Importing one printed table succeeds exactly when its commands do, and installs that table as seen. */
  lemma ImportInstallsOne(e: Engine, ws: Tables, name: string, t: Table)
    requires Faithful(e) && SafeTableName(name) && Printable(e, name, t.schema)
    requires name in ws ==> ws[name].schema == t.schema
    ensures ImportTable(e, ws, DumpOf(e, name, t)).1 <==> Accepts(e, ws, name, t)
    ensures Accepts(e, ws, name, t) ==> ImportTable(e, ws, DumpOf(e, name, t)).0 == ws[name := Seen(e, t)]
  {
    assert CreatesIn(e, ws, t.schema, name);
    var empty := ws[name := Table(t.schema, [])];
    ContentLinesCount(e.render(t.schema, t.rows));
    assert LoadsBack(e, empty, name, t.rows);
    assert empty[name := t] == ws[name := t];
  }

  /** Printed tables of `target`. */
  ghost predicate PrintedFrom(e: Engine, target: Tables, ds: seq<Dump>) {
    forall i :: 0 <= i < |ds| ==> ds[i].name in target && PrintedAs(e, ds[i], target[ds[i].name])
  }

  ghost predicate PrintedAs(e: Engine, d: Dump, t: Table) {
    d == DumpOf(e, d.name, t) && SafeTableName(d.name) && Printable(e, d.name, t.schema)
  }

  /** `ws` with the dumped tables taken from `target`, as import sees them. */
  ghost function Installed(e: Engine, ws: Tables, target: Tables, ds: seq<Dump>): Tables {
    if ds == [] then ws
    else
      var before, name := Installed(e, ws, target, ds[..|ds| - 1]), ds[|ds| - 1].name;
      if name in target then before[name := Seen(e, target[name])] else before
  }

  /** Each table's commands succeed once the tables before it are in place. */
  ghost predicate Accepted(e: Engine, ws: Tables, target: Tables, ds: seq<Dump>) {
    ds == [] ||
    var init, name := ds[..|ds| - 1], ds[|ds| - 1].name;
    Accepted(e, ws, target, init) && name in target && Accepts(e, Installed(e, ws, target, init), name, target[name])
  }

  lemma {:induction false} InstalledAt(e: Engine, ws: Tables, target: Tables, ds: seq<Dump>, name: string)
    requires PrintedFrom(e, target, ds)
    ensures name in Installed(e, ws, target, ds) <==> name in ws || Has(ds, name)
    ensures Has(ds, name) ==> name in target && Installed(e, ws, target, ds)[name] == Seen(e, target[name])
    ensures !Has(ds, name) && name in ws ==> Installed(e, ws, target, ds)[name] == ws[name]
  {
    if ds != [] {
      InstalledAt(e, ws, target, ds[..|ds| - 1], name);
      HasLast(ds);
    }
  }

  /**
   * Importing printed tables of `target` succeeds exactly when each is accepted in the
   * order sent, and then installs exactly those tables.
   */
  lemma {:induction false} ImportInstalls(e: Engine, ws: Tables, target: Tables, ds: seq<Dump>)
    requires Faithful(e) && PrintedFrom(e, target, ds) && SchemasAgree(ws, target)
    ensures ImportTables(e, ws, ds).1 <==> Accepted(e, ws, target, ds)
    ensures Accepted(e, ws, target, ds) ==> ImportTables(e, ws, ds).0 == Installed(e, ws, target, ds)
    ensures SchemasAgree(Installed(e, ws, target, ds), target)
  {
    if ds != [] {
      var init, d := ds[..|ds| - 1], ds[|ds| - 1];
      ImportInstalls(e, ws, target, init);
      assert PrintedAs(e, d, target[d.name]);
      ImportInstallsOne(e, Installed(e, ws, target, init), d.name, target[d.name]);
    }
  }

  // ------------------------------------------------------------------- history

  /** The import and export filters accept the same names. */
  lemma FiltersAgree(name: string)
    ensures PassesImport(name) <==> PassesExport(name)
  {
  }

  /**
   * A history in which every commit only grew its parent's tables, from an empty
   * root, and holds exactly the hidden tables derived from them.  Imports of plain
   * dumps keep a history in this shape (see ImportService).
   */
  ghost predicate GrownHistory(e: Engine, g: Graph<Tables>) {
    && WellFormed(g) && Linear(g)
    && forall h: Hash :: h < |g| ==> GrownAt(e, g, h)
  }

  ghost predicate GrownAt(e: Engine, g: Graph<Tables>, h: Hash)
    requires h < |g|
  {
    GrownCommit(e, UserAt(g, g[h].parents), g[h])
  }

  ghost predicate GrownCommit(e: Engine, start: Tables, c: Commit<Tables>) {
    && c.tables == WithDerived(e, UserTables(c.tables))
    && (c.parents == [] ==> UserTables(c.tables) == map[])
    && Grows(e, start, UserTables(c.tables))
  }

  /** The user tables that a commit started from; none for the root. */
  function UserAt(g: Graph<Tables>, parents: seq<Hash>): Tables {
    if parents != [] && parents[0] < |g| then UserTables(g[parents[0]].tables) else map[]
  }

  /** User tables and derived ones do not mix. */
  lemma UserOfDerived(e: Engine, user: Tables)
    requires Faithful(e) && forall name :: name in user ==> !FulltextInternal(name)
    ensures UserTables(WithDerived(e, user)) == user
  {
    assert forall name :: name in e.derive(user) ==> FulltextInternal(name);
  }

  /** A commit that grows its parent keeps the history grown. */
  lemma GrownExtend(e: Engine, g: Graph<Tables>, c: Commit<Tables>)
    requires GrownHistory(e, g) && |c.parents| == 1 && c.parents[0] < |g| && g[c.parents[0]].order < c.order
    requires GrownCommit(e, UserTables(g[c.parents[0]].tables), c)
    ensures GrownHistory(e, g + [c])
  {
    var g' := g + [c];
    forall h: Hash | h < |g'|
      ensures GrownAt(e, g', h)
    {
      if h < |g| {
        assert GrownAt(e, g, h);
        assert UserAt(g', g'[h].parents) == UserAt(g, g[h].parents);
      }
    }
  }

  /** In a grown history every user table passes both filters and can be printed. */
  lemma {:induction false} GrownNames(e: Engine, g: Graph<Tables>, h: Hash, name: string)
    requires GrownHistory(e, g) && h < |g| && name in UserTables(g[h].tables)
    ensures PassesImport(name) && PassesExport(name) && Printable(e, name, UserTables(g[h].tables)[name].schema)
    decreases h
  {
    assert GrownAt(e, g, h);
    FiltersAgree(name);
    if g[h].parents != [] && name in UserTables(g[g[h].parents[0]].tables) {
      GrownNames(e, g, g[h].parents[0], name);
    }
  }

  /** What export sends for one commit: nothing for the root, and nothing for a commit without a diff. */
  ghost predicate IsCommitExport(e: Engine, g: Graph<Tables>, h: Hash, sent: Option<seq<Dump>>)
    requires h < |g|
  {
    if g[h].parents == [] || g[h].parents[0] >= |g| || g[g[h].parents[0]].tables == g[h].tables then sent.None?
    else sent.Some? && IsExport(e, g[g[h].parents[0]].tables, g[h].tables, sent.value)
  }

  lemma {:induction false} AllVisible(ds: seq<Dump>)
    requires forall i :: 0 <= i < |ds| ==> !FulltextInternal(ds[i].name)
    ensures Visible(ds) == ds
  {
    if ds != [] {
      AllVisible(ds[..|ds| - 1]);
    }
  }

  /** What is sent for a commit is what it changed among the user's tables, printed; and all of it is visible. */
  lemma SentIsChanged(e: Engine, g: Graph<Tables>, h: Hash, sent: Option<seq<Dump>>)
    requires GrownHistory(e, g) && h < |g| && IsCommitExport(e, g, h, sent)
    ensures var b, b' := UserAt(g, g[h].parents), UserTables(g[h].tables);
            && Grows(e, b, b')
            && (sent.None? ==> Changed(b, b') == {})
            && (sent.Some? ==> forall name :: Has(sent.value, name) <==> name in Changed(b, b'))
            && (sent.Some? ==> PrintedFrom(e, b', sent.value) && Visible(sent.value) == sent.value)
  {
    assert GrownAt(e, g, h);
    if sent.Some? {
      var b, b' := UserAt(g, g[h].parents), UserTables(g[h].tables);
      forall name
        ensures Has(sent.value, name) <==> name in Changed(b, b')
      {
        if name in b' {
          GrownNames(e, g, h, name);
        }
      }
      SentPrinted(e, g, h, sent.value);
      AllVisible(sent.value);
    }
  }

  lemma SentPrinted(e: Engine, g: Graph<Tables>, h: Hash, ds: seq<Dump>)
    requires GrownHistory(e, g) && h < |g| && g[h].parents != [] && g[h].parents[0] < |g|
    requires IsExport(e, g[g[h].parents[0]].tables, g[h].tables, ds)
    ensures PrintedFrom(e, UserTables(g[h].tables), ds)
    ensures forall i :: 0 <= i < |ds| ==> !FulltextInternal(ds[i].name)
  {
    forall i | 0 <= i < |ds|
      ensures !FulltextInternal(ds[i].name) && ds[i].name in UserTables(g[h].tables)
      ensures PrintedAs(e, ds[i], UserTables(g[h].tables)[ds[i].name])
    {
      assert Has(ds, ds[i].name);
      GrownNames(e, g, h, ds[i].name);
    }
  }

  /** The client's side: import each commit that was sent. */
  function Replay(e: Engine, ws: Tables, stream: seq<Option<seq<Dump>>>): (Tables, bool) {
    if stream == [] then (ws, true)
    else
      var (before, ok) := Replay(e, ws, stream[..|stream| - 1]);
      var last := stream[|stream| - 1];
      if ok && last.Some? then ImportTables(e, before, Visible(last.value)) else (before, ok)
  }
}
