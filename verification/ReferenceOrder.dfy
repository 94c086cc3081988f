/**
 * When the commands for a pulled commit succeed on an engine that checks foreign
 * keys between tables: a new table comes after those it refers to, and no table is
 * reloaded that another one refers to.
 */
module ReferenceOrder {
  import opened CommitTables

  /** The tables that a schema refers to. */
  type Needs = string -> set<string>

  /** Another table refers to this one. */
  ghost predicate Referenced(needs: Needs, ws: Tables, name: string) {
    exists other :: other in ws && other != name && name in needs(ws[other].schema)
  }

  predicate RowsLoad(e: Engine, ws: Tables, name: string, rows: Rows) {
    name in ws ==> e.load(ws, name, e.render(ws[name].schema, rows)).Some?
  }

  /** CREATE needs the tables that it refers to, and TRUNCATE refuses a table that another one refers to. */
  ghost predicate ChecksReferences(e: Engine, needs: Needs, ws: Tables, name: string, schema: string) {
    if name in ws then e.run(ws, schema).exit.AlreadyExists? && (e.truncates(ws, name) <==> !Referenced(needs, ws, name))
    else e.run(ws, schema).exit.Done? <==> needs(schema) <= ws.Keys + {name}
  }

  /** An engine on which references decide; printed rows always load. */
  ghost predicate Referential(e: Engine, needs: Needs) {
    && (forall ws, name, schema :: Printable(e, name, schema) ==> ChecksReferences(e, needs, ws, name, schema))
    && (forall ws, name, rows :: RowsLoad(e, ws, name, rows))
  }

  /** Dump `i` comes where its references allow. */
  ghost predicate InPlace(needs: Needs, ws: Tables, ds: seq<Dump>, i: nat)
    requires i < |ds|
  {
    var name := ds[i].name;
    if name in ws then
      && !Referenced(needs, ws, name)
      && forall k :: 0 <= k < i && ds[k].name != name ==> name !in needs(ds[k].schema)
    else forall p :: p in needs(ds[i].schema) ==> p in ws || p == name || Has(ds[..i], p)
  }

  ghost predicate InOrder(needs: Needs, ws: Tables, ds: seq<Dump>) {
    forall i: nat :: i < |ds| ==> InPlace(needs, ws, ds, i)
  }

  ghost predicate Distinct(ds: seq<Dump>) {
    forall i, j :: 0 <= i < j < |ds| ==> ds[i].name != ds[j].name
  }

  lemma InOrderLast(needs: Needs, ws: Tables, ds: seq<Dump>)
    requires ds != []
    ensures InOrder(needs, ws, ds) <==> InOrder(needs, ws, ds[..|ds| - 1]) && InPlace(needs, ws, ds, |ds| - 1)
  {
    var init := ds[..|ds| - 1];
    forall i: nat | i < |init|
      ensures InPlace(needs, ws, ds, i) <==> InPlace(needs, ws, init, i)
    {
      assert ds[..i] == init[..i];
    }
  }

  /** With the earlier dumps in place, a table is referred to by what was there and by what was sent. */
  lemma ReferencedAfter(e: Engine, needs: Needs, ws: Tables, target: Tables, ds: seq<Dump>, name: string)
    requires PrintedFrom(e, target, ds) && SchemasAgree(ws, target)
    ensures Referenced(needs, Installed(e, ws, target, ds), name) <==>
            || Referenced(needs, ws, name)
            || exists k :: 0 <= k < |ds| && ds[k].name != name && name in needs(ds[k].schema)
  {
    var r := Installed(e, ws, target, ds);
    forall other
      ensures other in r <==> other in ws || Has(ds, other)
      ensures other in ws ==> r[other].schema == ws[other].schema
    {
      InstalledAt(e, ws, target, ds, other);
    }
    forall k | 0 <= k < |ds|
      ensures ds[k].name in r && r[ds[k].name].schema == ds[k].schema
    {
      assert Has(ds, ds[k].name) && PrintedAs(e, ds[k], target[ds[k].name]);
      InstalledAt(e, ws, target, ds, ds[k].name);
    }
    if Referenced(needs, ws, name) {
      var other :| other in ws && other != name && name in needs(ws[other].schema);
      assert other in r;
    }
  }

  lemma LastInPlace(e: Engine, needs: Needs, ws: Tables, target: Tables, ds: seq<Dump>)
    requires Referential(e, needs) && PrintedFrom(e, target, ds) && SchemasAgree(ws, target)
    requires ds != [] && Distinct(ds)
    ensures var init, d := ds[..|ds| - 1], ds[|ds| - 1];
            Accepts(e, Installed(e, ws, target, init), d.name, target[d.name]) <==> InPlace(needs, ws, ds, |ds| - 1)
  {
    var init, d := ds[..|ds| - 1], ds[|ds| - 1];
    var r, t := Installed(e, ws, target, init), target[d.name];
    assert PrintedAs(e, d, t);
    assert !Has(init, d.name);
    InstalledAt(e, ws, target, init, d.name);
    AcceptsIffReferences(e, needs, r, d.name, t);
    if d.name in ws {
      ReferencedAfter(e, needs, ws, target, init, d.name);
    } else {
      forall p
        ensures p in r <==> p in ws || Has(init, p)
      {
        InstalledAt(e, ws, target, init, p);
      }
    }
  }

  lemma AcceptsIffReferences(e: Engine, needs: Needs, ws: Tables, name: string, t: Table)
    requires Referential(e, needs) && Printable(e, name, t.schema)
    ensures Accepts(e, ws, name, t) <==>
            if name in ws then !Referenced(needs, ws, name) else needs(t.schema) <= ws.Keys + {name}
  {
    assert ChecksReferences(e, needs, ws, name, t.schema);
    assert RowsLoad(e, ws[name := Table(t.schema, [])], name, t.rows);
  }

  /**
   * On an engine that checks references, the tables of a commit are accepted in the
   * order sent exactly when every one of them comes in place.
   */
  lemma {:induction false} AcceptedIffInOrder(e: Engine, needs: Needs, ws: Tables, target: Tables, ds: seq<Dump>)
    requires Referential(e, needs) && PrintedFrom(e, target, ds) && SchemasAgree(ws, target) && Distinct(ds)
    ensures Accepted(e, ws, target, ds) <==> InOrder(needs, ws, ds)
  {
    if ds != [] {
      AcceptedIffInOrder(e, needs, ws, target, ds[..|ds| - 1]);
      InOrderLast(needs, ws, ds);
      LastInPlace(e, needs, ws, target, ds);
    }
  }
}
