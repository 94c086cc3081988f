/**
 * A small engine that meets the axioms put on Dolt, which are therefore consistent,
 * and on which the examples in PullExamples are worked out.
 */
module SampleEngine {
  import opened Common
  import opened CommitTables
  import opened ReferenceOrder

  /** The one table that foreign keys refer to. */
  const PARENT := "p"

  /**
   * Its DDL: `+n` creates table n, `&n` creates it with a foreign key to the parent,
   * `!n` adds that key to an existing table and `-n` drops the table.
   */
  function Execute(ws: Tables, text: string): Ran {
    if |text| < 2 then Ran(ws, Refused)
    else
      var name := text[1..];
      if text[0] == '+' then
        if name in ws then Ran(ws, AlreadyExists) else Ran(ws[name := Table(text, [])], Done)
      else if text[0] == '&' then
        if name in ws then Ran(ws, AlreadyExists)
        else if PARENT in ws || name == PARENT then Ran(ws[name := Table(text, [])], Done)
        else Ran(ws, Refused)
      else if name !in ws then Ran(ws, Refused)
      else if text[0] == '!' then Ran(ws[name := Table("&" + name, ws[name].rows)], Done)
      else if text[0] == '-' then Ran(ws - {name}, Done)
      else Ran(ws, Refused)
  }

  function References(schema: string): set<string> {
    if schema != "" && schema[0] == '&' then {PARENT} else {}
  }

  predicate Truncates(ws: Tables, name: string) {
    forall other :: other in ws.Keys && other != name ==> name !in References(ws[other].schema)
  }

  function FieldLines(row: seq<string>): seq<string> {
    if row == [] then [] else ["f" + row[0]] + FieldLines(row[1..])
  }

  /** One line per row and one per field, but a row of one empty field prints as a blank line. */
  function RowLines(rows: Rows): seq<string> {
    if rows == [] then []
    else (if rows[0] == [""] then [""] else ["r"] + FieldLines(rows[0])) + RowLines(rows[1..])
  }

  predicate IsField(line: string) {
    line != "" && line[0] == 'f'
  }

  /** The fields at the front of the lines, and what follows them. */
  function ReadFields(lines: seq<string>): (r: (seq<string>, seq<string>))
    ensures |r.1| <= |lines|
  {
    if lines == [] || !IsField(lines[0]) then ([], lines)
    else
      var (fields, rest) := ReadFields(lines[1..]);
      ([lines[0][1..]] + fields, rest)
  }

  function ReadRows(lines: seq<string>): Rows
    decreases |lines|
  {
    if lines == [] then []
    else if lines[0] == "" then [[""]] + ReadRows(lines[1..])
    else
      var (fields, rest) := ReadFields(lines[1..]);
      [fields] + ReadRows(rest)
  }

  lemma {:induction false} FieldsRoundTrip(row: seq<string>, rest: seq<string>)
    requires rest != [] ==> !IsField(rest[0])
    ensures ReadFields(FieldLines(row) + rest) == (row, rest)
  {
    if row == [] {
      assert FieldLines(row) + rest == rest;
    } else {
      var lines, tail := FieldLines(row) + rest, FieldLines(row[1..]) + rest;
      var line := "f" + row[0];
      assert lines == [line] + tail;
      assert IsField(line) && line[1..] == row[0];
      FieldsRoundTrip(row[1..], rest);
      assert ReadFields(lines).0 == [row[0]] + row[1..] == row;
    }
  }

  lemma {:induction false} RowsRoundTrip(rows: Rows)
    ensures ReadRows(RowLines(rows)) == rows
  {
    if rows != [] {
      var rest := RowLines(rows[1..]);
      RowsRoundTrip(rows[1..]);
      assert rows == [rows[0]] + rows[1..];
      if rows[0] == [""] {
        assert RowLines(rows)[1..] == rest;
      } else {
        assert RowLines(rows)[1..] == FieldLines(rows[0]) + rest;
        FieldsRoundTrip(rows[0], rest);
      }
    }
  }

  /** The CSV text of a table without rows. */
  const HEADER := ["h"]

  const SAMPLE := Engine(
    (ws: Tables, text: string) => Execute(ws, text),
    (ws: Tables, name: string) => Truncates(ws, name),
    (ws: Tables, name: string, data: seq<string>) => if data == [] then None else Some(ReadRows(data[1..])),
    (text: string) => text,
    (schema: string, rows: Rows) => ["h"] + RowLines(rows),
    (tables: Tables) => map[])

  lemma LoadsWhatItPrints(ws: Tables, name: string, rows: Rows)
    ensures LoadsBack(SAMPLE, ws, name, rows) && RowsLoad(SAMPLE, ws, name, rows)
  {
    assert (["h"] + RowLines(rows))[1..] == RowLines(rows);
    RowsRoundTrip(rows);
  }

  lemma SampleIsFaithful()
    ensures Faithful(SAMPLE)
  {
    forall ws: Tables, name: string, rows: Rows
      ensures LoadsBack(SAMPLE, ws, name, rows)
    {
      LoadsWhatItPrints(ws, name, rows);
    }
  }

  /** Its plain CREATE texts. */
  lemma PlainTexts(text: string, name: string)
    ensures CreatesOnly(SAMPLE, text, name) <==> name != "" && (text == "+" + name || text == "&" + name)
  {
    if CreatesOnly(SAMPLE, text, name) {
      var ws: Tables := map[name := Table("", [])];
      assert CreatesIn(SAMPLE, ws, text, name);
      assert text[1..] == name;
      assert text == [text[0]] + name;
    }
    if name != "" && (text == "+" + name || text == "&" + name) {
      assert text[1..] == name;
      forall ws: Tables
        ensures CreatesIn(SAMPLE, ws, text, name)
      {
      }
    }
  }

  lemma SampleIsReferential()
    ensures Referential(SAMPLE, References)
  {
    forall ws: Tables, name: string, schema: string | Printable(SAMPLE, name, schema)
      ensures ChecksReferences(SAMPLE, References, ws, name, schema)
    {
      PlainTexts(schema, name);
      assert schema[1..] == name;
    }
    forall ws: Tables, name: string, rows: Rows
      ensures RowsLoad(SAMPLE, ws, name, rows)
    {
      LoadsWhatItPrints(ws, name, rows);
    }
  }
}
