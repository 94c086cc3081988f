/**
 * The CSV reader behind the diff, log and merge commands (`parseCsvLine`,
 * `parseCsv`), and why it undoes the quoting of section 2 of RFC 4180.
 */
module Csv {
  import opened Strings

  /** The fields of what is left of a line, given the field and the quoting state so far. */
  function Scan(rest: string, current: string, inQuotes: bool): seq<string>
    decreases |rest|
  {
    if rest == "" then [current]
    else if rest[0] == '"' then
      if inQuotes && |rest| > 1 && rest[1] == '"' then Scan(rest[2..], current + "\"", inQuotes)
      else Scan(rest[1..], current, !inQuotes)
    else if rest[0] == ',' && !inQuotes then [current] + Scan(rest[1..], "", inQuotes)
    else Scan(rest[1..], current + [rest[0]], inQuotes)
  }

  /** The index loop. */
  method ParseCsvLine(line: string) returns (values: seq<string>)
    ensures values == Scan(line, "", false)
  {
    values := [];
    var current, inQuotes, i := "", false, 0;
    while i < |line|
      invariant 0 <= i <= |line|
      invariant values + Scan(line[i..], current, inQuotes) == Scan(line, "", false)
    {
      var c := line[i];
      if c == '"' {
        if inQuotes && i + 1 < |line| && line[i + 1] == '"' {
          assert line[i..][2..] == line[i + 2..];
          current := current + "\"";
          i := i + 1;
        } else {
          assert line[i..][1..] == line[i + 1..];
          inQuotes := !inQuotes;
        }
      } else {
        assert line[i..][1..] == line[i + 1..];
        if c == ',' && !inQuotes {
          values := values + [current];
          current := "";
        } else {
          current := current + [c];
        }
      }
      i := i + 1;
    }
    values := values + [current];
  }

  // ----------------------------------------------------------------- RFC 4180

  /** Quotes are doubled inside a quoted field. */
  function Escape(field: string): string {
    if field == "" then ""
    else (if field[0] == '"' then "\"\"" else [field[0]]) + Escape(field[1..])
  }

  predicate NeedsQuotes(field: string) {
    exists i :: 0 <= i < |field| && field[i] in {',', '"', '\r', '\n'}
  }

  /** A field is written in quotes, or as it is when nothing in it needs them. */
  predicate IsEncoding(field: string, text: string) {
    text == "\"" + Escape(field) + "\"" || (text == field && !NeedsQuotes(field))
  }

  ghost predicate IsRowEncoding(fields: seq<string>, texts: seq<string>) {
    |fields| == |texts| && forall i :: 0 <= i < |fields| ==> IsEncoding(fields[i], texts[i])
  }

  function Join(parts: seq<string>, separator: char): string {
    if parts == [] then ""
    else if |parts| == 1 then parts[0]
    else parts[0] + [separator] + Join(parts[1..], separator)
  }

  lemma {:induction false} ScanPlain(field: string, current: string, rest: string)
    requires !NeedsQuotes(field)
    ensures Scan(field + rest, current, false) == Scan(rest, current + field, false)
  {
    if field == "" {
      assert field + rest == rest && current + field == current;
    } else {
      assert field[0] !in {',', '"'};
      assert (field + rest)[1..] == field[1..] + rest;
      assert !NeedsQuotes(field[1..]) by {
        assert forall i :: 0 <= i < |field[1..]| ==> field[1..][i] == field[i + 1];
      }
      ScanPlain(field[1..], current + [field[0]], rest);
      assert current + [field[0]] + field[1..] == current + field;
    }
  }

  /** Inside quotes everything is taken literally, up to the closing quote. */
  lemma {:induction false} ScanQuoted(field: string, current: string, rest: string)
    requires rest == "" || rest[0] != '"'
    ensures Scan(Escape(field) + "\"" + rest, current, true) == Scan(rest, current + field, false)
  {
    var line := Escape(field) + "\"" + rest;
    if field == "" {
      assert line[1..] == rest && current + field == current;
    } else {
      var tail := Escape(field[1..]) + "\"" + rest;
      assert current + [field[0]] + field[1..] == current + field;
      ScanQuoted(field[1..], current + [field[0]], rest);
      if field[0] == '"' {
        assert line[2..] == tail;
      } else {
        assert line[1..] == tail;
      }
    }
  }

  lemma ScanField(field: string, text: string, rest: string)
    requires IsEncoding(field, text) && (rest == "" || rest[0] == ',')
    ensures Scan(text + rest, "", false) == Scan(rest, field, false)
  {
    if text == "\"" + Escape(field) + "\"" {
      assert (text + rest)[1..] == Escape(field) + "\"" + rest;
      ScanQuoted(field, "", rest);
      assert "" + field == field;
    } else {
      ScanPlain(field, "", rest);
      assert "" + field == field;
    }
  }

  /** Reading a written line gives back the fields, whichever of them were quoted. */
  lemma {:induction false} LineRoundTrip(fields: seq<string>, texts: seq<string>)
    requires fields != [] && IsRowEncoding(fields, texts)
    ensures Scan(Join(texts, ','), "", false) == fields
  {
    if |fields| == 1 {
      assert Join(texts, ',') + "" == Join(texts, ',');
      ScanField(fields[0], texts[0], "");
    } else {
      var rest := "," + Join(texts[1..], ',');
      assert Join(texts, ',') == texts[0] + rest;
      ScanField(fields[0], texts[0], rest);
      assert rest[1..] == Join(texts[1..], ',');
      LineRoundTrip(fields[1..], texts[1..]);
      assert fields == [fields[0]] + fields[1..];
    }
  }

  // ------------------------------------------------------------------ parseCsv

  function Split(s: string, separator: char): seq<string> {
    if s == "" then [""]
    else
      var rest := Split(s[1..], separator);
      if s[0] == separator then [""] + rest
      else if rest == [] then [[s[0]]]
      else [[s[0]] + rest[0]] + rest[1..]
  }

  /** Trimmed lines, without the empty ones. */
  function ContentLines(lines: seq<string>): seq<string> {
    if lines == [] then []
    else (if Trim(lines[0]) == "" then [] else [Trim(lines[0])]) + ContentLines(lines[1..])
  }

  function Lines(stdout: string): seq<string> {
    ContentLines(Split(Trim(stdout), '\n'))
  }

  /** `row[header] = values[index] ?? ''`, for each header in turn. */
  function BuildRow(headers: seq<string>, values: seq<string>): map<string, string> {
    if headers == [] then map[]
    else
      var n := |headers| - 1;
      BuildRow(headers[..n], values)[headers[n] := if n < |values| then values[n] else ""]
  }

  function Rows(lines: seq<string>, headers: seq<string>): seq<map<string, string>> {
    if lines == [] then [] else [BuildRow(headers, Scan(lines[0], "", false))] + Rows(lines[1..], headers)
  }

  function Parsed(stdout: string): seq<map<string, string>> {
    var lines := Lines(stdout);
    if |lines| <= 1 then [] else Rows(lines[1..], Scan(lines[0], "", false))
  }

  method ParseCsv(stdout: string) returns (rows: seq<map<string, string>>)
    ensures rows == Parsed(stdout)
  {
    var lines := Lines(stdout);
    if |lines| <= 1 {
      return [];
    }
    var headers := ParseCsvLine(lines[0]);
    rows := [];
    var data := lines[1..];
    for n := 0 to |data|
      invariant rows + Rows(data[n..], headers) == Rows(data, headers)
    {
      var values := ParseCsvLine(data[n]);
      assert data[n..][1..] == data[n + 1..];
      rows := rows + [BuildRow(headers, values)];
    }
  }

  /** A printed line that the line handling leaves alone. */
  predicate PlainLine(line: string) {
    line != "" && Tight(line) && '\n' !in line
  }

  lemma TrimTight(s: string)
    requires Tight(s)
    ensures Trim(s) == s
  {
  }

  lemma {:induction false} ContentLinesPlain(lines: seq<string>)
    requires forall i :: 0 <= i < |lines| ==> PlainLine(lines[i])
    ensures ContentLines(lines) == lines
  {
    if lines != [] {
      TrimTight(lines[0]);
      ContentLinesPlain(lines[1..]);
    }
  }

  lemma {:induction false} SplitPlain(line: string, separator: char)
    requires separator !in line
    ensures Split(line, separator) == [line]
  {
    if line != "" {
      assert line == [line[0]] + line[1..];
      SplitPlain(line[1..], separator);
    }
  }

  lemma {:induction false} SplitFirst(line: string, rest: string, separator: char)
    requires separator !in line
    ensures Split(line + [separator] + rest, separator) == [line] + Split(rest, separator)
  {
    var s := line + [separator] + rest;
    if line == "" {
      assert s[1..] == rest;
    } else {
      assert line == [line[0]] + line[1..];
      assert s == [line[0]] + (line[1..] + [separator] + rest);
      SplitFirst(line[1..], rest, separator);
    }
  }

  lemma {:induction false} SplitJoin(lines: seq<string>, separator: char)
    requires lines != [] && forall i :: 0 <= i < |lines| ==> separator !in lines[i]
    ensures Split(Join(lines, separator), separator) == lines
  {
    if |lines| == 1 {
      SplitPlain(lines[0], separator);
    } else {
      SplitFirst(lines[0], Join(lines[1..], separator), separator);
      SplitJoin(lines[1..], separator);
    }
  }

  lemma {:induction false} JoinTight(lines: seq<string>)
    requires lines != [] && forall i :: 0 <= i < |lines| ==> PlainLine(lines[i])
    ensures Join(lines, '\n') != "" && Tight(Join(lines, '\n'))
  {
    if |lines| > 1 {
      JoinTight(lines[1..]);
    }
  }

  lemma TrimNewline(text: string)
    requires text != "" && Tight(text)
    ensures Trim(text + "\n") == text
  {
    assert TrimStart(text + "\n") == text + "\n";
    assert (text + "\n")[..|text|] == text;
    assert TrimEnd(text + "\n") == TrimEnd(text) == text;
  }

  /** The lines of a printed table come back as they were. */
  lemma LinesRoundTrip(lines: seq<string>)
    requires lines != [] && forall i :: 0 <= i < |lines| ==> PlainLine(lines[i])
    ensures Lines(Join(lines, '\n') + "\n") == lines
  {
    var text := Join(lines, '\n');
    JoinTight(lines);
    TrimNewline(text);
    SplitJoin(lines, '\n');
    ContentLinesPlain(lines);
  }

  predicate Distinct(headers: seq<string>) {
    forall i, j :: 0 <= i < j < |headers| ==> headers[i] != headers[j]
  }

  lemma {:induction false} RowKeys(headers: seq<string>, values: seq<string>, h: string)
    ensures h in BuildRow(headers, values) <==> h in headers
  {
    if headers != [] {
      var init := headers[..|headers| - 1];
      assert headers == init + [headers[|headers| - 1]];
      RowKeys(init, values, h);
    }
  }

  /** With distinct headers a row holds each value under its own header. */
  lemma {:induction false} RowHolds(headers: seq<string>, values: seq<string>, i: nat)
    requires Distinct(headers) && i < |headers|
    ensures headers[i] in BuildRow(headers, values)
    ensures BuildRow(headers, values)[headers[i]] == if i < |values| then values[i] else ""
  {
    var n := |headers| - 1;
    if i < n {
      assert headers[i] != headers[n] && headers[..n][i] == headers[i];
      RowHolds(headers[..n], values, i);
    }
  }

  /** A table as a printer writes it: one encoded line for the header and one for each row. */
  ghost predicate IsPrinted(headers: seq<string>, rows: seq<seq<string>>, lines: seq<string>, texts: seq<seq<string>>) {
    && |texts| == |lines| == |rows| + 1
    && (forall i :: 0 <= i < |lines| ==> lines[i] == Join(texts[i], ',') && PlainLine(lines[i]))
    && IsRowEncoding(headers, texts[0])
    && forall i :: 0 <= i < |rows| ==> rows[i] != [] && IsRowEncoding(rows[i], texts[i + 1])
  }

  lemma {:induction false} RowsAt(lines: seq<string>, headers: seq<string>, i: nat)
    requires i < |lines|
    ensures |Rows(lines, headers)| == |lines| && Rows(lines, headers)[i] == BuildRow(headers, Scan(lines[i], "", false))
  {
    if |lines| > 1 {
      RowsAt(lines[1..], headers, if i > 0 then i - 1 else 0);
    }
  }

  /**
   * Reading a printed table gives its rows, each value under its header.  The
   * conditions are those of the line handling: distinct headers, no line breaks in
   * fields, no white space at the edges of a line, and no empty line.
   */
  lemma TableRoundTrip(headers: seq<string>, rows: seq<seq<string>>, lines: seq<string>, texts: seq<seq<string>>, i: nat)
    requires headers != [] && Distinct(headers)
    requires IsPrinted(headers, rows, lines, texts) && i < |rows|
    ensures var r := Parsed(Join(lines, '\n') + "\n");
            && |r| == |rows|
            && (forall h :: h in r[i] <==> h in headers)
            && forall n :: 0 <= n < |headers| ==> headers[n] in r[i] && r[i][headers[n]] == if n < |rows[i]| then rows[i][n] else ""
  {
    LinesRoundTrip(lines);
    LineRoundTrip(headers, texts[0]);
    LineRoundTrip(rows[i], texts[i + 1]);
    RowsAt(lines[1..], headers, i);
    forall h {
      RowKeys(headers, rows[i], h);
    }
    forall n | 0 <= n < |headers| {
      RowHolds(headers, rows[i], n);
    }
  }
}
