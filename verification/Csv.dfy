/** The CSV exports: csvEscape and the two joins, read back by a reader for section 2 of RFC 4180. */
module Csv {
  import opened Prelude

  type Table = seq<seq<string>>

  const BOM := '\U{FEFF}'

  // --- the printer ---------------------------------------------------------------

  predicate NeedsQuotes(value: string) {
    exists i | 0 <= i < |value| :: value[i] == '"' || value[i] == ',' || value[i] == '\n' || value[i] == '\r'
  }

  // value.replace(/"/g, '""')
  function DoubleQuotes(value: string): string {
    if value == "" then "" else (if value[0] == '"' then "\"\"" else [value[0]]) + DoubleQuotes(value[1..])
  }

  function Escape(value: string): string {
    if NeedsQuotes(value) then "\"" + DoubleQuotes(value) + "\"" else value
  }

  function JoinFields(row: seq<string>): string {
    if row == [] then ""
    else if |row| == 1 then Escape(row[0])
    else Escape(row[0]) + "," + JoinFields(row[1..])
  }

  function JoinRows(rows: Table): string {
    if rows == [] then ""
    else if |rows| == 1 then JoinFields(rows[0])
    else JoinFields(rows[0]) + "\n" + JoinRows(rows[1..])
  }

  // [header, ...rows], printed after the byte-order mark.
  function Export(table: Table): string {
    [BOM] + JoinRows(table)
  }

  // --- the reader ------------------------------------------------------------------

  // A field read from the front of a text, and what follows it.
  datatype Field = Field(value: string, rest: string)

  // The inside of a quoted field, up to and including its closing quote.
  function ReadQuoted(text: string): (f: Option<Field>)
    ensures f.Some? ==> |f.value.rest| < |text|
  {
    if text == "" then None
    else if text[0] != '"' then
      var tail := ReadQuoted(text[1..]);
      if tail.None? then None else Some(Field([text[0]] + tail.value.value, tail.value.rest))
    else if |text| >= 2 && text[1] == '"' then
      var tail := ReadQuoted(text[2..]);
      if tail.None? then None else Some(Field("\"" + tail.value.value, tail.value.rest))
    else Some(Field("", text[1..]))
  }

  // An unquoted field: text data up to a comma, a line feed or the end.
  function ReadPlain(text: string): (f: Option<Field>)
    ensures f.Some? ==> |f.value.rest| <= |text|
  {
    if text == "" || text[0] == ',' || text[0] == '\n' then Some(Field("", text))
    else if text[0] == '"' || text[0] == '\r' then None
    else
      var tail := ReadPlain(text[1..]);
      if tail.None? then None else Some(Field([text[0]] + tail.value.value, tail.value.rest))
  }

  function ReadField(text: string): (f: Option<Field>)
    ensures f.Some? ==> |f.value.rest| <= |text|
  {
    if text != "" && text[0] == '"' then ReadQuoted(text[1..]) else ReadPlain(text)
  }

  datatype Row = Row(fields: seq<string>, rest: string)

  // One record; its line feed, if any, is left in the rest.
  function ReadRow(text: string): (r: Option<Row>)
    ensures r.Some? ==> |r.value.rest| <= |text| && (r.value.rest == "" || r.value.rest[0] == '\n')
    decreases |text|
  {
    var f := ReadField(text);
    if f.None? then None
    else if f.value.rest == "" || f.value.rest[0] == '\n' then Some(Row([f.value.value], f.value.rest))
    else if f.value.rest[0] != ',' then None
    else
      var tail := ReadRow(f.value.rest[1..]);
      if tail.None? then None else Some(Row([f.value.value] + tail.value.fields, tail.value.rest))
  }

  // Records separated by line feeds; the last one may or may not have one.
  function ReadRows(text: string): Option<Table>
    decreases |text|
  {
    if text == "" then Some([])
    else
      var r := ReadRow(text);
      if r.None? then None
      else if r.value.rest == "" then Some([r.value.fields])
      else
        var tail := ReadRows(r.value.rest[1..]);
        if tail.None? then None else Some([r.value.fields] + tail.value)
  }

  function Read(text: string): Option<Table> {
    ReadRows(if text != "" && text[0] == BOM then text[1..] else text)
  }

  // --- the round trip ----------------------------------------------------------------

  predicate FieldEnd(rest: string) {
    rest == "" || rest[0] == ',' || rest[0] == '\n'
  }

  lemma {:induction false} QuotedBack(value: string, rest: string)
    requires FieldEnd(rest)
    ensures ReadQuoted(DoubleQuotes(value) + "\"" + rest) == Some(Field(value, rest))
  {
    var text := DoubleQuotes(value) + "\"" + rest;
    if value == "" {
      assert text == "\"" + rest && text[1..] == rest;
    } else {
      var tail := DoubleQuotes(value[1..]) + "\"" + rest;
      QuotedBack(value[1..], rest);
      if value[0] == '"' {
        assert text == "\"\"" + tail && text[2..] == tail;
      } else {
        assert text == [value[0]] + tail && text[1..] == tail;
      }
      assert [value[0]] + value[1..] == value;
    }
  }

  lemma {:induction false} PlainBack(value: string, rest: string)
    requires FieldEnd(rest) && !NeedsQuotes(value)
    ensures ReadPlain(value + rest) == Some(Field(value, rest))
  {
    if value == "" {
      assert value + rest == rest;
    } else {
      assert !NeedsQuotes(value[1..]);
      PlainBack(value[1..], rest);
      assert (value + rest)[1..] == value[1..] + rest;
      assert [value[0]] + value[1..] == value;
    }
  }

  lemma FieldBack(value: string, rest: string)
    requires FieldEnd(rest)
    ensures ReadField(Escape(value) + rest) == Some(Field(value, rest))
  {
    hide ReadQuoted;
    hide ReadPlain;
    hide DoubleQuotes;
    if NeedsQuotes(value) {
      QuotedBack(value, rest);
      var text := Escape(value) + rest;
      assert text[0] == '"' && text[1..] == DoubleQuotes(value) + "\"" + rest;
    } else {
      PlainBack(value, rest);
      if value == "" {
        assert value + rest == rest;
      } else {
        assert (value + rest)[0] == value[0];
      }
    }
  }

  lemma OneField(row: seq<string>, rest: string)
    requires |row| == 1 && (rest == "" || rest[0] == '\n')
    ensures ReadRow(JoinFields(row) + rest) == Some(Row(row, rest))
  {
    FieldBack(row[0], rest);
    assert row == [row[0]] && JoinFields(row) == Escape(row[0]);
    hide ReadField;
    hide Escape;
  }

  // Texts are read in another grouping than they were printed.
  lemma Regroup(a: string, mark: string, b: string, c: string)
    requires |mark| == 1
    ensures (a + mark + b) + c == a + (mark + (b + c))
    ensures (mark + b)[0] == mark[0] && (mark + b)[1..] == b
  {
    assert (a + mark + b) + c == a + mark + (b + c);
  }

  lemma FirstField(row: seq<string>, rest: string)
    requires |row| > 1
    ensures JoinFields(row) + rest == Escape(row[0]) + ("," + (JoinFields(row[1..]) + rest))
  {
    assert JoinFields(row) == Escape(row[0]) + "," + JoinFields(row[1..]);
    hide Escape;
    hide JoinFields;
    Regroup(Escape(row[0]), ",", JoinFields(row[1..]), rest);
  }

  lemma {:induction false} RowBack(row: seq<string>, rest: string)
    requires row != [] && (rest == "" || rest[0] == '\n')
    ensures ReadRow(JoinFields(row) + rest) == Some(Row(row, rest))
  {
    if |row| == 1 {
      OneField(row, rest);
    } else {
      var tail := JoinFields(row[1..]) + rest;
      RowBack(row[1..], rest);
      FieldBack(row[0], "," + tail);
      FirstField(row, rest);
      OneMoreField(Escape(row[0]) + ("," + tail), row, tail, rest);
    }
    hide ReadRow;
    hide JoinFields;
    hide ReadField;
    hide Escape;
  }

  lemma OneMoreField(text: string, row: seq<string>, tail: string, rest: string)
    requires |row| > 1 && ReadField(text) == Some(Field(row[0], "," + tail))
    requires ReadRow(tail) == Some(Row(row[1..], rest))
    ensures ReadRow(text) == Some(Row(row, rest))
  {
    assert ("," + tail)[0] == ',' && ("," + tail)[1..] == tail;
    assert [row[0]] + row[1..] == row;
    hide ReadField;
  }

  // A row prints nothing exactly when it has no field, or one empty field.
  lemma PrintsNothing(row: seq<string>)
    ensures JoinFields(row) == "" <==> row == [] || row == [""]
  {
    if |row| == 1 {
      assert row == [row[0]];
    }
  }

  /** Which tables a reader can recover: every row has a column, and the last row is not one empty field,
      which prints like the end of the file. */
  predicate Recoverable(table: Table) {
    && (forall i | 0 <= i < |table| :: table[i] != [])
    && (table != [] ==> table[|table| - 1] != [""])
  }

  // What the reader makes of a printed table.
  function ReadBackAs(table: Table): Table {
    if table != [] && table[|table| - 1] == [""] then table[..|table| - 1] else table
  }

  lemma ReadBackTail(table: Table)
    requires |table| > 1
    ensures ReadBackAs(table) == [table[0]] + ReadBackAs(table[1..])
  {
    assert [table[0]] + table[1..] == table;
    assert table[1..][..|table| - 2] == table[1..|table| - 1];
    assert [table[0]] + table[1..|table| - 1] == table[..|table| - 1];
  }

  lemma OneRow(table: Table)
    requires |table| == 1 && table[0] != []
    ensures ReadRows(JoinRows(table)) == Some(ReadBackAs(table))
  {
    PrintsNothing(table[0]);
    RowBack(table[0], "");
    assert JoinFields(table[0]) + "" == JoinFields(table[0]);
    assert table == [table[0]] && table[..0] == [];
    hide ReadRow;
    hide JoinFields;
  }

  lemma FirstRow(table: Table)
    requires |table| > 1
    ensures JoinRows(table) == JoinFields(table[0]) + ("\n" + JoinRows(table[1..]))
  {
    var a, b := JoinFields(table[0]), JoinRows(table[1..]);
    assert JoinRows(table) == a + "\n" + b;
    Regroup(a, "\n", b, "");
    assert b + "" == b && (a + "\n" + b) + "" == a + "\n" + b;
    hide JoinFields;
    hide JoinRows;
  }

  // A text whose first record ends in a line feed.
  lemma ReadFirst(text: string, row: seq<string>, tail: string, rows: Table)
    requires text != "" && ReadRow(text) == Some(Row(row, "\n" + tail)) && ReadRows(tail) == Some(rows)
    ensures ReadRows(text) == Some([row] + rows)
  {
    assert ("\n" + tail)[1..] == tail;
    hide ReadRow;
  }

  lemma OneMoreRow(table: Table)
    requires |table| > 1 && table[0] != []
    requires ReadRows(JoinRows(table[1..])) == Some(ReadBackAs(table[1..]))
    ensures ReadRows(JoinRows(table)) == Some([table[0]] + ReadBackAs(table[1..]))
  {
    hide ReadRow;
    hide JoinFields;
    hide ReadBackAs;
    hide ReadRows;
    hide JoinRows;
    var tail := JoinRows(table[1..]);
    RowBack(table[0], "\n" + tail);
    FirstRow(table);
    ReadFirst(JoinRows(table), table[0], tail, ReadBackAs(table[1..]));
  }

  lemma {:induction false} RowsBack(table: Table)
    requires forall i | 0 <= i < |table| :: table[i] != []
    ensures ReadRows(JoinRows(table)) == Some(ReadBackAs(table))
    decreases |table|
  {
    if |table| == 1 {
      OneRow(table);
    } else if |table| > 1 {
      RowsBack(table[1..]);
      OneMoreRow(table);
      ReadBackTail(table);
      hide ReadRows;
      hide JoinRows;
    }
  }

  // The reader never produces a row without a column.
  lemma {:induction false} RowsHaveColumns(text: string)
    ensures ReadRows(text).Some? ==> forall row | row in ReadRows(text).value :: row != []
    decreases |text|
  {
    if text != "" && ReadRow(text).Some? && ReadRow(text).value.rest != "" {
      RowsHaveColumns(ReadRow(text).value.rest[1..]);
    }
  }

  /** The reader recovers the exported table exactly when every row has a column and the last row is
      not one empty field. */
  lemma RoundTripIff(table: Table)
    ensures Read(Export(table)) == Some(table) <==> Recoverable(table)
  {
    hide ReadRows;
    hide JoinRows;
    assert Export(table)[1..] == JoinRows(table);
    if i :| 0 <= i < |table| && table[i] == [] {
      RowsHaveColumns(JoinRows(table));
      assert table[i] in table;
    } else {
      RowsBack(table);
    }
  }

  /** Both exports print rows of eleven or more columns: they always come back, whatever text they hold. */
  lemma TwoColumnsRoundTrip(table: Table)
    requires forall i | 0 <= i < |table| :: |table[i]| >= 2
    ensures Read(Export(table)) == Some(table)
  {
    RoundTripIff(table);
  }

  /** Two different tables with two or more columns never print the same file. */
  lemma ExportInjective(a: Table, b: Table)
    requires forall i | 0 <= i < |a| :: |a[i]| >= 2
    requires forall i | 0 <= i < |b| :: |b[i]| >= 2
    requires Export(a) == Export(b)
    ensures a == b
  {
    TwoColumnsRoundTrip(a);
    TwoColumnsRoundTrip(b);
  }
}
