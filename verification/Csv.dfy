/**
 * The CSV printers (apps/web/src/lib/csv-export.ts and apps/api-nest/src/compliance.service.ts)
 * against a parser for the grammar in section 2 of RFC 4180.
 */
module Csv {
  import opened Basics

  /** A cell: null, undefined, or a value whose String(...) is given. */
  datatype Cell = Null | Undefined | Value(text: string)

  function CellText(c: Cell): string { if c.Value? then c.text else "" }

  function Texts(row: seq<Cell>): seq<string> { seq(|row|, i requires 0 <= i < |row| => CellText(row[i])) }

  function AllTexts(rows: seq<seq<Cell>>): seq<seq<string>> {
    seq(|rows|, i requires 0 <= i < |rows| => Texts(rows[i]))
  }

  predicate NeedsQuotes(s: string) { ',' in s || '"' in s || '\n' in s || '\r' in s }

  /** Every double quote written twice. */
  function Doubled(s: string): string {
    if s == [] then []
    else (if s[0] == '"' then "\"\"" else [s[0]]) + Doubled(s[1..])
  }

  function Escape(s: string): string {
    if NeedsQuotes(s) then "\"" + Doubled(s) + "\"" else s
  }

  /** csvEscapeCell of the Nest exporter: its test is the character class [",\n\r]. */
  function NestEscape(c: Cell): string {
    var raw := CellText(c);
    if exists i :: 0 <= i < |raw| && raw[i] in {'"', ',', '\n', '\r'} then "\"" + Doubled(raw) + "\"" else raw
  }

  lemma EscapersAgree(c: Cell)
    ensures NestEscape(c) == Escape(CellText(c))
  {
    var raw := CellText(c);
    if NeedsQuotes(raw) {
      var i :| 0 <= i < |raw| && raw[i] in [',', '"', '\n', '\r'];
      assert raw[i] in {'"', ',', '\n', '\r'};
    }
  }

  /** A cell is printed as it is exactly when it holds no comma, quote or line break. */
  lemma PlainExactly(s: string)
    ensures Escape(s) == s <==> ',' !in s && '"' !in s && '\n' !in s && '\r' !in s
  {
    if NeedsQuotes(s) { DoubledIsLonger(s); }
  }

  lemma {:induction false} DoubledIsLonger(s: string)
    ensures |Doubled(s)| >= |s|
  {
    if s != [] { DoubledIsLonger(s[1..]); }
  }

  function Line(texts: seq<string>): string {
    if texts == [] then ""
    else if |texts| == 1 then Escape(texts[0])
    else Escape(texts[0]) + "," + Line(texts[1..])
  }

  function JoinLines(rows: seq<seq<string>>, nl: string): string {
    if rows == [] then ""
    else if |rows| == 1 then Line(rows[0])
    else Line(rows[0]) + nl + JoinLines(rows[1..], nl)
  }

  /** Lines each ended by nl, as a streaming writer emits them. */
  function EndedLines(rows: seq<seq<string>>, nl: string): string {
    if rows == [] then "" else Line(rows[0]) + nl + EndedLines(rows[1..], nl)
  }

  // ------------------------------------------------------------------ printing loops

  lemma {:induction false} LineSnoc(texts: seq<string>, t: string)
    requires texts != []
    ensures Line(texts + [t]) == Line(texts) + "," + Escape(t)
  {
    assert (texts + [t])[1..] == texts[1..] + [t];
    if |texts| > 1 {
      LineSnoc(texts[1..], t);
      Regroup(Escape(texts[0]) + ",", Line(texts[1..]), ",", Escape(t));
    }
  }

  lemma {:induction false} JoinSnoc(rows: seq<seq<string>>, r: seq<string>, nl: string)
    requires rows != []
    ensures JoinLines(rows + [r], nl) == JoinLines(rows, nl) + nl + Line(r)
  {
    if |rows| > 1 {
      JoinSnoc(rows[1..], r, nl);
      assert (rows + [r])[1..] == rows[1..] + [r];
    } else {
      assert (rows + [r])[1..] == [r];
    }
  }

  lemma {:induction false} EndedSnoc(rows: seq<seq<string>>, r: seq<string>, nl: string)
    ensures EndedLines(rows + [r], nl) == EndedLines(rows, nl) + Line(r) + nl
  {
    if rows != [] {
      EndedSnoc(rows[1..], r, nl);
      assert (rows + [r])[1..] == rows[1..] + [r];
      Regroup(Line(rows[0]) + nl, EndedLines(rows[1..], nl), Line(r), nl);
    } else {
      assert rows + [r] == [r];
    }
  }

  lemma Regroup(a: string, b: string, c: string, d: string)
    ensures a + (b + c + d) == a + b + c + d
  {
  }

  /** row.map(escapeCell).join(',') */
  method PrintRow(row: seq<Cell>) returns (line: string)
    ensures line == Line(Texts(row))
  {
    line := "";
    var i := 0;
    while i < |row|
      invariant 0 <= i <= |row|
      invariant line == Line(Texts(row)[..i])
    {
      ghost var done := Texts(row)[..i];
      assert Texts(row)[..i + 1] == done + [CellText(row[i])];
      if i > 0 { LineSnoc(done, CellText(row[i])); line := line + ","; }
      line := line + Escape(CellText(row[i]));
      i := i + 1;
    }
    assert Texts(row)[..i] == Texts(row);
  }

  method BuildCsvString(columns: seq<Cell>, rows: seq<seq<Cell>>) returns (csv: string)
    ensures csv == JoinLines([Texts(columns)] + AllTexts(rows), "\r\n")
  {
    csv := PrintTable(columns, rows, "\r\n");
  }

  method PrintTable(columns: seq<Cell>, rows: seq<seq<Cell>>, nl: string) returns (csv: string)
    ensures csv == JoinLines([Texts(columns)] + AllTexts(rows), nl)
  {
    csv := PrintRow(columns);
    ghost var printed := [Texts(columns)];
    var i := 0;
    while i < |rows|
      invariant 0 <= i <= |rows|
      invariant printed == [Texts(columns)] + AllTexts(rows)[..i] && csv == JoinLines(printed, nl)
    {
      var line := PrintRow(rows[i]);
      JoinSnoc(printed, Texts(rows[i]), nl);
      csv := csv + nl + line;
      printed := printed + [Texts(rows[i])];
      NextText(rows, i);
      i := i + 1;
    }
    assert AllTexts(rows)[..i] == AllTexts(rows);
  }

  lemma NextText(rows: seq<seq<Cell>>, i: nat)
    requires i < |rows|
    ensures AllTexts(rows)[..i + 1] == AllTexts(rows)[..i] + [Texts(rows[i])]
  {
  }

  // ------------------------------------------------------------------ the parser

  datatype Mode = AtStart | Plain | Quoted | QuoteSeen

  type Table = seq<seq<string>>

  function Cons(row: seq<string>, rest: Option<Table>): Option<Table> {
    if rest.Some? then Some([row] + rest.value) else None
  }

  /** Continues after a field has ended: at the end of the text, a comma, or a line break. */
  function FieldEnd(text: string, row: seq<string>): Option<Table>
    decreases |text|, 0
  {
    if text == [] then Some([row])
    else if text[0] == ',' then Scan(text[1..], AtStart, "", row)
    else if text[0] == '\n' then Cons(row, Scan(text[1..], AtStart, "", []))
    else if text[0] == '\r' && |text| > 1 && text[1] == '\n' then Cons(row, Scan(text[2..], AtStart, "", []))
    else None
  }

  /** None on malformed text: a stray quote, a bare CR outside quotes, or an unclosed quote. */
  function Scan(text: string, mode: Mode, field: string, row: seq<string>): Option<Table>
    decreases |text|, 1
  {
    match mode
    case Quoted =>
      if text == [] then None
      else if text[0] == '"' then Scan(text[1..], QuoteSeen, field, row)
      else Scan(text[1..], Quoted, field + [text[0]], row)
    case QuoteSeen =>
      if text != [] && text[0] == '"' then Scan(text[1..], Quoted, field + "\"", row)
      else FieldEnd(text, row + [field])
    case Plain =>
      if text == [] || text[0] in {',', '\n', '\r'} then FieldEnd(text, row + [field])
      else if text[0] == '"' then None
      else Scan(text[1..], Plain, field + [text[0]], row)
    case AtStart =>
      if text == [] && row == [] then Some([])
      else if text == [] || text[0] in {',', '\n', '\r'} then FieldEnd(text, row + [field])
      else if text[0] == '"' then Scan(text[1..], Quoted, "", row)
      else Scan(text[1..], Plain, [text[0]], row)
  }

  /** An empty text is one record with one empty field; a final line break is optional. */
  function Parse(text: string): Option<Table> {
    if text == [] then Some([[""]]) else Scan(text, AtStart, "", [])
  }

  // ------------------------------------------------------------------ printing, then parsing

  lemma {:induction false} ScanQuotedBody(s: string, rest: string, field: string, row: seq<string>)
    ensures Scan(Doubled(s) + "\"" + rest, Quoted, field, row) == Scan(rest, QuoteSeen, field + s, row)
  {
    var text := Doubled(s) + "\"" + rest;
    if s == [] {
      assert text == "\"" + rest && text[1..] == rest;
      assert field + s == field;
    } else {
      var tail := Doubled(s[1..]) + "\"" + rest;
      ScanQuotedBody(s[1..], rest, field + [s[0]], row);
      assert field + s == field + [s[0]] + s[1..];
      if s[0] == '"' {
        assert text == "\"\"" + tail;
        assert text[1..] == "\"" + tail && text[1..][1..] == tail;
        assert Scan(text, Quoted, field, row) == Scan(text[1..], QuoteSeen, field, row);
      } else {
        assert text == [s[0]] + tail && text[1..] == tail;
      }
    }
  }

  lemma {:induction false} ScanPlainBody(s: string, rest: string, field: string, row: seq<string>)
    requires !NeedsQuotes(s)
    ensures Scan(s + rest, Plain, field, row) == Scan(rest, Plain, field + s, row)
  {
    if s == [] {
      assert s + rest == rest && field + s == field;
    } else {
      assert s[0] in s && s[0] !in {',', '\n', '\r', '"'};
      assert forall c :: c in s[1..] ==> c in s;
      ScanPlainBody(s[1..], rest, field + [s[0]], row);
      assert (s + rest)[1..] == s[1..] + rest && (s + rest)[0] == s[0];
      assert field + s == field + [s[0]] + s[1..];
    }
  }

  predicate EndsField(rest: string) {
    rest == [] || rest[0] == ',' || rest[0] == '\n' || (rest[0] == '\r' && |rest| > 1 && rest[1] == '\n')
  }

  lemma OpenQuote(body: string, row: seq<string>)
    ensures Scan(['"'] + body, AtStart, "", row) == Scan(body, Quoted, "", row)
  {
    assert (['"'] + body)[1..] == body;
  }

  lemma ScanQuotedField(s: string, rest: string, row: seq<string>)
    requires NeedsQuotes(s) && EndsField(rest)
    ensures Scan(Escape(s) + rest, AtStart, "", row) == FieldEnd(rest, row + [s])
  {
    var q, d := "\"", Doubled(s);
    var body := d + q + rest;
    assert Escape(s) + rest == [q[0]] + body by {
      assert (q + d + q) + rest == q + (d + q + rest);
    }
    OpenQuote(body, row);
    ScanQuotedBody(s, rest, "", row);
    assert "" + s == s;
  }

  lemma ScanPlainField(s: string, rest: string, row: seq<string>)
    requires s != [] && !NeedsQuotes(s) && EndsField(rest)
    ensures Scan(Escape(s) + rest, AtStart, "", row) == FieldEnd(rest, row + [s])
  {
    var text := s + rest;
    assert s[0] in s && s[0] !in {',', '\n', '\r', '"'};
    assert text[0] == s[0] && text[1..] == s[1..] + rest;
    assert forall c :: c in s[1..] ==> c in s;
    ScanPlainBody(s[1..], rest, [s[0]], row);
    assert [s[0]] + s[1..] == s;
  }

  /** One printed field is read back whole, unless it is an empty field that ends the text. */
  lemma ScanField(s: string, rest: string, row: seq<string>)
    requires EndsField(rest) && (rest != [] || row != [] || s != [])
    ensures Scan(Escape(s) + rest, AtStart, "", row) == FieldEnd(rest, row + [s])
  {
    if NeedsQuotes(s) {
      ScanQuotedField(s, rest, row);
    } else if s == [] {
      assert Escape(s) + rest == rest;
    } else {
      ScanPlainField(s, rest, row);
    }
  }

  lemma FirstOfLine(texts: seq<string>, rest: string)
    requires |texts| > 1
    ensures Line(texts) + rest == Escape(texts[0]) + ("," + (Line(texts[1..]) + rest))
  {
    assert Line(texts) == Escape(texts[0]) + "," + Line(texts[1..]);
    Shift(Escape(texts[0]), ",", Line(texts[1..]), rest);
  }

  lemma Shift(a: string, b: string, c: string, d: string)
    ensures a + b + c + d == a + (b + (c + d))
  {
  }

  lemma ScanFieldComma(s: string, after: string, row: seq<string>)
    ensures Scan(Escape(s) + ("," + after), AtStart, "", row) == Scan(after, AtStart, "", row + [s])
  {
    var rest := "," + after;
    ScanField(s, rest, row);
    assert rest[1..] == after;
  }

  ghost predicate LineReadsBack(texts: seq<string>, rest: string, row: seq<string>)
    requires texts != []
  {
    Scan(Line(texts) + rest, AtStart, "", row) == FieldEnd(rest, row + texts)
  }

  lemma FirstFieldReadsBack(texts: seq<string>, rest: string, row: seq<string>)
    requires |texts| > 1 && LineReadsBack(texts[1..], rest, row + [texts[0]])
    ensures LineReadsBack(texts, rest, row)
  {
    FirstOfLine(texts, rest);
    ScanFieldComma(texts[0], Line(texts[1..]) + rest, row);
    assert row + [texts[0]] + texts[1..] == row + texts;
  }

  lemma OnlyFieldReadsBack(text: string, rest: string, row: seq<string>)
    requires EndsField(rest) && (rest == [] || rest[0] != ',') && (rest != [] || row != [] || text != "")
    ensures LineReadsBack([text], rest, row)
  {
    ScanField(text, rest, row);
  }

  /** The fields of one line are read back in order. */
  lemma {:induction false} ScanLine(texts: seq<string>, rest: string, row: seq<string>)
    requires texts != [] && EndsField(rest) && (rest == [] || rest[0] != ',')
    requires rest != [] || row != [] || texts != [""]
    ensures LineReadsBack(texts, rest, row)
  {
    if |texts| == 1 {
      OnlyFieldReadsBack(texts[0], rest, row);
      assert texts == [texts[0]];
    } else {
      ScanLine(texts[1..], rest, row + [texts[0]]);
      FirstFieldReadsBack(texts, rest, row);
    }
  }

  predicate LineBreak(nl: string) { nl == "\n" || nl == "\r\n" }

  lemma ScanLineThen(texts: seq<string>, nl: string, rest: string)
    requires texts != [] && LineBreak(nl)
    ensures Scan(Line(texts) + nl + rest, AtStart, "", []) == Cons(texts, Scan(rest, AtStart, "", []))
  {
    assert Line(texts) + nl + rest == Line(texts) + (nl + rest);
    ScanLine(texts, nl + rest, []);
    assert [] + texts == texts;
    assert (nl + rest)[|nl|..] == rest;
  }

  ghost predicate RowsNonEmpty(rows: Table) { forall i :: 0 <= i < |rows| ==> rows[i] != [] }

  /** Ended lines: every table comes back, whatever its cells contain. */
  lemma {:induction false} EndedRoundTrip(rows: Table, nl: string)
    requires RowsNonEmpty(rows) && LineBreak(nl)
    ensures Scan(EndedLines(rows, nl), AtStart, "", []) == Some(rows)
  {
    if rows == [] {
    } else {
      EndedRoundTrip(rows[1..], nl);
      ScanLineThen(rows[0], nl, EndedLines(rows[1..], nl));
      assert [rows[0]] + rows[1..] == rows;
    }
  }

  function LastLineKept(rows: Table): Table {
    if |rows| > 0 && rows[|rows| - 1] == [""] then rows[..|rows| - 1] else rows
  }

  lemma {:induction false} JoinedScan(rows: Table, nl: string)
    requires rows != [] && RowsNonEmpty(rows) && LineBreak(nl)
    ensures Scan(JoinLines(rows, nl), AtStart, "", []) == Some(LastLineKept(rows))
  {
    if |rows| == 1 {
      assert rows == [rows[0]];
      ScanOnly(rows[0]);
    } else {
      JoinedScan(rows[1..], nl);
      ScanLineThen(rows[0], nl, JoinLines(rows[1..], nl));
      KeptBehind(rows);
    }
  }

  lemma ScanOnly(row: seq<string>)
    requires row != []
    ensures Scan(Line(row), AtStart, "", []) == Some(LastLineKept([row]))
  {
    if row != [""] {
      ScanLine(row, "", []);
      assert Line(row) + "" == Line(row) && [] + row == row;
    }
  }

  lemma KeptBehind(rows: Table)
    requires |rows| > 1
    ensures [rows[0]] + LastLineKept(rows[1..]) == LastLineKept(rows)
  {
  }

  lemma {:induction false} ParsedRowsNonEmpty(text: string, mode: Mode, field: string, row: seq<string>)
    ensures var r := Scan(text, mode, field, row); r.Some? ==> RowsNonEmpty(r.value)
    decreases |text|, 1
  {
    match mode {
      case Quoted =>
        if text != [] {
          ParsedRowsNonEmpty(text[1..], QuoteSeen, field, row);
          ParsedRowsNonEmpty(text[1..], Quoted, field + [text[0]], row);
        }
      case QuoteSeen =>
        if text != [] && text[0] == '"' { ParsedRowsNonEmpty(text[1..], Quoted, field + "\"", row); }
        else { EndedRowsNonEmpty(text, row + [field]); }
      case Plain =>
        if text == [] || text[0] in {',', '\n', '\r'} { EndedRowsNonEmpty(text, row + [field]); }
        else if text[0] != '"' { ParsedRowsNonEmpty(text[1..], Plain, field + [text[0]], row); }
      case AtStart =>
        if text == [] || text[0] in {',', '\n', '\r'} { EndedRowsNonEmpty(text, row + [field]); }
        else if text[0] == '"' { ParsedRowsNonEmpty(text[1..], Quoted, "", row); }
        else { ParsedRowsNonEmpty(text[1..], Plain, [text[0]], row); }
    }
  }

  lemma {:induction false} EndedRowsNonEmpty(text: string, row: seq<string>)
    requires row != []
    ensures var r := FieldEnd(text, row); r.Some? ==> RowsNonEmpty(r.value)
    decreases |text|, 0
  {
    if text == [] {
    } else if text[0] == ',' {
      ParsedRowsNonEmpty(text[1..], AtStart, "", row);
    } else if text[0] == '\n' {
      ParsedRowsNonEmpty(text[1..], AtStart, "", []);
    } else if text[0] == '\r' && |text| > 1 && text[1] == '\n' {
      ParsedRowsNonEmpty(text[2..], AtStart, "", []);
    }
  }

  /**
   * The download round trip, for all tables: parsing gives the table back exactly when every row
   * has a cell and the last of several rows is not a single empty cell. Tables of two or more
   * columns always satisfy this.
   */
  lemma JoinedRoundTrip(rows: Table, nl: string)
    requires rows != [] && LineBreak(nl)
    ensures Parse(JoinLines(rows, nl)) == Some(rows) <==>
            RowsNonEmpty(rows) && (|rows| > 1 ==> rows[|rows| - 1] != [""])
  {
    if RowsNonEmpty(rows) {
      JoinedScan(rows, nl);
      if JoinLines(rows, nl) == "" { EmptyTextIsOneCell(rows, nl); }
    } else {
      ParsedRowsNonEmpty(JoinLines(rows, nl), AtStart, "", []);
    }
  }

  lemma LineLength(texts: seq<string>)
    ensures |texts| > 1 || (|texts| == 1 && texts[0] != "") ==> |Line(texts)| > 0
  {
  }

  lemma EmptyTextIsOneCell(rows: Table, nl: string)
    requires rows != [] && RowsNonEmpty(rows) && LineBreak(nl) && JoinLines(rows, nl) == ""
    ensures rows == [[""]]
  {
    LineLength(rows[0]);
    assert |JoinLines(rows, nl)| >= |Line(rows[0])| + (if |rows| > 1 then |nl| else 0);
    assert rows[0] == [rows[0][0]];
  }

  /** Two tables of at least two columns that print alike are the same table. */
  lemma PrintingIsInjective(a: Table, b: Table, nl: string)
    requires LineBreak(nl) && a != [] && b != []
    requires forall i :: 0 <= i < |a| ==> |a[i]| >= 2
    requires forall i :: 0 <= i < |b| ==> |b[i]| >= 2
    requires JoinLines(a, nl) == JoinLines(b, nl)
    ensures a == b
  {
    JoinedRoundTrip(a, nl);
    JoinedRoundTrip(b, nl);
  }
}
