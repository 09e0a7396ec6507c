/** The batched server export (apps/api-nest/src/compliance.service.ts, writeSummaryCsvStream). */
module ComplianceExport {
  import opened Basics
  import opened Strings
  import opened Csv

  /** One summary row; updatedAt and snapshot are already in ISO and JSON form. */
  datatype Row = Row(id: string, vehicleRegNo: string, updatedAt: string, snapshotJson: string)

  /** The limit query parameter: absent or blank, not a finite number, or a number. */
  datatype Limit = Blank | NotFinite | Number(n: real)

  function ExportCap(limit: Limit): (cap: nat)
    ensures 1 <= cap <= 5000
    ensures limit.Number? && 1.0 <= limit.n < 5001.0 ==> cap as real <= limit.n < cap as real + 1.0
    ensures limit.Number? && limit.n < 1.0 ==> cap == 1
    ensures limit.Number? && limit.n >= 5000.0 ==> cap == 5000
    ensures !limit.Number? ==> cap == 500
  {
    match limit
    case Blank => 500
    case NotFinite => 500
    case Number(n) => Min(5000, Max(1, n.Floor))
  }

  const BYTE_ORDER_MARK := "\U{FEFF}"
  const HEADER := ["id", "vehicleRegNo", "updatedAt", "snapshotJson"]

  const HEADER_LINE := "id" + ("," + ("vehicleRegNo" + ("," + ("updatedAt" + ("," + "snapshotJson"))))) + "\n"

  function Fields(r: Row): seq<string> { [r.id, r.vehicleRegNo, r.updatedAt, r.snapshotJson] }

  function Exported(table: seq<Row>): Table {
    [HEADER] + seq(|table|, i requires 0 <= i < |table| => Fields(table[i]))
  }

  /** findMany with skip and take over a table that does not change and has a fixed total order. */
  function FindMany(table: seq<Row>, skip: nat, take: nat): seq<Row> {
    var from := Min(skip, |table|);
    table[from..Min(from + take, |table|)]
  }

  /** The whole response body once the header and the first k rows are written. */
  ghost function BodyAfter(table: seq<Row>, k: nat): string
    requires k <= |table|
  {
    BYTE_ORDER_MARK + EndedLines(Exported(table[..k]), "\n")
  }

  method WriteRows(rows: seq<Row>, before: string, ghost table: seq<Row>, ghost skip: nat) returns (body: string)
    requires skip + |rows| <= |table| && rows == table[skip..skip + |rows|]
    requires before == BodyAfter(table, skip)
    ensures body == BodyAfter(table, skip + |rows|)
  {
    body := before;
    var i := 0;
    while i < |rows|
      invariant 0 <= i <= |rows|
      invariant body == BodyAfter(table, skip + i)
    {
      assert rows[i] == table[skip + i];
      AppendRow(table, skip + i);
      body := body + PrintedLine(rows[i]);
      i := i + 1;
    }
  }

  method WriteHeader(ghost table: seq<Row>) returns (body: string)
    ensures body == BodyAfter(table, 0)
  {
    EmptyBody(table);
    body := BYTE_ORDER_MARK + HEADER_LINE;
  }

  /** One batch: query its rows and write them. */
  method WriteBatch(table: seq<Row>, skip: nat, take: nat, before: string) returns (body: string, found: nat)
    requires skip <= |table| && before == BodyAfter(table, skip)
    ensures found == Min(take, |table| - skip) && body == BodyAfter(table, skip + found)
  {
    var rows := FindMany(table, skip, take);
    found := |rows|;
    body := WriteRows(rows, before, table, skip);
  }

  /**
   * The response body is the header and the first min(cap, N) rows, each once and in order.
   * If the query for batch number failing throws, the body is cut after a whole number of rows.
   */
  method WriteSummaryCsv(table: seq<Row>, cap: nat, failing: Option<nat>) returns (body: string, written: nat, ok: bool)
    requires cap > 0
    ensures written <= |table| && body == BodyAfter(table, written)
    ensures ok ==> written == Min(cap, |table|)
    ensures !ok ==> failing.Some? && written == 200 * failing.value < cap
    ensures failing.None? ==> ok
  {
    body := WriteHeader(table);
    var skip, batch := 0, 0;
    ok := true;
    while skip < cap
      invariant skip <= cap && skip <= |table| && (skip < cap ==> skip == 200 * batch)
      invariant body == BodyAfter(table, skip)
      decreases cap - skip
    {
      if failing == Some(batch) {
        return body, skip, false;
      }
      var take := Min(200, cap - skip);
      var found: nat;
      body, found := WriteBatch(table, skip, take, body);
      if found == 0 { break; }
      skip := skip + found;
      batch := batch + 1;
      if found < take { break; }
    }
    written := skip;
  }

  /** The four escaped cells joined by commas, and a line feed. */
  function PrintedLine(r: Row): string {
    NestEscape(Value(r.id)) + "," + NestEscape(Value(r.vehicleRegNo)) + "," + NestEscape(Value(r.updatedAt)) + "," +
    NestEscape(Value(r.snapshotJson)) + "\n"
  }

  lemma PrintedLineIsLine(r: Row)
    ensures PrintedLine(r) == Line(Fields(r)) + "\n"
  {
    EscapersAgree(Value(r.id));
    EscapersAgree(Value(r.vehicleRegNo));
    EscapersAgree(Value(r.updatedAt));
    EscapersAgree(Value(r.snapshotJson));
    var a, b, c, d := Escape(r.id), Escape(r.vehicleRegNo), Escape(r.updatedAt), Escape(r.snapshotJson);
    FourCells(r.id, r.vehicleRegNo, r.updatedAt, r.snapshotJson);
    assert a + "," + b + "," + c + "," + d == a + "," + (b + "," + (c + "," + d));
  }

  lemma FourCells(a: string, b: string, c: string, d: string)
    ensures Line([a, b, c, d]) == Escape(a) + "," + (Escape(b) + "," + (Escape(c) + "," + Escape(d)))
  {
    assert [a, b, c, d][1..] == [b, c, d] && [b, c, d][1..] == [c, d] && [c, d][1..] == [d];
    assert Line([d]) == Escape(d);
    assert Line([c, d]) == Escape(c) + "," + Line([d]);
    assert Line([b, c, d]) == Escape(b) + "," + Line([c, d]);
  }

  lemma PlainFourCells(a: string, b: string, c: string, d: string)
    requires !NeedsQuotes(a) && !NeedsQuotes(b) && !NeedsQuotes(c) && !NeedsQuotes(d)
    ensures EndedLines([[a, b, c, d]], "\n") == a + ("," + (b + ("," + (c + ("," + d))))) + "\n"
  {
    FourCells(a, b, c, d);
    var rows := [[a, b, c, d]];
    assert rows[1..] == [];
    assert EndedLines(rows, "\n") == Line(rows[0]) + "\n";
    assert a + "," + (b + "," + (c + "," + d)) == a + ("," + (b + ("," + (c + ("," + d)))));
  }

  lemma HeaderText()
    ensures EndedLines([HEADER], "\n") == HEADER_LINE
  {
    PlainFourCells("id", "vehicleRegNo", "updatedAt", "snapshotJson");
  }

  lemma EmptyBody(table: seq<Row>)
    ensures BodyAfter(table, 0) == BYTE_ORDER_MARK + HEADER_LINE
  {
    HeaderText();
    assert Exported(table[..0]) == [HEADER];
  }

  lemma ExportedSnoc(table: seq<Row>, k: nat)
    requires k < |table|
    ensures Exported(table[..k + 1]) == Exported(table[..k]) + [Fields(table[k])]
  {
  }

  lemma AppendLine(mark: string, lines: string, line: string)
    ensures mark + (lines + line + "\n") == mark + lines + (line + "\n")
  {
  }

  lemma AppendRow(table: seq<Row>, k: nat)
    requires k < |table|
    ensures BodyAfter(table, k + 1) == BodyAfter(table, k) + PrintedLine(table[k])
  {
    ExportedSnoc(table, k);
    EndedSnoc(Exported(table[..k]), Fields(table[k]), "\n");
    PrintedLineIsLine(table[k]);
    AppendLine(BYTE_ORDER_MARK, EndedLines(Exported(table[..k]), "\n"), Line(Fields(table[k])));
  }

  /** The cells say what the rows say: the header's names, and each row's fields under them. */
  ghost predicate Shows(cells: Table, table: seq<Row>, n: nat)
    requires n <= |table|
  {
    && |cells| == n + 1
    && cells[0] == ["id", "vehicleRegNo", "updatedAt", "snapshotJson"]
    && forall i :: 0 <= i < n ==>
         && |cells[i + 1]| == 4 && cells[i + 1][0] == table[i].id && cells[i + 1][1] == table[i].vehicleRegNo
         && cells[i + 1][2] == table[i].updatedAt && cells[i + 1][3] == table[i].snapshotJson
  }

  /** Read back by the parser, a body without its byte order mark is the header and those rows. */
  lemma ExportReadsBack(table: seq<Row>, n: nat)
    requires n <= |table|
    ensures Parse(BodyAfter(table, n)[1..]) == Some(Exported(table[..n])) && Shows(Exported(table[..n]), table, n)
  {
    var rows := Exported(table[..n]);
    EndedRoundTrip(rows, "\n");
    assert BodyAfter(table, n)[1..] == EndedLines(rows, "\n");
    assert EndedLines(rows, "\n") == Line(rows[0]) + "\n" + EndedLines(rows[1..], "\n");
  }
}
