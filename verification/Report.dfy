/**
 * The string-building part of HelpBot.write_tickets_to_html: an HTML page
 * with a header, one table row per ticket (id, status, operator or 'N/A')
 * and a footer. Reading the rows from the database, writing the file and
 * the channel notice are not part of this module.
 */
module Report {
  import opened Common
  import opened Text

  /** A row of SELECT id, status, oper FROM tickets; oper is NULL as None. */
  datatype Row = Row(id: string, status: string, oper: Option<string>)

  const PageHead: string := "<html><head><title>Estado de tickets del canal #ayuda</title></head><body>"
  const TableHead: string := "<table border='1'><tr><th>Ticket ID</th><th>Status</th><th>Operator</th></tr>"
  const Footer: string := "</table></body></html>"
  const RowOpen: string := "<tr><td>"
  const CellSep: string := "</td><td>"
  const RowClose: string := "</td></tr>"
  const NoOperator: string := "N/A"

  /** `row[2] or 'N/A'`: Python treats both NULL and the empty string as false. */
  function OperCell(oper: Option<string>): (cell: string)
    ensures oper.Some? && oper.value != [] ==> cell == oper.value
    ensures oper.None? || oper.value == [] ==> cell == NoOperator
  {
    match oper
    case None => NoOperator
    case Some(o) => if o == [] then NoOperator else o
  }

  function RenderRow(row: Row): string {
    RowOpen + row.id + CellSep + row.status + CellSep + OperCell(row.oper) + RowClose
  }

  /** The rows in the order the query returned them. */
  function RenderRows(rows: seq<Row>): string {
    if rows == [] then [] else RenderRow(rows[0]) + RenderRows(rows[1..])
  }

  /** The whole page for a snapshot of the table. */
  function ReportHtml(rows: seq<Row>): string {
    PageHead + TableHead + RenderRows(rows) + Footer
  }

  lemma {:induction false} RenderRowsAppend(rows: seq<Row>, row: Row)
    ensures RenderRows(rows + [row]) == RenderRows(rows) + RenderRow(row)
  {
    if rows == [] {
      assert rows + [row] == [row];
      assert RenderRows([row]) == RenderRow(row) + RenderRows([]);
    } else {
      assert (rows + [row])[0] == rows[0];
      assert (rows + [row])[1..] == rows[1..] + [row];
      RenderRowsAppend(rows[1..], row);
    }
  }

  /** The `for row in rows` loop that accumulates html_content. */
  method RenderReport(rows: seq<Row>) returns (html: string)
    ensures html == ReportHtml(rows)
  {
    html := PageHead;
    html := html + TableHead;
    for i := 0 to |rows|
      invariant html == PageHead + TableHead + RenderRows(rows[..i])
    {
      RenderRowsAppend(rows[..i], rows[i]);
      assert rows[..i + 1] == rows[..i] + [rows[i]];
      html := html + RenderRow(rows[i]);
    }
    assert rows[..|rows|] == rows;
    html := html + Footer;
  }

  // ---------------------------------------------------------------------
  // Reading the page back: the rendering loses nothing but NULL-versus-''
  // ---------------------------------------------------------------------

  /** The three cells a row shows. */
  datatype Cells = Cells(id: string, status: string, oper: string)

  function Shown(row: Row): Cells {
    Cells(row.id, row.status, OperCell(row.oper))
  }

  function ShownRows(rows: seq<Row>): seq<Cells> {
    if rows == [] then [] else [Shown(rows[0])] + ShownRows(rows[1..])
  }

  predicate NoMarkup(s: string) {
    forall i :: 0 <= i < |s| ==> s[i] != '<'
  }

  /** A row whose cells contain no '<' and so cannot be mistaken for markup. */
  predicate PlainRow(row: Row) {
    NoMarkup(row.id) && NoMarkup(row.status) && NoMarkup(OperCell(row.oper))
  }

  function StripPrefix(s: string, p: string): (r: Option<string>)
    ensures r.Some? ==> |r.value| + |p| == |s|
  {
    if StartsWith(s, p) then Some(s[|p|..]) else None
  }

  /** Length of the longest prefix of s without '<'. */
  function FieldLength(s: string): (n: nat)
    ensures n <= |s|
  {
    if s == [] || s[0] == '<' then 0 else 1 + FieldLength(s[1..])
  }

  /** Strips `open` from the front of s and reads the cell text up to the next '<'. */
  function ReadCell(s: string, open: string): (r: Option<(string, string)>)
    ensures r.Some? ==> |r.value.1| + |open| <= |s|
  {
    var a :- StripPrefix(s, open);
    var n := FieldLength(a);
    Some((a[..n], a[n..]))
  }

  /** Reads one row from the front of s and returns its cells and what follows. */
  function DecodeRow(s: string): (r: Option<(Cells, string)>)
    ensures r.Some? ==> |r.value.1| < |s|
  {
    var (id, b) :- ReadCell(s, RowOpen);
    var (status, c) :- ReadCell(b, CellSep);
    var (oper, d) :- ReadCell(c, CellSep);
    var e :- StripPrefix(d, RowClose);
    Some((Cells(id, status, oper), e))
  }

  function DecodeRows(s: string): Option<seq<Cells>>
    decreases |s|
  {
    if s == [] then Some([])
    else
      var (cells, rest) :- DecodeRow(s);
      var more :- DecodeRows(rest);
      Some([cells] + more)
  }

  /** The text between a leading `head` and a trailing `foot`. */
  function Unframe(s: string, head: string, foot: string): (r: Option<string>)
    ensures r.Some? ==> |r.value| + |head| + |foot| == |s|
  {
    if StartsWith(s, head) && |s| >= |head| + |foot| && s[|s| - |foot|..] == foot then
      Some(s[|head|..|s| - |foot|])
    else None
  }

  /** Reads the table back out of a whole page. */
  function DecodeReport(html: string): Option<seq<Cells>> {
    var body :- Unframe(html, PageHead + TableHead, Footer);
    DecodeRows(body)
  }

  lemma UnframeOf(head: string, body: string, foot: string)
    ensures Unframe(head + body + foot, head, foot) == Some(body)
  {
    var s := head + body + foot;
    assert s[..|head|] == head;
    assert s[|s| - |foot|..] == foot;
    assert s[|head|..|s| - |foot|] == body;
  }

  lemma {:induction false} FieldLengthOf(f: string, rest: string)
    requires NoMarkup(f)
    requires rest != [] && rest[0] == '<'
    ensures FieldLength(f + rest) == |f|
  {
    if f != [] {
      assert (f + rest)[1..] == f[1..] + rest;
      FieldLengthOf(f[1..], rest);
    } else {
      assert f + rest == rest;
    }
  }

  lemma StripLiteral(p: string, t: string)
    ensures StripPrefix(p + t, p) == Some(t)
  {
    assert (p + t)[..|p|] == p;
    assert (p + t)[|p|..] == t;
  }

  lemma ReadCellOf(open: string, f: string, rest: string)
    requires NoMarkup(f)
    requires rest != [] && rest[0] == '<'
    ensures ReadCell(open + (f + rest), open) == Some((f, rest))
  {
    StripLiteral(open, f + rest);
    FieldLengthOf(f, rest);
    assert (f + rest)[..|f|] == f && (f + rest)[|f|..] == rest;
  }

  lemma MarkupDelimiters()
    ensures |CellSep| > 0 && CellSep[0] == '<'
    ensures |RowClose| > 0 && RowClose[0] == '<'
    ensures |RowOpen| > 0
  {
  }

  /** The rendered row with its concatenations grouped from the right. */
  lemma RenderRowNested(row: Row, rest: string)
    ensures RenderRow(row) + rest ==
      RowOpen + (row.id + (CellSep + (row.status + (CellSep + (OperCell(row.oper) + (RowClose + rest))))))
  {
  }

  /** A rendered row, followed by anything, reads back as its cells and that remainder. */
  lemma DecodeRenderRow(row: Row, rest: string)
    requires PlainRow(row)
    ensures DecodeRow(RenderRow(row) + rest) == Some((Shown(row), rest))
  {
    var id, st, op := row.id, row.status, OperCell(row.oper);
    MarkupDelimiters();
    RenderRowNested(row, rest);
    var d := RowClose + rest;
    var c := CellSep + (op + d);
    var b := CellSep + (st + c);
    ReadCellOf(RowOpen, id, b);
    ReadCellOf(CellSep, st, c);
    ReadCellOf(CellSep, op, d);
    StripLiteral(RowClose, rest);
  }

  /** The rendered rows read back as the cells of the rows, in order. */
  lemma {:induction false} DecodeRenderRows(rows: seq<Row>)
    requires forall i :: 0 <= i < |rows| ==> PlainRow(rows[i])
    ensures DecodeRows(RenderRows(rows)) == Some(ShownRows(rows))
  {
    if rows != [] {
      var rest := RenderRows(rows[1..]);
      DecodeRenderRow(rows[0], rest);
      assert RenderRows(rows) != [] by {
        assert RenderRows(rows)[..|RowOpen|] == RowOpen;
      }
      DecodeRenderRows(rows[1..]);
    }
  }

  /** The page lists every row of the snapshot, in order, with the cells it was given. */
  lemma DecodeReportHtml(rows: seq<Row>)
    requires forall i :: 0 <= i < |rows| ==> PlainRow(rows[i])
    ensures DecodeReport(ReportHtml(rows)) == Some(ShownRows(rows))
  {
    UnframeOf(PageHead + TableHead, RenderRows(rows), Footer);
    DecodeRenderRows(rows);
  }

  /** Every snapshot row becomes exactly one table row. */
  lemma {:induction false} ShownRowsLength(rows: seq<Row>)
    ensures |ShownRows(rows)| == |rows|
  {
    if rows != [] { ShownRowsLength(rows[1..]); }
  }
}
