/** The browser-side table renderer (public/app.js): one fetch of
    `/brains`, projected onto a fixed, ordered list of columns. The page's
    header row, table body and status line are the state it updates. */
module TableRenderer {
  import opened Records

  /** The columns shown, in order (public/app.js:7-25). */
  const Columns: seq<string> := [
    "AGE", "Organism",
    "Read 1", "Read 2", "Read 3", "Read 4", "Read 5",
    "Read 6", "Read 7", "Read 8", "Read 9", "Read 10",
    "Run", "brain_region", "diagnosis", "sex", "source_name"
  ]

  /** The column list names 17 distinct fields, so a header has one cell
      per field and no field is shown twice. `Run`, the lookup key, is
      among them. */
  lemma ColumnsAreDistinct()
    ensures |Columns| == 17
    ensures forall i, j :: 0 <= i < j < |Columns| ==> Columns[i] != Columns[j]
    ensures Columns[12] == RunField
  {
  }

  const NoDataText: string := "No data found"
  const FailedRowText: string := "Failed to load data"
  const FailedStatusPrefix: string := "Failed to load data: HTTP "

  /** The parsed response body: a JSON array of records, or a lone record. */
  datatype Json = JArray(items: seq<Record>) | JObject(item: Record)

  /** What the page sees of the fetch: the HTTP status and the parsed body. */
  datatype FetchResponse = FetchResponse(status: nat, payload: Json)

  /** A body row: one text cell per column, or a single cell spanning
      `colspan` columns that carries a message. */
  datatype Row = Cells(cells: seq<string>) | Banner(text: string, colspan: nat)

  /** The rendered page: header cells, body rows and status text. */
  datatype Page = Page(head: seq<string>, body: seq<Row>, status: string)

  /** `response.ok`: the status is in the range 200-299. */
  predicate IsOk(status: nat)
  {
    200 <= status <= 299
  }

  /** Normalisation (public/app.js:36-38): an array is kept, a lone value
      becomes a one-element sequence. */
  function Normalize(payload: Json): (data: seq<Record>)
    ensures payload.JArray? ==> data == payload.items
    ensures payload.JObject? ==> |data| == 1 && data[0] == payload.item
  {
    match payload
    case JArray(items) => items
    case JObject(item) => [item]
  }

  /** `item[col] ?? ""`: the field's value, or the empty string when the
      record has no such field. */
  function CellText(item: Record, col: string): string
  {
    if col in item then item[col] else ""
  }

  /** The cells of one record's row for the columns `cols`, built left to right. */
  function Project(item: Record, cols: seq<string>): (cells: seq<string>)
    ensures |cells| == |cols|
  {
    if cols == [] then []
    else Project(item, cols[..|cols| - 1]) + [CellText(item, cols[|cols| - 1])]
  }

  /** The body rows for `data`, appended record by record. */
  function BodyRows(data: seq<Record>): (rows: seq<Row>)
    ensures |rows| == |data|
  {
    if data == [] then []
    else BodyRows(data[..|data| - 1]) + [Cells(Project(data[|data| - 1], Columns))]
  }

  /** The decimal text of a number, as a template literal prints it. */
  function Decimal(n: nat): string
    decreases n
  {
    if n < 10 then [DigitChar(n)] else Decimal(n / 10) + [DigitChar(n % 10)]
  }

  function DigitChar(d: nat): char
    requires d < 10
  {
    ('0' as int + d) as char
  }

  predicate IsDigit(c: char)
  {
    '0' <= c <= '9'
  }

  /** Reads decimal digits back into a number. */
  function ParseDecimal(s: string): nat
    requires forall i :: 0 <= i < |s| ==> IsDigit(s[i])
  {
    if s == [] then 0
    else
      assert IsDigit(s[|s| - 1]);
      10 * ParseDecimal(s[..|s| - 1]) + (s[|s| - 1] as int - '0' as int)
  }

  /** The status text is digits only, reads back as the status, and has
      no leading zero: it starts with '0' only when it is "0" itself. */
  lemma {:induction false} DecimalRoundTrip(n: nat)
    ensures |Decimal(n)| > 0
    ensures forall i :: 0 <= i < |Decimal(n)| ==> IsDigit(Decimal(n)[i])
    ensures ParseDecimal(Decimal(n)) == n
    ensures Decimal(n)[0] == '0' <==> n == 0
    ensures |Decimal(n)| == 1 || Decimal(n)[0] != '0'
    decreases n
  {
    if n >= 10 {
      DecimalRoundTrip(n / 10);
      var s := Decimal(n);
      assert s[..|s| - 1] == Decimal(n / 10);
      assert s[0] == Decimal(n / 10)[0];
    }
  }

  /** What one run of the DOMContentLoaded handler leaves on the page,
      given the page before and the fetch result.
      - non-ok status: header untouched, body replaced by one failure row,
        status set to the error message (public/app.js:30-32, 69-73);
      - empty dataset: header rebuilt, body is the "No data found" row, and
        the handler returns before the status line is cleared
        (public/app.js:41-53);
      - otherwise: header rebuilt, one row per record, status cleared
        (public/app.js:41-68). */
  function Rendered(before: Page, resp: FetchResponse): (after: Page)
    // whatever happens, the table body shows at least one row
    ensures |after.body| > 0
    // the header is either rebuilt from the column list or left as it was
    ensures after.head == Columns || after.head == before.head
  {
    if !IsOk(resp.status) then
      Page(before.head, [Banner(FailedRowText, |Columns|)], FailedStatusPrefix + Decimal(resp.status))
    else
      var data := Normalize(resp.payload);
      if |data| == 0 then Page(Columns, [Banner(NoDataText, |Columns|)], before.status)
      else Page(Columns, BodyRows(data), "")
  }

  /** A record's row has exactly one cell per column, in column order, each
      holding the record's value for that column or "" when it is absent. */
  lemma {:induction false} ProjectCells(item: Record, cols: seq<string>)
    ensures |Project(item, cols)| == |cols|
    ensures forall k :: 0 <= k < |cols| ==> Project(item, cols)[k] == CellText(item, cols[k])
  {
    if cols != [] {
      ProjectCells(item, cols[..|cols| - 1]);
    }
  }

  /** One body row per record, in dataset order; row `j` is record `j`'s
      projection. */
  lemma {:induction false} BodyRowsInOrder(data: seq<Record>)
    ensures |BodyRows(data)| == |data|
    ensures forall j :: 0 <= j < |data| ==> BodyRows(data)[j] == Cells(Project(data[j], Columns))
  {
    if data != [] {
      BodyRowsInOrder(data[..|data| - 1]);
    }
  }

  /** The cell a column shows depends only on that column's field: records
      that agree on a column render the same cell in it. */
  lemma {:induction false} ProjectDependsOnColumnsOnly(a: Record, b: Record, cols: seq<string>)
    requires forall k :: 0 <= k < |cols| ==> CellText(a, cols[k]) == CellText(b, cols[k])
    ensures Project(a, cols) == Project(b, cols)
  {
    if cols != [] {
      ProjectDependsOnColumnsOnly(a, b, cols[..|cols| - 1]);
    }
  }

  /** A successful render with records: 17 header cells in the listed
      order, one row per record in dataset order, every row exactly 17
      cells wide, each cell the record's field value or "", status cleared. */
  lemma RenderedTable(before: Page, resp: FetchResponse)
    requires IsOk(resp.status) && |Normalize(resp.payload)| > 0
    ensures var after := Rendered(before, resp); var data := Normalize(resp.payload);
      && after.head == Columns && |after.head| == 17
      && |after.body| == |data|
      && after.status == ""
      && forall j :: 0 <= j < |data| ==>
           after.body[j].Cells? && |after.body[j].cells| == |Columns| &&
           forall k :: 0 <= k < |Columns| ==> after.body[j].cells[k] == CellText(data[j], Columns[k])
  {
    var data := Normalize(resp.payload);
    BodyRowsInOrder(data);
    forall j | 0 <= j < |data| {
      ProjectCells(data[j], Columns);
    }
  }

  /** A successful render of an empty dataset: header rebuilt, one
      "No data found" row spanning all 17 columns, status left as it was. */
  lemma RenderedEmpty(before: Page, resp: FetchResponse)
    requires IsOk(resp.status) && |Normalize(resp.payload)| == 0
    ensures Rendered(before, resp) == Page(Columns, [Banner(NoDataText, 17)], before.status)
  {
  }

  /** A failed fetch: a status message naming the HTTP status in decimal,
      one "Failed to load data" row spanning all 17 columns, header left as
      it was. */
  lemma RenderedFailure(before: Page, resp: FetchResponse)
    requires !IsOk(resp.status)
    ensures var after := Rendered(before, resp);
      && after.head == before.head
      && after.body == [Banner(FailedRowText, 17)]
      && |after.status| > |FailedStatusPrefix|
      && after.status[..|FailedStatusPrefix|] == FailedStatusPrefix
      && var code := after.status[|FailedStatusPrefix|..];
         (forall i :: 0 <= i < |code| ==> IsDigit(code[i])) && ParseDecimal(code) == resp.status &&
         (|code| == 1 || code[0] != '0')
  {
    DecimalRoundTrip(resp.status);
    var after := Rendered(before, resp);
    assert after.status[|FailedStatusPrefix|..] == Decimal(resp.status);
  }

  /** The body is cleared before rows are added: no row of the previous
      page survives, whatever it held. */
  lemma BodyIgnoresPreviousPage(p1: Page, p2: Page, resp: FetchResponse)
    ensures Rendered(p1, resp).body == Rendered(p2, resp).body
  {
  }

  /** Builds one record's row, a cell per column (public/app.js:56-62). */
  method BuildRow(item: Record) returns (cells: seq<string>)
    ensures cells == Project(item, Columns)
  {
    cells := [];
    var k := 0;
    while k < |Columns|
      invariant 0 <= k <= |Columns|
      invariant cells == Project(item, Columns[..k])
    {
      cells := cells + [CellText(item, Columns[k])];
      k := k + 1;
      assert Columns[..k][..k - 1] == Columns[..k - 1];
    }
    assert Columns[..|Columns|] == Columns;
  }

  /** The page's table and status line. */
  class TablePage {
    var head: seq<string>
    var body: seq<Row>
    var status: string

    ghost function View(): Page
      reads this
    {
      Page(head, body, status)
    }

    /** The page as served, before the script runs. */
    constructor (initial: Page)
      ensures View() == initial
    {
      head, body, status := initial.head, initial.body, initial.status;
    }

    /** The DOMContentLoaded handler, once the fetch has answered. */
    method Render(resp: FetchResponse)
      modifies this
      ensures View() == Rendered(old(View()), resp)
    {
      if !IsOk(resp.status) {
        status := FailedStatusPrefix + Decimal(resp.status);
        body := [Banner(FailedRowText, |Columns|)];
        return;
      }
      var data := Normalize(resp.payload);

      head := [];
      var i := 0;
      while i < |Columns|
        invariant 0 <= i <= |Columns|
        invariant head == Columns[..i]
        invariant body == old(body) && status == old(status)
      {
        head := head + [Columns[i]];
        i := i + 1;
      }

      body := [];
      if |data| == 0 {
        body := [Banner(NoDataText, |Columns|)];
        return;
      }

      var j := 0;
      while j < |data|
        invariant 0 <= j <= |data|
        invariant head == Columns && status == old(status)
        invariant body == BodyRows(data[..j])
      {
        var tr := BuildRow(data[j]);
        body := body + [Cells(tr)];
        j := j + 1;
        assert data[..j][..j - 1] == data[..j - 1];
      }
      assert data[..|data|] == data;
      status := "";
    }
  }
}
