/**
 * The row scans of server/services/googleSheetsService.ts: `findClient` over the
 * client sheet and `getClientAging` over the aging sheet. A sheet is the list of
 * rows the spreadsheet API returns, header first; a row is a list of cell texts and
 * may be shorter than the columns read.
 */
module Sheets {
  import opened Wrappers
  import opened JsText
  import opened Formatting

  type Row = seq<string>

  /** `row[i] || ''`: a missing cell reads as the empty text. */
  function Cell(row: Row, i: nat): string {
    if i < |row| then row[i] else ""
  }

  /** `row[i] || fallback`: a missing or empty cell reads as `fallback`. */
  function CellOr(row: Row, i: nat, fallback: string): string {
    if i < |row| && row[i] != "" then row[i] else fallback
  }

  // ---------------------------------------------------------------------------
  // findClient

  datatype ClientData = ClientData(
    rut: string, name: string, email: string, phone: string, address: string,
    contactPerson: string, creditLimit: int, paymentTerms: string, status: string)

  /** The client record built from a row: columns A to I, status defaulting to "Active". */
  function ClientOf(row: Row): ClientData {
    ClientData(Cell(row, 0), Cell(row, 1), Cell(row, 2), Cell(row, 3), Cell(row, 4),
               Cell(row, 5), ParseIntOrZero(Cell(row, 6)), Cell(row, 7), CellOr(row, 8, "Active"))
  }

  /** The RUT or the name of the row contains the identifier, ignoring case. */
  predicate ClientRowMatches(row: Row, identifier: string) {
    || Includes(ToLower(Cell(row, 0)), ToLower(identifier))
    || Includes(ToLower(Cell(row, 1)), ToLower(identifier))
  }

  /** The first data row (the header is skipped) that matches, or none. */
  method FindClient(identifier: string, rows: seq<Row>) returns (client: Option<ClientData>)
    ensures |rows| <= 1 ==> client == None
    ensures client == None <==> forall k :: 1 <= k < |rows| ==> !ClientRowMatches(rows[k], identifier)
    ensures client.Some? ==> exists k ::
      && 1 <= k < |rows|
      && ClientRowMatches(rows[k], identifier)
      && (forall j :: 1 <= j < k ==> !ClientRowMatches(rows[j], identifier))
      && client.value == ClientOf(rows[k])
  {
    if |rows| <= 1 {
      return None;
    }
    var i := 1;
    while i < |rows|
      invariant 1 <= i <= |rows|
      invariant forall j :: 1 <= j < i ==> !ClientRowMatches(rows[j], identifier)
    {
      var row := rows[i];
      var rut := Cell(row, 0);
      var name := Cell(row, 1);
      if Includes(ToLower(rut), ToLower(identifier)) || Includes(ToLower(name), ToLower(identifier)) {
        return Some(ClientOf(row));
      }
      i := i + 1;
    }
    return None;
  }

  /** Every row matches the empty identifier: any text includes the empty text. */
  lemma EmptyIdentifierMatchesAnyRow(row: Row)
    ensures ClientRowMatches(row, "")
  {
    assert OccursAt(ToLower(Cell(row, 0)), ToLower(""), 0);
  }

  // ---------------------------------------------------------------------------
  // getClientAging

  /** Dates are kept as the cell texts; parsing them into `Date` values is not modelled. */
  datatype InvoiceData = InvoiceData(
    invoiceNumber: string, date: string, dueDate: string,
    amount: int, balance: int, daysOverdue: int, status: string)

  datatype AgingData = AgingData(
    clientName: string, clientRut: string, totalAmount: int,
    current: int, days30: int, days60: int, days90: int, over90: int,
    invoices: seq<InvoiceData>)

  /** Columns C to I of an aging row; unreadable numbers become 0, status defaults to "Pending". */
  function InvoiceOf(row: Row): InvoiceData {
    InvoiceData(Cell(row, 2), Cell(row, 3), Cell(row, 4),
                ParseIntOrZero(Cell(row, 5)), ParseIntOrZero(Cell(row, 6)),
                ParseIntOrZero(Cell(row, 7)), CellOr(row, 8, "Pending"))
  }

  /** Column A equals the RUT, ignoring case (see `SameIgnoringCaseIsLowerEquality`). */
  predicate AgingRowMatches(row: Row, rut: string) {
    SameIgnoringCase(Cell(row, 0), rut)
  }

  /** The invoices of the matching data rows, in row order. */
  function MatchingInvoices(rows: seq<Row>, rut: string): seq<InvoiceData> {
    if rows == [] then []
    else
      var last := rows[|rows| - 1];
      MatchingInvoices(rows[..|rows| - 1], rut) + (if AgingRowMatches(last, rut) then [InvoiceOf(last)] else [])
  }

  /** `clientName`: set from a matching row only while it is still empty. */
  function ClientName(rows: seq<Row>, rut: string): string {
    if rows == [] then ""
    else
      var before := ClientName(rows[..|rows| - 1], rut);
      var last := rows[|rows| - 1];
      if before == "" && AgingRowMatches(last, rut) then Cell(last, 1) else before
  }

  /**
   * The client name is the name of the first matching row whose name cell is not empty,
   * and empty when every matching row has an empty name.
   */
  lemma {:induction false} ClientNameIsFirstNonEmpty(rows: seq<Row>, rut: string)
    ensures ClientName(rows, rut) == "" <==>
      forall k :: 0 <= k < |rows| && AgingRowMatches(rows[k], rut) ==> Cell(rows[k], 1) == ""
    ensures ClientName(rows, rut) != "" ==> exists k ::
      && 0 <= k < |rows| && AgingRowMatches(rows[k], rut) && Cell(rows[k], 1) == ClientName(rows, rut)
      && forall j :: 0 <= j < k && AgingRowMatches(rows[j], rut) ==> Cell(rows[j], 1) == ""
  {
    if rows != [] {
      var front := rows[..|rows| - 1];
      ClientNameIsFirstNonEmpty(front, rut);
      assert forall k :: 0 <= k < |front| ==> front[k] == rows[k];
    }
  }

  /** One more data row: how the invoices and the client name grow. */
  lemma AgingStep(rows: seq<Row>, i: nat, rut: string)
    requires 1 <= i < |rows|
    ensures AgingRowMatches(rows[i], rut) ==>
      MatchingInvoices(rows[1..i + 1], rut) == MatchingInvoices(rows[1..i], rut) + [InvoiceOf(rows[i])]
    ensures !AgingRowMatches(rows[i], rut) ==>
      MatchingInvoices(rows[1..i + 1], rut) == MatchingInvoices(rows[1..i], rut)
    ensures ClientName(rows[1..i + 1], rut)
      == if ClientName(rows[1..i], rut) == "" && AgingRowMatches(rows[i], rut) then Cell(rows[i], 1)
         else ClientName(rows[1..i], rut)
  {
    var grown := rows[1..i + 1];
    assert grown[..|grown| - 1] == rows[1..i];
    assert grown[|grown| - 1] == rows[i];
    assert MatchingInvoices(rows[1..i], rut) + [] == MatchingInvoices(rows[1..i], rut);
  }

  /** The running totals of a summary agree with the invoices collected so far. */
  predicate Tallied(a: AgingData) {
    && a.totalAmount == TotalBalance(a.invoices)
    && a.current == BucketTotal(a.invoices, Current)
    && a.days30 == BucketTotal(a.invoices, Days1To30)
    && a.days60 == BucketTotal(a.invoices, Days31To60)
    && a.days90 == BucketTotal(a.invoices, Days61To90)
    && a.over90 == BucketTotal(a.invoices, Over90)
  }

  /** What an invoice contributes to `bucket`: its balance if its days overdue fall there. */
  function Share(invoice: InvoiceData, bucket: AgingBucket): int {
    if BucketOf(invoice.daysOverdue) == bucket then invoice.balance else 0
  }

  /** Appending an invoice adds its balance to the total and to the bucket of its days overdue only. */
  lemma TalliedAppend(a: AgingData, invoice: InvoiceData)
    requires Tallied(a)
    ensures Tallied(a.(invoices := a.invoices + [invoice],
                       totalAmount := a.totalAmount + invoice.balance,
                       current := a.current + Share(invoice, Current),
                       days30 := a.days30 + Share(invoice, Days1To30),
                       days60 := a.days60 + Share(invoice, Days31To60),
                       days90 := a.days90 + Share(invoice, Days61To90),
                       over90 := a.over90 + Share(invoice, Over90)))
  {
    assert (a.invoices + [invoice])[..|a.invoices|] == a.invoices;
  }

  /**
   * The loop body of `getClientAging` for one row, with the loop's local totals held in
   * the summary being built: a matching row sets the client name if it is still empty
   * and adds its invoice (see `AddInvoice`).
   */
  method AddRow(a: AgingData, row: Row, rut: string) returns (a': AgingData)
    requires Tallied(a)
    ensures Tallied(a')
    ensures !AgingRowMatches(row, rut) ==> a' == a
    ensures AgingRowMatches(row, rut) ==>
      && a'.invoices == a.invoices + [InvoiceOf(row)]
      && a'.clientName == (if a.clientName == "" then Cell(row, 1) else a.clientName)
      && a'.clientRut == a.clientRut
  {
    if !AgingRowMatches(row, rut) {
      return a;
    }
    var clientName := a.clientName;
    if clientName == "" {
      clientName := Cell(row, 1);
    }
    a' := AddInvoice(a.(clientName := clientName), InvoiceOf(row));
  }

  /** The invoice is appended and its balance added to the total and to the bucket of its days overdue. */
  method AddInvoice(a: AgingData, invoice: InvoiceData) returns (a': AgingData)
    requires Tallied(a)
    ensures Tallied(a')
    ensures a'.invoices == a.invoices + [invoice]
    ensures a'.clientName == a.clientName && a'.clientRut == a.clientRut
  {
    var balance := invoice.balance;
    var daysOverdue := invoice.daysOverdue;
    var current, days30, days60, days90, over90 := a.current, a.days30, a.days60, a.days90, a.over90;
    if daysOverdue <= 0 {
      current := current + balance;
    } else if daysOverdue <= 30 {
      days30 := days30 + balance;
    } else if daysOverdue <= 60 {
      days60 := days60 + balance;
    } else if daysOverdue <= 90 {
      days90 := days90 + balance;
    } else {
      over90 := over90 + balance;
    }
    TalliedAppend(a, invoice);
    a' := AgingData(a.clientName, a.clientRut, a.totalAmount + balance,
                    current, days30, days60, days90, over90, a.invoices + [invoice]);
  }

  function TotalBalance(invoices: seq<InvoiceData>): int {
    if invoices == [] then 0
    else TotalBalance(invoices[..|invoices| - 1]) + invoices[|invoices| - 1].balance
  }

  /** The balances of the invoices whose days overdue fall in `bucket`. */
  function BucketTotal(invoices: seq<InvoiceData>, bucket: AgingBucket): int {
    if invoices == [] then 0
    else
      var last := invoices[|invoices| - 1];
      BucketTotal(invoices[..|invoices| - 1], bucket) + Share(last, bucket)
  }

  /** Each balance lands in exactly one bucket, so the five buckets add up to the total. */
  lemma {:induction false} BucketsAddUpToTotal(invoices: seq<InvoiceData>)
    ensures BucketTotal(invoices, Current) + BucketTotal(invoices, Days1To30) + BucketTotal(invoices, Days31To60)
          + BucketTotal(invoices, Days61To90) + BucketTotal(invoices, Over90) == TotalBalance(invoices)
  {
    if invoices != [] {
      BucketsAddUpToTotal(invoices[..|invoices| - 1]);
    }
  }

  /** No invoice exactly when no data row carries the RUT. */
  lemma {:induction false} NoMatchingInvoices(rows: seq<Row>, rut: string)
    ensures MatchingInvoices(rows, rut) == [] <==> forall k :: 0 <= k < |rows| ==> !AgingRowMatches(rows[k], rut)
  {
    if rows != [] {
      var front := rows[..|rows| - 1];
      NoMatchingInvoices(front, rut);
      assert forall k :: 0 <= k < |front| ==> front[k] == rows[k];
    }
  }

  /** A days-overdue cell that does not parse counts as current. */
  lemma UnreadableDaysAreCurrent(row: Row)
    requires ParseInt(Cell(row, 7)) == None
    ensures InvoiceOf(row).daysOverdue == 0 && BucketOf(InvoiceOf(row).daysOverdue) == Current
  {
  }

  /** The loop of `getClientAging` over the data rows, header skipped. */
  method Summarize(rut: string, rows: seq<Row>) returns (summary: AgingData)
    requires |rows| >= 1
    ensures summary.invoices == MatchingInvoices(rows[1..], rut)
    ensures summary.clientRut == rut
    ensures summary.clientName == ClientName(rows[1..], rut)
    ensures Tallied(summary)
  {
    summary := AgingData("", rut, 0, 0, 0, 0, 0, 0, []);
    var i := 1;
    while i < |rows|
      invariant 1 <= i <= |rows|
      invariant summary.clientRut == rut
      invariant summary.invoices == MatchingInvoices(rows[1..i], rut)
      invariant summary.clientName == ClientName(rows[1..i], rut)
      invariant Tallied(summary)
    {
      AgingStep(rows, i, rut);
      summary := AddRow(summary, rows[i], rut);
      i := i + 1;
    }
    assert rows[1..i] == rows[1..];
  }

  /**
   * The aging summary of one client: its invoices in row order, each balance added to
   * the total and to the bucket of its days overdue; none when no data row matches.
   */
  method GetClientAging(rut: string, rows: seq<Row>) returns (aging: Option<AgingData>)
    ensures |rows| <= 1 ==> aging == None
    ensures |rows| > 1 ==> (aging == None <==> MatchingInvoices(rows[1..], rut) == [])
    ensures aging.Some? ==>
      var a := aging.value;
      && a.invoices == MatchingInvoices(rows[1..], rut)
      && a.clientRut == rut
      && a.clientName == ClientName(rows[1..], rut)
      && Tallied(a)
  {
    if |rows| <= 1 {
      return None;
    }
    var summary := Summarize(rut, rows);
    if |summary.invoices| == 0 {
      return None;
    }
    aging := Some(summary);
  }
}
