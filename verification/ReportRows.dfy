/** What a row of the refund availability report says of the files, and that it adds up, after any run. */
module ReportRows {
  import opened Status
  import opened Books
  import opened Billing
  import opened Reconciliation
  import opened RefundSafety
  import opened Runs
  import opened Availability
  import Admission

  /** The invoice line that sold the item at the price first. */
  predicate SoldFirst(ls: seq<InvoiceLine>, key: RowKey, i: nat) {
    && i < |ls| && ls[i].invoiceId == key.invoiceId && ls[i].itemId == key.line.itemId
    && ls[i].unitPrice == key.line.unitPrice
    && forall j :: 0 <= j < i ==>
         !(ls[j].invoiceId == key.invoiceId && ls[j].itemId == key.line.itemId && ls[j].unitPrice == key.line.unitPrice)
  }

  /** Sold and refunded quantity, what remains of it, and all three at the price. */
  predicate AddsUp(b: Books, key: RowKey, row: Row) {
    var id, itemId, price := key.invoiceId, key.line.itemId, key.line.unitPrice;
    && row.original == Sum(b.invoiceLines, (l: InvoiceLine) =>
         if l.invoiceId == id && l.itemId == itemId && l.unitPrice == price then l.quantity else 0)
    && row.refunded == Sum(b.refundLines, (l: RefundLine) =>
         if Admission.RefundsInvoice(b.refunds, l.refundId, id) && l.itemId == itemId
           && l.unitPrice == price then l.quantity else 0)
    && 0 <= row.refunded && row.refunded + row.remaining == row.original && 0 <= row.remaining
    && row.originalAmount == row.original * price && row.refundedAmount == row.refunded * price
    && row.refundedAmount + row.remainingAmount == row.originalAmount
  }

  lemma {:induction false} FirstIsSoldFirst(ls: seq<InvoiceLine>, key: RowKey)
    requires FirstLine(ls, key).Some?
    ensures exists i: nat :: SoldFirst(ls, key, i) && ls[i] == FirstLine(ls, key).value
  {
    var front, l := ls[..|ls| - 1], ls[|ls| - 1];
    if FirstLine(front, key).Some? {
      FirstIsSoldFirst(front, key);
      var i: nat :| SoldFirst(front, key, i) && front[i] == FirstLine(front, key).value;
      assert SoldFirst(ls, key, i);
    } else {
      FirstLineFound(front, key);
      assert forall j :: 0 <= j < |front| ==> ls[j] == front[j];
      assert SoldFirst(ls, key, |ls| - 1);
    }
  }

  /** Whatever the files hold, nothing negative is shown as remaining. */
  lemma RowIsClamped(b: Books, key: RowKey, row: Row)
    requires IsRow(b, key, row)
    ensures row.remaining == if row.refunded > row.original then 0 else row.original - row.refunded
    ensures row.remainingAmount == row.remaining * key.line.unitPrice
  {
    hide Sum, Describes, FirstLine, PeriodOfInvoice;
  }

  lemma RowAddsUp(b: Books, rate: int, key: RowKey, row: Row)
    requires Safe(b, rate) && UniqueRefunds(b.refunds) && IsRow(b, key, row)
    ensures AddsUp(b, key, row)
  {
    hide Sum, UniqueRefunds, Linked, SafeLines, SafeAmounts, RefundsOf, Sold, SoldCost, Refunded, RefundedIn,
      Requested, Describes, FirstLine;
    var id, price := key.invoiceId, key.line.unitPrice;
    assert SafeKey(b, id, key.line);
    SameRefunded(b, key);
    RefundedNonNegative(b, id, key.line);
    Admission.SoldSums(b, id, key.line.itemId, price);
    Admission.RefundedSums(b, RefundCommand("", id, "", "", "", "", "", "", []), key.line.itemId, price);
    assert (row.refunded + row.remaining) * price == row.refunded * price + row.remaining * price;
  }

  /** In the store any run reaches a row adds up, and is described by the first line that sold its item at its price,
      in the period of its invoice. */
  lemma ReportAddsUp(p: Policy, cmds: seq<Command>, period: Option<string>, rows: map<RowKey, Row>, key: RowKey)
    requires AreRows(Run(EMPTY, p, cmds), period, rows) && key in rows
    ensures var b, row := Run(EMPTY, p, cmds), rows[key];
      && AddsUp(b, key, row) && (period.Some? ==> row.period == period.value)
      && exists i: nat :: SoldFirst(b.invoiceLines, key, i)
           && row.description == b.invoiceLines[i].description && row.currency == b.invoiceLines[i].currency
  {
    RunSafe(p, cmds);
    RunUnique(p, cmds);
    var b, row := Run(EMPTY, p, cmds), rows[key];
    hide Run, Safe, UniqueRefunds, AddsUp, Sum, PeriodOfInvoice, FirstLine, SoldFirst;
    RowAddsUp(b, p.taxRate, key, row);
    FirstIsSoldFirst(b.invoiceLines, key);
  }

  predicate LastRecord(xs: seq<Invoice>, id: string, i: nat) {
    i < |xs| && xs[i].invoiceId == id && forall j :: i < j < |xs| ==> xs[j].invoiceId != id
  }

  /** The last record of the invoice is in the period asked for, if one is. */
  ghost predicate InPeriod(xs: seq<Invoice>, id: string, period: Option<string>) {
    exists i: nat :: LastRecord(xs, id, i) && (period == None || period == Some(xs[i].periodId))
  }

  lemma {:induction false} PeriodOfLast(xs: seq<Invoice>, id: string)
    ensures forall i: nat :: LastRecord(xs, id, i) ==> PeriodOfInvoice(xs, id) == Some(xs[i].periodId)
    ensures PeriodOfInvoice(xs, id).Some? ==> exists i: nat :: LastRecord(xs, id, i)
  {
    if xs != [] && xs[|xs| - 1].invoiceId == id {
      assert LastRecord(xs, id, |xs| - 1);
    } else if xs != [] {
      var front := xs[..|xs| - 1];
      PeriodOfLast(front, id);
      forall i: nat
        ensures LastRecord(xs, id, i) <==> LastRecord(front, id, i)
      {
        assert forall j :: 0 <= j < |front| ==> xs[j] == front[j];
      }
    }
  }

  lemma PeriodIsLast(xs: seq<Invoice>, id: string, period: Option<string>)
    ensures InPeriod(xs, id, period) <==>
      PeriodOfInvoice(xs, id).Some? && (period == None || period == PeriodOfInvoice(xs, id))
  {
    hide LastRecord, PeriodOfInvoice;
    LastInFile(xs, id);
    PeriodOfLast(xs, id);
  }

  lemma LastInFile(xs: seq<Invoice>, id: string)
    ensures forall i: nat :: LastRecord(xs, id, i) ==> i < |xs|
  {
  }

  /** There is a row for exactly the items and prices that invoices of the period sold. */
  lemma RowsAreSold(b: Books, period: Option<string>, rows: map<RowKey, Row>, key: RowKey)
    requires AreRows(b, period, rows)
    ensures key in rows <==> (exists i: nat :: SoldFirst(b.invoiceLines, key, i)) && InPeriod(b.invoices,
      key.invoiceId, period)
  {
    PeriodIsLast(b.invoices, key.invoiceId, period);
    FirstLineFound(b.invoiceLines, key);
    hide PeriodOfInvoice, InPeriod, FirstLine, IsRow;
    if HasRow(b.invoiceLines, key) {
      FirstIsSoldFirst(b.invoiceLines, key);
    }
  }
}
