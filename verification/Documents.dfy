/** What the files say of invoices, refunds and ledger lines after any run of commands, decisions, adjustments and
    restarts, each stopped where it may. */
module Documents {
  import opened Books
  import opened Billing
  import opened Runs
  import opened RecoveryRuns
  import opened CutRefunds
  import opened Appends
  import opened AppendRuns

  ghost predicate AllAtRate(rate: int, es: seq<RecoveryEvent>) { forall k :: 0 <= k < |es| ==> AtRate(rate, es[k]) }

  /** A run of commands, each run to its end or its stop, is one of these. */
  lemma {:induction false} RunAsEvents(p: Policy, cmds: seq<Command>) returns (es: seq<RecoveryEvent>)
    ensures AllAtRate(p.taxRate, es) && RecoveryRun(EMPTY, es) == Run(EMPTY, p, cmds)
  {
    hide PlanOf, ApplyAll;
    if cmds == [] {
      es := [];
    } else {
      var n := |cmds| - 1;
      var front := RunAsEvents(p, cmds[..n]);
      var b := Run(EMPTY, p, cmds[..n]);
      var e := Working(p, cmds[n], |PlanOf(b, p, cmds[n]).steps|);
      es := front + [e];
      assert es[..|es| - 1] == front;
      var steps := PlanOf(b, p, cmds[n]).steps;
      assert steps[..|steps|] == steps;
    }
  }

  /** The tax of a stored invoice is the rate's part of its subtotal in ten-thousandths, rounded down, and its
      journal carries the tax on 2100, the subtotal on 4000 and the total on 1000. */
  lemma InvoiceMoney(rate: int, es: seq<RecoveryEvent>, x: Invoice)
    requires AllAtRate(rate, es) && x in RecoveryRun(EMPTY, es).invoices
    ensures 10000 * x.tax <= x.subtotal * rate < 10000 * (x.tax + 1) && x.total == x.subtotal + x.tax
    ensures var ls := RecoveryRun(EMPTY, es).lines;
      && Posted(ls, x.journalId, 1000) == x.total && Posted(ls, x.journalId, 2100) == -x.tax
      && Posted(ls, x.journalId, 4000) == -x.subtotal && Posted(ls, x.journalId, 1200) == -Posted(ls, x.journalId, 5000)
  {
    hide RecoveryRun, EntriesKept, LinesKept, StockKept, InvoiceLinesKept, RefundsKept, RefundLinesKept, Posted,
      JournalIn;
    FilesAreKept(rate, es);
    var b := RecoveryRun(EMPTY, es);
    var i :| 0 <= i < |b.invoices| && b.invoices[i] == x;
    assert GoodInvoice(rate, b.invoices[i]);
  }

  /** The same of a stored refund, with its restored cost on 1200 and 5000 and its subtotal on 4100. */
  lemma RefundMoney(rate: int, es: seq<RecoveryEvent>, x: Refund)
    requires AllAtRate(rate, es) && x in RecoveryRun(EMPTY, es).refunds
    ensures 10000 * x.tax <= x.subtotal * rate < 10000 * (x.tax + 1) && x.total == x.subtotal + x.tax
    ensures var ls := RecoveryRun(EMPTY, es).lines;
      && Posted(ls, x.journalId, 1000) == -x.total && Posted(ls, x.journalId, 2100) == x.tax
      && Posted(ls, x.journalId, 4100) == x.subtotal
      && Posted(ls, x.journalId, 1200) == x.cogsRestored && Posted(ls, x.journalId, 5000) == -x.cogsRestored
  {
    hide RecoveryRun, EntriesKept, LinesKept, StockKept, InvoiceLinesKept, InvoicesKept, RefundsKept, RefundLinesKept,
      Posted, JournalIn, InvoiceOfRefund;
    FilesAreKept(rate, es);
    RefundIsKept(rate, RecoveryRun(EMPTY, es), x);
  }

  lemma InvoiceCurrency(rate: int, b: Books, x: Refund)
    requires InvoicesKept(rate, b) && InvoiceOfRefund(b.invoices, x)
    ensures exists y: Invoice :: y in b.invoices && y.invoiceId == x.originalInvoiceId && y.currency == x.currency
    ensures forall y: Invoice :: y in b.invoices && y.invoiceId == x.originalInvoiceId ==> y.currency == x.currency
  {
    hide GoodInvoice, InvoiceBooked;
    var k :| 0 <= k < |b.invoices| && b.invoices[k].invoiceId == x.originalInvoiceId
      && b.invoices[k].currency == x.currency;
    assert b.invoices[k] in b.invoices;
  }

  lemma LineCurrency(rate: int, b: Books, x: Refund)
    requires RefundsKept(rate, b) && RefundLinesKept(b) && x in b.refunds
    ensures forall l: RefundLine :: l in b.refundLines && l.refundId == x.refundId ==> l.currency == x.currency
  {
    hide GoodRefund, RefundBooked, InvoiceOfRefund, GoodRefundLine;
    forall i | 0 <= i < |b.refundLines| && b.refundLines[i].refundId == x.refundId
      ensures b.refundLines[i].currency == x.currency
    {
      var l := b.refundLines[i];
      assert RefundOfLine(b.refunds, l);
      var k :| 0 <= k < |b.refunds| && b.refunds[k].refundId == l.refundId && b.refunds[k].currency == l.currency;
    }
  }

  lemma RefundIsKept(rate: int, b: Books, x: Refund)
    requires RefundsKept(rate, b) && x in b.refunds
    ensures GoodRefund(rate, x) && RefundBooked(b.entries, b.lines, x) && InvoiceOfRefund(b.invoices, x)
  {
    hide GoodRefund, RefundBooked, InvoiceOfRefund;
    var i :| 0 <= i < |b.refunds| && b.refunds[i] == x;
  }

  lemma JournalCurrency(b: Books, x: Refund)
    requires RefundBooked(b.entries, b.lines, x)
    ensures forall l: LedgerLine :: l in b.lines && l.journalId == x.journalId ==>
      l.currency == x.currency && l.periodId == x.periodId
  {
    hide Posted;
  }

  /** The invoice a stored refund names is stored, once, in the refund's currency; so are the refund's lines and
      the ledger lines of its journal. */
  lemma RefundCurrency(rate: int, es: seq<RecoveryEvent>, x: Refund)
    requires AllAtRate(rate, es) && x in RecoveryRun(EMPTY, es).refunds
    ensures var b := RecoveryRun(EMPTY, es);
      && (exists y: Invoice :: y in b.invoices && y.invoiceId == x.originalInvoiceId && y.currency == x.currency)
      && (forall y: Invoice :: y in b.invoices && y.invoiceId == x.originalInvoiceId ==> y.currency == x.currency)
      && (forall l: RefundLine :: l in b.refundLines && l.refundId == x.refundId ==> l.currency == x.currency)
      && (forall l: LedgerLine :: l in b.lines && l.journalId == x.journalId ==>
           l.currency == x.currency && l.periodId == x.periodId)
  {
    hide RecoveryRun, EntriesKept, LinesKept, StockKept, InvoicesKept, InvoiceLinesKept, RefundsKept, RefundLinesKept,
      RefundBooked, InvoiceOfRefund, GoodRefund;
    FilesAreKept(rate, es);
    var b := RecoveryRun(EMPTY, es);
    RefundIsKept(rate, b, x);
    InvoiceCurrency(rate, b, x);
    LineCurrency(rate, b, x);
    JournalCurrency(b, x);
  }

  lemma EntryOfStored(b: Books, l: LedgerLine)
    requires EntriesKept(b) && LinesKept(b) && l in b.lines
    ensures GoodLine(l)
    ensures exists e: JournalEntry :: e in b.entries && e.journalId == l.journalId
    ensures forall e: JournalEntry :: e in b.entries && e.journalId == l.journalId ==>
      e.periodId == l.periodId && e.currency == l.currency && e.debitTotal == e.creditTotal
  {
    hide GoodLine;
    var i :| 0 <= i < |b.lines| && b.lines[i] == l;
    assert GoodLine(b.lines[i]) && EntryOfLine(b.entries, b.lines[i]);
    var k :| 0 <= k < |b.entries| && b.entries[k].journalId == l.journalId && b.entries[k].periodId == l.periodId
      && b.entries[k].currency == l.currency;
    assert b.entries[k] in b.entries;
  }

  /** A stored ledger line is of an account of the chart, with an amount on exactly one side, in the period and the
      currency of the one entry of its journal, whose totals are equal. */
  lemma LineOfEntry(rate: int, es: seq<RecoveryEvent>, l: LedgerLine)
    requires AllAtRate(rate, es) && l in RecoveryRun(EMPTY, es).lines
    ensures l.account in {1000, 1010, 1100, 1200, 1300, 2000, 2100, 3000, 4000, 4100, 5000, 5100}
    ensures (l.debit > 0 && l.credit == 0) || (l.debit == 0 && l.credit > 0)
    ensures exists e: JournalEntry :: e in RecoveryRun(EMPTY, es).entries && e.journalId == l.journalId
    ensures forall e: JournalEntry :: e in RecoveryRun(EMPTY, es).entries && e.journalId == l.journalId ==>
      e.periodId == l.periodId && e.currency == l.currency && e.debitTotal == e.creditTotal
  {
    hide RecoveryRun, EntriesKept, LinesKept, StockKept, InvoicesKept, InvoiceLinesKept, RefundsKept, RefundLinesKept;
    FilesAreKept(rate, es);
    EntryOfStored(RecoveryRun(EMPTY, es), l);
  }
}
