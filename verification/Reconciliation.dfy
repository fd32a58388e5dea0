/** src/bms/domain/reconciliation/service.py: the five checks between subledgers and ledger, as folds over
    the files, and how they add up over appended records. */
module Reconciliation {
  import opened Status
  import opened Books
  import opened Accounting
  import opened Inventory

  // ---------------------------------------------------------------- the report

  datatype Check = Check(expected: int, actual: int)
  {
    function Difference(): int { actual - expected }

    function Plus(other: Check): Check { Check(expected + other.expected, actual + other.actual) }
  }

  datatype Report = Report(inventory: Check, tax: Check, sales: Check, refunds: Check, cogs: Check)
  {
    predicate Passed() {
      && inventory.Difference() == 0 && tax.Difference() == 0 && sales.Difference() == 0
      && refunds.Difference() == 0 && cogs.Difference() == 0
    }

    function Plus(other: Report): Report {
      Report(inventory.Plus(other.inventory), tax.Plus(other.tax), sales.Plus(other.sales),
             refunds.Plus(other.refunds), cogs.Plus(other.cogs))
    }
  }

  function SubtotalIn(p: string): Invoice -> int { (x: Invoice) => if x.periodId == p then x.subtotal else 0 }

  function TaxIn(p: string): Invoice -> int { (x: Invoice) => if x.periodId == p then x.tax else 0 }

  function RefundSubtotalIn(p: string): Refund -> int { (x: Refund) => if x.periodId == p then x.subtotal else 0 }

  function RefundTaxIn(p: string): Refund -> int { (x: Refund) => if x.periodId == p then x.tax else 0 }

  /** The dictionary from invoice id to period: the last record counts. */
  function PeriodOfInvoice(xs: seq<Invoice>, invoiceId: string): Option<string> {
    if xs == [] then None
    else if xs[|xs| - 1].invoiceId == invoiceId then Some(xs[|xs| - 1].periodId)
    else PeriodOfInvoice(xs[..|xs| - 1], invoiceId)
  }

  function PeriodOfRefund(xs: seq<Refund>, refundId: string): Option<string> {
    if xs == [] then None
    else if xs[|xs| - 1].refundId == refundId then Some(xs[|xs| - 1].periodId)
    else PeriodOfRefund(xs[..|xs| - 1], refundId)
  }

  function CogsIn(invoices: seq<Invoice>, p: string): InvoiceLine -> int {
    (l: InvoiceLine) => if PeriodOfInvoice(invoices, l.invoiceId) == Some(p) then l.cogs else 0
  }

  function RestoredIn(refunds: seq<Refund>, p: string): RefundLine -> int {
    (l: RefundLine) => if PeriodOfRefund(refunds, l.refundId) == Some(p) then l.cogs else 0
  }

  function DebitBalance(b: Books, p: string, a: Account): int { Debit(b.lines, p, a) - Credit(b.lines, p, a) }

  function ReportOf(b: Books, p: string): Report {
    Report(
      Check(PeriodValue(b.movements, p), DebitBalance(b, p, INVENTORY)),
      Check(Sum(b.invoices, TaxIn(p)) - Sum(b.refunds, RefundTaxIn(p)), -DebitBalance(b, p, OUTPUT_TAX)),
      Check(Sum(b.invoices, SubtotalIn(p)), Credit(b.lines, p, SALES)),
      Check(Sum(b.refunds, RefundSubtotalIn(p)), Debit(b.lines, p, SALES_RETURNS)),
      Check(Sum(b.invoiceLines, CogsIn(b.invoices, p)) - Sum(b.refundLines, RestoredIn(b.refunds, p)),
            DebitBalance(b, p, COGS)))
  }

  ghost predicate Reconciled(b: Books) { forall p :: ReportOf(b, p).Passed() }

  datatype ReportResult = Ready(report: Report) | Refused(error: Error)

  /** get_reconciliation_report: an empty period id and an unreadable ledger are errors. */
  function ReportResultOf(b: Books, p: string): ReportResult {
    if p == "" then Refused(MissingField)
    else if !LedgerReadable(b.lines, p) then Refused(LedgerUnreadable)
    else Ready(ReportOf(b, p))
  }

  // ---------------------------------------------------------------- the service

  class ReconciliationService {
    const store: Store

    constructor (store: Store)
      ensures this.store == store
    {
      this.store := store;
    }

    method SumInvoices(p: string) returns (subtotal: int, tax: int)
      ensures subtotal == Sum(store.invoices, SubtotalIn(p)) && tax == Sum(store.invoices, TaxIn(p))
    {
      subtotal, tax := 0, 0;
      var xs := store.invoices;
      for i := 0 to |xs|
        invariant subtotal == Sum(xs[..i], SubtotalIn(p)) && tax == Sum(xs[..i], TaxIn(p))
      {
        assert xs[..i + 1][..i] == xs[..i];
        if xs[i].periodId == p {
          subtotal, tax := subtotal + xs[i].subtotal, tax + xs[i].tax;
        }
      }
      assert xs[..|xs|] == xs;
    }

    method SumRefunds(p: string) returns (subtotal: int, tax: int)
      ensures subtotal == Sum(store.refunds, RefundSubtotalIn(p)) && tax == Sum(store.refunds, RefundTaxIn(p))
    {
      subtotal, tax := 0, 0;
      var xs := store.refunds;
      for i := 0 to |xs|
        invariant subtotal == Sum(xs[..i], RefundSubtotalIn(p)) && tax == Sum(xs[..i], RefundTaxIn(p))
      {
        assert xs[..i + 1][..i] == xs[..i];
        if xs[i].periodId == p {
          subtotal, tax := subtotal + xs[i].subtotal, tax + xs[i].tax;
        }
      }
      assert xs[..|xs|] == xs;
    }

    method InvoiceCogs(p: string) returns (cogs: int)
      ensures cogs == Sum(store.invoiceLines, CogsIn(store.invoices, p))
    {
      var periods: map<string, string> := map[];
      var xs, ls := store.invoices, store.invoiceLines;
      for i := 0 to |xs|
        invariant forall id :: PeriodOfInvoice(xs[..i], id) == if id in periods then Some(periods[id]) else None
      {
        assert xs[..i + 1][..i] == xs[..i];
        periods := periods[xs[i].invoiceId := xs[i].periodId];
      }
      assert xs[..|xs|] == xs;
      cogs := 0;
      for i := 0 to |ls|
        invariant cogs == Sum(ls[..i], CogsIn(xs, p))
      {
        assert ls[..i + 1][..i] == ls[..i];
        if ls[i].invoiceId in periods && periods[ls[i].invoiceId] == p {
          cogs := cogs + ls[i].cogs;
        }
      }
      assert ls[..|ls|] == ls;
    }

    method RefundCogs(p: string) returns (cogs: int)
      ensures cogs == Sum(store.refundLines, RestoredIn(store.refunds, p))
    {
      var periods: map<string, string> := map[];
      var xs, ls := store.refunds, store.refundLines;
      for i := 0 to |xs|
        invariant forall id :: PeriodOfRefund(xs[..i], id) == if id in periods then Some(periods[id]) else None
      {
        assert xs[..i + 1][..i] == xs[..i];
        periods := periods[xs[i].refundId := xs[i].periodId];
      }
      assert xs[..|xs|] == xs;
      cogs := 0;
      for i := 0 to |ls|
        invariant cogs == Sum(ls[..i], RestoredIn(xs, p))
      {
        assert ls[..i + 1][..i] == ls[..i];
        if ls[i].refundId in periods && periods[ls[i].refundId] == p {
          cogs := cogs + ls[i].cogs;
        }
      }
      assert ls[..|ls|] == ls;
    }

    method PeriodValueDelta(p: string) returns (value: int)
      ensures value == PeriodValue(store.movements, p)
    {
      value := 0;
      var ms := store.movements;
      for i := 0 to |ms|
        invariant value == PeriodValue(ms[..i], p)
      {
        assert ms[..i + 1][..i] == ms[..i];
        if ms[i].periodId == p {
          value := value + ms[i].valueDelta;
        }
      }
      assert ms[..|ms|] == ms;
    }

    /** An account absent from the balances counts as zero. */
    static function DebitTotal(balances: map<Account, LedgerBalance>, a: Account): int {
      if a in balances then balances[a].debit else 0
    }

    static function CreditTotal(balances: map<Account, LedgerBalance>, a: Account): int {
      if a in balances then balances[a].credit else 0
    }

    static function Balance(balances: map<Account, LedgerBalance>, a: Account): int {
      if a in balances then NormalBalance(TypeOf(a), balances[a].debit, balances[a].credit) else 0
    }

    method GetReconciliationReport(p: string) returns (result: ReportResult)
      ensures result == ReportResultOf(store.View(), p)
    {
      hide Sum, Debit, Credit, LedgerReadable, Touched;
      if p == "" {
        return Refused(MissingField);
      }
      var accounting := new AccountingService(store);
      var found := accounting.GetLedgerBalances(p);
      if found.None? {
        return Refused(LedgerUnreadable);
      }
      var balances := found.value;
      ghost var b := store.View();
      BalancesAnswer(b.lines, p, balances, INVENTORY);
      BalancesAnswer(b.lines, p, balances, OUTPUT_TAX);
      BalancesAnswer(b.lines, p, balances, SALES);
      BalancesAnswer(b.lines, p, balances, SALES_RETURNS);
      BalancesAnswer(b.lines, p, balances, COGS);
      var value := PeriodValueDelta(p);
      var subtotal, tax := SumInvoices(p);
      var returned, taxBack := SumRefunds(p);
      var cogs := InvoiceCogs(p);
      var restored := RefundCogs(p);
      return Ready(Report(
        Check(value, Balance(balances, INVENTORY)),
        Check(tax - taxBack, Balance(balances, OUTPUT_TAX)),
        Check(subtotal, CreditTotal(balances, SALES)),
        Check(returned, DebitTotal(balances, SALES_RETURNS)),
        Check(cogs - restored, Balance(balances, COGS))));
    }
  }

  lemma BalancesAnswer(lines: seq<LedgerLine>, p: string, balances: map<Account, LedgerBalance>, a: Account)
    requires AreBalances(lines, p, balances)
    ensures ReconciliationService.DebitTotal(balances, a) == Debit(lines, p, a)
    ensures ReconciliationService.CreditTotal(balances, a) == Credit(lines, p, a)
    ensures ReconciliationService.Balance(balances, a) == NormalBalance(TypeOf(a), Debit(lines, p, a), Credit(lines, p, a))
  {
    hide Debit, Credit;
    if a !in balances {
      Untouched(lines, p, a);
    }
  }

  // ---------------------------------------------------------------- reports add up

  predicate KnownInvoice(b: Books, id: string) { PeriodOfInvoice(b.invoices, id).Some? }

  predicate KnownRefund(b: Books, id: string) { PeriodOfRefund(b.refunds, id).Some? }

  /** Every invoice line and refund line belongs to a stored invoice or refund. */
  predicate Linked(b: Books) {
    && (forall i :: 0 <= i < |b.invoiceLines| ==> KnownInvoice(b, b.invoiceLines[i].invoiceId))
    && (forall i :: 0 <= i < |b.refundLines| ==> KnownRefund(b, b.refundLines[i].refundId))
  }

  /** No id of the one is an id of the other. */
  predicate Apart(b: Books, d: Books) {
    && (forall i :: 0 <= i < |d.invoices| ==> !KnownInvoice(b, d.invoices[i].invoiceId))
    && (forall i :: 0 <= i < |d.refunds| ==> !KnownRefund(b, d.refunds[i].refundId))
  }

  lemma {:induction false} InvoicePeriodConcat(xs: seq<Invoice>, ys: seq<Invoice>, id: string)
    ensures PeriodOfInvoice(xs + ys, id) ==
            if PeriodOfInvoice(ys, id).Some? then PeriodOfInvoice(ys, id) else PeriodOfInvoice(xs, id)
  {
    if ys == [] {
      assert xs + ys == xs;
    } else {
      var n := |ys| - 1;
      assert (xs + ys)[..|xs + ys| - 1] == xs + ys[..n];
      InvoicePeriodConcat(xs, ys[..n], id);
    }
  }

  lemma {:induction false} RefundPeriodConcat(xs: seq<Refund>, ys: seq<Refund>, id: string)
    ensures PeriodOfRefund(xs + ys, id) ==
            if PeriodOfRefund(ys, id).Some? then PeriodOfRefund(ys, id) else PeriodOfRefund(xs, id)
  {
    if ys == [] {
      assert xs + ys == xs;
    } else {
      var n := |ys| - 1;
      assert (xs + ys)[..|xs + ys| - 1] == xs + ys[..n];
      RefundPeriodConcat(xs, ys[..n], id);
    }
  }

  lemma {:induction false} InvoiceKnown(xs: seq<Invoice>, id: string)
    ensures PeriodOfInvoice(xs, id).Some? <==> exists i :: 0 <= i < |xs| && xs[i].invoiceId == id
  {
    if xs != [] {
      var n := |xs| - 1;
      InvoiceKnown(xs[..n], id);
      if i :| 0 <= i < n && xs[i].invoiceId == id {
        assert xs[..n][i].invoiceId == id;
      }
    }
  }

  lemma {:induction false} RefundKnown(xs: seq<Refund>, id: string)
    ensures PeriodOfRefund(xs, id).Some? <==> exists i :: 0 <= i < |xs| && xs[i].refundId == id
  {
    if xs != [] {
      var n := |xs| - 1;
      RefundKnown(xs[..n], id);
      if i :| 0 <= i < n && xs[i].refundId == id {
        assert xs[..n][i].refundId == id;
      }
    }
  }

  /** The cost sums add: no old line turns to a new invoice, no new line to an old one. */
  lemma CogsAdd(b: Books, d: Books, p: string)
    requires Linked(b) && Linked(d) && Apart(b, d)
    ensures Sum((b.invoiceLines + d.invoiceLines), CogsIn(b.invoices + d.invoices, p)) ==
            Sum(b.invoiceLines, CogsIn(b.invoices, p)) + Sum(d.invoiceLines, CogsIn(d.invoices, p))
    ensures Sum((b.refundLines + d.refundLines), RestoredIn(b.refunds + d.refunds, p)) ==
            Sum(b.refundLines, RestoredIn(b.refunds, p)) + Sum(d.refundLines, RestoredIn(d.refunds, p))
  {
    hide PeriodOfInvoice, PeriodOfRefund, Sum;
    forall l | l in b.invoiceLines
      ensures CogsIn(b.invoices + d.invoices, p)(l) == CogsIn(b.invoices, p)(l)
    {
      InvoicePeriodConcat(b.invoices, d.invoices, l.invoiceId);
      InvoiceKnown(d.invoices, l.invoiceId);
    }
    forall l | l in d.invoiceLines
      ensures CogsIn(b.invoices + d.invoices, p)(l) == CogsIn(d.invoices, p)(l)
    {
      InvoicePeriodConcat(b.invoices, d.invoices, l.invoiceId);
    }
    forall l | l in b.refundLines
      ensures RestoredIn(b.refunds + d.refunds, p)(l) == RestoredIn(b.refunds, p)(l)
    {
      RefundPeriodConcat(b.refunds, d.refunds, l.refundId);
      RefundKnown(d.refunds, l.refundId);
    }
    forall l | l in d.refundLines
      ensures RestoredIn(b.refunds + d.refunds, p)(l) == RestoredIn(d.refunds, p)(l)
    {
      RefundPeriodConcat(b.refunds, d.refunds, l.refundId);
    }
    SumConcat(b.invoiceLines, d.invoiceLines, CogsIn(b.invoices + d.invoices, p));
    SumConcat(b.refundLines, d.refundLines, RestoredIn(b.refunds + d.refunds, p));
    SumSame(b.invoiceLines, CogsIn(b.invoices + d.invoices, p), CogsIn(b.invoices, p));
    SumSame(d.invoiceLines, CogsIn(b.invoices + d.invoices, p), CogsIn(d.invoices, p));
    SumSame(b.refundLines, RestoredIn(b.refunds + d.refunds, p), RestoredIn(b.refunds, p));
    SumSame(d.refundLines, RestoredIn(b.refunds + d.refunds, p), RestoredIn(d.refunds, p));
  }

  lemma BalanceAdds(b: Books, d: Books, p: string, a: Account)
    ensures Debit(b.lines + d.lines, p, a) == Debit(b.lines, p, a) + Debit(d.lines, p, a)
    ensures Credit(b.lines + d.lines, p, a) == Credit(b.lines, p, a) + Credit(d.lines, p, a)
  {
    SumConcat(b.lines, d.lines, DebitIn(p, a));
    SumConcat(b.lines, d.lines, CreditIn(p, a));
  }

  /** The report over old and new records is the sum of their reports. */
  lemma ReportsAdd(b: Books, d: Books, p: string)
    requires Linked(b) && Linked(d) && Apart(b, d)
    ensures ReportOf(Plus(b, d), p) == ReportOf(b, p).Plus(ReportOf(d, p))
  {
    hide Linked, Apart, Sum, Debit, Credit;
    CogsAdd(b, d, p);
    BalanceAdds(b, d, p, INVENTORY);
    BalanceAdds(b, d, p, OUTPUT_TAX);
    BalanceAdds(b, d, p, SALES);
    BalanceAdds(b, d, p, SALES_RETURNS);
    BalanceAdds(b, d, p, COGS);
    SumConcat(b.movements, d.movements, ValueIn(p));
    SumConcat(b.invoices, d.invoices, TaxIn(p));
    SumConcat(b.invoices, d.invoices, SubtotalIn(p));
    SumConcat(b.refunds, d.refunds, RefundTaxIn(p));
    SumConcat(b.refunds, d.refunds, RefundSubtotalIn(p));
  }

  lemma LinkedAdds(b: Books, d: Books)
    requires Linked(b) && Linked(d)
    ensures Linked(Plus(b, d))
  {
    hide PeriodOfInvoice, PeriodOfRefund;
    var r := Plus(b, d);
    forall i | 0 <= i < |r.invoiceLines|
      ensures KnownInvoice(r, r.invoiceLines[i].invoiceId)
    {
      InvoicePeriodConcat(b.invoices, d.invoices, r.invoiceLines[i].invoiceId);
    }
    forall i | 0 <= i < |r.refundLines|
      ensures KnownRefund(r, r.refundLines[i].refundId)
    {
      RefundPeriodConcat(b.refunds, d.refunds, r.refundLines[i].refundId);
    }
  }

  /** Reconciled books stay reconciled exactly when what is added is reconciled on its own. */
  lemma ReconciledAdds(b: Books, d: Books)
    requires Linked(b) && Linked(d) && Apart(b, d) && Reconciled(b)
    ensures Reconciled(Plus(b, d)) <==> Reconciled(d)
  {
    hide Linked, Apart, ReportOf;
    forall p
      ensures ReportOf(Plus(b, d), p).Passed() <==> ReportOf(d, p).Passed()
    {
      ReportsAdd(b, d, p);
      assert ReportOf(b, p).Passed();
    }
  }
}
