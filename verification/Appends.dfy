/** What every single append finds and adds, whatever command makes it and wherever that command is cut: each
    record is well formed, its id is new, and what it refers to is already there. */
module Appends {
  import opened Books

  // ---------------------------------------------------------------- records by themselves

  predicate GoodEntry(e: JournalEntry) {
    && e.journalId != "" && e.periodId != "" && e.sourceModule != "" && e.sourceDocumentId != "" && e.currency != ""
    && e.debitTotal == e.creditTotal
  }

  /** An account of the chart, and an amount on exactly one side. */
  predicate GoodLine(l: LedgerLine) {
    && l.account in {1000, 1010, 1100, 1200, 1300, 2000, 2100, 3000, 4000, 4100, 5000, 5100}
    && l.journalId != "" && l.periodId != "" && l.currency != "" && l.lineNo >= 1
    && ((l.debit > 0 && l.credit == 0) || (l.debit == 0 && l.credit > 0))
  }

  predicate GoodItem(x: Item) { x.itemId != "" && x.sku != "" && x.name != "" }

  predicate GoodMovement(m: Movement) {
    && m.movementId != "" && m.itemId != "" && m.sourceDocumentId != "" && m.quantityDelta != 0
    && m.valueDelta == m.quantityDelta * m.unitCost && (m.quantityDelta > 0 ==> m.unitCost >= 0)
  }

  /** The tax is the part of the subtotal the rate says, in ten-thousandths and rounded down. */
  predicate FloorTax(rate: int, subtotal: int, tax: int) { 10000 * tax <= subtotal * rate < 10000 * (tax + 1) }

  predicate GoodInvoice(rate: int, x: Invoice) {
    && x.invoiceId != "" && x.periodId != "" && x.currency != "" && x.subtotal > 0
    && FloorTax(rate, x.subtotal, x.tax) && x.total == x.subtotal + x.tax
  }

  predicate GoodRefund(rate: int, x: Refund) {
    && x.refundId != "" && x.originalInvoiceId != "" && x.periodId != "" && x.currency != "" && x.subtotal > 0
    && FloorTax(rate, x.subtotal, x.tax) && x.total == x.subtotal + x.tax && x.cogsRestored >= 0
  }

  predicate GoodInvoiceLine(l: InvoiceLine) {
    && l.lineNo >= 1 && l.itemId != "" && l.quantity > 0 && l.unitPrice >= 0 && l.subtotal == l.quantity * l.unitPrice
    && l.cogsUnitCost >= 0 && l.cogs == l.quantity * l.cogsUnitCost
  }

  predicate GoodRefundLine(l: RefundLine) {
    && l.lineNo >= 1 && l.itemId != "" && l.quantity > 0 && l.unitPrice >= 0 && l.subtotal == l.quantity * l.unitPrice
    && l.cogs == l.quantity * l.cogsUnitCost && (!l.restock ==> l.cogs == 0)
  }

  // ---------------------------------------------------------------- records among others

  function DebitOn(journalId: string, a: Account): LedgerLine -> int {
    (l: LedgerLine) => if l.journalId == journalId && l.account == a then l.debit else 0
  }

  function CreditOn(journalId: string, a: Account): LedgerLine -> int {
    (l: LedgerLine) => if l.journalId == journalId && l.account == a then l.credit else 0
  }

  /** Debits of the account in the journal, less credits. */
  function Posted(ls: seq<LedgerLine>, journalId: string, a: Account): int {
    Sum(ls, DebitOn(journalId, a)) - Sum(ls, CreditOn(journalId, a))
  }

  /** The lines of the journal are in the currency and the period. */
  predicate JournalIn(ls: seq<LedgerLine>, journalId: string, currency: string, periodId: string) {
    forall i :: 0 <= i < |ls| && ls[i].journalId == journalId ==>
      ls[i].currency == currency && ls[i].periodId == periodId
  }

  /** The journal of the invoice takes its total in cash (1000), owes its tax (2100) and earns its subtotal
      (4000); what goes to cost of goods sold (5000) leaves the inventory (1200). */
  ghost predicate InvoiceBooked(es: seq<JournalEntry>, ls: seq<LedgerLine>, x: Invoice) {
    && (exists i :: 0 <= i < |es| && es[i].journalId == x.journalId && es[i].sourceModule == "billing"
         && es[i].sourceDocumentId == x.invoiceId)
    && Posted(ls, x.journalId, 1000) == x.total && Posted(ls, x.journalId, 2100) == -x.tax
    && Posted(ls, x.journalId, 4000) == -x.subtotal && Posted(ls, x.journalId, 1200) == -Posted(ls, x.journalId, 5000)
    && JournalIn(ls, x.journalId, x.currency, x.periodId)
  }

  /** The journal of the refund pays its total in cash, takes back its tax, reverses its subtotal (4100) and
      returns its restored cost to the inventory. */
  ghost predicate RefundBooked(es: seq<JournalEntry>, ls: seq<LedgerLine>, x: Refund) {
    && (exists i :: 0 <= i < |es| && es[i].journalId == x.journalId && es[i].sourceModule == "billing"
         && es[i].sourceDocumentId == x.refundId)
    && Posted(ls, x.journalId, 1000) == -x.total && Posted(ls, x.journalId, 2100) == x.tax
    && Posted(ls, x.journalId, 4100) == x.subtotal
    && Posted(ls, x.journalId, 1200) == x.cogsRestored && Posted(ls, x.journalId, 5000) == -x.cogsRestored
    && JournalIn(ls, x.journalId, x.currency, x.periodId)
  }

  predicate DocumentOf(b: Books, journalId: string) {
    (exists i :: 0 <= i < |b.invoices| && b.invoices[i].journalId == journalId)
    || (exists i :: 0 <= i < |b.refunds| && b.refunds[i].journalId == journalId)
  }

  predicate KnownItem(items: seq<Item>, itemId: string) {
    exists i :: 0 <= i < |items| && items[i].itemId == itemId && items[i].active
  }

  /** The record may be appended to these files. */
  ghost predicate Fits(rate: int, b: Books, s: Step) {
    match s
    case EntryStep(e) => GoodEntry(e) && forall i :: 0 <= i < |b.entries| ==> b.entries[i].journalId != e.journalId
    case LineStep(l) =>
      && GoodLine(l) && b.entries != []
      && (var e := b.entries[|b.entries| - 1];
           e.journalId == l.journalId && e.periodId == l.periodId && e.currency == l.currency)
      && !DocumentOf(b, l.journalId)
    case ItemStep(x) =>
      GoodItem(x) && forall i :: 0 <= i < |b.items| ==> b.items[i].itemId != x.itemId && b.items[i].sku != x.sku
    case MovementStep(m) =>
      && GoodMovement(m) && KnownItem(b.items, m.itemId)
      && forall i :: 0 <= i < |b.movements| ==> b.movements[i].movementId != m.movementId
    case InvoiceStep(x) =>
      && GoodInvoice(rate, x) && InvoiceBooked(b.entries, b.lines, x)
      && forall i :: 0 <= i < |b.invoices| ==> b.invoices[i].invoiceId != x.invoiceId
    case InvoiceLineStep(l) =>
      && GoodInvoiceLine(l) && KnownItem(b.items, l.itemId) && b.invoices != []
      && (var x := b.invoices[|b.invoices| - 1]; x.invoiceId == l.invoiceId && x.currency == l.currency)
    case RefundStep(x) =>
      && GoodRefund(rate, x) && RefundBooked(b.entries, b.lines, x)
      && (forall i :: 0 <= i < |b.refunds| ==> b.refunds[i].refundId != x.refundId)
      && exists i ::
           0 <= i < |b.invoices| && b.invoices[i].invoiceId == x.originalInvoiceId
             && b.invoices[i].currency == x.currency
    case RefundLineStep(l) =>
      && GoodRefundLine(l) && b.refunds != []
      && (var x := b.refunds[|b.refunds| - 1]; x.refundId == l.refundId && x.currency == l.currency)
    case _ => true
  }

  ghost predicate AllFit(rate: int, b: Books, steps: seq<Step>) {
    forall i :: 0 <= i < |steps| ==> Fits(rate, ApplyAll(b, steps[..i]), steps[i])
  }

  lemma FitNothing(rate: int, b: Books)
    ensures AllFit(rate, b, [])
  {
  }

  lemma FitOne(rate: int, b: Books, s: Step)
    requires Fits(rate, b, s)
    ensures AllFit(rate, b, [s])
  {
    hide Fits;
    assert [s][..0] == [];
  }

  lemma FitConcat(rate: int, b: Books, xs: seq<Step>, ys: seq<Step>)
    requires AllFit(rate, b, xs) && AllFit(rate, ApplyAll(b, xs), ys)
    ensures AllFit(rate, b, xs + ys)
  {
    hide Fits, Apply;
    forall i | 0 <= i < |xs + ys|
      ensures Fits(rate, ApplyAll(b, (xs + ys)[..i]), (xs + ys)[i])
    {
      if i < |xs| {
        assert (xs + ys)[..i] == xs[..i];
      } else {
        assert (xs + ys)[..i] == xs + ys[..i - |xs|];
        ApplyConcat(b, xs, ys[..i - |xs|]);
      }
    }
  }

  lemma FitPrefix(rate: int, b: Books, steps: seq<Step>, n: nat)
    requires AllFit(rate, b, steps) && n <= |steps|
    ensures AllFit(rate, b, steps[..n])
  {
    hide Fits;
    forall i | 0 <= i < n
      ensures Fits(rate, ApplyAll(b, steps[..n][..i]), steps[..n][i])
    {
      assert steps[..n][..i] == steps[..i];
    }
  }

  /** Log, audit, event, period and reconciliation records fit everywhere. */
  predicate Trace(s: Step) {
    s.WalStep? || s.AuditStep? || s.EventStep? || s.PeriodStep? || s.ReconciliationStep?
  }

  lemma TraceFits(rate: int, b: Books, steps: seq<Step>)
    requires forall i :: 0 <= i < |steps| ==> Trace(steps[i])
    ensures AllFit(rate, b, steps)
  {
    forall i | 0 <= i < |steps|
      ensures Fits(rate, ApplyAll(b, steps[..i]), steps[i])
    {
      assert Trace(steps[i]);
    }
  }

  lemma TransactionFits(rate: int, b: Books, tid: Tid, op: Operation, body: seq<Step>, action: string, event: string)
    requires AllFit(rate, ApplyAll(b, [WalStep(Pending(tid, op))]), body)
    ensures AllFit(rate, b, Transaction(tid, op, body, action, event))
  {
    hide AllFit;
    var first, last := [WalStep(Pending(tid, op))], [AuditStep(action), EventStep(event), WalStep(Committed(tid))];
    TraceFits(rate, b, first);
    TraceFits(rate, ApplyAll(b, first + body), last);
    FitConcat(rate, b, first, body);
    FitConcat(rate, b, first + body, last);
  }

  // ---------------------------------------------------------------- what then holds of the files

  predicate EntriesKept(b: Books) {
    && (forall i :: 0 <= i < |b.entries| ==> GoodEntry(b.entries[i]))
    && (forall i, j :: 0 <= i < j < |b.entries| ==> b.entries[i].journalId != b.entries[j].journalId)
  }

  /** Every ledger line is in the currency and the period of the entry of its journal. */
  predicate LinesKept(b: Books) {
    forall i :: 0 <= i < |b.lines| ==> GoodLine(b.lines[i]) && EntryOfLine(b.entries, b.lines[i])
  }

  predicate EntryOfLine(es: seq<JournalEntry>, l: LedgerLine) {
    exists k :: 0 <= k < |es| && es[k].journalId == l.journalId && es[k].periodId == l.periodId
      && es[k].currency == l.currency
  }

  predicate StockKept(b: Books) {
    && (forall i :: 0 <= i < |b.items| ==> GoodItem(b.items[i]))
    && (forall i, j :: 0 <= i < j < |b.items| ==>
         b.items[i].itemId != b.items[j].itemId && b.items[i].sku != b.items[j].sku)
    && (forall i :: 0 <= i < |b.movements| ==>
         GoodMovement(b.movements[i]) && KnownItem(b.items, b.movements[i].itemId))
    && (forall i, j :: 0 <= i < j < |b.movements| ==> b.movements[i].movementId != b.movements[j].movementId)
  }

  ghost predicate InvoicesKept(rate: int, b: Books) {
    && (forall i :: 0 <= i < |b.invoices| ==>
         GoodInvoice(rate, b.invoices[i]) && InvoiceBooked(b.entries, b.lines, b.invoices[i]))
    && (forall i, j :: 0 <= i < j < |b.invoices| ==> b.invoices[i].invoiceId != b.invoices[j].invoiceId)
  }

  predicate InvoiceLinesKept(b: Books) {
    forall i :: 0 <= i < |b.invoiceLines| ==>
      GoodInvoiceLine(b.invoiceLines[i]) && KnownItem(b.items, b.invoiceLines[i].itemId)
        && InvoiceOfLine(b.invoices, b.invoiceLines[i])
  }

  predicate InvoiceOfLine(xs: seq<Invoice>, l: InvoiceLine) {
    exists k :: 0 <= k < |xs| && xs[k].invoiceId == l.invoiceId && xs[k].currency == l.currency
  }

  /** Every refund has the currency of the invoice it names. */
  ghost predicate RefundsKept(rate: int, b: Books) {
    && (forall i :: 0 <= i < |b.refunds| ==>
          GoodRefund(rate, b.refunds[i]) && RefundBooked(b.entries, b.lines, b.refunds[i])
            && InvoiceOfRefund(b.invoices, b.refunds[i]))
    && (forall i, j :: 0 <= i < j < |b.refunds| ==> b.refunds[i].refundId != b.refunds[j].refundId)
  }

  predicate InvoiceOfRefund(xs: seq<Invoice>, x: Refund) {
    exists k :: 0 <= k < |xs| && xs[k].invoiceId == x.originalInvoiceId && xs[k].currency == x.currency
  }

  predicate RefundLinesKept(b: Books) {
    forall i :: 0 <= i < |b.refundLines| ==>
      GoodRefundLine(b.refundLines[i]) && RefundOfLine(b.refunds, b.refundLines[i])
  }

  predicate RefundOfLine(xs: seq<Refund>, l: RefundLine) {
    exists k :: 0 <= k < |xs| && xs[k].refundId == l.refundId && xs[k].currency == l.currency
  }

  ghost predicate Kept(rate: int, b: Books) {
    && EntriesKept(b) && LinesKept(b) && StockKept(b) && InvoicesKept(rate, b) && InvoiceLinesKept(b)
    && RefundsKept(rate, b) && RefundLinesKept(b)
  }

  lemma NothingKept(rate: int)
    ensures Kept(rate, EMPTY)
  {
  }

  // ---------------------------------------------------------------- one append

  lemma PostedMore(ls: seq<LedgerLine>, l: LedgerLine, id: string, a: Account)
    requires l.journalId != id
    ensures Posted(ls + [l], id, a) == Posted(ls, id, a)
  {
    hide Sum;
    SumConcat(ls, [l], DebitOn(id, a));
    SumConcat(ls, [l], CreditOn(id, a));
    SumOne(l, DebitOn(id, a));
    SumOne(l, CreditOn(id, a));
  }

  lemma InvoiceStaysBooked(es: seq<JournalEntry>, ls: seq<LedgerLine>, e: seq<JournalEntry>, l: seq<LedgerLine>,
                           x: Invoice)
    requires InvoiceBooked(es, ls, x) && |l| <= 1 && forall i :: 0 <= i < |l| ==> l[i].journalId != x.journalId
    ensures InvoiceBooked(es + e, ls + l, x)
  {
    var k :| 0 <= k < |es| && es[k].journalId == x.journalId && es[k].sourceModule == "billing"
      && es[k].sourceDocumentId == x.invoiceId;
    assert (es + e)[k] == es[k];
    hide Posted;
    if l == [] {
      assert ls + l == ls;
    } else {
      assert l == [l[0]];
      PostedMore(ls, l[0], x.journalId, 1000);
      PostedMore(ls, l[0], x.journalId, 2100);
      PostedMore(ls, l[0], x.journalId, 4000);
      PostedMore(ls, l[0], x.journalId, 1200);
      PostedMore(ls, l[0], x.journalId, 5000);
    }
  }

  lemma RefundStaysBooked(es: seq<JournalEntry>, ls: seq<LedgerLine>, e: seq<JournalEntry>, l: seq<LedgerLine>,
                          x: Refund)
    requires RefundBooked(es, ls, x) && |l| <= 1 && forall i :: 0 <= i < |l| ==> l[i].journalId != x.journalId
    ensures RefundBooked(es + e, ls + l, x)
  {
    var k :| 0 <= k < |es| && es[k].journalId == x.journalId && es[k].sourceModule == "billing"
      && es[k].sourceDocumentId == x.refundId;
    assert (es + e)[k] == es[k];
    hide Posted;
    if l == [] {
      assert ls + l == ls;
    } else {
      assert l == [l[0]];
      PostedMore(ls, l[0], x.journalId, 1000);
      PostedMore(ls, l[0], x.journalId, 2100);
      PostedMore(ls, l[0], x.journalId, 4100);
      PostedMore(ls, l[0], x.journalId, 1200);
      PostedMore(ls, l[0], x.journalId, 5000);
    }
  }

  /** One more entry, or one more line of a journal that is no document's. */
  lemma DocumentsStayBooked(rate: int, b: Books, r: Books, e: seq<JournalEntry>, l: seq<LedgerLine>)
    requires InvoicesKept(rate, b) && RefundsKept(rate, b) && |l| <= 1
      && forall i :: 0 <= i < |l| ==> !DocumentOf(b, l[i].journalId)
    requires r.entries == b.entries + e && r.lines == b.lines + l && r.invoices == b.invoices && r.refunds == b.refunds
    ensures InvoicesKept(rate, r) && RefundsKept(rate, r)
  {
    hide InvoiceBooked, RefundBooked, GoodInvoice, GoodRefund, InvoiceOfRefund;
    forall i | 0 <= i < |b.invoices|
      ensures InvoiceBooked(r.entries, r.lines, b.invoices[i])
    {
      InvoiceStaysBooked(b.entries, b.lines, e, l, b.invoices[i]);
    }
    forall i | 0 <= i < |b.refunds|
      ensures RefundBooked(r.entries, r.lines, b.refunds[i])
    {
      RefundStaysBooked(b.entries, b.lines, e, l, b.refunds[i]);
    }
  }

  lemma EntryKeeps(rate: int, b: Books, e: JournalEntry)
    requires Kept(rate, b) && Fits(rate, b, EntryStep(e))
    ensures Kept(rate, Apply(b, EntryStep(e)))
  {
    hide StockKept, InvoicesKept, RefundsKept, InvoiceLinesKept, RefundLinesKept, GoodEntry, GoodLine, InvoiceBooked,
      RefundBooked;
    var r := Apply(b, EntryStep(e));
    assert r.lines == b.lines + [];
    DocumentsStayBooked(rate, b, r, [e], []);
    forall i | 0 <= i < |r.lines|
      ensures EntryOfLine(r.entries, r.lines[i])
    {
      var k :| 0 <= k < |b.entries| && b.entries[k].journalId == b.lines[i].journalId
        && b.entries[k].periodId == b.lines[i].periodId && b.entries[k].currency == b.lines[i].currency;
      assert r.entries[k] == b.entries[k];
    }
    OtherFiles(rate, b, r);
  }

  lemma LineKeeps(rate: int, b: Books, l: LedgerLine)
    requires Kept(rate, b) && Fits(rate, b, LineStep(l))
    ensures Kept(rate, Apply(b, LineStep(l)))
  {
    hide EntriesKept, StockKept, InvoicesKept, RefundsKept, InvoiceLinesKept, RefundLinesKept, GoodEntry, GoodLine,
      InvoiceBooked, RefundBooked, DocumentOf;
    var r := Apply(b, LineStep(l));
    assert r.entries == b.entries + [];
    DocumentsStayBooked(rate, b, r, [], [l]);
    assert EntryOfLine(r.entries, l);
    OtherFiles(rate, b, r);
  }

  /** The predicates look only at their own files. */
  lemma OtherFiles(rate: int, b: Books, r: Books)
    ensures r.entries == b.entries ==> EntriesKept(r) == EntriesKept(b)
    ensures r.items == b.items && r.movements == b.movements ==> StockKept(r) == StockKept(b)
    ensures r.lines == b.lines && r.entries == b.entries ==> LinesKept(r) == LinesKept(b)
    ensures r.items == b.items && r.invoices == b.invoices && r.invoiceLines == b.invoiceLines ==>
      InvoiceLinesKept(r) == InvoiceLinesKept(b)
    ensures r.refunds == b.refunds && r.refundLines == b.refundLines ==> RefundLinesKept(r) == RefundLinesKept(b)
    ensures r.entries == b.entries && r.lines == b.lines && r.invoices == b.invoices ==>
      InvoicesKept(rate, r) == InvoicesKept(rate, b)
    ensures r.entries == b.entries && r.lines == b.lines && r.invoices == b.invoices && r.refunds == b.refunds ==>
      RefundsKept(rate, r) == RefundsKept(rate, b)
  {
    hide GoodEntry, GoodLine, GoodItem, GoodMovement, GoodInvoice, GoodRefund, GoodInvoiceLine, GoodRefundLine,
      InvoiceBooked, RefundBooked, KnownItem, EntryOfLine, InvoiceOfLine, RefundOfLine, InvoiceOfRefund;
  }

  lemma KnownMore(items: seq<Item>, more: seq<Item>, id: string)
    requires KnownItem(items, id)
    ensures KnownItem(items + more, id)
  {
    var k :| 0 <= k < |items| && items[k].itemId == id && items[k].active;
    assert (items + more)[k] == items[k];
  }

  lemma ItemKeeps(rate: int, b: Books, x: Item)
    requires Kept(rate, b) && Fits(rate, b, ItemStep(x))
    ensures Kept(rate, Apply(b, ItemStep(x)))
  {
    hide EntriesKept, LinesKept, InvoicesKept, RefundsKept, RefundLinesKept, GoodItem, GoodMovement, GoodInvoiceLine,
      KnownItem, InvoiceOfLine;
    var r := Apply(b, ItemStep(x));
    forall i | 0 <= i < |b.movements|
      ensures KnownItem(r.items, b.movements[i].itemId)
    {
      KnownMore(b.items, [x], b.movements[i].itemId);
    }
    forall i | 0 <= i < |b.invoiceLines|
      ensures KnownItem(r.items, b.invoiceLines[i].itemId)
    {
      KnownMore(b.items, [x], b.invoiceLines[i].itemId);
    }
    OtherFiles(rate, b, r);
  }

  lemma MovementKeeps(rate: int, b: Books, m: Movement)
    requires Kept(rate, b) && Fits(rate, b, MovementStep(m))
    ensures Kept(rate, Apply(b, MovementStep(m)))
  {
    hide EntriesKept, LinesKept, InvoicesKept, InvoiceLinesKept, RefundsKept, RefundLinesKept, GoodItem, GoodMovement,
      KnownItem;
    OtherFiles(rate, b, Apply(b, MovementStep(m)));
  }

  lemma InvoiceKeeps(rate: int, b: Books, x: Invoice)
    requires Kept(rate, b) && Fits(rate, b, InvoiceStep(x))
    ensures Kept(rate, Apply(b, InvoiceStep(x)))
  {
    hide EntriesKept, LinesKept, StockKept, RefundLinesKept, GoodInvoice, GoodRefund, GoodInvoiceLine, KnownItem,
      InvoiceBooked, RefundBooked;
    var r := Apply(b, InvoiceStep(x));
    forall i | 0 <= i < |b.invoiceLines|
      ensures InvoiceOfLine(r.invoices, b.invoiceLines[i])
    {
      assert InvoiceOfLine(b.invoices, b.invoiceLines[i]);
      var k :| 0 <= k < |b.invoices| && b.invoices[k].invoiceId == b.invoiceLines[i].invoiceId
        && b.invoices[k].currency == b.invoiceLines[i].currency;
      assert r.invoices[k] == b.invoices[k];
    }
    forall i | 0 <= i < |b.refunds|
      ensures InvoiceOfRefund(r.invoices, b.refunds[i])
    {
      assert InvoiceOfRefund(b.invoices, b.refunds[i]);
      var k :| 0 <= k < |b.invoices| && b.invoices[k].invoiceId == b.refunds[i].originalInvoiceId
        && b.invoices[k].currency == b.refunds[i].currency;
      assert r.invoices[k] == b.invoices[k];
    }
    OtherFiles(rate, b, r);
  }

  lemma InvoiceLineKeeps(rate: int, b: Books, l: InvoiceLine)
    requires Kept(rate, b) && Fits(rate, b, InvoiceLineStep(l))
    ensures Kept(rate, Apply(b, InvoiceLineStep(l)))
  {
    hide EntriesKept, LinesKept, StockKept, InvoicesKept, RefundsKept, RefundLinesKept, GoodInvoiceLine, KnownItem;
    assert InvoiceOfLine(b.invoices, l);
    OtherFiles(rate, b, Apply(b, InvoiceLineStep(l)));
  }

  lemma RefundKeeps(rate: int, b: Books, x: Refund)
    requires Kept(rate, b) && Fits(rate, b, RefundStep(x))
    ensures Kept(rate, Apply(b, RefundStep(x)))
  {
    hide EntriesKept, LinesKept, StockKept, InvoicesKept, InvoiceLinesKept, GoodRefund, GoodRefundLine, RefundBooked;
    var r := Apply(b, RefundStep(x));
    forall i | 0 <= i < |b.refundLines|
      ensures RefundOfLine(r.refunds, b.refundLines[i])
    {
      var k :| 0 <= k < |b.refunds| && b.refunds[k].refundId == b.refundLines[i].refundId
        && b.refunds[k].currency == b.refundLines[i].currency;
      assert r.refunds[k] == b.refunds[k];
    }
    assert InvoiceOfRefund(b.invoices, x);
    OtherFiles(rate, b, r);
  }

  lemma RefundLineKeeps(rate: int, b: Books, l: RefundLine)
    requires Kept(rate, b) && Fits(rate, b, RefundLineStep(l))
    ensures Kept(rate, Apply(b, RefundLineStep(l)))
  {
    hide EntriesKept, LinesKept, StockKept, InvoicesKept, InvoiceLinesKept, RefundsKept, GoodRefundLine;
    assert RefundOfLine(b.refunds, l);
    OtherFiles(rate, b, Apply(b, RefundLineStep(l)));
  }

  /** A record that fits keeps the files as they should be. */
  lemma AppendKeeps(rate: int, b: Books, s: Step)
    requires Kept(rate, b) && Fits(rate, b, s)
    ensures Kept(rate, Apply(b, s))
  {
    match s {
      case EntryStep(e) => EntryKeeps(rate, b, e);
      case LineStep(l) => LineKeeps(rate, b, l);
      case ItemStep(x) => ItemKeeps(rate, b, x);
      case MovementStep(m) => MovementKeeps(rate, b, m);
      case InvoiceStep(x) => InvoiceKeeps(rate, b, x);
      case InvoiceLineStep(l) => InvoiceLineKeeps(rate, b, l);
      case RefundStep(x) => RefundKeeps(rate, b, x);
      case RefundLineStep(l) => RefundLineKeeps(rate, b, l);
      case _ =>
        hide EntriesKept, LinesKept, StockKept, InvoicesKept, InvoiceLinesKept, RefundsKept, RefundLinesKept;
        OtherFiles(rate, b, Apply(b, s));
    }
  }

  lemma {:induction false} AppendsKeep(rate: int, b: Books, steps: seq<Step>)
    requires Kept(rate, b) && AllFit(rate, b, steps)
    ensures Kept(rate, ApplyAll(b, steps))
    decreases |steps|
  {
    hide Kept, Fits, Apply;
    if steps != [] {
      var n := |steps| - 1;
      FitPrefix(rate, b, steps, n);
      AppendsKeep(rate, b, steps[..n]);
      AppendKeeps(rate, ApplyAll(b, steps[..n]), steps[n]);
    }
  }
}
