/** When a command is carried out: every condition on what it asks and on the files it finds, said at once, without
    the code's checks, their order, its tables and its constants. */
module Admission {
  import opened Status
  import opened Text
  import opened Books
  import opened Accounting
  import opened Inventory
  import opened Billing
  import opened Reconciliation
  import opened UseCases
  import opened RefundSafety
  import opened Runs
  import opened Outcomes
  import opened Recovery
  import opened ManualRecovery
  import RefundCompletion
  import StockPrices

  // ---------------------------------------------------------------- journals and periods

  /** An account of the chart, and an amount on exactly one side. */
  predicate LineStands(l: JournalLine) {
    && l.account in {1000, 1010, 1100, 1200, 1300, 2000, 2100, 3000, 4000, 4100, 5000, 5100} && l.currency != ""
    && ((l.debit > 0 && l.credit == 0) || (l.debit == 0 && l.credit > 0))
  }

  predicate JournalFree(b: Books, journalId: string) {
    forall i :: 0 <= i < |b.entries| ==> b.entries[i].journalId != journalId
  }

  predicate JournalStands(b: Books, c: PostCommand) {
    && c.journalId != "" && c.periodId != "" && c.timestamp != "" && c.actorId != "" && c.sourceModule != ""
    && c.sourceDocumentId != "" && c.correlationId != "" && c.description != ""
    && c.periodId !in b.periods && JournalFree(b, c.journalId) && |c.lines| >= 2
    && (forall i :: 0 <= i < |c.lines| ==> LineStands(c.lines[i]) && c.lines[i].currency == c.lines[0].currency)
    && Sum(c.lines, (l: JournalLine) => l.debit) == Sum(c.lines, (l: JournalLine) => l.credit)
  }

  lemma OnChart(a: Account)
    ensures Known(a) <==> a in {1000, 1010, 1100, 1200, 1300, 2000, 2100, 3000, 4000, 4100, 5000, 5100}
  {
    if Known(a) {
      var i :| 0 <= i < |CODES| && CODES[i] == a;
    }
    assert CODES[0] == 1000 && CODES[1] == 1010 && CODES[2] == 1100 && CODES[3] == 1200 && CODES[4] == 1300
      && CODES[5] == 2000;
    assert CODES[6] == 2100 && CODES[7] == 3000 && CODES[8] == 4000 && CODES[9] == 4100 && CODES[10] == 5000
      && CODES[11] == 5100;
  }

  lemma LineAdmitted(l: JournalLine)
    ensures LineError(l).None? <==> LineStands(l)
  {
    OnChart(l.account);
    hide Known;
  }

  lemma LinesAdmitted(ls: seq<JournalLine>)
    ensures (OneCurrency(ls) && FirstLineError(ls).None? && Sum(ls, DebitOf()) == Sum(ls, CreditOf())) <==>
      (forall i :: 0 <= i < |ls| ==> LineStands(ls[i]) && ls[i].currency == ls[0].currency)
      && Sum(ls, (l: JournalLine) => l.debit) == Sum(ls, (l: JournalLine) => l.credit)
  {
    SumSame(ls, DebitOf(), (l: JournalLine) => l.debit);
    SumSame(ls, CreditOf(), (l: JournalLine) => l.credit);
    hide Sum, LineStands, LineError;
    forall i | 0 <= i < |ls|
      ensures LineError(ls[i]).None? <==> LineStands(ls[i])
    {
      LineAdmitted(ls[i]);
    }
  }

  lemma JournalAdmitted(b: Books, c: PostCommand)
    ensures RefuseJournal(b, ClosedPeriods(b), c).None? <==> JournalStands(b, c)
  {
    LinesAdmitted(c.lines);
    hide OneCurrency, FirstLineError, Sum, LineStands;
  }

  // ---------------------------------------------------------------- items and stock

  predicate ItemStands(b: Books, item: Item) {
    && item.itemId != "" && item.sku != "" && item.name != ""
    && forall i :: 0 <= i < |b.items| ==> b.items[i].itemId != item.itemId && b.items[i].sku != item.sku
  }

  lemma ItemAdmitted(b: Books, item: Item)
    ensures RefuseItem(b.items, item).None? <==> ItemStands(b, item)
  {
  }

  /** Registered, and active in its last registration. */
  predicate ActiveItem(items: seq<Item>, itemId: string) {
    exists i :: 0 <= i < |items| && items[i].itemId == itemId && items[i].active
      && forall j :: i < j < |items| ==> items[j].itemId != itemId
  }

  lemma {:induction false} FoundItem(items: seq<Item>, itemId: string)
    ensures FindItem(items, itemId).Some? ==>
      exists i :: 0 <= i < |items| && items[i].itemId == itemId && FindItem(items, itemId) == Some(items[i])
        && forall j :: i < j < |items| ==> items[j].itemId != itemId
    ensures FindItem(items, itemId).None? ==> forall j :: 0 <= j < |items| ==> items[j].itemId != itemId
  {
    if items != [] && items[|items| - 1].itemId != itemId {
      var front := items[..|items| - 1];
      FoundItem(front, itemId);
      assert forall j :: 0 <= j < |front| ==> items[j] == front[j];
    }
  }

  lemma ItemActive(items: seq<Item>, itemId: string)
    ensures CheckItem(items, itemId).None? <==> ActiveItem(items, itemId)
  {
    FoundItem(items, itemId);
    hide FindItem;
  }

  predicate MovementFree(b: Books, movementId: string) {
    forall i :: 0 <= i < |b.movements| ==> b.movements[i].movementId != movementId
  }

  /** What the movement is worth needs a journal. */
  predicate MoveStands(b: Books, allowNegative: bool, c: StockCommand) {
    && c.movementId != "" && c.itemId != "" && c.timestamp != "" && c.actorId != "" && c.reason != ""
    && c.sourceModule != ""
    && c.sourceDocumentId != "" && c.correlationId != ""
    && c.quantityDelta != 0 && c.unitCost >= 0
    && (c.movementType == StockIn ==> c.quantityDelta > 0) && (c.movementType == StockOut ==> c.quantityDelta < 0)
    && (c.periodId != "" || |c.timestamp| >= 7) && StockPrices.PeriodGiven(c) !in b.periods
    && MovementFree(b, c.movementId) && ActiveItem(b.items, c.itemId)
    && (allowNegative || StockOnHand(b.movements, c.itemId) + c.quantityDelta >= 0)
    && (c.quantityDelta * StockPrices.Price(b.movements, c) == 0 || JournalFree(b, "jrn_inventory_" + c.movementId))
  }

  lemma MovePeriod(c: StockCommand)
    ensures UsePeriod(c).Some? <==> c.periodId != "" || |c.timestamp| >= 7
    ensures UsePeriod(c).Some? ==> UsePeriod(c).value == StockPrices.PeriodGiven(c)
  {
  }

  lemma MoveFields(c: StockCommand)
    ensures ValidateStock(c).None? <==>
      && c.movementId != "" && c.itemId != "" && c.timestamp != "" && c.actorId != "" && c.reason != ""
      && c.sourceModule != ""
      && c.sourceDocumentId != "" && c.correlationId != ""
      && c.quantityDelta != 0 && c.unitCost >= 0
      && (c.movementType == StockIn ==> c.quantityDelta > 0) && (c.movementType == StockOut ==> c.quantityDelta < 0)
  {
  }

  lemma MoveAdmitted(b: Books, p: Policy, c: StockCommand)
    ensures MoveAccepted(b, p, c) && MoveFits(b, c) <==> MoveStands(b, p.allowNegativeStock, c)
  {
    MovePeriod(c);
    MoveFields(c);
    ItemActive(b.items, c.itemId);
    if ValidateStock(c).None? {
      StockPrices.PricedMovement(b.movements, c);
    }
    hide ValidateStock, UsePeriod, CheckItem, ActiveItem, MovementOf, StockPrices.Price, StockPrices.PeriodGiven,
      StockOnHand;
  }

  // ---------------------------------------------------------------- closing a period

  /** Every account of the period is on the chart and has one currency. */
  predicate Readable(ls: seq<LedgerLine>, p: string) {
    forall i :: 0 <= i < |ls| && ls[i].periodId == p ==>
      && ls[i].account in {1000, 1010, 1100, 1200, 1300, 2000, 2100, 3000, 4000, 4100, 5000, 5100}
      && ls[i].currency != ""
      && forall j :: 0 <= j < i && ls[j].periodId == p && ls[j].account == ls[i].account ==>
           ls[j].currency == ls[i].currency
  }

  lemma ReadableLedger(ls: seq<LedgerLine>, p: string)
    ensures LedgerReadable(ls, p) <==> Readable(ls, p)
  {
    hide Known;
    forall i | 0 <= i < |ls|
      ensures Known(ls[i].account) <==>
        ls[i].account in {1000, 1010, 1100, 1200, 1300, 2000, 2100, 3000, 4000, 4100, 5000, 5100}
    {
      OnChart(ls[i].account);
    }
  }

  /** The report is made exactly for a period that is named and readable. */
  lemma ReportAdmitted(b: Books, p: string)
    ensures ReportResultOf(b, p).Ready? <==> p != "" && Readable(b.lines, p)
    ensures p == "" ==> ReportResultOf(b, p) == Refused(MissingField)
  {
    ReadableLedger(b.lines, p);
    hide LedgerReadable, Readable, ReportOf;
  }

  /** The five sums of the documents are on the accounts of the period, which balances unless it was closed before. */
  predicate CloseStands(b: Books, p: string) {
    && p != "" && Readable(b.lines, p)
    && Sum(b.movements, (m: Movement) => if m.periodId == p then m.valueDelta else 0)
         == Debit(b.lines, p, 1200) - Credit(b.lines, p, 1200)
    && Sum(b.invoices, (x: Invoice) => if x.periodId == p then x.tax else 0)
       - Sum(b.refunds, (x: Refund) => if x.periodId == p then x.tax else 0)
         == Credit(b.lines, p, 2100) - Debit(b.lines, p, 2100)
    && Sum(b.invoices, (x: Invoice) => if x.periodId == p then x.subtotal else 0) == Credit(b.lines, p, 4000)
    && Sum(b.refunds, (x: Refund) => if x.periodId == p then x.subtotal else 0) == Debit(b.lines, p, 4100)
    && Sum(b.invoiceLines, CogsIn(b.invoices, p)) - Sum(b.refundLines, RestoredIn(b.refunds, p))
       == Debit(b.lines, p, 5000) - Credit(b.lines, p, 5000)
    && (p in b.periods ||
        Sum(b.entries, (e: JournalEntry) => if e.periodId == p then e.debitTotal else 0)
        == Sum(b.entries, (e: JournalEntry) => if e.periodId == p then e.creditTotal else 0))
  }

  lemma MovementSum(b: Books, p: string)
    ensures PeriodValue(b.movements, p)
      == Sum(b.movements, (m: Movement) => if m.periodId == p then m.valueDelta else 0)
  {
    SumSame(b.movements, ValueIn(p), (m: Movement) => if m.periodId == p then m.valueDelta else 0);
  }

  lemma InvoiceSums(xs: seq<Invoice>, p: string)
    ensures Sum(xs, TaxIn(p)) == Sum(xs, (x: Invoice) => if x.periodId == p then x.tax else 0)
    ensures Sum(xs, SubtotalIn(p)) == Sum(xs, (x: Invoice) => if x.periodId == p then x.subtotal else 0)
  {
    SumSame(xs, TaxIn(p), (x: Invoice) => if x.periodId == p then x.tax else 0);
    SumSame(xs, SubtotalIn(p), (x: Invoice) => if x.periodId == p then x.subtotal else 0);
  }

  lemma RefundSums(xs: seq<Refund>, p: string)
    ensures Sum(xs, RefundTaxIn(p)) == Sum(xs, (x: Refund) => if x.periodId == p then x.tax else 0)
    ensures Sum(xs, RefundSubtotalIn(p)) == Sum(xs, (x: Refund) => if x.periodId == p then x.subtotal else 0)
  {
    SumSame(xs, RefundTaxIn(p), (x: Refund) => if x.periodId == p then x.tax else 0);
    SumSame(xs, RefundSubtotalIn(p), (x: Refund) => if x.periodId == p then x.subtotal else 0);
  }

  lemma EntrySums(xs: seq<JournalEntry>, p: string)
    ensures Sum(xs, EntryDebit(p)) == Sum(xs, (e: JournalEntry) => if e.periodId == p then e.debitTotal else 0)
    ensures Sum(xs, EntryCredit(p)) == Sum(xs, (e: JournalEntry) => if e.periodId == p then e.creditTotal else 0)
  {
    SumSame(xs, EntryDebit(p), (e: JournalEntry) => if e.periodId == p then e.debitTotal else 0);
    SumSame(xs, EntryCredit(p), (e: JournalEntry) => if e.periodId == p then e.creditTotal else 0);
  }

  lemma CloseAdmitted(b: Books, p: Policy, periodId: string)
    ensures Completes(b, p, Close(periodId)) <==> CloseStands(b, periodId)
  {
    hide Sum, LedgerReadable, Readable, CogsIn, RestoredIn, TaxIn, SubtotalIn, RefundTaxIn, RefundSubtotalIn,
      EntryDebit, EntryCredit, PeriodValue, Debit, Credit;
    ReadableLedger(b.lines, periodId);
    MovementSum(b, periodId);
    InvoiceSums(b.invoices, periodId);
    RefundSums(b.refunds, periodId);
    EntrySums(b.entries, periodId);
  }

  // ---------------------------------------------------------------- invoices

  predicate InvoiceGiven(p: Policy, c: InvoiceCommand) {
    && c.invoiceId != "" && c.customerId != "" && c.periodId != "" && c.timestamp != "" && c.actorId != ""
    && c.correlationId != "" && c.paymentMethod != "" && c.currency != "" && c.lines != [] && p.taxRate >= 0
    && (forall i :: 0 <= i < |c.lines| ==>
         c.lines[i].itemId != "" && c.lines[i].quantity > 0 && c.lines[i].unitPrice >= 0)
  }

  /** The item of the line is active and has the quantity all lines ask of it, at no negative value. */
  predicate LineStock(b: Books, c: InvoiceCommand, i: nat)
    requires i < |c.lines|
  {
    var itemId := c.lines[i].itemId;
    && ActiveItem(b.items, itemId) && InventoryValue(b.movements, itemId) >= 0
    && Sum(c.lines, (l: InvoiceLineCommand) => if l.itemId == itemId then l.quantity else 0)
         <= StockOnHand(b.movements, itemId)
  }

  predicate StockGiven(b: Books, c: InvoiceCommand) { forall i :: 0 <= i < |c.lines| ==> LineStock(b, c, i) }

  /** The ids of the movements of a document, from 1. */
  function Numbered(name: string, i: nat): string { name + "_" + Decimal(i + 1) }

  predicate SaleStands(b: Books, p: Policy, c: InvoiceCommand) {
    && InvoiceGiven(p, c) && StockGiven(b, c)
    && c.periodId !in b.periods && (forall i :: 0 <= i < |b.invoices| ==> b.invoices[i].invoiceId != c.invoiceId)
    && Sum(c.lines, (l: InvoiceLineCommand) => l.quantity * l.unitPrice) > 0
    && JournalFree(b, "jrn_" + c.invoiceId)
    && (forall i: nat :: i < |c.lines| ==> MovementFree(b, Numbered("mov_" + c.invoiceId, i)))
  }

  lemma InvoiceFields(p: Policy, c: InvoiceCommand)
    ensures ValidateInvoice(p.taxRate, c).None? <==> InvoiceGiven(p, c)
  {
    forall i | 0 <= i < |c.lines|
      ensures InvoiceLineError(c.lines[i]).None? <==>
        c.lines[i].itemId != "" && c.lines[i].quantity > 0 && c.lines[i].unitPrice >= 0
    {
    }
  }

  lemma {:induction false} ItemsOfLines(lines: seq<InvoiceLineCommand>, itemId: string)
    ensures itemId in ItemsInOrder(lines) <==> exists i :: 0 <= i < |lines| && lines[i].itemId == itemId
  {
    if lines != [] {
      var n := |lines| - 1;
      ItemsOfLines(lines[..n], itemId);
      assert forall i :: 0 <= i < n ==> lines[..n][i] == lines[i];
    }
  }

  lemma ItemStock(b: Books, c: InvoiceCommand, itemId: string)
    ensures ItemStockError(b, itemId, Sum(c.lines, Needs(itemId))).None? <==>
      ActiveItem(b.items, itemId)
      && Sum(c.lines, (l: InvoiceLineCommand) => if l.itemId == itemId then l.quantity else 0)
           <= StockOnHand(b.movements, itemId)
  {
    ItemActive(b.items, itemId);
    SumSame(c.lines, Needs(itemId), (l: InvoiceLineCommand) => if l.itemId == itemId then l.quantity else 0);
    hide Sum, CheckItem, ActiveItem, StockOnHand;
  }

  lemma StockErrors(b: Books, c: InvoiceCommand)
    ensures FirstStockError(b, c.lines, ItemsInOrder(c.lines)).None? <==>
      forall i :: 0 <= i < |c.lines| ==>
        ItemStockError(b, c.lines[i].itemId, Sum(c.lines, Needs(c.lines[i].itemId))).None?
  {
    hide Sum, ItemStockError, ItemsInOrder, FirstStockError;
    var order := ItemsInOrder(c.lines);
    forall id
      ensures id in order <==> exists i :: 0 <= i < |c.lines| && c.lines[i].itemId == id
    {
      ItemsOfLines(c.lines, id);
    }
    forall i | 0 <= i < |c.lines|
      ensures c.lines[i].itemId in order
    {
    }
    assert forall j :: 0 <= j < |order| ==> order[j] in order;
  }

  lemma PositiveNeed(lines: seq<InvoiceLineCommand>, i: nat)
    requires i < |lines| && forall k :: 0 <= k < |lines| ==> lines[k].quantity > 0
    ensures Sum(lines, Needs(lines[i].itemId)) > 0
  {
    hide Sum;
    var f := Needs(lines[i].itemId);
    assert f(lines[i]) > 0 && forall x :: x in lines ==> f(x) >= 0;
    SumAtLeast(lines, f, i);
  }

  lemma AverageSign(ms: seq<Movement>, itemId: string)
    requires StockOnHand(ms, itemId) > 0
    ensures AverageCost(ms, itemId) >= 0 <==> InventoryValue(ms, itemId) >= 0
  {
    hide StockOnHand, InventoryValue;
  }

  lemma StockAdmitted(b: Books, p: Policy, c: InvoiceCommand)
    requires InvoiceGiven(p, c)
    ensures StockGiven(b, c) <==>
      FirstStockError(b, c.lines, ItemsInOrder(c.lines)).None?
        && forall i :: 0 <= i < |c.lines| ==> AverageCost(b.movements, c.lines[i].itemId) >= 0
  {
    StockErrors(b, c);
    hide Sum, ItemStockError, ItemsInOrder, FirstStockError, AverageCost, StockOnHand, InventoryValue, ActiveItem;
    forall i | 0 <= i < |c.lines|
      ensures LineStock(b, c, i) <==>
        ItemStockError(b, c.lines[i].itemId, Sum(c.lines, Needs(c.lines[i].itemId))).None?
          && AverageCost(b.movements, c.lines[i].itemId) >= 0
    {
      ItemStock(b, c, c.lines[i].itemId);
      PositiveNeed(c.lines, i);
      SumSame(c.lines, Needs(c.lines[i].itemId), (l: InvoiceLineCommand) => if l.itemId
        == c.lines[i].itemId then l.quantity else 0);
      if StockOnHand(b.movements, c.lines[i].itemId) > 0 {
        AverageSign(b.movements, c.lines[i].itemId);
      }
    }
  }

  lemma SaleMovementsFree(b: Books, c: InvoiceCommand)
    ensures (forall i :: 0 <= i < |c.lines| ==> !HasMovement(b.movements, SaleMovementId(c.invoiceId, i))) <==>
      (forall i: nat :: i < |c.lines| ==> MovementFree(b, Numbered("mov_" + c.invoiceId, i)))
  {
    hide Decimal, HasMovement, MovementFree;
    forall i: nat | i < |c.lines|
      ensures !HasMovement(b.movements, SaleMovementId(c.invoiceId, i)) <==>
        MovementFree(b, Numbered("mov_" + c.invoiceId, i))
    {
      assert SaleMovementId(c.invoiceId, i) == Numbered("mov_" + c.invoiceId, i);
      IdFree(b, SaleMovementId(c.invoiceId, i));
    }
  }

  lemma IdFree(b: Books, id: string)
    ensures !HasMovement(b.movements, id) <==> MovementFree(b, id)
    ensures !HasJournal(b.entries, id) <==> JournalFree(b, id)
  {
  }

  lemma InvoiceAmount(c: InvoiceCommand)
    ensures Subtotal(c) == Sum(c.lines, (l: InvoiceLineCommand) => l.quantity * l.unitPrice)
  {
    SumSame(c.lines, LineAmount(), (l: InvoiceLineCommand) => l.quantity * l.unitPrice);
  }

  lemma SaleAdmitted(b: Books, p: Policy, c: InvoiceCommand)
    ensures Completes(b, p, Sell(c)) <==> SaleStands(b, p, c)
  {
    hide Sum, ValidateInvoice, InvoiceGiven, StockGiven, FirstStockError, ItemsInOrder, AverageCost, HasMovement,
      HasJournal, JournalFree, MovementFree, Numbered, SaleMovementId, Decimal, LineAmount, Subtotal;
    InvoiceFields(p, c);
    if InvoiceGiven(p, c) {
      StockAdmitted(b, p, c);
    }
    SaleMovementsFree(b, c);
    IdFree(b, SaleJournalId(c.invoiceId));
    InvoiceAmount(c);
  }

  // ---------------------------------------------------------------- refunds

  predicate RefundGiven(p: Policy, c: RefundCommand) {
    && c.refundId != "" && c.originalInvoiceId != "" && c.periodId != "" && c.timestamp != "" && c.actorId != ""
    && c.correlationId != "" && c.currency != "" && c.reason != "" && c.lines != [] && p.taxRate >= 0
    && (forall i :: 0 <= i < |c.lines| ==>
         c.lines[i].itemId != "" && c.lines[i].quantity > 0 && c.lines[i].unitPrice >= 0)
  }

  /** The first invoice of the id is in the currency. */
  predicate InvoiceMatches(xs: seq<Invoice>, invoiceId: string, currency: string) {
    exists k :: 0 <= k < |xs| && xs[k].invoiceId == invoiceId && xs[k].currency == currency
      && forall j :: 0 <= j < k ==> xs[j].invoiceId != invoiceId
  }

  predicate RefundsInvoice(xs: seq<Refund>, refundId: string, invoiceId: string) {
    exists k :: 0 <= k < |xs| && xs[k].refundId == refundId && xs[k].originalInvoiceId == invoiceId
  }

  /** What the lines of an item and a price ask, and what was refunded of them, is within what was sold. */
  predicate QuantityGiven(b: Books, c: RefundCommand, itemId: string, unitPrice: int) {
    Sum(c.lines, (l: RefundLineCommand) => if l.itemId == itemId && l.unitPrice == unitPrice then l.quantity else 0)
    + Sum(b.refundLines, (l: RefundLine) =>
        if RefundsInvoice(b.refunds, l.refundId, c.originalInvoiceId) && l.itemId == itemId
          && l.unitPrice == unitPrice then l.quantity else 0)
    <= Sum(b.invoiceLines, (l: InvoiceLine) =>
        if l.invoiceId == c.originalInvoiceId && l.itemId == itemId && l.unitPrice == unitPrice then l.quantity else 0)
  }

  /** What was sold of the item at the price had no negative cost. */
  predicate CostGiven(b: Books, invoiceId: string, itemId: string, unitPrice: int) {
    Sum(b.invoiceLines, (l: InvoiceLine) =>
      if l.invoiceId == invoiceId && l.itemId == itemId && l.unitPrice == unitPrice then l.quantity else 0) > 0 ==>
    Sum(b.invoiceLines, (l: InvoiceLine) =>
      if l.invoiceId == invoiceId && l.itemId == itemId && l.unitPrice == unitPrice then l.cogs else 0) >= 0
  }

  /** The item of the line is active and has no negative cost, and with the lines up to this one back the stock is
      not negative, unless that is allowed. */
  predicate RestockGiven(b: Books, allowNegative: bool, c: RefundCommand, i: nat)
    requires i < |c.lines|
  {
    var itemId, unitPrice := c.lines[i].itemId, c.lines[i].unitPrice;
    && ActiveItem(b.items, itemId) && MovementFree(b, Numbered("mov_refund_" + c.refundId, i))
    && CostGiven(b, c.originalInvoiceId, itemId, unitPrice)
    && (allowNegative ||
        StockOnHand(b.movements, itemId)
        + Sum(c.lines[..i + 1], (l: RefundLineCommand) => if l.restock && l.itemId == itemId then l.quantity else 0)
          >= 0)
  }

  predicate ReturnStands(b: Books, p: Policy, c: RefundCommand) {
    && RefundGiven(p, c) && c.periodId !in b.periods
    && (forall i :: 0 <= i < |b.refunds| ==> b.refunds[i].refundId != c.refundId)
    && InvoiceMatches(b.invoices, c.originalInvoiceId, c.currency)
    && (exists i :: 0 <= i < |b.invoiceLines| && b.invoiceLines[i].invoiceId == c.originalInvoiceId)
    && (forall i :: 0 <= i < |c.lines| ==> QuantityGiven(b, c, c.lines[i].itemId, c.lines[i].unitPrice))
    && Sum(c.lines, (l: RefundLineCommand) => l.quantity * l.unitPrice) > 0
    && JournalFree(b, "jrn_refund_" + c.refundId)
    && (forall i :: 0 <= i < |c.lines| && c.lines[i].restock ==> RestockGiven(b, p.allowNegativeStock, c, i))
  }

  lemma RefundFields(p: Policy, c: RefundCommand)
    ensures ValidateRefund(p.taxRate, c).None? <==> RefundGiven(p, c)
  {
    forall i | 0 <= i < |c.lines|
      ensures RefundLineError(c.lines[i]).None? <==>
        c.lines[i].itemId != "" && c.lines[i].quantity > 0 && c.lines[i].unitPrice >= 0
    {
    }
  }

  lemma {:induction false} FoundInvoice(xs: seq<Invoice>, invoiceId: string, currency: string)
    ensures InvoiceMatches(xs, invoiceId, currency) <==>
      FindInvoice(xs, invoiceId).Some? && FindInvoice(xs, invoiceId).value.currency == currency
  {
    if xs != [] && xs[0].invoiceId != invoiceId {
      FoundInvoice(xs[1..], invoiceId, currency);
      if InvoiceMatches(xs, invoiceId, currency) {
        var k :| 0 <= k < |xs| && xs[k].invoiceId == invoiceId && xs[k].currency == currency
          && forall j :: 0 <= j < k ==> xs[j].invoiceId != invoiceId;
        assert xs[1..][k - 1] == xs[k] && forall j :: 0 <= j < k - 1 ==> xs[1..][j] == xs[j + 1];
      }
      if InvoiceMatches(xs[1..], invoiceId, currency) {
        var k :| 0 <= k < |xs[1..]| && xs[1..][k].invoiceId == invoiceId && xs[1..][k].currency == currency
          && forall j :: 0 <= j < k ==> xs[1..][j].invoiceId != invoiceId;
        assert xs[k + 1] == xs[1..][k] && forall j :: 0 < j < k + 1 ==> xs[j] == xs[1..][j - 1];
      }
    }
  }

  lemma SoldSums(b: Books, invoiceId: string, itemId: string, unitPrice: int)
    ensures var k := LineKey(itemId, unitPrice);
      && Sold(b, invoiceId, k) == Sum(b.invoiceLines, (l: InvoiceLine) =>
           if l.invoiceId == invoiceId && l.itemId == itemId && l.unitPrice == unitPrice then l.quantity else 0)
      && SoldCost(b, invoiceId, k) == Sum(b.invoiceLines, (l: InvoiceLine) =>
           if l.invoiceId == invoiceId && l.itemId == itemId && l.unitPrice == unitPrice then l.cogs else 0)
  {
    var k := LineKey(itemId, unitPrice);
    SumSame(b.invoiceLines, SoldOf(invoiceId, k), (l: InvoiceLine) =>
      if l.invoiceId == invoiceId && l.itemId == itemId && l.unitPrice == unitPrice then l.quantity else 0);
    SumSame(b.invoiceLines, CostOf(invoiceId, k), (l: InvoiceLine) =>
      if l.invoiceId == invoiceId && l.itemId == itemId && l.unitPrice == unitPrice then l.cogs else 0);
  }

  lemma RefundedSums(b: Books, c: RefundCommand, itemId: string, unitPrice: int)
    ensures var k := LineKey(itemId, unitPrice);
      && Refunded(b, c.originalInvoiceId, k) == Sum(b.refundLines, (l: RefundLine) =>
           if RefundsInvoice(b.refunds, l.refundId, c.originalInvoiceId) && l.itemId == itemId
             && l.unitPrice == unitPrice then l.quantity else 0)
      && Requested(c, k) == Sum(c.lines, (l: RefundLineCommand) => if l.itemId == itemId
           && l.unitPrice == unitPrice then l.quantity else 0)
  {
    var k := LineKey(itemId, unitPrice);
    SumSame(b.refundLines, RefundedOf(RefundsOf(b.refunds, c.originalInvoiceId), k), (l: RefundLine) =>
      if RefundsInvoice(b.refunds, l.refundId, c.originalInvoiceId) && l.itemId == itemId
        && l.unitPrice == unitPrice then l.quantity else 0);
    SumSame(c.lines, Restrict(KeyOfRequest(), k, RequestQuantity()), (l: RefundLineCommand) =>
      if l.itemId == itemId && l.unitPrice == unitPrice then l.quantity else 0);
  }

  lemma GuardAdmitted(b: Books, c: RefundCommand)
    requires PositiveRequests(c)
    ensures GuardError(b, c).None? <==>
      (exists i :: 0 <= i < |b.invoiceLines| && b.invoiceLines[i].invoiceId == c.originalInvoiceId) &&
      forall i :: 0 <= i < |c.lines| ==> QuantityGiven(b, c, c.lines[i].itemId, c.lines[i].unitPrice)
  {
    GuardMeaning(b, c);
    hide Sum, GuardError, Sold, Refunded, QuantityGiven;
    forall i | 0 <= i < |c.lines|
      ensures Requested(c, KeyOfRequest()(c.lines[i])) > 0
      ensures QuantityGiven(b, c, c.lines[i].itemId, c.lines[i].unitPrice) <==>
        Requested(c, KeyOfRequest()(c.lines[i])) <= Remaining(b, c.originalInvoiceId, KeyOfRequest()(c.lines[i]))
    {
      RequestedPositive(c, KeyOfRequest()(c.lines[i]));
      QuantityLeft(b, c, c.lines[i].itemId, c.lines[i].unitPrice);
    }
    forall k | Requested(c, k) > 0
      ensures exists i :: 0 <= i < |c.lines| && KeyOfRequest()(c.lines[i]) == k
    {
      RequestedPositive(c, k);
    }
  }

  lemma QuantityLeft(b: Books, c: RefundCommand, itemId: string, unitPrice: int)
    ensures QuantityGiven(b, c, itemId, unitPrice) <==>
      Requested(c, LineKey(itemId, unitPrice)) <= Remaining(b, c.originalInvoiceId, LineKey(itemId, unitPrice))
  {
    SoldSums(b, c.originalInvoiceId, itemId, unitPrice);
    RefundedSums(b, c, itemId, unitPrice);
    hide Sum, Sold, SoldCost, Refunded, Requested;
  }

  lemma CostSign(b: Books, invoiceId: string, itemId: string, unitPrice: int)
    ensures CostGiven(b, invoiceId, itemId, unitPrice) <==> UnitCogs(b, invoiceId, LineKey(itemId, unitPrice)) >= 0
  {
    SoldSums(b, invoiceId, itemId, unitPrice);
    hide Sum, Sold, SoldCost;
  }

  lemma RestockAdmitted(b: Books, allowNegative: bool, c: RefundCommand, i: nat)
    requires i < |c.lines|
    ensures RefundCompletion.CanRestock(b, allowNegative, c, i) <==> RestockGiven(b, allowNegative, c, i)
  {
    var itemId := c.lines[i].itemId;
    SumSame(c.lines[..i + 1], RefundCompletion.RestockOf(itemId), (l: RefundLineCommand) => if l.restock
      && l.itemId == itemId then l.quantity else 0);
    CostSign(b, c.originalInvoiceId, itemId, c.lines[i].unitPrice);
    ItemActive(b.items, itemId);
    IdFree(b, RefundMovementId(c.refundId, i));
    assert RefundMovementId(c.refundId, i) == Numbered("mov_refund_" + c.refundId, i);
    hide Sum, CostGiven, UnitCogs, CheckItem, ActiveItem, HasMovement, MovementFree, RefundMovementId, Numbered,
      StockOnHand;
  }

  lemma RefundAmount(c: RefundCommand)
    ensures RefundSubtotal(c) == Sum(c.lines, (l: RefundLineCommand) => l.quantity * l.unitPrice)
  {
    SumSame(c.lines, RequestAmount(), (l: RefundLineCommand) => l.quantity * l.unitPrice);
  }

  lemma ReturnAdmitted(b: Books, p: Policy, c: RefundCommand)
    ensures Completes(b, p, Return(c)) <==> ReturnStands(b, p, c)
  {
    hide Sum, ValidateRefund, RefundGiven, GuardError, QuantityGiven, RefundCompletion.CanRestock, RestockGiven,
      HasJournal, JournalFree, RefundSubtotal, FindInvoice, InvoiceMatches;
    RefundFields(p, c);
    FoundInvoice(b.invoices, c.originalInvoiceId, c.currency);
    if RefundGiven(p, c) {
      PositiveGiven(p, c);
      GuardAdmitted(b, c);
    }
    forall i | 0 <= i < |c.lines|
      ensures RefundCompletion.CanRestock(b, p.allowNegativeStock, c, i) <==>
        RestockGiven(b, p.allowNegativeStock, c, i)
    {
      RestockAdmitted(b, p.allowNegativeStock, c, i);
    }
    IdFree(b, RefundJournalId(c.refundId));
    RefundAmount(c);
  }

  lemma PositiveGiven(p: Policy, c: RefundCommand)
    requires RefundGiven(p, c)
    ensures PositiveRequests(c)
  {
  }

  // ---------------------------------------------------------------- every command

  predicate Stands(b: Books, p: Policy, cmd: Command) {
    match cmd
    case Register(item) => ItemStands(b, item)
    case Move(c) => MoveStands(b, p.allowNegativeStock, c)
    case Post(c) => JournalStands(b, c)
    case Sell(c) => SaleStands(b, p, c)
    case Return(c) => ReturnStands(b, p, c)
    case Close(periodId) => CloseStands(b, periodId)
  }

  /** A command completes exactly when these conditions stand in the files it finds. */
  lemma Admitted(b: Books, p: Policy, cmd: Command)
    ensures PlanOf(b, p, cmd).Succeeds() <==> Stands(b, p, cmd)
  {
    CompletesExactly(b, p, cmd);
    match cmd {
      case Register(item) => ItemAdmitted(b, item);
      case Move(c) => MoveAdmitted(b, p, c);
      case Post(c) => JournalAdmitted(b, c);
      case Sell(c) => SaleAdmitted(b, p, c);
      case Return(c) => ReturnAdmitted(b, p, c);
      case Close(periodId) => CloseAdmitted(b, p, periodId);
    }
    hide PlanOf, RefuseItem, ItemStands, MoveAccepted, MoveFits, MoveStands, RefuseJournal, JournalStands,
      RefuseInvoice, SaleFits, SaleStands, RefuseRefund, ReturnFits, ReturnStands, CloseStands, ReportResultOf;
  }

  // ---------------------------------------------------------------- manual recovery

  /** Announced and not committed. */
  predicate Uncommitted(b: Books, tid: Tid) {
    Committed(tid) !in b.wal && exists i :: 0 <= i < |b.wal| && b.wal[i].Pending? && b.wal[i].tid == tid
  }

  predicate DecisionStands(b: Books, c: ReconcileCommand) {
    && c.actorId != "" && c.reason != "" && c.authorized && Uncommitted(b, c.tid)
    && forall i :: 0 <= i < |b.reconciliations| ==> b.reconciliations[i].tid != c.tid
  }

  /** The first record without a correction asks for one. */
  predicate AsksForCorrection(rs: seq<RecoveryRecord>, tid: Tid) {
    exists i :: 0 <= i < |rs| && rs[i].tid == tid && rs[i].correction.None?
      && rs[i].decision == RequiresAccountingAdjustment && !rs[i].resolved
      && forall j :: 0 <= j < i ==> !(rs[j].tid == tid && rs[j].correction.None?)
  }

  /** The correction is the actor's own, of recovery and of the transaction, and is a journal that stands. */
  predicate AdjustmentStands(b: Books, c: ResolveCommand) {
    && c.actorId != "" && c.reason != "" && c.authorized && Uncommitted(b, c.tid)
    && AsksForCorrection(b.reconciliations, c.tid)
    && (forall i :: 0 <= i < |b.reconciliations| && b.reconciliations[i].tid == c.tid ==>
         b.reconciliations[i].correction.None?)
    && c.journal.actorId == c.actorId && c.journal.sourceModule == "recovery"
    && c.journal.sourceDocumentId == TidName(c.tid)
    && JournalStands(b, c.journal)
  }

  lemma PendingUncommitted(b: Books, tid: Tid)
    ensures IsPending(b, tid) <==> Uncommitted(b, tid)
  {
    var pending := PendingOf(b.wal);
    forall r
      ensures r in pending <==> r in b.wal && r.Pending? && r.tid !in CommittedIds(b.wal)
    {
      PendingMembers(b.wal, CommittedIds(b.wal), r);
    }
    assert tid in CommittedIds(b.wal) <==> Committed(tid) in b.wal;
    hide PendingOf, PendingAmong, CommittedIds;
    if IsPending(b, tid) {
      var i :| 0 <= i < |pending| && pending[i].tid == tid;
      assert pending[i] in b.wal;
    }
  }

  lemma {:induction false} FirstAsks(rs: seq<RecoveryRecord>, tid: Tid)
    ensures var first := FirstDecision(rs, tid);
      AsksForCorrection(rs, tid) <==>
        first.Some? && first.value.decision == RequiresAccountingAdjustment && !first.value.resolved
  {
    if rs != [] && !(rs[0].tid == tid && rs[0].correction.None?) {
      var rest := rs[1..];
      FirstAsks(rest, tid);
      if AsksForCorrection(rs, tid) {
        var i :| 0 <= i < |rs| && rs[i].tid == tid && rs[i].correction.None?
          && rs[i].decision == RequiresAccountingAdjustment && !rs[i].resolved
          && forall j :: 0 <= j < i ==> !(rs[j].tid == tid && rs[j].correction.None?);
        assert rest[i - 1] == rs[i] && forall j :: 0 <= j < i - 1 ==> rest[j] == rs[j + 1];
      }
      if AsksForCorrection(rest, tid) {
        var i :| 0 <= i < |rest| && rest[i].tid == tid && rest[i].correction.None?
          && rest[i].decision == RequiresAccountingAdjustment && !rest[i].resolved
          && forall j :: 0 <= j < i ==> !(rest[j].tid == tid && rest[j].correction.None?);
        assert rs[i + 1] == rest[i] && forall j :: 0 < j < i + 1 ==> rs[j] == rest[j - 1];
      }
    }
  }

  /** A decision is recorded, and an adjustment made, exactly when these conditions stand. */
  lemma ManualAdmitted(b: Books, d: ReconcileCommand, c: ResolveCommand)
    ensures ReconcilePlan(b, d).error.None? <==> DecisionStands(b, d)
    ensures ResolvePlan(b, c).error.None? <==> AdjustmentStands(b, c)
  {
    hide IsPending, Uncommitted, AsksForCorrection, FirstDecision, RefuseJournal, JournalStands, TidName, JournalBody,
      Transaction;
    PendingUncommitted(b, d.tid);
    PendingUncommitted(b, c.tid);
    FirstAsks(b.reconciliations, c.tid);
    JournalAdmitted(b, c.journal);
  }
}
