/** What a refusal means: the error a command is refused with is true of what it asks or of the files it finds. */
module Refusals {
  import opened Status
  import opened Books
  import opened Accounting
  import opened Inventory
  import opened Billing
  import opened Reconciliation
  import opened UseCases
  import opened RefundSafety
  import opened Runs
  import opened ManualRecovery
  import opened Admission
  import StockPrices

  // ---------------------------------------------------------------- journals

  predicate JournalBlame(b: Books, c: PostCommand, e: Error) {
    match e
    case MissingField =>
      || c.journalId == "" || c.periodId == "" || c.timestamp == "" || c.actorId == "" || c.sourceModule == ""
      || c.sourceDocumentId == ""
      || c.correlationId == "" || c.description == "" || exists i :: 0 <= i < |c.lines| && c.lines[i].currency == ""
    case PeriodClosed => c.periodId in b.periods
    case TooFewLines => |c.lines| < 2
    case SeveralCurrencies => exists i, j :: 0 <= i < j < |c.lines| && c.lines[i].currency != c.lines[j].currency
    case UnknownAccount =>
      exists i :: 0 <= i < |c.lines|
        && c.lines[i].account !in {1000, 1010, 1100, 1200, 1300, 2000, 2100, 3000, 4000, 4100, 5000, 5100}
    case NegativeAmount => exists i :: 0 <= i < |c.lines| && (c.lines[i].debit < 0 || c.lines[i].credit < 0)
    case NoAmount => exists i :: 0 <= i < |c.lines| && c.lines[i].debit == 0 == c.lines[i].credit
    case BothAmounts => exists i :: 0 <= i < |c.lines| && c.lines[i].debit > 0 && c.lines[i].credit > 0
    case Unbalanced => Sum(c.lines, (l: JournalLine) => l.debit) != Sum(c.lines, (l: JournalLine) => l.credit)
    case DuplicateJournal => exists i :: 0 <= i < |b.entries| && b.entries[i].journalId == c.journalId
    case _ => false
  }

  lemma {:induction false} FirstErrorIsLine(ls: seq<JournalLine>)
    requires FirstLineError(ls).Some?
    ensures exists i :: 0 <= i < |ls| && LineError(ls[i]) == FirstLineError(ls)
  {
    if LineError(ls[0]).None? {
      FirstErrorIsLine(ls[1..]);
      var i :| 0 <= i < |ls[1..]| && LineError(ls[1..][i]) == FirstLineError(ls);
      assert ls[i + 1] == ls[1..][i];
    }
  }

  lemma LineBlame(b: Books, c: PostCommand, i: nat)
    requires i < |c.lines| && LineError(c.lines[i]).Some?
    ensures JournalBlame(b, c, LineError(c.lines[i]).value)
  {
    OnChart(c.lines[i].account);
    hide Sum, Known;
  }

  lemma JournalRefusal(b: Books, c: PostCommand)
    ensures var e := RefuseJournal(b, ClosedPeriods(b), c); e.Some? ==> JournalBlame(b, c, e.value)
  {
    SumSame(c.lines, DebitOf(), (l: JournalLine) => l.debit);
    SumSame(c.lines, CreditOf(), (l: JournalLine) => l.credit);
    hide Sum, LineError, FirstLineError;
    if |c.lines| > 0 && !OneCurrency(c.lines) {
      var i :| 0 <= i < |c.lines| && c.lines[i].currency != c.lines[0].currency;
      assert 0 < i;
    }
    if FirstLineError(c.lines).Some? {
      FirstErrorIsLine(c.lines);
      var i :| 0 <= i < |c.lines| && LineError(c.lines[i]) == FirstLineError(c.lines);
      LineBlame(b, c, i);
    }
  }

  // ---------------------------------------------------------------- items and stock

  predicate Unregistered(items: seq<Item>, itemId: string) {
    forall i :: 0 <= i < |items| ==> items[i].itemId != itemId
  }

  /** The last registration of the item is not active. */
  predicate Deactivated(items: seq<Item>, itemId: string) {
    exists i :: 0 <= i < |items| && items[i].itemId == itemId && !items[i].active
      && forall j :: i < j < |items| ==> items[j].itemId != itemId
  }

  predicate ItemBlame(b: Books, item: Item, e: Error) {
    match e
    case MissingField => item.itemId == "" || item.sku == "" || item.name == ""
    case DuplicateItem => exists i ::
      0 <= i < |b.items| && (b.items[i].itemId == item.itemId || b.items[i].sku == item.sku)
    case _ => false
  }

  predicate StockBlame(b: Books, allowNegative: bool, c: StockCommand, e: Error) {
    match e
    case MissingField =>
      || c.movementId == "" || c.itemId == "" || c.timestamp == "" || c.actorId == "" || c.reason == ""
      || c.sourceModule == ""
      || c.sourceDocumentId == "" || c.correlationId == ""
    case ZeroQuantity => c.quantityDelta == 0
    case NegativeCost => c.unitCost < 0
    case WrongDirection => (c.movementType == StockIn && c.quantityDelta < 0)
      || (c.movementType == StockOut && c.quantityDelta > 0)
    case DuplicateMovement => exists i :: 0 <= i < |b.movements| && b.movements[i].movementId == c.movementId
    case UnknownItem => Unregistered(b.items, c.itemId)
    case InactiveItem => Deactivated(b.items, c.itemId)
    case NegativeStock => !allowNegative && StockOnHand(b.movements, c.itemId) + c.quantityDelta < 0
    case _ => false
  }

  lemma ItemChecked(items: seq<Item>, itemId: string)
    ensures CheckItem(items, itemId) == Some(UnknownItem) ==> Unregistered(items, itemId)
    ensures CheckItem(items, itemId) == Some(InactiveItem) ==> Deactivated(items, itemId)
    ensures CheckItem(items, itemId) in {None, Some(UnknownItem), Some(InactiveItem)}
  {
    FoundItem(items, itemId);
    hide FindItem;
  }

  lemma StockRefusal(b: Books, allowNegative: bool, c: StockCommand)
    ensures var e := RefuseMovement(b, allowNegative, c); e.Some? ==> StockBlame(b, allowNegative, c, e.value)
  {
    ItemChecked(b.items, c.itemId);
    hide StockOnHand, CheckItem, Unregistered, Deactivated;
  }

  lemma ItemRefusal(b: Books, item: Item)
    ensures var e := RefuseItem(b.items, item); e.Some? ==> ItemBlame(b, item, e.value)
  {
  }

  // ---------------------------------------------------------------- invoices

  predicate InvoiceBlame(b: Books, p: Policy, c: InvoiceCommand, e: Error) {
    match e
    case MissingField =>
      || c.invoiceId == "" || c.customerId == "" || c.periodId == "" || c.timestamp == "" || c.actorId == ""
      || c.correlationId == ""
      || c.paymentMethod == "" || c.currency == "" || exists i :: 0 <= i < |c.lines| && c.lines[i].itemId == ""
    case NoLines => c.lines == []
    case NegativeRate => p.taxRate < 0
    case BadQuantity => exists i :: 0 <= i < |c.lines| && c.lines[i].quantity <= 0
    case NegativePrice => exists i :: 0 <= i < |c.lines| && c.lines[i].unitPrice < 0
    case DuplicateInvoice => exists i :: 0 <= i < |b.invoices| && b.invoices[i].invoiceId == c.invoiceId
    case PeriodClosed => c.periodId in b.periods
    case UnknownItem => exists i :: 0 <= i < |c.lines| && Unregistered(b.items, c.lines[i].itemId)
    case InactiveItem => exists i :: 0 <= i < |c.lines| && Deactivated(b.items, c.lines[i].itemId)
    case InsufficientStock => exists i :: 0 <= i < |c.lines| && Short(b, c, c.lines[i].itemId)
    case _ => false
  }

  /** The lines together ask more of the item than there is. */
  predicate Short(b: Books, c: InvoiceCommand, itemId: string) {
    StockOnHand(b.movements, itemId) < Sum(c.lines, (l: InvoiceLineCommand) => if l.itemId
      == itemId then l.quantity else 0)
  }

  lemma {:induction false} FirstInvoiceErrorIsLine(ls: seq<InvoiceLineCommand>)
    requires FirstInvoiceLineError(ls).Some?
    ensures exists i :: 0 <= i < |ls| && InvoiceLineError(ls[i]) == FirstInvoiceLineError(ls)
  {
    if InvoiceLineError(ls[0]).None? {
      FirstInvoiceErrorIsLine(ls[1..]);
      var i :| 0 <= i < |ls[1..]| && InvoiceLineError(ls[1..][i]) == FirstInvoiceLineError(ls);
      assert ls[i + 1] == ls[1..][i];
    }
  }

  lemma {:induction false} FirstStockErrorIsItem(b: Books, lines: seq<InvoiceLineCommand>, order: seq<string>)
    requires FirstStockError(b, lines, order).Some?
    ensures exists id :: id in order && ItemStockError(b, id, Sum(lines, Needs(id))) == FirstStockError(b, lines, order)
  {
    hide ItemStockError, Sum;
    if ItemStockError(b, order[0], Sum(lines, Needs(order[0]))).None? {
      FirstStockErrorIsItem(b, lines, order[1..]);
    }
  }

  lemma StockErrorBlame(b: Books, p: Policy, c: InvoiceCommand, i: nat)
    requires i < |c.lines|
    ensures var id := c.lines[i].itemId;
      var e := ItemStockError(b, id, Sum(c.lines, Needs(id)));
      e.Some? ==> InvoiceBlame(b, p, c, e.value)
  {
    var id := c.lines[i].itemId;
    ItemChecked(b.items, id);
    SumSame(c.lines, Needs(id), (l: InvoiceLineCommand) => if l.itemId == id then l.quantity else 0);
    hide Sum, StockOnHand, CheckItem, Unregistered, Deactivated;
    if ItemStockError(b, id, Sum(c.lines, Needs(id))) == Some(InsufficientStock) && CheckItem(b.items, id).None? {
      assert Short(b, c, c.lines[i].itemId);
    }
  }

  lemma InvoiceInvalid(b: Books, p: Policy, c: InvoiceCommand)
    ensures var e := ValidateInvoice(p.taxRate, c); e.Some? ==> InvoiceBlame(b, p, c, e.value)
  {
    hide FirstInvoiceLineError, Short, Unregistered, Deactivated;
    if FirstInvoiceLineError(c.lines).Some? {
      FirstInvoiceErrorIsLine(c.lines);
    }
  }

  lemma InvoiceRefusal(b: Books, p: Policy, c: InvoiceCommand)
    ensures var e := RefuseInvoice(b, ClosedPeriods(b), p.taxRate, c); e.Some? ==> InvoiceBlame(b, p, c, e.value)
  {
    hide Sum, ItemStockError, FirstStockError, ItemsInOrder, ValidateInvoice, Short, Unregistered, Deactivated;
    InvoiceInvalid(b, p, c);
    var order := ItemsInOrder(c.lines);
    if FirstStockError(b, c.lines, order).Some? {
      FirstStockErrorIsItem(b, c.lines, order);
      var id :| id in order && ItemStockError(b, id, Sum(c.lines, Needs(id))) == FirstStockError(b, c.lines, order);
      ItemsOfLines(c.lines, id);
      var i :| 0 <= i < |c.lines| && c.lines[i].itemId == id;
      StockErrorBlame(b, p, c, i);
    }
  }

  // ---------------------------------------------------------------- refunds

  predicate RefundBlame(b: Books, p: Policy, c: RefundCommand, e: Error) {
    match e
    case MissingField =>
      || c.refundId == "" || c.originalInvoiceId == "" || c.periodId == "" || c.timestamp == "" || c.actorId == ""
      || c.correlationId == ""
      || c.currency == "" || c.reason == "" || exists i :: 0 <= i < |c.lines| && c.lines[i].itemId == ""
    case NoLines => c.lines == []
    case NegativeRate => p.taxRate < 0
    case BadQuantity => exists i :: 0 <= i < |c.lines| && c.lines[i].quantity <= 0
    case NegativePrice => exists i :: 0 <= i < |c.lines| && c.lines[i].unitPrice < 0
    case DuplicateRefund => exists i :: 0 <= i < |b.refunds| && b.refunds[i].refundId == c.refundId
    case UnknownInvoice => forall i :: 0 <= i < |b.invoices| ==> b.invoices[i].invoiceId != c.originalInvoiceId
    case PeriodClosed => c.periodId in b.periods
    case CurrencyMismatch => exists i ::
      0 <= i < |b.invoices| && b.invoices[i].invoiceId == c.originalInvoiceId && b.invoices[i].currency != c.currency
    case NoRefundableLines => forall i :: 0 <= i < |b.invoiceLines| ==>
      b.invoiceLines[i].invoiceId != c.originalInvoiceId
    case NotAvailable =>
      exists i :: 0 <= i < |c.lines| && Left(b, c, c.lines[i].itemId, c.lines[i].unitPrice) <= 0
    case ExceedsRemaining =>
      exists i :: 0 <= i < |c.lines| && 0 < Left(b, c, c.lines[i].itemId, c.lines[i].unitPrice)
        && !QuantityGiven(b, c, c.lines[i].itemId, c.lines[i].unitPrice)
    case _ => false
  }

  /** What was sold of an item at a price and not refunded. */
  function Left(b: Books, c: RefundCommand, itemId: string, unitPrice: int): int {
    Sum(b.invoiceLines, (l: InvoiceLine) =>
      if l.invoiceId == c.originalInvoiceId && l.itemId == itemId && l.unitPrice == unitPrice then l.quantity else 0)
    - Sum(b.refundLines, (l: RefundLine) =>
        if RefundsInvoice(b.refunds, l.refundId, c.originalInvoiceId) && l.itemId == itemId
          && l.unitPrice == unitPrice then l.quantity else 0)
  }

  lemma {:induction false} FirstRefundErrorIsLine(ls: seq<RefundLineCommand>)
    requires FirstRefundLineError(ls).Some?
    ensures exists i :: 0 <= i < |ls| && RefundLineError(ls[i]) == FirstRefundLineError(ls)
  {
    if RefundLineError(ls[0]).None? {
      FirstRefundErrorIsLine(ls[1..]);
      var i :| 0 <= i < |ls[1..]| && RefundLineError(ls[1..][i]) == FirstRefundLineError(ls);
      assert ls[i + 1] == ls[1..][i];
    }
  }

  lemma {:induction false} FirstKeyErrorIsKey(b: Books, c: RefundCommand, keys: seq<LineKey>)
    requires FirstKeyError(b, c, keys).Some?
    ensures exists k ::
      k in keys && KeyError(Remaining(b, c.originalInvoiceId, k), Requested(c, k)) == FirstKeyError(b, c, keys)
  {
    hide Remaining, Requested, KeyError;
    if KeyError(Remaining(b, c.originalInvoiceId, keys[0]), Requested(c, keys[0])).None? {
      FirstKeyErrorIsKey(b, c, keys[1..]);
    }
  }

  lemma KeyBlame(b: Books, p: Policy, c: RefundCommand, i: nat)
    requires i < |c.lines|
    ensures var k := LineKey(c.lines[i].itemId, c.lines[i].unitPrice);
      var e := KeyError(Remaining(b, c.originalInvoiceId, k), Requested(c, k));
      e.Some? ==> RefundBlame(b, p, c, e.value)
  {
    var itemId, unitPrice := c.lines[i].itemId, c.lines[i].unitPrice;
    QuantityLeft(b, c, itemId, unitPrice);
    SoldSums(b, c.originalInvoiceId, itemId, unitPrice);
    RefundedSums(b, c, itemId, unitPrice);
    hide Sum, Sold, Refunded, Requested, QuantityGiven;
  }

  lemma {:induction false} InvoiceFound(xs: seq<Invoice>, invoiceId: string)
    ensures FindInvoice(xs, invoiceId).Some? ==>
      exists i :: 0 <= i < |xs| && xs[i] == FindInvoice(xs, invoiceId).value && xs[i].invoiceId == invoiceId
    ensures FindInvoice(xs, invoiceId).None? ==> forall i :: 0 <= i < |xs| ==> xs[i].invoiceId != invoiceId
  {
    if xs != [] && xs[0].invoiceId != invoiceId {
      InvoiceFound(xs[1..], invoiceId);
      assert forall i :: 0 < i < |xs| ==> xs[i] == xs[1..][i - 1];
      if FindInvoice(xs, invoiceId).Some? {
        var i :| 0 <= i < |xs[1..]| && xs[1..][i] == FindInvoice(xs, invoiceId).value
          && xs[1..][i].invoiceId == invoiceId;
        assert xs[i + 1] == xs[1..][i];
      }
    }
  }

  lemma RefundInvalid(b: Books, p: Policy, c: RefundCommand)
    ensures var e := ValidateRefund(p.taxRate, c); e.Some? ==> RefundBlame(b, p, c, e.value)
  {
    hide Left, QuantityGiven, FirstRefundLineError;
    if FirstRefundLineError(c.lines).Some? {
      FirstRefundErrorIsLine(c.lines);
    }
  }

  lemma GuardRefusal(b: Books, p: Policy, c: RefundCommand)
    ensures var e := GuardError(b, c); e.Some? ==> RefundBlame(b, p, c, e.value)
  {
    hide FirstKeyError, KeysInOrder, Remaining, Requested, Left, QuantityGiven, KeyError;
    var keys := KeysInOrder(c.lines);
    if FirstKeyError(b, c, keys).Some? {
      FirstKeyErrorIsKey(b, c, keys);
      var k :| k in keys && KeyError(Remaining(b, c.originalInvoiceId, k), Requested(c, k)) == FirstKeyError(b, c,
        keys);
      KeyIsInOrder(c.lines, k);
      var i :| 0 <= i < |c.lines| && KeyOfRequest()(c.lines[i]) == k;
      KeyBlame(b, p, c, i);
    }
  }

  lemma RefundRefusal(b: Books, p: Policy, c: RefundCommand)
    ensures var e := RefuseRefund(b, ClosedPeriods(b), p.taxRate, c); e.Some? ==> RefundBlame(b, p, c, e.value)
  {
    hide FindInvoice, GuardError, ValidateRefund, Left, QuantityGiven;
    RefundInvalid(b, p, c);
    GuardRefusal(b, p, c);
    InvoiceFound(b.invoices, c.originalInvoiceId);
  }

  // ---------------------------------------------------------------- every command

  predicate MoveBlame(b: Books, p: Policy, c: StockCommand, e: Error) {
    match e
    case BadTimestamp => c.periodId == "" && |c.timestamp| < 7
    case PeriodClosed => StockPrices.PeriodGiven(c) in b.periods
    case _ => StockBlame(b, p.allowNegativeStock, c, e)
  }

  predicate CloseBlame(b: Books, p: string, e: Error) {
    match e
    case MissingField => p == ""
    case LedgerUnreadable => !Readable(b.lines, p)
    case ReconciliationFailed => !CloseStands(b, p) && Readable(b.lines, p)
    case Unbalanced =>
      p !in b.periods && Sum(b.entries, (x: JournalEntry) => if x.periodId == p then x.debitTotal else 0)
                         != Sum(b.entries, (x: JournalEntry) => if x.periodId == p then x.creditTotal else 0)
    case _ => false
  }

  predicate Blame(b: Books, p: Policy, cmd: Command, e: Error) {
    match cmd
    case Register(item) => ItemBlame(b, item, e)
    case Move(c) => MoveBlame(b, p, c, e)
    case Post(c) => JournalBlame(b, c, e)
    case Sell(c) => InvoiceBlame(b, p, c, e)
    case Return(c) => RefundBlame(b, p, c, e)
    case Close(periodId) => CloseBlame(b, periodId, e)
  }

  lemma MoveRefusal(b: Books, p: Policy, c: StockCommand)
    ensures var plan := PlanOf(b, p, Move(c)); plan.Refused() ==> MoveBlame(b, p, c, plan.error.value)
  {
    MovePeriod(c);
    StockRefusal(b, p.allowNegativeStock, c);
    MoveStepsExist(b, c);
    hide UsePeriod, StockPrices.PeriodGiven, RefuseMovement, StockOnHand, Unregistered, Deactivated, MovementOf,
      MovementSteps, JournalPlan, StockJournal, ApplyAll;
  }

  lemma MoveStepsExist(b: Books, c: StockCommand)
    ensures MovementSteps(b, c) != []
  {
    hide MovementOf;
  }

  lemma CloseRefusal(b: Books, p: Policy, periodId: string)
    ensures var plan := PlanOf(b, p, Close(periodId)); plan.Refused() ==> CloseBlame(b, periodId, plan.error.value)
  {
    hide Sum, LedgerReadable, Readable, EntryDebit, EntryCredit, CloseStands, ReportOf;
    CloseAdmitted(b, p, periodId);
    ReadableLedger(b.lines, periodId);
    EntrySums(b.entries, periodId);
  }

  /** The error of a command refused before it wrote anything is true. */
  lemma RefusedTruly(b: Books, p: Policy, cmd: Command)
    requires PlanOf(b, p, cmd).Refused()
    ensures Blame(b, p, cmd, PlanOf(b, p, cmd).error.value)
  {
    match cmd {
      case Register(item) => ItemRefusal(b, item);
      case Move(c) => MoveRefusal(b, p, c);
      case Post(c) => JournalRefusal(b, c);
      case Sell(c) => InvoiceRefusal(b, p, c);
      case Return(c) => RefundRefusal(b, p, c);
      case Close(periodId) => CloseRefusal(b, p, periodId);
    }
    hide StockPlan, CloseUsePlan, RefuseItem, RefuseJournal, RefuseInvoice, RefuseRefund, ItemBlame, MoveBlame,
      JournalBlame, InvoiceBlame, RefundBlame, CloseBlame, SaleMovements, RefundMovements, SaleJournal, RefundJournal,
      ApplyAll, ClosedPeriods;
  }

  // ---------------------------------------------------------------- manual recovery

  predicate DecisionBlame(b: Books, c: ReconcileCommand, e: ManualError) {
    match e
    case FieldMissing => c.actorId == "" || c.reason == ""
    case NotAuthorized => !c.authorized
    case PendingNotFound => !Uncommitted(b, c.tid)
    case AlreadyReconciled => exists i :: 0 <= i < |b.reconciliations| && b.reconciliations[i].tid == c.tid
    case _ => false
  }

  predicate AdjustmentBlame(b: Books, c: ResolveCommand, e: ManualError) {
    match e
    case FieldMissing => c.actorId == "" || c.reason == ""
    case NotAuthorized => !c.authorized
    case PendingNotFound => !Uncommitted(b, c.tid)
    case NoDecision => forall i :: 0 <= i < |b.reconciliations| ==>
      !(b.reconciliations[i].tid == c.tid && b.reconciliations[i].correction.None?)
    case NotWaiting =>
      exists i :: 0 <= i < |b.reconciliations| && b.reconciliations[i].tid == c.tid
        && b.reconciliations[i].decision != RequiresAccountingAdjustment
    case AlreadyResolved => exists i ::
      0 <= i < |b.reconciliations| && b.reconciliations[i].tid == c.tid && b.reconciliations[i].resolved
    case AlreadyAdjusted => exists i ::
      0 <= i < |b.reconciliations| && b.reconciliations[i].tid == c.tid && b.reconciliations[i].correction.Some?
    case WrongActor => c.journal.actorId != c.actorId
    case WrongSource => c.journal.sourceModule != "recovery" || c.journal.sourceDocumentId != TidName(c.tid)
    case JournalRefused(reason) => JournalBlame(b, c.journal, reason)
    case AlreadyReconciled => false
  }

  lemma ManualRefusal(b: Books, d: ReconcileCommand, c: ResolveCommand)
    ensures ReconcilePlan(b, d).error.Some? ==> DecisionBlame(b, d, ReconcilePlan(b, d).error.value)
    ensures ResolvePlan(b, c).error.Some? ==> AdjustmentBlame(b, c, ResolvePlan(b, c).error.value)
  {
    hide IsPending, Uncommitted, FirstDecision, RefuseJournal, JournalBlame, TidName, JournalBody, Transaction;
    PendingUncommitted(b, d.tid);
    PendingUncommitted(b, c.tid);
    FirstDecisionIs(b.reconciliations, c.tid);
    JournalRefusal(b, c.journal);
  }
}
