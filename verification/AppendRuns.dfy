/** Every append of every command fits the files it finds, so whatever is cut where, what the files hold is kept. */
module AppendRuns {
  import opened Books
  import opened Accounting
  import opened Inventory
  import opened Billing
  import opened Valuation
  import opened Writes
  import opened UseCases
  import opened Reconciliation
  import opened Agreement
  import opened SaleAgreement
  import opened ReturnAgreement
  import opened Runs
  import opened Stops
  import opened RefundSafety
  import opened Recovery
  import opened ManualRecovery
  import opened RecoveryRuns
  import opened CutRefunds
  import opened Appends
  import Completion
  import RefundCompletion

  // ---------------------------------------------------------------- journals

  lemma ChartAccount(a: Account)
    requires Known(a)
    ensures a in {1000, 1010, 1100, 1200, 1300, 2000, 2100, 3000, 4000, 4100, 5000, 5100}
  {
    var i :| 0 <= i < |CODES| && CODES[i] == a;
  }

  lemma JournalFields(closed: set<string>, c: PostCommand)
    requires ValidatePost(closed, c).None?
    ensures c.journalId != "" && c.periodId != "" && c.timestamp != "" && c.actorId != "" && c.sourceModule != ""
    ensures c.sourceDocumentId != "" && c.correlationId != "" && c.description != "" && |c.lines| >= 2
      && OneCurrency(c.lines)
    ensures FirstLineError(c.lines).None? && Sum(c.lines, DebitOf()) == Sum(c.lines, CreditOf())
  {
    hide OneCurrency, FirstLineError, Sum;
    var fields := [c.journalId, c.periodId, c.timestamp, c.actorId, c.sourceModule, c.sourceDocumentId,
                   c.correlationId, c.description];
    assert fields[0] in fields && fields[1] in fields && fields[2] in fields && fields[3] in fields;
    assert fields[4] in fields && fields[5] in fields && fields[6] in fields && fields[7] in fields;
  }

  lemma JournalValid(b: Books, closed: set<string>, c: PostCommand)
    requires JournalPlan(b, closed, c).Succeeds()
    ensures ValidatePost(closed, c).None? && !HasJournal(b.entries, c.journalId)
  {
    hide ValidatePost, HasJournal, Transaction, JournalBody;
  }

  lemma GoodEntryOf(closed: set<string>, c: PostCommand)
    requires ValidatePost(closed, c).None?
    ensures |c.lines| >= 2 && GoodEntry(EntryOf(c)) && EntryOf(c).journalId == c.journalId
    ensures EntryOf(c).periodId == c.periodId && EntryOf(c).currency == c.lines[0].currency
  {
    JournalFields(closed, c);
    hide ValidatePost, OneCurrency, FirstLineError, Sum;
    assert LineError(c.lines[0]).None?;
  }

  lemma GoodLinesOf(closed: set<string>, c: PostCommand)
    requires ValidatePost(closed, c).None?
    ensures c.lines != []
    ensures forall i :: 0 <= i < |LedgerLines(c)| ==>
      var l := LedgerLines(c)[i];
      GoodLine(l) && l.journalId == c.journalId && l.periodId == c.periodId && l.currency == c.lines[0].currency
  {
    JournalFields(closed, c);
    hide ValidatePost, FirstLineError, Sum, Known;
    forall i | 0 <= i < |c.lines|
      ensures GoodLine(LedgerLines(c)[i])
    {
      assert LineError(c.lines[i]).None?;
      ChartAccount(c.lines[i].account);
    }
  }

  lemma LinesPrefix(b: Books, ls: seq<LedgerLine>, n: nat)
    requires n <= |ls|
    ensures ApplyAll(b, LineSteps(ls)[..n]) == b.(lines := b.lines + ls[..n])
  {
    assert LineSteps(ls)[..n] == LineSteps(ls[..n]);
    LinesWritten(ls[..n]);
    hide Written, LineSteps;
    WritesAdd(b, LineSteps(ls[..n]));
  }

  lemma LinesFit(rate: int, b: Books, closed: set<string>, c: PostCommand)
    requires ValidatePost(closed, c).None? && c.lines != [] && !DocumentOf(b, c.journalId)
    requires b.entries != [] && b.entries[|b.entries| - 1] == EntryOf(c)
    ensures AllFit(rate, b, LineSteps(LedgerLines(c)))
  {
    GoodLinesOf(closed, c);
    GoodEntryOf(closed, c);
    hide ValidatePost, GoodLine, GoodEntry, EntryOf, LedgerLines, ApplyAll;
    var ls := LedgerLines(c);
    forall i | 0 <= i < |LineSteps(ls)|
      ensures Fits(rate, ApplyAll(b, LineSteps(ls)[..i]), LineSteps(ls)[i])
    {
      LinesPrefix(b, ls, i);
    }
  }

  lemma JournalBodyFits(rate: int, b: Books, closed: set<string>, c: PostCommand)
    requires ValidatePost(closed, c).None? && c.lines != [] && !HasJournal(b.entries, c.journalId)
      && !DocumentOf(b, c.journalId)
    ensures AllFit(rate, b, JournalBody(c))
  {
    GoodEntryOf(closed, c);
    hide ValidatePost, AllFit, GoodEntry, EntryOf, LedgerLines, LineSteps;
    var e := EntryOf(c);
    FitOne(rate, b, EntryStep(e));
    ApplyOne(b, EntryStep(e));
    LinesFit(rate, Apply(b, EntryStep(e)), closed, c);
    FitConcat(rate, b, [EntryStep(e)], LineSteps(LedgerLines(c)));
  }

  /** The journal of every document has its entry. */
  lemma DocumentPosted(rate: int, b: Books, id: string)
    requires InvoicesKept(rate, b) && RefundsKept(rate, b)
    ensures DocumentOf(b, id) ==> HasJournal(b.entries, id)
  {
    hide Posted, GoodInvoice, GoodRefund, JournalIn, InvoiceOfRefund;
    if i :| 0 <= i < |b.invoices| && b.invoices[i].journalId == id {
      assert InvoiceBooked(b.entries, b.lines, b.invoices[i]);
    }
    if i :| 0 <= i < |b.refunds| && b.refunds[i].journalId == id {
      assert RefundBooked(b.entries, b.lines, b.refunds[i]);
    }
  }

  /** The documents and the ledger are those of a kept store. */
  ghost predicate DocumentsOf(rate: int, b: Books) { LinesKept(b) && InvoicesKept(rate, b) && RefundsKept(rate, b) }

  lemma JournalFits(rate: int, b: Books, closed: set<string>, c: PostCommand)
    requires DocumentsOf(rate, b)
    ensures AllFit(rate, b, JournalPlan(b, closed, c).steps)
  {
    FitNothing(rate, b);
    if JournalPlan(b, closed, c).Succeeds() {
      PostedSteps(b, closed, c);
      JournalValid(b, closed, c);
      DocumentPosted(rate, b, c.journalId);
      hide JournalPlan, ValidatePost, AllFit, Transaction, JournalBody, DocumentsOf, HasJournal;
      PendingOnly(b, PostJournalOp(c.journalId));
      var b1 := ApplyAll(b, [WalStep(Pending(b.uuids, PostJournalOp(c.journalId)))]);
      SameDocumentsOf(b, b1, c.journalId);
      JournalBodyFits(rate, b1, closed, c);
      TransactionFits(rate, b, b.uuids, PostJournalOp(c.journalId), JournalBody(c), "accounting.journal_posted",
                      "accounting.journal_posted.v1");
    } else {
      RefusedPosting(b, closed, c);
    }
  }

  lemma PostedSteps(b: Books, closed: set<string>, c: PostCommand)
    requires JournalPlan(b, closed, c).Succeeds()
    ensures c.lines != []
    ensures JournalPlan(b, closed, c).steps == Transaction(b.uuids, PostJournalOp(c.journalId), JournalBody(c),
                                                           "accounting.journal_posted", "accounting.journal_posted.v1")
  {
    JournalValid(b, closed, c);
    JournalFields(closed, c);
    hide ValidatePost, Transaction, JournalBody, HasJournal;
  }

  lemma SameDocumentsOf(b: Books, r: Books, id: string)
    requires Domain(r) == Domain(b)
    ensures r.entries == b.entries && DocumentOf(r, id) == DocumentOf(b, id)
  {
    SameFiles(b);
    SameFiles(r);
  }

  // ---------------------------------------------------------------- items, movements, periods

  lemma RegisterFits(rate: int, b: Books, item: Item)
    ensures AllFit(rate, b, RegisterPlan(b, item).steps)
  {
    FitNothing(rate, b);
    if RegisterPlan(b, item).Succeeds() {
      NewItem(b.items, item);
      hide AllFit, Transaction, RefuseItem, ApplyAll;
      PendingOnly(b, RegisterItemOp(item.itemId));
      var b1 := ApplyAll(b, [WalStep(Pending(b.uuids, RegisterItemOp(item.itemId)))]);
      SameFiles(b);
      SameFiles(b1);
      FitOne(rate, b1, ItemStep(item));
      TransactionFits(rate, b, b.uuids, RegisterItemOp(item.itemId), [ItemStep(item)], "inventory.item_registered",
                      "inventory.item_registered.v1");
    }
  }

  lemma NewItem(items: seq<Item>, item: Item)
    requires RefuseItem(items, item).None?
    ensures GoodItem(item)
      && forall i :: 0 <= i < |items| ==> items[i].itemId != item.itemId && items[i].sku != item.sku
  {
    var fields := [item.itemId, item.sku, item.name];
    assert fields[0] in fields && fields[1] in fields && fields[2] in fields;
  }

  lemma {:induction false} ActiveIsKnown(items: seq<Item>, itemId: string)
    requires CheckItem(items, itemId).None?
    ensures KnownItem(items, itemId)
  {
    var n := |items| - 1;
    if items[n].itemId != itemId {
      ActiveIsKnown(items[..n], itemId);
      var k :| 0 <= k < n && items[..n][k].itemId == itemId && items[..n][k].active;
      assert items[k].itemId == itemId;
    }
  }

  lemma StockFields(c: StockCommand)
    requires ValidateStock(c).None?
    ensures c.movementId != "" && c.itemId != "" && c.timestamp != "" && c.actorId != "" && c.reason != ""
    ensures c.sourceModule != "" && c.sourceDocumentId != "" && c.correlationId != "" && c.quantityDelta != 0
      && c.unitCost >= 0
    ensures (c.movementType == StockIn ==> c.quantityDelta > 0) && (c.movementType == StockOut ==> c.quantityDelta < 0)
  {
    var fields := [c.movementId, c.itemId, c.timestamp, c.actorId, c.reason, c.sourceModule, c.sourceDocumentId,
                   c.correlationId];
    assert fields[0] in fields && fields[1] in fields && fields[2] in fields && fields[3] in fields;
    assert fields[4] in fields && fields[5] in fields && fields[6] in fields && fields[7] in fields;
  }

  lemma MovementStored(b: Books, allowNegative: bool, c: StockCommand)
    requires MovementPlan(b, allowNegative, c).Succeeds()
    ensures ValidateStock(c).None? && !HasMovement(b.movements, c.movementId) && CheckItem(b.items, c.itemId).None?
    ensures MovementPlan(b, allowNegative, c).steps == MovementSteps(b, c)
  {
    hide ValidateStock, HasMovement, CheckItem, MovementSteps, StockOnHand;
  }

  lemma GoodMovementOf(ms: seq<Movement>, c: StockCommand)
    requires ValidateStock(c).None?
    ensures var m := MovementOf(ms, c); GoodMovement(m) && m.movementId == c.movementId && m.itemId == c.itemId
  {
    StockFields(c);
    hide ValidateStock, StockOnHand, InventoryValue, MovementPeriod;
  }

  lemma MovementFits(rate: int, b: Books, allowNegative: bool, c: StockCommand)
    ensures AllFit(rate, b, MovementPlan(b, allowNegative, c).steps)
  {
    FitNothing(rate, b);
    if MovementPlan(b, allowNegative, c).Succeeds() {
      MovementStored(b, allowNegative, c);
      GoodMovementOf(b.movements, c);
      ActiveIsKnown(b.items, c.itemId);
      hide AllFit, Transaction, RefuseMovement, ApplyAll, MovementOf, ValidateStock, CheckItem, KnownItem,
        GoodMovement;
      var op, m := CommitMovementOp(c.movementId), MovementOf(b.movements, c);
      PendingOnly(b, op);
      var b1 := ApplyAll(b, [WalStep(Pending(b.uuids, op))]);
      SameFiles(b);
      SameFiles(b1);
      FitOne(rate, b1, MovementStep(m));
      TransactionFits(rate, b, b.uuids, op, [MovementStep(m)], "inventory.stock_moved", "inventory.stock_moved.v1");
    } else {
      hide RefuseMovement;
    }
  }

  lemma {:induction false} SaleMovementsFit(rate: int, b: Books, allowNegative: bool, c: InvoiceCommand, i: nat)
    requires i <= |c.lines|
    ensures AllFit(rate, b, SaleMovements(b, allowNegative, c, i).steps)
    decreases |c.lines| - i
  {
    hide MovementPlan, SaleMovement, AllFit, ApplyAll;
    FitNothing(rate, b);
    if i < |c.lines| {
      var first := MovementPlan(b, allowNegative, SaleMovement(b.movements, c, i));
      MovementFits(rate, b, allowNegative, SaleMovement(b.movements, c, i));
      if first.error.None? {
        var b1 := ApplyAll(b, first.steps);
        SaleMovementsFit(rate, b1, allowNegative, c, i + 1);
        FitConcat(rate, b, first.steps, SaleMovements(b1, allowNegative, c, i + 1).steps);
      }
    }
  }

  lemma {:induction false} RefundMovementsFit(rate: int, b: Books, start: Books, allowNegative: bool, c: RefundCommand,
                                              i: nat)
    requires i <= |c.lines| && PositiveRequests(c)
    ensures AllFit(rate, b, RefundMovements(b, start, allowNegative, c, i).steps)
    decreases |c.lines| - i
  {
    hide MovementPlan, RefundMovement, AllFit, ApplyAll;
    FitNothing(rate, b);
    if i < |c.lines| && !c.lines[i].restock {
      RefundMovementsFit(rate, b, start, allowNegative, c, i + 1);
    } else if i < |c.lines| {
      var first := MovementPlan(b, allowNegative, RefundMovement(start, c, i));
      MovementFits(rate, b, allowNegative, RefundMovement(start, c, i));
      if first.error.None? {
        var b1 := ApplyAll(b, first.steps);
        RefundMovementsFit(rate, b1, start, allowNegative, c, i + 1);
        FitConcat(rate, b, first.steps, RefundMovements(b1, start, allowNegative, c, i + 1).steps);
      }
    }
  }

  lemma CloseFits(rate: int, b: Books, periodId: string)
    ensures AllFit(rate, b, CloseUsePlan(b, ClosedPeriods(b), periodId).steps)
  {
    hide ReportOf, LedgerReadable, Sum, ClosedPeriods;
    TraceFits(rate, b, CloseUsePlan(b, ClosedPeriods(b), periodId).steps);
  }

  /** Steps that write neither entries, lines nor documents leave what journals need. */
  lemma SameLedger(rate: int, b: Books, r: Books)
    requires DocumentsOf(rate, b)
    requires r.entries == b.entries && r.lines == b.lines && r.invoices == b.invoices && r.refunds == b.refunds
    ensures DocumentsOf(rate, r)
  {
    hide LinesKept, InvoicesKept, RefundsKept;
    OtherFiles(rate, b, r);
  }

  lemma AfterMovement(rate: int, b: Books, allowNegative: bool, c: StockCommand)
    requires DocumentsOf(rate, b)
    ensures DocumentsOf(rate, ApplyAll(b, MovementPlan(b, allowNegative, c).steps))
  {
    hide DocumentsOf, MovementPlan, Written, ApplyAll;
    var steps := MovementPlan(b, allowNegative, c).steps;
    MovementQuiet(b, allowNegative, c);
    WritesAdd(b, steps);
    SameLedger(rate, b, ApplyAll(b, steps));
  }

  lemma MoveFits(rate: int, b: Books, closed: set<string>, allowNegative: bool, c: StockCommand)
    requires DocumentsOf(rate, b)
    ensures AllFit(rate, b, StockPlan(b, closed, allowNegative, c).steps)
  {
    hide MovementPlan, MovementOf, JournalPlan, AllFit, StockJournal, ApplyAll, DocumentsOf;
    FitNothing(rate, b);
    MovementFits(rate, b, allowNegative, c);
    if UsePeriod(c).Some? && UsePeriod(c).value !in closed {
      var moved := MovementPlan(b, allowNegative, c);
      var b1 := ApplyAll(b, moved.steps);
      var journal := StockJournal(c, UsePeriod(c).value, MovementOf(b.movements, c).valueDelta);
      AfterMovement(rate, b, allowNegative, c);
      JournalFits(rate, b1, closed, journal);
      FitConcat(rate, b, moved.steps, JournalPlan(b1, closed, journal).steps);
    }
  }

  // ---------------------------------------------------------------- what a journal posts

  lemma PostedConcat(xs: seq<LedgerLine>, ys: seq<LedgerLine>, id: string, a: Account)
    ensures Posted(xs + ys, id, a) == Posted(xs, id, a) + Posted(ys, id, a)
  {
    hide Sum;
    SumConcat(xs, ys, DebitOn(id, a));
    SumConcat(xs, ys, CreditOn(id, a));
  }

  lemma NonePosted(ls: seq<LedgerLine>, id: string, a: Account)
    requires forall l :: l in ls ==> l.journalId != id
    ensures Posted(ls, id, a) == 0
  {
    hide Sum;
    SumZero(ls, DebitOn(id, a));
    SumZero(ls, CreditOn(id, a));
  }

  lemma PostedBy(c: PostCommand, a: Account)
    ensures Posted(LedgerLines(c), c.journalId, a) == Debited(c.lines, a) - Credited(c.lines, a)
  {
    hide Sum;
    SumPointwise(LedgerLines(c), DebitOn(c.journalId, a), c.lines, DebitTo(a));
    SumPointwise(LedgerLines(c), CreditOn(c.journalId, a), c.lines, CreditTo(a));
  }

  /** A journal under a new id posts its own lines and nothing else. */
  lemma NewJournalPosts(b: Books, c: PostCommand, a: Account)
    requires LinesKept(b) && !HasJournal(b.entries, c.journalId)
    ensures Posted(b.lines + LedgerLines(c), c.journalId, a) == Debited(c.lines, a) - Credited(c.lines, a)
  {
    NoLineYet(b, c.journalId);
    hide LinesKept, Posted, LedgerLines, Debited, Credited;
    PostedConcat(b.lines, LedgerLines(c), c.journalId, a);
    NonePosted(b.lines, c.journalId, a);
    PostedBy(c, a);
  }

  lemma NoLineYet(b: Books, id: string)
    requires LinesKept(b) && !HasJournal(b.entries, id)
    ensures forall l :: l in b.lines ==> l.journalId != id
  {
    hide GoodLine;
    forall l | l in b.lines
      ensures l.journalId != id
    {
      var i :| 0 <= i < |b.lines| && b.lines[i] == l;
      assert EntryOfLine(b.entries, b.lines[i]);
    }
  }

  lemma NewJournalIn(b: Books, c: PostCommand, currency: string)
    requires LinesKept(b) && !HasJournal(b.entries, c.journalId)
      && forall i :: 0 <= i < |c.lines| ==> c.lines[i].currency == currency
    ensures JournalIn(b.lines + LedgerLines(c), c.journalId, currency, c.periodId)
  {
    NoLineYet(b, c.journalId);
    hide LinesKept, HasJournal;
    assert forall i :: 0 <= i < |b.lines| ==> b.lines[i] in b.lines;
  }

  lemma SaleCash(currency: string, subtotal: int, tax: int, cogs: int)
    ensures var ls := SaleLines(currency, subtotal, tax, cogs);
      Debited(ls, 1000) == subtotal + tax && Credited(ls, 1000) == 0
    ensures forall l :: l in SaleLines(currency, subtotal, tax, cogs) ==> l.currency == currency
  {
    hide Sum;
    var x, y := JournalLine(CASH, subtotal + tax, 0, currency), JournalLine(SALES, 0, subtotal, currency);
    var t := JournalLine(OUTPUT_TAX, 0, tax, currency);
    var g, h := JournalLine(COGS, cogs, 0, currency), JournalLine(INVENTORY, 0, cogs, currency);
    FiveLines(x, y, t, g, h, tax != 0, cogs != 0, DebitTo(1000));
    FiveLines(x, y, t, g, h, tax != 0, cogs != 0, CreditTo(1000));
  }

  lemma ReturnCash(currency: string, subtotal: int, tax: int, cogs: int)
    ensures var ls := RefundJournalLines(currency, subtotal, tax, cogs);
      Debited(ls, 1000) == 0 && Credited(ls, 1000) == subtotal + tax
    ensures Credited(RefundJournalLines(currency, subtotal, tax, cogs), 4100) == 0
    ensures forall l :: l in RefundJournalLines(currency, subtotal, tax, cogs) ==> l.currency == currency
  {
    hide Sum;
    var x, y := JournalLine(SALES_RETURNS, subtotal, 0, currency), JournalLine(CASH, 0, subtotal + tax, currency);
    var t := JournalLine(OUTPUT_TAX, tax, 0, currency);
    var g, h := JournalLine(INVENTORY, cogs, 0, currency), JournalLine(COGS, 0, cogs, currency);
    FiveLines(x, y, t, g, h, tax != 0, cogs != 0, DebitTo(1000));
    FiveLines(x, y, t, g, h, tax != 0, cogs != 0, CreditTo(1000));
    FiveLines(x, y, t, g, h, tax != 0, cogs != 0, CreditTo(4100));
  }

  lemma SaleEarns(currency: string, subtotal: int, tax: int, cogs: int)
    ensures Debited(SaleLines(currency, subtotal, tax, cogs), 4000) == 0
  {
    hide Sum;
    FiveLines(JournalLine(CASH, subtotal + tax, 0, currency), JournalLine(SALES, 0, subtotal, currency),
              JournalLine(OUTPUT_TAX, 0, tax, currency), JournalLine(COGS, cogs, 0, currency),
              JournalLine(INVENTORY, 0, cogs, currency), tax != 0, cogs != 0, DebitTo(4000));
  }

  lemma FloorIsTax(subtotal: int, rate: int)
    ensures FloorTax(rate, subtotal, Tax(subtotal, rate))
  {
    FloorBounds(subtotal * rate, 10000);
  }

  // ---------------------------------------------------------------- invoices

  lemma SaleFields(rate: int, ms: seq<Movement>, c: InvoiceCommand)
    ensures var j := SaleJournal(rate, ms, c);
      && j.journalId == SaleJournalId(c.invoiceId) && j.periodId == c.periodId && j.sourceModule == "billing"
      && j.sourceDocumentId == c.invoiceId
      && j.lines == SaleLines(c.currency, Subtotal(c), Tax(Subtotal(c), rate), CogsOf(ms, c))
    ensures var x := InvoiceOf(rate, c);
      && x.invoiceId == c.invoiceId && x.periodId == c.periodId && x.currency == c.currency
      && x.journalId == SaleJournalId(c.invoiceId)
      && x.subtotal == Subtotal(c) && x.tax == Tax(Subtotal(c), rate) && x.total == x.subtotal + x.tax
  {
    hide Sum, LineCosts, SaleLines, SaleMovementIds, Tax;
  }

  lemma SaleBooked(rate: int, b: Books, c: InvoiceCommand, es: seq<JournalEntry>, ls: seq<LedgerLine>)
    requires LinesKept(b) && !HasJournal(b.entries, SaleJournalId(c.invoiceId))
    requires var j := SaleJournal(rate, b.movements, c);
      j.lines != [] && es == b.entries + [EntryOf(j)] && ls == b.lines + LedgerLines(j)
    ensures InvoiceBooked(es, ls, InvoiceOf(rate, c))
  {
    var j, x := SaleJournal(rate, b.movements, c), InvoiceOf(rate, c);
    SaleFields(rate, b.movements, c);
    var subtotal, tax, cogs := Subtotal(c), Tax(Subtotal(c), rate), CogsOf(b.movements, c);
    SaleLineTotals(c.currency, subtotal, tax, cogs);
    SaleCash(c.currency, subtotal, tax, cogs);
    SaleEarns(c.currency, subtotal, tax, cogs);
    assert es[|b.entries|].journalId == j.journalId && es[|b.entries|].sourceModule == "billing"
      && es[|b.entries|].sourceDocumentId == c.invoiceId by {
      hide Sum, SaleJournal;
    }
    assert OUTPUT_TAX == 2100 && SALES == 4000 && COGS == 5000 && INVENTORY == 1200;
    hide Sum, LedgerLines, SaleLines, SaleJournal, InvoiceOf, LinesKept, HasJournal, Posted, Tax, Subtotal, CogsOf,
      EntryOf, Debited, Credited;
    NewJournalPosts(b, j, 1000);
    NewJournalPosts(b, j, 2100);
    NewJournalPosts(b, j, 4000);
    NewJournalPosts(b, j, 1200);
    NewJournalPosts(b, j, 5000);
    NewJournalIn(b, j, c.currency);
  }

  lemma ReturnFields(rate: int, b: Books, c: RefundCommand)
    ensures var j := RefundJournal(rate, b, c);
      && j.journalId == RefundJournalId(c.refundId) && j.periodId == c.periodId && j.sourceModule == "billing"
      && j.sourceDocumentId == c.refundId
      && j.lines == RefundJournalLines(c.currency, RefundSubtotal(c), Tax(RefundSubtotal(c), rate), RestoredOf(b, c))
    ensures var x := RefundOf(rate, b, c);
      && x.refundId == c.refundId && x.originalInvoiceId == c.originalInvoiceId && x.periodId == c.periodId
      && x.currency == c.currency && x.journalId == RefundJournalId(c.refundId) && x.subtotal == RefundSubtotal(c)
      && x.tax == Tax(RefundSubtotal(c), rate) && x.total == x.subtotal + x.tax && x.cogsRestored == RestoredOf(b, c)
  {
    hide Sum, RestoredCosts, RefundJournalLines, RefundMovementIds, Tax;
  }

  lemma ReturnBooked(rate: int, b: Books, c: RefundCommand, es: seq<JournalEntry>, ls: seq<LedgerLine>)
    requires LinesKept(b) && !HasJournal(b.entries, RefundJournalId(c.refundId))
    requires var j := RefundJournal(rate, b, c);
      j.lines != [] && es == b.entries + [EntryOf(j)] && ls == b.lines + LedgerLines(j)
    ensures RefundBooked(es, ls, RefundOf(rate, b, c))
  {
    var j, x := RefundJournal(rate, b, c), RefundOf(rate, b, c);
    ReturnFields(rate, b, c);
    var subtotal, tax, cogs := RefundSubtotal(c), Tax(RefundSubtotal(c), rate), RestoredOf(b, c);
    RefundLineTotals(c.currency, subtotal, tax, cogs);
    ReturnCash(c.currency, subtotal, tax, cogs);
    assert es[|b.entries|].journalId == j.journalId && es[|b.entries|].sourceModule == "billing"
      && es[|b.entries|].sourceDocumentId == c.refundId by {
      hide Sum, RefundJournal;
    }
    assert OUTPUT_TAX == 2100 && SALES_RETURNS == 4100 && COGS == 5000 && INVENTORY == 1200;
    hide Sum, LedgerLines, RefundJournalLines, RefundJournal, RefundOf, LinesKept, HasJournal, Posted, Tax,
      RefundSubtotal, RestoredOf, EntryOf, Debited, Credited;
    NewJournalPosts(b, j, 1000);
    NewJournalPosts(b, j, 2100);
    NewJournalPosts(b, j, 4100);
    NewJournalPosts(b, j, 1200);
    NewJournalPosts(b, j, 5000);
    NewJournalIn(b, j, c.currency);
  }

  lemma InvoiceFrontFits(rate: int, b: Books, closed: set<string>, p: Policy, c: InvoiceCommand)
    requires DocumentsOf(rate, b)
    ensures AllFit(rate, b, [WalStep(Pending(b.uuids, SaleOp(c)))]) && AllFit(rate, b, InvoiceFront(b, closed, p, c))
  {
    hide DocumentsOf, AllFit, JournalPlan, SaleMovements, SaleJournal, SaleOp, ApplyAll;
    var start := [WalStep(Pending(b.uuids, SaleOp(c)))];
    var posted, moved := SalePosting(b, closed, p, c), SaleMoves(b, closed, p, c);
    var b1 := SaleStart(b, c);
    PendingOnly(b, SaleOp(c));
    SameFiles(b);
    SameFiles(b1);
    SameLedger(rate, b, b1);
    TraceFits(rate, b, start);
    JournalFits(rate, b1, closed, SaleJournal(p.taxRate, b.movements, c));
    SaleMovementsFit(rate, ApplyAll(b1, posted.steps), p.allowNegativeStock, c, 0);
    FitConcat(rate, b, start, posted.steps);
    ApplyConcat(b, start, posted.steps);
    FitConcat(rate, b, start + posted.steps, moved.steps);
  }

  lemma InvoiceFrontWrites(b: Books, closed: set<string>, p: Policy, c: InvoiceCommand)
    requires InvoicePlan(b, closed, p, c).Succeeds()
    ensures var j := SaleJournal(p.taxRate, b.movements, c);
      && j.lines != [] && !HasJournal(b.entries, j.journalId)
      && Domain(Written(InvoiceFront(b, closed, p, c))) ==
           EMPTY.(entries := [EntryOf(j)], lines := LedgerLines(j), movements := SoldMovements(b.movements, c, 0))
  {
    hide *;
    var posted, moved := SalePosting(b, closed, p, c), SaleMoves(b, closed, p, c);
    var b1, j := SaleStart(b, c), SaleJournal(p.taxRate, b.movements, c);
    SaleParts(b, closed, p, c);
    AtStart(b, SaleOp(c));
    JournalValid(b1, closed, j);
    JournalWrites(b1, closed, j);
    JournalKeepsStock(b1, closed, j);
    SaleMovementsWrite(ApplyAll(b1, posted.steps), p.allowNegativeStock, c, 0);
    FrontDomain(b.uuids, SaleOp(c), posted.steps, moved.steps, j, SoldMovements(b.movements, c, 0));
  }

  lemma SaleParts(b: Books, closed: set<string>, p: Policy, c: InvoiceCommand)
    requires InvoicePlan(b, closed, p, c).Succeeds()
    ensures var posted, moved, b1 := SalePosting(b, closed, p, c), SaleMoves(b, closed, p, c), SaleStart(b, c);
      && posted.Succeeds() && moved.Succeeds()
      && posted == JournalPlan(b1, closed, SaleJournal(p.taxRate, b.movements, c))
      && moved == SaleMovements(ApplyAll(b1, posted.steps), p.allowNegativeStock, c, 0)
      && b1 == ApplyAll(b, [WalStep(Pending(b.uuids, SaleOp(c)))])
      && InvoiceFront(b, closed, p, c) == [WalStep(Pending(b.uuids, SaleOp(c)))] + posted.steps + moved.steps
  {
    hide InvoicePlan, JournalPlan, SaleMovements, SaleJournal, SaleOp, ApplyAll, Written, PositiveQuantities;
    var rest := InvoiceNests(b, closed, p, c);
  }

  lemma AtStart(b: Books, op: Operation)
    ensures var r := ApplyAll(b, [WalStep(Pending(b.uuids, op))]);
      r.entries == b.entries && r.lines == b.lines && r.movements == b.movements && r.items == b.items
      && r.invoices == b.invoices && r.refunds == b.refunds
  {
    ApplyOne(b, WalStep(Pending(b.uuids, op)));
  }

  /** An announcement, a journal and movements. */
  lemma FrontDomain(tid: Tid, op: Operation, posted: seq<Step>, moved: seq<Step>, j: PostCommand, ms: seq<Movement>)
    requires j.lines != [] && Domain(Written(posted)) == EMPTY.(entries := [EntryOf(j)], lines := LedgerLines(j))
    requires Domain(Written(moved)) == EMPTY.(movements := ms)
    ensures Domain(Written([WalStep(Pending(tid, op))] + posted + moved)) ==
      EMPTY.(entries := [EntryOf(j)], lines := LedgerLines(j), movements := ms)
  {
    hide Written, EntryOf, LedgerLines, Domain;
    var start := [WalStep(Pending(tid, op))];
    AnnouncementDomain(tid, op);
    DomainConcat(start, posted);
    DomainConcat(start + posted, moved);
  }

  lemma AnnouncementDomain(tid: Tid, op: Operation)
    ensures Domain(Written([WalStep(Pending(tid, op))])) == EMPTY
  {
    ApplyOne(EMPTY, WalStep(Pending(tid, op)));
  }

  /** The files in front of the invoice's own record. */
  lemma AtInvoice(b: Books, closed: set<string>, p: Policy, c: InvoiceCommand)
    requires InvoicePlan(b, closed, p, c).Succeeds()
    ensures var j, r := SaleJournal(p.taxRate, b.movements, c), ApplyAll(b, InvoiceFront(b, closed, p, c));
      && j.lines != [] && r.entries == b.entries + [EntryOf(j)] && r.lines == b.lines + LedgerLines(j)
      && r.items == b.items && r.invoices == b.invoices
  {
    hide InvoicePlan, InvoiceFront, SaleJournal, EntryOf, LedgerLines, SoldMovements, Written, ApplyAll, HasJournal;
    InvoiceFrontWrites(b, closed, p, c);
    WritesAdd(b, InvoiceFront(b, closed, p, c));
    SameFiles(Written(InvoiceFront(b, closed, p, c)));
  }

  lemma GoodInvoiceOf(b: Books, closed: set<string>, p: Policy, c: InvoiceCommand)
    requires InvoicePlan(b, closed, p, c).Succeeds()
    ensures GoodInvoice(p.taxRate, InvoiceOf(p.taxRate, c))
  {
    InvoiceAccepted(b, closed, p, c);
    hide InvoicePlan, Enough, PositiveQuantities, HasInvoice, HasMovement, AverageCost, HasJournal, Subtotal;
    Completion.InvoiceCompletes(b, closed, p, c);
    Completion.ItemsChecked(b, closed, p.taxRate, c);
    Completion.FieldsGiven(p.taxRate, c);
    SaleFields(p.taxRate, b.movements, c);
    FloorIsTax(Subtotal(c), p.taxRate);
  }

  lemma GoodLineOfInvoice(b: Books, closed: set<string>, p: Policy, c: InvoiceCommand, i: nat)
    requires InvoicePlan(b, closed, p, c).Succeeds() && i < |c.lines|
    ensures PositiveQuantities(c)
    ensures var l := InvoiceLineOf(b, c, i);
      GoodInvoiceLine(l) && KnownItem(b.items, l.itemId) && l.invoiceId == c.invoiceId && l.currency == c.currency
  {
    InvoiceAccepted(b, closed, p, c);
    InvoiceSoldAtNonNegativeCost(b, closed, p, c);
    InvoicePrices(b, closed, p.taxRate, c);
    Completion.ItemsChecked(b, closed, p.taxRate, c);
    Completion.ItemGiven(p.taxRate, c, i);
    ActiveIsKnown(b.items, c.lines[i].itemId);
    hide InvoicePlan, RefuseInvoice, Enough, HasInvoice, AverageCost, KnownItem, CheckItem, ValidateInvoice,
      BusinessUnit;
    ExactQuotient(c.lines[i].quantity, AverageCost(b.movements, c.lines[i].itemId));
  }

  lemma ExactQuotient(q: int, u: int)
    requires q > 0
    ensures (q * u) / q == u
  {
    FloorUnique(q * u, q, u);
  }

  lemma InvoiceLinesPrefix(b: Books, ls: seq<InvoiceLine>, n: nat)
    requires n <= |ls|
    ensures ApplyAll(b, InvoiceLineSteps(ls)[..n]) == b.(invoiceLines := b.invoiceLines + ls[..n])
  {
    assert InvoiceLineSteps(ls)[..n] == InvoiceLineSteps(ls[..n]);
    InvoiceLinesWritten(ls[..n]);
    hide Written, InvoiceLineSteps;
    WritesAdd(b, InvoiceLineSteps(ls[..n]));
  }

  lemma InvoiceLinesFit(rate: int, b: Books, x: Invoice, ls: seq<InvoiceLine>)
    requires b.invoices != [] && b.invoices[|b.invoices| - 1] == x
    requires forall i :: 0 <= i < |ls| ==>
      GoodInvoiceLine(ls[i]) && KnownItem(b.items, ls[i].itemId) && ls[i].invoiceId == x.invoiceId
        && ls[i].currency == x.currency
    ensures AllFit(rate, b, InvoiceLineSteps(ls))
  {
    hide GoodInvoiceLine, KnownItem, ApplyAll;
    forall i | 0 <= i < |InvoiceLineSteps(ls)|
      ensures Fits(rate, ApplyAll(b, InvoiceLineSteps(ls)[..i]), InvoiceLineSteps(ls)[i])
    {
      InvoiceLinesPrefix(b, ls, i);
    }
  }

  lemma InvoiceRecordFits(b: Books, closed: set<string>, p: Policy, c: InvoiceCommand)
    requires InvoicePlan(b, closed, p, c).Succeeds() && DocumentsOf(p.taxRate, b)
    ensures PositiveQuantities(c)
    ensures AllFit(p.taxRate, ApplyAll(b, InvoiceFront(b, closed, p, c)),
                   [InvoiceStep(InvoiceOf(p.taxRate, c))] + InvoiceLineSteps(InvoiceLines(b, c)))
  {
    hide *;
    var rate, r, x := p.taxRate, ApplyAll(b, InvoiceFront(b, closed, p, c)), InvoiceOf(p.taxRate, c);
    InvoiceAccepted(b, closed, p, c);
    InvoiceFrontWrites(b, closed, p, c);
    AtInvoice(b, closed, p, c);
    SaleFields(rate, b.movements, c);
    DocumentsOfLines(rate, b);
    SaleBooked(rate, b, c, r.entries, r.lines);
    GoodInvoiceOf(b, closed, p, c);
    NewInvoiceId(b.invoices, c.invoiceId);
    InvoiceFitsAt(rate, r, x);
    FitOne(rate, r, InvoiceStep(x));
    ApplyOne(r, InvoiceStep(x));
    AfterInvoice(r, x);
    var ls := InvoiceLines(b, c);
    forall i | 0 <= i < |ls|
      ensures GoodInvoiceLine(ls[i]) && KnownItem(b.items, ls[i].itemId) && ls[i].invoiceId == x.invoiceId
        && ls[i].currency == x.currency
    {
      GoodLineOfInvoice(b, closed, p, c, i);
    }
    InvoiceLinesFit(rate, Apply(r, InvoiceStep(x)), x, ls);
    FitConcat(rate, r, [InvoiceStep(x)], InvoiceLineSteps(ls));
  }

  lemma DocumentsOfLines(rate: int, b: Books)
    requires DocumentsOf(rate, b)
    ensures LinesKept(b)
  {
    hide LinesKept, InvoicesKept, RefundsKept;
  }

  lemma InvoiceFitsAt(rate: int, b: Books, x: Invoice)
    requires GoodInvoice(rate, x) && InvoiceBooked(b.entries, b.lines, x)
    requires forall i :: 0 <= i < |b.invoices| ==> b.invoices[i].invoiceId != x.invoiceId
    ensures Fits(rate, b, InvoiceStep(x))
  {
    hide GoodInvoice, InvoiceBooked;
  }

  lemma AfterInvoice(b: Books, x: Invoice)
    ensures var r := Apply(b, InvoiceStep(x)); r.items == b.items && r.invoices == b.invoices + [x]
  {
  }

  lemma NewInvoiceId(xs: seq<Invoice>, id: string)
    requires !HasInvoice(xs, id)
    ensures forall i :: 0 <= i < |xs| ==> xs[i].invoiceId != id
  {
  }

  lemma InvoiceFits(b: Books, closed: set<string>, p: Policy, c: InvoiceCommand)
    requires DocumentsOf(p.taxRate, b)
    ensures AllFit(p.taxRate, b, InvoicePlan(b, closed, p, c).steps)
  {
    hide DocumentsOf, InvoicePlan, AllFit, InvoiceOf, InvoiceLines, InvoiceLineSteps, PositiveQuantities, SaleOp,
      ApplyAll, JournalPlan, SaleMovements, Written;
    var rate := p.taxRate;
    FitNothing(rate, b);
    InvoiceFrontFits(rate, b, closed, p, c);
    var front := InvoiceFront(b, closed, p, c);
    if InvoicePlan(b, closed, p, c).Succeeds() {
      InvoiceParts(b, closed, p, c);
      InvoiceRecordFits(b, closed, p, c);
      var mid := [InvoiceStep(InvoiceOf(rate, c))] + InvoiceLineSteps(InvoiceLines(b, c));
      var last := [AuditStep("billing.invoice_created"), EventStep("billing.sale_completed.v1"),
                   WalStep(Committed(b.uuids))];
      FitConcat(rate, b, front, mid);
      TraceFits(rate, ApplyAll(b, front + mid), last);
      FitConcat(rate, b, front + mid, last);
    } else if InvoicePlan(b, closed, p, c).steps != [] {
      InvoiceStops(b, closed, p, c);
      StoppedShape(b, closed, p, c);
    }
  }

  lemma StoppedShape(b: Books, closed: set<string>, p: Policy, c: InvoiceCommand)
    ensures var start, posted, moved := [WalStep(Pending(b.uuids, SaleOp(c)))], SalePosting(b, closed, p, c),
      SaleMoves(b, closed, p, c);
      && start + [] == start && start + (posted.steps + moved.steps) == InvoiceFront(b, closed, p, c)
  {
    hide SalePosting, SaleMoves, SaleOp;
  }

  // ---------------------------------------------------------------- refunds

  lemma RefundFrontFits(rate: int, b: Books, closed: set<string>, p: Policy, c: RefundCommand)
    requires DocumentsOf(rate, b) && PositiveRequests(c)
    ensures AllFit(rate, b, [WalStep(Pending(b.uuids, ReturnOp(c)))]) && AllFit(rate, b, RefundFront(b, closed, p, c))
  {
    hide DocumentsOf, AllFit, JournalPlan, RefundMovements, RefundJournal, ReturnOp, ApplyAll, PositiveRequests;
    var start := [WalStep(Pending(b.uuids, ReturnOp(c)))];
    var posted, moved := ReturnPosting(b, closed, p, c), ReturnMoves(b, closed, p, c);
    var b1 := ReturnStart(b, c);
    AtStart(b, ReturnOp(c));
    SameLedger(rate, b, b1);
    TraceFits(rate, b, start);
    JournalFits(rate, b1, closed, RefundJournal(p.taxRate, b, c));
    RefundMovementsFit(rate, ApplyAll(b1, posted.steps), b, p.allowNegativeStock, c, 0);
    FitConcat(rate, b, start, posted.steps);
    ApplyConcat(b, start, posted.steps);
    FitConcat(rate, b, start + posted.steps, moved.steps);
  }

  lemma ReturnParts(b: Books, closed: set<string>, p: Policy, c: RefundCommand)
    requires RefundPlan(b, closed, p, c).Succeeds()
    ensures PositiveRequests(c)
    ensures var posted, moved, b1 := ReturnPosting(b, closed, p, c), ReturnMoves(b, closed, p, c), ReturnStart(b, c);
      && posted.Succeeds() && moved.Succeeds()
      && posted == JournalPlan(b1, closed, RefundJournal(p.taxRate, b, c))
      && moved == RefundMovements(ApplyAll(b1, posted.steps), b, p.allowNegativeStock, c, 0)
      && b1 == ApplyAll(b, [WalStep(Pending(b.uuids, ReturnOp(c)))])
      && RefundFront(b, closed, p, c) == [WalStep(Pending(b.uuids, ReturnOp(c)))] + posted.steps + moved.steps
  {
    hide RefundPlan, JournalPlan, RefundMovements, RefundJournal, ReturnOp, ApplyAll, Written, PositiveRequests;
    var rest := RefundNests(b, closed, p, c);
  }

  lemma RefundFrontWrites(b: Books, closed: set<string>, p: Policy, c: RefundCommand)
    requires RefundPlan(b, closed, p, c).Succeeds()
    ensures PositiveRequests(c)
    ensures var j := RefundJournal(p.taxRate, b, c);
      && j.lines != [] && !HasJournal(b.entries, j.journalId)
      && Domain(Written(RefundFront(b, closed, p, c))) ==
           EMPTY.(entries := [EntryOf(j)], lines := LedgerLines(j),
                  movements := RestockedMovements(b.movements, b, c, 0))
  {
    hide *;
    ReturnParts(b, closed, p, c);
    var posted, moved := ReturnPosting(b, closed, p, c), ReturnMoves(b, closed, p, c);
    var b1, j := ReturnStart(b, c), RefundJournal(p.taxRate, b, c);
    AtStart(b, ReturnOp(c));
    JournalValid(b1, closed, j);
    JournalWrites(b1, closed, j);
    JournalKeepsStock(b1, closed, j);
    RefundMovementsWrite(ApplyAll(b1, posted.steps), b, p.allowNegativeStock, c, 0);
    FrontDomain(b.uuids, ReturnOp(c), posted.steps, moved.steps, j, RestockedMovements(b.movements, b, c, 0));
  }

  lemma AtRefund(b: Books, closed: set<string>, p: Policy, c: RefundCommand)
    requires RefundPlan(b, closed, p, c).Succeeds()
    ensures PositiveRequests(c)
    ensures var j, r := RefundJournal(p.taxRate, b, c), ApplyAll(b, RefundFront(b, closed, p, c));
      && j.lines != [] && r.entries == b.entries + [EntryOf(j)] && r.lines == b.lines + LedgerLines(j)
      && r.invoices == b.invoices && r.refunds == b.refunds
  {
    hide RefundPlan, RefundFront, RefundJournal, EntryOf, LedgerLines, RestockedMovements, Written, ApplyAll,
      HasJournal, PositiveRequests;
    RefundFrontWrites(b, closed, p, c);
    WritesAdd(b, RefundFront(b, closed, p, c));
    SameFiles(Written(RefundFront(b, closed, p, c)));
  }

  lemma GoodRefundOf(b: Books, closed: set<string>, p: Policy, c: RefundCommand)
    requires RefundPlan(b, closed, p, c).Succeeds()
    ensures GoodRefund(p.taxRate, RefundOf(p.taxRate, b, c))
  {
    RefundAccepted(b, closed, p, c);
    hide RefundPlan, PositiveRequests, HasRefund, HasMovement, HasJournal, RefundSubtotal, GuardError, FindInvoice,
      RestoredCosts, TotalCost, RefuseRefund, ValidateRefund;
    ReturnParts(b, closed, p, c);
    RefundCompletion.SubtotalNonNegative(b, closed, p.taxRate, c);
    RefundCompletion.RefundJournalOutcome(ReturnStart(b, c), closed, p.taxRate, c, b);
    RefundCompletion.RefundFieldsGiven(p.taxRate, c);
    ReturnFields(p.taxRate, b, c);
    FloorIsTax(RefundSubtotal(c), p.taxRate);
  }

  lemma GoodLineOfRefund(b: Books, closed: set<string>, p: Policy, c: RefundCommand, i: nat)
    requires RefundPlan(b, closed, p, c).Succeeds() && i < |c.lines|
    ensures PositiveRequests(c)
    ensures var l := RefundLineOf(b, c, i); GoodRefundLine(l) && l.refundId == c.refundId && l.currency == c.currency
  {
    RefundAccepted(b, closed, p, c);
    RefundPrices(b, closed, p.taxRate, c);
    hide RefundPlan, HasRefund, GuardError, FindInvoice, ValidateRefund, RefuseRefund;
    RefundCompletion.SubtotalNonNegative(b, closed, p.taxRate, c);
    RefundCompletion.RefundItemGiven(p.taxRate, c, i);
    hide UnitCogs, BusinessUnit;
    var l := c.lines[i];
    ExactQuotient(l.quantity, UnitCogs(b, c.originalInvoiceId, LineKey(l.itemId, l.unitPrice)));
    ExactQuotient(l.quantity, 0);
  }

  lemma RefundLinesPrefix(b: Books, ls: seq<RefundLine>, n: nat)
    requires n <= |ls|
    ensures ApplyAll(b, RefundLineSteps(ls)[..n]) == b.(refundLines := b.refundLines + ls[..n])
  {
    assert RefundLineSteps(ls)[..n] == RefundLineSteps(ls[..n]);
    RefundLinesWritten(ls[..n]);
    hide Written, RefundLineSteps;
    WritesAdd(b, RefundLineSteps(ls[..n]));
  }

  lemma RefundLinesFit(rate: int, b: Books, x: Refund, ls: seq<RefundLine>)
    requires b.refunds != [] && b.refunds[|b.refunds| - 1] == x
    requires forall i :: 0 <= i < |ls| ==>
      GoodRefundLine(ls[i]) && ls[i].refundId == x.refundId && ls[i].currency == x.currency
    ensures AllFit(rate, b, RefundLineSteps(ls))
  {
    hide GoodRefundLine, ApplyAll;
    forall i | 0 <= i < |RefundLineSteps(ls)|
      ensures Fits(rate, ApplyAll(b, RefundLineSteps(ls)[..i]), RefundLineSteps(ls)[i])
    {
      RefundLinesPrefix(b, ls, i);
    }
  }

  /** The invoice of an accepted refund is stored, in the refund's currency. */
  lemma {:induction false} FoundIn(xs: seq<Invoice>, id: string)
    requires FindInvoice(xs, id).Some?
    ensures exists k :: 0 <= k < |xs| && xs[k].invoiceId == id && xs[k] == FindInvoice(xs, id).value
  {
    if xs[0].invoiceId != id {
      FoundIn(xs[1..], id);
      var k :| 0 <= k < |xs[1..]| && xs[1..][k].invoiceId == id && xs[1..][k] == FindInvoice(xs[1..], id).value;
      assert xs[k + 1] == xs[1..][k];
    }
  }

  lemma SameCurrency(b: Books, closed: set<string>, rate: int, c: RefundCommand)
    requires RefuseRefund(b, closed, rate, c).None?
    ensures exists k ::
      0 <= k < |b.invoices| && b.invoices[k].invoiceId == c.originalInvoiceId && b.invoices[k].currency == c.currency
    ensures forall i :: 0 <= i < |b.refunds| ==> b.refunds[i].refundId != c.refundId
  {
    hide ValidateRefund, GuardError;
    FoundIn(b.invoices, c.originalInvoiceId);
  }

  lemma RefundFitsAt(rate: int, b: Books, x: Refund)
    requires GoodRefund(rate, x) && RefundBooked(b.entries, b.lines, x)
    requires forall i :: 0 <= i < |b.refunds| ==> b.refunds[i].refundId != x.refundId
    requires exists k ::
      0 <= k < |b.invoices| && b.invoices[k].invoiceId == x.originalInvoiceId && b.invoices[k].currency == x.currency
    ensures Fits(rate, b, RefundStep(x))
  {
    hide GoodRefund, RefundBooked;
  }

  lemma AfterRefund(b: Books, x: Refund)
    ensures Apply(b, RefundStep(x)).refunds == b.refunds + [x]
  {
  }

  lemma RefundRecordFits(b: Books, closed: set<string>, p: Policy, c: RefundCommand)
    requires RefundPlan(b, closed, p, c).Succeeds() && DocumentsOf(p.taxRate, b)
    ensures PositiveRequests(c)
    ensures AllFit(p.taxRate, ApplyAll(b, RefundFront(b, closed, p, c)),
                   [RefundStep(RefundOf(p.taxRate, b, c))] + RefundLineSteps(RefundLines(b, c)))
  {
    hide *;
    RefundAccepted(b, closed, p, c);
    var rate, r, x := p.taxRate, ApplyAll(b, RefundFront(b, closed, p, c)), RefundOf(p.taxRate, b, c);
    RefundFrontWrites(b, closed, p, c);
    AtRefund(b, closed, p, c);
    ReturnFields(rate, b, c);
    DocumentsOfLines(rate, b);
    ReturnBooked(rate, b, c, r.entries, r.lines);
    GoodRefundOf(b, closed, p, c);
    SameCurrency(b, closed, rate, c);
    RefundFitsAt(rate, r, x);
    FitOne(rate, r, RefundStep(x));
    ApplyOne(r, RefundStep(x));
    AfterRefund(r, x);
    var ls := RefundLines(b, c);
    forall i | 0 <= i < |ls|
      ensures GoodRefundLine(ls[i]) && ls[i].refundId == x.refundId && ls[i].currency == x.currency
    {
      GoodLineOfRefund(b, closed, p, c, i);
    }
    RefundLinesFit(rate, Apply(r, RefundStep(x)), x, ls);
    FitConcat(rate, r, [RefundStep(x)], RefundLineSteps(ls));
  }

  lemma RefundFits(b: Books, closed: set<string>, p: Policy, c: RefundCommand)
    requires DocumentsOf(p.taxRate, b)
    ensures AllFit(p.taxRate, b, RefundPlan(b, closed, p, c).steps)
  {
    hide DocumentsOf, RefundPlan, AllFit, RefundOf, RefundLines, RefundLineSteps, PositiveRequests, ReturnOp,
      ApplyAll, JournalPlan, RefundMovements, Written, RefuseRefund;
    var rate := p.taxRate;
    FitNothing(rate, b);
    if RefundPlan(b, closed, p, c).Succeeds() {
      RefundParts(b, closed, p, c);
      RefundFrontFits(rate, b, closed, p, c);
      RefundRecordFits(b, closed, p, c);
      var front, mid := RefundFront(b, closed, p, c),
        [RefundStep(RefundOf(rate, b, c))] + RefundLineSteps(RefundLines(b, c));
      var last := [AuditStep("billing.refund_created"), EventStep("billing.refund_completed.v1"),
                   WalStep(Committed(b.uuids))];
      FitConcat(rate, b, front, mid);
      TraceFits(rate, ApplyAll(b, front + mid), last);
      FitConcat(rate, b, front + mid, last);
    } else if RefundPlan(b, closed, p, c).steps != [] {
      RefundStops(b, closed, p, c);
      RefundFrontFits(rate, b, closed, p, c);
      StoppedReturnShape(b, closed, p, c);
    }
  }

  lemma StoppedReturnShape(b: Books, closed: set<string>, p: Policy, c: RefundCommand)
    requires PositiveRequests(c)
    ensures var start, posted, moved := [WalStep(Pending(b.uuids, ReturnOp(c)))], ReturnPosting(b, closed, p, c),
      ReturnMoves(b, closed, p, c);
      && start + [] == start && start + (posted.steps + moved.steps) == RefundFront(b, closed, p, c)
  {
    hide ReturnPosting, ReturnMoves, ReturnOp, PositiveRequests;
  }

  // ---------------------------------------------------------------- runs

  lemma KeptDocuments(rate: int, b: Books)
    requires Kept(rate, b)
    ensures DocumentsOf(rate, b)
  {
    hide LinesKept, InvoicesKept, RefundsKept, EntriesKept, StockKept, InvoiceLinesKept, RefundLinesKept;
  }

  lemma CommandFits(b: Books, p: Policy, cmd: Command)
    requires DocumentsOf(p.taxRate, b)
    ensures AllFit(p.taxRate, b, PlanOf(b, p, cmd).steps)
  {
    hide DocumentsOf, AllFit, ClosedPeriods, RegisterPlan, StockPlan, JournalPlan, InvoicePlan, RefundPlan,
      CloseUsePlan;
    var rate, closed := p.taxRate, ClosedPeriods(b);
    match cmd {
      case Register(item) => RegisterFits(rate, b, item);
      case Move(c) => MoveFits(rate, b, closed, p.allowNegativeStock, c);
      case Post(c) => JournalFits(rate, b, closed, c);
      case Sell(c) => InvoiceFits(b, closed, p, c);
      case Return(c) => RefundFits(b, closed, p, c);
      case Close(periodId) => CloseFits(rate, b, periodId);
    }
  }

  lemma ReconcileFits(rate: int, b: Books, c: ReconcileCommand)
    ensures AllFit(rate, b, ReconcilePlan(b, c).steps)
  {
    hide RefuseReconcile;
    TraceFits(rate, b, ReconcilePlan(b, c).steps);
  }

  lemma ResolveFits(rate: int, b: Books, c: ResolveCommand)
    requires DocumentsOf(rate, b)
    ensures AllFit(rate, b, ResolvePlan(b, c).steps)
  {
    hide DocumentsOf, AllFit, JournalPlan, ClosedPeriods, ResolvePlan, Conclusion, ApplyAll;
    FitNothing(rate, b);
    if ResolvePlan(b, c).steps != [] {
      ResolveSteps(b, c);
      var posted := JournalPlan(b, ClosedPeriods(b), c.journal).steps;
      JournalFits(rate, b, ClosedPeriods(b), c.journal);
      ConclusionFits(rate, ApplyAll(b, posted), AdjustmentOf(c), "recovery.accounting_adjustment_resolved",
                     "recovery.reconciliation_recorded.v1");
      FitConcat(rate, b, posted, Conclusion(AdjustmentOf(c), "recovery.accounting_adjustment_resolved",
                                            "recovery.reconciliation_recorded.v1"));
    }
  }

  lemma ConclusionFits(rate: int, b: Books, x: RecoveryRecord, action: string, event: string)
    ensures AllFit(rate, b, Conclusion(x, action, event))
  {
    TraceFits(rate, b, Conclusion(x, action, event));
  }

  lemma EventFits(b: Books, e: RecoveryEvent, rate: int)
    requires Kept(rate, b) && AtRate(rate, e) && !e.Recovering?
    ensures AllFit(rate, b, StepsOf(b, e))
  {
    KeptDocuments(rate, b);
    hide Kept, DocumentsOf, AllFit, PlanOf, ReconcilePlan, ResolvePlan, Cut;
    match e {
      case Working(p, cmd, k) =>
        var n := CutIsPrefix(PlanOf(b, p, cmd).steps, k);
        CommandFits(b, p, cmd);
        FitPrefix(rate, b, PlanOf(b, p, cmd).steps, n);
      case Reconciling(c, k) =>
        var n := CutIsPrefix(ReconcilePlan(b, c).steps, k);
        ReconcileFits(rate, b, c);
        FitPrefix(rate, b, ReconcilePlan(b, c).steps, n);
      case Resolving(c, k) =>
        var n := CutIsPrefix(ResolvePlan(b, c).steps, k);
        ResolveFits(rate, b, c);
        FitPrefix(rate, b, ResolvePlan(b, c).steps, n);
    }
  }

  lemma RestartKeeps(rate: int, b: Books, missing: bool)
    requires Kept(rate, b)
    ensures Kept(rate, RecoverOf(b, missing).books)
  {
    RecoveryOnlyDropsPending(b, missing);
    hide RecoverOf, AnyUnsafe, EntriesKept, LinesKept, StockKept, InvoicesKept, InvoiceLinesKept, RefundsKept,
      RefundLinesKept;
    OtherFiles(rate, b, RecoverOf(b, missing).books);
  }

  lemma EventKeeps(rate: int, b: Books, e: RecoveryEvent)
    requires Kept(rate, b) && AtRate(rate, e)
    ensures Kept(rate, AfterRecovery(b, e))
  {
    hide Kept, AllFit, StepsOf, RecoverOf, ApplyAll;
    if e.Recovering? {
      RestartKeeps(rate, b, e.missing);
    } else {
      EventFits(b, e, rate);
      AppendsKeep(rate, b, StepsOf(b, e));
    }
  }

  /** In every run of commands, decisions, adjustments and restarts, each cut at any append, the records are well
      formed, ids are used once, every document is booked with its tax and total, and lines, refunds and
      refund lines are in the currency of the journal, invoice and refund they belong to. */
  lemma {:induction false} FilesAreKept(rate: int, es: seq<RecoveryEvent>)
    requires forall k :: 0 <= k < |es| ==> AtRate(rate, es[k])
    ensures Kept(rate, RecoveryRun(EMPTY, es))
  {
    hide Kept, AfterRecovery;
    if es == [] {
      NothingKept(rate);
    } else {
      var n := |es| - 1;
      FilesAreKept(rate, es[..n]);
      EventKeeps(rate, RecoveryRun(EMPTY, es[..n]), es[n]);
    }
  }
}
