/** What the operations write to the domain files when they complete. */
module Writes {
  import opened Books
  import opened Accounting
  import opened Inventory
  import opened Billing

  /** The books without the log, the audit trail, the events and the uuid counter. */
  function Domain(b: Books): Books { b.(wal := [], audits := [], events := [], uuids := 0) }

  lemma DomainPlus(a: Books, b: Books)
    ensures Domain(Plus(a, b)) == Plus(Domain(a), Domain(b))
  {
  }

  lemma DomainConcat(xs: seq<Step>, ys: seq<Step>)
    ensures Domain(Written(xs + ys)) == Plus(Domain(Written(xs)), Domain(Written(ys)))
  {
    hide *;
    WrittenConcat(xs, ys);
    DomainPlus(Written(xs), Written(ys));
  }

  lemma TransactionDomain(tid: Tid, op: Operation, body: seq<Step>, action: string, event: string)
    ensures Domain(Written(Transaction(tid, op, body, action, event))) == Domain(Written(body))
  {
    hide Written, Transaction;
    TransactionWrites(tid, op, body, action, event);
  }

  // ---------------------------------------------------------------- journals, movements, periods, items

  lemma {:induction false} LinesWritten(ls: seq<LedgerLine>)
    ensures Written(LineSteps(ls)) == EMPTY.(lines := ls)
  {
    var steps := LineSteps(ls);
    if ls != [] {
      var n := |ls| - 1;
      LinesWritten(ls[..n]);
      assert steps[..n] == LineSteps(ls[..n]);
      assert ls == ls[..n] + [ls[n]];
    }
  }

  lemma JournalWrites(b: Books, closed: set<string>, c: PostCommand)
    requires JournalPlan(b, closed, c).Succeeds()
    ensures c.lines != []
    ensures Domain(Written(JournalPlan(b, closed, c).steps)) == EMPTY.(entries := [EntryOf(c)], lines := LedgerLines(c))
  {
    hide Written, Transaction, LedgerLines, EntryOf, Apply;
    TransactionDomain(b.uuids, PostJournalOp(c.journalId), JournalBody(c),
                      "accounting.journal_posted", "accounting.journal_posted.v1");
    var first := [EntryStep(EntryOf(c))];
    WrittenConcat(first, LineSteps(LedgerLines(c)));
    LinesWritten(LedgerLines(c));
    EntryWritten(EntryOf(c));
  }

  lemma EntryWritten(e: JournalEntry)
    ensures Written([EntryStep(e)]) == EMPTY.(entries := [e])
  {
    ApplyOne(EMPTY, EntryStep(e));
  }

  lemma MovementWrites(b: Books, allowNegative: bool, c: StockCommand)
    requires MovementPlan(b, allowNegative, c).Succeeds()
    ensures Domain(Written(MovementPlan(b, allowNegative, c).steps)) == EMPTY.(movements := [MovementOf(b.movements, c)])
  {
    hide Written, Transaction, MovementOf, Apply;
    var body := [MovementStep(MovementOf(b.movements, c))];
    TransactionDomain(b.uuids, CommitMovementOp(c.movementId), body, "inventory.stock_moved", "inventory.stock_moved.v1");
    OneMovementWritten(MovementOf(b.movements, c));
  }

  lemma OneMovementWritten(m: Movement)
    ensures Written([MovementStep(m)]) == EMPTY.(movements := [m])
  {
    ApplyOne(EMPTY, MovementStep(m));
  }

  lemma RegisterWrites(b: Books, item: Item)
    requires RegisterPlan(b, item).Succeeds()
    ensures Domain(Written(RegisterPlan(b, item).steps)) == EMPTY.(items := [item])
  {
    hide Written, Transaction;
    TransactionDomain(b.uuids, RegisterItemOp(item.itemId), [ItemStep(item)],
                      "inventory.item_registered", "inventory.item_registered.v1");
    ItemWritten(item);
  }

  lemma ItemWritten(item: Item)
    ensures Written([ItemStep(item)]) == EMPTY.(items := [item])
  {
    ApplyOne(EMPTY, ItemStep(item));
  }

  lemma CloseWrites(b: Books, closed: set<string>, periodId: string)
    requires ClosePlan(b, closed, periodId).Succeeds()
    ensures Domain(Written(ClosePlan(b, closed, periodId).steps)) ==
            (if periodId in closed then EMPTY else EMPTY.(periods := [periodId]))
  {
    hide Written, Transaction;
    if periodId !in closed {
      TransactionDomain(b.uuids, ClosePeriodOp(periodId), [PeriodStep(periodId)],
                        "accounting.period_closed", "accounting.period_closed.v1");
      PeriodWritten(periodId);
    } else {
      NothingWritten();
    }
  }

  lemma NothingWritten()
    ensures Written([]) == EMPTY
  {
  }

  // ---------------------------------------------------------------- invoices

  /** The movements an invoice stores for its lines from i on. */
  function SoldMovements(ms: seq<Movement>, c: InvoiceCommand, i: nat): seq<Movement>
    requires i <= |c.lines|
    decreases |c.lines| - i
  {
    if i == |c.lines| then [] else
    var m := MovementOf(ms, SaleMovement(ms, c, i));
    [m] + SoldMovements(ms + [m], c, i + 1)
  }

  lemma {:induction false} SaleMovementsWrite(b: Books, allowNegative: bool, c: InvoiceCommand, i: nat)
    requires i <= |c.lines| && SaleMovements(b, allowNegative, c, i).Succeeds()
    ensures Domain(Written(SaleMovements(b, allowNegative, c, i).steps)) == EMPTY.(movements := SoldMovements(b.movements, c, i))
    decreases |c.lines| - i
  {
    hide Written, MovementPlan, MovementOf, SaleMovement, Apply;
    if i == |c.lines| {
      NothingWritten();
    } else {
      var first := MovementPlan(b, allowNegative, SaleMovement(b.movements, c, i));
      var m := MovementOf(b.movements, SaleMovement(b.movements, c, i));
      MovementWrites(b, allowNegative, SaleMovement(b.movements, c, i));
      var b1 := ApplyAll(b, first.steps);
      WritesAdd(b, first.steps);
      assert b1.movements == b.movements + [m] by {
        assert Domain(Written(first.steps)).movements == [m];
      }
      SaleMovementsWrite(b1, allowNegative, c, i + 1);
      DomainConcat(first.steps, SaleMovements(b1, allowNegative, c, i + 1).steps);
    }
  }

  lemma {:induction false} InvoiceLinesWritten(ls: seq<InvoiceLine>)
    ensures Written(InvoiceLineSteps(ls)) == EMPTY.(invoiceLines := ls)
  {
    var steps := InvoiceLineSteps(ls);
    if ls != [] {
      var n := |ls| - 1;
      InvoiceLinesWritten(ls[..n]);
      assert steps[..n] == InvoiceLineSteps(ls[..n]);
      assert ls == ls[..n] + [ls[n]];
    }
  }

  lemma PendingOnly(b: Books, op: Operation)
    ensures var r := ApplyAll(b, [WalStep(Pending(b.uuids, op))]);
      Domain(r) == Domain(b) && r.uuids == b.uuids + 1 && r.wal == b.wal + [Pending(b.uuids, op)]
  {
    ApplyOne(b, WalStep(Pending(b.uuids, op)));
  }

  lemma UuidsGrow(b: Books, steps: seq<Step>)
    ensures ApplyAll(b, steps).uuids >= b.uuids
  {
    hide Written;
    WritesAdd(b, steps);
  }

  /** The movements of the stock file after steps that write none. */
  lemma MovementsAfter(b: Books, steps: seq<Step>)
    ensures ApplyAll(b, steps).movements == b.movements + Domain(Written(steps)).movements
    ensures ApplyAll(b, steps).items == b.items + Domain(Written(steps)).items
    ensures ApplyAll(b, steps).entries == b.entries + Domain(Written(steps)).entries
  {
    hide Written;
    WritesAdd(b, steps);
  }

  /** A completed invoice writes its journal, one movement for each line, itself and its lines. */
  lemma InvoiceWrites(b: Books, closed: set<string>, p: Policy, c: InvoiceCommand)
    requires InvoicePlan(b, closed, p, c).Succeeds()
    ensures PositiveQuantities(c)
    ensures var journal := SaleJournal(p.taxRate, b.movements, c);
      Domain(Written(InvoicePlan(b, closed, p, c).steps)) ==
      EMPTY.(entries := [EntryOf(journal)], lines := LedgerLines(journal), movements := SoldMovements(b.movements, c, 0),
             invoices := [InvoiceOf(p.taxRate, c)], invoiceLines := InvoiceLines(b, c))
  {
    RefusedOrPositive(b, closed, p.taxRate, c);
    hide Written, Transaction, JournalPlan, SaleMovements, SoldMovements, InvoiceLines, InvoiceOf, EntryOf,
      LedgerLines, SaleJournal, RefuseInvoice, Apply, PositiveQuantities, SaleOp;
    var b1 := ApplyAll(b, [WalStep(Pending(b.uuids, SaleOp(c)))]);
    PendingOnly(b, SaleOp(c));
    var journal := JournalPlan(b1, closed, SaleJournal(p.taxRate, b.movements, c));
    JournalWrites(b1, closed, SaleJournal(p.taxRate, b.movements, c));
    var b2 := ApplyAll(b1, journal.steps);
    MovementsAfter(b1, journal.steps);
    var movements := SaleMovements(b2, p.allowNegativeStock, c, 0);
    SaleMovementsWrite(b2, p.allowNegativeStock, c, 0);
    assert b2.movements == b.movements;
    var x, ls := [InvoiceStep(InvoiceOf(p.taxRate, c))], InvoiceLineSteps(InvoiceLines(b, c));
    TransactionDomain(b.uuids, SaleOp(c), journal.steps + movements.steps + x + ls,
                      "billing.invoice_created", "billing.sale_completed.v1");
    DomainConcat(journal.steps + movements.steps + x, ls);
    DomainConcat(journal.steps + movements.steps, x);
    DomainConcat(journal.steps, movements.steps);
    InvoiceLinesWritten(InvoiceLines(b, c));
    InvoiceWritten(InvoiceOf(p.taxRate, c));
  }

  lemma InvoiceWritten(x: Invoice)
    ensures Written([InvoiceStep(x)]) == EMPTY.(invoices := [x])
  {
    ApplyOne(EMPTY, InvoiceStep(x));
  }

  // ---------------------------------------------------------------- refunds

  /** The stock-ins a refund stores for its restocked lines from i on. */
  function RestockedMovements(ms: seq<Movement>, start: Books, c: RefundCommand, i: nat): seq<Movement>
    requires i <= |c.lines| && PositiveRequests(c)
    decreases |c.lines| - i
  {
    if i == |c.lines| then []
    else if !c.lines[i].restock then RestockedMovements(ms, start, c, i + 1)
    else
      var m := MovementOf(ms, RefundMovement(start, c, i));
      [m] + RestockedMovements(ms + [m], start, c, i + 1)
  }

  lemma {:induction false} RefundMovementsWrite(b: Books, start: Books, allowNegative: bool, c: RefundCommand, i: nat)
    requires i <= |c.lines| && PositiveRequests(c) && RefundMovements(b, start, allowNegative, c, i).Succeeds()
    ensures Domain(Written(RefundMovements(b, start, allowNegative, c, i).steps)) ==
            EMPTY.(movements := RestockedMovements(b.movements, start, c, i))
    decreases |c.lines| - i
  {
    hide Written, MovementPlan, MovementOf, RefundMovement, Apply;
    if i == |c.lines| {
      NothingWritten();
    } else if !c.lines[i].restock {
      RefundMovementsWrite(b, start, allowNegative, c, i + 1);
    } else {
      var first := MovementPlan(b, allowNegative, RefundMovement(start, c, i));
      var m := MovementOf(b.movements, RefundMovement(start, c, i));
      MovementWrites(b, allowNegative, RefundMovement(start, c, i));
      var b1 := ApplyAll(b, first.steps);
      MovementsAfter(b, first.steps);
      RefundMovementsWrite(b1, start, allowNegative, c, i + 1);
      DomainConcat(first.steps, RefundMovements(b1, start, allowNegative, c, i + 1).steps);
    }
  }

  lemma {:induction false} RefundLinesWritten(ls: seq<RefundLine>)
    ensures Written(RefundLineSteps(ls)) == EMPTY.(refundLines := ls)
  {
    var steps := RefundLineSteps(ls);
    if ls != [] {
      var n := |ls| - 1;
      RefundLinesWritten(ls[..n]);
      assert steps[..n] == RefundLineSteps(ls[..n]);
      assert ls == ls[..n] + [ls[n]];
    }
  }

  /** A completed refund writes its journal, a stock-in for each restocked line, itself and its lines. */
  lemma RefundWrites(b: Books, closed: set<string>, p: Policy, c: RefundCommand)
    requires RefundPlan(b, closed, p, c).Succeeds()
    ensures PositiveRequests(c)
    ensures var journal := RefundJournal(p.taxRate, b, c);
      Domain(Written(RefundPlan(b, closed, p, c).steps)) ==
      EMPTY.(entries := [EntryOf(journal)], lines := LedgerLines(journal), movements := RestockedMovements(b.movements, b, c, 0),
             refunds := [RefundOf(p.taxRate, b, c)], refundLines := RefundLines(b, c))
  {
    RefusedOrPositiveRequests(b, closed, p.taxRate, c);
    hide Written, Transaction, JournalPlan, RefundMovements, RestockedMovements, RefundLines, RefundOf, EntryOf,
      LedgerLines, RefundJournal, RefuseRefund, Apply, PositiveRequests, ReturnOp;
    var b1 := ApplyAll(b, [WalStep(Pending(b.uuids, ReturnOp(c)))]);
    PendingOnly(b, ReturnOp(c));
    var journal := JournalPlan(b1, closed, RefundJournal(p.taxRate, b, c));
    JournalWrites(b1, closed, RefundJournal(p.taxRate, b, c));
    var b2 := ApplyAll(b1, journal.steps);
    MovementsAfter(b1, journal.steps);
    var movements := RefundMovements(b2, b, p.allowNegativeStock, c, 0);
    RefundMovementsWrite(b2, b, p.allowNegativeStock, c, 0);
    assert b2.movements == b.movements;
    var x, ls := [RefundStep(RefundOf(p.taxRate, b, c))], RefundLineSteps(RefundLines(b, c));
    TransactionDomain(b.uuids, ReturnOp(c), journal.steps + movements.steps + x + ls,
                      "billing.refund_created", "billing.refund_completed.v1");
    DomainConcat(journal.steps + movements.steps + x, ls);
    DomainConcat(journal.steps + movements.steps, x);
    DomainConcat(journal.steps, movements.steps);
    RefundLinesWritten(RefundLines(b, c));
    RefundWritten(RefundOf(p.taxRate, b, c));
  }

  lemma RefundWritten(x: Refund)
    ensures Written([RefundStep(x)]) == EMPTY.(refunds := [x])
  {
    ApplyOne(EMPTY, RefundStep(x));
  }
}
