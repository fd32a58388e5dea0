/** When an accepted invoice completes, and the cuts that automatic recovery does not undo. */
module Completion {
  import opened Status
  import opened Text
  import opened Books
  import opened Accounting
  import opened Inventory
  import opened Billing
  import opened Valuation
  import opened Writes
  import opened Reconciliation
  import opened Agreement
  import opened SaleAgreement
  import opened RefundSafety
  import opened Recovery
  import opened Crash
  import opened CrashRuns
  import Wal
  import Runs
  import opened Stops

  // ---------------------------------------------------------------- the journal of an accepted invoice

  /** The journal of a sale is well formed exactly when it sells for something; its costs must not be negative. */
  lemma SaleLinesValid(currency: string, subtotal: int, tax: int, cogs: int)
    requires currency != "" && subtotal >= 0 && tax >= 0
    ensures var ls := SaleLines(currency, subtotal, tax, cogs);
      && |ls| >= 2 && OneCurrency(ls) && Sum(ls, DebitOf()) == Sum(ls, CreditOf())
      && (FirstLineError(ls).None? <==> subtotal > 0 && cogs >= 0)
  {
    hide FirstLineError, Sum;
    var ls := SaleLines(currency, subtotal, tax, cogs);
    var x, y := JournalLine(CASH, subtotal + tax, 0, currency), JournalLine(SALES, 0, subtotal, currency);
    var t := JournalLine(OUTPUT_TAX, 0, tax, currency);
    var g, h := JournalLine(COGS, cogs, 0, currency), JournalLine(INVENTORY, 0, cogs, currency);
    FiveLines(x, y, t, g, h, tax != 0, cogs != 0, DebitOf());
    FiveLines(x, y, t, g, h, tax != 0, cogs != 0, CreditOf());
    assert ls[0] == x && ls[1] == y;
    assert Known(CASH) && Known(SALES) && Known(OUTPUT_TAX) && Known(COGS) && Known(INVENTORY) by {
      assert CODES[0] == CASH && CODES[3] == INVENTORY && CODES[6] == OUTPUT_TAX && CODES[8] == SALES && CODES[10] == COGS;
    }
    assert cogs != 0 ==> ls[|ls| - 2] == g;
    if subtotal > 0 && cogs >= 0 {
      forall i | 0 <= i < |ls|
        ensures LineError(ls[i]).None?
      {
        assert ls[i] in [x, y] || (tax != 0 && ls[i] == t) || (cogs != 0 && (ls[i] == g || ls[i] == h));
      }
    } else if subtotal == 0 {
      assert LineError(ls[1]).Some?;
    } else {
      assert LineError(ls[|ls| - 2]).Some?;
    }
  }

  lemma SaleJournalOutcome(b: Books, closed: set<string>, rate: int, c: InvoiceCommand, ms: seq<Movement>)
    requires ValidateInvoice(rate, c).None? && c.periodId !in closed && Subtotal(c) >= 0
    ensures JournalPlan(b, closed, SaleJournal(rate, ms, c)).Succeeds() <==>
      Subtotal(c) > 0 && CogsOf(ms, c) >= 0 && !HasJournal(b.entries, SaleJournalId(c.invoiceId))
  {
    hide FirstLineError, Sum, SaleLines, OneCurrency, HasJournal, LineCosts, FirstInvoiceLineError, Transaction,
      JournalBody;
    var tax := Tax(Subtotal(c), rate);
    TaxNonNegative(Subtotal(c), rate);
    SaleLinesValid(c.currency, Subtotal(c), tax, CogsOf(ms, c));
    NamesNotEmpty(c);
    FieldsGiven(rate, c);
    var j := SaleJournal(rate, ms, c);
    assert "" !in [j.journalId, j.periodId, j.timestamp, j.actorId, j.sourceModule, j.sourceDocumentId,
                   j.correlationId, j.description];
  }

  lemma FieldsGiven(rate: int, c: InvoiceCommand)
    requires ValidateInvoice(rate, c).None?
    ensures c.invoiceId != "" && c.customerId != "" && c.periodId != "" && c.timestamp != "" && c.actorId != ""
    ensures c.correlationId != "" && c.paymentMethod != "" && c.currency != "" && c.lines != [] && rate >= 0
  {
    hide FirstInvoiceLineError;
    var fields := [c.invoiceId, c.customerId, c.periodId, c.timestamp, c.actorId, c.correlationId, c.paymentMethod,
                   c.currency];
    assert fields[0] in fields && fields[1] in fields && fields[2] in fields && fields[3] in fields;
    assert fields[4] in fields && fields[5] in fields && fields[6] in fields && fields[7] in fields;
  }

  lemma NamesNotEmpty(c: InvoiceCommand)
    ensures |SaleJournalId(c.invoiceId)| > 0 && |"Invoice " + c.invoiceId + " sale"| > 0 && |"billing"| > 0
  {
  }

  lemma TaxNonNegative(subtotal: int, rate: int)
    requires subtotal >= 0 && rate >= 0
    ensures Tax(subtotal, rate) >= 0
  {
    MulMono(0, rate, subtotal);
  }

  // ---------------------------------------------------------------- the movements of an accepted invoice

  lemma MovementIdsDiffer(invoiceId: string, i: nat, j: nat)
    requires SaleMovementId(invoiceId, i) == SaleMovementId(invoiceId, j)
    ensures i == j
  {
    hide Decimal;
    var head := "mov_" + invoiceId + "_";
    assert Decimal(i + 1) == (head + Decimal(i + 1))[|head|..];
    assert Decimal(j + 1) == (head + Decimal(j + 1))[|head|..];
    DecimalInjective(i + 1, j + 1);
  }

  lemma SaleMovementAccepted(b: Books, allowNegative: bool, start: seq<Movement>, c: InvoiceCommand, i: nat, rate: int)
    requires i < |c.lines| && PositiveQuantities(c) && Enough(start, c) && Tracked(start, b.movements, c, i)
    requires ValidateInvoice(rate, c).None? && CheckItem(b.items, c.lines[i].itemId).None?
    requires AverageCost(start, c.lines[i].itemId) >= 0
    requires !HasMovement(b.movements, SaleMovementId(c.invoiceId, i))
    ensures MovementPlan(b, allowNegative, SaleMovement(b.movements, c, i)).Succeeds()
  {
    hide HasMovement, CheckItem, AverageCost, Tracked, Enough, StableLine, StockOnHand, MovementSteps,
      PositiveQuantities, SaleMovementId;
    AtLine(start, b.movements, c, i);
    FieldsGiven(rate, c);
    ItemGiven(rate, c, i);
    SaleIdNotEmpty(c.invoiceId, i);
    var m := SaleMovement(b.movements, c, i);
    assert "" !in [m.movementId, m.itemId, m.timestamp, m.actorId, m.reason, m.sourceModule, m.sourceDocumentId,
                   m.correlationId] by {
      assert |m.reason| > 0 && |m.sourceModule| > 0;
    }
  }

  lemma SaleIdNotEmpty(invoiceId: string, i: nat)
    ensures |SaleMovementId(invoiceId, i)| > 0
  {
    hide Decimal;
  }

  lemma ItemGiven(rate: int, c: InvoiceCommand, i: nat)
    requires ValidateInvoice(rate, c).None? && i < |c.lines|
    ensures c.lines[i].itemId != ""
  {
    assert FirstInvoiceLineError(c.lines).None?;
    hide FirstInvoiceLineError;
    assert InvoiceLineError(c.lines[i]).None?;
  }

  lemma {:induction false} SaleMovementsComplete(b: Books, allowNegative: bool, start: seq<Movement>,
                                                 c: InvoiceCommand, i: nat, rate: int)
    requires i <= |c.lines| && PositiveQuantities(c) && Enough(start, c) && Tracked(start, b.movements, c, i)
    requires ValidateInvoice(rate, c).None?
    requires forall k :: i <= k < |c.lines| ==> CheckItem(b.items, c.lines[k].itemId).None?
    requires forall k :: i <= k < |c.lines| ==> AverageCost(start, c.lines[k].itemId) >= 0
    requires forall k :: i <= k < |c.lines| ==> !HasMovement(b.movements, SaleMovementId(c.invoiceId, k))
    ensures SaleMovements(b, allowNegative, c, i).Succeeds()
    decreases |c.lines| - i
  {
    hide HasMovement, CheckItem, AverageCost, Tracked, Enough, MovementPlan, MovementOf, SaleMovementAt, Written,
      SaleMovementId, PositiveQuantities, ValidateInvoice, ApplyAll;
    if i < |c.lines| {
      var command := SaleMovement(b.movements, c, i);
      var m := MovementOf(b.movements, command);
      SaleMovementAccepted(b, allowNegative, start, c, i, rate);
      MovementWrites(b, allowNegative, command);
      var steps := MovementPlan(b, allowNegative, command).steps;
      var b1 := ApplyAll(b, steps);
      MovementsAfter(b, steps);
      assert b1.items == b.items && b1.movements == b.movements + [m];
      NextTracked(start, b.movements, c, i);
      SoldQuantityAt(c, i);
      SaleMovementValue(b.movements, c, i);
      forall k | i < k < |c.lines|
        ensures !HasMovement(b1.movements, SaleMovementId(c.invoiceId, k))
      {
        if SaleMovementId(c.invoiceId, k) == SaleMovementId(c.invoiceId, i) {
          MovementIdsDiffer(c.invoiceId, k, i);
        }
        OneMoreMovement(b.movements, m, SaleMovementId(c.invoiceId, k));
      }
      SaleMovementsComplete(b1, allowNegative, start, c, i + 1, rate);
    }
  }

  lemma SoldQuantityAt(c: InvoiceCommand, i: nat)
    requires PositiveQuantities(c) && i < |c.lines|
    ensures c.lines[i].quantity > 0
  {
  }

  lemma OneMoreMovement(ms: seq<Movement>, m: Movement, id: string)
    ensures HasMovement(ms + [m], id) <==> HasMovement(ms, id) || m.movementId == id
  {
    assert (ms + [m])[|ms|] == m;
    if i :| 0 <= i < |ms| && ms[i].movementId == id {
      assert (ms + [m])[i].movementId == id;
    }
  }

  lemma {:induction false} CostNonNegative(ms: seq<Movement>, c: InvoiceCommand, i: nat)
    requires i <= |c.lines| && PositiveQuantities(c)
    requires forall k :: i <= k < |c.lines| ==> AverageCost(ms, c.lines[k].itemId) >= 0
    ensures CostFrom(ms, c, i) >= 0
    decreases |c.lines| - i
  {
    hide AverageCost;
    if i < |c.lines| {
      CostNonNegative(ms, c, i + 1);
      ProductNonNegative(c.lines[i].quantity, AverageCost(ms, c.lines[i].itemId));
    }
  }

  lemma ItemsChecked(b: Books, closed: set<string>, rate: int, c: InvoiceCommand)
    requires RefuseInvoice(b, closed, rate, c).None?
    ensures ValidateInvoice(rate, c).None? && c.periodId !in closed && Subtotal(c) >= 0
    ensures forall k :: 0 <= k < |c.lines| ==> CheckItem(b.items, c.lines[k].itemId).None?
  {
    hide HasInvoice, ValidateInvoice, Sum, CheckItem;
    InvoicePrices(b, closed, rate, c);
    assert forall l :: l in c.lines ==> LineAmount()(l) >= 0 by {
      forall l | l in c.lines
        ensures LineAmount()(l) >= 0
      {
        ProductNonNegative(l.quantity, l.unitPrice);
      }
    }
    SumNonNegative(c.lines, LineAmount());
    var order := ItemsInOrder(c.lines);
    forall k | 0 <= k < |c.lines|
      ensures CheckItem(b.items, c.lines[k].itemId).None?
    {
      ItemIsInOrder(c.lines, k);
      var j :| 0 <= j < |order| && order[j] == c.lines[k].itemId;
      assert ItemStockError(b, order[j], Sum(c.lines, Needs(order[j]))).None?;
    }
  }

  /** An accepted invoice completes exactly when it sells for something, no average of its items is
      negative, and neither its journal id nor its movement ids are taken. Otherwise it stops after its
      transaction was announced. */
  lemma InvoiceCompletes(b: Books, closed: set<string>, p: Policy, c: InvoiceCommand)
    requires RefuseInvoice(b, closed, p.taxRate, c).None?
    ensures InvoicePlan(b, closed, p, c).steps != []
    ensures InvoicePlan(b, closed, p, c).Succeeds() <==>
      && Subtotal(c) > 0
      && !HasJournal(b.entries, SaleJournalId(c.invoiceId))
      && (forall i :: 0 <= i < |c.lines| ==> AverageCost(b.movements, c.lines[i].itemId) >= 0)
      && (forall i :: 0 <= i < |c.lines| ==> !HasMovement(b.movements, SaleMovementId(c.invoiceId, i)))
  {
    ItemsChecked(b, closed, p.taxRate, c);
    AcceptedIsEnough(b, closed, p.taxRate, c);
    SellOutcome(b, closed, p, c);
    hide *;
    var b1 := ApplyAll(b, [WalStep(Pending(b.uuids, SaleOp(c)))]);
    SeesDomain(b);
    SeesDomain(b1);
    SaleJournalOutcome(b1, closed, p.taxRate, c, b.movements);
    var journal := JournalPlan(b1, closed, SaleJournal(p.taxRate, b.movements, c));
    if InvoicePlan(b, closed, p, c).Succeeds() {
      InvoiceSoldAtNonNegativeCost(b, closed, p, c);
      assert journal.Succeeds() by { OutcomeOf(b, closed, p, c); }
      AfterJournal(b, b1, closed, SaleJournal(p.taxRate, b.movements, c));
      OutcomeOf(b, closed, p, c);
      SaleMovementsFresh(ApplyAll(b1, journal.steps), p.allowNegativeStock, c, 0);
    } else if Subtotal(c) > 0 && !HasJournal(b.entries, SaleJournalId(c.invoiceId))
           && (forall i :: 0 <= i < |c.lines| ==> AverageCost(b.movements, c.lines[i].itemId) >= 0)
           && (forall i :: 0 <= i < |c.lines| ==> !HasMovement(b.movements, SaleMovementId(c.invoiceId, i))) {
      CostNonNegative(b.movements, c, 0);
      CogsIsCost(b.movements, c);
      AfterJournal(b, b1, closed, SaleJournal(p.taxRate, b.movements, c));
      StartTracked(b.movements, c);
      SaleMovementsComplete(ApplyAll(b1, journal.steps), p.allowNegativeStock, b.movements, c, 0, p.taxRate);
      OutcomeOf(b, closed, p, c);
    }
  }

  lemma CogsIsCost(ms: seq<Movement>, c: InvoiceCommand)
    ensures CogsOf(ms, c) == CostFrom(ms, c, 0)
  {
    hide AverageCost, Sum;
    CostFromIsTotal(ms, c, 0);
    assert LineCosts(ms, c.lines)[0..] == LineCosts(ms, c.lines);
  }

  lemma OutcomeOf(b: Books, closed: set<string>, p: Policy, c: InvoiceCommand)
    requires RefuseInvoice(b, closed, p.taxRate, c).None?
    ensures var b1 := ApplyAll(b, [WalStep(Pending(b.uuids, SaleOp(c)))]);
      var journal := JournalPlan(b1, closed, SaleJournal(p.taxRate, b.movements, c));
      InvoicePlan(b, closed, p, c).Succeeds() <==>
        journal.Succeeds() && SaleMovements(ApplyAll(b1, journal.steps), p.allowNegativeStock, c, 0).Succeeds()
  {
    hide JournalPlan, SaleMovements, InvoicePlan, SaleJournal, RefuseInvoice, ApplyAll, SaleOp, Domain;
    SellOutcome(b, closed, p, c);
  }

  lemma AfterJournal(b: Books, b1: Books, closed: set<string>, c: PostCommand)
    requires Domain(b1) == Domain(b)
    ensures var b2 := ApplyAll(b1, JournalPlan(b1, closed, c).steps);
      b2.movements == b.movements && b2.items == b.items
  {
    hide JournalPlan, ApplyAll;
    SeesDomain(b);
    SeesDomain(b1);
    JournalKeepsStock(b1, closed, c);
  }

  /** The journal of refund X has the id of the journal of an invoice named refund_X, so once one of them
      is stored the other never completes. */
  lemma JournalIdsCollide(x: string)
    ensures SaleJournalId("refund_" + x) == RefundJournalId(x)
  {
    assert "jrn_refund_" == "jrn_" + "refund_";
    assert "jrn_" + ("refund_" + x) == ("jrn_" + "refund_") + x;
  }

  // ---------------------------------------------------------------- what automatic recovery makes of the rest

  /** An invoice whose journal is refused leaves only its announcement. Automatic recovery takes it back
      exactly when no stored record carries one of the invoice's ids; a journal id taken by a refund blocks it. */
  lemma RefusedJournalNeedsRecovery(b: Books, p: Policy, c: InvoiceCommand)
    requires Orderly(b) && RefuseInvoice(b, ClosedPeriods(b), p.taxRate, c).None?
    requires SalePosting(b, ClosedPeriods(b), p, c).error.Some?
    requires |TidsOf(Runs.Exec(b, p, Runs.Sell(c)).wal)| <= Wal.MAX_TRANSACTIONS
    ensures var r := Runs.Exec(b, p, Runs.Sell(c));
      && r.wal == b.wal + [Pending(b.uuids, SaleOp(c))] && HealthOf(r, false) == NeedsRecovery
      && RecoverOf(r, false) == if SideEffects(b, SaleOp(c)) == [] then RecoveryResult(b.(uuids := r.uuids), None)
                                else RecoveryResult(r, Some(DurableSideEffects))
  {
    hide JournalPlan, RefuseInvoice, SaleJournal, SaleOp, SideEffects, TidsOf, Orderly, HealthOf, RecoverOf, ApplyAll,
      Written, InvoicePlan, ClosedPeriods, PositiveQuantities;
    var closed := ClosedPeriods(b);
    SellOutcome(b, closed, p, c);
    InvoiceStops(b, closed, p, c);
    var steps := [WalStep(Pending(b.uuids, SaleOp(c)))];
    assert InvoicePlan(b, closed, p, c).steps == steps && steps[..1] == steps;
    PendingOnly(b, SaleOp(c));
    CrashAtomicity(b, p, Runs.Sell(c), 1);
  }

  /** The closing of a period has no entry in the table of side effects: cut short after its period record,
      automatic recovery reports success and the period stays closed. */
  lemma CutClosingStaysClosed(b: Books, closed: set<string>, periodId: string, k: nat)
    requires Orderly(b) && ClosePlan(b, closed, periodId).Succeeds() && periodId !in closed
    requires 0 < k < |ClosePlan(b, closed, periodId).steps|
    requires |TidsOf(ApplyAll(b, ClosePlan(b, closed, periodId).steps[..k]).wal)| <= Wal.MAX_TRANSACTIONS
    ensures var r := RecoverOf(ApplyAll(b, ClosePlan(b, closed, periodId).steps[..k]), false);
      && r.error.None? && r.books.wal == b.wal
      && r.books.periods == (if k == 1 then b.periods else b.periods + [periodId])
  {
    CloseSteps(b, closed, periodId);
    var steps := ClosePlan(b, closed, periodId).steps[..k];
    CutCloseWrites(b.uuids, periodId, k);
    hide ClosePlan, TidsOf, Tidy, Linked, HasJournal, Transaction, ApplyAll, Written;
    WritesAdd(b, steps);
    AnnouncedClosing(b, ApplyAll(b, steps), ClosePeriodOp(periodId));
  }

  lemma CloseSteps(b: Books, closed: set<string>, periodId: string)
    requires ClosePlan(b, closed, periodId).Succeeds() && periodId !in closed
    ensures ClosePlan(b, closed, periodId).steps == Transaction(b.uuids, ClosePeriodOp(periodId), [PeriodStep(periodId)],
                                                                "accounting.period_closed", "accounting.period_closed.v1")
  {
  }

  lemma CutCloseWrites(tid: Tid, periodId: string, k: nat)
    requires 0 < k < 5
    ensures |Transaction(tid, ClosePeriodOp(periodId), [PeriodStep(periodId)], "accounting.period_closed", "accounting.period_closed.v1")| == 5
    ensures var d := Written(Transaction(tid, ClosePeriodOp(periodId), [PeriodStep(periodId)],
                                         "accounting.period_closed", "accounting.period_closed.v1")[..k]);
      d.wal == [Pending(tid, ClosePeriodOp(periodId))] && d.uuids == tid + 1 && d.periods == (if k == 1 then [] else [periodId])
  {
    var all := Transaction(tid, ClosePeriodOp(periodId), [PeriodStep(periodId)], "accounting.period_closed",
                           "accounting.period_closed.v1");
    var first, second := [all[0]], [all[1]];
    var third, fourth := [all[2]], [all[3]];
    PendingWritten(tid, ClosePeriodOp(periodId));
    PeriodWritten(periodId);
    ApplyOne(EMPTY, all[2]);
    ApplyOne(EMPTY, all[3]);
    hide Written, ApplyAll;
    WrittenConcat(first, second);
    WrittenConcat(first + second, third);
    WrittenConcat(first + second + third, fourth);
    assert all[..1] == first && all[..2] == first + second && all[..3] == first + second + third;
    assert all[..4] == first + second + third + fourth;
    WrittenIs(third);
    WrittenIs(fourth);
  }

  lemma WrittenIs(steps: seq<Step>)
    ensures Written(steps) == ApplyAll(EMPTY, steps)
  {
  }

  lemma AnnouncedClosing(b: Books, r: Books, op: Operation)
    requires Tidy(b) && op.ClosePeriodOp? && r.wal == b.wal + [Pending(b.uuids, op)] && r.uuids == b.uuids + 1
    requires |TidsOf(r.wal)| <= Wal.MAX_TRANSACTIONS
    ensures RecoverOf(r, false) == RecoveryResult(r.(wal := b.wal), None)
  {
    hide TidsOf, KeptOf, PendingOf;
    var w := [Pending(b.uuids, op)];
    OnlyAnnounced(b, w);
    SomethingPending(b, b.(wal := r.wal), w);
    forall i | 0 <= i < |PendingOf(r.wal)|
      ensures !Unsafe(r, PendingOf(r.wal)[i])
    {
      assert PendingOf(r.wal)[i] in PendingOf(r.wal);
    }
    TidyHasNothingPending(b);
    FewerTids(b.wal, w);
  }

  /** Nothing encloses the two transactions of the stock use case: cut between them, the store is healthy
      and no longer reconciled, exactly when the movement has a value. */
  lemma CutStockUseCase(b: Books, closed: set<string>, allowNegative: bool, c: StockCommand)
    requires Orderly(b) && Reconciled(b) && MovementPlan(b, allowNegative, c).Succeeds()
    requires |TidsOf(ApplyAll(b, MovementPlan(b, allowNegative, c).steps).wal)| <= Wal.MAX_TRANSACTIONS
    ensures var r := ApplyAll(b, MovementPlan(b, allowNegative, c).steps);
      && HealthOf(r, false) == Healthy
      && (Reconciled(r) <==> MovementOf(b.movements, c).valueDelta == 0)
  {
    hide MovementPlan, MovementOf, TidsOf, Written, ReportOf, Linked, Tidy, HasJournal;
    var steps := MovementPlan(b, allowNegative, c).steps;
    var m := MovementOf(b.movements, c);
    MovementLogged(b, allowNegative, c);
    TidyAfter(b, steps);
    TidyHasNothingPending(ApplyAll(b, steps));
    MovementWrites(b, allowNegative, c);
    var d := EMPTY.(movements := [m]);
    assert Linked(d) && Apart(b, d) by { hide *; Runs.Plain(b, d); }
    CompletedReconciles(b, steps, d);
    forall p
      ensures ReportOf(d, p).Passed() <==> p == m.periodId ==> m.valueDelta == 0
    {
      LoneMovement(m, p);
    }
    assert ReportOf(d, m.periodId).Passed() <==> m.valueDelta == 0;
  }
}
