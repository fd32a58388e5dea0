/** Refunds against the checks. */
module ReturnAgreement {
  import opened Status
  import opened Books
  import opened Accounting
  import opened Inventory
  import opened Billing
  import opened Valuation
  import opened Writes
  import opened Reconciliation
  import opened Agreement
  import opened SaleAgreement

  function RestoredOf(b: Books, c: RefundCommand): int { TotalCost(RestoredCosts(b, c)) }

  lemma RefundMovementValue(ms: seq<Movement>, start: Books, c: RefundCommand, i: nat)
    requires i < |c.lines| && c.lines[i].quantity > 0 && c.lines[i].restock
    ensures var m := MovementOf(ms, RefundMovement(start, c, i));
      && m.itemId == c.lines[i].itemId && m.quantityDelta == c.lines[i].quantity
      && m.valueDelta == RestoredCost(start, c, i)
      && m.periodId == PeriodFromTimestamp(c.timestamp)
  {
    hide StockOnHand, InventoryValue, PeriodFromTimestamp, UnitCogs, RefundMovementId;
    var q, u := c.lines[i].quantity,
        UnitCogs(start, c.originalInvoiceId, LineKey(c.lines[i].itemId, c.lines[i].unitPrice));
    FloorUnique(q * u, q, u);
  }

  /** The stock-ins together bring back exactly the restored cost, in the period of the timestamp. */
  lemma {:induction false} RestockedPeriodValue(ms: seq<Movement>, start: Books, c: RefundCommand, i: nat, p: string)
    requires i <= |c.lines| && PositiveRequests(c)
    ensures PeriodValue(RestockedMovements(ms, start, c, i), p) ==
            if p == PeriodFromTimestamp(c.timestamp) then TotalCost(RestoredCosts(start, c)[i..]) else 0
    decreases |c.lines| - i
  {
    hide MovementOf, RefundMovement, UnitCogs, PeriodFromTimestamp, Sum;
    var costs := RestoredCosts(start, c);
    if i == |c.lines| {
      NoFolds(p);
      SumZero(costs[i..], Id());
    } else {
      assert costs[i..] == [costs[i]] + costs[i + 1..];
      SumConcat([costs[i]], costs[i + 1..], Id());
      SumOne(costs[i], Id());
      if c.lines[i].restock {
        var m := MovementOf(ms, RefundMovement(start, c, i));
        RefundMovementValue(ms, start, c, i);
        RestockedPeriodValue(ms + [m], start, c, i + 1, p);
        SumConcat([m], RestockedMovements(ms + [m], start, c, i + 1), ValueIn(p));
        SumOne(m, ValueIn(p));
      } else {
        RestockedPeriodValue(ms, start, c, i + 1, p);
      }
    }
  }

  lemma RefundLineTotals(currency: string, subtotal: int, tax: int, cogs: int)
    ensures var ls := RefundJournalLines(currency, subtotal, tax, cogs);
      && Debited(ls, INVENTORY) == cogs && Credited(ls, INVENTORY) == 0
      && Debited(ls, OUTPUT_TAX) == tax && Credited(ls, OUTPUT_TAX) == 0
      && Credited(ls, SALES) == 0 && Debited(ls, SALES_RETURNS) == subtotal
      && Debited(ls, COGS) == 0 && Credited(ls, COGS) == cogs
  {
    hide Sum;
    var x, y := JournalLine(SALES_RETURNS, subtotal, 0, currency), JournalLine(CASH, 0, subtotal + tax, currency);
    var t := JournalLine(OUTPUT_TAX, tax, 0, currency);
    var g, h := JournalLine(INVENTORY, cogs, 0, currency), JournalLine(COGS, 0, cogs, currency);
    forall f: JournalLine -> int | (tax == 0 ==> f(t) == 0) && (cogs == 0 ==> f(g) == f(h) == 0)
      ensures Sum(RefundJournalLines(currency, subtotal, tax, cogs), f) == f(x) + f(y) + f(t) + f(g) + f(h)
    {
      FiveLines(x, y, t, g, h, tax != 0, cogs != 0, f);
    }
  }

  lemma RefundCogsTotal(b: Books, c: RefundCommand, x: Refund, p: string)
    requires PositiveRequests(c) && x.refundId == c.refundId && x.periodId == c.periodId
    ensures Sum(RefundLines(b, c), RestoredIn([x], p)) == if p == c.periodId then RestoredOf(b, c) else 0
  {
    hide Sum, RestoredCost;
    var ls := RefundLines(b, c);
    assert PeriodOfRefund([x], c.refundId) == Some(c.periodId);
    if p == c.periodId {
      SumPointwise(ls, RestoredIn([x], p), RestoredCosts(b, c), Id());
    } else {
      SumZero(ls, RestoredIn([x], p));
    }
  }

  lemma RefundReport(b: Books, rate: int, c: RefundCommand, d: Books, p: string)
    requires PositiveRequests(c)
    requires d.lines == LedgerLines(RefundJournal(rate, b, c)) && d.movements == RestockedMovements(b.movements, b, c, 0)
    requires d.refunds == [RefundOf(rate, b, c)] && d.refundLines == RefundLines(b, c)
    requires d.invoices == [] && d.invoiceLines == []
    ensures ReportOf(d, p).Passed() <==>
      (if p == PeriodFromTimestamp(c.timestamp) then RestoredOf(b, c) else 0)
        == (if p == c.periodId then RestoredOf(b, c) else 0)
  {
    hide Sum, Debit, Credit, Debited, Credited, LedgerLines, DebitBalance, RestoredCosts, RestockedMovements,
      RefundLines, PeriodFromTimestamp, Tax, PeriodValue, RefundMovementIds;
    var x := RefundOf(rate, b, c);
    NoFolds(p);
    LedgerReport(d, RefundJournal(rate, b, c), p);
    RefundLineTotals(c.currency, RefundSubtotal(c), Tax(RefundSubtotal(c), rate), RestoredOf(b, c));
    RestockedPeriodValue(b.movements, b, c, 0, p);
    assert RestoredCosts(b, c)[0..] == RestoredCosts(b, c);
    SumOne(x, RefundSubtotalIn(p));
    SumOne(x, RefundTaxIn(p));
    RefundCogsTotal(b, c, x, p);
  }

  lemma RefundLinked(b: Books, rate: int, c: RefundCommand, d: Books)
    requires PositiveRequests(c) && !HasRefund(b.refunds, c.refundId)
    requires d.refunds == [RefundOf(rate, b, c)] && d.refundLines == RefundLines(b, c) && d.invoices == []
      && d.invoiceLines == []
    ensures Linked(d) && Apart(b, d)
  {
    hide RefundMovementIds, Tax;
    RefundKnown(b.refunds, c.refundId);
    RefundKnown(d.refunds, c.refundId);
    assert d.refunds[0].refundId == c.refundId;
  }

  lemma RefundAccepted(b: Books, closed: set<string>, p: Policy, c: RefundCommand)
    requires RefundPlan(b, closed, p, c).Succeeds()
    ensures RefuseRefund(b, closed, p.taxRate, c).None? && PositiveRequests(c)
    ensures !HasRefund(b.refunds, c.refundId) && GuardError(b, c).None? && c.periodId !in closed
    ensures FindInvoice(b.invoices, c.originalInvoiceId).Some?
  {
    hide JournalPlan, RefundMovements, RefundLines, RefundJournal, RefundOf, Transaction, GuardError, ValidateRefund;
    RefusedOrPositiveRequests(b, closed, p.taxRate, c);
  }

  /** A completed refund keeps reconciled books reconciled exactly when its period is the one of its
      timestamp or it restores no cost. */
  lemma RefundReconciles(b: Books, closed: set<string>, p: Policy, c: RefundCommand)
    requires RefundPlan(b, closed, p, c).Succeeds() && Linked(b) && Reconciled(b)
    ensures Reconciled(ApplyAll(b, RefundPlan(b, closed, p, c).steps)) <==>
      Aligned(c.timestamp, c.periodId) || RestoredOf(b, c) == 0
  {
    RefundAccepted(b, closed, p, c);
    RefundWrites(b, closed, p, c);
    hide *;
    var steps := RefundPlan(b, closed, p, c).steps;
    var d := Domain(Written(steps));
    RefundLinked(b, p.taxRate, c, d);
    CompletedReconciles(b, steps, d);
    RefundCondition(b, p.taxRate, c, d);
  }

  lemma RefundCondition(b: Books, rate: int, c: RefundCommand, d: Books)
    requires PositiveRequests(c)
    requires d.lines == LedgerLines(RefundJournal(rate, b, c)) && d.movements == RestockedMovements(b.movements, b, c, 0)
    requires d.refunds == [RefundOf(rate, b, c)] && d.refundLines == RefundLines(b, c)
    requires d.invoices == [] && d.invoiceLines == []
    ensures Reconciled(d) <==> Aligned(c.timestamp, c.periodId) || RestoredOf(b, c) == 0
  {
    hide ReportOf, LedgerLines, RestockedMovements, RefundLines, RefundJournal, RefundOf, RestoredOf,
      PeriodFromTimestamp;
    forall q
      ensures ReportOf(d, q).Passed() <==>
        (if q == PeriodFromTimestamp(c.timestamp) then RestoredOf(b, c) else 0)
          == (if q == c.periodId then RestoredOf(b, c) else 0)
    {
      RefundReport(b, rate, c, d, q);
    }
    assert ReportOf(d, c.periodId).Passed() == ReportOf(d, c.periodId).Passed();
  }
}
