/** When an accepted refund completes. Unlike an invoice, it does not check the items it restocks before it
    announces itself. */
module RefundCompletion {
  import opened Text
  import opened Books
  import opened Accounting
  import opened Inventory
  import opened Billing
  import opened Valuation
  import opened Writes
  import opened SaleAgreement
  import opened Stops
  import opened RefundSafety
  import opened CrashRuns
  import Completion

  // ---------------------------------------------------------------- the journal

  lemma RefundLinesValid(currency: string, subtotal: int, tax: int, cogs: int)
    requires currency != "" && subtotal >= 0 && tax >= 0
    ensures var ls := RefundJournalLines(currency, subtotal, tax, cogs);
      && |ls| >= 2 && OneCurrency(ls) && Sum(ls, DebitOf()) == Sum(ls, CreditOf())
      && (FirstLineError(ls).None? <==> subtotal > 0 && cogs >= 0)
  {
    hide FirstLineError, Sum;
    var ls := RefundJournalLines(currency, subtotal, tax, cogs);
    var x, y := JournalLine(SALES_RETURNS, subtotal, 0, currency), JournalLine(CASH, 0, subtotal + tax, currency);
    var t := JournalLine(OUTPUT_TAX, tax, 0, currency);
    var g, h := JournalLine(INVENTORY, cogs, 0, currency), JournalLine(COGS, 0, cogs, currency);
    FiveLines(x, y, t, g, h, tax != 0, cogs != 0, DebitOf());
    FiveLines(x, y, t, g, h, tax != 0, cogs != 0, CreditOf());
    assert ls[0] == x && ls[1] == y;
    assert Known(CASH) && Known(SALES_RETURNS) && Known(OUTPUT_TAX) && Known(COGS) && Known(INVENTORY) by {
      assert CODES[0] == CASH && CODES[3] == INVENTORY && CODES[6] == OUTPUT_TAX && CODES[9] == SALES_RETURNS && CODES[10] == COGS;
    }
    assert cogs != 0 ==> ls[|ls| - 2] == g;
    if subtotal > 0 && cogs >= 0 {
      forall i | 0 <= i < |ls|
        ensures LineError(ls[i]).None?
      {
        assert ls[i] in [x, y] || (tax != 0 && ls[i] == t) || (cogs != 0 && (ls[i] == g || ls[i] == h));
      }
    } else if subtotal == 0 {
      assert LineError(ls[0]).Some?;
    } else {
      assert LineError(ls[|ls| - 2]).Some?;
    }
  }

  lemma RefundFieldsGiven(rate: int, c: RefundCommand)
    requires ValidateRefund(rate, c).None?
    ensures c.refundId != "" && c.originalInvoiceId != "" && c.periodId != "" && c.timestamp != "" && c.actorId != ""
    ensures c.correlationId != "" && c.currency != "" && c.reason != "" && c.lines != [] && rate >= 0
  {
    hide FirstRefundLineError;
    var fields := [c.refundId, c.originalInvoiceId, c.periodId, c.timestamp, c.actorId, c.correlationId, c.currency, c.reason];
    assert fields[0] in fields && fields[1] in fields && fields[2] in fields && fields[3] in fields;
    assert fields[4] in fields && fields[5] in fields && fields[6] in fields && fields[7] in fields;
  }

  lemma RefundNamesNotEmpty(c: RefundCommand)
    ensures |RefundJournalId(c.refundId)| > 0 && |"billing"| > 0 && |"refund return"| > 0
    ensures |"Refund " + c.refundId + " for invoice " + c.originalInvoiceId| > 0
  {
  }

  lemma RefundJournalOutcome(b: Books, closed: set<string>, rate: int, c: RefundCommand, start: Books)
    requires ValidateRefund(rate, c).None? && c.periodId !in closed && RefundSubtotal(c) >= 0
    ensures JournalPlan(b, closed, RefundJournal(rate, start, c)).Succeeds() <==>
      RefundSubtotal(c) > 0 && TotalCost(RestoredCosts(start, c)) >= 0 && !HasJournal(b.entries, RefundJournalId(c.refundId))
  {
    hide FirstLineError, Sum, RefundJournalLines, OneCurrency, HasJournal, RestoredCosts, FirstRefundLineError,
      Transaction, JournalBody, TotalCost;
    var tax := Tax(RefundSubtotal(c), rate);
    RefundFieldsGiven(rate, c);
    Completion.TaxNonNegative(RefundSubtotal(c), rate);
    RefundLinesValid(c.currency, RefundSubtotal(c), tax, TotalCost(RestoredCosts(start, c)));
    RefundNamesNotEmpty(c);
    var j := RefundJournal(rate, start, c);
    assert "" !in [j.journalId, j.periodId, j.timestamp, j.actorId, j.sourceModule, j.sourceDocumentId,
                   j.correlationId, j.description];
  }

  // ---------------------------------------------------------------- the movements

  function RestockOf(itemId: string): RefundLineCommand -> int {
    (l: RefundLineCommand) => if l.restock && l.itemId == itemId then l.quantity else 0
  }

  function CostAt(b: Books, c: RefundCommand, i: nat): int
    requires i < |c.lines|
  {
    UnitCogs(b, c.originalInvoiceId, LineKey(c.lines[i].itemId, c.lines[i].unitPrice))
  }

  /** The item of line i is known and active, it went out at no negative cost, the movement id is free, and
      with what comes back before the stock is not negative. */
  predicate CanRestock(b: Books, allowNegative: bool, c: RefundCommand, i: nat)
    requires i < |c.lines|
  {
    var itemId := c.lines[i].itemId;
    && CheckItem(b.items, itemId).None?
    && CostAt(b, c, i) >= 0
    && !HasMovement(b.movements, RefundMovementId(c.refundId, i))
    && (allowNegative || StockOnHand(b.movements, itemId) + Sum(c.lines[..i + 1], RestockOf(itemId)) >= 0)
  }

  /** The stock in front of line i: what was there and what the lines before brought back. */
  ghost predicate Restocked(start: Books, b: Books, c: RefundCommand, i: nat)
    requires i <= |c.lines|
  {
    && b.items == start.items
    && (forall id :: StockOnHand(b.movements, id) == StockOnHand(start.movements, id) + Sum(c.lines[..i], RestockOf(id)))
    && (forall k :: i <= k < |c.lines| ==>
          (HasMovement(b.movements, RefundMovementId(c.refundId, k)) <==> HasMovement(start.movements, RefundMovementId(c.refundId, k))))
  }

  lemma RestockGrows(c: RefundCommand, i: nat, id: string)
    requires i < |c.lines|
    ensures Sum(c.lines[..i + 1], RestockOf(id)) == Sum(c.lines[..i], RestockOf(id)) + RestockOf(id)(c.lines[i])
  {
    assert c.lines[..i + 1][..i] == c.lines[..i];
  }

  lemma RefundItemGiven(rate: int, c: RefundCommand, i: nat)
    requires ValidateRefund(rate, c).None? && i < |c.lines|
    ensures c.lines[i].itemId != ""
  {
    assert FirstRefundLineError(c.lines).None?;
    hide FirstRefundLineError;
    assert RefundLineError(c.lines[i]).None?;
  }

  lemma MovementIdNotEmpty(refundId: string, i: nat)
    ensures |RefundMovementId(refundId, i)| > 0
  {
    hide Decimal;
  }

  lemma RefundIdsDiffer(refundId: string, i: nat, j: nat)
    requires RefundMovementId(refundId, i) == RefundMovementId(refundId, j)
    ensures i == j
  {
    hide Decimal;
    var head := "mov_refund_" + refundId + "_";
    assert Decimal(i + 1) == (head + Decimal(i + 1))[|head|..];
    assert Decimal(j + 1) == (head + Decimal(j + 1))[|head|..];
    DecimalInjective(i + 1, j + 1);
  }

  lemma UnitCostIs(start: Books, c: RefundCommand, i: nat)
    requires i < |c.lines| && c.lines[i].quantity > 0 && c.lines[i].restock
    ensures RestoredCost(start, c, i) / c.lines[i].quantity == CostAt(start, c, i)
  {
    hide UnitCogs;
    FloorUnique(RestoredCost(start, c, i), c.lines[i].quantity, CostAt(start, c, i));
  }

  lemma RestockAccepted(b: Books, start: Books, allowNegative: bool, c: RefundCommand, i: nat, rate: int)
    requires i < |c.lines| && PositiveRequests(c) && Restocked(start, b, c, i) && ValidateRefund(rate, c).None?
    requires c.lines[i].restock
    ensures MovementPlan(b, allowNegative, RefundMovement(start, c, i)).Succeeds() <==> CanRestock(start, allowNegative, c, i)
  {
    hide HasMovement, CheckItem, StockOnHand, MovementSteps, RefundMovementId, RestoredCost, CostAt, ValidateRefund,
      Sum;
    UnitCostIs(start, c, i);
    RestockGrows(c, i, c.lines[i].itemId);
    RefundFieldsGiven(rate, c);
    RefundItemGiven(rate, c, i);
    MovementIdNotEmpty(c.refundId, i);
    RefundNamesNotEmpty(c);
    var m := RefundMovement(start, c, i);
    assert "" !in [m.movementId, m.itemId, m.timestamp, m.actorId, m.reason, m.sourceModule, m.sourceDocumentId, m.correlationId];
  }

  lemma NextRestocked(start: Books, b: Books, c: RefundCommand, i: nat, r: Books)
    requires i < |c.lines| && PositiveRequests(c) && Restocked(start, b, c, i) && r.items == b.items
    requires c.lines[i].restock ==> r.movements == b.movements + [MovementOf(b.movements, RefundMovement(start, c, i))]
    requires !c.lines[i].restock ==> r.movements == b.movements
    ensures Restocked(start, r, c, i + 1)
  {
    hide StockOnHand, InventoryValue, HasMovement, RefundMovementId, RestoredCost, UnitCost, Sum;
    forall id
      ensures StockOnHand(r.movements, id) == StockOnHand(start.movements, id) + Sum(c.lines[..i + 1], RestockOf(id))
    {
      RestockGrows(c, i, id);
      if c.lines[i].restock {
        FoldsAdd(b.movements, MovementOf(b.movements, RefundMovement(start, c, i)), id);
      }
    }
    forall k | i + 1 <= k < |c.lines|
      ensures HasMovement(r.movements, RefundMovementId(c.refundId, k)) <==> HasMovement(start.movements, RefundMovementId(c.refundId, k))
    {
      if c.lines[i].restock {
        if RefundMovementId(c.refundId, k) == RefundMovementId(c.refundId, i) {
          RefundIdsDiffer(c.refundId, k, i);
        }
        Completion.OneMoreMovement(b.movements, MovementOf(b.movements, RefundMovement(start, c, i)), RefundMovementId(c.refundId, k));
      }
    }
  }

  lemma {:induction false} RefundMovementsComplete(b: Books, start: Books, allowNegative: bool, c: RefundCommand, i: nat, rate: int)
    requires i <= |c.lines| && PositiveRequests(c) && Restocked(start, b, c, i) && ValidateRefund(rate, c).None?
    ensures RefundMovements(b, start, allowNegative, c, i).Succeeds() <==>
      forall k :: i <= k < |c.lines| && c.lines[k].restock ==> CanRestock(start, allowNegative, c, k)
    decreases |c.lines| - i
  {
    hide Restocked, CanRestock, MovementPlan, MovementOf, RefundMovement, Written, ApplyAll, PositiveRequests,
      ValidateRefund;
    if i < |c.lines| && !c.lines[i].restock {
      NextRestocked(start, b, c, i, b);
      RefundMovementsComplete(b, start, allowNegative, c, i + 1, rate);
    } else if i < |c.lines| {
      RestockAccepted(b, start, allowNegative, c, i, rate);
      RequestAt(c, i);
      var command := RefundMovement(start, c, i);
      var first := MovementPlan(b, allowNegative, command);
      if first.Succeeds() {
        MovementWrites(b, allowNegative, command);
        MovementsAfter(b, first.steps);
        var b1 := ApplyAll(b, first.steps);
        NextRestocked(start, b, c, i, b1);
        RefundMovementsComplete(b1, start, allowNegative, c, i + 1, rate);
      }
    }
  }

  lemma RequestAt(c: RefundCommand, i: nat)
    requires PositiveRequests(c) && i < |c.lines|
    ensures c.lines[i].quantity > 0
  {
  }

  lemma CostsNonNegative(b: Books, allowNegative: bool, c: RefundCommand)
    requires PositiveRequests(c)
    requires forall k :: 0 <= k < |c.lines| && c.lines[k].restock ==> CanRestock(b, allowNegative, c, k)
    ensures TotalCost(RestoredCosts(b, c)) >= 0
  {
    hide UnitCogs, CheckItem, HasMovement, StockOnHand, RefundMovementId, Sum;
    var costs := RestoredCosts(b, c);
    forall x | x in costs
      ensures Id()(x) >= 0
    {
      var i :| 0 <= i < |costs| && costs[i] == x;
      if c.lines[i].restock {
        assert CanRestock(b, allowNegative, c, i);
        MulMono(0, CostAt(b, c, i), c.lines[i].quantity);
      }
    }
    SumNonNegative(costs, Id());
  }

  lemma SubtotalNonNegative(b: Books, closed: set<string>, rate: int, c: RefundCommand)
    requires RefuseRefund(b, closed, rate, c).None?
    ensures ValidateRefund(rate, c).None? && c.periodId !in closed && RefundSubtotal(c) >= 0
  {
    RefundPrices(b, closed, rate, c);
    hide GuardError, HasRefund, FindInvoice, ValidateRefund, Sum;
    forall l | l in c.lines
      ensures RequestAmount()(l) >= 0
    {
      var i :| 0 <= i < |c.lines| && c.lines[i] == l;
      MulMono(0, l.quantity, l.unitPrice);
    }
    SumNonNegative(c.lines, RequestAmount());
  }

  /** An accepted refund completes exactly when it gives something back, its journal id is free, and every
      restocked line can go back to stock. Otherwise it stops after its transaction was announced. */
  lemma RefundCompletes(b: Books, closed: set<string>, p: Policy, c: RefundCommand)
    requires RefuseRefund(b, closed, p.taxRate, c).None?
    ensures RefundPlan(b, closed, p, c).steps != []
    ensures RefundPlan(b, closed, p, c).Succeeds() <==>
      && RefundSubtotal(c) > 0
      && !HasJournal(b.entries, RefundJournalId(c.refundId))
      && forall i :: 0 <= i < |c.lines| && c.lines[i].restock ==> CanRestock(b, p.allowNegativeStock, c, i)
  {
    SubtotalNonNegative(b, closed, p.taxRate, c);
    RefusedOrPositiveRequests(b, closed, p.taxRate, c);
    ReturnOutcome(b, closed, p, c);
    hide *;
    var b1 := ApplyAll(b, [WalStep(Pending(b.uuids, ReturnOp(c)))]);
    SeesDomain(b);
    SeesDomain(b1);
    RefundJournalOutcome(b1, closed, p.taxRate, c, b);
    var posting := RefundJournal(p.taxRate, b, c);
    var b2 := ApplyAll(b1, JournalPlan(b1, closed, posting).steps);
    JournalKeepsStock(b1, closed, posting);
    StartRestocked(b, b2, c);
    RefundMovementsComplete(b2, b, p.allowNegativeStock, c, 0, p.taxRate);
    if forall i :: 0 <= i < |c.lines| && c.lines[i].restock ==> CanRestock(b, p.allowNegativeStock, c, i) {
      CostsNonNegative(b, p.allowNegativeStock, c);
    }
    RefundOutcomeOf(b, closed, p, c);
  }

  lemma StartRestocked(start: Books, b: Books, c: RefundCommand)
    requires b.movements == start.movements && b.items == start.items
    ensures Restocked(start, b, c, 0)
  {
    hide StockOnHand, HasMovement;
  }

  lemma RefundOutcomeOf(b: Books, closed: set<string>, p: Policy, c: RefundCommand)
    requires RefuseRefund(b, closed, p.taxRate, c).None? && PositiveRequests(c)
    ensures var b1 := ApplyAll(b, [WalStep(Pending(b.uuids, ReturnOp(c)))]);
      var journal := JournalPlan(b1, closed, RefundJournal(p.taxRate, b, c));
      RefundPlan(b, closed, p, c).Succeeds() <==>
        journal.Succeeds() && RefundMovements(ApplyAll(b1, journal.steps), b, p.allowNegativeStock, c, 0).Succeeds()
  {
    hide JournalPlan, RefundMovements, RefundPlan, RefundJournal, RefuseRefund, ApplyAll, ReturnOp, Domain;
    ReturnOutcome(b, closed, p, c);
  }
}
