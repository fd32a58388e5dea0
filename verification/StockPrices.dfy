/** What an accepted stock movement is worth, from the files before and after it, and what its use case posts. */
module StockPrices {
  import opened Books
  import opened Accounting
  import opened Inventory
  import opened Valuation
  import opened Writes
  import opened UseCases
  import opened Agreement
  import opened AppendRuns
  import Runs

  /** A caller's cost counts when stock comes in, and when it is given; otherwise the average does. */
  function Price(ms: seq<Movement>, c: StockCommand): int {
    if c.quantityDelta > 0 || c.unitCost > 0 then c.unitCost else AverageCost(ms, c.itemId)
  }

  function PeriodGiven(c: StockCommand): string {
    if c.periodId != "" then c.periodId else "FY" + (if |c.timestamp| < 7 then c.timestamp else c.timestamp[..7])
  }

  lemma PricedMovement(ms: seq<Movement>, c: StockCommand)
    requires c.quantityDelta != 0 && c.unitCost >= 0
    ensures var m := MovementOf(ms, c);
      && m.movementId == c.movementId && m.itemId == c.itemId && m.movementType == c.movementType
      && m.sourceDocumentId == c.sourceDocumentId && m.quantityDelta == c.quantityDelta && m.unitCost == Price(ms, c)
      && m.valueDelta == c.quantityDelta * Price(ms, c)
      && m.periodId == PeriodGiven(c)
      && m.quantityAfter == StockOnHand(ms, c.itemId) + c.quantityDelta
      && m.valueAfter == InventoryValue(ms, c.itemId) + c.quantityDelta * Price(ms, c)
  {
    hide StockOnHand, InventoryValue;
  }

  /** One movement is stored: in the item, the quantity and the period asked for, at its price; a stock-in
      raises the quantity, a stock-out lowers it, and quantity and value of every other item stay. */
  lemma MovementIsPriced(b: Books, allowNegative: bool, c: StockCommand)
    requires MovementPlan(b, allowNegative, c).Succeeds()
    ensures var ms, r := b.movements, ApplyAll(b, MovementPlan(b, allowNegative, c).steps).movements;
      && |r| == |ms| + 1 && r[..|ms|] == ms
      && (var m := r[|ms|];
          && m.movementId == c.movementId && m.itemId == c.itemId && m.movementType == c.movementType
          && m.sourceDocumentId == c.sourceDocumentId && m.quantityDelta == c.quantityDelta && m.unitCost == Price(ms, c) && m.periodId == PeriodGiven(c)
          && m.quantityAfter == StockOnHand(r, c.itemId) && m.valueAfter == InventoryValue(r, c.itemId))
      && StockOnHand(r, c.itemId) == StockOnHand(ms, c.itemId) + c.quantityDelta
      && InventoryValue(r, c.itemId) == InventoryValue(ms, c.itemId) + c.quantityDelta * Price(ms, c)
      && (forall id :: id != c.itemId ==>
           StockOnHand(r, id) == StockOnHand(ms, id) && InventoryValue(r, id) == InventoryValue(ms, id))
    ensures (c.movementType == StockIn ==> c.quantityDelta > 0) && (c.movementType == StockOut ==> c.quantityDelta < 0)
    ensures !allowNegative ==> StockOnHand(b.movements, c.itemId) + c.quantityDelta >= 0
  {
    MovementStored(b, allowNegative, c);
    StockFields(c);
    EnoughOrAllowed(b, allowNegative, c);
    hide MovementPlan, ValidateStock, HasMovement, CheckItem, Written, MovementOf, Price, PeriodGiven, StockOnHand,
      InventoryValue;
    var m := MovementOf(b.movements, c);
    MovementWrites(b, allowNegative, c);
    MovementsAfter(b, MovementPlan(b, allowNegative, c).steps);
    PricedMovement(b.movements, c);
    forall id
      ensures StockOnHand(b.movements + [m], id)
        == StockOnHand(b.movements, id) + (if m.itemId == id then m.quantityDelta else 0)
      ensures InventoryValue(b.movements + [m], id)
        == InventoryValue(b.movements, id) + (if m.itemId == id then m.valueDelta else 0)
    {
      FoldsAdd(b.movements, m, id);
    }
  }

  lemma EnoughOrAllowed(b: Books, allowNegative: bool, c: StockCommand)
    requires MovementPlan(b, allowNegative, c).Succeeds()
    ensures !allowNegative ==> StockOnHand(b.movements, c.itemId) + c.quantityDelta >= 0
  {
    hide ValidateStock, HasMovement, CheckItem, MovementSteps, StockOnHand;
  }

  lemma StockLineTotals(value: int, a: Account)
    requires value != 0
    ensures Debited(StockJournalLines(value), a) ==
      if value > 0 && a == 1200 then value else if value < 0 && a == 5100 then -value else 0
    ensures Credited(StockJournalLines(value), a) ==
      if value > 0 && a == 3000 then value else if value < 0 && a == 1200 then -value else 0
  {
    hide Sum;
    var ls := StockJournalLines(value);
    assert ls == [ls[0], ls[1]];
    SumTwo(ls[0], ls[1], DebitTo(a));
    SumTwo(ls[0], ls[1], CreditTo(a));
  }

  /** A completed stock use case posts that value in the movement's period: what comes in goes from the owner's
      equity (3000) to the inventory (1200), what goes out from the inventory to its adjustment (5100). */
  lemma UseCasePosts(b: Books, closed: set<string>, allowNegative: bool, c: StockCommand, p: string, a: Account)
    requires StockPlan(b, closed, allowNegative, c).Succeeds()
    ensures var r, value := ApplyAll(b, StockPlan(b, closed, allowNegative, c).steps),
      c.quantityDelta * Price(b.movements, c);
      var here := p == PeriodGiven(c);
      && Debit(r.lines, p, a) == Debit(b.lines, p, a)
           + (if !here then 0 else if value > 0 && a == 1200 then value else if value < 0
             && a == 5100 then -value else 0)
      && Credit(r.lines, p, a) == Credit(b.lines, p, a)
           + (if !here then 0 else if value > 0 && a == 3000 then value else if value < 0
             && a == 1200 then -value else 0)
      && InventoryValue(r.movements, c.itemId) == InventoryValue(b.movements, c.itemId) + value
  {
    StockValid(b, closed, allowNegative, c);
    StockFields(c);
    StockWrites(b, closed, allowNegative, c);
    PricedMovement(b.movements, c);
    hide StockPlan, MovementPlan, MovementOf, Written, Price, ValidateStock, UsePeriod, PeriodGiven, LedgerLines,
      StockJournalLines, Sum, StockOnHand, InventoryValue, EntryOf, StockJournal, MovementPeriod;
    var steps, m := StockPlan(b, closed, allowNegative, c).steps, MovementOf(b.movements, c);
    WritesAdd(b, steps);
    Runs.SameFiles(Written(steps));
    FoldsAdd(b.movements, m, c.itemId);
    LedgerAdds(b.lines, Written(steps).lines, p, a);
    if m.valueDelta == 0 {
      NoLines(p, a);
    } else {
      StockJournalIs(c, MovementPeriod(c), m.valueDelta);
      LedgerOfJournal(StockJournal(c, MovementPeriod(c), m.valueDelta), p, a);
      StockLineTotals(m.valueDelta, a);
    }
  }

  lemma StockJournalIs(c: StockCommand, period: string, value: int)
    ensures var j := StockJournal(c, period, value); j.periodId == period && j.lines == StockJournalLines(value)
    ensures MovementPeriod(c) == PeriodGiven(c)
  {
    hide StockJournalLines;
  }

  lemma StockValid(b: Books, closed: set<string>, allowNegative: bool, c: StockCommand)
    requires StockPlan(b, closed, allowNegative, c).Succeeds()
    ensures ValidateStock(c).None?
  {
    hide MovementSteps, MovementOf, JournalPlan, StockJournal, ValidateStock, HasMovement, CheckItem, StockOnHand,
      ApplyAll;
  }

  lemma LedgerAdds(xs: seq<LedgerLine>, ys: seq<LedgerLine>, p: string, a: Account)
    ensures Debit(xs + ys, p, a) == Debit(xs, p, a) + Debit(ys, p, a)
    ensures Credit(xs + ys, p, a) == Credit(xs, p, a) + Credit(ys, p, a)
  {
    hide Sum;
    SumConcat(xs, ys, DebitIn(p, a));
    SumConcat(xs, ys, CreditIn(p, a));
  }

  lemma NoLines(p: string, a: Account)
    ensures Debit([], p, a) == 0 && Credit([], p, a) == 0
  {
  }
}
