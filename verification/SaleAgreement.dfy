/** Invoices and refunds against the checks: the cost an invoice posts once against the costs its movements
    re-read line by line, and the period of the documents against the period of the movements. */
module SaleAgreement {
  import opened Status
  import opened Books
  import opened Accounting
  import opened Inventory
  import opened Billing
  import opened Valuation
  import opened Writes
  import opened Reconciliation
  import opened Agreement

  // ---------------------------------------------------------------- the average along an invoice

  /** Value and quantity (v, q) of an item after sales at the floor average, starting from (v0, q0): while the
      remainder v0 % q0 is smaller than the quantity left the average has not moved, then it has risen. */
  predicate Tracks(v0: int, q0: int, v: int, q: int)
    requires q0 > 0
  {
    q > 0 ==> if v0 % q0 < q then v == q * (v0 / q0) + v0 % q0 else v / q > v0 / q0
  }

  lemma TrackedAverage(v0: int, q0: int, v: int, q: int)
    requires q0 > 0 && q > 0 && Tracks(v0, q0, v, q)
    ensures v / q >= v0 / q0 && (v / q == v0 / q0 <==> v0 % q0 < q)
    ensures v0 % q0 < q ==> v % q == v0 % q0
  {
    if v0 % q0 < q {
      var a, r := v0 / q0, v0 % q0;
      assert (a + 1) * q == q * a + q;
      FloorUnique(v, q, a);
    }
  }

  lemma TrackStep(v0: int, q0: int, v: int, q: int, out: int)
    requires q0 > 0 && 0 < out <= q && Tracks(v0, q0, v, q)
    ensures Tracks(v0, q0, v - out * (v / q), q - out)
  {
    TrackedAverage(v0, q0, v, q);
    StockOutAtAverage(v, q, out);
  }

  /** What the movements take out of stock from line i on. */
  function SoldValue(ms: seq<Movement>, c: InvoiceCommand, i: nat): int
    requires i <= |c.lines|
    decreases |c.lines| - i
  {
    if i == |c.lines| then 0
    else c.lines[i].quantity * AverageCost(ms, c.lines[i].itemId)
         + SoldValue(ms + [MovementOf(ms, SaleMovement(ms, c, i))], c, i + 1)
  }

  lemma SaleMovementValue(ms: seq<Movement>, c: InvoiceCommand, i: nat)
    requires i < |c.lines| && c.lines[i].quantity > 0
    ensures var m := MovementOf(ms, SaleMovement(ms, c, i));
      && m.itemId == c.lines[i].itemId && m.quantityDelta == -c.lines[i].quantity
      && m.valueDelta == -(c.lines[i].quantity * AverageCost(ms, c.lines[i].itemId))
      && m.periodId == PeriodFromTimestamp(c.timestamp)
      && m.movementId == SaleMovementId(c.invoiceId, i)
  {
    hide StockOnHand, InventoryValue, PeriodFromTimestamp, SaleMovementId;
    var q, u := c.lines[i].quantity, AverageCost(ms, c.lines[i].itemId);
    assert (-q) * u == -(q * u);
  }

  lemma {:induction false} SoldPeriodValue(ms: seq<Movement>, c: InvoiceCommand, i: nat, p: string)
    requires i <= |c.lines| && PositiveQuantities(c)
    ensures PeriodValue(SoldMovements(ms, c, i), p) == if p == PeriodFromTimestamp(c.timestamp) then -SoldValue(ms, c, i) else 0
    decreases |c.lines| - i
  {
    hide MovementOf, SaleMovement, AverageCost, PeriodFromTimestamp, Sum;
    if i == |c.lines| {
      NoFolds(p);
    } else {
      var m := MovementOf(ms, SaleMovement(ms, c, i));
      SaleMovementValue(ms, c, i);
      SoldPeriodValue(ms + [m], c, i + 1, p);
      SumConcat([m], SoldMovements(ms + [m], c, i + 1), ValueIn(p));
      SumOne(m, ValueIn(p));
    }
  }

  /** Every line fits in the stock, together with the other lines of its item. */
  predicate Enough(ms: seq<Movement>, c: InvoiceCommand) {
    forall i :: 0 <= i < |c.lines| ==> Sum(c.lines, Needs(c.lines[i].itemId)) <= StockOnHand(ms, c.lines[i].itemId)
  }

  /** The remainder of the item's value is smaller than what the earlier lines leave of it. */
  predicate StableLine(ms: seq<Movement>, c: InvoiceCommand, i: nat)
    requires i < |c.lines|
  {
    var id := c.lines[i].itemId;
    var q := StockOnHand(ms, id);
    q > 0 && InventoryValue(ms, id) % q < q - Sum(c.lines[..i], Needs(id))
  }

  /** The averages the invoice was costed at stay valid for each of its lines. */
  predicate StableAverages(ms: seq<Movement>, c: InvoiceCommand) {
    forall i :: 0 <= i < |c.lines| ==> StableLine(ms, c, i)
  }

  ghost predicate Tracked(start: seq<Movement>, ms: seq<Movement>, c: InvoiceCommand, i: nat)
    requires i <= |c.lines|
  {
    forall id ::
      && StockOnHand(ms, id) == StockOnHand(start, id) - Sum(c.lines[..i], Needs(id))
      && (StockOnHand(start, id) > 0 ==>
            Tracks(InventoryValue(start, id), StockOnHand(start, id), InventoryValue(ms, id), StockOnHand(ms, id)))
  }

  lemma StartTracked(ms: seq<Movement>, c: InvoiceCommand)
    ensures Tracked(ms, ms, c, 0)
  {
    hide StockOnHand, InventoryValue;
    forall id
      ensures StockOnHand(ms, id) > 0 ==>
        Tracks(InventoryValue(ms, id), StockOnHand(ms, id), InventoryValue(ms, id), StockOnHand(ms, id))
      ensures Sum(c.lines[..0], Needs(id)) == 0
    {
      var v, q := InventoryValue(ms, id), StockOnHand(ms, id);
      if q > 0 {
        FloorBounds(v, q);
        assert v == q * (v / q) + v % q;
      }
    }
  }

  lemma {:induction false} NeedsGrow(lines: seq<InvoiceLineCommand>, i: nat, id: string)
    requires i <= |lines| && forall k :: 0 <= k < |lines| ==> lines[k].quantity > 0
    ensures 0 <= Sum(lines[..i], Needs(id)) <= Sum(lines, Needs(id))
    decreases |lines|
  {
    if i == |lines| {
      assert lines[..i] == lines;
      if i > 0 {
        NeedsGrow(lines[..i - 1], i - 1, id);
        assert lines[..i - 1][..i - 1] == lines[..i - 1];
      }
    } else {
      var n := |lines| - 1;
      NeedsGrow(lines[..n], i, id);
      assert lines[..n][..i] == lines[..i];
    }
  }

  /** At line i there is enough of its item, what is left is what the earlier lines left, and the average
      there is the starting one exactly when the line is stable. */
  lemma AtLine(start: seq<Movement>, ms: seq<Movement>, c: InvoiceCommand, i: nat)
    requires i < |c.lines| && PositiveQuantities(c) && Enough(start, c) && Tracked(start, ms, c, i)
    ensures var id := c.lines[i].itemId;
      && 0 < c.lines[i].quantity <= StockOnHand(ms, id) <= StockOnHand(start, id)
      && AverageCost(ms, id) >= AverageCost(start, id)
      && (AverageCost(ms, id) == AverageCost(start, id) <==> StableLine(start, c, i))
  {
    hide StockOnHand, InventoryValue;
    var id := c.lines[i].itemId;
    NeedsGrow(c.lines, i, id);
    NeedsGrow(c.lines, i + 1, id);
    assert c.lines[..i + 1][..i] == c.lines[..i];
    assert Sum(c.lines, Needs(id)) <= StockOnHand(start, id);
    TrackedAverage(InventoryValue(start, id), StockOnHand(start, id), InventoryValue(ms, id), StockOnHand(ms, id));
  }

  lemma NextTracked(start: seq<Movement>, ms: seq<Movement>, c: InvoiceCommand, i: nat)
    requires i < |c.lines| && PositiveQuantities(c) && Enough(start, c) && Tracked(start, ms, c, i)
    ensures Tracked(start, ms + [MovementOf(ms, SaleMovement(ms, c, i))], c, i + 1)
  {
    hide StockOnHand, InventoryValue, MovementOf, SaleMovement, Tracks;
    var m := MovementOf(ms, SaleMovement(ms, c, i));
    var x, out := c.lines[i].itemId, c.lines[i].quantity;
    AtLine(start, ms, c, i);
    SaleMovementValue(ms, c, i);
    TrackStep(InventoryValue(start, x), StockOnHand(start, x), InventoryValue(ms, x), StockOnHand(ms, x), out);
    forall id
      ensures StockOnHand(ms + [m], id) == StockOnHand(start, id) - Sum(c.lines[..i + 1], Needs(id))
      ensures StockOnHand(start, id) > 0 ==>
        Tracks(InventoryValue(start, id), StockOnHand(start, id), InventoryValue(ms + [m], id), StockOnHand(ms + [m], id))
    {
      FoldsAdd(ms, m, id);
      assert c.lines[..i + 1][..i] == c.lines[..i];
    }
  }

  /** The costs of the lines from i on, at the averages before the invoice. */
  function CostFrom(ms: seq<Movement>, c: InvoiceCommand, i: nat): int
    requires i <= |c.lines|
    decreases |c.lines| - i
  {
    if i == |c.lines| then 0
    else c.lines[i].quantity * AverageCost(ms, c.lines[i].itemId) + CostFrom(ms, c, i + 1)
  }

  lemma {:induction false} CostFromIsTotal(ms: seq<Movement>, c: InvoiceCommand, i: nat)
    requires i <= |c.lines|
    ensures CostFrom(ms, c, i) == TotalCost(LineCosts(ms, c.lines)[i..])
    decreases |c.lines| - i
  {
    hide AverageCost, Sum;
    var costs := LineCosts(ms, c.lines);
    if i == |c.lines| {
      SumZero(costs[i..], Id());
    } else {
      CostFromIsTotal(ms, c, i + 1);
      assert costs[i..] == [costs[i]] + costs[i + 1..];
      SumConcat([costs[i]], costs[i + 1..], Id());
      SumOne(costs[i], Id());
    }
  }

  /** The movements take out at least the posted cost, and exactly that when every line is stable. */
  lemma {:induction false} SoldAtLeastCost(start: seq<Movement>, ms: seq<Movement>, c: InvoiceCommand, i: nat)
    requires i <= |c.lines| && PositiveQuantities(c) && Enough(start, c) && Tracked(start, ms, c, i)
    ensures SoldValue(ms, c, i) >= CostFrom(start, c, i)
    ensures SoldValue(ms, c, i) == CostFrom(start, c, i) <==> forall k :: i <= k < |c.lines| ==> StableLine(start, c, k)
    decreases |c.lines| - i
  {
    hide MovementOf, SaleMovement, AverageCost, Tracked, StableLine, Enough;
    if i < |c.lines| {
      var m := MovementOf(ms, SaleMovement(ms, c, i));
      AtLine(start, ms, c, i);
      NextTracked(start, ms, c, i);
      SoldAtLeastCost(start, ms + [m], c, i + 1);
      var now, then_, q := AverageCost(ms, c.lines[i].itemId), AverageCost(start, c.lines[i].itemId), c.lines[i].quantity;
      assert q * now >= q * then_ && (q * now == q * then_ <==> now == then_) by { TimesPositive(q, now, then_); }
    }
  }

  lemma TimesPositive(q: int, x: int, y: int)
    requires q > 0 && x >= y
    ensures q * x >= q * y && (q * x == q * y <==> x == y)
  {
  }

  // ---------------------------------------------------------------- invoices

  lemma {:induction false} ItemIsInOrder(lines: seq<InvoiceLineCommand>, i: nat)
    requires i < |lines|
    ensures lines[i].itemId in ItemsInOrder(lines)
  {
    var n := |lines| - 1;
    if i < n {
      ItemIsInOrder(lines[..n], i);
    }
  }

  lemma AcceptedIsEnough(b: Books, closed: set<string>, rate: int, c: InvoiceCommand)
    requires RefuseInvoice(b, closed, rate, c).None?
    ensures PositiveQuantities(c) && Enough(b.movements, c)
  {
    RefusedOrPositive(b, closed, rate, c);
    var order := ItemsInOrder(c.lines);
    forall i | 0 <= i < |c.lines|
      ensures Sum(c.lines, Needs(c.lines[i].itemId)) <= StockOnHand(b.movements, c.lines[i].itemId)
    {
      ItemIsInOrder(c.lines, i);
      var k :| 0 <= k < |order| && order[k] == c.lines[i].itemId;
      assert ItemStockError(b, order[k], Sum(c.lines, Needs(order[k]))).None?;
    }
  }

  lemma SaleLineTotals(currency: string, subtotal: int, tax: int, cogs: int)
    ensures var ls := SaleLines(currency, subtotal, tax, cogs);
      && Debited(ls, INVENTORY) == 0 && Credited(ls, INVENTORY) == cogs
      && Debited(ls, OUTPUT_TAX) == 0 && Credited(ls, OUTPUT_TAX) == tax
      && Credited(ls, SALES) == subtotal && Debited(ls, SALES_RETURNS) == 0
      && Debited(ls, COGS) == cogs && Credited(ls, COGS) == 0
  {
    hide Sum;
    var x, y := JournalLine(CASH, subtotal + tax, 0, currency), JournalLine(SALES, 0, subtotal, currency);
    var t := JournalLine(OUTPUT_TAX, 0, tax, currency);
    var g, h := JournalLine(COGS, cogs, 0, currency), JournalLine(INVENTORY, 0, cogs, currency);
    forall f: JournalLine -> int | (tax == 0 ==> f(t) == 0) && (cogs == 0 ==> f(g) == f(h) == 0)
      ensures Sum(SaleLines(currency, subtotal, tax, cogs), f) == f(x) + f(y) + f(t) + f(g) + f(h)
    {
      FiveLines(x, y, t, g, h, tax != 0, cogs != 0, f);
    }
  }

  /** Two lines, an optional one, an optional pair. */
  lemma FiveLines(x: JournalLine, y: JournalLine, t: JournalLine, g: JournalLine, h: JournalLine,
                  taxed: bool, costed: bool, f: JournalLine -> int)
    requires (!taxed ==> f(t) == 0) && (!costed ==> f(g) == f(h) == 0)
    ensures Sum([x, y] + (if taxed then [t] else []) + (if costed then [g, h] else []), f) == f(x) + f(y) + f(t) + f(g) + f(h)
  {
    hide Sum;
    var ts, gs := if taxed then [t] else [], if costed then [g, h] else [];
    SumConcat([x, y] + ts, gs, f);
    SumConcat([x, y], ts, f);
    SumTwo(x, y, f);
    SumTwo(g, h, f);
    SumOne(t, f);
    SumZero([], f);
  }

  lemma InvoiceCogsTotal(b: Books, c: InvoiceCommand, x: Invoice, p: string)
    requires PositiveQuantities(c) && x.invoiceId == c.invoiceId && x.periodId == c.periodId
    ensures Sum(InvoiceLines(b, c), CogsIn([x], p)) == if p == c.periodId then TotalCost(LineCosts(b.movements, c.lines)) else 0
  {
    hide Sum;
    var ls := InvoiceLines(b, c);
    assert PeriodOfInvoice([x], c.invoiceId) == Some(c.periodId);
    if p == c.periodId {
      SumPointwise(ls, CogsIn([x], p), LineCosts(b.movements, c.lines), Id());
    } else {
      SumZero(ls, CogsIn([x], p));
    }
  }

  function CogsOf(ms: seq<Movement>, c: InvoiceCommand): int { TotalCost(LineCosts(ms, c.lines)) }

  predicate Aligned(timestamp: string, periodId: string) { periodId == PeriodFromTimestamp(timestamp) }

  /** Only the inventory check depends on more than the invoice itself. */
  lemma InvoiceReport(b: Books, rate: int, c: InvoiceCommand, d: Books, p: string)
    requires PositiveQuantities(c)
    requires d.lines == LedgerLines(SaleJournal(rate, b.movements, c)) && d.movements == SoldMovements(b.movements, c, 0)
    requires d.invoices == [InvoiceOf(rate, c)] && d.invoiceLines == InvoiceLines(b, c)
    requires d.refunds == [] && d.refundLines == []
    ensures ReportOf(d, p).Passed() <==>
      (if p == PeriodFromTimestamp(c.timestamp) then SoldValue(b.movements, c, 0) else 0)
        == (if p == c.periodId then CogsOf(b.movements, c) else 0)
  {
    hide Sum, Debit, Credit, Debited, Credited, LedgerLines, DebitBalance, LineCosts, SoldMovements, SoldValue,
      InvoiceLines, PeriodFromTimestamp, Tax, PeriodValue;
    var x := InvoiceOf(rate, c);
    NoFolds(p);
    LedgerReport(d, SaleJournal(rate, b.movements, c), p);
    SaleLineTotals(c.currency, Subtotal(c), Tax(Subtotal(c), rate), CogsOf(b.movements, c));
    SoldPeriodValue(b.movements, c, 0, p);
    SumOne(x, SubtotalIn(p));
    SumOne(x, TaxIn(p));
    InvoiceCogsTotal(b, c, x, p);
  }

  lemma InvoiceLinked(b: Books, rate: int, c: InvoiceCommand, d: Books)
    requires PositiveQuantities(c) && !HasInvoice(b.invoices, c.invoiceId)
    requires d.invoices == [InvoiceOf(rate, c)] && d.invoiceLines == InvoiceLines(b, c) && d.refunds == []
      && d.refundLines == []
    ensures Linked(d) && Apart(b, d)
  {
    InvoiceKnown(b.invoices, c.invoiceId);
    InvoiceKnown(d.invoices, c.invoiceId);
    assert d.invoices[0].invoiceId == c.invoiceId;
  }

  /** The records of an invoice reconcile on their own exactly under the same condition. */
  lemma InvoiceCondition(b: Books, rate: int, c: InvoiceCommand, d: Books)
    requires PositiveQuantities(c) && Enough(b.movements, c)
    requires d.lines == LedgerLines(SaleJournal(rate, b.movements, c)) && d.movements == SoldMovements(b.movements, c, 0)
    requires d.invoices == [InvoiceOf(rate, c)] && d.invoiceLines == InvoiceLines(b, c)
    requires d.refunds == [] && d.refundLines == []
    ensures Reconciled(d) <==>
      StableAverages(b.movements, c) && (Aligned(c.timestamp, c.periodId) || CogsOf(b.movements, c) == 0)
  {
    hide ReportOf, LedgerLines, SoldMovements, InvoiceLines, SaleJournal, InvoiceOf, SoldValue, StableLine, LineCosts,
      PeriodFromTimestamp, Sum, Enough, PositiveQuantities;
    StartTracked(b.movements, c);
    SoldAtLeastCost(b.movements, b.movements, c, 0);
    CostFromIsTotal(b.movements, c, 0);
    assert LineCosts(b.movements, c.lines)[0..] == LineCosts(b.movements, c.lines);
    forall q
      ensures ReportOf(d, q).Passed() <==>
        (if q == PeriodFromTimestamp(c.timestamp) then SoldValue(b.movements, c, 0) else 0)
          == (if q == c.periodId then CogsOf(b.movements, c) else 0)
    {
      InvoiceReport(b, rate, c, d, q);
    }
    var stock := PeriodFromTimestamp(c.timestamp);
    assert ReportOf(d, c.periodId).Passed() == ReportOf(d, c.periodId).Passed();
    assert ReportOf(d, stock).Passed() == ReportOf(d, stock).Passed();
  }

  /** A completed invoice keeps reconciled books reconciled exactly when the averages stay valid along its
      lines and its period is the one of its timestamp, the period only mattering if there is a cost. */
  lemma InvoiceReconciles(b: Books, closed: set<string>, p: Policy, c: InvoiceCommand)
    requires InvoicePlan(b, closed, p, c).Succeeds() && Linked(b) && Reconciled(b)
    ensures Reconciled(ApplyAll(b, InvoicePlan(b, closed, p, c).steps)) <==>
      StableAverages(b.movements, c) && (Aligned(c.timestamp, c.periodId) || CogsOf(b.movements, c) == 0)
  {
    InvoiceAccepted(b, closed, p, c);
    InvoiceWrites(b, closed, p, c);
    hide *;
    var steps := InvoicePlan(b, closed, p, c).steps;
    var d := Domain(Written(steps));
    InvoiceLinked(b, p.taxRate, c, d);
    CompletedReconciles(b, steps, d);
    InvoiceCondition(b, p.taxRate, c, d);
  }

  lemma InvoiceAccepted(b: Books, closed: set<string>, p: Policy, c: InvoiceCommand)
    requires InvoicePlan(b, closed, p, c).Succeeds()
    ensures RefuseInvoice(b, closed, p.taxRate, c).None? && !HasInvoice(b.invoices, c.invoiceId)
    ensures PositiveQuantities(c) && Enough(b.movements, c)
  {
    hide JournalPlan, SaleMovements, InvoiceLines, SaleJournal, InvoiceOf, Transaction, Enough, PositiveQuantities;
    AcceptedIsEnough(b, closed, p.taxRate, c);
  }

  /** One line for each item always keeps the averages valid, also when the items are sold out. */
  lemma DistinctItemsAreStable(ms: seq<Movement>, c: InvoiceCommand)
    requires PositiveQuantities(c) && Enough(ms, c)
    requires forall i, j :: 0 <= i < j < |c.lines| ==> c.lines[i].itemId != c.lines[j].itemId
    ensures StableAverages(ms, c)
  {
    hide StockOnHand, InventoryValue;
    forall i | 0 <= i < |c.lines|
      ensures StableLine(ms, c, i)
    {
      var id := c.lines[i].itemId;
      SumZero(c.lines[..i], Needs(id));
      NeedsGrow(c.lines, i + 1, id);
      assert c.lines[..i + 1][..i] == c.lines[..i];
    }
  }

  /** Two lines of one item can cost less than they take out of stock: value 5 on 3 units, sold as 2 and 1. */
  lemma RepeatedItemCanBreak(ms: seq<Movement>, c: InvoiceCommand, id: string)
    requires StockOnHand(ms, id) == 3 && InventoryValue(ms, id) == 5
    requires |c.lines| == 2 && c.lines[0].itemId == c.lines[1].itemId == id
    requires c.lines[0].quantity == 2 && c.lines[1].quantity == 1
    ensures CogsOf(ms, c) == 3 && SoldValue(ms, c, 0) == 5 && !StableAverages(ms, c)
  {
    hide StockOnHand, InventoryValue;
    var m := MovementOf(ms, SaleMovement(ms, c, 0));
    SaleMovementValue(ms, c, 0);
    FoldsAdd(ms, m, id);
    CostFromIsTotal(ms, c, 0);
    assert LineCosts(ms, c.lines)[0..] == LineCosts(ms, c.lines);
    assert CostFrom(ms, c, 1) == 1;
    assert SoldValue(ms + [m], c, 1) == 3;
    assert c.lines[..1] == [c.lines[0]];
    SumOne(c.lines[0], Needs(id));
    assert !StableLine(ms, c, 1);
  }

  /** Such a stock exists: two units bought at one and one at three. */
  lemma RepeatedItemExample(first: Movement, second: Movement, c: InvoiceCommand)
    requires first.itemId == second.itemId && first.quantityDelta == 2 && first.valueDelta == 2
    requires second.quantityDelta == 1 && second.valueDelta == 3
    requires c.lines == [InvoiceLineCommand(first.itemId, "", 2, 10), InvoiceLineCommand(first.itemId, "", 1, 10)]
    ensures PositiveQuantities(c) && Enough([first, second], c)
    ensures CogsOf([first, second], c) == 3 && SoldValue([first, second], c, 0) == 5
  {
    hide Sum, SoldValue, CogsOf;
    var id := first.itemId;
    SumTwo(first, second, Restrict(ItemOf(), id, Quantity()));
    SumTwo(first, second, Restrict(ItemOf(), id, Value()));
    SumTwo(c.lines[0], c.lines[1], Needs(id));
    RepeatedItemCanBreak([first, second], c, id);
  }
}
