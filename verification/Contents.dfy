/** What a completed invoice and a completed refund leave in the files, field by field. */
module Contents {
  import opened Books
  import opened Accounting
  import opened Inventory
  import opened Billing
  import opened Valuation
  import opened Writes
  import opened UseCases
  import opened Agreement
  import opened SaleAgreement
  import opened ReturnAgreement
  import opened Runs
  import opened Appends
  import opened AppendRuns
  import opened Admission
  import StockPrices

  /** The quotient, rounded down. */
  predicate Floor(price: int, value: int, quantity: int) {
    quantity > 0 && price * quantity <= value < (price + 1) * quantity
  }

  /** The business unit in the item's last registration. */
  predicate UnitOf(items: seq<Item>, itemId: string, unit: string) {
    (exists i :: 0 <= i < |items| && items[i].itemId == itemId && items[i].businessUnit == unit
       && forall j :: i < j < |items| ==> items[j].itemId != itemId)
    || (unit == "retail" && forall j :: 0 <= j < |items| ==> items[j].itemId != itemId)
  }

  lemma {:induction false} UnitFound(items: seq<Item>, itemId: string)
    ensures UnitOf(items, itemId, BusinessUnit(items, itemId))
  {
    FoundItem(items, itemId);
    hide FindItem;
  }

  predicate MonthOf(timestamp: string, periodId: string) {
    periodId == "FY" + (if |timestamp| < 7 then timestamp else timestamp[..7])
  }

  /** One entry for the document, and lines numbered from 1 in its period and currency. */
  predicate JournalAdded(b: Books, r: Books, journalId: string, document: string, periodId: string, currency: string) {
    && |r.entries| == |b.entries| + 1 && b.entries <= r.entries && b.lines <= r.lines
    && (var e := r.entries[|b.entries|];
        && e.journalId == journalId && e.sourceModule == "billing" && e.sourceDocumentId == document
        && e.periodId == periodId && e.currency == currency)
    && forall i :: |b.lines| <= i < |r.lines| ==>
         && r.lines[i].journalId == journalId && r.lines[i].lineNo == i - |b.lines| + 1
         && r.lines[i].periodId == periodId && r.lines[i].currency == currency
  }

  // ---------------------------------------------------------------- invoices

  predicate InvoiceOn(rate: int, c: InvoiceCommand, x: Invoice) {
    && x.invoiceId == c.invoiceId && x.periodId == c.periodId && x.currency == c.currency
    && x.journalId == "jrn_" + c.invoiceId
    && x.subtotal == Sum(c.lines, (l: InvoiceLineCommand) => l.quantity * l.unitPrice)
    && FloorTax(rate, x.subtotal, x.tax) && x.total == x.subtotal + x.tax
    && |x.movementIds| == |c.lines|
         && forall i: nat :: i < |c.lines| ==> x.movementIds[i] == Numbered("mov_" + c.invoiceId, i)
  }

  /** The line asked for, costed at what the item was worth before the invoice. */
  predicate LineOn(b: Books, c: InvoiceCommand, i: nat, l: InvoiceLine)
    requires i < |c.lines|
  {
    var asked := c.lines[i];
    && l.invoiceId == c.invoiceId && l.lineNo == i + 1 && l.itemId == asked.itemId && l.description == asked.description
    && l.quantity == asked.quantity && l.unitPrice == asked.unitPrice && l.subtotal == asked.quantity * asked.unitPrice
    && l.currency == c.currency && UnitOf(b.items, asked.itemId, l.businessUnit)
    && Floor(l.cogsUnitCost, InventoryValue(b.movements, asked.itemId), StockOnHand(b.movements, asked.itemId))
    && l.cogs == asked.quantity * l.cogsUnitCost
  }

  /** The quantity of the line leaves the stock, at what the item is worth when it does. */
  predicate MovedOut(ms: seq<Movement>, c: InvoiceCommand, i: nat, m: Movement)
    requires i < |c.lines|
  {
    var asked := c.lines[i];
    && m.movementId == Numbered("mov_" + c.invoiceId, i) && m.itemId == asked.itemId
    && m.movementType == StockOut && m.quantityDelta == -asked.quantity
    && m.sourceDocumentId == c.invoiceId && MonthOf(c.timestamp, m.periodId)
    && Floor(m.unitCost, InventoryValue(ms, asked.itemId), StockOnHand(ms, asked.itemId))
    && m.valueDelta == -(asked.quantity * m.unitCost)
  }

  /** What the invoice posts: its total in cash (1000), its tax (2100) and subtotal (4000) on the other side, and its
      cost from the inventory (1200) to the cost of goods sold (5000). */
  function SaleAmount(x: Invoice, cost: int, a: Account): int {
    if a == 1000 then x.total else if a == 2100 then -x.tax else if a == 4000 then -x.subtotal
    else if a == 5000 then cost else if a == 1200 then -cost else 0
  }

  predicate LinesOn(b: Books, c: InvoiceCommand, ls: seq<InvoiceLine>) {
    |ls| == |c.lines| && forall i :: 0 <= i < |ls| ==> LineOn(b, c, i, ls[i])
  }

  predicate AllMovedOut(ms: seq<Movement>, c: InvoiceCommand, i: nat, sold: seq<Movement>) {
    i + |sold| == |c.lines| && forall k :: 0 <= k < |sold| ==> MovedOut(ms + sold[..k], c, i + k, sold[k])
  }

  ghost predicate SaleStored(b: Books, r: Books, rate: int, c: InvoiceCommand) {
    && r.items == b.items && r.periods == b.periods && r.refunds == b.refunds && r.refundLines == b.refundLines
    && b.invoices <= r.invoices && b.invoiceLines <= r.invoiceLines && b.movements <= r.movements
    && |r.invoices| == |b.invoices| + 1 && InvoiceOn(rate, c, r.invoices[|b.invoices|])
    && LinesOn(b, c, r.invoiceLines[|b.invoiceLines|..]) && AllMovedOut(b.movements, c, 0, r.movements[|b.movements|..])
    && JournalAdded(b, r, "jrn_" + c.invoiceId, c.invoiceId, c.periodId, c.currency)
    && (var cost := Sum(r.invoiceLines[|b.invoiceLines|..], (l: InvoiceLine) => l.cogs);
        forall a: Account :: Posted(r.lines[|b.lines|..], "jrn_" + c.invoiceId, a)
          == SaleAmount(r.invoices[|b.invoices|], cost, a))
  }

  lemma AverageIsFloor(ms: seq<Movement>, itemId: string)
    requires StockOnHand(ms, itemId) > 0
    ensures Floor(AverageCost(ms, itemId), InventoryValue(ms, itemId), StockOnHand(ms, itemId))
  {
    hide StockOnHand, InventoryValue;
    FloorBounds(InventoryValue(ms, itemId), StockOnHand(ms, itemId));
  }

  lemma SoldAtAverage(ms: seq<Movement>, c: InvoiceCommand, i: nat)
    requires i < |c.lines| && c.lines[i].quantity > 0 && StockOnHand(ms, c.lines[i].itemId) > 0
    ensures MovedOut(ms, c, i, MovementOf(ms, SaleMovement(ms, c, i)))
  {
    AverageIsFloor(ms, c.lines[i].itemId);
    SaleMovementValue(ms, c, i);
    hide StockOnHand, InventoryValue, Floor;
    assert SaleMovementId(c.invoiceId, i) == Numbered("mov_" + c.invoiceId, i);
  }

  lemma {:induction false} SoldInOrder(start: seq<Movement>, ms: seq<Movement>, c: InvoiceCommand, i: nat)
    requires i <= |c.lines| && PositiveQuantities(c) && Enough(start, c) && Tracked(start, ms, c, i)
    ensures AllMovedOut(ms, c, i, SoldMovements(ms, c, i))
    decreases |c.lines| - i
  {
    hide MovementOf, SaleMovement, MovedOut, Enough, Tracked;
    if i < |c.lines| {
      var m := MovementOf(ms, SaleMovement(ms, c, i));
      AtLine(start, ms, c, i);
      SoldAtAverage(ms, c, i);
      NextTracked(start, ms, c, i);
      SoldInOrder(start, ms + [m], c, i + 1);
      var rest, sold := SoldMovements(ms + [m], c, i + 1), SoldMovements(ms, c, i);
      assert ms + sold[..0] == ms;
      forall k | 0 < k < |sold|
        ensures MovedOut(ms + sold[..k], c, i + k, sold[k])
      {
        assert ms + sold[..k] == ms + [m] + rest[..k - 1];
        assert MovedOut(ms + [m] + rest[..k - 1], c, i + 1 + (k - 1), rest[k - 1]);
      }
    }
  }

  lemma LineIsOn(b: Books, c: InvoiceCommand, i: nat)
    requires i < |c.lines| && c.lines[i].quantity > 0 && StockOnHand(b.movements, c.lines[i].itemId) > 0
    ensures LineOn(b, c, i, InvoiceLineOf(b, c, i))
  {
    UnitFound(b.items, c.lines[i].itemId);
    AverageIsFloor(b.movements, c.lines[i].itemId);
    hide StockOnHand, InventoryValue, Floor, UnitOf, BusinessUnit, AverageCost;
    ExactQuotient(c.lines[i].quantity, AverageCost(b.movements, c.lines[i].itemId));
  }

  lemma InvoiceIsOn(rate: int, c: InvoiceCommand)
    ensures InvoiceOn(rate, c, InvoiceOf(rate, c))
  {
    InvoiceAmount(c);
    FloorIsTax(Subtotal(c), rate);
    hide Sum, Tax, Subtotal, FloorTax;
  }

  lemma CostOfLines(b: Books, c: InvoiceCommand)
    requires PositiveQuantities(c)
    ensures Sum(InvoiceLines(b, c), (l: InvoiceLine) => l.cogs) == CogsOf(b.movements, c)
  {
    SumPointwise(InvoiceLines(b, c), (l: InvoiceLine) => l.cogs, LineCosts(b.movements, c.lines), Id());
  }

  lemma SaleAmounts(currency: string, x: Invoice, cogs: int, a: Account)
    requires x.total == x.subtotal + x.tax
    ensures var ls := SaleLines(currency, x.subtotal, x.tax, cogs);
      Debited(ls, a) - Credited(ls, a) == SaleAmount(x, cogs, a)
  {
    hide Sum;
    var y, z := JournalLine(CASH, x.total, 0, currency), JournalLine(SALES, 0, x.subtotal, currency);
    var t := JournalLine(OUTPUT_TAX, 0, x.tax, currency);
    var g, h := JournalLine(COGS, cogs, 0, currency), JournalLine(INVENTORY, 0, cogs, currency);
    FiveLines(y, z, t, g, h, x.tax != 0, cogs != 0, DebitTo(a));
    FiveLines(y, z, t, g, h, x.tax != 0, cogs != 0, CreditTo(a));
  }

  /** The journal of a document, appended. */
  lemma JournalIsAdded(b: Books, r: Books, j: PostCommand, document: string)
    requires j.lines != [] && j.sourceModule == "billing" && j.sourceDocumentId == document && OneCurrency(j.lines)
    requires r.entries == b.entries + [EntryOf(j)] && r.lines == b.lines + LedgerLines(j)
    ensures JournalAdded(b, r, j.journalId, document, j.periodId, j.lines[0].currency)
  {
    hide Sum;
    forall i | |b.lines| <= i < |r.lines|
      ensures r.lines[i] == LedgerLines(j)[i - |b.lines|]
    {
    }
  }

  lemma SaleCurrency(currency: string, subtotal: int, tax: int, cogs: int)
    ensures var ls := SaleLines(currency, subtotal, tax, cogs);
      ls != [] && OneCurrency(ls) && ls[0].currency == currency
  {
  }

  lemma SaleJournalAdded(b: Books, r: Books, rate: int, c: InvoiceCommand)
    requires var j := SaleJournal(rate, b.movements, c);
      j.lines != [] && r.entries == b.entries + [EntryOf(j)] && r.lines == b.lines + LedgerLines(j)
    ensures JournalAdded(b, r, "jrn_" + c.invoiceId, c.invoiceId, c.periodId, c.currency)
    ensures forall a: Account ::
      Posted(r.lines[|b.lines|..], "jrn_" + c.invoiceId, a) == SaleAmount(InvoiceOf(rate, c), CogsOf(b.movements, c), a)
  {
    var j, x := SaleJournal(rate, b.movements, c), InvoiceOf(rate, c);
    SaleFields(rate, b.movements, c);
    SaleCurrency(c.currency, x.subtotal, x.tax, CogsOf(b.movements, c));
    assert j.journalId == "jrn_" + c.invoiceId;
    hide SaleJournal, InvoiceOf, SaleLines, LedgerLines, EntryOf, CogsOf, Posted, SaleAmount, JournalAdded,
      OneCurrency, Debited, Credited;
    JournalIsAdded(b, r, j, c.invoiceId);
    assert r.lines[|b.lines|..] == LedgerLines(j);
    forall a: Account
      ensures Posted(LedgerLines(j), j.journalId, a) == SaleAmount(x, CogsOf(b.movements, c), a)
    {
      PostedBy(j, a);
      SaleAmounts(c.currency, x, CogsOf(b.movements, c), a);
    }
  }

  lemma StockForLines(ms: seq<Movement>, c: InvoiceCommand)
    requires PositiveQuantities(c) && Enough(ms, c)
    ensures forall i :: 0 <= i < |c.lines| ==> StockOnHand(ms, c.lines[i].itemId) > 0
    ensures AllMovedOut(ms, c, 0, SoldMovements(ms, c, 0))
  {
    hide StockOnHand, InventoryValue, AllMovedOut, Enough, Tracks;
    StartTracked(ms, c);
    forall i | 0 <= i < |c.lines|
      ensures StockOnHand(ms, c.lines[i].itemId) > 0
    {
      assert Sum(c.lines, Needs(c.lines[i].itemId)) <= StockOnHand(ms, c.lines[i].itemId) by {
        EnoughAt(ms, c, i);
      }
      PositiveNeed(c.lines, i);
    }
    SoldInOrder(ms, ms, c, 0);
  }

  lemma EnoughAt(ms: seq<Movement>, c: InvoiceCommand, i: nat)
    requires i < |c.lines| && Enough(ms, c)
    ensures Sum(c.lines, Needs(c.lines[i].itemId)) <= StockOnHand(ms, c.lines[i].itemId)
  {
  }

  lemma SaleFiles(b: Books, p: Policy, c: InvoiceCommand)
    requires PlanOf(b, p, Sell(c)).Succeeds()
    ensures PositiveQuantities(c) && Enough(b.movements, c)
    ensures var r, j := Exec(b, p, Sell(c)), SaleJournal(p.taxRate, b.movements, c);
      && j.lines != [] && r.entries == b.entries + [EntryOf(j)] && r.lines == b.lines + LedgerLines(j)
      && r.items == b.items && r.periods == b.periods && r.refunds == b.refunds && r.refundLines == b.refundLines
      && r.invoices == b.invoices + [InvoiceOf(p.taxRate, c)] && r.invoiceLines == b.invoiceLines + InvoiceLines(b, c)
      && r.movements == b.movements + SoldMovements(b.movements, c, 0)
  {
    var closed := ClosedPeriods(b);
    var steps := InvoicePlan(b, closed, p, c).steps;
    assert PlanOf(b, p, Sell(c)) == InvoicePlan(b, closed, p, c);
    InvoiceAccepted(b, closed, p, c);
    AcceptedIsEnough(b, closed, p.taxRate, c);
    JournalHasLines(p.taxRate, b, c);
    hide *;
    InvoiceWrites(b, closed, p, c);
    ExecIs(b, p, Sell(c));
    WritesAdd(b, steps);
    SameFiles(Written(steps));
  }

  lemma LinesAreOn(b: Books, c: InvoiceCommand)
    requires PositiveQuantities(c) && forall i :: 0 <= i < |c.lines| ==> StockOnHand(b.movements, c.lines[i].itemId) > 0
    ensures LinesOn(b, c, InvoiceLines(b, c))
  {
    hide StockOnHand, LineOn, InvoiceLineOf;
    forall i | 0 <= i < |c.lines|
      ensures LineOn(b, c, i, InvoiceLines(b, c)[i])
    {
      LineIsOn(b, c, i);
    }
  }

  /** A completed invoice leaves one invoice, its lines, a movement for each and one journal; nothing else. */
  lemma SaleStores(b: Books, p: Policy, c: InvoiceCommand)
    requires PlanOf(b, p, Sell(c)).Succeeds()
    ensures SaleStored(b, Exec(b, p, Sell(c)), p.taxRate, c)
  {
    hide Exec, PlanOf, SaleJournal, InvoiceOf, InvoiceLines, SoldMovements, Enough, PositiveQuantities, JournalAdded,
      SaleAmount, Posted, Sum, InvoiceOn, LinesOn, AllMovedOut, LedgerLines, EntryOf, CogsOf, StockOnHand;
    var r := Exec(b, p, Sell(c));
    SaleFiles(b, p, c);
    StockForLines(b.movements, c);
    SaleJournalAdded(b, r, p.taxRate, c);
    InvoiceIsOn(p.taxRate, c);
    LinesAreOn(b, c);
    CostOfLines(b, c);
    assert r.invoiceLines[|b.invoiceLines|..] == InvoiceLines(b, c)
      && r.movements[|b.movements|..] == SoldMovements(b.movements, c, 0);
  }

  lemma JournalHasLines(rate: int, b: Books, c: InvoiceCommand)
    ensures SaleJournal(rate, b.movements, c).lines != []
  {
    hide Sum, LineCosts;
  }

  // ---------------------------------------------------------------- refunds

  function Restock(): RefundLineCommand -> int { (l: RefundLineCommand) => if l.restock then 1 else 0 }

  /** How many of the lines are restocked. */
  function Restocks(ls: seq<RefundLineCommand>): int { Sum(ls, Restock()) }

  /** The unit cost the invoice posted for the item at the price, rounded down. */
  predicate CostOn(b: Books, c: RefundCommand, i: nat, unitCost: int)
    requires i < |c.lines|
  {
    var itemId, unitPrice := c.lines[i].itemId, c.lines[i].unitPrice;
    var sold := Sum(b.invoiceLines, (l: InvoiceLine) =>
      if l.invoiceId == c.originalInvoiceId && l.itemId == itemId && l.unitPrice == unitPrice then l.quantity else 0);
    var cost := Sum(b.invoiceLines, (l: InvoiceLine) =>
      if l.invoiceId == c.originalInvoiceId && l.itemId == itemId && l.unitPrice == unitPrice then l.cogs else 0);
    if sold > 0 then Floor(unitCost, cost, sold) else unitCost == 0
  }

  /** Line by line, what came back keeps its place among the restocked lines. */
  predicate IdsOn(c: RefundCommand, n: nat, ids: seq<string>)
    requires n <= |c.lines|
  {
    |ids| == Restocks(c.lines[..n])
    && forall k :: 0 <= k < n && c.lines[k].restock ==>
         (var at := Restocks(c.lines[..k]); 0 <= at < |ids| && ids[at] == Numbered("mov_refund_" + c.refundId, k))
  }

  predicate RefundOn(rate: int, c: RefundCommand, x: Refund) {
    && x.refundId == c.refundId && x.originalInvoiceId == c.originalInvoiceId && x.periodId == c.periodId
    && x.currency == c.currency
    && x.journalId == "jrn_refund_" + c.refundId
    && x.subtotal == Sum(c.lines, (l: RefundLineCommand) => l.quantity * l.unitPrice)
    && FloorTax(rate, x.subtotal, x.tax) && x.total == x.subtotal + x.tax && IdsOn(c, |c.lines|, x.movementIds)
  }

  predicate ReturnedOn(b: Books, c: RefundCommand, i: nat, l: RefundLine)
    requires i < |c.lines|
  {
    var asked := c.lines[i];
    && l.refundId == c.refundId && l.lineNo == i + 1 && l.itemId == asked.itemId && l.description == asked.description
    && l.quantity == asked.quantity && l.unitPrice == asked.unitPrice && l.subtotal == asked.quantity * asked.unitPrice
    && l.restock == asked.restock && l.currency == c.currency && UnitOf(b.items, asked.itemId, l.businessUnit)
    && (if asked.restock then CostOn(b, c, i, l.cogsUnitCost) else l.cogsUnitCost == 0)
    && l.cogs == asked.quantity * l.cogsUnitCost
  }

  predicate AllReturnedOn(b: Books, c: RefundCommand, ls: seq<RefundLine>) {
    |ls| == |c.lines| && forall i :: 0 <= i < |ls| ==> ReturnedOn(b, c, i, ls[i])
  }

  /** The quantity of the line comes back to the stock at the cost the invoice posted for it. */
  predicate MovedIn(b: Books, c: RefundCommand, i: nat, m: Movement)
    requires i < |c.lines|
  {
    var asked := c.lines[i];
    && m.movementId == Numbered("mov_refund_" + c.refundId, i) && m.itemId == asked.itemId
    && m.movementType == StockIn && m.quantityDelta == asked.quantity
    && m.sourceDocumentId == c.refundId && MonthOf(c.timestamp, m.periodId)
    && CostOn(b, c, i, m.unitCost) && m.valueDelta == asked.quantity * m.unitCost
  }

  predicate AllMovedIn(b: Books, c: RefundCommand, i: nat, moves: seq<Movement>)
    requires i <= |c.lines|
  {
    |moves| == Restocks(c.lines[i..])
    && forall k :: i <= k < |c.lines| && c.lines[k].restock ==>
         (var at := Restocks(c.lines[i..k]); 0 <= at < |moves| && MovedIn(b, c, k, moves[at]))
  }

  /** What the refund posts: its total out of cash (1000), its tax (2100) and subtotal (4100) taken back, and its
      restored cost from the cost of goods sold (5000) to the inventory (1200). */
  function ReturnAmount(x: Refund, restored: int, a: Account): int {
    if a == 1000 then -x.total else if a == 2100 then x.tax else if a == 4100 then x.subtotal
    else if a == 1200 then restored else if a == 5000 then -restored else 0
  }

  ghost predicate ReturnStored(b: Books, r: Books, rate: int, c: RefundCommand) {
    && r.items == b.items && r.periods == b.periods && r.invoices == b.invoices && r.invoiceLines == b.invoiceLines
    && b.refunds <= r.refunds && b.refundLines <= r.refundLines && b.movements <= r.movements
    && |r.refunds| == |b.refunds| + 1 && RefundOn(rate, c, r.refunds[|b.refunds|])
    && AllReturnedOn(b, c, r.refundLines[|b.refundLines|..]) && AllMovedIn(b, c, 0, r.movements[|b.movements|..])
    && JournalAdded(b, r, "jrn_refund_" + c.refundId, c.refundId, c.periodId, c.currency)
    && (var x, restored := r.refunds[|b.refunds|], Sum(r.refundLines[|b.refundLines|..], (l: RefundLine) => l.cogs);
        x.cogsRestored == restored
        && forall a: Account :: Posted(r.lines[|b.lines|..], "jrn_refund_" + c.refundId, a)
             == ReturnAmount(x, restored, a))
  }

  lemma UnitCogsIsCost(b: Books, c: RefundCommand, i: nat)
    requires i < |c.lines|
    ensures CostOn(b, c, i, UnitCogs(b, c.originalInvoiceId, LineKey(c.lines[i].itemId, c.lines[i].unitPrice)))
  {
    var itemId, unitPrice := c.lines[i].itemId, c.lines[i].unitPrice;
    SoldSums(b, c.originalInvoiceId, itemId, unitPrice);
    hide Sum, Sold, SoldCost;
    var k := LineKey(itemId, unitPrice);
    if Sold(b, c.originalInvoiceId, k) > 0 {
      FloorBounds(SoldCost(b, c.originalInvoiceId, k), Sold(b, c.originalInvoiceId, k));
    }
  }

  lemma RestoredExactly(b: Books, c: RefundCommand, i: nat)
    requires i < |c.lines| && c.lines[i].quantity > 0
    ensures var u := UnitCogs(b, c.originalInvoiceId, LineKey(c.lines[i].itemId, c.lines[i].unitPrice));
      if c.lines[i].restock then RestoredCost(b, c, i) == c.lines[i].quantity * u
        && RestoredCost(b, c, i) / c.lines[i].quantity == u
      else RestoredCost(b, c, i) == 0 && RestoredCost(b, c, i) / c.lines[i].quantity == 0
  {
    hide UnitCogs;
    ExactQuotient(c.lines[i].quantity,
                  UnitCogs(b, c.originalInvoiceId, LineKey(c.lines[i].itemId, c.lines[i].unitPrice)));
    ExactQuotient(c.lines[i].quantity, 0);
  }

  lemma ReturnIsOn(b: Books, c: RefundCommand, i: nat)
    requires i < |c.lines| && c.lines[i].quantity > 0
    ensures ReturnedOn(b, c, i, RefundLineOf(b, c, i))
  {
    UnitFound(b.items, c.lines[i].itemId);
    UnitCogsIsCost(b, c, i);
    RestoredExactly(b, c, i);
    hide CostOn, UnitOf, BusinessUnit, UnitCogs, RestoredCost;
  }

  lemma MovedInAtCost(ms: seq<Movement>, b: Books, c: RefundCommand, i: nat)
    requires i < |c.lines| && c.lines[i].quantity > 0 && c.lines[i].restock
    ensures MovedIn(b, c, i, MovementOf(ms, RefundMovement(b, c, i)))
  {
    UnitCogsIsCost(b, c, i);
    RestoredExactly(b, c, i);
    hide StockOnHand, InventoryValue, CostOn, UnitCogs, RestoredCost;
    assert RefundMovementId(c.refundId, i) == Numbered("mov_refund_" + c.refundId, i);
  }

  lemma RestocksFirst(ls: seq<RefundLineCommand>)
    requires ls != []
    ensures Restocks(ls) == Restock()(ls[0]) + Restocks(ls[1..])
  {
    hide Sum;
    assert ls == [ls[0]] + ls[1..];
    SumConcat([ls[0]], ls[1..], Restock());
    SumOne(ls[0], Restock());
  }

  lemma {:induction false} RestockedInOrder(ms: seq<Movement>, b: Books, c: RefundCommand, i: nat)
    requires i <= |c.lines| && PositiveRequests(c)
    ensures AllMovedIn(b, c, i, RestockedMovements(ms, b, c, i))
    decreases |c.lines| - i
  {
    hide MovementOf, RefundMovement, MovedIn;
    if i < |c.lines| {
      var moves := RestockedMovements(ms, b, c, i);
      var m := MovementOf(ms, RefundMovement(b, c, i));
      var rest := if c.lines[i].restock then RestockedMovements(ms + [m], b, c, i + 1) else moves;
      RestockedInOrder(if c.lines[i].restock then ms + [m] else ms, b, c, i + 1);
      RestocksFirst(c.lines[i..]);
      assert c.lines[i..][1..] == c.lines[i + 1..];
      hide Restocks;
      if c.lines[i].restock {
        MovedInAtCost(ms, b, c, i);
        NoRestocks();
        assert c.lines[i..i] == [];
      }
      forall k | i < k < |c.lines| && c.lines[k].restock
        ensures var at := Restocks(c.lines[i..k]); 0 <= at < |moves| && MovedIn(b, c, k, moves[at])
      {
        RestocksFirst(c.lines[i..k]);
        assert c.lines[i..k][1..] == c.lines[i + 1..k];
        var at := Restocks(c.lines[i + 1..k]);
        assert 0 <= at < |rest| && MovedIn(b, c, k, rest[at]);
      }
    }
  }

  lemma NoRestocks()
    ensures Restocks([]) == 0
  {
  }

  lemma {:induction false} IdsInOrder(c: RefundCommand, n: nat)
    requires n <= |c.lines|
    ensures IdsOn(c, n, RefundMovementIds(c, n))
  {
    if n > 0 {
      IdsInOrder(c, n - 1);
      assert c.lines[..n][..n - 1] == c.lines[..n - 1];
      assert RefundMovementId(c.refundId, n - 1) == Numbered("mov_refund_" + c.refundId, n - 1);
      var before, ids := RefundMovementIds(c, n - 1), RefundMovementIds(c, n);
      assert Restocks(c.lines[..n]) == Restocks(c.lines[..n - 1]) + Restock()(c.lines[n - 1]);
      hide Restocks, Numbered, RefundMovementId;
      forall k | 0 <= k < n && c.lines[k].restock
        ensures var at := Restocks(c.lines[..k]); 0 <= at < |ids| && ids[at] == Numbered("mov_refund_" + c.refundId, k)
      {
        if k < n - 1 {
          assert before[Restocks(c.lines[..k])] == Numbered("mov_refund_" + c.refundId, k);
        }
      }
    }
  }

  lemma RefundIsOn(rate: int, b: Books, c: RefundCommand)
    ensures RefundOn(rate, c, RefundOf(rate, b, c)) && RefundOf(rate, b, c).cogsRestored == RestoredOf(b, c)
  {
    Admission.RefundAmount(c);
    FloorIsTax(RefundSubtotal(c), rate);
    IdsInOrder(c, |c.lines|);
    hide Sum, Tax, RefundSubtotal, FloorTax, IdsOn, RestoredCosts, RefundMovementIds;
  }

  lemma AllAreReturned(b: Books, c: RefundCommand)
    requires PositiveRequests(c)
    ensures AllReturnedOn(b, c, RefundLines(b, c))
  {
    hide ReturnedOn, RefundLineOf;
    forall i | 0 <= i < |c.lines|
      ensures ReturnedOn(b, c, i, RefundLines(b, c)[i])
    {
      ReturnIsOn(b, c, i);
    }
  }

  lemma CostRestored(b: Books, c: RefundCommand)
    requires PositiveRequests(c)
    ensures Sum(RefundLines(b, c), (l: RefundLine) => l.cogs) == RestoredOf(b, c)
  {
    hide UnitCogs, RestoredCost, BusinessUnit;
    SumPointwise(RefundLines(b, c), (l: RefundLine) => l.cogs, RestoredCosts(b, c), Id());
  }

  lemma ReturnAmounts(currency: string, x: Refund, cogs: int, a: Account)
    requires x.total == x.subtotal + x.tax
    ensures var ls := RefundJournalLines(currency, x.subtotal, x.tax, cogs);
      Debited(ls, a) - Credited(ls, a) == ReturnAmount(x, cogs, a)
  {
    hide Sum;
    var y, z := JournalLine(SALES_RETURNS, x.subtotal, 0, currency), JournalLine(CASH, 0, x.total, currency);
    var t := JournalLine(OUTPUT_TAX, x.tax, 0, currency);
    var g, h := JournalLine(INVENTORY, cogs, 0, currency), JournalLine(COGS, 0, cogs, currency);
    FiveLines(y, z, t, g, h, x.tax != 0, cogs != 0, DebitTo(a));
    FiveLines(y, z, t, g, h, x.tax != 0, cogs != 0, CreditTo(a));
  }

  lemma ReturnCurrency(currency: string, subtotal: int, tax: int, cogs: int)
    ensures var ls := RefundJournalLines(currency, subtotal, tax, cogs);
      ls != [] && OneCurrency(ls) && ls[0].currency == currency
  {
  }

  lemma ReturnJournalAdded(b: Books, r: Books, rate: int, c: RefundCommand)
    requires var j := RefundJournal(rate, b, c);
      j.lines != [] && r.entries == b.entries + [EntryOf(j)] && r.lines == b.lines + LedgerLines(j)
    ensures JournalAdded(b, r, "jrn_refund_" + c.refundId, c.refundId, c.periodId, c.currency)
    ensures forall a: Account ::
      Posted(r.lines[|b.lines|..], "jrn_refund_" + c.refundId, a)
        == ReturnAmount(RefundOf(rate, b, c), RestoredOf(b, c), a)
  {
    var j, x := RefundJournal(rate, b, c), RefundOf(rate, b, c);
    ReturnFields(rate, b, c);
    ReturnCurrency(c.currency, x.subtotal, x.tax, RestoredOf(b, c));
    assert j.journalId == "jrn_refund_" + c.refundId;
    hide RefundJournal, RefundOf, RefundJournalLines, LedgerLines, EntryOf, RestoredOf, Posted, ReturnAmount,
      JournalAdded, OneCurrency, Debited, Credited;
    JournalIsAdded(b, r, j, c.refundId);
    assert r.lines[|b.lines|..] == LedgerLines(j);
    forall a: Account
      ensures Posted(LedgerLines(j), j.journalId, a) == ReturnAmount(x, RestoredOf(b, c), a)
    {
      PostedBy(j, a);
      ReturnAmounts(c.currency, x, RestoredOf(b, c), a);
    }
  }

  lemma ReturnFiles(b: Books, p: Policy, c: RefundCommand)
    requires PlanOf(b, p, Return(c)).Succeeds()
    ensures PositiveRequests(c)
    ensures var r, j := Exec(b, p, Return(c)), RefundJournal(p.taxRate, b, c);
      && j.lines != [] && r.entries == b.entries + [EntryOf(j)] && r.lines == b.lines + LedgerLines(j)
      && r.items == b.items && r.periods == b.periods && r.invoices == b.invoices && r.invoiceLines == b.invoiceLines
      && r.refunds == b.refunds + [RefundOf(p.taxRate, b, c)] && r.refundLines == b.refundLines + RefundLines(b, c)
      && r.movements == b.movements + RestockedMovements(b.movements, b, c, 0)
  {
    var closed := ClosedPeriods(b);
    var steps := RefundPlan(b, closed, p, c).steps;
    assert PlanOf(b, p, Return(c)) == RefundPlan(b, closed, p, c);
    RefundAccepted(b, closed, p, c);
    ReturnHasLines(p.taxRate, b, c);
    hide *;
    RefundWrites(b, closed, p, c);
    ExecIs(b, p, Return(c));
    WritesAdd(b, steps);
    SameFiles(Written(steps));
  }

  lemma ReturnHasLines(rate: int, b: Books, c: RefundCommand)
    ensures RefundJournal(rate, b, c).lines != []
  {
    hide Sum, RestoredCosts;
  }

  /** A completed refund leaves one refund, its lines, a movement for each restocked one and one journal; nothing else. */
  lemma ReturnStores(b: Books, p: Policy, c: RefundCommand)
    requires PlanOf(b, p, Return(c)).Succeeds()
    ensures ReturnStored(b, Exec(b, p, Return(c)), p.taxRate, c)
  {
    hide Exec, PlanOf, RefundJournal, RefundOf, RefundLines, RestockedMovements, PositiveRequests, JournalAdded,
      ReturnAmount, Posted, Sum, RefundOn, AllReturnedOn, AllMovedIn, LedgerLines, EntryOf, RestoredOf;
    var r := Exec(b, p, Return(c));
    ReturnFiles(b, p, c);
    RestockedInOrder(b.movements, b, c, 0);
    ReturnJournalAdded(b, r, p.taxRate, c);
    RefundIsOn(p.taxRate, b, c);
    AllAreReturned(b, c);
    CostRestored(b, c);
    assert r.refundLines[|b.refundLines|..] == RefundLines(b, c)
      && r.movements[|b.movements|..] == RestockedMovements(b.movements, b, c, 0);
  }

  // ---------------------------------------------------------------- stock moves

  predicate StockMoved(ms: seq<Movement>, c: StockCommand, m: Movement) {
    && m.movementId == c.movementId && m.itemId == c.itemId && m.movementType == c.movementType
    && m.quantityDelta == c.quantityDelta
    && m.sourceDocumentId == c.sourceDocumentId && m.periodId == StockPrices.PeriodGiven(c)
    && m.unitCost == StockPrices.Price(ms, c) && m.valueDelta == c.quantityDelta * m.unitCost
    && m.quantityAfter == StockOnHand(ms, c.itemId) + c.quantityDelta
    && m.valueAfter == InventoryValue(ms, c.itemId) + m.valueDelta
  }

  /** Value that comes in goes from the owner's equity (3000) to the inventory (1200), value that goes out from the
      inventory to its adjustment (5100), in the base currency. */
  predicate StockPosted(c: StockCommand, value: int, es: seq<JournalEntry>, ls: seq<LedgerLine>) {
    var id, period, amount := "jrn_inventory_" + c.movementId, StockPrices.PeriodGiven(c),
      if value > 0 then value else -value;
    && es == [JournalEntry(id, period, "inventory", c.sourceDocumentId, amount, amount, "INR")]
    && ls == [LedgerLine(id, 1, period, if value > 0 then 1200 else 5100, amount, 0, "INR"),
              LedgerLine(id, 2, period, if value > 0 then 3000 else 1200, 0, amount, "INR")]
  }

  lemma StockPostedBy(c: StockCommand, value: int)
    ensures var j := StockJournal(c, StockPrices.PeriodGiven(c), value); StockPosted(c, value, [EntryOf(j)],
                                                                                     LedgerLines(j))
  {
    hide Sum;
    var j := StockJournal(c, StockPrices.PeriodGiven(c), value);
    var ls := StockJournalLines(value);
    assert ls == [ls[0], ls[1]];
    SumTwo(ls[0], ls[1], DebitOf());
    SumTwo(ls[0], ls[1], CreditOf());
    assert LedgerLines(j) == [LedgerLines(j)[0], LedgerLines(j)[1]];
  }

  lemma MovePlanIs(b: Books, p: Policy, c: StockCommand)
    ensures PlanOf(b, p, Move(c)) == StockPlan(b, ClosedPeriods(b), p.allowNegativeStock, c)
  {
    hide StockPlan, ClosedPeriods;
  }

  lemma MoveFiles(b: Books, p: Policy, c: StockCommand)
    requires PlanOf(b, p, Move(c)).Succeeds()
    ensures ValidateStock(c).None?
    ensures var r, m := Exec(b, p, Move(c)), MovementOf(b.movements, c);
      var j := StockJournal(c, MovementPeriod(c), m.valueDelta);
      && Domain(r).(movements := [], entries := [], lines := [])
           == Domain(b).(movements := [], entries := [], lines := [])
      && r.movements == b.movements + [m]
      && r.entries == b.entries + (if m.valueDelta == 0 then [] else [EntryOf(j)])
      && r.lines == b.lines + (if m.valueDelta == 0 then [] else LedgerLines(j))
  {
    var closed := ClosedPeriods(b);
    var steps := StockPlan(b, closed, p.allowNegativeStock, c).steps;
    hide StockPlan, MovementOf, Written, EntryOf, LedgerLines, StockJournal, MovementPeriod, ValidateStock, Exec,
      ApplyAll, PlanOf, ClosedPeriods, UsePeriod;
    MovePlanIs(b, p, c);
    StockPrices.StockValid(b, closed, p.allowNegativeStock, c);
    StockWrites(b, closed, p.allowNegativeStock, c);
    ExecIs(b, p, Move(c));
    WritesAdd(b, steps);
    SameFiles(Written(steps));
  }

  lemma StockIsMoved(ms: seq<Movement>, c: StockCommand)
    requires ValidateStock(c).None?
    ensures StockMoved(ms, c, MovementOf(ms, c))
  {
    MoveFields(c);
    StockPrices.PricedMovement(ms, c);
    hide MovementOf, StockPrices.Price, StockPrices.PeriodGiven, StockOnHand, InventoryValue, ValidateStock;
  }

  /** A completed stock move leaves its movement, and its journal when it is worth something. */
  lemma MoveStores(b: Books, p: Policy, c: StockCommand)
    requires PlanOf(b, p, Move(c)).Succeeds()
    ensures var r, n := Exec(b, p, Move(c)), |b.movements|;
      && Domain(r).(movements := [], entries := [], lines := [])
           == Domain(b).(movements := [], entries := [], lines := [])
      && |r.movements| == n + 1 && b.movements <= r.movements && StockMoved(b.movements, c, r.movements[n])
      && b.entries <= r.entries && b.lines <= r.lines
      && (if r.movements[n].valueDelta == 0 then r.entries == b.entries && r.lines == b.lines
          else StockPosted(c, r.movements[n].valueDelta, r.entries[|b.entries|..], r.lines[|b.lines|..]))
  {
    hide *;
    MoveFiles(b, p, c);
    StockIsMoved(b.movements, c);
    var m := MovementOf(b.movements, c);
    StockPrices.StockJournalIs(c, MovementPeriod(c), m.valueDelta);
    StockPostedBy(c, m.valueDelta);
  }

  // ---------------------------------------------------------------- the other commands

  lemma PlansAre(b: Books, p: Policy, c: PostCommand, item: Item, periodId: string)
    ensures PlanOf(b, p, Post(c)) == JournalPlan(b, ClosedPeriods(b), c)
    ensures PlanOf(b, p, Register(item)) == RegisterPlan(b, item)
    ensures PlanOf(b, p, Close(periodId)) == CloseUsePlan(b, ClosedPeriods(b), periodId)
  {
    hide JournalPlan, RegisterPlan, CloseUsePlan, ClosedPeriods;
  }

  lemma PostFiles(b: Books, p: Policy, c: PostCommand)
    requires PlanOf(b, p, Post(c)).Succeeds()
    ensures c.lines != []
    ensures var r := Exec(b, p, Post(c));
      && Domain(r).(entries := [], lines := []) == Domain(b).(entries := [], lines := [])
      && r.entries == b.entries + [EntryOf(c)] && r.lines == b.lines + LedgerLines(c)
  {
    hide PlanOf, JournalPlan, Exec, ApplyAll, Written, EntryOf, LedgerLines, ClosedPeriods;
    PlansAre(b, p, c, Item("", "", "", false, ""), "");
    var steps := JournalPlan(b, ClosedPeriods(b), c).steps;
    JournalWrites(b, ClosedPeriods(b), c);
    ExecIs(b, p, Post(c));
    WritesAdd(b, steps);
    SameFiles(Written(steps));
  }

  /** A completed posting leaves its entry and its lines, numbered from 1. */
  lemma PostStores(b: Books, p: Policy, c: PostCommand)
    requires PlanOf(b, p, Post(c)).Succeeds()
    ensures c.lines != []
    ensures var r := Exec(b, p, Post(c));
      var debits, credits := Sum(c.lines, (l: JournalLine) => l.debit), Sum(c.lines, (l: JournalLine) => l.credit);
      && Domain(r).(entries := [], lines := []) == Domain(b).(entries := [], lines := [])
      && r.entries == b.entries
           + [JournalEntry(c.journalId, c.periodId, c.sourceModule, c.sourceDocumentId, debits, credits,
                           c.lines[0].currency)]
      && b.lines <= r.lines && |r.lines| == |b.lines| + |c.lines|
      && forall i :: |b.lines| <= i < |r.lines| ==>
           (var n, l := i - |b.lines|, c.lines[i - |b.lines|];
            r.lines[i] == LedgerLine(c.journalId, n + 1, c.periodId, l.account, l.debit, l.credit, l.currency))
  {
    hide PlanOf, Exec, ApplyAll, Sum;
    PostFiles(b, p, c);
    SumSame(c.lines, DebitOf(), (l: JournalLine) => l.debit);
    SumSame(c.lines, CreditOf(), (l: JournalLine) => l.credit);
    forall i | |b.lines| <= i < |b.lines + LedgerLines(c)|
      ensures (b.lines + LedgerLines(c))[i] == LedgerLines(c)[i - |b.lines|]
    {
    }
  }

  lemma RegisterStores(b: Books, p: Policy, item: Item)
    requires PlanOf(b, p, Register(item)).Succeeds()
    ensures Domain(Exec(b, p, Register(item))) == Domain(b).(items := b.items + [item])
  {
    hide PlanOf, RegisterPlan, Exec, ApplyAll, Written;
    PlansAre(b, p, PostCommand("", "", "", "", "", "", "", "", []), item, "");
    var steps := RegisterPlan(b, item).steps;
    RegisterWrites(b, item);
    ExecIs(b, p, Register(item));
    WritesAdd(b, steps);
    SameFiles(Written(steps));
  }

  lemma CloseStores(b: Books, p: Policy, periodId: string)
    requires PlanOf(b, p, Close(periodId)).Succeeds()
    ensures Domain(Exec(b, p, Close(periodId)))
      == Domain(b).(periods := if periodId in b.periods then b.periods else b.periods + [periodId])
  {
    hide PlanOf, CloseUsePlan, ClosePlan, Exec, ApplyAll, Written;
    PlansAre(b, p, PostCommand("", "", "", "", "", "", "", "", []), Item("", "", "", false, ""), periodId);
    var steps := CloseUsePlan(b, ClosedPeriods(b), periodId).steps;
    CloseUseWrites(b, periodId);
    CloseWrites(b, ClosedPeriods(b), periodId);
    ExecIs(b, p, Close(periodId));
    WritesAdd(b, steps);
    SameFiles(Written(steps));
  }
}
