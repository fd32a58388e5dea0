/** src/bms/domain/billing/service.py: what invoices and refunds check and append. */
module Billing {
  import opened Status
  import opened Text
  import opened Books
  import opened Accounting
  import opened Inventory

  datatype InvoiceLineCommand = InvoiceLineCommand(itemId: string, description: string, quantity: int, unitPrice: int)

  datatype InvoiceCommand = InvoiceCommand(
    invoiceId: string, customerId: string, periodId: string, timestamp: string, actorId: string,
    correlationId: string, paymentMethod: string, currency: string, lines: seq<InvoiceLineCommand>)

  datatype RefundLineCommand = RefundLineCommand(
    itemId: string, description: string, quantity: int, unitPrice: int, restock: bool)

  datatype RefundCommand = RefundCommand(
    refundId: string, originalInvoiceId: string, periodId: string, timestamp: string, actorId: string,
    correlationId: string, currency: string, reason: string, lines: seq<RefundLineCommand>)

  /** The configuration the services of one process share. */
  datatype Policy = Policy(taxRate: int, allowNegativeStock: bool)

  /** _calculate_tax: basis points, rounded down. */
  function Tax(subtotal: int, rate: int): int { subtotal * rate / 10000 }

  // ---------------------------------------------------------------- invoices

  function LineAmount(): InvoiceLineCommand -> int { (l: InvoiceLineCommand) => l.quantity * l.unitPrice }

  function Needs(itemId: string): InvoiceLineCommand -> int {
    (l: InvoiceLineCommand) => if l.itemId == itemId then l.quantity else 0
  }

  function Subtotal(c: InvoiceCommand): int { Sum(c.lines, LineAmount()) }

  function InvoiceLineError(l: InvoiceLineCommand): Option<Error> {
    if l.itemId == "" then Some(MissingField)
    else if l.quantity <= 0 then Some(BadQuantity)
    else if l.unitPrice < 0 then Some(NegativePrice)
    else None
  }

  function FirstInvoiceLineError(lines: seq<InvoiceLineCommand>): (e: Option<Error>)
    ensures e.None? <==> forall i :: 0 <= i < |lines| ==> InvoiceLineError(lines[i]).None?
  {
    if lines == [] then None
    else if InvoiceLineError(lines[0]).Some? then InvoiceLineError(lines[0])
    else FirstInvoiceLineError(lines[1..])
  }

  function ValidateInvoice(rate: int, c: InvoiceCommand): Option<Error> {
    if "" in [c.invoiceId, c.customerId, c.periodId, c.timestamp, c.actorId, c.correlationId, c.paymentMethod, c.currency]
      then Some(MissingField)
    else if c.lines == [] then Some(NoLines)
    else if rate < 0 then Some(NegativeRate)
    else FirstInvoiceLineError(c.lines)
  }

  predicate HasInvoice(xs: seq<Invoice>, invoiceId: string) { exists i :: 0 <= i < |xs| && xs[i].invoiceId == invoiceId }

  /** The keys of the dictionary of required quantities, in insertion order. */
  function ItemsInOrder(lines: seq<InvoiceLineCommand>): seq<string> {
    if lines == [] then [] else
    var before := ItemsInOrder(lines[..|lines| - 1]);
    var x := lines[|lines| - 1].itemId;
    if x in before then before else before + [x]
  }

  function ItemStockError(b: Books, itemId: string, required: int): Option<Error> {
    if CheckItem(b.items, itemId).Some? then CheckItem(b.items, itemId)
    else if StockOnHand(b.movements, itemId) < required then Some(InsufficientStock)
    else None
  }

  function FirstStockError(b: Books, lines: seq<InvoiceLineCommand>, order: seq<string>): (e: Option<Error>)
    ensures e.None? <==> forall i :: 0 <= i < |order| ==> ItemStockError(b, order[i], Sum(lines, Needs(order[i]))).None?
  {
    if order == [] then None
    else
      var e := ItemStockError(b, order[0], Sum(lines, Needs(order[0])));
      if e.Some? then e else FirstStockError(b, lines, order[1..])
  }

  function RefuseInvoice(b: Books, closed: set<string>, rate: int, c: InvoiceCommand): Option<Error> {
    if ValidateInvoice(rate, c).Some? then ValidateInvoice(rate, c)
    else if HasInvoice(b.invoices, c.invoiceId) then Some(DuplicateInvoice)
    else if c.periodId in closed then Some(PeriodClosed)
    else FirstStockError(b, c.lines, ItemsInOrder(c.lines))
  }

  /** The cost of each line at the average before the invoice. */
  function LineCosts(ms: seq<Movement>, lines: seq<InvoiceLineCommand>): (costs: seq<int>)
    ensures |costs| == |lines|
  {
    seq(|lines|, i requires 0 <= i < |lines| => lines[i].quantity * AverageCost(ms, lines[i].itemId))
  }

  function Id(): int -> int { (x: int) => x }

  function TotalCost(costs: seq<int>): int { Sum(costs, Id()) }

  function SaleLines(currency: string, subtotal: int, tax: int, cogs: int): seq<JournalLine> {
    [JournalLine(CASH, subtotal + tax, 0, currency), JournalLine(SALES, 0, subtotal, currency)]
    + (if tax != 0 then [JournalLine(OUTPUT_TAX, 0, tax, currency)] else [])
    + (if cogs != 0 then [JournalLine(COGS, cogs, 0, currency), JournalLine(INVENTORY, 0, cogs, currency)] else [])
  }

  function SaleJournalId(invoiceId: string): string { "jrn_" + invoiceId }

  function SaleMovementId(invoiceId: string, i: nat): string { "mov_" + invoiceId + "_" + Decimal(i + 1) }

  function SaleMovementIds(c: InvoiceCommand): seq<string> {
    seq(|c.lines|, i requires 0 <= i < |c.lines| => SaleMovementId(c.invoiceId, i))
  }

  /** The journal, from the costs of the lines. */
  function SaleJournalAt(rate: int, costs: seq<int>, c: InvoiceCommand): PostCommand {
    var subtotal := Subtotal(c);
    PostCommand(SaleJournalId(c.invoiceId), c.periodId, c.timestamp, c.actorId, "billing", c.invoiceId,
                c.correlationId, "Invoice " + c.invoiceId + " sale",
                SaleLines(c.currency, subtotal, Tax(subtotal, rate), TotalCost(costs)))
  }

  function SaleJournal(rate: int, ms: seq<Movement>, c: InvoiceCommand): PostCommand {
    SaleJournalAt(rate, LineCosts(ms, c.lines), c)
  }

  function SaleMovementAt(cost: int, c: InvoiceCommand, i: nat): StockCommand
    requires i < |c.lines|
  {
    StockCommand(SaleMovementId(c.invoiceId, i), c.lines[i].itemId, StockOut, -c.lines[i].quantity, c.timestamp,
                 c.actorId, "invoice sale", "billing", c.invoiceId, c.correlationId, cost, "")
  }

  /** The movement command of line i, costed at the average it finds. */
  function SaleMovement(ms: seq<Movement>, c: InvoiceCommand, i: nat): StockCommand
    requires i < |c.lines|
  {
    SaleMovementAt(AverageCost(ms, c.lines[i].itemId), c, i)
  }

  /** The movements of the lines from i on, each seeing the ones before it. */
  function SaleMovements(b: Books, allowNegative: bool, c: InvoiceCommand, i: nat): Plan
    requires i <= |c.lines|
    decreases |c.lines| - i
  {
    if i == |c.lines| then Plan([], None) else
    var first := MovementPlan(b, allowNegative, SaleMovement(b.movements, c, i));
    if first.error.Some? then first else
    var rest := SaleMovements(ApplyAll(b, first.steps), allowNegative, c, i + 1);
    Plan(first.steps + rest.steps, rest.error)
  }

  function InvoiceOf(rate: int, c: InvoiceCommand): Invoice {
    var subtotal := Subtotal(c);
    Invoice(c.invoiceId, c.periodId, c.currency, subtotal, Tax(subtotal, rate), subtotal + Tax(subtotal, rate),
            SaleJournalId(c.invoiceId), SaleMovementIds(c))
  }

  function BusinessUnit(items: seq<Item>, itemId: string): string {
    match FindItem(items, itemId)
    case Some(item) => item.businessUnit
    case None => "retail"
  }

  function InvoiceLineAt(items: seq<Item>, cogs: int, c: InvoiceCommand, i: nat): InvoiceLine
    requires i < |c.lines| && c.lines[i].quantity > 0
  {
    var l := c.lines[i];
    InvoiceLine(c.invoiceId, i + 1, l.itemId, BusinessUnit(items, l.itemId), l.description, l.quantity, l.unitPrice,
                l.quantity * l.unitPrice, cogs / l.quantity, cogs, c.currency)
  }

  function InvoiceLineOf(b: Books, c: InvoiceCommand, i: nat): InvoiceLine
    requires i < |c.lines| && c.lines[i].quantity > 0
  {
    InvoiceLineAt(b.items, LineCosts(b.movements, c.lines)[i], c, i)
  }

  predicate PositiveQuantities(c: InvoiceCommand) { forall i :: 0 <= i < |c.lines| ==> c.lines[i].quantity > 0 }

  function InvoiceLines(b: Books, c: InvoiceCommand): (ls: seq<InvoiceLine>)
    requires PositiveQuantities(c)
    ensures |ls| == |c.lines|
    ensures forall i :: 0 <= i < |ls| ==> ls[i] == InvoiceLineOf(b, c, i)
  {
    seq(|c.lines|, i requires 0 <= i < |c.lines| => InvoiceLineOf(b, c, i))
  }

  function InvoiceLineSteps(ls: seq<InvoiceLine>): (steps: seq<Step>)
    ensures |steps| == |ls|
  {
    seq(|ls|, i requires 0 <= i < |ls| => InvoiceLineStep(ls[i]))
  }

  function SaleOp(c: InvoiceCommand): Operation {
    CreateInvoiceOp(c.invoiceId, SaleJournalId(c.invoiceId), SaleMovementIds(c))
  }

  /** create_invoice. Errors of the nested calls leave the pending record and what was appended before. */
  function InvoicePlan(b: Books, closed: set<string>, p: Policy, c: InvoiceCommand): Plan {
    var refused := RefuseInvoice(b, closed, p.taxRate, c);
    if refused.Some? then Plan([], refused) else
    var pending := [WalStep(Pending(b.uuids, SaleOp(c)))];
    var b1 := ApplyAll(b, pending);
    var journal := JournalPlan(b1, closed, SaleJournal(p.taxRate, b.movements, c));
    if journal.error.Some? then Plan(pending + journal.steps, journal.error) else
    var movements := SaleMovements(ApplyAll(b1, journal.steps), p.allowNegativeStock, c, 0);
    if movements.error.Some? then Plan(pending + journal.steps + movements.steps, movements.error) else
    Plan(Transaction(b.uuids, SaleOp(c),
                     journal.steps + movements.steps + [InvoiceStep(InvoiceOf(p.taxRate, c))] +
                     (RefusedOrPositive(b, closed, p.taxRate, c); InvoiceLineSteps(InvoiceLines(b, c))),
                     "billing.invoice_created", "billing.sale_completed.v1"), None)
  }

  lemma RefusedOrPositive(b: Books, closed: set<string>, rate: int, c: InvoiceCommand)
    ensures RefuseInvoice(b, closed, rate, c).None? ==> PositiveQuantities(c)
  {
    if RefuseInvoice(b, closed, rate, c).None? {
      assert FirstInvoiceLineError(c.lines).None?;
      forall i | 0 <= i < |c.lines|
        ensures c.lines[i].quantity > 0
      {
        assert InvoiceLineError(c.lines[i]).None?;
      }
    }
  }

  // ---------------------------------------------------------------- refunds

  datatype LineKey = LineKey(itemId: string, unitPrice: int)

  function KeyOfRequest(): RefundLineCommand -> LineKey { (l: RefundLineCommand) => LineKey(l.itemId, l.unitPrice) }

  function RequestQuantity(): RefundLineCommand -> int { (l: RefundLineCommand) => l.quantity }

  function RequestAmount(): RefundLineCommand -> int { (l: RefundLineCommand) => l.quantity * l.unitPrice }

  /** Sold quantity, cost and refunded quantity of an item at a price. */
  function SoldOf(invoiceId: string, k: LineKey): InvoiceLine -> int {
    (l: InvoiceLine) => if l.invoiceId == invoiceId && LineKey(l.itemId, l.unitPrice) == k then l.quantity else 0
  }

  function CostOf(invoiceId: string, k: LineKey): InvoiceLine -> int {
    (l: InvoiceLine) => if l.invoiceId == invoiceId && LineKey(l.itemId, l.unitPrice) == k then l.cogs else 0
  }

  function RefundedOf(ids: set<string>, k: LineKey): RefundLine -> int {
    (l: RefundLine) => if l.refundId in ids && LineKey(l.itemId, l.unitPrice) == k then l.quantity else 0
  }

  function Sold(b: Books, invoiceId: string, k: LineKey): int { Sum(b.invoiceLines, SoldOf(invoiceId, k)) }

  function SoldCost(b: Books, invoiceId: string, k: LineKey): int { Sum(b.invoiceLines, CostOf(invoiceId, k)) }

  function RefundsOf(refunds: seq<Refund>, invoiceId: string): set<string> {
    set r | r in refunds && r.originalInvoiceId == invoiceId :: r.refundId
  }

  function Refunded(b: Books, invoiceId: string, k: LineKey): int {
    Sum(b.refundLines, RefundedOf(RefundsOf(b.refunds, invoiceId), k))
  }

  function Remaining(b: Books, invoiceId: string, k: LineKey): int { Sold(b, invoiceId, k) - Refunded(b, invoiceId, k) }

  function Requested(c: RefundCommand, k: LineKey): int { Sum(c.lines, Restrict(KeyOfRequest(), k, RequestQuantity())) }

  function KeysInOrder(lines: seq<RefundLineCommand>): seq<LineKey> {
    if lines == [] then [] else
    var before := KeysInOrder(lines[..|lines| - 1]);
    var k := KeyOfRequest()(lines[|lines| - 1]);
    if k in before then before else before + [k]
  }

  function FindInvoice(xs: seq<Invoice>, invoiceId: string): Option<Invoice> {
    if xs == [] then None
    else if xs[0].invoiceId == invoiceId then Some(xs[0])
    else FindInvoice(xs[1..], invoiceId)
  }

  predicate HasRefund(xs: seq<Refund>, refundId: string) { exists i :: 0 <= i < |xs| && xs[i].refundId == refundId }

  predicate HasInvoiceLines(xs: seq<InvoiceLine>, invoiceId: string) {
    exists i :: 0 <= i < |xs| && xs[i].invoiceId == invoiceId
  }

  function KeyError(remaining: int, requested: int): Option<Error> {
    if remaining <= 0 then Some(NotAvailable)
    else if requested > remaining then Some(ExceedsRemaining)
    else None
  }

  function FirstKeyError(b: Books, c: RefundCommand, keys: seq<LineKey>): (e: Option<Error>)
    ensures e.None? <==> forall i :: 0 <= i < |keys| ==>
      KeyError(Remaining(b, c.originalInvoiceId, keys[i]), Requested(c, keys[i])).None?
  {
    if keys == [] then None
    else
      var e := KeyError(Remaining(b, c.originalInvoiceId, keys[0]), Requested(c, keys[0]));
      if e.Some? then e else FirstKeyError(b, c, keys[1..])
  }

  /** _validate_refund_against_original_invoice. */
  function GuardError(b: Books, c: RefundCommand): Option<Error> {
    if !HasInvoiceLines(b.invoiceLines, c.originalInvoiceId) then Some(NoRefundableLines)
    else FirstKeyError(b, c, KeysInOrder(c.lines))
  }

  function RefundLineError(l: RefundLineCommand): Option<Error> {
    if l.itemId == "" then Some(MissingField)
    else if l.quantity <= 0 then Some(BadQuantity)
    else if l.unitPrice < 0 then Some(NegativePrice)
    else None
  }

  function FirstRefundLineError(lines: seq<RefundLineCommand>): (e: Option<Error>)
    ensures e.None? <==> forall i :: 0 <= i < |lines| ==> RefundLineError(lines[i]).None?
  {
    if lines == [] then None
    else if RefundLineError(lines[0]).Some? then RefundLineError(lines[0])
    else FirstRefundLineError(lines[1..])
  }

  function ValidateRefund(rate: int, c: RefundCommand): Option<Error> {
    if "" in [c.refundId, c.originalInvoiceId, c.periodId, c.timestamp, c.actorId, c.correlationId, c.currency, c.reason]
      then Some(MissingField)
    else if c.lines == [] then Some(NoLines)
    else if rate < 0 then Some(NegativeRate)
    else FirstRefundLineError(c.lines)
  }

  function RefuseRefund(b: Books, closed: set<string>, rate: int, c: RefundCommand): Option<Error> {
    if ValidateRefund(rate, c).Some? then ValidateRefund(rate, c)
    else if HasRefund(b.refunds, c.refundId) then Some(DuplicateRefund)
    else match FindInvoice(b.invoices, c.originalInvoiceId)
      case None => Some(UnknownInvoice)
      case Some(original) =>
        if c.periodId in closed then Some(PeriodClosed)
        else if original.currency != c.currency then Some(CurrencyMismatch)
        else GuardError(b, c)
  }

  /** The unit cost a refund restores: the floor of cost over quantity sold at that item and price. */
  function UnitCogs(b: Books, invoiceId: string, k: LineKey): int {
    var quantity := Sold(b, invoiceId, k);
    if quantity > 0 then SoldCost(b, invoiceId, k) / quantity else 0
  }

  function RestoredCost(b: Books, c: RefundCommand, i: nat): int
    requires i < |c.lines|
  {
    var l := c.lines[i];
    if l.restock then l.quantity * UnitCogs(b, c.originalInvoiceId, LineKey(l.itemId, l.unitPrice)) else 0
  }

  function RestoredCosts(b: Books, c: RefundCommand): (costs: seq<int>)
    ensures |costs| == |c.lines|
  {
    seq(|c.lines|, i requires 0 <= i < |c.lines| => RestoredCost(b, c, i))
  }

  function RefundSubtotal(c: RefundCommand): int { Sum(c.lines, RequestAmount()) }

  function RefundJournalLines(currency: string, subtotal: int, tax: int, cogs: int): seq<JournalLine> {
    [JournalLine(SALES_RETURNS, subtotal, 0, currency), JournalLine(CASH, 0, subtotal + tax, currency)]
    + (if tax != 0 then [JournalLine(OUTPUT_TAX, tax, 0, currency)] else [])
    + (if cogs != 0 then [JournalLine(INVENTORY, cogs, 0, currency), JournalLine(COGS, 0, cogs, currency)] else [])
  }

  function RefundJournalId(refundId: string): string { "jrn_refund_" + refundId }

  function RefundMovementId(refundId: string, i: nat): string { "mov_refund_" + refundId + "_" + Decimal(i + 1) }

  /** Identifiers of the movements of the restocked lines before position n. */
  function RefundMovementIds(c: RefundCommand, n: nat): seq<string>
    requires n <= |c.lines|
  {
    if n == 0 then []
    else RefundMovementIds(c, n - 1) + (if c.lines[n - 1].restock then [RefundMovementId(c.refundId, n - 1)] else [])
  }

  function RefundJournalAt(rate: int, costs: seq<int>, c: RefundCommand): PostCommand {
    var subtotal := RefundSubtotal(c);
    PostCommand(RefundJournalId(c.refundId), c.periodId, c.timestamp, c.actorId, "billing", c.refundId,
                c.correlationId, "Refund " + c.refundId + " for invoice " + c.originalInvoiceId,
                RefundJournalLines(c.currency, subtotal, Tax(subtotal, rate), TotalCost(costs)))
  }

  function RefundJournal(rate: int, b: Books, c: RefundCommand): PostCommand {
    RefundJournalAt(rate, RestoredCosts(b, c), c)
  }

  predicate PositiveRequests(c: RefundCommand) { forall i :: 0 <= i < |c.lines| ==> c.lines[i].quantity > 0 }

  function RefundMovementAt(cost: int, c: RefundCommand, i: nat): StockCommand
    requires i < |c.lines|
  {
    StockCommand(RefundMovementId(c.refundId, i), c.lines[i].itemId, StockIn, c.lines[i].quantity, c.timestamp, c.actorId,
                 "refund return", "billing", c.refundId, c.correlationId, cost, "")
  }

  function RefundMovement(b: Books, c: RefundCommand, i: nat): StockCommand
    requires i < |c.lines| && c.lines[i].quantity > 0
  {
    RefundMovementAt(RestoredCost(b, c, i) / c.lines[i].quantity, c, i)
  }

  /** The stock-ins of the restocked lines from i on; `start` is the state the costs were computed in. */
  function RefundMovements(b: Books, start: Books, allowNegative: bool, c: RefundCommand, i: nat): Plan
    requires i <= |c.lines| && PositiveRequests(c)
    decreases |c.lines| - i
  {
    if i == |c.lines| then Plan([], None)
    else if !c.lines[i].restock then RefundMovements(b, start, allowNegative, c, i + 1)
    else
      var first := MovementPlan(b, allowNegative, RefundMovement(start, c, i));
      if first.error.Some? then first else
      var rest := RefundMovements(ApplyAll(b, first.steps), start, allowNegative, c, i + 1);
      Plan(first.steps + rest.steps, rest.error)
  }

  function RefundAt(rate: int, costs: seq<int>, c: RefundCommand): Refund {
    var subtotal := RefundSubtotal(c);
    Refund(c.refundId, c.originalInvoiceId, c.periodId, c.currency, subtotal, Tax(subtotal, rate),
           subtotal + Tax(subtotal, rate), TotalCost(costs), RefundJournalId(c.refundId),
           RefundMovementIds(c, |c.lines|))
  }

  function RefundOf(rate: int, b: Books, c: RefundCommand): Refund { RefundAt(rate, RestoredCosts(b, c), c) }

  function RefundLineAt(items: seq<Item>, cogs: int, c: RefundCommand, i: nat): RefundLine
    requires i < |c.lines| && c.lines[i].quantity > 0
  {
    var l := c.lines[i];
    RefundLine(c.refundId, i + 1, l.itemId, BusinessUnit(items, l.itemId), l.description, l.quantity, l.unitPrice,
               l.quantity * l.unitPrice, cogs / l.quantity, cogs, l.restock, c.currency)
  }

  function RefundLineOf(b: Books, c: RefundCommand, i: nat): RefundLine
    requires i < |c.lines| && c.lines[i].quantity > 0
  {
    RefundLineAt(b.items, RestoredCost(b, c, i), c, i)
  }

  function RefundLines(b: Books, c: RefundCommand): (ls: seq<RefundLine>)
    requires PositiveRequests(c)
    ensures |ls| == |c.lines|
    ensures forall i :: 0 <= i < |ls| ==> ls[i] == RefundLineOf(b, c, i)
  {
    seq(|c.lines|, i requires 0 <= i < |c.lines| => RefundLineOf(b, c, i))
  }

  function RefundLineSteps(ls: seq<RefundLine>): (steps: seq<Step>)
    ensures |steps| == |ls|
  {
    seq(|ls|, i requires 0 <= i < |ls| => RefundLineStep(ls[i]))
  }

  function ReturnOp(c: RefundCommand): Operation {
    CreateRefundOp(c.refundId, RefundJournalId(c.refundId), RefundMovementIds(c, |c.lines|))
  }

  lemma RefusedOrPositiveRequests(b: Books, closed: set<string>, rate: int, c: RefundCommand)
    ensures RefuseRefund(b, closed, rate, c).None? ==> PositiveRequests(c)
  {
    if RefuseRefund(b, closed, rate, c).None? {
      assert FirstRefundLineError(c.lines).None?;
      forall i | 0 <= i < |c.lines|
        ensures c.lines[i].quantity > 0
      {
        assert RefundLineError(c.lines[i]).None?;
      }
    }
  }

  /** create_refund. */
  function RefundPlan(b: Books, closed: set<string>, p: Policy, c: RefundCommand): Plan {
    var refused := RefuseRefund(b, closed, p.taxRate, c);
    if refused.Some? then Plan([], refused) else
    RefusedOrPositiveRequests(b, closed, p.taxRate, c);
    var pending := [WalStep(Pending(b.uuids, ReturnOp(c)))];
    var b1 := ApplyAll(b, pending);
    var journal := JournalPlan(b1, closed, RefundJournal(p.taxRate, b, c));
    if journal.error.Some? then Plan(pending + journal.steps, journal.error) else
    var movements := RefundMovements(ApplyAll(b1, journal.steps), b, p.allowNegativeStock, c, 0);
    if movements.error.Some? then Plan(pending + journal.steps + movements.steps, movements.error) else
    Plan(Transaction(b.uuids, ReturnOp(c),
                     journal.steps + movements.steps + [RefundStep(RefundOf(p.taxRate, b, c))] +
                     RefundLineSteps(RefundLines(b, c)),
                     "billing.refund_created", "billing.refund_completed.v1"), None)
  }
}
