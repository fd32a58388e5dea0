/** Refund safety over every run: quantities, costs and money refunded against an invoice stay within what
    the invoice sold, posted and charged. */
module RefundSafety {
  import opened Books
  import opened Accounting
  import opened Inventory
  import opened Billing
  import opened Valuation
  import opened Writes
  import opened Reconciliation
  import Closing
  import UseCases
  import opened Agreement
  import opened SaleAgreement
  import opened ReturnAgreement
  import opened Runs
  import opened Stops

  // ---------------------------------------------------------------- what is kept

  function KeyOfLine(): InvoiceLine -> LineKey { (l: InvoiceLine) => LineKey(l.itemId, l.unitPrice) }

  function KeyOfRefundLine(): RefundLine -> LineKey { (l: RefundLine) => LineKey(l.itemId, l.unitPrice) }

  function RestoredFor(ids: set<string>, k: LineKey): RefundLine -> int {
    (l: RefundLine) => if l.refundId in ids && LineKey(l.itemId, l.unitPrice) == k then l.cogs else 0
  }

  /** The cost the refunds of the invoice brought back for one item at one price. */
  function Restored(b: Books, invoiceId: string, k: LineKey): int {
    Sum(b.refundLines, RestoredFor(RefundsOf(b.refunds, invoiceId), k))
  }

  function SoldAmount(invoiceId: string): InvoiceLine -> int {
    (l: InvoiceLine) => if l.invoiceId == invoiceId then l.quantity * l.unitPrice else 0
  }

  function RefundedAmount(ids: set<string>): RefundLine -> int {
    (l: RefundLine) => if l.refundId in ids then l.quantity * l.unitPrice else 0
  }

  function RefundSubtotalFor(invoiceId: string): Refund -> int {
    (x: Refund) => if x.originalInvoiceId == invoiceId then x.subtotal else 0
  }

  function RefundTotalFor(invoiceId: string): Refund -> int {
    (x: Refund) => if x.originalInvoiceId == invoiceId then x.total else 0
  }

  function RefundCountFor(invoiceId: string): Refund -> int { (x: Refund) => if x.originalInvoiceId == invoiceId then 1 else 0 }

  predicate SafeKey(b: Books, invoiceId: string, k: LineKey) {
    && Refunded(b, invoiceId, k) <= Sold(b, invoiceId, k)
    && Restored(b, invoiceId, k) <= Refunded(b, invoiceId, k) * UnitCogs(b, invoiceId, k)
  }

  ghost predicate SafeLines(b: Books) {
    && (forall l :: l in b.invoiceLines ==> l.quantity > 0 && l.unitPrice >= 0 && l.cogs >= 0)
    && (forall l :: l in b.refundLines ==> l.quantity > 0 && l.unitPrice >= 0)
    && (forall x :: x in b.refunds ==> KnownInvoice(b, x.originalInvoiceId))
  }

  /** Invoices carry at least the amounts of their lines, refunds exactly, taxed at the one rate. */
  ghost predicate SafeAmounts(b: Books, rate: int) {
    && (forall x :: x in b.invoices ==>
          rate >= 0 && Sum(b.invoiceLines, SoldAmount(x.invoiceId)) <= x.subtotal && x.total == x.subtotal + Tax(x.subtotal, rate))
    && (forall x :: x in b.refunds ==> x.total == x.subtotal + Tax(x.subtotal, rate))
    && (forall id :: Sum(b.refunds, RefundSubtotalFor(id)) == Sum(b.refundLines, RefundedAmount(RefundsOf(b.refunds, id))))
  }

  ghost predicate Safe(b: Books, rate: int) {
    Linked(b) && SafeLines(b) && SafeAmounts(b, rate) && forall id, k :: SafeKey(b, id, k)
  }

  // ---------------------------------------------------------------- a completed invoice

  /** Every average a completed invoice uses is non-negative: a movement at a negative cost is refused. */
  lemma {:induction false} SoldAtNonNegativeCost(b: Books, allowNegative: bool, c: InvoiceCommand, i: nat)
    requires i <= |c.lines| && PositiveQuantities(c) && SaleMovements(b, allowNegative, c, i).Succeeds()
    ensures forall k :: i <= k < |c.lines| ==> AverageCost(b.movements, c.lines[k].itemId) >= 0
    decreases |c.lines| - i
  {
    hide MovementOf, StockOnHand, InventoryValue, ApplyAll, MovementPlan;
    if i < |c.lines| {
      var command := SaleMovement(b.movements, c, i);
      var first := MovementPlan(b, allowNegative, command);
      var m := MovementOf(b.movements, command);
      MovementCost(b, allowNegative, command);
      var b1 := ApplyAll(b, first.steps);
      MovementsAfter(b, first.steps);
      MovementWrites(b, allowNegative, command);
      assert b1.movements == b.movements + [m];
      SoldAtNonNegativeCost(b1, allowNegative, c, i + 1);
      SaleMovementValue(b.movements, c, i);
      forall k | i <= k < |c.lines|
        ensures AverageCost(b.movements, c.lines[k].itemId) >= 0
      {
        FoldsAdd(b.movements, m, c.lines[k].itemId);
      }
    }
  }

  lemma MovementCost(b: Books, allowNegative: bool, c: StockCommand)
    requires MovementPlan(b, allowNegative, c).Succeeds()
    ensures c.unitCost >= 0
  {
    hide MovementSteps, HasMovement, CheckItem, StockOnHand;
  }

  lemma InvoiceSoldAtNonNegativeCost(b: Books, closed: set<string>, p: Policy, c: InvoiceCommand)
    requires InvoicePlan(b, closed, p, c).Succeeds()
    ensures forall k :: 0 <= k < |c.lines| ==> AverageCost(b.movements, c.lines[k].itemId) >= 0
  {
    InvoiceAccepted(b, closed, p, c);
    hide Written, Transaction, JournalPlan, SaleMovements, InvoiceLines, InvoiceOf, SaleJournal, RefuseInvoice, Apply,
      ApplyAll, PositiveQuantities, SaleOp, Enough, HasInvoice, AverageCost;
    var b1 := ApplyAll(b, [WalStep(Pending(b.uuids, SaleOp(c)))]);
    PendingOnly(b, SaleOp(c));
    var journal := JournalPlan(b1, closed, SaleJournal(p.taxRate, b.movements, c));
    JournalWrites(b1, closed, SaleJournal(p.taxRate, b.movements, c));
    var b2 := ApplyAll(b1, journal.steps);
    MovementsAfter(b1, journal.steps);
    assert b2.movements == b.movements;
    SoldAtNonNegativeCost(b2, p.allowNegativeStock, c, 0);
  }

  lemma InvoiceLineFacts(b: Books, closed: set<string>, p: Policy, c: InvoiceCommand)
    requires InvoicePlan(b, closed, p, c).Succeeds()
    ensures PositiveQuantities(c) && p.taxRate >= 0
    ensures forall l :: l in InvoiceLines(b, c) ==> l.invoiceId == c.invoiceId && l.quantity > 0 && l.unitPrice >= 0 && l.cogs >= 0
    ensures Sum(InvoiceLines(b, c), SoldAmount(c.invoiceId)) == Subtotal(c)
  {
    InvoiceAccepted(b, closed, p, c);
    InvoiceSoldAtNonNegativeCost(b, closed, p, c);
    InvoicePrices(b, closed, p.taxRate, c);
    hide InvoicePlan, RefuseInvoice, Enough, HasInvoice, AverageCost, Sum;
    var ls := InvoiceLines(b, c);
    forall l | l in ls
      ensures l.invoiceId == c.invoiceId && l.quantity > 0 && l.unitPrice >= 0 && l.cogs >= 0
    {
      var i :| 0 <= i < |ls| && ls[i] == l;
      assert l == InvoiceLineOf(b, c, i);
      ProductNonNegative(c.lines[i].quantity, AverageCost(b.movements, c.lines[i].itemId));
    }
    SumPointwise(ls, SoldAmount(c.invoiceId), c.lines, LineAmount());
  }

  lemma ProductNonNegative(x: int, y: int)
    requires x >= 0 && y >= 0
    ensures x * y >= 0
  {
  }

  lemma InvoicePrices(b: Books, closed: set<string>, rate: int, c: InvoiceCommand)
    requires RefuseInvoice(b, closed, rate, c).None?
    ensures rate >= 0 && forall i :: 0 <= i < |c.lines| ==> c.lines[i].quantity > 0 && c.lines[i].unitPrice >= 0
  {
    hide FirstStockError, HasInvoice;
    assert FirstInvoiceLineError(c.lines).None?;
    hide FirstInvoiceLineError;
    forall i | 0 <= i < |c.lines|
      ensures c.lines[i].quantity > 0 && c.lines[i].unitPrice >= 0
    {
      assert InvoiceLineError(c.lines[i]).None?;
    }
  }

  lemma NoLinesOf(b: Books, id: string)
    requires Linked(b) && !KnownInvoice(b, id)
    ensures forall l :: l in b.invoiceLines ==> l.invoiceId != id
  {
    hide KnownInvoice;
  }

  lemma NoRefundsOf(b: Books, id: string)
    requires SafeLines(b) && !KnownInvoice(b, id)
    ensures RefundsOf(b.refunds, id) == {}
  {
    hide KnownInvoice;
  }

  /** What a new invoice with fresh id does to the folds over invoice lines. */
  lemma InvoiceFolds(b: Books, ls: seq<InvoiceLine>, newId: string, id: string, k: LineKey)
    requires Linked(b) && !KnownInvoice(b, newId)
    requires forall l :: l in ls ==> l.invoiceId == newId && l.quantity > 0
    ensures Sum(b.invoiceLines + ls, SoldOf(id, k)) >= Sum(b.invoiceLines, SoldOf(id, k))
    ensures id != newId ==>
      && Sum(b.invoiceLines + ls, SoldOf(id, k)) == Sum(b.invoiceLines, SoldOf(id, k))
      && Sum(b.invoiceLines + ls, CostOf(id, k)) == Sum(b.invoiceLines, CostOf(id, k))
      && Sum(b.invoiceLines + ls, SoldAmount(id)) == Sum(b.invoiceLines, SoldAmount(id))
    ensures id == newId ==>
      && Sum(b.invoiceLines, SoldOf(id, k)) == 0 && Sum(b.invoiceLines, SoldAmount(id)) == 0
      && Sum(b.invoiceLines + ls, SoldAmount(id)) == Sum(ls, SoldAmount(id))
  {
    hide Sum, Linked, KnownInvoice;
    NoLinesOf(b, newId);
    SumConcat(b.invoiceLines, ls, SoldOf(id, k));
    SumConcat(b.invoiceLines, ls, CostOf(id, k));
    SumConcat(b.invoiceLines, ls, SoldAmount(id));
    SumNonNegative(ls, SoldOf(id, k));
    if id != newId {
      SumZero(ls, SoldOf(id, k));
      SumZero(ls, CostOf(id, k));
      SumZero(ls, SoldAmount(id));
    } else {
      SumZero(b.invoiceLines, SoldOf(id, k));
      SumZero(b.invoiceLines, SoldAmount(id));
    }
  }

  lemma {:induction false} SumNonNegative<T>(xs: seq<T>, f: T -> int)
    requires forall x :: x in xs ==> f(x) >= 0
    ensures Sum(xs, f) >= 0
  {
    if xs != [] {
      assert xs[|xs| - 1] in xs;
      SumNonNegative(xs[..|xs| - 1], f);
    }
  }

  lemma InvoiceSafeKey(b: Books, r: Books, ls: seq<InvoiceLine>, newId: string, id: string, k: LineKey)
    requires Linked(b) && SafeLines(b) && !KnownInvoice(b, newId) && SafeKey(b, id, k)
    requires forall l :: l in ls ==> l.invoiceId == newId && l.quantity > 0 && l.cogs >= 0
    requires r.invoiceLines == b.invoiceLines + ls && r.refunds == b.refunds && r.refundLines == b.refundLines
    ensures SafeKey(r, id, k)
  {
    hide Sum, Linked, KnownInvoice, SafeLines;
    InvoiceFolds(b, ls, newId, id, k);
    if id == newId {
      NoRefundsOf(b, id);
      SumZero(b.refundLines, RestoredFor({}, k));
      SumZero(b.refundLines, RefundedOf({}, k));
    }
  }

  lemma InvoiceStaysSafe(b: Books, closed: set<string>, p: Policy, c: InvoiceCommand)
    requires InvoicePlan(b, closed, p, c).Succeeds() && Safe(b, p.taxRate)
    ensures Safe(ApplyAll(b, InvoicePlan(b, closed, p, c).steps), p.taxRate)
  {
    InvoiceAccepted(b, closed, p, c);
    InvoiceWrites(b, closed, p, c);
    InvoiceLineFacts(b, closed, p, c);
    hide *;
    var steps := InvoicePlan(b, closed, p, c).steps;
    WritesAdd(b, steps);
    SameFiles(Written(steps));
    Closing.NewInvoice(b, c.invoiceId);
    InvoiceIs(p.taxRate, c);
    InvoiceFilesSafe(b, Written(steps), p.taxRate, InvoiceOf(p.taxRate, c));
  }

  lemma InvoiceIs(rate: int, c: InvoiceCommand)
    ensures var x := InvoiceOf(rate, c);
      x.invoiceId == c.invoiceId && x.subtotal == Subtotal(c) && x.total == x.subtotal + Tax(x.subtotal, rate)
  {
    hide Tax, SaleMovementIds, Sum;
  }

  /** Any lines of the invoice that amount to no more than it. */
  lemma InvoiceFilesSafe(b: Books, d: Books, rate: int, x: Invoice)
    requires Safe(b, rate) && rate >= 0 && !KnownInvoice(b, x.invoiceId)
    requires d.invoices == [x] && d.refunds == [] && d.refundLines == []
    requires forall l :: l in d.invoiceLines ==> l.invoiceId == x.invoiceId && l.quantity > 0 && l.unitPrice >= 0 && l.cogs >= 0
    requires Sum(d.invoiceLines, SoldAmount(x.invoiceId)) <= x.subtotal && x.total == x.subtotal + Tax(x.subtotal, rate)
    ensures Safe(Plus(b, d), rate)
  {
    hide Sum, Linked, KnownInvoice, SafeLines, SafeKey, Tax;
    var r, ls := Plus(b, d), d.invoiceLines;
    InvoiceFilesLinked(d, x);
    LinkedAdds(b, d);
    forall id, k
      ensures SafeKey(r, id, k)
    {
      InvoiceSafeKey(b, r, ls, x.invoiceId, id, k);
    }
    SafeLinesAdd(b, d);
    forall y | y in r.invoices
      ensures Sum(r.invoiceLines, SoldAmount(y.invoiceId)) <= y.subtotal && y.total == y.subtotal + Tax(y.subtotal, rate)
    {
      InvoiceFolds(b, ls, x.invoiceId, y.invoiceId, LineKey("", 0));
      if y in b.invoices {
        StoredIsKnown(b, y);
      }
    }
    assert SafeAmounts(r, rate);
  }

  lemma StoredIsKnown(b: Books, x: Invoice)
    requires x in b.invoices
    ensures KnownInvoice(b, x.invoiceId)
  {
    InvoiceKnown(b.invoices, x.invoiceId);
  }

  lemma InvoiceFilesLinked(d: Books, x: Invoice)
    requires d.invoices == [x] && d.refundLines == [] && forall l :: l in d.invoiceLines ==> l.invoiceId == x.invoiceId
    ensures Linked(d)
  {
    InvoiceKnown(d.invoices, x.invoiceId);
    assert d.invoices[0].invoiceId == x.invoiceId;
  }

  lemma SafeLinesAdd(b: Books, d: Books)
    requires SafeLines(b)
    requires forall l :: l in d.invoiceLines ==> l.quantity > 0 && l.unitPrice >= 0 && l.cogs >= 0
    requires forall l :: l in d.refundLines ==> l.quantity > 0 && l.unitPrice >= 0
    requires forall x :: x in d.refunds ==> KnownInvoice(b, x.originalInvoiceId)
    ensures SafeLines(Plus(b, d))
  {
    hide PeriodOfInvoice;
    forall x | x in b.refunds + d.refunds
      ensures KnownInvoice(Plus(b, d), x.originalInvoiceId)
    {
      InvoicePeriodConcat(b.invoices, d.invoices, x.originalInvoiceId);
    }
  }

  // ---------------------------------------------------------------- a completed refund

  lemma RefundPrices(b: Books, closed: set<string>, rate: int, c: RefundCommand)
    requires RefuseRefund(b, closed, rate, c).None?
    ensures forall i :: 0 <= i < |c.lines| ==> c.lines[i].quantity > 0 && c.lines[i].unitPrice >= 0
  {
    hide GuardError, HasRefund, FindInvoice;
    assert FirstRefundLineError(c.lines).None?;
    hide FirstRefundLineError;
    forall i | 0 <= i < |c.lines|
      ensures c.lines[i].quantity > 0 && c.lines[i].unitPrice >= 0
    {
      assert RefundLineError(c.lines[i]).None?;
    }
  }

  lemma {:induction false} KeyIsInOrder(lines: seq<RefundLineCommand>, k: LineKey)
    ensures k in KeysInOrder(lines) <==> exists i :: 0 <= i < |lines| && KeyOfRequest()(lines[i]) == k
  {
    if lines != [] {
      var n := |lines| - 1;
      KeyIsInOrder(lines[..n], k);
      if i :| 0 <= i < n && KeyOfRequest()(lines[i]) == k {
        assert lines[..n][i] == lines[i];
      }
      assert k in KeysInOrder(lines) <==> k in KeysInOrder(lines[..n]) || KeyOfRequest()(lines[n]) == k;
    }
  }

  /** The guard accepts exactly the requests that stay within what is left at every item and price. */
  lemma GuardMeaning(b: Books, c: RefundCommand)
    requires PositiveRequests(c)
    ensures GuardError(b, c).None? <==>
      HasInvoiceLines(b.invoiceLines, c.originalInvoiceId) &&
      forall k :: Requested(c, k) > 0 ==> Requested(c, k) <= Remaining(b, c.originalInvoiceId, k)
  {
    hide Remaining, HasInvoiceLines, KeysInOrder, FirstKeyError, Sum;
    var keys := KeysInOrder(c.lines);
    forall k
      ensures k in keys <==> Requested(c, k) > 0
      ensures KeyError(Remaining(b, c.originalInvoiceId, k), Requested(c, k)).None? <==>
        Remaining(b, c.originalInvoiceId, k) > 0 && Requested(c, k) <= Remaining(b, c.originalInvoiceId, k)
    {
      KeyIsInOrder(c.lines, k);
      RequestedPositive(c, k);
    }
    assert FirstKeyError(b, c, keys).None? <==> forall i :: 0 <= i < |keys| ==>
      KeyError(Remaining(b, c.originalInvoiceId, keys[i]), Requested(c, keys[i])).None?;
    assert forall k :: k in keys <==> exists i :: 0 <= i < |keys| && keys[i] == k;
  }

  lemma RequestedPositive(c: RefundCommand, k: LineKey)
    requires PositiveRequests(c)
    ensures Requested(c, k) >= 0
    ensures Requested(c, k) > 0 <==> exists i :: 0 <= i < |c.lines| && KeyOfRequest()(c.lines[i]) == k
  {
    hide Sum;
    var f := Restrict(KeyOfRequest(), k, RequestQuantity());
    SumNonNegative(c.lines, f);
    if i :| 0 <= i < |c.lines| && KeyOfRequest()(c.lines[i]) == k {
      SumAtLeast(c.lines, f, i);
    } else {
      SumZero(c.lines, f);
    }
  }

  lemma {:induction false} SumAtLeast<T>(xs: seq<T>, f: T -> int, i: nat)
    requires i < |xs| && forall x :: x in xs ==> f(x) >= 0
    ensures Sum(xs, f) >= f(xs[i])
  {
    var n := |xs| - 1;
    assert xs[n] in xs && forall x :: x in xs[..n] ==> x in xs;
    if i < n {
      SumAtLeast(xs[..n], f, i);
    } else {
      SumNonNegative(xs[..n], f);
    }
  }

  lemma RefundLineFacts(b: Books, c: RefundCommand, k: LineKey)
    requires PositiveRequests(c) && forall i :: 0 <= i < |c.lines| ==> c.lines[i].unitPrice >= 0
    requires UnitCogs(b, c.originalInvoiceId, k) >= 0
    ensures var ls := RefundLines(b, c);
      && (forall l :: l in ls ==> l.refundId == c.refundId && l.quantity > 0 && l.unitPrice >= 0)
      && Sum(ls, RefundedOf({c.refundId}, k)) == Requested(c, k)
      && Sum(ls, RestoredFor({c.refundId}, k)) <= Requested(c, k) * UnitCogs(b, c.originalInvoiceId, k)
      && Sum(ls, RefundedAmount({c.refundId})) == RefundSubtotal(c)
  {
    hide Sum, UnitCogs;
    var ls, u := RefundLines(b, c), UnitCogs(b, c.originalInvoiceId, k);
    forall l | l in ls
      ensures l.refundId == c.refundId && l.quantity > 0 && l.unitPrice >= 0
    {
      var i :| 0 <= i < |ls| && ls[i] == l;
      assert l == RefundLineOf(b, c, i);
    }
    SumPointwise(ls, RefundedOf({c.refundId}, k), c.lines, Restrict(KeyOfRequest(), k, RequestQuantity()));
    SumPointwise(ls, RefundedAmount({c.refundId}), c.lines, RequestAmount());
    RestoredAtMost(ls, RestoredFor({c.refundId}, k), c.lines, Restrict(KeyOfRequest(), k, RequestQuantity()), u);
  }

  lemma {:induction false} RestoredAtMost(ls: seq<RefundLine>, f: RefundLine -> int,
                                          cs: seq<RefundLineCommand>, g: RefundLineCommand -> int, u: int)
    requires |ls| == |cs| && forall i :: 0 <= i < |ls| ==> f(ls[i]) <= g(cs[i]) * u
    ensures Sum(ls, f) <= Sum(cs, g) * u
  {
    if ls != [] {
      var n := |ls| - 1;
      RestoredAtMost(ls[..n], f, cs[..n], g, u);
      assert Sum(cs, g) * u == Sum(cs[..n], g) * u + g(cs[n]) * u;
    }
  }

  /** What a refund with fresh id does to the folds over refund lines. */
  lemma RefundFolds(b: Books, x: Refund, ls: seq<RefundLine>, id: string, k: LineKey)
    requires Linked(b) && !KnownRefund(b, x.refundId)
    requires forall l :: l in ls ==> l.refundId == x.refundId
    ensures var ids, all := RefundsOf(b.refunds, id), RefundsOf(b.refunds + [x], id);
      var here := id == x.originalInvoiceId;
      && Sum(b.refundLines + ls, RefundedOf(all, k)) ==
           Sum(b.refundLines, RefundedOf(ids, k)) + (if here then Sum(ls, RefundedOf({x.refundId}, k)) else 0)
      && Sum(b.refundLines + ls, RestoredFor(all, k)) ==
           Sum(b.refundLines, RestoredFor(ids, k)) + (if here then Sum(ls, RestoredFor({x.refundId}, k)) else 0)
      && Sum(b.refundLines + ls, RefundedAmount(all)) ==
           Sum(b.refundLines, RefundedAmount(ids)) + (if here then Sum(ls, RefundedAmount({x.refundId})) else 0)
  {
    hide Sum, Linked, KnownRefund;
    RefundIds(b, x, id);
    var ids, all := RefundsOf(b.refunds, id), RefundsOf(b.refunds + [x], id);
    hide RefundsOf;
    RefundFoldsBy(b.refundLines, ls, all, ids, x.refundId, RefundedOf(all, k), RefundedOf(ids, k),
                  RefundedOf({x.refundId}, k));
    RefundFoldsBy(b.refundLines, ls, all, ids, x.refundId, RestoredFor(all, k), RestoredFor(ids, k),
                  RestoredFor({x.refundId}, k));
    RefundFoldsBy(b.refundLines, ls, all, ids, x.refundId, RefundedAmount(all), RefundedAmount(ids),
                  RefundedAmount({x.refundId}));
  }

  lemma RefundFoldsBy(old_: seq<RefundLine>, new_: seq<RefundLine>, all: set<string>, ids: set<string>, id: string,
                      f: RefundLine -> int, g: RefundLine -> int, h: RefundLine -> int)
    requires forall l :: l in old_ ==> f(l) == g(l)
    requires forall l :: l in new_ ==> f(l) == if id in all then h(l) else 0
    ensures Sum(old_ + new_, f) == Sum(old_, g) + (if id in all then Sum(new_, h) else 0)
  {
    hide Sum;
    SumConcat(old_, new_, f);
    SumSame(old_, f, g);
    if id in all {
      SumSame(new_, f, h);
    } else {
      SumZero(new_, f);
    }
  }

  lemma RefundIds(b: Books, x: Refund, id: string)
    requires Linked(b) && !KnownRefund(b, x.refundId)
    ensures var ids, all := RefundsOf(b.refunds, id), RefundsOf(b.refunds + [x], id);
      && (x.refundId in all <==> id == x.originalInvoiceId)
      && forall l :: l in b.refundLines ==> (l.refundId in all <==> l.refundId in ids)
  {
    RefundKnown(b.refunds, x.refundId);
    hide PeriodOfRefund;
    assert forall y :: y in b.refunds ==> y.refundId != x.refundId;
    assert forall y :: y in b.refunds + [x] <==> y in b.refunds || y == x;
    forall l | l in b.refundLines
      ensures l.refundId != x.refundId
    {
      assert KnownRefund(b, l.refundId);
    }
  }

  lemma UnitCogsNonNegative(b: Books, id: string, k: LineKey)
    requires SafeLines(b)
    ensures UnitCogs(b, id, k) >= 0 && Sold(b, id, k) >= 0 && SoldCost(b, id, k) >= 0
    ensures Sold(b, id, k) * UnitCogs(b, id, k) <= SoldCost(b, id, k)
  {
    hide Sum, KnownInvoice;
    SumNonNegative(b.invoiceLines, SoldOf(id, k));
    SumNonNegative(b.invoiceLines, CostOf(id, k));
    var q, v := Sold(b, id, k), SoldCost(b, id, k);
    if q > 0 {
      FloorBounds(v, q);
      FloorNonNegative(v, q);
    }
  }

  lemma RefundSafeKey(b: Books, r: Books, c: RefundCommand, x: Refund, id: string, k: LineKey)
    requires Linked(b) && SafeLines(b) && !KnownRefund(b, c.refundId) && SafeKey(b, id, k)
    requires PositiveRequests(c) && forall i :: 0 <= i < |c.lines| ==> c.lines[i].unitPrice >= 0
    requires Requested(c, k) > 0 ==> Requested(c, k) <= Remaining(b, c.originalInvoiceId, k)
    requires x.refundId == c.refundId && x.originalInvoiceId == c.originalInvoiceId
    requires r.invoiceLines == b.invoiceLines && r.refunds == b.refunds + [x]
      && r.refundLines == b.refundLines + RefundLines(b, c)
    ensures SafeKey(r, id, k)
  {
    hide Sum, Linked, KnownRefund, SafeLines, RefundLines, RefundsOf, PositiveRequests, KnownInvoice;
    UnitCogsNonNegative(b, c.originalInvoiceId, k);
    RequestedPositive(c, k);
    RefundLineFacts(b, c, k);
    RefundFolds(b, x, RefundLines(b, c), id, k);
    assert UnitCogs(r, id, k) == UnitCogs(b, id, k) && Sold(r, id, k) == Sold(b, id, k);
    hide UnitCogs;
    if id == c.originalInvoiceId {
      var u := UnitCogs(b, id, k);
      assert Refunded(r, id, k) == Refunded(b, id, k) + Requested(c, k);
      assert Refunded(r, id, k) * u == Refunded(b, id, k) * u + Requested(c, k) * u;
    }
  }

  lemma RefundStaysSafe(b: Books, closed: set<string>, p: Policy, c: RefundCommand)
    requires RefundPlan(b, closed, p, c).Succeeds() && Safe(b, p.taxRate)
    ensures Safe(ApplyAll(b, RefundPlan(b, closed, p, c).steps), p.taxRate)
  {
    RefundAccepted(b, closed, p, c);
    RefundWrites(b, closed, p, c);
    RefundPrices(b, closed, p.taxRate, c);
    GuardMeaning(b, c);
    hide *;
    var steps := RefundPlan(b, closed, p, c).steps;
    WritesAdd(b, steps);
    SameFiles(Written(steps));
    FreshRefund(b, c);
    RefundIs(p.taxRate, b, c);
    RefundFilesSafe(b, Written(steps), p.taxRate, c, RefundOf(p.taxRate, b, c));
  }

  lemma {:induction false} FoundInvoice(xs: seq<Invoice>, id: string)
    requires FindInvoice(xs, id).Some?
    ensures exists i :: 0 <= i < |xs| && xs[i].invoiceId == id
  {
    if xs[0].invoiceId != id {
      FoundInvoice(xs[1..], id);
      var i :| 0 <= i < |xs[1..]| && xs[1..][i].invoiceId == id;
      assert xs[i + 1].invoiceId == id;
    }
  }

  lemma FreshRefund(b: Books, c: RefundCommand)
    requires !HasRefund(b.refunds, c.refundId) && FindInvoice(b.invoices, c.originalInvoiceId).Some?
    ensures !KnownRefund(b, c.refundId) && KnownInvoice(b, c.originalInvoiceId)
  {
    RefundKnown(b.refunds, c.refundId);
    FoundInvoice(b.invoices, c.originalInvoiceId);
    InvoiceKnown(b.invoices, c.originalInvoiceId);
  }

  lemma RefundIs(rate: int, b: Books, c: RefundCommand)
    ensures var x := RefundOf(rate, b, c);
      && x.refundId == c.refundId && x.originalInvoiceId == c.originalInvoiceId
      && x.subtotal == RefundSubtotal(c) && x.total == x.subtotal + Tax(x.subtotal, rate)
  {
    hide Tax, RestoredCosts, RefundMovementIds, Sum;
  }

  lemma RefundFilesSafe(b: Books, d: Books, rate: int, c: RefundCommand, x: Refund)
    requires Safe(b, rate) && PositiveRequests(c) && !KnownRefund(b, c.refundId) && KnownInvoice(b, c.originalInvoiceId)
    requires forall i :: 0 <= i < |c.lines| ==> c.lines[i].quantity > 0 && c.lines[i].unitPrice >= 0
    requires forall k :: Requested(c, k) > 0 ==> Requested(c, k) <= Remaining(b, c.originalInvoiceId, k)
    requires x.refundId == c.refundId && x.originalInvoiceId == c.originalInvoiceId
    requires x.subtotal == RefundSubtotal(c) && x.total == x.subtotal + Tax(x.subtotal, rate)
    requires d.refunds == [x] && d.refundLines == RefundLines(b, c) && d.invoices == [] && d.invoiceLines == []
    ensures Safe(Plus(b, d), rate)
  {
    hide Sum, Linked, KnownInvoice, KnownRefund, SafeLines, SafeKey, RefundLines, Tax, Remaining, Requested,
      PositiveRequests, RestoredCosts, RefundMovementIds, RefundSubtotal;
    var r, ls := Plus(b, d), RefundLines(b, c);
    UnitCogsNonNegative(b, c.originalInvoiceId, LineKey("", 0));
    RefundLineFacts(b, c, LineKey("", 0));
    RefundFilesLinked(d, x);
    LinkedAdds(b, d);
    forall id, k
      ensures SafeKey(r, id, k)
    {
      RefundSafeKey(b, r, c, x, id, k);
    }
    SafeLinesAdd(b, d);
    forall id
      ensures Sum(r.refunds, RefundSubtotalFor(id)) == Sum(r.refundLines, RefundedAmount(RefundsOf(r.refunds, id)))
    {
      RefundFolds(b, x, ls, id, LineKey("", 0));
      SumConcat(b.refunds, [x], RefundSubtotalFor(id));
      SumOne(x, RefundSubtotalFor(id));
    }
    assert SafeAmounts(r, rate);
  }

  lemma RefundFilesLinked(d: Books, x: Refund)
    requires d.refunds == [x] && d.invoiceLines == [] && forall l :: l in d.refundLines ==> l.refundId == x.refundId
    ensures Linked(d)
  {
    RefundKnown(d.refunds, x.refundId);
    assert d.refunds[0].refundId == x.refundId;
  }

  // ---------------------------------------------------------------- runs

  lemma SafeByFiles(a: Books, b: Books, rate: int)
    requires a.invoices == b.invoices && a.invoiceLines == b.invoiceLines && a.refunds == b.refunds
      && a.refundLines == b.refundLines
    requires Safe(a, rate)
    ensures Safe(b, rate)
  {
    hide Sum, PeriodOfInvoice, PeriodOfRefund;
    LinkedByFiles(a, b);
    assert forall id :: KnownInvoice(a, id) == KnownInvoice(b, id);
    forall id, k
      ensures SafeKey(b, id, k)
    {
      assert SafeKey(a, id, k);
    }
  }

  lemma QuietStaysSafe(b: Books, p: Policy, cmd: Command)
    requires NoDocuments(Written(PlanOf(b, p, cmd).steps)) && Safe(b, p.taxRate)
    ensures Safe(Exec(b, p, cmd), p.taxRate)
  {
    hide *;
    ExecIs(b, p, cmd);
    var d := Written(PlanOf(b, p, cmd).steps);
    WritesAdd(b, PlanOf(b, p, cmd).steps);
    PlusQuiet(b, d);
    SafeByFiles(b, Plus(b, d), p.taxRate);
  }

  lemma PlusQuiet(b: Books, d: Books)
    requires NoDocuments(d)
    ensures var r := Plus(b, d);
      r.invoices == b.invoices && r.invoiceLines == b.invoiceLines && r.refunds == b.refunds && r.refundLines == b.refundLines
  {
  }

  lemma QuietFiles(b: Books, p: Policy, cmd: Command)
    requires PlanOf(b, p, cmd).Succeeds() && !cmd.Sell? && !cmd.Return?
    ensures NoDocuments(Written(PlanOf(b, p, cmd).steps))
  {
    hide Written, RegisterPlan, UseCases.StockPlan, JournalPlan, UseCases.CloseUsePlan, ClosedPeriods, EntryOf,
      LedgerLines, MovementOf;
    var closed := ClosedPeriods(b);
    SameFiles(Written(PlanOf(b, p, cmd).steps));
    match cmd {
      case Register(item) => RegisterWrites(b, item);
      case Move(c) => StockWrites(b, closed, p.allowNegativeStock, c);
      case Post(c) => JournalWrites(b, closed, c);
      case Close(periodId) => CloseUseWrites(b, periodId);
    }
  }

  lemma {:induction false} RunSafe(p: Policy, cmds: seq<Command>)
    ensures Safe(Run(EMPTY, p, cmds), p.taxRate)
  {
    hide *;
    if cmds == [] {
      NothingSafe(p, cmds);
    } else {
      var n := |cmds| - 1;
      RunSafe(p, cmds[..n]);
      RunUnfolds(p, cmds);
      CommandStaysSafe(Run(EMPTY, p, cmds[..n]), p, cmds[n]);
    }
  }

  lemma NothingSafe(p: Policy, cmds: seq<Command>)
    ensures cmds == [] ==> Run(EMPTY, p, cmds) == EMPTY
    ensures Safe(EMPTY, p.taxRate)
  {
    forall id, k
      ensures SafeKey(EMPTY, id, k)
    {
    }
  }

  /** Whatever the command, and whether it completes, is refused or stops half way. */
  lemma CommandStaysSafe(b: Books, p: Policy, cmd: Command)
    requires Safe(b, p.taxRate)
    ensures Safe(Exec(b, p, cmd), p.taxRate)
  {
    hide Safe, InvoicePlan, RefundPlan, RegisterPlan, JournalPlan, UseCases.StockPlan, UseCases.CloseUsePlan,
      ClosedPeriods, NoDocuments, Written;
    if PlanOf(b, p, cmd).error.Some? {
      StoppedQuiet(b, p, cmd);
      QuietStaysSafe(b, p, cmd);
    } else {
      match cmd {
        case Sell(c) => InvoiceStaysSafe(b, ClosedPeriods(b), p, c);
        case Return(c) => RefundStaysSafe(b, ClosedPeriods(b), p, c);
        case _ =>
          QuietFiles(b, p, cmd);
          QuietStaysSafe(b, p, cmd);
      }
    }
  }

  lemma WithinInvoice(b: Books, rate: int, id: string, k: LineKey)
    requires Safe(b, rate)
    ensures Refunded(b, id, k) <= Sold(b, id, k) && Restored(b, id, k) <= SoldCost(b, id, k)
  {
    hide Sum, Linked, SafeLines, SafeAmounts, UnitCogs;
    assert SafeKey(b, id, k);
    UnitCogsNonNegative(b, id, k);
    MulMono(Refunded(b, id, k), Sold(b, id, k), UnitCogs(b, id, k));
  }

  /** In every run, no more of an item at a price is refunded than was sold, and the refunds bring back no
      more cost than the invoice posted. */
  lemma RefundsWithinInvoice(p: Policy, cmds: seq<Command>, id: string, k: LineKey)
    ensures var b := Run(EMPTY, p, cmds);
      Refunded(b, id, k) <= Sold(b, id, k) && Restored(b, id, k) <= SoldCost(b, id, k)
  {
    hide *;
    RunSafe(p, cmds);
    WithinInvoice(Run(EMPTY, p, cmds), p.taxRate, id, k);
  }

  // ---------------------------------------------------------------- money

  function DistinctKeys(xs: seq<LineKey>): (keys: seq<LineKey>)
    ensures Distinct(keys) && forall k :: k in keys <==> k in xs
  {
    if xs == [] then [] else
    var before := DistinctKeys(xs[..|xs| - 1]);
    var k := xs[|xs| - 1];
    assert xs == xs[..|xs| - 1] + [k];
    if k in before then before else before + [k]
  }

  function AllKeys(b: Books): seq<LineKey> {
    DistinctKeys(seq(|b.invoiceLines|, i requires 0 <= i < |b.invoiceLines| => KeyOfLine()(b.invoiceLines[i]))
               + seq(|b.refundLines|, i requires 0 <= i < |b.refundLines| => KeyOfRefundLine()(b.refundLines[i])))
  }

  lemma AllKeysCover(b: Books)
    requires SafeLines(b)
    ensures Distinct(AllKeys(b)) && forall k :: k in AllKeys(b) ==> k.unitPrice >= 0
    ensures forall l :: l in b.invoiceLines ==> KeyOfLine()(l) in AllKeys(b)
    ensures forall l :: l in b.refundLines ==> KeyOfRefundLine()(l) in AllKeys(b)
  {
    hide KnownInvoice, DistinctKeys;
    var xs := seq(|b.invoiceLines|, i requires 0 <= i < |b.invoiceLines| => KeyOfLine()(b.invoiceLines[i]));
    var ys := seq(|b.refundLines|, i requires 0 <= i < |b.refundLines| => KeyOfRefundLine()(b.refundLines[i]));
    assert forall k :: k in xs + ys <==> k in xs || k in ys;
    forall l | l in b.invoiceLines
      ensures KeyOfLine()(l) in xs
    {
      var i :| 0 <= i < |b.invoiceLines| && b.invoiceLines[i] == l;
      assert xs[i] == KeyOfLine()(l);
    }
    forall l | l in b.refundLines
      ensures KeyOfRefundLine()(l) in ys
    {
      var i :| 0 <= i < |b.refundLines| && b.refundLines[i] == l;
      assert ys[i] == KeyOfRefundLine()(l);
    }
  }

  lemma {:induction false} SumScaled<T>(xs: seq<T>, f: T -> int, g: T -> int, u: int)
    requires forall x :: x in xs ==> f(x) == u * g(x)
    ensures Sum(xs, f) == u * Sum(xs, g)
  {
    if xs != [] {
      var n := |xs| - 1;
      assert xs[n] in xs && forall x :: x in xs[..n] ==> x in xs;
      SumScaled(xs[..n], f, g, u);
    }
  }

  lemma {:induction false} AmountsPerKey(b: Books, id: string, keys: seq<LineKey>)
    requires forall k :: k in keys ==> k.unitPrice >= 0 && Refunded(b, id, k) <= Sold(b, id, k)
    ensures SumPerKey(b.refundLines, keys, KeyOfRefundLine(), RefundedAmount(RefundsOf(b.refunds, id)))
         <= SumPerKey(b.invoiceLines, keys, KeyOfLine(), SoldAmount(id))
  {
    hide Sum, RefundsOf;
    if keys != [] {
      var n := |keys| - 1;
      var k, ids := keys[n], RefundsOf(b.refunds, id);
      assert k in keys && forall x :: x in keys[..n] ==> x in keys;
      AmountsPerKey(b, id, keys[..n]);
      SumScaled(b.refundLines, Restrict(KeyOfRefundLine(), k, RefundedAmount(ids)), RefundedOf(ids, k), k.unitPrice);
      SumScaled(b.invoiceLines, Restrict(KeyOfLine(), k, SoldAmount(id)), SoldOf(id, k), k.unitPrice);
      MulMono(Refunded(b, id, k), Sold(b, id, k), k.unitPrice);
    }
  }

  lemma SubtotalsWithinInvoice(b: Books, rate: int, x: Invoice)
    requires Safe(b, rate) && x in b.invoices
    ensures Sum(b.refunds, RefundSubtotalFor(x.invoiceId)) <= x.subtotal
  {
    hide Sum, Linked, SafeLines, RefundsOf, AllKeys;
    var id := x.invoiceId;
    AllKeysCover(b);
    forall k
      ensures Refunded(b, id, k) <= Sold(b, id, k)
    {
      assert SafeKey(b, id, k);
    }
    AmountsPerKey(b, id, AllKeys(b));
    PartitionSum(b.refundLines, AllKeys(b), KeyOfRefundLine(), RefundedAmount(RefundsOf(b.refunds, id)));
    PartitionSum(b.invoiceLines, AllKeys(b), KeyOfLine(), SoldAmount(id));
  }

  /** Taxing parts loses at most one unit for each part after the first. */
  lemma TaxOfParts(x: int, y: int, rate: int)
    ensures Tax(x, rate) + Tax(y, rate) <= Tax(x + y, rate) <= Tax(x, rate) + Tax(y, rate) + 1
  {
    assert (x + y) * rate == x * rate + y * rate;
  }

  lemma TaxMono(x: int, y: int, rate: int)
    requires x <= y && rate >= 0
    ensures Tax(x, rate) <= Tax(y, rate)
  {
    MulMono(x, y, rate);
  }

  lemma {:induction false} RefundTotals(xs: seq<Refund>, id: string, rate: int)
    requires forall x :: x in xs ==> x.total == x.subtotal + Tax(x.subtotal, rate)
    ensures var s, n := Sum(xs, RefundSubtotalFor(id)), Sum(xs, RefundCountFor(id));
      && n >= 0 && (n == 0 ==> s == 0)
      && Sum(xs, RefundTotalFor(id)) <= s + Tax(s, rate)
      && (n > 0 ==> Sum(xs, RefundTotalFor(id)) >= s + Tax(s, rate) - (n - 1))
      && (n == 0 ==> Sum(xs, RefundTotalFor(id)) == 0)
  {
    if xs != [] {
      var m := |xs| - 1;
      assert xs[m] in xs && forall x :: x in xs[..m] ==> x in xs;
      RefundTotals(xs[..m], id, rate);
      TaxOfParts(Sum(xs[..m], RefundSubtotalFor(id)), xs[m].subtotal, rate);
    }
  }

  lemma MoneyWithin(b: Books, rate: int, x: Invoice)
    requires Safe(b, rate) && x in b.invoices
    ensures var paid, n := Sum(b.refunds, RefundTotalFor(x.invoiceId)), Sum(b.refunds, RefundCountFor(x.invoiceId));
      && paid <= x.total
      && (n > 0 && Sum(b.refunds, RefundSubtotalFor(x.invoiceId)) == x.subtotal ==> x.total - paid <= n - 1)
  {
    hide Sum, Linked, SafeLines, SafeKey, Tax;
    SubtotalsWithinInvoice(b, rate, x);
    RefundTotals(b.refunds, x.invoiceId, rate);
    TaxMono(Sum(b.refunds, RefundSubtotalFor(x.invoiceId)), x.subtotal, rate);
  }

  /** In every run the refunds of an invoice, floored taxes included, total at most the invoice; refunding
      all of it in n parts falls short by at most n - 1. */
  lemma RefundMoneyWithinInvoice(p: Policy, cmds: seq<Command>, x: Invoice)
    requires x in Run(EMPTY, p, cmds).invoices
    ensures var b := Run(EMPTY, p, cmds);
      var paid, n := Sum(b.refunds, RefundTotalFor(x.invoiceId)), Sum(b.refunds, RefundCountFor(x.invoiceId));
      && paid <= x.total
      && (n > 0 && Sum(b.refunds, RefundSubtotalFor(x.invoiceId)) == x.subtotal ==> x.total - paid <= n - 1)
  {
    hide *;
    RunSafe(p, cmds);
    MoneyWithin(Run(EMPTY, p, cmds), p.taxRate, x);
  }
}
