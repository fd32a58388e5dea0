/** src/bms/domain/billing/service.py as it runs: dictionaries filled in loops, and the appends of an
    invoice or a refund one after the other, against the plans of Billing. */
module BillingService {
  import opened Status
  import opened Books
  import opened Accounting
  import opened Inventory
  import opened Billing

  /** A dictionary of integers whose get falls back to 0. */
  function Get<K>(m: map<K, int>, k: K): int { if k in m then m[k] else 0 }

  class BillingService {
    const store: Store
    const inventory: InventoryService
    const accounting: AccountingService
    const taxRate: int

    predicate Valid() { inventory.store == store && accounting.store == store }

    constructor (store: Store, inventory: InventoryService, accounting: AccountingService, taxRate: int)
      requires inventory.store == store && accounting.store == store
      ensures this.store == store && this.inventory == inventory && this.accounting == accounting
      ensures this.taxRate == taxRate && Valid()
    {
      this.store, this.inventory, this.accounting, this.taxRate := store, inventory, accounting, taxRate;
    }

    function Policy(): Policy { Billing.Policy(taxRate, inventory.allowNegativeStock) }

    // ---------------------------------------------------------------- invoices

    method ValidateStockAvailable(c: InvoiceCommand) returns (error: Option<Error>)
      requires Valid()
      ensures error == FirstStockError(store.View(), c.lines, ItemsInOrder(c.lines))
    {
      var required: map<string, int> := map[];
      var order: seq<string> := [];
      for i := 0 to |c.lines|
        invariant order == ItemsInOrder(c.lines[..i])
        invariant forall id :: id in order <==> id in required
        invariant forall id :: Get(required, id) == Sum(c.lines[..i], Needs(id))
      {
        var l := c.lines[i];
        assert c.lines[..i + 1][..i] == c.lines[..i];
        if l.itemId !in required {
          order := order + [l.itemId];
        }
        required := required[l.itemId := Get(required, l.itemId) + l.quantity];
      }
      assert c.lines[..|c.lines|] == c.lines;
      for i := 0 to |order|
        invariant FirstStockError(store.View(), c.lines, order) == FirstStockError(store.View(), c.lines, order[i..])
      {
        assert order[i..][1..] == order[i + 1..];
        assert order[i] in order;
        if CheckItem(store.items, order[i]).Some? {
          return CheckItem(store.items, order[i]);
        }
        var available := inventory.GetStockOnHand(order[i]);
        if available < required[order[i]] {
          return Some(InsufficientStock);
        }
      }
      return None;
    }

    method CostsByLine(c: InvoiceCommand) returns (costs: seq<int>)
      requires Valid()
      ensures costs == LineCosts(store.movements, c.lines)
    {
      costs := [];
      for i := 0 to |c.lines|
        invariant |costs| == i && forall k :: 0 <= k < i ==> costs[k] == LineCosts(store.movements, c.lines)[k]
      {
        var cost := inventory.GetAverageCost(c.lines[i].itemId);
        costs := costs + [c.lines[i].quantity * cost];
      }
    }

    method LinesAtCosts(c: InvoiceCommand, costs: seq<int>) returns (lines: seq<InvoiceLine>)
      requires PositiveQuantities(c) && costs == LineCosts(store.movements, c.lines)
      ensures lines == InvoiceLines(store.View(), c)
    {
      hide InvoiceLineAt;
      var items := store.items;
      lines := seq(|c.lines|, i requires 0 <= i < |c.lines| => InvoiceLineAt(items, costs[i], c, i));
    }

    /** The stock-out of every line, each priced at the average it finds. */
    method MoveSold(c: InvoiceCommand) returns (error: Option<Error>)
      requires Valid()
      modifies store
      ensures var plan := SaleMovements(old(store.View()), inventory.allowNegativeStock, c, 0);
        store.View() == ApplyAll(old(store.View()), plan.steps) && error == plan.error
    {
      hide Apply, MovementPlan, MovementOf, SaleMovements, SaleMovementAt, AverageCost, ApplyAll;
      ghost var b, steps := store.View(), [];
      StartSteps(b, SaleMovements(b, inventory.allowNegativeStock, c, 0));
      var i := 0;
      while i < |c.lines|
        invariant i <= |c.lines|
        invariant store.View() == ApplyAll(b, steps)
        invariant SaleMovements(b, inventory.allowNegativeStock, c, 0) ==
          Continued(steps, SaleMovements(store.View(), inventory.allowNegativeStock, c, i))
      {
        ghost var before := store.View();
        var cost := inventory.GetAverageCost(c.lines[i].itemId);
        var command := SaleMovementAt(cost, c, i);
        ghost var first := MovementPlan(before, inventory.allowNegativeStock, command);
        var movement;
        error, movement := inventory.CommitMovement(command);
        ApplyConcat(b, steps, first.steps);
        SaleUnfold(before, inventory.allowNegativeStock, c, i, steps);
        if error.Some? {
          return;
        }
        steps := steps + first.steps;
        i := i + 1;
      }
      SaleUnfold(store.View(), inventory.allowNegativeStock, c, i, steps);
      return None;
    }

    method CreateInvoice(c: InvoiceCommand) returns (error: Option<Error>)
      requires Valid()
      modifies store
      ensures var plan := InvoicePlan(old(store.View()), accounting.closedPeriods, Policy(), c);
        store.View() == ApplyAll(old(store.View()), plan.steps) && error == plan.error
    {
      hide Apply, JournalPlan, SaleMovements, SaleJournalAt, InvoiceLines, InvoiceOf, SaleOp, LineCosts;
      ghost var b := store.View();
      error := ValidateInvoice(taxRate, c);
      if error.Some? {
        return;
      }
      if HasInvoice(store.invoices, c.invoiceId) {
        return Some(DuplicateInvoice);
      }
      if c.periodId in accounting.closedPeriods {
        return Some(PeriodClosed);
      }
      error := ValidateStockAvailable(c);
      if error.Some? {
        return;
      }
      RefusedOrPositive(b, accounting.closedPeriods, taxRate, c);
      var costs := CostsByLine(c);
      var journal := SaleJournalAt(taxRate, costs, c);
      var lines := LinesAtCosts(c, costs);
      var tid := store.uuids;
      var pending := WalStep(Pending(tid, SaleOp(c)));
      store.Append(pending);
      ApplyOne(b, pending);
      ghost var b1 := store.View();
      ghost var posted := JournalPlan(b1, accounting.closedPeriods, journal);
      error := accounting.PostJournal(journal);
      ApplyConcat(b, [pending], posted.steps);
      if error.Some? {
        return;
      }
      ghost var b2 := store.View();
      ghost var moved := SaleMovements(b2, inventory.allowNegativeStock, c, 0);
      error := MoveSold(c);
      ApplyConcat(b, [pending] + posted.steps, moved.steps);
      if error.Some? {
        return;
      }
      var invoice := InvoiceStep(InvoiceOf(taxRate, c));
      store.Append(invoice);
      store.AppendEach(InvoiceLineSteps(lines));
      store.Append(AuditStep("billing.invoice_created"));
      store.Append(EventStep("billing.sale_completed.v1"));
      store.Append(WalStep(Committed(tid)));
      EndOfTransaction(b, tid, SaleOp(c), posted.steps, moved.steps, invoice, InvoiceLineSteps(lines),
                       "billing.invoice_created", "billing.sale_completed.v1");
    }

    // ---------------------------------------------------------------- refunds

    method OriginalInvoiceQuantities(invoiceId: string) returns (quantities: map<LineKey, int>)
      ensures forall k :: Get(quantities, k) == Sold(store.View(), invoiceId, k)
      ensures quantities == map[] <==> !HasInvoiceLines(store.invoiceLines, invoiceId)
    {
      quantities := map[];
      var ls := store.invoiceLines;
      for i := 0 to |ls|
        invariant forall k :: Get(quantities, k) == Sum(ls[..i], SoldOf(invoiceId, k))
        invariant quantities == map[] <==> !HasInvoiceLines(ls[..i], invoiceId)
      {
        assert ls[..i + 1] == ls[..i] + [ls[i]];
        HasMoreInvoiceLines(ls[..i], ls[i], invoiceId);
        if ls[i].invoiceId == invoiceId {
          var key := LineKey(ls[i].itemId, ls[i].unitPrice);
          quantities := quantities[key := Get(quantities, key) + ls[i].quantity];
          assert key in quantities;
        }
      }
      assert ls[..|ls|] == ls;
    }

    method ValidateRefundAgainstOriginalInvoice(c: RefundCommand) returns (error: Option<Error>)
      ensures error == GuardError(store.View(), c)
    {
      hide Sold, HasInvoiceLines;
      var remaining := OriginalInvoiceQuantities(c.originalInvoiceId);
      if remaining == map[] {
        return Some(NoRefundableLines);
      }
      var ids := RefundsOf(store.refunds, c.originalInvoiceId);
      var ls := store.refundLines;
      for i := 0 to |ls|
        invariant forall k ::
          Get(remaining, k) == Sold(store.View(), c.originalInvoiceId, k) - Sum(ls[..i], RefundedOf(ids, k))
      {
        assert ls[..i + 1][..i] == ls[..i];
        if ls[i].refundId in ids {
          var key := LineKey(ls[i].itemId, ls[i].unitPrice);
          remaining := remaining[key := Get(remaining, key) - ls[i].quantity];
        }
      }
      assert ls[..|ls|] == ls;
      error := CheckRequested(c, remaining);
    }

    /** The requested quantities summed by key, then checked in insertion order. */
    method CheckRequested(c: RefundCommand, remaining: map<LineKey, int>) returns (error: Option<Error>)
      requires forall k :: Get(remaining, k) == Remaining(store.View(), c.originalInvoiceId, k)
      ensures error == FirstKeyError(store.View(), c, KeysInOrder(c.lines))
    {
      hide Remaining, Sum;
      var requested: map<LineKey, int> := map[];
      NothingRequested();
      var order: seq<LineKey> := [];
      for i := 0 to |c.lines|
        invariant order == KeysInOrder(c.lines[..i])
        invariant forall k :: k in order <==> k in requested
        invariant forall k :: Get(requested, k) == Sum(c.lines[..i], Restrict(KeyOfRequest(), k, RequestQuantity()))
      {
        var l := c.lines[i];
        assert c.lines[..i + 1][..i] == c.lines[..i] && c.lines[..i + 1] == c.lines[..i] + [l];
        RequestGrows(c.lines[..i], l);
        var key := LineKey(l.itemId, l.unitPrice);
        if key !in requested {
          order := order + [key];
        }
        requested := requested[key := Get(requested, key) + l.quantity];
      }
      assert c.lines[..|c.lines|] == c.lines;
      for i := 0 to |order|
        invariant FirstKeyError(store.View(), c, order) == FirstKeyError(store.View(), c, order[i..])
      {
        assert order[i..][1..] == order[i + 1..];
        assert order[i] in order;
        if Get(remaining, order[i]) <= 0 {
          return Some(NotAvailable);
        }
        if requested[order[i]] > Get(remaining, order[i]) {
          return Some(ExceedsRemaining);
        }
      }
      return None;
    }

    method OriginalInvoiceCogsUnitCosts(invoiceId: string) returns (costs: map<LineKey, int>)
      ensures forall k :: Get(costs, k) == UnitCogs(store.View(), invoiceId, k)
    {
      var quantities: map<LineKey, int> := map[];
      var cogs: map<LineKey, int> := map[];
      var ls := store.invoiceLines;
      for i := 0 to |ls|
        invariant quantities.Keys == cogs.Keys
        invariant forall k :: Get(quantities, k) == Sum(ls[..i], SoldOf(invoiceId, k))
        invariant forall k :: Get(cogs, k) == Sum(ls[..i], CostOf(invoiceId, k))
      {
        assert ls[..i + 1][..i] == ls[..i];
        if ls[i].invoiceId == invoiceId {
          var key := LineKey(ls[i].itemId, ls[i].unitPrice);
          quantities := quantities[key := Get(quantities, key) + ls[i].quantity];
          cogs := cogs[key := Get(cogs, key) + ls[i].cogs];
        }
      }
      assert ls[..|ls|] == ls;
      costs := map k | k in quantities && quantities[k] > 0 :: cogs[k] / quantities[k];
    }

    method RefundCogsByLine(c: RefundCommand) returns (costs: seq<int>)
      ensures costs == RestoredCosts(store.View(), c)
    {
      hide UnitCogs;
      var unitCosts := OriginalInvoiceCogsUnitCosts(c.originalInvoiceId);
      costs := seq(|c.lines|, i requires 0 <= i < |c.lines| =>
        if c.lines[i].restock then c.lines[i].quantity * Get(unitCosts, LineKey(c.lines[i].itemId, c.lines[i].unitPrice)) else 0);
    }

    method RefundLinesAtCosts(c: RefundCommand, costs: seq<int>) returns (lines: seq<RefundLine>)
      requires PositiveRequests(c) && costs == RestoredCosts(store.View(), c)
      ensures lines == RefundLines(store.View(), c)
    {
      hide RefundLineAt, RestoredCost;
      var items := store.items;
      lines := seq(|c.lines|, i requires 0 <= i < |c.lines| => RefundLineAt(items, costs[i], c, i));
    }

    /** The stock-in of every restocked line, at the cost computed before the refund. */
    method MoveRestocked(c: RefundCommand, costs: seq<int>, ghost start: Books) returns (error: Option<Error>)
      requires Valid() && PositiveRequests(c) && costs == RestoredCosts(start, c)
      modifies store
      ensures var plan := RefundMovements(old(store.View()), start, inventory.allowNegativeStock, c, 0);
        store.View() == ApplyAll(old(store.View()), plan.steps) && error == plan.error
    {
      hide Apply, MovementPlan, MovementOf, RestoredCost, RefundMovements, RefundMovementAt, ApplyAll;
      ghost var b, steps := store.View(), [];
      StartSteps(b, RefundMovements(b, start, inventory.allowNegativeStock, c, 0));
      var i := 0;
      while i < |c.lines|
        invariant i <= |c.lines|
        invariant store.View() == ApplyAll(b, steps)
        invariant RefundMovements(b, start, inventory.allowNegativeStock, c, 0) ==
          Continued(steps, RefundMovements(store.View(), start, inventory.allowNegativeStock, c, i))
      {
        RefundUnfold(store.View(), start, inventory.allowNegativeStock, c, i, steps);
        if c.lines[i].restock {
          var command := RefundMovementAt(costs[i] / c.lines[i].quantity, c, i);
          ghost var first := MovementPlan(store.View(), inventory.allowNegativeStock, command);
          var movement;
          error, movement := inventory.CommitMovement(command);
          ApplyConcat(b, steps, first.steps);
          if error.Some? {
            return;
          }
          steps := steps + first.steps;
        }
        i := i + 1;
      }
      RefundUnfold(store.View(), start, inventory.allowNegativeStock, c, i, steps);
      return None;
    }

    method CreateRefund(c: RefundCommand) returns (error: Option<Error>)
      requires Valid()
      modifies store
      ensures var plan := RefundPlan(old(store.View()), accounting.closedPeriods, Policy(), c);
        store.View() == ApplyAll(old(store.View()), plan.steps) && error == plan.error
    {
      hide Apply, JournalPlan, RefundMovements, RefundJournalAt, RefundLines, RefundAt, ReturnOp, RestoredCosts,
        GuardError;
      ghost var b := store.View();
      error := ValidateRefund(taxRate, c);
      if error.Some? {
        return;
      }
      if HasRefund(store.refunds, c.refundId) {
        return Some(DuplicateRefund);
      }
      var original := FindInvoice(store.invoices, c.originalInvoiceId);
      if original.None? {
        return Some(UnknownInvoice);
      }
      if c.periodId in accounting.closedPeriods {
        return Some(PeriodClosed);
      }
      if original.value.currency != c.currency {
        return Some(CurrencyMismatch);
      }
      error := ValidateRefundAgainstOriginalInvoice(c);
      if error.Some? {
        return;
      }
      RefusedOrPositiveRequests(b, accounting.closedPeriods, taxRate, c);
      var costs := RefundCogsByLine(c);
      var journal := RefundJournalAt(taxRate, costs, c);
      var lines := RefundLinesAtCosts(c, costs);
      var refund := RefundStep(RefundAt(taxRate, costs, c));
      var tid := store.uuids;
      var pending := WalStep(Pending(tid, ReturnOp(c)));
      store.Append(pending);
      ApplyOne(b, pending);
      ghost var b1 := store.View();
      ghost var posted := JournalPlan(b1, accounting.closedPeriods, journal);
      error := accounting.PostJournal(journal);
      ApplyConcat(b, [pending], posted.steps);
      if error.Some? {
        return;
      }
      ghost var b2 := store.View();
      ghost var moved := RefundMovements(b2, b, inventory.allowNegativeStock, c, 0);
      error := MoveRestocked(c, costs, b);
      ApplyConcat(b, [pending] + posted.steps, moved.steps);
      if error.Some? {
        return;
      }
      store.Append(refund);
      store.AppendEach(RefundLineSteps(lines));
      store.Append(AuditStep("billing.refund_created"));
      store.Append(EventStep("billing.refund_completed.v1"));
      store.Append(WalStep(Committed(tid)));
      EndOfTransaction(b, tid, ReturnOp(c), posted.steps, moved.steps, refund, RefundLineSteps(lines),
                       "billing.refund_created", "billing.refund_completed.v1");
    }
  }

  /** A plan after earlier appends. */
  ghost function Continued(steps: seq<Step>, rest: Plan): Plan { Plan(steps + rest.steps, rest.error) }

  lemma StartSteps(b: Books, plan: Plan)
    ensures ApplyAll(b, []) == b && Continued([], plan) == plan
  {
    assert [] + plan.steps == plan.steps;
  }

  lemma SaleUnfold(b: Books, allowNegative: bool, c: InvoiceCommand, i: nat, steps: seq<Step>)
    requires i <= |c.lines|
    ensures i == |c.lines| ==> Continued(steps, SaleMovements(b, allowNegative, c, i)) == Plan(steps, None)
    ensures i < |c.lines| ==>
      var first := MovementPlan(b, allowNegative, SaleMovement(b.movements, c, i));
      Continued(steps, SaleMovements(b, allowNegative, c, i)) ==
        if first.error.Some? then Continued(steps, first)
        else Continued(steps + first.steps, SaleMovements(ApplyAll(b, first.steps), allowNegative, c, i + 1))
  {
    hide MovementPlan, SaleMovement, ApplyAll;
    if i == |c.lines| {
      assert steps + [] == steps;
    } else {
      var first := MovementPlan(b, allowNegative, SaleMovement(b.movements, c, i));
      var rest := SaleMovements(ApplyAll(b, first.steps), allowNegative, c, i + 1);
      assert steps + (first.steps + rest.steps) == steps + first.steps + rest.steps;
    }
  }

  lemma RefundUnfold(b: Books, start: Books, allowNegative: bool, c: RefundCommand, i: nat, steps: seq<Step>)
    requires i <= |c.lines| && PositiveRequests(c)
    ensures i == |c.lines| ==> Continued(steps, RefundMovements(b, start, allowNegative, c, i)) == Plan(steps, None)
    ensures i < |c.lines| && !c.lines[i].restock ==>
      RefundMovements(b, start, allowNegative, c, i) == RefundMovements(b, start, allowNegative, c, i + 1)
    ensures i < |c.lines| && c.lines[i].restock ==>
      var first := MovementPlan(b, allowNegative, RefundMovement(start, c, i));
      Continued(steps, RefundMovements(b, start, allowNegative, c, i)) ==
        if first.error.Some? then Continued(steps, first)
        else Continued(steps + first.steps, RefundMovements(ApplyAll(b, first.steps), start, allowNegative, c, i + 1))
  {
    hide MovementPlan, RefundMovement, ApplyAll;
    if i == |c.lines| {
      assert steps + [] == steps;
    } else if c.lines[i].restock {
      var first := MovementPlan(b, allowNegative, RefundMovement(start, c, i));
      var rest := RefundMovements(ApplyAll(b, first.steps), start, allowNegative, c, i + 1);
      assert steps + (first.steps + rest.steps) == steps + first.steps + rest.steps;
    }
  }

  lemma NothingRequested()
    ensures forall k :: Sum([], Restrict(KeyOfRequest(), k, RequestQuantity())) == 0
  {
  }

  lemma RequestGrows(lines: seq<RefundLineCommand>, l: RefundLineCommand)
    ensures forall k :: (
      Sum(lines + [l], Restrict(KeyOfRequest(), k, RequestQuantity())) ==
        Sum(lines, Restrict(KeyOfRequest(), k, RequestQuantity()))
          + (if LineKey(l.itemId, l.unitPrice) == k then l.quantity else 0))
  {
    hide Sum;
    forall k
      ensures Sum(lines + [l], Restrict(KeyOfRequest(), k, RequestQuantity())) ==
        Sum(lines, Restrict(KeyOfRequest(), k, RequestQuantity()))
          + (if LineKey(l.itemId, l.unitPrice) == k then l.quantity else 0)
    {
      SumConcat(lines, [l], Restrict(KeyOfRequest(), k, RequestQuantity()));
      SumOne(l, Restrict(KeyOfRequest(), k, RequestQuantity()));
    }
  }

  lemma HasMoreInvoiceLines(ls: seq<InvoiceLine>, l: InvoiceLine, invoiceId: string)
    ensures HasInvoiceLines(ls + [l], invoiceId) <==> HasInvoiceLines(ls, invoiceId) || l.invoiceId == invoiceId
  {
    assert (ls + [l])[|ls|] == l;
    if HasInvoiceLines(ls, invoiceId) {
      var i :| 0 <= i < |ls| && ls[i].invoiceId == invoiceId;
      assert (ls + [l])[i] == ls[i];
    }
  }

  /** The appends after the nested calls complete the transaction. */
  lemma EndOfTransaction(b: Books, tid: Tid, op: Operation, posted: seq<Step>, moved: seq<Step>, x: Step, ls: seq<Step>,
                         action: string, event: string)
    ensures var start := ApplyAll(b, [WalStep(Pending(tid, op))] + posted + moved);
      var end := ApplyAll(Apply(start, x), ls);
      Apply(Apply(Apply(end, AuditStep(action)), EventStep(event)), WalStep(Committed(tid)))
        == ApplyAll(b, Transaction(tid, op, posted + moved + [x] + ls, action, event))
  {
    hide Apply, Transaction;
    var p := WalStep(Pending(tid, op));
    TransactionSteps(b, tid, op, posted + moved + [x], ls, action, event);
    ApplyConcat(Apply(b, p), posted + moved, [x]);
    ApplyOne(ApplyAll(Apply(b, p), posted + moved), x);
    assert [p] + posted + moved == [p] + (posted + moved);
    ApplyConcat(b, [p], posted + moved);
    ApplyOne(b, p);
  }
}
