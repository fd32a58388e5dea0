/** What a completed command leaves in the log, the audit and the event files, record by record. */
module Trails {
  import opened Books
  import opened Accounting
  import opened Inventory
  import opened Billing
  import opened Writes
  import opened Reconciliation
  import opened UseCases
  import opened Runs
  import opened Stops
  import opened Contents
  import StockPrices

  /** Log records, audit actions and events, and how many transaction ids were taken. */
  datatype Trail = Trail(wal: seq<WalRecord>, audits: seq<string>, events: seq<string>, taken: nat)
  {
    function Then(next: Trail): Trail {
      Trail(wal + next.wal, audits + next.audits, events + next.events, taken + next.taken)
    }

    /** Enclosed in the transaction that announces the operation. */
    function Within(tid: Tid, op: Operation, action: string, event: string): Trail {
      Trail([Pending(tid, op)] + wal + [Committed(tid)], audits + [action], events + [event], taken + 1)
    }
  }

  const NO_TRAIL := Trail([], [], [], 0)

  predicate Leaves(b: Books, steps: seq<Step>, x: Trail) {
    var r := ApplyAll(b, steps);
    r.wal == b.wal + x.wal && r.audits == b.audits + x.audits && r.events == b.events + x.events
      && r.uuids == b.uuids + x.taken
  }

  lemma LeavesThen(b: Books, xs: seq<Step>, x: Trail, ys: seq<Step>, y: Trail)
    requires Leaves(b, xs, x) && Leaves(ApplyAll(b, xs), ys, y)
    ensures Leaves(b, xs + ys, x.Then(y))
  {
    hide ApplyAll;
    ApplyConcat(b, xs, ys);
  }

  predicate Silent(s: Step) { !s.WalStep? && !s.AuditStep? && !s.EventStep? }

  predicate AllSilent(steps: seq<Step>) { forall i :: 0 <= i < |steps| ==> Silent(steps[i]) }

  lemma {:induction false} SilentSteps(b: Books, steps: seq<Step>)
    requires AllSilent(steps)
    ensures Leaves(b, steps, NO_TRAIL)
  {
    if steps != [] {
      SilentSteps(b, steps[..|steps| - 1]);
      assert Silent(steps[|steps| - 1]);
    }
  }

  lemma Enclosed(x: Trail, tid: Tid, op: Operation, action: string, event: string)
    ensures Trail([Pending(tid, op)], [], [], 1).Then(x).Then(Trail([Committed(tid)], [action], [event], 0))
      == x.Within(tid, op, action, event)
    ensures NO_TRAIL.Within(tid, op, action, event) == Trail([Pending(tid, op), Committed(tid)], [action], [event], 1)
  {
    var first, last := Trail([Pending(tid, op)], [], [], 1), Trail([Committed(tid)], [action], [event], 0);
    var all, within := first.Then(x).Then(last), x.Within(tid, op, action, event);
    assert all.audits == within.audits && all.events == within.events;
    assert [Pending(tid, op)] + [] + [Committed(tid)] == [Pending(tid, op), Committed(tid)];
    assert [] + [action] == [action] && [] + [event] == [event];
  }

  lemma TransactionLeaves(b: Books, op: Operation, body: seq<Step>, x: Trail, action: string, event: string)
    requires Leaves(ApplyAll(b, [WalStep(Pending(b.uuids, op))]), body, x)
    ensures Leaves(b, Transaction(b.uuids, op, body, action, event), x.Within(b.uuids, op, action, event))
  {
    hide Leaves, ApplyAll;
    var first, last := [WalStep(Pending(b.uuids, op))],
      [AuditStep(action), EventStep(event), WalStep(Committed(b.uuids))];
    var start := Trail([Pending(b.uuids, op)], [], [], 1);
    FirstLeaves(b, op);
    LeavesThen(b, first, start, body, x);
    var r := ApplyAll(b, first + body);
    IdTaken(b, first + body, start.Then(x));
    LastLeaves(r, b.uuids, action, event);
    Enclosed(x, b.uuids, op, action, event);
    LeavesThen(b, first + body, start.Then(x), last, Trail([Committed(b.uuids)], [action], [event], 0));
  }

  lemma IdTaken(b: Books, steps: seq<Step>, x: Trail)
    requires Leaves(b, steps, x)
    ensures ApplyAll(b, steps).uuids == b.uuids + x.taken
  {
  }

  lemma FirstLeaves(b: Books, op: Operation)
    ensures Leaves(b, [WalStep(Pending(b.uuids, op))], Trail([Pending(b.uuids, op)], [], [], 1))
  {
    ApplyOne(b, WalStep(Pending(b.uuids, op)));
  }

  lemma LastLeaves(b: Books, tid: Tid, action: string, event: string)
    requires tid < b.uuids
    ensures Leaves(b, [AuditStep(action), EventStep(event), WalStep(Committed(tid))],
                   Trail([Committed(tid)], [action], [event], 0))
  {
    WrittenEnd(action, event, tid);
    WritesAdd(b, [AuditStep(action), EventStep(event), WalStep(Committed(tid))]);
  }

  // ---------------------------------------------------------------- single transactions

  function JournalTrail(t: Tid, journalId: string): Trail {
    Trail([Pending(t, PostJournalOp(journalId)), Committed(t)], ["accounting.journal_posted"],
          ["accounting.journal_posted.v1"], 1)
  }

  function MovementTrail(t: Tid, movementId: string): Trail {
    Trail([Pending(t, CommitMovementOp(movementId)), Committed(t)], ["inventory.stock_moved"],
          ["inventory.stock_moved.v1"], 1)
  }

  lemma JournalLeaves(b: Books, closed: set<string>, c: PostCommand)
    requires JournalPlan(b, closed, c).Succeeds()
    ensures Leaves(b, JournalPlan(b, closed, c).steps, JournalTrail(b.uuids, c.journalId))
  {
    JournalWrites(b, closed, c);
    hide Leaves, EntryOf, LedgerLines, RefuseJournal, ApplyAll, Written;
    SilentSteps(ApplyAll(b, [WalStep(Pending(b.uuids, PostJournalOp(c.journalId)))]), JournalBody(c));
    TransactionLeaves(b, PostJournalOp(c.journalId), JournalBody(c), NO_TRAIL, "accounting.journal_posted",
                      "accounting.journal_posted.v1");
    Enclosed(NO_TRAIL, b.uuids, PostJournalOp(c.journalId), "accounting.journal_posted",
             "accounting.journal_posted.v1");
  }

  lemma MovementLeaves(b: Books, allowNegative: bool, c: StockCommand)
    requires MovementPlan(b, allowNegative, c).Succeeds()
    ensures Leaves(b, MovementPlan(b, allowNegative, c).steps, MovementTrail(b.uuids, c.movementId))
  {
    hide Leaves, MovementOf, RefuseMovement, ApplyAll;
    var body := [MovementStep(MovementOf(b.movements, c))];
    SilentSteps(ApplyAll(b, [WalStep(Pending(b.uuids, CommitMovementOp(c.movementId)))]), body);
    TransactionLeaves(b, CommitMovementOp(c.movementId), body, NO_TRAIL, "inventory.stock_moved",
                      "inventory.stock_moved.v1");
    Enclosed(NO_TRAIL, b.uuids, CommitMovementOp(c.movementId), "inventory.stock_moved", "inventory.stock_moved.v1");
  }

  // ---------------------------------------------------------------- documents

  /** One movement transaction after the other. */
  function MovesTrail(t: Tid, ids: seq<string>): Trail
    decreases |ids|
  {
    if ids == [] then NO_TRAIL else MovementTrail(t, ids[0]).Then(MovesTrail(t + 1, ids[1..]))
  }

  lemma NextMove(b: Books, allowNegative: bool, c: StockCommand, rest: seq<Step>, ids: seq<string>)
    requires MovementPlan(b, allowNegative, c).Succeeds() && ids != [] && ids[0] == c.movementId
    requires var first := MovementPlan(b, allowNegative, c).steps;
      Leaves(ApplyAll(b, first), rest, MovesTrail(ApplyAll(b, first).uuids, ids[1..]))
    ensures Leaves(b, MovementPlan(b, allowNegative, c).steps + rest, MovesTrail(b.uuids, ids))
  {
    hide Leaves, MovementPlan, ApplyAll;
    var first := MovementPlan(b, allowNegative, c).steps;
    MovementLeaves(b, allowNegative, c);
    IdTaken(b, first, MovementTrail(b.uuids, c.movementId));
    LeavesThen(b, first, MovementTrail(b.uuids, c.movementId), rest, MovesTrail(b.uuids + 1, ids[1..]));
  }

  lemma {:induction false} SaleMovesLeave(b: Books, allowNegative: bool, c: InvoiceCommand, i: nat)
    requires i <= |c.lines| && SaleMovements(b, allowNegative, c, i).Succeeds()
    ensures Leaves(b, SaleMovements(b, allowNegative, c, i).steps, MovesTrail(b.uuids, SaleMovementIds(c)[i..]))
    decreases |c.lines| - i
  {
    if i == |c.lines| {
      SilentSteps(b, []);
    } else {
      hide Leaves, MovementPlan, ApplyAll, SaleMovementId, MovementTrail;
      var move := SaleMovement(b.movements, c, i);
      var b1 := ApplyAll(b, MovementPlan(b, allowNegative, move).steps);
      SaleMovesLeave(b1, allowNegative, c, i + 1);
      assert SaleMovementIds(c)[i..][1..] == SaleMovementIds(c)[i + 1..];
      NextMove(b, allowNegative, move, SaleMovements(b1, allowNegative, c, i + 1).steps, SaleMovementIds(c)[i..]);
    }
  }

  /** The ids of the restocked lines from i on. */
  function IdsFrom(c: RefundCommand, i: nat): seq<string>
    requires i <= |c.lines|
    decreases |c.lines| - i
  {
    if i == |c.lines| then []
    else (if c.lines[i].restock then [RefundMovementId(c.refundId, i)] else []) + IdsFrom(c, i + 1)
  }

  lemma {:induction false} IdsSplit(c: RefundCommand, i: nat)
    requires i <= |c.lines|
    ensures RefundMovementIds(c, |c.lines|) == RefundMovementIds(c, i) + IdsFrom(c, i)
    decreases |c.lines| - i
  {
    if i < |c.lines| {
      hide RefundMovementId;
      IdsSplit(c, i + 1);
      var one := if c.lines[i].restock then [RefundMovementId(c.refundId, i)] else [];
      assert RefundMovementIds(c, i + 1) == RefundMovementIds(c, i) + one && IdsFrom(c, i) == one + IdsFrom(c, i + 1);
    }
  }

  lemma {:induction false} ReturnMovesLeave(b: Books, start: Books, allowNegative: bool, c: RefundCommand, i: nat)
    requires i <= |c.lines| && PositiveRequests(c) && RefundMovements(b, start, allowNegative, c, i).Succeeds()
    ensures Leaves(b, RefundMovements(b, start, allowNegative, c, i).steps, MovesTrail(b.uuids, IdsFrom(c, i)))
    decreases |c.lines| - i
  {
    if i == |c.lines| {
      SilentSteps(b, []);
    } else {
      hide Leaves, MovementPlan, ApplyAll, RefundMovementId, MovementTrail, RestoredCost;
      if !c.lines[i].restock {
        ReturnMovesLeave(b, start, allowNegative, c, i + 1);
        assert IdsFrom(c, i) == [] + IdsFrom(c, i + 1) == IdsFrom(c, i + 1);
      } else {
        var move := RefundMovement(start, c, i);
        var b1 := ApplyAll(b, MovementPlan(b, allowNegative, move).steps);
        ReturnMovesLeave(b1, start, allowNegative, c, i + 1);
        assert IdsFrom(c, i)[1..] == IdsFrom(c, i + 1);
        NextMove(b, allowNegative, move, RefundMovements(b1, start, allowNegative, c, i + 1).steps, IdsFrom(c, i));
      }
    }
  }

  /** An invoice or a refund: its journal, then its movements, within its own transaction. */
  function DocumentTrail(t: Tid, op: Operation, journalId: string, ids: seq<string>, action: string,
                         event: string): Trail {
    JournalTrail(t + 1, journalId).Then(MovesTrail(t + 2, ids)).Within(t, op, action, event)
  }

  lemma DocumentLeaves(b: Books, op: Operation, posted: seq<Step>, journalId: string, moved: seq<Step>,
                       ids: seq<string>, rest: seq<Step>,
                       action: string, event: string)
    requires var b1 := ApplyAll(b, [WalStep(Pending(b.uuids, op))]);
      && Leaves(b1, posted, JournalTrail(b1.uuids, journalId))
      && Leaves(ApplyAll(b1, posted), moved, MovesTrail(ApplyAll(b1, posted).uuids, ids))
    requires AllSilent(rest)
    ensures Leaves(b, Transaction(b.uuids, op, posted + moved + rest, action, event),
                   DocumentTrail(b.uuids, op, journalId, ids, action, event))
  {
    hide Leaves, ApplyAll, Transaction, JournalTrail, MovesTrail;
    var b1 := ApplyAll(b, [WalStep(Pending(b.uuids, op))]);
    PendingOnly(b, op);
    var x, y := JournalTrail(b1.uuids, journalId), MovesTrail(b1.uuids + 1, ids);
    OneJournal(b1, posted, journalId);
    LeavesThen(b1, posted, x, moved, y);
    SilentSteps(ApplyAll(b1, posted + moved), rest);
    LeavesThen(b1, posted + moved, x.Then(y), rest, NO_TRAIL);
    NothingThen(x.Then(y));
    TransactionLeaves(b, op, posted + moved + rest, x.Then(y), action, event);
  }

  lemma OneJournal(b: Books, steps: seq<Step>, journalId: string)
    requires Leaves(b, steps, JournalTrail(b.uuids, journalId))
    ensures ApplyAll(b, steps).uuids == b.uuids + 1
  {
  }

  lemma NothingThen(x: Trail)
    ensures x.Then(NO_TRAIL) == x
  {
    assert x.wal + [] == x.wal && x.audits + [] == x.audits && x.events + [] == x.events;
  }

  lemma SaleShape(b: Books, closed: set<string>, p: Policy, c: InvoiceCommand)
    requires InvoicePlan(b, closed, p, c).Succeeds()
    ensures PositiveQuantities(c)
    ensures var posted, moved := SalePosting(b, closed, p, c), SaleMoves(b, closed, p, c);
      && posted.Succeeds() && moved.Succeeds()
      && InvoicePlan(b, closed, p, c).steps ==
           Transaction(b.uuids, SaleOp(c),
                       posted.steps + moved.steps
               + ([InvoiceStep(InvoiceOf(p.taxRate, c))] + InvoiceLineSteps(InvoiceLines(b, c))),
                       "billing.invoice_created", "billing.sale_completed.v1")
      && AllSilent([InvoiceStep(InvoiceOf(p.taxRate, c))] + InvoiceLineSteps(InvoiceLines(b, c)))
  {
    RefusedOrPositive(b, closed, p.taxRate, c);
    hide RefuseInvoice, JournalPlan, SaleMovements, SaleJournal, InvoiceLines, InvoiceOf, ApplyAll, SaleOp,
      PositiveQuantities, Transaction;
    var posted, moved := SalePosting(b, closed, p, c), SaleMoves(b, closed, p, c);
    var first, rest := [InvoiceStep(InvoiceOf(p.taxRate, c))], InvoiceLineSteps(InvoiceLines(b, c));
    assert posted.steps + moved.steps + (first + rest) == posted.steps + moved.steps + first + rest;
  }

  lemma SaleNames(b: Books, closed: set<string>, p: Policy, c: InvoiceCommand)
    ensures InvoiceOf(p.taxRate, c).movementIds == SaleMovementIds(c) && SaleMovementIds(c)[0..] == SaleMovementIds(c)
    ensures SaleOp(c) == CreateInvoiceOp(c.invoiceId, "jrn_" + c.invoiceId, SaleMovementIds(c))
    ensures SaleJournal(p.taxRate, b.movements, c).journalId == "jrn_" + c.invoiceId
    ensures SalePosting(b, closed, p, c) == JournalPlan(SaleStart(b, c), closed, SaleJournal(p.taxRate, b.movements, c))
    ensures SaleMoves(b, closed, p, c) ==
      SaleMovements(ApplyAll(SaleStart(b, c), SalePosting(b, closed, p, c).steps), p.allowNegativeStock, c, 0)
    ensures SaleStart(b, c) == ApplyAll(b, [WalStep(Pending(b.uuids, SaleOp(c)))])
  {
    hide JournalPlan, SaleMovements, LineCosts, Sum, Tax, ApplyAll;
  }

  lemma SaleLeaves(b: Books, closed: set<string>, p: Policy, c: InvoiceCommand)
    requires InvoicePlan(b, closed, p, c).Succeeds()
    ensures var x := InvoiceOf(p.taxRate, c);
      Leaves(b, InvoicePlan(b, closed, p, c).steps,
             DocumentTrail(b.uuids, CreateInvoiceOp(c.invoiceId, "jrn_" + c.invoiceId, x.movementIds),
                           "jrn_" + c.invoiceId, x.movementIds,
                           "billing.invoice_created", "billing.sale_completed.v1"))
  {
    hide *;
    SaleShape(b, closed, p, c);
    SaleNames(b, closed, p, c);
    var posted, moved := SalePosting(b, closed, p, c), SaleMoves(b, closed, p, c);
    var rest := [InvoiceStep(InvoiceOf(p.taxRate, c))] + InvoiceLineSteps(InvoiceLines(b, c));
    JournalLeaves(SaleStart(b, c), closed, SaleJournal(p.taxRate, b.movements, c));
    SaleMovesLeave(ApplyAll(SaleStart(b, c), posted.steps), p.allowNegativeStock, c, 0);
    DocumentLeaves(b, SaleOp(c), posted.steps, "jrn_" + c.invoiceId, moved.steps, SaleMovementIds(c), rest,
                   "billing.invoice_created", "billing.sale_completed.v1");
  }

  lemma ReturnShape(b: Books, closed: set<string>, p: Policy, c: RefundCommand)
    requires RefundPlan(b, closed, p, c).Succeeds()
    ensures PositiveRequests(c)
    ensures var posted, moved := ReturnPosting(b, closed, p, c), ReturnMoves(b, closed, p, c);
      && posted.Succeeds() && moved.Succeeds()
      && RefundPlan(b, closed, p, c).steps ==
           Transaction(b.uuids, ReturnOp(c),
                       posted.steps + moved.steps
               + ([RefundStep(RefundOf(p.taxRate, b, c))] + RefundLineSteps(RefundLines(b, c))),
                       "billing.refund_created", "billing.refund_completed.v1")
      && AllSilent([RefundStep(RefundOf(p.taxRate, b, c))] + RefundLineSteps(RefundLines(b, c)))
  {
    RefusedOrPositiveRequests(b, closed, p.taxRate, c);
    hide RefuseRefund, JournalPlan, RefundMovements, RefundJournal, RefundLines, RefundOf, ApplyAll, ReturnOp,
      PositiveRequests, Transaction;
    var posted, moved := ReturnPosting(b, closed, p, c), ReturnMoves(b, closed, p, c);
    var first, rest := [RefundStep(RefundOf(p.taxRate, b, c))], RefundLineSteps(RefundLines(b, c));
    assert posted.steps + moved.steps + (first + rest) == posted.steps + moved.steps + first + rest;
  }

  lemma ReturnNames(b: Books, closed: set<string>, p: Policy, c: RefundCommand)
    requires PositiveRequests(c)
    ensures RefundOf(p.taxRate, b, c).movementIds == RefundMovementIds(c, |c.lines|)
    ensures ReturnOp(c) == CreateRefundOp(c.refundId, "jrn_refund_" + c.refundId, RefundMovementIds(c, |c.lines|))
    ensures RefundJournal(p.taxRate, b, c).journalId == "jrn_refund_" + c.refundId
    ensures ReturnPosting(b, closed, p, c) == JournalPlan(ReturnStart(b, c), closed, RefundJournal(p.taxRate, b, c))
    ensures ReturnMoves(b, closed, p, c) ==
      RefundMovements(ApplyAll(ReturnStart(b, c), ReturnPosting(b, closed, p, c).steps), b, p.allowNegativeStock, c, 0)
    ensures ReturnStart(b, c) == ApplyAll(b, [WalStep(Pending(b.uuids, ReturnOp(c)))])
  {
    hide JournalPlan, RefundMovements, RestoredCosts, Sum, Tax, ApplyAll, RefundMovementIds;
  }

  lemma ReturnLeaves(b: Books, closed: set<string>, p: Policy, c: RefundCommand)
    requires RefundPlan(b, closed, p, c).Succeeds()
    ensures var x := RefundOf(p.taxRate, b, c);
      Leaves(b, RefundPlan(b, closed, p, c).steps,
             DocumentTrail(b.uuids, CreateRefundOp(c.refundId, "jrn_refund_" + c.refundId, x.movementIds),
                           "jrn_refund_" + c.refundId,
                           x.movementIds, "billing.refund_created", "billing.refund_completed.v1"))
  {
    hide *;
    ReturnShape(b, closed, p, c);
    ReturnNames(b, closed, p, c);
    IdsSplit(c, 0);
    NoIds(c);
    var posted, moved := ReturnPosting(b, closed, p, c), ReturnMoves(b, closed, p, c);
    var rest := [RefundStep(RefundOf(p.taxRate, b, c))] + RefundLineSteps(RefundLines(b, c));
    JournalLeaves(ReturnStart(b, c), closed, RefundJournal(p.taxRate, b, c));
    ReturnMovesLeave(ApplyAll(ReturnStart(b, c), posted.steps), b, p.allowNegativeStock, c, 0);
    DocumentLeaves(b, ReturnOp(c), posted.steps, "jrn_refund_" + c.refundId, moved.steps,
                   RefundMovementIds(c, |c.lines|), rest,
                   "billing.refund_created", "billing.refund_completed.v1");
  }

  lemma NoIds(c: RefundCommand)
    ensures RefundMovementIds(c, 0) + IdsFrom(c, 0) == IdsFrom(c, 0)
  {
  }

  lemma MoveLeaves(b: Books, closed: set<string>, p: Policy, c: StockCommand)
    requires StockPlan(b, closed, p.allowNegativeStock, c).Succeeds()
    ensures Leaves(b, StockPlan(b, closed, p.allowNegativeStock, c).steps, MoveTrail(b, c))
  {
    StockPrices.StockValid(b, closed, p.allowNegativeStock, c);
    StockPrices.PricedMovement(b.movements, c);
    hide Leaves, ApplyAll, JournalPlan, MovementPlan, MovementOf, JournalTrail, MovementTrail, StockPrices.Price,
      ValidateStock, UsePeriod;
    var moved := MovementPlan(b, p.allowNegativeStock, c);
    MovementLeaves(b, p.allowNegativeStock, c);
    NothingThen(MovementTrail(b.uuids, c.movementId));
    IdTaken(b, moved.steps, MovementTrail(b.uuids, c.movementId));
    var b1 := ApplyAll(b, moved.steps);
    var journal := StockJournal(c, UsePeriod(c).value, MovementOf(b.movements, c).valueDelta);
    if MovementOf(b.movements, c).valueDelta != 0 {
      JournalLeaves(b1, closed, journal);
      LeavesThen(b, moved.steps, MovementTrail(b.uuids, c.movementId), JournalPlan(b1, closed, journal).steps,
                 JournalTrail(b1.uuids, journal.journalId));
    }
  }

  // ---------------------------------------------------------------- every command

  function MoveTrail(b: Books, c: StockCommand): Trail {
    MovementTrail(b.uuids, c.movementId).Then(
      if c.quantityDelta * StockPrices.Price(b.movements, c) == 0 then NO_TRAIL
      else JournalTrail(b.uuids + 1, "jrn_inventory_" + c.movementId))
  }

  /** The trail of the command that led from one state to the other; documents are announced with the movements
      they store. */
  function TrailOf(b: Books, r: Books, cmd: Command): Trail {
    match cmd
    case Register(item) =>
      NO_TRAIL.Within(b.uuids, RegisterItemOp(item.itemId), "inventory.item_registered", "inventory.item_registered.v1")
    case Move(c) => MoveTrail(b, c)
    case Post(c) => JournalTrail(b.uuids, c.journalId)
    case Sell(c) =>
      var ids := if r.invoices == [] then [] else r.invoices[|r.invoices| - 1].movementIds;
      DocumentTrail(b.uuids, CreateInvoiceOp(c.invoiceId, "jrn_" + c.invoiceId, ids), "jrn_" + c.invoiceId, ids,
                    "billing.invoice_created", "billing.sale_completed.v1")
    case Return(c) =>
      var ids := if r.refunds == [] then [] else r.refunds[|r.refunds| - 1].movementIds;
      DocumentTrail(b.uuids, CreateRefundOp(c.refundId, "jrn_refund_" + c.refundId, ids), "jrn_refund_" + c.refundId,
                    ids,
                    "billing.refund_created", "billing.refund_completed.v1")
    case Close(periodId) =>
      if periodId in b.periods then NO_TRAIL
      else NO_TRAIL.Within(b.uuids, ClosePeriodOp(periodId), "accounting.period_closed", "accounting.period_closed.v1")
  }

  lemma PlainLeaves(b: Books, p: Policy, item: Item, periodId: string)
    ensures RegisterPlan(b, item).Succeeds() ==> Leaves(b, RegisterPlan(b, item).steps, TrailOf(b, b, Register(item)))
    ensures CloseUsePlan(b, ClosedPeriods(b), periodId).Succeeds() ==>
      Leaves(b, CloseUsePlan(b, ClosedPeriods(b), periodId).steps, TrailOf(b, b, Close(periodId)))
  {
    hide Leaves, ApplyAll, Sum, RefuseItem, ReportResultOf;
    SilentSteps(ApplyAll(b, [WalStep(Pending(b.uuids, RegisterItemOp(item.itemId)))]), [ItemStep(item)]);
    TransactionLeaves(b, RegisterItemOp(item.itemId), [ItemStep(item)], NO_TRAIL, "inventory.item_registered",
                      "inventory.item_registered.v1");
    SilentSteps(ApplyAll(b, [WalStep(Pending(b.uuids, ClosePeriodOp(periodId)))]), [PeriodStep(periodId)]);
    TransactionLeaves(b, ClosePeriodOp(periodId), [PeriodStep(periodId)], NO_TRAIL, "accounting.period_closed",
                      "accounting.period_closed.v1");
    SilentSteps(b, []);
  }

  /** A completed command adds exactly its trail, under the next transaction ids. */
  lemma CompletedTrail(b: Books, p: Policy, cmd: Command)
    requires PlanOf(b, p, cmd).Succeeds()
    ensures var r := Exec(b, p, cmd);
      var x := TrailOf(b, r, cmd);
      r.wal == b.wal + x.wal && r.audits == b.audits + x.audits && r.events == b.events + x.events
        && r.uuids == b.uuids + x.taken
  {
    hide RegisterPlan, StockPlan, JournalPlan, InvoicePlan, RefundPlan, CloseUsePlan, ClosedPeriods, DocumentTrail,
      JournalTrail, MoveTrail, ApplyAll, InvoiceOf, RefundOf;
    var closed := ClosedPeriods(b);
    match cmd {
      case Register(item) => PlainLeaves(b, p, item, "");
      case Move(c) => MoveLeaves(b, closed, p, c);
      case Post(c) => JournalLeaves(b, closed, c);
      case Sell(c) => SaleLeaves(b, closed, p, c); SaleLast(b, p, c);
      case Return(c) => ReturnLeaves(b, closed, p, c); ReturnLast(b, p, c);
      case Close(periodId) => PlainLeaves(b, p, Item("", "", "", false, ""), periodId);
    }
  }

  lemma SaleLast(b: Books, p: Policy, c: InvoiceCommand)
    requires PlanOf(b, p, Sell(c)).Succeeds()
    ensures var xs := Exec(b, p, Sell(c)).invoices; xs != [] && xs[|xs| - 1] == InvoiceOf(p.taxRate, c)
  {
    hide *;
    SaleFiles(b, p, c);
  }

  lemma ReturnLast(b: Books, p: Policy, c: RefundCommand)
    requires PlanOf(b, p, Return(c)).Succeeds()
    ensures var xs := Exec(b, p, Return(c)).refunds; xs != [] && xs[|xs| - 1] == RefundOf(p.taxRate, b, c)
  {
    hide *;
    ReturnFiles(b, p, c);
  }
}
