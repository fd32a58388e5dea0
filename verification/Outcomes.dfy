/** How a command ends, told from the state it finds: it completes, it is refused and leaves nothing, or it
    stops with a domain record written. */
module Outcomes {
  import opened Books
  import opened Accounting
  import opened Inventory
  import opened Billing
  import opened Writes
  import opened Reconciliation
  import opened UseCases
  import opened SaleAgreement
  import opened Runs
  import opened Stops
  import Completion
  import RefundCompletion

  // ---------------------------------------------------------------- conditions on the state before

  predicate MoveAccepted(b: Books, p: Policy, c: StockCommand) {
    && UsePeriod(c).Some? && UsePeriod(c).value !in ClosedPeriods(b)
    && RefuseMovement(b, p.allowNegativeStock, c).None?
  }

  /** A stock move that is worth something needs its journal id. */
  predicate MoveFits(b: Books, c: StockCommand) {
    MovementOf(b.movements, c).valueDelta == 0 || !HasJournal(b.entries, "jrn_inventory_" + c.movementId)
  }

  predicate SaleFits(b: Books, c: InvoiceCommand) {
    && Subtotal(c) > 0
    && !HasJournal(b.entries, SaleJournalId(c.invoiceId))
    && (forall i :: 0 <= i < |c.lines| ==> AverageCost(b.movements, c.lines[i].itemId) >= 0)
    && (forall i :: 0 <= i < |c.lines| ==> !HasMovement(b.movements, SaleMovementId(c.invoiceId, i)))
  }

  predicate ReturnFits(b: Books, p: Policy, c: RefundCommand) {
    && RefundSubtotal(c) > 0
    && !HasJournal(b.entries, RefundJournalId(c.refundId))
    && (forall i :: 0 <= i < |c.lines| && c.lines[i].restock ==> RefundCompletion.CanRestock(b, p.allowNegativeStock, c, i))
  }

  predicate Completes(b: Books, p: Policy, cmd: Command) {
    var closed := ClosedPeriods(b);
    match cmd
    case Register(item) => RefuseItem(b.items, item).None?
    case Move(c) => MoveAccepted(b, p, c) && MoveFits(b, c)
    case Post(c) => RefuseJournal(b, closed, c).None?
    case Sell(c) => RefuseInvoice(b, closed, p.taxRate, c).None? && SaleFits(b, c)
    case Return(c) => RefuseRefund(b, closed, p.taxRate, c).None? && ReturnFits(b, p, c)
    case Close(periodId) =>
      && ReportResultOf(b, periodId).Ready? && ReportResultOf(b, periodId).report.Passed() && periodId != ""
      && (periodId in closed || Sum(b.entries, EntryDebit(periodId)) == Sum(b.entries, EntryCredit(periodId)))
  }

  /** The journal of the sale is posted. */
  predicate SalePosts(b: Books, c: InvoiceCommand) {
    Subtotal(c) > 0 && CogsOf(b.movements, c) >= 0 && !HasJournal(b.entries, SaleJournalId(c.invoiceId))
  }

  predicate ReturnPosts(b: Books, c: RefundCommand) {
    RefundSubtotal(c) > 0 && TotalCost(RestoredCosts(b, c)) >= 0 && !HasJournal(b.entries, RefundJournalId(c.refundId))
  }

  /** It is accepted, does not complete, and stops behind its first domain record: the movement of a stock
      move, the journal of an invoice or a refund. */
  predicate Strands(b: Books, p: Policy, cmd: Command) {
    var closed := ClosedPeriods(b);
    match cmd
    case Move(c) => MoveAccepted(b, p, c) && !MoveFits(b, c)
    case Sell(c) => RefuseInvoice(b, closed, p.taxRate, c).None? && !SaleFits(b, c) && SalePosts(b, c)
    case Return(c) => RefuseRefund(b, closed, p.taxRate, c).None? && !ReturnFits(b, p, c) && ReturnPosts(b, c)
    case _ => false
  }

  // ---------------------------------------------------------------- stock moves

  lemma StockLinesValid(value: int)
    requires value != 0
    ensures var ls := StockJournalLines(value);
      && |ls| == 2 && OneCurrency(ls) && FirstLineError(ls).None? && Sum(ls, DebitOf()) == Sum(ls, CreditOf())
  {
    hide FirstLineError, Sum;
    var ls := StockJournalLines(value);
    assert ls == [ls[0], ls[1]];
    SumTwo(ls[0], ls[1], DebitOf());
    SumTwo(ls[0], ls[1], CreditOf());
    assert Known(INVENTORY) && Known(OWNER_EQUITY) && Known(INVENTORY_ADJUSTMENT) by {
      assert CODES[3] == INVENTORY && CODES[7] == OWNER_EQUITY;
      assert INVENTORY_ADJUSTMENT in CODES;
    }
    assert |BASE_CURRENCY| > 0;
    assert forall i :: 0 <= i < |ls| ==> LineError(ls[i]).None?;
  }

  lemma StockFieldsGiven(c: StockCommand, value: int)
    requires ValidateStock(c).None? && UsePeriod(c).Some?
    ensures var j := StockJournal(c, UsePeriod(c).value, value);
      "" !in [j.journalId, j.periodId, j.timestamp, j.actorId, j.sourceModule, j.sourceDocumentId, j.correlationId, j.description]
  {
    var fields := [c.movementId, c.itemId, c.timestamp, c.actorId, c.reason, c.sourceModule, c.sourceDocumentId, c.correlationId];
    assert fields[2] in fields && fields[3] in fields && fields[6] in fields && fields[7] in fields;
    hide StockJournalLines;
    var j := StockJournal(c, UsePeriod(c).value, value);
    assert |j.journalId| > 0 && |j.periodId| > 0 && |j.sourceModule| > 0 && |j.description| > 0;
  }

  lemma StockJournalOutcome(b: Books, closed: set<string>, c: StockCommand, value: int)
    requires ValidateStock(c).None? && UsePeriod(c).Some? && UsePeriod(c).value !in closed && value != 0
    ensures JournalPlan(b, closed, StockJournal(c, UsePeriod(c).value, value)).Succeeds() <==>
      !HasJournal(b.entries, "jrn_inventory_" + c.movementId)
  {
    StockFieldsGiven(c, value);
    StockLinesValid(value);
    hide StockJournalLines, FirstLineError, OneCurrency, Sum, HasJournal, Transaction, JournalBody, ValidateStock,
      UsePeriod;
  }

  lemma AcceptedIsValid(b: Books, allowNegative: bool, c: StockCommand)
    requires RefuseMovement(b, allowNegative, c).None?
    ensures ValidateStock(c).None? && MovementPlan(b, allowNegative, c).Succeeds()
    ensures MovementPlan(b, allowNegative, c).steps != []
  {
    hide HasMovement, CheckItem, StockOnHand, ValidateStock, MovementOf;
  }

  lemma MoveOutcome(b: Books, p: Policy, c: StockCommand)
    ensures var plan := StockPlan(b, ClosedPeriods(b), p.allowNegativeStock, c);
      && (plan.Succeeds() <==> MoveAccepted(b, p, c) && MoveFits(b, c))
      && (plan.error.Some? ==> (plan.steps != [] <==> MoveAccepted(b, p, c)))
  {
    var closed := ClosedPeriods(b);
    hide ClosedPeriods, MovementOf, JournalPlan, StockJournal, HasJournal, ApplyAll, MovementSteps, RefuseMovement,
      UsePeriod;
    if MoveAccepted(b, p, c) {
      AcceptedIsValid(b, p.allowNegativeStock, c);
      MovementWrites(b, p.allowNegativeStock, c);
      var steps := MovementPlan(b, p.allowNegativeStock, c).steps;
      MovementsAfter(b, steps);
      assert ApplyAll(b, steps).entries == b.entries;
      if MovementOf(b.movements, c).valueDelta != 0 {
        StockJournalOutcome(ApplyAll(b, steps), closed, c, MovementOf(b.movements, c).valueDelta);
      }
    }
  }

  // ---------------------------------------------------------------- invoices and refunds

  lemma AnnouncementDomain(tid: Tid, op: Operation)
    ensures Domain(Written([WalStep(Pending(tid, op))])) == EMPTY
  {
    ApplyOne(EMPTY, WalStep(Pending(tid, op)));
  }

  lemma LinesOfThree(start: seq<Step>, posted: seq<Step>, moved: seq<Step>, c: PostCommand)
    requires Domain(Written(start)) == EMPTY && StockOnly(Written(moved)) && c.lines != []
    requires Domain(Written(posted)) == EMPTY.(entries := [EntryOf(c)], lines := LedgerLines(c))
    ensures var d := Domain(Written(start + (posted + moved)));
      d.entries == [EntryOf(c)] && d.lines == LedgerLines(c) && d.invoices == [] && d.refunds == [] && d != EMPTY
  {
    hide Written, EntryOf, LedgerLines;
    DomainConcat(start, posted + moved);
    DomainConcat(posted, moved);
  }

  /** What an accepted invoice that stops has written. */
  lemma StoppedSale(b: Books, closed: set<string>, p: Policy, c: InvoiceCommand)
    requires RefuseInvoice(b, closed, p.taxRate, c).None? && InvoicePlan(b, closed, p, c).error.Some?
    ensures var d := Domain(Written(InvoicePlan(b, closed, p, c).steps));
      && (SalePosts(b, c) <==> d != EMPTY)
      && (d != EMPTY ==> Subtotal(c) > 0 && d.lines == LedgerLines(SaleJournal(p.taxRate, b.movements, c)) && d.invoices == [])
  {
    Completion.InvoiceCompletes(b, closed, p, c);
    InvoiceStops(b, closed, p, c);
    Completion.ItemsChecked(b, closed, p.taxRate, c);
    hide InvoicePlan, JournalPlan, SaleMovements, SaleJournal, Written, SaleOp, ApplyAll, Domain, Subtotal, EntryOf,
      LedgerLines, StockOnly, RefuseInvoice, ValidateInvoice, CheckItem, HasJournal, SaleJournalId, HasMovement,
      AverageCost, CogsOf, PositiveQuantities;
    var start, posted, moved := [WalStep(Pending(b.uuids, SaleOp(c)))], SalePosting(b, closed, p, c), SaleMoves(b, closed, p, c);
    var b1, journal := SaleStart(b, c), SaleJournal(p.taxRate, b.movements, c);
    AnnouncementDomain(b.uuids, SaleOp(c));
    AnnouncedSame(b, SaleOp(c));
    Completion.SaleJournalOutcome(b1, closed, p.taxRate, c, b.movements);
    if posted.error.Some? {
      assert start + [] == start;
    } else {
      JournalWrites(b1, closed, journal);
      SaleMovementsQuiet(ApplyAll(b1, posted.steps), p.allowNegativeStock, c, 0);
      LinesOfThree(start, posted.steps, moved.steps, journal);
    }
  }

  lemma AnnouncedSame(b: Books, op: Operation)
    ensures var r := ApplyAll(b, [WalStep(Pending(b.uuids, op))]);
      r.entries == b.entries && r.movements == b.movements && r.items == b.items
  {
    ApplyOne(b, WalStep(Pending(b.uuids, op)));
  }

  lemma StoppedReturn(b: Books, closed: set<string>, p: Policy, c: RefundCommand)
    requires RefuseRefund(b, closed, p.taxRate, c).None? && RefundPlan(b, closed, p, c).error.Some?
    ensures var d := Domain(Written(RefundPlan(b, closed, p, c).steps));
      && (ReturnPosts(b, c) <==> d != EMPTY)
      && (d != EMPTY ==> RefundSubtotal(c) > 0 && d.lines == LedgerLines(RefundJournal(p.taxRate, b, c)) && d.refunds == [])
  {
    RefundCompletion.RefundCompletes(b, closed, p, c);
    RefundStops(b, closed, p, c);
    RefundCompletion.SubtotalNonNegative(b, closed, p.taxRate, c);
    hide RefundPlan, JournalPlan, RefundMovements, RefundJournal, Written, ReturnOp, ApplyAll, Domain, RefundSubtotal,
      EntryOf, LedgerLines, StockOnly, PositiveRequests, RefuseRefund, ValidateRefund, HasJournal, RefundJournalId,
      RefundCompletion.CanRestock, RestoredCosts, TotalCost;
    var start, posted, moved := [WalStep(Pending(b.uuids, ReturnOp(c)))], ReturnPosting(b, closed, p, c), ReturnMoves(b, closed, p, c);
    var b1, journal := ReturnStart(b, c), RefundJournal(p.taxRate, b, c);
    AnnouncementDomain(b.uuids, ReturnOp(c));
    AnnouncedSame(b, ReturnOp(c));
    RefundCompletion.RefundJournalOutcome(b1, closed, p.taxRate, c, b);
    if posted.error.Some? {
      assert start + [] == start;
    } else {
      JournalWrites(b1, closed, journal);
      RefundMovementsQuiet(ApplyAll(b1, posted.steps), b, p.allowNegativeStock, c, 0);
      LinesOfThree(start, posted.steps, moved.steps, journal);
    }
  }

  // ---------------------------------------------------------------- any command

  lemma SaleRefused(b: Books, closed: set<string>, p: Policy, c: InvoiceCommand)
    ensures RefuseInvoice(b, closed, p.taxRate, c).Some? <==> InvoicePlan(b, closed, p, c).Refused()
  {
    hide RefuseInvoice, JournalPlan, SaleMovements, InvoiceLines, InvoiceOf, SaleJournal, Transaction, ApplyAll;
  }

  lemma ReturnRefused(b: Books, closed: set<string>, p: Policy, c: RefundCommand)
    ensures RefuseRefund(b, closed, p.taxRate, c).Some? <==> RefundPlan(b, closed, p, c).Refused()
  {
    hide RefuseRefund, JournalPlan, RefundMovements, RefundLines, RefundOf, RefundJournal, Transaction, ApplyAll;
  }

  /** Whether a command completes can be told from the state it finds. */
  lemma CompletesExactly(b: Books, p: Policy, cmd: Command)
    ensures PlanOf(b, p, cmd).Succeeds() <==> Completes(b, p, cmd)
  {
    hide ClosedPeriods, StockPlan, InvoicePlan, RefundPlan, MoveAccepted, MoveFits, RefuseItem, RefuseJournal,
      RefuseInvoice, RefuseRefund, ReportOf, LedgerReadable, Sum, Transaction, HasJournal, HasMovement, AverageCost,
      RefundCompletion.CanRestock, JournalBody;
    var closed := ClosedPeriods(b);
    match cmd {
      case Move(c) => MoveOutcome(b, p, c);
      case Sell(c) =>
        SaleRefused(b, closed, p, c);
        if RefuseInvoice(b, closed, p.taxRate, c).None? {
          Completion.InvoiceCompletes(b, closed, p, c);
        }
      case Return(c) =>
        ReturnRefused(b, closed, p, c);
        if RefuseRefund(b, closed, p.taxRate, c).None? {
          RefundCompletion.RefundCompletes(b, closed, p, c);
        }
      case _ =>
    }
  }

  lemma NothingDomain()
    ensures Domain(Written([])) == EMPTY
  {
  }

  /** And so can whether one that does not leaves a domain record behind. */
  lemma StrandsExactly(b: Books, p: Policy, cmd: Command)
    requires !Completes(b, p, cmd)
    ensures Domain(Written(PlanOf(b, p, cmd).steps)) != EMPTY <==> Strands(b, p, cmd)
  {
    CompletesExactly(b, p, cmd);
    NothingDomain();
    hide ClosedPeriods, StockPlan, InvoicePlan, RefundPlan, RegisterPlan, JournalPlan, CloseUsePlan, MoveAccepted,
      MoveFits, RefuseItem, RefuseJournal, RefuseInvoice, RefuseRefund, SaleFits, SalePosts, ReturnFits, ReturnPosts,
      Written, Domain, MovementPlan, MovementOf, ReportResultOf, Sum;
    var closed := ClosedPeriods(b);
    match cmd {
      case Move(c) =>
        MoveOutcome(b, p, c);
        if StockPlan(b, closed, p.allowNegativeStock, c).steps != [] {
          MoveStops(b, closed, p.allowNegativeStock, c);
          MovementWrites(b, p.allowNegativeStock, c);
        }
      case Sell(c) =>
        SaleRefused(b, closed, p, c);
        if RefuseInvoice(b, closed, p.taxRate, c).None? {
          StoppedSale(b, closed, p, c);
        }
      case Return(c) =>
        ReturnRefused(b, closed, p, c);
        if RefuseRefund(b, closed, p.taxRate, c).None? {
          StoppedReturn(b, closed, p, c);
        }
      case _ => OthersRefuse(b, p, cmd);
    }
  }
}
