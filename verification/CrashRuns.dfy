/** Runs with crashes and automatic recovery: whenever the store is healthy it holds exactly the documents of
    the commands that completed. */
module CrashRuns {
  import opened Status
  import opened Books
  import opened Accounting
  import opened Inventory
  import opened Billing
  import opened Writes
  import opened Reconciliation
  import opened UseCases
  import opened Agreement
  import opened Runs
  import opened Stops
  import opened Recovery
  import opened Crash
  import Wal

  // ---------------------------------------------------------------- completed commands keep the store orderly

  ghost predicate Owned(d: Books) { forall l :: l in d.lines ==> HasJournal(d.entries, l.journalId) }

  lemma OwnedPlus(a: Books, b: Books)
    requires Owned(a) && Owned(b)
    ensures Owned(Plus(a, b))
  {
    hide HasJournal, HasJournalLines;
    forall l | l in a.lines + b.lines
      ensures HasJournal(a.entries + b.entries, l.journalId)
    {
      JournalFoundIn(a, b, l.journalId);
    }
  }

  lemma JournalOwned(d: Books, c: PostCommand)
    requires c.lines != [] && d.entries == [EntryOf(c)] && d.lines == LedgerLines(c)
    ensures Owned(d)
  {
    forall l | l in d.lines
      ensures HasJournal(d.entries, l.journalId)
    {
      assert d.entries[0].journalId == c.journalId;
    }
  }

  lemma NothingOwned(d: Books)
    requires d.lines == []
    ensures Owned(d)
  {
  }

  lemma CommandOwned(b: Books, p: Policy, cmd: Command)
    requires PlanOf(b, p, cmd).Succeeds()
    ensures Owned(Written(PlanOf(b, p, cmd).steps))
  {
    hide Owned, Written, RegisterPlan, StockPlan, JournalPlan, InvoicePlan, RefundPlan, CloseUsePlan, EntryOf,
      LedgerLines, MovementOf, StockJournal, SaleJournal, RefundJournal, SoldMovements, RestockedMovements, InvoiceOf,
      RefundOf, InvoiceLines, RefundLines, PositiveQuantities, PositiveRequests, ClosedPeriods;
    var closed, d := ClosedPeriods(b), Written(PlanOf(b, p, cmd).steps);
    SameFiles(d);
    match cmd {
      case Register(item) => RegisterWrites(b, item); NothingOwned(d);
      case Move(c) =>
        StockWrites(b, closed, p.allowNegativeStock, c);
        var m := MovementOf(b.movements, c);
        if m.valueDelta == 0 {
          NothingOwned(d);
        } else {
          StockHasLines(c, MovementPeriod(c), m.valueDelta);
          JournalOwned(d, StockJournal(c, MovementPeriod(c), m.valueDelta));
        }
      case Post(c) => JournalWrites(b, closed, c); JournalOwned(d, c);
      case Sell(c) =>
        InvoiceWrites(b, closed, p, c);
        SaleHasLines(p.taxRate, b.movements, c);
        JournalOwned(d, SaleJournal(p.taxRate, b.movements, c));
      case Return(c) =>
        RefundWrites(b, closed, p, c);
        RefundHasLines(p.taxRate, b, c);
        JournalOwned(d, RefundJournal(p.taxRate, b, c));
      case Close(periodId) => CloseUseWrites(b, periodId); NothingOwned(d);
    }
  }

  lemma StockHasLines(c: StockCommand, periodId: string, value: int)
    ensures StockJournal(c, periodId, value).lines != []
  {
  }

  lemma SaleHasLines(rate: int, ms: seq<Movement>, c: InvoiceCommand)
    ensures SaleJournal(rate, ms, c).lines != []
  {
    hide LineCosts, Tax;
  }

  lemma RefundHasLines(rate: int, b: Books, c: RefundCommand)
    ensures RefundJournal(rate, b, c).lines != []
  {
    hide RestoredCosts, Tax;
  }

  lemma MoveLogged(b: Books, closed: set<string>, allowNegative: bool, c: StockCommand)
    ensures WellLogged(Written(StockPlan(b, closed, allowNegative, c).steps), b.uuids)
  {
    hide Written, MovementPlan, MovementOf, JournalPlan, WellLogged, StockJournal;
    NothingWritten();
    Unlogged(EMPTY, b.uuids);
    MovementLogged(b, allowNegative, c);
    if UsePeriod(c).Some? && UsePeriod(c).value !in closed {
      var moved := MovementPlan(b, allowNegative, c);
      var value := MovementOf(b.movements, c).valueDelta;
      if moved.error.None? && value != 0 {
        var b1 := ApplyAll(b, moved.steps);
        UuidsGrow(b, moved.steps);
        var journal := StockJournal(c, UsePeriod(c).value, value);
        JournalLogged(b1, closed, journal);
        WellLoggedConcat(moved.steps, JournalPlan(b1, closed, journal).steps, b.uuids, b1.uuids);
      }
    }
  }

  lemma CloseLogged(b: Books, periodId: string)
    ensures WellLogged(Written(CloseUsePlan(b, ClosedPeriods(b), periodId).steps), b.uuids)
  {
    hide Written, Transaction, ReportOf, LedgerReadable, Sum, WellLogged, ClosedPeriods;
    NothingWritten();
    Unlogged(EMPTY, b.uuids);
    PeriodWritten(periodId);
    Unlogged(Written([PeriodStep(periodId)]), b.uuids + 1);
    WellLoggedTransaction(b.uuids, ClosePeriodOp(periodId), [PeriodStep(periodId)],
                          "accounting.period_closed", "accounting.period_closed.v1");
  }

  lemma RegisterLogged(b: Books, item: Item)
    requires RegisterPlan(b, item).Succeeds()
    ensures WellLogged(Written(RegisterPlan(b, item).steps), b.uuids)
  {
    RegisterSteps(b, item);
    hide Written, RegisterPlan, Transaction, WellLogged;
    ItemWritten(item);
    Unlogged(Written([ItemStep(item)]), b.uuids + 1);
    WellLoggedTransaction(b.uuids, RegisterItemOp(item.itemId), [ItemStep(item)],
                          "inventory.item_registered", "inventory.item_registered.v1");
  }

  lemma CommandLogged(b: Books, p: Policy, cmd: Command)
    requires PlanOf(b, p, cmd).Succeeds()
    ensures WellLogged(Written(PlanOf(b, p, cmd).steps), b.uuids)
  {
    hide Written, RegisterPlan, StockPlan, JournalPlan, InvoicePlan, RefundPlan, CloseUsePlan, WellLogged,
      ClosedPeriods;
    match cmd {
      case Register(item) => RegisterLogged(b, item);
      case Move(c) => MoveLogged(b, ClosedPeriods(b), p.allowNegativeStock, c);
      case Post(c) => JournalLogged(b, ClosedPeriods(b), c);
      case Sell(c) => SellLogged(b, ClosedPeriods(b), p, c);
      case Return(c) => ReturnLogged(b, ClosedPeriods(b), p, c);
      case Close(periodId) => CloseLogged(b, periodId);
    }
  }

  /** Files over filed ones. */
  lemma FiledAdds(b: Books, steps: seq<Step>)
    requires Filed(b)
    requires var d := Written(steps); Linked(d) && Apart(b, d) && Owned(d)
    ensures Filed(ApplyAll(b, steps))
  {
    hide Written, Linked, Apart, HasJournal;
    WritesAdd(b, steps);
    LinkedAdds(b, Written(steps));
    OwnedPlus(b, Written(steps));
  }

  lemma CommandStaysFiled(b: Books, p: Policy, cmd: Command)
    requires PlanOf(b, p, cmd).Succeeds() && Filed(b)
    ensures Filed(Exec(b, p, cmd))
  {
    KeepsLinks(b, p, cmd);
    CommandOwned(b, p, cmd);
    ExecIs(b, p, cmd);
    hide PlanOf, Exec, Written, Linked, HasJournal;
    var steps := PlanOf(b, p, cmd).steps;
    WritesAdd(b, steps);
    OwnedPlus(b, Written(steps));
  }

  lemma CommandStaysOrderly(b: Books, p: Policy, cmd: Command)
    requires PlanOf(b, p, cmd).Succeeds() && Orderly(b)
    ensures Orderly(Exec(b, p, cmd))
  {
    CommandStaysFiled(b, p, cmd);
    CommandLogged(b, p, cmd);
    ExecIs(b, p, cmd);
    hide PlanOf, Exec, Written, Tidy, Filed;
    TidyAfter(b, PlanOf(b, p, cmd).steps);
  }

  lemma MovementStaysFiled(b: Books, allowNegative: bool, c: StockCommand)
    requires Filed(b) && MovementPlan(b, allowNegative, c).Succeeds()
    ensures Filed(ApplyAll(b, MovementPlan(b, allowNegative, c).steps))
  {
    hide Filed, MovementPlan, Written, MovementOf, Linked, Apart, Owned, ApplyAll;
    var d := Written(MovementPlan(b, allowNegative, c).steps);
    MovementWrites(b, allowNegative, c);
    SameFiles(d);
    Plain(b, d);
    NothingOwned(d);
    FiledAdds(b, MovementPlan(b, allowNegative, c).steps);
  }

  /** A stock move whose journal is refused leaves a complete transaction behind. */
  lemma StoppedMoveStaysOrderly(b: Books, p: Policy, c: StockCommand)
    requires Orderly(b) && PlanOf(b, p, Move(c)).error.Some?
    ensures Orderly(Exec(b, p, Move(c)))
  {
    ExecIs(b, p, Move(c));
    hide Tidy, Filed, StockPlan, MovementPlan, Written, ClosedPeriods, WellLogged, ApplyAll;
    var steps := PlanOf(b, p, Move(c)).steps;
    if steps == [] {
      NothingAppended(b);
    } else {
      MoveStops(b, ClosedPeriods(b), p.allowNegativeStock, c);
      MovementLogged(b, p.allowNegativeStock, c);
      TidyAfter(b, steps);
      MovementStaysFiled(b, p.allowNegativeStock, c);
    }
  }

  lemma NothingAppended(b: Books)
    ensures ApplyAll(b, []) == b
  {
  }

  lemma NothingOrderly()
    ensures Orderly(EMPTY)
  {
  }

  // ---------------------------------------------------------------- commands see only the domain files

  lemma SeesDomain(b: Books)
    ensures var d := Domain(b);
      && d.entries == b.entries && d.lines == b.lines && d.periods == b.periods && d.items == b.items && d.movements == b.movements
      && d.invoices == b.invoices && d.invoiceLines == b.invoiceLines && d.refunds == b.refunds && d.refundLines == b.refundLines
  {
  }

  lemma DomainAfter(b: Books, steps: seq<Step>)
    ensures Domain(ApplyAll(b, steps)) == Plus(Domain(b), Domain(Written(steps)))
  {
    hide *;
    WritesAdd(b, steps);
    DomainPlus(b, Written(steps));
  }

  ghost predicate SamePlan(x: Plan, y: Plan) {
    x.error == y.error && (x.steps == [] <==> y.steps == []) && Domain(Written(x.steps)) == Domain(Written(y.steps))
  }

  lemma SameEmpty(x: Plan, y: Plan)
    requires x == y && x.steps == []
    ensures SamePlan(x, y)
  {
  }

  lemma JournalSees(a: Books, b: Books, closed: set<string>, c: PostCommand)
    requires Domain(a) == Domain(b)
    ensures SamePlan(JournalPlan(a, closed, c), JournalPlan(b, closed, c))
  {
    hide Written, EntryOf, LedgerLines, ValidatePost, HasJournal, JournalBody;
    SeesDomain(a);
    SeesDomain(b);
    if JournalPlan(a, closed, c).Succeeds() {
      JournalWrites(a, closed, c);
      JournalWrites(b, closed, c);
    }
  }

  lemma MovementSees(a: Books, b: Books, allowNegative: bool, c: StockCommand)
    requires Domain(a) == Domain(b)
    ensures SamePlan(MovementPlan(a, allowNegative, c), MovementPlan(b, allowNegative, c))
  {
    hide Written, MovementOf, ValidateStock, HasMovement, CheckItem, StockOnHand;
    SeesDomain(a);
    SeesDomain(b);
    if MovementPlan(a, allowNegative, c).Succeeds() {
      MovementWrites(a, allowNegative, c);
      MovementWrites(b, allowNegative, c);
    }
  }

  lemma SameAfter(a: Books, b: Books, x: Plan, y: Plan)
    requires Domain(a) == Domain(b) && SamePlan(x, y)
    ensures Domain(ApplyAll(a, x.steps)) == Domain(ApplyAll(b, y.steps))
  {
    hide Domain, Written, ApplyAll, Plus;
    DomainAfter(a, x.steps);
    DomainAfter(b, y.steps);
  }

  lemma SameConcat(x1: Plan, x2: Plan, y1: Plan, y2: Plan, error: Option<Error>)
    requires SamePlan(x1, y1) && SamePlan(x2, y2)
    ensures SamePlan(Plan(x1.steps + x2.steps, error), Plan(y1.steps + y2.steps, error))
  {
    hide Domain, Written, Plus;
    DomainConcat(x1.steps, x2.steps);
    DomainConcat(y1.steps, y2.steps);
  }

  lemma {:induction false} SaleMovementsSee(a: Books, b: Books, allowNegative: bool, c: InvoiceCommand, i: nat)
    requires Domain(a) == Domain(b) && i <= |c.lines|
    ensures SamePlan(SaleMovements(a, allowNegative, c, i), SaleMovements(b, allowNegative, c, i))
    decreases |c.lines| - i
  {
    hide SamePlan, MovementPlan, SaleMovement, ApplyAll, Domain;
    if i == |c.lines| {
      SameEmpty(Plan([], None), Plan([], None));
    } else {
      assert a.movements == b.movements by { SeesDomain(a); SeesDomain(b); }
      var command := SaleMovement(a.movements, c, i);
      var x, y := MovementPlan(a, allowNegative, command), MovementPlan(b, allowNegative, command);
      MovementSees(a, b, allowNegative, command);
      SameErrors(x, y);
      if x.error.None? {
        SameAfter(a, b, x, y);
        var a1, b1 := ApplyAll(a, x.steps), ApplyAll(b, y.steps);
        SaleMovementsSee(a1, b1, allowNegative, c, i + 1);
        SameErrors(SaleMovements(a1, allowNegative, c, i + 1), SaleMovements(b1, allowNegative, c, i + 1));
        SameConcat(x, SaleMovements(a1, allowNegative, c, i + 1), y, SaleMovements(b1, allowNegative, c, i + 1),
                   SaleMovements(a1, allowNegative, c, i + 1).error);
      }
    }
  }

  lemma SameErrors(x: Plan, y: Plan)
    requires SamePlan(x, y)
    ensures x.error == y.error
  {
  }

  lemma {:induction false} RefundMovementsSee(a: Books, b: Books, s: Books, t: Books, allowNegative: bool,
                                              c: RefundCommand, i: nat)
    requires Domain(a) == Domain(b) && Domain(s) == Domain(t) && i <= |c.lines| && PositiveRequests(c)
    ensures SamePlan(RefundMovements(a, s, allowNegative, c, i), RefundMovements(b, t, allowNegative, c, i))
    decreases |c.lines| - i
  {
    hide SamePlan, MovementPlan, RefundMovement, ApplyAll, Domain;
    if i == |c.lines| {
      SameEmpty(Plan([], None), Plan([], None));
    } else if !c.lines[i].restock {
      RefundMovementsSee(a, b, s, t, allowNegative, c, i + 1);
    } else {
      RefundMovementSees(s, t, c, i);
      var command := RefundMovement(s, c, i);
      var x, y := MovementPlan(a, allowNegative, command), MovementPlan(b, allowNegative, command);
      MovementSees(a, b, allowNegative, command);
      SameErrors(x, y);
      if x.error.None? {
        SameAfter(a, b, x, y);
        var a1, b1 := ApplyAll(a, x.steps), ApplyAll(b, y.steps);
        RefundMovementsSee(a1, b1, s, t, allowNegative, c, i + 1);
        SameErrors(RefundMovements(a1, s, allowNegative, c, i + 1), RefundMovements(b1, t, allowNegative, c, i + 1));
        SameConcat(x, RefundMovements(a1, s, allowNegative, c, i + 1), y, RefundMovements(b1, t, allowNegative, c, i + 1),
                   RefundMovements(a1, s, allowNegative, c, i + 1).error);
      }
    }
  }

  lemma RefundMovementSees(s: Books, t: Books, c: RefundCommand, i: nat)
    requires Domain(s) == Domain(t) && i < |c.lines| && c.lines[i].quantity > 0
    ensures RefundMovement(s, c, i) == RefundMovement(t, c, i)
  {
    hide Sum, RefundMovementAt;
    SeesDomain(s);
    SeesDomain(t);
  }

  /** Same outcome, and the same domain records when completed. */
  ghost predicate SameOutcome(x: Plan, y: Plan) {
    x.error == y.error && (x.steps == [] <==> y.steps == [])
    && (x.Succeeds() ==> Domain(Written(x.steps)) == Domain(Written(y.steps)))
  }

  lemma SellRefusal(a: Books, b: Books, closed: set<string>, rate: int, c: InvoiceCommand)
    requires Domain(a) == Domain(b)
    ensures RefuseInvoice(a, closed, rate, c) == RefuseInvoice(b, closed, rate, c)
    ensures SaleJournal(rate, a.movements, c) == SaleJournal(rate, b.movements, c)
    ensures PositiveQuantities(c) ==> InvoiceLines(a, c) == InvoiceLines(b, c)
    ensures SoldMovements(a.movements, c, 0) == SoldMovements(b.movements, c, 0)
  {
    hide ValidateInvoice, HasInvoice, StockOnHand, CheckItem, SaleLines, Tax, SoldMovements, BusinessUnit, LineCosts;
    SeesDomain(a);
    SeesDomain(b);
    StockErrorSees(a, b, c.lines, ItemsInOrder(c.lines));
    if PositiveQuantities(c) {
      assert InvoiceLines(a, c) == InvoiceLines(b, c);
    }
  }

  lemma {:induction false} StockErrorSees(a: Books, b: Books, lines: seq<InvoiceLineCommand>, order: seq<string>)
    requires a.items == b.items && a.movements == b.movements
    ensures FirstStockError(a, lines, order) == FirstStockError(b, lines, order)
  {
    hide CheckItem, StockOnHand, Sum;
    if order != [] {
      StockErrorSees(a, b, lines, order[1..]);
    }
  }

  /** How an invoice ends, from the outcomes of its nested calls. */
  lemma SellOutcome(b: Books, closed: set<string>, p: Policy, c: InvoiceCommand)
    requires RefuseInvoice(b, closed, p.taxRate, c).None?
    ensures var b1 := ApplyAll(b, [WalStep(Pending(b.uuids, SaleOp(c)))]);
      var journal := JournalPlan(b1, closed, SaleJournal(p.taxRate, b.movements, c));
      && Domain(b1) == Domain(b) && InvoicePlan(b, closed, p, c).steps != []
      && InvoicePlan(b, closed, p, c).error ==
           if journal.error.Some? then journal.error
           else SaleMovements(ApplyAll(b1, journal.steps), p.allowNegativeStock, c, 0).error
  {
    hide JournalPlan, SaleMovements, InvoiceLines, InvoiceOf, SaleJournal, RefuseInvoice, Apply, ApplyAll, SaleOp,
      Domain;
    PendingOnly(b, SaleOp(c));
  }

  lemma SellSees(a: Books, b: Books, closed: set<string>, p: Policy, c: InvoiceCommand)
    requires Domain(a) == Domain(b)
    ensures SameOutcome(InvoicePlan(a, closed, p, c), InvoicePlan(b, closed, p, c))
  {
    SellRefusal(a, b, closed, p.taxRate, c);
    RefusedSell(a, closed, p, c);
    RefusedSell(b, closed, p, c);
    hide *;
    if RefuseInvoice(a, closed, p.taxRate, c).None? {
      SellOutcome(a, closed, p, c);
      SellOutcome(b, closed, p, c);
      var a1, b1 := ApplyAll(a, [WalStep(Pending(a.uuids, SaleOp(c)))]),
          ApplyAll(b, [WalStep(Pending(b.uuids, SaleOp(c)))]);
      var command := SaleJournal(p.taxRate, a.movements, c);
      var x, y := JournalPlan(a1, closed, command), JournalPlan(b1, closed, command);
      JournalSees(a1, b1, closed, command);
      SameErrors(x, y);
      SameAfter(a1, b1, x, y);
      var a2, b2 := ApplyAll(a1, x.steps), ApplyAll(b1, y.steps);
      SaleMovementsSee(a2, b2, p.allowNegativeStock, c, 0);
      SameErrors(SaleMovements(a2, p.allowNegativeStock, c, 0), SaleMovements(b2, p.allowNegativeStock, c, 0));
    }
    SellSameWrites(a, b, closed, p, c);
  }

  lemma RefusedSell(b: Books, closed: set<string>, p: Policy, c: InvoiceCommand)
    ensures RefuseInvoice(b, closed, p.taxRate, c).Some? ==>
      InvoicePlan(b, closed, p, c) == Plan([], RefuseInvoice(b, closed, p.taxRate, c))
  {
    hide RefuseInvoice, JournalPlan, SaleMovements, InvoiceLines, InvoiceOf, SaleJournal, Transaction;
  }

  lemma SellSameWrites(a: Books, b: Books, closed: set<string>, p: Policy, c: InvoiceCommand)
    requires Domain(a) == Domain(b)
    requires InvoicePlan(a, closed, p, c).error == InvoicePlan(b, closed, p, c).error
    requires InvoicePlan(a, closed, p, c).steps == [] <==> InvoicePlan(b, closed, p, c).steps == []
    ensures SameOutcome(InvoicePlan(a, closed, p, c), InvoicePlan(b, closed, p, c))
  {
    SellRefusal(a, b, closed, p.taxRate, c);
    hide InvoicePlan, Written, Domain, SaleJournal, SoldMovements, InvoiceLines, InvoiceOf, EntryOf, LedgerLines,
      PositiveQuantities;
    if InvoicePlan(a, closed, p, c).Succeeds() {
      InvoiceWrites(a, closed, p, c);
      InvoiceWrites(b, closed, p, c);
    }
  }

  lemma {:induction false} KeyErrorSees(a: Books, b: Books, c: RefundCommand, keys: seq<LineKey>)
    requires Domain(a) == Domain(b)
    ensures FirstKeyError(a, c, keys) == FirstKeyError(b, c, keys)
  {
    hide Sum, RefundsOf;
    SeesDomain(a);
    SeesDomain(b);
    if keys != [] {
      KeyErrorSees(a, b, c, keys[1..]);
    }
  }

  lemma ReturnRefusal(a: Books, b: Books, closed: set<string>, rate: int, c: RefundCommand)
    requires Domain(a) == Domain(b)
    ensures RefuseRefund(a, closed, rate, c) == RefuseRefund(b, closed, rate, c)
    ensures RefundJournal(rate, a, c) == RefundJournal(rate, b, c) && RefundOf(rate, a, c) == RefundOf(rate, b, c)
    ensures PositiveRequests(c) ==> RefundLines(a, c) == RefundLines(b, c)
  {
    hide ValidateRefund, HasRefund, FirstKeyError, HasInvoiceLines, FindInvoice, Sum, BusinessUnit,
      RefundJournalLines, Tax, RefundMovementIds;
    SeesDomain(a);
    SeesDomain(b);
    KeyErrorSees(a, b, c, KeysInOrder(c.lines));
    assert RestoredCosts(a, c) == RestoredCosts(b, c);
    if PositiveRequests(c) {
      assert RefundLines(a, c) == RefundLines(b, c);
    }
  }

  lemma {:induction false} RestockedSee(ms: seq<Movement>, a: Books, b: Books, c: RefundCommand, i: nat)
    requires Domain(a) == Domain(b) && i <= |c.lines| && PositiveRequests(c)
    ensures RestockedMovements(ms, a, c, i) == RestockedMovements(ms, b, c, i)
    decreases |c.lines| - i
  {
    hide MovementOf, RefundMovement;
    if i < |c.lines| {
      if c.lines[i].restock {
        RefundMovementSees(a, b, c, i);
        RestockedSee(ms + [MovementOf(ms, RefundMovement(a, c, i))], a, b, c, i + 1);
      } else {
        RestockedSee(ms, a, b, c, i + 1);
      }
    }
  }

  lemma ReturnOutcome(b: Books, closed: set<string>, p: Policy, c: RefundCommand)
    requires RefuseRefund(b, closed, p.taxRate, c).None?
    ensures PositiveRequests(c)
    ensures var b1 := ApplyAll(b, [WalStep(Pending(b.uuids, ReturnOp(c)))]);
      var journal := JournalPlan(b1, closed, RefundJournal(p.taxRate, b, c));
      && Domain(b1) == Domain(b) && RefundPlan(b, closed, p, c).steps != []
      && RefundPlan(b, closed, p, c).error ==
           if journal.error.Some? then journal.error
           else RefundMovements(ApplyAll(b1, journal.steps), b, p.allowNegativeStock, c, 0).error
  {
    RefusedOrPositiveRequests(b, closed, p.taxRate, c);
    hide JournalPlan, RefundMovements, RefundLines, RefundOf, RefundJournal, RefuseRefund, Apply, ApplyAll, ReturnOp,
      Domain, PositiveRequests;
    PendingOnly(b, ReturnOp(c));
  }

  lemma ReturnSees(a: Books, b: Books, closed: set<string>, p: Policy, c: RefundCommand)
    requires Domain(a) == Domain(b)
    ensures SameOutcome(RefundPlan(a, closed, p, c), RefundPlan(b, closed, p, c))
  {
    ReturnRefusal(a, b, closed, p.taxRate, c);
    RefusedReturn(a, closed, p, c);
    RefusedReturn(b, closed, p, c);
    hide *;
    if RefuseRefund(a, closed, p.taxRate, c).None? {
      ReturnOutcome(a, closed, p, c);
      ReturnOutcome(b, closed, p, c);
      var a1, b1 := ApplyAll(a, [WalStep(Pending(a.uuids, ReturnOp(c)))]),
          ApplyAll(b, [WalStep(Pending(b.uuids, ReturnOp(c)))]);
      var command := RefundJournal(p.taxRate, a, c);
      var x, y := JournalPlan(a1, closed, command), JournalPlan(b1, closed, command);
      JournalSees(a1, b1, closed, command);
      SameErrors(x, y);
      SameAfter(a1, b1, x, y);
      var a2, b2 := ApplyAll(a1, x.steps), ApplyAll(b1, y.steps);
      RefundMovementsSee(a2, b2, a, b, p.allowNegativeStock, c, 0);
      SameErrors(RefundMovements(a2, a, p.allowNegativeStock, c, 0), RefundMovements(b2, b, p.allowNegativeStock, c, 0));
    }
    ReturnSameWrites(a, b, closed, p, c);
  }

  lemma RefusedReturn(b: Books, closed: set<string>, p: Policy, c: RefundCommand)
    ensures RefuseRefund(b, closed, p.taxRate, c).Some? ==>
      RefundPlan(b, closed, p, c) == Plan([], RefuseRefund(b, closed, p.taxRate, c))
  {
    hide RefuseRefund, JournalPlan, RefundMovements, RefundLines, RefundOf, RefundJournal, Transaction;
  }

  lemma ReturnSameWrites(a: Books, b: Books, closed: set<string>, p: Policy, c: RefundCommand)
    requires Domain(a) == Domain(b)
    requires RefundPlan(a, closed, p, c).error == RefundPlan(b, closed, p, c).error
    requires RefundPlan(a, closed, p, c).steps == [] <==> RefundPlan(b, closed, p, c).steps == []
    ensures SameOutcome(RefundPlan(a, closed, p, c), RefundPlan(b, closed, p, c))
  {
    ReturnRefusal(a, b, closed, p.taxRate, c);
    assert a.movements == b.movements by { SeesDomain(a); SeesDomain(b); }
    hide RefundPlan, Written, Domain, RefundJournal, RestockedMovements, RefundLines, RefundOf, EntryOf, LedgerLines,
      PositiveRequests;
    if RefundPlan(a, closed, p, c).Succeeds() {
      RefundWrites(a, closed, p, c);
      RefundWrites(b, closed, p, c);
      RestockedSee(a.movements, a, b, c, 0);
    }
  }

  /** Whether it completes or stops between its two transactions. */
  lemma MoveSees(a: Books, b: Books, closed: set<string>, allowNegative: bool, c: StockCommand)
    requires Domain(a) == Domain(b)
    ensures SamePlan(StockPlan(a, closed, allowNegative, c), StockPlan(b, closed, allowNegative, c))
  {
    hide SamePlan, MovementPlan, MovementOf, JournalPlan, Domain, ApplyAll, StockJournal;
    assert a.movements == b.movements by { SeesDomain(a); SeesDomain(b); }
    MovementSees(a, b, allowNegative, c);
    if UsePeriod(c).Some? && UsePeriod(c).value !in closed {
      var x, y := MovementPlan(a, allowNegative, c), MovementPlan(b, allowNegative, c);
      var value := MovementOf(a.movements, c).valueDelta;
      SameErrors(x, y);
      if x.error.None? && value != 0 {
        SameAfter(a, b, x, y);
        var journal := StockJournal(c, UsePeriod(c).value, value);
        var v, w := JournalPlan(ApplyAll(a, x.steps), closed, journal), JournalPlan(ApplyAll(b, y.steps), closed, journal);
        JournalSees(ApplyAll(a, x.steps), ApplyAll(b, y.steps), closed, journal);
        SameErrors(v, w);
        SameConcat(x, v, y, w, v.error);
      }
    } else {
      SameEmpty(StockPlan(a, closed, allowNegative, c), StockPlan(b, closed, allowNegative, c));
    }
  }

  lemma RegisterSees(a: Books, b: Books, item: Item)
    requires Domain(a) == Domain(b)
    ensures SameOutcome(RegisterPlan(a, item), RegisterPlan(b, item))
  {
    hide Written;
    SeesDomain(a);
    SeesDomain(b);
    if RegisterPlan(a, item).Succeeds() {
      RegisterWrites(a, item);
      RegisterWrites(b, item);
    }
  }

  lemma CloseSees(a: Books, b: Books, periodId: string)
    requires Domain(a) == Domain(b)
    ensures SameOutcome(CloseUsePlan(a, ClosedPeriods(a), periodId), CloseUsePlan(b, ClosedPeriods(b), periodId))
  {
    hide Written, ReportOf, LedgerReadable, Sum;
    SeesDomain(a);
    SeesDomain(b);
    ReportOfDomain(a, periodId);
    ReportOfDomain(b, periodId);
    if CloseUsePlan(a, ClosedPeriods(a), periodId).Succeeds() && CloseUsePlan(b, ClosedPeriods(b), periodId).Succeeds() {
      CloseUseWrites(a, periodId);
      CloseUseWrites(b, periodId);
      CloseWrites(a, ClosedPeriods(a), periodId);
      CloseWrites(b, ClosedPeriods(b), periodId);
    }
  }

  lemma SameClosed(a: Books, b: Books)
    requires Domain(a) == Domain(b)
    ensures ClosedPeriods(a) == ClosedPeriods(b)
  {
    SeesDomain(a);
    SeesDomain(b);
  }

  lemma SameOutcomes(x: Plan, y: Plan)
    requires SamePlan(x, y)
    ensures SameOutcome(x, y)
  {
  }

  lemma SameEnd(x: Plan, y: Plan)
    requires SameOutcome(x, y)
    ensures x.error == y.error && x.Succeeds() == y.Succeeds()
  {
    hide Written;
  }

  lemma CommandSees(a: Books, b: Books, p: Policy, cmd: Command)
    requires Domain(a) == Domain(b)
    ensures SameOutcome(PlanOf(a, p, cmd), PlanOf(b, p, cmd))
  {
    hide SameOutcome, SamePlan, RegisterPlan, StockPlan, JournalPlan, InvoicePlan, RefundPlan, CloseUsePlan,
      ClosedPeriods, Domain;
    SameClosed(a, b);
    var closed := ClosedPeriods(a);
    match cmd {
      case Register(item) => RegisterSees(a, b, item);
      case Move(c) =>
        MoveSees(a, b, closed, p.allowNegativeStock, c);
        SameOutcomes(StockPlan(a, closed, p.allowNegativeStock, c), StockPlan(b, closed, p.allowNegativeStock, c));
      case Post(c) => JournalSees(a, b, closed, c); SameOutcomes(JournalPlan(a, closed, c), JournalPlan(b, closed, c));
      case Sell(c) => SellSees(a, b, closed, p, c);
      case Return(c) => ReturnSees(a, b, closed, p, c);
      case Close(periodId) => CloseSees(a, b, periodId);
    }
  }

  // ---------------------------------------------------------------- runs with crashes

  /** `Crashed` also stands for a command that stopped by itself. */
  datatype Event = Done(cmd: Command) | Crashed(cmd: Command, appends: nat)

  /** A crash is followed by automatic recovery at the next start. */
  function After(b: Books, p: Policy, e: Event): Books {
    var steps := PlanOf(b, p, e.cmd).steps;
    if e.Done? then ApplyAll(b, steps)
    else RecoverOf(ApplyAll(b, if e.appends <= |steps| then steps[..e.appends] else steps), false).books
  }

  /** The command completed, was refused, or was a stock move, which leaves a clean log even when it stops;
      or it was cut short or stopped, and automatic recovery succeeded. Crashes of closing a period and of
      the stock use case are left out. */
  predicate Survived(b: Books, p: Policy, e: Event) {
    var plan := PlanOf(b, p, e.cmd);
    if e.Done? then plan.Succeeds() || plan.Refused() || e.cmd.Move?
    else
      && !e.cmd.Move? && !e.cmd.Close? && 0 < e.appends <= |plan.steps|
      && (e.appends < |plan.steps| || plan.error.Some?)
      && |TidsOf(ApplyAll(b, plan.steps[..e.appends]).wal)| <= Wal.MAX_TRANSACTIONS
      && RecoverOf(ApplyAll(b, plan.steps[..e.appends]), false).error.None?
  }

  function CrashRun(b: Books, p: Policy, es: seq<Event>): Books {
    if es == [] then b else After(CrashRun(b, p, es[..|es| - 1]), p, es[|es| - 1])
  }

  ghost predicate AllSurvived(b: Books, p: Policy, es: seq<Event>) {
    forall k :: 0 <= k < |es| ==> Survived(CrashRun(b, p, es[..k]), p, es[k])
  }

  function CompletedOf(es: seq<Event>): seq<Command> {
    if es == [] then [] else
    var before := CompletedOf(es[..|es| - 1]);
    if es[|es| - 1].Done? then before + [es[|es| - 1].cmd] else before
  }

  lemma SurvivedPrefix(b: Books, p: Policy, es: seq<Event>)
    requires AllSurvived(b, p, es) && es != []
    ensures var n := |es| - 1;
      AllSurvived(b, p, es[..n]) && Survived(CrashRun(b, p, es[..n]), p, es[n])
      && CrashRun(b, p, es) == After(CrashRun(b, p, es[..n]), p, es[n])
  {
    hide Survived, After, CrashRun;
    var n := |es| - 1;
    forall k | 0 <= k < n
      ensures es[..n][..k] == es[..k]
    {
    }
    assert CrashRun(b, p, es) == After(CrashRun(b, p, es[..n]), p, es[n]) by { CrashRunUnfolds(b, p, es); }
  }

  lemma CrashRunUnfolds(b: Books, p: Policy, es: seq<Event>)
    requires es != []
    ensures CrashRun(b, p, es) == After(CrashRun(b, p, es[..|es| - 1]), p, es[|es| - 1])
  {
    hide After;
  }

  lemma SurvivedCrash(b: Books, p: Policy, e: Event)
    requires Survived(b, p, e) && e.Crashed? && Orderly(b)
    ensures var r := After(b, p, e); r == b.(uuids := r.uuids) && r.uuids >= b.uuids
  {
    CrashAtomicity(b, p, e.cmd, e.appends);
    hide PlanOf, RecoverOf, Written, Orderly, Domain, TidsOf, SideEffects, OpOf;
    UuidsGrow(b, PlanOf(b, p, e.cmd).steps[..e.appends]);
  }

  lemma MoreUuids(b: Books, n: nat)
    requires Orderly(b) && n >= b.uuids
    ensures Orderly(b.(uuids := n)) && Domain(b.(uuids := n)) == Domain(b)
  {
    assert forall id :: KnownInvoice(b.(uuids := n), id) == KnownInvoice(b, id);
    assert forall id :: KnownRefund(b.(uuids := n), id) == KnownRefund(b, id);
  }

  lemma OneMoreCommand(p: Policy, cmds: seq<Command>, cmd: Command)
    ensures Run(EMPTY, p, cmds + [cmd]) == Exec(Run(EMPTY, p, cmds), p, cmd)
  {
    hide Exec;
    assert (cmds + [cmd])[..|cmds|] == cmds;
  }

  /** Along any run with crashes, stops and successful recoveries, the domain files are exactly those of
      the run of the other commands alone: what holds of every such run holds of every healthy store. */
  lemma {:induction false} CrashRunIsRun(p: Policy, es: seq<Event>)
    requires AllSurvived(EMPTY, p, es)
    ensures Domain(CrashRun(EMPTY, p, es)) == Domain(Run(EMPTY, p, CompletedOf(es)))
    ensures Orderly(CrashRun(EMPTY, p, es)) && PendingOf(CrashRun(EMPTY, p, es).wal) == []
  {
    hide AllSurvived, Orderly, Domain, Survived, After, PlanOf, Exec, PendingOf;
    if es == [] {
      NothingOrderly();
      TidyStart(EMPTY);
    } else {
      var n := |es| - 1;
      SurvivedPrefix(EMPTY, p, es);
      CrashRunIsRun(p, es[..n]);
      NextEvent(CrashRun(EMPTY, p, es[..n]), p, CompletedOf(es[..n]), es[n]);
    }
  }

  lemma TidyStart(b: Books)
    requires Orderly(b)
    ensures PendingOf(b.wal) == []
  {
    TidyHasNothingPending(b);
  }

  lemma NextEvent(b: Books, p: Policy, cmds: seq<Command>, e: Event)
    requires Survived(b, p, e) && Orderly(b) && Domain(b) == Domain(Run(EMPTY, p, cmds))
    ensures var all := if e.Done? then cmds + [e.cmd] else cmds;
      var r := After(b, p, e);
      Domain(r) == Domain(Run(EMPTY, p, all)) && Orderly(r) && PendingOf(r.wal) == []
  {
    hide Orderly, Domain, PlanOf, RecoverOf, PendingOf, Written, Run;
    var r := After(b, p, e);
    if e.Crashed? {
      SurvivedCrash(b, p, e);
      MoreUuids(b, r.uuids);
    } else {
      var a := Run(EMPTY, p, cmds);
      SameRecords(b, a, p, e.cmd);
      var x, y := PlanOf(b, p, e.cmd), PlanOf(a, p, e.cmd);
      OneMoreCommand(p, cmds, e.cmd);
      DomainAfter(b, x.steps);
      DomainAfter(a, y.steps);
      if x.Succeeds() {
        CommandStaysOrderly(b, p, e.cmd);
      } else if e.cmd.Move? {
        StoppedMoveStaysOrderly(b, p, e.cmd.movement);
      }
    }
    TidyStart(r);
  }

  lemma SameRecords(a: Books, b: Books, p: Policy, cmd: Command)
    requires Domain(a) == Domain(b)
    requires var plan := PlanOf(a, p, cmd); plan.Succeeds() || plan.Refused() || cmd.Move?
    ensures Domain(Written(PlanOf(a, p, cmd).steps)) == Domain(Written(PlanOf(b, p, cmd).steps))
  {
    hide Domain, Written, RegisterPlan, StockPlan, JournalPlan, InvoicePlan, RefundPlan, CloseUsePlan, ClosedPeriods;
    CommandSees(a, b, p, cmd);
    if cmd.Move? {
      SameClosed(a, b);
      MoveSees(a, b, ClosedPeriods(a), p.allowNegativeStock, cmd.movement);
    }
  }
}
