/** A sale that lands in a closed period: its own period is open, its timestamp lies in the closed one. */
module LateInvoice {
  import opened Status
  import opened Text
  import opened Books
  import opened Accounting
  import opened Inventory
  import opened Billing
  import opened Writes
  import opened UseCases
  import opened Runs
  import opened CrashRuns
  import Closing
  import Completion
  import Outcomes
  import ReconciledRuns
  import ReportRuns

  const JANUARY := "FY2024-01"

  const POLICY := Policy(0, false)

  function Goods(): Item { Item("item", "sku", "name", true, "retail") }

  function Opened(): Movement { Movement("start", "item", StockIn, 1, 1, JANUARY, 0, 0, 0, "opening") }

  /** One item with one unit in stock, and January closed. */
  function Store(): Books { EMPTY.(items := [Goods()], movements := [Opened()], periods := [JANUARY]) }

  /** Sold on the last day of January, posted to February. */
  function Sale(): InvoiceCommand {
    InvoiceCommand("late", "customer", "FY2024-02", "2024-01-31", "clerk", "late", "cash", "INR",
                   [InvoiceLineCommand("item", "", 1, 10)])
  }

  lemma JanuaryStamp()
    ensures PeriodFromTimestamp(Sale().timestamp) == JANUARY && Sale().periodId != JANUARY
  {
    assert "2024-01-31"[..7] == "2024-01";
    assert "FY2024-01"[8] != "FY2024-02"[8];
  }

  lemma SaleFieldsGiven()
    ensures ValidateInvoice(0, Sale()).None?
  {
    var c := Sale();
    assert |c.invoiceId| > 0 && |c.customerId| > 0 && |c.periodId| > 0 && |c.timestamp| > 0 && |c.actorId| > 0;
    assert |c.correlationId| > 0 && |c.paymentMethod| > 0 && |c.currency| > 0 && |c.lines[0].itemId| > 0;
    assert FirstInvoiceLineError(c.lines[1..]).None?;
  }

  lemma OneInStock()
    ensures StockOnHand(Store().movements, "item") == 1 && AverageCost(Store().movements, "item") == 0
    ensures CheckItem(Store().items, "item").None?
  {
    SumOne(Store().movements[0], Restrict(ItemOf(), "item", Quantity()));
    SumOne(Store().movements[0], Restrict(ItemOf(), "item", Value()));
  }

  lemma SaleAccepted()
    ensures RefuseInvoice(Store(), ClosedPeriods(Store()), POLICY.taxRate, Sale()).None?
  {
    SaleFieldsGiven();
    JanuaryStamp();
    OneInStock();
    hide ValidateInvoice, CheckItem, StockOnHand;
    var c := Sale();
    assert c.lines[..0] == [] && ItemsInOrder(c.lines) == ["item"];
    SumOne(c.lines[0], Needs("item"));
    assert ItemStockError(Store(), "item", Sum(c.lines, Needs("item"))).None?;
    assert ["item"][1..] == [];
  }

  lemma NothingInTheWay()
    ensures Subtotal(Sale()) == 10 && !HasJournal(Store().entries, SaleJournalId(Sale().invoiceId))
    ensures |Sale().lines| == 1 && Sale().lines[0].itemId == "item"
    ensures !HasMovement(Store().movements, SaleMovementId(Sale().invoiceId, 0))
    ensures JANUARY in ClosedPeriods(Store())
  {
    hide Decimal;
    SumOne(Sale().lines[0], LineAmount());
    assert SaleMovementId("late", 0)[0] == 'm' && "start"[0] == 's';
    assert JANUARY in Store().periods;
  }

  // ---------------------------------------------------------------- how the store comes about

  function Opening(): StockCommand {
    StockCommand("start", "item", StockIn, 1, "2024-01-05", "clerk", "opening", "inventory", "opening", "opening", 0, JANUARY)
  }

  lemma GoodsRegister()
    ensures RefuseItem([], Goods()).None?
  {
    var item := Goods();
    assert |item.itemId| > 0 && |item.sku| > 0 && |item.name| > 0;
  }

  lemma RegisterFirst()
    ensures RegisterPlan(EMPTY, Goods()).Succeeds()
    ensures Domain(ApplyAll(EMPTY, RegisterPlan(EMPTY, Goods()).steps)) == EMPTY.(items := [Goods()])
  {
    GoodsRegister();
    hide Goods, RefuseItem, Written, Transaction, ApplyAll;
    RegisterWrites(EMPTY, Goods());
    DomainAfter(EMPTY, RegisterPlan(EMPTY, Goods()).steps);
  }

  lemma NoneEmpty(x: string, y: string, z: string, u: string, v: string, w: string, s: string, t: string)
    requires |x| > 0 && |y| > 0 && |z| > 0 && |u| > 0 && |v| > 0 && |w| > 0 && |s| > 0 && |t| > 0
    ensures "" !in [x, y, z, u, v, w, s, t]
  {
  }

  lemma OpeningValid()
    ensures ValidateStock(Opening()).None?
  {
    assert |"start"| == 5 && |"item"| == 4 && |"2024-01-05"| == 10 && |"clerk"| == 5 && |"opening"| == 7 && |"inventory"| == 9;
    NoneEmpty("start", "item", "2024-01-05", "clerk", "opening", "inventory", "opening", "opening");
  }

  lemma OpeningPeriod()
    ensures MovementPeriod(Opening()) == JANUARY && UsePeriod(Opening()) == Some(JANUARY)
  {
    assert |JANUARY| > 0;
  }

  lemma OpeningIs()
    ensures var c := Opening();
      && c.itemId == Goods().itemId == "item" && Goods().active && c.movementId == "start" && c.sourceDocumentId == "opening"
      && c.quantityDelta == 1 && c.unitCost == 0 && c.movementType == StockIn
  {
  }

  lemma OpeningGiven()
    ensures ValidateStock(Opening()).None? && UsePeriod(Opening()) == Some(JANUARY)
    ensures Opening().itemId == Goods().itemId && Goods().active && Opening().quantityDelta == 1
    ensures MovementOf([], Opening()) == Opened() && Opened().valueDelta == 0
  {
    OpeningValid();
    OpeningPeriod();
    OpeningIs();
    hide ValidateStock, UsePeriod, Opening, Goods, MovementPeriod;
  }

  lemma OpeningFits(b: Books)
    requires b.items == [Goods()] && b.movements == []
    ensures MovementPlan(b, false, Opening()).Succeeds()
  {
    OpeningGiven();
    hide Goods, Opening, ValidateStock, UsePeriod, MovementOf, MovementSteps;
    assert FindItem([Goods()], Opening().itemId) == Some(Goods());
  }

  /** A movement worth nothing needs no journal. */
  lemma WorthNothing(b: Books, closed: set<string>, c: StockCommand)
    requires MovementPlan(b, false, c).Succeeds() && UsePeriod(c).Some? && UsePeriod(c).value !in closed
    requires MovementOf(b.movements, c).valueDelta == 0
    ensures StockPlan(b, closed, false, c) == MovementPlan(b, false, c)
  {
    hide MovementPlan, MovementOf, UsePeriod, JournalPlan, StockJournal, ApplyAll;
  }

  lemma StockSecond(b: Books)
    requires Domain(b) == EMPTY.(items := [Goods()])
    ensures var plan := StockPlan(b, ClosedPeriods(b), false, Opening());
      plan.Succeeds() && Domain(ApplyAll(b, plan.steps)) == EMPTY.(items := [Goods()], movements := [Opened()])
  {
    hide *;
    OnlyItem(b, Goods());
    OpeningFits(b);
    OpeningGiven();
    WorthNothing(b, ClosedPeriods(b), Opening());
    MovementWrites(b, false, Opening());
    DomainAfter(b, MovementPlan(b, false, Opening()).steps);
    PlusOpened(Goods(), Opened());
  }

  lemma OnlyItem(b: Books, item: Item)
    requires Domain(b) == EMPTY.(items := [item])
    ensures b.items == [item] && b.movements == [] && ClosedPeriods(b) == {}
  {
    SeesDomain(b);
    hide Domain;
    assert b.periods == [];
  }

  lemma PlusOpened(item: Item, m: Movement)
    ensures Plus(EMPTY.(items := [item]), EMPTY.(movements := [m])) == EMPTY.(items := [item], movements := [m])
  {
  }

  /** The item is registered, and a unit put in stock in January. */
  function Before(): seq<Command> { [Register(Goods()), Move(Opening())] }

  lemma BeforeRuns()
    ensures Domain(Run(EMPTY, POLICY, Before())) == EMPTY.(items := [Goods()], movements := [Opened()])
    ensures ReconciledRuns.AllConform(POLICY, Before())
  {
    hide Goods, Opening, Opened, PlanOf, Exec, Domain;
    var x, y := Register(Goods()), Move(Opening());
    var b1 := Exec(EMPTY, POLICY, x);
    assert PlanOf(EMPTY, POLICY, x).Succeeds() && Domain(b1) == EMPTY.(items := [Goods()]) by {
      RegisterFirst();
      ExecRegister(EMPTY, Goods());
    }
    assert PlanOf(b1, POLICY, y).Succeeds()
        && Domain(Exec(b1, POLICY, y)) == EMPTY.(items := [Goods()], movements := [Opened()]) by {
      StockSecond(b1);
      ExecMove(b1, Opening());
    }
    NothingRun();
    OneMoreCommand(POLICY, [], x);
    OneMoreCommand(POLICY, [x], y);
    assert Before() == [x] + [y] && [] + [x] == [x];
    Completed(EMPTY, x);
    Completed(b1, y);
    BothConform(x, y);
  }

  lemma ExecRegister(b: Books, item: Item)
    ensures PlanOf(b, POLICY, Register(item)) == RegisterPlan(b, item)
    ensures Exec(b, POLICY, Register(item)) == ApplyAll(b, RegisterPlan(b, item).steps)
  {
    hide RegisterPlan;
  }

  lemma ExecMove(b: Books, c: StockCommand)
    ensures PlanOf(b, POLICY, Move(c)) == StockPlan(b, ClosedPeriods(b), false, c)
    ensures Exec(b, POLICY, Move(c)) == ApplyAll(b, StockPlan(b, ClosedPeriods(b), false, c).steps)
  {
    hide StockPlan;
  }

  lemma BothConform(x: Command, y: Command)
    requires ReconciledRuns.Conforms(Run(EMPTY, POLICY, []), POLICY, x)
    requires ReconciledRuns.Conforms(Run(EMPTY, POLICY, [x]), POLICY, y)
    ensures ReconciledRuns.AllConform(POLICY, [x, y])
  {
    hide ReconciledRuns.Conforms, Run;
    assert [x, y][..0] == [] && [x, y][..1] == [x];
  }

  lemma NothingRun()
    ensures Run(EMPTY, POLICY, []) == EMPTY
  {
  }

  lemma Completed(b: Books, cmd: Command)
    requires PlanOf(b, POLICY, cmd).Succeeds() && (cmd.Register? || cmd.Move?)
    ensures ReconciledRuns.Conforms(b, POLICY, cmd)
  {
    hide PlanOf, Outcomes.Completes;
    Outcomes.CompletesExactly(b, POLICY, cmd);
  }

  lemma BeforeInOneCurrency()
    ensures forall k :: 0 <= k < |Before()| ==> ReportRuns.InBaseCurrency(Before()[k])
  {
    hide Goods, Opening;
  }

  lemma JanuaryNamed()
    ensures JANUARY != ""
  {
    assert |JANUARY| > 0;
  }

  /** Every period can be closed after them, January too. */
  lemma JanuaryCloses()
    ensures var b := Run(EMPTY, POLICY, Before());
      PlanOf(b, POLICY, Close(JANUARY)).Succeeds() && Domain(Exec(b, POLICY, Close(JANUARY))) == Domain(Store())
  {
    BeforeRuns();
    BeforeInOneCurrency();
    JanuaryNamed();
    var b := Run(EMPTY, POLICY, Before());
    hide Goods, Opening, Opened, Before, Run, CloseUsePlan, Written, ReconciledRuns.AllConform,
      ReportRuns.InBaseCurrency;
    ReportRuns.EveryReportPasses(POLICY, Before(), JANUARY);
    ClosesFirst(b);
  }

  lemma ClosesFirst(b: Books)
    requires CloseUsePlan(b, ClosedPeriods(b), JANUARY).Succeeds()
    requires Domain(b) == EMPTY.(items := [Goods()], movements := [Opened()])
    ensures PlanOf(b, POLICY, Close(JANUARY)).Succeeds() && Domain(Exec(b, POLICY, Close(JANUARY))) == Domain(Store())
  {
    SeesDomain(b);
    hide Goods, Opened, CloseUsePlan, Written, ClosePlan, ApplyAll;
    assert ClosedPeriods(b) == {};
    CloseUseWrites(b, JANUARY);
    CloseWrites(b, ClosedPeriods(b), JANUARY);
    ExecIs(b, POLICY, Close(JANUARY));
    DomainAfter(b, CloseUsePlan(b, ClosedPeriods(b), JANUARY).steps);
  }

  /** Registered, stocked and closed as above, the sale is accepted and completes, and January has changed
      although it is closed. */
  lemma LateSale()
    ensures var b := Exec(Run(EMPTY, POLICY, Before()), POLICY, Close(JANUARY));
      && JANUARY in ClosedPeriods(b) && PlanOf(b, POLICY, Sell(Sale())).Succeeds()
      && Closing.ViewOf(Exec(b, POLICY, Sell(Sale())), JANUARY) != Closing.ViewOf(b, JANUARY)
  {
    SaleAccepted();
    OneInStock();
    JanuaryStamp();
    NothingInTheWay();
    JanuaryCloses();
    hide *;
    var b, c := Exec(Run(EMPTY, POLICY, Before()), POLICY, Close(JANUARY)), Sale();
    SameClosed(b, Store());
    Completion.InvoiceCompletes(Store(), ClosedPeriods(Store()), POLICY, c);
    Closing.SellExec(Store(), POLICY, c);
    CommandSees(Store(), b, POLICY, Sell(c));
    SameEnd(PlanOf(Store(), POLICY, Sell(c)), PlanOf(b, POLICY, Sell(c)));
    Closing.SellExec(b, POLICY, c);
    Closing.InvoiceInClosedPeriod(b, POLICY, c, JANUARY);
  }
}
