/** src/bms/app/use_cases.py: a stock movement with its journal, and closing a reconciled period. */
module UseCases {
  import opened Status
  import opened Books
  import opened Accounting
  import opened Inventory
  import opened Reconciliation

  const BASE_CURRENCY := "INR"

  function UsePeriod(c: StockCommand): Option<string> {
    if c.periodId != "" then Some(c.periodId)
    else if |c.timestamp| < 7 then None
    else Some(PeriodFromTimestamp(c.timestamp))
  }

  function StockJournalLines(value: int): seq<JournalLine> {
    if value > 0 then [JournalLine(INVENTORY, value, 0, BASE_CURRENCY), JournalLine(OWNER_EQUITY, 0, value, BASE_CURRENCY)]
    else [JournalLine(INVENTORY_ADJUSTMENT, -value, 0, BASE_CURRENCY), JournalLine(INVENTORY, 0, -value, BASE_CURRENCY)]
  }

  function StockJournal(c: StockCommand, periodId: string, value: int): PostCommand {
    PostCommand("jrn_inventory_" + c.movementId, periodId, c.timestamp, c.actorId, "inventory", c.sourceDocumentId,
                c.correlationId, "Inventory movement " + c.movementId, StockJournalLines(value))
  }

  /** CommitStockMovementUseCase.execute: two transactions one after the other, none around them. */
  function StockPlan(b: Books, closed: set<string>, allowNegative: bool, c: StockCommand): Plan {
    match UsePeriod(c)
    case None => Plan([], Some(BadTimestamp))
    case Some(periodId) =>
      if periodId in closed then Plan([], Some(PeriodClosed)) else
      var moved := MovementPlan(b, allowNegative, c);
      var value := MovementOf(b.movements, c).valueDelta;
      if moved.error.Some? || value == 0 then moved else
      var posted := JournalPlan(ApplyAll(b, moved.steps), closed, StockJournal(c, periodId, value));
      Plan(moved.steps + posted.steps, posted.error)
  }

  class CommitStockMovementUseCase {
    const inventory: InventoryService
    const accounting: AccountingService

    constructor (inventory: InventoryService, accounting: AccountingService)
      ensures this.inventory == inventory && this.accounting == accounting
    {
      this.inventory, this.accounting := inventory, accounting;
    }

    method Execute(c: StockCommand) returns (error: Option<Error>)
      requires inventory.store == accounting.store
      modifies accounting.store
      ensures var b := old(accounting.store.View());
        var plan := StockPlan(b, accounting.closedPeriods, inventory.allowNegativeStock, c);
        accounting.store.View() == ApplyAll(b, plan.steps) && error == plan.error
    {
      hide Apply, MovementPlan, MovementOf, JournalPlan;
      ghost var b := accounting.store.View();
      var period := UsePeriod(c);
      if period.None? {
        return Some(BadTimestamp);
      }
      if period.value in accounting.closedPeriods {
        return Some(PeriodClosed);
      }
      var movement;
      error, movement := inventory.CommitMovement(c);
      if error.Some? || movement.valueDelta == 0 {
        return;
      }
      error := accounting.PostJournal(StockJournal(c, period.value, movement.valueDelta));
      ghost var moved := MovementPlan(b, inventory.allowNegativeStock, c).steps;
      ghost var journal := StockJournal(c, period.value, movement.valueDelta);
      ApplyConcat(b, moved, JournalPlan(ApplyAll(b, moved), accounting.closedPeriods, journal).steps);
    }
  }

  /** ClosePeriodUseCase.execute: close_period behind a passed reconciliation report. */
  function CloseUsePlan(b: Books, closed: set<string>, periodId: string): Plan {
    match ReportResultOf(b, periodId)
    case Refused(e) => Plan([], Some(e))
    case Ready(report) =>
      if !report.Passed() then Plan([], Some(ReconciliationFailed)) else ClosePlan(b, closed, periodId)
  }

  class ClosePeriodUseCase {
    const accounting: AccountingService
    const reconciliation: ReconciliationService

    constructor (accounting: AccountingService, reconciliation: ReconciliationService)
      ensures this.accounting == accounting && this.reconciliation == reconciliation
    {
      this.accounting, this.reconciliation := accounting, reconciliation;
    }

    method Execute(periodId: string) returns (error: Option<Error>)
      requires reconciliation.store == accounting.store && accounting.Valid()
      modifies accounting, accounting.store
      ensures var b := old(accounting.store.View());
        var plan := CloseUsePlan(b, old(accounting.closedPeriods), periodId);
        accounting.store.View() == ApplyAll(b, plan.steps) && error == plan.error
      ensures accounting.Valid()
    {
      hide Apply, ReportOf, LedgerReadable, ClosePlan;
      var result := reconciliation.GetReconciliationReport(periodId);
      if result.Refused? {
        return Some(result.error);
      }
      if !result.report.Passed() {
        return Some(ReconciliationFailed);
      }
      error := accounting.ClosePeriod(periodId);
    }
  }
}
