/** Runs of the commands of the application over one store. */
module Runs {
  import opened Books
  import opened Accounting
  import opened Inventory
  import opened Billing
  import opened Writes
  import opened Reconciliation
  import opened UseCases
  import opened Agreement
  import opened SaleAgreement
  import opened ReturnAgreement

  datatype Command =
    | Register(item: Item)
    | Move(movement: StockCommand)
    | Post(journal: PostCommand)
    | Sell(invoice: InvoiceCommand)
    | Return(refund: RefundCommand)
    | Close(periodId: string)

  /** Stock moves and periods close through their use cases; the closed periods are those in the log. */
  function PlanOf(b: Books, p: Policy, cmd: Command): Plan {
    var closed := ClosedPeriods(b);
    match cmd
    case Register(item) => RegisterPlan(b, item)
    case Move(c) => StockPlan(b, closed, p.allowNegativeStock, c)
    case Post(c) => JournalPlan(b, closed, c)
    case Sell(c) => InvoicePlan(b, closed, p, c)
    case Return(c) => RefundPlan(b, closed, p, c)
    case Close(periodId) => CloseUsePlan(b, closed, periodId)
  }

  function Exec(b: Books, p: Policy, cmd: Command): Books { ApplyAll(b, PlanOf(b, p, cmd).steps) }

  function Run(b: Books, p: Policy, cmds: seq<Command>): Books {
    if cmds == [] then b else Exec(Run(b, p, cmds[..|cmds| - 1]), p, cmds[|cmds| - 1])
  }

  /** What the command needs, in the state it finds, to keep the five checks. */
  predicate Keeps(b: Books, cmd: Command) {
    match cmd
    case Register(_) => true
    case Move(_) => true
    case Post(c) => Neutral(c.lines)
    case Sell(c) => StableAverages(b.movements, c) && (Aligned(c.timestamp, c.periodId) || CogsOf(b.movements, c) == 0)
    case Return(c) => Aligned(c.timestamp, c.periodId) || RestoredOf(b, c) == 0
    case Close(_) => true
  }

  // ---------------------------------------------------------------- what a completed command adds

  function Added(b: Books, p: Policy, cmd: Command): Books
    requires PlanOf(b, p, cmd).Succeeds()
  {
    Domain(Written(PlanOf(b, p, cmd).steps))
  }

  lemma CloseUseWrites(b: Books, periodId: string)
    requires CloseUsePlan(b, ClosedPeriods(b), periodId).Succeeds()
    ensures CloseUsePlan(b, ClosedPeriods(b), periodId) == ClosePlan(b, ClosedPeriods(b), periodId)
    ensures var d := Domain(Written(CloseUsePlan(b, ClosedPeriods(b), periodId).steps));
      d == EMPTY || d == EMPTY.(periods := [periodId])
  {
    hide Written, ClosePlan, ReportOf, LedgerReadable;
    CloseWrites(b, ClosedPeriods(b), periodId);
  }

  lemma KeepsLinks(b: Books, p: Policy, cmd: Command)
    requires PlanOf(b, p, cmd).Succeeds() && Linked(b)
    ensures Linked(Exec(b, p, cmd)) && Linked(Added(b, p, cmd)) && Apart(b, Added(b, p, cmd))
  {
    var d := Added(b, p, cmd);
    var steps := PlanOf(b, p, cmd).steps;
    assert Linked(d) && Apart(b, d) by {
      AddedLinked(b, p, cmd);
    }
    hide *;
    WritesAdd(b, steps);
    assert Written(steps).invoices == d.invoices && Written(steps).invoiceLines == d.invoiceLines
        && Written(steps).refunds == d.refunds && Written(steps).refundLines == d.refundLines by { SameFiles(Written(steps)); }
    LinkedByFiles(d, Written(steps));
    LinkedAdds(b, Written(steps));
    ExecIs(b, p, cmd);
  }

  lemma ExecIs(b: Books, p: Policy, cmd: Command)
    ensures Exec(b, p, cmd) == ApplyAll(b, PlanOf(b, p, cmd).steps)
    ensures PlanOf(b, p, cmd).Succeeds() ==> Added(b, p, cmd) == Domain(Written(PlanOf(b, p, cmd).steps))
  {
    hide PlanOf;
  }

  lemma SameFiles(b: Books)
    ensures var d := Domain(b);
      && d.entries == b.entries && d.lines == b.lines && d.periods == b.periods && d.items == b.items
      && d.movements == b.movements && d.invoices == b.invoices && d.invoiceLines == b.invoiceLines
      && d.refunds == b.refunds && d.refundLines == b.refundLines
  {
  }

  lemma LinkedByFiles(a: Books, b: Books)
    requires a.invoices == b.invoices && a.invoiceLines == b.invoiceLines && a.refunds == b.refunds
      && a.refundLines == b.refundLines
    requires Linked(a)
    ensures Linked(b)
  {
    assert forall id :: KnownInvoice(a, id) == KnownInvoice(b, id);
    assert forall id :: KnownRefund(a, id) == KnownRefund(b, id);
  }

  lemma AddedLinked(b: Books, p: Policy, cmd: Command)
    requires PlanOf(b, p, cmd).Succeeds()
    ensures Linked(Added(b, p, cmd)) && Apart(b, Added(b, p, cmd))
  {
    hide Linked, Apart, Written, RegisterPlan, StockPlan, JournalPlan, InvoicePlan, RefundPlan, CloseUsePlan, EntryOf,
      LedgerLines, MovementOf, StockJournal, SaleJournal, RefundJournal, SoldMovements, RestockedMovements, InvoiceOf,
      RefundOf, InvoiceLines, RefundLines, PositiveQuantities, PositiveRequests;
    var d := Added(b, p, cmd);
    var closed := ClosedPeriods(b);
    match cmd {
      case Register(item) => RegisterWrites(b, item); Plain(b, d);
      case Move(c) => StockWrites(b, closed, p.allowNegativeStock, c); Plain(b, d);
      case Post(c) => JournalWrites(b, closed, c); Plain(b, d);
      case Sell(c) =>
        InvoiceAccepted(b, closed, p, c);
        InvoiceWrites(b, closed, p, c);
        InvoiceLinked(b, p.taxRate, c, d);
      case Return(c) =>
        RefundAccepted(b, closed, p, c);
        RefundWrites(b, closed, p, c);
        RefundLinked(b, p.taxRate, c, d);
      case Close(periodId) => CloseUseWrites(b, periodId); Plain(b, d);
    }
  }

  lemma Plain(b: Books, d: Books)
    requires d.invoices == [] && d.invoiceLines == [] && d.refunds == [] && d.refundLines == []
    ensures Linked(d) && Apart(b, d)
  {
  }

  lemma QuietReconciled(d: Books)
    requires d.lines == [] && d.movements == [] && d.invoices == [] && d.invoiceLines == [] && d.refunds == []
      && d.refundLines == []
    ensures Reconciled(d)
  {
    forall p
      ensures ReportOf(d, p).Passed()
    {
      NoFolds(p);
    }
  }

  /** A completed command keeps reconciled books reconciled exactly when it meets its condition. */
  lemma CommandReconciles(b: Books, p: Policy, cmd: Command)
    requires PlanOf(b, p, cmd).Succeeds() && Linked(b) && Reconciled(b)
    ensures Reconciled(Exec(b, p, cmd)) <==> Keeps(b, cmd)
  {
    hide Linked, Apart, Reconciled, Written, RegisterPlan, StockPlan, JournalPlan, InvoicePlan, RefundPlan,
      CloseUsePlan, Neutral, StableAverages, CogsOf, RestoredOf, Aligned, ApplyAll;
    var closed := ClosedPeriods(b);
    match cmd {
      case Register(item) =>
        RegisterWrites(b, item);
        Plain(b, EMPTY.(items := [item]));
        CompletedReconciles(b, RegisterPlan(b, item).steps, EMPTY.(items := [item]));
        QuietReconciled(EMPTY.(items := [item]));
      case Move(c) => StockMovementReconciles(b, closed, p.allowNegativeStock, c);
      case Post(c) => ManualJournalReconciles(b, closed, c);
      case Sell(c) => InvoiceReconciles(b, closed, p, c);
      case Return(c) => RefundReconciles(b, closed, p, c);
      case Close(periodId) =>
        CloseUseWrites(b, periodId);
        var steps := CloseUsePlan(b, closed, periodId).steps;
        var d := Domain(Written(steps));
        Plain(b, d);
        CompletedReconciles(b, steps, d);
        QuietReconciled(d);
    }
  }

  // ---------------------------------------------------------------- runs

  lemma RunUnfolds(p: Policy, cmds: seq<Command>)
    requires cmds != []
    ensures Run(EMPTY, p, cmds) == Exec(Run(EMPTY, p, cmds[..|cmds| - 1]), p, cmds[|cmds| - 1])
  {
    hide Exec;
  }
}
