/** What the reconciliation report answers after a run in one currency. */
module ReportRuns {
  import opened Books
  import opened Accounting
  import opened Inventory
  import opened Billing
  import opened Writes
  import opened Reconciliation
  import opened UseCases
  import opened Agreement
  import opened Runs
  import opened ReconciledRuns
  import opened Equation

  /** Documents and journals in the currency the stock use case posts in. */
  predicate InBaseCurrency(cmd: Command) {
    match cmd
    case Sell(c) => c.currency == BASE_CURRENCY
    case Return(c) => c.currency == BASE_CURRENCY
    case Post(c) => AllIn(c.lines)
    case _ => true
  }

  predicate AllIn(ls: seq<JournalLine>) { forall l :: l in ls ==> l.currency == BASE_CURRENCY }

  predicate LedgerIn(ls: seq<LedgerLine>) { forall l :: l in ls ==> l.currency == BASE_CURRENCY }

  lemma JournalIn(c: PostCommand)
    requires AllIn(c.lines)
    ensures LedgerIn(LedgerLines(c))
  {
    forall l | l in LedgerLines(c)
      ensures l.currency == BASE_CURRENCY
    {
      var i :| 0 <= i < |LedgerLines(c)| && LedgerLines(c)[i] == l;
      assert c.lines[i] in c.lines;
    }
  }

  lemma SaleIn(subtotal: int, tax: int, cogs: int)
    ensures AllIn(SaleLines(BASE_CURRENCY, subtotal, tax, cogs))
    ensures AllIn(RefundJournalLines(BASE_CURRENCY, subtotal, tax, cogs))
  {
  }

  lemma StockIn(value: int)
    ensures AllIn(StockJournalLines(value))
  {
  }

  lemma CommandIn(b: Books, p: Policy, cmd: Command)
    requires PlanOf(b, p, cmd).Succeeds() && InBaseCurrency(cmd)
    ensures LedgerIn(Written(PlanOf(b, p, cmd).steps).lines)
  {
    hide LedgerIn, Written, RegisterPlan, StockPlan, JournalPlan, InvoicePlan, RefundPlan, CloseUsePlan, EntryOf,
      LedgerLines, MovementOf, SoldMovements, RestockedMovements, InvoiceOf, RefundOf, InvoiceLines, RefundLines,
      PositiveQuantities, PositiveRequests, ClosedPeriods, AllIn, SaleLines, RefundJournalLines, StockJournalLines,
      LineCosts, RestoredCosts, Tax;
    var closed, d := ClosedPeriods(b), Written(PlanOf(b, p, cmd).steps);
    SameFiles(d);
    NoneIn();
    match cmd {
      case Register(item) => RegisterWrites(b, item);
      case Move(c) =>
        StockWrites(b, closed, p.allowNegativeStock, c);
        var value := MovementOf(b.movements, c).valueDelta;
        StockIn(value);
        JournalIn(StockJournal(c, MovementPeriod(c), value));
      case Post(c) => JournalWrites(b, closed, c); JournalIn(c);
      case Sell(c) =>
        InvoiceWrites(b, closed, p, c);
        SaleIn(Subtotal(c), Tax(Subtotal(c), p.taxRate), TotalCost(LineCosts(b.movements, c.lines)));
        JournalIn(SaleJournal(p.taxRate, b.movements, c));
      case Return(c) =>
        RefundWrites(b, closed, p, c);
        SaleIn(RefundSubtotal(c), Tax(RefundSubtotal(c), p.taxRate), TotalCost(RestoredCosts(b, c)));
        JournalIn(RefundJournal(p.taxRate, b, c));
      case Close(periodId) => CloseUseWrites(b, periodId);
    }
  }

  lemma NoneIn()
    ensures LedgerIn([])
  {
  }

  lemma {:induction false} RunIn(p: Policy, cmds: seq<Command>)
    requires AllConform(p, cmds) && forall k :: 0 <= k < |cmds| ==> InBaseCurrency(cmds[k])
    ensures LedgerIn(Run(EMPTY, p, cmds).lines)
  {
    hide AllConform, PlanOf, Exec, InBaseCurrency, Written, ApplyAll, Keeps;
    if cmds != [] {
      var n := |cmds| - 1;
      LongerConforms(p, cmds);
      RunIn(p, cmds[..n]);
      var b := Run(EMPTY, p, cmds[..n]);
      var steps := PlanOf(b, p, cmds[n]).steps;
      ExecIs(b, p, cmds[n]);
      WritesAdd(b, steps);
      if PlanOf(b, p, cmds[n]).Succeeds() {
        CommandIn(b, p, cmds[n]);
      } else {
        ConformingStop(b, p, cmds[n]);
        SameFiles(Written(steps));
      }
    }
  }

  lemma Readable(b: Books, period: string)
    requires LedgerSound(b) && LedgerIn(b.lines)
    ensures LedgerReadable(b.lines, period)
  {
    hide PeriodBalances, Known;
    forall i | 0 <= i < |b.lines|
      ensures Known(b.lines[i].account) && b.lines[i].currency == BASE_CURRENCY
    {
      assert b.lines[i] in b.lines;
    }
  }

  /** After a run in one currency whose commands all conform, the report of every period is ready and passes,
      so every period can be closed. */
  lemma EveryReportPasses(p: Policy, cmds: seq<Command>, period: string)
    requires AllConform(p, cmds) && period != ""
    requires forall k :: 0 <= k < |cmds| ==> InBaseCurrency(cmds[k])
    ensures var b := Run(EMPTY, p, cmds);
      && ReportResultOf(b, period).Ready? && ReportResultOf(b, period).report.Passed()
      && CloseUsePlan(b, ClosedPeriods(b), period).Succeeds()
  {
    hide *;
    RunReconciles(p, cmds);
    RunSound(p, cmds);
    RunIn(p, cmds);
    LastReconciled(p, cmds);
    Passes(Run(EMPTY, p, cmds), period);
  }

  lemma LastReconciled(p: Policy, cmds: seq<Command>)
    requires AlwaysReconciled(p, cmds)
    ensures Reconciled(Run(EMPTY, p, cmds))
  {
    hide Run, Reconciled;
    assert cmds[..|cmds|] == cmds;
  }

  lemma Passes(b: Books, period: string)
    requires Reconciled(b) && LedgerSound(b) && LedgerIn(b.lines) && period != ""
    ensures ReportResultOf(b, period).Ready? && ReportResultOf(b, period).report.Passed()
    ensures CloseUsePlan(b, ClosedPeriods(b), period).Succeeds()
  {
    hide ReportOf, LedgerSound, LedgerIn, LedgerReadable, ClosedPeriods, Sum;
    Readable(b, period);
    BalancedPeriod(b, period);
  }

  lemma BalancedPeriod(b: Books, period: string)
    requires LedgerSound(b)
    ensures Sum(b.entries, EntryDebit(period)) == Sum(b.entries, EntryCredit(period))
  {
    hide Sum;
    assert PeriodBalances(b, period);
  }
}
