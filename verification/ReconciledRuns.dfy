/** The five checks over whole runs, commands that stop half way included. */
module ReconciledRuns {
  import opened Books
  import opened Accounting
  import opened Inventory
  import opened Billing
  import opened Writes
  import opened Reconciliation
  import opened UseCases
  import opened Agreement
  import opened SaleAgreement
  import opened ReturnAgreement
  import opened Runs
  import opened Stops
  import opened Outcomes

  // ---------------------------------------------------------------- one command

  /** A command that completes meets its condition, and one that does not leaves no domain record behind;
      both told from the state before it. */
  predicate Conforms(b: Books, p: Policy, cmd: Command) { if Completes(b, p, cmd) then Keeps(b, cmd) else !Strands(b, p, cmd) }

  lemma StoppedKeepsLinks(b: Books, p: Policy, cmd: Command)
    requires PlanOf(b, p, cmd).error.Some? && Linked(b)
    ensures Linked(Exec(b, p, cmd))
  {
    StoppedQuiet(b, p, cmd);
    hide PlanOf, Linked, Written, Apart;
    var steps := PlanOf(b, p, cmd).steps;
    WritesAdd(b, steps);
    Plain(b, Written(steps));
    LinkedAdds(b, Written(steps));
  }

  /** A sale in the ledger without its invoice, and a return without its refund, do not reconcile. */
  lemma LoneSaleJournal(d: Books, rate: int, ms: seq<Movement>, c: InvoiceCommand)
    requires d.lines == LedgerLines(SaleJournal(rate, ms, c)) && d.invoices == [] && Subtotal(c) != 0
    ensures !Reconciled(d)
  {
    hide Sum, Debit, Credit, Debited, Credited, LedgerLines, DebitBalance, LineCosts, Tax, SaleLines, PeriodValue;
    var p := c.periodId;
    NoFolds(p);
    LedgerReport(d, SaleJournal(rate, ms, c), p);
    SaleLineTotals(c.currency, Subtotal(c), Tax(Subtotal(c), rate), CogsOf(ms, c));
    assert !ReportOf(d, p).Passed();
  }

  lemma LoneRefundJournal(d: Books, rate: int, b: Books, c: RefundCommand)
    requires d.lines == LedgerLines(RefundJournal(rate, b, c)) && d.refunds == [] && RefundSubtotal(c) != 0
    ensures !Reconciled(d)
  {
    hide Sum, Debit, Credit, Debited, Credited, LedgerLines, DebitBalance, RestoredCosts, Tax, RefundJournalLines,
      PeriodValue;
    var p := c.periodId;
    NoFolds(p);
    LedgerReport(d, RefundJournal(rate, b, c), p);
    RefundLineTotals(c.currency, RefundSubtotal(c), Tax(RefundSubtotal(c), rate), RestoredOf(b, c));
    assert !ReportOf(d, p).Passed();
  }

  /** A journal of a sale without its invoice, a journal of a refund without its refund, and a movement of
      value without its journal: none of them reconciles. */
  lemma StrandedInvoice(b: Books, closed: set<string>, p: Policy, c: InvoiceCommand)
    requires RefuseInvoice(b, closed, p.taxRate, c).None? && InvoicePlan(b, closed, p, c).error.Some?
    ensures var d := Domain(Written(InvoicePlan(b, closed, p, c).steps)); Reconciled(d) <==> d == EMPTY
  {
    NothingReconciled();
    StoppedSale(b, closed, p, c);
    hide Reconciled, InvoicePlan, SaleJournal, Written, Domain, Subtotal, LedgerLines, RefuseInvoice, SalePosts;
    if SalePosts(b, c) {
      LoneSaleJournal(Domain(Written(InvoicePlan(b, closed, p, c).steps)), p.taxRate, b.movements, c);
    }
  }

  lemma StrandedRefund(b: Books, closed: set<string>, p: Policy, c: RefundCommand)
    requires RefuseRefund(b, closed, p.taxRate, c).None? && RefundPlan(b, closed, p, c).error.Some?
    ensures var d := Domain(Written(RefundPlan(b, closed, p, c).steps)); Reconciled(d) <==> d == EMPTY
  {
    NothingReconciled();
    StoppedReturn(b, closed, p, c);
    hide Reconciled, RefundPlan, RefundJournal, Written, Domain, RefundSubtotal, LedgerLines, RefuseRefund,
      ReturnPosts;
    if ReturnPosts(b, c) {
      LoneRefundJournal(Domain(Written(RefundPlan(b, closed, p, c).steps)), p.taxRate, b, c);
    }
  }

  lemma StrandedMove(b: Books, closed: set<string>, allowNegative: bool, c: StockCommand)
    requires StockPlan(b, closed, allowNegative, c).error.Some?
    ensures var d := Domain(Written(StockPlan(b, closed, allowNegative, c).steps)); Reconciled(d) <==> d == EMPTY
  {
    NothingReconciled();
    hide Reconciled, MovementPlan, MovementOf, JournalPlan, StockJournal, Written, ApplyAll, Domain;
    if StockPlan(b, closed, allowNegative, c).steps != [] {
      MoveStops(b, closed, allowNegative, c);
      MovementWrites(b, allowNegative, c);
      var m := MovementOf(b.movements, c);
      assert m.valueDelta != 0;
      LoneMovement(m, m.periodId);
      NotReconciled(EMPTY.(movements := [m]), m.periodId);
    } else {
      NothingDomain();
    }
  }

  lemma NotReconciled(d: Books, p: string)
    requires !ReportOf(d, p).Passed()
    ensures !Reconciled(d)
  {
    hide ReportOf;
  }

  lemma NothingReconciled()
    ensures Reconciled(EMPTY)
  {
    QuietReconciled(EMPTY);
  }

  lemma StoppedWrites(b: Books, p: Policy, cmd: Command)
    requires PlanOf(b, p, cmd).error.Some?
    ensures var d := Domain(Written(PlanOf(b, p, cmd).steps)); Reconciled(d) <==> d == EMPTY
  {
    NothingDomain();
    NothingReconciled();
    hide Reconciled, Written, RegisterPlan, StockPlan, JournalPlan, InvoicePlan, RefundPlan, CloseUsePlan,
      ClosedPeriods, Domain, RefuseInvoice, RefuseRefund;
    var closed := ClosedPeriods(b);
    match cmd {
      case Move(c) => StrandedMove(b, closed, p.allowNegativeStock, c);
      case Sell(c) =>
        SaleRefused(b, closed, p, c);
        if RefuseInvoice(b, closed, p.taxRate, c).None? {
          StrandedInvoice(b, closed, p, c);
        }
      case Return(c) =>
        ReturnRefused(b, closed, p, c);
        if RefuseRefund(b, closed, p.taxRate, c).None? {
          StrandedRefund(b, closed, p, c);
        }
      case _ => OthersRefuse(b, p, cmd);
    }
  }

  /** A command that does not complete breaks reconciled books exactly when it is accepted and stops behind
      its first domain record. */
  lemma StoppedReconciles(b: Books, p: Policy, cmd: Command)
    requires !Completes(b, p, cmd) && Linked(b) && Reconciled(b)
    ensures Reconciled(Exec(b, p, cmd)) <==> !Strands(b, p, cmd)
  {
    CompletesExactly(b, p, cmd);
    StoppedQuiet(b, p, cmd);
    StrandsExactly(b, p, cmd);
    StoppedWrites(b, p, cmd);
    hide Linked, Apart, Reconciled, Written, PlanOf, Domain, ApplyAll, Completes, Strands;
    var steps := PlanOf(b, p, cmd).steps;
    var d := Domain(Written(steps));
    SameFiles(Written(steps));
    Plain(b, d);
    CompletedReconciles(b, steps, d);
  }

  /** Any command keeps reconciled books reconciled exactly when it conforms. */
  lemma CommandConforms(b: Books, p: Policy, cmd: Command)
    requires Linked(b) && Reconciled(b)
    ensures Reconciled(Exec(b, p, cmd)) <==> Conforms(b, p, cmd)
  {
    hide Linked, PlanOf, Exec, Reconciled, Keeps, Completes, Strands;
    CompletesExactly(b, p, cmd);
    if Completes(b, p, cmd) {
      CommandReconciles(b, p, cmd);
    } else {
      StoppedReconciles(b, p, cmd);
    }
  }

  lemma ConformingStop(b: Books, p: Policy, cmd: Command)
    requires Conforms(b, p, cmd) && PlanOf(b, p, cmd).error.Some?
    ensures Domain(Written(PlanOf(b, p, cmd).steps)) == EMPTY
  {
    hide PlanOf, Written, Domain, Completes, Strands, Keeps;
    CompletesExactly(b, p, cmd);
    StrandsExactly(b, p, cmd);
  }

  // ---------------------------------------------------------------- runs

  lemma {:induction false} RunLinked(p: Policy, cmds: seq<Command>)
    ensures Linked(Run(EMPTY, p, cmds))
  {
    hide Linked, PlanOf, Exec;
    if cmds == [] {
      Plain(EMPTY, EMPTY);
    } else {
      var n := |cmds| - 1;
      RunLinked(p, cmds[..n]);
      var b := Run(EMPTY, p, cmds[..n]);
      if PlanOf(b, p, cmds[n]).Succeeds() {
        KeepsLinks(b, p, cmds[n]);
      } else {
        StoppedKeepsLinks(b, p, cmds[n]);
      }
    }
  }

  ghost predicate AllConform(p: Policy, cmds: seq<Command>) {
    forall k :: 0 <= k < |cmds| ==> Conforms(Run(EMPTY, p, cmds[..k]), p, cmds[k])
  }

  ghost predicate AlwaysReconciled(p: Policy, cmds: seq<Command>) {
    forall k :: 0 <= k <= |cmds| ==> Reconciled(Run(EMPTY, p, cmds[..k]))
  }

  lemma LongerReconciled(p: Policy, cmds: seq<Command>)
    requires cmds != []
    ensures var n := |cmds| - 1;
      && (AlwaysReconciled(p, cmds) <==> AlwaysReconciled(p, cmds[..n]) && Reconciled(Run(EMPTY, p, cmds)))
      && (AlwaysReconciled(p, cmds[..n]) ==> Reconciled(Run(EMPTY, p, cmds[..n])))
  {
    hide Reconciled, Run;
    var n := |cmds| - 1;
    assert cmds[..|cmds|] == cmds && cmds[..n][..n] == cmds[..n];
    forall k | 0 <= k <= n
      ensures cmds[..n][..k] == cmds[..k]
    {
    }
  }

  lemma LongerConforms(p: Policy, cmds: seq<Command>)
    requires cmds != []
    ensures var n := |cmds| - 1;
      AllConform(p, cmds) <==> AllConform(p, cmds[..n]) && Conforms(Run(EMPTY, p, cmds[..n]), p, cmds[n])
  {
    hide Conforms, Run;
    var n := |cmds| - 1;
    forall k | 0 <= k < n
      ensures cmds[..n][..k] == cmds[..k]
    {
    }
  }

  /** All five checks hold for every period after every command of a run, exactly when every command of the
      run conforms in the state it finds: when it would complete it meets its condition, and otherwise it would
      not stop behind a domain record. */
  lemma {:induction false} RunReconciles(p: Policy, cmds: seq<Command>)
    ensures AlwaysReconciled(p, cmds) <==> AllConform(p, cmds)
  {
    hide Linked, PlanOf, Exec, Reconciled, Conforms;
    if cmds == [] {
      NothingReconciled();
    } else {
      hide *;
      var n := |cmds| - 1;
      RunReconciles(p, cmds[..n]);
      RunLinked(p, cmds[..n]);
      RunUnfolds(p, cmds);
      LongerReconciled(p, cmds);
      LongerConforms(p, cmds);
      var b := Run(EMPTY, p, cmds[..n]);
      if Reconciled(b) {
        CommandConforms(b, p, cmds[n]);
      }
    }
  }
}
