/** A command that stops with nothing but its announcement written, and is then repeated under the same id. */
module Retries {
  import opened Books
  import opened Accounting
  import opened Inventory
  import opened Billing
  import opened Writes
  import opened Runs
  import opened Recovery
  import opened Crash
  import opened CrashRuns
  import opened Outcomes
  import opened ManualRecovery
  import opened RecoveryRuns
  import opened CleanLog

  lemma {:induction false} BlockStays(b: Books, es: seq<RecoveryEvent>, r: WalRecord)
    requires KnownIds(b) && Blocks(b, r) && Unattended(es)
    ensures var x := RecoveryRun(b, es); KnownIds(x) && Blocks(x, r)
  {
    hide KnownIds, Blocks, AfterRecovery;
    if es != [] {
      var n := |es| - 1;
      BlockStays(b, es[..n], r);
      EventKeepsIds(RecoveryRun(b, es[..n]), es[n]);
      EventKeepsBlock(RecoveryRun(b, es[..n]), es[n], r);
    }
  }

  /** Once an uncommitted announcement shows in the files, no later work and no restart makes the store
      healthy again: automatic recovery refuses for ever and changes nothing. */
  lemma BlockedForever(b: Books, es: seq<RecoveryEvent>, r: WalRecord, missing: bool)
    requires KnownIds(b) && Blocks(b, r) && Unattended(es)
    ensures var x := RecoveryRun(b, es);
      HealthOf(x, missing) != Healthy && RecoverOf(x, missing).error.Some? && RecoverOf(x, missing).books == x
  {
    BlockStays(b, es, r);
    hide KnownIds, Blocks, RecoveryRun, AnyUnsafe, PendingOf, KeptOf, TidsOf;
    var x := RecoveryRun(b, es);
    BlockedIsUnsafe(x, r);
    UnsafeIsPending(x);
  }

  lemma UnsafeIsPending(b: Books)
    requires AnyUnsafe(b, PendingOf(b.wal))
    ensures PendingOf(b.wal) != []
  {
    hide PendingOf, Unsafe;
  }

  // ---------------------------------------------------------------- the announcement of a stopped command

  /** A log id that is taken and not committed. */
  ghost predicate Uncommitted(b: Books, tid: Tid) { KnownIds(b) && tid < b.uuids && Committed(tid) !in b.wal }

  lemma {:induction false} StaysUncommitted(b: Books, es: seq<RecoveryEvent>, tid: Tid)
    requires Uncommitted(b, tid) && Unattended(es)
    ensures Uncommitted(RecoveryRun(b, es), tid)
  {
    hide Uncommitted, AfterRecovery;
    if es != [] {
      StaysUncommitted(b, es[..|es| - 1], tid);
      EventUncommitted(RecoveryRun(b, es[..|es| - 1]), es[|es| - 1], tid);
    }
  }

  lemma EventUncommitted(b: Books, e: RecoveryEvent, tid: Tid)
    requires Uncommitted(b, tid) && (e.Working? || e.Recovering?)
    ensures Uncommitted(AfterRecovery(b, e), tid)
  {
    EventKeepsIds(b, e);
    hide KnownIds, StepsOf, RecoverOf, Stops.Ordinary, ApplyAll, Written;
    if e.Recovering? {
      RecoveryOnlyDropsPending(b, e.missing);
      KeptAreOld(b.wal);
    } else {
      WorkIsOrdinary(b, e);
      UuidsGrow(b, StepsOf(b, e));
      Stops.OrdinaryWrites(StepsOf(b, e), b.uuids);
      WritesAdd(b, StepsOf(b, e));
    }
  }

  lemma StoppedUncommitted(b: Books, p: Policy, cmd: Command)
    requires KnownIds(b) && (cmd.Sell? || cmd.Return?) && PlanOf(b, p, cmd).error.Some? && PlanOf(b, p, cmd).steps != []
    ensures Uncommitted(Exec(b, p, cmd), b.uuids) && Pending(b.uuids, OpOf(cmd)) in Exec(b, p, cmd).wal
  {
    hide InvoicePlan, RefundPlan, ClosedPeriods, Open, KnownIds, ApplyAll, Written;
    var steps := PlanOf(b, p, cmd).steps;
    match cmd {
      case Sell(c) => SellOpen(b, ClosedPeriods(b), p, c);
      case Return(c) => ReturnOpen(b, ClosedPeriods(b), p, c);
    }
    StoppedAnnounces(b, p, cmd);
    hide *;
    assert steps[..|steps|] == steps;
    OpenWrites(steps, b.uuids);
    AnnouncedFirst(steps, b.uuids, OpOf(cmd), |steps|);
    KnownIdsStay(b, steps);
    NotCommittedAfter(b, steps, OpOf(cmd));
    ExecIs(b, p, cmd);
  }

  lemma NotCommittedAfter(b: Books, steps: seq<Step>, op: Operation)
    requires KnownIds(b) && KnownIds(ApplyAll(b, steps))
    requires Committed(b.uuids) !in Written(steps).wal && Pending(b.uuids, op) in Written(steps).wal
    ensures Uncommitted(ApplyAll(b, steps), b.uuids) && Pending(b.uuids, op) in ApplyAll(b, steps).wal
  {
    hide Written;
    WritesAdd(b, steps);
  }

  lemma StoppedAnnounces(b: Books, p: Policy, cmd: Command)
    requires (cmd.Sell? || cmd.Return?) && PlanOf(b, p, cmd).error.Some? && PlanOf(b, p, cmd).steps != []
    ensures PlanOf(b, p, cmd).steps[0] == WalStep(Pending(b.uuids, OpOf(cmd)))
  {
    hide InvoicePlan, RefundPlan, ClosedPeriods, JournalPlan, SaleMovements, RefundMovements, SaleOp, ReturnOp,
      ApplyAll;
    match cmd {
      case Sell(c) => Stops.InvoiceStops(b, ClosedPeriods(b), p, c);
      case Return(c) => Stops.RefundStops(b, ClosedPeriods(b), p, c);
    }
  }

  // ---------------------------------------------------------------- the same id again

  /** An invoice that stops; then commands and restarts, none of which drops its announcement; then an invoice
      under the same id that completes: from then on automatic recovery refuses for ever. */
  lemma RetriedInvoiceBlocks(b: Books, p: Policy, c: InvoiceCommand, between: seq<RecoveryEvent>, q: Policy,
                             again: InvoiceCommand, later: seq<RecoveryEvent>, missing: bool)
    requires KnownIds(b) && Unattended(between) && Unattended(later)
    requires PlanOf(b, p, Sell(c)).error.Some? && PlanOf(b, p, Sell(c)).steps != []
    requires Pending(b.uuids, SaleOp(c)) in RecoveryRun(Exec(b, p, Sell(c)), between).wal
    requires again.invoiceId == c.invoiceId && PlanOf(RecoveryRun(Exec(b, p, Sell(c)), between), q, Sell(again)).Succeeds()
    ensures var x := RecoveryRun(Exec(RecoveryRun(Exec(b, p, Sell(c)), between), q, Sell(again)), later);
      HealthOf(x, missing) != Healthy && RecoverOf(x, missing).error.Some? && RecoverOf(x, missing).books == x
  {
    var waiting := RecoveryRun(Exec(b, p, Sell(c)), between);
    hide *;
    StoppedUncommitted(b, p, Sell(c));
    StaysUncommitted(Exec(b, p, Sell(c)), between, b.uuids);
    CompletedInvoiceShows(waiting, q, again, c);
    CompletedBlocks(waiting, q, Sell(again), b.uuids, SaleOp(c));
    BlockedForever(Exec(waiting, q, Sell(again)), later, Pending(b.uuids, SaleOp(c)), missing);
  }

  lemma RetriedRefundBlocks(b: Books, p: Policy, c: RefundCommand, between: seq<RecoveryEvent>, q: Policy,
                            again: RefundCommand, later: seq<RecoveryEvent>, missing: bool)
    requires KnownIds(b) && Unattended(between) && Unattended(later)
    requires PlanOf(b, p, Return(c)).error.Some? && PlanOf(b, p, Return(c)).steps != []
    requires Pending(b.uuids, ReturnOp(c)) in RecoveryRun(Exec(b, p, Return(c)), between).wal
    requires again.refundId == c.refundId && PlanOf(RecoveryRun(Exec(b, p, Return(c)), between), q, Return(again)).Succeeds()
    ensures var x := RecoveryRun(Exec(RecoveryRun(Exec(b, p, Return(c)), between), q, Return(again)), later);
      HealthOf(x, missing) != Healthy && RecoverOf(x, missing).error.Some? && RecoverOf(x, missing).books == x
  {
    var waiting := RecoveryRun(Exec(b, p, Return(c)), between);
    hide *;
    StoppedUncommitted(b, p, Return(c));
    StaysUncommitted(Exec(b, p, Return(c)), between, b.uuids);
    CompletedRefundShows(waiting, q, again, c);
    CompletedBlocks(waiting, q, Return(again), b.uuids, ReturnOp(c));
    BlockedForever(Exec(waiting, q, Return(again)), later, Pending(b.uuids, ReturnOp(c)), missing);
  }

  lemma CompletedBlocks(b: Books, p: Policy, cmd: Command, tid: Tid, op: Operation)
    requires Uncommitted(b, tid) && Pending(tid, op) in b.wal && SideEffects(Written(PlanOf(b, p, cmd).steps), op) != []
    ensures KnownIds(Exec(b, p, cmd)) && Blocks(Exec(b, p, cmd), Pending(tid, op))
  {
    hide PlanOf, Written, Stops.Ordinary, SideEffects;
    var steps := PlanOf(b, p, cmd).steps;
    ExecIs(b, p, cmd);
    KnownIdsStay(b, steps);
    Stops.CommandOrdinary(b, p, cmd);
    Stops.OrdinaryWrites(steps, b.uuids);
    WritesAdd(b, steps);
    EffectsGrow(b, Written(steps), op);
  }

  lemma CompletedInvoiceShows(b: Books, p: Policy, again: InvoiceCommand, c: InvoiceCommand)
    requires PlanOf(b, p, Sell(again)).Succeeds() && again.invoiceId == c.invoiceId
    ensures SideEffects(Written(PlanOf(b, p, Sell(again)).steps), SaleOp(c)) != []
  {
    hide InvoicePlan, Written, ClosedPeriods, SoldMovements, InvoiceLines, SaleJournal, EntryOf, LedgerLines,
      PositiveQuantities, Tax, SaleMovementIds, JournalEffects, MovementEffects, HasInvoiceLines;
    InvoiceWrites(b, ClosedPeriods(b), p, again);
    var d := Written(PlanOf(b, p, Sell(again)).steps);
    SameFiles(d);
    assert d.invoices[0].invoiceId == c.invoiceId;
  }

  lemma CompletedRefundShows(b: Books, p: Policy, again: RefundCommand, c: RefundCommand)
    requires PlanOf(b, p, Return(again)).Succeeds() && again.refundId == c.refundId
    ensures SideEffects(Written(PlanOf(b, p, Return(again)).steps), ReturnOp(c)) != []
  {
    hide RefundPlan, Written, ClosedPeriods, RestockedMovements, RefundLines, RefundJournal, EntryOf, LedgerLines,
      PositiveRequests, Tax, RefundMovementIds, JournalEffects, MovementEffects, HasRefundLines, RestoredCosts;
    RefundWrites(b, ClosedPeriods(b), p, again);
    var d := Written(PlanOf(b, p, Return(again)).steps);
    SameFiles(d);
    assert d.refunds[0].refundId == c.refundId;
  }

  /** The case of an invoice that sells for nothing: accepted, it stops behind its announcement, and the
      same id sold for something right afterwards completes and blocks automatic recovery for ever. */
  lemma UnpricedInvoiceRetried(b: Books, p: Policy, c: InvoiceCommand, again: InvoiceCommand, later: seq<RecoveryEvent>, missing: bool)
    requires KnownIds(b) && Unattended(later)
    requires RefuseInvoice(b, ClosedPeriods(b), p.taxRate, c).None? && Subtotal(c) == 0
    requires again.invoiceId == c.invoiceId && Completes(b, p, Sell(again))
    ensures var x := RecoveryRun(Exec(Exec(b, p, Sell(c)), p, Sell(again)), later);
      HealthOf(x, missing) != Healthy && RecoverOf(x, missing).error.Some? && RecoverOf(x, missing).books == x
  {
    UnpricedStops(b, p, c);
    StoppedUncommitted(b, p, Sell(c));
    hide *;
    var stopped := Exec(b, p, Sell(c));
    NothingYet(stopped);
    SaleIs(c);
    ExecIs(b, p, Sell(c));
    NothingAdded(b, PlanOf(b, p, Sell(c)).steps);
    CompletesExactly(b, p, Sell(again));
    CommandSees(b, stopped, p, Sell(again));
    SameEnd(PlanOf(b, p, Sell(again)), PlanOf(stopped, p, Sell(again)));
    RetriedInvoiceBlocks(b, p, c, [], p, again, later, missing);
  }

  lemma UnpricedStops(b: Books, p: Policy, c: InvoiceCommand)
    requires RefuseInvoice(b, ClosedPeriods(b), p.taxRate, c).None? && Subtotal(c) == 0
    ensures var plan := PlanOf(b, p, Sell(c)); plan.error.Some? && plan.steps != [] && Domain(Written(plan.steps)) == EMPTY
  {
    hide RefuseInvoice, InvoicePlan, ClosedPeriods, Subtotal, Written, Domain, HasJournal, HasMovement, AverageCost;
    CompletesExactly(b, p, Sell(c));
    StrandsExactly(b, p, Sell(c));
    SaleRefused(b, ClosedPeriods(b), p, c);
  }

  lemma SaleIs(c: InvoiceCommand)
    ensures OpOf(Sell(c)) == SaleOp(c)
  {
    hide SaleOp;
  }

  lemma NothingYet(b: Books)
    ensures RecoveryRun(b, []) == b && Unattended([])
  {
  }
}
