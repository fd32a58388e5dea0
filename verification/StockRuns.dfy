/** Stock over whole runs: the stored running totals, stock that never goes negative, and values that stay
    non-negative while decreases are costed at the average. */
module StockRuns {
  import opened Books
  import opened Accounting
  import opened Inventory
  import opened Billing
  import opened Valuation
  import opened Writes
  import opened UseCases
  import opened Agreement
  import opened Runs
  import opened Stops

  /** `costed` says that the default policy holds and all decreases are costed at the average. */
  ghost predicate StockSound(ms: seq<Movement>, allowNegative: bool, costed: bool) {
    && RunningTotals(ms) && Valued(ms)
    && (!allowNegative ==> NeverNegative(ms))
    && (costed ==> Solvent(ms))
  }

  lemma MovementStaysSound(b: Books, allowNegative: bool, c: StockCommand, costed: bool)
    requires StockSound(b.movements, allowNegative, costed) && MovementPlan(b, allowNegative, c).Succeeds()
    requires costed ==> !allowNegative && CostedAtAverage(b.movements, c)
    ensures StockSound(b.movements + [MovementOf(b.movements, c)], allowNegative, costed)
  {
    MovementKeepsTotals(b.movements, c);
    MovementStaysValued(b.movements, c);
    hide Valued;
    if !allowNegative {
      EnoughStock(b, c);
      if costed {
        hide RunningTotals, NeverNegative, Solvent, MovementOf, CostedAtAverage;
        MovementKeepsSolvent(b, c);
      }
    }
  }

  lemma EnoughStock(b: Books, c: StockCommand)
    requires MovementPlan(b, false, c).Succeeds()
    ensures StockOnHand(b.movements, c.itemId) + c.quantityDelta >= 0
  {
    hide MovementSteps, HasMovement, CheckItem, ValidateStock, StockOnHand;
  }

  /** Accepted or not, a movement leaves the stock sound. */
  lemma AttemptStaysSound(b: Books, allowNegative: bool, c: StockCommand, costed: bool)
    requires StockSound(b.movements, allowNegative, costed)
    requires costed ==> !allowNegative && CostedAtAverage(b.movements, c)
    ensures StockSound(ApplyAll(b, MovementPlan(b, allowNegative, c).steps).movements, allowNegative, costed)
  {
    hide Written, MovementOf, RefuseMovement, Transaction, StockSound, CostedAtAverage, Apply;
    if MovementPlan(b, allowNegative, c).Succeeds() {
      MovementStaysSound(b, allowNegative, c, costed);
      MovementWrites(b, allowNegative, c);
      MovementsAfter(b, MovementPlan(b, allowNegative, c).steps);
    }
  }

  /** As far as the movements of an invoice get. */
  lemma {:induction false} SaleStaysSound(b: Books, allowNegative: bool, c: InvoiceCommand, i: nat, costed: bool)
    requires (costed ==> !allowNegative) && i <= |c.lines| && StockSound(b.movements, allowNegative, costed)
    ensures StockSound(ApplyAll(b, SaleMovements(b, allowNegative, c, i).steps).movements, allowNegative, costed)
    decreases |c.lines| - i
  {
    hide MovementPlan, StockSound, SaleMovementAt, AverageCost, CostedAtAverage, Apply;
    if i < |c.lines| {
      var first := MovementPlan(b, allowNegative, SaleMovement(b.movements, c, i));
      SaleIsAtAverage(b.movements, c, i);
      AttemptStaysSound(b, allowNegative, SaleMovement(b.movements, c, i), costed);
      if first.error.None? {
        var b1 := ApplyAll(b, first.steps);
        SaleStaysSound(b1, allowNegative, c, i + 1, costed);
        ApplyConcat(b, first.steps, SaleMovements(b1, allowNegative, c, i + 1).steps);
      }
    }
  }

  lemma SaleIsAtAverage(ms: seq<Movement>, c: InvoiceCommand, i: nat)
    requires i < |c.lines|
    ensures CostedAtAverage(ms, SaleMovement(ms, c, i))
  {
    hide AverageCost;
  }

  lemma {:induction false} ReturnStaysSound(b: Books, start: Books, allowNegative: bool, c: RefundCommand,
                                            i: nat, costed: bool)
    requires (costed ==> !allowNegative) && i <= |c.lines| && PositiveRequests(c)
      && StockSound(b.movements, allowNegative, costed)
    ensures StockSound(ApplyAll(b, RefundMovements(b, start, allowNegative, c, i).steps).movements, allowNegative, costed)
    decreases |c.lines| - i
  {
    hide MovementPlan, StockSound, RefundMovementAt, RestoredCost, CostedAtAverage, Apply;
    if i < |c.lines| && !c.lines[i].restock {
      ReturnStaysSound(b, start, allowNegative, c, i + 1, costed);
    } else if i < |c.lines| {
      var first := MovementPlan(b, allowNegative, RefundMovement(start, c, i));
      ReturnIncreases(b.movements, start, c, i);
      AttemptStaysSound(b, allowNegative, RefundMovement(start, c, i), costed);
      if first.error.None? {
        var b1 := ApplyAll(b, first.steps);
        ReturnStaysSound(b1, start, allowNegative, c, i + 1, costed);
        ApplyConcat(b, first.steps, RefundMovements(b1, start, allowNegative, c, i + 1).steps);
      }
    }
  }

  lemma ReturnIncreases(ms: seq<Movement>, start: Books, c: RefundCommand, i: nat)
    requires i < |c.lines| && PositiveRequests(c)
    ensures CostedAtAverage(ms, RefundMovement(start, c, i))
  {
    hide AverageCost, RestoredCost;
  }

  lemma InThree(b: Books, xs: seq<Step>, ys: seq<Step>, zs: seq<Step>)
    ensures ApplyAll(b, xs + ys + zs) == ApplyAll(ApplyAll(ApplyAll(b, xs), ys), zs)
  {
    hide Apply;
    ApplyConcat(b, xs + ys, zs);
    ApplyConcat(b, xs, ys);
  }

  lemma NoMoreMovements(b: Books, steps: seq<Step>)
    requires Written(steps).movements == []
    ensures ApplyAll(b, steps).movements == b.movements
  {
    hide Written, Apply;
    WritesAdd(b, steps);
  }

  lemma InvoiceStaysSound(b: Books, closed: set<string>, p: Policy, c: InvoiceCommand, costed: bool)
    requires StockSound(b.movements, p.allowNegativeStock, costed) && (costed ==> !p.allowNegativeStock)
    ensures StockSound(ApplyAll(b, InvoicePlan(b, closed, p, c).steps).movements, p.allowNegativeStock, costed)
  {
    hide InvoicePlan, JournalPlan, SaleMovements, SaleJournal, StockSound, SaleOp, Written, ApplyAll, RefuseInvoice,
      PositiveQuantities;
    var start := [WalStep(Pending(b.uuids, SaleOp(c)))];
    var posted, moved := SalePosting(b, closed, p, c), SaleMoves(b, closed, p, c);
    NoAppends(b);
    PendingOnly(b, SaleOp(c));
    JournalKeepsStock(SaleStart(b, c), closed, SaleJournal(p.taxRate, b.movements, c));
    SaleStaysSound(ApplyAll(SaleStart(b, c), posted.steps), p.allowNegativeStock, c, 0, costed);
    InThree(b, start, posted.steps, moved.steps);
    if InvoicePlan(b, closed, p, c).Succeeds() {
      var rest := InvoiceNests(b, closed, p, c);
      ApplyConcat(b, start + posted.steps + moved.steps, rest);
      NoMoreMovements(ApplyAll(b, start + posted.steps + moved.steps), rest);
    } else if InvoicePlan(b, closed, p, c).steps != [] {
      InvoiceStops(b, closed, p, c);
      assert start + [] == start && start + (posted.steps + moved.steps) == start + posted.steps + moved.steps;
    }
  }

  lemma RefundStaysSound(b: Books, closed: set<string>, p: Policy, c: RefundCommand, costed: bool)
    requires StockSound(b.movements, p.allowNegativeStock, costed) && (costed ==> !p.allowNegativeStock)
    ensures StockSound(ApplyAll(b, RefundPlan(b, closed, p, c).steps).movements, p.allowNegativeStock, costed)
  {
    hide RefundPlan, JournalPlan, RefundMovements, RefundJournal, StockSound, ReturnOp, Written, ApplyAll,
      RefuseRefund, PositiveRequests;
    NoAppends(b);
    if RefundPlan(b, closed, p, c).steps != [] {
      var start, posted := [WalStep(Pending(b.uuids, ReturnOp(c)))], ReturnPosting(b, closed, p, c);
      PendingOnly(b, ReturnOp(c));
      JournalKeepsStock(ReturnStart(b, c), closed, RefundJournal(p.taxRate, b, c));
      var rest: seq<Step> := [];
      if RefundPlan(b, closed, p, c).Succeeds() {
        rest := RefundNests(b, closed, p, c);
      } else {
        RefundStops(b, closed, p, c);
      }
      var moved := ReturnMoves(b, closed, p, c);
      ReturnStaysSound(ApplyAll(ReturnStart(b, c), posted.steps), b, p.allowNegativeStock, c, 0, costed);
      InThree(b, start, posted.steps, moved.steps);
      if RefundPlan(b, closed, p, c).Succeeds() {
        ApplyConcat(b, start + posted.steps + moved.steps, rest);
        NoMoreMovements(ApplyAll(b, start + posted.steps + moved.steps), rest);
      } else {
        assert start + [] == start && start + (posted.steps + moved.steps) == start + posted.steps + moved.steps;
      }
    }
  }

  lemma NoAppends(b: Books)
    ensures ApplyAll(b, []) == b
  {
  }

  lemma StockMoved(b: Books, closed: set<string>, allowNegative: bool, c: StockCommand)
    requires StockPlan(b, closed, allowNegative, c).Succeeds()
    ensures MovementPlan(b, allowNegative, c).Succeeds()
  {
    hide MovementPlan, MovementOf, JournalPlan;
  }

  lemma MoveStaysSound(b: Books, closed: set<string>, allowNegative: bool, c: StockCommand, costed: bool)
    requires StockSound(b.movements, allowNegative, costed)
    requires costed ==> !allowNegative && CostedAtAverage(b.movements, c)
    ensures StockSound(ApplyAll(b, StockPlan(b, closed, allowNegative, c).steps).movements, allowNegative, costed)
  {
    hide StockPlan, MovementPlan, StockSound, ApplyAll, Written, MovementOf, StockJournal, EntryOf, LedgerLines,
      CostedAtAverage;
    NoAppends(b);
    AttemptStaysSound(b, allowNegative, c, costed);
    if StockPlan(b, closed, allowNegative, c).Succeeds() {
      StockMoved(b, closed, allowNegative, c);
      MovementStaysSound(b, allowNegative, c, costed);
      StockWrites(b, closed, allowNegative, c);
      MovementsAfter(b, StockPlan(b, closed, allowNegative, c).steps);
    } else if StockPlan(b, closed, allowNegative, c).steps != [] {
      MoveStops(b, closed, allowNegative, c);
    }
  }

  /** Whatever the command, and whether it completes, is refused or stops half way. */
  lemma CommandStaysSound(b: Books, p: Policy, cmd: Command, costed: bool)
    requires StockSound(b.movements, p.allowNegativeStock, costed)
    requires costed ==> !p.allowNegativeStock && (cmd.Move? ==> CostedAtAverage(b.movements, cmd.movement))
    ensures StockSound(Exec(b, p, cmd).movements, p.allowNegativeStock, costed)
  {
    hide Written, RegisterPlan, StockPlan, JournalPlan, InvoicePlan, RefundPlan, CloseUsePlan, ClosedPeriods,
      StockSound, EntryOf, LedgerLines, CostedAtAverage, ApplyAll;
    var closed := ClosedPeriods(b);
    NoAppends(b);
    match cmd {
      case Move(c) => MoveStaysSound(b, closed, p.allowNegativeStock, c, costed);
      case Sell(c) => InvoiceStaysSound(b, closed, p, c, costed);
      case Return(c) => RefundStaysSound(b, closed, p, c, costed);
      case Post(c) => JournalKeepsStock(b, closed, c);
      case Register(item) => OtherMovesNothing(b, p, cmd);
      case Close(periodId) => OtherMovesNothing(b, p, cmd);
    }
  }

  lemma OtherMovesNothing(b: Books, p: Policy, cmd: Command)
    requires cmd.Register? || cmd.Close?
    ensures Exec(b, p, cmd).movements == b.movements
  {
    hide Written, RegisterPlan, CloseUsePlan, ClosedPeriods, ApplyAll;
    NoAppends(b);
    if PlanOf(b, p, cmd).Succeeds() {
      MovementsAfter(b, PlanOf(b, p, cmd).steps);
      match cmd {
        case Register(item) => RegisterWrites(b, item);
        case Close(periodId) => CloseUseWrites(b, periodId);
      }
    } else {
      OthersRefuse(b, p, cmd);
    }
  }

  /** Every stock decrease made by hand is costed at the average it finds. */
  ghost predicate AllAtAverage(p: Policy, cmds: seq<Command>) {
    forall k :: 0 <= k < |cmds| && cmds[k].Move? ==> CostedAtAverage(Run(EMPTY, p, cmds[..k]).movements, cmds[k].movement)
  }

  /** Along every run every movement's stored quantity and value are the sums over its item so far, under
      the default policy no stock is ever negative, and if decreases are also costed at the average no
      quantity or value of any item is. */
  lemma {:induction false} RunStaysSound(p: Policy, cmds: seq<Command>, costed: bool)
    requires costed ==> !p.allowNegativeStock && AllAtAverage(p, cmds)
    ensures StockSound(Run(EMPTY, p, cmds).movements, p.allowNegativeStock, costed)
  {
    hide *;
    if cmds == [] {
      NothingSound(p, cmds, costed);
    } else {
      var n := |cmds| - 1;
      if costed {
        AveragePrefix(p, cmds);
      }
      RunStaysSound(p, cmds[..n], costed);
      RunUnfolds(p, cmds);
      CommandStaysSound(Run(EMPTY, p, cmds[..n]), p, cmds[n], costed);
    }
  }

  /** So under the default policy no stock is ever negative. */
  lemma RunNeverNegative(p: Policy, cmds: seq<Command>, itemId: string)
    requires !p.allowNegativeStock
    ensures StockOnHand(Run(EMPTY, p, cmds).movements, itemId) >= 0
  {
    hide Run, StockOnHand;
    RunStaysSound(p, cmds, false);
    StockIsLastTotal(Run(EMPTY, p, cmds).movements, itemId);
  }

  lemma NothingSound(p: Policy, cmds: seq<Command>, costed: bool)
    ensures cmds == [] ==> StockSound(Run(EMPTY, p, cmds).movements, p.allowNegativeStock, costed)
  {
  }

  lemma AveragePrefix(p: Policy, cmds: seq<Command>)
    requires AllAtAverage(p, cmds) && cmds != []
    ensures var n := |cmds| - 1;
      && AllAtAverage(p, cmds[..n])
      && (cmds[n].Move? ==> CostedAtAverage(Run(EMPTY, p, cmds[..n]).movements, cmds[n].movement))
  {
    hide Run, CostedAtAverage;
    var n := |cmds| - 1;
    forall k | 0 <= k < n
      ensures cmds[..n][..k] == cmds[..k]
    {
    }
  }

  /** So every movement of every run moves the average of its item as it should. */
  lemma RunMovesAverages(p: Policy, cmds: seq<Command>, i: nat)
    requires i < |Run(EMPTY, p, cmds).movements|
    ensures var ms := Run(EMPTY, p, cmds).movements; MovesAverage(ms[..i], ms[i])
  {
    hide Run, MovesAverage, RunningTotals;
    RunStaysSound(p, cmds, false);
    var ms := Run(EMPTY, p, cmds).movements;
    ValuedMovesAverage(ms[..i], ms[i]);
  }
}
