/** Commands that stop half way: what they have appended by then. */
module Stops {
  import opened Books
  import opened Accounting
  import opened Inventory
  import opened Billing
  import opened Writes
  import opened Reconciliation
  import opened UseCases
  import opened Runs

  // ---------------------------------------------------------------- the appends of a stopped command

  function SaleStart(b: Books, c: InvoiceCommand): Books { ApplyAll(b, [WalStep(Pending(b.uuids, SaleOp(c)))]) }

  function ReturnStart(b: Books, c: RefundCommand): Books { ApplyAll(b, [WalStep(Pending(b.uuids, ReturnOp(c)))]) }

  function SalePosting(b: Books, closed: set<string>, p: Policy, c: InvoiceCommand): Plan {
    JournalPlan(SaleStart(b, c), closed, SaleJournal(p.taxRate, b.movements, c))
  }

  function ReturnPosting(b: Books, closed: set<string>, p: Policy, c: RefundCommand): Plan {
    JournalPlan(ReturnStart(b, c), closed, RefundJournal(p.taxRate, b, c))
  }

  /** The nested movements run behind the announcement and the journal. */
  function SaleMoves(b: Books, closed: set<string>, p: Policy, c: InvoiceCommand): Plan {
    SaleMovements(ApplyAll(SaleStart(b, c), SalePosting(b, closed, p, c).steps), p.allowNegativeStock, c, 0)
  }

  function ReturnMoves(b: Books, closed: set<string>, p: Policy, c: RefundCommand): Plan
    requires PositiveRequests(c)
  {
    RefundMovements(ApplyAll(ReturnStart(b, c), ReturnPosting(b, closed, p, c).steps), b, p.allowNegativeStock, c, 0)
  }

  lemma RefusedPosting(b: Books, closed: set<string>, c: PostCommand)
    requires JournalPlan(b, closed, c).error.Some?
    ensures JournalPlan(b, closed, c).steps == []
  {
    hide RefuseJournal, Transaction, JournalBody;
  }

  /** Posting a journal touches neither the movements nor the items. */
  lemma JournalKeepsStock(b: Books, closed: set<string>, c: PostCommand)
    ensures var r := ApplyAll(b, JournalPlan(b, closed, c).steps); r.movements == b.movements && r.items == b.items
  {
    if JournalPlan(b, closed, c).Succeeds() {
      JournalWrites(b, closed, c);
      hide JournalPlan, Written, ApplyAll, EntryOf, LedgerLines;
      MovementsAfter(b, JournalPlan(b, closed, c).steps);
    } else {
      RefusedPosting(b, closed, c);
    }
  }

  /** No reconciliation record, and log records with ids from `lo` on only. */
  predicate Ordinary(steps: seq<Step>, lo: nat) { forall i :: 0 <= i < |steps| ==> OrdinaryStep(steps[i], lo) }

  predicate OrdinaryStep(s: Step, lo: nat) { !s.ReconciliationStep? && (s.WalStep? ==> s.wal.tid >= lo) }

  /** An invoice that stops has announced itself, and its journal was refused or one of its movements was. */
  lemma InvoiceStops(b: Books, closed: set<string>, p: Policy, c: InvoiceCommand)
    requires InvoicePlan(b, closed, p, c).error.Some? && InvoicePlan(b, closed, p, c).steps != []
    ensures RefuseInvoice(b, closed, p.taxRate, c).None? && PositiveQuantities(c)
    ensures var posted, moved := SalePosting(b, closed, p, c), SaleMoves(b, closed, p, c);
      InvoicePlan(b, closed, p, c).steps == [WalStep(Pending(b.uuids, SaleOp(c)))]
        + (if posted.error.Some? then [] else posted.steps + moved.steps)
      && (posted.error.Some? || moved.error.Some?)
  {
    RefusedOrPositive(b, closed, p.taxRate, c);
    hide RefuseInvoice, JournalPlan, SaleMovements, SaleJournal, InvoiceLines, InvoiceOf, Transaction, ApplyAll,
      SaleOp, PositiveQuantities;
    if SalePosting(b, closed, p, c).error.Some? {
      RefusedPosting(SaleStart(b, c), closed, SaleJournal(p.taxRate, b.movements, c));
    }
  }

  lemma RefundStops(b: Books, closed: set<string>, p: Policy, c: RefundCommand)
    requires RefundPlan(b, closed, p, c).error.Some? && RefundPlan(b, closed, p, c).steps != []
    ensures RefuseRefund(b, closed, p.taxRate, c).None? && PositiveRequests(c)
    ensures var posted, moved := ReturnPosting(b, closed, p, c), ReturnMoves(b, closed, p, c);
      RefundPlan(b, closed, p, c).steps == [WalStep(Pending(b.uuids, ReturnOp(c)))]
        + (if posted.error.Some? then [] else posted.steps + moved.steps)
      && (posted.error.Some? || moved.error.Some?)
  {
    RefusedOrPositiveRequests(b, closed, p.taxRate, c);
    hide RefuseRefund, JournalPlan, RefundMovements, RefundJournal, RefundLines, RefundOf, Transaction, ApplyAll,
      ReturnOp, PositiveRequests;
    if ReturnPosting(b, closed, p, c).error.Some? {
      RefusedPosting(ReturnStart(b, c), closed, RefundJournal(p.taxRate, b, c));
    }
  }

  /** One that completes has also written its own records, and committed. */
  lemma InvoiceNests(b: Books, closed: set<string>, p: Policy, c: InvoiceCommand) returns (rest: seq<Step>)
    requires InvoicePlan(b, closed, p, c).Succeeds()
    ensures SalePosting(b, closed, p, c).Succeeds() && SaleMoves(b, closed, p, c).Succeeds()
    ensures InvoicePlan(b, closed, p, c).steps == [WalStep(Pending(b.uuids, SaleOp(c)))]
      + SalePosting(b, closed, p, c).steps + SaleMoves(b, closed, p, c).steps + rest
    ensures Written(rest).movements == [] && Ordinary(rest, b.uuids)
    ensures rest != [] && forall i :: 0 <= i < |rest| - 1 ==> !rest[i].WalStep?
  {
    RefusedOrPositive(b, closed, p.taxRate, c);
    hide RefuseInvoice, JournalPlan, SaleMovements, SaleJournal, InvoiceLines, InvoiceOf, ApplyAll, SaleOp,
      PositiveQuantities, Written;
    var x, ls := [InvoiceStep(InvoiceOf(p.taxRate, c))], InvoiceLineSteps(InvoiceLines(b, c));
    var last := [AuditStep("billing.invoice_created"), EventStep("billing.sale_completed.v1"), WalStep(Committed(b.uuids))];
    rest := x + ls + last;
    InvoiceWritten(InvoiceOf(p.taxRate, c));
    InvoiceLinesWritten(InvoiceLines(b, c));
    WrittenEnd("billing.invoice_created", "billing.sale_completed.v1", b.uuids);
    WrittenConcat(x, ls);
    WrittenConcat(x + ls, last);
  }

  lemma RefundNests(b: Books, closed: set<string>, p: Policy, c: RefundCommand) returns (rest: seq<Step>)
    requires RefundPlan(b, closed, p, c).Succeeds()
    ensures PositiveRequests(c) && ReturnPosting(b, closed, p, c).Succeeds() && ReturnMoves(b, closed, p, c).Succeeds()
    ensures RefundPlan(b, closed, p, c).steps == [WalStep(Pending(b.uuids, ReturnOp(c)))]
      + ReturnPosting(b, closed, p, c).steps + ReturnMoves(b, closed, p, c).steps + rest
    ensures Written(rest).movements == [] && Ordinary(rest, b.uuids)
    ensures rest != [] && forall i :: 0 <= i < |rest| - 1 ==> !rest[i].WalStep?
  {
    RefusedOrPositiveRequests(b, closed, p.taxRate, c);
    hide RefuseRefund, JournalPlan, RefundMovements, RefundJournal, RefundLines, RefundOf, ApplyAll, ReturnOp,
      PositiveRequests, Written;
    var x, ls := [RefundStep(RefundOf(p.taxRate, b, c))], RefundLineSteps(RefundLines(b, c));
    var last := [AuditStep("billing.refund_created"), EventStep("billing.refund_completed.v1"), WalStep(Committed(b.uuids))];
    rest := x + ls + last;
    RefundWritten(RefundOf(p.taxRate, b, c));
    RefundLinesWritten(RefundLines(b, c));
    WrittenEnd("billing.refund_created", "billing.refund_completed.v1", b.uuids);
    WrittenConcat(x, ls);
    WrittenConcat(x + ls, last);
  }

  /** A stock move that stops has moved the stock; its journal was refused. */
  lemma MoveStops(b: Books, closed: set<string>, allowNegative: bool, c: StockCommand)
    requires StockPlan(b, closed, allowNegative, c).error.Some? && StockPlan(b, closed, allowNegative, c).steps != []
    ensures MovementPlan(b, allowNegative, c).Succeeds()
    ensures StockPlan(b, closed, allowNegative, c).steps == MovementPlan(b, allowNegative, c).steps
  {
    hide MovementOf, RefuseMovement, MovementSteps, JournalPlan, StockJournal;
    var period := UsePeriod(c).value;
    var b1 := ApplyAll(b, MovementPlan(b, allowNegative, c).steps);
    RefusedPosting(b1, closed, StockJournal(c, period, MovementOf(b.movements, c).valueDelta));
  }

  /** The other commands write nothing when they fail. */
  lemma OthersRefuse(b: Books, p: Policy, cmd: Command)
    requires PlanOf(b, p, cmd).error.Some? && (cmd.Register? || cmd.Post? || cmd.Close?)
    ensures PlanOf(b, p, cmd).steps == []
  {
    hide RefuseItem, RefuseJournal, Transaction, JournalBody, ClosedPeriods, ReportOf, LedgerReadable;
  }

  // ---------------------------------------------------------------- no documents

  /** Neither invoices nor refunds, nor lines of them. */
  predicate NoDocuments(d: Books) { d.invoices == [] && d.invoiceLines == [] && d.refunds == [] && d.refundLines == [] }

  lemma NoDocumentsConcat(xs: seq<Step>, ys: seq<Step>)
    requires NoDocuments(Written(xs)) && NoDocuments(Written(ys))
    ensures NoDocuments(Written(xs + ys))
  {
    hide Written;
    WrittenConcat(xs, ys);
  }

  lemma NoDocumentsOfNothing()
    ensures NoDocuments(Written([]))
  {
  }

  lemma AnnouncementQuiet(tid: Tid, op: Operation)
    ensures NoDocuments(Written([WalStep(Pending(tid, op))]))
  {
    ApplyOne(EMPTY, WalStep(Pending(tid, op)));
  }

  lemma JournalQuiet(b: Books, closed: set<string>, c: PostCommand)
    ensures NoDocuments(Written(JournalPlan(b, closed, c).steps))
  {
    if JournalPlan(b, closed, c).Succeeds() {
      JournalWrites(b, closed, c);
      hide JournalPlan, Written, EntryOf, LedgerLines;
      SameFiles(Written(JournalPlan(b, closed, c).steps));
    } else {
      RefusedPosting(b, closed, c);
    }
  }

  /** Nothing but stock movements in the domain files that the checks look at. */
  predicate StockOnly(d: Books) { NoDocuments(d) && d.entries == [] && d.lines == [] }

  lemma StockOnlyConcat(xs: seq<Step>, ys: seq<Step>)
    requires StockOnly(Written(xs)) && StockOnly(Written(ys))
    ensures StockOnly(Written(xs + ys))
  {
    hide Written;
    WrittenConcat(xs, ys);
  }

  lemma NothingStockOnly()
    ensures StockOnly(Written([]))
  {
  }

  lemma MovementQuiet(b: Books, allowNegative: bool, c: StockCommand)
    ensures StockOnly(Written(MovementPlan(b, allowNegative, c).steps))
  {
    if MovementPlan(b, allowNegative, c).Succeeds() {
      MovementWrites(b, allowNegative, c);
      hide MovementPlan, Written, MovementOf;
      SameFiles(Written(MovementPlan(b, allowNegative, c).steps));
    } else {
      hide RefuseMovement;
    }
  }

  lemma {:induction false} SaleMovementsQuiet(b: Books, allowNegative: bool, c: InvoiceCommand, i: nat)
    requires i <= |c.lines|
    ensures StockOnly(Written(SaleMovements(b, allowNegative, c, i).steps))
    decreases |c.lines| - i
  {
    hide MovementPlan, SaleMovement, StockOnly, Written, ApplyAll;
    NothingStockOnly();
    if i < |c.lines| {
      var first := MovementPlan(b, allowNegative, SaleMovement(b.movements, c, i));
      MovementQuiet(b, allowNegative, SaleMovement(b.movements, c, i));
      if first.error.None? {
        var b1 := ApplyAll(b, first.steps);
        SaleMovementsQuiet(b1, allowNegative, c, i + 1);
        StockOnlyConcat(first.steps, SaleMovements(b1, allowNegative, c, i + 1).steps);
      }
    }
  }

  lemma {:induction false} RefundMovementsQuiet(b: Books, start: Books, allowNegative: bool, c: RefundCommand, i: nat)
    requires i <= |c.lines| && PositiveRequests(c)
    ensures StockOnly(Written(RefundMovements(b, start, allowNegative, c, i).steps))
    decreases |c.lines| - i
  {
    hide MovementPlan, RefundMovement, StockOnly, Written, ApplyAll;
    NothingStockOnly();
    if i < |c.lines| && !c.lines[i].restock {
      RefundMovementsQuiet(b, start, allowNegative, c, i + 1);
    } else if i < |c.lines| {
      var first := MovementPlan(b, allowNegative, RefundMovement(start, c, i));
      MovementQuiet(b, allowNegative, RefundMovement(start, c, i));
      if first.error.None? {
        var b1 := ApplyAll(b, first.steps);
        RefundMovementsQuiet(b1, start, allowNegative, c, i + 1);
        StockOnlyConcat(first.steps, RefundMovements(b1, start, allowNegative, c, i + 1).steps);
      }
    }
  }

  /** An invoice or refund whose command stops has written neither itself nor any of its lines. */
  lemma StoppedQuiet(b: Books, p: Policy, cmd: Command)
    requires PlanOf(b, p, cmd).error.Some?
    ensures NoDocuments(Written(PlanOf(b, p, cmd).steps))
  {
    hide NoDocuments, Written, ClosedPeriods, RegisterPlan, StockPlan, JournalPlan, InvoicePlan, RefundPlan,
      CloseUsePlan, ApplyAll, SaleMovements, RefundMovements, PositiveRequests, SaleOp, ReturnOp;
    NoDocumentsOfNothing();
    var closed := ClosedPeriods(b);
    if PlanOf(b, p, cmd).steps != [] {
      match cmd {
        case Move(c) =>
          MoveStops(b, closed, p.allowNegativeStock, c);
          MovementQuiet(b, p.allowNegativeStock, c);
        case Sell(c) =>
          InvoiceStops(b, closed, p, c);
          AnnouncementQuiet(b.uuids, SaleOp(c));
          var posted, moved := SalePosting(b, closed, p, c), SaleMoves(b, closed, p, c);
          JournalQuiet(SaleStart(b, c), closed, SaleJournal(p.taxRate, b.movements, c));
          SaleMovementsQuiet(ApplyAll(SaleStart(b, c), posted.steps), p.allowNegativeStock, c, 0);
          NoDocumentsConcat(posted.steps, moved.steps);
          NoDocumentsConcat([WalStep(Pending(b.uuids, SaleOp(c)))], if posted.error.Some? then [] else posted.steps + moved.steps);
        case Return(c) =>
          RefundStops(b, closed, p, c);
          AnnouncementQuiet(b.uuids, ReturnOp(c));
          var posted, moved := ReturnPosting(b, closed, p, c), ReturnMoves(b, closed, p, c);
          JournalQuiet(ReturnStart(b, c), closed, RefundJournal(p.taxRate, b, c));
          RefundMovementsQuiet(ApplyAll(ReturnStart(b, c), posted.steps), b, p.allowNegativeStock, c, 0);
          NoDocumentsConcat(posted.steps, moved.steps);
          NoDocumentsConcat([WalStep(Pending(b.uuids, ReturnOp(c)))], if posted.error.Some? then [] else posted.steps + moved.steps);
        case _ => OthersRefuse(b, p, cmd);
      }
    }
  }

  // ---------------------------------------------------------------- new log ids only

  lemma OrdinaryConcat(xs: seq<Step>, ys: seq<Step>, lo: nat, next: nat)
    requires Ordinary(xs, lo) && Ordinary(ys, next) && lo <= next
    ensures Ordinary(xs + ys, lo)
  {
  }

  lemma TransactionOrdinary(tid: Tid, op: Operation, body: seq<Step>, action: string, event: string, lo: nat)
    requires Ordinary(body, lo) && lo <= tid
    ensures Ordinary(Transaction(tid, op, body, action, event), lo)
  {
  }

  lemma JournalOrdinary(b: Books, closed: set<string>, c: PostCommand)
    ensures Ordinary(JournalPlan(b, closed, c).steps, b.uuids)
  {
    hide RefuseJournal, EntryOf, Transaction, Ordinary;
    if JournalPlan(b, closed, c).Succeeds() {
      JournalWrites(b, closed, c);
      JournalBodyOrdinary(c, b.uuids);
      TransactionOrdinary(b.uuids, PostJournalOp(c.journalId), JournalBody(c),
                          "accounting.journal_posted", "accounting.journal_posted.v1", b.uuids);
    } else {
      NothingOrdinary(b.uuids);
    }
  }

  lemma JournalBodyOrdinary(c: PostCommand, lo: nat)
    requires c.lines != []
    ensures Ordinary(JournalBody(c), lo)
  {
    hide EntryOf, LedgerLines;
  }

  lemma NothingOrdinary(lo: nat)
    ensures Ordinary([], lo)
  {
  }

  lemma MovementOrdinary(b: Books, allowNegative: bool, c: StockCommand)
    ensures Ordinary(MovementPlan(b, allowNegative, c).steps, b.uuids)
  {
    hide RefuseMovement, MovementOf;
  }

  lemma {:induction false} SaleMovementsOrdinary(b: Books, allowNegative: bool, c: InvoiceCommand, i: nat)
    requires i <= |c.lines|
    ensures Ordinary(SaleMovements(b, allowNegative, c, i).steps, b.uuids)
    decreases |c.lines| - i
  {
    hide MovementPlan, SaleMovement, ApplyAll, Ordinary;
    NothingOrdinary(b.uuids);
    if i < |c.lines| {
      var first := MovementPlan(b, allowNegative, SaleMovement(b.movements, c, i));
      MovementOrdinary(b, allowNegative, SaleMovement(b.movements, c, i));
      if first.error.None? {
        var b1 := ApplyAll(b, first.steps);
        UuidsGrow(b, first.steps);
        SaleMovementsOrdinary(b1, allowNegative, c, i + 1);
        OrdinaryConcat(first.steps, SaleMovements(b1, allowNegative, c, i + 1).steps, b.uuids, b1.uuids);
      }
    }
  }

  lemma {:induction false} RefundMovementsOrdinary(b: Books, start: Books, allowNegative: bool, c: RefundCommand, i: nat)
    requires i <= |c.lines| && PositiveRequests(c)
    ensures Ordinary(RefundMovements(b, start, allowNegative, c, i).steps, b.uuids)
    decreases |c.lines| - i
  {
    hide MovementPlan, RefundMovement, ApplyAll, Ordinary;
    NothingOrdinary(b.uuids);
    if i < |c.lines| && !c.lines[i].restock {
      RefundMovementsOrdinary(b, start, allowNegative, c, i + 1);
    } else if i < |c.lines| {
      var first := MovementPlan(b, allowNegative, RefundMovement(start, c, i));
      MovementOrdinary(b, allowNegative, RefundMovement(start, c, i));
      if first.error.None? {
        var b1 := ApplyAll(b, first.steps);
        UuidsGrow(b, first.steps);
        RefundMovementsOrdinary(b1, start, allowNegative, c, i + 1);
        OrdinaryConcat(first.steps, RefundMovements(b1, start, allowNegative, c, i + 1).steps, b.uuids, b1.uuids);
      }
    }
  }

  lemma AnnouncementOrdinary(tid: Tid, op: Operation)
    ensures Ordinary([WalStep(Pending(tid, op))], tid)
  {
  }

  lemma InvoiceOrdinary(b: Books, closed: set<string>, p: Policy, c: InvoiceCommand)
    ensures Ordinary(InvoicePlan(b, closed, p, c).steps, b.uuids)
  {
    hide Ordinary, InvoicePlan, JournalPlan, SaleMovements, SaleJournal, SaleOp, ApplyAll, Written,
      PositiveQuantities;
    NothingOrdinary(b.uuids);
    if InvoicePlan(b, closed, p, c).steps != [] {
      var start, posted, moved := [WalStep(Pending(b.uuids, SaleOp(c)))], SalePosting(b, closed, p, c), SaleMoves(b, closed, p, c);
      AnnouncementOrdinary(b.uuids, SaleOp(c));
      var b1 := SaleStart(b, c);
      JournalOrdinary(b1, closed, SaleJournal(p.taxRate, b.movements, c));
      SaleMovementsOrdinary(ApplyAll(b1, posted.steps), p.allowNegativeStock, c, 0);
      UuidsGrow(b, start);
      UuidsGrow(b1, posted.steps);
      OrdinaryConcat(start, posted.steps, b.uuids, b1.uuids);
      OrdinaryConcat(start + posted.steps, moved.steps, b.uuids, ApplyAll(b1, posted.steps).uuids);
      if InvoicePlan(b, closed, p, c).Succeeds() {
        var rest := InvoiceNests(b, closed, p, c);
        OrdinaryConcat(start + posted.steps + moved.steps, rest, b.uuids, b.uuids);
      } else {
        InvoiceStops(b, closed, p, c);
        assert start + [] == start && start + (posted.steps + moved.steps) == start + posted.steps + moved.steps;
      }
    }
  }

  lemma RefundOrdinary(b: Books, closed: set<string>, p: Policy, c: RefundCommand)
    ensures Ordinary(RefundPlan(b, closed, p, c).steps, b.uuids)
  {
    hide Ordinary, RefundPlan, JournalPlan, RefundMovements, RefundJournal, ReturnOp, ApplyAll, Written,
      PositiveRequests, RefuseRefund;
    NothingOrdinary(b.uuids);
    if RefundPlan(b, closed, p, c).steps != [] {
      var rest: seq<Step> := [];
      if RefundPlan(b, closed, p, c).Succeeds() {
        rest := RefundNests(b, closed, p, c);
      } else {
        RefundStops(b, closed, p, c);
      }
      var start, posted, moved := [WalStep(Pending(b.uuids, ReturnOp(c)))], ReturnPosting(b, closed, p, c), ReturnMoves(b, closed, p, c);
      AnnouncementOrdinary(b.uuids, ReturnOp(c));
      var b1 := ReturnStart(b, c);
      JournalOrdinary(b1, closed, RefundJournal(p.taxRate, b, c));
      RefundMovementsOrdinary(ApplyAll(b1, posted.steps), b, p.allowNegativeStock, c, 0);
      UuidsGrow(b, start);
      UuidsGrow(b1, posted.steps);
      OrdinaryConcat(start, posted.steps, b.uuids, b1.uuids);
      OrdinaryConcat(start + posted.steps, moved.steps, b.uuids, ApplyAll(b1, posted.steps).uuids);
      if RefundPlan(b, closed, p, c).Succeeds() {
        OrdinaryConcat(start + posted.steps + moved.steps, rest, b.uuids, b.uuids);
      } else {
        assert start + [] == start && start + (posted.steps + moved.steps) == start + posted.steps + moved.steps;
      }
    }
  }

  lemma MoveOrdinary(b: Books, closed: set<string>, allowNegative: bool, c: StockCommand)
    ensures Ordinary(StockPlan(b, closed, allowNegative, c).steps, b.uuids)
  {
    hide MovementPlan, MovementOf, JournalPlan, Ordinary, StockJournal, ApplyAll;
    NothingOrdinary(b.uuids);
    MovementOrdinary(b, allowNegative, c);
    if UsePeriod(c).Some? && UsePeriod(c).value !in closed {
      var moved := MovementPlan(b, allowNegative, c);
      var b1 := ApplyAll(b, moved.steps);
      var journal := StockJournal(c, UsePeriod(c).value, MovementOf(b.movements, c).valueDelta);
      UuidsGrow(b, moved.steps);
      JournalOrdinary(b1, closed, journal);
      OrdinaryConcat(moved.steps, JournalPlan(b1, closed, journal).steps, b.uuids, b1.uuids);
    }
  }

  lemma RegisterOrdinary(b: Books, item: Item)
    ensures Ordinary(RegisterPlan(b, item).steps, b.uuids)
  {
    hide RefuseItem;
  }

  lemma CloseOrdinary(b: Books, periodId: string)
    ensures Ordinary(CloseUsePlan(b, ClosedPeriods(b), periodId).steps, b.uuids)
  {
    hide ReportOf, LedgerReadable, Sum, ClosedPeriods;
  }

  /** Whatever the command and however it ends, its log records carry new ids only. */
  lemma CommandOrdinary(b: Books, p: Policy, cmd: Command)
    ensures Ordinary(PlanOf(b, p, cmd).steps, b.uuids)
  {
    hide Ordinary, ClosedPeriods, RegisterPlan, StockPlan, JournalPlan, InvoicePlan, RefundPlan, CloseUsePlan;
    var closed := ClosedPeriods(b);
    match cmd {
      case Register(item) => RegisterOrdinary(b, item);
      case Move(c) => MoveOrdinary(b, closed, p.allowNegativeStock, c);
      case Post(c) => JournalOrdinary(b, closed, c);
      case Sell(c) => InvoiceOrdinary(b, closed, p, c);
      case Return(c) => RefundOrdinary(b, closed, p, c);
      case Close(periodId) => CloseOrdinary(b, periodId);
    }
  }

  lemma {:induction false} OrdinaryWrites(steps: seq<Step>, lo: nat)
    requires Ordinary(steps, lo)
    ensures Written(steps).reconciliations == [] && forall r :: r in Written(steps).wal ==> r.tid >= lo
    decreases |steps|
  {
    if steps != [] {
      OrdinaryWrites(steps[..|steps| - 1], lo);
    }
  }
}
