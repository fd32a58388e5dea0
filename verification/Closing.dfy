/** Closed periods: nothing a command appends, completed or cut short at any append, shows in a period
    that is already closed. */
module Closing {
  import opened Status
  import opened Books
  import opened Accounting
  import opened Inventory
  import opened Billing
  import opened Writes
  import opened Reconciliation
  import opened UseCases
  import opened Agreement
  import opened SaleAgreement
  import opened ReturnAgreement
  import opened Runs

  // ---------------------------------------------------------------- the view of a period

  function Filter<T>(xs: seq<T>, f: T -> bool): seq<T> {
    if xs == [] then [] else Filter(xs[..|xs| - 1], f) + (if f(xs[|xs| - 1]) then [xs[|xs| - 1]] else [])
  }

  lemma {:induction false} FilterConcat<T>(xs: seq<T>, ys: seq<T>, f: T -> bool)
    ensures Filter(xs + ys, f) == Filter(xs, f) + Filter(ys, f)
  {
    if ys == [] {
      assert xs + ys == xs;
    } else {
      var n := |ys| - 1;
      FilterConcat(xs, ys[..n], f);
      assert (xs + ys)[..|xs + ys| - 1] == xs + ys[..n];
    }
  }

  lemma {:induction false} FilterNone<T>(xs: seq<T>, f: T -> bool)
    requires forall x :: x in xs ==> !f(x)
    ensures Filter(xs, f) == []
  {
    if xs != [] {
      assert xs[|xs| - 1] in xs;
      FilterNone(xs[..|xs| - 1], f);
    }
  }

  lemma {:induction false} FilterSame<T>(xs: seq<T>, f: T -> bool, g: T -> bool)
    requires forall x :: x in xs ==> f(x) == g(x)
    ensures Filter(xs, f) == Filter(xs, g)
  {
    if xs != [] {
      assert xs[|xs| - 1] in xs;
      FilterSame(xs[..|xs| - 1], f, g);
    }
  }

  lemma {:induction false} FilterSum<T>(xs: seq<T>, f: T -> bool, w: T -> int)
    requires forall x :: x in xs && !f(x) ==> w(x) == 0
    ensures Sum(Filter(xs, f), w) == Sum(xs, w)
  {
    if xs != [] {
      var n := |xs| - 1;
      assert xs[n] in xs;
      FilterSum(xs[..n], f, w);
      SumConcat(Filter(xs[..n], f), if f(xs[n]) then [xs[n]] else [], w);
    }
  }

  lemma {:induction false} FilterMembers<T>(xs: seq<T>, f: T -> bool, x: T)
    ensures x in Filter(xs, f) <==> x in xs && f(x)
  {
    if xs != [] {
      FilterMembers(xs[..|xs| - 1], f, x);
      assert xs == xs[..|xs| - 1] + [xs[|xs| - 1]];
    }
  }

  datatype PeriodView = PeriodView(
    entries: seq<JournalEntry>, lines: seq<LedgerLine>, movements: seq<Movement>, invoices: seq<Invoice>,
    invoiceLines: seq<InvoiceLine>, refunds: seq<Refund>, refundLines: seq<RefundLine>)

  function EntryIn(p: string): JournalEntry -> bool { (x: JournalEntry) => x.periodId == p }

  function LineIn(p: string): LedgerLine -> bool { (x: LedgerLine) => x.periodId == p }

  function MovementIn(p: string): Movement -> bool { (x: Movement) => x.periodId == p }

  function InvoiceIn(p: string): Invoice -> bool { (x: Invoice) => x.periodId == p }

  function RefundIn(p: string): Refund -> bool { (x: Refund) => x.periodId == p }

  function InvoiceLineIn(xs: seq<Invoice>, p: string): InvoiceLine -> bool {
    (l: InvoiceLine) => PeriodOfInvoice(xs, l.invoiceId) == Some(p)
  }

  function RefundLineIn(xs: seq<Refund>, p: string): RefundLine -> bool {
    (l: RefundLine) => PeriodOfRefund(xs, l.refundId) == Some(p)
  }

  /** Every record of the period: its journals, movements, invoices and refunds with their lines. */
  function ViewOf(b: Books, p: string): PeriodView {
    PeriodView(
      Filter(b.entries, EntryIn(p)), Filter(b.lines, LineIn(p)), Filter(b.movements, MovementIn(p)),
      Filter(b.invoices, InvoiceIn(p)), Filter(b.invoiceLines, InvoiceLineIn(b.invoices, p)),
      Filter(b.refunds, RefundIn(p)), Filter(b.refundLines, RefundLineIn(b.refunds, p)))
  }

  // ---------------------------------------------------------------- records that stay away from a period

  ghost predicate Away(b: Books, d: Books, p: string) {
    && (forall x :: x in d.entries ==> x.periodId != p)
    && (forall x :: x in d.lines ==> x.periodId != p)
    && (forall x :: x in d.movements ==> x.periodId != p)
    && (forall x :: x in d.invoices ==> x.periodId != p && !KnownInvoice(b, x.invoiceId))
    && (forall x :: x in d.invoiceLines ==> !KnownInvoice(b, x.invoiceId))
    && (forall x :: x in d.refunds ==> x.periodId != p && !KnownRefund(b, x.refundId))
    && (forall x :: x in d.refundLines ==> !KnownRefund(b, x.refundId))
  }

  lemma {:induction false} PeriodNot(xs: seq<Invoice>, id: string, p: string)
    requires forall x :: x in xs ==> x.periodId != p
    ensures PeriodOfInvoice(xs, id) != Some(p)
  {
    if xs != [] {
      assert xs[|xs| - 1] in xs;
      PeriodNot(xs[..|xs| - 1], id, p);
    }
  }

  lemma {:induction false} RefundPeriodNot(xs: seq<Refund>, id: string, p: string)
    requires forall x :: x in xs ==> x.periodId != p
    ensures PeriodOfRefund(xs, id) != Some(p)
  {
    if xs != [] {
      assert xs[|xs| - 1] in xs;
      RefundPeriodNot(xs[..|xs| - 1], id, p);
    }
  }

  lemma InvoiceViewsAway(b: Books, d: Books, p: string)
    requires Away(b, d, p)
    ensures Filter(b.invoiceLines + d.invoiceLines, InvoiceLineIn(b.invoices + d.invoices, p)) ==
            Filter(b.invoiceLines, InvoiceLineIn(b.invoices, p))
  {
    hide PeriodOfInvoice, Filter;
    var f, g := InvoiceLineIn(b.invoices + d.invoices, p), InvoiceLineIn(b.invoices, p);
    forall id
      ensures KnownInvoice(b, id) ==> PeriodOfInvoice(d.invoices, id).None?
      ensures PeriodOfInvoice(b.invoices + d.invoices, id) == Some(p) <==> PeriodOfInvoice(b.invoices, id) == Some(p)
    {
      InvoicePeriodConcat(b.invoices, d.invoices, id);
      PeriodNot(d.invoices, id, p);
      InvoiceKnown(d.invoices, id);
    }
    FilterConcat(b.invoiceLines, d.invoiceLines, f);
    FilterSame(b.invoiceLines, f, g);
    FilterNone(d.invoiceLines, f);
  }

  lemma RefundViewsAway(b: Books, d: Books, p: string)
    requires Away(b, d, p)
    ensures Filter(b.refundLines + d.refundLines, RefundLineIn(b.refunds + d.refunds, p)) ==
            Filter(b.refundLines, RefundLineIn(b.refunds, p))
  {
    hide PeriodOfRefund, Filter;
    var f, g := RefundLineIn(b.refunds + d.refunds, p), RefundLineIn(b.refunds, p);
    forall id
      ensures KnownRefund(b, id) ==> PeriodOfRefund(d.refunds, id).None?
      ensures PeriodOfRefund(b.refunds + d.refunds, id) == Some(p) <==> PeriodOfRefund(b.refunds, id) == Some(p)
    {
      RefundPeriodConcat(b.refunds, d.refunds, id);
      RefundPeriodNot(d.refunds, id, p);
      RefundKnown(d.refunds, id);
    }
    FilterConcat(b.refundLines, d.refundLines, f);
    FilterSame(b.refundLines, f, g);
    FilterNone(d.refundLines, f);
  }

  lemma AwayKeepsView(b: Books, d: Books, p: string)
    requires Away(b, d, p)
    ensures ViewOf(Plus(b, d), p) == ViewOf(b, p)
  {
    hide Filter, KnownInvoice, KnownRefund;
    InvoiceViewsAway(b, d, p);
    RefundViewsAway(b, d, p);
    FilterConcat(b.entries, d.entries, EntryIn(p));
    FilterConcat(b.lines, d.lines, LineIn(p));
    FilterConcat(b.movements, d.movements, MovementIn(p));
    FilterConcat(b.invoices, d.invoices, InvoiceIn(p));
    FilterConcat(b.refunds, d.refunds, RefundIn(p));
    FilterNone(d.entries, EntryIn(p));
    FilterNone(d.lines, LineIn(p));
    FilterNone(d.movements, MovementIn(p));
    FilterNone(d.invoices, InvoiceIn(p));
    FilterNone(d.refunds, RefundIn(p));
  }

  lemma AwayPrefix(b: Books, d: Books, e: Books, p: string)
    requires Away(b, Plus(d, e), p)
    ensures Away(b, d, p)
  {
    hide KnownInvoice, KnownRefund;
    var r := Plus(d, e);
    assert forall x :: x in d.entries ==> x in r.entries;
    assert forall x :: x in d.lines ==> x in r.lines;
    assert forall x :: x in d.movements ==> x in r.movements;
    assert forall x :: x in d.invoices ==> x in r.invoices;
    assert forall x :: x in d.invoiceLines ==> x in r.invoiceLines;
    assert forall x :: x in d.refunds ==> x in r.refunds;
    assert forall x :: x in d.refundLines ==> x in r.refundLines;
  }

  // ---------------------------------------------------------------- where the records of a command go

  /** Journals and documents in one period, movements in another, all of one invoice or refund. */
  ghost predicate Confined(d: Books, doc: string, stock: string, sale: Option<string>, back: Option<string>) {
    && (forall x :: x in d.entries ==> x.periodId == doc)
    && (forall x :: x in d.lines ==> x.periodId == doc)
    && (forall x :: x in d.movements ==> x.periodId == stock)
    && (forall x :: x in d.invoices ==> x.periodId == doc && Some(x.invoiceId) == sale)
    && (forall x :: x in d.invoiceLines ==> Some(x.invoiceId) == sale)
    && (forall x :: x in d.refunds ==> x.periodId == doc && Some(x.refundId) == back)
    && (forall x :: x in d.refundLines ==> Some(x.refundId) == back)
    && d.periods == [] && d.items == []
  }

  lemma ConfinedPlus(a: Books, b: Books, doc: string, stock: string, sale: Option<string>, back: Option<string>)
    requires Confined(a, doc, stock, sale, back) && Confined(b, doc, stock, sale, back)
    ensures Confined(Plus(a, b), doc, stock, sale, back)
  {
  }

  lemma ConfinedConcat(xs: seq<Step>, ys: seq<Step>, doc: string, stock: string, sale: Option<string>, back: Option<string>)
    requires Confined(Written(xs), doc, stock, sale, back) && Confined(Written(ys), doc, stock, sale, back)
    ensures Confined(Written(xs + ys), doc, stock, sale, back)
  {
    hide *;
    WrittenConcat(xs, ys);
    ConfinedPlus(Written(xs), Written(ys), doc, stock, sale, back);
  }

  lemma ConfinedDomain(d: Books, doc: string, stock: string, sale: Option<string>, back: Option<string>)
    ensures Confined(Domain(d), doc, stock, sale, back) == Confined(d, doc, stock, sale, back)
  {
  }

  lemma NothingConfined(doc: string, stock: string, sale: Option<string>, back: Option<string>)
    ensures Confined(Written([]), doc, stock, sale, back)
  {
  }

  lemma JournalConfined(b: Books, closed: set<string>, c: PostCommand, stock: string, sale: Option<string>,
                        back: Option<string>)
    ensures Confined(Written(JournalPlan(b, closed, c).steps), c.periodId, stock, sale, back)
  {
    hide Written, EntryOf, Transaction, RefuseJournal, JournalBody, LedgerLines;
    NothingConfined(c.periodId, stock, sale, back);
    if JournalPlan(b, closed, c).Succeeds() {
      JournalWrites(b, closed, c);
      JournalPeriods(c);
      ConfinedDomain(Written(JournalPlan(b, closed, c).steps), c.periodId, stock, sale, back);
    }
  }

  lemma JournalPeriods(c: PostCommand)
    requires c.lines != []
    ensures EntryOf(c).periodId == c.periodId && forall l :: l in LedgerLines(c) ==> l.periodId == c.periodId
  {
  }

  lemma MovementConfined(b: Books, allowNegative: bool, c: StockCommand, doc: string, sale: Option<string>,
                         back: Option<string>)
    ensures Confined(Written(MovementPlan(b, allowNegative, c).steps), doc, MovementPeriod(c), sale, back)
  {
    hide Written, MovementOf, MovementSteps, RefuseMovement;
    NothingConfined(doc, MovementPeriod(c), sale, back);
    if MovementPlan(b, allowNegative, c).Succeeds() {
      MovementWrites(b, allowNegative, c);
      PeriodOfMovement(b.movements, c);
      ConfinedDomain(Written(MovementPlan(b, allowNegative, c).steps), doc, MovementPeriod(c), sale, back);
    }
  }

  lemma {:induction false} SaleMovementsConfined(b: Books, allowNegative: bool, c: InvoiceCommand, i: nat,
                                                 doc: string, sale: Option<string>)
    requires i <= |c.lines|
    ensures Confined(Written(SaleMovements(b, allowNegative, c, i).steps), doc, PeriodFromTimestamp(c.timestamp), sale, None)
    decreases |c.lines| - i
  {
    hide Written, MovementPlan, Confined, PeriodFromTimestamp, ApplyAll;
    var stock := PeriodFromTimestamp(c.timestamp);
    if i == |c.lines| {
      NothingConfined(doc, stock, sale, None);
    } else {
      var command := SaleMovement(b.movements, c, i);
      var first := MovementPlan(b, allowNegative, command);
      assert MovementPeriod(command) == stock;
      MovementConfined(b, allowNegative, command, doc, sale, None);
      if first.error.None? {
        var b1 := ApplyAll(b, first.steps);
        SaleMovementsConfined(b1, allowNegative, c, i + 1, doc, sale);
        ConfinedConcat(first.steps, SaleMovements(b1, allowNegative, c, i + 1).steps, doc, stock, sale, None);
      }
    }
  }

  predicate Restocks(c: RefundCommand) { exists i :: 0 <= i < |c.lines| && c.lines[i].restock }

  /** Movements of a refund lie in the period of its timestamp; without restocked lines there are none. */
  predicate StocksIn(c: RefundCommand, stock: string) { stock == PeriodFromTimestamp(c.timestamp) || !Restocks(c) }

  lemma {:induction false} RefundMovementsConfined(b: Books, start: Books, allowNegative: bool, c: RefundCommand, i: nat,
                                                   doc: string, stock: string, back: Option<string>)
    requires i <= |c.lines| && PositiveRequests(c) && StocksIn(c, stock)
    ensures Confined(Written(RefundMovements(b, start, allowNegative, c, i).steps), doc, stock, None, back)
    decreases |c.lines| - i
  {
    hide Written, MovementPlan, Confined, PeriodFromTimestamp, ApplyAll, RestoredCost;
    if i == |c.lines| {
      NothingConfined(doc, stock, None, back);
    } else if !c.lines[i].restock {
      RefundMovementsConfined(b, start, allowNegative, c, i + 1, doc, stock, back);
    } else {
      var command := RefundMovement(start, c, i);
      var first := MovementPlan(b, allowNegative, command);
      assert MovementPeriod(command) == stock;
      MovementConfined(b, allowNegative, command, doc, None, back);
      if first.error.None? {
        var b1 := ApplyAll(b, first.steps);
        RefundMovementsConfined(b1, start, allowNegative, c, i + 1, doc, stock, back);
        ConfinedConcat(first.steps, RefundMovements(b1, start, allowNegative, c, i + 1).steps, doc, stock, None, back);
      }
    }
  }

  lemma PendingConfined(tid: Tid, op: Operation, doc: string, stock: string, sale: Option<string>, back: Option<string>)
    ensures Confined(Written([WalStep(Pending(tid, op))]), doc, stock, sale, back)
  {
    ApplyOne(EMPTY, WalStep(Pending(tid, op)));
  }

  /** Completed or stopped by an error of a nested call, an invoice writes into its own period and the
      period of its timestamp only. */
  lemma InvoiceConfined(b: Books, closed: set<string>, p: Policy, c: InvoiceCommand)
    ensures Confined(Written(InvoicePlan(b, closed, p, c).steps), c.periodId, PeriodFromTimestamp(c.timestamp), Some(c.invoiceId), None)
  {
    RefusedOrPositive(b, closed, p.taxRate, c);
    hide Written, Transaction, JournalPlan, SaleMovements, InvoiceLines, InvoiceOf, SaleJournal, RefuseInvoice, Apply,
      ApplyAll, PositiveQuantities, SaleOp, Confined, PeriodFromTimestamp;
    var doc, stock, sale := c.periodId, PeriodFromTimestamp(c.timestamp), Some(c.invoiceId);
    NothingConfined(doc, stock, sale, None);
    if RefuseInvoice(b, closed, p.taxRate, c).None? {
      var pending := [WalStep(Pending(b.uuids, SaleOp(c)))];
      PendingConfined(b.uuids, SaleOp(c), doc, stock, sale, None);
      var b1 := ApplyAll(b, pending);
      var order := SaleJournal(p.taxRate, b.movements, c);
      assert order.periodId == doc by { hide *; SaleJournalPeriod(p.taxRate, b.movements, c); }
      var journal := JournalPlan(b1, closed, order);
      JournalConfined(b1, closed, order, stock, sale, None);
      ConfinedConcat(pending, journal.steps, doc, stock, sale, None);
      if journal.error.None? {
        var b2 := ApplyAll(b1, journal.steps);
        var movements := SaleMovements(b2, p.allowNegativeStock, c, 0);
        SaleMovementsConfined(b2, p.allowNegativeStock, c, 0, doc, sale);
        ConfinedConcat(pending + journal.steps, movements.steps, doc, stock, sale, None);
        if movements.error.None? {
          InvoiceRecordsConfined(b, p.taxRate, c);
          var x, ls := [InvoiceStep(InvoiceOf(p.taxRate, c))], InvoiceLineSteps(InvoiceLines(b, c));
          ConfinedConcat(journal.steps, movements.steps, doc, stock, sale, None);
          ConfinedConcat(journal.steps + movements.steps, x, doc, stock, sale, None);
          ConfinedConcat(journal.steps + movements.steps + x, ls, doc, stock, sale, None);
          ConfinedTransaction(b.uuids, SaleOp(c), journal.steps + movements.steps + x + ls,
                              "billing.invoice_created", "billing.sale_completed.v1", doc, stock, sale, None);
        }
      }
    }
  }

  lemma ConfinedTransaction(tid: Tid, op: Operation, body: seq<Step>, action: string, event: string,
                            doc: string, stock: string, sale: Option<string>, back: Option<string>)
    requires Confined(Written(body), doc, stock, sale, back)
    ensures Confined(Written(Transaction(tid, op, body, action, event)), doc, stock, sale, back)
  {
    hide *;
    TransactionDomain(tid, op, body, action, event);
    ConfinedDomain(Written(body), doc, stock, sale, back);
    ConfinedDomain(Written(Transaction(tid, op, body, action, event)), doc, stock, sale, back);
  }

  lemma SaleJournalPeriod(rate: int, ms: seq<Movement>, c: InvoiceCommand)
    ensures SaleJournal(rate, ms, c).periodId == c.periodId
  {
    hide LineCosts, Tax, SaleLines;
  }

  lemma RefundJournalPeriod(rate: int, b: Books, c: RefundCommand)
    ensures RefundJournal(rate, b, c).periodId == c.periodId
  {
    hide RestoredCosts, Tax, RefundJournalLines;
  }

  lemma InvoiceRecordsConfined(b: Books, rate: int, c: InvoiceCommand)
    requires PositiveQuantities(c)
    ensures Confined(Written([InvoiceStep(InvoiceOf(rate, c))]), c.periodId, PeriodFromTimestamp(c.timestamp), Some(c.invoiceId), None)
    ensures Confined(Written(InvoiceLineSteps(InvoiceLines(b, c))), c.periodId, PeriodFromTimestamp(c.timestamp), Some(c.invoiceId), None)
  {
    hide Written, Tax, LineCosts, PeriodFromTimestamp;
    InvoiceWritten(InvoiceOf(rate, c));
    InvoiceLinesWritten(InvoiceLines(b, c));
  }

  lemma RefundRecordsConfined(b: Books, rate: int, c: RefundCommand, stock: string)
    requires PositiveRequests(c)
    ensures Confined(Written([RefundStep(RefundOf(rate, b, c))]), c.periodId, stock, None, Some(c.refundId))
    ensures Confined(Written(RefundLineSteps(RefundLines(b, c))), c.periodId, stock, None, Some(c.refundId))
  {
    hide Written, Tax, RestoredCost, PeriodFromTimestamp, RefundMovementIds;
    RefundWritten(RefundOf(rate, b, c));
    RefundLinesWritten(RefundLines(b, c));
  }

  lemma RefundConfined(b: Books, closed: set<string>, p: Policy, c: RefundCommand, stock: string)
    requires StocksIn(c, stock)
    ensures Confined(Written(RefundPlan(b, closed, p, c).steps), c.periodId, stock, None, Some(c.refundId))
  {
    RefusedOrPositiveRequests(b, closed, p.taxRate, c);
    hide Written, Transaction, JournalPlan, RefundMovements, RefundLines, RefundOf, RefundJournal, RefuseRefund,
      Apply, ApplyAll, PositiveRequests, ReturnOp, Confined, PeriodFromTimestamp, StocksIn;
    var doc, back := c.periodId, Some(c.refundId);
    NothingConfined(doc, stock, None, back);
    if RefuseRefund(b, closed, p.taxRate, c).None? {
      var pending := [WalStep(Pending(b.uuids, ReturnOp(c)))];
      PendingConfined(b.uuids, ReturnOp(c), doc, stock, None, back);
      var b1 := ApplyAll(b, pending);
      var order := RefundJournal(p.taxRate, b, c);
      assert order.periodId == doc by { hide *; RefundJournalPeriod(p.taxRate, b, c); }
      var journal := JournalPlan(b1, closed, order);
      JournalConfined(b1, closed, order, stock, None, back);
      ConfinedConcat(pending, journal.steps, doc, stock, None, back);
      if journal.error.None? {
        var b2 := ApplyAll(b1, journal.steps);
        var movements := RefundMovements(b2, b, p.allowNegativeStock, c, 0);
        RefundMovementsConfined(b2, b, p.allowNegativeStock, c, 0, doc, stock, back);
        ConfinedConcat(pending + journal.steps, movements.steps, doc, stock, None, back);
        if movements.error.None? {
          RefundRecordsConfined(b, p.taxRate, c, stock);
          var x, ls := [RefundStep(RefundOf(p.taxRate, b, c))], RefundLineSteps(RefundLines(b, c));
          ConfinedConcat(journal.steps, movements.steps, doc, stock, None, back);
          ConfinedConcat(journal.steps + movements.steps, x, doc, stock, None, back);
          ConfinedConcat(journal.steps + movements.steps + x, ls, doc, stock, None, back);
          ConfinedTransaction(b.uuids, ReturnOp(c), journal.steps + movements.steps + x + ls,
                              "billing.refund_created", "billing.refund_completed.v1", doc, stock, None, back);
        }
      }
    }
  }

  lemma StockConfined(b: Books, closed: set<string>, allowNegative: bool, c: StockCommand)
    requires UsePeriod(c) == Some(MovementPeriod(c))
    ensures Confined(Written(StockPlan(b, closed, allowNegative, c).steps), MovementPeriod(c), MovementPeriod(c), None, None)
  {
    hide Written, MovementPlan, MovementOf, JournalPlan, Confined, MovementPeriod, UsePeriod, StockJournalLines;
    var q := MovementPeriod(c);
    NothingConfined(q, q, None, None);
    if q !in closed {
      var moved := MovementPlan(b, allowNegative, c);
      var value := MovementOf(b.movements, c).valueDelta;
      MovementConfined(b, allowNegative, c, q, None, None);
      if moved.error.None? && value != 0 {
        var b1 := ApplyAll(b, moved.steps);
        var posted := JournalPlan(b1, closed, StockJournal(c, q, value));
        JournalConfined(b1, closed, StockJournal(c, q, value), q, None, None);
        ConfinedConcat(moved.steps, posted.steps, q, q, None, None);
      }
    }
  }

  // ---------------------------------------------------------------- closed periods stay as they are

  /** The command moves no stock in the period, or the period is the one it checks. */
  predicate Spares(cmd: Command, p: string) {
    match cmd
    case Sell(c) => PeriodFromTimestamp(c.timestamp) != p || Aligned(c.timestamp, c.periodId)
    case Return(c) => PeriodFromTimestamp(c.timestamp) != p || Aligned(c.timestamp, c.periodId) || !Restocks(c)
    case _ => true
  }

  lemma ConfinedAway(b: Books, d: Books, doc: string, stock: string, sale: Option<string>, back: Option<string>, p: string)
    requires Confined(d, doc, stock, sale, back) && doc != p && stock != p
    requires sale.Some? ==> !KnownInvoice(b, sale.value)
    requires back.Some? ==> !KnownRefund(b, back.value)
    ensures Away(b, d, p)
  {
    hide KnownInvoice, KnownRefund;
  }

  lemma NothingAway(b: Books, p: string)
    ensures Away(b, Written([]), p)
  {
  }

  lemma QuietAway(b: Books, d: Books, p: string)
    requires Domain(d).(items := [], periods := []) == EMPTY
    ensures Away(b, d, p)
  {
  }

  lemma SellAway(b: Books, pol: Policy, c: InvoiceCommand, p: string)
    requires p in ClosedPeriods(b) && Spares(Sell(c), p)
    ensures Away(b, Written(InvoicePlan(b, ClosedPeriods(b), pol, c).steps), p)
  {
    hide ClosedPeriods, Written, JournalPlan, SaleMovements, SaleJournal, InvoiceLines, InvoiceOf, Transaction,
      ApplyAll, SaleOp, Away, Confined, PeriodFromTimestamp, FirstStockError, ValidateInvoice, HasInvoice;
    NothingAway(b, p);
    if RefuseInvoice(b, ClosedPeriods(b), pol.taxRate, c).None? {
      InvoiceConfined(b, ClosedPeriods(b), pol, c);
      NewInvoice(b, c.invoiceId);
      ConfinedAway(b, Written(InvoicePlan(b, ClosedPeriods(b), pol, c).steps), c.periodId,
                   PeriodFromTimestamp(c.timestamp), Some(c.invoiceId), None, p);
    }
  }

  lemma NewInvoice(b: Books, id: string)
    requires !HasInvoice(b.invoices, id)
    ensures !KnownInvoice(b, id)
  {
    InvoiceKnown(b.invoices, id);
  }

  lemma NewRefund(b: Books, id: string)
    requires !HasRefund(b.refunds, id)
    ensures !KnownRefund(b, id)
  {
    RefundKnown(b.refunds, id);
  }

  lemma ReturnAway(b: Books, pol: Policy, c: RefundCommand, p: string)
    requires p in ClosedPeriods(b) && Spares(Return(c), p)
    ensures Away(b, Written(RefundPlan(b, ClosedPeriods(b), pol, c).steps), p)
  {
    hide ClosedPeriods, Written, JournalPlan, RefundMovements, RefundJournal, RefundLines, RefundOf, Transaction,
      ApplyAll, ReturnOp, Away, Confined, PeriodFromTimestamp, GuardError, ValidateRefund, HasRefund, FindInvoice,
      Restocks;
    NothingAway(b, p);
    if RefuseRefund(b, ClosedPeriods(b), pol.taxRate, c).None? {
      var stock := if Restocks(c) then PeriodFromTimestamp(c.timestamp) else c.periodId;
      RefundConfined(b, ClosedPeriods(b), pol, c, stock);
      NewRefund(b, c.refundId);
      ConfinedAway(b, Written(RefundPlan(b, ClosedPeriods(b), pol, c).steps), c.periodId, stock, None, Some(c.refundId), p);
    }
  }

  lemma MoveAway(b: Books, allowNegative: bool, c: StockCommand, p: string)
    requires p in ClosedPeriods(b)
    ensures Away(b, Written(StockPlan(b, ClosedPeriods(b), allowNegative, c).steps), p)
  {
    hide ClosedPeriods, Written, MovementPlan, MovementOf, JournalPlan, Away, Confined;
    NothingAway(b, p);
    if UsePeriod(c).Some? && MovementPeriod(c) !in ClosedPeriods(b) {
      StockConfined(b, ClosedPeriods(b), allowNegative, c);
      ConfinedAway(b, Written(StockPlan(b, ClosedPeriods(b), allowNegative, c).steps), MovementPeriod(c),
                   MovementPeriod(c), None, None, p);
    }
  }

  lemma PostAway(b: Books, c: PostCommand, p: string)
    requires p in ClosedPeriods(b)
    ensures Away(b, Written(JournalPlan(b, ClosedPeriods(b), c).steps), p)
  {
    hide ClosedPeriods, Written, Away, Confined, Transaction, JournalBody;
    NothingAway(b, p);
    if JournalPlan(b, ClosedPeriods(b), c).Succeeds() {
      JournalConfined(b, ClosedPeriods(b), c, c.periodId, None, None);
      ConfinedAway(b, Written(JournalPlan(b, ClosedPeriods(b), c).steps), c.periodId, c.periodId, None, None, p);
    }
  }

  lemma CommandAway(b: Books, pol: Policy, cmd: Command, p: string)
    requires p in ClosedPeriods(b) && Spares(cmd, p)
    ensures Away(b, Written(PlanOf(b, pol, cmd).steps), p)
  {
    hide ClosedPeriods, Written, RegisterPlan, StockPlan, JournalPlan, InvoicePlan, RefundPlan, CloseUsePlan, Away,
      Spares;
    match cmd {
      case Register(item) => QuietRegister(b, item); QuietAway(b, Written(PlanOf(b, pol, cmd).steps), p);
      case Move(c) => MoveAway(b, pol.allowNegativeStock, c, p);
      case Post(c) => PostAway(b, c, p);
      case Sell(c) => SellAway(b, pol, c, p);
      case Return(c) => ReturnAway(b, pol, c, p);
      case Close(periodId) => QuietClose(b, periodId); QuietAway(b, Written(PlanOf(b, pol, cmd).steps), p);
    }
  }

  lemma QuietRegister(b: Books, item: Item)
    ensures Domain(Written(RegisterPlan(b, item).steps)).(items := [], periods := []) == EMPTY
    ensures Written(RegisterPlan(b, item).steps).periods == []
  {
    hide Written, Transaction, RefuseItem;
    NothingWritten();
    if RegisterPlan(b, item).Succeeds() {
      RegisterWrites(b, item);
      SameFiles(Written(RegisterPlan(b, item).steps));
    }
  }

  lemma QuietClose(b: Books, periodId: string)
    ensures var plan := CloseUsePlan(b, ClosedPeriods(b), periodId);
      && Domain(Written(plan.steps)).(items := [], periods := []) == EMPTY
      && (plan.Succeeds() ==> ClosedPeriods(Plus(b, Written(plan.steps))) == ClosedPeriods(b) + {periodId})
      && (!plan.Succeeds() ==> plan.Refused())
  {
    hide Written, Transaction, ReportOf, LedgerReadable, Sum;
    NothingWritten();
    var plan := CloseUsePlan(b, ClosedPeriods(b), periodId);
    if plan.Succeeds() {
      CloseUseWrites(b, periodId);
      CloseWrites(b, ClosedPeriods(b), periodId);
      SameFiles(Written(plan.steps));
    }
  }

  /** A period that is closed shows the same records after any command, completed, refused, or cut short
      after any number of appends. */
  lemma ClosedPeriodFrozen(b: Books, pol: Policy, cmd: Command, k: nat, p: string)
    requires p in ClosedPeriods(b) && Spares(cmd, p) && k <= |PlanOf(b, pol, cmd).steps|
    ensures ViewOf(ApplyAll(b, PlanOf(b, pol, cmd).steps[..k]), p) == ViewOf(b, p)
    ensures p in ClosedPeriods(ApplyAll(b, PlanOf(b, pol, cmd).steps[..k]))
  {
    var steps := PlanOf(b, pol, cmd).steps;
    CommandAway(b, pol, cmd, p);
    PeriodsRemain(b, steps[..k], p);
    hide *;
    WrittenConcat(steps[..k], steps[k..]);
    assert steps[..k] + steps[k..] == steps;
    AwayPrefix(b, Written(steps[..k]), Written(steps[k..]), p);
    AwayKeepsView(b, Written(steps[..k]), p);
    WritesAdd(b, steps[..k]);
  }

  lemma PeriodsRemain(b: Books, steps: seq<Step>, p: string)
    requires p in ClosedPeriods(b)
    ensures p in ClosedPeriods(ApplyAll(b, steps))
  {
    hide Written;
    WritesAdd(b, steps);
  }

  lemma MatchesView(b: Books, r: Books, p: string)
    requires ViewOf(b, p) == ViewOf(r, p)
    ensures ReportOf(b, p) == ReportOf(r, p)
  {
    hide Filter, Sum, PeriodOfInvoice, PeriodOfRefund;
    ReportFromView(b, p);
    ReportFromView(r, p);
    SameCogs(b, r, p);
  }

  lemma ReportFromView(b: Books, p: string)
    ensures var v := ViewOf(b, p);
      && ReportOf(b, p).inventory == Check(Sum(v.movements, ValueIn(p)),
                                           Sum(v.lines, DebitIn(p, INVENTORY)) - Sum(v.lines, CreditIn(p, INVENTORY)))
      && ReportOf(b, p).tax == Check(Sum(v.invoices, TaxIn(p)) - Sum(v.refunds, RefundTaxIn(p)),
                                     Sum(v.lines, CreditIn(p, OUTPUT_TAX)) - Sum(v.lines, DebitIn(p, OUTPUT_TAX)))
      && ReportOf(b, p).sales == Check(Sum(v.invoices, SubtotalIn(p)), Sum(v.lines, CreditIn(p, SALES)))
      && ReportOf(b, p).refunds == Check(Sum(v.refunds, RefundSubtotalIn(p)), Sum(v.lines, DebitIn(p, SALES_RETURNS)))
      && ReportOf(b, p).cogs.actual == Sum(v.lines, DebitIn(p, COGS)) - Sum(v.lines, CreditIn(p, COGS))
  {
    hide Filter, Sum;
    FilterSum(b.movements, MovementIn(p), ValueIn(p));
    FilterSum(b.invoices, InvoiceIn(p), TaxIn(p));
    FilterSum(b.invoices, InvoiceIn(p), SubtotalIn(p));
    FilterSum(b.refunds, RefundIn(p), RefundTaxIn(p));
    FilterSum(b.refunds, RefundIn(p), RefundSubtotalIn(p));
    LedgerFromView(b, p, INVENTORY);
    LedgerFromView(b, p, OUTPUT_TAX);
    LedgerFromView(b, p, SALES);
    LedgerFromView(b, p, SALES_RETURNS);
    LedgerFromView(b, p, COGS);
  }

  lemma LedgerFromView(b: Books, p: string, a: Account)
    ensures Debit(b.lines, p, a) == Sum(ViewOf(b, p).lines, DebitIn(p, a))
    ensures Credit(b.lines, p, a) == Sum(ViewOf(b, p).lines, CreditIn(p, a))
  {
    hide Filter, Sum;
    FilterSum(b.lines, LineIn(p), DebitIn(p, a));
    FilterSum(b.lines, LineIn(p), CreditIn(p, a));
  }

  function LineCogs(): InvoiceLine -> int { (l: InvoiceLine) => l.cogs }

  function LineRestored(): RefundLine -> int { (l: RefundLine) => l.cogs }

  lemma CogsFromView(b: Books, p: string)
    ensures Sum(b.invoiceLines, CogsIn(b.invoices, p)) == Sum(ViewOf(b, p).invoiceLines, LineCogs())
    ensures Sum(b.refundLines, RestoredIn(b.refunds, p)) == Sum(ViewOf(b, p).refundLines, LineRestored())
  {
    hide Filter, Sum, PeriodOfInvoice, PeriodOfRefund;
    FilterSum(b.invoiceLines, InvoiceLineIn(b.invoices, p), CogsIn(b.invoices, p));
    forall l | l in ViewOf(b, p).invoiceLines
      ensures CogsIn(b.invoices, p)(l) == LineCogs()(l)
    {
      FilterMembers(b.invoiceLines, InvoiceLineIn(b.invoices, p), l);
    }
    SumSame(ViewOf(b, p).invoiceLines, CogsIn(b.invoices, p), LineCogs());
    FilterSum(b.refundLines, RefundLineIn(b.refunds, p), RestoredIn(b.refunds, p));
    forall l | l in ViewOf(b, p).refundLines
      ensures RestoredIn(b.refunds, p)(l) == LineRestored()(l)
    {
      FilterMembers(b.refundLines, RefundLineIn(b.refunds, p), l);
    }
    SumSame(ViewOf(b, p).refundLines, RestoredIn(b.refunds, p), LineRestored());
  }

  lemma SameCogs(b: Books, r: Books, p: string)
    requires ViewOf(b, p) == ViewOf(r, p)
    ensures ReportOf(b, p).cogs.expected == ReportOf(r, p).cogs.expected
  {
    hide Filter, Sum, PeriodOfInvoice, PeriodOfRefund;
    CogsFromView(b, p);
    CogsFromView(r, p);
  }

  lemma ReadableFromView(b: Books, r: Books, p: string)
    requires Filter(b.lines, LineIn(p)) == Filter(r.lines, LineIn(p)) && LedgerReadable(b.lines, p)
    ensures LedgerReadable(r.lines, p)
  {
    hide Filter, Known;
    forall l | l in r.lines && l.periodId == p
      ensures l in b.lines
    {
      FilterMembers(r.lines, LineIn(p), l);
      FilterMembers(b.lines, LineIn(p), l);
    }
    forall i | 0 <= i < |r.lines| && r.lines[i].periodId == p
      ensures r.lines[i] in r.lines
    {
    }
  }

  /** Every command of the run leaves the period alone. */
  predicate AllSpare(cmds: seq<Command>, p: string) { forall k :: 0 <= k < |cmds| ==> Spares(cmds[k], p) }

  lemma {:induction false} FrozenRun(b: Books, pol: Policy, cmds: seq<Command>, p: string)
    requires p in ClosedPeriods(b) && AllSpare(cmds, p)
    ensures ViewOf(Run(b, pol, cmds), p) == ViewOf(b, p) && p in ClosedPeriods(Run(b, pol, cmds))
  {
    hide ClosedPeriods, PlanOf, ViewOf, Spares;
    if cmds != [] {
      var n := |cmds| - 1;
      FrozenRun(b, pol, cmds[..n], p);
      var r := Run(b, pol, cmds[..n]);
      var steps := PlanOf(r, pol, cmds[n]).steps;
      ClosedPeriodFrozen(r, pol, cmds[n], |steps|, p);
      assert steps[..|steps|] == steps;
    }
  }

  /** A period closed through its use case passes its report for ever: after any later run, and at any
      point inside the command that follows. */
  lemma ClosedReportStays(b: Books, pol: Policy, p: string, cmds: seq<Command>, last: Command, k: nat)
    requires CloseUsePlan(b, ClosedPeriods(b), p).Succeeds()
    requires AllSpare(cmds, p) && Spares(last, p)
    requires k <= |PlanOf(Run(Exec(b, pol, Close(p)), pol, cmds), pol, last).steps|
    ensures var before := Run(Exec(b, pol, Close(p)), pol, cmds);
      var r := ApplyAll(before, PlanOf(before, pol, last).steps[..k]);
      ViewOf(r, p) == ViewOf(b, p) && ReportResultOf(r, p).Ready? && ReportResultOf(r, p).report.Passed()
  {
    JustClosed(b, pol, p);
    hide *;
    var b1 := Exec(b, pol, Close(p));
    FrozenRun(b1, pol, cmds, p);
    var before := Run(b1, pol, cmds);
    ClosedPeriodFrozen(before, pol, last, k, p);
    SamePassed(b, ApplyAll(before, PlanOf(before, pol, last).steps[..k]), p);
  }

  lemma SamePassed(b: Books, r: Books, p: string)
    requires ViewOf(b, p) == ViewOf(r, p) && ReportResultOf(b, p).Ready? && ReportResultOf(b, p).report.Passed()
    ensures ReportResultOf(r, p).Ready? && ReportResultOf(r, p).report.Passed()
  {
    hide ReportOf, Filter, LedgerReadable;
    MatchesView(b, r, p);
    ReadableFromView(b, r, p);
  }

  lemma JustClosed(b: Books, pol: Policy, p: string)
    requires CloseUsePlan(b, ClosedPeriods(b), p).Succeeds()
    ensures var r := Exec(b, pol, Close(p));
      p in ClosedPeriods(r) && ViewOf(r, p) == ViewOf(b, p)
    ensures ReportResultOf(b, p).Ready? && ReportResultOf(b, p).report.Passed()
  {
    hide Written, ClosePlan, ReportOf, LedgerReadable, ViewOf, ClosedPeriods, Away, Plus;
    var steps := CloseUsePlan(b, ClosedPeriods(b), p).steps;
    QuietClose(b, p);
    QuietAway(b, Written(steps), p);
    AwayKeepsView(b, Written(steps), p);
    WritesAdd(b, steps);
  }

  // ---------------------------------------------------------------- the exact gap, and the closed set

  lemma MovementShows(b: Books, d: Books, p: string)
    requires exists m :: m in d.movements && m.periodId == p
    ensures ViewOf(Plus(b, d), p) != ViewOf(b, p)
  {
    hide PeriodOfInvoice, PeriodOfRefund;
    var m :| m in d.movements && m.periodId == p;
    FilterConcat(b.movements, d.movements, MovementIn(p));
    FilterMembers(d.movements, MovementIn(p), m);
    assert |ViewOf(Plus(b, d), p).movements| > |ViewOf(b, p).movements|;
  }

  lemma FirstSold(ms: seq<Movement>, c: InvoiceCommand)
    requires c.lines != [] && PositiveQuantities(c)
    ensures exists m :: m in SoldMovements(ms, c, 0) && m.periodId == PeriodFromTimestamp(c.timestamp)
  {
    hide MovementOf, SaleMovement, PeriodFromTimestamp;
    SaleMovementValue(ms, c, 0);
    assert SoldMovements(ms, c, 0)[0] in SoldMovements(ms, c, 0);
  }

  lemma {:induction false} FirstRestocked(ms: seq<Movement>, start: Books, c: RefundCommand, i: nat)
    requires PositiveRequests(c) && exists k :: i <= k < |c.lines| && c.lines[k].restock
    ensures exists m :: m in RestockedMovements(ms, start, c, i) && m.periodId == PeriodFromTimestamp(c.timestamp)
    decreases |c.lines| - i
  {
    hide MovementOf, RefundMovement, PeriodFromTimestamp;
    if c.lines[i].restock {
      RestockPeriod(ms, start, c, i);
      assert RestockedMovements(ms, start, c, i)[0] in RestockedMovements(ms, start, c, i);
    } else {
      FirstRestocked(ms, start, c, i + 1);
    }
  }

  lemma RestockPeriod(ms: seq<Movement>, start: Books, c: RefundCommand, i: nat)
    requires i < |c.lines| && c.lines[i].quantity > 0
    ensures MovementOf(ms, RefundMovement(start, c, i)).periodId == PeriodFromTimestamp(c.timestamp)
  {
    hide StockOnHand, InventoryValue, RestoredCost, PeriodFromTimestamp;
  }

  /** A completed invoice leaves a closed period as it is exactly when its timestamp falls outside: the
      period check looks at the invoice's period, its movements go by the timestamp. */
  lemma InvoiceInClosedPeriod(b: Books, pol: Policy, c: InvoiceCommand, p: string)
    requires p in ClosedPeriods(b) && InvoicePlan(b, ClosedPeriods(b), pol, c).Succeeds()
    ensures ViewOf(Exec(b, pol, Sell(c)), p) == ViewOf(b, p) <==> PeriodFromTimestamp(c.timestamp) != p
  {
    InvoiceAccepted(b, ClosedPeriods(b), pol, c);
    InvoiceWrites(b, ClosedPeriods(b), pol, c);
    assert c.lines != [] by { hide InvoicePlan, ClosedPeriods, FirstStockError, HasInvoice; }
    assert Spares(Sell(c), p) || PeriodFromTimestamp(c.timestamp) == p by { hide InvoicePlan, PeriodFromTimestamp; }
    hide *;
    var steps := PlanOf(b, pol, Sell(c)).steps;
    SellExec(b, pol, c);
    WritesAdd(b, steps);
    FirstSold(b.movements, c);
    SameFiles(Written(steps));
    if PeriodFromTimestamp(c.timestamp) == p {
      MovementShows(b, Written(steps), p);
    } else {
      CommandAway(b, pol, Sell(c), p);
      AwayKeepsView(b, Written(steps), p);
    }
  }

  /** A completed refund changes a closed period exactly when it restocks something at a time inside it. */
  lemma RefundInClosedPeriod(b: Books, pol: Policy, c: RefundCommand, p: string)
    requires p in ClosedPeriods(b) && RefundPlan(b, ClosedPeriods(b), pol, c).Succeeds()
    ensures ViewOf(Exec(b, pol, Return(c)), p) != ViewOf(b, p) <==> Restocks(c) && PeriodFromTimestamp(c.timestamp) == p
  {
    RefundAccepted(b, ClosedPeriods(b), pol, c);
    RefundWrites(b, ClosedPeriods(b), pol, c);
    assert Spares(Return(c), p) || (Restocks(c) && PeriodFromTimestamp(c.timestamp) == p) by {
      hide RefundPlan, PeriodFromTimestamp, Restocks;
    }
    assert Restocks(c) ==> exists k :: 0 <= k < |c.lines| && c.lines[k].restock;
    hide *;
    var steps := PlanOf(b, pol, Return(c)).steps;
    ReturnExec(b, pol, c);
    WritesAdd(b, steps);
    SameFiles(Written(steps));
    if Restocks(c) && PeriodFromTimestamp(c.timestamp) == p {
      FirstRestocked(b.movements, b, c, 0);
      MovementShows(b, Written(steps), p);
    } else {
      CommandAway(b, pol, Return(c), p);
      AwayKeepsView(b, Written(steps), p);
    }
  }

  lemma ReturnExec(b: Books, pol: Policy, c: RefundCommand)
    ensures PlanOf(b, pol, Return(c)) == RefundPlan(b, ClosedPeriods(b), pol, c)
    ensures Exec(b, pol, Return(c)) == ApplyAll(b, PlanOf(b, pol, Return(c)).steps)
  {
    hide RefundPlan;
  }

  /** A completed command leaves a closed period as it is exactly when it spares it. */
  lemma SparingIsExact(b: Books, pol: Policy, cmd: Command, p: string)
    requires p in ClosedPeriods(b) && PlanOf(b, pol, cmd).Succeeds()
    ensures ViewOf(Exec(b, pol, cmd), p) == ViewOf(b, p) <==> Spares(cmd, p)
  {
    hide RegisterPlan, StockPlan, JournalPlan, InvoicePlan, RefundPlan, CloseUsePlan, ClosedPeriods, ViewOf,
      PeriodFromTimestamp, Written, Restocks, ApplyAll;
    if Spares(cmd, p) {
      var steps := PlanOf(b, pol, cmd).steps;
      ClosedPeriodFrozen(b, pol, cmd, |steps|, p);
      assert steps[..|steps|] == steps;
    } else {
      match cmd {
        case Sell(c) => InvoiceInClosedPeriod(b, pol, c, p);
        case Return(c) => RefundInClosedPeriod(b, pol, c, p);
        case _ =>
      }
    }
  }

  lemma SellExec(b: Books, pol: Policy, c: InvoiceCommand)
    ensures PlanOf(b, pol, Sell(c)) == InvoicePlan(b, ClosedPeriods(b), pol, c)
    ensures Exec(b, pol, Sell(c)) == ApplyAll(b, PlanOf(b, pol, Sell(c)).steps)
  {
    hide InvoicePlan;
  }

  /** Only a completed closing adds a period to the closed ones, so the set a service holds in memory and
      updates on closing stays the set rebuilt from the log. */
  lemma ClosedSet(b: Books, pol: Policy, cmd: Command)
    ensures ClosedPeriods(Exec(b, pol, cmd)) ==
      ClosedPeriods(b) + (if cmd.Close? && PlanOf(b, pol, cmd).Succeeds() then {cmd.periodId} else {})
  {
    hide Written, RegisterPlan, StockPlan, JournalPlan, InvoicePlan, RefundPlan, CloseUsePlan, ClosedPeriods,
      Confined, Transaction;
    var closed := ClosedPeriods(b);
    var steps := PlanOf(b, pol, cmd).steps;
    WritesAdd(b, steps);
    NothingWritten();
    SamePeriods(b, Written(steps));
    match cmd {
      case Register(item) => QuietRegister(b, item);
      case Move(c) => QuietMove(b, closed, pol.allowNegativeStock, c);
      case Post(c) => JournalConfined(b, closed, c, "", None, None); NoPeriods(Written(steps), c.periodId, "", None, None);
      case Sell(c) =>
        InvoiceConfined(b, closed, pol, c);
        NoPeriods(Written(steps), c.periodId, PeriodFromTimestamp(c.timestamp), Some(c.invoiceId), None);
      case Return(c) =>
        RefundConfined(b, closed, pol, c, PeriodFromTimestamp(c.timestamp));
        NoPeriods(Written(steps), c.periodId, PeriodFromTimestamp(c.timestamp), None, Some(c.refundId));
      case Close(periodId) => QuietClose(b, periodId);
    }
  }

  lemma SamePeriods(b: Books, d: Books)
    ensures d.periods == [] ==> ClosedPeriods(Plus(b, d)) == ClosedPeriods(b)
    ensures Plus(b, EMPTY) == b
  {
  }

  lemma NoPeriods(d: Books, doc: string, stock: string, sale: Option<string>, back: Option<string>)
    requires Confined(d, doc, stock, sale, back)
    ensures d.periods == [] && d.items == []
  {
  }

  lemma QuietMove(b: Books, closed: set<string>, allowNegative: bool, c: StockCommand)
    ensures Written(StockPlan(b, closed, allowNegative, c).steps).periods == []
  {
    hide Written, MovementPlan, MovementOf, JournalPlan, Confined;
    NothingWritten();
    if UsePeriod(c).Some? {
      StockConfined(b, closed, allowNegative, c);
      NoPeriods(Written(StockPlan(b, closed, allowNegative, c).steps), MovementPeriod(c), MovementPeriod(c), None, None);
    }
  }
}
