/** When the subledgers and the ledger agree: for each operation, the exact condition under which a
    reconciled store stays reconciled. */
module Agreement {
  import opened Status
  import opened Books
  import opened Accounting
  import opened Inventory
  import opened Writes
  import opened Reconciliation
  import opened UseCases

  // ---------------------------------------------------------------- completed operations in general

  lemma ReportOfDomain(b: Books, p: string)
    ensures ReportOf(Domain(b), p) == ReportOf(b, p)
  {
  }

  /** Reconciled books stay reconciled exactly when the written records reconcile on their own. */
  lemma CompletedReconciles(b: Books, steps: seq<Step>, d: Books)
    requires Domain(Written(steps)) == d && Linked(b) && Linked(d) && Apart(b, d) && Reconciled(b)
    ensures Reconciled(ApplyAll(b, steps)) <==> Reconciled(d)
  {
    hide Linked, Apart, ReportOf, Written;
    var r := ApplyAll(b, steps);
    WritesAdd(b, steps);
    DomainPlus(b, Written(steps));
    SameDomain(b);
    ReconciledAdds(Domain(b), d);
    SameDomain(r);
  }

  lemma SameDomain(b: Books)
    ensures Linked(Domain(b)) == Linked(b) && Reconciled(Domain(b)) == Reconciled(b)
    ensures forall d :: Apart(Domain(b), d) == Apart(b, d)
  {
    hide ReportOf, PeriodOfInvoice, PeriodOfRefund;
    forall p
      ensures ReportOf(Domain(b), p) == ReportOf(b, p)
    {
      ReportOfDomain(b, p);
    }
    assert forall id :: KnownInvoice(Domain(b), id) == KnownInvoice(b, id);
    assert forall id :: KnownRefund(Domain(b), id) == KnownRefund(b, id);
  }

  // ---------------------------------------------------------------- what a journal adds to the ledger

  function DebitTo(a: Account): JournalLine -> int { (l: JournalLine) => if l.account == a then l.debit else 0 }

  function CreditTo(a: Account): JournalLine -> int { (l: JournalLine) => if l.account == a then l.credit else 0 }

  function Debited(ls: seq<JournalLine>, a: Account): int { Sum(ls, DebitTo(a)) }

  function Credited(ls: seq<JournalLine>, a: Account): int { Sum(ls, CreditTo(a)) }

  function Nothing(): JournalLine -> int { (l: JournalLine) => 0 }

  lemma LedgerOfJournal(c: PostCommand, p: string, a: Account)
    ensures Debit(LedgerLines(c), p, a) == if p == c.periodId then Debited(c.lines, a) else 0
    ensures Credit(LedgerLines(c), p, a) == if p == c.periodId then Credited(c.lines, a) else 0
  {
    hide Sum;
    var ls := LedgerLines(c);
    if p == c.periodId {
      SumPointwise(ls, DebitIn(p, a), c.lines, DebitTo(a));
      SumPointwise(ls, CreditIn(p, a), c.lines, CreditTo(a));
    } else {
      SumZero(ls, DebitIn(p, a));
      SumZero(ls, CreditIn(p, a));
    }
  }

  /** The journal moves none of the totals the five checks look at. */
  predicate Neutral(ls: seq<JournalLine>) {
    && Debited(ls, INVENTORY) == Credited(ls, INVENTORY)
    && Debited(ls, OUTPUT_TAX) == Credited(ls, OUTPUT_TAX)
    && Credited(ls, SALES) == 0
    && Debited(ls, SALES_RETURNS) == 0
    && Debited(ls, COGS) == Credited(ls, COGS)
  }

  lemma NoFolds(p: string)
    ensures Sum<Invoice>([], SubtotalIn(p)) == 0 && Sum<Invoice>([], TaxIn(p)) == 0
    ensures Sum<Refund>([], RefundSubtotalIn(p)) == 0 && Sum<Refund>([], RefundTaxIn(p)) == 0
    ensures forall xs :: Sum<InvoiceLine>([], CogsIn(xs, p)) == 0
    ensures forall xs :: Sum<RefundLine>([], RestoredIn(xs, p)) == 0
    ensures PeriodValue([], p) == 0
  {
  }

  lemma LedgerReport(d: Books, c: PostCommand, p: string)
    requires d.lines == LedgerLines(c)
    ensures var here := p == c.periodId;
      && DebitBalance(d, p, INVENTORY) == (if here then Debited(c.lines, INVENTORY) - Credited(c.lines, INVENTORY) else 0)
      && DebitBalance(d, p, OUTPUT_TAX) == (if here then Debited(c.lines, OUTPUT_TAX) - Credited(c.lines, OUTPUT_TAX) else 0)
      && Credit(d.lines, p, SALES) == (if here then Credited(c.lines, SALES) else 0)
      && Debit(d.lines, p, SALES_RETURNS) == (if here then Debited(c.lines, SALES_RETURNS) else 0)
      && DebitBalance(d, p, COGS) == (if here then Debited(c.lines, COGS) - Credited(c.lines, COGS) else 0)
  {
    hide Debit, Credit, Debited, Credited, LedgerLines;
    LedgerOfJournal(c, p, INVENTORY);
    LedgerOfJournal(c, p, OUTPUT_TAX);
    LedgerOfJournal(c, p, SALES);
    LedgerOfJournal(c, p, SALES_RETURNS);
    LedgerOfJournal(c, p, COGS);
  }

  /** A journal posted by hand keeps the books reconciled exactly when it is neutral. */
  lemma ManualJournalReconciles(b: Books, closed: set<string>, c: PostCommand)
    requires JournalPlan(b, closed, c).Succeeds() && Linked(b) && Reconciled(b)
    ensures Reconciled(ApplyAll(b, JournalPlan(b, closed, c).steps)) <==> Neutral(c.lines)
  {
    hide Apart, ReportOf, JournalPlan, LedgerLines, EntryOf, Neutral;
    JournalWrites(b, closed, c);
    var d := EMPTY.(entries := [EntryOf(c)], lines := LedgerLines(c));
    assert Apart(b, d) by { hide *; FewApart(b, d); }
    CompletedReconciles(b, JournalPlan(b, closed, c).steps, d);
    forall p
      ensures ReportOf(d, p).Passed() <==> p == c.periodId ==> Neutral(c.lines)
    {
      JournalReport(d, c, p);
    }
    assert ReportOf(d, c.periodId).Passed() <==> Neutral(c.lines);
  }

  lemma FewApart(b: Books, d: Books)
    requires d.invoices == [] && d.refunds == []
    ensures Apart(b, d)
  {
  }

  lemma JournalReport(d: Books, c: PostCommand, p: string)
    requires d.lines == LedgerLines(c) && d.movements == []
    requires d.invoices == [] && d.invoiceLines == [] && d.refunds == [] && d.refundLines == []
    ensures ReportOf(d, p).Passed() <==> (p == c.periodId ==> Neutral(c.lines))
  {
    hide Debit, Credit, Debited, Credited, LedgerLines, DebitBalance;
    LedgerReport(d, c, p);
    NoFolds(p);
  }

  // ---------------------------------------------------------------- stock movements

  lemma StockLineTotals(value: int)
    ensures var ls := StockJournalLines(value);
      && Debited(ls, INVENTORY) - Credited(ls, INVENTORY) == value
      && Debited(ls, OUTPUT_TAX) == Credited(ls, OUTPUT_TAX) == 0
      && Credited(ls, SALES) == 0 && Debited(ls, SALES_RETURNS) == 0
      && Debited(ls, COGS) == Credited(ls, COGS) == 0
  {
    hide Sum;
    var ls := StockJournalLines(value);
    assert ls == [ls[0], ls[1]];
    forall f: JournalLine -> int
      ensures Sum(ls, f) == f(ls[0]) + f(ls[1])
    {
      SumTwo(ls[0], ls[1], f);
    }
  }

  /** A stock movement through its use case, once completed, keeps the books reconciled. */
  lemma StockMovementReconciles(b: Books, closed: set<string>, allowNegative: bool, c: StockCommand)
    requires StockPlan(b, closed, allowNegative, c).Succeeds() && Linked(b) && Reconciled(b)
    ensures Reconciled(ApplyAll(b, StockPlan(b, closed, allowNegative, c).steps))
  {
    hide Linked, Apart, ReportOf, MovementPlan, JournalPlan, LedgerLines, EntryOf, MovementOf, StockJournalLines;
    var steps := StockPlan(b, closed, allowNegative, c).steps;
    var d := Domain(Written(steps));
    StockWrites(b, closed, allowNegative, c);
    PeriodOfMovement(b.movements, c);
    assert Apart(b, d) by { hide *; FewApart(b, d); }
    assert Linked(d) by { hide *; NothingLinked(d); }
    CompletedReconciles(b, steps, d);
    forall p
      ensures ReportOf(d, p).Passed()
    {
      StockReport(d, c, UsePeriod(c).value, MovementOf(b.movements, c), p);
    }
  }

  lemma PeriodOfMovement(ms: seq<Movement>, c: StockCommand)
    ensures MovementOf(ms, c).periodId == MovementPeriod(c)
  {
  }

  lemma NothingLinked(d: Books)
    requires d.invoiceLines == [] && d.refundLines == []
    ensures Linked(d)
  {
  }

  lemma StockWrites(b: Books, closed: set<string>, allowNegative: bool, c: StockCommand)
    requires StockPlan(b, closed, allowNegative, c).Succeeds()
    ensures UsePeriod(c) == Some(MovementPeriod(c))
    ensures var m := MovementOf(b.movements, c);
      var journal := StockJournal(c, MovementPeriod(c), m.valueDelta);
      Domain(Written(StockPlan(b, closed, allowNegative, c).steps)) ==
        if m.valueDelta == 0 then EMPTY.(movements := [m])
        else EMPTY.(movements := [m], entries := [EntryOf(journal)], lines := LedgerLines(journal))
  {
    hide MovementPlan, MovementOf, JournalPlan, LedgerLines, EntryOf, Written;
    var moved := MovementPlan(b, allowNegative, c);
    var m := MovementOf(b.movements, c);
    MovementWrites(b, allowNegative, c);
    if m.valueDelta != 0 {
      var b1 := ApplyAll(b, moved.steps);
      var journal := StockJournal(c, MovementPeriod(c), m.valueDelta);
      JournalWrites(b1, closed, journal);
      DomainConcat(moved.steps, JournalPlan(b1, closed, journal).steps);
    }
  }

  lemma StockReport(d: Books, c: StockCommand, periodId: string, m: Movement, p: string)
    requires d.movements == [m] && m.periodId == periodId
    requires if m.valueDelta == 0 then d.lines == [] else d.lines == LedgerLines(StockJournal(c, periodId, m.valueDelta))
    requires d.invoices == [] && d.invoiceLines == [] && d.refunds == [] && d.refundLines == []
    ensures ReportOf(d, p).Passed()
  {
    NoFolds(p);
    SumOne(m, ValueIn(p));
    if m.valueDelta == 0 {
    } else {
      LedgerReport(d, StockJournal(c, periodId, m.valueDelta), p);
      hide Sum, Debit, Credit, Debited, Credited, LedgerLines, DebitBalance;
      StockLineTotals(m.valueDelta);
    }
  }

  lemma LoneMovement(m: Movement, p: string)
    ensures ReportOf(EMPTY.(movements := [m]), p).Passed() <==> (p == m.periodId ==> m.valueDelta == 0)
  {
    NoFolds(p);
    SumOne(m, ValueIn(p));
    hide PeriodOfInvoice;
  }
}
