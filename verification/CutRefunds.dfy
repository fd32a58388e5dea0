/** Refund safety in runs with manual decisions, adjustments and automatic recoveries, every command cut
    anywhere: what a refund loses that is cut between its record and its lines. */
module CutRefunds {
  import opened Books
  import opened Accounting
  import opened Inventory
  import opened Billing
  import opened Writes
  import opened Reconciliation
  import opened SaleAgreement
  import opened ReturnAgreement
  import opened Runs
  import opened Stops
  import opened RefundSafety
  import opened Recovery
  import opened ManualRecovery
  import opened RecoveryRuns
  import Closing
  import RefundLedger

  // ---------------------------------------------------------------- the documents of a cut command

  lemma NoDocumentsCut(steps: seq<Step>, n: nat)
    requires NoDocuments(Written(steps)) && n <= |steps|
    ensures NoDocuments(Written(steps[..n]))
  {
    hide Written;
    assert steps == steps[..n] + steps[n..];
    WrittenConcat(steps[..n], steps[n..]);
  }

  predicate NoDocumentStep(s: Step) { !s.InvoiceStep? && !s.InvoiceLineStep? && !s.RefundStep? && !s.RefundLineStep? }

  lemma {:induction false} OtherSteps(steps: seq<Step>)
    requires forall i :: 0 <= i < |steps| ==> NoDocumentStep(steps[i])
    ensures NoDocuments(Written(steps))
    decreases |steps|
  {
    if steps != [] {
      OtherSteps(steps[..|steps| - 1]);
    }
  }

  /** What a refund or an invoice appends in front of its own record. */
  function RefundFront(b: Books, closed: set<string>, p: Policy, c: RefundCommand): seq<Step>
    requires PositiveRequests(c)
  {
    [WalStep(Pending(b.uuids, ReturnOp(c)))] + ReturnPosting(b, closed, p, c).steps + ReturnMoves(b, closed, p, c).steps
  }

  function InvoiceFront(b: Books, closed: set<string>, p: Policy, c: InvoiceCommand): seq<Step> {
    [WalStep(Pending(b.uuids, SaleOp(c)))] + SalePosting(b, closed, p, c).steps + SaleMoves(b, closed, p, c).steps
  }

  lemma RefundParts(b: Books, closed: set<string>, p: Policy, c: RefundCommand)
    requires RefundPlan(b, closed, p, c).Succeeds()
    ensures PositiveRequests(c)
    ensures RefundPlan(b, closed, p, c).steps == RefundFront(b, closed, p, c)
      + ([RefundStep(RefundOf(p.taxRate, b, c))] + RefundLineSteps(RefundLines(b, c)))
      + [AuditStep("billing.refund_created"), EventStep("billing.refund_completed.v1"), WalStep(Committed(b.uuids))]
    ensures NoDocuments(Written(RefundFront(b, closed, p, c)))
  {
    RefusedOrPositiveRequests(b, closed, p.taxRate, c);
    hide RefuseRefund, JournalPlan, RefundMovements, RefundJournal, RefundLines, RefundOf, ApplyAll, ReturnOp,
      PositiveRequests, Written, NoDocuments;
    var posted, moved := ReturnPosting(b, closed, p, c), ReturnMoves(b, closed, p, c);
    AnnouncementQuiet(b.uuids, ReturnOp(c));
    JournalQuiet(ReturnStart(b, c), closed, RefundJournal(p.taxRate, b, c));
    RefundMovementsQuiet(ApplyAll(ReturnStart(b, c), posted.steps), b, p.allowNegativeStock, c, 0);
    OnlyStock(Written(moved.steps));
    NoDocumentsConcat([WalStep(Pending(b.uuids, ReturnOp(c)))], posted.steps);
    NoDocumentsConcat([WalStep(Pending(b.uuids, ReturnOp(c)))] + posted.steps, moved.steps);
  }

  lemma OnlyStock(d: Books)
    ensures StockOnly(d) ==> NoDocuments(d)
  {
  }

  lemma InvoiceParts(b: Books, closed: set<string>, p: Policy, c: InvoiceCommand)
    requires InvoicePlan(b, closed, p, c).Succeeds()
    ensures PositiveQuantities(c)
    ensures InvoicePlan(b, closed, p, c).steps == InvoiceFront(b, closed, p, c)
      + ([InvoiceStep(InvoiceOf(p.taxRate, c))] + InvoiceLineSteps(InvoiceLines(b, c)))
      + [AuditStep("billing.invoice_created"), EventStep("billing.sale_completed.v1"), WalStep(Committed(b.uuids))]
    ensures NoDocuments(Written(InvoiceFront(b, closed, p, c)))
  {
    RefusedOrPositive(b, closed, p.taxRate, c);
    hide RefuseInvoice, JournalPlan, SaleMovements, SaleJournal, InvoiceLines, InvoiceOf, ApplyAll, SaleOp,
      PositiveQuantities, Written, NoDocuments;
    var posted, moved := SalePosting(b, closed, p, c), SaleMoves(b, closed, p, c);
    AnnouncementQuiet(b.uuids, SaleOp(c));
    JournalQuiet(SaleStart(b, c), closed, SaleJournal(p.taxRate, b.movements, c));
    SaleMovementsQuiet(ApplyAll(SaleStart(b, c), posted.steps), p.allowNegativeStock, c, 0);
    OnlyStock(Written(moved.steps));
    NoDocumentsConcat([WalStep(Pending(b.uuids, SaleOp(c)))], posted.steps);
    NoDocumentsConcat([WalStep(Pending(b.uuids, SaleOp(c)))] + posted.steps, moved.steps);
  }

  /** Three parts, cut anywhere. */
  lemma CutInThree(front: seq<Step>, mid: seq<Step>, last: seq<Step>, n: nat)
    requires n <= |front + mid + last|
    ensures (front + mid + last)[..n] ==
      if n <= |front| then front[..n]
      else if n <= |front| + |mid| then front + mid[..n - |front|]
      else front + mid + last[..n - |front| - |mid|]
  {
  }

  /** Of m lines behind a record that stands behind `front` appends, those that n appends reach. */
  function Reached(front: nat, m: nat, n: nat): (j: nat)
    ensures j <= m
  {
    if n <= front + 1 then 0 else if n - front - 1 <= m then n - front - 1 else m
  }

  lemma CutRefundRecord(x: Refund, ls: seq<RefundLine>, m: nat)
    requires m <= 1 + |ls|
    ensures Written(([RefundStep(x)] + RefundLineSteps(ls))[..m]) ==
      if m == 0 then EMPTY else EMPTY.(refunds := [x], refundLines := ls[..m - 1])
  {
    var all := [RefundStep(x)] + RefundLineSteps(ls);
    if m > 0 {
      RefundWritten(x);
      RefundLinesWritten(ls[..m - 1]);
      hide Written;
      assert all[..m] == [RefundStep(x)] + RefundLineSteps(ls[..m - 1]);
      WrittenConcat([RefundStep(x)], RefundLineSteps(ls[..m - 1]));
    } else {
      assert all[..m] == [];
    }
  }

  lemma CutInvoiceRecord(x: Invoice, ls: seq<InvoiceLine>, m: nat)
    requires m <= 1 + |ls|
    ensures Written(([InvoiceStep(x)] + InvoiceLineSteps(ls))[..m]) ==
      if m == 0 then EMPTY else EMPTY.(invoices := [x], invoiceLines := ls[..m - 1])
  {
    var all := [InvoiceStep(x)] + InvoiceLineSteps(ls);
    if m > 0 {
      InvoiceWritten(x);
      InvoiceLinesWritten(ls[..m - 1]);
      hide Written;
      assert all[..m] == [InvoiceStep(x)] + InvoiceLineSteps(ls[..m - 1]);
      WrittenConcat([InvoiceStep(x)], InvoiceLineSteps(ls[..m - 1]));
    } else {
      assert all[..m] == [];
    }
  }

  /** The same documents. */
  predicate SameDocuments(d: Books, e: Books) {
    d.invoices == e.invoices && d.invoiceLines == e.invoiceLines && d.refunds == e.refunds && d.refundLines == e.refundLines
  }

  /** Of three parts only the middle one writes documents. */
  lemma CutDocuments(front: seq<Step>, mid: seq<Step>, last: seq<Step>, n: nat)
    requires n <= |front + mid + last| && NoDocuments(Written(front)) && NoDocuments(Written(last))
    ensures var m := if n <= |front| then 0 else if n <= |front| + |mid| then n - |front| else |mid|;
      SameDocuments(Written((front + mid + last)[..n]), Written(mid[..m]))
  {
    CutInThree(front, mid, last, n);
    hide Written;
    if n <= |front| {
      NoDocumentsCut(front, n);
      assert mid[..0] == [];
      NoDocumentsOfNothing();
    } else if n <= |front| + |mid| {
      WrittenConcat(front, mid[..n - |front|]);
    } else {
      NoDocumentsCut(last, n - |front| - |mid|);
      WrittenConcat(front + mid, last[..n - |front| - |mid|]);
      WrittenConcat(front, mid);
      assert mid[..|mid|] == mid;
    }
  }

  lemma CutRefundAt(front: seq<Step>, x: Refund, ls: seq<RefundLine>, last: seq<Step>, n: nat)
    requires NoDocuments(Written(front)) && NoDocuments(Written(last))
    requires n <= |front + ([RefundStep(x)] + RefundLineSteps(ls)) + last|
    ensures var d := Written((front + ([RefundStep(x)] + RefundLineSteps(ls)) + last)[..n]);
      && d.invoices == [] && d.invoiceLines == [] && d.refunds == (if n <= |front| then [] else [x])
      && d.refundLines == ls[..Reached(|front|, |ls|, n)]
  {
    hide Written, NoDocuments, RefundLineSteps;
    var mid := [RefundStep(x)] + RefundLineSteps(ls);
    CutDocuments(front, mid, last, n);
    CutRefundRecord(x, ls, if n <= |front| then 0 else if n <= |front| + |mid| then n - |front| else |mid|);
  }

  lemma CutInvoiceAt(front: seq<Step>, x: Invoice, ls: seq<InvoiceLine>, last: seq<Step>, n: nat)
    requires NoDocuments(Written(front)) && NoDocuments(Written(last))
    requires n <= |front + ([InvoiceStep(x)] + InvoiceLineSteps(ls)) + last|
    ensures var d := Written((front + ([InvoiceStep(x)] + InvoiceLineSteps(ls)) + last)[..n]);
      && d.refunds == [] && d.refundLines == [] && d.invoices == (if n <= |front| then [] else [x])
      && d.invoiceLines == ls[..Reached(|front|, |ls|, n)]
  {
    hide Written, NoDocuments, InvoiceLineSteps;
    var mid := [InvoiceStep(x)] + InvoiceLineSteps(ls);
    CutDocuments(front, mid, last, n);
    CutInvoiceRecord(x, ls, if n <= |front| then 0 else if n <= |front| + |mid| then n - |front| else |mid|);
  }

  lemma EndQuiet(action: string, event: string, tid: Tid)
    ensures NoDocuments(Written([AuditStep(action), EventStep(event), WalStep(Committed(tid))]))
  {
    OtherSteps([AuditStep(action), EventStep(event), WalStep(Committed(tid))]);
  }

  lemma CutRefundFiles(b: Books, closed: set<string>, p: Policy, c: RefundCommand, n: nat)
    requires RefundPlan(b, closed, p, c).Succeeds() && n <= |RefundPlan(b, closed, p, c).steps|
    ensures PositiveRequests(c)
    ensures var d, front := Written(RefundPlan(b, closed, p, c).steps[..n]), |RefundFront(b, closed, p, c)|;
      && d.invoices == [] && d.invoiceLines == []
      && d.refunds == (if n <= front then [] else [RefundOf(p.taxRate, b, c)])
      && d.refundLines == RefundLines(b, c)[..Reached(front, |c.lines|, n)]
  {
    hide *;
    RefundParts(b, closed, p, c);
    var last := [AuditStep("billing.refund_created"), EventStep("billing.refund_completed.v1"), WalStep(Committed(b.uuids))];
    EndQuiet("billing.refund_created", "billing.refund_completed.v1", b.uuids);
    CutRefundAt(RefundFront(b, closed, p, c), RefundOf(p.taxRate, b, c), RefundLines(b, c), last, n);
  }

  lemma CutInvoiceFiles(b: Books, closed: set<string>, p: Policy, c: InvoiceCommand, n: nat)
    requires InvoicePlan(b, closed, p, c).Succeeds() && n <= |InvoicePlan(b, closed, p, c).steps|
    ensures PositiveQuantities(c)
    ensures var d, front := Written(InvoicePlan(b, closed, p, c).steps[..n]), |InvoiceFront(b, closed, p, c)|;
      && d.refunds == [] && d.refundLines == []
      && d.invoices == (if n <= front then [] else [InvoiceOf(p.taxRate, c)])
      && d.invoiceLines == InvoiceLines(b, c)[..Reached(front, |c.lines|, n)]
  {
    hide *;
    InvoiceParts(b, closed, p, c);
    var last := [AuditStep("billing.invoice_created"), EventStep("billing.sale_completed.v1"), WalStep(Committed(b.uuids))];
    EndQuiet("billing.invoice_created", "billing.sale_completed.v1", b.uuids);
    CutInvoiceAt(InvoiceFront(b, closed, p, c), InvoiceOf(p.taxRate, c), InvoiceLines(b, c), last, n);
  }

  // ---------------------------------------------------------------- a cut invoice

  lemma {:induction false} PartAtMost<T>(xs: seq<T>, f: T -> int, j: nat)
    requires j <= |xs| && forall x :: x in xs ==> f(x) >= 0
    ensures 0 <= Sum(xs[..j], f) <= Sum(xs, f)
  {
    hide Sum;
    assert xs == xs[..j] + xs[j..];
    SumConcat(xs[..j], xs[j..], f);
    SumNonNegative(xs[..j], f);
    SumNonNegative(xs[j..], f);
  }

  lemma SameStaysSafe(b: Books, d: Books, rate: int)
    requires Safe(b, rate) && NoDocuments(d)
    ensures Safe(Plus(b, d), rate)
  {
    hide Safe;
    PlusQuiet(b, d);
    SafeByFiles(b, Plus(b, d), rate);
  }

  /** The lines of an invoice that are lost only lower what can be refunded. */
  lemma CutInvoiceStaysSafe(b: Books, closed: set<string>, p: Policy, c: InvoiceCommand, n: nat)
    requires Safe(b, p.taxRate) && InvoicePlan(b, closed, p, c).Succeeds() && n <= |InvoicePlan(b, closed, p, c).steps|
    ensures Safe(ApplyAll(b, InvoicePlan(b, closed, p, c).steps[..n]), p.taxRate)
  {
    InvoiceAccepted(b, closed, p, c);
    CutInvoiceFiles(b, closed, p, c, n);
    InvoiceLineFacts(b, closed, p, c);
    hide *;
    var steps := InvoicePlan(b, closed, p, c).steps[..n];
    WritesAdd(b, steps);
    var d, front := Written(steps), |InvoiceFront(b, closed, p, c)|;
    if n <= front {
      NothingReached(front, |c.lines|, n);
      assert NoDocuments(d) by { NoneIsQuiet(d); }
      SameStaysSafe(b, d, p.taxRate);
    } else {
      Closing.NewInvoice(b, c.invoiceId);
      InvoiceIs(p.taxRate, c);
      PartInvoiceSafe(b, d, p.taxRate, c, Reached(front, |c.lines|, n));
    }
  }

  lemma NothingReached(front: nat, m: nat, n: nat)
    ensures n <= front ==> Reached(front, m, n) == 0
  {
  }

  lemma NoneIsQuiet(d: Books)
    requires |d.invoices| == |d.invoiceLines| == |d.refunds| == |d.refundLines| == 0
    ensures NoDocuments(d)
  {
  }

  lemma PartInvoiceSafe(b: Books, d: Books, rate: int, c: InvoiceCommand, j: nat)
    requires Safe(b, rate) && rate >= 0 && !KnownInvoice(b, c.invoiceId) && PositiveQuantities(c) && j <= |c.lines|
    requires d.invoices == [InvoiceOf(rate, c)] && d.invoiceLines == InvoiceLines(b, c)[..j]
    requires d.refunds == [] && d.refundLines == []
    requires forall l :: l in InvoiceLines(b, c) ==> l.invoiceId == c.invoiceId && l.quantity > 0 && l.unitPrice >= 0 && l.cogs >= 0
    requires Sum(InvoiceLines(b, c), SoldAmount(c.invoiceId)) == Subtotal(c)
    ensures Safe(Plus(b, d), rate)
  {
    InvoiceIs(rate, c);
    hide Safe, KnownInvoice, PositiveQuantities, InvoiceOf, InvoiceLines, Sum, Tax, Subtotal;
    var ls := InvoiceLines(b, c);
    forall l | l in ls
      ensures SoldAmount(c.invoiceId)(l) >= 0
    {
      ProductNonNegative(l.quantity, l.unitPrice);
    }
    PartAtMost(ls, SoldAmount(c.invoiceId), j);
    InvoiceFilesSafe(b, d, rate, InvoiceOf(rate, c));
  }

  // ---------------------------------------------------------------- a cut refund

  /** The request with its first lines only. */
  function FirstLines(c: RefundCommand, j: nat): RefundCommand
    requires j <= |c.lines|
  {
    c.(lines := c.lines[..j])
  }

  lemma FirstRefundLines(b: Books, c: RefundCommand, j: nat)
    requires PositiveRequests(c) && j <= |c.lines|
    ensures PositiveRequests(FirstLines(c, j)) && RefundLines(b, c)[..j] == RefundLines(b, FirstLines(c, j))
  {
    hide UnitCogs, BusinessUnit;
    var d := FirstLines(c, j);
    forall i | 0 <= i < j
      ensures RefundLineOf(b, c, i) == RefundLineOf(b, d, i)
    {
      assert d.lines[i] == c.lines[i];
    }
    assert RefundLines(b, c)[..j] == RefundLines(b, d);
  }

  lemma FirstRequested(c: RefundCommand, j: nat, k: LineKey)
    requires PositiveRequests(c) && j <= |c.lines|
    ensures 0 <= Requested(FirstLines(c, j), k) <= Requested(c, k)
  {
    hide Sum;
    PartAtMost(c.lines, Restrict(KeyOfRequest(), k, RequestQuantity()), j);
  }

  lemma RestOfSubtotal(c: RefundCommand, j: nat)
    requires j <= |c.lines|
    ensures RefundSubtotal(c) == RefundSubtotal(FirstLines(c, j)) + Sum(c.lines[j..], RequestAmount())
  {
    hide Sum;
    assert c.lines == c.lines[..j] + c.lines[j..];
    SumConcat(c.lines[..j], c.lines[j..], RequestAmount());
  }

  /** The refund record is written, and lines of some amount are not. */
  predicate LosesAmount(front: nat, c: RefundCommand, n: nat) {
    front < n && Sum(c.lines[Reached(front, |c.lines|, n)..], RequestAmount()) != 0
  }

  /** A refund, cut at any append, keeps the books safe exactly when it loses no amount. */
  lemma CutRefundStaysSafe(b: Books, closed: set<string>, p: Policy, c: RefundCommand, n: nat)
    requires Safe(b, p.taxRate) && RefundPlan(b, closed, p, c).Succeeds() && n <= |RefundPlan(b, closed, p, c).steps|
    ensures PositiveRequests(c)
    ensures Safe(ApplyAll(b, RefundPlan(b, closed, p, c).steps[..n]), p.taxRate) <==>
      !LosesAmount(|RefundFront(b, closed, p, c)|, c, n)
  {
    RefundAccepted(b, closed, p, c);
    RefundPrices(b, closed, p.taxRate, c);
    GuardMeaning(b, c);
    CutRefundFiles(b, closed, p, c, n);
    FreshRefund(b, c);
    var front, steps := |RefundFront(b, closed, p, c)|, RefundPlan(b, closed, p, c).steps[..n];
    assert LosesAmount(front, c, n) <==> front < n && Sum(c.lines[Reached(front, |c.lines|, n)..], RequestAmount()) != 0;
    hide *;
    WritesAdd(b, steps);
    var d := Written(steps);
    if n <= front {
      NothingReached(front, |c.lines|, n);
      assert NoDocuments(d) by { NoneIsQuiet(d); }
      SameStaysSafe(b, d, p.taxRate);
    } else {
      PartRefundSafe(b, d, p.taxRate, c, Reached(front, |c.lines|, n));
    }
  }

  lemma PartRefundSafe(b: Books, d: Books, rate: int, c: RefundCommand, j: nat)
    requires Safe(b, rate) && PositiveRequests(c) && !KnownRefund(b, c.refundId) && KnownInvoice(b, c.originalInvoiceId)
    requires forall i :: 0 <= i < |c.lines| ==> c.lines[i].quantity > 0 && c.lines[i].unitPrice >= 0
    requires forall k :: Requested(c, k) > 0 ==> Requested(c, k) <= Remaining(b, c.originalInvoiceId, k)
    requires j <= |c.lines| && d.invoices == [] && d.invoiceLines == []
    requires d.refunds == [RefundOf(rate, b, c)] && d.refundLines == RefundLines(b, c)[..j]
    ensures Safe(Plus(b, d), rate) <==> Sum(c.lines[j..], RequestAmount()) == 0
  {
    hide Safe, KnownRefund, KnownInvoice, PositiveRequests, RefundOf, RefundLines, Sum, Tax, RefundSubtotal,
      Remaining, Requested;
    RefundIs(rate, b, c);
    FirstRefundLines(b, c, j);
    RestOfSubtotal(c, j);
    var first, x := FirstLines(c, j), RefundOf(rate, b, c);
    if Sum(c.lines[j..], RequestAmount()) == 0 {
      forall k | Requested(first, k) > 0
        ensures Requested(first, k) <= Remaining(b, c.originalInvoiceId, k)
      {
        FirstRequested(c, j, k);
      }
      RefundFilesSafe(b, d, rate, first, x);
    } else {
      LostAmountUnsafe(b, d, rate, first, x);
    }
  }

  lemma LostAmountUnsafe(b: Books, d: Books, rate: int, c: RefundCommand, x: Refund)
    requires Safe(b, rate) && PositiveRequests(c) && !KnownRefund(b, c.refundId)
    requires forall i :: 0 <= i < |c.lines| ==> c.lines[i].unitPrice >= 0
    requires x.refundId == c.refundId && x.originalInvoiceId == c.originalInvoiceId && x.subtotal != RefundSubtotal(c)
    requires d.refunds == [x] && d.refundLines == RefundLines(b, c)
    ensures !Safe(Plus(b, d), rate)
  {
    hide Sum, Linked, KnownRefund, KnownInvoice, SafeLines, SafeKey, RefundLines, Tax, PositiveRequests,
      RefundSubtotal;
    var id, r := c.originalInvoiceId, Plus(b, d);
    UnitCogsNonNegative(b, id, LineKey("", 0));
    RefundLineFacts(b, c, LineKey("", 0));
    RefundFolds(b, x, RefundLines(b, c), id, LineKey("", 0));
    SumConcat(b.refunds, [x], RefundSubtotalFor(id));
    SumOne(x, RefundSubtotalFor(id));
    assert Sum(r.refunds, RefundSubtotalFor(id)) != Sum(r.refundLines, RefundedAmount(RefundsOf(r.refunds, id)));
  }

  // ---------------------------------------------------------------- runs

  /** A refund that would complete is cut so that it loses an amount. */
  predicate LosesLines(b: Books, e: RecoveryEvent) {
    && e.Working? && e.command.Return? && PlanOf(b, e.policy, e.command).Succeeds() && PositiveRequests(e.command.refund)
    && LosesAmount(|RefundFront(b, ClosedPeriods(b), e.policy, e.command.refund)|, e.command.refund, e.appends)
  }

  lemma LosesSame(front: nat, c: RefundCommand, n: nat, k: nat)
    requires n == k || (k > n && n > front + |c.lines|)
    ensures LosesAmount(front, c, n) <==> LosesAmount(front, c, k)
  {
    hide Sum;
  }

  lemma RefundLength(b: Books, closed: set<string>, p: Policy, c: RefundCommand)
    requires RefundPlan(b, closed, p, c).Succeeds()
    ensures PositiveRequests(c) && |RefundPlan(b, closed, p, c).steps| > |RefundFront(b, closed, p, c)| + |c.lines|
  {
    RefundParts(b, closed, p, c);
    hide RefundPlan, RefundFront, RefundOf, RefundLines, PositiveRequests, Written;
  }

  lemma QuietCut(b: Books, steps: seq<Step>, n: nat, rate: int)
    requires Safe(b, rate) && NoDocuments(Written(steps)) && n <= |steps|
    ensures Safe(ApplyAll(b, steps[..n]), rate)
  {
    hide *;
    NoDocumentsCut(steps, n);
    WritesAdd(b, steps[..n]);
    SameStaysSafe(b, Written(steps[..n]), rate);
  }

  lemma WorkStaysSafe(b: Books, p: Policy, cmd: Command, k: nat)
    requires Safe(b, p.taxRate)
    ensures Safe(ApplyAll(b, Cut(PlanOf(b, p, cmd).steps, k)), p.taxRate) <==> !LosesLines(b, Working(p, cmd, k))
  {
    hide Safe, InvoicePlan, RefundPlan, RegisterPlan, JournalPlan, UseCases.StockPlan, UseCases.CloseUsePlan,
      ClosedPeriods, NoDocuments, Written, ApplyAll, LosesAmount, PositiveRequests, RefundFront;
    var plan := PlanOf(b, p, cmd);
    var n := CutIsPrefix(plan.steps, k);
    if plan.error.Some? || (!cmd.Sell? && !cmd.Return?) {
      RefundLedger.QuietOrStopped(b, p, cmd);
      QuietCut(b, plan.steps, n, p.taxRate);
    } else if cmd.Sell? {
      CutInvoiceStaysSafe(b, ClosedPeriods(b), p, cmd.invoice, n);
    } else {
      CutRefundStaysSafe(b, ClosedPeriods(b), p, cmd.refund, n);
      RefundLength(b, ClosedPeriods(b), p, cmd.refund);
      LosesSame(|RefundFront(b, ClosedPeriods(b), p, cmd.refund)|, cmd.refund, n, k);
    }
  }

  lemma ManualStaysSafe(b: Books, e: RecoveryEvent, rate: int)
    requires Safe(b, rate) && (e.Reconciling? || e.Resolving?)
    ensures Safe(ApplyAll(b, StepsOf(b, e)), rate)
  {
    hide Safe, RefuseReconcile, ResolvePlan, JournalPlan, ClosedPeriods, NoDocuments, Written, ApplyAll, Cut;
    match e {
      case Reconciling(c, k) =>
        var steps := ReconcilePlan(b, c).steps;
        var n := CutIsPrefix(steps, k);
        OtherSteps(steps);
        QuietCut(b, steps, n, rate);
      case Resolving(c, k) =>
        var steps := ResolvePlan(b, c).steps;
        var n := CutIsPrefix(steps, k);
        ResolveQuiet(b, c);
        QuietCut(b, steps, n, rate);
    }
  }

  lemma ResolveQuiet(b: Books, c: ResolveCommand)
    ensures NoDocuments(Written(ResolvePlan(b, c).steps))
  {
    hide JournalPlan, ClosedPeriods, NoDocuments, Written, ResolvePlan, Conclusion;
    if ResolvePlan(b, c).steps == [] {
      NoDocumentsOfNothing();
    } else {
      ResolveSteps(b, c);
      JournalQuiet(b, ClosedPeriods(b), c.journal);
      var end := Conclusion(AdjustmentOf(c), "recovery.accounting_adjustment_resolved", "recovery.reconciliation_recorded.v1");
      ConclusionQuiet(AdjustmentOf(c), "recovery.accounting_adjustment_resolved", "recovery.reconciliation_recorded.v1");
      NoDocumentsConcat(JournalPlan(b, ClosedPeriods(b), c.journal).steps, end);
    }
  }

  lemma ConclusionQuiet(x: RecoveryRecord, action: string, event: string)
    ensures NoDocuments(Written(Conclusion(x, action, event)))
  {
    OtherSteps(Conclusion(x, action, event));
  }

  lemma RestartStaysSafe(b: Books, missing: bool, rate: int)
    requires Safe(b, rate)
    ensures Safe(RecoverOf(b, missing).books, rate)
  {
    RecoveryOnlyDropsPending(b, missing);
    hide Safe, RecoverOf, AnyUnsafe;
    SafeByFiles(b, RecoverOf(b, missing).books, rate);
  }

  predicate AtRate(rate: int, e: RecoveryEvent) { e.Working? ==> e.policy.taxRate == rate }

  lemma EventStaysSafe(b: Books, e: RecoveryEvent, rate: int)
    requires Safe(b, rate) && AtRate(rate, e)
    ensures Safe(AfterRecovery(b, e), rate) <==> !LosesLines(b, e)
  {
    hide Safe, RecoverOf, ApplyAll, LosesAmount, PlanOf, ReconcilePlan, ResolvePlan, Cut, RefundFront,
      PositiveRequests;
    match e {
      case Working(p, cmd, k) => WorkStaysSafe(b, p, cmd, k);
      case Recovering(missing) => RestartStaysSafe(b, missing, rate);
      case _ => ManualStaysSafe(b, e, rate);
    }
  }

  ghost predicate AlwaysSafe(rate: int, es: seq<RecoveryEvent>) {
    forall k :: 0 <= k <= |es| ==> Safe(RecoveryRun(EMPTY, es[..k]), rate)
  }

  ghost predicate NothingLost(es: seq<RecoveryEvent>) {
    forall k :: 0 <= k < |es| ==> !LosesLines(RecoveryRun(EMPTY, es[..k]), es[k])
  }

  lemma LongerSafe(rate: int, es: seq<RecoveryEvent>)
    requires es != []
    ensures var n := |es| - 1;
      && (AlwaysSafe(rate, es) <==> AlwaysSafe(rate, es[..n]) && Safe(RecoveryRun(EMPTY, es), rate))
      && (AlwaysSafe(rate, es[..n]) ==> Safe(RecoveryRun(EMPTY, es[..n]), rate))
  {
    hide Safe, RecoveryRun;
    var n := |es| - 1;
    assert es[..|es|] == es && es[..n][..n] == es[..n];
    assert forall k :: 0 <= k <= n ==> es[..n][..k] == es[..k];
  }

  lemma LongerKept(es: seq<RecoveryEvent>)
    requires es != []
    ensures var n := |es| - 1; NothingLost(es) <==> NothingLost(es[..n]) && !LosesLines(RecoveryRun(EMPTY, es[..n]), es[n])
  {
    hide LosesLines, RecoveryRun;
    var n := |es| - 1;
    assert forall k :: 0 <= k < n ==> es[..n][..k] == es[..k];
  }

  lemma LastEvent(es: seq<RecoveryEvent>)
    requires es != []
    ensures RecoveryRun(EMPTY, es) == AfterRecovery(RecoveryRun(EMPTY, es[..|es| - 1]), es[|es| - 1])
  {
    hide AfterRecovery;
  }

  /** In every run of commands, decisions, adjustments and automatic recoveries, each cut at any append: the
      books stay safe throughout the run exactly when no refund is cut behind its own record and in front of
      lines of some amount. */
  lemma {:induction false} CutRunsAreSafe(rate: int, es: seq<RecoveryEvent>)
    requires forall k :: 0 <= k < |es| ==> AtRate(rate, es[k])
    ensures AlwaysSafe(rate, es) <==> NothingLost(es)
  {
    hide *;
    if es == [] {
      EmptySafe(rate, es);
    } else {
      var n := |es| - 1;
      CutRunsAreSafe(rate, es[..n]);
      LongerSafe(rate, es);
      LongerKept(es);
      LastEvent(es);
      if AlwaysSafe(rate, es[..n]) {
        EventStaysSafe(RecoveryRun(EMPTY, es[..n]), es[n], rate);
      }
    }
  }

  lemma EmptySafe(rate: int, es: seq<RecoveryEvent>)
    requires es == []
    ensures AlwaysSafe(rate, es) && NothingLost(es)
  {
    hide LosesLines, Safe;
    NothingSafe(Policy(rate, false), []);
  }

  /** Then the refunds of every invoice stay within it, in quantity, cost and money. */
  lemma CutRunWithinInvoice(rate: int, es: seq<RecoveryEvent>, x: Invoice, k: LineKey)
    requires (forall i :: 0 <= i < |es| ==> AtRate(rate, es[i])) && NothingLost(es)
    requires x in RecoveryRun(EMPTY, es).invoices
    ensures var b, id := RecoveryRun(EMPTY, es), x.invoiceId;
      && Refunded(b, id, k) <= Sold(b, id, k) && Restored(b, id, k) <= SoldCost(b, id, k)
      && Sum(b.refunds, RefundTotalFor(id)) <= x.total
  {
    hide *;
    CutRunsAreSafe(rate, es);
    SafeAtEnd(rate, es);
    WithinInvoice(RecoveryRun(EMPTY, es), rate, x.invoiceId, k);
    MoneyWithin(RecoveryRun(EMPTY, es), rate, x);
  }

  lemma SafeAtEnd(rate: int, es: seq<RecoveryEvent>)
    requires AlwaysSafe(rate, es)
    ensures Safe(RecoveryRun(EMPTY, es), rate)
  {
    hide Safe, RecoveryRun;
    assert es[..|es|] == es;
  }

  // ---------------------------------------------------------------- the same refund twice

  /** Decisions, adjustments and restarts only. */
  predicate WithoutWork(es: seq<RecoveryEvent>) { forall i :: 0 <= i < |es| ==> !es[i].Working? }

  lemma ManualWrites(b: Books, e: RecoveryEvent)
    requires e.Reconciling? || e.Resolving?
    ensures NoDocuments(Written(StepsOf(b, e)))
  {
    hide RefuseReconcile, ResolvePlan, JournalPlan, NoDocuments, Written, Cut;
    match e {
      case Reconciling(c, k) =>
        var n := CutIsPrefix(ReconcilePlan(b, c).steps, k);
        OtherSteps(ReconcilePlan(b, c).steps);
        NoDocumentsCut(ReconcilePlan(b, c).steps, n);
      case Resolving(c, k) =>
        var n := CutIsPrefix(ResolvePlan(b, c).steps, k);
        ResolveQuiet(b, c);
        NoDocumentsCut(ResolvePlan(b, c).steps, n);
    }
  }

  lemma {:induction false} ManualKeepsDocuments(b: Books, es: seq<RecoveryEvent>)
    requires WithoutWork(es)
    ensures SameDocuments(RecoveryRun(b, es), b)
  {
    hide StepsOf, RecoverOf, Written, ApplyAll;
    if es != [] {
      var n := |es| - 1;
      ManualKeepsDocuments(b, es[..n]);
      var r, e := RecoveryRun(b, es[..n]), es[n];
      if e.Recovering? {
        RecoveryOnlyDropsPending(r, e.missing);
      } else {
        ManualWrites(r, e);
        WritesAdd(r, StepsOf(r, e));
      }
    }
  }

  lemma RemainingByFiles(a: Books, b: Books, id: string, k: LineKey)
    requires SameDocuments(a, b)
    ensures Remaining(a, id, k) == Remaining(b, id, k)
  {
    hide Sum, RefundsOf;
  }

  /** A refund cut right behind its record, and what follows. */
  function AfterRecord(b: Books, p: Policy, c: RefundCommand, es: seq<RecoveryEvent>): Books
    requires PositiveRequests(c)
  {
    var n := |RefundFront(b, ClosedPeriods(b), p, c)| + 1;
    RecoveryRun(ApplyAll(b, Cut(PlanOf(b, p, Return(c)).steps, n)), es)
  }

  lemma AfterRecordIs(b: Books, p: Policy, c: RefundCommand, es: seq<RecoveryEvent>)
    requires PlanOf(b, p, Return(c)).Succeeds()
    ensures PositiveRequests(c) && RefundPlan(b, ClosedPeriods(b), p, c).Succeeds()
    ensures var steps, n := RefundPlan(b, ClosedPeriods(b), p, c).steps, |RefundFront(b, ClosedPeriods(b), p, c)| + 1;
      n <= |steps| && AfterRecord(b, p, c, es) == RecoveryRun(ApplyAll(b, steps[..n]), es)
  {
    hide RefundPlan, RefundFront, ClosedPeriods, PositiveRequests, RecoveryRun, ApplyAll;
    RefundLength(b, ClosedPeriods(b), p, c);
  }

  lemma RecordWritten(b: Books, closed: set<string>, p: Policy, c: RefundCommand)
    requires RefundPlan(b, closed, p, c).Succeeds()
    ensures PositiveRequests(c) && |RefundFront(b, closed, p, c)| < |RefundPlan(b, closed, p, c).steps|
    ensures var r := ApplyAll(b, RefundPlan(b, closed, p, c).steps[..|RefundFront(b, closed, p, c)| + 1]);
      && r.refunds == b.refunds + [RefundOf(p.taxRate, b, c)] && r.refundLines == b.refundLines
      && r.invoiceLines == b.invoiceLines
  {
    hide RefundPlan, RefundFront, Written, RefundOf, RefundLines, PositiveRequests;
    RefundLength(b, closed, p, c);
    var n := |RefundFront(b, closed, p, c)| + 1;
    CutRefundFiles(b, closed, p, c, n);
    WritesAdd(b, RefundPlan(b, closed, p, c).steps[..n]);
  }

  /** Whatever is decided afterwards: the refund's money is counted, and for every item at every price as
      much remains as before. */
  lemma CutRefundUnseen(b: Books, p: Policy, c: RefundCommand, es: seq<RecoveryEvent>, k: LineKey)
    requires Safe(b, p.taxRate) && PlanOf(b, p, Return(c)).Succeeds() && PositiveRequests(c) && WithoutWork(es)
    ensures var x := AfterRecord(b, p, c, es);
      && x.refunds == b.refunds + [RefundOf(p.taxRate, b, c)] && x.invoiceLines == b.invoiceLines
      && Remaining(x, c.originalInvoiceId, k) == Remaining(b, c.originalInvoiceId, k)
  {
    hide *;
    var closed, x := ClosedPeriods(b), RefundOf(p.taxRate, b, c);
    AfterRecordIs(b, p, c, es);
    RecordWritten(b, closed, p, c);
    var cut := ApplyAll(b, RefundPlan(b, closed, p, c).steps[..|RefundFront(b, closed, p, c)| + 1]);
    ManualKeepsDocuments(cut, es);
    DocumentsAre(RecoveryRun(cut, es), cut);
    RemainingByFiles(RecoveryRun(cut, es), cut, c.originalInvoiceId, k);
    RefundAccepted(b, closed, p, c);
    FreshRefund(b, c);
    RefundIs(p.taxRate, b, c);
    RecordAlone(b, cut, p.taxRate, x, k);
  }

  lemma DocumentsAre(a: Books, b: Books)
    requires SameDocuments(a, b)
    ensures a.refunds == b.refunds && a.invoiceLines == b.invoiceLines
  {
  }

  lemma RecordAlone(b: Books, r: Books, rate: int, x: Refund, k: LineKey)
    requires Safe(b, rate) && !KnownRefund(b, x.refundId)
    requires r.refunds == b.refunds + [x] && r.refundLines == b.refundLines && r.invoiceLines == b.invoiceLines
    ensures Remaining(r, x.originalInvoiceId, k) == Remaining(b, x.originalInvoiceId, k)
  {
    hide Sum, Linked, SafeLines, SafeAmounts, SafeKey, KnownRefund;
    RefundFolds(b, x, [], x.originalInvoiceId, k);
    assert b.refundLines + [] == b.refundLines;
    NoRefunded(x.refundId, k);
  }

  lemma NoRefunded(id: string, k: LineKey)
    ensures Sum<RefundLine>([], RefundedOf({id}, k)) == 0
  {
  }

  lemma SameRequested(c: RefundCommand, again: RefundCommand)
    requires again.lines == c.lines
    ensures PositiveRequests(again) == PositiveRequests(c) && RefundSubtotal(again) == RefundSubtotal(c)
    ensures forall k :: Requested(again, k) == Requested(c, k)
  {
    hide Sum;
  }

  lemma CompletedRefundFiles(b: Books, p: Policy, c: RefundCommand)
    requires PlanOf(b, p, Return(c)).Succeeds()
    ensures Exec(b, p, Return(c)).refunds == b.refunds + [RefundOf(p.taxRate, b, c)]
  {
    ExecIs(b, p, Return(c));
    RefundLedger.RefundFiles(b, p, c);
    hide PlanOf, Written, RefundOf, RefundLines, PositiveRequests, KnownRefund;
    WritesAdd(b, PlanOf(b, p, Return(c)).steps);
  }

  lemma TotalsAdd(xs: seq<Refund>, x: Refund, id: string)
    requires x.originalInvoiceId == id
    ensures Sum(xs + [x], RefundTotalFor(id)) == Sum(xs, RefundTotalFor(id)) + x.total
  {
    hide Sum;
    SumConcat(xs, [x], RefundTotalFor(id));
    SumOne(x, RefundTotalFor(id));
  }

  lemma SameGuard(b: Books, x: Books, c: RefundCommand, again: RefundCommand)
    requires PositiveRequests(c) && GuardError(b, c).None? && x.invoiceLines == b.invoiceLines
    requires forall k :: Remaining(x, c.originalInvoiceId, k) == Remaining(b, c.originalInvoiceId, k)
    requires again.originalInvoiceId == c.originalInvoiceId && again.lines == c.lines
    ensures GuardError(x, again).None?
  {
    hide *;
    SameRequested(c, again);
    GuardMeaning(b, c);
    GuardMeaning(x, again);
  }

  lemma BothTotals(b: Books, x: Books, p: Policy, c: RefundCommand, again: RefundCommand)
    requires x.refunds == b.refunds + [RefundOf(p.taxRate, b, c)] && PlanOf(x, p, Return(again)).Succeeds()
    requires again.originalInvoiceId == c.originalInvoiceId && again.lines == c.lines
    ensures Sum(Exec(x, p, Return(again)).refunds, RefundTotalFor(c.originalInvoiceId)) ==
      Sum(b.refunds, RefundTotalFor(c.originalInvoiceId)) + 2 * RefundOf(p.taxRate, b, c).total
  {
    hide *;
    RefundIs(p.taxRate, b, c);
    RefundIs(p.taxRate, x, again);
    SameRequested(c, again);
    CompletedRefundFiles(x, p, again);
    TotalsAdd(b.refunds, RefundOf(p.taxRate, b, c), c.originalInvoiceId);
    TotalsAdd(x.refunds, RefundOf(p.taxRate, x, again), c.originalInvoiceId);
  }

  /** So the guard accepts the same request again, and when it completes the invoice has paid it twice. */
  lemma RefundedTwice(b: Books, p: Policy, c: RefundCommand, es: seq<RecoveryEvent>, again: RefundCommand)
    requires Safe(b, p.taxRate) && PlanOf(b, p, Return(c)).Succeeds() && PositiveRequests(c) && WithoutWork(es)
    requires again.originalInvoiceId == c.originalInvoiceId && again.lines == c.lines
    ensures var x := AfterRecord(b, p, c, es);
      && GuardError(x, again).None?
      && (PlanOf(x, p, Return(again)).Succeeds() ==>
            Sum(Exec(x, p, Return(again)).refunds, RefundTotalFor(c.originalInvoiceId)) ==
              Sum(b.refunds, RefundTotalFor(c.originalInvoiceId)) + 2 * RefundOf(p.taxRate, b, c).total)
  {
    Accepted(b, p, c);
    hide *;
    var x := AfterRecord(b, p, c, es);
    CutRefundUnseen(b, p, c, es, LineKey("", 0));
    forall k
      ensures Remaining(x, c.originalInvoiceId, k) == Remaining(b, c.originalInvoiceId, k)
    {
      CutRefundUnseen(b, p, c, es, k);
    }
    SameGuard(b, x, c, again);
    if PlanOf(x, p, Return(again)).Succeeds() {
      BothTotals(b, x, p, c, again);
    }
  }

  lemma Accepted(b: Books, p: Policy, c: RefundCommand)
    requires PlanOf(b, p, Return(c)).Succeeds()
    ensures GuardError(b, c).None?
  {
    hide RefundPlan, ClosedPeriods;
    RefundAccepted(b, ClosedPeriods(b), p, c);
  }
}
