/** Refunds against their invoice in the ledger: what journals of refunds credit to the cost of goods sold,
    those of refunds that stopped behind their journal included. */
module RefundLedger {
  import opened Books
  import opened Accounting
  import opened Inventory
  import opened Billing
  import opened Writes
  import opened Reconciliation
  import opened Agreement
  import opened SaleAgreement
  import opened ReturnAgreement
  import opened Runs
  import opened Stops
  import opened RefundSafety
  import opened Outcomes

  // ---------------------------------------------------------------- the cost of goods sold in ledger and documents

  function CogsDebit(): LedgerLine -> int { (l: LedgerLine) => if l.account == COGS then l.debit else 0 }

  function CogsCredit(): LedgerLine -> int { (l: LedgerLine) => if l.account == COGS then l.credit else 0 }

  /** What the ledger lines of the command credit, when it refunds the invoice. */
  function CreditedBy(b: Books, p: Policy, cmd: Command, id: string): int {
    if cmd.Return? && cmd.refund.originalInvoiceId == id then Sum(Written(PlanOf(b, p, cmd).steps).lines, CogsCredit()) else 0
  }

  /** What the ledger lines of the command debit, when it completes the invoice. */
  function PostedBy(b: Books, p: Policy, cmd: Command, id: string): int {
    if cmd.Sell? && cmd.invoice.invoiceId == id && Completes(b, p, cmd)
      then Sum(Written(PlanOf(b, p, cmd).steps).lines, CogsDebit()) else 0
  }

  /** The cost a refund of the invoice restores when it stops behind its journal. */
  function StrandedBy(b: Books, p: Policy, cmd: Command, id: string): int {
    if cmd.Return? && cmd.refund.originalInvoiceId == id && Strands(b, p, cmd) then RestoredOf(b, cmd.refund) else 0
  }

  function OverRun(p: Policy, cmds: seq<Command>, id: string, f: (Books, Policy, Command, string) -> int): int {
    if cmds == [] then 0 else
    var n := |cmds| - 1;
    OverRun(p, cmds[..n], id, f) + f(Run(EMPTY, p, cmds[..n]), p, cmds[n], id)
  }

  function LineCostFor(id: string): InvoiceLine -> int { (l: InvoiceLine) => if l.invoiceId == id then l.cogs else 0 }

  function RefundCostFor(ids: set<string>): RefundLine -> int { (l: RefundLine) => if l.refundId in ids then l.cogs else 0 }

  function SoldTotal(b: Books, id: string): int { Sum(b.invoiceLines, LineCostFor(id)) }

  function RestoredTotal(b: Books, id: string): int { Sum(b.refundLines, RefundCostFor(RefundsOf(b.refunds, id))) }

  // ---------------------------------------------------------------- one command

  lemma JournalCogs(c: PostCommand)
    ensures Sum(LedgerLines(c), CogsDebit()) == Debited(c.lines, COGS)
    ensures Sum(LedgerLines(c), CogsCredit()) == Credited(c.lines, COGS)
  {
    hide Sum;
    SumPointwise(LedgerLines(c), CogsDebit(), c.lines, DebitTo(COGS));
    SumPointwise(LedgerLines(c), CogsCredit(), c.lines, CreditTo(COGS));
  }

  lemma SaleCogs(rate: int, ms: seq<Movement>, c: InvoiceCommand)
    ensures Sum(LedgerLines(SaleJournal(rate, ms, c)), CogsDebit()) == CogsOf(ms, c)
  {
    JournalCogs(SaleJournal(rate, ms, c));
    SaleLineTotals(c.currency, Subtotal(c), Tax(Subtotal(c), rate), CogsOf(ms, c));
    hide Sum, LedgerLines, Debited, LineCosts, SaleLines, Tax;
  }

  lemma RefundCogs(rate: int, b: Books, c: RefundCommand)
    ensures Sum(LedgerLines(RefundJournal(rate, b, c)), CogsCredit()) == RestoredOf(b, c)
  {
    JournalCogs(RefundJournal(rate, b, c));
    RefundLineTotals(c.currency, RefundSubtotal(c), Tax(RefundSubtotal(c), rate), RestoredOf(b, c));
    hide Sum, LedgerLines, Credited, RestoredCosts, RefundJournalLines, Tax;
  }

  lemma InvoiceLineCosts(b: Books, c: InvoiceCommand, id: string)
    requires PositiveQuantities(c)
    ensures Sum(InvoiceLines(b, c), LineCostFor(id)) == if id == c.invoiceId then CogsOf(b.movements, c) else 0
  {
    hide Sum, AverageCost;
    var ls := InvoiceLines(b, c);
    if id == c.invoiceId {
      SumPointwise(ls, LineCostFor(id), LineCosts(b.movements, c.lines), Id());
    } else {
      forall l | l in ls
        ensures l.invoiceId == c.invoiceId
      {
        var i :| 0 <= i < |ls| && ls[i] == l;
        assert l == InvoiceLineOf(b, c, i);
      }
      SumZero(ls, LineCostFor(id));
    }
  }

  lemma RefundLineCosts(b: Books, c: RefundCommand)
    requires PositiveRequests(c)
    ensures Sum(RefundLines(b, c), RefundCostFor({c.refundId})) == RestoredOf(b, c)
    ensures forall l :: l in RefundLines(b, c) ==> l.refundId == c.refundId
  {
    hide Sum, RestoredCost;
    var ls := RefundLines(b, c);
    SumPointwise(ls, RefundCostFor({c.refundId}), RestoredCosts(b, c), Id());
    forall l | l in ls
      ensures l.refundId == c.refundId
    {
      var i :| 0 <= i < |ls| && ls[i] == l;
      assert l == RefundLineOf(b, c, i);
    }
  }

  /** A refund credits what it restores, whether it completes or stops behind its journal. */
  lemma RefundCredits(b: Books, p: Policy, c: RefundCommand)
    ensures Sum(Written(PlanOf(b, p, Return(c)).steps).lines, CogsCredit()) ==
      if Completes(b, p, Return(c)) || Strands(b, p, Return(c)) then RestoredOf(b, c) else 0
  {
    var cmd, closed := Return(c), ClosedPeriods(b);
    CompletesExactly(b, p, cmd);
    RefundCogs(p.taxRate, b, c);
    var d := Written(PlanOf(b, p, cmd).steps);
    SameFiles(d);
    hide RefundPlan, ClosedPeriods, Written, Sum, RefundJournal, LedgerLines, RestoredOf, RefuseRefund, ReturnFits,
      ReturnPosts, EntryOf, RestockedMovements, RefundLines, RefundOf, PositiveRequests;
    if Completes(b, p, cmd) {
      RefundWrites(b, closed, p, c);
    } else if RefuseRefund(b, closed, p.taxRate, c).None? {
      StoppedReturn(b, closed, p, c);
      NoCredit(d);
    } else {
      ReturnRefused(b, closed, p, c);
      NothingDomain();
      NoCredit(d);
    }
  }

  lemma NoCredit(d: Books)
    ensures Domain(d) == EMPTY ==> Sum(d.lines, CogsCredit()) == 0
  {
  }

  lemma SaleDebits(b: Books, p: Policy, c: InvoiceCommand)
    requires Completes(b, p, Sell(c))
    ensures Sum(Written(PlanOf(b, p, Sell(c)).steps).lines, CogsDebit()) == CogsOf(b.movements, c)
  {
    CompletesExactly(b, p, Sell(c));
    SaleCogs(p.taxRate, b.movements, c);
    SameFiles(Written(PlanOf(b, p, Sell(c)).steps));
    hide InvoicePlan, ClosedPeriods, Written, Sum, SaleJournal, LedgerLines, CogsOf, EntryOf, SoldMovements,
      InvoiceLines, InvoiceOf, PositiveQuantities;
    InvoiceWrites(b, ClosedPeriods(b), p, c);
  }

  lemma SoldTotalGrows(b: Books, p: Policy, cmd: Command, id: string)
    ensures SoldTotal(Exec(b, p, cmd), id) == SoldTotal(b, id) + PostedBy(b, p, cmd, id)
  {
    CompletesExactly(b, p, cmd);
    ExecIs(b, p, cmd);
    var steps := PlanOf(b, p, cmd).steps;
    hide PlanOf, Written, Sum, Completes, InvoiceLines, PositiveQuantities, SoldMovements, SaleJournal, EntryOf,
      LedgerLines, InvoiceOf, ClosedPeriods, CogsOf;
    WritesAdd(b, steps);
    SumConcat(b.invoiceLines, Written(steps).invoiceLines, LineCostFor(id));
    SameFiles(Written(steps));
    if Completes(b, p, cmd) && cmd.Sell? {
      var c := cmd.invoice;
      SaleDebits(b, p, c);
      SoldFiles(b, p, c);
      InvoiceLineCosts(b, c, id);
    } else {
      if cmd.Return? {
        ReturnSellsNothing(b, p, cmd);
      } else {
        QuietOrStopped(b, p, cmd);
      }
      NoLineCosts(id);
    }
  }

  lemma SoldFiles(b: Books, p: Policy, c: InvoiceCommand)
    requires PlanOf(b, p, Sell(c)).Succeeds()
    ensures PositiveQuantities(c) && Written(PlanOf(b, p, Sell(c)).steps).invoiceLines == InvoiceLines(b, c)
  {
    SameFiles(Written(PlanOf(b, p, Sell(c)).steps));
    hide InvoicePlan, ClosedPeriods, Written, SaleJournal, LedgerLines, EntryOf, SoldMovements, InvoiceLines,
      InvoiceOf, PositiveQuantities;
    InvoiceWrites(b, ClosedPeriods(b), p, c);
  }

  lemma ReturnSellsNothing(b: Books, p: Policy, cmd: Command)
    requires cmd.Return?
    ensures Written(PlanOf(b, p, cmd).steps).invoiceLines == []
  {
    SameFiles(Written(PlanOf(b, p, cmd).steps));
    if PlanOf(b, p, cmd).Succeeds() {
      hide RefundPlan, ClosedPeriods, Written, RefundJournal, LedgerLines, EntryOf, RestockedMovements, RefundLines,
        RefundOf, PositiveRequests;
      RefundWrites(b, ClosedPeriods(b), p, cmd.refund);
    } else {
      hide PlanOf, Written;
      StoppedQuiet(b, p, cmd);
    }
  }

  lemma QuietOrStopped(b: Books, p: Policy, cmd: Command)
    requires PlanOf(b, p, cmd).error.Some? || (!cmd.Sell? && !cmd.Return?)
    ensures NoDocuments(Written(PlanOf(b, p, cmd).steps))
  {
    hide PlanOf, Written, NoDocuments;
    if PlanOf(b, p, cmd).error.Some? {
      StoppedQuiet(b, p, cmd);
    } else {
      QuietFiles(b, p, cmd);
    }
  }

  lemma NoLineCosts(id: string)
    ensures Sum<InvoiceLine>([], LineCostFor(id)) == 0
  {
  }

  lemma RestoredTotalGrows(b: Books, p: Policy, cmd: Command, id: string)
    requires Safe(b, p.taxRate)
    ensures RestoredTotal(Exec(b, p, cmd), id) == RestoredTotal(b, id)
      + if cmd.Return? && cmd.refund.originalInvoiceId == id && Completes(b, p, cmd) then RestoredOf(b, cmd.refund) else 0
  {
    CompletesExactly(b, p, cmd);
    ExecIs(b, p, cmd);
    var steps := PlanOf(b, p, cmd).steps;
    hide PlanOf, Written, Sum, Completes, RefundLines, PositiveRequests, RefundOf, Safe, RefundsOf, NoDocuments,
      RestoredOf;
    WritesAdd(b, steps);
    if Completes(b, p, cmd) && cmd.Return? {
      var c := cmd.refund;
      RefundFiles(b, p, c);
      RefundLineCosts(b, c);
      RefundOfIds(p.taxRate, b, c);
      RestoredFolds(b, p, RefundOf(p.taxRate, b, c), RefundLines(b, c), id);
    } else {
      if cmd.Sell? {
        SaleRefundsNothing(b, p, cmd);
      } else {
        QuietOrStopped(b, p, cmd);
        QuietIs(Written(steps));
      }
      assert Exec(b, p, cmd).refundLines == b.refundLines && Exec(b, p, cmd).refunds == b.refunds;
    }
  }

  lemma QuietIs(d: Books)
    requires NoDocuments(d)
    ensures d.refunds == [] && d.refundLines == []
  {
  }

  lemma RefundOfIds(rate: int, b: Books, c: RefundCommand)
    ensures RefundOf(rate, b, c).refundId == c.refundId && RefundOf(rate, b, c).originalInvoiceId == c.originalInvoiceId
  {
    hide RestoredCosts, Tax, RefundMovementIds;
  }

  lemma RefundFiles(b: Books, p: Policy, c: RefundCommand)
    requires PlanOf(b, p, Return(c)).Succeeds()
    ensures PositiveRequests(c) && !KnownRefund(b, c.refundId)
    ensures var d := Written(PlanOf(b, p, Return(c)).steps);
      d.refundLines == RefundLines(b, c) && d.refunds == [RefundOf(p.taxRate, b, c)]
  {
    SameFiles(Written(PlanOf(b, p, Return(c)).steps));
    hide RefundPlan, ClosedPeriods, Written, RefundJournal, LedgerLines, EntryOf, RestockedMovements, RefundLines,
      RefundOf, PositiveRequests, HasRefund, KnownRefund, GuardError;
    RefundAccepted(b, ClosedPeriods(b), p, c);
    FreshRefund(b, c);
    RefundWrites(b, ClosedPeriods(b), p, c);
  }

  lemma SaleRefundsNothing(b: Books, p: Policy, cmd: Command)
    requires cmd.Sell?
    ensures var d := Written(PlanOf(b, p, cmd).steps); d.refunds == [] && d.refundLines == []
  {
    SameFiles(Written(PlanOf(b, p, cmd).steps));
    if PlanOf(b, p, cmd).Succeeds() {
      hide InvoicePlan, ClosedPeriods, Written, SaleJournal, LedgerLines, EntryOf, SoldMovements, InvoiceLines,
        InvoiceOf, PositiveQuantities;
      InvoiceWrites(b, ClosedPeriods(b), p, cmd.invoice);
    } else {
      hide PlanOf, Written;
      StoppedQuiet(b, p, cmd);
    }
  }

  lemma RestoredFolds(b: Books, p: Policy, x: Refund, ls: seq<RefundLine>, id: string)
    requires Safe(b, p.taxRate) && !KnownRefund(b, x.refundId) && forall l :: l in ls ==> l.refundId == x.refundId
    ensures Sum(b.refundLines + ls, RefundCostFor(RefundsOf(b.refunds + [x], id))) ==
      RestoredTotal(b, id) + if id == x.originalInvoiceId then Sum(ls, RefundCostFor({x.refundId})) else 0
  {
    hide Sum, Linked, SafeLines, SafeAmounts, SafeKey, KnownRefund;
    RefundIds(b, x, id);
    var ids, all := RefundsOf(b.refunds, id), RefundsOf(b.refunds + [x], id);
    hide RefundsOf;
    RefundFoldsBy(b.refundLines, ls, all, ids, x.refundId, RefundCostFor(all), RefundCostFor(ids), RefundCostFor({x.refundId}));
  }

  // ---------------------------------------------------------------- the documents

  lemma {:induction false} CostsPerKey(b: Books, id: string, keys: seq<LineKey>)
    requires forall k :: k in keys ==> Restored(b, id, k) <= SoldCost(b, id, k)
    ensures SumPerKey(b.refundLines, keys, KeyOfRefundLine(), RefundCostFor(RefundsOf(b.refunds, id)))
         <= SumPerKey(b.invoiceLines, keys, KeyOfLine(), LineCostFor(id))
  {
    hide Sum, RefundsOf;
    if keys != [] {
      var n := |keys| - 1;
      var k, ids := keys[n], RefundsOf(b.refunds, id);
      assert k in keys && forall x :: x in keys[..n] ==> x in keys;
      CostsPerKey(b, id, keys[..n]);
      SumSame(b.refundLines, Restrict(KeyOfRefundLine(), k, RefundCostFor(ids)), RestoredFor(ids, k));
      SumSame(b.invoiceLines, Restrict(KeyOfLine(), k, LineCostFor(id)), CostOf(id, k));
    }
  }

  lemma RestoredWithinSold(b: Books, rate: int, id: string)
    requires Safe(b, rate)
    ensures RestoredTotal(b, id) <= SoldTotal(b, id)
  {
    hide Sum, Linked, SafeLines, RefundsOf, AllKeys, SafeAmounts, SafeKey;
    AllKeysCover(b);
    forall k
      ensures Restored(b, id, k) <= SoldCost(b, id, k)
    {
      WithinInvoice(b, rate, id, k);
    }
    CostsPerKey(b, id, AllKeys(b));
    PartitionSum(b.refundLines, AllKeys(b), KeyOfRefundLine(), RefundCostFor(RefundsOf(b.refunds, id)));
    PartitionSum(b.invoiceLines, AllKeys(b), KeyOfLine(), LineCostFor(id));
  }

  // ---------------------------------------------------------------- runs

  lemma OverRunUnfolds(p: Policy, cmds: seq<Command>, id: string, f: (Books, Policy, Command, string) -> int)
    requires cmds != []
    ensures var n := |cmds| - 1;
      OverRun(p, cmds, id, f) == OverRun(p, cmds[..n], id, f) + f(Run(EMPTY, p, cmds[..n]), p, cmds[n], id)
  {
  }

  lemma CreditIs(b: Books, p: Policy, cmd: Command, id: string)
    ensures CreditedBy(b, p, cmd, id) == StrandedBy(b, p, cmd, id)
      + if cmd.Return? && cmd.refund.originalInvoiceId == id && Completes(b, p, cmd) then RestoredOf(b, cmd.refund) else 0
  {
    hide PlanOf, Written, Sum, Completes, Strands, RestoredOf;
    if cmd.Return? {
      RefundCredits(b, p, cmd.refund);
      NotBoth(b, p, cmd);
    }
  }

  lemma NotBoth(b: Books, p: Policy, cmd: Command)
    ensures !(Completes(b, p, cmd) && Strands(b, p, cmd))
  {
    hide MoveFits, SaleFits, ReturnFits, SalePosts, ReturnPosts, MoveAccepted, RefuseInvoice, RefuseRefund;
  }

  lemma {:induction false} CreditsOverRun(p: Policy, cmds: seq<Command>, id: string)
    ensures var b := Run(EMPTY, p, cmds);
      && OverRun(p, cmds, id, CreditedBy) == RestoredTotal(b, id) + OverRun(p, cmds, id, StrandedBy)
      && OverRun(p, cmds, id, PostedBy) == SoldTotal(b, id)
  {
    hide CreditedBy, StrandedBy, PostedBy, Completes, Strands, PlanOf, Exec, RestoredOf;
    if cmds == [] {
      NoLineCosts(id);
    } else {
      hide *;
      var n := |cmds| - 1;
      var b := Run(EMPTY, p, cmds[..n]);
      CreditsOverRun(p, cmds[..n], id);
      RunSafe(p, cmds[..n]);
      RunUnfolds(p, cmds);
      OverRunUnfolds(p, cmds, id, CreditedBy);
      OverRunUnfolds(p, cmds, id, StrandedBy);
      OverRunUnfolds(p, cmds, id, PostedBy);
      CreditIs(b, p, cmds[n], id);
      RestoredTotalGrows(b, p, cmds[n], id);
      SoldTotalGrows(b, p, cmds[n], id);
    }
  }

  /** No refund of the invoice stops behind its journal. */
  ghost predicate NoneStranded(p: Policy, cmds: seq<Command>, id: string) {
    forall k :: 0 <= k < |cmds| && cmds[k].Return? && cmds[k].refund.originalInvoiceId == id ==>
      !Strands(Run(EMPTY, p, cmds[..k]), p, cmds[k])
  }

  lemma {:induction false} NothingStranded(p: Policy, cmds: seq<Command>, id: string)
    requires NoneStranded(p, cmds, id)
    ensures OverRun(p, cmds, id, StrandedBy) == 0
  {
    hide Strands, RestoredOf, Run;
    if cmds != [] {
      var n := |cmds| - 1;
      assert forall k :: 0 <= k < n ==> cmds[..n][..k] == cmds[..k];
      NothingStranded(p, cmds[..n], id);
    }
  }

  /** In the ledger of every run, the journals of an invoice's refunds credit to the cost of goods sold what the
      stored refunds restore, at most what the invoice debited, and what refunds restore that stopped behind
      their journal. So the credits stay within the debits exactly when the latter fit in what is left,
      in particular when no refund of the invoice stops there. */
  lemma LedgerRefundsWithinInvoice(p: Policy, cmds: seq<Command>, id: string)
    ensures var credits, debits := OverRun(p, cmds, id, CreditedBy), OverRun(p, cmds, id, PostedBy);
      var restored, stranded := RestoredTotal(Run(EMPTY, p, cmds), id), OverRun(p, cmds, id, StrandedBy);
      && restored <= debits && credits == restored + stranded
      && (credits <= debits <==> stranded <= debits - restored)
      && (NoneStranded(p, cmds, id) ==> stranded == 0)
  {
    hide *;
    CreditsOverRun(p, cmds, id);
    RunSafe(p, cmds);
    RestoredWithinSold(Run(EMPTY, p, cmds), p.taxRate, id);
    if NoneStranded(p, cmds, id) {
      NothingStranded(p, cmds, id);
    }
  }
}
