/** The ledger equation over every run, and what the profit and loss report
    (src/bms/domain/reporting/service.py) makes of it. */
module Equation {
  import opened Status
  import opened Books
  import opened Accounting
  import opened Inventory
  import opened Billing
  import opened Writes
  import opened Reconciliation
  import opened UseCases
  import opened Runs

  // ---------------------------------------------------------------- entries, lines, debits and credits

  function LineDebitIn(p: string): LedgerLine -> int { (l: LedgerLine) => if l.periodId == p then l.debit else 0 }

  function LineCreditIn(p: string): LedgerLine -> int { (l: LedgerLine) => if l.periodId == p then l.credit else 0 }

  predicate PeriodBalances(b: Books, p: string) {
    && Sum(b.entries, EntryDebit(p)) == Sum(b.lines, LineDebitIn(p))
    && Sum(b.entries, EntryCredit(p)) == Sum(b.lines, LineCreditIn(p))
    && Sum(b.entries, EntryDebit(p)) == Sum(b.entries, EntryCredit(p))
  }

  /** In every period the entries total their lines and debits equal credits; only chart accounts occur. */
  ghost predicate LedgerSound(b: Books) {
    && (forall p :: PeriodBalances(b, p))
    && (forall l :: l in b.lines ==> Known(l.account))
  }

  lemma SoundPlus(a: Books, b: Books)
    requires LedgerSound(a) && LedgerSound(b)
    ensures LedgerSound(Plus(a, b))
  {
    hide Sum, Known;
    forall p
      ensures PeriodBalances(Plus(a, b), p)
    {
      assert PeriodBalances(a, p) && PeriodBalances(b, p);
      SumConcat(a.entries, b.entries, EntryDebit(p));
      SumConcat(a.entries, b.entries, EntryCredit(p));
      SumConcat(a.lines, b.lines, LineDebitIn(p));
      SumConcat(a.lines, b.lines, LineCreditIn(p));
    }
  }

  lemma SoundConcat(xs: seq<Step>, ys: seq<Step>)
    requires LedgerSound(Written(xs)) && LedgerSound(Written(ys))
    ensures LedgerSound(Written(xs + ys))
  {
    hide *;
    WrittenConcat(xs, ys);
    SoundPlus(Written(xs), Written(ys));
  }

  lemma SoundByFiles(a: Books, b: Books)
    requires a.entries == b.entries && a.lines == b.lines && LedgerSound(a)
    ensures LedgerSound(b)
  {
    forall p
      ensures PeriodBalances(b, p)
    {
      assert PeriodBalances(a, p);
    }
  }

  lemma NoJournalSound(d: Books)
    requires d.entries == [] && d.lines == []
    ensures LedgerSound(d)
  {
  }

  lemma SoundTransaction(tid: Tid, op: Operation, body: seq<Step>, action: string, event: string)
    requires LedgerSound(Written(body))
    ensures LedgerSound(Written(Transaction(tid, op, body, action, event)))
  {
    hide *;
    TransactionDomain(tid, op, body, action, event);
    SameFiles(Written(body));
    SameFiles(Written(Transaction(tid, op, body, action, event)));
    SoundByFiles(Written(body), Written(Transaction(tid, op, body, action, event)));
  }

  lemma JournalEntrySound(c: PostCommand)
    requires c.lines != [] && Sum(c.lines, DebitOf()) == Sum(c.lines, CreditOf())
    requires forall i :: 0 <= i < |c.lines| ==> Known(c.lines[i].account)
    ensures LedgerSound(EMPTY.(entries := [EntryOf(c)], lines := LedgerLines(c)))
  {
    hide Sum, Known;
    var d := EMPTY.(entries := [EntryOf(c)], lines := LedgerLines(c));
    var ls := LedgerLines(c);
    forall p
      ensures PeriodBalances(d, p)
    {
      SumOne(EntryOf(c), EntryDebit(p));
      SumOne(EntryOf(c), EntryCredit(p));
      if p == c.periodId {
        SumPointwise(ls, LineDebitIn(p), c.lines, DebitOf());
        SumPointwise(ls, LineCreditIn(p), c.lines, CreditOf());
      } else {
        SumZero(ls, LineDebitIn(p));
        SumZero(ls, LineCreditIn(p));
      }
    }
  }

  lemma JournalAccepted(b: Books, closed: set<string>, c: PostCommand)
    requires JournalPlan(b, closed, c).Succeeds()
    ensures c.lines != [] && OneCurrency(c.lines) && Sum(c.lines, DebitOf()) == Sum(c.lines, CreditOf())
    ensures forall i :: 0 <= i < |c.lines| ==> LineError(c.lines[i]).None? && Known(c.lines[i].account)
    ensures !HasJournal(b.entries, c.journalId) && c.periodId !in closed
  {
    hide Transaction, JournalBody, Sum, HasJournal, OneCurrency;
    assert FirstLineError(c.lines).None?;
    hide FirstLineError;
    assert forall i :: 0 <= i < |c.lines| ==> LineError(c.lines[i]).None?;
  }

  lemma JournalSound(b: Books, closed: set<string>, c: PostCommand)
    ensures LedgerSound(Written(JournalPlan(b, closed, c).steps))
  {
    hide Written, EntryOf, LedgerLines, LedgerSound, Transaction, JournalBody, Sum;
    NothingWritten();
    NoJournalSound(EMPTY);
    if JournalPlan(b, closed, c).Succeeds() {
      JournalAccepted(b, closed, c);
      JournalWrites(b, closed, c);
      JournalEntrySound(c);
      SameFiles(Written(JournalPlan(b, closed, c).steps));
      SoundByFiles(EMPTY.(entries := [EntryOf(c)], lines := LedgerLines(c)), Written(JournalPlan(b, closed, c).steps));
    }
  }

  lemma MovementSound(b: Books, allowNegative: bool, c: StockCommand)
    ensures LedgerSound(Written(MovementPlan(b, allowNegative, c).steps))
  {
    hide Written, MovementOf, MovementSteps, RefuseMovement, LedgerSound;
    NothingWritten();
    NoJournalSound(EMPTY);
    if MovementPlan(b, allowNegative, c).Succeeds() {
      MovementWrites(b, allowNegative, c);
      SameFiles(Written(MovementPlan(b, allowNegative, c).steps));
      NoJournalSound(Written(MovementPlan(b, allowNegative, c).steps));
    }
  }

  lemma {:induction false} SaleMovementsSound(b: Books, allowNegative: bool, c: InvoiceCommand, i: nat)
    requires i <= |c.lines|
    ensures LedgerSound(Written(SaleMovements(b, allowNegative, c, i).steps))
    decreases |c.lines| - i
  {
    hide Written, MovementPlan, SaleMovement, LedgerSound, ApplyAll;
    NothingWritten();
    NoJournalSound(EMPTY);
    if i < |c.lines| {
      var first := MovementPlan(b, allowNegative, SaleMovement(b.movements, c, i));
      MovementSound(b, allowNegative, SaleMovement(b.movements, c, i));
      if first.error.None? {
        var b1 := ApplyAll(b, first.steps);
        SaleMovementsSound(b1, allowNegative, c, i + 1);
        SoundConcat(first.steps, SaleMovements(b1, allowNegative, c, i + 1).steps);
      }
    }
  }

  lemma {:induction false} RefundMovementsSound(b: Books, start: Books, allowNegative: bool, c: RefundCommand, i: nat)
    requires i <= |c.lines| && PositiveRequests(c)
    ensures LedgerSound(Written(RefundMovements(b, start, allowNegative, c, i).steps))
    decreases |c.lines| - i
  {
    hide Written, MovementPlan, RefundMovement, LedgerSound, ApplyAll;
    NothingWritten();
    NoJournalSound(EMPTY);
    if i < |c.lines| {
      if !c.lines[i].restock {
        RefundMovementsSound(b, start, allowNegative, c, i + 1);
      } else {
        var first := MovementPlan(b, allowNegative, RefundMovement(start, c, i));
        MovementSound(b, allowNegative, RefundMovement(start, c, i));
        if first.error.None? {
          var b1 := ApplyAll(b, first.steps);
          RefundMovementsSound(b1, start, allowNegative, c, i + 1);
          SoundConcat(first.steps, RefundMovements(b1, start, allowNegative, c, i + 1).steps);
        }
      }
    }
  }

  lemma QuietStepSound(s: Step)
    requires !s.EntryStep? && !s.LineStep?
    ensures LedgerSound(Written([s]))
  {
    ApplyOne(EMPTY, s);
  }

  lemma InvoiceSound(b: Books, closed: set<string>, p: Policy, c: InvoiceCommand)
    ensures LedgerSound(Written(InvoicePlan(b, closed, p, c).steps))
  {
    RefusedOrPositive(b, closed, p.taxRate, c);
    hide Written, Transaction, JournalPlan, SaleMovements, InvoiceLines, InvoiceOf, SaleJournal, RefuseInvoice, Apply,
      ApplyAll, PositiveQuantities, SaleOp, LedgerSound, InvoiceLineSteps;
    NothingWritten();
    NoJournalSound(EMPTY);
    if RefuseInvoice(b, closed, p.taxRate, c).None? {
      var pending := [WalStep(Pending(b.uuids, SaleOp(c)))];
      QuietStepSound(WalStep(Pending(b.uuids, SaleOp(c))));
      var b1 := ApplyAll(b, pending);
      var order := SaleJournal(p.taxRate, b.movements, c);
      var journal := JournalPlan(b1, closed, order);
      JournalSound(b1, closed, order);
      SoundConcat(pending, journal.steps);
      if journal.error.None? {
        var b2 := ApplyAll(b1, journal.steps);
        var movements := SaleMovements(b2, p.allowNegativeStock, c, 0);
        SaleMovementsSound(b2, p.allowNegativeStock, c, 0);
        SoundConcat(pending + journal.steps, movements.steps);
        if movements.error.None? {
          var x, ls := InvoiceStep(InvoiceOf(p.taxRate, c)), InvoiceLineSteps(InvoiceLines(b, c));
          QuietStepSound(x);
          InvoiceLinesWritten(InvoiceLines(b, c));
          NoJournalSound(Written(ls));
          SoundConcat(journal.steps, movements.steps);
          SoundConcat(journal.steps + movements.steps, [x]);
          SoundConcat(journal.steps + movements.steps + [x], ls);
          SoundTransaction(b.uuids, SaleOp(c), journal.steps + movements.steps + [x] + ls,
                           "billing.invoice_created", "billing.sale_completed.v1");
        }
      }
    }
  }

  lemma RefundSound(b: Books, closed: set<string>, p: Policy, c: RefundCommand)
    ensures LedgerSound(Written(RefundPlan(b, closed, p, c).steps))
  {
    RefusedOrPositiveRequests(b, closed, p.taxRate, c);
    hide Written, Transaction, JournalPlan, RefundMovements, RefundLines, RefundOf, RefundJournal, RefuseRefund,
      Apply, ApplyAll, PositiveRequests, ReturnOp, LedgerSound, RefundLineSteps;
    NothingWritten();
    NoJournalSound(EMPTY);
    if RefuseRefund(b, closed, p.taxRate, c).None? {
      var pending := [WalStep(Pending(b.uuids, ReturnOp(c)))];
      QuietStepSound(WalStep(Pending(b.uuids, ReturnOp(c))));
      var b1 := ApplyAll(b, pending);
      var order := RefundJournal(p.taxRate, b, c);
      var journal := JournalPlan(b1, closed, order);
      JournalSound(b1, closed, order);
      SoundConcat(pending, journal.steps);
      if journal.error.None? {
        var b2 := ApplyAll(b1, journal.steps);
        var movements := RefundMovements(b2, b, p.allowNegativeStock, c, 0);
        RefundMovementsSound(b2, b, p.allowNegativeStock, c, 0);
        SoundConcat(pending + journal.steps, movements.steps);
        if movements.error.None? {
          var x, ls := RefundStep(RefundOf(p.taxRate, b, c)), RefundLineSteps(RefundLines(b, c));
          QuietStepSound(x);
          RefundLinesWritten(RefundLines(b, c));
          NoJournalSound(Written(ls));
          SoundConcat(journal.steps, movements.steps);
          SoundConcat(journal.steps + movements.steps, [x]);
          SoundConcat(journal.steps + movements.steps + [x], ls);
          SoundTransaction(b.uuids, ReturnOp(c), journal.steps + movements.steps + [x] + ls,
                           "billing.refund_created", "billing.refund_completed.v1");
        }
      }
    }
  }

  lemma StockMoveSound(b: Books, closed: set<string>, allowNegative: bool, c: StockCommand)
    ensures LedgerSound(Written(StockPlan(b, closed, allowNegative, c).steps))
  {
    hide Written, MovementPlan, MovementOf, JournalPlan, LedgerSound, StockJournal;
    NothingWritten();
    NoJournalSound(EMPTY);
    MovementSound(b, allowNegative, c);
    if UsePeriod(c).Some? && UsePeriod(c).value !in closed {
      var moved := MovementPlan(b, allowNegative, c);
      var value := MovementOf(b.movements, c).valueDelta;
      if moved.error.None? && value != 0 {
        var b1 := ApplyAll(b, moved.steps);
        var journal := StockJournal(c, UsePeriod(c).value, value);
        JournalSound(b1, closed, journal);
        SoundConcat(moved.steps, JournalPlan(b1, closed, journal).steps);
      }
    }
  }

  /** Whatever a command does, completed, refused, or stopped by an error half way, the ledger stays sound. */
  lemma CommandSound(b: Books, p: Policy, cmd: Command)
    requires LedgerSound(b)
    ensures LedgerSound(Exec(b, p, cmd))
  {
    hide Written, RegisterPlan, StockPlan, JournalPlan, InvoicePlan, RefundPlan, CloseUsePlan, LedgerSound,
      ClosedPeriods;
    var steps := PlanOf(b, p, cmd).steps;
    var closed := ClosedPeriods(b);
    match cmd {
      case Register(item) => RegisterSound(b, item);
      case Move(c) => StockMoveSound(b, closed, p.allowNegativeStock, c);
      case Post(c) => JournalSound(b, closed, c);
      case Sell(c) => InvoiceSound(b, closed, p, c);
      case Return(c) => RefundSound(b, closed, p, c);
      case Close(periodId) => CloseSound(b, periodId);
    }
    WritesAdd(b, steps);
    SoundPlus(b, Written(steps));
  }

  lemma RegisterSound(b: Books, item: Item)
    ensures LedgerSound(Written(RegisterPlan(b, item).steps))
  {
    hide Written, Transaction, RefuseItem, LedgerSound;
    NothingWritten();
    NoJournalSound(EMPTY);
    ItemWritten(item);
    NoJournalSound(Written([ItemStep(item)]));
    SoundTransaction(b.uuids, RegisterItemOp(item.itemId), [ItemStep(item)], "inventory.item_registered",
                     "inventory.item_registered.v1");
  }

  lemma CloseSound(b: Books, periodId: string)
    ensures LedgerSound(Written(CloseUsePlan(b, ClosedPeriods(b), periodId).steps))
  {
    hide Written, Transaction, ReportOf, LedgerReadable, Sum, LedgerSound;
    NothingWritten();
    NoJournalSound(EMPTY);
    PeriodWritten(periodId);
    NoJournalSound(Written([PeriodStep(periodId)]));
    SoundTransaction(b.uuids, ClosePeriodOp(periodId), [PeriodStep(periodId)], "accounting.period_closed",
                     "accounting.period_closed.v1");
  }

  /** Every store a run of commands reaches has a sound ledger, whatever the commands and their outcomes. */
  lemma {:induction false} RunSound(p: Policy, cmds: seq<Command>)
    ensures LedgerSound(Run(EMPTY, p, cmds))
  {
    hide LedgerSound, Exec;
    if cmds == [] {
      NoJournalSound(EMPTY);
    } else {
      RunSound(p, cmds[..|cmds| - 1]);
      CommandSound(Run(EMPTY, p, cmds[..|cmds| - 1]), p, cmds[|cmds| - 1]);
    }
  }

  // ---------------------------------------------------------------- the accounting equation

  /** Debits less credits of an account in a period. */
  function Net(lines: seq<LedgerLine>, p: string, a: Account): int { Debit(lines, p, a) - Credit(lines, p, a) }

  function NetOf(lines: seq<LedgerLine>, p: string, t: AccountType): Account -> int {
    (a: Account) => if TypeOf(a) == t then Net(lines, p, a) else 0
  }

  /** Debits less credits over all accounts of one type. */
  function TypeNet(lines: seq<LedgerLine>, p: string, t: AccountType): int { Sum(CODES, NetOf(lines, p, t)) }

  function AccountOf(): LedgerLine -> Account { (l: LedgerLine) => l.account }

  function LineNetIn(p: string): LedgerLine -> int { (l: LedgerLine) => if l.periodId == p then l.debit - l.credit else 0 }

  lemma {:induction false} NetIsRestricted(lines: seq<LedgerLine>, p: string, a: Account)
    ensures Sum(lines, Restrict(AccountOf(), a, LineNetIn(p))) == Net(lines, p, a)
  {
    if lines != [] {
      NetIsRestricted(lines[..|lines| - 1], p, a);
    }
  }

  lemma {:induction false} LineNets(lines: seq<LedgerLine>, p: string)
    ensures Sum(lines, LineNetIn(p)) == Sum(lines, LineDebitIn(p)) - Sum(lines, LineCreditIn(p))
  {
    if lines != [] {
      LineNets(lines[..|lines| - 1], p);
    }
  }

  lemma {:induction false} PerAccount(lines: seq<LedgerLine>, p: string, codes: seq<Account>)
    ensures SumPerKey(lines, codes, AccountOf(), LineNetIn(p)) ==
      Sum(codes, NetOf(lines, p, Asset)) + Sum(codes, NetOf(lines, p, Liability)) + Sum(codes, NetOf(lines, p, Equity))
      + Sum(codes, NetOf(lines, p, Revenue)) + Sum(codes, NetOf(lines, p, Expense))
  {
    hide Net;
    if codes != [] {
      PerAccount(lines, p, codes[..|codes| - 1]);
      NetIsRestricted(lines, p, codes[|codes| - 1]);
    }
  }

  /** In every period of a sound ledger debit-normal balances equal credit-normal balances. */
  lemma AccountingEquation(b: Books, p: string)
    requires LedgerSound(b)
    ensures TypeNet(b.lines, p, Asset) + TypeNet(b.lines, p, Expense) ==
            -TypeNet(b.lines, p, Liability) - TypeNet(b.lines, p, Equity) - TypeNet(b.lines, p, Revenue)
  {
    hide Net, Known, Sum;
    assert PeriodBalances(b, p);
    LineNets(b.lines, p);
    assert Distinct(CODES);
    forall l | l in b.lines
      ensures AccountOf()(l) in CODES
    {
      OnChart(b, l);
    }
    PartitionSum(b.lines, CODES, AccountOf(), LineNetIn(p));
    PerAccount(b.lines, p, CODES);
  }

  lemma OnChart(b: Books, l: LedgerLine)
    requires LedgerSound(b) && l in b.lines
    ensures l.account in CODES
  {
    hide PeriodBalances;
    assert Known(l.account);
  }

  // ---------------------------------------------------------------- profit and loss

  datatype ProfitAndLoss = ProfitAndLoss(revenue: int, contra: int, cogs: int, expense: int)
  {
    function NetRevenue(): int { revenue - contra }

    function OperatingExpense(): int { expense - cogs }

    function GrossProfit(): int { NetRevenue() - cogs }

    function NetIncome(): int { GrossProfit() - OperatingExpense() }
  }

  function Clamp(x: int): int { if x < 0 then 0 else x }

  /** The currency of the balance of an account: that of its first line in the period. */
  function CurrencyOf(lines: seq<LedgerLine>, p: string, a: Account): Option<string> {
    if lines == [] then None
    else if lines[0].periodId == p && lines[0].account == a then Some(lines[0].currency)
    else CurrencyOf(lines[1..], p, a)
  }

  function Counted(lines: seq<LedgerLine>, p: string, currency: string, t: AccountType, a: Account): bool {
    CurrencyOf(lines, p, a) == Some(currency) && TypeOf(a) == t
  }

  function RevenueOf(lines: seq<LedgerLine>, p: string, currency: string): Account -> int {
    (a: Account) => if Counted(lines, p, currency, Revenue, a) then Credit(lines, p, a) else 0
  }

  function ContraOf(lines: seq<LedgerLine>, p: string, currency: string): Account -> int {
    (a: Account) => if Counted(lines, p, currency, Revenue, a) then Debit(lines, p, a) else 0
  }

  function ExpenseOf(lines: seq<LedgerLine>, p: string, currency: string): Account -> int {
    (a: Account) => if Counted(lines, p, currency, Expense, a) then Clamp(Net(lines, p, a)) else 0
  }

  function ProfitOf(lines: seq<LedgerLine>, p: string, currency: string): ProfitAndLoss {
    ProfitAndLoss(Sum(CODES, RevenueOf(lines, p, currency)), Sum(CODES, ContraOf(lines, p, currency)),
                  ExpenseOf(lines, p, currency)(COGS), Sum(CODES, ExpenseOf(lines, p, currency)))
  }

  /** The balance of the account as the report shows it: nothing when the account is in another currency. */
  function ShownDebit(lines: seq<LedgerLine>, p: string, currency: string, a: Account): int {
    if CurrencyOf(lines, p, a) == Some(currency) then Debit(lines, p, a) else 0
  }

  function ShownCredit(lines: seq<LedgerLine>, p: string, currency: string, a: Account): int {
    if CurrencyOf(lines, p, a) == Some(currency) then Credit(lines, p, a) else 0
  }

  lemma SumOverChart(f: Account -> int)
    ensures Sum(CODES, f) == f(1000) + f(1010) + f(1100) + f(1200) + f(1300) + f(2000) + f(2100) + f(3000) + f(4000) + f(4100)
      + f(5000) + f(5100)
  {
    var a, b, c: seq<Account> := [1000, 1010], [1100, 1200], [1300, 2000];
    var d, e, g: seq<Account> := [2100, 3000], [4000, 4100], [5000, 5100];
    SumTwo<Account>(1000, 1010, f);
    SumTwo<Account>(1100, 1200, f);
    SumTwo<Account>(1300, 2000, f);
    SumTwo<Account>(2100, 3000, f);
    SumTwo<Account>(4000, 4100, f);
    SumTwo<Account>(5000, 5100, f);
    assert CODES == a + b + c + d + e + g;
    hide Sum;
    SumConcat(a + b + c + d + e, g, f);
    SumConcat(a + b + c + d, e, f);
    SumConcat(a + b + c, d, f);
    SumConcat(a + b, c, f);
    SumConcat(a, b, f);
  }

  /** The figures account by account: sales (4000) and returns (4100) make the net revenue, cost of goods sold
      (5000) takes it down to the gross profit, the inventory adjustments (5100) are the operating expense. */
  lemma ProfitByAccount(lines: seq<LedgerLine>, p: string, currency: string)
    ensures var r := ProfitOf(lines, p, currency);
      var sales := ShownCredit(lines, p, currency, 4000) - ShownDebit(lines, p, currency, 4000);
      var contra := ShownDebit(lines, p, currency, 4100) - ShownCredit(lines, p, currency, 4100);
      var cost := ShownDebit(lines, p, currency, 5000) - ShownCredit(lines, p, currency, 5000);
      var adjusted := ShownDebit(lines, p, currency, 5100) - ShownCredit(lines, p, currency, 5100);
      && r.NetRevenue() == sales - contra
      && r.GrossProfit() == sales - contra - (if cost > 0 then cost else 0)
      && r.OperatingExpense() == (if adjusted > 0 then adjusted else 0)
      && r.NetIncome() == r.GrossProfit() - r.OperatingExpense()
  {
    SumOverChart(RevenueOf(lines, p, currency));
    SumOverChart(ContraOf(lines, p, currency));
    SumOverChart(ExpenseOf(lines, p, currency));
    hide Sum, Debit, Credit, CurrencyOf;
  }

  lemma {:induction false} BalanceCurrency(lines: seq<LedgerLine>, p: string, a: Account)
    ensures CurrencyOf(lines, p, a).Some? <==> Touched(lines, p, a)
    ensures CurrencyOf(lines, p, a).Some? ==>
      exists i :: 0 <= i < |lines| && lines[i].periodId == p && lines[i].account == a && lines[i].currency == CurrencyOf(lines, p, a).value
  {
    if lines != [] && !(lines[0].periodId == p && lines[0].account == a) {
      var rest := lines[1..];
      BalanceCurrency(rest, p, a);
      if CurrencyOf(rest, p, a).Some? {
        var i :| 0 <= i < |rest| && rest[i].periodId == p && rest[i].account == a && rest[i].currency == CurrencyOf(rest, p, a).value;
        assert lines[i + 1] == rest[i];
      }
      if Touched(lines, p, a) {
        var i :| 0 <= i < |lines| && lines[i].periodId == p && lines[i].account == a;
        assert rest[i - 1] == lines[i];
      }
    }
  }

  /** The loop of get_profit_and_loss_report, over the balances in the order of their codes. */
  method SumBalances(balances: map<Account, LedgerBalance>, ghost lines: seq<LedgerLine>, ghost p: string, currency: string,
                     codes: seq<Account>)
    returns (report: ProfitAndLoss)
    requires AreBalances(lines, p, balances) && Distinct(codes)
    ensures report.revenue == Sum(codes, RevenueOf(lines, p, currency))
    ensures report.contra == Sum(codes, ContraOf(lines, p, currency))
    ensures report.expense == Sum(codes, ExpenseOf(lines, p, currency))
    ensures report.cogs == if COGS in codes then ExpenseOf(lines, p, currency)(COGS) else 0
  {
    hide Debit, Credit, Touched, Clamp, AreBalances, CurrencyOf;
    var revenue, contra, expense, cogs := 0, 0, 0, 0;
    for i := 0 to |codes|
      invariant revenue == Sum(codes[..i], RevenueOf(lines, p, currency))
      invariant contra == Sum(codes[..i], ContraOf(lines, p, currency))
      invariant expense == Sum(codes[..i], ExpenseOf(lines, p, currency))
      invariant cogs == if COGS in codes[..i] then ExpenseOf(lines, p, currency)(COGS) else 0
    {
      var a := codes[i];
      assert codes[..i + 1][..i] == codes[..i] && codes[..i + 1] == codes[..i] + [a];
      BalanceIs(lines, p, balances, a);
      if a in balances && balances[a].currency == currency {
        if TypeOf(a) == Revenue {
          revenue, contra := revenue + balances[a].credit, contra + balances[a].debit;
        } else if TypeOf(a) == Expense {
          var net := Clamp(balances[a].debit - balances[a].credit);
          expense := expense + net;
          if a == COGS {
            cogs := cogs + net;
          }
        }
      }
    }
    assert codes[..|codes|] == codes;
    return ProfitAndLoss(revenue, contra, cogs, expense);
  }

  method GetProfitAndLoss(store: Store, p: string, currency: string) returns (report: Option<ProfitAndLoss>)
    ensures report.Some? <==> LedgerReadable(store.lines, p)
    ensures report.Some? ==> report.value == ProfitOf(store.lines, p, currency)
  {
    hide Sum, LedgerReadable, AreBalances, ExpenseOf, RevenueOf, ContraOf;
    var accounting := new AccountingService(store);
    var found := accounting.GetLedgerBalances(p);
    if found.None? {
      return None;
    }
    assert Distinct(CODES) && CODES[10] == COGS;
    var sums := SumBalances(found.value, store.lines, p, currency, CODES);
    return Some(sums);
  }

  lemma BalanceIs(lines: seq<LedgerLine>, p: string, balances: map<Account, LedgerBalance>, a: Account)
    requires AreBalances(lines, p, balances)
    ensures CurrencyOf(lines, p, a) == if a in balances then Some(balances[a].currency) else None
    ensures a in balances ==> balances[a].debit == Debit(lines, p, a) && balances[a].credit == Credit(lines, p, a)
  {
    hide Debit, Credit, Touched, CurrencyOf;
    BalanceCurrency(lines, p, a);
  }

  predicate SingleCurrency(lines: seq<LedgerLine>, p: string, currency: string) {
    forall i :: 0 <= i < |lines| && lines[i].periodId == p ==> lines[i].currency == currency
  }

  lemma {:induction false} ProfitSums(lines: seq<LedgerLine>, p: string, currency: string, codes: seq<Account>)
    requires SingleCurrency(lines, p, currency)
    ensures Sum(codes, RevenueOf(lines, p, currency)) - Sum(codes, ContraOf(lines, p, currency)) == -Sum(codes, NetOf(lines, p, Revenue))
    ensures Sum(codes, ExpenseOf(lines, p, currency)) >= Sum(codes, NetOf(lines, p, Expense))
    ensures Sum(codes, ExpenseOf(lines, p, currency)) == Sum(codes, NetOf(lines, p, Expense)) <==>
      forall i :: 0 <= i < |codes| && TypeOf(codes[i]) == Expense ==> Net(lines, p, codes[i]) >= 0
  {
    hide Debit, Credit, CurrencyOf, Touched, SingleCurrency;
    if codes != [] {
      var n := |codes| - 1;
      ProfitSums(lines, p, currency, codes[..n]);
      CurrencyOrNothing(lines, p, currency, codes[n]);
    }
  }

  lemma CurrencyOrNothing(lines: seq<LedgerLine>, p: string, currency: string, a: Account)
    requires SingleCurrency(lines, p, currency)
    ensures CurrencyOf(lines, p, a) == Some(currency) || Debit(lines, p, a) == Credit(lines, p, a) == 0
  {
    hide CurrencyOf, Debit, Credit;
    BalanceCurrency(lines, p, a);
    if CurrencyOf(lines, p, a).None? {
      Untouched(lines, p, a);
    }
  }

  /** Reported net income is the change in assets less liabilities less equity exactly when no expense
      account nets to a credit in the period; otherwise the clamp makes the report smaller. */
  lemma NetIncomeIsNetWorth(b: Books, p: string, currency: string)
    requires LedgerSound(b) && SingleCurrency(b.lines, p, currency)
    ensures var income := ProfitOf(b.lines, p, currency).NetIncome();
      var worth := TypeNet(b.lines, p, Asset) + TypeNet(b.lines, p, Liability) + TypeNet(b.lines, p, Equity);
      && income <= worth
      && (income == worth <==> forall a :: a in CODES && TypeOf(a) == Expense ==> Net(b.lines, p, a) >= 0)
  {
    hide Net, SingleCurrency, RevenueOf, ContraOf, ExpenseOf, LedgerSound, Sum;
    AccountingEquation(b, p);
    ProfitSums(b.lines, p, currency, CODES);
    assert forall a :: a in CODES <==> exists i :: 0 <= i < |CODES| && CODES[i] == a;
  }
}
