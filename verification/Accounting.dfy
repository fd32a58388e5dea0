/** src/bms/domain/accounting/service.py and chart.py: posting journals, ledger folds, closing periods. */
module Accounting {
  import opened Status
  import opened Books

  datatype AccountType = Asset | Liability | Equity | Revenue | Expense

  /** The baseline chart of accounts, in the order of the codes. */
  const CODES: seq<Account> := [1000, 1010, 1100, 1200, 1300, 2000, 2100, 3000, 4000, 4100, 5000, 5100]

  predicate Known(a: Account) { a in CODES }

  function TypeOf(a: Account): AccountType {
    if a < 2000 then Asset
    else if a < 3000 then Liability
    else if a < 4000 then Equity
    else if a < 5000 then Revenue
    else Expense
  }

  const CASH: Account := 1000
  const INVENTORY: Account := 1200
  const OUTPUT_TAX: Account := 2100
  const OWNER_EQUITY: Account := 3000
  const SALES: Account := 4000
  const SALES_RETURNS: Account := 4100
  const COGS: Account := 5000
  const INVENTORY_ADJUSTMENT: Account := 5100

  datatype JournalLine = JournalLine(account: Account, debit: int, credit: int, currency: string)

  datatype PostCommand = PostCommand(
    journalId: string, periodId: string, timestamp: string, actorId: string, sourceModule: string,
    sourceDocumentId: string, correlationId: string, description: string, lines: seq<JournalLine>)

  // ---------------------------------------------------------------- folds

  function DebitOf(): JournalLine -> int { (l: JournalLine) => l.debit }

  function CreditOf(): JournalLine -> int { (l: JournalLine) => l.credit }

  /** Debits and credits of one account in one period. */
  function DebitIn(periodId: string, a: Account): LedgerLine -> int {
    (l: LedgerLine) => if l.periodId == periodId && l.account == a then l.debit else 0
  }

  function CreditIn(periodId: string, a: Account): LedgerLine -> int {
    (l: LedgerLine) => if l.periodId == periodId && l.account == a then l.credit else 0
  }

  function Debit(lines: seq<LedgerLine>, periodId: string, a: Account): int { Sum(lines, DebitIn(periodId, a)) }

  function Credit(lines: seq<LedgerLine>, periodId: string, a: Account): int { Sum(lines, CreditIn(periodId, a)) }

  function EntryDebit(periodId: string): JournalEntry -> int {
    (e: JournalEntry) => if e.periodId == periodId then e.debitTotal else 0
  }

  function EntryCredit(periodId: string): JournalEntry -> int {
    (e: JournalEntry) => if e.periodId == periodId then e.creditTotal else 0
  }

  /** _normal_balance. */
  function NormalBalance(t: AccountType, debit: int, credit: int): int {
    if t == Asset || t == Expense then debit - credit else credit - debit
  }

  // ---------------------------------------------------------------- post_journal

  function LineError(l: JournalLine): Option<Error> {
    if !Known(l.account) then Some(UnknownAccount)
    else if l.currency == "" then Some(MissingField)
    else if l.debit < 0 || l.credit < 0 then Some(NegativeAmount)
    else if l.debit == 0 && l.credit == 0 then Some(NoAmount)
    else if l.debit > 0 && l.credit > 0 then Some(BothAmounts)
    else None
  }

  function FirstLineError(lines: seq<JournalLine>): (e: Option<Error>)
    ensures e.None? <==> forall i :: 0 <= i < |lines| ==> LineError(lines[i]).None?
  {
    if lines == [] then None
    else if LineError(lines[0]).Some? then LineError(lines[0])
    else FirstLineError(lines[1..])
  }

  predicate OneCurrency(lines: seq<JournalLine>) {
    forall i :: 0 <= i < |lines| ==> lines[i].currency == lines[0].currency
  }

  predicate HasJournal(es: seq<JournalEntry>, journalId: string) {
    exists i :: 0 <= i < |es| && es[i].journalId == journalId
  }

  function ValidatePost(closed: set<string>, c: PostCommand): Option<Error> {
    if "" in [c.journalId, c.periodId, c.timestamp, c.actorId, c.sourceModule, c.sourceDocumentId, c.correlationId, c.description]
      then Some(MissingField)
    else if c.periodId in closed then Some(PeriodClosed)
    else if |c.lines| < 2 then Some(TooFewLines)
    else if !OneCurrency(c.lines) then Some(SeveralCurrencies)
    else if FirstLineError(c.lines).Some? then FirstLineError(c.lines)
    else if Sum(c.lines, DebitOf()) != Sum(c.lines, CreditOf()) then Some(Unbalanced)
    else None
  }

  function RefuseJournal(b: Books, closed: set<string>, c: PostCommand): Option<Error> {
    if ValidatePost(closed, c).Some? then ValidatePost(closed, c)
    else if HasJournal(b.entries, c.journalId) then Some(DuplicateJournal)
    else None
  }

  function EntryOf(c: PostCommand): JournalEntry
    requires c.lines != []
  {
    JournalEntry(c.journalId, c.periodId, c.sourceModule, c.sourceDocumentId,
                 Sum(c.lines, DebitOf()), Sum(c.lines, CreditOf()), c.lines[0].currency)
  }

  /** _line_payload for every line, numbered from 1. */
  function LedgerLines(c: PostCommand): (ls: seq<LedgerLine>)
    ensures |ls| == |c.lines|
  {
    seq(|c.lines|, i requires 0 <= i < |c.lines| =>
      LedgerLine(c.journalId, i + 1, c.periodId, c.lines[i].account, c.lines[i].debit, c.lines[i].credit,
                 c.lines[i].currency))
  }

  function LineSteps(ls: seq<LedgerLine>): (steps: seq<Step>)
    ensures |steps| == |ls|
  {
    seq(|ls|, i requires 0 <= i < |ls| => LineStep(ls[i]))
  }

  function JournalBody(c: PostCommand): seq<Step>
    requires c.lines != []
  {
    [EntryStep(EntryOf(c))] + LineSteps(LedgerLines(c))
  }

  function JournalPlan(b: Books, closed: set<string>, c: PostCommand): Plan {
    var refused := RefuseJournal(b, closed, c);
    if refused.Some? then Plan([], refused)
    else Plan(Transaction(b.uuids, PostJournalOp(c.journalId), JournalBody(c),
                          "accounting.journal_posted", "accounting.journal_posted.v1"), None)
  }

  // ---------------------------------------------------------------- periods

  function ClosedPeriods(b: Books): set<string> { set p | p in b.periods }

  function ClosePlan(b: Books, closed: set<string>, periodId: string): Plan {
    if periodId == "" then Plan([], Some(MissingField))
    else if periodId in closed then Plan([], None)
    else if Sum(b.entries, EntryDebit(periodId)) != Sum(b.entries, EntryCredit(periodId)) then Plan([], Some(Unbalanced))
    else Plan(Transaction(b.uuids, ClosePeriodOp(periodId), [PeriodStep(periodId)],
                          "accounting.period_closed", "accounting.period_closed.v1"), None)
  }

  // ---------------------------------------------------------------- ledger balances

  datatype LedgerBalance = LedgerBalance(debit: int, credit: int, currency: string)

  predicate LedgerReadable(lines: seq<LedgerLine>, periodId: string) {
    && (forall i :: 0 <= i < |lines| && lines[i].periodId == periodId ==> Known(lines[i].account) && lines[i].currency != "")
    && (forall i, j :: (0 <= i < |lines| && 0 <= j < |lines| && lines[i].periodId == periodId == lines[j].periodId
                        && lines[i].account == lines[j].account) ==> lines[i].currency == lines[j].currency)
  }

  predicate Touched(lines: seq<LedgerLine>, periodId: string, a: Account) {
    exists i :: 0 <= i < |lines| && lines[i].periodId == periodId && lines[i].account == a
  }

  /** The balances as get_ledger_balances promises them. */
  ghost predicate AreBalances(lines: seq<LedgerLine>, periodId: string, m: map<Account, LedgerBalance>) {
    && (forall a :: a in m <==> Touched(lines, periodId, a))
    && (forall a :: a in m ==> m[a].debit == Debit(lines, periodId, a) && m[a].credit == Credit(lines, periodId, a))
    && (forall a :: a in m ==> Known(a) && m[a].currency != "")
    && (forall i :: 0 <= i < |lines| && lines[i].periodId == periodId ==> m[lines[i].account].currency == lines[i].currency)
  }

  class AccountingService {
    const store: Store
    var closedPeriods: set<string>

    /** The set in memory is the set rebuilt from the log. */
    predicate Valid()
      reads this, store
    {
      closedPeriods == ClosedPeriods(store.View())
    }

    constructor (store: Store)
      ensures this.store == store && Valid()
    {
      this.store := store;
      closedPeriods := {};
      new;
      for i := 0 to |store.periods|
        invariant closedPeriods == set p | p in store.periods[..i]
      {
        closedPeriods := closedPeriods + {store.periods[i]};
        assert store.periods[..i + 1] == store.periods[..i] + [store.periods[i]];
      }
      assert store.periods[..|store.periods|] == store.periods;
    }

    method PostJournal(c: PostCommand) returns (error: Option<Error>)
      modifies store
      ensures var plan := JournalPlan(old(store.View()), closedPeriods, c);
        store.View() == ApplyAll(old(store.View()), plan.steps) && error == plan.error
    {
      hide Apply;
      error := ValidatePost(closedPeriods, c);
      if error.Some? {
        return;
      }
      if HasJournal(store.entries, c.journalId) {
        return Some(DuplicateJournal);
      }
      ghost var b := store.View();
      var tid := store.uuids;
      store.Append(WalStep(Pending(tid, PostJournalOp(c.journalId))));
      store.Append(EntryStep(EntryOf(c)));
      store.AppendEach(LineSteps(LedgerLines(c)));
      store.Append(AuditStep("accounting.journal_posted"));
      store.Append(EventStep("accounting.journal_posted.v1"));
      store.Append(WalStep(Committed(tid)));
      TransactionSteps(b, tid, PostJournalOp(c.journalId), [EntryStep(EntryOf(c))], LineSteps(LedgerLines(c)),
                       "accounting.journal_posted", "accounting.journal_posted.v1");
    }

    method GetTrialBalance(periodId: string) returns (debit: int, credit: int)
      ensures debit == Sum(store.entries, EntryDebit(periodId))
      ensures credit == Sum(store.entries, EntryCredit(periodId))
    {
      debit, credit := 0, 0;
      var es := store.entries;
      for i := 0 to |es|
        invariant debit == Sum(es[..i], EntryDebit(periodId)) && credit == Sum(es[..i], EntryCredit(periodId))
      {
        assert es[..i + 1][..i] == es[..i];
        if es[i].periodId == periodId {
          debit := debit + es[i].debitTotal;
          credit := credit + es[i].creditTotal;
        }
      }
      assert es[..|es|] == es;
    }

    /** Fails on an unknown account, an empty currency, or two currencies on one account. */
    method GetLedgerBalances(periodId: string) returns (balances: Option<map<Account, LedgerBalance>>)
      ensures balances.Some? <==> LedgerReadable(store.lines, periodId)
      ensures balances.Some? ==> AreBalances(store.lines, periodId, balances.value)
    {
      hide Known;
      var totals: map<Account, LedgerBalance> := map[];
      var lines := store.lines;
      var i := 0;
      while i < |lines|
        invariant 0 <= i <= |lines|
        invariant LedgerReadable(lines[..i], periodId)
        invariant AreBalances(lines[..i], periodId, totals)
      {
        var l := lines[i];
        assert lines[..i + 1] == lines[..i] + [l];
        if l.periodId == periodId {
          if !Known(l.account) || l.currency == "" {
            assert lines[i] == l;
            return None;
          }
          var t := if l.account in totals then totals[l.account] else LedgerBalance(0, 0, l.currency);
          if t.currency != l.currency {
            OtherCurrency(lines, i, periodId, totals);
            return None;
          }
          var next := totals[l.account := LedgerBalance(t.debit + l.debit, t.credit + l.credit, t.currency)];
          BalancesGrow(lines[..i], l, periodId, totals, next);
          totals := next;
        } else {
          BalancesIgnore(lines[..i], l, periodId, totals);
        }
        i := i + 1;
      }
      assert lines[..i] == lines;
      return Some(totals);
    }

    method ClosePeriod(periodId: string) returns (error: Option<Error>)
      requires Valid()
      modifies this, store
      ensures var plan := ClosePlan(old(store.View()), old(closedPeriods), periodId);
        store.View() == ApplyAll(old(store.View()), plan.steps) && error == plan.error
      ensures Valid()
    {
      hide Apply;
      if periodId == "" {
        return Some(MissingField);
      }
      if periodId in closedPeriods {
        return None;
      }
      var debit, credit := GetTrialBalance(periodId);
      if debit != credit {
        return Some(Unbalanced);
      }
      ghost var b := store.View();
      var tid := store.uuids;
      var steps := [WalStep(Pending(tid, ClosePeriodOp(periodId))), PeriodStep(periodId),
                    AuditStep("accounting.period_closed"), EventStep("accounting.period_closed.v1"),
                    WalStep(Committed(tid))];
      assert steps == Transaction(tid, ClosePeriodOp(periodId), [PeriodStep(periodId)],
                                  "accounting.period_closed", "accounting.period_closed.v1");
      store.AppendEach(steps);
      closedPeriods := closedPeriods + {periodId};
      CloseAddsPeriod(b, periodId);
      error := None;
    }
  }

  lemma TransactionSteps(b: Books, tid: Tid, op: Operation, first: seq<Step>, rest: seq<Step>, action: string, event: string)
    ensures var b1 := ApplyAll(Apply(b, WalStep(Pending(tid, op))), first);
      var b2 := ApplyAll(b1, rest);
      Apply(Apply(Apply(b2, AuditStep(action)), EventStep(event)), WalStep(Committed(tid)))
        == ApplyAll(b, Transaction(tid, op, first + rest, action, event))
    ensures |first| == 1 ==> ApplyAll(Apply(b, WalStep(Pending(tid, op))), first) == Apply(Apply(b, WalStep(Pending(tid, op))), first[0])
  {
    hide Apply;
    var p, a, e, c := WalStep(Pending(tid, op)), AuditStep(action), EventStep(event), WalStep(Committed(tid));
    var all := Transaction(tid, op, first + rest, action, event);
    assert all == ((([p] + first) + rest) + [a] + [e]) + [c];
    ApplyConcat(b, ([p] + first) + rest + [a] + [e], [c]);
    ApplyConcat(b, ([p] + first) + rest + [a], [e]);
    ApplyConcat(b, ([p] + first) + rest, [a]);
    ApplyConcat(b, [p] + first, rest);
    ApplyConcat(b, [p], first);
    ApplyOne(b, p);
    var b2 := ApplyAll(ApplyAll(Apply(b, p), first), rest);
    ApplyOne(b2, a);
    ApplyOne(Apply(b2, a), e);
    ApplyOne(Apply(Apply(b2, a), e), c);
    if |first| == 1 {
      assert first == [first[0]];
      ApplyOne(Apply(b, p), first[0]);
    }
  }

  lemma CloseAddsPeriod(b: Books, periodId: string)
    ensures var r := ApplyAll(b, Transaction(b.uuids, ClosePeriodOp(periodId), [PeriodStep(periodId)],
                                             "accounting.period_closed", "accounting.period_closed.v1"));
      ClosedPeriods(r) == ClosedPeriods(b) + {periodId}
  {
    hide Apply, Transaction;
    var steps := Transaction(b.uuids, ClosePeriodOp(periodId), [PeriodStep(periodId)],
                             "accounting.period_closed", "accounting.period_closed.v1");
    WritesAdd(b, steps);
    TransactionWrites(b.uuids, ClosePeriodOp(periodId), [PeriodStep(periodId)],
                      "accounting.period_closed", "accounting.period_closed.v1");
    PeriodWritten(periodId);
  }

  lemma PeriodWritten(periodId: string)
    ensures Written([PeriodStep(periodId)]) == EMPTY.(periods := [periodId])
  {
    ApplyOne(EMPTY, PeriodStep(periodId));
  }

  lemma OtherCurrency(lines: seq<LedgerLine>, i: nat, periodId: string, totals: map<Account, LedgerBalance>)
    requires i < |lines| && lines[i].periodId == periodId && AreBalances(lines[..i], periodId, totals)
    requires lines[i].account in totals && totals[lines[i].account].currency != lines[i].currency
    ensures !LedgerReadable(lines, periodId)
  {
    var k :| 0 <= k < i && lines[..i][k].periodId == periodId && lines[..i][k].account == lines[i].account;
    assert lines[k] == lines[..i][k];
  }

  lemma ReadableGrows(lines: seq<LedgerLine>, l: LedgerLine, periodId: string, totals: map<Account, LedgerBalance>)
    requires LedgerReadable(lines, periodId) && AreBalances(lines, periodId, totals)
    requires l.periodId == periodId ==> Known(l.account) && l.currency != ""
    requires l.periodId == periodId && l.account in totals ==> totals[l.account].currency == l.currency
    ensures LedgerReadable(lines + [l], periodId)
  {
    hide Known, Debit, Credit;
    forall i | 0 <= i < |lines| && lines[i].periodId == periodId == l.periodId && lines[i].account == l.account
      ensures lines[i].currency == l.currency
    {
      assert Touched(lines, periodId, l.account);
    }
  }

  lemma BalancesGrow(lines: seq<LedgerLine>, l: LedgerLine, periodId: string,
                     totals: map<Account, LedgerBalance>, next: map<Account, LedgerBalance>)
    requires LedgerReadable(lines, periodId) && AreBalances(lines, periodId, totals)
    requires l.periodId == periodId && Known(l.account) && l.currency != ""
    requires var t := if l.account in totals then totals[l.account] else LedgerBalance(0, 0, l.currency);
      && t.currency == l.currency
      && next == totals[l.account := LedgerBalance(t.debit + l.debit, t.credit + l.credit, t.currency)]
    ensures LedgerReadable(lines + [l], periodId) && AreBalances(lines + [l], periodId, next)
  {
    ReadableGrows(lines, l, periodId, totals);
    hide Known, Debit, Credit, Touched, LedgerReadable;
    var all := lines + [l];
    forall a
      ensures Touched(all, periodId, a) <==> Touched(lines, periodId, a) || a == l.account
      ensures Debit(all, periodId, a) == Debit(lines, periodId, a) + (if a == l.account then l.debit else 0)
      ensures Credit(all, periodId, a) == Credit(lines, periodId, a) + (if a == l.account then l.credit else 0)
    {
      TouchedGrows(lines, l, periodId, a);
      FoldsGrow(lines, l, periodId, a);
    }
    if l.account !in totals {
      Untouched(lines, periodId, l.account);
    }
    forall i | 0 <= i < |all| && all[i].periodId == periodId
      ensures all[i].account in next && next[all[i].account].currency == all[i].currency
    {
      assert i < |lines| ==> all[i] == lines[i];
      TouchedBy(all, periodId, i);
    }
  }

  lemma TouchedBy(lines: seq<LedgerLine>, periodId: string, i: nat)
    requires i < |lines| && lines[i].periodId == periodId
    ensures Touched(lines, periodId, lines[i].account)
  {
  }

  lemma BalancesIgnore(lines: seq<LedgerLine>, l: LedgerLine, periodId: string, totals: map<Account, LedgerBalance>)
    requires LedgerReadable(lines, periodId) && AreBalances(lines, periodId, totals) && l.periodId != periodId
    ensures LedgerReadable(lines + [l], periodId) && AreBalances(lines + [l], periodId, totals)
  {
    hide Known, Sum;
    var all := lines + [l];
    forall a
      ensures Touched(all, periodId, a) <==> Touched(lines, periodId, a)
      ensures Debit(all, periodId, a) == Debit(lines, periodId, a)
      ensures Credit(all, periodId, a) == Credit(lines, periodId, a)
    {
      TouchedGrows(lines, l, periodId, a);
      FoldsGrow(lines, l, periodId, a);
    }
  }

  lemma TouchedGrows(lines: seq<LedgerLine>, l: LedgerLine, periodId: string, a: Account)
    ensures Touched(lines + [l], periodId, a) <==>
            Touched(lines, periodId, a) || (l.periodId == periodId && l.account == a)
  {
    var all := lines + [l];
    assert all[|lines|] == l;
    if Touched(lines, periodId, a) {
      var i :| 0 <= i < |lines| && lines[i].periodId == periodId && lines[i].account == a;
      assert all[i] == lines[i];
    }
  }

  lemma FoldsGrow(lines: seq<LedgerLine>, l: LedgerLine, periodId: string, a: Account)
    ensures Debit(lines + [l], periodId, a) ==
            Debit(lines, periodId, a) + (if l.periodId == periodId && l.account == a then l.debit else 0)
    ensures Credit(lines + [l], periodId, a) ==
            Credit(lines, periodId, a) + (if l.periodId == periodId && l.account == a then l.credit else 0)
  {
    assert (lines + [l])[..|lines|] == lines;
  }

  lemma Untouched(lines: seq<LedgerLine>, periodId: string, a: Account)
    requires !Touched(lines, periodId, a)
    ensures Debit(lines, periodId, a) == 0 && Credit(lines, periodId, a) == 0
  {
    forall l | l in lines
      ensures DebitIn(periodId, a)(l) == 0 && CreditIn(periodId, a)(l) == 0
    {
      var i :| 0 <= i < |lines| && lines[i] == l;
    }
    SumZero(lines, DebitIn(periodId, a));
    SumZero(lines, CreditIn(periodId, a));
  }
}
