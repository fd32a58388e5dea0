/** The append-only files of the application as sequences of payloads, the single appends that change
    them, and sums over them. Account codes are modelled as numbers, transaction ids by the number of the
    uuid that makes them unique. */
module Books {
  import opened Status

  type Account = nat
  type Tid = nat

  // ---------------------------------------------------------------- payloads

  datatype JournalEntry = JournalEntry(
    journalId: string, periodId: string, sourceModule: string, sourceDocumentId: string,
    debitTotal: int, creditTotal: int, currency: string)

  datatype LedgerLine = LedgerLine(
    journalId: string, lineNo: nat, periodId: string, account: Account, debit: int, credit: int, currency: string)

  datatype Item = Item(itemId: string, sku: string, name: string, active: bool, businessUnit: string)

  datatype MovementType = StockIn | StockOut | Adjustment

  datatype Movement = Movement(
    movementId: string, itemId: string, movementType: MovementType, quantityDelta: int, quantityAfter: int,
    periodId: string, unitCost: int, valueDelta: int, valueAfter: int, sourceDocumentId: string)

  datatype Invoice = Invoice(
    invoiceId: string, periodId: string, currency: string, subtotal: int, tax: int, total: int,
    journalId: string, movementIds: seq<string>)

  datatype InvoiceLine = InvoiceLine(
    invoiceId: string, lineNo: nat, itemId: string, businessUnit: string, description: string, quantity: int, unitPrice: int,
    subtotal: int, cogsUnitCost: int, cogs: int, currency: string)

  datatype Refund = Refund(
    refundId: string, originalInvoiceId: string, periodId: string, currency: string,
    subtotal: int, tax: int, total: int, cogsRestored: int, journalId: string, movementIds: seq<string>)

  datatype RefundLine = RefundLine(
    refundId: string, lineNo: nat, itemId: string, businessUnit: string, description: string, quantity: int, unitPrice: int,
    subtotal: int, cogsUnitCost: int, cogs: int, restock: bool, currency: string)

  datatype Decision =
    | AcceptedExistingRecords
    | RequiresAccountingAdjustment
    | RequiresRestoreFromBackup
    | VoidedAsIncomplete

  /** A record of recovery/reconciliation_records.jsonl; `correction` names the correction journal of an
      accounting adjustment. */
  datatype RecoveryRecord = RecoveryRecord(
    tid: Tid, decision: Decision, resolved: bool, correction: Option<string>)

  /** The operation a pending transaction announces, with the fields recovery looks at. */
  datatype Operation =
    | CreateInvoiceOp(invoiceId: string, journalId: string, movementIds: seq<string>)
    | CreateRefundOp(refundId: string, journalId: string, movementIds: seq<string>)
    | PostJournalOp(journalId: string)
    | CommitMovementOp(movementId: string)
    | RegisterItemOp(itemId: string)
    | ClosePeriodOp(periodId: string)

  datatype WalRecord = Pending(tid: Tid, op: Operation) | Committed(tid: Tid)

  // ---------------------------------------------------------------- the files

  datatype Books = Books(
    wal: seq<WalRecord>,
    entries: seq<JournalEntry>, lines: seq<LedgerLine>, periods: seq<string>,
    items: seq<Item>, movements: seq<Movement>,
    invoices: seq<Invoice>, invoiceLines: seq<InvoiceLine>,
    refunds: seq<Refund>, refundLines: seq<RefundLine>,
    audits: seq<string>, events: seq<string>, reconciliations: seq<RecoveryRecord>,
    uuids: nat)

  const EMPTY := Books([], [], [], [], [], [], [], [], [], [], [], [], [], 0)

  /** One append. The event append is an opaque step that succeeds. */
  datatype Step =
    | WalStep(wal: WalRecord)
    | EntryStep(entry: JournalEntry)
    | LineStep(line: LedgerLine)
    | PeriodStep(period: string)
    | ItemStep(item: Item)
    | MovementStep(movement: Movement)
    | InvoiceStep(invoice: Invoice)
    | InvoiceLineStep(invoiceLine: InvoiceLine)
    | RefundStep(refund: Refund)
    | RefundLineStep(refundLine: RefundLine)
    | AuditStep(action: string)
    | EventStep(event: string)
    | ReconciliationStep(reconciliation: RecoveryRecord)

  function Max(x: nat, y: nat): nat { if x < y then y else x }

  /** A log record takes part in making the next id new. */
  function Apply(b: Books, s: Step): Books {
    match s
    case WalStep(w) =>
      b.(wal := b.wal + [w], uuids := Max(b.uuids, w.tid + 1))
    case EntryStep(x) => b.(entries := b.entries + [x])
    case LineStep(x) => b.(lines := b.lines + [x])
    case PeriodStep(x) => b.(periods := b.periods + [x])
    case ItemStep(x) => b.(items := b.items + [x])
    case MovementStep(x) => b.(movements := b.movements + [x])
    case InvoiceStep(x) => b.(invoices := b.invoices + [x])
    case InvoiceLineStep(x) => b.(invoiceLines := b.invoiceLines + [x])
    case RefundStep(x) => b.(refunds := b.refunds + [x])
    case RefundLineStep(x) => b.(refundLines := b.refundLines + [x])
    case AuditStep(x) => b.(audits := b.audits + [x])
    case EventStep(x) => b.(events := b.events + [x])
    case ReconciliationStep(x) => b.(reconciliations := b.reconciliations + [x])
  }

  function ApplyAll(b: Books, steps: seq<Step>): Books
    decreases |steps|
  {
    if steps == [] then b else Apply(ApplyAll(b, steps[..|steps| - 1]), steps[|steps| - 1])
  }

  lemma {:induction false} ApplyConcat(b: Books, xs: seq<Step>, ys: seq<Step>)
    ensures ApplyAll(b, xs + ys) == ApplyAll(ApplyAll(b, xs), ys)
    decreases |ys|
  {
    hide Apply;
    if ys == [] {
      assert xs + ys == xs;
    } else {
      var n := |ys| - 1;
      ApplyConcat(b, xs, ys[..n]);
      assert (xs + ys)[..|xs + ys| - 1] == xs + ys[..n];
    }
  }

  lemma ApplyOne(b: Books, s: Step)
    ensures ApplyAll(b, [s]) == Apply(b, s)
  {
    assert [s][..0] == [];
  }

  /** The write order of every operation: announce in the log, append, audit, publish, commit. */
  function Transaction(tid: Tid, op: Operation, body: seq<Step>, action: string, event: string): seq<Step> {
    [WalStep(Pending(tid, op))] + body + [AuditStep(action), EventStep(event), WalStep(Committed(tid))]
  }

  // ---------------------------------------------------------------- what a run of appends adds

  /** Every file of the first followed by the same file of the second. */
  function Plus(b: Books, d: Books): Books {
    Books(b.wal + d.wal, b.entries + d.entries, b.lines + d.lines, b.periods + d.periods, b.items + d.items,
          b.movements + d.movements, b.invoices + d.invoices, b.invoiceLines + d.invoiceLines,
          b.refunds + d.refunds, b.refundLines + d.refundLines, b.audits + d.audits, b.events + d.events,
          b.reconciliations + d.reconciliations, Max(b.uuids, d.uuids))
  }

  /** What the appends write, whatever was there before. */
  function Written(steps: seq<Step>): Books { ApplyAll(EMPTY, steps) }

  lemma PlusAssoc(a: Books, b: Books, c: Books)
    ensures Plus(Plus(a, b), c) == Plus(a, Plus(b, c))
  {
  }

  lemma PlusEmpty(b: Books)
    ensures Plus(b, EMPTY) == b && Plus(EMPTY, b) == b
  {
  }

  lemma ApplyAdds(b: Books, s: Step)
    ensures Apply(b, s) == Plus(b, Apply(EMPTY, s))
  {
  }

  /** Appending never looks at what is there: every file grows by exactly its own payloads, in order. */
  lemma {:induction false} WritesAdd(b: Books, steps: seq<Step>)
    ensures ApplyAll(b, steps) == Plus(b, Written(steps))
    decreases |steps|
  {
    hide Apply, Plus;
    if steps == [] {
      PlusEmpty(b);
    } else {
      var n := |steps| - 1;
      WritesAdd(b, steps[..n]);
      ApplyAdds(ApplyAll(b, steps[..n]), steps[n]);
      ApplyAdds(Written(steps[..n]), steps[n]);
      PlusAssoc(b, Written(steps[..n]), Apply(EMPTY, steps[n]));
    }
  }

  lemma WrittenConcat(xs: seq<Step>, ys: seq<Step>)
    ensures Written(xs + ys) == Plus(Written(xs), Written(ys))
  {
    ApplyConcat(EMPTY, xs, ys);
    WritesAdd(Written(xs), ys);
  }

  lemma WrittenEnd(action: string, event: string, tid: Tid)
    ensures Written([AuditStep(action), EventStep(event), WalStep(Committed(tid))]) ==
      EMPTY.(wal := [Committed(tid)], audits := [action], events := [event], uuids := tid + 1)
  {
    hide ApplyAll;
    var x, y, z := AuditStep(action), EventStep(event), WalStep(Committed(tid));
    assert [x, y, z] == [x] + [y] + [z];
    WrittenConcat([x] + [y], [z]);
    WrittenConcat([x], [y]);
    ApplyOne(EMPTY, x);
    ApplyOne(EMPTY, y);
    ApplyOne(EMPTY, z);
  }

  /** A transaction adds its body, enclosed by its two log records, and one audit and one event record. */
  lemma TransactionWrites(tid: Tid, op: Operation, body: seq<Step>, action: string, event: string)
    ensures var w := Written(body);
      Written(Transaction(tid, op, body, action, event)) ==
      w.(wal := [Pending(tid, op)] + w.wal + [Committed(tid)],
         audits := w.audits + [action], events := w.events + [event], uuids := Max(tid + 1, w.uuids))
  {
    hide ApplyAll;
    var first := [WalStep(Pending(tid, op))];
    var last := [AuditStep(action), EventStep(event), WalStep(Committed(tid))];
    WrittenConcat(first + body, last);
    WrittenConcat(first, body);
    WrittenEnd(action, event, tid);
    ApplyOne(EMPTY, WalStep(Pending(tid, op)));
  }

  /** The errors the services raise. */
  datatype Error =
    | MissingField
    | PeriodClosed
    // accounting
    | TooFewLines | SeveralCurrencies | UnknownAccount | NegativeAmount | NoAmount | BothAmounts
    | Unbalanced | DuplicateJournal
    // inventory
    | ZeroQuantity | NegativeCost | WrongDirection | DuplicateMovement | UnknownItem | InactiveItem
    | NegativeStock | DuplicateItem | BadTimestamp
    // billing
    | NoLines | NegativeRate | BadQuantity | NegativePrice | DuplicateInvoice | InsufficientStock
    | DuplicateRefund | UnknownInvoice | CurrencyMismatch | NoRefundableLines | NotAvailable | ExceedsRemaining
    // closing and reconciliation
    | ReconciliationFailed | LedgerUnreadable

  /** What an operation appends, and the error it then stops with, if any. */
  datatype Plan = Plan(steps: seq<Step>, error: Option<Error>)
  {
    predicate Succeeds() { error.None? }

    /** Stopped with an error before anything was written. */
    predicate Refused() { error.Some? && steps == [] }
  }

  // ---------------------------------------------------------------- the file store

  /** CoreFileStore: append_record, append_wal_pending and append_wal_committed are one append each. */
  class Store {
    var wal: seq<WalRecord>
    var entries: seq<JournalEntry>
    var lines: seq<LedgerLine>
    var periods: seq<string>
    var items: seq<Item>
    var movements: seq<Movement>
    var invoices: seq<Invoice>
    var invoiceLines: seq<InvoiceLine>
    var refunds: seq<Refund>
    var refundLines: seq<RefundLine>
    var audits: seq<string>
    var events: seq<string>
    var reconciliations: seq<RecoveryRecord>
    var uuids: nat

    constructor ()
      ensures View() == EMPTY
    {
      wal, entries, lines, periods, items, movements := [], [], [], [], [], [];
      invoices, invoiceLines, refunds, refundLines := [], [], [], [];
      audits, events, reconciliations, uuids := [], [], [], 0;
    }

    function View(): Books
      reads this
    {
      Books(wal, entries, lines, periods, items, movements, invoices, invoiceLines, refunds, refundLines,
            audits, events, reconciliations, uuids)
    }

    method Append(s: Step)
      modifies this
      ensures View() == Apply(old(View()), s)
    {
      if s.InvoiceStep? || s.InvoiceLineStep? || s.RefundStep? || s.RefundLineStep? {
        AppendDocument(s);
      } else if s.AuditStep? || s.EventStep? || s.ReconciliationStep? || s.WalStep? {
        AppendTrace(s);
      } else {
        match s {
          case EntryStep(x) => entries := entries + [x];
          case LineStep(x) => lines := lines + [x];
          case PeriodStep(x) => periods := periods + [x];
          case ItemStep(x) => items := items + [x];
          case MovementStep(x) => movements := movements + [x];
          case _ =>
        }
      }
    }

    method AppendDocument(s: Step)
      requires s.InvoiceStep? || s.InvoiceLineStep? || s.RefundStep? || s.RefundLineStep?
      modifies this
      ensures View() == Apply(old(View()), s)
    {
      match s {
        case InvoiceStep(x) => invoices := invoices + [x];
        case InvoiceLineStep(x) => invoiceLines := invoiceLines + [x];
        case RefundStep(x) => refunds := refunds + [x];
        case RefundLineStep(x) => refundLines := refundLines + [x];
        case _ =>
      }
    }

    method AppendTrace(s: Step)
      requires s.AuditStep? || s.EventStep? || s.ReconciliationStep? || s.WalStep?
      modifies this
      ensures View() == Apply(old(View()), s)
    {
      match s {
        case WalStep(w) =>
          wal := wal + [w];
          uuids := Max(uuids, w.tid + 1);
        case AuditStep(x) => audits := audits + [x];
        case EventStep(x) => events := events + [x];
        case ReconciliationStep(x) => reconciliations := reconciliations + [x];
        case _ =>
      }
    }

    /** Appends in a loop, as the services do for lines. */
    method AppendEach(steps: seq<Step>)
      modifies this
      ensures View() == ApplyAll(old(View()), steps)
    {
      hide Apply;
      var i := 0;
      while i < |steps|
        invariant 0 <= i <= |steps|
        invariant View() == ApplyAll(old(View()), steps[..i])
      {
        Append(steps[i]);
        assert steps[..i + 1][..i] == steps[..i];
        i := i + 1;
      }
      assert steps[..i] == steps;
    }
  }

  // ---------------------------------------------------------------- sums

  function Sum<T>(xs: seq<T>, f: T -> int): int {
    if xs == [] then 0 else Sum(xs[..|xs| - 1], f) + f(xs[|xs| - 1])
  }

  lemma {:induction false} SumConcat<T>(xs: seq<T>, ys: seq<T>, f: T -> int)
    ensures Sum(xs + ys, f) == Sum(xs, f) + Sum(ys, f)
  {
    if ys == [] {
      assert xs + ys == xs;
    } else {
      var n := |ys| - 1;
      SumConcat(xs, ys[..n], f);
      assert (xs + ys)[..|xs + ys| - 1] == xs + ys[..n];
    }
  }

  lemma SumOne<T>(x: T, f: T -> int)
    ensures Sum([x], f) == f(x)
  {
    assert [x][..0] == [];
  }

  lemma SumTwo<T>(x: T, y: T, f: T -> int)
    ensures Sum([x, y], f) == f(x) + f(y)
  {
    assert [x, y] == [x] + [y];
    SumConcat([x], [y], f);
    SumOne(x, f);
    SumOne(y, f);
  }

  lemma {:induction false} SumSame<T>(xs: seq<T>, f: T -> int, g: T -> int)
    requires forall x :: x in xs ==> f(x) == g(x)
    ensures Sum(xs, f) == Sum(xs, g)
  {
    if xs != [] {
      var n := |xs| - 1;
      assert xs[n] in xs;
      forall x | x in xs[..n]
        ensures x in xs
      {
      }
      SumSame(xs[..n], f, g);
    }
  }

  /** Two lists whose elements weigh the same place by place. */
  lemma {:induction false} SumPointwise<S, T>(xs: seq<S>, f: S -> int, ys: seq<T>, g: T -> int)
    requires |xs| == |ys| && forall i :: 0 <= i < |xs| ==> f(xs[i]) == g(ys[i])
    ensures Sum(xs, f) == Sum(ys, g)
  {
    if xs != [] {
      var n := |xs| - 1;
      SumPointwise(xs[..n], f, ys[..n], g);
    }
  }

  lemma {:induction false} SumZero<T>(xs: seq<T>, f: T -> int)
    requires forall x :: x in xs ==> f(x) == 0
    ensures Sum(xs, f) == 0
  {
    if xs != [] {
      var n := |xs| - 1;
      assert xs[n] in xs;
      forall x | x in xs[..n]
        ensures x in xs
      {
      }
      SumZero(xs[..n], f);
    }
  }

  /** The part of a weight that belongs to one key. */
  function Restrict<T, K(==)>(key: T -> K, k: K, w: T -> int): T -> int {
    x => if key(x) == k then w(x) else 0
  }

  function SumPerKey<T, K(==)>(xs: seq<T>, keys: seq<K>, key: T -> K, w: T -> int): int {
    if keys == [] then 0
    else SumPerKey(xs, keys[..|keys| - 1], key, w) + Sum(xs, Restrict(key, keys[|keys| - 1], w))
  }

  predicate Distinct<K(==)>(keys: seq<K>) { forall i, j :: 0 <= i < j < |keys| ==> keys[i] != keys[j] }

  lemma {:induction false} SumPerKeyAdds<T, K>(xs: seq<T>, x: T, keys: seq<K>, key: T -> K, w: T -> int)
    requires Distinct(keys)
    ensures SumPerKey(xs + [x], keys, key, w) ==
            SumPerKey(xs, keys, key, w) + (if key(x) in keys then w(x) else 0)
  {
    if keys != [] {
      var n := |keys| - 1;
      SumPerKeyAdds(xs, x, keys[..n], key, w);
      var f := Restrict(key, keys[n], w);
      SumConcat(xs, [x], f);
      SumOne(x, f);
      assert keys == keys[..n] + [keys[n]];
      assert key(x) in keys <==> key(x) in keys[..n] || key(x) == keys[n];
    }
  }

  lemma {:induction false} SumPerKeyEmpty<T, K>(keys: seq<K>, key: T -> K, w: T -> int)
    ensures SumPerKey([], keys, key, w) == 0
  {
    if keys != [] {
      SumPerKeyEmpty(keys[..|keys| - 1], key, w);
    }
  }

  /** Summing key by key is summing everything, when the keys cover the elements. */
  lemma {:induction false} PartitionSum<T, K>(xs: seq<T>, keys: seq<K>, key: T -> K, w: T -> int)
    requires Distinct(keys) && forall x :: x in xs ==> key(x) in keys
    ensures SumPerKey(xs, keys, key, w) == Sum(xs, w)
  {
    if xs == [] {
      SumPerKeyEmpty(keys, key, w);
    } else {
      var n := |xs| - 1;
      assert xs == xs[..n] + [xs[n]];
      assert xs[n] in xs && forall x :: x in xs[..n] ==> x in xs;
      PartitionSum(xs[..n], keys, key, w);
      SumPerKeyAdds(xs[..n], xs[n], keys, key, w);
    }
  }
}
