/** src/bms/app/startup.py and src/bms/app/recovery.py: startup health, durable side effects of pending
    transactions, and automatic recovery. */
module Recovery {
  import opened Status
  import opened Text
  import opened Books
  import opened Accounting
  import opened Inventory
  import opened Billing
  import Wal
  import Log = WalMeaning
  import JsonlStore
  import JsonPayload
  import View = PendingView

  // ---------------------------------------------------------------- the log

  function CommittedIds(wal: seq<WalRecord>): set<Tid> { set r | r in wal && r.Committed? :: r.tid }

  function TidsOf(wal: seq<WalRecord>): set<Tid> { set r | r in wal :: r.tid }

  function PendingAmong(wal: seq<WalRecord>, committed: set<Tid>): seq<WalRecord> {
    if wal == [] then [] else
    var before := PendingAmong(wal[..|wal| - 1], committed);
    var r := wal[|wal| - 1];
    if r.Pending? && r.tid !in committed then before + [r] else before
  }

  /** The pending transactions without a commit, in order. */
  function PendingOf(wal: seq<WalRecord>): seq<WalRecord> { PendingAmong(wal, CommittedIds(wal)) }

  function KeptAmong(wal: seq<WalRecord>, committed: set<Tid>): seq<WalRecord> {
    if wal == [] then [] else
    var rest := KeptAmong(wal[1..], committed);
    if wal[0].Pending? && wal[0].tid !in committed then rest else [wal[0]] + rest
  }

  /** The log after a rollback. */
  function KeptOf(wal: seq<WalRecord>): seq<WalRecord> { KeptAmong(wal, CommittedIds(wal)) }

  predicate HasCommit(wal: seq<WalRecord>) { exists r :: r in wal && r.Committed? }

  // ---------------------------------------------------------------- startup

  datatype Health = Healthy | NeedsRecovery | Protected

  /** StartupHealthService.inspect over files that pass their integrity checks; `missing` says that a
      required snapshot is not there. */
  function HealthOf(b: Books, missing: bool): Health {
    if |TidsOf(b.wal)| > Wal.MAX_TRANSACTIONS then Protected
    else if PendingOf(b.wal) != [] then NeedsRecovery
    else if HasCommit(b.wal) && missing then NeedsRecovery
    else Healthy
  }

  // ---------------------------------------------------------------- side effects

  datatype Effect =
    | InvoiceExists | InvoiceLinesExist | RefundExists | RefundLinesExist
    | JournalEntryExists | JournalLinesExist | StockMovementExists | ItemExists

  predicate HasJournalLines(ls: seq<LedgerLine>, journalId: string) {
    exists i :: 0 <= i < |ls| && ls[i].journalId == journalId
  }

  predicate HasRefundLines(ls: seq<RefundLine>, refundId: string) {
    exists i :: 0 <= i < |ls| && ls[i].refundId == refundId
  }

  predicate HasItem(items: seq<Item>, itemId: string) {
    exists i :: 0 <= i < |items| && items[i].itemId == itemId
  }

  function When(found: bool, e: Effect): seq<Effect> { if found then [e] else [] }

  function JournalEffects(b: Books, journalId: string): seq<Effect> {
    When(HasJournal(b.entries, journalId), JournalEntryExists)
    + When(HasJournalLines(b.lines, journalId), JournalLinesExist)
  }

  function MovementEffects(b: Books, ids: seq<string>): seq<Effect> {
    if ids == [] then []
    else MovementEffects(b, ids[..|ids| - 1]) + When(HasMovement(b.movements, ids[|ids| - 1]), StockMovementExists)
  }

  /** _durable_side_effects_for_pending_operation; closing a period has no entry in the table. */
  function SideEffects(b: Books, op: Operation): seq<Effect> {
    match op
    case CreateInvoiceOp(invoiceId, journalId, movementIds) =>
      When(HasInvoice(b.invoices, invoiceId), InvoiceExists)
      + When(HasInvoiceLines(b.invoiceLines, invoiceId), InvoiceLinesExist)
      + JournalEffects(b, journalId) + MovementEffects(b, movementIds)
    case CreateRefundOp(refundId, journalId, movementIds) =>
      When(HasRefund(b.refunds, refundId), RefundExists)
      + When(HasRefundLines(b.refundLines, refundId), RefundLinesExist)
      + JournalEffects(b, journalId) + MovementEffects(b, movementIds)
    case PostJournalOp(journalId) => JournalEffects(b, journalId)
    case CommitMovementOp(movementId) => When(HasMovement(b.movements, movementId), StockMovementExists)
    case RegisterItemOp(itemId) => When(HasItem(b.items, itemId), ItemExists)
    case ClosePeriodOp(_) => []
  }

  predicate MovedUnder(b: Books, ids: seq<string>) {
    exists i, k :: 0 <= i < |b.movements| && 0 <= k < |ids| && b.movements[i].movementId == ids[k]
  }

  /** What the effect says of the files, for an operation that announces such a record. */
  predicate Found(b: Books, op: Operation, e: Effect) {
    match e
    case InvoiceExists => op.CreateInvoiceOp?
      && exists i :: 0 <= i < |b.invoices| && b.invoices[i].invoiceId == op.invoiceId
    case InvoiceLinesExist => op.CreateInvoiceOp?
      && exists i :: 0 <= i < |b.invoiceLines| && b.invoiceLines[i].invoiceId == op.invoiceId
    case RefundExists => op.CreateRefundOp? && exists i :: 0 <= i < |b.refunds| && b.refunds[i].refundId == op.refundId
    case RefundLinesExist => op.CreateRefundOp?
      && exists i :: 0 <= i < |b.refundLines| && b.refundLines[i].refundId == op.refundId
    case JournalEntryExists =>
      (op.CreateInvoiceOp? || op.CreateRefundOp? || op.PostJournalOp?)
        && exists i :: 0 <= i < |b.entries| && b.entries[i].journalId == op.journalId
    case JournalLinesExist =>
      (op.CreateInvoiceOp? || op.CreateRefundOp? || op.PostJournalOp?)
        && exists i :: 0 <= i < |b.lines| && b.lines[i].journalId == op.journalId
    case StockMovementExists =>
      || ((op.CreateInvoiceOp? || op.CreateRefundOp?) && MovedUnder(b, op.movementIds))
      || (op.CommitMovementOp? && exists i :: 0 <= i < |b.movements| && b.movements[i].movementId == op.movementId)
    case ItemExists => op.RegisterItemOp? && exists i :: 0 <= i < |b.items| && b.items[i].itemId == op.itemId
  }

  lemma {:induction false} MovementsFound(b: Books, ids: seq<string>, e: Effect)
    ensures e in MovementEffects(b, ids) <==> e == StockMovementExists && MovedUnder(b, ids)
  {
    if ids != [] {
      var n := |ids| - 1;
      MovementsFound(b, ids[..n], e);
      assert MovedUnder(b, ids) <==> MovedUnder(b, ids[..n]) || HasMovement(b.movements, ids[n]) by {
        if MovedUnder(b, ids[..n]) {
          var i, k :| 0 <= i < |b.movements| && 0 <= k < n && b.movements[i].movementId == ids[..n][k];
          assert b.movements[i].movementId == ids[k];
        }
        if MovedUnder(b, ids) && !HasMovement(b.movements, ids[n]) {
          var i, k :| 0 <= i < |b.movements| && 0 <= k < |ids| && b.movements[i].movementId == ids[k];
          assert b.movements[i].movementId == ids[..n][k];
        }
      }
    }
  }

  lemma JournalFound(b: Books, journalId: string, e: Effect)
    ensures e in JournalEffects(b, journalId) <==>
      (e == JournalEntryExists && exists i :: 0 <= i < |b.entries| && b.entries[i].journalId == journalId)
      || (e == JournalLinesExist && exists i :: 0 <= i < |b.lines| && b.lines[i].journalId == journalId)
  {
  }

  /** The side effects of an operation are exactly the records of it that are found. */
  lemma EffectsAreFound(b: Books, op: Operation, e: Effect)
    ensures e in SideEffects(b, op) <==> Found(b, op, e)
  {
    if op.CreateInvoiceOp? || op.CreateRefundOp? {
      MovementsFound(b, op.movementIds, e);
    }
    if op.CreateInvoiceOp? || op.CreateRefundOp? || op.PostJournalOp? {
      JournalFound(b, op.journalId, e);
    }
    hide MovementEffects, MovedUnder, JournalEffects;
  }

  predicate Unsafe(b: Books, r: WalRecord) { r.Pending? && SideEffects(b, r.op) != [] }

  predicate AnyUnsafe(b: Books, pending: seq<WalRecord>) { exists i :: 0 <= i < |pending| && Unsafe(b, pending[i]) }

  // ---------------------------------------------------------------- automatic recovery

  datatype RecoveryError = CannotRecoverProtected | DurableSideEffects | NotHealthyAfterwards

  datatype RecoveryResult = RecoveryResult(books: Books, error: Option<RecoveryError>)

  /** recover_application_storage. */
  function RecoverOf(b: Books, missing: bool): RecoveryResult {
    match HealthOf(b, missing)
    case Protected => RecoveryResult(b, Some(CannotRecoverProtected))
    case Healthy => RecoveryResult(b, None)
    case NeedsRecovery =>
      if AnyUnsafe(b, PendingOf(b.wal)) then RecoveryResult(b, Some(DurableSideEffects)) else
      var r := b.(wal := KeptOf(b.wal));
      RecoveryResult(r, if HealthOf(r, missing) == Healthy then None else Some(NotHealthyAfterwards))
  }

  class RecoveryService {
    const store: Store

    constructor (store: Store)
      ensures this.store == store
    {
      this.store := store;
    }

    /** _pending_transactions on well-formed log records. */
    method PendingTransactions() returns (pending: seq<WalRecord>)
      ensures pending == PendingOf(store.wal)
    {
      var committed: set<Tid> := {};
      var wal := store.wal;
      for i := 0 to |wal|
        invariant committed == CommittedIds(wal[..i])
      {
        assert wal[..i + 1] == wal[..i] + [wal[i]];
        if wal[i].Committed? {
          committed := committed + {wal[i].tid};
        }
      }
      assert wal[..|wal|] == wal;
      pending := [];
      for i := 0 to |wal|
        invariant pending == PendingAmong(wal[..i], committed)
      {
        assert wal[..i + 1][..i] == wal[..i];
        if wal[i].Pending? && wal[i].tid !in committed {
          pending := pending + [wal[i]];
        }
      }
      assert wal[..|wal|] == wal;
    }

    method MovementSideEffects(ids: seq<string>) returns (effects: seq<Effect>)
      ensures effects == MovementEffects(store.View(), ids)
    {
      effects := [];
      for i := 0 to |ids|
        invariant effects == MovementEffects(store.View(), ids[..i])
      {
        assert ids[..i + 1][..i] == ids[..i];
        effects := effects + When(HasMovement(store.movements, ids[i]), StockMovementExists);
      }
      assert ids[..|ids|] == ids;
    }

    method DurableSideEffects(op: Operation) returns (effects: seq<Effect>)
      ensures effects == SideEffects(store.View(), op)
    {
      hide MovementEffects;
      if op.CreateInvoiceOp? || op.CreateRefundOp? {
        var moved := MovementSideEffects(op.movementIds);
        var journal := JournalEffects(store.View(), op.journalId);
        if op.CreateInvoiceOp? {
          effects := When(HasInvoice(store.invoices, op.invoiceId), InvoiceExists)
            + When(HasInvoiceLines(store.invoiceLines, op.invoiceId), InvoiceLinesExist) + journal + moved;
        } else {
          effects := When(HasRefund(store.refunds, op.refundId), RefundExists)
            + When(HasRefundLines(store.refundLines, op.refundId), RefundLinesExist) + journal + moved;
        }
      } else {
        effects := SideEffects(store.View(), op);
      }
    }

    method AnyUnsafeTransaction(pending: seq<WalRecord>) returns (found: bool)
      ensures found <==> AnyUnsafe(store.View(), pending)
    {
      hide SideEffects;
      for i := 0 to |pending|
        invariant forall k :: 0 <= k < i ==> !Unsafe(store.View(), pending[k])
      {
        if pending[i].Pending? {
          var effects := DurableSideEffects(pending[i].op);
          if effects != [] {
            return true;
          }
        }
      }
      return false;
    }

    method RecoverStorage(missing: bool) returns (error: Option<RecoveryError>)
      modifies store
      ensures var r := RecoverOf(old(store.View()), missing);
        store.View() == r.books && error == r.error
    {
      hide TidsOf, PendingOf, KeptOf, HasCommit;
      var before := HealthOf(store.View(), missing);
      if before == Protected {
        return Some(CannotRecoverProtected);
      }
      if before == Healthy {
        return None;
      }
      var pending := PendingTransactions();
      var unsafe := AnyUnsafeTransaction(pending);
      if unsafe {
        return Some(RecoveryError.DurableSideEffects);
      }
      store.wal := KeptOf(store.wal);
      if HealthOf(store.View(), missing) != Healthy {
        return Some(NotHealthyAfterwards);
      }
      return None;
    }
  }

  // ---------------------------------------------------------------- against the native core

  function LogEntry(r: WalRecord): Wal.Entry {
    Wal.Entry(Decimal(r.tid), if r.Pending? then "pending" else "committed")
  }

  function LogEntries(wal: seq<WalRecord>): (es: seq<Wal.Entry>)
    ensures |es| == |wal| && forall i :: 0 <= i < |wal| ==> es[i] == LogEntry(wal[i])
  {
    seq(|wal|, i requires 0 <= i < |wal| => LogEntry(wal[i]))
  }

  lemma CommitSeen(wal: seq<WalRecord>, tid: Tid)
    ensures Log.Committed(LogEntries(wal), Decimal(tid)) <==> tid in CommittedIds(wal)
  {
    var es := LogEntries(wal);
    if Log.Committed(es, Decimal(tid)) {
      var i :| 0 <= i < |es| && es[i] == Wal.Entry(Decimal(tid), "committed");
      DecimalInjective(wal[i].tid, tid);
      assert "pending"[0] != "committed"[0];
      assert wal[i] in wal;
    }
    if tid in CommittedIds(wal) {
      var i :| 0 <= i < |wal| && wal[i] == Committed(tid);
      assert es[i] == Wal.Entry(Decimal(tid), "committed");
    }
  }

  lemma KeptSeen(wal: seq<WalRecord>, r: WalRecord)
    ensures Log.Kept(LogEntries(wal), LogEntry(r)) <==> !(r.Pending? && r.tid !in CommittedIds(wal))
  {
    CommitSeen(wal, r.tid);
    assert "pending"[0] != "committed"[0];
  }

  lemma {:induction false} PendingMembers(wal: seq<WalRecord>, committed: set<Tid>, r: WalRecord)
    ensures r in PendingAmong(wal, committed) <==> r in wal && r.Pending? && r.tid !in committed
  {
    if wal != [] {
      PendingMembers(wal[..|wal| - 1], committed, r);
      assert wal == wal[..|wal| - 1] + [wal[|wal| - 1]];
    }
  }

  lemma PendingSeen(wal: seq<WalRecord>)
    ensures Log.Unresolved(LogEntries(wal)) <==> PendingOf(wal) != []
    ensures Log.AnyCommit(LogEntries(wal)) <==> HasCommit(wal)
  {
    hide CommittedIds, Log.Kept, PendingAmong;
    var es := LogEntries(wal);
    if Log.Unresolved(es) {
      var e :| e in es && !Log.Kept(es, e);
      var i :| 0 <= i < |es| && es[i] == e;
      KeptSeen(wal, wal[i]);
      PendingMembers(wal, CommittedIds(wal), wal[i]);
    }
    if PendingOf(wal) != [] {
      var r := PendingOf(wal)[0];
      PendingMembers(wal, CommittedIds(wal), r);
      var i :| 0 <= i < |wal| && wal[i] == r;
      KeptSeen(wal, r);
      assert es[i] in es;
    }
    if HasCommit(wal) {
      var r :| r in wal && r.Committed?;
      var i :| 0 <= i < |wal| && wal[i] == r;
      assert es[i] in es;
    }
    if Log.AnyCommit(es) {
      var e :| e in es && e.state == "committed";
      var i :| 0 <= i < |es| && es[i] == e;
      assert "pending"[0] != "committed"[0];
      assert wal[i] in wal;
    }
  }

  lemma {:induction false} KeptIsSeen(part: seq<WalRecord>, wal: seq<WalRecord>)
    ensures Log.KeptEntries(LogEntries(part), LogEntries(wal)) == LogEntries(KeptAmong(part, CommittedIds(wal)))
  {
    hide Log.Kept, CommittedIds, LogEntry;
    if part != [] {
      KeptIsSeen(part[1..], wal);
      KeptSeen(wal, part[0]);
      assert LogEntries(part)[1..] == LogEntries(part[1..]);
    }
  }

  lemma {:induction false} SameCount(wal: seq<WalRecord>)
    ensures |Log.Tids(LogEntries(wal))| == |TidsOf(wal)|
  {
    hide LogEntry, LogEntries, TidsOf, Log.Tids;
    if wal == [] {
      NoTids();
    } else {
      var n := |wal| - 1;
      assert wal == wal[..n] + [wal[n]];
      SameCount(wal[..n]);
      OneMoreTid(wal[..n], wal[n]);
    }
  }

  lemma OneMoreTid(wal: seq<WalRecord>, r: WalRecord)
    requires |Log.Tids(LogEntries(wal))| == |TidsOf(wal)|
    ensures |Log.Tids(LogEntries(wal + [r]))| == |TidsOf(wal + [r])|
  {
    hide LogEntry, Decimal, TidsOf, Log.Tids;
    assert LogEntries(wal + [r]) == LogEntries(wal) + [LogEntry(r)];
    RecordTidsGrow(wal, r);
    Log.TidsGrow(LogEntries(wal), LogEntry(r));
    TidSeen(wal, r.tid);
    Larger(Log.Tids(LogEntries(wal)), Decimal(r.tid));
    Larger(TidsOf(wal), r.tid);
  }

  lemma Larger<T>(s: set<T>, x: T)
    ensures |s + {x}| == if x in s then |s| else |s| + 1
  {
    if x in s {
      assert s + {x} == s;
    }
  }

  lemma NoTids()
    ensures Log.Tids(LogEntries([])) == {} && TidsOf([]) == {}
  {
  }

  lemma RecordTidsGrow(wal: seq<WalRecord>, r: WalRecord)
    ensures TidsOf(wal + [r]) == TidsOf(wal) + {r.tid} && LogEntry(r).tid == Decimal(r.tid)
  {
    hide Decimal;
    assert forall x :: x in wal + [r] <==> x in wal || x == r;
  }

  lemma TidSeen(wal: seq<WalRecord>, tid: Tid)
    ensures Decimal(tid) in Log.Tids(LogEntries(wal)) <==> tid in TidsOf(wal)
  {
    var es := LogEntries(wal);
    if Decimal(tid) in Log.Tids(es) {
      var i :| 0 <= i < |es| && es[i].tid == Decimal(tid);
      DecimalInjective(wal[i].tid, tid);
      assert wal[i] in wal;
    }
    if tid in TidsOf(wal) {
      var i :| 0 <= i < |wal| && wal[i].tid == tid;
      assert es[i] in es;
    }
  }

  /** On any verified log text that reads as these records, the native core decides as HealthOf says,
      and its rollback leaves a text that reads as KeptOf says. */
  lemma CoreDecides(lines: seq<string>, b: Books, missing: bool)
    requires JsonlStore.VerifyLines(lines) == Ok && Log.Reads(lines, LogEntries(b.wal))
    ensures Wal.Inspect(lines, missing) ==
      if HealthOf(b, missing) == Protected then (ProtectedMode, Wal.ProtectedReadOnly)
      else if HealthOf(b, missing) == Healthy then (Ok, Wal.Clean)
      else (RecoveryRequired, if PendingOf(b.wal) != [] then Wal.PendingRollback else Wal.CommittedMissingSnapshot)
    ensures HealthOf(b, missing) == NeedsRecovery && PendingOf(b.wal) != [] ==>
      Log.Reads(Wal.Recover(lines, missing).2, LogEntries(KeptOf(b.wal)))
  {
    Log.InspectDecides(lines, LogEntries(b.wal), missing);
    Log.RollbackIsExact(lines, LogEntries(b.wal), missing);
    PendingSeen(b.wal);
    SameCount(b.wal);
    KeptIsSeen(b.wal, b.wal);
    Log.KeptReads(lines, LogEntries(b.wal), LogEntries(b.wal));
    hide Wal.Inspect, Wal.Recover, Log.Reads, JsonlStore.VerifyLines, LogEntries, PendingOf, KeptOf, TidsOf,
      HasCommit, Log.KeptLines, Log.KeptEntries, Log.Tids, Log.Unresolved, Log.AnyCommit;
  }

  // ---------------------------------------------------------------- against the application's reading of the log

  /** The line of a record, with the body that announces its operation. */
  function RecordEnvelope(r: WalRecord, body: WalRecord -> JsonPayload.Json): View.Envelope {
    View.Envelope(Some(View.Payload(Some(if r.Pending? then "pending" else "committed"), Some(Decimal(r.tid)),
                                    Some(body(r)))), None)
  }

  function RecordEnvelopes(wal: seq<WalRecord>, body: WalRecord -> JsonPayload.Json): (es: seq<View.Envelope>)
    ensures |es| == |wal| && forall i :: 0 <= i < |wal| ==> es[i] == RecordEnvelope(wal[i], body)
  {
    seq(|wal|, i requires 0 <= i < |wal| => RecordEnvelope(wal[i], body))
  }

  /** The list names the pending records, in order. */
  predicate Lists(listed: seq<View.Listing>, pending: seq<WalRecord>) {
    |listed| == |pending|
      && forall i :: 0 <= i < |listed| ==> listed[i].Known? && listed[i].tid == Decimal(pending[i].tid)
  }

  lemma ListedOne(r: WalRecord, body: WalRecord -> JsonPayload.Json, names: set<string>)
    ensures View.Listed(RecordEnvelope(r, body), names) ==
      if r.Pending? && Decimal(r.tid) !in names then [View.Known(Decimal(r.tid), body(r), "unknown")] else []
  {
    hide Decimal;
    assert "pending"[0] != "committed"[0];
  }

  lemma ListsMore(listed: seq<View.Listing>, pending: seq<WalRecord>, more: seq<View.Listing>, one: seq<WalRecord>)
    requires Lists(listed, pending) && Lists(more, one)
    ensures Lists(listed + more, pending + one)
  {
    hide Decimal;
  }

  lemma {:induction false} ListsAmong(wal: seq<WalRecord>, body: WalRecord -> JsonPayload.Json, names: set<string>,
                                      committed: set<Tid>)
    requires forall r :: r in wal ==> (Decimal(r.tid) in names <==> r.tid in committed)
    ensures Lists(View.Listings(RecordEnvelopes(wal, body), names), PendingAmong(wal, committed))
  {
    hide Decimal, View.Listed, RecordEnvelope;
    if wal == [] {
      NothingListed(names);
    } else {
      hide Lists;
      var n := |wal| - 1;
      var before, last := PendingAmong(wal[..n], committed), wal[n];
      assert wal == wal[..n] + [last] && last in wal;
      ListsAmong(wal[..n], body, names, committed);
      assert RecordEnvelopes(wal, body)[..n] == RecordEnvelopes(wal[..n], body);
      ListedOne(last, body, names);
      var more := View.Listed(RecordEnvelope(last, body), names);
      var one := if last.Pending? && last.tid !in committed then [last] else [];
      ListsOne(more, one, last, body);
      ListsMore(View.Listings(RecordEnvelopes(wal[..n], body), names), before, more, one);
      assert before + one == PendingAmong(wal, committed);
    }
  }

  lemma NothingListed(names: set<string>)
    ensures Lists([], []) && View.Listings([], names) == []
  {
  }

  lemma ListsOne(more: seq<View.Listing>, one: seq<WalRecord>, r: WalRecord, body: WalRecord -> JsonPayload.Json)
    requires (more == [] && one == []) || (more == [View.Known(Decimal(r.tid), body(r), "unknown")] && one == [r])
    ensures Lists(more, one)
  {
    hide Decimal;
  }

  lemma NamesCommitted(wal: seq<WalRecord>, body: WalRecord -> JsonPayload.Json, tid: Tid)
    ensures Decimal(tid) in View.CommittedTids(RecordEnvelopes(wal, body)) <==> tid in CommittedIds(wal)
  {
    hide Decimal;
    var es := RecordEnvelopes(wal, body);
    assert "pending"[0] != "committed"[0];
    if Decimal(tid) in View.CommittedTids(es) {
      var e :| e in es && View.IsCommit(e) && e.payload.value.tid.value == Decimal(tid);
      var i :| 0 <= i < |es| && es[i] == e;
      DecimalInjective(wal[i].tid, tid);
      assert wal[i] in wal;
    }
    if tid in CommittedIds(wal) {
      var r :| r in wal && r.Committed? && r.tid == tid;
      var i :| 0 <= i < |wal| && wal[i] == r;
      assert es[i] in es;
    }
  }

  /** The list the application makes of the lines is the list of these records. */
  lemma PendingIsListed(wal: seq<WalRecord>, body: WalRecord -> JsonPayload.Json)
    ensures var es := RecordEnvelopes(wal, body);
      Lists(View.Listings(es, View.CommittedTids(es)), PendingOf(wal))
  {
    hide Decimal, View.CommittedTids, CommittedIds, PendingAmong;
    var names := View.CommittedTids(RecordEnvelopes(wal, body));
    forall r | r in wal
      ensures Decimal(r.tid) in names <==> r.tid in CommittedIds(wal)
    {
      NamesCommitted(wal, body, r.tid);
    }
    ListsAmong(wal, body, names, CommittedIds(wal));
  }

  // ---------------------------------------------------------------- what recovery may change

  lemma {:induction false} NothingPendingKeepsAll(wal: seq<WalRecord>, committed: set<Tid>)
    requires forall r :: r in wal && r.Pending? ==> r.tid in committed
    ensures KeptAmong(wal, committed) == wal
  {
    if wal != [] {
      assert wal[0] in wal && forall r :: r in wal[1..] ==> r in wal;
      NothingPendingKeepsAll(wal[1..], committed);
    }
  }

  /** Whatever the state, automatic recovery only ever drops pending log records without a commit, and
      only when none of them has a durable side effect. */
  lemma RecoveryOnlyDropsPending(b: Books, missing: bool)
    ensures var r := RecoverOf(b, missing).books;
      r == b || (r == b.(wal := KeptOf(b.wal)) && !AnyUnsafe(b, PendingOf(b.wal)))
    ensures RecoverOf(b, missing).error.None? ==> PendingOf(RecoverOf(b, missing).books.wal) == []
    ensures RecoverOf(b, missing).error == Some(DurableSideEffects) ==> AnyUnsafe(b, PendingOf(b.wal))
  {
    hide PendingOf, KeptOf, TidsOf, Unsafe;
  }
}
