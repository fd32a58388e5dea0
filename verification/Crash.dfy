/** Cutting an operation short at any append: what startup finds, and what automatic recovery makes of it. */
module Crash {
  import opened Status
  import opened Books
  import opened Accounting
  import opened Inventory
  import opened Billing
  import opened Writes
  import opened Reconciliation
  import opened SaleAgreement
  import opened ReturnAgreement
  import opened Runs
  import opened Stops
  import opened Equation
  import opened Recovery
  import Log = WalMeaning
  import Wal

  // ---------------------------------------------------------------- a clean log

  /** Every announced transaction is committed, and the next id is new. */
  ghost predicate Tidy(b: Books) {
    && (forall r :: r in b.wal ==> r.tid < b.uuids)
    && (forall r :: r in b.wal && r.Pending? ==> Committed(r.tid) in b.wal)
  }

  lemma TidyHasNothingPending(b: Books)
    requires Tidy(b)
    ensures PendingOf(b.wal) == [] && KeptOf(b.wal) == b.wal
  {
    forall r | r in b.wal && r.Pending?
      ensures r.tid in CommittedIds(b.wal)
    {
      assert Committed(r.tid) in b.wal;
    }
    NothingPendingKeepsAll(b.wal, CommittedIds(b.wal));
    if PendingOf(b.wal) != [] {
      PendingMembers(b.wal, CommittedIds(b.wal), PendingOf(b.wal)[0]);
    }
  }

  /** Log records of a plan: ids from `lo` on, every announced transaction committed. */
  ghost predicate WellLogged(d: Books, lo: nat) {
    && (forall r :: r in d.wal ==> lo <= r.tid < d.uuids)
    && (forall r :: r in d.wal && r.Pending? ==> Committed(r.tid) in d.wal)
  }

  lemma WellLoggedPlus(a: Books, b: Books, lo: nat, next: nat)
    requires WellLogged(a, lo) && WellLogged(b, next) && lo <= next
    ensures WellLogged(Plus(a, b), lo)
  {
  }

  lemma WellLoggedConcat(xs: seq<Step>, ys: seq<Step>, lo: nat, next: nat)
    requires WellLogged(Written(xs), lo) && WellLogged(Written(ys), next) && lo <= next
    ensures WellLogged(Written(xs + ys), lo)
  {
    hide *;
    WrittenConcat(xs, ys);
    WellLoggedPlus(Written(xs), Written(ys), lo, next);
  }

  lemma WellLoggedTransaction(tid: Tid, op: Operation, body: seq<Step>, action: string, event: string)
    requires WellLogged(Written(body), tid + 1)
    ensures WellLogged(Written(Transaction(tid, op, body, action, event)), tid)
  {
    hide Written, Transaction;
    TransactionWrites(tid, op, body, action, event);
  }

  lemma Unlogged(d: Books, lo: nat)
    requires d.wal == []
    ensures WellLogged(d, lo)
  {
  }

  lemma TidyAfter(b: Books, steps: seq<Step>)
    requires Tidy(b) && WellLogged(Written(steps), b.uuids)
    ensures Tidy(ApplyAll(b, steps))
  {
    hide Written;
    WritesAdd(b, steps);
  }

  lemma MovementLogged(b: Books, allowNegative: bool, c: StockCommand)
    ensures WellLogged(Written(MovementPlan(b, allowNegative, c).steps), b.uuids)
  {
    hide Written, MovementOf, RefuseMovement, Transaction, WellLogged;
    NothingWritten();
    Unlogged(EMPTY, b.uuids);
    if MovementPlan(b, allowNegative, c).Succeeds() {
      var body := [MovementStep(MovementOf(b.movements, c))];
      OneMovementWritten(MovementOf(b.movements, c));
      Unlogged(Written(body), b.uuids + 1);
      WellLoggedTransaction(b.uuids, CommitMovementOp(c.movementId), body, "inventory.stock_moved",
                            "inventory.stock_moved.v1");
    }
  }

  lemma JournalLogged(b: Books, closed: set<string>, c: PostCommand)
    ensures WellLogged(Written(JournalPlan(b, closed, c).steps), b.uuids)
  {
    hide Written, EntryOf, LedgerLines, Transaction, RefuseJournal, WellLogged;
    NothingWritten();
    Unlogged(EMPTY, b.uuids);
    if JournalPlan(b, closed, c).Succeeds() {
      JournalWrites(b, closed, c);
      EntryWritten(EntryOf(c));
      LinesWritten(LedgerLines(c));
      WrittenConcat([EntryStep(EntryOf(c))], LineSteps(LedgerLines(c)));
      Unlogged(Written(JournalBody(c)), b.uuids + 1);
      WellLoggedTransaction(b.uuids, PostJournalOp(c.journalId), JournalBody(c),
                            "accounting.journal_posted", "accounting.journal_posted.v1");
    }
  }

  lemma {:induction false} SaleMovementsLogged(b: Books, allowNegative: bool, c: InvoiceCommand, i: nat)
    requires i <= |c.lines|
    ensures WellLogged(Written(SaleMovements(b, allowNegative, c, i).steps), b.uuids)
    decreases |c.lines| - i
  {
    hide Written, MovementPlan, SaleMovement, ApplyAll, WellLogged;
    NothingWritten();
    Unlogged(EMPTY, b.uuids);
    if i < |c.lines| {
      var first := MovementPlan(b, allowNegative, SaleMovement(b.movements, c, i));
      MovementLogged(b, allowNegative, SaleMovement(b.movements, c, i));
      if first.error.None? {
        var b1 := ApplyAll(b, first.steps);
        UuidsGrow(b, first.steps);
        SaleMovementsLogged(b1, allowNegative, c, i + 1);
        WellLoggedConcat(first.steps, SaleMovements(b1, allowNegative, c, i + 1).steps, b.uuids, b1.uuids);
      }
    }
  }

  lemma {:induction false} RefundMovementsLogged(b: Books, start: Books, allowNegative: bool, c: RefundCommand, i: nat)
    requires i <= |c.lines| && PositiveRequests(c)
    ensures WellLogged(Written(RefundMovements(b, start, allowNegative, c, i).steps), b.uuids)
    decreases |c.lines| - i
  {
    hide Written, MovementPlan, RefundMovement, ApplyAll, WellLogged;
    NothingWritten();
    Unlogged(EMPTY, b.uuids);
    if i < |c.lines| {
      if !c.lines[i].restock {
        RefundMovementsLogged(b, start, allowNegative, c, i + 1);
      } else {
        var first := MovementPlan(b, allowNegative, RefundMovement(start, c, i));
        MovementLogged(b, allowNegative, RefundMovement(start, c, i));
        if first.error.None? {
          var b1 := ApplyAll(b, first.steps);
          UuidsGrow(b, first.steps);
          RefundMovementsLogged(b1, start, allowNegative, c, i + 1);
          WellLoggedConcat(first.steps, RefundMovements(b1, start, allowNegative, c, i + 1).steps, b.uuids, b1.uuids);
        }
      }
    }
  }

  // ---------------------------------------------------------------- side effects grow with the files

  lemma {:induction false} MovementEffectsGrow(a: Books, b: Books, ids: seq<string>)
    ensures MovementEffects(Plus(a, b), ids) != [] <==> MovementEffects(a, ids) != [] || MovementEffects(b, ids) != []
  {
    hide Plus, HasMovement;
    if ids != [] {
      MovementEffectsGrow(a, b, ids[..|ids| - 1]);
      MovementFoundIn(a, b, ids[|ids| - 1]);
    }
  }

  lemma MovementFoundIn(a: Books, b: Books, id: string)
    ensures HasMovement(Plus(a, b).movements, id) <==> HasMovement(a.movements, id) || HasMovement(b.movements, id)
  {
    var xs, ys := a.movements, b.movements;
    if i :| 0 <= i < |xs| && xs[i].movementId == id {
      assert (xs + ys)[i].movementId == id;
    }
    if i :| 0 <= i < |ys| && ys[i].movementId == id {
      assert (xs + ys)[|xs| + i].movementId == id;
    }
  }

  lemma JournalFoundIn(a: Books, b: Books, id: string)
    ensures HasJournal(Plus(a, b).entries, id) <==> HasJournal(a.entries, id) || HasJournal(b.entries, id)
    ensures HasJournalLines(Plus(a, b).lines, id) <==> HasJournalLines(a.lines, id) || HasJournalLines(b.lines, id)
  {
    var xs, ys := a.entries, b.entries;
    if i :| 0 <= i < |xs| && xs[i].journalId == id {
      assert (xs + ys)[i].journalId == id;
    }
    if i :| 0 <= i < |ys| && ys[i].journalId == id {
      assert (xs + ys)[|xs| + i].journalId == id;
    }
    var vs, ws := a.lines, b.lines;
    if i :| 0 <= i < |vs| && vs[i].journalId == id {
      assert (vs + ws)[i].journalId == id;
    }
    if i :| 0 <= i < |ws| && ws[i].journalId == id {
      assert (vs + ws)[|vs| + i].journalId == id;
    }
  }

  lemma InvoiceFoundIn(a: Books, b: Books, id: string)
    ensures HasInvoice(Plus(a, b).invoices, id) <==> HasInvoice(a.invoices, id) || HasInvoice(b.invoices, id)
    ensures HasInvoiceLines(Plus(a, b).invoiceLines, id) <==> HasInvoiceLines(a.invoiceLines, id) || HasInvoiceLines(b.invoiceLines, id)
  {
    var xs, ys := a.invoices, b.invoices;
    if i :| 0 <= i < |xs| && xs[i].invoiceId == id {
      assert (xs + ys)[i].invoiceId == id;
    }
    if i :| 0 <= i < |ys| && ys[i].invoiceId == id {
      assert (xs + ys)[|xs| + i].invoiceId == id;
    }
    var vs, ws := a.invoiceLines, b.invoiceLines;
    if i :| 0 <= i < |vs| && vs[i].invoiceId == id {
      assert (vs + ws)[i].invoiceId == id;
    }
    if i :| 0 <= i < |ws| && ws[i].invoiceId == id {
      assert (vs + ws)[|vs| + i].invoiceId == id;
    }
  }

  lemma RefundFoundIn(a: Books, b: Books, id: string)
    ensures HasRefund(Plus(a, b).refunds, id) <==> HasRefund(a.refunds, id) || HasRefund(b.refunds, id)
    ensures HasRefundLines(Plus(a, b).refundLines, id) <==> HasRefundLines(a.refundLines, id) || HasRefundLines(b.refundLines, id)
  {
    var xs, ys := a.refunds, b.refunds;
    if i :| 0 <= i < |xs| && xs[i].refundId == id {
      assert (xs + ys)[i].refundId == id;
    }
    if i :| 0 <= i < |ys| && ys[i].refundId == id {
      assert (xs + ys)[|xs| + i].refundId == id;
    }
    var vs, ws := a.refundLines, b.refundLines;
    if i :| 0 <= i < |vs| && vs[i].refundId == id {
      assert (vs + ws)[i].refundId == id;
    }
    if i :| 0 <= i < |ws| && ws[i].refundId == id {
      assert (vs + ws)[|vs| + i].refundId == id;
    }
  }

  lemma ItemFoundIn(a: Books, b: Books, id: string)
    ensures HasItem(Plus(a, b).items, id) <==> HasItem(a.items, id) || HasItem(b.items, id)
  {
    var xs, ys := a.items, b.items;
    if i :| 0 <= i < |xs| && xs[i].itemId == id {
      assert (xs + ys)[i].itemId == id;
    }
    if i :| 0 <= i < |ys| && ys[i].itemId == id {
      assert (xs + ys)[|xs| + i].itemId == id;
    }
  }

  /** An operation shows in joined files exactly when it shows in one of them. */
  lemma EffectsGrow(a: Books, b: Books, op: Operation)
    ensures SideEffects(Plus(a, b), op) != [] <==> SideEffects(a, op) != [] || SideEffects(b, op) != []
  {
    hide Plus, HasInvoice, HasInvoiceLines, HasRefund, HasRefundLines, HasJournal, HasJournalLines, HasMovement,
      HasItem, MovementEffects;
    match op {
      case CreateInvoiceOp(invoiceId, journalId, movementIds) =>
        InvoiceFoundIn(a, b, invoiceId);
        JournalFoundIn(a, b, journalId);
        MovementEffectsGrow(a, b, movementIds);
      case CreateRefundOp(refundId, journalId, movementIds) =>
        RefundFoundIn(a, b, refundId);
        JournalFoundIn(a, b, journalId);
        MovementEffectsGrow(a, b, movementIds);
      case PostJournalOp(journalId) => JournalFoundIn(a, b, journalId);
      case CommitMovementOp(movementId) => MovementFoundIn(a, b, movementId);
      case RegisterItemOp(itemId) => ItemFoundIn(a, b, itemId);
      case ClosePeriodOp(_) =>
    }
  }

  lemma {:induction false} NoMovementEffects(b: Books, ids: seq<string>)
    ensures MovementEffects(b, ids) == [] <==> forall i :: 0 <= i < |ids| ==> !HasMovement(b.movements, ids[i])
  {
    hide HasMovement;
    if ids != [] {
      NoMovementEffects(b, ids[..|ids| - 1]);
    }
  }

  lemma EffectsOfDomain(b: Books, op: Operation)
    ensures SideEffects(Domain(b), op) == SideEffects(b, op)
  {
    if op.CreateInvoiceOp? || op.CreateRefundOp? {
      MovementEffectsOfDomain(b, op.movementIds);
    }
  }

  lemma {:induction false} MovementEffectsOfDomain(b: Books, ids: seq<string>)
    ensures MovementEffects(Domain(b), ids) == MovementEffects(b, ids)
  {
    if ids != [] {
      MovementEffectsOfDomain(b, ids[..|ids| - 1]);
    }
  }

  lemma NoEffectsOfNothing(op: Operation)
    ensures SideEffects(EMPTY, op) == []
  {
    if op.CreateInvoiceOp? || op.CreateRefundOp? {
      NoMovementEffects(EMPTY, op.movementIds);
    }
  }

  // ---------------------------------------------------------------- one transaction, cut at one append

  /** The transaction is not committed by any of the appends. */
  predicate Open(steps: seq<Step>, tid: Tid) { forall i :: 0 <= i < |steps| ==> steps[i] != WalStep(Committed(tid)) }

  lemma {:induction false} OpenWrites(steps: seq<Step>, tid: Tid)
    requires Open(steps, tid)
    ensures Committed(tid) !in Written(steps).wal
    decreases |steps|
  {
    if steps != [] {
      OpenWrites(steps[..|steps| - 1], tid);
    }
  }

  lemma PendingWritten(tid: Tid, op: Operation)
    ensures Written([WalStep(Pending(tid, op))]) == EMPTY.(wal := [Pending(tid, op)], uuids := tid + 1)
  {
    ApplyOne(EMPTY, WalStep(Pending(tid, op)));
  }

  lemma StillPending(b: Books, d: Books, r: WalRecord)
    requires Tidy(b) && r.Pending? && r.tid >= b.uuids && r in d.wal && Committed(r.tid) !in d.wal
    ensures r in PendingOf(Plus(b, d).wal)
  {
    PendingMembers(Plus(b, d).wal, CommittedIds(Plus(b, d).wal), r);
  }

  lemma PendingIsUnsafe(b: Books, r: WalRecord)
    requires r in PendingOf(b.wal) && r.Pending? && SideEffects(b, r.op) != []
    ensures AnyUnsafe(b, PendingOf(b.wal))
  {
    hide PendingOf, SideEffects;
    var i :| 0 <= i < |PendingOf(b.wal)| && PendingOf(b.wal)[i] == r;
    assert Unsafe(b, PendingOf(b.wal)[i]);
  }

  /** Appended announcements without commits are exactly what is pending, and a rollback drops them. */
  lemma OnlyAnnounced(b: Books, w: seq<WalRecord>)
    requires Tidy(b) && forall r :: r in w ==> r.Pending? && r.tid >= b.uuids
    ensures (forall r :: r in PendingOf(b.wal + w) ==> r in w) && KeptOf(b.wal + w) == b.wal
  {
    var all := b.wal + w;
    assert CommittedIds(all) == CommittedIds(b.wal);
    forall r | r in PendingOf(all)
      ensures r in w
    {
      PendingMembers(all, CommittedIds(all), r);
      assert r in b.wal ==> Committed(r.tid) in b.wal;
    }
    KeptConcat(b.wal, w, CommittedIds(all));
    forall r | r in b.wal && r.Pending?
      ensures r.tid in CommittedIds(b.wal)
    {
      assert Committed(r.tid) in b.wal;
    }
    NothingPendingKeepsAll(b.wal, CommittedIds(all));
    forall r | r in w
      ensures r.tid !in CommittedIds(all)
    {
    }
    AllPendingKeepsNothing(w, CommittedIds(all));
  }

  lemma {:induction false} KeptConcat(xs: seq<WalRecord>, ys: seq<WalRecord>, committed: set<Tid>)
    ensures KeptAmong(xs + ys, committed) == KeptAmong(xs, committed) + KeptAmong(ys, committed)
  {
    if xs == [] {
      assert xs + ys == ys;
    } else {
      assert (xs + ys)[1..] == xs[1..] + ys;
      KeptConcat(xs[1..], ys, committed);
    }
  }

  lemma {:induction false} AllPendingKeepsNothing(w: seq<WalRecord>, committed: set<Tid>)
    requires forall r :: r in w ==> r.Pending? && r.tid !in committed
    ensures KeptAmong(w, committed) == []
  {
    if w != [] {
      assert w[0] in w && forall r :: r in w[1..] ==> r in w;
      AllPendingKeepsNothing(w[1..], committed);
    }
  }

  /** Announcements of operations that left nothing behind are rolled back to the very files before. */
  lemma AnnouncedIsRestored(b: Books, r: Books)
    requires Tidy(b) && r.wal[..|r.wal|] == r.wal && |b.wal| < |r.wal|
    requires var w := r.wal[|b.wal|..];
      r == b.(wal := b.wal + w, uuids := r.uuids) && forall x :: x in w ==> x.Pending? && x.tid >= b.uuids && SideEffects(b, x.op) == []
    requires |TidsOf(r.wal)| <= Wal.MAX_TRANSACTIONS
    ensures HealthOf(r, false) == NeedsRecovery
    ensures RecoverOf(r, false) == RecoveryResult(b.(uuids := r.uuids), None)
  {
    hide TidsOf, SideEffects, KeptOf, PendingOf;
    var w := r.wal[|b.wal|..];
    OnlyAnnounced(b, w);
    SomethingPending(b, r, w);
    forall i | 0 <= i < |PendingOf(r.wal)|
      ensures !Unsafe(r, PendingOf(r.wal)[i])
    {
      assert PendingOf(r.wal)[i] in PendingOf(r.wal);
      SameEffects(b, r, PendingOf(r.wal)[i].op);
    }
    var back := r.(wal := KeptOf(r.wal));
    assert back == b.(uuids := r.uuids);
    TidyHasNothingPending(b);
    FewerTids(b.wal, w);
  }

  lemma SomethingPending(b: Books, r: Books, w: seq<WalRecord>)
    requires Tidy(b) && r.wal == b.wal + w && w != []
    requires forall x :: x in w ==> x.Pending? && x.tid >= b.uuids
    ensures PendingOf(r.wal) != []
  {
    assert w[0] in w;
    PendingMembers(r.wal, CommittedIds(r.wal), w[0]);
  }

  lemma SameEffects(b: Books, r: Books, op: Operation)
    requires r == b.(wal := r.wal, uuids := r.uuids)
    ensures SideEffects(r, op) == SideEffects(b, op)
  {
    EffectsOfDomain(b, op);
    EffectsOfDomain(r, op);
    assert Domain(b) == Domain(r);
  }

  lemma FewerTids(wal: seq<WalRecord>, w: seq<WalRecord>)
    ensures |TidsOf(wal)| <= |TidsOf(wal + w)|
  {
    assert forall x :: x in wal ==> x in wal + w;
    assert TidsOf(wal) <= TidsOf(wal + w);
    Log.Smaller(TidsOf(wal), TidsOf(wal + w));
  }

  function First(nested: Option<Operation>): nat { if nested.None? then 1 else 2 }

  /** Appends that announce an operation, then perhaps a nested one that left nothing behind yet, and whose
      next record shows the operation. They may stop after the first announcement. */
  ghost predicate Shaped(b: Books, op: Operation, steps: seq<Step>, nested: Option<Operation>) {
    && 0 < |steps| && steps[0] == WalStep(Pending(b.uuids, op))
    && (|steps| > 1 ==>
          && |steps| > First(nested)
          && (nested.Some? ==> steps[1] == WalStep(Pending(b.uuids + 1, nested.value)) && SideEffects(b, nested.value) == [])
          && SideEffects(Written(steps[..First(nested) + 1]), op) != [])
  }

  /** What the announcements write. */
  function Announced(b: Books, op: Operation, nested: Option<Operation>, k: nat): seq<WalRecord> {
    [Pending(b.uuids, op)] + (if k > 1 && nested.Some? then [Pending(b.uuids + 1, nested.value)] else [])
  }

  lemma AnnouncedWrites(b: Books, op: Operation, steps: seq<Step>, nested: Option<Operation>, k: nat)
    requires 0 < k <= First(nested) && k <= |steps| && steps[0] == WalStep(Pending(b.uuids, op))
    requires k > 1 && nested.Some? ==> steps[1] == WalStep(Pending(b.uuids + 1, nested.value))
    ensures var d := Written(steps[..k]);
      d == EMPTY.(wal := Announced(b, op, nested, k), uuids := d.uuids)
  {
    var p := [WalStep(Pending(b.uuids, op))];
    PendingWritten(b.uuids, op);
    hide Written;
    if k == 1 {
      assert steps[..k] == p;
    } else {
      var q := [WalStep(Pending(b.uuids + 1, nested.value))];
      assert steps[..k] == p + q;
      PendingWritten(b.uuids + 1, nested.value);
      WrittenConcat(p, q);
    }
  }

  lemma AnnouncedIsPending(b: Books, op: Operation, nested: Option<Operation>, k: nat)
    requires SideEffects(b, op) == [] && (k > 1 && nested.Some? ==> SideEffects(b, nested.value) == [])
    ensures var w := Announced(b, op, nested, k);
      w != [] && forall x :: x in w ==> x.Pending? && x.tid >= b.uuids && SideEffects(b, x.op) == []
  {
    hide SideEffects;
  }

  /** An announcement of an operation that shows in the files blocks automatic recovery. */
  lemma AnnouncementBlocks(b: Books, d: Books, op: Operation)
    requires Tidy(b) && Pending(b.uuids, op) in d.wal && Committed(b.uuids) !in d.wal
    requires SideEffects(b, op) != [] || SideEffects(d, op) != []
    requires |TidsOf(Plus(b, d).wal)| <= Wal.MAX_TRANSACTIONS
    ensures var r := Plus(b, d);
      HealthOf(r, false) == NeedsRecovery && RecoverOf(r, false) == RecoveryResult(r, Some(DurableSideEffects))
  {
    hide SideEffects, TidsOf, PendingOf, KeptOf, Tidy, AnyUnsafe;
    StillPending(b, d, Pending(b.uuids, op));
    EffectsGrow(b, d, op);
    PendingIsUnsafe(Plus(b, d), Pending(b.uuids, op));
  }

  lemma CutEarly(b: Books, op: Operation, steps: seq<Step>, nested: Option<Operation>, k: nat)
    requires Tidy(b) && Shaped(b, op, steps, nested) && 0 < k <= First(nested) && k <= |steps|
    requires |TidsOf(ApplyAll(b, steps[..k]).wal)| <= Wal.MAX_TRANSACTIONS
    ensures var r := ApplyAll(b, steps[..k]);
      && Domain(Written(steps[..k])) == EMPTY && HealthOf(r, false) == NeedsRecovery
      && RecoverOf(r, false) == if SideEffects(b, op) == [] then RecoveryResult(b.(uuids := r.uuids), None)
                                else RecoveryResult(r, Some(DurableSideEffects))
  {
    hide SideEffects, HealthOf, RecoverOf, Tidy, TidsOf, Written, ApplyAll, Announced;
    AnnouncedWrites(b, op, steps, nested, k);
    WritesAdd(b, steps[..k]);
    var r, w := ApplyAll(b, steps[..k]), Announced(b, op, nested, k);
    if SideEffects(b, op) == [] {
      AnnouncedIsPending(b, op, nested, k);
      assert r.wal[|b.wal|..] == w;
      AnnouncedIsRestored(b, r);
    } else {
      AnnouncedFirst(steps, b.uuids, op, k);
      NotCommittedYet(b, op, nested, k);
      AnnouncementBlocks(b, Written(steps[..k]), op);
    }
  }

  lemma NotCommittedYet(b: Books, op: Operation, nested: Option<Operation>, k: nat)
    ensures Committed(b.uuids) !in Announced(b, op, nested, k)
  {
  }

  lemma CutLate(b: Books, op: Operation, steps: seq<Step>, nested: Option<Operation>, k: nat)
    requires Tidy(b) && Shaped(b, op, steps, nested) && First(nested) < k <= |steps| && Open(steps[..k], b.uuids)
    requires |TidsOf(ApplyAll(b, steps[..k]).wal)| <= Wal.MAX_TRANSACTIONS
    ensures var r := ApplyAll(b, steps[..k]);
      && Domain(Written(steps[..k])) != EMPTY && HealthOf(r, false) == NeedsRecovery
      && RecoverOf(r, false) == RecoveryResult(r, Some(DurableSideEffects))
  {
    OpenWrites(steps[..k], b.uuids);
    ShowsLater(steps, op, First(nested) + 1, k);
    AnnouncedFirst(steps, b.uuids, op, k);
    hide *;
    WritesAdd(b, steps[..k]);
    AnnouncementBlocks(b, Written(steps[..k]), op);
  }

  lemma ShowsLater(steps: seq<Step>, op: Operation, n: nat, k: nat)
    requires n <= k <= |steps| && SideEffects(Written(steps[..n]), op) != []
    ensures SideEffects(Written(steps[..k]), op) != [] && Domain(Written(steps[..k])) != EMPTY
  {
    hide SideEffects, Written, Domain;
    assert steps[..k] == steps[..n] + steps[n..k];
    WrittenConcat(steps[..n], steps[n..k]);
    EffectsGrow(Written(steps[..n]), Written(steps[n..k]), op);
    EffectsOfDomain(Written(steps[..k]), op);
    NoEffectsOfNothing(op);
  }

  lemma AnnouncedFirst(steps: seq<Step>, tid: Tid, op: Operation, k: nat)
    requires 0 < k <= |steps| && steps[0] == WalStep(Pending(tid, op))
    ensures Pending(tid, op) in Written(steps[..k]).wal
  {
    PendingWritten(tid, op);
    hide Written;
    assert steps[..k] == [steps[0]] + steps[1..k];
    WrittenConcat([steps[0]], steps[1..k]);
  }

  // ---------------------------------------------------------------- the shape of each operation

  /** Ledger lines belong to stored journals and document lines to stored documents. */
  ghost predicate Filed(b: Books) { Linked(b) && forall l :: l in b.lines ==> HasJournal(b.entries, l.journalId) }

  /** And the log is clean. */
  ghost predicate Orderly(b: Books) { Tidy(b) && Filed(b) }

  lemma OrderlyIsBoth(b: Books)
    ensures Orderly(b) <==> Tidy(b) && Filed(b)
  {
    hide Tidy, Filed;
  }

  lemma NoJournalNoLines(b: Books, id: string)
    requires Filed(b) && !HasJournal(b.entries, id)
    ensures JournalEffects(b, id) == []
  {
    hide HasJournal, Tidy, Linked;
    assert forall i :: 0 <= i < |b.lines| ==> b.lines[i] in b.lines;
  }

  lemma NoInvoiceNoLines(b: Books, id: string)
    requires Linked(b) && !HasInvoice(b.invoices, id)
    ensures !HasInvoiceLines(b.invoiceLines, id)
  {
    InvoiceKnown(b.invoices, id);
    hide PeriodOfInvoice;
    forall i | 0 <= i < |b.invoiceLines|
      ensures b.invoiceLines[i].invoiceId != id
    {
      assert KnownInvoice(b, b.invoiceLines[i].invoiceId);
    }
  }

  lemma NoRefundNoLines(b: Books, id: string)
    requires Linked(b) && !HasRefund(b.refunds, id)
    ensures !HasRefundLines(b.refundLines, id)
  {
    RefundKnown(b.refunds, id);
    hide PeriodOfRefund;
    forall i | 0 <= i < |b.refundLines|
      ensures b.refundLines[i].refundId != id
    {
      assert KnownRefund(b, b.refundLines[i].refundId);
    }
  }

  lemma JournalShows(d: Books, e: JournalEntry)
    requires e in d.entries
    ensures HasJournal(d.entries, e.journalId) && JournalEffects(d, e.journalId) != []
  {
  }

  lemma RegisterShape(b: Books, item: Item)
    requires RegisterPlan(b, item).Succeeds()
    ensures Shaped(b, RegisterItemOp(item.itemId), RegisterPlan(b, item).steps, None)
    ensures SideEffects(b, RegisterItemOp(item.itemId)) == []
  {
    hide Written;
    var op, steps := RegisterItemOp(item.itemId), RegisterPlan(b, item).steps;
    ItemWritten(item);
    assert steps[..2] == [WalStep(Pending(b.uuids, op))] + [ItemStep(item)];
    WrittenConcat([WalStep(Pending(b.uuids, op))], [ItemStep(item)]);
    assert Written([ItemStep(item)]).items[0].itemId == item.itemId;
    assert HasItem(Written([ItemStep(item)]).items, item.itemId);
    ItemFoundIn(Written([WalStep(Pending(b.uuids, op))]), Written([ItemStep(item)]), item.itemId);
  }

  lemma PostShape(b: Books, closed: set<string>, c: PostCommand)
    requires JournalPlan(b, closed, c).Succeeds() && Filed(b)
    ensures Shaped(b, PostJournalOp(c.journalId), JournalPlan(b, closed, c).steps, None)
    ensures SideEffects(b, PostJournalOp(c.journalId)) == []
  {
    JournalStarts(b, closed, c);
    hide Written, HasJournal, Filed, JournalEffects, JournalPlan, EntryOf;
    NoJournalNoLines(b, c.journalId);
    EarlyEntry(c, JournalPlan(b, closed, c).steps, 1);
  }

  /** An operation whose journal has written its entry shows in the files. */
  lemma EarlyEntry(c: PostCommand, steps: seq<Step>, n: nat)
    requires c.lines != [] && n < |steps| && steps[n] == EntryStep(EntryOf(c))
    ensures JournalEffects(Written(steps[..n + 1]), c.journalId) != []
  {
    hide Written, EntryOf, JournalEffects;
    assert steps[..n + 1] == steps[..n] + [steps[n]];
    EntryWritten(EntryOf(c));
    WrittenConcat(steps[..n], [steps[n]]);
    EntryId(c);
    JournalShows(Written(steps[..n + 1]), EntryOf(c));
  }

  lemma EntryId(c: PostCommand)
    requires c.lines != []
    ensures EntryOf(c).journalId == c.journalId
  {
  }

  /** A journal plan announces itself and writes its entry. */
  lemma JournalStarts(b: Books, closed: set<string>, c: PostCommand)
    requires JournalPlan(b, closed, c).Succeeds()
    ensures c.lines != [] && !HasJournal(b.entries, c.journalId)
    ensures var steps := JournalPlan(b, closed, c).steps;
      |steps| >= 2 && steps[0] == WalStep(Pending(b.uuids, PostJournalOp(c.journalId))) && steps[1] == EntryStep(EntryOf(c))
  {
    JournalAccepted(b, closed, c);
    hide EntryOf, LedgerLines, HasJournal, RefuseJournal;
  }

  lemma {:induction false} SaleMovementsFresh(b: Books, allowNegative: bool, c: InvoiceCommand, i: nat)
    requires i <= |c.lines| && SaleMovements(b, allowNegative, c, i).Succeeds()
    ensures forall k :: i <= k < |c.lines| ==> !HasMovement(b.movements, SaleMovementId(c.invoiceId, k))
    decreases |c.lines| - i
  {
    hide Written, MovementPlan, MovementOf, ApplyAll, SaleMovementId, HasMovement, AverageCost;
    if i < |c.lines| {
      var command := SaleMovement(b.movements, c, i);
      var first := MovementPlan(b, allowNegative, command);
      var b1 := ApplyAll(b, first.steps);
      MovementAccepted(b, allowNegative, command);
      SaleMovementsFresh(b1, allowNegative, c, i + 1);
      WritesAdd(b, first.steps);
      forall k | i < k < |c.lines|
        ensures !HasMovement(b.movements, SaleMovementId(c.invoiceId, k))
      {
        MovementFoundIn(b, Written(first.steps), SaleMovementId(c.invoiceId, k));
      }
    }
  }

  lemma MovementAccepted(b: Books, allowNegative: bool, c: StockCommand)
    requires MovementPlan(b, allowNegative, c).Succeeds()
    ensures !HasMovement(b.movements, c.movementId)
  {
    hide HasMovement, MovementSteps, CheckItem, StockOnHand;
  }

  lemma {:induction false} RefundMovementsFresh(b: Books, start: Books, allowNegative: bool, c: RefundCommand, i: nat)
    requires i <= |c.lines| && PositiveRequests(c) && RefundMovements(b, start, allowNegative, c, i).Succeeds()
    ensures forall k :: i <= k < |c.lines| && c.lines[k].restock ==> !HasMovement(b.movements, RefundMovementId(c.refundId, k))
    decreases |c.lines| - i
  {
    hide Written, MovementPlan, MovementOf, ApplyAll, RefundMovementId, HasMovement, RestoredCost;
    if i < |c.lines| {
      if !c.lines[i].restock {
        RefundMovementsFresh(b, start, allowNegative, c, i + 1);
      } else {
        var command := RefundMovement(start, c, i);
        var first := MovementPlan(b, allowNegative, command);
        var b1 := ApplyAll(b, first.steps);
        MovementAccepted(b, allowNegative, command);
        RefundMovementsFresh(b1, start, allowNegative, c, i + 1);
        WritesAdd(b, first.steps);
        forall k | i < k < |c.lines| && c.lines[k].restock
          ensures !HasMovement(b.movements, RefundMovementId(c.refundId, k))
        {
          MovementFoundIn(b, Written(first.steps), RefundMovementId(c.refundId, k));
        }
      }
    }
  }

  lemma {:induction false} RefundIdsOfRestocked(c: RefundCommand, n: nat, id: string)
    requires n <= |c.lines| && id in RefundMovementIds(c, n)
    ensures exists k :: 0 <= k < n && c.lines[k].restock && id == RefundMovementId(c.refundId, k)
  {
    hide RefundMovementId;
    if id in RefundMovementIds(c, n - 1) {
      RefundIdsOfRestocked(c, n - 1, id);
    }
  }

  /** An accepted invoice announces itself and its journal, and its first record is the journal entry. */
  lemma SellShape(b: Books, closed: set<string>, p: Policy, c: InvoiceCommand)
    requires InvoicePlan(b, closed, p, c).steps != [] && Filed(b)
    ensures Shaped(b, SaleOp(c), InvoicePlan(b, closed, p, c).steps, Some(PostJournalOp(SaleJournalId(c.invoiceId))))
    ensures InvoicePlan(b, closed, p, c).Succeeds() ==> SideEffects(b, SaleOp(c)) == []
  {
    hide InvoicePlan, JournalPlan, SaleMovements, SaleJournal, SaleOp, ApplyAll, Written, PositiveQuantities,
      RefuseInvoice, Filed, HasJournal, SaleJournalId, EntryOf, JournalEffects, Ordinary;
    var start, posted := [WalStep(Pending(b.uuids, SaleOp(c)))], SalePosting(b, closed, p, c);
    var b1, command := SaleStart(b, c), SaleJournal(p.taxRate, b.movements, c);
    var steps := InvoicePlan(b, closed, p, c).steps;
    PendingOnly(b, SaleOp(c));
    SaleJournalIdIs(p.taxRate, b.movements, c);
    var rest: seq<Step> := [];
    if InvoicePlan(b, closed, p, c).Succeeds() {
      rest := InvoiceNests(b, closed, p, c);
      SellLeftNothing(b, closed, p, c);
    } else {
      InvoiceStops(b, closed, p, c);
    }
    if posted.Succeeds() {
      JournalStarts(b1, closed, command);
      assert b1.entries == b.entries;
      NoJournalNoLines(b, command.journalId);
      assert steps[2] == posted.steps[1];
      EarlyEntry(command, steps, 2);
      SaleShows(Written(steps[..3]), c);
    }
  }

  lemma SaleShows(d: Books, c: InvoiceCommand)
    ensures JournalEffects(d, SaleJournalId(c.invoiceId)) != [] ==> SideEffects(d, SaleOp(c)) != []
  {
    hide HasInvoice, HasInvoiceLines, JournalEffects, MovementEffects, SaleJournalId, SaleMovementIds;
  }

  /** Nothing an invoice that completes will write was there before. */
  lemma SellLeftNothing(b: Books, closed: set<string>, p: Policy, c: InvoiceCommand)
    requires InvoicePlan(b, closed, p, c).Succeeds() && Filed(b)
    ensures SideEffects(b, SaleOp(c)) == []
  {
    InvoiceAccepted(b, closed, p, c);
    SaleIdsFree(b, closed, p, c);
    hide Written, InvoicePlan, HasInvoice, HasInvoiceLines, HasJournal, JournalEffects, MovementEffects,
      SaleMovementId, Linked, Tidy, SaleJournalId, Enough, HasMovement, SaleJournal;
    NoJournalNoLines(b, SaleJournalId(c.invoiceId));
    NoInvoiceNoLines(b, c.invoiceId);
    NoMovementEffects(b, SaleMovementIds(c));
  }

  lemma SaleIdsFree(b: Books, closed: set<string>, p: Policy, c: InvoiceCommand)
    requires InvoicePlan(b, closed, p, c).Succeeds()
    ensures !HasJournal(b.entries, SaleJournalId(c.invoiceId))
    ensures forall k :: 0 <= k < |c.lines| ==> !HasMovement(b.movements, SaleMovementId(c.invoiceId, k))
  {
    var rest := InvoiceNests(b, closed, p, c);
    hide Written, InvoicePlan, JournalPlan, SaleMovements, SaleJournal, ApplyAll, PositiveQuantities, HasJournal,
      SaleMovementId, SaleJournalId, EntryOf, LedgerLines, Ordinary, HasMovement, SaleOp;
    var b1, command := SaleStart(b, c), SaleJournal(p.taxRate, b.movements, c);
    PendingOnly(b, SaleOp(c));
    JournalStarts(b1, closed, command);
    JournalKeepsStock(b1, closed, command);
    SaleMovementsFresh(ApplyAll(b1, SalePosting(b, closed, p, c).steps), p.allowNegativeStock, c, 0);
    SaleJournalIdIs(p.taxRate, b.movements, c);
    assert b1.entries == b.entries && b1.movements == b.movements;
  }

  lemma SaleJournalIdIs(rate: int, ms: seq<Movement>, c: InvoiceCommand)
    ensures SaleJournal(rate, ms, c).journalId == SaleJournalId(c.invoiceId)
  {
    hide LineCosts, Tax, SaleLines;
  }

  lemma ReturnShape(b: Books, closed: set<string>, p: Policy, c: RefundCommand)
    requires RefundPlan(b, closed, p, c).steps != [] && Filed(b)
    ensures Shaped(b, ReturnOp(c), RefundPlan(b, closed, p, c).steps, Some(PostJournalOp(RefundJournalId(c.refundId))))
    ensures RefundPlan(b, closed, p, c).Succeeds() ==> SideEffects(b, ReturnOp(c)) == []
  {
    hide RefundPlan, JournalPlan, RefundMovements, RefundJournal, ReturnOp, ApplyAll, Written, PositiveRequests,
      RefuseRefund, Filed, HasJournal, RefundJournalId, EntryOf, JournalEffects, Ordinary;
    var start, posted := [WalStep(Pending(b.uuids, ReturnOp(c)))], ReturnPosting(b, closed, p, c);
    var b1, command := ReturnStart(b, c), RefundJournal(p.taxRate, b, c);
    var steps := RefundPlan(b, closed, p, c).steps;
    PendingOnly(b, ReturnOp(c));
    RefundJournalIdIs(p.taxRate, b, c);
    var rest: seq<Step> := [];
    if RefundPlan(b, closed, p, c).Succeeds() {
      rest := RefundNests(b, closed, p, c);
      ReturnLeftNothing(b, closed, p, c);
    } else {
      RefundStops(b, closed, p, c);
    }
    if posted.Succeeds() {
      JournalStarts(b1, closed, command);
      assert b1.entries == b.entries;
      NoJournalNoLines(b, command.journalId);
      assert steps[2] == posted.steps[1];
      EarlyEntry(command, steps, 2);
      ReturnShows(Written(steps[..3]), c);
    }
  }

  lemma ReturnShows(d: Books, c: RefundCommand)
    ensures JournalEffects(d, RefundJournalId(c.refundId)) != [] ==> SideEffects(d, ReturnOp(c)) != []
  {
    hide HasRefund, HasRefundLines, JournalEffects, MovementEffects, RefundJournalId, RefundMovementIds;
  }

  lemma ReturnLeftNothing(b: Books, closed: set<string>, p: Policy, c: RefundCommand)
    requires RefundPlan(b, closed, p, c).Succeeds() && Filed(b)
    ensures SideEffects(b, ReturnOp(c)) == []
  {
    RefundAccepted(b, closed, p, c);
    ReturnIdsFree(b, closed, p, c);
    hide Written, RefundPlan, HasRefund, HasRefundLines, HasJournal, JournalEffects, MovementEffects,
      RefundMovementId, RefundMovementIds, Linked, Tidy, RefundJournalId, GuardError, FindInvoice, HasMovement,
      RefundJournal;
    NoJournalNoLines(b, RefundJournalId(c.refundId));
    NoRefundNoLines(b, c.refundId);
    var ids := RefundMovementIds(c, |c.lines|);
    NoMovementEffects(b, ids);
    forall i | 0 <= i < |ids|
      ensures !HasMovement(b.movements, ids[i])
    {
      RefundIdsOfRestocked(c, |c.lines|, ids[i]);
    }
  }

  lemma ReturnIdsFree(b: Books, closed: set<string>, p: Policy, c: RefundCommand)
    requires RefundPlan(b, closed, p, c).Succeeds()
    ensures !HasJournal(b.entries, RefundJournalId(c.refundId))
    ensures forall k :: 0 <= k < |c.lines| && c.lines[k].restock ==> !HasMovement(b.movements, RefundMovementId(c.refundId, k))
  {
    var rest := RefundNests(b, closed, p, c);
    hide Written, RefundPlan, JournalPlan, RefundMovements, RefundJournal, ApplyAll, PositiveRequests, HasJournal,
      RefundMovementId, RefundJournalId, EntryOf, LedgerLines, Ordinary, HasMovement, ReturnOp;
    var b1, command := ReturnStart(b, c), RefundJournal(p.taxRate, b, c);
    PendingOnly(b, ReturnOp(c));
    JournalStarts(b1, closed, command);
    JournalKeepsStock(b1, closed, command);
    RefundMovementsFresh(ApplyAll(b1, ReturnPosting(b, closed, p, c).steps), b, p.allowNegativeStock, c, 0);
    RefundJournalIdIs(p.taxRate, b, c);
    assert b1.entries == b.entries && b1.movements == b.movements;
  }

  lemma RefundJournalIdIs(rate: int, b: Books, c: RefundCommand)
    ensures RefundJournal(rate, b, c).journalId == RefundJournalId(c.refundId)
  {
    hide RestoredCosts, Tax, RefundJournalLines;
  }

  // ---------------------------------------------------------------- open until the last append

  lemma TransactionOpen(tid: Tid, op: Operation, body: seq<Step>, action: string, event: string)
    requires Ordinary(body, tid + 1)
    ensures var steps := Transaction(tid, op, body, action, event); |steps| > 0 && Open(steps[..|steps| - 1], tid)
  {
    var steps := Transaction(tid, op, body, action, event);
    forall i | 0 <= i < |steps| - 1
      ensures steps[i] != WalStep(Committed(tid))
    {
      if 0 < i <= |body| {
        assert steps[i] == body[i - 1];
        assert OrdinaryStep(body[i - 1], tid + 1);
      }
    }
  }

  lemma OpenParts(start: Step, xs: seq<Step>, rest: seq<Step>, tid: Tid)
    requires start != WalStep(Committed(tid)) && Ordinary(xs, tid + 1)
    requires forall i :: 0 <= i < |rest| - 1 ==> !rest[i].WalStep?
    ensures var steps := [start] + xs + rest;
      |steps| > 0 && Open(steps[..|steps| - 1], tid) && (rest == [] ==> Open(steps, tid))
  {
    var steps := [start] + xs + rest;
    forall i | 0 <= i < |steps| && (i < |steps| - 1 || rest == [])
      ensures steps[i] != WalStep(Committed(tid))
    {
      if 0 < i <= |xs| {
        assert steps[i] == xs[i - 1];
        assert OrdinaryStep(xs[i - 1], tid + 1);
      } else if i > |xs| {
        assert steps[i] == rest[i - 1 - |xs|];
      }
    }
  }

  lemma SellOpen(b: Books, closed: set<string>, p: Policy, c: InvoiceCommand)
    requires InvoicePlan(b, closed, p, c).steps != []
    ensures var plan := InvoicePlan(b, closed, p, c);
      Open(plan.steps[..|plan.steps| - 1], b.uuids) && (plan.error.Some? ==> Open(plan.steps, b.uuids))
  {
    hide Ordinary, InvoicePlan, JournalPlan, SaleMovements, SaleJournal, SaleOp, ApplyAll, Written,
      PositiveQuantities, Open, RefuseInvoice;
    var posted, moved := SalePosting(b, closed, p, c), SaleMoves(b, closed, p, c);
    var b1 := SaleStart(b, c);
    PendingOnly(b, SaleOp(c));
    JournalOrdinary(b1, closed, SaleJournal(p.taxRate, b.movements, c));
    SaleMovementsOrdinary(ApplyAll(b1, posted.steps), p.allowNegativeStock, c, 0);
    UuidsGrow(b1, posted.steps);
    OrdinaryConcat(posted.steps, moved.steps, b.uuids + 1, ApplyAll(b1, posted.steps).uuids);
    var start := WalStep(Pending(b.uuids, SaleOp(c)));
    var xs := posted.steps + moved.steps;
    NothingOrdinary(b.uuids + 1);
    if InvoicePlan(b, closed, p, c).Succeeds() {
      var rest := InvoiceNests(b, closed, p, c);
      OpenParts(start, xs, rest, b.uuids);
      assert [start] + posted.steps + moved.steps + rest == [start] + xs + rest;
    } else {
      InvoiceStops(b, closed, p, c);
      var ys := if posted.error.Some? then [] else xs;
      OpenParts(start, ys, [], b.uuids);
      assert [start] + ys == [start] + ys + [];
    }
  }

  lemma ReturnOpen(b: Books, closed: set<string>, p: Policy, c: RefundCommand)
    requires RefundPlan(b, closed, p, c).steps != []
    ensures var plan := RefundPlan(b, closed, p, c);
      Open(plan.steps[..|plan.steps| - 1], b.uuids) && (plan.error.Some? ==> Open(plan.steps, b.uuids))
  {
    hide Ordinary, RefundPlan, JournalPlan, RefundMovements, RefundJournal, ReturnOp, ApplyAll, Written,
      PositiveRequests, Open, RefuseRefund;
    var rest: seq<Step> := [];
    if RefundPlan(b, closed, p, c).Succeeds() {
      rest := RefundNests(b, closed, p, c);
    } else {
      RefundStops(b, closed, p, c);
    }
    var posted, moved := ReturnPosting(b, closed, p, c), ReturnMoves(b, closed, p, c);
    var b1 := ReturnStart(b, c);
    PendingOnly(b, ReturnOp(c));
    JournalOrdinary(b1, closed, RefundJournal(p.taxRate, b, c));
    RefundMovementsOrdinary(ApplyAll(b1, posted.steps), b, p.allowNegativeStock, c, 0);
    UuidsGrow(b1, posted.steps);
    OrdinaryConcat(posted.steps, moved.steps, b.uuids + 1, ApplyAll(b1, posted.steps).uuids);
    var start, xs := WalStep(Pending(b.uuids, ReturnOp(c))), posted.steps + moved.steps;
    NothingOrdinary(b.uuids + 1);
    if RefundPlan(b, closed, p, c).Succeeds() {
      OpenParts(start, xs, rest, b.uuids);
      assert [start] + posted.steps + moved.steps + rest == [start] + xs + rest;
    } else {
      var ys := if posted.error.Some? then [] else xs;
      OpenParts(start, ys, [], b.uuids);
      assert [start] + ys == [start] + ys + [];
    }
  }

  // ---------------------------------------------------------------- crash atomicity

  /** The operation a command announces. */
  function OpOf(cmd: Command): Operation
    requires !cmd.Move? && !cmd.Close?
  {
    match cmd
    case Register(item) => RegisterItemOp(item.itemId)
    case Post(c) => PostJournalOp(c.journalId)
    case Sell(c) => SaleOp(c)
    case Return(c) => ReturnOp(c)
  }

  function NestedOf(cmd: Command): Option<Operation>
    requires !cmd.Move? && !cmd.Close?
  {
    match cmd
    case Sell(c) => Some(PostJournalOp(SaleJournalId(c.invoiceId)))
    case Return(c) => Some(PostJournalOp(RefundJournalId(c.refundId)))
    case _ => None
  }

  lemma CommandShape(b: Books, p: Policy, cmd: Command)
    requires Filed(b) && !cmd.Move? && !cmd.Close? && PlanOf(b, p, cmd).steps != []
    ensures Shaped(b, OpOf(cmd), PlanOf(b, p, cmd).steps, NestedOf(cmd))
    ensures PlanOf(b, p, cmd).Succeeds() ==> SideEffects(b, OpOf(cmd)) == []
    ensures var plan := PlanOf(b, p, cmd);
      Open(plan.steps[..|plan.steps| - 1], b.uuids) && (plan.error.Some? ==> Open(plan.steps, b.uuids))
  {
    hide Written, Transaction, JournalPlan, RegisterPlan, InvoicePlan, RefundPlan, Shaped, Filed, ClosedPeriods,
      SaleOp, ReturnOp, SaleJournalId, RefundJournalId, Open, Ordinary, SideEffects, JournalBody;
    var closed := ClosedPeriods(b);
    if PlanOf(b, p, cmd).error.Some? && (cmd.Register? || cmd.Post?) {
      OthersRefuse(b, p, cmd);
    }
    match cmd {
      case Register(item) =>
        RegisterSteps(b, item);
        RegisterShape(b, item);
        OneStepOrdinary(item, b.uuids + 1);
        TransactionOpen(b.uuids, RegisterItemOp(item.itemId), [ItemStep(item)], "inventory.item_registered", "inventory.item_registered.v1");
      case Post(c) =>
        PostSteps(b, closed, c);
        PostShape(b, closed, c);
        JournalBodyOrdinary(c, b.uuids + 1);
        TransactionOpen(b.uuids, PostJournalOp(c.journalId), JournalBody(c), "accounting.journal_posted", "accounting.journal_posted.v1");
      case Sell(c) =>
        SellShape(b, closed, p, c);
        SellOpen(b, closed, p, c);
      case Return(c) =>
        ReturnShape(b, closed, p, c);
        ReturnOpen(b, closed, p, c);
    }
  }

  lemma OneStepOrdinary(item: Item, lo: nat)
    ensures Ordinary([ItemStep(item)], lo)
  {
  }

  lemma RegisterSteps(b: Books, item: Item)
    requires RegisterPlan(b, item).Succeeds()
    ensures RegisterPlan(b, item).steps ==
      Transaction(b.uuids, RegisterItemOp(item.itemId), [ItemStep(item)], "inventory.item_registered",
                  "inventory.item_registered.v1")
  {
  }

  lemma PostSteps(b: Books, closed: set<string>, c: PostCommand)
    requires JournalPlan(b, closed, c).Succeeds()
    ensures c.lines != []
    ensures JournalPlan(b, closed, c).steps ==
      Transaction(b.uuids, PostJournalOp(c.journalId), JournalBody(c), "accounting.journal_posted",
                  "accounting.journal_posted.v1")
  {
    JournalAccepted(b, closed, c);
    hide RefuseJournal, Transaction;
  }

  lemma FirstIs(cmd: Command)
    requires !cmd.Move? && !cmd.Close?
    ensures First(NestedOf(cmd)) == if cmd.Sell? || cmd.Return? then 2 else 1
  {
  }

  /** An item registration, a journal, an invoice or a refund that is cut short at any append, or stops by
      itself, leaves a store that must be recovered. Automatic recovery restores the very files before it
      when no domain record had been written and no stored record carries one of its ids, and otherwise
      refuses and changes nothing. A command that would have completed never finds its ids in use. */
  lemma CrashAtomicity(b: Books, p: Policy, cmd: Command, k: nat)
    requires Orderly(b) && !cmd.Move? && !cmd.Close?
    requires 0 < k <= |PlanOf(b, p, cmd).steps| && (k < |PlanOf(b, p, cmd).steps| || PlanOf(b, p, cmd).error.Some?)
    requires |TidsOf(ApplyAll(b, PlanOf(b, p, cmd).steps[..k]).wal)| <= Wal.MAX_TRANSACTIONS
    ensures var steps := PlanOf(b, p, cmd).steps[..k];
      var r := ApplyAll(b, steps);
      && HealthOf(r, false) == NeedsRecovery
      && RecoverOf(r, false) ==
           (if Domain(Written(steps)) == EMPTY && SideEffects(b, OpOf(cmd)) == [] then RecoveryResult(b.(uuids := r.uuids), None)
            else RecoveryResult(r, Some(DurableSideEffects)))
      && (Domain(Written(steps)) == EMPTY <==> k <= if cmd.Sell? || cmd.Return? then 2 else 1)
    ensures PlanOf(b, p, cmd).Succeeds() ==> SideEffects(b, OpOf(cmd)) == []
  {
    hide *;
    OrderlyIsBoth(b);
    CommandShape(b, p, cmd);
    FirstIs(cmd);
    var plan, op, nested := PlanOf(b, p, cmd), OpOf(cmd), NestedOf(cmd);
    CutOpen(plan, b.uuids, k);
    if k <= First(nested) {
      CutEarly(b, op, plan.steps, nested, k);
    } else {
      CutLate(b, op, plan.steps, nested, k);
    }
  }

  lemma CutOpen(plan: Plan, tid: Tid, k: nat)
    requires 0 < k <= |plan.steps| && Open(plan.steps[..|plan.steps| - 1], tid) && (plan.error.Some? ==> Open(plan.steps, tid))
    requires k < |plan.steps| || plan.error.Some?
    ensures Open(plan.steps[..k], tid)
  {
    forall i | 0 <= i < k
      ensures plan.steps[i] != WalStep(Committed(tid))
    {
      if k < |plan.steps| {
        assert plan.steps[..|plan.steps| - 1][i] == plan.steps[i];
      }
    }
  }

  // ---------------------------------------------------------------- clean logs again after completed invoices and refunds

  lemma SellLogged(b: Books, closed: set<string>, p: Policy, c: InvoiceCommand)
    requires InvoicePlan(b, closed, p, c).Succeeds()
    ensures WellLogged(Written(InvoicePlan(b, closed, p, c).steps), b.uuids)
  {
    RefusedOrPositive(b, closed, p.taxRate, c);
    hide Written, Transaction, JournalPlan, SaleMovements, InvoiceLines, InvoiceOf, SaleJournal, RefuseInvoice, Apply,
      ApplyAll, PositiveQuantities, WellLogged, SaleOp;
    var b1 := SaleStart(b, c);
    PendingOnly(b, SaleOp(c));
    var posted, moved := SalePosting(b, closed, p, c), SaleMoves(b, closed, p, c);
    var b2 := ApplyAll(b1, posted.steps);
    var x, ls := InvoiceStep(InvoiceOf(p.taxRate, c)), InvoiceLineSteps(InvoiceLines(b, c));
    JournalLogged(b1, closed, SaleJournal(p.taxRate, b.movements, c));
    SaleMovementsLogged(b2, p.allowNegativeStock, c, 0);
    UuidsGrow(b1, posted.steps);
    InvoiceWritten(InvoiceOf(p.taxRate, c));
    InvoiceLinesWritten(InvoiceLines(b, c));
    BodyLogged(posted.steps, moved.steps, x, ls, b.uuids + 1, b2.uuids);
    WellLoggedTransaction(b.uuids, SaleOp(c), posted.steps + moved.steps + [x] + ls,
                          "billing.invoice_created", "billing.sale_completed.v1");
  }

  lemma BodyLogged(posted: seq<Step>, moved: seq<Step>, x: Step, ls: seq<Step>, lo: nat, next: nat)
    requires WellLogged(Written(posted), lo) && WellLogged(Written(moved), next) && lo <= next
    requires Written([x]).wal == [] && Written(ls).wal == []
    ensures WellLogged(Written(posted + moved + [x] + ls), lo)
  {
    hide Written, WellLogged;
    WellLoggedConcat(posted, moved, lo, next);
    Unlogged(Written([x]), lo);
    WellLoggedConcat(posted + moved, [x], lo, lo);
    Unlogged(Written(ls), lo);
    WellLoggedConcat(posted + moved + [x], ls, lo, lo);
  }

  lemma ReturnLogged(b: Books, closed: set<string>, p: Policy, c: RefundCommand)
    requires RefundPlan(b, closed, p, c).Succeeds()
    ensures WellLogged(Written(RefundPlan(b, closed, p, c).steps), b.uuids)
  {
    RefusedOrPositiveRequests(b, closed, p.taxRate, c);
    hide Written, Transaction, JournalPlan, RefundMovements, RefundLines, RefundOf, RefundJournal, RefuseRefund,
      Apply, ApplyAll, PositiveRequests, WellLogged, ReturnOp;
    var b1 := ReturnStart(b, c);
    PendingOnly(b, ReturnOp(c));
    var posted, moved := ReturnPosting(b, closed, p, c), ReturnMoves(b, closed, p, c);
    var b2 := ApplyAll(b1, posted.steps);
    var x, ls := RefundStep(RefundOf(p.taxRate, b, c)), RefundLineSteps(RefundLines(b, c));
    JournalLogged(b1, closed, RefundJournal(p.taxRate, b, c));
    RefundMovementsLogged(b2, b, p.allowNegativeStock, c, 0);
    UuidsGrow(b1, posted.steps);
    RefundWritten(RefundOf(p.taxRate, b, c));
    RefundLinesWritten(RefundLines(b, c));
    BodyLogged(posted.steps, moved.steps, x, ls, b.uuids + 1, b2.uuids);
    WellLoggedTransaction(b.uuids, ReturnOp(c), posted.steps + moved.steps + [x] + ls,
                          "billing.refund_created", "billing.refund_completed.v1");
  }
}
