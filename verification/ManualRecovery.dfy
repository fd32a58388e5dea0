/** src/bms/app/recovery.py: manual reconciliation of pending transactions and accounting adjustments, as a
    state machine that can be cut at every append. */
module ManualRecovery {
  import opened Status
  import opened Text
  import opened Books
  import opened Accounting
  import opened Writes
  import opened Equation
  import opened Recovery
  import opened Stops

  /** The identity and policy lookup is settled before the call. */
  datatype ReconcileCommand = ReconcileCommand(tid: Tid, decision: Decision, actorId: string, reason: string, authorized: bool)

  datatype ResolveCommand = ResolveCommand(tid: Tid, actorId: string, reason: string, authorized: bool, journal: PostCommand)

  datatype ManualError =
    | FieldMissing | NotAuthorized | PendingNotFound | AlreadyReconciled
    | NoDecision | NotWaiting | AlreadyResolved | AlreadyAdjusted
    | WrongActor | WrongSource | JournalRefused(reason: Error)

  datatype ManualPlan = ManualPlan(steps: seq<Step>, error: Option<ManualError>)

  function TidName(tid: Tid): string { Decimal(tid) }

  predicate IsPending(b: Books, tid: Tid) {
    exists i :: 0 <= i < |PendingOf(b.wal)| && PendingOf(b.wal)[i].tid == tid
  }

  predicate HasRecord(rs: seq<RecoveryRecord>, tid: Tid) { exists i :: 0 <= i < |rs| && rs[i].tid == tid }

  /** The first record of the transaction that is no adjustment. */
  function FirstDecision(rs: seq<RecoveryRecord>, tid: Tid): Option<RecoveryRecord> {
    if rs == [] then None
    else if rs[0].tid == tid && rs[0].correction.None? then Some(rs[0])
    else FirstDecision(rs[1..], tid)
  }

  predicate HasAdjustment(rs: seq<RecoveryRecord>, tid: Tid) {
    exists i :: 0 <= i < |rs| && rs[i].tid == tid && rs[i].correction.Some?
  }

  function RefuseReconcile(b: Books, c: ReconcileCommand): Option<ManualError> {
    if c.actorId == "" || c.reason == "" then Some(FieldMissing)
    else if !c.authorized then Some(NotAuthorized)
    else if !IsPending(b, c.tid) then Some(PendingNotFound)
    else if HasRecord(b.reconciliations, c.tid) then Some(AlreadyReconciled)
    else None
  }

  function DecisionOf(c: ReconcileCommand): RecoveryRecord {
    RecoveryRecord(c.tid, c.decision, c.decision == AcceptedExistingRecords, None)
  }

  /** reconcile_recovery_transaction. */
  function ReconcilePlan(b: Books, c: ReconcileCommand): ManualPlan {
    var refused := RefuseReconcile(b, c);
    if refused.Some? then ManualPlan([], refused)
    else ManualPlan(
      [ReconciliationStep(DecisionOf(c)), AuditStep("recovery.reconciliation_recorded"),
       EventStep("recovery.reconciliation_recorded.v1")]
      + (if c.decision == AcceptedExistingRecords then [WalStep(Committed(c.tid))] else []), None)
  }

  function RefuseResolve(b: Books, c: ResolveCommand): Option<ManualError> {
    if c.actorId == "" || c.reason == "" then Some(FieldMissing)
    else if !c.authorized then Some(NotAuthorized)
    else if !IsPending(b, c.tid) then Some(PendingNotFound)
    else match FirstDecision(b.reconciliations, c.tid)
      case None => Some(NoDecision)
      case Some(record) =>
        if record.decision != RequiresAccountingAdjustment then Some(NotWaiting)
        else if record.resolved then Some(AlreadyResolved)
        else if HasAdjustment(b.reconciliations, c.tid) then Some(AlreadyAdjusted)
        else if c.journal.actorId != c.actorId then Some(WrongActor)
        else if c.journal.sourceModule != "recovery" || c.journal.sourceDocumentId != TidName(c.tid) then Some(WrongSource)
        else None
  }

  function AdjustmentOf(c: ResolveCommand): RecoveryRecord {
    RecoveryRecord(c.tid, RequiresAccountingAdjustment, true, Some(c.journal.journalId))
  }

  /** resolve_recovery_accounting_adjustment; a fresh accounting service reads the closed periods. */
  function ResolvePlan(b: Books, c: ResolveCommand): ManualPlan {
    var refused := RefuseResolve(b, c);
    if refused.Some? then ManualPlan([], refused) else
    var journal := JournalPlan(b, ClosedPeriods(b), c.journal);
    if journal.error.Some? then ManualPlan([], Some(JournalRefused(journal.error.value)))
    else ManualPlan(
      journal.steps
      + [ReconciliationStep(AdjustmentOf(c)), AuditStep("recovery.accounting_adjustment_resolved"),
         EventStep("recovery.reconciliation_recorded.v1"), WalStep(Committed(c.tid))], None)
  }

  // ---------------------------------------------------------------- the services

  class ManualRecoveryService {
    const store: Store

    constructor (store: Store)
      ensures this.store == store
    {
      this.store := store;
    }

    method FindPending(tid: Tid) returns (found: bool)
      ensures found <==> IsPending(store.View(), tid)
    {
      var recovery := new RecoveryService(store);
      var pending := recovery.PendingTransactions();
      for i := 0 to |pending|
        invariant forall k :: 0 <= k < i ==> pending[k].tid != tid
      {
        if pending[i].tid == tid {
          return true;
        }
      }
      return false;
    }

    method ReconciliationRecordForTransaction(tid: Tid) returns (record: Option<RecoveryRecord>)
      ensures record == FirstDecision(store.reconciliations, tid)
    {
      var rs := store.reconciliations;
      for i := 0 to |rs|
        invariant FirstDecision(rs, tid) == FirstDecision(rs[i..], tid)
      {
        assert rs[i..][1..] == rs[i + 1..];
        if rs[i].tid == tid && rs[i].correction.None? {
          return Some(rs[i]);
        }
      }
      return None;
    }

    method Reconcile(c: ReconcileCommand) returns (error: Option<ManualError>)
      modifies store
      ensures var plan := ReconcilePlan(old(store.View()), c);
        store.View() == ApplyAll(old(store.View()), plan.steps) && error == plan.error
    {
      hide Apply, IsPending;
      if c.actorId == "" || c.reason == "" {
        return Some(FieldMissing);
      }
      if !c.authorized {
        return Some(NotAuthorized);
      }
      var found := FindPending(c.tid);
      if !found {
        return Some(PendingNotFound);
      }
      if HasRecord(store.reconciliations, c.tid) {
        return Some(AlreadyReconciled);
      }
      var resolved := c.decision == AcceptedExistingRecords;
      var steps := [ReconciliationStep(RecoveryRecord(c.tid, c.decision, resolved, None)),
                    AuditStep("recovery.reconciliation_recorded"), EventStep("recovery.reconciliation_recorded.v1")];
      ghost var b := store.View();
      store.AppendEach(steps);
      if resolved {
        store.Append(WalStep(Committed(c.tid)));
        ApplyConcat(b, steps, [WalStep(Committed(c.tid))]);
        ApplyOne(ApplyAll(b, steps), WalStep(Committed(c.tid)));
      }
      assert steps + [] == steps;
      return None;
    }

    method ResolveAccountingAdjustment(c: ResolveCommand) returns (error: Option<ManualError>)
      modifies store
      ensures var plan := ResolvePlan(old(store.View()), c);
        store.View() == ApplyAll(old(store.View()), plan.steps) && error == plan.error
    {
      hide Apply, IsPending, JournalPlan, FirstDecision, ClosedPeriods;
      if c.actorId == "" || c.reason == "" {
        return Some(FieldMissing);
      }
      if !c.authorized {
        return Some(NotAuthorized);
      }
      var found := FindPending(c.tid);
      if !found {
        return Some(PendingNotFound);
      }
      var record := ReconciliationRecordForTransaction(c.tid);
      if record.None? {
        return Some(NoDecision);
      }
      if record.value.decision != RequiresAccountingAdjustment {
        return Some(NotWaiting);
      }
      if record.value.resolved {
        return Some(AlreadyResolved);
      }
      if HasAdjustment(store.reconciliations, c.tid) {
        return Some(AlreadyAdjusted);
      }
      if c.journal.actorId != c.actorId {
        return Some(WrongActor);
      }
      if c.journal.sourceModule != "recovery" || c.journal.sourceDocumentId != TidName(c.tid) {
        return Some(WrongSource);
      }
      ghost var b := store.View();
      var accounting := new AccountingService(store);
      assert accounting.closedPeriods == ClosedPeriods(b);
      var refused := accounting.PostJournal(c.journal);
      if refused.Some? {
        JournalRefusedWritesNothing(b, ClosedPeriods(b), c.journal);
        return Some(JournalRefused(refused.value));
      }
      ghost var posted := JournalPlan(b, ClosedPeriods(b), c.journal).steps;
      var steps := [ReconciliationStep(AdjustmentOf(c)), AuditStep("recovery.accounting_adjustment_resolved"),
                    EventStep("recovery.reconciliation_recorded.v1"), WalStep(Committed(c.tid))];
      store.AppendEach(steps);
      ApplyConcat(b, posted, steps);
      return None;
    }
  }

  lemma JournalRefusedWritesNothing(b: Books, closed: set<string>, c: PostCommand)
    ensures JournalPlan(b, closed, c).error.Some? ==> JournalPlan(b, closed, c).steps == []
  {
    hide RefuseJournal, Transaction, JournalBody;
  }

  // ---------------------------------------------------------------- what every append keeps

  predicate BalancedCorrection(e: JournalEntry, journalId: string, tid: Tid) {
    e.journalId == journalId && e.sourceModule == "recovery" && e.sourceDocumentId == TidName(tid) && e.debitTotal == e.creditTotal
  }

  predicate Corrected(b: Books, journalId: string, tid: Tid) {
    exists i :: 0 <= i < |b.entries| && BalancedCorrection(b.entries[i], journalId, tid)
  }

  predicate Waiting(r: RecoveryRecord, tid: Tid) {
    r.tid == tid && r.correction.None? && r.decision == RequiresAccountingAdjustment && !r.resolved
  }

  /** An adjustment follows a decision that asked for it and names a posted, balanced correction. */
  predicate GoodRecord(b: Books, i: nat)
    requires i < |b.reconciliations|
  {
    var r := b.reconciliations[i];
    && r.tid < b.uuids
    && (r.correction.None? ==> (r.resolved <==> r.decision == AcceptedExistingRecords))
    && (r.correction.Some? ==>
          r.resolved && r.decision == RequiresAccountingAdjustment && Corrected(b, r.correction.value, r.tid)
          && exists k :: 0 <= k < i && Waiting(b.reconciliations[k], r.tid))
  }

  predicate ResolvedIn(rs: seq<RecoveryRecord>, tid: Tid) { exists i :: 0 <= i < |rs| && rs[i].tid == tid && rs[i].resolved }

  /** At most one decision and one adjustment for each transaction, each adjustment justified, and a
      transaction with a record committed only if one of its records is resolved. */
  ghost predicate RecoveryOrder(b: Books) {
    && (forall i, j :: 0 <= i < j < |b.reconciliations| && b.reconciliations[i].tid == b.reconciliations[j].tid ==>
          b.reconciliations[i].correction.None? && b.reconciliations[j].correction.Some?)
    && (forall i :: 0 <= i < |b.reconciliations| ==> GoodRecord(b, i))
    && (forall i :: 0 <= i < |b.reconciliations| && Committed(b.reconciliations[i].tid) in b.wal ==>
          ResolvedIn(b.reconciliations, b.reconciliations[i].tid))
  }

  lemma GoodRecordGrows(b: Books, r: Books, i: nat)
    requires i < |b.reconciliations| <= |r.reconciliations| && GoodRecord(b, i) && r.uuids >= b.uuids
    requires r.reconciliations[..|b.reconciliations|] == b.reconciliations
    requires |b.entries| <= |r.entries| && r.entries[..|b.entries|] == b.entries
    ensures GoodRecord(r, i)
  {
    hide BalancedCorrection, Waiting;
    var x := b.reconciliations[i];
    assert r.reconciliations[i] == r.reconciliations[..|b.reconciliations|][i];
    if x.correction.Some? {
      var e :| 0 <= e < |b.entries| && BalancedCorrection(b.entries[e], x.correction.value, x.tid);
      assert r.entries[e] == r.entries[..|b.entries|][e];
      var k :| 0 <= k < i && Waiting(b.reconciliations[k], x.tid);
      assert r.reconciliations[k] == r.reconciliations[..|b.reconciliations|][k];
    }
  }

  /** Records of other files, and log records of transactions without a reconciliation, change nothing. */
  lemma QuietKeepsOrder(b: Books, d: Books)
    requires RecoveryOrder(b) && d.reconciliations == []
    requires forall x :: x in d.wal && x.Committed? ==>
      !HasRecord(b.reconciliations, x.tid) || ResolvedIn(b.reconciliations, x.tid)
    ensures RecoveryOrder(Plus(b, d))
  {
    hide GoodRecord, ResolvedIn;
    var r := Plus(b, d);
    assert r.reconciliations == b.reconciliations;
    forall i | 0 <= i < |r.reconciliations|
      ensures GoodRecord(r, i)
    {
      GoodRecordGrows(b, r, i);
    }
    forall i | 0 <= i < |r.reconciliations| && Committed(r.reconciliations[i].tid) in r.wal
      ensures ResolvedIn(r.reconciliations, r.reconciliations[i].tid)
    {
      assert HasRecord(b.reconciliations, b.reconciliations[i].tid);
    }
  }

  /** One more record. */
  lemma RecordKeepsOrder(b: Books, x: RecoveryRecord)
    requires RecoveryOrder(b) && x.tid < b.uuids && Committed(x.tid) !in b.wal
    requires x.correction.None? ==> !HasRecord(b.reconciliations, x.tid) && (x.resolved <==> x.decision == AcceptedExistingRecords)
    requires x.correction.Some? ==>
      && !HasAdjustment(b.reconciliations, x.tid) && x.resolved && x.decision == RequiresAccountingAdjustment
      && Corrected(b, x.correction.value, x.tid)
      && exists k :: 0 <= k < |b.reconciliations| && Waiting(b.reconciliations[k], x.tid)
    ensures RecoveryOrder(b.(reconciliations := b.reconciliations + [x]))
  {
    hide Corrected, Waiting;
    var r := b.(reconciliations := b.reconciliations + [x]);
    var n := |b.reconciliations|;
    forall i | 0 <= i < |r.reconciliations|
      ensures GoodRecord(r, i)
    {
      if i < n {
        GoodRecordGrows(b, r, i);
      } else if x.correction.Some? {
        assert Corrected(r, x.correction.value, x.tid) by { SameEntries(b, r, x.correction.value, x.tid); }
        var k :| 0 <= k < n && Waiting(b.reconciliations[k], x.tid);
        assert r.reconciliations[k] == b.reconciliations[k];
      }
    }
    forall i | 0 <= i < |r.reconciliations| && Committed(r.reconciliations[i].tid) in r.wal
      ensures ResolvedIn(r.reconciliations, r.reconciliations[i].tid)
    {
      assert i < n;
      var k :| 0 <= k < n && b.reconciliations[k].tid == r.reconciliations[i].tid && b.reconciliations[k].resolved;
      assert r.reconciliations[k] == b.reconciliations[k];
    }
  }

  lemma SameEntries(b: Books, r: Books, id: string, tid: Tid)
    requires b.entries == r.entries
    ensures Corrected(b, id, tid) == Corrected(r, id, tid)
  {
  }

  lemma PendingFacts(b: Books, tid: Tid)
    requires IsPending(b, tid)
    ensures Committed(tid) !in b.wal && exists op :: Pending(tid, op) in b.wal
  {
    var i :| 0 <= i < |PendingOf(b.wal)| && PendingOf(b.wal)[i].tid == tid;
    var r := PendingOf(b.wal)[i];
    PendingMembers(b.wal, CommittedIds(b.wal), r);
    assert r == Pending(tid, r.op);
    assert Committed(tid) in b.wal ==> tid in CommittedIds(b.wal);
  }

  lemma {:induction false} FirstDecisionIs(rs: seq<RecoveryRecord>, tid: Tid)
    ensures FirstDecision(rs, tid).Some? ==>
      exists k :: 0 <= k < |rs| && rs[k] == FirstDecision(rs, tid).value && rs[k].tid == tid && rs[k].correction.None?
    ensures FirstDecision(rs, tid).None? ==> forall k :: 0 <= k < |rs| && rs[k].tid == tid ==> rs[k].correction.Some?
  {
    if rs != [] && !(rs[0].tid == tid && rs[0].correction.None?) {
      FirstDecisionIs(rs[1..], tid);
      if FirstDecision(rs[1..], tid).Some? {
        var x := FirstDecision(rs[1..], tid).value;
        var k :| 0 <= k < |rs[1..]| && rs[1..][k] == x && x.tid == tid && x.correction.None?;
        assert rs[k + 1] == rs[1..][k];
      } else {
        forall k | 0 <= k < |rs| && rs[k].tid == tid
          ensures rs[k].correction.Some?
        {
          assert k > 0 ==> rs[1..][k - 1] == rs[k];
        }
      }
    }
  }

  /** Log ids are below the next id. */
  ghost predicate KnownIds(b: Books) { forall r :: r in b.wal ==> r.tid < b.uuids }

  lemma {:induction false} KnownIdsStay(b: Books, steps: seq<Step>)
    requires KnownIds(b)
    ensures KnownIds(ApplyAll(b, steps))
    decreases |steps|
  {
    if steps != [] {
      KnownIdsStay(b, steps[..|steps| - 1]);
    }
  }

  /** One step of a state, cut after any number of the appends of a list. */
  lemma CutAt(b: Books, xs: seq<Step>, ys: seq<Step>, k: nat)
    requires k <= |xs| + |ys|
    ensures (xs + ys)[..k] == if k <= |xs| then xs[..k] else xs + ys[..k - |xs|]
    ensures k > |xs| ==> ApplyAll(b, (xs + ys)[..k]) == ApplyAll(ApplyAll(b, xs), ys[..k - |xs|])
  {
    hide Apply;
    if k > |xs| {
      assert (xs + ys)[..k] == xs + ys[..k - |xs|];
      ApplyConcat(b, xs, ys[..k - |xs|]);
    } else {
      assert (xs + ys)[..k] == xs[..k];
    }
  }

  /** How both operations end: the record, its audit and event records, and the commit. */
  function Conclusion(x: RecoveryRecord, action: string, event: string): seq<Step> {
    [ReconciliationStep(x), AuditStep(action), EventStep(event), WalStep(Committed(x.tid))]
  }

  /** Cut short, the end has written its record from the first append on, and the commit with the last. */
  lemma ConclusionWrites(x: RecoveryRecord, action: string, event: string, k: nat)
    requires k <= 4
    ensures var d := Written(Conclusion(x, action, event)[..k]);
      && d.reconciliations == (if k == 0 then [] else [x]) && d.entries == []
      && d.wal == (if k < 4 then [] else [Committed(x.tid)]) && d.uuids == (if k < 4 then 0 else x.tid + 1)
  {
    var all := Conclusion(x, action, event);
    var a, c := [all[0]], [all[1], all[2], all[3]];
    if k == 4 {
      WrittenEnd(action, event, x.tid);
      ApplyOne(EMPTY, all[0]);
      WrittenConcat(a, c);
      assert all[..4] == a + c;
    } else {
      TraceOnly(all[..k]);
    }
  }

  lemma {:induction false} TraceOnly(steps: seq<Step>)
    requires |steps| <= 3
    requires forall i :: 0 <= i < |steps| ==> if i == 0 then steps[i].ReconciliationStep? else steps[i].AuditStep? || steps[i].EventStep?
    ensures var d := Written(steps);
      && d.reconciliations == (if steps == [] then [] else [steps[0].reconciliation]) && d.entries == []
      && d.wal == [] && d.uuids == 0
    decreases |steps|
  {
    if steps != [] {
      TraceOnly(steps[..|steps| - 1]);
    }
  }

  /** From a state where the record may be added, every cut of record, audit, event and commit keeps order. */
  lemma ConclusionKeepsOrder(b: Books, x: RecoveryRecord, action: string, event: string, k: nat)
    requires RecoveryOrder(b) && x.tid < b.uuids && Committed(x.tid) !in b.wal && k <= 4
    requires x.correction.None? ==> !HasRecord(b.reconciliations, x.tid) && (x.resolved <==> x.decision == AcceptedExistingRecords)
    requires x.correction.Some? ==>
      && !HasAdjustment(b.reconciliations, x.tid) && x.resolved && x.decision == RequiresAccountingAdjustment
      && Corrected(b, x.correction.value, x.tid)
      && exists i :: 0 <= i < |b.reconciliations| && Waiting(b.reconciliations[i], x.tid)
    requires k == 4 ==> x.resolved
    ensures RecoveryOrder(ApplyAll(b, Conclusion(x, action, event)[..k]))
  {
    hide RecoveryOrder, Corrected, Waiting, HasAdjustment, Written, ApplyAll;
    var steps := Conclusion(x, action, event)[..k];
    WritesAdd(b, steps);
    ConclusionWrites(x, action, event, k);
    if k == 0 {
      assert steps == [];
      NoSteps(b);
    } else {
      RecordKeepsOrder(b, x);
      var mid := b.(reconciliations := b.reconciliations + [x]);
      var d := Written(steps).(reconciliations := []);
      assert mid.reconciliations[|b.reconciliations|] == x;
      QuietKeepsOrder(mid, d);
      assert Plus(mid, d) == Plus(b, Written(steps));
    }
  }

  lemma NoSteps(b: Books)
    ensures ApplyAll(b, []) == b
  {
  }

  lemma ReconcileSteps(b: Books, c: ReconcileCommand, k: nat)
    requires k <= |ReconcilePlan(b, c).steps|
    ensures var end := Conclusion(DecisionOf(c), "recovery.reconciliation_recorded", "recovery.reconciliation_recorded.v1");
      && k <= 4 && ReconcilePlan(b, c).steps[..k] == end[..k] && (k == 4 ==> DecisionOf(c).resolved)
    ensures k > 0 ==> RefuseReconcile(b, c).None?
  {
    hide RefuseReconcile;
  }

  lemma ReconcileKeepsOrder(b: Books, c: ReconcileCommand, k: nat)
    requires RecoveryOrder(b) && KnownIds(b) && k <= |ReconcilePlan(b, c).steps|
    ensures RecoveryOrder(ApplyAll(b, ReconcilePlan(b, c).steps[..k]))
  {
    ReconcileSteps(b, c, k);
    hide RecoveryOrder, IsPending, HasRecord, ApplyAll, Conclusion, ReconcilePlan;
    NoSteps(b);
    if k > 0 {
      PendingFacts(b, c.tid);
      ConclusionKeepsOrder(b, DecisionOf(c), "recovery.reconciliation_recorded", "recovery.reconciliation_recorded.v1", k);
    } else {
      assert ReconcilePlan(b, c).steps[..k] == [];
    }
  }

  /** Appends without reconciliation records and with new log ids only. */
  lemma OrdinaryKeepsOrder(b: Books, steps: seq<Step>)
    requires RecoveryOrder(b) && Ordinary(steps, b.uuids)
    ensures var r := ApplyAll(b, steps);
      && RecoveryOrder(r) && r.reconciliations == b.reconciliations && r.uuids >= b.uuids
      && forall x :: x in r.wal && x.tid < b.uuids ==> x in b.wal
  {
    OrdinaryWrites(steps, b.uuids);
    hide RecoveryOrder, Ordinary, Written;
    WritesAdd(b, steps);
    forall x | x in Written(steps).wal
      ensures !HasRecord(b.reconciliations, x.tid)
    {
      NoRecordOf(b, x.tid);
    }
    QuietKeepsOrder(b, Written(steps));
  }

  lemma OrdinaryCut(steps: seq<Step>, lo: nat, k: nat)
    requires Ordinary(steps, lo) && k <= |steps|
    ensures Ordinary(steps[..k], lo)
  {
  }

  lemma NoRecordOf(b: Books, tid: Tid)
    requires RecoveryOrder(b) && tid >= b.uuids
    ensures !HasRecord(b.reconciliations, tid)
  {
    forall i | 0 <= i < |b.reconciliations|
      ensures b.reconciliations[i].tid != tid
    {
      assert GoodRecord(b, i);
    }
  }

  lemma PostedIsCorrected(b: Books, closed: set<string>, c: PostCommand, tid: Tid)
    requires JournalPlan(b, closed, c).Succeeds() && c.sourceModule == "recovery" && c.sourceDocumentId == TidName(tid)
    ensures var r := ApplyAll(b, JournalPlan(b, closed, c).steps);
      Corrected(r, c.journalId, tid) && r.entries == b.entries + [EntryOf(c)]
  {
    JournalAccepted(b, closed, c);
    JournalWrites(b, closed, c);
    MovementsAfter(b, JournalPlan(b, closed, c).steps);
    BalancedEntry(c, tid);
    hide JournalPlan, Written, EntryOf, BalancedCorrection;
    var r := ApplyAll(b, JournalPlan(b, closed, c).steps);
    assert r.entries[|b.entries|] == EntryOf(c);
  }

  lemma BalancedEntry(c: PostCommand, tid: Tid)
    requires c.lines != [] && Sum(c.lines, DebitOf()) == Sum(c.lines, CreditOf())
    requires c.sourceModule == "recovery" && c.sourceDocumentId == TidName(tid)
    ensures BalancedCorrection(EntryOf(c), c.journalId, tid)
  {
    hide Sum;
  }

  /** The correction journal, then the end. */
  lemma ResolveSteps(b: Books, c: ResolveCommand)
    requires ResolvePlan(b, c).steps != []
    ensures RefuseResolve(b, c).None? && JournalPlan(b, ClosedPeriods(b), c.journal).Succeeds()
    ensures ResolvePlan(b, c).steps == JournalPlan(b, ClosedPeriods(b), c.journal).steps
      + Conclusion(AdjustmentOf(c), "recovery.accounting_adjustment_resolved", "recovery.reconciliation_recorded.v1")
  {
    hide RefuseResolve, JournalPlan, ClosedPeriods;
  }

  lemma ResolveKeepsOrder(b: Books, c: ResolveCommand, k: nat)
    requires RecoveryOrder(b) && KnownIds(b) && k <= |ResolvePlan(b, c).steps|
    ensures RecoveryOrder(ApplyAll(b, ResolvePlan(b, c).steps[..k]))
  {
    hide RecoveryOrder, IsPending, HasRecord, ApplyAll, JournalPlan, FirstDecision, HasAdjustment, ClosedPeriods,
      KnownIds, Corrected, Waiting, ResolvePlan, Ordinary, Conclusion;
    NoSteps(b);
    if ResolvePlan(b, c).steps == [] {
      assert ResolvePlan(b, c).steps[..k] == [];
    } else {
      ResolveSteps(b, c);
      var posted := JournalPlan(b, ClosedPeriods(b), c.journal).steps;
      var end := Conclusion(AdjustmentOf(c), "recovery.accounting_adjustment_resolved", "recovery.reconciliation_recorded.v1");
      assert |end| == 4 by { FourSteps(AdjustmentOf(c), "recovery.accounting_adjustment_resolved", "recovery.reconciliation_recorded.v1"); }
      CutAt(b, posted, end, k);
      JournalOrdinary(b, ClosedPeriods(b), c.journal);
      if k <= |posted| {
        OrdinaryCut(posted, b.uuids, k);
        OrdinaryKeepsOrder(b, posted[..k]);
      } else {
        OrdinaryKeepsOrder(b, posted);
        PendingFacts(b, c.tid);
        PendingIsKnown(b, c.tid);
        PostedIsCorrected(b, ClosedPeriods(b), c.journal, c.tid);
        WaitingRecord(b, c.tid);
        ConclusionKeepsOrder(ApplyAll(b, posted), AdjustmentOf(c), "recovery.accounting_adjustment_resolved",
                             "recovery.reconciliation_recorded.v1", k - |posted|);
      }
    }
  }

  lemma FourSteps(x: RecoveryRecord, action: string, event: string)
    ensures |Conclusion(x, action, event)| == 4
  {
  }

  lemma PendingIsKnown(b: Books, tid: Tid)
    requires IsPending(b, tid) && KnownIds(b)
    ensures tid < b.uuids
  {
    PendingFacts(b, tid);
  }

  lemma WaitingRecord(b: Books, tid: Tid)
    requires FirstDecision(b.reconciliations, tid).Some?
    requires FirstDecision(b.reconciliations, tid).value.decision == RequiresAccountingAdjustment
    requires !FirstDecision(b.reconciliations, tid).value.resolved
    ensures exists i :: 0 <= i < |b.reconciliations| && Waiting(b.reconciliations[i], tid)
  {
    FirstDecisionIs(b.reconciliations, tid);
  }

  lemma {:induction false} KeptMembers(wal: seq<WalRecord>, committed: set<Tid>, r: WalRecord)
    requires r in KeptAmong(wal, committed)
    ensures r in wal && (r.Pending? ==> r.tid in committed)
  {
    if r in KeptAmong(wal[1..], committed) {
      KeptMembers(wal[1..], committed, r);
    }
  }

  lemma KeptAreOld(wal: seq<WalRecord>)
    ensures forall x :: x in KeptOf(wal) ==> x in wal
  {
    forall x | x in KeptOf(wal)
      ensures x in wal
    {
      KeptMembers(wal, CommittedIds(wal), x);
    }
  }

  lemma AutomaticKeepsOrder(b: Books, missing: bool)
    requires RecoveryOrder(b) && KnownIds(b)
    ensures var r := RecoverOf(b, missing).books;
      RecoveryOrder(r) && KnownIds(r) && r.uuids == b.uuids && r.reconciliations == b.reconciliations
    ensures forall x :: x in RecoverOf(b, missing).books.wal ==> x in b.wal
  {
    RecoveryOnlyDropsPending(b, missing);
    hide RecoverOf, GoodRecord, ResolvedIn, AnyUnsafe;
    var r := RecoverOf(b, missing).books;
    KeptAreOld(b.wal);
    forall i | 0 <= i < |r.reconciliations|
      ensures GoodRecord(r, i)
    {
      GoodRecordGrows(b, r, i);
    }
  }
}
