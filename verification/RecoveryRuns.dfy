/** Runs of manual and automatic recovery, with commands in between, each cut at any append; and the
    transactions such runs can never finish. */
module RecoveryRuns {
  import opened Status
  import opened Books
  import opened Accounting
  import opened Billing
  import opened Writes
  import opened Equation
  import opened Recovery
  import opened Runs
  import opened Stops
  import opened ManualRecovery

  /** An operation that stopped after some of its appends; all of them when there are fewer. */
  datatype RecoveryEvent =
    | Reconciling(reconcile: ReconcileCommand, appends: nat)
    | Resolving(resolve: ResolveCommand, appends: nat)
    | Working(policy: Policy, command: Command, appends: nat)
    | Recovering(missing: bool)

  function Cut(steps: seq<Step>, k: nat): seq<Step> { if k <= |steps| then steps[..k] else steps }

  function StepsOf(b: Books, e: RecoveryEvent): seq<Step>
    requires !e.Recovering?
  {
    match e
    case Reconciling(c, k) => Cut(ReconcilePlan(b, c).steps, k)
    case Resolving(c, k) => Cut(ResolvePlan(b, c).steps, k)
    case Working(p, cmd, k) => Cut(PlanOf(b, p, cmd).steps, k)
  }

  function AfterRecovery(b: Books, e: RecoveryEvent): Books {
    if e.Recovering? then RecoverOf(b, e.missing).books else ApplyAll(b, StepsOf(b, e))
  }

  function RecoveryRun(b: Books, es: seq<RecoveryEvent>): Books {
    if es == [] then b else AfterRecovery(RecoveryRun(b, es[..|es| - 1]), es[|es| - 1])
  }

  lemma CutIsPrefix(steps: seq<Step>, k: nat) returns (n: nat)
    ensures n == (if k <= |steps| then k else |steps|) && Cut(steps, k) == steps[..n]
  {
    n := if k <= |steps| then k else |steps|;
  }

  // ---------------------------------------------------------------- no commit without a resolved record

  /** From one state to a later one records are only added, and a transaction whose id the first state
      knows is committed only if the later one holds a resolved record of it. */
  ghost predicate Justified(b: Books, r: Books) {
    && b.uuids <= r.uuids && b.reconciliations <= r.reconciliations
    && (forall t: Tid :: t < b.uuids && Committed(t) in r.wal && Committed(t) !in b.wal ==>
         ResolvedIn(r.reconciliations, t))
  }

  lemma JustifiedThrough(a: Books, b: Books, c: Books)
    requires Justified(a, b) && Justified(b, c)
    ensures Justified(a, c)
  {
    hide ResolvedIn;
    forall t: Tid | t < a.uuids && Committed(t) in c.wal && Committed(t) !in a.wal
      ensures ResolvedIn(c.reconciliations, t)
    {
      if Committed(t) in b.wal {
        ResolvedGrows(b.reconciliations, c.reconciliations, t);
      }
    }
  }

  lemma ResolvedGrows(rs: seq<RecoveryRecord>, more: seq<RecoveryRecord>, tid: Tid)
    requires rs <= more && ResolvedIn(rs, tid)
    ensures ResolvedIn(more, tid)
  {
    var i :| 0 <= i < |rs| && rs[i].tid == tid && rs[i].resolved;
    assert more[i] == rs[i];
  }

  lemma OrdinaryJustified(b: Books, steps: seq<Step>)
    requires Ordinary(steps, b.uuids)
    ensures Justified(b, ApplyAll(b, steps))
  {
    OrdinaryWrites(steps, b.uuids);
    hide Ordinary, Written, ResolvedIn;
    WritesAdd(b, steps);
  }

  lemma ConclusionJustified(b: Books, x: RecoveryRecord, action: string, event: string, k: nat)
    requires k <= 4 && (k == 4 ==> x.resolved)
    ensures Justified(b, ApplyAll(b, Conclusion(x, action, event)[..k]))
  {
    ConclusionWrites(x, action, event, k);
    hide Written, Conclusion;
    var steps := Conclusion(x, action, event)[..k];
    WritesAdd(b, steps);
    var r := ApplyAll(b, steps);
    if k == 4 {
      assert r.reconciliations[|b.reconciliations|] == x;
      assert ResolvedIn(r.reconciliations, x.tid);
    }
  }

  lemma ReconcileJustified(b: Books, c: ReconcileCommand, k: nat)
    requires k <= |ReconcilePlan(b, c).steps|
    ensures Justified(b, ApplyAll(b, ReconcilePlan(b, c).steps[..k]))
  {
    ReconcileSteps(b, c, k);
    hide *;
    ConclusionJustified(b, DecisionOf(c), "recovery.reconciliation_recorded", "recovery.reconciliation_recorded.v1", k);
  }

  lemma ResolveJustified(b: Books, c: ResolveCommand, k: nat)
    requires k <= |ResolvePlan(b, c).steps|
    ensures Justified(b, ApplyAll(b, ResolvePlan(b, c).steps[..k]))
  {
    hide Justified, ResolvePlan, JournalPlan, Ordinary, ApplyAll, Conclusion, ClosedPeriods, RefuseResolve;
    if ResolvePlan(b, c).steps == [] {
      NothingOrdinary(b.uuids);
      assert ResolvePlan(b, c).steps[..k] == [];
      OrdinaryJustified(b, []);
    } else {
      ResolveSteps(b, c);
      var posted := JournalPlan(b, ClosedPeriods(b), c.journal).steps;
      var end := Conclusion(AdjustmentOf(c), "recovery.accounting_adjustment_resolved",
                            "recovery.reconciliation_recorded.v1");
      FourSteps(AdjustmentOf(c), "recovery.accounting_adjustment_resolved", "recovery.reconciliation_recorded.v1");
      CutAt(b, posted, end, k);
      JournalOrdinary(b, ClosedPeriods(b), c.journal);
      if k <= |posted| {
        OrdinaryCut(posted, b.uuids, k);
        OrdinaryJustified(b, posted[..k]);
      } else {
        OrdinaryJustified(b, posted);
        var mid := ApplyAll(b, posted);
        ConclusionJustified(mid, AdjustmentOf(c), "recovery.accounting_adjustment_resolved",
                            "recovery.reconciliation_recorded.v1", k - |posted|);
        JustifiedThrough(b, mid, ApplyAll(mid, end[..k - |posted|]));
      }
    }
  }

  lemma EventKeepsOrder(b: Books, e: RecoveryEvent)
    requires RecoveryOrder(b) && KnownIds(b)
    ensures var r := AfterRecovery(b, e); RecoveryOrder(r) && KnownIds(r) && Justified(b, r)
  {
    hide RecoveryOrder, KnownIds, ReconcilePlan, ResolvePlan, PlanOf, RecoverOf, ApplyAll, Cut, Ordinary;
    match e {
      case Reconciling(c, k) =>
        var n := CutIsPrefix(ReconcilePlan(b, c).steps, k);
        ReconcileKeepsOrder(b, c, n);
        ReconcileJustified(b, c, n);
        KnownIdsStay(b, StepsOf(b, e));
      case Resolving(c, k) =>
        var n := CutIsPrefix(ResolvePlan(b, c).steps, k);
        ResolveKeepsOrder(b, c, n);
        ResolveJustified(b, c, n);
        KnownIdsStay(b, StepsOf(b, e));
      case Working(p, cmd, k) =>
        var n := CutIsPrefix(PlanOf(b, p, cmd).steps, k);
        CommandOrdinary(b, p, cmd);
        OrdinaryCut(PlanOf(b, p, cmd).steps, b.uuids, n);
        OrdinaryKeepsOrder(b, StepsOf(b, e));
        OrdinaryJustified(b, StepsOf(b, e));
        KnownIdsStay(b, StepsOf(b, e));
      case Recovering(missing) => AutomaticKeepsOrder(b, missing);
    }
  }

  /** In every run of decisions, adjustments, automatic recoveries and commands, each cut at any append: at
      most one decision and one adjustment for each transaction, an adjustment only after a decision that
      asked for it and a posted balanced correction, and no transaction known at the start is committed
      without a resolved record. */
  lemma {:induction false} RecoveryRunKeepsOrder(b: Books, es: seq<RecoveryEvent>)
    requires RecoveryOrder(b) && KnownIds(b)
    ensures var r := RecoveryRun(b, es); RecoveryOrder(r) && KnownIds(r) && Justified(b, r)
  {
    hide RecoveryOrder, KnownIds, AfterRecovery;
    if es != [] {
      var n := |es| - 1;
      RecoveryRunKeepsOrder(b, es[..n]);
      var r := RecoveryRun(b, es[..n]);
      EventKeepsOrder(r, es[n]);
      hide Justified;
      JustifiedThrough(b, r, AfterRecovery(r, es[n]));
    }
  }

  lemma {:induction false} RunSplits(b: Books, es: seq<RecoveryEvent>, i: nat)
    requires i <= |es|
    ensures RecoveryRun(b, es) == RecoveryRun(RecoveryRun(b, es[..i]), es[i..])
    decreases |es|
  {
    hide AfterRecovery;
    if i == |es| {
      assert es[..i] == es;
    } else {
      var n := |es| - 1;
      RunSplits(b, es[..n], i);
      assert es[..n][..i] == es[..i] && es[..n][i..] == es[i..][..n - i];
    }
  }

  /** From the empty store on: a transaction whose id is taken and which is not committed after some of the
      events is committed later only once a resolved record of it stands in the files. */
  lemma CommitNeedsRecord(es: seq<RecoveryEvent>, i: nat, tid: Tid)
    requires i <= |es|
    ensures RecoveryOrder(RecoveryRun(EMPTY, es))
    ensures var before, after := RecoveryRun(EMPTY, es[..i]), RecoveryRun(EMPTY, es);
      tid < before.uuids && Committed(tid) !in before.wal && Committed(tid) in after.wal ==>
        ResolvedIn(after.reconciliations, tid)
  {
    StartsInOrder();
    RecoveryRunKeepsOrder(EMPTY, es);
    RecoveryRunKeepsOrder(EMPTY, es[..i]);
    RunSplits(EMPTY, es, i);
    RecoveryRunKeepsOrder(RecoveryRun(EMPTY, es[..i]), es[i..]);
    hide RecoveryOrder, KnownIds, RecoveryRun, ResolvedIn;
  }

  lemma StartsInOrder()
    ensures RecoveryOrder(EMPTY) && KnownIds(EMPTY)
  {
  }

  // ---------------------------------------------------------------- who asked

  /** The event asks for the record, by an actor who may, names himself and gives a reason; an adjustment with
      a correction journal of his own. */
  predicate AsksFor(e: RecoveryEvent, x: RecoveryRecord) {
    match e
    case Reconciling(c, _) =>
      && c.authorized && c.actorId != "" && c.reason != "" && x.tid == c.tid && x.decision == c.decision
      && (x.resolved <==> c.decision == AcceptedExistingRecords) && x.correction.None?
    case Resolving(c, _) =>
      && c.authorized && c.actorId != "" && c.reason != "" && x.tid == c.tid
      && x.decision == RequiresAccountingAdjustment
      && x.resolved && x.correction == Some(c.journal.journalId) && c.journal.actorId == c.actorId
      && c.journal.sourceModule == "recovery" && c.journal.sourceDocumentId == TidName(c.tid)
    case _ => false
  }

  predicate AskedFor(es: seq<RecoveryEvent>, x: RecoveryRecord) { exists k :: 0 <= k < |es| && AsksFor(es[k], x) }

  lemma AskedEarlier(es: seq<RecoveryEvent>, x: RecoveryRecord)
    requires es != [] && AskedFor(es[..|es| - 1], x)
    ensures AskedFor(es, x)
  {
    var k :| 0 <= k < |es| - 1 && AsksFor(es[..|es| - 1][k], x);
    assert AsksFor(es[k], x);
  }

  lemma DecisionAsked(b: Books, c: ReconcileCommand, k: nat)
    requires k <= |ReconcilePlan(b, c).steps|
    ensures forall x :: x in Written(ReconcilePlan(b, c).steps[..k]).reconciliations ==> AsksFor(Reconciling(c, k), x)
  {
    ReconcileSteps(b, c, k);
    if k > 0 {
      hide Written, Conclusion, ReconcilePlan, IsPending, HasRecord;
      ConclusionWrites(DecisionOf(c), "recovery.reconciliation_recorded", "recovery.reconciliation_recorded.v1", k);
    } else {
      assert ReconcilePlan(b, c).steps[..k] == [];
    }
  }

  lemma AdjustmentAsked(b: Books, c: ResolveCommand, k: nat)
    requires k <= |ResolvePlan(b, c).steps|
    ensures forall x :: x in Written(ResolvePlan(b, c).steps[..k]).reconciliations ==> AsksFor(Resolving(c, k), x)
  {
    hide ResolvePlan, JournalPlan, Ordinary, Written, Conclusion, ClosedPeriods, IsPending, HasAdjustment,
      FirstDecision, TidName;
    if ResolvePlan(b, c).steps == [] {
      assert ResolvePlan(b, c).steps[..k] == [];
      NoneWritten();
    } else {
      ResolveSteps(b, c);
      var posted := JournalPlan(b, ClosedPeriods(b), c.journal).steps;
      var end := Conclusion(AdjustmentOf(c), "recovery.accounting_adjustment_resolved",
                            "recovery.reconciliation_recorded.v1");
      FourSteps(AdjustmentOf(c), "recovery.accounting_adjustment_resolved", "recovery.reconciliation_recorded.v1");
      CutAt(b, posted, end, k);
      JournalOrdinary(b, ClosedPeriods(b), c.journal);
      if k <= |posted| {
        OrdinaryCut(posted, b.uuids, k);
        OrdinaryWrites(posted[..k], b.uuids);
      } else {
        OrdinaryWrites(posted, b.uuids);
        WrittenConcat(posted, end[..k - |posted|]);
        ConclusionWrites(AdjustmentOf(c), "recovery.accounting_adjustment_resolved",
                         "recovery.reconciliation_recorded.v1", k - |posted|);
      }
    }
  }

  lemma NoneWritten()
    ensures Written([]).reconciliations == []
  {
  }

  lemma EventAsks(b: Books, e: RecoveryEvent)
    ensures forall x :: x in AfterRecovery(b, e).reconciliations ==> x in b.reconciliations || AsksFor(e, x)
  {
    hide ReconcilePlan, ResolvePlan, PlanOf, RecoverOf, ApplyAll, Cut, Ordinary, Written, AsksFor;
    match e {
      case Reconciling(c, k) =>
        var n := CutIsPrefix(ReconcilePlan(b, c).steps, k);
        DecisionAsked(b, c, n);
        WritesAdd(b, StepsOf(b, e));
        SameAsked(c, n, k);
      case Resolving(c, k) =>
        var n := CutIsPrefix(ResolvePlan(b, c).steps, k);
        AdjustmentAsked(b, c, n);
        WritesAdd(b, StepsOf(b, e));
        SameAdjusted(c, n, k);
      case Working(p, cmd, k) =>
        var n := CutIsPrefix(PlanOf(b, p, cmd).steps, k);
        CommandOrdinary(b, p, cmd);
        OrdinaryCut(PlanOf(b, p, cmd).steps, b.uuids, n);
        OrdinaryWrites(StepsOf(b, e), b.uuids);
        WritesAdd(b, StepsOf(b, e));
      case Recovering(missing) => RecoveryOnlyDropsPending(b, missing);
    }
  }

  lemma SameAsked(c: ReconcileCommand, n: nat, k: nat)
    ensures forall x :: AsksFor(Reconciling(c, n), x) == AsksFor(Reconciling(c, k), x)
  {
  }

  lemma SameAdjusted(c: ResolveCommand, n: nat, k: nat)
    ensures forall x :: AsksFor(Resolving(c, n), x) == AsksFor(Resolving(c, k), x)
  {
  }

  /** Every record of a run was asked for by an authorized actor of the run. */
  lemma {:induction false} RecordsAreAskedFor(es: seq<RecoveryEvent>)
    ensures forall x :: x in RecoveryRun(EMPTY, es).reconciliations ==> AskedFor(es, x)
  {
    hide AfterRecovery, AsksFor;
    if es != [] {
      var n := |es| - 1;
      RecordsAreAskedFor(es[..n]);
      EventAsks(RecoveryRun(EMPTY, es[..n]), es[n]);
      forall x | x in RecoveryRun(EMPTY, es).reconciliations
        ensures AskedFor(es, x)
      {
        if x in RecoveryRun(EMPTY, es[..n]).reconciliations {
          AskedEarlier(es, x);
        } else {
          assert AsksFor(es[n], x);
        }
      }
    }
  }

  /** And so was every commit of a transaction that was once left uncommitted. */
  lemma CommitIsAskedFor(es: seq<RecoveryEvent>, i: nat, tid: Tid)
    requires i <= |es|
    requires var before, after := RecoveryRun(EMPTY, es[..i]), RecoveryRun(EMPTY, es);
      tid < before.uuids && Committed(tid) !in before.wal && Committed(tid) in after.wal
    ensures exists x: RecoveryRecord :: x.tid == tid && x.resolved && AskedFor(es, x)
  {
    hide RecoveryRun, AskedFor;
    CommitNeedsRecord(es, i, tid);
    RecordsAreAskedFor(es);
    var rs := RecoveryRun(EMPTY, es).reconciliations;
    var k :| 0 <= k < |rs| && rs[k].tid == tid && rs[k].resolved;
    assert rs[k] in rs;
  }

  // ---------------------------------------------------------------- what the machine cannot finish

  /** The first decision asks for an adjustment that has not been made. */
  predicate Waits(rs: seq<RecoveryRecord>, tid: Tid) {
    var first := FirstDecision(rs, tid);
    first.Some? && first.value.decision == RequiresAccountingAdjustment && !first.value.resolved
      && !HasAdjustment(rs, tid)
  }

  /** Pending and recorded, with no adjustment to wait for. */
  predicate Stuck(b: Books, tid: Tid) {
    IsPending(b, tid) && HasRecord(b.reconciliations, tid) && !Waits(b.reconciliations, tid)
  }

  ghost predicate CanReconcile(b: Books, tid: Tid) {
    exists c: ReconcileCommand :: c.tid == tid && ReconcilePlan(b, c).error.None?
  }

  ghost predicate CanResolve(b: Books, tid: Tid) {
    exists c: ResolveCommand :: c.tid == tid && ResolvePlan(b, c).error.None?
  }

  lemma {:induction false} DecidedHasRecord(rs: seq<RecoveryRecord>, tid: Tid)
    requires FirstDecision(rs, tid).Some?
    ensures HasRecord(rs, tid)
  {
    FirstDecisionIs(rs, tid);
  }

  /** A string longer than any of those given. */
  function Fresh(xs: seq<string>): (s: string)
    ensures s != "" && forall x :: x in xs ==> |x| < |s|
  {
    if xs == [] then "x" else
    var rest, x := Fresh(xs[1..]), xs[0];
    var s := if |x| < |rest| then rest else x + "x";
    assert xs == [x] + xs[1..];
    s
  }

  function CorrectionLines(): seq<JournalLine> {
    [JournalLine(CASH, 1, 0, "INR"), JournalLine(OWNER_EQUITY, 0, 1, "INR")]
  }

  lemma CorrectionLinesValid()
    ensures var ls := CorrectionLines();
      && |ls| == 2 && OneCurrency(ls) && FirstLineError(ls).None? && Sum(ls, DebitOf()) == Sum(ls, CreditOf())
  {
    var x, y := JournalLine(CASH, 1, 0, "INR"), JournalLine(OWNER_EQUITY, 0, 1, "INR");
    SumTwo(x, y, DebitOf());
    SumTwo(x, y, CreditOf());
    assert Known(CASH) && Known(OWNER_EQUITY) by {
      assert CODES[0] == CASH && CODES[7] == OWNER_EQUITY;
    }
    hide Sum, Known;
    assert |"INR"| > 0;
    assert forall i :: 0 <= i < |[x, y]| ==> LineError([x, y][i]).None?;
  }

  lemma CorrectionFields(c: PostCommand)
    requires c.journalId != "" && c.periodId != "" && c.sourceDocumentId != ""
    requires c.timestamp == "now" && c.actorId == "owner" && c.sourceModule == "recovery"
      && c.correlationId == "recovery"
      && c.description == "correction"
    ensures "" !in [c.journalId, c.periodId, c.timestamp, c.actorId, c.sourceModule, c.sourceDocumentId,
                    c.correlationId, c.description]
  {
    assert |c.timestamp| > 0 && |c.actorId| > 0 && |c.sourceModule| > 0 && |c.correlationId| > 0 && |c.description| > 0;
  }

  lemma ValidCorrection(closed: set<string>, c: PostCommand)
    requires "" !in [c.journalId, c.periodId, c.timestamp, c.actorId, c.sourceModule, c.sourceDocumentId,
                     c.correlationId, c.description]
    requires c.periodId !in closed && |c.lines| >= 2 && OneCurrency(c.lines) && FirstLineError(c.lines).None?
    requires Sum(c.lines, DebitOf()) == Sum(c.lines, CreditOf())
    ensures ValidatePost(closed, c).None?
  {
    hide OneCurrency, FirstLineError, Sum;
  }

  function Correction(journalId: string, periodId: string, tid: Tid): PostCommand {
    PostCommand(journalId, periodId, "now", "owner", "recovery", TidName(tid), "recovery", "correction",
                CorrectionLines())
  }

  lemma CorrectionValid(closed: set<string>, journalId: string, periodId: string, tid: Tid)
    requires journalId != "" && periodId != "" && periodId !in closed
    ensures ValidatePost(closed, Correction(journalId, periodId, tid)).None?
  {
    NameNotEmpty(tid);
    CorrectionLinesValid();
    hide CorrectionLines, ValidatePost, TidName;
    CorrectionFields(Correction(journalId, periodId, tid));
    ValidCorrection(closed, Correction(journalId, periodId, tid));
  }

  lemma CorrectionIs(journalId: string, periodId: string, tid: Tid)
    ensures var c := Correction(journalId, periodId, tid);
      c.journalId == journalId && c.actorId == "owner" && c.sourceModule == "recovery"
        && c.sourceDocumentId == TidName(tid)
  {
    hide TidName, CorrectionLines;
  }

  /** Whatever the ledger and the closed periods, some correction of the transaction can be posted. */
  lemma SomeCorrection(b: Books, tid: Tid) returns (c: PostCommand)
    ensures c.actorId == "owner" && c.sourceModule == "recovery" && c.sourceDocumentId == TidName(tid)
    ensures JournalPlan(b, ClosedPeriods(b), c).Succeeds()
  {
    hide ValidatePost, JournalBody, Transaction, Fresh, Correction, TidName;
    var ids := seq(|b.entries|, i requires 0 <= i < |b.entries| => b.entries[i].journalId);
    c := Correction(Fresh(ids), Fresh(b.periods), tid);
    CorrectionIs(Fresh(ids), Fresh(b.periods), tid);
    CorrectionValid(ClosedPeriods(b), Fresh(ids), Fresh(b.periods), tid);
    forall i | 0 <= i < |b.entries|
      ensures b.entries[i].journalId != c.journalId
    {
      assert ids[i] in ids;
    }
  }

  lemma NameNotEmpty(tid: Tid)
    ensures TidName(tid) != ""
  {
  }

  /** A pending transaction can be decided or adjusted, by some caller and with some journal, exactly when it
      is not stuck. */
  lemma StuckIsRefused(b: Books, tid: Tid)
    requires IsPending(b, tid)
    ensures Stuck(b, tid) <==> !CanReconcile(b, tid) && !CanResolve(b, tid)
  {
    hide IsPending, JournalPlan, ClosedPeriods;
    var rs := b.reconciliations;
    if FirstDecision(rs, tid).Some? {
      DecidedHasRecord(rs, tid);
    }
    if !HasRecord(rs, tid) {
      assert ReconcilePlan(b, ReconcileCommand(tid, VoidedAsIncomplete, "owner", "reason", true)).error.None?;
    }
    if Waits(rs, tid) {
      var journal := SomeCorrection(b, tid);
      assert ResolvePlan(b, ResolveCommand(tid, "owner", "reason", true, journal)).error.None?;
    }
  }

  /** The decision is stuck exactly when it was cut behind its record and in front of its commit, and asks
      for no adjustment. */
  lemma CutDecisionIsStuck(b: Books, c: ReconcileCommand, k: nat)
    requires ReconcilePlan(b, c).error.None? && k <= |ReconcilePlan(b, c).steps|
    ensures Stuck(ApplyAll(b, ReconcilePlan(b, c).steps[..k]), c.tid) <==>
      0 < k < 4 && c.decision != RequiresAccountingAdjustment
  {
    ReconcileSteps(b, c, k);
    hide IsPending, ApplyAll, Written, Conclusion, Waits;
    var x, steps := DecisionOf(c), ReconcilePlan(b, c).steps[..k];
    ConclusionWrites(x, "recovery.reconciliation_recorded", "recovery.reconciliation_recorded.v1", k);
    WritesAdd(b, steps);
    var r := ApplyAll(b, steps);
    assert b.reconciliations + [] == b.reconciliations;
    if k == 4 {
      assert Committed(c.tid) in r.wal;
      CommittedNotPending(r, c.tid);
    } else if k > 0 {
      SamePending(b, r, c.tid);
      DecisionAppended(b.reconciliations, x);
      assert r.reconciliations[|b.reconciliations|] == x;
      NoAdjustmentWithoutRecord(b.reconciliations, x);
      WaitsIs(r.reconciliations, c.tid);
    }
  }

  lemma WaitsIs(rs: seq<RecoveryRecord>, tid: Tid)
    ensures Waits(rs, tid) <==>
      && FirstDecision(rs, tid).Some? && FirstDecision(rs, tid).value.decision == RequiresAccountingAdjustment
      && !FirstDecision(rs, tid).value.resolved && !HasAdjustment(rs, tid)
  {
    hide FirstDecision, HasAdjustment;
  }

  lemma CommittedNotPending(b: Books, tid: Tid)
    requires Committed(tid) in b.wal
    ensures !IsPending(b, tid)
  {
    if IsPending(b, tid) {
      PendingFacts(b, tid);
    }
  }

  lemma NoAdjustmentWithoutRecord(rs: seq<RecoveryRecord>, x: RecoveryRecord)
    requires !HasRecord(rs, x.tid) && x.correction.None?
    ensures !HasAdjustment(rs + [x], x.tid)
  {
  }

  /** The adjustment is stuck exactly when it was cut behind its record and in front of its commit. */
  lemma CutAdjustmentIsStuck(b: Books, c: ResolveCommand, k: nat)
    requires ResolvePlan(b, c).error.None? && KnownIds(b) && k <= |ResolvePlan(b, c).steps|
    ensures var posted := |JournalPlan(b, ClosedPeriods(b), c.journal).steps|;
      Stuck(ApplyAll(b, ResolvePlan(b, c).steps[..k]), c.tid) <==> posted < k < posted + 4
  {
    ResolveWaits(b, c);
    ResolveSteps(b, c);
    hide IsPending, ApplyAll, Written, Conclusion, FirstDecision, JournalPlan, ResolvePlan, RefuseResolve,
      ClosedPeriods, KnownIds, Ordinary;
    var x, tid := AdjustmentOf(c), c.tid;
    var posted := JournalPlan(b, ClosedPeriods(b), c.journal).steps;
    var end := Conclusion(x, "recovery.accounting_adjustment_resolved", "recovery.reconciliation_recorded.v1");
    FourSteps(x, "recovery.accounting_adjustment_resolved", "recovery.reconciliation_recorded.v1");
    JournalOrdinary(b, ClosedPeriods(b), c.journal);
    CutAt(b, posted, end, k);
    if k <= |posted| {
      OrdinaryCut(posted, b.uuids, k);
      StillWaits(b, posted[..k], tid);
    } else {
      StillWaits(b, posted, tid);
      var mid, m := ApplyAll(b, posted), k - |posted|;
      ConclusionWrites(x, "recovery.accounting_adjustment_resolved", "recovery.reconciliation_recorded.v1", m);
      WritesAdd(mid, end[..m]);
      var r := ApplyAll(mid, end[..m]);
      if m == 4 {
        assert Committed(tid) in r.wal;
        CommittedNotPending(r, tid);
      } else {
        SamePending(mid, r, tid);
        assert r.reconciliations[|mid.reconciliations|] == x;
      }
    }
  }

  lemma ResolveWaits(b: Books, c: ResolveCommand)
    requires ResolvePlan(b, c).error.None?
    ensures IsPending(b, c.tid) && Waits(b.reconciliations, c.tid) && ResolvePlan(b, c).steps != []
  {
    hide IsPending, FirstDecision, HasAdjustment, JournalPlan, ClosedPeriods;
  }

  /** Appends with new ids only change nothing for a waiting transaction. */
  lemma StillWaits(b: Books, steps: seq<Step>, tid: Tid)
    requires IsPending(b, tid) && Waits(b.reconciliations, tid) && KnownIds(b) && Ordinary(steps, b.uuids)
    ensures var r := ApplyAll(b, steps); IsPending(r, tid) && Waits(r.reconciliations, tid)
  {
    PendingIsKnown(b, tid);
    OrdinaryWrites(steps, b.uuids);
    hide IsPending, Waits, KnownIds, Ordinary, Written;
    WritesAdd(b, steps);
    assert b.reconciliations + [] == b.reconciliations;
    StillThere(b, Written(steps), tid);
  }

  lemma SamePending(b: Books, r: Books, tid: Tid)
    requires b.wal == r.wal
    ensures IsPending(b, tid) == IsPending(r, tid)
  {
  }

  lemma {:induction false} DecisionAppended(rs: seq<RecoveryRecord>, x: RecoveryRecord)
    requires !HasRecord(rs, x.tid) && x.correction.None?
    ensures FirstDecision(rs + [x], x.tid) == Some(x)
  {
    if rs != [] {
      assert (rs + [x])[1..] == rs[1..] + [x];
      forall i | 0 <= i < |rs[1..]|
        ensures rs[1..][i].tid != x.tid
      {
        assert rs[i + 1].tid != x.tid;
      }
      DecisionAppended(rs[1..], x);
    }
  }

  lemma {:induction false} FirstDecisionStays(rs: seq<RecoveryRecord>, more: seq<RecoveryRecord>, tid: Tid)
    requires FirstDecision(rs, tid).Some?
    ensures FirstDecision(rs + more, tid) == FirstDecision(rs, tid)
  {
    assert (rs + more)[0] == rs[0] && (rs + more)[1..] == rs[1..] + more;
    if !(rs[0].tid == tid && rs[0].correction.None?) {
      FirstDecisionStays(rs[1..], more, tid);
    }
  }

  lemma {:induction false} NeverWaits(rs: seq<RecoveryRecord>, more: seq<RecoveryRecord>, tid: Tid)
    requires HasRecord(rs, tid) && !Waits(rs, tid)
    ensures HasRecord(rs + more, tid) && !Waits(rs + more, tid)
  {
    FirstDecisionIs(rs, tid);
    if FirstDecision(rs, tid).Some? {
      FirstDecisionStays(rs, more, tid);
    }
    hide FirstDecision;
    var i :| 0 <= i < |rs| && rs[i].tid == tid;
    assert (rs + more)[i] == rs[i];
    if HasAdjustment(rs, tid) {
      var k :| 0 <= k < |rs| && rs[k].tid == tid && rs[k].correction.Some?;
      assert (rs + more)[k] == rs[k];
    }
  }

  lemma QuietStaysStuck(b: Books, d: Books, tid: Tid)
    requires Stuck(b, tid) && Committed(tid) !in d.wal
    ensures Stuck(Plus(b, d), tid)
  {
    hide IsPending, Waits, HasRecord;
    NeverWaits(b.reconciliations, d.reconciliations, tid);
    StillThere(b, d, tid);
  }

  /** Log records have new ids, or commit the one transaction. */
  predicate LogsOnly(steps: seq<Step>, tid: Tid, lo: nat) {
    forall i :: 0 <= i < |steps| && steps[i].WalStep? ==> steps[i].wal.tid >= lo || steps[i].wal == Committed(tid)
  }

  lemma {:induction false} LogsOnlyWrites(steps: seq<Step>, tid: Tid, lo: nat)
    requires LogsOnly(steps, tid, lo)
    ensures forall x :: x in Written(steps).wal ==> x.tid >= lo || x == Committed(tid)
    decreases |steps|
  {
    if steps != [] {
      LogsOnlyWrites(steps[..|steps| - 1], tid, lo);
    }
  }

  /** The transaction an operation works on; a fresh one for commands. */
  function Target(b: Books, e: RecoveryEvent): Tid
    requires !e.Recovering?
  {
    match e
    case Reconciling(c, _) => c.tid
    case Resolving(c, _) => c.tid
    case Working(_, _, _) => b.uuids
  }

  lemma EventLogs(b: Books, e: RecoveryEvent)
    requires !e.Recovering?
    ensures LogsOnly(StepsOf(b, e), Target(b, e), b.uuids)
    ensures StepsOf(b, e) == [] || e.Working? || IsPending(b, Target(b, e))
  {
    hide ReconcilePlan, ResolvePlan, PlanOf, IsPending, Ordinary, JournalPlan, ClosedPeriods, RefuseResolve;
    match e {
      case Reconciling(c, k) =>
        var n := CutIsPrefix(ReconcilePlan(b, c).steps, k);
        ReconcileSteps(b, c, n);
        if n > 0 {
          ReconcileWasPending(b, c);
        }
      case Resolving(c, k) =>
        var n := CutIsPrefix(ResolvePlan(b, c).steps, k);
        if ResolvePlan(b, c).steps != [] {
          ResolveSteps(b, c);
          WasPending(b, c);
          JournalOrdinary(b, ClosedPeriods(b), c.journal);
          OrdinaryLogs(JournalPlan(b, ClosedPeriods(b), c.journal).steps, c.tid, b.uuids);
        }
      case Working(p, cmd, k) =>
        CommandOrdinary(b, p, cmd);
        OrdinaryLogs(PlanOf(b, p, cmd).steps, b.uuids, b.uuids);
    }
  }

  lemma OrdinaryLogs(steps: seq<Step>, tid: Tid, lo: nat)
    requires Ordinary(steps, lo)
    ensures LogsOnly(steps, tid, lo)
  {
  }

  lemma ReconcileWasPending(b: Books, c: ReconcileCommand)
    requires RefuseReconcile(b, c).None?
    ensures IsPending(b, c.tid)
  {
    hide IsPending, HasRecord;
  }

  /** A stuck transaction is the target of no accepted operation. */
  lemma StuckIsNoTarget(b: Books, e: RecoveryEvent, tid: Tid)
    requires !e.Recovering? && Stuck(b, tid) && KnownIds(b)
    ensures Committed(tid) !in Written(StepsOf(b, e)).wal
  {
    PendingIsKnown(b, tid);
    EventLogs(b, e);
    LogsOnlyWrites(StepsOf(b, e), Target(b, e), b.uuids);
    if !e.Working? && Target(b, e) == tid {
      hide Stuck, IsPending, LogsOnly, Written;
      StuckRefuses(b, e, tid);
      NothingWritten();
    }
  }

  lemma StuckRefuses(b: Books, e: RecoveryEvent, tid: Tid)
    requires (e.Reconciling? || e.Resolving?) && Target(b, e) == tid && Stuck(b, tid)
    ensures StepsOf(b, e) == []
  {
    hide IsPending, JournalPlan, ClosedPeriods;
    if FirstDecision(b.reconciliations, tid).Some? {
      DecidedHasRecord(b.reconciliations, tid);
    }
  }

  /** No log record mentions the transaction. */
  predicate Gone(b: Books, tid: Tid) { tid < b.uuids && forall x :: x in b.wal ==> x.tid != tid }

  lemma GoneStays(b: Books, e: RecoveryEvent, tid: Tid)
    requires Gone(b, tid)
    ensures Gone(AfterRecovery(b, e), tid)
  {
    hide ApplyAll, RecoverOf, StepsOf, Written, IsPending, LogsOnly;
    match e {
      case Recovering(missing) => RecoveryDrops(b, missing);
      case _ =>
        EventLogs(b, e);
        LogsOnlyWrites(StepsOf(b, e), Target(b, e), b.uuids);
        WritesAdd(b, StepsOf(b, e));
        GoneIsNotPending(b, tid);
        NothingWritten();
    }
  }

  lemma GoneIsNotPending(b: Books, tid: Tid)
    requires Gone(b, tid)
    ensures !IsPending(b, tid)
  {
    if IsPending(b, tid) {
      PendingFacts(b, tid);
    }
  }

  lemma RecoveryDrops(b: Books, missing: bool)
    ensures var r := RecoverOf(b, missing).books;
      && r.uuids == b.uuids && r.reconciliations == b.reconciliations
      && (r.wal == b.wal || r.wal == KeptOf(b.wal)) && forall x :: x in r.wal ==> x in b.wal
  {
    RecoveryOnlyDropsPending(b, missing);
    hide RecoverOf, KeptOf;
    forall x | x in KeptOf(b.wal)
      ensures x in b.wal
    {
      KeptIsThere(b.wal, x);
    }
  }

  lemma KeptIsThere(wal: seq<WalRecord>, x: WalRecord)
    requires x in KeptOf(wal)
    ensures x in wal && (x.Pending? ==> x.tid in CommittedIds(wal))
  {
    KeptMembers(wal, CommittedIds(wal), x);
  }

  /** No operation, completed or cut, ever commits a stuck transaction: it stays stuck until automatic
      recovery drops it from the log for good. */
  lemma StuckStays(b: Books, e: RecoveryEvent, tid: Tid)
    requires Stuck(b, tid) && KnownIds(b)
    ensures var r := AfterRecovery(b, e); Stuck(r, tid) || (e.Recovering? && Gone(r, tid))
  {
    match e {
      case Recovering(missing) => StuckOrDropped(b, missing, tid);
      case _ =>
        StuckIsNoTarget(b, e, tid);
        hide *;
        AfterAppends(b, e);
        WritesAdd(b, StepsOf(b, e));
        QuietStaysStuck(b, Written(StepsOf(b, e)), tid);
    }
  }

  lemma AfterAppends(b: Books, e: RecoveryEvent)
    requires !e.Recovering?
    ensures AfterRecovery(b, e) == ApplyAll(b, StepsOf(b, e))
  {
    hide StepsOf, ApplyAll;
  }

  lemma StuckOrDropped(b: Books, missing: bool, tid: Tid)
    requires Stuck(b, tid) && KnownIds(b)
    ensures var r := RecoverOf(b, missing).books; Stuck(r, tid) || Gone(r, tid)
  {
    PendingFacts(b, tid);
    PendingIsKnown(b, tid);
    RecoveryDrops(b, missing);
    hide RecoverOf, KeptOf, Waits;
    var r := RecoverOf(b, missing).books;
    if r.wal == b.wal {
      SamePending(b, r, tid);
    } else {
      forall x | x in r.wal
        ensures x.tid != tid
      {
        KeptIsThere(b.wal, x);
        NotCommitted(b.wal, tid);
        assert x.Committed? ==> x == Committed(x.tid);
      }
    }
  }

  lemma NotCommitted(wal: seq<WalRecord>, tid: Tid)
    ensures Committed(tid) !in wal ==> tid !in CommittedIds(wal)
  {
    if tid in CommittedIds(wal) {
      var r :| r in wal && r.Committed? && r.tid == tid;
      assert r == Committed(tid);
    }
  }

  /** So in no run is it ever committed. */
  lemma {:induction false} StuckNeverCommits(b: Books, es: seq<RecoveryEvent>, tid: Tid)
    requires RecoveryOrder(b) && KnownIds(b) && Stuck(b, tid)
    ensures var r := RecoveryRun(b, es);
      (Stuck(r, tid) || Gone(r, tid)) && Committed(tid) !in r.wal
  {
    hide RecoveryOrder, KnownIds, AfterRecovery, Stuck, Gone;
    if es != [] {
      var n := |es| - 1;
      StuckNeverCommits(b, es[..n], tid);
      RecoveryRunKeepsOrder(b, es[..n]);
      var r := RecoveryRun(b, es[..n]);
      if Stuck(r, tid) {
        StuckStays(r, es[n], tid);
      } else {
        GoneStays(r, es[n], tid);
      }
    }
    StuckOrGone(RecoveryRun(b, es), tid);
  }

  lemma StuckOrGone(b: Books, tid: Tid)
    ensures Stuck(b, tid) || Gone(b, tid) ==> Committed(tid) !in b.wal
  {
    if Stuck(b, tid) {
      PendingFacts(b, tid);
    }
  }

  // ---------------------------------------------------------------- two corrections

  /** Cut between its correction journal and its record, an adjustment can be made again exactly when the
      second attempt brings a journal with another, unused id; then two corrections are posted. */
  lemma SecondCorrection(b: Books, c: ResolveCommand, again: string)
    requires ResolvePlan(b, c).error.None? && KnownIds(b) && again != ""
    ensures var posted := JournalPlan(b, ClosedPeriods(b), c.journal).steps;
      var r := ApplyAll(b, posted);
      var second := c.(journal := c.journal.(journalId := again));
      && r.entries == b.entries + [EntryOf(c.journal)]
      && (ResolvePlan(r, second).error.None? <==> again != c.journal.journalId && !HasJournal(b.entries, again))
  {
    var closed := ClosedPeriods(b);
    var posted := JournalPlan(b, closed, c.journal).steps;
    var r := ApplyAll(b, posted);
    var second := c.(journal := c.journal.(journalId := again));
    JournalAccepted(b, closed, c.journal);
    PostedIsCorrected(b, closed, c.journal, c.tid);
    SameRefusal(b, closed, c, r, second);
    RetriedJournal(b, r, closed, c.journal, again);
  }

  lemma SameRefusal(b: Books, closed: set<string>, c: ResolveCommand, r: Books, second: ResolveCommand)
    requires closed == ClosedPeriods(b) && RefuseResolve(b, c).None? && JournalPlan(b, closed, c.journal).Succeeds()
      && KnownIds(b)
    requires r == ApplyAll(b, JournalPlan(b, closed, c.journal).steps)
    requires second == c.(journal := c.journal.(journalId := second.journal.journalId))
    ensures RefuseResolve(r, second).None? && ClosedPeriods(r) == closed
  {
    AfterCorrection(b, closed, c.journal);
    WasPending(b, c);
    PendingIsKnown(b, c.tid);
    hide JournalPlan, Written, FirstDecision, HasAdjustment, ApplyAll, KnownIds, IsPending, ClosedPeriods;
    var d := Written(JournalPlan(b, closed, c.journal).steps);
    StillThere(b, d, c.tid);
    SameAnswer(b, r, c, second);
  }

  lemma AfterCorrection(b: Books, closed: set<string>, c: PostCommand)
    requires JournalPlan(b, closed, c).Succeeds()
    ensures var d := Written(JournalPlan(b, closed, c).steps);
      var r := ApplyAll(b, JournalPlan(b, closed, c).steps);
      && r == Plus(b, d) && r.reconciliations == b.reconciliations && ClosedPeriods(r) == ClosedPeriods(b)
      && forall x :: x in d.wal ==> x.tid >= b.uuids
  {
    var posted := JournalPlan(b, closed, c).steps;
    JournalOrdinary(b, closed, c);
    OrdinaryWrites(posted, b.uuids);
    JournalWrites(b, closed, c);
    hide JournalPlan, Written, ApplyAll, EntryOf, LedgerLines;
    WritesAdd(b, posted);
    assert Domain(Written(posted)).periods == [];
    assert ApplyAll(b, posted).periods == b.periods;
  }

  lemma WasPending(b: Books, c: ResolveCommand)
    requires RefuseResolve(b, c).None?
    ensures IsPending(b, c.tid)
  {
    hide IsPending, FirstDecision, HasAdjustment;
  }

  lemma SameAnswer(b: Books, r: Books, c: ResolveCommand, second: ResolveCommand)
    requires RefuseResolve(b, c).None? && r.reconciliations == b.reconciliations && IsPending(r, c.tid)
    requires second == c.(journal := c.journal.(journalId := second.journal.journalId))
    ensures RefuseResolve(r, second).None?
  {
    hide IsPending, FirstDecision, HasAdjustment;
  }

  lemma StillThere(b: Books, d: Books, tid: Tid)
    requires IsPending(b, tid) && Committed(tid) !in d.wal
    ensures IsPending(Plus(b, d), tid)
  {
    var i :| 0 <= i < |PendingOf(b.wal)| && PendingOf(b.wal)[i].tid == tid;
    var x := PendingOf(b.wal)[i];
    PendingMembers(b.wal, CommittedIds(b.wal), x);
    PendingMembers(Plus(b, d).wal, CommittedIds(Plus(b, d).wal), x);
    var k :| 0 <= k < |PendingOf(Plus(b, d).wal)| && PendingOf(Plus(b, d).wal)[k] == x;
  }

  lemma RetriedJournal(b: Books, r: Books, closed: set<string>, c: PostCommand, again: string)
    requires JournalPlan(b, closed, c).Succeeds() && r.entries == b.entries + [EntryOf(c)] && c.lines != []
      && again != ""
    ensures JournalPlan(r, closed, c.(journalId := again)).Succeeds() <==>
      again != c.journalId && !HasJournal(b.entries, again)
  {
    hide Sum, FirstLineError, OneCurrency, Transaction, JournalBody, LedgerLines;
    var d := c.(journalId := again);
    assert ValidatePost(closed, c).None?;
    var fields := [c.periodId, c.timestamp, c.actorId, c.sourceModule, c.sourceDocumentId, c.correlationId,
                   c.description];
    var one := [c.journalId, c.periodId, c.timestamp, c.actorId, c.sourceModule, c.sourceDocumentId, c.correlationId,
                c.description];
    assert one[1..] == fields && "" !in fields by {
      assert forall x :: x in one[1..] ==> x in one;
    }
    assert [d.journalId, d.periodId, d.timestamp, d.actorId, d.sourceModule, d.sourceDocumentId, d.correlationId,
            d.description] == [again] + fields;
    assert ValidatePost(closed, d).None?;
    assert r.entries[|b.entries|] == EntryOf(c);
    if i :| 0 <= i < |b.entries| && b.entries[i].journalId == again {
      assert r.entries[i].journalId == again;
    }
    if i :| 0 <= i < |r.entries| && r.entries[i].journalId == again {
      assert i < |b.entries| ==> b.entries[i].journalId == again;
    }
  }
}
