/** Runs in which every command may be cut at any append or stop by itself, work goes on whether or not
    anyone recovers, and only automatic recovery runs: a store whose log is clean holds complete commands. */
module CleanLog {
  import opened Status
  import opened Books
  import opened Accounting
  import opened Inventory
  import opened Billing
  import opened Writes
  import opened Reconciliation
  import opened UseCases
  import opened Runs
  import opened Stops
  import opened Recovery
  import opened Crash
  import opened CrashRuns
  import opened ManualRecovery
  import opened RecoveryRuns

  // ---------------------------------------------------------------- a transaction that blocks recovery

  /** An announcement without a commit, of an operation that shows in the files. */
  ghost predicate Blocks(b: Books, r: WalRecord) {
    r.Pending? && r in b.wal && Committed(r.tid) !in b.wal && SideEffects(b, r.op) != []
  }

  ghost predicate Blocking(b: Books) { exists r :: Blocks(b, r) }

  lemma BlockedIsUnsafe(b: Books, r: WalRecord)
    requires Blocks(b, r)
    ensures AnyUnsafe(b, PendingOf(b.wal))
  {
    hide SideEffects, AnyUnsafe;
    PendingMembers(b.wal, CommittedIds(b.wal), r);
    PendingIsUnsafe(b, r);
  }

  lemma AppendsKeepBlock(b: Books, steps: seq<Step>, r: WalRecord)
    requires Blocks(b, r) && KnownIds(b) && Ordinary(steps, b.uuids)
    ensures Blocks(ApplyAll(b, steps), r)
  {
    hide Ordinary, Written, SideEffects;
    OrdinaryWrites(steps, b.uuids);
    WritesAdd(b, steps);
    EffectsGrow(b, Written(steps), r.op);
  }

  /** The events of a run without manual recovery. */
  predicate Unattended(es: seq<RecoveryEvent>) { forall i :: 0 <= i < |es| ==> es[i].Working? || es[i].Recovering? }

  lemma WorkIsOrdinary(b: Books, e: RecoveryEvent)
    requires e.Working?
    ensures Ordinary(StepsOf(b, e), b.uuids) && AfterRecovery(b, e) == ApplyAll(b, StepsOf(b, e))
  {
    hide PlanOf, Cut, ApplyAll, Ordinary;
    var n := CutIsPrefix(PlanOf(b, e.policy, e.command).steps, e.appends);
    CommandOrdinary(b, e.policy, e.command);
    OrdinaryCut(PlanOf(b, e.policy, e.command).steps, b.uuids, n);
  }

  lemma RecoveryKeepsIds(b: Books, missing: bool)
    requires KnownIds(b)
    ensures KnownIds(RecoverOf(b, missing).books)
  {
    RecoveryOnlyDropsPending(b, missing);
    hide RecoverOf, AnyUnsafe;
    KeptAreOld(b.wal);
  }

  lemma EventKeepsIds(b: Books, e: RecoveryEvent)
    requires KnownIds(b) && (e.Working? || e.Recovering?)
    ensures KnownIds(AfterRecovery(b, e))
  {
    hide KnownIds, RecoverOf, ApplyAll, StepsOf;
    if e.Recovering? {
      RecoveryKeepsIds(b, e.missing);
    } else {
      KnownIdsStay(b, StepsOf(b, e));
    }
  }

  /** Later work brings neither its commit nor its removal. */
  lemma EventKeepsBlock(b: Books, e: RecoveryEvent, r: WalRecord)
    requires KnownIds(b) && Blocks(b, r) && (e.Working? || e.Recovering?)
    ensures Blocks(AfterRecovery(b, e), r)
  {
    hide KnownIds, Blocks, RecoverOf, ApplyAll, StepsOf, Ordinary;
    if e.Recovering? {
      BlockedIsUnsafe(b, r);
      RecoveryOnlyDropsPending(b, e.missing);
    } else {
      WorkIsOrdinary(b, e);
      AppendsKeepBlock(b, StepsOf(b, e), r);
    }
  }

  // ---------------------------------------------------------------- what a command leaves behind

  /** A command whose domain records are all there, or a stock use case whose movement alone is. */
  datatype Deed = Whole(policy: Policy, command: Command) | Half(policy: Policy, movement: StockCommand)

  /** From the appends that were made: all of them; all records of a closing; or the first of the two
      transactions of a stock move. */
  function DeedOf(b: Books, p: Policy, cmd: Command, appends: nat): Option<Deed> {
    var plan := PlanOf(b, p, cmd);
    if plan.Succeeds() && (|plan.steps| <= appends || (cmd.Close? && 2 <= appends)) then Some(Whole(p, cmd))
    else if cmd.Move? && plan.steps != [] && |MovementPlan(b, p.allowNegativeStock, cmd.movement).steps| <= appends
      then Some(Half(p, cmd.movement))
    else None
  }

  function DeedPlan(b: Books, d: Deed): Plan {
    match d
    case Whole(p, cmd) => PlanOf(b, p, cmd)
    case Half(p, c) => MovementPlan(b, p.allowNegativeStock, c)
  }

  function DeedRun(ds: seq<Deed>): Books {
    if ds == [] then EMPTY else
    var b := DeedRun(ds[..|ds| - 1]);
    ApplyAll(b, DeedPlan(b, ds[|ds| - 1]).steps)
  }

  /** Every one of them completes. */
  ghost predicate AllComplete(ds: seq<Deed>) {
    forall k :: 0 <= k < |ds| ==> DeedPlan(DeedRun(ds[..k]), ds[k]).Succeeds()
  }

  function DeedsOf(es: seq<RecoveryEvent>): seq<Deed> {
    if es == [] then [] else
    var before, e := es[..|es| - 1], es[|es| - 1];
    if !e.Working? then DeedsOf(before) else
    match DeedOf(RecoveryRun(EMPTY, before), e.policy, e.command, e.appends)
    case None => DeedsOf(before)
    case Some(d) => DeedsOf(before) + [d]
  }

  lemma OneMoreDeed(ds: seq<Deed>, d: Deed)
    requires AllComplete(ds) && DeedPlan(DeedRun(ds), d).Succeeds()
    ensures AllComplete(ds + [d])
    ensures DeedRun(ds + [d]) == ApplyAll(DeedRun(ds), DeedPlan(DeedRun(ds), d).steps)
  {
    hide DeedPlan;
    var more := ds + [d];
    assert more[..|ds|] == ds;
    forall k | 0 <= k < |more|
      ensures DeedPlan(DeedRun(more[..k]), more[k]).Succeeds()
    {
      assert k < |ds| ==> more[..k] == ds[..k];
    }
  }

  // ---------------------------------------------------------------- one command, cut at one append

  lemma FiledByDomain(a: Books, b: Books)
    requires Domain(a) == Domain(b) && Filed(a)
    ensures Filed(b)
  {
    hide Linked, HasJournal, Domain;
    SeesDomain(a);
    SeesDomain(b);
    LinkedByFiles(a, b);
  }

  lemma NothingAdded(b: Books, steps: seq<Step>)
    requires Domain(Written(steps)) == EMPTY
    ensures Domain(ApplyAll(b, steps)) == Domain(b)
  {
    hide Domain, Written, ApplyAll, Plus;
    DomainAfter(b, steps);
    PlusEmpty(Domain(b));
  }

  lemma CutAnnouncing(b: Books, op: Operation, steps: seq<Step>, nested: Option<Operation>, n: nat)
    requires Shaped(b, op, steps, nested) && 0 < n <= |steps| && n <= First(nested)
    ensures Domain(ApplyAll(b, steps[..n])) == Domain(b)
  {
    hide Written, Announced, ApplyAll, SideEffects;
    AnnouncedWrites(b, op, steps, nested, n);
    NothingAdded(b, steps[..n]);
  }

  lemma CutShowing(b: Books, op: Operation, steps: seq<Step>, nested: Option<Operation>, n: nat)
    requires KnownIds(b) && 0 < n <= |steps| && steps[0] == WalStep(Pending(b.uuids, op)) && Open(steps[..n], b.uuids)
    requires SideEffects(Written(steps[..n]), op) != []
    ensures Blocking(ApplyAll(b, steps[..n]))
  {
    hide Written, SideEffects, ApplyAll, Open;
    OpenWrites(steps[..n], b.uuids);
    AnnouncedFirst(steps, b.uuids, op, n);
    WritesAdd(b, steps[..n]);
    EffectsGrow(b, Written(steps[..n]), op);
    assert Blocks(ApplyAll(b, steps[..n]), Pending(b.uuids, op));
  }

  /** Cut while it only announces it leaves the domain files alone, and cut later it blocks recovery. */
  lemma CutShaped(b: Books, op: Operation, steps: seq<Step>, nested: Option<Operation>, n: nat)
    requires KnownIds(b) && Shaped(b, op, steps, nested) && 0 < n <= |steps| && Open(steps[..n], b.uuids)
    ensures var r := ApplyAll(b, steps[..n]);
      if n <= First(nested) then Domain(r) == Domain(b) else Blocking(r)
  {
    hide Written, SideEffects, ApplyAll, Open, KnownIds, Blocking, Domain;
    if n <= First(nested) {
      CutAnnouncing(b, op, steps, nested, n);
    } else {
      ShowsLater(steps, op, First(nested) + 1, n);
      CutShowing(b, op, steps, nested, n);
    }
  }

  lemma MovementShape(b: Books, allowNegative: bool, c: StockCommand)
    requires MovementPlan(b, allowNegative, c).Succeeds()
    ensures var steps := MovementPlan(b, allowNegative, c).steps;
      && Shaped(b, CommitMovementOp(c.movementId), steps, None) && |steps| == 5
      && Open(steps[..4], b.uuids)
  {
    hide Written, RefuseMovement, MovementOf, HasMovement;
    var m, op := MovementOf(b.movements, c), CommitMovementOp(c.movementId);
    OneMovementWritten(m);
    WrittenConcat([WalStep(Pending(b.uuids, op))], [MovementStep(m)]);
    var steps := MovementPlan(b, allowNegative, c).steps;
    assert steps[..2] == [WalStep(Pending(b.uuids, op))] + [MovementStep(m)];
    MovementFoundIn(Written([WalStep(Pending(b.uuids, op))]), Written([MovementStep(m)]), c.movementId);
    MovementNamed(b.movements, c);
  }

  lemma MovementNamed(ms: seq<Movement>, c: StockCommand)
    ensures MovementOf(ms, c).movementId == c.movementId
    ensures HasMovement([MovementOf(ms, c)], c.movementId)
  {
    hide StockOnHand, InventoryValue, UnitCost, MovementPeriod;
    assert [MovementOf(ms, c)][0].movementId == c.movementId;
  }

  lemma {:induction false} TraceDomain(steps: seq<Step>)
    requires forall i :: 0 <= i < |steps| ==> steps[i].WalStep? || steps[i].AuditStep? || steps[i].EventStep?
    ensures Domain(Written(steps)) == EMPTY
    decreases |steps|
  {
    if steps != [] {
      TraceDomain(steps[..|steps| - 1]);
    }
  }

  /** The record of a transaction with one of them stands from its second append on. */
  lemma CutOneRecord(tid: Tid, op: Operation, x: Step, action: string, event: string, n: nat)
    requires n <= |Transaction(tid, op, [x], action, event)|
    ensures var steps := Transaction(tid, op, [x], action, event);
      Domain(Written(steps[..n])) == if n <= 1 then EMPTY else Domain(Written(steps))
  {
    hide Written, Domain;
    var steps := Transaction(tid, op, [x], action, event);
    if n <= 1 {
      TraceDomain(steps[..n]);
    } else {
      assert steps == steps[..n] + steps[n..];
      DomainConcat(steps[..n], steps[n..]);
      TraceDomain(steps[n..]);
      PlusEmpty(Domain(Written(steps[..n])));
    }
  }

  lemma ClosingSteps(b: Books, closed: set<string>, periodId: string)
    requires ClosePlan(b, closed, periodId).Succeeds()
    ensures ClosePlan(b, closed, periodId).steps ==
      if periodId in closed then []
      else Transaction(b.uuids, ClosePeriodOp(periodId), [PeriodStep(periodId)], "accounting.period_closed",
                       "accounting.period_closed.v1")
  {
    hide Transaction, Sum;
  }

  lemma CutClose(b: Books, periodId: string, n: nat)
    requires var plan := CloseUsePlan(b, ClosedPeriods(b), periodId); plan.Succeeds() && n <= |plan.steps|
    ensures var steps := CloseUsePlan(b, ClosedPeriods(b), periodId).steps;
      Domain(Written(steps[..n])) == if n <= 1 then EMPTY else Domain(Written(steps))
  {
    CloseUseWrites(b, periodId);
    ClosingSteps(b, ClosedPeriods(b), periodId);
    hide *;
    if periodId in ClosedPeriods(b) {
      TraceDomain([]);
    } else {
      CutOneRecord(b.uuids, ClosePeriodOp(periodId), PeriodStep(periodId), "accounting.period_closed",
                   "accounting.period_closed.v1", n);
    }
  }

  /** What is left is the deed, or nothing. */
  ghost predicate Leaves(b: Books, r: Books, d: Option<Deed>) {
    if d.None? then Domain(r) == Domain(b)
    else DeedPlan(b, d.value).Succeeds() && Domain(r) == Domain(ApplyAll(b, DeedPlan(b, d.value).steps))
  }

  lemma CutOther(b: Books, p: Policy, cmd: Command, n: nat)
    requires KnownIds(b) && Filed(b) && !cmd.Move? && !cmd.Close?
    requires var plan := PlanOf(b, p, cmd); 0 < n <= |plan.steps| && (n < |plan.steps| || plan.error.Some?)
    ensures var r := ApplyAll(b, PlanOf(b, p, cmd).steps[..n]); Blocking(r) || Domain(r) == Domain(b)
  {
    CommandShape(b, p, cmd);
    var plan, op, nested := PlanOf(b, p, cmd), OpOf(cmd), NestedOf(cmd);
    hide *;
    CutOpen(plan, b.uuids, n);
    CutShaped(b, op, plan.steps, nested, n);
  }

  lemma OpenPrefix(steps: seq<Step>, tid: Tid, n: nat)
    requires 0 < |steps| && Open(steps[..|steps| - 1], tid) && n < |steps|
    ensures Open(steps[..n], tid)
  {
    forall i | 0 <= i < n
      ensures steps[i] != WalStep(Committed(tid))
    {
      assert steps[..|steps| - 1][i] == steps[i];
    }
  }

  lemma CutJournal(b: Books, closed: set<string>, c: PostCommand, n: nat)
    requires KnownIds(b) && Filed(b) && JournalPlan(b, closed, c).Succeeds()
    requires 0 < n < |JournalPlan(b, closed, c).steps|
    ensures var r := ApplyAll(b, JournalPlan(b, closed, c).steps[..n]); Blocking(r) || Domain(r) == Domain(b)
  {
    hide *;
    PostSteps(b, closed, c);
    PostShape(b, closed, c);
    JournalBodyOrdinary(c, b.uuids + 1);
    TransactionOpen(b.uuids, PostJournalOp(c.journalId), JournalBody(c), "accounting.journal_posted", "accounting.journal_posted.v1");
    OpenPrefix(JournalPlan(b, closed, c).steps, b.uuids, n);
    CutShaped(b, PostJournalOp(c.journalId), JournalPlan(b, closed, c).steps, None, n);
  }

  /** The two transactions of a stock move. */
  lemma MoveSteps(b: Books, closed: set<string>, allowNegative: bool, c: StockCommand)
    requires StockPlan(b, closed, allowNegative, c).steps != []
    ensures UsePeriod(c).Some? && MovementPlan(b, allowNegative, c).Succeeds()
    ensures var moved, plan := MovementPlan(b, allowNegative, c), StockPlan(b, closed, allowNegative, c);
      var journal := StockJournal(c, UsePeriod(c).value, MovementOf(b.movements, c).valueDelta);
      var posted := JournalPlan(ApplyAll(b, moved.steps), closed, journal);
      plan == moved || (plan == Plan(moved.steps + posted.steps, posted.error) && (posted.error.Some? ==> posted.steps == []))
  {
    hide MovementOf, RefuseMovement, MovementSteps, JournalPlan, StockJournal, ApplyAll;
    var journal := StockJournal(c, UsePeriod(c).value, MovementOf(b.movements, c).valueDelta);
    var posted := JournalPlan(ApplyAll(b, MovementPlan(b, allowNegative, c).steps), closed, journal);
    if posted.error.Some? {
      RefusedPosting(ApplyAll(b, MovementPlan(b, allowNegative, c).steps), closed, journal);
    }
  }

  lemma CutMove(b: Books, closed: set<string>, allowNegative: bool, c: StockCommand, n: nat)
    requires KnownIds(b) && Filed(b)
    requires var plan := StockPlan(b, closed, allowNegative, c); 0 < n <= |plan.steps| && (n < |plan.steps| || plan.error.Some?)
    ensures MovementPlan(b, allowNegative, c).Succeeds()
    ensures |MovementPlan(b, allowNegative, c).steps| <= |StockPlan(b, closed, allowNegative, c).steps|
    ensures var r, moved := ApplyAll(b, StockPlan(b, closed, allowNegative, c).steps[..n]), MovementPlan(b, allowNegative, c).steps;
      Blocking(r) || Domain(r) == if |moved| <= n then Domain(ApplyAll(b, moved)) else Domain(b)
  {
    hide StockPlan, MovementPlan, JournalPlan, ApplyAll, Written, KnownIds, Filed, Domain, Blocking, Shaped, Open,
      StockJournal, MovementOf, UsePeriod;
    MoveSteps(b, closed, allowNegative, c);
    MovementShape(b, allowNegative, c);
    var plan, moved := StockPlan(b, closed, allowNegative, c), MovementPlan(b, allowNegative, c);
    var journal := StockJournal(c, UsePeriod(c).value, MovementOf(b.movements, c).valueDelta);
    if n < |moved.steps| {
      assert plan.steps[..n] == moved.steps[..n];
      OpenPrefix(moved.steps, b.uuids, n);
      CutShaped(b, CommitMovementOp(c.movementId), moved.steps, None, n);
    } else if n == |moved.steps| {
      assert plan.steps[..n] == moved.steps;
    } else {
      CutBehindMovement(b, closed, allowNegative, c, journal, n);
    }
  }

  lemma CutBehindMovement(b: Books, closed: set<string>, allowNegative: bool, c: StockCommand, journal: PostCommand, n: nat)
    requires KnownIds(b) && Filed(b) && MovementPlan(b, allowNegative, c).Succeeds()
    requires var moved := MovementPlan(b, allowNegative, c);
      var posted := JournalPlan(ApplyAll(b, moved.steps), closed, journal);
      posted.Succeeds() && |moved.steps| < n < |moved.steps + posted.steps|
    ensures var moved := MovementPlan(b, allowNegative, c);
      var posted := JournalPlan(ApplyAll(b, moved.steps), closed, journal);
      var r := ApplyAll(b, (moved.steps + posted.steps)[..n]);
      Blocking(r) || Domain(r) == Domain(ApplyAll(b, moved.steps))
  {
    hide *;
    var moved := MovementPlan(b, allowNegative, c).steps;
    var b1 := ApplyAll(b, moved);
    CutAt(b, moved, JournalPlan(b1, closed, journal).steps, n);
    KnownIdsStay(b, moved);
    MovementStaysFiled(b, allowNegative, c);
    CutJournal(b1, closed, journal, n - |moved|);
  }

  /** Whatever the command and wherever it is cut: recovery is blocked, or what is left is a deed or nothing. */
  lemma CutCommand(b: Books, p: Policy, cmd: Command, appends: nat)
    requires KnownIds(b) && Filed(b)
    ensures var r := ApplyAll(b, Cut(PlanOf(b, p, cmd).steps, appends));
      Blocking(r) || Leaves(b, r, DeedOf(b, p, cmd, appends))
  {
    var plan := PlanOf(b, p, cmd);
    var n := CutIsPrefix(plan.steps, appends);
    hide StockPlan, RegisterPlan, JournalPlan, InvoicePlan, RefundPlan, CloseUsePlan, MovementPlan, ClosedPeriods,
      ApplyAll, KnownIds, Filed, Domain, Written, Blocking;
    if plan.Succeeds() && |plan.steps| <= appends {
      assert plan.steps[..n] == plan.steps;
    } else if n == 0 {
      NothingAppended(b);
      CutNothing(b, p, cmd, appends);
    } else {
      match cmd {
        case Move(c) => CutMove(b, ClosedPeriods(b), p.allowNegativeStock, c, n);
        case Close(periodId) =>
          if plan.error.Some? {
            OthersRefuse(b, p, cmd);
          }
          CutClose(b, periodId, n);
          DomainAfter(b, plan.steps[..n]);
          DomainAfter(b, plan.steps);
          PlusEmpty(Domain(b));
        case _ => CutOther(b, p, cmd, n);
      }
    }
  }

  lemma CutNothing(b: Books, p: Policy, cmd: Command, appends: nat)
    requires var plan := PlanOf(b, p, cmd); (plan.error.Some? || appends < |plan.steps|) && (appends == 0 || plan.steps == [])
    ensures DeedOf(b, p, cmd, appends).None?
  {
    hide StockPlan, RegisterPlan, JournalPlan, InvoicePlan, RefundPlan, CloseUsePlan, ClosedPeriods;
    if cmd.Move? && PlanOf(b, p, cmd).steps != [] {
      MoveSteps(b, ClosedPeriods(b), p.allowNegativeStock, cmd.movement);
      MovementShape(b, p.allowNegativeStock, cmd.movement);
    }
  }

  // ---------------------------------------------------------------- runs

  lemma DeedStaysFiled(b: Books, d: Deed)
    requires Filed(b) && DeedPlan(b, d).Succeeds()
    ensures Filed(ApplyAll(b, DeedPlan(b, d).steps))
  {
    hide Filed, PlanOf, MovementPlan, ApplyAll;
    match d {
      case Whole(p, cmd) => CommandStaysFiled(b, p, cmd); ExecIs(b, p, cmd);
      case Half(p, c) => MovementStaysFiled(b, p.allowNegativeStock, c);
    }
  }

  /** Deeds see only the domain files. */
  lemma DeedSees(a: Books, b: Books, d: Deed)
    requires Domain(a) == Domain(b) && DeedPlan(a, d).Succeeds()
    ensures DeedPlan(b, d).Succeeds()
    ensures Domain(ApplyAll(a, DeedPlan(a, d).steps)) == Domain(ApplyAll(b, DeedPlan(b, d).steps))
  {
    hide Domain, PlanOf, MovementPlan, ApplyAll, Written;
    match d {
      case Whole(p, cmd) => CommandSees(a, b, p, cmd);
      case Half(p, c) => MovementSees(a, b, p.allowNegativeStock, c);
    }
    DomainAfter(a, DeedPlan(a, d).steps);
    DomainAfter(b, DeedPlan(b, d).steps);
  }

  /** The store holds what the deeds leave, all of which complete. */
  ghost predicate Holds(b: Books, ds: seq<Deed>) { Filed(b) && AllComplete(ds) && Domain(b) == Domain(DeedRun(ds)) }

  function Then(ds: seq<Deed>, d: Option<Deed>): seq<Deed> { if d.None? then ds else ds + [d.value] }

  lemma LeavesHolds(b: Books, r: Books, ds: seq<Deed>, d: Option<Deed>)
    requires Holds(b, ds) && Leaves(b, r, d)
    ensures Holds(r, Then(ds, d))
  {
    hide Filed, Domain, DeedPlan, AllComplete, ApplyAll, DeedRun;
    if d.None? {
      FiledByDomain(b, r);
    } else {
      DeedSees(b, DeedRun(ds), d.value);
      OneMoreDeed(ds, d.value);
      DeedStaysFiled(b, d.value);
      FiledByDomain(ApplyAll(b, DeedPlan(b, d.value).steps), r);
    }
  }

  lemma NextDeed(es: seq<RecoveryEvent>)
    requires es != []
    ensures var n, e := |es| - 1, es[|es| - 1];
      DeedsOf(es) == Then(DeedsOf(es[..n]),
                          if e.Working? then DeedOf(RecoveryRun(EMPTY, es[..n]), e.policy, e.command, e.appends) else None)
  {
    hide DeedOf, RecoveryRun;
  }

  lemma RecoveryHolds(b: Books, missing: bool, ds: seq<Deed>)
    requires Holds(b, ds)
    ensures Holds(RecoverOf(b, missing).books, ds)
  {
    hide Filed, AllComplete, DeedRun, RecoverOf;
    RecoveryOnlyDropsPending(b, missing);
    FiledByDomain(b, RecoverOf(b, missing).books);
  }

  lemma EventHolds(b: Books, e: RecoveryEvent, ds: seq<Deed>)
    requires KnownIds(b) && (e.Working? || e.Recovering?) && Holds(b, ds)
    ensures var r := AfterRecovery(b, e);
      Blocking(r) || Holds(r, Then(ds, if e.Working? then DeedOf(b, e.policy, e.command, e.appends) else None))
  {
    hide KnownIds, Holds, RecoverOf, PlanOf, DeedOf, Cut, ApplyAll, Blocking, Leaves;
    if e.Recovering? {
      RecoveryHolds(b, e.missing, ds);
    } else {
      assert Filed(b) by { HoldsIsFiled(b, ds); }
      CutCommand(b, e.policy, e.command, e.appends);
      if !Blocking(AfterRecovery(b, e)) {
        LeavesHolds(b, AfterRecovery(b, e), ds, DeedOf(b, e.policy, e.command, e.appends));
      }
    }
  }

  lemma HoldsIsFiled(b: Books, ds: seq<Deed>)
    requires Holds(b, ds)
    ensures Filed(b)
  {
    hide Filed, Domain, AllComplete, DeedRun;
  }

  lemma {:induction false} RunHolds(es: seq<RecoveryEvent>)
    requires Unattended(es)
    ensures var b := RecoveryRun(EMPTY, es); KnownIds(b) && (Blocking(b) || Holds(b, DeedsOf(es)))
  {
    hide KnownIds, Holds, AfterRecovery, Blocks, DeedOf;
    if es == [] {
      StartHolds();
      StartsInOrder();
    } else {
      var n := |es| - 1;
      RunHolds(es[..n]);
      var b := RecoveryRun(EMPTY, es[..n]);
      NextDeed(es);
      EventKeepsIds(b, es[n]);
      if Blocking(b) {
        var r :| Blocks(b, r);
        EventKeepsBlock(b, es[n], r);
      } else {
        EventHolds(b, es[n], DeedsOf(es[..n]));
      }
    }
  }

  lemma StartHolds()
    ensures Holds(EMPTY, [])
  {
  }

  /** In every run of commands, each cut at any append or stopping by itself, and of automatic recoveries,
      each succeeding or refusing: whenever no pending transaction shows in the files, and so whenever the log
      is clean or the store healthy, the domain files are exactly those of the commands whose records were all
      appended, every one of which completes, and of stock use cases cut or stopped behind their movement. */
  lemma CleanLogIsComplete(es: seq<RecoveryEvent>, missing: bool)
    requires Unattended(es)
    ensures var b := RecoveryRun(EMPTY, es);
      && (!AnyUnsafe(b, PendingOf(b.wal)) ==>
            Domain(b) == Domain(DeedRun(DeedsOf(es))) && AllComplete(DeedsOf(es)) && Filed(b))
      && (PendingOf(b.wal) == [] || HealthOf(b, missing) == Healthy ==> !AnyUnsafe(b, PendingOf(b.wal)))
  {
    hide KnownIds, Blocks, Filed, AllComplete, DeedRun, DeedsOf, RecoveryRun, Domain, PendingOf, TidsOf;
    RunHolds(es);
    var b := RecoveryRun(EMPTY, es);
    if Blocking(b) {
      var r :| Blocks(b, r);
      BlockedIsUnsafe(b, r);
    }
  }

  predicate AllWhole(p: Policy, ds: seq<Deed>) { forall k :: 0 <= k < |ds| ==> ds[k].Whole? && ds[k].policy == p }

  function CommandsOf(ds: seq<Deed>): seq<Command>
    requires forall k :: 0 <= k < |ds| ==> ds[k].Whole?
  {
    if ds == [] then [] else CommandsOf(ds[..|ds| - 1]) + [ds[|ds| - 1].command]
  }

  lemma {:induction false} WholeRun(p: Policy, ds: seq<Deed>)
    requires AllWhole(p, ds)
    ensures DeedRun(ds) == Run(EMPTY, p, CommandsOf(ds))
  {
    hide PlanOf, ApplyAll;
    if ds != [] {
      var n := |ds| - 1;
      WholeRun(p, ds[..n]);
      OneMoreCommand(p, CommandsOf(ds[..n]), ds[n].command);
      ExecIs(DeedRun(ds[..n]), p, ds[n].command);
    }
  }

  /** Without half a stock use case, and under one policy, they are those of a run of the completed commands
      alone: what holds of every such run holds of every store whose log is clean. */
  lemma CleanLogIsRun(p: Policy, es: seq<RecoveryEvent>)
    requires Unattended(es) && AllWhole(p, DeedsOf(es))
    requires PendingOf(RecoveryRun(EMPTY, es).wal) == []
    ensures Domain(RecoveryRun(EMPTY, es)) == Domain(Run(EMPTY, p, CommandsOf(DeedsOf(es))))
  {
    hide *;
    CleanLogIsComplete(es, false);
    WholeRun(p, DeedsOf(es));
  }
}
