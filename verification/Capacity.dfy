/** The native core scans at most 512 transactions, and the log keeps every committed one: a store that is
    used long enough can only be read. */
module Capacity {
  import opened Status
  import opened Books
  import opened Accounting
  import opened Inventory
  import opened Billing
  import opened Reconciliation
  import opened UseCases
  import opened Runs
  import opened Stops
  import opened Recovery
  import opened Crash
  import opened CrashRuns
  import opened ManualRecovery
  import opened RecoveryRuns
  import Log = WalMeaning
  import Wal

  /** A command that appends anything first announces a transaction with a new id. */
  lemma CommandAnnounces(b: Books, p: Policy, cmd: Command)
    requires PlanOf(b, p, cmd).steps != []
    ensures var first := PlanOf(b, p, cmd).steps[0]; first.WalStep? && first.wal.Pending? && first.wal.tid == b.uuids
  {
    hide RegisterPlan, StockPlan, JournalPlan, InvoicePlan, RefundPlan, CloseUsePlan, ClosedPeriods;
    var closed := ClosedPeriods(b);
    match cmd {
      case Register(item) => RegisterAnnounces(b, item);
      case Move(c) => MoveAnnounces(b, closed, p.allowNegativeStock, c);
      case Post(c) => PostAnnounces(b, closed, c);
      case Sell(c) =>
        if InvoicePlan(b, closed, p, c).Succeeds() {
          var rest := InvoiceNests(b, closed, p, c);
        } else {
          InvoiceStops(b, closed, p, c);
        }
      case Return(c) =>
        if RefundPlan(b, closed, p, c).Succeeds() {
          var rest := RefundNests(b, closed, p, c);
        } else {
          RefundStops(b, closed, p, c);
        }
      case Close(periodId) => CloseAnnounces(b, closed, periodId);
    }
  }

  predicate Announces(steps: seq<Step>, tid: Tid) {
    steps != [] ==> steps[0].WalStep? && steps[0].wal.Pending? && steps[0].wal.tid == tid
  }

  lemma RegisterAnnounces(b: Books, item: Item)
    ensures Announces(RegisterPlan(b, item).steps, b.uuids)
  {
    hide RefuseItem;
  }

  lemma PostAnnounces(b: Books, closed: set<string>, c: PostCommand)
    ensures Announces(JournalPlan(b, closed, c).steps, b.uuids)
  {
    if JournalPlan(b, closed, c).Succeeds() {
      PostSteps(b, closed, c);
      hide RefuseJournal, JournalPlan, JournalBody;
    } else {
      RefusedPosting(b, closed, c);
    }
  }

  lemma MoveAnnounces(b: Books, closed: set<string>, allowNegative: bool, c: StockCommand)
    ensures Announces(StockPlan(b, closed, allowNegative, c).steps, b.uuids)
  {
    hide RefuseMovement, MovementOf, JournalPlan, StockJournal, ApplyAll;
  }

  lemma CloseAnnounces(b: Books, closed: set<string>, periodId: string)
    ensures Announces(CloseUsePlan(b, closed, periodId).steps, b.uuids)
  {
    hide ReportOf, LedgerReadable, Sum;
  }

  lemma CommandCommits(b: Books, p: Policy, cmd: Command)
    requires PlanOf(b, p, cmd).Succeeds() && PlanOf(b, p, cmd).steps != []
    ensures Committed(b.uuids) in Written(PlanOf(b, p, cmd).steps).wal
  {
    CommandAnnounces(b, p, cmd);
    CommandLogged(b, p, cmd);
    hide PlanOf, Written;
    var steps := PlanOf(b, p, cmd).steps;
    AnnouncedFirst(steps, b.uuids, steps[0].wal.op, |steps|);
    assert steps[..|steps|] == steps;
  }

  // ---------------------------------------------------------------- the log fills up

  /** The commands of a run that completed and wrote something. */
  function Completions(p: Policy, cmds: seq<Command>): nat {
    if cmds == [] then 0 else
    var n := |cmds| - 1;
    var plan := PlanOf(Run(EMPTY, p, cmds[..n]), p, cmds[n]);
    Completions(p, cmds[..n]) + (if plan.Succeeds() && plan.steps != [] then 1 else 0)
  }

  lemma AppendsKeepCommits(b: Books, steps: seq<Step>)
    ensures CommittedIds(b.wal) <= CommittedIds(ApplyAll(b, steps).wal)
  {
    hide Written;
    WritesAdd(b, steps);
  }

  lemma OneMoreCommit(b: Books, steps: seq<Step>, tid: Tid)
    requires Committed(tid) in Written(steps).wal && tid !in CommittedIds(b.wal)
    ensures |CommittedIds(ApplyAll(b, steps).wal)| > |CommittedIds(b.wal)|
  {
    AppendsKeepCommits(b, steps);
    hide Written;
    WritesAdd(b, steps);
    var r := ApplyAll(b, steps);
    assert Committed(tid) in r.wal;
    assert CommittedIds(b.wal) + {tid} <= CommittedIds(r.wal);
    Log.Smaller(CommittedIds(b.wal) + {tid}, CommittedIds(r.wal));
  }

  lemma NewIdNotCommitted(b: Books)
    requires KnownIds(b)
    ensures b.uuids !in CommittedIds(b.wal)
  {
  }

  lemma {:induction false} LogFillsUp(p: Policy, cmds: seq<Command>)
    ensures KnownIds(Run(EMPTY, p, cmds)) && |CommittedIds(Run(EMPTY, p, cmds).wal)| >= Completions(p, cmds)
  {
    hide PlanOf, Exec, KnownIds, CommittedIds;
    if cmds == [] {
      NothingCommitted();
    } else {
      var n := |cmds| - 1;
      LogFillsUp(p, cmds[..n]);
      var b := Run(EMPTY, p, cmds[..n]);
      var plan := PlanOf(b, p, cmds[n]);
      ExecIs(b, p, cmds[n]);
      KnownIdsStay(b, plan.steps);
      AppendsKeepCommits(b, plan.steps);
      Log.Smaller(CommittedIds(b.wal), CommittedIds(ApplyAll(b, plan.steps).wal));
      if plan.Succeeds() && plan.steps != [] {
        CommandCommits(b, p, cmds[n]);
        NewIdNotCommitted(b);
        OneMoreCommit(b, plan.steps, b.uuids);
      }
    }
  }

  lemma NothingCommitted()
    ensures KnownIds(EMPTY) && |CommittedIds(EMPTY.wal)| == 0
  {
  }

  lemma CommittedIsProtected(b: Books, missing: bool)
    requires |CommittedIds(b.wal)| > 512
    ensures HealthOf(b, missing) == Protected && RecoverOf(b, missing) == RecoveryResult(b, Some(CannotRecoverProtected))
  {
    Log.Smaller(CommittedIds(b.wal), TidsOf(b.wal));
  }

  /** Once more than 512 commands have completed the store starts in protected mode, and no recovery helps. */
  lemma UsedUp(p: Policy, cmds: seq<Command>, missing: bool)
    requires Completions(p, cmds) > 512
    ensures var b := Run(EMPTY, p, cmds);
      HealthOf(b, missing) == Protected && RecoverOf(b, missing) == RecoveryResult(b, Some(CannotRecoverProtected))
  {
    hide *;
    LogFillsUp(p, cmds);
    CommittedIsProtected(Run(EMPTY, p, cmds), missing);
  }

  lemma {:induction false} KeptCommits(wal: seq<WalRecord>, committed: set<Tid>)
    ensures CommittedIds(KeptAmong(wal, committed)) == CommittedIds(wal)
  {
    if wal != [] {
      KeptCommits(wal[1..], committed);
      var rest := KeptAmong(wal[1..], committed);
      assert wal == [wal[0]] + wal[1..];
      assert forall r :: r in wal <==> r == wal[0] || r in wal[1..];
      assert forall r :: r in [wal[0]] + rest <==> r == wal[0] || r in rest;
      if wal[0].Pending? {
        assert CommittedIds(wal) == CommittedIds(wal[1..]);
        assert CommittedIds([wal[0]] + rest) == CommittedIds(rest);
      } else {
        assert CommittedIds(wal) == CommittedIds(wal[1..]) + {wal[0].tid};
        assert CommittedIds([wal[0]] + rest) == CommittedIds(rest) + {wal[0].tid};
      }
    }
  }

  lemma EventKeepsCommits(b: Books, e: RecoveryEvent)
    ensures CommittedIds(b.wal) <= CommittedIds(AfterRecovery(b, e).wal)
  {
    hide RecoverOf, StepsOf, CommittedIds, KeptOf, ApplyAll;
    match e {
      case Recovering(missing) =>
        RecoveryDrops(b, missing);
        KeptOfKeepsCommits(b.wal);
      case _ => AppendsKeepCommits(b, StepsOf(b, e));
    }
  }

  lemma KeptOfKeepsCommits(wal: seq<WalRecord>)
    ensures CommittedIds(KeptOf(wal)) == CommittedIds(wal)
  {
    KeptCommits(wal, CommittedIds(wal));
  }

  lemma {:induction false} RunKeepsCommits(b: Books, es: seq<RecoveryEvent>)
    ensures CommittedIds(b.wal) <= CommittedIds(RecoveryRun(b, es).wal)
  {
    hide AfterRecovery, CommittedIds;
    if es != [] {
      RunKeepsCommits(b, es[..|es| - 1]);
      EventKeepsCommits(RecoveryRun(b, es[..|es| - 1]), es[|es| - 1]);
    }
  }

  /** And it stays protected through every later run of commands, decisions, adjustments and recoveries. */
  lemma ProtectedForever(b: Books, es: seq<RecoveryEvent>, missing: bool)
    requires |CommittedIds(b.wal)| > 512
    ensures HealthOf(RecoveryRun(b, es), missing) == Protected
  {
    RunKeepsCommits(b, es);
    var r := RecoveryRun(b, es);
    hide *;
    Log.Smaller(CommittedIds(b.wal), CommittedIds(r.wal));
    CommittedIsProtected(r, missing);
  }
}
