/** The refund availability report (src/bms/domain/reporting/service.py) and the refund guard of billing:
    two independent folds over the same files that decide the same thing. */
module Availability {
  import opened Status
  import opened Books
  import opened Accounting
  import opened Inventory
  import opened Billing
  import opened Writes
  import opened Reconciliation
  import UseCases
  import opened Runs
  import opened Stops
  import opened ReturnAgreement
  import opened RefundSafety

  datatype RowKey = RowKey(invoiceId: string, line: LineKey)

  datatype Row = Row(
    period: string, description: string, currency: string, original: int, refunded: int, remaining: int,
    originalAmount: int, refundedAmount: int, remainingAmount: int)

  /** What the report collects of the sold lines of a key; the first of them describes it. */
  datatype SoldLine = SoldLine(period: string, description: string, currency: string, quantity: int)

  /** The dictionary from refund id to original invoice: the last record counts. */
  function OriginalOf(xs: seq<Refund>, refundId: string): Option<string> {
    if xs == [] then None
    else if xs[|xs| - 1].refundId == refundId then Some(xs[|xs| - 1].originalInvoiceId)
    else OriginalOf(xs[..|xs| - 1], refundId)
  }

  function RefundedIn(refunds: seq<Refund>, key: RowKey): RefundLine -> int {
    (l: RefundLine) =>
      if OriginalOf(refunds, l.refundId) == Some(key.invoiceId) && LineKey(l.itemId, l.unitPrice) == key.line then l.quantity else 0
  }

  predicate InScope(b: Books, period: Option<string>, invoiceId: string) {
    PeriodOfInvoice(b.invoices, invoiceId).Some? && (period.None? || PeriodOfInvoice(b.invoices, invoiceId) == period)
  }

  /** Every line can be traced to a stored invoice. */
  predicate Traceable(b: Books) {
    && (forall i :: 0 <= i < |b.invoiceLines| ==> KnownInvoice(b, b.invoiceLines[i].invoiceId))
    && (forall i :: 0 <= i < |b.refundLines| ==>
          OriginalOf(b.refunds, b.refundLines[i].refundId).Some?
          && KnownInvoice(b, OriginalOf(b.refunds, b.refundLines[i].refundId).value))
  }

  predicate HasRow(ls: seq<InvoiceLine>, key: RowKey) {
    exists i :: 0 <= i < |ls| && ls[i].invoiceId == key.invoiceId && LineKey(ls[i].itemId, ls[i].unitPrice) == key.line
  }

  /** The first line of the key. */
  function FirstLine(ls: seq<InvoiceLine>, key: RowKey): Option<InvoiceLine> {
    if ls == [] then None else
    var before := FirstLine(ls[..|ls| - 1], key);
    var l := ls[|ls| - 1];
    if before.Some? then before
    else if l.invoiceId == key.invoiceId && LineKey(l.itemId, l.unitPrice) == key.line then Some(l)
    else None
  }

  predicate Describes(line: Option<InvoiceLine>, description: string, currency: string) {
    line.Some? && line.value.description == description && line.value.currency == currency
  }

  function AtLeastZero(x: int): int { if x < 0 then 0 else x }

  predicate IsRow(b: Books, key: RowKey, row: Row) {
    var price := key.line.unitPrice;
    && PeriodOfInvoice(b.invoices, key.invoiceId) == Some(row.period)
    && Describes(FirstLine(b.invoiceLines, key), row.description, row.currency)
    && row.original == Sold(b, key.invoiceId, key.line)
    && row.refunded == Sum(b.refundLines, RefundedIn(b.refunds, key))
    && row.remaining == AtLeastZero(row.original - row.refunded)
    && row.originalAmount == row.original * price && row.refundedAmount == row.refunded * price
    && row.remainingAmount == row.remaining * price
  }

  /** The rows the report promises. */
  ghost predicate AreRows(b: Books, period: Option<string>, rows: map<RowKey, Row>) {
    && (forall key :: key in rows <==> HasRow(b.invoiceLines, key) && InScope(b, period, key.invoiceId))
    && (forall key :: key in rows ==> IsRow(b, key, rows[key]))
  }

  function QuantityAt(m: map<RowKey, int>, key: RowKey): int { if key in m then m[key] else 0 }

  function SoldAt(m: map<RowKey, SoldLine>, key: RowKey): int { if key in m then m[key].quantity else 0 }

  function RowFor(key: RowKey, line: SoldLine, refunded: int): Row {
    var price, remaining := key.line.unitPrice, AtLeastZero(line.quantity - refunded);
    Row(line.period, line.description, line.currency, line.quantity, refunded, remaining,
        line.quantity * price, refunded * price, remaining * price)
  }

  class ReportingService {
    const store: Store

    constructor (store: Store)
      ensures this.store == store
    {
      this.store := store;
    }

    method InvoicePeriods() returns (periods: map<string, string>)
      ensures forall id :: PeriodOfInvoice(store.invoices, id) == if id in periods then Some(periods[id]) else None
    {
      periods := map[];
      var xs := store.invoices;
      for i := 0 to |xs|
        invariant forall id :: PeriodOfInvoice(xs[..i], id) == if id in periods then Some(periods[id]) else None
      {
        assert xs[..i + 1][..i] == xs[..i];
        periods := periods[xs[i].invoiceId := xs[i].periodId];
      }
      assert xs[..|xs|] == xs;
    }

    method RefundInvoices() returns (originals: map<string, string>)
      ensures forall id :: OriginalOf(store.refunds, id) == if id in originals then Some(originals[id]) else None
    {
      originals := map[];
      var xs := store.refunds;
      for i := 0 to |xs|
        invariant forall id :: OriginalOf(xs[..i], id) == if id in originals then Some(originals[id]) else None
      {
        assert xs[..i + 1][..i] == xs[..i];
        originals := originals[xs[i].refundId := xs[i].originalInvoiceId];
      }
      assert xs[..|xs|] == xs;
    }

    method OriginalLines(period: Option<string>, periods: map<string, string>) returns (r: Option<map<RowKey, SoldLine>>)
      requires forall id :: PeriodOfInvoice(store.invoices, id) == if id in periods then Some(periods[id]) else None
      ensures r.Some? <==> forall i :: 0 <= i < |store.invoiceLines| ==> KnownInvoice(store.View(), store.invoiceLines[i].invoiceId)
      ensures r.Some? ==>
        forall key :: key in r.value <==> HasRow(store.invoiceLines, key) && InScope(store.View(), period, key.invoiceId)
      ensures r.Some? ==> forall key :: key in r.value ==>
        && PeriodOfInvoice(store.invoices, key.invoiceId) == Some(r.value[key].period)
        && Describes(FirstLine(store.invoiceLines, key), r.value[key].description, r.value[key].currency)
        && r.value[key].quantity == Sold(store.View(), key.invoiceId, key.line)
    {
      hide PeriodOfInvoice, Sum, HasRow, SoldOf, FirstLine;
      var m: map<RowKey, SoldLine> := map[];
      var ls := store.invoiceLines;
      NoRows();
      ghost var b := store.View();
      for i := 0 to |ls|
        invariant forall k :: 0 <= k < i ==> KnownInvoice(b, ls[k].invoiceId)
        invariant forall key :: key in m <==> HasRow(ls[..i], key) && InScope(b, period, key.invoiceId)
        invariant forall key :: key in m ==>
          && PeriodOfInvoice(b.invoices, key.invoiceId) == Some(m[key].period)
          && Describes(FirstLine(ls[..i], key), m[key].description, m[key].currency)
        invariant forall key: RowKey :: InScope(b, period, key.invoiceId) ==>
          SoldAt(m, key) == Sum(ls[..i], SoldOf(key.invoiceId, key.line))
      {
        var l := ls[i];
        assert ls[..i + 1] == ls[..i] + [l];
        RowsGrow(ls[..i], l);
        FirstLineGrows(ls[..i], l);
        if l.invoiceId !in periods {
          assert !KnownInvoice(b, ls[i].invoiceId);
          return None;
        }
        if period.None? || periods[l.invoiceId] == period.value {
          var key := RowKey(l.invoiceId, LineKey(l.itemId, l.unitPrice));
          var line := if key in m then m[key] else SoldLine(periods[l.invoiceId], l.description, l.currency, 0);
          m := m[key := line.(quantity := line.quantity + l.quantity)];
        }
      }
      assert ls[..|ls|] == ls;
      return Some(m);
    }

    method RefundedQuantities(period: Option<string>, periods: map<string, string>) returns (r: Option<map<RowKey, int>>)
      requires forall id :: PeriodOfInvoice(store.invoices, id) == if id in periods then Some(periods[id]) else None
      ensures r.Some? <==> forall i :: 0 <= i < |store.refundLines| ==>
        OriginalOf(store.refunds, store.refundLines[i].refundId).Some?
        && KnownInvoice(store.View(), OriginalOf(store.refunds, store.refundLines[i].refundId).value)
      ensures r.Some? ==> forall key: RowKey :: InScope(store.View(), period, key.invoiceId) ==>
        QuantityAt(r.value, key) == Sum(store.refundLines, RefundedIn(store.refunds, key))
    {
      hide PeriodOfInvoice, OriginalOf, Sum, RefundedIn;
      NoRows();
      var originals := RefundInvoices();
      var m: map<RowKey, int> := map[];
      var ls, xs := store.refundLines, store.refunds;
      ghost var b := store.View();
      for i := 0 to |ls|
        invariant forall k :: 0 <= k < i ==>
          OriginalOf(xs, ls[k].refundId).Some? && KnownInvoice(b, OriginalOf(xs, ls[k].refundId).value)
        invariant forall key: RowKey :: InScope(b, period, key.invoiceId) ==>
          QuantityAt(m, key) == Sum(ls[..i], RefundedIn(xs, key))
      {
        var l := ls[i];
        assert ls[..i + 1] == ls[..i] + [l];
        RefundedGrows(xs, ls[..i], l);
        if l.refundId !in originals {
          assert OriginalOf(xs, ls[i].refundId).None?;
          return None;
        }
        var invoiceId := originals[l.refundId];
        if invoiceId !in periods {
          assert !KnownInvoice(b, OriginalOf(xs, ls[i].refundId).value);
          return None;
        }
        if period.None? || periods[invoiceId] == period.value {
          var key := RowKey(invoiceId, LineKey(l.itemId, l.unitPrice));
          m := m[key := QuantityAt(m, key) + l.quantity];
        }
      }
      assert ls[..|ls|] == ls;
      return Some(m);
    }

    /** get_refund_availability_report, without the order of its rows. */
    method GetRefundAvailability(period: Option<string>) returns (report: Option<map<RowKey, Row>>)
      ensures report.Some? <==> Traceable(store.View())
      ensures report.Some? ==> AreRows(store.View(), period, report.value)
    {
      hide PeriodOfInvoice, OriginalOf, Sum, HasRow;
      var periods := InvoicePeriods();
      var originals := OriginalLines(period, periods);
      if originals.None? {
        return None;
      }
      var refunded := RefundedQuantities(period, periods);
      if refunded.None? {
        return None;
      }
      var m := refunded.value;
      var rows := map key | key in originals.value :: RowFor(key, originals.value[key], QuantityAt(m, key));
      return Some(rows);
    }
  }

  lemma NoRows()
    ensures forall key: RowKey :: Sum([], SoldOf(key.invoiceId, key.line)) == 0 && !HasRow([], key)
    ensures forall xs, key: RowKey :: Sum([], RefundedIn(xs, key)) == 0
  {
  }

  lemma RefundedGrows(xs: seq<Refund>, ls: seq<RefundLine>, l: RefundLine)
    ensures forall key: RowKey :: (
      Sum(ls + [l], RefundedIn(xs, key)) == Sum(ls, RefundedIn(xs, key)) +
        (if OriginalOf(xs, l.refundId) == Some(key.invoiceId) && LineKey(l.itemId, l.unitPrice) == key.line then l.quantity else 0))
  {
    hide Sum;
    forall key: RowKey
      ensures Sum(ls + [l], RefundedIn(xs, key)) == Sum(ls, RefundedIn(xs, key)) + RefundedIn(xs, key)(l)
    {
      SumConcat(ls, [l], RefundedIn(xs, key));
      SumOne(l, RefundedIn(xs, key));
    }
  }

  lemma RowsGrow(ls: seq<InvoiceLine>, l: InvoiceLine)
    ensures forall key :: HasRow(ls + [l], key) <==>
      HasRow(ls, key) || (l.invoiceId == key.invoiceId && LineKey(l.itemId, l.unitPrice) == key.line)
    ensures forall key: RowKey :: (
      Sum(ls + [l], SoldOf(key.invoiceId, key.line)) == Sum(ls, SoldOf(key.invoiceId, key.line)) +
        (if l.invoiceId == key.invoiceId && LineKey(l.itemId, l.unitPrice) == key.line then l.quantity else 0))
  {
    hide Sum;
    var all := ls + [l];
    assert all[|ls|] == l;
    forall key
      ensures HasRow(all, key) <==> HasRow(ls, key) || (l.invoiceId == key.invoiceId && LineKey(l.itemId, l.unitPrice) == key.line)
    {
      if HasRow(ls, key) {
        var i :| 0 <= i < |ls| && ls[i].invoiceId == key.invoiceId && LineKey(ls[i].itemId, ls[i].unitPrice) == key.line;
        assert all[i] == ls[i];
      }
    }
    forall key: RowKey
      ensures Sum(all, SoldOf(key.invoiceId, key.line)) == Sum(ls, SoldOf(key.invoiceId, key.line)) + SoldOf(key.invoiceId, key.line)(l)
    {
      SumConcat(ls, [l], SoldOf(key.invoiceId, key.line));
      SumOne(l, SoldOf(key.invoiceId, key.line));
    }
  }

  lemma FirstLineGrows(ls: seq<InvoiceLine>, l: InvoiceLine)
    ensures forall key :: (
      FirstLine(ls + [l], key) ==
        if FirstLine(ls, key).Some? then FirstLine(ls, key)
        else if l.invoiceId == key.invoiceId && LineKey(l.itemId, l.unitPrice) == key.line then Some(l)
        else None)
    ensures forall key :: FirstLine(ls, key).Some? <==> HasRow(ls, key)
  {
    assert (ls + [l])[..|ls|] == ls;
    forall key
      ensures FirstLine(ls, key).Some? <==> HasRow(ls, key)
    {
      FirstLineFound(ls, key);
    }
  }

  lemma {:induction false} FirstLineFound(ls: seq<InvoiceLine>, key: RowKey)
    ensures FirstLine(ls, key).Some? <==> HasRow(ls, key)
  {
    if ls != [] {
      var n := |ls| - 1;
      FirstLineFound(ls[..n], key);
      if HasRow(ls[..n], key) {
        var i :| 0 <= i < n && ls[..n][i].invoiceId == key.invoiceId && LineKey(ls[..n][i].itemId, ls[..n][i].unitPrice) == key.line;
        assert ls[i] == ls[..n][i];
      }
      if HasRow(ls, key) {
        var i :| 0 <= i < |ls| && ls[i].invoiceId == key.invoiceId && LineKey(ls[i].itemId, ls[i].unitPrice) == key.line;
        assert i < n ==> ls[..n][i] == ls[i];
      }
    }
  }

  // ---------------------------------------------------------------- the report and the guard

  ghost predicate UniqueRefunds(xs: seq<Refund>) { forall i, j :: 0 <= i < j < |xs| ==> xs[i].refundId != xs[j].refundId }

  lemma {:induction false} OriginalMeaning(xs: seq<Refund>, refundId: string, id: string)
    requires UniqueRefunds(xs)
    ensures OriginalOf(xs, refundId) == Some(id) <==> refundId in RefundsOf(xs, id)
    ensures OriginalOf(xs, refundId).Some? <==> PeriodOfRefund(xs, refundId).Some?
  {
    if xs != [] {
      var n := |xs| - 1;
      OriginalMeaning(xs[..n], refundId, id);
      assert forall x :: x in xs <==> x in xs[..n] || x == xs[n];
      assert forall x :: x in xs[..n] ==> x.refundId != xs[n].refundId;
      assert RefundsOf(xs, id) ==
        RefundsOf(xs[..n], id) + (if xs[n].originalInvoiceId == id then {xs[n].refundId} else {});
    }
  }

  /** With unique refund ids the report subtracts exactly what the guard subtracts. */
  lemma SameRefunded(b: Books, key: RowKey)
    requires UniqueRefunds(b.refunds)
    ensures Sum(b.refundLines, RefundedIn(b.refunds, key)) == Refunded(b, key.invoiceId, key.line)
  {
    hide Sum, OriginalOf, RefundsOf, UniqueRefunds;
    var ids := RefundsOf(b.refunds, key.invoiceId);
    forall l | l in b.refundLines
      ensures RefundedIn(b.refunds, key)(l) == RefundedOf(ids, key.line)(l)
    {
      OriginalMeaning(b.refunds, l.refundId, key.invoiceId);
    }
    SumSame(b.refundLines, RefundedIn(b.refunds, key), RefundedOf(ids, key.line));
  }

  lemma {:induction false} RunUnique(p: Policy, cmds: seq<Command>)
    ensures UniqueRefunds(Run(EMPTY, p, cmds).refunds)
  {
    hide *;
    if cmds == [] {
      NoneUnique(p, cmds);
    } else {
      var n := |cmds| - 1;
      RunUnique(p, cmds[..n]);
      RunUnfolds(p, cmds);
      CommandKeepsUnique(Run(EMPTY, p, cmds[..n]), p, cmds[n]);
    }
  }

  lemma NoneUnique(p: Policy, cmds: seq<Command>)
    ensures cmds == [] ==> UniqueRefunds(Run(EMPTY, p, cmds).refunds)
  {
  }

  lemma CommandKeepsUnique(b: Books, p: Policy, cmd: Command)
    requires UniqueRefunds(b.refunds)
    ensures UniqueRefunds(Exec(b, p, cmd).refunds)
  {
    hide InvoicePlan, RefundPlan, RegisterPlan, JournalPlan, UseCases.StockPlan, UseCases.CloseUsePlan, ClosedPeriods,
      Written, HasRefund, UniqueRefunds;
    var steps := PlanOf(b, p, cmd).steps;
    WritesAdd(b, steps);
    SameFiles(Written(steps));
    if PlanOf(b, p, cmd).error.Some? {
      StoppedQuiet(b, p, cmd);
      assert Exec(b, p, cmd).refunds == b.refunds;
    } else if cmd.Return? {
      RefundAccepted(b, ClosedPeriods(b), p, cmd.refund);
      RefundWrites(b, ClosedPeriods(b), p, cmd.refund);
      OneMoreUnique(b.refunds, RefundOf(p.taxRate, b, cmd.refund));
    } else {
      if cmd.Sell? {
        InvoiceWrites(b, ClosedPeriods(b), p, cmd.invoice);
      } else {
        QuietFiles(b, p, cmd);
      }
      assert Exec(b, p, cmd).refunds == b.refunds;
    }
  }

  lemma OneMoreUnique(xs: seq<Refund>, x: Refund)
    requires UniqueRefunds(xs) && !HasRefund(xs, x.refundId)
    ensures UniqueRefunds(xs + [x])
  {
  }

  lemma RefundsTraceable(b: Books, rate: int)
    requires Safe(b, rate) && UniqueRefunds(b.refunds)
    ensures Traceable(b)
  {
    hide PeriodOfInvoice, PeriodOfRefund, OriginalOf, Sum, SafeKey, UniqueRefunds, RefundsOf;
    forall i | 0 <= i < |b.refundLines|
      ensures OriginalOf(b.refunds, b.refundLines[i].refundId).Some?
        && KnownInvoice(b, OriginalOf(b.refunds, b.refundLines[i].refundId).value)
    {
      assert KnownRefund(b, b.refundLines[i].refundId);
      OriginalMeaning(b.refunds, b.refundLines[i].refundId, "");
      OriginalIsStored(b.refunds, b.refundLines[i].refundId);
    }
  }

  lemma {:induction false} OriginalIsStored(xs: seq<Refund>, refundId: string)
    requires OriginalOf(xs, refundId).Some?
    ensures exists x :: x in xs && x.originalInvoiceId == OriginalOf(xs, refundId).value
  {
    var n := |xs| - 1;
    assert xs[n] in xs;
    if xs[n].refundId != refundId {
      OriginalIsStored(xs[..n], refundId);
    }
  }

  /** What the report says is left; nothing for an absent row. */
  function Available(rows: map<RowKey, Row>, invoiceId: string, k: LineKey): int {
    if RowKey(invoiceId, k) in rows then rows[RowKey(invoiceId, k)].remaining else 0
  }

  lemma NoRowNoSale(b: Books, key: RowKey)
    requires !HasRow(b.invoiceLines, key)
    ensures Sold(b, key.invoiceId, key.line) == 0
  {
    forall l | l in b.invoiceLines
      ensures SoldOf(key.invoiceId, key.line)(l) == 0
    {
      var i :| 0 <= i < |b.invoiceLines| && b.invoiceLines[i] == l;
    }
    SumZero(b.invoiceLines, SoldOf(key.invoiceId, key.line));
  }

  /** In every reachable store the report never clamps, and its remaining quantity is the guard's. */
  lemma ReportIsRemaining(b: Books, rate: int, period: Option<string>, rows: map<RowKey, Row>, id: string, k: LineKey)
    requires Safe(b, rate) && UniqueRefunds(b.refunds) && AreRows(b, period, rows) && InScope(b, period, id)
    ensures Available(rows, id, k) == (if Sold(b, id, k) == 0 then 0 else Remaining(b, id, k))
    ensures RowKey(id, k) in rows ==> rows[RowKey(id, k)].original - rows[RowKey(id, k)].refunded >= 0
  {
    hide Sum, UniqueRefunds, HasRow, Linked, SafeLines, SafeAmounts, RefundsOf, InScope;
    var key := RowKey(id, k);
    assert SafeKey(b, id, k);
    SameRefunded(b, key);
    if key !in rows {
      NoRowNoSale(b, key);
    } else if Sold(b, id, k) == 0 {
      RefundedNonNegative(b, id, k);
    }
  }

  lemma RefundedNonNegative(b: Books, id: string, k: LineKey)
    requires SafeLines(b)
    ensures Refunded(b, id, k) >= 0
  {
    hide Sum, KnownInvoice, RefundsOf;
    SumNonNegative(b.refundLines, RefundedOf(RefundsOf(b.refunds, id), k));
  }

  /** In every reachable store, for a well-formed request on an invoice in the report's scope, the guard
      accepts exactly when every item and price asks for no more than the report says remains. */
  lemma ReportEqualsGuard(p: Policy, cmds: seq<Command>, period: Option<string>, rows: map<RowKey, Row>, c: RefundCommand)
    requires var b := Run(EMPTY, p, cmds);
      AreRows(b, period, rows) && InScope(b, period, c.originalInvoiceId)
    requires PositiveRequests(c) && c.lines != []
    ensures Traceable(Run(EMPTY, p, cmds))
    ensures GuardError(Run(EMPTY, p, cmds), c).None? <==>
      forall k :: Requested(c, k) <= Available(rows, c.originalInvoiceId, k) || Requested(c, k) == 0
  {
    RunSafe(p, cmds);
    RunUnique(p, cmds);
    hide *;
    var b, id := Run(EMPTY, p, cmds), c.originalInvoiceId;
    RefundsTraceable(b, p.taxRate);
    GuardMeaning(b, c);
    SomethingRequested(c);
    forall k
      ensures (Requested(c, k) > 0 ==> Requested(c, k) <= Remaining(b, id, k)) <==>
        (Requested(c, k) <= Available(rows, id, k) || Requested(c, k) == 0)
      ensures 0 < Requested(c, k) <= Remaining(b, id, k) ==> HasInvoiceLines(b.invoiceLines, id)
    {
      KeyAgrees(b, p.taxRate, period, rows, c, k);
    }
  }

  lemma KeyAgrees(b: Books, rate: int, period: Option<string>, rows: map<RowKey, Row>, c: RefundCommand, k: LineKey)
    requires Safe(b, rate) && UniqueRefunds(b.refunds) && AreRows(b, period, rows)
      && InScope(b, period, c.originalInvoiceId)
    requires PositiveRequests(c)
    ensures var id := c.originalInvoiceId;
      && ((Requested(c, k) > 0 ==> Requested(c, k) <= Remaining(b, id, k)) <==>
          (Requested(c, k) <= Available(rows, id, k) || Requested(c, k) == 0))
      && (0 < Requested(c, k) <= Remaining(b, id, k) ==> HasInvoiceLines(b.invoiceLines, id))
  {
    hide *;
    ReportIsRemaining(b, rate, period, rows, c.originalInvoiceId, k);
    RequestedPositive(c, k);
    NothingLeft(b, rate, c.originalInvoiceId, k);
  }

  lemma NothingLeft(b: Books, rate: int, id: string, k: LineKey)
    requires Safe(b, rate)
    ensures Sold(b, id, k) == 0 ==> Remaining(b, id, k) <= 0
    ensures Sold(b, id, k) != 0 ==> HasInvoiceLines(b.invoiceLines, id)
  {
    hide Sum, RefundsOf, SafeKey, Linked, SafeAmounts;
    RefundedNonNegative(b, id, k);
    if !HasInvoiceLines(b.invoiceLines, id) {
      SumZero(b.invoiceLines, SoldOf(id, k));
    }
  }

  lemma SomethingRequested(c: RefundCommand)
    requires PositiveRequests(c) && c.lines != []
    ensures exists k :: Requested(c, k) > 0
  {
    hide Requested;
    RequestedPositive(c, KeyOfRequest()(c.lines[0]));
  }
}
