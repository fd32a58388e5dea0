/** src/bms/app/recovery.py, _pending_transactions: the application's own reading of the log against the
    decisions of the native core. */
module PendingView {
  import opened Status
  import opened JsonPayload
  import opened JsonlStore
  import opened Wal
  import opened WalMeaning
  import opened WalRuns

  /** The payload object of a log line; a field that is missing or of another type is None. */
  datatype Payload = Payload(state: Option<string>, tid: Option<string>, body: Option<Json>)

  /** A parsed line; its payload may be no object. */
  datatype Envelope = Envelope(payload: Option<Payload>, correlationId: Option<string>)

  /** An entry of the list of pending transactions. */
  datatype Listing =
    | Known(tid: string, body: Json, correlationId: string)
    | Malformed(correlationId: string)

  function StringOrUnknown(s: Option<string>): string {
    if s.Some? && s.value != "" then s.value else "unknown"
  }

  predicate IsCommit(e: Envelope) { e.payload.Some? && e.payload.value.state == Some("committed") && e.payload.value.tid.Some? }

  function CommittedTids(es: seq<Envelope>): set<string> { set e | e in es && IsCommit(e) :: e.payload.value.tid.value }

  /** What one line contributes to the list. */
  function Listed(e: Envelope, committed: set<string>): seq<Listing> {
    var correlation := StringOrUnknown(e.correlationId);
    match e.payload
    case None => [Malformed(correlation)]
    case Some(p) =>
      if p.state != Some("pending") then []
      else if p.tid.Some? && p.tid.value in committed then []
      else if p.tid.None? || p.body.None? then [Malformed(correlation)]
      else [Known(p.tid.value, p.body.value, correlation)]
  }

  function Listings(es: seq<Envelope>, committed: set<string>): seq<Listing> {
    if es == [] then [] else Listings(es[..|es| - 1], committed) + Listed(es[|es| - 1], committed)
  }

  method CommittedTransactionIds(es: seq<Envelope>) returns (committed: set<string>)
    ensures committed == CommittedTids(es)
  {
    committed := {};
    for i := 0 to |es|
      invariant committed == CommittedTids(es[..i])
    {
      assert es[..i + 1] == es[..i] + [es[i]];
      if es[i].payload.None? {
        continue;
      }
      var p := es[i].payload.value;
      if p.state != Some("committed") {
        continue;
      }
      if p.tid.Some? {
        committed := committed + {p.tid.value};
      }
    }
    assert es[..|es|] == es;
  }

  method PendingTransactions(es: seq<Envelope>) returns (pending: seq<Listing>)
    ensures pending == Listings(es, CommittedTids(es))
  {
    hide CommittedTids;
    var committed := CommittedTransactionIds(es);
    pending := [];
    for i := 0 to |es|
      invariant pending == Listings(es[..i], committed)
    {
      assert es[..i + 1][..i] == es[..i];
      assert pending + [] == pending;
      var correlation := StringOrUnknown(es[i].correlationId);
      if es[i].payload.None? {
        pending := pending + [Malformed(correlation)];
        continue;
      }
      var p := es[i].payload.value;
      if p.state != Some("pending") {
        continue;
      }
      if p.tid.Some? && p.tid.value in committed {
        continue;
      }
      if p.tid.None? || p.body.None? {
        pending := pending + [Malformed(correlation)];
        continue;
      }
      pending := pending + [Known(p.tid.value, p.body.value, correlation)];
    }
    assert es[..|es|] == es;
  }

  /** An entry names the correlation of a line, or says that the line gives none. */
  predicate Correlates(l: Listing, e: Envelope) {
    l.correlationId == if e.correlationId == None || e.correlationId == Some("") then "unknown" else e.correlationId.value
  }

  lemma {:induction false} CorrelationListed(es: seq<Envelope>, committed: set<string>)
    ensures forall l :: l in Listings(es, committed) ==> l.correlationId != "" && exists e :: e in es && Correlates(l, e)
  {
    if es != [] {
      var front, e := es[..|es| - 1], es[|es| - 1];
      CorrelationListed(front, committed);
      forall l | l in Listed(e, committed)
        ensures l.correlationId != "" && Correlates(l, e)
      {
      }
      hide Listed, Correlates;
      forall l | l in Listings(es, committed)
        ensures l.correlationId != "" && exists e :: e in es && Correlates(l, e)
      {
        if l in Listings(front, committed) {
          var x :| x in front && Correlates(l, x);
          assert x in es;
        }
      }
    }
  }

  /** A line with no payload object, or that announces something without saying what or for which
      transaction. A commit takes it off the list only when the line names the transaction. */
  predicate Unreadable(e: Envelope, committed: set<string>) {
    e.payload.None? ||
    (var p := e.payload.value;
     p.state == Some("pending") && (p.tid.None? || (p.body.None? && p.tid.value !in committed)))
  }

  lemma ListedMalformed(e: Envelope, committed: set<string>)
    ensures Listed(e, committed) == [Malformed(StringOrUnknown(e.correlationId))] <==> Unreadable(e, committed)
    ensures forall l :: l in Listed(e, committed) && l.Malformed? ==> Unreadable(e, committed)
  {
  }

  /** The list has a malformed entry, which blocks automatic recovery, exactly when some line is unreadable. */
  lemma {:induction false} MalformedListed(es: seq<Envelope>, committed: set<string>)
    ensures (exists l :: l in Listings(es, committed) && l.Malformed?) <==> (exists e :: e in es && Unreadable(e, committed))
  {
    hide Listed, Unreadable;
    if es != [] {
      var n := |es| - 1;
      MalformedListed(es[..n], committed);
      ListedMalformed(es[n], committed);
      if e :| e in es && Unreadable(e, committed) {
        assert e in es[..n] || e == es[n];
        if e == es[n] {
          assert Listed(es[n], committed)[0] in Listings(es, committed);
        } else {
          var l :| l in Listings(es[..n], committed) && l.Malformed?;
          assert l in Listings(es, committed);
        }
      }
      if l :| l in Listings(es, committed) && l.Malformed? {
        if l in Listings(es[..n], committed) {
          var e :| e in es[..n] && Unreadable(e, committed);
          assert e in es;
        } else {
          assert l in Listed(es[n], committed) && es[n] in es;
        }
      }
    }
  }

  // ---------------------------------------------------------------- on the log the application writes

  function CommittedEntryIds(es: seq<WalEntry>): set<string> { set e | e in es && e.state == "committed" :: e.tid }

  /** The pending lines without a commit, in file order. */
  function PendingLines(es: seq<WalEntry>, committed: set<string>): seq<WalEntry> {
    if es == [] then [] else
    var before := PendingLines(es[..|es| - 1], committed);
    var e := es[|es| - 1];
    if e.state == "pending" && e.tid !in committed then before + [e] else before
  }

  function EntryEnvelope(e: WalEntry): Envelope {
    Envelope(Some(Payload(Some(e.state), Some(e.tid), Some(e.body))), Some(e.correlationId))
  }

  function Envelopes(es: seq<WalEntry>): (r: seq<Envelope>)
    ensures |r| == |es| && forall i :: 0 <= i < |es| ==> r[i] == EntryEnvelope(es[i])
  {
    seq(|es|, i requires 0 <= i < |es| => EntryEnvelope(es[i]))
  }

  function ListingsOf(es: seq<WalEntry>): (r: seq<Listing>)
    ensures |r| == |es| && forall i :: 0 <= i < |es| ==> r[i] == Known(es[i].tid, es[i].body, StringOrUnknown(Some(es[i].correlationId)))
  {
    seq(|es|, i requires 0 <= i < |es| => Known(es[i].tid, es[i].body, StringOrUnknown(Some(es[i].correlationId))))
  }

  lemma CommittedAgree(es: seq<WalEntry>)
    ensures CommittedTids(Envelopes(es)) == CommittedEntryIds(es)
  {
    var xs := Envelopes(es);
    forall tid
      ensures tid in CommittedTids(xs) <==> tid in CommittedEntryIds(es)
    {
      if tid in CommittedTids(xs) {
        var x :| x in xs && IsCommit(x) && x.payload.value.tid.value == tid;
        var i :| 0 <= i < |xs| && xs[i] == x;
        assert es[i] in es;
      }
      if tid in CommittedEntryIds(es) {
        var e :| e in es && e.state == "committed" && e.tid == tid;
        var i :| 0 <= i < |es| && es[i] == e;
        assert xs[i] in xs;
      }
    }
  }

  /** On written lines the list is exactly the pending lines without a commit, none of them malformed. */
  lemma {:induction false} ListsPendingLines(es: seq<WalEntry>, committed: set<string>)
    ensures Listings(Envelopes(es), committed) == ListingsOf(PendingLines(es, committed))
  {
    if es != [] {
      var n := |es| - 1;
      ListsPendingLines(es[..n], committed);
      assert Envelopes(es)[..n] == Envelopes(es[..n]);
      var before := PendingLines(es[..n], committed);
      assert ListingsOf(before + [es[n]]) == ListingsOf(before) + ListingsOf([es[n]]);
    }
  }

  /** The lines of the log that are not listed. */
  function Without(es: seq<WalEntry>, listed: seq<WalEntry>): seq<WalEntry> {
    if es == [] then [] else
    var rest := Without(es[1..], listed);
    if es[0] in listed then rest else [es[0]] + rest
  }

  lemma {:induction false} PendingLineMembers(es: seq<WalEntry>, committed: set<string>, e: WalEntry)
    ensures e in PendingLines(es, committed) <==> e in es && e.state == "pending" && e.tid !in committed
  {
    if es != [] {
      PendingLineMembers(es[..|es| - 1], committed, e);
      assert es == es[..|es| - 1] + [es[|es| - 1]];
    }
  }

  lemma CommittedMeaning(es: seq<WalEntry>, tid: string)
    ensures Committed(Entries(es), tid) <==> tid in CommittedEntryIds(es)
  {
    if Committed(Entries(es), tid) {
      var i :| 0 <= i < |es| && Entries(es)[i] == Entry(tid, "committed");
      assert es[i] in es;
    }
    if tid in CommittedEntryIds(es) {
      var e :| e in es && e.state == "committed" && e.tid == tid;
      var i :| 0 <= i < |es| && es[i] == e;
      assert Entries(es)[i] == Entry(tid, "committed");
    }
  }

  /** A line is kept by the rollback exactly when the application does not list it. */
  lemma KeptMeaning(es: seq<WalEntry>, e: WalEntry)
    requires e in es
    ensures Kept(Entries(es), Entry(e.tid, e.state)) <==> e !in PendingLines(es, CommittedEntryIds(es))
  {
    hide CommittedEntryIds, Committed;
    CommittedMeaning(es, e.tid);
    PendingLineMembers(es, CommittedEntryIds(es), e);
  }

  lemma {:induction false} KeptIsWithout(part: seq<WalEntry>, es: seq<WalEntry>)
    requires forall e :: e in part ==> e in es
    ensures KeptWal(part, Entries(es)) == Without(part, PendingLines(es, CommittedEntryIds(es)))
  {
    hide Kept, CommittedEntryIds, PendingLines;
    if part != [] {
      assert part[0] in part && forall e :: e in part[1..] ==> e in part;
      KeptIsWithout(part[1..], es);
      KeptMeaning(es, part[0]);
    }
  }

  lemma ListedIsUnresolved(es: seq<WalEntry>)
    ensures Unresolved(Entries(es)) <==> PendingLines(es, CommittedEntryIds(es)) != []
  {
    hide CommittedEntryIds, PendingLines, Kept;
    var listed := PendingLines(es, CommittedEntryIds(es));
    if Unresolved(Entries(es)) {
      var x :| x in Entries(es) && !Kept(Entries(es), x);
      var i :| 0 <= i < |es| && Entries(es)[i] == x;
      KeptMeaning(es, es[i]);
    }
    if listed != [] {
      PendingLineMembers(es, CommittedEntryIds(es), listed[0]);
      KeptMeaning(es, listed[0]);
      var i :| 0 <= i < |es| && es[i] == listed[0];
      assert Entries(es)[i] in Entries(es);
    }
  }

  /** On a clean log within the table the application lists something exactly when the core asks for a
      rollback, and the rollback leaves, in order, exactly the lines the application does not list. */
  lemma ViewsAgree(es: seq<WalEntry>, missing: bool)
    requires CleanWal(es) && |Tids(Entries(es))| <= 512
    ensures var lines := Chunks(FileText(es));
      var listed := Listings(Envelopes(es), CommittedTids(Envelopes(es)));
      var pending := PendingLines(es, CommittedEntryIds(es));
      && listed == ListingsOf(pending)
      && (Inspect(lines, missing) == (RecoveryRequired, PendingRollback) <==> listed != [])
      && Recover(lines, missing).2 == LinesOf(Records(Without(es, pending)))
  {
    hide *;
    CommittedAgree(es);
    ListsPendingLines(es, CommittedEntryIds(es));
    ListsSomething(PendingLines(es, CommittedEntryIds(es)));
    InspectView(es, missing);
    RollbackView(es, missing);
    ListedIsUnresolved(es);
    KeptIsWithout(es, es);
  }

  lemma ListsSomething(es: seq<WalEntry>)
    ensures ListingsOf(es) != [] <==> es != []
  {
  }

  lemma InspectView(es: seq<WalEntry>, missing: bool)
    requires CleanWal(es) && |Tids(Entries(es))| <= 512
    ensures Inspect(Chunks(FileText(es)), missing) == (RecoveryRequired, PendingRollback) <==> Unresolved(Entries(es))
  {
    hide *;
    CleanWalReads(es);
    InspectDecides(LinesOf(Records(es)), Entries(es), missing);
  }

  lemma RollbackView(es: seq<WalEntry>, missing: bool)
    requires CleanWal(es) && |Tids(Entries(es))| <= 512
    ensures Recover(Chunks(FileText(es)), missing).2 == LinesOf(Records(KeptWal(es, Entries(es))))
  {
    hide *;
    CleanWalReads(es);
    KeptWalLines(es, Entries(es));
    RollbackIsExact(LinesOf(Records(es)), Entries(es), missing);
    if !Unresolved(Entries(es)) {
      AllKept(LinesOf(Records(es)), es);
    }
  }

  lemma AllKept(ls: seq<string>, es: seq<WalEntry>)
    requires !Unresolved(Entries(es)) && |ls| == |es|
    ensures KeptLines(ls, Entries(es), Entries(es)) == ls
  {
    hide Kept;
    NothingToDrop(ls, Entries(es), Entries(es));
  }
}
