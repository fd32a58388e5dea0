/** What the write-ahead log code decides, in terms of the transactions in the log: rollback is the
    exact filter, and every run of appends and rollbacks keeps the log in order. */
module WalMeaning {
  import opened Status
  import opened Record
  import opened JsonlStore
  import opened Wal

  // ---------------------------------------------------------------- logs as entries

  predicate Committed(es: seq<Entry>, tid: string) { Entry(tid, "committed") in es }

  /** The lines rollback keeps. */
  predicate Kept(es: seq<Entry>, e: Entry) { e.state == "pending" ==> Committed(es, e.tid) }

  predicate Unresolved(es: seq<Entry>) { exists e :: e in es && !Kept(es, e) }

  predicate AnyCommit(es: seq<Entry>) { exists e :: e in es && e.state == "committed" }

  function Tids(es: seq<Entry>): set<string> { set e | e in es :: e.tid }

  predicate SlotRepresents(x: Tx, es: seq<Entry>) {
    && (x.pending <==> Entry(x.id, "pending") in es)
    && (x.committed <==> Entry(x.id, "committed") in es)
  }

  function IdSet(t: seq<Tx>): set<string> { set i | 0 <= i < |t| :: t[i].id }

  /** The table of the scan describes exactly the entries read. */
  ghost predicate Represents(t: seq<Tx>, es: seq<Entry>) {
    && (forall i, j :: 0 <= i < j < |t| ==> t[i].id != t[j].id)
    && IdSet(t) == Tids(es)
    && (forall i :: 0 <= i < |t| ==> SlotRepresents(t[i], es))
  }

  predicate Reads(lines: seq<string>, es: seq<Entry>) {
    |lines| == |es| && forall i :: 0 <= i < |lines| ==> ReadEntry(lines[i]) == Success(es[i])
  }

  lemma {:induction false} DistinctIds(t: seq<Tx>)
    requires forall i, j :: 0 <= i < j < |t| ==> t[i].id != t[j].id
    ensures |IdSet(t)| == |t|
  {
    if t != [] {
      var n := |t| - 1;
      DistinctIds(t[..n]);
      assert IdSet(t) == IdSet(t[..n]) + {t[n].id};
      assert t[n].id !in IdSet(t[..n]);
    }
  }

  lemma TableSize(t: seq<Tx>, es: seq<Entry>)
    requires Represents(t, es)
    ensures |t| == |Tids(es)|
  {
    DistinctIds(t);
  }

  lemma TidsGrow(es: seq<Entry>, e: Entry)
    ensures Tids(es + [e]) == Tids(es) + {e.tid}
  {
    assert forall x :: x in es + [e] <==> x in es || x == e;
  }

  lemma MarkSlot(x: Tx, es: seq<Entry>, e: Entry)
    requires SlotRepresents(x, es)
    ensures x.id == e.tid ==> SlotRepresents(Mark(x, e.state), es + [e])
    ensures x.id != e.tid ==> SlotRepresents(x, es + [e])
    ensures Mark(x, e.state).id == x.id
  {
    assert forall y :: y in es + [e] <==> y in es || y == e;
  }

  lemma FreshSlot(es: seq<Entry>, tid: string)
    requires tid !in Tids(es)
    ensures SlotRepresents(Tx(tid, false, false), es)
  {
    assert forall x :: x in es ==> x.tid in Tids(es);
  }

  lemma NoteKnown(t: seq<Tx>, es: seq<Entry>, e: Entry)
    requires Represents(t, es) && FindTx(t, e.tid) >= 0
    ensures Note(t, e).Success? && Represents(Note(t, e).value, es + [e]) && e.tid in Tids(es)
  {
    hide SlotRepresents, Tids, Mark;
    var k, u := FindTx(t, e.tid), Note(t, e).value;
    TidsGrow(es, e);
    assert t[k].id in IdSet(t);
    forall i | 0 <= i < |t|
      ensures u[i].id == t[i].id && SlotRepresents(u[i], es + [e])
    {
      MarkSlot(t[i], es, e);
    }
    assert IdSet(u) == IdSet(t);
  }

  lemma NoteFresh(t: seq<Tx>, es: seq<Entry>, e: Entry)
    requires Represents(t, es) && FindTx(t, e.tid) == -1
    ensures e.tid !in Tids(es)
    ensures Note(t, e).Success? ==> Represents(Note(t, e).value, es + [e])
  {
    hide SlotRepresents, Tids, Mark;
    TidsGrow(es, e);
    if Note(t, e).Success? {
      var u := Note(t, e).value;
      FreshSlot(es, e.tid);
      MarkSlot(Tx(e.tid, false, false), es, e);
      forall i | 0 <= i < |t|
        ensures SlotRepresents(u[i], es + [e])
      {
        MarkSlot(t[i], es, e);
      }
      assert IdSet(u) == IdSet(t) + {e.tid} by {
        assert u[|t|].id == e.tid;
        assert forall i :: 0 <= i < |t| ==> u[i] == t[i];
      }
    }
  }

  lemma NoteRepresents(t: seq<Tx>, es: seq<Entry>, e: Entry)
    requires Represents(t, es)
    ensures Note(t, e).Success? ==> Represents(Note(t, e).value, es + [e])
    ensures |e.tid| < 256 && |t| <= 512 ==>
      (Note(t, e).Success? <==> |Tids(es + [e])| <= 512)
  {
    hide Represents, Tids;
    TableSize(t, es);
    TidsGrow(es, e);
    if FindTx(t, e.tid) >= 0 {
      NoteKnown(t, es, e);
      assert Tids(es + [e]) == Tids(es);
    } else {
      NoteFresh(t, es, e);
    }
  }

  /** The scan succeeds exactly when the table is large enough, and then describes the whole log. */
  lemma {:induction false} ScanMeaning(lines: seq<string>, es: seq<Entry>, t: seq<Tx>, done: seq<Entry>)
    requires Reads(lines, es) && Represents(t, done) && |t| <= 512
    ensures var r := ScanLines(lines, t);
      && (r.Success? <==> |Tids(done + es)| <= 512)
      && (r.Success? ==> Represents(r.value, done + es))
    decreases |es|
  {
    hide Represents, ReadEntry, Note, Tids;
    if lines == [] {
      TableSize(t, done);
      assert done + es == done;
    } else {
      var e := es[0];
      ReadTidSize(lines[0]);
      NoteRepresents(t, done, e);
      assert done + es == (done + [e]) + es[1..];
      var n := Note(t, e);
      if n.Success? {
        TableSize(n.value, done + [e]);
        ScanMeaning(lines[1..], es[1..], n.value, done + [e]);
      } else {
        TidsPrefix(done + [e], es[1..]);
      }
    }
  }

  lemma ReadTidSize(line: string)
    ensures ReadEntry(line).Success? ==> |ReadEntry(line).value.tid| < 256 && |ReadEntry(line).value.state| < 32
  {
  }

  /** A line with a plain id and state is read as long as they are shorter than 256 and 32 characters. */
  lemma ReadsFittingEntry(line: string, e: Entry)
    requires ExtractString(line, "transaction_id", |e.tid| + 1) == Success(e.tid) && ExtractString(line, "state", |e.state| + 1) == Success(e.state)
    ensures ReadEntry(line) == if |e.tid| < 256 && |e.state| < 32 then Success(e) else Failure(BufferTooSmall)
  {
  }

  lemma TidsPrefix(xs: seq<Entry>, ys: seq<Entry>)
    ensures |Tids(xs)| <= |Tids(xs + ys)|
  {
    assert Tids(xs) <= Tids(xs + ys) by {
      assert forall x :: x in xs ==> x in xs + ys;
    }
    Smaller(Tids(xs), Tids(xs + ys));
  }

  lemma Smaller<T>(a: set<T>, b: set<T>)
    requires a <= b
    ensures |a| <= |b|
  {
    assert b == a + (b - a);
  }

  // ---------------------------------------------------------------- rollback is the exact filter

  /** The lines whose entry is kept, in order. */
  function KeptLines(lines: seq<string>, es: seq<Entry>, all: seq<Entry>): seq<string>
    requires |lines| == |es|
  {
    if lines == [] then [] else
    var rest := KeptLines(lines[1..], es[1..], all);
    if Kept(all, es[0]) then [lines[0]] + rest else rest
  }

  function KeptEntries(es: seq<Entry>, all: seq<Entry>): seq<Entry> {
    if es == [] then [] else
    var rest := KeptEntries(es[1..], all);
    if Kept(all, es[0]) then [es[0]] + rest else rest
  }

  lemma TableKeeps(t: seq<Tx>, all: seq<Entry>, e: Entry)
    requires Represents(t, all) && e in all
    ensures FindTx(t, e.tid) >= 0
    ensures Kept(all, e) <==> !(e.state == "pending" && !t[FindTx(t, e.tid)].committed)
  {
    assert e.tid in IdSet(t);
    var i :| 0 <= i < |t| && t[i].id == e.tid;
  }

  lemma {:induction false} CompactIsFilter(lines: seq<string>, es: seq<Entry>, t: seq<Tx>, all: seq<Entry>)
    requires Reads(lines, es) && Represents(t, all) && forall e :: e in es ==> e in all
    ensures CompactLines(lines, t) == Success(KeptLines(lines, es, all))
  {
    hide Represents, ReadEntry, Kept;
    if lines != [] {
      assert es[0] in es;
      TableKeeps(t, all, es[0]);
      assert forall e :: e in es[1..] ==> e in es;
      CompactIsFilter(lines[1..], es[1..], t, all);
    }
  }

  lemma {:induction false} KeptReads(lines: seq<string>, es: seq<Entry>, all: seq<Entry>)
    requires Reads(lines, es)
    ensures Reads(KeptLines(lines, es, all), KeptEntries(es, all))
  {
    hide ReadEntry, Kept;
    if lines != [] {
      KeptReads(lines[1..], es[1..], all);
    }
  }

  lemma TableDecides(t: seq<Tx>, es: seq<Entry>)
    requires Represents(t, es)
    ensures HasUncommittedPending(t) <==> Unresolved(es)
    ensures HasCommitted(t) <==> AnyCommit(es)
  {
    if HasUncommittedPending(t) {
      var i :| 0 <= i < |t| && t[i].pending && !t[i].committed;
      assert !Kept(es, Entry(t[i].id, "pending"));
    }
    if Unresolved(es) {
      var e :| e in es && !Kept(es, e);
      assert e == Entry(e.tid, "pending") && e.tid in IdSet(t);
      var i :| 0 <= i < |t| && t[i].id == e.tid;
    }
    if AnyCommit(es) {
      var e :| e in es && e.state == "committed";
      assert e == Entry(e.tid, "committed") && e.tid in IdSet(t);
      var i :| 0 <= i < |t| && t[i].id == e.tid;
    }
  }

  /** The inspection of a log that verifies and whose lines can be read. */
  lemma InspectDecides(lines: seq<string>, es: seq<Entry>, missing: bool)
    requires VerifyLines(lines) == Ok && Reads(lines, es)
    ensures Inspect(lines, missing) ==
      if |Tids(es)| > 512 then (ProtectedMode, ProtectedReadOnly)
      else if Unresolved(es) then (RecoveryRequired, PendingRollback)
      else if AnyCommit(es) && missing then (RecoveryRequired, CommittedMissingSnapshot)
      else (Ok, Clean)
  {
    hide Represents, ReadEntry, VerifyLines, HasUncommittedPending, HasCommitted, Unresolved, AnyCommit, Tids;
    EmptyTable();
    ScanMeaning(lines, es, [], []);
    assert [] + es == es;
    var r := ScanLines(lines, []);
    if r.Success? {
      TableDecides(r.value, es);
    }
    if lines == [] {
      EmptyLog();
    }
  }

  lemma EmptyTable()
    ensures Represents([], [])
  {
  }

  lemma EmptyLog()
    ensures Tids([]) == {} && !Unresolved([]) && !AnyCommit([])
  {
  }

  /** Rollback of a readable, verified log: exactly the uncommitted pending lines go, in order; a log
      with too many transactions is refused and left as it is. */
  lemma RollbackIsExact(lines: seq<string>, es: seq<Entry>, missing: bool)
    requires VerifyLines(lines) == Ok && Reads(lines, es)
    ensures Recover(lines, missing) ==
      if |Tids(es)| > 512 then (ProtectedMode, ProtectedReadOnly, lines)
      else if Unresolved(es) then (Ok, PendingRollback, KeptLines(lines, es, es))
      else if AnyCommit(es) && missing then (RecoveryRequired, CommittedMissingSnapshot, lines)
      else (Ok, Clean, lines)
  {
    hide Represents, ReadEntry, VerifyLines, Unresolved, AnyCommit, Tids, Inspect;
    InspectDecides(lines, es, missing);
    EmptyTable();
    ScanMeaning(lines, es, [], []);
    assert [] + es == es;
    var r := ScanLines(lines, []);
    if r.Success? {
      CompactIsFilter(lines, es, r.value, es);
    }
  }

  /** The first line that does not verify decides: damage protects the store, a failing call is reported; the log
      stays as it is. */
  lemma BrokenLog(lines: seq<string>, i: nat, missing: bool)
    requires i < |lines| && VerifyLine(lines[i]) != Ok && forall j :: 0 <= j < i ==> VerifyLine(lines[j]) == Ok
    ensures var v := VerifyLine(lines[i]);
      var answer := if v == ChecksumError || v == ParseError then (ProtectedMode, ProtectedReadOnly) else (v, Clean);
      Inspect(lines, missing) == answer && Recover(lines, missing) == (answer.0, answer.1, lines)
  {
    FirstFailureDecides(lines);
    hide VerifyLine, VerifyLines, ScanLines, CompactLines;
    var k :| 0 <= k < |lines| && VerifyLines(lines) == VerifyLine(lines[k]) && forall j :: 0 <= j < k ==> VerifyLine(lines[j]) == Ok;
    assert k == i;
  }

  lemma {:induction false} UnreadableScan(lines: seq<string>, i: nat, t: seq<Tx>)
    requires i < |lines| && ReadEntry(lines[i]).Failure?
    ensures ScanLines(lines, t).Failure?
    decreases i
  {
    hide ReadEntry, Note;
    if i > 0 && ReadEntry(lines[0]).Success? && Note(t, ReadEntry(lines[0]).value).Success? {
      UnreadableScan(lines[1..], i - 1, Note(t, ReadEntry(lines[0]).value).value);
    }
  }

  /** A verified line without a transaction id or a state of its size protects the store as well. */
  lemma UnreadableLog(lines: seq<string>, i: nat, missing: bool)
    requires VerifyLines(lines) == Ok && i < |lines| && ReadEntry(lines[i]).Failure?
    ensures Inspect(lines, missing) == (ProtectedMode, ProtectedReadOnly)
    ensures Recover(lines, missing) == (ProtectedMode, ProtectedReadOnly, lines)
  {
    UnreadableScan(lines, i, []);
    hide ReadEntry, VerifyLines, ScanLines, CompactLines;
  }

  lemma {:induction false} KeptEntryMembers(es: seq<Entry>, all: seq<Entry>, e: Entry)
    ensures e in KeptEntries(es, all) <==> e in es && Kept(all, e)
  {
    hide Kept;
    if es != [] {
      KeptEntryMembers(es[1..], all, e);
    }
  }

  lemma {:induction false} KeptVerify(lines: seq<string>, es: seq<Entry>, all: seq<Entry>)
    requires |lines| == |es| && VerifyLines(lines) == Ok
    ensures VerifyLines(KeptLines(lines, es, all)) == Ok
  {
    hide VerifyLine, Kept;
    if lines != [] {
      KeptVerify(lines[1..], es[1..], all);
    }
  }

  lemma {:induction false} NothingToDrop(lines: seq<string>, es: seq<Entry>, all: seq<Entry>)
    requires |lines| == |es| && forall e :: e in es ==> Kept(all, e)
    ensures KeptLines(lines, es, all) == lines && KeptEntries(es, all) == es
  {
    hide Kept;
    if lines != [] {
      assert forall e :: e in es[1..] ==> e in es;
      NothingToDrop(lines[1..], es[1..], all);
    }
  }

  /** The entries after a rollback: every commit is still there and nothing is unresolved. */
  lemma AfterRollbackEntries(es: seq<Entry>)
    ensures var k := KeptEntries(es, es);
      && !Unresolved(k) && (AnyCommit(k) <==> AnyCommit(es)) && Tids(k) <= Tids(es)
      && forall tid :: Committed(k, tid) <==> Committed(es, tid)
  {
    var k := KeptEntries(es, es);
    forall e
      ensures e in k <==> e in es && Kept(es, e)
    {
      KeptEntryMembers(es, es, e);
    }
  }

  /** After a rollback the log verifies, its inspection is clean unless commits exist and a required
      snapshot is missing, and a second rollback changes nothing. */
  lemma AfterRollback(lines: seq<string>, es: seq<Entry>, missing: bool)
    requires VerifyLines(lines) == Ok && Reads(lines, es)
    requires |Tids(es)| <= 512 && Unresolved(es)
    ensures var kept := Recover(lines, missing).2;
      && kept == KeptLines(lines, es, es)
      && VerifyLines(kept) == Ok
      && Inspect(kept, missing) == (if AnyCommit(es) && missing then (RecoveryRequired, CommittedMissingSnapshot)
                                    else (Ok, Clean))
      && Recover(kept, missing).2 == kept
  {
    hide VerifyLines, Inspect, Recover, ReadEntry, Tids;
    RollbackIsExact(lines, es, missing);
    KeptReads(lines, es, es);
    KeptVerify(lines, es, es);
    AfterRollbackEntries(es);
    var kept, k := KeptLines(lines, es, es), KeptEntries(es, es);
    Smaller(Tids(k), Tids(es));
    InspectDecides(kept, k, missing);
    RollbackIsExact(kept, k, missing);
  }
}
