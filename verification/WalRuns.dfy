/** Runs of the write-ahead log: structured entries, their lines, and what every run of appends and
    rollbacks keeps. */
module WalRuns {
  import opened Status
  import opened Text
  import opened Record
  import opened JsonPayload
  import opened JsonlStore
  import opened Wal
  import opened WalMeaning

  datatype WalEntry = WalEntry(
    tid: string, state: string, createdAt: string, actorId: string, correlationId: string, body: Json, sequence: nat)

  function KeyText(e: WalEntry): string { "wal_" + e.tid + "_" + e.state }

  function PayloadJson(e: WalEntry): Json {
    Obj(Member("transaction_id", Str(e.tid), Member("state", Str(e.state), Member("payload", e.body, NoMembers))))
  }

  /** A string member as printf writes it, without escaping. */
  function RawMember(name: string, value: string): string { Key(name) + ("\"" + value + "\"") }

  /** The payload format of append_wal_record. */
  function RawPayload(e: WalEntry): string {
    "{" + (RawMember("transaction_id", e.tid) + "," +
           (RawMember("state", e.state) + "," + (Key("payload") + Print(e.body)))) + "}"
  }

  /** The record of append_wal_record. */
  function WalRecord(e: WalEntry): Record {
    Record(1, e.sequence, KeyText(e), "wal.transaction", e.createdAt, e.actorId, e.correlationId, KeyText(e),
           RawPayload(e), "")
  }

  /** append_wal_record with its own buffers for key and payload. */
  method AppendWalRecord(file: LogFile, e: WalEntry) returns (status: Status)
    modifies file
    ensures var a := WalLine(Chunks(old(file.text)), e);
      if a.Success? then status == Ok && file.text == old(file.text) + a.value
      else status == a.status && file.text == old(file.text)
  {
    if |KeyText(e)| >= ID_SIZE || |RawPayload(e)| >= PAYLOAD_SIZE {
      return BufferTooSmall;
    }
    status := file.Append(WalRecord(e));
  }

  function WalLine(lines: seq<string>, e: WalEntry): Outcome<string> {
    if |KeyText(e)| >= ID_SIZE || |RawPayload(e)| >= PAYLOAD_SIZE then Failure(BufferTooSmall)
    else AppendedLine(lines, WalRecord(e))
  }

  /** A key of 256 characters or a payload of 4096 is refused before anything is read or written. */
  lemma LongEntryRefused(lines: seq<string>, e: WalEntry)
    ensures |e.tid| + |e.state| >= 251 || |RawPayload(e)| >= 4096 ==> WalLine(lines, e) == Failure(BufferTooSmall)
    ensures |e.tid| + |e.state| < 251 && |RawPayload(e)| < 4096 ==> WalLine(lines, e) == AppendedLine(lines, WalRecord(e))
  {
    hide RawPayload, AppendedLine, WalRecord;
  }

  /** Entries as the application writes them. */
  predicate GoodEntry(e: WalEntry) {
    && IsPlain(e.tid) && NoBrackets(e.tid) && (e.state == "pending" || e.state == "committed")
    && IsPlain(e.createdAt) && |e.createdAt| < 128
    && IsPlain(e.actorId) && |e.actorId| < 256
    && IsPlain(e.correlationId) && |e.correlationId| < 256
    && e.body.Obj? && Good(e.body) && e.sequence <= ULL_MAX
    && |KeyText(e)| < 256 && |RawPayload(e)| < 4096
  }

  lemma RawPayloadIsJson(e: WalEntry)
    requires GoodEntry(e)
    ensures RawPayload(e) == Print(PayloadJson(e))
    ensures Good(PayloadJson(e))
  {
    var m3 := Member("payload", e.body, NoMembers);
    var m2 := Member("state", Str(e.state), m3);
    var m1 := Member("transaction_id", Str(e.tid), m2);
    LaterNames();
    EscapePlain(e.tid);
    EscapePlain(e.state);
    PlainMember("payload", e.body, NoMembers);
    PlainMember("state", Str(e.state), m3);
    PlainMember("transaction_id", Str(e.tid), m2);
    hide Print, PrintMembers, Key;
    assert GoodMembers(m3);
    assert GoodMembers(m2);
    assert GoodMembers(m1);
    PrintObject(m1);
    PrintString(e.tid);
    PrintString(e.state);
  }

  lemma PlainMember(k: string, v: Json, rest: Members)
    requires IsPlain(k)
    ensures PrintMembers(Member(k, v, rest)) ==
      if rest.NoMembers? then Key(k) + Print(v) else Key(k) + Print(v) + "," + PrintMembers(rest)
  {
    EscapePlain(k);
    assert Quoted(k) + ":" == Key(k);
  }

  lemma PrintObject(ms: Members)
    ensures Print(Obj(ms)) == "{" + PrintMembers(ms) + "}"
  {
  }

  lemma PrintString(s: string)
    ensures Print(Str(s)) == Quoted(s)
  {
  }

  lemma LaterNames()
    ensures !IsLater("transaction_id") && !IsLater("state") && !IsLater("payload")
    ensures IsPlain("transaction_id") && IsPlain("state") && IsPlain("payload")
    ensures NoBrackets("transaction_id") && NoBrackets("state") && NoBrackets("payload")
    ensures NoBrackets("pending") && NoBrackets("committed")
  {
    assert "transaction_id"[0] == 't' && "state"[1] == 't' && "payload"[0] == 'p';
    assert "checksum"[0] == 'c' && "record_id"[0] == 'r' && "record_type"[0] == 'r';
    assert "schema_version"[1] == 'c' && "sequence"[1] == 'e';
  }

  lemma GoodEntryIsClean(e: WalEntry)
    requires GoodEntry(e)
    ensures CleanRecord(WalRecord(e))
  {
    hide Good, Balanced, Hides, Print, Good;
    RawPayloadIsJson(e);
    GoodPayload(PayloadJson(e));
    PrintOneLine(PayloadJson(e));
    assert IsPlain(KeyText(e));
  }

  function WalFields(e: WalEntry): seq<Field> { [Field("transaction_id", e.tid), Field("state", e.state)] }

  lemma RawPayloadStart(e: WalEntry)
    requires IsPlain(e.tid) && IsPlain(e.state)
    ensures RawPayload(e) == "{" + (Fields(WalFields(e)) + (Key("payload") + Print(e.body) + "}"))
  {
    hide Key, Print, FieldText;
    TwoFields(WalFields(e));
    RawMemberIsField("transaction_id", e.tid);
    RawMemberIsField("state", e.state);
  }

  lemma RawMemberIsField(name: string, value: string)
    requires IsPlain(value)
    ensures FieldText(Field(name, value)) == RawMember(name, value) + ","
  {
    EscapePlain(value);
  }

  /** The scanner takes transaction and state of an appended line from its payload. */
  lemma ReadEntryOfWire(e: WalEntry)
    requires GoodEntry(e)
    ensures ReadEntry(Wire(WalRecord(e))) == Success(Entry(e.tid, e.state))
  {
    hide Head, Fields, Key, Print, Blocked, ExtractString, Numbers, RawPayload, Checksum, Good;
    var r := WalRecord(e);
    var fs := WalFields(e);
    LaterNames();
    RawPayloadStart(e);
    var x := Key("payload") + Print(e.body) + "}";
    var rest := x + ("," + Fields(BackFields(r, Checksum(r))) + Numbers(r) + "\n");
    assert Wire(r) == (Head(r) + "{") + Fields(fs) + rest by { WireDef(r); }
    WalNamesFree(r);
    HeadBlocked(r, "transaction_id");
    HeadBlocked(r, "state");
    StartBlocked(r, "transaction_id");
    StartBlocked(r, "state");
    assert IsPlain(e.state);
    ExtractFromFields(Head(r) + "{", fs, 0, rest, ID_SIZE);
    ExtractFromFields(Head(r) + "{", fs, 1, rest, STATE_SIZE);
  }

  lemma WalNamesFree(r: Record)
    ensures IsName("transaction_id") && IsName("state")
    ensures Lacks(HeadFields(r), "transaction_id") && Lacks(HeadFields(r), "state")
    ensures "transaction_id" != "payload" && "state" != "payload" && "transaction_id" != "state"
  {
    assert "transaction_id"[0] == 't' && "state"[0] == 's';
    assert "actor_id"[0] == 'a' && "correlation_id"[0] == 'c' && "created_at"[0] == 'c' && "idempotency_key"[0] == 'i';
  }

  lemma StartBlocked(r: Record, name: string)
    requires Blocked(Head(r), Key(name))
    ensures Blocked(Head(r) + "{", StringPattern(name))
  {
    NoQuoteBlocked("{", Key(name));
    BlockedConcat(Head(r), "{", Key(name));
    BlockedLonger(Head(r) + "{", Key(name), "\"");
  }

  // ---------------------------------------------------------------- logs

  function Records(es: seq<WalEntry>): (rs: seq<Record>)
    ensures |rs| == |es|
    ensures forall i :: 0 <= i < |es| ==> rs[i] == WalRecord(es[i])
  {
    seq(|es|, i requires 0 <= i < |es| => WalRecord(es[i]))
  }

  function Entries(es: seq<WalEntry>): (xs: seq<Entry>)
    ensures |xs| == |es|
    ensures forall i :: 0 <= i < |es| ==> xs[i] == Entry(es[i].tid, es[i].state)
  {
    seq(|es|, i requires 0 <= i < |es| => Entry(es[i].tid, es[i].state))
  }

  function FileText(es: seq<WalEntry>): string { Concat(LinesOf(Records(es))) }

  /** Every line is good and fits, and no transaction has two lines of the same state. */
  predicate CleanWal(es: seq<WalEntry>) {
    && (forall i :: 0 <= i < |es| ==> GoodEntry(es[i]) && |Wire(WalRecord(es[i]))| < 8192)
    && (forall i, j :: 0 <= i < j < |es| ==> es[i].tid != es[j].tid || es[i].state != es[j].state)
  }

  lemma KeyInjective(a: WalEntry, b: WalEntry)
    requires a.state in ["pending", "committed"] && b.state in ["pending", "committed"]
    ensures KeyText(a) == KeyText(b) <==> a.tid == b.tid && a.state == b.state
  {
    var x, y := KeyText(a), KeyText(b);
    assert x == ("wal_" + a.tid) + ("_" + a.state) && y == ("wal_" + b.tid) + ("_" + b.state);
    assert x[|x| - 1] == (if a.state == "pending" then 'g' else 'd');
    assert y[|y| - 1] == (if b.state == "pending" then 'g' else 'd');
    if x == y {
      var n := |x| - |a.state| - 1;
      assert a.tid == x[4..n] && b.tid == y[4..n];
    }
  }

  lemma CleanWalIsCleanLog(es: seq<WalEntry>)
    requires CleanWal(es)
    ensures CleanLog(Records(es))
  {
    hide Wire, GoodEntry, CleanRecord, WalRecord;
    var rs := Records(es);
    forall i | 0 <= i < |es|
      ensures CleanRecord(rs[i]) && |Wire(rs[i])| < LINE_SIZE
    {
      GoodEntryIsClean(es[i]);
    }
    forall i, j | 0 <= i < j < |es|
      ensures rs[i].idempotencyKey != rs[j].idempotencyKey
    {
      KeysDiffer(es[i], es[j]);
    }
  }

  lemma KeysDiffer(a: WalEntry, b: WalEntry)
    requires GoodEntry(a) && GoodEntry(b) && (a.tid != b.tid || a.state != b.state)
    ensures WalRecord(a).idempotencyKey != WalRecord(b).idempotencyKey
  {
    KeyInjective(a, b);
  }

  /** A clean log is read back line by line, verifies, and shows its transactions to the scanner. */
  lemma CleanWalReads(es: seq<WalEntry>)
    requires CleanWal(es)
    ensures var ls := LinesOf(Records(es));
      Chunks(FileText(es)) == ls && AreLines(ls) && VerifyLines(ls) == Ok && Reads(ls, Entries(es))
  {
    hide Wire, GoodEntry, ReadEntry, VerifyLines, Chunks, WalRecord, CleanLog;
    CleanWalIsCleanLog(es);
    LogLines(Records(es));
    LogVerifies(Records(es));
    forall i | 0 <= i < |es|
      ensures ReadEntry(LinesOf(Records(es))[i]) == Success(Entries(es)[i])
    {
      ReadEntryOfWire(es[i]);
    }
  }

  // ---------------------------------------------------------------- runs

  datatype WalStep = AppendStep(e: WalEntry) | RollbackStep(missing: bool)

  /** One step on the text of the file. */
  function StepText(text: string, s: WalStep): string {
    match s
    case AppendStep(e) =>
      var a := WalLine(Chunks(text), e);
      if a.Success? then text + a.value else text
    case RollbackStep(missing) => Concat(Recover(Chunks(text), missing).2)
  }

  function RunText(text: string, steps: seq<WalStep>): string
    decreases |steps|
  {
    if steps == [] then text else RunText(StepText(text, steps[0]), steps[1..])
  }

  predicate HasLine(es: seq<WalEntry>, e: WalEntry) {
    exists i :: 0 <= i < |es| && es[i].tid == e.tid && es[i].state == e.state
  }

  /** The pending lines without a commit taken out. */
  function KeptWal(es: seq<WalEntry>, all: seq<Entry>): seq<WalEntry> {
    if es == [] then [] else
    var rest := KeptWal(es[1..], all);
    if Kept(all, Entry(es[0].tid, es[0].state)) then [es[0]] + rest else rest
  }

  /** The same step on the entries. */
  ghost function StepLog(es: seq<WalEntry>, s: WalStep): seq<WalEntry> {
    match s
    case AppendStep(e) =>
      var n := e.(sequence := |es| + 1);
      if HasLine(es, e) || |Wire(WalRecord(n))| >= 8192 then es else es + [n]
    case RollbackStep(_) =>
      if |Tids(Entries(es))| > 512 || !Unresolved(Entries(es)) then es
      else KeptWal(es, Entries(es))
  }

  ghost function RunLog(es: seq<WalEntry>, steps: seq<WalStep>): seq<WalEntry>
    decreases |steps|
  {
    if steps == [] then es else RunLog(StepLog(es, steps[0]), steps[1..])
  }

  predicate GoodStep(s: WalStep) { s.AppendStep? ==> GoodEntry(s.e) }

  lemma {:induction false} KeptWalLines(es: seq<WalEntry>, all: seq<Entry>)
    ensures LinesOf(Records(KeptWal(es, all))) == KeptLines(LinesOf(Records(es)), Entries(es), all)
    ensures Entries(KeptWal(es, all)) == KeptEntries(Entries(es), all)
  {
    hide Wire, Kept, WalRecord;
    if es != [] {
      KeptWalLines(es[1..], all);
      assert Records(es)[1..] == Records(es[1..]);
      assert LinesOf(Records(es))[1..] == LinesOf(Records(es[1..]));
      assert Entries(es)[1..] == Entries(es[1..]);
      var rest := KeptWal(es[1..], all);
      assert LinesOf(Records([es[0]] + rest)) == [Wire(WalRecord(es[0]))] + LinesOf(Records(rest));
      assert Entries([es[0]] + rest) == [Entry(es[0].tid, es[0].state)] + Entries(rest);
    }
  }

  /** Rollback picks lines out without moving or repeating any. */
  lemma {:induction false} KeptWalPicks(es: seq<WalEntry>, all: seq<Entry>) returns (at: seq<nat>)
    ensures |at| == |KeptWal(es, all)|
    ensures forall i :: 0 <= i < |at| ==> at[i] < |es| && KeptWal(es, all)[i] == es[at[i]]
    ensures forall i, j :: 0 <= i < j < |at| ==> at[i] < at[j]
  {
    hide Kept;
    if es == [] {
      at := [];
    } else {
      var more := KeptWalPicks(es[1..], all);
      var shifted := seq(|more|, i requires 0 <= i < |more| => more[i] + 1);
      at := if Kept(all, Entry(es[0].tid, es[0].state)) then [0] + shifted else shifted;
    }
  }

  lemma KeptWalClean(es: seq<WalEntry>, all: seq<Entry>)
    requires CleanWal(es)
    ensures CleanWal(KeptWal(es, all))
  {
    hide Wire, GoodEntry, KeptWal, WalRecord;
    var at := KeptWalPicks(es, all);
  }

  lemma RollbackRefines(es: seq<WalEntry>, missing: bool)
    requires CleanWal(es)
    ensures StepText(FileText(es), RollbackStep(missing)) == FileText(StepLog(es, RollbackStep(missing)))
    ensures CleanWal(StepLog(es, RollbackStep(missing)))
  {
    hide Wire, GoodEntry, Chunks, VerifyLines, Reads, Recover, CleanWal, Tids, Unresolved, WalRecord, Concat;
    CleanWalReads(es);
    var ls := LinesOf(Records(es));
    RollbackIsExact(ls, Entries(es), missing);
    KeptWalLines(es, Entries(es));
    KeptWalClean(es, Entries(es));
  }

  lemma AppendRefines(es: seq<WalEntry>, e: WalEntry)
    requires CleanWal(es) && GoodEntry(e) && |es| < ULL_MAX
    ensures StepText(FileText(es), AppendStep(e)) == FileText(StepLog(es, AppendStep(e)))
    ensures CleanWal(StepLog(es, AppendStep(e)))
  {
    hide Wire, CleanRecord, Chunks, VerifyLines, Reads, AppendedLine, CleanLog, Concat, GoodEntry;
    CleanWalReads(es);
    CleanWalIsCleanLog(es);
    GoodEntryIsClean(e);
    var rs := Records(es);
    AppendAccepts(rs, WalRecord(e));
    var n := e.(sequence := |es| + 1);
    NumberedEntry(e, |es| + 1);
    forall i | 0 <= i < |es|
      ensures rs[i].idempotencyKey == WalRecord(e).idempotencyKey <==> es[i].tid == e.tid && es[i].state == e.state
    {
      KeysSame(es[i], e);
    }
    assert Records(es + [n]) == rs + [WalRecord(n)];
  }

  lemma NumberedEntry(e: WalEntry, k: nat)
    requires GoodEntry(e) && k <= ULL_MAX
    ensures GoodEntry(e.(sequence := k))
    ensures WalRecord(e.(sequence := k)) == WalRecord(e).(sequence := k, checksum := "")
    ensures |KeyText(e)| < 256 && |RawPayload(e)| < 4096
  {
  }

  lemma KeysSame(a: WalEntry, b: WalEntry)
    requires GoodEntry(a) && GoodEntry(b)
    ensures WalRecord(a).idempotencyKey == WalRecord(b).idempotencyKey <==> a.tid == b.tid && a.state == b.state
  {
    KeyInjective(a, b);
  }

  /** Every run of appends and rollbacks keeps the file a clean log: the text is exactly the lines of
      the abstract run, it verifies, and no transaction ever has two lines of the same state. */
  lemma {:induction false} RunRefines(es: seq<WalEntry>, steps: seq<WalStep>)
    requires CleanWal(es) && (forall s :: s in steps ==> GoodStep(s)) && |es| + |steps| <= ULL_MAX
    ensures RunText(FileText(es), steps) == FileText(RunLog(es, steps))
    ensures CleanWal(RunLog(es, steps))
    ensures VerifyLines(Chunks(RunText(FileText(es), steps))) == Ok
    decreases |steps|
  {
    hide CleanWal, StepText, VerifyLines, FileText, GoodEntry;
    if steps == [] {
      CleanWalReads(es);
    } else {
      var s := steps[0];
      assert GoodStep(s);
      if s.AppendStep? {
        AppendRefines(es, s.e);
      } else {
        RollbackRefines(es, s.missing);
        var at := KeptWalPicks(es, Entries(es));
        PicksAreFewer(at, |es|);
      }
      assert forall x :: x in steps[1..] ==> x in steps;
      RunRefines(StepLog(es, s), steps[1..]);
    }
  }

  lemma {:induction false} PicksAreFewer(at: seq<nat>, n: nat)
    requires forall i :: 0 <= i < |at| ==> at[i] < n
    requires forall i, j :: 0 <= i < j < |at| ==> at[i] < at[j]
    ensures |at| <= n
  {
    if at != [] {
      PicksAreFewer(at[..|at| - 1], at[|at| - 1]);
    }
  }

  // ---------------------------------------------------------------- sequence numbers

  predicate Numbered(es: seq<WalEntry>) { forall i :: 0 <= i < |es| ==> es[i].sequence == i + 1 }

  predicate Monotonic(es: seq<WalEntry>) { forall i, j :: 0 <= i < j < |es| ==> es[i].sequence < es[j].sequence }

  lemma {:induction false} AtLeastPosition(at: seq<nat>, i: nat)
    requires i < |at| && forall j, k :: 0 <= j < k < |at| ==> at[j] < at[k]
    ensures at[i] >= i
  {
    if i > 0 {
      AtLeastPosition(at, i - 1);
    }
  }

  lemma {:induction false} GapStays(at: seq<nat>, i: nat, j: nat)
    requires i <= j < |at| && at[i] > i && forall k, l :: 0 <= k < l < |at| ==> at[k] < at[l]
    ensures at[j] > j
    decreases j
  {
    if j > i {
      GapStays(at, i, j - 1);
    }
  }

  /** The pending lines without a commit are the last ones. */
  predicate DropsAtEnd(es: seq<WalEntry>) {
    forall i, j :: 0 <= i < j < |es| && Kept(Entries(es), Entries(es)[j]) ==> Kept(Entries(es), Entries(es)[i])
  }

  lemma {:induction false} KeptPrefix(es: seq<WalEntry>, all: seq<Entry>, n: nat)
    requires n <= |es|
    requires forall i :: 0 <= i < |es| ==> (Kept(all, Entry(es[i].tid, es[i].state)) <==> i < n)
    ensures KeptWal(es, all) == es[..n]
  {
    hide Kept;
    if es != [] {
      KeptPrefix(es[1..], all, if n == 0 then 0 else n - 1);
      assert n > 0 ==> es[..n] == [es[0]] + es[1..][..n - 1];
    }
  }

  /** The length of the part in front of the first dropped line. */
  lemma FirstDropped(es: seq<WalEntry>) returns (n: nat)
    requires DropsAtEnd(es)
    ensures n <= |es| && forall i :: 0 <= i < |es| ==> (Kept(Entries(es), Entry(es[i].tid, es[i].state)) <==> i < n)
  {
    hide Kept;
    n := 0;
    while n < |es| && Kept(Entries(es), Entries(es)[n])
      invariant n <= |es| && forall i :: 0 <= i < n ==> Kept(Entries(es), Entries(es)[i])
    {
      n := n + 1;
    }
  }

  lemma {:induction false} KeptWalMember(es: seq<WalEntry>, all: seq<Entry>, i: nat)
    requires i < |es| && Kept(all, Entry(es[i].tid, es[i].state))
    ensures es[i] in KeptWal(es, all)
  {
    hide Kept;
    if i > 0 {
      KeptWalMember(es[1..], all, i - 1);
    }
  }

  lemma {:induction false} KeptWalIsKept(es: seq<WalEntry>, all: seq<Entry>)
    ensures forall e :: e in KeptWal(es, all) ==> Kept(all, Entry(e.tid, e.state))
  {
    hide Kept;
    if es != [] {
      KeptWalIsKept(es[1..], all);
    }
  }

  lemma EndsDropped(es: seq<WalEntry>)
    requires Numbered(es) && DropsAtEnd(es)
    ensures var kept := KeptWal(es, Entries(es)); kept <= es && Numbered(kept)
  {
    var n := FirstDropped(es);
    hide Kept, KeptWal, DropsAtEnd;
    KeptPrefix(es, Entries(es), n);
  }

  lemma KeptInOrder(es: seq<WalEntry>)
    requires Numbered(es)
    requires var kept := KeptWal(es, Entries(es)); kept <= es || Numbered(kept)
    ensures DropsAtEnd(es)
  {
    hide Kept, KeptWal;
    var all, kept := Entries(es), KeptWal(es, Entries(es));
    var at := KeptWalPicks(es, all);
    PicksAreFewer(at, |es|);
    KeptWalIsKept(es, all);
    forall i, j | 0 <= i < j < |es| && Kept(all, all[j])
      ensures Kept(all, all[i])
    {
      KeptWalMember(es, all, j);
      var k :| 0 <= k < |kept| && kept[k] == es[j];
      assert kept[k].sequence == k + 1;
      assert kept[i].sequence == i + 1;
      assert kept[i] in kept && kept[i] == es[at[i]];
    }
  }

  /** Rollback removes a suffix of a numbered log exactly when what it drops comes last, and only then are
      the lines numbered again. */
  lemma RollbackNumbers(es: seq<WalEntry>)
    requires Numbered(es)
    ensures var kept := KeptWal(es, Entries(es));
      (kept <= es <==> DropsAtEnd(es)) && (Numbered(kept) <==> DropsAtEnd(es))
  {
    hide *;
    var kept := KeptWal(es, Entries(es));
    if DropsAtEnd(es) {
      EndsDropped(es);
    }
    if kept <= es || Numbered(kept) {
      KeptInOrder(es);
    }
  }

  /** After a rollback the next append continues an increasing sequence exactly when no dropped line stood
      before a kept one. */
  lemma SequenceAfterRollback(es: seq<WalEntry>, next: WalEntry)
    requires Numbered(es) && next.sequence == |KeptWal(es, Entries(es))| + 1
    ensures Monotonic(KeptWal(es, Entries(es)) + [next]) <==> DropsAtEnd(es)
  {
    RollbackNumbers(es);
    hide KeptWal, DropsAtEnd;
    var kept := KeptWal(es, Entries(es));
    var at := KeptWalPicks(es, Entries(es));
    var file := kept + [next];
    if kept <= es {
      assert forall i :: 0 <= i < |kept| ==> file[i].sequence == i + 1;
    } else {
      var i := FirstGap(es, kept, at);
      var last := |kept| - 1;
      GapStays(at, i, last);
      assert file[last].sequence == at[last] + 1 && file[|kept|] == next;
    }
  }

  lemma FirstGap(es: seq<WalEntry>, kept: seq<WalEntry>, at: seq<nat>) returns (i: nat)
    requires |at| == |kept| && !(kept <= es)
    requires forall k :: 0 <= k < |at| ==> at[k] < |es| && kept[k] == es[at[k]]
    requires forall k, l :: 0 <= k < l < |at| ==> at[k] < at[l]
    ensures i < |at| && at[i] > i
  {
    PicksAreFewer(at, |es|);
    i :| i < |kept| && kept[i] != es[i];
    AtLeastPosition(at, i);
  }

  /** No rollback of the run drops a line in front of one it keeps. */
  ghost predicate RollsBackEnds(es: seq<WalEntry>, steps: seq<WalStep>)
    decreases |steps|
  {
    steps == [] ||
    ((steps[0].RollbackStep? && |Tids(Entries(es))| <= 512 ==> DropsAtEnd(es))
     && RollsBackEnds(StepLog(es, steps[0]), steps[1..]))
  }

  /** The log is numbered after every step of the run. */
  ghost predicate AlwaysNumbered(es: seq<WalEntry>, steps: seq<WalStep>)
    decreases |steps|
  {
    Numbered(es) && (steps != [] ==> AlwaysNumbered(StepLog(es, steps[0]), steps[1..]))
  }

  lemma AllKeptDropNothing(es: seq<WalEntry>)
    requires !Unresolved(Entries(es))
    ensures DropsAtEnd(es)
  {
    hide Kept;
    forall i | 0 <= i < |es|
      ensures Kept(Entries(es), Entries(es)[i])
    {
      assert Entries(es)[i] in Entries(es);
    }
  }

  lemma StepNumbers(es: seq<WalEntry>, s: WalStep)
    requires Numbered(es)
    ensures Numbered(StepLog(es, s)) <==> (s.RollbackStep? && |Tids(Entries(es))| <= 512 ==> DropsAtEnd(es))
  {
    hide Wire, KeptWal, DropsAtEnd, Tids, Unresolved, HasLine, WalRecord;
    RollbackNumbers(es);
    if !Unresolved(Entries(es)) {
      AllKeptDropNothing(es);
    }
  }

  /** Every line carries its line number after every step exactly as long as every rollback drops lines
      at the end only. */
  lemma {:induction false} RunNumbers(es: seq<WalEntry>, steps: seq<WalStep>)
    requires Numbered(es)
    ensures AlwaysNumbered(es, steps) <==> RollsBackEnds(es, steps)
    decreases |steps|
  {
    hide Numbered, StepLog, DropsAtEnd;
    if steps != [] {
      StepNumbers(es, steps[0]);
      if Numbered(StepLog(es, steps[0])) {
        RunNumbers(StepLog(es, steps[0]), steps[1..]);
      } else {
        assert !AlwaysNumbered(StepLog(es, steps[0]), steps[1..]);
      }
    }
  }

  /** The line of the entry fits the buffer of the appender. */
  predicate LineFits(e: WalEntry, n: nat) { |Wire(WalRecord(e.(sequence := n)))| < 8192 }

  lemma {:induction false} EscapeLength(s: string)
    ensures |Escape(s)| <= 6 * |s|
  {
    if s != "" {
      EscapeLength(s[1..]);
    }
  }

  lemma FieldLength(f: Field)
    ensures |FieldText(f)| == |f.name| + |Escape(f.value)| + 6
  {
    hide Escape;
  }

  lemma {:induction false} FieldsLength(fs: seq<Field>, names: nat, values: nat)
    requires forall i :: 0 <= i < |fs| ==> |fs[i].name| <= names && |Escape(fs[i].value)| <= values
    ensures |Fields(fs)| <= |fs| * (names + values + 6)
  {
    hide Escape, FieldText;
    if fs != [] {
      FieldLength(fs[0]);
      FieldsLength(fs[1..], names, values);
      assert |fs| * (names + values + 6) == (|fs| - 1) * (names + values + 6) + (names + values + 6);
    }
  }

  lemma OneDigit(n: nat)
    requires n < 10
    ensures |Decimal(n)| == 1
  {
  }

  lemma NumbersLength(r: Record)
    requires r.schemaVersion == 1 && r.sequence < 10
    ensures |Numbers(r)| <= 40
  {
    OneDigit(1);
    OneDigit(r.sequence);
    hide Decimal;
    assert |Key("schema_version")| == 17 && |Key("sequence")| == 11;
  }

  /** The strings of the entry that go into its line, without the payload. */
  function Longest(e: WalEntry): nat {
    var n := Longer(|e.actorId|, Longer(|e.correlationId|, |e.createdAt|));
    Longer(n, |KeyText(e)|)
  }

  function Longer(x: nat, y: nat): nat { if x < y then y else x }

  lemma HeadLength(r: Record)
    requires |Escape(r.actorId)| <= 600 && |Escape(r.correlationId)| <= 600 && |Escape(r.createdAt)| <= 600
      && |Escape(r.idempotencyKey)| <= 600
    ensures |Head(r)| <= 2600
  {
    hide Escape, Fields, Key;
    var fs := HeadFields(r);
    assert |fs[0].name| == 8 && |fs[1].name| == 14 && |fs[2].name| == 10 && |fs[3].name| == 15;
    FieldsLength(fs, 20, 600);
    KeyLength("payload");
  }

  lemma KeyLength(name: string)
    ensures |Key(name)| == |name| + 3
  {
  }

  lemma TailLength(r: Record, checksum: string)
    requires |Escape(checksum)| <= 600 && |Escape(r.recordId)| <= 600 && |Escape(r.recordType)| <= 600
    ensures |Fields([Field("checksum", checksum)] + TailFields(r))| <= 1900
  {
    hide Escape, Fields;
    var fs := [Field("checksum", checksum)] + TailFields(r);
    assert |fs[0].name| == 8 && |fs[1].name| == 9 && |fs[2].name| == 11;
    FieldsLength(fs, 20, 600);
  }

  lemma WalRecordIs(e: WalEntry, n: nat)
    ensures var r := WalRecord(e.(sequence := n));
      && r.actorId == e.actorId && r.correlationId == e.correlationId && r.createdAt == e.createdAt
      && r.recordId == r.idempotencyKey == KeyText(e) && r.payload == RawPayload(e) && |r.recordType| == 15
      && r.schemaVersion == 1 && r.sequence == n
  {
  }

  /** Short entries fit. */
  lemma ShortLineFits(e: WalEntry, n: nat)
    requires n < 10 && Longest(e) <= 100 && |RawPayload(e)| <= 2000
    ensures LineFits(e, n)
  {
    WalRecordIs(e, n);
    var r := WalRecord(e.(sequence := n));
    hide WalRecord, Escape, KeyText, RawPayload, Fields, Checksum, Numbers, Head;
    EscapeLength(r.actorId);
    EscapeLength(r.correlationId);
    EscapeLength(r.createdAt);
    EscapeLength(r.recordId);
    EscapeLength(r.recordType);
    EscapeLength(Checksum(r));
    ChecksumShape(r);
    HeadLength(r);
    TailLength(r, Checksum(r));
    NumbersLength(r);
  }

  /** A real run that repeats a number: announce a, announce and commit b, roll a back, announce c. */
  lemma RepeatedSequence(a: WalEntry, b: WalEntry, c: WalEntry, missing: bool)
    requires a.state == b.state == c.state == "pending" && a.tid != b.tid && b.tid != c.tid
    ensures var done := b.(state := "committed");
      var steps := [AppendStep(a), AppendStep(b), AppendStep(done), RollbackStep(missing), AppendStep(c)];
      LineFits(a, 1) && LineFits(b, 2) && LineFits(done, 3) && LineFits(c, 3) ==>
        RunLog([], steps) == [b.(sequence := 2), done.(sequence := 3), c.(sequence := 3)]
  {
    hide Wire, WalRecord, KeptWal, Kept, Tids, Unresolved;
    var done := b.(state := "committed");
    var a1, b2, d3, c3 := a.(sequence := 1), b.(sequence := 2), done.(sequence := 3), c.(sequence := 3);
    assert "pending"[0] != "committed"[0];
    if LineFits(a, 1) && LineFits(b, 2) && LineFits(done, 3) && LineFits(c, 3) {
      assert StepLog([], AppendStep(a)) == [a1];
      assert StepLog([a1], AppendStep(b)) == [a1, b2];
      assert StepLog([a1, b2], AppendStep(done)) == [a1, b2, d3];
      OneRolledBack(a1, b2, d3, missing);
      assert StepLog([b2, d3], AppendStep(c)) == [b2, d3, c3];
      RunFive([], AppendStep(a), AppendStep(b), AppendStep(done), RollbackStep(missing), AppendStep(c));
    }
  }

  lemma RunFive(es: seq<WalEntry>, s: WalStep, t: WalStep, u: WalStep, v: WalStep, w: WalStep)
    ensures RunLog(es, [s, t, u, v, w]) == StepLog(StepLog(StepLog(StepLog(StepLog(es, s), t), u), v), w)
  {
    hide StepLog;
    RunMore(es, s, [t, u, v, w]);
    RunMore(StepLog(es, s), t, [u, v, w]);
    RunMore(StepLog(StepLog(es, s), t), u, [v, w]);
    RunMore(StepLog(StepLog(StepLog(es, s), t), u), v, [w]);
    RunMore(StepLog(StepLog(StepLog(StepLog(es, s), t), u), v), w, []);
    assert [s, t, u, v, w] == [s] + [t, u, v, w] && [t, u, v, w] == [t] + [u, v, w] && [u, v, w] == [u] + [v, w];
    assert [v, w] == [v] + [w] && [w] == [w] + [];
  }

  lemma RunMore(es: seq<WalEntry>, s: WalStep, rest: seq<WalStep>)
    ensures RunLog(es, [s] + rest) == RunLog(StepLog(es, s), rest) && RunLog(es, []) == es
  {
    hide StepLog;
    assert ([s] + rest)[1..] == rest;
  }

  lemma OneRolledBack(a: WalEntry, b: WalEntry, done: WalEntry, missing: bool)
    requires a.state == b.state == "pending" && done == b.(state := "committed", sequence := done.sequence) && a.tid != b.tid
    ensures StepLog([a, b, done], RollbackStep(missing)) == [b, done]
  {
    var es := [a, b, done];
    var all := Entries(es);
    assert all == [Entry(a.tid, "pending"), Entry(b.tid, "pending"), Entry(b.tid, "committed")];
    assert "pending"[0] != "committed"[0];
    assert all[0] in all && all[2] in all;
    assert !Kept(all, all[0]) && Kept(all, all[1]) && Kept(all, all[2]);
    assert Tids(all) == {a.tid, b.tid};
    assert |{a.tid, b.tid}| <= 2;
    hide Kept, Tids;
    assert es[1..] == [b, done] && es[1..][1..] == [done] && es[1..][1..][1..] == [];
    assert KeptWal([], all) == [];
    assert KeptWal([done], all) == [done];
    assert KeptWal([b, done], all) == [b] + [done];
    assert KeptWal(es, all) == [b, done];
  }

  function SmallEntry(tid: string, state: string): WalEntry { WalEntry(tid, state, "t", "u", "c", Obj(NoMembers), 0) }

  lemma SmallEntryFits(tid: string, state: string, n: nat)
    requires |tid| <= 10 && |state| <= 10 && n < 10
    ensures LineFits(SmallEntry(tid, state), n)
  {
    var e := SmallEntry(tid, state);
    assert |Print(Obj(NoMembers))| == 2;
    assert |KeyText(e)| <= 30;
    assert |RawPayload(e)| <= 2000 by {
      assert |RawMember("transaction_id", tid)| == 19 + |tid|;
      assert |RawMember("state", state)| == 10 + |state|;
      assert |Key("payload")| == 10;
      hide RawMember, Key, Print;
    }
    hide KeyText, RawPayload;
    ShortLineFits(e, n);
  }

  lemma SmallDone(tid: string)
    ensures SmallEntry(tid, "pending").(state := "committed") == SmallEntry(tid, "committed")
    ensures SmallEntry(tid, "pending").tid == tid && SmallEntry(tid, "pending").state == "pending"
    ensures |"pending"| <= 10 && |"committed"| <= 10
  {
  }

  /** Such entries exist: with any short ids the run leaves two lines with the number 3. */
  lemma RepeatedSequenceHappens(x: string, y: string, z: string, missing: bool)
    requires |x| <= 10 && |y| <= 10 && |z| <= 10 && x != y && y != z
    ensures var a, b, c := SmallEntry(x, "pending"), SmallEntry(y, "pending"), SmallEntry(z, "pending");
      var done := b.(state := "committed");
      RunLog([], [AppendStep(a), AppendStep(b), AppendStep(done), RollbackStep(missing), AppendStep(c)]) ==
        [b.(sequence := 2), done.(sequence := 3), c.(sequence := 3)]
  {
    hide LineFits, RunLog, SmallEntry;
    SmallDone(x);
    SmallDone(y);
    SmallDone(z);
    SmallEntryFits(x, "pending", 1);
    SmallEntryFits(y, "pending", 2);
    SmallEntryFits(y, "committed", 3);
    SmallEntryFits(z, "pending", 3);
    RepeatedSequence(SmallEntry(x, "pending"), SmallEntry(y, "pending"), SmallEntry(z, "pending"), missing);
  }
}
