/** The write-ahead log of core/src/wal/bms_wal.c: scan into a fixed table, startup inspection and
    rollback by compaction, on the text of the file. */
module Wal {
  import opened Status
  import opened Record
  import opened JsonlStore

  const MAX_TRANSACTIONS := 512
  const ID_SIZE := 256
  const STATE_SIZE := 32

  datatype Decision = Clean | PendingRollback | CommittedMissingSnapshot | ProtectedReadOnly

  /** What the log reader takes from a line. */
  datatype Entry = Entry(tid: string, state: string)

  /** One slot of the transaction table. */
  datatype Tx = Tx(id: string, pending: bool, committed: bool)

  function ReadEntry(line: string): Outcome<Entry> {
    var tid :- ExtractString(line, "transaction_id", ID_SIZE);
    var state :- ExtractString(line, "state", STATE_SIZE);
    Success(Entry(tid, state))
  }

  // ---------------------------------------------------------------- the transaction table

  function FindTx(t: seq<Tx>, id: string): (k: int)
    ensures -1 <= k < |t|
    ensures k >= 0 ==> t[k].id == id
    ensures k == -1 ==> forall i :: 0 <= i < |t| ==> t[i].id != id
  {
    if t == [] then -1
    else if t[|t| - 1].id == id then
      var k := FindTx(t[..|t| - 1], id);
      if k >= 0 then k else |t| - 1
    else FindTx(t[..|t| - 1], id)
  }

  function Mark(x: Tx, state: string): Tx {
    if state == "pending" then x.(pending := true)
    else if state == "committed" then x.(committed := true)
    else x
  }

  /** The table after one more line. */
  function Note(t: seq<Tx>, e: Entry): Outcome<seq<Tx>> {
    var k := FindTx(t, e.tid);
    if k >= 0 then Success(t[k := Mark(t[k], e.state)])
    else if |t| >= MAX_TRANSACTIONS || |e.tid| >= ID_SIZE then Failure(BufferTooSmall)
    else Success(t + [Mark(Tx(e.tid, false, false), e.state)])
  }

  function ScanLines(lines: seq<string>, t: seq<Tx>): Outcome<seq<Tx>> {
    if lines == [] then Success(t) else
    var e :- ReadEntry(lines[0]);
    var t' :- Note(t, e);
    ScanLines(lines[1..], t')
  }

  predicate HasUncommittedPending(t: seq<Tx>) { exists i :: 0 <= i < |t| && t[i].pending && !t[i].committed }

  predicate HasCommitted(t: seq<Tx>) { exists i :: 0 <= i < |t| && t[i].committed }

  /** compact_uncommitted_pending on the lines read. */
  function CompactLines(lines: seq<string>, t: seq<Tx>): Outcome<seq<string>> {
    if lines == [] then Success([]) else
    var e :- ReadEntry(lines[0]);
    var rest :- CompactLines(lines[1..], t);
    var k := FindTx(t, e.tid);
    Success(if e.state == "pending" && k >= 0 && !t[k].committed then rest else [lines[0]] + rest)
  }

  /** bms_wal_inspect_startup. `missing` says that a snapshot is required and its file is absent. */
  function Inspect(lines: seq<string>, missing: bool): (Status, Decision) {
    var v := VerifyLines(lines);
    if v == ChecksumError || v == ParseError then (ProtectedMode, ProtectedReadOnly)
    else if v != Ok then (v, Clean)
    else if lines == [] then (Ok, Clean)
    else match ScanLines(lines, [])
      case Failure(_) => (ProtectedMode, ProtectedReadOnly)
      case Success(t) =>
        if HasUncommittedPending(t) then (RecoveryRequired, PendingRollback)
        else if HasCommitted(t) && missing then (RecoveryRequired, CommittedMissingSnapshot)
        else (Ok, Clean)
  }

  /** bms_wal_recover_startup: status, decision, and the lines afterwards. */
  function Recover(lines: seq<string>, missing: bool): (Status, Decision, seq<string>) {
    var (status, decision) := Inspect(lines, missing);
    if status == Ok || decision != PendingRollback then (status, decision, lines)
    else match ScanLines(lines, [])
      case Failure(_) => (ProtectedMode, ProtectedReadOnly, lines)
      case Success(t) =>
        match CompactLines(lines, t)
        case Failure(s) => (s, PendingRollback, lines)
        case Success(kept) => (Ok, PendingRollback, kept)
  }

  // ---------------------------------------------------------------- the C code

  method FindTransaction(transactions: array<Tx>, count: nat, id: string) returns (index: int)
    requires count <= transactions.Length
    ensures index == FindTx(transactions[..count], id)
  {
    index := 0;
    while index < count
      invariant 0 <= index <= count
      invariant forall i :: 0 <= i < index ==> transactions[i].id != id
    {
      if transactions[index].id == id {
        FirstTx(transactions[..count], id, index);
        return;
      }
      index := index + 1;
    }
    return -1;
  }

  lemma {:induction false} FirstTx(t: seq<Tx>, id: string, k: nat)
    requires k < |t| && t[k].id == id && forall i :: 0 <= i < k ==> t[i].id != id
    ensures FindTx(t, id) == k
  {
    if k < |t| - 1 {
      FirstTx(t[..|t| - 1], id, k);
    }
  }

  method FindOrAddTransaction(transactions: array<Tx>, count: nat, id: string)
    returns (status: Status, index: nat, newCount: nat)
    requires count <= transactions.Length == MAX_TRANSACTIONS
    modifies transactions
    ensures status == Ok || (status == BufferTooSmall && newCount == count && transactions[..] == old(transactions[..]))
    ensures status == Ok ==> newCount <= MAX_TRANSACTIONS && index < newCount && transactions[index].id == id
    ensures status == Ok && FindTx(old(transactions[..count]), id) >= 0 ==>
      newCount == count && transactions[..] == old(transactions[..]) && index == FindTx(old(transactions[..count]), id)
    ensures FindTx(old(transactions[..count]), id) == -1 ==>
      (status == Ok <==> count < 512 && |id| < 256)
    ensures status == Ok && FindTx(old(transactions[..count]), id) == -1 ==>
      newCount == count + 1 && index == count
      && transactions[..newCount] == old(transactions[..count]) + [Tx(id, false, false)]
    ensures FindTx(old(transactions[..count]), id) >= 0 ==> status == Ok
  {
    var existing := FindTransaction(transactions, count, id);
    if existing >= 0 {
      return Ok, existing, count;
    }
    if count >= MAX_TRANSACTIONS || |id| >= ID_SIZE {
      return BufferTooSmall, 0, count;
    }
    transactions[count] := Tx(id, false, false);
    return Ok, count, count + 1;
  }

  /** The body of the scan loop on one line. */
  method NoteTransaction(transactions: array<Tx>, count: nat, e: Entry) returns (status: Status, newCount: nat)
    requires count <= transactions.Length == MAX_TRANSACTIONS
    modifies transactions
    ensures newCount <= MAX_TRANSACTIONS
    ensures var n := Note(old(transactions[..count]), e);
      if n.Success? then status == Ok && transactions[..newCount] == n.value else status == n.status && status != Ok
  {
    var index;
    status, index, newCount := FindOrAddTransaction(transactions, count, e.tid);
    if status != Ok {
      return;
    }
    if e.state == "pending" {
      transactions[index] := transactions[index].(pending := true);
    } else if e.state == "committed" {
      transactions[index] := transactions[index].(committed := true);
    }
  }

  method ScanTransactions(file: LogFile, transactions: array<Tx>) returns (status: Status, count: nat)
    requires transactions.Length == MAX_TRANSACTIONS
    modifies transactions
    ensures count <= MAX_TRANSACTIONS
    ensures var r := ScanLines(Chunks(file.text), []);
      if r.Success? then status == Ok && transactions[..count] == r.value else status == r.status && status != Ok
  {
    hide ReadEntry, Note, Chunks, ChunkLength;
    count := 0;
    var pos := 0;
    var text := file.text;
    assert transactions[..0] == [];
    assert text[0..] == text;
    while pos < |text|
      invariant pos <= |text| && count <= MAX_TRANSACTIONS
      invariant ScanLines(Chunks(text[pos..]), transactions[..count]) == ScanLines(Chunks(text), [])
    {
      var n := ChunkLength(text[pos..], LINE_SIZE - 1);
      var line := text[pos..][..n];
      NextChunk(text, pos);
      var e := ReadEntry(line);
      if e.Failure? {
        ReadEntryFails(line);
        return e.status, 0;
      }
      status, count := NoteTransaction(transactions, count, e.value);
      if status != Ok {
        return status, 0;
      }
      pos := pos + n;
    }
    NoChunk();
    assert text[pos..] == "";
    return Ok, count;
  }

  lemma ReadEntryFails(line: string)
    ensures ReadEntry(line).Failure? ==> ReadEntry(line).status != Ok
  {
  }

  method AnyUncommittedPending(transactions: array<Tx>, count: nat) returns (found: bool)
    requires count <= transactions.Length
    ensures found <==> HasUncommittedPending(transactions[..count])
  {
    for i := 0 to count
      invariant forall k :: 0 <= k < i ==> !(transactions[k].pending && !transactions[k].committed)
    {
      if transactions[i].pending && !transactions[i].committed {
        assert transactions[..count][i] == transactions[i];
        return true;
      }
    }
    return false;
  }

  method AnyCommitted(transactions: array<Tx>, count: nat) returns (found: bool)
    requires count <= transactions.Length
    ensures found <==> HasCommitted(transactions[..count])
  {
    for i := 0 to count
      invariant forall k :: 0 <= k < i ==> !transactions[k].committed
    {
      if transactions[i].committed {
        assert transactions[..count][i] == transactions[i];
        return true;
      }
    }
    return false;
  }

  /** Reads the log line by line into a new text that replaces the file when everything was read. */
  method CompactUncommittedPending(file: LogFile, transactions: array<Tx>, count: nat) returns (status: Status)
    requires count <= transactions.Length
    modifies file
    ensures var r := CompactLines(Chunks(old(file.text)), transactions[..count]);
      if r.Success? then status == Ok && file.text == Concat(r.value)
      else status == r.status && file.text == old(file.text)
  {
    hide ReadEntry, Chunks, ChunkLength;
    var target := "";
    var pos := 0;
    var text := file.text;
    ghost var t := transactions[..count];
    ghost var all := CompactLines(Chunks(text), t);
    assert text[0..] == text;
    while pos < |text|
      invariant pos <= |text| && file.text == text
      invariant transactions[..count] == t
      invariant var c := CompactLines(Chunks(text[pos..]), t);
        && (all.Success? <==> c.Success?)
        && (all.Success? ==> Concat(all.value) == target + Concat(c.value))
        && (all.Failure? ==> all.status == c.status)
    {
      var n := ChunkLength(text[pos..], LINE_SIZE - 1);
      var line := text[pos..][..n];
      NextChunk(text, pos);
      var e := ReadEntry(line);
      if e.Failure? {
        return e.status;
      }
      var index := FindTransaction(transactions, count, e.value.tid);
      if !(e.value.state == "pending" && index >= 0 && !transactions[index].committed) {
        target := target + line;
      }
      pos := pos + n;
    }
    NoChunk();
    assert text[pos..] == "" && target + "" == target;
    file.text := target;
    return Ok;
  }

  method InspectStartup(file: LogFile, missing: bool) returns (status: Status, decision: Decision)
    ensures (status, decision) == Inspect(Chunks(file.text), missing)
  {
    var valid: nat;
    decision := Clean;
    status, valid := file.VerifyFile();
    if status == ChecksumError || status == ParseError {
      return ProtectedMode, ProtectedReadOnly;
    }
    if status != Ok {
      return;
    }
    if valid == 0 {
      return Ok, Clean;
    }
    var transactions := new Tx[MAX_TRANSACTIONS](_ => Tx("", false, false));
    var count;
    status, count := ScanTransactions(file, transactions);
    if status != Ok {
      return ProtectedMode, ProtectedReadOnly;
    }
    var uncommitted := AnyUncommittedPending(transactions, count);
    if uncommitted {
      return RecoveryRequired, PendingRollback;
    }
    var committed := AnyCommitted(transactions, count);
    if committed && missing {
      return RecoveryRequired, CommittedMissingSnapshot;
    }
    return Ok, Clean;
  }

  method RecoverStartup(file: LogFile, missing: bool) returns (status: Status, decision: Decision)
    modifies file
    ensures var r := Recover(Chunks(old(file.text)), missing);
      && status == r.0 && decision == r.1
      && file.text == (if r.2 == Chunks(old(file.text)) then old(file.text) else Concat(r.2))
  {
    hide ScanLines, CompactLines;
    status, decision := InspectStartup(file, missing);
    if status == Ok || decision != PendingRollback {
      return;
    }
    var transactions := new Tx[MAX_TRANSACTIONS](_ => Tx("", false, false));
    var count;
    status, count := ScanTransactions(file, transactions);
    if status != Ok {
      return ProtectedMode, ProtectedReadOnly;
    }
    status := CompactUncommittedPending(file, transactions, count);
    ConcatOfChunks(old(file.text));
  }
}
