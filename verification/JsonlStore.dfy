/** The append-only line store of core/src/storage/bms_jsonl_store.c. A file is its text; a missing
    file behaves like an empty one in every function modelled here. */
module JsonlStore {
  import opened Status
  import opened Text
  import opened Record

  const LINE_SIZE := 8192

  // ---------------------------------------------------------------- reading with fgets

  /** The length of what one fgets call reads: through the first newline, at most LINE_SIZE - 1. */
  function ChunkLength(t: string, limit: nat): (n: nat)
    requires t != "" && limit > 0
    ensures 0 < n <= |t| && n <= limit
    ensures forall i :: 0 <= i < n - 1 ==> t[i] != '\n'
    ensures t[n - 1] == '\n' || n == limit || n == |t|
  {
    if t[0] == '\n' || limit == 1 || |t| == 1 then 1 else 1 + ChunkLength(t[1..], limit - 1)
  }

  /** All the reads of a file, in order. */
  function Chunks(t: string): seq<string>
    decreases |t|
  {
    if t == "" then [] else
    var n := ChunkLength(t, LINE_SIZE - 1);
    [t[..n]] + Chunks(t[n..])
  }

  lemma NoChunk()
    ensures Chunks("") == []
  {
  }

  /** The read at position pos and the reads behind it. */
  lemma NextChunk(t: string, pos: nat)
    requires pos < |t|
    ensures var n := ChunkLength(t[pos..], LINE_SIZE - 1);
      && Chunks(t[pos..]) == [t[pos..][..n]] + Chunks(t[pos + n..])
      && Chunks(t[pos..])[0] == t[pos..][..n] && Chunks(t[pos..])[1..] == Chunks(t[pos + n..])
  {
    hide ChunkLength;
    var n := ChunkLength(t[pos..], LINE_SIZE - 1);
    assert t[pos..][n..] == t[pos + n..];
  }

  function Concat(ls: seq<string>): string {
    if ls == [] then "" else ls[0] + Concat(ls[1..])
  }

  /** A read that a newline ends. */
  predicate IsLine(l: string) {
    && 0 < |l| < 8192
    && l[|l| - 1] == '\n'
    && forall i :: 0 <= i < |l| - 1 ==> l[i] != '\n'
  }

  predicate AreLines(ls: seq<string>) { forall i :: 0 <= i < |ls| ==> IsLine(ls[i]) }

  lemma ChunkIsLine(l: string, rest: string)
    requires IsLine(l)
    ensures ChunkLength(l + rest, LINE_SIZE - 1) == |l|
  {
    var t := l + rest;
    var n := ChunkLength(t, LINE_SIZE - 1);
    assert t[|l| - 1] == '\n' && t[..|l|] == l;
  }

  /** One fgets call reads one record. */
  lemma {:induction false} ChunksOfLines(ls: seq<string>)
    requires AreLines(ls)
    ensures Chunks(Concat(ls)) == ls
  {
    if ls != [] {
      hide ChunkLength;
      ChunkIsLine(ls[0], Concat(ls[1..]));
      var t := Concat(ls);
      assert t[..|ls[0]|] == ls[0] && t[|ls[0]|..] == Concat(ls[1..]);
      ChunksOfLines(ls[1..]);
    }
  }

  lemma {:induction false} ConcatAppend(ls: seq<string>, l: string)
    ensures Concat(ls + [l]) == Concat(ls) + l
  {
    if ls == [] {
      assert [l][1..] == [] && ls + [l] == [l];
      assert l + Concat([]) == l;
    } else {
      ConcatAppend(ls[1..], l);
      assert (ls + [l])[1..] == ls[1..] + [l];
    }
  }

  lemma {:induction false} ConcatOfChunks(t: string)
    ensures Concat(Chunks(t)) == t
    decreases |t|
  {
    if t != "" {
      hide ChunkLength;
      var n := ChunkLength(t, LINE_SIZE - 1);
      ConcatOfChunks(t[n..]);
      assert Chunks(t)[1..] == Chunks(t[n..]);
      assert t[..n] + t[n..] == t;
    }
  }

  // ---------------------------------------------------------------- what the operations compute

  function KeyOf(line: string): Outcome<string> { ExtractString(line, "idempotency_key", STRING_SIZE) }

  predicate ContainsKey(lines: seq<string>, key: string) {
    exists i :: 0 <= i < |lines| && KeyOf(lines[i]) == Success(key)
  }

  /** Status of bms_jsonl_verify_file: the first line that fails decides. */
  function VerifyLines(lines: seq<string>): Status {
    if lines == [] then Ok
    else if VerifyLine(lines[0]) != Ok then VerifyLine(lines[0])
    else VerifyLines(lines[1..])
  }

  /** The record as stored at the end of a file with these lines. */
  /** The status is that of the first line that does not verify. */
  lemma {:induction false} FirstFailureDecides(lines: seq<string>)
    ensures VerifyLines(lines) == Ok <==> forall i :: 0 <= i < |lines| ==> VerifyLine(lines[i]) == Ok
    ensures VerifyLines(lines) != Ok ==>
      exists i :: 0 <= i < |lines| && VerifyLines(lines) == VerifyLine(lines[i]) && forall j :: 0 <= j < i ==> VerifyLine(lines[j]) == Ok
  {
    hide VerifyLine;
    if lines != [] && VerifyLine(lines[0]) == Ok {
      var rest := lines[1..];
      FirstFailureDecides(rest);
      assert forall i :: 0 < i < |lines| ==> lines[i] == rest[i - 1];
      if VerifyLines(lines) != Ok {
        var i :| 0 <= i < |rest| && VerifyLines(lines) == VerifyLine(rest[i]) && forall j :: 0 <= j < i ==> VerifyLine(rest[j]) == Ok;
        assert VerifyLines(lines) == VerifyLine(lines[i + 1]);
      }
    }
  }

  function Stored(lines: seq<string>, r: Record): Record { r.(sequence := |lines| + 1, checksum := "") }

  /** bms_jsonl_append_record: the line that is appended, or the status it fails with. */
  function AppendedLine(lines: seq<string>, r: Record): Outcome<string> {
    if ContainsKey(lines, r.idempotencyKey) then Failure(DuplicateIdempotencyKey)
    else LineOf(Stored(lines, r), LINE_SIZE)
  }

  class LogFile {
    var text: string

    constructor ()
      ensures text == ""
    {
      text := "";
    }

    method NextSequence() returns (next: nat)
      ensures next == |Chunks(text)| + 1
    {
      hide ChunkLength, Chunks;
      next := 1;
      var pos := 0;
      assert text[0..] == text;
      while pos < |text|
        invariant pos <= |text|
        invariant next + |Chunks(text[pos..])| == |Chunks(text)| + 1
      {
        var n := ChunkLength(text[pos..], LINE_SIZE - 1);
        NextChunk(text, pos);
        pos, next := pos + n, next + 1;
      }
      NoChunk();
      assert text[pos..] == "";
    }

    method ContainsIdempotencyKey(key: string) returns (found: bool)
      ensures found <==> ContainsKey(Chunks(text), key)
    {
      hide ExtractString, ChunkLength, Chunks, KeyOf;
      var pos := 0;
      ghost var done: seq<string> := [];
      assert text[0..] == text;
      while pos < |text|
        invariant pos <= |text|
        invariant Chunks(text) == done + Chunks(text[pos..])
        invariant !ContainsKey(done, key)
      {
        var n := ChunkLength(text[pos..], LINE_SIZE - 1);
        var line := text[pos..][..n];
        NextChunk(text, pos);
        if KeyOf(line) == Success(key) {
          assert Chunks(text)[|done|] == line;
          return true;
        }
        done := done + [line];
        pos := pos + n;
      }
      NoChunk();
      assert text[pos..] == "" && Chunks(text) == done + [];
      assert Chunks(text) == done;
      return false;
    }

    method Append(r: Record) returns (status: Status)
      modifies this
      ensures match AppendedLine(Chunks(old(text)), r)
              case Success(line) => status == Ok && text == old(text) + line
              case Failure(s) => status == s && text == old(text)
    {
      hide Checksum, InsertChecksum, ContainsKey;
      var duplicate := ContainsIdempotencyKey(r.idempotencyKey);
      if duplicate {
        return DuplicateIdempotencyKey;
      }
      var sequence := NextSequence();
      var numbered := r.(sequence := sequence, checksum := "");
      var checksum := ComputeChecksum(numbered);
      if checksum.Failure? {
        return checksum.status;
      }
      var line := ToJsonLine(numbered.(checksum := checksum.value), LINE_SIZE);
      CanonicalWithoutChecksum(numbered.(checksum := checksum.value));
      if line.Failure? {
        return line.status;
      }
      text := text + line.value;
      return Ok;
    }

    method VerifyFile() returns (status: Status, valid: nat)
      ensures status == VerifyLines(Chunks(text))
      ensures status == Ok ==> valid == |Chunks(text)|
    {
      hide VerifyLine;
      var pos := 0;
      valid := 0;
      assert text[0..] == text;
      while pos < |text|
        invariant pos <= |text|
        invariant valid + |Chunks(text[pos..])| == |Chunks(text)|
        invariant VerifyLines(Chunks(text[pos..])) == VerifyLines(Chunks(text))
      {
        var n := ChunkLength(text[pos..], LINE_SIZE - 1);
        var line := text[pos..][..n];
        assert text[pos..][n..] == text[pos + n..];
        assert Chunks(text[pos..])[1..] == Chunks(text[pos + n..]);
        status := VerifyJsonLine(line);
        if status != Ok {
          return status, 0;
        }
        pos, valid := pos + n, valid + 1;
      }
      return Ok, valid;
    }
  }

  // ---------------------------------------------------------------- files written by appends

  /** A record whose line the verifier reads back. */
  predicate CleanRecord(r: Record) {
    PlainEnvelope(r) && Balanced(r.payload) && Hides(r.payload) && Fits(r) && '\n' !in r.payload
  }

  function Wire(r: Record): string { WireLine(r, Checksum(r)) }

  function LinesOf(recs: seq<Record>): (ls: seq<string>)
    ensures |ls| == |recs|
    ensures forall i :: 0 <= i < |recs| ==> ls[i] == Wire(recs[i])
  {
    seq(|recs|, i requires 0 <= i < |recs| => Wire(recs[i]))
  }

  predicate DistinctIdempotencyKeys(recs: seq<Record>) {
    forall i, j :: 0 <= i < j < |recs| ==> recs[i].idempotencyKey != recs[j].idempotencyKey
  }

  /** What appends leave behind: verifiable lines that fit the line buffer, with distinct keys. */
  predicate CleanLog(recs: seq<Record>) {
    && (forall i :: 0 <= i < |recs| ==> CleanRecord(recs[i]) && |Wire(recs[i])| < 8192)
    && DistinctIdempotencyKeys(recs)
  }

  lemma {:induction false} NoNewlineInFields(fs: seq<Field>)
    requires ValidNames(fs)
    ensures '\n' !in Fields(fs)
  {
    if fs != [] {
      NoNewlineInEscape(fs[0].value);
      NoNewlineInFields(fs[1..]);
    }
  }

  lemma WireIsLine(r: Record)
    requires CleanRecord(r) && |Wire(r)| < LINE_SIZE
    ensures IsLine(Wire(r))
  {
    hide Fields, Escape, Checksum, Balanced, Hides;
    NamesAreNames();
    HeadFieldNames(r);
    BackFieldNames(r, Checksum(r));
    NoNewlineInFields(HeadFields(r));
    NoNewlineInFields(BackFields(r, Checksum(r)));
    var body := Head(r) + r.payload + "," + Fields(BackFields(r, Checksum(r))) + Numbers(r);
    assert '\n' !in Head(r) && '\n' !in Numbers(r);
    assert '\n' !in body;
    assert Wire(r) == body + "\n";
  }

  lemma LogLines(recs: seq<Record>)
    requires CleanLog(recs)
    ensures AreLines(LinesOf(recs))
    ensures Chunks(Concat(LinesOf(recs))) == LinesOf(recs)
  {
    forall i | 0 <= i < |recs|
      ensures IsLine(LinesOf(recs)[i])
    {
      WireIsLine(recs[i]);
    }
    ChunksOfLines(LinesOf(recs));
  }

  lemma KeyOfWire(r: Record)
    requires CleanRecord(r)
    ensures KeyOf(Wire(r)) == Success(r.idempotencyKey)
  {
    hide Fields, ExtractString, Balanced, Hides, Numbers, Checksum;
    var rest := Key("payload") + r.payload + "," + Fields(BackFields(r, Checksum(r))) + Numbers(r) + "\n";
    assert Wire(r) == "{" + Fields(HeadFields(r)) + rest;
    ReadHeadField(r, 3, rest, STRING_SIZE);
  }

  lemma KeysInLog(recs: seq<Record>, key: string)
    requires CleanLog(recs)
    ensures ContainsKey(LinesOf(recs), key) <==> exists i :: 0 <= i < |recs| && recs[i].idempotencyKey == key
  {
    hide KeyOf, Wire, CleanRecord;
    var ls := LinesOf(recs);
    forall i | 0 <= i < |recs|
      ensures KeyOf(ls[i]) == Success(recs[i].idempotencyKey)
    {
      KeyOfWire(recs[i]);
    }
  }

  lemma WireVerifies(r: Record)
    requires CleanRecord(r)
    ensures VerifyLine(Wire(r)) == Ok
  {
    hide VerifyLine, Checksum, WireLine, Balanced, Hides;
    ChecksumShape(r);
    VerifyWireLine(r, Checksum(r));
    WireDef(r);
  }

  /** A file written by appends verifies. */
  lemma {:induction false} LogVerifies(recs: seq<Record>)
    requires CleanLog(recs)
    ensures VerifyLines(LinesOf(recs)) == Ok
  {
    hide Wire, VerifyLine, CleanRecord;
    if recs != [] {
      WireVerifies(recs[0]);
      LogVerifies(recs[1..]);
      assert LinesOf(recs)[1..] == LinesOf(recs[1..]);
    }
  }

  lemma WireDef(r: Record)
    ensures Wire(r) == WireLine(r, Checksum(r))
  {
  }

  /** The abstract append: refuse a used key or an overlong line, else number and add the record. */
  function Accept(recs: seq<Record>, r: Record): seq<Record> {
    if (exists i :: 0 <= i < |recs| && recs[i].idempotencyKey == r.idempotencyKey)
       || |Wire(r.(sequence := |recs| + 1, checksum := ""))| >= 8192
    then recs
    else recs + [r.(sequence := |recs| + 1, checksum := "")]
  }

  lemma StoredLine(n: nat, r: Record)
    requires CleanRecord(r) && n < ULL_MAX
    ensures var s := r.(sequence := n + 1, checksum := "");
      && CleanRecord(s)
      && LineOf(s, 8192) == (if |Wire(s)| >= 8192 then Failure(BufferTooSmall) else Success(Wire(s)))
  {
    hide Checksum, WireLine, InsertChecksum, Canonical, Balanced, Hides;
    var s := r.(sequence := n + 1, checksum := "");
    ChecksumShape(s);
    PrintedLine(s, Checksum(s));
    WireDef(s);
    BalancedEndsInBracket(r.payload);
  }

  /** The text append is the abstract append, and keeps the log clean. */
  lemma AppendAccepts(recs: seq<Record>, r: Record)
    requires CleanLog(recs) && CleanRecord(r) && |recs| < ULL_MAX
    ensures CleanLog(Accept(recs, r))
    ensures var a := AppendedLine(LinesOf(recs), r);
      if a.Success? then Concat(LinesOf(recs)) + a.value == Concat(LinesOf(Accept(recs, r)))
      else Accept(recs, r) == recs
  {
    hide Wire, CleanRecord, LineOf, ContainsKey, Concat, CleanLog, LinesOf;
    KeysInLog(recs, r.idempotencyKey);
    StoredLine(|recs|, r);
    var s := r.(sequence := |recs| + 1, checksum := "");
    LinesOfAppend(recs, s);
    ConcatAppend(LinesOf(recs), Wire(s));
    if Accept(recs, r) != recs {
      CleanLogGrows(recs, s);
    }
  }

  lemma CleanLogGrows(recs: seq<Record>, s: Record)
    requires CleanLog(recs) && CleanRecord(s) && |Wire(s)| < LINE_SIZE
    requires forall i :: 0 <= i < |recs| ==> recs[i].idempotencyKey != s.idempotencyKey
    ensures CleanLog(recs + [s])
  {
    hide Wire, CleanRecord;
  }

  lemma {:induction false} LinesOfAppend(recs: seq<Record>, r: Record)
    ensures LinesOf(recs + [r]) == LinesOf(recs) + [Wire(r)]
  {
    hide Wire;
    var a, b := LinesOf(recs + [r]), LinesOf(recs) + [Wire(r)];
    assert |a| == |b|;
    forall i | 0 <= i < |a|
      ensures a[i] == b[i]
    {
    }
  }
}