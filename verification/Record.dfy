/** The record format of core/src/storage/bms_record.c: canonical text, checksum insertion and the
    line verifier. */
module Record {
  import opened Status
  import opened Text
  import Sha256

  datatype Record = Record(
    schemaVersion: int, sequence: nat, recordId: string, recordType: string, createdAt: string,
    actorId: string, correlationId: string, idempotencyKey: string, payload: string, checksum: string)

  // ---------------------------------------------------------------- canonical text

  function EscapeChar(c: char): string {
    if c == '"' then "\\\""
    else if c == '\\' then "\\\\"
    else if c == 8 as char then "\\b"
    else if c == 12 as char then "\\f"
    else if c == '\n' then "\\n"
    else if c == '\r' then "\\r"
    else if c == '\t' then "\\t"
    else if c < ' ' then ['\\', 'u', '0', '0', Sha256.HexDigit(c as nat / 16), Sha256.HexDigit(c as nat % 16)]
    else [c]
  }

  function Escape(s: string): string {
    if s == "" then "" else EscapeChar(s[0]) + Escape(s[1..])
  }

  function Quoted(s: string): string { "\"" + Escape(s) + "\"" }

  function Key(name: string): string { "\"" + name + "\":" }

  datatype Field = Field(name: string, value: string)

  /** A string field followed by a comma. */
  function FieldText(f: Field): string { Key(f.name) + Quoted(f.value) + "," }

  function Fields(fs: seq<Field>): string {
    if fs == [] then "" else FieldText(fs[0]) + Fields(fs[1..])
  }

  function HeadFields(r: Record): seq<Field> {
    [Field("actor_id", r.actorId), Field("correlation_id", r.correlationId),
     Field("created_at", r.createdAt), Field("idempotency_key", r.idempotencyKey)]
  }

  function TailFields(r: Record): seq<Field> {
    [Field("record_id", r.recordId), Field("record_type", r.recordType)]
  }

  /** Everything before the payload value. */
  function Head(r: Record): string { "{" + Fields(HeadFields(r)) + Key("payload") }

  function Numbers(r: Record): string {
    Key("schema_version") + SignedDecimal(r.schemaVersion) + "," + Key("sequence") + Decimal(r.sequence) + "}"
  }

  /** The keys in lexicographic order, the payload inserted raw, no checksum. */
  function Canonical(r: Record): string {
    Head(r) + r.payload + "," + Fields(TailFields(r)) + Numbers(r)
  }

  /** C characters as the bytes that are hashed. */
  function Bytes(s: string): seq<Sha256.Byte> {
    seq(|s|, i requires 0 <= i < |s| => (s[i] as int % 256) as Sha256.Byte)
  }

  function Checksum(r: Record): string { "sha256:" + Sha256.HexDigest(Bytes(Canonical(r))) }

  // ---------------------------------------------------------------- what the texts contain

  predicate IsName(s: string) {
    s != "" && forall i :: 0 <= i < |s| ==> ('a' <= s[i] <= 'z') || s[i] == '_'
  }

  predicate IsPlainChar(c: char) { c != '"' && c != '\\' && c >= ' ' }

  /** A string the printer emits unchanged. */
  predicate IsPlain(s: string) { forall i :: 0 <= i < |s| ==> IsPlainChar(s[i]) }

  lemma {:induction false} EscapePlain(s: string)
    requires IsPlain(s)
    ensures Escape(s) == s
  {
    if s != "" {
      EscapePlain(s[1..]);
    }
  }

  /** In escaped text every quotation mark stands behind a backslash. */
  predicate QuotesEscaped(e: string) {
    forall i :: 0 <= i < |e| && e[i] == '"' ==> i > 0 && e[i - 1] == '\\'
  }

  lemma {:induction false} EscapeHidesQuotes(s: string)
    ensures QuotesEscaped(Escape(s))
  {
    if s != "" {
      EscapeHidesQuotes(s[1..]);
      var a, b := EscapeChar(s[0]), Escape(s[1..]);
      assert Escape(s) == a + b;
      assert QuotesEscaped(a);
    }
  }

  lemma {:induction false} NoNewlineInEscape(s: string)
    ensures '\n' !in Escape(s)
  {
    if s != "" {
      NoNewlineInEscape(s[1..]);
      assert '\n' !in EscapeChar(s[0]);
    }
  }

  lemma KeyBlocked(k: string, name: string)
    requires IsName(k) && IsName(name) && k != name
    ensures Blocked(Key(k), Key(name))
  {
    var a, p := Key(k), Key(name);
    forall j | 0 <= j < |a|
      ensures Mismatch(a, p, j)
    {
      if j == 0 {
        var m := if |k| < |name| then |k| else |name|;
        if k[..m] == name[..m] {
          assert |k| != |name|;
          assert a[j + m + 1] != p[m + 1];
        } else {
          var i :| 0 <= i < m && k[i] != name[i];
          assert a[j + i + 1] != p[i + 1];
        }
      } else if j == |k| + 1 {
        assert a[j + 1] != p[1];
      } else {
        assert a[j + 0] != p[0];
      }
    }
  }

  /** A quoted string that is not followed by a colon hides every key. */
  lemma QuotedBlocked(v: string, after: char, name: string)
    requires IsName(name) && after != ':' && after != '"' && !('a' <= after <= 'z') && after != '_'
    ensures Blocked(Quoted(v) + [after], Key(name))
  {
    var e := Escape(v);
    EscapeHidesQuotes(v);
    var a, p := Quoted(v) + [after], Key(name);
    assert a == ['"'] + e + ['"', after];
    forall j | 0 <= j < |a|
      ensures Mismatch(a, p, j)
    {
      var q := j + |name| + 1;
      if a[j] != '"' {
        assert a[j + 0] != p[0];
      } else if q >= |a| - 1 {
        if q > |a| - 1 {
          assert a[j + (|a| - 1 - j)] != p[|a| - 1 - j];
        } else {
          assert a[j + |name| + 1] != p[|name| + 1];
        }
      } else if q == |a| - 2 {
        assert a[j + (|name| + 2)] != p[|name| + 2];
      } else if a[q] == '"' {
        assert e[q - 1] == '"' && e[q - 2] == '\\';
        assert a[j + |name|] != p[|name|];
      } else {
        assert a[j + (|name| + 1)] != p[|name| + 1];
      }
    }
  }

  predicate ValidNames(fs: seq<Field>) { forall i :: 0 <= i < |fs| ==> IsName(fs[i].name) }

  predicate Lacks(fs: seq<Field>, name: string) { forall i :: 0 <= i < |fs| ==> fs[i].name != name }

  lemma FieldBlocked(f: Field, name: string)
    requires IsName(f.name) && IsName(name) && f.name != name
    ensures Blocked(FieldText(f), Key(name))
  {
    KeyBlocked(f.name, name);
    QuotedBlocked(f.value, ',', name);
    BlockedConcat(Key(f.name), Quoted(f.value) + [','], Key(name));
    assert Key(f.name) + (Quoted(f.value) + [',']) == Key(f.name) + Quoted(f.value) + ",";
  }

  lemma {:induction false} FieldsBlocked(fs: seq<Field>, name: string)
    requires ValidNames(fs) && IsName(name) && Lacks(fs, name)
    ensures Blocked(Fields(fs), Key(name))
  {
    if fs != [] {
      hide FieldText, Key, Blocked;
      FieldBlocked(fs[0], name);
      FieldsBlocked(fs[1..], name);
      BlockedConcat(FieldText(fs[0]), Fields(fs[1..]), Key(name));
    } else {
      BlockedEmpty(Key(name));
    }
  }

  lemma BlockedEmpty(p: string)
    ensures Blocked("", p)
  {
  }

  lemma FieldsUnfold(fs: seq<Field>)
    ensures fs != [] ==> Fields(fs) == FieldText(fs[0]) + Fields(fs[1..])
    ensures Fields([]) == ""
  {
    hide FieldText;
  }

  lemma Assoc(a: string, b: string, c: string)
    ensures (a + b) + c == a + (b + c)
  {
  }

  lemma {:induction false} FieldsConcat(xs: seq<Field>, ys: seq<Field>)
    ensures Fields(xs + ys) == Fields(xs) + Fields(ys)
  {
    hide FieldText, Fields;
    FieldsUnfold(xs);
    if xs == [] {
      assert xs + ys == ys && "" + Fields(ys) == Fields(ys);
    } else {
      FieldsConcat(xs[1..], ys);
      FieldsUnfold(xs + ys);
      assert (xs + ys)[1..] == xs[1..] + ys && (xs + ys)[0] == xs[0];
      Assoc(FieldText(xs[0]), Fields(xs[1..]), Fields(ys));
    }
  }

  // ---------------------------------------------------------------- reading a line

  /** extract_json_string with a buffer of `size` bytes. */
  function ExtractString(line: string, name: string, size: nat): Outcome<string> {
    var pattern := StringPattern(name);
    var at := Find(line, pattern);
    if at == -1 then Failure(ParseError) else
    var rest := line[at + |pattern|..];
    var end := Find(rest, "\"");
    if end == -1 then Failure(ParseError)
    else if end + 1 > size then Failure(BufferTooSmall)
    else Success(rest[..end])
  }

  function ExtractPayload(line: string, size: nat): Outcome<string> {
    var pattern := Key("payload");
    var at := Find(line, pattern);
    if at == -1 then Failure(ParseError) else
    var rest := line[at + |pattern|..];
    var end := Find(rest, CHECKSUM_TOKEN);
    if end == -1 then Failure(ParseError)
    else if end + 1 > size then Failure(BufferTooSmall)
    else Success(rest[..end])
  }

  function ExtractInt(line: string, name: string): Outcome<int> {
    var at := Find(line, Key(name));
    if at == -1 then Failure(ParseError) else Success(Atoi(line[at + |Key(name)|..]))
  }

  function ExtractUll(line: string, name: string): Outcome<nat> {
    var at := Find(line, Key(name));
    if at == -1 then Failure(ParseError) else Success(StrToUll(line[at + |Key(name)|..]))
  }

  const CHECKSUM_TOKEN := ",\"checksum\":\""
  const PAYLOAD_SIZE := 4096
  const STRING_SIZE := 256
  const TIME_SIZE := 128
  const CHECKSUM_SIZE := 72

  /** The fields in the order bms_record_verify_json_line reads them. */
  function ReadRecord(line: string): Outcome<Record> {
    var schemaVersion :- ExtractInt(line, "schema_version");
    var sequence :- ExtractUll(line, "sequence");
    var recordId :- ExtractString(line, "record_id", STRING_SIZE);
    var recordType :- ExtractString(line, "record_type", STRING_SIZE);
    var createdAt :- ExtractString(line, "created_at", TIME_SIZE);
    var actorId :- ExtractString(line, "actor_id", STRING_SIZE);
    var correlationId :- ExtractString(line, "correlation_id", STRING_SIZE);
    var idempotencyKey :- ExtractString(line, "idempotency_key", STRING_SIZE);
    var payload :- ExtractPayload(line, PAYLOAD_SIZE);
    var checksum :- ExtractString(line, "checksum", CHECKSUM_SIZE);
    Success(Record(schemaVersion, sequence, recordId, recordType, createdAt, actorId, correlationId,
                   idempotencyKey, payload, checksum))
  }

  function VerifyLine(line: string): Status {
    match ReadRecord(line)
    case Failure(status) => status
    case Success(r) =>
      if r.payload == "" then InvalidArgument
      else if Checksum(r) == r.checksum then Ok else ChecksumError
  }

  lemma FindQuote(v: string, rest: string)
    requires IsPlain(v)
    ensures Find(v + "\"" + rest, "\"") == |v|
  {
    forall j | 0 <= j < |v|
      ensures Mismatch(v, "\"", j)
    {
      assert v[j + 0] != "\""[0];
    }
    FindAfterBlocked(v, "\"" + rest, "\"");
    assert v + "\"" + rest == v + ("\"" + rest);
  }

  /** What is searched for to find a string field. */
  function StringPattern(name: string): string { Key(name) + "\"" }

  lemma FieldTextParts(f: Field, more: string)
    ensures FieldText(f) + more == StringPattern(f.name) + (Escape(f.value) + "\"" + ("," + more))
  {
    hide Escape, Key;
    assert FieldText(f) == StringPattern(f.name) + (Escape(f.value) + "\"" + ",");
  }

  /** A field behind a prefix in which its key cannot start is found and read back. */
  lemma ExtractField(before: string, f: Field, rest: string, size: nat)
    requires Blocked(before, StringPattern(f.name)) && IsPlain(f.value)
    ensures ExtractString(before + FieldText(f) + rest, f.name, size) ==
      (if |f.value| + 1 > size then Failure(BufferTooSmall) else Success(f.value))
  {
    hide Key, FieldText, StringPattern, Escape;
    var pattern := StringPattern(f.name);
    EscapePlain(f.value);
    var line := before + FieldText(f) + rest;
    var tail := f.value + "\"" + ("," + rest);
    FieldTextParts(f, rest);
    assert line == before + (FieldText(f) + rest);
    assert (pattern + tail)[..|pattern|] == pattern;
    FindAfterBlocked(before, pattern + tail, pattern);
    assert line[|before| + |pattern|..] == tail;
    FindQuote(f.value, "," + rest);
    assert tail[..|f.value|] == f.value;
  }

  /** Field i of a run of fields is read back when its name does not stand before it. */
  lemma ExtractFromFields(before: string, fs: seq<Field>, i: nat, rest: string, size: nat)
    requires i < |fs| && ValidNames(fs) && Lacks(fs[..i], fs[i].name)
    requires Blocked(before, StringPattern(fs[i].name)) && IsPlain(fs[i].value)
    ensures ExtractString(before + Fields(fs) + rest, fs[i].name, size) ==
      (if |fs[i].value| + 1 > size then Failure(BufferTooSmall) else Success(fs[i].value))
  {
    hide FieldText, Key, Blocked, ExtractString, Fields;
    var f := fs[i];
    FieldsBlocked(fs[..i], f.name);
    BlockedLonger(Fields(fs[..i]), Key(f.name), "\"");
    BlockedConcat(before, Fields(fs[..i]), StringPattern(f.name));
    ExtractField(before + Fields(fs[..i]), f, Fields(fs[i + 1..]) + rest, size);
    FieldsSplit(fs, i);
    assert before + (Fields(fs[..i]) + FieldText(f) + Fields(fs[i + 1..])) + rest
        == before + Fields(fs[..i]) + FieldText(f) + (Fields(fs[i + 1..]) + rest);
  }

  lemma FieldsSplit(fs: seq<Field>, i: nat)
    requires i < |fs|
    ensures Fields(fs) == Fields(fs[..i]) + FieldText(fs[i]) + Fields(fs[i + 1..])
  {
    hide FieldText, Fields;
    FieldsConcat(fs[..i], fs[i..]);
    FieldsUnfold(fs[i..]);
    assert fs == fs[..i] + fs[i..];
    assert fs[i..][1..] == fs[i + 1..];
    Assoc(Fields(fs[..i]), FieldText(fs[i]), Fields(fs[i + 1..]));
  }

  lemma ExtractNumber(before: string, name: string, rest: string)
    requires Blocked(before, Key(name))
    ensures ExtractInt(before + Key(name) + rest, name) == Success(Atoi(rest))
    ensures ExtractUll(before + Key(name) + rest, name) == Success(StrToUll(rest))
  {
    var line := before + Key(name) + rest;
    assert line == before + (Key(name) + rest);
    assert (Key(name) + rest)[..|Key(name)|] == Key(name);
    FindAfterBlocked(before, Key(name) + rest, Key(name));
    assert line[|before| + |Key(name)|..] == rest;
  }

  // ---------------------------------------------------------------- inserting the checksum

  predicate IsOpen(c: char) { c == '{' || c == '[' }

  predicate IsClose(c: char) { c == '}' || c == ']' }

  /** The bracket scan from position k at the given depth; it ignores string context. */
  function ScanBrackets(text: string, k: nat, depth: int): (end: nat)
    requires k <= |text|
    ensures k <= end <= |text|
    decreases |text| - k
  {
    if k == |text| then k
    else if IsOpen(text[k]) then ScanBrackets(text, k + 1, depth + 1)
    else if IsClose(text[k]) then
      if depth - 1 == 0 then k + 1 else ScanBrackets(text, k + 1, depth - 1)
    else ScanBrackets(text, k + 1, depth)
  }

  /** The number of backslashes directly before position k, not looking before `low`. */
  function Backslashes(text: string, low: nat, k: nat): (n: nat)
    requires low <= k <= |text|
  {
    if k > low && text[k - 1] == '\\' then 1 + Backslashes(text, low, k - 1) else 0
  }

  function ScanString(text: string, low: nat, k: nat): (end: nat)
    requires low <= k <= |text|
    ensures k <= end <= |text|
    decreases |text| - k
  {
    if k == |text| then k
    else if text[k] == '"' && Backslashes(text, low, k) % 2 == 0 then k + 1
    else ScanString(text, low, k + 1)
  }

  function ScanScalar(text: string, k: nat): (end: nat)
    requires k <= |text|
    ensures k <= end <= |text|
    decreases |text| - k
  {
    if k == |text| || text[k] == ',' || text[k] == '}' then k else ScanScalar(text, k + 1)
  }

  function PayloadEnd(text: string, i: nat): (end: nat)
    requires i < |text|
    ensures i <= end <= |text|
  {
    if IsOpen(text[i]) then ScanBrackets(text, i, 0)
    else if text[i] == '"' then ScanString(text, i, i + 1)
    else ScanScalar(text, i)
  }

  // ---------------------------------------------------------------- payloads that are no objects

  lemma {:induction false} ScanSkips(text: string, low: nat, k: nat, m: nat)
    requires low <= k <= m <= |text| && forall j :: k <= j < m ==> text[j] != '"'
    ensures ScanString(text, low, k) == ScanString(text, low, m)
    decreases m - k
  {
    if k < m {
      ScanSkips(text, low, k + 1, m);
    }
  }

  /** One escaped character is passed over, and an even run of backslashes stands behind it again. */
  lemma ScanOverEscape(text: string, low: nat, k: nat, c: char, rest: string)
    requires low <= k <= |text| && text[k..] == EscapeChar(c) + rest && Backslashes(text, low, k) % 2 == 0
    ensures var m := k + |EscapeChar(c)|;
      m <= |text| && text[m..] == rest && Backslashes(text, low, m) % 2 == 0
      && ScanString(text, low, k) == ScanString(text, low, m)
  {
    var e := EscapeChar(c);
    assert forall j :: 0 <= j < |e| ==> text[k + j] == text[k..][j] == e[j];
    assert text[k + |e|..] == rest;
    if c == '"' {
      assert text[k] == '\\' && text[k + 1] == '"';
      assert Backslashes(text, low, k + 1) == 1 + Backslashes(text, low, k);
    } else {
      EscapeHasNoQuote(c);
      ScanSkips(text, low, k, k + |e|);
      if c == '\\' {
        assert Backslashes(text, low, k + 2) == 1 + Backslashes(text, low, k + 1) == 2 + Backslashes(text, low, k);
      } else {
        assert text[k + |e| - 1] != '\\';
      }
    }
  }

  lemma EscapeHasNoQuote(c: char)
    ensures c != '"' ==> forall j :: 0 <= j < |EscapeChar(c)| ==> EscapeChar(c)[j] != '"'
    ensures c != '\\' ==> EscapeChar(c)[|EscapeChar(c)| - 1] != '\\'
  {
    if c < ' ' {
      Sha256.DigitNibble(c as nat / 16);
      Sha256.DigitNibble(c as nat % 16);
    }
  }

  lemma {:induction false} ScanEscaped(text: string, low: nat, k: nat, v: string, rest: string)
    requires low <= k <= |text| && text[k..] == Escape(v) + ("\"" + rest) && Backslashes(text, low, k) % 2 == 0
    ensures ScanString(text, low, k) == k + |Escape(v)| + 1
    decreases |v|
  {
    if v == "" {
      assert text[k] == text[k..][0] == '"';
    } else {
      hide EscapeChar, ScanString, Backslashes;
      var tail := Escape(v[1..]) + ("\"" + rest);
      assert text[k..] == EscapeChar(v[0]) + tail;
      ScanOverEscape(text, low, k, v[0], tail);
      ScanEscaped(text, low, k + |EscapeChar(v[0])|, v[1..], rest);
    }
  }

  /** A string payload is passed whole, whatever its text. */
  lemma StringPayloadEnd(front: string, v: string, rest: string)
    ensures PayloadEnd(front + (Quoted(v) + rest), |front|) == |front + Quoted(v)|
  {
    var text, i := front + (Quoted(v) + rest), |front|;
    assert text[i] == Quoted(v)[0] == '"';
    assert Quoted(v) + rest == "\"" + (Escape(v) + ("\"" + rest));
    assert text[i + 1..] == Escape(v) + ("\"" + rest);
    hide Escape, ScanString;
    assert Backslashes(text, i, i + 1) == 0;
    ScanEscaped(text, i, i + 1, v, rest);
  }

  lemma {:induction false} ScalarEnd(text: string, k: nat, m: nat)
    requires k <= m <= |text| && (m == |text| || text[m] in ",}") && forall j :: k <= j < m ==> text[j] !in ",}"
    ensures ScanScalar(text, k) == m
    decreases m - k
  {
    if k < m {
      ScalarEnd(text, k + 1, m);
    }
  }

  /** A number, a truth value or null is passed up to the comma or brace behind it. */
  lemma ScalarPayloadEnd(front: string, v: string, rest: string)
    requires v != "" && !IsOpen(v[0]) && v[0] != '"' && (rest == "" || rest[0] in ",}")
    requires forall j :: 0 <= j < |v| ==> v[j] !in ",}"
    ensures PayloadEnd(front + (v + rest), |front|) == |front + v|
  {
    var text, i := front + (v + rest), |front|;
    assert forall j :: 0 <= j < |v| ==> text[i + j] == v[j];
    ScalarEnd(text, i, i + |v|);
  }

  const PAYLOAD_TOKEN := "," + Key("payload")

  function InsertChecksum(canonical: string, checksum: string): Outcome<string> {
    var at := Find(canonical, PAYLOAD_TOKEN);
    if at == -1 || at + |PAYLOAD_TOKEN| >= |canonical| then Failure(ParseError) else
    var end := PayloadEnd(canonical, at + |PAYLOAD_TOKEN|);
    var rest := if end < |canonical| && canonical[end] == ',' then end + 1 else end;
    Success(canonical[..end] + CHECKSUM_TOKEN + checksum + "\"" +
            (if rest < |canonical| then "," + canonical[rest..] else "}") + "\n")
  }

  /** bms_record_to_json_line with an output buffer of `size` bytes. */
  function LineOf(r: Record, size: nat): Outcome<string> {
    if size == 0 || r.payload == "" then Failure(InvalidArgument) else
    var line :- InsertChecksum(Canonical(r), if r.checksum == "" then Checksum(r) else r.checksum);
    if |line| + 1 > size then Failure(BufferTooSmall) else Success(line)
  }

  lemma InsertOrParseError(canonical: string, checksum: string)
    ensures InsertChecksum(canonical, checksum).Failure? ==> InsertChecksum(canonical, checksum).status == ParseError
  {
    hide Find, PayloadEnd;
  }

  /** Printing refuses its arguments exactly when there is no room or no payload. */
  lemma RefusesArguments(r: Record, size: nat)
    ensures LineOf(r, size) == Failure(InvalidArgument) <==> size == 0 || r.payload == ""
  {
    hide InsertChecksum, Canonical, Checksum;
    InsertOrParseError(Canonical(r), if r.checksum == "" then Checksum(r) else r.checksum);
  }

  /** A growing buffer of the string builder helpers. */
  class TextBuffer {
    var text: string

    constructor ()
      ensures text == ""
    {
      text := "";
    }

    method AppendRaw(s: string)
      modifies this
      ensures text == old(text) + s
    {
      text := text + s;
    }

    /** append_quoted_string. */
    method AppendQuoted(s: string)
      modifies this
      ensures text == old(text) + Quoted(s)
    {
      hide EscapeChar;
      AppendRaw("\"");
      var i := 0;
      while i < |s|
        invariant 0 <= i <= |s|
        invariant text + Escape(s[i..]) == old(text) + "\"" + Escape(s)
      {
        var before := text;
        AppendRaw(EscapeChar(s[i]));
        assert s[i..][0] == s[i] && s[i..][1..] == s[i + 1..];
        assert before + Escape(s[i..]) == text + Escape(s[i + 1..]);
        i := i + 1;
      }
      assert s[|s|..] == "" && text + "" == text;
      AppendRaw("\"");
      assert old(text) + "\"" + Escape(s) + "\"" == old(text) + Quoted(s);
    }

    method AppendField(prefix: string, name: string, value: string)
      modifies this
      ensures text == old(text) + (prefix + (Key(name) + Quoted(value)))
    {
      AppendRaw(prefix + Key(name));
      AppendQuoted(value);
    }
  }

  /** The source writes commas in front of fields, Fields writes them behind. */
  lemma CommasMove4(a: string, b: string, c: string, d: string, k: string)
    ensures "{" + a + ("," + b) + ("," + c) + ("," + d) + ("," + k) ==
            "{" + ((a + ",") + (b + ",") + (c + ",") + (d + ",")) + k
  {
  }

  lemma CommasMove2(start: string, a: string, b: string, m: string, n: string)
    ensures start + ("," + a) + ("," + b) + ("," + m) + ("," + n) + "}" ==
            start + "," + ((a + ",") + (b + ",")) + (m + "," + n + "}")
  {
  }

  method BuildHead(r: Record) returns (buf: TextBuffer)
    ensures fresh(buf) && buf.text == Head(r)
  {
    hide Quoted, Key, Fields;
    buf := new TextBuffer();
    buf.AppendRaw("{");
    buf.AppendField("", "actor_id", r.actorId);
    buf.AppendField(",", "correlation_id", r.correlationId);
    buf.AppendField(",", "created_at", r.createdAt);
    buf.AppendField(",", "idempotency_key", r.idempotencyKey);
    buf.AppendRaw("," + Key("payload"));
    FourFields(HeadFields(r));
    var a, b := Key("actor_id") + Quoted(r.actorId), Key("correlation_id") + Quoted(r.correlationId);
    var c, d := Key("created_at") + Quoted(r.createdAt), Key("idempotency_key") + Quoted(r.idempotencyKey);
    CommasMove4(a, b, c, d, Key("payload"));
    assert "" + a == a;
  }

  /** build_canonical_json_no_checksum. */
  method BuildCanonical(r: Record) returns (result: Outcome<string>)
    ensures result == if r.payload == "" then Failure(InvalidArgument) else Success(Canonical(r))
  {
    if r.payload == "" {
      return Failure(InvalidArgument);
    }
    hide Quoted, Key, Fields, Head, SignedDecimal, Decimal;
    var buf := BuildHead(r);
    buf.AppendRaw(r.payload);
    ghost var start := buf.text;
    buf.AppendField(",", "record_id", r.recordId);
    buf.AppendField(",", "record_type", r.recordType);
    buf.AppendRaw("," + (Key("schema_version") + SignedDecimal(r.schemaVersion)));
    buf.AppendRaw("," + (Key("sequence") + Decimal(r.sequence)));
    buf.AppendRaw("}");
    TwoFields(TailFields(r));
    CommasMove2(start, Key("record_id") + Quoted(r.recordId), Key("record_type") + Quoted(r.recordType),
                Key("schema_version") + SignedDecimal(r.schemaVersion), Key("sequence") + Decimal(r.sequence));
    JoinNumbers(Key("schema_version"), SignedDecimal(r.schemaVersion), Key("sequence"), Decimal(r.sequence));
    return Success(buf.text);
  }

  lemma JoinNumbers(a: string, b: string, c: string, d: string)
    ensures (a + b) + "," + (c + d) + "}" == a + b + "," + c + d + "}"
  {
  }

  lemma TwoFields(fs: seq<Field>)
    requires |fs| == 2
    ensures Fields(fs) == FieldText(fs[0]) + FieldText(fs[1])
  {
    hide FieldText;
    assert Fields(fs[1..]) == FieldText(fs[1]) + Fields(fs[1..][1..]);
    assert fs[1..][1..] == [];
  }

  lemma FourFields(fs: seq<Field>)
    requires |fs| == 4
    ensures Fields(fs) == FieldText(fs[0]) + FieldText(fs[1]) + FieldText(fs[2]) + FieldText(fs[3])
  {
    hide FieldText;
    FieldsConcat(fs[..2], fs[2..]);
    assert fs == fs[..2] + fs[2..];
    TwoFields(fs[..2]);
    TwoFields(fs[2..]);
  }

  /** The scans of bms_record_to_json_line for the end of the payload value. */
  method FindPayloadEnd(text: string, i: nat) returns (end: nat)
    requires i < |text|
    ensures end == PayloadEnd(text, i)
  {
    end := i;
    if IsOpen(text[i]) {
      var depth := 0;
      while end < |text|
        invariant i <= end <= |text|
        invariant ScanBrackets(text, end, depth) == ScanBrackets(text, i, 0)
      {
        if IsOpen(text[end]) {
          depth := depth + 1;
        } else if IsClose(text[end]) {
          depth := depth - 1;
          if depth == 0 {
            return end + 1;
          }
        }
        end := end + 1;
      }
    } else if text[i] == '"' {
      end := i + 1;
      while end < |text|
        invariant i < end <= |text|
        invariant ScanString(text, i, end) == ScanString(text, i, i + 1)
      {
        if text[end] == '"' {
          var bs, k := 0, end;
          while k > i && text[k - 1] == '\\'
            invariant i <= k <= end
            invariant bs + Backslashes(text, i, k) == Backslashes(text, i, end)
          {
            bs, k := bs + 1, k - 1;
          }
          if bs % 2 == 0 {
            return end + 1;
          }
        }
        end := end + 1;
      }
    } else {
      while end < |text| && text[end] != ',' && text[end] != '}'
        invariant i <= end <= |text|
        invariant ScanScalar(text, end) == ScanScalar(text, i)
      {
        end := end + 1;
      }
    }
  }

  method ComputeChecksum(r: Record) returns (result: Outcome<string>)
    ensures result == if r.payload == "" then Failure(InvalidArgument) else Success(Checksum(r))
  {
    var canonical := BuildCanonical(r);
    if canonical.Failure? {
      return canonical;
    }
    var hex := Sha256.Sha256Hex(Bytes(canonical.value));
    return Success("sha256:" + hex[..]);
  }

  method ToJsonLine(r: Record, size: nat) returns (result: Outcome<string>)
    ensures result == LineOf(r, size)
  {
    hide Canonical, Checksum, PayloadEnd;
    if size == 0 || r.payload == "" {
      return Failure(InvalidArgument);
    }
    var checksum := r.checksum;
    if checksum == "" {
      var computed := ComputeChecksum(r);
      checksum := computed.value;
    }
    var built := BuildCanonical(r);
    var canonical := built.value;
    var at := Find(canonical, PAYLOAD_TOKEN);
    if at == -1 {
      return Failure(ParseError);
    }
    var i := at + |PAYLOAD_TOKEN|;
    if i >= |canonical| {
      return Failure(ParseError);
    }
    var end := FindPayloadEnd(canonical, i);
    var rest := end;
    if rest < |canonical| && canonical[rest] == ',' {
      rest := rest + 1;
    }
    var out := canonical[..end] + CHECKSUM_TOKEN + checksum + "\"";
    if rest < |canonical| {
      out := out + ("," + canonical[rest..]);
    } else {
      out := out + "}";
    }
    out := out + "\n";
    if |out| + 1 > size {
      return Failure(BufferTooSmall);
    }
    return Success(out);
  }

  method VerifyJsonLine(line: string) returns (status: Status)
    ensures status == VerifyLine(line)
  {
    hide ReadRecord, Checksum;
    var read := ReadRecord(line);
    if read.Failure? {
      return read.status;
    }
    var computed := ComputeChecksum(read.value);
    if computed.Failure? {
      return computed.status;
    }
    return if computed.value == read.value.checksum then Ok else ChecksumError;
  }

  // ---------------------------------------------------------------- payloads

  /** Opening minus closing brackets. */
  function Balance(s: string): int {
    if s == "" then 0
    else Balance(s[..|s| - 1]) +
         (if IsOpen(s[|s| - 1]) then 1 else if IsClose(s[|s| - 1]) then -1 else 0)
  }

  /** A bracketed text whose first bracket is closed by its last character and not before. */
  predicate Balanced(p: string) {
    && p != ""
    && IsOpen(p[0])
    && Balance(p) == 0
    && forall i :: 0 < i < |p| ==> Balance(p[..i]) > 0
  }

  lemma {:induction false} ScanFindsEnd(before: string, p: string, rest: string, k: nat)
    requires Balanced(p) && k < |p|
    ensures ScanBrackets(before + p + rest, |before| + k, Balance(p[..k])) == |before| + |p|
    decreases |p| - k
  {
    var text := before + p + rest;
    assert text[|before| + k] == p[k];
    assert p[..k + 1][..k] == p[..k];
    if k + 1 < |p| {
      ScanFindsEnd(before, p, rest, k + 1);
    } else {
      assert p[..k + 1] == p;
    }
  }

  lemma BalancedEndsInBracket(p: string)
    requires Balanced(p)
    ensures |p| > 1 && IsClose(p[|p| - 1])
  {
    var before := p[..|p| - 1];
    assert |p| == 1 ==> before == "" && Balance(before) == 0;
    assert |p| > 1 ==> Balance(before) > 0;
  }

  /** The payload contains none of the patterns searched for behind it. */
  predicate Hides(p: string) {
    forall i :: 0 <= i < |p| ==>
      && !OccursAt(p, StringPattern("checksum"), i)
      && !OccursAt(p, StringPattern("record_id"), i)
      && !OccursAt(p, StringPattern("record_type"), i)
      && !OccursAt(p, Key("schema_version"), i)
      && !OccursAt(p, Key("sequence"), i)
  }

  predicate PlainEnvelope(r: Record) {
    && IsPlain(r.recordId) && IsPlain(r.recordType) && IsPlain(r.createdAt)
    && IsPlain(r.actorId) && IsPlain(r.correlationId) && IsPlain(r.idempotencyKey)
    && r.sequence <= ULL_MAX
  }

  /** The buffers of the verifier are large enough. */
  predicate Fits(r: Record) {
    && |r.recordId| < 256 && |r.recordType| < 256 && |r.createdAt| < 128
    && |r.actorId| < 256 && |r.correlationId| < 256 && |r.idempotencyKey| < 256
    && |r.payload| < 4096
  }

  /** The line with the checksum behind the payload. */
  function WireLine(r: Record, checksum: string): string {
    Head(r) + r.payload + "," + Fields([Field("checksum", checksum)] + TailFields(r)) + Numbers(r) + "\n"
  }

  lemma NamesAreNames()
    ensures IsName("actor_id") && IsName("correlation_id") && IsName("created_at") && IsName("idempotency_key")
    ensures IsName("payload") && IsName("checksum") && IsName("record_id") && IsName("record_type")
    ensures IsName("schema_version") && IsName("sequence")
  {
  }

  lemma HeadFieldNames(r: Record)
    ensures ValidNames(HeadFields(r)) && |HeadFields(r)| == 4
    ensures forall i :: 0 <= i < 4 ==> Lacks(HeadFields(r)[..i], HeadFields(r)[i].name)
    ensures forall name :: name in ["payload", "checksum", "record_id", "record_type", "schema_version", "sequence"]
              ==> Lacks(HeadFields(r), name)
  {
    NamesAreNames();
    assert "actor_id"[0] == 'a' && "correlation_id"[1] == 'o' && "created_at"[1] == 'r' && "idempotency_key"[0] == 'i';
  }

  predicate IsLater(name: string) {
    name in ["checksum", "record_id", "record_type", "schema_version", "sequence"]
  }

  lemma NoQuoteBlocked(s: string, p: string)
    requires p != "" && p[0] == '"' && '"' !in s
    ensures Blocked(s, p)
  {
    forall j | 0 <= j < |s|
      ensures Mismatch(s, p, j)
    {
      assert s[j + 0] != p[0];
    }
  }

  /** Before the fields behind the payload, their patterns cannot start. */
  lemma UpToPayloadBlocked(r: Record, name: string, ext: string)
    requires IsLater(name) && ext in ["", "\""] && Balanced(r.payload)
    requires forall i :: 0 <= i < |r.payload| ==> !OccursAt(r.payload, Key(name) + ext, i)
    ensures Blocked(Head(r) + r.payload + ",", Key(name) + ext)
  {
    var p := Key(name) + ext;
    NamesAreNames();
    HeadFieldNames(r);
    assert name[0] != 'p';
    HeadBlocked(r, name);
    BlockedLonger(Head(r), Key(name), ext);
    BalancedEndsInBracket(r.payload);
    PatternHasNoBracket(name, ext);
    BlockedByEnd(r.payload, p);
    NoQuoteBlocked(",", p);
    BlockedConcat(Head(r), r.payload, p);
    BlockedConcat(Head(r) + r.payload, ",", p);
  }

  lemma PatternHasNoBracket(name: string, ext: string)
    requires IsName(name) && ext in ["", "\""]
    ensures '}' !in Key(name) + ext && ']' !in Key(name) + ext
  {
  }

  lemma HeadBlocked(r: Record, name: string)
    requires IsName(name) && name != "payload" && Lacks(HeadFields(r), name)
    ensures Blocked(Head(r), Key(name))
  {
    NamesAreNames();
    HeadFieldNames(r);
    FieldsBlocked(HeadFields(r), name);
    KeyBlocked("payload", name);
    NoQuoteBlocked("{", Key(name));
    hide Blocked, Key, Fields;
    BlockedConcat("{", Fields(HeadFields(r)), Key(name));
    BlockedConcat("{" + Fields(HeadFields(r)), Key("payload"), Key(name));
  }

  // ---------------------------------------------------------------- the line of a record reads back

  /** The fields in front of the payload. */
  lemma ReadHeadField(r: Record, i: nat, rest: string, size: nat)
    requires PlainEnvelope(r) && i < 4
    ensures var f := HeadFields(r)[i];
      ExtractString("{" + Fields(HeadFields(r)) + rest, f.name, size) ==
        (if |f.value| + 1 > size then Failure(BufferTooSmall) else Success(f.value))
  {
    var f := HeadFields(r)[i];
    HeadFieldNames(r);
    NoQuoteBlocked("{", StringPattern(f.name));
    ExtractFromFields("{", HeadFields(r), i, rest, size);
  }

  /** The payload is read back between its key and the checksum token. */
  lemma ExtractPayloadFrom(before: string, p: string, rest: string, size: nat)
    requires Blocked(before, Key("payload")) && Blocked(p, CHECKSUM_TOKEN)
    ensures ExtractPayload(before + (Key("payload") + (p + (CHECKSUM_TOKEN + rest))), size) ==
      (if |p| + 1 > size then Failure(BufferTooSmall) else Success(p))
  {
    hide Find, Blocked, Key;
    var tail := p + (CHECKSUM_TOKEN + rest);
    var line := before + (Key("payload") + tail);
    assert (Key("payload") + tail)[..|Key("payload")|] == Key("payload");
    FindAfterBlocked(before, Key("payload") + tail, Key("payload"));
    assert line[|before| + |Key("payload")|..] == tail;
    assert (CHECKSUM_TOKEN + rest)[..|CHECKSUM_TOKEN|] == CHECKSUM_TOKEN;
    FindAfterBlocked(p, CHECKSUM_TOKEN + rest, CHECKSUM_TOKEN);
    assert tail[..|p|] == p;
  }

  lemma ReadPayload(r: Record, checksum: string, rest: string, size: nat)
    requires Balanced(r.payload) && Hides(r.payload)
    ensures ExtractPayload(Head(r) + r.payload + CHECKSUM_TOKEN + rest, size) ==
      (if |r.payload| + 1 > size then Failure(BufferTooSmall) else Success(r.payload))
  {
    NamesAreNames();
    HeadFieldNames(r);
    FieldsBlocked(HeadFields(r), "payload");
    NoQuoteBlocked("{", Key("payload"));
    PayloadHidesToken(r.payload);
    hide Blocked, Key, Fields, HeadFields, ExtractPayload, Balanced, Hides;
    var before := "{" + Fields(HeadFields(r));
    BlockedConcat("{", Fields(HeadFields(r)), Key("payload"));
    ExtractPayloadFrom(before, r.payload, rest, size);
    FiveParts(before, Key("payload"), r.payload, CHECKSUM_TOKEN, rest);
  }

  lemma FiveParts(a: string, b: string, c: string, d: string, e: string)
    ensures a + b + c + d + e == a + (b + (c + (d + e)))
  {
  }

  lemma PayloadHidesToken(p: string)
    requires Balanced(p) && Hides(p)
    ensures Blocked(p, CHECKSUM_TOKEN)
  {
    BalancedEndsInBracket(p);
    assert CHECKSUM_TOKEN == "," + StringPattern("checksum");
    NamesAreNames();
    PatternHasNoBracket("checksum", "\"");
    forall i | 0 <= i < |p|
      ensures !OccursAt(p, CHECKSUM_TOKEN, i)
    {
      if i + 1 < |p| {
        assert !OccursAt(p, StringPattern("checksum"), i + 1);
        assert i + |CHECKSUM_TOKEN| <= |p| ==>
            p[i..i + |CHECKSUM_TOKEN|][1..] == p[i + 1..i + 1 + |StringPattern("checksum")|];
      }
    }
    BlockedByEnd(p, CHECKSUM_TOKEN);
  }

  function BackFields(r: Record, checksum: string): seq<Field> { [Field("checksum", checksum)] + TailFields(r) }

  lemma BackFieldNames(r: Record, checksum: string)
    ensures ValidNames(BackFields(r, checksum)) && |BackFields(r, checksum)| == 3
    ensures forall i :: 0 <= i < 3 ==> IsLater(BackFields(r, checksum)[i].name)
    ensures forall i :: 0 <= i < 3 ==> Lacks(BackFields(r, checksum)[..i], BackFields(r, checksum)[i].name)
    ensures Lacks(BackFields(r, checksum), "schema_version") && Lacks(BackFields(r, checksum), "sequence")
  {
    NamesAreNames();
    assert "checksum"[0] == 'c' && "record_id"[7] == 'i' && "record_type"[7] == 't';
    assert "schema_version"[1] == 'c' && "sequence"[0] == 's';
  }

  lemma HidesBackField(r: Record, checksum: string, i: nat)
    requires Hides(r.payload) && i < 3
    ensures forall j :: 0 <= j < |r.payload| ==>
      !OccursAt(r.payload, Key(BackFields(r, checksum)[i].name) + "\"", j)
  {
    hide OccursAt, Key;
    var name := BackFields(r, checksum)[i].name;
    assert name == "checksum" || name == "record_id" || name == "record_type";
    assert StringPattern(name) == Key(name) + "\"";
  }

  /** The fields behind the payload, the checksum first. */
  lemma ReadBackField(r: Record, checksum: string, i: nat, rest: string, size: nat)
    requires PlainEnvelope(r) && Balanced(r.payload) && Hides(r.payload) && IsPlain(checksum) && i < 3
    ensures var f := BackFields(r, checksum)[i];
      ExtractString(Head(r) + r.payload + "," + Fields(BackFields(r, checksum)) + rest, f.name, size) ==
        (if |f.value| + 1 > size then Failure(BufferTooSmall) else Success(f.value))
  {
    hide Head, Fields, ExtractString, Blocked, Key;
    var f := BackFields(r, checksum)[i];
    BackFieldNames(r, checksum);
    HidesBackField(r, checksum, i);
    UpToPayloadBlocked(r, f.name, "\"");
    ExtractFromFields(Head(r) + r.payload + ",", BackFields(r, checksum), i, rest, size);
  }

  lemma ReadNumbers(r: Record, checksum: string)
    requires Balanced(r.payload) && Hides(r.payload) && r.sequence <= ULL_MAX
    ensures ExtractInt(WireLine(r, checksum), "schema_version") == Success(r.schemaVersion)
    ensures ExtractUll(WireLine(r, checksum), "sequence") == Success(r.sequence)
  {
    hide Head, Fields, ExtractInt, ExtractUll, Blocked, Key, SignedDecimal, Decimal, Atoi, StrToUll;
    BackFieldNames(r, checksum);
    NamesAreNames();
    var line := WireLine(r, checksum);
    var back := Fields(BackFields(r, checksum));
    var before := Head(r) + r.payload + "," + back;
    BeforeNumbersBlocked(r, checksum, "schema_version");
    BeforeNumbersBlocked(r, checksum, "sequence");
    var tail := "," + Key("sequence") + Decimal(r.sequence) + "}\n";
    assert line == before + Key("schema_version") + (SignedDecimal(r.schemaVersion) + tail);
    ExtractNumber(before, "schema_version", SignedDecimal(r.schemaVersion) + tail);
    AtoiOfSignedDecimal(r.schemaVersion, tail);

    var mid := Key("schema_version") + SignedDecimal(r.schemaVersion) + ",";
    VersionBlocked(r);
    BlockedConcat(before, mid, Key("sequence"));
    assert line == (before + mid) + Key("sequence") + (Decimal(r.sequence) + "}\n");
    ExtractNumber(before + mid, "sequence", Decimal(r.sequence) + "}\n");
    StrToUllOfDecimal(r.sequence, "}\n");
  }

  lemma BeforeNumbersBlocked(r: Record, checksum: string, name: string)
    requires Balanced(r.payload) && Hides(r.payload) && name in ["schema_version", "sequence"]
    ensures Blocked(Head(r) + r.payload + "," + Fields(BackFields(r, checksum)), Key(name))
  {
    assert Key(name) + "" == Key(name);
    UpToPayloadBlocked(r, name, "");
    BackFieldNames(r, checksum);
    NamesAreNames();
    FieldsBlocked(BackFields(r, checksum), name);
    BlockedConcat(Head(r) + r.payload + ",", Fields(BackFields(r, checksum)), Key(name));
  }

  lemma VersionBlocked(r: Record)
    ensures Blocked(Key("schema_version") + SignedDecimal(r.schemaVersion) + ",", Key("sequence"))
  {
    var p := Key("sequence");
    NamesAreNames();
    KeyBlocked("schema_version", "sequence");
    NoQuoteBlocked(SignedDecimal(r.schemaVersion), p);
    NoQuoteBlocked(",", p);
    BlockedConcat(Key("schema_version"), SignedDecimal(r.schemaVersion), p);
    BlockedConcat(Key("schema_version") + SignedDecimal(r.schemaVersion), ",", p);
  }

  /** What the verifier reads from a printed line: every field, or a buffer that is too small. */
  lemma ReadWireLine(r: Record, checksum: string)
    requires PlainEnvelope(r) && Balanced(r.payload) && Hides(r.payload) && IsPlain(checksum)
    ensures ReadRecord(WireLine(r, checksum)) ==
      (if Fits(r) && |checksum| < 72 then Success(r.(checksum := checksum)) else Failure(BufferTooSmall))
  {
    hide Fields, ExtractString, ExtractPayload, ExtractInt, ExtractUll, Key, Numbers, Hides, Balanced, IsPlain;
    var line := WireLine(r, checksum);
    ReadNumbers(r, checksum);
    var back := Fields(BackFields(r, checksum));
    var afterHead := Key("payload") + r.payload + "," + back + Numbers(r) + "\n";
    assert line == "{" + Fields(HeadFields(r)) + afterHead;
    ReadHeadField(r, 0, afterHead, STRING_SIZE);
    ReadHeadField(r, 1, afterHead, STRING_SIZE);
    ReadHeadField(r, 2, afterHead, TIME_SIZE);
    ReadHeadField(r, 3, afterHead, STRING_SIZE);
    assert line == Head(r) + r.payload + "," + back + (Numbers(r) + "\n");
    ReadBackField(r, checksum, 0, Numbers(r) + "\n", CHECKSUM_SIZE);
    ReadBackField(r, checksum, 1, Numbers(r) + "\n", STRING_SIZE);
    ReadBackField(r, checksum, 2, Numbers(r) + "\n", STRING_SIZE);
    var afterToken := PayloadFollowedByToken(r, checksum);
    ReadPayload(r, checksum, afterToken, PAYLOAD_SIZE);
  }

  lemma PayloadFollowedByToken(r: Record, checksum: string) returns (rest: string)
    requires IsPlain(checksum)
    ensures rest == checksum + "\"," + Fields(TailFields(r)) + Numbers(r) + "\n"
    ensures WireLine(r, checksum) == Head(r) + r.payload + CHECKSUM_TOKEN + rest
  {
    hide Head, Numbers, FieldText;
    var back := BackFields(r, checksum);
    assert back[1..] == TailFields(r);
    var tail := Fields(TailFields(r));
    rest := checksum + "\"," + tail + Numbers(r) + "\n";
    TokenText(checksum);
    TokenMoves(Head(r) + r.payload, FieldText(back[0]), CHECKSUM_TOKEN, checksum + "\",", tail, Numbers(r) + "\n");
    assert rest == (checksum + "\",") + tail + (Numbers(r) + "\n");
    assert Head(r) + r.payload + "," + (FieldText(back[0]) + tail) + (Numbers(r) + "\n") == WireLine(r, checksum);
  }

  lemma TokenText(checksum: string)
    requires IsPlain(checksum)
    ensures "," + FieldText(Field("checksum", checksum)) == CHECKSUM_TOKEN + (checksum + "\",")
  {
    EscapePlain(checksum);
    TokenIs();
    hide Key, Escape;
    Regroup(Key("checksum"), checksum);
  }

  lemma TokenIs()
    ensures CHECKSUM_TOKEN == "," + (Key("checksum") + "\"")
  {
  }

  lemma Regroup(key: string, value: string)
    ensures "," + (key + ("\"" + value + "\"") + ",") == "," + (key + "\"") + (value + "\",")
  {
    assert "\"," == "\"" + ",";
  }

  lemma TokenMoves(start: string, field: string, token: string, value: string, tail: string, end: string)
    requires "," + field == token + value
    ensures start + "," + (field + tail) + end == start + token + (value + tail + end)
  {
    assert start + "," + (field + tail) + end == start + ("," + field) + tail + end;
    assert start + token + (value + tail + end) == start + (token + value) + tail + end;
  }

  lemma {:induction false} HexIsPlain(h: string)
    requires Sha256.IsHex(h)
    ensures IsPlain(h)
  {
    forall i | 0 <= i < |h|
      ensures IsPlainChar(h[i])
    {
      assert h[i] in "0123456789abcdef";
    }
  }

  lemma ChecksumShape(r: Record)
    ensures IsPlain(Checksum(r)) && |Checksum(r)| == 71
  {
    hide Sha256.Digest, Canonical;
    var bytes := Bytes(Canonical(r));
    Sha256.HexOfIsHex(Sha256.Digest(bytes));
    HexIsPlain(Sha256.HexDigest(bytes));
  }

  /** A line that is read is accepted exactly when it carries a payload and the checksum of its own fields. */
  lemma AcceptsOwnChecksum(line: string)
    ensures VerifyLine(line) == Ok <==>
      ReadRecord(line).Success? && ReadRecord(line).value.payload != ""
      && ReadRecord(line).value.checksum == "sha256:" + Sha256.HexDigest(Bytes(Canonical(ReadRecord(line).value)))
    ensures ReadRecord(line).Success? ==> (VerifyLine(line) == InvalidArgument <==> ReadRecord(line).value.payload == "")
    ensures ReadRecord(line).Failure? ==> VerifyLine(line) == ReadRecord(line).status
  {
    hide ReadRecord, Sha256.HexDigest, Bytes, Canonical;
    NoReadIsOk(line);
  }

  lemma NoReadIsOk(line: string)
    ensures ReadRecord(line).Failure? ==> ReadRecord(line).status in {ParseError, BufferTooSmall}
  {
    hide Find, Atoi, StrToUll;
  }

  /** Verification of a printed line accepts exactly the matching checksum, once the buffers suffice. */
  lemma VerifyWireLine(r: Record, checksum: string)
    requires PlainEnvelope(r) && Balanced(r.payload) && Hides(r.payload) && IsPlain(checksum)
    ensures VerifyLine(WireLine(r, checksum)) ==
      if !Fits(r) || |checksum| >= 72 then BufferTooSmall
      else if checksum == Checksum(r) then Ok else ChecksumError
  {
    hide WireLine, ReadRecord, Sha256.HexDigest;
    ReadWireLine(r, checksum);
    assert Canonical(r.(checksum := checksum)) == Canonical(r);
  }

  /** The payload token is found at the payload of any record, whatever its strings contain. */
  lemma TokenPosition(r: Record, rest: string)
    ensures Find(Head(r) + rest, PAYLOAD_TOKEN) == |Head(r)| - |PAYLOAD_TOKEN|
  {
    NamesAreNames();
    HeadFieldNames(r);
    FieldsBlocked(HeadFields(r), "payload");
    NoQuoteBlocked("{", Key("payload"));
    BlockedConcat("{", Fields(HeadFields(r)), Key("payload"));
    FieldsEndInComma(HeadFields(r));
    TokenAfter("{" + Fields(HeadFields(r)), Key("payload"), rest);
    assert "{" + Fields(HeadFields(r)) + Key("payload") == Head(r);
  }

  lemma {:induction false} FieldsEndInComma(fs: seq<Field>)
    requires fs != []
    ensures Fields(fs) != "" && Fields(fs)[|Fields(fs)| - 1] == ','
  {
    if |fs| > 1 {
      FieldsEndInComma(fs[1..]);
    } else {
      assert Fields(fs[1..]) == "";
    }
  }

  lemma TokenAfter(a: string, key: string, rest: string)
    requires a != "" && a[|a| - 1] == ',' && Blocked(a, key)
    ensures Find(a + key + rest, "," + key) == |a| - 1
  {
    var text := a + key + rest;
    var token := "," + key;
    forall i | 0 <= i < |a| - 1
      ensures !OccursAt(text, token, i)
    {
      assert Mismatch(a, key, i + 1);
      var t :| 0 <= t < |key| && i + 1 + t < |a| && a[i + 1 + t] != key[t];
      assert text[i + 1 + t] != token[t + 1];
      assert i + |token| <= |text| ==> text[i..i + |token|][t + 1] == text[i + 1 + t];
    }
    assert text == a[..|a| - 1] + token + rest;
    assert text[|a| - 1..|a| - 1 + |token|] == token;
    assert OccursAt(text, token, |a| - 1);
  }

  lemma HeadIsLong(r: Record)
    ensures |Head(r)| >= |PAYLOAD_TOKEN|
  {
    hide FieldText;
    FieldsEndInComma(HeadFields(r));
  }

  /** The scan finds the exact end of a balanced payload, so the printer writes the wire line. */
  lemma PrintedLine(r: Record, checksum: string)
    requires Balanced(r.payload) && IsPlain(checksum)
    ensures InsertChecksum(Canonical(r), checksum) == Success(WireLine(r, checksum))
  {
    hide Head, Fields, Numbers, Find, Key, WireLine;
    var tail := Fields(TailFields(r)) + Numbers(r);
    var canonical := Canonical(r);
    var i := |Head(r)|;
    assert canonical == Head(r) + (r.payload + "," + tail);
    TokenPosition(r, r.payload + "," + tail);
    HeadIsLong(r);
    assert canonical == Head(r) + r.payload + ("," + tail);
    assert canonical[i] == r.payload[0];
    var end := i + |r.payload|;
    assert PayloadEnd(canonical, i) == end by {
      assert r.payload[..0] == "";
      ScanFindsEnd(Head(r), r.payload, "," + tail, 0);
    }
    assert canonical[..end] == Head(r) + r.payload;
    assert canonical[end] == ',' && canonical[end + 1..] == tail;
    assert tail != "" by { assert Numbers(r) != "" by { LastIsBrace(r); } }
    var rest := PayloadFollowedByToken(r, checksum);
    CloseLine(Head(r) + r.payload, CHECKSUM_TOKEN, checksum, Fields(TailFields(r)), Numbers(r));
  }

  lemma LastIsBrace(r: Record)
    ensures Numbers(r) != ""
  {
  }

  lemma CloseLine(start: string, token: string, checksum: string, fields: string, numbers: string)
    ensures start + token + checksum + "\"" + ("," + (fields + numbers)) + "\n"
         == start + token + (checksum + "\"," + fields + numbers + "\n")
  {
  }

  /** The record written by the store (its checksum computed on the way) verifies exactly when the
      verifier's buffers hold its fields. The printer has no such limit besides the line buffer. */
  lemma PlainRoundTrip(r: Record, size: nat)
    requires PlainEnvelope(r) && Balanced(r.payload) && Hides(r.payload) && r.checksum == ""
    requires LineOf(r, size).Success?
    ensures VerifyLine(LineOf(r, size).value) == (if Fits(r) then Ok else BufferTooSmall)
  {
    hide Canonical, Checksum, WireLine, InsertChecksum, VerifyLine;
    ChecksumShape(r);
    PrintedLine(r, Checksum(r));
    VerifyWireLine(r, Checksum(r));
  }

  /** Changing a printed record while keeping its checksum is detected unless the canonical texts
      have the same checksum. */
  lemma TamperedLine(r: Record, changed: Record)
    requires PlainEnvelope(changed) && Balanced(changed.payload) && Hides(changed.payload) && Fits(changed)
    ensures VerifyLine(WireLine(changed, Checksum(r))) == Ok <==> Checksum(changed) == Checksum(r)
  {
    hide Canonical, Checksum, WireLine, VerifyLine;
    ChecksumShape(r);
    VerifyWireLine(changed, Checksum(r));
  }

  // ---------------------------------------------------------------- the canonical text determines the record

  function HexDigitValue(c: char): Option<nat> {
    if '0' <= c <= '9' then Some(c as nat - '0' as nat)
    else if 'a' <= c <= 'f' then Some(c as nat - 'a' as nat + 10)
    else if 'A' <= c <= 'F' then Some(c as nat - 'A' as nat + 10)
    else None
  }

  /** One character of a string, section 7 of RFC 8259 (escapes up to U+00FF), and its length. */
  function DecodeChar(t: string): Option<(char, nat)> {
    if t == "" || t[0] == '"' || t[0] < ' ' then None
    else if t[0] != '\\' then Some((t[0], 1))
    else if |t| < 2 then None
    else if t[1] == '"' || t[1] == '\\' || t[1] == '/' then Some((t[1], 2))
    else if t[1] == 'b' then Some((8 as char, 2))
    else if t[1] == 'f' then Some((12 as char, 2))
    else if t[1] == 'n' then Some(('\n', 2))
    else if t[1] == 'r' then Some(('\r', 2))
    else if t[1] == 't' then Some(('\t', 2))
    else if t[1] == 'u' && |t| >= 6 && t[2] == '0' && t[3] == '0' then
      match (HexDigitValue(t[4]), HexDigitValue(t[5]))
      case (Some(h), Some(l)) => if h < 16 && l < 16 then Some(((h * 16 + l) as char, 6)) else None
      case _ => None
    else None
  }

  /** The characters up to the closing quotation mark, and the text behind it. */
  function DecodeString(t: string): Option<(string, string)>
    decreases |t|
  {
    if t == "" then None
    else if t[0] == '"' then Some(("", t[1..]))
    else
      match DecodeChar(t)
      case None => None
      case Some((c, n)) =>
        if n == 0 || n > |t| then None else
        match DecodeString(t[n..])
        case None => None
        case Some((s, rest)) => Some(([c] + s, rest))
  }

  lemma HexCharValue(n: nat)
    requires n < 16
    ensures HexDigitValue(Sha256.HexDigit(n)) == Some(n)
  {
    assert Sha256.HexDigit(n) == "0123456789abcdef"[n];
  }

  lemma DecodeEscapedChar(c: char, rest: string)
    ensures DecodeChar(EscapeChar(c) + rest) == Some((c, |EscapeChar(c)|))
  {
    if c < ' ' {
      HexCharValue(c as nat / 16);
      HexCharValue(c as nat % 16);
    }
  }

  /** Escaping is inverted by decoding, with whatever text behind the closing quotation mark. */
  lemma {:induction false} DecodeEscaped(s: string, rest: string)
    ensures DecodeString(Escape(s) + "\"" + rest) == Some((s, rest))
  {
    var t := Escape(s) + "\"" + rest;
    if s == "" {
      assert t[1..] == rest;
    } else {
      hide EscapeChar, DecodeChar;
      var e := EscapeChar(s[0]);
      var tail := Escape(s[1..]) + "\"" + rest;
      assert t == e + tail;
      DecodeEscapedChar(s[0], tail);
      EscapeStart(s[0], tail);
      assert t[|e|..] == tail;
      DecodeEscaped(s[1..], rest);
      assert [s[0]] + s[1..] == s;
    }
  }

  lemma EscapeStart(c: char, tail: string)
    ensures EscapeChar(c) != "" && EscapeChar(c)[0] != '"'
  {
  }

  lemma DecodedLength(t: string)
    ensures DecodeChar(t).Some? ==> |EscapeChar(DecodeChar(t).value.0)| <= DecodeChar(t).value.1
  {
  }

  /** No JSON string that decodes to a text is shorter than its escaped form. */
  lemma {:induction false} EscapeIsShortest(t: string)
    ensures DecodeString(t).Some? ==> var (s, rest) := DecodeString(t).value; |Escape(s)| + 1 + |rest| <= |t|
    decreases |t|
  {
    hide DecodeChar, EscapeChar;
    if DecodeString(t).Some? && t[0] != '"' {
      var (c, n) := DecodeChar(t).value;
      var (s, rest) := DecodeString(t[n..]).value;
      DecodedLength(t);
      EscapeIsShortest(t[n..]);
      assert ([c] + s)[1..] == s;
    }
  }

  function Strip(t: string, p: string): Option<string> {
    if p <= t then Some(t[|p|..]) else None
  }

  lemma StripPrefix(p: string, rest: string)
    ensures Strip(p + rest, p) == Some(rest)
  {
  }

  /** Reads string fields of the given names, each followed by a comma. */
  function ParseFields(t: string, names: seq<string>): Option<(seq<string>, string)>
    decreases |names|
  {
    if names == [] then Some(([], t)) else
    match Strip(t, StringPattern(names[0]))
    case None => None
    case Some(u) =>
      match DecodeString(u)
      case None => None
      case Some((v, w)) =>
        match Strip(w, ",")
        case None => None
        case Some(x) =>
          match ParseFields(x, names[1..])
          case None => None
          case Some((vs, rest)) => Some(([v] + vs, rest))
  }

  function Names(fs: seq<Field>): (ns: seq<string>)
    ensures |ns| == |fs|
  {
    if fs == [] then [] else [fs[0].name] + Names(fs[1..])
  }

  function Values(fs: seq<Field>): (vs: seq<string>)
    ensures |vs| == |fs|
    ensures forall i :: 0 <= i < |fs| ==> vs[i] == fs[i].value
  {
    if fs == [] then [] else [fs[0].value] + Values(fs[1..])
  }

  lemma {:induction false} ParseFieldsInverts(fs: seq<Field>, rest: string)
    ensures ParseFields(Fields(fs) + rest, Names(fs)) == Some((Values(fs), rest))
  {
    hide StringPattern, FieldText, Escape, DecodeString, Strip;
    if fs == [] {
      assert Fields(fs) + rest == rest;
    } else {
      var f := fs[0];
      var more := Fields(fs[1..]) + rest;
      FieldTextParts(f, more);
      assert Fields(fs) + rest == FieldText(f) + more;
      StripPrefix(StringPattern(f.name), Escape(f.value) + "\"" + ("," + more));
      DecodeEscaped(f.value, "," + more);
      StripPrefix(",", more);
      ParseFieldsInverts(fs[1..], rest);
      assert Names(fs)[1..] == Names(fs[1..]);
    }
  }

  /** A decimal number with an optional minus sign, and the text behind it. */
  function ParseNumber(t: string): (int, string) {
    if t != "" && t[0] == '-' then (-(LeadingNumber(t[1..]) as int), t[1..][DigitRun(t[1..])..])
    else (LeadingNumber(t), t[DigitRun(t)..])
  }

  lemma ParseNumberInverts(n: int, rest: string)
    requires rest == "" || !IsDigit(rest[0])
    ensures ParseNumber(SignedDecimal(n) + rest) == (n, rest)
  {
    hide LeadingNumber, Decimal;
    var t := SignedDecimal(n) + rest;
    if n < 0 {
      assert t[0] == '-' && t[1..] == Decimal(-n) + rest;
      LeadingNumberOfDecimal(-n, rest);
      DigitRunOfDigits(Decimal(-n), rest);
    } else {
      assert IsDigit(t[0]);
      LeadingNumberOfDecimal(n, rest);
      DigitRunOfDigits(Decimal(n), rest);
    }
  }

  /** The two numbers at the end. */
  function ParseNumbers(t: string): Option<(int, nat)> {
    match Strip(t, Key("schema_version"))
    case None => None
    case Some(u) =>
      var (version, v) := ParseNumber(u);
      match Strip(v, "," + Key("sequence"))
      case None => None
      case Some(w) =>
        var (sequence, end) := ParseNumber(w);
        if end == "}" && sequence >= 0 then Some((version, sequence)) else None
  }

  lemma ParseNumbersInverts(r: Record)
    ensures ParseNumbers(Numbers(r)) == Some((r.schemaVersion, r.sequence))
  {
    hide Key, SignedDecimal, Decimal, ParseNumber, Strip;
    var t := Numbers(r);
    var tail := Decimal(r.sequence) + "}";
    var mid := "," + Key("sequence") + tail;
    assert t == Key("schema_version") + (SignedDecimal(r.schemaVersion) + mid);
    StripPrefix(Key("schema_version"), SignedDecimal(r.schemaVersion) + mid);
    ParseNumberInverts(r.schemaVersion, mid);
    StripPrefix("," + Key("sequence"), tail);
    assert SignedDecimal(r.sequence) == Decimal(r.sequence) by { UnsignedSame(r.sequence); }
    ParseNumberInverts(r.sequence, "}");
  }

  lemma UnsignedSame(n: nat)
    ensures SignedDecimal(n) == Decimal(n)
  {
  }

  const HEAD_NAMES := ["actor_id", "correlation_id", "created_at", "idempotency_key"]
  const TAIL_NAMES := ["record_id", "record_type"]

  /** A reader of canonical text that undoes escaping; the payload is delimited by its brackets. */
  function ParseCanonical(t: string): Option<Record> {
    match Strip(t, "{")
    case None => None
    case Some(afterBrace) =>
      match ParseFields(afterBrace, HEAD_NAMES)
      case None => None
      case Some((head, atPayload)) =>
        match Strip(atPayload, Key("payload"))
        case None => None
        case Some(u) =>
          var end := ScanBrackets(u, 0, 0);
          match Strip(u[end..], ",")
          case None => None
          case Some(v) =>
            match ParseFields(v, TAIL_NAMES)
            case None => None
            case Some((tail, w)) =>
              match ParseNumbers(w)
              case None => None
              case Some((version, sequence)) =>
                if |head| == 4 && |tail| == 2 then
                  Some(Record(version, sequence, tail[0], tail[1], head[2], head[0], head[1], head[3], u[..end], ""))
                else None
  }

  lemma FieldNameLists(r: Record)
    ensures Names(HeadFields(r)) == HEAD_NAMES && Names(TailFields(r)) == TAIL_NAMES
  {
    var h := HeadFields(r);
    assert Names(h[3..]) == ["idempotency_key"];
    assert h[2..][1..] == h[3..] && h[1..][1..] == h[2..];
    assert Names(h[2..]) == ["created_at", "idempotency_key"];
    var t := TailFields(r);
    assert Names(t[1..]) == ["record_type"];
  }

  /** The canonical text can be read back completely. */
  lemma ParseInvertsCanonical(r: Record)
    requires Balanced(r.payload)
    ensures ParseCanonical(Canonical(r)) == Some(r.(checksum := ""))
  {
    hide Fields, Numbers, Key, Strip, ParseFields, ParseNumbers, Names, Balanced;
    FieldNameLists(r);
    BalancedEndsInBracket(r.payload);
    var tail := Fields(TailFields(r)) + Numbers(r);
    var u := r.payload + ("," + tail);
    var afterHead := Key("payload") + u;
    var t := Canonical(r);
    assert t == "{" + (Fields(HeadFields(r)) + afterHead);
    StripPrefix("{", Fields(HeadFields(r)) + afterHead);
    ParseFieldsInverts(HeadFields(r), afterHead);
    StripPrefix(Key("payload"), u);
    assert r.payload[..0] == "" && "" + r.payload + ("," + tail) == u;
    ScanFindsEnd("", r.payload, "," + tail, 0);
    assert u[..|r.payload|] == r.payload && u[|r.payload|..] == "," + tail;
    StripPrefix(",", tail);
    ParseFieldsInverts(TailFields(r), Numbers(r));
    ParseNumbersInverts(r);
  }

  lemma CanonicalWithoutChecksum(r: Record)
    ensures Canonical(r.(checksum := "")) == Canonical(r)
  {
  }

  /** The checksum input covers the whole record: equal canonical texts, equal records. */
  lemma CanonicalDeterminesRecord(r: Record, s: Record)
    requires Balanced(r.payload) && Balanced(s.payload)
    ensures Canonical(r) == Canonical(s) <==> r.(checksum := "") == s.(checksum := "")
  {
    hide ParseCanonical, Canonical;
    CanonicalWithoutChecksum(r);
    CanonicalWithoutChecksum(s);
    ParseInvertsCanonical(r);
    ParseInvertsCanonical(s);
  }

  // ---------------------------------------------------------------- which payloads survive

  /** If the scan stops exactly behind p, then p is balanced. */
  lemma {:induction false} ScanStopsAtBalanced(before: string, p: string, rest: string, k: nat)
    requires p != "" && IsOpen(p[0]) && rest != "" && k < |p|
    requires forall i :: 0 < i <= k ==> Balance(p[..i]) > 0
    requires ScanBrackets(before + p + rest, |before| + k, Balance(p[..k])) == |before| + |p|
    ensures Balanced(p)
    decreases |p| - k
  {
    var text := before + p + rest;
    assert text[|before| + k] == p[k];
    assert p[..k + 1][..k] == p[..k];
    assert p[..|p|] == p;
    assert k == 0 ==> p[..k] == "";
    if k + 1 < |p| {
      ScanStopsAtBalanced(before, p, rest, k + 1);
    } else {
      LastStep(text, |before| + |p|, Balance(p));
    }
  }

  /** Scanning on from a position moves at least one character further. */
  lemma LastStep(text: string, k: nat, depth: int)
    requires k < |text|
    ensures ScanBrackets(text, k, depth) > k
  {
  }

  lemma {:induction false} ScanStopsBehindBracket(text: string, k: nat, depth: int)
    requires k < |text| && IsClose(text[|text| - 1])
    ensures IsClose(text[ScanBrackets(text, k, depth) - 1])
    decreases |text| - k
  {
    if k + 1 < |text| {
      ScanStopsBehindBracket(text, k + 1, depth + 1);
      ScanStopsBehindBracket(text, k + 1, depth - 1);
      ScanStopsBehindBracket(text, k + 1, depth);
    }
  }

  lemma PayloadStart(r: Record, rest: string)
    ensures Find(Head(r) + rest, Key("payload")) == |Head(r)| - |Key("payload")|
  {
    NamesAreNames();
    HeadFieldNames(r);
    var before := "{" + Fields(HeadFields(r));
    FieldsBlocked(HeadFields(r), "payload");
    NoQuoteBlocked("{", Key("payload"));
    BlockedConcat("{", Fields(HeadFields(r)), Key("payload"));
    assert (Key("payload") + rest)[..|Key("payload")|] == Key("payload");
    FindAfterBlocked(before, Key("payload") + rest, Key("payload"));
    assert Head(r) + rest == before + (Key("payload") + rest);
  }

  /** What is read back ends at the first checksum token behind the payload's start. */
  lemma ReadsUpToToken(r: Record, rest: string, p: string)
    requires ExtractPayload(Head(r) + rest, |Head(r) + rest| + 1) == Success(p)
    ensures OccursAt(rest, CHECKSUM_TOKEN, |p|)
    ensures forall i :: 0 <= i < |p| ==> !OccursAt(rest, CHECKSUM_TOKEN, i)
  {
    hide Head;
    var line := Head(r) + rest;
    PayloadStart(r, rest);
    assert line[|Head(r)|..] == rest;
  }

  /** The checksum token stands neither earlier nor exactly at the end of p when the scan missed that end. */
  lemma MissedEnd(p: string, tail: string, end: nat, more: string)
    requires |tail| > 2 && tail[0] == ',' && tail[1] == '"' && tail[2] == 'r'
    requires 0 < end <= |p + tail| && end != |p| && IsClose((p + tail)[end - 1])
    ensures end < |p| ==> OccursAt((p + tail)[..end] + CHECKSUM_TOKEN + more, CHECKSUM_TOKEN, end)
    ensures end > |p| ==> !OccursAt((p + tail)[..end] + CHECKSUM_TOKEN + more, CHECKSUM_TOKEN, |p|)
  {
    var text := (p + tail)[..end] + CHECKSUM_TOKEN + more;
    assert text[end..end + |CHECKSUM_TOKEN|] == CHECKSUM_TOKEN;
    if end > |p| {
      assert end - 1 != |p| && end - 1 != |p| + 1;
      assert text[|p| + 2] == 'r' && CHECKSUM_TOKEN[2] == 'c';
      assert |p| + |CHECKSUM_TOKEN| <= |text| ==> text[|p|..|p| + |CHECKSUM_TOKEN|][2] == text[|p| + 2];
    }
  }

  /** The text behind the payload in canonical form. */
  function CanonicalTail(r: Record): string { "," + Fields(TailFields(r)) + Numbers(r) }

  lemma TailShape(r: Record)
    ensures var t := CanonicalTail(r);
      |t| > 2 && t[0] == ',' && t[1] == '"' && t[2] == 'r' && IsClose(t[|t| - 1])
    ensures Canonical(r) == Head(r) + (r.payload + CanonicalTail(r))
    ensures Canonical(r) == Head(r) + r.payload + CanonicalTail(r)
  {
    hide Head, Fields, FieldText, Numbers;
    FieldsUnfold(TailFields(r));
    FieldStart(TailFields(r)[0]);
    NumbersEnd(r);
    var f, rest, n := FieldText(TailFields(r)[0]), Fields(TailFields(r)[1..]), Numbers(r);
    TailOf(f, rest, n);
    FourParts(Head(r), r.payload, Fields(TailFields(r)), n);
  }

  lemma FieldStart(f: Field)
    requires f.name != ""
    ensures |FieldText(f)| >= 2 && FieldText(f)[0] == '"' && FieldText(f)[1] == f.name[0]
  {
    hide Quoted;
  }

  lemma NumbersEnd(r: Record)
    ensures Numbers(r) != "" && Numbers(r)[|Numbers(r)| - 1] == '}'
  {
    hide Key, SignedDecimal, Decimal;
  }

  lemma TailOf(f: string, rest: string, n: string)
    requires |f| >= 2 && n != ""
    ensures var t := "," + (f + rest) + n; |t| > 2 && t[0] == ',' && t[1] == f[0] && t[2] == f[1] && t[|t| - 1] == n[|n| - 1]
  {
  }

  lemma FourParts(head: string, payload: string, fields: string, n: string)
    ensures head + payload + "," + fields + n == head + (payload + ("," + fields + n))
    ensures head + payload + "," + fields + n == head + payload + ("," + fields + n)
  {
  }

  lemma ScanOfPayload(r: Record) returns (end: nat)
    requires r.payload != "" && IsOpen(r.payload[0])
    ensures |Head(r)| < |Canonical(r)| && PayloadEnd(Canonical(r), |Head(r)|) == |Head(r)| + end
    ensures 0 < end <= |r.payload + CanonicalTail(r)|
    ensures end == |r.payload| ==> Balanced(r.payload)
    ensures IsClose((r.payload + CanonicalTail(r))[end - 1])
  {
    hide Head, CanonicalTail, Canonical, Balanced;
    var p, tail, i := r.payload, CanonicalTail(r), |Head(r)|;
    TailShape(r);
    var canonical := Canonical(r);
    assert canonical[i] == p[0];
    var stop := PayloadEnd(canonical, i);
    ScanStopsBehindBracket(canonical, i, 0);
    LastStep(canonical, i, 0);
    end := stop - i;
    if end == |p| {
      assert p[..0] == "";
      ScanStopsAtBalanced(Head(r), p, tail, 0);
    }
  }

  lemma CutLine(canonical: string, head: string, body: string, end: nat, checksum: string, x: string)
    requires canonical == head + body && end <= |body|
    ensures canonical[..|head| + end] + CHECKSUM_TOKEN + checksum + "\"" + x + "\n" ==
            head + (body[..end] + CHECKSUM_TOKEN + (checksum + "\"" + x + "\n"))
  {
  }

  /** Where the checksum goes when the payload is in brackets. */
  lemma InsertionPoint(r: Record, checksum: string) returns (end: nat, more: string)
    requires r.payload != "" && IsOpen(r.payload[0])
    ensures 0 < end <= |r.payload + CanonicalTail(r)|
    ensures end == |r.payload| ==> Balanced(r.payload)
    ensures IsClose((r.payload + CanonicalTail(r))[end - 1])
    ensures InsertChecksum(Canonical(r), checksum) ==
      Success(Head(r) + ((r.payload + CanonicalTail(r))[..end] + CHECKSUM_TOKEN + more))
  {
    hide Head, Key, Find, CanonicalTail, Canonical, Balanced, PayloadEnd;
    TailShape(r);
    end := ScanOfPayload(r);
    TokenPosition(r, r.payload + CanonicalTail(r));
    HeadIsLong(r);
    var canonical := Canonical(r);
    var stop := |Head(r)| + end;
    var rest := if stop < |canonical| && canonical[stop] == ',' then stop + 1 else stop;
    var x := if rest < |canonical| then "," + canonical[rest..] else "}";
    CutLine(canonical, Head(r), r.payload + CanonicalTail(r), end, checksum, x);
    more := checksum + "\"" + x + "\n";
  }
}
