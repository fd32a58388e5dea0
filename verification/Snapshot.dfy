/** core/src/storage/bms_snapshot.c: the snapshot text with its checksum, writing it beside the old file and
    renaming, and verifying it. */
module Snapshot {
  import opened Status
  import opened Text
  import opened Record
  import JsonlStore
  import Sha256

  const BODY_SIZE := 8192
  const TEXT_SIZE := 9000

  datatype Snapshot = Snapshot(schemaVersion: int, generatedAt: string, sourceFiles: string, lastApplied: nat,
                               payload: string)

  /** build_snapshot_without_checksum. */
  function Body(s: Snapshot): string {
    "{" + Key("generated_at") + "\"" + s.generatedAt + "\"," + Key("last_applied_sequence") + Decimal(s.lastApplied)
    + "," + Key("payload") + s.payload + "," + Key("schema_version") + SignedDecimal(s.schemaVersion)
    + "," + Key("source_files") + s.sourceFiles + "}"
  }

  function Prefix(body: string): string
    requires body != ""
  {
    body[..|body| - 1]
  }

  /** checksum_snapshot. */
  function ChecksumOf(body: string): string { "sha256:" + Sha256.HexDigest(Bytes(body)) }

  function Ending(checksum: string): string { checksum + "\"}\n" }

  /** build_snapshot_with_checksum. */
  function WithChecksum(body: string): string
    requires body != ""
  {
    Prefix(body) + (CHECKSUM_TOKEN + Ending(ChecksumOf(body)))
  }

  /** The text of the new file, or the size that does not fit. */
  function TextOf(s: Snapshot): Outcome<string> {
    if |Body(s)| >= BODY_SIZE || |WithChecksum(Body(s))| >= TEXT_SIZE then Failure(BufferTooSmall)
    else Success(WithChecksum(Body(s)))
  }

  /** bms_snapshot_verify_file on the content of the file. */
  function VerifyContent(content: Option<string>): Status {
    if content.None? then IoError
    else if content.value == "" then ParseError
    else
      var line := content.value[..JsonlStore.ChunkLength(content.value, TEXT_SIZE - 1)];
      var at := Find(line, CHECKSUM_TOKEN);
      if at == -1 then ParseError
      else if at + 2 > BODY_SIZE then BufferTooSmall
      else
        var rest := line[at + |CHECKSUM_TOKEN|..];
        var end := Find(rest, "\"");
        if end == -1 then ParseError
        else if ChecksumOf(line[..at] + "}") == rest[..end] then Ok
        else ChecksumError
  }

  // ---------------------------------------------------------------- writing

  /** The snapshot file and the temporary file beside it. */
  datatype Disk = Disk(path: Option<string>, temp: Option<string>)

  /** The disk after the first k steps of a write: truncate the temporary file, put the text a character at
      a time, rename. */
  function AfterSteps(disk: Disk, text: string, k: nat): Disk {
    if k == 0 then disk
    else if k <= |text| + 1 then disk.(temp := Some(text[..k - 1]))
    else Disk(Some(text), None)
  }

  class SnapshotStore {
    var path: Option<string>
    var temp: Option<string>

    function View(): Disk
      reads this
    {
      Disk(path, temp)
    }

    method WriteAtomic(s: Snapshot) returns (status: Status)
      modifies this
      ensures TextOf(s).Success? ==>
        status == Ok && View() == AfterSteps(old(View()), TextOf(s).value, |TextOf(s).value| + 2)
      ensures TextOf(s).Failure? ==> status == TextOf(s).status && View() == old(View())
    {
      hide Body, WithChecksum;
      var text := TextOf(s);
      if text.Failure? {
        return text.status;
      }
      temp := Some("");
      var i := 0;
      while i < |text.value|
        invariant i <= |text.value| && path == old(path) && temp == Some(text.value[..i])
        invariant View() == AfterSteps(old(View()), text.value, i + 1)
      {
        temp := Some(temp.value + [text.value[i]]);
        assert text.value[..i + 1] == text.value[..i] + [text.value[i]];
        i := i + 1;
      }
      assert text.value[..i] == text.value;
      path, temp := temp, None;
      return Ok;
    }

    method VerifyFile() returns (status: Status)
      ensures status == VerifyContent(path)
    {
      hide ChecksumOf, Find;
      if path.None? {
        return IoError;
      }
      if path.value == "" {
        return ParseError;
      }
      var line := path.value[..JsonlStore.ChunkLength(path.value, TEXT_SIZE - 1)];
      var at := Find(line, CHECKSUM_TOKEN);
      if at == -1 {
        return ParseError;
      }
      if at + 2 > BODY_SIZE {
        return BufferTooSmall;
      }
      FoundInside(line, CHECKSUM_TOKEN);
      var rest := line[at + |CHECKSUM_TOKEN|..];
      var end := Find(rest, "\"");
      if end == -1 {
        return ParseError;
      }
      FoundInside(rest, "\"");
      return if ChecksumOf(line[..at] + "}") == rest[..end] then Ok else ChecksumError;
    }
  }

  lemma FoundInside(s: string, p: string)
    ensures Find(s, p) != -1 ==> 0 <= Find(s, p) && Find(s, p) + |p| <= |s|
  {
  }

  // ---------------------------------------------------------------- what is written verifies

  /** The token starts with a comma and has no other, so it cannot begin in the text before itself. */
  lemma TokenFirst(a: string, rest: string)
    requires Find(a, CHECKSUM_TOKEN) == -1
    ensures Find(a + (CHECKSUM_TOKEN + rest), CHECKSUM_TOKEN) == |a|
  {
    var p := CHECKSUM_TOKEN;
    var s := a + (p + rest);
    assert s[|a|..|a| + |p|] == p;
    forall j | 0 <= j < |a|
      ensures !OccursAt(s, p, j)
    {
      assert !OccursAt(a, p, j);
      assert j + |p| <= |a| ==> s[j..j + |p|] == a[j..j + |p|];
      if |a| < j + |p| <= |s| {
        OneComma(|a| - j);
        assert s[j..j + |p|][|a| - j] == s[|a|] == p[0];
      }
    }
    assert OccursAt(s, p, |a|);
  }

  lemma OneComma(t: nat)
    requires 0 < t < |CHECKSUM_TOKEN|
    ensures CHECKSUM_TOKEN[t] != CHECKSUM_TOKEN[0]
  {
  }

  lemma ChecksumIsPlain(body: string)
    ensures IsPlain(ChecksumOf(body))
  {
    hide Sha256.Digest, Sha256.HexOf;
    Sha256.HexOfIsHex(Sha256.Digest(Bytes(body)));
    HexIsPlain(Sha256.HexDigest(Bytes(body)));
  }

  lemma BodyEnd(s: Snapshot)
    ensures var b := Body(s); b != "" && b[|b| - 1] == '}'
  {
    hide Key, Decimal, SignedDecimal;
  }

  lemma NoNewlineInEnding(checksum: string)
    requires IsPlain(checksum)
    ensures var t := CHECKSUM_TOKEN + Ending(checksum);
      t != "" && t[|t| - 1] == '\n' && forall i :: 0 <= i < |t| - 1 ==> t[i] != '\n'
  {
    var t := CHECKSUM_TOKEN + Ending(checksum);
    assert t == CHECKSUM_TOKEN + checksum + "\"}\n";
    forall i | 0 <= i < |t| - 1
      ensures t[i] != '\n'
    {
      if |CHECKSUM_TOKEN| <= i < |CHECKSUM_TOKEN| + |checksum| {
        assert IsPlainChar(checksum[i - |CHECKSUM_TOKEN|]);
      }
    }
  }

  /** One fgets call reads a text whose only newline is its last character. */
  lemma ReadsWhole(t: string)
    requires t != "" && |t| < TEXT_SIZE && t[|t| - 1] == '\n' && forall i :: 0 <= i < |t| - 1 ==> t[i] != '\n'
    ensures JsonlStore.ChunkLength(t, TEXT_SIZE - 1) == |t|
  {
    hide JsonlStore.ChunkLength;
  }

  lemma WholeLineVerifies(body: string)
    requires body != "" && body[|body| - 1] == '}' && '\n' !in body && |body| < BODY_SIZE
      && |WithChecksum(body)| < TEXT_SIZE
    requires Find(Prefix(body), CHECKSUM_TOKEN) == -1
    ensures VerifyContent(Some(WithChecksum(body))) == Ok
  {
    hide Find, ChecksumOf, JsonlStore.ChunkLength;
    var t, checksum := WithChecksum(body), ChecksumOf(body);
    ChecksumIsPlain(body);
    NoNewlineInEnding(checksum);
    assert t[|t| - 1] == '\n';
    forall i | 0 <= i < |t| - 1
      ensures t[i] != '\n'
    {
      assert i < |Prefix(body)| ==> t[i] == body[i];
    }
    ReadsWhole(t);
    assert t[..|t|] == t;
    TokenFirst(Prefix(body), Ending(checksum));
    FindQuote(checksum, "}\n");
    assert Ending(checksum) == checksum + "\"" + "}\n";
    var at := |Prefix(body)|;
    assert t[at + |CHECKSUM_TOKEN|..] == Ending(checksum);
    assert t[..at] + "}" == body;
    assert Ending(checksum)[..|checksum|] == checksum;
  }

  /** A newline in the body ends the line that is read before any checksum. */
  lemma CutLineFails(body: string)
    requires body != "" && body[|body| - 1] == '}' && '\n' in body
    requires Find(Prefix(body), CHECKSUM_TOKEN) == -1
    ensures VerifyContent(Some(WithChecksum(body))) == ParseError
  {
    hide ChecksumOf;
    var t, n := WithChecksum(body), JsonlStore.ChunkLength(WithChecksum(body), TEXT_SIZE - 1);
    var i :| 0 <= i < |body| && body[i] == '\n';
    assert t[i] == '\n' && n <= i + 1;
    var line := t[..n];
    assert line == Prefix(body)[..n];
    forall j | 0 <= j <= |line|
      ensures !OccursAt(line, CHECKSUM_TOKEN, j)
    {
      assert j < |Prefix(body)| ==> !OccursAt(Prefix(body), CHECKSUM_TOKEN, j);
      assert j + |CHECKSUM_TOKEN| <= |line| ==> Prefix(body)[j..j + |CHECKSUM_TOKEN|] == line[j..j + |CHECKSUM_TOKEN|];
    }
  }

  /** What one read of the file sees: its first line, at most 8999 characters of it. */
  function FirstLine(t: string): string
    requires t != ""
  {
    t[..JsonlStore.ChunkLength(t, 8999)]
  }

  /** The checksum key stands at this place for the first time. */
  predicate KeyAt(line: string, at: nat) {
    && OccursAt(line, ",\"checksum\":\"", at)
    && forall j :: 0 <= j < at ==> !OccursAt(line, ",\"checksum\":\"", j)
  }

  /** Its value is the digest of what stands in front of it, closed by a brace. */
  predicate Matches(line: string, at: nat) {
    && at + 13 <= |line|
    && "sha256:" + Sha256.HexDigest(Bytes(line[..at] + "}")) + "\"" <= line[at + 13..]
  }

  lemma FindIsKey(line: string)
    ensures Find(line, CHECKSUM_TOKEN) >= -1
    ensures var r := Find(line, CHECKSUM_TOKEN);
      if r == -1 then forall at: nat :: !KeyAt(line, at) else forall at: nat :: KeyAt(line, at) <==> at == r
  {
    assert CHECKSUM_TOKEN == ",\"checksum\":\"" && |CHECKSUM_TOKEN| == 13;
    var r := Find(line, CHECKSUM_TOKEN);
    forall at: nat
      ensures KeyAt(line, at) <==> at == r
    {
      assert r >= 0 ==> OccursAt(line, CHECKSUM_TOKEN, r);
      assert (r == -1 && at < |line|) || at < r ==> !OccursAt(line, CHECKSUM_TOKEN, at);
    }
  }

  lemma QuotedPrefix(v: string, rest: string)
    requires IsPlain(v)
    ensures var end := Find(rest, "\""); v + "\"" <= rest <==> end >= 0 && rest[..end] == v
  {
    var end := Find(rest, "\"");
    if v + "\"" <= rest {
      assert rest == v + "\"" + rest[|v| + 1..];
      FindQuote(v, rest[|v| + 1..]);
    }
    if end >= 0 && rest[..end] == v {
      assert OccursAt(rest, "\"", end);
      assert rest == rest[..end] + rest[end..end + 1] + rest[end + 1..];
    }
  }

  /** What the verifier compares behind the key at this place. */
  predicate Agrees(line: string, at: nat)
    requires at + |CHECKSUM_TOKEN| <= |line|
  {
    var rest := line[at + |CHECKSUM_TOKEN|..];
    var end := Find(rest, "\"");
    end >= 0 && ChecksumOf(line[..at] + "}") == rest[..end]
  }

  lemma VerifyUnfolds(t: string)
    requires t != "" && |CHECKSUM_TOKEN| == 13
    ensures var line := FirstLine(t);
      var at := Find(line, CHECKSUM_TOKEN);
      && (at == -1 ==> VerifyContent(Some(t)) == ParseError)
      && (at > 8190 ==> VerifyContent(Some(t)) == BufferTooSmall)
      && (0 <= at <= 8190 && at + |CHECKSUM_TOKEN| <= |line| ==>
            VerifyContent(Some(t)) != BufferTooSmall && (VerifyContent(Some(t)) == Ok <==> Agrees(line, at)))
  {
    hide FindFrom, ChecksumOf, JsonlStore.ChunkLength, OccursAt;
  }

  lemma AgreesIsMatches(line: string, at: nat)
    requires at + |CHECKSUM_TOKEN| <= |line| && |CHECKSUM_TOKEN| == 13
    ensures Agrees(line, at) <==> Matches(line, at)
  {
    var body := line[..at] + "}";
    ChecksumIsPlain(body);
    QuotedPrefix(ChecksumOf(body), line[at + 13..]);
    hide Find, Sha256.HexDigest, Bytes;
  }

  /** The verifier accepts exactly a file whose first line carries its checksum behind at most 8190 characters. */
  lemma AcceptsExactly(t: string)
    requires t != ""
    ensures VerifyContent(Some(t)) == Ok <==>
      exists at: nat :: at <= 8190 && KeyAt(FirstLine(t), at) && Matches(FirstLine(t), at)
    ensures VerifyContent(Some(t)) == BufferTooSmall <==> exists at: nat :: at > 8190 && KeyAt(FirstLine(t), at)
  {
    hide *;
    var line := FirstLine(t);
    var at := Find(line, CHECKSUM_TOKEN);
    FindIsKey(line);
    TokenLength();
    VerifyUnfolds(t);
    if at >= 0 {
      assert KeyAt(line, at);
      KeyInLine(line, at);
      AgreesIsMatches(line, at);
    }
  }

  lemma TokenLength()
    ensures |CHECKSUM_TOKEN| == 13
  {
  }

  lemma KeyInLine(line: string, at: nat)
    requires KeyAt(line, at)
    ensures at + 13 <= |line| && |CHECKSUM_TOKEN| == 13
  {
  }

  /** A snapshot that is written and does not contain the checksum pattern verifies exactly when its texts
      hold no newline. */
  lemma SnapshotVerifies(s: Snapshot)
    requires TextOf(s).Success? && Find(Prefix(Body(s)), CHECKSUM_TOKEN) == -1
    ensures VerifyContent(Some(TextOf(s).value)) == if '\n' in Body(s) then ParseError else Ok
  {
    hide Body, VerifyContent, Find, WithChecksum;
    BodyEnd(s);
    if '\n' in Body(s) {
      CutLineFails(Body(s));
    } else {
      WholeLineVerifies(Body(s));
    }
  }

  /** The text of the five fields, in the order of their keys, without the closing brace. */
  function FieldsText(s: Snapshot): string {
    "{\"generated_at\":\"" + s.generatedAt + ("\",\"last_applied_sequence\":" + Decimal(s.lastApplied))
    + (",\"payload\":" + s.payload) + (",\"schema_version\":" + SignedDecimal(s.schemaVersion))
      + (",\"source_files\":" + s.sourceFiles)
  }

  lemma GeneratedAtKey()
    ensures "{" + Key("generated_at") + "\"" == "{\"generated_at\":\""
  {
  }

  lemma LastAppliedKey()
    ensures "\"," + Key("last_applied_sequence") == "\",\"last_applied_sequence\":"
  {
  }

  lemma OtherKeys()
    ensures "," + Key("payload") == ",\"payload\":"
    ensures "," + Key("schema_version") == ",\"schema_version\":"
  {
  }

  lemma SourceFilesKey()
    ensures "," + Key("source_files") == ",\"source_files\":"
  {
  }

  lemma AddField(front: string, comma: string, key: string, value: string)
    ensures front + comma + key + value == front + (comma + key + value)
  {
  }

  lemma BodyText(s: Snapshot)
    ensures Body(s) == FieldsText(s) + "}"
  {
    hide Decimal, SignedDecimal, Key;
    GeneratedAtKey();
    LastAppliedKey();
    OtherKeys();
    SourceFilesKey();
    var x0 := "{" + Key("generated_at") + "\"" + s.generatedAt;
    var f1, f2 := "\"," + Key("last_applied_sequence") + Decimal(s.lastApplied), "," + Key("payload") + s.payload;
    var f3, f4 := "," + Key("schema_version") + SignedDecimal(s.schemaVersion),
      "," + Key("source_files") + s.sourceFiles;
    AddField(x0, "\",", Key("last_applied_sequence"), Decimal(s.lastApplied));
    AddField(x0 + f1, ",", Key("payload"), s.payload);
    AddField(x0 + f1 + f2, ",", Key("schema_version"), SignedDecimal(s.schemaVersion));
    AddField(x0 + f1 + f2 + f3, ",", Key("source_files"), s.sourceFiles);
  }

  /** The text on disk: the five fields, and the digest of the object they make. */
  lemma SnapshotText(s: Snapshot)
    ensures var text := FieldsText(s)
      + (",\"checksum\":\"sha256:" + Sha256.HexDigest(Bytes(FieldsText(s) + "}")) + "\"}\n");
      TextOf(s) == if |FieldsText(s)| + 1 >= 8192 || |text| >= 9000 then Failure(BufferTooSmall) else Success(text)
  {
    BodyText(s);
    hide Sha256.HexDigest, Bytes, Body, FieldsText;
    assert Prefix(Body(s)) == FieldsText(s);
    var hex := Sha256.HexDigest(Bytes(FieldsText(s) + "}"));
    assert CHECKSUM_TOKEN + "sha256:" == ",\"checksum\":\"sha256:";
    assert CHECKSUM_TOKEN + Ending("sha256:" + hex) == CHECKSUM_TOKEN + "sha256:" + hex + "\"}\n";
  }

  /** Cut at any step of a write, the snapshot path holds the old content or the complete new one; with a
      verifying old snapshot and clean texts it verifies at every step. */
  lemma SnapshotAtEveryCut(disk: Disk, s: Snapshot, k: nat)
    requires TextOf(s).Success?
    ensures var r := AfterSteps(disk, TextOf(s).value, k);
      && (r.path == disk.path || r.path == Some(TextOf(s).value))
      && (Find(Prefix(Body(s)), CHECKSUM_TOKEN) == -1 && '\n' !in Body(s) && VerifyContent(disk.path) == Ok ==>
            VerifyContent(r.path) == Ok)
  {
    hide Body, VerifyContent, Find, WithChecksum;
    BodyEnd(s);
    if Find(Prefix(Body(s)), CHECKSUM_TOKEN) == -1 {
      SnapshotVerifies(s);
    }
  }
}
