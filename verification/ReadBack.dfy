/** Exactly which records the line reader of core/src/storage/bms_record.c gives back: it undoes no escape
    and takes the first occurrence of every key, wherever that stands. */
module ReadBack {
  import opened Status
  import opened Text
  import opened Record

  // ---------------------------------------------------------------- one string field

  lemma EscapeGrows(s: string)
    ensures |Escape(s)| >= |s| && (|Escape(s)| == |s| <==> IsPlain(s))
  {
    if s != "" {
      hide EscapeChar;
      EscapeGrows(s[1..]);
      EscapeCharGrows(s[0]);
      assert s == [s[0]] + s[1..];
      assert IsPlain(s) <==> IsPlainChar(s[0]) && IsPlain(s[1..]);
    }
  }

  lemma EscapeCharGrows(c: char)
    ensures |EscapeChar(c)| >= 1 && (|EscapeChar(c)| == 1 <==> IsPlainChar(c))
    ensures c != '"' ==> '"' !in EscapeChar(c)
  {
  }

  lemma {:induction false} NoNewQuotes(s: string)
    requires '"' !in s
    ensures '"' !in Escape(s)
  {
    if s != "" {
      hide EscapeChar;
      EscapeCharGrows(s[0]);
      assert s[0] in s && forall c :: c in s[1..] ==> c in s;
      NoNewQuotes(s[1..]);
    }
  }

  /** What stands in front of the first quotation mark is the value exactly when nothing was escaped. */
  lemma FirstQuote(s: string, rest: string)
    ensures var text := Escape(s) + "\"" + rest;
      && 0 <= Find(text, "\"") <= |Escape(s)|
      && (text[..Find(text, "\"")] == s <==> IsPlain(s))
  {
    hide Escape, EscapeChar;
    var e := Escape(s);
    var text := e + "\"" + rest;
    var end := Find(text, "\"");
    assert text[|e|..|e| + 1] == "\"";
    assert OccursAt(text, "\"", |e|);
    EscapeGrows(s);
    if IsPlain(s) {
      EscapePlain(s);
      FindQuote(s, rest);
    } else if '"' in s {
      QuoteFree(text, end);
    } else {
      NoNewQuotes(s);
      assert end == |e| by {
        assert OccursAt(text, "\"", end);
        assert text[end] == '"';
      }
      assert text[..end] == e;
    }
  }

  lemma QuoteFree(text: string, end: int)
    requires end == Find(text, "\"") >= 0
    ensures '"' !in text[..end]
  {
    forall i | 0 <= i < end
      ensures text[i] != '"'
    {
      assert !OccursAt(text, "\"", i);
      assert text[i..i + 1] == [text[i]];
    }
  }

  /** The text up to the next quotation mark. */
  function UpToQuote(rest: string, size: nat): Outcome<string> {
    var end := Find(rest, "\"");
    if end == -1 then Failure(ParseError)
    else if end + 1 > size then Failure(BufferTooSmall)
    else Success(rest[..end])
  }

  lemma ExtractIs(line: string, name: string, size: nat, at: nat, rest: string)
    requires Find(line, StringPattern(name)) == at && line[at + |StringPattern(name)|..] == rest
    ensures ExtractString(line, name, size) == UpToQuote(rest, size)
  {
    hide StringPattern;
  }

  /** Behind a prefix in which its key cannot start, a field is read from its escaped value on. */
  lemma ExtractEscaped(before: string, f: Field, rest: string, size: nat)
    requires Blocked(before, StringPattern(f.name))
    ensures ExtractString(before + FieldText(f) + rest, f.name, size) == UpToQuote(Escape(f.value) + "\"" + ("," + rest), size)
  {
    hide Key, FieldText, StringPattern, Escape, UpToQuote, ExtractString, Find, Blocked;
    var pattern := StringPattern(f.name);
    var line := before + FieldText(f) + rest;
    var tail := Escape(f.value) + "\"" + ("," + rest);
    FieldTextParts(f, rest);
    assert line == before + (FieldText(f) + rest);
    assert (pattern + tail)[..|pattern|] == pattern;
    FindAfterBlocked(before, pattern + tail, pattern);
    assert line[|before| + |pattern|..] == tail;
    ExtractIs(line, f.name, size, |before|, tail);
  }

  /** A printed string field reads back as itself exactly when its value needs no escape and fits the buffer. */
  lemma FieldReadsBack(before: string, f: Field, rest: string, size: nat)
    requires Blocked(before, StringPattern(f.name))
    ensures ExtractString(before + FieldText(f) + rest, f.name, size) == Success(f.value) <==>
      IsPlain(f.value) && |f.value| < size
  {
    ExtractEscaped(before, f, rest, size);
    FirstQuote(f.value, "," + rest);
    hide Escape, Blocked, StringPattern, FieldText, ExtractString, Find;
    EscapeGrows(f.value);
    if IsPlain(f.value) {
      EscapePlain(f.value);
      FindQuote(f.value, "," + rest);
    }
  }

  /** So it is with each field of a list, whatever the values before it. */
  lemma FieldOfListReadsBack(before: string, fs: seq<Field>, i: nat, rest: string, size: nat)
    requires i < |fs| && ValidNames(fs) && Lacks(fs[..i], fs[i].name) && Blocked(before, StringPattern(fs[i].name))
    ensures ExtractString(before + Fields(fs) + rest, fs[i].name, size) == Success(fs[i].value) <==>
      IsPlain(fs[i].value) && |fs[i].value| < size
  {
    hide FieldText, Key, Blocked, ExtractString, Fields;
    var f := fs[i];
    FieldsBlocked(fs[..i], f.name);
    BlockedLonger(Fields(fs[..i]), Key(f.name), "\"");
    BlockedConcat(before, Fields(fs[..i]), StringPattern(f.name));
    FieldReadsBack(before + Fields(fs[..i]), f, Fields(fs[i + 1..]) + rest, size);
    FieldsSplit(fs, i);
    assert before + (Fields(fs[..i]) + FieldText(f) + Fields(fs[i + 1..])) + rest
        == before + Fields(fs[..i]) + FieldText(f) + (Fields(fs[i + 1..]) + rest);
  }

  /** The fields in front of the payload: actor, correlation, time and idempotency key. */
  lemma HeadFieldReadsBack(r: Record, i: nat, rest: string, size: nat)
    requires i < 4
    ensures var f := HeadFields(r)[i];
      ExtractString("{" + Fields(HeadFields(r)) + rest, f.name, size) == Success(f.value) <==> IsPlain(f.value) && |f.value| < size
  {
    HeadFieldNames(r);
    NoQuoteBlocked("{", StringPattern(HeadFields(r)[i].name));
    FieldOfListReadsBack("{", HeadFields(r), i, rest, size);
  }

  lemma {:induction false} EscapeConcat(a: string, b: string)
    ensures Escape(a + b) == Escape(a) + Escape(b)
  {
    hide EscapeChar;
    if a == "" {
      assert a + b == b;
    } else {
      EscapeConcat(a[1..], b);
      assert (a + b)[0] == a[0] && (a + b)[1..] == a[1..] + b;
    }
  }

  lemma EscapeQuote(v: string, w: string)
    requires IsPlain(v)
    ensures Escape(v + ("\"" + w)) == v + "\\" + "\"" + Escape(w)
  {
    EscapeConcat(v, "\"" + w);
    EscapePlain(v);
    assert ("\"" + w)[0] == '"' && ("\"" + w)[1..] == w;
    assert EscapeChar('"') == "\\" + "\"";
  }

  lemma AroundQuote(v: string, b: string, q: string, e: string, c: string)
    ensures (v + b + q + e) + q + c == (v + b) + q + (e + q + c)
  {
  }

  /** A field with a quotation mark is read up to it, a backslash in its place. */
  lemma QuoteCutsField(before: string, f: Field, rest: string, v: string, w: string, size: nat)
    requires Blocked(before, StringPattern(f.name)) && f.value == v + ("\"" + w) && IsPlain(v)
    ensures ExtractString(before + FieldText(f) + rest, f.name, size) ==
      if |v| + 2 > size then Failure(BufferTooSmall) else Success(v + "\\")
  {
    ExtractEscaped(before, f, rest, size);
    EscapeQuote(v, w);
    hide Escape, Blocked, StringPattern, FieldText, ExtractString, Find;
    var more := Escape(w) + "\"" + ("," + rest);
    AroundQuote(v, "\\", "\"", Escape(w), "," + rest);
    var u := v + "\\";
    NoQuoteBefore(u, more);
    Behind(u, "\"" + more);
    assert u + "\"" + more == u + ("\"" + more);
  }

  /** An actor with a quotation mark in the name is read back as someone else. */
  lemma QuotedActor(r: Record, rest: string, v: string, w: string)
    requires r.actorId == v + ("\"" + w) && IsPlain(v) && |v| + 1 < 256
    ensures ExtractString("{" + Fields(HeadFields(r)) + rest, "actor_id", STRING_SIZE) == Success(v + "\\")
    ensures v + "\\" != r.actorId
  {
    NamesAreNames();
    NoQuoteBlocked("{", StringPattern("actor_id"));
    FirstField(r, rest);
    hide Fields, FieldText, Key, ExtractString, Blocked, StringPattern, HeadFields;
    QuoteCutsField("{", Field("actor_id", r.actorId), Fields(HeadFields(r)[1..]) + rest, v, w, STRING_SIZE);
    assert r.actorId[|v|] == '"' && (v + "\\")[|v|] == '\\';
  }

  lemma FirstField(r: Record, rest: string)
    ensures |HeadFields(r)| > 0
    ensures "{" + Fields(HeadFields(r)) + rest == "{" + FieldText(Field("actor_id", r.actorId)) + (Fields(HeadFields(r)[1..]) + rest)
  {
    hide FieldText, Fields;
    FieldsUnfold(HeadFields(r));
  }

  lemma NoQuoteBefore(v: string, rest: string)
    requires '"' !in v
    ensures Find(v + "\"" + rest, "\"") == |v|
  {
    NoQuoteBlocked(v, "\"");
    FindAfterBlocked(v, "\"" + rest, "\"");
    assert v + "\"" + rest == v + ("\"" + rest);
  }

  // ---------------------------------------------------------------- keys inside the payload

  /** A pattern that cannot start in a, and occurs in m, is found in m whatever follows. */
  lemma FoundInMiddle(a: string, m: string, x: string, p: string)
    requires p != "" && Blocked(a, p) && Find(m, p) >= 0
    ensures Find(a + m + x, p) == |a| + Find(m, p)
  {
    var s, k := a + m + x, Find(m, p);
    assert s[|a| + k..|a| + k + |p|] == m[k..k + |p|];
    assert OccursAt(s, p, |a| + k);
    forall i | 0 <= i < |a| + k
      ensures !OccursAt(s, p, i)
    {
      if i < |a| {
        assert Mismatch(a, p, i);
        var t :| 0 <= t < |p| && i + t < |a| && a[i + t] != p[t];
        assert i + |p| <= |s| ==> s[i..i + |p|][t] == s[i + t] == a[i + t];
      } else {
        assert !OccursAt(m, p, i - |a|);
        assert s[i..i + |p|] == m[i - |a|..i - |a| + |p|];
      }
    }
  }

  /** A pattern without brackets that does not occur in a text ending in a bracket cannot start in it. */
  lemma AbsentIsBlocked(m: string, p: string)
    requires m != "" && p != "" && IsClose(m[|m| - 1]) && '}' !in p && ']' !in p && Find(m, p) == -1
    ensures Blocked(m, p)
  {
    forall i | 0 <= i < |m|
      ensures !OccursAt(m, p, i)
    {
    }
    BlockedByEnd(m, p);
  }

  /** The first quotation mark behind t is in t, or it is the one that follows the comma. */
  lemma QuoteSoon(t: string, y: string)
    ensures var short, long := t + ",\"", t + (",\"" + y);
      Find(short, "\"") >= 0 && Find(long, "\"") == Find(short, "\"") && long[..Find(long, "\"")] == short[..Find(short, "\"")]
  {
    var short, long := t + ",\"", t + (",\"" + y);
    assert short[|t| + 1..|t| + 2] == "\"";
    assert OccursAt(short, "\"", |t| + 1);
    assert long == "" + short + y;
    FoundInMiddle("", short, y, "\"");
  }

  /** Reading a string field whose pattern stands in the payload: nothing but the payload matters. */
  lemma ReadsFromPayload(head: string, p: string, y: string, name: string, size: nat)
    requires Blocked(head, StringPattern(name)) && Find(p, StringPattern(name)) >= 0
    ensures ExtractString(head + p + (",\"" + y), name, size) == ExtractString(p + ",\"", name, size)
  {
    var pattern := StringPattern(name);
    assert pattern != "";
    hide Key, StringPattern, Find, Blocked, ExtractString;
    var k := Find(p, pattern);
    var line, short := head + p + (",\"" + y), p + ",\"";
    FoundAt(p, pattern);
    FoundInMiddle(head, p, ",\"" + y, pattern);
    BlockedEmpty(pattern);
    FoundInMiddle("", p, ",\"", pattern);
    assert "" + p + ",\"" == short;
    var t := p[k + |pattern|..];
    assert line[|head| + k + |pattern|..] == t + (",\"" + y);
    assert short[k + |pattern|..] == t + ",\"";
    ExtractIs(line, name, size, |head| + k, t + (",\"" + y));
    ExtractIs(short, name, size, k, t + ",\"");
    QuoteSoon(t, y);
  }

  lemma FoundAt(s: string, p: string)
    requires Find(s, p) >= 0
    ensures Find(s, p) + |p| <= |s|
  {
  }

  // ---------------------------------------------------------------- numbers inside the payload

  predicate EndsInBracket(t: string) { t != "" && IsClose(t[|t| - 1]) }

  lemma {:induction false} SpaceBefore(t: string, x: string)
    requires EndsInBracket(t)
    ensures SkipSpace(t + x) == SkipSpace(t) + x && EndsInBracket(SkipSpace(t))
  {
    assert (t + x)[0] == t[0] && (t + x)[1..] == t[1..] + x;
    if IsSpace(t[0]) {
      SpaceBefore(t[1..], x);
    }
  }

  lemma {:induction false} RunBefore(t: string, x: string)
    requires EndsInBracket(t)
    ensures DigitRun(t + x) == DigitRun(t)
  {
    assert (t + x)[0] == t[0] && (t + x)[1..] == t[1..] + x;
    if IsDigit(t[0]) {
      RunBefore(t[1..], x);
    }
  }

  lemma NumberBefore(t: string, x: string)
    requires EndsInBracket(t)
    ensures LeadingNumber(t + x) == LeadingNumber(t)
  {
    RunBefore(t, x);
    assert (t + x)[..DigitRun(t)] == t[..DigitRun(t)];
  }

  /** A number in front of a bracket does not depend on what follows. */
  lemma ParsedBefore(t: string, x: string)
    requires EndsInBracket(t)
    ensures Atoi(t + x) == Atoi(t) && StrToUll(t + x) == StrToUll(t)
  {
    hide LeadingNumber, SkipSpace;
    SpaceBefore(t, x);
    var u := SkipSpace(t);
    NumberBefore(u, x);
    assert (u + x)[0] == u[0] && (u + x)[1..] == u[1..] + x;
    if u[0] == '-' || u[0] == '+' {
      NumberBefore(u[1..], x);
    }
  }

  lemma NumberFromPayload(head: string, p: string, y: string, name: string)
    requires IsName(name) && Blocked(head, Key(name)) && EndsInBracket(p) && Find(p, Key(name)) >= 0
    ensures ExtractInt(head + p + y, name) == ExtractInt(p, name)
    ensures ExtractUll(head + p + y, name) == ExtractUll(p, name)
  {
    PatternHasNoBracket(name, "");
    assert Key(name) + "" == Key(name);
    hide Key;
    var pattern := Key(name);
    var k := Find(p, pattern);
    assert pattern != "" by { KeyNotEmpty(name); }
    FoundInMiddle(head, p, y, pattern);
    var t := p[k + |pattern|..];
    NotAtEnd(p, pattern, k);
    assert (head + p + y)[|head| + k + |pattern|..] == t + y;
    ParsedBefore(t, y);
  }

  lemma NotAtEnd(t: string, p: string, k: nat)
    requires OccursAt(t, p, k) && EndsInBracket(t) && p != "" && '}' !in p && ']' !in p
    ensures k + |p| < |t|
  {
    assert t[k..k + |p|][|p| - 1] == t[k + |p| - 1];
    assert p[|p| - 1] in p;
  }

  lemma KeyNotEmpty(name: string)
    ensures Key(name) != ""
  {
  }

  // ---------------------------------------------------------------- the whole record

  /** The first occurrence of a later string field yields the record's own value: the one in the payload
      if there is one, else its own, which must need no escape. */
  predicate OwnString(payload: string, name: string, value: string, size: nat) {
    if Find(payload, StringPattern(name)) >= 0 then ExtractString(payload + ",\"", name, size) == Success(value)
    else IsPlain(value) && |value| < size
  }

  predicate OwnNumbers(r: Record) {
    && (Find(r.payload, Key("schema_version")) >= 0 ==> ExtractInt(r.payload, "schema_version") == Success(r.schemaVersion))
    && (Find(r.payload, Key("sequence")) >= 0 ==> ExtractUll(r.payload, "sequence") == Success(r.sequence))
  }

  /** The condition on a record: what stands in front of the payload needs no escape, the payload is
      balanced, fits and contains no checksum token, and no key inside it misleads a later field. */
  predicate ReadsBack(r: Record, checksum: string) {
    && IsPlain(r.actorId) && |r.actorId| < 256
    && IsPlain(r.correlationId) && |r.correlationId| < 256
    && IsPlain(r.createdAt) && |r.createdAt| < 128
    && IsPlain(r.idempotencyKey) && |r.idempotencyKey| < 256
    && Balanced(r.payload) && Find(r.payload, CHECKSUM_TOKEN) == -1 && |r.payload| < 4096
    && OwnString(r.payload, "checksum", checksum, 72)
    && OwnString(r.payload, "record_id", r.recordId, 256)
    && OwnString(r.payload, "record_type", r.recordType, 256)
    && OwnNumbers(r)
  }

  lemma BracketAtEnd(p: string)
    requires Balanced(p)
    ensures EndsInBracket(p)
  {
    BalancedEndsInBracket(p);
  }

  lemma HeadBlocksString(r: Record, name: string)
    requires IsLater(name)
    ensures Blocked(Head(r), Key(name)) && Blocked(Head(r), StringPattern(name))
  {
    NamesAreNames();
    HeadFieldNames(r);
    assert name[0] != 'p';
    HeadBlocked(r, name);
    BlockedLonger(Head(r), Key(name), "\"");
  }

  /** Whatever checksum, id and type a line carries behind a balanced payload, each reads back as its own
      value exactly under OwnString. */
  lemma BackFieldReadsBack(r: Record, checksum: string, i: nat, rest: string, size: nat)
    requires Balanced(r.payload) && i < 3
    ensures var f := BackFields(r, checksum)[i];
      ExtractString(Head(r) + r.payload + "," + Fields(BackFields(r, checksum)) + rest, f.name, size) == Success(f.value) <==>
        OwnString(r.payload, f.name, f.value, size)
  {
    hide Head, ExtractString, Blocked, Find, Escape, Balanced;
    BackFieldNames(r, checksum);
    NamesAreNames();
    BracketAtEnd(r.payload);
    var fs := BackFields(r, checksum);
    var f := fs[i];
    HeadBlocksString(r, f.name);
    var pattern := StringPattern(f.name);
    if Find(r.payload, pattern) >= 0 {
      var y := BackStartsWithQuote(r, checksum, rest);
      ReadsFromPayload(Head(r), r.payload, y, f.name, size);
    } else {
      PatternHasNoBracket(f.name, "\"");
      NotFound(r.payload, pattern);
      AbsentIsBlocked(r.payload, pattern);
      NoQuoteBlocked(",", pattern);
      BlockedConcat(Head(r), r.payload, pattern);
      BlockedConcat(Head(r) + r.payload, ",", pattern);
      FieldOfListReadsBack(Head(r) + r.payload + ",", fs, i, rest, size);
    }
  }

  lemma NotFound(s: string, p: string)
    ensures Find(s, p) >= 0 || Find(s, p) == -1
  {
  }

  lemma BackStartsWithQuote(r: Record, checksum: string, rest: string) returns (y: string)
    ensures Head(r) + r.payload + "," + Fields(BackFields(r, checksum)) + rest == Head(r) + r.payload + (",\"" + y)
  {
    hide Head, Escape;
    var fs := BackFields(r, checksum);
    FieldsUnfold(fs);
    var f := FieldText(fs[0]);
    assert f[0] == '"';
    y := f[1..] + Fields(fs[1..]) + rest;
    assert f == "\"" + f[1..];
    QuoteMoves(Head(r) + r.payload, f[1..], Fields(fs[1..]), rest);
  }

  lemma QuoteMoves(a: string, f: string, g: string, rest: string)
    ensures a + "," + (("\"" + f) + g) + rest == a + (",\"" + (f + g + rest))
  {
    assert ",\"" == "," + "\"";
  }

  lemma NumbersReadBack(r: Record, checksum: string)
    requires Balanced(r.payload) && r.sequence <= ULL_MAX
    ensures OwnNumbers(r) <==>
      && ExtractInt(WireLine(r, checksum), "schema_version") == Success(r.schemaVersion)
      && ExtractUll(WireLine(r, checksum), "sequence") == Success(r.sequence)
  {
    hide WireLine, ExtractInt, ExtractUll, Find, Key, Balanced;
    VersionReadsBack(r, checksum);
    SequenceReadsBack(r, checksum);
  }

  lemma AfterPayload(r: Record, checksum: string) returns (y: string)
    ensures WireLine(r, checksum) == Head(r) + r.payload + y
    ensures y == "," + Fields(BackFields(r, checksum)) + Numbers(r) + "\n"
  {
    hide Head, Fields, Numbers;
    y := "," + Fields(BackFields(r, checksum)) + Numbers(r) + "\n";
    SixParts(Head(r), r.payload, Fields(BackFields(r, checksum)), Numbers(r));
  }

  lemma SixParts(head: string, p: string, back: string, n: string)
    ensures head + p + "," + back + n + "\n" == head + p + ("," + back + n + "\n")
  {
  }

  lemma KeyAbsent(r: Record, checksum: string, name: string)
    requires Balanced(r.payload) && name in ["schema_version", "sequence"] && Find(r.payload, Key(name)) == -1
    ensures Blocked(Head(r) + r.payload + "," + Fields(BackFields(r, checksum)), Key(name))
  {
    NamesAreNames();
    BackFieldNames(r, checksum);
    BracketAtEnd(r.payload);
    HeadBlocksString(r, name);
    PatternHasNoBracket(name, "");
    assert Key(name) + "" == Key(name);
    KeyNotEmpty(name);
    hide Head, Key, Blocked, Find, Fields, Balanced;
    var p := Key(name);
    AbsentIsBlocked(r.payload, p);
    NoQuoteBlocked(",", p) by { KeyStartsWithQuote(name); }
    FieldsBlocked(BackFields(r, checksum), name);
    BlockedConcat(Head(r), r.payload, p);
    BlockedConcat(Head(r) + r.payload, ",", p);
    BlockedConcat(Head(r) + r.payload + ",", Fields(BackFields(r, checksum)), p);
  }

  lemma KeyStartsWithQuote(name: string)
    ensures Key(name) != "" && Key(name)[0] == '"'
  {
  }

  lemma VersionReadsBack(r: Record, checksum: string)
    requires Balanced(r.payload)
    ensures ExtractInt(WireLine(r, checksum), "schema_version") == Success(r.schemaVersion) <==>
      (Find(r.payload, Key("schema_version")) >= 0 ==> ExtractInt(r.payload, "schema_version") == Success(r.schemaVersion))
  {
    NamesAreNames();
    NotFound(r.payload, Key("schema_version"));
    hide Head, Fields, ExtractInt, Blocked, Key, SignedDecimal, Decimal, Atoi, Find, Balanced;
    BracketAtEnd(r.payload);
    HeadBlocksString(r, "schema_version");
    if Find(r.payload, Key("schema_version")) >= 0 {
      var y := AfterPayload(r, checksum);
      NumberFromPayload(Head(r), r.payload, y, "schema_version");
    } else {
      KeyAbsent(r, checksum, "schema_version");
      var before := Head(r) + r.payload + "," + Fields(BackFields(r, checksum));
      var tail := "," + Key("sequence") + Decimal(r.sequence) + "}\n";
      assert WireLine(r, checksum) == before + Key("schema_version") + (SignedDecimal(r.schemaVersion) + tail);
      ExtractNumber(before, "schema_version", SignedDecimal(r.schemaVersion) + tail);
      AtoiOfSignedDecimal(r.schemaVersion, tail);
    }
  }

  lemma SequenceReadsBack(r: Record, checksum: string)
    requires Balanced(r.payload) && r.sequence <= ULL_MAX
    ensures ExtractUll(WireLine(r, checksum), "sequence") == Success(r.sequence) <==>
      (Find(r.payload, Key("sequence")) >= 0 ==> ExtractUll(r.payload, "sequence") == Success(r.sequence))
  {
    NamesAreNames();
    NotFound(r.payload, Key("sequence"));
    hide Head, Fields, ExtractUll, Blocked, Key, SignedDecimal, Decimal, StrToUll, Find, Balanced;
    BracketAtEnd(r.payload);
    HeadBlocksString(r, "sequence");
    if Find(r.payload, Key("sequence")) >= 0 {
      var y := AfterPayload(r, checksum);
      NumberFromPayload(Head(r), r.payload, y, "sequence");
    } else {
      KeyAbsent(r, checksum, "sequence");
      var before := Head(r) + r.payload + "," + Fields(BackFields(r, checksum));
      var mid := Key("schema_version") + SignedDecimal(r.schemaVersion) + ",";
      VersionBlocked(r);
      BlockedConcat(before, mid, Key("sequence"));
      assert WireLine(r, checksum) == (before + mid) + Key("sequence") + (Decimal(r.sequence) + "}\n");
      ExtractNumber(before + mid, "sequence", Decimal(r.sequence) + "}\n");
      StrToUllOfDecimal(r.sequence, "}\n");
    }
  }

  // ---------------------------------------------------------------- the payload

  /** Where the reader believes a balanced payload to end. */
  lemma TokenEndsPayload(p: string, rest: string)
    requires EndsInBracket(p)
    ensures var tail := p + (CHECKSUM_TOKEN + rest);
      var end := Find(tail, CHECKSUM_TOKEN);
      && (Find(p, CHECKSUM_TOKEN) == -1 ==> end == |p| && tail[..|p|] == p)
      && (Find(p, CHECKSUM_TOKEN) != -1 ==> 0 <= end < |p|)
  {
    NotFound(p, CHECKSUM_TOKEN);
    TokenHasNoBracket();
    hide Find, Blocked;
    var token := CHECKSUM_TOKEN;
    var tail := p + (token + rest);
    if Find(p, token) >= 0 {
      assert tail == "" + p + (token + rest);
      BlockedEmpty(token);
      FoundInMiddle("", p, token + rest, token);
      InsideText(p, token);
    } else {
      AbsentIsBlocked(p, token);
      assert (token + rest)[..|token|] == token;
      FindAfterBlocked(p, token + rest, token);
    }
  }

  /** Up to the first checksum token the payload is read back. */
  lemma PayloadReadsBack(r: Record, rest: string, size: nat)
    requires Balanced(r.payload)
    ensures ExtractPayload(Head(r) + r.payload + CHECKSUM_TOKEN + rest, size) == Success(r.payload) <==>
      Find(r.payload, CHECKSUM_TOKEN) == -1 && |r.payload| < size
  {
    BracketAtEnd(r.payload);
    KeyFits(r);
    var tail := r.payload + (CHECKSUM_TOKEN + rest);
    TokenEndsPayload(r.payload, rest);
    PayloadStart(r, tail);
    hide Head, Find, Blocked, Key, Balanced, ExtractPayload;
    var line := Head(r) + tail;
    Nest(Head(r), r.payload, CHECKSUM_TOKEN, rest);
    Behind(Head(r), tail);
    PayloadIs(line, size, |Head(r)| - |Key("payload")|, tail);
  }

  lemma Nest(a: string, b: string, c: string, d: string)
    ensures a + b + c + d == a + (b + (c + d))
  {
  }

  lemma Behind(a: string, b: string)
    ensures (a + b)[|a|..] == b && (a + b)[..|a|] == a
  {
  }

  lemma PayloadIs(line: string, size: nat, at: nat, rest: string)
    requires Find(line, Key("payload")) == at && line[at + |Key("payload")|..] == rest
    ensures var end := Find(rest, CHECKSUM_TOKEN);
      && (end >= 0 ==> end <= |rest|)
      && ExtractPayload(line, size) == (if end == -1 then Failure(ParseError) else if end + 1 > size then Failure(BufferTooSmall)
                                        else Success(rest[..end]))
  {
    hide Key;
  }

  lemma InsideText(s: string, p: string)
    requires p != "" && Find(s, p) >= 0
    ensures Find(s, p) < |s|
  {
  }

  lemma KeyFits(r: Record)
    ensures |Head(r)| >= |Key("payload")|
  {
    hide Fields;
  }

  lemma TokenHasNoBracket()
    ensures CHECKSUM_TOKEN != "" && '}' !in CHECKSUM_TOKEN && ']' !in CHECKSUM_TOKEN
  {
  }

  lemma AnyBuffer(line: string, size: nat, p: string)
    requires ExtractPayload(line, size) == Success(p)
    ensures ExtractPayload(line, |line| + 1) == Success(p)
  {
    hide Key;
  }

  /** A payload in brackets is read back from its printed line exactly when its bracket scan is not misled,
      for instance by a bracket inside a string, and it contains no checksum token. */
  lemma PayloadSurvives(r: Record, checksum: string)
    requires r.payload != "" && IsOpen(r.payload[0]) && IsPlain(checksum)
    ensures InsertChecksum(Canonical(r), checksum).Success?
    ensures var line := InsertChecksum(Canonical(r), checksum).value;
      ExtractPayload(line, |line| + 1) == Success(r.payload) <==> Balanced(r.payload) && Find(r.payload, CHECKSUM_TOKEN) == -1
  {
    hide Head, Fields, Numbers, Key, ExtractPayload, CanonicalTail, Canonical, Balanced, InsertChecksum, Find;
    var end, more := InsertionPoint(r, checksum);
    var line := InsertChecksum(Canonical(r), checksum).value;
    if Balanced(r.payload) {
      PrintedLine(r, checksum);
      var rest := PayloadFollowedByToken(r, checksum);
      PayloadReadsBack(r, rest, |line| + 1);
    } else {
      TailShape(r);
      MissedEnd(r.payload, CanonicalTail(r), end, more);
      if ExtractPayload(line, |line| + 1) == Success(r.payload) {
        ReadsUpToToken(r, (r.payload + CanonicalTail(r))[..end] + CHECKSUM_TOKEN + more, r.payload);
      }
    }
  }

  // ---------------------------------------------------------------- the record

  lemma ReadRecordIs(line: string, r: Record)
    ensures ReadRecord(line) == Success(r) <==>
      && ExtractInt(line, "schema_version") == Success(r.schemaVersion)
      && ExtractUll(line, "sequence") == Success(r.sequence)
      && ExtractString(line, "record_id", STRING_SIZE) == Success(r.recordId)
      && ExtractString(line, "record_type", STRING_SIZE) == Success(r.recordType)
      && ExtractString(line, "created_at", TIME_SIZE) == Success(r.createdAt)
      && ExtractString(line, "actor_id", STRING_SIZE) == Success(r.actorId)
      && ExtractString(line, "correlation_id", STRING_SIZE) == Success(r.correlationId)
      && ExtractString(line, "idempotency_key", STRING_SIZE) == Success(r.idempotencyKey)
      && ExtractPayload(line, PAYLOAD_SIZE) == Success(r.payload)
      && ExtractString(line, "checksum", CHECKSUM_SIZE) == Success(r.checksum)
  {
    hide ExtractInt, ExtractUll, ExtractString, ExtractPayload;
  }

  lemma HeadReadsBack(r: Record, rest: string)
    ensures var line := "{" + Fields(HeadFields(r)) + rest;
      && ExtractString(line, "created_at", TIME_SIZE) == Success(r.createdAt)
      && ExtractString(line, "actor_id", STRING_SIZE) == Success(r.actorId)
      && ExtractString(line, "correlation_id", STRING_SIZE) == Success(r.correlationId)
      && ExtractString(line, "idempotency_key", STRING_SIZE) == Success(r.idempotencyKey)
      <==>
      && IsPlain(r.actorId) && |r.actorId| < STRING_SIZE
      && IsPlain(r.correlationId) && |r.correlationId| < STRING_SIZE
      && IsPlain(r.createdAt) && |r.createdAt| < TIME_SIZE
      && IsPlain(r.idempotencyKey) && |r.idempotencyKey| < STRING_SIZE
  {
    hide Fields, ExtractString, IsPlain;
    HeadFieldReadsBack(r, 0, rest, STRING_SIZE);
    HeadFieldReadsBack(r, 1, rest, STRING_SIZE);
    HeadFieldReadsBack(r, 2, rest, TIME_SIZE);
    HeadFieldReadsBack(r, 3, rest, STRING_SIZE);
  }

  lemma BackReadsBack(r: Record, checksum: string)
    requires Balanced(r.payload)
    ensures var line := WireLine(r, checksum);
      && ExtractString(line, "record_id", STRING_SIZE) == Success(r.recordId)
      && ExtractString(line, "record_type", STRING_SIZE) == Success(r.recordType)
      && ExtractString(line, "checksum", CHECKSUM_SIZE) == Success(checksum)
      <==>
      && OwnString(r.payload, "checksum", checksum, CHECKSUM_SIZE)
      && OwnString(r.payload, "record_id", r.recordId, STRING_SIZE)
      && OwnString(r.payload, "record_type", r.recordType, STRING_SIZE)
  {
    hide Head, Fields, ExtractString, Numbers, OwnString, Balanced;
    var line := WireLine(r, checksum);
    var rest := Numbers(r) + "\n";
    assert line == Head(r) + r.payload + "," + Fields(BackFields(r, checksum)) + rest;
    BackFieldReadsBack(r, checksum, 0, rest, CHECKSUM_SIZE);
    BackFieldReadsBack(r, checksum, 1, rest, STRING_SIZE);
    BackFieldReadsBack(r, checksum, 2, rest, STRING_SIZE);
  }

  lemma WireLineReadsBack(r: Record, checksum: string)
    requires Balanced(r.payload) && IsPlain(checksum) && r.sequence <= ULL_MAX
    ensures ReadRecord(WireLine(r, checksum)) == Success(r.(checksum := checksum)) <==> ReadsBack(r, checksum)
  {
    hide Fields, ExtractString, ExtractPayload, ExtractInt, ExtractUll, Key, Numbers, Balanced, IsPlain, OwnString,
      OwnNumbers, Find, ReadRecord;
    var line := WireLine(r, checksum);
    ReadRecordIs(line, r.(checksum := checksum));
    NumbersReadBack(r, checksum);
    BackReadsBack(r, checksum);
    var afterHead := Key("payload") + r.payload + "," + Fields(BackFields(r, checksum)) + Numbers(r) + "\n";
    assert line == "{" + Fields(HeadFields(r)) + afterHead;
    HeadReadsBack(r, afterHead);
    var afterToken := PayloadFollowedByToken(r, checksum);
    PayloadReadsBack(r, afterToken, PAYLOAD_SIZE);
  }

  /** Reading the printed line of a record with a payload in brackets gives the record back exactly when
      the record meets the condition. */
  lemma ReadsBackExactly(r: Record, checksum: string)
    requires r.payload != "" && IsOpen(r.payload[0]) && IsPlain(checksum) && r.sequence <= ULL_MAX
    ensures InsertChecksum(Canonical(r), checksum).Success?
    ensures ReadRecord(InsertChecksum(Canonical(r), checksum).value) == Success(r.(checksum := checksum)) <==> ReadsBack(r, checksum)
  {
    PayloadSurvives(r, checksum);
    hide Canonical, InsertChecksum, ReadRecord, Balanced, WireLine, ExtractPayload, ExtractString, ExtractInt,
      ExtractUll, Find, OwnString, OwnNumbers, IsPlain;
    var line := InsertChecksum(Canonical(r), checksum).value;
    if Balanced(r.payload) {
      PrintedLine(r, checksum);
      WireLineReadsBack(r, checksum);
    } else {
      ReadRecordIs(line, r.(checksum := checksum));
      if ExtractPayload(line, PAYLOAD_SIZE) == Success(r.payload) {
        AnyBuffer(line, PAYLOAD_SIZE, r.payload);
      }
    }
  }

  /** The record written by the store reads back as itself exactly under the condition, and then verifies. */
  lemma RoundTrip(r: Record, size: nat)
    requires r.payload != "" && IsOpen(r.payload[0]) && r.checksum == "" && r.sequence <= ULL_MAX
    requires LineOf(r, size).Success?
    ensures var line := LineOf(r, size).value;
      (ReadRecord(line) == Success(r.(checksum := Checksum(r))) <==> ReadsBack(r, Checksum(r)))
      && (ReadsBack(r, Checksum(r)) ==> VerifyLine(line) == Ok)
  {
    hide Canonical, Checksum, InsertChecksum, ReadRecord, ReadsBack, IsPlain;
    ChecksumShape(r);
    ReadsBackExactly(r, Checksum(r));
    assert Checksum(r.(checksum := Checksum(r))) == Checksum(r) by { SameCanonical(r, Checksum(r)); }
  }

  lemma SameCanonical(r: Record, checksum: string)
    ensures Checksum(r.(checksum := checksum)) == Checksum(r)
  {
    CanonicalIgnoresChecksum(r, checksum);
    hide Canonical, Bytes;
  }

  lemma CanonicalIgnoresChecksum(r: Record, checksum: string)
    ensures Canonical(r.(checksum := checksum)) == Canonical(r)
  {
    hide Fields, Key, SignedDecimal, Decimal;
  }

  /** A payload that is nothing but a record id. */
  function IdPayload(v: string): string { "{" + (StringPattern("record_id") + v + "\"") + "}" }

  predicate BracketFree(s: string) { forall i :: 0 <= i < |s| ==> !IsOpen(s[i]) && !IsClose(s[i]) }

  /** A payload that carries its own record id replaces the record's. */
  lemma RecordIdInPayload(r: Record, checksum: string, v: string)
    requires r.payload == IdPayload(v) && IsPlain(v) && BracketFree(v) && |v| < 256 && IsPlain(checksum)
    ensures InsertChecksum(Canonical(r), checksum) == Success(WireLine(r, checksum))
    ensures ExtractString(WireLine(r, checksum), "record_id", STRING_SIZE) == Success(v)
    ensures r.recordId != v ==> !ReadsBack(r, checksum)
  {
    IdBalanced(v);
    IdInside(v);
    PrintedLine(r, checksum);
    NamesAreNames();
    HeadBlocksString(r, "record_id");
    hide Head, Fields, ExtractString, Numbers, Find, Balanced, Key, IdPayload, StringPattern, Blocked, InsertChecksum,
      Canonical;
    var rest := Numbers(r) + "\n";
    var y := BackStartsWithQuote(r, checksum, rest);
    assert WireLine(r, checksum) == Head(r) + r.payload + "," + Fields(BackFields(r, checksum)) + rest;
    ReadsFromPayload(Head(r), r.payload, y, "record_id", STRING_SIZE);
  }

  lemma IdBalanced(v: string)
    requires BracketFree(v)
    ensures Balanced(IdPayload(v))
  {
    NamesAreNames();
    var s := StringPattern("record_id") + v + "\"";
    BracesOnly(s);
  }

  lemma IdInside(v: string)
    requires IsPlain(v) && |v| < STRING_SIZE
    ensures Find(IdPayload(v), StringPattern("record_id")) == 1
    ensures ExtractString(IdPayload(v) + ",\"", "record_id", STRING_SIZE) == Success(v)
  {
    var pattern := StringPattern("record_id");
    NoQuoteBlocked("{", pattern);
    hide Find, Blocked, StringPattern, ExtractString;
    var t := v + "\"" + "}";
    var u := v + "\"" + ("}" + ",\"");
    assert IdPayload(v) == "{" + (pattern + t);
    assert IdPayload(v) + ",\"" == "{" + (pattern + u);
    assert (pattern + t)[..|pattern|] == pattern && (pattern + u)[..|pattern|] == pattern;
    FindAfterBlocked("{", pattern + t, pattern);
    FindAfterBlocked("{", pattern + u, pattern);
    assert ("{" + (pattern + u))[1 + |pattern|..] == u;
    ExtractIs("{" + (pattern + u), "record_id", STRING_SIZE, 1, u);
    FindQuote(v, "}" + ",\"");
    assert u[..|v|] == v;
  }

  /** Braces around a text without brackets. */
  lemma BracesOnly(s: string)
    requires BracketFree(s)
    ensures Balanced("{" + s + "}")
  {
    var p := "{" + s + "}";
    forall i | 0 < i < |p|
      ensures Balance(p[..i]) == 1
    {
      OpenBalance(s, i - 1);
      assert p[..i] == "{" + s[..i - 1];
    }
    assert p[..|p| - 1] == p[..|s| + 1];
  }

  lemma {:induction false} OpenBalance(s: string, n: nat)
    requires n <= |s| && BracketFree(s)
    ensures Balance("{" + s[..n]) == 1
  {
    var t := "{" + s[..n];
    if n == 0 {
      assert t == "{" && t[..0] == "";
    } else {
      OpenBalance(s, n - 1);
      assert t[..|t| - 1] == "{" + s[..n - 1];
    }
  }
}
