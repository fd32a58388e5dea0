/** The payloads the application writes: json.dumps(payload, sort_keys=True, separators=(",", ":"))
    of src/bms/core.py, and why they survive the text searches of the native core. */
module JsonPayload {
  import opened Status
  import opened Text
  import opened Record

  datatype Json =
    | Null
    | Bool(b: bool)
    | Int(n: int)
    | Str(s: string)
    | Arr(items: Items)
    | Obj(members: Members)

  datatype Items = NoItems | Item(value: Json, rest: Items)

  datatype Members = NoMembers | Member(key: string, val: Json, others: Members)

  function Print(j: Json): string {
    match j
    case Null => "null"
    case Bool(b) => if b then "true" else "false"
    case Int(n) => SignedDecimal(n)
    case Str(s) => Quoted(s)
    case Arr(items) => "[" + PrintItems(items) + "]"
    case Obj(members) => "{" + PrintMembers(members) + "}"
  }

  function PrintItems(xs: Items): string {
    match xs
    case NoItems => ""
    case Item(v, NoItems) => Print(v)
    case Item(v, rest) => Print(v) + "," + PrintItems(rest)
  }

  function PrintMembers(ms: Members): string {
    match ms
    case NoMembers => ""
    case Member(k, v, NoMembers) => Quoted(k) + ":" + Print(v)
    case Member(k, v, rest) => Quoted(k) + ":" + Print(v) + "," + PrintMembers(rest)
  }

  predicate NoBrackets(s: string) { forall i :: 0 <= i < |s| ==> !IsOpen(s[i]) && !IsClose(s[i]) }

  /** Strings are free of brackets, keys are plain and different from the names searched behind the payload. */
  predicate Good(j: Json) {
    match j
    case Str(s) => NoBrackets(s)
    case Arr(items) => GoodItems(items)
    case Obj(members) => GoodMembers(members)
    case _ => true
  }

  predicate GoodItems(xs: Items) {
    match xs
    case NoItems => true
    case Item(v, rest) => Good(v) && GoodItems(rest)
  }

  predicate GoodMembers(ms: Members) {
    match ms
    case NoMembers => true
    case Member(k, v, rest) => IsPlain(k) && NoBrackets(k) && !IsLater(k) && Good(v) && GoodMembers(rest)
  }

  // ---------------------------------------------------------------- brackets

  /** Brackets match up: the depth never falls below zero and ends at zero. */
  predicate Nested(t: string) {
    Balance(t) == 0 && forall i :: 0 <= i <= |t| ==> Balance(t[..i]) >= 0
  }

  lemma {:induction false} BalanceConcat(a: string, b: string)
    ensures Balance(a + b) == Balance(a) + Balance(b)
  {
    if b == "" {
      assert a + b == a;
    } else {
      BalanceConcat(a, b[..|b| - 1]);
      assert (a + b)[..|a + b| - 1] == a + b[..|b| - 1];
    }
  }

  lemma NestedConcat(a: string, b: string)
    requires Nested(a) && Nested(b)
    ensures Nested(a + b)
  {
    BalanceConcat(a, b);
    forall i | 0 <= i <= |a + b|
      ensures Balance((a + b)[..i]) >= 0
    {
      if i <= |a| {
        assert (a + b)[..i] == a[..i];
      } else {
        assert (a + b)[..i] == a + b[..i - |a|];
        BalanceConcat(a, b[..i - |a|]);
      }
    }
  }

  lemma {:induction false} NoBracketsNested(s: string)
    requires NoBrackets(s)
    ensures Nested(s)
  {
    if s != "" {
      var p := s[..|s| - 1];
      NoBracketsNested(p);
      forall i | 0 <= i <= |s|
        ensures Balance(s[..i]) >= 0
      {
        assert i < |s| ==> s[..i] == p[..i];
        assert s[..|s|] == s;
      }
    }
  }

  lemma {:induction false} EscapeKeepsBracketFree(s: string)
    requires NoBrackets(s)
    ensures NoBrackets(Escape(s))
  {
    if s != "" {
      EscapeKeepsBracketFree(s[1..]);
      EscapeCharBracketFree(s[0]);
      hide EscapeChar;
    }
  }

  lemma EscapeCharBracketFree(c: char)
    requires !IsOpen(c) && !IsClose(c)
    ensures NoBrackets(EscapeChar(c))
  {
  }

  lemma QuotedNested(s: string)
    requires NoBrackets(s)
    ensures Nested(Quoted(s))
  {
    EscapeKeepsBracketFree(s);
    NoBracketsNested(Quoted(s));
  }

  lemma Bracketed(open: char, inner: string, close: char)
    requires IsOpen(open) && IsClose(close) && Nested(inner)
    ensures Nested([open] + inner + [close]) && Balanced([open] + inner + [close])
  {
    var t := [open] + inner + [close];
    assert Balance([open]) == 1 by { assert [open][..0] == ""; }
    BalanceConcat([open], inner);
    assert t[..|t| - 1] == [open] + inner;
    forall i | 0 < i < |t|
      ensures Balance(t[..i]) > 0
    {
      assert t[..i] == [open] + inner[..i - 1];
      BalanceConcat([open], inner[..i - 1]);
    }
    assert t[..0] == "" && t[..|t|] == t;
  }

  lemma {:induction false} PrintNested(j: Json)
    requires Good(j)
    ensures Nested(Print(j))
    decreases j, 0
  {
    match j
    case Null => NoBracketsNested("null");
    case Bool(b) =>
      NoBracketsNested("true");
      NoBracketsNested("false");
    case Int(n) => NoBracketsNested(SignedDecimal(n));
    case Str(s) => QuotedNested(s);
    case Arr(items) =>
      ItemsNested(items);
      Bracketed('[', PrintItems(items), ']');
    case Obj(members) =>
      MembersNested(members);
      Bracketed('{', PrintMembers(members), '}');
  }

  lemma {:induction false} ItemsNested(xs: Items)
    requires GoodItems(xs)
    ensures Nested(PrintItems(xs))
    decreases xs, 1
  {
    match xs
    case NoItems =>
    case Item(v, rest) =>
      PrintNested(v);
      ItemsNested(rest);
      NoBracketsNested(",");
      NestedConcat(Print(v), ",");
      NestedConcat(Print(v) + ",", PrintItems(rest));
  }

  lemma {:induction false} MembersNested(ms: Members)
    requires GoodMembers(ms)
    ensures Nested(PrintMembers(ms))
    decreases ms, 1
  {
    match ms
    case NoMembers =>
    case Member(k, v, rest) =>
      QuotedNested(k);
      PrintNested(v);
      MembersNested(rest);
      NoBracketsNested(":");
      NoBracketsNested(",");
      NestedConcat(Quoted(k), ":");
      NestedConcat(Quoted(k) + ":", Print(v));
      NestedConcat(Quoted(k) + ":" + Print(v), ",");
      NestedConcat(Quoted(k) + ":" + Print(v) + ",", PrintMembers(rest));
  }

  // ---------------------------------------------------------------- field names

  lemma PlainKeyBlocked(k: string, name: string)
    requires IsPlain(k) && IsName(name) && k != name
    ensures Blocked(Quoted(k) + ":", Key(name))
  {
    EscapePlain(k);
    var a, p := Quoted(k) + ":", Key(name);
    forall j | 0 <= j < |a|
      ensures Mismatch(a, p, j)
    {
      if j == 0 {
        var m := if |k| < |name| then |k| else |name|;
        if k[..m] == name[..m] {
          assert |k| != |name|;
          assert a[j + (m + 1)] != p[m + 1];
        } else {
          var i :| 0 <= i < m && k[i] != name[i];
          assert a[j + (i + 1)] != p[i + 1];
        }
      } else if j == |k| + 1 {
        assert a[j + 1] != p[1];
      } else {
        assert a[j + 0] != p[0];
      }
    }
  }

  lemma {:induction false} PrintBlocked(j: Json, after: char, name: string)
    requires Good(j) && IsLater(name) && IsName(name) && after in ",]}"
    ensures Blocked(Print(j) + [after], Key(name))
    decreases j, 0
  {
    match j
    case Str(s) => QuotedBlocked(s, after, name);
    case Arr(items) =>
      ItemsBlocked(items, name);
      NoQuoteBlocked("[", Key(name));
      NoQuoteBlocked([after], Key(name));
      BlockedConcat("[", PrintItems(items) + "]", Key(name));
      BlockedConcat("[" + (PrintItems(items) + "]"), [after], Key(name));
      assert "[" + (PrintItems(items) + "]") + [after] == Print(j) + [after];
    case Obj(members) =>
      MembersBlocked(members, name);
      NoQuoteBlocked("{", Key(name));
      NoQuoteBlocked([after], Key(name));
      BlockedConcat("{", PrintMembers(members) + "}", Key(name));
      BlockedConcat("{" + (PrintMembers(members) + "}"), [after], Key(name));
      assert "{" + (PrintMembers(members) + "}") + [after] == Print(j) + [after];
    case _ =>
      NoQuoteBlocked(Print(j) + [after], Key(name));
  }

  lemma {:induction false} ItemsBlocked(xs: Items, name: string)
    requires GoodItems(xs) && IsLater(name) && IsName(name)
    ensures Blocked(PrintItems(xs) + "]", Key(name))
    decreases xs, 1
  {
    match xs
    case NoItems => NoQuoteBlocked("]", Key(name));
    case Item(v, rest) =>
      PrintBlocked(v, if rest.NoItems? then ']' else ',', name);
      if !rest.NoItems? {
        ItemsBlocked(rest, name);
        BlockedConcat(Print(v) + [','], PrintItems(rest) + "]", Key(name));
        assert Print(v) + [','] + (PrintItems(rest) + "]") == PrintItems(xs) + "]";
      }
  }

  lemma {:induction false} MembersBlocked(ms: Members, name: string)
    requires GoodMembers(ms) && IsLater(name) && IsName(name)
    ensures Blocked(PrintMembers(ms) + "}", Key(name))
    decreases ms, 1
  {
    match ms
    case NoMembers => NoQuoteBlocked("}", Key(name));
    case Member(k, v, rest) =>
      PlainKeyBlocked(k, name);
      var after := if rest.NoMembers? then '}' else ',';
      PrintBlocked(v, after, name);
      BlockedConcat(Quoted(k) + ":", Print(v) + [after], Key(name));
      var one := Quoted(k) + ":" + (Print(v) + [after]);
      if rest.NoMembers? {
        assert one == PrintMembers(ms) + "}";
      } else {
        MembersBlocked(rest, name);
        BlockedConcat(one, PrintMembers(rest) + "}", Key(name));
        assert one + (PrintMembers(rest) + "}") == PrintMembers(ms) + "}";
      }
  }

  lemma BlockedNeverOccurs(p: string, after: char, name: string, ext: string)
    requires Blocked(p + [after], Key(name))
    ensures forall i :: 0 <= i < |p| ==> !OccursAt(p, Key(name) + ext, i)
  {
    var pattern := Key(name);
    forall i | 0 <= i < |p|
      ensures !OccursAt(p, pattern + ext, i)
    {
      assert Mismatch(p + [after], pattern, i);
      var t :| 0 <= t < |pattern| && i + t < |p + [after]| && (p + [after])[i + t] != pattern[t];
      assert i + |pattern + ext| <= |p| ==> p[i..i + |pattern + ext|][t] == (p + [after])[i + t];
    }
  }

  /** A JSON object whose strings hold no brackets and whose keys are not envelope names of the part
      behind the payload meets the conditions of the record round trip. */
  lemma GoodPayload(j: Json)
    requires j.Obj? && Good(j)
    ensures Balanced(Print(j)) && Hides(Print(j))
  {
    MembersNested(j.members);
    Bracketed('{', PrintMembers(j.members), '}');
    NamesAreNames();
    NameOccursNowhere(j, "checksum", "\"");
    NameOccursNowhere(j, "record_id", "\"");
    NameOccursNowhere(j, "record_type", "\"");
    NameOccursNowhere(j, "schema_version", "");
    NameOccursNowhere(j, "sequence", "");
    assert Key("schema_version") + "" == Key("schema_version");
    assert Key("sequence") + "" == Key("sequence");
  }

  lemma NameOccursNowhere(j: Json, name: string, ext: string)
    requires Good(j) && IsLater(name) && IsName(name)
    ensures forall i :: 0 <= i < |Print(j)| ==> !OccursAt(Print(j), Key(name) + ext, i)
  {
    PrintBlocked(j, ',', name);
    BlockedNeverOccurs(Print(j), ',', name, ext);
  }

  /** The records the application appends verify, as long as they fit the verifier's buffers. */
  lemma JsonRoundTrip(r: Record, j: Json, size: nat)
    requires j.Obj? && Good(j) && r.payload == Print(j)
    requires PlainEnvelope(r) && r.checksum == ""
    requires LineOf(r, size).Success?
    ensures VerifyLine(LineOf(r, size).value) == (if Fits(r) then Ok else BufferTooSmall)
  {
    hide LineOf, VerifyLine, Balanced, Hides;
    GoodPayload(j);
    PlainRoundTrip(r, size);
  }

  lemma {:induction false} PrintOneLine(j: Json)
    ensures '\n' !in Print(j)
    decreases j, 0
  {
    match j
    case Str(s) => QuotedOneLine(s);
    case Arr(items) => ItemsOneLine(items);
    case Obj(members) => MembersOneLine(members);
    case _ =>
  }

  lemma QuotedOneLine(s: string)
    ensures '\n' !in Quoted(s)
  {
    NoNewlineInEscape(s);
  }

  lemma {:induction false} ItemsOneLine(xs: Items)
    ensures '\n' !in PrintItems(xs)
    decreases xs, 1
  {
    match xs
    case NoItems =>
    case Item(v, rest) =>
      PrintOneLine(v);
      ItemsOneLine(rest);
  }

  lemma {:induction false} MembersOneLine(ms: Members)
    ensures '\n' !in PrintMembers(ms)
    decreases ms, 1
  {
    match ms
    case NoMembers =>
    case Member(k, v, rest) =>
      hide Quoted;
      QuotedOneLine(k);
      PrintOneLine(v);
      MembersOneLine(rest);
  }
}
