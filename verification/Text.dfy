/** C string searching (strstr, strchr) and decimal printing and parsing, with the facts about first
    occurrences that the record format rests on. */
module Text {

  predicate OccursAt(s: string, p: string, i: nat) {
    i + |p| <= |s| && s[i..i + |p|] == p
  }

  /** strstr from position `from`: the first occurrence, or -1. */
  function FindFrom(s: string, p: string, from: nat): (r: int)
    requires from <= |s|
    ensures r == -1 || (from <= r && OccursAt(s, p, r))
    ensures forall i :: from <= i < (if r == -1 then |s| else r) ==> !OccursAt(s, p, i)
    decreases |s| - from
  {
    if OccursAt(s, p, from) then from
    else if from == |s| then -1
    else FindFrom(s, p, from + 1)
  }

  function Find(s: string, p: string): int { FindFrom(s, p, 0) }

  // ---------------------------------------------------------------- where a pattern cannot start

  predicate Mismatch(a: string, p: string, j: nat)
    requires j < |a|
  {
    exists t :: 0 <= t < |p| && j + t < |a| && a[j + t] != p[t]
  }

  /** No occurrence of p starts inside a, whatever text follows a. */
  predicate Blocked(a: string, p: string) {
    forall j :: 0 <= j < |a| ==> Mismatch(a, p, j)
  }

  lemma BlockedConcat(a: string, b: string, p: string)
    requires Blocked(a, p) && Blocked(b, p)
    ensures Blocked(a + b, p)
  {
    forall j | 0 <= j < |a + b|
      ensures Mismatch(a + b, p, j)
    {
      if j < |a| {
        assert Mismatch(a, p, j);
        var t :| 0 <= t < |p| && j + t < |a| && a[j + t] != p[t];
        assert (a + b)[j + t] != p[t];
      } else {
        assert Mismatch(b, p, j - |a|);
        var t :| 0 <= t < |p| && j - |a| + t < |b| && b[j - |a| + t] != p[t];
        assert (a + b)[j + t] != p[t];
      }
    }
  }

  lemma BlockedLonger(a: string, p: string, q: string)
    requires Blocked(a, p)
    ensures Blocked(a, p + q)
  {
    forall j | 0 <= j < |a|
      ensures Mismatch(a, p + q, j)
    {
      assert Mismatch(a, p, j);
      var t :| 0 <= t < |p| && j + t < |a| && a[j + t] != p[t];
      assert (p + q)[t] == p[t];
    }
  }

  lemma FindAfterBlocked(a: string, rest: string, p: string)
    requires Blocked(a, p) && OccursAt(rest, p, 0)
    ensures Find(a + rest, p) == |a|
  {
    var s := a + rest;
    assert s[|a|..|a| + |p|] == rest[..|p|];
    assert OccursAt(s, p, |a|);
    forall i | 0 <= i < |a|
      ensures !OccursAt(s, p, i)
    {
      assert Mismatch(a, p, i);
      var t :| 0 <= t < |p| && i + t < |a| && a[i + t] != p[t];
      assert i + |p| <= |s| ==> s[i..i + |p|][t] == s[i + t];
    }
  }

  /** A text that does not contain p and ends in a character foreign to p. */
  lemma BlockedByEnd(a: string, p: string)
    requires a != "" && a[|a| - 1] !in p
    requires forall i :: 0 <= i < |a| ==> !OccursAt(a, p, i)
    ensures Blocked(a, p)
  {
    forall j | 0 <= j < |a|
      ensures Mismatch(a, p, j)
    {
      if j + |p| <= |a| {
        assert !OccursAt(a, p, j);
        var sub := a[j..j + |p|];
        assert exists t :: 0 <= t < |p| && sub[t] != p[t];
        var t :| 0 <= t < |p| && sub[t] != p[t];
        assert sub[t] == a[j + t];
      } else {
        var t := |a| - 1 - j;
        assert a[j + t] != p[t];
      }
    }
  }

  // ---------------------------------------------------------------- decimal

  predicate IsDigit(c: char) { '0' <= c <= '9' }

  function DigitOf(n: nat): char
    requires n < 10
  {
    "0123456789"[n]
  }

  function DigitValue(c: char): nat
    requires IsDigit(c)
  {
    c as nat - '0' as nat
  }

  /** printf %llu. */
  function Decimal(n: nat): (s: string)
    ensures |s| > 0
    ensures forall i :: 0 <= i < |s| ==> IsDigit(s[i])
  {
    if n < 10 then [DigitOf(n)] else Decimal(n / 10) + [DigitOf(n % 10)]
  }

  /** printf %d. */
  function SignedDecimal(n: int): string {
    if n < 0 then "-" + Decimal(-n) else Decimal(n)
  }

  /** The number of leading digits. */
  function DigitRun(s: string): (k: nat)
    ensures k <= |s|
    ensures forall i :: 0 <= i < k ==> IsDigit(s[i])
  {
    if s == "" || !IsDigit(s[0]) then 0 else 1 + DigitRun(s[1..])
  }

  function ValueOf(s: string): nat
    requires forall i :: 0 <= i < |s| ==> IsDigit(s[i])
  {
    if s == "" then 0 else ValueOf(s[..|s| - 1]) * 10 + DigitValue(s[|s| - 1])
  }

  function LeadingNumber(s: string): nat { ValueOf(s[..DigitRun(s)]) }

  /** isspace in the C locale. */
  predicate IsSpace(c: char) { c == ' ' || 9 <= c as int <= 13 }

  function SkipSpace(s: string): string {
    if s != "" && IsSpace(s[0]) then SkipSpace(s[1..]) else s
  }

  /** atoi. A value outside the range of int is undefined behaviour in C and is not reached here. */
  function Atoi(s: string): int {
    var t := SkipSpace(s);
    if t != "" && t[0] == '-' then -(LeadingNumber(t[1..]) as int)
    else if t != "" && t[0] == '+' then LeadingNumber(t[1..])
    else LeadingNumber(t)
  }

  const ULL_MAX: nat := 0xffff_ffff_ffff_ffff

  /** strtoull in base 10: saturates, and negates modulo 2^64. */
  function StrToUll(s: string): nat {
    var t := SkipSpace(s);
    if t != "" && t[0] == '-' then
      var v := LeadingNumber(t[1..]);
      if v > ULL_MAX then ULL_MAX else (ULL_MAX + 1 - v) % (ULL_MAX + 1)
    else
      var v := if t != "" && t[0] == '+' then LeadingNumber(t[1..]) else LeadingNumber(t);
      if v > ULL_MAX then ULL_MAX else v
  }

  lemma {:induction false} DecimalValue(n: nat)
    ensures ValueOf(Decimal(n)) == n
  {
    var s := Decimal(n);
    assert n >= 10 ==> s[..|s| - 1] == Decimal(n / 10);
    if n >= 10 {
      DecimalValue(n / 10);
    } else {
      assert s[..0] == "";
    }
  }

  lemma {:induction false} DigitRunOfDigits(s: string, rest: string)
    requires forall i :: 0 <= i < |s| ==> IsDigit(s[i])
    requires rest == "" || !IsDigit(rest[0])
    ensures DigitRun(s + rest) == |s|
  {
    if s == "" {
      assert s + rest == rest;
    } else {
      DigitRunOfDigits(s[1..], rest);
      assert (s + rest)[1..] == s[1..] + rest;
    }
  }

  /** Parsing inverts printing when what follows does not start with a digit. */
  lemma LeadingNumberOfDecimal(n: nat, rest: string)
    requires rest == "" || !IsDigit(rest[0])
    ensures LeadingNumber(Decimal(n) + rest) == n
  {
    var s := Decimal(n);
    DigitRunOfDigits(s, rest);
    assert (s + rest)[..|s|] == s;
    DecimalValue(n);
  }

  lemma AtoiOfSignedDecimal(n: int, rest: string)
    requires rest == "" || !IsDigit(rest[0])
    ensures Atoi(SignedDecimal(n) + rest) == n
  {
    hide LeadingNumber, Decimal;
    if n < 0 {
      var t := SignedDecimal(n) + rest;
      assert t[0] == '-' && t[1..] == Decimal(-n) + rest;
      assert SkipSpace(t) == t;
      LeadingNumberOfDecimal(-n, rest);
    } else {
      assert IsDigit((Decimal(n) + rest)[0]);
      LeadingNumberOfDecimal(n, rest);
    }
  }

  lemma StrToUllOfDecimal(n: nat, rest: string)
    requires n <= ULL_MAX
    requires rest == "" || !IsDigit(rest[0])
    ensures StrToUll(Decimal(n) + rest) == n
  {
    assert IsDigit((Decimal(n) + rest)[0]);
    LeadingNumberOfDecimal(n, rest);
  }

  /** The white space of the C locale: tab, newline, vertical tab, form feed, carriage return and blank. */
  predicate AllSpaces(s: string) {
    forall i :: 0 <= i < |s| ==> s[i] in {' ', '\t', '\n', 11 as char, 12 as char, '\r'}
  }

  lemma {:induction false} SkipsAllSpaces(spaces: string, t: string)
    requires AllSpaces(spaces) && t != "" && (t[0] == '+' || t[0] == '-' || IsDigit(t[0]))
    ensures SkipSpace(spaces + t) == t
  {
    if spaces == "" {
      assert spaces + t == t;
    } else {
      assert (spaces + t)[0] == spaces[0] && (spaces + t)[1..] == spaces[1..] + t;
      SkipsAllSpaces(spaces[1..], t);
    }
  }

  /** The number readers on white space, an optional sign, digits and anything behind them. */
  lemma ReadsNumber(spaces: string, sign: string, n: nat, rest: string)
    requires AllSpaces(spaces) && sign in ["", "+", "-"] && (rest == "" || !IsDigit(rest[0]))
    ensures var text := spaces + (sign + (Decimal(n) + rest));
      && (if sign == "-" then Atoi(text) + n == 0 else Atoi(text) == n)
      && StrToUll(text) == (if n > 0xffff_ffff_ffff_ffff then 0xffff_ffff_ffff_ffff
                            else if sign == "-" && n > 0 then 0x1_0000_0000_0000_0000 - n else n)
  {
    hide Decimal, LeadingNumber, SkipSpace;
    var number := Decimal(n) + rest;
    LeadingNumberOfDecimal(n, rest);
    assert IsDigit(number[0]);
    assert sign == "" ==> sign + number == number;
    assert sign != "" ==> (sign + number)[1..] == number;
    SkipsAllSpaces(spaces, sign + number);
  }

  lemma DecimalInjective(m: nat, n: nat)
    ensures Decimal(m) == Decimal(n) ==> m == n
  {
    DecimalValue(m);
    DecimalValue(n);
  }
}
