/** Where the constants of FIPS 180-4 come from: section 4.2.2 takes the fractional parts of the cube roots
    of the first sixty-four primes, section 5.3.3 of the square roots of the first eight. */
module Sha256Constants {
  import opened Sha256

  // ---------------------------------------------------------------- primes

  ghost predicate IsPrime(n: nat) { n >= 2 && forall d :: 2 <= d < n ==> n % d != 0 }

  ghost function PrimesBelow(n: nat): set<nat> { set q: nat | q < n && IsPrime(q) }

  /** No divisor from 2 to 17 but itself. */
  predicate Sieved(n: nat) {
    && n >= 2
    && (n % 2 != 0 || n == 2) && (n % 3 != 0 || n == 3) && (n % 5 != 0 || n == 5) && (n % 7 != 0 || n == 7)
    && (n % 11 != 0 || n == 11) && (n % 13 != 0 || n == 13) && (n % 17 != 0 || n == 17)
  }

  lemma DivisorOfDivisor(n: nat, d: nat, k: nat)
    requires d > 0 && k > 0 && n % d == 0 && d % k == 0
    ensures n % k == 0
  {
    var a, b := n / d, d / k;
    assert n == a * d && d == b * k;
    assert n == (a * b) * k;
    MultipleModulo(a * b, k);
  }

  lemma {:induction false} ProductGrows(a: nat, b: nat, k: nat)
    requires a < b
    ensures a * k + k <= b * k
  {
    assert b * k == (b - 1) * k + k;
    if a < b - 1 {
      ProductGrows(a, b - 1, k);
    }
  }

  lemma MultipleModulo(a: nat, k: nat)
    requires k > 0
    ensures (a * k) % k == 0
  {
    var q := (a * k) / k;
    if q < a {
      ProductGrows(q, a, k);
    } else if q > a {
      ProductGrows(a, q, k);
    }
  }

  lemma LargeProduct(d: nat, e: nat)
    ensures d >= 18 && e >= 18 ==> d * e >= 324
  {
    if d > 18 && e >= 18 {
      ProductGrows(18, d, e);
    }
  }

  /** Below 18 squared a number without a small divisor is prime. */
  lemma SieveIsExact(n: nat)
    requires n < 324
    ensures Sieved(n) <==> IsPrime(n)
  {
    if Sieved(n) {
      forall d | 2 <= d < n
        ensures n % d != 0
      {
        if n % d == 0 {
          SievedHasNoDivisor(n, d);
        }
      }
    }
  }

  lemma SievedHasNoDivisor(n: nat, d: nat)
    requires n < 324 && 2 <= d < n && n % d == 0
    ensures !Sieved(n)
  {
    hide Sieved;
    if d < 18 {
      SmallDivisor(n, d);
    } else {
      var e := n / d;
      assert n == d * e;
      LargeProduct(d, e);
      MultipleModulo(d, e);
      assert e > 1 by {
        if e == 1 {
          assert d * 1 == n;
        }
      }
      SmallDivisor(n, e);
    }
  }

  lemma SmallDivisor(n: nat, d: nat)
    requires 2 <= d < 18 && d < n && n % d == 0
    ensures !Sieved(n)
  {
    var k := if d % 2 == 0 then 2 else if d % 3 == 0 then 3 else if d % 5 == 0 then 5 else if d % 7 == 0 then 7 else d;
    assert d % k == 0 && k in {2, 3, 5, 7, 11, 13, 17};
    hide Sieved;
    DivisorOfDivisor(n, d, k);
    SievedAt(n, k);
  }

  lemma SievedAt(n: nat, k: nat)
    requires k in {2, 3, 5, 7, 11, 13, 17} && n % k == 0 && k < n
    ensures !Sieved(n)
  {
  }

  /** The sieved numbers strictly between p and q. */
  function Between(p: nat, q: nat): nat {
    if q <= p + 1 then 0 else Between(p, q - 1) + (if Sieved(q - 1) then 1 else 0)
  }

  lemma OneMoreNumber(n: nat)
    ensures |PrimesBelow(n + 1)| == |PrimesBelow(n)| + if IsPrime(n) then 1 else 0
  {
    hide IsPrime;
    if IsPrime(n) {
      assert PrimesBelow(n + 1) == PrimesBelow(n) + {n};
    } else {
      assert PrimesBelow(n + 1) == PrimesBelow(n);
    }
  }

  lemma {:induction false} BetweenCounts(p: nat, q: nat)
    requires p < q <= 324
    ensures |PrimesBelow(q)| == |PrimesBelow(p + 1)| + Between(p, q)
  {
    hide Sieved, IsPrime, PrimesBelow;
    if p + 1 < q {
      BetweenCounts(p, q - 1);
      SieveIsExact(q - 1);
      OneMoreNumber(q - 1);
    }
  }

  /** p is the prime number t, counted from 0: t primes are smaller. */
  ghost predicate IsNth(p: nat, t: nat) { IsPrime(p) && |PrimesBelow(p)| == t }

  lemma {:induction false} CountsGrow(m: nat, n: nat)
    requires m <= n
    ensures |PrimesBelow(m)| <= |PrimesBelow(n)|
  {
    hide PrimesBelow, IsPrime;
    if m < n {
      CountsGrow(m, n - 1);
      OneMoreNumber(n - 1);
    }
  }

  /** No number of a prime is shared. */
  lemma OnePrime(p: nat, q: nat, t: nat)
    requires IsNth(p, t) && IsNth(q, t)
    ensures p == q
  {
    hide PrimesBelow, IsPrime;
    OneMoreNumber(p);
    OneMoreNumber(q);
    if p < q {
      CountsGrow(p + 1, q);
    } else if p > q {
      CountsGrow(q + 1, p);
    }
  }

  lemma NextNth(p: nat, q: nat, t: nat)
    requires IsNth(p, t) && p < q < 324 && Sieved(q) && Between(p, q) == 0
    ensures IsNth(q, t + 1)
  {
    hide Sieved, IsPrime, PrimesBelow;
    SieveIsExact(q);
    OneMoreNumber(p);
    BetweenCounts(p, q);
  }

  // ---------------------------------------------------------------- roots

  /** The whole part of the cube root of p and the first 32 bits behind its point. */
  predicate CubeRoot(p: nat, whole: nat, k: nat) {
    && Cube(whole) <= p < Cube(whole + 1) && k < 0x1_0000_0000
    && Cube(whole * 0x1_0000_0000 + k) <= p * 0x1_0000_0000_0000_0000_0000_0000 < Cube(whole * 0x1_0000_0000 + k + 1)
  }

  ghost predicate HasCubeRoot(p: nat, k: nat) { exists whole :: CubeRoot(p, whole, k) }

  ghost predicate HasSquareRoot(p: nat, k: nat) { exists whole :: SquareRoot(p, whole, k) }

  predicate SquareRoot(p: nat, whole: nat, k: nat) {
    && Square(whole) <= p < Square(whole + 1) && k < 0x1_0000_0000
    && Square(whole * 0x1_0000_0000 + k) <= p * 0x1_0000_0000_0000_0000 < Square(whole * 0x1_0000_0000 + k + 1)
  }

  function Cube(n: nat): nat { n * n * n }

  function Square(n: nat): nat { n * n }

  lemma FirstPrime()
    ensures IsNth(2, 0)
  {
    SieveIsExact(2);
    assert PrimesBelow(2) == {};
  }

  // ---------------------------------------------------------------- the constants

  /** The constant of round t is the fraction of the cube root of prime t. */
  ghost predicate RoundConstant(t: nat)
    requires t < 64
  {
    exists p: nat :: IsNth(p, t) && HasCubeRoot(p, K[t] as nat)
  }

  lemma ConstantIs(p: nat, t: nat, whole: nat, w: bv32, k: nat)
    requires t < 64 && IsNth(p, t) && K[t] == w && w as nat == k
    requires CubeRoot(p, whole, k)
    ensures RoundConstant(t)
  {
    hide CubeRoot, IsNth;
    assert CubeRoot(p, whole, K[t] as nat);
  }

  lemma Primes0()
    ensures IsNth(2, 0) && IsNth(3, 1) && IsNth(5, 2) && IsNth(7, 3)
    ensures IsNth(11, 4) && IsNth(13, 5) && IsNth(17, 6) && IsNth(19, 7)
  {
    hide IsNth;
    FirstPrime();
    NextNth(2, 3, 0);
    NextNth(3, 5, 1);
    NextNth(5, 7, 2);
    NextNth(7, 11, 3);
    NextNth(11, 13, 4);
    NextNth(13, 17, 5);
    NextNth(17, 19, 6);
  }

  lemma Table0()
    ensures K[0] == 0x428a2f98 && K[1] == 0x71374491 && K[2] == 0xb5c0fbcf && K[3] == 0xe9b5dba5
    ensures K[4] == 0x3956c25b && K[5] == 0x59f111f1 && K[6] == 0x923f82a4 && K[7] == 0xab1c5ed5
  {
  }

  lemma Constants0()
    ensures IsNth(19, 7)
    ensures forall t :: 0 <= t < 8 ==> RoundConstant(t)
  {
    hide IsNth, RoundConstant, K;
    Primes0();
    Table0();
    ConstantIs(2, 0, 1, 0x428a2f98, 0x428a2f98);
    ConstantIs(3, 1, 1, 0x71374491, 0x71374491);
    ConstantIs(5, 2, 1, 0xb5c0fbcf, 0xb5c0fbcf);
    ConstantIs(7, 3, 1, 0xe9b5dba5, 0xe9b5dba5);
    ConstantIs(11, 4, 2, 0x3956c25b, 0x3956c25b);
    ConstantIs(13, 5, 2, 0x59f111f1, 0x59f111f1);
    ConstantIs(17, 6, 2, 0x923f82a4, 0x923f82a4);
    ConstantIs(19, 7, 2, 0xab1c5ed5, 0xab1c5ed5);
  }

  lemma Primes8()
    requires IsNth(19, 7)
    ensures IsNth(23, 8) && IsNth(29, 9) && IsNth(31, 10) && IsNth(37, 11)
    ensures IsNth(41, 12) && IsNth(43, 13) && IsNth(47, 14) && IsNth(53, 15)
  {
    hide IsNth;
    NextNth(19, 23, 7);
    NextNth(23, 29, 8);
    NextNth(29, 31, 9);
    NextNth(31, 37, 10);
    NextNth(37, 41, 11);
    NextNth(41, 43, 12);
    NextNth(43, 47, 13);
    NextNth(47, 53, 14);
  }

  lemma Table8()
    ensures K[8] == 0xd807aa98 && K[9] == 0x12835b01 && K[10] == 0x243185be && K[11] == 0x550c7dc3
    ensures K[12] == 0x72be5d74 && K[13] == 0x80deb1fe && K[14] == 0x9bdc06a7 && K[15] == 0xc19bf174
  {
  }

  lemma Constants8()
    requires IsNth(19, 7)
    ensures IsNth(53, 15)
    ensures forall t :: 8 <= t < 16 ==> RoundConstant(t)
  {
    hide IsNth, RoundConstant, K;
    Primes8();
    Table8();
    ConstantIs(23, 8, 2, 0xd807aa98, 0xd807aa98);
    ConstantIs(29, 9, 3, 0x12835b01, 0x12835b01);
    ConstantIs(31, 10, 3, 0x243185be, 0x243185be);
    ConstantIs(37, 11, 3, 0x550c7dc3, 0x550c7dc3);
    ConstantIs(41, 12, 3, 0x72be5d74, 0x72be5d74);
    ConstantIs(43, 13, 3, 0x80deb1fe, 0x80deb1fe);
    ConstantIs(47, 14, 3, 0x9bdc06a7, 0x9bdc06a7);
    ConstantIs(53, 15, 3, 0xc19bf174, 0xc19bf174);
  }

  lemma Primes16()
    requires IsNth(53, 15)
    ensures IsNth(59, 16) && IsNth(61, 17) && IsNth(67, 18) && IsNth(71, 19)
    ensures IsNth(73, 20) && IsNth(79, 21) && IsNth(83, 22) && IsNth(89, 23)
  {
    hide IsNth;
    NextNth(53, 59, 15);
    NextNth(59, 61, 16);
    NextNth(61, 67, 17);
    NextNth(67, 71, 18);
    NextNth(71, 73, 19);
    NextNth(73, 79, 20);
    NextNth(79, 83, 21);
    NextNth(83, 89, 22);
  }

  lemma Table16()
    ensures K[16] == 0xe49b69c1 && K[17] == 0xefbe4786 && K[18] == 0x0fc19dc6 && K[19] == 0x240ca1cc
    ensures K[20] == 0x2de92c6f && K[21] == 0x4a7484aa && K[22] == 0x5cb0a9dc && K[23] == 0x76f988da
  {
  }

  lemma Constants16()
    requires IsNth(53, 15)
    ensures IsNth(89, 23)
    ensures forall t :: 16 <= t < 24 ==> RoundConstant(t)
  {
    hide IsNth, RoundConstant, K;
    Primes16();
    Table16();
    ConstantIs(59, 16, 3, 0xe49b69c1, 0xe49b69c1);
    ConstantIs(61, 17, 3, 0xefbe4786, 0xefbe4786);
    ConstantIs(67, 18, 4, 0x0fc19dc6, 0x0fc19dc6);
    ConstantIs(71, 19, 4, 0x240ca1cc, 0x240ca1cc);
    ConstantIs(73, 20, 4, 0x2de92c6f, 0x2de92c6f);
    ConstantIs(79, 21, 4, 0x4a7484aa, 0x4a7484aa);
    ConstantIs(83, 22, 4, 0x5cb0a9dc, 0x5cb0a9dc);
    ConstantIs(89, 23, 4, 0x76f988da, 0x76f988da);
  }

  lemma Primes24()
    requires IsNth(89, 23)
    ensures IsNth(97, 24) && IsNth(101, 25) && IsNth(103, 26) && IsNth(107, 27)
    ensures IsNth(109, 28) && IsNth(113, 29) && IsNth(127, 30) && IsNth(131, 31)
  {
    hide IsNth;
    NextNth(89, 97, 23);
    NextNth(97, 101, 24);
    NextNth(101, 103, 25);
    NextNth(103, 107, 26);
    NextNth(107, 109, 27);
    NextNth(109, 113, 28);
    NextNth(113, 127, 29);
    NextNth(127, 131, 30);
  }

  lemma Table24()
    ensures K[24] == 0x983e5152 && K[25] == 0xa831c66d && K[26] == 0xb00327c8 && K[27] == 0xbf597fc7
    ensures K[28] == 0xc6e00bf3 && K[29] == 0xd5a79147 && K[30] == 0x06ca6351 && K[31] == 0x14292967
  {
  }

  lemma Constants24()
    requires IsNth(89, 23)
    ensures IsNth(131, 31)
    ensures forall t :: 24 <= t < 32 ==> RoundConstant(t)
  {
    hide IsNth, RoundConstant, K;
    Primes24();
    Table24();
    ConstantIs(97, 24, 4, 0x983e5152, 0x983e5152);
    ConstantIs(101, 25, 4, 0xa831c66d, 0xa831c66d);
    ConstantIs(103, 26, 4, 0xb00327c8, 0xb00327c8);
    ConstantIs(107, 27, 4, 0xbf597fc7, 0xbf597fc7);
    ConstantIs(109, 28, 4, 0xc6e00bf3, 0xc6e00bf3);
    ConstantIs(113, 29, 4, 0xd5a79147, 0xd5a79147);
    ConstantIs(127, 30, 5, 0x06ca6351, 0x06ca6351);
    ConstantIs(131, 31, 5, 0x14292967, 0x14292967);
  }

  lemma Primes32()
    requires IsNth(131, 31)
    ensures IsNth(137, 32) && IsNth(139, 33) && IsNth(149, 34) && IsNth(151, 35)
    ensures IsNth(157, 36) && IsNth(163, 37) && IsNth(167, 38) && IsNth(173, 39)
  {
    hide IsNth;
    NextNth(131, 137, 31);
    NextNth(137, 139, 32);
    NextNth(139, 149, 33);
    NextNth(149, 151, 34);
    NextNth(151, 157, 35);
    NextNth(157, 163, 36);
    NextNth(163, 167, 37);
    NextNth(167, 173, 38);
  }

  lemma Table32()
    ensures K[32] == 0x27b70a85 && K[33] == 0x2e1b2138 && K[34] == 0x4d2c6dfc && K[35] == 0x53380d13
    ensures K[36] == 0x650a7354 && K[37] == 0x766a0abb && K[38] == 0x81c2c92e && K[39] == 0x92722c85
  {
  }

  lemma Constants32()
    requires IsNth(131, 31)
    ensures IsNth(173, 39)
    ensures forall t :: 32 <= t < 40 ==> RoundConstant(t)
  {
    hide IsNth, RoundConstant, K;
    Primes32();
    Table32();
    ConstantIs(137, 32, 5, 0x27b70a85, 0x27b70a85);
    ConstantIs(139, 33, 5, 0x2e1b2138, 0x2e1b2138);
    ConstantIs(149, 34, 5, 0x4d2c6dfc, 0x4d2c6dfc);
    ConstantIs(151, 35, 5, 0x53380d13, 0x53380d13);
    ConstantIs(157, 36, 5, 0x650a7354, 0x650a7354);
    ConstantIs(163, 37, 5, 0x766a0abb, 0x766a0abb);
    ConstantIs(167, 38, 5, 0x81c2c92e, 0x81c2c92e);
    ConstantIs(173, 39, 5, 0x92722c85, 0x92722c85);
  }

  lemma Primes40()
    requires IsNth(173, 39)
    ensures IsNth(179, 40) && IsNth(181, 41) && IsNth(191, 42) && IsNth(193, 43)
    ensures IsNth(197, 44) && IsNth(199, 45) && IsNth(211, 46) && IsNth(223, 47)
  {
    hide IsNth;
    NextNth(173, 179, 39);
    NextNth(179, 181, 40);
    NextNth(181, 191, 41);
    NextNth(191, 193, 42);
    NextNth(193, 197, 43);
    NextNth(197, 199, 44);
    NextNth(199, 211, 45);
    NextNth(211, 223, 46);
  }

  lemma Table40()
    ensures K[40] == 0xa2bfe8a1 && K[41] == 0xa81a664b && K[42] == 0xc24b8b70 && K[43] == 0xc76c51a3
    ensures K[44] == 0xd192e819 && K[45] == 0xd6990624 && K[46] == 0xf40e3585 && K[47] == 0x106aa070
  {
  }

  lemma Constants40()
    requires IsNth(173, 39)
    ensures IsNth(223, 47)
    ensures forall t :: 40 <= t < 48 ==> RoundConstant(t)
  {
    hide IsNth, RoundConstant, K;
    Primes40();
    Table40();
    ConstantIs(179, 40, 5, 0xa2bfe8a1, 0xa2bfe8a1);
    ConstantIs(181, 41, 5, 0xa81a664b, 0xa81a664b);
    ConstantIs(191, 42, 5, 0xc24b8b70, 0xc24b8b70);
    ConstantIs(193, 43, 5, 0xc76c51a3, 0xc76c51a3);
    ConstantIs(197, 44, 5, 0xd192e819, 0xd192e819);
    ConstantIs(199, 45, 5, 0xd6990624, 0xd6990624);
    ConstantIs(211, 46, 5, 0xf40e3585, 0xf40e3585);
    ConstantIs(223, 47, 6, 0x106aa070, 0x106aa070);
  }

  lemma Primes48()
    requires IsNth(223, 47)
    ensures IsNth(227, 48) && IsNth(229, 49) && IsNth(233, 50) && IsNth(239, 51)
    ensures IsNth(241, 52) && IsNth(251, 53) && IsNth(257, 54) && IsNth(263, 55)
  {
    hide IsNth;
    NextNth(223, 227, 47);
    NextNth(227, 229, 48);
    NextNth(229, 233, 49);
    NextNth(233, 239, 50);
    NextNth(239, 241, 51);
    NextNth(241, 251, 52);
    NextNth(251, 257, 53);
    NextNth(257, 263, 54);
  }

  lemma Table48()
    ensures K[48] == 0x19a4c116 && K[49] == 0x1e376c08 && K[50] == 0x2748774c && K[51] == 0x34b0bcb5
    ensures K[52] == 0x391c0cb3 && K[53] == 0x4ed8aa4a && K[54] == 0x5b9cca4f && K[55] == 0x682e6ff3
  {
  }

  lemma Constants48()
    requires IsNth(223, 47)
    ensures IsNth(263, 55)
    ensures forall t :: 48 <= t < 56 ==> RoundConstant(t)
  {
    hide IsNth, RoundConstant, K;
    Primes48();
    Table48();
    ConstantIs(227, 48, 6, 0x19a4c116, 0x19a4c116);
    ConstantIs(229, 49, 6, 0x1e376c08, 0x1e376c08);
    ConstantIs(233, 50, 6, 0x2748774c, 0x2748774c);
    ConstantIs(239, 51, 6, 0x34b0bcb5, 0x34b0bcb5);
    ConstantIs(241, 52, 6, 0x391c0cb3, 0x391c0cb3);
    ConstantIs(251, 53, 6, 0x4ed8aa4a, 0x4ed8aa4a);
    ConstantIs(257, 54, 6, 0x5b9cca4f, 0x5b9cca4f);
    ConstantIs(263, 55, 6, 0x682e6ff3, 0x682e6ff3);
  }

  lemma Primes56()
    requires IsNth(263, 55)
    ensures IsNth(269, 56) && IsNth(271, 57) && IsNth(277, 58) && IsNth(281, 59)
    ensures IsNth(283, 60) && IsNth(293, 61) && IsNth(307, 62) && IsNth(311, 63)
  {
    hide IsNth;
    NextNth(263, 269, 55);
    NextNth(269, 271, 56);
    NextNth(271, 277, 57);
    NextNth(277, 281, 58);
    NextNth(281, 283, 59);
    NextNth(283, 293, 60);
    NextNth(293, 307, 61);
    NextNth(307, 311, 62);
  }

  lemma Table56()
    ensures K[56] == 0x748f82ee && K[57] == 0x78a5636f && K[58] == 0x84c87814 && K[59] == 0x8cc70208
    ensures K[60] == 0x90befffa && K[61] == 0xa4506ceb && K[62] == 0xbef9a3f7 && K[63] == 0xc67178f2
  {
  }

  lemma Constants56()
    requires IsNth(263, 55)
    ensures IsNth(311, 63)
    ensures forall t :: 56 <= t < 64 ==> RoundConstant(t)
  {
    hide IsNth, RoundConstant, K;
    Primes56();
    Table56();
    ConstantIs(269, 56, 6, 0x748f82ee, 0x748f82ee);
    ConstantIs(271, 57, 6, 0x78a5636f, 0x78a5636f);
    ConstantIs(277, 58, 6, 0x84c87814, 0x84c87814);
    ConstantIs(281, 59, 6, 0x8cc70208, 0x8cc70208);
    ConstantIs(283, 60, 6, 0x90befffa, 0x90befffa);
    ConstantIs(293, 61, 6, 0xa4506ceb, 0xa4506ceb);
    ConstantIs(307, 62, 6, 0xbef9a3f7, 0xbef9a3f7);
    ConstantIs(311, 63, 6, 0xc67178f2, 0xc67178f2);
  }

  /** Every constant of the table. */
  lemma RoundConstants(t: nat)
    requires t < 64
    ensures RoundConstant(t)
  {
    hide RoundConstant, IsNth;
    Constants0();
    Constants8();
    Constants16();
    Constants24();
    Constants32();
    Constants40();
    Constants48();
    Constants56();
  }

  /** The word is the fraction of the square root of prime t. */
  ghost predicate InitialWord(w: Word, t: nat) {
    exists p: nat :: IsNth(p, t) && HasSquareRoot(p, w.bits as nat)
  }

  lemma InitialIs(p: nat, t: nat, whole: nat, w: bv32, k: nat)
    requires IsNth(p, t) && w as nat == k
    requires SquareRoot(p, whole, k)
    ensures InitialWord(Word(w), t)
  {
    hide SquareRoot, IsNth;
    assert SquareRoot(p, whole, Word(w).bits as nat);
  }

  lemma InitialWords()
    ensures var v := INITIAL;
      && InitialWord(v.a, 0) && InitialWord(v.b, 1) && InitialWord(v.c, 2) && InitialWord(v.d, 3)
      && InitialWord(v.e, 4) && InitialWord(v.f, 5) && InitialWord(v.g, 6) && InitialWord(v.h, 7)
  {
    Primes0();
    hide IsNth, InitialWord;
    InitialIs(2, 0, 1, 0x6a09e667, 0x6a09e667);
    InitialIs(3, 1, 1, 0xbb67ae85, 0xbb67ae85);
    InitialIs(5, 2, 2, 0x3c6ef372, 0x3c6ef372);
    InitialIs(7, 3, 2, 0xa54ff53a, 0xa54ff53a);
    InitialIs(11, 4, 3, 0x510e527f, 0x510e527f);
    InitialIs(13, 5, 3, 0x9b05688c, 0x9b05688c);
    InitialIs(17, 6, 4, 0x1f83d9ab, 0x1f83d9ab);
    InitialIs(19, 7, 4, 0x5be0cd19, 0x5be0cd19);
  }
}
