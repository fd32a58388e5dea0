/** The streaming SHA-256 of core/src/storage/bms_sha256.c, proved against the one-shot definition
    of FIPS 180-4: padding of section 5.1.1, block computation of section 6.2.2. */
module Sha256 {

  newtype Byte = x: int | 0 <= x < 256

  /** A 32-bit unsigned word. */
  datatype Word = Word(bits: bv32)

  const TWO64: int := 0x1_0000_0000_0000_0000

  const K: seq<bv32> :=
    [0x428a2f98, 0x71374491, 0xb5c0fbcf, 0xe9b5dba5, 0x3956c25b, 0x59f111f1, 0x923f82a4, 0xab1c5ed5] +
    [0xd807aa98, 0x12835b01, 0x243185be, 0x550c7dc3, 0x72be5d74, 0x80deb1fe, 0x9bdc06a7, 0xc19bf174] +
    [0xe49b69c1, 0xefbe4786, 0x0fc19dc6, 0x240ca1cc, 0x2de92c6f, 0x4a7484aa, 0x5cb0a9dc, 0x76f988da] +
    [0x983e5152, 0xa831c66d, 0xb00327c8, 0xbf597fc7, 0xc6e00bf3, 0xd5a79147, 0x06ca6351, 0x14292967] +
    [0x27b70a85, 0x2e1b2138, 0x4d2c6dfc, 0x53380d13, 0x650a7354, 0x766a0abb, 0x81c2c92e, 0x92722c85] +
    [0xa2bfe8a1, 0xa81a664b, 0xc24b8b70, 0xc76c51a3, 0xd192e819, 0xd6990624, 0xf40e3585, 0x106aa070] +
    [0x19a4c116, 0x1e376c08, 0x2748774c, 0x34b0bcb5, 0x391c0cb3, 0x4ed8aa4a, 0x5b9cca4f, 0x682e6ff3] +
    [0x748f82ee, 0x78a5636f, 0x84c87814, 0x8cc70208, 0x90befffa, 0xa4506ceb, 0xbef9a3f7, 0xc67178f2]

  // ---------------------------------------------------------------- FIPS 180-4, the definition

  /** The working variables a..h, also used for the eight words of a hash value. */
  datatype Vars = Vars(a: Word, b: Word, c: Word, d: Word, e: Word, f: Word, g: Word, h: Word)

  const INITIAL: Vars := Vars(Word(0x6a09e667), Word(0xbb67ae85), Word(0x3c6ef372), Word(0xa54ff53a),
                              Word(0x510e527f), Word(0x9b05688c), Word(0x1f83d9ab), Word(0x5be0cd19))

  // Word operations of section 3.2. They have names so that proofs can hide the bit level.

  function Add(x: Word, y: Word): Word { Word(x.bits + y.bits) }

  function Xor(x: Word, y: Word): Word { Word(x.bits ^ y.bits) }

  function And(x: Word, y: Word): Word { Word(x.bits & y.bits) }

  function Not(x: Word): Word { Word(!x.bits) }

  function Shr(x: Word, n: bv32): Word
    requires n < 32
  {
    Word(x.bits >> n)
  }

  /** ROTR of section 3.2, which is also the source's rotr. */
  function Rotr(x: Word, n: bv32): Word
    requires 0 < n < 32
  {
    Word((x.bits >> n) | (x.bits << (32 - n)))
  }

  function Sum4(x: Word, y: Word, z: Word, w: Word): Word { Add(Add(Add(x, y), z), w) }

  function Xor3(x: Word, y: Word, z: Word): Word { Xor(Xor(x, y), z) }

  function BigSigma0(x: Word): Word { Xor3(Rotr(x, 2), Rotr(x, 13), Rotr(x, 22)) }

  function BigSigma1(x: Word): Word { Xor3(Rotr(x, 6), Rotr(x, 11), Rotr(x, 25)) }

  function SmallSigma0(x: Word): Word { Xor3(Rotr(x, 7), Rotr(x, 18), Shr(x, 3)) }

  function SmallSigma1(x: Word): Word { Xor3(Rotr(x, 17), Rotr(x, 19), Shr(x, 10)) }

  function Ch(x: Word, y: Word, z: Word): Word { Xor(And(x, y), And(Not(x), z)) }

  function Maj(x: Word, y: Word, z: Word): Word { Xor3(And(x, y), And(x, z), And(y, z)) }

  /** A big-endian word. */
  function LoadWord(b0: Byte, b1: Byte, b2: Byte, b3: Byte): Word {
    Word(((b0 as bv32) << 24) | ((b1 as bv32) << 16) | ((b2 as bv32) << 8) | (b3 as bv32))
  }

  /** Word t of the message schedule from the words before it, section 6.2.2 step 1 (the four terms
      of the sum in the source's order). */
  function NextWord(block: seq<Byte>, w: seq<Word>): Word
    requires |block| == 64 && |w| < 64
  {
    var t := |w|;
    if t < 16 then LoadWord(block[4 * t], block[4 * t + 1], block[4 * t + 2], block[4 * t + 3])
    else Sum4(w[t - 16], SmallSigma0(w[t - 15]), w[t - 7], SmallSigma1(w[t - 2]))
  }

  function Schedule(block: seq<Byte>, n: nat): (w: seq<Word>)
    requires |block| == 64 && n <= 64
    ensures |w| == n
  {
    if n == 0 then [] else
    var w := Schedule(block, n - 1);
    w + [NextWord(block, w)]
  }

  /** One round of section 6.2.2, step 3. */
  function Round(v: Vars, k: Word, w: Word): Vars {
    var t1 := Add(Sum4(v.h, BigSigma1(v.e), Ch(v.e, v.f, v.g), k), w);
    var t2 := Add(BigSigma0(v.a), Maj(v.a, v.b, v.c));
    Vars(Add(t1, t2), v.a, v.b, v.c, Add(v.d, t1), v.e, v.f, v.g)
  }

  function Rounds(v: Vars, w: seq<Word>, t: nat): Vars
    requires |w| == 64 && t <= 64
  {
    if t == 0 then v else Round(Rounds(v, w, t - 1), Word(K[t - 1]), w[t - 1])
  }

  function AddVars(x: Vars, y: Vars): Vars {
    Vars(Add(x.a, y.a), Add(x.b, y.b), Add(x.c, y.c), Add(x.d, y.d),
         Add(x.e, y.e), Add(x.f, y.f), Add(x.g, y.g), Add(x.h, y.h))
  }

  function Compress(v: Vars, block: seq<Byte>): Vars
    requires |block| == 64
  {
    var w := Schedule(block, |block|);
    AddVars(v, Rounds(v, w, |w|))
  }

  /** The intermediate hash value after all the 64-byte blocks of `bytes`. */
  function HashBlocks(bytes: seq<Byte>): Vars
    requires |bytes| % 64 == 0
  {
    if |bytes| == 0 then INITIAL
    else Compress(HashBlocks(bytes[..|bytes| - 64]), bytes[|bytes| - 64..])
  }

  function Zeros(n: nat): (z: seq<Byte>)
    ensures |z| == n
  {
    seq(n, _ => 0)
  }

  /** The number of zero bytes of section 5.1.1: LeastZeroBytes states that it is the smallest one. */
  function ZeroCount(n: nat): nat { (55 - n) % 64 }

  function LengthByte(bits: nat, place: nat): Byte
    requires place > 0
  {
    ((bits / place) % 256) as Byte
  }

  /** The 64-bit big-endian message length. */
  function LengthBytes(bits: nat): (r: seq<Byte>)
    ensures |r| == 8
  {
    [LengthByte(bits, 0x100_0000_0000_0000), LengthByte(bits, 0x1_0000_0000_0000),
     LengthByte(bits, 0x100_0000_0000), LengthByte(bits, 0x1_0000_0000),
     LengthByte(bits, 0x100_0000), LengthByte(bits, 0x1_0000),
     LengthByte(bits, 0x100), LengthByte(bits, 1)]
  }

  /** The length in bits as the source's 64-bit counter holds it. */
  function BitCount(n: nat): nat { (8 * n) % TWO64 }

  function Tail(n: nat): seq<Byte> { [0x80] + Zeros(ZeroCount(n)) + LengthBytes(BitCount(n)) }

  /** The padded message; the standard defines it for 8 * |msg| < 2^64, where the reduction is void. */
  function Padded(msg: seq<Byte>): (p: seq<Byte>)
    ensures |p| % 64 == 0
  {
    msg + Tail(|msg|)
  }

  /** The low byte of the word shifted right. */
  function ByteAt(w: Word, shift: bv32): Byte
    requires shift <= 24
  {
    ((w.bits >> shift) & 0xff) as bv8 as Byte
  }

  function WordBytes(w: Word): (r: seq<Byte>)
    ensures |r| == 4
  {
    [ByteAt(w, 24), ByteAt(w, 16), ByteAt(w, 8), ByteAt(w, 0)]
  }

  function VarsBytes(v: Vars): (r: seq<Byte>)
    ensures |r| == 32
  {
    WordBytes(v.a) + WordBytes(v.b) + WordBytes(v.c) + WordBytes(v.d) +
    WordBytes(v.e) + WordBytes(v.f) + WordBytes(v.g) + WordBytes(v.h)
  }

  function Digest(msg: seq<Byte>): (r: seq<Byte>)
    ensures |r| == 32
  {
    VarsBytes(HashBlocks(Padded(msg)))
  }

  lemma HashOneMore(prefix: seq<Byte>, block: seq<Byte>)
    requires |prefix| % 64 == 0 && |block| == 64
    ensures HashBlocks(prefix + block) == Compress(HashBlocks(prefix), block)
  {
    hide Compress;
    var all := prefix + block;
    assert all[..|all| - 64] == prefix && all[|all| - 64..] == block;
  }

  /** Section 5.1.1: k is the smallest non-negative solution of n + 1 + k = 56 (mod 64), in bytes. */
  lemma LeastZeroBytes(n: nat, k: nat)
    ensures (n + 1 + ZeroCount(n)) % 64 == 56
    ensures (n + 1 + k) % 64 == 56 ==> ZeroCount(n) <= k
  {
    var q, r := (55 - n) / 64, (55 - n) % 64;
    assert n + 1 + r == 56 - 64 * q;
  }

  function BigEndian(bytes: seq<Byte>): nat {
    if bytes == [] then 0 else BigEndian(bytes[..|bytes| - 1]) * 256 + bytes[|bytes| - 1] as nat
  }

  /** Shifting right by eight more bits divides by 256 once more. */
  lemma ShiftBy8(n: nat)
    ensures n / 0x1_0000 == n / 0x100 / 256
    ensures n / 0x100_0000 == n / 0x1_0000 / 256
    ensures n / 0x1_0000_0000 == n / 0x100_0000 / 256
    ensures n / 0x100_0000_0000 == n / 0x1_0000_0000 / 256
    ensures n / 0x1_0000_0000_0000 == n / 0x100_0000_0000 / 256
    ensures n / 0x100_0000_0000_0000 == n / 0x1_0000_0000_0000 / 256
  {
  }

  /** The number whose base-256 digits are q0 % 256, q1 % 256, ... */
  lemma Digits(q0: nat, q1: nat, q2: nat, q3: nat, q4: nat, q5: nat, q6: nat, q7: nat)
    requires q1 == q0 / 256 && q2 == q1 / 256 && q3 == q2 / 256 && q4 == q3 / 256
    requires q5 == q4 / 256 && q6 == q5 / 256 && q7 == q6 / 256 && q7 < 256
    ensures ((((((q7 * 256 + q6 % 256) * 256 + q5 % 256) * 256 + q4 % 256) * 256 + q3 % 256) * 256
             + q2 % 256) * 256 + q1 % 256) * 256 + q0 % 256 == q0
  {
  }

  /** The length field holds the bit length exactly when that fits in 64 bits, the standard's domain. */
  lemma LengthFieldIsLength(n: nat)
    ensures BigEndian(LengthBytes(BitCount(n))) == (8 * n) % TWO64
    ensures BigEndian(LengthBytes(BitCount(n))) == 8 * n <==> 8 * n < TWO64
  {
    var b := BitCount(n);
    LengthFieldDecodes(b);
  }

  lemma LengthDigits(b: nat)
    ensures var r := LengthBytes(b);
      && r[0] as nat == b / 0x100_0000_0000_0000 % 256 && r[1] as nat == b / 0x1_0000_0000_0000 % 256
      && r[2] as nat == b / 0x100_0000_0000 % 256 && r[3] as nat == b / 0x1_0000_0000 % 256
      && r[4] as nat == b / 0x100_0000 % 256 && r[5] as nat == b / 0x1_0000 % 256
      && r[6] as nat == b / 0x100 % 256 && r[7] as nat == b % 256
  {
  }

  lemma LengthFieldDecodes(b: nat)
    requires b < TWO64
    ensures BigEndian(LengthBytes(b)) == b
  {
    hide BigEndian, LengthBytes;
    ShiftBy8(b);
    LengthDigits(b);
    Digits(b, b / 0x100, b / 0x1_0000, b / 0x100_0000, b / 0x1_0000_0000, b / 0x100_0000_0000,
           b / 0x1_0000_0000_0000, b / 0x100_0000_0000_0000);
    BigEndianOf8(LengthBytes(b));
  }

  lemma BigEndianOf8(r: seq<Byte>)
    requires |r| == 8
    ensures BigEndian(r) ==
      ((((((r[0] as nat * 256 + r[1] as nat) * 256 + r[2] as nat) * 256 + r[3] as nat) * 256 + r[4] as nat) * 256
        + r[5] as nat) * 256 + r[6] as nat) * 256 + r[7] as nat
  {
    for k := 1 to 9
      invariant 1 <= k <= 9
      invariant k > 1 ==> BigEndian(r[..1]) == r[0] as nat
      invariant forall i :: 2 <= i < k ==> BigEndian(r[..i]) == BigEndian(r[..i - 1]) * 256 + r[i - 1] as nat
    {
      BigEndianAt(r, k);
    }
    assert r[..8] == r;
  }

  lemma BigEndianAt(r: seq<Byte>, k: nat)
    requires 0 < k <= |r|
    ensures BigEndian(r[..k]) == BigEndian(r[..k - 1]) * 256 + r[k - 1] as nat
  {
    assert r[..k][..k - 1] == r[..k - 1];
  }

  // ---------------------------------------------------------------- the C code

  /** How the zero bytes split over the last blocks. */
  lemma PaddingShape(n: nat)
    ensures n % 64 < 56 ==> ZeroCount(n) == 55 - n % 64
    ensures n % 64 >= 56 ==> Zeros(ZeroCount(n)) == Zeros(63 - n % 64) + Zeros(56)
  {
  }

  lemma JoinPadding(head: seq<Byte>, rest: seq<Byte>, x: seq<Byte>, y: seq<Byte>)
    ensures head + (rest + [0x80] + y) == (head + rest) + [0x80] + y
    ensures (head + (rest + [0x80] + x)) + y == (head + rest) + [0x80] + (x + y)
  {
  }

  lemma JoinLength(msg: seq<Byte>, zeros: seq<Byte>, length: seq<Byte>)
    ensures (msg + [0x80] + zeros) + length == msg + ([0x80] + zeros + length)
  {
  }

  lemma EmptyPrefix()
    ensures BitCount(0) == 0 && HashBlocks([]) == INITIAL
  {
  }

  lemma BitCountAdds(n: nat, more: nat)
    ensures (BitCount(n) + more * 8) % TWO64 == BitCount(n + more)
  {
  }

  /** The body of the second schedule loop. */
  method ExpandWord(m15: Word, m2: Word, m16: Word, m7: Word) returns (w: Word)
    ensures w == Sum4(m16, SmallSigma0(m15), m7, SmallSigma1(m2))
  {
    hide Add, Xor, And, Not, Shr, Rotr;
    var s0 := Xor(Xor(Rotr(m15, 7), Rotr(m15, 18)), Shr(m15, 3));
    var s1 := Xor(Xor(Rotr(m2, 17), Rotr(m2, 19)), Shr(m2, 10));
    w := Add(Add(Add(m16, s0), m7), s1);
  }

  /** The body of the compression loop on the eight working variables. */
  method RoundStep(v: Vars, k: Word, w: Word) returns (r: Vars)
    ensures r == Round(v, k, w)
  {
    hide Add, Xor, And, Not, Shr, Rotr;
    var Vars(a, b, c, d, e, f, g, h) := v;
    var s1 := Xor(Xor(Rotr(e, 6), Rotr(e, 11)), Rotr(e, 25));
    var ch := Xor(And(e, f), And(Not(e), g));
    var s0 := Xor(Xor(Rotr(a, 2), Rotr(a, 13)), Rotr(a, 22));
    var maj := Xor(Xor(And(a, b), And(a, c)), And(b, c));
    var t1 := Add(Add(Add(Add(h, s1), ch), k), w);
    var t2 := Add(s0, maj);
    h, g, f := g, f, e;
    e := Add(d, t1);
    d, c, b := c, b, a;
    a := Add(t1, t2);
    r := Vars(a, b, c, d, e, f, g, h);
  }

  class Sha256Ctx {
    const data: array<Byte>
    var datalen: nat
    var bitlen: nat
    const state: array<Word>

    ghost predicate Valid()
      reads this
    {
      data.Length == 64 && state.Length == 8 && datalen < 64
    }

    function StateVars(): Vars
      requires state.Length == 8
      reads state
    {
      Vars(state[0], state[1], state[2], state[3], state[4], state[5], state[6], state[7])
    }

    /** The context after exactly the bytes of `msg` have been absorbed. */
    ghost predicate Absorbed(msg: seq<Byte>)
      reads this, data, state
    {
      && Valid()
      && datalen == |msg| % 64
      && data[..datalen] == msg[|msg| - datalen..]
      && StateVars() == HashBlocks(msg[..|msg| - datalen])
      && bitlen == BitCount(|msg| - datalen)
    }

    constructor ()
      ensures Absorbed([])
      ensures fresh(data) && fresh(state)
    {
      data := new Byte[64](_ => 0);
      state := new Word[8](_ => Word(0));
      datalen, bitlen := 0, 0;
      new;
      hide Compress, BitCount;
      EmptyPrefix();
      state[0], state[1], state[2], state[3] := Word(0x6a09e667), Word(0xbb67ae85), Word(0x3c6ef372), Word(0xa54ff53a);
      state[4], state[5], state[6], state[7] := Word(0x510e527f), Word(0x9b05688c), Word(0x1f83d9ab), Word(0x5be0cd19);
    }

    method LoadSchedule() returns (m: array<Word>)
      requires data.Length == 64
      ensures fresh(m) && m[..] == Schedule(data[..], data.Length)
    {
      hide Add, Xor, And, Not, Shr, Rotr, LoadWord;
      ghost var block := data[..];
      m := new Word[64](_ => Word(0));
      var i, j := 0, 0;
      while i < 16
        invariant 0 <= i <= 16 && j == 4 * i
        invariant data[..] == block && m[..i] == Schedule(block, i)
      {
        m[i] := LoadWord(data[j], data[j + 1], data[j + 2], data[j + 3]);
        assert m[..i + 1] == m[..i] + [m[i]];
        assert m[i] == NextWord(block, m[..i]);
        i, j := i + 1, j + 4;
      }
      while i < 64
        invariant 16 <= i <= 64
        invariant data[..] == block && m[..i] == Schedule(block, i)
      {
        m[i] := ExpandWord(m[i - 15], m[i - 2], m[i - 16], m[i - 7]);
        assert m[..i + 1] == m[..i] + [m[i]];
        assert m[i] == NextWord(block, m[..i]);
        i := i + 1;
      }
      assert m[..] == m[..64];
    }

    method Transform()
      requires data.Length == 64 && state.Length == 8
      modifies state
      ensures StateVars() == Compress(old(StateVars()), data[..])
    {
      hide Add, Round;
      ghost var block := data[..];
      var start := StateVars();
      var m := LoadSchedule();
      ghost var w := m[..];
      var v := start;
      var i := 0;
      while i < 64
        invariant 0 <= i <= 64
        invariant v == Rounds(start, w, i)
        invariant m[..] == w == Schedule(block, 64)
      {
        v := RoundStep(v, Word(K[i]), m[i]);
        i := i + 1;
      }
      AddState(AddVars(start, v));
    }

    method AddState(r: Vars)
      requires state.Length == 8
      modifies state
      ensures StateVars() == r
    {
      state[0], state[1], state[2], state[3] := r.a, r.b, r.c, r.d;
      state[4], state[5], state[6], state[7] := r.e, r.f, r.g, r.h;
    }

    method Update(input: seq<Byte>, ghost msg: seq<Byte>)
      requires Absorbed(msg)
      modifies this, data, state
      ensures Absorbed(msg + input)
    {
      hide Absorbed;
      var i := 0;
      assert msg + input[..0] == msg;
      while i < |input|
        invariant 0 <= i <= |input|
        invariant Absorbed(msg + input[..i])
      {
        UpdateByte(input[i], msg + input[..i]);
        assert msg + input[..i + 1] == (msg + input[..i]) + [input[i]];
        i := i + 1;
      }
      assert input[..i] == input;
    }

    /** The body of the update loop. */
    method UpdateByte(b: Byte, ghost msg: seq<Byte>)
      requires Absorbed(msg)
      modifies this, data, state
      ensures Absorbed(msg + [b])
    {
      hide Compress, HashBlocks, BitCount, StateVars;
      ghost var now := msg + [b];
      ghost var full := |msg| - datalen;
      data[datalen] := b;
      datalen := datalen + 1;
      assert data[..datalen] == now[full..];
      assert now[..full] == msg[..full];
      if datalen == 64 {
        ghost var block := data[..];
        Transform();
        HashOneMore(msg[..full], block);
        BitCountAdds(full, 64);
        bitlen := (bitlen + 512) % TWO64;
        datalen := 0;
        assert now[..|now|] == msg[..full] + block;
      }
    }

    /** The 0x80 marker and the zeros up to `limit`. */
    method Mark(limit: nat)
      requires Valid() && datalen < limit <= 64
      modifies data
      ensures data[..limit] == old(data[..datalen]) + [0x80] + Zeros(limit - datalen - 1)
    {
      var i := datalen;
      data[i] := 0x80;
      i := i + 1;
      while i < limit
        invariant datalen < i <= limit
        invariant data[..i] == old(data[..datalen]) + [0x80] + Zeros(i - datalen - 1)
      {
        data[i] := 0x00;
        i := i + 1;
      }
    }

    method ClearHead()
      requires data.Length == 64
      modifies data
      ensures data[..56] == Zeros(56)
    {
      var z := 0;
      while z < 56
        invariant 0 <= z <= 56
        invariant data[..z] == Zeros(z)
      {
        data[z] := 0x00;
        z := z + 1;
      }
    }

    method StoreLength()
      requires data.Length == 64
      modifies data
      ensures data[..] == old(data[..56]) + LengthBytes(bitlen)
    {
      data[63] := (bitlen % 256) as Byte;
      data[62] := ((bitlen / 0x100) % 256) as Byte;
      data[61] := ((bitlen / 0x1_0000) % 256) as Byte;
      data[60] := ((bitlen / 0x100_0000) % 256) as Byte;
      data[59] := ((bitlen / 0x1_0000_0000) % 256) as Byte;
      data[58] := ((bitlen / 0x100_0000_0000) % 256) as Byte;
      data[57] := ((bitlen / 0x1_0000_0000_0000) % 256) as Byte;
      data[56] := ((bitlen / 0x100_0000_0000_0000) % 256) as Byte;
    }

    /** The two padding branches: afterwards 56 bytes of the last block are in place. */
    method PadTo56(ghost msg: seq<Byte>) returns (ghost head: seq<Byte>)
      requires Absorbed(msg)
      modifies data, state
      ensures |head| % 64 == 0 && StateVars() == HashBlocks(head)
      ensures head + data[..56] == msg + [0x80] + Zeros(ZeroCount(|msg|))
    {
      hide Compress, HashBlocks, ZeroCount, BitCount, StateVars;
      PaddingShape(|msg|);
      head := msg[..|msg| - datalen];
      ghost var rest := data[..datalen];
      assert msg == head + rest;
      if datalen < 56 {
        Mark(56);
        JoinPadding(head, rest, [], Zeros(55 - datalen));
      } else {
        Mark(64);
        ghost var first := data[..];
        Transform();
        HashOneMore(head, first);
        ClearHead();
        JoinPadding(head, rest, Zeros(63 - datalen), Zeros(56));
        head := head + first;
      }
    }

    /** Appends the padding in the last one or two blocks and returns the hash value. */
    method Final(ghost msg: seq<Byte>) returns (hash: array<Byte>)
      requires Absorbed(msg)
      modifies this, data, state
      ensures fresh(hash) && hash[..] == Digest(msg)
    {
      hide Compress, HashBlocks, LengthBytes, VarsBytes, ZeroCount, BitCount, StateVars, Zeros;
      ghost var full := |msg| - datalen;
      ghost var head := PadTo56(msg);
      ghost var body := data[..56];
      BitCountAdds(full, datalen);
      bitlen := (bitlen + datalen * 8) % TWO64;
      StoreLength();
      ghost var last := data[..];
      Transform();
      HashOneMore(head, last);
      JoinLength(msg, Zeros(ZeroCount(|msg|)), LengthBytes(bitlen));
      assert head + last == (head + body) + LengthBytes(bitlen);
      hash := EmitHash();
    }

    method EmitHash() returns (hash: array<Byte>)
      requires state.Length == 8
      ensures fresh(hash) && hash[..] == VarsBytes(StateVars())
    {
      hide ByteAt;
      hash := new Byte[32](_ => 0);
      var i := 0;
      while i < 4
        invariant 0 <= i <= 4
        invariant forall p, j :: 0 <= p < i && 0 <= j < 8 ==> hash[p + j * 4] == WordBytes(state[j])[p]
      {
        var shift: bv32 := if i == 0 then 24 else if i == 1 then 16 else if i == 2 then 8 else 0;
        var j := 0;
        while j < 8
          invariant 0 <= j <= 8
          invariant forall p, q :: 0 <= p < i && 0 <= q < 8 ==> hash[p + q * 4] == WordBytes(state[q])[p]
          invariant forall q :: 0 <= q < j ==> hash[i + q * 4] == WordBytes(state[q])[i]
        {
          hash[i + j * 4] := ByteAt(state[j], shift);
          j := j + 1;
        }
        i := i + 1;
      }
    }
  }

  /** bms_sha256_hex: the digest as lower-case hexadecimal. */
  function HexDigit(n: nat): char
    requires n < 16
  {
    "0123456789abcdef"[n]
  }

  predicate IsHex(h: string) { forall i :: 0 <= i < |h| ==> h[i] in "0123456789abcdef" }

  lemma {:induction false} HexOfIsHex(bytes: seq<Byte>)
    ensures IsHex(HexOf(bytes))
  {
    if bytes != [] {
      HexOfIsHex(bytes[..|bytes| - 1]);
    }
  }

  function HexOf(bytes: seq<Byte>): (h: string)
    ensures |h| == 2 * |bytes|
  {
    if bytes == [] then "" else
    var b := bytes[|bytes| - 1] as nat;
    HexOf(bytes[..|bytes| - 1]) + [HexDigit(b / 16), HexDigit(b % 16)]
  }

  /** The value of a lower-case hexadecimal digit. */
  function Nibble(c: char): nat {
    if '0' <= c <= '9' then c as nat - '0' as nat else if 'a' <= c <= 'f' then c as nat - 'a' as nat + 10 else 16
  }

  lemma DigitNibble(n: nat)
    requires n < 16
    ensures Nibble(HexDigit(n)) == n
  {
    assert HexDigit(n) == "0123456789abcdef"[n];
  }

  /** Two digits for each byte, the higher one first, all below 16. */
  lemma {:induction false} HexReadsBack(bytes: seq<Byte>, i: nat)
    requires i < |bytes|
    ensures var h, l := Nibble(HexOf(bytes)[2 * i]), Nibble(HexOf(bytes)[2 * i + 1]); h < 16 && l < 16 && 16 * h + l == bytes[i] as nat
  {
    hide HexDigit, Nibble;
    var n := |bytes| - 1;
    if i < n {
      HexReadsBack(bytes[..n], i);
    } else {
      DigitNibble(bytes[n] as nat / 16);
      DigitNibble(bytes[n] as nat % 16);
    }
  }

  function HexDigest(msg: seq<Byte>): (h: string)
    ensures |h| == 64
  {
    HexOf(Digest(msg))
  }

  method ToHex(hash: array<Byte>) returns (hex: array<char>)
    requires hash.Length == 32
    ensures fresh(hex) && hex[..] == HexOf(hash[..])
  {
    hide HexDigit;
    hex := new char[64](_ => '0');
    var i := 0;
    while i < 32
      invariant 0 <= i <= 32
      invariant hex[..2 * i] == HexOf(hash[..i])
    {
      hex[i * 2] := HexDigit(hash[i] as nat / 16);
      hex[i * 2 + 1] := HexDigit(hash[i] as nat % 16);
      assert hash[..i + 1][..i] == hash[..i];
      assert hex[..2 * (i + 1)] == hex[..2 * i] + [hex[2 * i], hex[2 * i + 1]];
      i := i + 1;
    }
    assert hex[..] == hex[..64] && hash[..] == hash[..32];
  }

  method Sha256Hex(input: seq<Byte>) returns (hex: array<char>)
    ensures fresh(hex) && hex[..] == HexDigest(input)
  {
    hide Digest;
    var ctx := new Sha256Ctx();
    ctx.Update(input, []);
    assert [] + input == input;
    var hash := ctx.Final(input);
    assert |hash[..]| == 32;
    hex := ToHex(hash);
  }
}
