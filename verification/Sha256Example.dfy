/** The hash of the three bytes "abc", worked out word by word and round by round, the example that goes with
    FIPS 180-4: a wrong constant, rotation or byte order anywhere in the definition shows here. */
module Sha256Example {
  import opened Sha256
  import opened Sha256Constants

  function Block(): (b: seq<Byte>)
    ensures |b| == 64
  {
    [0x61, 0x62, 0x63, 0x80] + Zeros(59) + [0x18]
  }

  /** Eight words of the schedule. */
  predicate Row(w: seq<Word>, i: nat, x0: bv32, x1: bv32, x2: bv32, x3: bv32, x4: bv32, x5: bv32, x6: bv32, x7: bv32) {
    && |w| == 64 && i <= 56
    && w[i] == Word(x0) && w[i + 1] == Word(x1) && w[i + 2] == Word(x2) && w[i + 3] == Word(x3)
    && w[i + 4] == Word(x4) && w[i + 5] == Word(x5) && w[i + 6] == Word(x6) && w[i + 7] == Word(x7)
  }

  predicate ScheduleOf(block: seq<Byte>, w: seq<Word>) { |block| == 64 && w == Schedule(block, |block|) }

  lemma {:induction false} SchedulePrefix(block: seq<Byte>, m: nat, n: nat)
    requires |block| == 64 && m < n <= 64
    ensures Schedule(block, n)[m] == NextWord(block, Schedule(block, m)) && Schedule(block, n)[..m] == Schedule(block, m)
  {
    hide NextWord;
    if m < n - 1 {
      SchedulePrefix(block, m, n - 1);
      assert Schedule(block, n)[..m] == Schedule(block, n - 1)[..m];
    }
  }

  lemma WordIs(block: seq<Byte>, w: seq<Word>, t: nat, p: bv32, q: bv32, r: bv32, s: bv32, x: bv32)
    requires ScheduleOf(block, w) && 16 <= t < 64
    requires w[t - 16] == Word(p) && w[t - 15] == Word(q) && w[t - 7] == Word(r) && w[t - 2] == Word(s)
    requires Sum4(Word(p), SmallSigma0(Word(q)), Word(r), SmallSigma1(Word(s))) == Word(x)
    ensures w[t] == Word(x)
  {
    hide Sum4, SmallSigma0, SmallSigma1, Schedule;
    SchedulePrefix(block, t, 64);
    assert w[..t] == Schedule(block, t);
  }


  lemma Words16(block: seq<Byte>, w: seq<Word>)
    requires ScheduleOf(block, w)
    requires Row(w, 0, 0x61626380, 0x00000000, 0x00000000, 0x00000000, 0x00000000, 0x00000000, 0x00000000, 0x00000000)
    requires Row(w, 8, 0x00000000, 0x00000000, 0x00000000, 0x00000000, 0x00000000, 0x00000000, 0x00000000, 0x00000018)
    ensures Row(w, 16, 0x61626380, 0x000f0000, 0x7da86405, 0x600003c6, 0x3e9d7b78, 0x0183fc00, 0x12dcbfdb, 0xe2e2c38e)
  {
    hide ScheduleOf;
    WordIs(block, w, 16, 0x61626380, 0x00000000, 0x00000000, 0x00000000, 0x61626380);
    WordIs(block, w, 17, 0x00000000, 0x00000000, 0x00000000, 0x00000018, 0x000f0000);
    WordIs(block, w, 18, 0x00000000, 0x00000000, 0x00000000, 0x61626380, 0x7da86405);
    WordIs(block, w, 19, 0x00000000, 0x00000000, 0x00000000, 0x000f0000, 0x600003c6);
    WordIs(block, w, 20, 0x00000000, 0x00000000, 0x00000000, 0x7da86405, 0x3e9d7b78);
    WordIs(block, w, 21, 0x00000000, 0x00000000, 0x00000000, 0x600003c6, 0x0183fc00);
    WordIs(block, w, 22, 0x00000000, 0x00000000, 0x00000018, 0x3e9d7b78, 0x12dcbfdb);
    WordIs(block, w, 23, 0x00000000, 0x00000000, 0x61626380, 0x0183fc00, 0xe2e2c38e);
  }

  lemma Words24(block: seq<Byte>, w: seq<Word>)
    requires ScheduleOf(block, w)
    requires Row(w, 8, 0x00000000, 0x00000000, 0x00000000, 0x00000000, 0x00000000, 0x00000000, 0x00000000, 0x00000018)
    requires Row(w, 16, 0x61626380, 0x000f0000, 0x7da86405, 0x600003c6, 0x3e9d7b78, 0x0183fc00, 0x12dcbfdb, 0xe2e2c38e)
    ensures Row(w, 24, 0xc8215c1a, 0xb73679a2, 0xe5bc3909, 0x32663c5b, 0x9d209d67, 0xec8726cb, 0x702138a4, 0xd3b7973b)
  {
    hide ScheduleOf;
    WordIs(block, w, 24, 0x00000000, 0x00000000, 0x000f0000, 0x12dcbfdb, 0xc8215c1a);
    WordIs(block, w, 25, 0x00000000, 0x00000000, 0x7da86405, 0xe2e2c38e, 0xb73679a2);
    WordIs(block, w, 26, 0x00000000, 0x00000000, 0x600003c6, 0xc8215c1a, 0xe5bc3909);
    WordIs(block, w, 27, 0x00000000, 0x00000000, 0x3e9d7b78, 0xb73679a2, 0x32663c5b);
    WordIs(block, w, 28, 0x00000000, 0x00000000, 0x0183fc00, 0xe5bc3909, 0x9d209d67);
    WordIs(block, w, 29, 0x00000000, 0x00000000, 0x12dcbfdb, 0x32663c5b, 0xec8726cb);
    WordIs(block, w, 30, 0x00000000, 0x00000018, 0xe2e2c38e, 0x9d209d67, 0x702138a4);
    WordIs(block, w, 31, 0x00000018, 0x61626380, 0xc8215c1a, 0xec8726cb, 0xd3b7973b);
  }

  lemma Words32(block: seq<Byte>, w: seq<Word>)
    requires ScheduleOf(block, w)
    requires Row(w, 16, 0x61626380, 0x000f0000, 0x7da86405, 0x600003c6, 0x3e9d7b78, 0x0183fc00, 0x12dcbfdb, 0xe2e2c38e)
    requires Row(w, 24, 0xc8215c1a, 0xb73679a2, 0xe5bc3909, 0x32663c5b, 0x9d209d67, 0xec8726cb, 0x702138a4, 0xd3b7973b)
    ensures Row(w, 32, 0x93f5997f, 0x3b68ba73, 0xaff4ffc1, 0xf10a5c62, 0x0a8b3996, 0x72af830a, 0x9409e33e, 0x24641522)
  {
    hide ScheduleOf;
    WordIs(block, w, 32, 0x61626380, 0x000f0000, 0xb73679a2, 0x702138a4, 0x93f5997f);
    WordIs(block, w, 33, 0x000f0000, 0x7da86405, 0xe5bc3909, 0xd3b7973b, 0x3b68ba73);
    WordIs(block, w, 34, 0x7da86405, 0x600003c6, 0x32663c5b, 0x93f5997f, 0xaff4ffc1);
    WordIs(block, w, 35, 0x600003c6, 0x3e9d7b78, 0x9d209d67, 0x3b68ba73, 0xf10a5c62);
    WordIs(block, w, 36, 0x3e9d7b78, 0x0183fc00, 0xec8726cb, 0xaff4ffc1, 0x0a8b3996);
    WordIs(block, w, 37, 0x0183fc00, 0x12dcbfdb, 0x702138a4, 0xf10a5c62, 0x72af830a);
    WordIs(block, w, 38, 0x12dcbfdb, 0xe2e2c38e, 0xd3b7973b, 0x0a8b3996, 0x9409e33e);
    WordIs(block, w, 39, 0xe2e2c38e, 0xc8215c1a, 0x93f5997f, 0x72af830a, 0x24641522);
  }

  lemma Words40(block: seq<Byte>, w: seq<Word>)
    requires ScheduleOf(block, w)
    requires Row(w, 24, 0xc8215c1a, 0xb73679a2, 0xe5bc3909, 0x32663c5b, 0x9d209d67, 0xec8726cb, 0x702138a4, 0xd3b7973b)
    requires Row(w, 32, 0x93f5997f, 0x3b68ba73, 0xaff4ffc1, 0xf10a5c62, 0x0a8b3996, 0x72af830a, 0x9409e33e, 0x24641522)
    ensures Row(w, 40, 0x9f47bf94, 0xf0a64f5a, 0x3e246a79, 0x27333ba3, 0x0c4763f2, 0x840abf27, 0x7a290d5d, 0x065c43da)
  {
    hide ScheduleOf;
    WordIs(block, w, 40, 0xc8215c1a, 0xb73679a2, 0x3b68ba73, 0x9409e33e, 0x9f47bf94);
    WordIs(block, w, 41, 0xb73679a2, 0xe5bc3909, 0xaff4ffc1, 0x24641522, 0xf0a64f5a);
    WordIs(block, w, 42, 0xe5bc3909, 0x32663c5b, 0xf10a5c62, 0x9f47bf94, 0x3e246a79);
    WordIs(block, w, 43, 0x32663c5b, 0x9d209d67, 0x0a8b3996, 0xf0a64f5a, 0x27333ba3);
    WordIs(block, w, 44, 0x9d209d67, 0xec8726cb, 0x72af830a, 0x3e246a79, 0x0c4763f2);
    WordIs(block, w, 45, 0xec8726cb, 0x702138a4, 0x9409e33e, 0x27333ba3, 0x840abf27);
    WordIs(block, w, 46, 0x702138a4, 0xd3b7973b, 0x24641522, 0x0c4763f2, 0x7a290d5d);
    WordIs(block, w, 47, 0xd3b7973b, 0x93f5997f, 0x9f47bf94, 0x840abf27, 0x065c43da);
  }

  lemma Words48(block: seq<Byte>, w: seq<Word>)
    requires ScheduleOf(block, w)
    requires Row(w, 32, 0x93f5997f, 0x3b68ba73, 0xaff4ffc1, 0xf10a5c62, 0x0a8b3996, 0x72af830a, 0x9409e33e, 0x24641522)
    requires Row(w, 40, 0x9f47bf94, 0xf0a64f5a, 0x3e246a79, 0x27333ba3, 0x0c4763f2, 0x840abf27, 0x7a290d5d, 0x065c43da)
    ensures Row(w, 48, 0xfb3e89cb, 0xcc7617db, 0xb9e66c34, 0xa9993667, 0x84badedd, 0xc21462bc, 0x1487472c, 0xb20f7a99)
  {
    hide ScheduleOf;
    WordIs(block, w, 48, 0x93f5997f, 0x3b68ba73, 0xf0a64f5a, 0x7a290d5d, 0xfb3e89cb);
    WordIs(block, w, 49, 0x3b68ba73, 0xaff4ffc1, 0x3e246a79, 0x065c43da, 0xcc7617db);
    WordIs(block, w, 50, 0xaff4ffc1, 0xf10a5c62, 0x27333ba3, 0xfb3e89cb, 0xb9e66c34);
    WordIs(block, w, 51, 0xf10a5c62, 0x0a8b3996, 0x0c4763f2, 0xcc7617db, 0xa9993667);
    WordIs(block, w, 52, 0x0a8b3996, 0x72af830a, 0x840abf27, 0xb9e66c34, 0x84badedd);
    WordIs(block, w, 53, 0x72af830a, 0x9409e33e, 0x7a290d5d, 0xa9993667, 0xc21462bc);
    WordIs(block, w, 54, 0x9409e33e, 0x24641522, 0x065c43da, 0x84badedd, 0x1487472c);
    WordIs(block, w, 55, 0x24641522, 0x9f47bf94, 0xfb3e89cb, 0xc21462bc, 0xb20f7a99);
  }

  lemma Words56(block: seq<Byte>, w: seq<Word>)
    requires ScheduleOf(block, w)
    requires Row(w, 40, 0x9f47bf94, 0xf0a64f5a, 0x3e246a79, 0x27333ba3, 0x0c4763f2, 0x840abf27, 0x7a290d5d, 0x065c43da)
    requires Row(w, 48, 0xfb3e89cb, 0xcc7617db, 0xb9e66c34, 0xa9993667, 0x84badedd, 0xc21462bc, 0x1487472c, 0xb20f7a99)
    ensures Row(w, 56, 0xef57b9cd, 0xebe6b238, 0x9fe3095e, 0x78bc8d4b, 0xa43fcf15, 0x668b2ff8, 0xeeaba2cc, 0x12b1edeb)
  {
    hide ScheduleOf;
    WordIs(block, w, 56, 0x9f47bf94, 0xf0a64f5a, 0xcc7617db, 0x1487472c, 0xef57b9cd);
    WordIs(block, w, 57, 0xf0a64f5a, 0x3e246a79, 0xb9e66c34, 0xb20f7a99, 0xebe6b238);
    WordIs(block, w, 58, 0x3e246a79, 0x27333ba3, 0xa9993667, 0xef57b9cd, 0x9fe3095e);
    WordIs(block, w, 59, 0x27333ba3, 0x0c4763f2, 0x84badedd, 0xebe6b238, 0x78bc8d4b);
    WordIs(block, w, 60, 0x0c4763f2, 0x840abf27, 0xc21462bc, 0x9fe3095e, 0xa43fcf15);
    WordIs(block, w, 61, 0x840abf27, 0x7a290d5d, 0x1487472c, 0x78bc8d4b, 0x668b2ff8);
    WordIs(block, w, 62, 0x7a290d5d, 0x065c43da, 0xb20f7a99, 0xa43fcf15, 0xeeaba2cc);
    WordIs(block, w, 63, 0x065c43da, 0xfb3e89cb, 0xef57b9cd, 0x668b2ff8, 0x12b1edeb);
  }

  function Next(v: Vars, a: bv32, e: bv32): Vars { Vars(Word(a), v.a, v.b, v.c, Word(e), v.e, v.f, v.g) }

  lemma Step(w: seq<Word>, v: Vars, t: nat, k: bv32, x: bv32, a: bv32, e: bv32) returns (r: Vars)
    requires |w| == 64 && t < 64 && Rounds(INITIAL, w, t) == v && K[t] == k && w[t] == Word(x)
    requires Round(v, Word(k), Word(x)) == Next(v, a, e)
    ensures r == Next(v, a, e) && Rounds(INITIAL, w, t + 1) == r
  {
    hide Round;
    r := Next(v, a, e);
  }

  lemma Rounds0(w: seq<Word>)
    requires Row(w, 0, 0x61626380, 0x00000000, 0x00000000, 0x00000000, 0x00000000, 0x00000000, 0x00000000, 0x00000000)
    ensures Rounds(INITIAL, w, 8) ==
    Vars(Word(0x85a07b5f), Word(0xe5030380), Word(0x2b4209f5), Word(0x04409a6a),
         Word(0x0c657a79), Word(0x9b27a401), Word(0x714260ad), Word(0x43ada245))
  {
    Table0();
    hide Rounds, K;
    var v := Vars(Word(0x6a09e667), Word(0xbb67ae85), Word(0x3c6ef372), Word(0xa54ff53a),
                  Word(0x510e527f), Word(0x9b05688c), Word(0x1f83d9ab), Word(0x5be0cd19));
    NoRounds(w);
    v := Step(w, v, 0, 0x428a2f98, 0x61626380, 0x5d6aebcd, 0xfa2a4622);
    v := Step(w, v, 1, 0x71374491, 0x00000000, 0x5a6ad9ad, 0x78ce7989);
    v := Step(w, v, 2, 0xb5c0fbcf, 0x00000000, 0xc8c347a7, 0xf92939eb);
    v := Step(w, v, 3, 0xe9b5dba5, 0x00000000, 0xd550f666, 0x24e00850);
    v := Step(w, v, 4, 0x3956c25b, 0x00000000, 0x04409a6a, 0x43ada245);
    v := Step(w, v, 5, 0x59f111f1, 0x00000000, 0x2b4209f5, 0x714260ad);
    v := Step(w, v, 6, 0x923f82a4, 0x00000000, 0xe5030380, 0x9b27a401);
    v := Step(w, v, 7, 0xab1c5ed5, 0x00000000, 0x85a07b5f, 0x0c657a79);
  }

  lemma Rounds8(w: seq<Word>)
    requires Row(w, 8, 0x00000000, 0x00000000, 0x00000000, 0x00000000, 0x00000000, 0x00000000, 0x00000000, 0x00000018)
    requires Rounds(INITIAL, w, 8) ==
    Vars(Word(0x85a07b5f), Word(0xe5030380), Word(0x2b4209f5), Word(0x04409a6a),
         Word(0x0c657a79), Word(0x9b27a401), Word(0x714260ad), Word(0x43ada245))
    ensures Rounds(INITIAL, w, 16) ==
    Vars(Word(0xb0fa238e), Word(0xc0645fde), Word(0xd932eb16), Word(0x87912990),
         Word(0x07590dcd), Word(0x0b92f20c), Word(0x745a48de), Word(0x1e578218))
  {
    Table8();
    hide Rounds, K;
    var v := Vars(Word(0x85a07b5f), Word(0xe5030380), Word(0x2b4209f5), Word(0x04409a6a),
                  Word(0x0c657a79), Word(0x9b27a401), Word(0x714260ad), Word(0x43ada245));
    v := Step(w, v, 8, 0xd807aa98, 0x00000000, 0x8e04ecb9, 0x32ca2d8c);
    v := Step(w, v, 9, 0x12835b01, 0x00000000, 0x8c87346b, 0x1cc92596);
    v := Step(w, v, 10, 0x243185be, 0x00000000, 0x4798a3f4, 0x436b23e8);
    v := Step(w, v, 11, 0x550c7dc3, 0x00000000, 0xf71fc5a9, 0x816fd6e9);
    v := Step(w, v, 12, 0x72be5d74, 0x00000000, 0x87912990, 0x1e578218);
    v := Step(w, v, 13, 0x80deb1fe, 0x00000000, 0xd932eb16, 0x745a48de);
    v := Step(w, v, 14, 0x9bdc06a7, 0x00000000, 0xc0645fde, 0x0b92f20c);
    v := Step(w, v, 15, 0xc19bf174, 0x00000018, 0xb0fa238e, 0x07590dcd);
  }

  lemma Rounds16(w: seq<Word>)
    requires Row(w, 16, 0x61626380, 0x000f0000, 0x7da86405, 0x600003c6, 0x3e9d7b78, 0x0183fc00, 0x12dcbfdb, 0xe2e2c38e)
    requires Rounds(INITIAL, w, 16) ==
    Vars(Word(0xb0fa238e), Word(0xc0645fde), Word(0xd932eb16), Word(0x87912990),
         Word(0x07590dcd), Word(0x0b92f20c), Word(0x745a48de), Word(0x1e578218))
    ensures Rounds(INITIAL, w, 24) ==
    Vars(Word(0xc5d53d8d), Word(0xa7a3623f), Word(0xc2606d6d), Word(0x9dc68b63),
         Word(0xaa47c347), Word(0x49f5114a), Word(0xe1257970), Word(0x8ada8930))
  {
    Table16();
    hide Rounds, K;
    var v := Vars(Word(0xb0fa238e), Word(0xc0645fde), Word(0xd932eb16), Word(0x87912990),
                  Word(0x07590dcd), Word(0x0b92f20c), Word(0x745a48de), Word(0x1e578218));
    v := Step(w, v, 16, 0xe49b69c1, 0x61626380, 0x21da9a9b, 0x8034229c);
    v := Step(w, v, 17, 0xefbe4786, 0x000f0000, 0xc2fbd9d1, 0x846ee454);
    v := Step(w, v, 18, 0x0fc19dc6, 0x7da86405, 0xfe777bbf, 0xcc899961);
    v := Step(w, v, 19, 0x240ca1cc, 0x600003c6, 0xe1f20c33, 0xb0638179);
    v := Step(w, v, 20, 0x2de92c6f, 0x3e9d7b78, 0x9dc68b63, 0x8ada8930);
    v := Step(w, v, 21, 0x4a7484aa, 0x0183fc00, 0xc2606d6d, 0xe1257970);
    v := Step(w, v, 22, 0x5cb0a9dc, 0x12dcbfdb, 0xa7a3623f, 0x49f5114a);
    v := Step(w, v, 23, 0x76f988da, 0xe2e2c38e, 0xc5d53d8d, 0xaa47c347);
  }

  lemma Rounds24(w: seq<Word>)
    requires Row(w, 24, 0xc8215c1a, 0xb73679a2, 0xe5bc3909, 0x32663c5b, 0x9d209d67, 0xec8726cb, 0x702138a4, 0xd3b7973b)
    requires Rounds(INITIAL, w, 24) ==
    Vars(Word(0xc5d53d8d), Word(0xa7a3623f), Word(0xc2606d6d), Word(0x9dc68b63),
         Word(0xaa47c347), Word(0x49f5114a), Word(0xe1257970), Word(0x8ada8930))
    ensures Rounds(INITIAL, w, 32) ==
    Vars(Word(0x73b33bf5), Word(0xea992a22), Word(0xa0060b30), Word(0x363482c9),
         Word(0xba591112), Word(0x0109ab3a), Word(0xade79437), Word(0x6112a3b7))
  {
    Table24();
    hide Rounds, K;
    var v := Vars(Word(0xc5d53d8d), Word(0xa7a3623f), Word(0xc2606d6d), Word(0x9dc68b63),
                  Word(0xaa47c347), Word(0x49f5114a), Word(0xe1257970), Word(0x8ada8930));
    v := Step(w, v, 24, 0x983e5152, 0xc8215c1a, 0x1c2c2838, 0x2823ef91);
    v := Step(w, v, 25, 0xa831c66d, 0xb73679a2, 0xcde8037d, 0x14383d8e);
    v := Step(w, v, 26, 0xb00327c8, 0xe5bc3909, 0xb62ec4bc, 0xc74c6516);
    v := Step(w, v, 27, 0xbf597fc7, 0x32663c5b, 0x77d37528, 0xedffbff8);
    v := Step(w, v, 28, 0xc6e00bf3, 0x9d209d67, 0x363482c9, 0x6112a3b7);
    v := Step(w, v, 29, 0xd5a79147, 0xec8726cb, 0xa0060b30, 0xade79437);
    v := Step(w, v, 30, 0x06ca6351, 0x702138a4, 0xea992a22, 0x0109ab3a);
    v := Step(w, v, 31, 0x14292967, 0xd3b7973b, 0x73b33bf5, 0xba591112);
  }

  lemma Rounds32(w: seq<Word>)
    requires Row(w, 32, 0x93f5997f, 0x3b68ba73, 0xaff4ffc1, 0xf10a5c62, 0x0a8b3996, 0x72af830a, 0x9409e33e, 0x24641522)
    requires Rounds(INITIAL, w, 32) ==
    Vars(Word(0x73b33bf5), Word(0xea992a22), Word(0xa0060b30), Word(0x363482c9),
         Word(0xba591112), Word(0x0109ab3a), Word(0xade79437), Word(0x6112a3b7))
    ensures Rounds(INITIAL, w, 40) ==
    Vars(Word(0x79ea687a), Word(0x6dc57a8a), Word(0x34df1604), Word(0x41a65cb1),
         Word(0x1efbc0a0), Word(0xf0781bc8), Word(0xa507a53d), Word(0x0772a26b))
  {
    Table32();
    hide Rounds, K;
    var v := Vars(Word(0x73b33bf5), Word(0xea992a22), Word(0xa0060b30), Word(0x363482c9),
                  Word(0xba591112), Word(0x0109ab3a), Word(0xade79437), Word(0x6112a3b7));
    v := Step(w, v, 32, 0x27b70a85, 0x93f5997f, 0x98e12507, 0x9cd9f5f6);
    v := Step(w, v, 33, 0x2e1b2138, 0x3b68ba73, 0xfe604df5, 0x59249dd3);
    v := Step(w, v, 34, 0x4d2c6dfc, 0xaff4ffc1, 0xa9a7738c, 0x085f3833);
    v := Step(w, v, 35, 0x53380d13, 0xf10a5c62, 0x65a0cfe4, 0xf4b002d6);
    v := Step(w, v, 36, 0x650a7354, 0x0a8b3996, 0x41a65cb1, 0x0772a26b);
    v := Step(w, v, 37, 0x766a0abb, 0x72af830a, 0x34df1604, 0xa507a53d);
    v := Step(w, v, 38, 0x81c2c92e, 0x9409e33e, 0x6dc57a8a, 0xf0781bc8);
    v := Step(w, v, 39, 0x92722c85, 0x24641522, 0x79ea687a, 0x1efbc0a0);
  }

  lemma Rounds40(w: seq<Word>)
    requires Row(w, 40, 0x9f47bf94, 0xf0a64f5a, 0x3e246a79, 0x27333ba3, 0x0c4763f2, 0x840abf27, 0x7a290d5d, 0x065c43da)
    requires Rounds(INITIAL, w, 40) ==
    Vars(Word(0x79ea687a), Word(0x6dc57a8a), Word(0x34df1604), Word(0x41a65cb1),
         Word(0x1efbc0a0), Word(0xf0781bc8), Word(0xa507a53d), Word(0x0772a26b))
    ensures Rounds(INITIAL, w, 48) ==
    Vars(Word(0x4172328d), Word(0xa14c14b0), Word(0x72ab4b91), Word(0x26628815),
         Word(0xfecf0bc6), Word(0xd57b94a9), Word(0xb7755da1), Word(0xa80f11f0))
  {
    Table40();
    hide Rounds, K;
    var v := Vars(Word(0x79ea687a), Word(0x6dc57a8a), Word(0x34df1604), Word(0x41a65cb1),
                  Word(0x1efbc0a0), Word(0xf0781bc8), Word(0xa507a53d), Word(0x0772a26b));
    v := Step(w, v, 40, 0xa2bfe8a1, 0x9f47bf94, 0xd6670766, 0x26352d63);
    v := Step(w, v, 41, 0xa81a664b, 0xf0a64f5a, 0xdf46652f, 0x838b2711);
    v := Step(w, v, 42, 0xc24b8b70, 0x3e246a79, 0x17aa0dfe, 0xdecd4715);
    v := Step(w, v, 43, 0xc76c51a3, 0x27333ba3, 0x9d4baf93, 0xfda24c2e);
    v := Step(w, v, 44, 0xd192e819, 0x0c4763f2, 0x26628815, 0xa80f11f0);
    v := Step(w, v, 45, 0xd6990624, 0x840abf27, 0x72ab4b91, 0xb7755da1);
    v := Step(w, v, 46, 0xf40e3585, 0x7a290d5d, 0xa14c14b0, 0xd57b94a9);
    v := Step(w, v, 47, 0x106aa070, 0x065c43da, 0x4172328d, 0xfecf0bc6);
  }

  lemma Rounds48(w: seq<Word>)
    requires Row(w, 48, 0xfb3e89cb, 0xcc7617db, 0xb9e66c34, 0xa9993667, 0x84badedd, 0xc21462bc, 0x1487472c, 0xb20f7a99)
    requires Rounds(INITIAL, w, 48) ==
    Vars(Word(0x4172328d), Word(0xa14c14b0), Word(0x72ab4b91), Word(0x26628815),
         Word(0xfecf0bc6), Word(0xd57b94a9), Word(0xb7755da1), Word(0xa80f11f0))
    ensures Rounds(INITIAL, w, 56) ==
    Vars(Word(0x38cc9913), Word(0x3ec45cdb), Word(0xf5702fdb), Word(0x101fd28f),
         Word(0x54cb266b), Word(0xe50e1b4f), Word(0x9f4787c3), Word(0x529e7d00))
  {
    Table48();
    hide Rounds, K;
    var v := Vars(Word(0x4172328d), Word(0xa14c14b0), Word(0x72ab4b91), Word(0x26628815),
                  Word(0xfecf0bc6), Word(0xd57b94a9), Word(0xb7755da1), Word(0xa80f11f0));
    v := Step(w, v, 48, 0x19a4c116, 0xfb3e89cb, 0x05757ceb, 0xbd714038);
    v := Step(w, v, 49, 0x1e376c08, 0xcc7617db, 0xf11bfaa8, 0x6e5c390c);
    v := Step(w, v, 50, 0x2748774c, 0xb9e66c34, 0x7a0508a1, 0x52f1ccf7);
    v := Step(w, v, 51, 0x34b0bcb5, 0xa9993667, 0x886e7a22, 0x49231c1e);
    v := Step(w, v, 52, 0x391c0cb3, 0x84badedd, 0x101fd28f, 0x529e7d00);
    v := Step(w, v, 53, 0x4ed8aa4a, 0xc21462bc, 0xf5702fdb, 0x9f4787c3);
    v := Step(w, v, 54, 0x5b9cca4f, 0x1487472c, 0x3ec45cdb, 0xe50e1b4f);
    v := Step(w, v, 55, 0x682e6ff3, 0xb20f7a99, 0x38cc9913, 0x54cb266b);
  }

  lemma Rounds56(w: seq<Word>)
    requires Row(w, 56, 0xef57b9cd, 0xebe6b238, 0x9fe3095e, 0x78bc8d4b, 0xa43fcf15, 0x668b2ff8, 0xeeaba2cc, 0x12b1edeb)
    requires Rounds(INITIAL, w, 56) ==
    Vars(Word(0x38cc9913), Word(0x3ec45cdb), Word(0xf5702fdb), Word(0x101fd28f),
         Word(0x54cb266b), Word(0xe50e1b4f), Word(0x9f4787c3), Word(0x529e7d00))
    ensures Rounds(INITIAL, w, 64) ==
    Vars(Word(0x506e3058), Word(0xd39a2165), Word(0x04d24d6c), Word(0xb85e2ce9),
         Word(0x5ef50f24), Word(0xfb121210), Word(0x948d25b6), Word(0x961f4894))
  {
    Table56();
    hide Rounds, K;
    var v := Vars(Word(0x38cc9913), Word(0x3ec45cdb), Word(0xf5702fdb), Word(0x101fd28f),
                  Word(0x54cb266b), Word(0xe50e1b4f), Word(0x9f4787c3), Word(0x529e7d00));
    v := Step(w, v, 56, 0x748f82ee, 0xef57b9cd, 0xfcd1887b, 0x9b5e906c);
    v := Step(w, v, 57, 0x78a5636f, 0xebe6b238, 0xc062d46f, 0x7e44008e);
    v := Step(w, v, 58, 0x84c87814, 0x9fe3095e, 0xffb70472, 0x6d83bfc6);
    v := Step(w, v, 59, 0x8cc70208, 0x78bc8d4b, 0xb6ae8fff, 0xb21bad3d);
    v := Step(w, v, 60, 0x90befffa, 0xa43fcf15, 0xb85e2ce9, 0x961f4894);
    v := Step(w, v, 61, 0xa4506ceb, 0x668b2ff8, 0x04d24d6c, 0x948d25b6);
    v := Step(w, v, 62, 0xbef9a3f7, 0xeeaba2cc, 0xd39a2165, 0xfb121210);
    v := Step(w, v, 63, 0xc67178f2, 0x12b1edeb, 0x506e3058, 0x5ef50f24);
  }

  lemma NoRounds(w: seq<Word>)
    requires |w| == 64
    ensures Rounds(INITIAL, w, 0) == INITIAL
  {
  }

  lemma LoadedWord(block: seq<Byte>, w: seq<Word>, t: nat)
    requires ScheduleOf(block, w) && t < 16
    ensures w[t] == LoadWord(block[4 * t], block[4 * t + 1], block[4 * t + 2], block[4 * t + 3])
  {
    hide LoadWord;
    SchedulePrefix(block, t, 64);
  }

  lemma ThreeBytes()
    ensures LoadWord(0x61, 0x62, 0x63, 0x80) == Word(0x61626380)
  {
    assert 0x61 as Byte as bv32 == 0x61 && 0x62 as Byte as bv32 == 0x62;
    assert 0x63 as Byte as bv32 == 0x63 && 0x80 as Byte as bv32 == 0x80;
  }

  lemma OtherBytes()
    ensures LoadWord(0, 0, 0, 0) == Word(0) && LoadWord(0, 0, 0, 0x18) == Word(0x18)
  {
  }

  lemma BlockBytes()
    ensures var b := Block();
      && b[0] == 0x61 && b[1] == 0x62 && b[2] == 0x63 && b[3] == 0x80 && b[63] == 0x18
      && forall i :: 4 <= i < 63 ==> b[i] == 0
  {
  }

  lemma FirstRows(w: seq<Word>)
    requires ScheduleOf(Block(), w)
    ensures Row(w, 0, 0x61626380, 0x00000000, 0x00000000, 0x00000000, 0x00000000, 0x00000000, 0x00000000, 0x00000000)
    ensures Row(w, 8, 0x00000000, 0x00000000, 0x00000000, 0x00000000, 0x00000000, 0x00000000, 0x00000000, 0x00000018)
  {
    BlockBytes();
    ThreeBytes();
    OtherBytes();
    assert |w| == 64;
    hide ScheduleOf, LoadWord, Block;
    LoadedWord(Block(), w, 0);
    LoadedWord(Block(), w, 15);
    MiddleWords(w);
  }

  lemma MiddleWords(w: seq<Word>)
    requires ScheduleOf(Block(), w)
    ensures forall t :: 1 <= t < 15 ==> w[t] == Word(0)
  {
    BlockBytes();
    OtherBytes();
    assert |w| == 64;
    hide ScheduleOf, LoadWord, Block;
    forall t | 1 <= t < 15
      ensures w[t] == Word(0)
    {
      LoadedWord(Block(), w, t);
    }
  }

  /** The three bytes "abc" padded to one block. */
  lemma PaddedAbc()
    ensures Padded([0x61, 0x62, 0x63]) == Block()
  {
    assert ZeroCount(3) == 52 && BitCount(3) == 24;
    assert LengthBytes(24) == Zeros(7) + [0x18];
    assert Zeros(52) + Zeros(7) == Zeros(59);
    hide LengthBytes, Zeros, ZeroCount, BitCount;
    assert [0x61, 0x62, 0x63] + ([0x80] + Zeros(52) + (Zeros(7) + [0x18])) == [0x61, 0x62, 0x63, 0x80] + (Zeros(52) + Zeros(7)) + [0x18];
  }

  lemma AllRounds(w: seq<Word>)
    requires ScheduleOf(Block(), w)
    ensures |w| == 64 && Rounds(INITIAL, w, 64) ==
    Vars(Word(0x506e3058), Word(0xd39a2165), Word(0x04d24d6c), Word(0xb85e2ce9),
         Word(0x5ef50f24), Word(0xfb121210), Word(0x948d25b6), Word(0x961f4894))
  {
    hide ScheduleOf, Block, Rounds;
    FirstRows(w);
    Words16(Block(), w);
    Words24(Block(), w);
    Words32(Block(), w);
    Words40(Block(), w);
    Words48(Block(), w);
    Words56(Block(), w);
    Rounds0(w);
    Rounds8(w);
    Rounds16(w);
    Rounds24(w);
    Rounds32(w);
    Rounds40(w);
    Rounds48(w);
    Rounds56(w);
  }

  lemma CompressedAbc()
    ensures Compress(INITIAL, Block()) ==
    Vars(Word(0xba7816bf), Word(0x8f01cfea), Word(0x414140de), Word(0x5dae2223),
         Word(0xb00361a3), Word(0x96177a9c), Word(0xb410ff61), Word(0xf20015ad))
  {
    var w := Schedule(Block(), 64);
    hide Schedule, Rounds;
    AllRounds(w);
  }

  lemma DigestBytes()
    ensures VarsBytes(Vars(Word(0xba7816bf), Word(0x8f01cfea), Word(0x414140de), Word(0x5dae2223),
                           Word(0xb00361a3), Word(0x96177a9c), Word(0xb410ff61), Word(0xf20015ad))) ==
      [0xba, 0x78, 0x16, 0xbf, 0x8f, 0x01, 0xcf, 0xea, 0x41, 0x41, 0x40, 0xde, 0x5d, 0xae, 0x22, 0x23,
       0xb0, 0x03, 0x61, 0xa3, 0x96, 0x17, 0x7a, 0x9c, 0xb4, 0x10, 0xff, 0x61, 0xf2, 0x00, 0x15, 0xad]
  {
  }

  /** The digest the standard gives for "abc". */
  lemma DigestOfAbc()
    ensures Digest([0x61, 0x62, 0x63]) ==
      [0xba, 0x78, 0x16, 0xbf, 0x8f, 0x01, 0xcf, 0xea, 0x41, 0x41, 0x40, 0xde, 0x5d, 0xae, 0x22, 0x23,
       0xb0, 0x03, 0x61, 0xa3, 0x96, 0x17, 0x7a, 0x9c, 0xb4, 0x10, 0xff, 0x61, 0xf2, 0x00, 0x15, 0xad]
  {
    PaddedAbc();
    hide Padded, Compress, VarsBytes, Block;
    assert [] + Block() == Block() && HashBlocks([]) == INITIAL;
    HashOneMore([], Block());
    CompressedAbc();
    DigestBytes();
  }
}
