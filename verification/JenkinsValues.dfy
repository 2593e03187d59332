// What mix, final and jenkins_hash come to: on given words and keys, and where two
// blocks of a key change places.
module JenkinsValues {
  import opened JenkinsMix
  import opened JenkinsWords
  import opened Jenkins

  // ---- values

  // What is left of a single bit.
  lemma {:induction false} MixOfA()
    ensures Mixed(State(1, 0, 0)) == State(0xbfbe7f3a, 0x7d633d2b, 0x9810de96)
  {
    assert Turn(State(1, 0, 0), 4) == State(0, 0, 1);
    assert Turn(State(0, 0, 1), 6) == State(0, 1, 0xffffffbf);
    assert Turn(State(0, 1, 0xffffffbf), 8) == State(1, 0xffffffc0, 0xffffbfbe);
    assert Turn(State(1, 0xffffffc0, 0xffffbfbe), 16) == State(0xffffffc0, 0xffffbf7e, 0xbfbebfbc);
    assert Turn(State(0xffffffc0, 0xffffbf7e, 0xbfbebfbc), 19) == State(0xffffbf7e, 0xbfbe7f3a, 0xbda4bdf1);
    assert Turn(State(0xffffbf7e, 0xbfbe7f3a, 0xbda4bdf1), 4) == State(0xbfbe7f3a, 0x7d633d2b, 0x9810de96);
  }

  lemma {:induction false} MixOfB()
    ensures Mixed(State(0, 1, 0)) == State(0xff000003, 0xf80ff701, 0x960f65eb)
  {
    assert Turn(State(0, 1, 0), 4) == State(1, 1, 0);
    assert Turn(State(1, 1, 0), 6) == State(1, 1, 1);
    assert Turn(State(1, 1, 1), 8) == State(1, 2, 0x100);
    assert Turn(State(1, 2, 0x100), 16) == State(2, 0x102, 0xfeffff01);
    assert Turn(State(2, 0x102, 0xfeffff01), 19) == State(0x102, 0xff000003, 0xf90ff6fe);
    assert Turn(State(0x102, 0xff000003, 0xf90ff6fe), 4) == State(0xff000003, 0xf80ff701, 0x960f65eb);
  }

  lemma {:induction false} MixOfC()
    ensures Mixed(State(0, 0, 1)) == State(0xeae4d1c9, 0x2dcd1961, 0x9397e6b6)
  {
    assert Turn(State(0, 0, 1), 4) == State(0, 1, 0xffffffef);
    assert Turn(State(0, 1, 0xffffffef), 6) == State(1, 0xfffffff0, 0xfffffbee);
    assert Turn(State(1, 0xfffffff0, 0xfffffbee), 8) == State(0xfffffff0, 0xfffffbde, 0xfffbeaec);
    assert Turn(State(0xfffffff0, 0xfffffbde, 0xfffbeaec), 16) == State(0xfffffbde, 0xfffbe6ca, 0xeae8eaff);
    assert Turn(State(0xfffffbde, 0xfffbe6ca, 0xeae8eaff), 19) == State(0xfffbe6ca, 0xeae4d1c9, 0x42e84798);
    assert Turn(State(0xfffbe6ca, 0xeae4d1c9, 0x42e84798), 4) == State(0xeae4d1c9, 0x2dcd1961, 0x9397e6b6);
  }

  lemma {:induction false} FinalOfA()
    ensures Finished(State(1, 0, 0)) == State(0x1e1de1e1, 0x67a59a59, 0x40f3f2be)
  {
    assert FinalTurn(State(1, 0, 0), 14) == State(0, 0, 1);
    assert FinalTurn(State(0, 0, 1), 11) == State(0, 1, 0);
    assert FinalTurn(State(0, 1, 0), 25) == State(1, 0xfe000001, 0);
    assert FinalTurn(State(1, 0xfe000001, 0), 16) == State(0xfe000001, 0xfdfe0201, 1);
    assert FinalTurn(State(0xfe000001, 0xfdfe0201, 1), 4) == State(0xfdfe0201, 0x1e1de1e1, 0xfe000001);
    assert FinalTurn(State(0xfdfe0201, 0x1e1de1e1, 0xfe000001), 14) == State(0x1e1de1e1, 0x67a59a59, 0xfdfe0201);
    assert FinalTurn(State(0x1e1de1e1, 0x67a59a59, 0xfdfe0201), 24) == State(0x67a59a59, 0x40f3f2be, 0x1e1de1e1);
  }

  lemma {:induction false} FinalOfB()
    ensures Finished(State(0, 1, 0)) == State(0x3a989830, 0xa15719ed, 0x2961431)
  {
    assert FinalTurn(State(0, 1, 0), 14) == State(1, 0xffffc001, 0);
    assert FinalTurn(State(1, 0xffffc001, 0), 11) == State(0xffffc001, 0x1ffb002, 1);
    assert FinalTurn(State(0xffffc001, 0x1ffb002, 1), 25) == State(0x1ffb002, 0xfdfbb0a3, 0xffffc001);
    assert FinalTurn(State(0x1ffb002, 0xfdfbb0a3, 0xffffc001), 16) == State(0xfdfbb0a3, 0x516072a7, 0x1ffb002);
    assert FinalTurn(State(0xfdfbb0a3, 0x516072a7, 0x1ffb002), 4) == State(0x516072a7, 0x3a989830, 0xfdfbb0a3);
    assert FinalTurn(State(0x516072a7, 0x3a989830, 0xfdfbb0a3), 14) == State(0x3a989830, 0xa15719ed, 0x516072a7);
    assert FinalTurn(State(0x3a989830, 0xa15719ed, 0x516072a7), 24) == State(0xa15719ed, 0x2961431, 0x3a989830);
  }

  lemma {:induction false} FinalOfC()
    ensures Finished(State(0, 0, 1)) == State(0xbd324300, 0xb60d8bc5, 0xf02a6a49)
  {
    assert FinalTurn(State(0, 0, 1), 14) == State(0, 1, 0);
    assert FinalTurn(State(0, 1, 0), 11) == State(1, 0xfffff801, 0);
    assert FinalTurn(State(1, 0xfffff801, 0), 25) == State(0xfffff801, 0xfbfff811, 1);
    assert FinalTurn(State(0xfffff801, 0xfbfff811, 1), 16) == State(0xfbfff811, 0x3edfc11, 0xfffff801);
    assert FinalTurn(State(0xfbfff811, 0x3edfc11, 0xfffff801), 4) == State(0x3edfc11, 0xbd324300, 0xfbfff811);
    assert FinalTurn(State(0x3edfc11, 0xbd324300, 0xfbfff811), 14) == State(0xbd324300, 0xb60d8bc5, 0x3edfc11);
    assert FinalTurn(State(0xbd324300, 0xb60d8bc5, 0x3edfc11), 24) == State(0xb60d8bc5, 0xf02a6a49, 0xbd324300);
  }

  // A key of two full blocks and some more.
  lemma {:induction false} AfterTwo(e: Endian, s: State, x: seq<Byte>, y: seq<Byte>, z: seq<Byte>)
    requires |x| == |y| == 12 && z != []
    ensures EndFrom(e, s, x + y + z) == EndFrom(e, Mixed(AddBlock(e, Mixed(AddBlock(e, s, x)), y)), z)
  {
    hide Mixed, AddBlock, Finished;
    var key := x + y + z;
    assert key[..12] == x && key[12..] == y + z;
    assert (y + z)[..12] == y && (y + z)[12..] == z;
    assert EndFrom(e, s, key) == EndFrom(e, Mixed(AddBlock(e, s, x)), y + z);
  }

  lemma {:induction false} TwoBlocksMore(e: Endian, x: seq<Byte>, y: seq<Byte>, z: seq<Byte>, initval: bv32)
    requires |x| == |y| == 12 && 1 <= |z| <= 12
    ensures Hash(e, x + y + z, initval) ==
      Finished(AddBlock(e, Mixed(AddBlock(e, Mixed(AddBlock(e, Start(24 + |z|, initval), x)), y)), Padded(z))).c
  {
    hide Mixed, Finished, AddBlock, Start;
    AfterTwo(e, Start(24 + |z|, initval), x, y, z);
  }

  lemma {:induction false} LengthIs()
    ensures Uint32(25) == 25 && Uint32(30) == 30
  {
    assert Uint32(3) == 3 by {
      assert Uint32(1) == Add(Uint32(0), 1);
      assert Uint32(2) == Add(Uint32(1), 1);
    }
    Uint32Twice(3);
    Uint32Twice(6);
    Uint32Twice(12);
    assert Uint32(7) == Add(Uint32(6), 1);
    Uint32Twice(7);
    assert Uint32(15) == Add(Uint32(14), 1);
    Uint32Twice(15);
    assert Uint32(25) == Add(Uint32(24), 1);
  }

  // "Four score and seven years ago"
  const FIRST: seq<Byte> := [0x46, 0x6f, 0x75, 0x72, 0x20, 0x73, 0x63, 0x6f, 0x72, 0x65, 0x20, 0x61]
  const SECOND: seq<Byte> := [0x6e, 0x64, 0x20, 0x73, 0x65, 0x76, 0x65, 0x6e, 0x20, 0x79, 0x65, 0x61]
  const THIRD: seq<Byte> := [0x72, 0x73, 0x20, 0x61, 0x67, 0x6f]

  lemma {:induction false} LittleBlocks(s: State)
    ensures AddBlock(Little, s, FIRST) == State(Add(s.a, 0x72756f46), Add(s.b, 0x6f637320), Add(s.c, 0x61206572))
    ensures AddBlock(Little, s, SECOND) == State(Add(s.a, 0x7320646e), Add(s.b, 0x6e657665), Add(s.c, 0x61657920))
    ensures AddBlock(Little, s, Padded(THIRD)) == State(Add(s.a, 0x61207372), Add(s.b, 0x6f67), s.c)
  {
  }

  lemma {:induction false} BigBlocks(s: State)
    ensures AddBlock(Big, s, FIRST) == State(Add(s.a, 0x466f7572), Add(s.b, 0x2073636f), Add(s.c, 0x72652061))
    ensures AddBlock(Big, s, SECOND) == State(Add(s.a, 0x6e642073), Add(s.b, 0x6576656e), Add(s.c, 0x20796561))
    ensures AddBlock(Big, s, Padded(THIRD)) == State(Add(s.a, 0x72732061), Add(s.b, 0x676f0000), s.c)
  {
  }

  // Its hash, from 0 and from 1, and on a machine of the other byte order.
  lemma {:induction false} FourScore()
    ensures Hash(Little, FIRST + SECOND + THIRD, 0) == 0x17770551
  {
    hide AddBlock, Padded, Hash;
    var t, u := State(0xf859ad7a, 0x4bc57ae, 0x40dddd7e), State(0x336aded2, 0x59f2642, 0xbd02ebd5);
    LengthIs();
    TwoBlocksMore(Little, FIRST, SECOND, THIRD, 0);
    LittleBlocks(Start(30, 0));
    assert Mixed(AddBlock(Little, Start(30, 0), FIRST)) == t;
    LittleBlocks(t);
    assert Mixed(AddBlock(Little, t, SECOND)) == u;
    LittleBlocks(u);
  }

  lemma {:induction false} FourScoreFromOne()
    ensures Hash(Little, FIRST + SECOND + THIRD, 1) == 0xcd628161
  {
    hide AddBlock, Padded, Hash;
    var t, u := State(0x9fb9ade6, 0x89211ba9, 0x3ffff143), State(0xd68042ad, 0x488e0a5d, 0xab16e7b2);
    LengthIs();
    TwoBlocksMore(Little, FIRST, SECOND, THIRD, 1);
    LittleBlocks(Start(30, 1));
    assert Mixed(AddBlock(Little, Start(30, 1), FIRST)) == t;
    LittleBlocks(t);
    assert Mixed(AddBlock(Little, t, SECOND)) == u;
    LittleBlocks(u);
  }

  lemma {:induction false} FourScoreBig()
    ensures Hash(Big, FIRST + SECOND + THIRD, 0) == 0x65e759cb
  {
    hide AddBlock, Padded, Hash;
    var t, u := State(0x5c072014, 0x359afdae, 0x446ca93), State(0x817f505, 0x864df853, 0x1df4742f);
    LengthIs();
    TwoBlocksMore(Big, FIRST, SECOND, THIRD, 0);
    BigBlocks(Start(30, 0));
    assert Mixed(AddBlock(Big, Start(30, 0), FIRST)) == t;
    BigBlocks(t);
    assert Mixed(AddBlock(Big, t, SECOND)) == u;
    BigBlocks(u);
  }

  // A key without bytes shows only where the hash starts.
  lemma {:induction false} EmptyKey(e: Endian, initval: bv32)
    ensures Hash(e, [], initval) == Add(0xdeadbeef, initval)
  {
    ZeroPlus(0xdeadbeef);
  }

  // ---- blocks that change places

  // Only where mix makes up for it exactly does that leave the three words alone.
  lemma {:induction false} ExchangeShows(e: Endian, s: State, x: seq<Byte>, y: seq<Byte>, z: seq<Byte>)
    requires |x| == |y| == 12 && z != []
    ensures EndFrom(e, s, x + y + z) == EndFrom(e, s, y + x + z) <==>
      AddBlock(e, Mixed(AddBlock(e, s, x)), y) == AddBlock(e, Mixed(AddBlock(e, s, y)), x)
  {
    hide Mixed, AddBlock, Finished;
    AfterTwo(e, s, x, y, z);
    AfterTwo(e, s, y, x, z);
    var t, u := AddBlock(e, Mixed(AddBlock(e, s, x)), y), AddBlock(e, Mixed(AddBlock(e, s, y)), x);
    if t != u {
      MixReversible(t);
      MixReversible(u);
      DifferenceStays(e, Mixed(t), Mixed(u), z);
    }
  }

  const AS: seq<Byte> := seq(12, _ => 0x61)
  const BS: seq<Byte> := seq(12, _ => 0x62)

  lemma {:induction false} LetterBlocks(s: State)
    ensures AddBlock(Little, s, AS) == State(Add(s.a, 0x61616161), Add(s.b, 0x61616161), Add(s.c, 0x61616161))
    ensures AddBlock(Little, s, BS) == State(Add(s.a, 0x62626262), Add(s.b, 0x62626262), Add(s.c, 0x62626262))
    ensures AddBlock(Little, s, Padded([0x63])) == State(Add(s.a, 0x63), s.b, s.c)
  {
  }

  lemma {:induction false} FirstInOrder()
    ensures Mixed(State(0x400f2069, 0x400f2069, 0x400f2069)) == State(0x5b166b8e, 0x6745ae14, 0x9a4f30d3)
  {
    assert Turn(State(0x400f2069, 0x400f2069, 0x400f2069), 4) == State(0x400f2069, 0x801e40d2, 0xf20694);
    assert Turn(State(0x400f2069, 0x801e40d2, 0xf20694), 6) == State(0x801e40d2, 0x81104766, 0x39cbcd5);
    assert Turn(State(0x801e40d2, 0x81104766, 0x39cbcd5), 8) == State(0x81104766, 0x84ad043b, 0xe03d56fe);
    assert Turn(State(0x81104766, 0x84ad043b, 0xe03d56fe), 16) == State(0x84ad043b, 0x64ea5b39, 0xf62c1055);
    assert Turn(State(0x84ad043b, 0x64ea5b39, 0xf62c1055), 19) == State(0x64ea5b39, 0x5b166b8e, 0xc2f4286);
    assert Turn(State(0x64ea5b39, 0x5b166b8e, 0xc2f4286), 4) == State(0x5b166b8e, 0x6745ae14, 0x9a4f30d3);
  }

  lemma {:induction false} SecondInOrder()
    ensures Mixed(State(0xbd78cdf0, 0xc9a81076, 0xfcb19335)) == State(0x7a88aec0, 0x12efc1c1, 0x3ef6fe76)
  {
    assert Turn(State(0xbd78cdf0, 0xc9a81076, 0xfcb19335), 4) == State(0xc9a81076, 0xc659a3ab, 0xbde09e4);
    assert Turn(State(0xc9a81076, 0xc659a3ab, 0xbde09e4), 6) == State(0xc659a3ab, 0xd237ad8f, 0x4a487f90);
    assert Turn(State(0xc659a3ab, 0xd237ad8f, 0x4a487f90), 8) == State(0xd237ad8f, 0x1c802d1f, 0x346eb451);
    assert Turn(State(0xd237ad8f, 0x1c802d1f, 0x346eb451), 16) == State(0x1c802d1f, 0x50eee170, 0x2999cd50);
    assert Turn(State(0x1c802d1f, 0x50eee170, 0x2999cd50), 19) == State(0x50eee170, 0x7a88aec0, 0x98671301);
    assert Turn(State(0x50eee170, 0x7a88aec0, 0x98671301), 4) == State(0x7a88aec0, 0x12efc1c1, 0x3ef6fe76);
  }

  lemma {:induction false} LastInOrder()
    ensures Finished(State(0x7a88af23, 0x12efc1c1, 0x3ef6fe76)).c == 0xcf7f4120
  {
    assert FinalTurn(State(0x7a88af23, 0x12efc1c1, 0x3ef6fe76), 14) == State(0x12efc1c1, 0x3ba8fafc, 0x7a88af23);
    assert FinalTurn(State(0x12efc1c1, 0x3ba8fafc, 0x7a88af23), 11) == State(0x3ba8fafc, 0xf9487402, 0x12efc1c1);
    assert FinalTurn(State(0x3ba8fafc, 0xf9487402, 0x12efc1c1), 25) == State(0xf9487402, 0xe5b524db, 0x3ba8fafc);
    assert FinalTurn(State(0xf9487402, 0xe5b524db, 0x3ba8fafc), 16) == State(0xe5b524db, 0xb941f872, 0xf9487402);
    assert FinalTurn(State(0xe5b524db, 0xb941f872, 0xf9487402), 4) == State(0xb941f872, 0xabea0545, 0xe5b524db);
    assert FinalTurn(State(0xb941f872, 0xabea0545, 0xe5b524db), 14) == State(0xabea0545, 0xcd0db6a4, 0xb941f872);
    assert FinalTurn(State(0xabea0545, 0xcd0db6a4, 0xb941f872), 24) == State(0xcd0db6a4, 0xcf7f4120, 0xabea0545);
  }

  lemma {:induction false} LettersInOrder()
    ensures Hash(Little, AS + BS + [0x63], 0) == 0xcf7f4120
  {
    hide AddBlock, Padded, Hash, Mixed, Finished;
    LengthIs();
    TwoBlocksMore(Little, AS, BS, [0x63], 0);
    LetterBlocks(Start(25, 0));
    FirstInOrder();
    LetterBlocks(State(0x5b166b8e, 0x6745ae14, 0x9a4f30d3));
    SecondInOrder();
    LetterBlocks(State(0x7a88aec0, 0x12efc1c1, 0x3ef6fe76));
    LastInOrder();
  }

  lemma {:induction false} FirstExchanged()
    ensures Mixed(State(0x4110216a, 0x4110216a, 0x4110216a)) == State(0x436dc0bd, 0xb2967c17, 0xdc372ae4)
  {
    assert Turn(State(0x4110216a, 0x4110216a, 0x4110216a), 4) == State(0x4110216a, 0x822042d4, 0x110216a4);
    assert Turn(State(0x4110216a, 0x822042d4, 0x110216a4), 6) == State(0x822042d4, 0x93225978, 0x708ba3c2);
    assert Turn(State(0x822042d4, 0x93225978, 0x708ba3c2), 8) == State(0x93225978, 0x3adfd3a, 0x9a375d62);
    assert Turn(State(0x93225978, 0x3adfd3a, 0x9a375d62), 16) == State(0x3adfd3a, 0x9de55a9c, 0xa5886621);
    assert Turn(State(0x3adfd3a, 0x9de55a9c, 0xa5886621), 19) == State(0x9de55a9c, 0x436dc0bd, 0x6f28bb5a);
    assert Turn(State(0x9de55a9c, 0x436dc0bd, 0x6f28bb5a), 4) == State(0x436dc0bd, 0xb2967c17, 0xdc372ae4);
  }

  lemma {:induction false} SecondExchanged()
    ensures Mixed(State(0xa4cf221e, 0x13f7dd78, 0x3d988c45)) == State(0xdacc68d8, 0xfb3a7076, 0xe37a2792)
  {
    assert Turn(State(0xa4cf221e, 0x13f7dd78, 0x3d988c45), 4) == State(0x13f7dd78, 0x519069bd, 0xbebe518a);
    assert Turn(State(0x13f7dd78, 0x519069bd, 0xbebe518a), 6) == State(0x519069bd, 0x104ebb47, 0xfaade941);
    assert Turn(State(0x519069bd, 0x104ebb47, 0xfaade941), 8) == State(0x104ebb47, 0xafca488, 0xfb0bc186);
    assert Turn(State(0x104ebb47, 0xafca488, 0xfb0bc186), 16) == State(0xafca488, 0x608660e, 0xd4c402ca);
    assert Turn(State(0xafca488, 0x608660e, 0xd4c402ca), 19) == State(0x608660e, 0xdacc68d8, 0x206e079e);
    assert Turn(State(0x608660e, 0xdacc68d8, 0x206e079e), 4) == State(0xdacc68d8, 0xfb3a7076, 0xe37a2792);
  }

  lemma {:induction false} LastExchanged()
    ensures Finished(State(0xdacc693b, 0xfb3a7076, 0xe37a2792)).c == 0xbd81cde5
  {
    assert FinalTurn(State(0xdacc693b, 0xfb3a7076, 0xe37a2792), 14) == State(0xfb3a7076, 0x7c229916, 0xdacc693b);
    assert FinalTurn(State(0xfb3a7076, 0x7c229916, 0xdacc693b), 11) == State(0x7c229916, 0x92263c4c, 0xfb3a7076);
    assert FinalTurn(State(0x7c229916, 0x92263c4c, 0xfb3a7076), 25) == State(0x92263c4c, 0xcff7ffc2, 0x7c229916);
    assert FinalTurn(State(0x92263c4c, 0xcff7ffc2, 0x7c229916), 16) == State(0xcff7ffc2, 0xb41296dd, 0x92263c4c);
    assert FinalTurn(State(0xcff7ffc2, 0xb41296dd, 0x92263c4c), 4) == State(0xb41296dd, 0xe50b3cb6, 0xcff7ffc2);
    assert FinalTurn(State(0xb41296dd, 0xe50b3cb6, 0xcff7ffc2), 14) == State(0xe50b3cb6, 0x5bcf0a32, 0xb41296dd);
    assert FinalTurn(State(0xe50b3cb6, 0x5bcf0a32, 0xb41296dd), 24) == State(0x5bcf0a32, 0xbd81cde5, 0xe50b3cb6);
  }

  lemma {:induction false} LettersExchanged()
    ensures Hash(Little, BS + AS + [0x63], 0) == 0xbd81cde5
  {
    hide AddBlock, Padded, Hash, Mixed, Finished;
    LengthIs();
    TwoBlocksMore(Little, BS, AS, [0x63], 0);
    LetterBlocks(Start(25, 0));
    FirstExchanged();
    LetterBlocks(State(0x436dc0bd, 0xb2967c17, 0xdc372ae4));
    SecondExchanged();
    LetterBlocks(State(0xdacc68d8, 0xfb3a7076, 0xe37a2792));
    LastExchanged();
  }
}
