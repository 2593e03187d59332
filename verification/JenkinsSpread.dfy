// How a change of one bit spreads in mix and final, whatever the words are.
module JenkinsSpread {
  import opened JenkinsMix

  // The words differ in these bits.
  predicate Differ(x: bv32, y: bv32, bits: bv32) { y == x ^ bits }

  // They differ in this bit and in no lower one.
  predicate Lowest(x: bv32, y: bv32, bit: bv32) { (x ^ y) & (bit | (bit - 1)) == bit }

  // They agree in this bit and all lower ones.
  predicate Agree(x: bv32, y: bv32, bit: bv32) { (x ^ y) & (bit | (bit - 1)) == 0 }

  // ---- the top bit through one operator

  lemma {:induction false} TopPlus(x: bv32, y: bv32)
    ensures Differ(x + y, (x ^ 0x8000_0000) + y, 0x8000_0000)
  {
  }

  lemma {:induction false} TopAddIs(x: bv32, y: bv32)
    ensures Differ(Add(x, y), Add(x ^ 0x8000_0000, y), 0x8000_0000)
  {
    hide Differ;
    TopPlus(x, y);
  }

  lemma {:induction false} TopAdd(x: bv32, x1: bv32, y: bv32)
    requires Differ(x, x1, 0x8000_0000)
    ensures Differ(Add(x, y), Add(x1, y), 0x8000_0000)
  {
    hide Add;
    TopAddIs(x, y);
  }

  lemma {:induction false} AddCommutes(x: bv32, y: bv32)
    ensures Add(x, y) == Add(y, x)
  {
  }

  lemma {:induction false} TopMinus(x: bv32, y: bv32)
    ensures Differ(x - y, (x ^ 0x8000_0000) - y, 0x8000_0000)
  {
  }

  lemma {:induction false} TopSubIs(x: bv32, y: bv32)
    ensures Differ(Sub(x, y), Sub(x ^ 0x8000_0000, y), 0x8000_0000)
  {
    hide Differ;
    TopMinus(x, y);
  }

  lemma {:induction false} TopSub(x: bv32, x1: bv32, y: bv32)
    requires Differ(x, x1, 0x8000_0000)
    ensures Differ(Sub(x, y), Sub(x1, y), 0x8000_0000)
  {
    hide Sub;
    TopSubIs(x, y);
  }

  lemma {:induction false} TopSubOf(x: bv32, y: bv32, y1: bv32)
    requires Differ(y, y1, 0x8000_0000)
    ensures Differ(Sub(x, y), Sub(x, y1), 0x8000_0000)
  {
  }

  lemma {:induction false} Twice(x: bv32, x1: bv32, x2: bv32)
    requires Differ(x, x1, 0x8000_0000) && Differ(x1, x2, 0x8000_0000)
    ensures x2 == x
  {
  }

  lemma {:induction false} TopAddBoth(x: bv32, x1: bv32, y: bv32, y1: bv32)
    requires Differ(x, x1, 0x8000_0000) && Differ(y, y1, 0x8000_0000)
    ensures Add(x, y) == Add(x1, y1)
  {
    hide Add, Differ;
    TopAdd(x, x1, y);
    TopAdd(y, y1, x1);
    AddCommutes(x1, y);
    AddCommutes(x1, y1);
    Twice(Add(x, y), Add(x1, y), Add(x1, y1));
  }

  lemma {:induction false} TopSubBoth(x: bv32, x1: bv32, y: bv32, y1: bv32)
    requires Differ(x, x1, 0x8000_0000) && Differ(y, y1, 0x8000_0000)
    ensures Sub(x, y) == Sub(x1, y1)
  {
    hide Sub, Differ;
    TopSub(x, x1, y);
    TopSubOf(x1, y, y1);
    Twice(Sub(x, y), Sub(x1, y), Sub(x1, y1));
  }

  // ---- other differences through one operator

  lemma {:induction false} XorOf(x: bv32, x1: bv32, y: bv32, bits: bv32)
    requires Differ(x, x1, bits)
    ensures Differ(Xor(x, y), Xor(x1, y), bits) && Differ(Xor(y, x), Xor(y, x1), bits)
  {
  }

  lemma {:induction false} XorBoth(x: bv32, x1: bv32, y: bv32, y1: bv32, bits: bv32, more: bv32)
    requires Differ(x, x1, bits) && Differ(y, y1, more)
    ensures Differ(Xor(x, y), Xor(x1, y1), bits ^ more)
  {
  }

  // A rotation takes the bits along.
  lemma {:induction false} Rotate4(x: bv32, bits: bv32)
    ensures Differ(x.RotateLeft(4), (x ^ bits).RotateLeft(4), bits.RotateLeft(4))
  {
  }

  lemma {:induction false} Rot4Is(x: bv32, bits: bv32)
    ensures Differ(Rot(x, 4), Rot(x ^ bits, 4), Rot(bits, 4))
  {
    hide Differ, Rot;
    RotRotates(x);
    RotRotates(bits);
    RotRotates(x ^ bits);
    Rotate4(x, bits);
  }

  lemma {:induction false} Rot4(x: bv32, x1: bv32, bits: bv32)
    requires Differ(x, x1, bits)
    ensures Differ(Rot(x, 4), Rot(x1, 4), Rot(bits, 4))
  {
    hide Rot;
    Rot4Is(x, bits);
  }

  lemma {:induction false} Rotate6(x: bv32, bits: bv32)
    ensures Differ(x.RotateLeft(6), (x ^ bits).RotateLeft(6), bits.RotateLeft(6))
  {
  }

  lemma {:induction false} Rot6Is(x: bv32, bits: bv32)
    ensures Differ(Rot(x, 6), Rot(x ^ bits, 6), Rot(bits, 6))
  {
    hide Differ, Rot;
    RotRotates(x);
    RotRotates(bits);
    RotRotates(x ^ bits);
    Rotate6(x, bits);
  }

  lemma {:induction false} Rot6(x: bv32, x1: bv32, bits: bv32)
    requires Differ(x, x1, bits)
    ensures Differ(Rot(x, 6), Rot(x1, 6), Rot(bits, 6))
  {
    hide Rot;
    Rot6Is(x, bits);
  }

  lemma {:induction false} Rotate8(x: bv32, bits: bv32)
    ensures Differ(x.RotateLeft(8), (x ^ bits).RotateLeft(8), bits.RotateLeft(8))
  {
  }

  lemma {:induction false} Rot8Is(x: bv32, bits: bv32)
    ensures Differ(Rot(x, 8), Rot(x ^ bits, 8), Rot(bits, 8))
  {
    hide Differ, Rot;
    RotRotates(x);
    RotRotates(bits);
    RotRotates(x ^ bits);
    Rotate8(x, bits);
  }

  lemma {:induction false} Rot8(x: bv32, x1: bv32, bits: bv32)
    requires Differ(x, x1, bits)
    ensures Differ(Rot(x, 8), Rot(x1, 8), Rot(bits, 8))
  {
    hide Rot;
    Rot8Is(x, bits);
  }

  lemma {:induction false} Rotate16(x: bv32, bits: bv32)
    ensures Differ(x.RotateLeft(16), (x ^ bits).RotateLeft(16), bits.RotateLeft(16))
  {
  }

  lemma {:induction false} Rot16Is(x: bv32, bits: bv32)
    ensures Differ(Rot(x, 16), Rot(x ^ bits, 16), Rot(bits, 16))
  {
    hide Differ, Rot;
    RotRotates(x);
    RotRotates(bits);
    RotRotates(x ^ bits);
    Rotate16(x, bits);
  }

  lemma {:induction false} Rot16(x: bv32, x1: bv32, bits: bv32)
    requires Differ(x, x1, bits)
    ensures Differ(Rot(x, 16), Rot(x1, 16), Rot(bits, 16))
  {
    hide Rot;
    Rot16Is(x, bits);
  }

  lemma {:induction false} RotValues()
    ensures Rot(0x8000_0000, 4) == 8 && Rot(0x8000_0000, 6) == 0x20 && Rot(0x8000_0000, 8) == 0x80
    ensures Rot(0x8000_0020, 8) == 0x2080 && Rot(0x8000_0008, 6) == 0x220 && Rot(0x80, 16) == 0x80_0000
  {
  }

  // ---- the lowest difference

  lemma {:induction false} SubLowest8(x: bv32, x1: bv32, y: bv32, y1: bv32)
    requires Agree(x, x1, 8) && Lowest(y, y1, 8)
    ensures Lowest(Sub(x, y), Sub(x1, y1), 8)
  {
  }

  lemma {:induction false} SubLowest20(x: bv32, x1: bv32, y: bv32, y1: bv32)
    requires Agree(x, x1, 0x20) && Lowest(y, y1, 0x20)
    ensures Lowest(Sub(x, y), Sub(x1, y1), 0x20)
  {
  }

  lemma {:induction false} SubLowest80(x: bv32, x1: bv32, y: bv32, y1: bv32)
    requires Agree(x, x1, 0x80) && Lowest(y, y1, 0x80)
    ensures Lowest(Sub(x, y), Sub(x1, y1), 0x80)
  {
  }

  lemma {:induction false} SubFromLowest1(x: bv32, x1: bv32, y: bv32, y1: bv32)
    requires Lowest(x, x1, 1) && Agree(y, y1, 1)
    ensures Lowest(Sub(x, y), Sub(x1, y1), 1)
  {
  }

  lemma {:induction false} AddLowest1(x: bv32, x1: bv32, y: bv32, y1: bv32)
    requires Lowest(x, x1, 1) && Agree(y, y1, 1)
    ensures Lowest(Add(x, y), Add(x1, y1), 1)
  {
  }

  lemma {:induction false} AddLowest8(x: bv32, x1: bv32, y: bv32, y1: bv32)
    requires Lowest(x, x1, 8) && Agree(y, y1, 8)
    ensures Lowest(Add(x, y), Add(x1, y1), 8)
  {
  }

  lemma {:induction false} AddLowest20(x: bv32, x1: bv32, y: bv32, y1: bv32)
    requires Lowest(x, x1, 0x20) && Agree(y, y1, 0x20)
    ensures Lowest(Add(x, y), Add(x1, y1), 0x20)
  {
  }

  lemma {:induction false} AddLowest80(x: bv32, x1: bv32, y: bv32, y1: bv32)
    requires Lowest(x, x1, 0x80) && Agree(y, y1, 0x80)
    ensures Lowest(Add(x, y), Add(x1, y1), 0x80)
  {
  }

  lemma {:induction false} AddAgree80(x: bv32, x1: bv32, y: bv32, y1: bv32)
    requires Lowest(x, x1, 0x80) && Lowest(y, y1, 0x80)
    ensures Agree(Add(x, y), Add(x1, y1), 0x80)
  {
  }

  lemma {:induction false} XorSwaps(x: bv32, x1: bv32, y: bv32, y1: bv32)
    ensures (x ^ y) ^ (x1 ^ y1) == (x ^ x1) ^ (y ^ y1)
  {
  }

  lemma {:induction false} Masks(d: bv32, e: bv32, mask: bv32)
    requires e & mask == 0
    ensures (d ^ e) & mask == d & mask
  {
  }

  lemma {:induction false} XorLowest(x: bv32, x1: bv32, y: bv32, y1: bv32, bit: bv32)
    requires Lowest(x, x1, bit) && Agree(y, y1, bit)
    ensures Lowest(Xor(x, y), Xor(x1, y1), bit)
  {
    XorSwaps(x, x1, y, y1);
    Masks(x ^ x1, y ^ y1, bit | (bit - 1));
  }

  lemma {:induction false} LowestOf(x: bv32, x1: bv32, bits: bv32, bit: bv32)
    requires Differ(x, x1, bits)
    ensures bits & (bit | (bit - 1)) == bit ==> Lowest(x, x1, bit)
    ensures bits & (bit | (bit - 1)) == 0 ==> Agree(x, x1, bit)
  {
  }

  lemma {:induction false} Same(x: bv32, bit: bv32)
    ensures Agree(x, x, bit) && Differ(x, x, 0)
  {
  }

  // ---- mix, turn by turn

  function WithA(s: State, a: bv32): State { State(a, s.b, s.c) }

  function WithB(s: State, b: bv32): State { State(s.a, b, s.c) }

  function WithC(s: State, c: bv32): State { State(s.a, s.b, c) }

  // The first third of mix and its first half.
  function Third(s: State): State { Turn(Turn(s, 4), 6) }

  function Half(s: State): State { Turn(Third(s), 8) }

  function LastHalf(s: State): State { Turn(Turn(Turn(s, 16), 19), 4) }

  // After half of mix the top bit of a has got to all three words.
  lemma {:induction false} TopOfA(s: State, a: bv32)
    requires Differ(s.a, a, 0x8000_0000)
    ensures var p, q := Half(s), Half(WithA(s, a));
      && Differ(p.a, q.a, 0x8000_0000) && Lowest(p.b, q.b, 0x20) && Lowest(p.c, q.c, 0x20)
      && Mixed(s) == LastHalf(p)
  {
    hide Add, Sub, Xor, Rot, Differ, Lowest, Agree;
    RotValues();
    var t, t1 := Turn(s, 4), Turn(WithA(s, a), 4);
    TopSub(s.a, a, s.c);
    XorOf(Sub(s.a, s.c), Sub(a, s.c), Rot(s.c, 4), 0x8000_0000);
    var u, u1 := Turn(t, 6), Turn(t1, 6);
    TopAdd(t.c, t1.c, t.b);
    TopSubOf(t.a, t.c, t1.c);
    Rot6(t.c, t1.c, 0x8000_0000);
    XorBoth(Sub(t.a, t.c), Sub(t.a, t1.c), Rot(t.c, 6), Rot(t1.c, 6), 0x8000_0000, 0x20);
    assert u1.a == u.a && Differ(u.b, u1.b, 0x8000_0000) && Differ(u.c, u1.c, 0x8000_0020);
    LowestOf(u.b, u1.b, 0x8000_0000, 0x20);
    LowestOf(u.c, u1.c, 0x8000_0020, 0x20);
    AddLowest20(u.c, u1.c, u.b, u1.b);
    Same(u.a, 0x20);
    SubLowest20(u.a, u1.a, u.c, u1.c);
    Rot8(u.c, u1.c, 0x8000_0020);
    LowestOf(Rot(u.c, 8), Rot(u1.c, 8), 0x2080, 0x20);
    XorLowest(Sub(u.a, u.c), Sub(u1.a, u1.c), Rot(u.c, 8), Rot(u1.c, 8), 0x20);
  }

  // That of c has after a third.
  lemma {:induction false} TopOfC(s: State, c: bv32)
    requires Differ(s.c, c, 0x8000_0000)
    ensures var p, q := Third(s), Third(WithC(s, c));
      && Lowest(p.a, q.a, 0x8000_0000) && Lowest(p.b, q.b, 8) && Lowest(p.c, q.c, 8)
      && Mixed(s) == LastHalf(Turn(p, 8))
  {
    hide Add, Sub, Xor, Rot, Differ, Lowest, Agree;
    RotValues();
    var t, t1 := Turn(s, 4), Turn(WithC(s, c), 4);
    TopAdd(s.c, c, s.b);
    TopSubOf(s.a, s.c, c);
    Rot4(s.c, c, 0x8000_0000);
    XorBoth(Sub(s.a, s.c), Sub(s.a, c), Rot(s.c, 4), Rot(c, 4), 0x8000_0000, 8);
    assert t1.a == t.a && Differ(t.b, t1.b, 0x8000_0000) && Differ(t.c, t1.c, 0x8000_0008);
    LowestOf(t.b, t1.b, 0x8000_0000, 8);
    LowestOf(t.b, t1.b, 0x8000_0000, 0x8000_0000);
    LowestOf(t.c, t1.c, 0x8000_0008, 8);
    AddLowest8(t.c, t1.c, t.b, t1.b);
    Same(t.a, 8);
    SubLowest8(t.a, t1.a, t.c, t1.c);
    Rot6(t.c, t1.c, 0x8000_0008);
    LowestOf(Rot(t.c, 6), Rot(t1.c, 6), 0x220, 8);
    XorLowest(Sub(t.a, t.c), Sub(t1.a, t1.c), Rot(t.c, 6), Rot(t1.c, 6), 8);
  }

  // So has that of b.
  lemma {:induction false} TopOfB(s: State, b: bv32)
    requires Differ(s.b, b, 0x8000_0000)
    ensures var p, q := Third(s), Third(WithB(s, b));
      && Differ(p.a, q.a, 0x8000_0000) && Differ(p.b, q.b, 0x8000_0000) && Differ(p.c, q.c, 0x8000_0000)
      && Mixed(s) == LastHalf(Turn(p, 8))
  {
    hide Add, Sub, Xor, Rot, Differ;
    var t, t1 := Turn(s, 4), Turn(WithB(s, b), 4);
    TopAdd(s.b, b, s.c);
    AddCommutes(s.b, s.c);
    AddCommutes(b, s.c);
    assert Differ(t.a, t1.a, 0x8000_0000) && Differ(t.b, t1.b, 0x8000_0000) && t1.c == t.c;
    TopAdd(t.b, t1.b, t.c);
    AddCommutes(t.b, t.c);
    AddCommutes(t1.b, t.c);
    TopSub(t.a, t1.a, t.c);
    XorOf(Sub(t.a, t.c), Sub(t1.a, t.c), Rot(t.c, 6), 0x8000_0000);
  }

  // And so has the bottom bit of b.
  lemma {:induction false} BottomOfB(s: State, b: bv32)
    requires Differ(s.b, b, 1)
    ensures var p, q := Third(s), Third(WithB(s, b));
      && Lowest(p.a, q.a, 1) && Lowest(p.b, q.b, 1) && Lowest(p.c, q.c, 1)
      && Mixed(s) == LastHalf(Turn(p, 8))
  {
    hide Add, Sub, Xor, Rot, Differ, Lowest, Agree;
    var t, t1 := Turn(s, 4), Turn(WithB(s, b), 4);
    LowestOf(s.b, b, 1, 1);
    Same(s.c, 1);
    AddLowest1(s.b, b, s.c, s.c);
    AddCommutes(s.b, s.c);
    AddCommutes(b, s.c);
    assert Lowest(t.a, t1.a, 1) && Lowest(t.b, t1.b, 1) && t1.c == t.c;
    Same(t.c, 1);
    AddLowest1(t.b, t1.b, t.c, t1.c);
    AddCommutes(t.b, t.c);
    AddCommutes(t1.b, t.c);
    SubFromLowest1(t.a, t1.a, t.c, t1.c);
    Same(Rot(t.c, 6), 1);
    XorLowest(Sub(t.a, t.c), Sub(t1.a, t1.c), Rot(t.c, 6), Rot(t1.c, 6), 1);
  }

  // Not every bit gets everywhere: the lowest byte of a after mix does not depend on
  // the top bit of b.
  lemma {:induction false} NoAvalanche(s: State, b: bv32)
    requires Differ(s.b, b, 0x8000_0000)
    ensures Agree(Mixed(s).a, Mixed(WithB(s, b)).a, 0x80)
  {
    hide Add, Sub, Xor, Rot, Differ, Lowest, Agree, Third;
    RotValues();
    TopOfB(s, b);
    var u, u1 := Third(s), Third(WithB(s, b));
    var v, v1 := Turn(u, 8), Turn(u1, 8);
    TopAddBoth(u.c, u1.c, u.b, u1.b);
    TopSubBoth(u.a, u1.a, u.c, u1.c);
    Rot8(u.c, u1.c, 0x8000_0000);
    XorOf(Rot(u.c, 8), Rot(u1.c, 8), Sub(u.a, u.c), 0x80);
    assert Differ(v.a, v1.a, 0x8000_0000) && v1.b == v.b && Differ(v.c, v1.c, 0x80);
    var w, w1 := Turn(v, 16), Turn(v1, 16);
    LowestOf(v.c, v1.c, 0x80, 0x80);
    Same(v.b, 0x80);
    AddLowest80(v.c, v1.c, v.b, v1.b);
    LowestOf(v.a, v1.a, 0x8000_0000, 0x80);
    SubLowest80(v.a, v1.a, v.c, v1.c);
    Rot16(v.c, v1.c, 0x80);
    LowestOf(Rot(v.c, 16), Rot(v1.c, 16), 0x80_0000, 0x80);
    XorLowest(Sub(v.a, v.c), Sub(v1.a, v1.c), Rot(v.c, 16), Rot(v1.c, 16), 0x80);
    assert Lowest(w.b, w1.b, 0x80) && Lowest(w.c, w1.c, 0x80);
    AddAgree80(w.c, w1.c, w.b, w1.b);
    LastA(s);
    LastA(WithB(s, b));
  }

  lemma {:induction false} LastA(s: State)
    ensures var w := Turn(Turn(Third(s), 8), 16); Mixed(s).a == Add(w.c, w.b)
  {
    hide Add, Sub, Xor, Rot;
  }
}
