// The words that the bytes of a key are, and the ways jenkins_hash.c adds them up.
module JenkinsWords {
  import opened JenkinsMix

  type Byte = bv8

  datatype Endian = Little | Big

  // ---- words in memory

  function S0(x: Byte): bv32 { x as bv32 }

  function S8(x: Byte): bv32 { (x as bv32) << 8 }

  function S16(x: Byte): bv32 { (x as bv32) << 16 }

  function S24(x: Byte): bv32 { (x as bv32) << 24 }

  // The word that four bytes in a row are, on a machine of this byte order.
  function Word(e: Endian, x: Byte, y: Byte, z: Byte, t: Byte): bv32 {
    match e
    case Little => S0(x) | S8(y) | S16(z) | S24(t)
    case Big => S24(x) | S16(y) | S8(z) | S0(t)
  }

  function Half(x: Byte, y: Byte): bv16 { (x as bv16) | ((y as bv16) << 8) }

  function Masked(x: bv32, mask: bv32): bv32 { x & mask }

  function Low(h: bv16): bv32 { h as bv32 }

  function High(h: bv16): bv32 { (h as bv32) << 16 }

  // Masking a word is reading it with the missing bytes zero.
  lemma {:induction false} LittleMask3(x: Byte, y: Byte, z: Byte, t: Byte)
    ensures Masked(Word(Little, x, y, z, t), 0xffffff) == Word(Little, x, y, z, 0)
  {
  }

  lemma {:induction false} LittleMask2(x: Byte, y: Byte, z: Byte, t: Byte)
    ensures Masked(Word(Little, x, y, z, t), 0xffff) == Word(Little, x, y, 0, 0)
  {
  }

  lemma {:induction false} LittleMask1(x: Byte, y: Byte, z: Byte, t: Byte)
    ensures Masked(Word(Little, x, y, z, t), 0xff) == Word(Little, x, 0, 0, 0)
  {
  }

  lemma {:induction false} BigMask3(x: Byte, y: Byte, z: Byte, t: Byte)
    ensures Masked(Word(Big, x, y, z, t), 0xffffff00) == Word(Big, x, y, z, 0)
  {
  }

  lemma {:induction false} BigMask2(x: Byte, y: Byte, z: Byte, t: Byte)
    ensures Masked(Word(Big, x, y, z, t), 0xffff0000) == Word(Big, x, y, 0, 0)
  {
  }

  lemma {:induction false} BigMask1(x: Byte, y: Byte, z: Byte, t: Byte)
    ensures Masked(Word(Big, x, y, z, t), 0xff000000) == Word(Big, x, 0, 0, 0)
  {
  }

  // Adding the bytes up, in the order of the loops and in that of the last block.
  lemma {:induction false} LittleSum(x: Byte, y: Byte, z: Byte, t: Byte)
    ensures Add(Add(Add(S0(x), S8(y)), S16(z)), S24(t)) == Word(Little, x, y, z, t)
  {
  }

  lemma {:induction false} LittleTail4(x: Byte, y: Byte, z: Byte, t: Byte)
    ensures Add(Add(Add(S24(t), S16(z)), S8(y)), S0(x)) == Word(Little, x, y, z, t)
  {
  }

  lemma {:induction false} LittleTail3(x: Byte, y: Byte, z: Byte)
    ensures Add(Add(S16(z), S8(y)), S0(x)) == Word(Little, x, y, z, 0)
  {
  }

  lemma {:induction false} LittleTail2(x: Byte, y: Byte)
    ensures Add(S8(y), S0(x)) == Word(Little, x, y, 0, 0)
  {
  }

  lemma {:induction false} LittleTail1(x: Byte)
    ensures S0(x) == Word(Little, x, 0, 0, 0)
  {
  }

  lemma {:induction false} BigSum(x: Byte, y: Byte, z: Byte, t: Byte)
    ensures Add(Add(Add(S24(x), S16(y)), S8(z)), S0(t)) == Word(Big, x, y, z, t)
  {
  }

  lemma {:induction false} BigTail4(x: Byte, y: Byte, z: Byte, t: Byte)
    ensures Add(Add(Add(S0(t), S8(z)), S16(y)), S24(x)) == Word(Big, x, y, z, t)
  {
  }

  lemma {:induction false} BigTail3(x: Byte, y: Byte, z: Byte)
    ensures Add(Add(S8(z), S16(y)), S24(x)) == Word(Big, x, y, z, 0)
  {
  }

  lemma {:induction false} BigTail2(x: Byte, y: Byte)
    ensures Add(S16(y), S24(x)) == Word(Big, x, y, 0, 0)
  {
  }

  lemma {:induction false} BigTail1(x: Byte)
    ensures S24(x) == Word(Big, x, 0, 0, 0)
  {
  }

  lemma {:induction false} HalfTail2(x: Byte, y: Byte)
    ensures Low(Half(x, y)) == Word(Little, x, y, 0, 0)
  {
  }

  lemma {:induction false} HalfAbove(z: Byte, t: Byte)
    ensures High(Half(z, t)) == Word(Little, 0, 0, z, t)
  {
  }

  lemma {:induction false} ByteAbove(z: Byte)
    ensures S16(z) == Word(Little, 0, 0, z, 0)
  {
  }

  lemma {:induction false} TwoHalves(x: Byte, y: Byte, z: Byte, t: Byte)
    ensures Add(Word(Little, x, y, 0, 0), Word(Little, 0, 0, z, t)) == Word(Little, x, y, z, t)
    ensures Add(Word(Little, 0, 0, z, t), Word(Little, x, y, 0, 0)) == Word(Little, x, y, z, t)
  {
  }

  lemma {:induction false} HalfSum(x: Byte, y: Byte, z: Byte, t: Byte)
    ensures Add(Low(Half(x, y)), High(Half(z, t))) == Word(Little, x, y, z, t)
  {
    hide Add, Low, High, Half, Word;
    HalfTail2(x, y);
    HalfAbove(z, t);
    TwoHalves(x, y, z, t);
  }

  lemma {:induction false} HalfTail3(x: Byte, y: Byte, z: Byte)
    ensures Add(S16(z), Low(Half(x, y))) == Word(Little, x, y, z, 0)
  {
    hide Add, Low, Half, S16, Word;
    HalfTail2(x, y);
    ByteAbove(z);
    TwoHalves(x, y, z, 0);
  }

  // Each byte can be read back from the word.
  lemma {:induction false} LittleByte0(x: Byte, y: Byte, z: Byte, t: Byte)
    ensures Masked(Word(Little, x, y, z, t), 0xff) == S0(x)
  {
  }

  lemma {:induction false} LittleByte1(x: Byte, y: Byte, z: Byte, t: Byte)
    ensures Masked(Word(Little, x, y, z, t), 0xff00) == S8(y)
  {
  }

  lemma {:induction false} LittleByte2(x: Byte, y: Byte, z: Byte, t: Byte)
    ensures Masked(Word(Little, x, y, z, t), 0xff0000) == S16(z)
  {
  }

  lemma {:induction false} LittleByte3(x: Byte, y: Byte, z: Byte, t: Byte)
    ensures Masked(Word(Little, x, y, z, t), 0xff000000) == S24(t)
  {
  }

  lemma {:induction false} BigByte0(x: Byte, y: Byte, z: Byte, t: Byte)
    ensures Masked(Word(Big, x, y, z, t), 0xff000000) == S24(x)
  {
  }

  lemma {:induction false} BigByte1(x: Byte, y: Byte, z: Byte, t: Byte)
    ensures Masked(Word(Big, x, y, z, t), 0xff0000) == S16(y)
  {
  }

  lemma {:induction false} BigByte2(x: Byte, y: Byte, z: Byte, t: Byte)
    ensures Masked(Word(Big, x, y, z, t), 0xff00) == S8(z)
  {
  }

  lemma {:induction false} BigByte3(x: Byte, y: Byte, z: Byte, t: Byte)
    ensures Masked(Word(Big, x, y, z, t), 0xff) == S0(t)
  {
  }

  lemma {:induction false} ShiftsInjective(x: Byte, y: Byte)
    ensures S0(x) == S0(y) || S8(x) == S8(y) || S16(x) == S16(y) || S24(x) == S24(y) ==> x == y
  {
  }

  // ---- sums one at a time

  predicate SameSum(s: bv32, q: bv32, x: bv32, r: bv32) { s + q == x + r }

  lemma {:induction false} SameSumHere(x: bv32, p: bv32, q: bv32)
    ensures SameSum(x + p, q, x, p + q) && Add(x, p) == x + p && Add(p, q) == p + q
  {
  }

  lemma {:induction false} SameSumIs(s: bv32, q: bv32, x: bv32, r: bv32)
    requires SameSum(s, q, x, r)
    ensures Add(s, q) == Add(x, r)
  {
  }

  lemma {:induction false} AddAssociates(x: bv32, p: bv32, q: bv32)
    ensures Add(Add(x, p), q) == Add(x, Add(p, q))
  {
    hide SameSum, Add;
    SameSumHere(x, p, q);
    SameSumIs(Add(x, p), q, x, Add(p, q));
  }
}
