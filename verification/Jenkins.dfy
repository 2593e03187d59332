// jenkins_hash of jenkins_hash.c: one function of the bytes of the key, whichever
// path computes it.
module Jenkins {
  import opened JenkinsMix
  import opened JenkinsWords

  // ---- the function

  // A length as uint32_t: it counts up and wraps around.
  function Uint32(n: nat): bv32 { if n == 0 then 0 else Add(Uint32(n - 1), 1) }

  function WordAt(e: Endian, m: seq<Byte>, i: nat): bv32
    requires i + 4 <= |m|
  {
    Word(e, m[i], m[i + 1], m[i + 2], m[i + 3])
  }

  function AddBlock(e: Endian, s: State, block: seq<Byte>): State
    requires |block| == 12
  {
    State(Add(s.a, WordAt(e, block, 0)), Add(s.b, WordAt(e, block, 4)), Add(s.c, WordAt(e, block, 8)))
  }

  // The last block, filled up with zeros.
  function Padded(tail: seq<Byte>): (r: seq<Byte>)
    requires |tail| <= 12
    ensures |r| == 12 && forall i :: 0 <= i < 12 ==> r[i] == if i < |tail| then tail[i] else 0
  {
    tail + seq(12 - |tail|, _ => 0)
  }

  // The three words after the rest of the key.
  function EndFrom(e: Endian, s: State, rest: seq<Byte>): State
    decreases |rest|
  {
    if |rest| > 12 then EndFrom(e, Mixed(AddBlock(e, s, rest[..12])), rest[12..])
    else if rest == [] then s
    else Finished(AddBlock(e, s, Padded(rest)))
  }

  function Start(n: nat, initval: bv32): State {
    var x := Add(Add(0xdeadbeef, Uint32(n)), initval);
    State(x, x, x)
  }

  function Hash(e: Endian, key: seq<Byte>, initval: bv32): bv32 {
    EndFrom(e, Start(|key|, initval), key).c
  }

  // ---- the last block, word by word

  function ByteOr0(m: seq<Byte>, p: nat, n: nat, i: nat): Byte
    requires n == 0 || p + n <= |m|
  {
    if i < n then m[p + i] else 0
  }

  // The word at p of which n bytes belong to the key.
  function PartWord(e: Endian, m: seq<Byte>, p: nat, n: nat): bv32
    requires n == 0 || p + n <= |m|
  {
    Word(e, ByteOr0(m, p, n, 0), ByteOr0(m, p, n, 1), ByteOr0(m, p, n, 2), ByteOr0(m, p, n, 3))
  }

  function Less(n: nat, d: nat): nat { if n < d then 0 else n - d }

  lemma {:induction false} LastBlock(e: Endian, s: State, m: seq<Byte>, p: nat, n: nat)
    requires n <= 12 && p + n <= |m|
    ensures AddBlock(e, s, Padded(m[p..p + n])) ==
      State(Add(s.a, PartWord(e, m, p, n)), Add(s.b, PartWord(e, m, p + 4, Less(n, 4))),
            Add(s.c, PartWord(e, m, p + 8, Less(n, 8))))
  {
    hide Word, Add;
  }

  lemma {:induction false} FullBlock(e: Endian, s: State, m: seq<Byte>, p: nat, n: nat)
    requires n > 12 && p + n <= |m|
    ensures m[p..p + n][12..] == m[p + 12..p + n]
    ensures AddBlock(e, s, m[p..p + n][..12]) ==
      State(Add(s.a, WordAt(e, m, p)), Add(s.b, WordAt(e, m, p + 4)), Add(s.c, WordAt(e, m, p + 8)))
  {
    hide Word, Add;
    var rest := m[p..p + n];
    assert rest[12..] == m[p + 12..p + n];
    assert forall j :: 0 <= j < 12 ==> rest[..12][j] == m[p + j];
  }

  // One turn of the loops.
  lemma {:induction false} EndStep(e: Endian, s: State, m: seq<Byte>, p: nat, n: nat)
    requires n > 12 && p + n <= |m|
    ensures EndFrom(e, s, m[p..p + n]) ==
      EndFrom(e, Mixed(State(Add(s.a, WordAt(e, m, p)), Add(s.b, WordAt(e, m, p + 4)), Add(s.c, WordAt(e, m, p + 8)))),
              m[p + 12..p + n])
  {
    hide Word, Add, Mixed;
    FullBlock(e, s, m, p, n);
  }

  // ---- the reads of the three paths

  // The byte at place i of its word.
  function Up(e: Endian, x: Byte, i: nat): bv32
    requires i < 4
  {
    if e == Little then if i == 0 then S0(x) else if i == 1 then S8(x) else if i == 2 then S16(x) else S24(x)
    else if i == 0 then S24(x) else if i == 1 then S16(x) else if i == 2 then S8(x) else S0(x)
  }

  // a += k[0]; a += k[1] << 8; and so on
  method AddFourBytes(e: Endian, x0: bv32, m: seq<Byte>, p: nat) returns (x: bv32)
    requires p + 4 <= |m|
    ensures x == Add(x0, WordAt(e, m, p))
  {
    hide Add, Word, S0, S8, S16, S24;
    x := x0;
    x := Add(x, Up(e, m[p], 0));
    x := Add(x, Up(e, m[p + 1], 1));
    x := Add(x, Up(e, m[p + 2], 2));
    x := Add(x, Up(e, m[p + 3], 3));
    AddFour(x0, Up(e, m[p], 0), Up(e, m[p + 1], 1), Up(e, m[p + 2], 2), Up(e, m[p + 3], 3));
    if e == Little {
      LittleSum(m[p], m[p + 1], m[p + 2], m[p + 3]);
    } else {
      BigSum(m[p], m[p + 1], m[p + 2], m[p + 3]);
    }
  }

  lemma {:induction false} AddThree(x: bv32, p: bv32, q: bv32, r: bv32)
    ensures Add(Add(Add(x, p), q), r) == Add(x, Add(Add(p, q), r))
  {
    hide Add;
    AddAssociates(x, p, q);
    AddAssociates(x, Add(p, q), r);
  }

  lemma {:induction false} AddFour(x: bv32, p: bv32, q: bv32, r: bv32, t: bv32)
    ensures Add(Add(Add(Add(x, p), q), r), t) == Add(x, Add(Add(Add(p, q), r), t))
  {
    hide Add;
    AddThree(x, p, q, r);
    AddAssociates(x, Add(Add(p, q), r), t);
  }

  lemma {:induction false} AddNothing(e: Endian, x: bv32)
    ensures Add(x, Word(e, 0, 0, 0, 0)) == x
  {
  }

  // The part of the fall-through switch that adds to one word, byte by byte.
  method AddBytes(e: Endian, x0: bv32, m: seq<Byte>, p: nat, n: nat) returns (x: bv32)
    requires n == 0 || p + n <= |m|
    ensures x == Add(x0, PartWord(e, m, p, n))
  {
    hide Add, Word, S0, S8, S16, S24;
    x := x0;
    if n >= 4 { x := Add(x, Up(e, m[p + 3], 3)); }
    if n >= 3 { x := Add(x, Up(e, m[p + 2], 2)); }
    if n >= 2 { x := Add(x, Up(e, m[p + 1], 1)); }
    if n >= 1 { x := Add(x, Up(e, m[p], 0)); }
    BytesAdded(e, x0, m, p, n);
  }

  lemma {:induction false} BytesAdded(e: Endian, x: bv32, m: seq<Byte>, p: nat, n: nat)
    requires n == 0 || p + n <= |m|
    ensures var r := PartWord(e, m, p, n);
      if n == 0 then Add(x, r) == x
      else if n == 1 then Add(x, r) == Add(x, Up(e, m[p], 0))
      else if n == 2 then Add(x, r) == Add(Add(x, Up(e, m[p + 1], 1)), Up(e, m[p], 0))
      else if n == 3 then Add(x, r) == Add(Add(Add(x, Up(e, m[p + 2], 2)), Up(e, m[p + 1], 1)), Up(e, m[p], 0))
      else Add(x, r) == Add(Add(Add(Add(x, Up(e, m[p + 3], 3)), Up(e, m[p + 2], 2)), Up(e, m[p + 1], 1)), Up(e, m[p], 0))
  {
    hide Add, Word, S0, S8, S16, S24;
    if n == 0 {
      AddNothing(e, x);
    } else if n == 1 {
      if e == Little { LittleTail1(m[p]); } else { BigTail1(m[p]); }
    } else if n == 2 {
      AddAssociates(x, Up(e, m[p + 1], 1), Up(e, m[p], 0));
      if e == Little { LittleTail2(m[p], m[p + 1]); } else { BigTail2(m[p], m[p + 1]); }
    } else if n == 3 {
      AddThree(x, Up(e, m[p + 2], 2), Up(e, m[p + 1], 1), Up(e, m[p], 0));
      if e == Little { LittleTail3(m[p], m[p + 1], m[p + 2]); } else { BigTail3(m[p], m[p + 1], m[p + 2]); }
    } else {
      AddFour(x, Up(e, m[p + 3], 3), Up(e, m[p + 2], 2), Up(e, m[p + 1], 1), Up(e, m[p], 0));
      if e == Little {
        LittleTail4(m[p], m[p + 1], m[p + 2], m[p + 3]);
      } else {
        BigTail4(m[p], m[p + 1], m[p + 2], m[p + 3]);
      }
    }
  }

  // A word at once, masked where the key ends within it.  The bytes of the word
  // beyond the key are there, but do not count.
  method AddMasked(e: Endian, x0: bv32, m: seq<Byte>, p: nat, n: nat) returns (x: bv32)
    requires n == 0 || (p + n <= |m| && p + 4 <= |m|)
    ensures x == Add(x0, PartWord(e, m, p, n))
  {
    hide Add, Word, Masked;
    if n == 0 {
      AddNothing(e, x0);
      return x0;
    }
    var w := WordAt(e, m, p);
    if n == 3 {
      LittleMask3(m[p], m[p + 1], m[p + 2], m[p + 3]);
      BigMask3(m[p], m[p + 1], m[p + 2], m[p + 3]);
      w := Masked(w, if e == Little then 0xffffff else 0xffffff00);
    } else if n == 2 {
      LittleMask2(m[p], m[p + 1], m[p + 2], m[p + 3]);
      BigMask2(m[p], m[p + 1], m[p + 2], m[p + 3]);
      w := Masked(w, if e == Little then 0xffff else 0xffff0000);
    } else if n == 1 {
      LittleMask1(m[p], m[p + 1], m[p + 2], m[p + 3]);
      BigMask1(m[p], m[p + 1], m[p + 2], m[p + 3]);
      w := Masked(w, if e == Little then 0xff else 0xff000000);
    }
    x := Add(x0, w);
  }

  // Half words, and a last byte by itself; on little-endian machines only.
  method AddHalves(x0: bv32, m: seq<Byte>, p: nat, n: nat) returns (x: bv32)
    requires n == 0 || p + n <= |m|
    ensures x == Add(x0, PartWord(Little, m, p, n))
  {
    hide Add, Word, Low, High, Half, S0, S16;
    if n == 0 {
      AddNothing(Little, x0);
      return x0;
    } else if n == 1 {
      LittleTail1(m[p]);
      return Add(x0, S0(m[p]));
    }
    var half := Half(m[p], m[p + 1]);
    if n == 2 {
      HalfTail2(m[p], m[p + 1]);
      return Add(x0, Low(half));
    } else if n == 3 {
      x := Add(x0, S16(m[p + 2]));
      x := Add(x, Low(half));
      AddAssociates(x0, S16(m[p + 2]), Low(half));
      HalfTail3(m[p], m[p + 1], m[p + 2]);
    } else {
      x := Add(x0, Add(Low(half), High(Half(m[p + 2], m[p + 3]))));
      HalfSum(m[p], m[p + 1], m[p + 2], m[p + 3]);
    }
  }

  lemma {:induction false} FullPart(e: Endian, m: seq<Byte>, p: nat)
    requires p + 4 <= |m|
    ensures PartWord(e, m, p, 4) == WordAt(e, m, p)
  {
    hide Word;
  }

  // The word a key ends in ends within the memory.
  lemma {:induction false} WordFits(p: nat, n: nat, size: nat)
    requires p % 4 == 0 && size % 4 == 0 && 1 <= n <= 12 && p + n <= size
    ensures p + 4 <= size && (n > 4 ==> p + 8 <= size) && (n > 8 ==> p + 12 <= size)
  {
  }

  // The path for keys at a word boundary, which reads whole words.
  method HashWords(e: Endian, m: seq<Byte>, length0: nat, initval: bv32) returns (h: bv32)
    requires length0 <= |m| && |m| % 4 == 0
    ensures h == Hash(e, m[..length0], initval)
  {
    hide Add, Word, WordAt, Mixed, Finished, Start, EndFrom;
    var length, p := length0, 0;
    var s := Start(length, initval);
    var a, b, c := s.a, s.b, s.c;
    assert m[0..0 + length] == m[..length0];
    while length > 12
      invariant p + length == length0 && p % 4 == 0
      invariant EndFrom(e, State(a, b, c), m[p..p + length]).c == Hash(e, m[..length0], initval)
    {
      EndStep(e, State(a, b, c), m, p, length);
      a := AddMasked(e, a, m, p, 4);
      b := AddMasked(e, b, m, p + 4, 4);
      c := AddMasked(e, c, m, p + 8, 4);
      FullPart(e, m, p);
      FullPart(e, m, p + 4);
      FullPart(e, m, p + 8);
      a, b, c := Mix(a, b, c);
      length := length - 12;
      p := p + 12;
    }
    h := LastWords(e, a, b, c, m, p, length);
  }

  method LastWords(e: Endian, a0: bv32, b0: bv32, c0: bv32, m: seq<Byte>, p: nat, n: nat) returns (h: bv32)
    requires n <= 12 && p + n <= |m| && p % 4 == 0 && |m| % 4 == 0
    ensures h == EndFrom(e, State(a0, b0, c0), m[p..p + n]).c
  {
    hide Add, Word, Mixed, Finished;
    var a, b, c := a0, b0, c0;
    if n == 0 {
      return c;
    }
    LastBlock(e, State(a, b, c), m, p, n);
    WordFits(p, n, |m|);
    c := AddMasked(e, c, m, p + 8, Less(n, 8));
    b := AddMasked(e, b, m, p + 4, Less(n, 4));
    a := AddMasked(e, a, m, p, n);
    a, b, c := Final(a, b, c);
    return c;
  }

  // The path for keys at an even address.
  method HashHalves(m: seq<Byte>, length0: nat, initval: bv32) returns (h: bv32)
    requires length0 <= |m|
    ensures h == Hash(Little, m[..length0], initval)
  {
    hide Add, Word, WordAt, Mixed, Finished, Start, EndFrom;
    var length, p := length0, 0;
    var s := Start(length, initval);
    var a, b, c := s.a, s.b, s.c;
    assert m[0..0 + length] == m[..length0];
    while length > 12
      invariant p + length == length0
      invariant EndFrom(Little, State(a, b, c), m[p..p + length]).c == Hash(Little, m[..length0], initval)
    {
      EndStep(Little, State(a, b, c), m, p, length);
      a := AddHalves(a, m, p, 4);
      b := AddHalves(b, m, p + 4, 4);
      c := AddHalves(c, m, p + 8, 4);
      FullPart(Little, m, p);
      FullPart(Little, m, p + 4);
      FullPart(Little, m, p + 8);
      a, b, c := Mix(a, b, c);
      length := length - 12;
      p := p + 12;
    }
    h := LastHalves(a, b, c, m, p, length);
  }

  method LastHalves(a0: bv32, b0: bv32, c0: bv32, m: seq<Byte>, p: nat, n: nat) returns (h: bv32)
    requires n <= 12 && p + n <= |m|
    ensures h == EndFrom(Little, State(a0, b0, c0), m[p..p + n]).c
  {
    hide Add, Word, Mixed, Finished;
    var a, b, c := a0, b0, c0;
    if n == 0 {
      return c;
    }
    LastBlock(Little, State(a, b, c), m, p, n);
    c := AddHalves(c, m, p + 8, Less(n, 8));
    b := AddHalves(b, m, p + 4, Less(n, 4));
    a := AddHalves(a, m, p, n);
    a, b, c := Final(a, b, c);
    return c;
  }

  // The path for keys anywhere.
  method HashBytes(e: Endian, m: seq<Byte>, length0: nat, initval: bv32) returns (h: bv32)
    requires length0 <= |m|
    ensures h == Hash(e, m[..length0], initval)
  {
    hide Add, Word, WordAt, Mixed, Finished, Start, EndFrom;
    var length, p := length0, 0;
    var s := Start(length, initval);
    var a, b, c := s.a, s.b, s.c;
    assert m[0..0 + length] == m[..length0];
    while length > 12
      invariant p + length == length0
      invariant EndFrom(e, State(a, b, c), m[p..p + length]).c == Hash(e, m[..length0], initval)
    {
      EndStep(e, State(a, b, c), m, p, length);
      a := AddFourBytes(e, a, m, p);
      b := AddFourBytes(e, b, m, p + 4);
      c := AddFourBytes(e, c, m, p + 8);
      a, b, c := Mix(a, b, c);
      length := length - 12;
      p := p + 12;
    }
    h := LastBytes(e, a, b, c, m, p, length);
  }

  method LastBytes(e: Endian, a0: bv32, b0: bv32, c0: bv32, m: seq<Byte>, p: nat, n: nat) returns (h: bv32)
    requires n <= 12 && p + n <= |m|
    ensures h == EndFrom(e, State(a0, b0, c0), m[p..p + n]).c
  {
    hide Add, Word, Mixed, Finished;
    var a, b, c := a0, b0, c0;
    if n == 0 {
      return c;
    }
    LastBlock(e, State(a, b, c), m, p, n);
    c := AddBytes(e, c, m, p + 8, Less(n, 8));
    b := AddBytes(e, b, m, p + 4, Less(n, 4));
    a := AddBytes(e, a, m, p, n);
    a, b, c := Final(a, b, c);
    return c;
  }

  // The path depends on the address, and the value only on the key: the memory
  // from the key on, as far as the word it ends in, is m.
  method JenkinsHash(e: Endian, address: nat, m: seq<Byte>, length: nat, initval: bv32) returns (h: bv32)
    requires length <= |m| && (address % 4 == 0 ==> |m| % 4 == 0)
    ensures h == Hash(e, m[..length], initval)
  {
    if address % 4 == 0 {
      h := HashWords(e, m, length, initval);
    } else if e == Little && address % 2 == 0 {
      h := HashHalves(m, length, initval);
    } else {
      h := HashBytes(e, m, length, initval);
    }
  }

  // ---- lengths

  function Twice(x: bv32): bv32 { x << 1 }

  function FourTimes(x: bv32): bv32 { x << 2 }

  lemma {:induction false} Uint32Sum(m: nat, n: nat)
    ensures Uint32(m + n) == Add(Uint32(m), Uint32(n))
  {
    hide Add;
    if n == 0 {
      ZeroPlus(Uint32(m));
    } else {
      Uint32Sum(m, n - 1);
      AddAssociates(Uint32(m), Uint32(n - 1), 1);
    }
  }

  lemma {:induction false} ZeroPlus(x: bv32)
    ensures Add(0, x) == x && Add(x, 0) == x
  {
  }

  lemma {:induction false} TwiceIs(x: bv32)
    ensures Twice(x) == Add(x, x)
  {
  }

  lemma {:induction false} FourTimesIs(x: bv32)
    ensures FourTimes(x) == Twice(Twice(x))
  {
  }

  lemma {:induction false} Uint32Twice(n: nat)
    ensures Uint32(2 * n) == Twice(Uint32(n))
  {
    hide Add, Twice;
    Uint32Sum(n, n);
    TwiceIs(Uint32(n));
  }

  lemma {:induction false} Uint32FourTimes(n: nat)
    ensures Uint32(4 * n) == FourTimes(Uint32(n))
  {
    hide Add, Twice, FourTimes;
    Uint32Twice(n);
    Uint32Twice(2 * n);
    FourTimesIs(Uint32(n));
  }

  function Power(k: nat): nat { if k == 0 then 1 else 2 * Power(k - 1) }

  function TwiceTimes(x: bv32, k: nat): bv32 { if k == 0 then x else Twice(TwiceTimes(x, k - 1)) }

  lemma {:induction false} Uint32Power(k: nat)
    ensures Uint32(Power(k)) == TwiceTimes(1, k)
  {
    hide Add, Twice;
    if k == 0 {
      ZeroPlus(1);
      assert Uint32(1) == Add(Uint32(0), 1);
    } else {
      Uint32Power(k - 1);
      Uint32Twice(Power(k - 1));
    }
  }

  lemma {:induction false} FourMore(k: nat, n: nat, x: bv32)
    requires Power(k) == n && TwiceTimes(1, k) == x
    ensures Power(k + 4) == 16 * n && TwiceTimes(1, k + 4) == Twice(Twice(Twice(Twice(x))))
  {
    hide Twice;
    assert Power(k + 1) == 2 * n && TwiceTimes(1, k + 1) == Twice(x);
    assert Power(k + 2) == 4 * n && TwiceTimes(1, k + 2) == Twice(Twice(x));
    assert Power(k + 3) == 8 * n && TwiceTimes(1, k + 3) == Twice(Twice(Twice(x)));
  }

  lemma {:induction false} PowerOf32()
    ensures Power(32) == 0x1_0000_0000 && TwiceTimes(1, 32) == 0
  {
    FourMore(0, 1, 1);
    FourMore(4, 0x10, 0x10);
    FourMore(8, 0x100, 0x100);
    FourMore(12, 0x1000, 0x1000);
    FourMore(16, 0x1_0000, 0x1_0000);
    FourMore(20, 0x10_0000, 0x10_0000);
    FourMore(24, 0x100_0000, 0x100_0000);
    FourMore(28, 0x1000_0000, 0x1000_0000);
  }

  // The length counts modulo 2^32.
  lemma {:induction false} LengthWraps(n: nat)
    ensures Uint32(n + 0x1_0000_0000) == Uint32(n)
  {
    hide Add, Twice;
    PowerOf32();
    Uint32Power(32);
    Uint32Sum(n, 0x1_0000_0000);
    ZeroPlus(Uint32(n));
  }

  // ---- keys of words

  // jenkins_hash32.  Where the words are those that the bytes in memory are on
  // this machine, it is the hash of the bytes.
  method JenkinsHash32(k: seq<bv32>, initval: bv32, ghost e: Endian, ghost m: seq<Byte>) returns (h: bv32)
    requires |m| == 4 * |k| && forall i :: 0 <= i < |k| ==> k[i] == WordAt(e, m, 4 * i)
    ensures h == Hash(e, m, initval)
  {
    hide Add, Word, WordAt, Mixed, Finished, FourTimes, EndFrom;
    var length: nat, p: nat := |k|, 0;
    Uint32FourTimes(length);
    var x := Add(Add(0xdeadbeef, FourTimes(Uint32(length))), initval);
    var a, b, c := x, x, x;
    assert m[0..4 * length] == m;
    while length > 3
      invariant p + length == |k|
      invariant EndFrom(e, State(a, b, c), m[4 * p..4 * p + 4 * length]).c == Hash(e, m, initval)
    {
      EndStep(e, State(a, b, c), m, 4 * p, 4 * length);
      a := Add(a, k[p]);
      b := Add(b, k[p + 1]);
      c := Add(c, k[p + 2]);
      a, b, c := Mix(a, b, c);
      length := length - 3;
      p := p + 3;
    }
    h := Last32(k, p, a, b, c, e, m);
  }

  method Last32(k: seq<bv32>, p: nat, a0: bv32, b0: bv32, c0: bv32, ghost e: Endian,
                ghost m: seq<Byte>) returns (h: bv32)
    requires |m| == 4 * |k| && forall i :: 0 <= i < |k| ==> k[i] == WordAt(e, m, 4 * i)
    requires p <= |k| <= p + 3
    ensures h == EndFrom(e, State(a0, b0, c0), m[4 * p..4 * |k|]).c
  {
    hide Add, Word, Mixed, Finished;
    var a, b, c := a0, b0, c0;
    var length := |k| - p;
    ghost var n := 4 * length;
    LastBlock(e, State(a, b, c), m, 4 * p, n);
    assert m[4 * p..4 * p + n] == m[4 * p..4 * |k|];
    AddNothing(e, b);
    AddNothing(e, c);
    if length >= 1 { FullPart(e, m, 4 * p); WordHere(k, p, e, m); }
    if length >= 2 { FullPart(e, m, 4 * p + 4); WordHere(k, p + 1, e, m); }
    if length >= 3 { FullPart(e, m, 4 * p + 8); WordHere(k, p + 2, e, m); }
    if length == 3 {
      c := Add(c, k[p + 2]);
    }
    if length >= 2 {
      b := Add(b, k[p + 1]);
    }
    if length >= 1 {
      a := Add(a, k[p]);
      a, b, c := Final(a, b, c);
    }
    return c;
  }

  lemma {:induction false} WordHere(k: seq<bv32>, i: nat, e: Endian, m: seq<Byte>)
    requires |m| == 4 * |k| && i < |k| && forall i :: 0 <= i < |k| ==> k[i] == WordAt(e, m, 4 * i)
    ensures k[i] == WordAt(e, m, 4 * i)
  {
  }

  // ---- different keys

  lemma {:induction false} AddInjective(x: bv32, v: bv32, w: bv32)
    requires Add(x, v) == Add(x, w)
    ensures v == w
  {
    hide Add, Sub;
    AddSwaps(x, v);
    AddSwaps(x, w);
    SubOfAdd(v, x);
    SubOfAdd(w, x);
  }

  lemma {:induction false} AddSwaps(x: bv32, y: bv32)
    ensures Add(x, y) == Add(y, x)
  {
  }

  lemma {:induction false} WordBytes(e: Endian, x: Byte, y: Byte, z: Byte, t: Byte)
    ensures Masked(Word(e, x, y, z, t), if e == Little then 0xff else 0xff000000) == Up(e, x, 0)
    ensures Masked(Word(e, x, y, z, t), if e == Little then 0xff00 else 0xff0000) == Up(e, y, 1)
    ensures Masked(Word(e, x, y, z, t), if e == Little then 0xff0000 else 0xff00) == Up(e, z, 2)
    ensures Masked(Word(e, x, y, z, t), if e == Little then 0xff000000 else 0xff) == Up(e, t, 3)
  {
    hide Masked, Word, S0, S8, S16, S24;
    if e == Little {
      LittleByte0(x, y, z, t); LittleByte1(x, y, z, t); LittleByte2(x, y, z, t); LittleByte3(x, y, z, t);
    } else {
      BigByte0(x, y, z, t); BigByte1(x, y, z, t); BigByte2(x, y, z, t); BigByte3(x, y, z, t);
    }
  }

  lemma {:induction false} WordInjective(e: Endian, x: Byte, y: Byte, z: Byte, t: Byte, x1: Byte, y1: Byte, z1: Byte,
                                         t1: Byte)
    requires Word(e, x, y, z, t) == Word(e, x1, y1, z1, t1)
    ensures x == x1 && y == y1 && z == z1 && t == t1
  {
    hide Masked, Word, S0, S8, S16, S24;
    WordBytes(e, x, y, z, t);
    WordBytes(e, x1, y1, z1, t1);
    ShiftsInjective(x, x1);
    ShiftsInjective(y, y1);
    ShiftsInjective(z, z1);
    ShiftsInjective(t, t1);
  }

  lemma {:induction false} SameWord(e: Endian, x: seq<Byte>, y: seq<Byte>, i: nat)
    requires |x| == |y| && i + 4 <= |x| && WordAt(e, x, i) == WordAt(e, y, i)
    ensures x[i..i + 4] == y[i..i + 4]
  {
    hide Word;
    WordInjective(e, x[i], x[i + 1], x[i + 2], x[i + 3], y[i], y[i + 1], y[i + 2], y[i + 3]);
  }

  lemma {:induction false} BlockInjective(e: Endian, s: State, x: seq<Byte>, y: seq<Byte>)
    requires |x| == |y| == 12 && AddBlock(e, s, x) == AddBlock(e, s, y)
    ensures x == y
  {
    hide Add, Word, WordAt;
    AddInjective(s.a, WordAt(e, x, 0), WordAt(e, y, 0));
    AddInjective(s.b, WordAt(e, x, 4), WordAt(e, y, 4));
    AddInjective(s.c, WordAt(e, x, 8), WordAt(e, y, 8));
    SameWord(e, x, y, 0);
    SameWord(e, x, y, 4);
    SameWord(e, x, y, 8);
    forall i | 0 <= i < 4 ensures x[i] == y[i] { assert x[0..4][i] == y[0..4][i]; }
    forall i | 4 <= i < 8 ensures x[i] == y[i] { assert x[4..8][i - 4] == y[4..8][i - 4]; }
    forall i | 8 <= i < 12 ensures x[i] == y[i] { assert x[8..12][i - 8] == y[8..12][i - 8]; }
  }

  lemma {:induction false} PaddedInjective(x: seq<Byte>, y: seq<Byte>)
    requires |x| == |y| <= 12 && Padded(x) == Padded(y)
    ensures x == y
  {
    assert x == Padded(x)[..|x|] && y == Padded(y)[..|x|];
  }

  lemma {:induction false} StateInjective(e: Endian, s: State, t: State, block: seq<Byte>)
    requires |block| == 12 && AddBlock(e, s, block) == AddBlock(e, t, block)
    ensures s == t
  {
    hide Add, Sub, Word;
    var u, v, w := WordAt(e, block, 0), WordAt(e, block, 4), WordAt(e, block, 8);
    SubOfAdd(s.a, u); SubOfAdd(t.a, u);
    SubOfAdd(s.b, v); SubOfAdd(t.b, v);
    SubOfAdd(s.c, w); SubOfAdd(t.c, w);
  }

  // What is different before the rest of the key is different after it.
  lemma {:induction false} DifferenceStays(e: Endian, s: State, t: State, rest: seq<Byte>)
    requires s != t
    ensures EndFrom(e, s, rest) != EndFrom(e, t, rest)
    decreases |rest|
  {
    hide Mixed, Finished, Unmixed, Unfinished, AddBlock;
    if |rest| > 12 {
      var s1, t1 := AddBlock(e, s, rest[..12]), AddBlock(e, t, rest[..12]);
      if s1 == t1 { StateInjective(e, s, t, rest[..12]); }
      MixReversible(s1);
      MixReversible(t1);
      DifferenceStays(e, Mixed(s1), Mixed(t1), rest[12..]);
    } else if rest != [] {
      var s1, t1 := AddBlock(e, s, Padded(rest)), AddBlock(e, t, Padded(rest));
      if s1 == t1 { StateInjective(e, s, t, Padded(rest)); }
      FinalReversible(s1);
      FinalReversible(t1);
    }
  }

  // Two keys of one length that differ in exactly one block of 12 bytes, the
  // one at i, end with different words.
  lemma {:induction false} OneBlockShows(e: Endian, s: State, x: seq<Byte>, y: seq<Byte>, i: nat)
    requires |x| == |y| && 12 * i < |x| && x != y
    requires x[..12 * i] == y[..12 * i]
    requires 12 * i + 12 < |x| ==> x[12 * i + 12..] == y[12 * i + 12..]
    ensures EndFrom(e, s, x) != EndFrom(e, s, y)
    decreases i
  {
    hide Mixed, Finished, Unmixed, Unfinished, AddBlock;
    if i > 0 {
      assert x[..12] == x[..12 * i][..12] == y[..12 * i][..12] == y[..12];
      assert x == x[..12] + x[12..] && y == y[..12] + y[12..];
      BlockRemoved(x, y, i);
      OneBlockShows(e, Mixed(AddBlock(e, s, x[..12])), x[12..], y[12..], i - 1);
    } else if |x| > 12 {
      var u, v := AddBlock(e, s, x[..12]), AddBlock(e, s, y[..12]);
      assert x == x[..12] + x[12..] && y == y[..12] + y[12..];
      if u == v { BlockInjective(e, s, x[..12], y[..12]); }
      MixReversible(u);
      MixReversible(v);
      DifferenceStays(e, Mixed(u), Mixed(v), x[12..]);
    } else {
      var u, v := AddBlock(e, s, Padded(x)), AddBlock(e, s, Padded(y));
      if Padded(x) == Padded(y) { PaddedInjective(x, y); }
      if u == v { BlockInjective(e, s, Padded(x), Padded(y)); }
      FinalReversible(u);
      FinalReversible(v);
    }
  }

  lemma {:induction false} BlockRemoved(x: seq<Byte>, y: seq<Byte>, i: nat)
    requires |x| == |y| && 0 < i && 12 * i < |x| && x[..12 * i] == y[..12 * i]
    requires 12 * i + 12 < |x| ==> x[12 * i + 12..] == y[12 * i + 12..]
    ensures var j := i - 1;
      && x[12..][..12 * j] == y[12..][..12 * j]
      && (12 * j + 12 < |x[12..]| ==> x[12..][12 * j + 12..] == y[12..][12 * j + 12..])
  {
    var j := i - 1;
    assert x[12..][..12 * j] == x[..12 * i][12..] && y[12..][..12 * j] == y[..12 * i][12..];
    if 12 * i + 12 < |x| {
      assert x[12..][12 * j + 12..] == x[12 * i + 12..] && y[12..][12 * j + 12..] == y[12 * i + 12..];
    }
  }
}