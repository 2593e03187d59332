// mix and final of jenkins_hash.c, and their inverses.
module JenkinsMix {
  datatype State = State(a: bv32, b: bv32, c: bv32)

  function Rot(x: bv32, k: nat): bv32
    requires 0 < k < 32
  {
    (x << k) | (x >> (32 - k))
  }

  // By the amounts used, no bit is lost.
  lemma {:induction false} RotRotates(x: bv32)
    ensures Rot(x, 4) == x.RotateLeft(4) && Rot(x, 6) == x.RotateLeft(6) && Rot(x, 8) == x.RotateLeft(8)
    ensures Rot(x, 16) == x.RotateLeft(16) && Rot(x, 19) == x.RotateLeft(19)
    ensures Rot(x, 11) == x.RotateLeft(11) && Rot(x, 14) == x.RotateLeft(14)
    ensures Rot(x, 24) == x.RotateLeft(24) && Rot(x, 25) == x.RotateLeft(25)
  {
  }

  // ---- the operators of uint32_t

  function Add(x: bv32, y: bv32): bv32 { x + y }

  function Sub(x: bv32, y: bv32): bv32 { x - y }

  function Xor(x: bv32, y: bv32): bv32 { x ^ y }

  lemma {:induction false} XorTwice(x: bv32, y: bv32)
    ensures Xor(Xor(x, y), y) == x
  {
  }

  predicate Sum(d: bv32, y: bv32, x: bv32) { d + y == x }

  predicate Difference(s: bv32, y: bv32, x: bv32) { s - y == x }

  lemma {:induction false} SumOf(x: bv32, y: bv32)
    ensures Sum(x - y, y, x) && Sub(x, y) == x - y
  {
  }

  lemma {:induction false} DifferenceOf(x: bv32, y: bv32)
    ensures Difference(x + y, y, x) && Add(x, y) == x + y
  {
  }

  lemma {:induction false} SumIs(d: bv32, y: bv32, x: bv32)
    requires Sum(d, y, x)
    ensures Add(d, y) == x
  {
  }

  lemma {:induction false} DifferenceIs(s: bv32, y: bv32, x: bv32)
    requires Difference(s, y, x)
    ensures Sub(s, y) == x
  {
  }

  lemma {:induction false} AddOfSub(x: bv32, y: bv32)
    ensures Add(Sub(x, y), y) == x
  {
    hide Sum, Add, Sub;
    SumOf(x, y);
    SumIs(Sub(x, y), y, x);
  }

  lemma {:induction false} SubOfAdd(x: bv32, y: bv32)
    ensures Sub(Add(x, y), y) == x
  {
    hide Difference, Add, Sub;
    DifferenceOf(x, y);
    DifferenceIs(Add(x, y), y, x);
  }

  // ---- mix

  // x -= z; x ^= rot(z, k); z += y; then the variables change places.
  function Turn(s: State, k: nat): State
    requires 0 < k < 32
  {
    State(s.b, Add(s.c, s.b), Xor(Sub(s.a, s.c), Rot(s.c, k)))
  }

  function Unturn(s: State, k: nat): State
    requires 0 < k < 32
  {
    var z := Sub(s.b, s.a);
    State(Add(Xor(s.c, Rot(z, k)), z), s.a, z)
  }

  lemma {:induction false} TurnInverse(s: State, k: nat)
    requires 0 < k < 32
    ensures Unturn(Turn(s, k), k) == s && Turn(Unturn(s, k), k) == s
  {
    hide Rot, Add, Sub, Xor;
    SubOfAdd(s.c, s.b);
    XorTwice(Sub(s.a, s.c), Rot(s.c, k));
    AddOfSub(s.a, s.c);
    var z := Sub(s.b, s.a);
    AddOfSub(s.b, s.a);
    SubOfAdd(Xor(s.c, Rot(z, k)), z);
    XorTwice(s.c, Rot(z, k));
  }

  function Mixed(s: State): State {
    Turn(Turn(Turn(Turn(Turn(Turn(s, 4), 6), 8), 16), 19), 4)
  }

  function Unmixed(s: State): State {
    Unturn(Unturn(Unturn(Unturn(Unturn(Unturn(s, 4), 19), 16), 8), 6), 4)
  }

  // mix loses nothing: it is a bijection with this inverse.
  lemma {:induction false} MixReversible(s: State)
    ensures Unmixed(Mixed(s)) == s && Mixed(Unmixed(s)) == s
  {
    hide Turn, Unturn;
    var s1 := Turn(s, 4);
    var s2 := Turn(s1, 6);
    var s3 := Turn(s2, 8);
    var s4 := Turn(s3, 16);
    var s5 := Turn(s4, 19);
    TurnInverse(s, 4); TurnInverse(s1, 6); TurnInverse(s2, 8);
    TurnInverse(s3, 16); TurnInverse(s4, 19); TurnInverse(s5, 4);
    var u1 := Unturn(s, 4);
    var u2 := Unturn(u1, 19);
    var u3 := Unturn(u2, 16);
    var u4 := Unturn(u3, 8);
    var u5 := Unturn(u4, 6);
    TurnInverse(u1, 19); TurnInverse(u2, 16); TurnInverse(u3, 8);
    TurnInverse(u4, 6); TurnInverse(u5, 4);
  }

  method Mix(a0: bv32, b0: bv32, c0: bv32) returns (a: bv32, b: bv32, c: bv32)
    ensures State(a, b, c) == Mixed(State(a0, b0, c0))
  {
    hide Add, Sub, Xor, Rot;
    a, b, c := a0, b0, c0;
    a := Sub(a, c);
    a := Xor(a, Rot(c, 4));
    c := Add(c, b);
    b := Sub(b, a);
    b := Xor(b, Rot(a, 6));
    a := Add(a, c);
    c := Sub(c, b);
    c := Xor(c, Rot(b, 8));
    b := Add(b, a);
    a := Sub(a, c);
    a := Xor(a, Rot(c, 16));
    c := Add(c, b);
    b := Sub(b, a);
    b := Xor(b, Rot(a, 19));
    a := Add(a, c);
    c := Sub(c, b);
    c := Xor(c, Rot(b, 4));
    b := Add(b, a);
  }

  // ---- final

  // c ^= b; c -= rot(b, k); then the variables change places.
  function FinalTurn(s: State, k: nat): State
    requires 0 < k < 32
  {
    State(s.b, Sub(Xor(s.c, s.b), Rot(s.b, k)), s.a)
  }

  function FinalUnturn(s: State, k: nat): State
    requires 0 < k < 32
  {
    State(s.c, s.a, Xor(Add(s.b, Rot(s.a, k)), s.a))
  }

  lemma {:induction false} FinalTurnInverse(s: State, k: nat)
    requires 0 < k < 32
    ensures FinalUnturn(FinalTurn(s, k), k) == s && FinalTurn(FinalUnturn(s, k), k) == s
  {
    hide Rot, Add, Sub, Xor;
    AddOfSub(Xor(s.c, s.b), Rot(s.b, k));
    XorTwice(s.c, s.b);
    XorTwice(Add(s.b, Rot(s.a, k)), s.a);
    SubOfAdd(s.b, Rot(s.a, k));
  }

  // The seventh turn leaves the variables one place on.
  function Finished(s: State): State {
    var t := FinalTurn(FinalTurn(FinalTurn(FinalTurn(FinalTurn(FinalTurn(FinalTurn(s, 14), 11), 25), 16), 4), 14), 24);
    State(t.c, t.a, t.b)
  }

  function Unfinished(s: State): State {
    var t := State(s.b, s.c, s.a);
    FinalUnturn(FinalUnturn(FinalUnturn(FinalUnturn(FinalUnturn(FinalUnturn(FinalUnturn(t, 24), 14), 4), 16), 25), 11), 14)
  }

  lemma {:induction false} FinalReversible(s: State)
    ensures Unfinished(Finished(s)) == s && Finished(Unfinished(s)) == s
  {
    hide FinalTurn, FinalUnturn;
    var s1 := FinalTurn(s, 14);
    var s2 := FinalTurn(s1, 11);
    var s3 := FinalTurn(s2, 25);
    var s4 := FinalTurn(s3, 16);
    var s5 := FinalTurn(s4, 4);
    var s6 := FinalTurn(s5, 14);
    FinalTurnInverse(s, 14); FinalTurnInverse(s1, 11); FinalTurnInverse(s2, 25); FinalTurnInverse(s3, 16);
    FinalTurnInverse(s4, 4); FinalTurnInverse(s5, 14); FinalTurnInverse(s6, 24);
    var u0 := State(s.b, s.c, s.a);
    var u1 := FinalUnturn(u0, 24);
    var u2 := FinalUnturn(u1, 14);
    var u3 := FinalUnturn(u2, 4);
    var u4 := FinalUnturn(u3, 16);
    var u5 := FinalUnturn(u4, 25);
    var u6 := FinalUnturn(u5, 11);
    FinalTurnInverse(u0, 24); FinalTurnInverse(u1, 14); FinalTurnInverse(u2, 4); FinalTurnInverse(u3, 16);
    FinalTurnInverse(u4, 25); FinalTurnInverse(u5, 11); FinalTurnInverse(u6, 14);
  }

  method Final(a0: bv32, b0: bv32, c0: bv32) returns (a: bv32, b: bv32, c: bv32)
    ensures State(a, b, c) == Finished(State(a0, b0, c0))
  {
    hide Add, Sub, Xor, Rot;
    a, b, c := a0, b0, c0;
    c := Xor(c, b);
    c := Sub(c, Rot(b, 14));
    a := Xor(a, c);
    a := Sub(a, Rot(c, 11));
    b := Xor(b, a);
    b := Sub(b, Rot(a, 25));
    c := Xor(c, b);
    c := Sub(c, Rot(b, 16));
    a := Xor(a, c);
    a := Sub(a, Rot(c, 4));
    b := Xor(b, a);
    b := Sub(b, Rot(a, 14));
    c := Xor(c, b);
    c := Sub(c, Rot(b, 24));
  }
}
