// Bounds of include/tree.h:46-55, written without logarithms: x <= c lg m as
// 2^x <= m^c.
module Logarithms {

  ghost function Pow2(k: nat): nat {
    if k == 0 then 1 else 2 * Pow2(k - 1)
  }

  ghost function Power(x: nat, c: nat): nat {
    if c == 0 then 1 else x * Power(x, c - 1)
  }

  // turns <= c lg (n + 1)
  ghost predicate WithinLogs(turns: nat, c: nat, n: nat) {
    Pow2(turns) <= Power(n + 1, c)
  }

  lemma {:induction false} Pow2Monotone(i: nat, j: nat)
    requires i <= j
    ensures Pow2(i) <= Pow2(j)
    decreases j
  {
    if i < j { Pow2Monotone(i, j - 1); }
  }

  lemma {:induction false} Pow2Sum(i: nat, j: nat)
    ensures Pow2(i + j) == Pow2(i) * Pow2(j)
  {
    if i > 0 {
      Pow2Sum(i - 1, j);
      assert Pow2(i + j) == 2 * Pow2(i - 1 + j);
    }
  }

  lemma {:induction false} PowerSum(x: nat, c: nat, d: nat)
    ensures Power(x, c + d) == Power(x, c) * Power(x, d)
  {
    if c > 0 {
      PowerSum(x, c - 1, d);
      assert Power(x, c + d) == x * Power(x, c - 1 + d);
      assert x * (Power(x, c - 1) * Power(x, d)) == (x * Power(x, c - 1)) * Power(x, d);
    }
  }

  lemma {:induction false} PowerMonotone(x: nat, y: nat, c: nat, d: nat)
    requires 1 <= x <= y && c <= d
    ensures 1 <= Power(x, c) <= Power(y, d)
    decreases d
  {
    if 0 < c {
      PowerMonotone(x, y, c - 1, d - 1);
      Product(x, y, Power(x, c - 1), Power(y, d - 1));
      Product(1, x, 1, Power(x, c - 1));
    } else if 0 < d {
      PowerMonotone(x, y, c, d - 1);
      Product(1, y, 1, Power(y, d - 1));
    }
  }

  lemma {:induction false} Product(a: nat, b: nat, c: nat, d: nat)
    requires a <= b && c <= d
    ensures a * c <= b * d
  {
    assert a * c <= b * c;
    assert b * c <= b * d;
  }

  lemma {:induction false} SmallPowers(m: nat)
    ensures Power(m, 2) == m * m && Power(m, 3) == m * m * m
    ensures Power(m, 4) == (m * m) * (m * m) == Power(m, 3) * m
  {
    assert Power(m, 1) == m * Power(m, 0) == m;
    assert Power(m, 2) == m * Power(m, 1) == m * m;
    PowerSum(m, 2, 1);
    PowerSum(m, 2, 2);
    PowerSum(m, 3, 1);
  }
}
