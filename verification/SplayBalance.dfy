// The Balance Theorem of include/tree.h:46-48: what a run of calls on a splay tree
// costs.  A call is a function of the tree here; the methods of TopDownTree are
// proved to leave the tree it gives and to take the turns it counts.
module SplayBalance {
  import opened Elements
  import opened Logarithms
  import opened SplayShape
  import opened SplayCost

  datatype Call = Access(p: Probe) | Next(n: Node) | Insert(n: Node) | Remove(key: int)

  ghost function After(t: Tree, c: Call): Tree {
    match c
    case Access(p) => Splayed(t, p)
    case Next(n) => Splayed(t, Key(n.key))
    case Insert(n) =>
      if t.Leaf? then Bin(Leaf, n, Leaf)
      else
        var u := Splayed(t, Key(n.key));
        if n.key == u.n.key then u else NewRootTree(u, n, n.key < u.n.key)
    case Remove(k) =>
      var u := Splayed(t, Key(k));
      if t.Leaf? || u.n.key != k then u else WithoutRoot(u, k)
  }

  // The left subtree is splayed once more, and the right one hung from its root.
  ghost function WithoutRoot(u: Tree, k: int): Tree
    requires u.Bin?
  {
    if u.l.Leaf? then u.r else var v := Splayed(u.l, Key(k)); Bin(v.l, v.n, u.r)
  }

  // The turns of the splays of a call.
  ghost function Cost(t: Tree, c: Call): nat {
    match c
    case Access(p) => Turns(t, p)
    case Next(n) => Turns(t, Key(n.key))
    case Insert(n) => Turns(t, Key(n.key))
    case Remove(k) =>
      var u := Splayed(t, Key(k));
      Turns(t, Key(k)) + if t.Leaf? || u.n.key != k then 0 else Turns(u.l, Key(k))
  }

  ghost function Run(t: Tree, calls: seq<Call>): Tree
    decreases |calls|
  {
    if calls == [] then t else Run(After(t, calls[0]), calls[1..])
  }

  ghost function Total(t: Tree, calls: seq<Call>): nat
    decreases |calls|
  {
    if calls == [] then 0 else Cost(t, calls[0]) + Total(After(t, calls[0]), calls[1..])
  }

  ghost function Inserts(calls: seq<Call>): nat {
    if calls == [] then 0 else (if calls[0].Insert? then 1 else 0) + Inserts(calls[1..])
  }

  // How many times the logarithm of the weight a call may cost.
  ghost function Allowance(c: Call): nat {
    match c
    case Access(_) => 3
    case Next(_) => 3
    case Insert(_) => 4
    case Remove(_) => 6
  }

  // Calls that only look at the tree.
  ghost predicate Looks(c: Call) { c.Access? || c.Next? }

  ghost function Budget(calls: seq<Call>): nat {
    if calls == [] then 0 else Allowance(calls[0]) + Budget(calls[1..])
  }

  // ---- one call

  // What is paid for u with a pays for n too, if n is worth at most f times u.
  lemma {:induction false} Extend(e: nat, u: nat, n: nat, f: nat, t: nat, a: nat, b: nat)
    requires e * u <= t * a && n <= u * f && a * f <= b
    ensures e * n <= t * b
  {
    Product(e, e, n, u * f);
    Product(e * u, t * a, f, f);
    Product(t, t, a * f, b);
    assert e * (u * f) == (e * u) * f && (t * a) * f == t * (a * f);
  }

  // Two payments, one after the other.
  lemma {:induction false} Chain(d: nat, e: nat, r: nat, u: nat, q: nat, t: nat, a: nat)
    requires e * r <= u * q && d * u <= t * a
    ensures (d * e) * r <= t * (a * q)
  {
    Product(d, d, e * r, u * q);
    Product(d * u, t * a, q, q);
    assert (d * e) * r == d * (e * r) && d * (u * q) == (d * u) * q && t * (a * q) == (t * a) * q;
  }

  lemma {:induction false} SplayPays(t: Tree, p: Probe)
    ensures Weight(Splayed(t, p)) == Weight(t)
    ensures Pow2(Turns(t, p)) * Potential(Splayed(t, p)) <= Potential(t) * Power(Weight(t), 3)
  {
    var w := Weight(t);
    SmallPowers(w);
    if t.Bin? {
      var q := Partition(t, p);
      PartsWeigh(t, p);
      SplitPays(t, p);
      Opened(Splayed(t, p));
      hide Power, Potential, Pow2, Weight;
      Extend(Pow2(q.turns), Potential(q.small) * Potential(q.big), Potential(Splayed(t, p)), w, Potential(t), w * w, w * w * w);
    } else {
      Product(1, w, 1, w);
      Product(1, w * w, 1, w);
    }
  }

  lemma {:induction false} NewRootPotential(u: Tree, n: Node, before: bool)
    requires u.Bin?
    ensures var v := NewRootTree(u, n, before);
      Weight(v) == Weight(u) + 1 && Potential(v) <= Potential(u) * (Weight(u) + 1)
  {
    var v := NewRootTree(u, n, before);
    var a, b, w := Weight(u.l), Weight(u.r), Weight(u);
    Opened(u);
    Opened(v);
    Opened(if before then v.r else v.l);
    hide Potential, Weight;
    NewRootPays(Potential(u.l), Potential(u.r), if before then b else a, w);
  }

  lemma {:induction false} NewRootPays(pl: nat, pr: nat, a: nat, w: nat)
    requires 1 + a <= w
    ensures pl * (1 * pr * (1 + a)) * (w + 1) <= pl * pr * w * (w + 1)
    ensures pl * 1 * (a + 1) * pr * (w + 1) <= pl * pr * w * (w + 1)
  {
    Product(1 + a, w, w + 1, w + 1);
    Product(pl * pr, pl * pr, (1 + a) * (w + 1), w * (w + 1));
  }

  lemma {:induction false} InsertPays(t: Tree, n: Node)
    ensures Weight(After(t, Insert(n))) <= Weight(t) + 1
    ensures Pow2(Cost(t, Insert(n))) * Potential(After(t, Insert(n))) <= Potential(t) * Power(Weight(t) + 1, 4)
  {
    var w, k := Weight(t), Key(n.key);
    var u, v := Splayed(t, k), After(t, Insert(n));
    SmallPowers(w + 1);
    SplayPays(t, k);
    if t.Leaf? {
      assert Potential(v) == 2 && Pow2(0) == 1 == w;
    } else {
      hide Power, Potential, Pow2, Weight;
      if n.key != u.n.key {
        NewRootPotential(u, n, n.key < u.n.key);
      } else {
        Product(Potential(u), Potential(u), 1, w + 1);
      }
      PowerMonotone(w, w + 1, 3, 3);
      Product(Power(w, 3), Power(w + 1, 3), w + 1, w + 1);
      Extend(Pow2(Turns(t, k)), Potential(u), Potential(v), w + 1, Potential(t), Power(w, 3), Power(w + 1, 4));
    }
  }

  lemma {:induction false} RemovePays(t: Tree, k: int)
    ensures Weight(After(t, Remove(k))) <= Weight(t)
    ensures Pow2(Cost(t, Remove(k))) * Potential(After(t, Remove(k))) <= Potential(t) * Power(Weight(t), 6)
  {
    var w, u := Weight(t), Splayed(t, Key(k));
    SplayPays(t, Key(k));
    PowerSum(w, 3, 3);
    PowerMonotone(w, w, 3, 6);
    if t.Leaf? || u.n.key != k {
      Extend(Pow2(Turns(t, Key(k))), Potential(u), Potential(u), 1, Potential(t), Power(w, 3), Power(w, 6));
    } else {
      var d, e, r := Turns(t, Key(k)), Turns(u.l, Key(k)), WithoutRoot(u, k);
      WithoutRootPays(u, k);
      Pow2Sum(d, e);
      hide Power, Potential, Pow2, Weight;
      Chain(Pow2(d), Pow2(e), Potential(r), Potential(u), Power(w, 3), Potential(t), Power(w, 3));
    }
  }

  lemma {:induction false} WithoutRootPays(u: Tree, k: int)
    requires u.Bin?
    ensures Weight(WithoutRoot(u, k)) <= Weight(u)
    ensures Pow2(Turns(u.l, Key(k))) * Potential(WithoutRoot(u, k)) <= Potential(u) * Power(Weight(u), 3)
  {
    var w, l, r := Weight(u), u.l, WithoutRoot(u, k);
    SplayPays(l, Key(k));
    Opened(u);
    PowerMonotone(Weight(l), w, 3, 3);
    if l.Leaf? {
      assert Pow2(Turns(l, Key(k))) == 1 == Potential(l);
      hide Power, Potential, Pow2, Weight;
      RightAlone(Potential(r), w, Power(w, 3));
    } else {
      var v := Splayed(l, Key(k));
      Opened(v);
      Opened(r);
      hide Power, Potential, Pow2, Weight;
      HungPays(Pow2(Turns(l, Key(k))), Potential(v.l), Potential(v.r), Weight(v), Potential(u.r), Weight(r), w, Potential(l),
               Power(Weight(l), 3), Power(w, 3));
    }
  }

  lemma {:induction false} RightAlone(pr: nat, w: nat, q: nat)
    requires 1 <= w && 1 <= q
    ensures 1 * pr <= 1 * pr * w * q
  {
    Product(1, w, 1, q);
    Product(pr, pr, 1, w * q);
  }

  // The new root loses its right subtree and takes another one instead.
  lemma {:induction false} HungPays(e: nat, pl: nat, pr: nat, a: nat, pc: nat, m: nat, w: nat, pt: nat, q: nat, q': nat)
    requires e * (pl * pr * a) <= pt * q && 1 <= pr && 1 <= a && m <= w && q <= q'
    ensures e * (pl * pc * m) <= pt * pc * w * q'
  {
    Product(1, pr, 1, a);
    Product(pl, pl, 1, pr * a);
    Product(pl, pl * pr * a, pc * m, pc * w) by { Product(pc, pc, m, w); }
    Product(q, q', pc * w, pc * w);
    Extend(e, pl * pr * a, pl * pc * m, pc * w, pt, q, q' * (pc * w)) by { assert pl * pc * m == pl * (pc * m); }
    assert pt * (q' * (pc * w)) == pt * pc * w * q';
  }

  lemma {:induction false} CallPays(t: Tree, c: Call, m: nat)
    requires Weight(t) + (if c.Insert? then 1 else 0) <= m
    ensures Weight(After(t, c)) <= Weight(t) + if c.Insert? then 1 else 0
    ensures Pow2(Cost(t, c)) * Potential(After(t, c)) <= Potential(t) * Power(m, Allowance(c))
  {
    hide Power, Pow2, Potential;
    var w := Weight(t) + if c.Insert? then 1 else 0;
    match c {
      case Access(p) => SplayPays(t, p);
      case Next(n) => SplayPays(t, Key(n.key));
      case Insert(n) => InsertPays(t, n);
      case Remove(k) => RemovePays(t, k);
    }
    PowerMonotone(w, m, Allowance(c), Allowance(c));
    Product(Potential(t), Potential(t), Power(w, Allowance(c)), Power(m, Allowance(c)));
  }

  // ---- a run of calls

  lemma {:induction false} RunPays(t: Tree, calls: seq<Call>, m: nat)
    requires Weight(t) + Inserts(calls) <= m
    ensures Pow2(Total(t, calls)) * Potential(Run(t, calls)) <= Potential(t) * Power(m, Budget(calls))
    decreases |calls|
  {
    if calls == [] {
      assert Power(m, Budget(calls)) == 1 == Pow2(Total(t, calls)) && Run(t, calls) == t;
    } else {
      var c, rest := calls[0], calls[1..];
      var u := After(t, c);
      assert Total(t, calls) == Cost(t, c) + Total(u, rest) && Run(t, calls) == Run(u, rest);
      assert Budget(calls) == Allowance(c) + Budget(rest);
      hide Power, Pow2, Potential, Weight, After, Cost, Total, Run, Budget, Allowance;
      CallPays(t, c, m);
      RunPays(u, rest, m);
      Pow2Sum(Cost(t, c), Total(u, rest));
      PowerSum(m, Allowance(c), Budget(rest));
      Chain(Pow2(Cost(t, c)), Pow2(Total(u, rest)), Potential(Run(u, rest)), Potential(u), Power(m, Budget(rest)),
            Potential(t), Power(m, Allowance(c)));
    }
  }

  lemma {:induction false} BudgetBound(calls: seq<Call>)
    ensures Budget(calls) <= 6 * |calls|
    ensures (forall c | c in calls :: Looks(c)) ==> Budget(calls) == 3 * |calls| && Inserts(calls) == 0
  {
    if calls != [] {
      BudgetBound(calls[1..]);
      assert calls[0] in calls;
      assert forall c :: c in calls[1..] ==> c in calls;
    }
  }

  lemma {:induction false} PotentialBound(t: Tree)
    ensures Potential(t) <= Power(Weight(t), Size(t))
  {
    if t.Bin? {
      var w := Weight(t);
      PotentialBound(t.l);
      PotentialBound(t.r);
      PowerMonotone(Weight(t.l), w, Size(t.l), Size(t.l));
      PowerMonotone(Weight(t.r), w, Size(t.r), Size(t.r));
      PowerSum(w, Size(t.l), Size(t.r));
      Opened(t);
      assert Power(w, Size(t)) == w * Power(w, Size(t.l) + Size(t.r));
      hide Power, Potential, Weight;
      Product(Potential(t.l), Power(w, Size(t.l)), Potential(t.r), Power(w, Size(t.r)));
      Product(Potential(t.l) * Potential(t.r), Power(w, Size(t.l)) * Power(w, Size(t.r)), w, w);
    }
  }

  // On an initially empty tree, all calls of a run, n insertions among them, take no
  // more turns than 6 lg (n + 1) for each call.
  lemma {:induction false} BalanceTheorem(calls: seq<Call>)
    ensures WithinLogs(Total(Leaf, calls), 6 * |calls|, Inserts(calls))
  {
    var m := 1 + Inserts(calls);
    RunPays(Leaf, calls, m);
    BudgetBound(calls);
    PowerMonotone(m, m, Budget(calls), 6 * |calls|);
    Product(Pow2(Total(Leaf, calls)), Pow2(Total(Leaf, calls)), 1, Potential(Run(Leaf, calls)));
  }

  // On any tree of n elements, m calls that only look take no
  // more turns than (3 m + n) lg (n + 1).
  lemma {:induction false} AccessTheorem(t: Tree, calls: seq<Call>)
    requires forall c | c in calls :: Looks(c)
    ensures WithinLogs(Total(t, calls), 3 * |calls| + Size(t), Size(t))
  {
    var w := Weight(t);
    BudgetBound(calls);
    RunPays(t, calls, w);
    PotentialBound(t);
    PowerSum(w, Size(t), 3 * |calls|);
    hide Power, Pow2, Potential, Weight;
    Product(Pow2(Total(t, calls)), Pow2(Total(t, calls)), 1, Potential(Run(t, calls)));
    Product(Potential(t), Power(w, Size(t)), Power(w, 3 * |calls|), Power(w, 3 * |calls|));
  }
}
