// SPLAY_NEXT (include/tree.h:138-149) walks on from the node it splays, and the walk
// moves nothing.  Where the next splay pays for the walk, as in SPLAY_FOREACH, and
// how far the cost goes beyond the Balance Theorem where it does not.
module SplayScan {
  import opened Elements
  import opened Logarithms
  import opened SplayShape
  import opened SplayLinks
  import opened SplayCost
  import opened SplayBalance

  // How many nodes SPLAY_NEXT walks along, after its splay, to the first element of
  // the right subtree.  The walk splays nothing.
  ghost function Spine(t: Tree): nat {
    if t.Leaf? then 0 else 1 + Spine(t.l)
  }

  ghost function Walk(t: Tree, c: Call): nat {
    var u := After(t, c);
    if c.Next? && u.Bin? then Spine(u.r) else 0
  }

  // Turns and walks of a run.
  ghost function Spent(t: Tree, calls: seq<Call>): nat
    decreases |calls|
  {
    if calls == [] then 0
    else Cost(t, calls[0]) + Walk(t, calls[0]) + Spent(After(t, calls[0]), calls[1..])
  }

  ghost function LastWalk(t: Tree, calls: seq<Call>): nat
    decreases |calls|
  {
    if calls == [] then 0
    else if |calls| == 1 then Walk(t, calls[0])
    else LastWalk(After(t, calls[0]), calls[1..])
  }

  // A call for a key.
  ghost predicate Seeks(c: Call, k: int) {
    match c
    case Access(p) => p == Key(k)
    case Next(n) => n.key == k
    case Insert(n) => n.key == k
    case Remove(x) => x == k
  }

  // Each element that SPLAY_NEXT returned is what the next call is for.
  ghost predicate Followed(t: Tree, calls: seq<Call>)
    decreases |calls|
  {
    calls != [] ==>
      var u := After(t, calls[0]);
      && (calls[0].Next? && u.Bin? && u.r.Bin? && |calls| > 1 ==> Seeks(calls[1], Inorder(u.r)[0].key))
      && Followed(u, calls[1..])
  }

  // ---- what the loop does to the order

  lemma {:induction false} PartitionSeq(t: Tree, p: Probe)
    requires t.Bin?
    ensures var q := Partition(t, p); Inorder(q.small) + [q.n] + Inorder(q.big) == Inorder(t)
  {
    var q := Partition(t, p);
    if Compare(p, t.n) < 0 && t.l.Bin? {
      if Compare(p, t.l.n) >= 0 {
        PartitionSeq(t.l, p);
        var r := Partition(t.l, p);
        Append3(Inorder(r.small), [r.n], Inorder(r.big), [t.n], Inorder(t.r));
      } else {
        RotationSeq(t.l.l, t.l.n, t.l.r, t.n, t.r);
        if t.l.l.Bin? {
          PartitionSeq(t.l.l, p);
          var r := Partition(t.l.l, p);
          Append3(Inorder(r.small), [r.n], Inorder(r.big), [t.l.n], Inorder(Bin(t.l.r, t.n, t.r)));
        }
      }
    } else if Compare(p, t.n) > 0 && t.r.Bin? {
      if Compare(p, t.r.n) <= 0 {
        PartitionSeq(t.r, p);
        var r := Partition(t.r, p);
        Append3(Inorder(t.l), [t.n], Inorder(r.small), [r.n], Inorder(r.big));
      } else {
        RotationSeq(t.l, t.n, t.r.l, t.r.n, t.r.r);
        if t.r.r.Bin? {
          PartitionSeq(t.r.r, p);
          var r := Partition(t.r.r, p);
          Append3(Inorder(Bin(t.l, t.n, t.r.l)), [t.r.n], Inorder(r.small), [r.n], Inorder(r.big));
        }
      }
    }
  }

  lemma {:induction false} Append3<T>(a: seq<T>, b: seq<T>, c: seq<T>, d: seq<T>, e: seq<T>)
    ensures (a + b + c) + d + e == a + b + (c + d + e)
  {
  }

  lemma {:induction false} Sides(t: Tree)
    requires t.Bin? && Ordered(Inorder(t))
    ensures Ordered(Inorder(t.l)) && Ordered(Inorder(t.r))
    ensures AllBelow(Inorder(t.l), t.n.key) && AllAbove(Inorder(t.r), t.n.key)
  {
    OrderedAround(Inorder(t.l), t.n, Inorder(t.r));
  }

  lemma {:induction false} Over(l: Tree, n: Node, r: Tree, k: int)
    ensures AllAbove(Inorder(Bin(l, n, r)), k) <==> AllAbove(Inorder(l), k) && k < n.key && AllAbove(Inorder(r), k)
    ensures AllBelow(Inorder(Bin(l, n, r)), k) <==> AllBelow(Inorder(l), k) && n.key < k && AllBelow(Inorder(r), k)
  {
    AllConcat(Inorder(l), [n], k);
    AllConcat(Inorder(l) + [n], Inorder(r), k);
    assert [n][0] == n;
  }

  // The key lies between the parts.
  lemma {:induction false} PartitionSplits(t: Tree, k: int)
    requires t.Bin? && Ordered(Inorder(t))
    ensures var q := Partition(t, Key(k)); AllBelow(Inorder(q.small), k) && AllAbove(Inorder(q.big), k)
    decreases t, 1
  {
    Sides(t);
    if k < t.n.key {
      SplitsLeft(t, k);
    } else if t.n.key < k {
      SplitsRight(t, k);
    }
  }

  lemma {:induction false} SplitsLeft(t: Tree, k: int)
    requires t.Bin? && Ordered(Inorder(t)) && k < t.n.key
    ensures var q := Partition(t, Key(k)); AllBelow(Inorder(q.small), k) && AllAbove(Inorder(q.big), k)
    decreases t, 0
  {
    Sides(t);
    var p := Key(k);
    if t.l.Bin? {
      Sides(t.l);
      if k >= t.l.n.key {
        PartitionSplits(t.l, k);
        Over(Partition(t.l, p).big, t.n, t.r, k);
      } else {
        var larger := Bin(t.l.r, t.n, t.r);
        Over(t.l.r, t.n, t.r, k);
        if t.l.l.Bin? {
          PartitionSplits(t.l.l, k);
          Over(Partition(t.l.l, p).big, t.l.n, larger, k);
        }
      }
    }
  }

  lemma {:induction false} SplitsRight(t: Tree, k: int)
    requires t.Bin? && Ordered(Inorder(t)) && t.n.key < k
    ensures var q := Partition(t, Key(k)); AllBelow(Inorder(q.small), k) && AllAbove(Inorder(q.big), k)
    decreases t, 0
  {
    Sides(t);
    var p := Key(k);
    if t.r.Bin? {
      Sides(t.r);
      if k <= t.r.n.key {
        PartitionSplits(t.r, k);
        Over(t.l, t.n, Partition(t.r, p).small, k);
      } else {
        var smaller := Bin(t.l, t.n, t.r.l);
        Over(t.l, t.n, t.r.l, k);
        if t.r.r.Bin? {
          PartitionSplits(t.r.r, k);
          Over(smaller, t.r.n, Partition(t.r.r, p).small, k);
        }
      }
    }
  }

  lemma {:induction false} SplayedSeq(t: Tree, p: Probe)
    ensures Inorder(Splayed(t, p)) == Inorder(t)
  {
    if t.Bin? { PartitionSeq(t, p); }
  }

  lemma {:induction false} SplayedSplits(t: Tree, k: int)
    requires t.Bin? && Ordered(Inorder(t))
    ensures var u := Splayed(t, Key(k)); u.Bin? && AllBelow(Inorder(u.l), k) && AllAbove(Inorder(u.r), k)
  {
    PartitionSplits(t, k);
  }

  // Every call leaves the tree in order.
  lemma {:induction false} StaysOrdered(t: Tree, c: Call)
    requires Ordered(Inorder(t))
    ensures Ordered(Inorder(After(t, c)))
  {
    match c
    case Access(p) => SplayedSeq(t, p);
    case Next(n) => SplayedSeq(t, Key(n.key));
    case Insert(n) =>
      if t.Bin? {
        var u := Splayed(t, Key(n.key));
        SplayedSeq(t, Key(n.key));
        SplayedSplits(t, n.key);
        if n.key != u.n.key { NewRootSeq(u, n, n.key < u.n.key); }
      }
    case Remove(k) =>
      if t.Bin? {
        var u := Splayed(t, Key(k));
        SplayedSeq(t, Key(k));
        SplayedSplits(t, k);
        if u.n.key == k { StaysOrderedWithout(u, k); }
      }
  }

  lemma {:induction false} StaysOrderedWithout(u: Tree, k: int)
    requires u.Bin? && Ordered(Inorder(u)) && u.n.key == k && AllBelow(Inorder(u.l), k)
    ensures Ordered(Inorder(WithoutRoot(u, k)))
  {
    DropRootSeq(u);
    if u.l.Bin? {
      var v := Splayed(u.l, Key(k));
      SplayedSeq(u.l, Key(k));
      SplayedSplits(u.l, k);
      OnlySmaller(u.l, v, k);
      HangSeq(v, u.r);
    }
  }

  // ---- the next splay pays for the walk

  // The first element is half as deep as splaying for it turns.
  lemma {:induction false} FirstPays(t: Tree)
    requires t.Bin? && Ordered(Inorder(t))
    ensures Spine(t) <= 2 * Partition(t, Key(Inorder(t)[0].key)).turns + 1
  {
    var y := Inorder(t)[0];
    Sides(t);
    if t.l.Bin? {
      assert Inorder(t.l)[0] == y;
      Sides(t.l);
      assert y.key < t.n.key;
      if t.l.l.Bin? {
        assert Inorder(t.l.l)[0] == y;
        assert y.key < t.l.n.key;
        FirstPays(t.l.l);
      } else {
        assert Inorder(t.l)[0] == t.l.n;
        assert Partition(t.l, Key(y.key)).turns == 0 && Spine(t.l) == 1;
      }
    } else {
      assert y == t.n;
    }
  }

  lemma {:induction false} WalkPays(t: Tree)
    requires t.Bin? && t.r.Bin? && Ordered(Inorder(t))
    ensures Spine(t.r) <= 2 * Turns(t, Key(Inorder(t.r)[0].key))
  {
    var y := Inorder(t.r)[0];
    Sides(t);
    Sides(t.r);
    FirstPays(t.r);
    Over(t.r.l, t.r.n, t.r.r, t.n.key);
    assert y in Inorder(t.r);
    if t.r.l.Bin? {
      assert Inorder(t.r.l)[0] == y;
    } else {
      assert y == t.r.n;
    }
  }

  lemma {:induction false} CostSeeks(t: Tree, c: Call, k: int)
    requires Seeks(c, k)
    ensures Turns(t, Key(k)) <= Cost(t, c)
  {
  }

  // Where each element returned is what the next call is for, all walks but the last
  // take no more than twice the turns.
  lemma {:induction false} FollowedPays(t: Tree, calls: seq<Call>)
    requires Ordered(Inorder(t)) && Followed(t, calls)
    ensures Spent(t, calls) <= 3 * Total(t, calls) + LastWalk(t, calls)
    ensures calls != [] ==> Spent(t, calls) + 2 * Cost(t, calls[0]) <= 3 * Total(t, calls) + LastWalk(t, calls)
    decreases |calls|
  {
    hide After, Cost, Walk;
    if calls != [] {
      var c, rest := calls[0], calls[1..];
      var u := After(t, c);
      StaysOrdered(t, c);
      FollowedPays(u, rest);
      if rest != [] {
        StepPays(t, c, rest[0]);
      } else {
        assert Spent(u, rest) == 0 == Total(u, rest);
      }
    }
  }

  lemma {:induction false} StepPays(t: Tree, c: Call, d: Call)
    requires Ordered(Inorder(t))
    requires var u := After(t, c); c.Next? && u.Bin? && u.r.Bin? ==> Seeks(d, Inorder(u.r)[0].key)
    ensures Walk(t, c) <= 2 * Cost(After(t, c), d)
  {
    var u := After(t, c);
    StaysOrdered(t, c);
    if c.Next? && u.Bin? && u.r.Bin? {
      WalkPays(u);
      CostSeeks(u, d, Inorder(u.r)[0].key);
    }
  }

  lemma {:induction false} Threefold(turns: nat, spent: nat, c: nat, n: nat)
    requires WithinLogs(turns, c, n) && spent <= 3 * turns
    ensures WithinLogs(spent, 3 * c, n)
  {
    var m := n + 1;
    Pow2Monotone(spent, 3 * turns);
    Pow2Sum(turns, 2 * turns);
    Pow2Sum(turns, turns);
    PowerSum(m, c, 2 * c);
    PowerSum(m, c, c);
    hide Pow2, Power;
    Product(Pow2(turns), Power(m, c), Pow2(turns), Power(m, c));
    Product(Pow2(turns), Power(m, c), Pow2(2 * turns), Power(m, 2 * c));
  }

  // The Balance Theorem with all that SPLAY_NEXT does, its last walk aside.
  lemma {:induction false} BalanceOfNext(calls: seq<Call>)
    requires Followed(Leaf, calls)
    ensures LastWalk(Leaf, calls) <= Spent(Leaf, calls)
    ensures WithinLogs(Spent(Leaf, calls) - LastWalk(Leaf, calls), 18 * |calls|, Inserts(calls))
  {
    FollowedPays(Leaf, calls);
    BalanceTheorem(calls);
    LastIsSpent(Leaf, calls);
    Threefold(Total(Leaf, calls), Spent(Leaf, calls) - LastWalk(Leaf, calls), 6 * |calls|, Inserts(calls));
  }

  lemma {:induction false} LastIsSpent(t: Tree, calls: seq<Call>)
    ensures LastWalk(t, calls) <= Spent(t, calls)
    decreases |calls|
  {
    if |calls| > 1 { LastIsSpent(After(t, calls[0]), calls[1..]); }
  }

  // ---- SPLAY_FOREACH (include/tree.h:282-284)

  ghost function Nexts(ns: seq<Node>): seq<Call> {
    if ns == [] then [] else [Next(ns[0])] + Nexts(ns[1..])
  }

  // The calls that visit all elements of a tree.
  ghost function Scan(t: Tree): seq<Call> { [Access(First)] + Nexts(Inorder(t)) }

  lemma {:induction false} ScanStarts(t: Tree)
    ensures var c := Access(First);
      && Spent(t, Scan(t)) == Cost(t, c) + Spent(After(t, c), Nexts(Inorder(t)))
      && (t.Leaf? ==> Cost(t, c) == 0 && After(t, c) == t)
  {
    assert Scan(t)[0] == Access(First) && Scan(t)[1..] == Nexts(Inorder(t));
  }

  lemma {:induction false} ScanGoesOn(t: Tree, ns: seq<Node>)
    requires ns != []
    ensures var c := Next(ns[0]);
      Spent(t, Nexts(ns)) == Cost(t, c) + Walk(t, c) + Spent(After(t, c), Nexts(ns[1..]))
  {
    assert Nexts(ns)[1..] == Nexts(ns[1..]);
  }

  lemma {:induction false} ScanEnds(t: Tree)
    ensures Spent(t, Nexts([])) == 0
  {
  }

  lemma {:induction false} NextsFollowed(t: Tree, i: nat)
    requires Ordered(Inorder(t)) && i <= |Inorder(t)|
    ensures Followed(t, Nexts(Inorder(t)[i..])) && LastWalk(t, Nexts(Inorder(t)[i..])) == 0
    ensures |Nexts(Inorder(t)[i..])| == |Inorder(t)| - i && forall c | c in Nexts(Inorder(t)[i..]) :: Looks(c)
    decreases |Inorder(t)| - i
  {
    var s := Inorder(t);
    if i < |s| {
      var n, rest := s[i], s[i + 1..];
      var u := After(t, Next(n));
      assert t.Bin? && s[i..][1..] == rest;
      SplayedSeq(t, Key(n.key));
      SplayedSplits(t, n.key);
      RootIs(u, n, i);
      NextsFollowed(u, i + 1);
      assert Nexts(s[i..])[1..] == Nexts(rest);
      if u.r.Bin? { assert rest[0] == Inorder(u.r)[0]; }
    }
  }

  lemma {:induction false} ScanFollowed(t: Tree)
    requires Ordered(Inorder(t))
    ensures Followed(t, Scan(t)) && LastWalk(t, Scan(t)) == 0
    ensures |Scan(t)| == Size(t) + 1 && forall c | c in Scan(t) :: Looks(c)
  {
    var u := Splayed(t, First);
    SplayedSeq(t, First);
    NextsFollowed(u, 0);
    SizeIs(t);
    assert Inorder(u)[0..] == Inorder(t);
    assert Scan(t)[0] == Access(First) && Scan(t)[1..] == Nexts(Inorder(t));
  }

  // All walks of a traversal together are paid for by its splays.
  lemma {:induction false} ScanPays(t: Tree)
    requires Ordered(Inorder(t))
    ensures WithinLogs(Spent(t, Scan(t)), 12 * Size(t) + 9, Size(t))
  {
    hide Followed, LastWalk, Spent, Total, Scan, WithinLogs, Looks, Ordered;
    ScanFollowed(t);
    FollowedPays(t, Scan(t));
    AccessTheorem(t, Scan(t));
    Threefold(Total(t, Scan(t)), Spent(t, Scan(t)), 3 * |Scan(t)| + Size(t), Size(t));
  }

  lemma {:induction false} SizeIs(t: Tree)
    ensures Size(t) == |Inorder(t)|
  {
    if t.Bin? {
      SizeIs(t.l);
      SizeIs(t.r);
    }
  }

  // ---- the same call again and again

ghost function InOrder(ns: seq<Node>): seq<Call> {
    if ns == [] then [] else [Insert(ns[0])] + InOrder(ns[1..])
  }

  ghost function LeftChain(ns: seq<Node>): Tree {
    if ns == [] then Leaf else Bin(LeftChain(ns[..|ns| - 1]), ns[|ns| - 1], Leaf)
  }

  lemma {:induction false} ChainOf(ns: seq<Node>)
    requires ns != []
    ensures LeftChain([]) == Leaf && LeftChain(ns).Bin?
  {
  }

  // Elements inserted in key order make a chain of left pointers.
  lemma {:induction false} InsertedInOrder(a: seq<Node>, b: seq<Node>, last: Call)
    requires Ordered(a + b)
    ensures Run(LeftChain(a), InOrder(b) + [last]) == After(LeftChain(a + b), last)
    decreases |b|
  {
    var calls := InOrder(b) + [last];
    if b == [] {
      assert a + b == a && calls == [last] && calls[1..] == [];
      assert Run(After(LeftChain(a), last), calls[1..]) == After(LeftChain(a), last);
    } else {
      var n, a' := b[0], a + [b[0]];
      assert calls[0] == Insert(n) && calls[1..] == InOrder(b[1..]) + [last];
      assert a' + b[1..] == a + b && a'[..|a|] == a;
      assert After(LeftChain(a), Insert(n)) == LeftChain(a') by {
        if a != [] { assert (a + b)[|a| - 1].key < (a + b)[|a|].key; }
      }
      InsertedInOrder(a', b[1..], last);
    }
  }

  // Splaying for the first of them leaves half of them on one spine.
  lemma {:induction false} HalfASpine(ns: seq<Node>)
    requires Ordered(ns) && ns != []
    ensures var q := Partition(LeftChain(ns), Key(ns[0].key));
      q.small == Leaf && q.n == ns[0] && Spine(q.big) == |ns| / 2
    ensures Splayed(LeftChain(ns), Key(ns[0].key)) == Bin(Leaf, ns[0], Partition(LeftChain(ns), Key(ns[0].key)).big)
    decreases |ns|
  {
    var m := |ns|;
    var t := LeftChain(ns);
    if m > 1 {
      var rest := ns[..m - 1];
      assert t.l == LeftChain(rest) && t.l.n == ns[m - 2] && ns[0].key < t.n.key;
      if m == 2 {
        assert rest[..0] == [] && rest[0] == ns[0];
        assert LeftChain(rest) == Bin(LeftChain([]), ns[0], Leaf);
        assert Partition(t.l, Key(ns[0].key)) == Parts(Leaf, ns[0], Leaf, 0);
      } else {
        assert rest[..m - 2] == ns[..m - 2];
        HalfASpine(ns[..m - 2]);
      }
    }
  }

  lemma {:induction false} AtRoot(t: Tree, p: Probe)
    requires t.Bin? && Compare(p, t.n) == 0
    ensures Splayed(t, p) == t && Turns(t, p) == 0
  {
  }

  // After these calls SPLAY_NEXT of the first element walks along half the elements
  // and leaves the tree as it is, so every further one walks as far.
  lemma {:induction false} NextWalks(ns: seq<Node>)
    requires Ordered(ns) && ns != []
    ensures var first := Access(Key(ns[0].key));
      var t := Run(Leaf, InOrder(ns) + [first]);
      t.Bin? && t.n == ns[0] && After(t, first) == t && Cost(t, first) == 0 && Spine(t.r) == |ns| / 2
  {
    var p := Key(ns[0].key);
    hide LeftChain, Partition, Run, InOrder, Spine, Splayed, Turns, Ordered;
    ChainOf(ns);
    assert [] + ns == ns;
    InsertedInOrder([], ns, Access(p));
    HalfASpine(ns);
    AtRoot(Splayed(LeftChain(ns), p), p);
  }

  ghost function Again(c: Call, j: nat): seq<Call> {
    if j == 0 then [] else [c] + Again(c, j - 1)
  }

  lemma {:induction false} SpentConcat(t: Tree, a: seq<Call>, b: seq<Call>)
    ensures Spent(t, a + b) == Spent(t, a) + Spent(Run(t, a), b)
    ensures Inserts(a + b) == Inserts(a) + Inserts(b)
    decreases |a|
  {
    if a == [] {
      assert a + b == b;
    } else {
      assert (a + b)[0] == a[0] && (a + b)[1..] == a[1..] + b;
      SpentConcat(After(t, a[0]), a[1..], b);
    }
  }

  lemma {:induction false} SpentAgain(t: Tree, c: Call, j: nat)
    requires After(t, c) == t && !c.Insert?
    ensures Spent(t, Again(c, j)) == j * (Cost(t, c) + Walk(t, c))
    ensures |Again(c, j)| == j && Inserts(Again(c, j)) == 0
  {
    if j > 0 {
      SpentAgain(t, c, j - 1);
      assert Again(c, j)[1..] == Again(c, j - 1);
      assert j * (Cost(t, c) + Walk(t, c)) == (Cost(t, c) + Walk(t, c)) + (j - 1) * (Cost(t, c) + Walk(t, c));
    }
  }

  lemma {:induction false} InOrderInserts(ns: seq<Node>)
    ensures |InOrder(ns)| == |ns| == Inserts(InOrder(ns))
  {
    if ns != [] {
      InOrderInserts(ns[1..]);
      assert InOrder(ns)[1..] == InOrder(ns[1..]);
    }
  }

  // Insertions in key order, a search for the first element, and its successor j times.
  ghost function Stuck(ns: seq<Node>, j: nat): seq<Call>
    requires ns != []
  {
    InOrder(ns) + [Access(Key(ns[0].key))] + Again(Next(ns[0]), j)
  }

  lemma {:induction false} StuckSpends(ns: seq<Node>, j: nat)
    requires Ordered(ns) && ns != []
    ensures Spent(Leaf, Stuck(ns, j)) >= j * (|ns| / 2)
    ensures |Stuck(ns, j)| == |ns| + 1 + j && Inserts(Stuck(ns, j)) == |ns|
  {
    hide Partition, Spine, Ordered, Splayed, Turns;
    var first := Access(Key(ns[0].key));
    var a := InOrder(ns) + [first];
    var t := Run(Leaf, a);
    NextWalks(ns);
    InOrderInserts(ns);
    SpentConcat(Leaf, InOrder(ns), [first]);
    assert [first][1..] == [];
    SpentAgain(t, Next(ns[0]), j);
    SpentConcat(Leaf, a, Again(Next(ns[0]), j));
  }

  lemma {:induction false} PowerOfTwo(i: nat, k: nat)
    ensures Power(Pow2(i), k) == Pow2(k * i)
  {
    if k > 0 {
      PowerOfTwo(i, k - 1);
      Pow2Sum(i, (k - 1) * i);
      assert k * i == i + (k - 1) * i;
    }
  }

  lemma {:induction false} Quadratic(c: nat)
    requires c >= 1
    ensures 2 * (c - 1) * (4 * (c - 1) + 8) + 1 == 8 * (c * c) - 7
    ensures 2 * c * (4 * c + 8) + 1 == 8 * (c * c) + 16 * c + 1 && c * c >= c
  {
    Product(1, c, c, c);
  }

  lemma {:induction false} Sixteen(m: nat)
    ensures Pow2(m + 4) == 16 * Pow2(m)
  {
    assert Pow2(m + 1) == 2 * Pow2(m) && Pow2(m + 2) == 2 * Pow2(m + 1) && Pow2(m + 3) == 2 * Pow2(m + 2);
  }

  lemma {:induction false} Outgrows(c: nat)
    ensures Pow2(4 * c + 7) > 2 * c * (4 * c + 8) + 1
  {
    if c == 0 {
      Pow2Monotone(1, 7);
    } else {
      Outgrows(c - 1);
      Sixteen(4 * (c - 1) + 7);
      Quadratic(c);
    }
  }

  lemma {:induction false} ManyWalks(m: nat, h: nat, c: nat, i: nat)
    requires h > 2 * c * i + 1
    ensures m * (h - 1) >= c * (2 * m) * i + m
  {
    Product(m, m, 2 * c * i + 1, h - 1);
    assert m * (2 * c * i + 1) == c * (2 * m) * i + m;
  }

  // No constant number of logarithms for each call is enough for such calls.
  lemma {:induction false} NoBalanceOfNext(c: nat, ns: seq<Node>)
    requires Ordered(ns) && |ns| + 1 == Pow2(4 * c + 8)
    ensures ns != [] && var calls := Stuck(ns, |ns| + 1);
      !WithinLogs(Spent(Leaf, calls), c * |calls|, Inserts(calls))
  {
    var i, m := 4 * c + 8, |ns| + 1;
    var h := Pow2(i - 1);
    Pow2Monotone(1, i);
    assert m == 2 * h && (m - 1) / 2 == h - 1;
    hide Pow2, Power, Stuck, Spent, Inserts, Ordered;
    StuckSpends(ns, m);
    Outgrows(c);
    ManyWalks(m, h, c, i);
    var k := c * (2 * m) * i;
    PowerOfTwo(i, c * (2 * m));
    StrictlyMore(k, Spent(Leaf, Stuck(ns, m)));
  }

  lemma {:induction false} StrictlyMore(k: nat, l: nat)
    requires k < l
    ensures Pow2(k) < Pow2(l)
  {
    Pow2Monotone(0, k);
    Pow2Monotone(k + 1, l);
  }
}
