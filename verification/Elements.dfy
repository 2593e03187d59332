// The elements the trees of include/tree.h hold, and sequences of them in key order.
module Elements {

  // An element with intrusive tree fields: all four make up an RB_ENTRY, left and
  // right alone a SPLAY_ENTRY.  The key stands for whatever the user's comparison
  // function reads; no tree operation writes it.
  class Node {
    const key: int
    var left: Node?
    var right: Node?
    var parent: Node?
    var red: bool

    constructor (key: int)
      ensures this.key == key
    {
      this.key := key;
      left, right, parent, red := null, null, null, false;
    }
  }

  // The user's comparison function.
  function Cmp(a: Node, b: Node): int {
    if a.key < b.key then -1 else if a.key > b.key then 1 else 0
  }

  ghost predicate Ordered(s: seq<Node>) {
    forall i, j :: 0 <= i < j < |s| ==> s[i].key < s[j].key
  }

  ghost predicate AllBelow(s: seq<Node>, k: int) {
    forall i :: 0 <= i < |s| ==> s[i].key < k
  }

  ghost predicate AllAbove(s: seq<Node>, k: int) {
    forall i :: 0 <= i < |s| ==> k < s[i].key
  }

  lemma {:induction false} AllConcat(a: seq<Node>, b: seq<Node>, k: int)
    ensures AllBelow(a + b, k) <==> AllBelow(a, k) && AllBelow(b, k)
    ensures AllAbove(a + b, k) <==> AllAbove(a, k) && AllAbove(b, k)
  {
    forall i | 0 <= i < |b| ensures (a + b)[|a| + i] == b[i] {}
    forall i | 0 <= i < |a| ensures (a + b)[i] == a[i] {}
  }

  // What lies before and after the node n of an ordered sequence.
  lemma {:induction false} OrderedAround(a: seq<Node>, n: Node, b: seq<Node>)
    ensures Ordered(a + [n] + b) <==> Ordered(a) && Ordered(b) && AllBelow(a, n.key) && AllAbove(b, n.key)
  {
    var s := a + [n] + b;
    assert forall i :: 0 <= i < |a| ==> s[i] == a[i];
    assert s[|a|] == n;
    assert forall i :: |a| < i < |s| ==> s[i] == b[i - |a| - 1];
    if Ordered(s) {
      forall i, j | 0 <= i < j < |b| ensures b[i].key < b[j].key {
        assert s[|a| + 1 + i].key < s[|a| + 1 + j].key;
      }
      forall i | 0 <= i < |b| ensures n.key < b[i].key {
        assert s[|a|].key < s[|a| + 1 + i].key;
      }
    }
  }

  lemma {:induction false} IndexOf(a: seq<Node>, n: Node, b: seq<Node>, i: nat)
    requires Ordered(a + [n] + b) && i < |a + [n] + b| && (a + [n] + b)[i] == n
    ensures i == |a|
  {
    assert (a + [n] + b)[|a|] == n;
  }

  // The contents with n put in at its place, and with n taken out.
  ghost function With(s: seq<Node>, n: Node): seq<Node> {
    if s == [] || n.key < s[0].key then [n] + s else [s[0]] + With(s[1..], n)
  }

  ghost function Without(s: seq<Node>, n: Node): seq<Node> {
    if s == [] then [] else if s[0] == n then s[1..] else [s[0]] + Without(s[1..], n)
  }

  lemma {:induction false} WithBetween(a: seq<Node>, n: Node, b: seq<Node>)
    requires AllBelow(a, n.key) && AllAbove(b, n.key)
    ensures With(a + b, n) == a + [n] + b
  {
    if a == [] {
      assert a + b == b;
    } else {
      assert (a + b)[1..] == a[1..] + b;
      WithBetween(a[1..], n, b);
    }
  }

  lemma {:induction false} OrderedWith(a: seq<Node>, n: Node, b: seq<Node>)
    requires Ordered(a + b) && AllBelow(a, n.key) && AllAbove(b, n.key)
    ensures Ordered(a + [n] + b)
    ensures forall m | m in a + b :: m.key != n.key
  {
    assert forall i :: 0 <= i < |a| ==> (a + b)[i] == a[i];
    forall i, j | 0 <= i < j < |b| ensures b[i].key < b[j].key {
      assert (a + b)[|a| + i].key < (a + b)[|a| + j].key;
    }
    OrderedAround(a, n, b);
  }

  lemma {:induction false} WithoutBetween(a: seq<Node>, n: Node, b: seq<Node>)
    requires n !in a
    ensures Without(a + [n] + b, n) == a + b
  {
    if a == [] {
      assert a + [n] + b == [n] + b && a + b == b;
    } else {
      assert (a + [n] + b)[1..] == a[1..] + [n] + b;
      WithoutBetween(a[1..], n, b);
    }
  }

  lemma {:induction false} WithoutOrdered(s: seq<Node>, n: Node)
    requires Ordered(s)
    ensures Ordered(Without(s, n))
    ensures forall m :: m in Without(s, n) ==> m in s
  {
    if s != [] && s[0] != n {
      WithoutOrdered(s[1..], n);
      assert [s[0]] + Without(s[1..], n) == [] + [s[0]] + Without(s[1..], n);
      forall i | 0 <= i < |Without(s[1..], n)| ensures s[0].key < Without(s[1..], n)[i].key {
        assert Without(s[1..], n)[i] in s[1..];
      }
      OrderedAround([], s[0], Without(s[1..], n));
    }
  }

  // Nothing else is gained or lost.
  lemma {:induction false} WithMembers(s: seq<Node>, n: Node)
    ensures multiset(With(s, n)) == multiset(s) + multiset{n}
  {
    if s == [] || n.key < s[0].key {
      assert multiset([n] + s) == multiset([n]) + multiset(s);
    } else {
      WithMembers(s[1..], n);
      assert s == [s[0]] + s[1..];
    }
  }

  lemma {:induction false} WithoutMembers(s: seq<Node>, n: Node)
    ensures multiset(Without(s, n)) == multiset(s) - multiset{n}
  {
    if s != [] {
      assert s == [s[0]] + s[1..];
      if s[0] != n { WithoutMembers(s[1..], n); }
    }
  }

  // ---- concatenation

  lemma {:induction false} Reassociate<T>(a: seq<T>, b: seq<T>, c: seq<T>, d: seq<T>, e: seq<T>)
    ensures a + (b + c + d) + e == a + b + (c + d + e)
    ensures a + (b + c + d) + e == (a + b + c) + d + e
    ensures a + (b + c + d) + e == (a + b) + c + (d + e)
  {
  }

  lemma {:induction false} Regroup<T>(a: seq<T>, b: seq<T>, c: seq<T>, d: seq<T>, e: seq<T>)
    ensures a + (b + c + d) + e == (a + b) + ((c + d) + e)
  {
  }
}
