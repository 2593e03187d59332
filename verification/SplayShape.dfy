// The values a splay tree stands for, and the three-part state of the top-down
// splay loop: the tree still being searched, and the two trees it takes apart,
// each kept as a spine to which the loop appends at the inner end.
module SplayShape {

  import opened Elements

  datatype Tree = Leaf | Bin(l: Tree, n: Node, r: Tree)

  // Subtrees smaller than the key, hanging leftwards from a chain of right pointers.
  datatype Smaller = NoSmaller | AddSmaller(init: Smaller, l: Tree, n: Node)

  // Subtrees larger than the key, hanging rightwards from a chain of left pointers.
  datatype Larger = NoLarger | AddLarger(init: Larger, n: Node, r: Tree)

  ghost function Root(t: Tree): Node? {
    if t.Leaf? then null else t.n
  }

  ghost function Nodes(t: Tree): set<Node> {
    if t.Leaf? then {} else Nodes(t.l) + {t.n} + Nodes(t.r)
  }

  ghost function SmallerNodes(s: Smaller): set<Node> {
    if s.NoSmaller? then {} else SmallerNodes(s.init) + Nodes(s.l) + {s.n}
  }

  ghost function LargerNodes(g: Larger): set<Node> {
    if g.NoLarger? then {} else LargerNodes(g.init) + {g.n} + Nodes(g.r)
  }

  ghost function Inorder(t: Tree): seq<Node> {
    if t.Leaf? then [] else Inorder(t.l) + [t.n] + Inorder(t.r)
  }

  ghost function SmallerSeq(s: Smaller): seq<Node> {
    if s.NoSmaller? then [] else SmallerSeq(s.init) + Inorder(s.l) + [s.n]
  }

  ghost function LargerSeq(g: Larger): seq<Node> {
    if g.NoLarger? then [] else [g.n] + Inorder(g.r) + LargerSeq(g.init)
  }

  lemma {:induction false} NodesInorder(t: Tree, n: Node)
    ensures n in Nodes(t) <==> n in Inorder(t)
  {
    if t.Bin? {
      NodesInorder(t.l, n);
      NodesInorder(t.r, n);
    }
  }

  // The tree a spine becomes when `inner` is hung from its open end.
  ghost function CloseSmaller(s: Smaller, inner: Tree): Tree {
    if s.NoSmaller? then inner else CloseSmaller(s.init, Bin(s.l, s.n, inner))
  }

  ghost function CloseLarger(g: Larger, inner: Tree): Tree {
    if g.NoLarger? then inner else CloseLarger(g.init, Bin(inner, g.n, g.r))
  }

  lemma {:induction false} Shift<T>(a: seq<T>, b: seq<T>, c: seq<T>, d: seq<T>)
    ensures (a + b + c) + d == a + (b + c + d)
  {
  }

  lemma {:induction false} CloseSmallerSeq(s: Smaller, inner: Tree)
    ensures Inorder(CloseSmaller(s, inner)) == SmallerSeq(s) + Inorder(inner)
    decreases s
  {
    if s.AddSmaller? {
      CloseSmallerSeq(s.init, Bin(s.l, s.n, inner));
      Shift(SmallerSeq(s.init), Inorder(s.l), [s.n], Inorder(inner));
    }
  }

  lemma {:induction false} CloseLargerSeq(g: Larger, inner: Tree)
    ensures Inorder(CloseLarger(g, inner)) == Inorder(inner) + LargerSeq(g)
    decreases g
  {
    if g.AddLarger? {
      CloseLargerSeq(g.init, Bin(inner, g.n, g.r));
      Shift(Inorder(inner), [g.n], Inorder(g.r), LargerSeq(g.init));
    }
  }

  // ---- order

  ghost function Whole(s: Smaller, t: Tree, g: Larger): seq<Node> {
    SmallerSeq(s) + Inorder(t) + LargerSeq(g)
  }

  // The spines lie on the two sides of the key k being splayed for.
  ghost predicate Split(s: Smaller, t: Tree, g: Larger, k: int) {
    Ordered(Whole(s, t, g)) && AllBelow(SmallerSeq(s), k) && AllAbove(LargerSeq(g), k)
  }

  lemma {:induction false} StartSplit(t: Tree, k: int)
    requires Ordered(Inorder(t))
    ensures Split(NoSmaller, t, NoLarger, k)
  {
    assert Whole(NoSmaller, t, NoLarger) == Inorder(t);
  }

  lemma {:induction false} WholeAt(s: Smaller, t: Tree, g: Larger)
    requires t.Bin?
    ensures Whole(s, t, g) == (SmallerSeq(s) + Inorder(t.l)) + [t.n] + (Inorder(t.r) + LargerSeq(g))
    ensures Ordered(Whole(s, t, g)) ==>
      && AllBelow(Inorder(t.l), t.n.key) && AllBelow(SmallerSeq(s), t.n.key)
      && AllAbove(Inorder(t.r), t.n.key) && AllAbove(LargerSeq(g), t.n.key)
  {
    Reassociate(SmallerSeq(s), Inorder(t.l), [t.n], Inorder(t.r), LargerSeq(g));
    OrderedAround(SmallerSeq(s) + Inorder(t.l), t.n, Inorder(t.r) + LargerSeq(g));
    AllConcat(SmallerSeq(s), Inorder(t.l), t.n.key);
    AllConcat(Inorder(t.r), LargerSeq(g), t.n.key);
  }

  lemma {:induction false} LinkWhole(s: Smaller, t: Tree, g: Larger)
    requires t.Bin?
    ensures Whole(s, t.l, AddLarger(g, t.n, t.r)) == Whole(s, t, g)
    ensures Whole(AddSmaller(s, t.l, t.n), t.r, g) == Whole(s, t, g)
  {
    Reassociate(SmallerSeq(s), Inorder(t.l), [t.n], Inorder(t.r), LargerSeq(g));
  }

  // Linking the root into the tree of larger nodes, and into that of smaller ones.
  lemma {:induction false} LinkLarger(s: Smaller, t: Tree, g: Larger, k: int)
    requires t.Bin? && Split(s, t, g, k) && k < t.n.key
    ensures Whole(s, t.l, AddLarger(g, t.n, t.r)) == Whole(s, t, g)
    ensures Split(s, t.l, AddLarger(g, t.n, t.r), k)
  {
    WholeAt(s, t, g);
    LinkWhole(s, t, g);
    AllConcat([t.n], Inorder(t.r), k);
    AllConcat([t.n] + Inorder(t.r), LargerSeq(g), k);
  }

  lemma {:induction false} LinkSmaller(s: Smaller, t: Tree, g: Larger, k: int)
    requires t.Bin? && Split(s, t, g, k) && t.n.key < k
    ensures Whole(AddSmaller(s, t.l, t.n), t.r, g) == Whole(s, t, g)
    ensures Split(AddSmaller(s, t.l, t.n), t.r, g, k)
  {
    WholeAt(s, t, g);
    LinkWhole(s, t, g);
    AllConcat(SmallerSeq(s), Inorder(t.l), k);
    AllConcat(SmallerSeq(s) + Inorder(t.l), [t.n], k);
  }

  lemma {:induction false} RotationSeq(a: Tree, x: Node, b: Tree, y: Node, c: Tree)
    ensures Inorder(Bin(Bin(a, x, b), y, c)) == Inorder(Bin(a, x, Bin(b, y, c)))
  {
    assert Inorder(Bin(Bin(a, x, b), y, c)) == (Inorder(a) + [x] + Inorder(b)) + [y] + Inorder(c);
    assert Inorder(Bin(a, x, Bin(b, y, c))) == Inorder(a) + [x] + (Inorder(b) + [y] + Inorder(c));
  }

  // SPLAY_ASSEMBLE: the two spines become the subtrees of the root.
  ghost function Assembled(s: Smaller, t: Tree, g: Larger): Tree
    requires t.Bin?
  {
    Bin(CloseSmaller(s, t.l), t.n, CloseLarger(g, t.r))
  }

  lemma {:induction false} AssembledSeq(s: Smaller, t: Tree, g: Larger)
    requires t.Bin?
    ensures Inorder(Assembled(s, t, g)) == Whole(s, t, g)
  {
    CloseSmallerSeq(s, t.l);
    CloseLargerSeq(g, t.r);
    WholeAt(s, t, g);
  }

  // Where the loop stops, k separates what is left of the root from what is right of it.
  lemma {:induction false} StopSplits(s: Smaller, t: Tree, g: Larger, k: int)
    requires t.Bin? && Split(s, t, g, k)
    requires k < t.n.key ==> t.l.Leaf?
    requires t.n.key < k ==> t.r.Leaf?
    ensures AllBelow(Inorder(CloseSmaller(s, t.l)), k) && AllAbove(Inorder(CloseLarger(g, t.r)), k)
  {
    WholeAt(s, t, g);
    CloseSmallerSeq(s, t.l);
    CloseLargerSeq(g, t.r);
    AllConcat(SmallerSeq(s), Inorder(t.l), k);
    AllConcat(Inorder(t.r), LargerSeq(g), k);
  }

  // With nothing on one side of it, the root is the first or the last element.
  lemma {:induction false} EndOfAssembled(s: Smaller, t: Tree, g: Larger)
    requires t.Bin?
    ensures Inorder(Assembled(s, t, g)) != []
    ensures s.NoSmaller? && t.l.Leaf? ==> Inorder(Assembled(s, t, g))[0] == t.n
    ensures g.NoLarger? && t.r.Leaf? ==> Inorder(Assembled(s, t, g))[|Inorder(Assembled(s, t, g))| - 1] == t.n
  {
  }

  // A new root above the old one, which keeps one of its subtrees.
  ghost function NewRootTree(t: Tree, n: Node, before: bool): Tree
    requires t.Bin?
  {
    if before then Bin(t.l, n, Bin(Leaf, t.n, t.r)) else Bin(Bin(t.l, t.n, Leaf), n, t.r)
  }

  ghost function Size(t: Tree): nat {
    if t.Leaf? then 0 else Size(t.l) + 1 + Size(t.r)
  }
}
