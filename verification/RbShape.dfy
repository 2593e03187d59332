// The values a red-black tree stands for: the tree itself, the path from the
// root down to a position in it, and the colour and order laws of both.
// include/tree.h keeps these facts only in pointers; here they are data, and
// the pointer code in RbTree is proved to follow them.
module RbShape {
  import opened Elements

  // The four fields of an RB_ENTRY.
  datatype Cell = Cell(left: Node?, right: Node?, parent: Node?, red: bool)

  datatype Tree = Leaf | Bin(l: Tree, n: Node, red: bool, r: Tree)

  // A tree with one subtree missing, seen from the hole upwards.
  datatype Path =
    | Top
    | InLeft(n: Node, red: bool, r: Tree, up: Path)
    | InRight(l: Tree, n: Node, red: bool, up: Path)

  ghost function Nodes(t: Tree): set<Node> {
    match t
    case Leaf => {}
    case Bin(l, n, _, r) => Nodes(l) + {n} + Nodes(r)
  }

  ghost function PathNodes(p: Path): set<Node> {
    match p
    case Top => {}
    case InLeft(n, _, r, up) => {n} + Nodes(r) + PathNodes(up)
    case InRight(l, n, _, up) => {n} + Nodes(l) + PathNodes(up)
  }

  ghost function Root(t: Tree): Node? {
    if t.Leaf? then null else t.n
  }

  // The node the hole hangs from.
  ghost function Above(p: Path): Node? {
    if p.Top? then null else p.n
  }

  ghost function Sibling(p: Path): Tree
    requires !p.Top?
  {
    if p.InLeft? then p.r else p.l
  }

  // The root of the whole tree when the hole is filled by a tree rooted at `hole`.
  ghost function TopNode(p: Path, hole: Node?): Node? {
    if p.Top? then hole else TopNode(p.up, p.n)
  }

  ghost function Plug(p: Path, t: Tree): Tree {
    match p
    case Top => t
    case InLeft(n, red, r, up) => Plug(up, Bin(t, n, red, r))
    case InRight(l, n, red, up) => Plug(up, Bin(l, n, red, t))
  }

  // ---- contents, in key order

  ghost function Inorder(t: Tree): seq<Node> {
    match t
    case Leaf => []
    case Bin(l, n, _, r) => Inorder(l) + [n] + Inorder(r)
  }

  ghost function Before(p: Path): seq<Node> {
    match p
    case Top => []
    case InLeft(_, _, _, up) => Before(up)
    case InRight(l, n, _, up) => Before(up) + Inorder(l) + [n]
  }

  ghost function After(p: Path): seq<Node> {
    match p
    case Top => []
    case InLeft(n, _, r, up) => [n] + Inorder(r) + After(up)
    case InRight(_, _, _, up) => After(up)
  }

  lemma {:induction false} InorderPlug(p: Path, t: Tree)
    ensures Inorder(Plug(p, t)) == Before(p) + Inorder(t) + After(p)
    decreases p
  {
    match p
    case Top =>
    case InLeft(n, red, r, up) =>
      InorderPlug(up, Bin(t, n, red, r));
      Reassociate(Before(up), Inorder(t), [n], Inorder(r), After(up));
    case InRight(l, n, red, up) =>
      InorderPlug(up, Bin(l, n, red, t));
      Reassociate(Before(up), Inorder(l), [n], Inorder(t), After(up));
  }

  lemma {:induction false} SameContents(p: Path, t: Tree, u: Tree)
    requires Inorder(t) == Inorder(u)
    ensures Inorder(Plug(p, t)) == Inorder(Plug(p, u))
  {
    InorderPlug(p, t);
    InorderPlug(p, u);
  }

  lemma {:induction false} RotationContents(p: Path, a: Tree, x: Node, cx: bool, b: Tree, y: Node, cy: bool, c: Tree)
    ensures Inorder(Plug(p, Bin(a, x, cx, Bin(b, y, cy, c)))) == Inorder(Plug(p, Bin(Bin(a, x, cx, b), y, cy, c)))
  {
    var t, u := Bin(a, x, cx, Bin(b, y, cy, c)), Bin(Bin(a, x, cx, b), y, cy, c);
    assert Inorder(t) == Inorder(a) + [x] + (Inorder(b) + [y] + Inorder(c));
    assert Inorder(u) == (Inorder(a) + [x] + Inorder(b)) + [y] + Inorder(c);
    SameContents(p, t, u);
  }

  lemma {:induction false} NodesInorder(t: Tree, n: Node)
    ensures n in Nodes(t) <==> n in Inorder(t)
  {
    if t.Bin? {
      NodesInorder(t.l, n);
      NodesInorder(t.r, n);
    }
  }

  // The elements on either side of the node at the root of t.
  lemma {:induction false} OrderedAt(p: Path, t: Tree)
    requires Ordered(Inorder(Plug(p, t))) && t.Bin?
    ensures AllBelow(Before(p), t.n.key) && AllBelow(Inorder(t.l), t.n.key)
    ensures AllAbove(Inorder(t.r), t.n.key) && AllAbove(After(p), t.n.key)
    ensures Inorder(Plug(p, t)) == (Before(p) + Inorder(t.l)) + [t.n] + (Inorder(t.r) + After(p))
  {
    InorderPlug(p, t);
    Reassociate(Before(p), Inorder(t.l), [t.n], Inorder(t.r), After(p));
    OrderedAround(Before(p) + Inorder(t.l), t.n, Inorder(t.r) + After(p));
    AllConcat(Before(p), Inorder(t.l), t.n.key);
    AllConcat(Inorder(t.r), After(p), t.n.key);
  }

  // The hole is where a search for k ends.
  ghost predicate Searching(p: Path, k: int) {
    AllBelow(Before(p), k) && AllAbove(After(p), k)
  }

  lemma {:induction false} SearchLeft(p: Path, t: Tree, k: int)
    requires Ordered(Inorder(Plug(p, t))) && t.Bin? && Searching(p, k) && k < t.n.key
    ensures Searching(InLeft(t.n, t.red, t.r, p), k)
  {
    OrderedAt(p, t);
    AllConcat([t.n] + Inorder(t.r), After(p), k);
  }

  lemma {:induction false} SearchRight(p: Path, t: Tree, k: int)
    requires Ordered(Inorder(Plug(p, t))) && t.Bin? && Searching(p, k) && t.n.key < k
    ensures Searching(InRight(t.l, t.n, t.red, p), k)
  {
    OrderedAt(p, t);
    AllConcat(Before(p) + Inorder(t.l), [t.n], k);
    AllConcat(Before(p), Inorder(t.l), k);
  }

  // Where the search for a missing key ended: its neighbours.
  lemma {:induction false} FirstAbove(p: Path, k: int)
    requires Searching(p, k) && Ordered(Inorder(Plug(p, Leaf)))
    ensures After(p) != [] ==> After(p)[0] in Inorder(Plug(p, Leaf)) && k < After(p)[0].key
    ensures forall n | n in Inorder(Plug(p, Leaf)) :: k <= n.key ==> After(p) != [] && After(p)[0].key <= n.key
  {
    hide Before, After, Plug;
    InorderPlug(p, Leaf);
    var a, b := Before(p), After(p);
    assert a + [] + b == a + b;
    assert b != [] ==> (a + b)[|a|] == b[0];
    assert forall i :: 0 <= i < |a| ==> (a + b)[i] == a[i];
    forall n | n in a + b && k <= n.key ensures b != [] && b[0].key <= n.key {
      var i :| 0 <= i < |a + b| && (a + b)[i] == n;
      assert i >= |a|;
    }
  }

  lemma {:induction false} Locate(p0: Path, t0: Tree, n: Node) returns (p: Path, t: Tree)
    requires n in Nodes(t0)
    ensures Plug(p, t) == Plug(p0, t0) && t.Bin? && t.n == n
    decreases t0
  {
    if t0.n == n {
      p, t := p0, t0;
    } else if n in Nodes(t0.l) {
      p, t := Locate(InLeft(t0.n, t0.red, t0.r, p0), t0.l, n);
    } else {
      p, t := Locate(InRight(t0.l, t0.n, t0.red, p0), t0.r, n);
    }
  }

  // ---- paths inside a subtree: the walk to the successor in RB_REMOVE

  ghost function Append(q: Path, base: Path): Path {
    match q
    case Top => base
    case InLeft(n, red, r, up) => InLeft(n, red, r, Append(up, base))
    case InRight(l, n, red, up) => InRight(l, n, red, Append(up, base))
  }

  ghost predicate AllLeft(q: Path) {
    !q.Top? ==> q.InLeft? && AllLeft(q.up)
  }

  lemma {:induction false} PlugAppend(q: Path, base: Path, t: Tree)
    ensures Plug(Append(q, base), t) == Plug(base, Plug(q, t))
    decreases q
  {
    match q
    case Top =>
    case InLeft(n, red, r, up) => PlugAppend(up, base, Bin(t, n, red, r));
    case InRight(l, n, red, up) => PlugAppend(up, base, Bin(l, n, red, t));
  }

  lemma {:induction false} NothingBeforeLeft(q: Path)
    requires AllLeft(q)
    ensures Before(q) == []
  {
    if !q.Top? { NothingBeforeLeft(q.up); }
  }

  ghost predicate AllRight(q: Path) {
    !q.Top? ==> q.InRight? && AllRight(q.up)
  }

  lemma {:induction false} NothingAfterRight(q: Path)
    requires AllRight(q)
    ensures After(q) == []
  {
    if !q.Top? { NothingAfterRight(q.up); }
  }

  // Dropping the node at the root of t from the contents.
  lemma {:induction false} WithoutRoot(p: Path, t: Tree)
    requires Ordered(Inorder(Plug(p, t))) && t.Bin?
    ensures Without(Inorder(Plug(p, t)), t.n) == (Before(p) + Inorder(t.l)) + (Inorder(t.r) + After(p))
  {
    OrderedAt(p, t);
    AllConcat(Before(p), Inorder(t.l), t.n.key);
    WithoutBetween(Before(p) + Inorder(t.l), t.n, Inorder(t.r) + After(p));
  }

  lemma {:induction false} FirstOfRight(q: Path, m: Node, cm: bool, mr: Tree)
    requires AllLeft(q)
    ensures Inorder(Plug(q, Bin(Leaf, m, cm, mr))) == [m] + Inorder(Plug(q, mr))
  {
    InorderPlug(q, Bin(Leaf, m, cm, mr));
    InorderPlug(q, mr);
    NothingBeforeLeft(q);
    assert Inorder(Bin(Leaf, m, cm, mr)) == [m] + Inorder(mr);
  }

  lemma {:induction false} LastOfLeft(q: Path, ml: Tree, m: Node, cm: bool)
    requires AllRight(q)
    ensures Inorder(Plug(q, Bin(ml, m, cm, Leaf))) == Inorder(Plug(q, ml)) + [m]
  {
    InorderPlug(q, Bin(ml, m, cm, Leaf));
    InorderPlug(q, ml);
    NothingAfterRight(q);
    assert Inorder(Bin(ml, m, cm, Leaf)) == Inorder(ml) + [m];
    assert Before(q) + (Inorder(ml) + [m]) == Before(q) + Inorder(ml) + [m];
  }

  // Taking the first node m out of the right subtree of n, and then putting
  // m in the place of n, drops n from the contents.
  lemma {:induction false} SuccessorContents(p: Path, l: Tree, n: Node, red: bool, q: Path, m: Node, cm: bool, mr: Tree)
    requires AllLeft(q) && Ordered(Inorder(Plug(p, Bin(l, n, red, Plug(q, Bin(Leaf, m, cm, mr))))))
    ensures Inorder(Plug(p, Bin(l, m, red, Plug(q, mr))))
         == Without(Inorder(Plug(p, Bin(l, n, red, Plug(q, Bin(Leaf, m, cm, mr))))), n)
  {
    WithoutRoot(p, Bin(l, n, red, Plug(q, Bin(Leaf, m, cm, mr))));
    FirstOfRight(q, m, cm, mr);
    InorderPlug(p, Bin(l, m, red, Plug(q, mr)));
    Regroup(Before(p), Inorder(l), [m], Inorder(Plug(q, mr)), After(p));
  }

  lemma {:induction false} SpliceContents(p: Path, t: Tree, c: Tree)
    requires t.Bin? && ((t.l.Leaf? && c == t.r) || (t.r.Leaf? && c == t.l))
    requires Ordered(Inorder(Plug(p, t)))
    ensures Inorder(Plug(p, c)) == Without(Inorder(Plug(p, t)), t.n)
  {
    WithoutRoot(p, t);
    InorderPlug(p, c);
    Regroup(Before(p), Inorder(t.l), [], Inorder(t.r), After(p));
    assert Inorder(c) == Inorder(t.l) + [] + Inorder(t.r);
  }

  // ---- no node occurs twice

  ghost predicate Distinct(t: Tree) {
    t.Bin? ==>
      && t.n !in Nodes(t.l) && t.n !in Nodes(t.r) && Nodes(t.l) !! Nodes(t.r)
      && Distinct(t.l) && Distinct(t.r)
  }

  ghost predicate PathDistinct(p: Path) {
    match p
    case Top => true
    case InLeft(n, _, r, up) =>
      n !in Nodes(r) && n !in PathNodes(up) && Nodes(r) !! PathNodes(up) && Distinct(r) && PathDistinct(up)
    case InRight(l, n, _, up) =>
      n !in Nodes(l) && n !in PathNodes(up) && Nodes(l) !! PathNodes(up) && Distinct(l) && PathDistinct(up)
  }

  ghost predicate Apart(p: Path, t: Tree) {
    Distinct(t) && PathDistinct(p) && PathNodes(p) !! Nodes(t)
  }

  lemma {:induction false} PlugNodes(p: Path, t: Tree)
    ensures Nodes(Plug(p, t)) == PathNodes(p) + Nodes(t)
    ensures Distinct(Plug(p, t)) <==> PathDistinct(p) && Distinct(t) && PathNodes(p) !! Nodes(t)
    decreases p
  {
    match p
    case Top =>
    case InLeft(n, red, r, up) => PlugNodes(up, Bin(t, n, red, r));
    case InRight(l, n, red, up) => PlugNodes(up, Bin(l, n, red, t));
  }
}
