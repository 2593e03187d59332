// How the SPLAY_ENTRY fields of a set of nodes spell a tree, and the three-part
// state of the splay loop.  A Links value is a snapshot of those fields.
module SplayLinks {
  import opened Elements
  import opened SplayShape

  datatype Fork = Fork(left: Node?, right: Node?)

  type Links = map<Node, Fork>

  ghost predicate Linked(v: Links, t: Tree) {
    t.Bin? ==> t.n in v && v[t.n] == Fork(Root(t.l), Root(t.r)) && Linked(v, t.l) && Linked(v, t.r)
  }

  // The node whose right (left) pointer is the open end of a spine: __left and
  // __right of the splay loop, both starting at the header node on the stack.
  ghost function SmallerEnd(s: Smaller, head: Node): Node {
    if s.NoSmaller? then head else s.n
  }

  ghost function LargerEnd(g: Larger, head: Node): Node {
    if g.NoLarger? then head else g.n
  }

  ghost predicate SmallerLinked(v: Links, s: Smaller, head: Node) {
    s.AddSmaller? ==>
      && s.n in v && v[s.n].left == Root(s.l) && Linked(v, s.l)
      && SmallerEnd(s.init, head) in v && v[SmallerEnd(s.init, head)].right == s.n
      && SmallerLinked(v, s.init, head)
  }

  ghost predicate LargerLinked(v: Links, g: Larger, head: Node) {
    g.AddLarger? ==>
      && g.n in v && v[g.n].right == Root(g.r) && Linked(v, g.r)
      && LargerEnd(g.init, head) in v && v[LargerEnd(g.init, head)].left == g.n
      && LargerLinked(v, g.init, head)
  }

  // ---- no node occurs twice

  ghost predicate Distinct(t: Tree) {
    t.Bin? ==>
      && t.n !in Nodes(t.l) && t.n !in Nodes(t.r) && Nodes(t.l) !! Nodes(t.r)
      && Distinct(t.l) && Distinct(t.r)
  }

  ghost predicate SmallerDistinct(s: Smaller) {
    s.AddSmaller? ==>
      && s.n !in Nodes(s.l) && s.n !in SmallerNodes(s.init) && Nodes(s.l) !! SmallerNodes(s.init)
      && Distinct(s.l) && SmallerDistinct(s.init)
  }

  ghost predicate LargerDistinct(g: Larger) {
    g.AddLarger? ==>
      && g.n !in Nodes(g.r) && g.n !in LargerNodes(g.init) && Nodes(g.r) !! LargerNodes(g.init)
      && Distinct(g.r) && LargerDistinct(g.init)
  }

  ghost predicate Apart(head: Node, s: Smaller, t: Tree, g: Larger) {
    && head !in SmallerNodes(s) && head !in Nodes(t) && head !in LargerNodes(g)
    && SmallerNodes(s) !! Nodes(t) && SmallerNodes(s) !! LargerNodes(g) && Nodes(t) !! LargerNodes(g)
    && SmallerDistinct(s) && Distinct(t) && LargerDistinct(g)
  }

  // ---- the two states

  ghost predicate Spells(v: Links, root: Node?, t: Tree) {
    root == Root(t) && Linked(v, t) && Distinct(t) && v.Keys == Nodes(t)
  }

  ghost predicate Looping(v: Links, root: Node?, head: Node, s: Smaller, t: Tree, g: Larger) {
    && root == Root(t) && t.Bin? && head in v
    && Linked(v, t) && SmallerLinked(v, s, head) && LargerLinked(v, g, head)
    && Apart(head, s, t, g) && v.Keys == {head} + SmallerNodes(s) + Nodes(t) + LargerNodes(g)
  }

  ghost function Restrict(v: Links, s: set<Node>): Links
    requires s <= v.Keys
  {
    map n | n in s :: v[n]
  }

  // ---- frames

  ghost predicate Keeps(v: Links, w: Links, nodes: set<Node>) {
    forall n | n in nodes && n in v :: n in w && v[n] == w[n]
  }

  lemma {:induction false} Frame(v: Links, w: Links, t: Tree)
    requires Linked(v, t) && Keeps(v, w, Nodes(t))
    ensures Linked(w, t)
  {
    if t.Bin? {
      Frame(v, w, t.l);
      Frame(v, w, t.r);
    }
  }

  lemma {:induction false} SmallerFrame(v: Links, w: Links, s: Smaller, head: Node)
    requires SmallerLinked(v, s, head) && Keeps(v, w, SmallerNodes(s))
    requires head in v && head in w && v[head].right == w[head].right
    ensures SmallerLinked(w, s, head)
  {
    if s.AddSmaller? {
      Frame(v, w, s.l);
      SmallerFrame(v, w, s.init, head);
    }
  }

  lemma {:induction false} LargerFrame(v: Links, w: Links, g: Larger, head: Node)
    requires LargerLinked(v, g, head) && Keeps(v, w, LargerNodes(g))
    requires head in v && head in w && v[head].left == w[head].left
    ensures LargerLinked(w, g, head)
  {
    if g.AddLarger? {
      Frame(v, w, g.r);
      LargerFrame(v, w, g.init, head);
    }
  }

  // The open end of a spine may be written without harm to the spine.
  lemma {:induction false} SmallerEndFree(v: Links, w: Links, s: Smaller, head: Node)
    requires SmallerLinked(v, s, head) && SmallerDistinct(s) && head !in SmallerNodes(s)
    requires head in v && w.Keys == v.Keys && Keeps(v, w, SmallerNodes(s) - {SmallerEnd(s, head)})
    requires s.AddSmaller? ==> w[s.n].left == v[s.n].left && w[head].right == v[head].right
    ensures SmallerLinked(w, s, head)
  {
    if s.AddSmaller? {
      Frame(v, w, s.l);
      SmallerFrame(v, w, s.init, head);
    }
  }

  lemma {:induction false} LargerEndFree(v: Links, w: Links, g: Larger, head: Node)
    requires LargerLinked(v, g, head) && LargerDistinct(g) && head !in LargerNodes(g)
    requires head in v && w.Keys == v.Keys && Keeps(v, w, LargerNodes(g) - {LargerEnd(g, head)})
    requires g.AddLarger? ==> w[g.n].right == v[g.n].right && w[head].left == v[head].left
    ensures LargerLinked(w, g, head)
  {
    if g.AddLarger? {
      Frame(v, w, g.r);
      LargerFrame(v, w, g.init, head);
    }
  }

  lemma {:induction false} StartLoop(v: Links, root: Node?, head: Node, t: Tree)
    requires Spells(v, root, t) && t.Bin? && head !in v
    ensures Looping(v[head := Fork(null, null)], root, head, NoSmaller, t, NoLarger)
  {
    Frame(v, v[head := Fork(null, null)], t);
  }

  // ---- the macros

  // SPLAY_LINKLEFT: the root and its right subtree join the larger nodes.
  lemma {:induction false} LinkLeftLinks(v: Links, root: Node?, head: Node, s: Smaller, t: Tree, g: Larger)
    requires Looping(v, root, head, s, t, g) && t.l.Bin?
    ensures var e := LargerEnd(g, head); e in v && t.n in v && v[t.n].left == t.l.n
    ensures var e := LargerEnd(g, head);
      v[e := v[e].(left := t.n)].Keys == v.Keys &&
      Looping(v[e := v[e].(left := t.n)], t.l.n, head, s, t.l, AddLarger(g, t.n, t.r))
  {
    var e := LargerEnd(g, head);
    var w := v[e := v[e].(left := t.n)];
    Frame(v, w, t.l);
    Frame(v, w, t.r);
    SmallerFrame(v, w, s, head);
    LargerEndFree(v, w, g, head);
  }

  lemma {:induction false} LinkRightLinks(v: Links, root: Node?, head: Node, s: Smaller, t: Tree, g: Larger)
    requires Looping(v, root, head, s, t, g) && t.r.Bin?
    ensures var e := SmallerEnd(s, head); e in v && t.n in v && v[t.n].right == t.r.n
    ensures var e := SmallerEnd(s, head);
      v[e := v[e].(right := t.n)].Keys == v.Keys &&
      Looping(v[e := v[e].(right := t.n)], t.r.n, head, AddSmaller(s, t.l, t.n), t.r, g)
  {
    var e := SmallerEnd(s, head);
    var w := v[e := v[e].(right := t.n)];
    Frame(v, w, t.l);
    Frame(v, w, t.r);
    LargerFrame(v, w, g, head);
    SmallerEndFree(v, w, s, head);
  }

  lemma {:induction false} RotationApart(a: Tree, x: Node, b: Tree, y: Node, c: Tree)
    ensures Nodes(Bin(Bin(a, x, b), y, c)) == Nodes(Bin(a, x, Bin(b, y, c)))
    ensures Distinct(Bin(Bin(a, x, b), y, c)) <==> Distinct(Bin(a, x, Bin(b, y, c)))
    ensures Distinct(Bin(a, x, Bin(b, y, c))) ==>
      && x != y && x !in Nodes(a) + Nodes(b) + Nodes(c) && y !in Nodes(a) + Nodes(b) + Nodes(c)
  {
    var t, u := Bin(a, x, Bin(b, y, c)), Bin(Bin(a, x, b), y, c);
    assert Distinct(t) <==> x !in Nodes(a) && x !in Nodes(t.r) && Nodes(a) !! Nodes(t.r) && Distinct(a) && Distinct(t.r);
    assert Distinct(u) <==> y !in Nodes(u.l) && y !in Nodes(c) && Nodes(u.l) !! Nodes(c) && Distinct(u.l) && Distinct(c);
  }

  lemma {:induction false} RotatedRight(v: Links, w: Links, a: Tree, x: Node, b: Tree, y: Node, c: Tree)
    requires Linked(v, Bin(Bin(a, x, b), y, c)) && Distinct(Bin(Bin(a, x, b), y, c))
    requires w == v[y := Fork(Root(b), Root(c))][x := Fork(Root(a), y)]
    ensures Linked(w, Bin(a, x, Bin(b, y, c)))
  {
    assert Linked(v, Bin(a, x, b));
    RotationApart(a, x, b, y, c);
    Frame(v, w, a);
    Frame(v, w, b);
    Frame(v, w, c);
    assert Linked(w, Bin(b, y, c));
  }

  // SPLAY_ROTATE_RIGHT on the root y, with left child x.
  lemma {:induction false} RotateRightLinks(v: Links, root: Node?, head: Node, s: Smaller, g: Larger, a: Tree,
                                            x: Node, b: Tree, y: Node, c: Tree)
    requires Looping(v, root, head, s, Bin(Bin(a, x, b), y, c), g)
    ensures x in v && y in v && x != y && v[x] == Fork(Root(a), Root(b)) && v[y] == Fork(x, Root(c))
    ensures var w: Links := v[y := v[y].(left := Root(b))][x := v[x].(right := y)];
      w.Keys == v.Keys && Looping(w, x, head, s, Bin(a, x, Bin(b, y, c)), g)
  {
    hide SmallerLinked, LargerLinked, SmallerDistinct, LargerDistinct;
    var w: Links := v[y := Fork(Root(b), Root(c))][x := Fork(Root(a), y)];
    var t := Bin(Bin(a, x, b), y, c);
    assert Linked(v, t.l) && x in Nodes(t.l) && y in Nodes(t);
    RotationApart(a, x, b, y, c);
    RotatedRight(v, w, a, x, b, y, c);
    SmallerFrame(v, w, s, head);
    LargerFrame(v, w, g, head);
  }

  lemma {:induction false} RotatedLeft(v: Links, w: Links, a: Tree, x: Node, b: Tree, y: Node, c: Tree)
    requires Linked(v, Bin(a, x, Bin(b, y, c))) && Distinct(Bin(a, x, Bin(b, y, c)))
    requires w == v[x := Fork(Root(a), Root(b))][y := Fork(x, Root(c))]
    ensures Linked(w, Bin(Bin(a, x, b), y, c))
  {
    assert Linked(v, Bin(b, y, c));
    RotationApart(a, x, b, y, c);
    Frame(v, w, a);
    Frame(v, w, b);
    Frame(v, w, c);
    assert Linked(w, Bin(a, x, b));
  }

  lemma {:induction false} RotateLeftLinks(v: Links, root: Node?, head: Node, s: Smaller, g: Larger, a: Tree,
                                           x: Node, b: Tree, y: Node, c: Tree)
    requires Looping(v, root, head, s, Bin(a, x, Bin(b, y, c)), g)
    ensures x in v && y in v && x != y && v[y] == Fork(Root(b), Root(c)) && v[x] == Fork(Root(a), y)
    ensures var w: Links := v[x := v[x].(right := Root(b))][y := v[y].(left := x)];
      w.Keys == v.Keys && Looping(w, y, head, s, Bin(Bin(a, x, b), y, c), g)
  {
    hide SmallerLinked, LargerLinked, SmallerDistinct, LargerDistinct;
    var w: Links := v[x := Fork(Root(a), Root(b))][y := Fork(x, Root(c))];
    var t := Bin(a, x, Bin(b, y, c));
    assert Linked(v, t.r) && x in Nodes(t) && y in Nodes(t.r);
    RotationApart(a, x, b, y, c);
    RotatedLeft(v, w, a, x, b, y, c);
    SmallerFrame(v, w, s, head);
    LargerFrame(v, w, g, head);
  }

  // Hanging a tree from the open end of a spine closes it into a tree that hangs
  // from the header.
  lemma {:induction false} CloseSmallerLinks(v: Links, s: Smaller, inner: Tree, head: Node)
    requires SmallerLinked(v, s, head) && Linked(v, inner)
    requires SmallerEnd(s, head) in v && v[SmallerEnd(s, head)].right == Root(inner)
    ensures Linked(v, CloseSmaller(s, inner)) && head in v && v[head].right == Root(CloseSmaller(s, inner))
    decreases s
  {
    if s.AddSmaller? {
      CloseSmallerLinks(v, s.init, Bin(s.l, s.n, inner), head);
    }
  }

  lemma {:induction false} CloseLargerLinks(v: Links, g: Larger, inner: Tree, head: Node)
    requires LargerLinked(v, g, head) && Linked(v, inner)
    requires LargerEnd(g, head) in v && v[LargerEnd(g, head)].left == Root(inner)
    ensures Linked(v, CloseLarger(g, inner)) && head in v && v[head].left == Root(CloseLarger(g, inner))
    decreases g
  {
    if g.AddLarger? {
      CloseLargerLinks(v, g.init, Bin(inner, g.n, g.r), head);
    }
  }

  lemma {:induction false} CloseSmallerNodes(s: Smaller, inner: Tree)
    ensures Nodes(CloseSmaller(s, inner)) == SmallerNodes(s) + Nodes(inner)
    ensures SmallerDistinct(s) && Distinct(inner) && SmallerNodes(s) !! Nodes(inner) ==> Distinct(CloseSmaller(s, inner))
    decreases s
  {
    if s.AddSmaller? { CloseSmallerNodes(s.init, Bin(s.l, s.n, inner)); }
  }

  lemma {:induction false} CloseLargerNodes(g: Larger, inner: Tree)
    ensures Nodes(CloseLarger(g, inner)) == LargerNodes(g) + Nodes(inner)
    ensures LargerDistinct(g) && Distinct(inner) && LargerNodes(g) !! Nodes(inner) ==> Distinct(CloseLarger(g, inner))
    decreases g
  {
    if g.AddLarger? { CloseLargerNodes(g.init, Bin(inner, g.n, g.r)); }
  }

  // SPLAY_ASSEMBLE, first half: both spines are closed below the header.
  ghost function SpinesClosed(v: Links, left: Node, right: Node, n: Node): Links
    requires left in v && right in v && n in v
  {
    var v := v[left := v[left].(right := v[n].left)];
    v[right := v[right].(left := v[n].right)]
  }

  lemma {:induction false} CloseSpines(v: Links, root: Node?, head: Node, s: Smaller, t: Tree, g: Larger)
    requires Looping(v, root, head, s, t, g)
    ensures SmallerEnd(s, head) in v && LargerEnd(g, head) in v && t.n in v && v[t.n] == Fork(Root(t.l), Root(t.r))
    ensures var w, l, r := SpinesClosed(v, SmallerEnd(s, head), LargerEnd(g, head), t.n), CloseSmaller(s, t.l), CloseLarger(g, t.r);
      && w.Keys == v.Keys && w[t.n] == v[t.n] && w[head] == Fork(Root(r), Root(l)) && Linked(w, l) && Linked(w, r)
  {
    var v1 := v[SmallerEnd(s, head) := v[SmallerEnd(s, head)].(right := Root(t.l))];
    var w := v1[LargerEnd(g, head) := v1[LargerEnd(g, head)].(left := Root(t.r))];
    Frame(v, v1, t.l);
    Frame(v, v1, t.r);
    SmallerEndFree(v, v1, s, head);
    LargerFrame(v, v1, g, head);
    Frame(v1, w, t.l);
    Frame(v1, w, t.r);
    SmallerFrame(v1, w, s, head);
    LargerEndFree(v1, w, g, head);
    CloseSmallerLinks(w, s, t.l, head);
    CloseLargerLinks(w, g, t.r, head);
  }

  // Second half: the header's trees move to the root, and the header goes.
  ghost function Reassembled(u: Links, n: Node, head: Node): Links
    requires n in u && head in u && n != head
  {
    var u := u[n := u[n].(left := u[head].right)];
    var u := u[n := u[n].(right := u[head].left)];
    u - {head}
  }

  lemma {:induction false} AssembleLinks(v: Links, root: Node?, head: Node, s: Smaller, t: Tree, g: Larger)
    requires Looping(v, root, head, s, t, g)
    ensures SmallerEnd(s, head) in v && LargerEnd(g, head) in v && t.n in v && v[t.n] == Fork(Root(t.l), Root(t.r)) && t.n != head
    ensures var u := SpinesClosed(v, SmallerEnd(s, head), LargerEnd(g, head), t.n);
      && u.Keys == v.Keys && u[t.n] == v[t.n]
      && var w := Reassembled(u, t.n, head);
      Spells(w, root, Assembled(s, t, g)) && w.Keys == v.Keys - {head}
  {
    CloseSpines(v, root, head, s, t, g);
    ReassembleTree(v, root, head, s, t, g, SpinesClosed(v, SmallerEnd(s, head), LargerEnd(g, head), t.n));
  }

  lemma {:induction false} ReassembleTree(v: Links, root: Node?, head: Node, s: Smaller, t: Tree, g: Larger, u: Links)
    requires Looping(v, root, head, s, t, g) && t.n in v
    requires var l, r := CloseSmaller(s, t.l), CloseLarger(g, t.r);
      u.Keys == v.Keys && u[head] == Fork(Root(r), Root(l)) && Linked(u, l) && Linked(u, r)
    ensures var w := Reassembled(u, t.n, head);
      Spells(w, root, Assembled(s, t, g)) && w.Keys == v.Keys - {head}
  {
    var w, l, r := Reassembled(u, t.n, head), CloseSmaller(s, t.l), CloseLarger(g, t.r);
    AssembledApart(head, s, t, g);
    assert w[t.n] == Fork(Root(l), Root(r)) && w.Keys == v.Keys - {head};
    Frame(u, w, l);
    Frame(u, w, r);
  }

  lemma {:induction false} AssembledApart(head: Node, s: Smaller, t: Tree, g: Larger)
    requires Apart(head, s, t, g) && t.Bin?
    ensures Distinct(Assembled(s, t, g)) && head !in Nodes(Assembled(s, t, g))
    ensures Nodes(Assembled(s, t, g)) == SmallerNodes(s) + Nodes(t) + LargerNodes(g)
    ensures t.n !in Nodes(CloseSmaller(s, t.l)) && t.n !in Nodes(CloseLarger(g, t.r)) && t.n != head
    ensures head !in Nodes(CloseSmaller(s, t.l)) && head !in Nodes(CloseLarger(g, t.r))
  {
    CloseSmallerNodes(s, t.l);
    CloseLargerNodes(g, t.r);
  }

  // ---- insertion below a splayed root, and removal of it

  ghost function NewRoot(v: Links, n: Node, root: Node, before: bool): Links
    requires root in v
  {
    if before then v[n := Fork(v[root].left, root)][root := v[root].(left := null)]
    else v[n := Fork(root, v[root].right)][root := v[root].(right := null)]
  }

  lemma {:induction false} NewRootLinks(v: Links, root: Node?, t: Tree, n: Node, before: bool)
    requires Spells(v, root, t) && t.Bin? && n !in v
    ensures t.n in v && NewRoot(v, n, t.n, before).Keys == v.Keys + {n}
    ensures Spells(NewRoot(v, n, t.n, before), n, NewRootTree(t, n, before))
  {
    var w := NewRoot(v, n, t.n, before);
    Frame(v, w, t.l);
    Frame(v, w, t.r);
    assert if before then Linked(w, Bin(Leaf, t.n, t.r)) else Linked(w, Bin(t.l, t.n, Leaf));
    assert Nodes(if before then Bin(Leaf, t.n, t.r) else Bin(t.l, t.n, Leaf)) == {t.n} + Nodes(if before then t.r else t.l);
    assert Nodes(NewRootTree(t, n, before)) == Nodes(t) + {n};
  }

  lemma {:induction false} NewRootSeq(t: Tree, n: Node, before: bool)
    requires t.Bin? && Ordered(Inorder(t)) && AllBelow(Inorder(t.l), n.key) && AllAbove(Inorder(t.r), n.key)
    requires if before then n.key < t.n.key else t.n.key < n.key
    ensures Inorder(NewRootTree(t, n, before)) == With(Inorder(t), n) && Ordered(With(Inorder(t), n))
    ensures forall m | m in Inorder(t) :: m.key != n.key
  {
    var a, b := Inorder(t.l), Inorder(t.r);
    if before {
      AllConcat([t.n], b, n.key);
      assert Inorder(t) == a + ([t.n] + b);
      WithBetween(a, n, [t.n] + b);
      OrderedWith(a, n, [t.n] + b);
      assert Inorder(Bin(Leaf, t.n, t.r)) == [t.n] + b;
    } else {
      AllConcat(a, [t.n], n.key);
      WithBetween(a + [t.n], n, b);
      OrderedWith(a + [t.n], n, b);
      assert Inorder(Bin(t.l, t.n, Leaf)) == a + [t.n];
    }
  }

  // After a splay only the root can have the key.
  lemma {:induction false} AroundRoot(t: Tree, k: int)
    requires t.Bin? && AllBelow(Inorder(t.l), k) && AllAbove(Inorder(t.r), k)
    ensures t.n in Inorder(t)
    ensures t.n.key != k ==> forall n | n in Inorder(t) :: n.key != k
  {
    assert Inorder(t)[|Inorder(t.l)|] == t.n;
  }

  lemma {:induction false} NotEmpty(v: Links, root: Node?, t: Tree)
    requires Spells(v, root, t) && Inorder(t) != []
    ensures root != null
  {
  }

  // A splay for a node of the tree leaves that node at the root.
  lemma {:induction false} RootIs(t: Tree, n: Node, i: nat)
    requires t.Bin? && AllBelow(Inorder(t.l), n.key) && AllAbove(Inorder(t.r), n.key)
    requires i < |Inorder(t)| && Inorder(t)[i] == n
    ensures t.n == n && i == |Inorder(t.l)|
    ensures Inorder(t)[i + 1..] == Inorder(t.r)
  {
    var s, l := Inorder(t), Inorder(t.l);
    assert forall j :: 0 <= j < |l| ==> s[j] == l[j];
    assert forall j :: |l| < j < |s| ==> s[j] == Inorder(t.r)[j - |l| - 1];
  }

  lemma {:induction false} DropRootLinks(v: Links, root: Node?, t: Tree)
    requires Spells(v, root, t) && t.Bin?
    ensures Nodes(t.l) <= v.Keys && Nodes(t.r) <= v.Keys && t.n in v && v[t.n] == Fork(Root(t.l), Root(t.r))
    ensures Spells(Restrict(v, Nodes(t.l)), Root(t.l), t.l)
    ensures t.l.Leaf? ==> Spells(v - {t.n}, Root(t.r), t.r)
  {
    Frame(v, Restrict(v, Nodes(t.l)), t.l);
    if t.l.Leaf? { Frame(v, v - {t.n}, t.r); }
  }

  lemma {:induction false} DropRootSeq(t: Tree)
    requires t.Bin? && Ordered(Inorder(t))
    ensures Without(Inorder(t), t.n) == Inorder(t.l) + Inorder(t.r)
    ensures Ordered(Inorder(t.l)) && Ordered(Inorder(t.r)) && Ordered(Inorder(t.l) + Inorder(t.r))
  {
    OrderedAround(Inorder(t.l), t.n, Inorder(t.r));
    WithoutBetween(Inorder(t.l), t.n, Inorder(t.r));
    WithoutOrdered(Inorder(t), t.n);
  }

  lemma {:induction false} RootBelow(t: Tree, k: int)
    requires t.Bin? && AllBelow(Inorder(t), k)
    ensures t.n.key < k
  {
    assert Inorder(t)[|Inorder(t.l)|] == t.n;
  }

  lemma {:induction false} RootAbove(t: Tree, k: int)
    requires t.Bin? && AllAbove(Inorder(t), k)
    ensures k < t.n.key
  {
    assert Inorder(t)[|Inorder(t.l)|] == t.n;
  }

  // The second splay of SPLAY_REMOVE runs on smaller keys alone, so the root it
  // leaves has room on the right for the saved subtree.
  lemma {:induction false} OnlySmaller(was: Tree, t: Tree, k: int)
    requires AllBelow(Inorder(was), k) && Inorder(t) == Inorder(was) && t.Bin? && AllAbove(Inorder(t.r), k)
    ensures t.r.Leaf?
  {
    AllConcat(Inorder(t.l) + [t.n], Inorder(t.r), k);
    if t.r.Bin? {
      RootBelow(t.r, k);
      RootAbove(t.r, k);
    }
  }

  lemma {:induction false} HangSeq(t: Tree, r: Tree)
    requires t.Bin? && t.r.Leaf?
    ensures Inorder(Bin(t.l, t.n, r)) == Inorder(t) + Inorder(r)
  {
    assert Inorder(t) == Inorder(t.l) + [t.n];
  }

  ghost function Hung(w: Links, n: Node, v: Links, r: Tree): Links
    requires n in w && Nodes(r) <= v.Keys
  {
    var u := w + Restrict(v, Nodes(r));
    u[n := u[n].(right := Root(r))]
  }

  lemma {:induction false} HangLinks(w: Links, root: Node?, t: Tree, v: Links, r: Tree)
    requires Spells(w, root, t) && t.Bin? && t.r.Leaf? && t.n in w
    requires Linked(v, r) && Distinct(r) && Nodes(r) <= v.Keys && w.Keys !! Nodes(r)
    ensures Spells(Hung(w, t.n, v, r), root, Bin(t.l, t.n, r))
  {
    var u := Hung(w, t.n, v, r);
    assert Nodes(t) == Nodes(t.l) + {t.n};
    assert u.Keys == Nodes(Bin(t.l, t.n, r));
    Frame(w, u, t.l);
    Frame(v, u, r);
  }
}
