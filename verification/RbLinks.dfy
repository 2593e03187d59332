// How the RB_ENTRY fields of a set of nodes spell a tree.  A Links value is a
// snapshot of those fields; each lemma says which fields a pointer operation of
// include/tree.h has to change to get from one tree to the next.
module RbLinks {
  import opened Elements
  import opened RbShape

  type Links = map<Node, Cell>

  ghost predicate Linked(v: Links, t: Tree, parent: Node?) {
    t.Bin? ==>
      && t.n in v && v[t.n] == Cell(Root(t.l), Root(t.r), parent, t.red)
      && Linked(v, t.l, t.n) && Linked(v, t.r, t.n)
  }

  ghost predicate PathLinked(v: Links, p: Path, hole: Node?) {
    match p
    case Top => true
    case InLeft(n, red, r, up) =>
      n in v && v[n] == Cell(hole, Root(r), Above(up), red) && Linked(v, r, n) && PathLinked(v, up, n)
    case InRight(l, n, red, up) =>
      n in v && v[n] == Cell(Root(l), hole, Above(up), red) && Linked(v, l, n) && PathLinked(v, up, n)
  }

  // The links hold exactly the tree s, hanging from `root`.
  ghost predicate Spells(v: Links, root: Node?, s: Tree) {
    root == Root(s) && Linked(v, s, null) && Distinct(s) && v.Keys == Nodes(s)
  }

  // w differs from v at most in the nodes of `touched`.
  ghost predicate Agree(v: Links, w: Links, touched: set<Node?>) {
    forall n | n in v && n !in touched :: n in w && v[n] == w[n]
  }

  ghost predicate Avoids(s: set<Node>, touched: set<Node?>) {
    forall n | n in s :: n !in touched
  }

  // The child pointer update of the parent: `from` was one of its two children.
  ghost function Redirect(c: Cell, from: Node?, to: Node?): Cell {
    if c.left == from then c.(left := to) else c.(right := to)
  }

  // ---- frames

  lemma {:induction false} Frame(v: Links, w: Links, touched: set<Node?>, t: Tree, parent: Node?)
    requires Linked(v, t, parent) && Agree(v, w, touched) && Avoids(Nodes(t), touched)
    ensures Linked(w, t, parent)
  {
    if t.Bin? {
      Frame(v, w, touched, t.l, t.n);
      Frame(v, w, touched, t.r, t.n);
    }
  }

  lemma {:induction false} PathFrame(v: Links, w: Links, touched: set<Node?>, p: Path, hole: Node?)
    requires PathLinked(v, p, hole) && Agree(v, w, touched) && Avoids(PathNodes(p), touched)
    ensures PathLinked(w, p, hole)
    decreases p
  {
    if !p.Top? {
      Frame(v, w, touched, Sibling(p), p.n);
      PathFrame(v, w, touched, p.up, p.n);
    }
  }

  lemma {:induction false} Reparent(v: Links, w: Links, touched: set<Node?>, t: Tree, was: Node?, now: Node?)
    requires Linked(v, t, was) && Distinct(t) && Agree(v, w, touched) && Avoids(Nodes(t), touched - {Root(t)})
    requires t.Bin? ==> t.n in v && t.n in w && w[t.n] == v[t.n].(parent := now)
    ensures Linked(w, t, now)
  {
    if t.Bin? {
      Frame(v, w, touched, t.l, t.n);
      Frame(v, w, touched, t.r, t.n);
    }
  }

  lemma {:induction false} Rehang(v: Links, w: Links, touched: set<Node?>, p: Path, from: Node?, to: Node?)
    requires PathLinked(v, p, from) && PathDistinct(p) && Agree(v, w, touched)
    requires Avoids(PathNodes(p), touched - {Above(p)})
    requires p.InRight? ==> Root(p.l) != from
    requires !p.Top? ==> p.n in v && p.n in w && w[p.n] == Redirect(v[p.n], from, to)
    ensures PathLinked(w, p, to)
  {
    if !p.Top? {
      Frame(v, w, touched, Sibling(p), p.n);
      PathFrame(v, w, touched, p.up, p.n);
    }
  }

  // ---- looking at one position of a tree

  lemma {:induction false} LinkedPlug(v: Links, p: Path, t: Tree)
    ensures Linked(v, Plug(p, t), null) <==> Linked(v, t, Above(p)) && PathLinked(v, p, Root(t))
    ensures Root(Plug(p, t)) == TopNode(p, Root(t))
    decreases p
  {
    match p
    case Top =>
    case InLeft(n, red, r, up) => LinkedPlug(v, up, Bin(t, n, red, r));
    case InRight(l, n, red, up) => LinkedPlug(v, up, Bin(l, n, red, t));
  }

  lemma {:induction false} Look(v: Links, root: Node?, p: Path, t: Tree)
    requires Spells(v, root, Plug(p, t))
    ensures Linked(v, t, Above(p)) && PathLinked(v, p, Root(t)) && Apart(p, t)
    ensures root == TopNode(p, Root(t)) && v.Keys == PathNodes(p) + Nodes(t)
    ensures t.Bin? ==> t.n in v && t.n in Nodes(t)
    ensures !p.Top? ==> p.n in v && p.n in PathNodes(p) && p.n !in Nodes(t)
    ensures !p.Top? && Sibling(p).Bin? ==> Sibling(p).n in PathNodes(p) && Sibling(p).n != p.n
  {
    LinkedPlug(v, p, t);
    PlugNodes(p, t);
    assert !p.Top? && Sibling(p).Bin? ==> Sibling(p).n in Nodes(Sibling(p));
  }

  lemma {:induction false} HoleIsNotRoot(v: Links, root: Node?, p: Path, t: Tree)
    requires Spells(v, root, Plug(p, t))
    ensures Root(t) == root <==> p.Top?
  {
    Look(v, root, p, t);
    TopNodeInPath(p, Root(t));
  }

  lemma {:induction false} TopNodeInPath(p: Path, hole: Node?)
    ensures !p.Top? ==> TopNode(p, hole) in PathNodes(p)
    decreases p
  {
    if !p.Top? { TopNodeInPath(p.up, p.n); }
  }

  lemma {:induction false} Assemble(w: Links, p: Path, t: Tree)
    requires Linked(w, t, Above(p)) && PathLinked(w, p, Root(t)) && Apart(p, t)
    requires w.Keys == PathNodes(p) + Nodes(t)
    ensures Spells(w, TopNode(p, Root(t)), Plug(p, t))
  {
    LinkedPlug(w, p, t);
    PlugNodes(p, t);
  }

  // ---- the pointer operations

  ghost predicate Redirected(v: Links, w: Links, p: Path, from: Node?, to: Node?) {
    !p.Top? ==> p.n in v && p.n in w && w[p.n] == Redirect(v[p.n], from, to)
  }

  ghost predicate Reparented(v: Links, w: Links, t: Tree, now: Node?) {
    t.Bin? ==> t.n in v && t.n in w && w[t.n] == v[t.n].(parent := now)
  }

  ghost predicate Holds(w: Links, n: Node, c: Cell) {
    n in w && w[n] == c
  }

  lemma {:induction false} RotationKeepsApart(p: Path, a: Tree, x: Node, cx: bool, b: Tree, y: Node, cy: bool, c: Tree)
    ensures Apart(p, Bin(a, x, cx, Bin(b, y, cy, c))) <==> Apart(p, Bin(Bin(a, x, cx, b), y, cy, c))
  {
    var t, u := Bin(a, x, cx, Bin(b, y, cy, c)), Bin(Bin(a, x, cx, b), y, cy, c);
    assert Nodes(t) == Nodes(u);
    assert Distinct(t) <==> x !in Nodes(a) && x !in Nodes(t.r) && Nodes(a) !! Nodes(t.r) && Distinct(a) && Distinct(t.r);
    assert Distinct(u) <==> y !in Nodes(u.l) && y !in Nodes(c) && Nodes(u.l) !! Nodes(c) && Distinct(u.l) && Distinct(c);
  }

  lemma {:induction false} RotationParts(p: Path, a: Tree, x: Node, cx: bool, b: Tree, y: Node, cy: bool, c: Tree)
    requires Apart(p, Bin(a, x, cx, Bin(b, y, cy, c)))
    ensures x != y && Distinct(b)
    ensures Avoids(Nodes(a), {x, y, Root(b), Above(p)})
    ensures Avoids(Nodes(c), {x, y, Root(b), Above(p)})
    ensures Avoids(Nodes(b), {x, y, Above(p)})
    ensures Avoids(PathNodes(p), {x, y, Root(b)})
  {
    assert b.Bin? ==> b.n in Nodes(b);
    assert !p.Top? ==> p.n in PathNodes(p);
    assert Distinct(Bin(b, y, cy, c));
  }

  ghost predicate Child(v: Links, n: Node?) { n == null || n in v }

  // The nodes a rotation writes are different nodes.
  ghost predicate RotationNodes(x: Node, y: Node, b: Node?, q: Node?) {
    x != y && b != x && b != y && q != x && q != y && (b != null ==> b != q)
  }

  ghost function Adopted(v: Links, child: Node?, parent: Node?): Links
    requires Child(v, child)
  {
    if child == null then v else v[child := v[child].(parent := parent)]
  }

  ghost function Rehung(v: Links, parent: Node?, from: Node?, to: Node?): Links
    requires Child(v, parent)
  {
    if parent == null then v else v[parent := Redirect(v[parent], from, to)]
  }

  ghost predicate CanRotateLeft(v: Links, x: Node) {
    && x in v && v[x].right in v
    && Child(v, v[v[x].right].left) && Child(v, v[x].parent)
    && RotationNodes(x, v[x].right, v[v[x].right].left, v[x].parent)
  }

  // The assignments of RB_ROTATE_LEFT in the order it makes them.
  ghost function RotatedLeft(v: Links, x: Node): Links
    requires CanRotateLeft(v, x)
  {
    var y, b, q := v[x].right, v[v[x].right].left, v[x].parent;
    var v := v[x := v[x].(right := b)];
    var v := Adopted(v, b, x);
    var v := v[y := v[y].(parent := q)];
    var v := Rehung(v, q, x, y);
    var v := v[y := v[y].(left := x)];
    v[x := v[x].(parent := y)]
  }

  lemma {:induction false} RotatedLeftCells(v: Links, x: Node)
    requires CanRotateLeft(v, x)
    ensures var y, b, q, w := v[x].right, v[v[x].right].left, v[x].parent, RotatedLeft(v, x);
      && w.Keys == v.Keys && Agree(v, w, {x, y, b, q})
      && Holds(w, x, v[x].(right := b, parent := y))
      && Holds(w, y, v[y].(left := x, parent := q))
      && (b != null ==> Holds(w, b, v[b].(parent := x)))
      && (q != null ==> Holds(w, q, Redirect(v[q], x, y)))
  {
  }

  // The cells a rotation to the left reads and writes.
  lemma {:induction false} LeftRotationSite(v: Links, root: Node?, p: Path, a: Tree, x: Node, cx: bool, b: Tree,
                                            y: Node, cy: bool, c: Tree)
    requires Spells(v, root, Plug(p, Bin(a, x, cx, Bin(b, y, cy, c))))
    ensures Holds(v, x, Cell(Root(a), y, Above(p), cx)) && Holds(v, y, Cell(Root(b), Root(c), x, cy))
    ensures Child(v, Root(b)) && Child(v, Above(p))
    ensures RotationNodes(x, y, Root(b), Above(p))
    ensures root == TopNode(p, x)
  {
    var t := Bin(a, x, cx, Bin(b, y, cy, c));
    Look(v, root, p, t);
    assert Linked(v, t.r, x);
    RotationKeepsApart(p, a, x, cx, b, y, cy, c);
    RotationParts(p, a, x, cx, b, y, cy, c);
    assert b.Bin? ==> b.n in Nodes(b);
  }

  lemma {:induction false} RotateLeftLinks(v: Links, root: Node?, p: Path, a: Tree, x: Node, cx: bool, b: Tree,
                                           y: Node, cy: bool, c: Tree)
    requires Spells(v, root, Plug(p, Bin(a, x, cx, Bin(b, y, cy, c))))
    ensures CanRotateLeft(v, x) && v[x].right == y && v[x].parent == Above(p) && RotatedLeft(v, x).Keys == v.Keys
    ensures Spells(RotatedLeft(v, x), if p.Top? then y else root, Plug(p, Bin(Bin(a, x, cx, b), y, cy, c)))
  {
    LeftRotationSite(v, root, p, a, x, cx, b, y, cy, c);
    RotatedLeftCells(v, x);
    LeftRotationTree(v, root, RotatedLeft(v, x), p, a, x, cx, b, y, cy, c);
  }

  lemma {:induction false} LeftRotationTree(v: Links, root: Node?, w: Links, p: Path, a: Tree, x: Node, cx: bool,
                                            b: Tree, y: Node, cy: bool, c: Tree)
    requires Spells(v, root, Plug(p, Bin(a, x, cx, Bin(b, y, cy, c))))
    requires w.Keys == v.Keys && Agree(v, w, {x, y, Root(b), Above(p)})
    requires Holds(w, x, Cell(Root(a), Root(b), y, cx)) && Holds(w, y, Cell(x, Root(c), Above(p), cy))
    requires Reparented(v, w, b, x) && Redirected(v, w, p, x, y)
    ensures Spells(w, if p.Top? then y else root, Plug(p, Bin(Bin(a, x, cx, b), y, cy, c)))
  {
    var t := Bin(a, x, cx, Bin(b, y, cy, c));
    Look(v, root, p, t);
    RotationKeepsApart(p, a, x, cx, b, y, cy, c);
    RotationParts(p, a, x, cx, b, y, cy, c);
    var touched := {x, y, Root(b), Above(p)};
    assert Linked(v, t.r, x);
    Frame(v, w, touched, a, x);
    Frame(v, w, touched, c, y);
    Reparent(v, w, touched, b, y, x);
    assert Linked(w, Bin(a, x, cx, b), y);
    Rehang(v, w, touched, p, x, y);
    Assemble(w, p, Bin(Bin(a, x, cx, b), y, cy, c));
  }

  // ---- the mirror image

  ghost predicate CanRotateRight(v: Links, y: Node) {
    && y in v && v[y].left in v
    && Child(v, v[v[y].left].right) && Child(v, v[y].parent)
    && RotationNodes(y, v[y].left, v[v[y].left].right, v[y].parent)
  }

  // The assignments of RB_ROTATE_RIGHT in the order it makes them.
  ghost function RotatedRight(v: Links, y: Node): Links
    requires CanRotateRight(v, y)
  {
    var x, b, q := v[y].left, v[v[y].left].right, v[y].parent;
    var v := v[y := v[y].(left := b)];
    var v := Adopted(v, b, y);
    var v := v[x := v[x].(parent := q)];
    var v := Rehung(v, q, y, x);
    var v := v[x := v[x].(right := y)];
    v[y := v[y].(parent := x)]
  }

  lemma {:induction false} RotatedRightCells(v: Links, y: Node)
    requires CanRotateRight(v, y)
    ensures var x, b, q, w := v[y].left, v[v[y].left].right, v[y].parent, RotatedRight(v, y);
      && w.Keys == v.Keys && Agree(v, w, {x, y, b, q})
      && Holds(w, y, v[y].(left := b, parent := x))
      && Holds(w, x, v[x].(right := y, parent := q))
      && (b != null ==> Holds(w, b, v[b].(parent := y)))
      && (q != null ==> Holds(w, q, Redirect(v[q], y, x)))
  {
  }

  lemma {:induction false} RightRotationSite(v: Links, root: Node?, p: Path, a: Tree, x: Node, cx: bool, b: Tree,
                                             y: Node, cy: bool, c: Tree)
    requires Spells(v, root, Plug(p, Bin(Bin(a, x, cx, b), y, cy, c)))
    ensures Holds(v, y, Cell(x, Root(c), Above(p), cy)) && Holds(v, x, Cell(Root(a), Root(b), y, cx))
    ensures Child(v, Root(b)) && Child(v, Above(p))
    ensures RotationNodes(y, x, Root(b), Above(p))
  {
    var t := Bin(Bin(a, x, cx, b), y, cy, c);
    Look(v, root, p, t);
    assert Linked(v, t.l, y);
    RotationKeepsApart(p, a, x, cx, b, y, cy, c);
    RotationParts(p, a, x, cx, b, y, cy, c);
    assert b.Bin? ==> b.n in Nodes(b);
  }

  lemma {:induction false} RightRotationTree(v: Links, root: Node?, w: Links, p: Path, a: Tree, x: Node, cx: bool,
                                             b: Tree, y: Node, cy: bool, c: Tree)
    requires Spells(v, root, Plug(p, Bin(Bin(a, x, cx, b), y, cy, c)))
    requires w.Keys == v.Keys && Agree(v, w, {x, y, Root(b), Above(p)})
    requires Holds(w, y, Cell(Root(b), Root(c), x, cy)) && Holds(w, x, Cell(Root(a), y, Above(p), cx))
    requires Reparented(v, w, b, y) && Redirected(v, w, p, y, x)
    ensures Spells(w, if p.Top? then x else root, Plug(p, Bin(a, x, cx, Bin(b, y, cy, c))))
  {
    var t := Bin(Bin(a, x, cx, b), y, cy, c);
    Look(v, root, p, t);
    RotationKeepsApart(p, a, x, cx, b, y, cy, c);
    RotationParts(p, a, x, cx, b, y, cy, c);
    var touched := {x, y, Root(b), Above(p)};
    assert Linked(v, t.l, y);
    Frame(v, w, touched, a, x);
    Frame(v, w, touched, c, y);
    Reparent(v, w, touched, b, x, y);
    assert Linked(w, Bin(b, y, cy, c), x);
    Rehang(v, w, touched, p, y, x);
    Assemble(w, p, Bin(a, x, cx, Bin(b, y, cy, c)));
  }

  lemma {:induction false} RotateRightLinks(v: Links, root: Node?, p: Path, a: Tree, x: Node, cx: bool, b: Tree,
                                            y: Node, cy: bool, c: Tree)
    requires Spells(v, root, Plug(p, Bin(Bin(a, x, cx, b), y, cy, c)))
    ensures CanRotateRight(v, y) && v[y].left == x && v[y].parent == Above(p) && RotatedRight(v, y).Keys == v.Keys
    ensures Spells(RotatedRight(v, y), if p.Top? then x else root, Plug(p, Bin(a, x, cx, Bin(b, y, cy, c))))
  {
    RightRotationSite(v, root, p, a, x, cx, b, y, cy, c);
    RotatedRightCells(v, y);
    RightRotationTree(v, root, RotatedRight(v, y), p, a, x, cx, b, y, cy, c);
  }

  // ---- recolouring, adding and removing a node

  lemma {:induction false} PaintLinks(v: Links, root: Node?, p: Path, t: Tree, red: bool)
    requires Spells(v, root, Plug(p, t)) && t.Bin?
    ensures t.n in v && Spells(v[t.n := v[t.n].(red := red)], root, Plug(p, t.(red := red)))
  {
    Look(v, root, p, t);
    var w := v[t.n := v[t.n].(red := red)];
    Frame(v, w, {t.n}, t.l, t.n);
    Frame(v, w, {t.n}, t.r, t.n);
    PathFrame(v, w, {t.n}, p, t.n);
    Assemble(w, p, t.(red := red));
  }

  // RB_SET and the two assignments after it: a new red node below `parent`.
  ghost function Grown(v: Links, n: Node, parent: Node?, left: bool): Links
    requires Child(v, parent)
  {
    var v := v[n := Cell(null, null, parent, true)];
    if parent == null then v
    else v[parent := if left then v[parent].(left := n) else v[parent].(right := n)]
  }

  lemma {:induction false} GrowLinks(v: Links, root: Node?, p: Path, n: Node)
    requires Spells(v, root, Plug(p, Leaf)) && n !in v
    ensures Child(v, Above(p)) && Grown(v, n, Above(p), p.InLeft?).Keys == v.Keys + {n}
    ensures Spells(Grown(v, n, Above(p), p.InLeft?), if p.Top? then n else root, Plug(p, Bin(Leaf, n, true, Leaf)))
  {
    Look(v, root, p, Leaf);
    var w := Grown(v, n, Above(p), p.InLeft?);
    if !p.Top? {
      Frame(v, w, {Above(p)}, Sibling(p), p.n);
      PathFrame(v, w, {Above(p)}, p.up, p.n);
    }
    Assemble(w, p, Bin(Leaf, n, true, Leaf));
  }

  // A node with at most one child gives way to that child.
  ghost function Spliced(v: Links, n: Node, child: Node?, parent: Node?): Links
    requires Child(v, child) && Child(v, parent)
  {
    Rehung(Adopted(v, child, parent), parent, n, child) - {n}
  }

  lemma {:induction false} SplicedCells(v: Links, n: Node, child: Node?, parent: Node?)
    requires n in v && Child(v, child) && Child(v, parent) && n != child && n != parent && (child != null ==> child != parent)
    ensures var w := Spliced(v, n, child, parent);
      && w.Keys == v.Keys - {n} && Agree(v, w, {n, child, parent})
      && (child != null ==> Holds(w, child, v[child].(parent := parent)))
      && (parent != null ==> Holds(w, parent, Redirect(v[parent], n, child)))
  {
  }

  lemma {:induction false} SpliceTree(v: Links, root: Node?, w: Links, p: Path, t: Tree, c: Tree)
    requires Spells(v, root, Plug(p, t)) && t.Bin?
    requires (t.l.Leaf? && c == t.r) || (t.r.Leaf? && c == t.l)
    requires w.Keys == v.Keys - {t.n} && Agree(v, w, {t.n, Root(c), Above(p)})
    requires Reparented(v, w, c, Above(p)) && Redirected(v, w, p, t.n, Root(c))
    ensures Spells(w, if p.Top? then Root(c) else root, Plug(p, c))
  {
    hide PathNodes, PathLinked, Linked, PathDistinct;
    Look(v, root, p, t);
    ChildParts(p, t);
    var touched := {t.n, Root(c), Above(p)};
    Reparent(v, w, touched, c, t.n, Above(p));
    Rehang(v, w, touched, p, t.n, Root(c));
    assert Nodes(t) == Nodes(c) + {t.n};
    Assemble(w, p, c);
  }

  lemma {:induction false} SpliceLinks(v: Links, root: Node?, p: Path, t: Tree, c: Tree)
    requires Spells(v, root, Plug(p, t)) && t.Bin?
    requires (t.l.Leaf? && c == t.r) || (t.r.Leaf? && c == t.l)
    ensures Holds(v, t.n, Cell(Root(t.l), Root(t.r), Above(p), t.red)) && Child(v, Root(c)) && Child(v, Above(p))
    ensures t.n != Root(c) && t.n != Above(p) && Spliced(v, t.n, Root(c), Above(p)).Keys == v.Keys - {t.n}
    ensures Spells(Spliced(v, t.n, Root(c), Above(p)), if p.Top? then Root(c) else root, Plug(p, c))
  {
    Look(v, root, p, t);
    ChildParts(p, t);
    SplicedCells(v, t.n, Root(c), Above(p));
    SpliceTree(v, root, Spliced(v, t.n, Root(c), Above(p)), p, t, c);
  }

  lemma {:induction false} ChildParts(p: Path, t: Tree)
    requires Apart(p, t) && t.Bin?
    ensures Distinct(t.l) && Distinct(t.r)
    ensures t.l.Bin? ==> t.l.n in Nodes(t) && t.l.n != t.n && t.l.n != Above(p) && t.l.n != Root(t.r)
    ensures t.r.Bin? ==> t.r.n in Nodes(t) && t.r.n != t.n && t.r.n != Above(p)
    ensures Above(p) != t.n
    ensures Avoids(Nodes(t.l), {t.n, Root(t.r), Above(p)}) && Avoids(Nodes(t.r), {t.n, Root(t.l), Above(p)})
    ensures Avoids(PathNodes(p), {t.n, Root(t.l), Root(t.r)})
  {
    assert t.l.Bin? ==> t.l.n in Nodes(t.l);
    assert t.r.Bin? ==> t.r.n in Nodes(t.r);
    assert !p.Top? ==> p.n in PathNodes(p);
  }

  // The node m, not in the tree, takes over the place and the fields of n.
  ghost function Substituted(v: Links, n: Node, m: Node): Links
    requires n in v && Child(v, v[n].parent) && Child(v, v[n].left) && Child(v, v[n].right)
  {
    var c := v[n];
    var v := v[m := c];
    var v := Rehung(v, c.parent, n, m);
    var v := Adopted(v, c.left, m);
    var v := Adopted(v, c.right, m);
    v - {n}
  }

  lemma {:induction false} SubstitutedCells(v: Links, n: Node, m: Node)
    requires n in v && m !in v && Child(v, v[n].parent) && Child(v, v[n].left) && Child(v, v[n].right)
    requires n !in {v[n].parent, v[n].left, v[n].right}
    requires v[n].left != null ==> v[n].left !in {v[n].parent, v[n].right}
    requires v[n].right != null ==> v[n].right != v[n].parent
    ensures var c, w := v[n], Substituted(v, n, m);
      && w.Keys == v.Keys - {n} + {m} && Agree(v, w, {n, c.left, c.right, c.parent}) && Holds(w, m, c)
      && (c.left != null ==> Holds(w, c.left, v[c.left].(parent := m)))
      && (c.right != null ==> Holds(w, c.right, v[c.right].(parent := m)))
      && (c.parent != null ==> Holds(w, c.parent, Redirect(v[c.parent], n, m)))
  {
  }

  lemma {:induction false} SubstituteTree(v: Links, root: Node?, w: Links, p: Path, t: Tree, m: Node)
    requires Spells(v, root, Plug(p, t)) && t.Bin? && m !in v
    requires w.Keys == v.Keys - {t.n} + {m} && Agree(v, w, {t.n, Root(t.l), Root(t.r), Above(p)})
    requires Holds(w, m, Cell(Root(t.l), Root(t.r), Above(p), t.red))
    requires Reparented(v, w, t.l, m) && Reparented(v, w, t.r, m) && Redirected(v, w, p, t.n, m)
    ensures Spells(w, if p.Top? then m else root, Plug(p, t.(n := m)))
  {
    hide PathNodes, PathLinked, Linked, PathDistinct;
    Look(v, root, p, t);
    var touched := {t.n, Root(t.l), Root(t.r), Above(p)};
    ChildParts(p, t);
    Reparent(v, w, touched, t.l, t.n, m);
    Reparent(v, w, touched, t.r, t.n, m);
    Rehang(v, w, touched, p, t.n, m);
    assert Nodes(t.(n := m)) == Nodes(t) - {t.n} + {m};
    Assemble(w, p, t.(n := m));
  }

  lemma {:induction false} SubstituteLinks(v: Links, root: Node?, p: Path, t: Tree, m: Node)
    requires Spells(v, root, Plug(p, t)) && t.Bin? && m !in v
    ensures Holds(v, t.n, Cell(Root(t.l), Root(t.r), Above(p), t.red))
    ensures Child(v, Root(t.l)) && Child(v, Root(t.r)) && Child(v, Above(p))
    ensures t.n !in {Above(p), Root(t.l), Root(t.r)} && Substituted(v, t.n, m).Keys == v.Keys - {t.n} + {m}
    ensures Spells(Substituted(v, t.n, m), if p.Top? then m else root, Plug(p, t.(n := m)))
  {
    Look(v, root, p, t);
    ChildParts(p, t);
    SubstitutedCells(v, t.n, m);
    SubstituteTree(v, root, Substituted(v, t.n, m), p, t, m);
  }

  // The successor s.n of t.n, deep in t.r: where its parent pointer leads.
  lemma {:induction false} SuccessorSite(v: Links, root: Node?, p: Path, t: Tree, q: Path, s: Tree)
    requires Spells(v, root, Plug(p, t)) && t.Bin? && t.r == Plug(q, s) && s.Bin?
    ensures var base := InRight(t.l, t.n, t.red, p);
      && Plug(Append(q, base), s) == Plug(p, t)
      && Plug(Append(q, base), s.r) == Plug(p, t.(r := Plug(q, s.r)))
      && Above(Append(q, base)) == (if q.Top? then t.n else q.n)
    ensures Holds(v, s.n, Cell(Root(s.l), Root(s.r), if q.Top? then t.n else q.n, s.red))
    ensures s.n != t.n && (!q.Top? ==> q.n != t.n)
  {
    var base := InRight(t.l, t.n, t.red, p);
    PlugAppend(q, base, s);
    PlugAppend(q, base, s.r);
    Look(v, root, p, t);
    Look(v, root, Append(q, base), s);
    PlugNodes(q, s);
    assert s.n in Nodes(t.r) && (!q.Top? ==> q.n in Nodes(t.r));
  }
}
