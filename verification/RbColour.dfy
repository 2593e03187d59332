// The colour laws of a red-black tree, at every position of the two fix-up
// loops of include/tree.h, and the height they bound.
module RbColour {
  import opened Elements
  import opened Logarithms
  import opened RbShape

  ghost predicate IsRed(t: Tree) { t.Bin? && t.red }

  ghost predicate NoRedRed(t: Tree) {
    t.Bin? ==> (t.red ==> !IsRed(t.l) && !IsRed(t.r)) && NoRedRed(t.l) && NoRedRed(t.r)
  }

  // Black nodes on the leftmost search path.
  ghost function Blacks(t: Tree): nat {
    if t.Leaf? then 0 else Blacks(t.l) + if t.red then 0 else 1
  }

  // Every search path below a node meets the same number of black nodes.
  ghost predicate Balanced(t: Tree) {
    t.Bin? ==> Blacks(t.l) == Blacks(t.r) && Balanced(t.l) && Balanced(t.r)
  }

  ghost predicate RedBlack(t: Tree) {
    !IsRed(t) && NoRedRed(t) && Balanced(t)
  }

  ghost predicate RedAbove(p: Path) { !p.Top? && p.red }

  ghost predicate PathNoRedRed(p: Path) {
    !p.Top? ==>
      && (p.red ==> !IsRed(Sibling(p)) && !RedAbove(p.up))
      && NoRedRed(Sibling(p)) && PathNoRedRed(p.up)
  }

  // Filling the hole with a balanced tree of h blacks balances the whole tree.
  ghost predicate PathBalanced(p: Path, h: nat) {
    !p.Top? ==>
      && Balanced(Sibling(p)) && Blacks(Sibling(p)) == h
      && PathBalanced(p.up, h + if p.red then 0 else 1)
  }

  // The state of RB_INSERT_COLOR: lawful but for a red subtree in the hole.
  ghost predicate RedInHole(p: Path, t: Tree) {
    && IsRed(t) && NoRedRed(t) && Balanced(t)
    && PathNoRedRed(p) && PathBalanced(p, Blacks(t)) && RootBlack(p)
  }

  ghost predicate RootBlack(p: Path) {
    !p.Top? ==> (if p.up.Top? then !p.red else RootBlack(p.up))
  }

  ghost function Length(p: Path): nat {
    if p.Top? then 0 else 1 + Length(p.up)
  }

  lemma {:induction false} PlugRedBlack(p: Path, t: Tree)
    requires NoRedRed(t) && Balanced(t)
    requires PathNoRedRed(p) && PathBalanced(p, Blacks(t))
    requires IsRed(t) ==> !RedAbove(p)
    requires if p.Top? then !IsRed(t) else RootBlack(p)
    ensures RedBlack(Plug(p, t))
    decreases p
  {
    match p
    case Top =>
    case InLeft(n, red, r, up) => PlugRedBlack(up, Bin(t, n, red, r));
    case InRight(l, n, red, up) => PlugRedBlack(up, Bin(l, n, red, t));
  }

  // The converse: a position in a red-black tree has the laws the loops start from.
  lemma {:induction false} UnplugRedBlack(p: Path, t: Tree)
    requires RedBlack(Plug(p, t))
    ensures NoRedRed(t) && Balanced(t)
    ensures PathNoRedRed(p) && PathBalanced(p, Blacks(t))
    ensures IsRed(t) ==> !RedAbove(p)
    ensures if p.Top? then !IsRed(t) else RootBlack(p)
    decreases p
  {
    match p
    case Top =>
    case InLeft(n, red, r, up) => UnplugRedBlack(up, Bin(t, n, red, r));
    case InRight(l, n, red, up) => UnplugRedBlack(up, Bin(l, n, red, t));
  }

  // The grandparent's subtree after the recolouring of RB_INSERT_COLOR.
  ghost function Recoloured(p: Path, t: Tree): Tree
    requires !p.Top? && !p.up.Top? && Sibling(p.up).Bin?
  {
    var s := if p.InLeft? then Bin(t, p.n, false, p.r) else Bin(p.l, p.n, false, t);
    var u := Sibling(p.up).(red := false);
    if p.up.InLeft? then Bin(s, p.up.n, true, u) else Bin(u, p.up.n, true, s)
  }

  lemma {:induction false} GrandparentBlack(p: Path, t: Tree)
    requires RedInHole(p, t) && RedAbove(p)
    ensures !p.up.Top? && !p.up.red
  {
  }

  lemma {:induction false} UncleRed(p: Path, t: Tree)
    requires RedInHole(p, t) && RedAbove(p) && !p.up.Top? && IsRed(Sibling(p.up))
    ensures RedInHole(p.up.up, Recoloured(p, t))
  {
    var s := if p.InLeft? then Bin(t, p.n, false, p.r) else Bin(p.l, p.n, false, t);
    var u := Sibling(p.up);
    assert PathNoRedRed(p.up) && PathBalanced(p.up, Blacks(t));
    assert NoRedRed(s) && Balanced(s) && Blacks(s) == Blacks(t) + 1;
    assert Balanced(u) && Blacks(u) == Blacks(t);
    assert var u' := Bin(u.l, u.n, false, u.r); NoRedRed(u') && Balanced(u') && Blacks(u') == Blacks(t) + 1;
    assert RootBlack(p.up);
  }

  lemma {:induction false} InnerLeft(s: Tree, n: Node, pp: Path, t: Tree)
    requires RedInHole(InRight(s, n, true, pp), t) && !pp.Top?
    ensures RedInHole(InLeft(t.n, true, t.r, pp), Bin(s, n, true, t.l))
  {
    var p' := InLeft(t.n, true, t.r, pp);
    assert Balanced(s) && Blacks(s) == Blacks(t) == Blacks(t.l) == Blacks(t.r);
    assert PathNoRedRed(p') && PathBalanced(p', Blacks(t)) && RootBlack(p');
  }

  lemma {:induction false} InnerRight(s: Tree, n: Node, pp: Path, t: Tree)
    requires RedInHole(InLeft(n, true, s, pp), t) && !pp.Top?
    ensures RedInHole(InRight(t.l, t.n, true, pp), Bin(t.r, n, true, s))
  {
    var p' := InRight(t.l, t.n, true, pp);
    assert Balanced(s) && Blacks(s) == Blacks(t) == Blacks(t.l) == Blacks(t.r);
    assert PathNoRedRed(p') && PathBalanced(p', Blacks(t)) && RootBlack(p');
  }

  lemma {:induction false} OuterLeft(n: Node, s: Tree, g: Node, u: Tree, up: Path, t: Tree)
    requires RedInHole(InLeft(n, true, s, InLeft(g, false, u, up)), t) && !IsRed(u)
    ensures RedInHole(InLeft(n, false, Bin(s, g, true, u), up), t)
  {
    assert PathBalanced(InLeft(g, false, u, up), Blacks(t));
    assert PathNoRedRed(InLeft(g, false, u, up)) && RootBlack(InLeft(g, false, u, up));
  }

  lemma {:induction false} OuterRight(n: Node, s: Tree, g: Node, u: Tree, up: Path, t: Tree)
    requires RedInHole(InRight(s, n, true, InRight(u, g, false, up)), t) && !IsRed(u)
    ensures RedInHole(InRight(Bin(u, g, true, s), n, false, up), t)
  {
    assert PathBalanced(InRight(u, g, false, up), Blacks(t));
    assert PathNoRedRed(InRight(u, g, false, up)) && RootBlack(InRight(u, g, false, up));
  }

  // Hanging a red leaf where the search for its key ended.
  lemma {:induction false} InsertLeaf(p: Path, n: Node)
    requires RedBlack(Plug(p, Leaf)) && Ordered(Inorder(Plug(p, Leaf))) && Searching(p, n.key)
    ensures RedInHole(p, Bin(Leaf, n, true, Leaf))
    ensures Inorder(Plug(p, Bin(Leaf, n, true, Leaf))) == With(Inorder(Plug(p, Leaf)), n)
    ensures Ordered(With(Inorder(Plug(p, Leaf)), n))
    ensures forall m | m in Inorder(Plug(p, Leaf)) :: m.key != n.key
  {
    UnplugRedBlack(p, Leaf);
    AroundHole(p);
    InorderPlug(p, Bin(Leaf, n, true, Leaf));
    WithBetween(Before(p), n, After(p));
    OrderedWith(Before(p), n, After(p));
  }

  lemma {:induction false} AroundHole(p: Path)
    ensures Inorder(Plug(p, Leaf)) == Before(p) + After(p)
  {
    InorderPlug(p, Leaf);
    assert Before(p) + [] + After(p) == Before(p) + After(p);
  }

  // Blackening the root ends an insertion whose red node met no red parent.
  lemma {:induction false} BlackenRoot(p: Path, t: Tree)
    requires RedInHole(p, t) && !RedAbove(p)
    ensures Plug(p, t).Bin? && RedBlack(Plug(p, t).(red := false))
  {
    match p
    case Top =>
    case InLeft(n, red, r, up) => PlugRedBlack(p, t); PlugBin(p, t);
    case InRight(l, n, red, up) => PlugRedBlack(p, t); PlugBin(p, t);
  }

  lemma {:induction false} PlugBin(p: Path, t: Tree)
    requires t.Bin?
    ensures Plug(p, t).Bin?
    decreases p
  {
    match p
    case Top =>
    case InLeft(n, red, r, up) => PlugBin(up, Bin(t, n, red, r));
    case InRight(l, n, red, up) => PlugBin(up, Bin(l, n, red, t));
  }

  ghost function Blackened(t: Tree): Tree {
    if t.Leaf? then t else t.(red := false)
  }

  // The state of RB_REMOVE_COLOR: the hole's subtree is one black short.
  ghost predicate BlackMissing(p: Path, t: Tree) {
    && NoRedRed(Blackened(t)) && Balanced(t)
    && PathNoRedRed(p) && PathBalanced(p, Blacks(t) + 1) && RootBlack(p)
  }

  lemma {:induction false} Settled(p: Path, t: Tree)
    requires BlackMissing(p, t) && (IsRed(t) || p.Top?)
    ensures RedBlack(Plug(p, Blackened(t)))
  {
    assert t.Bin? ==> Blacks(Blackened(t)) == Blacks(t.l) + 1;
    PlugRedBlack(p, Blackened(t));
  }

  // The sibling that RB_REMOVE_COLOR reads is never NULL.
  lemma {:induction false} SiblingExists(p: Path, t: Tree)
    requires BlackMissing(p, t) && !p.Top?
    ensures Sibling(p).Bin? && Balanced(Sibling(p)) && NoRedRed(Sibling(p))
    ensures IsRed(Sibling(p)) ==> !p.red && Sibling(p).l.Bin? && Sibling(p).r.Bin? && !IsRed(Sibling(p).l) && !IsRed(Sibling(p).r)
  {
  }

  lemma {:induction false} SiblingRedLeft(p: Path, t: Tree)
    requires BlackMissing(p, t) && p.InLeft? && IsRed(p.r)
    ensures BlackMissing(InLeft(p.n, true, p.r.l, InLeft(p.r.n, false, p.r.r, p.up)), t)
  {
    SiblingExists(p, t);
    var q := InLeft(p.r.n, false, p.r.r, p.up);
    assert PathNoRedRed(q) && RootBlack(q) && PathBalanced(q, Blacks(t) + 1);
  }

  lemma {:induction false} SiblingRedRight(p: Path, t: Tree)
    requires BlackMissing(p, t) && p.InRight? && IsRed(p.l)
    ensures BlackMissing(InRight(p.l.r, p.n, true, InRight(p.l.l, p.l.n, false, p.up)), t)
  {
    SiblingExists(p, t);
    var q := InRight(p.l.l, p.l.n, false, p.up);
    assert PathNoRedRed(q) && RootBlack(q) && PathBalanced(q, Blacks(t) + 1);
  }

  // Both nephews black: the shortage moves up one level.
  lemma {:induction false} PushUp(p: Path, t: Tree)
    requires BlackMissing(p, t) && !p.Top? && !IsRed(t)
    requires var s := Sibling(p); s.Bin? && !s.red && !IsRed(s.l) && !IsRed(s.r)
    ensures var s := Sibling(p).(red := true);
      BlackMissing(p.up, if p.InLeft? then Bin(t, p.n, p.red, s) else Bin(s, p.n, p.red, t))
  {
    var s := Sibling(p);
    var s' := Bin(s.l, s.n, true, s.r);
    assert NoRedRed(s') && Balanced(s') && Blacks(s') == Blacks(t);
  }

  // The far nephew red: one rotation settles the shortage.
  lemma {:induction false} FarRedLeft(p: Path, t: Tree)
    requires BlackMissing(p, t) && p.InLeft? && !IsRed(t) && p.r.Bin? && !p.r.red && IsRed(p.r.r)
    ensures RedBlack(Plug(p.up, Bin(Bin(t, p.n, false, p.r.l), p.r.n, p.red, p.r.r.(red := false))))
  {
    var s := p.r;
    var f := Bin(s.r.l, s.r.n, false, s.r.r);
    var a := Bin(t, p.n, false, s.l);
    assert Balanced(s) && NoRedRed(s) && Balanced(s.r) && NoRedRed(s.r);
    assert Balanced(f) && NoRedRed(f) && Blacks(f) == Blacks(t) + 1;
    assert Balanced(a) && NoRedRed(a) && Blacks(a) == Blacks(t) + 1;
    PlugRedBlack(p.up, Bin(a, s.n, p.red, f));
  }

  lemma {:induction false} FarRedRight(p: Path, t: Tree)
    requires BlackMissing(p, t) && p.InRight? && !IsRed(t) && p.l.Bin? && !p.l.red && IsRed(p.l.l)
    ensures RedBlack(Plug(p.up, Bin(p.l.l.(red := false), p.l.n, p.red, Bin(p.l.r, p.n, false, t))))
  {
    var s := p.l;
    var f := Bin(s.l.l, s.l.n, false, s.l.r);
    var a := Bin(s.r, p.n, false, t);
    assert Balanced(s) && NoRedRed(s) && Balanced(s.l) && NoRedRed(s.l);
    assert Balanced(f) && NoRedRed(f) && Blacks(f) == Blacks(t) + 1;
    assert Balanced(a) && NoRedRed(a) && Blacks(a) == Blacks(t) + 1;
    PlugRedBlack(p.up, Bin(f, s.n, p.red, a));
  }

  // Only the near nephew red: a rotation below makes the far one red.
  lemma {:induction false} NearRedLeft(p: Path, t: Tree)
    requires BlackMissing(p, t) && p.InLeft? && p.r.Bin? && !p.r.red && IsRed(p.r.l) && !IsRed(p.r.r)
    ensures var s := p.r; BlackMissing(p.(r := Bin(s.l.l, s.l.n, false, Bin(s.l.r, s.n, true, s.r))), t)
  {
    var s := p.r;
    assert Balanced(s) && NoRedRed(s) && Balanced(s.l) && NoRedRed(s.l);
    var b := Bin(s.l.r, s.n, true, s.r);
    assert Balanced(b) && NoRedRed(b) && Blacks(b) == Blacks(t);
  }

  lemma {:induction false} NearRedRight(p: Path, t: Tree)
    requires BlackMissing(p, t) && p.InRight? && p.l.Bin? && !p.l.red && IsRed(p.l.r) && !IsRed(p.l.l)
    ensures var s := p.l; BlackMissing(p.(l := Bin(Bin(s.l, s.n, true, s.r.l), s.r.n, false, s.r.r)), t)
  {
    var s := p.l;
    assert Balanced(s) && NoRedRed(s) && Balanced(s.r) && NoRedRed(s.r);
    var b := Bin(s.l, s.n, true, s.r.l);
    assert Balanced(b) && NoRedRed(b) && Blacks(b) == Blacks(t);
  }

  // Splicing out a red node costs nothing; a black one leaves a shortage.
  lemma {:induction false} SpliceColours(p: Path, t: Tree, c: Tree)
    requires t.Bin? && ((t.l.Leaf? && c == t.r) || (t.r.Leaf? && c == t.l))
    requires RedBlack(Plug(p, t))
    ensures if t.red then RedBlack(Plug(p, c)) else BlackMissing(p, c)
  {
    UnplugRedBlack(p, t);
    assert Blacks(c) == 0;
    if t.red { PlugRedBlack(p, c); }
  }

  // The colours along a path do not depend on which node sits at its frames.
  lemma {:induction false} SamePathColours(q: Path, l: Tree, n: Node, m: Node, red: bool, p: Path, h: nat)
    ensures var a, b := Append(q, InRight(l, n, red, p)), Append(q, InRight(l, m, red, p));
      && PathNoRedRed(a) == PathNoRedRed(b) && PathBalanced(a, h) == PathBalanced(b, h)
      && RootBlack(a) == RootBlack(b) && RedAbove(a) == RedAbove(b)
    decreases q
  {
    match q
    case Top =>
    case InLeft(_, c, _, up) => SamePathColours(up, l, n, m, red, p, h + if c then 0 else 1);
    case InRight(_, _, c, up) => SamePathColours(up, l, n, m, red, p, h + if c then 0 else 1);
  }

  // The two steps of RB_REMOVE on a node with two children: s, leftmost below
  // t.r, is spliced out there and its node moved to the root of t.
  lemma {:induction false} SuccessorColours(p: Path, t: Tree, q: Path, s: Tree)
    requires t.Bin? && t.r == Plug(q, s) && s.Bin? && s.l.Leaf? && RedBlack(Plug(p, t))
    ensures var t' := Bin(t.l, s.n, t.red, Plug(q, s.r));
      if s.red then RedBlack(Plug(p, t')) else BlackMissing(Append(q, InRight(t.l, s.n, t.red, p)), s.r)
  {
    var a, b := InRight(t.l, t.n, t.red, p), InRight(t.l, s.n, t.red, p);
    PlugAppend(q, a, s);
    PlugAppend(q, a, s.r);
    PlugAppend(q, b, s.r);
    SpliceColours(Append(q, a), s, s.r);
    if s.red {
      UnplugRedBlack(p, Bin(t.l, t.n, t.red, Plug(q, s.r)));
      PlugRedBlack(p, Bin(t.l, s.n, t.red, Plug(q, s.r)));
    } else {
      SamePathColours(q, t.l, t.n, s.n, t.red, p, Blacks(s.r) + 1);
    }
  }

  // ---- height (include/tree.h:54-55)

  ghost function Height(t: Tree): nat {
    if t.Leaf? then 0
    else 1 + if Height(t.l) < Height(t.r) then Height(t.r) else Height(t.l)
  }

  ghost function Size(t: Tree): nat { |Inorder(t)| }

  lemma {:induction false} BlacksBoundSize(t: Tree)
    requires Balanced(t)
    ensures Pow2(Blacks(t)) <= Size(t) + 1
  {
    if t.Bin? {
      BlacksBoundSize(t.l);
      BlacksBoundSize(t.r);
      assert Size(t) == Size(t.l) + 1 + Size(t.r);
    }
  }

  lemma {:induction false} BlacksBoundHeight(t: Tree)
    requires Balanced(t) && NoRedRed(t)
    ensures Height(t) <= 2 * Blacks(t) + if IsRed(t) then 1 else 0
  {
    if t.Bin? {
      BlacksBoundHeight(t.l);
      BlacksBoundHeight(t.r);
    }
  }

  // height <= 2 lg (n + 1), written without logarithms: 2^height <= (n + 1)^2
  lemma {:induction false} HeightBound(t: Tree)
    requires RedBlack(t)
    ensures Pow2(Height(t)) <= (Size(t) + 1) * (Size(t) + 1)
  {
    BlacksBoundHeight(t);
    BlacksBoundSize(t);
    Pow2Monotone(Height(t), 2 * Blacks(t));
    Pow2Sum(Blacks(t), Blacks(t));
    Product(Pow2(Blacks(t)), Size(t) + 1, Pow2(Blacks(t)), Size(t) + 1);
  }

  // ---- how many turns a loop can take

  lemma {:induction false} HeightPlug(p: Path, t: Tree)
    ensures Length(p) + Height(t) <= Height(Plug(p, t))
    decreases p
  {
    match p
    case Top =>
    case InLeft(n, red, r, up) => HeightPlug(up, Bin(t, n, red, r));
    case InRight(l, n, red, up) => HeightPlug(up, Bin(l, n, red, t));
  }

  lemma {:induction false} LengthAppend(q: Path, base: Path)
    ensures Length(Append(q, base)) == Length(q) + Length(base)
    decreases q
  {
    if !q.Top? { LengthAppend(q.up, base); }
  }

  // As many turns as the tree is high, or twice as many.
  lemma {:induction false} Logarithmic(t: Tree, turns: nat)
    requires RedBlack(t)
    ensures turns <= Height(t) ==> WithinLogs(turns, 2, Size(t))
    ensures turns <= 2 * Height(t) ==> WithinLogs(turns, 4, Size(t))
  {
    var m, h := Size(t) + 1, Pow2(Height(t));
    HeightBound(t);
    SmallPowers(m);
    if turns <= Height(t) { Pow2Monotone(turns, Height(t)); }
    if turns <= 2 * Height(t) {
      Pow2Monotone(turns, 2 * Height(t));
      Pow2Sum(Height(t), Height(t));
      Product(h, m * m, h, m * m);
    }
  }
}
