module RbTree {
  import opened Elements
  import opened Logarithms
  import opened RbShape
  import opened RbColour
  import opened RbLinks

  class RedBlackTree {
    var root: Node?
    ghost var links: Links   // the fields of every node in the tree
    ghost var shape: Tree    // the tree they spell

    ghost predicate Mirrored()
      reads this, links.Keys
    {
      forall n | n in links ::
        n.left == links[n].left && n.right == links[n].right && n.parent == links[n].parent && n.red == links[n].red
    }

    ghost predicate Spelled()
      reads this, links.Keys
    {
      Mirrored() && Spells(links, root, shape)
    }

    ghost predicate Valid()
      reads this, links.Keys
    {
      Spelled() && RedBlack(shape) && Ordered(Inorder(shape))
    }

    ghost function Contents(): seq<Node>
      reads this
    {
      Inorder(shape)
    }

    // RB_INIT
    constructor ()
      ensures Valid() && Contents() == [] && links == map[]
    {
      root, links, shape := null, map[], Leaf;
    }

    // ---- RB_LEFT(n) = m and its kin: every pointer and colour write of the
    // header goes through one of these four assignments.

    method SetLeft(n: Node, m: Node?)
      requires Mirrored() && n in links
      modifies `links, n
      ensures root == old(root) && shape == old(shape)
      ensures Mirrored() && links == old(links)[n := old(links[n]).(left := m)]
    {
      n.left := m;
      links := links[n := links[n].(left := m)];
    }

    method SetRight(n: Node, m: Node?)
      requires Mirrored() && n in links
      modifies `links, n
      ensures root == old(root) && shape == old(shape)
      ensures Mirrored() && links == old(links)[n := old(links[n]).(right := m)]
    {
      n.right := m;
      links := links[n := links[n].(right := m)];
    }

    method SetParent(n: Node, m: Node?)
      requires Mirrored() && n in links
      modifies `links, n
      ensures root == old(root) && shape == old(shape)
      ensures Mirrored() && links == old(links)[n := old(links[n]).(parent := m)]
    {
      n.parent := m;
      links := links[n := links[n].(parent := m)];
    }

    method SetRed(n: Node, red: bool)
      requires Mirrored() && n in links
      modifies `links, n
      ensures root == old(root) && shape == old(shape)
      ensures Mirrored() && links == old(links)[n := old(links[n]).(red := red)]
    {
      n.red := red;
      links := links[n := links[n].(red := red)];
    }

    // RB_PARENT(child) = parent for a child that may be NULL.
    method Adopt(child: Node?, parent: Node?)
      requires Mirrored() && Child(links, child)
      modifies `links, if child == null then {} else {child}
      ensures Mirrored()
      ensures root == old(root) && shape == old(shape) && links == Adopted(old(links), child, parent)
    {
      if child != null {
        SetParent(child, parent);
      }
    }

    // Makes `to` the child of `parent` that `from` was, or the root.
    method ReplaceChild(parent: Node?, from: Node?, to: Node?)
      requires Mirrored() && Child(links, parent)
      modifies `links, `root, if parent == null then {} else {parent}
      ensures Mirrored()
      ensures shape == old(shape) && links == Rehung(old(links), parent, from, to)
      ensures root == if parent == null then to else old(root)
    {
      if parent != null {
        if from == parent.left {
          SetLeft(parent, to);
        } else {
          SetRight(parent, to);
        }
      } else {
        root := to;
      }
    }

    // RB_ROTATE_LEFT, field by field.
    method RotateLeftFields(elm: Node) returns (tmp: Node)
      requires Mirrored() && CanRotateLeft(links, elm)
      modifies this, links.Keys
      ensures Mirrored() && shape == old(shape) && tmp == old(links[elm].right)
      ensures links == RotatedLeft(old(links), elm)
      ensures root == if old(links[elm].parent) == null then tmp else old(root)
    {
      tmp := elm.right;
      ghost var v := links;
      SetRight(elm, tmp.left);
      Adopt(tmp.left, elm);
      SetParent(tmp, elm.parent);
      ReplaceChild(elm.parent, elm, tmp);
      SetLeft(tmp, elm);
      SetParent(elm, tmp);
    }

    method RotateLeft(elm: Node, ghost p: Path, ghost a: Tree, ghost cx: bool, ghost b: Tree, ghost y: Node,
                      ghost cy: bool, ghost c: Tree)
      returns (tmp: Node)
      requires Spelled() && shape == Plug(p, Bin(a, elm, cx, Bin(b, y, cy, c)))
      modifies this, links.Keys
      ensures Spelled() && shape == Plug(p, Bin(Bin(a, elm, cx, b), y, cy, c))
      ensures tmp == y && links.Keys == old(links.Keys) && Contents() == old(Contents())
    {
      RotateLeftLinks(links, root, p, a, elm, cx, b, y, cy, c);
      RotationContents(p, a, elm, cx, b, y, cy, c);
      tmp := RotateLeftFields(elm);
      shape := Plug(p, Bin(Bin(a, elm, cx, b), y, cy, c));
    }

    // RB_ROTATE_RIGHT, field by field.
    method RotateRightFields(elm: Node) returns (tmp: Node)
      requires Mirrored() && CanRotateRight(links, elm)
      modifies this, links.Keys
      ensures Mirrored() && shape == old(shape) && tmp == old(links[elm].left)
      ensures links == RotatedRight(old(links), elm)
      ensures root == if old(links[elm].parent) == null then tmp else old(root)
    {
      tmp := elm.left;
      SetLeft(elm, tmp.right);
      Adopt(tmp.right, elm);
      SetParent(tmp, elm.parent);
      ReplaceChild(elm.parent, elm, tmp);
      SetRight(tmp, elm);
      SetParent(elm, tmp);
    }

    method RotateRight(elm: Node, ghost p: Path, ghost a: Tree, ghost x: Node, ghost cx: bool, ghost b: Tree,
                       ghost cy: bool, ghost c: Tree)
      returns (tmp: Node)
      requires Spelled() && shape == Plug(p, Bin(Bin(a, x, cx, b), elm, cy, c))
      modifies this, links.Keys
      ensures Spelled() && shape == Plug(p, Bin(a, x, cx, Bin(b, elm, cy, c)))
      ensures tmp == x && links.Keys == old(links.Keys) && Contents() == old(Contents())
    {
      RotateRightLinks(links, root, p, a, x, cx, b, elm, cy, c);
      RotationContents(p, a, x, cx, b, elm, cy, c);
      tmp := RotateRightFields(elm);
      shape := Plug(p, Bin(a, x, cx, Bin(b, elm, cy, c)));
    }

    // RB_COLOR(n) = red, for the node n at the root of t.
    method Paint(n: Node, red: bool, ghost p: Path, ghost t: Tree)
      requires Spelled() && shape == Plug(p, t) && t.Bin? && t.n == n
      modifies `links, `shape, n
      ensures Spelled() && shape == Plug(p, t.(red := red))
      ensures links.Keys == old(links.Keys) && Contents() == old(Contents())
    {
      PaintLinks(links, root, p, t, red);
      SameContents(p, t, t.(red := red));
      SetRed(n, red);
      shape := Plug(p, t.(red := red));
    }

    // One turn of the RB_INSERT_COLOR loop below a left-hand parent.
    method InsertColorLeft(elm: Node, parent: Node, gparent: Node, ghost p: Path, ghost t: Tree)
      returns (elm': Node, ghost p': Path, ghost t': Tree)
      requires Spelled() && shape == Plug(p, t) && RedInHole(p, t) && t.n == elm
      requires !p.Top? && p.red && p.n == parent && p.up.InLeft? && p.up.n == gparent
      modifies this, links.Keys
      ensures Spelled() && links.Keys == old(links.Keys) && Contents() == old(Contents())
      ensures shape == Plug(p', t') && RedInHole(p', t') && t'.n == elm' && Length(p') < Length(p)
    {
      Look(links, root, p, t);
      GrandparentBlack(p, t);
      elm', p', t' := elm, p, t;
      ghost var up, u := p.up.up, p.up.r;
      var tmp := gparent.right;
      if tmp != null && tmp.red {
        UncleRed(p, t);
        ghost var s := if p.InLeft? then Bin(t, parent, true, p.r) else Bin(p.l, parent, true, t);
        Paint(tmp, false, InRight(s, gparent, false, up), u);
        Paint(parent, false, InLeft(gparent, false, u.(red := false), up), s);
        Paint(gparent, true, up, Bin(s.(red := false), gparent, false, u.(red := false)));
        elm', p', t' := gparent, up, Recoloured(p, t);
        return;
      }
      var parent' := parent;
      if parent.right == elm {
        InnerLeft(p.l, parent, p.up, t);
        tmp := RotateLeft(parent, p.up, p.l, true, t.l, elm, true, t.r);
        parent', elm' := elm, parent;
        p', t' := InLeft(elm, true, t.r, p.up), Bin(p.l, parent, true, t.l);
      }
      OuterLeft(parent', p'.r, gparent, u, up, t');
      Paint(parent', false, p.up, Bin(t', parent', true, p'.r));
      Paint(gparent, true, up, Bin(Bin(t', parent', false, p'.r), gparent, false, u));
      tmp := RotateRight(gparent, up, t', parent', false, p'.r, true, u);
      p' := InLeft(parent', false, Bin(p'.r, gparent, true, u), up);
    }

    // One turn of the RB_INSERT_COLOR loop below a right-hand parent.
    method InsertColorRight(elm: Node, parent: Node, gparent: Node, ghost p: Path, ghost t: Tree)
      returns (elm': Node, ghost p': Path, ghost t': Tree)
      requires Spelled() && shape == Plug(p, t) && RedInHole(p, t) && t.n == elm
      requires !p.Top? && p.red && p.n == parent && p.up.InRight? && p.up.n == gparent
      modifies this, links.Keys
      ensures Spelled() && links.Keys == old(links.Keys) && Contents() == old(Contents())
      ensures shape == Plug(p', t') && RedInHole(p', t') && t'.n == elm' && Length(p') < Length(p)
    {
      Look(links, root, p, t);
      GrandparentBlack(p, t);
      elm', p', t' := elm, p, t;
      ghost var up, u := p.up.up, p.up.l;
      var tmp := gparent.left;
      if tmp != null && tmp.red {
        UncleRed(p, t);
        ghost var s := if p.InLeft? then Bin(t, parent, true, p.r) else Bin(p.l, parent, true, t);
        Paint(tmp, false, InLeft(gparent, false, s, up), u);
        Paint(parent, false, InRight(u.(red := false), gparent, false, up), s);
        Paint(gparent, true, up, Bin(u.(red := false), gparent, false, s.(red := false)));
        elm', p', t' := gparent, up, Recoloured(p, t);
        return;
      }
      var parent' := parent;
      if parent.left == elm {
        InnerRight(p.r, parent, p.up, t);
        tmp := RotateRight(parent, p.up, t.l, elm, true, t.r, true, p.r);
        parent', elm' := elm, parent;
        p', t' := InRight(t.l, elm, true, p.up), Bin(t.r, parent, true, p.r);
      }
      OuterRight(parent', p'.l, gparent, u, up, t');
      Paint(parent', false, p.up, Bin(p'.l, parent', true, t'));
      Paint(gparent, true, up, Bin(u, gparent, false, Bin(p'.l, parent', false, t')));
      tmp := RotateLeft(gparent, up, u, true, p'.l, parent', false, t');
      p' := InRight(Bin(u, gparent, true, p'.l), parent', false, up);
    }

    // RB_COLOR(root) = RB_BLACK
    method PaintRoot()
      requires Spelled() && shape.Bin? && RedBlack(shape.(red := false))
      modifies this, links.Keys
      ensures Spelled() && RedBlack(shape)
      ensures links.Keys == old(links.Keys) && Contents() == old(Contents())
    {
      Look(links, root, Top, shape);
      Paint(root, false, Top, shape);
    }

    // The body of the RB_INSERT_COLOR loop.
    method InsertColorStep(elm: Node, ghost p: Path, ghost t: Tree)
      returns (elm': Node, ghost p': Path, ghost t': Tree)
      requires Spelled() && shape == Plug(p, t) && RedInHole(p, t) && t.n == elm && RedAbove(p)
      modifies this, links.Keys
      ensures Spelled() && links.Keys == old(links.Keys) && Contents() == old(Contents())
      ensures shape == Plug(p', t') && RedInHole(p', t') && t'.n == elm' && Length(p') < Length(p)
      ensures elm' in links && elm'.parent == Above(p') && (!p'.Top? ==> p'.n.red == p'.red)
    {
      Look(links, root, p, t);
      GrandparentBlack(p, t);
      var parent := elm.parent;
      assert PathLinked(links, p.up, parent);
      var gparent := parent.parent;
      assert gparent == p.up.n;
      if parent == gparent.left {
        elm', p', t' := InsertColorLeft(elm, parent, gparent, p, t);
      } else {
        elm', p', t' := InsertColorRight(elm, parent, gparent, p, t);
      }
      Look(links, root, p', t');
    }

    method InsertColor(elm0: Node, ghost p0: Path, ghost t0: Tree) returns (ghost turns: nat)
      requires Spelled() && shape == Plug(p0, t0) && RedInHole(p0, t0) && t0.n == elm0
      modifies this, links.Keys
      ensures Spelled() && RedBlack(shape)
      ensures links.Keys == old(links.Keys) && Contents() == old(Contents())
      ensures turns <= Length(p0)
    {
      hide Inorder, NoRedRed, Balanced, Blacks, PathNoRedRed, PathBalanced, Nodes, PathNodes;
      turns := 0;
      var elm := elm0;
      ghost var p, t := p0, t0;
      Look(links, root, p, t);
      while elm.parent != null && elm.parent.red
        invariant Spelled() && shape == Plug(p, t) && RedInHole(p, t) && t.n == elm
        invariant elm in links && elm.parent == Above(p) && (!p.Top? ==> p.n.red == p.red)
        invariant links.Keys == old(links.Keys) && Contents() == old(Contents())
        invariant turns + Length(p) <= Length(p0)
        decreases Length(p)
      {
        elm, p, t := InsertColorStep(elm, p, t);
        turns := turns + 1;
      }
      BlackenRoot(p, t);
      PaintRoot();
    }

    // The turns of a loop that goes down to t.
    lemma Climbable(p: Path, t: Tree, turns: nat)
      requires Valid() && shape == Plug(p, t) && turns <= Length(p) + if t.Leaf? then 0 else 1
      ensures WithinLogs(turns, 2, |Contents()|) && WithinLogs(turns, 4, |Contents()|)
    {
      HeightPlug(p, t);
      Logarithmic(shape, turns);
    }

    // RB_SET, and hanging the new node from its parent.
    method GrowFields(elm: Node, parent: Node?, comp: int)
      requires Mirrored() && elm !in links && Child(links, parent)
      modifies `root, `links, elm, if parent == null then {} else {parent}
      ensures Mirrored() && links == Grown(old(links), elm, parent, comp < 0)
      ensures root == if parent == null then elm else old(root)
    {
      elm.parent := parent;
      elm.left, elm.right := null, null;
      elm.red := true;
      links := links[elm := Cell(null, null, parent, true)];
      if parent != null {
        if comp < 0 {
          SetLeft(parent, elm);
        } else {
          SetRight(parent, elm);
        }
      } else {
        root := elm;
      }
    }

    // The second half of RB_INSERT, once the search has come to an empty place.
    method InsertAt(elm: Node, parent: Node?, comp: int, ghost p: Path) returns (ghost turns: nat)
      requires Valid() && elm !in links && shape == Plug(p, Leaf) && Searching(p, elm.key)
      requires parent == Above(p) && (p.InLeft? ==> comp < 0) && (p.InRight? ==> comp > 0)
      modifies this, links.Keys, elm
      ensures Valid() && links.Keys == old(links.Keys) + {elm}
      ensures Contents() == With(old(Contents()), elm)
      ensures forall n | n in old(Contents()) :: n.key != elm.key
      ensures turns <= Length(p)
    {
      GrowLinks(links, root, p, elm);
      InsertLeaf(p, elm);
      ghost var t := Bin(Leaf, elm, true, Leaf);
      GrowFields(elm, parent, comp);
      shape := Plug(p, t);
      turns := InsertColor(elm, p, t);
    }

    // turns counts the turns of both loops.
    // A search that ends outside the tree has not been for one of its nodes.
    lemma NotThere(p: Path, elm: Node)
      requires Valid() && shape == Plug(p, Leaf) && Searching(p, elm.key)
      ensures elm !in links
    {
      InsertLeaf(p, elm);
      Look(links, root, p, Leaf);
      NodesInorder(shape, elm);
      PlugNodes(p, Leaf);
    }

    method Insert(elm: Node) returns (r: Node?, ghost turns: nat)
      requires Valid()
      modifies this, links.Keys, elm
      ensures Valid()
      ensures r == null ==> elm !in old(links) && links.Keys == old(links.Keys) + {elm}
      ensures r == null ==> Contents() == With(old(Contents()), elm)
      ensures r == null ==> forall n | n in old(Contents()) :: n.key != elm.key
      ensures r != null ==> r in old(Contents()) && r.key == elm.key
      ensures r != null ==> root == old(root) && links == old(links) && shape == old(shape) && unchanged(elm)
      ensures WithinLogs(turns, 4, |old(Contents())|)
    {
      hide NoRedRed, Balanced, Blacks, Height, WithinLogs, RedBlack, Distinct, PathDistinct, Nodes, PathNodes;
      turns := 0;
      var tmp := root;
      var parent: Node? := null;
      var comp := 0;
      ghost var p, t := Top, shape;
      while tmp != null
        invariant shape == Plug(p, t) && turns == Length(p)
        invariant tmp == Root(t) && parent == Above(p) && Searching(p, elm.key)
        invariant p.InLeft? ==> comp < 0
        invariant p.InRight? ==> comp > 0
        modifies {}
        decreases t
      {
        turns := turns + 1;
        Look(links, root, p, t);
        parent := tmp;
        comp := Cmp(elm, parent);
        if comp < 0 {
          SearchLeft(p, t, elm.key);
          tmp := tmp.left;
          p, t := InLeft(t.n, t.red, t.r, p), t.l;
        } else if comp > 0 {
          SearchRight(p, t, elm.key);
          tmp := tmp.right;
          p, t := InRight(t.l, t.n, t.red, p), t.r;
        } else {
          NodesInorder(shape, tmp);
          Climbable(p, t, turns);
          return tmp, turns;
        }
      }
      ghost var was := shape;
      NotThere(p, elm);
      HeightPlug(p, t);
      ghost var more := InsertAt(elm, parent, comp, p);
      Logarithmic(was, turns + more);
      return null, turns + more;
    }

    // RB_REMOVE_COLOR below a left-hand shortage: a red sibling is rotated up,
    // so that the sibling tmp is black.
    method BlackSiblingLeft(parent: Node, ghost p: Path, ghost t: Tree) returns (tmp: Node, ghost p': Path)
      requires Spelled() && shape == Plug(p, t) && BlackMissing(p, t) && p.InLeft? && p.n == parent
      modifies this, links.Keys
      ensures Spelled() && links.Keys == old(links.Keys) && Contents() == old(Contents())
      ensures shape == Plug(p', t) && BlackMissing(p', t) && p'.InLeft? && p'.n == parent
      ensures p'.r.Bin? && p'.r.n == tmp && !p'.r.red
      ensures p' == p || (p'.red && Length(p'.up) == Length(p))
    {
      Look(links, root, p, t);
      SiblingExists(p, t);
      p' := p;
      tmp := parent.right;
      if tmp.red {
        ghost var s, up := p.r, p.up;
        SiblingRedLeft(p, t);
        Paint(tmp, false, InRight(t, parent, false, up), s);
        Paint(parent, true, up, Bin(t, parent, false, s.(red := false)));
        tmp := RotateLeft(parent, up, t, true, s.l, tmp, false, s.r);
        p' := InLeft(parent, true, s.l, InLeft(s.n, false, s.r, up));
        Look(links, root, p', t);
        tmp := parent.right;
      }
    }

    // A red nephew ends the shortage.
    method SettleLeft(parent: Node, sibling: Node, ghost p0: Path, ghost t: Tree)
      requires Spelled() && shape == Plug(p0, t) && BlackMissing(p0, t) && !IsRed(t) && p0.InLeft? && p0.n == parent
      requires p0.r.Bin? && p0.r.n == sibling && !p0.r.red && (IsRed(p0.r.l) || IsRed(p0.r.r))
      modifies this, links.Keys
      ensures Spelled() && links.Keys == old(links.Keys) && Contents() == old(Contents())
      ensures RedBlack(shape)
    {
      var tmp := sibling;
      ghost var p := p0;
      Look(links, root, InRight(t, parent, p.red, p.up), p.r);
      if tmp.right == null || !tmp.right.red {
        ghost var s, q := p.r, InRight(t, parent, p.red, p.up);
        NearRedLeft(p, t);
        var oleft := tmp.left;
        if oleft != null {
          Paint(oleft, false, InLeft(tmp, false, s.r, q), s.l);
        }
        Paint(tmp, true, q, s.(l := s.l.(red := false)));
        oleft := RotateRight(tmp, q, s.l.l, oleft, false, s.l.r, true, s.r);
        p := p.(r := Bin(s.l.l, s.l.n, false, Bin(s.l.r, s.n, true, s.r)));
        Look(links, root, p, t);
        tmp := parent.right;
      }
      SettleFarLeft(parent, tmp, p, t);
    }

    method SettleFarLeft(parent: Node, tmp: Node, ghost p: Path, ghost t: Tree)
      requires Spelled() && shape == Plug(p, t) && BlackMissing(p, t) && !IsRed(t) && p.InLeft? && p.n == parent
      requires p.r.Bin? && p.r.n == tmp && !p.r.red && IsRed(p.r.r)
      modifies this, links.Keys
      ensures Spelled() && links.Keys == old(links.Keys) && Contents() == old(Contents())
      ensures RedBlack(shape)
    {
      ghost var s, c, up := p.r, p.red, p.up;
      Look(links, root, p, t);
      Look(links, root, InRight(t, parent, c, up), s);
      FarRedLeft(p, t);
      Paint(tmp, parent.red, InRight(t, parent, c, up), s);
      Paint(parent, false, up, Bin(t, parent, c, s.(red := c)));
      Look(links, root, InRight(s.l, tmp, c, InRight(t, parent, false, up)), s.r);
      if tmp.right != null {
        Paint(tmp.right, false, InRight(s.l, tmp, c, InRight(t, parent, false, up)), s.r);
      }
      var top := RotateLeft(parent, up, t, false, s.l, tmp, c, s.r.(red := false));
    }

    // One turn of the RB_REMOVE_COLOR loop when the shortage is on the left.
    method RemoveColorLeft(parent: Node, elm: Node?, ghost p: Path, ghost t: Tree)
      returns (elm': Node?, parent': Node?, ghost p': Path, ghost t': Tree)
      requires Spelled() && shape == Plug(p, t) && BlackMissing(p, t) && !IsRed(t)
      requires p.InLeft? && p.n == parent && Root(t) == elm
      modifies this, links.Keys
      ensures Spelled() && links.Keys == old(links.Keys) && Contents() == old(Contents())
      ensures shape == Plug(p', t') && BlackMissing(p', t') && Root(t') == elm'
      ensures p'.Top? || parent' == p'.n
      ensures IsRed(t') || Length(p') < Length(p)
    {
      hide Nodes, PathNodes, Balanced;
      var tmp;
      ghost var q;
      tmp, q := BlackSiblingLeft(parent, p, t);
      ghost var s := q.r;
      Look(links, root, InRight(t, parent, q.red, q.up), s);
      if (tmp.left == null || !tmp.left.red) && (tmp.right == null || !tmp.right.red) {
        PushUp(q, t);
        Paint(tmp, true, InRight(t, parent, q.red, q.up), s);
        elm', p', t' := parent, q.up, Bin(t, parent, q.red, s.(red := true));
        Look(links, root, p', t');
        parent' := elm'.parent;
      } else {
        SettleLeft(parent, tmp, q, t);
        elm', parent', p', t' := root, null, Top, shape;
      }
    }

    // ---- the same three stages for a right-hand shortage

    method BlackSiblingRight(parent: Node, ghost p: Path, ghost t: Tree) returns (tmp: Node, ghost p': Path)
      requires Spelled() && shape == Plug(p, t) && BlackMissing(p, t) && p.InRight? && p.n == parent
      modifies this, links.Keys
      ensures Spelled() && links.Keys == old(links.Keys) && Contents() == old(Contents())
      ensures shape == Plug(p', t) && BlackMissing(p', t) && p'.InRight? && p'.n == parent
      ensures p'.l.Bin? && p'.l.n == tmp && !p'.l.red
      ensures p' == p || (p'.red && Length(p'.up) == Length(p))
    {
      Look(links, root, p, t);
      SiblingExists(p, t);
      p' := p;
      tmp := parent.left;
      if tmp.red {
        ghost var s, up := p.l, p.up;
        SiblingRedRight(p, t);
        Paint(tmp, false, InLeft(parent, false, t, up), s);
        Paint(parent, true, up, Bin(s.(red := false), parent, false, t));
        tmp := RotateRight(parent, up, s.l, tmp, false, s.r, true, t);
        p' := InRight(s.r, parent, true, InRight(s.l, s.n, false, up));
        Look(links, root, p', t);
        tmp := parent.left;
      }
    }

    method SettleRight(parent: Node, sibling: Node, ghost p0: Path, ghost t: Tree)
      requires Spelled() && shape == Plug(p0, t) && BlackMissing(p0, t) && !IsRed(t) && p0.InRight? && p0.n == parent
      requires p0.l.Bin? && p0.l.n == sibling && !p0.l.red && (IsRed(p0.l.l) || IsRed(p0.l.r))
      modifies this, links.Keys
      ensures Spelled() && links.Keys == old(links.Keys) && Contents() == old(Contents())
      ensures RedBlack(shape)
    {
      var tmp := sibling;
      ghost var p := p0;
      Look(links, root, InLeft(parent, p.red, t, p.up), p.l);
      if tmp.left == null || !tmp.left.red {
        ghost var s, q := p.l, InLeft(parent, p.red, t, p.up);
        NearRedRight(p, t);
        var oright := tmp.right;
        if oright != null {
          Paint(oright, false, InRight(s.l, tmp, false, q), s.r);
        }
        Paint(tmp, true, q, s.(r := s.r.(red := false)));
        oright := RotateLeft(tmp, q, s.l, true, s.r.l, oright, false, s.r.r);
        p := p.(l := Bin(Bin(s.l, s.n, true, s.r.l), s.r.n, false, s.r.r));
        Look(links, root, p, t);
        tmp := parent.left;
      }
      SettleFarRight(parent, tmp, p, t);
    }

    method SettleFarRight(parent: Node, tmp: Node, ghost p: Path, ghost t: Tree)
      requires Spelled() && shape == Plug(p, t) && BlackMissing(p, t) && !IsRed(t) && p.InRight? && p.n == parent
      requires p.l.Bin? && p.l.n == tmp && !p.l.red && IsRed(p.l.l)
      modifies this, links.Keys
      ensures Spelled() && links.Keys == old(links.Keys) && Contents() == old(Contents())
      ensures RedBlack(shape)
    {
      ghost var s, c, up := p.l, p.red, p.up;
      Look(links, root, p, t);
      Look(links, root, InLeft(parent, c, t, up), s);
      FarRedRight(p, t);
      Paint(tmp, parent.red, InLeft(parent, c, t, up), s);
      Paint(parent, false, up, Bin(s.(red := c), parent, c, t));
      Look(links, root, InLeft(tmp, c, s.r, InLeft(parent, false, t, up)), s.l);
      if tmp.left != null {
        Paint(tmp.left, false, InLeft(tmp, c, s.r, InLeft(parent, false, t, up)), s.l);
      }
      var top := RotateRight(parent, up, s.l.(red := false), tmp, c, s.r, false, t);
    }

    method RemoveColorRight(parent: Node, elm: Node?, ghost p: Path, ghost t: Tree)
      returns (elm': Node?, parent': Node?, ghost p': Path, ghost t': Tree)
      requires Spelled() && shape == Plug(p, t) && BlackMissing(p, t) && !IsRed(t)
      requires p.InRight? && p.n == parent && Root(t) == elm
      modifies this, links.Keys
      ensures Spelled() && links.Keys == old(links.Keys) && Contents() == old(Contents())
      ensures shape == Plug(p', t') && BlackMissing(p', t') && Root(t') == elm'
      ensures p'.Top? || parent' == p'.n
      ensures IsRed(t') || Length(p') < Length(p)
    {
      hide Nodes, PathNodes, Balanced;
      var tmp;
      ghost var q;
      tmp, q := BlackSiblingRight(parent, p, t);
      ghost var s := q.l;
      Look(links, root, InLeft(parent, q.red, t, q.up), s);
      if (tmp.left == null || !tmp.left.red) && (tmp.right == null || !tmp.right.red) {
        PushUp(q, t);
        Paint(tmp, true, InLeft(parent, q.red, t, q.up), s);
        elm', p', t' := parent, q.up, Bin(s.(red := true), parent, q.red, t);
        Look(links, root, p', t');
        parent' := elm'.parent;
      } else {
        SettleRight(parent, tmp, q, t);
        elm', parent', p', t' := root, null, Top, shape;
      }
    }

    // The body of the RB_REMOVE_COLOR loop.
    method RemoveColorStep(parent: Node?, elm: Node?, ghost p: Path, ghost t: Tree)
      returns (elm': Node?, parent': Node?, ghost p': Path, ghost t': Tree)
      requires Spelled() && shape == Plug(p, t) && BlackMissing(p, t) && !IsRed(t)
      requires !p.Top? && p.n == parent && Root(t) == elm
      modifies this, links.Keys
      ensures Spelled() && links.Keys == old(links.Keys) && Contents() == old(Contents())
      ensures shape == Plug(p', t') && BlackMissing(p', t') && Root(t') == elm'
      ensures p'.Top? || parent' == p'.n
      ensures IsRed(t') || Length(p') < Length(p)
      ensures (elm' == root <==> p'.Top?) && (t'.Bin? ==> elm'.red == t'.red)
    {
      Look(links, root, p, t);
      SiblingExists(p, t);
      if parent.left == elm {
        elm', parent', p', t' := RemoveColorLeft(parent, elm, p, t);
      } else {
        elm', parent', p', t' := RemoveColorRight(parent, elm, p, t);
      }
      Look(links, root, p', t');
      HoleIsNotRoot(links, root, p', t');
    }

    method RemoveColor(parent0: Node?, elm0: Node?, ghost p0: Path, ghost t0: Tree) returns (ghost turns: nat)
      requires Spelled() && shape == Plug(p0, t0) && BlackMissing(p0, t0)
      requires Root(t0) == elm0 && Above(p0) == parent0
      modifies this, links.Keys
      ensures Spelled() && RedBlack(shape)
      ensures links.Keys == old(links.Keys) && Contents() == old(Contents())
      ensures turns <= Length(p0)
    {
      turns := 0;
      var elm, parent := elm0, parent0;
      ghost var p, t := p0, t0;
      Look(links, root, p, t);
      HoleIsNotRoot(links, root, p, t);
      while (elm == null || !elm.red) && elm != root
        invariant Spelled() && shape == Plug(p, t) && BlackMissing(p, t)
        invariant Root(t) == elm && (p.Top? || parent == p.n)
        invariant (t.Bin? ==> elm.red == t.red) && (elm == root <==> p.Top?)
        invariant links.Keys == old(links.Keys) && Contents() == old(Contents())
        invariant turns + (if IsRed(t) then 0 else Length(p)) <= Length(p0)
        decreases if IsRed(t) then 0 else 1 + Length(p)
      {
        turns := turns + 1;
        elm, parent, p, t := RemoveColorStep(parent, elm, p, t);
      }
      Settled(p, t);
      if elm != null {
        Look(links, root, p, t);
        Paint(elm, false, p, t);
      }
    }

    // The child of n, its only one, takes the place of n.
    method SpliceOut(n: Node, child: Node?, parent: Node?)
      requires Mirrored() && n in links && Child(links, child) && Child(links, parent) && n != child && n != parent
      modifies `root, `links
      modifies if child == null then {} else {child}
      modifies if parent == null then {} else {parent}
      ensures Mirrored() && links == Spliced(old(links), n, child, parent)
      ensures root == if parent == null then child else old(root)
    {
      Adopt(child, parent);
      ReplaceChild(parent, n, child);
      links := links - {n};
    }

    // (m)->field = (n)->field
    method CopyFields(m: Node, n: Node)
      requires Mirrored() && n in links && m !in links
      modifies `links, m
      ensures root == old(root) && shape == old(shape)
      ensures Mirrored() && links == old(links)[m := old(links[n])]
    {
      m.left, m.right, m.parent, m.red := n.left, n.right, n.parent, n.red;
      links := links[m := links[n]];
    }

    // The node m takes over the fields of n and its place in the tree.
    method TakeOver(m: Node, n: Node)
      requires Mirrored() && n in links && m !in links
      requires Child(links, links[n].parent) && links[n].left in links && Child(links, links[n].right)
      requires n !in {links[n].parent, links[n].left, links[n].right}
      modifies `root, `links, {m, links[n].left} + (if links[n].right == null then {} else {links[n].right})
      modifies if links[n].parent == null then {} else {links[n].parent}
      ensures Mirrored() && links == Substituted(old(links), n, m) && shape == old(shape)
      ensures root == if old(links[n].parent) == null then m else old(root)
    {
      ghost var c := links[n];
      CopyFields(m, n);
      assert n.parent == c.parent && n.left == c.left && n.right == c.right;
      ReplaceChild(n.parent, n, m);
      assert n.left == c.left && n.right == c.right;
      SetParent(n.left, m);
      Adopt(n.right, m);
      links := links - {n};
    }

    method Splice(n: Node, child: Node?, parent: Node?, ghost p: Path, ghost t: Tree, ghost c: Tree)
      requires Spelled() && shape == Plug(p, t) && t.Bin? && t.n == n && Root(c) == child && Above(p) == parent
      requires (t.l.Leaf? && c == t.r) || (t.r.Leaf? && c == t.l)
      modifies this, links.Keys - {n}
      ensures Spelled() && shape == Plug(p, c) && links.Keys == old(links.Keys) - {n}
    {
      SpliceLinks(links, root, p, t, c);
      SpliceOut(n, child, parent);
      shape := Plug(p, c);
    }

    method Substitute(m: Node, n: Node, ghost p: Path, ghost t: Tree)
      requires Spelled() && shape == Plug(p, t) && t.Bin? && t.n == n && t.l.Bin? && m !in links
      modifies this, links.Keys, m
      ensures Spelled() && shape == Plug(p, t.(n := m)) && links.Keys == old(links.Keys) - {n} + {m}
    {
      SubstituteLinks(links, root, p, t, m);
      TakeOver(m, n);
      shape := Plug(p, t.(n := m));
    }

    // RB_REMOVE of a node with at most one child.
    method RemoveShallow(elm: Node, child: Node?, ghost p: Path, ghost t: Tree, ghost c: Tree) returns (ghost turns: nat)
      requires Valid() && shape == Plug(p, t) && t.Bin? && t.n == elm && Root(c) == child
      requires (t.l.Leaf? && c == t.r) || (t.r.Leaf? && c == t.l)
      modifies this, links.Keys
      ensures Valid() && links.Keys == old(links.Keys) - {elm}
      ensures Contents() == Without(old(Contents()), elm)
      ensures turns <= Length(p)
    {
      turns := 0;
      SpliceContents(p, t, c);
      SpliceColours(p, t, c);
      WithoutOrdered(Contents(), elm);
      Look(links, root, p, t);
      var parent := elm.parent;
      var color := elm.red;
      Splice(elm, child, parent, p, t, c);
      if !color {
        turns := RemoveColor(parent, child, p, c);
      }
    }

    // The leftmost node below `start`: q leads to it from the root of r.
    method Leftmost(start: Node, ghost base: Path, ghost r: Tree)
      returns (elm: Node, ghost q: Path, ghost s: Tree, ghost turns: nat)
      requires Spelled() && shape == Plug(base, r) && r.Bin? && r.n == start
      ensures Plug(q, s) == r && AllLeft(q) && s.Bin? && s.l.Leaf? && s.n == elm && turns == Length(q)
    {
      elm, q, s, turns := start, Top, r, 0;
      Look(links, root, base, r);
      while elm.left != null
        invariant Plug(q, s) == r && AllLeft(q) && s.Bin? && s.n == elm && turns == Length(q)
        invariant elm in links && elm.left == Root(s.l)
        decreases s
      {
        turns := turns + 1;
        elm := elm.left;
        q, s := InLeft(s.n, s.red, s.r, q), s.l;
        PlugAppend(q, base, s);
        Look(links, root, Append(q, base), s);
      }
    }

    // Splices the successor of `old_` out of the right subtree and gives it the
    // place of `old_`; the colours are left for RB_REMOVE_COLOR.
    method Promote(old_: Node, ghost p: Path, ghost t: Tree)
      returns (child: Node?, parent: Node?, color: bool, ghost q: Path, ghost s: Tree, ghost turns: nat)
      requires Spelled() && shape == Plug(p, t) && t.Bin? && t.n == old_ && t.l.Bin? && t.r.Bin?
      modifies this, links.Keys
      ensures Plug(q, s) == t.r && AllLeft(q) && s.Bin? && s.l.Leaf? && turns == Length(q)
      ensures Spelled() && shape == Plug(p, Bin(t.l, s.n, t.red, Plug(q, s.r))) && links.Keys == old(links.Keys) - {old_}
      ensures child == Root(s.r) && color == s.red && parent == (if q.Top? then s.n else q.n)
    {
      hide Nodes, PathNodes, Inorder;
      ghost var base := InRight(t.l, old_, t.red, p);
      Look(links, root, p, t);
      var elm;
      elm, q, s, turns := Leftmost(old_.right, base, t.r);
      SuccessorSite(links, root, p, t, q, s);
      ghost var keys := links.Keys;
      assert keys - {elm} - {old_} + {elm} == keys - {old_};
      child := elm.right;
      parent := elm.parent;
      color := elm.red;
      Splice(elm, child, parent, Append(q, base), s, s.r);
      assert elm.parent == parent;
      if elm.parent == old_ {
        parent := elm;
      }
      Substitute(elm, old_, p, t.(r := Plug(q, s.r)));
    }

    lemma DeepPlace(p: Path, t: Tree, q: Path, s: Tree)
      requires t.Bin? && Plug(q, s) == t.r && s.Bin?
      ensures Length(p) + 1 + Length(q) < Height(Plug(p, t))
    {
      HeightPlug(q, s);
      HeightPlug(p, t);
    }

    lemma DeepPlaceBack(p: Path, t: Tree, q: Path, s: Tree)
      requires t.Bin? && Plug(q, s) == t.l && s.Bin?
      ensures Length(p) + 1 + Length(q) < Height(Plug(p, t))
    {
      HeightPlug(q, s);
      HeightPlug(p, t);
    }

    // RB_REMOVE of a node with two children: its successor takes its place.
    method RemoveDeep(old_: Node, ghost p: Path, ghost t: Tree) returns (ghost turns: nat)
      requires Valid() && shape == Plug(p, t) && t.Bin? && t.n == old_ && t.l.Bin? && t.r.Bin?
      modifies this, links.Keys
      ensures Valid() && links.Keys == old(links.Keys) - {old_}
      ensures Contents() == Without(old(Contents()), old_)
      ensures turns <= 2 * Height(old(shape))
    {
      WithoutOrdered(Contents(), old_);
      var child, parent, color;
      ghost var q, s;
      child, parent, color, q, s, turns := Promote(old_, p, t);
      DeepPlace(p, t, q, s);
      SuccessorContents(p, t.l, old_, t.red, q, s.n, s.red, s.r);
      SuccessorColours(p, t, q, s);
      if !color {
        ghost var base := InRight(t.l, s.n, t.red, p);
        PlugAppend(q, base, s.r);
        LengthAppend(q, base);
        ghost var more := RemoveColor(parent, child, Append(q, base), s.r);
        turns := turns + more;
      }
    }

    // turns counts the turns of both loops.
    method Remove(elm: Node) returns (r: Node, ghost turns: nat)
      requires Valid() && elm in links
      modifies this, links.Keys
      ensures r == elm
      ensures Valid() && links.Keys == old(links.Keys) - {elm}
      ensures Contents() == Without(old(Contents()), elm)
      ensures WithinLogs(turns, 4, |old(Contents())|)
    {
      ghost var p, t := Locate(Top, shape, elm);
      Look(links, root, p, t);
      HeightPlug(p, t);
      ghost var was := shape;
      if elm.left == null {
        turns := RemoveShallow(elm, elm.right, p, t, t.r);
      } else if elm.right == null {
        turns := RemoveShallow(elm, elm.left, p, t, t.l);
      } else {
        turns := RemoveDeep(elm, p, t);
      }
      Logarithmic(was, turns);
      return elm, turns;
    }

    // ---- reading the tree

    method Find(elm: Node) returns (r: Node?, ghost turns: nat)
      requires Valid()
      ensures r != null ==> r in Contents() && r.key == elm.key
      ensures r == null ==> forall n | n in Contents() :: n.key != elm.key
      ensures WithinLogs(turns, 2, |Contents()|)
    {
      hide NoRedRed, Balanced, Blacks, Height, WithinLogs, RedBlack;
      turns := 0;
      var tmp := root;
      ghost var p, t := Top, shape;
      while tmp != null
        invariant shape == Plug(p, t) && tmp == Root(t) && Searching(p, elm.key) && turns == Length(p)
        decreases t
      {
        turns := turns + 1;
        Look(links, root, p, t);
        var comp := Cmp(elm, tmp);
        if comp < 0 {
          SearchLeft(p, t, elm.key);
          tmp := tmp.left;
          p, t := InLeft(t.n, t.red, t.r, p), t.l;
        } else if comp > 0 {
          SearchRight(p, t, elm.key);
          tmp := tmp.right;
          p, t := InRight(t.l, t.n, t.red, p), t.r;
        } else {
          NodesInorder(shape, tmp);
          Climbable(p, t, turns);
          return tmp, turns;
        }
      }
      InsertLeaf(p, elm);
      Climbable(p, t, turns);
      return null, turns;
    }

    // The first node at or after the key of elm.
    method NFind(elm: Node) returns (r: Node?, ghost turns: nat)
      requires Valid()
      ensures r != null ==> r in Contents() && elm.key <= r.key
      ensures r != null ==> forall n | n in Contents() :: elm.key <= n.key ==> r.key <= n.key
      ensures r == null ==> forall n | n in Contents() :: n.key < elm.key
      ensures WithinLogs(turns, 2, |Contents()|)
    {
      hide NoRedRed, Balanced, Blacks, Inorder, Linked, WithinLogs, Height, RedBlack;
      turns := 0;
      var tmp := root;
      r := null;
      ghost var p, t := Top, shape;
      while tmp != null
        invariant shape == Plug(p, t) && tmp == Root(t) && Searching(p, elm.key) && turns == Length(p)
        invariant r == if After(p) == [] then null else After(p)[0]
        decreases t
      {
        turns := turns + 1;
        Look(links, root, p, t);
        var comp := Cmp(elm, tmp);
        if comp < 0 {
          SearchLeft(p, t, elm.key);
          r := tmp;
          tmp := tmp.left;
          p, t := InLeft(t.n, t.red, t.r, p), t.l;
        } else if comp > 0 {
          SearchRight(p, t, elm.key);
          tmp := tmp.right;
          p, t := InRight(t.l, t.n, t.red, p), t.r;
        } else {
          NodesInorder(shape, tmp);
          Climbable(p, t, turns);
          return tmp, turns;
        }
      }
      Climbable(p, t, turns);
      FirstAbove(p, elm.key);
    }

    // The climb of RB_NEXT: out of right subtrees, then one step further up.
    method Climb(start: Node, ghost p0: Path, ghost t0: Tree) returns (elm: Node?, ghost turns: nat)
      requires Valid() && shape == Plug(p0, t0) && t0.Bin? && t0.n == start
      ensures elm == if After(p0) == [] then null else After(p0)[0]
      ensures turns <= Length(p0)
    {
      turns := 0;
      var cur := start;
      ghost var p, t := p0, t0;
      Look(links, root, p, t);
      while cur.parent != null && cur == cur.parent.right
        invariant shape == Plug(p, t) && t.Bin? && t.n == cur && cur in links && cur.parent == Above(p)
        invariant After(p) == After(p0) && turns + Length(p) == Length(p0)
        decreases Length(p)
      {
        Look(links, root, p, t);
        turns := turns + 1;
        cur := cur.parent;
        t, p := Bin(p.l, p.n, p.red, t), p.up;
        Look(links, root, p, t);
      }
      Look(links, root, p, t);
      elm := cur.parent;
    }

    // The in-order successor: parent pointers lead to it from any node.
    method Next(start: Node, ghost i: nat) returns (elm: Node?, ghost turns: nat)
      requires Valid() && i < |Contents()| && Contents()[i] == start
      ensures elm == if i + 1 < |Contents()| then Contents()[i + 1] else null
      ensures WithinLogs(turns, 2, |Contents()|)
    {
      hide NoRedRed, Balanced, Blacks, WithinLogs, Height, RedBlack, Distinct, Nodes;
      turns := 0;
      NodesInorder(shape, start);
      ghost var p, t := Locate(Top, shape, start);
      Look(links, root, p, t);
      OrderedAt(p, t);
      IndexOf(Before(p) + Inorder(t.l), start, Inorder(t.r) + After(p), i);
      if start.right != null {
        ghost var q, s;
        elm, q, s, turns := Leftmost(start.right, InRight(t.l, t.n, t.red, p), t.r);
        FirstOfRight(q, s.n, s.red, s.r);
        DeepPlace(p, t, q, s);
      } else {
        if start.parent != null && start == start.parent.left {
          elm := start.parent;
        } else {
          elm, turns := Climb(start, p, t);
        }
      }
      HeightPlug(p, t);
      Logarithmic(shape, turns);
    }

    method Rightmost(start: Node, ghost base: Path, ghost l: Tree)
      returns (elm: Node, ghost q: Path, ghost s: Tree, ghost turns: nat)
      requires Spelled() && shape == Plug(base, l) && l.Bin? && l.n == start
      ensures Plug(q, s) == l && AllRight(q) && s.Bin? && s.r.Leaf? && s.n == elm && turns == Length(q)
    {
      elm, q, s, turns := start, Top, l, 0;
      Look(links, root, base, l);
      while elm.right != null
        invariant Plug(q, s) == l && AllRight(q) && s.Bin? && s.n == elm && turns == Length(q)
        invariant elm in links && elm.right == Root(s.r)
        decreases s
      {
        turns := turns + 1;
        elm := elm.right;
        q, s := InRight(s.l, s.n, s.red, q), s.r;
        PlugAppend(q, base, s);
        Look(links, root, Append(q, base), s);
      }
    }

    // The climb of RB_PREV: out of left subtrees, then one step further up.
    method ClimbBack(start: Node, ghost p0: Path, ghost t0: Tree) returns (elm: Node?, ghost turns: nat)
      requires Valid() && shape == Plug(p0, t0) && t0.Bin? && t0.n == start
      ensures elm == if Before(p0) == [] then null else Before(p0)[|Before(p0)| - 1]
      ensures turns <= Length(p0)
    {
      turns := 0;
      var cur := start;
      ghost var p, t := p0, t0;
      Look(links, root, p, t);
      while cur.parent != null && cur == cur.parent.left
        invariant shape == Plug(p, t) && t.Bin? && t.n == cur && cur in links && cur.parent == Above(p)
        invariant Before(p) == Before(p0) && turns + Length(p) == Length(p0)
        decreases Length(p)
      {
        Look(links, root, p, t);
        turns := turns + 1;
        cur := cur.parent;
        t, p := Bin(t, p.n, p.red, p.r), p.up;
        Look(links, root, p, t);
      }
      Look(links, root, p, t);
      elm := cur.parent;
    }

    // The in-order predecessor.
    method Prev(start: Node, ghost i: nat) returns (elm: Node?, ghost turns: nat)
      requires Valid() && i < |Contents()| && Contents()[i] == start
      ensures elm == if i > 0 then Contents()[i - 1] else null
      ensures WithinLogs(turns, 2, |Contents()|)
    {
      hide NoRedRed, Balanced, Blacks, WithinLogs, Height, RedBlack, Distinct, Nodes;
      turns := 0;
      NodesInorder(shape, start);
      ghost var p, t := Locate(Top, shape, start);
      Look(links, root, p, t);
      OrderedAt(p, t);
      IndexOf(Before(p) + Inorder(t.l), start, Inorder(t.r) + After(p), i);
      if start.left != null {
        ghost var q, s;
        elm, q, s, turns := Rightmost(start.left, InLeft(t.n, t.red, t.r, p), t.l);
        LastOfLeft(q, s.l, s.n, s.red);
        DeepPlaceBack(p, t, q, s);
      } else {
        if start.parent != null && start == start.parent.right {
          elm := start.parent;
        } else {
          elm, turns := ClimbBack(start, p, t);
        }
      }
      HeightPlug(p, t);
      Logarithmic(shape, turns);
    }

    // The first node for a negative val, the last otherwise.
    method MinMax(val: int) returns (parent: Node?, ghost turns: nat)
      requires Valid()
      ensures parent == null <==> Contents() == []
      ensures parent != null ==> parent == Contents()[if val < 0 then 0 else |Contents()| - 1]
      ensures WithinLogs(turns, 2, |Contents()|)
    {
      turns := 0;
      var tmp := root;
      parent := null;
      ghost var p, t := Top, shape;
      while tmp != null
        invariant shape == Plug(p, t) && tmp == Root(t) && parent == Above(p) && turns == Length(p)
        invariant val < 0 ==> AllLeft(p)
        invariant val >= 0 ==> AllRight(p)
        decreases t
      {
        turns := turns + 1;
        Look(links, root, p, t);
        parent := tmp;
        if val < 0 {
          tmp := tmp.left;
          p, t := InLeft(t.n, t.red, t.r, p), t.l;
        } else {
          tmp := tmp.right;
          p, t := InRight(t.l, t.n, t.red, p), t.r;
        }
      }
      Climbable(p, t, turns);
      AroundHole(p);
      if val < 0 { NothingBeforeLeft(p); } else { NothingAfterRight(p); }
    }

    // include/tree.h:54-55 for every tree the operations can build, n = |Contents()|:
    // height <= 2 lg (n + 1), written as 2^height <= (n + 1)^2.
    lemma {:induction false} HeightIsLogarithmic()
      requires Valid()
      ensures Pow2(Height(shape)) <= (|Contents()| + 1) * (|Contents()| + 1)
    {
      HeightBound(shape);
    }
  }
}
