// The splay tree of include/tree.h:58-290.
module SplayTree {
  import opened Elements
  import opened SplayShape
  import opened SplayLinks
  import opened SplayCost
  import opened SplayBalance
  import opened SplayScan

  class TopDownTree {
    var root: Node?
    ghost var links: Links   // the fields of every node in the tree
    ghost var shape: Tree    // the tree they spell

    ghost predicate Mirrored()
      reads this, links.Keys
    {
      forall n | n in links :: n.left == links[n].left && n.right == links[n].right
    }

    ghost predicate Valid()
      reads this, links.Keys
    {
      Mirrored() && Spells(links, root, shape) && Ordered(Inorder(shape))
    }

    ghost function Contents(): seq<Node>
      reads this
    {
      Inorder(shape)
    }

    // The state at the head of the splay loop.
    ghost predicate InLoop(head: Node, s: Smaller, t: Tree, g: Larger)
      reads this, links.Keys
    {
      Mirrored() && Looping(links, root, head, s, t, g)
    }

    // SPLAY_INIT
    constructor ()
      ensures Valid() && Contents() == [] && links == map[]
    {
      root, links, shape := null, map[], Leaf;
    }

    method SetLeft(n: Node, m: Node?)
      requires Mirrored() && n in links
      modifies `links, n
      ensures root == old(root) && shape == old(shape)
      ensures Mirrored() && links == old(links)[n := old(links[n]).(left := m)]
    {
      n.left := m;
      links := links[n := links[n].(left := m)];
    }

    method SetRight(n: Node, m: Node?)
      requires Mirrored() && n in links
      modifies `links, n
      ensures root == old(root) && shape == old(shape)
      ensures Mirrored() && links == old(links)[n := old(links[n]).(right := m)]
    {
      n.right := m;
      links := links[n := links[n].(right := m)];
    }

    // SPLAY_ROTATE_RIGHT; tmp is the left child of the root.
    method RotateRight(tmp: Node, ghost head: Node, ghost s: Smaller, ghost t: Tree,
                       ghost g: Larger) returns (ghost t': Tree)
      requires InLoop(head, s, t, g) && t.l.Bin? && t.l.n == tmp
      modifies this, links.Keys
      ensures t' == Bin(t.l.l, tmp, Bin(t.l.r, t.n, t.r)) && InLoop(head, s, t', g)
      ensures links.Keys == old(links.Keys) && shape == old(shape)
      ensures Whole(s, t', g) == Whole(s, t, g) && Size(t') == Size(t)
    {
      hide SmallerLinked, LargerLinked, SmallerDistinct, LargerDistinct, Linked, Distinct;
      RotateRightLinks(links, root, head, s, g, t.l.l, tmp, t.l.r, t.n, t.r);
      RotationSeq(t.l.l, tmp, t.l.r, t.n, t.r);
      t' := Bin(t.l.l, tmp, Bin(t.l.r, t.n, t.r));
      SetLeft(root, tmp.right);
      SetRight(tmp, root);
      root := tmp;
    }

    method RotateLeft(tmp: Node, ghost head: Node, ghost s: Smaller, ghost t: Tree,
                      ghost g: Larger) returns (ghost t': Tree)
      requires InLoop(head, s, t, g) && t.r.Bin? && t.r.n == tmp
      modifies this, links.Keys
      ensures t' == Bin(Bin(t.l, t.n, t.r.l), tmp, t.r.r) && InLoop(head, s, t', g)
      ensures links.Keys == old(links.Keys) && shape == old(shape)
      ensures Whole(s, t', g) == Whole(s, t, g) && Size(t') == Size(t)
    {
      hide SmallerLinked, LargerLinked, SmallerDistinct, LargerDistinct, Linked, Distinct;
      RotateLeftLinks(links, root, head, s, g, t.l, t.n, t.r.l, tmp, t.r.r);
      RotationSeq(t.l, t.n, t.r.l, tmp, t.r.r);
      t' := Bin(Bin(t.l, t.n, t.r.l), tmp, t.r.r);
      SetRight(root, tmp.left);
      SetLeft(tmp, root);
      root := tmp;
    }

    // SPLAY_LINKLEFT
    method LinkLeft(right: Node, ghost head: Node, ghost s: Smaller, ghost t: Tree, ghost g: Larger)
      returns (right': Node, ghost g': Larger)
      requires InLoop(head, s, t, g) && t.l.Bin? && right == LargerEnd(g, head)
      modifies this, links.Keys
      ensures g' == AddLarger(g, t.n, t.r) && InLoop(head, s, t.l, g') && right' == LargerEnd(g', head)
      ensures links.Keys == old(links.Keys) && shape == old(shape)
    {
      LinkLeftLinks(links, root, head, s, t, g);
      g' := AddLarger(g, t.n, t.r);
      SetLeft(right, root);
      right' := root;
      root := root.left;
    }

    // SPLAY_LINKRIGHT
    method LinkRight(left: Node, ghost head: Node, ghost s: Smaller, ghost t: Tree, ghost g: Larger)
      returns (left': Node, ghost s': Smaller)
      requires InLoop(head, s, t, g) && t.r.Bin? && left == SmallerEnd(s, head)
      modifies this, links.Keys
      ensures s' == AddSmaller(s, t.l, t.n) && InLoop(head, s', t.r, g) && left' == SmallerEnd(s', head)
      ensures links.Keys == old(links.Keys) && shape == old(shape)
    {
      LinkRightLinks(links, root, head, s, t, g);
      s' := AddSmaller(s, t.l, t.n);
      SetRight(left, root);
      left' := root;
      root := root.right;
    }

    // SPLAY_ASSEMBLE, field by field.
    method AssembleFields(node: Node, left: Node, right: Node)
      requires Mirrored() && root != null && root in links && {node, left, right} <= links.Keys
      requires root !in {node, left, right}
      modifies `links, root, left, right
      ensures root == old(root) && shape == old(shape) && Mirrored()
      ensures links == Reassembled(SpinesClosed(old(links), left, right, root), root, node)
    {
      SetRight(left, root.left);
      SetLeft(right, root.right);
      SetLeft(root, node.right);
      SetRight(root, node.left);
      links := links - {node};
    }

    // SPLAY_ASSEMBLE, after which the header node leaves the stack.
    method Assemble(node: Node, left: Node, right: Node, ghost s: Smaller, ghost t: Tree, ghost g: Larger)
      requires InLoop(node, s, t, g) && left == SmallerEnd(s, node) && right == LargerEnd(g, node)
      modifies this, links.Keys
      ensures Mirrored() && shape == Assembled(s, t, g) && Spells(links, root, shape)
      ensures Contents() == Whole(s, t, g)
      ensures links.Keys == old(links.Keys) - {node}
    {
      hide SmallerLinked, LargerLinked, SmallerDistinct, LargerDistinct, Linked, Distinct;
      AssembleLinks(links, root, node, s, t, g);
      AssembledSeq(s, t, g);
      AssembleFields(node, left, right);
      shape := Assembled(s, t, g);
    }

    // One turn of the splay loop towards smaller keys; `more` is false where the
    // source breaks out.
    method TurnLeft(elm: Node, right: Node, ghost head: Node, ghost s: Smaller, ghost t: Tree, ghost g: Larger)
      returns (more: bool, right': Node, ghost t': Tree, ghost g': Larger)
      requires InLoop(head, s, t, g) && right == LargerEnd(g, head)
      requires Split(s, t, g, elm.key) && elm.key < t.n.key
      modifies this, links.Keys
      ensures links.Keys == old(links.Keys) && shape == old(shape)
      ensures InLoop(head, s, t', g') && right' == LargerEnd(g', head)
      ensures Split(s, t', g', elm.key) && Whole(s, t', g') == Whole(s, t, g)
      ensures if more then Size(t') < Size(t) else elm.key < t'.n.key && t'.l.Leaf?
      ensures Turned(s, t, g, s, t', g', Key(elm.key), more)
    {
      TurnsLeft(s, t, g, Key(elm.key));
      hide SmallerLinked, LargerLinked, SmallerDistinct, LargerDistinct, Distinct, Turned;
      right', t', g' := right, t, g;
      var tmp := root.left;
      if tmp == null {
        return false, right', t', g';
      }
      if Cmp(elm, tmp) < 0 {
        t' := RotateRight(tmp, head, s, t, g);
        if root.left == null {
          return false, right', t', g';
        }
      }
      LinkLarger(s, t', g, elm.key);
      right', g' := LinkLeft(right, head, s, t', g);
      return true, right', t'.l, g';
    }

    method TurnRight(elm: Node, left: Node, ghost head: Node, ghost s: Smaller, ghost t: Tree, ghost g: Larger)
      returns (more: bool, left': Node, ghost s': Smaller, ghost t': Tree)
      requires InLoop(head, s, t, g) && left == SmallerEnd(s, head)
      requires Split(s, t, g, elm.key) && t.n.key < elm.key
      modifies this, links.Keys
      ensures links.Keys == old(links.Keys) && shape == old(shape)
      ensures InLoop(head, s', t', g) && left' == SmallerEnd(s', head)
      ensures Split(s', t', g, elm.key) && Whole(s', t', g) == Whole(s, t, g)
      ensures if more then Size(t') < Size(t) else t'.n.key < elm.key && t'.r.Leaf?
      ensures Turned(s, t, g, s', t', g, Key(elm.key), more)
    {
      TurnsRight(s, t, g, Key(elm.key));
      hide SmallerLinked, LargerLinked, SmallerDistinct, LargerDistinct, Distinct, Turned;
      left', s', t' := left, s, t;
      var tmp := root.right;
      if tmp == null {
        return false, left', s', t';
      }
      if Cmp(elm, tmp) > 0 {
        t' := RotateLeft(tmp, head, s, t, g);
        if root.right == null {
          return false, left', s', t';
        }
      }
      LinkSmaller(s, t', g, elm.key);
      left', s' := LinkRight(left, head, s, t', g);
      return true, left', s', t'.r;
    }

    // One turn of the splay loop.
    method Turn(elm: Node, comp: int, left: Node, right: Node,
                ghost head: Node, ghost s: Smaller, ghost t: Tree, ghost g: Larger)
      returns (more: bool, left': Node, right': Node, ghost s': Smaller, ghost t': Tree, ghost g': Larger)
      requires InLoop(head, s, t, g) && left == SmallerEnd(s, head) && right == LargerEnd(g, head)
      requires Split(s, t, g, elm.key) && comp == Cmp(elm, t.n) != 0
      modifies this, links.Keys
      ensures links.Keys == old(links.Keys) && shape == old(shape)
      ensures InLoop(head, s', t', g') && left' == SmallerEnd(s', head) && right' == LargerEnd(g', head)
      ensures Split(s', t', g', elm.key) && Whole(s', t', g') == Whole(s, t, g)
      ensures t'.Bin? && root == t'.n && (more ==> Size(t') < Size(t))
      ensures !more ==> (elm.key < t'.n.key ==> t'.l.Leaf?) && (t'.n.key < elm.key ==> t'.r.Leaf?)
      ensures Turned(s, t, g, s', t', g', Key(elm.key), more)
    {
      hide Turned, Split, Whole, Linked, Distinct, Size;
      left', right', s', g' := left, right, s, g;
      if comp < 0 {
        more, right', t', g' := TurnLeft(elm, right, head, s, t, g);
      } else {
        more, left', s', t' := TurnRight(elm, left, head, s, t, g);
      }
    }

    // The header node on the stack, from which the loop hangs both spines.
    method Header() returns (node: Node)
      requires Valid() && root != null
      modifies `links
      ensures fresh(node) && links.Keys == old(links.Keys) + {node}
      ensures shape.Bin? && InLoop(node, NoSmaller, shape, NoLarger) && Whole(NoSmaller, shape, NoLarger) == Contents()
    {
      node := new Node(0);
      node.left, node.right := null, null;
      StartLoop(links, root, node, shape);
      links := links[node := Fork(null, null)];
      assert SmallerSeq(NoSmaller) == [] && LargerSeq(NoLarger) == [];
    }

    // Moves the node at, or next to, the key of elm to the root.
    method Splay(elm: Node) returns (ghost turns: nat)
      requires Valid() && root != null
      modifies this, links.Keys
      ensures Valid() && links.Keys == old(links.Keys) && Contents() == old(Contents())
      ensures shape.Bin? && AllBelow(Inorder(shape.l), elm.key) && AllAbove(Inorder(shape.r), elm.key)
      ensures shape == Splayed(old(shape), Key(elm.key)) && turns == Turns(old(shape), Key(elm.key))
    {
      hide Partition, Destined, Splayed, Turns, Distinct, Linked, InLoop, Looping, Split, Whole;
      var node := Header();
      var left, right := node, node;
      ghost var s, t, g := NoSmaller, shape, NoLarger;
      turns := 0;
      LoopStarts(shape, Key(elm.key));
      StartSplit(shape, elm.key);
      var comp := Cmp(elm, root);
      while comp != 0
        invariant node in links && links.Keys == old(links.Keys) + {node} && shape == old(shape)
        invariant InLoop(node, s, t, g) && left == SmallerEnd(s, node) && right == LargerEnd(g, node)
        invariant Split(s, t, g, elm.key) && Whole(s, t, g) == old(Contents())
        invariant t.Bin? && root == t.n && comp == Cmp(elm, t.n)
        invariant Destined(s, t, g, Key(elm.key)) == Splayed(shape, Key(elm.key))
        invariant turns + Partition(t, Key(elm.key)).turns == Turns(shape, Key(elm.key))
        decreases Size(t)
      {
        var more;
        turns := turns + 1;
        more, left, right, s, t, g := Turn(elm, comp, left, right, node, s, t, g);
        if !more {
          break;
        }
        comp := Cmp(elm, root);
      }
      if comp == 0 {
        LoopStops(s, t, g, Key(elm.key));
      }
      StopSplits(s, t, g, elm.key);
      Assemble(node, left, right, s, t, g);
    }

    // One turn of SPLAY_MINMAX: the rotation is not conditional on a comparison.
    method TurnMin(right: Node, ghost head: Node, ghost s: Smaller, ghost t: Tree, ghost g: Larger)
      returns (more: bool, right': Node, ghost t': Tree, ghost g': Larger)
      requires InLoop(head, s, t, g) && right == LargerEnd(g, head)
      modifies this, links.Keys
      ensures links.Keys == old(links.Keys) && shape == old(shape)
      ensures InLoop(head, s, t', g') && right' == LargerEnd(g', head) && Whole(s, t', g') == Whole(s, t, g)
      ensures if more then Size(t') < Size(t) else t'.l.Leaf?
      ensures Turned(s, t, g, s, t', g', First, more)
    {
      TurnsLeft(s, t, g, First);
      right', t', g' := right, t, g;
      var tmp := root.left;
      if tmp == null {
        return false, right', t', g';
      }
      t' := RotateRight(tmp, head, s, t, g);
      if root.left == null {
        return false, right', t', g';
      }
      LinkWhole(s, t', g);
      right', g' := LinkLeft(right, head, s, t', g);
      return true, right', t'.l, g';
    }

    method TurnMax(left: Node, ghost head: Node, ghost s: Smaller, ghost t: Tree, ghost g: Larger)
      returns (more: bool, left': Node, ghost s': Smaller, ghost t': Tree)
      requires InLoop(head, s, t, g) && left == SmallerEnd(s, head)
      modifies this, links.Keys
      ensures links.Keys == old(links.Keys) && shape == old(shape)
      ensures InLoop(head, s', t', g) && left' == SmallerEnd(s', head) && Whole(s', t', g) == Whole(s, t, g)
      ensures if more then Size(t') < Size(t) else t'.r.Leaf?
      ensures Turned(s, t, g, s', t', g, Last, more)
    {
      TurnsRight(s, t, g, Last);
      left', s', t' := left, s, t;
      var tmp := root.right;
      if tmp == null {
        return false, left', s', t';
      }
      t' := RotateLeft(tmp, head, s, t, g);
      if root.right == null {
        return false, left', s', t';
      }
      LinkWhole(s, t', g);
      left', s' := LinkRight(left, head, s, t', g);
      return true, left', s', t'.r;
    }

    // Moves the first element (comp < 0) or the last one (comp > 0) to the root.
    method MinMax(comp: int) returns (ghost turns: nat)
      requires Valid() && root != null && comp != 0
      modifies this, links.Keys
      ensures Valid() && links.Keys == old(links.Keys) && Contents() == old(Contents()) != []
      ensures root == Contents()[if comp < 0 then 0 else |Contents()| - 1]
      ensures var p := if comp < 0 then First else Last;
        shape == After(old(shape), Access(p)) && turns == Cost(old(shape), Access(p))
    {
      hide Distinct, Size, Partition;
      var node := Header();
      var left, right := node, node;
      ghost var s, t, g := NoSmaller, shape, NoLarger;
      ghost var p := if comp < 0 then First else Last;
      turns := 0;
      var more := true;
      while more
        invariant node in links && links.Keys == old(links.Keys) + {node} && shape == old(shape)
        invariant InLoop(node, s, t, g) && left == SmallerEnd(s, node) && right == LargerEnd(g, node)
        invariant Whole(s, t, g) == old(Contents())
        invariant if comp < 0 then s.NoSmaller? && (more || t.l.Leaf?) else g.NoLarger? && (more || t.r.Leaf?)
        invariant Splayed(shape, p) == if more then Destined(s, t, g, p) else Assembled(s, t, g)
        invariant Turns(shape, p) == turns + if more then Partition(t, p).turns else 0
        decreases more, Size(t)
      {
        turns := turns + 1;
        if comp < 0 {
          more, right, t, g := TurnMin(right, node, s, t, g);
        } else {
          more, left, s, t := TurnMax(left, node, s, t, g);
        }
      }
      EndOfAssembled(s, t, g);
      Assemble(node, left, right, s, t, g);
    }

    method Find(elm: Node) returns (r: Node?, ghost turns: nat)
      requires Valid()
      modifies this, links.Keys
      ensures Valid() && links.Keys == old(links.Keys) && Contents() == old(Contents())
      ensures r != null ==> r in Contents() && r.key == elm.key && r == root
      ensures r == null ==> forall n | n in Contents() :: n.key != elm.key
      ensures shape == After(old(shape), Access(Key(elm.key))) && turns == Cost(old(shape), Access(Key(elm.key)))
    {
      if root == null {
        return null, 0;
      }
      turns := Splay(elm);
      AroundRoot(shape, elm.key);
      if Cmp(elm, root) == 0 {
        return root, turns;
      }
      return null, turns;
    }

    // The in-order successor of a node of the tree.
    method Next(start: Node, ghost i: nat) returns (elm: Node?, ghost turns: nat, ghost steps: nat)
      requires Valid() && i < |Contents()| && Contents()[i] == start
      modifies this, links.Keys
      ensures Valid() && links.Keys == old(links.Keys) && Contents() == old(Contents())
      ensures elm == if i + 1 < |Contents()| then Contents()[i + 1] else null
      ensures shape == After(old(shape), Call.Next(start)) && turns == Cost(old(shape), Call.Next(start))
      ensures steps == Walk(old(shape), Call.Next(start))
    {
      NotEmpty(links, root, shape);
      turns := Splay(start);
      RootIs(shape, start, i);
      assert start in links;
      if start.right != null {
        elm := start.right;
        steps := 1;
        ghost var t := shape.r;
        while elm.left != null
          invariant t.Bin? && t.n == elm && Linked(links, t) && Inorder(t) <= Inorder(shape.r)
          invariant steps + Spine(t.l) == Spine(shape.r)
          decreases t
        {
          elm := elm.left;
          steps := steps + 1;
          t := t.l;
        }
        assert Inorder(t)[0] == elm;
      } else {
        elm, steps := null, 0;
      }
    }

    // SPLAY_FOREACH, collecting the elements.
    method ForEach() returns (visited: seq<Node>, ghost spent: nat)
      requires Valid()
      modifies this, links.Keys
      ensures Valid() && links.Keys == old(links.Keys) && Contents() == old(Contents()) == visited
      ensures spent == Spent(old(shape), Scan(old(shape)))
    {
      hide Spent, After, Cost, Walk, Nexts, Ordered, Distinct, Scan, Linked, Nodes;
      visited, spent := [], 0;
      ghost var all := Contents();
      ScanStarts(shape);
      var x := null;
      if root != null {
        spent := MinMax(-1);
        x := root;
      } else {
        assert Contents() == [];
      }
      assert all[0..] == all;
      while x != null
        invariant Valid() && links.Keys == old(links.Keys) && Contents() == all
        invariant |visited| <= |all| && visited == all[..|visited|]
        invariant x == if |visited| < |all| then all[|visited|] else null
        invariant spent + Spent(shape, Nexts(all[|visited|..])) == Spent(old(shape), Scan(old(shape)))
        decreases |all| - |visited|
      {
        ScanGoesOn(shape, all[|visited|..]);
        assert all[|visited|..][1..] == all[|visited| + 1..];
        ghost var turns, steps;
        var y;
        y, turns, steps := Next(x, |visited|);
        visited, x := visited + [x], y;
        spent := spent + turns + steps;
      }
      ScanEnds(shape);
      assert all[..|all|] == all && all[|all|..] == [];
    }

    // The fields of the new root, once the tree has been splayed.
    method InsertFields(elm: Node, comp: int)
      requires Mirrored() && root != null && root in links && elm !in links && comp != 0
      modifies this, elm, root
      ensures Mirrored() && root == elm && shape == old(shape)
      ensures links == NewRoot(old(links), elm, old(root), comp < 0)
    {
      if comp < 0 {
        elm.left := root.left;
        elm.right := root;
        links := links[elm := Fork(links[root].left, root)];
        SetLeft(root, null);
      } else {
        elm.right := root.right;
        elm.left := root;
        links := links[elm := Fork(root, links[root].right)];
        SetRight(root, null);
      }
      root := elm;
    }

    method Insert(elm: Node) returns (r: Node?, ghost turns: nat)
      requires Valid()
      modifies this, links.Keys, elm
      ensures Valid()
      ensures r == null ==> elm !in old(links) && links.Keys == old(links.Keys) + {elm} && root == elm
      ensures r == null ==> Contents() == With(old(Contents()), elm)
      ensures r == null ==> forall n | n in old(Contents()) :: n.key != elm.key
      ensures r != null ==> r in Contents() && r.key == elm.key
      ensures r != null ==> Contents() == old(Contents()) && links.Keys == old(links.Keys)
      ensures shape == After(old(shape), Call.Insert(elm)) && turns == Cost(old(shape), Call.Insert(elm))
    {
      if root == null {
        InsertFirst(elm);
        return null, 0;
      }
      turns := Splay(elm);
      AroundRoot(shape, elm.key);
      var comp := Cmp(elm, root);
      if comp == 0 {
        return root, turns;
      }
      NodesInorder(shape, elm);
      InsertRoot(elm, comp);
      return null, turns;
    }

    method InsertFirst(elm: Node)
      requires Valid() && root == null
      modifies this, elm
      ensures Valid() && links.Keys == {elm} && root == elm && shape == Bin(Leaf, elm, Leaf)
      ensures old(links) == map[] && old(shape) == Leaf
    {
      assert links.Keys == {} && shape.Leaf?;
      elm.left, elm.right := null, null;
      links := map[elm := Fork(null, null)];
      shape := Bin(Leaf, elm, Leaf);
      assert Inorder(shape) == [elm] && Linked(links, shape);
      root := elm;
    }

    // The new node becomes the root of the splayed tree.
    method InsertRoot(elm: Node, comp: int)
      requires Valid() && shape.Bin? && elm !in links && comp == Cmp(elm, shape.n) != 0
      requires AllBelow(Inorder(shape.l), elm.key) && AllAbove(Inorder(shape.r), elm.key)
      modifies this, links.Keys, elm
      ensures Valid() && links.Keys == old(links.Keys) + {elm} && root == elm
      ensures shape == NewRootTree(old(shape), elm, comp < 0) && Contents() == With(old(Contents()), elm)
      ensures forall n | n in old(Contents()) :: n.key != elm.key
    {
      NewRootLinks(links, root, shape, elm, comp < 0);
      NewRootSeq(shape, elm, comp < 0);
      InsertFields(elm, comp);
      shape := NewRootTree(shape, elm, comp < 0);
    }

    // Returns its argument when an element with its key was removed.
    method Remove(elm: Node) returns (r: Node?, ghost turns: nat)
      requires Valid()
      modifies this, links.Keys
      ensures Valid()
      ensures r != null ==> r == elm && exists n | n in old(links) ::
        n.key == elm.key && Contents() == Without(old(Contents()), n) && links.Keys == old(links.Keys) - {n}
      ensures r == null ==> Contents() == old(Contents()) && links.Keys == old(links.Keys)
      ensures r == null ==> forall n | n in Contents() :: n.key != elm.key
      ensures shape == After(old(shape), Call.Remove(elm.key)) && turns == Cost(old(shape), Call.Remove(elm.key))
    {
      hide Linked, Distinct;
      if root == null {
        return null, 0;
      }
      turns := Splay(elm);
      AroundRoot(shape, elm.key);
      if Cmp(elm, root) == 0 {
        ghost var n := root;
        assert n in old(links) by { assert n in links.Keys; }
        ghost var more := RemoveRoot(elm);
        return elm, turns + more;
      }
      return null, turns;
    }

    // The two arms of SPLAY_REMOVE, for a splayed root that has the key.
    method RemoveRoot(elm: Node) returns (ghost turns: nat)
      requires Valid() && root != null && root.key == elm.key
      requires AllBelow(Inorder(shape.l), elm.key)
      modifies this, links.Keys
      ensures Valid() && links.Keys == old(links.Keys) - {old(root)}
      ensures Contents() == Without(old(Contents()), old(root))
      ensures shape == WithoutRoot(old(shape), elm.key) && turns == Turns(old(shape).l, Key(elm.key))
    {
      hide Without;
      DropRootLinks(links, root, shape);
      DropRootSeq(shape);
      if root.left == null {
        links := links - {root};
        root := root.right;
        shape := shape.r;
        turns := 0;
      } else {
        turns := JoinSubtrees(elm);
      }
    }

    // The left subtree is splayed for the removed key, then takes the right one.
    method JoinSubtrees(elm: Node) returns (ghost turns: nat)
      requires Valid() && shape.Bin? && shape.l.Bin? && AllBelow(Inorder(shape.l), elm.key)
      modifies this, links.Keys
      ensures Valid() && links.Keys == old(links.Keys) - {old(root)}
      ensures Contents() == Inorder(old(shape).l) + Inorder(old(shape).r)
      ensures shape == WithoutRoot(old(shape), elm.key) && turns == Turns(old(shape).l, Key(elm.key))
    {
      hide Splayed, Turns, Inorder;
      ghost var t, v := shape, links;
      DropRootLinks(v, root, t);
      DropRootSeq(t);
      var tmp := root.right;
      root := root.left;
      links, shape := Restrict(v, Nodes(t.l)), t.l;
      turns := Splay(elm);
      OnlySmaller(t.l, shape, elm.key);
      Hang(tmp, v, t.r);
    }

    // Hangs the saved right subtree from the new root.
    method Hang(tmp: Node?, ghost v: Links, ghost r: Tree)
      requires Valid() && shape.Bin? && shape.r.Leaf? && tmp == Root(r)
      requires Linked(v, r) && Distinct(r) && Nodes(r) <= v.Keys && links.Keys !! Nodes(r)
      requires forall n | n in Nodes(r) :: n.left == v[n].left && n.right == v[n].right
      requires Ordered(Inorder(shape) + Inorder(r))
      modifies this, root
      ensures Valid() && links.Keys == old(links.Keys) + Nodes(r)
      ensures Contents() == old(Contents()) + Inorder(r)
      ensures shape == Bin(old(shape).l, old(shape).n, r)
    {
      assert shape.n in links;
      HangLinks(links, root, shape, v, r);
      HangSeq(shape, r);
      links := links + Restrict(v, Nodes(r));
      SetRight(root, tmp);
      shape := Bin(shape.l, shape.n, r);
      assert Mirrored();
      assert Ordered(Inorder(shape));
      assert links == Hung(old(links), root, v, r);
    }
  }
}
