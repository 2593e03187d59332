// How long splaying takes (include/tree.h:46-48): the loop as a function of the
// tree, and the potential that pays for its turns.
module SplayCost {
  import opened Elements
  import opened Logarithms
  import opened SplayShape

  // What is splayed for: a key, or the first or the last element.
  datatype Probe = Key(key: int) | First | Last

  ghost function Compare(p: Probe, n: Node): int {
    match p
    case Key(k) => if k < n.key then -1 else if n.key < k then 1 else 0
    case First => -1
    case Last => 1
  }

  // What the loop takes a tree apart into, and how often it turns for that.
  datatype Parts = Parts(small: Tree, n: Node, big: Tree, turns: nat)

  ghost function Partition(t: Tree, p: Probe): Parts
    requires t.Bin?
    decreases t, 1
  {
    if Compare(p, t.n) < 0 then
      if t.l.Leaf? then Parts(t.l, t.n, t.r, 1)
      else if Compare(p, t.l.n) < 0 then LeftLeft(t, p)
      else var rest := Partition(t.l, p); Parts(rest.small, rest.n, Bin(rest.big, t.n, t.r), rest.turns + 1)
    else if Compare(p, t.n) > 0 then
      if t.r.Leaf? then Parts(t.l, t.n, t.r, 1)
      else if Compare(p, t.r.n) > 0 then RightRight(t, p)
      else var rest := Partition(t.r, p); Parts(Bin(t.l, t.n, rest.small), rest.n, rest.big, rest.turns + 1)
    else Parts(t.l, t.n, t.r, 0)
  }

  // A turn with a rotation.
  ghost function LeftLeft(t: Tree, p: Probe): Parts
    requires t.Bin? && t.l.Bin?
    decreases t, 0
  {
    var larger := Bin(t.l.r, t.n, t.r);
    if t.l.l.Leaf? then Parts(t.l.l, t.l.n, larger, 1)
    else var rest := Partition(t.l.l, p); Parts(rest.small, rest.n, Bin(rest.big, t.l.n, larger), rest.turns + 1)
  }

  ghost function RightRight(t: Tree, p: Probe): Parts
    requires t.Bin? && t.r.Bin?
    decreases t, 0
  {
    var smaller := Bin(t.l, t.n, t.r.l);
    if t.r.r.Leaf? then Parts(smaller, t.r.n, t.r.r, 1)
    else var rest := Partition(t.r.r, p); Parts(Bin(smaller, t.r.n, rest.small), rest.n, rest.big, rest.turns + 1)
  }

  ghost function Splayed(t: Tree, p: Probe): Tree {
    if t.Leaf? then t else var q := Partition(t, p); Bin(q.small, q.n, q.big)
  }

  ghost function Turns(t: Tree, p: Probe): nat {
    if t.Leaf? then 0 else Partition(t, p).turns
  }

  // The tree the loop is about to assemble from the spines and what is left.
  ghost function Destined(s: Smaller, t: Tree, g: Larger, p: Probe): Tree
    requires t.Bin?
  {
    var q := Partition(t, p);
    Bin(CloseSmaller(s, q.small), q.n, CloseLarger(g, q.big))
  }

  // One turn of the loop from s, t, g to s', t', g', the last one unless more.
  ghost predicate Turned(s: Smaller, t: Tree, g: Larger, s': Smaller, t': Tree, g': Larger, p: Probe, more: bool)
    requires t.Bin? && t'.Bin?
  {
    && Partition(t, p).turns == 1 + (if more then Partition(t', p).turns else 0)
    && Destined(s, t, g, p) == if more then Destined(s', t', g', p) else Assembled(s', t', g')
  }

  lemma {:induction false} LoopStarts(t: Tree, p: Probe)
    requires t.Bin?
    ensures Destined(NoSmaller, t, NoLarger, p) == Splayed(t, p) && Partition(t, p).turns == Turns(t, p)
  {
  }

  lemma {:induction false} LoopStops(s: Smaller, t: Tree, g: Larger, p: Probe)
    requires t.Bin? && Compare(p, t.n) == 0
    ensures Destined(s, t, g, p) == Assembled(s, t, g) && Partition(t, p).turns == 0
  {
  }

  lemma {:induction false} TurnsLeft(s: Smaller, t: Tree, g: Larger, p: Probe)
    requires t.Bin? && Compare(p, t.n) < 0
    ensures t.l.Leaf? ==> Turned(s, t, g, s, t, g, p, false)
    ensures t.l.Bin? && Compare(p, t.l.n) >= 0 ==> Turned(s, t, g, s, t.l, AddLarger(g, t.n, t.r), p, true)
    ensures t.l.Bin? && Compare(p, t.l.n) < 0 ==>
      var r := Bin(t.l.r, t.n, t.r);
      if t.l.l.Leaf? then Turned(s, t, g, s, Bin(t.l.l, t.l.n, r), g, p, false)
      else Turned(s, t, g, s, t.l.l, AddLarger(g, t.l.n, r), p, true)
  {
  }

  lemma {:induction false} TurnsRight(s: Smaller, t: Tree, g: Larger, p: Probe)
    requires t.Bin? && Compare(p, t.n) > 0
    ensures t.r.Leaf? ==> Turned(s, t, g, s, t, g, p, false)
    ensures t.r.Bin? && Compare(p, t.r.n) <= 0 ==> Turned(s, t, g, AddSmaller(s, t.l, t.n), t.r, g, p, true)
    ensures t.r.Bin? && Compare(p, t.r.n) > 0 ==>
      var l := Bin(t.l, t.n, t.r.l);
      if t.r.r.Leaf? then Turned(s, t, g, s, Bin(l, t.r.n, t.r.r), g, p, false)
      else Turned(s, t, g, AddSmaller(s, l, t.r.n), t.r.r, g, p, true)
  {
  }

  // ---- the potential: 2^(the sum of lg weight over all subtrees)

  ghost function Weight(t: Tree): (w: nat)
    ensures w == Size(t) + 1
  {
    if t.Leaf? then 1 else Weight(t.l) + Weight(t.r)
  }

  ghost function Potential(t: Tree): (m: nat)
    ensures m > 0
  {
    if t.Leaf? then 1 else
      Product(1, Potential(t.l), 1, Potential(t.r));
      Product(1, Potential(t.l) * Potential(t.r), 1, Weight(t));
      Potential(t.l) * Potential(t.r) * Weight(t)
  }

  lemma {:induction false} PartsWeigh(t: Tree, p: Probe)
    requires t.Bin?
    ensures var q := Partition(t, p); Weight(q.small) + Weight(q.big) == Weight(t)
  {
    if Compare(p, t.n) < 0 && t.l.Bin? {
      if Compare(p, t.l.n) >= 0 { PartsWeigh(t.l, p); }
      else if t.l.l.Bin? { PartsWeigh(t.l.l, p); }
    } else if Compare(p, t.n) > 0 && t.r.Bin? {
      if Compare(p, t.r.n) <= 0 { PartsWeigh(t.r, p); }
      else if t.r.r.Bin? { PartsWeigh(t.r.r, p); }
    }
  }

  // ---- arithmetic of one turn

  // Twice the geometric mean is at most the sum.
  lemma {:induction false} Means(a: nat, b: nat)
    ensures 4 * (a * b) <= (a + b) * (a + b)
  {
    assert (a + b) * (a + b) - 4 * (a * b) == (a - b) * (a - b);
  }

  lemma {:induction false} RotationPays(a: nat, b: nat, c: nat, t: nat)
    requires t == a + b + c
    ensures 2 * (a * a) * (b + c) <= (a + b) * (t * t)
  {
    var s := b + c;
    Means(a, s);
    Product(a, a + b, 4 * (a * s), t * t);
    Commuted(a, s);
  }

  lemma {:induction false} Commuted(a: nat, s: nat)
    ensures a * (4 * (a * s)) == 4 * ((a * a) * s)
    ensures 2 * (a * a) * s == 2 * ((a * a) * s)
  {
    assert a * (a * s) == (a * a) * s;
  }

  lemma {:induction false} Gathered(pa: nat, q: nat, k: nat, s: nat, t: nat)
    ensures 2 * ((pa * q) * (k * s * t)) == (pa * k * t) * (2 * q * s)
  {
    assert (pa * q) * (k * s * t) == (pa * k * t) * (q * s);
  }

  // A turn with a rotation: a, b and c are the weights of the subtrees in order from
  // the inner end, pa, pb and pc their potentials.  The inner one is parted into
  // potentials u and v, and v goes below a node of weight w, beside one of b + c.
  lemma {:induction false} RotatingTurn(e: nat, u: nat, v: nat, pa: nat, pb: nat, pc: nat,
                                        a: nat, b: nat, c: nat, w: nat, t: nat)
    requires e * (u * v) <= pa * (a * a) && w <= t == a + b + c
    ensures 2 * e * (u * (v * (pb * pc * (b + c)) * w)) <= pa * pb * (a + b) * pc * t * (t * t)
    ensures 2 * e * (pc * pb * (c + b) * v * w * u) <= pc * (pb * pa * (b + a)) * t * (t * t)
  {
    RotationPays(a, b, c, t);
    RotationSaves(e * (u * v), pa, pb * pc, a * a, b + c, w, t, a + b, t * t);
    Rotated(e, u, v, pb * pc * (b + c), w);
    Unrotated(pa, pb, pc, a + b, t);
  }

  lemma {:induction false} RotationSaves(x: nat, pa: nat, k: nat, q: nat, s: nat, w: nat, t: nat, r: nat, z: nat)
    requires x <= pa * q && w <= t && 2 * q * s <= r * z
    ensures 2 * (x * (k * s * w)) <= (pa * k * t) * (r * z)
  {
    Product(k * s, k * s, w, t);
    Product(x, pa * q, k * s * w, k * s * t);
    Gathered(pa, q, k, s, t);
    Product(pa * k * t, pa * k * t, 2 * q * s, r * z);
  }

  lemma {:induction false} Rotated(e: nat, u: nat, v: nat, k: nat, w: nat)
    ensures 2 * e * (u * (v * k * w)) == 2 * ((e * (u * v)) * (k * w))
    ensures 2 * e * (k * v * w * u) == 2 * ((e * (u * v)) * (k * w))
  {
  }

  lemma {:induction false} Unrotated(pa: nat, pb: nat, pc: nat, ab: nat, t: nat)
    ensures (pa * (pb * pc) * t) * (ab * (t * t)) == pa * pb * ab * pc * t * (t * t)
    ensures (pa * (pb * pc) * t) * (ab * (t * t)) == pc * (pb * pa * ab) * t * (t * t)
  {
  }

  // A turn without one: the inner tree, of potential pa, is parted into u and v, and
  // pc is hung below a node of weight w.  What that takes of the inner tree is known
  // from the turn after it.
  lemma {:induction false} FirstTurn(e: nat, u: nat, v: nat, pa: nat, pc: nat, w: nat, t: nat)
    requires 2 * ((e * (u * v)) * w) <= pa * (t * (t * t))
    ensures 2 * e * (u * (v * pc * w)) <= pa * pc * t * (t * t)
    ensures 2 * e * (pc * v * w * u) <= pc * pa * t * (t * t)
  {
    Product(2 * ((e * (u * v)) * w), pa * (t * (t * t)), pc, pc);
    Unturned(e, u, v, pc, w);
    Cubed(pa, pc, t);
  }

  lemma {:induction false} Unturned(e: nat, u: nat, v: nat, pc: nat, w: nat)
    ensures 2 * ((e * (u * v)) * w) * pc == 2 * e * (u * (v * pc * w)) == 2 * e * (pc * v * w * u)
  {
  }

  lemma {:induction false} Cubed(pa: nat, pc: nat, t: nat)
    ensures pa * (t * (t * t)) * pc == pa * pc * t * (t * t) == pc * pa * t * (t * t)
  {
  }

  // Where the turn after it is the last.
  lemma {:induction false} LastTurn(x: nat, pa: nat, w: nat, t: nat)
    requires x <= pa && w <= t && 2 <= t
    ensures 2 * (x * w) <= pa * (t * (t * t))
  {
    Product(2, t, w, t);
    Product(1, t, 2 * w, t * t);
    Product(x, pa, 2 * w, t * (t * t));
  }

  // Where it goes the other way: m is the weight of the tree that both turns leave
  // and pm its potential; x pays for parting it, and the parts get weights w and y.
  // What the second turn steps over counts d' before it and d after it.
  lemma {:induction false} TwoTurns(x: nat, pm: nat, m: nat, d: nat, d': nat, w: nat, y: nat, t: nat)
    requires x <= pm * (m * m) && t == w + y && m <= t && d * m <= d'
    ensures 4 * ((x * d) * (w * y)) <= (pm * d') * (t * (t * t))
  {
    Means(w, y);
    Product(x, pm * (m * m), d, d);
    Product(x * d, pm * (m * m) * d, 4 * (w * y), t * t);
    Product(pm, pm, d * m, d');
    Product(m, t, t * t, t * t);
    Product(pm * (d * m), pm * d', m * (t * t), t * (t * t));
    Sorted(x, d, w * y, pm, m, t * t);
  }

  lemma {:induction false} Sorted(x: nat, d: nat, y: nat, pm: nat, m: nat, z: nat)
    ensures (x * d) * (4 * y) == 4 * ((x * d) * y)
    ensures (pm * (m * m) * d) * z == (pm * (d * m)) * (m * z)
  {
  }

  lemma {:induction false} PlainTwice(e: nat, u: nat, v: nat, pm: nat, pa: nat, m: nat, l: nat, w: nat, y: nat, t: nat)
    requires e * (u * v) <= pm * (m * m) && t == w + y && m <= l <= t
    ensures 2 * (2 * e * (pa * v * y * u) * w) <= pa * pm * l * (t * (t * t))
    ensures 2 * (2 * e * (u * (v * pa * y)) * w) <= pm * pa * l * (t * (t * t))
  {
    Product(pa, pa, m, l);
    TwoTurns(e * (u * v), pm, m, pa, pa * l, w, y, t);
    Twice(e, u, v, pa, y, w);
    Thrice(pm, pa, l);
  }

  lemma {:induction false} Twice(e: nat, u: nat, v: nat, pa: nat, y: nat, w: nat)
    ensures 4 * (((e * (u * v)) * pa) * (w * y)) == 2 * (2 * e * (pa * v * y * u) * w)
    ensures 4 * (((e * (u * v)) * pa) * (w * y)) == 2 * (2 * e * (u * (v * pa * y)) * w)
  {
  }

  lemma {:induction false} Thrice(pm: nat, pa: nat, l: nat)
    ensures pm * (pa * l) == pa * pm * l == pm * pa * l
  {
  }

  lemma {:induction false} PlainRotating(e: nat, u: nat, v: nat, pa: nat, pb: nat, pd: nat,
                                         a: nat, b: nat, d: nat, w: nat, y: nat, t: nat)
    requires e * (u * v) <= pa * (a * a) && t == w + y && a + b + d <= t
    ensures 2 * (2 * e * (pd * pb * (d + b) * v * y * u) * w) <= pd * (pb * pa * (b + a)) * (d + (b + a)) * (t * (t * t))
    ensures 2 * (2 * e * (u * (v * (pb * pd * (b + d)) * y)) * w) <= pa * pb * (a + b) * pd * (a + b + d) * (t * (t * t))
  {
    var k, s, r, l := pb * pd, b + d, a + b, a + b + d;
    Product(s, l, a, r);
    Product(k, k, s * a, l * r);
    assert (k * s) * a == k * (s * a);
    TwoTurns(e * (u * v), pa, a, k * s, k * (l * r), w, y, t);
    Stepped(e, u, v, pb, pd, s, y, w);
    SteppedOver(pa, pb, pd, r, l);
  }

  lemma {:induction false} Stepped(e: nat, u: nat, v: nat, pb: nat, pd: nat, s: nat, y: nat, w: nat)
    ensures 4 * (((e * (u * v)) * (pb * pd * s)) * (w * y)) == 2 * (2 * e * (pd * pb * s * v * y * u) * w)
    ensures 4 * (((e * (u * v)) * (pb * pd * s)) * (w * y)) == 2 * (2 * e * (u * (v * (pb * pd * s) * y)) * w)
  {
  }

  lemma {:induction false} SteppedOver(pa: nat, pb: nat, pd: nat, r: nat, l: nat)
    ensures pa * ((pb * pd) * (l * r)) == pd * (pb * pa * r) * l
    ensures pa * ((pb * pd) * (l * r)) == pa * pb * r * pd * l
  {
  }

  // ---- what the turns of one splay cost

  ghost function Paid(q: Parts): nat {
    Pow2(q.turns) * (Potential(q.small) * Potential(q.big))
  }

  // Where the loop stops at once, it pays with the weight of the root.
  ghost predicate StopsAt(t: Tree, p: Probe)
    requires t.Bin?
  {
    var c := Compare(p, t.n);
    c == 0
    || (c < 0 && (t.l.Leaf? || (Compare(p, t.l.n) < 0 && t.l.l.Leaf?)))
    || (c > 0 && (t.r.Leaf? || (Compare(p, t.r.n) > 0 && t.r.r.Leaf?)))
  }

  lemma {:induction false} StopPays(t: Tree, p: Probe)
    requires t.Bin? && StopsAt(t, p)
    ensures Paid(Partition(t, p)) <= Potential(t)
  {
    var q, pl, pr, w := Partition(t, p), Potential(t.l), Potential(t.r), Weight(t);
    assert Pow2(1) == 2;
    if Compare(p, t.n) == 0 || (if Compare(p, t.n) < 0 then t.l.Leaf? else t.r.Leaf?) {
      assert Paid(q) <= 2 * (pl * pr);
      Product(pl * pr, pl * pr, 2, w);
    } else if Compare(p, t.n) < 0 {
      RotatedStop(Potential(t.l.r), pr, Weight(t.l.r), Weight(t.r));
    } else {
      RotatedStop(Potential(t.r.l), pl, Weight(t.r.l), Weight(t.l));
    }
  }

  lemma {:induction false} RotatedStop(pb: nat, pc: nat, b: nat, c: nat)
    requires b >= 1
    ensures 2 * (1 * (pb * pc * (b + c))) <= 1 * pb * (1 + b) * pc * (1 + b + c)
    ensures 2 * (pc * pb * (c + b) * 1) <= pc * (pb * 1 * (b + 1)) * (c + (b + 1))
  {
    Product(2, 1 + b, b + c, 1 + b + c);
    Product(pb * pc, pb * pc, 2 * (b + c), (1 + b) * (1 + b + c));
  }

  // All turns of the loop, and what the parts then still hold, are paid for by the
  // potential of the tree and twice the logarithm of its weight.
  lemma {:induction false} SplitPays(t: Tree, p: Probe)
    requires t.Bin?
    ensures Paid(Partition(t, p)) <= Potential(t) * (Weight(t) * Weight(t))
    decreases t, 1
  {
    var w := Weight(t);
    if StopsAt(t, p) {
      StopPays(t, p);
      Product(1, w, 1, w);
      Product(Potential(t), Potential(t), 1, w * w);
    } else if Compare(p, t.n) < 0 {
      if Compare(p, t.l.n) < 0 { LeftLeftPays(t, p); } else { LeftPays(t, p); }
    } else {
      if Compare(p, t.r.n) > 0 { RightRightPays(t, p); } else { RightPays(t, p); }
    }
  }

  lemma {:induction false} LeftLeftPays(t: Tree, p: Probe)
    requires t.Bin? && t.l.Bin? && t.l.l.Bin? && Compare(p, t.n) < 0 && Compare(p, t.l.n) < 0
    ensures Paid(Partition(t, p)) <= Potential(t) * (Weight(t) * Weight(t))
    decreases t, 0
  {
    var a, b, c := t.l.l, t.l.r, t.r;
    var q := Partition(a, p);
    var big := Bin(q.big, t.l.n, Bin(b, t.n, c));
    hide Partition, Pow2, Potential, Weight;
    LeftLeftParts(t, p);
    SplitPays(a, p);
    PartsWeigh(a, p);
    Opened(big.r);
    Opened(big);
    Opened(t.l);
    Opened(t);
    RotatingTurn(Pow2(q.turns), Potential(q.small), Potential(q.big), Potential(a), Potential(b), Potential(c),
                 Weight(a), Weight(b), Weight(c), Weight(big), Weight(t));
  }

  lemma {:induction false} LeftLeftParts(t: Tree, p: Probe)
    requires t.Bin? && t.l.Bin? && t.l.l.Bin? && Compare(p, t.n) < 0 && Compare(p, t.l.n) < 0
    ensures var q, rest := Partition(t, p), Partition(t.l.l, p);
      && q == Parts(rest.small, rest.n, Bin(rest.big, t.l.n, Bin(t.l.r, t.n, t.r)), rest.turns + 1)
      && Pow2(q.turns) == 2 * Pow2(rest.turns)
  {
  }

  lemma {:induction false} RightRightParts(t: Tree, p: Probe)
    requires t.Bin? && t.r.Bin? && t.r.r.Bin? && Compare(p, t.n) > 0 && Compare(p, t.r.n) > 0
    ensures var q, rest := Partition(t, p), Partition(t.r.r, p);
      && q == Parts(Bin(Bin(t.l, t.n, t.r.l), t.r.n, rest.small), rest.n, rest.big, rest.turns + 1)
      && Pow2(q.turns) == 2 * Pow2(rest.turns)
  {
  }

  lemma {:induction false} Opened(t: Tree)
    requires t.Bin?
    ensures Potential(t) == Potential(t.l) * Potential(t.r) * Weight(t) && Weight(t) == Weight(t.l) + Weight(t.r)
  {
  }

  lemma {:induction false} RightRightPays(t: Tree, p: Probe)
    requires t.Bin? && t.r.Bin? && t.r.r.Bin? && Compare(p, t.n) > 0 && Compare(p, t.r.n) > 0
    ensures Paid(Partition(t, p)) <= Potential(t) * (Weight(t) * Weight(t))
    decreases t, 0
  {
    var a, b, c := t.r.r, t.r.l, t.l;
    var q := Partition(a, p);
    var small := Bin(Bin(c, t.n, b), t.r.n, q.small);
    hide Partition, Pow2, Potential, Weight;
    RightRightParts(t, p);
    SplitPays(a, p);
    PartsWeigh(a, p);
    Opened(small.l);
    Opened(small);
    Opened(t.r);
    Opened(t);
    RotatingTurn(Pow2(q.turns), Potential(q.big), Potential(q.small), Potential(a), Potential(b), Potential(c),
                 Weight(a), Weight(b), Weight(c), Weight(small), Weight(t));
  }

  lemma {:induction false} LeftPays(t: Tree, p: Probe)
    requires t.Bin? && t.l.Bin? && Compare(p, t.n) < 0 && Compare(p, t.l.n) >= 0
    ensures Paid(Partition(t, p)) <= Potential(t) * (Weight(t) * Weight(t))
    decreases t, 0
  {
    var q := Partition(t.l, p);
    var big := Bin(q.big, t.n, t.r);
    assert Partition(t, p) == Parts(q.small, q.n, big, q.turns + 1) && Pow2(q.turns + 1) == 2 * Pow2(q.turns);
    BeforeLeft(t.l, p, Weight(t.r));
    Opened(big);
    Opened(t);
    hide Partition, Pow2, Potential, Weight;
    FirstTurn(Pow2(q.turns), Potential(q.small), Potential(q.big), Potential(t.l), Potential(t.r), Weight(big), Weight(t));
  }

  lemma {:induction false} RightPays(t: Tree, p: Probe)
    requires t.Bin? && t.r.Bin? && Compare(p, t.n) > 0 && Compare(p, t.r.n) <= 0
    ensures Paid(Partition(t, p)) <= Potential(t) * (Weight(t) * Weight(t))
    decreases t, 0
  {
    var q := Partition(t.r, p);
    var small := Bin(t.l, t.n, q.small);
    assert Partition(t, p) == Parts(small, q.n, q.big, q.turns + 1) && Pow2(q.turns + 1) == 2 * Pow2(q.turns);
    BeforeRight(t.r, p, Weight(t.l));
    Opened(small);
    Opened(t);
    hide Partition, Pow2, Potential, Weight;
    FirstTurn(Pow2(q.turns), Potential(q.big), Potential(q.small), Potential(t.r), Potential(t.l), Weight(small), Weight(t));
  }

  // What is left to pay before a turn to the left without a rotation, which hangs
  // a subtree of weight c on the larger side: the turn after it goes to the right.
  lemma {:induction false} BeforeLeft(t: Tree, p: Probe, c: nat)
    requires t.Bin? && Compare(p, t.n) >= 0 && c >= 1
    ensures var q, w := Partition(t, p), Weight(t) + c;
      2 * (Paid(q) * (Weight(q.big) + c)) <= Potential(t) * (w * (w * w))
    decreases t, 0
  {
    var q := Partition(t, p);
    PartsWeigh(t, p);
    if StopsAt(t, p) {
      StopPays(t, p);
      LastTurn(Paid(q), Potential(t), Weight(q.big) + c, Weight(t) + c);
    } else if Compare(p, t.r.n) <= 0 {
      SplitPays(t.r, p);
      LeftThenRight(t, p, c);
    } else {
      SplitPays(t.r.r, p);
      LeftThenRightRight(t, p, c);
    }
  }

  lemma {:induction false} LeftThenRight(t: Tree, p: Probe, c: nat)
    requires t.Bin? && t.r.Bin? && Compare(p, t.n) > 0 && Compare(p, t.r.n) <= 0
    requires var q := Partition(t, p); Weight(q.small) + Weight(q.big) == Weight(t)
    requires Paid(Partition(t.r, p)) <= Potential(t.r) * (Weight(t.r) * Weight(t.r))
    ensures var q, w := Partition(t, p), Weight(t) + c;
      2 * (Paid(q) * (Weight(q.big) + c)) <= Potential(t) * (w * (w * w))
  {
    var q, rest := Partition(t, p), Partition(t.r, p);
    assert q == Parts(Bin(t.l, t.n, rest.small), rest.n, rest.big, rest.turns + 1) && Pow2(q.turns) == 2 * Pow2(rest.turns);
    Opened(q.small);
    Opened(t);
    hide Partition, Pow2, Potential, Weight;
    PlainTwice(Pow2(rest.turns), Potential(rest.big), Potential(rest.small), Potential(t.r), Potential(t.l),
               Weight(t.r), Weight(t), Weight(q.big) + c, Weight(q.small), Weight(t) + c);
  }

  lemma {:induction false} LeftThenRightRight(t: Tree, p: Probe, c: nat)
    requires t.Bin? && t.r.Bin? && t.r.r.Bin? && Compare(p, t.n) > 0 && Compare(p, t.r.n) > 0
    requires var q := Partition(t, p); Weight(q.small) + Weight(q.big) == Weight(t)
    requires Paid(Partition(t.r.r, p)) <= Potential(t.r.r) * (Weight(t.r.r) * Weight(t.r.r))
    ensures var q, w := Partition(t, p), Weight(t) + c;
      2 * (Paid(q) * (Weight(q.big) + c)) <= Potential(t) * (w * (w * w))
  {
    var a, b, d := t.r.r, t.r.l, t.l;
    var q, rest := Partition(t, p), Partition(a, p);
    var small := Bin(Bin(d, t.n, b), t.r.n, rest.small);
    hide Partition, Pow2, Potential, Weight;
    RightRightParts(t, p);
    Opened(small.l);
    Opened(small);
    Opened(t.r);
    Opened(t);
    PlainRotating(Pow2(rest.turns), Potential(rest.big), Potential(rest.small), Potential(a), Potential(b), Potential(d),
                  Weight(a), Weight(b), Weight(d), Weight(q.big) + c, Weight(small), Weight(t) + c);
  }

  lemma {:induction false} BeforeRight(t: Tree, p: Probe, c: nat)
    requires t.Bin? && Compare(p, t.n) <= 0 && c >= 1
    ensures var q, w := Partition(t, p), Weight(t) + c;
      2 * (Paid(q) * (c + Weight(q.small))) <= Potential(t) * (w * (w * w))
    decreases t, 0
  {
    var q := Partition(t, p);
    PartsWeigh(t, p);
    if StopsAt(t, p) {
      StopPays(t, p);
      LastTurn(Paid(q), Potential(t), c + Weight(q.small), Weight(t) + c);
    } else if Compare(p, t.l.n) >= 0 {
      SplitPays(t.l, p);
      RightThenLeft(t, p, c);
    } else {
      SplitPays(t.l.l, p);
      RightThenLeftLeft(t, p, c);
    }
  }

  lemma {:induction false} RightThenLeft(t: Tree, p: Probe, c: nat)
    requires t.Bin? && t.l.Bin? && Compare(p, t.n) < 0 && Compare(p, t.l.n) >= 0
    requires var q := Partition(t, p); Weight(q.small) + Weight(q.big) == Weight(t)
    requires Paid(Partition(t.l, p)) <= Potential(t.l) * (Weight(t.l) * Weight(t.l))
    ensures var q, w := Partition(t, p), Weight(t) + c;
      2 * (Paid(q) * (c + Weight(q.small))) <= Potential(t) * (w * (w * w))
  {
    var q, rest := Partition(t, p), Partition(t.l, p);
    assert q == Parts(rest.small, rest.n, Bin(rest.big, t.n, t.r), rest.turns + 1) && Pow2(q.turns) == 2 * Pow2(rest.turns);
    Opened(q.big);
    Opened(t);
    hide Partition, Pow2, Potential, Weight;
    PlainTwice(Pow2(rest.turns), Potential(rest.small), Potential(rest.big), Potential(t.l), Potential(t.r),
               Weight(t.l), Weight(t), c + Weight(q.small), Weight(q.big), Weight(t) + c);
  }

  lemma {:induction false} RightThenLeftLeft(t: Tree, p: Probe, c: nat)
    requires t.Bin? && t.l.Bin? && t.l.l.Bin? && Compare(p, t.n) < 0 && Compare(p, t.l.n) < 0
    requires var q := Partition(t, p); Weight(q.small) + Weight(q.big) == Weight(t)
    requires Paid(Partition(t.l.l, p)) <= Potential(t.l.l) * (Weight(t.l.l) * Weight(t.l.l))
    ensures var q, w := Partition(t, p), Weight(t) + c;
      2 * (Paid(q) * (c + Weight(q.small))) <= Potential(t) * (w * (w * w))
  {
    var a, b, d := t.l.l, t.l.r, t.r;
    var q, rest := Partition(t, p), Partition(a, p);
    var big := Bin(rest.big, t.l.n, Bin(b, t.n, d));
    hide Partition, Pow2, Potential, Weight;
    LeftLeftParts(t, p);
    Opened(big.r);
    Opened(big);
    Opened(t.l);
    Opened(t);
    PlainRotating(Pow2(rest.turns), Potential(rest.small), Potential(rest.big), Potential(a), Potential(b), Potential(d),
                  Weight(a), Weight(b), Weight(d), c + Weight(q.small), Weight(big), Weight(t) + c);
  }
}
