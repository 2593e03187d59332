// token_t of shell.h: small constants for the operators, pointers for words.
module Tokens {
  // W is an offset into the line for the tokenizer's own tokens, and the word
  // itself where only its text matters.
  datatype Token<+W> =
    | Null | And | Or | Pipe | BgJob | Colon | Output | Input | Append | Bang
    | Word(word: W)

  function Rank<W>(t: Token<W>): nat {
    match t
    case Null => 0
    case And => 1
    case Or => 2
    case Pipe => 3
    case BgJob => 4
    case Colon => 5
    case Output => 6
    case Input => 7
    case Append => 8
    case Bang => 9
    case Word(_) => 10
  }

  predicate Separator<W>(t: Token<W>) { Rank(t) <= Rank<W>(Colon) }

  predicate String<W>(t: Token<W>) { Rank(t) > Rank<W>(Bang) }

  // A redirection operator, or the bang, which do_redir drops like one.
  predicate Redirects<W>(t: Token<W>) { !Separator(t) && !String(t) }

  lemma {:induction false} Kinds<W>(t: Token<W>)
    ensures String(t) <==> t.Word?
    ensures Separator(t) <==> t == Null || t == And || t == Or || t == Pipe || t == BgJob || t == Colon
    ensures Redirects(t) <==> t == Input || t == Output || t == Append || t == Bang
  {
  }

  // ---- a line as pipeline stages

  // The stages between the pipes.
  function Divide<W>(ts: seq<Token<W>>): (d: seq<seq<Token<W>>>)
    ensures d != [] && forall m :: 0 <= m < |d| ==> Pipe !in d[m]
  {
    if ts == [] then [[]]
    else
      var d := Divide(ts[1..]);
      if ts[0] == Pipe then [[]] + d else [[ts[0]] + d[0]] + d[1..]
  }

  function Join<W>(d: seq<seq<Token<W>>>): seq<Token<W>>
    requires d != []
  {
    if |d| == 1 then d[0] else d[0] + [Pipe] + Join(d[1..])
  }

  lemma {:induction false} DivideFirst<W>(t: Token<W>, d: seq<seq<Token<W>>>)
    requires d != []
    ensures Join([[t] + d[0]] + d[1..]) == [t] + Join(d)
  {
    var e := [[t] + d[0]] + d[1..];
    if |d| > 1 { assert e[1..] == d[1..]; }
  }

  // No token is lost, made up or moved.
  lemma {:induction false} JoinDivide<W>(ts: seq<Token<W>>)
    ensures Join(Divide(ts)) == ts
    decreases |ts|
  {
    if ts != [] {
      var d := Divide(ts[1..]);
      JoinDivide(ts[1..]);
      if ts[0] == Pipe {
        assert ([[]] + d)[1..] == d;
        assert ([[]] + d)[0] == [];
      } else {
        DivideFirst(ts[0], d);
      }
    }
  }

  // And the stages are the only ones without pipes that give the line.
  lemma {:induction false} DivideJoin<W>(d: seq<seq<Token<W>>>)
    requires d != [] && forall m :: 0 <= m < |d| ==> Pipe !in d[m]
    ensures Divide(Join(d)) == d
    decreases |d|, |d[0]|
  {
    if d[0] == [] {
      if |d| > 1 {
        DivideJoin(d[1..]);
        assert Join(d)[1..] == Join(d[1..]) && Join(d)[0] == Pipe;
        assert [[]] + d[1..] == d;
      } else {
        assert d == [[]];
      }
    } else {
      var t, e := d[0][0], [d[0][1..]] + d[1..];
      DivideJoin(e);
      assert e[1..] == d[1..] && [t] + e[0] == d[0];
      assert [[t] + e[0]] + e[1..] == d;
      DivideFirst(t, e);
      assert Join(d)[1..] == Join(e);
    }
  }

  lemma {:induction false} JoinLast<W>(d: seq<seq<Token<W>>>, x: seq<Token<W>>)
    requires d != []
    ensures Join(d + [x]) == Join(d) + [Pipe] + x
    decreases |d|
  {
    var e := d + [x];
    assert e[0] == d[0] && e[1..] == d[1..] + [x];
    if |d| == 1 {
      assert e[1..] == [x];
    } else {
      JoinLast(d[1..], x);
      assert d[0] + [Pipe] + (Join(d[1..]) + [Pipe] + x) == d[0] + [Pipe] + Join(d[1..]) + [Pipe] + x;
    }
  }
}
