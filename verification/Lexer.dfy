// tokenize of lexer.c: the grammar as a recursive function on strings, and the
// loop that cuts the line up in place.
module Lexer {
  import opened Tokens

  const NUL := '\0'

  // isspace in the C locale
  predicate Space(c: char) { c == ' ' || 9 as char <= c <= 13 as char }

  // What ends a word; of the white space only the blank.
  predicate Delimiter(c: char) { c in " |&<>;!" }

  // strcspn(s, " |&<>;!")
  function Span(s: string): (l: nat)
    ensures l <= |s|
    ensures forall k :: 0 <= k < l ==> !Delimiter(s[k])
    ensures l < |s| ==> Delimiter(s[l])
  {
    if s == "" || Delimiter(s[0]) then 0 else 1 + Span(s[1..])
  }

  // The operator at the head of s and the number of characters it takes.
  function Operator(s: string): (r: (Token<string>, nat))
    requires s != "" && Delimiter(s[0]) && s[0] != ' '
    ensures 1 <= r.1 <= |s| && !r.0.Word? && r.0 != Append
  {
    var next := if |s| > 1 then s[1] else NUL;
    match s[0]
    case '|' => if next == '|' then (Or, 2) else (Pipe, 1)
    case '&' => if next == '&' then (And, 2) else (BgJob, 1)
    case '<' => (Input, 1)
    case '>' => (Output, 1)
    case ';' => (Colon, 1)
    case _ => (Bang, 1)
  }

  function Lex(s: string): seq<Token<string>> {
    if s == "" then []
    else if Space(s[0]) then Lex(s[1..])
    else if Span(s) > 0 then [Word(s[..Span(s)])] + Lex(s[Span(s)..])
    else [Operator(s).0] + Lex(s[Operator(s).1..])
  }

  // A word the tokenizer can produce.
  predicate TokenWord(w: string) {
    w != "" && !Space(w[0]) && forall k :: 0 <= k < |w| ==> !Delimiter(w[k]) && w[k] != NUL
  }

  // ---- C strings

  function CString(buf: seq<char>, at: nat): string
    decreases |buf| - at
  {
    if at >= |buf| || buf[at] == NUL then "" else [buf[at]] + CString(buf, at + 1)
  }

  lemma {:induction false} CStringAt(buf: seq<char>, at: nat, w: string)
    requires at + |w| < |buf| && buf[at..at + |w|] == w && NUL !in w && buf[at + |w|] == NUL
    ensures CString(buf, at) == w
    decreases |w|
  {
    if w != "" {
      assert buf[at] == w[0] && buf[at + 1..at + 1 + |w[1..]|] == w[1..];
      CStringAt(buf, at + 1, w[1..]);
    }
  }

  // The token as its reader sees it, the line being as buf has it.
  function Read(buf: seq<char>, t: Token<nat>): Token<string> {
    match t
    case Word(at) => Word(CString(buf, at))
    case Null => Null
    case And => And
    case Or => Or
    case Pipe => Pipe
    case BgJob => BgJob
    case Colon => Colon
    case Output => Output
    case Input => Input
    case Append => Append
    case Bang => Bang
  }

  function ReadAll(buf: seq<char>, ts: seq<Token<nat>>): (r: seq<Token<string>>)
    ensures |r| == |ts|
  {
    seq(|ts|, k requires 0 <= k < |ts| => Read(buf, ts[k]))
  }

  // Cut to size at position p, in a line that ends at n: t stands for u, and if
  // its end is p then the character there is still to be overwritten.
  ghost predicate Cut(buf: seq<char>, n: nat, p: nat, t: Token<nat>, u: Token<string>) {
    if t.Word? then
      && u.Word? && NUL !in u.word
      && var e := t.word + |u.word|;
      && e <= p <= n < |buf| && buf[t.word..e] == u.word
      && (buf[e] == NUL || (e == p && Delimiter(buf[e])))
    else u == Read(buf, t)
  }

  // Writing a NUL at or after p keeps what was cut before p.
  lemma {:induction false} CutKept(buf: seq<char>, n: nat, p: nat, q: nat, t: Token<nat>, u: Token<string>)
    requires Cut(buf, n, p, t, u) && p <= q <= n < |buf|
    ensures Cut(buf[p := NUL], n, q, t, u)
  {
  }

  // A word starts at p, so nothing before p is waiting to be ended there.
  lemma {:induction false} CutPassed(buf: seq<char>, n: nat, p: nat, q: nat, t: Token<nat>, u: Token<string>)
    requires Cut(buf, n, p, t, u) && p <= q <= n < |buf| && !Delimiter(buf[p]) && buf[p] != NUL
    ensures Cut(buf, n, q, t, u)
  {
  }

  ghost predicate AllCut(buf: seq<char>, n: nat, p: nat, ts: seq<Token<nat>>, us: seq<Token<string>>) {
    |ts| == |us| && forall k :: 0 <= k < |ts| ==> Cut(buf, n, p, ts[k], us[k])
  }

  lemma {:induction false} AllCutKept(buf: seq<char>, n: nat, p: nat, q: nat, ts: seq<Token<nat>>,
                                      us: seq<Token<string>>)
    requires AllCut(buf, n, p, ts, us) && p <= q <= n < |buf|
    ensures AllCut(buf[p := NUL], n, q, ts, us)
  {
    forall k | 0 <= k < |ts| ensures Cut(buf[p := NUL], n, q, ts[k], us[k]) { CutKept(buf, n, p, q, ts[k], us[k]); }
  }

  lemma {:induction false} AllCutPassed(buf: seq<char>, n: nat, p: nat, q: nat, ts: seq<Token<nat>>,
                                        us: seq<Token<string>>)
    requires AllCut(buf, n, p, ts, us) && p <= q <= n < |buf| && !Delimiter(buf[p]) && buf[p] != NUL
    ensures AllCut(buf, n, q, ts, us)
  {
    forall k | 0 <= k < |ts| ensures Cut(buf, n, q, ts[k], us[k]) { CutPassed(buf, n, p, q, ts[k], us[k]); }
  }

  // With the whole line cut up, every token reads as it should.
  lemma {:induction false} AllRead(buf: seq<char>, n: nat, ts: seq<Token<nat>>, us: seq<Token<string>>)
    requires AllCut(buf, n, n, ts, us) && n < |buf| && buf[n] == NUL
    ensures ReadAll(buf, ts) == us
  {
    forall k | 0 <= k < |ts| ensures Read(buf, ts[k]) == us[k] {
      assert Cut(buf, n, n, ts[k], us[k]);
      if ts[k].Word? { CStringAt(buf, ts[k].word, us[k].word); }
    }
  }

  // ---- the loop

  method WordLength(buf: array<char>, p: nat, ghost n: nat) returns (l: nat)
    requires p <= n < buf.Length && buf[n] == NUL && NUL !in buf[p..n]
    ensures l == Span(buf[p..n])
  {
    l := 0;
    while buf[p + l] != NUL && !Delimiter(buf[p + l])
      invariant p + l <= n && Span(buf[p..n]) == l + Span(buf[p + l..n])
      decreases n - p - l
    {
      assert buf[p + l..n][0] == buf[p + l] && buf[p + l..n][1..] == buf[p + l + 1..n];
      l := l + 1;
    }
    assert p + l < n ==> buf[p + l..n][0] == buf[p + l];
  }

  // Room for one more token, and for the NULL that ends the vector.
  method Reserve(tokvec: array<Token<nat>>, capacity: nat, ntoks: nat)
    returns (vec: array<Token<nat>>, room: nat)
    requires ntoks <= capacity && tokvec.Length == capacity + 1 && capacity >= 10
    ensures vec == tokvec || fresh(vec)
    ensures ntoks < room && vec.Length == room + 1 && room >= 10
    ensures vec[..ntoks] == tokvec[..ntoks]
  {
    if ntoks == capacity {
      room := capacity * 2;
      vec := new Token<nat>[room + 1](_ => Null);
      forall k | 0 <= k < ntoks { vec[k] := tokvec[k]; }
    } else {
      vec, room := tokvec, capacity;
    }
  }

  // An operator at p: all its characters become NUL.
  method CutOperator(buf: array<char>, p: nat, ghost n: nat) returns (tok: Token<nat>, q: nat)
    requires p < n < buf.Length && buf[n] == NUL && Delimiter(buf[p]) && buf[p] != ' '
    modifies buf
    ensures var (op, l) := Operator(old(buf[p..n]));
      && q == p + l <= n && !tok.Word? && Read([], tok) == op
      && buf[..] == Blotted(old(buf[..]), p, l)
  {
    q := p;
    if buf[q] == '|' {
      if buf[q + 1] == '|' {
        buf[q] := NUL;
        q := q + 1;
        tok := Or;
      } else {
        tok := Pipe;
      }
    } else if buf[q] == '&' {
      if buf[q + 1] == '&' {
        buf[q] := NUL;
        q := q + 1;
        tok := And;
      } else {
        tok := BgJob;
      }
    } else if buf[q] == '<' {
      tok := Input;
    } else if buf[q] == '>' {
      tok := Output;
    } else if buf[q] == ';' {
      tok := Colon;
    } else {
      // The test for the bang cannot fail here, so the source's last branch,
      // which would loop for ever, is never taken.
      assert buf[q] == '!';
      tok := Bang;
    }
    buf[q] := NUL;
    q := q + 1;
  }

  // How far the loop has got: the tokens in vec[..ntoks] stand for out, and the
  // line is as it was from p on.
  ghost predicate Progress(line: string, buf: seq<char>, p: nat, ts: seq<Token<nat>>, out: seq<Token<string>>) {
    && var n := |line|;
    && p <= n < |buf| && buf[p..n] == line[p..] && buf[n] == NUL
    && AllCut(buf, n, p, ts, out) && out + Lex(line[p..]) == Lex(line)
  }

  lemma {:induction false} Pushed(buf: seq<char>, n: nat, p: nat, ts: seq<Token<nat>>, us: seq<Token<string>>,
                                  t: Token<nat>, u: Token<string>)
    requires AllCut(buf, n, p, ts, us) && Cut(buf, n, p, t, u)
    ensures AllCut(buf, n, p, ts + [t], us + [u])
  {
  }

  lemma {:induction false} LexWord(line: string, p: nat, l: nat)
    requires p < |line| && !Space(line[p]) && l == Span(line[p..]) > 0
    ensures Lex(line[p..]) == [Word(line[p..][..l])] + Lex(line[p + l..])
  {
    assert line[p..][0] == line[p] && line[p..][l..] == line[p + l..];
  }

  lemma {:induction false} LexOperator(line: string, p: nat)
    requires p < |line| && !Space(line[p]) && Delimiter(line[p])
    ensures var (op, l) := Operator(line[p..]); Lex(line[p..]) == [op] + Lex(line[p + l..])
  {
    assert line[p..][0] == line[p] && line[p..][Operator(line[p..]).1..] == line[p + Operator(line[p..]).1..];
  }

  lemma {:induction false} Emitted(all: seq<Token<string>>, out: seq<Token<string>>, u: Token<string>,
                                   rest: seq<Token<string>>, later: seq<Token<string>>)
    requires out + rest == all && rest == [u] + later
    ensures (out + [u]) + later == all
  {
  }

  lemma {:induction false} SpaceStep(line: string, buf: seq<char>, p: nat, ts: seq<Token<nat>>, out: seq<Token<string>>)
    requires Progress(line, buf, p, ts, out) && p < |line| && Space(line[p])
    ensures Progress(line, buf[p := NUL], p + 1, ts, out)
  {
    AllCutKept(buf, |line|, p, p + 1, ts, out);
    assert line[p..][1..] == line[p + 1..];
    assert buf[p := NUL][p + 1..|line|] == buf[p + 1..|line|] == line[p + 1..];
  }

  lemma {:induction false} WordCut(line: string, buf: seq<char>, p: nat, l: nat)
    requires p < |line| < |buf| && buf[p..|line|] == line[p..] && buf[|line|] == NUL && NUL !in line
    requires l == Span(line[p..]) > 0
    ensures Cut(buf, |line|, p + l, Word(p), Word(line[p..][..l])) && !Delimiter(buf[p]) && buf[p] != NUL
  {
    var n, w := |line|, line[p..][..l];
    assert buf[p] == line[p..][0] == line[p];
    assert buf[p..p + l] == buf[p..n][..l] == w;
    assert p + l < n ==> buf[p + l] == buf[p..n][l] == line[p..][l];
  }

  lemma {:induction false} WordStep(line: string, buf: seq<char>, p: nat, ts: seq<Token<nat>>,
                                    out: seq<Token<string>>, l: nat)
    requires Progress(line, buf, p, ts, out) && p < |line| && !Space(line[p]) && NUL !in line
    requires l == Span(line[p..]) > 0
    ensures Progress(line, buf, p + l, ts + [Word(p)], out + [Word(line[p..][..l])])
  {
    var n, u := |line|, Word(line[p..][..l]);
    WordCut(line, buf, p, l);
    AllCutPassed(buf, n, p, p + l, ts, out);
    Pushed(buf, n, p + l, ts, out, Word(p), u);
    LexWord(line, p, l);
    Emitted(Lex(line), out, u, Lex(line[p..]), Lex(line[p + l..]));
    assert buf[p + l..n] == buf[p..n][l..] == line[p + l..];
  }

  // An operator of l characters replaced by NULs.
  function Blotted(buf: seq<char>, p: nat, l: nat): (b: seq<char>)
    requires p + l <= |buf|
    decreases l
    ensures |b| == |buf| && forall k :: 0 <= k < |buf| ==> b[k] == if p <= k < p + l then NUL else buf[k]
  {
    if l == 0 then buf else Blotted(buf[p := NUL], p + 1, l - 1)
  }

  lemma {:induction false} AllCutBlotted(buf: seq<char>, n: nat, p: nat, l: nat, ts: seq<Token<nat>>,
                                         us: seq<Token<string>>)
    requires AllCut(buf, n, p, ts, us) && p + l <= n < |buf|
    ensures AllCut(Blotted(buf, p, l), n, p + l, ts, us)
    decreases l
  {
    if l > 0 {
      AllCutKept(buf, n, p, p + 1, ts, us);
      AllCutBlotted(buf[p := NUL], n, p + 1, l - 1, ts, us);
    }
  }

  lemma {:induction false} OperatorStep(line: string, buf: seq<char>, p: nat, ts: seq<Token<nat>>,
                                        out: seq<Token<string>>,
                                        tok: Token<nat>)
    requires Progress(line, buf, p, ts, out) && p < |line| && !Space(line[p]) && Delimiter(line[p])
    requires !tok.Word? && Read([], tok) == Operator(line[p..]).0
    ensures var (op, l) := Operator(line[p..]);
      Progress(line, Blotted(buf, p, l), p + l, ts + [tok], out + [op])
  {
    hide Lex;
    var n := |line|;
    var (op, l) := Operator(line[p..]);
    var b := Blotted(buf, p, l);
    AllCutBlotted(buf, n, p, l, ts, out);
    Pushed(b, n, p + l, ts, out, tok, op);
    LexOperator(line, p);
    Emitted(Lex(line), out, op, Lex(line[p..]), Lex(line[p + l..]));
    assert b[p + l..n] == buf[p..n][l..] == line[p + l..];
  }

  ghost predicate OnlyCut(before: seq<char>, after: seq<char>, n: nat) {
    && |after| == |before|
    && forall k :: 0 <= k < |before| ==> after[k] == before[k] || (k < n && after[k] == NUL)
  }

  // The operator at p.
  method TakeOperator(buf: array<char>, p: nat, ghost line: string, ghost ts: seq<Token<nat>>,
                      ghost out: seq<Token<string>>)
    returns (tok: Token<nat>, q: nat, ghost u: Token<string>)
    requires Progress(line, buf[..], p, ts, out) && p < |line| && !Space(line[p]) && Span(line[p..]) == 0
    requires buf[p..|line|] == line[p..]
    modifies buf
    ensures p < q && Progress(line, buf[..], q, ts + [tok], out + [u])
    ensures OnlyCut(old(buf[..]), buf[..], q)
  {
    assert buf[p] == buf[p..|line|][0] == line[p..][0] == line[p];
    ghost var b := buf[..];
    tok, q := CutOperator(buf, p, |line|);
    u := Operator(line[p..]).0;
    OperatorStep(line, b, p, ts, out, tok);
    assert q == p + Operator(line[p..]).1;
  }

  // A word or an operator at p.
  method TakeToken(buf: array<char>, p: nat, ghost line: string, ghost ts: seq<Token<nat>>,
                   ghost out: seq<Token<string>>)
    returns (tok: Token<nat>, q: nat, ghost u: Token<string>)
    requires Progress(line, buf[..], p, ts, out) && NUL !in line && p < |line| && !Space(buf[p])
    modifies buf
    ensures p < q && Progress(line, buf[..], q, ts + [tok], out + [u])
    ensures OnlyCut(old(buf[..]), buf[..], q)
  {
    assert buf[p..|line|] == line[p..];
    assert buf[p] == buf[p..|line|][0] == line[p..][0];
    var l := WordLength(buf, p, |line|);
    if l > 0 {
      WordStep(line, buf[..], p, ts, out, l);
      return Word(p), p + l, Word(line[p..][..l]);
    }
    tok, q, u := TakeOperator(buf, p, line, ts, out);
  }

  method SkipSpace(buf: array<char>, p: nat, ghost line: string, ghost ts: seq<Token<nat>>,
                   ghost out: seq<Token<string>>)
    returns (q: nat)
    requires Progress(line, buf[..], p, ts, out) && p < |line| && Space(buf[p])
    modifies buf
    ensures p < q && Progress(line, buf[..], q, ts, out)
    ensures OnlyCut(old(buf[..]), buf[..], q)
  {
    assert buf[p] == buf[p..|line|][0] == line[p..][0];
    SpaceStep(line, buf[..], p, ts, out);
    buf[p] := NUL;
    q := p + 1;
    assert buf[..] == old(buf[..])[p := NUL];
  }

  method Store(vec: array<Token<nat>>, ntoks: nat, tok: Token<nat>) returns (n: nat)
    requires ntoks < vec.Length
    modifies vec
    ensures n == ntoks + 1 && vec[..n] == old(vec[..ntoks]) + [tok]
  {
    vec[ntoks] := tok;
    n := ntoks + 1;
  }

  // The tokens read exactly as the grammar says; nothing is written outside the
  // line, and only NULs within it.
  method Tokenize(buf: array<char>, ghost n: nat) returns (tokvec: array<Token<nat>>, ntoks: nat)
    requires n < buf.Length && buf[n] == NUL && NUL !in buf[..n]
    modifies buf
    ensures fresh(tokvec) && ntoks < tokvec.Length && tokvec[ntoks] == Null
    ensures ReadAll(buf[..], tokvec[..ntoks]) == Lex(old(buf[..n]))
    ensures OnlyCut(old(buf[..]), buf[..], n)
  {
    ghost var line := buf[..n];
    ghost var out := [];
    var capacity := 10;
    ntoks := 0;
    tokvec := new Token<nat>[capacity + 1](_ => Null);
    var p := 0;
    while buf[p] != NUL
      invariant fresh(tokvec) && ntoks <= capacity && tokvec.Length == capacity + 1 && capacity >= 10
      invariant p <= n && Progress(line, buf[..], p, tokvec[..ntoks], out)
      invariant OnlyCut(old(buf[..]), buf[..], p)
      decreases n - p
    {
      if Space(buf[p]) {
        p := SkipSpace(buf, p, line, tokvec[..ntoks], out);
      } else {
        tokvec, capacity := Reserve(tokvec, capacity, ntoks);
        ghost var ts := tokvec[..ntoks];
        ghost var u;
        var tok;
        tok, p, u := TakeToken(buf, p, line, ts, out);
        out := out + [u];
        ntoks := Store(tokvec, ntoks, tok);
      }
    }
    tokvec[ntoks] := Null;
    AllRead(buf[..], n, tokvec[..ntoks], out);
  }
}
