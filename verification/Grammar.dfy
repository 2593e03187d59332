// What the tokens of any line are, told by its text alone: a blank divides words, and
// each operator stands for its own token wherever it is.
module Grammar {
  import opened Command
  import opened Tokens
  import opened Lexer
  import opened RoundTrip

  lemma {:induction false} Between(x: string, op: string, y: string, t: Token<string>)
    requires op != "" && Apart(x, op) && Lex(op + y) == [t] + Lex(y)
    ensures Lex(x + op + y) == Lex(x) + [t] + Lex(y)
  {
    assert x + op + y == x + (op + y) && (op + y)[0] == op[0];
    LexConcat(x, op + y);
    assert Lex(x) + ([t] + Lex(y)) == Lex(x) + [t] + Lex(y);
  }

  // ---- operators of one character

  lemma {:induction false} LexInput(x: string, y: string)
    ensures Lex(x + "<" + y) == Lex(x) + [Input] + Lex(y)
  {
    assert ("<" + y)[1..] == y;
    LexFirst("<" + y);
    Between(x, "<", y, Input);
  }

  lemma {:induction false} LexOutputs(x: string, y: string)
    ensures Lex(x + ">" + y) == Lex(x) + [Output] + Lex(y)
  {
    LexOutput(y);
    Between(x, ">", y, Output);
  }

  lemma {:induction false} LexColon(x: string, y: string)
    ensures Lex(x + ";" + y) == Lex(x) + [Colon] + Lex(y)
  {
    assert (";" + y)[1..] == y;
    LexFirst(";" + y);
    Between(x, ";", y, Colon);
  }

  lemma {:induction false} LexBang(x: string, y: string)
    ensures Lex(x + "!" + y) == Lex(x) + [Bang] + Lex(y)
  {
    assert ("!" + y)[1..] == y;
    LexFirst("!" + y);
    Between(x, "!", y, Bang);
  }

  // ---- operators that can be doubled

  predicate Ends(x: string, c: char) { x != "" && x[|x| - 1] == c }

  predicate Starts(y: string, c: char) { y != "" && y[0] == c }

  lemma {:induction false} LexPipe(x: string, y: string)
    requires !Ends(x, '|') && !Starts(y, '|')
    ensures Lex(x + "|" + y) == Lex(x) + [Pipe] + Lex(y)
  {
    var s := "|" + y;
    assert s[1..] == y && (y != "" ==> s[1] == y[0]);
    LexFirst(s);
    Between(x, "|", y, Pipe);
  }

  lemma {:induction false} LexOr(x: string, y: string)
    requires !Ends(x, '|')
    ensures Lex(x + "||" + y) == Lex(x) + [Or] + Lex(y)
  {
    var s := "||" + y;
    assert s[0] == s[1] == '|' && s[2..] == y;
    LexFirst(s);
    Between(x, "||", y, Or);
  }

  lemma {:induction false} LexAmpersand(x: string, y: string)
    requires !Ends(x, '&') && !Starts(y, '&')
    ensures Lex(x + "&" + y) == Lex(x) + [BgJob] + Lex(y)
  {
    var s := "&" + y;
    assert s[1..] == y && (y != "" ==> s[1] == y[0]);
    LexFirst(s);
    Between(x, "&", y, BgJob);
  }

  lemma {:induction false} LexAnd(x: string, y: string)
    requires !Ends(x, '&')
    ensures Lex(x + "&&" + y) == Lex(x) + [And] + Lex(y)
  {
    var s := "&&" + y;
    assert s[0] == s[1] == '&' && s[2..] == y;
    LexFirst(s);
    Between(x, "&&", y, And);
  }

  // ---- words and blanks

  lemma {:induction false} LexBlanks(x: string, y: string)
    ensures Lex(x + " " + y) == Lex(x) + Lex(y)
  {
    assert x + " " + y == x + (" " + y);
    LexConcat(x, " " + y);
    LexBlank(y);
  }

  predicate White(c: char) {
    c == ' ' || c == '\t' || c == '\n' || c == '\r' || c == 11 as char || c == 12 as char
  }

  // White space before a token is passed over.
  lemma {:induction false} LexSkips(c: char, y: string)
    requires White(c)
    ensures Lex([c] + y) == Lex(y)
  {
    assert ([c] + y)[1..] == y;
  }

  predicate EndsWord(c: char) { c == ' ' || c == '|' || c == '&' || c == '<' || c == '>' || c == ';' || c == '!' }

  // Anything else begins a word, which goes on up to a blank or an operator: white
  // space other than a blank does not end it.
  lemma {:induction false} LexWord(w: string, y: string)
    requires w != "" && !White(w[0]) && forall k :: 0 <= k < |w| ==> !EndsWord(w[k])
    requires y == "" || EndsWord(y[0])
    ensures Lex(w + y) == [Word(w)] + Lex(y)
  {
    SpanPrefix(w, y);
    assert Span(w) == |w|;
    assert (w + y)[0] == w[0] && (w + y)[..|w|] == w && (w + y)[|w|..] == y;
    LexFirst(w + y);
  }

  // No token comes from nowhere.
  lemma {:induction false} NoAmpersand(s: string)
    requires '&' !in s
    ensures BgJob !in Lex(s)
    decreases |s|
  {
    if s != "" {
      if Space(s[0]) {
        NoAmpersand(s[1..]);
      } else {
        LexFirst(s);
        assert s[0] in s;
        NoAmpersand(s[First(s).1..]);
      }
    }
  }

  lemma {:induction false} Appended(x: seq<Token<string>>, t: Token<string>, u: Token<string>)
    ensures x + [] + [t] + [u] == x + [t, u]
  {
  }

  // A command whose last word is a redirection.
  lemma {:induction false} LexRedirected(argv: seq<string>, f: string)
    requires Stage(argv) && TokenWord(f)
    ensures Lex(Spaced(argv) + " " + "" + "<" + f) == Words(argv) + [Input, Word(f)]
    ensures Lex(Spaced(argv) + " " + "" + ">" + f) == Words(argv) + [Output, Word(f)]
  {
    hide Lex, Spaced, Words, TokenWord;
    var w := Spaced(argv);
    LexBlanks(w, "");
    LexStage(argv);
    LexOne(f);
    LexEmpty();
    LexInput(w + " " + "", f);
    LexOutputs(w + " " + "", f);
    Appended(Words(argv), Input, Word(f));
    Appended(Words(argv), Output, Word(f));
  }

  lemma {:induction false} LexEmpty()
    ensures Lex("") == []
  {
  }

  // The same as it is written.
  lemma {:induction false} LexRedirection(argv: seq<string>, f: string)
    requires Stage(argv) && TokenWord(f)
    ensures Lex(Spaced(argv) + " <" + f) == Words(argv) + [Input, Word(f)]
    ensures Lex(Spaced(argv) + " >" + f) == Words(argv) + [Output, Word(f)]
  {
    hide Lex, Spaced, Words, TokenWord;
    LexRedirected(argv, f);
    Rewritten(Spaced(argv), '<', f);
    Rewritten(Spaced(argv), '>', f);
  }

  lemma {:induction false} Rewritten(w: string, op: char, f: string)
    ensures w + " " + "" + [op] + f == w + [' ', op] + f
  {
  }
}
