// What the tokenizer makes of the text that mkcommand keeps for a job.
module RoundTrip {
  import opened Options
  import opened Tokens
  import opened Command
  import opened Lexer

  predicate Stage(argv: seq<string>) {
    argv != [] && forall k :: 0 <= k < |argv| ==> TokenWord(argv[k])
  }

  predicate Stages(stages: seq<seq<string>>) {
    stages != [] && forall m :: 0 <= m < |stages| ==> Stage(stages[m])
  }

  function Words(argv: seq<string>): (ts: seq<Token<string>>)
    ensures |ts| == |argv| && forall k :: 0 <= k < |ts| ==> ts[k] == Word(argv[k])
  {
    seq(|argv|, k requires 0 <= k < |argv| => Word(argv[k]))
  }

  function AllWords(stages: seq<seq<string>>): (d: seq<seq<Token<string>>>)
    ensures |d| == |stages| && forall m :: 0 <= m < |d| ==> d[m] == Words(stages[m])
  {
    seq(|stages|, m requires 0 <= m < |stages| => Words(stages[m]))
  }

  // ---- the tokens of a text that is cut before a character that is no part of
  // any token before it

  // A text after a: with a bar or an ampersand only where a does not end in the same.
  predicate Apart(a: string, b: string) {
    b == "" || b[0] in " <>;!" || (b[0] in "|&" && (a == "" || a[|a| - 1] != b[0]))
  }

  lemma {:induction false} SpanPrefix(a: string, b: string)
    requires b == "" || Delimiter(b[0])
    ensures Span(a + b) == Span(a)
  {
    if a == "" {
      assert a + b == b;
    } else if !Delimiter(a[0]) {
      assert (a + b)[0] == a[0] && (a + b)[1..] == a[1..] + b;
      SpanPrefix(a[1..], b);
    } else {
      assert (a + b)[0] == a[0];
    }
  }

  lemma {:induction false} OperatorPrefix(a: string, b: string)
    requires a != "" && Delimiter(a[0]) && a[0] != ' ' && Apart(a, b)
    ensures Operator(a + b) == Operator(a)
  {
    assert (a + b)[0] == a[0];
    if |a| > 1 { assert (a + b)[1] == a[1]; } else if b != "" { assert (a + b)[1] == b[0]; }
  }

  // The token at the head of s and the number of characters it takes.
  function First(s: string): (r: (Token<string>, nat))
    requires s != "" && !Space(s[0])
    ensures 1 <= r.1 <= |s|
  {
    if Span(s) > 0 then (Word(s[..Span(s)]), Span(s)) else Operator(s)
  }

  lemma {:induction false} LexFirst(s: string)
    requires s != "" && !Space(s[0])
    ensures Lex(s) == [First(s).0] + Lex(s[First(s).1..])
  {
  }

  lemma {:induction false} FirstPrefix(a: string, b: string)
    requires a != "" && !Space(a[0]) && Apart(a, b)
    ensures (a + b)[0] == a[0] && First(a + b) == First(a) && (a + b)[First(a).1..] == a[First(a).1..] + b
  {
    SpanPrefix(a, b);
    if Span(a) == 0 { OperatorPrefix(a, b); }
    assert (a + b)[..Span(a)] == a[..Span(a)];
  }

  lemma {:induction false} Chained(all: seq<Token<string>>, t: Token<string>, x: seq<Token<string>>,
                                   y: seq<Token<string>>)
    requires all == [t] + (x + y)
    ensures all == ([t] + x) + y
  {
  }

  lemma {:induction false} LexConcat(a: string, b: string)
    requires Apart(a, b)
    ensures Lex(a + b) == Lex(a) + Lex(b)
    decreases |a|
  {
    if a == "" {
      assert a + b == b;
    } else if Space(a[0]) {
      assert (a + b)[0] == a[0] && (a + b)[1..] == a[1..] + b;
      LexConcat(a[1..], b);
    } else {
      var (t, l) := First(a);
      FirstPrefix(a, b);
      LexFirst(a + b);
      LexFirst(a);
      LexConcat(a[l..], b);
      Chained(Lex(a + b), t, Lex(a[l..]), Lex(b));
    }
  }

  // ---- printing and reading back

  lemma {:induction false} LexOne(w: string)
    requires TokenWord(w)
    ensures Lex(w) == [Word(w)]
  {
    assert Span(w) == |w|;
    assert w[..|w|] == w && w[|w|..] == "";
    LexFirst(w);
  }

  lemma {:induction false} LexBlank(s: string)
    ensures Lex(" " + s) == Lex(s)
  {
    assert (" " + s)[1..] == s;
  }

  lemma {:induction false} LexBar(s: string)
    ensures Lex(" | " + s) == [Pipe] + Lex(s)
  {
    var t := "| " + s;
    assert " | " + s == " " + t;
    LexBlank(t);
    assert t[0] == '|' && t[1] == ' ' && t[1..] == " " + s;
    LexFirst(t);
    LexBlank(s);
  }

  lemma {:induction false} LexStage(argv: seq<string>)
    requires Stage(argv)
    ensures Lex(Spaced(argv)) == Words(argv)
  {
    LexOne(argv[0]);
    if |argv| > 1 {
      var rest := argv[1..];
      LexStage(rest);
      assert Spaced(argv) == argv[0] + (" " + Spaced(rest));
      LexConcat(argv[0], " " + Spaced(rest));
      LexBlank(Spaced(rest));
      assert [Word(argv[0])] + Words(rest) == Words(argv);
    } else {
      assert [Word(argv[0])] == Words(argv);
    }
  }

  // One more stage on the text so far.
  lemma {:induction false} LexAppended(text: string, argv: seq<string>)
    requires Stage(argv)
    ensures Lex(text + " | " + Spaced(argv)) == Lex(text) + [Pipe] + Words(argv)
  {
    var tail := " | " + Spaced(argv);
    assert text + " | " + Spaced(argv) == text + tail;
    LexConcat(text, tail);
    LexBar(Spaced(argv));
    LexStage(argv);
    assert Lex(text) + ([Pipe] + Words(argv)) == Lex(text) + [Pipe] + Words(argv);
  }

  lemma {:induction false} JoinWords(init: seq<seq<string>>, last: seq<string>)
    requires init != []
    ensures Join(AllWords(init + [last])) == Join(AllWords(init)) + [Pipe] + Words(last)
  {
    assert AllWords(init + [last]) == AllWords(init) + [Words(last)];
    JoinLast(AllWords(init), Words(last));
  }

  lemma {:induction false} TextAppended(init: seq<seq<string>>, last: seq<string>)
    requires init != []
    ensures CommandText(init).Some?
    ensures CommandText(init + [last]) == Some(CommandText(init).value + " | " + Spaced(last))
  {
    assert (init + [last])[..|init|] == init;
  }

  lemma {:induction false} CommandOne(argv: seq<string>)
    requires Stage(argv)
    ensures CommandText([argv]).Some? && Lex(CommandText([argv]).value) == Join(AllWords([argv]))
  {
    LexStage(argv);
    assert [argv][..0] == [] && "" + Spaced(argv) == Spaced(argv);
    assert AllWords([argv]) == [Words(argv)];
  }

  // Tokenizing the text built by addproc for each stage gives the words back,
  // with a pipe between the stages.
  lemma {:induction false} CommandReadsBack(stages: seq<seq<string>>)
    requires Stages(stages)
    ensures CommandText(stages).Some? && Lex(CommandText(stages).value) == Join(AllWords(stages))
    decreases |stages|
  {
    var init, last := stages[..|stages| - 1], stages[|stages| - 1];
    if init == [] {
      assert stages == [last];
      CommandOne(last);
    } else {
      CommandReadsBack(init);
      LexAppended(CommandText(init).value, last);
      assert init + [last] == stages;
      JoinWords(init, last);
      TextAppended(init, last);
    }
  }

  // ---- what the tokenizer produces

  predicate Produced(t: Token<string>) {
    t != Null && t != Append && (t.Word? ==> TokenWord(t.word))
  }

  // Every word is a tokenizer word; and there is no T_APPEND, so ">>" is two
  // output redirections, the first with the second for its operand.
  lemma {:induction false} LexSound(s: string)
    requires NUL !in s
    ensures forall k :: 0 <= k < |Lex(s)| ==> Produced(Lex(s)[k])
    decreases |s|
  {
    if s == "" {
    } else if Space(s[0]) {
      LexSound(s[1..]);
    } else {
      LexFirst(s);
      LexSound(s[First(s).1..]);
      FirstProduced(s);
      AllProduced(First(s).0, Lex(s[First(s).1..]));
    }
  }

  lemma {:induction false} FirstProduced(s: string)
    requires s != "" && !Space(s[0]) && NUL !in s
    ensures Produced(First(s).0)
  {
  }

  lemma {:induction false} AllProduced(t: Token<string>, ts: seq<Token<string>>)
    requires Produced(t) && forall k :: 0 <= k < |ts| ==> Produced(ts[k])
    ensures forall k :: 0 <= k < |[t] + ts| ==> Produced(([t] + ts)[k])
  {
  }

  // ---- a line and the command stored for it

  // A redirection-free pipeline: words and pipes, and no empty stage.
  predicate Plain(ts: seq<Token<string>>) {
    && (forall k :: 0 <= k < |ts| ==> ts[k].Word? || ts[k] == Pipe)
    && forall m :: 0 <= m < |Divide(ts)| ==> Divide(ts)[m] != []
  }

  function Texts(ts: seq<Token<string>>): (argv: seq<string>)
    requires forall k :: 0 <= k < |ts| ==> ts[k].Word?
    ensures |argv| == |ts| && forall k :: 0 <= k < |ts| ==> argv[k] == ts[k].word
  {
    seq(|ts|, k requires 0 <= k < |ts| => ts[k].word)
  }

  // The argument vectors of the stages.
  function Argvs(d: seq<seq<Token<string>>>): (r: seq<seq<string>>)
    requires forall m, k :: 0 <= m < |d| && 0 <= k < |d[m]| ==> d[m][k].Word?
    ensures |r| == |d| && forall m :: 0 <= m < |d| ==> r[m] == Texts(d[m])
  {
    seq(|d|, m requires 0 <= m < |d| => Texts(d[m]))
  }

  lemma {:induction false} DividedWords(ts: seq<Token<string>>)
    requires forall k :: 0 <= k < |ts| ==> Produced(ts[k]) && (ts[k].Word? || ts[k] == Pipe)
    ensures forall m, k :: 0 <= m < |Divide(ts)| && 0 <= k < |Divide(ts)[m]| ==>
      Divide(ts)[m][k].Word? && TokenWord(Divide(ts)[m][k].word)
  {
    if ts != [] { DividedWords(ts[1..]); }
  }

  lemma {:induction false} StoredTokens(ts: seq<Token<string>>)
    requires Plain(ts) && forall k :: 0 <= k < |ts| ==> Produced(ts[k])
    ensures var d := Divide(ts);
      && (forall m, k :: 0 <= m < |d| && 0 <= k < |d[m]| ==> d[m][k].Word?)
      && var text := CommandText(Argvs(d));
      && text.Some? && Lex(text.value) == ts
  {
    var d := Divide(ts);
    DividedWords(ts);
    var stages := Argvs(d);
    CommandReadsBack(stages);
    forall m | 0 <= m < |d| ensures AllWords(stages)[m] == d[m] {
      assert AllWords(stages)[m] == Words(Texts(d[m]));
    }
    assert AllWords(stages) == d;
    JoinDivide(ts);
  }

  // The command kept for a redirection-free pipeline has the tokens of the line
  // it was entered as, however that was spaced.
  lemma {:induction false} StoredCommand(line: string)
    requires NUL !in line && Plain(Lex(line))
    ensures var d := Divide(Lex(line));
      && (forall m, k :: 0 <= m < |d| && 0 <= k < |d[m]| ==> d[m][k].Word?)
      && var text := CommandText(Argvs(d));
      && text.Some? && Lex(text.value) == Lex(line)
  {
    LexSound(line);
    StoredTokens(Lex(line));
  }

  // ---- lines with ">>"

  lemma {:induction false} LexOutput(s: string)
    ensures Lex(">" + s) == [Output] + Lex(s)
  {
    var t := ">" + s;
    assert t[0] == '>' && t[1..] == s;
    LexFirst(t);
  }

  // Appending never gets as far as do_redir: its token is two output redirections.
  lemma {:induction false} AppendIsTwoOutputs(x: string, y: string)
    ensures Lex(x + ">>" + y) == Lex(x) + [Output, Output] + Lex(y)
  {
    var s := ">" + y;
    assert x + ">>" + y == x + (">" + s);
    LexConcat(x, ">" + s);
    LexOutput(s);
    LexOutput(y);
    assert Lex(x) + ([Output] + ([Output] + Lex(y))) == Lex(x) + [Output, Output] + Lex(y);
  }
}
