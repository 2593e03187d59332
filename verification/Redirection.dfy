// do_redir of shell.c: redirections taken out of a stage's tokens, in place.
module Redirection {
  import opened Options
  import opened Tokens

  type Tok = Token<string>

  // What a process gets for its standard input or output: a descriptor, -1
  // meaning the shell's own, or a file opened by a redirection of this kind.
  datatype End = Fd(fd: int) | File(kind: Tok, name: string)

  // Why do_redir stops the shell: an assertion, or an operand that is no string
  // being used as one.
  datatype Failure = NoOperand | NotAString | CannotOpen

  datatype Outcome = Done(n: nat, input: End, output: End) | Failed(why: Failure)

  // Whether open succeeds on this file for this kind of redirection.
  type Opening = (Tok, string) -> bool

  predicate Opens(t: Tok) { t == Input || t == Output || t == Append }

  // What is left of the tokens.
  function Drop(ts: seq<Tok>): (r: seq<Tok>)
    ensures |r| <= |ts|
  {
    if ts == [] then []
    else if !Redirects(ts[0]) then [ts[0]] + Drop(ts[1..])
    else if |ts| == 1 then []
    else Drop(ts[2..])
  }

  // The first failure.
  function Problem(ts: seq<Tok>, opening: Opening): Option<Failure> {
    if ts == [] then None
    else if !Redirects(ts[0]) then Problem(ts[1..], opening)
    else if |ts| == 1 then Some(NoOperand)
    else if !String(ts[1]) then Some(NotAString)
    else if Opens(ts[0]) && !opening(ts[0], ts[1].word) then Some(CannotOpen)
    else Problem(ts[2..], opening)
  }

  function InputOf(ts: seq<Tok>, e: End): End {
    if ts == [] then e
    else if !Redirects(ts[0]) then InputOf(ts[1..], e)
    else if |ts| == 1 || !String(ts[1]) then e
    else InputOf(ts[2..], if ts[0] == Input then File(Input, ts[1].word) else e)
  }

  function OutputOf(ts: seq<Tok>, e: End): End {
    if ts == [] then e
    else if !Redirects(ts[0]) then OutputOf(ts[1..], e)
    else if |ts| == 1 || !String(ts[1]) then e
    else OutputOf(ts[2..], if ts[0] == Output || ts[0] == Append then File(ts[0], ts[1].word) else e)
  }

  // ---- what these mean

  // Each operator is followed by a string, which can be opened if it is to be.
  predicate WellFormed(ts: seq<Tok>, opening: Opening) {
    forall k :: 0 <= k < |ts| && Redirects(ts[k]) ==>
      k + 1 < |ts| && String(ts[k + 1]) && (Opens(ts[k]) ==> opening(ts[k], ts[k + 1].word))
  }

  // do_redir succeeds exactly on these.
  lemma {:induction false} ProblemWhen(ts: seq<Tok>, opening: Opening)
    ensures Problem(ts, opening) == None <==> WellFormed(ts, opening)
    decreases |ts|
  {
    if ts != [] {
      if !Redirects(ts[0]) {
        ProblemWhen(ts[1..], opening);
        WellFormedTail(ts, 1, opening);
      } else if |ts| > 1 && String(ts[1]) {
        ProblemWhen(ts[2..], opening);
        WellFormedTail(ts, 2, opening);
      }
    }
  }

  lemma {:induction false} WellFormedTail(ts: seq<Tok>, d: nat, opening: Opening)
    requires d <= |ts|
    ensures WellFormed(ts[d..], opening) <==>
      forall k :: d <= k < |ts| && Redirects(ts[k]) ==>
        k + 1 < |ts| && String(ts[k + 1]) && (Opens(ts[k]) ==> opening(ts[k], ts[k + 1].word))
  {
    var us := ts[d..];
    if WellFormed(us, opening) {
      forall k | d <= k < |ts| && Redirects(ts[k])
        ensures k + 1 < |ts| && String(ts[k + 1]) && (Opens(ts[k]) ==> opening(ts[k], ts[k + 1].word))
      {
        assert us[k - d] == ts[k];
        assert k + 1 < |ts| ==> us[k - d + 1] == ts[k + 1];
      }
    }
  }

  lemma {:induction false} Shifted(a: seq<Tok>, m: seq<Tok>, b: seq<Tok>, d: nat, opening: Opening)
    requires d <= |a| && WellFormed(a, opening)
    ensures WellFormed(a[d..], opening) && (a + m + b)[d..] == a[d..] + m + b
  {
    WellFormedTail(a, d, opening);
  }

  lemma {:induction false} Regrouped(t: Tok, x: seq<Tok>, y: seq<Tok>)
    ensures [t] + (x + y) == ([t] + x) + y
  {
  }

  // A redirection may stand anywhere among the tokens: the others stay in order,
  lemma {:induction false} Redirected(a: seq<Tok>, op: Tok, name: string, b: seq<Tok>, opening: Opening)
    requires WellFormed(a, opening) && Redirects(op)
    ensures Drop(a + [op, Word(name)] + b) == Drop(a) + Drop(b)
    decreases |a|
  {
    var ts := a + [op, Word(name)] + b;
    if a == [] {
      assert ts[0] == op && ts[1] == Word(name) && ts[2..] == b;
    } else if !Redirects(a[0]) {
      Shifted(a, [op, Word(name)], b, 1, opening);
      assert ts[0] == a[0];
      Redirected(a[1..], op, name, b, opening);
      Regrouped(a[0], Drop(a[1..]), Drop(b));
    } else {
      Shifted(a, [op, Word(name)], b, 2, opening);
      assert ts[0] == a[0];
      Redirected(a[2..], op, name, b, opening);
    }
  }

  // and of several for the same end the last one counts.
  lemma {:induction false} LastRedirection(a: seq<Tok>, op: Tok, name: string, b: seq<Tok>, opening: Opening, e: End)
    requires WellFormed(a, opening) && Redirects(op)
    ensures var ts := a + [op, Word(name)] + b;
      && InputOf(ts, e) == InputOf(b, if op == Input then File(op, name) else InputOf(a, e))
      && OutputOf(ts, e) == OutputOf(b, if op == Output || op == Append then File(op, name) else OutputOf(a, e))
    decreases |a|
  {
    var ts := a + [op, Word(name)] + b;
    if a == [] {
      assert ts[0] == op && ts[1] == Word(name) && ts[2..] == b;
    } else if !Redirects(a[0]) {
      Shifted(a, [op, Word(name)], b, 1, opening);
      assert ts[0] == a[0];
      LastRedirection(a[1..], op, name, b, opening, e);
    } else {
      Shifted(a, [op, Word(name)], b, 2, opening);
      assert ts[0] == a[0] && ts[1] == a[1];
      LastRedirection(a[2..], op, name, b, opening, if a[0] == Input then File(Input, a[1].word) else e);
      LastRedirection(a[2..], op, name, b, opening,
        if a[0] == Output || a[0] == Append then File(a[0], a[1].word) else e);
    }
  }

  // Nothing else is touched.
  lemma {:induction false} Unredirected(ts: seq<Tok>, e: End)
    requires forall k :: 0 <= k < |ts| ==> !Redirects(ts[k])
    ensures Drop(ts) == ts && InputOf(ts, e) == OutputOf(ts, e) == e
  {
    if ts != [] { Unredirected(ts[1..], e); }
  }

  // ---- the loop

  function Nulls(n: nat): (r: seq<Tok>)
    ensures |r| == n && forall k :: 0 <= k < n ==> r[k] == Null
  {
    seq(n, _ => Null)
  }

  // Where the loop is at i, having kept n tokens.
  ghost predicate Compacted(ts: seq<Tok>, now: seq<Tok>, i: nat, n: nat) {
    && n <= i <= |ts| == |now| && now[i..] == ts[i..] && now[..n] + Drop(ts[i..]) == Drop(ts)
  }

  lemma {:induction false} KeepStep(ts: seq<Tok>, now: seq<Tok>, i: nat, n: nat)
    requires Compacted(ts, now, i, n) && i < |ts| && !Redirects(ts[i])
    ensures Compacted(ts, now[n := now[i]], i + 1, n + 1) && now[i] == ts[i]
  {
    var s, t := ts[i..], now[n := now[i]];
    assert now[i] == now[i..][0] == s[0] == ts[i];
    assert s[1..] == ts[i + 1..] && t[i + 1..] == now[i..][1..] == ts[i + 1..];
    assert t[..n + 1] == now[..n] + [ts[i]];
    assert now[..n] + ([ts[i]] + Drop(s[1..])) == now[..n] + [ts[i]] + Drop(s[1..]);
  }

  lemma {:induction false} DropStep(ts: seq<Tok>, now: seq<Tok>, i: nat, n: nat)
    requires Compacted(ts, now, i, n) && i + 1 < |ts| && Redirects(ts[i])
    ensures Compacted(ts, now, i + 2, n)
  {
    assert ts[i..][2..] == ts[i + 2..] && now[i..][2..] == now[i + 2..];
  }

  // What remains to be seen from i on decides the outcome.
  ghost predicate Pending(ts: seq<Tok>, i: nat, opening: Opening, input0: End, output0: End, input: End, output: End)
    requires i <= |ts|
  {
    && Problem(ts[i..], opening) == Problem(ts, opening)
    && InputOf(ts[i..], input) == InputOf(ts, input0)
    && OutputOf(ts[i..], output) == OutputOf(ts, output0)
  }

  ghost predicate Outside(before: seq<Tok>, after: seq<Tok>, at: nat, end: nat)
    requires at <= end <= |before| == |after|
  {
    before[..at] == after[..at] && before[end..] == after[end..]
  }

  // One redirection: the operator at i with its operand.
  method Redirect(mode: Tok, operand: Tok, input0: End, output0: End, opening: Opening)
    returns (failure: Option<Failure>, input: End, output: End)
    requires Redirects(mode)
    ensures failure ==
      if !String(operand) then Some(NotAString)
      else if Opens(mode) && !opening(mode, operand.word) then Some(CannotOpen)
      else None
    ensures failure.None? ==>
      && input == (if mode == Input then File(Input, operand.word) else input0)
      && output == (if mode == Output || mode == Append then File(mode, operand.word) else output0)
  {
    failure, input, output := None, input0, output0;
    if !String(operand) {
      failure := Some(NotAString);
    } else if mode == Input {
      if opening(mode, operand.word) {
        input := File(Input, operand.word);
      } else {
        failure := Some(CannotOpen);
      }
    } else if mode == Output {
      if opening(mode, operand.word) {
        output := File(Output, operand.word);
      } else {
        failure := Some(CannotOpen);
      }
    } else if mode == Append {
      if opening(mode, operand.word) {
        output := File(Append, operand.word);
      } else {
        failure := Some(CannotOpen);
      }
    }
  }

  lemma {:induction false} PendingKeep(ts: seq<Tok>, opening: Opening, input: End, output: End)
    requires ts != [] && !Redirects(ts[0])
    ensures Pending(ts, 1, opening, input, output, input, output)
  {
  }

  lemma {:induction false} PendingDrop(ts: seq<Tok>, opening: Opening, input: End, output: End)
    requires |ts| > 1 && Redirects(ts[0]) && String(ts[1]) && (Opens(ts[0]) ==> opening(ts[0], ts[1].word))
    ensures Pending(ts, 2, opening, input, output,
      if ts[0] == Input then File(Input, ts[1].word) else input,
      if ts[0] == Output || ts[0] == Append then File(ts[0], ts[1].word) else output)
  {
  }

  // One turn of the loop at i: either a failure, or i and n move on.
  method Turn(token: array<Tok>, at: nat, ntokens: nat, i0: nat, n0: nat, input0: End, output0: End, opening: Opening,
              ghost ts: seq<Tok>)
    returns (failure: Option<Failure>, i: nat, n: nat, input: End, output: End)
    requires at + ntokens <= token.Length && i0 < ntokens && Compacted(ts, token[at..at + ntokens], i0, n0)
    modifies token
    ensures failure.Some? ==> failure == Problem(ts[i0..], opening)
    ensures failure.None? ==>
      && i0 < i && Compacted(ts, token[at..at + ntokens], i, n)
      && Pending(ts[i0..], i - i0, opening, input0, output0, input, output)
    ensures Outside(old(token[..]), token[..], at, at + ntokens)
  {
    ghost var now := token[at..at + ntokens];
    failure, i, n, input, output := None, i0, n0, input0, output0;
    assert now[i] == now[i..][0] == ts[i..][0] == ts[i];
    var mode := token[at + i];
    if Separator(mode) || String(mode) {
      KeepStep(ts, now, i, n);
      PendingKeep(ts[i..], opening, input, output);
      Keep(token, at, ntokens, n, i);
      n := n + 1;
    } else {
      if i + 1 >= ntokens { return Some(NoOperand), i, n, input, output; }
      assert now[i + 1] == now[i..][1] == ts[i..][1] == ts[i + 1];
      failure, input, output := Redirect(mode, token[at + i + 1], input, output, opening);
      if failure.Some? { return; }
      DropStep(ts, now, i, n);
      PendingDrop(ts[i..], opening, input0, output0);
      i := i + 1;
    }
    i := i + 1;
  }

  // shell.c:32-69
  method Compact(token: array<Tok>, at: nat, ntokens: nat, input0: End, output0: End, opening: Opening)
    returns (failure: Option<Failure>, n: nat, input: End, output: End)
    requires at + ntokens <= token.Length
    modifies token
    ensures var ts := old(token[at..at + ntokens]);
      && failure == Problem(ts, opening)
      && (failure.None? ==>
        && input == InputOf(ts, input0) && output == OutputOf(ts, output0)
        && n == |Drop(ts)| && token[at..at + n] == Drop(ts))
    ensures Outside(old(token[..]), token[..], at, at + ntokens)
  {
    ghost var ts := token[at..at + ntokens];
    failure, n, input, output := None, 0, input0, output0;
    var i := 0;
    while i < ntokens
      invariant n <= i <= ntokens && failure.None?
      invariant Compacted(ts, token[at..at + ntokens], i, n)
      invariant Pending(ts, i, opening, input0, output0, input, output)
      invariant Outside(old(token[..]), token[..], at, at + ntokens)
    {
      ghost var from := i;
      failure, i, n, input, output := Turn(token, at, ntokens, i, n, input, output, opening, ts);
      if failure.Some? { return; }
      assert ts[from..][i - from..] == ts[i..];
    }
    assert token[at..at + ntokens][..n] == token[at..at + n];
  }

  method Keep(token: array<Tok>, at: nat, ntokens: nat, n: nat, i: nat)
    requires at + ntokens <= token.Length && n <= i < ntokens
    modifies token
    ensures token[at..at + ntokens] == var now := old(token[at..at + ntokens]); now[n := now[i]]
    ensures Outside(old(token[..]), token[..], at, at + ntokens)
  {
    token[at + n] := token[at + i];
  }

  // The stage's tokens are token[at..at + ntokens]; what is kept of them ends up
  // in front, with NULLs after it as far as the stage goes and just beyond.
  method DoRedir(token: array<Tok>, at: nat, ntokens: nat, input0: End, output0: End, opening: Opening)
    returns (r: Outcome)
    requires at + ntokens < token.Length
    modifies token
    ensures var ts := old(token[at..at + ntokens]); var p := Problem(ts, opening);
      if p.Some? then r == Failed(p.value)
      else
        && var kept := Drop(ts);
        && r == Done(|kept|, InputOf(ts, input0), OutputOf(ts, output0))
        && token[at..at + ntokens] == kept + Nulls(ntokens - |kept|)
        && token[at + |kept|] == Null
        && (|kept| < ntokens ==> token[at + ntokens] == old(token[at + ntokens]))
    ensures Outside(old(token[..]), token[..], at, at + ntokens + 1)
  {
    var failure, n, input, output := Compact(token, at, ntokens, input0, output0, opening);
    if failure.Some? {
      return Failed(failure.value);
    }
    ghost var kept := token[at..at + n];
    var i := n;
    while i < ntokens
      invariant n <= i <= ntokens
      invariant token[at..at + n] == kept
      invariant forall k :: at + n <= k < at + i ==> token[k] == Null
      invariant Outside(old(token[..]), token[..], at, at + ntokens)
    {
      token[at + i] := Null;
      i := i + 1;
    }
    token[at + n] := Null;
    return Done(n, input, output);
  }
}
