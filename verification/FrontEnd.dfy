// eval of shell.c: from a line to its job.
module FrontEnd {
  import opened Tokens
  import opened Redirection
  import opened Descriptors
  import opened Pipelines
  import Command
  import Grammar
  import Lexer
  import RoundTrip
  import L = JobLedger
  import R = JobRuns
  import S = JobSafety
  import T = JobTable

  // ---- a whole line

  predicate Background(ts: seq<Tok>) { ts != [] && ts[|ts| - 1] == BgJob }

  // The line without the ampersand at its end.
  function Body(ts: seq<Tok>): seq<Tok> {
    if Background(ts) then ts[..|ts| - 1] else ts
  }

  // A line that the shell runs itself, without starting a process.
  predicate Internal(ts: seq<Tok>, opening: Opening, builtins: Builtins) {
    !Background(ts) && Pipe !in Body(ts) && HandledHere(Body(ts), opening, builtins)
  }

  predicate Runnable(ts: seq<Tok>, opening: Opening, builtins: Builtins) {
    Body(ts) == [] || Internal(ts, opening, builtins) || GoodLine(Body(ts), opening)
  }

  method IsPipeline(token: array<Tok>, ntokens: nat) returns (r: bool)
    requires ntokens <= token.Length
    ensures r <==> Pipe in token[..ntokens]
  {
    var i := 0;
    while i < ntokens
      invariant i <= ntokens && Pipe !in token[..i]
    {
      if token[i] == Pipe {
        return true;
      }
      i := i + 1;
    }
    return false;
  }

  // What became of the line: nothing, a builtin, or processes started, and whether
  // the shell is still waiting for them; or the shell has stopped.
  datatype Did = Nothing | Builtin | Started(run: seq<Pipelines.Started>, waiting: bool) | Stopped

  // The tokens as strings, each pointer standing for the string it points to.
  method Strings(buf: array<char>, tokvec: array<Token<nat>>, ntoks: nat) returns (token: array<Tok>)
    requires ntoks < tokvec.Length && tokvec[ntoks] == Null
    ensures fresh(token) && token.Length == ntoks + 1
    ensures token[..ntoks] == Lexer.ReadAll(buf[..], tokvec[..ntoks]) && token[ntoks] == Null
  {
    token := new Tok[ntoks + 1](_ => Null);
    var i := 0;
    while i < ntoks
      invariant i <= ntoks && token[ntoks] == Null
      invariant token[..i] == Lexer.ReadAll(buf[..], tokvec[..ntoks])[..i]
    {
      token[i] := Lexer.Read(buf[..], tokvec[i]);
      i := i + 1;
    }
  }

  lemma {:induction false} LexNoNull(s: string)
    requires Lexer.NUL !in s
    ensures Null !in Lexer.Lex(s) && Null !in Body(Lexer.Lex(s))
  {
    RoundTrip.LexSound(s);
  }

  lemma {:induction false} OneStage(ts: seq<Tok>, forks: seq<int>, s: Pipelines.Started, opening: Opening)
    requires Pipe !in ts && forks != []
    ensures GoodLine(ts, opening) <==> GoodStage(ts, opening)
    ensures s == Wired(ts, forks[0], 0, -1, -1) ==> AllRun(Divide(ts), forks, [s], [])
  {
    hide GoodStage, Wired;
    DivideNone(ts);
    WiredFirst(ts, forks[0], -1, -1);
    var d := Divide(ts);
    assert d[0] == ts;
    forall m | 0 <= m < |d| && s == Wired(ts, forks[0], 0, -1, -1)
      ensures [s][m] == Wired(d[m], forks[m], forks[0], EndBefore([], m), EndAfter([], m)) {}
    if GoodStage(ts, opening) {
      forall m | 0 <= m < |d| ensures GoodStage(d[m], opening) {}
    }
  }

  // shell.c:261-272
  method EvalTokens(front: Front, token: array<Tok>, ntokens0: nat, opening: Opening, builtins: Builtins)
    returns (did: Did, ghost pipes: seq<Ends>, ghost j: nat)
    requires ntokens0 < token.Length && Null !in token[..ntokens0]
    requires |Divide(Body(token[..ntokens0]))| <= |front.forks|
    requires front.jobs.Valid() && front.jobs.world.pc.Idle? && Fresh(front.jobs.jobs, front.forks)
    requires front.fds.Valid() && front.fds.open == front.fds.own
    modifies front`forks, front`wires, front.fds, front.jobs, token
    ensures var ts := old(token[..ntokens0]);
      && (did.Stopped? <==> !Runnable(ts, opening, builtins)) && (did.Nothing? <==> Body(ts) == [])
      && (did.Builtin? <==> Body(ts) != [] && Internal(ts, opening, builtins))
      && (did.Started? ==>
        && AllRun(Divide(Body(ts)), old(front.forks), did.run, pipes)
        && Connected(old(front.fds.made), front.fds.made, old(front.wires), front.wires, pipes)
        && front.jobs.Valid()
        && Settled(front.jobs.world, j, Background(ts), |old(front.jobs.world).ledger|, did.waiting)
        && JobIs(front.jobs.world, |old(front.jobs.world).ledger|, did.run)
        && Grouped(front.jobs.world, |old(front.jobs.world).ledger|, did.run))
      && (did.Nothing? || did.Builtin? ==>
        && front.wires == old(front.wires) && front.forks == old(front.forks)
        && front.jobs.Valid() && front.jobs.world == old(front.jobs.world))
    ensures !did.Stopped? ==> front.fds.Valid() && front.fds.open == front.fds.own
    ensures front.fds.most <= 3 || front.fds.most == old(front.fds.most)
  {
    hide R.Inv, S.Run, WellFormed, Drop;
    ghost var ts := token[..ntokens0];
    ghost var body := Body(ts);
    ghost var forks0 := front.forks;
    var ntokens, bg := ntokens0, false;
    pipes, j := [], 0;
    if ntokens > 0 && token[ntokens - 1] == BgJob {
      assert ts[|ts| - 1] == token[ntokens - 1];
      ntokens := ntokens - 1;
      token[ntokens] := Null;
      bg := true;
    }
    assert token[..ntokens] == body && bg == Background(ts);
    if ntokens == 0 {
      return Nothing, pipes, j;
    }
    var several := IsPipeline(token, ntokens);
    var ok, waiting;
    if several {
      var run;
      ok, waiting, run, pipes, j := front.DoPipeline(token, ntokens, bg, opening);
      did := if ok then Did.Started(run, waiting) else Stopped;
    } else {
      var s, handled;
      ok, handled, waiting, s, j := front.DoJob(token, ntokens, bg, opening, builtins);
      OneStage(body, forks0, s, opening);
      if ok && !handled { ConnectedAlone(front.fds.made, old(front.wires), front.wires); }
      did := if !ok then Stopped else if handled then Builtin else Did.Started([s], waiting);
    }
  }

  // A line starts the processes of its stages, connected by pipes, and they form
  // one job, exactly if each stage can be started.
  method Eval(front: Front, buf: array<char>, ghost n: nat, opening: Opening, builtins: Builtins)
    returns (did: Did, ghost pipes: seq<Ends>, ghost j: nat)
    requires n < buf.Length && buf[n] == Lexer.NUL && Lexer.NUL !in buf[..n]
    requires |Divide(Body(Lexer.Lex(buf[..n])))| <= |front.forks|
    requires front.jobs.Valid() && front.jobs.world.pc.Idle? && Fresh(front.jobs.jobs, front.forks)
    requires front.fds.Valid() && front.fds.open == front.fds.own
    modifies front`forks, front`wires, front.fds, front.jobs, buf
    ensures var ts := Lexer.Lex(old(buf[..n]));
      && (did.Stopped? <==> !Runnable(ts, opening, builtins)) && (did.Nothing? <==> Body(ts) == [])
      && (did.Builtin? <==> Body(ts) != [] && Internal(ts, opening, builtins))
      && (did.Started? ==>
        && AllRun(Divide(Body(ts)), old(front.forks), did.run, pipes)
        && Connected(old(front.fds.made), front.fds.made, old(front.wires), front.wires, pipes)
        && front.jobs.Valid()
        && Settled(front.jobs.world, j, Background(ts), |old(front.jobs.world).ledger|, did.waiting)
        && JobIs(front.jobs.world, |old(front.jobs.world).ledger|, did.run)
        && Grouped(front.jobs.world, |old(front.jobs.world).ledger|, did.run))
      && (did.Nothing? || did.Builtin? ==>
        && front.wires == old(front.wires) && front.forks == old(front.forks)
        && front.jobs.Valid() && front.jobs.world == old(front.jobs.world))
    ensures !did.Stopped? ==> front.fds.Valid() && front.fds.open == front.fds.own
    ensures front.fds.most <= 3 || front.fds.most == old(front.fds.most)
  {
    LexNoNull(buf[..n]);
    var tokvec, ntoks := Lexer.Tokenize(buf, n);
    var token := Strings(buf, tokvec, ntoks);
    did, pipes, j := EvalTokens(front, token, ntoks, opening, builtins);
  }

  // ---- what a line does, told by its text

  lemma {:induction false} RedirectedStage(argv: seq<string>, op: Tok, f: string)
    requires op == Input || op == Output
    ensures var ts := RoundTrip.Words(argv) + [op, Word(f)];
      && Divide(ts) == [ts] && Body(ts) == ts && Drop(ts) == RoundTrip.Words(argv)
      && InputOf(ts, Fd(-1)) == (if op == Input then File(Input, f) else Fd(-1))
      && OutputOf(ts, Fd(-1)) == (if op == Output then File(Output, f) else Fd(-1))
  {
    hide Divide, Drop, InputOf, OutputOf;
    var w, opening := RoundTrip.Words(argv), (t: Tok, name: string) => true;
    var ts := w + [op, Word(f)];
    assert ts + [] == ts;
    DivideNone(ts);
    Unredirected(w, Fd(-1));
    Unredirected([], if op == Input then File(op, f) else Fd(-1));
    Unredirected([], if op == Output then File(op, f) else Fd(-1));
    Redirected(w, op, f, [], opening);
    LastRedirection(w, op, f, [], opening, Fd(-1));
    assert w + [] == w;
  }

  // "words <file" runs the words with the file for standard input, and "words >file"
  // with it for standard output.
  lemma {:induction false} InputLine(argv: seq<string>, f: string, forks: seq<int>, run: seq<Pipelines.Started>,
                                     pipes: seq<Ends>)
    requires RoundTrip.Stage(argv) && Lexer.TokenWord(f)
    requires AllRun(Divide(Body(Lexer.Lex(Command.Spaced(argv) + " <" + f))), forks, run, pipes)
    ensures pipes == [] && forks != []
    ensures run == [Pipelines.Started.Started(forks[0], forks[0], RoundTrip.Words(argv), File(Input, f), Fd(-1))]
  {
    hide Lexer.Lex, Divide, Drop, InputOf, OutputOf, Body, Command.Spaced;
    Grammar.LexRedirection(argv, f);
    RedirectedStage(argv, Input, f);
  }

  lemma {:induction false} OutputLine(argv: seq<string>, f: string, forks: seq<int>, run: seq<Pipelines.Started>,
                                      pipes: seq<Ends>)
    requires RoundTrip.Stage(argv) && Lexer.TokenWord(f)
    requires AllRun(Divide(Body(Lexer.Lex(Command.Spaced(argv) + " >" + f))), forks, run, pipes)
    ensures pipes == [] && forks != []
    ensures run == [Pipelines.Started.Started(forks[0], forks[0], RoundTrip.Words(argv), Fd(-1), File(Output, f))]
  {
    hide Lexer.Lex, Divide, Drop, InputOf, OutputOf, Body, Command.Spaced;
    Grammar.LexRedirection(argv, f);
    RedirectedStage(argv, Output, f);
  }

  // An ampersand at the end puts the rest of the line in the background, and without
  // one the line is run in the foreground.
  lemma {:induction false} AmpersandLine(x: string)
    requires !Grammar.Ends(x, '&')
    ensures Background(Lexer.Lex(x + "&")) && Body(Lexer.Lex(x + "&")) == Lexer.Lex(x)
    ensures '&' !in x ==> !Background(Lexer.Lex(x)) && Body(Lexer.Lex(x)) == Lexer.Lex(x)
  {
    hide Lexer.Lex;
    Grammar.LexAmpersand(x, "");
    Grammar.LexEmpty();
    assert x + "&" + "" == x + "&";
    assert Lexer.Lex(x) + [BgJob] + [] == Lexer.Lex(x) + [BgJob];
    if '&' !in x { Grammar.NoAmpersand(x); }
  }

  // ---- the stored command

  lemma {:induction false} PlainStages(ts: seq<Tok>, m: nat)
    requires RoundTrip.Plain(ts) && m < |Divide(ts)|
    requires forall m, k :: 0 <= m < |Divide(ts)| && 0 <= k < |Divide(ts)[m]| ==> Divide(ts)[m][k].Word?
    ensures Drop(Divide(ts)[m]) == Divide(ts)[m]
  {
    Unredirected(Divide(ts)[m], Fd(-1));
  }

  lemma {:induction false} TextOfLine(line: string, forks: seq<int>, run: seq<Pipelines.Started>, pipes: seq<Ends>)
    requires Lexer.NUL !in line && RoundTrip.Plain(Body(Lexer.Lex(line)))
    requires AllRun(Divide(Body(Lexer.Lex(line))), forks, run, pipes)
    ensures var text := Command.CommandText(Argvs(run));
      text.Some? && Lexer.Lex(text.value) == Body(Lexer.Lex(line))
  {
    var ts := Body(Lexer.Lex(line));
    var d := Divide(ts);
    RoundTrip.LexSound(line);
    RoundTrip.StoredTokens(ts);
    forall m | 0 <= m < |d| ensures Argvs(run)[m] == RoundTrip.Argvs(d)[m] {
      PlainStages(ts, m);
      assert run[m].argv == d[m];
    }
    assert Argvs(run) == RoundTrip.Argvs(d);
  }

  // As long as a run goes on, the job keeps its processes and words: only addproc
  // writes them, and only those of the job being built.
  lemma {:induction false} JobStays(w: R.World, events: seq<R.Event>, v: R.World, id: nat)
    requires R.Inv(w) && S.Run(w, events, v) && id < |w.ledger|
    requires w.pc.Building? ==> w.ids[w.pc.j] != id
    ensures id < |v.ledger| && v.ledger[id].pids == w.ledger[id].pids && v.ledger[id].stages == w.ledger[id].stages
    decreases events
  {
    hide L.Agrees;
    if events != [] {
      var u := R.Step(w, events[0]);
      S.StepKeeps(w, events[0]);
      if events[0].Signal? { S.EndedStays(w.ledger, events[0].notices, id); }
      JobStays(u, events[1..], v, id);
    }
  }

  // The command kept in the job table for a line of words and pipes has the tokens
  // of that line, wherever the job is by then: entered again it would run the same
  // stages.
  lemma {:induction false} CommandOfLine(line: string, forks: seq<int>, run: seq<Pipelines.Started>, pipes: seq<Ends>,
                                         w: R.World, id: nat, events: seq<R.Event>, v: R.World, i: nat)
    requires Lexer.NUL !in line && RoundTrip.Plain(Body(Lexer.Lex(line)))
    requires AllRun(Divide(Body(Lexer.Lex(line))), forks, run, pipes)
    requires R.Inv(w) && !w.pc.Building? && JobIs(w, id, run) && S.Run(w, events, v)
    requires i < |v.t| && i < |v.ids| && T.Live(v.t[i]) && v.ids[i] == id
    ensures var command := v.t[i].command;
      command.Some? && Lexer.Lex(command.value) == Body(Lexer.Lex(line))
    ensures |v.t[i].procs| == |run| >= 1 && forall k :: 0 <= k < |run| ==> v.t[i].procs[k].pid == run[k].pid
    ensures v.t[i].pgid == run[0].pid
  {
    TextOfLine(line, forks, run, pipes);
    JobStays(w, events, v, id);
    S.RunKeeps(w, events, v);
    assert L.JobOk(v.t[i], v.ledger[id]);
    forall k | 0 <= k < |run| ensures v.t[i].procs[k].pid == run[k].pid {
      assert L.ProcOk(v.t[i].procs[k], v.ledger[id].pids[k], v.ledger[id].ended[k]);
    }
  }

  // ---- ">>"

  // Two output redirections in a row fall into one stage.
  lemma {:induction false} PairInStage(ts: seq<Tok>, k: nat) returns (m: nat, i: nat)
    requires k + 1 < |ts| && ts[k] == ts[k + 1] == Output
    ensures m < |Divide(ts)| && i + 1 < |Divide(ts)[m]|
    ensures Divide(ts)[m][i] == Divide(ts)[m][i + 1] == Output
    decreases k
  {
    var d := Divide(ts[1..]);
    if k == 0 {
      assert ts[1..][0] == Output;
      assert d[0] == [Output] + Divide(ts[1..][1..])[0];
      m, i := 0, 0;
    } else {
      var m1, i1 := PairInStage(ts[1..], k - 1);
      if ts[0] == Pipe {
        m, i := m1 + 1, i1;
      } else if m1 == 0 {
        m, i := 0, i1 + 1;
      } else {
        m, i := m1, i1;
      }
    }
  }

  // So the shell cannot append to a file: no line with ">>" can be run.
  lemma {:induction false} AppendStopsShell(x: string, y: string, opening: Opening, builtins: Builtins)
    ensures !Runnable(Lexer.Lex(x + ">>" + y), opening, builtins)
  {
    hide Drop, Divide, AllWords, Lexer.Lex;
    var ts := Lexer.Lex(x + ">>" + y);
    var k := |Lexer.Lex(x)|;
    RoundTrip.AppendIsTwoOutputs(x, y);
    assert ts[k] == ts[k + 1] == Output;
    if Background(ts) { assert Body(ts)[k] == ts[k]; }
    if k + 1 < |Body(ts)| {
      var m, i := PairInStage(Body(ts), k);
      assert !GoodStage(Divide(Body(ts))[m], opening);
    }
  }
}
