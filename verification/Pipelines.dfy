// do_stage and do_pipeline of shell.c: a line cut up into stages, each started
// with its ends of the pipes and entered in the job table.
module Pipelines {
  import opened Tokens
  import opened Redirection
  import Command
  import RoundTrip
  import opened Descriptors
  import T = JobTable
  import L = JobLedger
  import R = JobRuns
  import S = JobSafety
  import C = JobCourse
  import J = JobControl

  // A process as it was started: its process group, its arguments, and what it has
  // for standard input and output.
  datatype Started = Started(pid: int, group: int, argv: seq<Tok>, input: End, output: End)

  // ---- which lines can be started

  predicate AllWords(ts: seq<Tok>) { forall k :: 0 <= k < |ts| ==> ts[k].Word? }

  // Redirections have their operands, and words remain, and nothing but words.
  predicate GoodStage(stage: seq<Tok>, opening: Opening) {
    WellFormed(stage, opening) && Drop(stage) != [] && AllWords(Drop(stage))
  }

  // The commands builtin_command takes care of, given the tokens that are kept.
  type Builtins = seq<Tok> -> bool

  // A command that the shell runs itself.
  predicate HandledHere(ts: seq<Tok>, opening: Opening, builtins: Builtins) {
    WellFormed(ts, opening) && Drop(ts) != [] && Drop(ts)[0].Word? && builtins(Drop(ts))
  }

  predicate GoodLine(ts: seq<Tok>, opening: Opening) {
    forall m :: 0 <= m < |Divide(ts)| ==> GoodStage(Divide(ts)[m], opening)
  }

  lemma {:induction false} DivideAt(ts: seq<Tok>, k: nat)
    requires k < |ts| && ts[k] == Pipe && Pipe !in ts[..k]
    ensures Divide(ts) == [ts[..k]] + Divide(ts[k + 1..])
    decreases k
  {
    if k > 0 {
      assert ts[0] == ts[..k][0] && ts[1..][..k - 1] == ts[1..k] == ts[..k][1..] && ts[1..][k..] == ts[k + 1..];
      DivideAt(ts[1..], k - 1);
      assert [ts[0]] + ts[1..k] == ts[..k];
    } else {
      assert ts[..0] == [];
    }
  }

  lemma {:induction false} DivideNone(ts: seq<Tok>)
    requires Pipe !in ts
    ensures Divide(ts) == [ts]
  {
    if ts != [] {
      DivideNone(ts[1..]);
      assert [ts[0]] + ts[1..] == ts;
    }
  }

  // ---- the job being built

  // Job number id, in slot j, has these processes so far.
  ghost predicate Under(w: R.World, j: nat, bg: bool, id: nat, pids: seq<int>, stages: seq<seq<string>>) {
    && w.pc == R.Building(j, bg) && j < |w.ids| && w.ids[j] == id < |w.ledger|
    && w.ledger[id].pids == pids && w.ledger[id].stages == stages
  }

  // Fork never returns a pid that is still in the job table.
  ghost predicate Fresh(t: T.Table, forks: seq<int>) {
    && (forall k :: 0 <= k < |forks| ==> forks[k] != 0 && !L.Recorded(t, forks[k]))
    && forall k, l :: 0 <= k < l < |forks| ==> forks[k] != forks[l]
  }

  lemma {:induction false} FreshAfter(t: T.Table, j: nat, forks: seq<int>, argv: seq<string>)
    requires Fresh(t, forks) && forks != [] && j < |t|
    ensures Fresh(T.AddedProc(t, j, forks[0], argv), forks[1..])
  {
    var u := T.AddedProc(t, j, forks[0], argv);
    forall k | 0 <= k < |forks[1..]| ensures !L.Recorded(u, forks[1..][k]) {
      assert !L.Recorded(t, forks[k + 1]);
    }
  }

  lemma {:induction false} FreshAdded(t: T.Table, pgid: int, bg: bool, forks: seq<int>)
    requires Fresh(t, forks) && |t| >= 1
    ensures Fresh(T.AddedJob(t, pgid, bg), forks)
  {
    var u := T.AddedJob(t, pgid, bg);
    forall k | 0 <= k < |forks| ensures !L.Recorded(u, forks[k]) {}
  }

  // addjob, and then each addproc
  lemma {:induction false} JobBegun(w: R.World, pgid: int, bg: bool)
    requires R.Inv(w) && R.Enabled(w, R.AddJob(pgid, bg))
    ensures var v := R.Step(w, R.AddJob(pgid, bg));
      v.pc.Building? && Under(v, v.pc.j, bg, |w.ledger|, [], []) && v.t == T.AddedJob(w.t, pgid, bg)
      && v.pc.j < |v.t| && v.t[v.pc.j].pgid == pgid
  {
  }

  lemma {:induction false} Joined(w: R.World, j: nat, bg: bool, id: nat, pids: seq<int>, stages: seq<seq<string>>)
    requires R.Inv(w) && Under(w, j, bg, id, pids, stages)
    ensures j < |w.t| && (w.t[j].procs == [] <==> pids == [])
  {
    assert L.JobOk(w.t[j], w.ledger[id]);
  }

  lemma {:induction false} ProcessAdded(w: R.World, j: nat, bg: bool, id: nat, pids: seq<int>, stages: seq<seq<string>>,
                                        pid: int, argv: seq<string>)
    requires R.Inv(w) && Under(w, j, bg, id, pids, stages) && R.Enabled(w, R.AddProcess(pid, argv))
    ensures var v := R.Step(w, R.AddProcess(pid, argv));
      Under(v, j, bg, id, pids + [pid], stages + [argv]) && v.t == T.AddedProc(w.t, j, pid, argv)
  {
  }

  // An argument vector with its NULL, at this place among the tokens.
  ghost predicate InPlace(token: array<Tok>, at: nat, argv: seq<Tok>)
    reads token
  {
    at + |argv| < token.Length && token[at..at + |argv|] == argv && token[at + |argv|] == Null
  }

  lemma {:induction false} KeptInFront(all: seq<Tok>, kept: seq<Tok>, n: nat)
    requires |kept| <= n && all == kept + Nulls(n - |kept|)
    ensures all[..|kept|] == kept
  {
  }

  // What mkcommand reads of an argument vector; words are all it can read.
  method ReadArgv(token: array<Tok>, at: nat, ghost kept: seq<Tok>) returns (ok: bool, argv: seq<string>)
    requires InPlace(token, at, kept) && Null !in kept
    ensures ok <==> AllWords(kept)
    ensures ok ==> argv == RoundTrip.Texts(kept)
  {
    argv := [];
    var i := at;
    assert forall k :: at <= k < at + |kept| ==> token[k] == kept[k - at] != Null;
    while token[i] != Null
      invariant at <= i <= at + |kept| && AllWords(kept[..i - at]) && argv == RoundTrip.Texts(kept[..i - at])
      decreases at + |kept| - i
    {
      assert token[i] == kept[i - at];
      if !String(token[i]) {
        return false, [];
      }
      argv := argv + [token[i].word];
      i := i + 1;
    }
    assert kept[..i - at] == kept;
    return true, argv;
  }

  ghost function Pids(run: seq<Started>): (r: seq<int>)
    ensures |r| == |run|
  {
    seq(|run|, m requires 0 <= m < |run| => run[m].pid)
  }

  ghost function Argvs(run: seq<Started>): (r: seq<seq<string>>)
    ensures |r| == |run|
  {
    seq(|run|, m requires 0 <= m < |run| => if AllWords(run[m].argv) then RoundTrip.Texts(run[m].argv) else [])
  }

  lemma {:induction false} DropNoNull(ts: seq<Tok>)
    requires Null !in ts
    ensures Null !in Drop(ts)
  {
    if ts != [] {
      if !Redirects(ts[0]) { DropNoNull(ts[1..]); } else if |ts| > 1 { DropNoNull(ts[2..]); }
    }
  }

  lemma {:induction false} StageNoNull(ts: seq<Tok>, stage: seq<Tok>, from: nat, to: nat)
    requires from <= to <= |ts| && stage == ts[from..to] && Null !in ts
    ensures Null !in Drop(stage)
  {
    DropNoNull(stage);
  }

  lemma {:induction false} FreshNext(t: T.Table, forks: seq<int>)
    requires Fresh(t, forks) && forks != []
    ensures Fresh(t, [forks[0]] + forks[1..])
  {
    assert [forks[0]] + forks[1..] == forks;
  }

  // Stage m begins after size and the loop has come to i; from there on the
  // tokens are still as they were.
  ghost predicate Cursor(ts: seq<Tok>, now: seq<Tok>, size: nat, i: nat, d: seq<seq<Tok>>, m: nat) {
    && size < i <= |ts| == |now| && now[size + 1..] == ts[size + 1..] && Pipe !in ts[size + 1..i]
    && m <= |d| && d[m..] == Divide(ts[size + 1..])
  }

  lemma {:induction false} CursorOn(ts: seq<Tok>, now: seq<Tok>, size: nat, i: nat, d: seq<seq<Tok>>, m: nat)
    requires Cursor(ts, now, size, i, d, m) && i < |ts|
    ensures now[i] == ts[i]
    ensures ts[i] != Pipe ==> Cursor(ts, now, size, i + 1, d, m)
  {
    assert now[size + 1..][i - size - 1] == ts[size + 1..][i - size - 1];
    assert ts[size + 1..i + 1] == ts[size + 1..i] + [ts[i]];
  }

  // A pipe at i ends stage m.
  lemma {:induction false} CursorStage(ts: seq<Tok>, now: seq<Tok>, size: nat, i: nat, d: seq<seq<Tok>>, m: nat)
    requires Cursor(ts, now, size, i, d, m) && i < |ts| && now[i] == Pipe
    ensures m + 1 < |d| && d[m] == now[size + 1..i] == ts[size + 1..i] && d[m + 1..] == Divide(ts[i + 1..])
    ensures ts[i] == Pipe
  {
    CursorOn(ts, now, size, i, d, m);
    var us, k := ts[size + 1..], i - size - 1;
    assert us[k] == Pipe && us[..k] == ts[size + 1..i] && us[k + 1..] == ts[i + 1..];
    DivideAt(us, k);
    assert now[size + 1..i] == now[size + 1..][..k];
    assert d[m] == d[m..][0] && d[m + 1..] == d[m..][1..];
  }

  lemma {:induction false} CursorNext(ts: seq<Tok>, now: seq<Tok>, after: seq<Tok>, size: nat, i: nat,
                                      d: seq<seq<Tok>>, m: nat)
    requires Cursor(ts, now, size, i, d, m) && i < |ts| && now[i] == Pipe
    requires |after| == |ts| && after[i + 1..] == now[i + 1..]
    ensures Cursor(ts, after, i, i + 1, d, m + 1)
  {
    CursorStage(ts, now, size, i, d, m);
    assert now[i + 1..] == now[size + 1..][i - size..] == ts[size + 1..][i - size..] == ts[i + 1..];
    assert ts[i + 1..i + 1] == [];
  }

  lemma {:induction false} TailKept(before: seq<Tok>, after: seq<Tok>, n: nat, at: nat, i: nat)
    requires at <= i < n < |before| == |after| && Outside(before, after, at, i + 1)
    ensures after[..n][i + 1..] == before[..n][i + 1..]
  {
    assert after[..n][i + 1..] == after[i + 1..][..n - i - 1];
    assert before[..n][i + 1..] == before[i + 1..][..n - i - 1];
  }

  lemma {:induction false} CursorFirst(ts: seq<Tok>, before: seq<Tok>, after: seq<Tok>, size: nat, d: seq<seq<Tok>>)
    requires size < |ts| < |before| == |after| && Outside(before, after, 0, size + 1)
    requires before[..|ts|] == ts[size := Null] && |d| > 1 && d[1..] == Divide(ts[size + 1..])
    ensures Cursor(ts, after[..|ts|], size, size + 1, d, 1)
  {
    TailKept(before, after, |ts|, 0, size);
    assert ts[size := Null][size + 1..] == ts[size + 1..];
    assert ts[size + 1..size + 1] == [];
  }

  lemma {:induction false} CursorLast(ts: seq<Tok>, now: seq<Tok>, size: nat, d: seq<seq<Tok>>, m: nat)
    requires Cursor(ts, now, size, |ts|, d, m)
    ensures |d| == m + 1 && d[m] == now[size + 1..] == ts[size + 1..]
  {
    assert ts[size + 1..|ts|] == ts[size + 1..];
    DivideNone(ts[size + 1..]);
    assert d[m] == d[m..][0];
  }

  // ---- the pipeline

  // What a process is given for standard input and output, before redirections.
  datatype Wire = Wire(input: Plug, output: Plug)

  ghost predicate Fed(wires0: seq<Wire>, wires: seq<Wire>, wire: Wire) { wires == wires0 + [wire] }

  // One more stage: a pipe is made for it to write, and it reads the one before.
  ghost predicate Piped(made0: seq<Ends>, made: seq<Ends>, wires0: seq<Wire>, wires: seq<Wire>, r: int, w: int) {
    made == made0 + [Ends(r, w)] && Fed(wires0, wires, Wire(ReadEnd(|made0| - 1), WriteEnd(|made0|)))
  }

  // The stages but the last are connected: each one after the first reads the pipe
  // that the one before writes.
  ghost predicate Laid(made0: seq<Ends>, made: seq<Ends>, wires0: seq<Wire>, wires: seq<Wire>, pipes: seq<Ends>) {
    && made == made0 + pipes && |wires| == |wires0| + |pipes| && wires[..|wires0|] == wires0
    && forall m :: 0 <= m < |pipes| ==> wires[|wires0| + m] == Wire(PlugBefore(|made0|, m), WriteEnd(|made0| + m))
  }

  // The stages are connected, and these are all the pipes.
  ghost predicate Connected(made0: seq<Ends>, made: seq<Ends>, wires0: seq<Wire>, wires: seq<Wire>, pipes: seq<Ends>) {
    && made == made0 + pipes && |wires| == |wires0| + |pipes| + 1 && wires[..|wires0|] == wires0
    && forall m :: 0 <= m <= |pipes| ==>
      wires[|wires0| + m] == Wire(PlugBefore(|made0|, m), if m == |pipes| then Own else WriteEnd(|made0| + m))
  }

  ghost function PlugBefore(base: nat, m: nat): Plug {
    if m == 0 then Own else ReadEnd(base + m - 1)
  }

  lemma {:induction false} LaidFirst(made0: seq<Ends>, wires0: seq<Wire>, wires: seq<Wire>, p: Ends)
    requires Fed(wires0, wires, Wire(Own, WriteEnd(|made0|)))
    ensures Laid(made0, made0 + [p], wires0, wires, [p])
  {
  }

  lemma {:induction false} LaidNext(made0: seq<Ends>, made: seq<Ends>, made1: seq<Ends>,
                                    wires0: seq<Wire>, wires: seq<Wire>, wires1: seq<Wire>, pipes: seq<Ends>, r: int, w: int)
    requires pipes != [] && Laid(made0, made, wires0, wires, pipes) && Piped(made, made1, wires, wires1, r, w)
    ensures Laid(made0, made1, wires0, wires1, pipes + [Ends(r, w)])
  {
    assert wires1[..|wires0|] == wires[..|wires0|];
    assert made1 == made0 + (pipes + [Ends(r, w)]);
  }

  lemma {:induction false} LaidLast(made0: seq<Ends>, made: seq<Ends>, wires0: seq<Wire>, wires: seq<Wire>, wires1: seq<Wire>,
                                    pipes: seq<Ends>)
    requires pipes != [] && Laid(made0, made, wires0, wires, pipes)
    requires Fed(wires, wires1, Wire(ReadEnd(|made| - 1), Own))
    ensures Connected(made0, made, wires0, wires1, pipes)
  {
    assert wires1[..|wires0|] == wires[..|wires0|];
  }

  lemma {:induction false} ConnectedAlone(made: seq<Ends>, wires0: seq<Wire>, wires: seq<Wire>)
    requires Fed(wires0, wires, Wire(Own, Own))
    ensures Connected(made, made, wires0, wires, [])
  {
    assert made + [] == made;
  }

  // The end of a pipe before stage m, and the end of a pipe after it.
  ghost function EndBefore(pipes: seq<Ends>, m: nat): int
    requires m <= |pipes|
  {
    if m == 0 then -1 else pipes[m - 1].r
  }

  ghost function EndAfter(pipes: seq<Ends>, m: nat): int
    requires m <= |pipes|
  {
    if m == |pipes| then -1 else pipes[m].w
  }

  // Stage m of the line runs as it should: its own words, the read end of the pipe
  // before it and the write end of the pipe after it, unless redirected; in the group
  // it was told, or in its own.
  ghost function Wired(stage: seq<Tok>, pid: int, pgid: int, input: int, output: int): Started {
    var group := if pgid == 0 then pid else pgid;
    Started(pid, group, Drop(stage), InputOf(stage, Fd(input)), OutputOf(stage, Fd(output)))
  }

  lemma {:induction false} WiredFirst(stage: seq<Tok>, pid: int, input: int, output: int)
    ensures Wired(stage, pid, 0, input, output) == Wired(stage, pid, pid, input, output)
  {
  }

  // Some stages but the last, the pipes being those after each of them.
  ghost predicate Midway(d: seq<seq<Tok>>, forks: seq<int>, run: seq<Started>, pipes: seq<Ends>) {
    && 1 <= |run| == |pipes| < |d| <= |forks|
    && forall m :: 0 <= m < |run| ==> run[m] == Wired(d[m], forks[m], forks[0], EndBefore(pipes, m), pipes[m].w)
  }

  lemma {:induction false} EndsKept(pipes: seq<Ends>, p: Ends, m: nat)
    requires m <= |pipes|
    ensures EndBefore(pipes + [p], m) == EndBefore(pipes, m)
  {
  }

  lemma {:induction false} MidwayNext(d: seq<seq<Tok>>, forks: seq<int>, run: seq<Started>, pipes: seq<Ends>,
                                      s: Started, p: Ends)
    requires Midway(d, forks, run, pipes) && |run| + 1 < |d|
    requires s == Wired(d[|run|], forks[|run|], forks[0], pipes[|run| - 1].r, p.w)
    ensures Midway(d, forks, run + [s], pipes + [p])
  {
    hide Wired;
    var run1, pipes1 := run + [s], pipes + [p];
    forall m | 0 <= m < |run1| ensures run1[m] == Wired(d[m], forks[m], forks[0], EndBefore(pipes1, m), pipes1[m].w) {
      EndsKept(pipes, p, m);
      if m < |run| {
        assert run1[m] == run[m] && pipes1[m] == pipes[m];
      } else {
        assert run1[m] == s && pipes1[m] == p;
      }
    }
  }

  ghost predicate AllRun(d: seq<seq<Tok>>, forks: seq<int>, run: seq<Started>, pipes: seq<Ends>) {
    && |run| == |d| == |pipes| + 1 && |d| <= |forks|
    && forall m :: 0 <= m < |d| ==> run[m] == Wired(d[m], forks[m], forks[0], EndBefore(pipes, m), EndAfter(pipes, m))
  }

  lemma {:induction false} MidwayLast(d: seq<seq<Tok>>, forks: seq<int>, run: seq<Started>, pipes: seq<Ends>,
                                      s: Started)
    requires Midway(d, forks, run, pipes) && |run| + 1 == |d|
    requires s == Wired(d[|run|], forks[|run|], forks[0], pipes[|run| - 1].r, -1)
    ensures AllRun(d, forks, run + [s], pipes)
  {
    hide Wired;
    var run1 := run + [s];
    forall m | 0 <= m < |d|
      ensures run1[m] == Wired(d[m], forks[m], forks[0], EndBefore(pipes, m), EndAfter(pipes, m))
    {
      if m < |run| {
        assert run1[m] == run[m] && EndAfter(pipes, m) == pipes[m].w;
      } else {
        assert run1[m] == s && EndAfter(pipes, m) == -1;
      }
    }
  }

  // What holds each time around the loop.
  ghost predicate Going(ts: seq<Tok>, d: seq<seq<Tok>>, forks0: seq<int>, forks: seq<int>, now: seq<Tok>,
                        size: nat, i: nat, run: seq<Started>, pipes: seq<Ends>, opening: Opening) {
    && Cursor(ts, now, size, i, d, |run|) && Midway(d, forks0, run, pipes)
    && forks == forks0[|run|..] && forall m :: 0 <= m < |run| ==> GoodStage(d[m], opening)
  }

  lemma {:induction false} GoingNext(ts: seq<Tok>, d: seq<seq<Tok>>, forks0: seq<int>, forks: seq<int>,
                                     before: seq<Tok>, now: seq<Tok>, size: nat, i: nat, run: seq<Started>, pipes: seq<Ends>,
                                     opening: Opening, s: Started, p: Ends)
    requires Going(ts, d, forks0, forks, before, size, i, run, pipes, opening) && |run| + 1 < |d|
    requires s == Wired(d[|run|], forks[0], forks0[0], pipes[|run| - 1].r, p.w) && GoodStage(d[|run|], opening)
    requires Cursor(ts, now, i, i + 1, d, |run| + 1)
    ensures Going(ts, d, forks0, forks[1..], now, i, i + 1, run + [s], pipes + [p], opening)
    ensures |run + [s]| == |pipes + [p]| && (pipes + [p])[|run + [s]| - 1] == p
  {
    hide GoodStage, Wired, Cursor;
    assert forks[0] == forks0[|run|];
    MidwayNext(d, forks0, run, pipes, s, p);
  }

  lemma {:induction false} WiredIs(stage: seq<Tok>, pid: int, pgid: int, input: int, output: int)
    ensures var s := Wired(stage, pid, pgid, input, output); s.pid == pid && s.argv == Drop(stage)
  {
  }

  lemma {:induction false} GoodWhen(stage: seq<Tok>, opening: Opening)
    ensures GoodStage(stage, opening) <==> WellFormed(stage, opening) && Drop(stage) != [] && AllWords(Drop(stage))
  {
  }

  // ---- what becomes of the job

  // Job id after the line: at large in the background, or waited for, or where
  // monitorjob has left it.
  ghost predicate Settled(w: R.World, j: nat, bg: bool, id: nat, waiting: bool) {
    if bg then w.pc.Idle? && |w.t| == |w.ids| && 0 < j < |w.t| && T.Live(w.t[j]) && w.ids[j] == id
    else if waiting then J.Held(w, id)
    else J.Returned(w, id)
  }

  // Job id has exactly the processes started, with the words each was given.
  ghost predicate JobIs(w: R.World, id: nat, run: seq<Started>) {
    id < |w.ledger| && w.ledger[id].pids == Pids(run) && w.ledger[id].stages == Argvs(run)
  }

  // The job is signalled through one group, that of its first process, and all its
  // processes are in it.
  ghost predicate Grouped(w: R.World, id: nat, run: seq<Started>) {
    run != [] && (forall m :: 0 <= m < |run| ==> run[m].group == run[0].pid)
    && forall i :: 0 <= i < |w.t| && i < |w.ids| && T.Live(w.t[i]) && w.ids[i] == id ==> w.t[i].pgid == run[0].pid
  }

  lemma {:induction false} GroupedWhen(w: R.World, id: nat, d: seq<seq<Tok>>, t: T.Table, forks: seq<int>,
                                       run: seq<Started>, pipes: seq<Ends>)
    requires R.Inv(w) && JobIs(w, id, run) && AllRun(d, forks, run, pipes) && Fresh(t, forks)
    ensures Grouped(w, id, run)
  {
    hide Divide, Drop, InputOf, OutputOf;
    forall i | 0 <= i < |w.t| && T.Live(w.t[i]) && w.ids[i] == id ensures w.t[i].pgid == run[0].pid {
      var e := w.ledger[id];
      assert L.JobOk(w.t[i], e) && L.ProcOk(w.t[i].procs[0], e.pids[0], e.ended[0]);
    }
  }

  lemma {:induction false} UnderIs(w: R.World, j: nat, bg: bool, id: nat, run: seq<Started>)
    requires Under(w, j, bg, id, Pids(run), Argvs(run))
    ensures JobIs(w, id, run)
  {
  }

  lemma {:induction false} LaunchedJob(w: R.World)
    requires R.Inv(w) && w.pc.Building? && w.t[w.pc.j].procs != []
    ensures R.Enabled(w, R.Launch) && |w.t| == |w.ids|
    ensures var v := R.Step(w, R.Launch);
      && v.t == w.t && v.ids == w.ids && v.ledger == w.ledger
      && (if w.pc.bg then v.pc.Idle? && 0 < w.pc.j < |w.t| && T.Live(w.t[w.pc.j])
          else w.pc.j == 0 && v.pc.Monitoring? && v.pc.loop == R.First && v.pc.at == R.Testing)
  {
  }

  // The job in the table is the pipeline: its processes in order, and the text of
  // their command lines.
  lemma {:induction false} EnteredJob(w: R.World, j: nat, bg: bool, id: nat, pids: seq<int>, stages: seq<seq<string>>)
    requires R.Inv(w) && Under(w, j, bg, id, pids, stages) && pids != []
    ensures j < |w.t| && T.Live(w.t[j]) && w.t[j].procs != []
    ensures w.t[j].command == Command.CommandText(stages)
    ensures |w.t[j].procs| == |pids| && forall k :: 0 <= k < |pids| ==> w.t[j].procs[k].pid == pids[k]
  {
    assert L.JobOk(w.t[j], w.ledger[id]);
    forall k | 0 <= k < |pids| ensures w.t[j].procs[k].pid == pids[k] {
      assert L.ProcOk(w.t[j].procs[k], w.ledger[id].pids[k], w.ledger[id].ended[k]);
    }
  }

  lemma {:induction false} OneLess(own: set<int>, x: int)
    requires x !in own
    ensures own + {x} - {x} == own
  {
  }

  lemma {:induction false} OnlyReader(own: set<int>, from: int, r: int, w: int)
    requires from !in own && r !in own + {from} && w !in own + {from} && r != w
    ensures own + {from} + {r, w} - {from} - {w} == own + {r}
    ensures from in own + {from} + {r, w} && w in own + {from} + {r, w} - {from}
  {
  }

  lemma {:induction false} FirstReader(own: set<int>, r: int, w: int)
    requires r !in own && w !in own && r != w
    ensures own + {r, w} - {w} == own + {r}
  {
  }

  lemma {:induction false} AtMostThree(own: set<int>, open: set<int>, a: int, b: int, c: int)
    requires open == own + {a, b, c} && a !in own && b !in own && c !in own
    ensures |open - own| <= 3
  {
    assert open - own == {a, b, c};
  }

  class Front {
    const jobs: J.Shell
    const fds: PipeTable
    var forks: seq<int>         // what Fork will return
    ghost var wires: seq<Wire>  // what each process started was given

    constructor (jobs: J.Shell, fds: PipeTable, forks: seq<int>)
      ensures this.jobs == jobs && this.fds == fds && this.forks == forks && wires == []
    {
      this.jobs, this.fds, this.forks, wires := jobs, fds, forks, [];
    }

    // do_redir, and what is left of the tokens
    method TakeTokens(token: array<Tok>, at: nat, n: nat, input: int, output: int, opening: Opening)
      returns (ok: bool, argv: seq<Tok>, from: End, to: End)
      requires at + n < token.Length
      modifies token
      ensures var stage := old(token[at..at + n]);
        && (ok <==> WellFormed(stage, opening) && Drop(stage) != [])
        && (ok ==>
          && argv == Drop(stage) && from == InputOf(stage, Fd(input)) && to == OutputOf(stage, Fd(output))
          && InPlace(token, at, argv))
      ensures Outside(old(token[..]), token[..], at, at + n + 1)
    {
      hide WellFormed, Drop, InputOf, OutputOf;
      ghost var stage := token[at..at + n];
      ProblemWhen(stage, opening);
      var r := DoRedir(token, at, n, Fd(input), Fd(output), opening);
      if r.Failed? || r.n == 0 {
        return false, [], Fd(-1), Fd(-1);
      }
      KeptInFront(token[at..at + n], Drop(stage), n);
      assert token[at..at + r.n] == token[at..at + n][..r.n];
      return true, token[at..at + r.n], r.input, r.output;
    }

    // Fork and Setpgid: the process has these descriptors, or the files that replace
    // them, and joins this group, or begins its own.
    method Fork(pgid: int, argv: seq<Tok>, input: int, output: int, from: End, to: End) returns (s: Started)
      requires forks != []
      requires (input == -1 || input in fds.open) && (output == -1 || output in fds.open)
      modifies this`forks, this`wires
      ensures s == Started(old(forks)[0], if pgid == 0 then old(forks)[0] else pgid, argv, from, to)
      ensures forks == old(forks)[1..]
      ensures Fed(old(wires), wires, Wire(fds.PlugOf(input), fds.PlugOf(output)))
    {
      var pid := forks[0];
      s := Started(pid, if pgid == 0 then pid else pgid, argv, from, to);
      forks := forks[1..];
      wires := wires + [Wire(fds.PlugOf(input), fds.PlugOf(output))];
    }

    // do_stage: the parent's side
    method DoStage(pgid: int, token: array<Tok>, at: nat, n: nat, input: int, output: int, opening: Opening)
      returns (ok: bool, s: Started)
      requires at + n < token.Length && forks != []
      requires (input == -1 || input in fds.open) && (output == -1 || output in fds.open)
      modifies this`forks, this`wires, token
      ensures var stage := old(token[at..at + n]);
        && (ok <==> WellFormed(stage, opening) && Drop(stage) != [])
        && (ok ==>
          && s == Wired(stage, old(forks)[0], pgid, input, output)
          && forks == old(forks)[1..]
          && Fed(old(wires), wires, Wire(fds.PlugOf(input), fds.PlugOf(output)))
          && InPlace(token, at, s.argv))
      ensures Outside(old(token[..]), token[..], at, at + n + 1)
    {
      hide WellFormed, Drop, InputOf, OutputOf;
      var argv, from, to;
      ok, argv, from, to := TakeTokens(token, at, n, input, output, opening);
      s := Started(0, 0, [], Fd(-1), Fd(-1));
      if ok {
        s := Fork(pgid, argv, input, output, from, to);
      }
    }

    // addproc on the tokens that do_stage has left in place
    method AddStage(token: array<Tok>, at: nat, ghost kept: seq<Tok>, j: nat, bg: bool, pid: int, ghost id: nat,
                    ghost pids: seq<int>, ghost stages: seq<seq<string>>)
      returns (ok: bool)
      requires jobs.Valid() && Under(jobs.world, j, bg, id, pids, stages)
      requires Fresh(jobs.jobs, [pid] + forks)
      requires InPlace(token, at, kept) && kept != [] && Null !in kept
      requires pids == [] ==> j < |jobs.jobs| && jobs.jobs[j].pgid == pid
      modifies jobs
      ensures ok <==> AllWords(kept)
      ensures ok ==> jobs.Valid() && Under(jobs.world, j, bg, id, pids + [pid], stages + [RoundTrip.Texts(kept)])
      ensures ok ==> Fresh(jobs.jobs, forks)
    {
      var argv;
      ok, argv := ReadArgv(token, at, kept);
      if ok {
        assert ([pid] + forks)[0] == pid && ([pid] + forks)[1..] == forks;
        FreshAfter(jobs.jobs, j, [pid] + forks, argv);
        Joined(jobs.world, j, bg, id, pids, stages);
        ProcessAdded(jobs.world, j, bg, id, pids, stages, pid, argv);
        jobs.AddProc(j, pid, argv);
      }
    }

    // addjob, and addproc for its first process
    method BeginJob(token: array<Tok>, at: nat, ghost kept: seq<Tok>, bg: bool, pid: int) returns (ok: bool, j: nat)
      requires jobs.Valid() && jobs.world.pc.Idle? && Fresh(jobs.jobs, [pid] + forks)
      requires InPlace(token, at, kept) && kept != [] && Null !in kept
      modifies jobs
      ensures ok <==> AllWords(kept)
      ensures ok ==> jobs.Valid() && Fresh(jobs.jobs, forks)
      ensures ok ==> Under(jobs.world, j, bg, |old(jobs.world).ledger|, [pid], [RoundTrip.Texts(kept)])
    {
      ghost var id := |jobs.world.ledger|;
      assert ([pid] + forks)[0] == pid;
      FreshAdded(jobs.jobs, pid, bg, [pid] + forks);
      JobBegun(jobs.world, pid, bg);
      j := jobs.AddJob(pid, bg);
      ok := AddStage(token, at, kept, j, bg, pid, id, [], []);
      assert [] + [pid] == [pid];
    }

    // The four descriptor variables between stages: one holds the read end of the
    // last pipe, and the others hold nothing.
    ghost predicate Between(input: int, output: int, nextInput: int, nextOutput: int, held: int)
      reads fds
    {
      && fds.Valid() && held > 0 && held !in fds.own && fds.open == fds.own + {held}
      && held in fds.holds && fds.holds[held] == ReadEnd(|fds.made| - 1)
      && output == -1 && nextOutput == -1
      && ((nextInput == held && input == -1) || (nextInput == -1 && input == held))
    }

    // mkpipe, do_stage and two times MaybeClose: a stage that reads the pipe left by
    // the one before and writes a new one, whose read end is left.
    method PipedStage(pgid: int, token: array<Tok>, at: nat, n: nat, from: int, opening: Opening)
      returns (ok: bool, s: Started, r: int, from1: int, w1: int, ghost w: int)
      requires at + n < token.Length && forks != []
      requires fds.Valid() && from > 0 && from !in fds.own && fds.open == fds.own + {from}
      requires from in fds.holds && fds.holds[from] == ReadEnd(|fds.made| - 1)
      modifies this`forks, this`wires, fds, token
      ensures var stage := old(token[at..at + n]);
        && (ok <==> WellFormed(stage, opening) && Drop(stage) != [])
        && (ok ==>
          && s == Wired(stage, old(forks)[0], pgid, from, w)
          && forks == old(forks)[1..]
          && InPlace(token, at, s.argv))
      ensures Outside(old(token[..]), token[..], at, at + n + 1)
      ensures ok ==> from1 == w1 == -1 && fds.Valid() && r > 0 && r !in fds.own && fds.open == fds.own + {r}
      ensures ok ==> r in fds.holds && fds.holds[r] == ReadEnd(|fds.made| - 1)
      ensures ok ==> Piped(old(fds.made), fds.made, old(wires), wires, r, w)
      ensures fds.most <= 3 || fds.most == old(fds.most)
    {
      hide WellFormed, Drop, Wired, PipeTable.Valid, PipeTable.PlugOf, Outside, InPlace, Fed;
      from1 := from;
      r, w1 := fds.MkPipe();
      w := w1;
      AtMostThree(fds.own, fds.open, from, r, w);
      OnlyReader(fds.own, from, r, w);
      Holding(from1);
      Holding(w1);
      ok, s := DoStage(pgid, token, at, n, from1, w1, opening);
      if !ok { return; }
      from1 := fds.MaybeClose(from1);
      w1 := fds.MaybeClose(w1);
    }

    // shell.c:214-224: the pipe left is in next_input or in input, and the new one
    // goes to the other.
    method MiddleStage(pgid: int, token: array<Tok>, at: nat, n: nat, input0: int, output0: int, nextInput0: int,
                       nextOutput0: int, opening: Opening, ghost held: int)
      returns (ok: bool, s: Started, input: int, output: int, nextInput: int, nextOutput: int, ghost r: int, ghost w: int)
      requires at + n < token.Length && forks != []
      requires Between(input0, output0, nextInput0, nextOutput0, held)
      modifies this`forks, this`wires, fds, token
      ensures var stage := old(token[at..at + n]);
        && (ok <==> WellFormed(stage, opening) && Drop(stage) != [])
        && (ok ==>
          && s == Wired(stage, old(forks)[0], pgid, held, w)
          && forks == old(forks)[1..]
          && InPlace(token, at, s.argv))
      ensures Outside(old(token[..]), token[..], at, at + n + 1)
      ensures ok ==> Between(input, output, nextInput, nextOutput, r)
      ensures ok ==> Piped(old(fds.made), fds.made, old(wires), wires, r, w)
      ensures fds.most <= 3 || fds.most == old(fds.most)
    {
      hide PipeTable.Valid;
      input, output, nextInput, nextOutput := input0, output0, nextInput0, nextOutput0;
      if nextInput > 0 {
        ok, s, input, nextInput, nextOutput, w := PipedStage(pgid, token, at, n, nextInput, opening);
        r := input;
      } else {
        ok, s, nextInput, input, output, w := PipedStage(pgid, token, at, n, input, opening);
        r := nextInput;
      }
    }

    // shell.c:231-237: the last stage reads the pipe that was left.
    method LastStage(pgid: int, token: array<Tok>, at: nat, n: nat, input: int, output: int, nextInput: int,
                     nextOutput: int, opening: Opening, ghost held: int)
      returns (ok: bool, s: Started)
      requires at + n < token.Length && forks != []
      requires Between(input, output, nextInput, nextOutput, held)
      modifies this`forks, this`wires, fds, token
      ensures var stage := old(token[at..at + n]);
        && (ok <==> WellFormed(stage, opening) && Drop(stage) != [])
        && (ok ==>
          && s == Wired(stage, old(forks)[0], pgid, held, -1)
          && forks == old(forks)[1..]
          && InPlace(token, at, s.argv))
      ensures ok ==> fds.Valid() && fds.open == fds.own
      ensures ok ==> fds.made == old(fds.made) && Fed(old(wires), wires, Wire(ReadEnd(|fds.made| - 1), Own))
      ensures fds.most == old(fds.most)
    {
      hide PipeTable.Valid, WellFormed, Drop, Wired, PipeTable.PlugOf;
      fds.NoPlug();
      OneLess(fds.own, held);
      Holding(held);
      if nextInput > 0 {
        ok, s := DoStage(pgid, token, at, n, nextInput, nextOutput, opening);
        if ok { fds.Close(nextInput); }
      } else {
        ok, s := DoStage(pgid, token, at, n, input, output, opening);
        if ok { fds.Close(input); }
      }
    }

    lemma Holding(held: int)
      requires held in fds.holds
      ensures fds.PlugOf(held) == fds.holds[held]
    {
    }

    // The job has the processes started so far.
    ghost predicate Entered(j: nat, bg: bool, id: nat, run: seq<Started>)
      reads this, jobs
    {
      jobs.Valid() && Fresh(jobs.jobs, forks) && Under(jobs.world, j, bg, id, Pids(run), Argvs(run))
    }

    // addproc for a process just started
    method EnterStage(token: array<Tok>, at: nat, s: Started, j: nat, bg: bool, ghost id: nat, ghost run: seq<Started>)
      returns (ok: bool)
      requires jobs.Valid() && Fresh(jobs.jobs, [s.pid] + forks) && Under(jobs.world, j, bg, id, Pids(run), Argvs(run))
      requires run != []
      requires InPlace(token, at, s.argv) && s.argv != [] && Null !in s.argv
      modifies jobs
      ensures ok <==> AllWords(s.argv)
      ensures ok ==> Entered(j, bg, id, run + [s])
    {
      hide R.Inv, S.Run, Fresh;
      ok := AddStage(token, at, s.argv, j, bg, s.pid, id, Pids(run), Argvs(run));
      if ok {
        assert Pids(run + [s]) == Pids(run) + [s.pid];
        assert Argvs(run + [s]) == Argvs(run) + [RoundTrip.Texts(s.argv)];
      }
    }

    // shell.c:211-224, where token[i] is a pipe and stage m ends
    method StartMiddle(pgid: int, token: array<Tok>, ntokens: nat, size: nat, i: nat,
                       input0: int, output0: int, nextInput0: int, nextOutput0: int, opening: Opening,
                       ghost ts: seq<Tok>, ghost d: seq<seq<Tok>>, ghost m: nat, ghost held: int)
      returns (ok: bool, s: Started, input: int, output: int, nextInput: int, nextOutput: int, ghost r: int, ghost w: int)
      requires ntokens < token.Length && Cursor(ts, token[..ntokens], size, i, d, m)
      requires i < ntokens && token[i] == Pipe
      requires forks != [] && Between(input0, output0, nextInput0, nextOutput0, held)
      modifies this`forks, this`wires, fds, token
      ensures m + 1 < |d| && (ok <==> WellFormed(d[m], opening) && Drop(d[m]) != [])
      ensures ok ==>
        && Cursor(ts, token[..ntokens], i, i + 1, d, m + 1)
        && s == Wired(d[m], old(forks)[0], pgid, held, w)
        && forks == old(forks)[1..]
        && InPlace(token, size + 1, s.argv)
        && Between(input, output, nextInput, nextOutput, r)
        && Piped(old(fds.made), fds.made, old(wires), wires, r, w)
      ensures fds.most <= 3 || fds.most == old(fds.most)
    {
      hide WellFormed, Drop, Wired, Divide, PipeTable.Valid;
      ghost var now, before := token[..ntokens], token[..];
      assert before[i := Null][..ntokens][i + 1..] == now[i + 1..];
      CursorStage(ts, now, size, i, d, m);
      token[i] := Null;
      var at := size + 1;
      assert token[at..at + (i - at)] == now[size + 1..i] == d[m];
      if i - at <= 0 {
        return false, Started(0, 0, [], Fd(-1), Fd(-1)), -1, -1, -1, -1, 0, 0;
      }
      ok, s, input, output, nextInput, nextOutput, r, w :=
        MiddleStage(pgid, token, at, i - at, input0, output0, nextInput0, nextOutput0, opening, held);
      TailKept(before[i := Null], token[..], ntokens, at, i);
      CursorNext(ts, now, token[..ntokens], size, i, d, m);
    }

    // shell.c:211-226
    method TakeStage(pgid: int, token: array<Tok>, ntokens: nat, size: nat, i: nat,
                     input0: int, output0: int, nextInput0: int, nextOutput0: int,
                     j: nat, bg: bool, opening: Opening,
                     ghost ts: seq<Tok>, ghost d: seq<seq<Tok>>, ghost run: seq<Started>, ghost id: nat, ghost held: int)
      returns (ok: bool, s: Started, input: int, output: int, nextInput: int, nextOutput: int, ghost r: int, ghost w: int)
      requires ntokens < token.Length && Cursor(ts, token[..ntokens], size, i, d, |run|)
      requires Null !in ts && i < ntokens && token[i] == Pipe
      requires forks != [] && run != [] && Entered(j, bg, id, run)
      requires Between(input0, output0, nextInput0, nextOutput0, held)
      modifies this`forks, this`wires, fds, jobs, token
      ensures |run| + 1 < |d| && (ok <==> GoodStage(d[|run|], opening))
      ensures ok ==>
        && Cursor(ts, token[..ntokens], i, i + 1, d, |run| + 1)
        && forks == old(forks)[1..] && Entered(j, bg, id, run + [s])
        && s == Wired(d[|run|], old(forks)[0], pgid, held, w)
        && Between(input, output, nextInput, nextOutput, r)
        && Piped(old(fds.made), fds.made, old(wires), wires, r, w)
      ensures fds.most <= 3 || fds.most == old(fds.most)
    {
      hide R.Inv, S.Run, Under, Fresh, Divide, PipeTable.Valid;
      CursorStage(ts, token[..ntokens], size, i, d, |run|);
      FreshNext(jobs.jobs, forks);
      StageNoNull(ts, d[|run|], size + 1, i);
      ok, s, input, output, nextInput, nextOutput, r, w :=
        StartMiddle(pgid, token, ntokens, size, i, input0, output0, nextInput0, nextOutput0, opening, ts, d, |run|,
                    held);
      if ok {
        ok := EnterStage(token, size + 1, s, j, bg, id, run);
      }
    }

    // shell.c:196-202
    method CutFirst(token: array<Tok>, ntokens: nat) returns (size: nat)
      requires ntokens < token.Length && Pipe in token[..ntokens]
      modifies token
      ensures size < ntokens && old(token[size]) == Pipe && Pipe !in old(token[..size])
      ensures token[..] == old(token[..])[size := Null]
    {
      size := 0;
      while token[size] != Pipe
        invariant size < ntokens && Pipe !in token[..size] && Pipe in token[size..ntokens]
        decreases ntokens - size
      {
        assert token[size..ntokens] == [token[size]] + token[size + 1..ntokens];
        size := size + 1;
      }
      token[size] := Null;
    }

    // shell.c:186-207: the first pipe, the first stage, the job
    method FirstStage(token: array<Tok>, ntokens: nat, bg: bool, opening: Opening, ghost ts: seq<Tok>,
                      ghost d: seq<seq<Tok>>)
      returns (ok: bool, s: Started, size: nat, output: int, nextInput: int, ghost w: int)
      requires ntokens < token.Length && ts == token[..ntokens] && Pipe in ts && d == Divide(ts)
      requires forks != [] && fds.Valid() && fds.open == fds.own
      modifies this`forks, this`wires, fds, token
      ensures |d| > 1 && (ok <==> WellFormed(d[0], opening) && Drop(d[0]) != [])
      ensures ok ==>
        && Cursor(ts, token[..ntokens], size, size + 1, d, 1)
        && s == Wired(d[0], old(forks)[0], 0, -1, w) && s.pid == old(forks)[0] && s.argv == Drop(d[0])
        && forks == old(forks)[1..]
        && InPlace(token, 0, s.argv) && d[0] == ts[0..size]
        && Between(-1, output, nextInput, -1, nextInput)
        && Laid(old(fds.made), fds.made, old(wires), wires, [Ends(nextInput, w)])
      ensures fds.most <= 3 || fds.most == old(fds.most)
    {
      hide WellFormed, Drop, Divide, Wired, InPlace, PipeTable.Valid, Cursor, Laid;
      ghost var before := token[..];
      nextInput, output := fds.MkPipe();
      w := output;
      AtMostThree(fds.own, fds.open, nextInput, w, w);
      size := CutFirst(token, ntokens);
      assert before[..size] == ts[..size];
      DivideAt(ts, size);
      assert token[0..0 + size] == ts[0..size] == ts[..size];
      ok, s, output := StartFirst(token, size, output, nextInput, opening, old(fds.made));
      if ok {
        WiredIs(d[0], old(forks)[0], 0, -1, w);
        CursorFirst(ts, before[size := Null], token[..], size, d);
      }
    }

    // shell.c:204-205
    method StartFirst(token: array<Tok>, size: nat, output0: int, nextInput: int, opening: Opening, ghost made0: seq<Ends>)
      returns (ok: bool, s: Started, output: int)
      requires size < token.Length && forks != []
      requires fds.Valid() && nextInput > 0 && output0 > 0 && nextInput != output0
      requires nextInput !in fds.own && output0 !in fds.own && fds.open == fds.own + {nextInput, output0}
      requires nextInput in fds.holds && fds.holds[nextInput] == ReadEnd(|made0|)
      requires output0 in fds.holds && fds.holds[output0] == WriteEnd(|made0|)
      requires fds.made == made0 + [Ends(nextInput, output0)]
      modifies this`forks, this`wires, fds, token
      ensures var stage := old(token[0..size]);
        && (ok <==> WellFormed(stage, opening) && Drop(stage) != [])
        && (ok ==>
          && s == Wired(stage, old(forks)[0], 0, -1, output0)
          && forks == old(forks)[1..]
          && InPlace(token, 0, s.argv))
      ensures Outside(old(token[..]), token[..], 0, size + 1)
      ensures ok ==> Between(-1, output, nextInput, -1, nextInput)
      ensures ok ==> Laid(made0, fds.made, old(wires), wires, [Ends(nextInput, output0)])
      ensures fds.most == old(fds.most)
    {
      hide WellFormed, Drop, Wired, InPlace, PipeTable.Valid, Laid, Outside, PipeTable.PlugOf;
      FirstReader(fds.own, nextInput, output0);
      fds.NoPlug();
      Holding(output0);
      ok, s := DoStage(0, token, 0, size, -1, output0, opening);
      output := output0;
      if ok {
        LaidFirst(made0, old(wires), wires, Ends(nextInput, output0));
        output := fds.MaybeClose(output);
      }
    }

    method BeginStage(token: array<Tok>, s: Started, bg: bool, ghost ts: seq<Tok>, ghost d: seq<seq<Tok>>,
                      ghost size: nat,
                      ghost forks0: seq<int>)
      returns (ok: bool, j: nat)
      requires jobs.Valid() && jobs.world.pc.Idle? && Fresh(jobs.jobs, forks0)
      requires forks0 != [] && forks == forks0[1..] && s.pid == forks0[0]
      requires size <= |ts| && Null !in ts && d != [] && d[0] == ts[0..size]
      requires InPlace(token, 0, s.argv) && s.argv == Drop(d[0]) && s.argv != []
      modifies jobs
      ensures ok <==> AllWords(s.argv)
      ensures ok ==> Entered(j, bg, |old(jobs.world).ledger|, [s])
    {
      hide R.Inv, S.Run;
      StageNoNull(ts, d[0], 0, size);
      FreshNext(jobs.jobs, forks0);
      ok, j := BeginJob(token, 0, s.argv, bg, s.pid);
      assert Pids([s]) == [s.pid];
      assert ok ==> Argvs([s]) == [RoundTrip.Texts(s.argv)];
    }

    // shell.c:230-239
    method FinalStage(pgid: int, token: array<Tok>, ntokens: nat, size: nat, input: int, output: int, nextInput: int,
                      nextOutput: int,
                      j: nat, bg: bool, opening: Opening,
                      ghost ts: seq<Tok>, ghost d: seq<seq<Tok>>, ghost run: seq<Started>, ghost id: nat, ghost held: int)
      returns (ok: bool, s: Started)
      requires ntokens < token.Length && size < ntokens && Cursor(ts, token[..ntokens], size, ntokens, d, |run|)
      requires Null !in ts && forks != [] && run != []
      requires Entered(j, bg, id, run) && Between(input, output, nextInput, nextOutput, held)
      modifies this`forks, this`wires, fds, jobs, token
      ensures |d| == |run| + 1 && (ok <==> GoodStage(d[|run|], opening))
      ensures ok ==>
        && s == Wired(d[|run|], old(forks)[0], pgid, held, -1)
        && Entered(j, bg, id, run + [s]) && fds.Valid() && fds.open == fds.own
        && fds.made == old(fds.made) && Fed(old(wires), wires, Wire(ReadEnd(|fds.made| - 1), Own))
      ensures fds.most == old(fds.most)
    {
      hide R.Inv, S.Run, Divide, Drop, GoodStage, WellFormed, Wired, Under, Fresh, Fed, PipeTable.Valid;
      CursorLast(ts, token[..ntokens], size, d, |run|);
      GoodWhen(d[|run|], opening);
      WiredIs(d[|run|], forks[0], pgid, held, -1);
      var at := size + 1;
      assert token[at..at + (ntokens - at)] == token[..ntokens][at..] == d[|run|];
      assert ts[at..ntokens] == ts[at..];
      StageNoNull(ts, d[|run|], at, ntokens);
      FreshNext(jobs.jobs, forks);
      if ntokens - at <= 0 {
        return false, Started(0, 0, [], Fd(-1), Fd(-1));
      }
      ok, s := LastStage(pgid, token, at, ntokens - at, input, output, nextInput, nextOutput, opening, held);
      if ok {
        ok := EnterStage(token, at, s, j, bg, id, run);
      }
    }

    // shell.c:186-207
    method FirstProcess(token: array<Tok>, ntokens: nat, bg: bool, opening: Opening, ghost ts: seq<Tok>,
                        ghost d: seq<seq<Tok>>, ghost forks0: seq<int>)
      returns (ok: bool, j: nat, s: Started, size: nat, output: int, nextInput: int, ghost w: int)
      requires ntokens < token.Length && ts == token[..ntokens] && Null !in ts && Pipe in ts && d == Divide(ts)
      requires forks == forks0 && |d| <= |forks0|
      requires jobs.Valid() && jobs.world.pc.Idle? && Fresh(jobs.jobs, forks)
      requires fds.Valid() && fds.open == fds.own
      modifies this`forks, this`wires, fds, jobs, token
      ensures ok <==> GoodStage(d[0], opening)
      ensures ok ==>
        && size < ntokens && s.pid == forks0[0]
        && Going(ts, d, forks0, forks, token[..ntokens], size, size + 1, [s], [Ends(nextInput, w)], opening)
        && Entered(j, bg, |old(jobs.world).ledger|, [s])
        && Between(-1, output, nextInput, -1, nextInput)
        && Laid(old(fds.made), fds.made, old(wires), wires, [Ends(nextInput, w)])
      ensures fds.most <= 3 || fds.most == old(fds.most)
    {
      hide Wired, Drop, GoodStage, Divide, Fresh, Under, R.Inv, S.Run, PipeTable.Valid;
      j := 0;
      ok, s, size, output, nextInput, w := FirstStage(token, ntokens, bg, opening, ts, d);
      GoodWhen(d[0], opening);
      if ok {
        ok, j := BeginStage(token, s, bg, ts, d, size, forks0);
        WiredFirst(d[0], forks0[0], -1, w);
      }
    }

    // shell.c:211-227
    method Turn(pgid: int, token: array<Tok>, ntokens: nat, size0: nat, i: nat,
                input0: int, output0: int, nextInput0: int, nextOutput0: int, j: nat, bg: bool, opening: Opening,
                ghost ts: seq<Tok>, ghost d: seq<seq<Tok>>, ghost forks0: seq<int>,
                run0: seq<Started>, ghost pipes0: seq<Ends>, ghost id: nat,
                ghost made0: seq<Ends>, ghost wires0: seq<Wire>)
      returns (ok: bool, size: nat, input: int, output: int, nextInput: int, nextOutput: int,
               run: seq<Started>, ghost pipes: seq<Ends>, ghost r: int)
      requires i < ntokens < token.Length && Null !in ts
      requires Going(ts, d, forks0, forks, token[..ntokens], size0, i, run0, pipes0, opening) && pgid == forks0[0]
      requires Entered(j, bg, id, run0)
      requires Between(input0, output0, nextInput0, nextOutput0, pipes0[|run0| - 1].r)
      requires Laid(made0, fds.made, wires0, wires, pipes0)
      modifies this`forks, this`wires, fds, jobs, token
      ensures !ok ==> |run0| < |d| && !GoodStage(d[|run0|], opening)
      ensures ok ==>
        && Going(ts, d, forks0, forks, token[..ntokens], size, i + 1, run, pipes, opening)
        && Entered(j, bg, id, run)
        && Between(input, output, nextInput, nextOutput, r) && r == pipes[|run| - 1].r
        && Laid(made0, fds.made, wires0, wires, pipes)
      ensures fds.most <= 3 || fds.most == old(fds.most)
    {
      hide Wired, Drop, GoodStage, Divide, Fresh, Under, R.Inv, S.Run, PipeTable.Valid, Laid, Fed, Between, Entered;
      ok, size, input, output, nextInput, nextOutput := true, size0, input0, output0, nextInput0, nextOutput0;
      run, pipes, r := run0, pipes0, pipes0[|run0| - 1].r;
      CursorOn(ts, token[..ntokens], size, i, d, |run|);
      if token[i] == Pipe {
        ghost var left, before := forks, token[..ntokens];
        ghost var made, wires1 := fds.made, wires;
        ghost var w;
        var s;
        ok, s, input, output, nextInput, nextOutput, r, w :=
          TakeStage(pgid, token, ntokens, size, i, input, output, nextInput, nextOutput, j, bg, opening, ts, d, run, id,
                    r);
        if ok {
          GoingNext(ts, d, forks0, left, before, token[..ntokens], size, i, run, pipes, opening, s, Ends(r, w));
          LaidNext(made0, made, fds.made, wires0, wires1, wires, pipes, r, w);
          run, pipes := run + [s], pipes + [Ends(r, w)];
          size := i;
        }
      }
    }

    // shell.c:209-228
    method MiddleProcesses(pgid: int, token: array<Tok>, ntokens: nat, size0: nat, output0: int, nextInput0: int,
                           j: nat, bg: bool, opening: Opening,
                           ghost ts: seq<Tok>, ghost d: seq<seq<Tok>>, ghost forks0: seq<int>,
                           first: Started, ghost w0: int, ghost id: nat,
                           ghost made0: seq<Ends>, ghost wires0: seq<Wire>)
      returns (ok: bool, size: nat, input: int, output: int, nextInput: int, nextOutput: int,
               run: seq<Started>, ghost pipes: seq<Ends>, ghost r: int)
      requires size0 < ntokens < token.Length && Null !in ts
      requires Going(ts, d, forks0, forks, token[..ntokens], size0, size0 + 1, [first], [Ends(nextInput0, w0)], opening)
      requires Entered(j, bg, id, [first]) && pgid == forks0[0]
      requires Between(-1, output0, nextInput0, -1, nextInput0)
      requires Laid(made0, fds.made, wires0, wires, [Ends(nextInput0, w0)])
      modifies this`forks, this`wires, fds, jobs, token
      ensures !ok ==> exists m :: 0 <= m < |d| && !GoodStage(d[m], opening)
      ensures ok ==>
        && size < ntokens && Going(ts, d, forks0, forks, token[..ntokens], size, ntokens, run, pipes, opening)
        && Entered(j, bg, id, run)
        && Between(input, output, nextInput, nextOutput, r) && r == pipes[|run| - 1].r
        && Laid(made0, fds.made, wires0, wires, pipes)
      ensures fds.most <= 3 || fds.most == old(fds.most)
    {
      hide Wired, Drop, GoodStage, Divide, Fresh, Under, R.Inv, S.Run, PipeTable.Valid;
      ok, size, input, output, nextInput, nextOutput := true, size0, -1, output0, nextInput0, -1;
      run, pipes, r := [first], [Ends(nextInput0, w0)], nextInput0;
      var i := size + 1;
      while i < ntokens
        invariant ok && size < i <= ntokens && size < ntokens
        invariant Going(ts, d, forks0, forks, token[..ntokens], size, i, run, pipes, opening)
        invariant Entered(j, bg, id, run)
        invariant Between(input, output, nextInput, nextOutput, r) && r == pipes[|run| - 1].r
        invariant Laid(made0, fds.made, wires0, wires, pipes)
        invariant fds.most <= 3 || fds.most == old(fds.most)
      {
        ok, size, input, output, nextInput, nextOutput, run, pipes, r :=
          Turn(pgid, token, ntokens, size, i, input, output, nextInput, nextOutput, j, bg, opening, ts, d, forks0, run,
               pipes, id, made0, wires0);
        if !ok { return; }
        i := i + 1;
      }
    }

    // shell.c:230-239, and what has come of the whole line by then
    method LastProcess(pgid: int, token: array<Tok>, ntokens: nat, size: nat, input: int, output: int, nextInput: int,
                       nextOutput: int, j: nat, bg: bool, opening: Opening,
                       ghost ts: seq<Tok>, ghost d: seq<seq<Tok>>, ghost forks0: seq<int>, ghost table: T.Table,
                       run0: seq<Started>, ghost pipes: seq<Ends>, ghost id: nat, ghost held: int,
                       ghost made0: seq<Ends>, ghost wires0: seq<Wire>)
      returns (ok: bool, run: seq<Started>)
      requires size < ntokens < token.Length && Null !in ts && Fresh(table, forks0)
      requires Going(ts, d, forks0, forks, token[..ntokens], size, ntokens, run0, pipes, opening) && pgid == forks0[0]
      requires Entered(j, bg, id, run0)
      requires Between(input, output, nextInput, nextOutput, held) && held == pipes[|run0| - 1].r
      requires Laid(made0, fds.made, wires0, wires, pipes)
      modifies this`forks, this`wires, fds, jobs, token
      ensures ok <==> forall m :: 0 <= m < |d| ==> GoodStage(d[m], opening)
      ensures ok ==>
        && AllRun(d, forks0, run, pipes) && Connected(made0, fds.made, wires0, wires, pipes)
        && fds.Valid() && fds.open == fds.own
        && Entered(j, bg, id, run) && Grouped(jobs.world, id, run)
      ensures fds.most == old(fds.most)
    {
      hide Wired, Drop, GoodStage, Divide, Fresh, Under, R.Inv, S.Run, PipeTable.Valid, Connected, JobIs, Grouped, Laid, Fed;
      ghost var made, wires1 := fds.made, wires;
      var s;
      ok, s := FinalStage(pgid, token, ntokens, size, input, output, nextInput, nextOutput, j, bg, opening, ts, d, run0, id,
                          held);
      run := run0;
      if ok {
        run := run0 + [s];
        MidwayLast(d, forks0, run0, pipes, s);
        LaidLast(made0, made, wires0, wires1, wires, pipes);
        UnderIs(jobs.world, j, bg, id, run);
        GroupedWhen(jobs.world, id, d, table, forks0, run, pipes);
      }
    }

    // Each stage of the line is started once, in order, with its own words and its
    // own ends of the pipes; the shell keeps no end of any pipe; and the job has
    // the processes of all stages.
    method StartPipeline(token: array<Tok>, ntokens: nat, bg: bool, opening: Opening)
      returns (ok: bool, j: nat, run: seq<Started>, ghost pipes: seq<Ends>)
      requires ntokens < token.Length && Null !in token[..ntokens] && Pipe in token[..ntokens]
      requires |Divide(token[..ntokens])| <= |forks|
      requires jobs.Valid() && jobs.world.pc.Idle? && Fresh(jobs.jobs, forks)
      requires fds.Valid() && fds.open == fds.own
      modifies this`forks, this`wires, fds, jobs, token
      ensures var ts := old(token[..ntokens]);
        && (ok <==> GoodLine(ts, opening))
        && (ok ==>
          && AllRun(Divide(ts), old(forks), run, pipes)
          && Connected(old(fds.made), fds.made, old(wires), wires, pipes)
          && fds.Valid() && fds.open == fds.own
          && Entered(j, bg, |old(jobs.world).ledger|, run)
          && Grouped(jobs.world, |old(jobs.world).ledger|, run))
      ensures fds.most <= 3 || fds.most == old(fds.most)
    {
      hide Wired, Drop, GoodStage, Divide, Fresh, Under, R.Inv, S.Run, PipeTable.Valid, Laid, Connected, JobIs, Grouped;
      ghost var ts := token[..ntokens];
      ghost var d := Divide(ts);
      ghost var forks0, table := forks, jobs.jobs;
      ghost var id := |jobs.world.ledger|;
      ghost var r, w;
      run, pipes := [], [];
      var s, output, nextInput;
      var size: nat;
      ok, j, s, size, output, nextInput, w := FirstProcess(token, ntokens, bg, opening, ts, d, forks0);
      if !ok { return; }
      var pgid := s.pid;
      var input, nextOutput;
      ok, size, input, output, nextInput, nextOutput, run, pipes, r :=
        MiddleProcesses(pgid, token, ntokens, size, output, nextInput, j, bg, opening, ts, d, forks0, s, w, id,
                        old(fds.made), old(wires));
      if !ok { return; }
      ok, run := LastProcess(pgid, token, ntokens, size, input, output, nextInput, nextOutput, j, bg, opening,
                             ts, d, forks0, table, run, pipes, id, r, old(fds.made), old(wires));
    }

    // From the last addproc to the return: the prompt again, or monitorjob.
    method Finish(bg: bool, j: nat, ghost id: nat, ghost run: seq<Started>) returns (waiting: bool)
      requires jobs.Valid() && jobs.world.pc == R.Building(j, bg) && j < |jobs.jobs| && jobs.jobs[j].procs != []
      requires jobs.world.ids[j] == id && JobIs(jobs.world, id, run)
      modifies jobs
      ensures jobs.Valid() && (waiting ==> !bg && jobs.kernel == [])
      ensures C.Course(jobs.history, jobs.kernel)
        == C.Before(old(jobs.history), (LaunchedJob(old(jobs.world)); C.From(old(jobs.world), R.Launch, old(jobs.kernel))))
      ensures Settled(jobs.world, j, bg, id, waiting) && JobIs(jobs.world, id, run)
    {
      LaunchedJob(jobs.world);
      jobs.Launch();
      waiting := false;
      if !bg {
        var _, still := jobs.MonitorJob(id);
        waiting := still;
      } else {
        jobs.AtRest();
      }
    }

    method DoPipeline(token: array<Tok>, ntokens: nat, bg: bool, opening: Opening)
      returns (ok: bool, waiting: bool, run: seq<Started>, ghost pipes: seq<Ends>, ghost j: nat)
      requires ntokens < token.Length && Null !in token[..ntokens] && Pipe in token[..ntokens]
      requires |Divide(token[..ntokens])| <= |forks|
      requires jobs.Valid() && jobs.world.pc.Idle? && Fresh(jobs.jobs, forks)
      requires fds.Valid() && fds.open == fds.own
      modifies this`forks, this`wires, fds, jobs, token
      ensures var ts := old(token[..ntokens]);
        && (ok <==> GoodLine(ts, opening))
        && (ok ==>
          && AllRun(Divide(ts), old(forks), run, pipes)
          && Connected(old(fds.made), fds.made, old(wires), wires, pipes)
          && fds.Valid() && fds.open == fds.own
          && jobs.Valid() && Settled(jobs.world, j, bg, |old(jobs.world).ledger|, waiting)
          && JobIs(jobs.world, |old(jobs.world).ledger|, run)
          && Grouped(jobs.world, |old(jobs.world).ledger|, run))
      ensures fds.most <= 3 || fds.most == old(fds.most)
    {
      hide Drop, GoodStage, WellFormed, R.Inv, S.Run, Fresh, PipeTable.Valid;
      ghost var id := |jobs.world.ledger|;
      ghost var d, forks0, table := Divide(token[..ntokens]), forks, jobs.jobs;
      waiting := false;
      var slot;
      ok, slot, run, pipes := StartPipeline(token, ntokens, bg, opening);
      j := slot;
      if ok {
        EnteredJob(jobs.world, slot, bg, id, Pids(run), Argvs(run));
        waiting := Finish(bg, slot, id, run);
        GroupedWhen(jobs.world, id, d, table, forks0, run, pipes);
      }
    }

    // shell.c:123-128: the job of a process started alone
    method TakeUp(token: array<Tok>, ntokens: nat, s: Started, bg: bool, ghost ts: seq<Tok>, ghost forks0: seq<int>)
      returns (ok: bool, waiting: bool, ghost j: nat)
      requires jobs.Valid() && jobs.world.pc.Idle? && Fresh(jobs.jobs, forks0)
      requires forks0 != [] && forks == forks0[1..] && s == Wired(ts, forks0[0], 0, -1, -1)
      requires ntokens == |ts| && Null !in ts && InPlace(token, 0, s.argv) && s.argv == Drop(ts) && s.argv != []
      modifies jobs
      ensures ok <==> AllWords(s.argv)
      ensures ok ==>
        && jobs.Valid() && Settled(jobs.world, j, bg, |old(jobs.world).ledger|, waiting)
        && JobIs(jobs.world, |old(jobs.world).ledger|, [s]) && Grouped(jobs.world, |old(jobs.world).ledger|, [s])
    {
      hide Drop, R.Inv, S.Run, Fresh;
      ghost var id, table := |jobs.world.ledger|, jobs.jobs;
      WiredFirst(ts, forks0[0], -1, -1);
      waiting := false;
      assert ts[0..ntokens] == ts;
      var slot;
      ok, slot := BeginStage(token, s, bg, ts, [ts], ntokens, forks0);
      j := slot;
      if ok {
        EnteredJob(jobs.world, slot, bg, id, Pids([s]), Argvs([s]));
        waiting := Finish(bg, slot, id, [s]);
        GroupedWhen(jobs.world, id, [ts], table, forks0, [s], []);
      }
    }

    // do_job: in the foreground a builtin is left to builtin_command, and nothing is
    // started for it.
    method DoJob(token: array<Tok>, ntokens: nat, bg: bool, opening: Opening, builtins: Builtins)
      returns (ok: bool, handled: bool, waiting: bool, s: Started, ghost j: nat)
      requires ntokens < token.Length && Null !in token[..ntokens] && forks != []
      requires jobs.Valid() && jobs.world.pc.Idle? && Fresh(jobs.jobs, forks) && fds.Valid()
      modifies this`forks, this`wires, jobs, token
      ensures var ts := old(token[..ntokens]);
        && handled == (!bg && HandledHere(ts, opening, builtins))
        && (ok <==> handled || GoodStage(ts, opening))
        && (ok && !handled ==>
          && s == Wired(ts, old(forks)[0], 0, -1, -1)
          && Fed(old(wires), wires, Wire(Own, Own))
          && jobs.Valid() && Settled(jobs.world, j, bg, |old(jobs.world).ledger|, waiting)
          && JobIs(jobs.world, |old(jobs.world).ledger|, [s])
          && Grouped(jobs.world, |old(jobs.world).ledger|, [s]))
      ensures handled ==>
        && forks == old(forks) && wires == old(wires)
        && jobs.Valid() && jobs.jobs == old(jobs.jobs) && jobs.world == old(jobs.world)
    {
      hide WellFormed, Drop, InputOf, OutputOf, Settled, JobIs, Grouped, R.Inv, S.Run, Fresh;
      ghost var ts, forks0 := token[..ntokens], forks;
      handled, waiting, j, s := false, false, 0, Started(0, 0, [], Fd(-1), Fd(-1));
      assert token[0..0 + ntokens] == ts == ts[0..ntokens];
      GoodWhen(ts, opening);
      var argv, from, to;
      ok, argv, from, to := TakeTokens(token, 0, ntokens, -1, -1, opening);
      if ok {
        if !bg && argv[0].Word? && builtins(argv) {
          handled := true;
          return;
        }
        s := Fork(0, argv, -1, -1, from, to);
        ok, waiting, j := TakeUp(token, ntokens, s, bg, ts, forks0);
      }
    }
  }
}
