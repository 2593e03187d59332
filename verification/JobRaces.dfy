// Handler runs that come between a test of the main program and what it does about
// it: what goes wrong then, and exactly when.
module JobRaces {
  import opened Options
  import opened Command
  import opened JobTable
  import opened JobLedger
  import opened JobRuns
  import opened JobSafety
  import opened JobFindings

  // ---- runs, from the end

  lemma {:induction false} LastStep(w0: World, events: seq<Event>, v: World) returns (u: World)
    requires Inv(w0) && events != [] && Run(w0, events, v)
    ensures var n := |events| - 1;
      Run(w0, events[..n], u) && Inv(u) && Enabled(u, events[n]) && Step(u, events[n]) == v
    decreases |events|
  {
    hide Step, Enabled, PcOk, Agrees, Filled, NoneFinished, ResultOk;
    var n, e := |events| - 1, events[0];
    StepKeeps(w0, e);
    if n == 0 {
      u := w0;
      assert events[1..] == [] && events[..0] == [];
    } else {
      u := LastStep(Step(w0, e), events[1..], v);
      assert events[1..][..n - 1] == events[..n][1..] && events[..n][0] == e;
    }
  }

  lemma {:induction false} Rest(w0: World, events: seq<Event>, k: nat, u: World, v: World)
    requires Inv(w0) && k <= |events| && Run(w0, events, v) && Run(w0, events[..k], u)
    ensures Inv(u) && Run(u, events[k..], v)
    decreases k
  {
    hide Step, Enabled, PcOk, Agrees, Filled, NoneFinished, ResultOk;
    if k == 0 {
      assert events[..0] == [] && events[0..] == events;
    } else {
      var e := events[0];
      StepKeeps(w0, e);
      assert events[..k][0] == e && events[..k][1..] == events[1..][..k - 1];
      assert events[1..][k - 1..] == events[k..];
      Rest(Step(w0, e), events[1..], k - 1, u, v);
    }
  }

  // What handler runs make of the table.
  ghost function Through(t: Table, events: seq<Event>): (r: Table)
    ensures |r| == |t|
    decreases |events|
  {
    if events == [] then t
    else
      var n := |events| - 1;
      var u := Through(t, events[..n]);
      if events[n].Signal? then Handle(u, events[n].notices) else u
  }

  ghost predicate OnlySignals(events: seq<Event>) {
    forall i :: 0 <= i < |events| ==> events[i].Signal?
  }

  // monitorjob has left the test of a loop, and not been suspended since.
  ghost predicate JustTested(pc: Pc) { pc.Monitoring? && (pc.at == Nodding || pc.loop == After) }

  lemma {:induction false} Prior(q: World, e: Event, p: World)
    requires Inv(q) && Enabled(q, e) && Step(q, e) == p && JustTested(p.pc)
    ensures q.ids == p.ids
    ensures
      || (e.Signal? && q.pc == p.pc && p.t == Handle(q.t, e.notices))
      || (e == Test && q.pc.Monitoring? && q.pc.at == Testing && q.pc.loop != After && p.t == q.t)
  {
    hide Agrees, Filled, NoneFinished, CodeKept, ResultOk, Holds, Handle, EndAll;
  }

  // Where it made that test.
  lemma {:induction false} Back(events: seq<Event>, p: World) returns (k: nat, u: World)
    requires Inv(Init()) && Run(Init(), events, p) && JustTested(p.pc)
    ensures k < |events| && events[k] == Test && OnlySignals(events[k + 1..])
    ensures Run(Init(), events[..k], u) && Inv(u) && Enabled(u, Test) && Step(u, Test).pc == p.pc
    ensures u.pc.Monitoring? && u.pc.at == Testing && u.pc.loop != After
    ensures p.ids == u.ids && p.t == Through(u.t, events[k + 1..])
    decreases |events|
  {
    hide Agrees, Filled, NoneFinished, CodeKept, ResultOk, Holds, Handle, EndAll, PcOk, Enabled, Step;
    assert events != [];
    var n := |events| - 1;
    var q := LastStep(Init(), events, p);
    Prior(q, events[n], p);
    if events[n].Signal? {
      k, u := Back(events[..n], q);
      assert events[..n][..k] == events[..k];
      assert events[k + 1..][..n - k - 1] == events[..n][k + 1..];
    } else {
      k, u := n, q;
      assert events[k + 1..] == [];
    }
  }

  // Handler runs leave monitorjob where it is, past its test.
  lemma {:induction false} Past(u: World, events: seq<Event>, p: World)
    requires Inv(u) && u.pc.Monitoring? && u.pc.at == Testing && u.pc.loop != After
    requires events != [] && events[0] == Test && OnlySignals(events[1..]) && Run(u, events, p)
    ensures Inv(p) && Enabled(u, Test) && p.ids == u.ids && p.t == Through(u.t, events[1..])
    ensures p.pc == Step(u, Test).pc && p.pc.Monitoring? && p.pc.at != Sleeping
    decreases |events|
  {
    hide Agrees, Filled, NoneFinished, CodeKept, ResultOk, Holds, Handle, EndAll, PcOk, Enabled, Step;
    var n := |events| - 1;
    var q := LastStep(u, events, p);
    if n == 0 {
      assert events[..0] == [] && events[1..] == [];
      TestMoves(u);
    } else {
      assert events[..n][1..] == events[1..][..n - 1] && events[1..][n - 1] == events[n];
      Past(u, events[..n], q);
      Stays(q, events[n]);
    }
    StepKeeps(q, events[n]);
  }

  lemma {:induction false} TestMoves(u: World)
    requires Inv(u) && u.pc.Monitoring? && u.pc.at == Testing && u.pc.loop != After
    ensures Enabled(u, Test) && Step(u, Test) == u.(pc := Step(u, Test).pc, sent := Step(u, Test).sent)
    ensures Step(u, Test).pc.Monitoring? && Step(u, Test).pc.at != Sleeping
  {
  }

  lemma {:induction false} Stays(q: World, e: Event)
    requires Inv(q) && Enabled(q, e) && e.Signal?
    ensures var p := Step(q, e);
      && p.ids == q.ids && p.t == Handle(q.t, e.notices)
      && (q.pc.Monitoring? && q.pc.at != Sleeping ==> p.pc == q.pc)
  {
    hide Agrees, Filled, NoneFinished, CodeKept, ResultOk, Holds, Handle, EndAll;
  }

  // ---- the lost wake-up

  // The run ends with a test of a loop of monitorjob, in the world u, and its next
  // step; between the two there are only handler runs.
  ghost predicate Window(events: seq<Event>, k: nat, u: World, v: World) {
    && Inv(Init()) && k + 2 <= |events| && Run(Init(), events[..k], u)
    && Inv(u) && Run(u, events[k..], v) && u.pc.Monitoring? && u.pc.at == Testing && u.pc.loop != After
    && events[k] == Test == events[|events| - 1] && OnlySignals(events[k + 1..|events| - 1])
  }

  // monitorjob waits for job d although it has ended.
  ghost predicate Overslept(w: World) {
    w.pc.Monitoring? && w.pc.at == Sleeping && |w.t| >= 1 && w.t[FG].state == Finished
  }

  // The job had not ended when the loop was last tested, and had when monitorjob was
  // suspended.
  ghost predicate EndedBetween(events: seq<Event>, v: World) {
    exists k, u :: Window(events, k, u, v) && u.t[FG].state == Awaited(u.pc.loop)
      && u.ids[FG] < |u.ledger| && !Over(u.ledger[u.ids[FG]]) && u.ids[FG] < |v.ledger| && Over(v.ledger[u.ids[FG]])
  }

  lemma {:induction false} FrontEnded(w: World)
    requires Inv(w) && w.pc.Monitoring?
    ensures w.ids[FG] < |w.ledger| && (w.t[FG].state == Finished <==> Over(w.ledger[w.ids[FG]]))
  {
    var e := w.ledger[w.ids[FG]];
    assert JobOk(w.t[FG], e);
    if w.t[FG].state == Finished {
      FinishedIsOver(w.t[FG], e);
    } else if Over(e) {
      forall k | 0 <= k < |w.t[FG].procs| ensures w.t[FG].procs[k].state == Finished {
        assert ProcOk(w.t[FG].procs[k], e.pids[k], e.ended[k]);
      }
    }
  }

  // The step that suspends it.
  lemma {:induction false} FellAsleep(q: World, e: Event, v: World)
    requires Inv(q) && Enabled(q, e) && Step(q, e) == v && v.pc.Monitoring? && v.pc.at == Sleeping
    ensures e == Test && q.pc == v.pc.(at := Nodding) && q.t == v.t && q.ids == v.ids && q.ledger == v.ledger
  {
    hide Agrees, Filled, NoneFinished, CodeKept, ResultOk, Holds, Handle, EndAll;
  }

  lemma {:induction false} AwaitedThen(u: World)
    requires Inv(u) && u.pc.Monitoring? && u.pc.at == Testing && u.pc.loop != After
    ensures Enabled(u, Test)
    ensures var p := Step(u, Test).pc;
      if u.t[FG].state == Awaited(u.pc.loop) then p == u.pc.(at := Nodding)
      else p == Monitoring(if u.pc.loop == First then Second else After, Testing, u.pc.launched, u.pc.early)
  {
  }

  lemma {:induction false} OversleptWhen(events: seq<Event>, v: World)
    requires Inv(Init()) && Run(Init(), events, v) && Inv(v) && Overslept(v)
    ensures EndedBetween(events, v)
  {
    hide Agrees, Filled, NoneFinished, CodeKept, ResultOk, Holds, Handle, EndAll, PcOk, Enabled, Step;
    assert events != [];
    var n := |events| - 1;
    var q := LastStep(Init(), events, v);
    FellAsleep(q, events[n], v);
    var k, u := Back(events[..n], q);
    AwaitedThen(u);
    assert events[..n][..k] == events[..k];
    assert events[k + 1..n] == events[..n][k + 1..];
    Rest(Init(), events, k, u, v);
    FrontEnded(v);
    FrontEnded(u);
    assert Window(events, k, u, v);
  }

  lemma {:induction false} Oversleeps(events: seq<Event>, k: nat, u: World, v: World)
    requires Window(events, k, u, v) && Inv(v) && u.t[FG].state == Awaited(u.pc.loop)
    requires u.ids[FG] < |v.ledger| && Over(v.ledger[u.ids[FG]])
    ensures Overslept(v)
  {
    hide Agrees, Filled, NoneFinished, CodeKept, ResultOk, Holds, Handle, EndAll, PcOk, Enabled, Step;
    var es := events[k..];
    var n := |es| - 1;
    var q := LastStep(u, es, v);
    assert es[..n][1..] == events[k + 1..|events| - 1];
    Past(u, es[..n], q);
    AwaitedThen(u);
    Suspends(q);
    FrontEnded(v);
  }

  lemma {:induction false} Suspends(q: World)
    requires Inv(q) && q.pc.Monitoring? && q.pc.at == Nodding
    ensures Enabled(q, Test) && Step(q, Test) == q.(pc := q.pc.(at := Sleeping))
  {
  }

  // So it comes to wait for an ended job exactly if the handler run that ended the
  // job came after the last test of the loop, and no handler has run since.
  lemma {:induction false} LostWakeUp(events: seq<Event>, v: World)
    requires Inv(Init()) && Run(Init(), events, v)
    ensures Overslept(v) <==> EndedBetween(events, v)
  {
    RunKeeps(Init(), events, v);
    if Overslept(v) {
      OversleptWhen(events, v);
    }
    if EndedBetween(events, v) {
      var k, u :| Window(events, k, u, v) && u.t[FG].state == Awaited(u.pc.loop)
        && u.ids[FG] < |u.ledger| && !Over(u.ledger[u.ids[FG]]) && u.ids[FG] < |v.ledger| && Over(v.ledger[u.ids[FG]]);
      Oversleeps(events, k, u, v);
    }
  }

  // Nothing but a signal ends the suspension, and the next handler run, whatever it is
  // for, makes monitorjob see that the job has ended.
  lemma {:induction false} OnlyASignalWakes(w: World, e: Event)
    requires Inv(w) && Overslept(w) && Enabled(w, e)
    ensures e.Signal? && Step(w, e).pc == w.pc.(at := Testing) && Step(w, e).t[FG].state == Finished
  {
    hide Agrees, Filled, NoneFinished, CodeKept, ResultOk;
    StepKeeps(w, e);
    FrontEnded(w);
    FrontEnded(Step(w, e));
    EndedStays(w.ledger, e.notices, w.ids[FG]);
  }

  lemma {:induction false} SeesTheEnd(w: World) returns (events: seq<Event>, v: World)
    requires Inv(w) && w.pc.Monitoring? && w.pc.at == Testing && w.t[FG].state == Finished
    ensures Run(w, events, v) && v.pc.Idle? && |v.results| == |w.results| + 1
    ensures forall i :: 0 <= i < |events| ==> events[i] == Test
    decreases if w.pc.loop == First then 2 else if w.pc.loop == Second then 1 else 0
  {
    hide Agrees, Filled, NoneFinished, CodeKept, ResultOk;
    StepKeeps(w, Test);
    var u := Step(w, Test);
    if w.pc.loop == After {
      events, v := [Test], u;
      assert Run(u, [], u) && events[1..] == [];
    } else {
      var rest;
      rest, v := SeesTheEnd(u);
      events := [Test] + rest;
      assert events[1..] == rest;
    }
  }

  // ---- a job left in the foreground

  // The job was stopped when the second loop was last tested, and the handler runs
  // between that test and jobs.c:296 have it run again.
  ghost predicate ContinuedBetween(events: seq<Event>, v: World) {
    exists k, u :: Window(events, k, u, v) && u.pc.loop == Second && u.t[FG].state == Stopped
      && |u.t| >= 1 && Through(u.t, events[k + 1..|events| - 1])[FG].state == Running
  }

  lemma {:induction false} WhenStranded(q: World, e: Event, v: World)
    requires Inv(q) && Enabled(q, e) && Step(q, e) == v && v.pc.Stranded?
    ensures e == Test && q.pc.Monitoring? && q.pc.loop == After && q.t == v.t && q.t[FG].state == Running
  {
    hide Agrees, Filled, NoneFinished, CodeKept, ResultOk, Holds, Handle, EndAll;
  }

  lemma {:induction false} StrandedWhen(events: seq<Event>, v: World)
    requires Inv(Init()) && Run(Init(), events, v) && Inv(v) && v.pc.Stranded?
    ensures ContinuedBetween(events, v)
  {
    hide Agrees, Filled, NoneFinished, CodeKept, ResultOk, Holds, Handle, EndAll, PcOk, Enabled, Step;
    assert events != [];
    var n := |events| - 1;
    var q := LastStep(Init(), events, v);
    WhenStranded(q, events[n], v);
    var k, u := Back(events[..n], q);
    AwaitedThen(u);
    assert events[..n][..k] == events[..k];
    assert events[k + 1..n] == events[..n][k + 1..];
    Rest(Init(), events, k, u, v);
    Rest(Init(), events[..n], k, u, q);
    if u.t[FG].state == Finished {
      EndStays(u, events[..n][k..], q);
    }
    assert Window(events, k, u, v);
  }

  // An ended job does not run again.
  lemma {:induction false} EndStays(u: World, events: seq<Event>, q: World)
    requires Inv(u) && u.pc.Monitoring? && u.pc.loop != After && u.pc.at == Testing && u.t[FG].state == Finished
    requires events != [] && events[0] == Test && OnlySignals(events[1..]) && Run(u, events, q)
    ensures |q.t| >= 1 && q.t[FG].state == Finished
    decreases |events|
  {
    hide Agrees, Filled, NoneFinished, CodeKept, ResultOk, Holds, Handle, EndAll, PcOk, Enabled, Step;
    var n := |events| - 1;
    var p := LastStep(u, events, q);
    if n == 0 {
      assert events[..0] == [];
      TestMoves(u);
    } else {
      assert events[..n][1..] == events[1..][..n - 1] && events[1..][n - 1] == events[n];
      EndStays(u, events[..n], p);
      Past(u, events[..n], p);
      AwaitedThen(u);
      StaysEnded(p, events[n]);
    }
  }

  lemma {:induction false} StaysEnded(p: World, e: Event)
    requires Inv(p) && p.pc.Monitoring? && p.t[FG].state == Finished && Enabled(p, e) && e.Signal?
    ensures |Step(p, e).t| >= 1 && Step(p, e).t[FG].state == Finished
  {
    hide Agrees, Filled, NoneFinished, CodeKept, ResultOk;
    StepKeeps(p, e);
    FrontEnded(p);
    FrontEnded(Step(p, e));
    EndedStays(p.ledger, e.notices, p.ids[FG]);
  }

  lemma {:induction false} Strands(events: seq<Event>, k: nat, u: World, v: World)
    requires Window(events, k, u, v) && u.pc.loop == Second && u.t[FG].state == Stopped
    requires |u.t| >= 1 && Through(u.t, events[k + 1..|events| - 1])[FG].state == Running
    ensures v.pc.Stranded?
  {
    hide Agrees, Filled, NoneFinished, CodeKept, ResultOk, Holds, Handle, EndAll, PcOk, Enabled, Step;
    var es := events[k..];
    var n := |es| - 1;
    var q := LastStep(u, es, v);
    assert es[..n][1..] == events[k + 1..|events| - 1];
    Past(u, es[..n], q);
    AwaitedThen(u);
    LooksAgain(q);
  }

  lemma {:induction false} LooksAgain(q: World)
    requires Inv(q) && q.pc.Monitoring? && q.pc.loop == After && q.t[FG].state == Running
    ensures Enabled(q, Test) && Step(q, Test).pc.Stranded?
  {
  }

  // monitorjob leaves a running job in the foreground exactly if the job was stopped
  // when the loop was left and runs again when its state is read the second time.
  lemma {:induction false} LeftRunning(events: seq<Event>, v: World)
    requires Inv(Init()) && Run(Init(), events, v)
    ensures v.pc.Stranded? <==> ContinuedBetween(events, v)
  {
    RunKeeps(Init(), events, v);
    if v.pc.Stranded? {
      StrandedWhen(events, v);
    }
    if ContinuedBetween(events, v) {
      var k, u :| Window(events, k, u, v) && u.pc.loop == Second && u.t[FG].state == Stopped
        && |u.t| >= 1 && Through(u.t, events[k + 1..|events| - 1])[FG].state == Running;
      Strands(events, k, u, v);
    }
  }

  // ---- watchjobs at the prompt

  // Its next step reads or writes before the start of an array exactly if all
  // processes of the job it has found in the slot have ended since.
  lemma {:induction false} CrashesWhen(w: World, e: Event)
    requires Reachable(w) && Enabled(w, e) && Shape(w)
    ensures Step(w, e).pc.Crashed? <==>
      && e.Test? && w.pc.Watching? && (w.pc.look.Using? || w.pc.look.Writing?)
      && w.pc.look.id < |w.ledger| && Over(w.ledger[w.pc.look.id])
  {
    hide Agrees, Filled, NoneFinished, CodeKept, ResultOk, Handle, EndAll;
    ReachableInv(w);
    if w.pc.Watching? && !w.pc.look.Head? { SlotOver(w); }
  }

  lemma {:induction false} SlotOver(w: World)
    requires Inv(w) && w.pc.Watching? && !w.pc.look.Head?
    ensures w.t[w.pc.j].procs == [] <==> Over(w.ledger[w.pc.look.id])
  {
    var j, id := w.pc.j, w.pc.look.id;
    ClearSlot(w);
    assert Kept(w.t, w.ids, id) || Over(w.ledger[id]);
    if Live(w.t[j]) && Over(w.ledger[id]) {
      OverIsFinished(w.t[j], w.ledger[id]);
    }
  }

  // At the prompt it is asked for finished jobs.
  ghost predicate Tidying(pc: Pc) {
    || (pc.Watching? && pc.which == Only(Finished)
        && (pc.look.Head? || pc.look.Seen? || (pc.look.Using? && pc.look.state == Finished)))
    || pc.Idle? || pc.Crashed?
  }

  lemma {:induction false} TidyingStep(w: World, e: Event)
    requires Inv(w) && Tidying(w.pc) && Enabled(w, e) && (e.Signal? || e.Test?)
    ensures Tidying(Step(w, e).pc) && Step(w, e).t == if e.Signal? then Handle(w.t, e.notices) else w.t
  {
    hide Agrees, Filled, NoneFinished, ResultOk, Holds, Handle, EndAll;
    if w.pc.Watching? { ClearSlot(w); }
  }

  // There it never clears a slot: the table changes by handler runs alone.
  lemma {:induction false} NothingToClear(w: World, events: seq<Event>, v: World)
    requires Inv(w) && w.pc == Watching(Only(Finished), BG, Head) && Run(w, events, v)
    requires forall i :: 0 <= i < |events| ==> events[i].Signal? || events[i].Test?
    ensures v.t == Through(w.t, events) && Tidying(v.pc)
    decreases |events|
  {
    hide Agrees, Filled, NoneFinished, ResultOk, Holds, Handle, EndAll, PcOk, Enabled, Step;
    if events != [] {
      var n := |events| - 1;
      var q := LastStep(w, events, v);
      NothingToClear(w, events[..n], q);
      TidyingStep(q, events[n]);
    }
  }

  // How far an undisturbed call has come: the slots before j are as reported, and the
  // others as they were.
  ghost predicate Upto(t: Table, which: Which, v: World) {
    && |v.t| == |t|
    && match v.pc
       case Watching(asked, j, look) =>
         && asked == which && BG <= j
         && (forall i :: 0 <= i < |t| ==> v.t[i] == (if i < j then Watch(t, which) else t)[i])
         && (!look.Head? ==> j < |t| && Live(t[j]))
         && (look.Using? ==> look.state == t[j].state && (which == All || which == Only(look.state)))
         && (look.Writing? ==> WatchJob(t[j], which) == ForgetLast(t[j]))
       case Idle => v.t == Watch(t, which)
       case _ => false
  }

  lemma {:induction false} UptoStep(t: Table, which: Which, v: World)
    requires Inv(v) && Enabled(v, Test) && Upto(t, which, v)
    ensures Upto(t, which, Step(v, Test))
  {
    hide Agrees, Filled, NoneFinished, ResultOk, Holds, JobState;
    if v.pc.Watching? { ClearSlot(v); }
  }

  // With no handler run in between it comes to the same as the report in one go.
  lemma {:induction false} Undisturbed(w: World, which: Which, events: seq<Event>, v: World)
    requires Inv(w) && w.pc == Watching(which, BG, Head) && Run(w, events, v)
    requires forall i :: 0 <= i < |events| ==> events[i] == Test
    ensures Upto(w.t, which, v) && (v.pc.Idle? ==> v.t == Watch(w.t, which))
    decreases |events|
  {
    hide Agrees, Filled, NoneFinished, ResultOk, Holds, Handle, EndAll, PcOk, Enabled, Step;
    if events != [] {
      var n := |events| - 1;
      var q := LastStep(w, events, v);
      Undisturbed(w, which, events[..n], q);
      UptoStep(w.t, which, q);
    }
  }

  // ---- runs that come to each of these

  ghost function Front(p: Proc, ended: Option<Status>, pc: Pc): World {
    World([Job(5, [p], p.state, Some("a"))], [0], [Entry([5], [["a"]], [ended])], pc, 0, [], [])
  }

  ghost function Monitor(loop: Loop, at: At): Pc { Monitoring(loop, at, true, false) }

  lemma {:induction false} FrontAdded()
    ensures Reachable(Front(NewProc(5), None, Monitor(First, Testing)))
  {
    var added := World([NewJob(5)], [0], [Entry([], [], [])], Building(0, false), 0, [], []);
    var v := Front(NewProc(5), None, Building(0, false));
    ReachInit();
    assert Grown([FREE], 0) == [FREE] && [FREE][0 := NewJob(5)] == [NewJob(5)] && [0][0 := 0] == [0];
    assert Step(Init(), AddJob(5, false)).ledger == [Entry([], [], [])];
    Reach(Init(), AddJob(5, false), added);
    assert Extended(None, ["a"]) == "" + "a" == "a";
    assert NewJob(5).procs + [NewProc(5)] == [NewProc(5)];
    assert AddedProc(added.t, 0, 5, ["a"]) == v.t;
    var e := Enrolled(added.ledger, 0, 5, ["a"])[0];
    assert e.pids == [5] && e.stages == [["a"]] && e.ended == [None];
    assert Enrolled(added.ledger, 0, 5, ["a"]) == v.ledger;
    Reach(added, AddProcess(5, ["a"]), v);
    Reach(v, Launch, Front(NewProc(5), None, Monitor(First, Testing)));
  }

  // What a notice for its process makes of the foreground job.
  lemma {:induction false} FrontNoted(p: Proc, status: Status, pc: Pc)
    requires p.pid == 5 && p.state != Finished && pc.Monitoring? && pc.at != Sleeping
    ensures var w, e := Front(p, None, pc), Signal([Notice(5, status)]);
      && Enabled(w, e) && Shape(w)
      && Step(w, e) == Front(NoteProc(p, status), if Terminal(status) then Some(status) else None, pc)
  {
    var w, n := Front(p, None, pc), Notice(5, status);
    var q, ended := NoteProc(p, status), if Terminal(status) then Some(status) else None;
    var v := Front(q, ended, pc);
    OneNotice(w.t, w.ledger, n);
    assert w.t[0].procs[0].pid == 5;
    assert Has(w.t[0], 5);
    assert SlotOf(w.t, 5) == 0 && IndexOf(w.t[0].procs, 5) == 0;
    assert [p][0 := q] == [q];
    assert [q][0].state == q.state;
    assert JobState([q]) == q.state;
    assert Note(w.t, n) == v.t;
    assert Watch(v.t, Only(Finished)) == v.t;
    assert EndOne(w.ledger, n)[0].ended == [ended];
    assert EndOne(w.ledger, n) == v.ledger;
  }

  // The steps of monitorjob for such a job.
  lemma {:induction false} FrontStep(p: Proc, ended: Option<Status>, loop: Loop, at: At)
    requires at != Sleeping && (loop == After ==> at == Testing && p.state == Running)
    requires loop == First ==> p.state != Stopped
    ensures var w := Front(p, ended, Monitor(loop, at));
      && Enabled(w, Test) && Shape(w)
      && Step(w, Test) == Front(p, ended,
           if loop == After then Stranded(0)
           else if at == Nodding then Monitor(loop, Sleeping)
           else if p.state == Awaited(loop) then Monitor(loop, Nodding)
           else Monitor(if loop == First then Second else After, Testing))
  {
  }

  // The process exits just before the shell suspends itself: it waits for a job that
  // has ended.
  lemma {:induction false} WaitForNothing()
    ensures var w := Front(Proc(5, Finished, Some(Exited(0))), Some(Exited(0)), Monitor(Second, Sleeping));
      Reachable(w) && Overslept(w)
  {
    var p, q := NewProc(5), Proc(5, Finished, Some(Exited(0)));
    hide Step;
    FrontAdded();
    FrontStep(p, None, First, Testing);
    Reach(Front(p, None, Monitor(First, Testing)), Test, Front(p, None, Monitor(Second, Testing)));
    FrontStep(p, None, Second, Testing);
    Reach(Front(p, None, Monitor(Second, Testing)), Test, Front(p, None, Monitor(Second, Nodding)));
    FrontNoted(p, Exited(0), Monitor(Second, Nodding));
    Reach(Front(p, None, Monitor(Second, Nodding)), Signal([Notice(5, Exited(0))]),
          Front(q, Some(Exited(0)), Monitor(Second, Nodding)));
    FrontStep(q, Some(Exited(0)), Second, Nodding);
    Reach(Front(q, Some(Exited(0)), Monitor(Second, Nodding)), Test, Front(q, Some(Exited(0)), Monitor(Second, Sleeping)));
  }

  // The process stops, and is continued just before the shell looks again.
  lemma {:induction false} JobLeftInFront()
    ensures Reachable(Front(Proc(5, Running, Some(Continued)), None, Stranded(0)))
  {
    var p, q, r := NewProc(5), Proc(5, Stopped, Some(StoppedBy(20))), Proc(5, Running, Some(Continued));
    hide Step;
    FrontAdded();
    FrontStep(p, None, First, Testing);
    Reach(Front(p, None, Monitor(First, Testing)), Test, Front(p, None, Monitor(Second, Testing)));
    FrontNoted(p, StoppedBy(20), Monitor(Second, Testing));
    Reach(Front(p, None, Monitor(Second, Testing)), Signal([Notice(5, StoppedBy(20))]),
          Front(q, None, Monitor(Second, Testing)));
    FrontStep(q, None, Second, Testing);
    Reach(Front(q, None, Monitor(Second, Testing)), Test, Front(q, None, Monitor(After, Testing)));
    FrontNoted(q, Continued, Monitor(After, Testing));
    Reach(Front(q, None, Monitor(After, Testing)), Signal([Notice(5, Continued)]), Front(r, None, Monitor(After, Testing)));
    FrontStep(r, None, After, Testing);
    Reach(Front(r, None, Monitor(After, Testing)), Test, Front(r, None, Stranded(0)));
  }

  ghost function Cleared(pc: Pc): World {
    World([FREE, FREE], [0, 0], [Entry([5], [["a"]], [Some(Exited(0))])], pc, 1, [], [])
  }

  lemma {:induction false} ClearedStep()
    ensures var w, e := One(NewProc(5), None, Watching(All, 1, Seen(0))), Signal([Notice(5, Exited(0))]);
      Enabled(w, e) && Step(w, e) == Cleared(Watching(All, 1, Seen(0)))
  {
    var w, v, n := One(NewProc(5), None, Watching(All, 1, Seen(0))), Cleared(Watching(All, 1, Seen(0))), Notice(5, Exited(0));
    OneNotice(w.t, w.ledger, n);
    SlotIsOne(w.t, 5);
    var ended := Job(5, [Proc(5, Finished, Some(Exited(0)))], Finished, Some("a"));
    assert w.t[1].procs[0 := NoteProc(w.t[1].procs[0], n.status)] == ended.procs;
    assert JobState(ended.procs) == Finished;
    assert Note(w.t, n) == [FREE, ended];
    assert Watch([FREE, ended], Only(Finished)) == v.t;
    assert EndOne(w.ledger, n)[0].ended == [Some(Exited(0))];
    assert EndOne(w.ledger, n) == v.ledger;
    PeakKept(1, v.t);
  }

  lemma {:induction false} CrashSteps()
    ensures var w := One(NewProc(5), None, Watching(All, 1, Head));
      Enabled(w, Test) && Step(w, Test) == One(NewProc(5), None, Watching(All, 1, Seen(0)))
    ensures var w := Cleared(Watching(All, 1, Seen(0)));
      Enabled(w, Test) && Step(w, Test) == Cleared(Watching(All, 1, Using(0, Finished)))
    ensures var w := Cleared(Watching(All, 1, Using(0, Finished)));
      Enabled(w, Test) && Step(w, Test) == Cleared(Crashed)
  {
  }

  lemma {:induction false} ReportStarted()
    ensures Reachable(One(NewProc(5), None, Watching(All, 1, Head)))
  {
    var p := NewProc(5);
    FirstAdded();
    Reach(One(p, None, Building(1, true)), Launch, One(p, None, Idle));
    Reach(One(p, None, Idle), Report(All), One(p, None, Watching(All, 1, Head)));
  }

  // A background job ends while the jobs command is at its slot.
  lemma {:induction false} CrashInJobs()
    ensures Reachable(Cleared(Crashed))
  {
    hide Step;
    var p := NewProc(5);
    ReportStarted();
    CrashSteps();
    Reach(One(p, None, Watching(All, 1, Head)), Test, One(p, None, Watching(All, 1, Seen(0))));
    ClearedStep();
    Reach(One(p, None, Watching(All, 1, Seen(0))), Signal([Notice(5, Exited(0))]), Cleared(Watching(All, 1, Seen(0))));
    Reach(Cleared(Watching(All, 1, Seen(0))), Test, Cleared(Watching(All, 1, Using(0, Finished))));
    Reach(Cleared(Watching(All, 1, Using(0, Finished))), Test, Cleared(Crashed));
  }
}
