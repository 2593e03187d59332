// A wait of fg and bg that cannot end, and a status that is forgotten: runs that
// lead there, with the exact condition for each.
module JobFindings {
  import opened Options
  import opened Command
  import opened JobTable
  import opened JobNotices
  import opened JobLedger
  import opened JobRuns
  import opened JobSafety

  lemma {:induction false} OverIsFinished(job: Job, e: Entry)
    requires JobOk(job, e) && Over(e)
    ensures JobState(job.procs) == Finished
  {
    forall k | 0 <= k < |job.procs| ensures job.procs[k].state == Finished {
      assert ProcOk(job.procs[k], e.pids[k], e.ended[k]);
    }
  }

  // The signal that resumejob keeps sending while it waits goes to process group 0,
  // the shell's own, exactly when all processes of the job have ended meanwhile.
  lemma {:induction false} ResumeSignalsShell(w: World)
    requires Reachable(w) && w.pc.Resuming?
    ensures w.pc.j < |w.t| && w.pc.id < |w.ledger|
    ensures w.t[w.pc.j].pgid == 0 <==> Over(w.ledger[w.pc.id])
  {
    ReachableInv(w);
    assert Kept(w.t, w.ids, w.pc.id) || Over(w.ledger[w.pc.id]);
    if Live(w.t[w.pc.j]) && Over(w.ledger[w.pc.id]) {
      OverIsFinished(w.t[w.pc.j], w.ledger[w.pc.id]);
    }
  }

  // ---- a stopped job is resumed, and killed before it continues

  lemma {:induction false} OneNotice(t: Table, ledger: Ledger, n: Notice)
    requires WellFormed(ledger)
    ensures Handle(t, [n]) == Watch(Note(t, n), Only(Finished)) && EndAll(ledger, [n]) == EndOne(ledger, n)
    ensures Legal(t, [n]) <==> LegalNotice(t, n)
  {
    assert [n][1..] == [];
    assert Reap(Note(t, n), []) == Note(t, n) && EndAll(EndOne(ledger, n), []) == EndOne(ledger, n);
    assert Legal(Note(t, n), []);
  }

  ghost function One(p: Proc, ended: Option<Status>, pc: Pc): World {
    World([FREE, Job(5, [p], p.state, Some("a"))], [0, 0], [Entry([5], [["a"]], [ended])], pc, 1, [], [])
  }

  ghost function JustAdded(): World {
    World([FREE, NewJob(5)], [0, 0], [Entry([], [], [])], Building(1, true), 1, [], [])
  }

  lemma {:induction false} AddStep()
    ensures Step(Init(), AddJob(5, true)) == JustAdded()
  {
    assert FreeSlot([FREE], 1) == 1;
    assert Grown([FREE], 1) == [FREE, FREE];
    assert [FREE, FREE][1 := NewJob(5)] == [FREE, NewJob(5)];
    assert Count([FREE, NewJob(5)], 2) == 1;
    assert Step(Init(), AddJob(5, true)).ids == [0, 0];
    assert Step(Init(), AddJob(5, true)).ledger == [Entry([], [], [])];
  }

  lemma {:induction false} ProcessStep()
    ensures Enabled(JustAdded(), AddProcess(5, ["a"]))
    ensures Step(JustAdded(), AddProcess(5, ["a"])) == One(NewProc(5), None, Building(1, true))
  {
    var w, v := JustAdded(), One(NewProc(5), None, Building(1, true));
    assert Extended(None, ["a"]) == "" + "a" == "a";
    assert [["a"]][..0] == [] && CommandText([["a"]]) == Some("a");
    assert NewJob(5).procs + [NewProc(5)] == [NewProc(5)];
    assert AddedProc(w.t, 1, 5, ["a"])[1] == v.t[1];
    assert AddedProc(w.t, 1, 5, ["a"]) == v.t;
    var e := Enrolled(w.ledger, 0, 5, ["a"])[0];
    assert e.pids == [5] && e.stages == [["a"]] && e.ended == [None];
    assert Enrolled(w.ledger, 0, 5, ["a"]) == v.ledger;
    PeakKept(1, v.t);
  }

  lemma {:induction false} SlotIsOne(t: Table, pid: int)
    requires |t| == 2 && t[0] == FREE && Live(t[1]) && t[1].procs != [] && t[1].procs[0].pid == pid
    ensures SlotOf(t, pid) == 1 && IndexOf(t[1].procs, pid) == 0
  {
    assert Has(t[1], pid) && !Has(t[0], pid);
  }

  lemma {:induction false} StopStep()
    ensures var w, e := One(NewProc(5), None, Idle), Signal([Notice(5, StoppedBy(20))]);
      Enabled(w, e) && Step(w, e) == One(Proc(5, Stopped, Some(StoppedBy(20))), None, Idle)
  {
    var w, n := One(NewProc(5), None, Idle), Notice(5, StoppedBy(20));
    var v := One(Proc(5, Stopped, Some(StoppedBy(20))), None, Idle);
    OneNotice(w.t, w.ledger, n);
    SlotIsOne(w.t, 5);
    assert [NewProc(5)][0 := NoteProc(NewProc(5), n.status)] == v.t[1].procs;
    assert v.t[1].procs[0].state == Stopped;
    assert Note(w.t, n) == v.t;
    assert Watch(v.t, Only(Finished)) == v.t;
    assert EndOne(w.ledger, n)[0].ended == [None];
    assert EndOne(w.ledger, n) == w.ledger;
    PeakKept(1, v.t);
  }

  ghost function Waiting(asleep: bool): World {
    One(Proc(5, Stopped, Some(StoppedBy(20))), None, Resuming(1, true, 0, asleep)).(
      sent := if asleep then [Kill(5, SIGCONT)] else [])
  }

  ghost function Killed(): World {
    World([FREE, FREE], [0, 0], [Entry([5], [["a"]], [Some(Signaled(9))])], Resuming(1, true, 0, false), 1, [],
          [Kill(5, SIGCONT)])
  }

  lemma {:induction false} KillStep()
    ensures var e := Signal([Notice(5, Signaled(9))]); Enabled(Waiting(true), e) && Step(Waiting(true), e) == Killed()
  {
    var w, v, n := Waiting(true), Killed(), Notice(5, Signaled(9));
    OneNotice(w.t, w.ledger, n);
    SlotIsOne(w.t, 5);
    var killed := Job(5, [Proc(5, Finished, Some(Signaled(9)))], Finished, Some("a"));
    assert w.t[1].procs[0 := NoteProc(w.t[1].procs[0], n.status)] == killed.procs;
    assert JobState(killed.procs) == Finished;
    assert Note(w.t, n) == [FREE, killed];
    assert Watch([FREE, killed], Only(Finished)) == v.t;
    assert EndOne(w.ledger, n)[0].ended == [Some(Signaled(9))];
    assert EndOne(w.ledger, n) == v.ledger;
    PeakKept(1, v.t);
  }

  lemma {:induction false} FirstAdded()
    ensures Reachable(One(NewProc(5), None, Building(1, true)))
  {
    ReachInit();
    AddStep();
    Reach(Init(), AddJob(5, true), JustAdded());
    ProcessStep();
    Reach(JustAdded(), AddProcess(5, ["a"]), One(NewProc(5), None, Building(1, true)));
  }

  lemma {:induction false} StoppedJob()
    ensures Reachable(One(Proc(5, Stopped, Some(StoppedBy(20))), None, Idle))
  {
    FirstAdded();
    Reach(One(NewProc(5), None, Building(1, true)), Launch, One(NewProc(5), None, Idle));
    StopStep();
    var stopped := One(Proc(5, Stopped, Some(StoppedBy(20))), None, Idle);
    Reach(One(NewProc(5), None, Idle), Signal([Notice(5, StoppedBy(20))]), stopped);
  }

  // The job is gone, its slot is clear, and resumejob is still waiting for it to
  // run; each further turn of its loop signals group 0.
  lemma {:induction false} ResumeOfKilledJob()
    ensures Reachable(Killed())
  {
    StoppedJob();
    var stopped := One(Proc(5, Stopped, Some(StoppedBy(20))), None, Idle);
    Reach(stopped, Resume(1, true), Waiting(false));
    Reach(Waiting(false), Test, Waiting(true));
    KillStep();
    Reach(Waiting(true), Signal([Notice(5, Signaled(9))]), Killed());
  }

  lemma {:induction false} StillWaits(w: World, e: Event)
    requires Inv(w) && w.pc.Resuming? && !Live(w.t[w.pc.j]) && Enabled(w, e)
    ensures var v := Step(w, e);
      v.pc.Resuming? && v.pc == Resuming(w.pc.j, w.pc.bg, w.pc.id, v.pc.asleep) && |v.t| == |w.t| && !Live(v.t[w.pc.j])
  {
    if e.Signal? { ReapLive(w.t, e.notices, w.pc.j); }
  }

  // Whatever happens from then on, the wait does not end, and every further turn of
  // the loop signals group 0.
  lemma {:induction false} WaitsForever(w: World, events: seq<Event>, v: World)
    requires Inv(w) && w.pc.Resuming? && !Live(w.t[w.pc.j]) && Run(w, events, v)
    ensures v.pc.Resuming? && v.pc == Resuming(w.pc.j, w.pc.bg, w.pc.id, v.pc.asleep)
    ensures w.pc.j < |v.t| && v.t[w.pc.j].pgid == 0
    decreases events
  {
    if events != [] {
      var u := Step(w, events[0]);
      StepKeeps(w, events[0]);
      StillWaits(w, events[0]);
      WaitsForever(u, events[1..], v);
    }
  }

  // A process of the job that has not ended, and its slot.
  lemma {:induction false} StillAlive(w: World) returns (k: nat)
    requires Inv(w) && w.pc.Resuming? && !Over(w.ledger[w.pc.id])
    ensures var j := w.pc.j;
      && Live(w.t[j]) && k < |w.t[j].procs| && w.t[j].procs[k].state != Finished
      && LegalNotice(w.t, Notice(w.t[j].procs[k].pid, Continued))
  {
    var e := w.ledger[w.pc.id];
    assert Kept(w.t, w.ids, w.pc.id);
    k :| 0 <= k < |e.ended| && e.ended[k].None?;
    assert ProcOk(w.t[w.pc.j].procs[k], e.pids[k], e.ended[k]);
  }

  // The notice that it continues makes the job run again.
  lemma {:induction false} Continues(w: World, k: nat)
    requires Inv(w) && w.pc.Resuming? && w.pc.asleep && Live(w.t[w.pc.j]) && k < |w.t[w.pc.j].procs|
    requires LegalNotice(w.t, Notice(w.t[w.pc.j].procs[k].pid, Continued))
    ensures var e := Signal([Notice(w.t[w.pc.j].procs[k].pid, Continued)]);
      && Enabled(w, e) && Step(w, e).pc == Resuming(w.pc.j, w.pc.bg, w.pc.id, false)
      && |Step(w, e).t| == |w.t| && Step(w, e).t[w.pc.j].state == Running
  {
    var j := w.pc.j;
    var n := Notice(w.t[j].procs[k].pid, Continued);
    var u := Note(w.t, n);
    OneNotice(w.t, w.ledger, n);
    NoteHits(w.t, n, j, k);
    NoteLive(w.t, n, j);
    NoteCoherent(w.t, n);
    assert u[j].procs[k].state == Running;
    assert u[j].state == JobState(u[j].procs) == Running;
  }

  lemma {:induction false} EndOfTest(w: World)
    requires Inv(w) && w.pc.Resuming? && !w.pc.asleep && w.t[w.pc.j].state == Running
    ensures Enabled(w, Test) && Run(w, [Test], Step(w, Test)) && !Step(w, Test).pc.Resuming?
  {
    StepKeeps(w, Test);
    assert [Test][1..] == [];
  }

  lemma {:induction false} EndOfSleep(w: World) returns (events: seq<Event>, v: World)
    requires Inv(w) && w.pc.Resuming? && w.pc.asleep && !Over(w.ledger[w.pc.id])
    ensures Run(w, events, v) && !v.pc.Resuming?
  {
    hide Step, Agrees, Filled, NoneFinished, PcOk, ResultOk;
    var k := StillAlive(w);
    var e := Signal([Notice(w.t[w.pc.j].procs[k].pid, Continued)]);
    Continues(w, k);
    StepKeeps(w, e);
    var u := Step(w, e);
    EndOfTest(u);
    events, v := [e, Test], Step(u, Test);
    assert events[1..] == [Test];
  }

  lemma {:induction false} EndOfWait(w: World) returns (events: seq<Event>, v: World)
    requires Inv(w) && w.pc.Resuming? && !Over(w.ledger[w.pc.id])
    ensures Run(w, events, v) && !v.pc.Resuming?
  {
    hide Agrees, Filled, NoneFinished, ResultOk;
    if w.pc.asleep {
      events, v := EndOfSleep(w);
    } else if w.t[w.pc.j].state == Running {
      EndOfTest(w);
      events, v := [Test], Step(w, Test);
    } else {
      StepKeeps(w, Test);
      var rest;
      rest, v := EndOfSleep(Step(w, Test));
      events := [Test] + rest;
      assert events[1..] == rest;
    }
  }

  ghost predicate CanEnd(w: World)
    requires Inv(w)
  {
    exists events, v :: Run(w, events, v) && !v.pc.Resuming?
  }

  // Some continuation of the run ends the wait, if and only if not all processes
  // of the job have ended.
  lemma {:induction false} WaitEnds(w: World)
    requires Reachable(w) && w.pc.Resuming?
    ensures Inv(w) && w.pc.id < |w.ledger| && (CanEnd(w) <==> !Over(w.ledger[w.pc.id]))
  {
    ReachableInv(w);
    ResumeSignalsShell(w);
    if Over(w.ledger[w.pc.id]) {
      NeverEnds(w);
    } else {
      var events, v := EndOfWait(w);
      assert CanEnd(w);
    }
  }

  lemma {:induction false} NeverEnds(w: World)
    requires Inv(w) && w.pc.Resuming? && !Live(w.t[w.pc.j])
    ensures !CanEnd(w)
  {
    forall events, v | Run(w, events, v) ensures v.pc.Resuming? { WaitsForever(w, events, v); }
  }

  // ---- a pipeline whose last process ends before the job is brought back

  ghost function Pair(p: Proc, q: Proc, state: State, a: Option<Status>, b: Option<Status>): (Job, Entry) {
    (Job(5, [p, q], state, Some("a | b")), Entry([5, 6], [["a"], ["b"]], [a, b]))
  }

  ghost function Behind(q: Proc, b: Option<Status>, pc: Pc): World {
    var (job, e) := Pair(NewProc(5), q, Running, None, b);
    World([FREE, job], [0, 0], [e], pc, 1, [], [])
  }

  ghost function InFront(p: Proc, state: State, a: Option<Status>, loop: Loop): World {
    var (job, e) := Pair(p, Proc(6, Finished, None), state, a, Some(Exited(0)));
    World([job, FREE], [0, 0], [e], Monitoring(loop, Testing, false, true), 1, [], [])
  }

  ghost function Forgotten(): World {
    var (_, e) := Pair(NewProc(5), NewProc(6), Running, Some(Exited(1)), Some(Exited(0)));
    World([FREE, FREE], [0, 0], [e], Idle, 1, [Result(0, None, false, true)], [])
  }

  lemma {:induction false} SecondStep()
    ensures var w, e := One(NewProc(5), None, Building(1, true)), AddProcess(6, ["b"]);
      Enabled(w, e) && Step(w, e) == Behind(NewProc(6), None, Building(1, true))
  {
    var w, v := One(NewProc(5), None, Building(1, true)), Behind(NewProc(6), None, Building(1, true));
    assert Extended(Some("a"), ["b"]) == "a" + " | " + "b" == "a | b";
    assert w.t[1].procs + [NewProc(6)] == v.t[1].procs;
    assert AddedProc(w.t, 1, 6, ["b"]) == v.t;
    var e := Enrolled(w.ledger, 0, 6, ["b"])[0];
    assert e.pids == [5, 6] && e.stages == [["a"], ["b"]] && e.ended == [None, None];
    assert Enrolled(w.ledger, 0, 6, ["b"]) == v.ledger;
    PeakKept(1, v.t);
  }

  lemma {:induction false} LastEndsStep()
    ensures var w, e := Behind(NewProc(6), None, Idle), Signal([Notice(6, Exited(0))]);
      Enabled(w, e) && Step(w, e) == Behind(Proc(6, Finished, Some(Exited(0))), Some(Exited(0)), Idle)
  {
    var w, n := Behind(NewProc(6), None, Idle), Notice(6, Exited(0));
    var v := Behind(Proc(6, Finished, Some(Exited(0))), Some(Exited(0)), Idle);
    OneNotice(w.t, w.ledger, n);
    assert w.t[1].procs[1].pid == 6;
    assert Has(w.t[1], 6) && !Has(w.t[0], 6);
    assert w.t[1].procs[1 := NoteProc(w.t[1].procs[1], n.status)] == v.t[1].procs;
    assert v.t[1].procs[0].state == Running;
    assert Note(w.t, n) == v.t;
    assert Watch(v.t, Only(Finished)) == v.t;
    assert EndOne(w.ledger, n)[0].ended == [None, Some(Exited(0))];
    assert EndOne(w.ledger, n) == v.ledger;
    PeakKept(1, v.t);
  }

  lemma {:induction false} ForegroundStep()
    ensures var w, e := Behind(Proc(6, Finished, Some(Exited(0))), Some(Exited(0)), Idle), Resume(-1, false);
      Step(w, e) == InFront(NewProc(5), Running, None, First)
  {
    var w := Behind(Proc(6, Finished, Some(Exited(0))), Some(Exited(0)), Idle);
    var v := InFront(NewProc(5), Running, None, First);
    assert Chosen(w.t, -1) == 1;
    assert w.t[1].procs[1 := w.t[1].procs[1].(exitcode := None)] == v.t[0].procs;
    assert WatchJob(w.t[1], Only(Running)) == v.t[0];
    assert Watch(w.t, Only(Running)) == [FREE, v.t[0]];
    assert Moved([FREE, v.t[0]], 1, 0) == v.t;
    assert MovedIds(w.ids, 1, 0) == v.ids;
    PeakKept(1, v.t);
  }

  lemma {:induction false} FirstEndsStep()
    ensures var w, e := InFront(NewProc(5), Running, None, Second), Signal([Notice(5, Exited(1))]);
      Enabled(w, e) && Step(w, e) == InFront(Proc(5, Finished, Some(Exited(1))), Finished, Some(Exited(1)), Second)
  {
    var w, n := InFront(NewProc(5), Running, None, Second), Notice(5, Exited(1));
    var v := InFront(Proc(5, Finished, Some(Exited(1))), Finished, Some(Exited(1)), Second);
    OneNotice(w.t, w.ledger, n);
    assert w.t[0].procs[0].pid == 5;
    assert Has(w.t[0], 5);
    assert w.t[0].procs[0 := NoteProc(w.t[0].procs[0], n.status)] == v.t[0].procs;
    assert JobState(v.t[0].procs) == Finished;
    assert Note(w.t, n) == v.t;
    assert Watch(v.t, Only(Finished)) == v.t;
    assert EndOne(w.ledger, n)[0].ended == [Some(Exited(1)), Some(Exited(0))];
    assert EndOne(w.ledger, n) == v.ledger;
    PeakKept(1, v.t);
  }

  lemma {:induction false} ReturnStep()
    ensures Step(InFront(Proc(5, Finished, Some(Exited(1))), Finished, Some(Exited(1)), After), Test) == Forgotten()
  {
    var w := InFront(Proc(5, Finished, Some(Exited(1))), Finished, Some(Exited(1)), After);
    assert Watch(w.t, Only(Finished)) == w.t;
    assert w.t[0 := FREE] == [FREE, FREE];
    PeakKept(1, [FREE, FREE]);
  }

  lemma {:induction false} LastEnded()
    ensures Reachable(Behind(Proc(6, Finished, Some(Exited(0))), Some(Exited(0)), Idle))
  {
    FirstAdded();
    SecondStep();
    Reach(One(NewProc(5), None, Building(1, true)), AddProcess(6, ["b"]), Behind(NewProc(6), None, Building(1, true)));
    Reach(Behind(NewProc(6), None, Building(1, true)), Launch, Behind(NewProc(6), None, Idle));
    LastEndsStep();
    var ended := Behind(Proc(6, Finished, Some(Exited(0))), Some(Exited(0)), Idle);
    Reach(Behind(NewProc(6), None, Idle), Signal([Notice(6, Exited(0))]), ended);
  }

  // The foreground job is no longer stopped, and no longer running.
  lemma {:induction false} LoopsStep()
    ensures var w := InFront(NewProc(5), Running, None, First);
      Enabled(w, Test) && Step(w, Test) == InFront(NewProc(5), Running, None, Second)
    ensures var w := InFront(Proc(5, Finished, Some(Exited(1))), Finished, Some(Exited(1)), Second);
      Enabled(w, Test) && Step(w, Test) == InFront(Proc(5, Finished, Some(Exited(1))), Finished, Some(Exited(1)), After)
  {
  }

  // monitorjob returns -1, although the last process exited with status 0.
  lemma {:induction false} StatusForgotten()
    ensures Reachable(Forgotten())
    ensures Forgotten().results[0].status == None && Forgotten().ledger[0].ended[1] == Some(Exited(0))
  {
    hide Step;
    LastEnded();
    ForegroundStep();
    var front := InFront(NewProc(5), Running, None, First);
    Reach(Behind(Proc(6, Finished, Some(Exited(0))), Some(Exited(0)), Idle), Resume(-1, false), front);
    LoopsStep();
    Reach(front, Test, InFront(NewProc(5), Running, None, Second));
    FirstEndsStep();
    var ended := InFront(Proc(5, Finished, Some(Exited(1))), Finished, Some(Exited(1)), Second);
    Reach(InFront(NewProc(5), Running, None, Second), Signal([Notice(5, Exited(1))]), ended);
    var over := InFront(Proc(5, Finished, Some(Exited(1))), Finished, Some(Exited(1)), After);
    Reach(ended, Test, over);
    ReturnStep();
    Reach(over, Test, Forgotten());
  }
}
