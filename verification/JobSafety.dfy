// The invariant of JobRuns holds in every reachable state, and what follows.
module JobSafety {
  import opened Options
  import opened Command
  import opened JobTable
  import opened JobNotices
  import opened JobLedger
  import opened JobRuns

  // ---- counting background jobs

  lemma {:induction false} CountBound(t: Table, n: nat)
    requires n <= |t|
    ensures Count(t, n) <= if n == 0 then 0 else n - 1
  {
    if n > BG { CountBound(t, n - 1); }
  }

  lemma {:induction false} CountFull(t: Table, n: nat)
    requires 1 <= n <= |t| && forall i :: BG <= i < n ==> Live(t[i])
    ensures Count(t, n) == n - 1
  {
    if n > BG { CountFull(t, n - 1); }
  }

  // Without growth the largest number seen stays one below the table's size.
  lemma {:induction false} PeakKept(peak: nat, t: Table)
    requires |t| == peak + 1
    ensures Max(peak, Count(t, |t|)) == peak
  {
    CountBound(t, |t|);
  }

  // Growth happens only when every background slot is in use.
  lemma {:induction false} PeakGrows(peak: nat, t: Table)
    requires |t| == peak + 2 && forall i :: BG <= i < |t| ==> Live(t[i])
    ensures Max(peak, Count(t, |t|)) == peak + 1
  {
    CountFull(t, |t|);
  }

  // ---- the handler

  lemma {:induction false} NoteLive(t: Table, n: Notice, i: nat)
    requires i < |t|
    ensures Live(Note(t, n)[i]) <==> Live(t[i])
    ensures |Note(t, n)[i].procs| == |t[i].procs|
  {
    NoteTablePids(t, n);
    assert SamePids(t[i], Note(t, n)[i]);
  }

  lemma {:induction false} ReapLive(t: Table, ns: seq<Notice>, i: nat)
    requires i < |t|
    ensures Live(Reap(t, ns)[i]) <==> Live(t[i])
    ensures |Reap(t, ns)[i].procs| == |t[i].procs|
    decreases ns
  {
    if ns != [] {
      NoteLive(t, ns[0], i);
      ReapLive(Note(t, ns[0]), ns[1..], i);
    }
  }

  lemma {:induction false} NoteCode(t: Table, ids: seq<nat>, ledger: Ledger, n: Notice, early: bool)
    requires Agrees(t, ids, ledger) && LegalNotice(t, n) && Live(t[FG]) && ids[FG] < |ledger|
    requires CodeKept(t[FG], ledger[ids[FG]], early)
    ensures Live(Note(t, n)[FG]) && CodeKept(Note(t, n)[FG], EndOne(ledger, n)[ids[FG]], early)
  {
    NoteLive(t, n, FG);
    var k := |t[FG].procs| - 1;
    assert ProcOk(t[FG].procs[k], ledger[ids[FG]].pids[k], ledger[ids[FG]].ended[k]);
    if t[FG].procs[k].pid == n.pid {
      NoteHits(t, n, FG, k);
    } else {
      OtherProcsKept(t, n, FG, k);
    }
  }

  lemma {:induction false} ReapCode(t: Table, ids: seq<nat>, ledger: Ledger, ns: seq<Notice>, early: bool)
    requires Agrees(t, ids, ledger) && Legal(t, ns) && Live(t[FG]) && ids[FG] < |ledger|
    requires CodeKept(t[FG], ledger[ids[FG]], early)
    ensures Live(Reap(t, ns)[FG]) && CodeKept(Reap(t, ns)[FG], EndAll(ledger, ns)[ids[FG]], early)
    decreases ns
  {
    if ns != [] {
      NoteAgrees(t, ids, ledger, ns[0]);
      NoteCode(t, ids, ledger, ns[0], early);
      ReapCode(Note(t, ns[0]), ids, EndOne(ledger, ns[0]), ns[1..], early);
    }
  }

  // An ended process stays ended, with the same status.
  lemma {:induction false} EndedStays(ledger: Ledger, ns: seq<Notice>, d: nat)
    requires WellFormed(ledger) && d < |ledger|
    ensures var e, f := ledger[d], EndAll(ledger, ns)[d];
      f.pids == e.pids && f.stages == e.stages && (Over(e) ==> f == e)
    decreases ns
  {
    if ns != [] {
      EndedStays(EndOne(ledger, ns[0]), ns[1..], d);
      if Over(ledger[d]) { assert EndOne(ledger, ns[0])[d].ended == ledger[d].ended; }
    }
  }

  lemma {:induction false} ResultsStay(results: seq<Result>, ledger: Ledger, ns: seq<Notice>)
    requires WellFormed(ledger) && forall r :: 0 <= r < |results| ==> ResultOk(results[r], ledger)
    ensures forall r :: 0 <= r < |results| ==> ResultOk(results[r], EndAll(ledger, ns))
  {
    forall r | 0 <= r < |results| ensures ResultOk(results[r], EndAll(ledger, ns)) {
      assert ResultOk(results[r], ledger);
      EndedStays(ledger, ns, results[r].id);
    }
  }

  lemma {:induction false} SignalTable(w: World, ns: seq<Notice>)
    requires Inv(w) && Enabled(w, Signal(ns))
    ensures var v := Handle(w.t, ns);
      && |v| == |w.t| && Agrees(v, w.ids, EndAll(w.ledger, ns)) && Populated(v) && NoneFinished(v)
      && (forall i :: 0 <= i < |v| && Live(v[i]) ==> Live(w.t[i])) && v[FG] == Reap(w.t, ns)[FG]
  {
    hide Agrees, JobOk, JobState;
    var u := Reap(w.t, ns);
    forall i | 0 <= i < |w.t| ensures (Live(u[i]) <==> Live(w.t[i])) && |u[i].procs| == |w.t[i].procs| {
      ReapLive(w.t, ns, i);
    }
    ReapAgrees(w.t, w.ids, w.ledger, ns);
    assert Populated(u) by {
      forall i | 0 <= i < |u| && Live(u[i]) ensures u[i].procs != [] { assert w.t[i].procs != []; }
    }
    WatchAgrees(u, w.ids, EndAll(w.ledger, ns), Only(Finished));
  }

  // Where the handler leaves the main program.
  lemma {:induction false} SignalPlace(w: World, ns: seq<Notice>)
    requires Inv(w) && Enabled(w, Signal(ns))
    ensures PcOk(Step(w, Signal(ns))) && Shape(Step(w, Signal(ns)))
  {
    hide Agrees, NoneFinished, Filled, ResultOk, CodeKept, Handle, EndAll, JobState, Reap, Legal, Count, Max, Populated;
    SignalTable(w, ns);
    if w.pc.Monitoring? {
      ReapCode(w.t, w.ids, w.ledger, ns, w.pc.early);
    }
  }

  lemma {:induction false} SignalKeeps(w: World, ns: seq<Notice>)
    requires Inv(w) && Enabled(w, Signal(ns))
    ensures Inv(Step(w, Signal(ns)))
  {
    hide Agrees, NoneFinished, ResultOk, PcOk;
    SignalPlace(w, ns);
    SignalTable(w, ns);
    PeakKept(w.peak, Handle(w.t, ns));
    ResultsStay(w.results, w.ledger, ns);
  }

  // ---- launching

  lemma {:induction false} AddJobTable(w: World, pgid: int, bg: bool)
    requires Inv(w) && Enabled(w, AddJob(pgid, bg))
    ensures var v := Step(w, AddJob(pgid, bg)); var j := v.pc.j;
      && Agrees(v.t, v.ids, v.ledger) && |v.t| == v.peak + 1 && |v.t| >= |w.t|
      && j < |v.t| && v.t[j] == NewJob(pgid) && forall i :: 0 <= i < |v.t| && i != j ==> v.t[i] == w.t[i]
  {
    hide Agrees, JobState, ResultOk;
    var j := if bg then FreeSlot(w.t, BG) else FG;
    var t := Grown(w.t, j);
    var ids := if j == |w.t| then w.ids + [0] else w.ids;
    if j == |w.t| { GrownAgrees(w.t, w.ids, w.ledger, j); }
    NewJobAgrees(t, ids, w.ledger, j, pgid);
    var u := t[j := NewJob(pgid)];
    if j == |w.t| { PeakGrows(w.peak, u); } else { PeakKept(w.peak, u); }
  }

  lemma {:induction false} AddJobKeeps(w: World, pgid: int, bg: bool)
    requires Inv(w) && Enabled(w, AddJob(pgid, bg))
    ensures Inv(Step(w, AddJob(pgid, bg)))
  {
    AddJobTable(w, pgid, bg);
    forall r | 0 <= r < |w.results| ensures ResultOk(w.results[r], w.ledger + [Entry([], [], [])]) {
      assert ResultOk(w.results[r], w.ledger);
    }
  }

  lemma {:induction false} AddProcessResults(w: World, pid: int, argv: seq<string>)
    requires Inv(w) && Enabled(w, AddProcess(pid, argv))
    ensures forall r :: 0 <= r < |w.results| ==>
      ResultOk(w.results[r], Enrolled(w.ledger, w.ids[w.pc.j], pid, argv))
  {
    forall r | 0 <= r < |w.results|
      ensures ResultOk(w.results[r], Enrolled(w.ledger, w.ids[w.pc.j], pid, argv))
    {
      assert ResultOk(w.results[r], w.ledger);
      if w.results[r].id == w.ids[w.pc.j] { NotOver(w, w.pc.j); }
    }
  }

  lemma {:induction false} AddProcessTable(w: World, pid: int, argv: seq<string>)
    requires Inv(w) && Enabled(w, AddProcess(pid, argv))
    ensures var u := AddedProc(w.t, w.pc.j, pid, argv);
      && |u| == |w.t| && NoneFinished(u) && Live(u[w.pc.j]) && u[w.pc.j].state == Running
      && (forall i :: 0 <= i < |u| && i != w.pc.j ==> u[i] == w.t[i])
      && forall k :: 0 <= k < |u[w.pc.j].procs| ==> u[w.pc.j].procs[k].state == Running
  {
  }

  lemma {:induction false} AddProcessKeeps(w: World, pid: int, argv: seq<string>)
    requires Inv(w) && Enabled(w, AddProcess(pid, argv))
    ensures Inv(Step(w, AddProcess(pid, argv)))
  {
    AddProcessResults(w, pid, argv);
    AddProcessTable(w, pid, argv);
    AddedProcAgrees(w.t, w.ids, w.ledger, w.pc.j, pid, argv);
    PeakKept(w.peak, AddedProc(w.t, w.pc.j, pid, argv));
  }

  // A job still being launched has processes that have not ended.
  lemma {:induction false} NotOver(w: World, j: nat)
    requires Inv(w) && w.pc.Building? && w.pc.j == j && w.ledger[w.ids[j]].ended != []
    ensures !Over(w.ledger[w.ids[j]])
  {
    assert ProcOk(w.t[j].procs[0], w.ledger[w.ids[j]].pids[0], w.ledger[w.ids[j]].ended[0]);
  }

  lemma {:induction false} LaunchKeeps(w: World)
    requires Inv(w) && Enabled(w, Launch)
    ensures Inv(Step(w, Launch))
  {
  }

  // ---- fg, bg, jobs and the prompt

  lemma {:induction false} WatchedLive(t: Table, which: Which, i: nat)
    requires i < |t| && Live(t[i]) && t[i].state != Finished
    ensures var u := Watch(t, which); Live(u[i]) && u[i].state == t[i].state && |u[i].procs| == |t[i].procs|
  {
  }

  // watchjobs at the prompt never gets to delete a job: what it takes for a finished
  // job has been cleared away by the handler, and has no processes any more.
  lemma {:induction false} LookedKeeps(w: World)
    requires Inv(w) && w.pc.Watching?
    ensures Inv(Looked(w))
  {
    hide Agrees, NoneFinished, ResultOk;
    ClearSlot(w);
    if w.pc.look.Writing? && Live(w.t[w.pc.j]) {
      WrittenKeeps(w);
    }
  }

  lemma {:induction false} ClearSlot(w: World)
    requires Inv(w) && w.pc.Watching?
    ensures !w.pc.look.Head? ==> var job := w.t[w.pc.j];
      && (Live(job) <==> job.procs != []) && (job.state == Finished ==> !Live(job))
    ensures w.pc.j < |w.t| && Live(w.t[w.pc.j]) ==> Holds(w, w.pc.j, w.ids[w.pc.j])
  {
  }

  lemma {:induction false} WrittenKeeps(w: World)
    requires Inv(w) && w.pc.Watching? && w.pc.look.Writing? && Live(w.t[w.pc.j])
    ensures var j := w.pc.j;
      Inv(With(w, w.t[j := ForgetLast(w.t[j])], w.ids, w.ledger, Watching(w.pc.which, j + 1, Head)))
  {
    hide Agrees, ResultOk;
    ForgetAgrees(w.t, w.ids, w.ledger, w.pc.j);
    PeakKept(w.peak, w.t[w.pc.j := ForgetLast(w.t[w.pc.j])]);
  }

  // resumejob reports on the job before it waits for it.  That report forgets the
  // status of the last process exactly if the process has already ended, which the
  // process of a job of one never has while the job runs.
  lemma {:induction false} FgForgets(w: World, j: nat)
    requires CanResume(w, j)
    ensures var u := Watch(w.t, Only(Running))[j];
      && (Lost(u) <==> LastEnded(w.t[j])) && (LastEnded(u) <==> LastEnded(w.t[j]))
    ensures LastEnded(w.t[j]) ==> |w.t[j].procs| > 1
  {
    var job, e := w.t[j], w.ledger[w.ids[j]];
    var k := |job.procs| - 1;
    assert ProcOk(job.procs[k], e.pids[k], e.ended[k]);
    assert job.state == JobState(job.procs);
  }

  ghost predicate CanResume(w: World, j: nat) {
    && Inv(w) && (w.pc.Idle? || (w.pc.Resuming? && w.pc.j == j))
    && BG <= j < |w.t| && Live(w.t[j]) && w.t[j].state == Running
  }

  lemma {:induction false} ResumedCode(w: World, j: nat)
    requires CanResume(w, j)
    ensures var u := Watch(w.t, Only(Running))[j];
      CodeKept(u, w.ledger[w.ids[j]], LastEnded(w.t[j]))
  {
    var e, u := w.ledger[w.ids[j]], Watch(w.t, Only(Running))[j];
    FgForgets(w, j);
    WatchJobOk(w.t[j], e, Only(Running));
    var k := |u.procs| - 1;
    assert ProcOk(u.procs[k], e.pids[k], e.ended[k]);
  }

  lemma {:induction false} ResumedTable(w: World, j: nat)
    requires CanResume(w, j)
    ensures var t := Watch(w.t, Only(Running));
      && Agrees(t, w.ids, w.ledger) && Populated(t) && NoneFinished(t)
      && Live(t[j]) && t[j].procs != [] && CodeKept(t[j], w.ledger[w.ids[j]], LastEnded(w.t[j]))
  {
    WatchAgrees(w.t, w.ids, w.ledger, Only(Running));
    WatchedLive(w.t, Only(Running), j);
    ResumedCode(w, j);
  }

  lemma {:induction false} ToForeground(w: World, j: nat)
    requires CanResume(w, j)
    ensures Inv(Resumed(w, j, false))
  {
    hide JobOk, JobState, ResultOk;
    var t := Watch(w.t, Only(Running));
    ResumedTable(w, j);
    MovedAgrees(t, w.ids, w.ledger, j, FG);
    PeakKept(w.peak, Moved(t, j, FG));
  }

  lemma {:induction false} ResumedKeeps(w: World, j: nat, bg: bool)
    requires CanResume(w, j)
    ensures Inv(Resumed(w, j, bg))
  {
    if bg {
      ResumedTable(w, j);
      PeakKept(w.peak, Watch(w.t, Only(Running)));
    } else {
      ToForeground(w, j);
    }
  }

  lemma {:induction false} ChosenIsLive(w: World, arg: int)
    requires Inv(w) && !w.pc.Building? && !Live(w.t[FG])
    ensures var j := Chosen(w.t, arg);
      0 <= j && (j < |w.t| && w.t[j].state != Finished ==> BG <= j && Live(w.t[j]))
  {
  }

  lemma {:induction false} ResumeKeeps(w: World, arg: int, bg: bool)
    requires Inv(w) && Enabled(w, Resume(arg, bg))
    ensures Inv(Step(w, Resume(arg, bg)))
  {
    var j := Chosen(w.t, arg);
    ChosenIsLive(w, arg);
    if j < |w.t| && w.t[j].state == Running { ResumedKeeps(w, j, bg); }
  }

  // ---- the loops

  // The stopped foreground job in the slot allocjob found for it.
  lemma {:induction false} MoveOut(t: Table, ids: seq<nat>, ledger: Ledger, j: nat)
    requires Agrees(t, ids, ledger) && Populated(t) && NoneFinished(t) && BG <= j < |t| && !Live(t[j])
    requires Live(t[FG]) && t[FG].state == Stopped
    ensures var u, js := Moved(t, FG, j), MovedIds(ids, FG, j);
      && Agrees(u, js, ledger) && Populated(u) && NoneFinished(u) && !Live(u[FG]) && Live(u[j])
      && forall i :: BG <= i < |t| && i != j ==> u[i] == t[i]
  {
    MovedAgrees(t, ids, ledger, FG, j);
  }

  lemma {:induction false} ToBackground(w: World)
    requires Inv(w) && w.pc.Monitoring? && w.t[FG].state == Stopped
    ensures var j := FreeSlot(w.t, BG);
      var u, js := Moved(Grown(w.t, j), FG, j), MovedIds(if j == |w.t| then w.ids + [0] else w.ids, FG, j);
      && Agrees(u, js, w.ledger) && Populated(u) && NoneFinished(u) && !Live(u[FG])
      && (j == |w.t| ==> forall i :: BG <= i < |u| ==> Live(u[i]))
  {
    hide Agrees, JobState, ResultOk;
    var j := FreeSlot(w.t, BG);
    if j == |w.t| {
      GrownAgrees(w.t, w.ids, w.ledger, j);
      MoveOut(w.t + [FREE], w.ids + [0], w.ledger, j);
    } else {
      MoveOut(w.t, w.ids, w.ledger, j);
    }
  }

  lemma {:induction false} SuspendedTable(w: World)
    requires Inv(w) && w.pc.Monitoring? && w.t[FG].state == Stopped
    ensures var v := Suspended(w);
      && Agrees(v.t, v.ids, v.ledger) && Populated(v.t) && NoneFinished(v.t) && !Live(v.t[FG])
      && (|v.t| == |w.t| || (|v.t| == |w.t| + 1 && forall i :: BG <= i < |v.t| ==> Live(v.t[i])))
  {
    hide Agrees, Populated, JobState;
    ToBackground(w);
    var j := FreeSlot(w.t, BG);
    var t := Grown(w.t, j);
    assert Moved(t[j := t[j].(state := Stopped)], FG, j) == Moved(t, FG, j);
    WatchUnfinished(Moved(t, FG, j), MovedIds(if j == |w.t| then w.ids + [0] else w.ids, FG, j), w.ledger, Only(Stopped));
  }

  lemma {:induction false} WatchUnfinished(u: Table, ids: seq<nat>, ledger: Ledger, which: Which)
    requires Agrees(u, ids, ledger) && Populated(u) && NoneFinished(u)
    ensures var v := Watch(u, which);
      && Agrees(v, ids, ledger) && Populated(v) && NoneFinished(v) && v[FG] == u[FG]
      && forall i :: 0 <= i < |u| ==> (Live(v[i]) <==> Live(u[i]))
  {
    WatchAgrees(u, ids, ledger, which);
    forall i | BG <= i < |u| && Live(u[i]) ensures var v := Watch(u, which); Live(v[i]) && v[i].state != Finished {
      WatchedLive(u, which, i);
    }
  }

  lemma {:induction false} SuspendedKeeps(w: World)
    requires Inv(w) && w.pc.Monitoring? && w.t[FG].state == Stopped
    ensures Inv(Suspended(w))
  {
    SuspendedTable(w);
    var v := Suspended(w).t;
    if |v| == |w.t| { PeakKept(w.peak, v); } else { PeakGrows(w.peak, v); }
  }

  lemma {:induction false} CompletedTable(w: World)
    requires Inv(w) && w.pc.Monitoring? && w.t[FG].state == Finished
    ensures var v := Completed(w);
      Agrees(v.t, v.ids, v.ledger) && Populated(v.t) && NoneFinished(v.t) && !Live(v.t[FG])
  {
    WatchAgrees(w.t, w.ids, w.ledger, Only(Finished));
    DeletedAgrees(Watch(w.t, Only(Finished)), w.ids, w.ledger, FG);
  }

  // The result is the terminal status of the last process.
  lemma {:induction false} CompletedResult(w: World)
    requires Inv(w) && w.pc.Monitoring? && w.t[FG].state == Finished
    ensures ResultOk(Result(w.ids[FG], LastCode(w.t[FG]), w.pc.launched, w.pc.early), w.ledger)
  {
    var e, k := w.ledger[w.ids[FG]], |w.t[FG].procs| - 1;
    FinishedIsOver(w.t[FG], e);
    assert ProcOk(w.t[FG].procs[k], e.pids[k], e.ended[k]);
  }

  lemma {:induction false} CompletedKeeps(w: World)
    requires Inv(w) && w.pc.Monitoring? && w.t[FG].state == Finished
    ensures Inv(Completed(w))
  {
    CompletedTable(w);
    CompletedResult(w);
    PeakKept(w.peak, Completed(w).t);
  }

  lemma {:induction false} MonitoredKeeps(w: World)
    requires Inv(w) && w.pc.Monitoring? && w.pc.at != Sleeping
    ensures Inv(Monitored(w))
  {
    hide Agrees, JobState, ResultOk;
    if w.pc.loop == After && w.t[FG].state == Stopped { SuspendedKeeps(w); }
    if w.pc.loop == After && w.t[FG].state == Finished { CompletedKeeps(w); }
  }

  lemma {:induction false} WaitKeeps(w: World)
    requires Inv(w) && w.pc.Resuming? && !w.pc.asleep
    ensures Inv(Tested(w))
  {
    hide Agrees, NoneFinished, ResultOk, JobState;
    ResumePlace(w);
    if w.t[w.pc.j].state == Running { ResumedKeeps(w, w.pc.j, w.pc.bg); }
  }

  lemma {:induction false} ResumePlace(w: World)
    requires Inv(w) && w.pc.Resuming?
    ensures w.t[w.pc.j].state != Finished ==> Live(w.t[w.pc.j])
  {
  }

  lemma {:induction false} LeaveKeeps(w: World)
    requires Inv(w) && w.pc.Leaving? && !w.pc.asleep
    ensures Inv(Tested(w))
  {
    hide Agrees, ResultOk, JobState;
    if w.pc.j >= |w.t| {
      WatchAgrees(w.t, w.ids, w.ledger, Only(Finished));
      PeakKept(w.peak, Watch(w.t, Only(Finished)));
    }
  }

  lemma {:induction false} TestKeeps(w: World)
    requires Inv(w) && Enabled(w, Test)
    ensures Inv(Step(w, Test))
  {
    hide Agrees, Filled, NoneFinished, ResultOk, JobState, PcOk, Monitored, Looked;
    match w.pc
    case Resuming(_, _, _, _) => WaitKeeps(w);
    case Monitoring(_, _, _, _) => MonitoredKeeps(w);
    case Watching(_, _, _) => LookedKeeps(w);
    case Leaving(_, _) => LeaveKeeps(w);
  }

  lemma {:induction false} StepKeeps(w: World, e: Event)
    requires Inv(w) && Enabled(w, e)
    ensures Inv(Step(w, e))
  {
    match e
    case AddJob(pgid, bg) => AddJobKeeps(w, pgid, bg);
    case AddProcess(pid, argv) => AddProcessKeeps(w, pid, argv);
    case Launch => LaunchKeeps(w);
    case Signal(ns) => SignalKeeps(w, ns);
    case Resume(arg, bg) => ResumeKeeps(w, arg, bg);
    case Test => TestKeeps(w);
    case Report(which) =>
    case Terminate(j) =>
    case Quit =>
  }

  // ---- whole runs

  ghost predicate Run(w: World, events: seq<Event>, v: World)
    requires Inv(w)
    decreases events
  {
    if events == [] then v == w
    else
      Enabled(w, events[0]) &&
      (StepKeeps(w, events[0]);
      Run(Step(w, events[0]), events[1..], v))
  }

  lemma {:induction false} InitOk()
    ensures Inv(Init())
  {
    hide JobState, CommandText, ProcOk, JobOk, ResultOk, CodeKept;
  }

  ghost predicate Reachable(v: World) {
    InitOk();
    exists events :: Run(Init(), events, v)
  }

  lemma {:induction false} RunKeeps(w: World, events: seq<Event>, v: World)
    requires Inv(w) && Run(w, events, v)
    ensures Inv(v)
    decreases events
  {
    if events != [] {
      StepKeeps(w, events[0]);
      RunKeeps(Step(w, events[0]), events[1..], v);
    }
  }

  lemma {:induction false} ReachableInv(v: World)
    requires Reachable(v)
    ensures Inv(v)
  {
    InitOk();
    var events :| Run(Init(), events, v);
    RunKeeps(Init(), events, v);
  }

  lemma {:induction false} RunExtends(w0: World, events: seq<Event>, w: World, e: Event)
    requires Inv(w0) && Run(w0, events, w) && Inv(w) && Enabled(w, e)
    ensures Run(w0, events + [e], Step(w, e))
    decreases events
  {
    var es := events + [e];
    if events == [] {
      StepKeeps(w0, e);
      assert es[1..] == [] && es[0] == e;
    } else {
      StepKeeps(w0, events[0]);
      assert es[1..] == events[1..] + [e] && es[0] == events[0];
      RunExtends(Step(w0, events[0]), events[1..], w, e);
    }
  }

  lemma {:induction false} Reach(w: World, e: Event, v: World)
    requires Reachable(w) && Shape(w) && Enabled(w, e) && Step(w, e) == v
    ensures Reachable(v)
  {
    ReachableInv(w);
    InitOk();
    var events :| Run(Init(), events, w);
    RunExtends(Init(), events, w, e);
    StepKeeps(w, e);
  }

  lemma {:induction false} ReachInit()
    ensures Reachable(Init()) && Inv(Init())
  {
    InitOk();
    assert Run(Init(), [], Init());
  }

  // Every job ever launched is in exactly one live slot, with the processes that
  // were added to it in their order and the text of their command lines, or else
  // all its processes have ended.
  lemma {:induction false} NothingLost(w: World, d: nat)
    requires Reachable(w) && d < |w.ledger|
    ensures |w.t| == |w.ids| && |w.ledger[d].pids| == |w.ledger[d].ended|
    ensures
      || Over(w.ledger[d])
      || exists i :: 0 <= i < |w.t| && Live(w.t[i]) && w.ids[i] == d
    ensures forall i :: 0 <= i < |w.t| && Live(w.t[i]) && w.ids[i] == d ==>
      && (forall j :: 0 <= j < |w.t| && Live(w.t[j]) && w.ids[j] == d ==> j == i)
      && w.t[i].command == CommandText(w.ledger[d].stages)
      && |w.t[i].procs| == |w.ledger[d].pids|
      && (w.ledger[d].pids != [] ==> w.t[i].pgid == w.ledger[d].pids[0])
      && forall k :: 0 <= k < |w.t[i].procs| ==>
        w.t[i].procs[k].pid == w.ledger[d].pids[k] && (w.t[i].procs[k].state == Finished <==> w.ledger[d].ended[k].Some?)
  {
    ReachableInv(w);
    forall i | 0 <= i < |w.t| && Live(w.t[i]) && w.ids[i] == d ensures JobOk(w.t[i], w.ledger[d]) {}
    assert Kept(w.t, w.ids, d) || Over(w.ledger[d]);
    forall i, k | 0 <= i < |w.t| && Live(w.t[i]) && w.ids[i] == d && 0 <= k < |w.t[i].procs|
      ensures ProcOk(w.t[i].procs[k], w.ledger[d].pids[k], w.ledger[d].ended[k]) {}
  }

  predicate SomeIs(procs: seq<Proc>, state: State) {
    exists k :: 0 <= k < |procs| && procs[k].state == state
  }

  // What the state of a job says of its processes.
  predicate StateTold(state: State, procs: seq<Proc>) {
    && (state == Running <==> SomeIs(procs, Running))
    && (state == Stopped <==> SomeIs(procs, Stopped) && !SomeIs(procs, Running))
    && (state == Finished <==> forall k :: 0 <= k < |procs| ==> procs[k].state == Finished)
  }

  lemma {:induction false} StateTells(procs: seq<Proc>)
    ensures StateTold(JobState(procs), procs)
  {
    forall k | 0 <= k < |procs| && !SomeIs(procs, Running) && !SomeIs(procs, Stopped) ensures procs[k].state == Finished {
      assert procs[k].state != Running && procs[k].state != Stopped;
    }
  }

  // Between steps every slot is either clear or agrees with its processes, and no
  // background job is left finished; so testing the state and testing the pgid
  // of a background slot come to the same.
  lemma {:induction false} SlotsConsistent(w: World, i: nat)
    requires Reachable(w) && i < |w.t|
    ensures !Live(w.t[i]) ==> w.t[i] == FREE
    ensures Live(w.t[i]) && w.t[i].procs != [] ==> StateTold(w.t[i].state, w.t[i].procs)
    ensures BG <= i ==> (Live(w.t[i]) <==> w.t[i].state != Finished)
  {
    ReachableInv(w);
    StateTells(w.t[i].procs);
  }

  lemma {:induction false} FrontTold(w: World)
    requires Inv(w) && w.pc.Monitoring?
    ensures StateTold(w.t[FG].state, w.t[FG].procs)
  {
    StateTells(w.t[FG].procs);
  }

  // In its first loop monitorjob waits as long as no process of the job runs and
  // some is stopped, and in the second as long as one runs.
  lemma {:induction false} WaitsFor(w: World)
    requires Reachable(w) && w.pc.Monitoring? && w.pc.at == Testing && w.pc.loop != After
    ensures Shape(w) && Enabled(w, Test)
    ensures var ps := w.t[FG].procs; var waits := Step(w, Test).pc == w.pc.(at := Nodding);
      if w.pc.loop == First then waits <==> SomeIs(ps, Stopped) && !SomeIs(ps, Running)
      else waits <==> SomeIs(ps, Running)
  {
    ReachableInv(w);
    StateTells(w.t[FG].procs);
  }

  // What it does when it has left the loops: a job none of whose processes runs, but
  // some is stopped, is put aside in the background; one that has ended is done with.
  lemma {:induction false} LeavesAs(w: World)
    requires Reachable(w) && w.pc.Monitoring? && w.pc.loop == After
    ensures Shape(w) && Enabled(w, Test)
    ensures var ps := w.t[FG].procs; var v := Step(w, Test);
      && (SomeIs(ps, Running) ==> v == w.(pc := Stranded(w.ids[FG])))
      && (SomeIs(ps, Stopped) && !SomeIs(ps, Running) ==>
        && v.pc.Idle? && |v.t| == |v.ids| > 0 && !Live(v.t[FG])
        && exists j :: BG <= j < |v.t| && Live(v.t[j]) && v.ids[j] == w.ids[FG] && v.t[j].state == Stopped
             && LastCode(v.t[j]) == None)
      && (!SomeIs(ps, Stopped) && !SomeIs(ps, Running) ==>
        && v.pc.Idle? && |v.t| > 0 && !Live(v.t[FG])
        && |v.results| == |w.results| + 1 && v.results[|w.results|].id == w.ids[FG])
  {
    hide Agrees, Filled, NoneFinished, ResultOk, CodeKept, JobState;
    ReachableInv(w);
    FrontTold(w);
    if w.t[FG].state == Stopped {
      var j := FreeSlot(w.t, BG);
      var v := Suspended(w);
      assert BG <= j < |v.t| && Live(v.t[j]) && v.ids[j] == w.ids[FG] && v.t[j].state == Stopped && LastCode(v.t[j]) == None;
    }
  }

  // The slots array has one slot more than background jobs were ever live at once,
  // and a new job gets the lowest free number.
  lemma {:induction false} SlotsEconomical(w: World, pgid: int)
    requires Reachable(w)
    ensures |w.t| == w.peak + 1
    ensures Enabled(w, AddJob(pgid, true)) ==>
      var v := (ReachableInv(w); Step(w, AddJob(pgid, true)));
      && BG <= v.pc.j < |v.t| && (v.pc.j < |w.t| ==> !Live(w.t[v.pc.j]))
      && forall i :: BG <= i < v.pc.j ==> Live(w.t[i])
  {
    ReachableInv(w);
  }

  // What deljob asserts of a slot.
  ghost predicate Deletable(job: Job) {
    Live(job) && job.procs != [] && job.state == Finished
  }

  // watchjobs calls deljob only where it may.
  ghost predicate ClearsRightly(t: Table, which: Which) {
    forall i :: 0 <= i < |t| && Live(t[i]) && !Live(Watch(t, which)[i]) ==> Deletable(t[i])
  }

  // The conditions the source asserts before it overwrites or deletes a slot.
  ghost predicate AssertionsHold(w: World, e: Event)
    requires |w.t| >= 1
  {
    match e
    case AddJob(_, bg) => !bg ==> !Live(w.t[FG])
    case Resume(arg, bg) =>
      var j := Chosen(w.t, arg);
      0 <= j && (j < |w.t| && w.t[j].state == Running ==> j != FG && Live(w.t[j]) && !Live(w.t[FG]))
    case Test =>
      (match w.pc
       case Resuming(j, _, _, _) => j < |w.t| && (w.t[j].state == Running ==> j != FG && !Live(w.t[FG]))
       case Monitoring(loop, _, _, _) =>
         && Live(w.t[FG]) && w.t[FG].procs != []
         && (var j := FreeSlot(w.t, BG); j != FG && !Live(Grown(w.t, j)[j]))
         && ClearsRightly(w.t, Only(Finished))
         && (loop == After && w.t[FG].state == Finished ==> Deletable(Watch(w.t, Only(Finished))[FG]))
       case Watching(_, j, Using(_, Finished)) => j < |w.t| && w.t[j].procs == []
       case Leaving(_, _) => ClearsRightly(w.t, Only(Finished))
       case _ => true)
    case Signal(ns) => ClearsRightly(Reap(w.t, ns), Only(Finished))
    case _ => true
  }

  lemma {:induction false} AssertionsNeverFail(w: World, e: Event)
    requires Reachable(w) && Enabled(w, e)
    ensures |w.t| >= 1 && AssertionsHold(w, e)
  {
    hide JobOk, JobState;
    ReachableInv(w);
    if e.Resume? { ChosenIsLive(w, e.arg); }
    if e.Signal? {
      forall i | 0 <= i < |w.t| ensures Live(Reap(w.t, e.notices)[i]) ==> Reap(w.t, e.notices)[i].procs != [] {
        ReapLive(w.t, e.notices, i);
      }
    }
  }

  // The job fg moves to the foreground is the one that was in the chosen slot
  // when fg was called, whatever happened in its waiting loop.
  lemma {:induction false} SameJobResumed(w: World)
    requires Reachable(w) && w.pc.Resuming?
    ensures var j := w.pc.j;
      && BG <= j < |w.t| == |w.ids| && !Live(w.t[FG])
      && (w.t[j].state == Running ==> Live(w.t[j]) && w.ids[j] == w.pc.id)
  {
    ReachableInv(w);
  }

  // What monitorjob returned, in every call of a run that saw its job finish: the
  // terminal status of the last process, if and only if that process had not
  // already ended when fg brought the job to the foreground.  So the status is
  // never lost for a job launched there, nor for a job of one process.
  lemma {:induction false} StatusReturned(w: World, r: nat)
    requires Reachable(w) && r < |w.results|
    ensures var x := w.results[r];
      && x.id < |w.ledger| && Over(w.ledger[x.id]) && w.ledger[x.id].ended != []
      && (x.status == w.ledger[x.id].ended[|w.ledger[x.id].ended| - 1] <==> !x.early)
      && (x.launched || |w.ledger[x.id].pids| == 1 ==> !x.early)
  {
    ReachableInv(w);
    assert ResultOk(w.results[r], w.ledger);
  }

  // When that is settled: at the step that moves the job to the foreground, by the
  // state of its last process in the table before.
  lemma {:induction false} StatusLostByFg(w: World, e: Event, j: nat)
    requires Reachable(w) && Enabled(w, e) && CanResume(w, j)
    requires (e.Resume? && w.pc.Idle? && Chosen(w.t, e.arg) == j && !e.bg) || (e.Test? && w.pc.Resuming? && !w.pc.bg)
    ensures var v := Step(w, e);
      && v.pc == Monitoring(First, Testing, false, LastEnded(w.t[j])) && |v.t| > 0
      && (LastCode(v.t[FG]) == None && LastEnded(v.t[FG]) <==> LastEnded(w.t[j]))
      && (|w.t[j].procs| == 1 ==> !LastEnded(w.t[j]))
  {
    ReachableInv(w);
    FgForgets(w, j);
    StepKeeps(w, e);
  }
}
