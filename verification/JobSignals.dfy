// The signals the shell sends: to whom, and that none of its jobs is forgotten when
// it quits.
module JobSignals {
  import opened JobTable
  import opened JobLedger
  import opened JobRuns
  import opened JobSafety
  import opened JobFindings

  // ---- where they go

  // The group that the first process of some job leads.
  ghost predicate Leads(pgid: int, ledger: Ledger) {
    exists d :: 0 <= d < |ledger| && ledger[d].pids != [] && ledger[d].pids[0] == pgid
  }

  // A signal has gone to such a group; or, to continue a job that was gone, to group 0.
  ghost predicate SentOk(sent: seq<Kill>, ledger: Ledger) {
    forall k :: 0 <= k < |sent| ==>
      || (sent[k].pgid == 0 && sent[k].signo == SIGCONT)
      || (sent[k].signo in {SIGCONT, SIGTERM} && Leads(sent[k].pgid, ledger))
  }

  // Jobs keep their first processes, and so the groups signalled their meaning.
  lemma {:induction false} SentStays(sent: seq<Kill>, a: Ledger, b: Ledger)
    requires SentOk(sent, a) && |a| <= |b|
    requires forall d :: 0 <= d < |a| && a[d].pids != [] ==> b[d].pids != [] && b[d].pids[0] == a[d].pids[0]
    ensures SentOk(sent, b)
  {
    forall k | 0 <= k < |sent| && Leads(sent[k].pgid, a) ensures Leads(sent[k].pgid, b) {
      var d :| 0 <= d < |a| && a[d].pids != [] && a[d].pids[0] == sent[k].pgid;
      assert b[d].pids[0] == sent[k].pgid;
    }
  }

  lemma {:induction false} SentThrough(sent: seq<Kill>, ledger: Ledger, ns: seq<Notice>)
    requires WellFormed(ledger) && SentOk(sent, ledger)
    ensures SentOk(sent, EndAll(ledger, ns))
  {
    forall d | 0 <= d < |ledger| && ledger[d].pids != []
      ensures EndAll(ledger, ns)[d].pids != [] && EndAll(ledger, ns)[d].pids[0] == ledger[d].pids[0]
    {
      EndedStays(ledger, ns, d);
    }
    SentStays(sent, ledger, EndAll(ledger, ns));
  }

  lemma {:induction false} Leader(w: World, j: nat)
    requires Inv(w) && j < |w.t| && Live(w.t[j]) && w.t[j].procs != []
    ensures w.t[j].pgid == w.t[j].procs[0].pid && Leads(w.t[j].pgid, w.ledger)
  {
    var e := w.ledger[w.ids[j]];
    assert JobOk(w.t[j], e) && ProcOk(w.t[j].procs[0], e.pids[0], e.ended[0]);
    assert e.pids[0] == w.t[j].pgid;
  }

  lemma {:induction false} SentMore(sent: seq<Kill>, more: seq<Kill>, ledger: Ledger)
    requires SentOk(sent, ledger) && SentOk(more, ledger)
    ensures SentOk(sent + more, ledger)
  {
  }

  lemma {:induction false} KillsSent(w: World, j: nat)
    requires Inv(w) && SentOk(w.sent, w.ledger) && j < |w.t| && (Live(w.t[j]) ==> w.t[j].procs != [])
    ensures Live(w.t[j]) ==> SentOk(w.sent + Kills(w.t[j]), w.ledger)
    ensures SentOk(w.sent + [Kill(w.t[j].pgid, SIGCONT)], w.ledger)
  {
    if Live(w.t[j]) {
      Leader(w, j);
      SentMore(w.sent, Kills(w.t[j]), w.ledger);
    }
    SentMore(w.sent, [Kill(w.t[j].pgid, SIGCONT)], w.ledger);
  }

  lemma {:induction false} SentStep(w: World, e: Event)
    requires Inv(w) && Enabled(w, e) && SentOk(w.sent, w.ledger)
    ensures SentOk(Step(w, e).sent, Step(w, e).ledger)
  {
    hide Agrees, NoneFinished, ResultOk, CodeKept, JobState, SentOk;
    match e
    case AddJob(pgid, bg) => SentStays(w.sent, w.ledger, Step(w, e).ledger);
    case AddProcess(pid, argv) => SentStays(w.sent, w.ledger, Step(w, e).ledger);
    case Signal(ns) => SentThrough(w.sent, w.ledger, ns);
    case Terminate(j) =>
      SlotTold(w);
      if j < |w.t| { KillsSent(w, j); }
    case Test =>
      SlotTold(w);
      assert w.sent + [] == w.sent;
      if w.pc.Monitoring? { KillsSent(w, FG); } else if w.pc.j < |w.t| { KillsSent(w, w.pc.j); }
    case _ =>
  }

  lemma {:induction false} SlotTold(w: World)
    requires Inv(w) && !w.pc.Building?
    ensures forall j :: 0 <= j < |w.t| && w.t[j].state != Finished ==> Live(w.t[j])
    ensures forall j :: 0 <= j < |w.t| && Live(w.t[j]) ==> w.t[j].procs != []
    ensures forall j :: 0 <= j < |w.t| && !Live(w.t[j]) ==> w.t[j] == FREE
  {
  }

  // In every run, signals go to groups that jobs of the shell lead, but for a SIGCONT
  // to group 0 as JobFindings has it.
  lemma {:induction false} SignalsSent(w: World, events: seq<Event>, v: World)
    requires Inv(w) && SentOk(w.sent, w.ledger) && Run(w, events, v)
    ensures SentOk(v.sent, v.ledger)
    decreases events
  {
    hide Step, Enabled, SentOk, Agrees, PcOk, ResultOk, NoneFinished, Filled;
    if events != [] {
      SentStep(w, events[0]);
      StepKeeps(w, events[0]);
      SignalsSent(Step(w, events[0]), events[1..], v);
    }
  }

  // A turn of the waiting loop of fg and bg sends SIGCONT to the group of the job,
  // and to group 0 exactly if all its processes have ended.
  lemma {:induction false} WaitSends(w: World)
    requires Reachable(w) && w.pc.Resuming? && !w.pc.asleep
    ensures Shape(w) && Enabled(w, Test) && w.pc.id < |w.ledger|
    ensures !Over(w.ledger[w.pc.id]) ==> w.ledger[w.pc.id].pids != []
    ensures var job, v := w.t[w.pc.j], Step(w, Test);
      if SomeIs(job.procs, Running) then v.sent == w.sent && !v.pc.Resuming?
      else v.sent == w.sent + [Kill(if Over(w.ledger[w.pc.id]) then 0 else w.ledger[w.pc.id].pids[0], SIGCONT)]
  {
    ReachableInv(w);
    ResumeSignalsShell(w);
    var job, e := w.t[w.pc.j], w.ledger[w.pc.id];
    StateTells(job.procs);
    if Live(job) {
      assert JobOk(job, e);
      Leader(w, w.pc.j);
      assert ProcOk(job.procs[0], e.pids[0], e.ended[0]);
    }
  }

  // So does a turn of the first loop of monitorjob.
  lemma {:induction false} MonitorSends(w: World)
    requires Reachable(w) && w.pc.Monitoring? && w.pc.at == Testing
    ensures Shape(w) && Enabled(w, Test) && w.ids[FG] < |w.ledger| && w.ledger[w.ids[FG]].pids != []
    ensures Step(w, Test).sent == w.sent +
      if w.pc.loop == First && SomeIs(w.t[FG].procs, Stopped) && !SomeIs(w.t[FG].procs, Running)
      then [Kill(w.ledger[w.ids[FG]].pids[0], SIGCONT)] else []
  {
    ReachableInv(w);
    StateTells(w.t[FG].procs);
    Leader(w, FG);
    var e := w.ledger[w.ids[FG]];
    assert JobOk(w.t[FG], e) && ProcOk(w.t[FG].procs[0], e.pids[0], e.ended[0]);
    assert w.sent + [] == w.sent;
  }

  // ---- kill

  // The kill command reaches exactly the jobs there are, and first continues one none
  // of whose processes runs.
  lemma {:induction false} TerminateSends(w: World, j: nat)
    requires Reachable(w) && w.pc.Idle?
    ensures Shape(w) && Enabled(w, Terminate(j))
    ensures var v := Step(w, Terminate(j));
      && v == w.(sent := v.sent)
      && if j < |w.t| && Live(w.t[j]) then
           && w.t[j].procs != [] && var g := w.t[j].procs[0].pid;
           && v.sent == w.sent + (if SomeIs(w.t[j].procs, Running) then [] else [Kill(g, SIGCONT)]) + [Kill(g, SIGTERM)]
         else v == w
  {
    ReachableInv(w);
    SlotTold(w);
    if j < |w.t| && Live(w.t[j]) { LiveTold(w, j); }
  }

  lemma {:induction false} LiveTold(w: World, j: nat)
    requires Inv(w) && !w.pc.Building? && BG <= j < |w.t| && Live(w.t[j])
    ensures var job := w.t[j];
      && job.procs != [] && job.pgid == job.procs[0].pid && job.state != Finished
      && (job.state == Running <==> SomeIs(job.procs, Running))
      && Kills(job) ==
         (if SomeIs(job.procs, Running) then [] else [Kill(job.pgid, SIGCONT)]) + [Kill(job.pgid, SIGTERM)]
  {
    StateTells(w.t[j].procs);
    Leader(w, j);
  }

  // ---- quitting

  // A step of shutdownjobs never comes past a job without SIGTERM for it, and any
  // handler run takes it to the next one.
  lemma {:induction false} LeavingStep(w: World, e: Event)
    requires Inv(w) && w.pc.Leaving? && Enabled(w, e)
    ensures var v := Step(w, e);
      && w.sent <= v.sent && |v.t| == |w.t| && v.ids == w.ids
      && (v.pc.Gone? ==> e.Test? && w.pc.j >= |w.t|)
      && (!v.pc.Gone? ==> v.pc.Leaving? && w.pc.j <= v.pc.j <= w.pc.j + 1)
    ensures var v := Step(w, e); var j := w.pc.j;
      !v.pc.Gone? && j < |w.t| && Live(w.t[j]) && !w.pc.asleep ==>
        if e.Signal? then false else v.pc == Leaving(j, true) && v.sent == w.sent + Kills(w.t[j])
    ensures e.Signal? ==> w.pc.asleep && Step(w, e).pc == Leaving(w.pc.j + 1, false) && Step(w, e).sent == w.sent
    ensures Step(w, e).pc.Leaving? && Step(w, e).pc.j > w.pc.j ==>
      e.Signal? || (w.pc.j < |w.t| && !Live(w.t[w.pc.j]))
  {
    hide Agrees, ResultOk, JobState, Handle, EndAll;
    SlotTold(w);
    if e.Signal? { SignalTable(w, e.notices); }
    if w.pc.j < |w.t| && Live(w.t[w.pc.j]) { LeavingLive(w); }
  }

  lemma {:induction false} LeavingLive(w: World)
    requires Inv(w) && w.pc.Leaving? && w.pc.j < |w.t| && Live(w.t[w.pc.j])
    ensures w.t[w.pc.j].state != Finished
  {
  }

  // Job d has had SIGTERM, in a suffix of what was sent, or has ended.
  ghost predicate Settled(pgid: int, d: nat, from: nat, v: World) {
    || (d < |v.ledger| && Over(v.ledger[d]))
    || exists k :: from <= k < |v.sent| && v.sent[k] == Kill(pgid, SIGTERM)
  }

  lemma {:induction false} SettledStays(pgid: int, d: nat, from: nat, w: World, e: Event)
    requires Inv(w) && w.pc.Leaving? && Enabled(w, e) && Settled(pgid, d, from, w)
    ensures Settled(pgid, d, from, Step(w, e))
  {
    hide Agrees, ResultOk, JobState, Handle, EndAll, PcOk, Filled, NoneFinished;
    LeavingStep(w, e);
    var v := Step(w, e);
    if e.Signal? && d < |w.ledger| { EndedStays(w.ledger, e.notices, d); }
    if k :| from <= k < |w.sent| && w.sent[k] == Kill(pgid, SIGTERM) {
      assert v.sent[k] == Kill(pgid, SIGTERM);
    }
  }

  // What one step of shutdownjobs does for the job in slot i, which has not had its turn.
  lemma {:induction false} TurnComes(w: World, e: Event, i: nat, from: nat)
    requires Inv(w) && w.pc.Leaving? && Enabled(w, e) && from <= |w.sent|
    requires i < |w.t| && Live(w.t[i]) && (w.pc.j < i || (w.pc.j == i && !w.pc.asleep))
    ensures var v := Step(w, e);
      || Settled(w.t[i].pgid, w.ids[i], from, v)
      || (v.pc.Leaving? && |v.t| == |w.t| && Live(v.t[i]) && v.t[i].pgid == w.t[i].pgid && v.ids[i] == w.ids[i]
          && (v.pc.j < i || (v.pc.j == i && !v.pc.asleep)))
  {
    hide Agrees, ResultOk, JobState, EndAll;
    LeavingStep(w, e);
    var v := Step(w, e);
    if e.Signal? {
      SlotThrough(w, e.notices, i);
    } else if w.pc.j == i {
      assert v.sent[|v.sent| - 1] == Kill(w.t[i].pgid, SIGTERM);
    }
  }

  lemma {:induction false} SlotThrough(w: World, ns: seq<Notice>, i: nat)
    requires Inv(w) && Enabled(w, Signal(ns)) && i < |w.t| && Live(w.t[i])
    ensures var v := Step(w, Signal(ns));
      && |v.t| == |w.t| && w.ids[i] < |v.ledger|
      && ((Live(v.t[i]) && v.t[i].pgid == w.t[i].pgid) || Over(v.ledger[w.ids[i]]))
  {
    hide Agrees, PcOk, ResultOk, NoneFinished, Filled, JobState, EndAll, Over, Watch, Reap;
    var v := Step(w, Signal(ns));
    StepKeeps(w, Signal(ns));
    SignalTable(w, ns);
    ReapGroup(w.t, ns, i);
    SlotsHold(w, i, i);
    KeptOrOver(v, w.ids[i]);
    if !Over(v.ledger[w.ids[i]]) {
      var j :| 0 <= j < |v.t| && Live(v.t[j]) && v.ids[j] == w.ids[i];
      SlotsHold(w, i, j);
    }
  }

  lemma {:induction false} KeptOrOver(w: World, d: nat)
    requires Inv(w) && d < |w.ledger|
    ensures Kept(w.t, w.ids, d) || Over(w.ledger[d])
  {
  }

  lemma {:induction false} SlotsHold(w: World, i: nat, j: nat)
    requires Inv(w) && i < |w.t| && j < |w.t| && Live(w.t[i]) && Live(w.t[j])
    ensures w.ids[i] < |w.ledger| && (w.ids[i] == w.ids[j] ==> i == j)
  {
  }

  lemma {:induction false} ReapGroup(t: Table, ns: seq<Notice>, i: nat)
    requires i < |t|
    ensures Reap(t, ns)[i].pgid == t[i].pgid
    decreases ns
  {
    if ns != [] { ReapGroup(Note(t, ns[0]), ns[1..], i); }
  }

  // When the shell quits, each job it has then is sent SIGTERM, or has ended first.
  lemma {:induction false} EveryJobTerminated(w: World, events: seq<Event>, v: World, i: nat, from: nat)
    requires Inv(w) && w.pc.Leaving? && Run(w, events, v) && v.pc.Gone? && from <= |w.sent| && i < |w.t|
    requires Live(w.t[i]) && (w.pc.j < i || (w.pc.j == i && !w.pc.asleep))
    ensures Settled(w.t[i].pgid, w.ids[i], from, v)
    decreases |events|
  {
    hide Agrees, ResultOk, JobState, PcOk, Filled, NoneFinished, Handle, EndAll, Settled, Step, Enabled;
    var e := events[0];
    StepKeeps(w, e);
    LeavingStep(w, e);
    TurnComes(w, e, i, from);
    var u := Step(w, e);
    if Settled(w.t[i].pgid, w.ids[i], from, u) {
      SettledUntil(w.t[i].pgid, w.ids[i], from, u, events[1..], v);
    } else {
      EveryJobTerminated(u, events[1..], v, i, from);
    }
  }

  lemma {:induction false} SettledUntil(pgid: int, d: nat, from: nat, w: World, events: seq<Event>, v: World)
    requires Inv(w) && (w.pc.Leaving? || w.pc.Gone?) && Run(w, events, v) && Settled(pgid, d, from, w)
    ensures Settled(pgid, d, from, v)
    decreases |events|
  {
    hide Agrees, ResultOk, JobState, PcOk, Filled, NoneFinished, Handle, EndAll, Settled, Step;
    if events != [] {
      var e := events[0];
      StepKeeps(w, e);
      LeavingStep(w, e);
      SettledStays(pgid, d, from, w, e);
      SettledUntil(pgid, d, from, Step(w, e), events[1..], v);
    }
  }

  // And it does not come past a job without a handler run.
  lemma {:induction false} WaitsForSignal(w: World, events: seq<Event>, v: World)
    requires Inv(w) && w.pc.Leaving? && w.pc.j < |w.t| && (w.pc.asleep || Live(w.t[w.pc.j])) && Run(w, events, v)
    requires v.pc.Gone? || (v.pc.Leaving? && v.pc.j > w.pc.j)
    ensures exists k :: 0 <= k < |events| && events[k].Signal?
    decreases |events|
  {
    hide Agrees, ResultOk, JobState, Filled, NoneFinished, Handle, EndAll;
    var e := events[0];
    if !e.Signal? {
      StepKeeps(w, e);
      LeavingStep(w, e);
      WaitsForSignal(Step(w, e), events[1..], v);
      var k :| 0 <= k < |events[1..]| && events[1..][k].Signal?;
      assert events[k + 1].Signal?;
    }
  }

  // From the prompt: every job there is when the shell quits.
  lemma {:induction false} QuitTerminates(w: World, events: seq<Event>, v: World, i: nat)
    requires Reachable(w) && w.pc.Idle? && i < |w.t| && Live(w.t[i])
    requires Inv(w) && Run(w, [Quit] + events, v) && v.pc.Gone?
    ensures w.t[i].procs != [] && |w.ids| == |w.t|
    ensures Settled(w.t[i].procs[0].pid, w.ids[i], |w.sent|, v)
  {
    ReachableInv(w);
    StepKeeps(w, Quit);
    LiveTold(w, i);
    assert ([Quit] + events)[1..] == events;
    EveryJobTerminated(Step(w, Quit), events, v, i, |w.sent|);
  }
}
