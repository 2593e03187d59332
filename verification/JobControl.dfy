// jobs.c as it runs: the slot array updated in place by the operations and by the
// handler, each proved to take the steps of JobRuns.
module JobControl {
  import opened Options
  import opened Command
  import opened JobTable
  import opened JobLedger
  import opened JobRuns
  import opened JobSafety
  import opened JobCourse
  import opened JobSignals

  // ---- job_state and findPid

  method StateOf(job: Job) returns (state: State)
    ensures state == Running <==> exists k :: 0 <= k < |job.procs| && job.procs[k].state == Running
    ensures state == Stopped <==>
      && (exists k :: 0 <= k < |job.procs| && job.procs[k].state == Stopped)
      && forall k :: 0 <= k < |job.procs| ==> job.procs[k].state != Running
    ensures state == Finished <==> forall k :: 0 <= k < |job.procs| ==> job.procs[k].state == Finished
    ensures state == JobState(job.procs)
  {
    state := Finished;
    var i := 0;
    while i < |job.procs|
      invariant 0 <= i <= |job.procs| && state != Running
      invariant forall k :: 0 <= k < i ==> job.procs[k].state != Running
      invariant state == Stopped <==> exists k :: 0 <= k < i && job.procs[k].state == Stopped
    {
      if job.procs[i].state == Running {
        return Running;
      } else if job.procs[i].state == Stopped {
        state := Stopped;
      }
      i := i + 1;
    }
  }

  method FindPid(job: Job, pid: int) returns (k: Option<nat>)
    ensures k.Some? ==> k.value == IndexOf(job.procs, pid) && k.value < |job.procs|
    ensures k.None? ==> forall i :: 0 <= i < |job.procs| ==> job.procs[i].pid != pid
  {
    var i := 0;
    while i < |job.procs|
      invariant 0 <= i <= |job.procs|
      invariant forall k :: 0 <= k < i ==> job.procs[k].pid != pid
    {
      if job.procs[i].pid == pid {
        return Some(i);
      }
      i := i + 1;
    }
    return None;
  }

  lemma {:induction false} NotePopulated(t: Table, n: Notice)
    requires Populated(t)
    ensures Populated(Note(t, n))
  {
    forall i | 0 <= i < |t| && Live(Note(t, n)[i]) ensures Note(t, n)[i].procs != [] { NoteLive(t, n, i); }
  }

  // ---- what becomes of a job

  // The same jobs, with the same processes and command words.
  ghost predicate SameJobs(a: Ledger, b: Ledger) {
    |a| == |b| && forall d :: 0 <= d < |a| ==> b[d].pids == a[d].pids && b[d].stages == a[d].stages
  }

  lemma {:induction false} HandlerKeepsJobs(ledger: Ledger, ns: seq<Notice>)
    requires WellFormed(ledger)
    ensures SameJobs(ledger, EndAll(ledger, ns))
  {
    forall d | 0 <= d < |ledger|
      ensures EndAll(ledger, ns)[d].pids == ledger[d].pids && EndAll(ledger, ns)[d].stages == ledger[d].stages
    {
      EndedStays(ledger, ns, d);
    }
  }

  // monitorjob is suspended, waiting for job d.
  ghost predicate Held(w: World, d: nat) {
    w.pc.Monitoring? && w.pc.at == Sleeping && |w.t| == |w.ids| >= 1 && Live(w.t[FG]) && w.ids[FG] == d
  }

  // Job d is stopped in a background slot.
  ghost predicate Aside(w: World, d: nat) {
    |w.t| == |w.ids| && exists j :: BG <= j < |w.t| && Live(w.t[j]) && w.ids[j] == d && w.t[j].state == Stopped
  }

  // Job d has ended, and this is what monitorjob says of it: the terminal status
  // of its last process, or nothing where that process had ended before the job
  // came to the foreground.
  ghost predicate Ended(w: World, d: nat, status: Option<Status>, early: bool) {
    && d < |w.ledger| && Over(w.ledger[d]) && w.ledger[d].ended != []
    && status == if early then None else w.ledger[d].ended[|w.ledger[d].ended| - 1]
  }

  // Where job d is when monitorjob has returned.
  ghost predicate Returned(w: World, d: nat) {
    || w.pc == Stranded(d)
    || (w.pc.Idle? && |w.t| >= 1 && !Live(w.t[FG]) && (Aside(w, d) || (d < |w.ledger| && Over(w.ledger[d]))))
  }

  // Where job d is after fg or bg on slot j.
  ghost predicate Answered(w: World, j: nat, d: nat, bg: bool, waiting: bool) {
    if waiting then w.pc == Resuming(j, bg, d, true) || (!bg && Held(w, d))
    else if bg then
      w.pc.Idle? && |w.t| == |w.ids| && j < |w.t| && Live(w.t[j]) && w.ids[j] == d && w.t[j].state == Running
    else Returned(w, d)
  }

  lemma {:induction false} ResumedPlace(w: World, j: nat, bg: bool)
    requires CanResume(w, j) && w.t[j].state == Running
    ensures var v := Resumed(w, j, bg);
      && |v.t| == |w.t| == |v.ids| && v.sent == w.sent
      && if bg then v.pc.Idle? && Live(v.t[j]) && v.ids[j] == w.ids[j] && v.t[j].state == Running
         else v.pc.Monitoring? && v.pc.loop == First && v.pc.at == Testing && v.ids[FG] == w.ids[j]
  {
    WatchedLive(w.t, Only(Running), j);
  }

  lemma {:induction false} ResumeSteps(w: World, arg: int, bg: bool)
    requires Inv(w) && Enabled(w, Resume(arg, bg))
    ensures var j := Chosen(w.t, arg); var v := Step(w, Resume(arg, bg));
      && |w.t| == |w.ids|
      && (if j >= |w.t| || w.t[j].state == Finished then v == w
          else if w.t[j].state == Stopped then v == w.(pc := Resuming(j, bg, w.ids[j], false))
          else CanResume(w, j) && v == Resumed(w, j, bg))
  {
    ChosenIsLive(w, arg);
  }

  lemma {:induction false} SuspendedAside(w: World)
    requires Inv(w) && w.pc.Monitoring? && w.t[FG].state == Stopped
    ensures Aside(Suspended(w), w.ids[FG])
  {
    var j := FreeSlot(w.t, BG);
    var v := Suspended(w);
    assert v.t[j].state == Stopped && Live(v.t[j]) && v.ids[j] == w.ids[FG];
  }

  // What shutdownjobs sends to these jobs.
  ghost function AllKills(told: seq<Job>): seq<Kill> {
    if told == [] then [] else AllKills(told[..|told| - 1]) + Kills(told[|told| - 1])
  }

  lemma {:induction false} NoneTold()
    ensures AllKills([]) == []
  {
  }

  lemma {:induction false} QuitPlace(w: World)
    requires Inv(w) && w.pc.Idle?
    ensures Step(w, Quit) == w.(pc := Leaving(BG, false))
  {
  }

  lemma {:induction false} OneMore(told: seq<Job>, job: Job)
    ensures AllKills(told + [job]) == AllKills(told) + Kills(job)
  {
    assert (told + [job])[..|told|] == told;
  }

  lemma {:induction false} LeavingPlace(w: World)
    requires Inv(w) && w.pc.Leaving? && w.pc.j < |w.t|
    ensures Live(w.t[w.pc.j]) <==> w.t[w.pc.j].state != Finished
  {
  }

  lemma {:induction false} EarlyIs(w: World)
    requires Inv(w) && w.pc.Monitoring?
    ensures w.pc.launched ==> !w.pc.early
  {
  }

  lemma {:induction false} CompletedEnded(w: World)
    requires Inv(w) && w.pc.Monitoring? && w.t[FG].state == Finished
    ensures Ended(Completed(w), w.ids[FG], LastCode(w.t[FG]), w.pc.early)
  {
    CompletedResult(w);
  }

  class Shell {
    var jobs: Table
    var kernel: Arrivals  // the handler runs to come
    var sent: seq<Kill>   // the signals sent so far
    ghost var world: World
    ghost var history: seq<Event>

    // The table is the one a run of JobRuns has reached.
    ghost predicate Valid()
      reads this
    {
      Inv(world) && (InitOk(); Run(Init(), history, world)) && jobs == world.t && sent == world.sent
    }

    // initjobs
    constructor (kernel: Arrivals)
      ensures Valid() && world == Init() && history == [] && jobs == [FREE] && sent == [] && this.kernel == kernel
    {
      InitOk();
      jobs := [FREE];
      this.kernel := kernel;
      sent := [];
      world := Init();
      history := [];
    }

    // The whole history as it will be when the main program is out of its loops, or
    // waits for a signal that does not come; and the arrivals that are left then.
    ghost function Plan(): Course
      requires Inv(world)
      reads this
    {
      Before(history, Play(world, kernel))
    }

    lemma AtRest()
      requires Inv(world) && (!InLoop(world.pc) || (Asleep(world.pc) && kernel == []))
      ensures Plan() == Course(history, kernel)
    {
      PlayEnds(world, kernel);
      assert history + [] == history;
    }

    // Records a step, once the table has been brought to where the step leads.
    ghost method Advance(e: Event)
      requires Inv(world) && (InitOk(); Run(Init(), history, world))
      requires Enabled(world, e) && jobs == Step(world, e).t && sent == Step(world, e).sent
      modifies this`world, this`history
      ensures Valid() && world == Step(old(world), e) && history == old(history) + [e]
    {
      InitOk();
      StepKeeps(world, e);
      RunExtends(Init(), history, world, e);
      world, history := Step(world, e), history + [e];
    }

    // ---- the handler

    // One turn of the waitpid loop.
    method Take(n: Notice)
      modifies this`jobs
      ensures jobs == Note(old(jobs), n)
    {
      var i := 0;
      while i < |jobs|
        invariant 0 <= i <= |jobs| && jobs == old(jobs)
        invariant forall j :: 0 <= j < i ==> !Has(jobs[j], n.pid)
      {
        if jobs[i].pgid != 0 {
          var k := FindPid(jobs[i], n.pid);
          if k.Some? {
            assert jobs[i].procs[k.value].pid == n.pid;
            var p := jobs[i].procs[k.value];
            match n.status {
              case Exited(_) => p := p.(state := Finished, exitcode := Some(n.status));
              case Signaled(_) => p := p.(state := Finished, exitcode := Some(n.status));
              case StoppedBy(_) => p := p.(state := Stopped, exitcode := Some(n.status));
              case Continued => p := p.(state := Running, exitcode := Some(n.status));
            }
            jobs := jobs[i := jobs[i].(procs := jobs[i].procs[k.value := p])];
            var state := StateOf(jobs[i]);
            jobs := jobs[i := jobs[i].(state := state)];
            return;
          }
        }
        i := i + 1;
      }
    }

    method SigchldHandler(notices: seq<Notice>)
      requires Populated(jobs)
      modifies this`jobs
      ensures jobs == Handle(old(jobs), notices)
    {
      var rest := notices;
      while rest != []
        invariant Reap(jobs, rest) == Reap(old(jobs), notices)
        invariant Populated(jobs)
        decreases |rest|
      {
        NotePopulated(jobs, rest[0]);
        Take(rest[0]);
        rest := rest[1..];
      }
      WatchJobs(Only(Finished));
    }

    // ---- slots

    method AllocJob() returns (j: nat)
      requires |jobs| >= 1
      modifies this`jobs
      ensures j == FreeSlot(old(jobs), BG) && jobs == Grown(old(jobs), j)
    {
      j := BG;
      while j < |jobs|
        invariant BG <= j <= |jobs| && FreeSlot(jobs, BG) == FreeSlot(jobs, j)
      {
        if jobs[j].pgid == 0 {
          return;
        }
        j := j + 1;
      }
      jobs := jobs + [FREE];
    }

    method DelJob(j: nat)
      requires j < |jobs| && jobs[j].state == Finished
      modifies this`jobs
      ensures jobs == old(jobs)[j := FREE]
    {
      jobs := jobs[j := jobs[j].(pgid := 0, command := None, procs := [])];
    }

    method MoveJob(from: nat, to: nat)
      requires from < |jobs| && to < |jobs| && !Live(jobs[to])
      modifies this`jobs
      ensures jobs == Moved(old(jobs), from, to)
    {
      jobs := jobs[to := jobs[from]];
      jobs := jobs[from := FREE];
    }

    method Forget(j: nat)
      requires j < |jobs| && jobs[j].procs != []
      modifies this`jobs
      ensures jobs == old(jobs)[j := ForgetLast(old(jobs)[j])]
    {
      var k := |jobs[j].procs| - 1;
      jobs := jobs[j := jobs[j].(procs := jobs[j].procs[k := jobs[j].procs[k].(exitcode := None)])];
    }

    // One turn of the loop in watchjobs.
    method WatchSlot(j: nat, which: Which)
      requires j < |jobs| && (Live(jobs[j]) ==> jobs[j].procs != [])
      modifies this`jobs
      ensures jobs == old(jobs)[j := WatchJob(old(jobs)[j], which)]
    {
      if jobs[j].pgid == 0 {
        return;
      }
      var state := jobs[j].state;
      if which == All || which == Only(state) {
        var status := jobs[j].procs[|jobs[j].procs| - 1].exitcode;
        if state == Running {
          if !(status.Some? && status.value == Continued) {
            Forget(j);
          }
        } else if state == Stopped && status.Some? {
          Forget(j);
        } else if state == Finished {
          DelJob(j);
        }
      }
    }

    method WatchJobs(which: Which)
      requires Populated(jobs)
      modifies this`jobs
      ensures jobs == Watch(old(jobs), which)
    {
      var j := BG;
      while j < |jobs|
        invariant BG <= j && |jobs| == |old(jobs)|
        invariant forall i :: 0 <= i < |jobs| ==> jobs[i] == (if i < j then Watch(old(jobs), which) else old(jobs))[i]
      {
        WatchSlot(j, which);
        j := j + 1;
      }
    }

    // The first step of a call.
    ghost method Start(e: Event)
      requires Inv(world) && (InitOk(); Run(Init(), history, world))
      requires Enabled(world, e) && jobs == Step(world, e).t && sent == Step(world, e).sent
      modifies this`world, this`history
      ensures Valid() && world == Step(old(world), e)
      ensures Plan() == Before(old(history), From(old(world), e, kernel))
    {
      hide Agrees, Filled, NoneFinished, PcOk, ResultOk, Run, Play;
      StepKeeps(world, e);
      Advance(e);
      assert old(history) + [e] + Play(world, kernel).events == old(history) + ([e] + Play(world, kernel).events);
    }

    method Send(pgid: int, signo: int)
      modifies this`sent
      ensures sent == old(sent) + [Kill(pgid, signo)]
    {
      sent := sent + [Kill(pgid, signo)];
    }

    // ---- handler runs

    method HandlerRun()
      requires Valid() && InLoop(world.pc) && Interrupted(world, kernel)
      modifies this
      ensures Valid() && world == old(Handled(world, kernel))
      ensures Plan() == old(Plan()) && kernel == old(kernel)[1..]
      ensures world.ids == old(world.ids) && |jobs| == |old(jobs)| && SameJobs(old(world).ledger, world.ledger)
      ensures sent == old(sent)
    {
      hide Agrees, Filled, NoneFinished, PcOk, ResultOk, Run, Handle, EndAll, Play;
      var ns := Reported(jobs, kernel[0].value);
      PlaySignal(world, kernel);
      HandledTable(world, kernel);
      HandlerKeepsJobs(world.ledger, ns);
      SigchldHandler(ns);
      kernel := kernel[1..];
      Advance(Signal(ns));
    }

    // The handler runs that come before the main program gets on.
    method Interrupts()
      requires Valid() && InLoop(world.pc) && Open(world.pc) && !Asleep(world.pc)
      modifies this
      ensures Valid() && Plan() == old(Plan()) && !Interrupted(world, kernel)
      ensures world.pc == old(world.pc) && world.ids == old(world.ids) && |jobs| == |old(jobs)|
      ensures SameJobs(old(world).ledger, world.ledger) && |kernel| <= |old(kernel)| && sent == old(sent)
    {
      hide Agrees, Filled, NoneFinished, PcOk, ResultOk, Run;
      while kernel != [] && kernel[0].Some?
        invariant Valid() && Plan() == old(Plan()) && |kernel| <= |old(kernel)|
        invariant world.pc == old(world.pc) && world.ids == old(world.ids) && |jobs| == |old(jobs)|
        invariant SameJobs(old(world).ledger, world.ledger) && sent == old(sent)
        decreases |kernel|
      {
        HandlerRun();
      }
    }

    // A step of the main program, once the table has been brought to where it leads.
    method Proceed()
      requires Inv(world) && (InitOk(); Run(Init(), history, world))
      requires Enabled(world, Test) && !Interrupted(world, kernel)
      requires jobs == Step(world, Test).t && sent == Step(world, Test).sent
      modifies this`kernel, this`world, this`history
      ensures Valid() && world == Step(old(world), Test) && kernel == Later(old(kernel))
      ensures Course(history, kernel) == Course(old(history) + [Test], Later(old(kernel)))
      ensures Plan() == Before(old(history), old(Play(world, kernel)))
    {
      hide Agrees, Filled, NoneFinished, PcOk, ResultOk, Play, Step, Run;
      PlayTest(world, kernel);
      kernel := Later(kernel);
      Advance(Test);
    }

    // One handler run, with SIGCHLD open just for it; or none any more.
    method Sigsuspend() returns (woken: bool)
      requires Valid() && InLoop(world.pc) && Asleep(world.pc)
      modifies this
      ensures Valid() && Plan() == old(Plan()) && SameJobs(old(world).ledger, world.ledger)
      ensures world.ids == old(world.ids) && |jobs| == |old(jobs)| && sent == old(sent)
      ensures woken <==> !NoSignal(old(kernel))
      ensures if woken then world.pc == Woken(old(world.pc)) && |kernel| < |old(kernel)|
        else world == old(world) && kernel == []
    {
      hide Agrees, Filled, NoneFinished, PcOk, ResultOk, Run;
      while kernel != [] && kernel[0].None?
        invariant Valid() && Plan() == old(Plan()) && |kernel| <= |old(kernel)|
        invariant world == old(world) && jobs == old(jobs) && sent == old(sent)
        invariant NoSignal(kernel) <==> NoSignal(old(kernel))
        decreases |kernel|
      {
        kernel := kernel[1..];
      }
      if kernel == [] {
        return false;
      }
      HandlerRun();
      return true;
    }

    // ---- the main program

    method AddJob(pgid: int, bg: bool) returns (j: nat)
      requires Valid() && Enabled(world, Event.AddJob(pgid, bg))
      modifies this
      ensures Valid() && history == old(history) + [Event.AddJob(pgid, bg)]
      ensures world == Step(old(world), Event.AddJob(pgid, bg)) && world.pc == Building(j, bg)
      ensures bg <==> j != FG
      ensures j < |old(jobs)| ==> !Live(old(jobs)[j])
      ensures kernel == old(kernel)
    {
      if bg {
        j := AllocJob();
      } else {
        j := FG;
      }
      jobs := jobs[j := jobs[j].(pgid := pgid, state := Running, command := None, procs := [])];
      Advance(Event.AddJob(pgid, bg));
    }

    method AddProc(j: nat, pid: int, argv: seq<string>)
      requires Valid() && Enabled(world, AddProcess(pid, argv)) && world.pc.j == j
      modifies this
      ensures Valid() && history == old(history) + [AddProcess(pid, argv)]
      ensures world == Step(old(world), AddProcess(pid, argv)) && kernel == old(kernel)
    {
      var job := jobs[j];
      job := job.(procs := job.procs + [Proc(pid, Running, None)]);
      var command := MkCommand(job.command, argv);
      jobs := jobs[j := job.(command := command)];
      Advance(AddProcess(pid, argv));
    }

    // The job is complete: the shell returns to the prompt or calls monitorjob.
    ghost method Launch()
      requires Valid() && Enabled(world, Event.Launch)
      modifies this`world, this`history
      ensures Valid() && world == Step(old(world), Event.Launch)
      ensures Plan() == Before(old(history), From(old(world), Event.Launch, kernel))
    {
      Start(Event.Launch);
    }

    method SuspendFields()
      requires |jobs| >= 1 && Live(jobs[FG]) && Populated(jobs)
      modifies this`jobs
      ensures
        && var j := FreeSlot(old(jobs), BG);
        && var t := Grown(old(jobs), j);
        && jobs == Watch(Moved(t[j := t[j].(state := Stopped)], FG, j), Only(Stopped))
    {
      var j := AllocJob();
      jobs := jobs[j := jobs[j].(state := Stopped)];
      MoveJob(FG, j);
      WatchJobs(Only(Stopped));
    }

    // jobs.c:299-305
    method Suspend()
      requires Valid() && world.pc.Monitoring? && world.pc.loop == After && jobs[FG].state == Stopped
      requires !Interrupted(world, kernel)
      modifies this
      ensures Valid() && world == Suspended(old(world)) && Plan() == old(Plan())
    {
      SuspendFields();
      Proceed();
    }

    // jobs.c:306-312
    method Complete() returns (status: Option<Status>)
      requires Valid() && world.pc.Monitoring? && world.pc.loop == After && jobs[FG].state == Finished
      requires !Interrupted(world, kernel)
      modifies this
      ensures Valid() && world == Completed(old(world)) && Plan() == old(Plan())
      ensures status == LastCode(old(jobs)[FG])
    {
      status := jobs[FG].procs[|jobs[FG].procs| - 1].exitcode;
      WatchJobs(Only(Finished));
      DelJob(FG);
      Proceed();
    }

    // One turn of a loop of monitorjob whose test has held; in the first the job is
    // continued.  A handler that comes before the suspension does not end it.
    method Doze(again: bool, ghost d: nat) returns (woken: bool)
      requires Valid() && world.pc.Monitoring? && world.pc.at == Testing && world.ids[FG] == d
      requires world.pc.loop != After && jobs[FG].state == Awaited(world.pc.loop) && !Interrupted(world, kernel)
      requires again <==> world.pc.loop == First
      modifies this
      ensures Valid() && Plan() == old(Plan()) && SameJobs(old(world).ledger, world.ledger)
      ensures if woken then world.pc == old(world.pc) && world.ids[FG] == d && !Interrupted(world, kernel)
        else kernel == [] && Held(world, d)
      ensures woken ==> |kernel| < |old(kernel)|
    {
      hide Agrees, Filled, NoneFinished, Run, CodeKept, Play;
      if again {
        Send(jobs[FG].pgid, SIGCONT);
      }
      Proceed();
      Interrupts();
      Proceed();
      woken := Sigsuspend();
      if woken {
        Interrupts();
      }
    }

    // jobs.c:280-290: the mask is opened, and job d is continued while it is stopped.
    method AwaitContinued(ghost d: nat) returns (waiting: bool)
      requires Valid() && world.pc.Monitoring? && world.pc.loop == First && world.pc.at == Testing && world.ids[FG] == d
      modifies this
      ensures Valid() && Plan() == old(Plan()) && SameJobs(old(world).ledger, world.ledger)
      ensures waiting ==> kernel == [] && Held(world, d)
      ensures !waiting ==> world.pc == old(world.pc).(loop := Second) && world.ids[FG] == d
    {
      hide Agrees, Filled, NoneFinished, Run, CodeKept, Play;
      Interrupts();
      while jobs[FG].state == Stopped
        invariant Valid() && world.pc == old(world.pc) && world.ids[FG] == d && !Interrupted(world, kernel)
        invariant Plan() == old(Plan()) && SameJobs(old(world).ledger, world.ledger)
        decreases |kernel|
      {
        var woken := Doze(true, d);
        if !woken { return true; }
      }
      Proceed();
      return false;
    }

    // jobs.c:292-294: waits until job d, in the foreground, no longer runs; or until
    // the kernel has nothing more to report.
    method Await(ghost d: nat) returns (waiting: bool)
      requires Valid() && world.pc.Monitoring? && world.pc.loop == Second && world.pc.at == Testing && world.ids[FG] == d
      modifies this
      ensures Valid() && Plan() == old(Plan()) && SameJobs(old(world).ledger, world.ledger)
      ensures waiting ==> kernel == [] && Held(world, d)
      ensures !waiting ==> world.pc == old(world.pc).(loop := After) && world.ids[FG] == d
    {
      hide Agrees, Filled, NoneFinished, Run, CodeKept, Play;
      Interrupts();
      while jobs[FG].state == Running
        invariant Valid() && world.pc == old(world.pc) && world.ids[FG] == d && !Interrupted(world, kernel)
        invariant Plan() == old(Plan()) && SameJobs(old(world).ledger, world.ledger)
        decreases |kernel|
      {
        var woken := Doze(false, d);
        if !woken { return true; }
      }
      Proceed();
      return false;
    }

    // jobs.c:296-315
    method Settle(ghost d: nat) returns (status: Option<Status>)
      requires Valid() && world.pc.Monitoring? && world.pc.loop == After && world.ids[FG] == d
      modifies this
      ensures Valid() && Course(history, kernel) == old(Plan()) && Returned(world, d)
      ensures world.pc.Stranded? ==> status == None
      ensures world.pc.Idle? ==> (Aside(world, d) && status == None) || Ended(world, d, status, old(world.pc.early))
      ensures SameJobs(old(world).ledger, world.ledger)
    {
      hide Agrees, Filled, NoneFinished, Run, Play;
      status := None;
      Interrupts();
      if jobs[FG].state == Stopped {
        SuspendedAside(world);
        Suspend();
      } else if jobs[FG].state == Finished {
        CompletedEnded(world);
        status := Complete();
      } else {
        Proceed();
      }
      AtRest();
    }

    // Monitors job d: the call is still suspended when the kernel has nothing more to
    // report, or the job has gone to the background or has ended, or else it is left
    // in the foreground.
    method MonitorJob(ghost d: nat) returns (status: Option<Status>, waiting: bool)
      requires Valid() && world.pc.Monitoring? && world.pc.loop == First && world.pc.at == Testing && world.ids[FG] == d
      modifies this
      ensures Valid() && Course(history, kernel) == old(Plan())
      ensures waiting ==> kernel == [] && Held(world, d)
      ensures !waiting ==> Returned(world, d)
      ensures !waiting && world.pc.Stranded? ==> status == None
      ensures !waiting && world.pc.Idle? ==>
        (Aside(world, d) && status == None) || Ended(world, d, status, old(world.pc.early))
      ensures old(world.pc.launched) ==> !old(world.pc.early)
      ensures SameJobs(old(world).ledger, world.ledger)
    {
      hide Agrees, Filled, NoneFinished, Run, Play, CodeKept, Returned, Aside, Ended;
      EarlyIs(world);
      status := None;
      waiting := AwaitContinued(d);
      if waiting {
        AtRest();
        return;
      }
      waiting := Await(d);
      if waiting {
        AtRest();
        return;
      }
      status := Settle(d);
    }

    // The loop that looks for the last job not finished.
    method LastJob() returns (j: nat)
      requires |jobs| >= 1
      ensures j == LastUnfinished(jobs, |jobs| - 1)
    {
      j := |jobs| - 1;
      while j > 0 && jobs[j].state == Finished
        invariant j < |jobs| && LastUnfinished(jobs, |jobs| - 1) == LastUnfinished(jobs, j)
      {
        j := j - 1;
      }
    }

    // jobs.c:196-203
    method Rouse(j: nat, bg: bool, ghost d: nat) returns (waiting: bool)
      requires Valid() && world.pc == Resuming(j, bg, d, false)
      modifies this
      ensures Valid() && Plan() == old(Plan())
      ensures waiting ==> kernel == [] && world.pc == Resuming(j, bg, d, true)
      ensures !waiting ==> world.pc == old(world.pc) && jobs[j].state == Running && world.ids[j] == d
      ensures !waiting ==> CanResume(world, j) && Enabled(world, Test) && Step(world, Test) == Resumed(world, j, bg)
    {
      while jobs[j].state != Running
        invariant Valid() && world.pc == old(world.pc) && Plan() == old(Plan())
        decreases |kernel|
      {
        Send(jobs[j].pgid, SIGCONT);
        Proceed();
        var woken := Sigsuspend();
        if !woken { return true; }
      }
      return false;
    }

    // jobs.c:205-208
    method Bring(j: nat, bg: bool)
      requires Valid() && CanResume(world, j)
      modifies this`jobs
      ensures jobs == Resumed(world, j, bg).t
    {
      hide Agrees, Filled, NoneFinished, Run;
      ResumedTable(world, j);
      WatchJobs(Only(Running));
      if !bg {
        MoveJob(j, FG);
      }
    }

    // jobs.c:209-213
    method Follow(j: nat, bg: bool, ghost d: nat) returns (waiting: bool)
      requires Valid()
      requires if bg then Answered(world, j, d, true, false)
        else world.pc.Monitoring? && world.pc.loop == First && world.pc.at == Testing && world.ids[FG] == d
      modifies this
      ensures Valid() && Course(history, kernel) == old(Plan())
      ensures Answered(world, j, d, bg, waiting) && (waiting ==> kernel == [])
    {
      hide Agrees, Filled, NoneFinished, Run, Play, PcOk;
      waiting := false;
      if !bg {
        var _, still := MonitorJob(d);
        waiting := still;
      } else {
        AtRest();
      }
    }

    // A stopped job: jobs.c:198-213
    method ResumeStopped(arg: int, j: nat, bg: bool, ghost d: nat) returns (waiting: bool)
      requires Valid() && Enabled(world, Resume(arg, bg)) && j < |jobs| && world.ids[j] == d
      requires Step(world, Resume(arg, bg)) == world.(pc := Resuming(j, bg, d, false))
      modifies this
      ensures Valid()
      ensures Course(history, kernel) == Before(old(history), From(old(world), Resume(arg, bg), old(kernel)))
      ensures Answered(world, j, d, bg, waiting) && (waiting ==> kernel == [])
    {
      hide Agrees, Filled, NoneFinished, Run, Play, Step, Resumed;
      Start(Resume(arg, bg));
      waiting := Rouse(j, bg, d);
      if waiting {
        AtRest();
        return;
      }
      ResumedPlace(world, j, bg);
      Bring(j, bg);
      Proceed();
      waiting := Follow(j, bg, d);
    }

    // A running one: jobs.c:205-213
    method ResumeRunning(arg: int, j: nat, bg: bool, ghost d: nat) returns (waiting: bool)
      requires Valid() && Enabled(world, Resume(arg, bg)) && CanResume(world, j) && world.ids[j] == d
      requires Step(world, Resume(arg, bg)) == Resumed(world, j, bg)
      modifies this
      ensures Valid()
      ensures Course(history, kernel) == Before(old(history), From(old(world), Resume(arg, bg), old(kernel)))
      ensures Answered(world, j, d, bg, waiting) && (waiting ==> kernel == [])
    {
      hide Agrees, Filled, NoneFinished, Run, Play, Step, Resumed;
      ResumedPlace(world, j, bg);
      Bring(j, bg);
      Start(Resume(arg, bg));
      waiting := Follow(j, bg, d);
    }

    // fg and bg.  Whichever job was in the chosen slot is the one that ends up
    // running there, or monitored in the foreground, or still waited for.
    method ResumeJob(arg: int, bg: bool) returns (ok: bool, waiting: bool)
      requires Valid() && Enabled(world, Resume(arg, bg))
      modifies this
      ensures Valid()
      ensures Course(history, kernel) == Before(old(history), From(old(world), Resume(arg, bg), old(kernel)))
      ensures var j := Chosen(old(jobs), arg);
        && (ok <==> j < |old(jobs)| && old(jobs)[j].state != Finished)
        && (!ok ==> !waiting && jobs == old(jobs) && world == old(world))
        && (ok ==> Answered(world, j, old(world.ids)[j], bg, waiting))
      ensures waiting ==> kernel == []
    {
      hide Agrees, Filled, NoneFinished, Run, Play, Answered;
      waiting := false;
      var j := arg;
      if arg < 0 {
        j := LastJob();
      }
      ResumeSteps(world, arg, bg);
      if j >= |jobs| || jobs[j].state == Finished {
        Start(Resume(arg, bg));
        AtRest();
        return false, false;
      }
      ok := true;
      if jobs[j].state == Stopped {
        waiting := ResumeStopped(arg, j, bg, world.ids[j]);
      } else {
        waiting := ResumeRunning(arg, j, bg, world.ids[j]);
      }
    }

    // ---- kill

    // killjob.  The signals go to the group that the first process of the job leads.
    method KillSlot(j: nat) returns (ok: bool)
      requires Valid() && (world.pc.Idle? || world.pc.Leaving?)
      modifies this`sent
      ensures ok <==> j < |jobs| && Live(jobs[j])
      ensures ok ==> jobs[j].procs != [] && jobs[j].pgid == jobs[j].procs[0].pid != 0
      ensures sent == old(sent) +
        if !ok then []
        else
          var g := jobs[j].procs[0].pid;
          (if exists k :: 0 <= k < |jobs[j].procs| && jobs[j].procs[k].state == Running then [] else [Kill(g, SIGCONT)])
          + [Kill(g, SIGTERM)]
      ensures ok ==> sent == old(sent) + Kills(jobs[j])
    {
      hide Agrees, Run, ResultOk, JobState;
      SlotTold(world);
      if j >= |jobs| || jobs[j].state == Finished {
        assert sent + [] == sent;
        return false;
      }
      LiveTold(world, j);
      if jobs[j].state == Stopped {
        Send(jobs[j].pgid, SIGCONT);
      }
      Send(jobs[j].pgid, SIGTERM);
      return true;
    }

    // The kill command.
    method KillJob(j: nat) returns (ok: bool)
      requires Valid() && Enabled(world, Terminate(j))
      modifies this
      ensures Valid() && history == old(history) + [Terminate(j)] && kernel == old(kernel) && jobs == old(jobs)
      ensures world == Step(old(world), Terminate(j))
      ensures ok <==> j < |jobs| && Live(jobs[j])
      ensures ok ==> jobs[j].procs != [] && jobs[j].pgid == jobs[j].procs[0].pid != 0
      ensures sent == old(sent) + if ok then Kills(jobs[j]) else []
    {
      ok := KillSlot(j);
      Advance(Terminate(j));
    }

    // ---- watchjobs as the prompt loop and the jobs command call it, with SIGCHLD open

    method ForgetSlot(j: nat, which: Which, ghost id: nat) returns (crashed: bool)
      requires Valid() && world.pc == Watching(which, j, Writing(id))
      modifies this
      ensures Valid() && Plan() == old(Plan()) && |jobs| == |old(jobs)|
      ensures world.pc == if crashed then Crashed else Watching(which, j + 1, Head)
    {
      hide Agrees, Filled, NoneFinished, ResultOk, Run, Play;
      Interrupts();
      crashed := jobs[j].procs == [];
      if !crashed {
        Forget(j);
      }
      Proceed();
    }

    // jobs.c:248-261, for a state that is asked for
    method UseSlot(j: nat, which: Which, state: State, ghost id: nat) returns (crashed: bool)
      requires Valid() && world.pc == Watching(which, j, Using(id, state))
      modifies this
      ensures Valid() && Plan() == old(Plan()) && |jobs| == |old(jobs)|
      ensures world.pc == if crashed then Crashed else Watching(which, j + 1, Head)
    {
      hide Agrees, Filled, NoneFinished, ResultOk, Run, Play;
      Interrupts();
      ClearSlot(world);
      if jobs[j].procs == [] {
        Proceed();
        return true;
      }
      assert state != Finished;
      var status := jobs[j].procs[|jobs[j].procs| - 1].exitcode;
      var keep := if state == Running then status == Some(Continued) else status == None;
      Proceed();
      if keep {
        return false;
      }
      crashed := ForgetSlot(j, which, id);
    }

    // One turn of the loop.
    method ReportSlot(j: nat, which: Which) returns (crashed: bool)
      requires Valid() && world.pc == Watching(which, j, Head) && j < |jobs|
      modifies this
      ensures Valid() && Plan() == old(Plan()) && |jobs| == |old(jobs)|
      ensures world.pc == if crashed then Crashed else Watching(which, j + 1, Head)
    {
      hide Agrees, Filled, NoneFinished, ResultOk, Run, Play;
      Interrupts();
      ghost var id := world.ids[j];
      if jobs[j].pgid == 0 {
        Proceed();
        return false;
      }
      Proceed();
      Interrupts();
      var state := jobs[j].state;
      Proceed();
      if which != All && which != Only(state) {
        return false;
      }
      crashed := UseSlot(j, which, state, id);
    }

    method Report(which: Which) returns (crashed: bool)
      requires Valid() && Enabled(world, Event.Report(which))
      modifies this
      ensures Valid() && world.pc == if crashed then Crashed else Idle
      ensures Course(history, kernel) == Before(old(history), From(old(world), Event.Report(which), old(kernel)))
    {
      hide Agrees, Filled, NoneFinished, Run, Play, ResultOk;
      Start(Event.Report(which));
      ghost var plan := Plan();
      var j := BG;
      while j < |jobs|
        invariant BG <= j && Valid() && world.pc == Watching(which, j, Head) && Plan() == plan
        decreases |jobs| - j
      {
        crashed := ReportSlot(j, which);
        if crashed {
          AtRest();
          return;
        }
        j := j + 1;
      }
      Interrupts();
      Proceed();
      AtRest();
      return false;
    }

    // ---- the end of the shell

    // One turn of the loop in shutdownjobs.
    method ShutdownSlot(j: nat) returns (waiting: bool)
      requires Valid() && world.pc == Leaving(j, false) && j < |jobs|
      modifies this
      ensures Valid() && Plan() == old(Plan()) && |jobs| == |old(jobs)|
      ensures waiting ==> kernel == [] && Asleep(world.pc)
      ensures !waiting ==> world.pc == Leaving(j + 1, false)
      ensures sent == old(sent) + if Live(old(jobs)[j]) then Kills(old(jobs)[j]) else []
      ensures NoSignal(old(kernel)) ==>
        jobs == old(jobs) && NoSignal(kernel) && (waiting <==> Live(old(jobs)[j]))
    {
      hide Agrees, Filled, Run, ResultOk, JobState, Play, Kills;
      LeavingPlace(world);
      if jobs[j].state != Finished {
        var _ := KillSlot(j);
        Proceed();
        var woken := Sigsuspend();
        return !woken;
      }
      assert sent + [] == sent;
      Proceed();
      return false;
    }

    // jobs.c:349-353
    method Leave()
      requires Valid() && world.pc.Leaving? && !world.pc.asleep && world.pc.j >= |jobs|
      modifies this
      ensures Valid() && Plan() == old(Plan()) && world.pc.Gone? && sent == old(sent)
    {
      hide Agrees, NoneFinished, Run, Play, ResultOk, JobState;
      WatchJobs(Only(Finished));
      Proceed();
    }

    // Every job there is gets SIGTERM in its turn, and a handler run is awaited for it.
    method ShutdownJobs() returns (waiting: bool, ghost told: seq<Job>)
      requires Valid() && Enabled(world, Quit)
      modifies this
      ensures sent == old(sent) + AllKills(told) && forall k :: 0 <= k < |told| ==> Live(told[k])
      ensures NoSignal(old(kernel)) ==>
        && (waiting <==> exists i :: BG <= i < |old(jobs)| && Live(old(jobs)[i]))
        && |told| == (if waiting then 1 else 0)
      ensures Valid() && (if waiting then kernel == [] && Asleep(world.pc) else world.pc.Gone?)
      ensures Course(history, kernel) == Before(old(history), From(old(world), Quit, old(kernel)))
    {
      hide Agrees, Filled, NoneFinished, Run, Play, ResultOk, JobState, AllKills, Kills, PcOk;
      NoneTold();
      QuitPlace(world);
      Start(Quit);
      ghost var plan := Plan();
      told := [];
      assert sent + [] == sent;
      var j := BG;
      while j < |jobs|
        invariant Valid() && BG <= j && world.pc == Leaving(j, false) && Plan() == plan
        invariant sent == old(sent) + AllKills(told) && forall k :: 0 <= k < |told| ==> Live(told[k])
        invariant NoSignal(old(kernel)) ==>
          && jobs == old(jobs) && NoSignal(kernel) && told == []
          && forall i :: BG <= i < j && i < |jobs| ==> !Live(jobs[i])
        decreases |jobs| - j
      {
        ghost var job := jobs[j];
        waiting := ShutdownSlot(j);
        if Live(job) {
          OneMore(told, job);
          told := told + [job];
        }
        if waiting {
          AtRest();
          return;
        }
        j := j + 1;
      }
      Leave();
      AtRest();
      return false, told;
    }
  }
}
