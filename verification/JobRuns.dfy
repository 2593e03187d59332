// Every run of the shell's job control: the main program's calls into jobs.c
// interleaved with SIGCHLD handler runs wherever the signal is not blocked.
module JobRuns {
  import opened Options
  import opened JobTable
  import opened JobNotices
  import opened JobLedger

  // Where monitorjob is: in the loop at jobs.c:287, in that at jobs.c:292, or about
  // to look at the job again at jobs.c:296.
  datatype Loop = First | Second | After

  // In a loop: about to test its condition, past a test that held, or suspended.
  datatype At = Testing | Nodding | Sleeping

  // In a turn of the loop in watchjobs: at its head, past the test of the pgid of job
  // id, past the comparison of the state read, or about to forget an exit code.
  datatype Look = Head | Seen(id: nat) | Using(id: nat, state: State) | Writing(id: nat)

  // Where the main program is.
  datatype Pc =
    | Idle
    | Building(j: nat, bg: bool)                                      // between addjob and the last addproc
    | Resuming(j: nat, bg: bool, id: nat, asleep: bool)               // the loop at jobs.c:199
    | Monitoring(loop: Loop, at: At, launched: bool, early: bool)     // jobs.c:280-297
    | Watching(which: Which, j: nat, look: Look)                      // watchjobs called with SIGCHLD open
    | Leaving(j: nat, asleep: bool)                                   // the loop at jobs.c:342
    | Gone
    | Stranded(id: nat)                                               // monitorjob left a running job in its slot
    | Crashed                                                         // watchjobs reached before an empty array

  // Where a handler can run: SIGCHLD is not blocked.
  ghost predicate Open(pc: Pc) {
    pc.Idle? || pc.Monitoring? || pc.Watching? || ((pc.Resuming? || pc.Leaving?) && pc.asleep)
  }

  // A handler run ends the suspension it comes in.
  ghost function Woken(pc: Pc): Pc {
    match pc
    case Resuming(j, bg, id, true) => Resuming(j, bg, id, false)
    case Monitoring(loop, Sleeping, launched, early) => Monitoring(loop, Testing, launched, early)
    case Leaving(j, true) => Leaving(j + 1, false)
    case _ => pc
  }

  // What one call of monitorjob returned for a job that finished: which job it was,
  // whether it had been launched in the foreground, and whether its last process
  // had ended early, before fg brought the job there.
  datatype Result = Result(id: nat, status: Option<Status>, launched: bool, early: bool)

  // sent is every signal the shell has sent so far.
  datatype World = World(t: Table, ids: seq<nat>, ledger: Ledger, pc: Pc, peak: nat, results: seq<Result>,
                         sent: seq<Kill>)

  datatype Event =
    | AddJob(pgid: int, bg: bool)
    | AddProcess(pid: int, argv: seq<string>)
    | Launch
    | Signal(notices: seq<Notice>)
    | Resume(arg: int, bg: bool)
    | Test
    | Report(which: Which)
    | Terminate(j: nat)
    | Quit

  // Live background jobs among the first n slots.
  ghost function Count(t: Table, n: nat): nat
    requires n <= |t|
  {
    if n <= BG then 0 else Count(t, n - 1) + if Live(t[n - 1]) then 1 else 0
  }

  ghost function Max(a: nat, b: nat): nat { if a < b then b else a }

  // A new table, with the largest number of live background jobs seen so far.
  ghost function With(w: World, t: Table, ids: seq<nat>, ledger: Ledger, pc: Pc): World {
    w.(t := t, ids := ids, ledger := ledger, pc := pc, peak := Max(w.peak, Count(t, |t|)))
  }

  // The last process of the pipeline has ended.
  predicate LastEnded(job: Job) {
    job.procs != [] && job.procs[|job.procs| - 1].state == Finished
  }

  // The last process has finished but its status has been reported away.
  ghost predicate Lost(job: Job) {
    LastEnded(job) && LastCode(job) == None
  }

  ghost predicate Enabled(w: World, e: Event) {
    match e
    case AddJob(pgid, _) => w.pc.Idle? && pgid != 0
    case AddProcess(pid, argv) =>
      && w.pc.Building? && argv != [] && !Recorded(w.t, pid)
      && w.pc.j < |w.t| && (w.t[w.pc.j].procs == [] ==> pid == w.t[w.pc.j].pgid)
    case Launch => w.pc.Building? && w.pc.j < |w.t| && w.t[w.pc.j].procs != []
    case Signal(ns) => Open(w.pc) && Legal(w.t, ns)
    case Resume(_, _) => w.pc.Idle?
    case Test =>
      || ((w.pc.Resuming? || w.pc.Leaving?) && !w.pc.asleep)
      || (w.pc.Monitoring? && w.pc.at != Sleeping) || w.pc.Watching?
    case Report(_) => w.pc.Idle?
    case Terminate(_) => w.pc.Idle?
    case Quit => w.pc.Idle?
  }

  // jobs.c:205-211
  ghost function Resumed(w: World, j: nat, bg: bool): World
    requires j < |w.t| == |w.ids|
  {
    var t := Watch(w.t, Only(Running));
    if bg then With(w, t, w.ids, w.ledger, Idle)
    else
      var pc := Monitoring(First, Testing, false, LastEnded(w.t[j]));
      With(w, Moved(t, j, FG), MovedIds(w.ids, j, FG), w.ledger, pc)
  }

  // jobs.c:299-305
  ghost function Suspended(w: World): World
    requires |w.t| == |w.ids| >= 1
  {
    var j := FreeSlot(w.t, BG);
    var t := Grown(w.t, j);
    var ids := if j == |w.t| then w.ids + [0] else w.ids;
    var t := t[j := t[j].(state := Stopped)];
    With(w, Watch(Moved(t, FG, j), Only(Stopped)), MovedIds(ids, FG, j), w.ledger, Idle)
  }

  // jobs.c:306-312
  ghost function Completed(w: World): World
    requires |w.t| == |w.ids| >= 1 && w.pc.Monitoring?
  {
    var r := Result(w.ids[FG], LastCode(w.t[FG]), w.pc.launched, w.pc.early);
    var w' := With(w, Watch(w.t, Only(Finished))[FG := FREE], w.ids, w.ledger, Idle);
    w'.(results := w.results + [r])
  }

  // What the steps need of a state in order to make sense.
  ghost predicate Shape(w: World) {
    && |w.t| == |w.ids| >= 1 && WellFormed(w.ledger)
    && (w.pc.Building? ==> w.pc.j < |w.t| && w.ids[w.pc.j] < |w.ledger|)
    && (w.pc.Resuming? ==> w.pc.j < |w.t|)
    && (w.pc.Watching? && !w.pc.look.Head? ==> w.pc.j < |w.t|)
  }

  ghost function Step(w: World, e: Event): World
    requires Shape(w) && Enabled(w, e)
  {
    match e
    case AddJob(pgid, bg) =>
      var j := if bg then FreeSlot(w.t, BG) else FG;
      var ids := if j == |w.t| then w.ids + [0] else w.ids;
      With(w, AddedJob(w.t, pgid, bg), ids[j := |w.ledger|], w.ledger + [Entry([], [], [])], Building(j, bg))
    case AddProcess(pid, argv) =>
      var j := w.pc.j;
      With(w, AddedProc(w.t, j, pid, argv), w.ids, Enrolled(w.ledger, w.ids[j], pid, argv), w.pc)
    case Launch => w.(pc := if w.pc.bg then Idle else Monitoring(First, Testing, true, LastEnded(w.t[FG])))
    case Signal(ns) => With(w, Handle(w.t, ns), w.ids, EndAll(w.ledger, ns), Woken(w.pc))
    case Resume(arg, bg) =>
      var j := Chosen(w.t, arg);
      if j >= |w.t| || w.t[j].state == Finished then w
      else if w.t[j].state == Stopped then w.(pc := Resuming(j, bg, w.ids[j], false))
      else Resumed(w, j, bg)
    case Test => Tested(w)
    case Report(which) => w.(pc := Watching(which, BG, Head))
    case Terminate(j) =>
      if j >= |w.t| || w.t[j].state == Finished then w else w.(sent := w.sent + Kills(w.t[j]))
    case Quit => w.(pc := Leaving(BG, false))
  }

  // The next step of the loop the main program is in.
  ghost function Tested(w: World): World
    requires Shape(w) && Enabled(w, Test)
  {
    match w.pc
    case Resuming(j, bg, id, _) =>
      if w.t[j].state == Running then Resumed(w, j, bg)
      else w.(pc := Resuming(j, bg, id, true), sent := w.sent + [Kill(w.t[j].pgid, SIGCONT)])
    case Monitoring(_, _, _, _) => Monitored(w)
    case Watching(_, _, _) => Looked(w)
    case Leaving(j, _) =>
      if j >= |w.t| then With(w, Watch(w.t, Only(Finished)), w.ids, w.ledger, Gone)
      else if w.t[j].state != Finished then w.(pc := Leaving(j, true), sent := w.sent + Kills(w.t[j]))
      else w.(pc := Leaving(j + 1, false))
    case _ => w
  }

  // What keeps monitorjob in a loop.
  ghost function Awaited(loop: Loop): State { if loop == First then Stopped else Running }

  ghost function Monitored(w: World): World
    requires Shape(w) && w.pc.Monitoring? && w.pc.at != Sleeping
  {
    var Monitoring(loop, at, launched, early) := w.pc;
    if at == Nodding then w.(pc := Monitoring(loop, Sleeping, launched, early))
    else if loop == After then
      (match w.t[FG].state
       case Stopped => Suspended(w)
       case Finished => Completed(w)
       case Running => w.(pc := Stranded(w.ids[FG])))
    else if w.t[FG].state == Awaited(loop) then
      w.(pc := Monitoring(loop, Nodding, launched, early),
         sent := if loop == First then w.sent + [Kill(w.t[FG].pgid, SIGCONT)] else w.sent)
    else w.(pc := Monitoring(if loop == First then Second else After, Testing, launched, early))
  }

  // watchjobs at the prompt, step by step: the handler can come between any two.
  ghost function Looked(w: World): World
    requires Shape(w) && w.pc.Watching?
  {
    var Watching(which, j, look) := w.pc;
    var next := Watching(which, j + 1, Head);
    match look
    case Head =>
      if j >= |w.t| then w.(pc := Idle)
      else if !Live(w.t[j]) then w.(pc := next)
      else w.(pc := Watching(which, j, Seen(w.ids[j])))
    case Seen(id) =>
      var state := w.t[j].state;
      w.(pc := if which == All || which == Only(state) then Watching(which, j, Using(id, state)) else next)
    case Using(id, state) =>
      if w.t[j].procs == [] then w.(pc := Crashed)
      else
        (match state
         case Running =>
           w.(pc := if LastCode(w.t[j]) == Some(Continued) then next else Watching(which, j, Writing(id)))
         case Stopped => w.(pc := if LastCode(w.t[j]) == None then next else Watching(which, j, Writing(id)))
         case Finished => With(w, w.t[j := FREE], w.ids, w.ledger, next))
    case Writing(_) =>
      if w.t[j].procs == [] then w.(pc := Crashed)
      else With(w, w.t[j := ForgetLast(w.t[j])], w.ids, w.ledger, next)
  }

  // ---- the invariant

  // The exit code kept for the last process of the foreground job.
  ghost predicate CodeKept(job: Job, e: Entry, early: bool) {
    && job.procs != [] && |e.ended| == |job.procs|
    && var k := |job.procs| - 1;
    && (early ==> k > 0 && job.procs[k].state == Finished)
    && (job.procs[k].state == Finished ==> job.procs[k].exitcode == if early then None else e.ended[k])
  }

  ghost predicate PcOk(w: World)
    requires |w.t| == |w.ids| >= 1
  {
    match w.pc
    case Building(j, bg) =>
      && j < |w.t| && Live(w.t[j]) && w.t[j].state == Running && (bg <==> j != FG) && (bg ==> !Live(w.t[FG]))
      && forall k :: 0 <= k < |w.t[j].procs| ==> w.t[j].procs[k].state == Running
    case Resuming(j, _, id, _) => BG <= j < |w.t| && !Live(w.t[FG]) && Holds(w, j, id)
    case Monitoring(loop, at, launched, early) =>
      && Live(w.t[FG]) && w.ids[FG] < |w.ledger| && CodeKept(w.t[FG], w.ledger[w.ids[FG]], early)
      && (launched ==> !early) && (loop == After ==> at == Testing)
    case Watching(which, j, look) =>
      && BG <= j && !Live(w.t[FG]) && (!look.Head? ==> j < |w.t| && Holds(w, j, look.id))
      && (look.Using? ==> (which == All || which == Only(look.state)) && (look.state == Finished ==> !Live(w.t[j])))
    case Leaving(j, _) => BG <= j && !Live(w.t[FG])
    case Stranded(id) => Live(w.t[FG]) && w.ids[FG] == id < |w.ledger| && w.t[FG].state == Running
    case _ => !Live(w.t[FG])
  }

  // Job id is in slot j and nowhere else, or in no slot any more.
  ghost predicate Holds(w: World, j: nat, id: nat)
    requires |w.t| == |w.ids|
  {
    id < |w.ledger| && forall i :: 0 <= i < |w.t| && Live(w.t[i]) ==> (w.ids[i] == id <==> i == j)
  }

  // monitorjob returned the terminal status of the job's last process, unless it
  // had ended before the job came to the foreground.
  ghost predicate ResultOk(r: Result, ledger: Ledger) {
    && r.id < |ledger| && WellFormed(ledger) && Over(ledger[r.id]) && ledger[r.id].ended != []
    && r.status == (if r.early then None else ledger[r.id].ended[|ledger[r.id].ended| - 1])
    && (r.early ==> !r.launched && |ledger[r.id].pids| > 1)
  }

  ghost predicate Filled(w: World) {
    forall i :: 0 <= i < |w.t| && Live(w.t[i]) ==> w.t[i].procs != [] || (w.pc.Building? && i == w.pc.j)
  }

  ghost predicate NoneFinished(t: Table) {
    forall i :: BG <= i < |t| && Live(t[i]) ==> t[i].state != Finished
  }

  ghost predicate Inv(w: World) {
    && Shape(w) && Agrees(w.t, w.ids, w.ledger) && PcOk(w) && Filled(w) && NoneFinished(w.t)
    && |w.t| == w.peak + 1
    && forall r :: 0 <= r < |w.results| ==> ResultOk(w.results[r], w.ledger)
  }

  ghost function Init(): World { World([FREE], [0], [], Idle, 0, [], []) }
}
