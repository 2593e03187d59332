// The job table of jobs.c as a value, and what each operation does to it.
module JobTable {
  import opened Options
  import opened Command

  const FG := 0
  const BG := 1

  const SIGTERM := 15
  const SIGCONT := 18

  // A signal to all processes of a group.
  datatype Kill = Kill(pgid: int, signo: int)

  datatype State = Finished | Running | Stopped

  // The four kinds of wait status the handler tells apart.
  datatype Status = Exited(code: int) | Signaled(signo: int) | StoppedBy(signo: int) | Continued

  // exitcode is None where the source keeps -1: no status received, or already reported.
  datatype Proc = Proc(pid: int, state: State, exitcode: Option<Status>)

  datatype Job = Job(pgid: int, procs: seq<Proc>, state: State, command: Option<string>)

  datatype Notice = Notice(pid: int, status: Status)

  datatype Which = All | Only(state: State)

  type Table = seq<Job>

  // A slot cleared by memset, or by deljob on a finished job.
  const FREE := Job(0, [], Finished, None)

  predicate Live(job: Job) { job.pgid != 0 }

  // ---- one job

  predicate Has(job: Job, pid: int) {
    Live(job) && exists k :: 0 <= k < |job.procs| && job.procs[k].pid == pid
  }

  // The state live processes agree on: running if any runs, else stopped if any is.
  function JobState(procs: seq<Proc>): State {
    if exists k :: 0 <= k < |procs| && procs[k].state == Running then Running
    else if exists k :: 0 <= k < |procs| && procs[k].state == Stopped then Stopped
    else Finished
  }

  // The index of the first process with the pid, or |procs|.
  function IndexOf(procs: seq<Proc>, pid: int): (k: nat)
    ensures k <= |procs|
    ensures k < |procs| ==> procs[k].pid == pid
    ensures forall i :: 0 <= i < k ==> procs[i].pid != pid
  {
    if procs == [] || procs[0].pid == pid then 0 else 1 + IndexOf(procs[1..], pid)
  }

  function After(status: Status): State {
    match status
    case Exited(_) => Finished
    case Signaled(_) => Finished
    case StoppedBy(_) => Stopped
    case Continued => Running
  }

  predicate Terminal(status: Status) { After(status) == Finished }

  lemma {:induction false} StatusTells(status: Status)
    ensures After(status) == Finished <==> status.Exited? || status.Signaled?
    ensures After(status) == Stopped <==> status.StoppedBy?
    ensures After(status) == Running <==> status.Continued?
  {
  }

  function NoteProc(p: Proc, status: Status): Proc {
    p.(state := After(status), exitcode := Some(status))
  }

  function NoteJob(job: Job, n: Notice): Job
    requires Has(job, n.pid)
  {
    var k := IndexOf(job.procs, n.pid);
    var procs := job.procs[k := NoteProc(job.procs[k], n.status)];
    job.(procs := procs, state := JobState(procs))
  }

  // ---- the handler

  // The first live slot that has the pid, or |t|.
  function SlotOf(t: Table, pid: int): (i: nat)
    ensures i <= |t|
    ensures i < |t| ==> Has(t[i], pid)
    ensures forall j :: 0 <= j < i ==> !Has(t[j], pid)
  {
    if t == [] || Has(t[0], pid) then 0 else 1 + SlotOf(t[1..], pid)
  }

  function Note(t: Table, n: Notice): (t': Table)
    ensures |t'| == |t|
  {
    var i := SlotOf(t, n.pid);
    if i == |t| then t else t[i := NoteJob(t[i], n)]
  }

  function Reap(t: Table, ns: seq<Notice>): (t': Table)
    ensures |t'| == |t|
    decreases ns
  {
    if ns == [] then t else Reap(Note(t, ns[0]), ns[1..])
  }

  predicate Watched(job: Job, which: Which) {
    Live(job) && (which == All || which == Only(job.state))
  }

  function ForgetLast(job: Job): Job {
    if job.procs == [] then job
    else job.(procs := job.procs[|job.procs| - 1 := job.procs[|job.procs| - 1].(exitcode := None)])
  }

  function LastCode(job: Job): Option<Status> {
    if job.procs == [] then None else job.procs[|job.procs| - 1].exitcode
  }

  // What watchjobs leaves of one background slot.
  function WatchJob(job: Job, which: Which): Job {
    if !Watched(job, which) then job
    else
      match job.state
      case Running => if LastCode(job) == Some(Continued) then job else ForgetLast(job)
      case Stopped => if LastCode(job) == None then job else ForgetLast(job)
      case Finished => FREE
  }

  // A report clears a slot or touches nothing but the exit code of the last process:
  // it forgets that of a stopped job, and of a running one unless it tells that the
  // job has been continued, which every report may tell again.
  lemma {:induction false} ReportTells(job: Job, which: Which)
    requires Live(job) && job.procs != []
    ensures var r := WatchJob(job, which); var asked := which == All || which == Only(job.state);
      && (!Live(r) <==> asked && job.state == Finished)
      && (Live(r) ==>
        && r == job.(procs := r.procs) && |r.procs| == |job.procs|
        && (forall k :: 0 <= k < |r.procs| - 1 ==> r.procs[k] == job.procs[k])
        && r.procs[|r.procs| - 1] == job.procs[|r.procs| - 1].(exitcode := LastCode(r))
        && LastCode(r) ==
           if asked && !(job.state == Running && LastCode(job) == Some(Continued)) then None else LastCode(job))
  {
  }

  function Watch(t: Table, which: Which): (t': Table)
    ensures |t'| == |t|
    ensures forall j :: 0 <= j < |t| ==> t'[j] == if j < BG then t[j] else WatchJob(t[j], which)
  {
    seq(|t|, j requires 0 <= j < |t| => if j < BG then t[j] else WatchJob(t[j], which))
  }

  function Handle(t: Table, ns: seq<Notice>): Table {
    Watch(Reap(t, ns), Only(Finished))
  }

  // ---- the main program

  // The lowest free background slot from j on, or |t|.
  function FreeSlot(t: Table, j: nat): (r: nat)
    requires j <= |t|
    ensures j <= r <= |t|
    ensures r < |t| ==> !Live(t[r])
    ensures forall i :: j <= i < r ==> Live(t[i])
    decreases |t| - j
  {
    if j == |t| || !Live(t[j]) then j else FreeSlot(t, j + 1)
  }

  function Grown(t: Table, j: nat): Table {
    if j == |t| then t + [FREE] else t
  }

  function NewJob(pgid: int): Job { Job(pgid, [], Running, None) }

  function AddedJob(t: Table, pgid: int, bg: bool): Table
    requires |t| >= 1
  {
    var j := if bg then FreeSlot(t, BG) else FG;
    Grown(t, j)[j := NewJob(pgid)]
  }

  function NewProc(pid: int): Proc { Proc(pid, Running, None) }

  function AddedProc(t: Table, j: nat, pid: int, argv: seq<string>): Table
    requires j < |t|
  {
    t[j := t[j].(procs := t[j].procs + [NewProc(pid)], command := Some(Extended(t[j].command, argv)))]
  }

  function Moved(t: Table, from: nat, to: nat): Table
    requires from < |t| && to < |t|
  {
    t[to := t[from]][from := FREE]
  }

  // killjob: a stopped job is continued, so that it can end.
  function Kills(job: Job): seq<Kill> {
    (if job.state == Stopped then [Kill(job.pgid, SIGCONT)] else []) + [Kill(job.pgid, SIGTERM)]
  }

  // The slot an argument of fg or bg selects: a negative one means the last
  // slot that is not finished.
  function Chosen(t: Table, j: int): (r: int)
    requires |t| >= 1
    ensures j >= 0 ==> r == j
    ensures j < 0 ==> 0 <= r < |t| && (r > 0 ==> t[r].state != Finished)
    ensures j < 0 ==> forall i :: r < i < |t| ==> t[i].state == Finished
  {
    if j < 0 then LastUnfinished(t, |t| - 1) else j
  }

  function LastUnfinished(t: Table, j: nat): (r: nat)
    requires j < |t|
    ensures r <= j
    ensures r > 0 ==> t[r].state != Finished
    ensures forall i :: r < i <= j ==> t[i].state == Finished
  {
    if j == 0 || t[j].state != Finished then j else LastUnfinished(t, j - 1)
  }
}
