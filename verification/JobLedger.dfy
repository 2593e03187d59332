// The job table against the truth: a ledger of every job ever launched, which
// only the launching of processes and the kernel's terminal notices write.
module JobLedger {
  import opened Options
  import opened Command
  import opened JobTable
  import opened JobNotices

  // One entry per job: its processes in the order they were added, the words each
  // was started with, and the terminal status the kernel delivered for it, if any.
  datatype Entry = Entry(pids: seq<int>, stages: seq<seq<string>>, ended: seq<Option<Status>>)

  type Ledger = seq<Entry>

  ghost function EndProc(pid: int, ended: Option<Status>, n: Notice): Option<Status> {
    if pid == n.pid && ended.None? && Terminal(n.status) then Some(n.status) else ended
  }

  // The kernel's notice ends the process with its pid that has not ended yet.
  ghost function EndEntry(e: Entry, n: Notice): (r: Entry)
    requires |e.pids| == |e.ended|
  {
    e.(ended := seq(|e.pids|, k requires 0 <= k < |e.pids| => EndProc(e.pids[k], e.ended[k], n)))
  }

  ghost predicate WellFormed(ledger: Ledger) {
    forall d :: 0 <= d < |ledger| ==> |ledger[d].pids| == |ledger[d].ended|
  }

  ghost function EndOne(ledger: Ledger, n: Notice): (r: Ledger)
    requires WellFormed(ledger)
    ensures WellFormed(r) && |r| == |ledger|
  {
    seq(|ledger|, d requires 0 <= d < |ledger| => EndEntry(ledger[d], n))
  }

  ghost function EndAll(ledger: Ledger, ns: seq<Notice>): (r: Ledger)
    requires WellFormed(ledger)
    ensures WellFormed(r) && |r| == |ledger|
    decreases ns
  {
    if ns == [] then ledger else EndAll(EndOne(ledger, ns[0]), ns[1..])
  }

  ghost predicate Over(e: Entry) {
    forall k :: 0 <= k < |e.ended| ==> e.ended[k].Some?
  }

  // A process record agrees with the truth; its exit code may have been reported
  // and forgotten.
  ghost predicate ProcOk(p: Proc, pid: int, ended: Option<Status>) {
    && p.pid == pid && (p.state == Finished <==> ended.Some?)
    && (ended.Some? ==> Terminal(ended.value) && (p.exitcode == None || p.exitcode == ended))
  }

  ghost predicate JobOk(job: Job, e: Entry) {
    && |job.procs| == |e.pids| == |e.ended| && job.command == CommandText(e.stages)
    && (job.procs != [] ==> job.pgid == job.procs[0].pid)
    && forall k :: 0 <= k < |job.procs| ==> ProcOk(job.procs[k], e.pids[k], e.ended[k])
  }

  // Slot i holds the job that was launched as number ids[i].
  ghost predicate SlotsOk(t: Table, ids: seq<nat>, ledger: Ledger) {
    && |ids| == |t| >= 1 && WellFormed(ledger)
    && forall i :: 0 <= i < |t| ==>
      if Live(t[i]) then ids[i] < |ledger| && JobOk(t[i], ledger[ids[i]]) else t[i] == FREE
  }

  ghost predicate IdsDistinct(t: Table, ids: seq<nat>) {
    |ids| == |t| && forall i, j :: 0 <= i < j < |t| && Live(t[i]) && Live(t[j]) ==> ids[i] != ids[j]
  }

  ghost predicate PidsDistinct(t: Table) {
    forall i, k, j, l ::
      (0 <= i < |t| && 0 <= j < |t| && 0 <= k < |t[i].procs| && 0 <= l < |t[j].procs|
        && t[i].procs[k].pid == t[j].procs[l].pid)
      ==> i == j && k == l
  }

  ghost predicate Kept(t: Table, ids: seq<nat>, d: nat) {
    |ids| == |t| && exists i :: 0 <= i < |t| && Live(t[i]) && ids[i] == d
  }

  // Conservation: a launched job is in the table unless all its processes ended.
  ghost predicate Conserved(t: Table, ids: seq<nat>, ledger: Ledger) {
    forall d :: 0 <= d < |ledger| ==> Kept(t, ids, d) || Over(ledger[d])
  }

  ghost predicate Agrees(t: Table, ids: seq<nat>, ledger: Ledger) {
    && SlotsOk(t, ids, ledger) && IdsDistinct(t, ids) && PidsDistinct(t)
    && Conserved(t, ids, ledger) && Coherent(t)
  }

  // ---- one notice

  lemma {:induction false} NoteKeepsJob(t: Table, ids: seq<nat>, ledger: Ledger, n: Notice, i: nat)
    requires Agrees(t, ids, ledger) && LegalNotice(t, n) && i < |t| && Live(t[i])
    ensures Live(Note(t, n)[i]) && JobOk(Note(t, n)[i], EndOne(ledger, n)[ids[i]])
  {
    var u, e, f := Note(t, n), ledger[ids[i]], EndOne(ledger, n)[ids[i]];
    NoteTablePids(t, n);
    assert SamePids(t[i], u[i]);
    forall k | 0 <= k < |t[i].procs| ensures ProcOk(u[i].procs[k], f.pids[k], f.ended[k]) {
      assert ProcOk(t[i].procs[k], e.pids[k], e.ended[k]);
      if t[i].procs[k].pid == n.pid {
        NoteHits(t, n, i, k);
      } else {
        OtherProcsKept(t, n, i, k);
      }
    }
  }

  // With distinct pids the first match is the only one.
  lemma {:induction false} NoteHits(t: Table, n: Notice, i: nat, k: nat)
    requires PidsDistinct(t) && i < |t| && Live(t[i]) && k < |t[i].procs| && t[i].procs[k].pid == n.pid
    ensures var u := Note(t, n);
      |u[i].procs| == |t[i].procs| && u[i].procs[k] == NoteProc(t[i].procs[k], n.status)
  {
    assert Has(t[i], n.pid);
    var j := SlotOf(t, n.pid);
    IndexFound(t[j], n.pid);
    var l := IndexOf(t[j].procs, n.pid);
    assert t[j].procs[l].pid == t[i].procs[k].pid;
  }

  lemma {:induction false} NoteAgrees(t: Table, ids: seq<nat>, ledger: Ledger, n: Notice)
    requires Agrees(t, ids, ledger) && LegalNotice(t, n)
    ensures Agrees(Note(t, n), ids, EndOne(ledger, n))
  {
    var u := Note(t, n);
    NoteTablePids(t, n);
    NoteCoherent(t, n);
    forall i | 0 <= i < |t| ensures Live(u[i]) <==> Live(t[i]) { assert SamePids(t[i], u[i]); }
    forall i | 0 <= i < |t|
      ensures if Live(u[i]) then ids[i] < |ledger| && JobOk(u[i], EndOne(ledger, n)[ids[i]]) else u[i] == FREE
    {
      if Live(t[i]) { NoteKeepsJob(t, ids, ledger, n, i); }
    }
    forall i, k, j, l | 0 <= i < |u| && 0 <= j < |u| && 0 <= k < |u[i].procs| && 0 <= l < |u[j].procs|
      && u[i].procs[k].pid == u[j].procs[l].pid ensures i == j && k == l
    {
      assert SamePids(t[i], u[i]) && SamePids(t[j], u[j]);
      assert t[i].procs[k].pid == t[j].procs[l].pid;
    }
    NoteConserved(t, ids, ledger, n);
  }

  lemma {:induction false} NoteConserved(t: Table, ids: seq<nat>, ledger: Ledger, n: Notice)
    requires Conserved(t, ids, ledger) && WellFormed(ledger)
    ensures Conserved(Note(t, n), ids, EndOne(ledger, n))
  {
    NoteTablePids(t, n);
    forall d | 0 <= d < |ledger| ensures Kept(Note(t, n), ids, d) || Over(EndOne(ledger, n)[d]) {
      if Kept(t, ids, d) {
        var i :| 0 <= i < |t| && Live(t[i]) && ids[i] == d;
        assert SamePids(t[i], Note(t, n)[i]);
      }
    }
  }

  lemma {:induction false} ReapAgrees(t: Table, ids: seq<nat>, ledger: Ledger, ns: seq<Notice>)
    requires Agrees(t, ids, ledger) && Legal(t, ns)
    ensures Agrees(Reap(t, ns), ids, EndAll(ledger, ns))
    decreases ns
  {
    if ns != [] {
      NoteAgrees(t, ids, ledger, ns[0]);
      ReapAgrees(Note(t, ns[0]), ids, EndOne(ledger, ns[0]), ns[1..]);
    }
  }

  // ---- reporting and cleaning up

  // A finished job may be dropped: all its processes have ended.
  lemma {:induction false} FinishedIsOver(job: Job, e: Entry)
    requires JobOk(job, e) && job.procs != [] && JobState(job.procs) == Finished
    ensures Over(e)
  {
    forall k | 0 <= k < |e.ended| ensures e.ended[k].Some? {
      assert ProcOk(job.procs[k], e.pids[k], e.ended[k]);
      assert job.procs[k].state != Running && job.procs[k].state != Stopped;
    }
  }

  lemma {:induction false} WatchJobOk(job: Job, e: Entry, which: Which)
    requires Live(job) && JobOk(job, e) && job.procs != []
    ensures var r := WatchJob(job, which); Live(r) ==> JobOk(r, e)
  {
    var r := WatchJob(job, which);
    if Live(r) {
      forall k | 0 <= k < |r.procs| ensures ProcOk(r.procs[k], e.pids[k], e.ended[k]) {
        assert ProcOk(job.procs[k], e.pids[k], e.ended[k]);
      }
    }
  }

  ghost predicate Populated(t: Table) {
    forall i :: 0 <= i < |t| && Live(t[i]) ==> t[i].procs != []
  }

  lemma {:induction false} WatchSlotsOk(t: Table, ids: seq<nat>, ledger: Ledger, which: Which)
    requires SlotsOk(t, ids, ledger) && Populated(t)
    ensures SlotsOk(Watch(t, which), ids, ledger)
  {
    var u := Watch(t, which);
    forall i | 0 <= i < |t|
      ensures if Live(u[i]) then ids[i] < |ledger| && JobOk(u[i], ledger[ids[i]]) else u[i] == FREE
    {
      if Live(t[i]) { WatchJobOk(t[i], ledger[ids[i]], which); }
    }
  }

  lemma {:induction false} WatchPidsDistinct(t: Table, which: Which)
    requires PidsDistinct(t)
    ensures PidsDistinct(Watch(t, which))
  {
    var u := Watch(t, which);
    forall i, k, j, l | 0 <= i < |u| && 0 <= j < |u| && 0 <= k < |u[i].procs| && 0 <= l < |u[j].procs|
      && u[i].procs[k].pid == u[j].procs[l].pid ensures i == j && k == l
    {
      assert t[i].procs[k].pid == u[i].procs[k].pid && t[j].procs[l].pid == u[j].procs[l].pid;
    }
  }

  lemma {:induction false} WatchConserved(t: Table, ids: seq<nat>, ledger: Ledger, which: Which)
    requires SlotsOk(t, ids, ledger) && Conserved(t, ids, ledger) && Populated(t) && Coherent(t)
    ensures Conserved(Watch(t, which), ids, ledger)
  {
    var u := Watch(t, which);
    forall d | 0 <= d < |ledger| ensures Kept(u, ids, d) || Over(ledger[d]) {
      if Kept(t, ids, d) {
        var i :| 0 <= i < |t| && Live(t[i]) && ids[i] == d;
        if Live(u[i]) { assert ids[i] == d; } else { FinishedIsOver(t[i], ledger[d]); }
      }
    }
  }

  lemma {:induction false} WatchAgrees(t: Table, ids: seq<nat>, ledger: Ledger, which: Which)
    requires Agrees(t, ids, ledger) && Populated(t)
    ensures Agrees(Watch(t, which), ids, ledger) && Populated(Watch(t, which))
  {
    WatchCoherent(t, which);
    WatchSlotsOk(t, ids, ledger, which);
    WatchPidsDistinct(t, which);
    WatchConserved(t, ids, ledger, which);
  }

  // One exit code reported and forgotten.
  lemma {:induction false} ForgetAgrees(t: Table, ids: seq<nat>, ledger: Ledger, j: nat)
    requires Agrees(t, ids, ledger) && j < |t|
    ensures Agrees(t[j := ForgetLast(t[j])], ids, ledger)
  {
    hide JobState, CommandText, Terminal;
    var u := t[j := ForgetLast(t[j])];
    assert |u[j].procs| == |t[j].procs|;
    forall k | 0 <= k < |t[j].procs|
      ensures u[j].procs[k].pid == t[j].procs[k].pid && u[j].procs[k].state == t[j].procs[k].state {}
    if Live(t[j]) {
      var e := ledger[ids[j]];
      forall k | 0 <= k < |u[j].procs| ensures ProcOk(u[j].procs[k], e.pids[k], e.ended[k]) {
        assert ProcOk(t[j].procs[k], e.pids[k], e.ended[k]);
      }
    }
    ForgetPidsDistinct(t, j);
    forall d | 0 <= d < |ledger| ensures Kept(u, ids, d) || Over(ledger[d]) {
      if Kept(t, ids, d) {
        var i :| 0 <= i < |t| && Live(t[i]) && ids[i] == d;
        assert Live(u[i]);
      }
    }
    SameStates(t[j].procs, u[j].procs);
  }

  lemma {:induction false} ForgetPidsDistinct(t: Table, j: nat)
    requires PidsDistinct(t) && j < |t|
    ensures PidsDistinct(t[j := ForgetLast(t[j])])
  {
    var u := t[j := ForgetLast(t[j])];
    forall a, k, b, l | 0 <= a < |u| && 0 <= b < |u| && 0 <= k < |u[a].procs| && 0 <= l < |u[b].procs|
      && u[a].procs[k].pid == u[b].procs[l].pid ensures a == b && k == l
    {
      assert t[a].procs[k].pid == u[a].procs[k].pid && t[b].procs[l].pid == u[b].procs[l].pid;
    }
  }

  // ---- launching, moving and deleting

  lemma {:induction false} GrownAgrees(t: Table, ids: seq<nat>, ledger: Ledger, j: nat)
    requires Agrees(t, ids, ledger) && j == |t|
    ensures Agrees(Grown(t, j), ids + [0], ledger)
  {
    hide JobState, CommandText, Terminal, JobOk, Over;
    var u := Grown(t, j);
    forall d | 0 <= d < |ledger| ensures Kept(u, ids + [0], d) || Over(ledger[d]) {
      if Kept(t, ids, d) {
        var i :| 0 <= i < |t| && Live(t[i]) && ids[i] == d;
        assert Live(u[i]) && (ids + [0])[i] == d;
      }
    }
  }

  lemma {:induction false} NewJobAgrees(t: Table, ids: seq<nat>, ledger: Ledger, j: nat, pgid: int)
    requires Agrees(t, ids, ledger) && j < |t| && !Live(t[j]) && pgid != 0
    ensures Agrees(t[j := NewJob(pgid)], ids[j := |ledger|], ledger + [Entry([], [], [])])
  {
    hide JobState, Terminal, Over;
    var u, js, l := t[j := NewJob(pgid)], ids[j := |ledger|], ledger + [Entry([], [], [])];
    forall i, k, m, n | 0 <= i < |u| && 0 <= m < |u| && 0 <= k < |u[i].procs| && 0 <= n < |u[m].procs|
      && u[i].procs[k].pid == u[m].procs[n].pid ensures i == m && k == n
    {
      assert t[i].procs[k].pid == t[m].procs[n].pid;
    }
    JustOver();
    forall d | 0 <= d < |l| ensures Kept(u, js, d) || Over(l[d]) {
      if d < |ledger| && Kept(t, ids, d) {
        var i :| 0 <= i < |t| && Live(t[i]) && ids[i] == d;
        assert Live(u[i]) && js[i] == d;
      }
    }
  }

  lemma {:induction false} JustOver()
    ensures Over(Entry([], [], []))
  {
  }

  ghost predicate Recorded(t: Table, pid: int) {
    exists i, k :: 0 <= i < |t| && 0 <= k < |t[i].procs| && t[i].procs[k].pid == pid
  }

  ghost function Enrolled(ledger: Ledger, d: nat, pid: int, argv: seq<string>): Ledger
    requires d < |ledger|
  {
    ledger[d := Entry(ledger[d].pids + [pid], ledger[d].stages + [argv], ledger[d].ended + [None])]
  }

  lemma {:induction false} AddedProcJob(t: Table, ids: seq<nat>, ledger: Ledger, j: nat, pid: int, argv: seq<string>)
    requires SlotsOk(t, ids, ledger) && Coherent(t) && j < |t| && Live(t[j]) && t[j].state == Running && argv != []
    requires t[j].procs == [] ==> pid == t[j].pgid
    ensures var u := AddedProc(t, j, pid, argv);
      JobOk(u[j], Enrolled(ledger, ids[j], pid, argv)[ids[j]]) && JobState(u[j].procs) == Running
  {
    var u := AddedProc(t, j, pid, argv);
    assert u[j].procs[|t[j].procs|].state == Running;
    assert (ledger[ids[j]].stages + [argv])[..|ledger[ids[j]].stages|] == ledger[ids[j]].stages;
    var e, f := ledger[ids[j]], Enrolled(ledger, ids[j], pid, argv)[ids[j]];
    forall k | 0 <= k < |u[j].procs| ensures ProcOk(u[j].procs[k], f.pids[k], f.ended[k]) {
      if k < |t[j].procs| { assert ProcOk(t[j].procs[k], e.pids[k], e.ended[k]); }
    }
  }

  lemma {:induction false} AddedProcAgrees(t: Table, ids: seq<nat>, ledger: Ledger, j: nat, pid: int, argv: seq<string>)
    requires Agrees(t, ids, ledger) && j < |t| && Live(t[j]) && t[j].state == Running && argv != []
    requires !Recorded(t, pid) && (t[j].procs == [] ==> pid == t[j].pgid)
    ensures Agrees(AddedProc(t, j, pid, argv), ids, Enrolled(ledger, ids[j], pid, argv))
  {
    hide JobState, JobOk, PidsDistinct, Recorded, Extended;
    var u, l := AddedProc(t, j, pid, argv), Enrolled(ledger, ids[j], pid, argv);
    AddedProcJob(t, ids, ledger, j, pid, argv);
    forall i | 0 <= i < |t| && i != j && Live(t[i]) ensures l[ids[i]] == ledger[ids[i]] {}
    AddedPidsDistinct(t, j, pid, argv);
    forall d | 0 <= d < |l| ensures Kept(u, ids, d) || Over(l[d]) {
      if Kept(t, ids, d) {
        var i :| 0 <= i < |t| && Live(t[i]) && ids[i] == d;
        assert Live(u[i]);
      } else {
        assert d != ids[j];
      }
    }
  }

  lemma {:induction false} AddedPidsDistinct(t: Table, j: nat, pid: int, argv: seq<string>)
    requires PidsDistinct(t) && j < |t| && argv != [] && !Recorded(t, pid)
    ensures PidsDistinct(AddedProc(t, j, pid, argv))
  {
    var u, n := AddedProc(t, j, pid, argv), |t[j].procs|;
    forall a, k, b, l | 0 <= a < |u| && 0 <= b < |u| && 0 <= k < |u[a].procs| && 0 <= l < |u[b].procs|
      && u[a].procs[k].pid == u[b].procs[l].pid ensures a == b && k == l
    {
      if !(a == j && k == n) { assert u[a].procs[k] == t[a].procs[k]; }
      if !(b == j && l == n) { assert u[b].procs[l] == t[b].procs[l]; }
    }
  }

  ghost function MovedIds(ids: seq<nat>, from: nat, to: nat): seq<nat>
    requires from < |ids| && to < |ids|
  {
    ids[to := ids[from]]
  }

  lemma {:induction false} MovedPidsDistinct(t: Table, from: nat, to: nat)
    requires PidsDistinct(t) && from < |t| && to < |t| && from != to
    ensures PidsDistinct(Moved(t, from, to))
  {
    var u := Moved(t, from, to);
    forall i | 0 <= i < |t| ensures u[i] == (if i == from then FREE else if i == to then t[from] else t[i]) {}
    forall i, k, j, l | 0 <= i < |u| && 0 <= j < |u| && 0 <= k < |u[i].procs| && 0 <= l < |u[j].procs|
      && u[i].procs[k].pid == u[j].procs[l].pid ensures i == j && k == l
    {
      var x, y := if i == to then from else i, if j == to then from else j;
      assert t[x].procs[k].pid == t[y].procs[l].pid;
    }
  }

  lemma {:induction false} MovedAgrees(t: Table, ids: seq<nat>, ledger: Ledger, from: nat, to: nat)
    requires Agrees(t, ids, ledger) && from < |t| && to < |t| && from != to && !Live(t[to])
    ensures Agrees(Moved(t, from, to), MovedIds(ids, from, to), ledger)
  {
    hide JobState, CommandText, Terminal, PidsDistinct, JobOk, Over;
    var u, js := Moved(t, from, to), MovedIds(ids, from, to);
    MovedPidsDistinct(t, from, to);
    forall d | 0 <= d < |ledger| ensures Kept(u, js, d) || Over(ledger[d]) {
      if Kept(t, ids, d) {
        var i :| 0 <= i < |t| && Live(t[i]) && ids[i] == d;
        var x := if i == from then to else i;
        assert Live(u[x]) && js[x] == d;
      }
    }
  }

  lemma {:induction false} DeletedAgrees(t: Table, ids: seq<nat>, ledger: Ledger, j: nat)
    requires Agrees(t, ids, ledger) && j < |t| && Live(t[j]) && t[j].procs != [] && t[j].state == Finished
    ensures Agrees(t[j := FREE], ids, ledger)
  {
    var u := t[j := FREE];
    forall d | 0 <= d < |ledger| ensures Kept(u, ids, d) || Over(ledger[d]) {
      if Kept(t, ids, d) {
        var i :| 0 <= i < |t| && Live(t[i]) && ids[i] == d;
        if i == j { FinishedIsOver(t[j], ledger[d]); } else { assert Live(u[i]); }
      }
    }
  }
}
