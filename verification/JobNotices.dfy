// What the SIGCHLD handler does with a stream of child notices does not depend
// on how the kernel batches the stream into handler runs, nor on how the
// notices of different processes are interleaved in it.
module JobNotices {
  import opened JobTable

  // ---- notices keep the pids of every slot

  ghost predicate SamePids(a: Job, b: Job) {
    && (Live(a) <==> Live(b)) && |a.procs| == |b.procs|
    && forall k :: 0 <= k < |a.procs| ==> a.procs[k].pid == b.procs[k].pid
  }

  lemma {:induction false} SameIndex(a: seq<Proc>, b: seq<Proc>, pid: int)
    requires |a| == |b| && forall k :: 0 <= k < |a| ==> a[k].pid == b[k].pid
    ensures IndexOf(a, pid) == IndexOf(b, pid)
  {
    if a != [] { SameIndex(a[1..], b[1..], pid); }
  }

  lemma {:induction false} IndexFound(job: Job, pid: int)
    requires Has(job, pid)
    ensures IndexOf(job.procs, pid) < |job.procs|
  {
  }

  lemma {:induction false} NotePids(job: Job, n: Notice)
    requires Has(job, n.pid)
    ensures SamePids(job, NoteJob(job, n))
  {
    IndexFound(job, n.pid);
  }

  lemma {:induction false} SameHas(a: Job, b: Job, pid: int)
    requires SamePids(a, b)
    ensures Has(a, pid) == Has(b, pid)
  {
    if Has(a, pid) { var k :| 0 <= k < |a.procs| && a.procs[k].pid == pid; assert b.procs[k].pid == pid; }
    if Has(b, pid) { var k :| 0 <= k < |b.procs| && b.procs[k].pid == pid; assert a.procs[k].pid == pid; }
  }

  ghost predicate SameTablePids(t: Table, u: Table) {
    |t| == |u| && forall i :: 0 <= i < |t| ==> SamePids(t[i], u[i])
  }

  lemma {:induction false} SameSlot(t: Table, u: Table, pid: int)
    requires SameTablePids(t, u)
    ensures SlotOf(t, pid) == SlotOf(u, pid)
  {
    var i, j := SlotOf(t, pid), SlotOf(u, pid);
    forall k | 0 <= k < |t| ensures Has(t[k], pid) == Has(u[k], pid) { SameHas(t[k], u[k], pid); }
  }

  lemma {:induction false} NoteTablePids(t: Table, n: Notice)
    ensures SameTablePids(t, Note(t, n))
  {
    var i := SlotOf(t, n.pid);
    if i < |t| { NotePids(t[i], n); }
  }

  // ---- notices for different processes commute

  lemma {:induction false} NoteJobCommutes(job: Job, m: Notice, n: Notice)
    requires m.pid != n.pid && Has(job, m.pid) && Has(job, n.pid)
    ensures Has(NoteJob(job, m), n.pid) && Has(NoteJob(job, n), m.pid)
    ensures NoteJob(NoteJob(job, m), n) == NoteJob(NoteJob(job, n), m)
  {
    NotePids(job, m);
    NotePids(job, n);
    var jm, jn := NoteJob(job, m), NoteJob(job, n);
    SameHas(job, jm, n.pid);
    SameHas(job, jn, m.pid);
    SameIndex(job.procs, jm.procs, n.pid);
    SameIndex(job.procs, jn.procs, m.pid);
    assert NoteJob(jm, n).procs == NoteJob(jn, m).procs;
  }

  lemma {:induction false} NotesCommute(t: Table, m: Notice, n: Notice)
    requires m.pid != n.pid
    ensures Note(Note(t, m), n) == Note(Note(t, n), m)
  {
    hide JobState, IndexOf, NoteProc, Has, NoteJob;
    NoteTablePids(t, m);
    NoteTablePids(t, n);
    SameSlot(t, Note(t, m), n.pid);
    SameSlot(t, Note(t, n), m.pid);
    var i := SlotOf(t, m.pid);
    if i < |t| && i == SlotOf(t, n.pid) {
      NoteJobCommutes(t[i], m, n);
      assert Note(Note(t, m), n) == t[i := NoteJob(NoteJob(t[i], m), n)];
      assert Note(Note(t, n), m) == t[i := NoteJob(NoteJob(t[i], n), m)];
    }
  }

  // The notices of one process, in order.
  ghost function Of(ns: seq<Notice>, pid: int): seq<Notice> {
    if ns == [] then []
    else if ns[0].pid == pid then [ns[0]] + Of(ns[1..], pid)
    else Of(ns[1..], pid)
  }

  lemma {:induction false} ReapConcat(t: Table, a: seq<Notice>, b: seq<Notice>)
    ensures Reap(t, a + b) == Reap(Reap(t, a), b)
    decreases a
  {
    if a == [] {
      assert a + b == b;
    } else {
      assert (a + b)[1..] == a[1..] + b;
      ReapConcat(Note(t, a[0]), a[1..], b);
    }
  }

  lemma {:induction false} OfConcat(a: seq<Notice>, b: seq<Notice>, pid: int)
    ensures Of(a + b, pid) == Of(a, pid) + Of(b, pid)
  {
    if a == [] {
      assert a + b == b;
    } else {
      assert (a + b)[1..] == a[1..] + b;
      OfConcat(a[1..], b, pid);
    }
  }

  // A notice may be brought forward past notices of other processes.
  lemma {:induction false} BringForward(t: Table, a: seq<Notice>, n: Notice)
    requires Of(a, n.pid) == []
    ensures Reap(t, a + [n]) == Reap(t, [n] + a)
    decreases a
  {
    if a == [] {
      assert a + [n] == [n] + a;
    } else {
      assert (a + [n])[1..] == a[1..] + [n] && (a + [n])[0] == a[0];
      assert ([n] + a)[1..] == a && ([n] + a[1..])[1..] == a[1..];
      BringForward(Note(t, a[0]), a[1..], n);
      NotesCommute(t, a[0], n);
      assert Reap(t, [n] + a) == Reap(Note(t, n), a);
      assert Reap(Note(t, a[0]), [n] + a[1..]) == Reap(Note(Note(t, a[0]), n), a[1..]);
    }
  }

  lemma {:induction false} FirstOf(ns: seq<Notice>, pid: int) returns (i: nat)
    requires Of(ns, pid) != []
    ensures i < |ns| && ns[i] == Of(ns, pid)[0] && ns[i].pid == pid && Of(ns[..i], pid) == []
    ensures Of(ns[i + 1..], pid) == Of(ns, pid)[1..]
  {
    if ns[0].pid == pid {
      i := 0;
    } else {
      var k := FirstOf(ns[1..], pid);
      i := k + 1;
      assert ns[..i] == [ns[0]] + ns[1..][..k];
      assert ns[i + 1..] == ns[1..][k + 1..];
    }
  }

  // ---- legal streams: nothing follows the terminal notice of a process

  predicate LegalNotice(t: Table, n: Notice) {
    forall i, k :: 0 <= i < |t| && 0 <= k < |t[i].procs| && Live(t[i]) && t[i].procs[k].pid == n.pid
      ==> t[i].procs[k].state != Finished
  }

  predicate Legal(t: Table, ns: seq<Notice>)
    decreases ns
  {
    ns == [] || (LegalNotice(t, ns[0]) && Legal(Note(t, ns[0]), ns[1..]))
  }

  lemma {:induction false} LegalConcat(t: Table, a: seq<Notice>, b: seq<Notice>)
    ensures Legal(t, a + b) <==> Legal(t, a) && Legal(Reap(t, a), b)
    decreases a
  {
    if a == [] {
      assert a + b == b;
    } else {
      assert (a + b)[1..] == a[1..] + b;
      LegalConcat(Note(t, a[0]), a[1..], b);
    }
  }

  // A notice changes no process with another pid.
  lemma {:induction false} OtherProcsKept(t: Table, m: Notice, i: nat, k: nat)
    requires i < |t| && k < |t[i].procs| && t[i].procs[k].pid != m.pid
    ensures var u := Note(t, m); |u[i].procs| == |t[i].procs| && u[i].procs[k] == t[i].procs[k]
  {
    NoteTablePids(t, m);
    if i == SlotOf(t, m.pid) { IndexFound(t[i], m.pid); }
  }

  lemma {:induction false} LegalUnaffected(t: Table, m: Notice, n: Notice)
    requires m.pid != n.pid
    ensures LegalNotice(Note(t, m), n) <==> LegalNotice(t, n)
  {
    NoteTablePids(t, m);
    var u := Note(t, m);
    forall i, k | 0 <= i < |t| && 0 <= k < |t[i].procs| && t[i].procs[k].pid == n.pid
      ensures SamePids(t[i], u[i]) && u[i].procs[k] == t[i].procs[k]
    {
      OtherProcsKept(t, m, i, k);
    }
    if LegalNotice(t, n) {
      forall i, k | 0 <= i < |u| && 0 <= k < |u[i].procs| && Live(u[i]) && u[i].procs[k].pid == n.pid
        ensures u[i].procs[k].state != Finished
      {
        assert SamePids(t[i], u[i]) && t[i].procs[k].pid == n.pid;
      }
    }
  }

  lemma {:induction false} LegalForward(t: Table, a: seq<Notice>, n: Notice)
    requires Of(a, n.pid) == []
    ensures Legal(t, a + [n]) <==> Legal(t, [n] + a)
    decreases a
  {
    if a == [] {
      assert a + [n] == [n] + a;
    } else {
      var m, b := a[0], a[1..];
      assert (a + [n])[1..] == b + [n] && (a + [n])[0] == m;
      assert ([n] + a)[1..] == a && ([n] + b)[1..] == b;
      LegalForward(Note(t, m), b, n);
      NotesCommute(t, m, n);
      LegalUnaffected(t, m, n);
      LegalUnaffected(t, n, m);
      assert Legal(t, [n] + a) <==> LegalNotice(t, n) && LegalNotice(Note(t, n), m) && Legal(Note(Note(t, n), m), b);
    }
  }

  // ---- any interleaving

  lemma {:induction false} DropFirst(ns: seq<Notice>, a: seq<Notice>, b: seq<Notice>, n: Notice, pid: int)
    requires ns != [] && ns[0] == n && Of(a, n.pid) == [] && Of(ns, pid) == Of((a + [n]) + b, pid)
    ensures Of(ns[1..], pid) == Of(a + b, pid)
  {
    OfConcat(a + [n], b, pid);
    OfConcat(a, [n], pid);
    OfConcat(a, b, pid);
    assert [n][1..] == [];
    assert Of([n], pid) == if n.pid == pid then [n] else [];
    if n.pid == pid {
      assert Of(ns, pid)[1..] == Of(ns[1..], pid);
      assert (Of(a, pid) + [n] + Of(b, pid))[1..] == Of(b, pid);
    }
  }

  lemma {:induction false} TakeForward(t: Table, a: seq<Notice>, n: Notice, b: seq<Notice>)
    requires Of(a, n.pid) == []
    ensures Reap(t, (a + [n]) + b) == Reap(Note(t, n), a + b)
    ensures Legal(t, (a + [n]) + b) <==> LegalNotice(t, n) && Legal(Note(t, n), a + b)
  {
    BringForward(t, a, n);
    LegalForward(t, a, n);
    ReapConcat(t, a + [n], b);
    LegalConcat(t, a + [n], b);
    var na := [n] + a;
    assert na != [] && na[0] == n && na[1..] == a;
    assert Reap(t, na) == Reap(Note(t, n), a);
    assert Legal(t, na) <==> LegalNotice(t, n) && Legal(Note(t, n), a);
    ReapConcat(Note(t, n), a, b);
    LegalConcat(Note(t, n), a, b);
  }

  // Two streams that agree on every process leave the same table, and are
  // legal together.
  lemma {:induction false} InterleavingIrrelevant(t: Table, ns: seq<Notice>, ms: seq<Notice>)
    requires forall pid :: Of(ns, pid) == Of(ms, pid)
    ensures Reap(t, ns) == Reap(t, ms)
    ensures Legal(t, ns) <==> Legal(t, ms)
    decreases |ns|
  {
    if ns == [] {
      if ms != [] { assert Of(ms, ms[0].pid) == Of(ns, ms[0].pid); }
    } else {
      var n := ns[0];
      assert Of(ms, n.pid) == Of(ns, n.pid);
      var i := FirstOf(ms, n.pid);
      var a, b := ms[..i], ms[i + 1..];
      assert ms == (a + [n]) + b;
      TakeForward(t, a, n, b);
      forall pid ensures Of(ns[1..], pid) == Of(a + b, pid) {
        assert Of(ns, pid) == Of(ms, pid);
        DropFirst(ns, a, b, n, pid);
      }
      InterleavingIrrelevant(Note(t, n), ns[1..], a + b);
    }
  }

  // ---- any batching

  // The invariant that makes cleaning up early harmless.
  predicate Coherent(t: Table) {
    forall i :: 0 <= i < |t| && Live(t[i]) && t[i].procs != [] ==> t[i].state == JobState(t[i].procs)
  }

  ghost function Cleaned(t: Table): Table { Watch(t, Only(Finished)) }

  ghost predicate Thinned(w: Table, u: Table) {
    |w| == |u| && forall i :: 0 <= i < |u| ==>
      w[i] == u[i] || (BG <= i && w[i] == FREE && Live(u[i]) && u[i].state == Finished)
  }

  lemma {:induction false} NoteCoherent(t: Table, n: Notice)
    requires Coherent(t)
    ensures Coherent(Note(t, n))
  {
    var i := SlotOf(t, n.pid);
    if i < |t| { NotePids(t[i], n); }
  }

  lemma {:induction false} ReapCoherent(t: Table, ns: seq<Notice>)
    requires Coherent(t)
    ensures Coherent(Reap(t, ns))
    decreases ns
  {
    if ns != [] {
      NoteCoherent(t, ns[0]);
      ReapCoherent(Note(t, ns[0]), ns[1..]);
    }
  }

  // A legal notice concerns no job that is finished.
  lemma {:induction false} LegalSkipsFinished(t: Table, n: Notice, i: nat)
    requires Coherent(t) && LegalNotice(t, n) && i < |t| && t[i].state == Finished
    ensures !Has(t[i], n.pid)
  {
  }

  lemma {:induction false} ThinnedSlot(w: Table, u: Table, n: Notice)
    requires Thinned(w, u) && Coherent(u) && LegalNotice(u, n)
    ensures SlotOf(w, n.pid) == SlotOf(u, n.pid)
    ensures Thinned(Note(w, n), Note(u, n))
    ensures LegalNotice(w, n)
  {
    forall i | 0 <= i < |u| ensures Has(w[i], n.pid) == Has(u[i], n.pid) {
      if u[i].state == Finished { LegalSkipsFinished(u, n, i); }
    }
    var i, j := SlotOf(w, n.pid), SlotOf(u, n.pid);
    if i < |w| { assert Has(u[i], n.pid); }
    if j < |u| { assert Has(w[j], n.pid); }
  }

  lemma {:induction false} LegalThinned(w: Table, u: Table, ns: seq<Notice>)
    requires Thinned(w, u) && Coherent(u) && Legal(u, ns)
    ensures Legal(w, ns) && Thinned(Reap(w, ns), Reap(u, ns))
    decreases ns
  {
    if ns != [] {
      ThinnedSlot(w, u, ns[0]);
      NoteCoherent(u, ns[0]);
      LegalThinned(Note(w, ns[0]), Note(u, ns[0]), ns[1..]);
    }
  }

  lemma {:induction false} CleanedEarly(t: Table, ns: seq<Notice>)
    requires Coherent(t) && Legal(t, ns)
    ensures Cleaned(Reap(Cleaned(t), ns)) == Cleaned(Reap(t, ns))
    ensures Legal(Cleaned(t), ns)
  {
    LegalThinned(Cleaned(t), t, ns);
    CleanedThinned(Reap(Cleaned(t), ns), Reap(t, ns));
  }

  lemma {:induction false} CleanedThinned(w: Table, u: Table)
    requires Thinned(w, u)
    ensures Cleaned(w) == Cleaned(u)
  {
    forall i | 0 <= i < |u| ensures Cleaned(w)[i] == Cleaned(u)[i] {}
  }

  // What several handler runs leave.
  ghost function HandlerRuns(t: Table, batches: seq<seq<Notice>>): Table
    decreases batches
  {
    if batches == [] then t else HandlerRuns(Handle(t, batches[0]), batches[1..])
  }

  ghost function Joined(batches: seq<seq<Notice>>): seq<Notice> {
    if batches == [] then [] else batches[0] + Joined(batches[1..])
  }

  // However the kernel splits a legal stream into handler runs, the table ends
  // up as if one run had seen all of it.
  lemma {:induction false} BatchingIrrelevant(t: Table, batches: seq<seq<Notice>>)
    requires batches != [] && Coherent(t) && Legal(t, Joined(batches))
    ensures HandlerRuns(t, batches) == Handle(t, Joined(batches))
    decreases |batches|
  {
    var b, rest := batches[0], batches[1..];
    ReapConcat(t, b, Joined(rest));
    LegalConcat(t, b, Joined(rest));
    ReapCoherent(t, b);
    if rest == [] {
      assert Joined(batches) == b;
    } else {
      CleanedEarly(Reap(t, b), Joined(rest));
      WatchCoherent(Reap(t, b), Only(Finished));
      BatchingIrrelevant(Handle(t, b), rest);
    }
  }

  lemma {:induction false} WatchCoherent(t: Table, which: Which)
    requires Coherent(t)
    ensures Coherent(Watch(t, which))
  {
    forall i | 0 <= i < |t| && Live(t[i]) && t[i].procs != []
      ensures JobState(ForgetLast(t[i]).procs) == JobState(t[i].procs)
    {
      SameStates(t[i].procs, ForgetLast(t[i]).procs);
    }
  }

  lemma {:induction false} SameStates(a: seq<Proc>, b: seq<Proc>)
    requires |a| == |b| && forall k :: 0 <= k < |a| ==> a[k].state == b[k].state
    ensures JobState(a) == JobState(b)
  {
    if k :| 0 <= k < |a| && a[k].state == Running { assert b[k].state == Running; }
    if k :| 0 <= k < |b| && b[k].state == Running { assert a[k].state == Running; }
    if k :| 0 <= k < |a| && a[k].state == Stopped { assert b[k].state == Stopped; }
    if k :| 0 <= k < |b| && b[k].state == Stopped { assert a[k].state == Stopped; }
  }

  // Both freedoms of the kernel together: only the notices of each process, in
  // their order, matter.
  lemma {:induction false} ScheduleIrrelevant(t: Table, a: seq<seq<Notice>>, b: seq<seq<Notice>>)
    requires a != [] && b != [] && Coherent(t) && Legal(t, Joined(a))
    requires forall pid :: Of(Joined(a), pid) == Of(Joined(b), pid)
    ensures HandlerRuns(t, a) == HandlerRuns(t, b)
  {
    InterleavingIrrelevant(t, Joined(a), Joined(b));
    BatchingIrrelevant(t, a);
    BatchingIrrelevant(t, b);
  }
}
