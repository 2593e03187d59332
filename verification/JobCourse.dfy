// The course the main program takes through its loops, for any handler runs that
// come on the way.
module JobCourse {
  import opened Options
  import opened JobTable
  import opened JobNotices
  import opened JobLedger
  import opened JobRuns
  import opened JobSafety

  // What is still to come: handler runs, with what the kernel has for them, and
  // None where the main program gets on with its next step first.
  type Arrivals = seq<Option<seq<Notice>>>

  ghost predicate NoSignal(a: Arrivals) { forall k :: 0 <= k < |a| ==> a[k].None? }

  // ---- what the kernel can report

  // waitpid leaves out whatever would follow the terminal notice of a process
  // that is still in the table.
  function Reported(t: Table, ns: seq<Notice>): (r: seq<Notice>)
    decreases ns
  {
    if ns == [] then []
    else if LegalNotice(t, ns[0]) then [ns[0]] + Reported(Note(t, ns[0]), ns[1..])
    else Reported(t, ns[1..])
  }

  // Exactly the legal sequences are reported as they are, so nothing legal is
  // left out of the arrivals considered.
  lemma {:induction false} ReportedLegal(t: Table, ns: seq<Notice>)
    ensures Legal(t, Reported(t, ns))
    ensures Legal(t, ns) ==> Reported(t, ns) == ns
    decreases ns
  {
    if ns != [] {
      if LegalNotice(t, ns[0]) {
        var u := Note(t, ns[0]);
        ReportedLegal(u, ns[1..]);
        var r := Reported(t, ns);
        assert r[0] == ns[0] && r[1..] == Reported(u, ns[1..]);
      } else {
        ReportedLegal(t, ns[1..]);
      }
    }
  }

  // ---- the course

  ghost predicate InLoop(pc: Pc) { pc.Monitoring? || pc.Resuming? || pc.Watching? || pc.Leaving? }

  ghost predicate Asleep(pc: Pc) {
    (pc.Monitoring? && pc.at == Sleeping) || ((pc.Resuming? || pc.Leaving?) && pc.asleep)
  }

  // How many steps there can be before a suspension, or the end of the loops.
  ghost function Rank(w: World): nat {
    var n := if w.pc.Watching? || w.pc.Leaving? then (if w.pc.j < |w.t| then |w.t| - w.pc.j else 0) else 0;
    match w.pc
    case Resuming(_, _, _, asleep) => if asleep then 0 else 7
    case Monitoring(loop, at, _, _) =>
      if at == Sleeping then 0
      else (match loop case First => 5 case Second => 3 case After => 2) + if at == Testing then 1 else 0
    case Watching(_, _, look) =>
      4 * n + (match look case Head => 3 case Seen(_) => 2 case Using(_, _) => 1 case Writing(_) => 0)
    case Leaving(_, asleep) => if asleep then 0 else n + 1
    case _ => 0
  }

  lemma {:induction false} RankFalls(w: World)
    requires Inv(w) && Enabled(w, Test)
    ensures InLoop(w.pc) && Rank(Step(w, Test)) < Rank(w)
  {
    hide Agrees, Filled, NoneFinished, CodeKept, ResultOk, Holds;
  }

  // The steps to come, and the arrivals they leave.
  datatype Course = Course(events: seq<Event>, rest: Arrivals)

  ghost function Before(events: seq<Event>, c: Course): Course { Course(events + c.events, c.rest) }

  // What the handler run that comes first makes of w.
  ghost function Interruption(w: World, a: Arrivals): Event
    requires a != [] && a[0].Some?
  {
    Signal(Reported(w.t, a[0].value))
  }

  ghost predicate Interrupted(w: World, a: Arrivals) { Open(w.pc) && a != [] && a[0].Some? }

  // The arrivals after a step of the main program.
  function Later(a: Arrivals): Arrivals {
    if a != [] && a[0].None? then a[1..] else a
  }

  ghost function Handled(w: World, a: Arrivals): World
    requires Inv(w) && Interrupted(w, a)
  {
    ReportedLegal(w.t, a[0].value);
    Step(w, Interruption(w, a))
  }

  // Until the main program is out of its loops, or suspended with nothing to come.
  ghost function Play(w: World, a: Arrivals): Course
    requires Inv(w)
    decreases |a|, Rank(w)
  {
    if !InLoop(w.pc) || (Asleep(w.pc) && a == []) then Course([], a)
    else if Interrupted(w, a) then
      var e := Interruption(w, a);
      ReportedLegal(w.t, a[0].value);
      StepKeeps(w, e);
      Before([e], Play(Step(w, e), a[1..]))
    else if Asleep(w.pc) then Play(w, a[1..])
    else
      StepKeeps(w, Test);
      RankFalls(w);
      Before([Test], Play(Step(w, Test), Later(a)))
  }

  lemma {:induction false} PlaySignal(w: World, a: Arrivals)
    requires Inv(w) && InLoop(w.pc) && Interrupted(w, a)
    ensures var e := Interruption(w, a);
      && Enabled(w, e) && Inv(Step(w, e)) && Play(w, a) == Before([e], Play(Step(w, e), a[1..]))
  {
    hide Agrees, Filled, NoneFinished, PcOk;
    ReportedLegal(w.t, a[0].value);
    StepKeeps(w, Interruption(w, a));
  }

  // The course of a call that starts with e.
  ghost function From(w: World, e: Event, a: Arrivals): Course
    requires Inv(w) && Enabled(w, e)
  {
    StepKeeps(w, e);
    Before([e], Play(Step(w, e), a))
  }

  lemma {:induction false} PlayEnds(w: World, a: Arrivals)
    requires Inv(w) && (!InLoop(w.pc) || (Asleep(w.pc) && a == []))
    ensures Play(w, a) == Course([], a)
  {
  }

  lemma {:induction false} HandledTable(w: World, a: Arrivals)
    requires Inv(w) && Interrupted(w, a)
    ensures Populated(w.t) && Handled(w, a).t == Handle(w.t, Reported(w.t, a[0].value))
    ensures Handled(w, a).ids == w.ids && |Handled(w, a).t| == |w.t|
    ensures Handled(w, a).ledger == EndAll(w.ledger, Reported(w.t, a[0].value))
    ensures Handled(w, a).pc == Woken(w.pc)
  {
    hide Agrees, NoneFinished, PcOk, ResultOk;
  }

  lemma {:induction false} PlayTest(w: World, a: Arrivals)
    requires Inv(w) && Enabled(w, Test) && !Interrupted(w, a)
    ensures InLoop(w.pc) && Rank(Step(w, Test)) < Rank(w) && Inv(Step(w, Test))
    ensures Play(w, a) == Before([Test], Play(Step(w, Test), Later(a)))
  {
    hide Agrees, Filled, NoneFinished, PcOk;
    StepKeeps(w, Test);
    RankFalls(w);
  }

  // It is a run.
  lemma {:induction false} PlayRuns(w: World, a: Arrivals) returns (v: World)
    requires Inv(w)
    ensures Run(w, Play(w, a).events, v) && Inv(v)
    ensures !InLoop(v.pc) || (Asleep(v.pc) && Play(w, a).rest == [])
    decreases |a|, Rank(w)
  {
    hide Step, Enabled, Rank, Agrees, Filled, NoneFinished, PcOk, ResultOk;
    var c := Play(w, a);
    if !InLoop(w.pc) || (Asleep(w.pc) && a == []) {
      v := w;
    } else if Interrupted(w, a) {
      var e := Interruption(w, a);
      PlaySignal(w, a);
      v := PlayRuns(Step(w, e), a[1..]);
      assert c.events[0] == e && c.events[1..] == Play(Step(w, e), a[1..]).events;
    } else if Asleep(w.pc) {
      v := PlayRuns(w, a[1..]);
    } else {
      Moves(w);
      PlayTest(w, a);
      v := PlayRuns(Step(w, Test), Later(a));
      assert c.events[0] == Test && c.events[1..] == Play(Step(w, Test), Later(a)).events;
    }
  }

  lemma {:induction false} Moves(w: World)
    requires InLoop(w.pc)
    ensures Asleep(w.pc) <==> !Enabled(w, Test)
    ensures Asleep(w.pc) ==> Open(w.pc)
  {
  }

  // The arrivals of a run within the loops.
  ghost function Arrived(w: World, events: seq<Event>): Arrivals
    requires Inv(w) && Within(w, events)
    decreases |events|
  {
    if events == [] then []
    else
      var e := events[0];
      StepKeeps(w, e);
      var rest := Arrived(Step(w, e), events[1..]);
      [if e.Signal? then Some(e.notices) else None] + rest
  }

  // A run that stays within the loops until its end.
  ghost predicate Within(w: World, events: seq<Event>)
    requires Inv(w)
    decreases |events|
  {
    events != [] ==>
      && InLoop(w.pc) && Enabled(w, events[0])
      && (StepKeeps(w, events[0]); Within(Step(w, events[0]), events[1..]))
  }

  // Nothing is left out: every run through the loops is the course for some arrivals.
  lemma {:induction false} EveryCourse(w: World, events: seq<Event>, v: World)
    requires Inv(w) && Run(w, events, v) && Within(w, events) && (!InLoop(v.pc) || Asleep(v.pc))
    ensures Play(w, Arrived(w, events)) == Course(events, [])
    decreases |events|
  {
    hide Step, Rank, Agrees, Filled, NoneFinished, PcOk, ResultOk;
    if events != [] {
      var e := events[0];
      var a := Arrived(w, events);
      StepKeeps(w, e);
      var u := Step(w, e);
      EveryCourse(u, events[1..], v);
      assert events == [e] + events[1..];
      Moves(w);
      if e.Signal? {
        ReportedLegal(w.t, e.notices);
        assert a[0] == Some(e.notices) && a[1..] == Arrived(u, events[1..]);
        PlaySignal(w, a);
      } else {
        assert e == Test;
        assert a[0].None? && a[1..] == Arrived(u, events[1..]);
        PlayTest(w, a);
      }
    }
  }
}
