/**
 * Runs, from the empty registry, that lead to an event that is handled twice: the first process
 * traces the second, is blocked in a wait for it, and is killed. The second forks, or leaves a
 * system call, before the first is seen to be dead.
 */
module PtraceTwiceRuns {
  import opened Wrappers
  import opened PtraceState
  import opened PtraceEmulation
  import opened PtraceConservation
  import opened PtraceWakeups
  import opened PtraceTwice
  import opened PtraceLostWakeup

  // ----- Requests and events -----

  /** 0 asks to be told of forks of 1. */
  lemma AsksForForks(r0: Record, r1: Record, r2: Record, x: Record, r: Record)
    requires Chain(r0, r1, r2) && r0.asPtracee == Untraced() && r0.inSysexit && r0.asPtracer.waitPid == 0 && r0.running
    requires !r1.running && x == r1.(asPtracee := r1.asPtracee.(options := {TraceFork})) && r == r0.(inSysexit := false)
    ensures Leads(Three(r0, r1, r2), Input(9, 1, SyscallStop, K(map[0 := PtraceCall(SetOptions(2, {TraceFork}, false))], {})),
                  Three(r, x, r2))
  {
    hide Stop, With, Three, Leads, ExitStage, Subject, GetPtracee;
    var k, h := K(map[0 := PtraceCall(SetOptions(2, {TraceFork}, false))], {}), r0.(running := false);
    Finds0(h, r1, r2);
    OptionsStage(Three(h, r1, r2), 0, 1, 2, k);
    Changed(h, r1, r2, x);
    Leaves0(r0, r1, r2, h, k, h, x, r);
  }

  lemma OptionsStage<Id>(s: State<Id>, p: Id, t: Id, pid: int, k: Kernel<Id>)
    requires p in s.recs && t in s.recs && Ordered(s) && Subject(s, p, pid) == Some(t)
    requires CallOf(k, p) == PtraceCall(SetOptions(pid, {TraceFork}, false))
    ensures var q := s.recs[t]; ExitStage(s, p, k) == With(s, t, q.(asPtracee := q.asPtracee.(options := {TraceFork})))
  {
    hide Subject;
  }

  /** 0 lets 1 go on, which is at the entry of a system call. */
  lemma ResumesEntry(r0: Record, r1: Record, r2: Record, x: Record, r: Record)
    requires Chain(r0, r1, r2) && r0.asPtracee == Untraced() && r0.inSysexit && r0.asPtracer.waitPid == 0 && r0.running
    requires !r1.running && !r1.inSysexit && r1.asPtracer.waitPid == 0 && r1.asPtracee.proot == EventSlot(SyscallStop, true)
    requires !r1.asPtracee.ignoreSyscalls
    requires x == r1.(running := true, inSysexit := true, asPtracee := r1.asPtracee.(proot := EventSlot(SyscallStop, false)))
    requires r == r0.(inSysexit := false)
    ensures Leads(Three(r0, r1, r2), Input(9, 1, SyscallStop, K(map[0 := PtraceCall(Resume(2, Some(false)))], {1})), Three(r, x, r2))
  {
    hide Stop, With, Three, Leads, ExitStage, Subject, GetPtracee;
    var k, h := K(map[0 := PtraceCall(Resume(2, Some(false)))], {1}), r0.(running := false);
    Finds0(h, r1, r2);
    ResumeEntryStage(Three(h, r1, r2), 0, 1, 2, k, x);
    Changed(h, r1, r2, x);
    Leaves0(r0, r1, r2, h, k, h, x, r);
  }

  lemma ResumeEntryStage<Id>(s: State<Id>, p: Id, t: Id, pid: int, k: Kernel<Id>, r: Tracee<Id>)
    requires p in s.recs && t in s.recs && Ordered(s) && Subject(s, p, pid) == Some(t) && AsTracer(s, t).waitPid == 0
    requires t !in k.dead && CallOf(k, p) == PtraceCall(Resume(pid, Some(false))) && CallOf(k, t) == OtherCall && t in k.entered
    requires var e := s.recs[t].asPtracee; e.proot == EventSlot(SyscallStop, true) && !e.ignoreSyscalls
    requires var q := s.recs[t];
             r == q.(running := true, inSysexit := true, asPtracee := q.asPtracee.(proot := EventSlot(SyscallStop, false)))
    ensures ExitStage(s, p, k) == With(s, t, r)
  {
    var q := s.recs[t];
    var b := q.(inSysexit := true, asPtracee := Cleared(q.asPtracee));
    ResumeProceeds(s, p, t, pid, false, k);
    SameRecord(s, t);
    assert q.(asPtracee := q.asPtracee.(ignoreSyscalls := false)) == q;
    QuietEntry(s, t, k);
    assert Proceed(s, t, k) == Restart(QuietEvent(s, t, SyscallStop, k), t, k).0 by { hide QuietEvent, Restart; }
    Restarted(s, t, b, k);
    hide Proceed, QuietEvent, Restart, With, ExitStage, Subject;
  }

  /** 1 enters a system call that 0 sees and waits for: 0 goes on, 1 is kept stopped. */
  lemma EntersSeen(r0: Record, r1: Record, r2: Record, x: Record, r: Record)
    requires Chain(r0, r1, r2) && r0.asPtracer.waitPid == 2 && r0.asPtracer.waitOptions == ANY && r1.parent.None?
    requires r1.asPtracee.tracingStarted && !r1.asPtracee.ignoreSyscalls && r1.asPtracee.options == {} && !r1.inSysexit
    requires x == r1.(running := false, asPtracee := r1.asPtracee.(proot := EventSlot(SyscallStop, true),
                                                                   event := EventSlot(SignalStop(SIGTRAP), false)))
    requires r == r0.(running := true, asPtracer := r0.asPtracer.(waitPid := 0))
    ensures Leads(Three(r0, r1, r2), Input(9, 2, SyscallStop, K(map[], {})), Three(r, x, r2))
  {
    hide Stop, With, Three, Leads;
    var k := K(map[], {});
    SeenEntry(Three(r0, r1, r2), 1, 0, k, x, r);
    Changed(r0, r1, r2, x);
    Changed(r0, x, r2, r);
    TurnOf(r0, r1, r2, 1, SyscallStop, k, Three(r, x, r2));
  }

  lemma SeenEntry<Id>(s: State<Id>, t: Id, p: Id, k: Kernel<Id>, x: Tracee<Id>, r: Tracee<Id>)
    requires t in s.recs && p in s.recs && Ordered(s) && Ptracer(s, t) == Some(p) && p != t && Awaited(s, t, p)
    requires p !in k.dead && p !in k.faulty && t !in k.loading && s.recs[t].parent.None? && !s.recs[t].inSysexit
    requires var e := s.recs[t].asPtracee; e.tracingStarted && !e.ignoreSyscalls && TraceSysgood !in e.options
    requires var q := s.recs[t];
             x == q.(running := false, asPtracee := q.asPtracee.(proot := EventSlot(SyscallStop, true),
                                                                 event := EventSlot(SignalStop(SIGTRAP), false)))
    requires r == s.recs[p].(running := true, asPtracer := s.recs[p].asPtracer.(waitPid := 0))
    ensures Stop(s, t, SyscallStop, k) == With(With(s, t, x), p, r)
  {
    var q := s.recs[t];
    var b := q.(running := false, asPtracee := q.asPtracee.(proot := EventSlot(SyscallStop, true)));
    EntryIsShown(q, t in k.loading);
    SlottedIs(s, t);
    hide PassOn, Tell, PtraceeEvent, Stop, TraceeEvent, Restart, Sift, Begun, Awaited, IsTold;
    PassesOn(With(s, t, b), t, p, SyscallStop, SignalStop(SIGTRAP), k);
    WakesWaiter(s, t, p, b, SignalStop(SIGTRAP), k, x, r);
    ToldIs(s, t, p, SyscallStop, k);
    StopIs(s, t, p, SyscallStop, k);
    BegunIsSlotted(s, t);
    hide With;
  }

  lemma EntryIsShown<Id>(r: Tracee<Id>, loading: bool)
    requires var e := r.asPtracee; e.tracingStarted && !e.ignoreSyscalls && TraceSysgood !in e.options && !r.inSysexit && !loading
    ensures IsTold(r, SyscallStop, loading) && Sift(r, SyscallStop, loading) == Shown(SignalStop(SIGTRAP), false, false)
  {}

  lemma SlottedIs<Id>(s: State<Id>, t: Id)
    requires t in s.recs
    ensures var q := s.recs[t];
            Slotted(s, t, SyscallStop) ==
            With(s, t, q.(running := false, asPtracee := q.asPtracee.(proot := EventSlot(SyscallStop, true))))
  {
    var q := s.recs[t];
    WithTwice(s, t, q.(running := false), q.(running := false, asPtracee := q.asPtracee.(proot := EventSlot(SyscallStop, true))));
  }

  lemma PassesOn<Id>(s: State<Id>, t: Id, p: Id, ev: Event, shown: Event, k: Kernel<Id>)
    requires t in s.recs && p in s.recs && Ordered(s) && Ptracer(s, t) == Some(p)
    ensures PassOn(s, t, p, ev, shown, false, k) == Tell(s, t, p, shown, k)
  {
    hide Tell;
  }

  lemma WakesWaiter<Id>(s: State<Id>, t: Id, p: Id, b: Tracee<Id>, shown: Event, k: Kernel<Id>, x: Tracee<Id>, r: Tracee<Id>)
    requires t in s.recs && p in s.recs && b.asPtracee.ptracer == Some(p) && p != t && Awaited(s, t, p)
    requires b.pid == s.recs[t].pid && b.clone == s.recs[t].clone && b.parent.None? && !shown.IsDeath()
    requires p !in k.dead && p !in k.faulty && x == b.(asPtracee := b.asPtracee.(event := EventSlot(shown, false)))
    requires r == s.recs[p].(running := true, asPtracer := s.recs[p].asPtracer.(waitPid := 0))
    ensures Tell(With(s, t, b), t, p, shown, k) == (With(With(s, t, x), p, r), true)
  {
    var c := b.(asPtracee := b.asPtracee.(event := EventSlot(shown, true)));
    WithTwice(s, t, b, c);
    StillAwaited(s, t, p, c);
    WakeIs(s, t, p, c, k, x, r);
    hide Wake, Awaited;
    assert Notified(With(s, t, b), t, shown) == With(s, t, c);
    hide With;
  }

  lemma StillAwaited<Id>(s: State<Id>, t: Id, p: Id, c: Tracee<Id>)
    requires t in s.recs && p in s.recs && p != t && c.pid == s.recs[t].pid && c.clone == s.recs[t].clone
    ensures Awaited(With(s, t, c), t, p) <==> Awaited(s, t, p)
  {}

  lemma WakeIs<Id>(s: State<Id>, t: Id, p: Id, c: Tracee<Id>, k: Kernel<Id>, x: Tracee<Id>, r: Tracee<Id>)
    requires t in s.recs && p in s.recs && c.asPtracee.ptracer == Some(p) && p != t && c.pid == s.recs[t].pid && c.parent.None?
    requires p !in k.dead && p !in k.faulty && x == c.(asPtracee := c.asPtracee.(event := c.asPtracee.event.(pending := false)))
    requires r == s.recs[p].(running := true, asPtracer := s.recs[p].asPtracer.(waitPid := 0))
    ensures Wake(With(s, t, c), t, p, k) == (With(With(s, t, x), p, r), true)
  {
    var s3 := With(s, t, x);
    var d := s.recs[p].(asPtracer := s.recs[p].asPtracer.(waitPid := 0));
    ReadIs(s, t, p, c, k, x);
    WithTwice(s3, p, d, r);
    hide ReadTracee;
    assert SetPtracer(s3, p, d.asPtracer) == With(s3, p, d) && s3.recs[p] == s.recs[p];
    hide With, SetPtracer;
  }

  lemma ReadIs<Id>(s: State<Id>, t: Id, p: Id, c: Tracee<Id>, k: Kernel<Id>, x: Tracee<Id>)
    requires t in s.recs && p in s.recs && c.asPtracee.ptracer == Some(p) && p != t && c.pid == s.recs[t].pid && c.parent.None?
    requires p !in k.faulty && x == c.(asPtracee := c.asPtracee.(event := c.asPtracee.event.(pending := false)))
    ensures ReadTracee(With(s, t, c), p, t, k).0 == With(s, t, x)
  {
    WithTwice(s, t, c, x);
  }

  // ----- A fork -----

  /** Stopped, and its signal read; then let go on, and to tell of forks; then in clone(2). */
  function F1(): Record { X3(true).(asPtracee := X3(true).asPtracee.(options := {TraceFork})) }

  function F2(): Record {
    F1().(running := true, asPtracee := F1().asPtracee.(ignoreSyscalls := true, proot := EventSlot(SignalStop(SIGUSR1), false)))
  }

  function F3(): Record {
    F2().(inSysexit := true, asPtracee := F2().asPtracee.(proot := EventSlot(SyscallStop, false)))
  }

  lemma IsAskedForForks(s': State<nat>)
    requires Reaches(Three(P1(), F2(), Y1()), s')
    ensures Reaches(Three(P1(), X3(true), Y1()), s')
  {
    hide Leads, Reaches, Three;
    var p, y := P1().(inSysexit := true), Y1();
    Enters0(P1(), X3(true), y, p);
    AsksForForks(p, X3(true), y, F1(), P1());
    Enters0(P1(), F1(), y, p);
    Resumes(p, F1(), y, F2(), P1(), true);
    Then(Three(p, F1(), y), Input(9, 1, SyscallStop, K(map[0 := PtraceCall(Resume(2, Some(true)))], {})), Three(P1(), F2(), y), s');
    Then(Three(P1(), F1(), y), Input(9, 1, SyscallStop, K(map[], {0})), Three(p, F1(), y), s');
    Then(Three(p, X3(true), y), Input(9, 1, SyscallStop, K(map[0 := PtraceCall(SetOptions(2, {TraceFork}, false))], {})),
         Three(P1(), F1(), y), s');
    Then(Three(P1(), X3(true), y), Input(9, 1, SyscallStop, K(map[], {0})), Three(p, X3(true), y), s');
  }

  /** 0 waits for 1, and is blocked. */
  lemma Waits(x: Record, s': State<nat>)
    requires Chain(P1(), x, Y1()) && x.running && Reaches(Three(P2(), x, Y1()), s')
    ensures Reaches(Three(P1(), x, Y1()), s')
  {
    hide Leads, Reaches, Three;
    var p, y := P1().(inSysexit := true, asPtracer := P1().asPtracer.(waitsIn := WaitsInProot)), Y1();
    EntersWait0(P1(), x, y, p);
    Blocks0(p, x, y, P2());
    Then(Three(p, x, y), Input(9, 1, SyscallStop, K(map[0 := WaitCall(2, ANY)], {})), Three(P2(), x, y), s');
    Then(Three(P1(), x, y), Input(9, 1, SyscallStop, K(map[0 := WaitCall(2, ANY)], {0})), Three(p, x, y), s');
  }

  function Forking(): State<nat> { Three(P2(), F3(), Y1()) }

  /** The child is a new process; 0 is dead. */
  function ForkInput(): Input<nat> {
    Input(9, 2, ForkStop, Kernel(map[], map[1 := Birth(8, 4, TraceFork, false, false, false)], {}, {}, {}, {}, {0}))
  }

  lemma ForkIsReached()
    ensures Reaches(Start(), Forking())
  {
    hide Leads, Reaches, Three;
    var s' := Forking();
    ReachesItself(s');
    Enters1(P2(), F2(), Y1(), F3());
    Then(Three(P2(), F2(), Y1()), Input(9, 2, SyscallStop, K(map[], {1})), s', s');
    Waits(F2(), s');
    IsAskedForForks(s');
    StopsForSignal(true, s');
    TheyAttach(s');
    AreBorn(s');
  }

  /**
   * The tracer stops for good: there is a run, of a truthful kernel, after which a fork event,
   * the first of the child, has the assertion of new_child() fail.
   */
  lemma ForkAborts()
    ensures Reaches(Start(), Forking())
    ensures var s, i := Forking(), ForkInput();
            && Ready(s, i) && FairTurn(s, i) && TruthfulTurn(s, i) && Handled(s, i) == (s, 1)
            && Unused(s, 8, 4) && (var (s1, c) := GetTracee(s, 8, 4); Adoptable(s1, c))
            && AbortsAgain(s, 1, ForkStop, i.kernel)
  {
    hide *;
    ForkIsReached();
    ForkTurn();
    ForkIsInOrder();
    ForkFails();
  }

  lemma ForkTurn()
    ensures var s, i := Forking(), ForkInput();
            Ready(s, i) && FairTurn(s, i) && TruthfulTurn(s, i) && Handled(s, i) == (s, 1)
  {
    hide Three, ForksInOrder, Handled, FairTurn, TruthfulTurn, Adoptable, GetTracee;
    ForkIsInOrder();
    LateTurn(P2(), F3(), Y1(), ForkStop, ForkInput().kernel);
  }

  lemma ForkFails()
    ensures AbortsAgain(Forking(), 1, ForkStop, ForkInput().kernel)
  {
    hide *;
    ForkIsReached();
    ReachedIsSound(Forking());
    ForkIsInOrder();
    ForkIsFirst();
    ForkAbortsIff(Forking(), 1, ForkStop, ForkInput().kernel);
  }

  /** A turn of 1, whatever is dead. */
  lemma LateTurn(r0: Record, r1: Record, r2: Record, ev: Event, k: Kernel<nat>)
    requires Pids(r0, r1, r2) && !ev.IsDeath() && BirthsNamed(k) && Orderly(Three(r0, r1, r2), 1, ev, k)
    ensures var s, i := Three(r0, r1, r2), Input(9, 2, ev, k);
            Ready(s, i) && FairTurn(s, i) && TruthfulTurn(s, i) && Handled(s, i) == (s, 1)
  {
    hide Handled, Three, Orderly;
    TheirTurn(r0, r1, r2, 1, ev, k);
    NobodyIsDead(r0, r1, r2);
  }

  lemma ForkIsInOrder()
    ensures var s, b := Forking(), ForkInput().kernel.births[1];
            && ForksInOrder(s, 1, b) && Unused(s, 8, 4) && var (s1, c) := GetTracee(s, 8, 4); Adoptable(s1, c)
  {
    hide FindPid;
    NoFourth(P2(), F3(), Y1());
  }

  lemma ForkIsFirst()
    ensures var s := Forking();
            && Ordered(s) && 0 in s.recs && 1 in s.recs && HandledFirst(s.recs[1], ForkStop, false) && Awaited(s, 1, 0)
            && Ptracer(s, 1) == Some(0) && Registered(s, Some(0))
    ensures var k := ForkInput().kernel;
            && k.dead == {0} && k.loading == {} && k.births == map[1 := Birth(8, 4, TraceFork, false, false, false)]
            && Announces(ForkStop)
  {}

  lemma NoFourth(r0: Record, r1: Record, r2: Record)
    requires Pids(r0, r1, r2)
    ensures var s := Three(r0, r1, r2); FindPid(s.order, s.recs, 4).None?
  {
    assert [2, 1, 0][1..] == [1, 0] && [1, 0][1..] == [0] && [0][1..] == [];
  }

  lemma ReachedIsSound(s: State<nat>)
    requires Reaches(Start(), s)
    ensures Sound(s)
  {
    hide SoundBut, FairRun, TruthfulRun, Run;
    var inputs :| LeadsTo(Start(), inputs, s);
    StartIsSound<nat>();
    RunKeeps(Start<nat>(), inputs);
  }

  // ----- An exit -----

  /** Let go on, its system calls to be seen; stopped at an entry that 0 was told of; then in that call. */
  function E1(): Record {
    X3(true).(running := true, asPtracee := X3(true).asPtracee.(ignoreSyscalls := false, proot := EventSlot(SignalStop(SIGUSR1), false)))
  }

  function E2(): Record {
    E1().(running := false, asPtracee := E1().asPtracee.(proot := EventSlot(SyscallStop, true), event := EventSlot(SignalStop(SIGTRAP), false)))
  }

  function E3(): Record {
    E2().(running := true, inSysexit := true, asPtracee := E2().asPtracee.(proot := EventSlot(SyscallStop, false)))
  }

  function Leaving(): State<nat> { Three(P2(), E3(), Y1()) }

  function ExitInput(): Input<nat> { Input(9, 2, SyscallStop, Kernel(map[], map[], {}, {}, {}, {}, {0})) }

  lemma ExitIsReached()
    ensures Reaches(Start(), Leaving())
  {
    hide Leads, Reaches, Three;
    var s', p, y := Leaving(), P1().(inSysexit := true), Y1();
    ReachesItself(s');
    Waits(E3(), s');
    Enters0(P1(), E2(), y, p);
    ResumesEntry(p, E2(), y, E3(), P1());
    Then(Three(p, E2(), y), Input(9, 1, SyscallStop, K(map[0 := PtraceCall(Resume(2, Some(false)))], {1})), Three(P1(), E3(), y), s');
    Then(Three(P1(), E2(), y), Input(9, 1, SyscallStop, K(map[], {0})), Three(p, E2(), y), s');
    EntersSeen(P2(), E1(), y, E2(), P1());
    Then(Three(P2(), E1(), y), Input(9, 2, SyscallStop, K(map[], {})), Three(P1(), E2(), y), s');
    Waits(E1(), s');
    Enters0(P1(), X3(true), y, p);
    Resumes(p, X3(true), y, E1(), P1(), false);
    Then(Three(p, X3(true), y), Input(9, 1, SyscallStop, K(map[0 := PtraceCall(Resume(2, Some(false)))], {})), Three(P1(), E1(), y), s');
    Then(Three(P1(), X3(true), y), Input(9, 1, SyscallStop, K(map[], {0})), Three(p, X3(true), y), s');
    StopsForSignal(true, s');
    TheyAttach(s');
    AreBorn(s');
  }

  /** In the same way, the stop at the exit of a system call is handled as its exit, and then as an entry. */
  lemma ExitIsEntered()
    ensures Reaches(Start(), Leaving())
    ensures var s, i := Leaving(), ExitInput();
            && Ready(s, i) && FairTurn(s, i) && TruthfulTurn(s, i) && Handled(s, i) == (s, 1)
            && HandledTwice(s, 1, SyscallStop, i.kernel)
            && InExitStage(s, 1, SyscallStop, i.kernel) && !InExitStage(Told(s, 1, SyscallStop, i.kernel), 1, SyscallStop, i.kernel)
  {
    hide *;
    ExitIsReached();
    ExitTurn();
    ExitIsTwice();
  }

  lemma ExitTurn()
    ensures var s, i := Leaving(), ExitInput();
            Ready(s, i) && FairTurn(s, i) && TruthfulTurn(s, i) && Handled(s, i) == (s, 1)
  {
    hide Three, Handled, FairTurn, TruthfulTurn;
    LateTurn(P2(), E3(), Y1(), SyscallStop, ExitInput().kernel);
  }

  lemma ExitIsTwice()
    ensures var s, k := Leaving(), ExitInput().kernel;
            && HandledTwice(s, 1, SyscallStop, k)
            && InExitStage(s, 1, SyscallStop, k) && !InExitStage(Told(s, 1, SyscallStop, k), 1, SyscallStop, k)
  {
    hide *;
    ExitIsReached();
    ReachedIsSound(Leaving());
    ExitIsAwaited();
    ExitTwiceIff(Leaving(), 1, ExitInput().kernel);
    ExitThenEntry(Leaving(), 1, ExitInput().kernel);
  }

  lemma ExitIsAwaited()
    ensures var s := Leaving();
            && Ordered(s) && 0 in s.recs && 1 in s.recs && Ptracer(s, 1) == Some(0) && Registered(s, Some(0)) && Awaited(s, 1, 0)
            && s.recs[1].inSysexit && s.recs[1].asPtracee.tracingStarted && !s.recs[1].asPtracee.ignoreSyscalls
    ensures var k := ExitInput().kernel; k.dead == {0} && k.loading == {} && k.untranslated == {}
  {}
}
