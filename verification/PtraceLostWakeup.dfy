/**
 * A run, from the empty registry, that loses a wakeup: three processes, the first traces the
 * second, which traces the third. The first lets the second go on without reading the signal
 * it stopped for, waits for it, and is blocked; the second, whose system calls are ignored now,
 * is blocked in a wait of its own. The wait of the first would find the second.
 */
module PtraceLostWakeup {
  import opened Wrappers
  import opened PtraceState
  import opened PtraceEmulation
  import opened PtraceConservation
  import opened PtracePending
  import opened PtraceWakeups
  import opened PtraceTwice

  type Record = Tracee<nat>

  const ANY := WaitOptions(false, false, false)
  const SIGUSR1: nat := 10

  function Three(r0: Record, r1: Record, r2: Record): (s: State<nat>)
    ensures Ordered(s) && 0 in s.recs && 1 in s.recs && 2 in s.recs
    ensures s.recs[0] == r0 && s.recs[1] == r1 && s.recs[2] == r2
  {
    State([2, 1, 0], map[0 := r0, 1 := r1, 2 := r2])
  }

  function K(calls: map<nat, Call>, entered: set<nat>): Kernel<nat> {
    Kernel(calls, map[], {}, entered, {}, {}, {})
  }

  predicate Pids(r0: Record, r1: Record, r2: Record) {
    && r0.pid == 1 && r1.pid == 2 && r2.pid == 3 && !r0.terminated && !r1.terminated && !r2.terminated
  }

  lemma Changed(r0: Record, r1: Record, r2: Record, r: Record)
    ensures var s := Three(r0, r1, r2);
            && (r.pid == r0.pid ==> With(s, 0, r) == Three(r, r1, r2))
            && (r.pid == r1.pid ==> With(s, 1, r) == Three(r0, r, r2))
            && (r.pid == r2.pid ==> With(s, 2, r) == Three(r0, r1, r))
  {
    assert map[0 := r0, 1 := r1, 2 := r2][0 := r] == map[0 := r, 1 := r1, 2 := r2];
    assert map[0 := r0, 1 := r1, 2 := r2][1 := r] == map[0 := r0, 1 := r, 2 := r2];
    assert map[0 := r0, 1 := r1, 2 := r2][2 := r] == map[0 := r0, 1 := r1, 2 := r];
  }

  // ----- Turns -----

  ghost predicate Leads(s: State<nat>, i: Input<nat>, s': State<nat>) {
    Ready(s, i) && FairTurn(s, i) && TruthfulTurn(s, i) && Turn(s, i) == s'
  }

  /** A run that everything asked of the kernel holds of. */
  ghost predicate LeadsTo(s: State<nat>, inputs: seq<Input<nat>>, s': State<nat>) {
    FairRun(s, inputs) && TruthfulRun(s, inputs) && Run(s, inputs) == s'
  }

  ghost predicate Reaches(s: State<nat>, s': State<nat>) { exists inputs :: LeadsTo(s, inputs, s') }

  lemma Then(s: State<nat>, i: Input<nat>, s1: State<nat>, s': State<nat>)
    requires Leads(s, i, s1) && Reaches(s1, s')
    ensures Reaches(s, s')
  {
    hide Leads, LeadsTo;
    var inputs :| LeadsTo(s1, inputs, s');
    ThenAll(s, i, s1, inputs, s');
  }

  lemma ThenAll(s: State<nat>, i: Input<nat>, s1: State<nat>, inputs: seq<Input<nat>>, s': State<nat>)
    requires Leads(s, i, s1) && LeadsTo(s1, inputs, s')
    ensures LeadsTo(s, [i] + inputs, s')
  {
    assert ([i] + inputs)[1..] == inputs;
    hide Turn, FairTurn, TruthfulTurn;
  }

  lemma ReachesItself(s: State<nat>)
    ensures Reaches(s, s)
  {
    assert LeadsTo(s, [], s);
  }

  lemma NobodyIsFreed(r0: Record, r1: Record, r2: Record, k: Kernel<nat>)
    requires Pids(r0, r1, r2)
    ensures FreeTerminated(Three(r0, r1, r2), [2, 1, 0], k) == Three(r0, r1, r2)
  {
    var s := Three(r0, r1, r2);
    assert [2, 1, 0][1..] == [1, 0] && [1, 0][1..] == [0] && [0][1..] == [];
    assert FreeTerminated(s, [0], k) == s;
    assert FreeTerminated(s, [1, 0], k) == s;
  }

  lemma TheirPids(r0: Record, r1: Record, r2: Record)
    requires Pids(r0, r1, r2)
    ensures var s := Three(r0, r1, r2);
            && FindPid(s.order, s.recs, 1) == Some(0) && FindPid(s.order, s.recs, 2) == Some(1) && FindPid(s.order, s.recs, 3) == Some(2)
  {
    var s := Three(r0, r1, r2);
    assert [2, 1, 0][1..] == [1, 0] && [1, 0][1..] == [0];
    assert FindPid([0], s.recs, 1) == Some(0);
    assert FindPid([1, 0], s.recs, 1) == Some(0) && FindPid([1, 0], s.recs, 2) == Some(1);
  }

  lemma TheirTurn(r0: Record, r1: Record, r2: Record, t: nat, ev: Event, k: Kernel<nat>)
    requires Pids(r0, r1, r2) && t <= 2
    ensures var s, i := Three(r0, r1, r2), Input(9, t + 1, ev, k); Ready(s, i) && Handled(s, i) == (s, t)
  {
    NobodyIsFreed(r0, r1, r2, k);
    TheirPids(r0, r1, r2);
    hide FreeTerminated, FindPid;
  }

  /** An event of one of them. */
  lemma TurnOf(r0: Record, r1: Record, r2: Record, t: nat, ev: Event, k: Kernel<nat>, s': State<nat>)
    requires Pids(r0, r1, r2) && t <= 2 && !ev.IsDeath() && !Announces(ev) && k.births == map[]
    requires Stop(Three(r0, r1, r2), t, ev, k) == s'
    ensures Leads(Three(r0, r1, r2), Input(9, t + 1, ev, k), s')
  {
    hide Stop, Handled, Three, Leads;
    TheirTurn(r0, r1, r2, t, ev, k);
    NobodyIsDead(r0, r1, r2);
    Harmless(Three(r0, r1, r2), Input(9, t + 1, ev, k), t);
  }

  lemma NobodyIsDead(r0: Record, r1: Record, r2: Record)
    requires Pids(r0, r1, r2)
    ensures var s := Three(r0, r1, r2); forall x | x in s.recs :: !s.recs[x].terminated
  {}

  lemma Harmless(s: State<nat>, i: Input<nat>, t: nat)
    requires Ready(s, i) && Handled(s, i) == (s, t) && i.pid > 0 && i.kernel.births == map[]
    requires !i.event.IsDeath() && !Announces(i.event) && forall x | x in s.recs :: !s.recs[x].terminated
    ensures Leads(s, i, Stop(s, t, i.event, i.kernel))
  {
    hide Stop, Handled;
  }

  // ----- Events, record by record -----

  lemma WithTwice<Id>(s: State<Id>, t: Id, a: Tracee<Id>, b: Tracee<Id>)
    requires t in s.recs && a.pid == s.recs[t].pid && b.pid == a.pid
    ensures With(With(s, t, a), t, b) == With(s, t, b) && With(s, t, a).recs[t] == a
  {}

  function Cleared<Id>(e: AsPtracee<Id>): AsPtracee<Id> { e.(proot := e.proot.(pending := false)) }

  /** The entry of a system call that is no wait. */
  lemma QuietEntry<Id>(s: State<Id>, t: Id, k: Kernel<Id>)
    requires t in s.recs && Ordered(s) && !CallOf(k, t).WaitCall?
    ensures QuietEvent(s, t, SyscallStop, k) ==
            With(s, t, s.recs[t].(inSysexit := t in k.entered, asPtracee := Cleared(s.recs[t].asPtracee)))
  {
    var a := s.recs[t].(inSysexit := t in k.entered);
    WithTwice(s, t, a, a.(asPtracee := Cleared(a.asPtracee)));
  }

  lemma QuietSignal<Id>(s: State<Id>, t: Id, n: nat, k: Kernel<Id>)
    requires t in s.recs && Ordered(s)
    ensures var r := s.recs[t];
            QuietEvent(s, t, SignalStop(n), k) ==
            With(s, t, r.(sigstopAllowed := r.sigstopAllowed || n == SIGSTOP, asPtracee := Cleared(r.asPtracee)))
  {
    var r := s.recs[t];
    var a := r.(sigstopAllowed := r.sigstopAllowed || n == SIGSTOP);
    WithTwice(s, t, a, a.(asPtracee := Cleared(a.asPtracee)));
    if n != SIGSTOP { SameRecord(s, t); assert a == r; }
  }

  lemma SameRecord<Id>(s: State<Id>, t: Id)
    requires t in s.recs
    ensures With(s, t, s.recs[t]) == s
  {}

  /** Nobody traces t. */
  lemma UntracedIs<Id>(s: State<Id>, t: Id, ev: Event, k: Kernel<Id>)
    requires t in s.recs && Ordered(s) && Ptracer(s, t).None?
    ensures Stop(s, t, ev, k) == Restart(TraceeEvent(Halted(s, t), t, ev, k), t, k).0
  {
    hide TraceeEvent, Restart;
  }

  lemma Restarted<Id>(s: State<Id>, t: Id, r: Tracee<Id>, k: Kernel<Id>)
    requires t in s.recs && r.pid == s.recs[t].pid && t !in k.dead && r.asPtracer.waitPid == 0
    ensures Restart(With(s, t, r), t, k).0 == With(s, t, r.(running := true))
  {
    WithTwice(s, t, r, r.(running := true));
  }

  /** It enters a system call. */
  lemma UntracedEntry<Id>(s: State<Id>, t: Id, k: Kernel<Id>)
    requires t in s.recs && Ordered(s) && Ptracer(s, t).None? && !s.recs[t].inSysexit && AsTracer(s, t).waitPid == 0
    requires t !in k.dead && !CallOf(k, t).WaitCall?
    ensures var r := s.recs[t];
            Stop(s, t, SyscallStop, k) ==
            With(s, t, r.(running := true, inSysexit := t in k.entered, asPtracee := Cleared(r.asPtracee)))
  {
    UntracedIs(s, t, SyscallStop, k);
    var r, h := s.recs[t], Halted(s, t);
    var a := r.(running := false);
    var b := a.(inSysexit := t in k.entered, asPtracee := Cleared(a.asPtracee));
    WithTwice(s, t, a, b);
    QuietEntry(h, t, k);
    EntryIsQuiet(h, t, k);
    hide TraceeEvent, QuietEvent, Restart, Stop, With;
    Restarted(s, t, b, k);
  }

  /** It is about to get a signal. */
  lemma UntracedSignal<Id>(s: State<Id>, t: Id, n: nat, k: Kernel<Id>)
    requires t in s.recs && Ordered(s) && Ptracer(s, t).None? && AsTracer(s, t).waitPid == 0 && t !in k.dead
    ensures var r := s.recs[t];
            Stop(s, t, SignalStop(n), k) ==
            With(s, t, r.(running := true, sigstopAllowed := r.sigstopAllowed || n == SIGSTOP, asPtracee := Cleared(r.asPtracee)))
  {
    UntracedIs(s, t, SignalStop(n), k);
    var r, h := s.recs[t], Halted(s, t);
    var a := r.(running := false);
    var b := a.(sigstopAllowed := r.sigstopAllowed || n == SIGSTOP, asPtracee := Cleared(a.asPtracee));
    WithTwice(s, t, a, b);
    QuietSignal(h, t, n, k);
    assert TraceeEvent(h, t, SignalStop(n), k) == QuietEvent(h, t, SignalStop(n), k);
    Restarted(s, t, b, k);
    hide TraceeEvent, QuietEvent, Restart, Stop, With;
  }

  /** What is left to do after an exit stage. */
  function Left<Id>(s: State<Id>, t: Id, k: Kernel<Id>): State<Id>
    requires t in s.recs
  {
    Restart(ClearProot(SetSysexit(s, t, false), t), t, k).0
  }

  lemma LeftIs<Id>(s: State<Id>, t: Id, k: Kernel<Id>)
    requires t in s.recs && t !in k.dead
    ensures var r := s.recs[t];
            Left(s, t, k) ==
            With(s, t, r.(running := r.running || r.asPtracer.waitPid == 0, inSysexit := false, asPtracee := Cleared(r.asPtracee)))
  {
    var r := s.recs[t];
    var a := r.(inSysexit := false);
    var b := a.(asPtracee := Cleared(a.asPtracee));
    WithTwice(s, t, a, b);
    WithTwice(s, t, b, b.(running := true));
  }

  /** It leaves a system call. */
  lemma UntracedExit<Id>(s: State<Id>, t: Id, k: Kernel<Id>)
    requires t in s.recs && Ordered(s) && Ptracer(s, t).None? && s.recs[t].inSysexit && t !in k.untranslated
    ensures Stop(s, t, SyscallStop, k) == Left(ExitStage(Halted(s, t), t, k), t, k)
  {
    UntracedIs(s, t, SyscallStop, k);
    hide ExitStage, Restart, Stop, ClearProot;
  }

  /** The tracee t has a ptracer that does not see its system calls: not yet, or not any more. */
  predicate Unseen<Id>(r: Tracee<Id>) { r.asPtracee.ptracer.Some? && (r.asPtracee.ignoreSyscalls || !r.asPtracee.tracingStarted) }

  /** It is stopped, and its event noted. */
  function Noted<Id>(s: State<Id>, t: Id): (s': State<Id>)
    requires t in s.recs
    ensures Same(s, s')
  {
    var r := s.recs[t]; With(s, t, r.(running := false, asPtracee := r.asPtracee.(proot := EventSlot(SyscallStop, true))))
  }

  lemma UnseenIs<Id>(s: State<Id>, t: Id, k: Kernel<Id>)
    requires t in s.recs && Ordered(s) && Unseen(s.recs[t])
    ensures Stop(s, t, SyscallStop, k) == Restart(TraceeEvent(Noted(s, t), t, SyscallStop, k), t, k).0
  {
    var p, r := Ptracer(s, t).value, s.recs[t];
    var a := r.(running := false);
    var b := a.(asPtracee := a.asPtracee.(proot := EventSlot(SyscallStop, true)));
    WithTwice(s, t, a, b);
    BegunIsSlotted(s, t);
    StopIs(s, t, p, SyscallStop, k);
    UntoldIs(s, t, p, SyscallStop, k);
    hide PtraceeEvent, TraceeEvent, Restart, Stop, With;
  }

  lemma UnseenExit<Id>(s: State<Id>, t: Id, k: Kernel<Id>)
    requires t in s.recs && Ordered(s) && Unseen(s.recs[t]) && s.recs[t].inSysexit && t !in k.untranslated
    ensures Stop(s, t, SyscallStop, k) == Left(ExitStage(Noted(s, t), t, k), t, k)
  {
    UnseenIs(s, t, k);
    hide ExitStage, Restart, Stop, ClearProot;
  }

  lemma UnseenEntry<Id>(s: State<Id>, t: Id, k: Kernel<Id>)
    requires t in s.recs && Ordered(s) && Unseen(s.recs[t]) && !s.recs[t].inSysexit && AsTracer(s, t).waitPid == 0
    requires t !in k.dead && !CallOf(k, t).WaitCall?
    ensures var r := s.recs[t];
            Stop(s, t, SyscallStop, k) ==
            With(s, t, r.(running := true, inSysexit := t in k.entered,
                          asPtracee := r.asPtracee.(proot := EventSlot(SyscallStop, false))))
  {
    UnseenIs(s, t, k);
    var r, h := s.recs[t], Noted(s, t);
    var a := r.(running := false, asPtracee := r.asPtracee.(proot := EventSlot(SyscallStop, true)));
    var b := a.(inSysexit := t in k.entered, asPtracee := Cleared(a.asPtracee));
    WithTwice(s, t, a, b);
    QuietEntry(h, t, k);
    EntryIsQuiet(h, t, k);
    hide TraceeEvent, QuietEvent, Restart, Stop, With;
    Restarted(s, t, b, k);
  }

  lemma BegunIsSlotted<Id>(s: State<Id>, t: Id)
    requires t in s.recs
    ensures Begun(s, t, SyscallStop, false) == Slotted(s, t, SyscallStop)
  {
    SameRecord(Slotted(s, t, SyscallStop), t);
  }

  // ----- The run -----

  /** A process that got its first SIGSTOP. */
  function Born(pid: nat): Record { Fresh(pid).(running := true, sigstopAllowed := true) }

  function TracedBy(p: nat): AsPtracee<nat> { Untraced().(ptracer := Some(p)) }

  function OneMore(r: Record): Record { r.(asPtracer := r.asPtracer.(nbPtracees := r.asPtracer.nbPtracees + 1)) }

  lemma AttachIs<Id>(s: State<Id>, t: Id, p: Id)
    requires t in s.recs && p in s.recs && t != p
    ensures var r := s.recs[p];
            var s1 := With(s, t, s.recs[t].(asPtracee := Untraced().(ptracer := Some(p))));
            Attach(s, t, p) == With(s1, p, r.(asPtracer := r.asPtracer.(nbPtracees := r.asPtracer.nbPtracees + 1)))
  {}

  lemma Attached0(r0: Record, r1: Record, r2: Record, x: Record, p: Record)
    requires x == r1.(asPtracee := TracedBy(0)) && p == OneMore(r0)
    ensures Attach(Three(r0, r1, r2), 1, 0) == Three(p, x, r2)
  {
    hide Attach, With, Three;
    AttachIs(Three(r0, r1, r2), 1, 0);
    Changed(r0, r1, r2, x);
    Changed(r0, x, r2, p);
  }

  lemma Attached1(r0: Record, r1: Record, r2: Record, y: Record, p: Record)
    requires y == r2.(asPtracee := TracedBy(1)) && p == OneMore(r1)
    ensures Attach(Three(r0, r1, r2), 2, 1) == Three(r0, p, y)
  {
    hide Attach, With, Three;
    AttachIs(Three(r0, r1, r2), 2, 1);
    Changed(r0, r1, r2, y);
    Changed(r0, r1, y, p);
  }

  lemma AttachStage<Id>(s: State<Id>, t: Id, p: Id, pid: int, k: Kernel<Id>)
    requires p in s.recs && t in s.recs && Ordered(s) && FindPid(s.order, s.recs, pid) == Some(t) && s.recs[p].pid != pid
    requires Ptracer(s, t).None? && t != p && CallOf(k, p) == PtraceCall(AttachTo(pid))
    ensures ExitStage(s, p, k) == Attach(s, t, p)
  {
    hide Attach;
  }

  /** A turn that changes one of them. */
  lemma Becomes(r0: Record, r1: Record, r2: Record, t: nat, r: Record, ev: Event, k: Kernel<nat>)
    requires Pids(r0, r1, r2) && t <= 2 && !ev.IsDeath() && !Announces(ev) && k.births == map[]
    requires var s := Three(r0, r1, r2);
             t in s.recs && r.pid == s.recs[t].pid && Stop(s, t, ev, k) == With(s, t, r)
    ensures Leads(Three(r0, r1, r2), Input(9, t + 1, ev, k),
                  Three(if t == 0 then r else r0, if t == 1 then r else r1, if t == 2 then r else r2))
  {
    hide Stop, With, Three, Leads;
    Changed(r0, r1, r2, r);
    TurnOf(r0, r1, r2, t, ev, k, With(Three(r0, r1, r2), t, r));
  }

  /** 0 enters a system call that is no wait. */
  lemma Enters0(r0: Record, r1: Record, r2: Record, r: Record)
    requires Pids(r0, r1, r2) && r0.asPtracee == Untraced() && !r0.inSysexit && r0.asPtracer.waitPid == 0 && r0.running
    requires r == r0.(inSysexit := true)
    ensures Leads(Three(r0, r1, r2), Input(9, 1, SyscallStop, K(map[], {0})), Three(r, r1, r2))
  {
    hide Stop, With, Three, Leads;
    var k := K(map[], {0});
    UntracedEntry(Three(r0, r1, r2), 0, k);
    Becomes(r0, r1, r2, 0, r, SyscallStop, k);
  }

  /** 1, whose system calls its ptracer does not see, enters one that is no wait. */
  lemma Enters1(r0: Record, r1: Record, r2: Record, r: Record)
    requires Pids(r0, r1, r2) && Unseen(r1) && !r1.inSysexit && r1.asPtracer.waitPid == 0
    requires r == r1.(running := true, inSysexit := true, asPtracee := r1.asPtracee.(proot := EventSlot(SyscallStop, false)))
    ensures Leads(Three(r0, r1, r2), Input(9, 2, SyscallStop, K(map[], {1})), Three(r0, r, r2))
  {
    hide Stop, With, Three, Leads;
    var k := K(map[], {1});
    UnseenEntry(Three(r0, r1, r2), 1, k);
    Becomes(r0, r1, r2, 1, r, SyscallStop, k);
  }

  lemma HaltedIs<Id>(s: State<Id>, t: Id)
    requires t in s.recs
    ensures Halted(s, t) == With(s, t, s.recs[t].(running := false))
  {}

  lemma NotedIs<Id>(s: State<Id>, t: Id)
    requires t in s.recs
    ensures var e := s.recs[t].asPtracee;
            Noted(s, t) == With(s, t, s.recs[t].(running := false, asPtracee := e.(proot := EventSlot(SyscallStop, true))))
  {}

  /** What is left to do when one of them leaves a system call. */
  lemma Leaves(r0: Record, r1: Record, r2: Record, t: nat, r: Record, k: Kernel<nat>)
    requires Pids(r0, r1, r2) && t <= 2 && t !in k.dead
    requires var q := Three(r0, r1, r2).recs[t];
             r == q.(running := q.running || q.asPtracer.waitPid == 0, inSysexit := false, asPtracee := Cleared(q.asPtracee))
    ensures Left(Three(r0, r1, r2), t, k) == Three(if t == 0 then r else r0, if t == 1 then r else r1, if t == 2 then r else r2)
  {
    hide With, Left, Three;
    LeftIs(Three(r0, r1, r2), t, k);
    Changed(r0, r1, r2, r);
  }

  /** 0 leaves a system call. */
  lemma Leaves0(r0: Record, r1: Record, r2: Record, h: Record, k: Kernel<nat>, a0: Record, a1: Record, r: Record)
    requires Pids(r0, r1, r2) && Pids(a0, a1, r2) && r0.asPtracee.ptracer.None? && r0.inSysexit && k.dead == {} && k.untranslated == {}
    requires h == r0.(running := false) && ExitStage(Three(h, r1, r2), 0, k) == Three(a0, a1, r2) && k.births == map[]
    requires r == a0.(running := a0.running || a0.asPtracer.waitPid == 0, inSysexit := false, asPtracee := Cleared(a0.asPtracee))
    ensures Leads(Three(r0, r1, r2), Input(9, 1, SyscallStop, k), Three(r, a1, r2))
  {
    hide Stop, ExitStage, Left, With, Halted, Three, Leads;
    UntracedExit(Three(r0, r1, r2), 0, k);
    HaltedIs(Three(r0, r1, r2), 0);
    Changed(r0, r1, r2, h);
    Leaves(a0, a1, r2, 0, r, k);
    TurnOf(r0, r1, r2, 0, SyscallStop, k, Three(r, a1, r2));
  }

  /** 1, whose system calls its ptracer does not see, leaves one. */
  lemma Leaves1(r0: Record, r1: Record, r2: Record, h: Record, k: Kernel<nat>, a1: Record, a2: Record, r: Record)
    requires Pids(r0, r1, r2) && Pids(r0, a1, a2) && Unseen(r1) && r1.inSysexit && k.dead == {} && k.untranslated == {}
    requires h == r1.(running := false, asPtracee := r1.asPtracee.(proot := EventSlot(SyscallStop, true))) && k.births == map[]
    requires ExitStage(Three(r0, h, r2), 1, k) == Three(r0, a1, a2)
    requires r == a1.(running := a1.running || a1.asPtracer.waitPid == 0, inSysexit := false, asPtracee := Cleared(a1.asPtracee))
    ensures Leads(Three(r0, r1, r2), Input(9, 2, SyscallStop, k), Three(r0, r, a2))
  {
    hide Stop, ExitStage, Left, With, Noted, Three, Leads;
    UnseenExit(Three(r0, r1, r2), 1, k);
    NotedIs(Three(r0, r1, r2), 1);
    Changed(r0, r1, r2, h);
    Leaves(r0, a1, a2, 1, r, k);
    TurnOf(r0, r1, r2, 1, SyscallStop, k, Three(r0, r, a2));
  }

  /** 0 leaves ptrace(ATTACH) of 1. */
  lemma Attaches0(r0: Record, r1: Record, r2: Record, x: Record, r: Record)
    requires Pids(r0, r1, r2) && r0.asPtracee == Untraced() && r0.inSysexit && r0.asPtracer.waitPid == 0 && r0.running
    requires r1.asPtracee.ptracer.None? && x == r1.(asPtracee := TracedBy(0)) && r == OneMore(r0).(inSysexit := false)
    ensures Leads(Three(r0, r1, r2), Input(9, 1, SyscallStop, K(map[0 := PtraceCall(AttachTo(2))], {})), Three(r, x, r2))
  {
    hide Stop, ExitStage, Attach, FindPid, Three, Leads;
    var k, h := K(map[0 := PtraceCall(AttachTo(2))], {}), r0.(running := false);
    TheirPids(h, r1, r2);
    Attached0(h, r1, r2, x, OneMore(h));
    AttachStage(Three(h, r1, r2), 1, 0, 2, k);
    Leaves0(r0, r1, r2, h, k, OneMore(h), x, r);
  }

  /** 1 leaves ptrace(ATTACH) of 2. */
  lemma Attaches1(r0: Record, r1: Record, r2: Record, y: Record, r: Record)
    requires Pids(r0, r1, r2) && Unseen(r1) && r1.inSysexit && r1.asPtracer.waitPid == 0 && r1.running
    requires r1.asPtracee.proot == EventSlot(SyscallStop, false) && r2.asPtracee.ptracer.None?
    requires y == r2.(asPtracee := TracedBy(1)) && r == OneMore(r1).(inSysexit := false)
    ensures Leads(Three(r0, r1, r2), Input(9, 2, SyscallStop, K(map[1 := PtraceCall(AttachTo(3))], {})), Three(r0, r, y))
  {
    hide Stop, ExitStage, Attach, FindPid, Three, Leads;
    var k := K(map[1 := PtraceCall(AttachTo(3))], {});
    var h := r1.(running := false, asPtracee := r1.asPtracee.(proot := EventSlot(SyscallStop, true)));
    TheirPids(r0, h, r2);
    Attached1(r0, h, r2, y, OneMore(h));
    AttachStage(Three(r0, h, r2), 2, 1, 3, k);
    Leaves1(r0, r1, r2, h, k, OneMore(h), y, r);
  }

  /** A ptracee is about to get a signal, its first event, and its ptracer does not wait. */
  lemma ToldSignal<Id>(s: State<Id>, t: Id, p: Id, n: nat, k: Kernel<Id>)
    requires t in s.recs && p in s.recs && Ordered(s) && Ptracer(s, t) == Some(p) && p != t
    requires AsTracer(s, p).waitPid == 0 && s.recs[t].pid > 0
    ensures var r, slot := s.recs[t], EventSlot(SignalStop(n), true);
            Stop(s, t, SignalStop(n), k) ==
            With(s, t, r.(running := false, asPtracee := r.asPtracee.(proot := slot, event := slot, tracingStarted := true)))
  {
    var r, slot := s.recs[t], EventSlot(SignalStop(n), true);
    var a := r.(running := false);
    var b := a.(asPtracee := a.asPtracee.(proot := slot));
    var c := b.(asPtracee := b.asPtracee.(tracingStarted := true));
    var d := c.(asPtracee := c.asPtracee.(event := slot));
    WithTwice(s, t, c, d);
    ToldIs(s, t, p, SignalStop(n), k);
    StopIs(s, t, p, SignalStop(n), k);
    var s2 := With(s, t, c);
    BegunIs(s, t, n);
    hide PtraceeEvent, PassOn, Stop, With, Begun;
    OnlyNotes(s2, t, p, n, k);
  }

  lemma BegunIs<Id>(s: State<Id>, t: Id, n: nat)
    requires t in s.recs
    ensures var r, slot := s.recs[t], EventSlot(SignalStop(n), true);
            Begun(s, t, SignalStop(n), true) ==
            With(s, t, r.(running := false, asPtracee := r.asPtracee.(proot := slot, tracingStarted := true)))
  {}

  lemma OnlyNotes<Id>(s: State<Id>, t: Id, p: Id, n: nat, k: Kernel<Id>)
    requires t in s.recs && p in s.recs && Ordered(s) && Ptracer(s, t) == Some(p) && p != t
    requires AsTracer(s, p).waitPid == 0 && s.recs[t].pid > 0
    ensures var e := s.recs[t].asPtracee;
            PassOn(s, t, p, SignalStop(n), SignalStop(n), false, k) ==
            (With(s, t, s.recs[t].(asPtracee := e.(event := EventSlot(SignalStop(n), true)))), true)
  {
    hide Wake;
  }

  lemma ResumeStage<Id>(s: State<Id>, p: Id, t: Id, pid: int, ignore: bool, k: Kernel<Id>,
                        r: Tracee<Id>)
    requires p in s.recs && t in s.recs && Ordered(s) && Subject(s, p, pid) == Some(t) && AsTracer(s, t).waitPid == 0
    requires t !in k.dead && CallOf(k, p) == PtraceCall(Resume(pid, Some(ignore)))
    requires var e := s.recs[t].asPtracee; e.proot == EventSlot(SignalStop(SIGUSR1), true)
    requires var q := s.recs[t];
             r == q.(running := true, asPtracee := q.asPtracee.(ignoreSyscalls := ignore, proot := EventSlot(SignalStop(SIGUSR1), false)))
    ensures ExitStage(s, p, k) == With(s, t, r)
  {
    var q := s.recs[t];
    var a := q.(asPtracee := q.asPtracee.(ignoreSyscalls := ignore));
    var b := a.(asPtracee := Cleared(a.asPtracee));
    var s1 := With(s, t, a);
    ResumeProceeds(s, p, t, pid, ignore, k);
    WithTwice(s, t, a, b);
    QuietSignal(s1, t, SIGUSR1, k);
    assert Proceed(s1, t, k) == Restart(QuietEvent(s1, t, SignalStop(SIGUSR1), k), t, k).0 by { hide QuietEvent, Restart; }
    Restarted(s, t, b, k);
    hide Proceed, QuietEvent, Restart, With, ExitStage, Subject;
  }

  /** A resumed ptracee, whose system calls are to be seen or ignored from now on, goes on with its pending event. */
  lemma ResumeProceeds<Id>(s: State<Id>, p: Id, t: Id, pid: int, ignore: bool, k: Kernel<Id>)
    requires p in s.recs && t in s.recs && Ordered(s) && Subject(s, p, pid) == Some(t)
    requires CallOf(k, p) == PtraceCall(Resume(pid, Some(ignore)))
    ensures var q := s.recs[t];
            ExitStage(s, p, k) == Proceed(With(s, t, q.(asPtracee := q.asPtracee.(ignoreSyscalls := ignore))), t, k)
  {
    hide Proceed, Subject;
  }

  lemma WaitEnterIs<Id>(s: State<Id>, t: Id, pid: int)
    requires t in s.recs && Ordered(s) && AsTracer(s, t).nbPtracees != 0
    requires GetPtracee(SetPtracer(s, t, AsTracer(s, t).(waitsIn := WaitsInKernel)), t, pid, false, true, ANY).ATracee?
    ensures WaitEnter(s, t, pid, ANY) == With(s, t, s.recs[t].(asPtracer := s.recs[t].asPtracer.(waitsIn := WaitsInProot)))
  {
    hide GetPtracee;
    var r := s.recs[t];
    WithTwice(s, t, r.(asPtracer := r.asPtracer.(waitsIn := WaitsInKernel)), r.(asPtracer := r.asPtracer.(waitsIn := WaitsInProot)));
  }

  lemma WaitEntry<Id>(s: State<Id>, t: Id, pid: int, k: Kernel<Id>)
    requires t in s.recs && Ordered(s) && AsTracer(s, t).nbPtracees != 0 && CallOf(k, t) == WaitCall(pid, ANY) && t !in k.untranslated
    requires GetPtracee(SetPtracer(s, t, AsTracer(s, t).(waitsIn := WaitsInKernel)), t, pid, false, true, ANY).ATracee?
    ensures var r := s.recs[t];
            QuietEvent(s, t, SyscallStop, k) ==
            With(s, t, r.(inSysexit := t in k.entered, asPtracer := r.asPtracer.(waitsIn := WaitsInProot), asPtracee := Cleared(r.asPtracee)))
  {
    var r := s.recs[t];
    var b := r.(asPtracer := r.asPtracer.(waitsIn := WaitsInProot));
    var c := b.(inSysexit := t in k.entered);
    WaitEnterIs(s, t, pid);
    WithTwice(s, t, b, c);
    WithTwice(s, t, c, c.(asPtracee := Cleared(c.asPtracee)));
    hide WaitEnter, GetPtracee;
  }

  lemma BlockStage<Id>(s: State<Id>, t: Id, pid: int, k: Kernel<Id>)
    requires t in s.recs && Ordered(s) && CallOf(k, t) == WaitCall(pid, ANY) && Ptracer(s, t) != Some(t)
    requires AsTracer(s, t).nbPtracees != 0 && AsTracer(s, t).waitsIn == WaitsInProot
    requires GetPtracee(s, t, pid, true, true, ANY).Nobody?
    ensures var r := s.recs[t];
            ExitStage(s, t, k) ==
            With(s, t, r.(asPtracer := r.asPtracer.(waitsIn := DoesntWait, waitPid := pid, waitOptions := ANY)))
  {
    var r := s.recs[t];
    var a := r.(asPtracer := r.asPtracer.(waitsIn := DoesntWait));
    WaitsInFindsTheSame(s, t, pid, ANY);
    WithTwice(s, t, a, a.(asPtracer := a.asPtracer.(waitPid := pid, waitOptions := ANY)));
    hide GetPtracee;
  }

  // ----- Waits -----

  predicate Chain(r0: Record, r1: Record, r2: Record) {
    && Pids(r0, r1, r2) && !r1.clone && !r2.clone && r0.asPtracer.zombies == [] && r1.asPtracer.zombies == []
    && r0.asPtracee.ptracer == None && r1.asPtracee.ptracer == Some(0) && r2.asPtracee.ptracer == Some(1)
  }

  /** What 0 finds when it waits for 1. */
  lemma Finds0(r0: Record, r1: Record, r2: Record)
    requires Chain(r0, r1, r2)
    ensures var s := Three(r0, r1, r2);
            && GetPtracee(s, 0, 2, false, true, ANY) == ATracee(1)
            && (r1.running || !r1.asPtracee.event.pending ==> GetPtracee(s, 0, 2, true, true, ANY) == Nobody)
            && (!r1.running && r1.asPtracee.event.pending ==> GetPtracee(s, 0, 2, true, true, ANY) == ATracee(1))
            && (!r1.running ==> Subject(s, 0, 2) == Some(1))
  {
    var recs := Three(r0, r1, r2).recs;
    assert [2, 1, 0][1..] == [1, 0] && [1, 0][1..] == [0] && [0][1..] == [];
    assert FirstPtracee([0], recs, 0, 2, true, true, ANY) == Nobody;
    assert FirstPtracee([1, 0], recs, 0, 2, false, true, ANY) == ATracee(1);
    assert r1.running || !r1.asPtracee.event.pending ==> FirstPtracee([1, 0], recs, 0, 2, true, true, ANY) == Nobody;
    assert !r1.running && r1.asPtracee.event.pending ==> FirstPtracee([1, 0], recs, 0, 2, true, true, ANY) == ATracee(1);
    assert !r1.running ==> FirstPtracee([1, 0], recs, 0, 2, true, false, WaitOptions(false, true, false)) == ATracee(1);
  }

  /** What 1 finds when it waits for 2. */
  lemma Finds1(r0: Record, r1: Record, r2: Record)
    requires Chain(r0, r1, r2)
    ensures var s := Three(r0, r1, r2);
            && GetPtracee(s, 1, 3, false, true, ANY) == ATracee(2)
            && (r2.running ==> GetPtracee(s, 1, 3, true, true, ANY) == Nobody)
  {
    var recs := Three(r0, r1, r2).recs;
    assert [2, 1, 0][1..] == [1, 0] && [1, 0][1..] == [0] && [0][1..] == [];
    assert FirstPtracee([0], recs, 1, 3, true, true, ANY) == Nobody;
    assert FirstPtracee([1, 0], recs, 1, 3, true, true, ANY) == Nobody;
  }

  lemma SetPtracerIs<Id>(s: State<Id>, t: Id, a: AsPtracer<Id>)
    requires t in s.recs
    ensures SetPtracer(s, t, a) == With(s, t, s.recs[t].(asPtracer := a))
  {}

  lemma WaitEntry0(h: Record, r1: Record, r2: Record, b: Record)
    requires Chain(h, r1, r2) && h.asPtracer.nbPtracees == 1
    requires b == h.(inSysexit := true, asPtracer := h.asPtracer.(waitsIn := WaitsInProot), asPtracee := Cleared(h.asPtracee))
    ensures QuietEvent(Three(h, r1, r2), 0, SyscallStop, K(map[0 := WaitCall(2, ANY)], {0})) == With(Three(h, r1, r2), 0, b)
  {
    hide With, Three, QuietEvent, GetPtracee;
    var a := h.(asPtracer := h.asPtracer.(waitsIn := WaitsInKernel));
    SetPtracerIs(Three(h, r1, r2), 0, a.asPtracer);
    Changed(h, r1, r2, a);
    Finds0(a, r1, r2);
    WaitEntry(Three(h, r1, r2), 0, 2, K(map[0 := WaitCall(2, ANY)], {0}));
  }

  lemma WaitEntry1(r0: Record, h: Record, r2: Record, b: Record)
    requires Chain(r0, h, r2) && h.asPtracer.nbPtracees == 1
    requires b == h.(inSysexit := true, asPtracer := h.asPtracer.(waitsIn := WaitsInProot), asPtracee := Cleared(h.asPtracee))
    ensures QuietEvent(Three(r0, h, r2), 1, SyscallStop, K(map[1 := WaitCall(3, ANY)], {1})) == With(Three(r0, h, r2), 1, b)
  {
    hide With, Three, QuietEvent, GetPtracee;
    var a := h.(asPtracer := h.asPtracer.(waitsIn := WaitsInKernel));
    SetPtracerIs(Three(r0, h, r2), 1, a.asPtracer);
    Changed(r0, h, r2, a);
    Finds1(r0, a, r2);
    WaitEntry(Three(r0, h, r2), 1, 3, K(map[1 := WaitCall(3, ANY)], {1}));
  }

  /** 0 enters a wait for 1. */
  lemma EntersWait0(r0: Record, r1: Record, r2: Record, r: Record)
    requires Chain(r0, r1, r2) && r0.asPtracee == Untraced() && !r0.inSysexit && r0.asPtracer.waitPid == 0 && r0.running
    requires r0.asPtracer.nbPtracees == 1 && r == r0.(inSysexit := true, asPtracer := r0.asPtracer.(waitsIn := WaitsInProot))
    ensures Leads(Three(r0, r1, r2), Input(9, 1, SyscallStop, K(map[0 := WaitCall(2, ANY)], {0})), Three(r, r1, r2))
  {
    hide Stop, With, Three, Leads, TraceeEvent, QuietEvent, Restart, Halted;
    var s, k := Three(r0, r1, r2), K(map[0 := WaitCall(2, ANY)], {0});
    var h := r0.(running := false);
    HaltedIs(s, 0);
    Changed(r0, r1, r2, h);
    UntracedIs(s, 0, SyscallStop, k);
    EntryIsQuiet(Three(h, r1, r2), 0, k);
    WaitEntry0(h, r1, r2, r.(running := false));
    Restarted(Three(h, r1, r2), 0, r.(running := false), k);
    Changed(h, r1, r2, r);
    TurnOf(r0, r1, r2, 0, SyscallStop, k, Three(r, r1, r2));
  }

  /** 0 is blocked in its wait for 1, which runs. */
  lemma Blocks0(r0: Record, r1: Record, r2: Record, r: Record)
    requires Chain(r0, r1, r2) && r0.asPtracee == Untraced() && r0.inSysexit && r0.asPtracer.waitPid == 0 && r1.running
    requires r0.asPtracer.nbPtracees == 1 && r0.asPtracer.waitsIn == WaitsInProot
    requires r == r0.(running := false, inSysexit := false,
                      asPtracer := r0.asPtracer.(waitsIn := DoesntWait, waitPid := 2, waitOptions := ANY))
    ensures Leads(Three(r0, r1, r2), Input(9, 1, SyscallStop, K(map[0 := WaitCall(2, ANY)], {})), Three(r, r1, r2))
  {
    hide Stop, With, Three, Leads, ExitStage, GetPtracee;
    var k, h := K(map[0 := WaitCall(2, ANY)], {}), r0.(running := false);
    var a := h.(asPtracer := h.asPtracer.(waitsIn := DoesntWait, waitPid := 2, waitOptions := ANY));
    Finds0(h, r1, r2);
    BlockStage(Three(h, r1, r2), 0, 2, k);
    Changed(h, r1, r2, a);
    Leaves0(r0, r1, r2, h, k, a, r1, r);
  }

  lemma ReadStage<Id>(s: State<Id>, p: Id, t: Id, pid: int, k: Kernel<Id>, a: Tracee<Id>, r: Tracee<Id>)
    requires p in s.recs && t in s.recs && p != t && Ordered(s) && Ptracer(s, p) != Some(p) && Ptracer(s, t) == Some(p)
    requires CallOf(k, p) == WaitCall(pid, ANY) && AsTracer(s, p).waitsIn == WaitsInProot && k.faulty == {}
    requires GetPtracee(s, p, pid, true, true, ANY) == ATracee(t) && s.recs[t].parent != Some(p)
    requires a == s.recs[p].(asPtracer := s.recs[p].asPtracer.(waitsIn := DoesntWait))
    requires var e := s.recs[t].asPtracee; r == s.recs[t].(asPtracee := e.(event := e.event.(pending := false)))
    ensures ExitStage(s, p, k) == With(With(s, p, a), t, r)
  {
    WaitsInFindsTheSame(s, p, pid, ANY);
    hide GetPtracee;
  }

  /** 0 reads the event of 1 with a wait. */
  lemma Reads(r0: Record, r1: Record, r2: Record, x: Record, r: Record)
    requires Chain(r0, r1, r2) && r0.asPtracee == Untraced() && r0.inSysexit && r0.asPtracer.waitPid == 0 && r0.running
    requires r0.asPtracer.waitsIn == WaitsInProot && !r1.running && r1.asPtracee.event.pending && r1.parent.None?
    requires x == r1.(asPtracee := r1.asPtracee.(event := r1.asPtracee.event.(pending := false)))
    requires r == r0.(inSysexit := false, asPtracer := r0.asPtracer.(waitsIn := DoesntWait))
    ensures Leads(Three(r0, r1, r2), Input(9, 1, SyscallStop, K(map[0 := WaitCall(2, ANY)], {})), Three(r, x, r2))
  {
    hide Stop, With, Three, Leads, ExitStage, GetPtracee;
    var k, h := K(map[0 := WaitCall(2, ANY)], {}), r0.(running := false);
    var a := h.(asPtracer := h.asPtracer.(waitsIn := DoesntWait));
    Finds0(h, r1, r2);
    ReadStage(Three(h, r1, r2), 0, 1, 2, k, a, x);
    Changed(h, r1, r2, a);
    Changed(a, r1, r2, x);
    Leaves0(r0, r1, r2, h, k, a, x, r);
  }

  /** 0 lets 1 go on, and wants to see its system calls, or not. */
  lemma Resumes(r0: Record, r1: Record, r2: Record, x: Record, r: Record, ignore: bool)
    requires Chain(r0, r1, r2) && r0.asPtracee == Untraced() && r0.inSysexit && r0.asPtracer.waitPid == 0 && r0.running
    requires !r1.running && r1.asPtracer.waitPid == 0 && r1.asPtracee.proot == EventSlot(SignalStop(SIGUSR1), true)
    requires x == r1.(running := true,
                      asPtracee := r1.asPtracee.(ignoreSyscalls := ignore, proot := EventSlot(SignalStop(SIGUSR1), false)))
    requires r == r0.(inSysexit := false)
    ensures Leads(Three(r0, r1, r2), Input(9, 1, SyscallStop, K(map[0 := PtraceCall(Resume(2, Some(ignore)))], {})), Three(r, x, r2))
  {
    hide Stop, With, Three, Leads, ExitStage, Subject, GetPtracee;
    var k, h := K(map[0 := PtraceCall(Resume(2, Some(ignore)))], {}), r0.(running := false);
    Finds0(h, r1, r2);
    ResumeStage(Three(h, r1, r2), 0, 1, 2, ignore, k, x);
    Changed(h, r1, r2, x);
    Leaves0(r0, r1, r2, h, k, h, x, r);
  }

  /** 1 enters a wait for 2. */
  lemma EntersWait1(r0: Record, r1: Record, r2: Record, r: Record)
    requires Chain(r0, r1, r2) && Unseen(r1) && !r1.inSysexit && r1.asPtracer.waitPid == 0 && r1.running && r1.asPtracer.nbPtracees == 1
    requires r == r1.(inSysexit := true, asPtracer := r1.asPtracer.(waitsIn := WaitsInProot),
                      asPtracee := r1.asPtracee.(proot := EventSlot(SyscallStop, false)))
    ensures Leads(Three(r0, r1, r2), Input(9, 2, SyscallStop, K(map[1 := WaitCall(3, ANY)], {1})), Three(r0, r, r2))
  {
    hide Stop, With, Three, Leads, TraceeEvent, QuietEvent, Restart, Noted;
    var s, k := Three(r0, r1, r2), K(map[1 := WaitCall(3, ANY)], {1});
    var h := r1.(running := false, asPtracee := r1.asPtracee.(proot := EventSlot(SyscallStop, true)));
    NotedIs(s, 1);
    Changed(r0, r1, r2, h);
    UnseenIs(s, 1, k);
    EntryIsQuiet(Three(r0, h, r2), 1, k);
    WaitEntry1(r0, h, r2, r.(running := false));
    Restarted(Three(r0, h, r2), 1, r.(running := false), k);
    Changed(r0, h, r2, r);
    TurnOf(r0, r1, r2, 1, SyscallStop, k, Three(r0, r, r2));
  }

  /** 1 is blocked in its wait for 2, which runs. */
  lemma Blocks1(r0: Record, r1: Record, r2: Record, r: Record)
    requires Chain(r0, r1, r2) && Unseen(r1) && r1.inSysexit && r1.asPtracer.waitPid == 0 && r2.running
    requires r1.asPtracer.nbPtracees == 1 && r1.asPtracer.waitsIn == WaitsInProot && r1.asPtracee.proot == EventSlot(SyscallStop, false)
    requires r == r1.(running := false, inSysexit := false,
                      asPtracer := r1.asPtracer.(waitsIn := DoesntWait, waitPid := 3, waitOptions := ANY))
    ensures Leads(Three(r0, r1, r2), Input(9, 2, SyscallStop, K(map[1 := WaitCall(3, ANY)], {})), Three(r0, r, r2))
  {
    hide Stop, With, Three, Leads, ExitStage, GetPtracee;
    var k := K(map[1 := WaitCall(3, ANY)], {});
    var h := r1.(running := false, asPtracee := r1.asPtracee.(proot := EventSlot(SyscallStop, true)));
    var a := h.(asPtracer := h.asPtracer.(waitsIn := DoesntWait, waitPid := 3, waitOptions := ANY));
    Finds1(r0, h, r2);
    BlockStage(Three(r0, h, r2), 1, 3, k);
    Changed(r0, h, r2, a);
    Leaves1(r0, r1, r2, h, k, a, r2, r);
  }

  /** 1 is about to get a signal, and this is the first its ptracer is told. */
  lemma GetsSignal(r0: Record, r1: Record, r2: Record, r: Record)
    requires Chain(r0, r1, r2) && r0.asPtracer.waitPid == 0
    requires var slot := EventSlot(SignalStop(SIGUSR1), true);
             r == r1.(running := false, asPtracee := r1.asPtracee.(proot := slot, event := slot, tracingStarted := true))
    ensures Leads(Three(r0, r1, r2), Input(9, 2, SignalStop(SIGUSR1), K(map[], {})), Three(r0, r, r2))
  {
    hide Stop, With, Three, Leads;
    var k := K(map[], {});
    ToldSignal(Three(r0, r1, r2), 1, 0, SIGUSR1, k);
    Becomes(r0, r1, r2, 1, r, SignalStop(SIGUSR1), k);
  }

  // ----- The first three turns -----

  /** A process not known yet is about to get its first SIGSTOP. */
  lemma Newcomer<Id>(s: State<Id>, id: Id, pid: int, k: Kernel<Id>)
    requires Ready(s, Input(id, pid, SignalStop(SIGSTOP), k)) && FindPid(s.order, s.recs, pid).None? && pid > 0
    requires FreeTerminated(s, s.order, k) == s && id !in k.dead && k.births == map[]
    requires forall x | x in s.recs :: !s.recs[x].terminated
    ensures var i := Input(id, pid, SignalStop(SIGSTOP), k);
            && FairTurn(s, i) && TruthfulTurn(s, i)
            && Turn(s, i) == State([id] + s.order, s.recs[id := Fresh(pid).(running := true, sigstopAllowed := true)])
  {
    IsNew(s, id, pid, k);
    NewIsBorn(s, id, pid, k);
    hide Stop, Handled, FreeTerminated, FindPid;
  }

  lemma NewIsBorn<Id>(s: State<Id>, id: Id, pid: int, k: Kernel<Id>)
    requires Ordered(s) && id !in s.recs && id !in k.dead
    ensures Stop(NewTracee(s, id, pid), id, SignalStop(SIGSTOP), k)
         == State([id] + s.order, s.recs[id := Fresh(pid).(running := true, sigstopAllowed := true)])
  {
    hide Stop;
    UntracedSignal(NewTracee(s, id, pid), id, SIGSTOP, k);
    assert Cleared(Untraced<Id>()) == Untraced();
  }

  lemma IsNew<Id>(s: State<Id>, id: Id, pid: int, k: Kernel<Id>)
    requires Ordered(s) && id !in s.recs && FindPid(s.order, s.recs, pid).None? && FreeTerminated(s, s.order, k) == s
    ensures Handled(s, Input(id, pid, SignalStop(SIGSTOP), k)) == (NewTracee(s, id, pid), id)
  {
    hide FindPid, FreeTerminated;
  }

  lemma FirstIsBorn(k: Kernel<nat>)
    requires k == K(map[], {})
    ensures Leads(Start(), Input(0, 1, SignalStop(SIGSTOP), k), State([0], map[0 := Born(1)]))
  {
    Newcomer(Start<nat>(), 0, 1, k);
    hide Turn, FairTurn, TruthfulTurn;
  }

  lemma SecondIsBorn(k: Kernel<nat>)
    requires k == K(map[], {})
    ensures Leads(State([0], map[0 := Born(1)]), Input(1, 2, SignalStop(SIGSTOP), k),
                  State([1, 0], map[0 := Born(1), 1 := Born(2)]))
  {
    var s := State([0], map[0 := Born(1)]);
    assert [0][1..] == [];
    assert FreeTerminated(s, [0], k) == s && FindPid([0], s.recs, 2).None?;
    assert [1] + [0] == [1, 0] && s.recs[1 := Born(2)] == map[0 := Born(1), 1 := Born(2)];
    hide Turn, FairTurn, TruthfulTurn, FreeTerminated, FindPid;
    Newcomer(s, 1, 2, k);
  }

  lemma ThirdIsBorn(k: Kernel<nat>)
    requires k == K(map[], {})
    ensures Leads(State([1, 0], map[0 := Born(1), 1 := Born(2)]), Input(2, 3, SignalStop(SIGSTOP), k),
                  Three(Born(1), Born(2), Born(3)))
  {
    var s := State([1, 0], map[0 := Born(1), 1 := Born(2)]);
    assert [1, 0][1..] == [0] && [0][1..] == [];
    assert FreeTerminated(s, [0], k) == s && FindPid([0], s.recs, 3).None?;
    assert FreeTerminated(s, [1, 0], k) == s && FindPid([1, 0], s.recs, 3).None?;
    assert [2] + [1, 0] == [2, 1, 0] && s.recs[2 := Born(3)] == map[0 := Born(1), 1 := Born(2), 2 := Born(3)];
    hide Turn, FairTurn, TruthfulTurn, FreeTerminated, FindPid;
    Newcomer(s, 2, 3, k);
  }

  lemma AreBorn(s': State<nat>)
    requires Reaches(Three(Born(1), Born(2), Born(3)), s')
    ensures Reaches(Start(), s')
  {
    hide Leads, Reaches, Three;
    var k := K(map[], {});
    var s1, s2 := State([0], map[0 := Born(1)]), State([1, 0], map[0 := Born(1), 1 := Born(2)]);
    FirstIsBorn(k);
    SecondIsBorn(k);
    ThirdIsBorn(k);
    Then(s2, Input(2, 3, SignalStop(SIGSTOP), k), Three(Born(1), Born(2), Born(3)), s');
    Then(s1, Input(1, 2, SignalStop(SIGSTOP), k), s2, s');
    Then(Start(), Input(0, 1, SignalStop(SIGSTOP), k), s1, s');
  }

  // ----- The whole run -----

  function P1(): Record { OneMore(Born(1)) }

  function P2(): Record {
    P1().(running := false, asPtracer := P1().asPtracer.(waitPid := 2, waitOptions := ANY))
  }

  function X1(): Record { Born(2).(asPtracee := TracedBy(0)) }

  function X2(): Record { OneMore(X1()).(asPtracee := X1().asPtracee.(proot := EventSlot(SyscallStop, false))) }

  /** Stopped for a signal that its ptracer has read, or not. */
  function X3(read: bool): Record {
    var slot := EventSlot(SignalStop(SIGUSR1), true);
    X2().(running := false, asPtracee := X2().asPtracee.(proot := slot, event := slot.(pending := !read), tracingStarted := true))
  }

  function X4(read: bool): Record {
    X3(read).(running := true,
              asPtracee := X3(read).asPtracee.(ignoreSyscalls := true, proot := EventSlot(SignalStop(SIGUSR1), false)))
  }

  function X5(read: bool): Record {
    X4(read).(running := false, asPtracer := X4(read).asPtracer.(waitPid := 3, waitOptions := ANY),
              asPtracee := X4(read).asPtracee.(proot := EventSlot(SyscallStop, false)))
  }

  function Y1(): Record { Born(3).(asPtracee := TracedBy(1)) }

  lemma TheyAttach(s': State<nat>)
    requires Reaches(Three(P1(), X2(), Y1()), s')
    ensures Reaches(Three(Born(1), Born(2), Born(3)), s')
  {
    hide Leads, Reaches, Three;
    var p, x := Born(1).(inSysexit := true), X2().(inSysexit := true, asPtracer := X1().asPtracer);
    Enters0(Born(1), Born(2), Born(3), p);
    Attaches0(p, Born(2), Born(3), X1(), P1());
    Enters1(P1(), X1(), Born(3), x);
    Attaches1(P1(), x, Born(3), Y1(), X2());
    Then(Three(P1(), x, Born(3)), Input(9, 2, SyscallStop, K(map[1 := PtraceCall(AttachTo(3))], {})), Three(P1(), X2(), Y1()), s');
    Then(Three(P1(), X1(), Born(3)), Input(9, 2, SyscallStop, K(map[], {1})), Three(P1(), x, Born(3)), s');
    Then(Three(p, Born(2), Born(3)), Input(9, 1, SyscallStop, K(map[0 := PtraceCall(AttachTo(2))], {})), Three(P1(), X1(), Born(3)), s');
    Then(Three(Born(1), Born(2), Born(3)), Input(9, 1, SyscallStop, K(map[], {0})), Three(p, Born(2), Born(3)), s');
  }

  /** 1 is stopped for a signal, and 0 reads that, or not. */
  lemma StopsForSignal(read: bool, s': State<nat>)
    requires Reaches(Three(P1(), X3(read), Y1()), s')
    ensures Reaches(Three(P1(), X2(), Y1()), s')
  {
    hide Leads, Reaches, Three;
    var p, y := P1().(inSysexit := true, asPtracer := P1().asPtracer.(waitsIn := WaitsInProot)), Y1();
    GetsSignal(P1(), X2(), y, X3(false));
    if read {
      EntersWait0(P1(), X3(false), y, p);
      Reads(p, X3(false), y, X3(true), P1());
      Then(Three(p, X3(false), y), Input(9, 1, SyscallStop, K(map[0 := WaitCall(2, ANY)], {})), Three(P1(), X3(true), y), s');
      Then(Three(P1(), X3(false), y), Input(9, 1, SyscallStop, K(map[0 := WaitCall(2, ANY)], {0})), Three(p, X3(false), y), s');
    }
    Then(Three(P1(), X2(), y), Input(9, 2, SignalStop(SIGUSR1), K(map[], {})), Three(P1(), X3(false), y), s');
  }

  lemma IsResumed(read: bool, s': State<nat>)
    requires Reaches(Three(P1(), X4(read), Y1()), s')
    ensures Reaches(Three(P1(), X3(read), Y1()), s')
  {
    hide Leads, Reaches, Three;
    var p, y := P1().(inSysexit := true), Y1();
    Enters0(P1(), X3(read), y, p);
    Resumes(p, X3(read), y, X4(read), P1(), true);
    Then(Three(p, X3(read), y), Input(9, 1, SyscallStop, K(map[0 := PtraceCall(Resume(2, Some(true)))], {})), Three(P1(), X4(read), y), s');
    Then(Three(P1(), X3(read), y), Input(9, 1, SyscallStop, K(map[], {0})), Three(p, X3(read), y), s');
  }

  function Last(read: bool): State<nat> { Three(P2(), X5(read), Y1()) }

  lemma BothBlock(read: bool)
    ensures Reaches(Three(P1(), X4(read), Y1()), Last(read))
  {
    hide Leads, Reaches, Three;
    var p, y := P1().(inSysexit := true, asPtracer := P1().asPtracer.(waitsIn := WaitsInProot)), Y1();
    var x := X4(read).(inSysexit := true, asPtracer := X4(read).asPtracer.(waitsIn := WaitsInProot),
                       asPtracee := X4(read).asPtracee.(proot := EventSlot(SyscallStop, false)));
    EntersWait0(P1(), X4(read), y, p);
    Blocks0(p, X4(read), y, P2());
    EntersWait1(P2(), X4(read), y, x);
    Blocks1(P2(), x, y, X5(read));
    var s' := Last(read);
    ReachesItself(s');
    Then(Three(P2(), x, y), Input(9, 2, SyscallStop, K(map[1 := WaitCall(3, ANY)], {})), s', s');
    Then(Three(P2(), X4(read), y), Input(9, 2, SyscallStop, K(map[1 := WaitCall(3, ANY)], {1})), Three(P2(), x, y), s');
    Then(Three(p, X4(read), y), Input(9, 1, SyscallStop, K(map[0 := WaitCall(2, ANY)], {})), Three(P2(), X4(read), y), s');
    Then(Three(P1(), X4(read), y), Input(9, 1, SyscallStop, K(map[0 := WaitCall(2, ANY)], {0})), Three(p, X4(read), y), s');
  }

  /**
   * The same requests and waits, whether 0 reads the event of 1 before it lets it go on or not:
   * 0 ends up blocked, and its wait would find nobody if and only if it had read that event.
   */
  lemma ResumeIsHarmlessIff(read: bool)
    ensures Reaches(Three(P1(), X3(read), Y1()), Last(read)) && Reaches(Start(), Last(read))
    ensures AsTracer(Last(read), 0).waitPid == 2
    ensures GetPtracee(Last(read), 0, 2, true, true, ANY).Nobody? <==> read
    ensures !read ==> GetPtracee(Last(read), 0, 2, true, true, ANY) == ATracee(1)
  {
    hide Leads, Reaches, GetPtracee, Three;
    BothBlock(read);
    IsResumed(read, Last(read));
    StopsForSignal(read, Last(read));
    TheyAttach(Last(read));
    AreBorn(Last(read));
    Finds0(P2(), X5(read), Y1());
  }

  /**
   * The wakeup is lost: there is a run, of a truthful kernel, after which the first process is
   * blocked in a wait that would find the second. Some event of it loses the wakeup, and the
   * first had not read an event of the second before it let it go on.
   */
  lemma WakeupIsLost()
    ensures exists inputs ::
              && FairRun(Start<nat>(), inputs) && TruthfulRun(Start<nat>(), inputs)
              && !LosesNone(Start<nat>(), inputs) && !ReadRun(Start<nat>(), inputs)
              && var s := Run(Start<nat>(), inputs);
                 Ordered(s) && 0 in s.recs && AsTracer(s, 0).waitPid == 2 && GetPtracee(s, 0, 2, true, true, ANY) == ATracee(1)
  {
    hide Turn, FairTurn, TruthfulTurn, Hearing, AllHeard, LosesNone, ReadRun, FairRun, TruthfulRun;
    ResumeIsHarmlessIff(false);
    var inputs :| LeadsTo(Start(), inputs, Last(false));
    SomebodyIsNotHeard(Last(false));
    StartIsHearing<nat>();
    if AlwaysHeard(Start<nat>(), inputs) { LastIsHeard(Start<nat>(), inputs); }
    NoLostWakeupIff(Start<nat>(), inputs);
    if ReadRun(Start<nat>(), inputs) { NoLostWakeup(Start<nat>(), inputs); }
  }

  lemma SomebodyIsNotHeard(s: State<nat>)
    requires Ordered(s) && 0 in s.recs && AsTracer(s, 0).waitPid == 2 && AsTracer(s, 0).waitOptions == ANY
    requires GetPtracee(s, 0, 2, true, true, ANY) == ATracee(1)
    ensures !AllHeard(s)
  {
    hide GetPtracee;
  }

  lemma {:induction false} LastIsHeard<Id>(s: State<Id>, inputs: seq<Input<Id>>)
    requires Ordered(s) && FairRun(s, inputs) && AlwaysHeard(s, inputs)
    ensures Ordered(Run(s, inputs)) && AllHeard(Run(s, inputs))
    decreases |inputs|
  {
    hide Turn, FairTurn, AllHeard;
    if inputs != [] { LastIsHeard(Turn(s, inputs[0]), inputs[1..]); }
  }
}
