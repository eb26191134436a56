/**
 * Which events a ptracer is told of, and what it finds: by the option of each, in terms of the
 * registry.
 */
module PtraceReports {
  import opened Wrappers
  import opened PtraceState
  import opened PtraceEmulation
  import opened PtraceConservation
  import opened PtraceWakeups
  import opened PtraceTwice
  import opened PtraceAnswers

  // ----- What is asked for -----

  /**
   * What ptrace(2) promises a ptracer: each PTRACE_EVENT_* if its own option is set, system calls
   * once tracing has started, unless it lets them go by, signals and the death in any case. Stops
   * at a seccomp filter, and the system calls of the loader, are the tracer's own.
   */
  predicate Asked<Id>(r: Tracee<Id>, ev: Event, loading: bool) {
    var e := r.asPtracee;
    match ev
    case ForkStop => TraceFork in e.options
    case VforkStop => TraceVfork in e.options
    case VforkDoneStop => TraceVforkDone in e.options
    case CloneStop => TraceClone in e.options
    case ExitStop => TraceExit in e.options
    case ExecStop => TraceExec in e.options
    case SyscallStop => e.tracingStarted && !e.ignoreSyscalls && !loading
    case SeccompStop => false
    case SignalStop(_) => true
    case Exited(_) => true
    case Signaled(_) => true
  }

  /** Without PTRACE_O_TRACESYSGOOD, the stop of a system call looks like a SIGTRAP. */
  function Reported<Id>(r: Tracee<Id>, ev: Event): Event {
    if ev.SyscallStop? && TraceSysgood !in r.asPtracee.options then SignalStop(5) else ev
  }

  /** p is blocked in a wait that is for t. */
  predicate WaitsForIt<Id>(s: State<Id>, t: Id, p: Id)
    requires t in s.recs && p in s.recs
  {
    var a := s.recs[p].asPtracer;
    Asks(a.waitPid, a.waitOptions, s.recs[t].pid, s.recs[t].clone)
  }

  /** What handle_ptracee_event() tells and how, is just that. */
  lemma ToldIsAsked<Id>(r: Tracee<Id>, ev: Event, loading: bool)
    ensures IsTold(r, ev, loading) <==> Asked(r, ev, loading)
    ensures Asked(r, ev, loading) ==>
              var sifted := Sift(r, ev, loading); sifted.event == Reported(r, ev) && (sifted.first ==> !ev.IsDeath())
  {}

  // ----- Events nobody asked for -----

  /** The ptracer learns nothing, and the event is handled as that of any tracee. */
  lemma UnaskedIsIgnored<Id>(s: State<Id>, t: Id, p: Id, ev: Event, k: Kernel<Id>)
    requires t in s.recs && p in s.recs && p != t && Ordered(s) && Ptracer(s, t) == Some(p)
    requires !Asked(s.recs[t], ev, t in k.loading)
    ensures var (s', keep) := PtraceeEvent(Halted(s, t), t, p, ev, k);
            && !keep && Same(s, s') && (forall x | x in s.recs && x != t :: s'.recs[x] == s.recs[x])
            && s'.recs[t].asPtracee.event == s.recs[t].asPtracee.event
            && Stop(s, t, ev, k) == Restart(TraceeEvent(s', t, ev, k), t, k).0
  {
    ToldIsAsked(s.recs[t], ev, t in k.loading);
    UntoldIs(s, t, p, ev, k);
    StopIs(s, t, p, ev, k);
    hide Sift, PtraceeEvent, Stop, TraceeEvent, Restart, Asked, IsTold;
  }

  // ----- Events asked for -----

  /**
   * What the ptracer is told: the event is there for a later wait, or a wait that is under way
   * ends, with the event read unless that fails. The tracee is kept stopped, but for a death, and
   * for a ptracer that is dead.
   */
  predicate IsReported<Id>(s: State<Id>, s': State<Id>, keep: bool, t: Id, p: Id, ev: Event, k: Kernel<Id>)
    requires t in s.recs && p in s.recs && t in s'.recs && p in s'.recs
  {
    var e, e' := s.recs[t].asPtracee, s'.recs[t].asPtracee;
    var own := s.recs[t].parent == Some(p) && ev.IsDeath();
    && !s'.recs[t].running && e'.event.value == Reported(s.recs[t], ev)
    && if WaitsForIt(s, t, p) then
         && s'.recs[p].asPtracer.waitPid == 0 && (p !in k.dead ==> s'.recs[p].running)
         && e'.ptracer == (if own then None else Some(p)) && (e'.event.pending <==> own || p in k.faulty)
         && (keep <==> !ev.IsDeath() && p !in k.dead)
       else
         && e'.event.pending && e'.ptracer == Some(p) && (keep <==> !ev.IsDeath())
         && SameWait(s.recs[p].asPtracer, s'.recs[p].asPtracer)
  }

  lemma AskedIsReported<Id>(s: State<Id>, t: Id, p: Id, ev: Event, k: Kernel<Id>)
    requires t in s.recs && p in s.recs && p != t && Ordered(s) && Ptracer(s, t) == Some(p)
    requires Asked(s.recs[t], ev, t in k.loading)
    ensures var (s', keep) := PtraceeEvent(Halted(s, t), t, p, ev, k);
            && t in s'.recs && p in s'.recs && IsReported(s, s', keep, t, p, ev, k)
            && (keep ==> Stop(s, t, ev, k) == s')
  {
    ToldIsAsked(s.recs[t], ev, t in k.loading);
    ToldIs(s, t, p, ev, k);
    StopIs(s, t, p, ev, k);
    hide Sift, PtraceeEvent, Stop, TraceeEvent, Restart, Asked, IsTold, PassOn, Begun, IsReported;
    var sifted := Sift(s.recs[t], ev, t in k.loading);
    var s1 := Begun(s, t, ev, sifted.starts);
    BegunIsAlike(s, t, ev, sifted.starts);
    PassedOn(s, s1, t, p, ev, sifted.event, sifted.first, k);
  }

  /** As far as the report goes, the same, with t stopped. */
  predicate Alike<Id>(s: State<Id>, s1: State<Id>, t: Id, p: Id, death: bool)
    requires t in s.recs && p in s.recs
  {
    && t in s1.recs && p in s1.recs && !s1.recs[t].running && s1.recs[t].pid == s.recs[t].pid
    && s1.recs[t].clone == s.recs[t].clone && (death ==> s1.recs[t].parent == s.recs[t].parent)
    && Ptracer(s1, t) == Some(p) && SameWait(s.recs[p].asPtracer, s1.recs[p].asPtracer)
  }

  lemma BegunIsAlike<Id>(s: State<Id>, t: Id, ev: Event, starts: bool)
    requires t in s.recs && Ptracer(s, t).Some? && Ptracer(s, t).value in s.recs && Ptracer(s, t) != Some(t)
    ensures Alike(s, Begun(s, t, ev, starts), t, Ptracer(s, t).value, ev.IsDeath())
  {}

  lemma PassedOn<Id>(s: State<Id>, s1: State<Id>, t: Id, p: Id, ev: Event, shown: Event, first: bool, k: Kernel<Id>)
    requires t in s.recs && p in s.recs && p != t && Ordered(s1) && Alike(s, s1, t, p, ev.IsDeath())
    requires shown == Reported(s.recs[t], ev) && (first ==> !ev.IsDeath())
    ensures var (s', keep) := PassOn(s1, t, p, ev, shown, first, k);
            t in s'.recs && p in s'.recs && IsReported(s, s', keep, t, p, ev, k)
  {
    hide First, Tell, IsReported, Reported;
    if first { FirstIsAlike(s, s1, t, p, ev, k); }
    var s2 := if first then First(s1, t, ev, k) else s1;
    TellReports(s, s2, t, p, ev, k);
    hide Alike;
  }

  lemma FirstIsAlike<Id>(s: State<Id>, s1: State<Id>, t: Id, p: Id, ev: Event, k: Kernel<Id>)
    requires t in s.recs && p in s.recs && p != t && Ordered(s1) && Alike(s, s1, t, p, false)
    ensures Alike(s, First(s1, t, ev, k), t, p, false)
  {
    hide TraceeEvent, SetProot;
    FirstLone(s1, t, p, ev, k);
    TraceeEventLone(s1, t, ev, k);
    var s2 := TraceeEvent(s1, t, ev, k);
    ProotLone(s2, t, EventSlot(SignalStop(0), s2.recs[t].asPtracee.proot.pending));
  }

  lemma TellReports<Id>(s: State<Id>, s1: State<Id>, t: Id, p: Id, ev: Event, k: Kernel<Id>)
    requires t in s.recs && p in s.recs && p != t && Alike(s, s1, t, p, ev.IsDeath())
    ensures var (s', keep) := Tell(s1, t, p, Reported(s.recs[t], ev), k);
            t in s'.recs && p in s'.recs && IsReported(s, s', keep, t, p, ev, k)
  {
    var shown := Reported(s.recs[t], ev);
    var s2 := Notified(s1, t, shown);
    assert Awaited(s2, t, p) <==> WaitsForIt(s, t, p);
    assert shown.IsDeath() <==> ev.IsDeath();
    if WaitsForIt(s, t, p) { WakeReports(s2, t, p, k); }
    hide Wake, Awaited, WaitsForIt;
  }

  /** A wait that is under way ends. */
  lemma WakeReports<Id>(s: State<Id>, t: Id, p: Id, k: Kernel<Id>)
    requires t in s.recs && p in s.recs && p != t && Ptracer(s, t) == Some(p) && s.recs[t].asPtracee.event.pending
    ensures var (s', restarted) := Wake(s, t, p, k);
            var own := OwnDeath(s, p, t);
            && Same(s, s') && s'.recs[t].running == s.recs[t].running && (restarted <==> p !in k.dead)
            && s'.recs[t].asPtracee.event.value == s.recs[t].asPtracee.event.value
            && s'.recs[t].asPtracee.ptracer == (if own then None else Some(p))
            && (s'.recs[t].asPtracee.event.pending <==> own || p in k.faulty)
            && s'.recs[p].asPtracer.waitPid == 0 && (p !in k.dead ==> s'.recs[p].running)
  {
    TraceeIsRead(s, p, t, k);
    hide ReadTracee;
  }

  // ----- What comes of it -----

  /**
   * An event asked for, that no wait was under way for, is there for the next wait: once kept
   * stopped, a tracee is found by every wait that is for it, or another one is.
   */
  lemma ReportedIsFound<Id>(s: State<Id>, t: Id, p: Id, ev: Event, k: Kernel<Id>, pid: int, options: WaitOptions)
    requires t in s.recs && p in s.recs && p != t && Ordered(s) && Ptracer(s, t) == Some(p) && !ev.IsDeath()
    requires Asked(s.recs[t], ev, t in k.loading) && !WaitsForIt(s, t, p)
    ensures var s' := Stop(s, t, ev, k);
            && t in s'.recs && p in s'.recs && s'.recs[t].asPtracee.event == EventSlot(Reported(s.recs[t], ev), true)
            && (AsksTracee(s', p, pid, options, t) ==> !PicksNobody(s', p, pid, options))
  {
    hide Stop, PtraceeEvent, Asked, WaitsForIt, Reported, AsksTracee, NoZombie;
    AskedIsReported(s, t, p, ev, k);
    var s' := Stop(s, t, ev, k);
    if AsksTracee(s', p, pid, options, t) { assert Readable(s', p, pid, options, t); }
  }
}
