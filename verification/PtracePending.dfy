/**
 * An event that waits for its tracee to be restarted is a signal or the entry of a system call:
 * what is left to do for it is what QuietEvent does. And nobody dies but of an event.
 */
module PtracePending {
  import opened Wrappers
  import opened PtraceState
  import opened PtraceEmulation
  import opened PtraceConservation

  predicate Deferrable(slot: EventSlot, inSysexit: bool) {
    slot.pending ==> slot.value.SignalStop? || (slot.value.SyscallStop? && !inSysexit)
  }

  predicate Deferred<Id>(r: Tracee<Id>) { Deferrable(r.asPtracee.proot, r.inSysexit) }

  predicate AllDeferred<Id>(s: State<Id>, but: set<Id>) {
    forall t | t in s.recs && t !in but :: Deferred(s.recs[t])
  }

  /** Nobody died but those in @dying, and the dead were not restarted. */
  predicate Alive<Id>(s: State<Id>, s': State<Id>, k: Kernel<Id>, dying: set<Id>) {
    forall x | x in s'.recs ::
      && (s'.recs[x].terminated ==> x in dying || (x in s.recs && s.recs[x].terminated))
      && (s'.recs[x].running ==> x !in k.dead || (x in s.recs && s.recs[x].running))
  }

  predicate Defers<Id>(s: State<Id>, s': State<Id>, k: Kernel<Id>, but: set<Id>, dying: set<Id>) {
    AllDeferred(s', but) && Alive(s, s', k, dying)
  }

  lemma DefersTwice<Id>(s: State<Id>, s1: State<Id>, s2: State<Id>, k: Kernel<Id>, but1: set<Id>, but: set<Id>, dying: set<Id>)
    requires Defers(s, s1, k, but1, dying) && Defers(s1, s2, k, but, dying)
    ensures Defers(s, s2, k, but, dying)
  {}

  lemma DefersMore<Id>(s: State<Id>, s': State<Id>, k: Kernel<Id>, but: set<Id>, more: set<Id>, dying: set<Id>)
    requires Defers(s, s', k, but, dying) && but <= more
    ensures Defers(s, s', k, more, dying)
  {}

  lemma NothingDefers<Id>(s: State<Id>, k: Kernel<Id>, but: set<Id>, dying: set<Id>)
    requires AllDeferred(s, but)
    ensures Defers(s, s, k, but, dying)
  {}

  /** What this says about a pending event: the whole of handle_tracee_event() is QuietEvent. */
  lemma PendingIsQuiet<Id>(s: State<Id>, t: Id, k: Kernel<Id>)
    requires t in s.recs && Ordered(s) && Deferred(s.recs[t]) && s.recs[t].asPtracee.proot.pending
    ensures var ev := s.recs[t].asPtracee.proot.value;
            TraceeEvent(s, t, ev, k) == QuietEvent(s, t, ev, k) && !ev.IsDeath() && !Announces(ev) && !InExitStage(s, t, ev, k)
  {}

  // ----- Elementary changes -----

  lemma WithDefers<Id>(s: State<Id>, x: Id, r: Tracee<Id>, k: Kernel<Id>, but: set<Id>, dying: set<Id>)
    requires AllDeferred(s, but) && x in s.recs && r.pid == s.recs[x].pid && (x in but || Deferred(r))
    requires r.terminated ==> x in dying || s.recs[x].terminated
    requires r.running ==> x !in k.dead || s.recs[x].running
    ensures Defers(s, With(s, x, r), k, but, dying)
  {}

  lemma SetPtracerDefers<Id>(s: State<Id>, p: Id, a: AsPtracer<Id>, k: Kernel<Id>, but: set<Id>, dying: set<Id>)
    requires AllDeferred(s, but) && p in s.recs
    ensures Defers(s, SetPtracer(s, p, a), k, but, dying)
  {
    WithDefers(s, p, s.recs[p].(asPtracer := a), k, but, dying);
  }

  lemma SetPtraceeDefers<Id>(s: State<Id>, t: Id, e: AsPtracee<Id>, k: Kernel<Id>, but: set<Id>, dying: set<Id>)
    requires AllDeferred(s, but) && t in s.recs
    requires e.proot == s.recs[t].asPtracee.proot || Deferrable(e.proot, s.recs[t].inSysexit) || t in but
    ensures Defers(s, SetPtracee(s, t, e), k, but, dying)
  {
    WithDefers(s, t, s.recs[t].(asPtracee := e), k, but, dying);
  }

  lemma RestartDefers<Id>(s: State<Id>, t: Id, k: Kernel<Id>, but: set<Id>, dying: set<Id>)
    requires AllDeferred(s, but) && t in s.recs
    ensures Defers(s, Restart(s, t, k).0, k, but, dying)
  {
    NothingDefers(s, k, but, dying);
    if t !in k.dead { WithDefers(s, t, s.recs[t].(running := true), k, but, dying); }
  }

  lemma AttachDefers<Id>(s: State<Id>, t: Id, p: Id, k: Kernel<Id>, but: set<Id>, dying: set<Id>)
    requires AllDeferred(s, but) && t in s.recs && p in s.recs
    ensures Defers(s, Attach(s, t, p), k, but, dying)
  {
    hide Defers, AllDeferred;
    var e := Untraced<Id>().(ptracer := Some(p));
    var s1 := SetPtracee(s, t, e);
    SetPtraceeDefers(s, t, e, k, but, dying);
    DefersAll(s, s1, k, but, dying);
    var a := AsTracer(s1, p);
    SetPtracerDefers(s1, p, a.(nbPtracees := a.nbPtracees + 1), k, but, dying);
    DefersTwice(s, s1, Attach(s, t, p), k, but, but, dying);
  }

  lemma DefersAll<Id>(s: State<Id>, s': State<Id>, k: Kernel<Id>, but: set<Id>, dying: set<Id>)
    requires Defers(s, s', k, but, dying)
    ensures AllDeferred(s', but)
  {}

  lemma DetachDefers<Id>(s: State<Id>, t: Id, k: Kernel<Id>, but: set<Id>, dying: set<Id>)
    requires AllDeferred(s, but) && t in s.recs && Ptracer(s, t).Some? && Ptracer(s, t).value in s.recs
    ensures Defers(s, Detach(s, t), k, but, dying)
  {
    hide Defers, AllDeferred;
    var e := s.recs[t].asPtracee.(ptracer := None);
    var s1, p := SetPtracee(s, t, e), Ptracer(s, t).value;
    SetPtraceeDefers(s, t, e, k, but, dying);
    DefersAll(s, s1, k, but, dying);
    var a := AsTracer(s1, p);
    SetPtracerDefers(s1, p, a.(nbPtracees := a.nbPtracees - 1), k, but, dying);
    DefersTwice(s, s1, Detach(s, t), k, but, but, dying);
  }

  // ----- wait(2) -----

  lemma ReadTraceeDefers<Id>(s: State<Id>, p: Id, t: Id, k: Kernel<Id>, but: set<Id>, dying: set<Id>)
    requires AllDeferred(s, but) && p in s.recs && t in s.recs && Ptracer(s, t) == Some(p)
    ensures Defers(s, ReadTracee(s, p, t, k).0, k, but, dying)
  {
    hide Defers, AllDeferred;
    var e := s.recs[t].asPtracee;
    NothingDefers(s, k, but, dying);
    DetachDefers(s, t, k, but, dying);
    SetPtraceeDefers(s, t, e.(event := e.event.(pending := false)), k, but, dying);
  }

  lemma WaitExitDefers<Id>(s: State<Id>, p: Id, pid: int, options: WaitOptions, k: Kernel<Id>, but: set<Id>, dying: set<Id>)
    requires AllDeferred(s, but) && p in s.recs && Ordered(s)
    ensures Defers(s, WaitExit(s, p, pid, options, k).0, k, but, dying)
  {
    hide Defers, AllDeferred, GetPtracee, ReadTracee;
    var a := AsTracer(s, p).(waitsIn := DoesntWait);
    var s1, s' := SetPtracer(s, p, a), WaitExit(s, p, pid, options, k).0;
    SetPtracerDefers(s, p, a, k, but, dying);
    DefersAll(s, s1, k, but, dying);
    NothingDefers(s1, k, but, dying);
    match GetPtracee(s1, p, pid, true, true, options) {
      case AZombie(i) =>
        var b := AsTracer(s1, p);
        SetPtracerDefers(s1, p, b.(nbPtracees := b.nbPtracees - 1, zombies := b.zombies[..i] + b.zombies[i + 1..]), k, but, dying);
      case ATracee(t) => ReadTraceeDefers(s1, p, t, k, but, dying);
      case Nobody => SetPtracerDefers(s1, p, a.(waitPid := pid, waitOptions := options), k, but, dying);
    }
    DefersTwice(s, s1, s', k, but, but, dying);
  }

  // ----- Events that need nothing but the tracee -----

  /** An event is never left pending by its own handling. */
  lemma ClearProotDefers<Id>(s: State<Id>, t: Id, k: Kernel<Id>, but: set<Id>, dying: set<Id>)
    requires AllDeferred(s, but + {t}) && t in s.recs
    ensures Defers(s, ClearProot(s, t), k, but, dying)
  {}

  lemma WaitEnterDefers<Id>(s: State<Id>, p: Id, pid: int, options: WaitOptions, k: Kernel<Id>, but: set<Id>, dying: set<Id>)
    requires AllDeferred(s, but) && p in s.recs && Ordered(s)
    ensures Defers(s, WaitEnter(s, p, pid, options), k, but, dying)
  {
    hide Defers, AllDeferred, GetPtracee;
    var a := AsTracer(s, p);
    SetPtracerDefers(s, p, a.(waitsIn := WaitsInKernel), k, but, dying);
    var s1 := SetPtracer(s, p, a.(waitsIn := WaitsInKernel));
    DefersAll(s, s1, k, but, dying);
    SetPtracerDefers(s1, p, a.(waitsIn := WaitsInProot), k, but, dying);
    DefersTwice(s, s1, SetPtracer(s1, p, a.(waitsIn := WaitsInProot)), k, but, but, dying);
  }

  lemma EnterStageDefers<Id>(s: State<Id>, t: Id, k: Kernel<Id>, but: set<Id>, dying: set<Id>)
    requires AllDeferred(s, but) && t in s.recs && t in but && Ordered(s)
    ensures Defers(s, EnterStage(s, t, k), k, but, dying)
  {
    hide Defers, AllDeferred, WaitEnter;
    NothingDefers(s, k, but, dying);
    if CallOf(k, t).WaitCall? { WaitEnterDefers(s, t, CallOf(k, t).pid, CallOf(k, t).options, k, but, dying); }
    var s1 := match CallOf(k, t)
      case WaitCall(pid, options) => if t in k.untranslated then s else WaitEnter(s, t, pid, options)
      case _ => s;
    DefersAll(s, s1, k, but, dying);
    WithDefers(s1, t, s1.recs[t].(inSysexit := t in k.entered), k, but, dying);
    DefersTwice(s, s1, EnterStage(s, t, k), k, but, but, dying);
  }

  lemma QuietEventDefers<Id>(s: State<Id>, t: Id, ev: Event, k: Kernel<Id>, but: set<Id>, dying: set<Id>)
    requires AllDeferred(s, but + {t}) && t in s.recs && Ordered(s) && (ev.IsDeath() ==> t in dying)
    ensures Defers(s, QuietEvent(s, t, ev, k), k, but, dying)
  {
    hide Defers, AllDeferred, EnterStage, ClearProot;
    var r, all := s.recs[t], but + {t};
    var s1 :=
      if ev.IsDeath() then With(s, t, r.(terminated := true))
      else if ev.SyscallStop? || ev.SeccompStop? then EnterStage(s, t, k)
      else if ev == SignalStop(SIGSTOP) then With(s, t, r.(sigstopAllowed := true))
      else s;
    NothingDefers(s, k, all, dying);
    EnterStageDefers(s, t, k, all, dying);
    if ev.IsDeath() { WithDefers(s, t, r.(terminated := true), k, all, dying); }
    WithDefers(s, t, r.(sigstopAllowed := true), k, all, dying);
    DefersAll(s, s1, k, all, dying);
    ClearProotDefers(s1, t, k, but, dying);
    DefersTwice(s, s1, ClearProot(s1, t), k, all, but, dying);
  }

  // ----- ptrace(2) -----

  lemma TraceMeDefers<Id>(s: State<Id>, t: Id, k: Kernel<Id>, but: set<Id>, dying: set<Id>)
    requires AllDeferred(s, but) && t in s.recs
    ensures Defers(s, DoTraceMe(s, t, k), k, but, dying)
  {
    hide Defers, AllDeferred, Attach;
    NothingDefers(s, k, but, dying);
    var parent := s.recs[t].parent;
    if Registered(s, parent) {
      var p := parent.value;
      var s1 := Attach(s, t, p);
      AttachDefers(s, t, p, k, but, dying);
      DefersAll(s, s1, k, but, dying);
      WokenDefers(s1, p, k, but, dying);
      DefersTwice(s, s1, Woken(s1, p), k, but, but, dying);
    }
  }

  lemma WokenDefers<Id>(s: State<Id>, p: Id, k: Kernel<Id>, but: set<Id>, dying: set<Id>)
    requires AllDeferred(s, but) && p in s.recs
    ensures Defers(s, Woken(s, p), k, but, dying)
  {
    WithDefers(s, p, Woken(s, p).recs[p], k, but, dying);
  }

  lemma DoAttachDefers<Id>(s: State<Id>, p: Id, pid: int, k: Kernel<Id>, but: set<Id>, dying: set<Id>)
    requires AllDeferred(s, but) && p in s.recs && Ordered(s)
    ensures Defers(s, DoAttach(s, p, pid), k, but, dying)
  {
    hide Defers, AllDeferred, Attach;
    NothingDefers(s, k, but, dying);
    var t := if s.recs[p].pid == pid then Some(p) else FindPid(s.order, s.recs, pid);
    if t.Some? { AttachDefers(s, t.value, p, k, but, dying); }
  }

  lemma ProceedDefers<Id>(s: State<Id>, t: Id, k: Kernel<Id>, but: set<Id>, dying: set<Id>)
    requires AllDeferred(s, but) && t in s.recs && Ordered(s) && t !in but
    ensures Defers(s, Proceed(s, t, k), k, but, dying)
  {
    hide Defers, AllDeferred, QuietEvent, Restart;
    DeferredAt(s, t, but);
    var e := s.recs[t].asPtracee;
    NothingDefers(s, k, but, dying);
    AllDeferredMore(s, t, but);
    if e.proot.pending { QuietEventDefers(s, t, e.proot.value, k, but, dying); }
    var s1 := if e.proot.pending then QuietEvent(s, t, e.proot.value, k) else s;
    DefersAll(s, s1, k, but, dying);
    RestartDefers(s1, t, k, but, dying);
    DefersTwice(s, s1, Restart(s1, t, k).0, k, but, but, dying);
  }

  lemma DeferredAt<Id>(s: State<Id>, t: Id, but: set<Id>)
    requires AllDeferred(s, but) && t in s.recs && t !in but
    ensures Deferred(s.recs[t])
    ensures s.recs[t].asPtracee.proot.pending ==> !s.recs[t].asPtracee.proot.value.IsDeath()
  {}

  lemma AllDeferredMore<Id>(s: State<Id>, t: Id, but: set<Id>)
    requires AllDeferred(s, but)
    ensures AllDeferred(s, but + {t})
  {}

  /** So the handling of a pending event, at a request of its ptracer, leaves nothing out. */
  lemma ProceedIsFull<Id>(s: State<Id>, t: Id, k: Kernel<Id>)
    requires t in s.recs && Ordered(s) && Deferred(s.recs[t])
    ensures var e := s.recs[t].asPtracee.proot;
            Proceed(s, t, k) == Restart(if e.pending then TraceeEvent(s, t, e.value, k) else s, t, k).0
  {
    if s.recs[t].asPtracee.proot.pending { PendingIsQuiet(s, t, k); }
    hide TraceeEvent, QuietEvent, Restart;
  }

  lemma DoRequestDefers<Id>(s: State<Id>, p: Id, t: Id, request: Request, k: Kernel<Id>, but: set<Id>, dying: set<Id>)
    requires AllDeferred(s, but) && p in s.recs && t in s.recs && Ptracer(s, t) == Some(p) && Ordered(s) && t !in but
    ensures Defers(s, DoRequest(s, p, t, request, k), k, but, dying)
  {
    hide Defers, AllDeferred, Proceed, Detach;
    NothingDefers(s, k, but, dying);
    var e := s.recs[t].asPtracee;
    match request {
      case Resume(_, ignore) =>
        var e1 := e.(ignoreSyscalls := if ignore.Some? then ignore.value else e.ignoreSyscalls);
        var s1 := SetPtracee(s, t, e1);
        SetPtraceeDefers(s, t, e1, k, but, dying);
        DefersAll(s, s1, k, but, dying);
        ProceedDefers(s1, t, k, but, dying);
        DefersTwice(s, s1, Proceed(s1, t, k), k, but, but, dying);
      case LetGo(_) =>
        DetachDefers(s, t, k, but, dying);
        DefersAll(s, Detach(s, t), k, but, dying);
        ProceedDefers(Detach(s, t), t, k, but, dying);
        DefersTwice(s, Detach(s, t), Proceed(Detach(s, t), t, k), k, but, but, dying);
      case SetOptions(_, options, _) => SetPtraceeDefers(s, t, e.(options := options), k, but, dying);
      case _ =>
    }
  }

  lemma PtraceExitDefers<Id>(s: State<Id>, p: Id, request: Request, k: Kernel<Id>, dying: set<Id>)
    requires AllDeferred(s, {p}) && p in s.recs && Ordered(s) && Ptracer(s, p) != Some(p)
    ensures Defers(s, PtraceExit(s, p, request, k), k, {p}, dying)
  {
    hide Defers, AllDeferred, DoTraceMe, DoAttach, Subject, DoRequest;
    NothingDefers(s, k, {p}, dying);
    match request {
      case TraceMe => TraceMeDefers(s, p, k, {p}, dying);
      case AttachTo(pid) => DoAttachDefers(s, p, pid, k, {p}, dying);
      case _ =>
        var t := Subject(s, p, request.pid);
        if t.Some? { DoRequestDefers(s, p, t.value, request, k, {p}, dying); }
    }
  }

  // ----- Events -----

  lemma ExitStageDefers<Id>(s: State<Id>, t: Id, k: Kernel<Id>, dying: set<Id>)
    requires AllDeferred(s, {t}) && t in s.recs && Ordered(s) && Ptracer(s, t) != Some(t)
    ensures Defers(s, ExitStage(s, t, k), k, {t}, dying)
  {
    hide Defers, AllDeferred, WaitExit, PtraceExit;
    NothingDefers(s, k, {t}, dying);
    match CallOf(k, t) {
      case WaitCall(pid, options) => WaitExitDefers(s, t, pid, options, k, {t}, dying);
      case PtraceCall(request) => PtraceExitDefers(s, t, request, k, dying);
      case OtherCall =>
    }
  }

  lemma GetTraceeDefers<Id>(s: State<Id>, id: Id, pid: int, k: Kernel<Id>, but: set<Id>, dying: set<Id>)
    requires AllDeferred(s, but) && Ordered(s) && Unused(s, id, pid)
    ensures Defers(s, GetTracee(s, id, pid).0, k, but, dying)
  {
    hide FindPid;
  }

  lemma AdoptedDefers<Id>(s: State<Id>, c: Id, t: Id, b: Birth<Id>, k: Kernel<Id>, but: set<Id>, dying: set<Id>)
    requires AllDeferred(s, but) && c in s.recs && t in s.recs
    ensures Defers(s, Adopted(s, c, t, b), k, but, dying)
  {
    hide Defers, AllDeferred, Attach, Inherits;
    var r := s.recs[t];
    var rc := s.recs[c].(parent := if b.sharesParent then r.parent else Some(t), clone := b.sharesThreads);
    ReparentDefers(s, c, rc, k, but, dying);
    var s1 := With(s, c, rc);
    DefersAll(s, s1, k, but, dying);
    if Registered(s1, r.asPtracee.ptracer) {
      var p := r.asPtracee.ptracer.value;
      AttachDefers(s1, c, p, k, but, dying);
      var s2 := Attach(s1, c, p);
      DefersAll(s1, s2, k, but, dying);
      DefersTwice(s, s1, s2, k, but, but, dying);
      var e := s2.recs[c].asPtracee.(options := r.asPtracee.options);
      SetPtraceeDefers(s2, c, e, k, but, dying);
      DefersTwice(s, s2, SetPtracee(s2, c, e), k, but, but, dying);
    }
  }

  lemma ReparentDefers<Id>(s: State<Id>, c: Id, r: Tracee<Id>, k: Kernel<Id>, but: set<Id>, dying: set<Id>)
    requires AllDeferred(s, but) && c in s.recs && r == s.recs[c].(parent := r.parent, clone := r.clone)
    ensures Defers(s, With(s, c, r), k, but, dying)
  {
    WithDefers(s, c, r, k, but, dying);
  }

  lemma NewChildDefers<Id>(s: State<Id>, t: Id, b: Birth<Id>, k: Kernel<Id>, but: set<Id>, dying: set<Id>)
    requires AllDeferred(s, but) && t in s.recs && Ordered(s)
    ensures Defers(s, NewChild(s, t, b), k, but, dying)
  {
    hide Defers, AllDeferred, GetTracee, Adopted;
    NothingDefers(s, k, but, dying);
    if Unused(s, b.child, b.pid) {
      hide Unused;
      var (s1, c) := GetTracee(s, b.child, b.pid);
      GetTraceeDefers(s, b.child, b.pid, k, but, dying);
      DefersAll(s, s1, k, but, dying);
      AdoptedDefers(s1, c, t, b, k, but, dying);
      DefersTwice(s, s1, Adopted(s1, c, t, b), k, but, but, dying);
    }
  }

  /** Whatever the event, once it is handled all that is pending is deferred. */
  lemma TraceeEventDefers<Id>(s: State<Id>, t: Id, ev: Event, k: Kernel<Id>, dying: set<Id>)
    requires AllDeferred(s, {t}) && t in s.recs && Ordered(s) && Ptracer(s, t) != Some(t) && (ev.IsDeath() ==> t in dying)
    ensures Defers(s, TraceeEvent(s, t, ev, k), k, {}, dying)
  {
    hide Defers, AllDeferred, ExitStage, NewChild, QuietEvent, ClearProot;
    var s' := TraceeEvent(s, t, ev, k);
    assert {} + {t} == {t};
    if InExitStage(s, t, ev, k) {
      var s1 := ExitStage(s, t, k);
      ExitStageDefers(s, t, k, dying);
      DefersAll(s, s1, k, {t}, dying);
      var s2 := SetSysexit(s1, t, false);
      WithDefers(s1, t, s1.recs[t].(inSysexit := false), k, {t}, dying);
      DefersTwice(s, s1, s2, k, {t}, {t}, dying);
      DefersAll(s, s2, k, {t}, dying);
      ClearProotDefers(s2, t, k, {}, dying);
      DefersTwice(s, s2, s', k, {t}, {}, dying);
    } else if Announces(ev) && t in k.births {
      var s1 := NewChild(s, t, k.births[t]);
      NewChildDefers(s, t, k.births[t], k, {t}, dying);
      DefersAll(s, s1, k, {t}, dying);
      ClearProotDefers(s1, t, k, {}, dying);
      DefersTwice(s, s1, s', k, {t}, {}, dying);
    } else {
      QuietEventDefers(s, t, ev, k, {}, dying);
    }
  }

  lemma WakeDefers<Id>(s: State<Id>, t: Id, p: Id, k: Kernel<Id>, but: set<Id>, dying: set<Id>)
    requires AllDeferred(s, but) && t in s.recs && p in s.recs && Ptracer(s, t) == Some(p)
    ensures Defers(s, Wake(s, t, p, k).0, k, but, dying)
  {
    hide Defers, AllDeferred, ReadTracee, Restart;
    var s1 := ReadTracee(s, p, t, k).0;
    ReadTraceeDefers(s, p, t, k, but, dying);
    DefersAll(s, s1, k, but, dying);
    var s2 := SetPtracer(s1, p, AsTracer(s1, p).(waitPid := 0));
    SetPtracerDefers(s1, p, AsTracer(s1, p).(waitPid := 0), k, but, dying);
    DefersTwice(s, s1, s2, k, but, but, dying);
    DefersAll(s, s2, k, but, dying);
    RestartDefers(s2, p, k, but, dying);
    DefersTwice(s, s2, Restart(s2, p, k).0, k, but, but, dying);
  }

  lemma TellDefers<Id>(s: State<Id>, t: Id, p: Id, ev: Event, k: Kernel<Id>, but: set<Id>, dying: set<Id>)
    requires AllDeferred(s, but) && t in s.recs && p in s.recs && Ptracer(s, t) == Some(p)
    ensures Defers(s, Tell(s, t, p, ev, k).0, k, but, dying)
  {
    hide Defers, AllDeferred, Wake;
    var e := s.recs[t].asPtracee.(event := EventSlot(ev, true));
    var s1 := SetPtracee(s, t, e);
    SetPtraceeDefers(s, t, e, k, but, dying);
    DefersAll(s, s1, k, but, dying);
    WakeDefers(s1, t, p, k, but, dying);
    DefersTwice(s, s1, Wake(s1, t, p, k).0, k, but, but, dying);
  }

  lemma FirstDefers<Id>(s: State<Id>, t: Id, ev: Event, k: Kernel<Id>, dying: set<Id>)
    requires AllDeferred(s, {t}) && t in s.recs && Ordered(s) && Ptracer(s, t) != Some(t) && (ev.IsDeath() ==> t in dying)
    ensures Defers(s, First(s, t, ev, k), k, {}, dying)
  {
    hide Defers, AllDeferred, TraceeEvent;
    var s1 := TraceeEvent(s, t, ev, k);
    TraceeEventDefers(s, t, ev, k, dying);
    DefersAll(s, s1, k, {}, dying);
    var e := s1.recs[t].asPtracee;
    SetPtraceeDefers(s1, t, e.(proot := EventSlot(SignalStop(0), e.proot.pending)), k, {}, dying);
    DefersTwice(s, s1, First(s, t, ev, k), k, {}, {}, dying);
  }

  lemma PassOnDefers<Id>(s: State<Id>, t: Id, p: Id, ev: Event, shown: Event, first: bool, k: Kernel<Id>, but: set<Id>,
                         dying: set<Id>)
    requires AllDeferred(s, but) && but <= {t} && t in s.recs && Ordered(s) && Ptracer(s, t) != Some(t)
    requires ev.IsDeath() ==> t in dying
    ensures Defers(s, PassOn(s, t, p, ev, shown, first, k).0, k, if first then {} else but, dying)
  {
    hide Defers, AllDeferred, First, Tell;
    var but' := if first then {} else but;
    NothingDefers(s, k, but, dying);
    AllDeferredUpTo(s, t, but);
    if first { FirstDefers(s, t, ev, k, dying); }
    var s1 := if first then First(s, t, ev, k) else s;
    DefersAll(s, s1, k, but', dying);
    if Ptracer(s1, t) == Some(p) && p in s1.recs {
      TellDefers(s1, t, p, shown, k, but', dying);
      DefersTwice(s, s1, Tell(s1, t, p, shown, k).0, k, but', but', dying);
    }
  }

  lemma AllDeferredUpTo<Id>(s: State<Id>, t: Id, but: set<Id>)
    requires AllDeferred(s, but) && but <= {t}
    ensures AllDeferred(s, {t})
  {}

  /** What is kept of an event shown to a ptracer can wait. */
  lemma ShownIsDeferrable<Id>(r: Tracee<Id>, ev: Event, loading: bool)
    ensures var sifted := Sift(r, ev, loading);
            sifted.Shown? && !sifted.first && !sifted.event.IsDeath() ==> Deferrable(EventSlot(ev, true), r.inSysexit)
    ensures var sifted := Sift(r, ev, loading); sifted.Shown? ==> (sifted.event.IsDeath() ==> ev.IsDeath())
  {}

  /** The slot of the event, and the start of the tracing. */
  lemma SlotsDefer<Id>(s: State<Id>, t: Id, ev: Event, starts: bool, k: Kernel<Id>, dying: set<Id>)
    requires AllDeferred(s, {t}) && t in s.recs
    ensures var s0 := SetProot(s, t, EventSlot(ev, true));
            var e := s0.recs[t].asPtracee;
            var s1 := SetPtracee(s0, t, e.(tracingStarted := e.tracingStarted || starts));
            && Defers(s, s0, k, {t}, dying) && Defers(s, s1, k, {t}, dying) && Ptracer(s1, t) == Ptracer(s, t)
            && s1.recs[t].asPtracee.proot == EventSlot(ev, true) && s1.recs[t].inSysexit == s.recs[t].inSysexit
  {
    hide Defers, AllDeferred, SetPtracee;
    var e0 := s.recs[t].asPtracee.(proot := EventSlot(ev, true));
    var s0 := SetPtracee(s, t, e0);
    SetPtraceeDefers(s, t, e0, k, {t}, dying);
    SetPtraceeStays(s, t, e0);
    DefersAll(s, s0, k, {t}, dying);
    var e := e0.(tracingStarted := e0.tracingStarted || starts);
    SetPtraceeDefers(s0, t, e, k, {t}, dying);
    SetPtraceeStays(s0, t, e);
    DefersTwice(s, s0, SetPtracee(s0, t, e), k, {t}, {t}, dying);
  }

  lemma PtraceeEventDefers<Id>(s: State<Id>, t: Id, p: Id, ev: Event, k: Kernel<Id>, dying: set<Id>)
    requires AllDeferred(s, {t}) && t in s.recs && Ordered(s) && Ptracer(s, t) == Some(p) && p != t
    requires ev.IsDeath() ==> t in dying
    ensures var (s', keep) := PtraceeEvent(s, t, p, ev, k); Defers(s, s', k, if keep then {} else {t}, dying)
  {
    hide Defers, AllDeferred, PassOn, SetPtracee, Sift, Deferrable, Grown;
    var sifted := Sift(s.recs[t], ev, t in k.loading);
    var starts := sifted.Shown? && sifted.starts;
    ShownIsDeferrable(s.recs[t], ev, t in k.loading);
    SlotsDefer(s, t, ev, starts, k, dying);
    var s0 := SetProot(s, t, EventSlot(ev, true));
    hide SetProot;
    if sifted.Shown? {
      var e := s0.recs[t].asPtracee;
      var s1 := SetPtracee(s0, t, e.(tracingStarted := e.tracingStarted || starts));
      DefersAll(s, s1, k, {t}, dying);
      ShownDefers(s1, t, p, ev, sifted.event, sifted.first, k, dying);
      var (s', keep) := PassOn(s1, t, p, ev, sifted.event, sifted.first, k);
      DefersTwice(s, s1, s', k, {t}, if keep then {} else {t}, dying);
    }
  }

  lemma ShownDefers<Id>(s: State<Id>, t: Id, p: Id, ev: Event, shown: Event, first: bool, k: Kernel<Id>, dying: set<Id>)
    requires AllDeferred(s, {t}) && t in s.recs && Ordered(s) && Ptracer(s, t) != Some(t) && (ev.IsDeath() ==> t in dying)
    requires !first && !shown.IsDeath() ==> Deferred(s.recs[t])
    ensures var (s', keep) := PassOn(s, t, p, ev, shown, first, k); Defers(s, s', k, if keep then {} else {t}, dying)
  {
    var (s', keep) := PassOn(s, t, p, ev, shown, first, k);
    var but := if !first && !shown.IsDeath() then {} else {t};
    assert AllDeferred(s, but);
    hide Defers, AllDeferred, PassOn;
    PassOnDefers(s, t, p, ev, shown, first, k, but, dying);
    KeptIsLive(s, t, p, ev, shown, first, k);
    DefersMore(s, s', k, if first then {} else but, if keep then {} else {t}, dying);
  }

  lemma SetPtraceeStays<Id>(s: State<Id>, t: Id, e: AsPtracee<Id>)
    requires t in s.recs
    ensures SetPtracee(s, t, e).recs[t] == s.recs[t].(asPtracee := e)
  {}

  lemma KeptIsLive<Id>(s: State<Id>, t: Id, p: Id, ev: Event, shown: Event, first: bool, k: Kernel<Id>)
    requires t in s.recs && Ordered(s)
    ensures PassOn(s, t, p, ev, shown, first, k).1 ==> !shown.IsDeath()
  {
    hide First, Wake;
  }

  // ----- Turns -----

  lemma StopDefers<Id>(s: State<Id>, t: Id, ev: Event, k: Kernel<Id>, dying: set<Id>)
    requires Sound(s) && AllDeferred(s, {}) && t in s.recs && Ordered(s) && Orderly(s, t, ev, k)
    requires ev.IsDeath() ==> t in dying
    ensures Defers(s, Stop(s, t, ev, k), k, {}, dying)
  {
    hide SoundBut, Defers, AllDeferred, PtraceeEvent, TraceeEvent, Restart, Orderly;
    var r := s.recs[t].(running := false);
    var s0 := With(s, t, r);
    DeferredAt(s, t, {});
    WithDefers(s, t, r, k, {}, dying);
    SameLinksKeep(s, t, r, {});
    StillOrderly(s, s0, t, ev, k);
    LinksOf(s0, t, {});
    DefersAll(s, s0, k, {}, dying);
    AllDeferredUpTo(s0, t, {});
    match Ptracer(s0, t) {
      case None => FinishDefers(s, s0, t, ev, k, {}, dying);
      case Some(p) =>
        var (s1, keep) := PtraceeEvent(s0, t, p, ev, k);
        PtraceeEventDefers(s0, t, p, ev, k, dying);
        DefersTwice(s, s0, s1, k, {}, if keep then {} else {t}, dying);
        if !keep {
          PtraceeEventKeeps(s0, t, p, ev, k);
          LinksOf(s1, t, {});
          FinishDefers(s, s1, t, ev, k, {t}, dying);
        }
    }
  }

  lemma FinishDefers<Id>(s: State<Id>, s1: State<Id>, t: Id, ev: Event, k: Kernel<Id>, but: set<Id>, dying: set<Id>)
    requires Defers(s, s1, k, but, dying) && but <= {t}
    requires t in s1.recs && Ordered(s1) && Ptracer(s1, t) != Some(t) && (ev.IsDeath() ==> t in dying)
    ensures Defers(s, Restart(TraceeEvent(s1, t, ev, k), t, k).0, k, {}, dying)
  {
    hide Defers, AllDeferred, TraceeEvent, Restart;
    var s2 := TraceeEvent(s1, t, ev, k);
    DefersAll(s, s1, k, but, dying);
    AllDeferredUpTo(s1, t, but);
    TraceeEventDefers(s1, t, ev, k, dying);
    DefersTwice(s, s1, s2, k, but, {}, dying);
    DefersAll(s1, s2, k, {}, dying);
    RestartDefers(s2, t, k, {}, dying);
    DefersTwice(s, s2, Restart(s2, t, k).0, k, {}, {}, dying);
  }

  // ----- Freeing -----

  lemma ProceedsDefers<Id>(s: State<Id>, t: Id, e: AsPtracee<Id>, k: Kernel<Id>, dying: set<Id>)
    requires AllDeferred(s, {}) && t in s.recs && Ordered(s) && e.proot == s.recs[t].asPtracee.proot
    ensures Defers(s, Proceeds(s, t, e, k), k, {}, dying)
  {
    hide Defers, AllDeferred, QuietEvent, Restart;
    DeferredAt(s, t, {});
    NothingDefers(s, k, {}, dying);
    RestartDefers(s, t, k, {}, dying);
    if e.proot.pending {
      AllDeferredMore(s, t, {});
      QuietEventDefers(s, t, e.proot.value, k, {}, dying);
      var s1 := QuietEvent(s, t, e.proot.value, k);
      DefersAll(s, s1, k, {}, dying);
      RestartDefers(s1, t, k, {}, dying);
      DefersTwice(s, s1, Restart(s1, t, k).0, k, {}, {}, dying);
    }
  }

  /** Nor is anything left out when a ptracer goes away. */
  lemma ProceedsIsFull<Id>(s: State<Id>, t: Id, e: AsPtracee<Id>, k: Kernel<Id>)
    requires t in s.recs && Ordered(s) && Deferred(s.recs[t]) && e.proot == s.recs[t].asPtracee.proot && e.proot.pending
    ensures Proceeds(s, t, e, k) == Restart(TraceeEvent(s, t, e.proot.value, k), t, k).0
  {
    PendingIsQuiet(s, t, k);
    hide TraceeEvent, QuietEvent, Restart;
  }

  lemma ReleaseOneDefers<Id>(s: State<Id>, r: Id, gone: Id, k: Kernel<Id>, dying: set<Id>)
    requires AllDeferred(s, {}) && r in s.recs && Ordered(s)
    ensures Defers(s, ReleaseOne(s, r, gone, k), k, {}, dying)
  {
    hide Defers, AllDeferred, Proceeds, SetPtracee;
    var rec := s.recs[r];
    NothingDefers(s, k, {}, dying);
    ReparentDefers(s, r, rec.(parent := None), k, {}, dying);
    var s1 := if rec.parent == Some(gone) then With(s, r, rec.(parent := None)) else s;
    if Ptracer(s, r) == Some(gone) {
      var e := s1.recs[r].asPtracee;
      var s2 := SetPtracee(s1, r, e.(ptracer := None));
      DefersAll(s, s1, k, {}, dying);
      SetPtraceeDefers(s1, r, e.(ptracer := None), k, {}, dying);
      SetPtraceeStays(s1, r, e.(ptracer := None));
      DefersTwice(s, s1, s2, k, {}, {}, dying);
      DefersAll(s, s2, k, {}, dying);
      ProceedsDefers(s2, r, e, k, dying);
      var s3 := Proceeds(s2, r, e, k);
      DefersTwice(s, s2, s3, k, {}, {}, dying);
      DefersAll(s, s3, k, {}, dying);
      SetPtraceeDefers(s3, r, Untraced(), k, {}, dying);
      DefersTwice(s, s3, SetPtracee(s3, r, Untraced()), k, {}, {}, dying);
    }
  }

  lemma {:induction false} ReleaseDefers<Id>(s: State<Id>, relatives: seq<Id>, gone: Id, k: Kernel<Id>, dying: set<Id>)
    requires AllDeferred(s, {}) && Ordered(s) && forall r <- relatives :: r in s.recs
    ensures Defers(s, Release(s, relatives, gone, k), k, {}, dying)
    decreases |relatives|
  {
    hide Defers, AllDeferred, ReleaseOne;
    NothingDefers(s, k, {}, dying);
    if relatives != [] {
      var s1 := ReleaseOne(s, relatives[0], gone, k);
      ReleaseOneDefers(s, relatives[0], gone, k, dying);
      DefersAll(s, s1, k, {}, dying);
      ReleaseDefers(s1, relatives[1..], gone, k, dying);
      DefersTwice(s, s1, Release(s, relatives, gone, k), k, {}, {}, dying);
    }
  }

  lemma ZombifyDefers<Id>(s: State<Id>, t: Id, p: Id, k: Kernel<Id>, dying: set<Id>)
    requires AllDeferred(s, {}) && t in s.recs && p in s.recs && Ptracer(s, t) == Some(p)
    ensures Defers(s, Zombify(s, t, p), k, {}, dying)
  {
    hide Defers, AllDeferred, Detach, SetPtracer;
    var r, s1 := s.recs[t], Detach(s, t);
    DetachDefers(s, t, k, {}, dying);
    DefersAll(s, s1, k, {}, dying);
    var a := AsTracer(s1, p);
    var a1 := a.(nbPtracees := a.nbPtracees + 1,
                 zombies := [Zombie(r.pid, r.clone, r.parent, r.asPtracee.event.value)] + a.zombies);
    SetPtracerDefers(s1, p, a1, k, {}, dying);
    DefersTwice(s, s1, SetPtracer(s1, p, a1), k, {}, {}, dying);
  }

  lemma ForgetDefers<Id>(s: State<Id>, t: Id, p: Id, k: Kernel<Id>, dying: set<Id>)
    requires AllDeferred(s, {}) && t in s.recs && p in s.recs && Ptracer(s, t) == Some(p)
    ensures Defers(s, Forget(s, t, p, k), k, {}, dying)
  {
    hide Defers, AllDeferred, Detach, SetPtracer, Restart;
    var s1 := Detach(s, t);
    DetachDefers(s, t, k, {}, dying);
    DefersAll(s, s1, k, {}, dying);
    var a := AsTracer(s1, p).(waitPid := 0);
    var s2 := SetPtracer(s1, p, a);
    SetPtracerDefers(s1, p, a, k, {}, dying);
    DefersTwice(s, s1, s2, k, {}, {}, dying);
    DefersAll(s, s2, k, {}, dying);
    RestartDefers(s2, p, k, {}, dying);
    DefersTwice(s, s2, Restart(s2, p, k).0, k, {}, {}, dying);
  }

  lemma LeaveDefers<Id>(s: State<Id>, t: Id, k: Kernel<Id>, dying: set<Id>)
    requires AllDeferred(s, {}) && t in s.recs && (Ptracer(s, t).Some? ==> Ptracer(s, t).value in s.recs)
    ensures Defers(s, Leave(s, t, k), k, {}, dying)
  {
    hide Defers, AllDeferred, Zombify, Forget, Leave;
    LeaveCases(s, t, k);
    NothingDefers(s, k, {}, dying);
    if Ptracer(s, t).Some? {
      ZombifyDefers(s, t, Ptracer(s, t).value, k, dying);
      ForgetDefers(s, t, Ptracer(s, t).value, k, dying);
    }
  }

  lemma RemoveDefers<Id>(s: State<Id>, t: Id, k: Kernel<Id>, dying: set<Id>)
    requires Sound(s) && AllDeferred(s, {}) && t in s.recs && Ordered(s)
    ensures Defers(s, Remove(s, t, k), k, {}, dying)
  {
    hide SoundBut, Release, Leave, Released;
    var order := Without(s.order, t);
    var s0 := s.(order := order);
    var s1 := Release(s0, order, t, k);
    UnlistKeeps(s, t);
    ReleaseKeeps(s0, order, t, k, {t});
    ReleaseDefers(s0, order, t, k, dying);
    LinksOf(s1, t, {t});
    LeaveDefers(s1, t, k, dying);
    hide Deferred;
  }

  lemma {:induction false} FreeTerminatedDefers<Id>(s: State<Id>, todo: seq<Id>, k: Kernel<Id>, dying: set<Id>)
    requires Sound(s) && Enrolled(s) && AllDeferred(s, {}) && Ordered(s)
    ensures Defers(s, FreeTerminated(s, todo, k), k, {}, dying)
    decreases |todo|
  {
    hide SoundBut, Defers, AllDeferred, Remove, Enrolled;
    NothingDefers(s, k, {}, dying);
    if todo != [] {
      if todo[0] in s.recs && s.recs[todo[0]].terminated {
        var s1 := Remove(s, todo[0], k);
        RemoveKeeps(s, todo[0], k);
        RemoveDefers(s, todo[0], k, dying);
        DefersAll(s, s1, k, {}, dying);
        FreeTerminatedDefers(s1, todo[1..], k, dying);
        DefersTwice(s, s1, FreeTerminated(s, todo, k), k, {}, {}, dying);
      } else {
        FreeTerminatedDefers(s, todo[1..], k, dying);
      }
    }
  }

  // ----- Runs -----

  lemma HandledDefers<Id>(s: State<Id>, i: Input<Id>, dying: set<Id>)
    requires Sound(s) && Enrolled(s) && AllDeferred(s, {}) && Ready(s, i)
    ensures Defers(s, Handled(s, i).0, i.kernel, {}, dying)
  {
    hide SoundBut, Defers, AllDeferred, FreeTerminated, GetTracee;
    var s1 := FreeTerminated(s, s.order, i.kernel);
    FreeTerminatedDefers(s, s.order, i.kernel, dying);
    DefersAll(s, s1, i.kernel, {}, dying);
    GetTraceeDefers(s1, i.id, i.pid, i.kernel, {}, dying);
    DefersTwice(s, s1, Handled(s, i).0, i.kernel, {}, {}, dying);
  }

  lemma TurnDefers<Id>(s: State<Id>, i: Input<Id>)
    requires Sound(s) && Enrolled(s) && AllDeferred(s, {}) && Ready(s, i) && FairTurn(s, i)
    ensures AllDeferred(Turn(s, i), {})
  {
    hide SoundBut, Defers, AllDeferred, Stop, Orderly, Handled;
    var (s1, t) := Handled(s, i);
    HandledKeeps(s, i);
    HandledDefers(s, i, {t});
    DefersAll(s, s1, i.kernel, {}, {t});
    StopDefers(s1, t, i.event, i.kernel, {t});
    DefersAll(s1, Turn(s, i), i.kernel, {}, {t});
  }

  /** Over every run, whatever is pending for a tracee is a signal or the entry of a system call. */
  lemma {:induction false} RunDefers<Id>(s: State<Id>, inputs: seq<Input<Id>>)
    requires Sound(s) && Enrolled(s) && AllDeferred(s, {}) && FairRun(s, inputs)
    ensures AllDeferred(Run(s, inputs), {})
    decreases |inputs|
  {
    hide SoundBut, Enrolled, AllDeferred, Turn, FairTurn;
    if inputs != [] {
      TurnKeeps(s, inputs[0]);
      TurnDefers(s, inputs[0]);
      RunDefers(Turn(s, inputs[0]), inputs[1..]);
    }
  }

  lemma StartIsDeferred<Id>()
    ensures AllDeferred(Start<Id>(), {})
  {}

  // ----- What these say of the states themselves -----

  lemma DetachedIsDeferred<Id>(s: State<Id>, t: Id)
    requires t in s.recs && Ptracer(s, t).Some? && Ptracer(s, t).value in s.recs && Deferred(s.recs[t])
    ensures Deferred(Detach(s, t).recs[t])
  {}

  lemma FirstIsDeferred<Id>(s: State<Id>, t: Id, ev: Event, k: Kernel<Id>)
    requires AllDeferred(s, {t}) && t in s.recs && Ordered(s) && Ptracer(s, t) != Some(t)
    ensures AllDeferred(First(s, t, ev, k), {t})
  {
    hide First, Deferred;
    FirstDefers(s, t, ev, k, {t});
  }

  lemma TellIsDeferred<Id>(s: State<Id>, t: Id, p: Id, ev: Event, k: Kernel<Id>)
    requires AllDeferred(s, {t}) && t in s.recs && p in s.recs && Ptracer(s, t) == Some(p)
    ensures AllDeferred(Tell(s, t, p, ev, k).0, {t})
  {
    hide Tell, Deferred;
    TellDefers(s, t, p, ev, k, {t}, {});
  }

  lemma SlotIsDeferred<Id>(s: State<Id>, t: Id, e: AsPtracee<Id>)
    requires AllDeferred(s, {t}) && t in s.recs
    ensures AllDeferred(SetPtracee(s, t, e), {t})
  {}

  lemma StoppedIsDeferred<Id>(s: State<Id>, t: Id)
    requires AllDeferred(s, {t}) && t in s.recs
    ensures AllDeferred(With(s, t, s.recs[t].(running := false)), {t})
  {}

  lemma ReleaseOneIsDeferred<Id>(s: State<Id>, r: Id, gone: Id, k: Kernel<Id>)
    requires AllDeferred(s, {}) && r in s.recs && Ordered(s)
    ensures AllDeferred(ReleaseOne(s, r, gone, k), {}) && Deferred(s.recs[r])
  {
    hide ReleaseOne, Deferred;
    ReleaseOneDefers(s, r, gone, k, {});
  }

  lemma RemoveIsDeferred<Id>(s: State<Id>, t: Id, k: Kernel<Id>)
    requires Sound(s) && AllDeferred(s, {}) && t in s.recs && Ordered(s)
    ensures AllDeferred(Remove(s, t, k), {})
  {
    hide SoundBut, Remove, Deferred;
    RemoveDefers(s, t, k, {});
  }

  lemma HandledIsDeferred<Id>(s: State<Id>, i: Input<Id>)
    requires Sound(s) && Enrolled(s) && AllDeferred(s, {}) && Ready(s, i)
    ensures var (s1, t) := Handled(s, i); AllDeferred(s1, {t})
  {
    hide SoundBut, Enrolled, Handled, Deferred;
    HandledDefers(s, i, {});
  }
}
