/**
 * A blocked waiter is never stranded: whoever waits in the emulated wait(2) is stopped and
 * still has a ptracee, live or zombie, to wait for.
 */
module PtraceBlocking {
  import opened Wrappers
  import opened PtraceState
  import opened PtraceEmulation
  import opened PtraceConservation

  predicate Calm<Id>(r: Tracee<Id>) {
    r.asPtracer.waitPid != 0 ==> !r.running && r.asPtracer.nbPtracees > 0
  }

  predicate Blocked<Id>(s: State<Id>, but: set<Id>) {
    forall t | t in s.recs && t !in but :: Calm(s.recs[t])
  }

  predicate NeverStranded<Id>(s: State<Id>) { Blocked(s, {}) }

  lemma WithCalm<Id>(s: State<Id>, t: Id, r: Tracee<Id>, but: set<Id>)
    requires Blocked(s, but) && t in s.recs && r.pid == s.recs[t].pid && (t in but || Calm(r))
    ensures Blocked(With(s, t, r), but)
  {}

  /** A record that blocks no more than before. */
  predicate Eased<Id(==)>(r: Tracee<Id>, r': Tracee<Id>) {
    && r'.pid == r.pid && (r'.running ==> r.running) && r'.asPtracer.waitPid == r.asPtracer.waitPid
    && r'.asPtracer.nbPtracees >= r.asPtracer.nbPtracees
  }

  lemma EasedCalm<Id>(s: State<Id>, t: Id, r: Tracee<Id>, but: set<Id>)
    requires Blocked(s, but) && t in s.recs && Eased(s.recs[t], r)
    ensures Blocked(With(s, t, r), but)
  {
    WithCalm(s, t, r, but);
  }

  lemma RestartCalm<Id>(s: State<Id>, t: Id, k: Kernel<Id>, but: set<Id>)
    requires Blocked(s, but) && t in s.recs
    ensures Blocked(Restart(s, t, k).0, but)
  {
    if AsTracer(s, t).waitPid == 0 { WithCalm(s, t, s.recs[t].(running := true), but); }
  }

  lemma SetPtraceeCalm<Id>(s: State<Id>, t: Id, e: AsPtracee<Id>, but: set<Id>)
    requires Blocked(s, but) && t in s.recs
    ensures Blocked(SetPtracee(s, t, e), but)
  {
    EasedCalm(s, t, s.recs[t].(asPtracee := e), but);
  }

  lemma AttachCalm<Id>(s: State<Id>, t: Id, p: Id, but: set<Id>)
    requires Blocked(s, but) && t in s.recs && p in s.recs
    ensures Blocked(Attach(s, t, p), but)
  {
    hide Blocked;
    var e := Untraced<Id>().(ptracer := Some(p));
    var s1 := SetPtracee(s, t, e);
    SetPtraceeCalm(s, t, e, but);
    EasedCalm(s1, p, AddPtracees(s1, p, 1).recs[p], but);
  }

  /** Losing a ptracee: fine for who does not wait, or has another one. */
  lemma DetachCalm<Id>(s: State<Id>, t: Id, but: set<Id>)
    requires Blocked(s, but) && t in s.recs && Ptracer(s, t).Some? && Ptracer(s, t).value in s.recs
    requires var p := Ptracer(s, t).value;
             p in but || AsTracer(s, p).waitPid == 0 || AsTracer(s, p).nbPtracees > 1
    ensures Blocked(Detach(s, t), but)
  {
    var e, p := s.recs[t].asPtracee.(ptracer := None), Ptracer(s, t).value;
    var s1 := SetPtracee(s, t, e);
    SetPtraceeCalm(s, t, e, but);
    WithCalm(s1, p, AddPtracees(s1, p, -1).recs[p], but);
  }

  // ----- wait(2) -----

  lemma WaitEnterCalm<Id>(s: State<Id>, p: Id, pid: int, options: WaitOptions, but: set<Id>)
    requires Blocked(s, but) && p in s.recs && Ordered(s)
    ensures Blocked(WaitEnter(s, p, pid, options), but)
  {
    hide Blocked, GetPtracee;
    var r := s.recs[p];
    var r1 := r.(asPtracer := r.asPtracer.(waitsIn := WaitsInKernel));
    EasedCalm(s, p, r1, but);
    EasedCalm(With(s, p, r1), p, r.(asPtracer := r.asPtracer.(waitsIn := WaitsInProot)), but);
  }

  lemma ReadTraceeCalm<Id>(s: State<Id>, p: Id, t: Id, k: Kernel<Id>, but: set<Id>)
    requires Blocked(s, but) && p in s.recs && t in s.recs && Ptracer(s, t) == Some(p)
    requires p in but || AsTracer(s, p).waitPid == 0
    ensures Blocked(ReadTracee(s, p, t, k).0, but)
  {
    hide Blocked;
    var e := s.recs[t].asPtracee;
    DetachCalm(s, t, but);
    SetPtraceeCalm(s, t, e.(event := e.event.(pending := false)), but);
  }

  /** The exit stage of a wait: whoever gets blocked here is stopped and has ptracees. */
  lemma WaitExitCalm<Id>(s: State<Id>, p: Id, pid: int, options: WaitOptions, k: Kernel<Id>)
    requires Sound(s) && NeverStranded(s) && p in s.recs && Ordered(s)
    requires !s.recs[p].running && AsTracer(s, p).waitPid == 0
    ensures NeverStranded(WaitExit(s, p, pid, options, k).0)
  {
    hide Blocked, GetPtracee, ReadTracee, Bury, SoundBut;
    var r := s.recs[p];
    var a := r.asPtracer.(waitsIn := DoesntWait);
    var s1 := SetPtracer(s, p, a);
    EasedCalm(s, p, r.(asPtracer := a), {});
    match GetPtracee(s1, p, pid, true, true, options) {
      case AZombie(i) => BuryCalm(s1, p, i);
      case ATracee(t) => ReadTraceeCalm(s1, p, t, k, {});
      case Nobody =>
        CountIsNatural(s, p);
        if a.nbPtracees != 0 {
          WithCalm(s1, p, r.(asPtracer := a.(waitPid := pid, waitOptions := options)), {});
        }
    }
  }

  lemma BuryCalm<Id>(s: State<Id>, p: Id, i: nat)
    requires NeverStranded(s) && p in s.recs && i < |AsTracer(s, p).zombies| && AsTracer(s, p).waitPid == 0
    ensures NeverStranded(Bury(s, p, i))
  {
    hide Blocked;
    var a := AsTracer(s, p);
    WithCalm(s, p, s.recs[p].(asPtracer := a.(nbPtracees := a.nbPtracees - 1, zombies := a.zombies[..i] + a.zombies[i + 1..])), {});
  }

  lemma CountIsNatural<Id>(s: State<Id>, p: Id)
    requires Sound(s) && p in s.recs
    ensures AsTracer(s, p).nbPtracees >= 0
  {
    assert Counted(s, p);
  }

  // ----- Events that need nothing but the tracee -----

  lemma EnterStageCalm<Id>(s: State<Id>, t: Id, k: Kernel<Id>, but: set<Id>)
    requires Blocked(s, but) && t in s.recs && Ordered(s)
    ensures Blocked(EnterStage(s, t, k), but)
  {
    hide Blocked, WaitEnter;
    EasedCalm(s, t, s.recs[t].(inSysexit := t in k.entered), but);
    match CallOf(k, t) {
      case WaitCall(pid, options) =>
        WaitEnterCalm(s, t, pid, options, but);
        var s1 := WaitEnter(s, t, pid, options);
        EasedCalm(s1, t, s1.recs[t].(inSysexit := t in k.entered), but);
      case _ =>
    }
  }

  lemma ClearProotCalm<Id>(s: State<Id>, t: Id, but: set<Id>)
    requires Blocked(s, but) && t in s.recs
    ensures Blocked(ClearProot(s, t), but)
  {
    hide Blocked;
    SetPtraceeCalm(s, t, s.recs[t].asPtracee.(proot := s.recs[t].asPtracee.proot.(pending := false)), but);
  }

  lemma QuietEventCalm<Id>(s: State<Id>, t: Id, ev: Event, k: Kernel<Id>, but: set<Id>)
    requires Blocked(s, but) && t in s.recs && Ordered(s)
    ensures Blocked(QuietEvent(s, t, ev, k), but)
  {
    hide Blocked, EnterStage, ClearProot;
    var r := s.recs[t];
    var s1 :=
      if ev.IsDeath() then With(s, t, r.(terminated := true))
      else if ev.SyscallStop? || ev.SeccompStop? then EnterStage(s, t, k)
      else if ev == SignalStop(SIGSTOP) then With(s, t, r.(sigstopAllowed := true))
      else s;
    EasedCalm(s, t, r.(terminated := true), but);
    EnterStageCalm(s, t, k, but);
    EasedCalm(s, t, r.(sigstopAllowed := true), but);
    ClearProotCalm(s1, t, but);
  }

  // ----- ptrace(2) -----

  lemma TraceMeCalm<Id>(s: State<Id>, t: Id, k: Kernel<Id>)
    requires NeverStranded(s) && t in s.recs
    ensures NeverStranded(DoTraceMe(s, t, k))
  {
    hide Blocked, Attach;
    var parent := s.recs[t].parent;
    if Registered(s, parent) {
      var p := parent.value;
      AttachCalm(s, t, p, {});
      var s1 := Attach(s, t, p);
      var r := s1.recs[p];
      EasedCalm(s1, p, r.(sigstopAllowed := false, asPtracer := r.asPtracer.(waitsIn := WaitsInProot)), {});
    }
  }

  lemma DoAttachCalm<Id>(s: State<Id>, p: Id, pid: int)
    requires NeverStranded(s) && p in s.recs && Ordered(s)
    ensures NeverStranded(DoAttach(s, p, pid))
  {
    hide Blocked, Attach;
    var t := if s.recs[p].pid == pid then Some(p) else FindPid(s.order, s.recs, pid);
    if t.Some? { AttachCalm(s, t.value, p, {}); }
  }

  lemma ProceedCalm<Id>(s: State<Id>, t: Id, k: Kernel<Id>)
    requires NeverStranded(s) && t in s.recs && Ordered(s)
    ensures NeverStranded(Proceed(s, t, k))
  {
    hide Blocked, QuietEvent, Restart;
    var e := s.recs[t].asPtracee;
    QuietEventCalm(s, t, e.proot.value, k, {});
    RestartCalm(if e.proot.pending then QuietEvent(s, t, e.proot.value, k) else s, t, k, {});
  }

  lemma DoRequestCalm<Id>(s: State<Id>, p: Id, t: Id, request: Request, k: Kernel<Id>)
    requires NeverStranded(s) && p in s.recs && t in s.recs && Ptracer(s, t) == Some(p) && Ordered(s)
    requires AsTracer(s, p).waitPid == 0
    ensures NeverStranded(DoRequest(s, p, t, request, k))
  {
    hide Blocked, Proceed, Detach;
    var e := s.recs[t].asPtracee;
    match request {
      case Resume(_, ignore) =>
        var e1 := e.(ignoreSyscalls := if ignore.Some? then ignore.value else e.ignoreSyscalls);
        SetPtraceeCalm(s, t, e1, {});
        ProceedCalm(SetPtracee(s, t, e1), t, k);
      case LetGo(_) =>
        DetachCalm(s, t, {});
        ProceedCalm(Detach(s, t), t, k);
      case SetOptions(_, options, _) => SetPtraceeCalm(s, t, e.(options := options), {});
      case _ =>
    }
  }

  lemma PtraceExitCalm<Id>(s: State<Id>, p: Id, request: Request, k: Kernel<Id>)
    requires NeverStranded(s) && p in s.recs && Ordered(s) && AsTracer(s, p).waitPid == 0
    ensures NeverStranded(PtraceExit(s, p, request, k))
  {
    hide Blocked, DoTraceMe, DoAttach, DoRequest, Subject;
    match request {
      case TraceMe => TraceMeCalm(s, p, k);
      case AttachTo(pid) => DoAttachCalm(s, p, pid);
      case _ =>
        var t := Subject(s, p, request.pid);
        if t.Some? { DoRequestCalm(s, p, t.value, request, k); }
    }
  }

  // ----- Events -----

  lemma GetTraceeCalm<Id>(s: State<Id>, id: Id, pid: int)
    requires NeverStranded(s) && Ordered(s) && Unused(s, id, pid)
    ensures NeverStranded(GetTracee(s, id, pid).0)
  {}

  lemma NewChildCalm<Id>(s: State<Id>, t: Id, b: Birth<Id>)
    requires NeverStranded(s) && Ordered(s) && t in s.recs
    ensures NeverStranded(NewChild(s, t, b))
  {
    hide Blocked, GetTracee, Adopted;
    if Unused(s, b.child, b.pid) {
      var (s1, c) := GetTracee(s, b.child, b.pid);
      GetTraceeCalm(s, b.child, b.pid);
      AdoptedCalm(s1, c, t, b);
    }
  }

  lemma AdoptedCalm<Id>(s: State<Id>, c: Id, t: Id, b: Birth<Id>)
    requires NeverStranded(s) && c in s.recs && t in s.recs
    ensures NeverStranded(Adopted(s, c, t, b))
  {
    hide Blocked, Inherit, Inherits;
    var r := s.recs[t];
    var rc := s.recs[c].(parent := if b.sharesParent then r.parent else Some(t), clone := b.sharesThreads);
    EasedCalm(s, c, rc, {});
    var s1 := With(s, c, rc);
    if Registered(s1, r.asPtracee.ptracer) { InheritCalm(s1, c, r.asPtracee.ptracer.value, r.asPtracee.options); }
  }

  lemma InheritCalm<Id>(s: State<Id>, c: Id, p: Id, options: set<TraceOption>)
    requires NeverStranded(s) && c in s.recs && p in s.recs
    ensures NeverStranded(Inherit(s, c, p, options))
  {
    hide Blocked, Attach;
    AttachCalm(s, c, p, {});
    var s3 := Attach(s, c, p);
    SetPtraceeCalm(s3, c, s3.recs[c].asPtracee.(options := options), {});
  }

  /** A tracee blocked in a wait is stopped, so that nothing but its death can be reported. */
  predicate Reportable<Id>(s: State<Id>, t: Id, ev: Event)
    requires t in s.recs
  {
    AsTracer(s, t).waitPid == 0 || ev.IsDeath() || ev.ExitStop?
  }

  lemma ExitStageCalm<Id>(s: State<Id>, t: Id, k: Kernel<Id>)
    requires Sound(s) && NeverStranded(s) && t in s.recs && Ordered(s)
    requires !s.recs[t].running && AsTracer(s, t).waitPid == 0
    ensures NeverStranded(ExitStage(s, t, k))
  {
    hide Blocked, WaitExit, PtraceExit, SoundBut;
    match CallOf(k, t) {
      case WaitCall(pid, options) => WaitExitCalm(s, t, pid, options, k);
      case PtraceCall(request) => PtraceExitCalm(s, t, request, k);
      case OtherCall =>
    }
  }

  /** Who handles an exit stage is stopped, and not blocked. */
  predicate Idle<Id>(s: State<Id>, t: Id, ev: Event, k: Kernel<Id>)
    requires t in s.recs
  {
    InExitStage(s, t, ev, k) ==> !s.recs[t].running && AsTracer(s, t).waitPid == 0
  }

  lemma TraceeEventCalm<Id>(s: State<Id>, t: Id, ev: Event, k: Kernel<Id>)
    requires Sound(s) && NeverStranded(s) && t in s.recs && Ordered(s)
    requires Idle(s, t, ev, k)
    ensures NeverStranded(TraceeEvent(s, t, ev, k))
  {
    hide Blocked, ExitStage, NewChild, QuietEvent, ClearProot, SoundBut;
    if InExitStage(s, t, ev, k) {
      ExitStageCalm(s, t, k);
      var s1 := ExitStage(s, t, k);
      EasedCalm(s1, t, s1.recs[t].(inSysexit := false), {});
      ClearProotCalm(SetSysexit(s1, t, false), t, {});
    } else if Announces(ev) && t in k.births {
      NewChildCalm(s, t, k.births[t]);
      ClearProotCalm(NewChild(s, t, k.births[t]), t, {});
    } else {
      QuietEventCalm(s, t, ev, k, {});
    }
  }

  lemma ExceptOne<Id>(s: State<Id>, p: Id)
    requires p in s.recs
    ensures Blocked(s, {p}) && Calm(s.recs[p]) <==> NeverStranded(s)
  {}

  lemma WakeCalm<Id>(s: State<Id>, t: Id, p: Id, k: Kernel<Id>)
    requires NeverStranded(s) && t in s.recs && p in s.recs && Ptracer(s, t) == Some(p)
    ensures NeverStranded(Wake(s, t, p, k).0)
  {
    hide Blocked, ReadTracee, Restart;
    ExceptOne(s, p);
    ReadTraceeCalm(s, p, t, k, {p});
    var s1 := ReadTracee(s, p, t, k).0;
    var r := s1.recs[p].(asPtracer := AsTracer(s1, p).(waitPid := 0));
    WithCalm(s1, p, r, {p});
    ExceptOne(With(s1, p, r), p);
    RestartCalm(With(s1, p, r), p, k, {});
  }

  lemma TellCalm<Id>(s: State<Id>, t: Id, p: Id, ev: Event, k: Kernel<Id>)
    requires NeverStranded(s) && t in s.recs && p in s.recs && Ptracer(s, t) == Some(p)
    ensures NeverStranded(Tell(s, t, p, ev, k).0)
  {
    hide Blocked, Wake;
    SetPtraceeCalm(s, t, s.recs[t].asPtracee.(event := EventSlot(ev, true)), {});
    WakeCalm(Notified(s, t, ev), t, p, k);
  }

  lemma FirstCalm<Id>(s: State<Id>, t: Id, ev: Event, k: Kernel<Id>)
    requires Sound(s) && NeverStranded(s) && t in s.recs && Ordered(s)
    requires Idle(s, t, ev, k)
    ensures NeverStranded(First(s, t, ev, k))
  {
    hide Blocked, TraceeEvent, SoundBut;
    TraceeEventCalm(s, t, ev, k);
    var s1 := TraceeEvent(s, t, ev, k);
    SetPtraceeCalm(s1, t, s1.recs[t].asPtracee.(proot := EventSlot(SignalStop(0), s1.recs[t].asPtracee.proot.pending)), {});
  }

  /** What a tracee does in its exit stage, and whether it is still in one. */
  predicate SameStage<Id>(s: State<Id>, s': State<Id>, t: Id)
    requires t in s.recs && t in s'.recs
  {
    && s'.recs[t].inSysexit == s.recs[t].inSysexit && s'.recs[t].running == s.recs[t].running
    && AsTracer(s', t).waitPid == AsTracer(s, t).waitPid
  }

  /** An exit stage handled first is over. */
  lemma FirstEndsStage<Id>(s: State<Id>, t: Id, ev: Event, k: Kernel<Id>)
    requires t in s.recs && Ordered(s) && (InExitStage(s, t, ev, k) || !(ev.SyscallStop? || ev.SeccompStop?) || t in k.untranslated)
    ensures !InExitStage(First(s, t, ev, k), t, ev, k)
  {
    hide ExitStage, NewChild, QuietEvent;
  }

  lemma TellStage<Id>(s: State<Id>, t: Id, p: Id, ev: Event, k: Kernel<Id>)
    requires t in s.recs && p in s.recs && Ptracer(s, t) == Some(p) && t != p
    ensures SameStage(s, Tell(s, t, p, ev, k).0, t)
  {
    var s1 := Notified(s, t, ev);
    hide ReadTracee;
    ReadTraceeStage(s1, p, t, k);
  }

  lemma ReadTraceeStage<Id>(s: State<Id>, p: Id, t: Id, k: Kernel<Id>)
    requires t in s.recs && p in s.recs && Ptracer(s, t) == Some(p) && t != p
    ensures SameStage(s, ReadTracee(s, p, t, k).0, t)
  {}

  lemma PassOnCalm<Id>(s: State<Id>, t: Id, p: Id, ev: Event, shown: Event, first: bool, k: Kernel<Id>)
    requires Sound(s) && NeverStranded(s) && t in s.recs && Ordered(s) && t != p && Idle(s, t, ev, k)
    requires first ==> InExitStage(s, t, ev, k) || !(ev.SyscallStop? || ev.SeccompStop?) || t in k.untranslated
    ensures NeverStranded(PassOn(s, t, p, ev, shown, first, k).0) && Idle(PassOn(s, t, p, ev, shown, first, k).0, t, ev, k)
  {
    hide Blocked, First, Tell, SoundBut;
    if first {
      FirstCalm(s, t, ev, k);
      FirstEndsStage(s, t, ev, k);
    }
    var s1 := if first then First(s, t, ev, k) else s;
    if Ptracer(s1, t) == Some(p) && p in s1.recs {
      TellCalm(s1, t, p, shown, k);
      TellStage(s1, t, p, shown, k);
    }
  }

  lemma SlotCalm<Id>(s: State<Id>, t: Id, e: AsPtracee<Id>, ev: Event, k: Kernel<Id>)
    requires Sound(s) && NeverStranded(s) && t in s.recs && e.ptracer == Ptracer(s, t) && Idle(s, t, ev, k)
    ensures var s' := SetPtracee(s, t, e);
            && Sound(s') && NeverStranded(s') && Idle(s', t, ev, k)
            && s'.recs[t].asPtracee == e && (InExitStage(s', t, ev, k) <==> InExitStage(s, t, ev, k))
  {
    hide Blocked, SoundBut;
    SetPtraceeCalm(s, t, e, {});
    SetPtraceeKeeps(s, t, e, {});
  }

  lemma FirstKind<Id>(s: State<Id>, t: Id, ev: Event, k: Kernel<Id>)
    requires t in s.recs
    ensures var sifted := Sift(s.recs[t], ev, t in k.loading);
            sifted.Shown? && sifted.first ==>
              InExitStage(s, t, ev, k) || !(ev.SyscallStop? || ev.SeccompStop?) || t in k.untranslated
  {}

  lemma PtraceeEventCalm<Id>(s: State<Id>, t: Id, p: Id, ev: Event, k: Kernel<Id>)
    requires Sound(s) && NeverStranded(s) && t in s.recs && Ordered(s) && Ptracer(s, t) == Some(p) && t != p
    requires Idle(s, t, ev, k)
    ensures NeverStranded(PtraceeEvent(s, t, p, ev, k).0) && Idle(PtraceeEvent(s, t, p, ev, k).0, t, ev, k)
  {
    hide Blocked, PassOn, SoundBut, SetPtracee, Sift, Idle, InExitStage;
    var e0 := s.recs[t].asPtracee.(proot := EventSlot(ev, true));
    SlotCalm(s, t, e0, ev, k);
    var s0 := SetPtracee(s, t, e0);
    FirstKind(s, t, ev, k);
    var sifted := Sift(s.recs[t], ev, t in k.loading);
    if sifted.Shown? {
      var e := e0.(tracingStarted := e0.tracingStarted || sifted.starts);
      SlotCalm(s0, t, e, ev, k);
      PassOnCalm(SetPtracee(s0, t, e), t, p, ev, sifted.event, sifted.first, k);
    }
  }

  lemma StoppedCalm<Id>(s: State<Id>, t: Id, ev: Event, k: Kernel<Id>)
    requires Sound(s) && NeverStranded(s) && t in s.recs && Ordered(s)
    requires Orderly(s, t, ev, k) && Reportable(s, t, ev)
    ensures var s0 := With(s, t, s.recs[t].(running := false));
            && Sound(s0) && NeverStranded(s0) && Orderly(s0, t, ev, k) && Idle(s0, t, ev, k)
            && Ptracer(s0, t) == Ptracer(s, t)
            && (Ptracer(s0, t).Some? ==> Ptracer(s0, t).value in s0.recs && Ptracer(s0, t).value != t)
  {
    hide Blocked, SoundBut, Orderly;
    var r := s.recs[t].(running := false);
    EasedCalm(s, t, r, {});
    SameLinksKeep(s, t, r, {});
    StillOrderly(s, With(s, t, r), t, ev, k);
    LinksOf(s, t, {});
  }

  lemma StopCalm<Id>(s: State<Id>, t: Id, ev: Event, k: Kernel<Id>)
    requires Sound(s) && NeverStranded(s) && t in s.recs && Ordered(s)
    requires Orderly(s, t, ev, k) && Reportable(s, t, ev)
    ensures NeverStranded(Stop(s, t, ev, k))
  {
    hide Blocked, PtraceeEvent, TraceeEvent, Restart, SoundBut, Orderly, Idle, Reportable, Same;
    var r := s.recs[t].(running := false);
    var s0 := With(s, t, r);
    StoppedCalm(s, t, ev, k);
    match Ptracer(s0, t) {
      case None =>
        TraceeEventCalm(s0, t, ev, k);
        RestartCalm(TraceeEvent(s0, t, ev, k), t, k, {});
      case Some(p) =>
        var s1 := PtraceeEvent(s0, t, p, ev, k).0;
        PtraceeEventCalm(s0, t, p, ev, k);
        PtraceeEventKeeps(s0, t, p, ev, k);
        TraceeEventCalm(s1, t, ev, k);
        RestartCalm(TraceeEvent(s1, t, ev, k), t, k, {});
    }
  }

  // ----- Freeing -----

  lemma ProceedsCalm<Id>(s: State<Id>, t: Id, e: AsPtracee<Id>, k: Kernel<Id>, but: set<Id>)
    requires Blocked(s, but) && t in s.recs && Ordered(s)
    ensures Blocked(Proceeds(s, t, e, k), but)
  {
    hide Blocked, QuietEvent, Restart;
    QuietEventCalm(s, t, e.proot.value, k, but);
    RestartCalm(QuietEvent(s, t, e.proot.value, k), t, k, but);
    RestartCalm(s, t, k, but);
  }

  lemma ReleaseOneCalm<Id>(s: State<Id>, r: Id, gone: Id, k: Kernel<Id>, but: set<Id>)
    requires Blocked(s, but) && r in s.recs && Ordered(s)
    ensures Blocked(ReleaseOne(s, r, gone, k), but)
  {
    hide Blocked, Proceeds;
    var rec := s.recs[r];
    var s1 := if rec.parent == Some(gone) then With(s, r, rec.(parent := None)) else s;
    if rec.parent == Some(gone) { EasedCalm(s, r, rec.(parent := None), but); }
    if Ptracer(s, r) == Some(gone) {
      var e := s1.recs[r].asPtracee;
      var s2 := SetPtracee(s1, r, e.(ptracer := None));
      SetPtraceeCalm(s1, r, e.(ptracer := None), but);
      ProceedsCalm(s2, r, e, k, but);
      SetPtraceeCalm(Proceeds(s2, r, e, k), r, Untraced(), but);
    }
  }

  lemma {:induction false} ReleaseCalm<Id>(s: State<Id>, relatives: seq<Id>, gone: Id, k: Kernel<Id>, but: set<Id>)
    requires Blocked(s, but) && Ordered(s) && forall r <- relatives :: r in s.recs
    ensures Blocked(Release(s, relatives, gone, k), but)
    decreases |relatives|
  {
    hide Blocked, ReleaseOne;
    if relatives != [] {
      ReleaseOneCalm(s, relatives[0], gone, k, but);
      ReleaseCalm(ReleaseOne(s, relatives[0], gone, k), relatives[1..], gone, k, but);
    }
  }

  lemma ZombifyCalm<Id>(s: State<Id>, t: Id, p: Id)
    requires NeverStranded(s) && t in s.recs && p in s.recs && Ptracer(s, t) == Some(p) && t != p
    ensures NeverStranded(Zombify(s, t, p))
  {
    hide Blocked;
    ExceptOne(s, p);
    DetachCalm(s, t, {p});
    var r, s1 := s.recs[t], Detach(s, t);
    var a := AsTracer(s1, p);
    var r' := s1.recs[p].(asPtracer := a.(nbPtracees := a.nbPtracees + 1,
                          zombies := [Zombie(r.pid, r.clone, r.parent, r.asPtracee.event.value)] + a.zombies));
    WithCalm(s1, p, r', {p});
    ExceptOne(Zombify(s, t, p), p);
  }

  lemma ForgetCalm<Id>(s: State<Id>, t: Id, p: Id, k: Kernel<Id>)
    requires NeverStranded(s) && t in s.recs && p in s.recs && Ptracer(s, t) == Some(p) && t != p
    requires AsTracer(s, p).nbPtracees > 0
    ensures NeverStranded(Forget(s, t, p, k))
  {
    hide Blocked, Restart;
    ExceptOne(s, p);
    DetachCalm(s, t, {p});
    var s1 := Detach(s, t);
    ExceptOne(s1, p);
    var r := s1.recs[p].(asPtracer := AsTracer(s1, p).(waitPid := 0));
    WithCalm(s1, p, r, {p});
    ExceptOne(With(s1, p, r), p);
    RestartCalm(With(s1, p, r), p, k, {});
  }

  lemma LeaveCalm<Id>(s: State<Id>, t: Id, k: Kernel<Id>)
    requires SoundBut(s, {t}) && NeverStranded(s) && t in s.recs
    ensures NeverStranded(Leave(s, t, k))
  {
    hide Blocked, Zombify, Forget, SoundBut, Leave;
    LinksOf(s, t, {t});
    LeaveCases(s, t, k);
    if Ptracer(s, t).Some? {
      TracedIsCounted(s, t, {t});
      ZombifyCalm(s, t, Ptracer(s, t).value);
      ForgetCalm(s, t, Ptracer(s, t).value, k);
    }
  }

  lemma RemoveCalm<Id>(s: State<Id>, t: Id, k: Kernel<Id>)
    requires Sound(s) && Enrolled(s) && NeverStranded(s) && Ordered(s) && t in s.recs
    ensures NeverStranded(Remove(s, t, k))
  {
    hide SoundBut, Release, Leave;
    var order := Without(s.order, t);
    var s0 := s.(order := order);
    var s1 := Release(s0, order, t, k);
    UnlistKeeps(s, t);
    ReleaseKeeps(s0, order, t, k, {t});
    ReleaseCalm(s0, order, t, k, {});
    LeaveCalm(s1, t, k);
  }

  lemma {:induction false} FreeTerminatedCalm<Id>(s: State<Id>, todo: seq<Id>, k: Kernel<Id>)
    requires Sound(s) && Enrolled(s) && NeverStranded(s) && Ordered(s)
    ensures NeverStranded(FreeTerminated(s, todo, k))
    decreases |todo|
  {
    hide SoundBut, Remove, Enrolled, Blocked;
    if todo != [] {
      if todo[0] in s.recs && s.recs[todo[0]].terminated {
        RemoveKeeps(s, todo[0], k);
        RemoveCalm(s, todo[0], k);
        FreeTerminatedCalm(Remove(s, todo[0], k), todo[1..], k);
      } else {
        FreeTerminatedCalm(s, todo[1..], k);
      }
    }
  }

  // ----- Runs -----

  /** The kernel reports nothing but deaths of those that are blocked. */
  predicate TrueTurn<Id>(s: State<Id>, i: Input<Id>)
    requires Ready(s, i)
  {
    var (s1, t) := Handled(s, i); Reportable(s1, t, i.event)
  }

  predicate TrueRun<Id>(s: State<Id>, inputs: seq<Input<Id>>)
    requires FairRun(s, inputs)
    decreases |inputs|
  {
    inputs == [] || (TrueTurn(s, inputs[0]) && TrueRun(Turn(s, inputs[0]), inputs[1..]))
  }

  lemma TurnCalm<Id>(s: State<Id>, i: Input<Id>)
    requires Sound(s) && Enrolled(s) && NeverStranded(s) && Ready(s, i) && FairTurn(s, i) && TrueTurn(s, i)
    ensures NeverStranded(Turn(s, i))
  {
    hide SoundBut, Stop, Orderly, FreeTerminated, Blocked;
    var (s1, t) := Handled(s, i);
    HandledKeeps(s, i);
    FreeTerminatedKeeps(s, s.order, i.kernel);
    FreeTerminatedCalm(s, s.order, i.kernel);
    GetTraceeCalm(FreeTerminated(s, s.order, i.kernel), i.id, i.pid);
    StopCalm(s1, t, i.event, i.kernel);
  }

  /** Over every run: whoever is blocked in a wait is stopped and has a ptracee. */
  lemma {:induction false} RunCalm<Id>(s: State<Id>, inputs: seq<Input<Id>>)
    requires Sound(s) && Enrolled(s) && NeverStranded(s) && FairRun(s, inputs) && TrueRun(s, inputs)
    ensures NeverStranded(Run(s, inputs))
    decreases |inputs|
  {
    hide SoundBut, Enrolled, Turn, FairTurn, TrueTurn, Blocked;
    if inputs != [] {
      TurnKeeps(s, inputs[0]);
      TurnCalm(s, inputs[0]);
      RunCalm(Turn(s, inputs[0]), inputs[1..]);
    }
  }
}
