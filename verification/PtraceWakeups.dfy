/**
 * Lost wakeups: a ptracer that is blocked in a wait although the same wait, tried again, would
 * find a ptracee to report. When this happens, and that it happens in no other case.
 */
module PtraceWakeups {
  import opened Wrappers
  import opened PtraceState
  import opened PtraceEmulation
  import opened PtraceConservation
  import opened PtracePending

  // ----- The invariant -----

  predicate Unread<Id>(r: Tracee<Id>) { r.asPtracee.ptracer.Some? && r.asPtracee.event.pending }

  predicate WaitsForTracee<Id>(a: AsPtracer<Id>, pid: int, clone: bool) {
    a.waitPid != 0 && WaitsFor(a.waitPid, a.waitOptions, pid, clone)
  }

  predicate ZombiesRead<Id(==)>(a: AsPtracer<Id>) {
    forall z <- a.zombies :: !WaitsForTracee(a, z.pid, z.clone)
  }

  /** p is blocked in a wait for x, which is stopped with an event not read. */
  predicate Missed<Id>(s: State<Id>, p: Id, x: Id)
    requires p in s.recs && x in s.recs
  {
    && Ptracer(s, x) == Some(p) && WaitsForTracee(AsTracer(s, p), s.recs[x].pid, s.recs[x].clone)
    && !s.recs[x].running && s.recs[x].asPtracee.event.pending
  }

  /** No ptracer, but those in @but, misses a tracee, but those in @late. */
  predicate Attentive<Id>(s: State<Id>, but: set<Id>, late: set<Id>) {
    && (forall p | p in s.recs && p !in but :: ZombiesRead(AsTracer(s, p)))
    && forall p, x | p in s.recs && x in s.recs && p !in but && x !in late :: !Missed(s, p, x)
  }

  /** What it is about: no ptracer is blocked in a wait that would find something. */
  predicate AllHeard<Id>(s: State<Id>)
    requires Ordered(s)
  {
    forall p | p in s.recs && AsTracer(s, p).waitPid != 0 ::
      GetPtracee(s, p, AsTracer(s, p).waitPid, true, true, AsTracer(s, p).waitOptions).Nobody?
  }

  /** Pids are positive and tell tracees apart. */
  predicate Named<Id(==)>(s: State<Id>) {
    && (forall t | t in s.recs :: s.recs[t].pid > 0)
    && forall t, u | t in s.recs && u in s.recs && s.recs[t].pid == s.recs[u].pid :: t == u
  }

  lemma {:induction false} NoZombieIff<Id>(zombies: seq<Zombie<Id>>, pid: int, options: WaitOptions)
    ensures FirstZombie(zombies, pid, options) == |zombies| <==> forall z <- zombies :: !WaitsFor(pid, options, z.pid, z.clone)
  {
    if zombies != [] {
      NoZombieIff(zombies[1..], pid, options);
      assert forall z <- zombies :: z == zombies[0] || z in zombies[1..];
    }
  }

  predicate Silent<Id>(s: State<Id>, p: Id, pid: int, options: WaitOptions, t: Id)
    requires t in s.recs
  {
    Ptracer(s, t) == Some(p) && WaitsFor(pid, options, s.recs[t].pid, s.recs[t].clone) ==>
      s.recs[t].running || !s.recs[t].asPtracee.event.pending
  }

  lemma {:induction false} NoTraceeIff<Id>(list: seq<Id>, s: State<Id>, p: Id, pid: int, options: WaitOptions)
    requires Named(s) && (forall t <- list :: t in s.recs)
    ensures FirstPtracee(list, s.recs, p, pid, true, true, options).Nobody? <==> forall t <- list :: Silent(s, p, pid, options, t)
  {
    if list != [] {
      NoTraceeIff(list[1..], s, p, pid, options);
      assert forall t <- list :: t == list[0] || t in list[1..];
      if pid == s.recs[list[0]].pid {
        assert forall t <- list[1..] :: WaitsFor(pid, options, s.recs[t].pid, s.recs[t].clone) ==> t == list[0];
      }
    }
  }

  /** A wait finds nobody exactly if no zombie matches and no match is stopped with an event. */
  lemma FindsNobodyIff<Id>(s: State<Id>, p: Id, pid: int, options: WaitOptions)
    requires Named(s) && Enrolled(s) && Ordered(s) && p in s.recs
    ensures GetPtracee(s, p, pid, true, true, options).Nobody?
       <==> && (forall z <- AsTracer(s, p).zombies :: !WaitsFor(pid, options, z.pid, z.clone))
            && (forall t | t in s.recs :: Silent(s, p, pid, options, t))
  {
    hide Silent, WaitsFor;
    NoZombieIff(AsTracer(s, p).zombies, pid, options);
    NoTraceeIff(s.order, s, p, pid, options);
  }

  lemma AttentiveIff<Id>(s: State<Id>)
    requires Named(s) && Enrolled(s) && Ordered(s)
    ensures Attentive(s, {}, {}) <==> AllHeard(s)
  {
    forall p | p in s.recs && AsTracer(s, p).waitPid != 0
      ensures GetPtracee(s, p, AsTracer(s, p).waitPid, true, true, AsTracer(s, p).waitOptions).Nobody?
         <==> ZombiesRead(AsTracer(s, p)) && forall x | x in s.recs :: !Missed(s, p, x)
    {
      var a := AsTracer(s, p);
      FindsNobodyIff(s, p, a.waitPid, a.waitOptions);
      assert forall x | x in s.recs :: Silent(s, p, a.waitPid, a.waitOptions, x) <==> !Missed(s, p, x);
    }
    hide GetPtracee, Named, Enrolled;
    forall p | p in s.recs && AsTracer(s, p).waitPid == 0
      ensures ZombiesRead(AsTracer(s, p)) && forall x | x in s.recs :: !Missed(s, p, x)
    {}
  }

  // ----- Elementary changes -----

  predicate TracerMild<Id(==)>(a: AsPtracer<Id>, a': AsPtracer<Id>) {
    || a'.waitPid == 0
    || (a'.waitPid == a.waitPid && a'.waitOptions == a.waitOptions && forall z <- a'.zombies :: z in a.zombies)
  }

  predicate TraceeMild<Id(==)>(r: Tracee<Id>, r': Tracee<Id>) {
    Unread(r') && !r'.running ==> Unread(r) && !r.running && r'.asPtracee.ptracer == r.asPtracee.ptracer && r'.clone == r.clone
  }

  /** A wait ended, or an event read, or a tracee restarted, or nothing about them. */
  lemma WithHears<Id>(s: State<Id>, t: Id, r: Tracee<Id>, but: set<Id>, late: set<Id>)
    requires Attentive(s, but, late) && t in s.recs && r.pid == s.recs[t].pid && TracerMild(s.recs[t].asPtracer, r.asPtracer)
    requires t in late || TraceeMild(s.recs[t], r)
    ensures Attentive(With(s, t, r), but, late)
  {
    var s' := With(s, t, r);
    forall p, x | p in s.recs && x in s.recs && p !in but && x !in late ensures !Missed(s', p, x) {
      assert !Missed(s, p, x);
    }
    forall p | p in s.recs && p !in but ensures ZombiesRead(AsTracer(s', p)) {
      assert ZombiesRead(AsTracer(s, p));
    }
  }

  lemma SetPtraceeHears<Id>(s: State<Id>, t: Id, e: AsPtracee<Id>, but: set<Id>, late: set<Id>)
    requires Attentive(s, but, late) && t in s.recs
    requires e.ptracer.None? || !e.event.pending || (e.ptracer == Ptracer(s, t) && s.recs[t].asPtracee.event.pending)
    ensures Attentive(SetPtracee(s, t, e), but, late)
  {
    WithHears(s, t, s.recs[t].(asPtracee := e), but, late);
  }

  lemma SetPtracerHears<Id>(s: State<Id>, p: Id, a: AsPtracer<Id>, but: set<Id>, late: set<Id>)
    requires Attentive(s, but, late) && p in s.recs && TracerMild(AsTracer(s, p), a)
    ensures Attentive(SetPtracer(s, p, a), but, late)
  {
    WithHears(s, p, s.recs[p].(asPtracer := a), but, late);
  }

  lemma RestartHears<Id>(s: State<Id>, t: Id, k: Kernel<Id>, but: set<Id>, late: set<Id>)
    requires Attentive(s, but, late) && t in s.recs
    ensures Attentive(Restart(s, t, k).0, but, late)
  {
    WithHears(s, t, s.recs[t].(running := true), but, late);
  }

  lemma AttachHears<Id>(s: State<Id>, t: Id, p: Id, but: set<Id>, late: set<Id>)
    requires Attentive(s, but, late) && t in s.recs && p in s.recs
    ensures Attentive(Attach(s, t, p), but, late)
  {
    hide Attentive;
    var e := Untraced<Id>().(ptracer := Some(p));
    var s1 := SetPtracee(s, t, e);
    SetPtraceeHears(s, t, e, but, late);
    var a := AsTracer(s1, p);
    SetPtracerHears(s1, p, a.(nbPtracees := a.nbPtracees + 1), but, late);
  }

  lemma DetachHears<Id>(s: State<Id>, t: Id, but: set<Id>, late: set<Id>)
    requires Attentive(s, but, late) && t in s.recs && Ptracer(s, t).Some? && Ptracer(s, t).value in s.recs
    ensures Attentive(Detach(s, t), but, late)
  {
    hide Attentive;
    var e := s.recs[t].asPtracee.(ptracer := None);
    var s1, p := SetPtracee(s, t, e), Ptracer(s, t).value;
    SetPtraceeHears(s, t, e, but, late);
    var a := AsTracer(s1, p);
    SetPtracerHears(s1, p, a.(nbPtracees := a.nbPtracees - 1), but, late);
  }

  // ----- wait(2) -----

  lemma WaitEnterHears<Id>(s: State<Id>, p: Id, pid: int, options: WaitOptions, but: set<Id>, late: set<Id>)
    requires Attentive(s, but, late) && p in s.recs && Ordered(s)
    ensures Attentive(WaitEnter(s, p, pid, options), but, late)
  {
    hide Attentive, GetPtracee;
    var a := AsTracer(s, p);
    SetPtracerHears(s, p, a.(waitsIn := WaitsInKernel), but, late);
    SetPtracerHears(SetPtracer(s, p, a.(waitsIn := WaitsInKernel)), p, a.(waitsIn := WaitsInProot), but, late);
  }

  lemma BuryHears<Id>(s: State<Id>, p: Id, i: nat, but: set<Id>, late: set<Id>)
    requires Attentive(s, but, late) && p in s.recs && i < |AsTracer(s, p).zombies|
    ensures Attentive(Bury(s, p, i), but, late)
  {
    hide Attentive;
    var a := AsTracer(s, p);
    SetPtracerHears(s, p, a.(nbPtracees := a.nbPtracees - 1, zombies := a.zombies[..i] + a.zombies[i + 1..]), but, late);
  }

  lemma ReadTraceeHears<Id>(s: State<Id>, p: Id, t: Id, k: Kernel<Id>, but: set<Id>, late: set<Id>)
    requires Attentive(s, but, late) && p in s.recs && t in s.recs && Ptracer(s, t) == Some(p)
    ensures Attentive(ReadTracee(s, p, t, k).0, but, late)
  {
    hide Attentive;
    var e := s.recs[t].asPtracee;
    DetachHears(s, t, but, late);
    SetPtraceeHears(s, t, e.(event := e.event.(pending := false)), but, late);
  }

  /** A wait that finds nothing may block. */
  lemma BlockHears<Id>(s: State<Id>, p: Id, pid: int, options: WaitOptions, but: set<Id>, late: set<Id>)
    requires Attentive(s, but, late) && Named(s) && Enrolled(s) && Ordered(s) && p in s.recs
    requires GetPtracee(s, p, pid, true, true, options).Nobody?
    ensures Attentive(SetPtracer(s, p, AsTracer(s, p).(waitPid := pid, waitOptions := options)), but, late)
  {
    var a := AsTracer(s, p).(waitPid := pid, waitOptions := options);
    var s' := SetPtracer(s, p, a);
    FindsNobodyIff(s, p, pid, options);
    forall q, x | q in s.recs && x in s.recs && q !in but && x !in late ensures !Missed(s', q, x) {
      assert !Missed(s, q, x) && Silent(s, p, pid, options, x);
    }
    forall q | q in s.recs && q !in but ensures ZombiesRead(AsTracer(s', q)) {
      assert ZombiesRead(AsTracer(s, q));
    }
  }

  lemma WaitExitHears<Id>(s: State<Id>, p: Id, pid: int, options: WaitOptions, k: Kernel<Id>, but: set<Id>, late: set<Id>)
    requires Attentive(s, but, late) && Named(s) && Enrolled(s) && Ordered(s) && p in s.recs
    ensures Attentive(WaitExit(s, p, pid, options, k).0, but, late)
  {
    hide Attentive, GetPtracee, ReadTracee, Bury, Named, Enrolled;
    var a := AsTracer(s, p).(waitsIn := DoesntWait);
    var s1 := SetPtracer(s, p, a);
    SetPtracerHears(s, p, a, but, late);
    StaysNamed(s, s1);
    match GetPtracee(s1, p, pid, true, true, options) {
      case AZombie(i) => BuryHears(s1, p, i, but, late);
      case ATracee(t) => ReadTraceeHears(s1, p, t, k, but, late);
      case Nobody => BlockHears(s1, p, pid, options, but, late);
    }
  }

  lemma StaysNamed<Id>(s: State<Id>, s': State<Id>)
    requires Named(s) && Enrolled(s) && Same(s, s')
    ensures Named(s') && Enrolled(s')
  {}

  // ----- Events that need nothing but the tracee -----

  lemma EnterStageHears<Id>(s: State<Id>, t: Id, k: Kernel<Id>, but: set<Id>, late: set<Id>)
    requires Attentive(s, but, late) && t in s.recs && Ordered(s)
    ensures Attentive(EnterStage(s, t, k), but, late)
  {
    hide Attentive, WaitEnter;
    var s1 := match CallOf(k, t)
      case WaitCall(pid, options) => if t in k.untranslated then s else WaitEnter(s, t, pid, options)
      case _ => s;
    if CallOf(k, t).WaitCall? { WaitEnterHears(s, t, CallOf(k, t).pid, CallOf(k, t).options, but, late); }
    WithHears(s1, t, s1.recs[t].(inSysexit := t in k.entered), but, late);
  }

  lemma ClearProotHears<Id>(s: State<Id>, t: Id, but: set<Id>, late: set<Id>)
    requires Attentive(s, but, late) && t in s.recs
    ensures Attentive(ClearProot(s, t), but, late)
  {
    hide Attentive;
    SetPtraceeHears(s, t, s.recs[t].asPtracee.(proot := s.recs[t].asPtracee.proot.(pending := false)), but, late);
  }

  lemma QuietEventHears<Id>(s: State<Id>, t: Id, ev: Event, k: Kernel<Id>, but: set<Id>, late: set<Id>)
    requires Attentive(s, but, late) && t in s.recs && Ordered(s)
    ensures Attentive(QuietEvent(s, t, ev, k), but, late)
  {
    hide Attentive, EnterStage, ClearProot;
    var r := s.recs[t];
    var s1 :=
      if ev.IsDeath() then With(s, t, r.(terminated := true))
      else if ev.SyscallStop? || ev.SeccompStop? then EnterStage(s, t, k)
      else if ev == SignalStop(SIGSTOP) then With(s, t, r.(sigstopAllowed := true))
      else s;
    WithHears(s, t, r.(terminated := true), but, late);
    WithHears(s, t, r.(sigstopAllowed := true), but, late);
    EnterStageHears(s, t, k, but, late);
    ClearProotHears(s1, t, but, late);
  }

  // ----- ptrace(2) -----

  lemma TraceMeHears<Id>(s: State<Id>, t: Id, k: Kernel<Id>, but: set<Id>, late: set<Id>)
    requires Attentive(s, but, late) && t in s.recs
    ensures Attentive(DoTraceMe(s, t, k), but, late)
  {
    hide Attentive, Attach;
    var parent := s.recs[t].parent;
    if Registered(s, parent) {
      var p := parent.value;
      AttachHears(s, t, p, but, late);
      WokenHears(Attach(s, t, p), p, but, late);
    }
  }

  lemma WokenHears<Id>(s: State<Id>, p: Id, but: set<Id>, late: set<Id>)
    requires Attentive(s, but, late) && p in s.recs
    ensures Attentive(Woken(s, p), but, late)
  {
    WithHears(s, p, Woken(s, p).recs[p], but, late);
  }

  lemma DoAttachHears<Id>(s: State<Id>, p: Id, pid: int, but: set<Id>, late: set<Id>)
    requires Attentive(s, but, late) && p in s.recs && Ordered(s)
    ensures Attentive(DoAttach(s, p, pid), but, late)
  {
    hide Attentive, Attach;
    var t := if s.recs[p].pid == pid then Some(p) else FindPid(s.order, s.recs, pid);
    if t.Some? { AttachHears(s, t.value, p, but, late); }
  }

  lemma ProceedHears<Id>(s: State<Id>, t: Id, k: Kernel<Id>, but: set<Id>, late: set<Id>)
    requires Attentive(s, but, late) && t in s.recs && Ordered(s)
    ensures Attentive(Proceed(s, t, k), but, late)
  {
    hide Attentive, QuietEvent, Restart;
    var e := s.recs[t].asPtracee;
    QuietEventHears(s, t, e.proot.value, k, but, late);
    RestartHears(if e.proot.pending then QuietEvent(s, t, e.proot.value, k) else s, t, k, but, late);
  }

  lemma DoRequestHears<Id>(s: State<Id>, p: Id, t: Id, request: Request, k: Kernel<Id>, but: set<Id>, late: set<Id>)
    requires Attentive(s, but, late) && p in s.recs && t in s.recs && Ptracer(s, t) == Some(p) && Ordered(s)
    ensures Attentive(DoRequest(s, p, t, request, k), but, late)
  {
    hide Attentive, Proceed, Detach, SetPtracee;
    var e := s.recs[t].asPtracee;
    match request {
      case Resume(_, ignore) =>
        var e1 := e.(ignoreSyscalls := if ignore.Some? then ignore.value else e.ignoreSyscalls);
        SetPtraceeHears(s, t, e1, but, late);
        ProceedHears(SetPtracee(s, t, e1), t, k, but, late);
      case LetGo(_) =>
        DetachHears(s, t, but, late);
        ProceedHears(Detach(s, t), t, k, but, late);
      case SetOptions(_, options, _) => SetPtraceeHears(s, t, e.(options := options), but, late);
      case _ =>
    }
  }

  lemma PtraceExitHears<Id>(s: State<Id>, p: Id, request: Request, k: Kernel<Id>, but: set<Id>, late: set<Id>)
    requires Attentive(s, but, late) && p in s.recs && Ordered(s)
    ensures Attentive(PtraceExit(s, p, request, k), but, late)
  {
    hide Attentive, DoTraceMe, DoAttach, DoRequest, Subject;
    match request {
      case TraceMe => TraceMeHears(s, p, k, but, late);
      case AttachTo(pid) => DoAttachHears(s, p, pid, but, late);
      case _ =>
        var t := Subject(s, p, request.pid);
        if t.Some? { DoRequestHears(s, p, t.value, request, k, but, late); }
    }
  }

  // ----- Events -----

  lemma ExitStageHears<Id>(s: State<Id>, t: Id, k: Kernel<Id>, but: set<Id>, late: set<Id>)
    requires Attentive(s, but, late) && Named(s) && Enrolled(s) && Ordered(s) && t in s.recs
    ensures Attentive(ExitStage(s, t, k), but, late)
  {
    hide Attentive, WaitExit, PtraceExit, Named, Enrolled;
    match CallOf(k, t) {
      case WaitCall(pid, options) => WaitExitHears(s, t, pid, options, k, but, late);
      case PtraceCall(request) => PtraceExitHears(s, t, request, k, but, late);
      case OtherCall =>
    }
  }

  lemma GetTraceeHears<Id>(s: State<Id>, id: Id, pid: int, late: set<Id>)
    requires Attentive(s, {}, late) && Named(s) && Enrolled(s) && Ordered(s) && Unused(s, id, pid) && pid > 0
    ensures var s' := GetTracee(s, id, pid).0; Attentive(s', {}, late) && Named(s') && Enrolled(s')
  {
    var s' := GetTracee(s, id, pid).0;
    if FindPid(s.order, s.recs, pid).None? {
      forall p, x | p in s'.recs && x in s'.recs && x !in late ensures !Missed(s', p, x) {
        if p in s.recs && x in s.recs { assert !Missed(s, p, x); }
      }
      forall p | p in s'.recs ensures ZombiesRead(AsTracer(s', p)) {
        if p in s.recs { assert ZombiesRead(AsTracer(s, p)); }
      }
    }
  }

  lemma AdoptedHears<Id>(s: State<Id>, c: Id, t: Id, b: Birth<Id>, late: set<Id>)
    requires Attentive(s, {}, late) && c in s.recs && t in s.recs && Ptracer(s, c).None?
    ensures Attentive(Adopted(s, c, t, b), {}, late)
  {
    hide Attentive, Attach, Inherits;
    var r := s.recs[t];
    var rc := s.recs[c].(parent := if b.sharesParent then r.parent else Some(t), clone := b.sharesThreads);
    WithHears(s, c, rc, {}, late);
    var s1 := With(s, c, rc);
    if Registered(s1, r.asPtracee.ptracer) {
      var s2 := Attach(s1, c, r.asPtracee.ptracer.value);
      AttachHears(s1, c, r.asPtracee.ptracer.value, {}, late);
      SetPtraceeHears(s2, c, s2.recs[c].asPtracee.(options := r.asPtracee.options), {}, late);
    }
  }

  lemma NewChildHears<Id>(s: State<Id>, t: Id, b: Birth<Id>, late: set<Id>)
    requires Attentive(s, {}, late) && Named(s) && Enrolled(s) && Ordered(s) && t in s.recs && b.pid > 0
    ensures var s' := NewChild(s, t, b); Attentive(s', {}, late) && Named(s') && Enrolled(s')
  {
    hide Attentive, GetTracee, Adopted, Named, Enrolled;
    if Unused(s, b.child, b.pid) {
      hide Unused;
      var (s1, c) := GetTracee(s, b.child, b.pid);
      GetTraceeHears(s, b.child, b.pid, late);
      if Adoptable(s1, c) {
        AdoptedHears(s1, c, t, b, late);
        StaysNamed(s1, Adopted(s1, c, t, b));
      }
    }
  }

  predicate BirthsNamed<Id>(k: Kernel<Id>) { forall t | t in k.births :: k.births[t].pid > 0 }

  lemma TraceeEventHears<Id>(s: State<Id>, t: Id, ev: Event, k: Kernel<Id>, late: set<Id>)
    requires Attentive(s, {}, late) && Named(s) && Enrolled(s) && Ordered(s) && t in s.recs && BirthsNamed(k)
    ensures var s' := TraceeEvent(s, t, ev, k); Attentive(s', {}, late) && Named(s') && Enrolled(s')
  {
    hide Attentive, ExitStage, NewChild, QuietEvent, ClearProot, Named, Enrolled;
    if InExitStage(s, t, ev, k) {
      var s1 := ExitStage(s, t, k);
      ExitStageHears(s, t, k, {}, late);
      WithHears(s1, t, s1.recs[t].(inSysexit := false), {}, late);
      ClearProotHears(SetSysexit(s1, t, false), t, {}, late);
      StaysNamed(s, TraceeEvent(s, t, ev, k));
    } else if Announces(ev) && t in k.births {
      var s1 := NewChild(s, t, k.births[t]);
      NewChildHears(s, t, k.births[t], late);
      ClearProotHears(s1, t, {}, late);
      StaysNamed(s1, ClearProot(s1, t));
    } else {
      QuietEventHears(s, t, ev, k, {}, late);
      StaysNamed(s, QuietEvent(s, t, ev, k));
    }
  }

  // ----- What an event of t leaves alone -----

  predicate SameWait<Id>(a: AsPtracer<Id>, a': AsPtracer<Id>) { a'.waitPid == a.waitPid && a'.waitOptions == a.waitOptions }

  /** t is stopped as before, with the same event for the same ptracer, and the others wait as before. */
  predicate Lone<Id(==)>(s: State<Id>, s': State<Id>, t: Id)
    requires t in s.recs && s.recs.Keys <= s'.recs.Keys
  {
    var r, r' := s.recs[t], s'.recs[t];
    && r'.running == r.running && r'.clone == r.clone && r'.pid == r.pid
    && r'.asPtracee.ptracer == r.asPtracee.ptracer && r'.asPtracee.event == r.asPtracee.event
    && forall x | x in s.recs && x != t :: SameWait(AsTracer(s, x), AsTracer(s', x))
  }

  lemma LoneTwice<Id>(s: State<Id>, s1: State<Id>, s2: State<Id>, t: Id)
    requires t in s.recs && s.recs.Keys <= s1.recs.Keys && s1.recs.Keys <= s2.recs.Keys && Lone(s, s1, t) && Lone(s1, s2, t)
    ensures Lone(s, s2, t)
  {}

  lemma NothingLone<Id>(s: State<Id>, t: Id)
    requires t in s.recs
    ensures Lone(s, s, t)
  {}

  lemma AttachLone<Id>(s: State<Id>, a: Id, b: Id, t: Id)
    requires a in s.recs && b in s.recs && t in s.recs && a != t
    ensures Lone(s, Attach(s, a, b), t) && SameWait(AsTracer(s, t), AsTracer(Attach(s, a, b), t))
  {}

  lemma DetachLone<Id>(s: State<Id>, a: Id, t: Id)
    requires a in s.recs && Ptracer(s, a).Some? && Ptracer(s, a).value in s.recs && t in s.recs && a != t
    ensures Lone(s, Detach(s, a), t) && SameWait(AsTracer(s, t), AsTracer(Detach(s, a), t))
  {}

  /** Another tracee is changed, but not its wait. */
  lemma OtherLone<Id>(s: State<Id>, a: Id, r: Tracee<Id>, t: Id)
    requires a in s.recs && t in s.recs && a != t && r.pid == s.recs[a].pid && SameWait(s.recs[a].asPtracer, r.asPtracer)
    ensures Lone(s, With(s, a, r), t) && SameWait(AsTracer(s, t), AsTracer(With(s, a, r), t))
  {}

  /** t itself is changed, but not what its ptracer waits for. */
  lemma OwnLone<Id>(s: State<Id>, t: Id, r: Tracee<Id>)
    requires t in s.recs && r.pid == s.recs[t].pid && r.running == s.recs[t].running && r.clone == s.recs[t].clone
    requires r.asPtracee.ptracer == Ptracer(s, t) && r.asPtracee.event == s.recs[t].asPtracee.event
    ensures Lone(s, With(s, t, r), t)
  {}

  lemma SetPtracerLone<Id>(s: State<Id>, t: Id, a: AsPtracer<Id>)
    requires t in s.recs
    ensures Lone(s, SetPtracer(s, t, a), t) && SetPtracer(s, t, a).recs[t] == s.recs[t].(asPtracer := a)
  {
    OwnLone(s, t, s.recs[t].(asPtracer := a));
  }

  lemma SetPtraceeLone<Id>(s: State<Id>, q: Id, e: AsPtracee<Id>, t: Id)
    requires q in s.recs && t in s.recs && q != t
    ensures var s' := SetPtracee(s, q, e); Lone(s, s', t) && SameWait(AsTracer(s, t), AsTracer(s', t))
  {
    OtherLone(s, q, s.recs[q].(asPtracee := e), t);
  }

  lemma FlagsLone<Id>(s: State<Id>, t: Id, inSysexit: bool)
    requires t in s.recs
    ensures Lone(s, SetSysexit(s, t, inSysexit), t) && AsTracer(SetSysexit(s, t, inSysexit), t) == AsTracer(s, t)
    ensures Lone(s, With(s, t, s.recs[t].(terminated := true)), t)
    ensures Lone(s, With(s, t, s.recs[t].(sigstopAllowed := true)), t)
    ensures AsTracer(With(s, t, s.recs[t].(terminated := true)), t) == AsTracer(s, t)
    ensures AsTracer(With(s, t, s.recs[t].(sigstopAllowed := true)), t) == AsTracer(s, t)
  {
    OwnLone(s, t, s.recs[t].(inSysexit := inSysexit));
    OwnLone(s, t, s.recs[t].(terminated := true));
    OwnLone(s, t, s.recs[t].(sigstopAllowed := true));
  }

  lemma ReadTraceeLone<Id>(s: State<Id>, t: Id, x: Id, k: Kernel<Id>)
    requires t in s.recs && x in s.recs && Ptracer(s, x) == Some(t) && x != t
    ensures Lone(s, ReadTracee(s, t, x, k).0, t) && SameWait(AsTracer(s, t), AsTracer(ReadTracee(s, t, x, k).0, t))
  {
    hide Detach, Lone;
    NothingLone(s, t);
    DetachLone(s, x, t);
    var e := s.recs[x].asPtracee;
    OtherLone(s, x, s.recs[x].(asPtracee := e.(event := e.event.(pending := false))), t);
  }

  /** The wait t is blocked in after a wait. */
  function WaitPidAfter<Id>(s: State<Id>, t: Id, pid: int, options: WaitOptions): int
    requires t in s.recs && Ordered(s)
  {
    if GetPtracee(s, t, pid, true, true, options).Nobody? && AsTracer(s, t).nbPtracees != 0 && !options.noHang then pid
    else AsTracer(s, t).waitPid
  }

  lemma WaitExitLone<Id>(s: State<Id>, t: Id, pid: int, options: WaitOptions, k: Kernel<Id>)
    requires t in s.recs && Ordered(s) && Ptracer(s, t) != Some(t)
    ensures var s' := WaitExit(s, t, pid, options, k).0;
            Lone(s, s', t) && AsTracer(s', t).waitPid == WaitPidAfter(s, t, pid, options)
  {
    hide GetPtracee, ReadTracee, Lone, SetPtracer, Bury;
    var a := AsTracer(s, t).(waitsIn := DoesntWait);
    var s1 := SetPtracer(s, t, a);
    var s' := WaitExit(s, t, pid, options, k).0;
    SetPtracerLone(s, t, a);
    WaitsInFindsTheSame(s, t, pid, options);
    NothingLone(s1, t);
    match GetPtracee(s1, t, pid, true, true, options) {
      case AZombie(i) => BuryLone(s1, t, i);
      case ATracee(x) => ReadTraceeLone(s1, t, x, k);
      case Nobody => SetPtracerLone(s1, t, a.(waitPid := pid, waitOptions := options));
    }
    LoneTwice(s, s1, s', t);
  }

  lemma BuryLone<Id>(s: State<Id>, t: Id, i: nat)
    requires t in s.recs && i < |AsTracer(s, t).zombies|
    ensures Lone(s, Bury(s, t, i), t) && AsTracer(Bury(s, t, i), t).waitPid == AsTracer(s, t).waitPid
  {
    var b := AsTracer(s, t);
    SetPtracerLone(s, t, b.(nbPtracees := b.nbPtracees - 1, zombies := b.zombies[..i] + b.zombies[i + 1..]));
  }

  lemma WaitsInFindsTheSame<Id>(s: State<Id>, t: Id, pid: int, options: WaitOptions)
    requires t in s.recs && Ordered(s) && Ptracer(s, t) != Some(t)
    ensures var s1 := SetPtracer(s, t, AsTracer(s, t).(waitsIn := DoesntWait));
            GetPtracee(s1, t, pid, true, true, options) == GetPtracee(s, t, pid, true, true, options)
  {
    FindsTheSame(s, SetPtracer(s, t, AsTracer(s, t).(waitsIn := DoesntWait)), t, pid, options);
  }

  /** What a wait of t finds depends on other tracees and on its zombies. */
  lemma FindsTheSame<Id>(s: State<Id>, s': State<Id>, t: Id, pid: int, options: WaitOptions)
    requires Ordered(s) && Same(s, s') && t in s.recs && Ptracer(s, t) != Some(t) && Ptracer(s', t) != Some(t)
    requires AsTracer(s', t).zombies == AsTracer(s, t).zombies && forall x | x in s.recs && x != t :: s'.recs[x] == s.recs[x]
    ensures GetPtracee(s', t, pid, true, true, options) == GetPtracee(s, t, pid, true, true, options)
  {
    FindsTheSameIn(s.order, s, s', t, pid, options);
  }

  lemma {:induction false} FindsTheSameIn<Id>(list: seq<Id>, s: State<Id>, s': State<Id>, t: Id, pid: int, options: WaitOptions)
    requires (forall x <- list :: x in s.recs) && s'.recs.Keys == s.recs.Keys && t in s.recs
    requires Ptracer(s, t) != Some(t) && Ptracer(s', t) != Some(t)
    requires forall x | x in s.recs && x != t :: s'.recs[x] == s.recs[x]
    ensures FirstPtracee(list, s'.recs, t, pid, true, true, options) == FirstPtracee(list, s.recs, t, pid, true, true, options)
  {
    if list != [] { FindsTheSameIn(list[1..], s, s', t, pid, options); }
  }

  lemma WaitEnterLone<Id>(s: State<Id>, t: Id, pid: int, options: WaitOptions)
    requires t in s.recs && Ordered(s)
    ensures var s' := WaitEnter(s, t, pid, options); Lone(s, s', t) && SameWait(AsTracer(s, t), AsTracer(s', t))
  {
    hide GetPtracee, Lone, SetPtracer;
    var a := AsTracer(s, t);
    var s1 := SetPtracer(s, t, a.(waitsIn := WaitsInKernel));
    SetPtracerLone(s, t, a.(waitsIn := WaitsInKernel));
    SetPtracerLone(s1, t, a.(waitsIn := WaitsInProot));
    LoneTwice(s, s1, SetPtracer(s1, t, a.(waitsIn := WaitsInProot)), t);
  }

  lemma EnterStageLone<Id>(s: State<Id>, t: Id, k: Kernel<Id>)
    requires t in s.recs && Ordered(s)
    ensures var s' := EnterStage(s, t, k); Lone(s, s', t) && SameWait(AsTracer(s, t), AsTracer(s', t))
  {
    hide WaitEnter, Lone, SetSysexit;
    NothingLone(s, t);
    if CallOf(k, t).WaitCall? { WaitEnterLone(s, t, CallOf(k, t).pid, CallOf(k, t).options); }
    var s1 := match CallOf(k, t)
      case WaitCall(pid, options) => if t in k.untranslated then s else WaitEnter(s, t, pid, options)
      case _ => s;
    FlagsLone(s1, t, t in k.entered);
    LoneTwice(s, s1, EnterStage(s, t, k), t);
  }

  lemma QuietEventLone<Id>(s: State<Id>, t: Id, ev: Event, k: Kernel<Id>)
    requires t in s.recs && Ordered(s)
    ensures var s' := QuietEvent(s, t, ev, k); Lone(s, s', t) && SameWait(AsTracer(s, t), AsTracer(s', t))
  {
    hide EnterStage, Lone, With, ClearProot;
    var r := s.recs[t];
    NothingLone(s, t);
    EnterStageLone(s, t, k);
    FlagsLone(s, t, false);
    var s1 :=
      if ev.IsDeath() then With(s, t, r.(terminated := true))
      else if ev.SyscallStop? || ev.SeccompStop? then EnterStage(s, t, k)
      else if ev == SignalStop(SIGSTOP) then With(s, t, r.(sigstopAllowed := true))
      else s;
    ClearProotLone(s1, t);
    LoneTwice(s, s1, ClearProot(s1, t), t);
  }

  lemma ClearProotLone<Id>(s: State<Id>, t: Id)
    requires t in s.recs
    ensures Lone(s, ClearProot(s, t), t) && SameWait(AsTracer(s, t), AsTracer(ClearProot(s, t), t))
  {}

  /** What t makes of another tracee. */
  lemma ProceedLone<Id>(s: State<Id>, q: Id, k: Kernel<Id>, t: Id)
    requires q in s.recs && t in s.recs && q != t && Ordered(s)
    ensures var s' := Proceed(s, q, k); Lone(s, s', t) && SameWait(AsTracer(s, t), AsTracer(s', t))
  {
    hide QuietEvent, Restart, Lone;
    var e := s.recs[q].asPtracee;
    QuietEventStays(s, q, e.proot.value, k);
    QuietEventLone(s, q, e.proot.value, k);
    var s1 := if e.proot.pending then QuietEvent(s, q, e.proot.value, k) else s;
    RestartStays(s1, q, k);
    RestartWaitsAs(s1, q, k);
    StaysIsLone(s, Proceed(s, q, k), q, t);
  }

  lemma StaysIsLone<Id>(s: State<Id>, s': State<Id>, q: Id, t: Id)
    requires q in s.recs && t in s.recs && q != t && Same(s, s') && forall x | x in s.recs && x != q :: s'.recs[x] == s.recs[x]
    requires SameWait(AsTracer(s, q), AsTracer(s', q))
    ensures Lone(s, s', t) && SameWait(AsTracer(s, t), AsTracer(s', t))
  {}

  lemma RestartWaitsAs<Id>(s: State<Id>, t: Id, k: Kernel<Id>)
    requires t in s.recs
    ensures AsTracer(Restart(s, t, k).0, t) == AsTracer(s, t)
  {}

  lemma DoRequestLone<Id>(s: State<Id>, t: Id, q: Id, request: Request, k: Kernel<Id>)
    requires t in s.recs && q in s.recs && Ptracer(s, q) == Some(t) && q != t && Ordered(s)
    ensures var s' := DoRequest(s, t, q, request, k); Lone(s, s', t) && SameWait(AsTracer(s, t), AsTracer(s', t))
  {
    hide Proceed, Detach, Lone, SetPtracee;
    var e := s.recs[q].asPtracee;
    NothingLone(s, t);
    match request {
      case Resume(_, ignore) =>
        var e1 := e.(ignoreSyscalls := if ignore.Some? then ignore.value else e.ignoreSyscalls);
        var s1 := SetPtracee(s, q, e1);
        SetPtraceeLone(s, q, e1, t);
        ProceedLone(s1, q, k, t);
        LoneTwice(s, s1, Proceed(s1, q, k), t);
      case LetGo(_) =>
        DetachLone(s, q, t);
        ProceedLone(Detach(s, q), q, k, t);
        LoneTwice(s, Detach(s, q), Proceed(Detach(s, q), q, k), t);
      case SetOptions(_, options, _) => SetPtraceeLone(s, q, e.(options := options), t);
      case _ =>
    }
  }

  /** A ptracee cannot change its own ptracer, and waits as before after any request. */
  lemma PtraceExitLone<Id>(s: State<Id>, t: Id, request: Request, k: Kernel<Id>)
    requires t in s.recs && Ordered(s) && Ptracer(s, t).Some? && Ptracer(s, t) != Some(t)
    ensures var s' := PtraceExit(s, t, request, k); Lone(s, s', t) && SameWait(AsTracer(s, t), AsTracer(s', t))
  {
    hide DoRequest, Subject, Lone, Attach, FindPid;
    NothingLone(s, t);
    match request {
      case TraceMe =>
      case AttachTo(pid) =>
        var x := if s.recs[t].pid == pid then Some(t) else FindPid(s.order, s.recs, pid);
        if x.Some? && x.value != t { AttachLone(s, x.value, t, t); }
      case _ =>
        var q := Subject(s, t, request.pid);
        if q.Some? { DoRequestLone(s, t, q.value, request, k); }
    }
  }

  lemma NewChildLone<Id>(s: State<Id>, t: Id, b: Birth<Id>)
    requires t in s.recs && Ordered(s) && Ptracer(s, t).Some?
    ensures var s' := NewChild(s, t, b); Lone(s, s', t) && SameWait(AsTracer(s, t), AsTracer(s', t))
  {
    hide GetTracee, Adopted, Lone;
    NothingLone(s, t);
    if Unused(s, b.child, b.pid) {
      hide Unused;
      var (s1, c) := GetTracee(s, b.child, b.pid);
      GetTraceeLone(s, b.child, b.pid, t);
      if Adoptable(s1, c) {
        AdoptedLone(s1, c, t, b);
        LoneTwice(s, s1, Adopted(s1, c, t, b), t);
      }
    }
  }

  lemma GetTraceeLone<Id>(s: State<Id>, id: Id, pid: int, t: Id)
    requires Ordered(s) && Unused(s, id, pid) && t in s.recs
    ensures var s' := GetTracee(s, id, pid).0; Lone(s, s', t) && s'.recs[t] == s.recs[t]
  {}

  lemma AdoptedLone<Id>(s: State<Id>, c: Id, t: Id, b: Birth<Id>)
    requires c in s.recs && t in s.recs && c != t
    ensures var s' := Adopted(s, c, t, b); Lone(s, s', t) && SameWait(AsTracer(s, t), AsTracer(s', t))
  {
    hide Attach, Inherits, Lone;
    var r := s.recs[t];
    var rc := s.recs[c].(parent := if b.sharesParent then r.parent else Some(t), clone := b.sharesThreads);
    OtherLone(s, c, rc, t);
    var s1 := With(s, c, rc);
    if Registered(s1, r.asPtracee.ptracer) {
      var s2 := Attach(s1, c, r.asPtracee.ptracer.value);
      AttachLone(s1, c, r.asPtracee.ptracer.value, t);
      LoneTwice(s, s1, s2, t);
      var e := s2.recs[c].asPtracee.(options := r.asPtracee.options);
      OtherLone(s2, c, s2.recs[c].(asPtracee := e), t);
      LoneTwice(s, s2, SetPtracee(s2, c, e), t);
    }
  }

  /** The wait t is blocked in after one of its events. */
  function WaitAfter<Id>(s: State<Id>, t: Id, ev: Event, k: Kernel<Id>): int
    requires t in s.recs && Ordered(s)
  {
    if InExitStage(s, t, ev, k) && CallOf(k, t).WaitCall? && AsTracer(s, t).waitsIn == WaitsInProot
    then WaitPidAfter(s, t, CallOf(k, t).pid, CallOf(k, t).options)
    else AsTracer(s, t).waitPid
  }

  lemma ExitStageLone<Id>(s: State<Id>, t: Id, ev: Event, k: Kernel<Id>)
    requires t in s.recs && Ordered(s) && Ptracer(s, t).Some? && Ptracer(s, t) != Some(t) && InExitStage(s, t, ev, k)
    ensures var s' := ExitStage(s, t, k); Lone(s, s', t) && AsTracer(s', t).waitPid == WaitAfter(s, t, ev, k)
  {
    hide WaitExit, PtraceExit, Lone, WaitPidAfter;
    NothingLone(s, t);
    match CallOf(k, t) {
      case WaitCall(pid, options) => WaitExitLone(s, t, pid, options, k);
      case PtraceCall(request) => PtraceExitLone(s, t, request, k);
      case OtherCall =>
    }
  }

  lemma TraceeEventLone<Id>(s: State<Id>, t: Id, ev: Event, k: Kernel<Id>)
    requires t in s.recs && Ordered(s) && Ptracer(s, t).Some? && Ptracer(s, t) != Some(t)
    ensures var s' := TraceeEvent(s, t, ev, k); Lone(s, s', t) && AsTracer(s', t).waitPid == WaitAfter(s, t, ev, k)
  {
    hide ExitStage, NewChild, QuietEvent, Lone, WaitPidAfter, ClearProot, SetSysexit;
    if InExitStage(s, t, ev, k) {
      var s1 := ExitStage(s, t, k);
      ExitStageLone(s, t, ev, k);
      var s2 := SetSysexit(s1, t, false);
      FlagsLone(s1, t, false);
      ClearProotLone(s2, t);
      LoneTwice(s, s1, s2, t);
      LoneTwice(s, s2, ClearProot(s2, t), t);
    } else if Announces(ev) && t in k.births {
      var s1 := NewChild(s, t, k.births[t]);
      NewChildLone(s, t, k.births[t]);
      ClearProotLone(s1, t);
      LoneTwice(s, s1, ClearProot(s1, t), t);
    } else {
      QuietEventLone(s, t, ev, k);
    }
  }

  // ----- Telling the ptracer -----

  /** The event of t is unread now, which concerns its ptracer only. */
  lemma NotifiedHears<Id>(s: State<Id>, t: Id, p: Id, ev: Event, late: set<Id>)
    requires Attentive(s, {}, late) && t in s.recs && p in s.recs && Ptracer(s, t) == Some(p)
    ensures Attentive(Notified(s, t, ev), {p}, late)
    ensures Named(s) && !Awaited(s, t, p) ==> Attentive(Notified(s, t, ev), {}, late)
  {
    var s1 := Notified(s, t, ev);
    forall q, x | q in s.recs && x in s.recs && x !in late && (q != p || (Named(s) && !Awaited(s, t, p)))
      ensures !Missed(s1, q, x)
    {
      assert !Missed(s, q, x);
    }
    forall q | q in s.recs ensures ZombiesRead(AsTracer(s1, q)) { assert ZombiesRead(AsTracer(s, q)); }
  }

  /** t is not late for a ptracer that does not wait for it. */
  lemma InTime<Id>(s: State<Id>, t: Id, p: Id)
    requires Attentive(s, {}, {t}) && t in s.recs && p in s.recs && Ptracer(s, t) == Some(p)
    ensures Attentive(s, {}, {}) <==> !Missed(s, p, t)
  {}

  lemma WaitOver<Id>(s: State<Id>, p: Id, late: set<Id>)
    requires Attentive(s, {p}, late) && p in s.recs && AsTracer(s, p).waitPid == 0
    ensures Attentive(s, {}, late)
  {}

  /** Delivery ends the wait of the ptracer, even when that cannot be restarted. */
  lemma WakeHears<Id>(s: State<Id>, t: Id, p: Id, k: Kernel<Id>, late: set<Id>)
    requires Attentive(s, {p}, late) && t in s.recs && p in s.recs && Ptracer(s, t) == Some(p)
    ensures var s' := Wake(s, t, p, k).0; Attentive(s', {}, late) && AsTracer(s', p).waitPid == 0
  {
    hide Attentive, ReadTracee;
    var s1 := ReadTracee(s, p, t, k).0;
    ReadTraceeHears(s, p, t, k, {p}, late);
    var a := AsTracer(s1, p).(waitPid := 0);
    var s2 := SetPtracer(s1, p, a);
    SetPtracerHears(s1, p, a, {p}, late);
    WaitOver(s2, p, late);
    RestartHears(s2, p, k, {}, late);
  }

  /** Once told, a ptracer does not wait for t any more. */
  lemma TellHears<Id>(s: State<Id>, t: Id, p: Id, ev: Event, k: Kernel<Id>)
    requires Attentive(s, {}, {t}) && Named(s) && t in s.recs && p in s.recs && Ptracer(s, t) == Some(p) && t != p
    ensures Attentive(Tell(s, t, p, ev, k).0, {}, {})
  {
    hide Attentive, Wake;
    var s1 := Notified(s, t, ev);
    NotifiedHears(s, t, p, ev, {t});
    if Awaited(s1, t, p) {
      WakeHears(s1, t, p, k, {t});
      NoLongerLate(Wake(s1, t, p, k).0, t, p);
      WakeLinks(s1, t, p, k);
    } else {
      InTime(s1, t, p);
    }
  }

  lemma NoLongerLate<Id>(s: State<Id>, t: Id, p: Id)
    requires Attentive(s, {}, {t}) && t in s.recs && p in s.recs && AsTracer(s, p).waitPid == 0
    ensures Ptracer(s, t).None? || Ptracer(s, t) == Some(p) ==> Attentive(s, {}, {})
  {}

  lemma WakeLinks<Id>(s: State<Id>, t: Id, p: Id, k: Kernel<Id>)
    requires t in s.recs && p in s.recs && Ptracer(s, t) == Some(p)
    ensures var s' := Wake(s, t, p, k).0; Ptracer(s', t).None? || Ptracer(s', t) == Some(p)
  {
    hide ReadTracee;
    ReadTraceeLinks(s, p, t, k);
  }

  lemma ReadTraceeLinks<Id>(s: State<Id>, p: Id, t: Id, k: Kernel<Id>)
    requires t in s.recs && p in s.recs && Ptracer(s, t) == Some(p)
    ensures var s' := ReadTracee(s, p, t, k).0; Ptracer(s', t).None? || Ptracer(s', t) == Some(p)
  {}

  lemma FirstHears<Id>(s: State<Id>, t: Id, p: Id, ev: Event, k: Kernel<Id>)
    requires Attentive(s, {}, {t}) && Named(s) && Enrolled(s) && Ordered(s) && t in s.recs && BirthsNamed(k)
    requires Ptracer(s, t) == Some(p) && p != t
    ensures var s' := First(s, t, ev, k); Attentive(s', {}, {t}) && Named(s') && Enrolled(s') && Ptracer(s', t) == Some(p)
  {
    hide Attentive, TraceeEvent, Named, Enrolled;
    var s1 := TraceeEvent(s, t, ev, k);
    TraceeEventHears(s, t, ev, k, {t});
    TraceeEventLone(s, t, ev, k);
    var e := s1.recs[t].asPtracee;
    SetPtraceeHears(s1, t, e.(proot := EventSlot(SignalStop(0), e.proot.pending)), {}, {t});
    StaysNamed(s1, First(s, t, ev, k));
  }

  lemma PassOnHears<Id>(s: State<Id>, t: Id, p: Id, ev: Event, shown: Event, first: bool, k: Kernel<Id>)
    requires Attentive(s, {}, {t}) && Named(s) && Enrolled(s) && Ordered(s) && t in s.recs && p in s.recs && BirthsNamed(k)
    requires Ptracer(s, t) == Some(p) && p != t
    ensures var s' := PassOn(s, t, p, ev, shown, first, k).0; Attentive(s', {}, {}) && Named(s') && Enrolled(s')
  {
    hide Attentive, First, Tell, Named, Enrolled;
    if first { FirstHears(s, t, p, ev, k); }
    var s1 := if first then First(s, t, ev, k) else s;
    TellHears(s1, t, p, shown, k);
    StaysNamed(s1, Tell(s1, t, p, shown, k).0);
  }

  // ----- One event -----

  /** The ptracer is told of the event. */
  predicate IsTold<Id>(r: Tracee<Id>, ev: Event, loading: bool) {
    var sifted := Sift(r, ev, loading); sifted.Shown? && (r.asPtracee.tracingStarted || sifted.starts)
  }

  /** The tracee goes on after the event. */
  predicate GoesOn<Id>(s: State<Id>, t: Id, ev: Event, k: Kernel<Id>)
    requires t in s.recs && Ordered(s)
  {
    t !in k.dead && WaitAfter(s, t, ev, k) == 0
  }

  /**
   * When an event loses a wakeup: t was restarted although its ptracer had not read its last
   * event, that ptracer is blocked in a wait for it, is not told of this event, and t does not
   * go on either.
   */
  predicate Loses<Id>(s: State<Id>, t: Id, ev: Event, k: Kernel<Id>)
    requires t in s.recs && Ordered(s)
  {
    && Unread(s.recs[t]) && Registered(s, Ptracer(s, t))
    && WaitsForTracee(AsTracer(s, Ptracer(s, t).value), s.recs[t].pid, s.recs[t].clone)
    && !IsTold(s.recs[t], ev, t in k.loading) && !GoesOn(s, t, ev, k)
  }

  /** What event_loop() and handle_ptracee_event() set in the tracee before they do anything. */
  function Halted<Id>(s: State<Id>, t: Id): (s': State<Id>)
    requires t in s.recs
    ensures Same(s, s')
  {
    With(s, t, s.recs[t].(running := false))
  }

  function Slotted<Id>(s: State<Id>, t: Id, ev: Event): (s': State<Id>)
    requires t in s.recs
    ensures Same(s, s')
  {
    SetProot(Halted(s, t), t, EventSlot(ev, true))
  }

  function Begun<Id>(s: State<Id>, t: Id, ev: Event, starts: bool): (s': State<Id>)
    requires t in s.recs
    ensures Same(s, s')
  {
    var s1 := Slotted(s, t, ev);
    var e := s1.recs[t].asPtracee;
    SetPtracee(s1, t, e.(tracingStarted := e.tracingStarted || starts))
  }

  lemma HaltedHears<Id>(s: State<Id>, t: Id)
    requires Attentive(s, {}, {}) && t in s.recs
    ensures Attentive(Halted(s, t), {}, {t}) && Stopped(s, Halted(s, t), t)
  {
    LaterIsEnough(s, t);
    WithHears(s, t, s.recs[t].(running := false), {}, {t});
  }

  lemma SlotHears<Id>(s: State<Id>, s1: State<Id>, t: Id, e: AsPtracee<Id>)
    requires t in s.recs && Stopped(s, s1, t) && Attentive(s1, {}, {t})
    requires e.ptracer == Ptracer(s1, t) && e.event == s1.recs[t].asPtracee.event
    ensures Attentive(SetPtracee(s1, t, e), {}, {t}) && Stopped(s, SetPtracee(s1, t, e), t)
  {
    SetPtraceeHears(s1, t, e, {}, {t});
  }

  lemma SlotsHear<Id>(s: State<Id>, t: Id, ev: Event, starts: bool)
    requires Attentive(s, {}, {}) && t in s.recs
    ensures Attentive(Slotted(s, t, ev), {}, {t}) && Stopped(s, Slotted(s, t, ev), t)
    ensures Attentive(Begun(s, t, ev, starts), {}, {t}) && Stopped(s, Begun(s, t, ev, starts), t)
  {
    hide Attentive, Halted, SetPtracee, Stopped, Same;
    HaltedHears(s, t);
    var s0 := Halted(s, t);
    StoppedLinks(s, s0, t);
    SlotHears(s, s0, t, s0.recs[t].asPtracee.(proot := EventSlot(ev, true)));
    var s1 := Slotted(s, t, ev);
    StoppedLinks(s, s1, t);
    var e := s1.recs[t].asPtracee;
    SlotHears(s, s1, t, e.(tracingStarted := e.tracingStarted || starts));
  }

  lemma StoppedLinks<Id>(s: State<Id>, s': State<Id>, t: Id)
    requires t in s.recs && Stopped(s, s', t)
    ensures t in s'.recs && Same(s, s') && !s'.recs[t].running
    ensures Ptracer(s', t) == Ptracer(s, t) && s'.recs[t].asPtracee.event == s.recs[t].asPtracee.event
  {}

  lemma ToldIs<Id>(s: State<Id>, t: Id, p: Id, ev: Event, k: Kernel<Id>)
    requires t in s.recs && Ordered(s) && Ptracer(s, t) == Some(p) && IsTold(s.recs[t], ev, t in k.loading)
    ensures var sifted := Sift(s.recs[t], ev, t in k.loading);
            PtraceeEvent(Halted(s, t), t, p, ev, k) ==
            PassOn(Begun(s, t, ev, sifted.starts), t, p, ev, sifted.event, sifted.first, k)
  {
    hide PassOn, Sift, Grown;
    SiftsTheSame(s, t, ev, k);
  }

  lemma UntoldIs<Id>(s: State<Id>, t: Id, p: Id, ev: Event, k: Kernel<Id>)
    requires t in s.recs && Ordered(s) && Ptracer(s, t) == Some(p) && !IsTold(s.recs[t], ev, t in k.loading)
    ensures var sifted := Sift(s.recs[t], ev, t in k.loading);
            PtraceeEvent(Halted(s, t), t, p, ev, k) ==
            (if sifted.Shown? then Begun(s, t, ev, sifted.starts) else Slotted(s, t, ev), false)
  {
    hide PassOn, Sift, Grown;
    SiftsTheSame(s, t, ev, k);
  }

  lemma StopIs<Id>(s: State<Id>, t: Id, p: Id, ev: Event, k: Kernel<Id>)
    requires t in s.recs && Ordered(s) && Ptracer(s, t) == Some(p)
    ensures var r := PtraceeEvent(Halted(s, t), t, p, ev, k);
            Stop(s, t, ev, k) == if r.1 then r.0 else Restart(TraceeEvent(r.0, t, ev, k), t, k).0
  {
    hide PtraceeEvent, TraceeEvent, Restart;
  }

  lemma SiftsTheSame<Id>(s: State<Id>, t: Id, ev: Event, k: Kernel<Id>)
    requires t in s.recs
    ensures Sift(Halted(s, t).recs[t], ev, t in k.loading) == Sift(s.recs[t], ev, t in k.loading)
  {}

  lemma LaterIsEnough<Id>(s: State<Id>, t: Id)
    requires Attentive(s, {}, {})
    ensures Attentive(s, {}, {t})
  {}

  /** t is stopped now; but for slots that concern nobody else, nothing else changed. */
  predicate Stopped<Id(==)>(s: State<Id>, s': State<Id>, t: Id)
    requires t in s.recs
  {
    && Same(s, s') && !s'.recs[t].running && (forall x | x in s.recs && x != t :: s'.recs[x] == s.recs[x])
    && s'.recs[t].asPtracee.ptracer == s.recs[t].asPtracee.ptracer && s'.recs[t].asPtracee.event == s.recs[t].asPtracee.event
    && s'.recs[t].clone == s.recs[t].clone && s'.recs[t].asPtracer == s.recs[t].asPtracer
    && s'.recs[t].inSysexit == s.recs[t].inSysexit
  }

  lemma StoppedGoesOn<Id>(s: State<Id>, s': State<Id>, t: Id, ev: Event, k: Kernel<Id>)
    requires t in s.recs && Ordered(s) && Ordered(s') && Stopped(s, s', t) && Ptracer(s, t) != Some(t)
    ensures GoesOn(s', t, ev, k) <==> GoesOn(s, t, ev, k)
  {
    hide GetPtracee;
    if CallOf(k, t).WaitCall? { StoppedFindsTheSame(s, s', t, CallOf(k, t).pid, CallOf(k, t).options); }
  }

  lemma StoppedFindsTheSame<Id>(s: State<Id>, s': State<Id>, t: Id, pid: int, options: WaitOptions)
    requires t in s.recs && Ordered(s) && Ordered(s') && Stopped(s, s', t) && Ptracer(s, t) != Some(t)
    ensures WaitPidAfter(s', t, pid, options) == WaitPidAfter(s, t, pid, options)
  {
    FindsTheSame(s, s', t, pid, options);
    hide GetPtracee;
  }

  /** An event that is not shown to the ptracer. */
  lemma UntoldHearsIff<Id>(s: State<Id>, t: Id, p: Id, ev: Event, k: Kernel<Id>)
    requires Attentive(s, {}, {t}) && Named(s) && Enrolled(s) && Ordered(s) && t in s.recs && p in s.recs && BirthsNamed(k)
    requires Ptracer(s, t) == Some(p) && p != t && !s.recs[t].running
    ensures var s' := Restart(TraceeEvent(s, t, ev, k), t, k).0;
            && Named(s') && Enrolled(s') && Ordered(s')
            && (Attentive(s', {}, {}) <==> GoesOn(s, t, ev, k) || !Missed(s, p, t))
  {
    hide Attentive, TraceeEvent, Named, Enrolled, WaitAfter, Missed, Lone;
    var s1 := TraceeEvent(s, t, ev, k);
    TraceeEventHears(s, t, ev, k, {t});
    TraceeEventLone(s, t, ev, k);
    RestartHears(s1, t, k, {}, {t});
    var s' := Restart(s1, t, k).0;
    StaysNamed(s1, s');
    AfterRestart(s, s1, t, p, k);
    InTime(s', t, p);
  }

  lemma AfterRestart<Id>(s: State<Id>, s1: State<Id>, t: Id, p: Id, k: Kernel<Id>)
    requires t in s.recs && p in s.recs && p != t && s.recs.Keys <= s1.recs.Keys && Lone(s, s1, t)
    requires Ptracer(s, t) == Some(p) && !s.recs[t].running
    ensures var s' := Restart(s1, t, k).0;
            Ptracer(s', t) == Some(p) && (Missed(s', p, t) <==> (t in k.dead || AsTracer(s1, t).waitPid != 0) && Missed(s, p, t))
  {}

  /** An event of a tracee nobody traces. */
  lemma UntracedHears<Id>(s: State<Id>, t: Id, ev: Event, k: Kernel<Id>)
    requires Attentive(s, {}, {}) && Named(s) && Enrolled(s) && Ordered(s) && t in s.recs && BirthsNamed(k)
    ensures var s' := Restart(TraceeEvent(s, t, ev, k), t, k).0;
            Named(s') && Enrolled(s') && Ordered(s') && Attentive(s', {}, {})
  {
    hide Attentive, TraceeEvent, Named, Enrolled;
    TraceeEventHears(s, t, ev, k, {});
    var s1 := TraceeEvent(s, t, ev, k);
    RestartHears(s1, t, k, {}, {});
    StaysNamed(s1, Restart(s1, t, k).0);
  }

  /** The whole handling of an event keeps wakeups from being lost exactly if the event loses none. */
  lemma StopHearsIff<Id>(s: State<Id>, t: Id, ev: Event, k: Kernel<Id>)
    requires Sound(s) && Attentive(s, {}, {}) && Named(s) && Enrolled(s) && Ordered(s) && t in s.recs && BirthsNamed(k)
    ensures var s' := Stop(s, t, ev, k); Named(s') && Enrolled(s') && (Attentive(s', {}, {}) <==> !Loses(s, t, ev, k))
  {
    hide SoundBut, Attentive, Named, Enrolled, PassOn, TraceeEvent, Restart, SetPtracee, SetProot, Sift, WaitAfter, Missed;
    LinksOf(s, t, {});
    HaltedHears(s, t);
    var s0 := Halted(s, t);
    StaysNamed(s, s0);
    match Ptracer(s, t) {
      case None =>
        NobodysIsInTime(s0, t);
        UntracedHears(s0, t, ev, k);
      case Some(p) =>
        TracedHearsIff(s, t, p, ev, k);
    }
  }

  lemma NobodysIsInTime<Id>(s: State<Id>, t: Id)
    requires Attentive(s, {}, {t}) && t in s.recs && Ptracer(s, t).None?
    ensures Attentive(s, {}, {})
  {}

  lemma TracedHearsIff<Id>(s: State<Id>, t: Id, p: Id, ev: Event, k: Kernel<Id>)
    requires Attentive(s, {}, {}) && Named(s) && Enrolled(s) && Ordered(s) && t in s.recs && p in s.recs && BirthsNamed(k)
    requires Ptracer(s, t) == Some(p) && p != t
    ensures var s' := Stop(s, t, ev, k); Named(s') && Enrolled(s') && (Attentive(s', {}, {}) <==> !Loses(s, t, ev, k))
  {
    hide Attentive, Named, Enrolled, PtraceeEvent, TraceeEvent, Restart, Stop, GoesOn, IsTold, WaitsForTracee;
    StopIs(s, t, p, ev, k);
    var r := PtraceeEvent(Halted(s, t), t, p, ev, k);
    if IsTold(s.recs[t], ev, t in k.loading) {
      ToldHears(s, t, p, ev, k);
      if !r.1 { UntracedHears(r.0, t, ev, k); }
    } else {
      UntoldStops(s, t, p, ev, k);
      UntoldHearsIff(r.0, t, p, ev, k);
    }
  }

  lemma ToldHears<Id>(s: State<Id>, t: Id, p: Id, ev: Event, k: Kernel<Id>)
    requires Attentive(s, {}, {}) && Named(s) && Enrolled(s) && Ordered(s) && t in s.recs && p in s.recs && BirthsNamed(k)
    requires Ptracer(s, t) == Some(p) && p != t && IsTold(s.recs[t], ev, t in k.loading)
    ensures var s' := PtraceeEvent(Halted(s, t), t, p, ev, k).0; Attentive(s', {}, {}) && Named(s') && Enrolled(s') && Ordered(s')
  {
    hide Attentive, Named, Enrolled, PassOn, Begun, Slotted, Stopped, Sift, IsTold, PtraceeEvent;
    ToldIsShown(s.recs[t], ev, t in k.loading);
    var sifted := Sift(s.recs[t], ev, t in k.loading);
    ToldIs(s, t, p, ev, k);
    SlotsHear(s, t, ev, sifted.starts);
    var s2 := Begun(s, t, ev, sifted.starts);
    StoppedLinks(s, s2, t);
    StaysNamed(s, s2);
    PassOnHears(s2, t, p, ev, sifted.event, sifted.first, k);
  }

  lemma UntoldStops<Id>(s: State<Id>, t: Id, p: Id, ev: Event, k: Kernel<Id>)
    requires Attentive(s, {}, {}) && Named(s) && Enrolled(s) && Ordered(s) && t in s.recs && p in s.recs
    requires Ptracer(s, t) == Some(p) && p != t && !IsTold(s.recs[t], ev, t in k.loading)
    ensures var (s', keep) := PtraceeEvent(Halted(s, t), t, p, ev, k);
            && !keep && Attentive(s', {}, {t}) && Named(s') && Enrolled(s') && Ordered(s') && t in s'.recs && p in s'.recs
            && Ptracer(s', t) == Some(p) && !s'.recs[t].running
            && (GoesOn(s', t, ev, k) <==> GoesOn(s, t, ev, k))
            && (Missed(s', p, t) <==> Unread(s.recs[t]) && WaitsForTracee(AsTracer(s, p), s.recs[t].pid, s.recs[t].clone))
  {
    hide Attentive, Named, Enrolled, Begun, Slotted, Stopped, Sift, IsTold, PtraceeEvent, GoesOn, Missed;
    var sifted := Sift(s.recs[t], ev, t in k.loading);
    UntoldIs(s, t, p, ev, k);
    SlotsHear(s, t, ev, sifted.Shown? && sifted.starts);
    var s2 := if sifted.Shown? then Begun(s, t, ev, sifted.starts) else Slotted(s, t, ev);
    StoppedLinks(s, s2, t);
    StaysNamed(s, s2);
    StoppedMisses(s, s2, t, p);
    StoppedGoesOn(s, s2, t, ev, k);
  }

  lemma ToldIsShown<Id>(r: Tracee<Id>, ev: Event, loading: bool)
    requires IsTold(r, ev, loading)
    ensures Sift(r, ev, loading).Shown?
  {}

  lemma StoppedMisses<Id>(s: State<Id>, s': State<Id>, t: Id, p: Id)
    requires t in s.recs && p in s.recs && p != t && Stopped(s, s', t) && Ptracer(s, t) == Some(p)
    ensures Missed(s', p, t) <==>
            Unread(s.recs[t]) && WaitsForTracee(AsTracer(s, p), s.recs[t].pid, s.recs[t].clone)
  {}

  // ----- Freeing -----

  lemma ProceedsHears<Id>(s: State<Id>, t: Id, e: AsPtracee<Id>, k: Kernel<Id>, but: set<Id>, late: set<Id>)
    requires Attentive(s, but, late) && t in s.recs && Ordered(s)
    ensures Attentive(Proceeds(s, t, e, k), but, late)
  {
    hide Attentive, QuietEvent, Restart;
    QuietEventHears(s, t, e.proot.value, k, but, late);
    RestartHears(QuietEvent(s, t, e.proot.value, k), t, k, but, late);
    RestartHears(s, t, k, but, late);
  }

  lemma ReleaseOneHears<Id>(s: State<Id>, r: Id, gone: Id, k: Kernel<Id>, but: set<Id>, late: set<Id>)
    requires Attentive(s, but, late) && r in s.recs && Ordered(s)
    ensures Attentive(ReleaseOne(s, r, gone, k), but, late)
  {
    hide Attentive, Proceeds, SetPtracee;
    var rec := s.recs[r];
    WithHears(s, r, rec.(parent := None), but, late);
    var s1 := if rec.parent == Some(gone) then With(s, r, rec.(parent := None)) else s;
    if Ptracer(s, r) == Some(gone) {
      var e := s1.recs[r].asPtracee;
      SetPtraceeHears(s1, r, e.(ptracer := None), but, late);
      var s2 := SetPtracee(s1, r, e.(ptracer := None));
      ProceedsHears(s2, r, e, k, but, late);
      SetPtraceeHears(Proceeds(s2, r, e, k), r, Untraced(), but, late);
    }
  }

  lemma {:induction false} ReleaseHears<Id>(s: State<Id>, relatives: seq<Id>, gone: Id, k: Kernel<Id>, but: set<Id>, late: set<Id>)
    requires Attentive(s, but, late) && Ordered(s) && forall r <- relatives :: r in s.recs
    ensures Attentive(Release(s, relatives, gone, k), but, late)
    decreases |relatives|
  {
    hide Attentive, ReleaseOne;
    if relatives != [] {
      ReleaseOneHears(s, relatives[0], gone, k, but, late);
      ReleaseHears(ReleaseOne(s, relatives[0], gone, k), relatives[1..], gone, k, but, late);
    }
  }

  /** The zombie matches what its tracee matched, so nobody is blocked for it. */
  lemma ZombifyHears<Id>(s: State<Id>, t: Id, p: Id)
    requires Attentive(s, {}, {}) && t in s.recs && p in s.recs && Ptracer(s, t) == Some(p) && t != p
    requires s.recs[t].asPtracee.event.pending && !s.recs[t].running
    ensures Attentive(Zombify(s, t, p), {}, {})
  {
    hide Detach;
    assert !Missed(s, p, t);
    hide Attentive;
    DetachHears(s, t, {}, {});
    DetachWaitsAs(s, t);
    var s1, r := Detach(s, t), s.recs[t];
    var z := Zombie(r.pid, r.clone, r.parent, r.asPtracee.event.value);
    var a := AsTracer(s1, p);
    AddZombieHears(s1, p, a.(nbPtracees := a.nbPtracees + 1, zombies := [z] + a.zombies), z);
  }

  lemma DetachWaitsAs<Id>(s: State<Id>, t: Id)
    requires t in s.recs && Ptracer(s, t).Some? && Ptracer(s, t).value in s.recs
    ensures SameWait(AsTracer(s, Ptracer(s, t).value), AsTracer(Detach(s, t), Ptracer(s, t).value))
  {}

  lemma AddZombieHears<Id>(s: State<Id>, p: Id, a: AsPtracer<Id>, z: Zombie<Id>)
    requires Attentive(s, {}, {}) && p in s.recs && a.zombies == [z] + AsTracer(s, p).zombies
    requires SameWait(AsTracer(s, p), a) && !WaitsForTracee(a, z.pid, z.clone)
    ensures Attentive(SetPtracer(s, p, a), {}, {})
  {
    var s' := SetPtracer(s, p, a);
    forall q, x | q in s.recs && x in s.recs ensures !Missed(s', q, x) { assert !Missed(s, q, x); }
    forall q | q in s.recs ensures ZombiesRead(AsTracer(s', q)) { assert ZombiesRead(AsTracer(s, q)); }
  }

  lemma ForgetHears<Id>(s: State<Id>, t: Id, p: Id, k: Kernel<Id>)
    requires Attentive(s, {}, {}) && t in s.recs && p in s.recs && Ptracer(s, t) == Some(p)
    ensures Attentive(Forget(s, t, p, k), {}, {})
  {
    hide Attentive, Detach, Restart;
    DetachHears(s, t, {}, {});
    var s1 := Detach(s, t);
    var a := AsTracer(s1, p).(waitPid := 0);
    SetPtracerHears(s1, p, a, {}, {});
    RestartHears(SetPtracer(s1, p, a), p, k, {}, {});
  }

  lemma LeaveHears<Id>(s: State<Id>, t: Id, k: Kernel<Id>)
    requires SoundBut(s, {t}) && Attentive(s, {}, {}) && t in s.recs && !s.recs[t].running
    ensures Attentive(Leave(s, t, k), {}, {})
  {
    hide Attentive, Zombify, Forget, SoundBut, Leave;
    LinksOf(s, t, {t});
    LeaveCases(s, t, k);
    if Ptracer(s, t).Some? {
      if s.recs[t].asPtracee.event.pending && s.recs[t].asPtracee.event.value.IsDeath() {
        ZombifyHears(s, t, Ptracer(s, t).value);
      } else {
        ForgetHears(s, t, Ptracer(s, t).value, k);
      }
    }
  }

  lemma DropHears<Id>(s: State<Id>, order: seq<Id>, t: Id)
    requires Attentive(s, {}, {})
    ensures Attentive(State(order, s.recs - {t}), {}, {}) && Attentive(s.(order := order), {}, {})
  {
    var s' := State(order, s.recs - {t});
    forall q, x | q in s'.recs && x in s'.recs ensures !Missed(s', q, x) { assert !Missed(s, q, x); }
    forall q | q in s'.recs ensures ZombiesRead(AsTracer(s', q)) { assert ZombiesRead(AsTracer(s, q)); }
    var s1 := s.(order := order);
    forall q, x | q in s.recs && x in s.recs ensures !Missed(s1, q, x) { assert !Missed(s, q, x); }
  }

  lemma RemoveHears<Id>(s: State<Id>, t: Id, k: Kernel<Id>)
    requires Sound(s) && Enrolled(s) && Ordered(s) && t in s.recs && Attentive(s, {}, {}) && Named(s) && !s.recs[t].running
    ensures Attentive(Remove(s, t, k), {}, {}) && Named(Remove(s, t, k))
  {
    hide SoundBut, Release, Leave, Attentive, Released, Loose;
    var order := Without(s.order, t);
    var s0 := s.(order := order);
    var s1 := Release(s0, order, t, k);
    UnlistKeeps(s, t);
    DropHears(s, order, t);
    ReleaseKeeps(s0, order, t, k, {t});
    ReleaseHears(s0, order, t, k, {}, {});
    LeaveHears(s1, t, k);
    DropHears(Leave(s1, t, k), order, t);
  }

  /** The dead do not run, and cannot be restarted. */
  predicate Buried<Id>(s: State<Id>, k: Kernel<Id>) {
    forall t | t in s.recs :: s.recs[t].terminated ==> !s.recs[t].running && t in k.dead
  }

  lemma StaysBuried<Id>(s: State<Id>, s': State<Id>, k: Kernel<Id>)
    requires Buried(s, k) && Alive(s, s', k, {})
    ensures Buried(s', k)
  {}

  lemma {:induction false} FreeTerminatedHears<Id>(s: State<Id>, todo: seq<Id>, k: Kernel<Id>)
    requires Sound(s) && Enrolled(s) && Ordered(s) && Attentive(s, {}, {}) && Named(s) && AllDeferred(s, {}) && Buried(s, k)
    ensures var s' := FreeTerminated(s, todo, k); Attentive(s', {}, {}) && Named(s')
    decreases |todo|
  {
    hide SoundBut, Remove, Enrolled, Attentive, AllDeferred, Alive, Named;
    if todo != [] {
      if todo[0] in s.recs && s.recs[todo[0]].terminated {
        var s1 := Remove(s, todo[0], k);
        RemoveKeeps(s, todo[0], k);
        RemoveHears(s, todo[0], k);
        RemoveDefers(s, todo[0], k, {});
        StaysBuried(s, s1, k);
        FreeTerminatedHears(s1, todo[1..], k);
      } else {
        FreeTerminatedHears(s, todo[1..], k);
      }
    }
  }

  // ----- Turns -----

  /** The dead do not run. */
  predicate Still<Id>(s: State<Id>) { forall t | t in s.recs :: s.recs[t].terminated ==> !s.recs[t].running }

  /** All that is kept: no wakeup is lost, and what it takes to know. */
  ghost predicate Hearing<Id>(s: State<Id>) {
    Sound(s) && Enrolled(s) && Ordered(s) && Named(s) && AllDeferred(s, {}) && Still(s) && AllHeard(s)
  }

  /** Of the kernel: pids are positive, and the dead cannot be restarted. */
  predicate TruthfulTurn<Id>(s: State<Id>, i: Input<Id>)
    requires Ready(s, i)
  {
    && i.pid > 0 && BirthsNamed(i.kernel) && (i.event.IsDeath() ==> Handled(s, i).1 in i.kernel.dead)
    && forall t | t in s.recs && s.recs[t].terminated :: t in i.kernel.dead
  }

  lemma HandledHears<Id>(s: State<Id>, i: Input<Id>)
    requires Hearing(s) && Ready(s, i) && TruthfulTurn(s, i)
    ensures var s1 := Handled(s, i).0; Attentive(s1, {}, {}) && Named(s1) && Buried(s1, i.kernel)
  {
    hide SoundBut, FreeTerminated, Named, Enrolled, Attentive, AllDeferred, AllHeard, GetTracee;
    AttentiveIff(s);
    assert Buried(s, i.kernel);
    FreeTerminatedKeeps(s, s.order, i.kernel);
    FreeTerminatedHears(s, s.order, i.kernel);
    GetTraceeHears(FreeTerminated(s, s.order, i.kernel), i.id, i.pid, {});
    HandledDefers(s, i, {});
    StaysBuried(s, Handled(s, i).0, i.kernel);
  }

  lemma StopIsStill<Id>(s: State<Id>, t: Id, ev: Event, k: Kernel<Id>)
    requires Sound(s) && AllDeferred(s, {}) && t in s.recs && Ordered(s) && Orderly(s, t, ev, k) && Buried(s, k)
    requires ev.IsDeath() ==> t in k.dead
    ensures Still(Stop(s, t, ev, k))
  {
    hide SoundBut, AllDeferred, Orderly, Stop;
    var r := s.recs[t].(running := false);
    var s0 := With(s, t, r);
    SameLinksKeep(s, t, r, {});
    StillOrderly(s, s0, t, ev, k);
    WithDefers2(s, t);
    StopTwice(s, t, ev, k);
    var dying := if ev.IsDeath() then {t} else {};
    StopDefers(s0, t, ev, k, dying);
  }

  lemma WithDefers2<Id>(s: State<Id>, t: Id)
    requires AllDeferred(s, {}) && t in s.recs
    ensures AllDeferred(With(s, t, s.recs[t].(running := false)), {})
  {}

  /** A tracee that is stopped already. */
  lemma StopTwice<Id>(s: State<Id>, t: Id, ev: Event, k: Kernel<Id>)
    requires t in s.recs && Ordered(s)
    ensures Stop(With(s, t, s.recs[t].(running := false)), t, ev, k) == Stop(s, t, ev, k)
  {
    hide PtraceeEvent, TraceeEvent, Restart;
    var s0 := With(s, t, s.recs[t].(running := false));
    assert With(s0, t, s0.recs[t].(running := false)) == s0;
  }

  /**
   * One turn: after it, a ptracer is blocked in a wait that would find something if and only if
   * the event of this turn loses that wakeup, and it never does unless the tracee was restarted
   * with an event its ptracer had not read.
   */
  lemma TurnHearsIff<Id>(s: State<Id>, i: Input<Id>)
    requires Hearing(s) && Ready(s, i) && FairTurn(s, i) && TruthfulTurn(s, i)
    ensures var (s1, t) := Handled(s, i); Hearing(Turn(s, i)) <==> !Loses(s1, t, i.event, i.kernel)
    ensures AllHeard(Turn(s, i)) ==> Hearing(Turn(s, i))
  {
    hide SoundBut, Stop, Orderly, Handled, Named, Enrolled, Attentive, AllDeferred, AllHeard, Loses;
    var (s1, t) := Handled(s, i);
    HandledKeeps(s, i);
    HandledHears(s, i);
    TurnKeeps(s, i);
    TurnDefers(s, i);
    StopHearsIff(s1, t, i.event, i.kernel);
    HandledDefers(s, i, {});
    StopIsStill(s1, t, i.event, i.kernel);
    AttentiveIff(Turn(s, i));
  }

  // ----- Runs -----

  predicate TruthfulRun<Id>(s: State<Id>, inputs: seq<Input<Id>>)
    requires FairRun(s, inputs)
    decreases |inputs|
  {
    inputs == [] || (TruthfulTurn(s, inputs[0]) && TruthfulRun(Turn(s, inputs[0]), inputs[1..]))
  }

  /** No event of the run loses a wakeup. */
  predicate LosesNone<Id>(s: State<Id>, inputs: seq<Input<Id>>)
    requires FairRun(s, inputs)
    decreases |inputs|
  {
    inputs == [] ||
    (var (s1, t) := Handled(s, inputs[0]);
     !Loses(s1, t, inputs[0].event, inputs[0].kernel) && LosesNone(Turn(s, inputs[0]), inputs[1..]))
  }

  /** At every point of the run, no ptracer is blocked in a wait that would find something. */
  predicate AlwaysHeard<Id>(s: State<Id>, inputs: seq<Input<Id>>)
    requires Ordered(s) && FairRun(s, inputs)
    decreases |inputs|
  {
    AllHeard(s) && (inputs == [] || AlwaysHeard(Turn(s, inputs[0]), inputs[1..]))
  }

  /** No wakeup is lost in a run if and only if none of its events loses one. */
  lemma {:induction false} NoLostWakeupIff<Id>(s: State<Id>, inputs: seq<Input<Id>>)
    requires Hearing(s) && FairRun(s, inputs) && TruthfulRun(s, inputs)
    ensures AlwaysHeard(s, inputs) <==> LosesNone(s, inputs)
    decreases |inputs|
  {
    hide Turn, FairTurn, TruthfulTurn, Loses, Handled, SoundBut, Named, AllDeferred, Still, AllHeard;
    if inputs != [] {
      TurnHearsIff(s, inputs[0]);
      if AllHeard(Turn(s, inputs[0])) { NoLostWakeupIff(Turn(s, inputs[0]), inputs[1..]); }
    }
  }

  /** Whoever stops has had its last event read, or dies: ptracers restart a ptracee only after that. */
  predicate ReadRun<Id>(s: State<Id>, inputs: seq<Input<Id>>)
    requires FairRun(s, inputs)
    decreases |inputs|
  {
    inputs == [] ||
    (var (s1, t) := Handled(s, inputs[0]);
     (Unread(s1.recs[t]) ==> inputs[0].event.IsDeath()) && ReadRun(Turn(s, inputs[0]), inputs[1..]))
  }

  /** No lost wakeup: where ptracers restart a ptracee only after they have read its event, no wakeup is ever lost. */
  lemma NoLostWakeup<Id>(s: State<Id>, inputs: seq<Input<Id>>)
    requires Hearing(s) && FairRun(s, inputs) && TruthfulRun(s, inputs) && ReadRun(s, inputs)
    ensures AlwaysHeard(s, inputs)
  {
    hide Hearing;
    ReadLosesNone(s, inputs);
    NoLostWakeupIff(s, inputs);
  }

  lemma {:induction false} ReadLosesNone<Id>(s: State<Id>, inputs: seq<Input<Id>>)
    requires FairRun(s, inputs) && ReadRun(s, inputs)
    ensures LosesNone(s, inputs)
    decreases |inputs|
  {
    hide Turn, FairTurn, Loses, Handled, Unread;
    if inputs != [] {
      var (s1, t) := Handled(s, inputs[0]);
      ReadLosesNothing(s1, t, inputs[0].event, inputs[0].kernel);
      ReadLosesNone(Turn(s, inputs[0]), inputs[1..]);
    }
  }

  /** A death is always told. */
  lemma ReadLosesNothing<Id>(s: State<Id>, t: Id, ev: Event, k: Kernel<Id>)
    requires t in s.recs && Ordered(s) && (Unread(s.recs[t]) ==> ev.IsDeath())
    ensures !Loses(s, t, ev, k)
  {}

  lemma StartIsHearing<Id>()
    ensures Hearing(Start<Id>())
  {}

  // ----- How an event comes to be unread while its tracee runs -----

  lemma {:induction false} FoundIsStopped<Id>(list: seq<Id>, recs: map<Id, Tracee<Id>>, p: Id, pid: int, options: WaitOptions)
    requires forall t <- list :: t in recs
    ensures var r := FirstPtracee(list, recs, p, pid, true, false, options); r.ATracee? ==> !recs[r.t].running
  {
    if list != [] { FoundIsStopped(list[1..], recs, p, pid, options); }
  }

  /** A request to resume leaves its ptracee running with an event not read if and only if there was one, and it runs. */
  lemma ResumeLeavesUnreadIff<Id>(s: State<Id>, p: Id, x: Id, pid: int, ignore: Option<bool>, k: Kernel<Id>)
    requires p in s.recs && x in s.recs && Ordered(s) && Subject(s, p, pid) == Some(x)
    ensures var r := PtraceExit(s, p, Resume(pid, ignore), k).recs[x];
            r.running && Unread(r) <==> Unread(s.recs[x]) && x !in k.dead && AsTracer(s, x).waitPid == 0
  {
    ResumeIsProceed(s, p, x, pid, ignore, k);
    hide PtraceExit, Subject, Proceed;
    var e := s.recs[x].asPtracee;
    var s1 := SetPtracee(s, x, e.(ignoreSyscalls := if ignore.Some? then ignore.value else e.ignoreSyscalls));
    ProceedLeaves(s1, x, k);
  }

  lemma ResumeIsProceed<Id>(s: State<Id>, p: Id, x: Id, pid: int, ignore: Option<bool>, k: Kernel<Id>)
    requires p in s.recs && x in s.recs && Ordered(s) && Subject(s, p, pid) == Some(x)
    ensures var e := s.recs[x].asPtracee;
            PtraceExit(s, p, Resume(pid, ignore), k) ==
            Proceed(SetPtracee(s, x, e.(ignoreSyscalls := if ignore.Some? then ignore.value else e.ignoreSyscalls)), x, k)
    ensures !s.recs[x].running
  {
    FoundIsStopped(s.order, s.recs, p, pid, WaitOptions(false, true, false));
    hide Proceed;
  }

  lemma ProceedLeaves<Id>(s: State<Id>, x: Id, k: Kernel<Id>)
    requires x in s.recs && Ordered(s) && !s.recs[x].running
    ensures var r := Proceed(s, x, k).recs[x];
            r.running && Unread(r) <==> Unread(s.recs[x]) && x !in k.dead && AsTracer(s, x).waitPid == 0
  {
    hide QuietEvent, Lone;
    var e := s.recs[x].asPtracee;
    QuietEventLone(s, x, e.proot.value, k);
    LoneIs(s, QuietEvent(s, x, e.proot.value, k), x);
  }

  lemma LoneIs<Id>(s: State<Id>, s': State<Id>, t: Id)
    requires t in s.recs && s.recs.Keys <= s'.recs.Keys && Lone(s, s', t)
    ensures s'.recs[t].running == s.recs[t].running && (Unread(s'.recs[t]) <==> Unread(s.recs[t]))
  {}

  /** Only those lose wakeups. */
  lemma OnlyUnreadLoses<Id>(s: State<Id>, t: Id, ev: Event, k: Kernel<Id>)
    requires t in s.recs && Ordered(s) && Attentive(s, {}, {}) && Loses(s, t, ev, k)
    ensures s.recs[t].running && Unread(s.recs[t])
  {
    assert !Missed(s, Ptracer(s, t).value, t);
  }
}
