/**
 * Ptracee conservation and reference integrity: whatever happens, every ptracer counts its
 * ptracees right, nobody traces itself, and parents and ptracers stay registered.
 */
module PtraceConservation {
  import opened Wrappers
  import opened PtraceState
  import opened PtraceEmulation

  // ----- wait(2) -----

  /** A new record with the same links. */
  lemma SameLinksKeep<Id>(s: State<Id>, t: Id, r: Tracee<Id>, but: set<Id>)
    requires SoundBut(s, but) && t in s.recs
    requires r.pid == s.recs[t].pid && r.parent == s.recs[t].parent && r.asPtracee.ptracer == Ptracer(s, t) && Balance(r) == Balance(s.recs[t])
    ensures SoundBut(With(s, t, r), but)
  {
    LinksAreGood(s, t);
    SameGoodLinks(s, t, s.recs[t], r);
    UpdateKeeps(s, t, r, but);
  }

  lemma RestartKeeps<Id>(s: State<Id>, t: Id, k: Kernel<Id>, but: set<Id>)
    requires SoundBut(s, but) && t in s.recs
    ensures SoundBut(Restart(s, t, k).0, but)
  {
    hide SoundBut;
    SameLinksKeep(s, t, s.recs[t].(running := true), but);
  }

  lemma SetPtracerKeeps<Id>(s: State<Id>, p: Id, a: AsPtracer<Id>, but: set<Id>)
    requires SoundBut(s, but) && p in s.recs
    requires a.nbPtracees - |a.zombies| == Balance(s.recs[p])
    ensures SoundBut(SetPtracer(s, p, a), but)
  {
    hide SoundBut;
    SameLinksKeep(s, p, s.recs[p].(asPtracer := a), but);
  }

  lemma SetPtraceeKeeps<Id>(s: State<Id>, t: Id, e: AsPtracee<Id>, but: set<Id>)
    requires SoundBut(s, but) && t in s.recs && e.ptracer == Ptracer(s, t)
    ensures SoundBut(SetPtracee(s, t, e), but)
  {
    hide SoundBut;
    SameLinksKeep(s, t, s.recs[t].(asPtracee := e), but);
  }

  lemma WaitEnterKeeps<Id>(s: State<Id>, p: Id, pid: int, options: WaitOptions, but: set<Id>)
    requires SoundBut(s, but) && p in s.recs && Ordered(s)
    ensures SoundBut(WaitEnter(s, p, pid, options), but)
  {
    hide SoundBut, GetPtracee;
    var a := AsTracer(s, p);
    SetPtracerKeeps(s, p, a.(waitsIn := WaitsInKernel), but);
    SetPtracerKeeps(SetPtracer(s, p, a.(waitsIn := WaitsInKernel)), p, a.(waitsIn := WaitsInProot), but);
  }

  lemma BuryKeeps<Id>(s: State<Id>, p: Id, i: nat, but: set<Id>)
    requires SoundBut(s, but) && p in s.recs && i < |AsTracer(s, p).zombies|
    ensures SoundBut(Bury(s, p, i), but)
  {
    hide SoundBut;
    var a := AsTracer(s, p);
    SetPtracerKeeps(s, p, a.(nbPtracees := a.nbPtracees - 1, zombies := a.zombies[..i] + a.zombies[i + 1..]), but);
  }

  lemma ReadTraceeKeeps<Id>(s: State<Id>, p: Id, t: Id, k: Kernel<Id>, but: set<Id>)
    requires SoundBut(s, but) && p in s.recs && t in s.recs && Ptracer(s, t) == Some(p)
    ensures SoundBut(ReadTracee(s, p, t, k).0, but)
  {
    hide SoundBut;
    var e := s.recs[t].asPtracee;
    DetachKeeps(s, t, but);
    SetPtraceeKeeps(s, t, e.(event := e.event.(pending := false)), but);
  }

  lemma WaitExitKeeps<Id>(s: State<Id>, p: Id, pid: int, options: WaitOptions, k: Kernel<Id>, but: set<Id>)
    requires SoundBut(s, but) && p in s.recs && Ordered(s)
    ensures SoundBut(WaitExit(s, p, pid, options, k).0, but)
  {
    hide SoundBut, GetPtracee, ReadTracee, Bury;
    var a := AsTracer(s, p).(waitsIn := DoesntWait);
    var s1 := SetPtracer(s, p, a);
    SetPtracerKeeps(s, p, a, but);
    match GetPtracee(s1, p, pid, true, true, options) {
      case AZombie(i) => BuryKeeps(s1, p, i, but);
      case ATracee(t) => ReadTraceeKeeps(s1, p, t, k, but);
      case Nobody => SetPtracerKeeps(s1, p, a.(waitPid := pid, waitOptions := options), but);
    }
  }

  // ----- Events that need nothing but the tracee -----

  lemma SetSysexitKeeps<Id>(s: State<Id>, t: Id, inSysexit: bool, but: set<Id>)
    requires SoundBut(s, but) && t in s.recs
    ensures SoundBut(SetSysexit(s, t, inSysexit), but)
  {
    hide SoundBut;
    SameLinksKeep(s, t, s.recs[t].(inSysexit := inSysexit), but);
  }

  lemma EnterStageKeeps<Id>(s: State<Id>, t: Id, k: Kernel<Id>, but: set<Id>)
    requires SoundBut(s, but) && t in s.recs && Ordered(s)
    ensures SoundBut(EnterStage(s, t, k), but)
  {
    hide SoundBut, WaitEnter, SetSysexit;
    match CallOf(k, t) {
      case WaitCall(pid, options) =>
        WaitEnterKeeps(s, t, pid, options, but);
        SetSysexitKeeps(WaitEnter(s, t, pid, options), t, t in k.entered, but);
      case _ =>
    }
    SetSysexitKeeps(s, t, t in k.entered, but);
  }

  lemma ClearProotKeeps<Id>(s: State<Id>, t: Id, but: set<Id>)
    requires SoundBut(s, but) && t in s.recs
    ensures SoundBut(ClearProot(s, t), but)
  {
    hide SoundBut;
    var e := s.recs[t].asPtracee;
    SetPtraceeKeeps(s, t, e.(proot := e.proot.(pending := false)), but);
  }

  lemma QuietEventKeeps<Id>(s: State<Id>, t: Id, ev: Event, k: Kernel<Id>, but: set<Id>)
    requires SoundBut(s, but) && t in s.recs && Ordered(s)
    ensures SoundBut(QuietEvent(s, t, ev, k), but)
  {
    hide SoundBut, EnterStage, ClearProot;
    var r := s.recs[t];
    var s1 :=
      if ev.IsDeath() then With(s, t, r.(terminated := true))
      else if ev.SyscallStop? || ev.SeccompStop? then EnterStage(s, t, k)
      else if ev == SignalStop(SIGSTOP) then With(s, t, r.(sigstopAllowed := true))
      else s;
    SameLinksKeep(s, t, r.(terminated := true), but);
    EnterStageKeeps(s, t, k, but);
    SameLinksKeep(s, t, r.(sigstopAllowed := true), but);
    ClearProotKeeps(s1, t, but);
  }

  // ----- ptrace(2) -----

  lemma TraceMeKeeps<Id>(s: State<Id>, t: Id, k: Kernel<Id>, but: set<Id>)
    requires SoundBut(s, but) && t in s.recs
    ensures SoundBut(DoTraceMe(s, t, k), but)
  {
    hide SoundBut, Attach;
    var parent := s.recs[t].parent;
    if Ptracer(s, t).None? && parent != Some(t) && Registered(s, parent) {
      var p := parent.value;
      AttachKeeps(s, t, p, but);
      var s1 := Attach(s, t, p);
      var r := s1.recs[p];
      SameLinksKeep(s1, p, r.(sigstopAllowed := false, asPtracer := r.asPtracer.(waitsIn := WaitsInProot)), but);
    }
  }

  lemma DoAttachKeeps<Id>(s: State<Id>, p: Id, pid: int, but: set<Id>)
    requires SoundBut(s, but) && p in s.recs && Ordered(s)
    ensures SoundBut(DoAttach(s, p, pid), but)
  {
    hide SoundBut, Attach;
    var t := if s.recs[p].pid == pid then Some(p) else FindPid(s.order, s.recs, pid);
    if t.Some? && Ptracer(s, t.value).None? && t.value != p {
      AttachKeeps(s, t.value, p, but);
    }
  }

  lemma ProceedKeeps<Id>(s: State<Id>, t: Id, k: Kernel<Id>, but: set<Id>)
    requires SoundBut(s, but) && t in s.recs && Ordered(s)
    ensures SoundBut(Proceed(s, t, k), but)
  {
    hide SoundBut, QuietEvent, Restart;
    var e := s.recs[t].asPtracee;
    QuietEventKeeps(s, t, e.proot.value, k, but);
    RestartKeeps(if e.proot.pending then QuietEvent(s, t, e.proot.value, k) else s, t, k, but);
  }

  lemma DoRequestKeeps<Id>(s: State<Id>, p: Id, t: Id, request: Request, k: Kernel<Id>, but: set<Id>)
    requires SoundBut(s, but) && p in s.recs && t in s.recs && Ptracer(s, t) == Some(p) && Ordered(s)
    ensures SoundBut(DoRequest(s, p, t, request, k), but)
  {
    hide SoundBut, Proceed, Detach;
    var e := s.recs[t].asPtracee;
    match request {
      case Resume(_, ignore) =>
        var e1 := e.(ignoreSyscalls := if ignore.Some? then ignore.value else e.ignoreSyscalls);
        SetPtraceeKeeps(s, t, e1, but);
        ProceedKeeps(SetPtracee(s, t, e1), t, k, but);
      case LetGo(_) =>
        DetachKeeps(s, t, but);
        ProceedKeeps(Detach(s, t), t, k, but);
      case SetOptions(_, options, _) => SetPtraceeKeeps(s, t, e.(options := options), but);
      case _ =>
    }
  }

  lemma PtraceExitKeeps<Id>(s: State<Id>, p: Id, request: Request, k: Kernel<Id>, but: set<Id>)
    requires SoundBut(s, but) && p in s.recs && Ordered(s)
    ensures SoundBut(PtraceExit(s, p, request, k), but)
  {
    hide SoundBut, DoTraceMe, DoAttach, DoRequest, Subject;
    match request {
      case TraceMe => TraceMeKeeps(s, p, k, but);
      case AttachTo(pid) => DoAttachKeeps(s, p, pid, but);
      case _ =>
        var t := Subject(s, p, request.pid);
        if t.Some? { DoRequestKeeps(s, p, t.value, request, k, but); }
    }
  }

  // ----- Children -----

  lemma NewTraceeKeeps<Id>(s: State<Id>, t: Id, pid: int)
    requires Sound(s) && t !in s.recs
    ensures Sound(NewTracee(s, t, pid))
  {
    hide Ptracees;
    var s' := NewTracee(s, t, pid);
    assert Referenced(s');
    assert t !in s.order;
    forall q | q in s'.recs ensures Counted(s', q) {
      NewIsUntraced(s, t, pid, q);
      if q != t { assert Counted(s, q); }
    }
  }

  lemma NewIsUntraced<Id>(s: State<Id>, t: Id, pid: int, q: Id)
    requires Referenced(s) && t !in s.recs
    ensures Ptracees(NewTracee(s, t, pid), q) == Ptracees(s, q)
    ensures q == t ==> Ptracees(s, q) == {}
  {}

  lemma GetTraceeKeeps<Id>(s: State<Id>, id: Id, pid: int)
    requires Sound(s) && Ordered(s) && Unused(s, id, pid)
    ensures Sound(GetTracee(s, id, pid).0)
  {
    if FindPid(s.order, s.recs, pid).None? { NewTraceeKeeps(s, id, pid); }
  }

  /**
   * The child is neither its parent nor the ptracer of its parent, which takes a fork event
   * reported after the child attached to its parent.
   */
  predicate ForksInOrder<Id>(s: State<Id>, t: Id, b: Birth<Id>)
    requires t in s.recs
  {
    && Ordered(s) && Unused(s, b.child, b.pid) && s.recs[t].pid != b.pid
    && (Registered(s, Ptracer(s, t)) ==> s.recs[Ptracer(s, t).value].pid != b.pid)
  }

  lemma ReparentKeeps<Id>(s: State<Id>, c: Id, r: Tracee<Id>, but: set<Id>)
    requires SoundBut(s, but) && c in s.recs && (r.parent.Some? ==> r.parent.value in s.recs)
    requires r.pid == s.recs[c].pid && r.asPtracee == s.recs[c].asPtracee && r.asPtracer == s.recs[c].asPtracer
    ensures SoundBut(With(s, c, r), but)
  {
    LinksAreGood(s, c);
    UpdateKeeps(s, c, r, but);
  }

  lemma InheritKeeps<Id>(s: State<Id>, c: Id, p: Id, options: set<TraceOption>)
    requires Sound(s) && c in s.recs && p in s.recs && c != p && Ptracer(s, c).None?
    ensures Sound(Inherit(s, c, p, options))
  {
    hide SoundBut, Attach;
    AttachKeeps(s, c, p, {});
    AttachedTo(s, c, p);
    var s1 := Attach(s, c, p);
    SetPtraceeKeeps(s1, c, s1.recs[c].asPtracee.(options := options), {});
  }

  lemma AdoptedKeeps<Id>(s: State<Id>, c: Id, t: Id, b: Birth<Id>)
    requires Sound(s) && c in s.recs && t in s.recs && Adoptable(s, c) && Ptracer(s, t) != Some(c)
    ensures Sound(Adopted(s, c, t, b))
  {
    hide SoundBut, Inherit;
    ParentIsRegistered(s, t);
    var r := s.recs[t];
    var rc := s.recs[c].(parent := if b.sharesParent then r.parent else Some(t), clone := b.sharesThreads);
    ReparentKeeps(s, c, rc, {});
    if r.asPtracee.ptracer.Some? {
      InheritKeeps(With(s, c, rc), c, r.asPtracee.ptracer.value, r.asPtracee.options);
    }
  }

  lemma NewChildKeeps<Id>(s: State<Id>, t: Id, b: Birth<Id>)
    requires Sound(s) && Ordered(s) && t in s.recs && ForksInOrder(s, t, b)
    ensures Sound(NewChild(s, t, b))
  {
    hide SoundBut, Adopted, GetTracee;
    var (s1, c) := GetTracee(s, b.child, b.pid);
    GetTraceeKeeps(s, b.child, b.pid);
    GetTraceeLink(s, b.child, b.pid, t);
    ParentIsRegistered(s, t);
    if Adoptable(s1, c) { AdoptedKeeps(s1, c, t, b); }
  }

  lemma ParentIsRegistered<Id>(s: State<Id>, t: Id)
    requires Sound(s) && t in s.recs
    ensures s.recs[t].parent.Some? ==> s.recs[t].parent.value in s.recs
    ensures Ptracer(s, t).Some? ==> Ptracer(s, t).value in s.recs && Ptracer(s, t).value != t
  {}

  lemma AttachedTo<Id>(s: State<Id>, t: Id, p: Id)
    requires t in s.recs && p in s.recs && t != p
    ensures Ptracer(Attach(s, t, p), t) == Some(p)
  {}

  /** A fork event reported late makes a tracee trace itself, exactly when the child traces its parent by then. */
  lemma NewChildIsSoundIff<Id>(s: State<Id>, t: Id, b: Birth<Id>)
    requires Sound(s) && Ordered(s) && t in s.recs && Unused(s, b.child, b.pid)
    requires var (s1, c) := GetTracee(s, b.child, b.pid); Adoptable(s1, c)
    requires Inherits(s.recs[t], b)
    ensures var c := GetTracee(s, b.child, b.pid).1;
            Sound(NewChild(s, t, b)) <==> Ptracer(s, t) != Some(c)
  {
    hide SoundBut, Adopted, GetTracee, Inherits;
    var (s1, c) := GetTracee(s, b.child, b.pid);
    ParentIsRegistered(s, t);
    GetTraceeKeeps(s, b.child, b.pid);
    GetTraceeLink(s, b.child, b.pid, t);
    if Ptracer(s, t) == Some(c) {
      AdoptedBySelf(s1, c, t, b);
      NotSelfTraced(NewChild(s, t, b), c);
    } else {
      AdoptedKeeps(s1, c, t, b);
    }
  }

  lemma AdoptedBySelf<Id>(s: State<Id>, c: Id, t: Id, b: Birth<Id>)
    requires c in s.recs && t in s.recs && Inherits(s.recs[t], b) && Ptracer(s, t) == Some(c)
    ensures Ptracer(Adopted(s, c, t, b), c) == Some(c)
  {
    hide Inherit;
    var r := s.recs[t];
    InheritFromItself(With(s, c, s.recs[c].(parent := if b.sharesParent then r.parent else Some(t), clone := b.sharesThreads)),
                      c, r.asPtracee.options);
  }

  lemma InheritFromItself<Id>(s: State<Id>, c: Id, options: set<TraceOption>)
    requires c in s.recs
    ensures Ptracer(Inherit(s, c, c, options), c) == Some(c)
  {}

  lemma NotSelfTraced<Id>(s: State<Id>, t: Id)
    requires t in s.recs
    ensures Sound(s) ==> Ptracer(s, t) != Some(t)
  {}

  /**
   * A second birth of the same child fails the assertion of new_child(), unless the child is the
   * sibling of a parent without parent, and not traced as that is. When it is handled a second
   * time: see PtraceTwice.
   */
  lemma SecondBirthAbortsIff<Id>(s: State<Id>, t: Id, b: Birth<Id>)
    requires Sound(s) && Ordered(s) && t in s.recs && Unused(s, b.child, b.pid)
    requires var (s1, c) := GetTracee(s, b.child, b.pid); Adoptable(s1, c)
    ensures var c := GetTracee(s, b.child, b.pid).1;
            && c in NewChild(s, t, b).recs
            && (!Adoptable(NewChild(s, t, b), c) <==> !b.sharesParent || s.recs[t].parent.Some? || Inherits(s.recs[t], b))
  {
    hide GetTracee, Adopted, SoundBut;
    var (s1, c) := GetTracee(s, b.child, b.pid);
    ParentIsRegistered(s, t);
    GetTraceeLink(s, b.child, b.pid, t);
    AdoptedParent(s1, c, t, b);
    AdoptedPtracer(s1, c, t, b);
  }

  lemma AdoptedPtracer<Id>(s: State<Id>, c: Id, t: Id, b: Birth<Id>)
    requires c in s.recs && t in s.recs && Ptracer(s, c).None? && (Ptracer(s, t).Some? ==> Ptracer(s, t).value in s.recs)
    ensures Ptracer(Adopted(s, c, t, b), c) == if Inherits(s.recs[t], b) then Ptracer(s, t) else None
  {
    hide Inherit;
    var r := s.recs[t];
    var s1 := With(s, c, s.recs[c].(parent := if b.sharesParent then r.parent else Some(t), clone := b.sharesThreads));
    if Inherits(r, b) { InheritedFrom(s1, c, r.asPtracee.ptracer.value, r.asPtracee.options); }
  }

  lemma InheritedFrom<Id>(s: State<Id>, c: Id, p: Id, options: set<TraceOption>)
    requires c in s.recs && p in s.recs
    ensures Ptracer(Inherit(s, c, p, options), c) == Some(p)
  {}

  lemma AdoptedParent<Id>(s: State<Id>, c: Id, t: Id, b: Birth<Id>)
    requires c in s.recs && t in s.recs
    ensures Adopted(s, c, t, b).recs[c].parent == if b.sharesParent then s.recs[t].parent else Some(t)
  {
    hide Inherit, Inherits;
    var r := s.recs[t];
    var s1 := With(s, c, s.recs[c].(parent := if b.sharesParent then r.parent else Some(t), clone := b.sharesThreads));
    if Registered(s1, r.asPtracee.ptracer) { InheritParent(s1, c, r.asPtracee.ptracer.value, r.asPtracee.options); }
  }

  lemma InheritParent<Id>(s: State<Id>, c: Id, p: Id, options: set<TraceOption>)
    requires c in s.recs && p in s.recs
    ensures Inherit(s, c, p, options).recs[c].parent == s.recs[c].parent
  {}

  // ----- Events -----

  lemma ExitStageKeeps<Id>(s: State<Id>, t: Id, k: Kernel<Id>)
    requires Sound(s) && t in s.recs && Ordered(s)
    ensures Sound(ExitStage(s, t, k))
  {
    hide SoundBut, WaitExit, PtraceExit;
    match CallOf(k, t) {
      case WaitCall(pid, options) => WaitExitKeeps(s, t, pid, options, k, {});
      case PtraceCall(request) => PtraceExitKeeps(s, t, request, k, {});
      case OtherCall =>
    }
  }

  /** Fork events are handled in order. */
  predicate Orderly<Id>(s: State<Id>, t: Id, ev: Event, k: Kernel<Id>)
    requires t in s.recs
  {
    Announces(ev) && t in k.births ==> ForksInOrder(s, t, k.births[t])
  }

  lemma TraceeEventKeeps<Id>(s: State<Id>, t: Id, ev: Event, k: Kernel<Id>)
    requires Sound(s) && t in s.recs && Ordered(s) && Orderly(s, t, ev, k)
    ensures Sound(TraceeEvent(s, t, ev, k))
  {
    hide SoundBut, ExitStage, NewChild, QuietEvent, ClearProot, SetSysexit;
    if InExitStage(s, t, ev, k) {
      ExitStageKeeps(s, t, k);
      SetSysexitKeeps(ExitStage(s, t, k), t, false, {});
      ClearProotKeeps(SetSysexit(ExitStage(s, t, k), t, false), t, {});
    } else if Announces(ev) && t in k.births {
      NewChildKeeps(s, t, k.births[t]);
      ClearProotKeeps(NewChild(s, t, k.births[t]), t, {});
    } else {
      QuietEventKeeps(s, t, ev, k, {});
    }
  }

  lemma WakeKeeps<Id>(s: State<Id>, t: Id, p: Id, k: Kernel<Id>)
    requires Sound(s) && t in s.recs && p in s.recs && Ptracer(s, t) == Some(p)
    ensures Sound(Wake(s, t, p, k).0)
  {
    hide SoundBut, ReadTracee, Restart;
    var s1 := ReadTracee(s, p, t, k).0;
    ReadTraceeKeeps(s, p, t, k, {});
    SetPtracerKeeps(s1, p, AsTracer(s1, p).(waitPid := 0), {});
    RestartKeeps(SetPtracer(s1, p, AsTracer(s1, p).(waitPid := 0)), p, k, {});
  }

  lemma TellKeeps<Id>(s: State<Id>, t: Id, p: Id, ev: Event, k: Kernel<Id>)
    requires Sound(s) && t in s.recs && p in s.recs && Ptracer(s, t) == Some(p)
    ensures Sound(Tell(s, t, p, ev, k).0)
  {
    hide SoundBut, Wake;
    SetPtraceeKeeps(s, t, s.recs[t].asPtracee.(event := EventSlot(ev, true)), {});
    WakeKeeps(Notified(s, t, ev), t, p, k);
  }

  lemma SetProotKeeps<Id>(s: State<Id>, t: Id, slot: EventSlot)
    requires Sound(s) && t in s.recs
    ensures Sound(SetProot(s, t, slot))
  {
    hide SoundBut;
    SetPtraceeKeeps(s, t, s.recs[t].asPtracee.(proot := slot), {});
  }

  lemma FirstKeeps<Id>(s: State<Id>, t: Id, ev: Event, k: Kernel<Id>)
    requires Sound(s) && t in s.recs && Ordered(s) && Orderly(s, t, ev, k)
    ensures Sound(First(s, t, ev, k))
  {
    hide SoundBut, TraceeEvent, SetProot, Orderly;
    TraceeEventKeeps(s, t, ev, k);
    var s1 := TraceeEvent(s, t, ev, k);
    SetProotKeeps(s1, t, EventSlot(SignalStop(0), s1.recs[t].asPtracee.proot.pending));
  }

  /** The same list, and the same links for t but maybe its ptracer. */
  lemma StillOrderly<Id>(s: State<Id>, s': State<Id>, t: Id, ev: Event, k: Kernel<Id>)
    requires t in s.recs && Ordered(s) && Orderly(s, t, ev, k) && Same(s, s')
    requires Ptracer(s', t) == Ptracer(s, t) || Ptracer(s', t).None?
    ensures Ordered(s') && Orderly(s', t, ev, k)
  {
    if Announces(ev) && t in k.births { FindSame(s, s', k.births[t].pid); }
  }

  lemma FindSame<Id>(s: State<Id>, s': State<Id>, pid: int)
    requires Ordered(s) && Ordered(s') && Grown(s, s')
    ensures FindPid(s.order, s.recs, pid).Some? ==> FindPid(s'.order, s'.recs, pid).Some?
  {}

  lemma PassOnKeeps<Id>(s: State<Id>, t: Id, p: Id, ev: Event, shown: Event, first: bool, k: Kernel<Id>)
    requires Sound(s) && t in s.recs && Ordered(s) && Orderly(s, t, ev, k)
    ensures Sound(PassOn(s, t, p, ev, shown, first, k).0)
  {
    hide SoundBut, First, Tell, Orderly;
    FirstKeeps(s, t, ev, k);
    var s1 := if first then First(s, t, ev, k) else s;
    if Ptracer(s1, t) == Some(p) && p in s1.recs { TellKeeps(s1, t, p, shown, k); }
  }

  lemma SlotKeeps<Id>(s: State<Id>, t: Id, e: AsPtracee<Id>, ev: Event, k: Kernel<Id>)
    requires Sound(s) && t in s.recs && Ordered(s) && Orderly(s, t, ev, k) && e.ptracer == Ptracer(s, t)
    ensures var s' := SetPtracee(s, t, e); Sound(s') && Orderly(s', t, ev, k) && s'.recs[t].asPtracee == e
  {
    hide SoundBut, Orderly;
    SetPtraceeKeeps(s, t, e, {});
    StillOrderly(s, SetPtracee(s, t, e), t, ev, k);
  }

  lemma PtraceeEventKeeps<Id>(s: State<Id>, t: Id, p: Id, ev: Event, k: Kernel<Id>)
    requires Sound(s) && t in s.recs && Ordered(s) && Orderly(s, t, ev, k) && Ptracer(s, t) == Some(p)
    ensures Sound(PtraceeEvent(s, t, p, ev, k).0)
  {
    hide SoundBut, PassOn, Orderly, SetPtracee, Sift;
    var e0 := s.recs[t].asPtracee.(proot := EventSlot(ev, true));
    SlotKeeps(s, t, e0, ev, k);
    var s0 := SetPtracee(s, t, e0);
    var sifted := Sift(s.recs[t], ev, t in k.loading);
    if sifted.Shown? {
      var e := e0.(tracingStarted := e0.tracingStarted || sifted.starts);
      SlotKeeps(s0, t, e, ev, k);
      PassOnKeeps(SetPtracee(s0, t, e), t, p, ev, sifted.event, sifted.first, k);
    }
  }

  // A fork event can be handled twice: see PtraceTwice.

  lemma NewChildOnce<Id>(s: State<Id>, t: Id, b: Birth<Id>)
    requires t in s.recs && ForksInOrder(s, t, b)
    ensures Ptracer(NewChild(s, t, b), t) == Ptracer(s, t) && Unused(NewChild(s, t, b), b.child, b.pid)
  {
    hide Adopted, GetTracee;
    var (s1, c) := GetTracee(s, b.child, b.pid);
    GetTraceeLink(s, b.child, b.pid, t);
    ListedPid(s1, c, b.pid);
    if Adoptable(s1, c) {
      AdoptedLink(s1, c, t, b);
      FindSame(s1, NewChild(s, t, b), b.pid);
    }
  }

  lemma AdoptedLink<Id>(s: State<Id>, c: Id, t: Id, b: Birth<Id>)
    requires c in s.recs && t in s.recs && c != t
    ensures Ptracer(Adopted(s, c, t, b), t) == Ptracer(s, t)
  {
    hide Inherit, Inherits;
    var r := s.recs[t];
    var s1 := With(s, c, s.recs[c].(parent := if b.sharesParent then r.parent else Some(t), clone := b.sharesThreads));
    if Registered(s1, r.asPtracee.ptracer) { InheritLink(s1, c, r.asPtracee.ptracer.value, r.asPtracee.options, t); }
  }

  lemma GetTraceeLink<Id>(s: State<Id>, id: Id, pid: int, t: Id)
    requires Ordered(s) && Unused(s, id, pid) && t in s.recs
    ensures GetTracee(s, id, pid).0.recs[t] == s.recs[t]
    ensures FindPid(s.order, s.recs, pid).Some? ==> GetTracee(s, id, pid).0 == s
    ensures FindPid(s.order, s.recs, pid).None? ==> GetTracee(s, id, pid).0.recs[GetTracee(s, id, pid).1] == Fresh(pid)
  {}

  lemma InheritLink<Id>(s: State<Id>, c: Id, p: Id, options: set<TraceOption>, t: Id)
    requires c in s.recs && p in s.recs && t in s.recs && c != t
    ensures Ptracer(Inherit(s, c, p, options), t) == Ptracer(s, t)
  {}

  lemma ListedPid<Id>(s: State<Id>, c: Id, pid: int)
    requires Ordered(s) && c in s.order && s.recs[c].pid == pid
    ensures FindPid(s.order, s.recs, pid).Some?
  {}

  lemma FirstOrderly<Id>(s: State<Id>, t: Id, ev: Event, k: Kernel<Id>)
    requires t in s.recs && Ordered(s) && Orderly(s, t, ev, k) && Registered(s, Ptracer(s, t))
    ensures Orderly(First(s, t, ev, k), t, ev, k)
  {
    if Announces(ev) && t in k.births {
      hide NewChild, First;
      var b := k.births[t];
      NewChildOnce(s, t, b);
      var s1 := NewChild(s, t, b);
      var s2 := First(s, t, ev, k);
      FirstOfFork(s, t, ev, k);
      SlotsOnly(s1, t, EventSlot(SignalStop(0), ClearProot(s1, t).recs[t].asPtracee.proot.pending));
      FindSame(s1, s2, b.pid);
    }
  }

  lemma FirstOfFork<Id>(s: State<Id>, t: Id, ev: Event, k: Kernel<Id>)
    requires t in s.recs && Ordered(s) && Announces(ev) && t in k.births
    ensures var s1 := ClearProot(NewChild(s, t, k.births[t]), t);
            First(s, t, ev, k) == SetProot(s1, t, EventSlot(SignalStop(0), s1.recs[t].asPtracee.proot.pending))
  {
    hide NewChild, ClearProot, SetProot;
  }

  lemma SlotsOnly<Id>(s: State<Id>, t: Id, slot: EventSlot)
    requires t in s.recs
    ensures var s' := SetProot(ClearProot(s, t), t, slot); Same(s, s') && Ptracer(s', t) == Ptracer(s, t)
  {}

  lemma TellOrderly<Id>(s: State<Id>, t: Id, p: Id, shown: Event, ev: Event, k: Kernel<Id>)
    requires t in s.recs && p in s.recs && Ptracer(s, t) == Some(p) && t != p && Ordered(s) && Orderly(s, t, ev, k)
    ensures Orderly(Tell(s, t, p, shown, k).0, t, ev, k)
  {
    TellLink(s, t, p, shown, k);
    StillOrderly(s, Tell(s, t, p, shown, k).0, t, ev, k);
  }

  lemma TellLink<Id>(s: State<Id>, t: Id, p: Id, shown: Event, k: Kernel<Id>)
    requires t in s.recs && p in s.recs && Ptracer(s, t) == Some(p) && t != p
    ensures var s' := Tell(s, t, p, shown, k).0; Ptracer(s', t) == Some(p) || Ptracer(s', t).None?
  {
    hide ReadTracee, SetPtracer;
    var s1 := Notified(s, t, shown);
    var s2 := ReadTracee(s1, p, t, k).0;
    ReadTraceeLink(s1, t, p, k);
    SetPtracerLink(s2, t, p, AsTracer(s2, p).(waitPid := 0));
    RestartStays(SetPtracer(s2, p, AsTracer(s2, p).(waitPid := 0)), p, k);
  }

  lemma ReadTraceeLink<Id>(s: State<Id>, t: Id, p: Id, k: Kernel<Id>)
    requires t in s.recs && p in s.recs && Ptracer(s, t) == Some(p) && t != p
    ensures var s' := ReadTracee(s, p, t, k).0; Ptracer(s', t) == Some(p) || Ptracer(s', t).None?
  {}

  lemma SetPtracerLink<Id>(s: State<Id>, t: Id, p: Id, a: AsPtracer<Id>)
    requires t in s.recs && p in s.recs
    ensures Ptracer(SetPtracer(s, p, a), t) == Ptracer(s, t)
  {}

  lemma PassOnOrderly<Id>(s: State<Id>, t: Id, p: Id, ev: Event, shown: Event, first: bool, k: Kernel<Id>)
    requires t in s.recs && Ordered(s) && Orderly(s, t, ev, k) && Ptracer(s, t) == Some(p) && t != p && p in s.recs
    ensures Orderly(PassOn(s, t, p, ev, shown, first, k).0, t, ev, k)
  {
    hide First, Tell, Orderly;
    FirstOrderly(s, t, ev, k);
    var s1 := if first then First(s, t, ev, k) else s;
    if Ptracer(s1, t) == Some(p) && p in s1.recs { TellOrderly(s1, t, p, shown, ev, k); }
  }

  lemma SlotOrderly<Id>(s: State<Id>, t: Id, e: AsPtracee<Id>, ev: Event, k: Kernel<Id>)
    requires t in s.recs && Ordered(s) && Orderly(s, t, ev, k) && e.ptracer == Ptracer(s, t)
    ensures var s' := SetPtracee(s, t, e); Orderly(s', t, ev, k) && s'.recs[t].asPtracee == e
  {
    hide Orderly;
    StillOrderly(s, SetPtracee(s, t, e), t, ev, k);
  }

  lemma PtraceeEventOrderly<Id>(s: State<Id>, t: Id, p: Id, ev: Event, k: Kernel<Id>)
    requires t in s.recs && Ordered(s) && Orderly(s, t, ev, k) && Ptracer(s, t) == Some(p) && t != p && p in s.recs
    ensures Orderly(PtraceeEvent(s, t, p, ev, k).0, t, ev, k)
  {
    hide PassOn, Orderly, SetPtracee, Sift;
    var e0 := s.recs[t].asPtracee.(proot := EventSlot(ev, true));
    SlotOrderly(s, t, e0, ev, k);
    var s0 := SetPtracee(s, t, e0);
    var sifted := Sift(s.recs[t], ev, t in k.loading);
    if sifted.Shown? {
      var e := e0.(tracingStarted := e0.tracingStarted || sifted.starts);
      SlotOrderly(s0, t, e, ev, k);
      PassOnOrderly(SetPtracee(s0, t, e), t, p, ev, sifted.event, sifted.first, k);
    }
  }

  lemma StopKeeps<Id>(s: State<Id>, t: Id, ev: Event, k: Kernel<Id>)
    requires Sound(s) && t in s.recs && Ordered(s) && Orderly(s, t, ev, k)
    ensures Sound(Stop(s, t, ev, k))
  {
    hide SoundBut, PtraceeEvent, TraceeEvent, Orderly, Restart;
    var r := s.recs[t].(running := false);
    var s0 := With(s, t, r);
    SameLinksKeep(s, t, r, {});
    StillOrderly(s, s0, t, ev, k);
    ParentIsRegistered(s0, t);
    match Ptracer(s0, t) {
      case None =>
        TraceeEventKeeps(s0, t, ev, k);
        RestartKeeps(TraceeEvent(s0, t, ev, k), t, k, {});
      case Some(p) =>
        var s1 := PtraceeEvent(s0, t, p, ev, k).0;
        PtraceeEventKeeps(s0, t, p, ev, k);
        PtraceeEventOrderly(s0, t, p, ev, k);
        TraceeEventKeeps(s1, t, ev, k);
        RestartKeeps(TraceeEvent(s1, t, ev, k), t, k, {});
    }
  }

  // ----- What concerns one tracee only -----

  /** Nothing changed but t, and not its links. */
  predicate Stays<Id(==)>(s: State<Id>, s': State<Id>, t: Id)
    requires t in s.recs
  {
    && Same(s, s') && s'.recs[t].parent == s.recs[t].parent && Ptracer(s', t) == Ptracer(s, t)
    && forall x | x in s.recs && x != t :: s'.recs[x] == s.recs[x]
  }

  lemma StaysTwice<Id>(s: State<Id>, s1: State<Id>, s2: State<Id>, t: Id)
    requires t in s.recs && Stays(s, s1, t) && Stays(s1, s2, t)
    ensures Stays(s, s2, t)
  {}

  lemma RestartStays<Id>(s: State<Id>, t: Id, k: Kernel<Id>)
    requires t in s.recs
    ensures Stays(s, Restart(s, t, k).0, t)
  {}

  lemma WaitEnterStays<Id>(s: State<Id>, p: Id, pid: int, options: WaitOptions)
    requires p in s.recs && Ordered(s)
    ensures Stays(s, WaitEnter(s, p, pid, options), p)
  {
    hide GetPtracee;
  }

  lemma SetSysexitStays<Id>(s: State<Id>, t: Id, inSysexit: bool)
    requires t in s.recs
    ensures Stays(s, SetSysexit(s, t, inSysexit), t)
  {}

  lemma ClearProotStays<Id>(s: State<Id>, t: Id)
    requires t in s.recs
    ensures Stays(s, ClearProot(s, t), t)
  {}

  lemma EnterStageStays<Id>(s: State<Id>, t: Id, k: Kernel<Id>)
    requires t in s.recs && Ordered(s)
    ensures Stays(s, EnterStage(s, t, k), t)
  {
    hide WaitEnter, SetSysexit, Stays;
    SetSysexitStays(s, t, t in k.entered);
    match CallOf(k, t) {
      case WaitCall(pid, options) =>
        var s1 := WaitEnter(s, t, pid, options);
        WaitEnterStays(s, t, pid, options);
        SetSysexitStays(s1, t, t in k.entered);
        StaysTwice(s, s1, SetSysexit(s1, t, t in k.entered), t);
      case _ =>
    }
  }

  lemma OwnFlagsStay<Id>(s: State<Id>, t: Id)
    requires t in s.recs
    ensures Stays(s, s, t) && Stays(s, With(s, t, s.recs[t].(terminated := true)), t)
    ensures Stays(s, With(s, t, s.recs[t].(sigstopAllowed := true)), t)
  {}

  lemma QuietEventStays<Id>(s: State<Id>, t: Id, ev: Event, k: Kernel<Id>)
    requires t in s.recs && Ordered(s)
    ensures Stays(s, QuietEvent(s, t, ev, k), t)
  {
    hide EnterStage, ClearProot, Stays;
    var r := s.recs[t];
    var s1 :=
      if ev.IsDeath() then With(s, t, r.(terminated := true))
      else if ev.SyscallStop? || ev.SeccompStop? then EnterStage(s, t, k)
      else if ev == SignalStop(SIGSTOP) then With(s, t, r.(sigstopAllowed := true))
      else s;
    OwnFlagsStay(s, t);
    EnterStageStays(s, t, k);
    ClearProotStays(s1, t);
    StaysTwice(s, s1, ClearProot(s1, t), t);
  }

  // ----- Freeing -----

  lemma ReleaseOneKeeps<Id>(s: State<Id>, r: Id, gone: Id, k: Kernel<Id>, but: set<Id>)
    requires SoundBut(s, but) && r in s.recs && Ordered(s) && gone in but
    ensures SoundBut(ReleaseOne(s, r, gone, k), but)
  {
    hide SoundBut, Proceeds;
    var rec := s.recs[r];
    var s1 := if rec.parent == Some(gone) then With(s, r, rec.(parent := None)) else s;
    if rec.parent == Some(gone) { ReparentKeeps(s, r, rec.(parent := None), but); }
    if Ptracer(s, r) == Some(gone) {
      var e := s1.recs[r].asPtracee;
      var s2 := SetPtracee(s1, r, e.(ptracer := None));
      UntraceKeeps(s1, r, e.(ptracer := None), but);
      ProceedsKeeps(s2, r, e, k, but);
      ProceedsStays(s2, r, e, k);
      SetPtraceeKeeps(Proceeds(s2, r, e, k), r, Untraced(), but);
    }
  }

  lemma ProceedsKeeps<Id>(s: State<Id>, t: Id, e: AsPtracee<Id>, k: Kernel<Id>, but: set<Id>)
    requires SoundBut(s, but) && t in s.recs && Ordered(s)
    ensures SoundBut(Proceeds(s, t, e, k), but)
  {
    hide SoundBut, QuietEvent, Restart;
    QuietEventKeeps(s, t, e.proot.value, k, but);
    RestartKeeps(QuietEvent(s, t, e.proot.value, k), t, k, but);
    RestartKeeps(s, t, k, but);
  }

  lemma ProceedsStays<Id>(s: State<Id>, t: Id, e: AsPtracee<Id>, k: Kernel<Id>)
    requires t in s.recs && Ordered(s)
    ensures Stays(s, Proceeds(s, t, e, k), t)
  {
    hide QuietEvent, Restart, Stays;
    OwnFlagsStay(s, t);
    QuietEventStays(s, t, e.proot.value, k);
    RestartStays(QuietEvent(s, t, e.proot.value, k), t, k);
    RestartStays(s, t, k);
    StaysTwice(s, QuietEvent(s, t, e.proot.value, k), Restart(QuietEvent(s, t, e.proot.value, k), t, k).0, t);
  }

  lemma UntraceKeeps<Id>(s: State<Id>, t: Id, e: AsPtracee<Id>, but: set<Id>)
    requires SoundBut(s, but) && t in s.recs && Ptracer(s, t).Some? && Ptracer(s, t).value in but && e.ptracer.None?
    ensures SoundBut(SetPtracee(s, t, e), but)
  {
    LinksAreGood(s, t);
    UpdateKeeps(s, t, s.recs[t].(asPtracee := e), but);
  }

  /** Nothing of a tracee refers to the one that goes away. */
  predicate Released<Id(==)>(s: State<Id>, r: Id, gone: Id)
    requires r in s.recs
  {
    s.recs[r].parent != Some(gone) && Ptracer(s, r) != Some(gone)
  }

  /** r is released, and the others are as before. */
  lemma ReleaseOneReleases<Id>(s: State<Id>, r: Id, gone: Id, k: Kernel<Id>)
    requires r in s.recs && Ordered(s)
    ensures var s' := ReleaseOne(s, r, gone, k);
            Released(s', r, gone) && forall x | x in s.recs && x != r :: s'.recs[x] == s.recs[x]
  {
    hide Proceeds;
    var rec := s.recs[r];
    var s1 := if rec.parent == Some(gone) then With(s, r, rec.(parent := None)) else s;
    if Ptracer(s, r) == Some(gone) {
      var e := s1.recs[r].asPtracee;
      ProceedsStays(SetPtracee(s1, r, e.(ptracer := None)), r, e, k);
    }
  }

  lemma {:induction false} ReleaseKeeps<Id>(s: State<Id>, relatives: seq<Id>, gone: Id, k: Kernel<Id>, but: set<Id>)
    requires SoundBut(s, but) && Ordered(s) && gone in but && forall r <- relatives :: r in s.recs
    ensures var s' := Release(s, relatives, gone, k);
            && SoundBut(s', but) && (forall r <- relatives :: Released(s', r, gone))
            && forall x | x in s.recs && x !in relatives :: s'.recs[x] == s.recs[x]
    decreases |relatives|
  {
    hide SoundBut, ReleaseOne;
    if relatives != [] {
      var r := relatives[0];
      var s1 := ReleaseOne(s, r, gone, k);
      ReleaseOneKeeps(s, r, gone, k, but);
      ReleaseOneReleases(s, r, gone, k);
      ReleaseKeeps(s1, relatives[1..], gone, k, but);
    }
  }

  lemma ZombifyKeeps<Id>(s: State<Id>, t: Id, p: Id, but: set<Id>)
    requires SoundBut(s, but) && t in s.recs && p in s.recs && Ptracer(s, t) == Some(p)
    ensures SoundBut(Zombify(s, t, p), but)
  {
    hide SoundBut, Detach;
    DetachKeeps(s, t, but);
    var r, s1 := s.recs[t], Detach(s, t);
    var a := AsTracer(s1, p);
    SetPtracerKeeps(s1, p, a.(nbPtracees := a.nbPtracees + 1,
                              zombies := [Zombie(r.pid, r.clone, r.parent, r.asPtracee.event.value)] + a.zombies), but);
  }

  lemma ForgetKeeps<Id>(s: State<Id>, t: Id, p: Id, k: Kernel<Id>, but: set<Id>)
    requires SoundBut(s, but) && t in s.recs && p in s.recs && Ptracer(s, t) == Some(p)
    ensures SoundBut(Forget(s, t, p, k), but)
  {
    hide SoundBut, Detach, Restart;
    DetachKeeps(s, t, but);
    var s1 := Detach(s, t);
    var a := AsTracer(s1, p);
    SetPtracerKeeps(s1, p, a.(waitPid := 0), but);
    RestartKeeps(SetPtracer(s1, p, a.(waitPid := 0)), p, k, but);
  }

  /** All that a tracee on its way out leaves is an entry nobody refers to, and that traces nobody. */
  predicate Loose<Id>(s: State<Id>, t: Id)
    requires t in s.recs
  {
    Ptracer(s, t).None? && forall x | x in s.recs && x != t :: Released(s, x, t)
  }

  /** t lost its ptracer, and the others have the same links. */
  predicate Left<Id>(s: State<Id>, s': State<Id>, t: Id)
    requires t in s.recs
  {
    && Same(s, s') && Ptracer(s', t).None?
    && forall x | x in s.recs && x != t :: s'.recs[x].parent == s.recs[x].parent && Ptracer(s', x) == Ptracer(s, x)
  }

  lemma DetachLeft<Id>(s: State<Id>, t: Id)
    requires t in s.recs && Ptracer(s, t).Some? && Ptracer(s, t).value in s.recs
    ensures Left(s, Detach(s, t), t)
  {}

  lemma StaysLeft<Id>(s: State<Id>, s1: State<Id>, s2: State<Id>, t: Id, p: Id)
    requires t in s.recs && p in s.recs && Left(s, s1, t) && Stays(s1, s2, p)
    ensures Left(s, s2, t)
  {}

  lemma SetPtracerStays<Id>(s: State<Id>, p: Id, a: AsPtracer<Id>)
    requires p in s.recs
    ensures Stays(s, SetPtracer(s, p, a), p)
  {}

  lemma ZombifyLeft<Id>(s: State<Id>, t: Id, p: Id)
    requires t in s.recs && p in s.recs && Ptracer(s, t) == Some(p)
    ensures Left(s, Zombify(s, t, p), t)
  {
    hide Detach, Stays, SetPtracer, Left;
    var s1, r := Detach(s, t), s.recs[t];
    var a := AsTracer(s1, p);
    var a' := a.(nbPtracees := a.nbPtracees + 1,
                 zombies := [Zombie(r.pid, r.clone, r.parent, r.asPtracee.event.value)] + a.zombies);
    DetachLeft(s, t);
    SetPtracerStays(s1, p, a');
    StaysLeft(s, s1, SetPtracer(s1, p, a'), t, p);
  }

  lemma ForgetLeft<Id>(s: State<Id>, t: Id, p: Id, k: Kernel<Id>)
    requires t in s.recs && p in s.recs && Ptracer(s, t) == Some(p)
    ensures Left(s, Forget(s, t, p, k), t)
  {
    hide Detach, Stays, SetPtracer, Restart, Left;
    var s1 := Detach(s, t);
    var s2 := SetPtracer(s1, p, AsTracer(s1, p).(waitPid := 0));
    DetachLeft(s, t);
    SetPtracerStays(s1, p, AsTracer(s1, p).(waitPid := 0));
    RestartStays(s2, p, k);
    StaysTwice(s1, s2, Restart(s2, p, k).0, p);
    StaysLeft(s, s1, Restart(s2, p, k).0, t, p);
  }

  lemma LeaveLinks<Id>(s: State<Id>, t: Id, k: Kernel<Id>)
    requires t in s.recs && (Ptracer(s, t).Some? ==> Ptracer(s, t).value in s.recs)
    ensures Left(s, Leave(s, t, k), t)
  {
    hide Zombify, Forget, Leave;
    LeaveCases(s, t, k);
    if Ptracer(s, t).Some? {
      ZombifyLeft(s, t, Ptracer(s, t).value);
      ForgetLeft(s, t, Ptracer(s, t).value, k);
    }
  }

  lemma LeaveKeeps<Id>(s: State<Id>, t: Id, k: Kernel<Id>, but: set<Id>)
    requires SoundBut(s, but) && t in s.recs && forall x | x in s.recs && x != t :: Released(s, x, t)
    ensures SoundBut(Leave(s, t, k), but) && Loose(Leave(s, t, k), t)
  {
    hide SoundBut, Zombify, Forget, Leave;
    LinksOf(s, t, but);
    LeaveLinks(s, t, k);
    LeaveCases(s, t, k);
    if Ptracer(s, t).Some? {
      ZombifyKeeps(s, t, Ptracer(s, t).value, but);
      ForgetKeeps(s, t, Ptracer(s, t).value, k, but);
    }
  }

  lemma LeaveCases<Id>(s: State<Id>, t: Id, k: Kernel<Id>)
    requires t in s.recs && (Ptracer(s, t).Some? ==> Ptracer(s, t).value in s.recs)
    ensures Leave(s, t, k) == if Ptracer(s, t).None? then s
                              else if s.recs[t].asPtracee.event.pending && s.recs[t].asPtracee.event.value.IsDeath()
                              then Zombify(s, t, Ptracer(s, t).value) else Forget(s, t, Ptracer(s, t).value, k)
  {}

  lemma LinksOf<Id>(s: State<Id>, t: Id, but: set<Id>)
    requires SoundBut(s, but) && t in s.recs
    ensures Ptracer(s, t).Some? ==> Ptracer(s, t).value in s.recs && Ptracer(s, t).value != t
  {}

  lemma DropKeeps<Id>(s: State<Id>, t: Id)
    requires SoundBut(s, {t}) && t in s.recs && t !in s.order && Loose(s, t)
    ensures Sound(State(s.order, s.recs - {t}))
  {
    hide Ptracees;
    var s' := State(s.order, s.recs - {t});
    assert Listed(s') && Referenced(s');
    forall q | q in s'.recs ensures Counted(s', q) {
      assert Counted(s, q);
      DroppedIsUntraced(s, t, q);
    }
  }

  lemma DroppedIsUntraced<Id>(s: State<Id>, t: Id, q: Id)
    requires t in s.recs && Ptracer(s, t).None?
    ensures Ptracees(State(s.order, s.recs - {t}), q) == Ptracees(s, q)
  {}

  lemma WithoutIsDistinct<Id>(list: seq<Id>, t: Id)
    requires Distinct(list)
    ensures Distinct(Without(list, t))
  {
    if list != [] {
      assert Distinct(list[1..]);
      WithoutIsDistinct(list[1..], t);
      assert list[0] !in list[1..];
    }
  }

  lemma UnlistKeeps<Id>(s: State<Id>, t: Id)
    requires Sound(s)
    ensures SoundBut(s.(order := Without(s.order, t)), {t})
  {
    WithoutIsDistinct(s.order, t);
    var s1 := s.(order := Without(s.order, t));
    forall q | q in s.recs && q != t ensures Counted(s1, q) {
      assert Counted(s, q) && Ptracees(s1, q) == Ptracees(s, q);
    }
  }

  /** Every registered tracee is in the list. */
  predicate Enrolled<Id>(s: State<Id>) { forall t | t in s.recs :: t in s.order }

  lemma RemoveKeeps<Id>(s: State<Id>, t: Id, k: Kernel<Id>)
    requires Sound(s) && Enrolled(s) && Ordered(s) && t in s.recs
    ensures Sound(Remove(s, t, k)) && Enrolled(Remove(s, t, k))
  {
    hide SoundBut, Release, Leave;
    var order := Without(s.order, t);
    var s0 := s.(order := order);
    var s1 := Release(s0, order, t, k);
    UnlistKeeps(s, t);
    ReleaseKeeps(s0, order, t, k, {t});
    LeaveKeeps(s1, t, k, {t});
    DropKeeps(Leave(s1, t, k), t);
  }

  lemma {:induction false} FreeTerminatedKeeps<Id>(s: State<Id>, todo: seq<Id>, k: Kernel<Id>)
    requires Sound(s) && Enrolled(s) && Ordered(s)
    ensures Sound(FreeTerminated(s, todo, k)) && Enrolled(FreeTerminated(s, todo, k))
    decreases |todo|
  {
    hide SoundBut, Remove, Enrolled;
    if todo != [] {
      if todo[0] in s.recs && s.recs[todo[0]].terminated {
        RemoveKeeps(s, todo[0], k);
        FreeTerminatedKeeps(Remove(s, todo[0], k), todo[1..], k);
      } else {
        FreeTerminatedKeeps(s, todo[1..], k);
      }
    }
  }

  // ----- Turns and runs -----

  predicate FairTurn<Id>(s: State<Id>, i: Input<Id>)
    requires Ready(s, i)
  {
    var (s1, t) := Handled(s, i); Orderly(s1, t, i.event, i.kernel)
  }

  predicate FairRun<Id>(s: State<Id>, inputs: seq<Input<Id>>)
    decreases |inputs|
  {
    inputs == [] || (Ready(s, inputs[0]) && FairTurn(s, inputs[0]) && FairRun(Turn(s, inputs[0]), inputs[1..]))
  }

  function Run<Id>(s: State<Id>, inputs: seq<Input<Id>>): State<Id>
    requires FairRun(s, inputs)
    decreases |inputs|
  {
    if inputs == [] then s else Run(Turn(s, inputs[0]), inputs[1..])
  }

  lemma HandledKeeps<Id>(s: State<Id>, i: Input<Id>)
    requires Sound(s) && Enrolled(s) && Ready(s, i)
    ensures Sound(Handled(s, i).0) && Enrolled(Handled(s, i).0)
  {
    hide SoundBut, FreeTerminated;
    FreeTerminatedKeeps(s, s.order, i.kernel);
    GetTraceeKeeps(FreeTerminated(s, s.order, i.kernel), i.id, i.pid);
  }

  lemma TurnKeeps<Id>(s: State<Id>, i: Input<Id>)
    requires Sound(s) && Enrolled(s) && Ready(s, i) && FairTurn(s, i)
    ensures Sound(Turn(s, i)) && Enrolled(Turn(s, i))
  {
    hide SoundBut, Handled, Stop, Orderly;
    var (s1, t) := Handled(s, i);
    HandledKeeps(s, i);
    StopKeeps(s1, t, i.event, i.kernel);
  }

  /**
   * Over every run: each ptracer counts exactly its live ptracees and its zombies, nobody
   * traces itself, and parents and ptracers are registered.
   */
  lemma {:induction false} RunKeeps<Id>(s: State<Id>, inputs: seq<Input<Id>>)
    requires Sound(s) && Enrolled(s) && FairRun(s, inputs)
    ensures Sound(Run(s, inputs)) && Enrolled(Run(s, inputs))
    decreases |inputs|
  {
    hide SoundBut, Enrolled, Turn, FairTurn;
    if inputs != [] {
      TurnKeeps(s, inputs[0]);
      RunKeeps(Turn(s, inputs[0]), inputs[1..]);
    }
  }

  lemma StartIsSound<Id>()
    ensures Sound(Start<Id>()) && Enrolled(Start<Id>())
  {}
}
