/** Tracees as they are stored and changed: entries with fields, in a list. */
module Tracees {
  import opened Wrappers
  import S = PtraceState
  import E = PtraceEmulation
  import C = PtraceConservation
  import D = PtracePending

  class Tracee {
    var pid: int
    var running: bool
    var terminated: bool
    var parent: Option<Tracee>
    var clone: bool
    var inSysexit: bool
    var sigstopAllowed: bool
    var asPtracer: S.AsPtracer<Tracee>
    var asPtracee: S.AsPtracee<Tracee>

    /** A zeroed entry, but for its pid. */
    constructor (pid: int)
      ensures Rec() == S.Fresh(pid)
    {
      this.pid, running, terminated, parent, clone := pid, false, false, None, false;
      inSysexit, sigstopAllowed := false, false;
      asPtracer := S.AsPtracer(0, [], 0, S.WaitOptions(false, false, false), S.DoesntWait);
      asPtracee := S.Untraced();
    }

    function Rec(): S.Tracee<Tracee>
      reads this
    {
      S.Tracee(pid, running, terminated, parent, clone, inSysexit, sigstopAllowed, asPtracer, asPtracee)
    }
  }

  class Registry {
    var tracees: seq<Tracee>
    ghost var known: set<Tracee>

    constructor ()
      ensures View() == E.Start() && Valid()
    {
      tracees, known := [], {};
    }

    ghost predicate Valid()
      reads this
    {
      forall t <- tracees :: t in known
    }

    ghost function View(): S.State<Tracee>
      reads this, known
    {
      S.State(tracees, map t | t in known :: t.Rec())
    }

    /** One entry changed. */
    twostate lemma Changed(t: Tracee)
      requires t in old(known) && known == old(known) && tracees == old(tracees) && t.pid == old(t.pid)
      requires forall x <- known :: x == t || x.Rec() == old(x.Rec())
      ensures View() == S.With(old(View()), t, t.Rec())
    {}

    twostate predicate OthersSame(t: Tracee)
      reads this, known, t
    {
      && known == old(known) && tracees == old(tracees) && t.pid == old(t.pid)
      && forall x <- known :: x != t ==> x.Rec() == old(x.Rec())
    }

    /** as_ptracee changed. */
    twostate lemma ChangedPtracee(t: Tracee)
      requires t in old(known) && OthersSame(t) && t.Rec() == old(t.Rec()).(asPtracee := t.asPtracee)
      ensures View() == S.SetPtracee(old(View()), t, t.asPtracee)
    {
      Changed(t);
    }

    /** as_ptracer changed. */
    twostate lemma ChangedPtracer(p: Tracee)
      requires p in old(known) && OthersSame(p) && p.Rec() == old(p.Rec()).(asPtracer := p.asPtracer)
      ensures View() == E.SetPtracer(old(View()), p, p.asPtracer)
    {
      Changed(p);
    }

    method StorePtracer(p: Tracee, a: S.AsPtracer<Tracee>)
      requires Valid() && p in known
      modifies p`asPtracer
      ensures View() == E.SetPtracer(old(View()), p, a) && p.asPtracer == a
    {
      p.asPtracer := a;
      ChangedPtracer(p);
    }

    method StorePtracee(t: Tracee, e: S.AsPtracee<Tracee>)
      requires Valid() && t in known
      modifies t`asPtracee
      ensures View() == S.SetPtracee(old(View()), t, e) && t.asPtracee == e
    {
      t.asPtracee := e;
      ChangedPtracee(t);
    }

    method Count(p: Tracee, n: int)
      requires Valid() && p in known
      modifies p`asPtracer
      ensures View() == S.AddPtracees(old(View()), p, n)
    {
      StorePtracer(p, p.asPtracer.(nbPtracees := p.asPtracer.nbPtracees + n));
    }

    method Link(t: Tracee, p: Tracee)
      requires Valid() && t in known
      modifies t`asPtracee
      ensures View() == S.SetPtracee(old(View()), t, S.Untraced().(ptracer := Some(p)))
    {
      t.asPtracee := S.Untraced();
      t.asPtracee := t.asPtracee.(ptracer := Some(p));
      ChangedPtracee(t);
    }

    method AttachToPtracer(t: Tracee, p: Tracee)
      requires Valid() && t in known && p in known
      modifies t`asPtracee, p`asPtracer
      ensures View() == S.Attach(old(View()), t, p)
    {
      hide S.SetPtracee, S.AddPtracees;
      Link(t, p);
      Count(p, 1);
    }

    /** The assertion on the counter is the caller's to keep. */
    method DetachFromPtracer(t: Tracee)
      requires Valid() && t in known && t.asPtracee.ptracer.Some? && t.asPtracee.ptracer.value in known
      requires t.asPtracee.ptracer.value.asPtracer.nbPtracees > 0
      modifies t`asPtracee, t.asPtracee.ptracer.value`asPtracer
      ensures View() == S.Detach(old(View()), t)
    {
      hide S.SetPtracee, S.AddPtracees;
      var p := t.asPtracee.ptracer.value;
      StorePtracee(t, t.asPtracee.(ptracer := None));
      assert p.asPtracer.nbPtracees > 0;
      Count(p, -1);
    }

    method RestartTracee(t: Tracee, k: E.Kernel<Tracee>) returns (restarted: bool)
      requires Valid() && t in known
      modifies t`running
      ensures (View(), restarted) == E.Restart(old(View()), t, k)
    {
      if t.asPtracer.waitPid != 0 { return false; }
      if t in k.dead { return false; }
      StoreRunning(t, true);
      restarted := true;
    }

    /** Zombies first, then the list of tracees. */
    method GetPtracee(p: Tracee, pid: int, onlyStopped: bool, onlyPending: bool, options: S.WaitOptions)
        returns (found: E.Found<Tracee>)
      requires Valid() && p in known
      ensures found == E.GetPtracee(View(), p, pid, onlyStopped, onlyPending, options)
    {
      hide E.FirstPtracee;
      var zombies := p.asPtracer.zombies;
      var i := 0;
      while i < |zombies|
        invariant i <= |zombies|
        invariant E.FirstZombie(zombies, pid, options) == i + E.FirstZombie(zombies[i..], pid, options)
      {
        if E.WaitsFor(pid, options, zombies[i].pid, zombies[i].clone) { return E.AZombie(i); }
        assert zombies[i..][1..] == zombies[i + 1..];
        i := i + 1;
      }
      assert zombies[i..] == [];
      found := FindPtracee(p, pid, onlyStopped, onlyPending, options);
    }

    method FindPtracee(p: Tracee, pid: int, onlyStopped: bool, onlyPending: bool, options: S.WaitOptions)
        returns (found: E.Found<Tracee>)
      requires Valid() && p in known
      ensures found == E.FirstPtracee(tracees, View().recs, p, pid, onlyStopped, onlyPending, options)
    {
      var i := 0;
      while i < |tracees|
        invariant i <= |tracees|
        invariant E.FirstPtracee(tracees, View().recs, p, pid, onlyStopped, onlyPending, options)
               == E.FirstPtracee(tracees[i..], View().recs, p, pid, onlyStopped, onlyPending, options)
      {
        var t := tracees[i];
        assert tracees[i..][1..] == tracees[i + 1..];
        i := i + 1;
        if t.asPtracee.ptracer != Some(p) || !E.WaitsFor(pid, options, t.pid, t.clone) { continue; }
        if !onlyStopped { return E.ATracee(t); }
        if t.running { continue; }
        if t.asPtracee.event.pending || !onlyPending { return E.ATracee(t); }
        if pid == t.pid { return E.Nobody; }
      }
      found := E.Nobody;
    }

    method FindPid(pid: int) returns (found: Option<Tracee>)
      requires Valid()
      ensures found == E.FindPid(tracees, View().recs, pid)
    {
      var i := 0;
      while i < |tracees|
        invariant i <= |tracees|
        invariant E.FindPid(tracees, View().recs, pid) == E.FindPid(tracees[i..], View().recs, pid)
      {
        if tracees[i].pid == pid { return Some(tracees[i]); }
        assert tracees[i..][1..] == tracees[i + 1..];
        i := i + 1;
      }
      found := None;
    }

    // ----- wait(2) -----

    method TranslateWaitEnter(p: Tracee, pid: int, options: S.WaitOptions)
      requires Valid() && p in known
      modifies p`asPtracer
      ensures View() == E.WaitEnter(old(View()), p, pid, options)
    {
      hide E.GetPtracee, E.SetPtracer;
      StorePtracer(p, p.asPtracer.(waitsIn := S.WaitsInKernel));
      if p.asPtracer.nbPtracees == 0 { return; }
      if pid != -1 {
        var found := GetPtracee(p, pid, false, true, options);
        if found.Nobody? { return; }
      }
      StorePtracer(p, p.asPtracer.(waitsIn := S.WaitsInProot));
    }

    method BuryZombie(p: Tracee, i: nat)
      requires Valid() && p in known && i < |p.asPtracer.zombies|
      modifies p`asPtracer
      ensures View() == E.Bury(old(View()), p, i)
    {
      var zombies := p.asPtracer.zombies;
      p.asPtracer := p.asPtracer.(nbPtracees := p.asPtracer.nbPtracees - 1);
      p.asPtracer := p.asPtracer.(zombies := zombies[..i] + zombies[i + 1..]);
      ChangedPtracer(p);
    }

    /** update_wait_status() for a zombie. */
    method UpdateFromZombie(p: Tracee, i: nat, k: E.Kernel<Tracee>) returns (status: E.WaitStatus)
      requires Valid() && p in known && i < |p.asPtracer.zombies|
      modifies p`asPtracer
      ensures (View(), status) == E.ReadZombie(old(View()), p, i, k)
    {
      hide E.Bury;
      var z := p.asPtracer.zombies[i];
      if z.parent == Some(p) {
        BuryZombie(p, i);
        return E.Again;
      }
      if p in k.faulty { return E.Fails; }
      status := E.Reports(z.pid);
      BuryZombie(p, i);
    }

    /** update_wait_status() for a tracee. */
    method UpdateFromTracee(p: Tracee, t: Tracee, k: E.Kernel<Tracee>) returns (status: E.WaitStatus)
      requires Valid() && p in known && t in known && t.asPtracee.ptracer == Some(p) && S.Sound(View())
      modifies p`asPtracer, t`asPtracee
      ensures (View(), status) == E.ReadTracee(old(View()), p, t, k)
    {
      hide S.SoundBut, S.Detach;
      if t.parent == Some(p) && t.asPtracee.event.value.IsDeath() {
        S.TracedIsCounted(View(), t, {});
        DetachFromPtracer(t);
        return E.Again;
      }
      if p in k.faulty { return E.Fails; }
      t.asPtracee := t.asPtracee.(event := t.asPtracee.event.(pending := false));
      ChangedPtracee(t);
      status := E.Reports(t.pid);
    }

    method TranslateWaitExit(p: Tracee, pid: int, options: S.WaitOptions, k: E.Kernel<Tracee>)
        returns (result: E.WaitResult)
      requires Valid() && p in known && S.Sound(View())
      modifies p`asPtracer, known`asPtracee
      ensures (View(), result) == E.WaitExit(old(View()), p, pid, options, k)
    {
      hide E.GetPtracee, E.ReadTracee, E.ReadZombie, S.SoundBut, E.SetPtracer;
      C.SetPtracerKeeps(View(), p, p.asPtracer.(waitsIn := S.DoesntWait), {});
      StorePtracer(p, p.asPtracer.(waitsIn := S.DoesntWait));
      var found := GetPtracee(p, pid, true, true, options);
      match found {
        case AZombie(i) =>
          var status := UpdateFromZombie(p, i, k);
          result := E.Status(status);
        case ATracee(t) =>
          var status := UpdateFromTracee(p, t, k);
          result := E.Status(status);
        case Nobody =>
          if p.asPtracer.nbPtracees == 0 { return E.NoChild; }
          if options.noHang {
            var any := GetPtracee(p, pid, false, false, options);
            return if any.Nobody? then E.NoChild else E.NothingYet;
          }
          StorePtracer(p, p.asPtracer.(waitPid := pid, waitOptions := options));
          result := E.Blocks;
      }
    }

    // ----- System calls of a tracee -----

    method StoreSysexit(t: Tracee, inSysexit: bool)
      requires Valid() && t in known
      modifies t`inSysexit
      ensures View() == E.SetSysexit(old(View()), t, inSysexit)
    {
      t.inSysexit := inSysexit;
      Changed(t);
    }

    method HandleEnterStage(t: Tracee, k: E.Kernel<Tracee>)
      requires Valid() && t in known
      modifies t
      ensures View() == E.EnterStage(old(View()), t, k)
    {
      hide E.WaitEnter, E.SetSysexit;
      if t !in k.untranslated {
        match E.CallOf(k, t) {
          case WaitCall(pid, options) => TranslateWaitEnter(t, pid, options);
          case _ =>
        }
      }
      StoreSysexit(t, t in k.entered);
    }

    method ClearProot(t: Tracee)
      requires Valid() && t in known
      modifies t`asPtracee
      ensures View() == E.ClearProot(old(View()), t)
    {
      StorePtracee(t, t.asPtracee.(proot := t.asPtracee.proot.(pending := false)));
    }

    method HandleQuietEvent(t: Tracee, ev: S.Event, k: E.Kernel<Tracee>)
      requires Valid() && t in known
      modifies t
      ensures View() == E.QuietEvent(old(View()), t, ev, k)
    {
      hide E.EnterStage, E.ClearProot;
      if ev.IsDeath() {
        t.terminated := true;
        Changed(t);
      } else if ev.SyscallStop? || ev.SeccompStop? {
        HandleEnterStage(t, k);
      } else if ev == S.SignalStop(E.SIGSTOP) {
        t.sigstopAllowed := true;
        Changed(t);
      }
      ClearProot(t);
    }

    /**
     * handle_tracee_event() for an event that had to wait: such an event is neither one of an
     * exit stage nor a fork event, so that the rest of it is not reached.
     */
    method HandlePendingEvent(t: Tracee, k: E.Kernel<Tracee>)
      requires Valid() && t in known && D.Deferred(t.Rec()) && t.asPtracee.proot.pending
      modifies t
      ensures View() == E.TraceeEvent(old(View()), t, old(t.asPtracee.proot.value), k)
    {
      hide E.QuietEvent, E.TraceeEvent;
      D.PendingIsQuiet(View(), t, k);
      HandleQuietEvent(t, t.asPtracee.proot.value, k);
    }

    // ----- ptrace(2) -----

    /** Without a parent, the tracer faults. */
    method TraceMe(t: Tracee, k: E.Kernel<Tracee>) returns (answer: E.PtraceAnswer)
      requires Valid() && t in known && S.Sound(View())
      modifies known
      ensures View() == E.DoTraceMe(old(View()), t, k)
      ensures answer == E.PtraceAnswerTo(old(View()), t, E.TraceMe)
    {
      hide S.Attach, S.SoundBut, E.Woken;
      C.ParentIsRegistered(View(), t);
      if t.asPtracee.ptracer.Some? || t.parent == Some(t) { return E.NotPermitted; }
      answer := E.Done;
      if t.parent.None? { return; }
      var p := t.parent.value;
      AttachToPtracer(t, p);
      if p.asPtracer.waitsIn == S.WaitsInKernel && p !in k.dead { WakeSleeper(p); }
    }

    method WakeSleeper(p: Tracee)
      requires Valid() && p in known
      modifies p
      ensures View() == E.Woken(old(View()), p)
    {
      p.sigstopAllowed := false;
      p.asPtracer := p.asPtracer.(waitsIn := S.WaitsInProot);
      Changed(p);
    }

    method AttachTo(p: Tracee, pid: int) returns (answer: E.PtraceAnswer)
      requires Valid() && p in known
      modifies known
      ensures View() == E.DoAttach(old(View()), p, pid)
      ensures answer == E.PtraceAnswerTo(old(View()), p, E.AttachTo(pid))
    {
      hide S.Attach, E.FindPid;
      var t := Some(p);
      if p.pid != pid { t := FindPid(pid); }
      if t.None? { return E.NoSuchProcess; }
      if t.value.asPtracee.ptracer.Some? || t.value == p { return E.NotPermitted; }
      AttachToPtracer(t.value, p);
      answer := E.Done;
    }

    method FindSubject(p: Tracee, pid: int) returns (t: Option<Tracee>)
      requires Valid() && p in known
      ensures t == E.Subject(View(), p, pid)
    {
      hide E.GetPtracee;
      var found := GetPtracee(p, pid, true, false, S.WaitOptions(false, true, false));
      t := if found.ATracee? && pid != -1 then Some(found.t) else None;
    }

    /** The end of translate_ptrace_exit(). */
    method Proceed(t: Tracee, k: E.Kernel<Tracee>)
      requires Valid() && t in known && D.Deferred(t.Rec())
      modifies t
      ensures View() == E.Proceed(old(View()), t, k)
    {
      hide E.TraceeEvent, E.QuietEvent, E.Restart;
      D.ProceedIsFull(View(), t, k);
      if t.asPtracee.proot.pending { HandlePendingEvent(t, k); }
      var _ := RestartTracee(t, k);
    }

    method CarryOut(p: Tracee, t: Tracee, request: E.Request, k: E.Kernel<Tracee>) returns (answer: E.PtraceAnswer)
      requires Valid() && p in known && t in known && t.asPtracee.ptracer == Some(p) && S.Sound(View()) && D.Deferred(t.Rec())
      modifies known
      ensures View() == E.DoRequest(old(View()), p, t, request, k)
      ensures answer == E.CarriedOut(request)
    {
      hide E.Proceed, S.Detach, S.SoundBut;
      answer := E.Done;
      match request {
        case Resume(_, ignore) =>
          StorePtracee(t, t.asPtracee.(ignoreSyscalls := if ignore.Some? then ignore.value else t.asPtracee.ignoreSyscalls));
          Proceed(t, k);
        case LetGo(_) =>
          S.TracedIsCounted(View(), t, {});
          D.DetachedIsDeferred(View(), t);
          DetachFromPtracer(t);
          assert t.Rec() == View().recs[t];
          Proceed(t, k);
        case SetOptions(_, options, seccomp) =>
          if seccomp { return E.Invalid; }
          StorePtracee(t, t.asPtracee.(options := options));
        case Inspect(_) => answer := E.AsTheKernel;
        case _ =>
      }
    }

    method TranslatePtraceExit(p: Tracee, request: E.Request, k: E.Kernel<Tracee>) returns (answer: E.PtraceAnswer)
      requires Valid() && p in known && S.Sound(View()) && D.AllDeferred(View(), {p})
      modifies known
      ensures View() == E.PtraceExit(old(View()), p, request, k)
      ensures answer == E.PtraceAnswerTo(old(View()), p, request)
    {
      hide E.DoTraceMe, E.DoAttach, E.Subject, E.DoRequest, S.SoundBut, D.AllDeferred;
      match request {
        case TraceMe => answer := TraceMe(p, k);
        case AttachTo(pid) => answer := AttachTo(p, pid);
        case _ =>
          var t := FindSubject(p, request.pid);
          if t.None? { return E.NoSuchProcess; }
          C.LinksOf(View(), t.value, {});
          D.DeferredAt(View(), t.value, {p});
          answer := CarryOut(p, t.value, request, k);
      }
    }

    method HandleExitStage(t: Tracee, k: E.Kernel<Tracee>)
      requires Valid() && t in known && S.Sound(View()) && D.AllDeferred(View(), {t})
      modifies known
      ensures View() == E.ExitStage(old(View()), t, k)
    {
      hide E.WaitExit, E.PtraceExit, S.SoundBut, D.AllDeferred;
      match E.CallOf(k, t) {
        case WaitCall(pid, options) =>
          if t.asPtracer.waitsIn != S.WaitsInProot { return; }
          var _ := TranslateWaitExit(t, pid, options, k);
        case PtraceCall(request) => var _ := TranslatePtraceExit(t, request, k);
        case OtherCall =>
      }
    }

    // ----- Children -----

    /** A zeroed entry that is not registered yet: what calloc(3) returns. */
    ghost predicate Spare(entry: Tracee)
      reads this, entry
    {
      entry !in known ==> entry.Rec() == S.Fresh(0)
    }

    /** new_tracee() */
    method NewTracee(entry: Tracee, pid: int)
      requires Valid() && entry !in known && Spare(entry)
      modifies this, entry`pid
      ensures Valid() && known == old(known) + {entry} && View() == E.NewTracee(old(View()), entry, pid)
    {
      entry.pid := pid;
      tracees := [entry] + tracees;
      known := known + {entry};
    }

    method GetTracee(entry: Tracee, pid: int) returns (t: Tracee)
      requires Valid() && Spare(entry) && E.Unused(View(), entry, pid)
      modifies this, entry`pid
      ensures Valid() && t in known && old(known) <= known <= old(known) + {entry} && Spare(entry)
      ensures (View(), t) == E.GetTracee(old(View()), entry, pid)
    {
      hide E.FindPid;
      var found := FindPid(pid);
      if found.Some? {
        t := found.value;
      } else {
        NewTracee(entry, pid);
        t := entry;
      }
    }

    method Inherit(c: Tracee, p: Tracee, options: set<S.TraceOption>)
      requires Valid() && c in known && p in known
      modifies known
      ensures View() == E.Inherit(old(View()), c, p, options)
    {
      hide S.Attach;
      AttachToPtracer(c, p);
      StorePtracee(c, c.asPtracee.(options := options));
    }

    method Adopt(c: Tracee, parent: Option<Tracee>, clone: bool)
      requires Valid() && c in known
      modifies c
      ensures View() == S.With(old(View()), c, old(View()).recs[c].(parent := parent, clone := clone))
    {
      c.parent := parent;
      c.clone := clone;
      Changed(c);
    }

    method Raise(c: Tracee, t: Tracee, b: E.Birth<Tracee>)
      requires Valid() && t in known && c in known && S.Sound(View())
      modifies known
      ensures View() == E.Adopted(old(View()), c, t, b)
    {
      hide E.Inherit, S.SoundBut;
      C.ParentIsRegistered(View(), t);
      var options, inherits, ptracer := t.asPtracee.options, E.Inherits(t.Rec(), b), t.asPtracee.ptracer;
      Adopt(c, if b.sharesParent then t.parent else Some(t), b.sharesThreads);
      if inherits { Inherit(c, ptracer.value, options); }
    }

    /** new_child() */
    method NewChild(t: Tracee, b: E.Birth<Tracee>)
      requires Valid() && t in known && S.Sound(View()) && Spare(b.child) && E.Unused(View(), b.child, b.pid)
      modifies this, known, b.child
      ensures Valid() && old(known) <= known <= old(known) + {b.child} && Spare(b.child)
      ensures View() == E.NewChild(old(View()), t, b)
    {
      hide E.GetTracee, E.Unused, E.Adopted, S.SoundBut, E.FindPid;
      ghost var before := View();
      var c := GetTracee(b.child, b.pid);
      C.GetTraceeKeeps(before, b.child, b.pid);
      AdoptableIsNew(before, b.child, b.pid);
      // The assertion: the child is not known to anyone yet.
      if c.parent.Some? || c.asPtracee.ptracer.Some? { return; }
      Raise(c, t, b);
    }

    // ----- Events -----

    /** The entries a kernel has ready for children. */
    ghost predicate Ready(t: Tracee, ev: S.Event, k: E.Kernel<Tracee>)
      reads this, if t in k.births then {k.births[t].child} else {}
    {
      E.Announces(ev) && t in k.births ==> Spare(k.births[t].child)
    }

    ghost function Entry(t: Tracee, k: E.Kernel<Tracee>): set<Tracee> {
      if t in k.births then {k.births[t].child} else {}
    }

    method HandleTraceeEvent(t: Tracee, ev: S.Event, k: E.Kernel<Tracee>)
      requires Valid() && t in known && S.Sound(View()) && C.Orderly(View(), t, ev, k) && Ready(t, ev, k)
      requires D.AllDeferred(View(), {t})
      modifies this, known, Entry(t, k)
      ensures Valid() && old(known) <= known <= old(known) + Entry(t, k) && Ready(t, ev, k)
      ensures View() == E.TraceeEvent(old(View()), t, ev, k)
    {
      hide E.ExitStage, E.NewChild, E.QuietEvent, E.ClearProot, E.SetSysexit, S.SoundBut, E.Unused, D.AllDeferred;
      if (ev.SyscallStop? || ev.SeccompStop?) && t.inSysexit && t !in k.untranslated {
        HandleExitStage(t, k);
        StoreSysexit(t, false);
        ClearProot(t);
      } else if E.Announces(ev) && t in k.births {
        NewChild(t, k.births[t]);
        ClearProot(t);
      } else {
        HandleQuietEvent(t, ev, k);
      }
    }

    /** The ptracer of t is blocked in a wait for it. */
    method IsAwaited(t: Tracee, p: Tracee) returns (awaited: bool)
      requires t in known && p in known
      ensures awaited == E.Awaited(View(), t, p)
    {
      awaited := (p.asPtracer.waitPid == -1 || p.asPtracer.waitPid == t.pid)
                 && E.ExpectedClone(p.asPtracer.waitOptions, t.clone);
    }

    method Wake(t: Tracee, p: Tracee, k: E.Kernel<Tracee>) returns (restarted: bool)
      requires Valid() && t in known && p in known && t.asPtracee.ptracer == Some(p) && S.Sound(View())
      modifies known
      ensures (View(), restarted) == E.Wake(old(View()), t, p, k)
    {
      hide E.ReadTracee, E.SetPtracer, E.Restart, S.SoundBut;
      var _ := UpdateFromTracee(p, t, k);
      StorePtracer(p, p.asPtracer.(waitPid := 0));
      restarted := RestartTracee(p, k);
    }

    method Tell(t: Tracee, p: Tracee, ev: S.Event, k: E.Kernel<Tracee>) returns (keepStopped: bool)
      requires Valid() && t in known && p in known && t.asPtracee.ptracer == Some(p) && S.Sound(View())
      modifies known
      ensures (View(), keepStopped) == E.Tell(old(View()), t, p, ev, k)
    {
      hide S.SoundBut, S.SetPtracee, E.Wake, E.Awaited, S.Same, E.Grown, E.Ordered;
      C.SetPtraceeKeeps(View(), t, t.asPtracee.(event := S.EventSlot(ev, true)), {});
      StorePtracee(t, t.asPtracee.(event := S.EventSlot(ev, true)));
      keepStopped := !ev.IsDeath();
      var awaited := IsAwaited(t, p);
      if awaited {
        var restarted := Wake(t, p, k);
        if !restarted { keepStopped := false; }
      }
    }

    /** What event handling needs and keeps. */
    ghost predicate Good(t: Tracee, ev: S.Event, k: E.Kernel<Tracee>)
      reads this, known, Entry(t, k)
    {
      && Valid() && t in known && S.Sound(View()) && C.Orderly(View(), t, ev, k) && Ready(t, ev, k)
      && D.AllDeferred(View(), {t})
    }

    method HandleFirst(t: Tracee, p: Tracee, ev: S.Event, k: E.Kernel<Tracee>)
      requires Valid() && t in known && p in known && t.asPtracee.ptracer == Some(p) && Good(t, ev, k)
      modifies this, known, Entry(t, k)
      ensures Valid() && old(known) <= known <= old(known) + Entry(t, k) && Good(t, ev, k)
      ensures View() == E.First(old(View()), t, ev, k)
    {
      hide E.TraceeEvent, S.SetPtracee, S.SoundBut, C.Orderly, D.AllDeferred;
      C.FirstKeeps(View(), t, ev, k);
      C.FirstOrderly(View(), t, ev, k);
      C.LinksOf(View(), t, {});
      D.FirstIsDeferred(View(), t, ev, k);
      HandleTraceeEvent(t, ev, k);
      StorePtracee(t, t.asPtracee.(proot := S.EventSlot(S.SignalStop(0), t.asPtracee.proot.pending)));
    }

    method TellPtracer(t: Tracee, p: Tracee, shown: S.Event, ghost ev: S.Event, k: E.Kernel<Tracee>)
        returns (keepStopped: bool)
      requires Valid() && t in known && p in known && t.asPtracee.ptracer == Some(p) && t != p && Good(t, ev, k)
      modifies known
      ensures (View(), keepStopped) == E.Tell(old(View()), t, p, shown, k) && Good(t, ev, k)
    {
      hide E.Tell, S.SoundBut, C.Orderly, D.AllDeferred;
      C.TellKeeps(View(), t, p, shown, k);
      D.TellIsDeferred(View(), t, p, shown, k);
      C.TellOrderly(View(), t, p, shown, ev, k);
      keepStopped := Tell(t, p, shown, k);
    }

    method PassOn(t: Tracee, p: Tracee, ev: S.Event, shown: S.Event, first: bool, k: E.Kernel<Tracee>)
        returns (keepStopped: bool)
      requires Valid() && t in known && p in known && t.asPtracee.ptracer == Some(p) && t != p && Good(t, ev, k)
      modifies this, known, Entry(t, k)
      ensures Valid() && old(known) <= known <= old(known) + Entry(t, k) && Good(t, ev, k)
      ensures (View(), keepStopped) == E.PassOn(old(View()), t, p, ev, shown, first, k)
    {
      hide E.First, E.Tell, S.Same, E.Grown, E.Ordered, Registry.Good, S.SoundBut, C.Orderly, Registry.Ready, Registry.Entry;
      if first { HandleFirst(t, p, ev, k); }
      if t.asPtracee.ptracer == Some(p) {
        keepStopped := TellPtracer(t, p, shown, ev, k);
      } else {
        keepStopped := false;
      }
    }

    method StoreSlot(t: Tracee, e: S.AsPtracee<Tracee>, ghost ev: S.Event, ghost k: E.Kernel<Tracee>)
      requires Valid() && t in known && Good(t, ev, k) && e.ptracer == t.asPtracee.ptracer
      modifies t`asPtracee
      ensures View() == S.SetPtracee(old(View()), t, e) && t.asPtracee == e && Good(t, ev, k)
    {
      hide S.SoundBut, C.Orderly, D.AllDeferred;
      C.SlotKeeps(View(), t, e, ev, k);
      D.SlotIsDeferred(View(), t, e);
      StorePtracee(t, e);
    }

    method HandlePtraceeEvent(t: Tracee, p: Tracee, ev: S.Event, k: E.Kernel<Tracee>) returns (keepStopped: bool)
      requires Valid() && t in known && p in known && t.asPtracee.ptracer == Some(p) && t != p && Good(t, ev, k)
      modifies this, known, Entry(t, k)
      ensures Valid() && old(known) <= known <= old(known) + Entry(t, k) && Good(t, ev, k)
      ensures (View(), keepStopped) == E.PtraceeEvent(old(View()), t, p, ev, k)
    {
      hide E.PassOn, E.Sift, S.SetPtracee, Registry.Good;
      var sifted := E.Sift(t.Rec(), ev, t in k.loading);
      StoreSlot(t, t.asPtracee.(proot := S.EventSlot(ev, true)), ev, k);
      if sifted.Ignored? { return false; }
      StoreSlot(t, t.asPtracee.(tracingStarted := t.asPtracee.tracingStarted || sifted.starts), ev, k);
      if !t.asPtracee.tracingStarted { return false; }
      keepStopped := PassOn(t, p, ev, sifted.event, sifted.first, k);
    }

    method StoreRunning(t: Tracee, running: bool)
      requires Valid() && t in known
      modifies t`running
      ensures View() == S.With(old(View()), t, old(View()).recs[t].(running := running))
    {
      t.running := running;
      Changed(t);
    }

    method StoreStopped(t: Tracee, ghost ev: S.Event, ghost k: E.Kernel<Tracee>)
      requires Valid() && t in known && Good(t, ev, k)
      modifies t`running
      ensures View() == S.With(old(View()), t, old(View()).recs[t].(running := false)) && Good(t, ev, k)
      ensures t.asPtracee.ptracer.Some? ==> t.asPtracee.ptracer.value in known && t.asPtracee.ptracer.value != t
    {
      hide S.SoundBut, C.Orderly, D.AllDeferred;
      var r := t.Rec().(running := false);
      D.StoppedIsDeferred(View(), t);
      C.SameLinksKeep(View(), t, r, {});
      C.StillOrderly(View(), S.With(View(), t, r), t, ev, k);
      StoreRunning(t, false);
      C.ParentIsRegistered(View(), t);
    }

    method Finish(t: Tracee, ev: S.Event, k: E.Kernel<Tracee>)
      requires Valid() && t in known && Good(t, ev, k)
      modifies this, known, Entry(t, k)
      ensures Valid() && View() == E.Restart(E.TraceeEvent(old(View()), t, ev, k), t, k).0
    {
      hide E.TraceeEvent, E.Restart, S.SoundBut, C.Orderly, D.AllDeferred;
      HandleTraceeEvent(t, ev, k);
      var _ := RestartTracee(t, k);
    }

    /** The body of the event loop, once the tracee is known. */
    method HandleStop(t: Tracee, ev: S.Event, k: E.Kernel<Tracee>)
      requires Valid() && t in known && Good(t, ev, k)
      modifies this, known, Entry(t, k)
      ensures Valid() && View() == E.Stop(old(View()), t, ev, k)
    {
      hide E.PtraceeEvent, E.TraceeEvent, E.Restart, S.Same, E.Grown, E.Ordered, Registry.Good;
      StoreStopped(t, ev, k);
      if t.asPtracee.ptracer.Some? {
        var keepStopped := HandlePtraceeEvent(t, t.asPtracee.ptracer.value, ev, k);
        if keepStopped { return; }
      }
      Finish(t, ev, k);
    }

    // ----- Freeing -----

    method HandlePending(t: Tracee, e: S.AsPtracee<Tracee>, k: E.Kernel<Tracee>)
      requires Valid() && t in known && D.Deferred(t.Rec()) && e.proot == t.asPtracee.proot
      modifies t
      ensures View() == E.Proceeds(old(View()), t, e, k)
    {
      hide E.TraceeEvent, E.QuietEvent, E.Restart;
      if e.proot.pending {
        D.ProceedsIsFull(View(), t, e, k);
        HandlePendingEvent(t, k);
        var _ := RestartTracee(t, k);
      } else if e.event.pending {
        var _ := RestartTracee(t, k);
      }
    }

    /** One relative of a tracee that goes away. */
    method ReleaseRelative(r: Tracee, gone: Tracee, k: E.Kernel<Tracee>)
      requires Valid() && r in known && D.Deferred(r.Rec())
      modifies r
      ensures View() == E.ReleaseOne(old(View()), r, gone, k)
    {
      hide E.Proceeds, S.SetPtracee;
      if r.parent == Some(gone) {
        r.parent := None;
        Changed(r);
      }
      if r.asPtracee.ptracer == Some(gone) {
        var e := r.asPtracee;
        StorePtracee(r, r.asPtracee.(ptracer := None));
        HandlePending(r, e, k);
        StorePtracee(r, S.Untraced());
      }
    }

    method ReleaseRelatives(gone: Tracee, k: E.Kernel<Tracee>)
      requires Valid() && D.AllDeferred(View(), {})
      modifies known
      ensures View() == E.Release(old(View()), tracees, gone, k)
    {
      hide E.ReleaseOne, D.AllDeferred;
      ghost var before := View();
      var i := 0;
      while i < |tracees|
        invariant i <= |tracees|
        invariant E.Ordered(View()) && View().recs.Keys == known && D.AllDeferred(View(), {})
        invariant E.Release(before, tracees, gone, k) == E.Release(View(), tracees[i..], gone, k)
      {
        assert tracees[i..][0] == tracees[i] && tracees[i..][1..] == tracees[i + 1..];
        D.ReleaseOneIsDeferred(View(), tracees[i], gone, k);
        ReleaseRelative(tracees[i], gone, k);
        i := i + 1;
      }
    }

    method Zombify(t: Tracee, p: Tracee)
      requires Valid() && t in known && p in known && t.asPtracee.ptracer == Some(p) && t != p
      requires p.asPtracer.nbPtracees > 0
      modifies known
      ensures View() == E.Zombify(old(View()), t, p)
    {
      hide S.Detach, E.SetPtracer, E.Ordered, E.Grown, S.With, E.AsTracer, S.Same;
      var zombie := S.Zombie(t.pid, t.clone, t.parent, t.asPtracee.event.value);
      DetachFromPtracer(t);
      AddZombie(p, zombie);
    }

    method AddZombie(p: Tracee, zombie: S.Zombie<Tracee>)
      requires Valid() && p in known
      modifies p`asPtracer
      ensures var a := E.AsTracer(old(View()), p);
              View() == E.SetPtracer(old(View()), p, a.(nbPtracees := a.nbPtracees + 1, zombies := [zombie] + a.zombies))
    {
      StorePtracer(p, p.asPtracer.(nbPtracees := p.asPtracer.nbPtracees + 1, zombies := [zombie] + p.asPtracer.zombies));
    }

    method Forget(t: Tracee, p: Tracee, k: E.Kernel<Tracee>)
      requires Valid() && t in known && p in known && t.asPtracee.ptracer == Some(p) && t != p
      requires p.asPtracer.nbPtracees > 0
      modifies known
      ensures View() == E.Forget(old(View()), t, p, k)
    {
      hide S.Detach, E.SetPtracer, E.Restart;
      DetachFromPtracer(t);
      if p.asPtracer.nbPtracees == 0 && p.asPtracer.waitPid != 0 {
        StorePtracer(p, p.asPtracer.(waitPid := 0));
        var _ := RestartTracee(p, k);
      }
    }

    method LeavePtracer(t: Tracee, k: E.Kernel<Tracee>)
      requires Valid() && t in known && S.SoundBut(View(), {t})
      modifies known
      ensures View() == E.Leave(old(View()), t, k)
    {
      hide E.Zombify, E.Forget, S.SoundBut;
      C.LinksOf(View(), t, {t});
      if t.asPtracee.ptracer.None? { return; }
      var p := t.asPtracee.ptracer.value;
      S.TracedIsCounted(View(), t, {t});
      if t.asPtracee.event.pending && t.asPtracee.event.value.IsDeath() {
        Zombify(t, p);
      } else {
        Forget(t, p, k);
      }
    }

    method RemoveTracee(t: Tracee, k: E.Kernel<Tracee>)
      requires Valid() && t in known && S.Sound(View()) && C.Enrolled(View()) && D.AllDeferred(View(), {})
      modifies this, known
      ensures Valid() && known == old(known) - {t} && View() == E.Remove(old(View()), t, k)
    {
      hide E.Release, E.Leave, S.SoundBut;
      ghost var before := View();
      tracees := E.Without(tracees, t);
      assert View() == before.(order := E.Without(before.order, t));
      C.UnlistKeeps(before, t);
      C.ReleaseKeeps(View(), tracees, t, k, {t});
      ReleaseRelatives(t, k);
      LeavePtracer(t, k);
      Free(t);
    }

    method Free(t: Tracee)
      requires Valid() && t in known && t !in tracees
      modifies this`known
      ensures Valid() && known == old(known) - {t} && View() == S.State(old(View()).order, old(View()).recs - {t})
    {
      known := known - {t};
    }

    method FreeTerminatedTracees(k: E.Kernel<Tracee>)
      requires Valid() && S.Sound(View()) && C.Enrolled(View()) && D.AllDeferred(View(), {})
      modifies this, known
      ensures Valid() && View() == E.FreeTerminated(old(View()), old(tracees), k)
      ensures known <= old(known)
    {
      hide E.Remove, S.SoundBut, C.Enrolled, D.AllDeferred;
      ghost var before := View();
      ListIsDistinct(before);
      var todo, i := tracees, 0;
      while i < |todo|
        invariant i <= |todo| && Valid() && known <= old(known) && S.Sound(View()) && C.Enrolled(View())
        invariant D.AllDeferred(View(), {})
        invariant forall j :: i <= j < |todo| ==> todo[j] in known
        invariant E.FreeTerminated(before, todo, k) == E.FreeTerminated(View(), todo[i..], k)
      {
        assert todo[i..][0] == todo[i] && todo[i..][1..] == todo[i + 1..];
        FreeIfTerminated(todo[i], k);
        i := i + 1;
      }
    }

    method FreeIfTerminated(t: Tracee, k: E.Kernel<Tracee>)
      requires Valid() && S.Sound(View()) && C.Enrolled(View()) && D.AllDeferred(View(), {}) && t in known
      modifies this, known
      ensures Valid() && S.Sound(View()) && C.Enrolled(View()) && D.AllDeferred(View(), {})
      ensures old(known) - {t} <= known <= old(known)
      ensures View() == if old(t.terminated) then E.Remove(old(View()), t, k) else old(View())
    {
      hide E.Remove, S.SoundBut, C.Enrolled, D.AllDeferred;
      if t.terminated {
        C.RemoveKeeps(View(), t, k);
        D.RemoveIsDeferred(View(), t, k);
        RemoveTracee(t, k);
      }
    }

    /** One turn of the event loop; entry is what calloc(3) returns for a process not yet known. */
    method Turn(entry: Tracee, pid: int, ev: S.Event, k: E.Kernel<Tracee>)
      requires Valid() && S.Sound(View()) && C.Enrolled(View()) && D.AllDeferred(View(), {})
      requires entry !in known && entry.Rec() == S.Fresh(0)
      requires C.FairTurn(View(), E.Input(entry, pid, ev, k))
      requires forall t | t in k.births :: k.births[t].child !in known && k.births[t].child != entry
                                           && k.births[t].child.Rec() == S.Fresh(0)
      modifies this, known, entry, set t | t in k.births :: k.births[t].child
      ensures Valid() && View() == E.Turn(old(View()), E.Input(entry, pid, ev, k))
      ensures S.Sound(View()) && C.Enrolled(View()) && D.AllDeferred(View(), {})
    {
      hide E.FreeTerminated, E.Stop, S.SoundBut, C.Enrolled, C.Orderly, D.AllDeferred;
      C.TurnKeeps(View(), E.Input(entry, pid, ev, k));
      D.TurnDefers(View(), E.Input(entry, pid, ev, k));
      D.HandledIsDeferred(View(), E.Input(entry, pid, ev, k));
      C.FreeTerminatedKeeps(View(), tracees, k);
      FreeTerminatedTracees(k);
      C.GetTraceeKeeps(View(), entry, pid);
      var t := GetTracee(entry, pid);
      HandleStop(t, ev, k);
    }
  }

  lemma ListIsDistinct(s: S.State<Tracee>)
    requires S.Sound(s)
    ensures S.Distinct(s.order)
  {}

  /** What fails the assertion was registered before. */
  lemma AdoptableIsNew(s: S.State<Tracee>, id: Tracee, pid: int)
    requires E.Ordered(s) && E.Unused(s, id, pid)
    ensures var (s1, c) := E.GetTracee(s, id, pid); E.Adoptable(s1, c) || s1 == s
  {}
}
