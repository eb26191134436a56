/**
 * What the requests of ptrace(2) do and answer, in terms of the registry: who traces whom, and
 * who is stopped.
 */
module PtraceRequests {
  import opened Wrappers
  import opened PtraceState
  import opened PtraceEmulation
  import opened PtraceConservation
  import opened PtracePending
  import opened PtraceWakeups
  import opened PtraceAnswers
  import opened PtraceChildren

  /** t becomes a ptracee of p, with nothing asked for and nothing read. */
  predicate Attached<Id(==)>(s: State<Id>, s': State<Id>, t: Id, p: Id)
    requires t in s.recs && p in s.recs && t != p
  {
    && s'.order == s.order && s'.recs.Keys == s.recs.Keys
    && s'.recs[t] == s.recs[t].(asPtracee := AsPtracee(Some(p), NO_EVENT, NO_EVENT, false, false, {}))
    && s'.recs[p] == OneMore(s.recs[p])
    && forall x | x in s.recs && x != t && x != p :: s'.recs[x] == s.recs[x]
  }

  // ----- ATTACH -----

  lemma TheOneWithThatPid<Id>(s: State<Id>, t: Id)
    requires Settled(s) && t in s.recs
    ensures FindPid(s.order, s.recs, s.recs[t].pid) == Some(t)
  {
    assert t in s.order;
  }

  /** Whom nobody traces, but oneself, can be attached; without such a process, or without permission, nothing happens. */
  lemma AttachDoes<Id>(s: State<Id>, p: Id, pid: int, k: Kernel<Id>)
    requires Settled(s) && p in s.recs
    ensures var (s', answer) := (PtraceExit(s, p, AttachTo(pid), k), PtraceAnswerTo(s, p, AttachTo(pid)));
            && (answer == NoSuchProcess <==> forall t | t in s.recs :: s.recs[t].pid != pid)
            && (answer == NotPermitted <==> exists t :: t in s.recs && s.recs[t].pid == pid && (Ptracer(s, t).Some? || t == p))
            && (answer == Done <==> exists t :: t in s.recs && s.recs[t].pid == pid && Ptracer(s, t).None? && t != p)
            && (answer != Done ==> s' == s)
            && forall t | t in s.recs && s.recs[t].pid == pid && answer == Done :: t != p && Attached(s, s', t, p)
  {
    hide SoundBut, FindPid, Attach;
    if t :| t in s.recs && s.recs[t].pid == pid {
      TheOneWithThatPid(s, t);
      TheOneWithThatPid(s, p);
      if t != p { AttachOthersIs(s, t, p); }
      assert forall u | u in s.recs && s.recs[u].pid == pid :: u == t;
    }
  }

  // ----- TRACEME -----

  /**
   * A tracee without a ptracer, whose parent is another one, becomes a ptracee of its parent. A
   * parent that waits in the kernel is stopped, so that its wait is made again.
   */
  lemma TraceMeDoes<Id>(s: State<Id>, t: Id, k: Kernel<Id>)
    requires Settled(s) && t in s.recs
    ensures var (s', answer) := (PtraceExit(s, t, TraceMe, k), PtraceAnswerTo(s, t, TraceMe));
            && (answer == NotPermitted <==> Ptracer(s, t).Some? || s.recs[t].parent == Some(t))
            && (answer == Done <==> Ptracer(s, t).None? && s.recs[t].parent != Some(t))
            && (answer == NotPermitted ==> s' == s)
            && (answer == Done && s.recs[t].parent.Some? ==>
                  var p := s.recs[t].parent.value;
                  var s1 := DoAttach(s, p, s.recs[t].pid);
                  && p in s.recs && Attached(s, s1, t, p)
                  && if s.recs[p].asPtracer.waitsIn == WaitsInKernel && p !in k.dead then
                       && s'.order == s1.order && s'.recs.Keys == s1.recs.Keys
                       && s'.recs[p] == s1.recs[p].(
                            sigstopAllowed := false, asPtracer := s1.recs[p].asPtracer.(waitsIn := WaitsInProot))
                       && forall x | x in s1.recs && x != p :: s'.recs[x] == s1.recs[x]
                     else s' == s1)
  {
    ParentIsRegistered(s, t);
    TheOneWithThatPid(s, t);
    hide SoundBut, FindPid, Attach;
    if s.recs[t].parent.Some? && s.recs[t].parent != Some(t) && Ptracer(s, t).None? {
      var p := s.recs[t].parent.value;
      assert s.recs[p].pid != s.recs[t].pid;
      AttachOthersIs(s, t, p);
    }
  }

  // ----- Requests about a stopped ptracee -----

  /** A ptracee of p, stopped, with that pid, which no zombie has. */
  ghost predicate IsSubject<Id>(s: State<Id>, p: Id, pid: int, t: Id)
    requires p in s.recs
  {
    && t in s.recs && Ptracer(s, t) == Some(p) && !s.recs[t].running && s.recs[t].pid == pid
    && forall z <- s.recs[p].asPtracer.zombies :: z.pid != pid
  }

  lemma {:induction false} FirstStoppedIs<Id>(list: seq<Id>, s: State<Id>, p: Id, pid: int)
    requires Named(s) && (forall t <- list :: t in s.recs) && pid != -1
    ensures var r := FirstPtracee(list, s.recs, p, pid, true, false, WaitOptions(false, true, false));
            forall t <- list :: (r == ATracee(t) <==> Ptracer(s, t) == Some(p) && !s.recs[t].running && s.recs[t].pid == pid)
  {
    if list != [] {
      FirstStoppedIs(list[1..], s, p, pid);
      assert forall t <- list :: t == list[0] || t in list[1..];
    }
  }

  lemma SubjectIff<Id>(s: State<Id>, p: Id, pid: int)
    requires Settled(s) && p in s.recs
    ensures forall t :: Subject(s, p, pid) == Some(t) <==> IsSubject(s, p, pid, t)
  {
    hide SoundBut, FirstZombie, FirstPtracee;
    var options := WaitOptions(false, true, false);
    NoZombieIff(AsTracer(s, p).zombies, pid, options);
    if pid == -1 {
      forall t ensures !IsSubject(s, p, pid, t) { assert t in s.recs ==> s.recs[t].pid > 0; }
    } else {
      FirstStoppedIs(s.order, s, p, pid);
      assert forall t | t in s.recs :: t in s.order;
    }
  }

  /** Only a stopped ptracee of one's own can be asked for anything. */
  lemma NoSubjectNoRequest<Id>(s: State<Id>, p: Id, request: Request, k: Kernel<Id>)
    requires Settled(s) && p in s.recs && !request.TraceMe? && !request.AttachTo?
    ensures PtraceAnswerTo(s, p, request) == NoSuchProcess <==> forall t :: !IsSubject(s, p, request.pid, t)
    ensures PtraceAnswerTo(s, p, request) == NoSuchProcess ==> PtraceExit(s, p, request, k) == s
  {
    SubjectIff(s, p, request.pid);
    hide Subject, IsSubject, SoundBut;
  }

  /** SETOPTIONS: the options are those asked for, and nothing else changes; a seccomp option is refused. */
  lemma SetOptionsDoes<Id>(s: State<Id>, p: Id, t: Id, options: set<TraceOption>, seccomp: bool, k: Kernel<Id>)
    requires Settled(s) && p in s.recs && t in s.recs && IsSubject(s, p, s.recs[t].pid, t)
    ensures var request := SetOptions(s.recs[t].pid, options, seccomp);
            var s' := PtraceExit(s, p, request, k);
            && PtraceAnswerTo(s, p, request) == (if seccomp then Invalid else Done)
            && s'.order == s.order && s'.recs.Keys == s.recs.Keys && (forall x | x in s.recs && x != t :: s'.recs[x] == s.recs[x])
            && s'.recs[t] == s.recs[t].(
                 asPtracee := s.recs[t].asPtracee.(options := if seccomp then s.recs[t].asPtracee.options else options))
  {
    hide Settled, PtraceExit, PtraceAnswerTo, IsSubject;
    SubjectIsStopped(s, p, t);
    SubjectAnswers(s, p, t, SetOptions(s.recs[t].pid, options, seccomp), k);
  }

  /**
   * SYSCALL, CONT and their like: the ptracee goes on, unless it is blocked itself or dead, its
   * system calls are to be seen from now on or not, and it has the same ptracer and options.
   */
  lemma ResumeDoes<Id>(s: State<Id>, p: Id, t: Id, ignore: Option<bool>, k: Kernel<Id>)
    requires Settled(s) && p in s.recs && t in s.recs && IsSubject(s, p, s.recs[t].pid, t) && Deferred(s.recs[t])
    ensures var request := Resume(s.recs[t].pid, ignore);
            var s', r := PtraceExit(s, p, request, k), s.recs[t];
            && PtraceAnswerTo(s, p, request) == Done && t in s'.recs
            && var r' := s'.recs[t];
            && (r'.running <==> r.asPtracer.waitPid == 0 && t !in k.dead) && Steady(r, r') && r'.parent == r.parent
            && r'.asPtracee == r.asPtracee.(
                 ignoreSyscalls := if ignore.Some? then ignore.value else r.asPtracee.ignoreSyscalls,
                 proot := r.asPtracee.proot.(pending := false))
            && forall x | x in s.recs && x != t :: s'.recs[x] == s.recs[x]
  {
    hide Settled, PtraceExit, PtraceAnswerTo, IsSubject, Proceed;
    SubjectIsStopped(s, p, t);
    SubjectAnswers(s, p, t, Resume(s.recs[t].pid, ignore), k);
    ResumeRequestDoes(s, p, t, s.recs[t].pid, ignore, k);
    hide DoRequest;
  }

  lemma ResumeRequestDoes<Id>(s: State<Id>, p: Id, t: Id, pid: int, ignore: Option<bool>, k: Kernel<Id>)
    requires p in s.recs && t in s.recs && Ptracer(s, t) == Some(p) && Ordered(s) && Deferred(s.recs[t]) && !s.recs[t].running
    ensures var s', r := DoRequest(s, p, t, Resume(pid, ignore), k), s.recs[t];
            var r' := s'.recs[t];
            && (r'.running <==> r.asPtracer.waitPid == 0 && t !in k.dead) && Steady(r, r') && r'.parent == r.parent
            && r'.asPtracee == r.asPtracee.(
                 ignoreSyscalls := if ignore.Some? then ignore.value else r.asPtracee.ignoreSyscalls,
                 proot := r.asPtracee.proot.(pending := false))
            && forall x | x in s.recs && x != t :: s'.recs[x] == s.recs[x]
  {
    hide Proceed;
    var e := s.recs[t].asPtracee;
    var e1 := e.(ignoreSyscalls := if ignore.Some? then ignore.value else e.ignoreSyscalls);
    SetIs(s, t, e1);
    hide SetPtracee;
    ProceedDoes(SetPtracee(s, t, e1), t, k);
  }

  /** A request about a stopped ptracee is carried out. */
  lemma SubjectAnswers<Id>(s: State<Id>, p: Id, t: Id, request: Request, k: Kernel<Id>)
    requires Settled(s) && p in s.recs && t in s.recs && IsSubject(s, p, s.recs[t].pid, t)
    requires !request.TraceMe? && !request.AttachTo? && request.pid == s.recs[t].pid
    ensures Ordered(s) && PtraceExit(s, p, request, k) == DoRequest(s, p, t, request, k)
    ensures PtraceAnswerTo(s, p, request) == CarriedOut(request)
  {
    SubjectIff(s, p, s.recs[t].pid);
    hide Subject, IsSubject, SoundBut, Named, Enrolled, DoRequest;
  }

  lemma SetIs<Id>(s: State<Id>, t: Id, e: AsPtracee<Id>)
    requires t in s.recs
    ensures var s' := SetPtracee(s, t, e);
            s'.recs[t] == s.recs[t].(asPtracee := e) && forall x | x in s.recs && x != t :: s'.recs[x] == s.recs[x]
  {}

  lemma SubjectIsStopped<Id>(s: State<Id>, p: Id, t: Id)
    requires p in s.recs && t in s.recs && IsSubject(s, p, s.recs[t].pid, t)
    ensures Ptracer(s, t) == Some(p) && !s.recs[t].running
  {}

  lemma ProceedDoes<Id>(s: State<Id>, t: Id, k: Kernel<Id>)
    requires t in s.recs && Ordered(s) && Deferred(s.recs[t])
    ensures var s', r := Proceed(s, t, k), s.recs[t];
            var r' := s'.recs[t];
            && (r'.running <==> r.running || (r.asPtracer.waitPid == 0 && t !in k.dead)) && Steady(r, r') && r'.parent == r.parent
            && r'.asPtracee == r.asPtracee.(proot := r.asPtracee.proot.(pending := false))
            && forall x | x in s.recs && x != t :: s'.recs[x] == s.recs[x]
  {
    hide QuietEvent;
    var e := s.recs[t].asPtracee;
    if e.proot.pending {
      QuietIsSteady(s, t, e.proot.value, k);
      QuietEventStays(s, t, e.proot.value, k);
    }
  }

  /** DETACH: nobody traces the ptracee any more, and it goes on, unless it is blocked itself or dead. */
  lemma LetGoDoes<Id>(s: State<Id>, p: Id, t: Id, k: Kernel<Id>)
    requires Settled(s) && p in s.recs && t in s.recs && IsSubject(s, p, s.recs[t].pid, t) && Deferred(s.recs[t])
    ensures var request := LetGo(s.recs[t].pid);
            var s', r, a := PtraceExit(s, p, request, k), s.recs[t], s.recs[p].asPtracer;
            && PtraceAnswerTo(s, p, request) == Done && t != p && t in s'.recs && p in s'.recs
            && var r' := s'.recs[t];
            && (r'.running <==> r.asPtracer.waitPid == 0 && t !in k.dead) && Steady(r, r') && r'.parent == r.parent
            && r'.asPtracee == r.asPtracee.(ptracer := None, proot := r.asPtracee.proot.(pending := false))
            && s'.recs[p] == s.recs[p].(asPtracer := a.(nbPtracees := a.nbPtracees - 1))
            && forall x | x in s.recs && x != t && x != p :: s'.recs[x] == s.recs[x]
  {
    NobodyTracesItself(s, t);
    hide Settled, PtraceExit, PtraceAnswerTo, IsSubject, Proceed, Detach;
    SubjectIsStopped(s, p, t);
    SubjectAnswers(s, p, t, LetGo(s.recs[t].pid), k);
    DetachIs(s, t, p);
    ProceedDoes(Detach(s, t), t, k);
  }

  // ----- Tracees whose registers cannot be read -----

  /** Without its registers, a stop of a system call changes nothing of what a tracee traces and waits for, and nobody else. */
  lemma UnreadDoesNothing<Id>(s: State<Id>, t: Id, ev: Event, k: Kernel<Id>)
    requires t in s.recs && Ordered(s) && t in k.untranslated && (ev.SyscallStop? || ev.SeccompStop?)
    ensures var s' := TraceeEvent(s, t, ev, k);
            && s'.order == s.order && s'.recs.Keys == s.recs.Keys && (forall x | x in s.recs && x != t :: s'.recs[x] == s.recs[x])
            && s'.recs[t].asPtracer == s.recs[t].asPtracer && s'.recs[t].running == s.recs[t].running
            && s'.recs[t].asPtracee.ptracer == s.recs[t].asPtracee.ptracer
            && s'.recs[t].asPtracee.event == s.recs[t].asPtracee.event
  {
    hide WaitEnter, ExitStage, NewChild;
  }
}
