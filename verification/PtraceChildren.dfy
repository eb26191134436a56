/**
 * What a tracee has when it is born, and what is left of it and of its relatives when it dies.
 */
module PtraceChildren {
  import opened Wrappers
  import opened PtraceState
  import opened PtraceEmulation
  import opened PtraceConservation
  import opened PtracePending
  import opened PtraceWakeups
  import opened PtraceTwice

  // ----- Births -----

  /** The child is traced too, as clone(2) and ptrace(2) have it: by an option of the ptracer, or a flag of the call. */
  predicate IsTracedToo<Id>(r: Tracee<Id>, b: Birth<Id>) {
    r.asPtracee.ptracer.Some? && (b.kind in r.asPtracee.options || b.sharesTracer)
  }

  /** What is known of the child before: nothing, if it has not stopped yet. */
  function Before<Id>(s: State<Id>, b: Birth<Id>): Tracee<Id>
    requires Ordered(s) && Unused(s, b.child, b.pid)
  {
    var (s1, c) := GetTracee(s, b.child, b.pid); s1.recs[c]
  }

  /**
   * A child has its parent, or that of its parent; and when it is traced too, the ptracer of its
   * parent and all of its options, no event, and tracing that has not started. Of the others,
   * nothing changes but the number of ptracees of that ptracer.
   */
  lemma ChildIs<Id>(s: State<Id>, t: Id, b: Birth<Id>)
    requires Sound(s) && Ordered(s) && t in s.recs && ForksInOrder(s, t, b)
    requires Before(s, b).parent.None? && Before(s, b).asPtracee.ptracer.None?
    ensures var s' := NewChild(s, t, b);
            var (r, c) := (s.recs[t], GetTracee(s, b.child, b.pid).1);
            && s'.recs.Keys == s.recs.Keys + {c}
            && s'.recs[c] == Before(s, b).(
                 parent := if b.sharesParent then r.parent else Some(t), clone := b.sharesThreads,
                 asPtracee := if IsTracedToo(r, b)
                              then AsPtracee(r.asPtracee.ptracer, NO_EVENT, NO_EVENT, false, false, r.asPtracee.options)
                              else Before(s, b).asPtracee)
            && forall x | x in s.recs && x != c ::
                 s'.recs[x] == if IsTracedToo(r, b) && r.asPtracee.ptracer == Some(x) then OneMore(s.recs[x]) else s.recs[x]
  {
    hide SoundBut, Adopted, FindPid;
    ParentIsRegistered(s, t);
    var (s1, c) := GetTracee(s, b.child, b.pid);
    FoundOrNew(s, b.child, b.pid);
    AdoptedIs(s1, c, t, b);
  }

  function OneMore<Id>(r: Tracee<Id>): Tracee<Id> {
    r.(asPtracer := r.asPtracer.(nbPtracees := r.asPtracer.nbPtracees + 1))
  }

  lemma FoundOrNew<Id>(s: State<Id>, id: Id, pid: int)
    requires Ordered(s) && Unused(s, id, pid)
    ensures var (s1, c) := GetTracee(s, id, pid);
            && s1.recs.Keys == s.recs.Keys + {c} && (forall x | x in s.recs :: s1.recs[x] == s.recs[x])
            && (c !in s.recs ==> s1.recs[c] == Fresh(pid))
  {
    hide FindPid;
  }

  lemma AdoptedIs<Id>(s: State<Id>, c: Id, t: Id, b: Birth<Id>)
    requires c in s.recs && t in s.recs && c != t && Ptracer(s, t) != Some(c)
    requires Ptracer(s, t).Some? ==> Ptracer(s, t).value in s.recs
    ensures var s', r := Adopted(s, c, t, b), s.recs[t];
            && s'.recs[c] == s.recs[c].(
                 parent := if b.sharesParent then r.parent else Some(t), clone := b.sharesThreads,
                 asPtracee := if IsTracedToo(r, b)
                              then AsPtracee(r.asPtracee.ptracer, NO_EVENT, NO_EVENT, false, false, r.asPtracee.options)
                              else s.recs[c].asPtracee)
            && forall x | x in s.recs && x != c ::
                 s'.recs[x] == if IsTracedToo(r, b) && r.asPtracee.ptracer == Some(x) then OneMore(s.recs[x]) else s.recs[x]
  {
    var r := s.recs[t];
    var s1 := With(s, c, s.recs[c].(parent := if b.sharesParent then r.parent else Some(t), clone := b.sharesThreads));
    if IsTracedToo(r, b) { InheritedIs(s1, c, r.asPtracee.ptracer.value, r.asPtracee.options); }
    hide Inherit;
  }

  lemma InheritedIs<Id>(s: State<Id>, c: Id, p: Id, options: set<TraceOption>)
    requires c in s.recs && p in s.recs && c != p
    ensures var s' := Inherit(s, c, p, options);
            && s'.recs[c] == s.recs[c].(asPtracee := AsPtracee(Some(p), NO_EVENT, NO_EVENT, false, false, options))
            && forall x | x in s.recs && x != c :: s'.recs[x] == if x == p then OneMore(s.recs[x]) else s.recs[x]
  {
    AttachOthersIs(s, c, p);
    hide Attach;
  }

  lemma AttachOthersIs<Id>(s: State<Id>, c: Id, p: Id)
    requires c in s.recs && p in s.recs && c != p
    ensures var s' := Attach(s, c, p);
            && s'.recs[c] == s.recs[c].(asPtracee := AsPtracee(Some(p), NO_EVENT, NO_EVENT, false, false, {}))
            && forall x | x in s.recs && x != c :: s'.recs[x] == if x == p then OneMore(s.recs[x]) else s.recs[x]
  {}

  // ----- What is left of a tracee -----

  /** Who it is, and what it traces. */
  predicate Steady<Id(==)>(r: Tracee<Id>, r': Tracee<Id>) {
    && r'.pid == r.pid && r'.clone == r.clone && r'.terminated == r.terminated && SameWait(r.asPtracer, r'.asPtracer)
    && r'.asPtracer.nbPtracees == r.asPtracer.nbPtracees && r'.asPtracer.zombies == r.asPtracer.zombies
  }

  /** ... and whether it runs, and what it is as a ptracee. */
  predicate Constant<Id(==)>(s: State<Id>, s': State<Id>, t: Id)
    requires t in s.recs
  {
    && t in s'.recs && Steady(s.recs[t], s'.recs[t])
    && s'.recs[t].running == s.recs[t].running && s'.recs[t].parent == s.recs[t].parent
    && s'.recs[t].asPtracee == s.recs[t].asPtracee
  }

  lemma ConstantTwice<Id>(s: State<Id>, s1: State<Id>, s2: State<Id>, t: Id)
    requires t in s.recs && Constant(s, s1, t) && Constant(s1, s2, t)
    ensures Constant(s, s2, t)
  {}

  lemma WaitEnterIsSteady<Id>(s: State<Id>, t: Id, pid: int, options: WaitOptions)
    requires t in s.recs && Ordered(s)
    ensures Constant(s, WaitEnter(s, t, pid, options), t)
  {
    hide GetPtracee;
  }

  lemma FlagsAreSteady<Id>(s: State<Id>, t: Id, inSysexit: bool)
    requires t in s.recs
    ensures Constant(s, s, t) && Constant(s, SetSysexit(s, t, inSysexit), t)
    ensures Constant(s, With(s, t, s.recs[t].(sigstopAllowed := true)), t)
  {}

  lemma EnterIsSteady<Id>(s: State<Id>, t: Id, k: Kernel<Id>)
    requires t in s.recs && Ordered(s)
    ensures Constant(s, EnterStage(s, t, k), t)
  {
    hide WaitEnter, SetSysexit, Constant;
    FlagsAreSteady(s, t, false);
    var s1 := match CallOf(k, t)
      case WaitCall(pid, options) => if t in k.untranslated then s else WaitEnter(s, t, pid, options)
      case _ => s;
    if CallOf(k, t).WaitCall? { WaitEnterIsSteady(s, t, CallOf(k, t).pid, CallOf(k, t).options); }
    FlagsAreSteady(s1, t, t in k.entered);
    ConstantTwice(s, s1, EnterStage(s, t, k), t);
  }

  lemma QuietIsSteady<Id>(s: State<Id>, t: Id, ev: Event, k: Kernel<Id>)
    requires t in s.recs && Ordered(s) && !ev.IsDeath()
    ensures var r, r' := s.recs[t], QuietEvent(s, t, ev, k).recs[t];
            && Steady(r, r') && r'.running == r.running && r'.parent == r.parent
            && r'.asPtracee == r.asPtracee.(proot := r.asPtracee.proot.(pending := false))
  {
    hide EnterStage, ClearProot, Constant, With;
    FlagsAreSteady(s, t, false);
    EnterIsSteady(s, t, k);
    var s1 :=
      if ev.SyscallStop? || ev.SeccompStop? then EnterStage(s, t, k)
      else if ev == SignalStop(SIGSTOP) then With(s, t, s.recs[t].(sigstopAllowed := true))
      else s;
    ClearedIs(s, s1, t);
  }

  lemma ClearedIs<Id>(s: State<Id>, s1: State<Id>, t: Id)
    requires t in s.recs && Constant(s, s1, t)
    ensures var r, r' := s.recs[t], ClearProot(s1, t).recs[t];
            && Steady(r, r') && r'.running == r.running && r'.parent == r.parent
            && r'.asPtracee == r.asPtracee.(proot := r.asPtracee.proot.(pending := false))
  {}

  /**
   * A relative of a tracee that goes away loses it as a parent. As its ptracee, it is nobody's any
   * more, and if an event had to wait for the ptracer it goes on, unless it is blocked itself or dead.
   */
  lemma ReleasedIs<Id>(s: State<Id>, r: Id, gone: Id, k: Kernel<Id>)
    requires r in s.recs && Ordered(s) && Deferred(s.recs[r])
    ensures var q, q' := s.recs[r], ReleaseOne(s, r, gone, k).recs[r];
            var e := q.asPtracee;
            && Steady(q, q') && q'.parent == (if q.parent == Some(gone) then None else q.parent)
            && q'.asPtracee == (if e.ptracer == Some(gone) then AsPtracee(None, NO_EVENT, NO_EVENT, false, false, {}) else e)
            && (q'.running <==> q.running || (e.ptracer == Some(gone) && (e.proot.pending || e.event.pending)
                                              && q.asPtracer.waitPid == 0 && r !in k.dead))
  {
    hide Proceeds, SetPtracee;
    var q := s.recs[r];
    var s1 := if q.parent == Some(gone) then With(s, r, q.(parent := None)) else s;
    if Ptracer(s, r) == Some(gone) { FreedPtraceeIs(s1, r, k); }
  }

  lemma FreedPtraceeIs<Id>(s: State<Id>, r: Id, k: Kernel<Id>)
    requires r in s.recs && Ordered(s) && Deferred(s.recs[r])
    ensures var q, e := s.recs[r], s.recs[r].asPtracee;
            var q' := SetPtracee(Proceeds(SetPtracee(s, r, e.(ptracer := None)), r, e, k), r, Untraced()).recs[r];
            && Steady(q, q') && q'.parent == q.parent && q'.asPtracee == Untraced()
            && (q'.running <==> q.running || ((e.proot.pending || e.event.pending) && q.asPtracer.waitPid == 0 && r !in k.dead))
  {
    hide Proceeds;
    var e := s.recs[r].asPtracee;
    ProceedsIs(SetPtracee(s, r, e.(ptracer := None)), r, e, k);
  }

  lemma ProceedsIs<Id>(s: State<Id>, t: Id, e: AsPtracee<Id>, k: Kernel<Id>)
    requires t in s.recs && Ordered(s) && (e.proot.pending ==> !e.proot.value.IsDeath())
    ensures var r, r' := s.recs[t], Proceeds(s, t, e, k).recs[t];
            && Steady(r, r') && r'.parent == r.parent
            && (r'.running <==> r.running || ((e.proot.pending || e.event.pending) && r.asPtracer.waitPid == 0 && t !in k.dead))
  {
    hide QuietEvent;
    if e.proot.pending { QuietIsSteady(s, t, e.proot.value, k); }
  }

  /**
   * The ptracer of a tracee that goes away: a death it has not read becomes a zombie, with all that
   * a wait will need. Otherwise it has one ptracee less; without any, it is not blocked any more.
   */
  lemma LeftIs<Id>(s: State<Id>, t: Id, p: Id, k: Kernel<Id>)
    requires t in s.recs && p in s.recs && p != t && Ptracer(s, t) == Some(p)
    ensures var s', r := Leave(s, t, k), s.recs[t];
            var a, a' := s.recs[p].asPtracer, s'.recs[p].asPtracer;
            var last := a.nbPtracees == 1 && a.waitPid != 0;
            && (forall x | x in s.recs && x != t && x != p :: s'.recs[x] == s.recs[x])
            && if r.asPtracee.event.pending && r.asPtracee.event.value.IsDeath() then
                 s'.recs[p] == s.recs[p].(
                   asPtracer := a.(zombies := [Zombie(r.pid, r.clone, r.parent, r.asPtracee.event.value)] + a.zombies))
               else
                 s'.recs[p] == s.recs[p].(
                   running := s.recs[p].running || (last && p !in k.dead),
                   asPtracer := a.(nbPtracees := a.nbPtracees - 1, waitPid := if last then 0 else a.waitPid))
  {
    hide Detach, Zombify, Forget;
    if s.recs[t].asPtracee.event.pending && s.recs[t].asPtracee.event.value.IsDeath() {
      ZombifyIs(s, t, p);
    } else {
      ForgetIs(s, t, p, k);
    }
  }

  lemma ZombifyIs<Id>(s: State<Id>, t: Id, p: Id)
    requires t in s.recs && p in s.recs && p != t && Ptracer(s, t) == Some(p)
    ensures var s', r, a := Zombify(s, t, p), s.recs[t], s.recs[p].asPtracer;
            && (forall x | x in s.recs && x != t && x != p :: s'.recs[x] == s.recs[x])
            && s'.recs[t].terminated == r.terminated
            && s'.recs[p] == s.recs[p].(
                 asPtracer := a.(zombies := [Zombie(r.pid, r.clone, r.parent, r.asPtracee.event.value)] + a.zombies))
  {
    DetachIs(s, t, p);
    hide Detach;
  }

  lemma ForgetIs<Id>(s: State<Id>, t: Id, p: Id, k: Kernel<Id>)
    requires t in s.recs && p in s.recs && p != t && Ptracer(s, t) == Some(p)
    ensures var s', a := Forget(s, t, p, k), s.recs[p].asPtracer;
            var last := a.nbPtracees == 1 && a.waitPid != 0;
            && (forall x | x in s.recs && x != t && x != p :: s'.recs[x] == s.recs[x])
            && s'.recs[t].terminated == s.recs[t].terminated
            && s'.recs[p] == s.recs[p].(
                 running := s.recs[p].running || (last && p !in k.dead),
                 asPtracer := a.(nbPtracees := a.nbPtracees - 1, waitPid := if last then 0 else a.waitPid))
  {
    hide Detach, Restart, SetPtracer;
    DetachIs(s, t, p);
    FreedIs(Detach(s, t), p, k);
  }

  lemma FreedIs<Id>(s: State<Id>, p: Id, k: Kernel<Id>)
    requires p in s.recs
    ensures var a := s.recs[p].asPtracer.(waitPid := 0);
            var s' := Restart(SetPtracer(s, p, a), p, k).0;
            && (forall x | x in s.recs && x != p :: s'.recs[x] == s.recs[x])
            && s'.recs[p] == s.recs[p].(running := s.recs[p].running || p !in k.dead, asPtracer := a)
  {}

  lemma DetachIs<Id>(s: State<Id>, t: Id, p: Id)
    requires t in s.recs && p in s.recs && p != t && Ptracer(s, t) == Some(p)
    ensures var s', a := Detach(s, t), s.recs[p].asPtracer;
            && s'.recs[t] == s.recs[t].(asPtracee := s.recs[t].asPtracee.(ptracer := None))
            && s'.recs[p] == s.recs[p].(asPtracer := a.(nbPtracees := a.nbPtracees - 1))
            && forall x | x in s.recs && x != t && x != p :: s'.recs[x] == s.recs[x]
  {}

  // ----- Freeing -----

  predicate SameDead<Id>(s: State<Id>, s': State<Id>, but: set<Id>) {
    forall x | x in s.recs && x !in but :: x in s'.recs && s'.recs[x].terminated == s.recs[x].terminated
  }

  lemma {:induction false} ReleaseKeepsDead<Id>(s: State<Id>, relatives: seq<Id>, gone: Id, k: Kernel<Id>)
    requires Ordered(s) && (forall r <- relatives :: r in s.recs) && AllDeferred(s, {})
    ensures SameDead(s, Release(s, relatives, gone, k), {})
    decreases |relatives|
  {
    hide AllDeferred, ReleaseOne;
    if relatives != [] {
      var s1 := ReleaseOne(s, relatives[0], gone, k);
      DeferredAt(s, relatives[0], {});
      ReleasedIs(s, relatives[0], gone, k);
      ReleaseOneReleases(s, relatives[0], gone, k);
      ReleaseOneIsDeferred(s, relatives[0], gone, k);
      ReleaseKeepsDead(s1, relatives[1..], gone, k);
    }
  }

  lemma LeaveKeepsDead<Id>(s: State<Id>, t: Id, k: Kernel<Id>)
    requires t in s.recs && Ptracer(s, t) != Some(t) && (Ptracer(s, t).Some? ==> Ptracer(s, t).value in s.recs)
    ensures SameDead(s, Leave(s, t, k), {t})
  {
    if Ptracer(s, t).Some? { LeftIs(s, t, Ptracer(s, t).value, k); }
  }

  lemma RemoveKeepsDead<Id>(s: State<Id>, t: Id, k: Kernel<Id>)
    requires Sound(s) && AllDeferred(s, {}) && t in s.recs && Ordered(s)
    ensures SameDead(s, Remove(s, t, k), {t})
  {
    hide SoundBut, AllDeferred, Release, Leave;
    var order := Without(s.order, t);
    var s0 := s.(order := order);
    var s1 := Release(s0, order, t, k);
    UnlistKeeps(s, t);
    ReleaseKeeps(s0, order, t, k, {t});
    LinksOf(s1, t, {t});
    StillDeferred(s, order);
    ReleaseKeepsDead(s0, order, t, k);
    LeaveKeepsDead(s1, t, k);
  }

  lemma StillDeferred<Id>(s: State<Id>, order: seq<Id>)
    requires AllDeferred(s, {})
    ensures AllDeferred(s.(order := order), {})
  {}

  /** The terminated are removed, all of them, and nobody else: so a death leaves the registry with the next turn. */
  lemma {:induction false} FreesTheTerminated<Id>(s: State<Id>, todo: seq<Id>, k: Kernel<Id>)
    requires Sound(s) && Enrolled(s) && Ordered(s) && AllDeferred(s, {}) && Distinct(todo)
    ensures FreeTerminated(s, todo, k).recs.Keys == set x | x in s.recs && !(x in todo && s.recs[x].terminated)
    decreases |todo|
  {
    hide SoundBut, Enrolled, Remove, AllDeferred;
    if todo != [] {
      var x := todo[0];
      NotAgain(todo);
      hide Distinct;
      if x in s.recs && s.recs[x].terminated {
        RemoveKeeps(s, x, k);
        RemoveIsDeferred(s, x, k);
        RemoveKeepsDead(s, x, k);
        FreesTheTerminated(Remove(s, x, k), todo[1..], k);
      } else {
        FreesTheTerminated(s, todo[1..], k);
      }
    }
  }

  lemma NotAgain<Id>(todo: seq<Id>)
    requires todo != [] && Distinct(todo)
    ensures Distinct(todo[1..]) && todo[0] !in todo[1..]
    ensures forall x :: x in todo <==> x == todo[0] || x in todo[1..]
  {}

  /** So an event finds none of them in the registry: all others are there, and the tracee it is about. */
  lemma TurnFindsTheLiving<Id>(s: State<Id>, i: Input<Id>)
    requires Sound(s) && Enrolled(s) && AllDeferred(s, {}) && Ready(s, i)
    ensures var (s1, t) := Handled(s, i);
            && s1.recs.Keys == (set x | x in s.recs && !s.recs[x].terminated) + {t} && s1.recs[t].pid == i.pid
            && (t in s.recs ==> !s.recs[t].terminated)
  {
    ListIsDistinct(s);
    hide SoundBut, AllDeferred, FreeTerminated, GetTracee, Distinct, Grown;
    FreesTheTerminated(s, s.order, i.kernel);
    FreedAreDead(s);
    hide Enrolled;
    FoundOrNew(FreeTerminated(s, s.order, i.kernel), i.id, i.pid);
  }

  lemma FreedAreDead<Id>(s: State<Id>)
    requires Enrolled(s)
    ensures (set x | x in s.recs && !(x in s.order && s.recs[x].terminated)) == set x | x in s.recs && !s.recs[x].terminated
  {}

  lemma ListIsDistinct<Id>(s: State<Id>)
    requires Sound(s)
    ensures Distinct(s.order)
  {}

  /** A death, whoever traces the tracee, terminates it. */
  lemma DeathTerminates<Id>(s: State<Id>, t: Id, ev: Event, k: Kernel<Id>)
    requires Sound(s) && t in s.recs && Ordered(s) && ev.IsDeath()
    ensures t in Stop(s, t, ev, k).recs && Stop(s, t, ev, k).recs[t].terminated
  {
    hide SoundBut, PtraceeEvent, QuietEvent, Restart, ExitStage, NewChild;
    DeathIsQuiet(With(s, t, s.recs[t].(running := false)), t, ev, k);
    RestartTerminated(QuietEvent(With(s, t, s.recs[t].(running := false)), t, ev, k), t, k);
    if Ptracer(s, t).Some? {
      var s0 := With(s, t, s.recs[t].(running := false));
      var s1 := PtraceeEvent(s0, t, Ptracer(s, t).value, ev, k).0;
      DeathIsNotKept(s0, t, Ptracer(s, t).value, ev, k);
      DeathIsQuiet(s1, t, ev, k);
      RestartTerminated(QuietEvent(s1, t, ev, k), t, k);
    }
  }

  lemma RestartTerminated<Id>(s: State<Id>, t: Id, k: Kernel<Id>)
    requires t in s.recs
    ensures Restart(s, t, k).0.recs[t].terminated == s.recs[t].terminated
  {}

  lemma DeathIsQuiet<Id>(s: State<Id>, t: Id, ev: Event, k: Kernel<Id>)
    requires t in s.recs && Ordered(s) && ev.IsDeath()
    ensures TraceeEvent(s, t, ev, k) == QuietEvent(s, t, ev, k) && QuietEvent(s, t, ev, k).recs[t].terminated
  {
    hide ExitStage, NewChild;
  }

  lemma DeathIsNotKept<Id>(s: State<Id>, t: Id, p: Id, ev: Event, k: Kernel<Id>)
    requires t in s.recs && Ordered(s) && Ptracer(s, t) == Some(p) && ev.IsDeath()
    ensures !PtraceeEvent(s, t, p, ev, k).1
  {
    hide First, Wake;
  }
}
