/**
 * Events that are handled twice: some are handled before the ptracer is told of them, and again
 * when that one cannot be restarted. When this happens, and what the second time does.
 */
module PtraceTwice {
  import opened Wrappers
  import opened PtraceState
  import opened PtraceEmulation
  import opened PtraceConservation
  import opened PtraceWakeups

  // ----- When -----

  /** The event is handled before the ptracer is told of it. */
  predicate HandledFirst<Id>(r: Tracee<Id>, ev: Event, loading: bool) {
    var sifted := Sift(r, ev, loading); sifted.Shown? && sifted.first && (r.asPtracee.tracingStarted || sifted.starts)
  }

  /** The state after that, and after its ptracer was told. */
  function Told<Id>(s: State<Id>, t: Id, ev: Event, k: Kernel<Id>): (s': State<Id>)
    requires t in s.recs && Ordered(s) && Ptracer(s, t).Some?
    ensures Grown(s, s')
  {
    PtraceeEvent(Halted(s, t), t, Ptracer(s, t).value, ev, k).0
  }

  /** Told of an event handled first, the ptracer does not keep the tracee stopped: event_loop() handles the event. */
  predicate HandledTwice<Id>(s: State<Id>, t: Id, ev: Event, k: Kernel<Id>)
    requires t in s.recs && Ordered(s)
  {
    && Ptracer(s, t).Some? && HandledFirst(s.recs[t], ev, t in k.loading)
    && !PtraceeEvent(Halted(s, t), t, Ptracer(s, t).value, ev, k).1
  }

  lemma StopTwice<Id>(s: State<Id>, t: Id, ev: Event, k: Kernel<Id>)
    requires t in s.recs && Ordered(s) && Ptracer(s, t).Some?
    ensures HandledTwice(s, t, ev, k) ==> Stop(s, t, ev, k) == Restart(TraceeEvent(Told(s, t, ev, k), t, ev, k), t, k).0
  {
    hide PtraceeEvent, TraceeEvent, Restart, Stop, HandledFirst;
    StopIs(s, t, Ptracer(s, t).value, ev, k);
  }

  /** What an event has set in its tracee before it is handled. */
  lemma BegunLinks<Id>(s: State<Id>, t: Id, ev: Event, starts: bool)
    requires t in s.recs
    ensures var s1 := Begun(s, t, ev, starts);
            && (forall x | x in s.recs && x != t :: s1.recs[x] == s.recs[x])
            && var r, r1 := s.recs[t], s1.recs[t];
            && r1.pid == r.pid && r1.clone == r.clone && r1.parent == r.parent && r1.inSysexit == r.inSysexit
            && r1.asPtracer == r.asPtracer
            && r1.asPtracee.ptracer == r.asPtracee.ptracer && r1.asPtracee.options == r.asPtracee.options
  {}

  lemma FirstLone<Id>(s: State<Id>, t: Id, p: Id, ev: Event, k: Kernel<Id>)
    requires t in s.recs && p in s.recs && Ordered(s) && Ptracer(s, t) == Some(p) && p != t
    ensures var s1 := First(s, t, ev, k);
            && Ptracer(s1, t) == Some(p) && SameWait(AsTracer(s, p), AsTracer(s1, p))
            && s1.recs[t].pid == s.recs[t].pid && s1.recs[t].clone == s.recs[t].clone
  {
    hide TraceeEvent, SetProot, SetPtracee;
    TraceeEventLone(s, t, ev, k);
    var s1 := TraceeEvent(s, t, ev, k);
    var e := s1.recs[t].asPtracee;
    ProotLone(s1, t, EventSlot(SignalStop(0), e.proot.pending));
  }

  lemma ProotLone<Id>(s: State<Id>, t: Id, slot: EventSlot)
    requires t in s.recs
    ensures var s1 := SetProot(s, t, slot);
            && (forall x | x in s.recs && x != t :: s1.recs[x] == s.recs[x])
            && s1.recs[t] == s.recs[t].(asPtracee := s.recs[t].asPtracee.(proot := slot))
  {}

  /** Delivery restarts the ptracer, unless it is dead: it is not blocked any more. */
  lemma WakesIff<Id>(s: State<Id>, t: Id, p: Id, k: Kernel<Id>)
    requires t in s.recs && p in s.recs && Ptracer(s, t) == Some(p)
    ensures Wake(s, t, p, k).1 <==> p !in k.dead
  {
    hide ReadTracee;
  }

  lemma FirstIsTold<Id>(s: State<Id>, t: Id, ev: Event, k: Kernel<Id>)
    requires t in s.recs && Ordered(s) && HandledFirst(s.recs[t], ev, t in k.loading)
    ensures IsTold(s.recs[t], ev, t in k.loading) && !Sift(s.recs[t], ev, t in k.loading).event.IsDeath()
  {}

  /** Told of an event handled first. */
  lemma ToldFirst<Id>(s: State<Id>, t: Id, p: Id, ev: Event, k: Kernel<Id>)
    requires t in s.recs && p in s.recs && Ordered(s) && Ptracer(s, t) == Some(p) && p != t
    requires HandledFirst(s.recs[t], ev, t in k.loading)
    ensures var sifted := Sift(s.recs[t], ev, t in k.loading);
            var s1 := First(Begun(s, t, ev, sifted.starts), t, ev, k);
            && Ptracer(s1, t) == Some(p) && (Awaited(s1, t, p) <==> Awaited(s, t, p))
            && PtraceeEvent(Halted(s, t), t, p, ev, k) == Tell(s1, t, p, sifted.event, k)
  {
    hide First, Begun, Sift, Tell, PtraceeEvent;
    FirstIsTold(s, t, ev, k);
    ToldIs(s, t, p, ev, k);
    var sifted := Sift(s.recs[t], ev, t in k.loading);
    BegunLinks(s, t, ev, sifted.starts);
    FirstLone(Begun(s, t, ev, sifted.starts), t, p, ev, k);
  }

  /**
   * An event is handled twice if and only if it is one that is handled first, and its ptracer is
   * blocked in a wait for the tracee, and dead.
   */
  lemma HandledTwiceIff<Id>(s: State<Id>, t: Id, ev: Event, k: Kernel<Id>)
    requires Sound(s) && Ordered(s) && t in s.recs
    ensures HandledTwice(s, t, ev, k)
       <==> && Registered(s, Ptracer(s, t)) && HandledFirst(s.recs[t], ev, t in k.loading)
            && Awaited(s, t, Ptracer(s, t).value) && Ptracer(s, t).value in k.dead
  {
    hide SoundBut, First, Begun, Wake, PtraceeEvent, HandledFirst, Sift, Awaited;
    ParentIsRegistered(s, t);
    if Ptracer(s, t).Some? && HandledFirst(s.recs[t], ev, t in k.loading) {
      var p := Ptracer(s, t).value;
      FirstIsTold(s, t, ev, k);
      ToldFirst(s, t, p, ev, k);
      var sifted := Sift(s.recs[t], ev, t in k.loading);
      var s1 := First(Begun(s, t, ev, sifted.starts), t, ev, k);
      TellsIff(s1, t, p, sifted.event, k);
    }
  }

  lemma TellsIff<Id>(s: State<Id>, t: Id, p: Id, shown: Event, k: Kernel<Id>)
    requires t in s.recs && p in s.recs && Ptracer(s, t) == Some(p) && p != t && !shown.IsDeath()
    ensures Tell(s, t, p, shown, k).1 <==> !(Awaited(s, t, p) && p in k.dead)
  {
    hide Wake;
    WakesIff(Notified(s, t, shown), t, p, k);
  }

  // ----- Fork events -----

  /** Telling changes t and its ptracer only, and of t no links. */
  lemma TellKeepsOthers<Id>(s: State<Id>, t: Id, p: Id, shown: Event, k: Kernel<Id>)
    requires t in s.recs && p in s.recs && Ptracer(s, t) == Some(p) && p != t && !shown.IsDeath()
    ensures var s' := Tell(s, t, p, shown, k).0;
            && Same(s, s') && (forall x | x in s.recs && x != t && x != p :: s'.recs[x] == s.recs[x])
            && s'.recs[t].parent == s.recs[t].parent && s'.recs[t].inSysexit == s.recs[t].inSysexit
            && s'.recs[t].asPtracee.ptracer == Some(p) && s'.recs[t].asPtracee.options == s.recs[t].asPtracee.options
  {
    hide Wake;
    var s1 := Notified(s, t, shown);
    WakeKeepsOthers(s1, t, p, k);
  }

  lemma WakeKeepsOthers<Id>(s: State<Id>, t: Id, p: Id, k: Kernel<Id>)
    requires t in s.recs && p in s.recs && Ptracer(s, t) == Some(p) && p != t && !s.recs[t].asPtracee.event.value.IsDeath()
    ensures var s' := Wake(s, t, p, k).0;
            && Same(s, s') && (forall x | x in s.recs && x != t && x != p :: s'.recs[x] == s.recs[x])
            && s'.recs[t].parent == s.recs[t].parent && s'.recs[t].inSysexit == s.recs[t].inSysexit
            && s'.recs[t].asPtracee.ptracer == Some(p) && s'.recs[t].asPtracee.options == s.recs[t].asPtracee.options
  {
    ReadKeepsOthers(s, t, p, k);
    var s1 := ReadTracee(s, p, t, k).0;
    hide ReadTracee;
    var s2 := SetPtracer(s1, p, AsTracer(s1, p).(waitPid := 0));
    assert forall x | x in s.recs && x != p :: s2.recs[x] == s1.recs[x];
    hide SetPtracer;
    RestartStays(s2, p, k);
    hide Restart;
  }

  lemma ReadKeepsOthers<Id>(s: State<Id>, t: Id, p: Id, k: Kernel<Id>)
    requires t in s.recs && p in s.recs && Ptracer(s, t) == Some(p) && p != t && !s.recs[t].asPtracee.event.value.IsDeath()
    ensures var s' := ReadTracee(s, p, t, k).0;
            && Same(s, s') && (forall x | x in s.recs && x != t :: s'.recs[x] == s.recs[x])
            && s'.recs[t].parent == s.recs[t].parent && s'.recs[t].inSysexit == s.recs[t].inSysexit
            && s'.recs[t].asPtracee.ptracer == Some(p) && s'.recs[t].asPtracee.options == s.recs[t].asPtracee.options
  {}

  lemma {:induction false} FindsSamePid<Id>(list: seq<Id>, s: State<Id>, s': State<Id>, pid: int)
    requires (forall x <- list :: x in s.recs) && Same(s, s')
    ensures FindPid(list, s'.recs, pid) == FindPid(list, s.recs, pid)
  {
    if list != [] { FindsSamePid(list[1..], s, s', pid); }
  }

  /** An entry that was found or made is found again. */
  lemma FoundAgain<Id>(s: State<Id>, s': State<Id>, id: Id, pid: int)
    requires Ordered(s) && Unused(s, id, pid) && Same(GetTracee(s, id, pid).0, s')
    ensures Ordered(s') && Unused(s', id, pid) && GetTracee(s', id, pid) == (s', GetTracee(s, id, pid).1)
  {
    var (s1, c) := GetTracee(s, id, pid);
    assert FindPid(s1.order, s1.recs, pid) == Some(c);
    FindsSamePid(s1.order, s1, s', pid);
    hide FindPid;
  }

  /** The child after its first birth. */
  predicate IsChild<Id>(s: State<Id>, c: Id, t: Id, b: Birth<Id>)
    requires c in s.recs && t in s.recs
  {
    && s.recs[c].parent == (if b.sharesParent then s.recs[t].parent else Some(t)) && s.recs[c].clone == b.sharesThreads
    && Ptracer(s, c) == (if Inherits(s.recs[t], b) then Ptracer(s, t) else None)
  }

  lemma AdoptedIsChild<Id>(s: State<Id>, c: Id, t: Id, b: Birth<Id>)
    requires c in s.recs && t in s.recs && c != t && Adoptable(s, c)
    requires Ptracer(s, t).Some? && Ptracer(s, t).value in s.recs && Ptracer(s, t) != Some(c)
    ensures var s' := Adopted(s, c, t, b);
            && IsChild(s', c, t, b) && s'.recs[t].parent == s.recs[t].parent && s'.recs[t].asPtracee == s.recs[t].asPtracee
  {
    hide Attach;
    var r := s.recs[t];
    var p := r.asPtracee.ptracer.value;
    var s1 := With(s, c, s.recs[c].(parent := if b.sharesParent then r.parent else Some(t), clone := b.sharesThreads));
    AttachOthers(s1, c, p);
  }

  lemma AttachOthers<Id>(s: State<Id>, c: Id, p: Id)
    requires c in s.recs && p in s.recs && c != p
    ensures var s' := Attach(s, c, p);
            && s'.recs[c] == s.recs[c].(asPtracee := Untraced().(ptracer := Some(p)))
            && forall x | x in s.recs && x != c ::
                 s'.recs[x].parent == s.recs[x].parent && s'.recs[x].asPtracee == s.recs[x].asPtracee
  {}

  /** A second birth of such a child: the assertion fails, or everything is as it was. */
  lemma SecondBirth<Id>(s: State<Id>, c: Id, t: Id, b: Birth<Id>)
    requires c in s.recs && t in s.recs && IsChild(s, c, t, b) && Ptracer(s, t).Some?
    ensures Adoptable(s, c) <==> b.sharesParent && s.recs[t].parent.None? && !Inherits(s.recs[t], b)
    ensures Adoptable(s, c) ==> Adopted(s, c, t, b) == s
  {
    if Adoptable(s, c) {
      var r := s.recs[c];
      assert r.(parent := if b.sharesParent then s.recs[t].parent else Some(t), clone := b.sharesThreads) == r;
      assert With(s, c, r) == s;
    }
  }

  lemma ChildStays<Id>(s: State<Id>, s': State<Id>, c: Id, t: Id, b: Birth<Id>)
    requires c in s.recs && t in s.recs && Same(s, s') && IsChild(s, c, t, b) && s'.recs[c] == s.recs[c]
    requires s'.recs[t].parent == s.recs[t].parent && s'.recs[t].asPtracee.ptracer == s.recs[t].asPtracee.ptracer
    requires s'.recs[t].asPtracee.options == s.recs[t].asPtracee.options
    ensures IsChild(s', c, t, b)
  {}

  /** The birth is handled, and what comes after that does not change the child. */
  lemma FirstBirth<Id>(s: State<Id>, t: Id, p: Id, ev: Event, k: Kernel<Id>)
    requires t in s.recs && p in s.recs && Ordered(s) && Ptracer(s, t) == Some(p) && p != t && Announces(ev) && t in k.births
    requires ForksInOrder(s, t, k.births[t])
    requires var (s1, c) := GetTracee(s, k.births[t].child, k.births[t].pid); Adoptable(s1, c)
    ensures var b, s' := k.births[t], First(s, t, ev, k);
            var (s1, c) := GetTracee(s, b.child, b.pid);
            && c != t && c != p && Same(s1, s') && IsChild(s', c, t, b)
            && s'.recs[t].parent == s.recs[t].parent && s'.recs[t].asPtracee.options == s.recs[t].asPtracee.options
  {
    hide GetTracee, Adopted, ClearProot, SetProot;
    var b := k.births[t];
    var (s1, c) := GetTracee(s, b.child, b.pid);
    GetTraceeLink(s, b.child, b.pid, t);
    GetTraceeLink(s, b.child, b.pid, p);
    AdoptedIsChild(s1, c, t, b);
    FirstOfFork(s, t, ev, k);
    var s2 := NewChild(s, t, b);
    var s3 := ClearProot(s2, t);
    ClearLinks(s2, t);
    ProotLone(s3, t, EventSlot(SignalStop(0), s3.recs[t].asPtracee.proot.pending));
    hide IsChild;
    ChildStays(s2, First(s, t, ev, k), c, t, b);
  }

  lemma ClearLinks<Id>(s: State<Id>, t: Id)
    requires t in s.recs
    ensures var s1 := ClearProot(s, t);
            && (forall x | x in s.recs && x != t :: s1.recs[x] == s.recs[x])
            && s1.recs[t] == s.recs[t].(asPtracee := s1.recs[t].asPtracee)
            && s1.recs[t].asPtracee.ptracer == s.recs[t].asPtracee.ptracer
            && s1.recs[t].asPtracee.options == s.recs[t].asPtracee.options
  {}

  /** The state a fork event is handled in a second time. */
  lemma BornTwice<Id>(s: State<Id>, t: Id, ev: Event, k: Kernel<Id>)
    requires Sound(s) && Ordered(s) && t in s.recs && HandledTwice(s, t, ev, k) && Announces(ev) && t in k.births
    requires ForksInOrder(s, t, k.births[t])
    requires var (s1, c) := GetTracee(s, k.births[t].child, k.births[t].pid); Adoptable(s1, c)
    ensures var b, s' := k.births[t], Told(s, t, ev, k);
            var c := GetTracee(s, b.child, b.pid).1;
            && Unused(s', b.child, b.pid) && GetTracee(s', b.child, b.pid) == (s', c)
            && IsChild(s', c, t, b) && s'.recs[t].parent == s.recs[t].parent && (Inherits(s'.recs[t], b) <==> Inherits(s.recs[t], b))
            && Ptracer(s', t).Some?
  {
    var b, p := k.births[t], Ptracer(s, t).value;
    var c := GetTracee(s, b.child, b.pid).1;
    hide SoundBut, First, Begun, Tell, GetTracee, Adoptable, PtraceeEvent, ForksInOrder, Unused;
    ParentIsRegistered(s, t);
    FirstIsTold(s, t, ev, k);
    ToldFirst(s, t, p, ev, k);
    var sifted := Sift(s.recs[t], ev, t in k.loading);
    var s0 := Begun(s, t, ev, sifted.starts);
    BegunLinks(s, t, ev, sifted.starts);
    BegunChild(s, s0, t, p, b);
    FirstBirth(s0, t, p, ev, k);
    var s1 := First(s0, t, ev, k);
    TellKeepsOthers(s1, t, p, sifted.event, k);
    var s2 := Tell(s1, t, p, sifted.event, k).0;
    ChildStays(s1, s2, c, t, b);
    FoundAgain(s0, s2, b.child, b.pid);
  }

  /** What a birth finds does not depend on the slots of t. */
  lemma BegunChild<Id>(s: State<Id>, s0: State<Id>, t: Id, p: Id, b: Birth<Id>)
    requires Ordered(s) && t in s.recs && p in s.recs && p != t && Same(s, s0) && Ptracer(s, t) == Some(p) == Ptracer(s0, t)
    requires ForksInOrder(s, t, b) && forall x | x in s.recs && x != t :: s0.recs[x] == s.recs[x]
    requires var (s1, c) := GetTracee(s, b.child, b.pid); Adoptable(s1, c)
    ensures ForksInOrder(s0, t, b) && Unused(s0, b.child, b.pid) && GetTracee(s0, b.child, b.pid).1 == GetTracee(s, b.child, b.pid).1
    ensures var (s1, c) := GetTracee(s0, b.child, b.pid); Adoptable(s1, c)
  {
    FindsSamePid(s.order, s, s0, b.pid);
    hide FindPid;
  }

  /**
   * When handling a fork event makes the assertion of new_child() fail though the child had no
   * parent and no ptracer before: when the event is handled twice, and the child is not the
   * sibling, untraced, of a tracee without parent. Otherwise, the second handling changes nothing.
   */
  lemma ForkAbortsIff<Id>(s: State<Id>, t: Id, ev: Event, k: Kernel<Id>)
    requires Sound(s) && Ordered(s) && t in s.recs && Announces(ev) && t in k.births && ForksInOrder(s, t, k.births[t])
    requires var (s1, c) := GetTracee(s, k.births[t].child, k.births[t].pid); Adoptable(s1, c)
    ensures AbortsAgain(s, t, ev, k)
       <==> && Registered(s, Ptracer(s, t)) && HandledFirst(s.recs[t], ev, t in k.loading)
            && Awaited(s, t, Ptracer(s, t).value) && Ptracer(s, t).value in k.dead
            && (!k.births[t].sharesParent || s.recs[t].parent.Some? || Inherits(s.recs[t], k.births[t]))
    ensures HandledTwice(s, t, ev, k) && !AbortsAgain(s, t, ev, k) ==>
              NewChild(Told(s, t, ev, k), t, k.births[t]) == Told(s, t, ev, k)
  {
    hide SoundBut, HandledTwice, HandledFirst, Awaited, Told, GetTracee, Adopted, Inherits;
    HandledTwiceIff(s, t, ev, k);
    TwiceIsTraced(s, t, ev, k);
    if HandledTwice(s, t, ev, k) {
      BornTwice(s, t, ev, k);
      var s' := Told(s, t, ev, k);
      SecondBirth(s', GetTracee(s, k.births[t].child, k.births[t].pid).1, t, k.births[t]);
    }
  }

  lemma TwiceIsTraced<Id>(s: State<Id>, t: Id, ev: Event, k: Kernel<Id>)
    requires t in s.recs && Ordered(s)
    ensures HandledTwice(s, t, ev, k) ==> Ptracer(s, t).Some?
  {}

  /** The second handling of a fork event meets the assertion of new_child(), and fails it. */
  predicate AbortsAgain<Id>(s: State<Id>, t: Id, ev: Event, k: Kernel<Id>)
    requires t in s.recs && Ordered(s) && t in k.births
  {
    HandledTwice(s, t, ev, k) &&
    var b, s' := k.births[t], Told(s, t, ev, k);
    Unused(s', b.child, b.pid) && var (s1, c) := GetTracee(s', b.child, b.pid); !Adoptable(s1, c)
  }

  // ----- Exits of system calls -----

  /** Of the stops of system calls, those at the exit are handled twice, if the ptracer sees them. */
  lemma ExitTwiceIff<Id>(s: State<Id>, t: Id, k: Kernel<Id>)
    requires Sound(s) && Ordered(s) && t in s.recs
    ensures HandledTwice(s, t, SyscallStop, k)
       <==> && Registered(s, Ptracer(s, t)) && s.recs[t].inSysexit
            && s.recs[t].asPtracee.tracingStarted && !s.recs[t].asPtracee.ignoreSyscalls && t !in k.loading
            && Awaited(s, t, Ptracer(s, t).value) && Ptracer(s, t).value in k.dead
  {
    hide SoundBut, Awaited, HandledTwice;
    HandledTwiceIff(s, t, SyscallStop, k);
  }

  /** The second time, the exit is taken for an entry: the exit stage was the first. */
  lemma ExitThenEntry<Id>(s: State<Id>, t: Id, k: Kernel<Id>)
    requires Sound(s) && Ordered(s) && t in s.recs && HandledTwice(s, t, SyscallStop, k) && t !in k.untranslated
    ensures InExitStage(s, t, SyscallStop, k)
    ensures var s' := Told(s, t, SyscallStop, k);
            && !InExitStage(s', t, SyscallStop, k)
            && Stop(s, t, SyscallStop, k) == Restart(QuietEvent(s', t, SyscallStop, k), t, k).0
  {
    hide SoundBut, First, Begun, Tell, PtraceeEvent, QuietEvent, Restart, Stop, Awaited, SetProot;
    var p := Ptracer(s, t).value;
    ParentIsRegistered(s, t);
    FirstIsTold(s, t, SyscallStop, k);
    ToldFirst(s, t, p, SyscallStop, k);
    var sifted := Sift(s.recs[t], SyscallStop, t in k.loading);
    var s0 := Begun(s, t, SyscallStop, sifted.starts);
    BegunLinks(s, t, SyscallStop, sifted.starts);
    ExitIsOver(s0, t, k);
    TellKeepsOthers(First(s0, t, SyscallStop, k), t, p, sifted.event, k);
    StopTwice(s, t, SyscallStop, k);
    EntryIsQuiet(Told(s, t, SyscallStop, k), t, k);
  }

  lemma ExitIsOver<Id>(s: State<Id>, t: Id, k: Kernel<Id>)
    requires t in s.recs && Ordered(s) && InExitStage(s, t, SyscallStop, k)
    ensures t in First(s, t, SyscallStop, k).recs && !First(s, t, SyscallStop, k).recs[t].inSysexit
  {
    hide ExitStage;
    var s1 := SetSysexit(ExitStage(s, t, k), t, false);
    ClearLinks(s1, t);
    ProotLone(ClearProot(s1, t), t, EventSlot(SignalStop(0), ClearProot(s1, t).recs[t].asPtracee.proot.pending));
    hide ClearProot, SetProot;
  }

  lemma EntryIsQuiet<Id>(s: State<Id>, t: Id, k: Kernel<Id>)
    requires t in s.recs && Ordered(s) && !s.recs[t].inSysexit
    ensures TraceeEvent(s, t, SyscallStop, k) == QuietEvent(s, t, SyscallStop, k)
  {
    hide QuietEvent, ExitStage, NewChild;
  }
}
