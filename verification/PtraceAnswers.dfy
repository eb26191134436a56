/**
 * What wait4(2) answers, and what it reads, in terms of the registry: who traces whom, who is
 * stopped with an event that is not read, and which zombies there are.
 */
module PtraceAnswers {
  import opened Wrappers
  import opened PtraceState
  import opened PtraceEmulation
  import opened PtraceConservation
  import opened PtraceWakeups

  // ----- What there is to read -----

  /** A wait for any pid or for that one; for clones, for others, or with __WALL for both. */
  predicate Asks(pid: int, options: WaitOptions, ofPid: int, clone: bool) {
    (pid == -1 || pid == ofPid) && (options.wall || (options.clone <==> clone))
  }

  predicate AsksZombie<Id>(s: State<Id>, p: Id, pid: int, options: WaitOptions, i: nat)
    requires p in s.recs
  {
    var zombies := s.recs[p].asPtracer.zombies;
    i < |zombies| && Asks(pid, options, zombies[i].pid, zombies[i].clone)
  }

  /** A ptracee of p that the wait is for. */
  predicate AsksTracee<Id>(s: State<Id>, p: Id, pid: int, options: WaitOptions, t: Id)
    requires t in s.recs
  {
    s.recs[t].asPtracee.ptracer == Some(p) && Asks(pid, options, s.recs[t].pid, s.recs[t].clone)
  }

  /** One that is stopped, and has an event for p. */
  predicate Readable<Id>(s: State<Id>, p: Id, pid: int, options: WaitOptions, t: Id)
    requires t in s.recs
  {
    AsksTracee(s, p, pid, options, t) && !s.recs[t].running && s.recs[t].asPtracee.event.pending
  }

  /** Zombies come first, the last dead before the others. */
  predicate PicksZombie<Id>(s: State<Id>, p: Id, pid: int, options: WaitOptions, i: nat)
    requires p in s.recs
  {
    AsksZombie(s, p, pid, options, i) && forall j: nat :: j < i ==> !AsksZombie(s, p, pid, options, j)
  }

  ghost predicate NoZombie<Id>(s: State<Id>, p: Id, pid: int, options: WaitOptions)
    requires p in s.recs
  {
    forall i: nat :: !AsksZombie(s, p, pid, options, i)
  }

  predicate FirstReadable<Id>(s: State<Id>, p: Id, pid: int, options: WaitOptions, at: nat)
    requires Ordered(s)
  {
    && at < |s.order| && Readable(s, p, pid, options, s.order[at])
    && forall j: nat :: j < at ==> !Readable(s, p, pid, options, s.order[j])
  }

  /** Then tracees, in the order of the list. */
  ghost predicate PicksTracee<Id>(s: State<Id>, p: Id, pid: int, options: WaitOptions, t: Id)
    requires p in s.recs && Ordered(s)
  {
    NoZombie(s, p, pid, options) && exists at: nat :: FirstReadable(s, p, pid, options, at) && s.order[at] == t
  }

  ghost predicate PicksNobody<Id>(s: State<Id>, p: Id, pid: int, options: WaitOptions)
    requires p in s.recs
  {
    NoZombie(s, p, pid, options) && forall t | t in s.recs :: !Readable(s, p, pid, options, t)
  }

  /** There is a ptracee, or a zombie, that the wait is for. */
  ghost predicate HasAny<Id>(s: State<Id>, p: Id, pid: int, options: WaitOptions)
    requires p in s.recs
  {
    !NoZombie(s, p, pid, options) || exists t :: t in s.recs && AsksTracee(s, p, pid, options, t)
  }

  // ----- get_ptracee() finds it -----

  lemma {:induction false} FirstZombieIs<Id>(zombies: seq<Zombie<Id>>, pid: int, options: WaitOptions)
    ensures var i := FirstZombie(zombies, pid, options);
            && (i < |zombies| ==> Asks(pid, options, zombies[i].pid, zombies[i].clone))
            && forall j: nat :: j < i ==> !Asks(pid, options, zombies[j].pid, zombies[j].clone)
  {
    if zombies != [] {
      FirstZombieIs(zombies[1..], pid, options);
      assert forall j: nat :: 0 < j < |zombies| ==> zombies[j] == zombies[1..][j - 1];
    }
  }

  lemma PicksOneZombie<Id>(s: State<Id>, p: Id, pid: int, options: WaitOptions)
    requires p in s.recs
    ensures var i := FirstZombie(AsTracer(s, p).zombies, pid, options);
            && (i < |AsTracer(s, p).zombies| <==> !NoZombie(s, p, pid, options))
            && (i < |AsTracer(s, p).zombies| ==> PicksZombie(s, p, pid, options, i))
  {
    var zombies := AsTracer(s, p).zombies;
    var i := FirstZombie(zombies, pid, options);
    FirstZombieIs(zombies, pid, options);
    if i < |zombies| { assert AsksZombie(s, p, pid, options, i); }
  }

  lemma {:induction false} FirstTraceeIs<Id>(list: seq<Id>, s: State<Id>, p: Id, pid: int, options: WaitOptions)
    requires Named(s) && (forall t <- list :: t in s.recs) && Distinct(list)
    ensures var r := FirstPtracee(list, s.recs, p, pid, true, true, options);
            && (r.Nobody? <==> forall j: nat :: j < |list| ==> !Readable(s, p, pid, options, list[j]))
            && (r.ATracee? ==> exists at: nat :: at < |list| && list[at] == r.t && Readable(s, p, pid, options, r.t)
                                 && forall j: nat :: j < at ==> !Readable(s, p, pid, options, list[j]))
  {
    if list != [] {
      var rest := list[1..];
      var r, r1 := FirstPtracee(list, s.recs, p, pid, true, true, options), FirstPtracee(rest, s.recs, p, pid, true, true, options);
      FirstTraceeIs(rest, s, p, pid, options);
      assert forall j: nat :: 0 < j < |list| ==> list[j] == rest[j - 1];
      if Readable(s, p, pid, options, list[0]) {
        assert r == ATracee(list[0]);
      } else {
        if pid == s.recs[list[0]].pid { OnlyOne(list, s, p, pid, options); }
        if r1.ATracee? {
          var at: nat :| at < |rest| && rest[at] == r1.t && Readable(s, p, pid, options, r1.t)
                         && forall j: nat :: j < at ==> !Readable(s, p, pid, options, rest[j]);
          assert list[at + 1] == r1.t;
          assert forall j: nat :: j < at + 1 ==> j == 0 || list[j] == rest[j - 1];
        }
      }
    }
  }

  /** A pid names one tracee. */
  lemma OnlyOne<Id>(list: seq<Id>, s: State<Id>, p: Id, pid: int, options: WaitOptions)
    requires Named(s) && (forall t <- list :: t in s.recs) && Distinct(list) && list != [] && pid == s.recs[list[0]].pid
    ensures forall j: nat :: 0 < j < |list| ==> !Readable(s, p, pid, options, list[j])
  {
    forall j: nat | 0 < j < |list| ensures !Readable(s, p, pid, options, list[j]) {
      assert s.recs[list[j]].pid > 0 && list[j] in list;
    }
  }

  lemma {:induction false} AnyTraceeIs<Id>(list: seq<Id>, s: State<Id>, p: Id, pid: int, onlyPending: bool, options: WaitOptions)
    requires forall t <- list :: t in s.recs
    ensures FirstPtracee(list, s.recs, p, pid, false, onlyPending, options).Nobody?
       <==> forall t <- list :: !AsksTracee(s, p, pid, options, t)
  {
    if list != [] {
      AnyTraceeIs(list[1..], s, p, pid, onlyPending, options);
      assert forall t <- list :: t == list[0] || t in list[1..];
    }
  }

  /** What get_stopped_ptracee() finds among those with an event. */
  lemma FindsWhatIsPicked<Id>(s: State<Id>, p: Id, pid: int, options: WaitOptions)
    requires Settled(s) && p in s.recs
    ensures match GetPtracee(s, p, pid, true, true, options)
            case AZombie(i) => PicksZombie(s, p, pid, options, i)
            case ATracee(t) => PicksTracee(s, p, pid, options, t)
            case Nobody => PicksNobody(s, p, pid, options)
  {
    hide Readable, FirstZombie, FirstPtracee, Named;
    PicksOneZombie(s, p, pid, options);
    FirstTraceeIs(s.order, s, p, pid, options);
    hide AsksZombie;
    var r := FirstPtracee(s.order, s.recs, p, pid, true, true, options);
    if r.ATracee? {
      var at: nat :| at < |s.order| && s.order[at] == r.t && Readable(s, p, pid, options, r.t)
                     && forall j: nat :: j < at ==> !Readable(s, p, pid, options, s.order[j]);
      assert FirstReadable(s, p, pid, options, at);
    } else {
      forall t | t in s.recs ensures !Readable(s, p, pid, options, t) {
        assert t in s.order;
      }
    }
  }

  /** What has_ptracees() finds. */
  lemma FindsAnyIff<Id>(s: State<Id>, p: Id, pid: int, onlyPending: bool, options: WaitOptions)
    requires Enrolled(s) && Ordered(s) && p in s.recs
    ensures GetPtracee(s, p, pid, false, onlyPending, options).Nobody? <==> !HasAny(s, p, pid, options)
  {
    hide AsksTracee, FirstZombie, FirstPtracee;
    PicksOneZombie(s, p, pid, options);
    AnyTraceeIs(s.order, s, p, pid, onlyPending, options);
  }

  /** One pick at most, and one of the three. */
  lemma OnePick<Id>(s: State<Id>, p: Id, pid: int, options: WaitOptions)
    requires p in s.recs && Ordered(s)
    ensures forall i: nat, j: nat :: PicksZombie(s, p, pid, options, i) && PicksZombie(s, p, pid, options, j) ==> i == j
    ensures forall i: nat :: PicksZombie(s, p, pid, options, i) ==> !NoZombie(s, p, pid, options)
    ensures forall t, u :: PicksTracee(s, p, pid, options, t) && PicksTracee(s, p, pid, options, u) ==> t == u
    ensures forall t :: PicksTracee(s, p, pid, options, t) ==> t in s.recs && Readable(s, p, pid, options, t)
  {
    hide AsksZombie, Readable;
    forall t, u | PicksTracee(s, p, pid, options, t) && PicksTracee(s, p, pid, options, u) ensures t == u {
      var a: nat :| FirstReadable(s, p, pid, options, a) && s.order[a] == t;
      var b: nat :| FirstReadable(s, p, pid, options, b) && s.order[b] == u;
      assert a == b;
    }
  }

  // ----- What a wait does with it -----

  /** Of the registry, the wait changes what is said of p as a ptracer, and of t as a ptracee if there is one. */
  predicate Leaves<Id(==)>(s: State<Id>, s': State<Id>, p: Id, a: AsPtracer<Id>, t: Option<Id>, e: AsPtracee<Id>)
    requires p in s.recs
  {
    && s'.order == s.order && s'.recs.Keys == s.recs.Keys && t != Some(p)
    && s'.recs[p] == s.recs[p].(asPtracer := a)
    && forall x | x in s.recs && x != p :: s'.recs[x] == if t == Some(x) then s.recs[x].(asPtracee := e) else s.recs[x]
  }

  /** A registry in which lookups mean something: truthful runs lead to no other. */
  ghost predicate Settled<Id>(s: State<Id>) { Sound(s) && Named(s) && Enrolled(s) && Ordered(s) }

  /** p, not waiting any more. */
  function Awake<Id>(s: State<Id>, p: Id): AsPtracer<Id>
    requires p in s.recs
  {
    s.recs[p].asPtracer.(waitsIn := DoesntWait)
  }

  lemma AwakeLooksTheSame<Id>(s: State<Id>, p: Id, pid: int, options: WaitOptions)
    requires Settled(s) && p in s.recs
    ensures var s1 := SetPtracer(s, p, Awake(s, p));
            && Settled(s1) && Leaves(s, s1, p, Awake(s, p), None, Untraced())
            && GetPtracee(s1, p, pid, true, true, options) == GetPtracee(s, p, pid, true, true, options)
            && (GetPtracee(s1, p, pid, false, false, options).Nobody? <==> !HasAny(s, p, pid, options))
  {
    var s1 := SetPtracer(s, p, Awake(s, p));
    SetPtracerKeeps(s, p, Awake(s, p), {});
    StaysNamed(s, s1);
    NobodyTracesItself(s, p);
    hide SoundBut;
    FindsTheSame(s, s1, p, pid, options);
    FindsAnyIff(s1, p, pid, false, options);
    forall t | t in s.recs ensures AsksTracee(s1, p, pid, options, t) <==> AsksTracee(s, p, pid, options, t) {}
    forall i: nat ensures AsksZombie(s1, p, pid, options, i) <==> AsksZombie(s, p, pid, options, i) {}
    hide GetPtracee, AsksTracee, AsksZombie;
  }

  lemma NobodyTracesItself<Id>(s: State<Id>, p: Id)
    requires Sound(s) && p in s.recs
    ensures Ptracer(s, p) != Some(p)
  {}

  /**
   * A zombie is picked. One of p's own is left to the kernel, and the wait is made again; else its
   * pid is reported, if the status can be written.
   */
  lemma ZombieRead<Id>(s: State<Id>, p: Id, pid: int, options: WaitOptions, k: Kernel<Id>, i: nat)
    requires Settled(s) && p in s.recs && PicksZombie(s, p, pid, options, i)
    ensures var (s', r) := WaitExit(s, p, pid, options, k);
            var a := Awake(s, p);
            var z := a.zombies[i];
            var buried := a.(nbPtracees := a.nbPtracees - 1, zombies := a.zombies[..i] + a.zombies[i + 1..]);
            && r == Status(if z.parent == Some(p) then Again else if p in k.faulty then Fails else Reports(z.pid))
            && Leaves(s, s', p, if r == Status(Fails) then a else buried, None, Untraced())
  {
    hide GetPtracee, Named, Enrolled, SoundBut, PicksNobody, PicksTracee;
    AwakeLooksTheSame(s, p, pid, options);
    FindsWhatIsPicked(s, p, pid, options);
    OnePick(s, p, pid, options);
    NobodyIsNoZombie(s, p, pid, options);
    hide AsksZombie;
    assert GetPtracee(s, p, pid, true, true, options) == AZombie(i);
  }

  lemma NobodyIsNoZombie<Id>(s: State<Id>, p: Id, pid: int, options: WaitOptions)
    requires p in s.recs && Ordered(s)
    ensures PicksNobody(s, p, pid, options) ==> NoZombie(s, p, pid, options)
    ensures forall t :: PicksTracee(s, p, pid, options, t) ==> NoZombie(s, p, pid, options)
  {}

  /** A tracee is picked: the same, but that its event is marked as read, or that it is detached. */
  lemma TraceeRead<Id>(s: State<Id>, p: Id, pid: int, options: WaitOptions, k: Kernel<Id>, t: Id)
    requires Settled(s) && p in s.recs && PicksTracee(s, p, pid, options, t)
    ensures t in s.recs && t != p
    ensures var (s', r) := WaitExit(s, p, pid, options, k);
            var a, e := Awake(s, p), s.recs[t].asPtracee;
            var own := s.recs[t].parent == Some(p) && e.event.value.IsDeath();
            && r == Status(if own then Again else if p in k.faulty then Fails else Reports(s.recs[t].pid))
            && Leaves(s, s', p, if own then a.(nbPtracees := a.nbPtracees - 1) else a, Some(t),
                      if own then e.(ptracer := None)
                      else if p in k.faulty then e else e.(event := e.event.(pending := false)))
  {
    hide GetPtracee, Named, Enrolled, SoundBut, PicksNobody, PicksTracee, PicksZombie, NoZombie, AsksZombie, Leaves, HasAny;
    NobodyTracesItself(s, p);
    TraceeIsFound(s, p, pid, options, t);
    AwakeLooksTheSame(s, p, pid, options);
    hide Readable;
    var s1 := SetPtracer(s, p, Awake(s, p));
    SameTracee(s, s1, p, t);
    TraceeIsRead(s1, p, t, k);
    hide SetPtracer, ReadTracee;
    var own := OwnDeath(s, p, t);
    var a, e := Awake(s, p), s.recs[t].asPtracee;
    LeavesThen(s, s1, ReadTracee(s1, p, t, k).0, p, a, if own then a.(nbPtracees := a.nbPtracees - 1) else a, t,
               if own then e.(ptracer := None) else if p in k.faulty then e else e.(event := e.event.(pending := false)));
    hide Leaves;
  }

  lemma TraceeIsFound<Id>(s: State<Id>, p: Id, pid: int, options: WaitOptions, t: Id)
    requires Settled(s) && p in s.recs && PicksTracee(s, p, pid, options, t)
    ensures t in s.recs && Ptracer(s, t) == Some(p) && GetPtracee(s, p, pid, true, true, options) == ATracee(t)
  {
    hide GetPtracee, SoundBut, Named, Enrolled, PicksNobody, PicksTracee, AsksZombie;
    FindsWhatIsPicked(s, p, pid, options);
    OnePick(s, p, pid, options);
    NobodyIsNoZombie(s, p, pid, options);
    PicksSomebody(s, p, pid, options);
    PicksNoZombie(s, p, pid, options);
    hide PicksZombie, NoZombie;
  }

  lemma SameTracee<Id>(s: State<Id>, s1: State<Id>, p: Id, t: Id)
    requires p in s.recs && t in s.recs && t != p && Leaves(s, s1, p, Awake(s, p), None, Untraced())
    ensures s1.recs.Keys == s.recs.Keys && s1.recs[t] == s.recs[t] && s1.recs[p].asPtracer == Awake(s, p)
  {}

  lemma LeavesThen<Id>(s: State<Id>, s1: State<Id>, s': State<Id>, p: Id, a: AsPtracer<Id>, a': AsPtracer<Id>, t: Id, e: AsPtracee<Id>)
    requires p in s.recs && Leaves(s, s1, p, a, None, Untraced()) && Leaves(s1, s', p, a', Some(t), e)
    ensures Leaves(s, s', p, a', Some(t), e)
  {}

  lemma PicksSomebody<Id>(s: State<Id>, p: Id, pid: int, options: WaitOptions)
    requires p in s.recs && Ordered(s)
    ensures forall t :: PicksTracee(s, p, pid, options, t) ==> !PicksNobody(s, p, pid, options)
  {
    hide Readable, NoZombie;
  }

  lemma TraceeIsRead<Id>(s: State<Id>, p: Id, t: Id, k: Kernel<Id>)
    requires p in s.recs && t in s.recs && t != p && Ptracer(s, t) == Some(p)
    ensures var (s', r) := ReadTracee(s, p, t, k);
            var a, e := s.recs[p].asPtracer, s.recs[t].asPtracee;
            var own := s.recs[t].parent == Some(p) && e.event.value.IsDeath();
            && r == (if own then Again else if p in k.faulty then Fails else Reports(s.recs[t].pid))
            && Leaves(s, s', p, if own then a.(nbPtracees := a.nbPtracees - 1) else a, Some(t),
                      if own then e.(ptracer := None)
                      else if p in k.faulty then e else e.(event := e.event.(pending := false)))
  {}

  /**
   * Nobody is picked: -ECHILD without any ptracee; with WNOHANG, 0 or -ECHILD, whether there is one
   * the wait is for; otherwise p is blocked in that wait.
   */
  lemma NothingRead<Id>(s: State<Id>, p: Id, pid: int, options: WaitOptions, k: Kernel<Id>)
    requires Settled(s) && p in s.recs && PicksNobody(s, p, pid, options)
    ensures var (s', r) := WaitExit(s, p, pid, options, k);
            var a := Awake(s, p);
            && r == (if !Traces(s, p) then NoChild
                     else if !options.noHang then Blocks
                     else if HasAny(s, p, pid, options) then NothingYet else NoChild)
            && Leaves(s, s', p, if r.Blocks? then a.(waitPid := pid, waitOptions := options) else a, None, Untraced())
  {
    hide GetPtracee, Named, Enrolled, SoundBut, PicksTracee, PicksZombie, HasAny, Traces;
    AwakeLooksTheSame(s, p, pid, options);
    FindsWhatIsPicked(s, p, pid, options);
    OnePick(s, p, pid, options);
    NobodyIsNoZombie(s, p, pid, options);
    PicksSomebody(s, p, pid, options);
    PicksNoZombie(s, p, pid, options);
    TracesIff(s, p);
    assert GetPtracee(s, p, pid, true, true, options) == Nobody;
    hide AsksZombie, NoZombie, PicksNobody;
  }

  lemma PicksNoZombie<Id>(s: State<Id>, p: Id, pid: int, options: WaitOptions)
    requires p in s.recs
    ensures forall i: nat :: PicksZombie(s, p, pid, options, i) ==> !NoZombie(s, p, pid, options)
  {
    hide AsksZombie;
  }

  /** p has a ptracee, or a zombie. */
  ghost predicate Traces<Id>(s: State<Id>, p: Id)
    requires p in s.recs
  {
    s.recs[p].asPtracer.zombies != [] || exists t :: t in s.recs && s.recs[t].asPtracee.ptracer == Some(p)
  }

  lemma TracesIff<Id>(s: State<Id>, p: Id)
    requires Sound(s) && p in s.recs
    ensures AsTracer(s, p).nbPtracees == 0 <==> !Traces(s, p)
  {
    assert Counted(s, p);
    if t :| t in s.recs && s.recs[t].asPtracee.ptracer == Some(p) { assert t in Ptracees(s, p); }
  }

  // ----- The answers -----

  /** The zombie is one of a child of p: the kernel tells p, too. */
  predicate OwnZombie<Id(==)>(s: State<Id>, p: Id, i: nat)
    requires p in s.recs && i < |s.recs[p].asPtracer.zombies|
  {
    s.recs[p].asPtracer.zombies[i].parent == Some(p)
  }

  predicate OwnDeath<Id>(s: State<Id>, p: Id, t: Id)
    requires t in s.recs
  {
    s.recs[t].parent == Some(p) && s.recs[t].asPtracee.event.value.IsDeath()
  }

  /** What is picked, with its pid, and whether the kernel tells p of it, too. */
  ghost predicate Picks<Id>(s: State<Id>, p: Id, pid: int, options: WaitOptions, n: int, own: bool)
    requires p in s.recs && Ordered(s)
  {
    || (exists i: nat :: i < |s.recs[p].asPtracer.zombies| && PicksZombie(s, p, pid, options, i)
                         && own == OwnZombie(s, p, i) && s.recs[p].asPtracer.zombies[i].pid == n)
    || (exists t :: t in s.recs && PicksTracee(s, p, pid, options, t) && own == OwnDeath(s, p, t) && s.recs[t].pid == n)
  }

  lemma WaitCases<Id>(s: State<Id>, p: Id, pid: int, options: WaitOptions, k: Kernel<Id>)
    requires Settled(s) && p in s.recs
    ensures var r := WaitExit(s, p, pid, options, k).1;
            && (PicksNobody(s, p, pid, options) <==> forall n, own :: !Picks(s, p, pid, options, n, own))
            && (forall n, own :: Picks(s, p, pid, options, n, own) ==>
                  r == Status(if own then Again else if p in k.faulty then Fails else Reports(n)))
  {
    hide WaitExit, PicksZombie, PicksTracee, PicksNobody, SoundBut, Named, Enrolled, Leaves, GetPtracee, NoZombie;
    forall n, own | Picks(s, p, pid, options, n, own)
      ensures WaitExit(s, p, pid, options, k).1 == Status(if own then Again else if p in k.faulty then Fails else Reports(n))
      ensures !PicksNobody(s, p, pid, options)
    {
      if i: nat :| i < |s.recs[p].asPtracer.zombies| && PicksZombie(s, p, pid, options, i)
                   && own == OwnZombie(s, p, i) && s.recs[p].asPtracer.zombies[i].pid == n {
        ZombieRead(s, p, pid, options, k, i);
        PicksNoZombie(s, p, pid, options);
        NobodyIsNoZombie(s, p, pid, options);
      } else {
        var t :| t in s.recs && PicksTracee(s, p, pid, options, t) && own == OwnDeath(s, p, t) && s.recs[t].pid == n;
        TraceeRead(s, p, pid, options, k, t);
        PicksSomebody(s, p, pid, options);
      }
    }
    FindsWhatIsPicked(s, p, pid, options);
    match GetPtracee(s, p, pid, true, true, options) {
      case AZombie(i) => assert Picks(s, p, pid, options, AsTracer(s, p).zombies[i].pid, OwnZombie(s, p, i));
      case ATracee(t) => assert Picks(s, p, pid, options, s.recs[t].pid, OwnDeath(s, p, t));
      case Nobody =>
    }
  }

  /** A pid is the answer exactly if it is that of what is picked, the status can be written, and the kernel does not tell p. */
  lemma ReportsIff<Id>(s: State<Id>, p: Id, pid: int, options: WaitOptions, k: Kernel<Id>, n: int)
    requires Settled(s) && p in s.recs
    ensures WaitExit(s, p, pid, options, k).1 == Status(Reports(n)) <==> p !in k.faulty && Picks(s, p, pid, options, n, false)
  {
    AnswersAre(s, p, pid, options, k);
    hide *;
  }

  /** An error is the answer exactly if something is picked, the kernel does not tell p, and the status cannot be written. */
  lemma FailsIff<Id>(s: State<Id>, p: Id, pid: int, options: WaitOptions, k: Kernel<Id>)
    requires Settled(s) && p in s.recs
    ensures WaitExit(s, p, pid, options, k).1 == Status(Fails) <==> p in k.faulty && exists n :: Picks(s, p, pid, options, n, false)
  {
    AnswersAre(s, p, pid, options, k);
    hide *;
  }

  /** The wait is made again exactly if it picks the death of a child of p. */
  lemma AgainIff<Id>(s: State<Id>, p: Id, pid: int, options: WaitOptions, k: Kernel<Id>)
    requires Settled(s) && p in s.recs
    ensures WaitExit(s, p, pid, options, k).1 == Status(Again) <==> exists n :: Picks(s, p, pid, options, n, true)
  {
    AnswersAre(s, p, pid, options, k);
    hide *;
  }

  /** 0 is the answer exactly with WNOHANG, for a ptracee that the wait is for, when there is nothing to read. */
  lemma NothingYetIff<Id>(s: State<Id>, p: Id, pid: int, options: WaitOptions, k: Kernel<Id>)
    requires Settled(s) && p in s.recs
    ensures WaitExit(s, p, pid, options, k).1 == NothingYet
       <==> options.noHang && PicksNobody(s, p, pid, options)
            && exists t :: t in s.recs && AsksTracee(s, p, pid, options, t)
  {
    AnswersAre(s, p, pid, options, k);
    AnyTraces(s, p, pid, options);
    hide WaitExit, AsksTracee;
  }

  /** -ECHILD is the answer exactly if p has no ptracee at all, or with WNOHANG none that the wait is for. */
  lemma NoChildIff<Id>(s: State<Id>, p: Id, pid: int, options: WaitOptions, k: Kernel<Id>)
    requires Settled(s) && p in s.recs
    ensures WaitExit(s, p, pid, options, k).1 == NoChild
       <==> NoZombie(s, p, pid, options)
            && (forall t | t in s.recs :: !AsksTracee(s, p, pid, options, t)) && (options.noHang || !Traces(s, p))
  {
    AnswersAre(s, p, pid, options, k);
    AnyTraces(s, p, pid, options);
    hide WaitExit, AsksTracee;
  }

  /** p is blocked exactly without WNOHANG, as a ptracer, when there is nothing to read. */
  lemma BlocksIff<Id>(s: State<Id>, p: Id, pid: int, options: WaitOptions, k: Kernel<Id>)
    requires Settled(s) && p in s.recs
    ensures WaitExit(s, p, pid, options, k).1 == Blocks
       <==> !options.noHang && Traces(s, p) && PicksNobody(s, p, pid, options)
  {
    AnswersAre(s, p, pid, options, k);
    hide *;
  }

  lemma AnyTraces<Id>(s: State<Id>, p: Id, pid: int, options: WaitOptions)
    requires p in s.recs
    ensures HasAny(s, p, pid, options) ==> Traces(s, p)
    ensures PicksNobody(s, p, pid, options) ==> (HasAny(s, p, pid, options) <==> exists t :: t in s.recs && AsksTracee(s, p, pid, options, t))
  {}

  lemma AnswersAre<Id>(s: State<Id>, p: Id, pid: int, options: WaitOptions, k: Kernel<Id>)
    requires Settled(s) && p in s.recs
    ensures var r := WaitExit(s, p, pid, options, k).1;
            && (PicksNobody(s, p, pid, options) <==> forall n, own :: !Picks(s, p, pid, options, n, own))
            && (forall n, own :: Picks(s, p, pid, options, n, own) ==>
                  r == Status(if own then Again else if p in k.faulty then Fails else Reports(n)))
            && (PicksNobody(s, p, pid, options) ==>
                  r == if !Traces(s, p) then NoChild
                       else if !options.noHang then Blocks
                       else if HasAny(s, p, pid, options) then NothingYet else NoChild)
  {
    WaitCases(s, p, pid, options, k);
    if PicksNobody(s, p, pid, options) { NothingRead(s, p, pid, options, k); }
    hide *;
  }

  // ----- Whose wait it is -----

  /**
   * A wait is emulated exactly for a ptracer, if it is for any pid or there is a ptracee it is
   * for; else it is the kernel's.
   */
  lemma WaitIsEmulatedIff<Id>(s: State<Id>, p: Id, pid: int, options: WaitOptions)
    requires Sound(s) && Enrolled(s) && Ordered(s) && p in s.recs
    ensures var emulated := Traces(s, p) && (pid == -1 || HasAny(s, p, pid, options));
            Leaves(s, WaitEnter(s, p, pid, options), p,
                   s.recs[p].asPtracer.(waitsIn := if emulated then WaitsInProot else WaitsInKernel), None, Untraced())
  {
    hide GetPtracee, SoundBut, Traces, HasAny, Enrolled;
    TracesIff(s, p);
    KernelLooksTheSame(s, p, pid, options);
  }

  lemma KernelLooksTheSame<Id>(s: State<Id>, p: Id, pid: int, options: WaitOptions)
    requires Enrolled(s) && Ordered(s) && p in s.recs
    ensures var s1 := SetPtracer(s, p, s.recs[p].asPtracer.(waitsIn := WaitsInKernel));
            GetPtracee(s1, p, pid, false, true, options).Nobody? <==> !HasAny(s, p, pid, options)
  {
    hide GetPtracee;
    var s1 := SetPtracer(s, p, s.recs[p].asPtracer.(waitsIn := WaitsInKernel));
    FindsAnyIff(s1, p, pid, true, options);
    forall t | t in s.recs ensures AsksTracee(s1, p, pid, options, t) <==> AsksTracee(s, p, pid, options, t) {}
    forall i: nat ensures AsksZombie(s1, p, pid, options, i) <==> AsksZombie(s, p, pid, options, i) {}
    hide AsksTracee, AsksZombie;
  }
}
