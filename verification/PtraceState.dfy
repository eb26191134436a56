/**
 * The registry of tracees and the emulated ptrace relation between them. Id identifies a
 * tracee: nothing is asked of it but equality.
 */
module PtraceState {
  import opened Wrappers

  // ----- Tracees -----

  datatype TraceOption = TraceSysgood | TraceFork | TraceVfork | TraceVforkDone | TraceClone | TraceExit | TraceExec

  /** What waitpid(2) reports about a tracee. */
  datatype Event =
    | SyscallStop
    | ForkStop
    | VforkStop
    | VforkDoneStop
    | CloneStop
    | ExitStop
    | ExecStop
    | SeccompStop
    | SignalStop(signal: nat)
    | Exited(code: nat)
    | Signaled(signal: nat)
  {
    predicate IsDeath() { Exited? || Signaled? }
  }

  datatype EventSlot = EventSlot(value: Event, pending: bool)

  datatype WaitsIn = DoesntWait | WaitsInKernel | WaitsInProot

  datatype WaitOptions = WaitOptions(noHang: bool, wall: bool, clone: bool)

  /** What is kept of a dead tracee until its ptracer has read how it died. */
  datatype Zombie<Id> = Zombie(pid: int, clone: bool, parent: Option<Id>, death: Event)

  datatype AsPtracer<Id> = AsPtracer(
    nbPtracees: int, zombies: seq<Zombie<Id>>, waitPid: int, waitOptions: WaitOptions, waitsIn: WaitsIn)

  datatype AsPtracee<Id> = AsPtracee(
    ptracer: Option<Id>, proot: EventSlot, event: EventSlot, tracingStarted: bool,
    ignoreSyscalls: bool, options: set<TraceOption>)

  datatype Tracee<Id> = Tracee(
    pid: int, running: bool, terminated: bool, parent: Option<Id>, clone: bool, inSysexit: bool,
    sigstopAllowed: bool, asPtracer: AsPtracer<Id>, asPtracee: AsPtracee<Id>)

  const NO_EVENT := EventSlot(SignalStop(0), false)

  /** bzero(&as_ptracee) */
  function Untraced<Id>(): AsPtracee<Id> {
    AsPtracee(None, NO_EVENT, NO_EVENT, false, false, {})
  }

  /** A zeroed entry with a pid. */
  function Fresh<Id>(pid: int): Tracee<Id> {
    Tracee(pid, false, false, None, false, false, false,
           AsPtracer(0, [], 0, WaitOptions(false, false, false), DoesntWait), Untraced())
  }

  /** The list of tracees, and its entries. */
  datatype State<Id> = State(order: seq<Id>, recs: map<Id, Tracee<Id>>)

  // ----- Elementary changes -----

  /** The same tracees, in the same order. */
  predicate Same<Id(==)>(s: State<Id>, s': State<Id>) {
    s'.order == s.order && s'.recs.Keys == s.recs.Keys && forall t | t in s.recs :: s'.recs[t].pid == s.recs[t].pid
  }

  function With<Id>(s: State<Id>, t: Id, r: Tracee<Id>): (s': State<Id>)
    requires t in s.recs && r.pid == s.recs[t].pid
    ensures Same(s, s')
  {
    s.(recs := s.recs[t := r])
  }

  function Ptracer<Id>(s: State<Id>, t: Id): Option<Id>
    requires t in s.recs
  {
    s.recs[t].asPtracee.ptracer
  }

  function AddPtracees<Id>(s: State<Id>, p: Id, n: int): (s': State<Id>)
    requires p in s.recs
    ensures Same(s, s')
  {
    var r := s.recs[p];
    With(s, p, r.(asPtracer := r.asPtracer.(nbPtracees := r.asPtracer.nbPtracees + n)))
  }

  function SetPtracee<Id>(s: State<Id>, t: Id, e: AsPtracee<Id>): (s': State<Id>)
    requires t in s.recs
    ensures Same(s, s')
  {
    With(s, t, s.recs[t].(asPtracee := e))
  }

  /** attach_to_ptracer() */
  function Attach<Id>(s: State<Id>, t: Id, p: Id): (s': State<Id>)
    requires t in s.recs && p in s.recs
    ensures Same(s, s')
  {
    AddPtracees(SetPtracee(s, t, Untraced().(ptracer := Some(p))), p, 1)
  }

  /** detach_from_ptracer() */
  function Detach<Id>(s: State<Id>, t: Id): (s': State<Id>)
    requires t in s.recs && Ptracer(s, t).Some? && Ptracer(s, t).value in s.recs
    ensures Same(s, s')
  {
    AddPtracees(SetPtracee(s, t, s.recs[t].asPtracee.(ptracer := None)), Ptracer(s, t).value, -1)
  }

  // ----- Invariants -----

  predicate Distinct<Id(==)>(list: seq<Id>) {
    forall i, j :: 0 <= i < j < |list| ==> list[i] != list[j]
  }

  /** The list holds registered tracees, none twice. */
  predicate Listed<Id>(s: State<Id>) {
    Distinct(s.order) && forall t <- s.order :: t in s.recs
  }

  /** Parents and ptracers are registered too, and nobody traces itself. */
  predicate Referenced<Id>(s: State<Id>) {
    && (forall t | t in s.recs :: s.recs[t].parent.Some? ==> s.recs[t].parent.value in s.recs)
    && (forall t | t in s.recs :: Ptracer(s, t).Some? ==> Ptracer(s, t).value in s.recs)
    && (forall t | t in s.recs :: Ptracer(s, t) != Some(t))
  }

  ghost function Ptracees<Id>(s: State<Id>, p: Id): set<Id> {
    set t | t in s.recs && s.recs[t].asPtracee.ptracer == Some(p)
  }

  ghost predicate Counted<Id>(s: State<Id>, p: Id)
    requires p in s.recs
  {
    s.recs[p].asPtracer.nbPtracees == |Ptracees(s, p)| + |s.recs[p].asPtracer.zombies|
  }

  /** Every ptracer, but those on their way out, counts its ptracees: the live ones and the zombies. */
  ghost predicate Conserved<Id>(s: State<Id>, but: set<Id>) {
    forall p | p in s.recs && p !in but :: Counted(s, p)
  }

  ghost predicate SoundBut<Id>(s: State<Id>, but: set<Id>) {
    Listed(s) && Referenced(s) && Conserved(s, but)
  }

  ghost predicate Sound<Id>(s: State<Id>) {
    SoundBut(s, {})
  }

  // ----- Elementary changes keep them -----

  lemma StaysListed<Id>(s: State<Id>, s': State<Id>)
    requires Listed(s) && Same(s, s')
    ensures Listed(s')
  {}

  predicate GoodLinks<Id>(s: State<Id>, t: Id, r: Tracee<Id>)
    requires t in s.recs
  {
    && r.pid == s.recs[t].pid
    && (r.parent.Some? ==> r.parent.value in s.recs)
    && (r.asPtracee.ptracer.Some? ==> r.asPtracee.ptracer.value in s.recs && r.asPtracee.ptracer.value != t)
  }

  lemma LinksAreGood<Id>(s: State<Id>, t: Id)
    requires Referenced(s) && t in s.recs
    ensures GoodLinks(s, t, s.recs[t])
  {}

  lemma StaysReferenced<Id>(s: State<Id>, t: Id, r: Tracee<Id>)
    requires Referenced(s) && t in s.recs && GoodLinks(s, t, r)
    ensures Referenced(With(s, t, r))
  {}

  lemma PtraceesAfter<Id>(s: State<Id>, t: Id, r: Tracee<Id>, q: Id)
    requires t in s.recs && r.pid == s.recs[t].pid
    ensures Ptracees(With(s, t, r), q)
         == if r.asPtracee.ptracer == Some(q) then Ptracees(s, q) + {t} else Ptracees(s, q) - {t}
  {}

  /** t gets a new ptracer, or loses it: how many more or fewer each one has. */
  lemma CountAfter<Id>(s: State<Id>, t: Id, r: Tracee<Id>, q: Id)
    requires t in s.recs && q in s.recs && r.pid == s.recs[t].pid
    ensures var now, before := r.asPtracee.ptracer == Some(q), Ptracer(s, t) == Some(q);
            |Ptracees(With(s, t, r), q)| - |Ptracees(s, q)| == (if now then 1 else 0) - (if before then 1 else 0)
  {
    PtraceesAfter(s, t, r, q);
    assert Ptracer(s, t) == Some(q) <==> t in Ptracees(s, q);
  }

  function Balance<Id>(r: Tracee<Id>): int { r.asPtracer.nbPtracees - |r.asPtracer.zombies| }

  /** A new record for t: it may lose a ptracer on its way out, and must keep its own count right. */
  lemma UpdateKeeps<Id>(s: State<Id>, t: Id, r: Tracee<Id>, but: set<Id>)
    requires SoundBut(s, but) && t in s.recs && GoodLinks(s, t, r) && Balance(r) == Balance(s.recs[t])
    requires || r.asPtracee.ptracer == Ptracer(s, t)
             || (r.asPtracee.ptracer.None? && Ptracer(s, t).value in but)
    ensures SoundBut(With(s, t, r), but)
  {
    hide Listed, Ptracees, Referenced;
    var s' := With(s, t, r);
    StaysListed(s, s');
    StaysReferenced(s, t, r);
    forall q | q in s.recs && q !in but ensures Counted(s', q) {
      assert Counted(s, q);
      CountAfter(s, t, r, q);
    }
  }

  /** One link and one count changed together. */
  lemma LinkAndCount<Id>(s: State<Id>, t: Id, r: Tracee<Id>, p: Id, n: int, but: set<Id>)
    requires SoundBut(s, but) && t in s.recs && p in s.recs && t != p && GoodLinks(s, t, r)
    requires r.asPtracer == s.recs[t].asPtracer
    requires n == 1 ==> Ptracer(s, t).None? && r.asPtracee.ptracer == Some(p)
    requires n == -1 ==> Ptracer(s, t) == Some(p) && r.asPtracee.ptracer.None?
    requires n == 1 || n == -1
    ensures SoundBut(AddPtracees(With(s, t, r), p, n), but)
  {
    hide Listed, Ptracees, Referenced;
    var s1, s2 := With(s, t, r), AddPtracees(With(s, t, r), p, n);
    StaysListed(s, s2);
    StaysReferenced(s, t, r);
    LinksAreGood(s1, p);
    SameGoodLinks(s1, p, s1.recs[p], s2.recs[p]);
    StaysReferenced(s1, p, s2.recs[p]);
    forall q | q in s.recs && q !in but ensures Counted(s2, q) {
      assert Counted(s, q);
      CountAfter(s, t, r, q);
      CountAfter(s1, p, s2.recs[p], q);
    }
  }

  lemma SameGoodLinks<Id>(s: State<Id>, t: Id, r: Tracee<Id>, r': Tracee<Id>)
    requires t in s.recs && GoodLinks(s, t, r) && r'.pid == r.pid && r'.parent == r.parent && r'.asPtracee.ptracer == r.asPtracee.ptracer
    ensures GoodLinks(s, t, r')
  {}

  lemma AttachKeeps<Id>(s: State<Id>, t: Id, p: Id, but: set<Id>)
    requires SoundBut(s, but) && t in s.recs && p in s.recs && t != p && Ptracer(s, t).None?
    ensures SoundBut(Attach(s, t, p), but)
  {
    LinksAreGood(s, t);
    LinkAndCount(s, t, s.recs[t].(asPtracee := Untraced().(ptracer := Some(p))), p, 1, but);
  }

  /** Attaching is sound exactly when the tracee is someone else: the guard that inheritance lacks. */
  lemma AttachIsSoundIff<Id>(s: State<Id>, t: Id, p: Id)
    requires Sound(s) && t in s.recs && p in s.recs && Ptracer(s, t).None?
    ensures Sound(Attach(s, t, p)) <==> t != p
  {
    if t != p { AttachKeeps(s, t, p, {}); }
    else { assert Ptracer(Attach(s, t, p), t) == Some(t); }
  }

  /** The assertion in detach_from_ptracer() never fails. */
  lemma TracedIsCounted<Id>(s: State<Id>, t: Id, but: set<Id>)
    requires SoundBut(s, but) && t in s.recs && Ptracer(s, t).Some? && Ptracer(s, t).value !in but
    ensures Ptracer(s, t).value in s.recs && s.recs[Ptracer(s, t).value].asPtracer.nbPtracees > 0
  {
    var p := Ptracer(s, t).value;
    assert Counted(s, p) && t in Ptracees(s, p);
  }

  lemma DetachKeeps<Id>(s: State<Id>, t: Id, but: set<Id>)
    requires SoundBut(s, but) && t in s.recs && Ptracer(s, t).Some?
    ensures Ptracer(s, t).value in s.recs && SoundBut(Detach(s, t), but)
  {
    LinksAreGood(s, t);
    LinkAndCount(s, t, s.recs[t].(asPtracee := s.recs[t].asPtracee.(ptracer := None)), Ptracer(s, t).value, -1, but);
  }
}
