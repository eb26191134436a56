/**
 * ptrace(2) and wait(2) emulated for tracees that trace each other, as functions from one
 * state of the registry to the next. What the kernel and the tracees decide is in Kernel:
 * it is arbitrary.
 */
module PtraceEmulation {
  import opened Wrappers
  import opened PtraceState

  datatype Request =
    | TraceMe
    | AttachTo(pid: int)
    | Resume(pid: int, ignoreSyscalls: Option<bool>)  // SYSCALL, CONT, SINGLESTEP, SINGLEBLOCK, KILL
    | LetGo(pid: int)                                 // DETACH
    | SetOptions(pid: int, options: set<TraceOption>, seccomp: bool)
    | Inspect(pid: int)                               // all requests on registers and memory

  /** The system call a tracee is in. */
  datatype Call = OtherCall | WaitCall(pid: int, options: WaitOptions) | PtraceCall(request: Request)

  /** A child announced by a fork event. */
  datatype Birth<Id> = Birth(
    child: Id, pid: int, kind: TraceOption, sharesParent: bool, sharesThreads: bool, sharesTracer: bool)

  datatype Kernel<Id> = Kernel(
    calls: map<Id, Call>,          // the system call each tracee is in
    births: map<Id, Birth<Id>>,    // the child each forking tracee has
    untranslated: set<Id>,         // tracees whose registers can not be read
    entered: set<Id>,              // tracees whose exit stage comes next
    loading: set<Id>,              // tracees whose loader is at work
    faulty: set<Id>,               // tracees whose memory can not be written
    dead: set<Id>)                 // tracees that can be neither restarted nor signaled

  const SIGTRAP: nat := 5
  const SIGSTOP: nat := 19

  // ----- Access -----

  function AsTracer<Id>(s: State<Id>, p: Id): AsPtracer<Id>
    requires p in s.recs
  {
    s.recs[p].asPtracer
  }

  function SetPtracer<Id>(s: State<Id>, p: Id, a: AsPtracer<Id>): (s': State<Id>)
    requires p in s.recs
    ensures Same(s, s')
  {
    With(s, p, s.recs[p].(asPtracer := a))
  }

  function CallOf<Id>(k: Kernel<Id>, t: Id): Call {
    if t in k.calls then k.calls[t] else OtherCall
  }

  /** EXPECTED_WAIT_CLONE */
  predicate ExpectedClone(options: WaitOptions, clone: bool) {
    options.wall || options.clone == clone
  }

  predicate WaitsFor(pid: int, options: WaitOptions, ofPid: int, clone: bool) {
    (pid == ofPid || pid == -1) && ExpectedClone(options, clone)
  }

  /** restart_tracee() */
  function Restart<Id>(s: State<Id>, t: Id, k: Kernel<Id>): (r: (State<Id>, bool))
    requires t in s.recs
    ensures Same(s, r.0)
  {
    if AsTracer(s, t).waitPid != 0 || t in k.dead then (s, false)
    else (With(s, t, s.recs[t].(running := true)), true)
  }

  // ----- Lookup -----

  datatype Found<Id> = Nobody | AZombie(at: nat) | ATracee(t: Id)

  /** The first zombie a wait is for, or the length of the list. */
  function FirstZombie<Id>(zombies: seq<Zombie<Id>>, pid: int, options: WaitOptions): (i: nat)
    ensures i <= |zombies|
  {
    if zombies == [] then 0
    else if WaitsFor(pid, options, zombies[0].pid, zombies[0].clone) then 0
    else 1 + FirstZombie(zombies[1..], pid, options)
  }

  /** The part of get_ptracee() that goes through the list of tracees. */
  function FirstPtracee<Id(==)>(list: seq<Id>, recs: map<Id, Tracee<Id>>, p: Id, pid: int,
                                onlyStopped: bool, onlyPending: bool, options: WaitOptions): (r: Found<Id>)
    requires forall t <- list :: t in recs
    ensures !r.AZombie?
    ensures r.ATracee? ==> r.t in list && recs[r.t].asPtracee.ptracer == Some(p)
  {
    if list == [] then Nobody
    else
      var r := recs[list[0]];
      if r.asPtracee.ptracer != Some(p) || !WaitsFor(pid, options, r.pid, r.clone) then
        FirstPtracee(list[1..], recs, p, pid, onlyStopped, onlyPending, options)
      else if !onlyStopped then ATracee(list[0])
      else if r.running then FirstPtracee(list[1..], recs, p, pid, onlyStopped, onlyPending, options)
      else if r.asPtracee.event.pending || !onlyPending then ATracee(list[0])
      else if pid == r.pid then Nobody
      else FirstPtracee(list[1..], recs, p, pid, onlyStopped, onlyPending, options)
  }

  predicate Ordered<Id>(s: State<Id>) { forall t <- s.order :: t in s.recs }

  /** No tracee less, none with another pid, and new ones are listed. */
  predicate Grown<Id>(s: State<Id>, s': State<Id>) {
    && Ordered(s') && s.recs.Keys <= s'.recs.Keys && (forall t | t in s'.recs && t !in s.recs :: t in s'.order)
    && (forall t <- s.order :: t in s'.order) && forall t | t in s.recs :: s'.recs[t].pid == s.recs[t].pid
  }

  /** get_ptracee() */
  function GetPtracee<Id>(s: State<Id>, p: Id, pid: int, onlyStopped: bool, onlyPending: bool,
                          options: WaitOptions): (r: Found<Id>)
    requires p in s.recs && Ordered(s)
    ensures r.AZombie? ==> r.at < |AsTracer(s, p).zombies|
    ensures r.ATracee? ==> r.t in s.recs && Ptracer(s, r.t) == Some(p)
  {
    var zombies := AsTracer(s, p).zombies;
    var i := FirstZombie(zombies, pid, options);
    if i < |zombies| then AZombie(i)
    else FirstPtracee(s.order, s.recs, p, pid, onlyStopped, onlyPending, options)
  }

  /** get_tracee(), without creation. */
  function FindPid<Id(==)>(list: seq<Id>, recs: map<Id, Tracee<Id>>, pid: int): (r: Option<Id>)
    requires forall t <- list :: t in recs
    ensures r.Some? ==> r.value in list && recs[r.value].pid == pid
    ensures r.None? ==> forall t <- list :: recs[t].pid != pid
  {
    if list == [] then None
    else if recs[list[0]].pid == pid then Some(list[0])
    else FindPid(list[1..], recs, pid)
  }

  // ----- wait(2) -----

  /** translate_wait_enter() */
  function WaitEnter<Id>(s: State<Id>, p: Id, pid: int, options: WaitOptions): (s': State<Id>)
    requires p in s.recs && Ordered(s)
    ensures Same(s, s')
  {
    var a := AsTracer(s, p);
    var inKernel := SetPtracer(s, p, a.(waitsIn := WaitsInKernel));
    if a.nbPtracees == 0 || (pid != -1 && GetPtracee(inKernel, p, pid, false, true, options).Nobody?) then inKernel
    else SetPtracer(inKernel, p, a.(waitsIn := WaitsInProot))
  }

  /** The wait is started again (0), fails (-errno), or reports a pid. */
  datatype WaitStatus = Again | Fails | Reports(pid: int)

  /** detach_from_ptracer() and remove_zombie() for a zombie. */
  function Bury<Id>(s: State<Id>, p: Id, i: nat): (s': State<Id>)
    requires p in s.recs && i < |AsTracer(s, p).zombies|
    ensures Same(s, s')
  {
    var a := AsTracer(s, p);
    SetPtracer(s, p, a.(nbPtracees := a.nbPtracees - 1, zombies := a.zombies[..i] + a.zombies[i + 1..]))
  }

  function ReadZombie<Id>(s: State<Id>, p: Id, i: nat, k: Kernel<Id>): (r: (State<Id>, WaitStatus))
    requires p in s.recs && i < |AsTracer(s, p).zombies|
    ensures Same(s, r.0)
  {
    var z := AsTracer(s, p).zombies[i];
    if z.parent == Some(p) then (Bury(s, p, i), Again)
    else if p in k.faulty then (s, Fails)
    else (Bury(s, p, i), Reports(z.pid))
  }

  function ReadTracee<Id>(s: State<Id>, p: Id, t: Id, k: Kernel<Id>): (r: (State<Id>, WaitStatus))
    requires p in s.recs && t in s.recs && Ptracer(s, t) == Some(p)
    ensures Same(s, r.0)
  {
    var e := s.recs[t].asPtracee;
    if s.recs[t].parent == Some(p) && e.event.value.IsDeath() then (Detach(s, t), Again)
    else if p in k.faulty then (s, Fails)
    else (SetPtracee(s, t, e.(event := e.event.(pending := false))), Reports(s.recs[t].pid))
  }

  datatype WaitResult = Status(status: WaitStatus) | NoChild | NothingYet | Blocks

  /** translate_wait_exit() */
  function WaitExit<Id>(s: State<Id>, p: Id, pid: int, options: WaitOptions, k: Kernel<Id>): (r: (State<Id>, WaitResult))
    requires p in s.recs && Ordered(s)
    ensures Same(s, r.0)
  {
    var a := AsTracer(s, p).(waitsIn := DoesntWait);
    var s1 := SetPtracer(s, p, a);
    match GetPtracee(s1, p, pid, true, true, options)
    case AZombie(i) => var (s2, status) := ReadZombie(s1, p, i, k); (s2, Status(status))
    case ATracee(t) => var (s2, status) := ReadTracee(s1, p, t, k); (s2, Status(status))
    case Nobody =>
      if a.nbPtracees == 0 then (s1, NoChild)
      else if options.noHang then
        (s1, if GetPtracee(s1, p, pid, false, false, options).Nobody? then NoChild else NothingYet)
      else (SetPtracer(s1, p, a.(waitPid := pid, waitOptions := options)), Blocks)
  }

  // ----- Events that need nothing but the tracee -----

  function SetSysexit<Id>(s: State<Id>, t: Id, inSysexit: bool): (s': State<Id>)
    requires t in s.recs
    ensures Same(s, s')
  {
    With(s, t, s.recs[t].(inSysexit := inSysexit))
  }

  /** The enter stage of a system call. */
  function EnterStage<Id>(s: State<Id>, t: Id, k: Kernel<Id>): (s': State<Id>)
    requires t in s.recs && Ordered(s)
    ensures Same(s, s')
  {
    var s1 := match CallOf(k, t)
      case WaitCall(pid, options) => if t in k.untranslated then s else WaitEnter(s, t, pid, options)
      case _ => s;
    SetSysexit(s1, t, t in k.entered)
  }

  function ClearProot<Id>(s: State<Id>, t: Id): (s': State<Id>)
    requires t in s.recs
    ensures Same(s, s')
  {
    var e := s.recs[t].asPtracee;
    SetPtracee(s, t, e.(proot := e.proot.(pending := false)))
  }

  /** handle_tracee_event() but for exit stages and fork events. */
  function QuietEvent<Id>(s: State<Id>, t: Id, ev: Event, k: Kernel<Id>): (s': State<Id>)
    requires t in s.recs && Ordered(s)
    ensures Same(s, s')
  {
    var r := s.recs[t];
    var s1 :=
      if ev.IsDeath() then With(s, t, r.(terminated := true))
      else if ev.SyscallStop? || ev.SeccompStop? then EnterStage(s, t, k)
      else if ev == SignalStop(SIGSTOP) then With(s, t, r.(sigstopAllowed := true))
      else s;
    ClearProot(s1, t)
  }

  // ----- ptrace(2) -----

  predicate Registered<Id>(s: State<Id>, o: Option<Id>) { o.Some? && o.value in s.recs }

  /** The ptracer has gone to wait before its ptracee asked to be traced. */
  function Woken<Id>(s: State<Id>, p: Id): (s': State<Id>)
    requires p in s.recs
    ensures Same(s, s')
  {
    var r := s.recs[p];
    With(s, p, r.(sigstopAllowed := false, asPtracer := r.asPtracer.(waitsIn := WaitsInProot)))
  }

  /** PTRACE_TRACEME; without a parent, the tracer itself faults and there is no next state. */
  function DoTraceMe<Id>(s: State<Id>, t: Id, k: Kernel<Id>): (s': State<Id>)
    requires t in s.recs
    ensures Same(s, s')
  {
    var parent := s.recs[t].parent;
    if Ptracer(s, t).Some? || parent == Some(t) || !Registered(s, parent) then s
    else
      var p := parent.value;
      var s1 := Attach(s, t, p);
      if AsTracer(s1, p).waitsIn == WaitsInKernel && p !in k.dead then Woken(s1, p) else s1
  }

  function DoAttach<Id>(s: State<Id>, p: Id, pid: int): (s': State<Id>)
    requires p in s.recs && Ordered(s)
    ensures Same(s, s')
  {
    var t := if s.recs[p].pid == pid then Some(p) else FindPid(s.order, s.recs, pid);
    if t.None? || Ptracer(s, t.value).Some? || t.value == p then s else Attach(s, t.value, p)
  }

  /** The ptracee a request is about: one of one's own, stopped, and not a zombie. */
  function Subject<Id>(s: State<Id>, p: Id, pid: int): (t: Option<Id>)
    requires p in s.recs && Ordered(s)
    ensures t.Some? ==> t.value in s.recs && Ptracer(s, t.value) == Some(p)
  {
    match GetPtracee(s, p, pid, true, false, WaitOptions(false, true, false))
    case ATracee(t) => if pid == -1 then None else Some(t)
    case _ => None
  }

  /**
   * The end of translate_ptrace_exit(): the first event of the ptracee, then its restart. For an
   * event that had to wait, QuietEvent is all of handle_tracee_event(): see ProceedIsFull.
   */
  function Proceed<Id>(s: State<Id>, t: Id, k: Kernel<Id>): (s': State<Id>)
    requires t in s.recs && Ordered(s)
    ensures Same(s, s')
  {
    var e := s.recs[t].asPtracee;
    Restart(if e.proot.pending then QuietEvent(s, t, e.proot.value, k) else s, t, k).0
  }

  function DoRequest<Id>(s: State<Id>, p: Id, t: Id, request: Request, k: Kernel<Id>): (s': State<Id>)
    requires p in s.recs && t in s.recs && Ptracer(s, t) == Some(p) && Ordered(s)
    ensures Same(s, s')
  {
    var e := s.recs[t].asPtracee;
    match request
    case Resume(_, ignore) =>
      Proceed(SetPtracee(s, t, e.(ignoreSyscalls := if ignore.Some? then ignore.value else e.ignoreSyscalls)), t, k)
    case LetGo(_) => Proceed(Detach(s, t), t, k)
    case SetOptions(_, options, seccomp) => if seccomp then s else SetPtracee(s, t, e.(options := options))
    case _ => s
  }

  /** translate_ptrace_exit() */
  function PtraceExit<Id>(s: State<Id>, p: Id, request: Request, k: Kernel<Id>): (s': State<Id>)
    requires p in s.recs && Ordered(s)
    ensures Same(s, s')
  {
    match request
    case TraceMe => DoTraceMe(s, p, k)
    case AttachTo(pid) => DoAttach(s, p, pid)
    case _ =>
      match Subject(s, p, request.pid)
      case None => s
      case Some(t) => DoRequest(s, p, t, request, k)
  }

  /** 0, an error, or what the kernel answers to the same request. */
  datatype PtraceAnswer = Done | NotPermitted | NoSuchProcess | Invalid | AsTheKernel

  /** What translate_ptrace_exit() answers. */
  function PtraceAnswerTo<Id>(s: State<Id>, p: Id, request: Request): PtraceAnswer
    requires p in s.recs && Ordered(s)
  {
    match request
    case TraceMe => if Ptracer(s, p).Some? || s.recs[p].parent == Some(p) then NotPermitted else Done
    case AttachTo(pid) =>
      var t := if s.recs[p].pid == pid then Some(p) else FindPid(s.order, s.recs, pid);
      if t.None? then NoSuchProcess else if Ptracer(s, t.value).Some? || t.value == p then NotPermitted else Done
    case _ =>
      if Subject(s, p, request.pid).None? then NoSuchProcess else CarriedOut(request)
  }

  /** ... once the ptracee is known. */
  function CarriedOut(request: Request): PtraceAnswer {
    match request
    case SetOptions(_, _, seccomp) => if seccomp then Invalid else Done
    case Inspect(_) => AsTheKernel
    case _ => Done
  }

  // ----- Children -----

  /** new_tracee() */
  function NewTracee<Id>(s: State<Id>, t: Id, pid: int): State<Id> {
    State([t] + s.order, s.recs[t := Fresh(pid)])
  }

  /** id may stand for a new entry with this pid, if one is needed. */
  predicate Unused<Id>(s: State<Id>, id: Id, pid: int)
    requires Ordered(s)
  {
    id in s.recs ==> FindPid(s.order, s.recs, pid).Some?
  }

  /** get_tracee(.., create = true): the entry with this pid, or a new one. */
  function GetTracee<Id>(s: State<Id>, id: Id, pid: int): (r: (State<Id>, Id))
    requires Ordered(s) && Unused(s, id, pid)
    ensures r.1 in r.0.order && r.1 in r.0.recs && r.0.recs[r.1].pid == pid && Grown(s, r.0)
  {
    match FindPid(s.order, s.recs, pid)
    case Some(t) => (s, t)
    case None => (NewTracee(s, id, pid), id)
  }

  predicate Inherits<Id>(r: Tracee<Id>, b: Birth<Id>) {
    r.asPtracee.ptracer.Some? && (b.kind in r.asPtracee.options || b.sharesTracer)
  }

  /** A child is traced as its parent is. */
  function Inherit<Id>(s: State<Id>, c: Id, p: Id, options: set<TraceOption>): (s': State<Id>)
    requires c in s.recs && p in s.recs
    ensures Same(s, s')
  {
    var s1 := Attach(s, c, p);
    SetPtracee(s1, c, s1.recs[c].asPtracee.(options := options))
  }

  /** The assertion in new_child(). */
  predicate Adoptable<Id>(s: State<Id>, c: Id)
    requires c in s.recs
  {
    s.recs[c].parent.None? && Ptracer(s, c).None?
  }

  /** c becomes a child of t. */
  function Adopted<Id>(s: State<Id>, c: Id, t: Id, b: Birth<Id>): (s': State<Id>)
    requires c in s.recs && t in s.recs
    ensures Same(s, s')
  {
    var r := s.recs[t];
    var s1 := With(s, c, s.recs[c].(parent := if b.sharesParent then r.parent else Some(t), clone := b.sharesThreads));
    if Inherits(r, b) && Registered(s1, r.asPtracee.ptracer) then
      Inherit(s1, c, r.asPtracee.ptracer.value, r.asPtracee.options)
    else s1
  }

  /** new_child(), assertions compiled in: when its assertion fails the tracer stops for good. */
  function NewChild<Id>(s: State<Id>, t: Id, b: Birth<Id>): (s': State<Id>)
    requires t in s.recs && Ordered(s)
    ensures Grown(s, s')
  {
    if !Unused(s, b.child, b.pid) then s
    else
      var (s1, c) := GetTracee(s, b.child, b.pid);
      if Adoptable(s1, c) then Adopted(s1, c, t, b) else s
  }

  // ----- Events -----

  /** The exit stage of a system call. */
  function ExitStage<Id>(s: State<Id>, t: Id, k: Kernel<Id>): (s': State<Id>)
    requires t in s.recs && Ordered(s)
    ensures Same(s, s')
  {
    match CallOf(k, t)
    case WaitCall(pid, options) =>
      if AsTracer(s, t).waitsIn != WaitsInProot then s else WaitExit(s, t, pid, options, k).0
    case PtraceCall(request) => PtraceExit(s, t, request, k)
    case OtherCall => s
  }

  predicate Announces(ev: Event) { ev.ForkStop? || ev.VforkStop? || ev.CloneStop? }

  predicate InExitStage<Id>(s: State<Id>, t: Id, ev: Event, k: Kernel<Id>)
    requires t in s.recs
  {
    (ev.SyscallStop? || ev.SeccompStop?) && s.recs[t].inSysexit && t !in k.untranslated
  }

  /** handle_tracee_event() */
  function TraceeEvent<Id>(s: State<Id>, t: Id, ev: Event, k: Kernel<Id>): (s': State<Id>)
    requires t in s.recs && Ordered(s)
    ensures Grown(s, s')
  {
    if InExitStage(s, t, ev, k) then ClearProot(SetSysexit(ExitStage(s, t, k), t, false), t)
    else if Announces(ev) && t in k.births then ClearProot(NewChild(s, t, k.births[t]), t)
    else QuietEvent(s, t, ev, k)
  }

  /** Whether an event is for the ptracer, in what form, and whether it is handled here first. */
  datatype Sifted = Ignored | Shown(event: Event, first: bool, starts: bool)

  function NeededOption(ev: Event): Option<TraceOption> {
    match ev
    case ForkStop => Some(TraceFork)
    case VforkStop => Some(TraceVfork)
    case VforkDoneStop => Some(TraceVforkDone)
    case CloneStop => Some(TraceClone)
    case ExitStop => Some(TraceExit)
    case ExecStop => Some(TraceExec)
    case _ => None
  }

  function Sift<Id>(r: Tracee<Id>, ev: Event, loading: bool): Sifted {
    var e := r.asPtracee;
    if ev.SyscallStop? then
      if e.ignoreSyscalls || loading then Ignored
      else Shown(if TraceSysgood in e.options then ev else SignalStop(SIGTRAP), r.inSysexit, false)
    else if ev.SeccompStop? then Ignored
    else if NeededOption(ev).Some? then
      if NeededOption(ev).value in e.options then Shown(ev, true, true) else Ignored
    else Shown(ev, false, true)
  }

  function Notified<Id>(s: State<Id>, t: Id, ev: Event): (s': State<Id>)
    requires t in s.recs
    ensures Same(s, s')
  {
    SetPtracee(s, t, s.recs[t].asPtracee.(event := EventSlot(ev, true)))
  }

  /** The ptracer is blocked in a wait for this tracee. */
  predicate Awaited<Id>(s: State<Id>, t: Id, p: Id)
    requires t in s.recs && p in s.recs
  {
    var a := AsTracer(s, p);
    (a.waitPid == -1 || a.waitPid == s.recs[t].pid) && ExpectedClone(a.waitOptions, s.recs[t].clone)
  }

  /** Report t to its blocked ptracer, and restart that one. */
  function Wake<Id>(s: State<Id>, t: Id, p: Id, k: Kernel<Id>): (r: (State<Id>, bool))
    requires t in s.recs && p in s.recs && Ptracer(s, t) == Some(p)
    ensures Same(s, r.0)
  {
    var s1 := ReadTracee(s, p, t, k).0;
    Restart(SetPtracer(s1, p, AsTracer(s1, p).(waitPid := 0)), p, k)
  }

  function SetProot<Id>(s: State<Id>, t: Id, slot: EventSlot): (s': State<Id>)
    requires t in s.recs
    ensures Same(s, s')
  {
    SetPtracee(s, t, s.recs[t].asPtracee.(proot := slot))
  }

  /** The end of handle_ptracee_event(): tell the ptracer. */
  function Tell<Id>(s: State<Id>, t: Id, p: Id, ev: Event, k: Kernel<Id>): (r: (State<Id>, bool))
    requires t in s.recs && p in s.recs && Ptracer(s, t) == Some(p)
    ensures Same(s, r.0)
  {
    var s1 := Notified(s, t, ev);
    var keep := !ev.IsDeath();
    if Awaited(s1, t, p) then
      var (s2, restarted) := Wake(s1, t, p, k);
      (s2, keep && restarted)
    else (s1, keep)
  }

  /** What handle_ptracee_event() does before telling the ptracer. */
  function First<Id>(s: State<Id>, t: Id, ev: Event, k: Kernel<Id>): (s': State<Id>)
    requires t in s.recs && Ordered(s)
    ensures Grown(s, s')
  {
    var s1 := TraceeEvent(s, t, ev, k);
    SetProot(s1, t, EventSlot(SignalStop(0), s1.recs[t].asPtracee.proot.pending))
  }

  function PassOn<Id>(s: State<Id>, t: Id, p: Id, ev: Event, shown: Event, first: bool, k: Kernel<Id>): (r: (State<Id>, bool))
    requires t in s.recs && Ordered(s)
    ensures Grown(s, r.0)
  {
    var s1 := if first then First(s, t, ev, k) else s;
    if Ptracer(s1, t) == Some(p) && p in s1.recs then Tell(s1, t, p, shown, k) else (s1, false)
  }

  /** handle_ptracee_event(): the new state, and whether t stays stopped. */
  function PtraceeEvent<Id>(s: State<Id>, t: Id, p: Id, ev: Event, k: Kernel<Id>): (r: (State<Id>, bool))
    requires t in s.recs && Ordered(s) && Ptracer(s, t) == Some(p)
    ensures Grown(s, r.0)
  {
    var s0 := SetProot(s, t, EventSlot(ev, true));
    match Sift(s.recs[t], ev, t in k.loading)
    case Ignored => (s0, false)
    case Shown(shown, first, starts) =>
      var e := s0.recs[t].asPtracee;
      var s1 := SetPtracee(s0, t, e.(tracingStarted := e.tracingStarted || starts));
      if !s1.recs[t].asPtracee.tracingStarted then (s1, false)
      else
        PassOn(s1, t, p, ev, shown, first, k)
  }

  // ----- The event loop -----

  /** What event_loop() does with an event of a known tracee. */
  function Stop<Id>(s: State<Id>, t: Id, ev: Event, k: Kernel<Id>): (s': State<Id>)
    requires t in s.recs && Ordered(s)
    ensures Grown(s, s')
  {
    var s0 := With(s, t, s.recs[t].(running := false));
    match Ptracer(s0, t)
    case None => Restart(TraceeEvent(s0, t, ev, k), t, k).0
    case Some(p) =>
      var (s1, keep) := PtraceeEvent(s0, t, p, ev, k);
      if keep then s1 else Restart(TraceeEvent(s1, t, ev, k), t, k).0
  }

  // ----- Freeing -----

  /** What a tracee was stopped for goes on without a ptracer; see ProceedsIsFull. */
  function Proceeds<Id>(s: State<Id>, t: Id, e: AsPtracee<Id>, k: Kernel<Id>): (s': State<Id>)
    requires t in s.recs && Ordered(s)
    ensures Same(s, s')
  {
    if e.proot.pending then Restart(QuietEvent(s, t, e.proot.value, k), t, k).0
    else if e.event.pending then Restart(s, t, k).0
    else s
  }

  /** One relative of a tracee that goes away: orphaned, and free if it was traced by it. */
  function ReleaseOne<Id>(s: State<Id>, r: Id, gone: Id, k: Kernel<Id>): (s': State<Id>)
    requires r in s.recs && Ordered(s)
    ensures Same(s, s')
  {
    var rec := s.recs[r];
    var s1 := if rec.parent == Some(gone) then With(s, r, rec.(parent := None)) else s;
    if Ptracer(s, r) != Some(gone) then s1
    else
      var e := s1.recs[r].asPtracee;
      SetPtracee(Proceeds(SetPtracee(s1, r, e.(ptracer := None)), r, e, k), r, Untraced())
  }

  function Release<Id>(s: State<Id>, relatives: seq<Id>, gone: Id, k: Kernel<Id>): (s': State<Id>)
    requires Ordered(s) && forall r <- relatives :: r in s.recs
    ensures Same(s, s')
    decreases |relatives|
  {
    if relatives == [] then s else Release(ReleaseOne(s, relatives[0], gone, k), relatives[1..], gone, k)
  }

  /** The death of a ptracee nobody read about yet is kept for its ptracer. */
  function Zombify<Id>(s: State<Id>, t: Id, p: Id): (s': State<Id>)
    requires t in s.recs && p in s.recs && Ptracer(s, t) == Some(p)
    ensures Same(s, s')
  {
    var r := s.recs[t];
    var s1 := Detach(s, t);
    var a := AsTracer(s1, p);
    SetPtracer(s1, p, a.(nbPtracees := a.nbPtracees + 1,
                         zombies := [Zombie(r.pid, r.clone, r.parent, r.asPtracee.event.value)] + a.zombies))
  }

  /** The last ptracee is gone: nothing to wait for. */
  function Forget<Id>(s: State<Id>, t: Id, p: Id, k: Kernel<Id>): (s': State<Id>)
    requires t in s.recs && p in s.recs && Ptracer(s, t) == Some(p)
    ensures Same(s, s')
  {
    var s1 := Detach(s, t);
    var a := AsTracer(s1, p);
    if a.nbPtracees == 0 && a.waitPid != 0 then Restart(SetPtracer(s1, p, a.(waitPid := 0)), p, k).0 else s1
  }

  function Leave<Id>(s: State<Id>, t: Id, k: Kernel<Id>): (s': State<Id>)
    requires t in s.recs
    ensures Same(s, s')
  {
    var ptracer, e := Ptracer(s, t), s.recs[t].asPtracee.event;
    if !Registered(s, ptracer) then s
    else if e.pending && e.value.IsDeath() then Zombify(s, t, ptracer.value)
    else Forget(s, t, ptracer.value, k)
  }

  function Without<Id(==)>(list: seq<Id>, t: Id): (r: seq<Id>)
    ensures forall x <- r :: x in list && x != t
    ensures forall x <- list :: x == t || x in r
  {
    if list == [] then []
    else if list[0] == t then Without(list[1..], t)
    else [list[0]] + Without(list[1..], t)
  }

  /** remove_tracee() */
  function Remove<Id>(s: State<Id>, t: Id, k: Kernel<Id>): (s': State<Id>)
    requires t in s.recs && Ordered(s)
    ensures Ordered(s') && s'.recs.Keys == s.recs.Keys - {t} && s'.order == Without(s.order, t)
  {
    var order := Without(s.order, t);
    var s1 := Leave(Release(s.(order := order), order, t, k), t, k);
    State(order, s1.recs - {t})
  }

  /** free_terminated_tracees() */
  function FreeTerminated<Id>(s: State<Id>, todo: seq<Id>, k: Kernel<Id>): (s': State<Id>)
    requires Ordered(s)
    ensures Ordered(s') && s'.recs.Keys <= s.recs.Keys
    decreases |todo|
  {
    if todo == [] then s
    else if todo[0] in s.recs && s.recs[todo[0]].terminated then FreeTerminated(Remove(s, todo[0], k), todo[1..], k)
    else FreeTerminated(s, todo[1..], k)
  }

  // ----- Runs -----

  /** What waitpid(2) reports at one turn; id stands for the entry of a process not yet known. */
  datatype Input<Id> = Input(id: Id, pid: int, event: Event, kernel: Kernel<Id>)

  predicate Ready<Id>(s: State<Id>, i: Input<Id>) { Ordered(s) && i.id !in s.recs }

  /** The state the event of a turn is handled in, and its tracee. */
  function Handled<Id>(s: State<Id>, i: Input<Id>): (r: (State<Id>, Id))
    requires Ready(s, i)
    ensures Ordered(r.0) && r.1 in r.0.recs
  {
    GetTracee(FreeTerminated(s, s.order, i.kernel), i.id, i.pid)
  }

  /** One turn of event_loop(). */
  function Turn<Id>(s: State<Id>, i: Input<Id>): (s': State<Id>)
    requires Ready(s, i)
    ensures Ordered(s')
  {
    var (s1, t) := Handled(s, i);
    Stop(s1, t, i.event, i.kernel)
  }

  function Start<Id>(): State<Id> { State([], map[]) }
}
