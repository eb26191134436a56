/**
 * The two stages of the system calls of one tracee, with and without seccomp acceleration: how
 * the tracer handles each stop, and what this means against the way the kernel stops a tracee.
 */
module SyscallStages {
  import opened Wrappers

  datatype Acceleration = Disabled | Disabling | Enabled

  /** restart_how; the value 0 is Unset. */
  datatype How = Unset | Cont | Syscall | Step

  /** What the user of the library is told. */
  datatype Callback = OnSysenter | OnSysexit

  const SIGTRAP: int := 5
  const SIGSTOP: int := 19

  /** How far the bootstrap of a root went. */
  datatype Boot = Boot(isRoot: bool, deliverSigtrap: bool, enabled: bool, detected: bool)

  datatype Stages = Stages(
    boot: Boot,
    seccomp: Acceleration,
    sigstopAllowed: bool,
    status: int,
    sysexitPending: bool,
    restartHow: How,
    terminated: bool,
    callbacks: seq<Callback>)

  /** A zeroed entry. */
  function Fresh(isRoot: bool): Stages {
    Stages(Boot(isRoot, false, false, false), Disabled, false, 0, false, Unset, false, [])
  }

  /** What waitpid(2) reports. */
  datatype Event =
    | Died
    | Trap              // a bare SIGTRAP
    | SyscallStop       // SIGTRAP | 0x80
    | SeccompStop
    | Notice            // PTRACE_EVENT_*, but for seccomp
    | Signal(n: int)    // any other signal

  /**
   * What the handling asks for and gets: whether the filter wants the exit stage too (nothing
   * when GETEVENTMSG fails), whether the kernel knows the seccomp option, whether registers
   * can be fetched, the status of the translation, whether it makes the tracee a ptracee.
   */
  datatype Answers = Answers(flags: Option<bool>, seccompOption: bool, fetched: bool, verdict: int, traceMe: bool)

  // ----- What the tracer does -----

  /** How a tracee is restarted unless its event says otherwise. */
  function DefaultHow(x: Stages): How {
    if x.seccomp == Enabled && !x.sysexitPending then Cont else Syscall
  }

  function Defaulted(x: Stages): Stages {
    if x.restartHow == Unset then x.(restartHow := DefaultHow(x)) else x
  }

  lemma DefaultedKeeps(x: Stages)
    ensures Defaulted(x).boot == x.boot && Defaulted(x).sigstopAllowed == x.sigstopAllowed
  {}

  /** The two stages of translate_syscall(). */
  function Translated(x: Stages, a: Answers): Stages {
    if !a.fetched then x
    else if x.status == 0 then
      x.(callbacks := x.callbacks + [OnSysenter],
         status := if x.restartHow == Cont then 0 else if a.verdict < 0 then a.verdict else 1)
    else
      x.(callbacks := x.callbacks + [OnSysexit], status := 0,
         seccomp := if a.traceMe && x.seccomp == Enabled then Disabling else x.seccomp)
  }

  /** Under seccomp the exit stage is asked for at the entry, and the next filter stop at the exit. */
  function Armed(x: Stages): Stages {
    if x.seccomp == Disabled then x
    else if x.status == 0 then x.(restartHow := Syscall, sysexitPending := true)
    else x.(restartHow := Cont, sysexitPending := false)
  }

  function Settled(x: Stages): Stages {
    if x.seccomp == Disabling then x.(restartHow := Syscall, seccomp := Disabled) else x
  }

  /** A stage that is handled whatever the filter says. */
  function AtStage(x: Stages, a: Answers): Stages {
    if x.seccomp == Disabling then x.(seccomp := Disabled, status := if x.status == 0 then 1 else x.status)
    else Settled(Translated(Armed(x), a))
  }

  function Detected(x: Stages): Stages {
    if !x.boot.detected && x.boot.enabled then x.(seccomp := Enabled, boot := x.boot.(detected := true)) else x
  }

  function AtSeccomp(x: Stages, a: Answers): Stages {
    if x.seccomp != Enabled || a.flags.None? then x
    else if a.flags.value then AtStage(x, a)
    else
      var x1 := Translated(x.(restartHow := Cont), a);
      if x1.seccomp == Disabling then x1.(restartHow := Syscall) else x1
  }

  predicate Bootstraps(x: Stages) { x.boot.isRoot && !x.boot.deliverSigtrap }

  /** The first bare SIGTRAP of the root: the options are set, and this is the stop of a call. */
  function Bootstrapped(x: Stages, a: Answers): Stages {
    AtStage(Detected(x.(boot := x.boot.(deliverSigtrap := true, enabled := a.seccompOption))), a)
  }

  /** handle_tracee_event() */
  function Handled(x: Stages, e: Event, a: Answers): Stages {
    var x := Defaulted(x);
    match e
    case Died => x.(terminated := true)
    case Trap =>
      if Bootstraps(x) then Bootstrapped(x, a) else x
    case SyscallStop => AtStage(x, a)
    case SeccompStop => AtSeccomp(Detected(x), a)
    case Notice => x
    case Signal(n) => if n == SIGSTOP then x.(sigstopAllowed := true) else x
  }

  /** The signal the tracee is to be restarted with. */
  function SignalFor(x: Stages, e: Event): int {
    match e
    case Trap => if Bootstraps(x) then 0 else SIGTRAP
    case Signal(n) => if n == SIGSTOP && !x.sigstopAllowed then 0 else n
    case _ => 0
  }

  /** What a child takes over in new_child(). */
  function Inherited(child: Stages, parent: Stages): Stages {
    child.(seccomp := parent.seccomp, sysexitPending := parent.sysexitPending, restartHow := parent.restartHow)
  }

  class Tracee {
    var seccomp: Acceleration
    var detected: bool
    var enabled: bool
    var isRoot: bool
    var deliverSigtrap: bool
    var sigstopAllowed: bool
    var status: int
    var sysexitPending: bool
    var restartHow: How
    var running: bool
    var terminated: bool
    var callbacks: seq<Callback>

    constructor (isRoot: bool)
      ensures View() == Fresh(isRoot) && !running
    {
      seccomp, detected, enabled, this.isRoot, deliverSigtrap := Disabled, false, false, isRoot, false;
      sigstopAllowed, status, sysexitPending, restartHow := false, 0, false, Unset;
      running, terminated, callbacks := false, false, [];
    }

    function View(): Stages
      reads this
    {
      Stages(Boot(isRoot, deliverSigtrap, enabled, detected), seccomp, sigstopAllowed, status, sysexitPending, restartHow,
             terminated, callbacks)
    }

    method TranslateSyscall(a: Answers)
      modifies this
      ensures View() == Translated(old(View()), a) && running == old(running)
    {
      var isEnterStage := status == 0;
      if !a.fetched { return; }
      if isEnterStage {
        callbacks := callbacks + [OnSysenter];
        if a.verdict < 0 { status := a.verdict; } else { status := 1; }
        if restartHow == Cont { status := 0; }
      } else {
        callbacks := callbacks + [OnSysexit];
        if a.traceMe && seccomp == Enabled { seccomp := Disabling; }
        status := 0;
      }
    }

    method HandleStage(a: Answers)
      modifies this
      ensures View() == AtStage(old(View()), a) && running == old(running)
    {
      if seccomp == Disabling {
        seccomp := Disabled;
        if status == 0 { status := 1; }
        return;
      }
      if seccomp == Enabled {
        if status == 0 {
          restartHow, sysexitPending := Syscall, true;
        } else {
          restartHow, sysexitPending := Cont, false;
        }
      }
      TranslateSyscall(a);
      if seccomp == Disabling { restartHow, seccomp := Syscall, Disabled; }
    }

    method Detect()
      modifies this
      ensures View() == Detected(old(View())) && running == old(running)
    {
      if !detected && enabled { seccomp, detected := Enabled, true; }
    }

    method HandleSeccompStop(a: Answers)
      modifies this
      ensures View() == AtSeccomp(Detected(old(View())), a) && running == old(running)
    {
      hide AtStage, Translated, Detected;
      Detect();
      if seccomp != Enabled || a.flags.None? { return; }
      if !a.flags.value {
        restartHow := Cont;
        TranslateSyscall(a);
        if seccomp == Disabling { restartHow := Syscall; }
        return;
      }
      HandleStage(a);
    }

    method Default()
      modifies this
      ensures View() == Defaulted(old(View())) && running == old(running)
    {
      if restartHow == Unset {
        if seccomp == Enabled && !sysexitPending { restartHow := Cont; } else { restartHow := Syscall; }
      }
    }

    method HandleTrap(a: Answers) returns (signal: int)
      modifies this
      ensures View() == if Bootstraps(old(View())) then Bootstrapped(old(View()), a) else old(View())
      ensures signal == SignalFor(old(View()), Trap) && running == old(running)
    {
      hide AtStage, Translated, Detected;
      if !isRoot || deliverSigtrap { return SIGTRAP; }
      deliverSigtrap, enabled := true, a.seccompOption;
      Detect();
      HandleStage(a);
      signal := 0;
    }

    method HandleSignal(n: int) returns (signal: int)
      modifies this
      ensures View() == if n == SIGSTOP then old(View()).(sigstopAllowed := true) else old(View())
      ensures signal == SignalFor(old(View()), Signal(n)) && running == old(running)
    {
      signal := n;
      if n == SIGSTOP && !sigstopAllowed { sigstopAllowed, signal := true, 0; }
    }

    method Terminate()
      modifies this
      ensures View() == old(View()).(terminated := true) && running == old(running)
    {
      terminated := true;
    }

    method HandleTraceeEvent(e: Event, a: Answers) returns (signal: int)
      modifies this
      ensures View() == Handled(old(View()), e, a) && signal == SignalFor(old(View()), e) && running == old(running)
    {
      hide AtStage, AtSeccomp, Bootstrapped, Detected, Defaulted, View;
      DefaultedKeeps(View());
      Default();
      signal := 0;
      match e {
        case Died => Terminate();
        case Trap => signal := HandleTrap(a);
        case SyscallStop => HandleStage(a);
        case SeccompStop => HandleSeccompStop(a);
        case Notice =>
        case Signal(n) => signal := HandleSignal(n);
      }
    }

    /** A tracee blocked in a wait is not restarted, and one that is dead cannot be. */
    method RestartTracee(blocked: bool, alive: bool) returns (restarted: bool)
      modifies this
      ensures restarted == (!blocked && alive)
      ensures View() == (if restarted then old(View()).(restartHow := Unset) else old(View()))
      ensures running == (restarted || old(running))
    {
      if blocked || !alive { return false; }
      restartHow, running := Unset, true;
      return true;
    }

    method Inherit(parent: Tracee)
      modifies this
      ensures View() == Inherited(old(View()), old(parent.View())) && running == old(running)
    {
      seccomp, sysexitPending, restartHow := parent.seccomp, parent.sysexitPending, parent.restartHow;
    }
  }

  // ----- What the kernel does -----

  /** Where a tracee is: outside of system calls, at the entry of one with its filter to come, or inside. */
  datatype Place = Outside | Entered | Inside

  datatype Boundary = AtEntry | AtExit | Elsewhere

  /** A callback, where the tracee was, and whether an exit stage is due. */
  datatype Mark = Mark(callback: Callback, at: Boundary, exitDue: bool)

  /** @mode is how the tracee was last restarted: Unset before its first stop. */
  datatype World = World(t: Stages, place: Place, mode: How, marks: seq<Mark>)

  function Start(isRoot: bool): World { World(Fresh(isRoot), Outside, Unset, []) }

  /** A stop, whether a bare SIGTRAP is the stop of a system call, and the second handling when there is one. */
  datatype Input = Input(event: Event, callStop: bool, answers: Answers, again: Option<Answers>)

  predicate IsCallStop(i: Input) { i.event.SyscallStop? || (i.event.Trap? && i.callStop) }

  /**
   * The stops a kernel (4.8 or later) makes: those of a call are asked for with PTRACE_SYSCALL,
   * and are bare SIGTRAPs until the options are set; the filter is run after the entry stop; the
   * first stop is none of a call. An event is handled twice when it was handled first for a
   * ptracer that then could not be restarted: PtraceTwice says when that is.
   */
  predicate Happens(w: World, i: Input) {
    && !w.t.terminated
    && (w.mode == Unset ==> i.event.Died? || i.event.Signal?)
    && (IsCallStop(i) ==> w.mode == Syscall)
    && (i.event.SyscallStop? ==> !Bootstraps(w.t))
    && (i.event.Trap? && i.callStop ==> Bootstraps(w.t))
    && (i.event.SeccompStop? ==> w.place == Entered || (w.place == Outside && w.mode != Syscall))
    && (i.again.Some? ==> i.event.Notice? || (i.event.SyscallStop? && w.t.status != 0))
  }

  function BoundaryOf(w: World, i: Input): Boundary {
    if IsCallStop(i) then (if w.place == Outside then AtEntry else AtExit)
    else if i.event.SeccompStop? && w.place == Outside then AtEntry
    else Elsewhere
  }

  function PlaceAfter(w: World, i: Input): Place {
    if IsCallStop(i) then (if w.place == Outside then Entered else Outside)
    else if i.event.SeccompStop? then Inside
    else w.place
  }

  /** The tracer handles an event. */
  function Handles(w: World, e: Event, at: Boundary, a: Answers): World {
    var t' := Handled(w.t, e, a);
    w.(t := t', marks := if |t'.callbacks| > |w.t.callbacks|
                         then w.marks + [Mark(t'.callbacks[|t'.callbacks| - 1], at, t'.status != 0)] else w.marks)
  }

  /** The tracer restarts the tracee. */
  function Restarted(w: World): World { w.(t := w.t.(restartHow := Unset), mode := w.t.restartHow) }

  /** One stop, from the kernel to the restart. */
  function Stop(w: World, i: Input): World {
    var at := BoundaryOf(w, i);
    var w1 := Handles(w, i.event, at, i.answers);
    var w2 := if i.again.Some? then Handles(w1, i.event, at, i.again.value) else w1;
    Restarted(w2.(place := PlaceAfter(w, i)))
  }

  /** What a tracee does unseen: run its filter, end a call or begin one nobody asked to see. */
  predicate Unseen(w: World, place: Place) {
    || (w.place == Entered && place == Inside)
    || (w.place == Inside && place == Outside && w.mode in {Cont, Step})
    || (w.place == Outside && place == Inside && w.mode in {Cont, Step})
  }

  // ----- The stages agree with the kernel -----

  predicate DueAt(marks: seq<Mark>, i: nat)
    requires i <= |marks|
  {
    i > 0 && marks[i - 1].exitDue
  }

  predicate ExitDue(marks: seq<Mark>) { DueAt(marks, |marks|) }

  /** An exit stage comes exactly when one is due, and stages are where they claim to be. */
  predicate Fits(m: Mark, due: bool) {
    && (m.callback == OnSysexit <==> due)
    && (m.callback == OnSysexit ==> !m.exitDue)
    && m.at == (if m.callback == OnSysenter then AtEntry else AtExit)
  }

  /** Entry and exit stages alternate. */
  predicate Alternates(marks: seq<Mark>) {
    forall i :: 0 <= i < |marks| ==> Fits(marks[i], DueAt(marks, i))
  }

  /** The state between events: never disabling, an exit stage is due exactly if the kernel will stop there. */
  predicate InSync(w: World) {
    var t := w.t;
    && t.seccomp != Disabling
    && (t.boot.enabled ==> t.boot.detected)
    && (t.restartHow == Unset || t.restartHow == DefaultHow(t))
    && (Bootstraps(t) ==> !t.boot.enabled && t.seccomp == Disabled && w.place == Outside)
    && (w.mode == Unset ==> w.place == Outside && t.status == 0)
    && (w.mode == Syscall ==> (t.status == 0 <==> w.place == Outside) && (t.seccomp == Enabled ==> t.sysexitPending))
    && (w.mode == Cont ==> t.seccomp == Enabled && !t.sysexitPending && t.status == 0 && w.place != Entered)
    && w.mode != Step
    && Alternates(w.marks) && (ExitDue(w.marks) <==> t.status != 0)
  }

  lemma StartIsInSync(isRoot: bool)
    ensures InSync(Start(isRoot))
  {}

  /**
   * What keeps a stop from breaking this: registers are fetched where a stage needs them, and
   * only once when it is handled twice; an accelerated call shows its filter stop only; the
   * first SIGTRAP of the root is the stop of a call.
   */
  predicate Harmless(w: World, i: Input) {
    match i.event
    case SyscallStop => i.answers.fetched == (i.again.None? || !i.again.value.fetched)
    case SeccompStop =>
      w.t.seccomp == Enabled && i.answers.flags.Some? ==>
        w.t.status == 0 && (i.answers.flags.value ==> i.answers.fetched)
    case Trap => Bootstraps(w.t) ==> i.answers.fetched == i.callStop
    case _ => true
  }

  lemma MoreMarks(marks: seq<Mark>, m: Mark)
    ensures Alternates(marks + [m]) <==> Alternates(marks) && Fits(m, ExitDue(marks))
    ensures ExitDue(marks + [m]) == m.exitDue
  {
    hide Fits, DueAt;
    var all := marks + [m];
    var n := |marks|;
    assert all[n] == m;
    forall i | 0 <= i <= n ensures DueAt(all, i) == DueAt(marks, i) { SameDue(marks, m, i); }
    assert forall i :: 0 <= i < n ==> all[i] == marks[i];
    DueAfter(marks, m);
    if Alternates(all) {
      assert Fits(all[n], DueAt(all, n));
      forall i | 0 <= i < n ensures Fits(marks[i], DueAt(marks, i)) {
        assert Fits(all[i], DueAt(all, i));
      }
    }
  }

  lemma SameDue(marks: seq<Mark>, m: Mark, i: nat)
    requires i <= |marks|
    ensures DueAt(marks + [m], i) == DueAt(marks, i)
  {}

  lemma DueAfter(marks: seq<Mark>, m: Mark)
    ensures ExitDue(marks + [m]) == m.exitDue
  {}

  /** What one handling adds to the marks. */
  lemma Handling(w: World, e: Event, at: Boundary, a: Answers)
    ensures var w1 := Handles(w, e, at, a);
            if w1.t.callbacks == w.t.callbacks then w1.marks == w.marks
            else
              && (forall c :: w1.t.callbacks == w.t.callbacks + [c] ==>
                    var m := Mark(c, at, w1.t.status != 0);
                    && (Alternates(w1.marks) <==> Alternates(w.marks) && Fits(m, ExitDue(w.marks)))
                    && ExitDue(w1.marks) == m.exitDue)
  {
    hide Alternates, ExitDue, Fits, Handled;
    var w1 := Handles(w, e, at, a);
    if w1.t.callbacks != w.t.callbacks {
      forall c | w1.t.callbacks == w.t.callbacks + [c]
        ensures var m := Mark(c, at, w1.t.status != 0);
                && (Alternates(w1.marks) <==> Alternates(w.marks) && Fits(m, ExitDue(w.marks)))
                && ExitDue(w1.marks) == m.exitDue
      {
        MoreMarks(w.marks, Mark(c, at, w1.t.status != 0));
      }
    }
  }

  lemma QuietIff(w: World, i: Input)
    requires InSync(w) && Happens(w, i) && (i.event.Died? || i.event.Notice? || i.event.Signal?)
    ensures InSync(Stop(w, i)) && Harmless(w, i)
  {
    hide Alternates, ExitDue, Fits;
  }

  /** Between the handling of an event and the restart. */
  predicate Tidy(x: Stages) {
    x.seccomp != Disabling && (x.boot.enabled ==> x.boot.detected) && x.restartHow == DefaultHow(x)
  }

  lemma InSyncAfter(x: Stages, place: Place, marks: seq<Mark>)
    requires Tidy(x) && !Bootstraps(x)
    ensures InSync(Restarted(World(x, place, Unset, marks))) <==>
            && (if x.restartHow == Syscall then x.status == 0 <==> place == Outside else x.status == 0 && place != Entered)
            && Alternates(marks) && (ExitDue(marks) <==> x.status != 0)
  {
    hide Alternates, ExitDue;
  }

  lemma EnterStage(x: Stages, a: Answers)
    requires x.seccomp != Disabling && (x.boot.enabled ==> x.boot.detected) && x.status == 0
    requires x.seccomp == Disabled ==> x.restartHow == Syscall
    ensures var y := AtStage(x, a);
            && Tidy(y) && y.restartHow == Syscall && y.boot == x.boot
            && (y.status != 0 <==> a.fetched)
            && y.callbacks == if a.fetched then x.callbacks + [OnSysenter] else x.callbacks
  {
  }

  lemma ExitStage(x: Stages, a: Answers)
    requires Tidy(x) && x.status != 0
    ensures var y := AtStage(x, a);
            && Tidy(y) && y.boot == x.boot
            && (y.status == 0 <==> a.fetched)
            && y.callbacks == if a.fetched then x.callbacks + [OnSysexit] else x.callbacks
  {
  }

  lemma DefaultedIsTidy(w: World)
    requires InSync(w)
    ensures var x := Defaulted(w.t); Tidy(x) && x.status == w.t.status && x.callbacks == w.t.callbacks && x.boot == w.t.boot
  {}

  lemma TidyStays(x: Stages)
    requires Tidy(x)
    ensures Defaulted(x) == x
  {}

  /** A stop of a call, by the stage it is in. */
  lemma SyscallStopIff(w: World, i: Input)
    requires InSync(w) && Happens(w, i) && i.event.SyscallStop? && i.again.None?
    ensures InSync(Stop(w, i)) <==> i.answers.fetched
  {
    var x, a, at := Defaulted(w.t), i.answers, BoundaryOf(w, i);
    DefaultedIsTidy(w);
    assert w.t.status == 0 <==> w.place == Outside;
    hide AtStage, Alternates, ExitDue, InSync, Tidy, Defaulted;
    Handling(w, i.event, at, a);
    if x.status == 0 { EnterStage(x, a); } else { ExitStage(x, a); }
    var w1 := Handles(w, i.event, at, a);
    InSyncAfter(w1.t, PlaceAfter(w, i), w1.marks);
  }

  /** A filter stop, by what the filter wants. */
  lemma SeccompStopIff(w: World, i: Input)
    requires InSync(w) && Happens(w, i) && i.event.SeccompStop?
    ensures InSync(Stop(w, i)) <==> Harmless(w, i)
  {
    if w.t.seccomp == Enabled && i.answers.flags.Some? {
      if i.answers.flags.value { FlaggedIff(w, i); } else { UnflaggedIff(w, i); }
    } else {
      hide Alternates, ExitDue;
    }
  }

  lemma FlaggedIff(w: World, i: Input)
    requires InSync(w) && Happens(w, i) && i.event.SeccompStop? && w.t.seccomp == Enabled && i.answers.flags == Some(true)
    ensures InSync(Stop(w, i)) <==> w.t.status == 0 && i.answers.fetched
  {
    var x, a, at := Defaulted(w.t), i.answers, BoundaryOf(w, i);
    DefaultedIsTidy(w);
    assert Detected(x) == x && x.seccomp == Enabled;
    assert (x.status == 0 <==> at == AtEntry) && PlaceAfter(w, i) == Inside && !Bootstraps(x) by {
      hide Alternates, ExitDue, Tidy, Defaulted;
    }
    hide AtStage, Alternates, ExitDue, InSync, Tidy, Defaulted, Detected;
    Handling(w, SeccompStop, at, a);
    if x.status == 0 { EnterStage(x, a); } else { ExitStage(x, a); }
    var w1 := Handles(w, SeccompStop, at, a);
    InSyncAfter(w1.t, Inside, w1.marks);
  }

  lemma UnflaggedIff(w: World, i: Input)
    requires InSync(w) && Happens(w, i) && i.event.SeccompStop? && w.t.seccomp == Enabled && i.answers.flags == Some(false)
    ensures InSync(Stop(w, i)) <==> w.t.status == 0
  {
    var x, a, at := Defaulted(w.t), i.answers, BoundaryOf(w, i);
    DefaultedIsTidy(w);
    assert Detected(x) == x && x.seccomp == Enabled;
    hide Alternates, ExitDue, Defaulted, Detected;
    Handling(w, SeccompStop, at, a);
    var w1 := Handles(w, SeccompStop, at, a);
  }

  lemma TrapIff(w: World, i: Input)
    requires InSync(w) && Happens(w, i) && i.event.Trap?
    ensures InSync(Stop(w, i)) <==> Harmless(w, i)
  {
    if Bootstraps(w.t) {
      hide InSync, Stop;
      BootstrapIff(w, i);
    } else {
      hide Alternates, ExitDue;
    }
  }

  /** The bootstrap enters a call. */
  lemma BootstrapIff(w: World, i: Input)
    requires InSync(w) && Happens(w, i) && i.event.Trap? && Bootstraps(w.t)
    ensures InSync(Stop(w, i)) <==> i.answers.fetched == i.callStop
  {
    var x, a, at := Defaulted(w.t), i.answers, BoundaryOf(w, i);
    DefaultedIsTidy(w);
    DefaultedKeeps(w.t);
    BootstrapStarts(w);
    var x1 := Detected(x.(boot := x.boot.(deliverSigtrap := true, enabled := a.seccompOption)));
    assert x1.status == 0 && x1.callbacks == x.callbacks && x1.restartHow == Syscall && !Bootstraps(x1);
    EnterStage(x1, a);
    hide AtStage, Alternates, ExitDue, InSync, Detected, Defaulted, Tidy;
    Handling(w, Trap, at, a);
    var w1 := Handles(w, Trap, at, a);
    InSyncAfter(w1.t, PlaceAfter(w, i), w1.marks);
  }

  lemma BootstrapStarts(w: World)
    requires InSync(w) && Bootstraps(w.t)
    ensures var x := Defaulted(w.t);
            x.status == 0 && x.seccomp == Disabled && !x.boot.enabled && x.restartHow == Syscall
    ensures w.place == Outside && Alternates(w.marks) && !ExitDue(w.marks)
  {
    hide Alternates, ExitDue;
  }

  /** An exit stage handled a second time is taken for an entry stage, unless one of the two saw no registers. */
  lemma TwiceIff(w: World, i: Input)
    requires InSync(w) && Happens(w, i) && i.event.SyscallStop? && i.again.Some?
    ensures InSync(Stop(w, i)) <==> i.answers.fetched != i.again.value.fetched
  {
    var x, a, at := Defaulted(w.t), i.answers, BoundaryOf(w, i);
    DefaultedIsTidy(w);
    assert x.status != 0 && at == AtExit && PlaceAfter(w, i) == Outside;
    hide AtStage, Alternates, ExitDue, InSync, Defaulted;
    ExitStage(x, a);
    Handling(w, i.event, at, a);
    var w1 := Handles(w, i.event, at, a);
    TidyStays(w1.t);
    if a.fetched { EnterStage(w1.t, i.again.value); } else { ExitStage(w1.t, i.again.value); }
    hide Tidy;
    Handling(w1, i.event, at, i.again.value);
    var w2 := Handles(w1, i.event, at, i.again.value);
    InSyncAfter(w2.t, Outside, w2.marks);
  }

  /** A stop keeps stages and kernel in step exactly if it is harmless. */
  lemma StopKeepsInSyncIff(w: World, i: Input)
    requires InSync(w) && Happens(w, i)
    ensures InSync(Stop(w, i)) <==> Harmless(w, i)
  {
    hide InSync, Stop, Bootstraps;
    match i.event
    case SyscallStop => if i.again.None? { SyscallStopIff(w, i); } else { TwiceIff(w, i); }
    case SeccompStop => SeccompStopIff(w, i);
    case Trap => TrapIff(w, i);
    case _ => QuietIff(w, i);
  }

  /**
   * At the moment it takes over, a child that has not stopped yet is in step whatever its parent
   * does; later, an accelerated parent has to be in a flagged call. Whether it stays in step
   * is another matter: see InheritanceIsSafeIff.
   */
  lemma InheritsInSyncIff(w: World, parent: Stages)
    requires InSync(w) && !w.t.boot.isRoot && Tidy(parent) && w.mode != Cont
    ensures InSync(w.(t := Inherited(w.t, parent))) <==>
            w.mode == Unset || parent.seccomp != Enabled || parent.sysexitPending
  {
    hide Alternates, ExitDue;
  }

  // ----- Runs -----

  datatype Move = Stops(input: Input) | Moves(place: Place) | Inherits(parent: Stages)

  predicate Can(w: World, m: Move) {
    match m
    case Stops(i) => Happens(w, i) && Harmless(w, i)
    case Moves(place) => !w.t.terminated && Unseen(w, place)
    case Inherits(parent) => w.mode == Unset && !w.t.boot.isRoot && Tidy(parent)
  }

  function Does(w: World, m: Move): World {
    match m
    case Stops(i) => Stop(w, i)
    case Moves(place) => w.(place := place)
    case Inherits(parent) => w.(t := Inherited(w.t, parent))
  }

  function After(w: World, moves: seq<Move>): World
    decreases |moves|
  {
    if moves == [] then w else After(Does(w, moves[0]), moves[1..])
  }

  predicate Run(w: World, moves: seq<Move>)
    decreases |moves|
  {
    moves == [] || (Can(w, moves[0]) && Run(Does(w, moves[0]), moves[1..]))
  }

  lemma MoveKeepsInSync(w: World, m: Move)
    requires InSync(w) && Can(w, m)
    ensures InSync(Does(w, m))
  {
    match m
    case Stops(i) =>
      hide InSync, Harmless, Happens, Stop;
      StopKeepsInSyncIff(w, i);
    case Moves(place) =>
      hide Alternates, ExitDue;
    case Inherits(parent) =>
      hide InSync, Tidy;
      InheritsInSyncIff(w, parent);
  }

  /** Stages alternate, where they should, in every run. */
  lemma {:induction false} RunKeepsInSync(w: World, moves: seq<Move>)
    requires InSync(w) && Run(w, moves)
    ensures InSync(After(w, moves))
    decreases |moves|
  {
    hide InSync, Can, Does;
    if moves != [] {
      MoveKeepsInSync(w, moves[0]);
      RunKeepsInSync(Does(w, moves[0]), moves[1..]);
    }
  }

  /**
   * So between events seccomp is never being disabled, an exit stage under seccomp is always
   * remembered as pending, and one that is due is not skipped: the tracee is in its call and
   * cannot leave it unseen, events in between do not change that, and the stop of the call that
   * comes next is its exit.
   */
  lemma NoExitIsSkipped(isRoot: bool, moves: seq<Move>, i: Input)
    requires Run(Start(isRoot), moves)
    requires var w := After(Start(isRoot), moves); ExitDue(w.marks) && Happens(w, i)
    ensures var w := After(Start(isRoot), moves);
            && w.t.seccomp != Disabling && (w.t.seccomp == Enabled ==> w.t.sysexitPending)
            && w.mode == Syscall && w.place != Outside && !Unseen(w, Outside)
            && (i.event.Notice? || i.event.Signal? ==> Stop(w, i).mode == Syscall && ExitDue(Stop(w, i).marks))
            && (IsCallStop(i) ==> BoundaryOf(w, i) == AtExit)
  {
    var w := After(Start(isRoot), moves);
    StartIsInSync(isRoot);
    RunKeepsInSync(Start(isRoot), moves);
    hide After, Run, Alternates, ExitDue;
  }

  // ----- What the user of the library sees -----

  predicate Told(w: World) {
    |w.t.callbacks| == |w.marks| && forall i :: 0 <= i < |w.marks| ==> w.marks[i].callback == w.t.callbacks[i]
  }

  predicate TellsOnce(x: Stages, y: Stages) {
    y.callbacks == x.callbacks || y.callbacks == x.callbacks + [OnSysenter] || y.callbacks == x.callbacks + [OnSysexit]
  }

  lemma AtStageTellsOnce(x: Stages, a: Answers)
    ensures TellsOnce(x, AtStage(x, a)) && TellsOnce(x, AtSeccomp(x, a))
  {
    assert Armed(x).callbacks == x.callbacks;
    hide Armed;
  }

  lemma HandledTellsOnce(x: Stages, e: Event, a: Answers)
    ensures TellsOnce(x, Handled(x, e, a))
  {
    var x1 := Defaulted(x);
    var x2 := Detected(x1.(boot := x1.boot.(deliverSigtrap := true, enabled := a.seccompOption)));
    assert x1.callbacks == x.callbacks && Detected(x1).callbacks == x.callbacks && x2.callbacks == x.callbacks;
    AtStageTellsOnce(x1, a);
    AtStageTellsOnce(x2, a);
    AtStageTellsOnce(Detected(x1), a);
    hide Defaulted, Detected, AtStage, AtSeccomp;
  }

  lemma HandlesTells(w: World, e: Event, at: Boundary, a: Answers)
    requires Told(w)
    ensures Told(Handles(w, e, at, a))
  {
    HandledTellsOnce(w.t, e, a);
    hide Handled;
  }

  lemma StopTells(w: World, i: Input)
    requires Told(w)
    ensures Told(Stop(w, i))
  {
    hide Handled;
    var at := BoundaryOf(w, i);
    HandlesTells(w, i.event, at, i.answers);
    var w1 := Handles(w, i.event, at, i.answers);
    if i.again.Some? { HandlesTells(w1, i.event, at, i.again.value); }
    hide Handles;
  }

  lemma {:induction false} RunTells(w: World, moves: seq<Move>)
    requires Told(w) && Run(w, moves)
    ensures Told(After(w, moves))
    decreases |moves|
  {
    if moves != [] {
      hide Stop, Can;
      if moves[0].Stops? { StopTells(w, moves[0].input); }
      RunTells(Does(w, moves[0]), moves[1..]);
    }
  }

  /** The callbacks of a run: first an entry, and between two exits always an entry. */
  lemma CallbacksAlternate(isRoot: bool, moves: seq<Move>, k: nat)
    requires Run(Start(isRoot), moves) && k < |After(Start(isRoot), moves).t.callbacks|
    requires After(Start(isRoot), moves).t.callbacks[k] == OnSysexit
    ensures k > 0 && After(Start(isRoot), moves).t.callbacks[k - 1] == OnSysenter
  {
    var w := After(Start(isRoot), moves);
    StartIsInSync(isRoot);
    RunKeepsInSync(Start(isRoot), moves);
    RunTells(Start(isRoot), moves);
    hide After, Run;
    assert Fits(w.marks[k], DueAt(w.marks, k));
    assert Fits(w.marks[k - 1], DueAt(w.marks, k - 1));
  }

  /**
   * A flagged call from its filter stop to its exit: one callback each, and the next call is
   * accelerated again unless this one has made the tracee a ptracee, which turns that off.
   */
  lemma FlaggedCall(w: World, a: Answers, b: Answers)
    requires InSync(w) && w.t.seccomp == Enabled && w.mode == Cont && w.place == Outside && !w.t.terminated
    requires a.flags == Some(true) && a.fetched && b.fetched
    ensures var entry, exit := Input(SeccompStop, false, a, None), Input(SyscallStop, false, b, None);
            && Happens(w, entry)
            && var w1 := Stop(w, entry);
            && Happens(w1, exit)
            && var w2 := Stop(w1, exit);
            && w2.t.callbacks == w.t.callbacks + [OnSysenter, OnSysexit] && w2.place == Outside
            && (if b.traceMe then w2.mode == Syscall && w2.t.seccomp == Disabled
                else w2.mode == Cont && w2.t.seccomp == Enabled && !w2.t.sysexitPending)
  {
    hide Alternates, ExitDue;
    var x := Defaulted(w.t);
    assert Detected(x) == x && x.seccomp == Enabled && x.status == 0 && x.callbacks == w.t.callbacks;
    AcceleratedEntry(x, a);
    var y := AtStage(x, a);
    var z := y.(restartHow := Unset);
    assert Defaulted(z) == z.(restartHow := Syscall);
    AcceleratedExit(Defaulted(z), b);
    hide AtStage, Defaulted, Detected;
  }

  lemma AcceleratedEntry(x: Stages, a: Answers)
    requires x.seccomp == Enabled && x.status == 0 && a.fetched
    ensures var y := AtStage(x, a);
            && y.status != 0 && y.callbacks == x.callbacks + [OnSysenter] && y.seccomp == Enabled && y.sysexitPending
            && y.restartHow == Syscall && y.boot == x.boot && y.terminated == x.terminated
  {}

  lemma AcceleratedExit(x: Stages, a: Answers)
    requires x.seccomp == Enabled && x.status != 0 && a.fetched
    ensures var y := AtStage(x, a);
            && y.status == 0 && y.callbacks == x.callbacks + [OnSysexit]
            && (if a.traceMe then y.seccomp == Disabled && y.restartHow == Syscall
                else y.seccomp == Enabled && y.restartHow == Cont && !y.sysexitPending)
  {}

  // ----- What signals it gets -----

  /** There is such a stop. */
  predicate Shows(moves: seq<Move>, e: Event) { exists i :: 0 <= i < |moves| && moves[i].Stops? && moves[i].input.event == e }

  /** What is left of the SIGSTOPs and the SIGTRAPs of a run. */
  lemma {:induction false} RunRemembers(w: World, moves: seq<Move>)
    ensures var x, y := w.t, After(w, moves).t;
            && y.boot.isRoot == x.boot.isRoot
            && (y.sigstopAllowed <==> x.sigstopAllowed || Shows(moves, Signal(SIGSTOP)))
            && (y.boot.deliverSigtrap <==> x.boot.deliverSigtrap || (x.boot.isRoot && Shows(moves, Trap)))
    decreases |moves|
  {
    if moves != [] {
      var rest := moves[1..];
      MoveRemembers(w, moves[0]);
      RunRemembers(Does(w, moves[0]), rest);
      forall e: Event ensures Shows(moves, e) <==> (moves[0].Stops? && moves[0].input.event == e) || Shows(rest, e) {
        ShowsOneMore(moves, e);
      }
      hide Does, Shows;
    }
  }

  lemma ShowsOneMore(moves: seq<Move>, e: Event)
    requires moves != []
    ensures Shows(moves, e) <==> (moves[0].Stops? && moves[0].input.event == e) || Shows(moves[1..], e)
  {
    var rest := moves[1..];
    if i :| 0 <= i < |rest| && rest[i].Stops? && rest[i].input.event == e { assert moves[i + 1] == rest[i]; }
    if i :| 0 < i < |moves| && moves[i].Stops? && moves[i].input.event == e { assert rest[i - 1] == moves[i]; }
  }

  lemma MoveRemembers(w: World, m: Move)
    ensures var x, y := w.t, Does(w, m).t;
            && y.boot.isRoot == x.boot.isRoot
            && (y.sigstopAllowed <==> x.sigstopAllowed || (m.Stops? && m.input.event == Signal(SIGSTOP)))
            && (y.boot.deliverSigtrap <==> x.boot.deliverSigtrap || (x.boot.isRoot && m.Stops? && m.input.event == Trap))
  {
    if m.Stops? {
      var i := m.input;
      HandledRemembers(w.t, i.event, i.answers);
      if i.again.Some? { HandledRemembers(Handled(w.t, i.event, i.answers), i.event, i.again.value); }
      hide Handled;
    }
  }

  lemma HandledRemembers(x: Stages, e: Event, a: Answers)
    ensures var y := Handled(x, e, a);
            && y.boot.isRoot == x.boot.isRoot && (y.sigstopAllowed <==> x.sigstopAllowed || e == Signal(SIGSTOP))
            && (y.boot.deliverSigtrap <==> x.boot.deliverSigtrap || (x.boot.isRoot && e == Trap))
  {
    DefaultedKeeps(x);
    StageRemembers(Defaulted(x), a);
    var x1 := Defaulted(x);
    var x2 := Detected(x1.(boot := x1.boot.(deliverSigtrap := true, enabled := a.seccompOption)));
    StageRemembers(x2, a);
    StageRemembers(Detected(x1), a);
    hide AtStage, AtSeccomp, Defaulted;
  }

  lemma StageRemembers(x: Stages, a: Answers)
    ensures AtStage(x, a).sigstopAllowed == x.sigstopAllowed && AtStage(x, a).boot == x.boot
    ensures AtSeccomp(x, a).sigstopAllowed == x.sigstopAllowed && AtSeccomp(x, a).boot == x.boot
  {
    AtStageNeverRises(x, a);
  }

  /** What event_loop() restarts a tracee with after a stop of a run. */
  function SignalAt(w: World, moves: seq<Move>, k: nat): int
    requires k < |moves| && moves[k].Stops?
  {
    SignalFor(After(w, moves[..k]).t, moves[k].input.event)
  }

  /**
   * A tracee gets each signal it stopped for, but for the first SIGSTOP, which only tells that it
   * is there, and for the SIGTRAP a root is bootstrapped with. No other stop gives it a signal.
   */
  lemma EverySignalIsDelivered(isRoot: bool, moves: seq<Move>, k: nat)
    requires k < |moves| && moves[k].Stops?
    ensures var earlier, signal := moves[..k], SignalAt(Start(isRoot), moves, k);
            match moves[k].input.event
            case Signal(n) => signal == if n == 19 && !Shows(earlier, Signal(19)) then 0 else n
            case Trap => signal == if isRoot && !Shows(earlier, Trap) then 0 else 5
            case _ => signal == 0
  {
    RunRemembers(Start(isRoot), moves[..k]);
    hide After, Shows;
  }

  // ----- Errors and deaths -----

  /** An error of the translation is what is left to report at the exit; without one the exit is just due. */
  lemma ErrorIsKept(w: World, i: Input)
    requires InSync(w) && Happens(w, i) && i.event.SyscallStop? && i.again.None? && w.place == Outside && i.answers.fetched
    ensures var status := Stop(w, i).t.status;
            (i.answers.verdict < 0 ==> status == i.answers.verdict) && (i.answers.verdict >= 0 ==> status == 1)
  {
    StopIs(w, i);
    hide Alternates, ExitDue, Stop;
  }

  /** ... and nothing in between changes it. */
  lemma StatusStays(w: World, i: Input)
    requires !IsCallStop(i) && !i.event.SeccompStop? && !Bootstraps(w.t) && i.again.None?
    ensures Stop(w, i).t.status == w.t.status
  {
    if !i.event.SyscallStop? { QuietHow(w, i); }
    StopIs(w, i);
    hide Stop, Handled;
  }

  /** The death of a tracee is the last that is heard of it. */
  lemma {:induction false} DeathIsLast(w: World, moves: seq<Move>, j: nat, k: nat)
    requires PossibleRun(w, moves) && j < k < |moves| && moves[j].Stops? && moves[j].input.event.Died?
    ensures !moves[k].Stops?
    decreases |moves|
  {
    hide Possible, Does;
    if j == 0 {
      DeathTerminates(w, moves[0].input);
      DeadIsSilent(Does(w, moves[0]), moves[1..], k - 1);
    } else {
      DeathIsLast(Does(w, moves[0]), moves[1..], j - 1, k - 1);
    }
  }

  lemma DeathTerminates(w: World, i: Input)
    requires Possible(w, Stops(i)) && i.event.Died?
    ensures Does(w, Stops(i)).t.terminated
  {}

  lemma {:induction false} DeadIsSilent(w: World, moves: seq<Move>, k: nat)
    requires PossibleRun(w, moves) && w.t.terminated && k < |moves|
    ensures !moves[k].Stops?
    decreases |moves|
  {
    DeadStays(w, moves[0]);
    hide Possible, Does;
    if k > 0 { DeadIsSilent(Does(w, moves[0]), moves[1..], k - 1); }
  }

  lemma DeadStays(w: World, m: Move)
    requires Possible(w, m) && w.t.terminated
    ensures !m.Stops? && Does(w, m).t.terminated
  {}

  // ----- What a whole run needs -----

  predicate Possible(w: World, m: Move) {
    match m
    case Stops(i) => Happens(w, i)
    case _ => Can(w, m)
  }

  predicate PossibleRun(w: World, moves: seq<Move>)
    decreases |moves|
  {
    moves == [] || (Possible(w, moves[0]) && PossibleRun(Does(w, moves[0]), moves[1..]))
  }

  /** In step at every point of a run. */
  predicate StaysInSync(w: World, moves: seq<Move>)
    decreases |moves|
  {
    InSync(w) && (moves == [] || StaysInSync(Does(w, moves[0]), moves[1..]))
  }

  /** A run stays in step if and only if each of its stops is harmless. */
  lemma {:induction false} RunStaysInSyncIff(w: World, moves: seq<Move>)
    requires InSync(w) && PossibleRun(w, moves)
    ensures StaysInSync(w, moves) <==> Run(w, moves)
    decreases |moves|
  {
    hide InSync, Stop, Happens, Harmless, Unseen, Tidy;
    if moves != [] {
      var m, w1 := moves[0], Does(w, moves[0]);
      if m.Stops? { StopKeepsInSyncIff(w, m.input); } else { MoveKeepsInSync(w, m); }
      if InSync(w1) { RunStaysInSyncIff(w1, moves[1..]); }
    }
  }

  /** Registers are fetched wherever a stage needs them, events are handled once, a first SIGTRAP is the stop of a call. */
  predicate Fetched(w: World, i: Input) {
    && Happens(w, i) && i.again.None?
    && match i.event
       case SeccompStop => w.t.seccomp == Enabled && i.answers.flags == Some(true) ==> i.answers.fetched
       case _ => Harmless(w, i)
  }

  predicate FetchedRun(w: World, moves: seq<Move>)
    decreases |moves|
  {
    moves == [] ||
    (&& !moves[0].Inherits? && (if moves[0].Stops? then Fetched(w, moves[0].input) else Can(w, moves[0]))
     && FetchedRun(Does(w, moves[0]), moves[1..]))
  }

  /** A filter stop, in an accelerated tracee, of a call whose entry was seen already. */
  predicate FiltersSeenEntry(w: World, i: Input) {
    i.event.SeccompStop? && w.t.seccomp == Enabled && i.answers.flags.Some? && w.place == Entered
  }

  predicate Unfiltered(w: World, moves: seq<Move>)
    decreases |moves|
  {
    moves == [] ||
    ((moves[0].Stops? ==> !FiltersSeenEntry(w, moves[0].input)) && Unfiltered(Does(w, moves[0]), moves[1..]))
  }

  lemma FetchedStopIff(w: World, i: Input)
    requires InSync(w) && Fetched(w, i)
    ensures Harmless(w, i) <==> !FiltersSeenEntry(w, i)
  {
    hide Alternates, ExitDue;
  }

  /** With registers, a run stays in step if and only if no filter stop follows an entry stop of an accelerated tracee. */
  lemma {:induction false} FetchedRunStaysIff(w: World, moves: seq<Move>)
    requires InSync(w) && FetchedRun(w, moves)
    ensures StaysInSync(w, moves) <==> Unfiltered(w, moves)
    decreases |moves|
  {
    hide InSync, Stop, Happens, Harmless, Unseen, FiltersSeenEntry;
    if moves != [] {
      var m, w1 := moves[0], Does(w, moves[0]);
      if m.Stops? {
        FetchedStopIff(w, m.input);
        FetchedHappens(w, m.input);
        StopKeepsInSyncIff(w, m.input);
      } else {
        MoveKeepsInSync(w, m);
      }
      if InSync(w1) { FetchedRunStaysIff(w1, moves[1..]); }
    }
  }

  lemma FetchedHappens(w: World, i: Input)
    requires Fetched(w, i)
    ensures Happens(w, i)
  {}

  /** A child that took over, before its first stop. */
  function Child(parent: Stages): World {
    var w := Start(false); w.(t := Inherited(w.t, parent))
  }

  /** No bootstrap to come; and whatever is pending, if accelerated, is due, so that there is no entry stop. */
  predicate Unexposed(w: World) {
    !Bootstraps(w.t) && (w.t.seccomp == Enabled ==> w.place != Entered && (w.t.sysexitPending ==> w.t.status != 0))
  }

  lemma SeccompNeverRises(x: Stages, e: Event, a: Answers)
    requires !Bootstraps(x) && (x.boot.enabled ==> x.boot.detected)
    ensures Handled(x, e, a).seccomp == Enabled ==> x.seccomp == Enabled
    ensures Handled(x, e, a).boot == x.boot
  {
    var y := Defaulted(x);
    assert Detected(y) == y && y.boot == x.boot && y.seccomp == x.seccomp;
    AtStageNeverRises(y, a);
    hide Defaulted, Detected, AtStage, AtSeccomp;
  }

  lemma AtStageNeverRises(x: Stages, a: Answers)
    ensures AtStage(x, a).seccomp == Enabled ==> x.seccomp == Enabled
    ensures AtSeccomp(x, a).seccomp == Enabled ==> x.seccomp == Enabled
    ensures AtStage(x, a).boot == x.boot && AtSeccomp(x, a).boot == x.boot
  {
    TranslatedNeverRises(Armed(x), a);
    TranslatedNeverRises(x.(restartHow := Cont), a);
    hide Translated;
  }

  lemma TranslatedNeverRises(x: Stages, a: Answers)
    ensures Translated(x, a).seccomp == Enabled ==> x.seccomp == Enabled
    ensures Translated(x, a).boot == x.boot
  {}

  lemma UnexposedStop(w: World, i: Input)
    requires InSync(w) && Unexposed(w) && Fetched(w, i)
    ensures !FiltersSeenEntry(w, i) && InSync(Stop(w, i)) && Unexposed(Stop(w, i))
  {
    hide Stop, Harmless, Alternates, ExitDue;
    FetchedStopIff(w, i);
    StopKeepsInSyncIff(w, i);
    StopIs(w, i);
    NothingToDetect(w);
    SeccompNeverRises(w.t, i.event, i.answers);
    hide Handled;
    if Stop(w, i).t.seccomp == Enabled {
      if IsCallStop(i) { UnexposedCallStop(w, i); } else { UnexposedOtherStop(w, i); }
    }
  }

  lemma NothingToDetect(w: World)
    requires InSync(w)
    ensures w.t.boot.enabled ==> w.t.boot.detected
  {
    hide Alternates, ExitDue;
  }

  /** It is an exit, and the next entry is the filter's. */
  lemma UnexposedCallStop(w: World, i: Input)
    requires InSync(w) && Unexposed(w) && Happens(w, i) && IsCallStop(i) && w.t.seccomp == Enabled && i.again.None?
    requires Fetched(w, i)
    ensures var y := Handled(w.t, i.event, i.answers); y.seccomp == Enabled ==> y.restartHow == Cont && !y.sysexitPending
    ensures PlaceAfter(w, i) == Outside
  {
    hide Alternates, ExitDue;
    var x := Defaulted(w.t);
    assert x.seccomp == Enabled && x.status != 0;
    AcceleratedExit(x, i.answers);
    hide AtStage, Defaulted;
  }

  lemma UnexposedOtherStop(w: World, i: Input)
    requires InSync(w) && Unexposed(w) && Happens(w, i) && !IsCallStop(i) && i.again.None? && w.t.seccomp == Enabled
    requires InSync(Stop(w, i)) && Fetched(w, i)
    ensures Unexposed(Stop(w, i))
  {
    StopIs(w, i);
    NothingToDetect(w);
    SeccompNeverRises(w.t, i.event, i.answers);
    var w' := Stop(w, i);
    if !i.event.SeccompStop? && w.place == Outside { OutsideIsIdle(w); QuietHow(w, i); }
    hide Stop, Handled, Alternates, ExitDue;
  }

  /** Between calls an accelerated tracee has nothing pending. */
  lemma OutsideIsIdle(w: World)
    requires InSync(w) && Unexposed(w) && w.t.seccomp == Enabled && w.place == Outside
    ensures w.t.status == 0 && !w.t.sysexitPending && Defaulted(w.t).restartHow == Cont
  {
    hide Alternates, ExitDue;
  }

  lemma QuietHow(w: World, i: Input)
    requires !IsCallStop(i) && !i.event.SeccompStop? && !i.event.SyscallStop? && !Bootstraps(w.t)
    ensures var x, y := Defaulted(w.t), Handled(w.t, i.event, i.answers);
            && y.restartHow == x.restartHow && y.status == w.t.status && y.sysexitPending == w.t.sysexitPending
            && y.seccomp == w.t.seccomp && y.boot == w.t.boot
  {}

  lemma StopIs(w: World, i: Input)
    requires i.again.None?
    ensures var w' := Stop(w, i);
            && w'.t == Handled(w.t, i.event, i.answers).(restartHow := Unset) && w'.place == PlaceAfter(w, i)
            && w'.mode == Handled(w.t, i.event, i.answers).restartHow
  {
    hide Handled;
  }

  lemma UnexposedMove(w: World, place: Place)
    requires InSync(w) && Unexposed(w) && Unseen(w, place)
    ensures Unexposed(w.(place := place))
  {
    hide Alternates, ExitDue;
  }

  lemma {:induction false} UnexposedRun(w: World, moves: seq<Move>)
    requires InSync(w) && Unexposed(w) && FetchedRun(w, moves)
    ensures Unfiltered(w, moves)
    decreases |moves|
  {
    hide InSync, Unexposed, Fetched, Stop, Unseen, FiltersSeenEntry;
    if moves != [] {
      match moves[0] {
        case Stops(i) => UnexposedStop(w, i);
        case Moves(place) => UnexposedMove(w, place); MoveKeepsInSync(w, moves[0]);
        case Inherits(_) =>
      }
      UnexposedRun(Does(w, moves[0]), moves[1..]);
    }
  }

  lemma ChildIsInSync(parent: Stages)
    requires Tidy(parent)
    ensures InSync(Child(parent)) && Child(parent).t.callbacks == []
    ensures Unexposed(Child(parent)) <==> !(parent.seccomp == Enabled && parent.sysexitPending)
  {}

  /** SIGSTOP, the stop at the entry of a call, and the filter stop of that call. */
  function FilteredCall(a: Answers, b: Answers): seq<Move> {
    [Stops(Input(Signal(SIGSTOP), false, a, None)), Stops(Input(SyscallStop, false, a, None)),
     Stops(Input(SeccompStop, false, b, None))]
  }

  /**
   * The child of a flagged clone(2) is restarted from its first stop with PTRACE_SYSCALL, so that
   * its next call stops at its entry. If that call is filtered too, the filter stop is taken for
   * its exit.
   */
  lemma FlaggedCloneBreaks(parent: Stages, a: Answers, b: Answers)
    requires Tidy(parent) && parent.seccomp == Enabled && parent.sysexitPending
    requires a.fetched && b.fetched && b.flags == Some(false)
    ensures var w, moves := Child(parent), FilteredCall(a, b);
            && FetchedRun(w, moves) && !Unfiltered(w, moves)
            && After(w, moves).marks == [Mark(OnSysenter, AtEntry, true), Mark(OnSysexit, Elsewhere, false)]
  {
    hide Stop, Fetched, FiltersSeenEntry;
    var w, moves := Child(parent), FilteredCall(a, b);
    var i1, i2, i3 := moves[0].input, moves[1].input, moves[2].input;
    var w1 := Stop(w, i1);
    var w2 := Stop(w1, i2);
    FirstStop(parent, i1, w1);
    EntryStop(w1, i2, w2);
    FilterStop(w2, i3, Stop(w2, i3));
    ThreeStops(w, i1, i2, i3);
  }

  lemma ThreeStops(w: World, i1: Input, i2: Input, i3: Input)
    ensures var moves, w1 := [Stops(i1), Stops(i2), Stops(i3)], Stop(w, i1);
            var w2 := Stop(w1, i2);
            && (Fetched(w, i1) && Fetched(w1, i2) && Fetched(w2, i3) ==> FetchedRun(w, moves))
            && (FiltersSeenEntry(w2, i3) ==> !Unfiltered(w, moves))
            && After(w, moves) == Stop(w2, i3)
  {
    hide Stop, Fetched, FiltersSeenEntry;
    var w1 := Stop(w, i1);
    var w2 := Stop(w1, i2);
    var last, two := [Stops(i3)], [Stops(i2), Stops(i3)];
    var moves := [Stops(i1), Stops(i2), Stops(i3)];
    assert last[1..] == [] && two[1..] == last && moves[1..] == two;
    assert Fetched(w2, i3) ==> FetchedRun(w2, last);
    assert Fetched(w1, i2) && Fetched(w2, i3) ==> FetchedRun(w1, two);
    assert FiltersSeenEntry(w2, i3) ==> !Unfiltered(w2, last) && !Unfiltered(w1, two);
    assert After(w2, last) == Stop(w2, i3) && After(w1, two) == Stop(w2, i3);
  }

  lemma FirstStop(parent: Stages, i: Input, w1: World)
    requires Tidy(parent) && parent.seccomp == Enabled && parent.sysexitPending
    requires i.event == Signal(SIGSTOP) && i.again.None? && w1 == Stop(Child(parent), i)
    ensures Fetched(Child(parent), i)
    ensures w1.mode == Syscall && w1.place == Outside && w1.t.seccomp == Enabled && w1.t.status == 0 && w1.t.restartHow == Unset
    ensures w1.t.boot == Boot(false, false, false, false) && !w1.t.terminated && w1.marks == [] && w1.t.callbacks == []
  {}

  lemma EntryStop(w: World, i: Input, w': World)
    requires w.mode == Syscall && w.place == Outside && w.t.seccomp == Enabled && w.t.status == 0 && w.t.restartHow == Unset
    requires w.t.boot == Boot(false, false, false, false) && !w.t.terminated && w.marks == [] && w.t.callbacks == []
    requires i.event.SyscallStop? && i.again.None? && i.answers.fetched && w' == Stop(w, i)
    ensures Fetched(w, i) && w'.t.boot == w.t.boot && !w'.t.terminated && w'.marks == [Mark(OnSysenter, AtEntry, true)]
    ensures w'.mode == Syscall && w'.place == Entered && w'.t.seccomp == Enabled && w'.t.status != 0 && w'.t.restartHow == Unset
    ensures w'.t.callbacks == [OnSysenter]
  {
    var x := Defaulted(w.t);
    assert x.seccomp == Enabled && x.status == 0 && x.callbacks == [] && x.boot == w.t.boot && !x.terminated;
    AcceleratedEntry(x, i.answers);
    hide AtStage, Defaulted;
  }

  lemma FilterStop(w: World, i: Input, w': World)
    requires w.mode == Syscall && w.place == Entered && w.t.seccomp == Enabled && w.t.status != 0 && w.t.restartHow == Unset
    requires !Bootstraps(w.t) && (w.t.boot.enabled ==> w.t.boot.detected) && !w.t.terminated && w.t.callbacks == [OnSysenter]
    requires i.event.SeccompStop? && i.again.None? && i.answers.fetched && i.answers.flags == Some(false) && w' == Stop(w, i)
    ensures Fetched(w, i) && FiltersSeenEntry(w, i) && w'.marks == w.marks + [Mark(OnSysexit, Elsewhere, false)]
  {
    var x := Defaulted(w.t);
    LateFilter(x, i.answers);
    hide AtSeccomp, Detected, Defaulted;
  }

  /**
   * Inheritance is safe, whatever the child does next, if and only if the parent is not
   * accelerated or not in a flagged call.
   */
  lemma InheritanceIsSafeIff(parent: Stages)
    requires Tidy(parent)
    ensures (forall moves :: FetchedRun(Child(parent), moves) ==> StaysInSync(Child(parent), moves))
       <==> !(parent.seccomp == Enabled && parent.sysexitPending)
  {
    hide InSync, Unexposed, FetchedRun, StaysInSync, Unfiltered;
    var w := Child(parent);
    ChildIsInSync(parent);
    if parent.seccomp == Enabled && parent.sysexitPending {
      var a := Answers(Some(false), true, true, 0, false);
      FlaggedCloneBreaks(parent, a, a);
      FetchedRunStaysIff(w, FilteredCall(a, a));
      assert FetchedRun(w, FilteredCall(a, a)) && !StaysInSync(w, FilteredCall(a, a));
    } else {
      forall moves | FetchedRun(w, moves) ensures StaysInSync(w, moves) {
        UnexposedRun(w, moves);
        FetchedRunStaysIff(w, moves);
      }
    }
  }

  // ----- The run of a root -----

  /** Where the bootstrap of an accelerated root is. */
  datatype Phase = Booting | Booted | FirstEntry | Past

  /** Its SIGTRAP is the entry of its first call, or comes before; the call goes on to its filter, or to its exit. */
  function NextPhase(phase: Phase, m: Move): Phase {
    match phase
    case Booting =>
      if m.Stops? && m.input.event.Trap? then
        if !m.input.answers.seccompOption then Past else if m.input.callStop then FirstEntry else Booted
      else Booting
    case Booted => if m.Stops? && m.input.event.SyscallStop? then FirstEntry else Booted
    case FirstEntry =>
      if m.Stops? && !m.input.event.SyscallStop? && !m.input.event.SeccompStop? then FirstEntry else Past
    case Past => Past
  }

  predicate IsFilterStop(m: Move) { m.Stops? && m.input.event.SeccompStop? && m.input.answers.flags.Some? }

  /** The first call of an accelerated root shows a filter stop of its own after its entry stop. */
  predicate FirstCallFiltered(phase: Phase, moves: seq<Move>)
    decreases |moves|
  {
    moves != [] &&
    ((phase.FirstEntry? && IsFilterStop(moves[0])) || FirstCallFiltered(NextPhase(phase, moves[0]), moves[1..]))
  }

  predicate AtPhase(w: World, phase: Phase) {
    match phase
    case Booting => Bootstraps(w.t) && !w.t.boot.detected
    case Booted => !Bootstraps(w.t) && w.t.seccomp == Enabled && w.t.sysexitPending && w.t.status == 0 && w.mode == Syscall
    case FirstEntry => !Bootstraps(w.t) && w.t.seccomp == Enabled && w.t.sysexitPending && w.t.status != 0
                       && w.mode == Syscall && w.place == Entered
    case Past => Unexposed(w)
  }

  lemma BootStop(w: World, i: Input)
    requires InSync(w) && Fetched(w, i) && AtPhase(w, Booting)
    ensures !FiltersSeenEntry(w, i) && AtPhase(Stop(w, i), NextPhase(Booting, Stops(i)))
  {
    BootstrapStarts(w);
    StopIs(w, i);
    hide Stop, Alternates, ExitDue;
    if i.event.Trap? { BootTrap(w, i); }
  }

  /** The bootstrap itself. */
  lemma BootTrap(w: World, i: Input)
    requires InSync(w) && Fetched(w, i) && AtPhase(w, Booting) && i.event.Trap?
    ensures AtPhase(Stop(w, i), NextPhase(Booting, Stops(i)))
  {
    BootstrapStarts(w);
    StopIs(w, i);
    DefaultedKeeps(w.t);
    var x, a := Defaulted(w.t), i.answers;
    var x1 := Detected(x.(boot := x.boot.(deliverSigtrap := true, enabled := a.seccompOption)));
    assert x1.status == 0 && !Bootstraps(x1) && x1.restartHow == Syscall && x1.seccomp == if a.seccompOption then Enabled else Disabled;
    FirstStage(x1, a);
    assert Handled(w.t, i.event, a) == AtStage(x1, a);
    hide Stop, Alternates, ExitDue, AtStage, Defaulted, Detected, InSync;
  }

  lemma FirstStage(x: Stages, a: Answers)
    requires x.status == 0 && x.seccomp != Disabling && x.restartHow == Syscall
    ensures var y := AtStage(x, a);
            && y.boot == x.boot && y.seccomp == x.seccomp && (a.fetched ==> y.status != 0) && (!a.fetched ==> y.status == 0)
            && (x.seccomp == Enabled ==> y.sysexitPending && y.restartHow == Syscall)
  {}

  lemma FirstCallStop(w: World, i: Input, phase: Phase)
    requires InSync(w) && Fetched(w, i) && AtPhase(w, phase) && (phase.Booted? || phase.FirstEntry?) && i.event.SyscallStop?
    ensures AtPhase(Stop(w, i), NextPhase(phase, Stops(i)))
  {
    hide Alternates, ExitDue;
    StopIs(w, i);
    var x := Defaulted(w.t);
    assert x.seccomp == Enabled && x.status == w.t.status && x.boot == w.t.boot;
    if phase.Booted? {
      assert w.place == Outside && x.restartHow == Syscall;
      FirstStage(x, i.answers);
    } else {
      AcceleratedExit(x, i.answers);
      AtStageNeverRises(x, i.answers);
    }
    hide Stop, AtStage, Defaulted;
  }

  lemma FirstFilterStop(w: World, i: Input)
    requires InSync(w) && Fetched(w, i) && AtPhase(w, FirstEntry) && i.event.SeccompStop? && i.answers.flags.None?
    ensures Unexposed(Stop(w, i))
  {
    hide Alternates, ExitDue;
    StopIs(w, i);
    NothingToDetect(w);
    hide Stop;
  }

  lemma FirstCall(w: World, i: Input, phase: Phase)
    requires InSync(w) && Fetched(w, i) && AtPhase(w, phase) && (phase.Booted? || phase.FirstEntry?)
    ensures FiltersSeenEntry(w, i) <==> phase.FirstEntry? && IsFilterStop(Stops(i))
    ensures !FiltersSeenEntry(w, i) ==> AtPhase(Stop(w, i), NextPhase(phase, Stops(i)))
  {
    hide Stop, Alternates, ExitDue;
    assert phase.Booted? ==> w.place == Outside;
    if i.event.SyscallStop? {
      FirstCallStop(w, i, phase);
    } else if i.event.SeccompStop? {
      if i.answers.flags.None? && phase.FirstEntry? { FirstFilterStop(w, i); }
    } else {
      StopIs(w, i);
      QuietHow(w, i);
      PendingHow(w);
      hide Handled;
    }
  }

  lemma PendingHow(w: World)
    requires InSync(w) && w.t.sysexitPending
    ensures Defaulted(w.t).restartHow == Syscall
  {
    hide Alternates, ExitDue;
  }

  lemma PhaseStop(w: World, i: Input, phase: Phase)
    requires InSync(w) && Fetched(w, i) && AtPhase(w, phase)
    ensures FiltersSeenEntry(w, i) <==> phase.FirstEntry? && IsFilterStop(Stops(i))
    ensures !FiltersSeenEntry(w, i) ==> InSync(Stop(w, i)) && AtPhase(Stop(w, i), NextPhase(phase, Stops(i)))
  {
    hide InSync, Stop, Fetched, Unexposed, FiltersSeenEntry, Harmless;
    FetchedHappens(w, i);
    match phase {
      case Booting => BootStop(w, i);
      case Past => UnexposedStop(w, i);
      case _ => FirstCall(w, i, phase);
    }
    FetchedStopIff(w, i);
    StopKeepsInSyncIff(w, i);
  }

  lemma PhaseMove(w: World, place: Place, phase: Phase)
    requires InSync(w) && AtPhase(w, phase) && Can(w, Moves(place))
    ensures InSync(w.(place := place)) && AtPhase(w.(place := place), NextPhase(phase, Moves(place)))
  {
    MoveKeepsInSync(w, Moves(place));
    hide Alternates, ExitDue;
  }

  lemma {:induction false} PhaseRun(w: World, phase: Phase, moves: seq<Move>)
    requires InSync(w) && AtPhase(w, phase) && FetchedRun(w, moves)
    ensures Unfiltered(w, moves) <==> !FirstCallFiltered(phase, moves)
    decreases |moves|
  {
    hide InSync, AtPhase, Fetched, Stop, FiltersSeenEntry, Can, NextPhase;
    if moves != [] {
      var m := moves[0];
      match m {
        case Stops(i) => PhaseStop(w, i, phase);
        case Moves(place) => PhaseMove(w, place, phase);
        case Inherits(_) =>
      }
      if !(m.Stops? && FiltersSeenEntry(w, m.input)) { PhaseRun(Does(w, m), NextPhase(phase, m), moves[1..]); }
    }
  }

  /**
   * A root stays in step, whatever comes after, if and only if its first call, the one it is
   * bootstrapped in, shows no filter stop of its own.
   */
  lemma RootStaysIff(moves: seq<Move>)
    requires FetchedRun(Start(true), moves)
    ensures StaysInSync(Start(true), moves) <==> !FirstCallFiltered(Booting, moves)
  {
    hide InSync, FetchedRun, StaysInSync, Unfiltered, FirstCallFiltered;
    StartIsInSync(true);
    assert AtPhase(Start(true), Booting);
    PhaseRun(Start(true), Booting, moves);
    FetchedRunStaysIff(Start(true), moves);
  }

  /** SIGSTOP, the SIGTRAP of the bootstrap, and the filter stop of the call it is the entry of. */
  function FilteredBoot(a: Answers, b: Answers): seq<Move> {
    [Stops(Input(Signal(SIGSTOP), false, a, None)), Stops(Input(Trap, true, a, None)), Stops(Input(SeccompStop, false, b, None))]
  }

  /** Such a filter stop is taken for the exit of the call. */
  lemma FilteredBootBreaks(a: Answers, b: Answers)
    requires a.fetched && a.seccompOption && b.fetched && b.flags == Some(false)
    ensures var moves := FilteredBoot(a, b);
            && FetchedRun(Start(true), moves) && FirstCallFiltered(Booting, moves)
            && After(Start(true), moves).marks == [Mark(OnSysenter, AtEntry, true), Mark(OnSysexit, Elsewhere, false)]
  {
    hide Stop, Fetched, FiltersSeenEntry;
    var w, moves := Start(true), FilteredBoot(a, b);
    var i1, i2, i3 := moves[0].input, moves[1].input, moves[2].input;
    var w1 := Stop(w, i1);
    var w2 := Stop(w1, i2);
    RootFirstStop(i1, w1);
    RootTrap(w1, i2, w2);
    FilterStop(w2, i3, Stop(w2, i3));
    ThreeStops(w, i1, i2, i3);
    assert moves[1..][0] == moves[1] && moves[1..][1..] == moves[2..] && moves[2..][0] == moves[2];
    assert FirstCallFiltered(FirstEntry, moves[2..]);
    assert FirstCallFiltered(Booting, moves[1..]);
  }

  lemma RootFirstStop(i: Input, w1: World)
    requires i.event == Signal(SIGSTOP) && i.again.None? && w1 == Stop(Start(true), i)
    ensures Fetched(Start(true), i)
    ensures w1 == World(Fresh(true).(sigstopAllowed := true), Outside, Syscall, [])
  {}

  lemma RootTrap(w: World, i: Input, w': World)
    requires w == World(Fresh(true).(sigstopAllowed := true), Outside, Syscall, []) && w' == Stop(w, i)
    requires i.event.Trap? && i.callStop && i.again.None? && i.answers.fetched && i.answers.seccompOption
    ensures Fetched(w, i) && w'.mode == Syscall && w'.place == Entered && w'.t.seccomp == Enabled && w'.t.status != 0
    ensures w'.t.restartHow == Unset && w'.t.boot == Boot(true, true, true, true) && !w'.t.terminated
    ensures w'.t.callbacks == [OnSysenter] && w'.marks == [Mark(OnSysenter, AtEntry, true)]
  {
    var x := Defaulted(w.t);
    assert x == w.t.(restartHow := Syscall);
    var x1 := Detected(x.(boot := Boot(true, true, true, false)));
    assert x1.seccomp == Enabled && x1.status == 0 && x1.callbacks == [] && x1.boot == Boot(true, true, true, true);
    AcceleratedEntry(x1, i.answers);
    hide AtStage, Defaulted, Detected;
  }

  // ----- A stop before the birth -----

  /**
   * A tracee that runs already, in a call, when it takes over an accelerated parent outside of a
   * flagged call: the next event of the call lets the exit go by, and the next filter stop, at
   * an entry, is taken for it.
   */
  lemma LateBirthSkipsExit(w: World, parent: Stages, a: Answers, b: Answers)
    requires InSync(w) && w.mode == Syscall && w.place == Inside && !w.t.terminated && !w.t.boot.isRoot
    requires Tidy(parent) && parent.seccomp == Enabled && !parent.sysexitPending
    requires b.flags.Some? && b.fetched
    ensures var w1 := w.(t := Inherited(w.t, parent));
            var notice, filtered := Input(Notice, false, a, None), Input(SeccompStop, false, b, None);
            && Happens(w1, notice)
            && var w2 := Stop(w1, notice);
            && ExitDue(w2.marks) && Unseen(w2, Outside)
            && var w3 := w2.(place := Outside);
            && Happens(w3, filtered)
            && var w4 := Stop(w3, filtered);
            && |w4.marks| == |w3.marks| + 1 && w4.marks[|w3.marks|] == Mark(OnSysexit, AtEntry, false)
  {
    hide Alternates, ExitDue, Translated;
    var w1 := w.(t := Inherited(w.t, parent));
    var w2 := Stop(w1, Input(Notice, false, a, None));
    var w3 := w2.(place := Outside);
    var x := Defaulted(w3.t);
    assert x.status != 0 && x.seccomp == Enabled && x.restartHow == Cont;
    LateFilter(x, b);
    hide AtSeccomp, Defaulted;
  }

  lemma LateFilter(x: Stages, b: Answers)
    requires x.status != 0 && x.seccomp == Enabled && b.flags.Some? && b.fetched && (x.boot.enabled ==> x.boot.detected)
    ensures var y := AtSeccomp(Detected(x), b); y.callbacks == x.callbacks + [OnSysexit] && y.status == 0
  {}
}
