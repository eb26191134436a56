# Abyss: a verified model of the tracer

Abyss runs Android programs under a user-space tracer: it stops tracees at their system
calls with ptrace(2), with or without a seccomp filter in front, emulates ptrace(2) and
wait(2) for tracees that trace each other, maps and starts ELF programs with a small
loader, and rewrites paths through bindings. This project states what that machinery does
and proves that it does it, for all inputs and all runs. `dafny verify dfyconfig.toml`
checks everything.

## How it is laid out

Code that changes state is a class, or a method on an array, with the loops and branches of
the C; each is tied by its contract to a function on values, and the theorems are about
those functions. Several modules have a class `Tracee`: each holds the fields of `struct
tracee` its part of the program works on.

| modules | what they are about |
|---|---|
| PtraceState, PtraceEmulation, Tracees | the registry of tracees, ptrace(2) and wait(2) emulated, one turn of the event loop: as functions, and as the program |
| PtraceConservation, PtracePending, PtraceBlocking, PtraceWakeups, PtraceLostWakeup, PtraceTwice, PtraceTwiceRuns, PtraceAnswers, PtraceReports, PtraceRequests, PtraceChildren | what wait4(2) and ptrace(2) answer and do, what a ptracer is told, what a child has and a dead tracee leaves; what all runs keep: counters and references, what can be pending, no stranded waiter, no lost wakeup; and runs that lose one, or have an event handled twice |
| SyscallStages | entry and exit stages of system calls with and without seccomp, against the stops of the kernel |
| ProcessMemory, ElfMapping, LoadScript, Loader, Loading, ProgramLoading | program headers to mappings, mappings to a load script, the script to bytes, the bytes to a running program |
| AuxiliaryVectors | the vectors on the initial stack |
| Sysnums, FilteredSysnums, ClassicBpf, SeccompFilter, SeccompDecision, SyscallFiltering | the filter compiler, its list, its tables and an interpreter for what it emits |
| Paths, Canonicalization, Bindings | comparison, joining, prefix substitution and canonicalization of paths; the two sorted lists of bindings |
| TraceeMemory, Registers, BrkEmulation | memory of a tracee word by word and in chunks, stack allocation, the emulated heap |

The kernel is adversarial: whatever it answers (a fork event, the death of a process, a
failing register fetch, a refused restart, a partial write) is an arbitrary input. Where a
theorem needs something of it or of the tracees, that is a named predicate of the run:

- `FairRun` (conservation): the child of a fork event has a pid that is neither its
  parent's nor that of its parent's ptracer. NewChildIsSoundIff says that this is needed.
- `TrueRun` (no stranded waiter): a stopped tracee reports nothing but its death.
- `TruthfulRun` (no lost wakeup): pids are positive and the dead cannot be restarted. Under
  that, NoLostWakeupIff has the exact condition, LosesNone; `ReadRun` implies it and says of
  ptracers that whoever stops has had its last event read, or dies.
- `Run` in SyscallStages: each stop is `Harmless`, which StopKeepsInSyncIff shows to be the
  exact condition for one stop and RunStaysInSyncIff for a run, and no request for
  single-stepping is made.

## Where the code is not what its comments say

The model follows the code. These are theorems, with the exact condition:

- With libc excluded, the filter allows every architecture but the first, instead of going
  on to the next section or killing (ExcludeModeDecides, ExcludeModeAgreesExactly).
- One number per ABI reads one entry past the table of system calls
  (TranslateReadsPastTable).
- Replacing the prefix "/" by "/" loses the leading slash (RootForRootIsWrong); bindings
  never ask for that (SubstitutionIsFaithful).
- A child that attached to its parent before its fork event is handled ends up tracing
  itself (NewChildIsSoundIff).
- An event that is handled before its ptracer is told is handled again when that ptracer is
  blocked in a wait for the tracee, and dead (HandledTwiceIff). For a fork event this aborts
  the tracer, but for untraced siblings of a tracee without parent (ForkAbortsIff); for an exit
  stop (ExitTwiceIff) it turns stages around, unless just one of the two saw registers
  (TwiceIff). ForkAborts and ExitIsEntered are runs that lead there.
- A child that stopped before its fork event can lose an exit stage (LateBirthSkipsExit).
- Restarting a ptracee without collecting its event can lose a wakeup (WakeupIsLost, with
  the exact condition in NoLostWakeupIff).
- The child of a clone(2) that the filter flags takes its parent's pending exit over, stops at
  the entry of its next call, and has the filter stop of that call translated as its exit
  (FlaggedCloneBreaks, InheritanceIsSafeIff).
- The first call that an accelerated root is seen to enter must not show its filter stop, for
  the same reason (RootStaysIff, FilteredBootBreaks).
- A segment with zeros to add makes the loader fault when it is read-only, or when its bytes
  end both a page and the file, since one page more than needed is mapped and cleared
  (ReadOnlyZerosFault, ZerosPastFileFault; exactly then: ProgramLoads).
- The fallbacks that peek word by word test errno without clearing it first: they fail at once
  when it was set before and the C library leaves it alone (ReadStringByWords, ReadData; for
  writes, when the last word is a part of one: WriteData).
- AT_PHDR counts from the first mapping, so it is wrong for a program whose first segment does
  not start in the first page of the file (HeadersAreThereIff).
- Clearing inside one word clears the whole word (ClearIsExact); the mappings never ask for
  that (FileLoadedIsApply).
- Without auxiliary vectors the loader runs past their terminator (AdjustNoVectors).

## Model

| member | source | states |
|---|---|---|
| PtraceConservation.RunKeeps | library/src/main/jni/tracee/event.c:320-417 | Over every sequence of events from a state with this invariant, such as the empty registry, it holds: each ptracer's counter equals its live ptracees plus its zombies, nobody traces itself, every parent and ptracer is registered, the list holds every entry once |
| PtraceConservation.StartIsSound | library/src/main/jni/tracee/tracee.c:53-59 | The empty registry satisfies that invariant, so it holds in every reachable state |
| PtraceConservation.TurnKeeps | library/src/main/jni/tracee/event.c:320-417 | One turn of the event loop, with the freeing of terminated tracees before it, keeps the invariant |
| PtraceConservation.StopKeeps | library/src/main/jni/tracee/event.c:385-395 | Handling any event of a known tracee, whether passed on to a ptracer or not, keeps it |
| PtraceConservation.PtraceExitKeeps | library/src/main/jni/ptrace/ptrace.c:130-700 | Every request of the emulated ptrace(2) keeps it, failed ones included |
| PtraceConservation.WaitExitKeeps | library/src/main/jni/ptrace/wait.c:189-237 | Reading an event, burying a zombie, or blocking keeps it |
| PtraceConservation.NewChildKeeps | library/src/main/jni/tracee/tracee.c:425-634 | Registering a child, traced as its parent is or not, keeps it |
| PtraceConservation.NewChildIsSoundIff | library/src/main/jni/tracee/tracee.c:514-532 | Inheritance keeps it if and only if the parent is not traced by the child: a fork event handled after the child has attached to its parent makes the child trace itself |
| PtraceConservation.SecondBirthAbortsIff | library/src/main/jni/tracee/tracee.c:425-476 | A second birth of the same child fails the assertion of new_child(), if and only if the child is not a sibling of a parent without parent or is traced as its parent is |
| PtraceConservation.RemoveKeeps | library/src/main/jni/tracee/tracee.c:90-178 | Removing any tracee (its children orphaned, its ptracees freed, its own death kept as a zombie or its ptracer unblocked) keeps it |
| PtraceConservation.ReleaseOneReleases | library/src/main/jni/tracee/tracee.c:100-131 | A relative of the removed tracee refers to it no more afterwards, and the others are unaffected |
| PtraceConservation.FreeTerminatedKeeps | library/src/main/jni/tracee/tracee.c:401-418 | Freeing any number of terminated tracees keeps it |
| PtraceState.AttachIsSoundIff | library/src/main/jni/ptrace/ptrace.c:103-110 | Attaching keeps the invariant if and only if tracer and tracee differ |
| PtraceState.DetachKeeps | library/src/main/jni/ptrace/ptrace.c:116-124 | Detaching keeps it |
| PtraceState.TracedIsCounted | library/src/main/jni/ptrace/ptrace.c:121-122 | Whoever has a ptracee has a positive counter, so the assertion in detach_from_ptracer() never fails |
| PtraceBlocking.RunCalm | library/src/main/jni/ptrace/wait.c:189-237 | Over every run: a ptracer blocked in an emulated wait is stopped and still has a ptracee or zombie to wait for |
| PtraceBlocking.WaitExitCalm | library/src/main/jni/ptrace/wait.c:203-228 | Whoever gets blocked at the exit of a wait is not running and has ptracees |
| PtraceBlocking.ForgetCalm | library/src/main/jni/tracee/tracee.c:163-175 | The ptracer that loses its last ptracee is unblocked |
| PtraceBlocking.TurnCalm | library/src/main/jni/tracee/event.c:320-417 | One turn of the event loop strands nobody |
| PtraceWakeups.NoLostWakeupIff | library/src/main/jni/ptrace/wait.c:189-368 | Over every run of a truthful kernel: at every point, the wait each blocked ptracer is in would find neither a zombie nor a stopped ptracee with an event, if and only if no event of the run loses a wakeup |
| PtraceWakeups.NoLostWakeup | library/src/main/jni/ptrace/wait.c:333-365 | So no wakeup is lost in a run where whoever stops has had its last event read, that is, where ptracees are restarted only after their events are collected |
| PtraceWakeups.TurnHearsIff | library/src/main/jni/tracee/event.c:320-417 | One turn, freeing included, keeps this if and only if its event does not lose a wakeup: its tracee has an event its waiting ptracer has not read, is not reported this time, and does not go on |
| PtraceWakeups.StopHearsIff | library/src/main/jni/tracee/event.c:385-395 | The same for the handling of one event of a known tracee |
| PtraceWakeups.AttentiveIff | library/src/main/jni/tracee/tracee.c:262-314 | The invariant says exactly that get_ptracee() would find nobody for any blocked ptracer |
| PtraceWakeups.StartIsHearing | library/src/main/jni/tracee/tracee.c:53-59 | It holds of the empty registry |
| PtraceWakeups.BlockHears | library/src/main/jni/ptrace/wait.c:203-228 | A wait that finds nobody may block |
| PtraceWakeups.TellHears | library/src/main/jni/ptrace/wait.c:333-365 | Once a ptracer is told of an event it no longer waits for that ptracee, whatever was unread before and whether or not it can be restarted |
| PtraceWakeups.WakeHears | library/src/main/jni/ptrace/wait.c:346-361 | Delivery ends the wait of the ptracer and leaves no other one with something to find |
| PtraceWakeups.ZombifyHears | library/src/main/jni/tracee/tracee.c:133-158 | A zombie is matched by exactly the waits that matched its tracee, so no blocked ptracer misses it |
| PtraceWakeups.FreeTerminatedHears | library/src/main/jni/tracee/tracee.c:401-418 | Freeing terminated tracees loses no wakeup |
| PtraceWakeups.OnlyUnreadLoses | library/src/main/jni/tracee/event.c:678-703 | An event that loses a wakeup is one of a tracee that was running with an event not read |
| PtraceWakeups.ResumeLeavesUnreadIff | library/src/main/jni/ptrace/ptrace.c:684-698 | A request to resume leaves its ptracee running with an event not read if and only if its ptracer had not read it and the restart succeeds |
| PtraceLostWakeup.ResumeIsHarmlessIff | library/src/main/jni/ptrace/ptrace.c:684-698 | The same run of three processes with or without reading an event before the ptracee is resumed: its ptracer ends up blocked, and get_ptracee() would find nobody for it if and only if the event was read |
| PtraceLostWakeup.WakeupIsLost | library/src/main/jni/ptrace/wait.c:203-228 | There is a run from the empty registry after which a ptracer is blocked although get_ptracee() would find its stopped ptracee |
| PtraceTwice.HandledTwiceIff | library/src/main/jni/ptrace/wait.c:245-365 | An event is handled twice, first for the ptracer and then again, if and only if it is one that is handled first, its ptracer is blocked in a wait for the tracee, and that ptracer cannot be restarted since it is dead |
| PtraceTwice.StopTwice | library/src/main/jni/tracee/event.c:385-399 | What comes of it: the event loop handles the event in the state that the first handling and the notification of the ptracer have left |
| PtraceTwice.ForkAbortsIff | library/src/main/jni/tracee/event.c:385-399 | Handling a fork event whose child has no parent and no ptracer yet ends in the assertion of new_child() if and only if the event is handled twice, for such a ptracer, and the child is not the untraced sibling of a tracee without parent; in that case the second handling changes nothing |
| PtraceTwice.ExitTwiceIff | library/src/main/jni/ptrace/wait.c:245-365 | Of the stops of system calls, those are handled twice that are at an exit which the ptracer sees, when that is blocked in a wait for the tracee, and dead |
| PtraceTwice.ExitThenEntry | library/src/main/jni/tracee/event.c:385-399 | The first handling of such an exit is the exit stage, and the second is that of an entry |
| PtraceTwiceRuns.ForkAborts | library/src/main/jni/ptrace/wait.c:310-360 | There is a run from the empty registry, of a truthful kernel, after which the first fork event of a new child fails the assertion of new_child() |
| PtraceTwiceRuns.ExitIsEntered | library/src/main/jni/ptrace/wait.c:310-360 | There is such a run after which the stop at the exit of a system call is handled as that exit and then as an entry |
| PtraceAnswers.ReportsIff | library/src/main/jni/ptrace/wait.c:123-237 | wait4(2) answers a pid if and only if it is that of the first zombie that matches pid and clone flags, or without such a zombie of the first matching ptracee that is stopped with an event not read, whose death the kernel does not tell the caller, and the status can be written |
| PtraceAnswers.FailsIff | library/src/main/jni/ptrace/wait.c:123-237 | It fails if and only if there is such a one and the status cannot be written |
| PtraceAnswers.AgainIff | library/src/main/jni/ptrace/wait.c:123-165 | It is made again if and only if the one to report is a dead child of the caller |
| PtraceAnswers.NothingYetIff | library/src/main/jni/ptrace/wait.c:208-220 | It answers 0 if and only if WNOHANG was given, nothing can be read, and a registered tracee matches and has the caller as its ptracer |
| PtraceAnswers.NoChildIff | library/src/main/jni/ptrace/wait.c:203-220 | It answers -ECHILD if and only if no zombie and no ptracee matches, and WNOHANG was given or the caller has none at all |
| PtraceAnswers.BlocksIff | library/src/main/jni/ptrace/wait.c:221-230 | It blocks if and only if nothing can be read, the caller has a ptracee or a zombie, and WNOHANG was not given |
| PtraceAnswers.ZombieRead | library/src/main/jni/ptrace/wait.c:123-187 | All it changes when it reads a zombie: that one is gone, and counted no more |
| PtraceAnswers.TraceeRead | library/src/main/jni/ptrace/wait.c:123-187 | All it changes when it reads a tracee: its event is marked as read, or it is detached |
| PtraceAnswers.NothingRead | library/src/main/jni/ptrace/wait.c:203-230 | All it changes otherwise: the wait the caller is blocked in |
| PtraceAnswers.WaitIsEmulatedIff | library/src/main/jni/ptrace/wait.c:88-116 | A wait is emulated if and only if the caller has a ptracee, and the wait is for any pid or one matches |
| PtraceReports.AskedIsReported | library/src/main/jni/ptrace/wait.c:245-365 | Each PTRACE_EVENT_* whose own option is set, each system call that is to be seen, each signal and each death is recorded for the ptracer as it has to look; a wait for it that is under way ends; the tracee is kept stopped but for a death, or a dead ptracer |
| PtraceReports.UnaskedIsIgnored | library/src/main/jni/ptrace/wait.c:245-330 | Any other event leaves ptracer and record alone, and is handled as that of any tracee |
| PtraceReports.ReportedIsFound | library/src/main/jni/ptrace/wait.c:245-365 | A recorded event is there for every later wait that is for its tracee |
| PtraceChildren.ChildIs | library/src/main/jni/tracee/tracee.c:425-545 | All a child has: its parent or that of its parent, and when the option for it or CLONE_PTRACE is set, the ptracer and all options of its parent, no event, tracing not started; nobody else changes but for the number of ptracees |
| PtraceChildren.ReleasedIs | library/src/main/jni/tracee/tracee.c:90-178 | A relative of a removed tracee loses it as parent and as ptracer, is nobody's ptracee then, and goes on if an event had to wait for that ptracer |
| PtraceChildren.LeftIs | library/src/main/jni/tracee/tracee.c:90-178 | The ptracer of a removed tracee keeps an unread death as a zombie with pid, clone flag, parent and status; else it has one ptracee less, and without any is not blocked any more |
| PtraceChildren.DeathTerminates | library/src/main/jni/tracee/event.c:465-477 | A death terminates the tracee, whoever traces it |
| PtraceChildren.FreesTheTerminated | library/src/main/jni/tracee/tracee.c:401-418 | All terminated tracees are removed, and nobody else |
| PtraceChildren.TurnFindsTheLiving | library/src/main/jni/tracee/event.c:320-385 | An event finds in the registry its tracee and exactly those that have not terminated |
| PtraceRequests.AttachDoes | library/src/main/jni/ptrace/ptrace.c:183-206 | ATTACH answers -ESRCH, -EPERM or 0 if and only if there is no such process, or one that is traced or is the caller, or another one, which then is an untouched ptracee of the caller; else nothing changes |
| PtraceRequests.TraceMeDoes | library/src/main/jni/ptrace/ptrace.c:146-181 | TRACEME answers -EPERM if and only if the caller is traced or its own parent; else it becomes a ptracee of its parent, whose wait in the kernel is made again |
| PtraceRequests.SubjectIff | library/src/main/jni/ptrace/ptrace.c:211-234 | Any other request is about the stopped ptracee of the caller with that pid, if no zombie has it |
| PtraceRequests.NoSubjectNoRequest | library/src/main/jni/ptrace/ptrace.c:211-234 | It answers -ESRCH if and only if there is none, and then nothing changes |
| PtraceRequests.SetOptionsDoes | library/src/main/jni/ptrace/ptrace.c:269-279 | SETOPTIONS stores the options asked for and changes nothing else; seccomp is refused |
| PtraceRequests.ResumeDoes | library/src/main/jni/ptrace/ptrace.c:236-268 | A restarting request lets the ptracee go on, unless it is blocked itself or dead, with its system calls seen or not, the same ptracer and options, and nothing pending |
| PtraceRequests.LetGoDoes | library/src/main/jni/ptrace/ptrace.c:260-263 | DETACH does the same, and nobody traces the ptracee then |
| PtraceRequests.UnreadDoesNothing | library/src/main/jni/syscall/syscall.c:103-112 | Without its registers, a stop of a system call changes nothing of what a tracee traces and waits for, and nobody else |
| PtracePending.RunDefers | library/src/main/jni/ptrace/wait.c:245-331 | Over every run, an event that is kept for later (event4.proot) is a signal, or the entry of a system call of a tracee that is not in an exit stage |
| PtracePending.StartIsDeferred | library/src/main/jni/tracee/tracee.c:53-59 | It holds of the empty registry |
| PtracePending.PendingIsQuiet | library/src/main/jni/ptrace/ptrace.c:684-686 | For such an event the whole of handle_tracee_event() comes to what QuietEvent does: no exit stage, no birth, no death |
| PtracePending.ProceedIsFull | library/src/main/jni/ptrace/ptrace.c:684-698 | So the restart of a ptracee by its ptracer handles its pending event in full |
| PtracePending.ProceedsIsFull | library/src/main/jni/tracee/tracee.c:111-120 | And so does the release of the ptracees of a tracee that goes away |
| PtracePending.PtraceeEventDefers | library/src/main/jni/ptrace/wait.c:245-368 | Whatever the event, what handle_ptracee_event() leaves pending when it keeps the ptracee stopped can wait |
| Tracees.Registry.AttachToPtracer | library/src/main/jni/ptrace/ptrace.c:103-110 | The state becomes that of PtraceState.Attach: as_ptracee zeroed but for the ptracer, counter one up, all other entries unchanged |
| Tracees.Registry.DetachFromPtracer | library/src/main/jni/ptrace/ptrace.c:116-124 | The state becomes that of PtraceState.Detach |
| Tracees.Registry.TranslateWaitEnter | library/src/main/jni/ptrace/wait.c:88-115 | The state is that of PtraceEmulation.WaitEnter: the wait is emulated when the caller has ptracees, and otherwise left to the kernel, which is remembered |
| Tracees.Registry.TranslateWaitExit | library/src/main/jni/ptrace/wait.c:189-237 | State and verdict are those of PtraceEmulation.WaitExit: what these are is in PtraceAnswers |
| Tracees.Registry.UpdateFromZombie | library/src/main/jni/ptrace/wait.c:123-182 | Reading a zombie removes it, counts down, and reports its status |
| Tracees.Registry.UpdateFromTracee | library/src/main/jni/ptrace/wait.c:123-182 | Reading a live ptracee clears its pending event and reports it |
| Tracees.Registry.HandlePtraceeEvent | library/src/main/jni/ptrace/wait.c:245-368 | State and keep-stopped verdict are those of PtraceEmulation.PtraceeEvent, with the filtering by options, the events handled first, and the delivery to a blocked ptracer; what these are is in PtraceReports |
| Tracees.Registry.TranslatePtraceExit | library/src/main/jni/ptrace/ptrace.c:130-700 | The state is that of PtraceEmulation.PtraceExit and the answer that of PtraceAnswerTo, for TRACEME, ATTACH, the restarting requests, DETACH and SETOPTIONS; what these are is in PtraceRequests |
| Tracees.Registry.Proceed | library/src/main/jni/ptrace/ptrace.c:684-698 | The state is that of PtraceEmulation.Proceed, its pending event handled by HandlePendingEvent |
| Tracees.Registry.HandlePendingEvent | library/src/main/jni/ptrace/ptrace.c:684-686 | The state is that of the full TraceeEvent on the pending event |
| Tracees.Registry.GetPtracee | library/src/main/jni/tracee/tracee.c:262-314 | The answer is that of PtraceEmulation.GetPtracee: zombies before live ptracees, with the pid, option, stopped and pending filters |
| Tracees.Registry.GetTracee | library/src/main/jni/tracee/tracee.c:340-361 | The entry with that pid, or a new zeroed one in front of the list |
| Tracees.Registry.NewChild | library/src/main/jni/tracee/tracee.c:425-634 | The state is that of PtraceEmulation.NewChild |
| Tracees.Registry.RemoveTracee | library/src/main/jni/tracee/tracee.c:90-178 | The state is that of PtraceEmulation.Remove |
| Tracees.Registry.FreeTerminatedTracees | library/src/main/jni/tracee/tracee.c:401-418 | The state is that of PtraceEmulation.FreeTerminated |
| Tracees.Registry.RestartTracee | library/src/main/jni/tracee/event.c:678-703 | A blocked or dead tracee is left as it is, another one runs |
| Tracees.Registry.HandleTraceeEvent | library/src/main/jni/tracee/event.c:428-671 | The state is that of PtraceEmulation.TraceeEvent |
| Tracees.Registry.Turn | library/src/main/jni/tracee/event.c:320-417 | The state after one turn of the event loop is that of PtraceEmulation.Turn, so all theorems about runs are about this program; what it asks of the state holds again |
| SyscallStages.StopKeepsInSyncIff | library/src/main/jni/tracee/event.c:428-671 | A stop keeps entry and exit stages in step with the kernel if and only if registers are fetched where a stage needs them (and once, when handled twice), an accelerated call shows its filter stop only, and the root's first SIGTRAP is the stop of a call |
| SyscallStages.RunKeepsInSync | library/src/main/jni/tracee/event.c:540-624 | Over every run of such stops: entry and exit translations alternate, each at the kernel's own entry or exit of the call, seccomp is never DISABLING between events, and under ENABLED a non-zero status implies sysexit_pending |
| SyscallStages.RunStaysInSyncIff | library/src/main/jni/tracee/event.c:428-671 | A run stays in step at every point if and only if each of its stops is harmless |
| SyscallStages.FetchedRunStaysIff | library/src/main/jni/tracee/event.c:540-624 | With registers fetched and events handled once, a run stays in step if and only if no filter stop follows an entry stop of an accelerated tracee |
| SyscallStages.InheritanceIsSafeIff | library/src/main/jni/tracee/tracee.c:473-476 | Every such run of a new child stays in step if and only if its parent was not accelerated or not in a flagged call |
| SyscallStages.FlaggedCloneBreaks | library/src/main/jni/tracee/event.c:444-456 | The child of a flagged clone stops at the entry of its next call; the filter stop of that call is then translated as its exit |
| SyscallStages.RootStaysIff | library/src/main/jni/tracee/event.c:478-624 | Every such run of a root stays in step if and only if the first call whose entry an accelerated root stops at, in or right after its bootstrap, shows no filter stop of its own |
| SyscallStages.FilteredBootBreaks | library/src/main/jni/tracee/event.c:478-624 | Such a run exists: the filter stop of the call of the bootstrap SIGTRAP is translated as its exit |
| SyscallStages.NoExitIsSkipped | library/src/main/jni/tracee/event.c:444-456 | Whenever an exit stage is due the tracee is inside its call, restarted with PTRACE_SYSCALL, stays so through any event in between, and the next stop of a call is its exit |
| SyscallStages.CallbacksAlternate | library/src/main/jni/syscall/syscall.c:103-191 | The user of the library never sees an exit callback that does not directly follow an entry callback |
| SyscallStages.EverySignalIsDelivered | library/src/main/jni/tracee/event.c:478-664 | Over any run, a tracee is restarted with each signal it stopped for but the first SIGSTOP and the bootstrap SIGTRAP of a root, and with none after any other stop |
| SyscallStages.ErrorIsKept | library/src/main/jni/syscall/syscall.c:145-158 | An error of the translation is kept for the exit stage |
| SyscallStages.DeathIsLast | library/src/main/jni/tracee/event.c:465-477 | After its death nothing is heard of a tracee |
| SyscallStages.InheritsInSyncIff | library/src/main/jni/tracee/tracee.c:473-476 | At that moment, what a child takes over leaves it in step if and only if it has not stopped yet, or its parent is not accelerated or has an exit pending; InheritanceIsSafeIff says what comes of it |
| SyscallStages.LateBirthSkipsExit | library/src/main/jni/tracee/event.c:643-659 | Otherwise an exit is skipped: the child leaves its call unseen and the next filter stop, at an entry, is translated as an exit |
| SyscallStages.TwiceIff | library/src/main/jni/ptrace/wait.c:346-368 | An exit stop handled twice, which happens as ExitTwiceIff says, breaks alternation unless exactly one of the two saw registers |
| SyscallStages.TrapIff | library/src/main/jni/tracee/event.c:484-538 | The bootstrap on the first bare SIGTRAP is right if and only if that SIGTRAP is the stop of a call (or nothing is translated) |
| SyscallStages.FlaggedIff | library/src/main/jni/tracee/event.c:550-603 | A filter stop with FILTER_SYSEXIT starts a call whose exit stage is due, if and only if registers are fetched and no entry was seen |
| SyscallStages.UnflaggedIff | library/src/main/jni/tracee/event.c:565-573 | A filter stop without it is harmless if and only if no entry was seen |
| SyscallStages.FlaggedCall | library/src/main/jni/tracee/event.c:540-624 | A flagged call under seccomp gives one entry and one exit callback and leaves acceleration on, or turns it off when the call was TRACEME |
| SyscallStages.Tracee.TranslateSyscall | library/src/main/jni/syscall/syscall.c:103-191 | The new state is that of SyscallStages.Translated: status 1 or the error after the entry stage, 0 after the exit stage or when restarted with PTRACE_CONT |
| SyscallStages.Tracee.HandleTraceeEvent | library/src/main/jni/tracee/event.c:428-671 | The new state and the signal are those of SyscallStages.Handled and SignalFor, about which EverySignalIsDelivered is |
| SyscallStages.Tracee.RestartTracee | library/src/main/jni/tracee/event.c:678-703 | restart_how is reset exactly when the tracee is restarted |
| SyscallStages.Tracee.Inherit | library/src/main/jni/tracee/tracee.c:473-476 | seccomp, sysexit_pending and restart_how are the parent's |
| ProgramLoading.ProgramLoads | library/src/main/jni/loader/loader.c:119-271 | End to end: started on the transferred block, the loader ends in the start statement of that program (control to the entry point of the interpreter if there is one, the vectors those of the program, each moved by its base, AT_EXECFN its name), with no file open and AT_BASE the base of the last object, if and only if every PT_LOAD segment with zeros to add is writable and ends on a page the file has; it faults otherwise. Then a segment is in memory as the System V gABI, chapter 5, asks if and only if the file has its bytes |
| ProgramLoading.HeadersAreThereIff | library/src/main/jni/execve/exit.c:318-319 | AT_PHDR is where the loaded program has its headers if and only if its first segment starts in the first page of the file |
| ProgramLoading.UnclearableFaults | library/src/main/jni/loader/loader.c:152-161 | The first mapping of a segment makes the loader fault if and only if it cannot be cleared |
| ProgramLoading.ReadOnlyZerosFault | library/src/main/jni/loader/loader.c:159-161 | An input that faults: zeros to add in a read-only segment |
| ProgramLoading.ZerosPastFileFault | library/src/main/jni/execve/enter.c:88-106 | An input that faults: file bytes that end both a page and the file, with zeros to add |
| ProgramLoading.BlockRuns | library/src/main/jni/execve/exit.c:184-400 | Interpreting the block faults, or gives exactly the final machine: open, mappings, optional open_next and mappings, optional stack_exec, start |
| ProgramLoading.StringsHeld | library/src/main/jni/execve/exit.c:227-245 | In memory that holds the strings area, each of the three addresses holds its NUL-terminated path |
| ProgramLoading.StringsAreAligned | library/src/main/jni/execve/exit.c:235-241 | Strings start 16-aligned, with no more padding than that needs |
| ProgramLoading.OneFileAtMost | library/src/main/jni/loader/loader.c:131-150 | However far the interpreter gets, at most one file is open, and none at the start |
| Loading.InterpretFollows | library/src/main/jni/loader/loader.c:119-200 | Decoding and executing the encoded words is the same as carrying out the statements, for either word size, when words fit and no mapping falls on the script |
| Loading.TurnOnStatement | library/src/main/jni/loader/loader.c:128-200 | One turn on one encoded statement carries that statement out and moves to the next |
| Loading.FileLoadedIsApply | library/src/main/jni/loader/loader.c:152-166 | On whole pages, the mmap and clear of the loader is the mapping the compiler meant, or a fault exactly if that is not clearable |
| Loader.Clear | library/src/main/jni/loader/loader.c:64-93 | The three loops zero exactly the bytes of ClearLow |
| Loader.ClearIsExact | library/src/main/jni/loader/loader.c:64-93 | clear(start, end) zeroes exactly [start, end) unless start is misaligned and end lies in the same word; then it zeroes the whole word |
| Loader.RunStatement | library/src/main/jni/loader/loader.c:128-200 | One turn of the switch is Exec on the decoded statement |
| Loader.RunScript | library/src/main/jni/loader/loader.c:119-200 | The loop is Interpret |
| ElfMapping.LoadInfo.AddMapping | library/src/main/jni/execve/enter.c:59-133 | The list grows by exactly the mappings of SegmentMappings, word arithmetic wrapping as in C |
| ElfMapping.LoadInfo.AddLoadBase | library/src/main/jni/execve/enter.c:330-344 | Every mapping address, and nothing else, moves by the base |
| ElfMapping.ImageLoads | library/src/main/jni/execve/enter.c:88-130 | After all mappings of ascending, page-disjoint segments, each has its file bytes and then zeros exactly if the file has these bytes, so no later mapping or clearing damages an earlier one; a page-aligned base shifts everything |
| ElfMapping.ImageClearsIff | library/src/main/jni/execve/enter.c:104-106 | All tails can be cleared if and only if every segment with more memory than file is writable and its bytes end on a page the file has |
| ElfMapping.ImageIsProtected | library/src/main/jni/execve/enter.c:70-130 | Every byte of every segment ends up with the protection of its program header, though the mapping of a segment may reach into the next one |
| ElfMapping.SegmentLoads | library/src/main/jni/execve/enter.c:88-130 | A segment the file has the bytes of is in memory after its mappings |
| ElfMapping.ImageAcceptable | library/src/main/jni/execve/enter.c:88-130 | Every mapping starts and ends on a page, and the tail to clear, if any, lies inside it |
| ElfMapping.MisalignedBaseIsRefused | library/src/main/jni/execve/enter.c:330-344 | A base that is not page-aligned makes the first mapping one the kernel refuses |
| LoadScript.TransferLoadScript | library/src/main/jni/execve/exit.c:184-400 | The block written is Block: the encoded script, the strings, the padding; both size assertions hold |
| LoadScript.TranscriptMappings | library/src/main/jni/execve/exit.c:154-178 | The statements appended are one per mapping, file or anonymous as its flags say |
| LoadScript.Narrow | library/src/main/jni/execve/exit.c:328-333 | The in-place loop turns 64-bit words into the same 32-bit words modulo 2^32, and leaves the second half of the area alone |
| LoadScript.ParseWords | library/src/main/jni/execve/exit.c:269-323 | A statement is given back by its words: decoding is the inverse of encoding |
| LoadScript.StackIsMadeExecIff | library/src/main/jni/execve/exit.c:218-221 | The page the stack begins in is made executable if and only if the program or its interpreter needs that |
| ProcessMemory.ReadEncoded | library/src/main/jni/execve/exit.c:328-333 | Reading an encoded word gives the word back, modulo its width |
| AuxiliaryVectors.GetVectorsAddress | library/src/main/jni/execve/auxv.c:79-110 | On every well-formed initial stack the walk of the tracer ends at the vectors |
| AuxiliaryVectors.FindVectors | library/src/main/jni/loader/loader.c:192-213 | The walk of the loader ends at the same place |
| AuxiliaryVectors.AdjustVectors | library/src/main/jni/loader/loader.c:215-250 | Only the values of the six handled kinds change, each, by the number of its kind, to what the start statement, AT_BASE or argv[0] says; the rest of the stack is untouched, and all of it if and only if no vector is adjusted |
| AuxiliaryVectors.AdjustNoVectors | library/src/main/jni/loader/loader.c:215-250 | With no vectors at all the loop takes the terminator for one and goes on above it: the stack is left alone if and only if nothing up there would be adjusted |
| AuxiliaryVectors.FetchVectors | library/src/main/jni/execve/auxv.c:118-153 | The loop returns Fetched: the vectors up to the terminator, nothing when memory ends |
| AuxiliaryVectors.PushVectors | library/src/main/jni/execve/auxv.c:160-187 | Exactly the words of the live vectors and the terminator are written; on a fault, those before it |
| AuxiliaryVectors.FetchesWhatWasPushed | library/src/main/jni/execve/auxv.c:118-187 | Fetching after a push returns the same vectors |
| AuxiliaryVectors.FetchesTheVectors | library/src/main/jni/execve/auxv.c:118-153 | On the initial stack, fetching at the address found returns the vectors of the kernel |
| AuxiliaryVectors.AddVector | library/src/main/jni/execve/auxv.c:45-73 | The sentinel is replaced and restored behind the new vector |
| SeccompDecision.FilterDecides | library/src/main/jni/syscall/seccomp.c:294-365 | The generated program always halts with an answer: KILL exactly for an unhandled architecture, TRACE with the flags for a listed number of the architecture, ALLOW for any other number |
| SeccompDecision.AnswerHasFlags | library/src/main/jni/syscall/seccomp.c:115-135 | The answer TRACE has the flags in its lower half, where PTRACE_GETEVENTMSG finds them |
| SeccompDecision.TracedNumberDecodes | library/src/main/jni/syscall/seccomp.c:326-357 | With a duplicate-free list the flags are those of the one listed sysnum the number decodes to |
| SeccompDecision.ExcludeModeDecides | library/src/main/jni/syscall/seccomp.c:196-243 | With libc excluded, only the first architecture is filtered and nothing is ever killed |
| SeccompDecision.ExcludeModeAgreesExactly | library/src/main/jni/syscall/seccomp.c:196-243 | Outside libc that mode meets the documented decision if and only if the architecture is the first or the decision is ALLOW |
| SeccompDecision.RealFiltersFit | library/src/main/jni/syscall/seccomp.c:144-169 | For real sysnums and up to eight architectures no sanity check fails and the 16-bit length is the true one |
| SeccompFilter.SetSeccompFilters | library/src/main/jni/syscall/seccomp.c:307-384 | The whole compiler emits FilterCode, and fails exactly on input that is not encodable: the counting and the emitting pass always agree |
| SeccompFilter.Program.AddTraceSyscall | library/src/main/jni/syscall/seccomp.c:111-136 | Two statements are appended, or nothing and an error when the number does not fit |
| SeccompFilter.Program.StartArchSection | library/src/main/jni/syscall/seccomp.c:177-257 | The statements of StartCode are appended, with their jumps over the section |
| SeccompFilter.Program.EndArchSection | library/src/main/jni/syscall/seccomp.c:144-169 | ALLOW is appended, and the error is that of a length that is not the announced one |
| SeccompFilter.CountTraced | library/src/main/jni/syscall/seccomp.c:330-345 | The first pass counts exactly the statements of the second |
| SeccompFilter.AddTraceStatements | library/src/main/jni/syscall/seccomp.c:349-357 | The second pass appends the code of all traced numbers, or stops at one that does not fit |
| ClassicBpf.RunSuffix | library/src/main/jni/syscall/seccomp.c:177-257 | What a program does from one point on depends only on the statements behind it |
| FilteredSysnums.MergeFilteredSysnums | library/src/main/jni/syscall/seccomp.c:483-527 | The merged list is terminated and duplicate-free, lists the union, and has the OR of all flags given for each sysnum |
| FilteredSysnums.OrIsBitwise | library/src/main/jni/syscall/seccomp.c:483-527 | That OR is the bitwise one |
| SyscallFiltering.EnableSyscallFiltering | library/src/main/jni/syscall/seccomp.c:578-669 | The program is the filter for a duplicate-free list of the caller's sysnums and the internal ones it lacks; a sysnum the caller lists keeps the caller's flags |
| SyscallFiltering.FilteringDecides | library/src/main/jni/syscall/seccomp.c:294-365 | From the lists to the answer: a call is traced with the OR of the caller's flags for its sysnum, or else of the internal ones, and allowed when neither list has it |
| SyscallFiltering.AddInternalSysnums | library/src/main/jni/syscall/seccomp.c:600-628 | The list is the caller's followed by the missing internal ones, terminated |
| Sysnums.DetranslateSysnum | library/src/main/jni/syscall/sysnum.c:104-123 | The loop finds the first index of the sysnum, or nothing |
| Sysnums.TranslateUndoesDetranslate | library/src/main/jni/syscall/sysnum.c:81-123 | Translation undoes detranslation for every sysnum of the table, and gives PR_void for the others |
| Sysnums.DetranslateIsInjective | library/src/main/jni/syscall/sysnum.c:104-123 | Per ABI no two sysnums have the same number |
| Sysnums.TranslateReadsPastTable | library/src/main/jni/syscall/sysnum.c:81-99 | The bound check lets exactly one number per ABI read past its table |
| Paths.ComparePaths | library/src/main/jni/path/path.c:556-607 | The method is Compared on the trimmed strings |
| Paths.ComparesComponents | library/src/main/jni/path/path.c:556-607 | On canonical paths, a trailing slash allowed, the answer is equality, strict prefix one way or the other, or neither, of the component sequences |
| Paths.JoinPaths | library/src/main/jni/path/path.c:54-114 | Any number of paths, those that are NULL skipped, are joined one by one as in Joined: one slash in between, or ENAMETOOLONG |
| Paths.JoinComponent | library/src/main/jni/path/path.c:54-114 | Joining a component to a canonical path pushes it |
| Paths.SubstitutePathPrefix | library/src/main/jni/path/path.c:700-759 | The moves in the buffer amount to Substituted, the new length included, and fail when the result is too long |
| Paths.SubstitutesPrefix | library/src/main/jni/path/path.c:700-759 | The prefix is replaced component-wise, "/" included, whenever the result fits |
| Paths.SubstitutesBack | library/src/main/jni/path/path.c:700-759 | Substituting and substituting back restores the path |
| Paths.RootForRootIsWrong | library/src/main/jni/path/path.c:713-735 | With "/" replaced by "/" the leading slash is lost for every path but "/" |
| Canonicalization.NextComponent | library/src/main/jni/path/canon.c:86-126 | The name, the finality and the new cursor are those of the next component, or the error that it is too long |
| Canonicalization.PopComponent | library/src/main/jni/path/canon.c:43-70 | The last component goes, never the root |
| Canonicalization.Canonicalize | library/src/main/jni/path/canon.c:184-374 | The loop is the fold Canonicalized: "." skipped, ".." popping but never above the root, others pushed, the finality at the end, or the length error |
| Canonicalization.WalkIsCanonical | library/src/main/jni/path/canon.c:184-274 | The fold leaves no "." and no ".." |
| Canonicalization.UpUndoesDown | library/src/main/jni/path/canon.c:262-266 | Going down a canonical path and up as many times ends where it started |
| Canonicalization.RelativeIsAbsolute | library/src/main/jni/path/canon.c:200-225 | A relative path on a canonical base gives what the joined string, base, slash and path, gives as an absolute path on any base |
| Canonicalization.CanonicalizesOnce | library/src/main/jni/path/canon.c:184-374 | A canonical path, whatever its ending, is a fixed point |
| Canonicalization.CanonicalizationIsIdempotent | library/src/main/jni/path/canon.c:184-374 | Every result is a canonical path shorter than PATH_MAX, and canonicalizing it again changes nothing |
| Canonicalization.DotIsKeptIff | library/src/main/jni/path/canon.c:345-368 | The result ends in "/." if and only if the last name of the path is "." |
| Canonicalization.SlashIsKeptIff | library/src/main/jni/path/canon.c:345-368 | It ends in "/" if and only if it is the root, or the path has no name, or its last name is "..", or the path ends in "/" after a name that is not "." |
| Canonicalization.LongNameIsRefused | library/src/main/jni/path/canon.c:86-107 | A name of NAME_MAX characters or more is refused wherever it is |
| Bindings.InsortKeeps | library/src/main/jni/path/binding.c:297-388 | Insertion keeps: no path strictly contains a later one, in either list; one binding per guest path; both lists hold the same bindings; the others are still there |
| Bindings.InsortAllKeeps | library/src/main/jni/path/binding.c:297-388 | So does any sequence of insertions |
| Bindings.RootIsLast | library/src/main/jni/path/binding.c:199-225 | "/" once bound is the last guest binding, so the assertion of get_root() holds |
| Bindings.FirstIsLongest | library/src/main/jni/path/binding.c:120-165 | In such a list the first binding that contains a path has the longest prefix |
| Bindings.FileSystem.GetBinding | library/src/main/jni/path/binding.c:120-165 | The answer is the binding with the longest component prefix, or nothing exactly when there is none; on the host side, only if the root is "/" |
| Bindings.FileSystem.GetRoot | library/src/main/jni/path/binding.c:199-225 | The host path of the last guest binding |
| Bindings.FileSystem.InsortBinding | library/src/main/jni/path/binding.c:381-388 | Both lists become those of Insort |
| Bindings.FileSystem.FindPlace | library/src/main/jni/path/binding.c:303-360 | The search ends at the insertion place, or at the binding to replace |
| Bindings.FileSystem.RemoveFromAllLists | library/src/main/jni/path/binding.c:277-287 | The binding is gone from both lists, the others stay in order |
| Bindings.SubstitutionIsFaithful | library/src/main/jni/path/binding.c:239-272 | Substitution along a binding and back restores the path, and never replaces "/" by "/" |
| TraceeMemory.WriteData | library/src/main/jni/tracee/mem.c:86-155 | On success exactly [dest, dest + size) holds the data; on failure only bytes of that range may have changed; it succeeds if and only if the kernel writes all at once, or each word the range reaches is mapped and, with trailing bytes, errno is not stale |
| TraceeMemory.WriteByWords | library/src/main/jni/tracee/mem.c:116-154 | The same, with the same condition, for the word loop with its read-modify-write of the last word |
| TraceeMemory.ReadData | library/src/main/jni/tracee/mem.c:202-264 | With as much read at once as the kernel likes: on success the first size bytes of the buffer are those of the tracee; no other byte changes; it succeeds if and only if the kernel reads all at once, or each word the range reaches is mapped and errno is not stale |
| TraceeMemory.ReadAfterWrite | library/src/main/jni/tracee/mem.c:86-264 | Reading after writing returns what was written, for every size |
| TraceeMemory.ReadStringByWords | library/src/main/jni/tracee/mem.c:359-393 | A returned count is the right one and the bytes before it are copied; it fails if and only if a word it reaches cannot be read, or errno is stale; nothing is written beyond the maximum |
| TraceeMemory.ReadStringByChunks | library/src/main/jni/tracee/mem.c:313-353 | The same count, for reads that never cross a chunk boundary |
| TraceeMemory.ReadString | library/src/main/jni/tracee/mem.c:273-394 | Whichever path runs, the count is the right one |
| TraceeMemory.CountIsUnique | library/src/main/jni/tracee/mem.c:273-394 | There is at most one right count, so the fast and the slow path agree |
| Registers.AllocatedIsBelow | library/src/main/jni/tracee/mem.c:495-536 | A block lies below the stack pointer, is large enough, and leaves out the red zone of the original one |
| Registers.AllocatedGoesDownIff | library/src/main/jni/tracee/mem.c:495-536 | The stack pointer goes down for every size that is not too negative, and only then; there is no underflow |
| Registers.BlocksAreDisjoint | library/src/main/jni/tracee/mem.c:495-536 | However many allocations one system call makes, the blocks are pairwise disjoint and beyond the red zone |
| Registers.Tracee.AllocMem | library/src/main/jni/tracee/mem.c:495-536 | The address returned and the new stack pointer are those of Allocated; no other register changes |
| Registers.Tracee.PushRegs | library/src/main/jni/tracee/reg.c:311-385 | The registers pushed are the current ones, or the original ones with the result and the stack pointer rules of the source |
| Registers.Tracee.SaveCurrentRegs | library/src/main/jni/tracee/reg.c:271-279 | One bank is overwritten by the current one |
| Registers.Tracee.Syscall | library/src/main/jni/syscall/syscall.c:103-191 | The kernel gets in each register the value poked last, or else the one at entry; an error of the translation makes it no system call; afterwards the result is that error, or the value poked last, or else the kernel's; with or without an exit stage, but for execve, the stack pointer is what it was at entry |
| Registers.Tracee.Enter | library/src/main/jni/syscall/syscall.c:103-165 | The enter stage: what the kernel gets |
| Registers.Tracee.Exit | library/src/main/jni/syscall/syscall.c:166-191 | The exit stage: the result, and the registers restored |
| Registers.Tracee.SetSysargData | library/src/main/jni/syscall/syscall.c:72-91 | An argument that is replaced points to the block allocated for it |
| Registers.TakenIsUnique | library/src/main/jni/syscall/syscall.c:103-191 | So each register has one value only |
| BrkEmulation.RefinesBreak | library/src/main/jni/syscall/heap.c:73-199 | Over any sequence of calls with any answers of the kernel, the tracee sees an ideal break |
| BrkEmulation.EmulatesBreak | library/src/main/jni/syscall/heap.c:73-199 | One call: the base stays, the answer is base plus size, and the break moves exactly when a request not below the base is granted in place |
| BrkEmulation.MovesItsMapping | library/src/main/jni/syscall/heap.c:122-139 | A move of the break asks for just the mapping of the heap, which then ends at the new break; a break below the base asks for nothing |
| BrkEmulation.StartsAfterItsMapping | library/src/main/jni/syscall/heap.c:73-120 | The first call asks for a mapping after the BSS; the heap begins, empty, where that ends |
| BrkEmulation.AddressIsNoErrno | library/src/main/jni/syscall/heap.c:166-175 | No page-aligned address passes for an errno, though only its low half is looked at |
| BrkEmulation.FirstCall | library/src/main/jni/syscall/heap.c:73-120 | The first brk(0) makes an empty heap one page into a new mapping, or answers 0 and can be tried again |
| BrkEmulation.FirstCallFails | library/src/main/jni/syscall/heap.c:166-180 | The latter for every error number of the kernel |
| BrkEmulation.LeftToTheKernel | library/src/main/jni/syscall/heap.c:80-95 | Before that, a call with an address is the kernel's, and disables the emulation once it succeeds |
| BrkEmulation.Heap.TranslateBrkEnter | library/src/main/jni/syscall/heap.c:54-145 | The new heap and the system call made instead are those of Enter |
| BrkEmulation.Heap.TranslateBrkExit | library/src/main/jni/syscall/heap.c:150-213 | The new heap and the result are those of Exit |

## Left out

- EnableSyscallFiltering: the caller's numbers are required to be below 512 as the C indexes an array with them unchecked; where libc lies is a parameter, since it is read from /proc/self/maps.
- SetSeccompFilters: handing the program to prctl(2), and allocation failure, are not modelled.
- ProgramLoads: the kernel is assumed to grant every well-formed fixed mapping, and a page of a mapping past the last page of its file to fault as if it was not mapped; offsets are in bytes rather than shifted for mmap2; words are little-endian; AT_EXECFN's file name for PR_SET_NAME is not modelled. The block, the program and the interpreter are required not to overlap, which is the business of compute_load_addresses() and of the kernel.
- InterpretFollows: the loader's words are fetched a statement at a time, where the C reads its fields as it needs them; no mapping falls on the script, so this makes no difference.
- AdjustVectors: the initial stack is an array of words; the auxiliary vectors are adjusted in it rather than in the memory of ProgramLoads, and the two are joined by the start statement and AT_BASE only.
- NoLostWakeup: needs the discipline of ReadRun or the weaker LosesNone; without it the property is false, as WakeupIsLost shows.
- RunKeepsInSync: handling an event and restarting its tracee are one step, although a ptracee may stay stopped in between; the kernel reports nothing of a stopped tracee but its death. Chained system calls (chain.c) have no callers and are not modelled.
- StopKeepsInSyncIff: the kernel is one of version 4.8 or later, where the entry stop comes before the filter stop.
- Canonicalize: path and result are values where the C cuts and appends in a buffer of PATH_MAX characters; the order of the checks on their length is that of the C. Symbolic links and /proc are never reached from this function as written.
- JoinPaths: a value where the C appends to a buffer.
- PtraceExitKeeps: TRACEME made by a tracee without a parent makes the tracer follow NULL, and an assertion that fails in new_child() stops it, since assertions are taken to be compiled in; there is no next state then, and the model keeps the one before. Without assertions new_child() would go on and attach the child a second time.
- GetBinding: on the host side belongs_to_guestfs() is the stub it is in the source.
- InsortBinding: the pending list of bindings and the allocation of bindings are not modelled; lists are sequences of objects rather than linked entries.
- Tracees.Registry.NewChild: heap and file-system sharing, verbosity and architecture are not modelled; the seccomp part of inheritance is SyscallStages.Tracee.Inherit.
- ResumeDoes: the signal a ptracer gives its ptracee with a restarting request, which overrides the one it had stopped for, is not modelled, nor is the result of KILL, which is the kernel's.
- Tracees.Registry.TranslatePtraceExit: requests on registers and memory of a ptracee are one request that changes nothing here; KILL is one of the restarting requests. What TRACEME does to seccomp acceleration is in SyscallStages.
- Tracees.Registry.RemoveTracee: a zombie is a value in its ptracer's list; its parent pointer, which may dangle in the C, is never followed.
- Tracees.Registry.GetTracee: the entry that calloc(3) returns is a parameter; failing allocation is not modelled.
- TraceeMemory.WriteData: process_vm_writev(2) is a parameter that says how many bytes are written at once; the fallback is taken for any partial write. In ReadData, process_vm_readv(2) is modelled the same way; that errno is stale is a parameter too.
- TraceeMemory.ReadStringByWords: it may fail because of one word past the maximum, as the C does when the maximum is a multiple of the word size; Faults says so.
- Tracees.Registry.Turn: the helper process that attaches new roots, waiting on condition variables and killing all tracees on exit are not modelled; SIGSTOP_PENDING is never set in the source, so neither is it here.
- Registers.Tracee.Syscall: execve(2), whose exit replaces the stack, is left out; registers are unbounded tables of 64-bit words, without the masking done for 32-bit tracees on 64-bit kernels.
- RefinesBreak: the memory of the heap is not modelled, only its bounds; the allocation of the Heap structure is not either.
- SubstitutePathPrefix: lengths are natural numbers below PATH_MAX; the debug assertions of the source are not modelled.
- chop_finality(), which(), readlink on /proc, temporary files, sockets and rlimits: I/O or easy.
- The tables of system call numbers: data; the tables are arbitrary sequences here.
- Shebang expansion, ld.so and argv rewriting, glue directories: disabled or dominated by file I/O.
- JNI, Java, logging and notes, back-traces, signal handler installation: plumbing.
- talloc and malloc failures and leaks.
