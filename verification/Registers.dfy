/**
 * The cached registers of a tracee, the blocks allocated below its stack pointer during the
 * enter stage of a system call, and how all of it is undone when the call completes.
 */
module Registers {

  const STACK_ALIGNMENT: int := 16
  const ULONG_MAX: int := 0xffff_ffff_ffff_ffff

  // ----- Allocation -----

  /** C division: towards zero. */
  function Quotient(x: int, y: int): int
    requires y > 0
  {
    if x >= 0 then x / y else -(-x / y)
  }

  function Rounded(size: int): int {
    (Quotient(size - 1, STACK_ALIGNMENT) + 1) * STACK_ALIGNMENT
  }

  /** What is really taken: the red zone too, as long as the stack pointer is the original one. */
  function Taken(sp: int, original: int, size: int, redZone: nat): int {
    Rounded(if sp == original then size + redZone else size)
  }

  predicate Allocates(sp: int, original: int, size: int, redZone: nat) {
    var n := Taken(sp, original, size, redZone);
    !((n > 0 && sp <= n) || (n < 0 && sp >= ULONG_MAX + n))
  }

  /** The stack pointer after alloc_mem(); it does not change on failure. */
  function Allocated(sp: int, original: int, size: int, redZone: nat): int {
    if Allocates(sp, original, size, redZone) then sp - Taken(sp, original, size, redZone) else sp
  }

  /** A stack pointer during a system call: the original one, or below the red zone. */
  predicate Below(sp: int, original: int, redZone: nat) {
    sp == original || (0 < sp <= original - redZone)
  }

  lemma RoundedIsEnough(size: int)
    ensures size >= 0 ==> size <= Rounded(size) && 0 < Rounded(size) <= size + STACK_ALIGNMENT
    ensures Rounded(size) > 0 <==> size > -15
  {}

  /** A block is below the stack pointer, large enough, and beyond the red zone of the original one. */
  lemma AllocatedIsBelow(sp: int, original: int, size: int, redZone: nat)
    requires size >= 0 && 0 <= sp && Below(sp, original, redZone) && Allocates(sp, original, size, redZone)
    ensures var block := Allocated(sp, original, size, redZone);
            && 0 < block && block + size <= sp && block + size <= original - redZone
            && Below(block, original, redZone)
  {
    RoundedIsEnough(if sp == original then size + redZone else size);
  }

  /** The stack pointer goes down for every size that is not too negative, and only then. */
  lemma AllocatedGoesDownIff(sp: int, original: int, size: int, redZone: nat)
    requires Allocates(sp, original, size, redZone)
    ensures Allocated(sp, original, size, redZone) < sp <==> size > -15 - (if sp == original then redZone else 0)
  {
    RoundedIsEnough(if sp == original then size + redZone else size);
  }

  datatype Block = Block(at: int, size: int)

  /** The blocks allocated in one system call, one after the other; failures give none. */
  function Blocks(sp: int, original: int, sizes: seq<int>, redZone: nat): seq<Block>
    decreases |sizes|
  {
    if sizes == [] then []
    else
      var next := Allocated(sp, original, sizes[0], redZone);
      (if Allocates(sp, original, sizes[0], redZone) then [Block(next, sizes[0])] else [])
      + Blocks(next, original, sizes[1..], redZone)
  }

  /** However many there are, blocks are pairwise disjoint and beyond the red zone. */
  lemma {:induction false} BlocksAreDisjoint(sp: int, original: int, sizes: seq<int>, redZone: nat)
    requires 0 <= sp && Below(sp, original, redZone) && forall i :: 0 <= i < |sizes| ==> sizes[i] >= 0
    ensures var bs := Blocks(sp, original, sizes, redZone);
            && (forall b <- bs :: 0 < b.at && b.at + b.size <= sp && b.at + b.size <= original - redZone)
            && forall i, j :: 0 <= i < j < |bs| ==> bs[j].at + bs[j].size <= bs[i].at
    decreases |sizes|
  {
    if sizes != [] {
      var next := Allocated(sp, original, sizes[0], redZone);
      var rest := Blocks(next, original, sizes[1..], redZone);
      if Allocates(sp, original, sizes[0], redZone) { AllocatedIsBelow(sp, original, sizes[0], redZone); }
      BlocksAreDisjoint(next, original, sizes[1..], redZone);
      assert forall i :: 0 <= i < |rest| ==> rest[i] in rest;
    }
  }

  // ----- Register banks -----

  datatype Reg =
    | SysargNum | Sysarg1 | Sysarg2 | Sysarg3 | Sysarg4 | Sysarg5 | Sysarg6
    | SysargResult | StackPointer | InstrPointer

  datatype Bank = Bank(
    num: int, arg1: int, arg2: int, arg3: int, arg4: int, arg5: int, arg6: int, result: int, sp: int, ip: int)
  {
    function Get(r: Reg): int {
      match r
      case SysargNum => num
      case Sysarg1 => arg1
      case Sysarg2 => arg2
      case Sysarg3 => arg3
      case Sysarg4 => arg4
      case Sysarg5 => arg5
      case Sysarg6 => arg6
      case SysargResult => result
      case StackPointer => sp
      case InstrPointer => ip
    }

    function Put(r: Reg, v: int): (b: Bank)
      ensures b.Get(r) == v && forall q: Reg :: q != r ==> b.Get(q) == Get(q)
    {
      match r
      case SysargNum => this.(num := v)
      case Sysarg1 => this.(arg1 := v)
      case Sysarg2 => this.(arg2 := v)
      case Sysarg3 => this.(arg3 := v)
      case Sysarg4 => this.(arg4 := v)
      case Sysarg5 => this.(arg5 := v)
      case Sysarg6 => this.(arg6 := v)
      case SysargResult => this.(result := v)
      case StackPointer => this.(sp := v)
      case InstrPointer => this.(ip := v)
    }
  }

  /** On some architectures the result comes in the register of the first argument. */
  function Slot(r: Reg, resultInArg1: bool): Reg {
    if r.SysargResult? && resultInArg1 then Sysarg1 else r
  }

  const RESTORED: seq<Reg> :=
    [SysargNum, Sysarg1, Sysarg2, Sysarg3, Sysarg4, Sysarg5, Sysarg6, StackPointer]

  /** What the translation of a system call does with registers. */
  datatype Action = PokeReg(reg: Reg, value: int) | AllocMem(size: int)

  predicate Pokes(a: Action, r: Reg, resultInArg1: bool) { a.PokeReg? && Slot(a.reg, resultInArg1) == r }

  /** Of the first n actions, the i-th is the last that pokes a register. */
  predicate IsLastPoke(actions: seq<Action>, n: nat, i: nat, r: Reg, resultInArg1: bool)
    requires n <= |actions|
  {
    i < n && Pokes(actions[i], r, resultInArg1) && forall j :: i < j < n ==> !Pokes(actions[j], r, resultInArg1)
  }

  /** A register has the value poked last, or else the one it had before. */
  ghost predicate Takes(b: Bank, before: Bank, actions: seq<Action>, n: nat, r: Reg, resultInArg1: bool)
    requires n <= |actions|
  {
    && (forall i: nat :: IsLastPoke(actions, n, i, r, resultInArg1) ==> b.Get(r) == actions[i].value)
    && ((forall i :: 0 <= i < n ==> !Pokes(actions[i], r, resultInArg1)) ==> b.Get(r) == before.Get(r))
  }

  lemma TakesOneMore(b: Bank, b': Bank, before: Bank, actions: seq<Action>, n: nat, r: Reg, resultInArg1: bool)
    requires n < |actions| && Takes(b, before, actions, n, r, resultInArg1)
    requires b'.Get(r) == if Pokes(actions[n], r, resultInArg1) then actions[n].value else b.Get(r)
    ensures Takes(b', before, actions, n + 1, r, resultInArg1)
  {
    forall i: nat | IsLastPoke(actions, n + 1, i, r, resultInArg1) ensures b'.Get(r) == actions[i].value {
      if i < n { assert IsLastPoke(actions, n, i, r, resultInArg1); }
    }
  }

  /** There is always one of the two. */
  lemma {:induction false} SomeLastPoke(actions: seq<Action>, n: nat, r: Reg, resultInArg1: bool)
    requires n <= |actions|
    ensures (forall i :: 0 <= i < n ==> !Pokes(actions[i], r, resultInArg1))
         || exists i: nat :: IsLastPoke(actions, n, i, r, resultInArg1)
  {
    if n > 0 {
      var m: nat := n - 1;
      SomeLastPoke(actions, m, r, resultInArg1);
      if Pokes(actions[m], r, resultInArg1) {
        assert IsLastPoke(actions, n, m, r, resultInArg1);
      } else if i: nat :| IsLastPoke(actions, m, i, r, resultInArg1) {
        assert IsLastPoke(actions, n, i, r, resultInArg1);
      }
    }
  }

  /** So that the value of each register is determined. */
  lemma TakenIsUnique(b: Bank, b': Bank, before: Bank, actions: seq<Action>, n: nat, r: Reg, resultInArg1: bool)
    requires n <= |actions| && Takes(b, before, actions, n, r, resultInArg1) && Takes(b', before, actions, n, r, resultInArg1)
    ensures b.Get(r) == b'.Get(r)
  {
    SomeLastPoke(actions, n, r, resultInArg1);
  }

  class Tracee {
    const resultInArg1: bool
    const redZone: nat
    var current: Bank
    var original: Bank
    var modified: Bank
    var regsWereChanged: bool
    var restoreOriginalRegs: bool
    /** The registers of the process itself. */
    var process: Bank

    constructor (process: Bank, resultInArg1: bool, redZone: nat)
      ensures this.process == process
    {
      this.resultInArg1, this.redZone, this.process := resultInArg1, redZone, process;
      current, original, modified := process, process, process;
      regsWereChanged, restoreOriginalRegs := false, false;
    }

    method FetchRegs()
      modifies this`current
      ensures current == process
    {
      current := process;
    }

    /** save_current_regs() */
    method SaveCurrentRegs(asOriginal: bool)
      modifies this`original, this`modified, this`regsWereChanged
      ensures asOriginal ==> original == current && !regsWereChanged && modified == old(modified)
      ensures !asOriginal ==> modified == current && regsWereChanged == old(regsWereChanged) && original == old(original)
    {
      if asOriginal {
        regsWereChanged := false;
        original := current;
      } else {
        modified := current;
      }
    }

    method Poke(reg: Reg, value: int)
      modifies this`current, this`regsWereChanged
      ensures current == old(current).Put(Slot(reg, resultInArg1), value)
      ensures regsWereChanged == (old(regsWereChanged) || old(current).Get(Slot(reg, resultInArg1)) != value)
    {
      var slot := Slot(reg, resultInArg1);
      if current.Get(slot) == value {
        SameValue(current, slot);
        return;
      }
      current := current.Put(slot, value);
      regsWereChanged := true;
    }

    /** alloc_mem(): 0 on failure. */
    method AllocMem(size: int) returns (at: int)
      modifies this`current, this`regsWereChanged
      ensures var sp, o := old(current).sp, original.sp;
              && at == (if Allocates(sp, o, size, redZone) then Allocated(sp, o, size, redZone) else 0)
              && current == old(current).Put(StackPointer, Allocated(sp, o, size, redZone))
      ensures regsWereChanged == (old(regsWereChanged) || current.sp != old(current).sp)
    {
      var sp, n := current.sp, size;
      if sp == original.sp { n := n + redZone; }
      n := (Quotient(n - 1, STACK_ALIGNMENT) + 1) * STACK_ALIGNMENT;
      if (n > 0 && sp <= n) || (n < 0 && sp >= ULONG_MAX + n) {
        SameValue(current, StackPointer);
        return 0;
      }
      sp := sp - n;
      Poke(StackPointer, sp);
      at := sp;
    }

    /** push_regs() */
    method PushRegs()
      modifies this`current, this`process
      ensures !regsWereChanged ==> process == old(process) && current == old(current)
      ensures regsWereChanged ==> process == current
      ensures regsWereChanged && !restoreOriginalRegs ==> current == old(current)
      ensures regsWereChanged && restoreOriginalRegs ==>
                forall r: Reg :: current.Get(r)
                  == if r in RESTORED && r != Slot(SysargResult, resultInArg1) then original.Get(r) else old(current).Get(r)
    {
      if regsWereChanged {
        if restoreOriginalRegs {
          for i := 0 to |RESTORED|
            invariant forall r: Reg :: current.Get(r)
                        == if r in RESTORED[..i] && r != Slot(SysargResult, resultInArg1) then original.Get(r)
                           else old(current).Get(r)
          {
            if RESTORED[i] != Slot(SysargResult, resultInArg1) {
              current := current.Put(RESTORED[i], original.Get(RESTORED[i]));
            }
          }
          assert RESTORED[..|RESTORED|] == RESTORED;
        }
        process := current;
      }
    }

    /** Whether the cached registers differ from those of the process is remembered. */
    ghost predicate Tracked(entry: Bank)
      reads this
    {
      original == entry && (!regsWereChanged ==> current == entry)
    }

    /** set_sysarg_data() but for the data: an argument is made to point to a new block. */
    method SetSysargData(size: int, reg: Reg) returns (ok: bool)
      requires Slot(reg, resultInArg1) != StackPointer
      modifies this`current, this`regsWereChanged
      ensures var sp, o := old(current).sp, original.sp;
              && (ok <==> Allocates(sp, o, size, redZone) && Allocated(sp, o, size, redZone) != 0)
              && (ok ==> current.Get(Slot(reg, resultInArg1)) == Allocated(sp, o, size, redZone))
              && current.sp == Allocated(sp, o, size, redZone)
      ensures forall r: Reg :: r != StackPointer && r != Slot(reg, resultInArg1) ==> current.Get(r) == old(current).Get(r)
    {
      var at := AllocMem(size);
      if at == 0 { return false; }
      assert current.Get(StackPointer) == current.sp;
      Poke(reg, at);
      assert current.Get(StackPointer) == current.sp;
      ok := true;
    }

    method Translate(actions: seq<Action>, ghost entry: Bank)
      requires Tracked(entry)
      modifies this`current, this`regsWereChanged
      ensures Tracked(entry) && (old(regsWereChanged) ==> regsWereChanged)
      ensures forall r: Reg :: r != StackPointer ==> Takes(current, old(current), actions, |actions|, r, resultInArg1)
    {
      hide Takes, Pokes, Slot;
      NothingTaken(current, actions, resultInArg1);
      for i := 0 to |actions|
        invariant Tracked(entry) && (old(regsWereChanged) ==> regsWereChanged)
        invariant forall r: Reg :: r != StackPointer ==> Takes(current, old(current), actions, i, r, resultInArg1)
      {
        ghost var before, next := current, i + 1;
        Carry(actions[i]);
        forall r: Reg | r != StackPointer ensures Takes(current, old(current), actions, next, r, resultInArg1) {
          TakesOneMore(before, current, old(current), actions, i, r, resultInArg1);
        }
      }
    }

    /** One action. */
    method Carry(a: Action)
      modifies this`current, this`regsWereChanged
      ensures !regsWereChanged ==> current == old(current) && !old(regsWereChanged)
      ensures forall r: Reg :: r != StackPointer ==>
                current.Get(r) == if Pokes(a, r, resultInArg1) then a.value else old(current).Get(r)
    {
      match a {
        case PokeReg(reg, value) =>
          if current.Get(Slot(reg, resultInArg1)) == value { SameValue(current, Slot(reg, resultInArg1)); }
          Poke(reg, value);
        case AllocMem(size) =>
          SameValue(current, StackPointer);
          var _ := AllocMem(size);
      }
    }

    /**
     * The enter stage of translate_syscall(): what the kernel gets is what was poked. After an
     * error, that is no system call at all, and the error is its result; without an exit stage, the
     * stack pointer is put back at once.
     */
    method Enter(actions: seq<Action>, status: int, void: int, continues: bool)
      modifies this
      ensures original == old(process) && !restoreOriginalRegs
      ensures !regsWereChanged ==> process == old(process)
      ensures continues ==> process.sp == old(process).sp
      ensures forall r: Reg :: r != StackPointer && (status < 0 ==> r != SysargNum && r != Slot(SysargResult, resultInArg1)) ==>
                Takes(process, old(process), actions, |actions|, r, resultInArg1)
      ensures status < 0 ==> process.num == void && process.Get(Slot(SysargResult, resultInArg1)) == status
    {
      hide Takes;
      ghost var entry := process;
      FetchRegs();
      restoreOriginalRegs := false;
      SaveCurrentRegs(true);
      Translate(actions, entry);
      ghost var translated := current;
      SaveCurrentRegs(false);
      if status < 0 { Refuse(status, void, entry); }
      ghost var refused := current;
      if continues { PutStackBack(entry); }
      PushRegs();
      forall r: Reg | r != StackPointer && (status < 0 ==> r != SysargNum && r != Slot(SysargResult, resultInArg1))
        ensures Takes(process, entry, actions, |actions|, r, resultInArg1)
      {
        TakesAlike(translated, process, entry, actions, |actions|, r, resultInArg1);
      }
      assert process.Get(SysargNum) == process.num && refused.Get(SysargNum) == refused.num;
    }

    method Refuse(status: int, void: int, ghost entry: Bank)
      requires Tracked(entry)
      modifies this`current, this`regsWereChanged
      ensures Tracked(entry)
      ensures current.num == void && current.Get(Slot(SysargResult, resultInArg1)) == status
      ensures forall r: Reg :: r != SysargNum && r != Slot(SysargResult, resultInArg1) ==> current.Get(r) == old(current).Get(r)
    {
      if current.Get(SysargNum) == void { SameValue(current, SysargNum); }
      Poke(SysargNum, void);
      if current.Get(Slot(SysargResult, resultInArg1)) == status { SameValue(current, Slot(SysargResult, resultInArg1)); }
      Poke(SysargResult, status);
      assert current.Get(SysargNum) == current.num;
    }

    method PutStackBack(ghost entry: Bank)
      requires Tracked(entry)
      modifies this`current, this`regsWereChanged
      ensures Tracked(entry) && current == old(current).Put(StackPointer, original.sp)
    {
      if current.Get(StackPointer) == original.sp { SameValue(current, StackPointer); }
      Poke(StackPointer, original.sp);
    }

    /** The exit stage: the error of the enter stage, or what was poked for the result, is the result. */
    method Exit(actions: seq<Action>, status: int)
      modifies this
      ensures original == old(original)
      ensures !regsWereChanged ==> process == old(process)
      ensures regsWereChanged ==> forall r: Reg :: r in RESTORED && r != Slot(SysargResult, resultInArg1) ==>
                                    process.Get(r) == original.Get(r)
      ensures old(regsWereChanged) ==> regsWereChanged
      ensures forall r: Reg :: r !in RESTORED && r != Slot(SysargResult, resultInArg1) ==>
                Takes(process, old(process), actions, |actions|, r, resultInArg1)
      ensures var slot := Slot(SysargResult, resultInArg1);
              if status < 0 then process.Get(slot) == status
              else Takes(process, old(process), actions, |actions|, slot, resultInArg1)
    {
      hide Takes, Pokes;
      FetchRegs();
      restoreOriginalRegs := true;
      ghost var start := current;
      NothingTaken(current, actions, resultInArg1);
      var i := 0;
      while i < |actions|
        invariant i <= |actions| && original == old(original) && process == old(process) == start
        invariant restoreOriginalRegs && (old(regsWereChanged) ==> regsWereChanged) && (!regsWereChanged ==> current == start)
        invariant forall r: Reg :: r != StackPointer ==> Takes(current, start, actions, i, r, resultInArg1)
      {
        ghost var before, next := current, i + 1;
        if actions[i].PokeReg? { Carry(actions[i]); }  // Nothing is allocated in this stage.
        forall r: Reg | r != StackPointer ensures Takes(current, start, actions, next, r, resultInArg1) {
          NoPoke(actions[i], r, resultInArg1);
          TakesOneMore(before, current, start, actions, i, r, resultInArg1);
        }
        i := i + 1;
      }
      ghost var translated := current;
      if status < 0 { Carry(PokeReg(SysargResult, status)); }
      PokesItsSlot(SysargResult, status, resultInArg1);
      assert StackPointer in RESTORED && Slot(SysargResult, resultInArg1) != StackPointer;
      PushRegs();
      forall r: Reg | (r !in RESTORED || r == Slot(SysargResult, resultInArg1))
                      && (status < 0 ==> r != Slot(SysargResult, resultInArg1))
        ensures Takes(process, start, actions, |actions|, r, resultInArg1)
      {
        TakesAlike(translated, process, start, actions, |actions|, r, resultInArg1);
      }
    }

    /** The kernel carries out a system call: it changes no register but the one of the result. */
    method Kernel(result: int)
      modifies this`process
      ensures process == old(process).Put(Slot(SysargResult, resultInArg1), result)
    {
      process := process.Put(Slot(SysargResult, resultInArg1), result);
    }

    /**
     * A whole system call, other than execve(2). The kernel gets what was poked, or no system call.
     * Once it is completed, with or without an exit stage, the stack pointer is what it was at
     * entry, and after an exit stage so are its number and its arguments; its result is the error,
     * or the one poked in that stage, or else the kernel's.
     */
    method Syscall(enter: seq<Action>, status: int, void: int, continues: bool, result: int, exit: seq<Action>)
        returns (seen: Bank)
      modifies this
      ensures process.sp == old(process).sp
      ensures forall r: Reg :: r != StackPointer && (status < 0 ==> r != SysargNum && r != Slot(SysargResult, resultInArg1)) ==>
                Takes(seen, old(process), enter, |enter|, r, resultInArg1)
      ensures status < 0 ==> seen.num == void && seen.Get(Slot(SysargResult, resultInArg1)) == status
      ensures var slot := Slot(SysargResult, resultInArg1);
              var answered := seen.Put(slot, result);
              if continues then process == answered
              else if status < 0 then process.Get(slot) == status
              else Takes(process, answered, exit, |exit|, slot, resultInArg1)
      ensures !continues ==> forall r: Reg :: r in RESTORED && r != Slot(SysargResult, resultInArg1) ==>
                               process.Get(r) == old(process).Get(r)
    {
      hide Takes;
      ghost var entry := process;
      Enter(enter, status, void, continues);
      seen := process;
      Kernel(result);
      if !continues {
        Exit(exit, status);
        assert process.sp == process.Get(StackPointer) && entry.sp == entry.Get(StackPointer);
        assert StackPointer in RESTORED && Slot(SysargResult, resultInArg1) != StackPointer;
      }
    }
  }

  lemma NothingTaken(b: Bank, actions: seq<Action>, resultInArg1: bool)
    ensures forall r: Reg :: Takes(b, b, actions, 0, r, resultInArg1)
  {}

  lemma PokesItsSlot(reg: Reg, value: int, resultInArg1: bool)
    ensures forall r: Reg :: Pokes(PokeReg(reg, value), r, resultInArg1) <==> r == Slot(reg, resultInArg1)
  {}

  lemma NoPoke(a: Action, r: Reg, resultInArg1: bool)
    ensures Pokes(a, r, resultInArg1) ==> a.PokeReg?
  {}

  lemma TakesAlike(b: Bank, b': Bank, before: Bank, actions: seq<Action>, n: nat, r: Reg, resultInArg1: bool)
    requires n <= |actions| && Takes(b, before, actions, n, r, resultInArg1) && b'.Get(r) == b.Get(r)
    ensures Takes(b', before, actions, n, r, resultInArg1)
  {}

  lemma SameValue(b: Bank, r: Reg)
    ensures b.Put(r, b.Get(r)) == b
  {}
}
