/** The classic BPF machine, as far as the generated seccomp filters use it. */
module ClassicBpf {

  const RET_KILL: nat := 0
  const RET_TRACE: nat := 0x7ff0_0000
  const RET_ALLOW: nat := 0x7fff_0000

  // Offsets in struct seccomp_data (little endian).
  const NR_OFFSET: nat := 0
  const ARCH_OFFSET: nat := 4
  const IP_OFFSET: nat := 8

  datatype SeccompData = SeccompData(nr: nat, arch: nat, ip: nat)

  datatype Insn =
    | LdAbs(k: nat)
    | Jeq(k: nat, jt: nat, jf: nat)
    | Jgt(k: nat, jt: nat, jf: nat)
    | Jge(k: nat, jt: nat, jf: nat)
    | Ja(k: nat)
    | Ret(k: nat)

  /** Trap: a jump past the end or a load outside the handled fields. */
  datatype Outcome = Return(value: nat) | Trap

  function Load(d: SeccompData, offset: nat): nat
    requires offset in {NR_OFFSET, ARCH_OFFSET, IP_OFFSET}
  {
    if offset == NR_OFFSET then d.nr
    else if offset == ARCH_OFFSET then d.arch
    else d.ip % 0x1_0000_0000
  }

  /** One instruction: an answer, or how many instructions to skip and the new accumulator. */
  datatype Effect = Answer(value: nat) | Skip(offset: nat, acc: nat) | Fault

  function Step(insn: Insn, acc: nat, d: SeccompData): Effect {
    match insn
    case LdAbs(k) => if k in {NR_OFFSET, ARCH_OFFSET, IP_OFFSET} then Skip(0, Load(d, k)) else Fault
    case Jeq(k, jt, jf) => Skip(if acc == k then jt else jf, acc)
    case Jgt(k, jt, jf) => Skip(if acc > k then jt else jf, acc)
    case Jge(k, jt, jf) => Skip(if acc >= k then jt else jf, acc)
    case Ja(k) => Skip(k, acc)
    case Ret(k) => Answer(k)
  }

  /** Jumps only go forward, so every program halts. */
  function Run(program: seq<Insn>, pc: nat, acc: nat, d: SeccompData): Outcome
    decreases |program| - pc
  {
    if pc >= |program| then Trap
    else match Step(program[pc], acc, d)
      case Answer(value) => Return(value)
      case Skip(offset, acc') => Run(program, pc + 1 + offset, acc', d)
      case Fault => Trap
  }

  /** Jumps are relative: what a program does from pc on depends only on its suffix. */
  lemma {:induction false} RunSuffix(prefix: seq<Insn>, program: seq<Insn>, pc: nat, acc: nat, d: SeccompData)
    ensures Run(prefix + program, |prefix| + pc, acc, d) == Run(program, pc, acc, d)
    decreases |program| - pc
  {
    if pc < |program| {
      assert (prefix + program)[|prefix| + pc] == program[pc];
      var effect := Step(program[pc], acc, d);
      if effect.Skip? {
        RunSuffix(prefix, program, pc + 1 + effect.offset, effect.acc, d);
      }
    }
  }
}
