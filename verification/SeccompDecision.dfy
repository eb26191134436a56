/** What a generated filter answers, for every system call it can be asked about. */
module SeccompDecision {
  import opened Sysnums
  import opened ClassicBpf
  import opened FilteredSysnums
  import opened SeccompFilter
  import opened Wrappers


  /** Flags of the first statement pair for this number. */
  function Lookup(traced: seq<Traced>, number: nat): Option<Flags> {
    if traced == [] then None
    else
      var last := traced[|traced| - 1];
      match Lookup(traced[..|traced| - 1], number)
      case Some(flags) => Some(flags)
      case None => if last.number == number then Some(last.flags) else None
  }

  function AnswerFor(flags: Option<Flags>): nat {
    if flags.Some? then TraceAction(flags.value) else RET_ALLOW
  }

  lemma {:induction false} RunTraceCode(traced: seq<Traced>, rest: seq<Insn>, d: SeccompData)
    ensures Run(TraceCode(traced) + rest, 0, d.nr, d)
         == match Lookup(traced, d.nr)
            case Some(flags) => Return(TraceAction(flags))
            case None => Run(rest, 0, d.nr, d)
  {
    if traced == [] {
      assert TraceCode(traced) + rest == rest;
    } else {
      var n := |traced| - 1;
      var code := TraceSyscallCode(traced[n]);
      assert TraceCode(traced) + rest == TraceCode(traced[..n]) + (code + rest);
      RunTraceCode(traced[..n], code + rest, d);
      assert (code + rest)[0] == code[0] && (code + rest)[1] == code[1];
      RunSuffix(code, rest, 0, d.nr, d);
    }
  }

  /** A section answers for its own architecture and passes any other on. */
  lemma RunSection(arch: nat, traced: seq<Traced>, rest: seq<Insn>, acc: nat, d: SeccompData)
    ensures Run(SectionCode(TraceAll, arch, traced) + rest, 0, acc, d)
         == if d.arch == arch then Return(AnswerFor(Lookup(traced, d.nr))) else Run(rest, 0, d.arch, d)
  {
    var start := StartCode(TraceAll, arch, |traced|);
    var body := TraceCode(traced) + ([Ret(RET_ALLOW)] + rest);
    var code := SectionCode(TraceAll, arch, traced) + rest;
    assert code == start + body;
    assert code[0] == start[0] && code[1] == start[1] && code[2] == start[2] && code[3] == start[3];
    if d.arch == arch {
      assert Run(code, 0, acc, d) == Run(code, 1, arch, d) == Run(code, 3, arch, d) == Run(code, 4, d.nr, d);
      RunSuffix(start, body, 0, d.nr, d);
      RunTraceCode(traced, [Ret(RET_ALLOW)] + rest, d);
    } else {
      var n := |SectionCode(TraceAll, arch, traced)|;
      assert Run(code, 0, acc, d) == Run(code, 1, d.arch, d) == Run(code, 2, d.arch, d) == Run(code, n, d.arch, d);
      RunSuffix(SectionCode(TraceAll, arch, traced), rest, 0, d.arch, d);
    }
  }

  function FindArch(archs: seq<SeccompArch>, value: nat): Option<SeccompArch> {
    if archs == [] then None
    else
      var last := archs[|archs| - 1];
      match FindArch(archs[..|archs| - 1], value)
      case Some(arch) => Some(arch)
      case None => if last.value == value then Some(last) else None
  }

  lemma {:induction false} RunSections(archs: seq<SeccompArch>, items: seq<FilteredSysnum>, rest: seq<Insn>,
                                       acc: nat, d: SeccompData)
    ensures Run(SectionsCode(TraceAll, archs, items) + rest, 0, acc, d)
         == match FindArch(archs, d.arch)
            case Some(arch) => Return(AnswerFor(Lookup(TracedBy(arch.abis, items), d.nr)))
            case None => Run(rest, 0, if archs == [] then acc else d.arch, d)
  {
    if archs == [] {
      assert SectionsCode(TraceAll, archs, items) + rest == rest;
    } else {
      var n := |archs| - 1;
      var traced := TracedBy(archs[n].abis, items);
      var code := SectionCode(TraceAll, archs[n].value, traced);
      assert SectionsCode(TraceAll, archs, items) + rest == SectionsCode(TraceAll, archs[..n], items) + (code + rest);
      RunSections(archs[..n], items, code + rest, acc, d);
      RunSection(archs[n].value, traced, rest, if n == 0 then acc else d.arch, d);
    }
  }

  /** Item k, seen through ABI j of the architecture, is the kernel number nr. */
  predicate Lists(abis: seq<Abi>, items: seq<FilteredSysnum>, j: int, k: int, nr: nat) {
    && 0 <= j < |abis| && 0 <= k < |items|
    && Detranslate(abis[j], items[k].value) == nr != SYSCALL_AVOIDER
  }

  lemma {:induction false} TracedByAbiHasIndex(abi: Abi, items: seq<FilteredSysnum>, t: Traced) returns (k: int)
    requires t in TracedByAbi(abi, items)
    ensures Lists([abi], items, 0, k, t.number) && items[k].flags == t.flags
  {
    var n := |items| - 1;
    if t in TracedByAbi(abi, items[..n]) {
      k := TracedByAbiHasIndex(abi, items[..n], t);
    } else {
      k := n;
    }
  }

  lemma {:induction false} TracedHasIndex(abis: seq<Abi>, items: seq<FilteredSysnum>, t: Traced) returns (j: int, k: int)
    requires t in TracedBy(abis, items)
    ensures Lists(abis, items, j, k, t.number) && items[k].flags == t.flags
  {
    var n := |abis| - 1;
    if t in TracedBy(abis[..n], items) {
      j, k := TracedHasIndex(abis[..n], items, t);
    } else {
      k := TracedByAbiHasIndex(abis[n], items, t);
      j := n;
    }
  }

  lemma IndexIsTraced(abis: seq<Abi>, items: seq<FilteredSysnum>, j: int, k: int, nr: nat)
    requires Lists(abis, items, j, k, nr)
    ensures Traced(nr, items[k].flags) in TracedBy(abis, items)
  {
    var t := Traced(nr, items[k].flags);
    assert t in TracedByAbi(abis[j], items[..k + 1]);
    TracedByAbiPrefix(abis[j], items, k + 1);
    InPrefix(TracedByAbi(abis[j], items[..k + 1]), TracedByAbi(abis[j], items), t);
    assert abis[..j + 1][..j] == abis[..j];
    assert t in TracedBy(abis[..j + 1], items);
    TracedByPrefix(abis, items, j + 1);
    InPrefix(TracedBy(abis[..j + 1], items), TracedBy(abis, items), t);
  }

  lemma InPrefix(a: seq<Traced>, b: seq<Traced>, t: Traced)
    requires a <= b && t in a
    ensures t in b
  {
    var i :| 0 <= i < |a| && a[i] == t;
    assert b[i] == t;
  }

  lemma {:induction false} LookupFinds(traced: seq<Traced>, number: nat)
    ensures match Lookup(traced, number)
            case Some(flags) => Traced(number, flags) in traced
            case None => forall t <- traced :: t.number != number
  {
    if traced != [] {
      var n := |traced| - 1;
      LookupFinds(traced[..n], number);
      if Lookup(traced[..n], number).None? && traced[n].number == number {
        assert traced[n] == Traced(number, traced[n].flags);
      }
    }
  }

  lemma {:induction false} FindArchFinds(archs: seq<SeccompArch>, value: nat)
    ensures match FindArch(archs, value)
            case Some(arch) => arch in archs && arch.value == value
            case None => forall arch <- archs :: arch.value != value
  {
    if archs != [] { FindArchFinds(archs[..|archs| - 1], value); }
  }

  predicate DistinctArchs(archs: seq<SeccompArch>) {
    forall i, j :: 0 <= i < j < |archs| ==> archs[i].value != archs[j].value
  }

  /** Some filtered sysnum is the number nr of this architecture. */
  ghost predicate IsTraced(abis: seq<Abi>, items: seq<FilteredSysnum>, nr: nat) {
    exists j, k :: Lists(abis, items, j, k, nr)
  }

  /**
   * The answer for a traced number is SECCOMP_RET_TRACE with the flags where PTRACE_GETEVENTMSG
   * finds them, in the lower half; it is neither of the two other answers.
   */
  lemma AnswerHasFlags(flags: Flags)
    requires flags < 0x1_0000
    ensures TraceAction(flags) / 0x1_0000 == 0x7ff0 && TraceAction(flags) % 0x1_0000 == flags
    ensures RET_KILL == 0 && RET_ALLOW == 0x7fff_0000
  {}

  /** The documented answer of a handled architecture to its number nr. */
  ghost predicate IsSectionAnswer(abis: seq<Abi>, items: seq<FilteredSysnum>, nr: nat, answer: nat) {
    if IsTraced(abis, items, nr)
    then exists j, k :: Lists(abis, items, j, k, nr) && answer == TraceAction(items[k].flags)
    else answer == RET_ALLOW
  }

  lemma LookupAnswers(abis: seq<Abi>, items: seq<FilteredSysnum>, nr: nat)
    ensures IsSectionAnswer(abis, items, nr, AnswerFor(Lookup(TracedBy(abis, items), nr)))
  {
    var traced := TracedBy(abis, items);
    LookupFinds(traced, nr);
    match Lookup(traced, nr)
    case Some(flags) =>
      var j, k := TracedHasIndex(abis, items, Traced(nr, flags));
    case None =>
      if j, k :| Lists(abis, items, j, k, nr) {
        IndexIsTraced(abis, items, j, k, nr);
        assert false;
      }
  }

  /**
   * The filter is correct: it always halts with an answer; that answer is KILL exactly for
   * an unhandled architecture, TRACE with the flags of a filtered sysnum that is this
   * number when there is one, and ALLOW when there is none.
   */
  lemma FilterDecides(archs: seq<SeccompArch>, items: seq<FilteredSysnum>, d: SeccompData)
    requires DistinctArchs(archs)
    ensures Run(FilterCode(TraceAll, archs, items), 0, 0, d).Return?
    ensures var answer := Run(FilterCode(TraceAll, archs, items), 0, 0, d).value;
            && ((forall arch <- archs :: arch.value != d.arch) ==> answer == RET_KILL)
            && (forall arch <- archs | arch.value == d.arch :: IsSectionAnswer(arch.abis, items, d.nr, answer))
  {
    hide Run, SectionsCode, FindArch, IsSectionAnswer;
    RunSections(archs, items, [Ret(RET_KILL)], 0, d);
    FindArchFinds(archs, d.arch);
    match FindArch(archs, d.arch)
    case Some(arch) =>
      LookupAnswers(arch.abis, items, d.nr);
      assert forall a <- archs | a.value == d.arch :: a == arch;
    case None =>
      KillReturns(if archs == [] then 0 else d.arch, d);
  }

  lemma KillReturns(acc: nat, d: SeccompData)
    ensures Run([Ret(RET_KILL)], 0, acc, d) == Return(RET_KILL)
  {}

  /** Different ABIs of one architecture use disjoint ranges of numbers (x86-64 and x32 do). */
  predicate DisjointAbis(abis: seq<Abi>) {
    && (forall abi <- abis :: abi.Valid())
    && forall i, j :: 0 <= i < j < |abis| ==>
         abis[i].offset + |abis[i].table| <= abis[j].offset || abis[j].offset + |abis[j].table| <= abis[i].offset
  }

  lemma ListsIsUnique(abis: seq<Abi>, items: seq<FilteredSysnum>, nr: nat, j: int, k: int, j': int, k': int)
    requires DisjointAbis(abis) && DuplicateFree(items)
    requires Lists(abis, items, j, k, nr) && Lists(abis, items, j', k', nr)
    ensures j == j' && k == k'
  {
    TranslateUndoesDetranslate(abis[j], items[k].value, PR_VOID);
    TranslateUndoesDetranslate(abis[j'], items[k'].value, PR_VOID);
    DetranslateIsInjective(abis[j], items[k].value, items[k'].value);
  }

  /**
   * With a duplicate-free list, the flags come from the one sysnum that is this number,
   * and decoding the number under its ABI gives that sysnum back.
   */
  lemma TracedNumberDecodes(archs: seq<SeccompArch>, items: seq<FilteredSysnum>, d: SeccompData,
                            arch: SeccompArch, j: int, k: int, beyond: Sysnum)
    requires DistinctArchs(archs) && arch in archs && arch.value == d.arch
    requires DisjointAbis(arch.abis) && DuplicateFree(items)
    requires Lists(arch.abis, items, j, k, d.nr)
    ensures Run(FilterCode(TraceAll, archs, items), 0, 0, d) == Return(TraceAction(items[k].flags))
    ensures Translate(arch.abis[j], d.nr, beyond) == items[k].value
  {
    FilterDecides(archs, items, d);
    var answer := Run(FilterCode(TraceAll, archs, items), 0, 0, d).value;
    var j', k' :| Lists(arch.abis, items, j', k', d.nr) && answer == TraceAction(items[k'].flags);
    ListsIsUnique(arch.abis, items, d.nr, j, k, j', k');
    TranslateUndoesDetranslate(arch.abis[j], items[k].value, beyond);
  }

  // ----- The mode that leaves libc alone -----

  /** Only the low 32 bits of the instruction pointer are compared, and the end counts as libc. */
  predicate OutsideLibc(mode: Mode, ip: nat)
    requires mode.ExcludeLibc?
  {
    var low := ip % 0x1_0000_0000;
    low > mode.libcEnd % 0x1_0000_0000 || low < mode.libcStart % 0x1_0000_0000
  }

  /** A section in this mode: its nine first statements, and the ALLOW at its end. */
  lemma ExcludeSectionIs(mode: Mode, arch: nat, traced: seq<Traced>, rest: seq<Insn>)
    requires mode.ExcludeLibc?
    ensures var code, start := SectionCode(mode, arch, traced) + rest, StartCode(mode, arch, |traced|);
            && code == start + (TraceCode(traced) + ([Ret(RET_ALLOW)] + rest))
            && |start| == 9 && 9 + 2 * |traced| < |code| && code[9 + 2 * |traced|] == Ret(RET_ALLOW)
            && forall i :: 0 <= i < 9 ==> code[i] == start[i]
  {
    hide TraceCode;
    var code, start := SectionCode(mode, arch, traced) + rest, StartCode(mode, arch, |traced|);
    assert code == start + (TraceCode(traced) + ([Ret(RET_ALLOW)] + rest));
  }

  lemma RunExcludeSection(mode: Mode, arch: nat, traced: seq<Traced>, rest: seq<Insn>, acc: nat, d: SeccompData)
    requires mode.ExcludeLibc?
    ensures Run(SectionCode(mode, arch, traced) + rest, 0, acc, d)
         == Return(if d.arch == arch && OutsideLibc(mode, d.ip) then AnswerFor(Lookup(traced, d.nr)) else RET_ALLOW)
  {
    ExcludeSectionIs(mode, arch, traced, rest);
    hide TraceCode, SectionCode, Lookup;
    var start := StartCode(mode, arch, |traced|);
    var code := SectionCode(mode, arch, traced) + rest;
    var n := 9 + 2 * |traced|;
    if d.arch == arch {
      var low := d.ip % 0x1_0000_0000;
      assert Run(code, 0, acc, d) == Run(code, 3, d.arch, d) == Run(code, 4, low, d);
      if OutsideLibc(mode, d.ip) {
        assert Run(code, 4, low, d) == Run(code, 8, low, d) == Run(code, 9, d.nr, d);
        RunSuffix(start, TraceCode(traced) + ([Ret(RET_ALLOW)] + rest), 0, d.nr, d);
        RunTraceCode(traced, [Ret(RET_ALLOW)] + rest, d);
      } else {
        assert Run(code, 4, low, d) == Run(code, 6, low, d) == Run(code, 7, low, d) == Run(code, n, low, d);
      }
    } else {
      assert Run(code, 0, acc, d) == Run(code, 2, d.arch, d) == Run(code, 7, d.arch, d) == Run(code, n, d.arch, d);
    }
  }

  lemma {:induction false} FirstSection(mode: Mode, archs: seq<SeccompArch>, items: seq<FilteredSysnum>)
    requires archs != []
    ensures SectionCode(mode, archs[0].value, TracedBy(archs[0].abis, items)) <= SectionsCode(mode, archs, items)
  {
    if |archs| > 1 { FirstSection(mode, archs[..|archs| - 1], items); }
  }

  /**
   * In this mode the jump taken on an architecture mismatch lands on the first section's
   * ALLOW, so only the first architecture is ever filtered and nothing is ever killed.
   */
  lemma ExcludeModeDecides(mode: Mode, archs: seq<SeccompArch>, items: seq<FilteredSysnum>, d: SeccompData)
    requires mode.ExcludeLibc? && archs != []
    ensures Run(FilterCode(mode, archs, items), 0, 0, d).Return?
    ensures var answer := Run(FilterCode(mode, archs, items), 0, 0, d).value;
            if d.arch == archs[0].value && OutsideLibc(mode, d.ip)
            then IsSectionAnswer(archs[0].abis, items, d.nr, answer)
            else answer == RET_ALLOW
  {
    ExcludeModeRuns(mode, archs, items, d);
    LookupAnswers(archs[0].abis, items, d.nr);
  }

  lemma ExcludeModeRuns(mode: Mode, archs: seq<SeccompArch>, items: seq<FilteredSysnum>, d: SeccompData)
    requires mode.ExcludeLibc? && archs != []
    ensures Run(FilterCode(mode, archs, items), 0, 0, d)
         == Return(if d.arch == archs[0].value && OutsideLibc(mode, d.ip)
                   then AnswerFor(Lookup(TracedBy(archs[0].abis, items), d.nr)) else RET_ALLOW)
  {
    hide Run, SectionCode, SectionsCode, Lookup, OutsideLibc;
    var traced := TracedBy(archs[0].abis, items);
    var code := SectionCode(mode, archs[0].value, traced);
    FirstSection(mode, archs, items);
    var program := FilterCode(mode, archs, items);
    assert code <= program && program == code + program[|code|..];
    RunExcludeSection(mode, archs[0].value, traced, program[|code|..], 0, d);
  }

  /**
   * Apart from what happens inside libc, that mode keeps the documented decision exactly
   * for the first architecture and for the calls the decision would allow anyway.
   */
  lemma ExcludeModeAgreesExactly(mode: Mode, archs: seq<SeccompArch>, items: seq<FilteredSysnum>, d: SeccompData)
    requires mode.ExcludeLibc? && archs != [] && DistinctArchs(archs) && OutsideLibc(mode, d.ip)
    requires forall k :: 0 <= k < |items| ==> items[k].flags <= FILTER_SYSEXIT
    ensures Run(FilterCode(mode, archs, items), 0, 0, d) == Run(FilterCode(TraceAll, archs, items), 0, 0, d)
       <==> || d.arch == archs[0].value
            || exists arch <- archs :: arch.value == d.arch && !IsTraced(arch.abis, items, d.nr)
  {
    hide Run, SectionsCode, FindArch, DistinctArchs, OutsideLibc, IsTraced;
    ExcludeModeRuns(mode, archs, items, d);
    if d.arch == archs[0].value {
      RunSections(archs, items, [Ret(RET_KILL)], 0, d);
      FindArchFirst(archs);
    } else {
      FilterDecides(archs, items, d);
      var answer := Run(FilterCode(TraceAll, archs, items), 0, 0, d).value;
      forall arch <- archs | arch.value == d.arch
        ensures answer == RET_ALLOW <==> !IsTraced(arch.abis, items, d.nr)
      {
        SectionAllowsIff(arch.abis, items, d.nr, answer);
      }
    }
  }

  lemma SectionAllowsIff(abis: seq<Abi>, items: seq<FilteredSysnum>, nr: nat, answer: nat)
    requires IsSectionAnswer(abis, items, nr, answer)
    requires forall k :: 0 <= k < |items| ==> items[k].flags <= FILTER_SYSEXIT
    ensures answer == RET_ALLOW <==> !IsTraced(abis, items, nr)
  {
    assert forall f: Flags :: f <= FILTER_SYSEXIT ==> TraceAction(f) < RET_ALLOW;
  }

  lemma {:induction false} FindArchFirst(archs: seq<SeccompArch>)
    requires archs != []
    ensures FindArch(archs, archs[0].value) == Some(archs[0])
  {
    if |archs| > 1 { FindArchFirst(archs[..|archs| - 1]); }
  }

  // ----- The 16-bit length -----

  lemma {:induction false} DistinctItemsAreFew(items: seq<FilteredSysnum>, n: nat)
    requires DuplicateFree(items) && forall k :: 0 <= k < |items| ==> items[k].value < n
    ensures |items| <= n
  {
    assert items != [] ==> items[0].value < n;
    if n > 0 {
      if k :| 0 <= k < |items| && items[k].value == n - 1 {
        var rest := items[..k] + items[k + 1..];
        forall i | 0 <= i < |rest| ensures rest[i].value < n - 1 {
          assert rest[i] == items[if i < k then i else i + 1];
        }
        forall i, j | 0 <= i < j < |rest| ensures rest[i].value != rest[j].value {
          assert rest[i] == items[if i < k then i else i + 1] && rest[j] == items[if j < k then j else j + 1];
        }
        DistinctItemsAreFew(rest, n - 1);
      } else {
        DistinctItemsAreFew(items, n - 1);
      }
    }
  }

  lemma {:induction false} TracedAreFew(abis: seq<Abi>, items: seq<FilteredSysnum>)
    ensures |TracedBy(abis, items)| <= |abis| * |items|
  {
    if abis != [] {
      var n := |abis| - 1;
      TracedAreFew(abis[..n], items);
      TracedByAbiAreFew(abis[n], items);
      OneMore(n, |items|);
    }
  }

  lemma {:induction false} TracedByAbiAreFew(abi: Abi, items: seq<FilteredSysnum>)
    ensures |TracedByAbi(abi, items)| <= |items|
  {
    if items != [] { TracedByAbiAreFew(abi, items[..|items| - 1]); }
  }

  lemma {:induction false} TracedNumbersFit(abis: seq<Abi>, items: seq<FilteredSysnum>)
    requires forall abi <- abis :: abi.Valid()
    ensures NumbersFit(TracedBy(abis, items))
  {
    forall i | 0 <= i < |TracedBy(abis, items)|
      ensures TracedBy(abis, items)[i].number <= UINT32_MAX
    {
      var t := TracedBy(abis, items)[i];
      var j, k := TracedHasIndex(abis, items, t);
      TranslateUndoesDetranslate(abis[j], items[k].value, PR_VOID);
    }
  }

  /**
   * For a duplicate-free list of real sysnums and at most eight architectures of at most
   * three ABIs, no sanity check fails and the 16-bit length is the true one, so the
   * kernel is given the whole program.
   */
  lemma {:induction false} RealFiltersFit(mode: Mode, archs: seq<SeccompArch>, items: seq<FilteredSysnum>)
    requires DuplicateFree(items) && forall k :: 0 <= k < |items| ==> items[k].value < NB_SYSNUM
    requires |archs| <= 8 && forall arch <- archs :: |arch.abis| <= 3 && forall abi <- arch.abis :: abi.Valid()
    ensures Encodable(mode, archs, items)
    ensures |SectionsCode(mode, archs, items)| <= 3000 * |archs|
    ensures |FilterCode(mode, archs, items)| < LEN_LIMIT
  {
    if archs != [] {
      var n := |archs| - 1;
      RealFiltersFit(mode, archs[..n], items);
      DistinctItemsAreFew(items, NB_SYSNUM);
      TracedAreFew(archs[n].abis, items);
      ProductMonotone(|archs[n].abis|, 3, |items|, NB_SYSNUM);
      TracedNumbersFit(archs[n].abis, items);
    }
  }

  lemma OneMore(n: nat, m: nat)
    ensures (n + 1) * m == n * m + m
  {}

  lemma ProductMonotone(a: nat, b: nat, c: nat, d: nat)
    requires a <= b && c <= d
    ensures a * c <= b * d
  {
    assert a * c <= b * c <= b * d;
  }
}
