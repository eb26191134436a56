/**
 * The compiler from a list of filtered sysnums to a seccomp filter, and its correctness
 * against the documented decision: trace a listed system call, allow the other ones of a
 * handled architecture, kill on any other architecture.
 */
module SeccompFilter {
  import opened Sysnums
  import opened ClassicBpf
  import opened FilteredSysnums

  datatype SeccompArch = SeccompArch(value: nat, abis: seq<Abi>)

  /** Where libc lies, when its system calls are to be left alone. */
  datatype Mode = TraceAll | ExcludeLibc(libcStart: nat, libcEnd: nat)

  // -ERANGE
  const ERANGE: int := -34
  // struct sock_fprog stores its length in an unsigned short.
  const LEN_LIMIT: nat := 0x1_0000

  /** One traced number of an architecture, with its flags. */
  datatype Traced = Traced(number: nat, flags: Flags)

  function TracedByAbi(abi: Abi, items: seq<FilteredSysnum>): seq<Traced> {
    if items == [] then []
    else
      var last := items[|items| - 1];
      var number := Detranslate(abi, last.value);
      TracedByAbi(abi, items[..|items| - 1])
      + (if number == SYSCALL_AVOIDER then [] else [Traced(number, last.flags)])
  }

  function TracedBy(abis: seq<Abi>, items: seq<FilteredSysnum>): seq<Traced> {
    if abis == [] then []
    else TracedBy(abis[..|abis| - 1], items) + TracedByAbi(abis[|abis| - 1], items)
  }

  // ----- Shape of the generated code -----

  function TraceAction(flags: Flags): nat {
    (RET_TRACE + flags) % 0x1_0000_0000
  }

  function TraceSyscallCode(t: Traced): seq<Insn> {
    [Jeq(t.number, 0, 1), Ret(TraceAction(t.flags))]
  }

  function TraceCode(traced: seq<Traced>): (code: seq<Insn>)
    ensures |code| == 2 * |traced|
  {
    if traced == [] then []
    else TraceCode(traced[..|traced| - 1]) + TraceSyscallCode(traced[|traced| - 1])
  }

  function SectionLength(n: nat): nat { 1 + 2 * n }

  function StartCode(mode: Mode, arch: nat, n: nat): seq<Insn> {
    match mode
    case TraceAll =>
      [LdAbs(ARCH_OFFSET),
       Jeq(arch, 1, 0),
       Ja(SectionLength(n) + 1),
       LdAbs(NR_OFFSET)]
    case ExcludeLibc(start, end) =>
      [LdAbs(ARCH_OFFSET),
       Jeq(arch, 1, 0),
       Ja(4),
       LdAbs(IP_OFFSET),
       Jgt(end % 0x1_0000_0000, 0, 1),
       Ja(2),
       Jge(start % 0x1_0000_0000, 0, 1),
       Ja(SectionLength(n)),
       LdAbs(NR_OFFSET)]
  }

  function StartLength(mode: Mode): nat {
    if mode.TraceAll? then 4 else 9
  }

  function SectionCode(mode: Mode, arch: nat, traced: seq<Traced>): seq<Insn> {
    StartCode(mode, arch, |traced|) + TraceCode(traced) + [Ret(RET_ALLOW)]
  }

  function SectionsCode(mode: Mode, archs: seq<SeccompArch>, items: seq<FilteredSysnum>): seq<Insn> {
    if archs == [] then []
    else
      var last := archs[|archs| - 1];
      SectionsCode(mode, archs[..|archs| - 1], items) + SectionCode(mode, last.value, TracedBy(last.abis, items))
  }

  function FilterCode(mode: Mode, archs: seq<SeccompArch>, items: seq<FilteredSysnum>): seq<Insn> {
    SectionsCode(mode, archs, items) + [Ret(RET_KILL)]
  }

  predicate NumbersFit(traced: seq<Traced>) {
    forall i :: 0 <= i < |traced| ==> traced[i].number <= UINT32_MAX
  }

  /** What the compiler refuses with -ERANGE, for the section that starts at `start`. */
  predicate SectionFits(mode: Mode, start: nat, traced: seq<Traced>) {
    && SectionLength(|traced|) <= UINT32_MAX - 1
    && NumbersFit(traced)
    && start + StartLength(mode) < LEN_LIMIT
  }

  predicate Encodable(mode: Mode, archs: seq<SeccompArch>, items: seq<FilteredSysnum>) {
    if archs == [] then true
    else
      var n := |archs| - 1;
      && Encodable(mode, archs[..n], items)
      && SectionFits(mode, |SectionsCode(mode, archs[..n], items)|, TracedBy(archs[n].abis, items))
  }

  // ----- The compiler -----

  class Program {
    var filter: seq<Insn>
    // struct sock_fprog's length: 16 bits wide.
    var len: nat

    constructor ()
      ensures filter == [] && len == 0
    {
      filter, len := [], 0;
    }

    method AddStatements(statements: seq<Insn>)
      modifies this`filter
      ensures filter == old(filter) + statements
    {
      var i := 0;
      while i < |statements|
        invariant i <= |statements|
        invariant filter == old(filter) + statements[..i]
      {
        filter := filter + [statements[i]];
        i := i + 1;
      }
    }

    method AddTraceSyscall(syscall: nat, flags: Flags) returns (status: int)
      modifies this`filter
      ensures status == (if syscall > UINT32_MAX then ERANGE else 0)
      ensures filter == old(filter) + if status < 0 then [] else TraceSyscallCode(Traced(syscall, flags))
    {
      if syscall > UINT32_MAX {
        return ERANGE;
      }
      AddStatements([Jeq(syscall, 0, 1), Ret((RET_TRACE + flags) % 0x1_0000_0000)]);
      return 0;
    }

    method StartArchSection(mode: Mode, arch: nat, nbTraced: nat) returns (status: int)
      modifies this
      ensures status == (if SectionLength(nbTraced) > UINT32_MAX - 1 then ERANGE else 0)
      ensures status == 0 ==>
                filter == old(filter) + StartCode(mode, arch, nbTraced) && len == |filter| % LEN_LIMIT
    {
      var sectionLength := 1 + nbTraced * 2;
      if sectionLength > UINT32_MAX - 1 {
        return ERANGE;
      }
      match mode {
        case ExcludeLibc(start, end) =>
          AddStatements([
            LdAbs(ARCH_OFFSET), Jeq(arch, 1, 0), Ja(4),
            LdAbs(IP_OFFSET), Jgt(end % 0x1_0000_0000, 0, 1), Ja(2), Jge(start % 0x1_0000_0000, 0, 1),
            Ja(sectionLength), LdAbs(NR_OFFSET)]);
        case TraceAll =>
          AddStatements([LdAbs(ARCH_OFFSET), Jeq(arch, 1, 0), Ja(sectionLength + 1), LdAbs(NR_OFFSET)]);
      }
      len := |filter| % LEN_LIMIT;
      return 0;
    }

    method EndArchSection(nbTraced: nat) returns (status: int)
      modifies this`filter
      ensures filter == old(filter) + [Ret(RET_ALLOW)]
      ensures status == (if |filter| - len != SectionLength(nbTraced) then ERANGE else 0)
    {
      AddStatements([Ret(RET_ALLOW)]);
      if |filter| - len != 1 + nbTraced * 2 {
        return ERANGE;
      }
      return 0;
    }

    method FinalizeProgramFilter()
      modifies this
      ensures filter == old(filter) + [Ret(RET_KILL)] && len == |filter| % LEN_LIMIT
    {
      AddStatements([Ret(RET_KILL)]);
      len := |filter| % LEN_LIMIT;
    }
  }

  /** First pass over one ABI: how many system calls it adds to the section. */
  method CountTracedByAbi(abi: Abi, sysnums: seq<FilteredSysnum>) returns (count: nat)
    requires Terminated(sysnums)
    ensures count == |TracedByAbi(abi, Items(sysnums))|
  {
    ghost var items := Items(sysnums);
    count := 0;
    var k := 0;
    while sysnums[k].value != PR_VOID
      invariant k <= |items|
      invariant count == |TracedByAbi(abi, items[..k])|
      decreases |items| - k
    {
      assert items[..k + 1][..k] == items[..k] && items[k] == sysnums[k];
      var syscall := DetranslateSysnum(abi, sysnums[k].value);
      if syscall != SYSCALL_AVOIDER {
        count := count + 1;
      }
      k := k + 1;
    }
    assert items[..k] == items;
  }

  /** First pass over one architecture. */
  method CountTraced(abis: seq<Abi>, sysnums: seq<FilteredSysnum>) returns (count: nat)
    requires Terminated(sysnums)
    ensures count == |TracedBy(abis, Items(sysnums))|
  {
    count := 0;
    for j := 0 to |abis|
      invariant count == |TracedBy(abis[..j], Items(sysnums))|
    {
      assert abis[..j + 1][..j] == abis[..j];
      var more := CountTracedByAbi(abis[j], sysnums);
      count := count + more;
    }
    assert abis[..|abis|] == abis;
  }

  /** Second pass: the statements of one ABI. */
  method AddTraceStatementsOfAbi(program: Program, abi: Abi, sysnums: seq<FilteredSysnum>) returns (status: int)
    requires Terminated(sysnums)
    modifies program`filter
    ensures status == if NumbersFit(TracedByAbi(abi, Items(sysnums))) then 0 else ERANGE
    ensures status == 0 ==> program.filter == old(program.filter) + TraceCode(TracedByAbi(abi, Items(sysnums)))
  {
    ghost var items, before, traced := Items(sysnums), program.filter, [];
    AppendNothing(before);
    var k := 0;
    while sysnums[k].value != PR_VOID
      invariant k <= |items|
      invariant traced == TracedByAbi(abi, items[..k]) && NumbersFit(traced)
      invariant program.filter == before + TraceCode(traced)
      decreases |items| - k
    {
      assert items[k] == sysnums[k];
      TraceOneMore(abi, items, k);
      var syscall := DetranslateSysnum(abi, sysnums[k].value);
      if syscall != SYSCALL_AVOIDER {
        ghost var t := Traced(syscall, sysnums[k].flags);
        status := program.AddTraceSyscall(syscall, sysnums[k].flags);
        if status < 0 { return; }
        TraceCodeAppend(before, traced, t);
        traced := traced + [t];
      }
      k := k + 1;
    }
    assert items[..k] == items;
    return 0;
  }

  lemma AppendNothing(before: seq<Insn>)
    ensures before == before + TraceCode([])
  {}

  lemma TraceCodeAppend(before: seq<Insn>, traced: seq<Traced>, t: Traced)
    ensures before + TraceCode(traced) + TraceSyscallCode(t) == before + TraceCode(traced + [t])
  {
    assert (traced + [t])[..|traced|] == traced;
  }

  lemma TraceOneMore(abi: Abi, items: seq<FilteredSysnum>, k: nat)
    requires k < |items|
    ensures var number := Detranslate(abi, items[k].value);
            var sofar := TracedByAbi(abi, items[..k]);
            if number == SYSCALL_AVOIDER then TracedByAbi(abi, items[..k + 1]) == sofar
            else
              && TracedByAbi(abi, items[..k + 1]) == sofar + [Traced(number, items[k].flags)]
              && (if number > UINT32_MAX then !NumbersFit(TracedByAbi(abi, items))
                  else NumbersFit(sofar) ==> NumbersFit(TracedByAbi(abi, items[..k + 1])))
  {
    var sofar := TracedByAbi(abi, items[..k]);
    var number := Detranslate(abi, items[k].value);
    var t := Traced(number, items[k].flags);
    assert items[..k + 1][..k] == items[..k];
    if number == SYSCALL_AVOIDER {
      assert sofar + [] == sofar;
    } else {
      NumbersFitConcat(sofar, [t]);
      assert NumbersFit([t]) <==> [t][0].number <= UINT32_MAX;
      TracedByAbiPrefix(abi, items, k + 1);
      if NumbersFit(TracedByAbi(abi, items)) { NumbersFitPrefix(sofar + [t], TracedByAbi(abi, items)); }
    }
  }

  lemma NumbersFitConcat(a: seq<Traced>, b: seq<Traced>)
    ensures NumbersFit(a + b) <==> NumbersFit(a) && NumbersFit(b)
  {
    if NumbersFit(a + b) {
      assert forall i :: 0 <= i < |a| ==> a[i] == (a + b)[i];
      assert forall i :: 0 <= i < |b| ==> b[i] == (a + b)[|a| + i];
    }
  }

  lemma NumbersFitPrefix(a: seq<Traced>, b: seq<Traced>)
    requires a <= b && NumbersFit(b)
    ensures NumbersFit(a)
  {
    assert forall i :: 0 <= i < |a| ==> a[i] == b[i];
  }

  /** Second pass over one architecture. */
  method AddTraceStatements(program: Program, abis: seq<Abi>, sysnums: seq<FilteredSysnum>) returns (status: int)
    requires Terminated(sysnums)
    modifies program`filter
    ensures status == if NumbersFit(TracedBy(abis, Items(sysnums))) then 0 else ERANGE
    ensures status == 0 ==> program.filter == old(program.filter) + TraceCode(TracedBy(abis, Items(sysnums)))
  {
    ghost var items, before := Items(sysnums), program.filter;
    AppendNothing(before);
    for j := 0 to |abis|
      invariant program.filter == before + TraceCode(TracedBy(abis[..j], items))
      invariant NumbersFit(TracedBy(abis[..j], items))
    {
      TraceOneMoreAbi(before, abis, items, j);
      status := AddTraceStatementsOfAbi(program, abis[j], sysnums);
      if status < 0 { return; }
    }
    assert abis[..|abis|] == abis;
    return 0;
  }

  lemma TraceOneMoreAbi(before: seq<Insn>, abis: seq<Abi>, items: seq<FilteredSysnum>, j: nat)
    requires j < |abis|
    ensures before + TraceCode(TracedBy(abis[..j], items)) + TraceCode(TracedByAbi(abis[j], items))
         == before + TraceCode(TracedBy(abis[..j + 1], items))
    ensures NumbersFit(TracedBy(abis[..j + 1], items))
       <==> NumbersFit(TracedBy(abis[..j], items)) && NumbersFit(TracedByAbi(abis[j], items))
    ensures NumbersFit(TracedBy(abis, items)) ==> NumbersFit(TracedBy(abis[..j + 1], items))
  {
    var sofar, more := TracedBy(abis[..j], items), TracedByAbi(abis[j], items);
    assert TracedBy(abis[..j + 1], items) == sofar + more by { assert abis[..j + 1][..j] == abis[..j]; }
    TraceCodeConcat(sofar, more);
    NumbersFitConcat(sofar, more);
    TracedByPrefix(abis, items, j + 1);
    if NumbersFit(TracedBy(abis, items)) { NumbersFitPrefix(sofar + more, TracedBy(abis, items)); }
    assert before + TraceCode(sofar) + TraceCode(more) == before + (TraceCode(sofar) + TraceCode(more));
  }

  lemma {:induction false} TraceCodeConcat(a: seq<Traced>, b: seq<Traced>)
    ensures TraceCode(a + b) == TraceCode(a) + TraceCode(b)
  {
    if b == [] {
      assert a + b == a;
    } else {
      assert (a + b)[..|a + b| - 1] == a + b[..|b| - 1];
      TraceCodeConcat(a, b[..|b| - 1]);
    }
  }

  lemma {:induction false} TracedByPrefix(abis: seq<Abi>, items: seq<FilteredSysnum>, j: nat)
    requires j <= |abis|
    ensures TracedBy(abis[..j], items) <= TracedBy(abis, items)
  {
    if j == |abis| {
      assert abis[..j] == abis;
    } else {
      assert abis[..|abis| - 1][..j] == abis[..j];
      TracedByPrefix(abis[..|abis| - 1], items, j);
    }
  }

  lemma {:induction false} TracedByAbiPrefix(abi: Abi, items: seq<FilteredSysnum>, k: nat)
    requires k <= |items|
    ensures TracedByAbi(abi, items[..k]) <= TracedByAbi(abi, items)
  {
    if k == |items| {
      assert items[..k] == items;
    } else {
      assert items[..|items| - 1][..k] == items[..k];
      TracedByAbiPrefix(abi, items[..|items| - 1], k);
    }
  }

  /** One turn of the outer loop. */
  method AddArchSection(program: Program, mode: Mode, arch: SeccompArch, sysnums: seq<FilteredSysnum>)
      returns (status: int)
    requires Terminated(sysnums)
    modifies program
    ensures status == if SectionFits(mode, |old(program.filter)|, TracedBy(arch.abis, Items(sysnums))) then 0 else ERANGE
    ensures status == 0 ==>
              program.filter == old(program.filter) + SectionCode(mode, arch.value, TracedBy(arch.abis, Items(sysnums)))
  {
    ghost var traced := TracedBy(arch.abis, Items(sysnums));
    ghost var before := program.filter;
    var nbTraced := CountTraced(arch.abis, sysnums);
    status := program.StartArchSection(mode, arch.value, nbTraced);
    if status < 0 { return; }
    status := AddTraceStatements(program, arch.abis, sysnums);
    if status < 0 { return; }
    AssembleSection(before, mode, arch.value, traced);
    status := program.EndArchSection(nbTraced);
  }

  lemma AssembleSection(before: seq<Insn>, mode: Mode, arch: nat, traced: seq<Traced>)
    ensures before + StartCode(mode, arch, |traced|) + TraceCode(traced) + [Ret(RET_ALLOW)]
         == before + SectionCode(mode, arch, traced)
    ensures |StartCode(mode, arch, |traced|)| == StartLength(mode)
  {}

  lemma SectionsOneMore(mode: Mode, archs: seq<SeccompArch>, items: seq<FilteredSysnum>, i: nat)
    requires i < |archs|
    ensures SectionsCode(mode, archs[..i + 1], items)
         == SectionsCode(mode, archs[..i], items) + SectionCode(mode, archs[i].value, TracedBy(archs[i].abis, items))
    ensures Encodable(mode, archs[..i + 1], items)
       <==> && Encodable(mode, archs[..i], items)
            && SectionFits(mode, |SectionsCode(mode, archs[..i], items)|, TracedBy(archs[i].abis, items))
  {
    assert archs[..i + 1][..i] == archs[..i];
  }

  lemma {:induction false} EncodablePrefix(mode: Mode, archs: seq<SeccompArch>, items: seq<FilteredSysnum>, i: nat)
    requires i <= |archs| && Encodable(mode, archs, items)
    ensures Encodable(mode, archs[..i], items)
  {
    if i == |archs| {
      assert archs[..i] == archs;
    } else {
      assert archs[..|archs| - 1][..i] == archs[..i];
      EncodablePrefix(mode, archs[..|archs| - 1], items, i);
    }
  }

  /**
   * The whole compiler. It fails exactly on an input that is not encodable; the two
   * passes always agree, so no other input makes a section's sanity check fail.
   */
  method SetSeccompFilters(mode: Mode, archs: seq<SeccompArch>, sysnums: seq<FilteredSysnum>)
      returns (program: Program, status: int)
    requires Terminated(sysnums)
    ensures fresh(program)
    ensures status == if Encodable(mode, archs, Items(sysnums)) then 0 else ERANGE
    ensures status == 0 ==>
              && program.filter == FilterCode(mode, archs, Items(sysnums))
              && program.len == |program.filter| % LEN_LIMIT
  {
    ghost var items := Items(sysnums);
    program := new Program();
    for i := 0 to |archs|
      invariant fresh(program)
      invariant program.filter == SectionsCode(mode, archs[..i], items)
      invariant Encodable(mode, archs[..i], items)
    {
      SectionsOneMore(mode, archs, items, i);
      status := AddArchSection(program, mode, archs[i], sysnums);
      if status < 0 {
        if Encodable(mode, archs, items) { EncodablePrefix(mode, archs, items, i + 1); }
        return;
      }
    }
    assert archs[..|archs|] == archs;
    program.FinalizeProgramFilter();
    return program, 0;
  }
}
