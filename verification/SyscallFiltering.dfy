/** The entry point: which system calls end up in the filter, and with which flags. */
module SyscallFiltering {
  import opened Sysnums
  import opened ClassicBpf
  import opened FilteredSysnums
  import opened SeccompFilter
  import opened SeccompDecision

  const SYSNUM_MAP_SIZE: nat := 512

  /** The internal sysnums that the caller did not list itself. */
  function Missing(added: seq<FilteredSysnum>, internals: seq<FilteredSysnum>): seq<FilteredSysnum> {
    if internals == [] then []
    else
      var last := internals[|internals| - 1];
      Missing(added, internals[..|internals| - 1]) + (if Listed(added, last.value) then [] else [last])
  }

  /** The caller's sysnums followed by the missing internal ones, terminated. */
  method AddInternalSysnums(added: seq<FilteredSysnum>, internals: seq<FilteredSysnum>)
      returns (list: seq<FilteredSysnum>)
    requires Terminated(added)
    requires forall x <- Items(added) :: x.value < SYSNUM_MAP_SIZE
    requires forall x <- internals :: 0 < x.value < SYSNUM_MAP_SIZE
    ensures Terminated(list)
    ensures Items(list) == Items(added) + Missing(Items(added), internals)
  {
    ghost var items := Items(added);
    var sysnumMap := new bool[SYSNUM_MAP_SIZE](i => false);
    list := [];
    var i := 0;
    while added[i].value != PR_VOID
      invariant i <= |items| && list == items[..i]
      invariant forall s :: 0 <= s < SYSNUM_MAP_SIZE ==> (sysnumMap[s] <==> Listed(items[..i], s))
      decreases |items| - i
    {
      assert added[i] == items[i] && items[i] in items;
      assert items[..i + 1] == items[..i] + [items[i]];
      forall s: Sysnum ensures Listed(items[..i + 1], s) <==> Listed(items[..i], s) || items[i].value == s {
        ListedAppend(items[..i], items[i], s);
      }
      sysnumMap[added[i].value] := true;
      list := list + [added[i]];
      i := i + 1;
    }
    assert items[..i] == items;
    for k := 0 to |internals|
      invariant list == items + Missing(items, internals[..k])
      invariant forall x <- list :: x.value != PR_VOID
      invariant forall s :: 0 <= s < SYSNUM_MAP_SIZE ==> (sysnumMap[s] <==> Listed(items, s))
    {
      assert internals[..k + 1][..k] == internals[..k];
      if !sysnumMap[internals[k].value] {
        list := list + [internals[k]];
      }
    }
    assert internals[..|internals|] == internals;
    list := list + [FilteredSysnum(PR_VOID, 0)];
    ItemsAre(list, list[..|list| - 1]);
  }

  lemma {:induction false} MissingListed(added: seq<FilteredSysnum>, internals: seq<FilteredSysnum>, s: Sysnum)
    ensures FlagsOf(Missing(added, internals), s) == if Listed(added, s) then 0 else FlagsOf(internals, s)
    ensures Listed(Missing(added, internals), s) <==> !Listed(added, s) && Listed(internals, s)
  {
    if internals != [] {
      var front, last := internals[..|internals| - 1], internals[|internals| - 1];
      MissingListed(added, front, s);
      assert internals == front + [last];
      ListedAppend(front, last, s);
      if Listed(added, last.value) {
        assert Missing(added, internals) == Missing(added, front);
        OrCommutes(FlagsOf(front, s), 0);
      } else {
        ListedAppend(Missing(added, front), last, s);
        FlagsOfAppend(Missing(added, front), last, s);
      }
    }
  }

  /** Appending lists ORs their flags. */
  lemma {:induction false} FlagsOfConcat(a: seq<FilteredSysnum>, b: seq<FilteredSysnum>, s: Sysnum)
    ensures FlagsOf(a + b, s) == Or(FlagsOf(a, s), FlagsOf(b, s))
    ensures Listed(a + b, s) <==> Listed(a, s) || Listed(b, s)
  {
    if b == [] {
      assert a + b == a;
      OrCommutes(FlagsOf(a, s), 0);
    } else {
      var front, last := b[..|b| - 1], b[|b| - 1];
      FlagsOfConcat(a, front, s);
      assert a + b == (a + front) + [last] && b == front + [last];
      ListedAppend(a + front, last, s);
      ListedAppend(front, last, s);
      FlagsOfAppend(a + front, last, s);
      OrAssociates(FlagsOf(a, s), FlagsOf(front, s), Contribution(last, s));
    }
  }

  /**
   * The list that is compiled: duplicate-free, made of the caller's and the internal
   * sysnums; a sysnum the caller lists keeps the OR of the caller's own flags, whatever
   * the internal list says.
   */
  ghost predicate IsFilterList(added: seq<FilteredSysnum>, internals: seq<FilteredSysnum>, items: seq<FilteredSysnum>) {
    && DuplicateFree(items)
    && (forall k :: 0 <= k < |items| ==> items[k].value != PR_VOID)
    && forall s: Sysnum ::
         && (Listed(items, s) <==> Listed(added, s) || Listed(internals, s))
         && FlagsOf(items, s) == if Listed(added, s) then FlagsOf(added, s) else FlagsOf(internals, s)
  }

  method EnableSyscallFiltering(mode: Mode, archs: seq<SeccompArch>, added: seq<FilteredSysnum>,
                                internals: seq<FilteredSysnum>)
      returns (program: Program, status: int)
    requires Terminated(added)
    requires forall x <- Items(added) :: x.value < SYSNUM_MAP_SIZE
    requires forall x <- internals :: 0 < x.value < SYSNUM_MAP_SIZE
    ensures exists items ::
              && IsFilterList(Items(added), internals, items)
              && status == (if Encodable(mode, archs, items) then 0 else ERANGE)
              && (status == 0 ==>
                    program.filter == FilterCode(mode, archs, items) && program.len == |program.filter| % LEN_LIMIT)
  {
    var list := AddInternalSysnums(added, internals);
    var merged := MergeFilteredSysnums([], true, list);
    ghost var items := Items(merged);
    forall s: Sysnum
      ensures Listed(items, s) <==> Listed(Items(added), s) || Listed(internals, s)
      ensures FlagsOf(items, s) == if Listed(Items(added), s) then FlagsOf(Items(added), s) else FlagsOf(internals, s)
    {
      var missing := Missing(Items(added), internals);
      FlagsOfConcat(Items(added), missing, s);
      MissingListed(Items(added), internals, s);
      OrCommutes(FlagsOf(Items(added), s), 0);
      if !Listed(Items(added), s) { FlagsOfAbsent(Items(added), s); }
    }
    program, status := SetSeccompFilters(mode, archs, merged);
    assert IsFilterList(Items(added), internals, items);
  }

  /** A number of one ABI is that of one sysnum only, whatever its ABI. */
  lemma SameSysnum(abis: seq<Abi>, items: seq<FilteredSysnum>, nr: nat, j: int, s: Sysnum, j': int, k': int)
    requires DisjointAbis(abis) && 0 <= j < |abis| && Detranslate(abis[j], s) == nr != SYSCALL_AVOIDER
    requires Lists(abis, items, j', k', nr)
    ensures items[k'].value == s
  {
    TranslateUndoesDetranslate(abis[j], s, PR_VOID);
    TranslateUndoesDetranslate(abis[j'], items[k'].value, PR_VOID);
    DetranslateIsInjective(abis[j], s, items[k'].value);
  }

  /**
   * From the caller's list to the kernel's answer: a call that is number d.nr of sysnum s
   * under an ABI is traced with the OR of the caller's flags for s, or else of the internal
   * ones, and allowed when neither list has s.
   */
  lemma FilteringDecides(archs: seq<SeccompArch>, added: seq<FilteredSysnum>, internals: seq<FilteredSysnum>,
                         items: seq<FilteredSysnum>, d: SeccompData, arch: SeccompArch, j: int, s: Sysnum)
    requires IsFilterList(added, internals, items)
    requires DistinctArchs(archs) && arch in archs && arch.value == d.arch && DisjointAbis(arch.abis)
    requires 0 <= j < |arch.abis| && Detranslate(arch.abis[j], s) == d.nr != SYSCALL_AVOIDER
    ensures Run(FilterCode(TraceAll, archs, items), 0, 0, d)
         == Return(if Listed(added, s) then TraceAction(FlagsOf(added, s))
                   else if Listed(internals, s) then TraceAction(FlagsOf(internals, s))
                   else RET_ALLOW)
  {
    hide FilterCode, Run, Detranslate, Translate, FlagsOf, TraceAction;
    if Listed(items, s) {
      var k :| 0 <= k < |items| && items[k].value == s;
      FlagsOfSingle(items, s, k);
      TracedNumberDecodes(archs, items, d, arch, j, k, PR_VOID);
    } else {
      FilterDecides(archs, items, d);
      if j', k' :| Lists(arch.abis, items, j', k', d.nr) {
        SameSysnum(arch.abis, items, d.nr, j, s, j', k');
        assert false;
      }
    }
  }
}
