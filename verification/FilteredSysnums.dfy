/** The list of system calls the tracer wants to be told about. */
module FilteredSysnums {
  import opened Sysnums

  type Flags = nat

  const FILTER_SYSEXIT: Flags := 1
  // One more than the largest Sysnum.
  const NB_SYSNUM: nat := 436

  datatype FilteredSysnum = FilteredSysnum(value: Sysnum, flags: Flags)

  /** An array of sysnums is usable once one of its items is the PR_void terminator. */
  predicate Terminated(list: seq<FilteredSysnum>) {
    exists i :: 0 <= i < |list| && list[i].value == PR_VOID
  }

  /** The items in front of the terminator. */
  function Items(list: seq<FilteredSysnum>): (r: seq<FilteredSysnum>)
    requires Terminated(list)
    ensures |r| < |list| && r == list[..|r|] && list[|r|].value == PR_VOID
    ensures forall i :: 0 <= i < |r| ==> r[i].value != PR_VOID
  {
    if list[0].value == PR_VOID then []
    else
      assert Terminated(list[1..]) by {
        var i :| 0 <= i < |list| && list[i].value == PR_VOID;
        assert list[1..][i - 1].value == PR_VOID;
      }
      [list[0]] + Items(list[1..])
  }

  predicate Listed(items: seq<FilteredSysnum>, s: Sysnum) {
    exists i :: 0 <= i < |items| && items[i].value == s
  }

  predicate DuplicateFree(items: seq<FilteredSysnum>) {
    forall i, j :: 0 <= i < j < |items| ==> items[i].value != items[j].value
  }

  /** The bitwise OR of two flag words. */
  function Or(a: Flags, b: Flags): Flags {
    if a == 0 then b
    else if b == 0 then a
    else (if a % 2 == 1 || b % 2 == 1 then 1 else 0) + 2 * Or(a / 2, b / 2)
  }

  function Bit(flags: Flags, i: nat): bool {
    if i == 0 then flags % 2 == 1 else Bit(flags / 2, i - 1)
  }

  /** Bit by bit. */
  lemma {:induction false} OrIsBitwise(a: Flags, b: Flags, i: nat)
    ensures Bit(Or(a, b), i) <==> Bit(a, i) || Bit(b, i)
  {
    NoBits(i);
    if a != 0 && b != 0 && i > 0 {
      OrIsBitwise(a / 2, b / 2, i - 1);
      assert Or(a, b) / 2 == Or(a / 2, b / 2);
    }
  }

  lemma {:induction false} NoBits(i: nat)
    ensures !Bit(0, i)
  {
    if i > 0 { NoBits(i - 1); }
  }

  /** The OR of all the flags given for s. */
  function FlagsOf(items: seq<FilteredSysnum>, s: Sysnum): Flags {
    if items == [] then 0
    else Or(FlagsOf(items[..|items| - 1], s), Contribution(items[|items| - 1], s))
  }

  function Contribution(item: FilteredSysnum, s: Sysnum): Flags {
    if item.value == s then item.flags else 0
  }

  lemma {:induction false} OrAssociates(a: Flags, b: Flags, c: Flags)
    ensures Or(Or(a, b), c) == Or(a, Or(b, c))
  {
    if a != 0 && b != 0 && c != 0 {
      OrAssociates(a / 2, b / 2, c / 2);
      assert Or(a, b) / 2 == Or(a / 2, b / 2) && Or(b, c) / 2 == Or(b / 2, c / 2);
    }
  }

  lemma {:induction false} OrCommutes(a: Flags, b: Flags)
    ensures Or(a, b) == Or(b, a)
  {
    if a != 0 && b != 0 { OrCommutes(a / 2, b / 2); }
  }

  lemma OrSwaps(a: Flags, b: Flags, c: Flags)
    ensures Or(Or(a, b), c) == Or(Or(a, c), b)
  {
    OrAssociates(a, b, c);
    OrCommutes(b, c);
    OrAssociates(a, c, b);
  }

  function WithMoreFlags(items: seq<FilteredSysnum>, j: nat, f: Flags): seq<FilteredSysnum>
    requires j < |items|
  {
    items[j := items[j].(flags := Or(items[j].flags, f))]
  }

  lemma {:induction false} FlagsOfUpdate(items: seq<FilteredSysnum>, j: nat, f: Flags, s: Sysnum)
    requires j < |items|
    ensures FlagsOf(WithMoreFlags(items, j, f), s)
         == Or(FlagsOf(items, s), if items[j].value == s then f else 0)
  {
    var k := |items| - 1;
    var front := items[..k];
    if j == k {
      assert WithMoreFlags(items, j, f)[..k] == front;
      OrAssociates(FlagsOf(front, s), items[j].flags, f);
    } else {
      assert WithMoreFlags(items, j, f)[..k] == WithMoreFlags(front, j, f);
      FlagsOfUpdate(front, j, f, s);
      OrSwaps(FlagsOf(front, s), if items[j].value == s then f else 0, Contribution(items[k], s));
    }
  }

  lemma {:induction false} FlagsOfSingle(items: seq<FilteredSysnum>, s: Sysnum, j: nat)
    requires DuplicateFree(items) && j < |items| && items[j].value == s
    ensures FlagsOf(items, s) == items[j].flags
  {
    var k := |items| - 1;
    if j == k {
      FlagsOfAbsent(items[..k], s);
    } else {
      FlagsOfSingle(items[..k], s, j);
    }
  }

  lemma {:induction false} FlagsOfAbsent(items: seq<FilteredSysnum>, s: Sysnum)
    requires !Listed(items, s)
    ensures FlagsOf(items, s) == 0
  {
    if items != [] {
      var k := |items| - 1;
      FlagsOfAbsent(items[..k], s);
    }
  }

  /** `merged` holds the union of base and added, each with the OR of its contributions. */
  ghost predicate IsMerge(base: seq<FilteredSysnum>, added: seq<FilteredSysnum>, merged: seq<FilteredSysnum>) {
    && DuplicateFree(merged)
    && (forall i :: 0 <= i < |merged| ==> merged[i].value != PR_VOID)
    && (forall s: Sysnum :: Listed(merged, s) <==> Listed(base, s) || Listed(added, s))
    && (forall s: Sysnum :: FlagsOf(merged, s) == Or(FlagsOf(base, s), FlagsOf(added, s)))
  }

  lemma MergeExisting(base: seq<FilteredSysnum>, added: seq<FilteredSysnum>, merged: seq<FilteredSysnum>,
                      x: FilteredSysnum, j: nat)
    requires IsMerge(base, added, merged) && j < |merged| && merged[j].value == x.value
    ensures IsMerge(base, added + [x], WithMoreFlags(merged, j, x.flags))
  {
    var merged' := WithMoreFlags(merged, j, x.flags);
    forall s: Sysnum
      ensures FlagsOf(merged', s) == Or(FlagsOf(base, s), FlagsOf(added + [x], s))
      ensures Listed(merged', s) <==> Listed(base, s) || Listed(added + [x], s)
    {
      FlagsOfUpdate(merged, j, x.flags, s);
      FlagsOfAppend(added, x, s);
      OrAssociates(FlagsOf(base, s), FlagsOf(added, s), Contribution(x, s));
      ListedUpdate(merged, j, merged'[j], s);
      ListedAppend(added, x, s);
    }
  }

  lemma MergeNew(base: seq<FilteredSysnum>, added: seq<FilteredSysnum>, merged: seq<FilteredSysnum>, x: FilteredSysnum)
    requires IsMerge(base, added, merged) && !Listed(merged, x.value) && x.value != PR_VOID
    ensures IsMerge(base, added + [x], merged + [x])
  {
    forall s: Sysnum
      ensures FlagsOf(merged + [x], s) == Or(FlagsOf(base, s), FlagsOf(added + [x], s))
      ensures Listed(merged + [x], s) <==> Listed(base, s) || Listed(added + [x], s)
    {
      FlagsOfAppend(merged, x, s);
      FlagsOfAppend(added, x, s);
      OrAssociates(FlagsOf(base, s), FlagsOf(added, s), Contribution(x, s));
      ListedAppend(added, x, s);
      ListedAppend(merged, x, s);
    }
  }

  lemma FlagsOfAppend(items: seq<FilteredSysnum>, x: FilteredSysnum, s: Sysnum)
    ensures FlagsOf(items + [x], s) == Or(FlagsOf(items, s), Contribution(x, s))
  {
    assert (items + [x])[..|items|] == items;
  }

  lemma ListedAppend(items: seq<FilteredSysnum>, x: FilteredSysnum, s: Sysnum)
    ensures Listed(items + [x], s) <==> Listed(items, s) || x.value == s
  {
    if Listed(items, s) {
      var i :| 0 <= i < |items| && items[i].value == s;
      assert (items + [x])[i].value == s;
    }
    assert (items + [x])[|items|] == x;
  }

  lemma ListedUpdate(items: seq<FilteredSysnum>, j: nat, x: FilteredSysnum, s: Sysnum)
    requires j < |items| && x.value == items[j].value
    ensures Listed(items[j := x], s) <==> Listed(items, s)
  {
    if Listed(items, s) {
      var i :| 0 <= i < |items| && items[i].value == s;
      assert items[j := x][i].value == s;
    }
  }

  /**
   * Add the new sysnums to a list, which is None before the first call. The items in
   * front of the terminator must be a list this method could have built.
   */
  method MergeFilteredSysnums(list: seq<FilteredSysnum>, isNull: bool, news: seq<FilteredSysnum>)
      returns (merged: seq<FilteredSysnum>)
    requires Terminated(news)
    requires !isNull ==> Terminated(list) && DuplicateFree(Items(list))
    ensures Terminated(merged)
    ensures IsMerge(if isNull then [] else Items(list), Items(news), Items(merged))
  {
    ghost var base := if isNull then [] else Items(list);
    // Memory obtained from realloc: only the value of the terminator gets written.
    var junk: Flags :| true;
    merged := list;
    if isNull {
      merged := [FilteredSysnum(PR_VOID, junk)];
    }
    var i := 0;
    ghost var items := base;
    assert merged[..|items| + 1] == items + [merged[|items|]];
    MergeNothing(base);
    while news[i].value != PR_VOID
      invariant i <= |Items(news)|
      invariant |items| < |merged| && merged[..|items|] == items && merged[|items|].value == PR_VOID
      invariant IsMerge(base, news[..i], items)
      decreases |Items(news)| - i
    {
      var j := 0;
      while merged[j].value != PR_VOID && merged[j].value != news[i].value
        invariant j <= |items|
        invariant forall n :: 0 <= n < j ==> items[n].value != news[i].value
        decreases |items| - j
      {
        assert merged[j] == items[j];
        j := j + 1;
      }
      assert news[..i + 1] == news[..i] + [news[i]];
      if merged[j].value == PR_VOID {
        assert j == |items|;
        MergeNew(base, news[..i], items, news[i]);
        junk :| true;
        merged := merged[..j] + [news[i], FilteredSysnum(PR_VOID, junk)];
        items := items + [news[i]];
      } else {
        assert j < |items|;
        MergeExisting(base, news[..i], items, news[i], j);
        merged := merged[j := merged[j].(flags := Or(merged[j].flags, news[i].flags))];
        items := WithMoreFlags(items, j, news[i].flags);
      }
      i := i + 1;
    }
    assert i == |Items(news)|;
    ItemsAre(merged, items);
  }

  lemma ItemsAre(list: seq<FilteredSysnum>, items: seq<FilteredSysnum>)
    requires |items| < |list| && list[..|items|] == items && list[|items|].value == PR_VOID
    requires forall i :: 0 <= i < |items| ==> items[i].value != PR_VOID
    ensures Terminated(list) && Items(list) == items
  {
    assert Terminated(list);
    var r := Items(list);
    assert forall i :: 0 <= i < |items| ==> list[i] == items[i];
    assert forall i :: 0 <= i < |r| ==> list[i] == r[i];
  }

  lemma MergeNothing(base: seq<FilteredSysnum>)
    requires DuplicateFree(base) && forall i :: 0 <= i < |base| ==> base[i].value != PR_VOID
    ensures IsMerge(base, [], base)
  {
    forall s: Sysnum ensures FlagsOf(base, s) == Or(FlagsOf(base, s), FlagsOf([], s)) { OrCommutes(FlagsOf(base, s), 0); }
  }
}
