/**
 * Bindings, and their two lists: sorted so that the first binding found for a path is the
 * one with the longest prefix.
 */
module Bindings {
  import opened Wrappers
  import opened Paths

  datatype Side = Guest | Host

  class Binding {
    const guest: string
    const host: string
    ghost const guestNames: seq<Component>
    ghost const hostNames: seq<Component>
    var needSubstitution: bool

    /** Both paths are canonical. */
    constructor (guest: string, host: string, ghost guestNames: seq<Component>, ghost hostNames: seq<Component>)
      requires guest == Render(guestNames) && host == Render(hostNames)
      ensures this.guest == guest && this.host == host && IsCanonical()
    {
      this.guest, this.host, this.guestNames, this.hostNames := guest, host, guestNames, hostNames;
      needSubstitution := false;
    }

    ghost predicate IsCanonical() {
      guest == Render(guestNames) && host == Render(hostNames)
    }

    function Path(side: Side): string {
      if side == Host then host else guest
    }

    ghost function Names(side: Side): seq<Component> {
      if side == Host then hostNames else guestNames
    }
  }

  // ----- Order -----

  /** Sorted: no path strictly contains a later one. */
  ghost predicate Sorted(list: seq<Binding>, side: Side) {
    forall i, j :: 0 <= i < j < |list| ==> !(list[i].Names(side) < list[j].Names(side))
  }

  predicate Distinct(list: seq<Binding>) {
    forall i, j :: 0 <= i < j < |list| ==> list[i] != list[j]
  }

  ghost predicate UniqueGuests(list: seq<Binding>) {
    forall i, j :: 0 <= i < j < |list| ==> list[i].guestNames != list[j].guestNames
  }

  ghost predicate AllCanonical(list: seq<Binding>) { forall b <- list :: b.IsCanonical() }

  // ----- Insertion -----

  /** After the last path that the new one contains, or equals. */
  ghost function Place(list: seq<Binding>, names: seq<Component>, side: Side): (k: nat)
    ensures k <= |list|
    ensures k > 0 ==> names <= list[k - 1].Names(side)
    ensures forall j :: k <= j < |list| ==> !(names <= list[j].Names(side))
  {
    if list == [] then 0
    else if names <= list[|list| - 1].Names(side) then |list|
    else Place(list[..|list| - 1], names, side)
  }

  /** The first binding with the same path, or the length of the list. */
  ghost function FirstEqual(list: seq<Binding>, names: seq<Component>, side: Side): (i: nat)
    ensures i <= |list| && (i < |list| ==> list[i].Names(side) == names)
    ensures forall j :: 0 <= j < i ==> list[j].Names(side) != names
  {
    if list == [] || list[0].Names(side) == names then 0 else 1 + FirstEqual(list[1..], names, side)
  }

  function Inserted(list: seq<Binding>, k: nat, b: Binding): (r: seq<Binding>)
    requires k <= |list|
    ensures |r| == |list| + 1 && r[k] == b
    ensures forall i :: 0 <= i < k ==> r[i] == list[i]
    ensures forall i :: k < i < |r| ==> r[i] == list[i - 1]
  {
    list[..k] + [b] + list[k..]
  }

  /** remove from a list, if it is there */
  function Without(list: seq<Binding>, b: Binding): (r: seq<Binding>)
    ensures forall x <- r :: x in list && x != b
    ensures forall x <- list :: x == b || x in r
  {
    if list == [] then []
    else if list[0] == b then Without(list[1..], b)
    else [list[0]] + Without(list[1..], b)
  }

  /** The lists of a file-system name-space. */
  datatype Lists = Lists(guest: seq<Binding>, host: seq<Binding>)

  ghost function InsortHost(l: Lists, b: Binding): Lists {
    l.(host := Inserted(l.host, Place(l.host, b.hostNames, Host), b))
  }

  /** A binding with the same guest path is replaced, in the guest list, and forgotten in the other. */
  ghost function InsortGuest(l: Lists, b: Binding): Lists {
    var e := FirstEqual(l.guest, b.guestNames, Guest);
    if e < |l.guest| then Lists(Without(Inserted(l.guest, e + 1, b), l.guest[e]), Without(l.host, l.guest[e]))
    else l.(guest := Inserted(l.guest, Place(l.guest, b.guestNames, Guest), b))
  }

  ghost function Insort(l: Lists, b: Binding): Lists {
    InsortHost(InsortGuest(l, b), b)
  }

  ghost predicate Valid(l: Lists) {
    && Sorted(l.guest, Guest) && Sorted(l.host, Host)
    && Distinct(l.guest) && Distinct(l.host) && UniqueGuests(l.guest)
    && (forall b <- l.guest :: b in l.host && b.IsCanonical()) && (forall b <- l.host :: b in l.guest)
  }

  lemma StrictPrefixes(a: seq<Component>, b: seq<Component>, c: seq<Component>)
    requires a < b <= c
    ensures a < c
  {
    assert a == b[..|a|] == c[..|b|][..|a|] == c[..|a|];
  }

  /** Insertion at that place keeps the order. */
  lemma PlaceKeepsOrder(list: seq<Binding>, b: Binding, side: Side)
    requires Sorted(list, side)
    ensures Sorted(Inserted(list, Place(list, b.Names(side), side), b), side)
  {
    var names := b.Names(side);
    var k := Place(list, names, side);
    var r := Inserted(list, k, b);
    forall i | 0 <= i < k ensures !(list[i].Names(side) < names) {
      if list[i].Names(side) < names { StrictPrefixes(list[i].Names(side), names, list[k - 1].Names(side)); }
    }
    forall i, j | 0 <= i < j < |r| ensures !(r[i].Names(side) < r[j].Names(side)) {
      if j < k { assert r[i] == list[i] && r[j] == list[j]; }
      else if j == k { assert r[i] == list[i]; }
      else if i == k { assert r[j] == list[j - 1]; }
      else if i < k { assert r[i] == list[i] && r[j] == list[j - 1]; }
      else { assert r[i] == list[i - 1] && r[j] == list[j - 1]; }
    }
  }

  lemma InsertedIsDistinct(list: seq<Binding>, k: nat, b: Binding)
    requires Distinct(list) && k <= |list| && b !in list
    ensures Distinct(Inserted(list, k, b))
    ensures b in Inserted(list, k, b) && (forall x <- Inserted(list, k, b) :: x in list || x == b)
    ensures forall x <- list :: x in Inserted(list, k, b)
  {
    var r := Inserted(list, k, b);
    forall i, j | 0 <= i < j < |r| ensures r[i] != r[j] {
      if i != k { assert r[i] in list; }
      if j != k { assert r[j] in list; }
    }
  }

  /** The elements of a filtered list come in the same order: what holds of all pairs still does. */
  lemma {:induction false} WithoutIsSorted(list: seq<Binding>, b: Binding, side: Side)
    requires Sorted(list, side)
    ensures Sorted(Without(list, b), side)
  {
    if list != [] {
      WithoutIsSorted(list[1..], b, side);
      forall x | x in Without(list[1..], b) ensures !(list[0].Names(side) < x.Names(side)) {
        var j :| 0 <= j < |list[1..]| && list[1..][j] == x;
        assert list[j + 1] == x;
      }
    }
  }

  lemma {:induction false} WithoutIsDistinct(list: seq<Binding>, b: Binding)
    requires Distinct(list)
    ensures Distinct(Without(list, b))
  {
    if list != [] {
      WithoutIsDistinct(list[1..], b);
      assert list[0] !in list[1..];
      ConsIsDistinct(list[0], Without(list[1..], b));
    }
  }

  lemma ConsIsDistinct(x: Binding, rest: seq<Binding>)
    requires Distinct(rest) && x !in rest
    ensures Distinct([x] + rest)
  {}

  lemma {:induction false} WithoutConcat(l: seq<Binding>, m: seq<Binding>, b: Binding)
    ensures Without(l + m, b) == Without(l, b) + Without(m, b)
  {
    if l == [] {
      assert l + m == m;
    } else {
      assert (l + m)[1..] == l[1..] + m;
      WithoutConcat(l[1..], m, b);
    }
  }

  lemma {:induction false} WithoutAbsent(l: seq<Binding>, b: Binding)
    requires b !in l
    ensures Without(l, b) == l
  {
    if l != [] { WithoutAbsent(l[1..], b); }
  }

  /** Insertion next to a binding and removal of that one is replacement. */
  lemma ReplacedInPlace(list: seq<Binding>, e: nat, b: Binding)
    requires Distinct(list) && e < |list| && b !in list
    ensures Without(Inserted(list, e + 1, b), list[e]) == list[e := b]
  {
    hide Without;
    var front, old', back := list[..e], list[e], list[e + 1..];
    Pieces(list, e, b);
    WithoutConcat(front, [old'] + ([b] + back), old');
    WithoutConcat([old'], [b] + back, old');
    WithoutAbsent(front, old');
    WithoutAbsent([b] + back, old');
    WithoutOnly(old');
    assert [] + ([b] + back) == [b] + back;
  }

  lemma WithoutOnly(b: Binding)
    ensures Without([b], b) == []
  {}

  lemma Pieces(list: seq<Binding>, e: nat, b: Binding)
    requires Distinct(list) && e < |list| && b !in list
    ensures Inserted(list, e + 1, b) == list[..e] + ([list[e]] + ([b] + list[e + 1..]))
    ensures list[e := b] == list[..e] + ([b] + list[e + 1..])
    ensures list[e] !in list[..e] && list[e] !in [b] + list[e + 1..]
  {}

  lemma ReplacedIsValid(list: seq<Binding>, e: nat, b: Binding)
    requires Sorted(list, Guest) && Distinct(list) && UniqueGuests(list) && e < |list| && b !in list
    requires list[e].guestNames == b.guestNames
    ensures var r := list[e := b];
            && Sorted(r, Guest) && Distinct(r) && UniqueGuests(r)
            && b in r && (forall x <- r :: x == b || (x in list && x != list[e]))
            && (forall x <- list :: x == list[e] || x in r)
  {
    var r := list[e := b];
    assert forall i :: 0 <= i < |r| ==> r[i].Names(Guest) == list[i].Names(Guest);
    assert forall i :: 0 <= i < |r| && i != e ==> r[i] == list[i];
    assert r[e] == b;
    forall x | x in list && x != list[e] ensures x in r {
      var j :| 0 <= j < |list| && list[j] == x;
      assert r[j] == x;
    }
  }

  /** The bindings with another guest path are still there, the others are gone; b is there or not. */
  ghost predicate Replaces(before: seq<Binding>, after: seq<Binding>, b: Binding, there: bool) {
    && (forall x <- after :: (x == b && there) || (x in before && x.guestNames != b.guestNames))
    && (forall x <- before :: x.guestNames == b.guestNames || x in after)
    && (there ==> b in after)
  }

  /** What insort_binding2() keeps: the order of both lists, one binding per guest path, the same bindings in both. */
  lemma InsortKeeps(l: Lists, b: Binding)
    requires Valid(l) && b.IsCanonical() && b !in l.guest
    ensures Valid(Insort(l, b))
    ensures Replaces(l.guest, Insort(l, b).guest, b, true)
  {
    hide Sorted, Distinct, UniqueGuests, InsortGuest, Inserted, Place;
    var l1 := InsortGuest(l, b);
    InsortGuestKeeps(l, b);
    PlaceKeepsOrder(l1.host, b, Host);
    InsertedIsDistinct(l1.host, Place(l1.host, b.hostNames, Host), b);
    var l2 := Insort(l, b);
    assert l2.guest == l1.guest;
    forall x | x in l2.guest ensures x in l2.host && x.IsCanonical() {
      if x != b { assert x in l.host; }
    }
  }

  lemma InsortGuestKeeps(l: Lists, b: Binding)
    requires Valid(l) && b.IsCanonical() && b !in l.guest
    ensures var l1 := InsortGuest(l, b);
            && Sorted(l1.guest, Guest) && Sorted(l1.host, Host)
            && Distinct(l1.guest) && Distinct(l1.host) && UniqueGuests(l1.guest) && b !in l1.host
            && Replaces(l.guest, l1.guest, b, true) && Replaces(l.host, l1.host, b, false)
  {
    hide Sorted, Distinct;
    var e := FirstEqual(l.guest, b.guestNames, Guest);
    if e < |l.guest| {
      var old' := l.guest[e];
      ReplacedInPlace(l.guest, e, b);
      ReplacedIsValid(l.guest, e, b);
      WithoutIsSorted(l.host, old', Host);
      WithoutIsDistinct(l.host, old');
      OnlyOneEqual(l.guest, e, b.guestNames);
    } else {
      var k := Place(l.guest, b.guestNames, Guest);
      PlaceKeepsOrder(l.guest, b, Guest);
      InsertedIsDistinct(l.guest, k, b);
      InsertedIsUnique(l.guest, k, b);
    }
  }

  lemma OnlyOneEqual(list: seq<Binding>, e: nat, names: seq<Component>)
    requires UniqueGuests(list) && e < |list| && list[e].guestNames == names
    ensures forall x <- list :: x == list[e] <==> x.guestNames == names
  {
    forall x | x in list && x.guestNames == names ensures x == list[e] {
      var j :| 0 <= j < |list| && list[j] == x;
    }
  }

  lemma InsertedIsUnique(list: seq<Binding>, k: nat, b: Binding)
    requires UniqueGuests(list) && k <= |list| && forall x <- list :: x.guestNames != b.guestNames
    ensures UniqueGuests(Inserted(list, k, b))
  {
    var r := Inserted(list, k, b);
    forall i, j | 0 <= i < j < |r| ensures r[i].guestNames != r[j].guestNames {
      if i != k { assert r[i] in list; }
      if j != k { assert r[j] in list; }
    }
  }

  /** Any sequence of insertions of new bindings. */
  ghost function InsortAll(l: Lists, bs: seq<Binding>): Lists {
    if bs == [] then l else Insort(InsortAll(l, bs[..|bs| - 1]), bs[|bs| - 1])
  }

  lemma {:induction false} InsortAllKeeps(bs: seq<Binding>)
    requires AllCanonical(bs) && Distinct(bs)
    ensures Valid(InsortAll(Lists([], []), bs))
    ensures forall b <- InsortAll(Lists([], []), bs).guest :: b in bs
  {
    if bs != [] {
      var n := |bs| - 1;
      InsortAllKeeps(bs[..n]);
      assert bs[n] !in bs[..n];
      InsortKeeps(InsortAll(Lists([], []), bs[..n]), bs[n]);
    }
  }

  // ----- Lookup -----

  /** "/", once bound, is the last guest path: the assertion of get_root() holds. */
  lemma RootIsLast(l: Lists)
    requires Valid(l) && exists b <- l.guest :: b.guestNames == []
    ensures l.guest != [] && l.guest[|l.guest| - 1].guest == "/" && IsRoot(l, l.guest[|l.guest| - 1])
    ensures forall b <- l.guest :: b.guestNames == [] ==> b == l.guest[|l.guest| - 1]
  {
    var b :| b in l.guest && b.guestNames == [];
    var i :| 0 <= i < |l.guest| && l.guest[i] == b;
    var last := l.guest[|l.guest| - 1];
    assert last in l.guest;
    if last.guestNames != [] {
      assert false;
    }
  }

  ghost predicate Contains(b: Binding, side: Side, names: seq<Component>) { b.Names(side) <= names }

  /** The first binding that contains a path has the longest prefix of all that do. */
  lemma FirstIsLongest(list: seq<Binding>, side: Side, names: seq<Component>, i: nat)
    requires Sorted(list, side) && i < |list| && Contains(list[i], side, names)
    requires forall j :: 0 <= j < i ==> !Contains(list[j], side, names)
    ensures forall b <- list :: Contains(b, side, names) ==> b.Names(side) <= list[i].Names(side)
  {
    forall b | b in list && Contains(b, side, names) ensures b.Names(side) <= list[i].Names(side) {
      var j :| 0 <= j < |list| && list[j] == b;
      PrefixesAreComparable(b.Names(side), list[i].Names(side), names);
    }
  }

  lemma PrefixesAreComparable(a: seq<Component>, b: seq<Component>, c: seq<Component>)
    requires a <= c && b <= c
    ensures a <= b || b < a
  {
    if |a| <= |b| { assert a == c[..|a|] == c[..|b|][..|a|] == b[..|a|]; }
    else { assert b == c[..|b|] == c[..|a|][..|b|] == a[..|b|]; }
  }

  // ----- The lists as they are changed -----

  lemma CompareBindings(a: Binding, b: Binding, side: Side)
    requires a.IsCanonical() && b.IsCanonical()
    ensures a.Path(side) != "" && b.Path(side) != ""
    ensures Compared(a.Path(side), b.Path(side))
         == if a.Names(side) == b.Names(side) then PathsAreEqual
            else if a.Names(side) <= b.Names(side) then Path1IsPrefix
            else if b.Names(side) <= a.Names(side) then Path2IsPrefix
            else PathsAreNotComparable
  {
    ComparesComponents(a.Path(side), a.Names(side), b.Path(side), b.Names(side));
  }

  lemma NoPlace(list: seq<Binding>, names: seq<Component>, side: Side)
    ensures Place(list[..0], names, side) == 0
  {}

  lemma PlaceOneMore(list: seq<Binding>, i: nat, names: seq<Component>, side: Side)
    requires i < |list|
    ensures Place(list[..i + 1], names, side)
         == if names <= list[i].Names(side) then i + 1 else Place(list[..i], names, side)
  {
    assert list[..i + 1][..i] == list[..i];
  }

  lemma FirstEqualIs(list: seq<Binding>, i: nat, names: seq<Component>, side: Side)
    requires i <= |list| && (forall j :: 0 <= j < i ==> list[j].Names(side) != names)
    requires i < |list| ==> list[i].Names(side) == names
    ensures FirstEqual(list, names, side) == i
  {}

  class FileSystem {
    var guest: seq<Binding>
    var host: seq<Binding>

    constructor ()
      ensures View() == Lists([], [])
    {
      guest, host := [], [];
    }

    ghost function View(): Lists
      reads this
    {
      Lists(guest, host)
    }

    /** remove_binding_from_all_lists() */
    method RemoveFromAllLists(b: Binding)
      modifies this
      ensures View() == Lists(Without(old(guest), b), Without(old(host), b))
    {
      guest := Without(guest, b);
      host := Without(host, b);
    }

    /**
     * Find where a binding should be added: after the last one it contains, before all of
     * them otherwise. The search for the deepest container never gets further than the first
     * of the list. In the guest list the search stops at an equal path.
     */
    method FindPlace(list: seq<Binding>, side: Side, b: Binding) returns (equal: Option<nat>, place: nat)
      requires AllCanonical(list) && b.IsCanonical()
      ensures side == Host ==> equal == None
      ensures side == Guest ==>
                var e := FirstEqual(list, b.guestNames, Guest); equal == if e < |list| then Some(e) else None
      ensures equal == None ==> place == Place(list, b.Names(side), side)
    {
      hide Place, FirstEqual, Compared, Binding.IsCanonical;
      var i := 0;
      equal, place := None, 0;
      NoPlace(list, b.Names(side), side);
      while i < |list|
        invariant i <= |list| && place == Place(list[..i], b.Names(side), side)
        invariant side == Guest ==> forall j :: 0 <= j < i ==> list[j].guestNames != b.guestNames
      {
        CompareBindings(b, list[i], side);
        PlaceOneMore(list, i, b.Names(side), side);
        var comparison := ComparePaths(b.Path(side), list[i].Path(side));
        match comparison {
          case PathsAreEqual =>
            if side == Host {
              place := i + 1;
            } else {
              FirstEqualIs(list, i, b.guestNames, Guest);
              return Some(i), place;
            }
          case Path1IsPrefix => place := i + 1;
          case Path2IsPrefix =>
          case PathsAreNotComparable =>
        }
        i := i + 1;
      }
      assert list[..i] == list;
      if side == Guest { FirstEqualIs(list, i, b.guestNames, Guest); }
    }

    method InsortGuestBinding(b: Binding)
      requires AllCanonical(guest) && b.IsCanonical()
      modifies this
      ensures View() == InsortGuest(old(View()), b)
    {
      var equal, place := FindPlace(guest, Guest, b);
      if equal.Some? {
        var replaced := guest[equal.value];
        guest := Inserted(guest, equal.value + 1, b);
        RemoveFromAllLists(replaced);
      } else {
        guest := Inserted(guest, place, b);
      }
    }

    method InsortHostBinding(b: Binding)
      requires AllCanonical(host) && b.IsCanonical()
      modifies this
      ensures View() == InsortHost(old(View()), b)
    {
      var _, place := FindPlace(host, Host, b);
      host := Inserted(host, place, b);
    }

    /** insort_binding2() */
    method InsortBinding(b: Binding)
      requires Valid(View()) && b.IsCanonical() && b !in guest
      modifies this, b`needSubstitution
      ensures View() == Insort(old(View()), b) && Valid(View())
      ensures b.needSubstitution <==> b.hostNames != b.guestNames
    {
      hide Valid, InsortGuest, InsortHost;
      ghost var before := View();
      InsortKeeps(before, b);
      ComparesComponents(b.host, b.hostNames, b.guest, b.guestNames);
      var comparison := ComparePaths(b.host, b.guest);
      b.needSubstitution := comparison != PathsAreEqual;
      CanonicalLists(before, b);
      InsortGuestBinding(b);
      InsortHostBinding(b);
    }

    /** get_root(): the host path of the last guest binding. */
    method GetRoot() returns (root: Binding)
      requires Valid(View()) && exists b <- guest :: b.guestNames == []
      ensures IsRoot(View(), root) && root.IsCanonical() && forall b <- guest :: b.guestNames == [] ==> b == root
    {
      RootIsLast(View());
      root := guest[|guest| - 1];
      assert root in guest;
    }

    /** The loop of get_binding(). */
    method FindBinding(list: seq<Binding>, side: Side, path: string, ghost names: seq<Component>, skip: bool)
        returns (found: Option<Binding>)
      requires Sorted(list, side) && AllCanonical(list) && IsPathOf(path, names)
      ensures if skip then found == None else IsBest(list, side, names, found)
    {
      hide Sorted, IsPathOf;
      var i := 0;
      while i < |list|
        invariant i <= |list|
        invariant !skip ==> forall j :: 0 <= j < i ==> !Contains(list[j], side, names)
      {
        CompareWithPath(list[i], side, path, names);
        var comparison := ComparePaths(list[i].Path(side), path);
        if (comparison == PathsAreEqual || comparison == Path1IsPrefix) && !skip {
          FirstIsLongest(list, side, names, i);
          return Some(list[i]);
        }
        i := i + 1;
      }
      found := None;
    }

    /** get_binding(): on the host side nothing is found unless the root is "/" there. */
    method GetBinding(side: Side, path: string, ghost names: seq<Component>) returns (found: Option<Binding>)
      requires Valid(View()) && IsPathOf(path, names)
      requires side == Host ==> exists b <- guest :: b.guestNames == []
      ensures side == Guest ==> IsBest(guest, Guest, names, found)
      ensures side == Host ==> IsHostAnswer(View(), names, found)
    {
      ValidParts(View());
      hide Valid, IsBest, Sorted, AllCanonical;
      if side == Guest {
        found := FindBinding(guest, Guest, path, names, false);
      } else {
        var root := GetRoot();
        CompareWithPath(root, Host, "/", []);
        var comparison := ComparePaths(root.host, "/");
        // belongs_to_guestfs() always says yes.
        found := FindBinding(host, Host, path, names, comparison != PathsAreEqual);
      }
    }
  }

  ghost predicate IsRoot(l: Lists, b: Binding) { b in l.guest && b.guestNames == [] }

  lemma ValidParts(l: Lists)
    requires Valid(l)
    ensures Sorted(l.guest, Guest) && Sorted(l.host, Host) && AllCanonical(l.guest) && AllCanonical(l.host)
  {}

  lemma CompareWithPath(b: Binding, side: Side, path: string, names: seq<Component>)
    requires b.IsCanonical() && IsPathOf(path, names)
    ensures b.Path(side) != "" && path != ""
    ensures Compared(b.Path(side), path) == PathsAreEqual <==> b.Names(side) == names
    ensures (Compared(b.Path(side), path) == PathsAreEqual || Compared(b.Path(side), path) == Path1IsPrefix)
       <==> Contains(b, side, names)
  {
    ComparesComponents(b.Path(side), b.Names(side), path, names);
  }

  /** With the root bound to itself, the longest prefix; with another root, nothing. */
  ghost predicate IsHostAnswer(l: Lists, names: seq<Component>, found: Option<Binding>) {
    forall root <- l.guest :: root.guestNames == [] ==>
      if root.hostNames == [] then IsBest(l.host, Host, names, found) else found == None
  }

  lemma CanonicalLists(l: Lists, b: Binding)
    requires Valid(l) && b.IsCanonical() && b !in l.guest
    ensures AllCanonical(l.guest) && AllCanonical(InsortGuest(l, b).host)
  {
    InsortGuestKeeps(l, b);
  }

  /** The binding whose path is the longest prefix of a path, or none when there is no prefix. */
  ghost predicate IsBest(list: seq<Binding>, side: Side, names: seq<Component>, found: Option<Binding>) {
    match found
    case None => forall b <- list :: !Contains(b, side, names)
    case Some(b) =>
      && b in list && Contains(b, side, names)
      && forall x <- list :: Contains(x, side, names) ==> x.Names(side) <= b.Names(side)
  }

  /**
   * A path under a binding that needs substitution goes to the same place under its other
   * path, and comes back: such a binding never replaces "/" by "/".
   */
  lemma SubstitutionIsFaithful(b: Binding, side: Side, tail: string)
    requires b.IsCanonical() && b.hostNames != b.guestNames
    requires IsTail(b.guestNames, b.hostNames, tail) && IsTail(b.hostNames, b.guestNames, tail)
    requires Fits(b.guestNames, b.hostNames, tail) && Fits(b.hostNames, b.guestNames, tail)
    ensures var other := if side == Guest then Host else Guest;
            var here, there := WithPrefix(b.Names(side), tail), WithPrefix(b.Names(other), tail);
            && |b.Path(side)| <= |here| && Substituted(here, |b.Path(side)|, b.Path(other)) == Some(there)
            && |b.Path(other)| <= |there| && Substituted(there, |b.Path(other)|, b.Path(side)) == Some(here)
  {
    var other := if side == Guest then Host else Guest;
    SubstitutesPrefix(b.Names(side), b.Names(other), tail);
    SubstitutesPrefix(b.Names(other), b.Names(side), tail);
  }
}
