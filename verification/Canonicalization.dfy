/**
 * The canonicalizer as it is in this fork: links are never followed, so that it is a purely
 * lexical fold over the components of a path.
 */
module Canonicalization {
  import opened Wrappers
  import opened Paths

  // ----- What a path says -----

  /** The first character that is not a slash, from i on. */
  function SkipSlashes(path: string, i: nat): (j: nat)
    requires i <= |path|
    ensures i <= j <= |path| && (forall k :: i <= k < j ==> path[k] == '/') && (j < |path| ==> path[j] != '/')
    decreases |path| - i
  {
    if i < |path| && path[i] == '/' then SkipSlashes(path, i + 1) else i
  }

  /** The next slash, from i on. */
  function NextSlash(path: string, i: nat): (j: nat)
    requires i <= |path|
    ensures i <= j <= |path| && (forall k :: i <= k < j ==> path[k] != '/') && (j < |path| ==> path[j] == '/')
    decreases |path| - i
  {
    if i < |path| && path[i] != '/' then NextSlash(path, i + 1) else i
  }

  function NameAt(path: string, i: nat): Component
    requires i < |path| && path[i] != '/' && '\0' !in path
  {
    path[i..NextSlash(path, i)]
  }

  /** The names in a path, "." and ".." included. */
  function Names(path: string, i: nat): seq<Component>
    requires i <= |path| && '\0' !in path
    decreases |path| - i
  {
    var b := SkipSlashes(path, i);
    if b == |path| then [] else [NameAt(path, b)] + Names(path, NextSlash(path, b))
  }

  /** What the end of a path asks for: anything, a directory, or a directory named ".". */
  datatype Ending = Normal | Slash | Dot

  function LastEnding(component: string, wantDir: bool): Ending {
    if component == "." then Dot else if component == ".." || wantDir then Slash else Normal
  }

  function EndingOf(path: string): Ending
    requires '\0' !in path
  {
    var names := Names(path, 0);
    if names == [] then Slash else LastEnding(names[|names| - 1], path != "" && path[|path| - 1] == '/')
  }

  // ----- What it means -----

  function Pop(cs: seq<Component>): seq<Component> {
    if cs == [] then [] else cs[..|cs| - 1]
  }

  /** "." is skipped, ".." pops but never above the root, the others are pushed, as long as there is room. */
  function Stepped(cs: seq<Component>, n: Component): Result<seq<Component>> {
    if |n| >= NAME_MAX then NameTooLong
    else if n == "." then Ok(cs)
    else if n == ".." then Ok(Pop(cs))
    else if |Render(cs + [n])| + 1 >= PATH_MAX then NameTooLong
    else Ok(cs + [n])
  }

  function Walk(cs: seq<Component>, names: seq<Component>): Result<seq<Component>>
    decreases |names|
  {
    if names == [] then Ok(cs)
    else match Stepped(cs, names[0])
      case Ok(cs1) => Walk(cs1, names[1..])
      case _ => NameTooLong
  }

  /** The canonical path, with the ending the path asked for. */
  function Ended(cs: seq<Component>, ending: Ending): string {
    match ending
    case Normal => Render(cs)
    case Slash => if cs == [] then "/" else Flat(cs) + "/"
    case Dot => Flat(cs) + "/."
  }

  function Finished(cs: seq<Component>, ending: Ending): Result<string> {
    if |Ended(cs, ending)| + 1 >= PATH_MAX then NameTooLong else Ok(Ended(cs, ending))
  }

  /** The canonicalization of a path, relative to the root or to a canonical base. */
  function Canonicalized(path: string, base: seq<Component>): Result<string>
    requires '\0' !in path
  {
    match Walk(if path != "" && path[0] == '/' then [] else base, Names(path, 0))
    case Ok(cs) => Finished(cs, EndingOf(path))
    case _ => NameTooLong
  }

  // ----- The cursor -----

  datatype Finality = NotFinal | FinalNormal | FinalSlash | FinalDot

  /** next_component() */
  method NextComponent(path: string, cursor: nat) returns (component: string, next: nat, r: Result<Finality>)
    requires cursor <= |path|
    ensures var b := SkipSlashes(path, cursor);
            var e := NextSlash(path, b);
            && component == path[b..e] && next == SkipSlashes(path, e)
            && r == if e - b >= NAME_MAX then NameTooLong
                    else if next < |path| then Ok(NotFinal)
                    else if e < |path| then Ok(FinalSlash)
                    else Ok(FinalNormal)
  {
    var begin := SkipFrom(path, cursor);
    var end := begin;
    while end < |path| && path[end] != '/'
      invariant begin <= end <= |path| && NextSlash(path, end) == NextSlash(path, begin)
    {
      end := end + 1;
    }
    component := path[begin..end];
    var wantDir := end < |path| && path[end] == '/';
    next := SkipFrom(path, end);
    if |component| >= NAME_MAX { return component, next, NameTooLong; }
    r := Ok(if next < |path| then NotFinal else if wantDir then FinalSlash else FinalNormal);
  }

  method SkipFrom(path: string, cursor: nat) returns (next: nat)
    requires cursor <= |path|
    ensures next == SkipSlashes(path, cursor)
  {
    next := cursor;
    while next < |path| && path[next] == '/'
      invariant cursor <= next <= |path| && SkipSlashes(path, next) == SkipSlashes(path, cursor)
    {
      next := next + 1;
    }
  }

  // ----- Popping -----

  /** pop_component(): the string cut before its last component. */
  method PopComponent(path: string, ghost cs: seq<Component>) returns (r: string)
    requires IsPathOf(path, cs)
    ensures r == Render(Pop(cs))
  {
    var offset := |path| - 1;
    // The root stays.
    if offset == 0 { return path; }
    PathEnds(path, cs);
    hide Flat, IsPathOf, Render;
    ghost var front, last := cs[..|cs| - 1], cs[|cs| - 1];
    // Back to the end of the last component.
    while offset > 1 && path[offset] == '/'
      invariant |Flat(cs)| - 1 <= offset < |path|
    {
      offset := offset - 1;
    }
    // Back to the slash before it.
    while offset > 1 && path[offset] != '/'
      invariant |Flat(front)| <= offset < |Flat(cs)| && offset >= 1
    {
      offset := offset - 1;
    }
    LastSlash(front, last, offset);
    r := path[..offset];
    assert r == Flat(cs)[..offset];
  }

  /** A path that is not the root: its components but the last, a slash, the last one, and maybe a slash. */
  lemma PathEnds(path: string, cs: seq<Component>)
    requires IsPathOf(path, cs) && |path| > 1
    ensures cs != []
    ensures var front, last := cs[..|cs| - 1], cs[|cs| - 1];
            && Flat(cs) == Flat(front) + "/" + last && |Flat(cs)| > 1 && Flat(cs) <= path
            && (forall i :: |Flat(cs)| <= i < |path| ==> path[i] == '/')
            && Flat(cs)[|Flat(cs)| - 1] != '/'
  {
    var front, last := cs[..|cs| - 1], cs[|cs| - 1];
    assert cs == front + [last];
    FlatEnds(cs);
    FlatPush(front, last);
  }

  lemma LastSlash(front: seq<Component>, last: Component, offset: nat)
    requires |Flat(front)| <= offset < |Flat(front) + "/" + last| && offset >= 1
    requires offset == 1 || (Flat(front) + "/" + last)[offset] == '/'
    ensures (Flat(front) + "/" + last)[..offset] == Render(front)
  {
    var path := Flat(front) + "/" + last;
    assert forall i :: |Flat(front)| < i < |path| ==> path[i] == last[i - |Flat(front)| - 1] && path[i] in last;
  }

  // ----- The loop -----

  /** Where the loop stands, short of the end: what is left of the walk. */
  ghost predicate Walking(path: string, base: seq<Component>, cursor: nat, cs: seq<Component>)
    requires cursor <= |path| && '\0' !in path
  {
    && Walk(base, Names(path, 0)) == Walk(cs, Names(path, cursor))
    && (Names(path, cursor) == [] ==> EndingOf(path) == Slash && Names(path, 0) == [])
    && (Names(path, cursor) != [] ==> Names(path, 0) != [] && Last(Names(path, 0)) == Last(Names(path, cursor)))
  }

  function Last<T>(s: seq<T>): T
    requires s != []
  {
    s[|s| - 1]
  }

  /** Where the loop ends. */
  ghost predicate Walked(path: string, base: seq<Component>, guest: string, cs: seq<Component>, finality: Finality)
    requires '\0' !in path
  {
    && Walk(base, Names(path, 0)) == Ok(cs)
    && match finality
       case NotFinal => false
       case FinalNormal => guest == Ended(cs, EndingOf(path)) && |guest| + 1 < PATH_MAX
       case FinalSlash => guest == Render(cs) && EndingOf(path) == Slash
       case FinalDot => guest == Render(cs) && EndingOf(path) == Dot
  }

  ghost predicate Fails(path: string, base: seq<Component>)
    requires '\0' !in path
  {
    match Walk(base, Names(path, 0))
    case Ok(cs) => Finished(cs, EndingOf(path)) == NameTooLong
    case _ => true
  }

  /** One name further. */
  lemma WalkingStep(path: string, base: seq<Component>, cursor: nat, cs: seq<Component>)
    requires cursor <= |path| && '\0' !in path && Walking(path, base, cursor, cs)
    requires SkipSlashes(path, cursor) < |path|
    ensures var b := SkipSlashes(path, cursor);
            var e := NextSlash(path, b);
            var next := SkipSlashes(path, e);
            var n := NameAt(path, b);
            var r := Stepped(cs, n);
            && (r.Ok? && next < |path| ==> Walking(path, base, next, r.value))
            && (r.Ok? && next == |path| ==>
                  Walk(base, Names(path, 0)) == Ok(r.value) && EndingOf(path) == LastEnding(n, e < |path|))
            && (!r.Ok? ==> Fails(path, base))
  {
    hide Stepped, LastEnding;
    var b := SkipSlashes(path, cursor);
    var e := NextSlash(path, b);
    var next := SkipSlashes(path, e);
    var names := Names(path, cursor);
    assert names[0] == NameAt(path, b) && names[1..] == Names(path, e);
    SkippedNames(path, e);
    if next < |path| {
      assert Last(names) == Last(Names(path, next));
    } else {
      assert Names(path, e) == [] && Last(names) == NameAt(path, b);
      assert forall r: seq<Component> :: Walk(r, names[1..]) == Ok(r);
      assert path[|path| - 1] == '/' <==> e < |path|;
    }
  }

  lemma SkippedNames(path: string, i: nat)
    requires i <= |path| && '\0' !in path
    ensures Names(path, SkipSlashes(path, i)) == Names(path, i)
    ensures SkipSlashes(path, i) < |path| ==> Names(path, i) != []
    ensures SkipSlashes(path, i) == |path| ==> Names(path, i) == []
  {
    var j := SkipSlashes(path, i);
    assert SkipSlashes(path, j) == j;
  }

  lemma EmptyName(cs: seq<Component>)
    ensures Joined(Render(cs), "") == Finished(cs, Slash)
  {
    if cs != [] { FlatEnds(cs); }
    assert Render(cs) + "/" + "" == Render(cs) + "/" && Render(cs) + "" == Render(cs);
  }

  lemma DotName(cs: seq<Component>)
    ensures Joined(Render(cs), ".") == Finished(cs, Dot)
  {
    if cs != [] { FlatEnds(cs); }
    assert Render(cs) + "/" + "." == Render(cs) + "/." && "/" + "." == "" + "/.";
  }

  /** One turn of the loop: a component skipped, popped over, or joined. */
  method CanonicalizeStep(path: string, ghost base: seq<Component>, cursor: nat, guest: string, ghost cs: seq<Component>)
      returns (next: nat, r: Result<(string, Finality)>, ghost cs': seq<Component>)
    requires cursor <= |path| && '\0' !in path && Walking(path, base, cursor, cs) && guest == Render(cs)
    ensures cursor <= next <= |path|
    ensures r.Ok? && r.value.1.NotFinal? ==> next > cursor && Walking(path, base, next, cs') && r.value.0 == Render(cs')
    ensures r.Ok? && !r.value.1.NotFinal? ==> Walked(path, base, r.value.0, cs', r.value.1)
    ensures !r.Ok? ==> r.NameTooLong? && Fails(path, base)
  {
    hide Joined, Flat, Walk, Names, IsPathOf, Walking, EndingOf;
    var component, finality;
    component, next, finality := NextComponent(path, cursor);
    ghost var b := SkipSlashes(path, cursor);
    cs' := cs;
    if component != "" {
      WalkingStep(path, base, cursor, cs);
      if Stepped(cs, component).Ok? { cs' := Stepped(cs, component).value; }
      JoinComponent(cs, component);
      RenderIsPath(cs);
    } else {
      NothingLeft(path, base, cursor, cs);
    }
    if !finality.Ok? { return next, NameTooLong, cs'; }
    if component == "." {
      return next, Ok((guest, if finality.value.NotFinal? then NotFinal else FinalDot)), cs';
    }
    if component == ".." {
      var popped := PopComponent(guest, cs);
      return next, Ok((popped, if finality.value.NotFinal? then NotFinal else FinalSlash)), cs';
    }
    JoinedTwo(guest, component);
    var joined := JoinPaths([Some(guest), Some(component)]);
    if !joined.Ok? { return next, NameTooLong, cs'; }
    r := Ok((joined.value, finality.value));
  }

  lemma RenderIsPath(cs: seq<Component>)
    ensures IsPathOf(Render(cs), cs)
  {}

  /** An empty path, or nothing but slashes: what is asked for is a directory. */
  lemma NothingLeft(path: string, base: seq<Component>, cursor: nat, cs: seq<Component>)
    requires cursor <= |path| && '\0' !in path && Walking(path, base, cursor, cs)
    requires SkipSlashes(path, cursor) == |path|
    ensures var joined := Joined(Render(cs), "");
            && (joined.Ok? ==> Walked(path, base, joined.value, cs, FinalNormal))
            && (!joined.Ok? ==> Fails(path, base))
  {
    EmptyName(cs);
    SkippedNames(path, cursor);
  }

  /** The terminating slash or dot that was asked for. */
  method Finish(path: string, ghost base: seq<Component>, guest: string, ghost cs: seq<Component>, finality: Finality)
      returns (r: Result<string>)
    requires '\0' !in path && Walked(path, base, guest, cs, finality)
    ensures r == Finished(cs, EndingOf(path))
  {
    hide EndingOf, Names, Joined, Flat;
    EmptyName(cs);
    DotName(cs);
    match finality {
      case FinalSlash =>
        JoinedTwo(guest, "");
        r := JoinPaths([Some(guest), Some("")]);
      case FinalDot =>
        JoinedTwo(guest, ".");
        r := JoinPaths([Some(guest), Some(".")]);
      case FinalNormal => r := Ok(guest);
    }
  }

  /** canonicalize(), its path relative to a canonical one. */
  method Canonicalize(path: string, guestPath: string, ghost base: seq<Component>) returns (r: Result<string>)
    requires '\0' !in path
    requires (path == "" || path[0] != '/') && guestPath != "" && guestPath[0] == '/' ==> guestPath == Render(base)
    ensures r == if |guestPath| >= PATH_MAX then NameTooLong
                 else if (path == "" || path[0] != '/') && (guestPath == "" || guestPath[0] != '/') then Invalid
                 else Canonicalized(path, base)
  {
    hide Names, EndingOf, Walk, Finished;
    if |guestPath| >= PATH_MAX { return NameTooLong; }
    var guest := guestPath;
    ghost var start := base;
    if path == "" || path[0] != '/' {
      if guest == "" || guest[0] != '/' { return Invalid; }
    } else {
      guest, start := "/", [];
    }
    var cursor, finality := 0, NotFinal;
    ghost var cs := start;
    StartsWalking(path, start);
    while finality.NotFinal?
      invariant cursor <= |path|
      invariant finality.NotFinal? ==> Walking(path, start, cursor, cs) && guest == Render(cs)
      invariant !finality.NotFinal? ==> Walked(path, start, guest, cs, finality)
      decreases finality.NotFinal?, |path| - cursor
    {
      hide Walking;
      var step;
      cursor, step, cs := CanonicalizeStep(path, start, cursor, guest, cs);
      if !step.Ok? {
        FailsEither(path, start);
        return NameTooLong;
      }
      guest, finality := step.value.0, step.value.1;
    }
    r := Finish(path, start, guest, cs, finality);
    FinishedKinds(cs, EndingOf(path));
  }

  lemma StartsWalking(path: string, base: seq<Component>)
    requires '\0' !in path
    ensures Walking(path, base, 0, base)
  {}

  lemma FailsEither(path: string, start: seq<Component>)
    requires '\0' !in path && Fails(path, start)
    ensures var w := Walk(start, Names(path, 0)); w.Ok? ==> Finished(w.value, EndingOf(path)) == NameTooLong
  {}

  lemma FinishedKinds(cs: seq<Component>, ending: Ending)
    ensures !Finished(cs, ending).Invalid?
  {}

  // ----- Laws -----

  /** A component that can be in a canonical path. */
  predicate IsName(c: Component) { c != "." && c != ".." && |c| < NAME_MAX }

  predicate IsCanonical(cs: seq<Component>) { forall c <- cs :: IsName(c) }

  /** The result has no "." and no "..", whatever the path. */
  lemma {:induction false} WalkIsCanonical(cs: seq<Component>, names: seq<Component>)
    requires IsCanonical(cs)
    ensures Walk(cs, names).Ok? ==> IsCanonical(Walk(cs, names).value)
    decreases |names|
  {
    if names != [] && Stepped(cs, names[0]).Ok? {
      WalkIsCanonical(Stepped(cs, names[0]).value, names[1..]);
    }
  }

  lemma {:induction false} WalkConcat(cs: seq<Component>, a: seq<Component>, b: seq<Component>)
    ensures Walk(cs, a + b) == (if Walk(cs, a).Ok? then Walk(Walk(cs, a).value, b) else NameTooLong)
    decreases |a|
  {
    if a == [] {
      assert a + b == b;
    } else {
      assert (a + b)[0] == a[0] && (a + b)[1..] == a[1..] + b;
      if Stepped(cs, a[0]).Ok? { WalkConcat(Stepped(cs, a[0]).value, a[1..], b); }
    }
  }

  /** Canonical components are pushed one by one. */
  lemma {:induction false} WalkPushes(cs: seq<Component>, names: seq<Component>)
    requires IsCanonical(names) && |Render(cs + names)| + 1 < PATH_MAX
    ensures Walk(cs, names) == Ok(cs + names)
    decreases |names|
  {
    if names == [] {
      assert cs + names == cs;
    } else {
      var n, rest := names[0], names[1..];
      assert cs + names == (cs + [n]) + rest;
      assert IsName(n);
      FlatConcat(cs + [n], rest);
      WalkPushes(cs + [n], rest);
    }
  }

  /** Going down and up again goes nowhere. */
  lemma UpUndoesDown(cs: seq<Component>, n: Component, rest: seq<Component>)
    requires IsName(n) && |Render(cs + [n])| + 1 < PATH_MAX
    ensures Walk(cs, [n, ".."] + rest) == Walk(cs, rest)
  {
    var up: Component := "..";
    var names := [n, up] + rest;
    assert names[1..] == [up] + rest && ([up] + rest)[1..] == rest;
    assert Pop(cs + [n]) == cs;
  }

  /** A walk from a base is a walk over the base first. */
  lemma WalksOverBase(base: seq<Component>, names: seq<Component>)
    requires IsCanonical(base) && |Render(base)| + 1 < PATH_MAX
    ensures Walk(base, names) == Walk([], base + names)
  {
    assert [] + base == base;
    WalkPushes([], base);
    WalkConcat([], base, names);
  }

  lemma NextSlashIs(path: string, i: nat, j: nat)
    requires i <= j <= |path| && (forall k :: i <= k < j ==> path[k] != '/') && (j < |path| ==> path[j] == '/')
    ensures NextSlash(path, i) == j
  {}

  predicate At(path: string, i: nat, s: string) {
    i + |s| <= |path| && path[i..i + |s|] == s
  }

  lemma Slices(path: string, i: nat, c: string, rest: string)
    requires At(path, i, "/" + c + rest)
    ensures i < |path| && path[i] == '/' && At(path, i + 1, c) && At(path, i + 1 + |c|, rest)
  {
    var s := "/" + c + rest;
    assert forall k :: i <= k < i + |s| ==> path[k] == s[k - i];
  }

  lemma FlatCons(cs: seq<Component>)
    requires cs != []
    ensures Flat(cs) == "/" + cs[0] + Flat(cs[1..]) && |Flat(cs)| == 1 + |cs[0]| + |Flat(cs[1..])|
  {}

  /** The names in a rendered path are its components. */
  lemma {:induction false} NamesOfFlat(path: string, i: nat, cs: seq<Component>)
    requires '\0' !in path && At(path, i, Flat(cs)) && i + |Flat(cs)| <= |path|
    requires i + |Flat(cs)| < |path| ==> path[i + |Flat(cs)|] == '/'
    ensures Names(path, i) == cs + Names(path, i + |Flat(cs)|)
    decreases |cs|
  {
    hide Names, At, Flat;
    if cs == [] {
      NoComponent(cs);
      NothingBefore(Names(path, i));
    } else {
      FirstOfFlat(path, i, cs);
      var j := i + 1 + |cs[0]|;
      FirstName(path, i, cs[0]);
      NamesOfFlat(path, j, cs[1..]);
      ConsConcat(cs, Names(path, i + |Flat(cs)|));
    }
  }

  lemma NoComponent(cs: seq<Component>)
    requires cs == []
    ensures Flat(cs) == ""
  {}

  lemma NothingBefore(names: seq<Component>)
    ensures [] + names == names
  {}

  /** The first component of a rendered path, and where the others are. */
  lemma FirstOfFlat(path: string, i: nat, cs: seq<Component>)
    requires cs != [] && At(path, i, Flat(cs)) && (i + |Flat(cs)| < |path| ==> path[i + |Flat(cs)|] == '/')
    ensures var j := i + 1 + |cs[0]|;
            && i < |path| && path[i] == '/' && At(path, i + 1, cs[0])
            && At(path, j, Flat(cs[1..])) && j + |Flat(cs[1..])| == i + |Flat(cs)| <= |path|
            && (j < |path| ==> path[j] == '/')
  {
    hide Flat;
    FlatCons(cs);
    Slices(path, i, cs[0], Flat(cs[1..]));
    FirstChar(path, i + 1 + |cs[0]|, cs[1..]);
  }

  lemma FirstChar(path: string, j: nat, cs: seq<Component>)
    requires At(path, j, Flat(cs))
    ensures cs != [] ==> j < |path| && path[j] == '/'
    ensures cs == [] ==> Flat(cs) == ""
  {
    if cs != [] { assert path[j..j + |Flat(cs)|][0] == path[j]; }
  }

  lemma ConsConcat(a: seq<Component>, b: seq<Component>)
    requires a != []
    ensures [a[0]] + (a[1..] + b) == a + b
  {}

  lemma FirstName(path: string, i: nat, c: Component)
    requires '\0' !in path && i < |path| && path[i] == '/' && At(path, i + 1, c)
    requires i + 1 + |c| < |path| ==> path[i + 1 + |c|] == '/'
    ensures Names(path, i) == [c] + Names(path, i + 1 + |c|)
  {
    var b, e := i + 1, i + 1 + |c|;
    assert forall k :: b <= k < e ==> path[k] == path[b..e][k - b] && path[b..e][k - b] in c;
    NextSlashIs(path, b, e);
    assert path[b] != '/';
    assert SkipSlashes(path, i) == b;
  }

  /** What follows the components of an ended path. */
  lemma EndedParts(cs: seq<Component>, ending: Ending)
    requires IsCanonical(cs)
    ensures var path := Ended(cs, ending);
            && path != "" && path[0] == '/' && '\0' !in path
            && Names(path, 0) == cs + (if ending.Dot? then ["."] else [])
            && (cs != [] || ending != Normal ==> EndingOf(path) == ending)
  {
    var path := Ended(cs, ending);
    match ending {
      case Normal => NormalParts(cs);
      case Slash => SlashParts(cs);
      case Dot => DotParts(cs);
    }
  }

  lemma RootParts()
    ensures Names("/", 0) == [] && EndingOf("/") == Slash
  {
    assert SkipSlashes("/", 0) == 1;
  }

  lemma EndingOfNames(path: string, names: seq<Component>)
    requires '\0' !in path && Names(path, 0) == names != [] && path != ""
    ensures EndingOf(path) == LastEnding(names[|names| - 1], path[|path| - 1] == '/')
  {}

  lemma NormalParts(cs: seq<Component>)
    requires IsCanonical(cs)
    ensures '\0' !in Render(cs) && Names(Render(cs), 0) == cs && (cs != [] ==> EndingOf(Render(cs)) == Normal)
  {
    if cs == [] {
      RootParts();
    } else {
      hide Names, Flat, EndingOf;
      var path := Flat(cs);
      WholePath(path, cs);
      FlatEnds(cs);
      assert IsName(cs[|cs| - 1]);
      EndingOfNames(path, cs);
    }
  }

  lemma WholePath(path: string, cs: seq<Component>)
    requires path == Flat(cs)
    ensures Names(path, 0) == cs
  {
    hide Flat;
    assert path[0..|path|] == path && cs + [] == cs;
    NamesOfFlat(path, 0, cs);
  }

  lemma SlashParts(cs: seq<Component>)
    requires IsCanonical(cs)
    ensures var path := if cs == [] then "/" else Flat(cs) + "/";
            '\0' !in path && Names(path, 0) == cs && EndingOf(path) == Slash
  {
    if cs == [] {
      RootParts();
    } else {
      hide Flat, Names, EndingOf;
      var path := Flat(cs) + "/";
      var n := |Flat(cs)|;
      assert At(path, 0, Flat(cs)) && path[n] == '/';
      NamesOfFlat(path, 0, cs);
      LastSlashHasNoName(path, n);
      assert cs + [] == cs && IsName(cs[|cs| - 1]);
      EndingOfNames(path, cs);
    }
  }

  lemma LastSlashHasNoName(path: string, n: nat)
    requires '\0' !in path && n + 1 == |path| && path[n] == '/'
    ensures Names(path, n) == []
  {
    assert SkipSlashes(path, n) == n + 1;
  }

  lemma DotParts(cs: seq<Component>)
    requires IsCanonical(cs)
    ensures var path := Flat(cs) + "/.";
            '\0' !in path && path[0] == '/' && Names(path, 0) == cs + ["."] && EndingOf(path) == Dot
  {
    var dot: Component := ".";
    var path := Flat(cs) + "/.";
    FlatPush(cs, dot);
    assert path == Flat(cs + [dot]);
    hide Flat, Names, EndingOf;
    WholePath(path, cs + [dot]);
    EndingOfNames(path, cs + [dot]);
  }

  /** Canonicalizing again changes nothing, whatever the base. */
  lemma CanonicalizesOnce(cs: seq<Component>, ending: Ending, base: seq<Component>)
    requires IsCanonical(cs) && |Ended(cs, ending)| + 1 < PATH_MAX
    ensures '\0' !in Ended(cs, ending) && Canonicalized(Ended(cs, ending), base) == Ok(Ended(cs, ending))
  {
    var dot: Component := ".";
    EndedParts(cs, ending);
    assert [] + cs == cs;
    WalkPushes([], cs);
    WalkConcat([], cs, if ending.Dot? then [dot] else []);
    assert Walk(cs, []) == Ok(cs);
    assert [dot][1..] == [] && Walk(cs, [dot]) == Ok(cs);
  }

  // ----- Endings and lengths -----

  predicate EndsIn(path: string, end: string) { |end| <= |path| && path[|path| - |end|..] == end }

  /** The result ends in "/." exactly if the last name of the path is ".". */
  lemma DotIsKeptIff(path: string, base: seq<Component>)
    requires '\0' !in path && IsCanonical(base) && Canonicalized(path, base).Ok?
    ensures EndsIn(Canonicalized(path, base).value, "/.") <==> Names(path, 0) != [] && Last(Names(path, 0)) == "."
  {
    var start := if path != "" && path[0] == '/' then [] else base;
    WalkIsCanonical(start, Names(path, 0));
    var cs := Walk(start, Names(path, 0)).value;
    EndsAre(cs, EndingOf(path));
    hide Names, Ended, EndsIn, IsCanonical;
  }

  /** It ends in "/" exactly for the root, for a path that does, or has no name, or ends in "..", unless its last name is ".". */
  lemma SlashIsKeptIff(path: string, base: seq<Component>)
    requires '\0' !in path && IsCanonical(base) && Canonicalized(path, base).Ok?
    ensures var names, r := Names(path, 0), Canonicalized(path, base).value;
            EndsIn(r, "/") <==> r == "/" || names == [] || (Last(names) != "." && (Last(names) == ".." || EndsIn(path, "/")))
  {
    var start := if path != "" && path[0] == '/' then [] else base;
    WalkIsCanonical(start, Names(path, 0));
    var cs := Walk(start, Names(path, 0)).value;
    EndsAre(cs, EndingOf(path));
    hide Names, Ended, IsCanonical;
  }

  lemma EndsAre(cs: seq<Component>, ending: Ending)
    requires IsCanonical(cs)
    ensures var r := Ended(cs, ending);
            && (EndsIn(r, "/.") <==> ending.Dot?) && (EndsIn(r, "/") <==> ending.Slash? || r == "/")
  {
    var r := Ended(cs, ending);
    if ending.Normal? && cs != [] {
      var front, last := cs[..|cs| - 1], Last(cs);
      assert cs == front + [last] && IsName(last);
      FlatPush(front, last);
      assert r == Flat(front) + "/" + last && r[|r| - 1] == last[|last| - 1];
      if EndsIn(r, "/.") { LastIsDot(Flat(front), last); }
    } else if !ending.Normal? {
      assert r[|r| - 1] == if ending.Slash? then '/' else '.';
      if ending.Dot? { assert r[|r| - 2..] == "/."; }
    }
  }

  lemma LastIsDot(front: string, last: Component)
    requires EndsIn(front + "/" + last, "/.")
    ensures last == "."
  {
    var r := front + "/" + last;
    assert r[|r| - 2] == "/."[0] && r[|r| - 1] == "/."[1];
    assert forall k :: 0 <= k < |last| ==> r[|r| - |last| + k] == last[k] && last[k] in last;
    assert |last| == 1 && last[0] == r[|r| - 1];
  }

  /** A name of NAME_MAX characters or more is refused, wherever it is. */
  lemma {:induction false} LongNameIsRefused(cs: seq<Component>, names: seq<Component>, i: nat)
    requires i < |names| && |names[i]| >= 255
    ensures Walk(cs, names) == NameTooLong
    decreases |names|
  {
    if i > 0 && Stepped(cs, names[0]).Ok? { LongNameIsRefused(Stepped(cs, names[0]).value, names[1..], i - 1); }
  }

  // ----- Relative paths -----

  predicate EndsWith(path: string, n: nat, end: string) { n <= |path| && path[n..] == end && '\0' !in path && '\0' !in end }

  lemma {:induction false} SlashesShift(path: string, n: nat, end: string, i: nat)
    requires EndsWith(path, n, end) && i <= |end|
    ensures n + i <= |path| == n + |end| && '\0' !in path && '\0' !in end
    ensures SkipSlashes(path, n + i) == n + SkipSlashes(end, i) && NextSlash(path, n + i) == n + NextSlash(end, i)
    decreases |end| - i
  {
    if i < |end| {
      assert path[n + i] == end[i];
      SlashesShift(path, n, end, i + 1);
    }
  }

  /** The names in a path do not depend on what is before of it. */
  lemma {:induction false} NamesShift(path: string, n: nat, end: string, i: nat)
    requires EndsWith(path, n, end) && i <= |end|
    ensures n + i <= |path| && '\0' !in path && Names(path, n + i) == Names(end, i)
    decreases |end| - i
  {
    hide EndsWith, Names, SkipSlashes, NextSlash;
    var b := SkipSlashes(end, i);
    SlashesShift(path, n, end, i);
    NamesFrom(end, i);
    NamesFrom(path, n + i);
    if b < |end| {
      SlashesShift(path, n, end, b);
      var e := NextSlash(end, b);
      SliceShift(path, n, end, b, e);
      NamesShift(path, n, end, e);
    }
  }

  lemma NamesFrom(path: string, i: nat)
    requires i <= |path| && '\0' !in path
    ensures var b := SkipSlashes(path, i);
            Names(path, i) == if b == |path| then [] else [path[b..NextSlash(path, b)]] + Names(path, NextSlash(path, b))
  {}

  lemma SliceShift(path: string, n: nat, end: string, b: nat, e: nat)
    requires EndsWith(path, n, end) && b <= e <= |end|
    ensures n + e <= |path| && path[n + b..n + e] == end[b..e]
  {
    assert path[n..][b..e] == path[n + b..n + e];
  }

  lemma SlashHasNoName(path: string, i: nat)
    requires i < |path| && path[i] == '/' && '\0' !in path
    ensures Names(path, i) == Names(path, i + 1)
  {
    assert SkipSlashes(path, i) == SkipSlashes(path, i + 1);
  }

  /** The names of a base and of a path after it. */
  lemma JoinedNames(base: seq<Component>, path: string)
    requires '\0' !in path
    ensures var joined := Render(base) + "/" + path;
            '\0' !in joined && Names(joined, 0) == base + Names(path, 0)
  {
    hide Names, Flat;
    var before := Render(base) + "/";
    var joined := before + path;
    assert EndsWith(joined, |before|, path);
    NamesShift(joined, |before|, path, 0);
    var n := |before| - 1;
    SlashHasNoName(joined, n);
    if base == [] {
      SlashHasNoName(joined, 0);
    } else {
      assert At(joined, 0, Flat(base)) && joined[n] == '/';
      NamesOfFlat(joined, 0, base);
    }
  }

  /** A relative path means what the path after its base means, as an absolute one. */
  lemma RelativeIsAbsolute(path: string, base: seq<Component>, other: seq<Component>)
    requires '\0' !in path && (path == "" || path[0] != '/') && IsCanonical(base) && |Render(base)| + 1 < PATH_MAX
    ensures var joined := Render(base) + "/" + path;
            '\0' !in joined && Canonicalized(path, base) == Canonicalized(joined, other)
  {
    var joined := Render(base) + "/" + path;
    JoinedNames(base, path);
    WalksOverBase(base, Names(path, 0));
    JoinedEnding(base, path);
    hide Names, EndingOf, Walk, Finished, Flat;
  }

  lemma JoinedEnding(base: seq<Component>, path: string)
    requires '\0' !in path && (path == "" || path[0] != '/') && IsCanonical(base)
    ensures var joined := Render(base) + "/" + path;
            '\0' !in joined && EndingOf(joined) == EndingOf(path)
  {
    hide Names, EndingOf, Flat;
    var joined := Render(base) + "/" + path;
    JoinedNames(base, path);
    LastChar(Render(base) + "/", path);
    if path == "" { EmptyEnding(base, joined); } else { LastEndings(base, path, joined); }
  }

  /** A base and a slash: a directory is asked for, as by an empty path. */
  lemma EmptyEnding(base: seq<Component>, joined: string)
    requires IsCanonical(base) && '\0' !in joined && Names(joined, 0) == base + Names("", 0)
    requires joined != "" && joined[|joined| - 1] == '/'
    ensures EndingOf(joined) == EndingOf("")
  {
    NoNames();
    assert base + Names("", 0) == base;
    hide Names;
    if base != [] {
      assert IsName(Last(base));
      EndingOfNames(joined, base);
    }
  }

  /** The last name and the last character are those of the path. */
  lemma LastEndings(base: seq<Component>, path: string, joined: string)
    requires '\0' !in path && '\0' !in joined && path != "" && path[0] != '/' && Names(joined, 0) == base + Names(path, 0)
    requires joined != "" && joined[|joined| - 1] == path[|path| - 1]
    ensures EndingOf(joined) == EndingOf(path)
  {
    var names := Names(path, 0);
    NamesFrom(path, 0);
    assert names != [] && Last(base + names) == Last(names);
    hide Names, EndingOf;
    EndingOfNames(path, names);
    EndingOfNames(joined, base + names);
  }

  lemma NoNames()
    ensures Names("", 0) == []
  {}

  lemma LastChar(before: string, path: string)
    requires before != ""
    ensures before + path != ""
    ensures (before + path)[|before + path| - 1] == if path == "" then before[|before| - 1] else path[|path| - 1]
  {
  }

  /** Every canonicalization is such a path, shorter than PATH_MAX, and a fixed point. */
  lemma CanonicalizationIsIdempotent(path: string, base: seq<Component>, other: seq<Component>)
    requires '\0' !in path && IsCanonical(base)
    ensures Canonicalized(path, base).Ok? ==>
              var r := Canonicalized(path, base).value;
              |r| + 1 < PATH_MAX && '\0' !in r && Canonicalized(r, other) == Ok(r)
  {
    var start := if path != "" && path[0] == '/' then [] else base;
    WalkIsCanonical(start, Names(path, 0));
    var w := Walk(start, Names(path, 0));
    if w.Ok? && |Ended(w.value, EndingOf(path))| + 1 < PATH_MAX {
      CanonicalizesOnce(w.value, EndingOf(path), other);
    }
  }
}
