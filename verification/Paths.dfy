/**
 * Paths as strings and as components: comparing two paths, and replacing the prefix of one,
 * character by character, is comparing and replacing components.
 */
module Paths {
  import opened Wrappers

  const PATH_MAX: nat := 4096
  const NAME_MAX: nat := 255

  type Component = c: string | c != "" && '/' !in c && '\0' !in c witness "a"

  /** The components one after the other, each after a slash. */
  function Flat(cs: seq<Component>): (s: string)
    ensures '\0' !in s
    ensures cs != [] ==> |s| > 1 && s[0] == '/'
  {
    if cs == [] then "" else "/" + cs[0] + Flat(cs[1..])
  }

  /** A canonical path. */
  function Render(cs: seq<Component>): string {
    if cs == [] then "/" else Flat(cs)
  }

  lemma {:induction false} FlatConcat(a: seq<Component>, b: seq<Component>)
    ensures Flat(a + b) == Flat(a) + Flat(b)
  {
    if a == [] {
      assert a + b == b;
    } else {
      assert (a + b)[1..] == a[1..] + b;
      FlatConcat(a[1..], b);
    }
  }

  lemma FlatPush(cs: seq<Component>, c: Component)
    ensures Flat(cs + [c]) == Flat(cs) + "/" + c
  {
    FlatConcat(cs, [c]);
    assert [c][1..] == [];
  }

  // ----- Comparison -----

  datatype Comparison = PathsAreEqual | Path1IsPrefix | Path2IsPrefix | PathsAreNotComparable

  /** path[i], the terminator included. */
  function CharAt(path: string, i: nat): char {
    if i < |path| then path[i] else '\0'
  }

  /** Without its trailing slash, if it has one. */
  function Trimmed(path: string): nat {
    if path != "" && path[|path| - 1] == '/' then |path| - 1 else |path|
  }

  /** strncmp(a, b, n) == 0, for C strings */
  method SameStart(a: string, b: string, n: nat) returns (same: bool)
    requires n <= |a| && n <= |b|
    ensures same <==> a[..n] == b[..n]
  {
    var i := 0;
    while i < n
      invariant i <= n && a[..i] == b[..i]
    {
      if a[i] != b[i] {
        assert a[..n][i] != b[..n][i];
        return false;
      }
      i := i + 1;
    }
    same := true;
  }

  /** compare_paths2() */
  method ComparePaths(path1: string, path2: string) returns (r: Comparison)
    requires path1 != "" && path2 != ""
    ensures r == Compared(path1, path2)
  {
    var length1, length2 := |path1|, |path2|;
    if path1[length1 - 1] == '/' { length1 := length1 - 1; }
    if path2[length2 - 1] == '/' { length2 := length2 - 1; }
    var lengthMin, sentinel;
    if length1 < length2 {
      lengthMin := length1;
      sentinel := CharAt(path2, lengthMin);
    } else {
      lengthMin := length2;
      sentinel := CharAt(path1, lengthMin);
    }
    // Obvious cases.
    if sentinel != '/' && sentinel != '\0' { return PathsAreNotComparable; }
    var isPrefix := SameStart(path1, path2, lengthMin);
    if !isPrefix { return PathsAreNotComparable; }
    r := if length1 == length2 then PathsAreEqual else if length1 < length2 then Path1IsPrefix else Path2IsPrefix;
  }

  function Compared(path1: string, path2: string): Comparison {
    var length1, length2 := Trimmed(path1), Trimmed(path2);
    var n := if length1 < length2 then length1 else length2;
    var sentinel := CharAt(if length1 < length2 then path2 else path1, n);
    if (sentinel != '/' && sentinel != '\0') || path1[..n] != path2[..n] then PathsAreNotComparable
    else if length1 == length2 then PathsAreEqual
    else if length1 < length2 then Path1IsPrefix
    else Path2IsPrefix
  }

  /** The path of these components, with or without a trailing slash. */
  predicate IsPathOf(path: string, cs: seq<Component>) {
    path == Render(cs) || (cs != [] && path == Flat(cs) + "/")
  }

  lemma TrimmedIsFlat(path: string, cs: seq<Component>)
    requires IsPathOf(path, cs)
    ensures path != "" && Trimmed(path) == |Flat(cs)| && path[..Trimmed(path)] == Flat(cs)
    ensures CharAt(path, |Flat(cs)|) == '/' || CharAt(path, |Flat(cs)|) == '\0'
  {
    if cs != [] { FlatEnds(cs); }
  }

  lemma {:induction false} FlatEnds(cs: seq<Component>)
    requires cs != []
    ensures Flat(cs)[|Flat(cs)| - 1] != '/'
  {
    if |cs| == 1 {
      var last := cs[0][|cs[0]| - 1];
      assert last in cs[0] && Flat(cs)[|Flat(cs)| - 1] == last;
    } else {
      FlatEnds(cs[1..]);
    }
  }

  /** Up to a separator or the end, a string prefix is a prefix of components. */
  lemma {:induction false} FlatPrefix(a: seq<Component>, b: seq<Component>)
    ensures a <= b <==> Flat(a) <= Flat(b) && (|Flat(a)| == |Flat(b)| || Flat(b)[|Flat(a)|] == '/')
    decreases |a|
  {
    if a == [] {
    } else if b == [] {
    } else if a[0] == b[0] {
      FlatPrefix(a[1..], b[1..]);
      FirstComponent(a);
      FirstComponent(b);
      ConsPrefix(a, b);
      FlatTails(a, b);
    } else {
      FirstDiffers(a, b);
    }
  }

  lemma FirstComponent(a: seq<Component>)
    requires a != []
    ensures Flat(a)[..1 + |a[0]|] == "/" + a[0] && Flat(a)[1 + |a[0]|..] == Flat(a[1..])
  {}

  lemma ConsPrefix(a: seq<Component>, b: seq<Component>)
    requires a != [] && b != [] && a[0] == b[0]
    ensures a <= b <==> a[1..] <= b[1..]
  {
    if a[1..] <= b[1..] {
      assert a == [a[0]] + a[1..] && b == [b[0]] + b[1..];
    }
    if a <= b {
      assert a[1..] == b[..|a|][1..];
    }
  }

  lemma FlatTails(a: seq<Component>, b: seq<Component>)
    requires a != [] && b != [] && a[0] == b[0]
    ensures var n := 1 + |a[0]|;
            && (Flat(a) <= Flat(b) <==> Flat(a[1..]) <= Flat(b[1..]))
            && |Flat(a)| == n + |Flat(a[1..])| && |Flat(b)| == n + |Flat(b[1..])|
            && (|Flat(a)| < |Flat(b)| ==> Flat(b)[|Flat(a)|] == Flat(b[1..])[|Flat(a[1..])|])
  {
    var n := 1 + |a[0]|;
    FirstComponent(a);
    FirstComponent(b);
    assert Flat(a) == ("/" + a[0]) + Flat(a[1..]) && Flat(b) == ("/" + a[0]) + Flat(b[1..]);
    PrefixOfTail("/" + a[0], Flat(a[1..]), Flat(b[1..]));
  }

  lemma PrefixOfTail(h: string, a: string, b: string)
    ensures h + a <= h + b <==> a <= b
  {
    if a <= b {
      assert h + b == h + a + b[|a|..];
    }
    if h + a <= h + b {
      assert a == (h + a)[|h|..] && (h + b)[..|h + a|][|h|..] == b[..|a|];
    }
  }

  lemma FirstComponentAt(a: seq<Component>)
    requires a != []
    ensures |Flat(a)| >= 1 + |a[0]| && forall i :: 0 <= i < |a[0]| ==> Flat(a)[1 + i] == a[0][i]
    ensures |Flat(a)| > 1 + |a[0]| ==> Flat(a)[1 + |a[0]|] == '/'
  {
    FirstComponent(a);
    assert Flat(a) == ("/" + a[0]) + Flat(a[1..]);
  }

  /** Two different components differ before the end of both, or one ends first. */
  lemma FirstDiffers(a: seq<Component>, b: seq<Component>)
    requires a != [] && b != [] && a[0] != b[0]
    ensures !(Flat(a) <= Flat(b) && (|Flat(a)| == |Flat(b)| || Flat(b)[|Flat(a)|] == '/'))
  {
    FirstComponentAt(a);
    FirstComponentAt(b);
    if |a[0]| < |b[0]| {
      assert b[0][|a[0]|] in b[0];
    } else if |b[0]| < |a[0]| {
      assert a[0][|b[0]|] in a[0];
    }
  }

  /** compare_paths2() on the trimmed strings. */
  lemma ComparedTrimmed(path1: string, fa: string, path2: string, fb: string)
    requires Trimmed(path1) == |fa| && path1[..|fa|] == fa && (CharAt(path1, |fa|) == '/' || CharAt(path1, |fa|) == '\0')
    requires Trimmed(path2) == |fb| && path2[..|fb|] == fb && (CharAt(path2, |fb|) == '/' || CharAt(path2, |fb|) == '\0')
    requires '\0' !in fa && '\0' !in fb
    ensures Compared(path1, path2)
         == if fa == fb then PathsAreEqual
            else if |fa| < |fb| && fa <= fb && fb[|fa|] == '/' then Path1IsPrefix
            else if |fb| < |fa| && fb <= fa && fa[|fb|] == '/' then Path2IsPrefix
            else PathsAreNotComparable
  {
    if |fa| < |fb| {
      assert path2[..|fb|][..|fa|] == path2[..|fa|] && path2[..|fb|][|fa|] == path2[|fa|];
      assert fb[|fa|] in fb;
    } else {
      assert path1[..|fa|][..|fb|] == path1[..|fb|];
      if |fb| < |fa| {
        assert path1[..|fa|][|fb|] == path1[|fb|];
        assert fa[|fb|] in fa;
      }
    }
  }

  /** The comparison is that of the components. */
  lemma ComparesComponents(path1: string, a: seq<Component>, path2: string, b: seq<Component>)
    requires IsPathOf(path1, a) && IsPathOf(path2, b)
    ensures Compared(path1, path2)
         == if a == b then PathsAreEqual
            else if a <= b then Path1IsPrefix
            else if b <= a then Path2IsPrefix
            else PathsAreNotComparable
  {
    hide Flat, Compared, IsPathOf;
    TrimmedIsFlat(path1, a);
    TrimmedIsFlat(path2, b);
    ComparedTrimmed(path1, Flat(a), path2, Flat(b));
    FlatPrefix(a, b);
    FlatPrefix(b, a);
    if a <= b && b <= a { assert a == b; }
  }

  // ----- Joining -----

  datatype Result<T> = Ok(value: T) | NameTooLong | Invalid

  /** join_paths() for two paths */
  function Joined(path1: string, path2: string): Result<string> {
    var whole :=
      if path1 != "" && path1[|path1| - 1] != '/' && CharAt(path2, 0) != '/' then path1 + "/" + path2
      else if path1 != "" && path1[|path1| - 1] == '/' && CharAt(path2, 0) == '/' then path1 + path2[1..]
      else path1 + path2;
    if |whole| + 1 >= PATH_MAX then NameTooLong else Ok(whole)
  }

  /** join_paths() for any number of paths; those that are NULL are skipped. */
  function JoinedAll(paths: seq<Option<string>>): Result<string> {
    if paths == [] then Ok("")
    else
      var before, last := JoinedAll(paths[..|paths| - 1]), paths[|paths| - 1];
      if last.None? || !before.Ok? then before else Joined(before.value, last.value)
  }

  lemma JoinedTwo(path1: string, path2: string)
    ensures JoinedAll([Some(path1), Some(path2)]) == Joined(path1, path2)
  {
    var paths := [Some(path1), Some(path2)];
    assert paths[..1] == [Some(path1)];
    assert [Some(path1)][..0] == [] && "" + path1 == path1;
    assert JoinedAll([Some(path1)]) == Joined("", path1);
    assert JoinedAll(paths) == if JoinedAll(paths[..1]).Ok? then Joined(path1, path2) else NameTooLong;
  }

  lemma {:induction false} JoinedPrefix(paths: seq<Option<string>>, i: nat)
    requires i < |paths| && JoinedAll(paths[..i + 1]).NameTooLong?
    ensures JoinedAll(paths).NameTooLong?
  {
    if i + 1 < |paths| {
      assert paths[..|paths| - 1][..i + 1] == paths[..i + 1];
      JoinedPrefix(paths[..|paths| - 1], i);
    } else {
      assert paths[..i + 1] == paths;
    }
  }

  /** The paths are appended to the result one by one. */
  method JoinPaths(paths: seq<Option<string>>) returns (r: Result<string>)
    ensures r == JoinedAll(paths)
  {
    var result, i := "", 0;
    while i < |paths|
      invariant i <= |paths| && JoinedAll(paths[..i]) == Ok(result)
    {
      assert paths[..i + 1][..i] == paths[..i];
      if paths[i].Some? {
        var path, length := paths[i].value, |result|;
        ghost var before := result;
        if length > 0 && result[length - 1] != '/' && CharAt(path, 0) != '/' {
          // Neither has a slash.
          if length + |path| + 1 + 1 >= PATH_MAX { JoinedPrefix(paths, i); return NameTooLong; }
          result := result + "/" + path;
        } else if length > 0 && result[length - 1] == '/' && CharAt(path, 0) == '/' {
          // Both have one.
          if length + |path| - 1 + 1 >= PATH_MAX { JoinedPrefix(paths, i); return NameTooLong; }
          result := result + path[1..];
        } else {
          // One of both has, or there is nothing before.
          if length + |path| + 1 >= PATH_MAX { JoinedPrefix(paths, i); return NameTooLong; }
          result := result + path;
        }
        assert Joined(before, path) == Ok(result);
      }
      i := i + 1;
    }
    assert paths[..i] == paths;
    r := Ok(result);
  }

  /** Joining a component to a canonical path adds it to the components. */
  lemma JoinComponent(cs: seq<Component>, c: Component)
    ensures Joined(Render(cs), c)
         == if |Render(cs + [c])| + 1 >= PATH_MAX then NameTooLong else Ok(Render(cs + [c]))
  {
    FlatPush(cs, c);
    assert c[0] in c;
    if cs != [] {
      FlatEnds(cs);
    } else {
      assert Flat([] + [c]) == "/" + c;
    }
  }

  // ----- Replacing a prefix -----

  /** A C string in a buffer. */
  ghost predicate Stored(buffer: seq<char>, s: string) {
    |s| < |buffer| && buffer[..|s|] == s && buffer[|s|] == '\0' && '\0' !in s
  }

  method StrLen(path: array<char>, ghost s: string) returns (length: nat)
    requires Stored(path[..], s)
    ensures length == |s|
  {
    length := 0;
    while path[length] != '\0'
      invariant length <= |s|
      decreases |s| - length
    {
      length := length + 1;
    }
    assert forall i :: 0 <= i < |s| ==> path[..][..|s|][i] in s;
  }

  /** memmove(&path[dst], &path[src], n): the ranges may overlap. */
  method MemMove(path: array<char>, dst: nat, src: nat, n: nat)
    requires dst + n <= path.Length && src + n <= path.Length
    modifies path
    ensures forall i :: 0 <= i < path.Length ==>
              path[i] == if dst <= i < dst + n then old(path[i - dst + src]) else old(path[i])
  {
    if dst <= src {
      for k := 0 to n
        invariant forall i :: 0 <= i < path.Length ==>
                    path[i] == if dst <= i < dst + k then old(path[i - dst + src]) else old(path[i])
      {
        path[dst + k] := path[src + k];
      }
    } else {
      for k := n downto 0
        invariant forall i :: 0 <= i < path.Length ==>
                    path[i] == if dst + k <= i < dst + n then old(path[i - dst + src]) else old(path[i])
      {
        path[dst + k] := path[src + k];
      }
    }
  }

  /** memcpy(path, s, |s|) */
  method MemCopy(path: array<char>, s: string)
    requires |s| <= path.Length
    modifies path
    ensures forall i :: 0 <= i < path.Length ==> path[i] == if i < |s| then s[i] else old(path[i])
  {
    for k := 0 to |s|
      invariant forall i :: 0 <= i < path.Length ==> path[i] == if i < k then s[i] else old(path[i])
    {
      path[k] := s[k];
    }
  }

  function Substituted(path: string, oldLength: nat, newPrefix: string): Option<string>
    requires oldLength <= |path|
  {
    if |newPrefix| == 1 then Some(if |path| == oldLength then "/" else path[oldLength..])
    else if oldLength == 1 then
      if |newPrefix| + |path| >= PATH_MAX then None
      else Some(if |path| > 1 then newPrefix + path else newPrefix)
    else
      if |path| - oldLength + |newPrefix| >= PATH_MAX then None
      else Some(newPrefix + path[oldLength..])
  }

  method Terminate(path: array<char>, length: nat, ghost s: string)
    requires length == |s| < path.Length && path[..length] == s && '\0' !in s
    modifies path
    ensures Stored(path[..], s)
  {
    path[length] := '\0';
    assert path[..][..length] == path[..length];
  }

  /** substitute_path_prefix(): the new length, or nothing when the path gets too long. */
  method SubstitutePathPrefix(path: array<char>, ghost s: string, oldLength: nat, newPrefix: string)
      returns (length: Option<nat>)
    requires path.Length == PATH_MAX && Stored(path[..], s) && oldLength <= |s|
    requires |newPrefix| < PATH_MAX && '\0' !in newPrefix
    modifies path
    ensures match Substituted(s, oldLength, newPrefix)
            case Some(t) => length == Some(|t|) && Stored(path[..], t)
            case None => length == None && path[..] == old(path[..])
  {
    var pathLength := StrLen(path, s);
    var newLength;
    if |newPrefix| == 1 {
      newLength := pathLength - oldLength;
      if newLength != 0 {
        MemMove(path, 0, oldLength, newLength);
      } else {
        path[0] := '/';
        newLength := 1;
      }
    } else if oldLength == 1 {
      newLength := |newPrefix| + pathLength;
      if newLength >= PATH_MAX { return None; }
      if pathLength > 1 {
        MemMove(path, |newPrefix|, 0, pathLength);
        MemCopy(path, newPrefix);
      } else {
        MemCopy(path, newPrefix);
        newLength := |newPrefix|;
      }
    } else {
      newLength := pathLength - oldLength + |newPrefix|;
      if newLength >= PATH_MAX { return None; }
      MemMove(path, |newPrefix|, oldLength, pathLength - oldLength);
      MemCopy(path, newPrefix);
    }
    ghost var t := Substituted(s, oldLength, newPrefix).value;
    forall i | 0 <= i < newLength ensures path[i] == t[i] {
      assert forall j :: 0 <= j < |s| ==> old(path[j]) == s[j];
    }
    assert path[..newLength] == t;
    Terminate(path, newLength, t);
    length := Some(newLength);
  }

  /** A path under a prefix: what follows the prefix is nothing, or starts with a slash. */
  function WithPrefix(cs: seq<Component>, tail: string): string {
    if cs == [] && tail == "" then "/" else Flat(cs) + tail
  }

  predicate IsTail(old': seq<Component>, new': seq<Component>, tail: string) {
    tail == "" || (tail[0] == '/' && (|tail| > 1 || (old' != [] && new' != [])))
  }

  predicate Fits(old': seq<Component>, new': seq<Component>, tail: string) {
    new' == [] || (if old' == [] then |Flat(new')| + |WithPrefix(old', tail)| else |WithPrefix(new', tail)|) < PATH_MAX
  }

  /** The prefix is replaced component-wise, "/" included, whenever the result fits. */
  lemma SubstitutesPrefix(old': seq<Component>, new': seq<Component>, tail: string)
    requires old' != [] || new' != []
    requires IsTail(old', new', tail)
    ensures |Render(old')| <= |WithPrefix(old', tail)|
    ensures Substituted(WithPrefix(old', tail), |Render(old')|, Render(new'))
         == if Fits(old', new', tail) then Some(WithPrefix(new', tail)) else None
  {
    assert Flat(new') + "" == Flat(new') && "" + tail == tail;
    if old' == [] {
      assert tail != "" ==> WithPrefix(old', tail) == tail;
    } else {
      assert (Flat(old') + tail)[|Flat(old')|..] == tail;
    }
  }

  /** Replacing the prefix and then replacing it back restores the path. */
  lemma SubstitutesBack(old': seq<Component>, new': seq<Component>, tail: string)
    requires old' != new' && IsTail(old', new', tail)
    requires Fits(old', new', tail) && Fits(new', old', tail)
    ensures |Render(old')| <= |WithPrefix(old', tail)|
    ensures var there := Substituted(WithPrefix(old', tail), |Render(old')|, Render(new'));
            && there.Some? && |Render(new')| <= |there.value|
            && Substituted(there.value, |Render(new')|, Render(old')) == Some(WithPrefix(old', tail))
  {
    SubstitutesPrefix(old', new', tail);
    SubstitutesPrefix(new', old', tail);
  }

  /** "/" for "/" loses the leading slash of everything but "/" itself. */
  lemma RootForRootIsWrong(tail: string)
    requires tail == "" || (tail[0] == '/' && |tail| > 1)
    ensures Substituted(WithPrefix([], tail), |Render([])|, Render([])) == Some(WithPrefix([], tail)) <==> tail == ""
  {
    if tail != "" { assert |tail[1..]| < |tail|; }
  }
}
