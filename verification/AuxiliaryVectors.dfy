/**
 * The ELF auxiliary vectors on the initial stack: found in the same place by the tracer and
 * by the loader, adjusted in place by the loader, fetched and pushed by the tracer.
 */
module AuxiliaryVectors {
  import opened LoadScript
  import opened Wrappers

  const AT_NULL: nat := 0
  const AT_PHDR: nat := 3
  const AT_PHENT: nat := 4
  const AT_PHNUM: nat := 5
  const AT_BASE: nat := 7
  const AT_ENTRY: nat := 9
  const AT_EXECFN: nat := 31

  datatype Vector = Vector(kind: nat, value: nat)

  /** What ends the vectors. */
  const SENTINEL := Vector(AT_NULL, 0)

  /** The words of vectors, one after the other. */
  function Flat(vs: seq<Vector>): (ws: seq<nat>)
    ensures |ws| == 2 * |vs|
  {
    if vs == [] then [] else [vs[0].kind, vs[0].value] + Flat(vs[1..])
  }

  lemma {:induction false} FlatAt(vs: seq<Vector>, i: nat)
    requires i < |vs|
    ensures Flat(vs)[2 * i] == vs[i].kind && Flat(vs)[2 * i + 1] == vs[i].value
  {
    if i > 0 { FlatAt(vs[1..], i - 1); }
  }

  /** The words of vectors, one index at a time. */
  lemma FlatIsFlat(vs: seq<Vector>)
    ensures forall i :: 0 <= i < |vs| ==> Flat(vs)[2 * i] == vs[i].kind && Flat(vs)[2 * i + 1] == vs[i].value
  {
    forall i | 0 <= i < |vs| ensures Flat(vs)[2 * i] == vs[i].kind && Flat(vs)[2 * i + 1] == vs[i].value {
      FlatAt(vs, i);
    }
  }

  predicate NoNull(vs: seq<Vector>) { forall i :: 0 <= i < |vs| ==> vs[i].kind != AT_NULL }

  predicate IsEnvironment(envp: seq<nat>) { forall i :: 0 <= i < |envp| ==> envp[i] != 0 }

  function VectorsAt(argv: seq<nat>, envp: seq<nat>): nat { |argv| + |envp| + 3 }

  /** argc, the arguments, 0, the environment, 0. */
  function Front(argv: seq<nat>, envp: seq<nat>): (ws: seq<nat>)
    ensures |ws| == VectorsAt(argv, envp) && ws[0] == |argv|
    ensures ws[1] == if argv == [] then 0 else argv[0]
  {
    [|argv|] + argv + [0] + envp + [0]
  }

  lemma FrontEnvironment(argv: seq<nat>, envp: seq<nat>)
    requires IsEnvironment(envp)
    ensures forall i :: |argv| + 2 <= i < |argv| + 2 + |envp| ==> Front(argv, envp)[i] != 0
    ensures Front(argv, envp)[|argv| + 2 + |envp|] == 0
  {
    forall i | |argv| + 2 <= i < |argv| + 2 + |envp| ensures Front(argv, envp)[i] != 0 {
      assert Front(argv, envp)[i] == envp[i - (|argv| + 2)];
    }
  }

  function End(above: seq<nat>): (ws: seq<nat>)
    ensures |ws| == |above| + 2 && ws[0] == AT_NULL && ws[1] == 0
  {
    [AT_NULL, 0] + above
  }

  /** The initial stack: what precedes the vectors, the vectors, the terminator, and whatever comes above. */
  function Stack(argv: seq<nat>, envp: seq<nat>, vs: seq<Vector>, above: seq<nat>): (ws: seq<nat>)
    ensures |ws| == VectorsAt(argv, envp) + 2 * |vs| + 2 + |above|
  {
    Front(argv, envp) + Flat(vs) + End(above)
  }

  lemma StackFront(argv: seq<nat>, envp: seq<nat>, vs: seq<Vector>, above: seq<nat>)
    ensures forall k :: 0 <= k < VectorsAt(argv, envp) ==> Stack(argv, envp, vs, above)[k] == Front(argv, envp)[k]
  {
    hide Front, Flat, End;
  }

  lemma StackVectors(argv: seq<nat>, envp: seq<nat>, vs: seq<Vector>, above: seq<nat>)
    ensures var ws, at := Stack(argv, envp, vs, above), VectorsAt(argv, envp);
            forall i :: 0 <= i < |vs| ==> ws[at + 2 * i] == vs[i].kind && ws[at + 2 * i + 1] == vs[i].value
  {
    hide Front, Flat, End;
    FlatIsFlat(vs);
  }

  lemma StackEnd(argv: seq<nat>, envp: seq<nat>, vs: seq<Vector>, above: seq<nat>)
    ensures var ws, end := Stack(argv, envp, vs, above), VectorsAt(argv, envp) + 2 * |vs|;
            forall k :: end <= k < |ws| ==> ws[k] == End(above)[k - end]
  {
    hide Front, Flat, End;
  }

  // ----- Finding the vectors -----

  /** get_elf_aux_vectors_address(), in words from the stack pointer; nothing when it runs out of memory. */
  method GetVectorsAddress(ws: array<nat>) returns (at: Option<nat>)
    ensures at.Some? ==> at.value <= ws.Length
    ensures forall argv, envp, vs, above :: ws[..] == Stack(argv, envp, vs, above) && IsEnvironment(envp) ==>
              at == Some(VectorsAt(argv, envp))
  {
    hide Front, Flat, End, Stack;
    if ws.Length == 0 { return None; }
    // Past the arguments and their terminator.
    var begin := 1 + ws[0] + 1;
    var address := begin;
    var data := 1;
    while data != 0 && address < ws.Length
      invariant begin <= address
      invariant address > begin ==> address <= ws.Length && data == ws[address - 1]
      invariant address == begin ==> data == 1
      invariant forall i :: begin <= i < address - 1 ==> ws[i] != 0
      decreases ws.Length - address, data
    {
      data := ws[address];
      address := address + 1;
    }
    forall argv, envp, vs, above | ws[..] == Stack(argv, envp, vs, above) && IsEnvironment(envp)
      ensures data == 0 && address == VectorsAt(argv, envp)
    {
      WalkEnds(ws[..], argv, envp, vs, above);
    }
    if data == 0 { at := Some(address); } else { at := None; }
  }

  /** Where both walks pass, and where they stop. */
  lemma WalkEnds(ws: seq<nat>, argv: seq<nat>, envp: seq<nat>, vs: seq<Vector>, above: seq<nat>)
    requires ws == Stack(argv, envp, vs, above) && IsEnvironment(envp)
    ensures |ws| == VectorsAt(argv, envp) + 2 * |vs| + 2 + |above| && ws[0] == |argv|
    ensures ws[1] == if argv == [] then 0 else argv[0]
    ensures forall i :: |argv| + 2 <= i < |argv| + 2 + |envp| ==> ws[i] != 0
    ensures ws[|argv| + 2 + |envp|] == 0
  {
    hide Front, Flat, End, Stack;
    FrontEnvironment(argv, envp);
    StackFront(argv, envp, vs, above);
  }

  /** The walk of the loader: it steps over the end of the arguments before it looks. */
  method FindVectors(ws: array<nat>, ghost argv: seq<nat>, ghost envp: seq<nat>, ghost vs: seq<Vector>, ghost above: seq<nat>)
      returns (at: nat)
    requires ws[..] == Stack(argv, envp, vs, above) && IsEnvironment(envp)
    ensures at == VectorsAt(argv, envp)
  {
    hide Front, Flat, End, Stack;
    WalkEnds(ws[..], argv, envp, vs, above);
    var cursor := ws[0] + 1;
    cursor := cursor + 1;
    while ws[cursor] != 0
      invariant |argv| + 2 <= cursor <= |argv| + 2 + |envp|
      decreases |argv| + 2 + |envp| - cursor
    {
      cursor := cursor + 1;
    }
    at := cursor + 1;
  }

  // ----- Adjusting them -----

  /** Only the value of six kinds of vectors changes; the name of the executable is the first argument. */
  function Adjusted(v: Vector, start: Statement, atBase: nat, execfn: nat): Vector
    requires start.Start?
  {
    if v.kind == AT_PHDR then v.(value := start.phdr)
    else if v.kind == AT_PHENT then v.(value := start.phent)
    else if v.kind == AT_PHNUM then v.(value := start.phnum)
    else if v.kind == AT_ENTRY then v.(value := start.entry)
    else if v.kind == AT_BASE then v.(value := atBase)
    else if v.kind == AT_EXECFN then v.(value := execfn)
    else v
  }

  /**
   * The value a vector must have, by the number of its kind: AT_PHDR, AT_PHENT, AT_PHNUM, AT_BASE,
   * AT_ENTRY and AT_EXECFN tell of the program that was loaded, the others what the kernel said.
   */
  predicate Tells(v: Vector, value: nat, start: Statement, atBase: nat, execfn: nat)
    requires start.Start?
  {
    && (v.kind == 3 ==> value == start.phdr) && (v.kind == 4 ==> value == start.phent) && (v.kind == 5 ==> value == start.phnum)
    && (v.kind == 7 ==> value == atBase) && (v.kind == 9 ==> value == start.entry) && (v.kind == 31 ==> value == execfn)
    && (v.kind !in {3, 4, 5, 7, 9, 31} ==> value == v.value)
  }

  /** The words from @at on have these kinds, and such values. */
  predicate AllTold(ws: seq<nat>, at: nat, vs: seq<Vector>, start: Statement, atBase: nat, execfn: nat)
    requires start.Start?
  {
    forall i :: 0 <= i < |vs| ==>
      && at + 2 * i + 1 < |ws| && ws[at + 2 * i] == vs[i].kind
      && Tells(vs[i], ws[at + 2 * i + 1], start, atBase, execfn)
  }

  lemma AllTell(vs: seq<Vector>, start: Statement, atBase: nat, execfn: nat)
    requires start.Start?
    ensures var done := AllAdjusted(vs, start, atBase, execfn);
            forall i :: 0 <= i < |vs| ==> done[i].kind == vs[i].kind && Tells(vs[i], done[i].value, start, atBase, execfn)
  {}

  function AllAdjusted(vs: seq<Vector>, start: Statement, atBase: nat, execfn: nat): (r: seq<Vector>)
    requires start.Start?
    ensures |r| == |vs| && forall i :: 0 <= i < |vs| ==> r[i] == Adjusted(vs[i], start, atBase, execfn)
  {
    seq(|vs|, i requires 0 <= i < |vs| => Adjusted(vs[i], start, atBase, execfn))
  }

  method AdjustVector(ws: array<nat>, cursor: nat, start: Statement, atBase: nat, execfn: nat)
    requires start.Start? && cursor + 1 < ws.Length
    modifies ws
    ensures var v := Adjusted(Vector(old(ws[cursor]), old(ws[cursor + 1])), start, atBase, execfn);
            && ws[cursor] == v.kind && ws[cursor + 1] == v.value
    ensures forall k :: 0 <= k < ws.Length && k != cursor + 1 ==> ws[k] == old(ws[k])
  {
    var kind := ws[cursor];
    if kind == AT_PHDR { ws[cursor + 1] := start.phdr; }
    else if kind == AT_PHENT { ws[cursor + 1] := start.phent; }
    else if kind == AT_PHNUM { ws[cursor + 1] := start.phnum; }
    else if kind == AT_ENTRY { ws[cursor + 1] := start.entry; }
    else if kind == AT_BASE { ws[cursor + 1] := atBase; }
    else if kind == AT_EXECFN { ws[cursor + 1] := execfn; }
  }

  /** The first argument, or the end of the arguments when there are none. */
  function FirstArgument(argv: seq<nat>): nat { if argv == [] then 0 else argv[0] }

  /**
   * The loop over the vectors handles one before it looks for the terminator, so the first may
   * have any kind.
   */
  method AdjustVectors(ws: array<nat>, start: Statement, atBase: nat, ghost argv: seq<nat>, ghost envp: seq<nat>,
                       ghost vs: seq<Vector>, ghost above: seq<nat>)
    requires start.Start? && vs != [] && NoNull(vs[1..]) && IsEnvironment(envp)
    requires ws[..] == Stack(argv, envp, vs, above)
    modifies ws
    ensures ws[..] == Stack(argv, envp, AllAdjusted(vs, start, atBase, FirstArgument(argv)), above)
    ensures ws[..] == old(ws[..]) <==> forall i :: 0 <= i < |vs| ==> Adjusted(vs[i], start, atBase, FirstArgument(argv)) == vs[i]
    ensures AllTold(ws[..], VectorsAt(argv, envp), vs, start, atBase, FirstArgument(argv))
  {
    hide Front, Flat, End, Stack, AllAdjusted, AllTold;
    ghost var before := ws[..];
    ghost var at := VectorsAt(argv, envp);
    WalkEnds(before, argv, envp, vs, above);
    LoopEnds(before, argv, envp, vs, above);
    var execfn := ws[1];
    var cursor := FindVectors(ws, argv, envp, vs, above);
    ghost var i := 0;
    ghost var done := AllAdjusted(vs, start, atBase, FirstArgument(argv));
    var more := true;
    while more
      invariant i <= |vs| && cursor == at + 2 * i && more == (i < |vs|)
      invariant forall k :: 0 <= k < ws.Length && !(at <= k < cursor) ==> ws[k] == before[k]
      invariant forall j :: 0 <= j < i ==> ws[at + 2 * j] == done[j].kind && ws[at + 2 * j + 1] == done[j].value
      decreases |vs| - i
    {
      assert before[at + 2 * i] == vs[i].kind && before[at + 2 * i + 1] == vs[i].value;
      AdjustVector(ws, cursor, start, atBase, execfn);
      cursor, i := cursor + 2, i + 1;
      assert ws[cursor] == before[at + 2 * i];
      more := ws[cursor] != AT_NULL;
    }
    SameStack(ws[..], before, argv, envp, vs, done, above);
    SameStackIff(argv, envp, vs, done, above);
    NothingAdjustedIff(vs, start, atBase, FirstArgument(argv));
    StackTells(ws[..], argv, envp, vs, above, start, atBase);
  }

  lemma StackTells(ws: seq<nat>, argv: seq<nat>, envp: seq<nat>, vs: seq<Vector>, above: seq<nat>, start: Statement, atBase: nat)
    requires start.Start? && ws == Stack(argv, envp, AllAdjusted(vs, start, atBase, FirstArgument(argv)), above)
    ensures AllTold(ws, VectorsAt(argv, envp), vs, start, atBase, FirstArgument(argv))
  {
    hide Front, Flat, End, Stack, Tells, AllAdjusted;
    var at, done := VectorsAt(argv, envp), AllAdjusted(vs, start, atBase, FirstArgument(argv));
    StackVectors(argv, envp, done, above);
    AllTell(vs, start, atBase, FirstArgument(argv));
    forall i | 0 <= i < |vs|
      ensures at + 2 * i + 1 < |ws| && ws[at + 2 * i] == vs[i].kind
      ensures Tells(vs[i], ws[at + 2 * i + 1], start, atBase, FirstArgument(argv))
    {
      assert done[i].kind == vs[i].kind && ws[at + 2 * i] == done[i].kind;
    }
  }

  lemma NothingAdjustedIff(vs: seq<Vector>, start: Statement, atBase: nat, execfn: nat)
    requires start.Start?
    ensures AllAdjusted(vs, start, atBase, execfn) == vs
       <==> forall i :: 0 <= i < |vs| ==> Adjusted(vs[i], start, atBase, execfn) == vs[i]
  {
    hide AllAdjusted, Adjusted;
    var done := AllAdjusted(vs, start, atBase, execfn);
    forall i | 0 <= i < |vs| ensures done[i] == Adjusted(vs[i], start, atBase, execfn) {}
  }

  /** What the loop reads. */
  lemma LoopEnds(ws: seq<nat>, argv: seq<nat>, envp: seq<nat>, vs: seq<Vector>, above: seq<nat>)
    requires ws == Stack(argv, envp, vs, above) && vs != [] && NoNull(vs[1..])
    ensures var at := VectorsAt(argv, envp);
            && (forall i :: 0 <= i < |vs| ==> ws[at + 2 * i] == vs[i].kind && ws[at + 2 * i + 1] == vs[i].value)
            && (forall i :: 1 <= i < |vs| ==> ws[at + 2 * i] != AT_NULL)
            && ws[at + 2 * |vs|] == AT_NULL
  {
    hide Front, Flat, End, Stack;
    StackVectors(argv, envp, vs, above);
    StackEnd(argv, envp, vs, above);
    var at := VectorsAt(argv, envp);
    forall i | 1 <= i < |vs| ensures ws[at + 2 * i] != AT_NULL {
      assert vs[i] == vs[1..][i - 1];
      assert ws[at + 2 * i] == vs[i].kind;
    }
  }

  lemma SameStack(after: seq<nat>, before: seq<nat>, argv: seq<nat>, envp: seq<nat>, vs: seq<Vector>, vs': seq<Vector>, above: seq<nat>)
    requires before == Stack(argv, envp, vs, above) && |after| == |before| && |vs| == |vs'|
    requires var at := VectorsAt(argv, envp);
             && (forall k :: 0 <= k < |after| && !(at <= k < at + 2 * |vs|) ==> after[k] == before[k])
             && forall j :: 0 <= j < |vs| ==> after[at + 2 * j] == vs'[j].kind && after[at + 2 * j + 1] == vs'[j].value
    ensures after == Stack(argv, envp, vs', above)
  {
    hide Front, Flat, End, Stack;
    var at := VectorsAt(argv, envp);
    var ws := Stack(argv, envp, vs', above);
    StackFront(argv, envp, vs, above);
    StackFront(argv, envp, vs', above);
    StackVectors(argv, envp, vs', above);
    StackEnd(argv, envp, vs, above);
    StackEnd(argv, envp, vs', above);
    forall k | 0 <= k < |after| ensures after[k] == ws[k] {
      if at <= k < at + 2 * |vs| {
        EvenOrOdd(k - at, |vs|);
        var j :| 0 <= j < |vs| && (k - at == 2 * j || k - at == 2 * j + 1);
        assert ws[at + 2 * j] == vs'[j].kind && ws[at + 2 * j + 1] == vs'[j].value;
      } else if k < at {
        assert after[k] == before[k] && before[k] == Front(argv, envp)[k] && ws[k] == Front(argv, envp)[k];
      } else {
        var end := at + 2 * |vs|;
        assert after[k] == before[k] && before[k] == End(above)[k - end] && ws[k] == End(above)[k - end];
      }
    }
  }

  lemma EvenOrOdd(n: nat, bound: nat)
    requires n < 2 * bound
    ensures exists j :: 0 <= j < bound && (n == 2 * j || n == 2 * j + 1)
  {
    assert n == 2 * (n / 2) || n == 2 * (n / 2) + 1;
  }

  /** Without vectors the terminator is taken for one, and the loop goes on above it. */
  lemma NoVectors(argv: seq<nat>, envp: seq<nat>, us: seq<Vector>, above: seq<nat>)
    ensures Stack(argv, envp, [], Flat(us) + End(above)) == Stack(argv, envp, [Vector(AT_NULL, 0)] + us, above)
  {
    var vs := [Vector(AT_NULL, 0)] + us;
    assert vs[1..] == us && vs[0].kind == AT_NULL;
    assert Flat(vs) == [AT_NULL, 0] + Flat(us);
    assert End(Flat(us) + End(above)) == Flat(vs) + End(above);
    hide Front, Flat, End;
    assert Stack(argv, envp, [], Flat(us) + End(above)) == Front(argv, envp) + (Flat(vs) + End(above)) by {
      assert Flat([]) == [];
    }
  }

  /**
   * So the loop of AdjustVectors, on a stack without vectors, meets @us from above the
   * terminator: it leaves that stack as it was exactly when nothing up there would be adjusted.
   */
  method AdjustNoVectors(ws: array<nat>, start: Statement, atBase: nat, ghost argv: seq<nat>, ghost envp: seq<nat>,
                         ghost us: seq<Vector>, ghost above: seq<nat>)
    requires start.Start? && NoNull(us) && IsEnvironment(envp)
    requires ws[..] == Stack(argv, envp, [], Flat(us) + End(above))
    modifies ws
    ensures ws[..] == old(ws[..]) <==> forall i :: 0 <= i < |us| ==> Adjusted(us[i], start, atBase, FirstArgument(argv)) == us[i]
  {
    ghost var vs := [SENTINEL] + us;
    NoVectors(argv, envp, us, above);
    assert vs[1..] == us && forall i :: 0 <= i < |us| ==> vs[i + 1] == us[i];
    hide Stack, Flat, End;
    AdjustVectors(ws, start, atBase, argv, envp, vs, above);
    assert forall i :: 1 <= i < |vs| ==> vs[i] == us[i - 1];
  }

  lemma SameStackIff(argv: seq<nat>, envp: seq<nat>, vs: seq<Vector>, vs': seq<Vector>, above: seq<nat>)
    requires |vs| == |vs'|
    ensures Stack(argv, envp, vs', above) == Stack(argv, envp, vs, above) <==> vs' == vs
  {
    hide Front, Flat, End, Stack;
    if Stack(argv, envp, vs', above) == Stack(argv, envp, vs, above) {
      StackVectors(argv, envp, vs, above);
      StackVectors(argv, envp, vs', above);
      var ws, at := Stack(argv, envp, vs, above), VectorsAt(argv, envp);
      forall i | 0 <= i < |vs| ensures vs'[i] == vs[i] {
        assert ws[at + 2 * i] == vs[i].kind && ws[at + 2 * i + 1] == vs[i].value;
        assert ws[at + 2 * i] == vs'[i].kind && ws[at + 2 * i + 1] == vs'[i].value;
      }
    }
  }

  // ----- Fetching and pushing them -----

  method AddVector(vectors: seq<Vector>, kind: nat, value: nat) returns (more: seq<Vector>)
    requires |vectors| > 0 && vectors[|vectors| - 1].kind == AT_NULL
    ensures more == vectors[..|vectors| - 1] + [Vector(kind, value), SENTINEL]
  {
    more := vectors[|vectors| - 1 := Vector(kind, value)] + [SENTINEL];
  }

  /** The vectors from @at up to their terminator; nothing if the memory ends first. */
  function Fetched(ws: seq<nat>, at: nat): Option<seq<Vector>>
    decreases |ws| - at
  {
    if at >= |ws| then None
    else if ws[at] == AT_NULL then Some([SENTINEL])
    else if at + 1 >= |ws| then None
    else After([Vector(ws[at], ws[at + 1])], Fetched(ws, at + 2))
  }

  function After(vs: seq<Vector>, rest: Option<seq<Vector>>): Option<seq<Vector>> {
    if rest.Some? then Some(vs + rest.value) else None
  }

  lemma AfterAfter(us: seq<Vector>, vs: seq<Vector>, rest: Option<seq<Vector>>)
    ensures After(us, After(vs, rest)) == After(us + vs, rest)
  {
    if rest.Some? { assert us + (vs + rest.value) == us + vs + rest.value; }
  }

  method FetchVectors(ws: array<nat>, address: nat) returns (vectors: Option<seq<Vector>>)
    ensures vectors == Fetched(ws[..], address)
  {
    var all, at := [SENTINEL], address;
    assert After([], Fetched(ws[..], address)) == Fetched(ws[..], address) by {
      if Fetched(ws[..], address).Some? { assert [] + Fetched(ws[..], address).value == Fetched(ws[..], address).value; }
    }
    assert all[..|all| - 1] == [];
    while true
      invariant |all| > 0 && all[|all| - 1] == SENTINEL
      invariant Fetched(ws[..], address) == After(all[..|all| - 1], Fetched(ws[..], at))
      decreases ws.Length - at
    {
      if at >= ws.Length { return None; }
      var kind := ws[at];
      at := at + 1;
      if kind == AT_NULL { break; }
      if at >= ws.Length { return None; }
      var value := ws[at];
      at := at + 1;
      ghost var was := all[..|all| - 1];
      AfterAfter(was, [Vector(kind, value)], Fetched(ws[..], at));
      all := AddVector(all, kind, value);
      assert all[..|all| - 1] == was + [Vector(kind, value)];
    }
    assert all == all[..|all| - 1] + [SENTINEL];
    return Some(all);
  }

  /** The vectors before the first terminator. */
  function Live(vectors: seq<Vector>): (vs: seq<Vector>)
    ensures |vs| <= |vectors| && NoNull(vs) && vs == vectors[..|vs|]
    ensures |vs| < |vectors| ==> vectors[|vs|].kind == AT_NULL
  {
    if vectors == [] || vectors[0].kind == AT_NULL then [] else [vectors[0]] + Live(vectors[1..])
  }

  /** The words that a push writes. */
  function PushedWords(vectors: seq<Vector>): (r: seq<nat>)
    ensures |r| == 2 * |Live(vectors)| + 2
  {
    Flat(Live(vectors)) + [AT_NULL, 0]
  }

  /** Push words, as far as the memory goes. */
  function Overwritten(ws: seq<nat>, at: nat, words: seq<nat>): (r: seq<nat>)
    ensures |r| == |ws|
    ensures forall k :: 0 <= k < |ws| ==> r[k] == if at <= k < at + |words| then words[k - at] else ws[k]
  {
    seq(|ws|, k requires 0 <= k < |ws| => if at <= k < at + |words| then words[k - at] else ws[k])
  }

  method PokeWord(ws: array<nat>, address: nat, word: nat) returns (ok: bool)
    modifies ws
    ensures ok == (address < ws.Length)
    ensures forall k :: 0 <= k < ws.Length ==> ws[k] == if k == address then word else old(ws[k])
  {
    ok := address < ws.Length;
    if ok { ws[address] := word; }
  }

  /** A failed push has written what came before the failure. */
  method PushVectors(ws: array<nat>, vectors: seq<Vector>, address: nat) returns (ok: bool)
    requires exists i :: 0 <= i < |vectors| && vectors[i].kind == AT_NULL
    modifies ws
    ensures ok == (address + |PushedWords(vectors)| <= ws.Length)
    ensures ws[..] == Overwritten(old(ws[..]), address, PushedWords(vectors))
  {
    hide Flat, PushedWords;
    ghost var words := PushedWords(vectors);
    ghost var n := |Live(vectors)|;
    PushedAre(vectors);
    var i, at := 0, address;
    while vectors[i].kind != AT_NULL
      invariant i <= n && at == address + 2 * i && (at <= ws.Length || i == 0)
      invariant forall k :: 0 <= k < ws.Length ==> ws[k] == if address <= k < at then words[k - address] else old(ws[k])
      decreases n - i
    {
      ok := PokeWord(ws, at, vectors[i].kind);
      if !ok { return; }
      at := at + 1;
      ok := PokeWord(ws, at, vectors[i].value);
      if !ok { return; }
      at := at + 1;
      i := i + 1;
    }
    ok := PokeWord(ws, at, AT_NULL);
    if !ok { return; }
    at := at + 1;
    ok := PokeWord(ws, at, 0);
  }

  lemma PushedAre(vectors: seq<Vector>)
    requires exists i :: 0 <= i < |vectors| && vectors[i].kind == AT_NULL
    ensures var words, n := PushedWords(vectors), |Live(vectors)|;
            && n < |vectors|
            && (forall i :: 0 <= i < n ==> vectors[i].kind != AT_NULL)
            && (forall i :: 0 <= i < n ==> words[2 * i] == vectors[i].kind && words[2 * i + 1] == vectors[i].value)
            && vectors[n].kind == AT_NULL && words[2 * n] == AT_NULL && words[2 * n + 1] == 0
  {
    hide Flat;
    var vs := Live(vectors);
    FlatIsFlat(vs);
    forall i | 0 <= i < |vs| ensures vectors[i].kind != AT_NULL && vs[i] == vectors[i] {
      assert vs[i] == vectors[i];
    }
  }

  /** Fetching finds the vectors that were pushed, terminated by the first of their terminators. */
  lemma FetchesWhatWasPushed(ws: seq<nat>, at: nat, vectors: seq<Vector>)
    requires exists i :: 0 <= i < |vectors| && vectors[i].kind == AT_NULL
    requires at + |PushedWords(vectors)| <= |ws|
    ensures Fetched(Overwritten(ws, at, PushedWords(vectors)), at) == Some(Live(vectors) + [SENTINEL])
  {
    hide Flat, PushedWords;
    PushedAre(vectors);
    var words := PushedWords(vectors);
    var ws' := Overwritten(ws, at, words);
    var vs := Live(vectors);
    forall i | 0 <= i < |vs|
      ensures ws'[at + 2 * i] == vs[i].kind && ws'[at + 2 * i + 1] == vs[i].value
    {
      assert ws'[at + 2 * i] == words[2 * i] && ws'[at + 2 * i + 1] == words[2 * i + 1];
    }
    assert ws'[at + 2 * |vs|] == words[2 * |vs|];
    FetchesVectors(ws', at, vs);
  }

  lemma {:induction false} FetchesVectors(ws: seq<nat>, at: nat, vs: seq<Vector>)
    requires at + 2 * |vs| < |ws| && NoNull(vs) && ws[at + 2 * |vs|] == AT_NULL
    requires forall i :: 0 <= i < |vs| ==> ws[at + 2 * i] == vs[i].kind && ws[at + 2 * i + 1] == vs[i].value
    ensures Fetched(ws, at) == Some(vs + [SENTINEL])
    decreases |vs|
  {
    if vs == [] {
      assert vs + [SENTINEL] == [SENTINEL];
    } else {
      assert ws[at + 2 * 0] == vs[0].kind && ws[at + 2 * 0 + 1] == vs[0].value;
      forall i | 0 <= i < |vs| - 1
        ensures ws[at + 2 + 2 * i] == vs[1..][i].kind && ws[at + 2 + 2 * i + 1] == vs[1..][i].value
      {
        assert ws[at + 2 * (i + 1)] == vs[i + 1].kind && ws[at + 2 * (i + 1) + 1] == vs[i + 1].value;
      }
      FetchesVectors(ws, at + 2, vs[1..]);
      assert vs[0].kind != AT_NULL && vs[0] == Vector(ws[at], ws[at + 1]);
      assert [vs[0]] + (vs[1..] + [SENTINEL]) == vs + [SENTINEL];
    }
  }

  /** On the initial stack, what is fetched at the address found are the vectors of the kernel. */
  lemma FetchesTheVectors(argv: seq<nat>, envp: seq<nat>, vs: seq<Vector>, above: seq<nat>)
    requires NoNull(vs)
    ensures Fetched(Stack(argv, envp, vs, above), VectorsAt(argv, envp)) == Some(vs + [SENTINEL])
  {
    hide Front, Flat, End, Stack;
    StackVectors(argv, envp, vs, above);
    StackEnd(argv, envp, vs, above);
    FetchesVectors(Stack(argv, envp, vs, above), VectorsAt(argv, envp), vs);
  }
}
