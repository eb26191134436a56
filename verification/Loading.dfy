/**
 * A load script written by the tracer and carried out by the loader puts the program and
 * its interpreter in memory as the gABI asks.
 */
module Loading {
  import opened MachineWords
  import opened ProcessMemory
  import opened ElfMapping
  import opened LoadScript
  import opened Wrappers
  import opened Loader

  // ----- Statements -----

  lemma {:induction false} AlignedDivides(x: nat, page: Positive, width: Positive)
    requires Aligned(x, page) && Aligned(page, width)
    ensures Aligned(x, width)
  {
    if x >= page {
      AlignedDivides(x - page, page, width);
      FloorOfSum(page, x - page, width);
    }
  }

  lemma ClearedIsExact(mem: Memory, mapping: Mapping, k: Platform)
    requires Tidy(mapping, k.page) && Aligned(k.page, k.width)
    ensures Cleared(mem, mapping, k.width) == TailCleared(mem, mapping)
  {
    var end := mapping.addr + mapping.length;
    AlignedDivides(end, k.page, k.width);
    if mapping.clearLength > 0 { ClearIsExact(end - mapping.clearLength, end, k.width); }
  }

  /** On whole pages, what is cleared can be written if and only if the mapping is clearable. */
  lemma CanClearIff(mem: Memory, mapping: Mapping, file: seq<Byte>, k: Platform)
    requires Tidy(mapping, k.page) && Aligned(k.page, k.width)
    ensures CanClear(FileInPlace(mem, mapping, file, k.page), mapping, k.width) <==> Clearable(mapping, |file|, k.page)
  {
    var end := mapping.addr + mapping.length;
    AlignedDivides(end, k.page, k.width);
    if mapping.clearLength > 0 {
      ClearIsExact(end - mapping.clearLength, end, k.width);
      hide ClearLow, ClearHigh, Reach, FileMapped, Aligned;
      var mapped := FileInPlace(mem, mapping, file, k.page);
      assert end - 1 in mapped <==> mapping.offset + mapping.length <= Reach(|file|, k.page);
    }
  }

  /** On whole pages the loader's clearing is exact, and faults if and only if the mapping is not clearable. */
  lemma FileLoadedIsApply(mem: Memory, mapping: Mapping, file: seq<Byte>, k: Platform)
    requires Tidy(mapping, k.page) && !mapping.anonymous && Aligned(k.page, k.width)
    ensures FileLoaded(mem, mapping, file, k)
         == if Clearable(mapping, |file|, k.page) then Some(Apply(mem, mapping, file, k.page)) else None
  {
    hide Cleared, TailCleared, FileMapped, Aligned, CanClear, Clearable;
    var mapped := FileInPlace(mem, mapping, file, k.page);
    CanClearIff(mem, mapping, file, k);
    assert Cleared(mapped, mapping, k.width) == TailCleared(mapped, mapping) by { ClearedIsExact(mapped, mapping, k); }
  }

  lemma ExecMmap(mapping: Mapping, m: Machine, k: Platform)
    requires Tidy(mapping, k.page) && Aligned(k.page, k.width) && m.fd.Some?
    ensures Exec(Mmap(mapping), m, k)
         == if mapping.anonymous || Clearable(mapping, |m.fd.value|, k.page)
            then Running(m.(mem := Apply(m.mem, mapping, m.fd.value, k.page),
                            atBase := if m.resetAtBase && !mapping.anonymous then mapping.addr else m.atBase,
                            resetAtBase := m.resetAtBase && mapping.anonymous))
            else Failed
  {
    hide Clearable, Apply, FileLoaded;
    AnonymousIsZeroed(m.mem, mapping, m.fd.value, k.page);
    if !mapping.anonymous { FileLoadedIsApply(m.mem, mapping, m.fd.value, k); }
  }

  lemma AnonymousIsZeroed(mem: Memory, mapping: Mapping, file: seq<Byte>, page: Positive)
    ensures mapping.anonymous ==> Apply(mem, mapping, file, page) == Zeroed(mem, mapping.addr, mapping.addr + mapping.length)
  {}

  lemma {:induction false} ExecAllConcat(a: seq<Statement>, b: seq<Statement>, m: Machine, k: Platform)
    ensures ExecAll(a + b, m, k)
         == match ExecAll(a, m, k) case Running(m1) => ExecAll(b, m1, k) case other => other
  {
    if a == [] {
      assert a + b == b;
    } else {
      assert (a + b)[1..] == a[1..] + b;
      var o := Exec(a[0], m, k);
      if o.Running? { ExecAllConcat(a[1..], b, o.m, k); }
    }
  }

  lemma ApplyFirst(mem: Memory, ms: seq<Mapping>, file: seq<Byte>, page: Positive)
    requires ms != []
    ensures ApplyAll(Apply(mem, ms[0], file, page), ms[1..], file, page) == ApplyAll(mem, ms, file, page)
  {
    ApplyAllConcat(mem, [ms[0]], ms[1..], file, page);
    ApplyAllOne(mem, ms[0], file, page);
    assert ms == [ms[0]] + ms[1..];
  }

  lemma ClearableFirst(ms: seq<Mapping>, size: nat, page: Positive)
    requires ms != []
    ensures AllClearable(ms, size, page)
       <==> (ms[0].anonymous || Clearable(ms[0], size, page)) && AllClearable(ms[1..], size, page)
  {
    hide Clearable;
    assert forall m <- ms :: m == ms[0] || m in ms[1..];
  }

  /** Once the base is known, mappings change nothing but memory, or one of them faults. */
  lemma {:induction false} MmapsRun(ms: seq<Mapping>, m: Machine, k: Platform)
    requires forall x <- ms :: Tidy(x, k.page)
    requires Aligned(k.page, k.width) && m.fd.Some? && !m.resetAtBase
    ensures ExecAll(MmapStatements(ms), m, k)
         == if AllClearable(ms, |m.fd.value|, k.page) then Running(m.(mem := ApplyAll(m.mem, ms, m.fd.value, k.page))) else Failed
  {
    if ms != [] {
      hide AllClearable, Clearable, Apply, ApplyAll, Exec, Tidy;
      ExecMmap(ms[0], m, k);
      ClearableFirst(ms, |m.fd.value|, k.page);
      var m1 := m.(mem := Apply(m.mem, ms[0], m.fd.value, k.page));
      MmapsRun(ms[1..], m1, k);
      ApplyFirst(m.mem, ms, m.fd.value, k.page);
      assert MmapStatements(ms)[1..] == MmapStatements(ms[1..]);
    }
  }

  function AfterObject(m: Machine, next: bool, file: seq<Byte>, ms: seq<Mapping>, page: Positive): Machine
    requires ms != []
  {
    Machine(ApplyAll(m.mem, ms, file, page), Some(file), if next then m.openFiles else m.openFiles + 1, ms[0].addr, false)
  }

  /** One object: its file is open afterwards, and its first mapping is the base; or it cannot be cleared. */
  lemma ObjectRuns(next: bool, path: nat, name: seq<Byte>, ms: seq<Mapping>, m: Machine, k: Platform)
    requires ms != [] && !ms[0].anonymous && (forall x <- ms :: Tidy(x, k.page)) && Aligned(k.page, k.width)
    requires next ==> m.fd.Some?
    requires ReadString(m.mem, path) == Some(name) && name in k.files
    ensures ExecAll([Open(next, path)] + MmapStatements(ms), m, k)
         == if AllClearable(ms, |k.files[name]|, k.page) then Running(AfterObject(m, next, k.files[name], ms, k.page))
            else Failed
  {
    hide ApplyAll, Apply, ExecAll, MmapStatements, ReadString, AllClearable, Clearable;
    var file := k.files[name];
    var m1 := Machine(m.mem, Some(file), if next then m.openFiles else m.openFiles + 1, m.atBase, true);
    assert Exec(Open(next, path), m, k) == Running(m1);
    hide Exec;
    ExecMmap(ms[0], m1, k);
    ClearableFirst(ms, |file|, k.page);
    var m2 := m1.(mem := Apply(m1.mem, ms[0], file, k.page), atBase := ms[0].addr, resetAtBase := false);
    MmapsRun(ms[1..], m2, k);
    ApplyFirst(m.mem, ms, file, k.page);
    OpenThenMmaps(Open(next, path), ms, m, m1, k);
  }

  lemma OpenThenMmaps(open: Statement, ms: seq<Mapping>, m: Machine, m1: Machine, k: Platform)
    requires ms != [] && Exec(open, m, k) == Running(m1)
    ensures ExecAll([open] + MmapStatements(ms), m, k)
         == match Exec(Mmap(ms[0]), m1, k)
            case Running(m2) => ExecAll(MmapStatements(ms[1..]), m2, k)
            case other => other
  {
    assert ([open] + MmapStatements(ms))[1..] == MmapStatements(ms);
    assert MmapStatements(ms)[1..] == MmapStatements(ms[1..]);
  }

  // ----- The interpreter follows the script -----

  predicate Fit(ws: seq<nat>, width: Positive) {
    forall i :: 0 <= i < |ws| ==> ws[i] < Pow256(width)
  }

  lemma FitParts(a: seq<nat>, b: seq<nat>, width: Positive)
    requires Fit(a + b, width)
    ensures Fit(a, width) && Fit(b, width)
  {
    forall i | 0 <= i < |a| ensures a[i] < Pow256(width) { assert (a + b)[i] == a[i]; }
    forall i | 0 <= i < |b| ensures b[i] < Pow256(width) { assert (a + b)[|a| + i] == b[i]; }
  }

  lemma HoldsParts(mem: Memory, at: nat, a: seq<Byte>, b: seq<Byte>)
    requires Holds(mem, at, a + b)
    ensures Holds(mem, at, a) && Holds(mem, at + |a|, b)
  {
    forall x | at <= x < at + |a| ensures x in mem && mem[x] == a[x - at] {
      assert (a + b)[x - at] == a[x - at];
    }
    forall x | at + |a| <= x < at + |a| + |b| ensures x in mem && mem[x] == b[x - at - |a|] {
      assert (a + b)[x - at] == b[x - at - |a|];
    }
  }

  lemma {:induction false} ReadEncodedWords(mem: Memory, at: nat, ws: seq<nat>, width: Positive)
    requires Holds(mem, at, EncodeWords(ws, width)) && Fit(ws, width)
    ensures WordsMapped(mem, at, |ws|, width) && ReadWords(mem, at, |ws|, width) == ws
    decreases |ws|
  {
    hide Holds, Fit, EncodeWords, ReadWord, Mapped;
    if ws != [] {
      HeadAndTail(ws);
      FirstWord(mem, at, ws, width);
      ReadEncodedWords(mem, at + width, ws[1..], width);
    }
  }

  lemma FirstWord(mem: Memory, at: nat, ws: seq<nat>, width: Positive)
    requires ws != [] && Holds(mem, at, EncodeWords(ws, width)) && Fit(ws, width)
    ensures Mapped(mem, at, width) && ReadWord(mem, at, width) == ws[0]
    ensures Holds(mem, at + width, EncodeWords(ws[1..], width)) && Fit(ws[1..], width)
  {
    hide Holds, Encode, ReadWord, Mapped, Pow256;
    HoldsParts(mem, at, Encode(ws[0], width), EncodeWords(ws[1..], width));
    ReadOneWord(mem, at, ws[0], width);
  }

  lemma ReadOneWord(mem: Memory, at: nat, w: nat, width: Positive)
    requires Holds(mem, at, Encode(w, width)) && w < Pow256(width)
    ensures Mapped(mem, at, width) && ReadWord(mem, at, width) == w
  {
    ReadEncoded(mem, at, w, width);
    SmallModulo(w, Pow256(width));
  }

  lemma SmallModulo(x: nat, m: nat)
    requires x < m
    ensures x % m == x
  {}

  lemma FetchWords(mem: Memory, at: nat, ws: seq<nat>, width: Positive)
    requires ws != [] && Holds(mem, at, EncodeWords(ws, width)) && Fit(ws, width)
    requires Arity(ws[0]) == Some(|ws| - 1)
    ensures Fetch(mem, at, width) == Some(ws)
  {
    hide Holds, Fit, EncodeWords, ReadWord, ReadWords, Mapped, WordsMapped;
    FirstWord(mem, at, ws, width);
    ReadEncodedWords(mem, at + width, ws[1..], width);
    HeadAndTail(ws);
  }

  lemma HeadAndTail<T>(ws: seq<T>)
    requires ws != []
    ensures [ws[0]] + ws[1..] == ws
  {}

  lemma StatementSize(s: Statement, width: Positive)
    ensures |EncodeWords(Words(s), width)| == Size(ArgCount(s), width)
  {
    Distribute(width, 1, ArgCount(s));
  }

  lemma Distribute(width: Positive, a: nat, b: nat)
    ensures width * (a + b) == width * a + b * width
  {}

  /** One turn of the loader's loop on an encoded statement carries that statement out. */
  lemma TurnOnStatement(s: Statement, m: Machine, cursor: nat, k: Platform)
    requires Holds(m.mem, cursor, EncodeWords(Words(s), k.width)) && Fit(Words(s), k.width)
    ensures Turn(m, cursor, k) == (Exec(s, m, k), cursor + |EncodeWords(Words(s), k.width)|)
  {
    hide Holds, Fit, EncodeWords, Exec, Words, Fetch, Parse, Arity, Size;
    ParseWords(s);
    FetchWords(m.mem, cursor, Words(s), k.width);
    StatementSize(s, k.width);
    assert Decode(m.mem, cursor, k.width) == Some(s);
  }

  predicate Spares(s: Statement, lo: nat, hi: nat, k: Platform) {
    s.Mmap? ==> Tidy(s.mapping, k.page) && Misses(s.mapping, lo, hi)
  }

  predicate AllSpare(script: seq<Statement>, lo: nat, hi: nat, k: Platform) {
    script == [] || (!script[0].Start? && Spares(script[0], lo, hi, k) && AllSpare(script[1..], lo, hi, k))
  }

  lemma ExecSpares(s: Statement, m: Machine, k: Platform, lo: nat, hi: nat, bytes: seq<Byte>)
    requires Spares(s, lo, hi, k) && Aligned(k.page, k.width) && Exec(s, m, k).Running?
    requires lo + |bytes| == hi && Holds(m.mem, lo, bytes)
    ensures Holds(Exec(s, m, k).m.mem, lo, bytes)
  {
    if s.Mmap? && !s.mapping.anonymous { FileLoadedIsApply(m.mem, s.mapping, m.fd.value, k); }
  }

  /** Statements that leave [lo, hi) alone, then a start. */
  predicate IsScript(script: seq<Statement>, lo: nat, hi: nat, k: Platform) {
    script != [] && script[|script| - 1].Start? && AllSpare(script[..|script| - 1], lo, hi, k)
  }

  function Bytes(script: seq<Statement>, width: Positive): seq<Byte> {
    EncodeWords(ScriptWords(script), width)
  }

  /** What it takes for the loader to find a script at an address, and to keep it. */
  ghost predicate InPlace(script: seq<Statement>, mem: Memory, at: nat, k: Platform) {
    && IsScript(script, at, at + |Bytes(script, k.width)|, k) && Aligned(k.page, k.width)
    && Holds(mem, at, Bytes(script, k.width)) && Fit(ScriptWords(script), k.width)
    && at + |Bytes(script, k.width)| < WORD_LIMIT
  }

  lemma FirstStatement(script: seq<Statement>, mem: Memory, at: nat, k: Platform)
    requires InPlace(script, mem, at, k)
    ensures Holds(mem, at, EncodeWords(Words(script[0]), k.width)) && Fit(Words(script[0]), k.width)
    ensures var next := at + |EncodeWords(Words(script[0]), k.width)|;
            (|script| > 1 ==> InPlace(script[1..], mem, next, k)) && next < WORD_LIMIT
  {
    var s, rest := script[0], script[1..];
    BytesOfStatement(script, k.width);
    HoldsParts(mem, at, EncodeWords(Words(s), k.width), Bytes(rest, k.width));
    FitParts(Words(s), ScriptWords(rest), k.width);
    if |script| > 1 { RestSpares(script, at, at + |EncodeWords(Words(s), k.width)|, at + |Bytes(script, k.width)|, k); }
  }

  lemma BytesOfStatement(script: seq<Statement>, width: Positive)
    requires script != []
    ensures Bytes(script, width) == EncodeWords(Words(script[0]), width) + Bytes(script[1..], width)
  {
    EncodeWordsConcat(Words(script[0]), ScriptWords(script[1..]), width);
  }

  lemma RestSpares(script: seq<Statement>, at: nat, next: nat, end: nat, k: Platform)
    requires |script| > 1 && at <= next && IsScript(script, at, end, k)
    ensures IsScript(script[1..], next, end, k)
  {
    var n := |script| - 1;
    assert script[1..][..n - 1] == script[..n][1..];
    SparesLess(script[..n][1..], at, end, next, end, k);
  }

  lemma {:induction false} SparesLess(script: seq<Statement>, lo: nat, hi: nat, lo': nat, hi': nat, k: Platform)
    requires lo <= lo' && hi' <= hi && AllSpare(script, lo, hi, k)
    ensures AllSpare(script, lo', hi', k)
  {
    if script != [] { SparesLess(script[1..], lo, hi, lo', hi', k); }
  }

  lemma StaysInPlace(script: seq<Statement>, s: Statement, m: Machine, lo: nat, at: nat, k: Platform)
    requires InPlace(script, m.mem, at, k) && lo <= at
    requires Spares(s, lo, at + |Bytes(script, k.width)|, k) && Exec(s, m, k).Running?
    ensures InPlace(script, Exec(s, m, k).m.mem, at, k)
  {
    ExecSpares(s, m, k, at, at + |Bytes(script, k.width)|, Bytes(script, k.width));
  }

  /**
   * The loader does what the script says, provided the script is in memory, its words fit
   * the loader's and no mapping falls on it.
   */
  lemma {:induction false} InterpretFollows(script: seq<Statement>, m: Machine, cursor: nat, k: Platform)
    requires script != [] && cursor < WORD_LIMIT && InPlace(script, m.mem, cursor, k)
    ensures Interpret(m, cursor, k) == ExecAll(script, m, k)
  {
    hide InPlace, Turn, Exec, EncodeWords, Words, Bytes, Holds, Fit;
    FirstStatement(script, m.mem, cursor, k);
    TurnOnStatement(script[0], m, cursor, k);
    var o := Exec(script[0], m, k);
    if o.Running? {
      var rest, next := script[1..], cursor + |EncodeWords(Words(script[0]), k.width)|;
      RestStaysInPlace(script, m, cursor, next, k);
      InterpretFollows(rest, o.m, next, k);
    }
  }

  lemma StartEnds(s: Statement, m: Machine, k: Platform)
    ensures Exec(s, m, k).Running? ==> !s.Start?
  {}

  lemma RestStaysInPlace(script: seq<Statement>, m: Machine, cursor: nat, next: nat, k: Platform)
    requires script != [] && InPlace(script, m.mem, cursor, k) && Exec(script[0], m, k).Running?
    requires next == cursor + |EncodeWords(Words(script[0]), k.width)|
    ensures |script| > 1 && next < WORD_LIMIT && InPlace(script[1..], Exec(script[0], m, k).m.mem, next, k)
  {
    hide Exec, EncodeWords, Bytes, Holds, Fit, Spares;
    StartEnds(script[0], m, k);
    FirstStatement(script, m.mem, cursor, k);
    BytesOfStatement(script, k.width);
    StaysInPlace(script[1..], script[0], m, cursor, next, k);
  }
}
