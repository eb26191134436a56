/**
 * The loader: it decodes the load script from its own memory and carries it out. Its run
 * on a transferred script loads the program and its interpreter as the gABI asks.
 */
module Loader {
  import opened MachineWords
  import opened ProcessMemory
  import opened ElfMapping
  import opened LoadScript
  import opened Wrappers

  // ----- Clearing memory -----

  /** What clear(start, end) really clears: the whole word when both lie in one, start misaligned. */
  function ClearLow(start: nat, end: nat, width: nat): nat
    requires width > 0
  {
    if WordCeil(start, width) <= WordFloor(end, width) then start else WordFloor(end, width)
  }

  function ClearHigh(start: nat, end: nat, width: nat): nat
    requires width > 0
  {
    if WordCeil(start, width) <= WordFloor(end, width) then end else WordCeil(start, width)
  }

  function WordFloor(x: nat, width: nat): nat
    requires width > 0
  {
    PageFloor(x, width)
  }

  function WordCeil(x: nat, width: nat): nat
    requires width > 0
  {
    if Aligned(x, width) then x else WordFloor(x, width) + width
  }

  method ClearBytes(mem: Memory, start: nat, end: nat) returns (cleared: Memory)
    ensures cleared == Zeroed(mem, start, end)
  {
    cleared := mem;
    var a := start;
    ZeroedNothing(mem, start, start);
    while a < end
      invariant start <= a && (a <= end || a == start)
      invariant cleared == Zeroed(mem, start, a)
    {
      ZeroedByte(mem, start, a);
      cleared, a := cleared[a := 0], a + 1;
    }
    if end < start { ZeroedNothing(mem, start, end); }
  }

  method ClearWords(mem: Memory, start: nat, end: nat, width: nat) returns (cleared: Memory)
    requires width > 0 && Aligned(start, width) && Aligned(end, width)
    ensures cleared == Zeroed(mem, start, end)
  {
    cleared := mem;
    var a := start;
    ghost var stop := if start <= end then end else start;
    ZeroedNothing(mem, start, stop);
    while a < end
      invariant start <= a <= stop && Aligned(a, width)
      invariant cleared == if start < stop then Zeroed(mem, start, a) else mem
    {
      NextWord(a, end, width);
      ZeroedWord(mem, start, a, width);
      cleared, a := Zeroed(cleared, a, a + width), a + width;
    }
    if end < start { ZeroedNothing(mem, start, end); }
  }

  lemma ZeroedNothing(mem: Memory, lo: nat, hi: nat)
    ensures Zeroed(mem, lo, lo) == mem
    ensures hi <= lo ==> Zeroed(mem, lo, hi) == mem
  {}

  lemma ZeroedByte(mem: Memory, lo: nat, a: nat)
    requires lo <= a
    ensures Zeroed(mem, lo, a)[a := 0] == Zeroed(mem, lo, a + 1)
  {}

  lemma ZeroedWord(mem: Memory, lo: nat, a: nat, width: nat)
    requires lo <= a
    ensures Zeroed(Zeroed(mem, lo, a), a, a + width) == Zeroed(mem, lo, a + width)
  {}

  lemma ZeroedJoins(mem: Memory, a: nat, b: nat, c: nat, d: nat)
    requires a <= b && c <= b && (c < d ==> a <= d)
    ensures Zeroed(Zeroed(mem, a, b), c, d)
         == Zeroed(mem, if c < d && c < a then c else a, if c < d && d > b then d else b)
  {
    ZeroedEquals(Zeroed(mem, a, b), c, d, mem, if c < d && c < a then c else a, if c < d && d > b then d else b);
  }

  lemma ZeroedEquals(mem: Memory, lo: nat, hi: nat, mem': Memory, lo': nat, hi': nat)
    requires forall x: nat :: (x in mem || lo <= x < hi) <==> (x in mem' || lo' <= x < hi')
    requires forall x: nat :: (if x in mem && !(lo <= x < hi) then mem[x] else 0)
                           == (if x in mem' && !(lo' <= x < hi') then mem'[x] else 0)
    ensures Zeroed(mem, lo, hi) == Zeroed(mem', lo', hi')
  {}

  /** The leading misaligned bytes, the whole words, and the trailing misaligned bytes. */
  method Clear(mem: Memory, start: nat, end: nat, width: nat) returns (cleared: Memory)
    requires width > 0 && start <= end
    ensures cleared == Zeroed(mem, ClearLow(start, end, width), ClearHigh(start, end, width))
  {
    SameWord(start, end, width);
    var startAligned, endAligned := WordCeil(start, width), WordFloor(end, width);
    cleared := ClearBytes(mem, start, startAligned);
    FloorIsAligned(end, width);
    cleared := ClearWords(cleared, startAligned, endAligned, width);
    ZeroedJoins(mem, start, startAligned, startAligned, endAligned);
    cleared := ClearBytes(cleared, endAligned, end);
    ZeroedJoins(mem, start, if startAligned < endAligned then endAligned else startAligned, endAligned, end);
  }

  lemma NextWord(a: nat, end: nat, width: nat)
    requires width > 0 && Aligned(a, width) && Aligned(end, width) && a < end
    ensures a + width <= end && Aligned(a + width, width)
  {
    FloorOfSum(a, width, width);
    FloorOfSum(a, end - a, width);
  }

  lemma SameWord(start: nat, end: nat, width: nat)
    requires width > 0 && start <= end
    ensures Aligned(WordCeil(start, width), width) && start <= WordCeil(start, width)
    ensures WordFloor(start, width) <= WordFloor(end, width) <= end
    ensures WordCeil(start, width) > WordFloor(end, width) ==> WordFloor(end, width) < start && end <= WordCeil(start, width)
  {
    FloorIsMonotone(start, end, width);
    FloorIsAligned(start, width);
    FloorOfSum(WordFloor(start, width), width, width);
    FloorIsAligned(end, width);
    if WordCeil(start, width) > WordFloor(end, width) && !Aligned(start, width) {
      FloorOfSum(WordFloor(start, width), WordFloor(end, width) - WordFloor(start, width), width);
    }
  }

  /**
   * clear() clears exactly [start, end) unless start is misaligned and end lies in the same
   * word; a word-aligned end above start, as the mappings have, excludes that.
   */
  lemma ClearIsExact(start: nat, end: nat, width: nat)
    requires width > 0 && start <= end
    ensures (ClearLow(start, end, width) == start && ClearHigh(start, end, width) == end)
       <==> (Aligned(start, width) || WordFloor(start, width) < WordFloor(end, width))
    ensures Aligned(end, width) && start < end ==>
              ClearLow(start, end, width) == start && ClearHigh(start, end, width) == end
  {
    SameWord(start, end, width);
    FloorIsAligned(end, width);
    FloorOfSum(WordFloor(start, width), WordFloor(end, width) - WordFloor(start, width), width);
  }

  // ----- Statements carried out -----

  type Positive = n: nat | n > 0 witness 1

  /** What the loader runs on: the files it can open, the page size and the word size. */
  datatype Platform = Platform(files: map<seq<Byte>, seq<Byte>>, page: Positive, width: Positive)

  /** The memory and the variables of the loader; fd is the content of the open file. */
  datatype Machine = Machine(mem: Memory, fd: Option<seq<Byte>>, openFiles: int, atBase: nat, resetAtBase: bool)

  /** Failed stands for an early exit and for a fault. */
  datatype Outcome = Failed | Running(m: Machine) | Started(m: Machine, start: Statement)

  /** The C string at an address. */
  function ReadString(mem: Memory, at: nat): Option<seq<Byte>>
    decreases WORD_LIMIT - at
  {
    if at !in mem || at >= WORD_LIMIT then None
    else if mem[at] == 0 then Some([])
    else match ReadString(mem, at + 1)
      case None => None
      case Some(rest) => Some([mem[at]] + rest)
  }

  function OpenFile(path: nat, m: Machine, k: Platform): Outcome {
    match ReadString(m.mem, path)
    case None => Failed
    case Some(name) =>
      if name !in k.files then Failed
      else Running(m.(fd := Some(k.files[name]), openFiles := m.openFiles + 1, resetAtBase := true))
  }

  function Cleared(mem: Memory, mapping: Mapping, width: Positive): Memory
    requires mapping.clearLength <= mapping.length
  {
    var start, end := mapping.addr + mapping.length - mapping.clearLength, mapping.addr + mapping.length;
    if mapping.clearLength == 0 then mem else Zeroed(mem, ClearLow(start, end, width), ClearHigh(start, end, width))
  }

  function FileInPlace(mem: Memory, mapping: Mapping, file: seq<Byte>, page: Positive): Memory {
    FileMapped(mem, mapping.addr, mapping.addr + mapping.length, file, mapping.offset, Reach(|file|, page))
  }

  predicate Accessible(mem: Memory, lo: nat, hi: nat) { forall a :: lo <= a < hi ==> a in mem }

  /** clear() writes where it may: to addresses that are mapped, and that the file reaches. */
  predicate CanClear(mem: Memory, mapping: Mapping, width: Positive)
    requires mapping.clearLength <= mapping.length
  {
    var start, end := mapping.addr + mapping.length - mapping.clearLength, mapping.addr + mapping.length;
    mapping.clearLength > 0 ==>
      && mapping.prot.write
      && Accessible(mem, ClearLow(start, end, width), ClearHigh(start, end, width))
  }

  /** A mapping of the open file, its tail cleared; nothing if that faults. */
  function FileLoaded(mem: Memory, mapping: Mapping, file: seq<Byte>, k: Platform): Option<Memory>
    requires mapping.clearLength <= mapping.length
  {
    var mapped := FileInPlace(mem, mapping, file, k.page);
    if CanClear(mapped, mapping, k.width) then Some(Cleared(mapped, mapping, k.width)) else None
  }

  function Exec(s: Statement, m: Machine, k: Platform): Outcome {
    match s
    case Open(next, path) =>
      if next && m.fd.None? then Failed
      else OpenFile(path, if next then m.(fd := None, openFiles := m.openFiles - 1) else m, k)
    case Mmap(mapping) =>
      if !Acceptable(mapping, k.page) || (!mapping.anonymous && m.fd.None?) then Failed
      else if mapping.anonymous then
        Running(m.(mem := Zeroed(m.mem, mapping.addr, mapping.addr + mapping.length)))
      else
        var mem := FileLoaded(m.mem, mapping, m.fd.value, k);
        if mem.None? then Failed
        else Running(m.(mem := mem.value, atBase := if m.resetAtBase then mapping.addr else m.atBase, resetAtBase := false))
    case MakeStackExec(_) => Running(m)
    case Start(_, _, _, _, _, _, _, _) =>
      if m.fd.None? then Failed else Started(m.(fd := None, openFiles := m.openFiles - 1), s)
  }

  function ExecAll(script: seq<Statement>, m: Machine, k: Platform): Outcome {
    if script == [] then Running(m)
    else match Exec(script[0], m, k)
      case Running(m1) => ExecAll(script[1..], m1, k)
      case other => other
  }

  // ----- Decoding -----

  predicate WordsMapped(mem: Memory, at: nat, n: nat, width: Positive)
    decreases n
  {
    n == 0 || (Mapped(mem, at, width) && WordsMapped(mem, at + width, n - 1, width))
  }

  function ReadWords(mem: Memory, at: nat, n: nat, width: Positive): (ws: seq<nat>)
    requires WordsMapped(mem, at, n, width)
    ensures |ws| == n
    decreases n
  {
    if n == 0 then [] else [ReadWord(mem, at, width)] + ReadWords(mem, at + width, n - 1, width)
  }

  function Size(arity: nat, width: Positive): (bytes: nat)
    ensures bytes >= width
  {
    width + arity * width
  }

  /** The words of the statement at the cursor. */
  function Fetch(mem: Memory, cursor: nat, width: Positive): (r: Option<seq<nat>>)
    ensures r.Some? ==> |r.value| > 0 && Arity(r.value[0]) == Some(|r.value| - 1)
  {
    if !Mapped(mem, cursor, width) then None
    else
      var action := ReadWord(mem, cursor, width);
      var arity := Arity(action);
      if arity.None? || !WordsMapped(mem, cursor + width, arity.value, width) then None
      else Some([action] + ReadWords(mem, cursor + width, arity.value, width))
  }

  function Decode(mem: Memory, cursor: nat, width: Positive): Option<Statement> {
    match Fetch(mem, cursor, width)
    case None => None
    case Some(ws) => Some(Parse(ws[0], ws[1..]))
  }

  function ArgCount(s: Statement): nat { |Words(s)| - 1 }

  function Turn(m: Machine, cursor: nat, k: Platform): (r: (Outcome, nat))
    ensures r.0.Running? ==> r.1 > cursor
  {
    match Decode(m.mem, cursor, k.width)
    case None => (Failed, cursor)
    case Some(s) => (Exec(s, m, k), cursor + Size(ArgCount(s), k.width))
  }

  /** The interpreter: decode, carry out, move to the next statement. */
  function Interpret(m: Machine, cursor: nat, k: Platform): Outcome
    decreases WORD_LIMIT - cursor
  {
    if cursor >= WORD_LIMIT then Failed
    else
      var (o, next) := Turn(m, cursor, k);
      if o.Running? then Interpret(o.m, next, k) else o
  }

  method LoadFile(mem: Memory, mapping: Mapping, file: seq<Byte>, k: Platform) returns (loaded: Option<Memory>)
    requires mapping.clearLength <= mapping.length
    ensures loaded == FileLoaded(mem, mapping, file, k)
  {
    hide FileInPlace, Zeroed, ClearLow, ClearHigh, Accessible;
    var mapped := FileInPlace(mem, mapping, file, k.page);
    if mapping.clearLength != 0 {
      if !CanClear(mapped, mapping, k.width) { return None; }
      var end := mapping.addr + mapping.length;
      mapped := Clear(mapped, end - mapping.clearLength, end, k.width);
    }
    loaded := Some(mapped);
  }

  method RunMmap(mapping: Mapping, m: Machine, k: Platform) returns (o: Outcome)
    ensures o == Exec(Mmap(mapping), m, k)
  {
    if !Acceptable(mapping, k.page) || (!mapping.anonymous && m.fd.None?) { return Failed; }
    if mapping.anonymous {
      o := Running(m.(mem := Zeroed(m.mem, mapping.addr, mapping.addr + mapping.length)));
    } else {
      var mem := LoadFile(m.mem, mapping, m.fd.value, k);
      if mem.None? { return Failed; }
      var atBase, resetAtBase := m.atBase, m.resetAtBase;
      if resetAtBase {
        atBase, resetAtBase := mapping.addr, false;
      }
      o := Running(m.(mem := mem.value, atBase := atBase, resetAtBase := resetAtBase));
    }
  }

  /** One turn of the switch. */
  method RunStatement(stmt: Statement, m: Machine, k: Platform) returns (o: Outcome)
    ensures o == Exec(stmt, m, k)
  {
    match stmt {
      case Open(next, path) =>
        var closed := m;
        if next {
          if m.fd.None? { return Failed; }
          closed := m.(fd := None, openFiles := m.openFiles - 1);
        }
        o := OpenFile(path, closed, k);
      case Mmap(mapping) =>
        o := RunMmap(mapping, m, k);
      case MakeStackExec(_) =>
        o := Running(m);
      case Start(_, _, _, _, _, _, _, _) =>
        if m.fd.None? { return Failed; }
        o := Started(m.(fd := None, openFiles := m.openFiles - 1), stmt);
    }
  }

  method RunTurn(m: Machine, cursor: nat, k: Platform) returns (o: Outcome, next: nat)
    ensures (o, next) == Turn(m, cursor, k)
  {
    var stmt := Decode(m.mem, cursor, k.width);
    if stmt.None? { return Failed, cursor; }
    o := RunStatement(stmt.value, m, k);
    next := cursor + Size(ArgCount(stmt.value), k.width);
  }

  /** The loop over the load script. */
  method RunScript(m: Machine, cursor: nat, k: Platform) returns (o: Outcome)
    ensures o == Interpret(m, cursor, k)
  {
    var at := cursor;
    o := Running(m);
    while o.Running? && at < WORD_LIMIT
      invariant Interpret(m, cursor, k) == if o.Running? then Interpret(o.m, at, k) else o
    {
      o, at := RunTurn(o.m, at, k);
    }
    if o.Running? { o := Failed; }
  }
}
