/**
 * End to end: from the program headers of a program and of its interpreter, through the
 * load script below the stack pointer, to the memory both are started in.
 */
module ProgramLoading {
  import opened MachineWords
  import opened ProcessMemory
  import opened ElfMapping
  import opened LoadScript
  import opened Wrappers
  import opened Loader
  import opened Loading

  // ----- The script, carried out -----

  lemma {:induction false} MmapsSpare(ms: seq<Mapping>, lo: nat, hi: nat, k: Platform)
    requires forall m <- ms :: Tidy(m, k.page) && Misses(m, lo, hi)
    ensures AllSpare(MmapStatements(ms), lo, hi, k)
  {
    if ms != [] {
      MmapsSpare(ms[1..], lo, hi, k);
      assert MmapStatements(ms)[1..] == MmapStatements(ms[1..]);
    }
  }

  lemma {:induction false} SpareConcat(a: seq<Statement>, b: seq<Statement>, lo: nat, hi: nat, k: Platform)
    requires AllSpare(a, lo, hi, k) && AllSpare(b, lo, hi, k)
    ensures AllSpare(a + b, lo, hi, k)
  {
    if a == [] {
      assert a + b == b;
    } else {
      assert (a + b)[1..] == a[1..] + b;
      SpareConcat(a[1..], b, lo, hi, k);
    }
  }

  lemma ObjectSpares(open: Statement, ms: seq<Mapping>, lo: nat, hi: nat, k: Platform)
    requires open.Open? && forall m <- ms :: Tidy(m, k.page) && Misses(m, lo, hi)
    ensures AllSpare([open] + MmapStatements(ms), lo, hi, k)
  {
    MmapsSpare(ms, lo, hi, k);
    SpareConcat([open], MmapStatements(ms), lo, hi, k);
  }

  /** Whole pages, away from the block, the first one of the file. */
  predicate Placed(ms: seq<Mapping>, lo: nat, hi: nat, k: Platform) {
    ms != [] && !ms[0].anonymous && forall m <- ms :: Tidy(m, k.page) && Misses(m, lo, hi)
  }

  predicate AllPlaced(p: ProgramInfo, lo: nat, hi: nat, k: Platform) {
    Placed(p.main.mappings, lo, hi, k) && (p.interp.Some? ==> Placed(p.interp.value.mappings, lo, hi, k))
  }

  function ExecStack(p: ProgramInfo, sp: nat, page: Positive): seq<Statement> {
    if NeedsExecStack(p) then [MakeStackExec(PageFloor(sp, page))] else []
  }

  function MainStatements(p: ProgramInfo, string1: nat): seq<Statement> {
    [Open(false, string1)] + MmapStatements(p.main.mappings)
  }

  lemma ScriptParts(p: ProgramInfo, sp: nat, page: Positive)
    requires StringSizes(p) <= sp && p.main.mappings != []
    ensures Script(p, sp, page)
         == MainStatements(p, StringsAddress(p, sp))
            + InterpStatements(p, StringsAddress(p, sp) + |p.main.userPath| + 1)
            + (ExecStack(p, sp, page) + [StartStatement(p, sp)])
  {}

  lemma ScriptIsScript(p: ProgramInfo, sp: nat, lo: nat, hi: nat, k: Platform)
    requires StringSizes(p) <= sp && AllPlaced(p, lo, hi, k)
    ensures IsScript(Script(p, sp, k.page), lo, hi, k)
  {
    hide StringsAddress, AllSpare, Script, StartStatement;
    var string1 := StringsAddress(p, sp);
    var string2 := string1 + |p.main.userPath| + 1;
    var a, b, c := MainStatements(p, string1), InterpStatements(p, string2), ExecStack(p, sp, k.page);
    PartsSpare(p, string1, string2, sp, lo, hi, k);
    SpareConcat(a, b, lo, hi, k);
    SpareConcat(a + b, c, lo, hi, k);
    ScriptParts(p, sp, k.page);
    StartIsStart(p, sp);
    EndsWith(a + b, c, StartStatement(p, sp), Script(p, sp, k.page));
  }

  lemma StartIsStart(p: ProgramInfo, sp: nat)
    requires StringSizes(p) <= sp && p.main.mappings != []
    ensures StartStatement(p, sp).Start?
  {}

  lemma PartsSpare(p: ProgramInfo, string1: nat, string2: nat, sp: nat, lo: nat, hi: nat, k: Platform)
    requires AllPlaced(p, lo, hi, k)
    ensures AllSpare(MainStatements(p, string1), lo, hi, k)
    ensures AllSpare(InterpStatements(p, string2), lo, hi, k)
    ensures AllSpare(ExecStack(p, sp, k.page), lo, hi, k)
  {
    ObjectSpares(Open(false, string1), p.main.mappings, lo, hi, k);
    if p.interp.Some? { ObjectSpares(Open(true, string2), p.interp.value.mappings, lo, hi, k); }
  }

  lemma EndsWith(a: seq<Statement>, c: seq<Statement>, last: Statement, whole: seq<Statement>)
    requires whole == a + (c + [last])
    ensures whole != [] && whole[|whole| - 1] == last && whole[..|whole| - 1] == a + c
  {}

  // ----- Strings -----

  lemma {:induction false} ReadHeldString(mem: Memory, at: nat, path: seq<Byte>)
    requires Holds(mem, at, path + [0]) && 0 !in path && at + |path| < WORD_LIMIT
    ensures ReadString(mem, at) == Some(path)
    decreases |path|
  {
    assert (path + [0])[0] == mem[at];
    if path != [] {
      assert path[0] in path;
      HeadAndTail(path);
      forall a | at + 1 <= a < at + 1 + |path[1..] + [0]|
        ensures a in mem && mem[a] == (path[1..] + [0])[a - (at + 1)]
      {
        assert (path + [0])[a - at] == (path[1..] + [0])[a - (at + 1)];
      }
      ReadHeldString(mem, at + 1, path[1..]);
    }
  }

  predicate PathIn(path: seq<Byte>, k: Platform) { 0 !in path && path in k.files }

  /** The three strings, each where the script says it is. */
  lemma StringsHeld(mem: Memory, p: ProgramInfo, sp: nat)
    requires StringSizes(p) <= sp && Holds(mem, StringsAddress(p, sp), Strings(p, sp))
    ensures Holds(mem, StringsAddress(p, sp), p.main.userPath + [0])
    ensures p.interp.Some? ==>
              Holds(mem, StringsAddress(p, sp) + |p.main.userPath| + 1, p.interp.value.userPath + [0])
    ensures p.rawPath.Some? ==> Holds(mem, ThirdString(p, sp), p.rawPath.value + [0])
  {
    var at := StringsAddress(p, sp);
    var s1, s2, s3, z := CString(Some(p.main.userPath)), CString(InterpPath(p)), CString(p.rawPath), Zeros(Padding(p, sp));
    HoldsParts(mem, at, s1 + s2 + s3, z);
    HoldsParts(mem, at, s1 + s2, s3);
    HoldsParts(mem, at, s1, s2);
  }

  /** The address of the third string. */
  function ThirdString(p: ProgramInfo, sp: nat): nat
    requires StringSizes(p) <= sp
  {
    StringsAddress(p, sp) + |p.main.userPath| + 1 + StringSize(InterpPath(p))
  }

  // ----- The run -----

  function FileOf(o: ObjectInfo, k: Platform): seq<Byte>
    requires o.userPath in k.files
  {
    k.files[o.userPath]
  }

  predicate Known(p: ProgramInfo, k: Platform) {
    PathIn(p.main.userPath, k) && (p.interp.Some? ==> PathIn(p.interp.value.userPath, k))
  }

  /** The memory once both objects are mapped. */
  function FinalMemory(p: ProgramInfo, mem: Memory, k: Platform): Memory
    requires Known(p, k)
  {
    var mem1 := ApplyAll(mem, p.main.mappings, FileOf(p.main, k), k.page);
    if p.interp.Some? then ApplyAll(mem1, p.interp.value.mappings, FileOf(p.interp.value, k), k.page) else mem1
  }

  /** AT_BASE: the first mapping of the last object opened. */
  function BaseOf(p: ProgramInfo): nat
    requires p.main.mappings != [] && (p.interp.Some? ==> p.interp.value.mappings != [])
  {
    if p.interp.Some? then p.interp.value.mappings[0].addr else p.main.mappings[0].addr
  }

  lemma {:induction false} HoldsStays(mem: Memory, ms: seq<Mapping>, file: seq<Byte>, at: nat, bytes: seq<Byte>, k: Platform)
    requires Holds(mem, at, bytes) && forall m <- ms :: Misses(m, at, at + |bytes|)
    ensures Holds(ApplyAll(mem, ms, file, k.page), at, bytes)
  {
    forall a | at <= a < at + |bytes| ensures a in ApplyAll(mem, ms, file, k.page) && ApplyAll(mem, ms, file, k.page)[a] == mem[a] {
      ApplyAllFrame(mem, ms, file, a, k.page);
    }
  }

  function Closed(m: Machine): Machine {
    m.(fd := None, openFiles := m.openFiles - 1)
  }

  lemma LastStatementsRun(p: ProgramInfo, sp: nat, m: Machine, k: Platform)
    requires StringSizes(p) <= sp && p.main.mappings != [] && m.fd.Some?
    ensures ExecAll(ExecStack(p, sp, k.page) + [StartStatement(p, sp)], m, k)
         == Started(Closed(m), StartStatement(p, sp))
  {
    hide StringsAddress;
    var start := StartStatement(p, sp);
    assert ExecAll([start], m, k) == Started(Closed(m), start);
    ExecAllConcat(ExecStack(p, sp, k.page), [start], m, k);
    if NeedsExecStack(p) {
      assert ExecStack(p, sp, k.page)[1..] == [];
    }
  }

  /** The tails of the mappings of an object can be cleared. */
  predicate CanLoad(o: ObjectInfo, k: Platform)
    requires o.userPath in k.files
  {
    AllClearable(o.mappings, |FileOf(o, k)|, k.page)
  }

  lemma InterpRuns(p: ProgramInfo, string2: nat, m: Machine, lo: nat, hi: nat, k: Platform)
    requires AllPlaced(p, lo, hi, k) && Known(p, k) && Aligned(k.page, k.width)
    requires m.fd.Some? && !m.resetAtBase
    requires p.interp.Some? ==> ReadString(m.mem, string2) == Some(p.interp.value.userPath)
    ensures ExecAll(InterpStatements(p, string2), m, k)
         == if p.interp.None? then Running(m)
            else if CanLoad(p.interp.value, k) then
              Running(AfterObject(m, true, FileOf(p.interp.value, k), p.interp.value.mappings, k.page))
            else Failed
  {
    if p.interp.Some? {
      ObjectRuns(true, string2, p.interp.value.userPath, p.interp.value.mappings, m, k);
    }
  }

  predicate AllCanLoad(p: ProgramInfo, k: Platform)
    requires Known(p, k)
  {
    CanLoad(p.main, k) && (p.interp.Some? ==> CanLoad(p.interp.value, k))
  }

  lemma ScriptRuns(p: ProgramInfo, sp: nat, m: Machine, lo: nat, k: Platform)
    requires StringSizes(p) <= sp < WORD_LIMIT && lo <= StringsAddress(p, sp) && AllPlaced(p, lo, sp, k)
    requires Known(p, k) && Aligned(k.page, k.width)
    requires Holds(m.mem, StringsAddress(p, sp), Strings(p, sp))
    ensures ExecAll(Script(p, sp, k.page), m, k)
         == if AllCanLoad(p, k)
            then Started(Machine(FinalMemory(p, m.mem, k), None, m.openFiles, BaseOf(p), false), StartStatement(p, sp))
            else Failed
  {
    hide StringsAddress, Strings, MainStatements, InterpStatements, ExecStack, StartStatement, Script, Holds, Exec, CanLoad;
    var string1 := StringsAddress(p, sp);
    var string2 := string1 + |p.main.userPath| + 1;
    MainRuns(p, sp, m, k, lo);
    var m1 := AfterObject(m, false, FileOf(p.main, k), p.main.mappings, k.page);
    StringsStay(p, sp, m, lo, k);
    InterpString(m1.mem, p, sp, k);
    InterpRuns(p, string2, m1, lo, sp, k);
    var m2 := if p.interp.Some? then AfterObject(m1, true, FileOf(p.interp.value, k), p.interp.value.mappings, k.page) else m1;
    LastStatementsRun(p, sp, m2, k);
    ScriptParts(p, sp, k.page);
    var a, b, c := MainStatements(p, string1), InterpStatements(p, string2), ExecStack(p, sp, k.page) + [StartStatement(p, sp)];
    ExecAllConcat(a, b, m, k);
    ExecAllConcat(a + b, c, m, k);
  }

  lemma MainRuns(p: ProgramInfo, sp: nat, m: Machine, k: Platform, lo: nat)
    requires StringSizes(p) <= sp < WORD_LIMIT && AllPlaced(p, lo, sp, k) && Known(p, k) && Aligned(k.page, k.width)
    requires Holds(m.mem, StringsAddress(p, sp), Strings(p, sp))
    ensures ExecAll(MainStatements(p, StringsAddress(p, sp)), m, k)
         == if CanLoad(p.main, k) then Running(AfterObject(m, false, FileOf(p.main, k), p.main.mappings, k.page)) else Failed
  {
    hide Strings;
    var string1 := StringsAddress(p, sp);
    StringsHeld(m.mem, p, sp);
    ReadHeldString(m.mem, string1, p.main.userPath);
    ObjectRuns(false, string1, p.main.userPath, p.main.mappings, m, k);
  }

  lemma StringsStay(p: ProgramInfo, sp: nat, m: Machine, lo: nat, k: Platform)
    requires StringSizes(p) <= sp && lo <= StringsAddress(p, sp) && AllPlaced(p, lo, sp, k) && Known(p, k)
    requires Holds(m.mem, StringsAddress(p, sp), Strings(p, sp))
    ensures Holds(ApplyAll(m.mem, p.main.mappings, FileOf(p.main, k), k.page), StringsAddress(p, sp), Strings(p, sp))
  {
    hide StringsAddress, Tidy;
    HoldsStays(m.mem, p.main.mappings, FileOf(p.main, k), StringsAddress(p, sp), Strings(p, sp), k);
  }

  lemma InterpString(mem: Memory, p: ProgramInfo, sp: nat, k: Platform)
    requires StringSizes(p) <= sp < WORD_LIMIT && Known(p, k)
    requires Holds(mem, StringsAddress(p, sp), Strings(p, sp))
    ensures p.interp.Some? ==>
              ReadString(mem, StringsAddress(p, sp) + |p.main.userPath| + 1) == Some(p.interp.value.userPath)
  {
    hide Strings;
    StringsHeld(mem, p, sp);
    if p.interp.Some? {
      ReadHeldString(mem, StringsAddress(p, sp) + |p.main.userPath| + 1, p.interp.value.userPath);
    }
  }

  // ----- From the block to the run -----

  function WidthOf(is32: bool): Positive { if is32 then 4 else 8 }

  lemma BlockParts(mem: Memory, p: ProgramInfo, sp: nat, page: Positive, is32: bool, at: nat)
    requires StringSizes(p) <= sp && p.main.mappings != [] && Holds(mem, at, Block(p, sp, page, is32))
    requires at + |Block(p, sp, page, is32)| == sp
    ensures Holds(mem, at, Bytes(Script(p, sp, page), WidthOf(is32)))
    ensures at + |Bytes(Script(p, sp, page), WidthOf(is32))| <= StringsAddress(p, sp)
    ensures Holds(mem, StringsAddress(p, sp), Strings(p, sp))
  {
    hide Script, StringsAddress, Strings, ScriptWords;
    var ws := ScriptWords(Script(p, sp, page));
    HoldsParts(mem, at, ScriptArea(ws, is32), Strings(p, sp));
    if is32 { HoldsParts(mem, at, EncodeWords(ws, 4), EncodeWords(ws, 8)[4 * |ws|..]); }
  }

  /** The loader started on a transferred block: what it ends with, if it can clear what it has to. */
  lemma BlockRuns(p: ProgramInfo, sp: nat, is32: bool, m: Machine, at: nat, k: Platform)
    requires StringSizes(p) <= sp < WORD_LIMIT && AllPlaced(p, at, sp, k)
    requires Known(p, k) && Aligned(k.page, k.width) && k.width == WidthOf(is32)
    requires at + |Block(p, sp, k.page, is32)| == sp && Holds(m.mem, at, Block(p, sp, k.page, is32))
    requires Fit(ScriptWords(Script(p, sp, k.page)), k.width)
    ensures Interpret(m, at, k)
         == if AllCanLoad(p, k)
            then Started(Machine(FinalMemory(p, m.mem, k), None, m.openFiles, BaseOf(p), false), StartStatement(p, sp))
            else Failed
  {
    hide Block, Script, StringsAddress, Strings, StartStatement, FinalMemory, BaseOf, Holds, ScriptWords, Fit, Known, Aligned;
    var script := Script(p, sp, k.page);
    BlockParts(m.mem, p, sp, k.page, is32, at);
    ScriptIsScript(p, sp, at, sp, k);
    SparesLess(script[..|script| - 1], at, sp, at, at + |Bytes(script, k.width)|, k);
    InterpretFollows(script, m, at, k);
    ScriptRuns(p, sp, m, at, k);
  }

  // ----- The end to end theorem -----

  /** The mappings are those of these program headers, moved by a base. */
  ghost predicate Describes(o: ObjectInfo, segments: seq<Segment>, base: nat, page: Positive) {
    && segments != [] && ValidSegments(segments, page, base) && Aligned(base, page)
    && o.mappings == AllShifted(AllMappings(segments, page), base)
  }

  lemma {:induction false} FirstIsFile(segments: seq<Segment>, page: Positive)
    requires segments != []
    ensures AllMappings(segments, page) != [] && !AllMappings(segments, page)[0].anonymous
  {
    if |segments| > 1 { FirstIsFile(segments[..|segments| - 1], page); }
  }

  lemma DescribedIsPlaced(o: ObjectInfo, segments: seq<Segment>, base: nat, lo: nat, hi: nat, k: Platform)
    requires Describes(o, segments, base, k.page) && forall m <- o.mappings :: Misses(m, lo, hi)
    ensures Placed(o.mappings, lo, hi, k)
  {
    FirstIsFile(segments, k.page);
    ImageAcceptable(segments, k.page, base);
  }

  /** A program as it is on disk: its program headers and entry points, and where each object goes. */
  datatype Image = Image(
    segments: seq<Segment>, entry: nat, base: nat, interpSegments: seq<Segment>, interpEntry: nat, interpBase: nat)

  ghost predicate DescribesProgram(p: ProgramInfo, image: Image, page: Positive) {
    && Describes(p.main, image.segments, image.base, page) && p.main.entry == Wrapped(image.entry + image.base)
    && (p.interp.Some? ==>
          && Describes(p.interp.value, image.interpSegments, image.interpBase, page)
          && p.interp.value.entry == Wrapped(image.interpEntry + image.interpBase))
  }

  /**
   * The start statement of this image: control goes to the interpreter if there is one, and the
   * auxiliary vectors tell it of the program, whose headers are where its first page is.
   */
  predicate Starts(start: Statement, p: ProgramInfo, image: Image, sp: nat, page: Positive)
    requires start.Start? && image.segments != []
  {
    && start.stackPointer == sp && start.traced == p.traced
    && start.entryPoint == Wrapped(if p.interp.Some? then image.interpEntry + image.interpBase else image.entry + image.base)
    && start.entry == Wrapped(image.entry + image.base) && start.phent == p.phent && start.phnum == p.phnum
    && start.phdr == Wrapped(p.phoff + image.base + PageFloor(image.segments[0].vaddr, page))
  }

  lemma {:induction false} FirstMapping(segments: seq<Segment>, page: Positive)
    requires segments != []
    ensures AllMappings(segments, page) != [] && AllMappings(segments, page)[0] == SegmentMappings(segments[0], page)[0]
  {
    if |segments| > 1 { FirstMapping(segments[..|segments| - 1], page); }
  }

  lemma StartsTheImage(p: ProgramInfo, image: Image, sp: nat, page: Positive)
    requires DescribesProgram(p, image, page) && StringSizes(p) <= sp && p.main.mappings != []
    ensures image.segments != [] && StartStatement(p, sp).Start? && Starts(StartStatement(p, sp), p, image, sp, page)
  {
    hide StringsAddress, AllShifted, AllMappings, ValidSegments, PageFloor;
    FirstAddress(image.segments, image.base, page);
  }

  lemma FirstIsValid(segments: seq<Segment>, page: Positive, base: nat)
    requires segments != [] && ValidSegments(segments, page, base)
    ensures ValidSegment(segments[0], page, base)
  {}

  lemma FirstAddress(segments: seq<Segment>, base: nat, page: Positive)
    requires segments != [] && ValidSegments(segments, page, base)
    ensures var ms := AllShifted(AllMappings(segments, page), base);
            ms != [] && ms[0].addr == base + PageFloor(segments[0].vaddr, page)
  {
    FirstMapping(segments, page);
    FirstIsValid(segments, page, base);
    SegmentMappingsPlain(segments[0], page, base);
  }

  /**
   * AT_PHDR is where the loaded program has its headers if and only if its first segment starts
   * in the first page of the file.
   */
  lemma HeadersAreThereIff(start: Statement, p: ProgramInfo, image: Image, sp: nat, page: Positive)
    requires start.Start? && image.segments != [] && ValidSegment(image.segments[0], page, image.base)
    requires Starts(start, p, image, sp, page)
    requires image.segments[0].offset <= p.phoff < image.segments[0].offset + image.segments[0].filesz
    ensures var s := image.segments[0];
            start.phdr == image.base + s.vaddr + (p.phoff - s.offset) <==> PageFloor(s.offset, page) == 0
  {}

  /** Neither object falls on the block, nor the interpreter on the program. */
  predicate Apart(p: ProgramInfo, image: Image, lo: nat, hi: nat) {
    && (forall m <- p.main.mappings :: Misses(m, lo, hi))
    && (p.interp.Some? ==>
          && (forall m <- p.interp.value.mappings :: Misses(m, lo, hi))
          && forall s, m | s in image.segments && m in p.interp.value.mappings ::
               Misses(m, image.base + s.vaddr, image.base + s.End()))
  }

  /** Every segment that has to be cleared can be. */
  predicate AllClear(p: ProgramInfo, image: Image, k: Platform)
    requires Known(p, k)
  {
    && (forall s <- image.segments :: Clears(s, |FileOf(p.main, k)|, k.page))
    && (p.interp.Some? ==> forall s <- image.interpSegments :: Clears(s, |FileOf(p.interp.value, k)|, k.page))
  }

  /**
   * The loader, started on the block the tracer wrote below the stack pointer, faults if a
   * segment of the program or of its interpreter has more memory than file and is either not
   * writable or ends, in the file, where the file has no page. Otherwise it ends in the start
   * statement of that program with no file left open, AT_BASE the base of the last object,
   * and every segment in memory as the gABI asks, so far as its file has the bytes.
   */
  lemma ProgramLoads(p: ProgramInfo, image: Image, sp: nat, is32: bool, m: Machine, at: nat, k: Platform)
    requires DescribesProgram(p, image, k.page) && Known(p, k)
    requires Aligned(k.page, k.width) && k.width == WidthOf(is32)
    requires p.main.mappings != [] && StringSizes(p) <= sp < WORD_LIMIT
    requires at + |Block(p, sp, k.page, is32)| == sp && Holds(m.mem, at, Block(p, sp, k.page, is32))
    requires Fit(ScriptWords(Script(p, sp, k.page)), k.width)
    requires Apart(p, image, at, sp) && m.openFiles == 0
    ensures var o := Interpret(m, at, k);
            && (if AllClear(p, image, k) then o.Started? else o.Failed?)
            && (o.Started? ==>
                  && o.start == StartStatement(p, sp) && o.m.openFiles == 0 && o.m.fd.None?
                  && o.start.Start? && image.segments != [] && Starts(o.start, p, image, sp, k.page)
                  && Holds(m.mem, o.start.execfn, (if p.rawPath.Some? then p.rawPath.value else p.main.userPath) + [0])
                  && (forall s <- image.segments ::
                        Loaded(o.m.mem, s, image.base, FileOf(p.main, k)) <==> InFile(s, |FileOf(p.main, k)|))
                  && (p.interp.Some? ==> forall s <- image.interpSegments ::
                        Loaded(o.m.mem, s, image.interpBase, FileOf(p.interp.value, k))
                        <==> InFile(s, |FileOf(p.interp.value, k)|))
                  && (if p.interp.Some? then p.interp.value.mappings != [] && o.m.atBase == p.interp.value.mappings[0].addr
                      else o.m.atBase == p.main.mappings[0].addr))
  {
    StartsTheImage(p, image, sp, k.page);
    NamedByStart(p, sp, m.mem, at, k.page, is32);
    hide Block, Script, StartStatement, Loaded, Holds, ScriptWords, Fit, Describes, Interpret, Placed, Aligned, InFile,
         AllClear, AllCanLoad, Starts;
    DescribedIsPlaced(p.main, image.segments, image.base, at, sp, k);
    if p.interp.Some? {
      DescribedIsPlaced(p.interp.value, image.interpSegments, image.interpBase, at, sp, k);
    }
    BlockRuns(p, sp, is32, m, at, k);
    CanLoadIff(p, image, k);
    ImagesLoaded(p, image, m.mem, at, sp, k);
    PlacedIsThere(p, at, sp, k);
  }

  /** AT_EXECFN is the name the program was started with. */
  lemma NamedByStart(p: ProgramInfo, sp: nat, mem: Memory, at: nat, page: Positive, is32: bool)
    requires StringSizes(p) <= sp && p.main.mappings != []
    requires at + |Block(p, sp, page, is32)| == sp && Holds(mem, at, Block(p, sp, page, is32))
    ensures StartStatement(p, sp).Start?
    ensures Holds(mem, StartStatement(p, sp).execfn, (if p.rawPath.Some? then p.rawPath.value else p.main.userPath) + [0])
  {
    hide *;
    BlockParts(mem, p, sp, page, is32, at);
    StringsHeld(mem, p, sp);
    NameIs(p, sp);
  }

  lemma NameIs(p: ProgramInfo, sp: nat)
    requires StringSizes(p) <= sp && p.main.mappings != []
    ensures var start := StartStatement(p, sp);
            start.Start? && start.execfn == if p.rawPath.Some? then ThirdString(p, sp) else StringsAddress(p, sp)
  {
    hide StringsAddress;
  }

  lemma CanLoadIff(p: ProgramInfo, image: Image, k: Platform)
    requires DescribesProgram(p, image, k.page) && Known(p, k)
    ensures AllCanLoad(p, k) <==> AllClear(p, image, k)
  {
    hide Clears, AllClearable, AllShifted;
    ObjectCanLoadIff(p.main, image.segments, image.base, k);
    if p.interp.Some? { ObjectCanLoadIff(p.interp.value, image.interpSegments, image.interpBase, k); }
  }

  lemma ObjectCanLoadIff(o: ObjectInfo, segments: seq<Segment>, base: nat, k: Platform)
    requires Describes(o, segments, base, k.page) && o.userPath in k.files
    ensures CanLoad(o, k) <==> forall s <- segments :: Clears(s, |FileOf(o, k)|, k.page)
  {
    hide Clears, AllClearable, AllShifted;
    ImageClearsIff(segments, |FileOf(o, k)|, k.page, base);
  }

  // ----- Two segments that cannot be loaded -----

  /** The mapping of a valid segment the loader cannot clear is a fault. */
  lemma UnclearableFaults(s: Segment, m: Machine, k: Platform)
    requires ValidSegment(s, k.page, 0) && Aligned(k.page, k.width) && m.fd.Some?
    ensures Exec(Mmap(SegmentMappings(s, k.page)[0]), m, k).Failed? <==> !Clears(s, |m.fd.value|, k.page)
  {
    var mapping := SegmentMappings(s, k.page)[0];
    UnshiftedPlain(s, k.page);
    PlainIsShifted(s, k.page);
    SegmentMappingsAcceptable(s, k.page, 0);
    SegmentClearsIff(s, |m.fd.value|, k.page, 0);
    hide Clears, Clearable, Tidy, Exec;
    ExecMmap(mapping, m, k);
  }

  lemma PlainIsShifted(s: Segment, page: Positive)
    requires ValidSegment(s, page, 0)
    ensures AllShifted(SegmentMappings(s, page), 0) == SegmentMappings(s, page) && Aligned(0, page)
    ensures var ms := SegmentMappings(s, page); !ms[0].anonymous && (|ms| == 1 || (|ms| == 2 && ms[1].anonymous))
  {
    SegmentMappingsPlain(s, page, 0);
    UnshiftedPlain(s, page);
    AlignedZero(page);
  }

  /** Zeros to add in a segment that is read-only: clear() writes where it must not. */
  lemma ReadOnlyZerosFault(m: Machine, k: Platform)
    requires k.page == 4096 && k.width == 8 && m.fd.Some?
    ensures var s := Segment(4096, 0, 100, 200, Prot(true, false, false));
            ValidSegment(s, k.page, 0) && Exec(Mmap(SegmentMappings(s, k.page)[0]), m, k).Failed?
  {
    var s := Segment(4096, 0, 100, 200, Prot(true, false, false));
    SmallFloors();
    UnclearableFaults(s, m, k);
  }

  /** Bytes of the file that end with a page and with the file: clear() writes to a page past its end. */
  lemma ZerosPastFileFault(m: Machine, k: Platform)
    requires k.page == 4096 && k.width == 8 && m.fd.Some? && |m.fd.value| == 4096
    ensures var s := Segment(4096, 0, 4096, 4097, Prot(true, true, false));
            ValidSegment(s, k.page, 0) && Exec(Mmap(SegmentMappings(s, k.page)[0]), m, k).Failed?
  {
    var s := Segment(4096, 0, 4096, 4097, Prot(true, true, false));
    SmallFloors();
    UnclearableFaults(s, m, k);
  }

  lemma SmallFloors()
    ensures PageFloor(0, 4096) == 0 && PageFloor(4096, 4096) == 4096 && Aligned(4096, 8)
  {
    FloorPlusPage(0, 4096);
    EightDivides(512);
  }

  lemma {:induction false} EightDivides(n: nat)
    ensures Aligned(8 * n, 8)
  {
    if n > 0 { EightDivides(n - 1); }
  }

  // ----- Both objects in memory -----

  lemma PlacedIsThere(p: ProgramInfo, lo: nat, hi: nat, k: Platform)
    requires AllPlaced(p, lo, hi, k)
    ensures p.interp.Some? ==> p.interp.value.mappings != []
  {}

  lemma ImagesLoaded(p: ProgramInfo, image: Image, mem: Memory, lo: nat, hi: nat, k: Platform)
    requires DescribesProgram(p, image, k.page) && Known(p, k) && Apart(p, image, lo, hi)
    ensures forall s <- image.segments ::
              Loaded(FinalMemory(p, mem, k), s, image.base, FileOf(p.main, k)) <==> InFile(s, |FileOf(p.main, k)|)
    ensures p.interp.Some? ==> forall s <- image.interpSegments ::
              Loaded(FinalMemory(p, mem, k), s, image.interpBase, FileOf(p.interp.value, k))
              <==> InFile(s, |FileOf(p.interp.value, k)|)
  {
    hide Loaded, ValidSegments, Aligned, Misses, ApplyAll, AllMappings, InFile;
    ImageLoads(mem, image.segments, k.page, image.base, FileOf(p.main, k));
    if p.interp.Some? {
      var mem1 := ApplyAll(mem, p.main.mappings, FileOf(p.main, k), k.page);
      var ns, file := p.interp.value.mappings, FileOf(p.interp.value, k);
      ImageLoads(mem1, image.interpSegments, k.page, image.interpBase, file);
      AllStayLoaded(mem1, ns, image.segments, image.base, file, FileOf(p.main, k), k.page);
    }
  }

  lemma AllStayLoaded(mem: Memory, ns: seq<Mapping>, segments: seq<Segment>, base: nat, file: seq<Byte>, image: seq<Byte>,
                      page: Positive)
    requires forall s <- segments :: Loaded(mem, s, base, image) <==> InFile(s, |image|)
    requires forall s, n | s in segments && n in ns :: Misses(n, base + s.vaddr, base + s.End())
    ensures forall s <- segments :: Loaded(ApplyAll(mem, ns, file, page), s, base, image) <==> InFile(s, |image|)
  {
    hide Loaded, ApplyAll, InFile;
    forall s | s in segments ensures Loaded(ApplyAll(mem, ns, file, page), s, base, image) <==> InFile(s, |image|) {
      if InFile(s, |image|) { LoadedStays(mem, ns, s, base, file, image, page); }
      LoadedIsInFile(ApplyAll(mem, ns, file, page), s, base, image);
    }
  }

  // ----- Files and strings -----

  /** One file is open, or none. */
  predicate FewFiles(m: Machine) { m.openFiles == if m.fd.Some? then 1 else 0 }

  predicate OpensFirst(script: seq<Statement>) {
    forall i :: 0 <= i < |script| && script[i].Open? && !script[i].next ==> i == 0
  }

  lemma {:induction false} FewFilesStays(script: seq<Statement>, m: Machine, k: Platform)
    requires FewFiles(m) && OpensFirst(script) && (script != [] && script[0].Open? && !script[0].next ==> m.fd.None?)
    ensures var o := ExecAll(script, m, k);
            (!o.Failed? ==> FewFiles(o.m)) && (o.Started? ==> o.m.openFiles == 0)
  {
    if script != [] {
      var o := Exec(script[0], m, k);
      if o.Running? { FewFilesStays(script[1..], o.m, k); }
    }
  }

  lemma {:induction false} MmapsAreMmaps(ms: seq<Mapping>)
    ensures forall s <- MmapStatements(ms) :: s.Mmap?
  {
    if ms != [] { MmapsAreMmaps(ms[1..]); }
  }

  /** However far the loader gets in the script of a program, it has at most one file open, and none at the start. */
  lemma OneFileAtMost(p: ProgramInfo, sp: nat, n: nat, m: Machine, k: Platform)
    requires StringSizes(p) <= sp && p.main.mappings != [] && n <= |Script(p, sp, k.page)|
    requires m.fd.None? && m.openFiles == 0
    ensures var o := ExecAll(Script(p, sp, k.page)[..n], m, k);
            (!o.Failed? ==> 0 <= o.m.openFiles <= 1) && (o.Started? ==> o.m.openFiles == 0)
  {
    hide ExecAll, StringsAddress, Script;
    ScriptOpensFirst(p, sp, k.page);
    FewFilesStays(Script(p, sp, k.page)[..n], m, k);
  }

  predicate OpensOnlyNext(script: seq<Statement>) {
    forall s <- script :: s.Open? ==> s.next
  }

  lemma ScriptOpensFirst(p: ProgramInfo, sp: nat, page: Positive)
    requires StringSizes(p) <= sp && p.main.mappings != []
    ensures OpensFirst(Script(p, sp, page))
  {
    hide StringsAddress, StartStatement, MmapStatements;
    ScriptParts(p, sp, page);
    StartIsStart(p, sp);
    MmapsAreMmaps(p.main.mappings);
    var string1 := StringsAddress(p, sp);
    var string2 := string1 + |p.main.userPath| + 1;
    InterpOpensNext(p, string2);
    var b, c := InterpStatements(p, string2), ExecStack(p, sp, page) + [StartStatement(p, sp)];
    Reassociate(Open(false, string1), MmapStatements(p.main.mappings), b, c);
    FirstThenNext(Open(false, string1), MmapStatements(p.main.mappings) + b + c);
  }

  lemma Reassociate(s: Statement, a: seq<Statement>, b: seq<Statement>, c: seq<Statement>)
    ensures [s] + a + b + c == [s] + (a + b + c)
  {}

  lemma InterpOpensNext(p: ProgramInfo, string2: nat)
    ensures OpensOnlyNext(InterpStatements(p, string2))
  {
    if p.interp.Some? { MmapsAreMmaps(p.interp.value.mappings); }
  }

  lemma FirstThenNext(s: Statement, rest: seq<Statement>)
    requires OpensOnlyNext(rest)
    ensures OpensFirst([s] + rest)
  {
    forall i | 0 < i <= |rest| ensures ([s] + rest)[i] in rest {
      assert ([s] + rest)[i] == rest[i - 1];
    }
  }

  /** Strings start on a 16-byte boundary, and no further below the stack pointer than that needs. */
  lemma StringsAreAligned(p: ProgramInfo, sp: nat)
    requires StringSizes(p) <= sp
    ensures StringsAddress(p, sp) % STACK_ALIGNMENT == 0
    ensures sp - StringSizes(p) - STACK_ALIGNMENT < StringsAddress(p, sp) <= sp - StringSizes(p)
  {
    var x := sp - StringSizes(p);
    assert x - x % STACK_ALIGNMENT == STACK_ALIGNMENT * (x / STACK_ALIGNMENT);
  }
}
