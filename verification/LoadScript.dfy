/**
 * The load script: how a program and its interpreter are described to the loader, as
 * machine words followed by strings right below the stack pointer.
 */
module LoadScript {
  import opened ProcessMemory
  import opened ElfMapping
  import opened Wrappers

  const STACK_ALIGNMENT: nat := 16

  datatype Statement =
    | Open(next: bool, path: nat)
    | Mmap(mapping: Mapping)
    | MakeStackExec(start: nat)
    | Start(traced: bool, stackPointer: nat, entryPoint: nat, phdr: nat, phent: nat, phnum: nat, entry: nat, execfn: nat)

  // ----- Statements as words -----

  function ProtWord(p: Prot): nat {
    (if p.read then 1 else 0) + (if p.write then 2 else 0) + (if p.exec then 4 else 0)
  }

  function WordProt(w: nat): Prot {
    Prot(w % 2 == 1, w / 2 % 2 == 1, w / 4 % 2 == 1)
  }

  function Words(s: Statement): (ws: seq<nat>)
    ensures |ws| > 0
  {
    match s
    case Open(next, path) => [if next then 0 else 1, path]
    case Mmap(m) => [if m.anonymous then 3 else 2, m.addr, m.length, ProtWord(m.prot), m.offset, m.clearLength]
    case MakeStackExec(start) => [4, start]
    case Start(traced, sp, pc, phdr, phent, phnum, entry, execfn) =>
      [if traced then 5 else 6, sp, pc, phdr, phent, phnum, entry, execfn]
  }

  /** The number of words after the action, which the action alone tells. */
  function Arity(action: nat): Option<nat> {
    if action <= 1 then Some(1)
    else if action <= 3 then Some(5)
    else if action == 4 then Some(1)
    else if action <= 6 then Some(7)
    else None
  }

  function Parse(action: nat, args: seq<nat>): Statement
    requires Arity(action) == Some(|args|)
  {
    if action <= 1 then Open(action == 0, args[0])
    else if action <= 3 then Mmap(Mapping(args[0], args[1], args[4], WordProt(args[2]), action == 3, args[3]))
    else if action == 4 then MakeStackExec(args[0])
    else Start(action == 5, args[0], args[1], args[2], args[3], args[4], args[5], args[6])
  }

  /** The protection as mmap(2) has it: PROT_READ, PROT_WRITE and PROT_EXEC are 1, 2 and 4. */
  lemma ProtWordIs(p: Prot)
    ensures var w := ProtWord(p);
            w < 8 && (w % 2 == 1 <==> p.read) && (w / 2 % 2 == 1 <==> p.write) && (w / 4 == 1 <==> p.exec)
  {}

  lemma ParseWords(s: Statement)
    ensures var ws := Words(s);
            Arity(ws[0]) == Some(|ws| - 1) && Parse(ws[0], ws[1..]) == s
  {}

  function ScriptWords(script: seq<Statement>): seq<nat> {
    if script == [] then [] else Words(script[0]) + ScriptWords(script[1..])
  }

  function EncodeWords(ws: seq<nat>, width: nat): (bytes: seq<Byte>)
    ensures |bytes| == width * |ws|
  {
    if ws == [] then [] else Encode(ws[0], width) + EncodeWords(ws[1..], width)
  }

  lemma {:induction false} EncodeWordsConcat(a: seq<nat>, b: seq<nat>, width: nat)
    ensures EncodeWords(a + b, width) == EncodeWords(a, width) + EncodeWords(b, width)
  {
    if a == [] {
      assert a + b == b;
    } else {
      assert (a + b)[1..] == a[1..] + b;
      EncodeWordsConcat(a[1..], b, width);
    }
  }

  lemma {:induction false} ScriptWordsConcat(a: seq<Statement>, b: seq<Statement>)
    ensures ScriptWords(a + b) == ScriptWords(a) + ScriptWords(b)
  {
    if a == [] {
      assert a + b == b;
    } else {
      assert (a + b)[1..] == a[1..] + b;
      ScriptWordsConcat(a[1..], b);
    }
  }

  // ----- The script of a program -----

  datatype ObjectInfo = ObjectInfo(userPath: seq<Byte>, mappings: seq<Mapping>, entry: nat, needsExecStack: bool)

  /** rawPath is None when it is the very same string as the user path. */
  datatype ProgramInfo = ProgramInfo(
    main: ObjectInfo, interp: Option<ObjectInfo>, rawPath: Option<seq<Byte>>,
    phoff: nat, phent: nat, phnum: nat, traced: bool)

  function MmapStatements(mappings: seq<Mapping>): seq<Statement> {
    if mappings == [] then [] else [Mmap(mappings[0])] + MmapStatements(mappings[1..])
  }

  function NeedsExecStack(p: ProgramInfo): bool {
    p.main.needsExecStack || (p.interp.Some? && p.interp.value.needsExecStack)
  }

  function StringSize(path: Option<seq<Byte>>): nat {
    if path.Some? then |path.value| + 1 else 0
  }

  function InterpPath(p: ProgramInfo): Option<seq<Byte>> {
    if p.interp.Some? then Some(p.interp.value.userPath) else None
  }

  function StringSizes(p: ProgramInfo): nat {
    |p.main.userPath| + 1 + StringSize(InterpPath(p)) + StringSize(p.rawPath)
  }

  function Padding(p: ProgramInfo, sp: nat): nat
    requires StringSizes(p) <= sp
  {
    (sp - StringSizes(p)) % STACK_ALIGNMENT
  }

  function StringsAddress(p: ProgramInfo, sp: nat): nat
    requires StringSizes(p) <= sp
  {
    sp - StringSizes(p) - Padding(p, sp)
  }

  function StartStatement(p: ProgramInfo, sp: nat): Statement
    requires StringSizes(p) <= sp && p.main.mappings != []
  {
    var string1 := StringsAddress(p, sp);
    var string3 := if p.rawPath.None? then string1 else string1 + |p.main.userPath| + 1 + StringSize(InterpPath(p));
    Start(p.traced, sp, if p.interp.Some? then p.interp.value.entry else p.main.entry,
          Wrapped(p.phoff + p.main.mappings[0].addr), p.phent, p.phnum, p.main.entry, string3)
  }

  /** The statements that end a script. */
  function LastStatements(p: ProgramInfo, sp: nat, page: nat): seq<Statement>
    requires StringSizes(p) <= sp && page > 0 && p.main.mappings != []
  {
    (if NeedsExecStack(p) then [MakeStackExec(PageFloor(sp, page))] else []) + [StartStatement(p, sp)]
  }

  function InterpStatements(p: ProgramInfo, string2: nat): seq<Statement> {
    if p.interp.Some? then [Open(true, string2)] + MmapStatements(p.interp.value.mappings) else []
  }

  /** The statements for one program, given where its strings will lie. */
  function Script(p: ProgramInfo, sp: nat, page: nat): seq<Statement>
    requires StringSizes(p) <= sp && page > 0 && p.main.mappings != []
  {
    var string1 := StringsAddress(p, sp);
    [Open(false, string1)] + MmapStatements(p.main.mappings)
    + InterpStatements(p, string1 + |p.main.userPath| + 1)
    + LastStatements(p, sp, page)
  }

  /** The stack is made executable exactly if the program or its interpreter needs that: the page the stack begins in. */
  lemma StackIsMadeExecIff(p: ProgramInfo, sp: nat, page: nat, start: nat)
    requires StringSizes(p) <= sp && page > 0 && p.main.mappings != []
    ensures MakeStackExec(start) in Script(p, sp, page)
       <==> start == PageFloor(sp, page) && (p.main.needsExecStack || (p.interp.Some? && p.interp.value.needsExecStack))
  {
    hide StringsAddress, StartStatement;
    MmapsOnly(p.main.mappings, MakeStackExec(start));
    if p.interp.Some? { MmapsOnly(p.interp.value.mappings, MakeStackExec(start)); }
    StartIsNoStack(p, sp, start);
  }

  lemma {:induction false} MmapsOnly(mappings: seq<Mapping>, s: Statement)
    requires !s.Mmap?
    ensures s !in MmapStatements(mappings)
  {
    if mappings != [] { MmapsOnly(mappings[1..], s); }
  }

  lemma StartIsNoStack(p: ProgramInfo, sp: nat, start: nat)
    requires StringSizes(p) <= sp && p.main.mappings != []
    ensures StartStatement(p, sp) != MakeStackExec(start)
  {}

  function Zeros(n: nat): (z: seq<Byte>)
    ensures |z| == n && forall i :: 0 <= i < n ==> z[i] == 0
  {
    seq(n, i => 0)
  }

  function CString(path: Option<seq<Byte>>): seq<Byte> {
    if path.Some? then path.value + [0] else []
  }

  function Strings(p: ProgramInfo, sp: nat): (s: seq<Byte>)
    requires StringSizes(p) <= sp
    ensures |s| == sp - StringsAddress(p, sp)
  {
    CString(Some(p.main.userPath)) + CString(InterpPath(p)) + CString(p.rawPath) + Zeros(Padding(p, sp))
  }

  /**
   * The words as the loader's word size expects them: in 32-bit mode they are narrowed in
   * place, which leaves the second half of the area as it was.
   */
  function ScriptArea(ws: seq<nat>, is32: bool): (bytes: seq<Byte>)
    ensures |bytes| == 8 * |ws|
  {
    if is32 then EncodeWords(ws, 4) + EncodeWords(ws, 8)[4 * |ws|..] else EncodeWords(ws, 8)
  }

  function Block(p: ProgramInfo, sp: nat, page: nat, is32: bool): seq<Byte>
    requires StringSizes(p) <= sp && page > 0 && p.main.mappings != []
  {
    ScriptArea(ScriptWords(Script(p, sp, page)), is32) + Strings(p, sp)
  }

  // ----- Writing it -----

  /** Store a 64-bit word at the cursor. */
  method PutWord(buffer: array<Byte>, cursor: nat, value: nat)
    requires cursor + 8 <= buffer.Length
    modifies buffer
    ensures buffer[..cursor + 8] == old(buffer[..cursor]) + Encode(value, 8)
    ensures forall k :: cursor + 8 <= k < buffer.Length ==> buffer[k] == old(buffer[k])
  {
    ghost var bytes := Encode(value, 8);
    var rest, i := value, 0;
    while i < 8
      invariant i <= 8
      invariant bytes[i..] == Encode(rest, 8 - i)
      invariant forall k :: 0 <= k < buffer.Length ==>
                  buffer[k] == if cursor <= k < cursor + i then bytes[k - cursor] else old(buffer[k])
    {
      assert bytes[i] == bytes[i..][0] == rest % 256;
      buffer[cursor + i] := rest % 256;
      assert bytes[i + 1..] == bytes[i..][1..];
      rest, i := rest / 256, i + 1;
    }
    AppendBytes(old(buffer[..]), buffer[..], cursor, bytes);
  }

  lemma AppendBytes(before: seq<Byte>, after: seq<Byte>, cursor: nat, bytes: seq<Byte>)
    requires cursor + |bytes| <= |before| == |after|
    requires forall k :: 0 <= k < |after| ==>
               after[k] == if cursor <= k < cursor + |bytes| then bytes[k - cursor] else before[k]
    ensures after[..cursor + |bytes|] == before[..cursor] + bytes
  {}

  function EncodeScript(script: seq<Statement>): seq<Byte> {
    EncodeWords(ScriptWords(script), 8)
  }

  /** Append one statement to those already done. */
  method PutStatement(buffer: array<Byte>, cursor: nat, ghost done: seq<Statement>, s: Statement) returns (next: nat)
    requires cursor + 8 * |Words(s)| <= buffer.Length
    requires buffer[..cursor] == EncodeScript(done)
    modifies buffer
    ensures next == cursor + 8 * |Words(s)|
    ensures buffer[..next] == EncodeScript(done + [s])
    ensures forall k :: next <= k < buffer.Length ==> buffer[k] == old(buffer[k])
  {
    var ws, i := Words(s), 0;
    next := cursor;
    AppendNoWords(EncodeScript(done));
    while i < |ws|
      invariant i <= |ws| && next == cursor + 8 * i
      invariant buffer[..next] == EncodeScript(done) + EncodeWords(ws[..i], 8)
      invariant forall k :: next <= k < buffer.Length ==> buffer[k] == old(buffer[k])
    {
      PutWord(buffer, next, ws[i]);
      EncodeOneMore(EncodeScript(done), ws, i);
      next, i := next + 8, i + 1;
    }
    assert ws[..i] == ws;
    EncodeStatement(done, s);
  }

  lemma AppendNoWords(before: seq<Byte>)
    ensures before == before + EncodeWords([], 8)
  {}

  lemma EncodeStatement(done: seq<Statement>, s: Statement)
    ensures EncodeScript(done + [s]) == EncodeScript(done) + EncodeWords(Words(s), 8)
    ensures |ScriptWords(done + [s])| == |ScriptWords(done)| + |Words(s)|
  {
    ScriptWordsConcat(done, [s]);
    assert ScriptWords([s]) == Words(s) + [] == Words(s);
    EncodeWordsConcat(ScriptWords(done), Words(s), 8);
  }

  lemma EncodeOneMore(before: seq<Byte>, ws: seq<nat>, i: nat)
    requires i < |ws|
    ensures before + EncodeWords(ws[..i], 8) + Encode(ws[i], 8) == before + EncodeWords(ws[..i + 1], 8)
  {
    EncodeWordsConcat(ws[..i], [ws[i]], 8);
    assert ws[..i + 1] == ws[..i] + [ws[i]];
    assert EncodeWords([ws[i]], 8) == Encode(ws[i], 8) + EncodeWords([], 8);
  }

  method TranscriptMappings(buffer: array<Byte>, cursor: nat, ghost done: seq<Statement>, mappings: seq<Mapping>)
      returns (next: nat)
    requires cursor + 48 * |mappings| <= buffer.Length
    requires buffer[..cursor] == EncodeScript(done)
    modifies buffer
    ensures next == cursor + 48 * |mappings|
    ensures buffer[..next] == EncodeScript(done + MmapStatements(mappings))
    ensures forall k :: next <= k < buffer.Length ==> buffer[k] == old(buffer[k])
  {
    next := cursor;
    assert done + MmapStatements([]) == done;
    for i := 0 to |mappings|
      invariant next == cursor + 48 * i
      invariant buffer[..next] == EncodeScript(done + MmapStatements(mappings[..i]))
      invariant forall k :: next <= k < buffer.Length ==> buffer[k] == old(buffer[k])
    {
      MmapStatementsAppend(done, mappings, i);
      next := PutStatement(buffer, next, done + MmapStatements(mappings[..i]), Mmap(mappings[i]));
    }
    assert mappings[..|mappings|] == mappings;
  }

  lemma MmapStatementsAppend(done: seq<Statement>, mappings: seq<Mapping>, i: nat)
    requires i < |mappings|
    ensures done + MmapStatements(mappings[..i]) + [Mmap(mappings[i])] == done + MmapStatements(mappings[..i + 1])
  {
    MmapStatementsConcat(mappings[..i], [mappings[i]]);
    assert mappings[..i + 1] == mappings[..i] + [mappings[i]];
    assert MmapStatements([mappings[i]]) == [Mmap(mappings[i])] + MmapStatements([]);
  }

  lemma {:induction false} MmapStatementsConcat(a: seq<Mapping>, b: seq<Mapping>)
    ensures MmapStatements(a + b) == MmapStatements(a) + MmapStatements(b)
  {
    if a == [] {
      assert a + b == b;
    } else {
      assert (a + b)[1..] == a[1..] + b;
      MmapStatementsConcat(a[1..], b);
    }
  }

  /** memcpy at the cursor. */
  method PutBytes(buffer: array<Byte>, cursor: nat, bytes: seq<Byte>) returns (next: nat)
    requires cursor + |bytes| <= buffer.Length
    modifies buffer
    ensures next == cursor + |bytes|
    ensures buffer[..next] == old(buffer[..cursor]) + bytes
    ensures forall k :: next <= k < buffer.Length ==> buffer[k] == old(buffer[k])
  {
    next := cursor + |bytes|;
    for i := 0 to |bytes|
      invariant forall k :: 0 <= k < buffer.Length ==>
                  buffer[k] == if cursor <= k < cursor + i then bytes[k - cursor] else old(buffer[k])
    {
      buffer[cursor + i] := bytes[i];
    }
    AppendBytes(old(buffer[..]), buffer[..], cursor, bytes);
  }

  /**
   * ((uint32_t *) buffer)[i] = ((uint64_t *) buffer)[i], for every word before the cursor:
   * the bytes of word i move down from 8 * i to 4 * i.
   */
  method Narrow(buffer: array<Byte>, cursor: nat, ghost ws: seq<nat>)
    requires cursor == 8 * |ws| <= buffer.Length
    requires buffer[..cursor] == EncodeWords(ws, 8)
    modifies buffer
    ensures buffer[..cursor] == ScriptArea(ws, true)
    ensures forall k :: cursor <= k < buffer.Length ==> buffer[k] == old(buffer[k])
  {
    var i := 0;
    while 8 * i < cursor
      invariant i <= |ws|
      invariant buffer[..4 * i] == EncodeWords(ws[..i], 4)
      invariant forall k :: 4 * i <= k < buffer.Length ==> buffer[k] == old(buffer[k])
    {
      ghost var low := Encode(ws[i], 4);
      EncodedWordAt(ws, i);
      forall k | 0 <= k < 4 ensures buffer[8 * i + k] == low[k] {
        assert old(buffer[..cursor])[8 * i..8 * i + 4][k] == old(buffer[..cursor])[8 * i + k];
      }
      NarrowWord(buffer, i, low);
      NarrowOneMore(ws, i);
      i := i + 1;
    }
    assert ws[..i] == ws;
    Splice(old(buffer[..]), buffer[..], |ws|, EncodeWords(ws, 8), EncodeWords(ws, 4));
  }

  method NarrowWord(buffer: array<Byte>, i: nat, ghost low: seq<Byte>)
    requires 8 * i + 8 <= buffer.Length
    requires |low| == 4 && forall k :: 0 <= k < 4 ==> buffer[8 * i + k] == low[k]
    modifies buffer
    ensures buffer[..4 * (i + 1)] == old(buffer[..4 * i]) + low
    ensures forall k :: 4 * (i + 1) <= k < buffer.Length ==> buffer[k] == old(buffer[k])
  {
    var b0, b1, b2, b3 := buffer[8 * i], buffer[8 * i + 1], buffer[8 * i + 2], buffer[8 * i + 3];
    assert b0 == low[0] && b1 == low[1] && b2 == low[2] && b3 == low[3];
    buffer[4 * i], buffer[4 * i + 1], buffer[4 * i + 2], buffer[4 * i + 3] := b0, b1, b2, b3;
    AppendFour(buffer, 4 * i, old(buffer[..4 * i]), low);
  }

  lemma AppendFour(buffer: array<Byte>, at: nat, before: seq<Byte>, low: seq<Byte>)
    requires at + 4 <= buffer.Length && |low| == 4 && buffer[..at] == before
    requires forall k :: 0 <= k < 4 ==> buffer[at + k] == low[k]
    ensures buffer[..at + 4] == before + low
  {
    assert buffer[at..at + 4] == low;
    assert buffer[..at + 4] == buffer[..at] + buffer[at..at + 4];
  }

  lemma Splice(before: seq<Byte>, after: seq<Byte>, n: nat, wide: seq<Byte>, narrow: seq<Byte>)
    requires 8 * n == |wide| <= |before| == |after| && |narrow| == 4 * n
    requires before[..8 * n] == wide && after[..4 * n] == narrow
    requires forall k :: 4 * n <= k < |after| ==> after[k] == before[k]
    ensures after[..8 * n] == narrow + wide[4 * n..]
  {
    forall k | 0 <= k < 8 * n ensures after[..8 * n][k] == (narrow + wide[4 * n..])[k] {
      if k < 4 * n { assert after[..4 * n][k] == after[k]; }
      else { assert before[..8 * n][k] == before[k]; }
    }
  }

  /** The low four bytes of word i, among the encoded 64-bit words. */
  lemma {:induction false} EncodedWordAt(ws: seq<nat>, i: nat)
    requires i < |ws|
    ensures EncodeWords(ws, 8)[8 * i..8 * i + 4] == Encode(ws[i], 4)
  {
    if i == 0 {
      EncodePrefix(ws[0], 4, 8);
      assert EncodeWords(ws, 8)[..4] == Encode(ws[0], 8)[..4];
    } else {
      EncodedWordAt(ws[1..], i - 1);
      assert EncodeWords(ws, 8)[8 * i..8 * i + 4] == EncodeWords(ws[1..], 8)[8 * (i - 1)..8 * (i - 1) + 4];
    }
  }

  lemma {:induction false} EncodePrefix(value: nat, n: nat, width: nat)
    requires n <= width
    ensures Encode(value, width)[..n] == Encode(value, n)
  {
    if n > 0 {
      EncodePrefix(value / 256, n - 1, width - 1);
      assert Encode(value, width)[..n] == [value % 256] + Encode(value / 256, width - 1)[..n - 1];
    }
  }

  lemma NarrowOneMore(ws: seq<nat>, i: nat)
    requires i < |ws|
    ensures EncodeWords(ws[..i + 1], 4) == EncodeWords(ws[..i], 4) + Encode(ws[i], 4)
  {
    assert ws[..i + 1] == ws[..i] + [ws[i]];
    EncodeWordsConcat(ws[..i], [ws[i]], 4);
    assert EncodeWords([ws[i]], 4) == Encode(ws[i], 4) + EncodeWords([], 4);
  }

  // ----- The whole transfer -----

  function ScriptSize(p: ProgramInfo): nat {
    16 + 48 * |p.main.mappings|
    + (if p.interp.Some? then 16 + 48 * |p.interp.value.mappings| else 0)
    + (if NeedsExecStack(p) then 16 else 0)
    + 64
  }

  /** An object: an open statement, then its mappings. */
  method PutObject(buffer: array<Byte>, cursor: nat, ghost done: seq<Statement>, open: Statement, mappings: seq<Mapping>)
      returns (next: nat)
    requires open.Open? && cursor + 16 + 48 * |mappings| <= buffer.Length
    requires buffer[..cursor] == EncodeScript(done)
    modifies buffer
    ensures next == cursor + 16 + 48 * |mappings|
    ensures buffer[..next] == EncodeScript(done + ([open] + MmapStatements(mappings)))
    ensures forall k :: next <= k < buffer.Length ==> buffer[k] == old(buffer[k])
  {
    Regroup(done, [open], MmapStatements(mappings));
    ghost var sofar := done + [open];
    next := PutStatement(buffer, cursor, done, open);
    next := TranscriptMappings(buffer, next, sofar, mappings);
  }

  lemma Regroup(a: seq<Statement>, b: seq<Statement>, c: seq<Statement>)
    ensures a + b + c == a + (b + c)
  {}

  method PutLastStatements(buffer: array<Byte>, cursor: nat, ghost done: seq<Statement>,
                           p: ProgramInfo, sp: nat, page: nat)
      returns (next: nat)
    requires StringSizes(p) <= sp && page > 0 && p.main.mappings != []
    requires cursor + 80 <= buffer.Length || (!NeedsExecStack(p) && cursor + 64 <= buffer.Length)
    requires buffer[..cursor] == EncodeScript(done)
    modifies buffer
    ensures next == cursor + (if NeedsExecStack(p) then 80 else 64)
    ensures buffer[..next] == EncodeScript(done + LastStatements(p, sp, page))
    ensures forall k :: next <= k < buffer.Length ==> buffer[k] == old(buffer[k])
  {
    var string1 := StringsAddress(p, sp);
    var string3 := if p.rawPath.None? then string1 else string1 + |p.main.userPath| + 1 + StringSize(InterpPath(p));
    var entryPoint := if p.interp.Some? then p.interp.value.entry else p.main.entry;
    var start := Start(p.traced, sp, entryPoint, Wrapped(p.phoff + p.main.mappings[0].addr),
                       p.phent, p.phnum, p.main.entry, string3);
    next := cursor;
    ghost var sofar := done;
    if NeedsExecStack(p) {
      var exec := MakeStackExec(PageFloor(sp, page));
      next := PutStatement(buffer, next, done, exec);
      sofar := done + [exec];
      Regroup(done, [exec], [start]);
    } else {
      RegroupNothing([start]);
    }
    next := PutStatement(buffer, next, sofar, start);
  }

  lemma RegroupNothing(a: seq<Statement>)
    ensures [] + a == a
  {}

  method PutScript(buffer: array<Byte>, p: ProgramInfo, sp: nat, page: nat) returns (cursor: nat)
    requires StringSizes(p) <= sp && page > 0 && p.main.mappings != []
    requires ScriptSize(p) <= buffer.Length
    modifies buffer
    ensures cursor == ScriptSize(p)
    ensures buffer[..cursor] == EncodeScript(Script(p, sp, page))
    ensures forall k :: cursor <= k < buffer.Length ==> buffer[k] == old(buffer[k])
  {
    var string1 := StringsAddress(p, sp);
    var string2 := string1 + |p.main.userPath| + 1;
    ghost var done := [Open(false, string1)] + MmapStatements(p.main.mappings);
    cursor := PutObject(buffer, 0, [], Open(false, string1), p.main.mappings);
    RegroupNothing(done);
    if p.interp.Some? {
      cursor := PutObject(buffer, cursor, done, Open(true, string2), p.interp.value.mappings);
    } else {
      NothingMore(done);
    }
    cursor := PutLastStatements(buffer, cursor, done + InterpStatements(p, string2), p, sp, page);
  }

  lemma NothingMore(a: seq<Statement>)
    ensures a + [] == a
  {}

  /**
   * Convert the load info into a load script. The second sanity check on sizes is the
   * assertion below; the first one is part of what PutScript ensures. The block goes to
   * address sp - |block| in the tracee.
   */
  method TransferLoadScript(p: ProgramInfo, sp: nat, page: nat, is32: bool) returns (buffer: array<Byte>)
    requires StringSizes(p) <= sp && page > 0 && p.main.mappings != []
    ensures fresh(buffer)
    ensures buffer[..] == Block(p, sp, page, is32)
  {
    var paddingSize := (sp - StringSizes(p)) % STACK_ALIGNMENT;
    buffer := new Byte[ScriptSize(p) + StringSizes(p) + paddingSize](i => 0);
    var cursor := PutScriptArea(buffer, p, sp, page, is32);
    cursor := PutStrings(buffer, cursor, p);
    assert cursor + paddingSize == buffer.Length;
    ghost var area := ScriptArea(ScriptWords(Script(p, sp, page)), is32);
    ghost var strings := CString(Some(p.main.userPath)) + CString(InterpPath(p)) + CString(p.rawPath);
    WholeBuffer(buffer, cursor, area, strings);
  }

  method PutScriptArea(buffer: array<Byte>, p: ProgramInfo, sp: nat, page: nat, is32: bool) returns (cursor: nat)
    requires StringSizes(p) <= sp && page > 0 && p.main.mappings != []
    requires ScriptSize(p) <= buffer.Length
    modifies buffer
    ensures cursor == ScriptSize(p)
    ensures buffer[..cursor] == ScriptArea(ScriptWords(Script(p, sp, page)), is32)
    ensures forall k :: cursor <= k < buffer.Length ==> buffer[k] == old(buffer[k])
  {
    cursor := PutScript(buffer, p, sp, page);
    if is32 {
      Narrow(buffer, cursor, ScriptWords(Script(p, sp, page)));
    }
  }

  lemma WholeBuffer(buffer: array<Byte>, cursor: nat, area: seq<Byte>, strings: seq<Byte>)
    requires cursor <= buffer.Length && forall k :: cursor <= k < buffer.Length ==> buffer[k] == 0
    requires buffer[..cursor] == area + strings
    ensures buffer[..] == area + (strings + Zeros(buffer.Length - cursor))
  {
    assert buffer[cursor..] == Zeros(buffer.Length - cursor);
    assert buffer[..] == buffer[..cursor] + buffer[cursor..];
  }

  method PutStrings(buffer: array<Byte>, cursor: nat, p: ProgramInfo) returns (next: nat)
    requires cursor + StringSizes(p) <= buffer.Length
    modifies buffer
    ensures next == cursor + StringSizes(p)
    ensures buffer[..next] == old(buffer[..cursor])
                              + (CString(Some(p.main.userPath)) + CString(InterpPath(p)) + CString(p.rawPath))
    ensures forall k :: next <= k < buffer.Length ==> buffer[k] == old(buffer[k])
  {
    next := PutBytes(buffer, cursor, p.main.userPath + [0]);
    if p.interp.Some? {
      next := PutBytes(buffer, next, p.interp.value.userPath + [0]);
    }
    if p.rawPath.Some? {
      next := PutBytes(buffer, next, p.rawPath.value + [0]);
    }
  }
}
