/**
 * From program headers to mappings: what a process sees once the mappings computed for
 * the PT_LOAD segments of an ELF object are in place.
 */
module ElfMapping {
  import opened Wrappers
  import opened MachineWords
  import opened ProcessMemory

  datatype Prot = Prot(read: bool, write: bool, exec: bool)

  /** A PT_LOAD program header. */
  datatype Segment = Segment(vaddr: nat, offset: nat, filesz: nat, memsz: nat, prot: Prot) {
    /** The end of the segment in memory. */
    function End(): nat { vaddr + if memsz > filesz then memsz else filesz }
  }

  /** Mappings are always private and fixed; what differs is MAP_ANONYMOUS. */
  datatype Mapping = Mapping(addr: nat, length: nat, clearLength: nat, prot: Prot, anonymous: bool, offset: nat)

  // ----- Page arithmetic -----

  /** x & ~(page - 1): the start of the page x lies in. */
  function PageFloor(x: nat, page: nat): (r: nat)
    requires page > 0
    ensures r <= x < r + page
  {
    if x < page then 0 else page + PageFloor(x - page, page)
  }

  function PageCeil(x: nat, page: nat): (r: nat)
    requires page > 0
    ensures x <= r < x + page
  {
    PageFloor(x + page - 1, page)
  }

  predicate Aligned(x: nat, page: nat)
    requires page > 0
  {
    PageFloor(x, page) == x
  }

  lemma {:induction false} FloorIsAligned(x: nat, page: nat)
    requires page > 0
    ensures Aligned(PageFloor(x, page), page)
  {
    if x >= page { FloorIsAligned(x - page, page); }
  }

  /** Adding whole pages moves the page start by as much. */
  lemma {:induction false} FloorOfSum(x: nat, y: nat, page: nat)
    requires page > 0 && Aligned(x, page)
    ensures PageFloor(x + y, page) == x + PageFloor(y, page)
  {
    if x >= page { FloorOfSum(x - page, y, page); }
  }

  lemma FloorIsMonotone(x: nat, y: nat, page: nat)
    requires page > 0 && x <= y
    ensures PageFloor(x, page) <= PageFloor(y, page)
  {
    FloorIsAligned(x, page);
    FloorOfSum(PageFloor(x, page), y - PageFloor(x, page), page);
  }

  // ----- Mappings of a segment -----

  // 64-bit arithmetic.
  function Wrapped(x: nat): nat {
    if x < WORD_LIMIT then x else x % WORD_LIMIT
  }

  function Difference(x: nat, y: nat): nat {
    if y <= x then Wrapped(x - y) else Wrapped(x + WORD_LIMIT - Wrapped(y))
  }

  /** x & page_mask */
  function Masked(x: nat, page: nat): nat
    requires page > 0
  {
    PageFloor(Wrapped(x), page)
  }

  function SegmentMappings(s: Segment, page: nat): seq<Mapping>
    requires page > 0
  {
    var start := Masked(s.vaddr, page);
    var end := Masked(s.vaddr + s.filesz + page, page);
    var file := Mapping(start, Difference(end, start), 0, s.prot, false, Masked(s.offset, page));
    if s.memsz > s.filesz then
      var end2 := Masked(s.vaddr + s.memsz + page, page);
      [file.(clearLength := Difference(end, s.vaddr + s.filesz))]
      + (if end2 > end then [Mapping(end, Difference(end2, end), 0, s.prot, true, 0)] else [])
    else [file]
  }

  function AllMappings(segments: seq<Segment>, page: nat): seq<Mapping>
    requires page > 0
  {
    if segments == [] then []
    else AllMappings(segments[..|segments| - 1], page) + SegmentMappings(segments[|segments| - 1], page)
  }

  function Shifted(m: Mapping, base: nat): Mapping {
    m.(addr := Wrapped(m.addr + base))
  }

  function AllShifted(mappings: seq<Mapping>, base: nat): (r: seq<Mapping>)
    ensures |r| == |mappings|
    ensures forall i :: 0 <= i < |r| ==> r[i] == Shifted(mappings[i], base)
  {
    seq(|mappings|, i requires 0 <= i < |mappings| => Shifted(mappings[i], base))
  }

  class LoadInfo {
    var mappings: seq<Mapping>
    var entry: nat

    constructor (entry: nat)
      ensures mappings == [] && this.entry == entry
    {
      mappings, this.entry := [], entry;
    }

    method AddMapping(s: Segment, page: nat)
      requires page > 0
      modifies this`mappings
      ensures mappings == old(mappings) + SegmentMappings(s, page)
    {
      var index := |mappings|;
      var start := Masked(s.vaddr, page);
      var end := Masked(s.vaddr + s.filesz + page, page);
      mappings := mappings + [Mapping(start, Difference(end, start), 0, s.prot, false, Masked(s.offset, page))];
      if s.memsz > s.filesz {
        // How many extra bytes in the last page of the file?
        mappings := mappings[index := mappings[index].(clearLength := Difference(end, s.vaddr + s.filesz))];
        // What does not fit there: anonymous pages.
        start := end;
        end := Masked(s.vaddr + s.memsz + page, page);
        if end > start {
          mappings := mappings + [Mapping(start, Difference(end, start), 0, mappings[index].prot, true, 0)];
        }
      }
    }

    /** The program header iterator, restricted to the PT_LOAD entries. */
    method AddSegments(segments: seq<Segment>, page: nat)
      requires page > 0
      modifies this`mappings
      ensures mappings == old(mappings) + AllMappings(segments, page)
    {
      for i := 0 to |segments|
        invariant mappings == old(mappings) + AllMappings(segments[..i], page)
      {
        OneMoreSegment(old(mappings), segments, i, page);
        AddMapping(segments[i], page);
      }
      assert segments[..|segments|] == segments;
    }

    method AddLoadBase(base: nat)
      modifies this
      ensures mappings == AllShifted(old(mappings), base)
      ensures entry == Wrapped(old(entry) + base)
    {
      var i := 0;
      while i < |mappings|
        invariant i <= |mappings| == |old(mappings)|
        invariant forall j :: 0 <= j < i ==> mappings[j] == Shifted(old(mappings)[j], base)
        invariant forall j :: i <= j < |mappings| ==> mappings[j] == old(mappings)[j]
        invariant entry == old(entry)
      {
        mappings := mappings[i := Shifted(mappings[i], base)];
        i := i + 1;
      }
      entry := Wrapped(entry + base);
    }
  }

  lemma OneMoreSegment(before: seq<Mapping>, segments: seq<Segment>, i: nat, page: nat)
    requires page > 0 && i < |segments|
    ensures before + AllMappings(segments[..i], page) + SegmentMappings(segments[i], page)
         == before + AllMappings(segments[..i + 1], page)
  {
    assert segments[..i + 1][..i] == segments[..i];
  }

  // ----- What the mappings do to memory -----

  /** How much of a mapped file can be accessed: up to the end of its last page, zeros past its own end. */
  function Reach(size: nat, page: nat): nat
    requires page > 0
  {
    PageCeil(size, page)
  }

  /** mmap of one mapping, then clearing of its tail. */
  function Apply(mem: Memory, m: Mapping, file: seq<Byte>, page: nat): Memory
    requires page > 0
  {
    if m.anonymous then Zeroed(mem, m.addr, m.addr + m.length)
    else TailCleared(FileMapped(mem, m.addr, m.addr + m.length, file, m.offset, Reach(|file|, page)), m)
  }

  function TailCleared(mem: Memory, m: Mapping): Memory {
    if m.clearLength == 0 || m.clearLength > m.length then mem
    else Zeroed(mem, m.addr + m.length - m.clearLength, m.addr + m.length)
  }

  function ApplyAll(mem: Memory, mappings: seq<Mapping>, file: seq<Byte>, page: nat): Memory
    requires page > 0
  {
    if mappings == [] then mem
    else Apply(ApplyAll(mem, mappings[..|mappings| - 1], file, page), mappings[|mappings| - 1], file, page)
  }

  /** The kernel accepts the mapping. */
  predicate Acceptable(m: Mapping, page: nat)
    requires page > 0
  {
    && Aligned(m.addr, page) && Aligned(m.offset, page) && m.length > 0
    && m.addr + m.length < WORD_LIMIT
    && m.clearLength <= m.length
  }

  /** Its tail can be cleared: it is writable, and the file has pages as far as that. */
  predicate Clearable(m: Mapping, size: nat, page: nat)
    requires page > 0
  {
    m.clearLength > 0 ==> m.prot.write && m.offset + m.length <= Reach(size, page)
  }

  predicate AllClearable(mappings: seq<Mapping>, size: nat, page: nat)
    requires page > 0
  {
    forall m <- mappings :: !m.anonymous ==> Clearable(m, size, page)
  }

  /** Acceptable, and ending where a page ends. */
  predicate Tidy(m: Mapping, page: nat)
    requires page > 0
  {
    Acceptable(m, page) && Aligned(m.addr + m.length, page)
  }

  predicate Covers(m: Mapping, a: nat) { m.addr <= a < m.addr + m.length }

  lemma {:induction false} ApplyAllFrame(mem: Memory, mappings: seq<Mapping>, file: seq<Byte>, a: nat, page: nat)
    requires page > 0
    requires forall m <- mappings :: !Covers(m, a)
    ensures a in ApplyAll(mem, mappings, file, page) <==> a in mem
    ensures a in mem ==> ApplyAll(mem, mappings, file, page)[a] == mem[a]
  {
    if mappings != [] {
      ApplyAllFrame(mem, mappings[..|mappings| - 1], file, a, page);
      assert !Covers(mappings[|mappings| - 1], a);
    }
  }

  lemma {:induction false} ApplyAllConcat(mem: Memory, ms: seq<Mapping>, ns: seq<Mapping>, file: seq<Byte>, page: nat)
    requires page > 0
    ensures ApplyAll(mem, ms + ns, file, page) == ApplyAll(ApplyAll(mem, ms, file, page), ns, file, page)
  {
    if ns == [] {
      assert ms + ns == ms;
    } else {
      assert (ms + ns)[..|ms + ns| - 1] == ms + ns[..|ns| - 1];
      ApplyAllConcat(mem, ms, ns[..|ns| - 1], file, page);
    }
  }

  // ----- Correctness -----

  /** What the System V gABI, chapter 5, asks of a PT_LOAD entry, and no wrap-around. */
  predicate ValidSegment(s: Segment, page: nat, base: nat)
    requires page > 0
  {
    && s.offset - PageFloor(s.offset, page) == s.vaddr - PageFloor(s.vaddr, page)
    && s.filesz <= s.memsz
    && s.offset < WORD_LIMIT
    && base + s.vaddr + s.memsz + page < WORD_LIMIT
  }

  /** Ascending segments that share no page. */
  predicate ValidSegments(segments: seq<Segment>, page: nat, base: nat)
    requires page > 0
  {
    && (forall s <- segments :: ValidSegment(s, page, base))
    && forall i, j :: 0 <= i < j < |segments| ==>
         PageCeil(segments[i].End(), page) <= PageFloor(segments[j].vaddr, page)
  }

  /** A byte of a segment that starts at an address, out of its file. */
  predicate FromFile(mem: Memory, a: nat, s: Segment, start: nat, file: seq<Byte>) {
    start <= a && s.offset + (a - start) < |file| && a in mem && mem[a] == file[s.offset + (a - start)]
  }

  predicate IsZero(mem: Memory, a: nat) { a in mem && mem[a] == 0 }

  /** File bytes and then zeros, up to an end. */
  ghost predicate LoadedUpTo(mem: Memory, s: Segment, base: nat, end: nat, file: seq<Byte>) {
    var start := base + s.vaddr;
    && (forall a :: start <= a < start + s.filesz ==> FromFile(mem, a, s, start, file))
    && (forall a :: start + s.filesz <= a < start + s.memsz && a < end ==> IsZero(mem, a))
  }

  /** The segment is in memory at its address plus base: its bytes of the file first, zeros after. */
  ghost predicate Loaded(mem: Memory, s: Segment, base: nat, file: seq<Byte>) {
    LoadedUpTo(mem, s, base, base + s.vaddr + s.memsz, file)
  }

  /** The file has the bytes of the segment. */
  predicate InFile(s: Segment, size: nat) { s.filesz > 0 ==> s.offset + s.filesz <= size }

  /** The loader can clear what follows them: the segment is writable, and the file reaches the page they end in. */
  predicate Clears(s: Segment, size: nat, page: nat)
    requires page > 0
  {
    s.memsz > s.filesz ==> s.prot.write && PageFloor(s.offset + s.filesz, page) < size
  }

  // Where the file part and the whole of a segment end, in pages.
  function FileEnd(s: Segment, page: nat): nat
    requires page > 0
  {
    PageFloor(s.vaddr + s.filesz, page) + page
  }

  function MemoryEnd(s: Segment, page: nat): nat
    requires page > 0
  {
    PageFloor(s.vaddr + s.memsz, page) + page
  }

  lemma EndsAreOrdered(s: Segment, page: nat)
    requires page > 0 && s.filesz <= s.memsz
    ensures PageFloor(s.vaddr, page) <= s.vaddr <= s.vaddr + s.filesz < FileEnd(s, page) <= MemoryEnd(s, page)
    ensures s.vaddr + s.memsz < MemoryEnd(s, page)
  {
    FloorIsMonotone(s.vaddr + s.filesz, s.vaddr + s.memsz, page);
  }

  function FileMapping(s: Segment, page: nat, base: nat): Mapping
    requires page > 0 && s.filesz <= s.memsz
  {
    EndsAreOrdered(s, page);
    var start := PageFloor(s.vaddr, page);
    Mapping(base + start, FileEnd(s, page) - start,
            if s.memsz > s.filesz then FileEnd(s, page) - (s.vaddr + s.filesz) else 0,
            s.prot, false, PageFloor(s.offset, page))
  }

  function ZeroMapping(s: Segment, page: nat, base: nat): Mapping
    requires page > 0 && s.filesz <= s.memsz
  {
    EndsAreOrdered(s, page);
    Mapping(base + FileEnd(s, page), MemoryEnd(s, page) - FileEnd(s, page), 0, s.prot, true, 0)
  }

  /** The mappings of a valid segment, in plain arithmetic: one of the file, and maybe one of zeros. */
  lemma SegmentMappingsPlain(s: Segment, page: nat, base: nat)
    requires page > 0 && ValidSegment(s, page, base)
    ensures AllShifted(SegmentMappings(s, page), base)
         == if MemoryEnd(s, page) > FileEnd(s, page) then [FileMapping(s, page, base)] + [ZeroMapping(s, page, base)]
            else [FileMapping(s, page, base)]
  {
    EndsAreOrdered(s, page);
    UnshiftedPlain(s, page);
    var ms := SegmentMappings(s, page);
    assert Shifted(FileMapping(s, page, 0), base) == FileMapping(s, page, base);
    if |ms| == 2 { assert Shifted(ZeroMapping(s, page, 0), base) == ZeroMapping(s, page, base); }
  }

  lemma UnshiftedPlain(s: Segment, page: nat)
    requires page > 0 && ValidSegment(s, page, 0)
    ensures SegmentMappings(s, page)
         == if MemoryEnd(s, page) > FileEnd(s, page) then [FileMapping(s, page, 0)] + [ZeroMapping(s, page, 0)]
            else [FileMapping(s, page, 0)]
  {
    var start, fileEnd, memoryEnd := PageFloor(s.vaddr, page), FileEnd(s, page), MemoryEnd(s, page);
    MaskedPlain(s, page);
    EndsAreOrdered(s, page);
    assert Difference(fileEnd, start) == fileEnd - start;
    assert Difference(fileEnd, s.vaddr + s.filesz) == fileEnd - (s.vaddr + s.filesz);
    assert memoryEnd > fileEnd ==> Difference(memoryEnd, fileEnd) == memoryEnd - fileEnd;
  }

  lemma MaskedPlain(s: Segment, page: nat)
    requires page > 0 && ValidSegment(s, page, 0)
    ensures Masked(s.vaddr, page) == PageFloor(s.vaddr, page)
    ensures Masked(s.vaddr + s.filesz + page, page) == FileEnd(s, page) < WORD_LIMIT
    ensures Masked(s.vaddr + s.memsz + page, page) == MemoryEnd(s, page) < WORD_LIMIT
    ensures Masked(s.offset, page) == PageFloor(s.offset, page)
  {
    FloorPlusPage(s.vaddr + s.filesz, page);
    FloorPlusPage(s.vaddr + s.memsz, page);
  }

  lemma FloorPlusPage(x: nat, page: nat)
    requires page > 0
    ensures PageFloor(x + page, page) == PageFloor(x, page) + page
  {}

  lemma SegmentLoads(mem: Memory, s: Segment, page: nat, base: nat, file: seq<Byte>)
    requires page > 0 && ValidSegment(s, page, base) && InFile(s, |file|)
    ensures Loaded(ApplyAll(mem, AllShifted(SegmentMappings(s, page), base), file, page), s, base, file)
  {
    SegmentMappingsPlain(s, page, base);
    EndsAreOrdered(s, page);
    var first := FileMapping(s, page, base);
    var mem1 := Apply(mem, first, file, page);
    FileMappingLoads(mem, s, first, base, base + FileEnd(s, page), file, page);
    if MemoryEnd(s, page) > FileEnd(s, page) {
      var second := ZeroMapping(s, page, base);
      ApplyAllTwo(mem, first, second, file, page);
      ZeroMappingLoads(mem1, s, second, base, base + FileEnd(s, page), file, page);
    } else {
      ApplyAllOne(mem, first, file, page);
    }
  }

  lemma FileMappingLoads(mem: Memory, s: Segment, m: Mapping, base: nat, end: nat, file: seq<Byte>, page: nat)
    requires page > 0
    requires !m.anonymous && m.addr <= base + s.vaddr <= base + s.vaddr + s.filesz < end == m.addr + m.length
    requires m.offset + (base + s.vaddr - m.addr) == s.offset && InFile(s, |file|)
    requires m.clearLength == if s.memsz > s.filesz then end - (base + s.vaddr + s.filesz) else 0
    ensures LoadedUpTo(Apply(mem, m, file, page), s, base, end, file)
  {
    var start, mem' := base + s.vaddr, Apply(mem, m, file, page);
    forall a | start <= a < start + s.filesz ensures FromFile(mem', a, s, start, file) {
      assert m.offset + (a - m.addr) == s.offset + (a - start) < |file|;
    }
  }

  lemma ZeroMappingLoads(mem: Memory, s: Segment, m: Mapping, base: nat, end: nat, file: seq<Byte>, page: nat)
    requires page > 0
    requires m.anonymous && base + s.vaddr + s.filesz < end == m.addr && base + s.vaddr + s.memsz < m.addr + m.length
    requires LoadedUpTo(mem, s, base, end, file)
    ensures Loaded(Apply(mem, m, file, page), s, base, file)
  {
    var start, mem' := base + s.vaddr, Apply(mem, m, file, page);
    forall a | start <= a < start + s.filesz ensures FromFile(mem', a, s, start, file) {
      assert FromFile(mem, a, s, start, file);
    }
    forall a | start + s.filesz <= a < start + s.memsz ensures IsZero(mem', a) {
      if a < end { assert IsZero(mem, a); }
    }
  }

  lemma ApplyAllOne(mem: Memory, m: Mapping, file: seq<Byte>, page: nat)
    requires page > 0
    ensures ApplyAll(mem, [m], file, page) == Apply(mem, m, file, page)
  {
    assert [m][..0] == [];
  }

  lemma ApplyAllTwo(mem: Memory, m: Mapping, n: Mapping, file: seq<Byte>, page: nat)
    requires page > 0
    ensures ApplyAll(mem, [m] + [n], file, page) == Apply(Apply(mem, m, file, page), n, file, page)
  {
    assert ([m] + [n])[..1] == [m];
    ApplyAllOne(mem, m, file, page);
  }

  /** Every mapping of a segment is acceptable, made of whole pages, and lies at or above the segment's first page. */
  lemma SegmentMappingsAcceptable(s: Segment, page: nat, base: nat)
    requires page > 0 && ValidSegment(s, page, base) && Aligned(base, page)
    ensures forall m <- AllShifted(SegmentMappings(s, page), base) ::
              Tidy(m, page) && m.addr >= base + PageFloor(s.vaddr, page)
  {
    SegmentMappingsPlain(s, page, base);
    PlainAcceptable(s, page, base);
  }

  lemma PlainAcceptable(s: Segment, page: nat, base: nat)
    requires page > 0 && ValidSegment(s, page, base) && Aligned(base, page)
    ensures Tidy(FileMapping(s, page, base), page)
    ensures MemoryEnd(s, page) > FileEnd(s, page) ==> Tidy(ZeroMapping(s, page, base), page)
    ensures ZeroMapping(s, page, base).addr >= FileMapping(s, page, base).addr == base + PageFloor(s.vaddr, page)
  {
    EndsAreOrdered(s, page);
    FloorIsAligned(s.offset, page);
    FloorIsAligned(s.vaddr, page);
    FloorOfSum(base, PageFloor(s.vaddr, page), page);
    PageEndIsAligned(s.vaddr + s.filesz, page, base);
    PageEndIsAligned(s.vaddr + s.memsz, page, base);
    AlignedZero(page);
  }

  /** The end of the page x lies in, counted from a page-aligned base. */
  lemma PageEndIsAligned(x: nat, page: nat, base: nat)
    requires page > 0 && Aligned(base, page)
    ensures Aligned(base + (PageFloor(x, page) + page), page)
  {
    FloorIsAligned(x, page);
    FloorPlusPage(PageFloor(x, page), page);
    FloorOfSum(base, PageFloor(x, page) + page, page);
  }

  lemma AlignedZero(page: nat)
    requires page > 0
    ensures Aligned(0, page)
  {}

  lemma AllShiftedConcat(ms: seq<Mapping>, ns: seq<Mapping>, base: nat)
    ensures AllShifted(ms + ns, base) == AllShifted(ms, base) + AllShifted(ns, base)
  {}

  predicate Misses(m: Mapping, lo: nat, hi: nat) { m.addr >= hi || m.addr + m.length <= lo }

  /** Mappings beside a segment leave it alone. */
  lemma LoadedStays(mem: Memory, ns: seq<Mapping>, s: Segment, base: nat, file: seq<Byte>, image: seq<Byte>, page: nat)
    requires page > 0
    requires Loaded(mem, s, base, image)
    requires forall n <- ns :: Misses(n, base + s.vaddr, base + s.End())
    ensures Loaded(ApplyAll(mem, ns, file, page), s, base, image)
  {
    var start, mem' := base + s.vaddr, ApplyAll(mem, ns, file, page);
    forall a | start <= a < start + s.filesz ensures FromFile(mem', a, s, start, image) {
      assert FromFile(mem, a, s, start, image);
      ApplyAllFrame(mem, ns, file, a, page);
    }
    forall a | start + s.filesz <= a < start + s.memsz ensures IsZero(mem', a) {
      assert IsZero(mem, a);
      ApplyAllFrame(mem, ns, file, a, page);
    }
  }

  lemma {:induction false} ImageAcceptable(segments: seq<Segment>, page: nat, base: nat)
    requires page > 0 && (forall s <- segments :: ValidSegment(s, page, base)) && Aligned(base, page)
    ensures forall m <- AllShifted(AllMappings(segments, page), base) :: Tidy(m, page)
  {
    if segments != [] {
      var n := |segments| - 1;
      ImageAcceptable(segments[..n], page, base);
      SegmentMappingsAcceptable(segments[n], page, base);
      AllShiftedConcat(AllMappings(segments[..n], page), SegmentMappings(segments[n], page), base);
    }
  }

  // ----- What can be cleared -----

  lemma ReachPage(x: nat, size: nat, page: nat)
    requires page > 0 && Aligned(x, page)
    ensures x + page <= Reach(size, page) <==> x < size
  {
    if x < size { FloorOfSum(x, size + page - 1 - x, page); FloorPlusPage(size - 1 - x, page); }
    else { FloorIsMonotone(size + page - 1, x + page - 1, page); FloorOfSum(x, page - 1, page); }
  }

  /** The file mapping of a segment ends with the page of the file that the segment's own bytes end in. */
  lemma LastPage(s: Segment, page: nat, base: nat)
    requires page > 0 && ValidSegment(s, page, base)
    ensures FileMapping(s, page, base).offset + FileMapping(s, page, base).length == PageFloor(s.offset + s.filesz, page) + page
  {
    var low := s.vaddr - PageFloor(s.vaddr, page);
    EndsAreOrdered(s, page);
    FloorIsAligned(s.vaddr, page);
    FloorIsAligned(s.offset, page);
    FloorOfSum(PageFloor(s.vaddr, page), low + s.filesz, page);
    FloorOfSum(PageFloor(s.offset, page), low + s.filesz, page);
  }

  lemma SegmentClearsIff(s: Segment, size: nat, page: nat, base: nat)
    requires page > 0 && ValidSegment(s, page, base)
    ensures AllClearable(AllShifted(SegmentMappings(s, page), base), size, page) <==> Clears(s, size, page)
  {
    SegmentMappingsPlain(s, page, base);
    EndsAreOrdered(s, page);
    hide SegmentMappings, AllShifted;
    LastPage(s, page, base);
    FloorIsAligned(s.offset + s.filesz, page);
    ReachPage(PageFloor(s.offset + s.filesz, page), size, page);
    var m := FileMapping(s, page, base);
    var ms := AllShifted(SegmentMappings(s, page), base);
    assert ms[0] == m && (|ms| > 1 ==> ms[1].anonymous);
    assert Clearable(m, size, page) <==> Clears(s, size, page);
  }

  /**
   * The tails of all mappings can be cleared if and only if every segment with more memory
   * than file is writable, and the file reaches the page in which its own bytes end: a page
   * later than that is mapped too when they end where a page does.
   */
  lemma {:induction false} ImageClearsIff(segments: seq<Segment>, size: nat, page: nat, base: nat)
    requires page > 0 && forall s <- segments :: ValidSegment(s, page, base)
    ensures AllClearable(AllShifted(AllMappings(segments, page), base), size, page)
       <==> forall s <- segments :: Clears(s, size, page)
  {
    if segments != [] {
      ImageClearsIff(segments[..|segments| - 1], size, page, base);
      OneMoreClears(segments, size, page, base);
    }
  }

  lemma OneMoreClears(segments: seq<Segment>, size: nat, page: nat, base: nat)
    requires page > 0 && segments != [] && forall s <- segments :: ValidSegment(s, page, base)
    ensures AllClearable(AllShifted(AllMappings(segments, page), base), size, page)
       <==> AllClearable(AllShifted(AllMappings(segments[..|segments| - 1], page), base), size, page)
            && Clears(segments[|segments| - 1], size, page)
  {
    hide AllClearable, AllShifted, Clears, SegmentMappings, ValidSegment;
    var n := |segments| - 1;
    SegmentClearsIff(segments[n], size, page, base);
    AllShiftedConcat(AllMappings(segments[..n], page), SegmentMappings(segments[n], page), base);
    AllClearableConcat(AllShifted(AllMappings(segments[..n], page), base),
                       AllShifted(SegmentMappings(segments[n], page), base), size, page);
  }

  lemma AllClearableConcat(ms: seq<Mapping>, ns: seq<Mapping>, size: nat, page: nat)
    requires page > 0
    ensures AllClearable(ms + ns, size, page) <==> AllClearable(ms, size, page) && AllClearable(ns, size, page)
  {
    assert forall m <- ms :: m in ms + ns;
    assert forall n <- ns :: n in ms + ns;
  }

  // ----- Whole objects -----

  /**
   * Loading is correct: after all the mappings of an object, every segment the file has the
   * bytes of is in memory as the gABI says, so no later mapping or clearing damages an earlier
   * segment. A page-aligned load base moves the whole image.
   */
  lemma {:induction false} ImageLoads(mem: Memory, segments: seq<Segment>, page: nat, base: nat, file: seq<Byte>)
    requires page > 0 && ValidSegments(segments, page, base) && Aligned(base, page)
    ensures forall s <- segments ::
              Loaded(ApplyAll(mem, AllShifted(AllMappings(segments, page), base), file, page), s, base, file)
              <==> InFile(s, |file|)
  {
    if segments != [] {
      var n := |segments| - 1;
      var front, last := segments[..n], segments[n];
      var ms, ns := AllShifted(AllMappings(front, page), base), AllShifted(SegmentMappings(last, page), base);
      var mem1 := ApplyAll(mem, ms, file, page);
      AllShiftedConcat(AllMappings(front, page), SegmentMappings(last, page), base);
      ApplyAllConcat(mem, ms, ns, file, page);
      ImageLoads(mem, front, page, base, file);
      if InFile(last, |file|) { SegmentLoads(mem1, last, page, base, file); }
      SegmentMappingsAcceptable(last, page, base);
      FrontStays(mem1, segments, ns, page, base, file);
      forall s <- segments
        ensures Loaded(ApplyAll(mem1, ns, file, page), s, base, file) <==> InFile(s, |file|)
      {
        LoadedIsInFile(ApplyAll(mem1, ns, file, page), s, base, file);
        assert s in front || s == last;
      }
    }
  }

  lemma LoadedIsInFile(mem: Memory, s: Segment, base: nat, file: seq<Byte>)
    ensures Loaded(mem, s, base, file) ==> InFile(s, |file|)
  {
    if Loaded(mem, s, base, file) && s.filesz > 0 {
      var start := base + s.vaddr;
      var last := start + s.filesz - 1;
      assert start <= last < start + s.filesz;
      assert FromFile(mem, last, s, start, file);
    }
  }

  lemma FrontStays(mem: Memory, segments: seq<Segment>, ns: seq<Mapping>, page: nat, base: nat, file: seq<Byte>)
    requires page > 0 && segments != [] && ValidSegments(segments, page, base)
    requires forall s <- segments[..|segments| - 1] :: InFile(s, |file|) ==> Loaded(mem, s, base, file)
    requires forall n <- ns :: n.addr >= base + PageFloor(segments[|segments| - 1].vaddr, page)
    ensures forall s <- segments[..|segments| - 1] ::
              InFile(s, |file|) ==> Loaded(ApplyAll(mem, ns, file, page), s, base, file)
  {
    var n := |segments| - 1;
    forall i | 0 <= i < n && InFile(segments[i], |file|)
      ensures Loaded(ApplyAll(mem, ns, file, page), segments[..n][i], base, file)
    {
      assert PageCeil(segments[i].End(), page) <= PageFloor(segments[n].vaddr, page);
      assert segments[..n][i] == segments[i];
      LoadedStays(mem, ns, segments[i], base, file, file, page);
    }
  }

  // ----- Protections -----

  /** What may be done at an address, after all mappings: a later one replaces an earlier one. */
  function ProtAt(mappings: seq<Mapping>, a: nat): Option<Prot> {
    if mappings == [] then None
    else if Covers(mappings[|mappings| - 1], a) then Some(mappings[|mappings| - 1].prot)
    else ProtAt(mappings[..|mappings| - 1], a)
  }

  lemma {:induction false} ProtAtConcat(ms: seq<Mapping>, ns: seq<Mapping>, a: nat)
    ensures ProtAt(ms + ns, a) == if ProtAt(ns, a).Some? then ProtAt(ns, a) else ProtAt(ms, a)
  {
    if ns == [] {
      assert ms + ns == ms;
    } else {
      var n := |ns| - 1;
      assert (ms + ns)[|ms + ns| - 1] == ns[n] && (ms + ns)[..|ms + ns| - 1] == ms + ns[..n];
      ProtAtConcat(ms, ns[..n], a);
    }
  }

  lemma SegmentIsProtected(s: Segment, page: nat, base: nat, a: nat)
    requires page > 0 && ValidSegment(s, page, base)
    ensures var prot := ProtAt(AllShifted(SegmentMappings(s, page), base), a);
            && (base + s.vaddr <= a < base + s.End() ==> prot == Some(s.prot))
            && (a < base + PageFloor(s.vaddr, page) ==> prot == None)
  {
    SegmentMappingsPlain(s, page, base);
    EndsAreOrdered(s, page);
    var file, zero := FileMapping(s, page, base), ZeroMapping(s, page, base);
    assert [file] + [zero] == [file, zero] && [file, zero][..1] == [file] && [file][..0] == [];
    assert ProtAt([file], a) == if Covers(file, a) then Some(file.prot) else None;
  }

  /**
   * Every byte of every segment can be read, written and executed just as its program header says,
   * though the mapping of a segment may reach into the first page of the next one.
   */
  lemma {:induction false} ImageIsProtected(segments: seq<Segment>, page: nat, base: nat, s: Segment, a: nat)
    requires page > 0 && ValidSegments(segments, page, base) && s in segments && base + s.vaddr <= a < base + s.End()
    ensures ProtAt(AllShifted(AllMappings(segments, page), base), a) == Some(s.prot)
  {
    var n := |segments| - 1;
    var front, last := segments[..n], segments[n];
    AllShiftedConcat(AllMappings(front, page), SegmentMappings(last, page), base);
    ProtAtConcat(AllShifted(AllMappings(front, page), base), AllShifted(SegmentMappings(last, page), base), a);
    SegmentIsProtected(last, page, base, a);
    if s != last {
      var i :| 0 <= i < n && segments[i] == s;
      assert front[i] == s && PageCeil(s.End(), page) <= PageFloor(last.vaddr, page);
      ImageIsProtected(front, page, base, s, a);
    }
  }

  /** A load base that is not page-aligned makes the kernel refuse the very first mapping. */
  lemma MisalignedBaseIsRefused(s: Segment, page: nat, base: nat)
    requires page > 0 && ValidSegment(s, page, base)
    ensures Acceptable(AllShifted(SegmentMappings(s, page), base)[0], page) <==> Aligned(base, page)
  {
    SegmentMappingsPlain(s, page, base);
    FloorIsAligned(s.vaddr, page);
    FloorOfSum(PageFloor(s.vaddr, page), base, page);
    if Aligned(base, page) { SegmentMappingsAcceptable(s, page, base); }
  }
}
