/**
 * Access to the memory of a tracee: word by word through ptrace(2), or at once when the
 * kernel can. Both do the same, to the byte.
 */
module TraceeMemory {
  import opened ElfMapping
  import opened ProcessMemory
  import opened Wrappers

  const WORD: nat := 8

  /** PTRACE_PEEKDATA: the bytes of the word at an address. */
  function Peek(mem: Memory, at: nat): (r: Option<seq<Byte>>)
    ensures r.Some? <==> Mapped(mem, at, WORD)
    ensures r.Some? ==> |r.value| == WORD && forall k :: 0 <= k < WORD ==> r.value[k] == mem[at + k]
  {
    if !Mapped(mem, at, WORD) then None
    else Some([mem[at], mem[at + 1], mem[at + 2], mem[at + 3], mem[at + 4], mem[at + 5], mem[at + 6], mem[at + 7]])
  }

  /**
   * A peek whose success is told by errno: it is taken for a failure when errno was set before
   * and the C library leaves it alone, that is, when errno is stale.
   */
  function CheckedPeek(mem: Memory, at: nat, stale: bool): (r: Option<seq<Byte>>)
    ensures r.Some? <==> !stale && Peek(mem, at).Some?
    ensures r.Some? ==> r == Peek(mem, at)
  {
    if stale then None else Peek(mem, at)
  }

  predicate Readable(mem: Memory, src: nat, i: nat) { Peek(mem, src + WORD * i).Some? }

  lemma ReadableIff(mem: Memory, src: nat, i: nat)
    ensures Readable(mem, src, i) <==> Peek(mem, src + WORD * i).Some?
    ensures Readable(mem, src, i) <==> Mapped(mem, src + WORD * i, WORD)
  {}

  /** The words a range reaches are there, the last one as a whole. */
  ghost predicate WordsThere(mem: Memory, at: nat, size: nat) {
    forall i: nat :: WORD * i < size ==> Readable(mem, at, i)
  }

  /** The bytes at an address replaced. */
  function Written(mem: Memory, at: nat, bytes: seq<Byte>): (r: Memory)
    ensures forall a: nat :: a in r <==> a in mem || at <= a < at + |bytes|
    ensures forall a: nat :: a in r ==> r[a] == if at <= a < at + |bytes| then bytes[a - at] else mem[a]
    decreases |bytes|
  {
    if bytes == [] then mem
    else Written(mem, at, bytes[..|bytes| - 1])[at + |bytes| - 1 := bytes[|bytes| - 1]]
  }

  lemma SameMemory(mem: Memory, mem': Memory)
    requires forall a: nat :: a in mem <==> a in mem'
    requires forall a: nat :: a in mem ==> mem[a] == mem'[a]
    ensures mem == mem'
  {}

  lemma WrittenConcat(mem: Memory, at: nat, a: seq<Byte>, b: seq<Byte>)
    ensures Written(Written(mem, at, a), at + |a|, b) == Written(mem, at, a + b)
  {
    SameMemory(Written(Written(mem, at, a), at + |a|, b), Written(mem, at, a + b));
  }

  // ----- Writing -----

  /** The last word with some of its bytes replaced. */
  function Merged(word: seq<Byte>, bytes: seq<Byte>): (r: seq<Byte>)
    requires |bytes| <= |word|
    ensures |r| == |word| && forall k :: 0 <= k < |r| ==> r[k] == if k < |bytes| then bytes[k] else word[k]
  {
    bytes + word[|bytes|..]
  }

  lemma MergedIsWritten(mem: Memory, at: nat, word: seq<Byte>, bytes: seq<Byte>)
    requires Peek(mem, at) == Some(word) && |bytes| <= WORD
    ensures Written(mem, at, Merged(word, bytes)) == Written(mem, at, bytes)
  {
    hide Peek, Merged, Written, Mapped;
    var w, b := Written(mem, at, Merged(word, bytes)), Written(mem, at, bytes);
    assert forall k :: at <= k < at + WORD ==> k in mem && word[k - at] == mem[k] by { PeekedBytes(mem, at); }
    SameMemory(w, b);
  }

  lemma PeekedBytes(mem: Memory, at: nat)
    requires Peek(mem, at).Some?
    ensures forall k :: at <= k < at + WORD ==> k in mem && Peek(mem, at).value[k - at] == mem[k]
  {
    hide Peek;
    forall k | at <= k < at + WORD ensures k in mem && Peek(mem, at).value[k - at] == mem[k] {
      assert mem[at + (k - at)] == Peek(mem, at).value[k - at];
    }
  }

  /** Nothing changed but bytes of [lo, hi), and nothing was mapped. */
  ghost predicate Touches(mem: Memory, mem': Memory, lo: nat, hi: nat) {
    && (forall a: nat :: a in mem' <==> a in mem)
    && forall a: nat :: a in mem && !(lo <= a < hi) ==> mem'[a] == mem[a]
  }

  lemma WrittenTouches(mem: Memory, mem': Memory, lo: nat, hi: nat, at: nat, bytes: seq<Byte>)
    requires Touches(mem, mem', lo, hi) && Mapped(mem', at, |bytes|) && lo <= at && at + |bytes| <= hi
    ensures Touches(mem, Written(mem', at, bytes), lo, hi)
  {}

  /** Only bytes are written that are in the last word: the others are what they were. */
  lemma MergedTouches(mem: Memory, mem': Memory, lo: nat, hi: nat, at: nat, word: seq<Byte>, bytes: seq<Byte>)
    requires Touches(mem, mem', lo, hi) && Peek(mem', at) == Some(word) && |bytes| <= WORD
    requires lo <= at && at + |bytes| <= hi
    ensures Touches(mem, Written(mem', at, Merged(word, bytes)), lo, hi)
  {
    hide Peek, Merged, Written, Touches;
    MergedIsWritten(mem', at, word, bytes);
    WrittenTouches(mem, mem', lo, hi, at, bytes);
  }

  /** The full words, one by one. */
  method WriteWords(mem: Memory, dest: nat, src: seq<Byte>, n: nat) returns (written: Memory, ok: bool)
    requires WORD * n <= |src|
    ensures ok ==> written == Written(mem, dest, src[..WORD * n])
    ensures Touches(mem, written, dest, dest + |src|)
    ensures ok <==> forall i: nat :: i < n ==> Readable(mem, dest, i)
  {
    hide Written, Mapped, Touches, Readable;
    written := mem;
    WrittenNothing(mem, dest, |src|);
    assert src[..0] == [];
    var i := 0;
    while i < n
      invariant i <= n && written == Written(mem, dest, src[..WORD * i]) && Touches(mem, written, dest, dest + |src|)
      invariant forall j: nat :: j < i ==> Readable(mem, dest, j)
    {
      SameReadable(mem, written, dest, |src|, i);
      ReadableIff(written, dest, i);
      if !Mapped(written, dest + WORD * i, WORD) { return written, false; }
      WrittenOneMore(mem, dest, src, i);
      WrittenTouches(mem, written, dest, dest + |src|, dest + WORD * i, src[WORD * i..WORD * i + WORD]);
      written := Written(written, dest + WORD * i, src[WORD * i..WORD * i + WORD]);
      i := i + 1;
    }
    ok := true;
  }

  lemma WrittenNothing(mem: Memory, at: nat, size: nat)
    ensures Written(mem, at, []) == mem && Touches(mem, mem, at, at + size)
  {}

  lemma SameReadable(mem: Memory, mem': Memory, lo: nat, size: nat, i: nat)
    requires Touches(mem, mem', lo, lo + size)
    ensures Readable(mem, lo, i) <==> Readable(mem', lo, i)
  {
    ReadableIff(mem, lo, i);
    ReadableIff(mem', lo, i);
    hide Readable;
  }

  lemma SameWords(mem: Memory, mem': Memory, lo: nat, size: nat)
    requires Touches(mem, mem', lo, lo + size)
    ensures WordsThere(mem, lo, size) <==> WordsThere(mem', lo, size)
  {
    hide Readable, Touches;
    forall i: nat | WORD * i < size ensures Readable(mem, lo, i) <==> Readable(mem', lo, i) {
      SameReadable(mem, mem', lo, size, i);
    }
  }

  /** The word by word way of write_data(), the last word merged with what it keeps. */
  method WriteByWords(mem: Memory, dest: nat, src: seq<Byte>, stale: bool) returns (written: Memory, ok: bool)
    ensures ok ==> written == Written(mem, dest, src)
    ensures Touches(mem, written, dest, dest + |src|)
    ensures ok <==> WordsThere(mem, dest, |src|) && (|src| % WORD > 0 ==> !stale)
  {
    hide Written, Touches, Peek, Merged, CheckedPeek, Readable;
    var trailing := |src| % WORD;
    var fullWords := (|src| - trailing) / WORD;
    written, ok := WriteWords(mem, dest, src, fullWords);
    if !ok { return; }
    if trailing == 0 {
      assert src[..WORD * fullWords] == src;
      return;
    }
    var at, tail := dest + WORD * fullWords, src[WORD * fullWords..];
    var word := CheckedPeek(written, at, stale);
    SameReadable(mem, written, dest, |src|, fullWords);
    ReadableIff(written, dest, fullWords);
    if word.None? { return written, false; }
    MergedIsWritten(written, at, word.value, tail);
    MergedTouches(mem, written, dest, dest + |src|, at, word.value, tail);
    WrittenConcat(mem, dest, src[..WORD * fullWords], tail);
    assert src[..WORD * fullWords] + tail == src;
    written := Written(written, at, Merged(word.value, tail));
  }

  /**
   * write_data(): at first as much as the kernel writes at once, and if that is not all of it,
   * everything again word by word.
   */
  method WriteData(mem: Memory, dest: nat, src: seq<Byte>, atOnce: nat, stale: bool) returns (written: Memory, ok: bool)
    requires atOnce <= |src| && Mapped(mem, dest, atOnce)
    ensures ok ==> written == Written(mem, dest, src)
    ensures Touches(mem, written, dest, dest + |src|)
    ensures ok <==> atOnce == |src| || (WordsThere(mem, dest, |src|) && (|src| % WORD > 0 ==> !stale))
  {
    hide Written, Touches, Mapped, WordsThere;
    var base := Written(mem, dest, src[..atOnce]);
    WrittenNothing(mem, dest, |src|);
    WrittenTouches(mem, mem, dest, dest + |src|, dest, src[..atOnce]);
    if atOnce == |src| {
      assert src[..atOnce] == src;
      return base, true;
    }
    written, ok := WriteByWords(base, dest, src, stale);
    RewrittenWhole(mem, dest, src, atOnce);
    TouchesTwice(mem, base, written, dest, dest + |src|);
    SameWords(mem, base, dest, |src|);
  }

  lemma TouchesTwice(mem: Memory, mem1: Memory, mem2: Memory, lo: nat, hi: nat)
    requires Touches(mem, mem1, lo, hi) && Touches(mem1, mem2, lo, hi)
    ensures Touches(mem, mem2, lo, hi)
  {}

  lemma WrittenOneMore(mem: Memory, dest: nat, src: seq<Byte>, i: nat)
    requires WORD * i + WORD <= |src|
    ensures Written(Written(mem, dest, src[..WORD * i]), dest + WORD * i, src[WORD * i..WORD * i + WORD])
         == Written(mem, dest, src[..WORD * (i + 1)])
  {
    hide Written;
    WrittenConcat(mem, dest, src[..WORD * i], src[WORD * i..WORD * i + WORD]);
    assert src[..WORD * i] + src[WORD * i..WORD * i + WORD] == src[..WORD * (i + 1)];
  }

  /** Writing everything hides what was written before of it. */
  lemma RewrittenWhole(mem: Memory, dest: nat, src: seq<Byte>, n: nat)
    requires n <= |src|
    ensures Written(Written(mem, dest, src[..n]), dest, src) == Written(mem, dest, src)
  {
    SameMemory(Written(Written(mem, dest, src[..n]), dest, src), Written(mem, dest, src));
  }

  // ----- Reading -----

  /** The buffer holds the first n bytes at an address, and is otherwise as it was. */
  ghost predicate Copied(mem: Memory, src: nat, buffer: seq<Byte>, before: seq<Byte>, n: nat, max: nat) {
    && n <= max <= |buffer| == |before|
    && (forall a :: src <= a < src + n ==> a in mem && buffer[a - src] == mem[a])
    && forall k :: max <= k < |buffer| ==> buffer[k] == before[k]
  }

  /** Copy bytes of the tracee into the buffer. */
  method CopyBytes(bytes: seq<Byte>, dest: array<Byte>, offset: nat)
    requires offset + |bytes| <= dest.Length
    modifies dest
    ensures forall k :: 0 <= k < dest.Length ==>
              dest[k] == if offset <= k < offset + |bytes| then bytes[k - offset] else old(dest[k])
  {
    for i := 0 to |bytes|
      invariant forall k :: 0 <= k < dest.Length ==>
                  dest[k] == if offset <= k < offset + i then bytes[k - offset] else old(dest[k])
    {
      dest[offset + i] := bytes[i];
    }
  }

  ghost predicate BytesAt(mem: Memory, at: nat, bytes: seq<Byte>) {
    forall a :: at <= a < at + |bytes| ==> a in mem && bytes[a - at] == mem[a]
  }

  lemma PeekedAt(mem: Memory, at: nat)
    requires Peek(mem, at).Some?
    ensures BytesAt(mem, at, Peek(mem, at).value)
  {
    hide Peek;
    PeekedBytes(mem, at);
  }

  lemma Prefix(mem: Memory, at: nat, bytes: seq<Byte>, n: nat)
    requires BytesAt(mem, at, bytes) && n <= |bytes|
    ensures BytesAt(mem, at, bytes[..n])
  {}

  lemma NothingCopied(mem: Memory, src: nat, buffer: seq<Byte>, max: nat)
    requires max <= |buffer|
    ensures Copied(mem, src, buffer, buffer, 0, max)
  {}

  lemma BeyondIsKept(mem: Memory, src: nat, buffer: seq<Byte>, start: seq<Byte>, n: nat, max: nat)
    requires Copied(mem, src, buffer, start, n, max)
    ensures forall k :: max <= k < |buffer| ==> buffer[k] == start[k]
  {}

  /** One piece more. */
  method CopyPiece(mem: Memory, src: nat, dest: array<Byte>, max: nat, offset: nat, bytes: seq<Byte>, ghost start: seq<Byte>)
    requires max <= dest.Length && offset + |bytes| <= max
    requires Copied(mem, src, dest[..], start, offset, max) && BytesAt(mem, src + offset, bytes)
    modifies dest
    ensures Copied(mem, src, dest[..], start, offset + |bytes|, max)
  {
    CopyBytes(bytes, dest, offset);
    assert forall k :: 0 <= k < offset ==> dest[k] == old(dest[..])[k];
    forall a | src <= a < src + offset + |bytes| ensures a in mem && dest[a - src] == mem[a] {
      if a >= src + offset { assert bytes[a - (src + offset)] == mem[a]; }
    }
  }

  /** The word by word way of read_data(). */
  method ReadByWords(mem: Memory, src: nat, dest: array<Byte>, size: nat, stale: bool) returns (ok: bool)
    requires size <= dest.Length
    modifies dest
    ensures ok ==> Copied(mem, src, dest[..], old(dest[..]), size, size)
    ensures forall k :: size <= k < dest.Length ==> dest[k] == old(dest[k])
    ensures ok <==> WordsThere(mem, src, size) && (size > 0 ==> !stale)
  {
    hide Peek, Copied, BytesAt, CheckedPeek, Readable;
    ghost var start := dest[..];
    NothingCopied(mem, src, start, size);
    var trailing := size % WORD;
    var fullWords := (size - trailing) / WORD;
    var i := 0;
    while i < fullWords
      invariant i <= fullWords && Copied(mem, src, dest[..], start, WORD * i, size)
      invariant forall j: nat :: j < i ==> Readable(mem, src, j)
      invariant i > 0 ==> !stale
    {
      var word := CheckedPeek(mem, src + WORD * i, stale);
      ReadableIff(mem, src, i);
      if word.None? {
        BeyondIsKept(mem, src, dest[..], start, WORD * i, size);
        return false;
      }
      PeekedAt(mem, src + WORD * i);
      CopyPiece(mem, src, dest, size, WORD * i, word.value, start);
      i := i + 1;
    }
    BeyondIsKept(mem, src, dest[..], start, WORD * i, size);
    if trailing == 0 { return true; }
    var word := CheckedPeek(mem, src + WORD * i, stale);
    ReadableIff(mem, src, i);
    if word.None? { return false; }
    PeekedAt(mem, src + WORD * i);
    Prefix(mem, src + WORD * i, word.value, trailing);
    CopyPiece(mem, src, dest, size, WORD * i, word.value[..trailing], start);
    BeyondIsKept(mem, src, dest[..], start, size, size);
    ok := true;
  }

  /**
   * read_data(): at first as much as the kernel reads at once, and if that is not all of it,
   * everything again word by word.
   */
  method ReadData(mem: Memory, src: nat, dest: array<Byte>, size: nat, atOnce: nat, stale: bool) returns (ok: bool)
    requires atOnce <= size <= dest.Length && Mapped(mem, src, atOnce)
    modifies dest
    ensures ok ==> Copied(mem, src, dest[..], old(dest[..]), size, size)
    ensures forall k :: size <= k < dest.Length ==> dest[k] == old(dest[k])
    ensures ok <==> atOnce == size || (WordsThere(mem, src, size) && !stale)
  {
    hide Copied, BytesAt, Mapped, WordsThere;
    ghost var start := dest[..];
    NothingCopied(mem, src, start, size);
    BytesAreThere(mem, src, atOnce);
    CopyPiece(mem, src, dest, size, 0, Bytes(mem, src, atOnce), start);
    BeyondIsKept(mem, src, dest[..], start, atOnce, size);
    if atOnce == size { return true; }
    ghost var before := dest[..];
    ok := ReadByWords(mem, src, dest, size, stale);
    if ok { SameBeyond(mem, src, dest[..], before, start, size, size); }
  }

  /** What is read after a write is what was written. */
  lemma ReadAfterWrite(mem: Memory, at: nat, bytes: seq<Byte>, buffer: seq<Byte>, before: seq<Byte>)
    requires Copied(Written(mem, at, bytes), at, buffer, before, |bytes|, |bytes|)
    ensures buffer[..|bytes|] == bytes
  {
    forall k | 0 <= k < |bytes| ensures buffer[k] == bytes[k] {
      assert at + k in Written(mem, at, bytes);
    }
  }

  // ----- Strings -----

  /** No end-of-string in the first n bytes. */
  ghost predicate NoNul(mem: Memory, src: nat, n: nat) {
    forall a :: src <= a < src + n ==> a in mem && mem[a] != 0
  }

  /**
   * What a count means: n bytes up to and with the first end-of-string, or max + 1 when there
   * is none in the first max bytes.
   */
  ghost predicate IsCount(mem: Memory, src: nat, max: nat, n: nat) {
    if n <= max then n > 0 && NoNul(mem, src, n - 1) && src + n - 1 in mem && mem[src + n - 1] == 0
    else n == max + 1 && NoNul(mem, src, max)
  }

  /** There is at most one such count, so that all ways to count agree. */
  lemma CountIsUnique(mem: Memory, src: nat, max: nat, n: nat, n': nat)
    requires IsCount(mem, src, max, n) && IsCount(mem, src, max, n')
    ensures n == n'
  {}

  /** strnlen() */
  method FindNul(bytes: seq<Byte>) returns (n: nat)
    ensures n <= |bytes| && (forall k :: 0 <= k < n ==> bytes[k] != 0) && (n < |bytes| ==> bytes[n] == 0)
  {
    n := 0;
    while n < |bytes| && bytes[n] != 0
      invariant n <= |bytes| && forall k :: 0 <= k < n ==> bytes[k] != 0
    {
      n := n + 1;
    }
  }

  lemma NulFound(mem: Memory, src: nat, max: nat, offset: nat, bytes: seq<Byte>, n: nat)
    requires NoNul(mem, src, offset) && BytesAt(mem, src + offset, bytes) && n <= |bytes| && offset + |bytes| <= max
    requires (forall k :: 0 <= k < n ==> bytes[k] != 0) && (n < |bytes| ==> bytes[n] == 0)
    ensures n < |bytes| ==> IsCount(mem, src, max, offset + n + 1)
    ensures n == |bytes| ==> NoNul(mem, src, offset + |bytes|)
  {
    forall a | src + offset <= a < src + offset + n ensures a in mem && mem[a] != 0 {
      assert bytes[a - (src + offset)] == mem[a];
    }
    if n < |bytes| { assert bytes[src + offset + n - (src + offset)] == mem[src + offset + n]; }
  }

  /** One piece of a string: copied, and searched for its end. */
  method TakePiece(mem: Memory, src: nat, dest: array<Byte>, max: nat, offset: nat, bytes: seq<Byte>, ghost start: seq<Byte>)
      returns (n: nat)
    requires max <= dest.Length && offset + |bytes| <= max
    requires Copied(mem, src, dest[..], start, offset, max) && NoNul(mem, src, offset) && BytesAt(mem, src + offset, bytes)
    modifies dest
    ensures n <= |bytes| && Copied(mem, src, dest[..], start, offset + |bytes|, max)
    ensures n < |bytes| ==> IsCount(mem, src, max, offset + n + 1)
    ensures n == |bytes| ==> NoNul(mem, src, offset + |bytes|)
  {
    hide Copied, NoNul, IsCount, BytesAt;
    CopyPiece(mem, src, dest, max, offset, bytes, start);
    n := FindNul(bytes);
    NulFound(mem, src, max, offset, bytes, n);
  }

  /** Word i is reached, and can not be read: this may happen past the end of what is asked for. */
  ghost predicate Stuck(mem: Memory, src: nat, i: nat) {
    NoNul(mem, src, WORD * i) && !Readable(mem, src, i)
  }

  ghost predicate Faults(mem: Memory, src: nat, max: nat) {
    exists i: nat :: WORD * i <= max && Stuck(mem, src, i)
  }

  /** No word is stuck when all were read, up to the one with the end-of-string or the last one. */
  lemma NeverStuck(mem: Memory, src: nat, max: nat, i: nat)
    requires forall j: nat :: j <= i ==> Readable(mem, src, j)
    requires max < WORD * (i + 1) || !NoNul(mem, src, WORD * (i + 1))
    ensures !Faults(mem, src, max)
  {
    hide Readable;
    forall j: nat | WORD * j <= max ensures !Stuck(mem, src, j) {
      if j > i { NoNulBefore(mem, src, WORD * (i + 1), WORD * j); }
    }
  }

  lemma NoNulBefore(mem: Memory, src: nat, n: nat, m: nat)
    requires n <= m
    ensures NoNul(mem, src, m) ==> NoNul(mem, src, n)
  {}

  /** A count tells where there is an end-of-string. */
  lemma CountHasNul(mem: Memory, src: nat, max: nat, n: nat, m: nat)
    requires IsCount(mem, src, max, n) && n <= max && n <= m
    ensures !NoNul(mem, src, m)
  {
    assert src + n - 1 in mem ==> mem[src + n - 1] == 0;
  }

  /** The word by word way of read_string(); it looks at one more word when there is no trailing byte. */
  method ReadStringByWords(mem: Memory, src: nat, dest: array<Byte>, max: nat, stale: bool) returns (count: Option<nat>)
    requires max <= dest.Length
    modifies dest
    ensures count.Some? ==> IsCount(mem, src, max, count.value)
                            && Copied(mem, src, dest[..], old(dest[..]), Min(count.value, max), max)
    ensures forall k :: max <= k < dest.Length ==> dest[k] == old(dest[k])
    ensures count.None? <==> stale || Faults(mem, src, max)
  {
    hide Peek, Copied, NoNul, IsCount, BytesAt, Readable, CheckedPeek;
    ghost var start := dest[..];
    NothingCopied(mem, src, start, max);
    NoNulYet(mem, src);
    var trailing := max % WORD;
    var fullWords := (max - trailing) / WORD;
    var i := 0;
    while i < fullWords
      invariant i <= fullWords && Copied(mem, src, dest[..], start, WORD * i, max) && NoNul(mem, src, WORD * i)
      invariant forall j: nat :: j < i ==> Readable(mem, src, j)
      invariant i > 0 ==> !stale
    {
      BeyondIsKept(mem, src, dest[..], start, WORD * i, max);
      var word := CheckedPeek(mem, src + WORD * i, stale);
      ReadableIff(mem, src, i);
      if word.None? {
        assert stale || Stuck(mem, src, i);
        return None;
      }
      PeekedAt(mem, src + WORD * i);
      var n := TakePiece(mem, src, dest, max, WORD * i, word.value, start);
      BeyondIsKept(mem, src, dest[..], start, WORD * i + WORD, max);
      if n < WORD {
        FewerCopied(mem, src, dest[..], start, WORD * i + WORD, WORD * i + n + 1, max);
        CountHasNul(mem, src, max, WORD * i + n + 1, WORD * (i + 1));
        NeverStuck(mem, src, max, i);
        return Some(WORD * i + n + 1);
      }
      i := i + 1;
    }
    BeyondIsKept(mem, src, dest[..], start, WORD * i, max);
    count := ReadLastBytes(mem, src, dest, max, WORD * i, stale, start);
  }

  method ReadLastBytes(mem: Memory, src: nat, dest: array<Byte>, max: nat, offset: nat, stale: bool, ghost start: seq<Byte>)
      returns (count: Option<nat>)
    requires max <= dest.Length && offset % WORD == 0 && offset <= max < offset + WORD
    requires Copied(mem, src, dest[..], start, offset, max) && NoNul(mem, src, offset)
    requires forall j: nat :: j < offset / WORD ==> Readable(mem, src, j)
    modifies dest
    ensures count.Some? ==> IsCount(mem, src, max, count.value)
                            && Copied(mem, src, dest[..], start, Min(count.value, max), max)
    ensures forall k :: max <= k < dest.Length ==> dest[k] == old(dest[k])
    ensures count.None? <==> stale || Faults(mem, src, max)
  {
    hide Peek, Copied, NoNul, IsCount, BytesAt, Readable, CheckedPeek;
    var word := CheckedPeek(mem, src + offset, stale);
    ReadableIff(mem, src, offset / WORD);
    if word.None? {
      assert stale || Stuck(mem, src, offset / WORD);
      return None;
    }
    PeekedAt(mem, src + offset);
    Prefix(mem, src + offset, word.value, max - offset);
    BeyondIsKept(mem, src, dest[..], start, offset, max);
    var n := TakePiece(mem, src, dest, max, offset, word.value[..max - offset], start);
    BeyondIsKept(mem, src, dest[..], start, max, max);
    if n < max - offset {
      FewerCopied(mem, src, dest[..], start, max, offset + n + 1, max);
    } else {
      NoNulCounts(mem, src, max);
    }
    NeverStuck(mem, src, max, offset / WORD);
    count := Some(offset + n + 1);
  }

  lemma NoNulYet(mem: Memory, src: nat)
    ensures NoNul(mem, src, 0)
  {}

  lemma NoNulCounts(mem: Memory, src: nat, max: nat)
    requires NoNul(mem, src, max)
    ensures IsCount(mem, src, max, max + 1)
  {}

  lemma FewerCopied(mem: Memory, src: nat, buffer: seq<Byte>, start: seq<Byte>, n: nat, m: nat, max: nat)
    requires Copied(mem, src, buffer, start, n, max) && m <= n
    ensures Copied(mem, src, buffer, start, m, max)
  {}

  function Min(a: nat, b: nat): nat { if a < b then a else b }

  function Bytes(mem: Memory, at: nat, size: nat): (bytes: seq<Byte>)
    requires Mapped(mem, at, size)
    ensures |bytes| == size && forall a :: at <= a < at + size ==> bytes[a - at] == mem[a]
  {
    seq(size, k requires 0 <= k < size => mem[at + k])
  }

  lemma BytesAreThere(mem: Memory, at: nat, size: nat)
    requires Mapped(mem, at, size)
    ensures BytesAt(mem, at, Bytes(mem, at, size))
  {}

  /** A read that stays within one chunk. */
  predicate WithinChunk(at: nat, size: nat, chunk: nat)
    requires chunk > 0
  {
    PageFloor(at, chunk) <= at && at + size <= PageFloor(at, chunk) + chunk
  }

  /** The chunk by chunk way: it gives up when a chunk can not be read, or when there is no end-of-string. */
  method ReadStringByChunks(mem: Memory, src: nat, dest: array<Byte>, max: nat, chunk: nat, refused: set<nat>)
      returns (count: Option<nat>, ghost pieces: seq<(nat, nat)>)
    requires max <= dest.Length && chunk > 0
    modifies dest
    ensures count.Some? ==> count.value <= max && IsCount(mem, src, max, count.value)
                            && Copied(mem, src, dest[..], old(dest[..]), count.value, max)
    ensures forall k :: max <= k < dest.Length ==> dest[k] == old(dest[k])
    ensures forall r <- pieces :: WithinChunk(r.0, r.1, chunk) && src <= r.0 && r.0 + r.1 <= src + max
  {
    hide Copied, NoNul, IsCount, BytesAt;
    ghost var start := dest[..];
    NothingCopied(mem, src, start, max);
    NoNulYet(mem, src);
    var offset := 0;
    pieces := [];
    while true
      invariant offset <= max && Copied(mem, src, dest[..], start, offset, max) && NoNul(mem, src, offset)
      invariant forall r <- pieces :: WithinChunk(r.0, r.1, chunk) && src <= r.0 && r.0 + r.1 <= src + max
      decreases max - offset
    {
      var size := Min(PageFloor(src + offset, chunk) + chunk - (src + offset), max - offset);
      pieces := pieces + [(src + offset, size)];
      BeyondIsKept(mem, src, dest[..], start, offset, max);
      if offset in refused || !Mapped(mem, src + offset, size) { return None, pieces; }
      BytesAreThere(mem, src + offset, size);
      var n := TakePiece(mem, src, dest, max, offset, Bytes(mem, src + offset, size), start);
      BeyondIsKept(mem, src, dest[..], start, offset + size, max);
      if n < size {
        FewerCopied(mem, src, dest[..], start, offset + size, offset + n + 1, max);
        return Some(offset + n + 1), pieces;
      }
      offset := offset + size;
      if offset >= max { return None, pieces; }
    }
  }

  /** read_string(): by chunks, and word by word when that fails. */
  method ReadString(mem: Memory, src: nat, dest: array<Byte>, max: nat, chunk: nat, refused: set<nat>, stale: bool)
      returns (count: Option<nat>)
    requires max <= dest.Length && chunk > 0
    modifies dest
    ensures count.Some? ==> IsCount(mem, src, max, count.value)
                            && Copied(mem, src, dest[..], old(dest[..]), Min(count.value, max), max)
    ensures forall k :: max <= k < dest.Length ==> dest[k] == old(dest[k])
    ensures count.None? ==> stale || Faults(mem, src, max)
  {
    hide Copied, NoNul, IsCount, Faults;
    ghost var pieces;
    count, pieces := ReadStringByChunks(mem, src, dest, max, chunk, refused);
    if count.None? {
      ghost var before := dest[..];
      count := ReadStringByWords(mem, src, dest, max, stale);
      if count.Some? { SameBeyond(mem, src, dest[..], before, old(dest[..]), Min(count.value, max), max); }
    }
  }

  lemma SameBeyond(mem: Memory, src: nat, buffer: seq<Byte>, before: seq<Byte>, start: seq<Byte>, n: nat, max: nat)
    requires Copied(mem, src, buffer, before, n, max) && |start| == |before|
    requires forall k :: max <= k < |before| ==> before[k] == start[k]
    ensures Copied(mem, src, buffer, start, n, max)
  {}
}
