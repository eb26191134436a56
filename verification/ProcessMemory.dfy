/** The memory of a process, byte by byte, and little-endian words in it. */
module ProcessMemory {

  type Byte = b: nat | b < 256

  /** The mapped addresses and their contents. */
  type Memory = map<nat, Byte>

  function Pow256(n: nat): (r: nat)
    ensures r > 0
  {
    if n == 0 then 1 else 256 * Pow256(n - 1)
  }

  /** The low `width` bytes of a value, least significant first. */
  function Encode(value: nat, width: nat): (bytes: seq<Byte>)
    ensures |bytes| == width
  {
    if width == 0 then [] else [value % 256] + Encode(value / 256, width - 1)
  }

  predicate Mapped(mem: Memory, at: nat, size: nat) {
    forall a :: at <= a < at + size ==> a in mem
  }

  ghost predicate Holds(mem: Memory, at: nat, bytes: seq<Byte>) {
    forall a :: at <= a < at + |bytes| ==> a in mem && mem[a] == bytes[a - at]
  }

  function ReadWord(mem: Memory, at: nat, width: nat): nat
    requires Mapped(mem, at, width)
    decreases width
  {
    if width == 0 then 0 else mem[at] + 256 * ReadWord(mem, at + 1, width - 1)
  }

  lemma {:induction false} ReadEncoded(mem: Memory, at: nat, value: nat, width: nat)
    requires Holds(mem, at, Encode(value, width))
    ensures Mapped(mem, at, width)
    ensures ReadWord(mem, at, width) == value % Pow256(width)
    decreases width
  {
    if width > 0 {
      var bytes := Encode(value, width);
      assert bytes[0] == value % 256 && bytes[1..] == Encode(value / 256, width - 1);
      assert at in mem;
      forall a | at < a < at + width ensures a in mem && mem[a] == bytes[1..][a - (at + 1)] {
        assert bytes[1..][a - (at + 1)] == bytes[a - at];
      }
      ReadEncoded(mem, at + 1, value / 256, width - 1);
      ModuloByteByByte(value, Pow256(width - 1));
    }
  }

  lemma ModuloByteByByte(value: nat, m: nat)
    requires m > 0
    ensures value % (256 * m) == value % 256 + 256 * (value / 256 % m)
  {
    var q, r := value / 256 / m, value / 256 % m;
    assert value / 256 == q * m + r;
    assert value == (256 * m) * q + (256 * r + value % 256);
    RemainderIsUnique(value, 256 * m, q, 256 * r + value % 256);
  }

  lemma RemainderIsUnique(x: nat, d: nat, q: nat, r: nat)
    requires d > 0 && x == d * q + r && r < d
    ensures x / d == q && x % d == r
  {
    var k := x / d - q;
    assert d * k == r - x % d;
    if k >= 1 { AtLeast(d, k); }
    if k <= -1 { AtLeast(d, -k); }
  }

  lemma AtLeast(d: nat, k: int)
    requires k >= 1
    ensures d * k >= d
  {}

  /** The bytes of [lo, hi) set to zero. */
  function Zeroed(mem: Memory, lo: nat, hi: nat): (r: Memory)
    ensures forall a: nat :: a in r <==> a in mem || lo <= a < hi
    ensures forall a: nat :: a in r ==> r[a] == if lo <= a < hi then 0 else mem[a]
    decreases hi
  {
    if hi <= lo then mem else Zeroed(mem, lo, hi - 1)[hi - 1 := 0]
  }

  function FileByte(file: seq<Byte>, i: nat): Byte {
    if i < |file| then file[i] else 0
  }

  /**
   * The bytes of [lo, hi) replaced by those of a file, from an offset on. Only the first
   * @reach bytes of the file can be accessed: further pages are there, but any access to
   * them is a fault, as to an address that is not mapped.
   */
  function FileMapped(mem: Memory, lo: nat, hi: nat, file: seq<Byte>, offset: nat, reach: nat): (r: Memory)
    ensures forall a: nat :: a in r <==> if lo <= a < hi then offset + (a - lo) < reach else a in mem
    ensures forall a: nat :: a in r ==> r[a] == if lo <= a < hi then FileByte(file, offset + (a - lo)) else mem[a]
    decreases hi
  {
    if hi <= lo then mem
    else
      var front, i := FileMapped(mem, lo, hi - 1, file, offset, reach), offset + (hi - 1 - lo);
      if i < reach then front[hi - 1 := FileByte(file, i)] else front - {hi - 1}
  }
}
