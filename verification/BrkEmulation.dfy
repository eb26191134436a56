/** The heap of a tracee, emulated by a mapping of its own: an ideal break, over every run. */
module BrkEmulation {
  import opened MachineWords

  const INT_LIMIT: nat := 0x1_0000_0000

  datatype HeapState = HeapState(base: nat, size: nat, disabled: bool)

  /** The system call made in place of brk(2). */
  datatype Call = Brk(address: nat) | Void | Mmap(hint: nat, length: nat) | Mremap(old': nat, oldSize: nat, newSize: nat)

  // ----- Errors -----

  /** (int) result < 0 && (int) result > -4096 */
  predicate IsErrno(result: nat) {
    result % INT_LIMIT > INT_LIMIT - 4096
  }

  /** Every error of the kernel is seen as one. */
  lemma ErrorIsErrno(e: nat)
    requires 0 < e < 4096
    ensures IsErrno(WORD_LIMIT - e)
  {
    assert WORD_LIMIT - e == INT_LIMIT * (INT_LIMIT - 1) + (INT_LIMIT - e);
    assert (WORD_LIMIT - e) % INT_LIMIT == INT_LIMIT - e;
  }

  /** No page-aligned address is, even though only half of it is looked at. */
  lemma AddressIsNoErrno(result: nat)
    requires result % 4096 == 0
    ensures !IsErrno(result)
  {
    assert INT_LIMIT == 4096 * 0x10_0000;
    var low := result % INT_LIMIT;
    assert result == INT_LIMIT * (result / INT_LIMIT) + low;
    assert low % 4096 == 0;
  }

  // ----- The emulation -----

  /** translate_brk_enter() */
  function Enter(h: HeapState, address: nat, offset: nat, bssEnd: nat): Call
    requires h.base != 0 ==> offset <= h.base
  {
    if h.disabled then Brk(address)
    else if h.base == 0 then (if address != 0 then Brk(address) else Mmap(bssEnd, offset))
    else if address < h.base then Void
    else Mremap(h.base - offset, h.size + offset, address - h.base + offset)
  }

  /** translate_brk_exit() */
  function Exit(h: HeapState, call: Call, result: nat, offset: nat): (HeapState, nat)
    requires call.Mremap? ==> offset <= call.newSize
  {
    if h.disabled then (h, result)
    else match call
      case Void => (h, h.base + h.size)
      case Mmap(_, _) =>
        if IsErrno(result) then (h, 0)
        else (HeapState((result + offset) % WORD_LIMIT, 0, false), (result + offset) % WORD_LIMIT)
      case Mremap(_, _, newSize) =>
        if IsErrno(result) || h.base != (result + offset) % WORD_LIMIT then (h, h.base + h.size)
        else (h.(size := newSize - offset), h.base + (newSize - offset))
      case Brk(address) => (if result == address then h.(disabled := true) else h, result)
  }

  class Heap {
    var base: nat
    var size: nat
    var disabled: bool

    constructor ()
      ensures View() == HeapState(0, 0, false)
    {
      base, size, disabled := 0, 0, false;
    }

    ghost function View(): HeapState
      reads this
    {
      HeapState(base, size, disabled)
    }

    method TranslateBrkEnter(address: nat, offset: nat, bssEnd: nat) returns (call: Call)
      requires base != 0 ==> offset <= base
      ensures call == Enter(View(), address, offset, bssEnd)
    {
      if disabled { return Brk(address); }
      if base == 0 {
        if address != 0 { return Brk(address); }
        return Mmap(bssEnd, offset);
      }
      // A break below the base is refused.
      if address < base { return Void; }
      var newHeapSize, oldHeapSize := address - base, size;
      call := Mremap(base - offset, oldHeapSize + offset, newHeapSize + offset);
    }

    method TranslateBrkExit(call: Call, result: nat, offset: nat) returns (r: nat)
      requires call.Mremap? ==> offset <= call.newSize
      modifies this
      ensures (View(), r) == Exit(old(View()), call, result, offset)
    {
      if disabled { return result; }
      match call {
        case Void => r := base + size;
        case Mmap(_, _) =>
          if IsErrno(result) { return 0; }
          base := (result + offset) % WORD_LIMIT;
          size := 0;
          r := base + size;
        case Mremap(_, _, newSize) =>
          if IsErrno(result) || base != (result + offset) % WORD_LIMIT { return base + size; }
          size := newSize - offset;
          r := base + size;
        case Brk(address) =>
          if result == address { disabled := true; }
          r := result;
      }
    }
  }

  // ----- What is asked of the kernel -----

  /**
   * The heap is all of its mapping but the first @offset bytes. A move of the break asks for just
   * that mapping, of a size that makes it end at the new break; a break below the base asks nothing.
   */
  lemma MovesItsMapping(h: HeapState, address: nat, offset: nat, bssEnd: nat)
    requires !h.disabled && h.base != 0 && offset <= h.base
    ensures var call := Enter(h, address, offset, bssEnd);
            && (call == Void <==> address < h.base)
            && (address >= h.base ==>
                  && call.Mremap? && call.old' + offset == h.base && call.old' + call.oldSize == h.base + h.size
                  && call.old' + call.newSize == address)
  {}

  /** The first call asks for a mapping of @offset bytes after the BSS; then the heap is empty, and begins where that ends. */
  lemma StartsAfterItsMapping(offset: nat, bssEnd: nat, result: nat)
    requires !IsErrno(result) && 0 < offset && result + offset < WORD_LIMIT
    ensures var call := Enter(HeapState(0, 0, false), 0, offset, bssEnd);
            && call == Mmap(bssEnd, offset)
            && Exit(HeapState(0, 0, false), call, result, offset) == (HeapState(result + offset, 0, false), result + offset)
  {}

  // ----- Against an ideal break -----

  /** The heap exists, one page above the mapping it lives in. */
  predicate Exists(h: HeapState, offset: nat) {
    !h.disabled && offset <= h.base < WORD_LIMIT && h.base != 0 && (h.base - offset) % 4096 == 0
  }

  /** A call and what the kernel answers to what is made of it; nothing is assumed of the answer. */
  datatype Request = Request(address: nat, result: nat)

  function Emulated(h: HeapState, q: Request, offset: nat): (HeapState, nat)
    requires h.base != 0 ==> offset <= h.base
  {
    var call := Enter(h, q.address, offset, 0);
    Exit(h, call, q.result, offset)
  }

  /** The kernel resized the mapping in place: mremap(2) answers with the address it had. */
  predicate Granted(h: HeapState, q: Request, offset: nat)
    requires offset <= h.base
  {
    q.result == h.base - offset
  }

  /** An ideal break moves exactly when a request not below its base is granted. */
  function Ideal(base: nat, brk: nat, address: nat, granted: bool): nat {
    if address >= base && granted then address else brk
  }

  /** One call: the base stays, and the answer is the break, moved if and only if the kernel could. */
  lemma EmulatesBreak(h: HeapState, q: Request, offset: nat)
    requires Exists(h, offset) && q.result < WORD_LIMIT && 0 < offset < WORD_LIMIT
    ensures var (h', r) := Emulated(h, q, offset);
            && Exists(h', offset) && h'.base == h.base
            && r == h'.base + h'.size == Ideal(h.base, h.base + h.size, q.address, Granted(h, q, offset))
  {
    AddressIsNoErrno(h.base - offset);
    if q.result + offset >= WORD_LIMIT {
      assert (q.result + offset) % WORD_LIMIT == q.result + offset - WORD_LIMIT;
    }
  }

  function EmulatedAll(h: HeapState, qs: seq<Request>, offset: nat): (r: (HeapState, seq<nat>))
    requires Exists(h, offset) && 0 < offset < WORD_LIMIT && forall i :: 0 <= i < |qs| ==> qs[i].result < WORD_LIMIT
    ensures Exists(r.0, offset)
    decreases |qs|
  {
    if qs == [] then (h, [])
    else
      EmulatesBreak(h, qs[0], offset);
      var (h1, r) := Emulated(h, qs[0], offset);
      var (h2, rs) := EmulatedAll(h1, qs[1..], offset);
      (h2, [r] + rs)
  }

  function IdealAll(base: nat, brk: nat, qs: seq<Request>, offset: nat): (nat, seq<nat>)
    requires offset <= base
    decreases |qs|
  {
    if qs == [] then (brk, [])
    else
      var next := Ideal(base, brk, qs[0].address, qs[0].result == base - offset);
      var (last, rs) := IdealAll(base, next, qs[1..], offset);
      (last, [next] + rs)
  }

  /** Over any sequence of calls the tracee can not tell its heap from an ideal one. */
  lemma {:induction false} RefinesBreak(h: HeapState, qs: seq<Request>, offset: nat)
    requires Exists(h, offset) && 0 < offset < WORD_LIMIT && forall i :: 0 <= i < |qs| ==> qs[i].result < WORD_LIMIT
    ensures var (h', rs) := EmulatedAll(h, qs, offset);
            h'.base == h.base && (h'.base + h'.size, rs) == IdealAll(h.base, h.base + h.size, qs, offset)
    decreases |qs|
  {
    if qs != [] {
      EmulatesBreak(h, qs[0], offset);
      RefinesBreak(Emulated(h, qs[0], offset).0, qs[1..], offset);
    }
  }

  /**
   * The first call, brk(0), makes an empty heap one page into a new mapping, which lies below
   * the end of the address space, or fails with 0.
   */
  lemma FirstCall(q: Request, offset: nat)
    requires q.address == 0 && 0 < offset
    requires !IsErrno(q.result) ==> q.result % 4096 == 0 && q.result + offset < WORD_LIMIT
    ensures var (h, r) := Emulated(HeapState(0, 0, false), q, offset);
            if IsErrno(q.result) then r == 0 && h == HeapState(0, 0, false)
            else Exists(h, offset) && h.size == 0 && r == h.base == q.result + offset
  {}

  /** It fails for every error of the kernel, and can be tried again. */
  lemma FirstCallFails(e: nat, offset: nat)
    requires 0 < e < 4096 && 0 < offset
    ensures Emulated(HeapState(0, 0, false), Request(0, WORD_LIMIT - e), offset) == (HeapState(0, 0, false), 0)
  {
    ErrorIsErrno(e);
    FirstCall(Request(0, WORD_LIMIT - e), offset);
  }

  /** Before there is a heap, a call with an address is left to the kernel, for good once it succeeds. */
  lemma LeftToTheKernel(q: Request, offset: nat)
    requires q.address != 0
    ensures var (h, r) := Emulated(HeapState(0, 0, false), q, offset);
            r == q.result && h == HeapState(0, 0, q.result == q.address)
    ensures var (h, r) := Emulated(HeapState(0, 0, true), q, offset);
            r == q.result && h == HeapState(0, 0, true)
  {}
}
