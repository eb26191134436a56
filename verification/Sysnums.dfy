/** Syscall-number tables: conversion between a kernel ABI's numbers and neutral numbers. */
module Sysnums {
  import opened MachineWords

  // The enumeration Sysnum; PR_void is its zero.
  type Sysnum = nat

  const PR_VOID: Sysnum := 0
  const UINT32_MAX: nat := 0xffff_ffff
  // (word_t) -1
  const SYSCALL_AVOIDER: nat := WORD_LIMIT - 1

  /** One ABI: table[i] is the neutral value of the kernel number i + offset. */
  datatype Abi = Abi(table: seq<Sysnum>, offset: nat) {
    /** Every kernel number of the ABI is an ordinary 32-bit number. */
    predicate Valid() { offset + |table| <= UINT32_MAX }
  }

  function FirstIndex(table: seq<Sysnum>, sysnum: Sysnum): (i: nat)
    requires sysnum in table
    ensures i < |table| && table[i] == sysnum && sysnum !in table[..i]
  {
    if table[0] == sysnum then 0
    else
      var j := FirstIndex(table[1..], sysnum);
      assert table[..j + 1] == [table[0]] + table[1..][..j];
      j + 1
  }

  function Detranslate(abi: Abi, sysnum: Sysnum): nat {
    if sysnum == PR_VOID || sysnum !in abi.table then SYSCALL_AVOIDER
    else FirstIndex(abi.table, sysnum) + abi.offset
  }

  /**
   * The bound check lets index == length through; `beyond` stands for whatever lies in
   * memory right after the table.
   */
  function Translate(abi: Abi, number: nat, beyond: Sysnum): Sysnum {
    if number < abi.offset then PR_VOID
    else
      var index := number - abi.offset;
      if index > |abi.table| then PR_VOID
      else if index == |abi.table| then beyond
      else abi.table[index]
  }

  method DetranslateSysnum(abi: Abi, sysnum: Sysnum) returns (number: nat)
    ensures number == Detranslate(abi, sysnum)
  {
    if sysnum == PR_VOID {
      return SYSCALL_AVOIDER;
    }
    var i := 0;
    while i < |abi.table|
      invariant i <= |abi.table|
      invariant sysnum !in abi.table[..i]
    {
      if abi.table[i] == sysnum {
        return i + abi.offset;
      }
      i := i + 1;
    }
    return SYSCALL_AVOIDER;
  }

  /** Decoding undoes encoding, and the number written for PR_void decodes to PR_void. */
  lemma TranslateUndoesDetranslate(abi: Abi, sysnum: Sysnum, beyond: Sysnum)
    requires abi.Valid()
    ensures Translate(abi, Detranslate(abi, sysnum), beyond)
         == (if sysnum in abi.table then sysnum else PR_VOID)
    ensures Detranslate(abi, sysnum) != SYSCALL_AVOIDER ==>
              abi.offset <= Detranslate(abi, sysnum) < abi.offset + |abi.table|
  {
    if sysnum in abi.table && sysnum != PR_VOID {
      var i := FirstIndex(abi.table, sysnum);
      assert i < |abi.table|;
    }
  }

  /** No two neutral numbers share a kernel number under the same ABI. */
  lemma DetranslateIsInjective(abi: Abi, s: Sysnum, t: Sysnum)
    requires abi.Valid()
    requires Detranslate(abi, s) == Detranslate(abi, t) != SYSCALL_AVOIDER
    ensures s == t
  {
    TranslateUndoesDetranslate(abi, s, PR_VOID);
    TranslateUndoesDetranslate(abi, t, PR_VOID);
  }

  /** Exactly one number per ABI makes the decoder read past its table. */
  lemma TranslateReadsPastTable(abi: Abi, number: nat)
    ensures (forall x, y :: Translate(abi, number, x) == Translate(abi, number, y))
       <==> number != abi.offset + |abi.table|
  {
    if number == abi.offset + |abi.table| {
      assert Translate(abi, number, 0) != Translate(abi, number, 1);
    }
  }
}
