/** Machine words. */
module MachineWords {
  const WORD_LIMIT: nat := 0x1_0000_0000_0000_0000
}
