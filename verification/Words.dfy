/** What the machine's unsigned 64-bit words do. */
module Words {

  const U64_MODULUS: nat := 0x1_0000_0000_0000_0000

  /** The reaper's test, as computed on uint64_t. */
  predicate IdleTest(tm: nat, lastUse: nat, maxIdle: int) {
    maxIdle > 0 && (tm - lastUse) % U64_MODULUS > maxIdle
  }
}
