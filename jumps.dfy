/**
 * The two-byte jump operands shared by the compiler (emit_jump, patch_jump,
 * emit_loop) and the virtual machine (READ_SHORT, OP_JUMP*, OP_LOOP).
 */
module Jumps {
  import opened Chunks

  const ShortMax := 65535

  /** `(offset >> 8) & 0xff`. */
  function Hi(offset: nat): byte
  {
    ((offset / 256) % 256) as byte
  }

  /** `offset & 0xff`. */
  function Lo(offset: nat): byte
  {
    (offset % 256) as byte
  }

  /** READ_SHORT: the big-endian 16-bit value of two operand bytes. */
  function ReadShort(hi: byte, lo: byte): (v: nat)
    ensures v <= ShortMax
  {
    hi as int * 256 + lo as int
  }

  /** An offset that fits in 16 bits survives the split into two bytes and READ_SHORT. */
  lemma ShortRoundTrip(offset: nat)
    requires offset <= ShortMax
    ensures ReadShort(Hi(offset), Lo(offset)) == offset
  {
  }

  /** A larger offset is stored truncated to its low 16 bits. */
  lemma ShortTruncates(offset: nat)
    ensures ReadShort(Hi(offset), Lo(offset)) == offset % (ShortMax + 1)
  {
  }

  /**
   * patch_jump back-patches the operand at `operand` with count - operand - 2.
   * The virtual machine reads that operand with its ip just past it, at
   * operand + 2, and adds it: it lands on `count`, the chunk size when the
   * jump was patched.
   */
  lemma ForwardJumpLands(operand: nat, count: nat)
    requires operand + 2 <= count && count - operand - 2 <= ShortMax
    ensures operand + 2 + ReadShort(Hi(count - operand - 2), Lo(count - operand - 2)) == count
  {
    ShortRoundTrip(count - operand - 2);
  }

  /**
   * emit_loop writes OP_LOOP, making the chunk `afterOp` bytes long, and then
   * the operand afterOp - loopStart + 2. The virtual machine subtracts it
   * with its ip just past the operand, at afterOp + 2: it lands on loopStart.
   */
  lemma LoopJumpLands(loopStart: nat, afterOp: nat)
    requires loopStart <= afterOp && afterOp - loopStart + 2 <= ShortMax
    ensures afterOp + 2 - ReadShort(Hi(afterOp - loopStart + 2), Lo(afterOp - loopStart + 2)) == loopStart
  {
    ShortRoundTrip(afterOp - loopStart + 2);
  }
}
