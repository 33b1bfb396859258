/** Layout and sentinel values of the header at the start of every shared memory map. */
module MemoryMappedFileConstants {

  /** Length of the header flag telling a new memory map from one already populated. */
  const DIRTY_BIT_FLAG_NUM_BYTES: nat := 1

  /** Length of the header field holding the content length (a 64-bit integer). */
  const CONTENT_LENGTH_NUM_BYTES: nat := 8

  /** Length of the whole header; the content starts at this offset. */
  const CONTENT_HEADER_TOTAL_BYTES: nat := DIRTY_BIT_FLAG_NUM_BYTES + CONTENT_LENGTH_NUM_BYTES

  /** The flag value of a memory map that has been created and may be in use. */
  const DIRTY_BIT_SET: seq<bv8> := [0x01]

  /** The zero byte that the first byte of a newly created memory map holds. */
  const ZERO_BYTE: seq<bv8> := [0x00]

  /**
   * The header is a one-byte flag followed by an eight-byte length, nine bytes in all;
   * each sentinel fills the flag exactly, and the two differ.
   */
  lemma HeaderLayout()
    ensures DIRTY_BIT_FLAG_NUM_BYTES == 1 && CONTENT_LENGTH_NUM_BYTES == 8
    ensures CONTENT_HEADER_TOTAL_BYTES == 9
    ensures |DIRTY_BIT_SET| == DIRTY_BIT_FLAG_NUM_BYTES && |ZERO_BYTE| == DIRTY_BIT_FLAG_NUM_BYTES
    ensures DIRTY_BIT_SET != ZERO_BYTE
  {
  }
}
