/**
 * Where the stream string reader, as written, departs from the decoding
 * it evidently intends: a resource of odd size leaves one byte where a
 * 16-bit length is read.
 */
module StringFindings {
  import opened Bytes
  import opened StringTableLayout

  /** `resource_data_size -= 2` on the 64-bit `size_t` that holds the bytes left. */
  function RemainingAfterLengthAsWritten(remaining: nat): (r: nat)
    requires remaining < 0x1_0000_0000_0000_0000
    ensures r < 0x1_0000_0000_0000_0000
  {
    (remaining - 2) % 0x1_0000_0000_0000_0000
  }

  /**
   * As written, the loop runs while any byte remains and then reads two:
   * with one byte left, the length is read one byte past the data and the
   * count of bytes left wraps to 2^64 - 1, so the loop goes on reading past
   * the data. The corrected decoding refuses the odd byte.
   */
  lemma OddTrailingByteOverruns(data: seq<byte>, high: nat, offset: nat, slot: nat)
    requires offset + 1 == |data|
    ensures offset + 2 > |data|
    ensures RemainingAfterLengthAsWritten(|data| - offset) == 0xFFFF_FFFF_FFFF_FFFF
    ensures RemainingAfterLengthAsWritten(|data| - offset) > 0
    ensures ValuesFrom(data, high, offset, slot) == Parsed([], Some(ValueOutOfBounds))
  {
  }

  /** The one-byte resource `00` shows it from the first slot on. */
  lemma OneByteResource()
    ensures StringValues([0], 0) == Parsed([], Some(ValueOutOfBounds))
    ensures RemainingAfterLengthAsWritten(1) == 0xFFFF_FFFF_FFFF_FFFF
  {
    OddTrailingByteOverruns([0], 0, 0, 0);
  }

  /** The corrected stream decoding succeeds only on an even number of bytes: no byte is left over. */
  lemma {:induction false} ValuesFromNeedsEvenSize(data: seq<byte>, high: nat, offset: nat, slot: nat)
    ensures ValuesFrom(data, high, offset, slot).failure.None? ==> (|data| - offset) % 2 == 0 || offset > |data|
    decreases |data| - offset
  {
    if offset + 2 <= |data| {
      var units := U16(data, offset);
      if units == 0 {
        ValuesFromNeedsEvenSize(data, high, offset + 2, slot + 1);
      } else if 2 * units <= |data| - offset - 2 {
        ValuesFromNeedsEvenSize(data, high, offset + 2 + 2 * units, slot + 1);
      }
    }
  }
}
