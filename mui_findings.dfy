/**
 * Where the MUI readers, as written, depart from the decoding they
 * evidently intend: the stream reader reads the header and the pairs of
 * a resource of any size, and the identifier-region checks add offset and
 * size in 32 bits.
 */
module MuiFindings {
  import opened Bytes
  import opened MuiLayout

  // ---------------------------------------------------------------------
  // The stream reader has no header-length check.

  /**
   * As written, the only size test libwrc_mui_values_read makes before it
   * compares the signature, reads the header fields and the six pairs.
   */
  predicate ValuesSizeAcceptedAsWritten(size: nat)
  {
    0 < size <= MaxAllocationSize
  }

  /** The bytes the reader as written reads unconditionally: the header and all six pairs. */
  const BytesReadAsWritten: nat := HeaderSize + 6 * 8

  /**
   * The 4-byte resource `cd fe cd fe` passes the size test and the
   * signature, and then the declared size is read from bytes 4 to 7, past
   * its end; the corrected decoding refuses it.
   */
  lemma SignatureOnlyResourceOverruns()
    ensures ValuesSizeAcceptedAsWritten(|Signature|)
    ensures BytesReadAsWritten > 4 + 4 > |Signature|
    ensures MuiDecode(Signature) == Err(ValueOutOfBounds)
  {
  }

  /** The corrected decoding reads nothing past the data: it succeeds only when the header and all six pairs are inside. */
  lemma MuiDecodeReadsInside(data: seq<byte>)
    ensures MuiDecode(data).Ok? ==> BytesReadAsWritten <= |data|
  {
  }

  // ---------------------------------------------------------------------
  // The identifier-region check wraps.

  /** As written, the identifier-region check: `(size_t)( offset + size ) > data_size` with a 32-bit sum. */
  predicate IdentifiersAcceptedAsWritten(data: seq<byte>, p: Pair)
    requires p.offset < 0x1_0000_0000 && p.size < 0x1_0000_0000
  {
    p.size == 0 || (RegionsOffset <= p.offset < |data| && AddUint32(p.offset, p.size) <= |data|)
  }

  /**
   * In a 256-byte resource the pair (0x84, 0xFFFFFFFF) passes the check as
   * written, the sum wrapping to 0x83, although the region runs about 4 GiB
   * past the data; the corrected check refuses it.
   */
  lemma WrappingIdentifierRegionAccepted(data: seq<byte>)
    requires |data| == 0x100
    ensures IdentifiersAcceptedAsWritten(data, Pair(0x84, 0xFFFF_FFFF))
    ensures 0x84 + 0xFFFF_FFFF > |data|
    ensures IdentifiersCheck(data, Pair(0x84, 0xFFFF_FFFF)) == Some(ValueOutOfBounds)
  {
  }

  /** Where the 32-bit sum cannot wrap, the check as written is the corrected one. */
  lemma IdentifiersAgreeWithoutWrap(data: seq<byte>, p: Pair)
    requires p.offset + p.size < 0x1_0000_0000
    ensures IdentifiersAcceptedAsWritten(data, p) <==> IdentifiersCheck(data, p).None?
  {
  }
}
