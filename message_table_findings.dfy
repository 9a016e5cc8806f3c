/**
 * Where the message-table readers, as written, depart from the decoding
 * they evidently intend: each departure is modelled as written, shown on
 * a concrete input, and set against the corrected definition the rest of
 * the model uses.
 */
module MessageTableFindings {
  import opened Bytes
  import opened MessageTableLayout

  // ---------------------------------------------------------------------
  // The entry header and text are read without a bounds check.

  /**
   * As written, the only test an entry offset passes before the 4-byte
   * header at it, and then `size - 4` text bytes after it, are read.
   */
  predicate EntryOffsetAccepted(offset: nat, lower: nat, size: nat)
  {
    lower <= offset < size
  }

  /**
   * In a 17-byte resource with one descriptor an entry offset of 16 passes
   * that test in both readers (the resource reader's lower bound is 16, the
   * values reader's 0), yet only one of the four header bytes lies inside
   * the data; the corrected entry decoder refuses it.
   */
  lemma AcceptedEntryOffsetOverruns(data: seq<byte>, codepage: int, checkLower: bool)
    requires |data| == 17
    ensures EntryOffsetAccepted(16, LowerBound(0, checkLower), |data|) && 16 + EntryHeaderSize > |data|
    ensures EntryAt(data, 16, codepage) == Err(ReadBeyondData)
  {
  }

  /** The corrected decoder reads only inside the data: the header, and the whole declared text. */
  lemma EntryAtReadsInside(data: seq<byte>, offset: nat, codepage: int)
    ensures EntryAt(data, offset, codepage).Ok? ==> offset + EntryHeaderSize <= |data|
    ensures EntryAt(data, offset, codepage).Ok? && EntryAt(data, offset, codepage).value.size > EntryHeaderSize ==>
      offset + EntryAt(data, offset, codepage).value.size <= |data|
  {
  }

  // ---------------------------------------------------------------------
  // The identifier of a block is a 32-bit counter that wraps.

  /**
   * The per-identifier loop as written, with `first_message_identifier` a
   * `uint32_t` incremented after each entry; `fuel` bounds the number of
   * iterations, and `None` means the loop had not finished when it ran out.
   */
  function BlockAsWritten(data: seq<byte>, lower: nat, codepage: int, identifier: nat, last: nat, offset: nat, fuel: nat)
    : Option<Parsed<Option<MessageValue>>>
    requires identifier < 0x1_0000_0000
    decreases fuel
  {
    if fuel == 0 then None
    else if identifier > last then Some(Parsed([], None))
    else if offset < lower || offset >= |data| then Some(Parsed([], Some(ValueOutOfBounds)))
    else match EntryAt(data, offset, codepage)
      case Err(e) => Some(Parsed([], Some(e)))
      case Ok(entry) =>
        match BlockAsWritten(data, lower, codepage, AddUint32(identifier, 1), last, offset + entry.size, fuel - 1)
        case None => None
        case Some(rest) => Some(Prepend([ValueOf(identifier, entry)], rest))
  }

  /**
   * With last identifier 0xFFFFFFFF and an entry of size 0 (a header
   * `00 00 00 00`), the offset never moves and the identifier wraps to 0:
   * the loop as written never finishes, however many iterations it runs.
   */
  lemma {:induction false} WrappingBlockNeverEnds(data: seq<byte>, lower: nat, codepage: int, identifier: nat, offset: nat, fuel: nat)
    requires identifier < 0x1_0000_0000
    requires lower <= offset && offset + EntryHeaderSize <= |data|
    requires data[offset] == 0 && data[offset + 1] == 0
    ensures BlockAsWritten(data, lower, codepage, identifier, 0xFFFF_FFFF, offset, fuel).None?
    decreases fuel
  {
    if fuel > 0 {
      assert EntryAt(data, offset, codepage) == Ok(Entry(None, 0));
      WrappingBlockNeverEnds(data, lower, codepage, AddUint32(identifier, 1), offset, fuel - 1);
    }
  }

  /** The 20-byte resource of the finding: one block {0xFFFFFFFF, 0xFFFFFFFF, 16}, then a zero entry. */
  const WrappingSample: seq<byte> :=
    [0x01, 0x00, 0x00, 0x00, 0xff, 0xff, 0xff, 0xff, 0xff, 0xff, 0xff, 0xff, 0x10, 0x00, 0x00, 0x00]
    + [0x00, 0x00, 0x00, 0x00]

  /** In both readers the block of the 20-byte resource does not end, however many iterations run. */
  lemma WrappingSampleNeverEnds(codepage: int, checkLower: bool, fuel: nat)
    ensures FirstIdentifier(WrappingSample, 0) == 0xFFFF_FFFF && LastIdentifier(WrappingSample, 0) == 0xFFFF_FFFF
    ensures EntriesOffset(WrappingSample, 0) == 16
    ensures BlockAsWritten(WrappingSample, LowerBound(0, checkLower), codepage, 0xFFFF_FFFF, 0xFFFF_FFFF, 16, fuel).None?
  {
    WrappingBlockNeverEnds(WrappingSample, LowerBound(0, checkLower), codepage, 0xFFFF_FFFF, 16, fuel);
  }

  /**
   * With a last identifier below 0xFFFFFFFF the counter cannot wrap, and
   * the loop as written computes the corrected block decoding, whose
   * identifier is unbounded and which therefore always ends.
   */
  lemma {:induction false} BlockAsWrittenAgrees(data: seq<byte>, lower: nat, codepage: int, identifier: nat, last: nat, offset: nat, fuel: nat)
    requires last < 0xFFFF_FFFF && identifier <= last + 1
    requires fuel > last + 1 - identifier
    ensures BlockAsWritten(data, lower, codepage, identifier, last, offset, fuel)
      == Some(BlockFrom(data, lower, codepage, identifier, last, offset))
    decreases last + 1 - identifier
  {
    if identifier <= last && lower <= offset < |data| {
      var e := EntryAt(data, offset, codepage);
      if e.Ok? {
        BlockAsWrittenAgrees(data, lower, codepage, identifier + 1, last, offset + e.value.size, fuel - 1);
      }
    }
  }

  // ---------------------------------------------------------------------
  // The values reader reads the block count of a resource of 1 to 3 bytes.

  /**
   * As written, libwrc_message_table_values_read refuses only a size of 0
   * or above the allocation limit before it reads the 32-bit count, and
   * then subtracts 4 from the `size_t` size.
   */
  predicate ValuesSizeCheckAsWritten(size: nat)
  {
    !(size == 0 || size > MaxAllocationSize)
  }

  /** The bytes left after the count, as the `size_t` subtraction computes them. */
  function ValuesRemainingAsWritten(size: nat): (r: nat)
    ensures r < 0x1_0000_0000_0000_0000
  {
    (size - DescriptorsOffset) % 0x1_0000_0000_0000_0000
  }

  /**
   * A 1-byte resource passes the check, the count is read from 4 bytes of
   * which 3 lie outside it, and the remaining size wraps to 2^64 - 3; the
   * corrected decoding refuses every resource shorter than its count.
   */
  lemma ShortValuesResourceAccepted(data: seq<byte>, codepage: int)
    requires |data| == 1
    ensures ValuesSizeCheckAsWritten(|data|) && DescriptorsOffset > |data|
    ensures ValuesRemainingAsWritten(|data|) == 0xFFFF_FFFF_FFFF_FFFD
    ensures MessageTable(data, codepage, false) == Parsed([], Some(ValueOutOfBounds))
  {
  }

  /** The corrected decoding refuses every resource of fewer than 4 bytes, before any value. */
  lemma MessageTableRejectsShort(data: seq<byte>, codepage: int, checkLower: bool)
    requires |data| < DescriptorsOffset
    ensures MessageTable(data, codepage, checkLower) == Parsed([], Some(ValueOutOfBounds))
  {
  }
}
