/**
 * The layout of a message-table resource (the Win32 MESSAGE_RESOURCE_DATA,
 * MESSAGE_RESOURCE_BLOCK and MESSAGE_RESOURCE_ENTRY structures, as
 * wrc_message_table_resource.h describes them) and the decoding both
 * message-table readers carry out over it, stated as functions.
 *
 *   offset 0:  number of blocks (32-bit)
 *   offset 4:  per block, 12 bytes {first identifier, last identifier, entry offset}
 *   at entry offset: per identifier, {u16 size, u16 flags, text}, packed
 */
module MessageTableLayout {
  import opened Bytes

  const DescriptorsOffset: nat := 4
  const DescriptorSize: nat := 12
  const EntryHeaderSize: nat := 4

  /** A decoded message: its identifier and the text handed to libfvalue. */
  datatype MessageValue = MessageValue(identifier: nat, text: TextData)

  /** One decoded entry: its text (none for an entry of at most 4 bytes) and its size field. */
  datatype Entry = Entry(text: Option<TextData>, size: nat)

  /**
   * The number of bytes of a byte-stream text kept after trailing zero
   * bytes are stripped from its first `n` bytes: at least one byte is kept.
   */
  function ByteStreamKept(t: seq<byte>, n: nat): (kept: nat)
    requires 1 <= n <= |t|
    ensures 1 <= kept <= n
    decreases n
  {
    if n == 1 then 1
    else if t[n - 1] != 0 then n
    else ByteStreamKept(t, n - 1)
  }

  /** Only zero bytes are stripped, and the last byte kept is non-zero unless it is the only one. */
  lemma {:induction false} ByteStreamKeptMeaning(t: seq<byte>, n: nat)
    requires 1 <= n <= |t|
    ensures var kept := ByteStreamKept(t, n);
      (forall k :: kept <= k < n ==> t[k] == 0) && (kept == 1 || t[kept - 1] != 0)
    decreases n
  {
    if n > 1 && t[n - 1] == 0 {
      ByteStreamKeptMeaning(t, n - 1);
    }
  }

  /**
   * The number of bytes of a UTF-16 text kept after trailing zero byte
   * pairs are stripped from its first `n` bytes, pair by pair from the end.
   * At least one unit is kept; a text of a single byte yields 3.
   */
  function Utf16Kept(t: seq<byte>, n: nat): (kept: nat)
    requires n <= |t|
    ensures n >= 2 ==> 2 <= kept <= n
    ensures n < 2 ==> kept == n + 2
    decreases n
  {
    if n <= 1 then n + 2
    else if t[n - 2] != 0 || t[n - 1] != 0 then n
    else Utf16Kept(t, n - 2)
  }

  /**
   * Whole byte pairs are stripped, all of them zero; the last pair kept is
   * non-zero unless it is the first unit of the text.
   */
  lemma {:induction false} Utf16KeptMeaning(t: seq<byte>, n: nat)
    requires n <= |t|
    ensures var kept := Utf16Kept(t, n);
      kept % 2 == n % 2 && (forall k :: kept <= k < n ==> t[k] == 0)
      && (n >= 2 && kept > 3 ==> t[kept - 2] != 0 || t[kept - 1] != 0)
    decreases n
  {
    if n > 1 && t[n - 2] == 0 && t[n - 1] == 0 {
      Utf16KeptMeaning(t, n - 2);
    }
  }

  /** Flag bit 0 of an entry: set for UTF-16 text, clear for a codepage byte stream. */
  predicate IsUtf16(flags: nat)
  {
    flags % 2 == 1
  }

  /**
   * The entry at `offset`. An entry of more than 4
   * bytes holds text after its 4-byte header; the text is stored with its
   * trailing zero units stripped. A header or text that does not lie inside
   * the buffer is an error (ReadBeyondData).
   */
  function EntryAt(data: seq<byte>, offset: nat, codepage: int): (r: Result<Entry>)
  {
    if offset + EntryHeaderSize > |data| then Err(ReadBeyondData)
    else
      var size := U16(data, offset);
      var flags := U16(data, offset + 2);
      if size <= EntryHeaderSize then Ok(Entry(None, size))
      else
        var start := offset + EntryHeaderSize;
        var length := size - EntryHeaderSize;
        if start + length > |data| then Err(ReadBeyondData)
        else
          var text := data[start..start + length];
          var kept := if IsUtf16(flags) then Utf16Kept(text, length) else ByteStreamKept(text, length);
          if start + kept > |data| then Err(ReadBeyondData)
          else
            var encoding := if IsUtf16(flags) then Utf16LittleEndian else ByteStream(codepage);
            Ok(Entry(Some(TextData(data[start..start + kept], encoding)), size))
  }

  /** The value appended for an entry: NULL when the entry holds no text. */
  function ValueOf(identifier: nat, entry: Entry): Option<MessageValue>
  {
    if entry.text.Some? then Some(MessageValue(identifier, entry.text.value)) else None
  }

  /**
   * The entries of one block from message `identifier` to `last`, the
   * current entry at `offset`. Each entry offset must lie in
   * [`lower`, |data|); the next entry starts `size` bytes further on.
   */
  function BlockFrom(data: seq<byte>, lower: nat, codepage: int, identifier: nat, last: nat, offset: nat)
    : Parsed<Option<MessageValue>>
    decreases last - identifier
  {
    if identifier > last then Parsed([], None)
    else if offset < lower || offset >= |data| then Parsed([], Some(ValueOutOfBounds))
    else match EntryAt(data, offset, codepage)
      case Err(e) => Parsed([], Some(e))
      case Ok(entry) =>
        Prepend([ValueOf(identifier, entry)], BlockFrom(data, lower, codepage, identifier + 1, last, offset + entry.size))
  }

  /**
   * The state of a reader inside a block: `block` is the values `appended`
   * so far followed by the rest of the block, from message `identifier` and
   * the entry at `offset` on.
   */
  ghost predicate BlockReadOn(block: Parsed<Option<MessageValue>>, appended: seq<Option<MessageValue>>, data: seq<byte>,
                              lower: nat, codepage: int, identifier: nat, last: nat, offset: nat)
  {
    block == Prepend(appended, BlockFrom(data, lower, codepage, identifier, last, offset))
  }

  /** A reader starts a block with nothing appended. */
  lemma BlockReadStarts(data: seq<byte>, lower: nat, codepage: int, first: nat, last: nat, offset: nat)
    ensures BlockReadOn(BlockFrom(data, lower, codepage, first, last, offset), [], data, lower, codepage, first, last, offset)
  {
    assert Prepend([], BlockFrom(data, lower, codepage, first, last, offset)) == BlockFrom(data, lower, codepage, first, last, offset);
  }

  /** Past the last message the reader has appended the whole block, which succeeded. */
  lemma BlockReadEnds(block: Parsed<Option<MessageValue>>, appended: seq<Option<MessageValue>>, data: seq<byte>,
                      lower: nat, codepage: int, identifier: nat, last: nat, offset: nat)
    requires identifier > last && BlockReadOn(block, appended, data, lower, codepage, identifier, last, offset)
    ensures block == Parsed(appended, None)
  {
    assert appended + [] == appended;
  }

  /** The byte offset of block descriptor `index`. */
  function DescriptorAt(index: nat): nat
  {
    DescriptorsOffset + DescriptorSize * index
  }

  predicate DescriptorsFit(data: seq<byte>, count: nat)
  {
    DescriptorAt(count) <= |data|
  }

  /** The descriptor-count check of the readers: `count` descriptors fit after the count field. */
  lemma DescriptorsFitByCount(data: seq<byte>, count: nat)
    requires |data| >= DescriptorsOffset && count <= (|data| - DescriptorsOffset) / DescriptorSize
    ensures DescriptorsFit(data, count)
  {
  }

  function FirstIdentifier(data: seq<byte>, index: nat): nat
    requires DescriptorAt(index) + DescriptorSize <= |data|
  {
    U32(data, DescriptorAt(index))
  }

  function LastIdentifier(data: seq<byte>, index: nat): nat
    requires DescriptorAt(index) + DescriptorSize <= |data|
  {
    U32(data, DescriptorAt(index) + 4)
  }

  function EntriesOffset(data: seq<byte>, index: nat): nat
    requires DescriptorAt(index) + DescriptorSize <= |data|
  {
    U32(data, DescriptorAt(index) + 8)
  }

  /** The three fields of descriptor `index`, read at its byte offset `at`. */
  lemma DescriptorFields(data: seq<byte>, index: nat, at: nat)
    requires at == DescriptorAt(index) && at + DescriptorSize <= |data|
    ensures U32(data, at) == FirstIdentifier(data, index)
    ensures U32(data, at + 4) == LastIdentifier(data, index)
    ensures U32(data, at + 8) == EntriesOffset(data, index)
  {
  }

  /**
   * The entry offsets of block `index` must not lie before the end of its
   * own descriptor when `checkLower` holds (the resource reader), and may
   * lie anywhere in the buffer otherwise (the values reader).
   */
  function LowerBound(index: nat, checkLower: bool): nat
  {
    if checkLower then DescriptorAt(index) + DescriptorSize else 0
  }

  function Block(data: seq<byte>, codepage: int, checkLower: bool, index: nat): Parsed<Option<MessageValue>>
    requires DescriptorAt(index) + DescriptorSize <= |data|
  {
    BlockFrom(data, LowerBound(index, checkLower), codepage,
      FirstIdentifier(data, index), LastIdentifier(data, index), EntriesOffset(data, index))
  }

  /** Blocks `index` to `count - 1`, in descriptor order; a block whose first identifier exceeds its last is an error. */
  function BlocksFrom(data: seq<byte>, codepage: int, checkLower: bool, index: nat, count: nat)
    : Parsed<Option<MessageValue>>
    requires DescriptorsFit(data, count)
    decreases count - index
  {
    if index >= count then Parsed([], None)
    else if FirstIdentifier(data, index) > LastIdentifier(data, index) then Parsed([], Some(ValueOutOfBounds))
    else
      var block := Block(data, codepage, checkLower, index);
      if block.failure.Some? then block
      else Prepend(block.items, BlocksFrom(data, codepage, checkLower, index + 1, count))
  }

  /**
   * One step of the decoding of blocks: block `index`, read with the
   * resource reader's lower bound `lower`, decides whether the rest follows.
   */
  lemma BlocksFromStep(data: seq<byte>, codepage: int, index: nat, count: nat, lower: nat)
    requires DescriptorsFit(data, count) && index < count
    requires lower == DescriptorAt(index) + DescriptorSize
    requires FirstIdentifier(data, index) <= LastIdentifier(data, index)
    ensures var block := BlockFrom(data, lower, codepage,
        FirstIdentifier(data, index), LastIdentifier(data, index), EntriesOffset(data, index));
      BlocksFrom(data, codepage, true, index, count)
        == if block.failure.Some? then block
           else Prepend(block.items, BlocksFrom(data, codepage, true, index + 1, count))
  {
  }

  /** The same step for the values reader, whose entry offsets have no lower bound. */
  lemma BlocksFromUnboundedStep(data: seq<byte>, codepage: int, index: nat, count: nat)
    requires DescriptorsFit(data, count) && index < count
    requires FirstIdentifier(data, index) <= LastIdentifier(data, index)
    ensures var block := BlockFrom(data, 0, codepage,
        FirstIdentifier(data, index), LastIdentifier(data, index), EntriesOffset(data, index));
      BlocksFrom(data, codepage, false, index, count)
        == if block.failure.Some? then block
           else Prepend(block.items, BlocksFrom(data, codepage, false, index + 1, count))
  {
  }

  /** The block count: the 32-bit value at offset 0, stored in a 16-bit variable. */
  function BlockCount(data: seq<byte>): (count: nat)
    requires |data| >= 4
    ensures count < 0x1_0000
  {
    ToUint16(U32(data, 0))
  }

  /**
   * A whole message-table resource: fewer than 4 bytes, more than the
   * allocation limit, or more block descriptors than the bytes after the
   * count can hold are errors; otherwise the values of all blocks.
   */
  function MessageTable(data: seq<byte>, codepage: int, checkLower: bool): Parsed<Option<MessageValue>>
  {
    if |data| < DescriptorsOffset || |data| > MaxAllocationSize then Parsed([], Some(ValueOutOfBounds))
    else if BlockCount(data) > (|data| - DescriptorsOffset) / DescriptorSize then Parsed([], Some(ValueOutOfBounds))
    else BlocksFrom(data, codepage, checkLower, 0, BlockCount(data))
  }

  /** A resource that passes the size and count checks decodes as its blocks. */
  lemma MessageTableBlocks(data: seq<byte>, codepage: int, checkLower: bool)
    requires DescriptorsOffset <= |data| <= MaxAllocationSize
    requires BlockCount(data) <= (|data| - DescriptorsOffset) / DescriptorSize
    ensures DescriptorsFit(data, BlockCount(data))
    ensures MessageTable(data, codepage, checkLower) == BlocksFrom(data, codepage, checkLower, 0, BlockCount(data))
  {
    DescriptorsFitByCount(data, BlockCount(data));
  }

  // ---------------------------------------------------------------------
  // Properties of the decoding

  /** A block that decodes completely yields one value per identifier from `identifier` to `last`. */
  lemma {:induction false} BlockFromCount(data: seq<byte>, lower: nat, codepage: int, identifier: nat, last: nat, offset: nat)
    requires identifier <= last + 1
    ensures BlockFrom(data, lower, codepage, identifier, last, offset).failure.None? ==>
      |BlockFrom(data, lower, codepage, identifier, last, offset).items| == last + 1 - identifier
    decreases last - identifier
  {
    if identifier <= last && lower <= offset < |data| {
      var e := EntryAt(data, offset, codepage);
      if e.Ok? {
        BlockFromCount(data, lower, codepage, identifier + 1, last, offset + e.value.size);
      }
    }
  }

  /** The k-th of `items`, when present, carries identifier `identifier + k`. */
  ghost predicate NumberedFrom(items: seq<Option<MessageValue>>, identifier: nat)
  {
    forall k :: 0 <= k < |items| && items[k].Some? ==> items[k].value.identifier == identifier + k
  }

  /** The k-th value of a block carries the k-th identifier from the first one on. */
  lemma {:induction false} BlockFromIdentifiers(data: seq<byte>, lower: nat, codepage: int, identifier: nat, last: nat, offset: nat)
    ensures NumberedFrom(BlockFrom(data, lower, codepage, identifier, last, offset).items, identifier)
    decreases last - identifier
  {
    if identifier <= last && lower <= offset < |data| && EntryAt(data, offset, codepage).Ok? {
      var entry := EntryAt(data, offset, codepage).value;
      BlockFromEntry(data, lower, codepage, identifier, last, offset);
      BlockFromIdentifiers(data, lower, codepage, identifier + 1, last, offset + entry.size);
      NumberedCons(ValueOf(identifier, entry), BlockFrom(data, lower, codepage, identifier + 1, last, offset + entry.size).items, identifier);
    }
  }

  /** A block whose current entry decodes holds that entry's value followed by the rest of the block. */
  lemma BlockFromEntry(data: seq<byte>, lower: nat, codepage: int, identifier: nat, last: nat, offset: nat)
    requires identifier <= last && lower <= offset < |data| && EntryAt(data, offset, codepage).Ok?
    ensures var entry := EntryAt(data, offset, codepage).value;
      BlockFrom(data, lower, codepage, identifier, last, offset)
        == Prepend([ValueOf(identifier, entry)], BlockFrom(data, lower, codepage, identifier + 1, last, offset + entry.size))
  {
  }

  /** A value numbered `identifier` in front of values numbered from `identifier + 1` on. */
  lemma NumberedCons(value: Option<MessageValue>, rest: seq<Option<MessageValue>>, identifier: nat)
    requires value.Some? ==> value.value.identifier == identifier
    requires NumberedFrom(rest, identifier + 1)
    ensures NumberedFrom([value] + rest, identifier)
  {
    var items := [value] + rest;
    forall k | 0 <= k < |items| && items[k].Some?
      ensures items[k].value.identifier == identifier + k
    {
      if k > 0 {
        assert items[k] == rest[k - 1];
      }
    }
  }

  /** The number of identifiers blocks `index` to `count - 1` declare. */
  function SpanFrom(data: seq<byte>, index: nat, count: nat): nat
    requires DescriptorsFit(data, count)
    decreases count - index
  {
    if index >= count then 0
    else
      var first := FirstIdentifier(data, index);
      var last := LastIdentifier(data, index);
      (if first <= last then last + 1 - first else 0) + SpanFrom(data, index + 1, count)
  }

  /** A read that succeeds yields exactly one value per declared identifier. */
  lemma {:induction false} BlocksFromCount(data: seq<byte>, codepage: int, checkLower: bool, index: nat, count: nat)
    requires DescriptorsFit(data, count)
    ensures BlocksFrom(data, codepage, checkLower, index, count).failure.None? ==>
      |BlocksFrom(data, codepage, checkLower, index, count).items| == SpanFrom(data, index, count)
    decreases count - index
  {
    if index < count && FirstIdentifier(data, index) <= LastIdentifier(data, index) {
      var first, last := FirstIdentifier(data, index), LastIdentifier(data, index);
      BlocksFromBlock(data, codepage, checkLower, index, count);
      BlockFromCount(data, LowerBound(index, checkLower), codepage, first, last, EntriesOffset(data, index));
      BlocksFromCount(data, codepage, checkLower, index + 1, count);
      CountStep(BlocksFrom(data, codepage, checkLower, index, count), Block(data, codepage, checkLower, index),
        BlocksFrom(data, codepage, checkLower, index + 1, count), last + 1 - first, SpanFrom(data, index + 1, count));
    }
  }

  /** A read that is one block followed by the rest holds as many values as both together. */
  lemma CountStep<T>(whole: Parsed<T>, block: Parsed<T>, rest: Parsed<T>, blockCount: nat, restCount: nat)
    requires whole == if block.failure.Some? then block else Prepend(block.items, rest)
    requires block.failure.None? ==> |block.items| == blockCount
    requires rest.failure.None? ==> |rest.items| == restCount
    ensures whole.failure.None? ==> |whole.items| == blockCount + restCount
  {
  }

  /** An ordered descriptor's block either fails the read or is followed by the remaining blocks. */
  lemma BlocksFromBlock(data: seq<byte>, codepage: int, checkLower: bool, index: nat, count: nat)
    requires DescriptorsFit(data, count) && index < count
    requires FirstIdentifier(data, index) <= LastIdentifier(data, index)
    ensures var block := Block(data, codepage, checkLower, index);
      BlocksFrom(data, codepage, checkLower, index, count)
        == if block.failure.Some? then block
           else Prepend(block.items, BlocksFrom(data, codepage, checkLower, index + 1, count))
    ensures SpanFrom(data, index, count)
      == LastIdentifier(data, index) + 1 - FirstIdentifier(data, index) + SpanFrom(data, index + 1, count)
  {
  }

  lemma MessageTableCount(data: seq<byte>, codepage: int, checkLower: bool)
    ensures MessageTable(data, codepage, checkLower).failure.None? ==>
      |data| >= 4 && DescriptorsFit(data, BlockCount(data)) &&
      |MessageTable(data, codepage, checkLower).items| == SpanFrom(data, 0, BlockCount(data))
  {
    if 4 <= |data| <= MaxAllocationSize && BlockCount(data) <= (|data| - 4) / 12 {
      BlocksFromCount(data, codepage, checkLower, 0, BlockCount(data));
    }
  }

  /** A block descriptor whose first identifier exceeds its last makes the read fail. */
  lemma {:induction false} InvertedBlockFails(data: seq<byte>, codepage: int, checkLower: bool, index: nat, count: nat, bad: nat)
    requires DescriptorsFit(data, count)
    requires index <= bad < count && FirstIdentifier(data, bad) > LastIdentifier(data, bad)
    ensures BlocksFrom(data, codepage, checkLower, index, count).failure.Some?
    decreases count - index
  {
    if FirstIdentifier(data, index) > LastIdentifier(data, index) {
      InvertedBlock(data, codepage, checkLower, index, count);
    } else {
      InvertedBlockFails(data, codepage, checkLower, index + 1, count, bad);
      BlocksFromFailure(data, codepage, checkLower, index, count);
    }
  }

  /** After an ordered descriptor, the read fails with its block's error or with the error of the blocks after it. */
  lemma BlocksFromFailure(data: seq<byte>, codepage: int, checkLower: bool, index: nat, count: nat)
    requires DescriptorsFit(data, count) && index < count
    requires FirstIdentifier(data, index) <= LastIdentifier(data, index)
    ensures BlocksFrom(data, codepage, checkLower, index, count).failure.Some?
      || BlocksFrom(data, codepage, checkLower, index, count).failure == BlocksFrom(data, codepage, checkLower, index + 1, count).failure
  {
  }

  /** The descriptor at `index` itself is inverted. */
  lemma InvertedBlock(data: seq<byte>, codepage: int, checkLower: bool, index: nat, count: nat)
    requires DescriptorsFit(data, count) && index < count
    requires FirstIdentifier(data, index) > LastIdentifier(data, index)
    ensures BlocksFrom(data, codepage, checkLower, index, count) == Parsed([], Some(ValueOutOfBounds))
  {
  }

  /**
   * Without the lower bound on entry offsets a block decodes to the same
   * values whenever it decodes with it: the values reader accepts every
   * block the resource reader accepts, and agrees with it.
   */
  lemma {:induction false} BlockFromWithoutLowerBound(data: seq<byte>, lower: nat, codepage: int, identifier: nat, last: nat, offset: nat)
    ensures BlockFrom(data, lower, codepage, identifier, last, offset).failure.None? ==>
      BlockFrom(data, 0, codepage, identifier, last, offset) == BlockFrom(data, lower, codepage, identifier, last, offset)
    decreases last - identifier
  {
    if identifier <= last && lower <= offset < |data| {
      var e := EntryAt(data, offset, codepage);
      if e.Ok? {
        BlockFromWithoutLowerBound(data, lower, codepage, identifier + 1, last, offset + e.value.size);
      }
    }
  }

  lemma {:induction false} BlocksFromWithoutLowerBound(data: seq<byte>, codepage: int, index: nat, count: nat)
    requires DescriptorsFit(data, count)
    ensures BlocksFrom(data, codepage, true, index, count).failure.None? ==>
      BlocksFrom(data, codepage, false, index, count) == BlocksFrom(data, codepage, true, index, count)
    decreases count - index
  {
    if index < count && FirstIdentifier(data, index) <= LastIdentifier(data, index) {
      BlocksFromBlock(data, codepage, true, index, count);
      BlocksFromBlock(data, codepage, false, index, count);
      BlockFromWithoutLowerBound(data, LowerBound(index, true), codepage,
        FirstIdentifier(data, index), LastIdentifier(data, index), EntriesOffset(data, index));
      BlocksFromWithoutLowerBound(data, codepage, index + 1, count);
      AgreeStep(BlocksFrom(data, codepage, true, index, count), Block(data, codepage, true, index),
        BlocksFrom(data, codepage, true, index + 1, count),
        BlocksFrom(data, codepage, false, index, count), Block(data, codepage, false, index),
        BlocksFrom(data, codepage, false, index + 1, count));
    }
  }

  /** Two reads of one block followed by the rest agree when the first succeeds and their parts agree. */
  lemma AgreeStep<T>(whole: Parsed<T>, block: Parsed<T>, rest: Parsed<T>,
                     other: Parsed<T>, otherBlock: Parsed<T>, otherRest: Parsed<T>)
    requires whole == if block.failure.Some? then block else Prepend(block.items, rest)
    requires other == if otherBlock.failure.Some? then otherBlock else Prepend(otherBlock.items, otherRest)
    requires block.failure.None? ==> otherBlock == block
    requires rest.failure.None? ==> otherRest == rest
    ensures whole.failure.None? ==> other == whole
  {
  }

  lemma MessageTableWithoutLowerBound(data: seq<byte>, codepage: int)
    ensures MessageTable(data, codepage, true).failure.None? ==>
      MessageTable(data, codepage, false) == MessageTable(data, codepage, true)
  {
    if 4 <= |data| <= MaxAllocationSize && BlockCount(data) <= (|data| - 4) / 12 {
      BlocksFromWithoutLowerBound(data, codepage, 0, BlockCount(data));
    }
  }
}
