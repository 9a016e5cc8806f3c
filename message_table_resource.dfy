/**
 * libwrc_message_table_resource: decodes a message-table resource held in
 * memory into an array of message values, and answers queries over that
 * array by index and by message identifier.
 */
module MessageTableResource {
  import opened Bytes
  import opened MessageTableLayout

  /**
   * Strips trailing zero bytes from the `size` text bytes at `start`,
   * keeping at least one.
   */
  method TrimByteStream(data: seq<byte>, start: nat, size: nat) returns (kept: nat)
    requires 1 <= size && start + size <= |data|
    ensures kept == ByteStreamKept(data[start..start + size], size)
  {
    ghost var text := data[start..start + size];
    var remaining := size;
    while remaining > 0
      invariant 0 <= remaining <= size
      invariant remaining >= 1 ==> ByteStreamKept(text, size) == ByteStreamKept(text, remaining)
      invariant remaining == 0 ==> ByteStreamKept(text, size) == 1
    {
      remaining := remaining - 1;
      if data[start + remaining] != 0 {
        assert text[remaining] != 0;
        break;
      }
      assert text[remaining] == 0;
    }
    kept := remaining + 1;
  }

  /**
   * Strips trailing zero byte pairs from the `size` text bytes at `start`,
   * pair by pair from the end, keeping at least one unit.
   */
  method TrimUtf16(data: seq<byte>, start: nat, size: nat) returns (kept: nat)
    requires start + size <= |data|
    ensures kept == Utf16Kept(data[start..start + size], size)
  {
    ghost var text := data[start..start + size];
    var remaining := size;
    while remaining > 1
      invariant 0 <= remaining <= size
      invariant Utf16Kept(text, size) == Utf16Kept(text, remaining)
    {
      remaining := remaining - 2;
      if data[start + remaining] != 0 || data[start + remaining + 1] != 0 {
        assert text[remaining] != 0 || text[remaining + 1] != 0;
        remaining := remaining + 2;
        break;
      }
      assert text[remaining] == 0 && text[remaining + 1] == 0;
    }
    if remaining <= 1 {
      kept := remaining + 2;
    } else {
      kept := remaining;
    }
  }

  /**
   * Reads the entry at `offset`: its 4-byte header {size, flags} and, for
   * an entry of more than 4 bytes, its text with trailing zero units
   * stripped, as a codepage byte stream or UTF-16LE by flag bit 0.
   */
  method ReadEntry(data: seq<byte>, offset: nat, codepage: int) returns (r: Result<Entry>)
    ensures r == EntryAt(data, offset, codepage)
  {
    if offset + EntryHeaderSize > |data| {
      return Err(ReadBeyondData);
    }
    var size := U16(data, offset);
    var flags := U16(data, offset + 2);
    if size <= EntryHeaderSize {
      return Ok(Entry(None, size));
    }
    var start := offset + EntryHeaderSize;
    var length := size - EntryHeaderSize;
    if start + length > |data| {
      return Err(ReadBeyondData);
    }
    var encoding: Encoding;
    var kept: nat;
    if flags % 2 == 0 {
      encoding := ByteStream(codepage);
      kept := TrimByteStream(data, start, length);
    } else {
      encoding := Utf16LittleEndian;
      kept := TrimUtf16(data, start, length);
    }
    if start + kept > |data| {
      return Err(ReadBeyondData);
    }
    r := Ok(Entry(Some(TextData(data[start..start + kept], encoding)), size));
  }

  /**
   * One step of the per-identifier loop: the entry offset must lie in
   * [`lower`, |data|), and the entry there is read; what the step yields is
   * the first value of the rest of the block.
   */
  method ReadBlockEntry(data: seq<byte>, lower: nat, codepage: int, identifier: nat, last: nat, offset: nat)
    returns (r: Result<Entry>)
    requires identifier <= last
    ensures r.Err? ==> BlockFrom(data, lower, codepage, identifier, last, offset) == Parsed([], Some(r.error))
    ensures r.Ok? ==>
      BlockFrom(data, lower, codepage, identifier, last, offset)
      == Prepend([ValueOf(identifier, r.value)], BlockFrom(data, lower, codepage, identifier + 1, last, offset + r.value.size))
  {
    if offset < lower || offset >= |data| {
      return Err(ValueOutOfBounds);
    }
    r := ReadEntry(data, offset, codepage);
  }

  /** The search of get_index_by_identifier over the values from position `i` on. */
  function FindMessageFrom(values: seq<Option<MessageValue>>, identifier: nat, i: nat): (l: Lookup)
    ensures l.Found? ==>
      i <= l.index < |values| && values[l.index].Some? && values[l.index].value.identifier == identifier
    ensures l.NullEntry? ==> i <= l.index < |values| && values[l.index].None?
    decreases |values| - i
  {
    if i >= |values| then NotFound
    else if values[i].None? then NullEntry(i)
    else if values[i].value.identifier == identifier then Found(i)
    else FindMessageFrom(values, identifier, i + 1)
  }

  /** No message before `hi` has the identifier, and none of them is NULL. */
  ghost predicate NoMessageBefore(values: seq<Option<MessageValue>>, identifier: nat, hi: nat)
    requires hi <= |values|
  {
    forall j :: 0 <= j < hi ==> values[j].Some? && values[j].value.identifier != identifier
  }

  /** The search finds the first message with the identifier, and reports "none" only when there is none. */
  lemma {:induction false} FindMessageFromMeaning(values: seq<Option<MessageValue>>, identifier: nat, i: nat)
    requires i <= |values|
    requires NoMessageBefore(values, identifier, i)
    ensures FindMessageFrom(values, identifier, i).Found? ==>
      NoMessageBefore(values, identifier, FindMessageFrom(values, identifier, i).index)
    ensures FindMessageFrom(values, identifier, i).NullEntry? ==>
      NoMessageBefore(values, identifier, FindMessageFrom(values, identifier, i).index)
    ensures FindMessageFrom(values, identifier, i).NotFound? <==> NoMessageBefore(values, identifier, |values|)
    decreases |values| - i
  {
    if i < |values| && values[i].Some? && values[i].value.identifier != identifier {
      FindMessageFromMeaning(values, identifier, i + 1);
    }
  }

  class MessageTableResource {
    /** The values array: one entry per message, NULL for an entry without text. */
    var values: seq<Option<MessageValue>>

    constructor ()
      ensures values == []
    {
      values := [];
    }

    /**
     * libwrc_message_table_resource_read: appends one value per message
     * identifier, block by block in descriptor order; a value appended
     * before an error stays in the array. `data` is `None` for a NULL
     * pointer.
     */
    method Read(data: Option<seq<byte>>, asciiCodepage: int) returns (r: Result<()>)
      modifies this
      ensures data.None? ==> r == Err(InvalidArgument) && values == old(values)
      ensures data.Some? ==> values == old(values) + MessageTable(data.value, asciiCodepage, true).items
      ensures data.Some? ==> r == StatusOf(MessageTable(data.value, asciiCodepage, true))
    {
      if data.None? {
        return Err(InvalidArgument);
      }
      var bytes := data.value;
      if |bytes| < DescriptorsOffset || |bytes| > MaxAllocationSize {
        return Err(ValueOutOfBounds);
      }
      var count := ToUint16(U32(bytes, 0));
      var dataOffset := DescriptorsOffset;
      if count > (|bytes| - dataOffset) / DescriptorSize {
        return Err(ValueOutOfBounds);
      }
      MessageTableBlocks(bytes, asciiCodepage, true);
      ghost var whole := BlocksFrom(bytes, asciiCodepage, true, 0, count);
      ghost var appended: seq<Option<MessageValue>> := [];
      var index := 0;
      while index < count
        invariant 0 <= index <= count
        invariant dataOffset == DescriptorAt(index) && DescriptorsFit(bytes, count)
        invariant values == old(values) + appended
        invariant whole == Prepend(appended, BlocksFrom(bytes, asciiCodepage, true, index, count))
        decreases count - index
      {
        var block, items := ReadDescriptorBlock(bytes, asciiCodepage, index, count, dataOffset);
        PrependTwice(appended, items, BlocksFrom(bytes, asciiCodepage, true, index + 1, count));
        ConcatAssociative(old(values), appended, items);
        if block.Err? {
          assert whole == Parsed(appended + items, Some(block.error));
          return block;
        }
        appended := appended + items;
        dataOffset := dataOffset + DescriptorSize;
        index := index + 1;
      }
      r := Ok(());
    }

    /**
     * One iteration of the per-descriptor loop of the read: the descriptor
     * at `dataOffset` is read, its identifier range checked, and its block
     * read with entry offsets bounded below by the end of the descriptor.
     */
    method ReadDescriptorBlock(data: seq<byte>, asciiCodepage: int, index: nat, count: nat, dataOffset: nat)
      returns (r: Result<()>, ghost items: seq<Option<MessageValue>>)
      requires DescriptorsFit(data, count) && index < count && dataOffset == DescriptorAt(index)
      modifies this
      ensures values == old(values) + items
      ensures r.Err? ==> BlocksFrom(data, asciiCodepage, true, index, count) == Parsed(items, Some(r.error))
      ensures r.Ok? ==>
        BlocksFrom(data, asciiCodepage, true, index, count)
        == Prepend(items, BlocksFrom(data, asciiCodepage, true, index + 1, count))
    {
      var first := U32(data, dataOffset);
      var last := U32(data, dataOffset + 4);
      var offset := U32(data, dataOffset + 8);
      DescriptorFields(data, index, dataOffset);
      if first > last {
        return Err(ValueOutOfBounds), [];
      }
      BlocksFromStep(data, asciiCodepage, index, count, dataOffset + DescriptorSize);
      items := BlockFrom(data, dataOffset + DescriptorSize, asciiCodepage, first, last, offset).items;
      r := ReadBlock(data, dataOffset + DescriptorSize, asciiCodepage, first, last, offset);
    }

    /**
     * The per-identifier loop of the read for one block: entry offsets must
     * lie in [`lower`, |data|), and each entry advances the offset by its
     * size field.
     */
    method ReadBlock(data: seq<byte>, lower: nat, asciiCodepage: int, first: nat, last: nat, offset: nat)
      returns (r: Result<()>)
      requires first <= last
      modifies this
      ensures values == old(values) + BlockFrom(data, lower, asciiCodepage, first, last, offset).items
      ensures r == StatusOf(BlockFrom(data, lower, asciiCodepage, first, last, offset))
    {
      ghost var block := BlockFrom(data, lower, asciiCodepage, first, last, offset);
      ghost var before := values;
      ghost var inBlock: seq<Option<MessageValue>> := [];
      BlockReadStarts(data, lower, asciiCodepage, first, last, offset);
      var identifier: nat := first;
      var entryOffset: nat := offset;
      while identifier <= last
        invariant identifier <= last + 1
        invariant values == before + inBlock
        invariant BlockReadOn(block, inBlock, data, lower, asciiCodepage, identifier, last, entryOffset)
        decreases last - identifier
      {
        var size;
        size, inBlock := ReadBlockStep(data, lower, asciiCodepage, identifier, last, entryOffset, block, before, inBlock);
        if size.Err? {
          return Err(size.error);
        }
        entryOffset := entryOffset + size.value;
        identifier := identifier + 1;
      }
      BlockReadEnds(block, inBlock, data, lower, asciiCodepage, identifier, last, entryOffset);
      r := Ok(());
    }

    /**
     * The body of the per-identifier loop: the entry is read and its value
     * appended; returns the entry size. `block` is the whole block being
     * read and `inBlock` its values appended so far after `before`.
     */
    method ReadBlockStep(data: seq<byte>, lower: nat, asciiCodepage: int, identifier: nat, last: nat, offset: nat,
                         ghost block: Parsed<Option<MessageValue>>, ghost before: seq<Option<MessageValue>>,
                         ghost inBlock: seq<Option<MessageValue>>)
      returns (r: Result<nat>, ghost appended: seq<Option<MessageValue>>)
      requires identifier <= last
      requires values == before + inBlock
      requires BlockReadOn(block, inBlock, data, lower, asciiCodepage, identifier, last, offset)
      modifies this
      ensures values == before + appended
      ensures r.Err? ==> appended == inBlock && block == Parsed(inBlock, Some(r.error))
      ensures r.Ok? ==> BlockReadOn(block, appended, data, lower, asciiCodepage, identifier + 1, last, offset + r.value)
    {
      var entry := ReadBlockEntry(data, lower, asciiCodepage, identifier, last, offset);
      if entry.Err? {
        assert inBlock + [] == inBlock;
        return Err(entry.error), inBlock;
      }
      var value := ValueOf(identifier, entry.value);
      AppendStep(block, before, inBlock, value,
        BlockFrom(data, lower, asciiCodepage, identifier + 1, last, offset + entry.value.size));
      values := values + [value];
      r, appended := Ok(entry.value.size), inBlock + [value];
    }

    method GetNumberOfMessages() returns (count: nat)
      ensures count == |values|
    {
      count := |values|;
    }

    /** The identifier of the message at `index`; out of range or a NULL value is an error. */
    method GetIdentifier(index: int) returns (r: Result<nat>)
      ensures !(0 <= index < |values|) ==> r == Err(ValueOutOfBounds)
      ensures 0 <= index < |values| && values[index].None? ==> r == Err(ValueMissing)
      ensures r.Ok? <==> 0 <= index < |values| && values[index].Some?
      ensures r.Ok? ==> r.value == values[index].value.identifier
    {
      if !(0 <= index < |values|) {
        return Err(ValueOutOfBounds);
      }
      var value := values[index];
      if value.None? {
        return Err(ValueMissing);
      }
      r := Ok(value.value.identifier);
    }

    /**
     * libwrc_message_table_resource_get_index_by_identifier: `Ok(Some(i))`
     * for the first message with the identifier, `Ok(None)` (return value 0,
     * index not written) when no message has it, an error when a NULL value
     * is met first.
     */
    method GetIndexByIdentifier(identifier: nat) returns (r: Result<Option<nat>>)
      ensures FindMessageFrom(values, identifier, 0).Found? ==> r == Ok(Some(FindMessageFrom(values, identifier, 0).index))
      ensures FindMessageFrom(values, identifier, 0).NotFound? ==> r == Ok(None)
      ensures FindMessageFrom(values, identifier, 0).NullEntry? ==> r == Err(ValueMissing)
      ensures r.Ok? && r.value.Some? ==>
        r.value.value < |values| && values[r.value.value] == Some(values[r.value.value].value)
        && values[r.value.value].value.identifier == identifier
    {
      var i := 0;
      while i < |values|
        invariant 0 <= i <= |values|
        invariant FindMessageFrom(values, identifier, i) == FindMessageFrom(values, identifier, 0)
      {
        var value := values[i];
        if value.None? {
          return Err(ValueMissing);
        }
        if value.value.identifier == identifier {
          return Ok(Some(i));
        }
        i := i + 1;
      }
      r := Ok(None);
    }

    /**
     * The text the UTF-8 and UTF-16 string getters hand to libfvalue for
     * conversion; out of range or a NULL value is an error.
     */
    method GetText(index: int) returns (r: Result<TextData>)
      ensures !(0 <= index < |values|) ==> r == Err(ValueOutOfBounds)
      ensures 0 <= index < |values| && values[index].None? ==> r == Err(ValueMissing)
      ensures r.Ok? <==> 0 <= index < |values| && values[index].Some?
      ensures r.Ok? ==> r.value == values[index].value.text
    {
      if !(0 <= index < |values|) {
        return Err(ValueOutOfBounds);
      }
      var value := values[index];
      if value.None? {
        return Err(ValueMissing);
      }
      r := Ok(value.value.text);
    }
  }
}
