/**
 * libwrc_message_table_values: the message-table reader used when a
 * stream's resources are read. It reads the resource bytes through a file
 * IO handle and appends one value per message identifier to the language
 * entry of the resource. Unlike the in-memory reader, an entry offset only
 * has to lie inside the resource; it is not bounded below by the
 * descriptors.
 */
module MessageTableValues {
  import opened Bytes
  import opened MessageTableLayout
  import opened MessageTableResource
  import opened LanguageEntries

  /** The descriptor-count check of this reader agrees with that of the in-memory reader. */
  lemma {:induction false} DescriptorChecksAgree(remaining: nat, count: nat)
    ensures count * DescriptorSize > remaining <==> count > remaining / DescriptorSize
  {
    var q := remaining / DescriptorSize;
    assert remaining == DescriptorSize * q + remaining % DescriptorSize;
    if count > q {
      assert count * DescriptorSize >= (q + 1) * DescriptorSize;
    } else {
      assert count * DescriptorSize <= q * DescriptorSize;
    }
  }

  /**
   * libwrc_message_table_values_read after the argument checks: a size of
   * 0 or above the allocation limit is refused, `delivered` is what the
   * read of `size` bytes at the resource's file offset returned, and a
   * short read is an error. Values appended before an error stay in the
   * language entry.
   */
  method Read(languageEntry: LanguageEntry<Option<MessageValue>>, asciiCodepage: int, size: nat, delivered: seq<byte>)
    returns (r: Result<()>)
    modifies languageEntry
    ensures size == 0 || size > MaxAllocationSize ==>
      r == Err(ValueOutOfBounds) && languageEntry.values == old(languageEntry.values)
    ensures 0 < size <= MaxAllocationSize && |delivered| != size ==>
      r == Err(ReadFailed) && languageEntry.values == old(languageEntry.values)
    ensures 0 < size <= MaxAllocationSize && |delivered| == size ==>
      languageEntry.values == old(languageEntry.values) + MessageTable(delivered, asciiCodepage, false).items
      && r == StatusOf(MessageTable(delivered, asciiCodepage, false))
  {
    if size == 0 || size > MaxAllocationSize {
      return Err(ValueOutOfBounds);
    }
    if |delivered| != size {
      return Err(ReadFailed);
    }
    var data := delivered;
    if |data| < DescriptorsOffset {
      return Err(ValueOutOfBounds);
    }
    var count := ToUint16(U32(data, 0));
    var remaining: nat := |data| - DescriptorsOffset;
    DescriptorChecksAgree(remaining, count);
    if count * DescriptorSize > remaining {
      return Err(ValueOutOfBounds);
    }
    MessageTableBlocks(data, asciiCodepage, false);
    ghost var whole := BlocksFrom(data, asciiCodepage, false, 0, count);
    ghost var appended: seq<Option<MessageValue>> := [];
    var dataOffset: nat := DescriptorsOffset;
    var index := 0;
    while index < count
      invariant 0 <= index <= count
      invariant dataOffset == DescriptorAt(index) && DescriptorsFit(data, count)
      invariant languageEntry.values == old(languageEntry.values) + appended
      invariant whole == Prepend(appended, BlocksFrom(data, asciiCodepage, false, index, count))
      decreases count - index
    {
      var block, items := ReadDescriptorBlock(languageEntry, data, asciiCodepage, index, count, dataOffset);
      PrependTwice(appended, items, BlocksFrom(data, asciiCodepage, false, index + 1, count));
      ConcatAssociative(old(languageEntry.values), appended, items);
      if block.Err? {
        assert whole == Parsed(appended + items, Some(block.error));
        return block;
      }
      appended := appended + items;
      dataOffset := dataOffset + DescriptorSize;
      index := index + 1;
    }
    r := Ok(());
  }

  /** One iteration of the descriptor loop: the descriptor is read, its range checked, and its block read. */
  method ReadDescriptorBlock(languageEntry: LanguageEntry<Option<MessageValue>>, data: seq<byte>, asciiCodepage: int,
                             index: nat, count: nat, dataOffset: nat)
    returns (r: Result<()>, ghost items: seq<Option<MessageValue>>)
    requires DescriptorsFit(data, count) && index < count && dataOffset == DescriptorAt(index)
    modifies languageEntry
    ensures languageEntry.values == old(languageEntry.values) + items
    ensures r.Err? ==> BlocksFrom(data, asciiCodepage, false, index, count) == Parsed(items, Some(r.error))
    ensures r.Ok? ==>
      BlocksFrom(data, asciiCodepage, false, index, count)
      == Prepend(items, BlocksFrom(data, asciiCodepage, false, index + 1, count))
  {
    var first := U32(data, dataOffset);
    var last := U32(data, dataOffset + 4);
    var offset := U32(data, dataOffset + 8);
    DescriptorFields(data, index, dataOffset);
    if first > last {
      return Err(ValueOutOfBounds), [];
    }
    BlocksFromUnboundedStep(data, asciiCodepage, index, count);
    items := BlockFrom(data, 0, asciiCodepage, first, last, offset).items;
    r := ReadBlock(languageEntry, data, asciiCodepage, first, last, offset);
  }

  /** The per-identifier loop: entry offsets must lie inside the resource, and each value is appended. */
  method ReadBlock(languageEntry: LanguageEntry<Option<MessageValue>>, data: seq<byte>, asciiCodepage: int,
                   first: nat, last: nat, offset: nat)
    returns (r: Result<()>)
    requires first <= last
    modifies languageEntry
    ensures languageEntry.values == old(languageEntry.values) + BlockFrom(data, 0, asciiCodepage, first, last, offset).items
    ensures r == StatusOf(BlockFrom(data, 0, asciiCodepage, first, last, offset))
  {
    ghost var block := BlockFrom(data, 0, asciiCodepage, first, last, offset);
    ghost var before := languageEntry.values;
    ghost var inBlock: seq<Option<MessageValue>> := [];
    BlockReadStarts(data, 0, asciiCodepage, first, last, offset);
    var identifier: nat := first;
    var entryOffset: nat := offset;
    while identifier <= last
      invariant identifier <= last + 1
      invariant languageEntry.values == before + inBlock
      invariant BlockReadOn(block, inBlock, data, 0, asciiCodepage, identifier, last, entryOffset)
      decreases last - identifier
    {
      var size;
      size, inBlock := ReadBlockStep(languageEntry, data, asciiCodepage, identifier, last, entryOffset, block, before, inBlock);
      if size.Err? {
        return Err(size.error);
      }
      entryOffset := entryOffset + size.value;
      identifier := identifier + 1;
    }
    BlockReadEnds(block, inBlock, data, 0, asciiCodepage, identifier, last, entryOffset);
    r := Ok(());
  }

  /**
   * The body of the per-identifier loop: the entry is read and its value
   * appended; returns the entry size. `block` is the whole block being
   * read and `inBlock` its values appended so far after `before`.
   */
  method ReadBlockStep(languageEntry: LanguageEntry<Option<MessageValue>>, data: seq<byte>, asciiCodepage: int,
                       identifier: nat, last: nat, offset: nat, ghost block: Parsed<Option<MessageValue>>,
                       ghost before: seq<Option<MessageValue>>, ghost inBlock: seq<Option<MessageValue>>)
    returns (r: Result<nat>, ghost appended: seq<Option<MessageValue>>)
    requires identifier <= last
    requires languageEntry.values == before + inBlock
    requires BlockReadOn(block, inBlock, data, 0, asciiCodepage, identifier, last, offset)
    modifies languageEntry
    ensures languageEntry.values == before + appended
    ensures r.Err? ==> appended == inBlock && block == Parsed(inBlock, Some(r.error))
    ensures r.Ok? ==> BlockReadOn(block, appended, data, 0, asciiCodepage, identifier + 1, last, offset + r.value)
  {
    var entry := ReadBlockEntry(data, 0, asciiCodepage, identifier, last, offset);
    if entry.Err? {
      assert inBlock + [] == inBlock;
      return Err(entry.error), inBlock;
    }
    var value := ValueOf(identifier, entry.value);
    AppendStep(block, before, inBlock, value,
      BlockFrom(data, 0, asciiCodepage, identifier + 1, last, offset + entry.value.size));
    var _ := languageEntry.AppendValue(value);
    r, appended := Ok(entry.value.size), inBlock + [value];
  }
}
