/**
 * libwrc_string_values: the string-table reader used when a stream's
 * resources are read. It reads the resource bytes through a file IO
 * handle and appends one UTF-16 string value per non-empty slot to the
 * language entry of the resource.
 */
module StringValues {
  import opened Bytes
  import opened StringTableLayout
  import opened LanguageEntries

  /**
   * libwrc_string_values_read after the argument checks: a size of 0 or
   * above the allocation limit is refused, `delivered` is what the read of
   * `size` bytes at the resource's file offset returned, and a short read
   * is an error. `identifier` is the one the caller passes, the
   * string-block identifier minus one. A single byte left where a length
   * is expected is an error (see the findings). Values appended before an
   * error stay in the language entry.
   */
  method Read(languageEntry: LanguageEntry<StringValue>, identifier: nat, size: nat, delivered: seq<byte>)
    returns (r: Result<()>)
    modifies languageEntry
    ensures size == 0 || size > MaxAllocationSize ==>
      r == Err(ValueOutOfBounds) && languageEntry.values == old(languageEntry.values)
    ensures 0 < size <= MaxAllocationSize && |delivered| != size ==>
      r == Err(ReadFailed) && languageEntry.values == old(languageEntry.values)
    ensures 0 < size <= MaxAllocationSize && |delivered| == size ==>
      languageEntry.values == old(languageEntry.values) + StringValues(delivered, identifier).items
      && r == StatusOf(StringValues(delivered, identifier))
  {
    if size == 0 || size > MaxAllocationSize {
      return Err(ValueOutOfBounds);
    }
    if |delivered| != size {
      return Err(ReadFailed);
    }
    var data := delivered;
    ghost var whole := ValuesFrom(data, identifier, 0, 0);
    ghost var before := languageEntry.values;
    ghost var appended: seq<StringValue> := [];
    var offset: nat := 0;
    var remaining: nat := |data|;
    var slot: nat := 0;
    while remaining > 0
      invariant offset + remaining == |data|
      invariant languageEntry.values == before + appended
      invariant whole == Prepend(appended, ValuesFrom(data, identifier, offset, slot))
      decreases remaining
    {
      if remaining < 2 {
        assert whole == Parsed(appended, Some(ValueOutOfBounds)) && appended + [] == appended;
        return Err(ValueOutOfBounds);
      }
      var units := U16(data, offset);
      offset := offset + 2;
      remaining := remaining - 2;
      if units > 0 {
        var stringIdentifier := StringIdentifier(identifier, slot);
        var stringSize := 2 * units;
        if stringSize > remaining {
          assert whole == Parsed(appended, Some(ValueOutOfBounds)) && appended + [] == appended;
          return Err(ValueOutOfBounds);
        }
        var value := StringValue(stringIdentifier, TextData(data[offset..offset + stringSize], Utf16LittleEndian));
        offset := offset + stringSize;
        remaining := remaining - stringSize;
        PrependTwice(appended, [value], ValuesFrom(data, identifier, offset, slot + 1));
        ConcatAssociative(before, appended, [value]);
        var _ := languageEntry.AppendValue(value);
        appended := appended + [value];
      }
      slot := slot + 1;
    }
    assert whole == Parsed(appended, None) && appended + [] == appended;
    r := Ok(());
  }
}
