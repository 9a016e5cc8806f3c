/**
 * The string-table block of the library's own test vector
 * (tests/wrc_test_string_table_resource.c): eight empty slots, the string
 * "My string" in slot 8, and seven empty slots.
 */
module StringTableSample {
  import opened Bytes
  import opened StringTableLayout
  import opened StringTableResource

  const Sample: seq<byte> :=
    [0x00, 0x00, 0x00, 0x00, 0x00, 0x00, 0x00, 0x00, 0x00, 0x00, 0x00, 0x00, 0x00, 0x00, 0x00, 0x00]
    + [0x09, 0x00, 0x4d, 0x00, 0x79, 0x00, 0x20, 0x00, 0x73, 0x00, 0x74, 0x00, 0x72, 0x00, 0x69, 0x00]
    + [0x6e, 0x00, 0x67, 0x00, 0x00, 0x00, 0x00, 0x00, 0x00, 0x00, 0x00, 0x00, 0x00, 0x00, 0x00, 0x00]
    + [0x00, 0x00]

  /** "My string" as UTF-16LE. */
  const MyString: seq<byte> :=
    [0x4d, 0x00, 0x79, 0x00, 0x20, 0x00, 0x73, 0x00, 0x74, 0x00, 0x72, 0x00, 0x69, 0x00, 0x6e, 0x00, 0x67, 0x00]

  /** The empty slots after the string leave nothing to decode. */
  lemma SampleTail()
    ensures TableFrom(Sample, 62, 36, 9) == Parsed([], None)
  {
    assert |Sample| == 50;
    assert Sample[36] == 0 && Sample[37] == 0 && Sample[38] == 0 && Sample[39] == 0;
    assert Sample[40] == 0 && Sample[41] == 0 && Sample[42] == 0 && Sample[43] == 0;
    assert Sample[44] == 0 && Sample[45] == 0 && Sample[46] == 0 && Sample[47] == 0;
    assert TableFrom(Sample, 62, 48, 15) == Parsed([], None);
    assert TableFrom(Sample, 62, 46, 14) == Parsed([], None);
    assert TableFrom(Sample, 62, 44, 13) == Parsed([], None);
    assert TableFrom(Sample, 62, 42, 12) == Parsed([], None);
    assert TableFrom(Sample, 62, 40, 11) == Parsed([], None);
    assert TableFrom(Sample, 62, 38, 10) == Parsed([], None);
  }

  /** Slot 8 holds the 9 code units of "My string". */
  lemma SampleString()
    ensures TableFrom(Sample, 62, 16, 8)
      == Parsed([StringValue(0x3e8, TextData(MyString, Utf16LittleEndian))], None)
  {
    assert Sample[16] == 9 && Sample[17] == 0;
    assert Sample[18..36] == MyString;
    StringIdentifierOfSlot(62, 8);
    SampleTail();
  }

  /** The eight empty slots ahead of the string. */
  lemma SampleHead()
    ensures TableFrom(Sample, 62, 0, 0) == TableFrom(Sample, 62, 16, 8)
  {
    assert forall k :: 0 <= k < 16 ==> Sample[k] == 0;
    assert TableFrom(Sample, 62, 14, 7) == TableFrom(Sample, 62, 16, 8);
    assert TableFrom(Sample, 62, 12, 6) == TableFrom(Sample, 62, 14, 7);
    assert TableFrom(Sample, 62, 10, 5) == TableFrom(Sample, 62, 12, 6);
    assert TableFrom(Sample, 62, 8, 4) == TableFrom(Sample, 62, 10, 5);
    assert TableFrom(Sample, 62, 6, 3) == TableFrom(Sample, 62, 8, 4);
    assert TableFrom(Sample, 62, 4, 2) == TableFrom(Sample, 62, 6, 3);
    assert TableFrom(Sample, 62, 2, 1) == TableFrom(Sample, 62, 4, 2);
  }

  /**
   * Read with base identifier 63, the block yields one string, identifier
   * 0x3e8, holding "My string"; the lookup finds 0x3e8 at index 0 and
   * does not find 0x1234.
   */
  lemma SampleDecodes()
    ensures StringTable(Sample, 63)
      == Parsed([StringValue(0x3e8, TextData(MyString, Utf16LittleEndian))], None)
    ensures FindStringFrom(StringTable(Sample, 63).items, 0x3e8, 0) == Found(0)
    ensures FindStringFrom(StringTable(Sample, 63).items, 0x1234, 0) == NotFound
  {
    SampleHead();
    SampleString();
  }
}
