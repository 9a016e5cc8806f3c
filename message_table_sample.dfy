module MessageTableSample {
  import opened Bytes
  import opened MessageTableLayout

  /** The 120-byte message-table resource of the library's own test data, by rows of 16 bytes. */
  const Sample: seq<byte> :=
    [0x02, 0x00, 0x00, 0x00, 0x01, 0x00, 0x00, 0x00, 0x02, 0x00, 0x00, 0x00, 0x1c, 0x00, 0x00, 0x00]
    + [0xe8, 0x03, 0x00, 0x00, 0xe8, 0x03, 0x00, 0x00, 0x54, 0x00, 0x00, 0x00, 0x10, 0x00, 0x00, 0x00]
    + [0x43, 0x61, 0x74, 0x65, 0x67, 0x6f, 0x72, 0x79, 0x0d, 0x0a, 0x00, 0x00, 0x28, 0x00, 0x00, 0x00]
    + [0x4d, 0x79, 0x20, 0x6d, 0x65, 0x73, 0x73, 0x61, 0x67, 0x65, 0x20, 0x77, 0x69, 0x74, 0x68, 0x20]
    + [0x70, 0x61, 0x72, 0x61, 0x6d, 0x65, 0x74, 0x65, 0x72, 0x73, 0x20, 0x25, 0x31, 0x20, 0x25, 0x32]
    + [0x2e, 0x0d, 0x0a, 0x00, 0x24, 0x00, 0x00, 0x00, 0x4d, 0x79, 0x20, 0x6d, 0x65, 0x73, 0x73, 0x61]
    + [0x67, 0x65, 0x20, 0x77, 0x69, 0x74, 0x68, 0x6f, 0x75, 0x74, 0x20, 0x70, 0x61, 0x72, 0x61, 0x6d]
    + [0x65, 0x74, 0x65, 0x72, 0x73, 0x0d, 0x0a, 0x00]

  /** The first entry: "Category\r\n" and two zero bytes, of which the zeros are stripped. */
  lemma SampleFirstEntry()
    ensures EntryAt(Sample, 28, 1252) == Ok(Entry(Some(TextData(Sample[32..42], ByteStream(1252))), 16))
  {
    assert Sample[28] == 0x10 && Sample[29] == 0 && Sample[30] == 0 && Sample[31] == 0;
    var text := Sample[32..44];
    assert text[11] == Sample[43] == 0;
    assert text[10] == Sample[42] == 0;
    assert text[9] == Sample[41] != 0;
    assert ByteStreamKept(text, 12) == 10;
  }

  /** The second entry: "My message with parameters %1 %2.\r\n" and one zero byte. */
  lemma SampleSecondEntry()
    ensures EntryAt(Sample, 44, 1252) == Ok(Entry(Some(TextData(Sample[48..83], ByteStream(1252))), 40))
  {
    assert Sample[44] == 0x28 && Sample[45] == 0 && Sample[46] == 0 && Sample[47] == 0;
    var text := Sample[48..84];
    assert text[35] == Sample[83] == 0;
    assert text[34] == Sample[82] != 0;
    assert ByteStreamKept(text, 36) == 35;
  }

  /** The third entry: "My message without parameters\r\n" and one zero byte. */
  lemma SampleThirdEntry()
    ensures EntryAt(Sample, 84, 1252) == Ok(Entry(Some(TextData(Sample[88..119], ByteStream(1252))), 36))
  {
    assert Sample[84] == 0x24 && Sample[85] == 0 && Sample[86] == 0 && Sample[87] == 0;
    var text := Sample[88..120];
    assert text[31] == Sample[119] == 0;
    assert text[30] == Sample[118] != 0;
    assert ByteStreamKept(text, 32) == 31;
  }

  /** The descriptors of the sample: identifiers 1 to 2 at offset 28, and 0x3e8 alone at offset 84. */
  lemma SampleDescriptors()
    ensures |Sample| == 120 && BlockCount(Sample) == 2
    ensures FirstIdentifier(Sample, 0) == 1 && LastIdentifier(Sample, 0) == 2 && EntriesOffset(Sample, 0) == 28
    ensures FirstIdentifier(Sample, 1) == 0x3e8 && LastIdentifier(Sample, 1) == 0x3e8 && EntriesOffset(Sample, 1) == 84
  {
    assert U32(Sample, 0) == 2;
    assert U32(Sample, 4) == 1 && U32(Sample, 8) == 2 && U32(Sample, 12) == 28;
    assert U32(Sample, 16) == 0x3e8 && U32(Sample, 20) == 0x3e8 && U32(Sample, 24) == 84;
  }

  lemma SampleFirstBlock()
    ensures BlockFrom(Sample, 16, 1252, 1, 2, 28) == Parsed([
      Some(MessageValue(1, TextData(Sample[32..42], ByteStream(1252)))),
      Some(MessageValue(2, TextData(Sample[48..83], ByteStream(1252))))], None)
  {
    SampleFirstEntry();
    SampleSecondEntry();
    assert BlockFrom(Sample, 16, 1252, 3, 2, 84) == Parsed([], None);
  }

  lemma SampleSecondBlock()
    ensures BlockFrom(Sample, 28, 1252, 0x3e8, 0x3e8, 84) == Parsed([
      Some(MessageValue(0x3e8, TextData(Sample[88..119], ByteStream(1252))))], None)
  {
    SampleThirdEntry();
    assert BlockFrom(Sample, 28, 1252, 0x3e9, 0x3e8, 120) == Parsed([], None);
  }

  /**
   * The sample decodes to three messages, identifiers 1, 2 and 0x3e8 in
   * descriptor order, each text without its trailing zeros.
   */
  lemma SampleDecodes()
    ensures MessageTable(Sample, 1252, true) == Parsed([
      Some(MessageValue(1, TextData(Sample[32..42], ByteStream(1252)))),
      Some(MessageValue(2, TextData(Sample[48..83], ByteStream(1252)))),
      Some(MessageValue(0x3e8, TextData(Sample[88..119], ByteStream(1252))))], None)
  {
    SampleDescriptors();
    SampleFirstBlock();
    SampleSecondBlock();
    MessageTableBlocks(Sample, 1252, true);
    assert BlocksFrom(Sample, 1252, true, 2, 2) == Parsed([], None);
  }
}
