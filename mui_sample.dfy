/**
 * The MUI resource of the library's own test vector
 * (tests/wrc_test_mui_resource.c): 232 bytes, file type 17, main name
 * "WEVT_TEMPLATE", MUI name "MUI", an empty fifth pair and "en-US" in the
 * sixth.
 */
module MuiSample {
  import opened Bytes
  import opened MuiLayout

  const Sample: seq<byte> :=
    [0xcd, 0xfe, 0xcd, 0xfe, 0xe8, 0x00, 0x00, 0x00, 0x00, 0x00, 0x01, 0x00, 0x00, 0x00, 0x00, 0x00]
    + [0x11, 0x00, 0x00, 0x00, 0x00, 0x00, 0x00, 0x00, 0x01, 0x00, 0x00, 0x00, 0x9d, 0x73, 0x62, 0x3d]
    + [0x3f, 0x20, 0x93, 0x35, 0x58, 0xe7, 0x05, 0x7b, 0xb7, 0xf4, 0xd0, 0x03, 0xfb, 0xf0, 0xa9, 0x8b]
    + [0xbe, 0xdb, 0xf7, 0xb9, 0xb0, 0x39, 0x07, 0xe0, 0x06, 0xc4, 0x0e, 0xff, 0x00, 0x00, 0x00, 0x00]
    + [0x00, 0x00, 0x00, 0x00, 0x00, 0x00, 0x00, 0x00, 0x00, 0x00, 0x00, 0x00, 0x00, 0x00, 0x00, 0x00]
    + [0x00, 0x00, 0x00, 0x00, 0x88, 0x00, 0x00, 0x00, 0x2a, 0x00, 0x00, 0x00, 0xb8, 0x00, 0x00, 0x00]
    + [0x08, 0x00, 0x00, 0x00, 0xc0, 0x00, 0x00, 0x00, 0x0e, 0x00, 0x00, 0x00, 0xd0, 0x00, 0x00, 0x00]
    + [0x08, 0x00, 0x00, 0x00, 0x00, 0x00, 0x00, 0x00, 0x00, 0x00, 0x00, 0x00, 0xd8, 0x00, 0x00, 0x00]
    + [0x0c, 0x00, 0x00, 0x00, 0x00, 0x00, 0x00, 0x00, 0x57, 0x00, 0x45, 0x00, 0x56, 0x00, 0x54, 0x00]
    + [0x5f, 0x00, 0x54, 0x00, 0x45, 0x00, 0x4d, 0x00, 0x50, 0x00, 0x4c, 0x00, 0x41, 0x00, 0x54, 0x00]
    + [0x45, 0x00, 0x00, 0x00, 0x4d, 0x00, 0x55, 0x00, 0x49, 0x00, 0x00, 0x00, 0x00, 0x00, 0x00, 0x00]
    + [0x00, 0x00, 0x00, 0x00, 0x00, 0x00, 0x00, 0x00, 0x0b, 0x00, 0x00, 0x00, 0x10, 0x00, 0x00, 0x00]
    + [0x4d, 0x00, 0x55, 0x00, 0x49, 0x00, 0x00, 0x00, 0x00, 0x00, 0x00, 0x00, 0x00, 0x00, 0x00, 0x00]
    + [0x0b, 0x00, 0x00, 0x00, 0x10, 0x00, 0x00, 0x00, 0x65, 0x00, 0x6e, 0x00, 0x2d, 0x00, 0x55, 0x00]
    + [0x53, 0x00, 0x00, 0x00, 0x00, 0x00, 0x00, 0x00]

  /** "en-US" and its terminator as UTF-16LE. */
  const EnUs: seq<byte> := [0x65, 0x00, 0x6e, 0x00, 0x2d, 0x00, 0x55, 0x00, 0x53, 0x00, 0x00, 0x00]

  /**
   * Any resource with the sample's header and pairs decodes to its file
   * type, the main name at 0x88, the MUI name at 0xc0, and the region at
   * 0xd8 as both language and fallback language.
   */
  lemma DecodesLikeSample(data: seq<byte>)
    requires |data| == 232 && HeaderSigned(data) && U32(data, 4) == 232
    requires PairAt(data, 0) == Pair(0x88, 42) && PairAt(data, 1) == Pair(0xb8, 8)
    requires PairAt(data, 2) == Pair(0xc0, 14) && PairAt(data, 3) == Pair(0xd0, 8)
    requires PairAt(data, 4) == Pair(0, 0) && PairAt(data, 5) == Pair(0xd8, 12)
    ensures MuiDecode(data) == Ok(MuiRecord(U32(data, FileTypeOffset),
      Some(data[0x88..0xb2]), Some(data[0xc0..0xce]), Some(data[0xd8..0xe4]), Some(data[0xd8..0xe4])))
  {
  }

  lemma SampleHeader()
    ensures |Sample| == 232 && HeaderSigned(Sample)
    ensures U32(Sample, 4) == 232 && U32(Sample, FileTypeOffset) == 17
  {
    assert Sample[..4] == Signature;
    assert Sample[4] == 0xe8 && Sample[5] == 0 && Sample[6] == 0 && Sample[7] == 0;
    assert Sample[16] == 0x11 && Sample[17] == 0 && Sample[18] == 0 && Sample[19] == 0;
  }

  /** The main name pair. */
  lemma SamplePair0()
    ensures |Sample| == 232 && PairAt(Sample, 0) == Pair(0x88, 42)
  {
  }

  /** The main identifier types pair. */
  lemma SamplePair1()
    ensures |Sample| == 232 && PairAt(Sample, 1) == Pair(0xb8, 8)
  {
  }

  /** The MUI name pair. */
  lemma SamplePair2()
    ensures |Sample| == 232 && PairAt(Sample, 2) == Pair(0xc0, 14)
  {
  }

  /** The MUI identifier types pair. */
  lemma SamplePair3()
    ensures |Sample| == 232 && PairAt(Sample, 3) == Pair(0xd0, 8)
  {
  }

  /** The language pair. */
  lemma SamplePair4()
    ensures |Sample| == 232 && PairAt(Sample, 4) == Pair(0x00, 0)
  {
  }

  /** The fallback language pair. */
  lemma SamplePair5()
    ensures |Sample| == 232 && PairAt(Sample, 5) == Pair(0xd8, 12)
  {
  }

  lemma SampleLanguage()
    ensures |Sample| == 232 && Sample[0xd8..0xe4] == EnUs
  {
  }

  /**
   * The sample decodes to file type 17, the 42-byte main name at 0x88, the
   * 14-byte MUI name at 0xc0, and "en-US" as both language and fallback
   * language.
   */
  lemma SampleDecodes()
    ensures MuiDecode(Sample)
      == Ok(MuiRecord(17, Some(Sample[0x88..0xb2]), Some(Sample[0xc0..0xce]), Some(EnUs), Some(EnUs)))
  {
    SampleHeader();
    SamplePair0();
    SamplePair1();
    SamplePair2();
    SamplePair3();
    SamplePair4();
    SamplePair5();
    SampleLanguage();
    DecodesLikeSample(Sample);
  }
}
