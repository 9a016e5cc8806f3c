/**
 * The head of the 764-byte VERSIONINFO resource of the library's test data:
 * the value header, the key "VS_VERSION_INFO", and the fixed file
 * information, whose file and product versions are both 1.0.0.0.
 */
module VersionSample {
  import opened Bytes
  import opened VersionLayout

  /** Bytes 0 to 63: size 0x2fc, value data size 0x34, type 0, the key, and VS_FIXEDFILEINFO up to its version fields. */
  const SampleHead: seq<byte> :=
    [0xfc, 0x02, 0x34, 0x00, 0x00, 0x00] + Key + SampleFixedInfo

  /** Bytes 38 to 63: the alignment padding and the fixed file information up to its version fields. */
  const SampleFixedInfo: seq<byte> :=
    [0x00, 0x00, 0xbd, 0x04, 0xef, 0xfe, 0x00, 0x00, 0x01, 0x00]
    + [0x00, 0x00, 0x01, 0x00, 0x00, 0x00, 0x00, 0x00, 0x00, 0x00, 0x01, 0x00, 0x00, 0x00, 0x00, 0x00]

  /** Version 1.0.0.0: major 1 in the top 16 bits of the 64-bit value. */
  const Version1000: nat := 0x1_0000_0000_0000

  /**
   * Any resource that starts with the sample head and holds the whole fixed
   * file information has its key accepted and yields version 1.0.0.0 for
   * both the file and the product, whatever follows and with either
   * alignment policy.
   */
  lemma SampleVersions(data: seq<byte>, checked: bool)
    requires 64 <= |data| && data[..64] == SampleHead
    requires FixedInfoOffset + FixedInfoSize <= |data| <= SsizeMax
    ensures KeyAccepted(data)
    ensures VersionDecode(data, checked).versions == Some(Versions(Version1000, Version1000))
  {
    SampleHeadFields();
    var head := data[..64];
    assert data[ValueHeaderSize..KeyEnd] == head[ValueHeaderSize..KeyEnd];
    KeyAcceptedMeaning(data);
    assert U16(data, 2) == U16(head, 2);
    assert U32(data, FixedInfoOffset + 8) == U32(head, FixedInfoOffset + 8);
    assert U32(data, FixedInfoOffset + 12) == U32(head, FixedInfoOffset + 12);
    assert U32(data, FixedInfoOffset + 16) == U32(head, FixedInfoOffset + 16);
    assert U32(data, FixedInfoOffset + 20) == U32(head, FixedInfoOffset + 20);
    ComposeVersionSplits(0x1_0000, 0);
  }

  /** The fields of the sample head: the key, the value data size and the four version halves. */
  lemma SampleHeadFields()
    ensures SampleHead[ValueHeaderSize..KeyEnd] == Key
    ensures U16(SampleHead, 2) == FixedInfoSize
    ensures U32(SampleHead, FixedInfoOffset + 8) == 0x1_0000 && U32(SampleHead, FixedInfoOffset + 12) == 0
    ensures U32(SampleHead, FixedInfoOffset + 16) == 0x1_0000 && U32(SampleHead, FixedInfoOffset + 20) == 0
  {
  }
}
