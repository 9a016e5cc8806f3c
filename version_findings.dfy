/**
 * Three places where the VERSIONINFO readers do not check what they
 * evidently mean to check, each modelled as written beside an input that
 * shows the difference; the rest of the model uses the corrected checks of
 * VersionLayout.
 */
module VersionFindings {
  import opened Bytes
  import opened VersionLayout

  // ---------------------------------------------------------------------
  // libwrc_version_values_read: after the size checks the 6-byte value
  // header is read with no check that the resource holds it.
  // ---------------------------------------------------------------------

  /**
   * The end of the value header libwrc_version_values_read reads, as
   * written: a size of 0 or above the allocation limit is refused, any
   * other resource has its header read up to byte 6.
   */
  function HeaderReadEndAsWritten(data: seq<byte>): (r: Result<nat>)
    ensures r.Err? <==> |data| == 0 || |data| > MaxAllocationSize
    ensures r.Ok? ==> r.value == ValueHeaderSize
  {
    if |data| == 0 || |data| > MaxAllocationSize then Err(ValueOutOfBounds)
    else Ok(ValueHeaderSize)
  }

  /** As written, every resource of 1 to 5 bytes is accepted and its header read past its end; the corrected decoding refuses it. */
  lemma AcceptedHeaderOverruns(data: seq<byte>)
    requires 0 < |data| < ValueHeaderSize
    ensures HeaderReadEndAsWritten(data) == Ok(ValueHeaderSize) && ValueHeaderSize > |data|
    ensures VersionDecode(data, false) == VersionParse(None, Some(ValueOutOfBounds))
  {
  }

  /** A 5-byte resource: one byte short of the value header. */
  const ShortHeaderResource: seq<byte> := [0x05, 0x00, 0x00, 0x00, 0x00]

  /** The 5-byte resource has its header read up to byte 6 as written, and is refused by the corrected decoding. */
  lemma ShortHeaderResourceOverruns()
    ensures |ShortHeaderResource| == 5 && HeaderReadEndAsWritten(ShortHeaderResource) == Ok(6)
    ensures VersionDecode(ShortHeaderResource, false) == VersionParse(None, Some(ValueOutOfBounds))
  {
  }

  /** With the corrected check, a decoding that gets past the header has all 6 bytes of it. */
  lemma HeaderReadsInside(data: seq<byte>, checked: bool)
    ensures |data| < ValueHeaderSize ==> VersionDecode(data, checked) == VersionParse(None, Some(ValueOutOfBounds))
    ensures VersionDecode(data, checked).failure != Some(ValueOutOfBounds) ==> ValueHeaderSize <= |data|
  {
  }

  // ---------------------------------------------------------------------
  // libwrc_version_values_read: the value data size is compared with the
  // resource size only, so a fixed file information shorter than 52 bytes,
  // or one that starts near the end, is read anyway.
  // ---------------------------------------------------------------------

  /**
   * The end of the bytes libwrc_version_values_read takes from the fixed
   * file information, as written: nothing past the aligned key when the
   * value data size is zero, an error when the value data size exceeds the
   * resource size, and otherwise the four version halves at +8 to +24 of
   * offset 40.
   */
  function FixedInfoReadEndAsWritten(data: seq<byte>): (r: Result<nat>)
    requires ValueHeaderSize <= |data|
    ensures r.Err? <==> U16(data, 2) > |data|
    ensures r.Ok? && U16(data, 2) > 0 ==> r.value == FixedInfoOffset + 24
  {
    var valueDataSize := U16(data, 2);
    if valueDataSize == 0 then Ok(FixedInfoOffset)
    else if valueDataSize > |data| then Err(ValueOutOfBounds)
    else Ok(FixedInfoOffset + 24)
  }

  /** As written, every resource shorter than 64 bytes with a non-zero value data size that fits in it is read past its end. */
  lemma AcceptedFixedInfoOverruns(data: seq<byte>)
    requires ValueHeaderSize <= |data| < FixedInfoOffset + 24
    requires 0 < U16(data, 2) <= |data|
    ensures FixedInfoReadEndAsWritten(data).Ok?
    ensures FixedInfoReadEndAsWritten(data).value > |data|
  {
  }

  /** A 40-byte resource: header size 40, value data size 1, the key, and two bytes of padding. */
  const ShortFixedInfoResource: seq<byte> := [0x28, 0x00, 0x01, 0x00, 0x00, 0x00] + Key + [0x00, 0x00]

  /**
   * The short resource passes the key check and, as written, has its
   * versions read up to byte 64 of 40; the corrected check refuses it
   * before any version is read.
   */
  lemma ShortFixedInfoResourceOverruns()
    ensures |ShortFixedInfoResource| == 40 && KeyAccepted(ShortFixedInfoResource)
    ensures FixedInfoReadEndAsWritten(ShortFixedInfoResource) == Ok(64)
    ensures VersionDecode(ShortFixedInfoResource, false) == VersionParse(None, Some(ValueOutOfBounds))
  {
    var d := ShortFixedInfoResource;
    assert d[ValueHeaderSize..KeyEnd] == Key;
    KeyAcceptedMeaning(d);
    assert U16(d, 2) == 1;
  }

  /** With the corrected check, versions are only ever taken from inside the resource. */
  lemma FixedInfoReadsInside(data: seq<byte>, checked: bool)
    ensures VersionDecode(data, checked).versions.Some? ==> FixedInfoOffset + FixedInfoSize <= |data|
  {
  }

  // ---------------------------------------------------------------------
  // libwrc_internal_version_information_resource_read_string: the
  // alignment check runs before the padding is computed, against the
  // variable's initial value 0, so it never refuses anything.
  // ---------------------------------------------------------------------

  /**
   * The alignment step of read_string as written: the padding needed at
   * `offset` is compared with the bytes that remain only through `stale`,
   * the value the padding variable holds before it is assigned.
   */
  function ReadStringAlignAsWritten(data: seq<byte>, offset: nat, stale: nat): (r: Result<nat>)
    requires offset <= |data|
    ensures r.Ok? ==> r.value == offset + Padding(offset)
    ensures r.Err? <==> offset % 4 != 0 && stale > |data| - offset
  {
    if offset % 4 != 0 && stale > |data| - offset then Err(ValueOutOfBounds)
    else Ok(offset + Padding(offset))
  }

  /**
   * read_string aligns once per call, so the variable still holds its
   * initial 0 when compared: as written the check never fires, and
   * read_string aligns exactly like the unchecked walkers.
   */
  lemma ReadStringAlignAsWrittenUnchecked(data: seq<byte>, offset: nat)
    requires offset <= |data|
    ensures ReadStringAlignAsWritten(data, offset, 0) == Align(data, offset, false)
  {
  }

  /**
   * An 11-byte String block: size 8, value data size 0, type 0, and a key
   * of two non-zero units with no terminator.
   */
  const UnterminatedString: seq<byte> := [0x08, 0x00, 0x00, 0x00, 0x00, 0x00, 0x41, 0x00, 0x42, 0x00, 0x43]

  /**
   * The key scan of the 11-byte block ends at 10, where the padding of 2
   * runs past the last byte: read_string as written accepts the block with
   * its size 8, the corrected check refuses it.
   */
  lemma UnterminatedStringPadding()
    ensures ScanEnd(UnterminatedString, 6) == 10 && Padding(10) > |UnterminatedString| - 10
    ensures ReadStringAlignAsWritten(UnterminatedString, 10, 0).Ok?
    ensures LeafBlock(UnterminatedString, 0, false) == Ok(8)
    ensures LeafBlock(UnterminatedString, 0, true) == Err(ValueOutOfBounds)
  {
    var d := UnterminatedString;
    assert U16(d, 0) == 8;
    assert ScanEnd(d, 10) == 10;
    assert ScanEnd(d, 8) == 10;
    assert ScanEnd(d, 6) == 10;
  }
}
