/**
 * libwrc_resource_node_header: the 16-byte header of a resource directory
 * (IMAGE_RESOURCE_DIRECTORY, section 6.9 ".rsrc Section" of the Microsoft
 * PE/COFF specification). read_data keeps the flags and the numbers of
 * named and unnamed entries, and refuses a header whose flags are not zero.
 */
module ResourceNodeHeader {
  import opened Bytes

  /** sizeof( wrc_resource_node_header_t ). */
  const HeaderSize: nat := 16

  /** The fields read_data keeps. */
  datatype HeaderFields = HeaderFields(flags: nat, namedEntries: nat, unnamedEntries: nat)

  /** The flags at 0, the number of named entries at 12 and of unnamed entries at 14, little-endian. */
  function FieldsOf(data: seq<byte>): (h: HeaderFields)
    requires HeaderSize <= |data|
    ensures h.flags < 0x1_0000_0000 && h.namedEntries < 0x1_0000 && h.unnamedEntries < 0x1_0000
  {
    HeaderFields(U32(data, 0), U16(data, 12), U16(data, 14))
  }

  /** wrc_resource_node_header_t written out: flags, creation time, major and minor version, and the two counts. */
  function EncodeHeader(flags: nat, creationTime: nat, major: nat, minor: nat, named: nat, unnamed: nat): (data: seq<byte>)
    requires flags < 0x1_0000_0000 && creationTime < 0x1_0000_0000
    requires major < 0x1_0000 && minor < 0x1_0000 && named < 0x1_0000 && unnamed < 0x1_0000
    ensures |data| == HeaderSize
  {
    LE32(flags) + LE32(creationTime) + LE16(major) + LE16(minor) + LE16(named) + LE16(unnamed)
  }

  /** read_data takes back the flags and counts of any written header, whatever its time stamp and version. */
  lemma FieldsOfEncodeHeader(flags: nat, creationTime: nat, major: nat, minor: nat, named: nat, unnamed: nat)
    requires flags < 0x1_0000_0000 && creationTime < 0x1_0000_0000
    requires major < 0x1_0000 && minor < 0x1_0000 && named < 0x1_0000 && unnamed < 0x1_0000
    ensures FieldsOf(EncodeHeader(flags, creationTime, major, minor, named, unnamed)) == HeaderFields(flags, named, unnamed)
  {
    var d := EncodeHeader(flags, creationTime, major, minor, named, unnamed);
    var head := LE32(flags) + LE32(creationTime) + LE16(major) + LE16(minor);
    U32OfLE32([], flags, d[4..]);
    assert d == [] + LE32(flags) + d[4..];
    assert d == head + LE16(named) + LE16(unnamed);
    U16OfLE16(head, named, LE16(unnamed));
    assert d == (head + LE16(named)) + LE16(unnamed) + [];
    U16OfLE16(head + LE16(named), unnamed, []);
  }

  /** The header of the library's test data: version 4.0, no named entries and three unnamed ones. */
  const SampleHeader: seq<byte> := [0x00, 0x00, 0x00, 0x00, 0x00, 0x00, 0x00, 0x00, 0x04, 0x00, 0x00, 0x00, 0x00, 0x00, 0x03, 0x00]

  /** The sample header is the written header with flags 0, version 4.0 and counts 0 and 3. */
  lemma SampleHeaderFields()
    ensures SampleHeader == EncodeHeader(0, 0, 4, 0, 0, 3)
    ensures FieldsOf(SampleHeader) == HeaderFields(0, 0, 3)
  {
    FieldsOfEncodeHeader(0, 0, 4, 0, 0, 3);
  }

  class ResourceNodeHeader {
    var flags: nat
    var namedEntries: nat
    var unnamedEntries: nat

    /** libwrc_resource_node_header_initialize: a zeroed header. */
    constructor ()
      ensures flags == 0 && namedEntries == 0 && unnamedEntries == 0
    {
      flags, namedEntries, unnamedEntries := 0, 0, 0;
    }

    /** The fields the header holds. */
    function Fields(): HeaderFields
      reads this
    {
      HeaderFields(flags, namedEntries, unnamedEntries)
    }

    /**
     * libwrc_resource_node_header_read_data: `data` is `None` for a NULL
     * pointer. The fields are assigned before the flags are checked, so a
     * header refused for its flags keeps what was read.
     */
    method ReadData(data: Option<seq<byte>>) returns (r: Result<()>)
      modifies this
      ensures data.None? ==> r == Err(InvalidArgument) && Fields() == old(Fields())
      ensures data.Some? && (|data.value| < HeaderSize || |data.value| > SsizeMax) ==>
        r == Err(ValueOutOfBounds) && Fields() == old(Fields())
      ensures data.Some? && HeaderSize <= |data.value| <= SsizeMax ==> Fields() == FieldsOf(data.value)
      ensures data.Some? && HeaderSize <= |data.value| <= SsizeMax ==>
        r == (if flags == 0 then Ok(()) else Err(UnsupportedValue))
    {
      if data.None? {
        return Err(InvalidArgument);
      }
      if |data.value| < HeaderSize || |data.value| > SsizeMax {
        return Err(ValueOutOfBounds);
      }
      flags := U32(data.value, 0);
      namedEntries := U16(data.value, 12);
      unnamedEntries := U16(data.value, 14);
      if flags != 0 {
        return Err(UnsupportedValue);
      }
      r := Ok(());
    }

    /**
     * libwrc_resource_node_header_read_file_io_handle: `delivered` is what
     * the read of 16 bytes at the header's offset returned. A short read
     * fails without touching the header; a refused header is reported as a
     * failed read.
     */
    method ReadFileIoHandle(delivered: seq<byte>) returns (r: Result<()>)
      modifies this
      ensures |delivered| != HeaderSize ==> r == Err(ReadFailed) && Fields() == old(Fields())
      ensures |delivered| == HeaderSize ==> Fields() == FieldsOf(delivered)
      ensures |delivered| == HeaderSize ==> r == (if flags == 0 then Ok(()) else Err(ReadFailed))
    {
      if |delivered| != HeaderSize {
        return Err(ReadFailed);
      }
      r := ReadData(Some(delivered));
      if r.Err? {
        r := Err(ReadFailed);
      }
    }
  }
}
