/**
 * libwrc_resource_node_entry: one entry of a resource directory
 * (IMAGE_RESOURCE_DIRECTORY_ENTRY, section 6.9.2 of the Microsoft PE/COFF
 * specification): a 32-bit identifier, whose top bit marks a name, and a
 * 32-bit offset, together with the set-once UTF-16 name string.
 */
module ResourceNodeEntry {
  import opened Bytes

  /** sizeof( wrc_resource_node_entry_t ). */
  const EntrySize: nat := 8

  /** LIBWRC_RESOURCE_IDENTIFIER_FLAG_HAS_NAME: the top bit of the identifier. */
  const NameFlag: nat := 0x8000_0000

  /** The identifier and offset of an entry, little-endian at 0 and 4. */
  datatype EntryFields = EntryFields(identifier: nat, offset: nat)

  function FieldsOf(data: seq<byte>): (f: EntryFields)
    requires EntrySize <= |data|
    ensures f.identifier < 0x1_0000_0000 && f.offset < 0x1_0000_0000
  {
    EntryFields(U32(data, 0), U32(data, 4))
  }

  /** wrc_resource_node_entry_t written out. */
  function EncodeEntry(f: EntryFields): (data: seq<byte>)
    requires f.identifier < 0x1_0000_0000 && f.offset < 0x1_0000_0000
    ensures |data| == EntrySize
  {
    LE32(f.identifier) + LE32(f.offset)
  }

  /** read_data takes back the fields of any written entry. */
  lemma FieldsOfEncodeEntry(f: EntryFields)
    requires f.identifier < 0x1_0000_0000 && f.offset < 0x1_0000_0000
    ensures FieldsOf(EncodeEntry(f)) == f
  {
    var d := EncodeEntry(f);
    assert d == [] + LE32(f.identifier) + LE32(f.offset);
    U32OfLE32([], f.identifier, LE32(f.offset));
    assert d == LE32(f.identifier) + LE32(f.offset) + [];
    U32OfLE32(LE32(f.identifier), f.offset, []);
  }

  /** The entry of the library's test data: identifier 6, offset 0x80000028. */
  const SampleEntry: seq<byte> := [0x06, 0x00, 0x00, 0x00, 0x28, 0x00, 0x00, 0x80]

  /** The sample is the written entry with identifier 6 and offset 0x80000028, and has no name. */
  lemma SampleEntryFields()
    ensures SampleEntry == EncodeEntry(EntryFields(6, 0x8000_0028))
    ensures FieldsOf(SampleEntry) == EntryFields(6, 0x8000_0028)
    ensures !HasName(6)
  {
    FieldsOfEncodeEntry(EntryFields(6, 0x8000_0028));
  }

  /** `identifier & LIBWRC_RESOURCE_IDENTIFIER_FLAG_HAS_NAME` is not zero. */
  predicate HasName(identifier: nat)
    requires identifier < 0x1_0000_0000
  {
    identifier >= NameFlag
  }

  /** `identifier & 0x7fffffff`: the file offset of the name. */
  function NameOffset(identifier: nat): (offset: nat)
    requires identifier < 0x1_0000_0000
    ensures offset < NameFlag
    ensures HasName(identifier) ==> offset == identifier - NameFlag
    ensures !HasName(identifier) ==> offset == identifier
  {
    identifier % NameFlag
  }

  /** The size in bytes of a name: twice the number of UTF-16 code units stored before it. */
  function NameSize(sizeData: seq<byte>): (size: nat)
    requires |sizeData| == 2
    ensures size % 2 == 0 && size < 0x2_0000
  {
    2 * U16(sizeData, 0)
  }

  class ResourceNodeEntry {
    var identifier: nat
    var offset: nat
    /** The name bytes; `None` while the name pointer is NULL. */
    var nameString: Option<seq<byte>>
    var nameStringSize: nat
    /** The resource type, assigned by the resource tree reader. */
    var kind: int

    /** The identifier and offset are 32-bit, and the size field describes the name. */
    predicate Valid()
      reads this
    {
      identifier < 0x1_0000_0000 && offset < 0x1_0000_0000
      && (nameString.None? ==> nameStringSize == 0)
      && (nameString.Some? ==> nameStringSize == |nameString.value|)
    }

    /** libwrc_resource_node_entry_initialize: a zeroed entry. */
    constructor ()
      ensures identifier == 0 && offset == 0 && nameString.None? && nameStringSize == 0 && kind == 0
      ensures Valid()
    {
      identifier, offset, nameString, nameStringSize, kind := 0, 0, None, 0, 0;
    }

    /** libwrc_resource_node_entry_read_data: `data` is `None` for a NULL pointer. */
    method ReadData(data: Option<seq<byte>>) returns (r: Result<()>)
      requires Valid()
      modifies this
      ensures Valid()
      ensures nameString == old(nameString) && nameStringSize == old(nameStringSize) && kind == old(kind)
      ensures data.None? ==> r == Err(InvalidArgument) && identifier == old(identifier) && offset == old(offset)
      ensures data.Some? && (|data.value| < EntrySize || |data.value| > SsizeMax) ==>
        r == Err(ValueOutOfBounds) && identifier == old(identifier) && offset == old(offset)
      ensures data.Some? && EntrySize <= |data.value| <= SsizeMax ==>
        r == Ok(()) && EntryFields(identifier, offset) == FieldsOf(data.value)
    {
      if data.None? {
        return Err(InvalidArgument);
      }
      if |data.value| < EntrySize || |data.value| > SsizeMax {
        return Err(ValueOutOfBounds);
      }
      identifier := U32(data.value, 0);
      offset := U32(data.value, 4);
      r := Ok(());
    }

    /**
     * libwrc_resource_node_entry_read_file_io_handle: `delivered` is what
     * the read of 8 bytes at the entry's offset returned.
     */
    method ReadFileIoHandle(delivered: seq<byte>) returns (r: Result<()>)
      requires Valid()
      modifies this
      ensures Valid()
      ensures nameString == old(nameString) && nameStringSize == old(nameStringSize) && kind == old(kind)
      ensures |delivered| != EntrySize ==> r == Err(ReadFailed) && identifier == old(identifier) && offset == old(offset)
      ensures |delivered| == EntrySize ==> r == Ok(()) && EntryFields(identifier, offset) == FieldsOf(delivered)
    {
      if |delivered| != EntrySize {
        return Err(ReadFailed);
      }
      r := ReadData(Some(delivered));
    }

    /**
     * libwrc_resource_node_entry_read_name_file_io_handle. Without the name
     * flag it answers 0 ("no name") and reads nothing. Otherwise
     * `sizeData` is what the read of 2 bytes at NameOffset(identifier)
     * returned and `nameData` what the read of the name that follows
     * returned. A failure releases the name and zeroes its size.
     */
    method ReadName(sizeData: seq<byte>, nameData: seq<byte>) returns (r: Result<bool>)
      requires Valid()
      modifies this
      ensures Valid()
      ensures identifier == old(identifier) && offset == old(offset) && kind == old(kind)
      ensures !HasName(identifier) ==> r == Ok(false) && nameString == old(nameString)
      ensures HasName(identifier) && |sizeData| != 2 ==> r == Err(ReadFailed) && nameString.None?
      ensures HasName(identifier) && |sizeData| == 2 && NameSize(sizeData) == 0 ==>
        r == Err(ValueOutOfBounds) && nameString.None?
      ensures HasName(identifier) && |sizeData| == 2 && NameSize(sizeData) != 0 && |nameData| != NameSize(sizeData) ==>
        r == Err(ReadFailed) && nameString.None?
      ensures HasName(identifier) && |sizeData| == 2 && NameSize(sizeData) != 0 && |nameData| == NameSize(sizeData) ==>
        r == Ok(true) && nameString == Some(nameData)
    {
      if !HasName(identifier) {
        return Ok(false);
      }
      if |sizeData| != 2 {
        nameString, nameStringSize := None, 0;
        return Err(ReadFailed);
      }
      var size := NameSize(sizeData);
      if size == 0 || size > MaxAllocationSize {
        nameString, nameStringSize := None, 0;
        return Err(ValueOutOfBounds);
      }
      if |nameData| != size {
        nameString, nameStringSize := None, 0;
        return Err(ReadFailed);
      }
      nameString, nameStringSize := Some(nameData), size;
      r := Ok(true);
    }

    /**
     * libwrc_resource_node_entry_set_name_string: set-once; `name` is `None`
     * for a NULL pointer, `copied` says whether allocation and copy succeed.
     */
    method SetNameString(name: Option<seq<byte>>, copied: bool) returns (r: Result<()>)
      requires Valid()
      modifies this
      ensures Valid()
      ensures identifier == old(identifier) && offset == old(offset) && kind == old(kind)
      ensures old(nameString).Some? ==> r == Err(AlreadySet) && nameString == old(nameString)
      ensures old(nameString).None? && name.None? ==> r == Err(InvalidArgument) && nameString.None?
      ensures old(nameString).None? && name.Some? && (|name.value| == 0 || |name.value| > MaxAllocationSize) ==>
        r == Err(ValueOutOfBounds) && nameString.None?
      ensures old(nameString).None? && name.Some? && 0 < |name.value| <= MaxAllocationSize && copied ==>
        r == Ok(()) && nameString == name && nameStringSize == |name.value|
      ensures old(nameString).None? && name.Some? && 0 < |name.value| <= MaxAllocationSize && !copied ==>
        r == Err(MemoryFailure) && nameString.None? && nameStringSize == 0
    {
      if nameString.Some? {
        return Err(AlreadySet);
      }
      if name.None? {
        return Err(InvalidArgument);
      }
      if |name.value| == 0 || |name.value| > MaxAllocationSize {
        return Err(ValueOutOfBounds);
      }
      if !copied {
        nameString, nameStringSize := None, 0;
        return Err(MemoryFailure);
      }
      nameString, nameStringSize := name, |name.value|;
      r := Ok(());
    }

    /** libwrc_resource_node_entry_get_identifier. */
    function GetIdentifier(): (id: nat)
      reads this
      requires Valid()
      ensures id == identifier && id < 0x1_0000_0000
    {
      identifier
    }

    /** libwrc_resource_node_entry_get_type. */
    function GetType(): (t: int)
      reads this
      ensures t == kind
    {
      kind
    }

    /**
     * What the four name getters hand to libuna: the name as a UTF-16
     * little-endian stream, or `None` ("not available", 0) when there is no
     * name or it is empty.
     */
    function NameText(): (t: Option<TextData>)
      reads this
      requires Valid()
      ensures t.None? <==> nameString.None? || nameStringSize == 0
      ensures t.Some? ==> t.value.bytes == nameString.value && t.value.encoding == Utf16LittleEndian
    {
      if nameString.None? || nameStringSize == 0 then None
      else Some(TextData(nameString.value, Utf16LittleEndian))
    }
  }

  /** libwrc_resource_node_entry_compare: `null` is a NULL argument; entries are ordered by identifier only. */
  function Compare(first: ResourceNodeEntry?, second: ResourceNodeEntry?): (r: Result<Ordering>)
    reads first, second
    ensures first == null || second == null ==> r == Err(InvalidArgument)
    ensures first != null && second != null ==> r == Ok(CompareIdentifiers(first.identifier, second.identifier))
  {
    if first == null || second == null then Err(InvalidArgument)
    else Ok(CompareIdentifiers(first.identifier, second.identifier))
  }

  /** A name that was set reads back, via the getters, as the UTF-16 bytes given. */
  lemma NameTextOfSetName(entry: ResourceNodeEntry, name: seq<byte>)
    requires entry.Valid() && entry.nameString == Some(name) && |name| > 0
    ensures entry.NameText() == Some(TextData(name, Utf16LittleEndian))
  {
  }
}
