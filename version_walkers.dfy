/**
 * The walkers over a VERSIONINFO resource, step by step as the C code
 * advances its offset. With `checked` they are the walkers of
 * libwrc_version_information_resource.c, without it those of
 * libwrc_version_values.c, whose alignment steps never compare the
 * padding with the bytes that remain.
 */
module VersionWalkers {
  import opened Bytes
  import opened VersionLayout

  /** The scan for the 00 00 unit that ends a UTF-16 string. */
  method ScanString(data: seq<byte>, offset: nat) returns (e: nat)
    ensures e == ScanEnd(data, offset)
  {
    e := offset;
    while e + 2 < |data|
      invariant offset <= e
      invariant ScanEnd(data, e) == ScanEnd(data, offset)
      decreases |data| - e
    {
      if data[e] == 0 && data[e + 1] == 0 {
        return e + 2;
      }
      e := e + 2;
    }
  }

  /**
   * The step every walker takes after a non-zero size: the key is scanned
   * from byte 6 of the block and the offset aligned to 4, refusing padding
   * past the end of the data when `checked`.
   */
  method ReadKey(data: seq<byte>, start: nat, checked: bool) returns (r: Result<nat>)
    requires BlockSize(data, start).Ok? && BlockSize(data, start).value != 0
    ensures r == Align(data, ScanEnd(data, start + 6), checked)
  {
    var offset := ScanString(data, start + 6);
    if offset % 4 != 0 {
      var padding := 4 - offset % 4;
      if checked && padding > |data| - offset {
        return Err(ValueOutOfBounds);
      }
      offset := offset + padding;
    }
    r := Ok(offset);
  }

  /**
   * read_string and read_variable: the size check, the key and its
   * alignment; returns the declared size. The value that follows is only
   * scanned for debug output.
   */
  method ReadLeafBlock(data: seq<byte>, start: nat, checked: bool) returns (r: Result<nat>)
    ensures r == LeafBlock(data, start, checked)
  {
    r := BlockSize(data, start);
    if r.Err? || r.value == 0 {
      return;
    }
    var key := ReadKey(data, start, checked);
    if key.Err? {
      return Err(key.error);
    }
  }

  /** The loop of read_string_table over the String children from `offset` up to `end`. */
  method ReadStringTableChildren(data: seq<byte>, end: nat, offset: nat, checked: bool) returns (r: Result<()>)
    requires end <= |data|
    ensures r == StringTableChildren(data, end, offset, checked)
  {
    var current := offset;
    while current + 2 < end
      invariant StringTableChildren(data, end, current, checked) == StringTableChildren(data, end, offset, checked)
      decreases end - current
    {
      var child := ReadLeafBlock(data, current, checked);
      if child.Err? {
        return Err(child.error);
      }
      if child.value == 0 {
        return Ok(());
      }
      ghost var previous := current;
      current := current + child.value;
      // the padding is skipped only when it ends inside the block
      if current % 4 != 0 && current + Padding(current) < end {
        current := current + Padding(current);
      }
      assert current == NextChild(previous, child.value, end);
    }
    r := Ok(());
  }

  /** read_string_table: the key, alignment and, for value data type 1, the String children. */
  method ReadStringTable(data: seq<byte>, start: nat, checked: bool) returns (r: Result<nat>)
    ensures r == StringTableBlock(data, start, checked)
  {
    r := BlockSize(data, start);
    if r.Err? || r.value == 0 {
      return;
    }
    var key := ReadKey(data, start, checked);
    if key.Err? {
      return Err(key.error);
    }
    if U16(data, start + 4) == 1 {
      var children := ReadStringTableChildren(data, start + r.value, key.value, checked);
      if children.Err? {
        return Err(children.error);
      }
    }
  }

  /** read_string_file_information: the key, alignment and, for value data type 1, one string table. */
  method ReadStringFileInformation(data: seq<byte>, start: nat, checked: bool) returns (r: Result<nat>)
    ensures r == StringFileInfoBlock(data, start, checked)
  {
    r := BlockSize(data, start);
    if r.Err? || r.value == 0 {
      return;
    }
    var key := ReadKey(data, start, checked);
    if key.Err? {
      return Err(key.error);
    }
    if U16(data, start + 4) == 1 {
      var table := ReadStringTable(data, key.value, checked);
      if table.Err? {
        return Err(table.error);
      }
    }
  }

  /** The loop of read_variable_file_information over the Var children from `offset` up to `end`. */
  method ReadVariableChildren(data: seq<byte>, end: nat, offset: nat, checked: bool) returns (r: Result<()>)
    requires end <= |data|
    ensures r == VarFileInfoChildren(data, end, offset, checked)
  {
    var current := offset;
    while current + 2 < end
      invariant VarFileInfoChildren(data, end, current, checked) == VarFileInfoChildren(data, end, offset, checked)
      decreases end - current
    {
      var child := ReadLeafBlock(data, current, checked);
      if child.Err? {
        return Err(child.error);
      }
      if child.value == 0 {
        return Ok(());
      }
      current := current + child.value;
    }
    r := Ok(());
  }

  /** read_variable_file_information: the key, alignment and the Var children. */
  method ReadVariableFileInformation(data: seq<byte>, start: nat, checked: bool) returns (r: Result<nat>)
    ensures r == VarFileInfoBlock(data, start, checked)
  {
    r := BlockSize(data, start);
    if r.Err? || r.value == 0 {
      return;
    }
    var key := ReadKey(data, start, checked);
    if key.Err? {
      return Err(key.error);
    }
    var children := ReadVariableChildren(data, start + r.value, key.value, checked);
    if children.Err? {
      return Err(children.error);
    }
  }

  /** The StringFileInfo block at `offset` and the VarFileInfo block after it. */
  method ReadBlocks(data: seq<byte>, offset: nat, checked: bool) returns (failure: Option<Error>)
    ensures failure == BlocksFailure(data, offset, checked)
  {
    var stringFileInfo := ReadStringFileInformation(data, offset, checked);
    if stringFileInfo.Err? {
      return Some(stringFileInfo.error);
    }
    var varFileInfo := ReadVariableFileInformation(data, offset + stringFileInfo.value, checked);
    if varFileInfo.Err? {
      return Some(varFileInfo.error);
    }
    failure := None;
  }

  /** The alignment after the fixed file information, and the two top-level blocks. */
  method ReadAfterFixedInfo(data: seq<byte>, offset: nat, versions: Option<Versions>, checked: bool) returns (p: VersionParse)
    requires checked ==> offset <= |data|
    ensures p == AfterFixedInfo(data, offset, versions, checked)
  {
    var next := offset;
    if next % 4 != 0 {
      var padding := 4 - next % 4;
      if checked && padding > |data| - next {
        return VersionParse(versions, Some(ValueOutOfBounds));
      }
      next := next + padding;
    }
    var failure := ReadBlocks(data, next, checked);
    p := VersionParse(versions, failure);
  }

  /** The read after the key: the fixed file information, alignment and the two blocks. */
  method ReadFixedInfoAndBlocks(data: seq<byte>, checked: bool) returns (p: VersionParse)
    requires ValueHeaderSize <= |data|
    requires checked ==> FixedInfoOffset <= |data|
    ensures p == FixedInfoAndBlocks(data, checked)
  {
    var valueSize := U16(data, 2);
    var versions: Option<Versions> := None;
    if valueSize > 0 {
      if valueSize < FixedInfoSize || valueSize > |data| - FixedInfoOffset {
        return VersionParse(None, Some(ValueOutOfBounds));
      }
      versions := Some(FixedVersions(data, FixedInfoOffset));
    }
    p := ReadAfterFixedInfo(data, FixedInfoOffset + valueSize, versions, checked);
  }

  /**
   * The body of a VERSIONINFO read: the value header, the key and its
   * alignment, then the fixed file information and the two blocks.
   */
  method ReadVersion(data: seq<byte>, checked: bool) returns (p: VersionParse)
    ensures p == VersionDecode(data, checked)
  {
    if |data| < ValueHeaderSize || |data| > SsizeMax {
      return VersionParse(None, Some(ValueOutOfBounds));
    }
    var offset := ScanString(data, ValueHeaderSize);
    if offset != KeyEnd || data[ValueHeaderSize..KeyEnd] != Key {
      return VersionParse(None, Some(UnsupportedValue));
    }
    if checked && Padding(offset) > |data| - offset {
      return VersionParse(None, Some(ValueOutOfBounds));
    }
    p := ReadFixedInfoAndBlocks(data, checked);
  }
}
