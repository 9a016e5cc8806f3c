/**
 * The layout of a VERSIONINFO resource (VS_VERSIONINFO): a 6-byte value
 * header, the UTF-16 key "VS_VERSION_INFO", alignment to 4 bytes, an
 * optional 52-byte VS_FIXEDFILEINFO, and then the StringFileInfo and
 * VarFileInfo blocks, each a length-prefixed tree of blocks.
 *
 * The walkers of libwrc_version_information_resource.c and
 * libwrc_version_values.c differ only in their alignment steps: the former
 * refuse padding that runs past the end of the data, the latter never
 * check. The `checked` parameter selects between the two.
 */
module VersionLayout {
  import opened Bytes

  /** wrc_version_value_header_t: size, value data size and value data type, two bytes each. */
  const ValueHeaderSize: nat := 6

  /** "VS_VERSION_INFO" and its terminator as UTF-16LE. */
  const Key: seq<byte> :=
    [0x56, 0, 0x53, 0, 0x5f, 0, 0x56, 0, 0x45, 0, 0x52, 0, 0x53, 0, 0x49, 0,
     0x4f, 0, 0x4e, 0, 0x5f, 0, 0x49, 0, 0x4e, 0, 0x46, 0, 0x4f, 0, 0, 0]

  /** The offset just past the key of a well-formed resource. */
  const KeyEnd: nat := ValueHeaderSize + 32

  /** The size of VS_FIXEDFILEINFO, the least value data size accepted. */
  const FixedInfoSize: nat := 52

  /**
   * The offset after the UTF-16 string at `offset`: the scan moves two bytes
   * at a time while more than two bytes remain, and stops after the first
   * 00 00 unit.
   */
  function ScanEnd(data: seq<byte>, offset: nat): (e: nat)
    decreases |data| - offset
    ensures offset <= e && (e - offset) % 2 == 0
    ensures e == offset || e < |data|
  {
    if offset + 2 < |data| then
      if data[offset] == 0 && data[offset + 1] == 0 then offset + 2 else ScanEnd(data, offset + 2)
    else offset
  }

  /** The bytes needed to bring `offset` to a multiple of 4. */
  function Padding(offset: nat): (p: nat)
    ensures p < 4 && (offset + p) % 4 == 0
    ensures p == 0 <==> offset % 4 == 0
  {
    if offset % 4 == 0 then 0 else 4 - offset % 4
  }

  /**
   * An alignment step to the next multiple of 4. With `checked`, padding
   * larger than the bytes that remain is an error.
   */
  function Align(data: seq<byte>, offset: nat, checked: bool): (r: Result<nat>)
    requires checked ==> offset <= |data|
    ensures r.Ok? ==> r.value == offset + Padding(offset) && r.value % 4 == 0
    ensures r.Err? <==> checked && offset + Padding(offset) > |data|
    ensures r.Err? ==> r.error == ValueOutOfBounds
  {
    if checked && offset % 4 != 0 && Padding(offset) > |data| - offset then Err(ValueOutOfBounds)
    else Ok(offset + Padding(offset))
  }

  /**
   * The size field every walker starts with: at least two bytes must remain
   * at `start`, and a non-zero size must be at least 8 and fit in the data.
   */
  function BlockSize(data: seq<byte>, start: nat): (r: Result<nat>)
    ensures r.Ok? ==> start + 2 <= |data| && r.value == U16(data, start)
    ensures r.Ok? ==> r.value == 0 || 8 <= r.value <= |data| - start
    ensures start + 2 <= |data| <= SsizeMax && (U16(data, start) == 0 || 8 <= U16(data, start) <= |data| - start)
      ==> r.Ok?
  {
    if |data| > SsizeMax || start >= |data| then Err(ValueOutOfBounds)
    else if start + 2 > |data| then Err(ValueOutOfBounds)
    else if U16(data, start) != 0 && (U16(data, start) < 8 || U16(data, start) > |data| - start) then Err(ValueOutOfBounds)
    else Ok(U16(data, start))
  }

  /**
   * read_string and read_variable: a block with a UTF-16 key, aligned; what
   * follows the key does not change the outcome. Returns the declared size.
   */
  function LeafBlock(data: seq<byte>, start: nat, checked: bool): (r: Result<nat>)
    ensures BlockSize(data, start).Err? ==> r == BlockSize(data, start)
    ensures r.Ok? ==> r == BlockSize(data, start)
  {
    match BlockSize(data, start)
    case Err(e) => Err(e)
    case Ok(size) =>
      if size == 0 then Ok(0)
      else match Align(data, ScanEnd(data, start + 6), checked)
        case Err(e) => Err(e)
        case Ok(_) => Ok(size)
  }

  /**
   * Where read_string_table goes on after a child of size `n` at `offset`:
   * past the child, and past the alignment padding when that still ends
   * inside the block (so the padding always fits in the data).
   */
  function NextChild(offset: nat, n: nat, end: nat): (next: nat)
    ensures offset + n <= next < offset + n + 4
  {
    if (offset + n) % 4 != 0 && offset + n + Padding(offset + n) < end then offset + n + Padding(offset + n)
    else offset + n
  }

  /** The loop of read_string_table over its String children, up to `end`; it stops at a child of size 0. */
  function StringTableChildren(data: seq<byte>, end: nat, offset: nat, checked: bool): (r: Result<()>)
    requires end <= |data|
    decreases end - offset
  {
    if offset + 2 < end then
      match LeafBlock(data, offset, checked)
      case Err(e) => Err(e)
      case Ok(n) => if n == 0 then Ok(()) else StringTableChildren(data, end, NextChild(offset, n, end), checked)
    else Ok(())
  }

  /**
   * read_string_table: a block with a key; a value data type of 1 makes it
   * a list of String blocks. Returns the declared size.
   */
  function StringTableBlock(data: seq<byte>, start: nat, checked: bool): (r: Result<nat>)
    ensures BlockSize(data, start).Err? ==> r == BlockSize(data, start)
    ensures r.Ok? ==> r == BlockSize(data, start)
  {
    match BlockSize(data, start)
    case Err(e) => Err(e)
    case Ok(size) =>
      if size == 0 then Ok(0)
      else match Align(data, ScanEnd(data, start + 6), checked)
        case Err(e) => Err(e)
        case Ok(offset) =>
          if U16(data, start + 4) == 1 then
            match StringTableChildren(data, start + size, offset, checked)
            case Err(e) => Err(e)
            case Ok(_) => Ok(size)
          else Ok(size)
  }

  /**
   * read_string_file_information: a block with a key; a value data type of 1
   * makes it hold one string table. Returns the declared size.
   */
  function StringFileInfoBlock(data: seq<byte>, start: nat, checked: bool): (r: Result<nat>)
    ensures BlockSize(data, start).Err? ==> r == BlockSize(data, start)
    ensures r.Ok? ==> r == BlockSize(data, start)
  {
    match BlockSize(data, start)
    case Err(e) => Err(e)
    case Ok(size) =>
      if size == 0 then Ok(0)
      else match Align(data, ScanEnd(data, start + 6), checked)
        case Err(e) => Err(e)
        case Ok(offset) =>
          if U16(data, start + 4) == 1 then
            match StringTableBlock(data, offset, checked)
            case Err(e) => Err(e)
            case Ok(_) => Ok(size)
          else Ok(size)
  }

  /** The loop of read_variable_file_information over its Var children, up to `end`; it stops at a child of size 0. */
  function VarFileInfoChildren(data: seq<byte>, end: nat, offset: nat, checked: bool): (r: Result<()>)
    requires end <= |data|
    decreases end - offset
  {
    if offset + 2 < end then
      match LeafBlock(data, offset, checked)
      case Err(e) => Err(e)
      case Ok(n) => if n == 0 then Ok(()) else VarFileInfoChildren(data, end, offset + n, checked)
    else Ok(())
  }

  /** read_variable_file_information: a block with a key and a list of Var blocks. Returns the declared size. */
  function VarFileInfoBlock(data: seq<byte>, start: nat, checked: bool): (r: Result<nat>)
    ensures BlockSize(data, start).Err? ==> r == BlockSize(data, start)
    ensures r.Ok? ==> r == BlockSize(data, start)
  {
    match BlockSize(data, start)
    case Err(e) => Err(e)
    case Ok(size) =>
      if size == 0 then Ok(0)
      else match Align(data, ScanEnd(data, start + 6), checked)
        case Err(e) => Err(e)
        case Ok(offset) =>
          match VarFileInfoChildren(data, start + size, offset, checked)
          case Err(e) => Err(e)
          case Ok(_) => Ok(size)
  }

  /** The file and product versions of VS_FIXEDFILEINFO. */
  datatype Versions = Versions(fileVersion: nat, productVersion: nat)

  /**
   * What a read leaves behind: the versions, when the fixed file information
   * was read (they stay set even if a later step fails), and the error the
   * read stopped with, if any.
   */
  datatype VersionParse = VersionParse(versions: Option<Versions>, failure: Option<Error>)

  /** A 64-bit version from two 32-bit halves: `(high << 32) | low` on a uint64_t. */
  function ComposeVersion(high: nat, low: nat): nat
    requires high < 0x1_0000_0000 && low < 0x1_0000_0000
  {
    BitOr((high * 0x1_0000_0000) % 0x1_0000_0000_0000_0000, low)
  }

  /** The versions at +8/+12 (file) and +16/+20 (product) of the fixed file information at `offset`. */
  function FixedVersions(data: seq<byte>, offset: nat): Versions
    requires offset + 24 <= |data|
  {
    Versions(ComposeVersion(U32(data, offset + 8), U32(data, offset + 12)),
             ComposeVersion(U32(data, offset + 16), U32(data, offset + 20)))
  }

  /** The key scanned from byte 6 is exactly 32 bytes long and equal to `Key`. */
  predicate KeyAccepted(data: seq<byte>)
  {
    ScanEnd(data, ValueHeaderSize) == KeyEnd && data[ValueHeaderSize..KeyEnd] == Key
  }

  /** Where the fixed file information starts: the key end aligned to 4. */
  const FixedInfoOffset: nat := KeyEnd + 2

  /** The error of the StringFileInfo block at `next` or, after it, of the VarFileInfo block, if any. */
  function BlocksFailure(data: seq<byte>, next: nat, checked: bool): Option<Error>
  {
    match StringFileInfoBlock(data, next, checked)
    case Err(e) => Some(e)
    case Ok(n) =>
      match VarFileInfoBlock(data, next + n, checked)
      case Err(e) => Some(e)
      case Ok(_) => None
  }

  /** The alignment after the fixed file information at `offset`, and the two top-level blocks. */
  function AfterFixedInfo(data: seq<byte>, offset: nat, versions: Option<Versions>, checked: bool): (p: VersionParse)
    requires checked ==> offset <= |data|
    ensures p.versions == versions
  {
    match Align(data, offset, checked)
    case Err(e) => VersionParse(versions, Some(e))
    case Ok(next) => VersionParse(versions, BlocksFailure(data, next, checked))
  }

  /**
   * The part of a read after the key: the fixed file information when the
   * value data size is not zero, alignment, and the two top-level blocks.
   */
  function FixedInfoAndBlocks(data: seq<byte>, checked: bool): (p: VersionParse)
    requires ValueHeaderSize <= |data|
    requires checked ==> FixedInfoOffset <= |data|
    ensures p.versions.Some? ==> FixedInfoSize <= U16(data, 2) && FixedInfoOffset + U16(data, 2) <= |data|
    ensures p.versions.Some? ==> p.versions.value == FixedVersions(data, FixedInfoOffset)
    ensures p.failure.None? ==> (p.versions.Some? <==> U16(data, 2) > 0)
  {
    var valueSize := U16(data, 2);
    if valueSize > 0 && (valueSize < FixedInfoSize || valueSize > |data| - FixedInfoOffset) then
      VersionParse(None, Some(ValueOutOfBounds))
    else
      var versions := if valueSize > 0 then Some(FixedVersions(data, FixedInfoOffset)) else None;
      AfterFixedInfo(data, FixedInfoOffset + valueSize, versions, checked)
  }

  /**
   * A whole read of a VERSIONINFO resource: the value header, the key, and
   * alignment to 4, then the fixed file information and the two blocks.
   */
  function VersionDecode(data: seq<byte>, checked: bool): (p: VersionParse)
    ensures p.failure.None? ==> ValueHeaderSize <= |data| && KeyAccepted(data)
    ensures p.versions.Some? ==> ValueHeaderSize <= |data| && KeyAccepted(data)
    ensures p.versions.Some? ==> FixedInfoSize <= U16(data, 2) && FixedInfoOffset + U16(data, 2) <= |data|
    ensures p.versions.Some? ==> p.versions.value == FixedVersions(data, FixedInfoOffset)
    ensures p.failure.None? ==> (p.versions.Some? <==> U16(data, 2) > 0)
  {
    if |data| < ValueHeaderSize || |data| > SsizeMax then VersionParse(None, Some(ValueOutOfBounds))
    else if !KeyAccepted(data) then VersionParse(None, Some(UnsupportedValue))
    else if Align(data, KeyEnd, checked).Err? then VersionParse(None, Some(ValueOutOfBounds))
    else FixedInfoAndBlocks(data, checked)
  }

  /** The status a read returns. */
  function Status(p: VersionParse): Result<()>
  {
    if p.failure.None? then Ok(()) else Err(p.failure.value)
  }

  // ---------------------------------------------------------------------
  // Properties
  // ---------------------------------------------------------------------

  /**
   * The scan stops after the first 00 00 unit: no unit it passes over is
   * 00 00, and either the last unit it took is 00 00 or it ran out of data.
   */
  lemma {:induction false} ScanEndMeaning(data: seq<byte>, offset: nat)
    ensures forall j :: offset <= j && j + 2 < ScanEnd(data, offset) && (j - offset) % 2 == 0 ==> !(data[j] == 0 && data[j + 1] == 0)
    ensures var e := ScanEnd(data, offset);
      e + 2 >= |data| || (e >= offset + 2 && data[e - 2] == 0 && data[e - 1] == 0)
    decreases |data| - offset
  {
    if offset + 2 < |data| && !(data[offset] == 0 && data[offset + 1] == 0) {
      ScanEndMeaning(data, offset + 2);
    }
  }

  /** A scan over non-zero units up to a 00 00 unit ends just after it. */
  lemma {:induction false} ScanFindsTerminator(data: seq<byte>, offset: nat, stop: nat)
    requires offset <= stop && (stop - offset) % 2 == 0 && stop + 2 < |data|
    requires forall j :: offset <= j < stop && (j - offset) % 2 == 0 ==> data[j] != 0
    requires data[stop] == 0 && data[stop + 1] == 0
    ensures ScanEnd(data, offset) == stop + 2
    decreases stop - offset
  {
    if offset < stop {
      assert data[offset] != 0;
      ScanFindsTerminator(data, offset + 2, stop);
    }
  }

  /** The key check accepts exactly the resources holding "VS_VERSION_INFO\0" at byte 6 and at least one byte after it. */
  lemma KeyAcceptedMeaning(data: seq<byte>)
    ensures KeyAccepted(data) <==> |data| > KeyEnd && data[ValueHeaderSize..KeyEnd] == Key
  {
    if |data| > KeyEnd && data[ValueHeaderSize..KeyEnd] == Key {
      assert forall j :: ValueHeaderSize <= j < KeyEnd ==> data[j] == Key[j - ValueHeaderSize];
      assert forall k :: 0 <= k < 30 && k % 2 == 0 ==> Key[k] != 0;
      ScanFindsTerminator(data, ValueHeaderSize, KeyEnd - 2);
    }
  }

  /** The version is the high half times 2^32 plus the low half, and splits back into the two halves. */
  lemma ComposeVersionSplits(high: nat, low: nat)
    requires high < 0x1_0000_0000 && low < 0x1_0000_0000
    ensures ComposeVersion(high, low) == high * 0x1_0000_0000 + low
    ensures ComposeVersion(high, low) < 0x1_0000_0000_0000_0000
    ensures ComposeVersion(high, low) / 0x1_0000_0000 == high && ComposeVersion(high, low) % 0x1_0000_0000 == low
  {
    var shifted := high * 0x1_0000_0000;
    assert shifted <= 0xFFFF_FFFF * 0x1_0000_0000;
    assert shifted % 0x1_0000_0000_0000_0000 == shifted;
    Pow2Of32();
    BitOrLowBits(high, low, 32);
    assert (shifted + low) / 0x1_0000_0000 == high && (shifted + low) % 0x1_0000_0000 == low;
  }

  /** 2^32, by doubling exponents. */
  lemma Pow2Of32()
    ensures Pow2(32) == 0x1_0000_0000
  {
    assert Pow2(2) == 4;
    Pow2Add(2, 2);
    Pow2Add(4, 4);
    Pow2Add(8, 8);
    Pow2Add(16, 16);
  }

  /** Powers of two multiply by adding exponents. */
  lemma {:induction false} Pow2Add(a: nat, b: nat)
    ensures Pow2(a + b) == Pow2(a) * Pow2(b)
  {
    if a > 0 {
      Pow2Add(a - 1, b);
      assert Pow2(a + b) == 2 * Pow2(a - 1 + b);
    }
  }

  /** A leaf block that passes the alignment check passes without it, with the same size. */
  lemma LeafBlockUnchecked(data: seq<byte>, start: nat)
    ensures LeafBlock(data, start, true).Ok? ==> LeafBlock(data, start, false) == LeafBlock(data, start, true)
  {
  }

  /** The String children that pass with checked alignment pass without it. */
  lemma {:induction false} StringTableChildrenUnchecked(data: seq<byte>, end: nat, offset: nat)
    requires end <= |data|
    ensures StringTableChildren(data, end, offset, true).Ok? ==> StringTableChildren(data, end, offset, false).Ok?
    decreases end - offset
  {
    if offset + 2 < end && LeafBlock(data, offset, true).Ok? {
      LeafBlockUnchecked(data, offset);
      var n := LeafBlock(data, offset, true).value;
      if n != 0 {
        StringTableChildrenUnchecked(data, end, NextChild(offset, n, end));
      }
    }
  }

  /** The Var children that pass with checked alignment pass without it. */
  lemma {:induction false} VarFileInfoChildrenUnchecked(data: seq<byte>, end: nat, offset: nat)
    requires end <= |data|
    ensures VarFileInfoChildren(data, end, offset, true).Ok? ==> VarFileInfoChildren(data, end, offset, false).Ok?
    decreases end - offset
  {
    if offset + 2 < end && LeafBlock(data, offset, true).Ok? {
      LeafBlockUnchecked(data, offset);
      var n := LeafBlock(data, offset, true).value;
      if n != 0 {
        VarFileInfoChildrenUnchecked(data, end, offset + n);
      }
    }
  }

  /** A string table that passes with checked alignment passes without it, with the same size. */
  lemma StringTableBlockUnchecked(data: seq<byte>, start: nat)
    ensures StringTableBlock(data, start, true).Ok? ==> StringTableBlock(data, start, false) == StringTableBlock(data, start, true)
  {
    if StringTableBlock(data, start, true).Ok? && BlockSize(data, start).value != 0 {
      var size := BlockSize(data, start).value;
      var offset := Align(data, ScanEnd(data, start + 6), true).value;
      StringTableChildrenUnchecked(data, start + size, offset);
    }
  }

  /** A StringFileInfo block that passes with checked alignment passes without it, with the same size. */
  lemma StringFileInfoBlockUnchecked(data: seq<byte>, start: nat)
    ensures StringFileInfoBlock(data, start, true).Ok? ==> StringFileInfoBlock(data, start, false) == StringFileInfoBlock(data, start, true)
  {
    if StringFileInfoBlock(data, start, true).Ok? && BlockSize(data, start).value != 0 {
      StringTableBlockUnchecked(data, Align(data, ScanEnd(data, start + 6), true).value);
    }
  }

  /** A VarFileInfo block that passes with checked alignment passes without it, with the same size. */
  lemma VarFileInfoBlockUnchecked(data: seq<byte>, start: nat)
    ensures VarFileInfoBlock(data, start, true).Ok? ==> VarFileInfoBlock(data, start, false) == VarFileInfoBlock(data, start, true)
  {
    if VarFileInfoBlock(data, start, true).Ok? && BlockSize(data, start).value != 0 {
      var size := BlockSize(data, start).value;
      VarFileInfoChildrenUnchecked(data, start + size, Align(data, ScanEnd(data, start + 6), true).value);
    }
  }

  /** Top-level blocks that pass with checked alignment pass without it. */
  lemma BlocksFailureUnchecked(data: seq<byte>, next: nat)
    ensures BlocksFailure(data, next, true).None? ==> BlocksFailure(data, next, false).None?
  {
    StringFileInfoBlockUnchecked(data, next);
    if StringFileInfoBlock(data, next, true).Ok? {
      VarFileInfoBlockUnchecked(data, next + StringFileInfoBlock(data, next, true).value);
    }
  }

  /**
   * Checking the alignment only adds rejections: a resource read without
   * error by the checked walkers reads the same, with the same versions,
   * by the unchecked ones.
   */
  lemma VersionDecodeUnchecked(data: seq<byte>)
    ensures VersionDecode(data, true).failure.None? ==> VersionDecode(data, false) == VersionDecode(data, true)
  {
    if VersionDecode(data, true).failure.None? {
      BlocksFailureUnchecked(data, FixedInfoOffset + U16(data, 2) + Padding(FixedInfoOffset + U16(data, 2)));
    }
  }
}
