/**
 * libwrc_version_values: the VERSIONINFO reader used when a stream's
 * resources are read. It reads the resource bytes through a file IO
 * handle, walks them, and appends one version-values object to the
 * language entry of the resource.
 */
module VersionValues {
  import opened Bytes
  import opened VersionLayout
  import opened VersionWalkers
  import opened LanguageEntries

  /** The versions a freshly initialised version-values object holds. */
  const NoVersions: Versions := Versions(0, 0)

  /** The object a successful read appends: the fixed file information's versions, or zeros without one. */
  function ValuesOf(p: VersionParse): (v: Versions)
    ensures p.versions.Some? ==> v == p.versions.value
    ensures p.versions.None? ==> v == NoVersions
  {
    if p.versions.Some? then p.versions.value else NoVersions
  }

  /**
   * libwrc_version_values_read after the argument checks: a size of 0 or
   * above the allocation limit is refused, `delivered` is what the read of
   * `size` bytes at the resource's file offset returned, and a short read
   * is an error. The walkers align without checking the remaining bytes.
   * The header-length and fixed-information checks the C code lacks are
   * those of the resource reader (see the findings), and so is the key
   * check, which the C code makes through libfvalue (see
   * `HeaderAndKeyOnlyRefused`). Only a read without error appends, and it
   * appends exactly one object.
   */
  method Read(languageEntry: LanguageEntry<Versions>, size: nat, delivered: seq<byte>) returns (r: Result<()>)
    modifies languageEntry
    ensures size == 0 || size > MaxAllocationSize ==>
      r == Err(ValueOutOfBounds) && languageEntry.values == old(languageEntry.values)
    ensures 0 < size <= MaxAllocationSize && |delivered| != size ==>
      r == Err(ReadFailed) && languageEntry.values == old(languageEntry.values)
    ensures 0 < size <= MaxAllocationSize && |delivered| == size ==>
      r == Status(VersionDecode(delivered, false))
    ensures 0 < size <= MaxAllocationSize && |delivered| == size && r.Err? ==>
      languageEntry.values == old(languageEntry.values)
    ensures 0 < size <= MaxAllocationSize && |delivered| == size && r.Ok? ==>
      languageEntry.values == old(languageEntry.values) + [ValuesOf(VersionDecode(delivered, false))]
  {
    if size == 0 || size > MaxAllocationSize {
      return Err(ValueOutOfBounds);
    }
    if |delivered| != size {
      return Err(ReadFailed);
    }
    var parsed := ReadVersion(delivered, false);
    if parsed.failure.Some? {
      return Err(parsed.failure.value);
    }
    var _ := languageEntry.AppendValue(ValuesOf(parsed));
    r := Ok(());
  }

  /** A 38-byte resource holding exactly the value header (size 38, no value data) and the key. */
  const HeaderAndKeyOnly: seq<byte> := [0x26, 0x00, 0x00, 0x00, 0x00, 0x00] + Key

  /**
   * The key check is the resource reader's scan, which needs a byte after
   * the key: a resource that ends with the key's terminator is refused as
   * an unsupported signature.
   */
  lemma HeaderAndKeyOnlyRefused()
    ensures |HeaderAndKeyOnly| == KeyEnd && HeaderAndKeyOnly[ValueHeaderSize..KeyEnd] == Key
    ensures VersionDecode(HeaderAndKeyOnly, false) == VersionParse(None, Some(UnsupportedValue))
  {
    var d := HeaderAndKeyOnly;
    assert d[ValueHeaderSize..KeyEnd] == Key;
    KeyAcceptedMeaning(d);
  }

  /** libwrc_version_values_get_file_version. */
  function GetFileVersion(values: Versions): (version: nat)
    ensures version == values.fileVersion
  {
    values.fileVersion
  }

  /** libwrc_version_values_get_product_version. */
  function GetProductVersion(values: Versions): (version: nat)
    ensures version == values.productVersion
  {
    values.productVersion
  }
}
