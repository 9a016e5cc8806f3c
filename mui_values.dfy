/**
 * libwrc_mui_values: the MUI reader used when a stream's resources are
 * read. It reads the resource bytes through a file IO handle, decodes
 * them into one MUI record and appends that record to the language entry
 * of the resource.
 */
module MuiValues {
  import opened Bytes
  import opened MuiLayout
  import opened LanguageEntries

  /**
   * libwrc_mui_values_read after the argument checks: a size of 0 or above
   * the allocation limit is refused, `delivered` is what the read of
   * `size` bytes at the resource's file offset returned, and a short read
   * is an error. A resource shorter than the header or the pairs is an
   * error (see the findings). Only a successful decoding appends, and it
   * appends exactly one record.
   */
  method Read(languageEntry: LanguageEntry<MuiRecord>, size: nat, delivered: seq<byte>) returns (r: Result<()>)
    modifies languageEntry
    ensures size == 0 || size > MaxAllocationSize ==>
      r == Err(ValueOutOfBounds) && languageEntry.values == old(languageEntry.values)
    ensures 0 < size <= MaxAllocationSize && |delivered| != size ==>
      r == Err(ReadFailed) && languageEntry.values == old(languageEntry.values)
    ensures 0 < size <= MaxAllocationSize && |delivered| == size && MuiDecode(delivered).Err? ==>
      r == Err(MuiDecode(delivered).error) && languageEntry.values == old(languageEntry.values)
    ensures 0 < size <= MaxAllocationSize && |delivered| == size && MuiDecode(delivered).Ok? ==>
      r == Ok(()) && languageEntry.values == old(languageEntry.values) + [MuiDecode(delivered).value]
  {
    if size == 0 || size > MaxAllocationSize {
      return Err(ValueOutOfBounds);
    }
    if |delivered| != size {
      return Err(ReadFailed);
    }
    var decoded := MuiDecode(delivered);
    if decoded.Err? {
      return Err(decoded.error);
    }
    var _ := languageEntry.AppendValue(decoded.value);
    r := Ok(());
  }

  /** libwrc_mui_values_get_file_type. */
  function GetFileType(values: MuiRecord): (t: nat)
    ensures t == values.fileType
  {
    values.fileType
  }
}
