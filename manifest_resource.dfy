/**
 * libwrc_manifest_resource: a set-once copy of the raw UTF-8 bytes of a
 * manifest, with the getters that hand those bytes to libuna.
 */
module ManifestResource {
  import opened Bytes

  class ManifestResource {
    /** The copied bytes; `None` while the string pointer is NULL. */
    var text: Option<seq<byte>>
    /** string_size: the number of bytes copied. */
    var size: nat

    /** The size field describes the buffer: zero without one, its length with one. */
    predicate Valid()
      reads this
    {
      (text.None? ==> size == 0) && (text.Some? ==> size == |text.value|)
    }

    constructor ()
      ensures text.None? && size == 0
      ensures Valid()
    {
      text, size := None, 0;
    }

    /**
     * libwrc_manifest_resource_read. `data` is `None` for a NULL pointer;
     * `copied` says whether memory_allocate and memory_copy succeed.
     * A resource that holds a string is refused untouched, as are NULL data
     * and a size of zero or above the allocation limit; a failed copy
     * leaves no string and a size of zero.
     */
    method Read(data: Option<seq<byte>>, copied: bool) returns (r: Result<()>)
      requires Valid()
      modifies this
      ensures Valid()
      ensures old(text).Some? ==> r == Err(AlreadySet) && text == old(text) && size == old(size)
      ensures old(text).None? && data.None? ==> r == Err(InvalidArgument) && text.None? && size == old(size)
      ensures old(text).None? && data.Some? && (|data.value| == 0 || |data.value| > MaxAllocationSize) ==>
        r == Err(ValueOutOfBounds) && text.None? && size == old(size)
      ensures old(text).None? && data.Some? && 0 < |data.value| <= MaxAllocationSize ==>
        (copied ==> r == Ok(()) && text == data && size == |data.value|)
        && (!copied ==> r == Err(MemoryFailure) && text.None? && size == 0)
    {
      if text.Some? {
        return Err(AlreadySet);
      }
      if data.None? {
        return Err(InvalidArgument);
      }
      if |data.value| == 0 || |data.value| > MaxAllocationSize {
        return Err(ValueOutOfBounds);
      }
      if !copied {
        // on_error: the buffer, if any was allocated, is freed
        text, size := None, 0;
        return Err(MemoryFailure);
      }
      text := data;
      size := |data.value|;
      r := Ok(());
    }

    /**
     * The bytes and the encoding that libwrc_manifest_resource_get_utf8_string_size,
     * _get_utf8_string, _get_utf16_string_size and _get_utf16_string hand to
     * libuna: the stored buffer as a UTF-8 stream, `None` while it is NULL.
     */
    method GetText() returns (t: Option<TextData>)
      requires Valid()
      ensures text.None? <==> t.None?
      ensures t.Some? ==> t.value == TextData(text.value, Utf8Stream) && |t.value.bytes| == size
    {
      if text.None? {
        return None;
      }
      t := Some(TextData(text.value, Utf8Stream));
    }
  }
}
