/**
 * libwrc_table_entry: an identifier and a set-once string, stored as bytes
 * with the codepage they are encoded in. The four string getters convert
 * from UTF-16 little-endian when the codepage says so, and from a
 * byte-stream codepage otherwise.
 */
module TableEntry {
  import opened Bytes

  /**
   * The codepage argument of set_string: LIBUNA_CODEPAGE_UTF16_LITTLE_ENDIAN,
   * or any other codepage number, which is taken as a byte-stream codepage.
   */
  datatype Codepage = Utf16LittleEndianCodepage | ByteCodepage(number: int)

  /** The conversion the getters ask libuna for. */
  function EncodingOf(codepage: Codepage): (e: Encoding)
    ensures codepage.Utf16LittleEndianCodepage? <==> e == Utf16LittleEndian
    ensures codepage.ByteCodepage? ==> e == ByteStream(codepage.number)
  {
    match codepage
    case Utf16LittleEndianCodepage => Utf16LittleEndian
    case ByteCodepage(n) => ByteStream(n)
  }

  /** The codepage a table entry holds before any string is set (the structure is zeroed). */
  const InitialCodepage: Codepage := ByteCodepage(0)

  class TableEntry {
    var identifier: nat
    /** The string bytes; `None` while the string pointer is NULL. */
    var text: Option<seq<byte>>
    var textSize: nat
    var codepage: Codepage

    /** The size field describes the string. */
    predicate Valid()
      reads this
    {
      (text.None? ==> textSize == 0) && (text.Some? ==> textSize == |text.value|)
    }

    /** libwrc_table_entry_initialize: a zeroed entry. */
    constructor ()
      ensures identifier == 0 && text.None? && textSize == 0 && codepage == InitialCodepage
      ensures Valid()
    {
      identifier, text, textSize, codepage := 0, None, 0, InitialCodepage;
    }

    /**
     * libwrc_table_entry_set_string: set-once; `value` is `None` for a NULL
     * pointer, `copied` says whether allocation and copy succeed. The
     * codepage is stored only on success; a failed copy leaves no string
     * and a size of zero.
     */
    method SetString(value: Option<seq<byte>>, cp: Codepage, copied: bool) returns (r: Result<()>)
      requires Valid()
      modifies this
      ensures Valid()
      ensures identifier == old(identifier)
      ensures old(text).Some? ==> r == Err(AlreadySet) && text == old(text) && codepage == old(codepage)
      ensures old(text).None? && value.None? ==> r == Err(InvalidArgument) && text.None? && codepage == old(codepage)
      ensures old(text).None? && value.Some? && (|value.value| == 0 || |value.value| > MaxAllocationSize) ==>
        r == Err(ValueOutOfBounds) && text.None? && codepage == old(codepage)
      ensures old(text).None? && value.Some? && 0 < |value.value| <= MaxAllocationSize && copied ==>
        r == Ok(()) && text == value && textSize == |value.value| && codepage == cp
      ensures old(text).None? && value.Some? && 0 < |value.value| <= MaxAllocationSize && !copied ==>
        r == Err(MemoryFailure) && text.None? && textSize == 0 && codepage == old(codepage)
    {
      if text.Some? {
        return Err(AlreadySet);
      }
      if value.None? {
        return Err(InvalidArgument);
      }
      if |value.value| == 0 || |value.value| > MaxAllocationSize {
        return Err(ValueOutOfBounds);
      }
      if !copied {
        text, textSize := None, 0;
        return Err(MemoryFailure);
      }
      text, textSize := value, |value.value|;
      codepage := cp;
      r := Ok(());
    }

    /**
     * What libwrc_table_entry_get_utf8_string_size, _get_utf8_string,
     * _get_utf16_string_size and _get_utf16_string hand to libuna: the
     * stored bytes under the conversion the codepage selects. `None` is a
     * NULL string, which libuna refuses.
     */
    function Text(): (t: Option<TextData>)
      reads this
      requires Valid()
      ensures t.None? <==> text.None?
      ensures t.Some? ==> t.value.bytes == text.value && |t.value.bytes| == textSize
      ensures t.Some? ==> (t.value.encoding == Utf16LittleEndian <==> codepage == Utf16LittleEndianCodepage)
      ensures t.Some? && codepage.ByteCodepage? ==> t.value.encoding == ByteStream(codepage.number)
    {
      if text.None? then None else Some(TextData(text.value, EncodingOf(codepage)))
    }
  }

  /**
   * A string set without error is handed to the getters exactly as given,
   * under the conversion of its codepage: "test\0" set with codepage 1252
   * is converted as a windows-1252 byte stream.
   */
  lemma TextOfSetString(entry: TableEntry, value: seq<byte>, cp: Codepage)
    requires entry.Valid() && entry.text == Some(value) && entry.codepage == cp
    ensures entry.Text() == Some(TextData(value, EncodingOf(cp)))
    ensures cp == ByteCodepage(1252) ==> entry.Text().value.encoding == ByteStream(1252)
  {
  }
}
