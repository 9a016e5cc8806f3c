/**
 * libwrc_mui_resource: a MUI resource read from an in-memory buffer into
 * set-once name buffers, with the file type and the name getters.
 */
module MuiResource {
  import opened Bytes
  import opened MuiLayout

  /** The UTF-16LE text a name getter hands to libuna; `None` ("not available", return value 0) for no name. */
  function NameText(name: Option<seq<byte>>): (t: Option<TextData>)
    ensures t.Some? <==> name.Some? && |name.value| > 0
    ensures t.Some? ==> t.value == TextData(name.value, Utf16LittleEndian)
  {
    if name.None? || |name.value| == 0 then None else Some(TextData(name.value, Utf16LittleEndian))
  }

  class MuiResource {
    /** The file type from the header; it is set as soon as the signature has matched. */
    var fileType: nat
    var mainName: Option<seq<byte>>
    var muiName: Option<seq<byte>>
    var language: Option<seq<byte>>
    var fallbackLanguage: Option<seq<byte>>

    constructor ()
      ensures fileType == 0
      ensures mainName.None? && muiName.None? && language.None? && fallbackLanguage.None?
    {
      fileType := 0;
      mainName, muiName, language, fallbackLanguage := None, None, None, None;
    }

    /** Some name buffer already holds a value. */
    predicate AnyNameSet()
      reads this
    {
      mainName.Some? || muiName.Some? || language.Some? || fallbackLanguage.Some?
    }

    /** The record the resource holds. */
    function Record(): MuiRecord
      reads this
    {
      MuiRecord(fileType, mainName, muiName, language, fallbackLanguage)
    }

    /** The `on_error` path of read: every name buffer is freed. */
    method FreeNames()
      modifies this
      ensures mainName.None? && muiName.None? && language.None? && fallbackLanguage.None?
      ensures fileType == old(fileType)
    {
      mainName, muiName, language, fallbackLanguage := None, None, None, None;
    }

    /**
     * libwrc_mui_resource_read: refuses to run over a resource that holds a
     * name; otherwise it decodes the header and the six pairs, keeps the
     * names on success and frees every name on failure. The file type is
     * kept even on failure once the signature has matched. `data` is
     * `None` for a NULL pointer.
     */
    method Read(data: Option<seq<byte>>) returns (r: Result<()>)
      modifies this
      ensures old(AnyNameSet()) ==> r == Err(AlreadySet) && Record() == old(Record())
      ensures !old(AnyNameSet()) && data.None? ==> r == Err(InvalidArgument) && Record() == old(Record())
      ensures !old(AnyNameSet()) && data.Some? && (|data.value| < HeaderSize || |data.value| > SsizeMax) ==>
        r == Err(ValueOutOfBounds) && Record() == old(Record())
      ensures !old(AnyNameSet()) && data.Some? && HeaderSize <= |data.value| <= SsizeMax ==>
        (MuiDecode(data.value).Ok? ==> r == Ok(()) && Record() == MuiDecode(data.value).value)
      ensures !old(AnyNameSet()) && data.Some? && HeaderSize <= |data.value| <= SsizeMax && MuiDecode(data.value).Err? ==>
        r == Err(MuiDecode(data.value).error) && !AnyNameSet()
        && fileType == (if HeaderSigned(data.value) then U32(data.value, FileTypeOffset) else old(fileType))
    {
      if AnyNameSet() {
        return Err(AlreadySet);
      }
      if data.None? {
        return Err(InvalidArgument);
      }
      var bytes := data.value;
      if |bytes| < HeaderSize || |bytes| > SsizeMax {
        return Err(ValueOutOfBounds);
      }
      if bytes[..4] != Signature {
        FreeNames();
        return Err(UnsupportedValue);
      }
      var declaredSize := U32(bytes, 4);
      fileType := U32(bytes, FileTypeOffset);
      if declaredSize > |bytes| || !PairFits(bytes, 0) {
        FreeNames();
        return Err(ValueOutOfBounds);
      }
      var name := NameField(bytes, PairAt(bytes, 0));
      if name.Err? {
        FreeNames();
        return Err(name.error);
      }
      mainName := name.value;
      if !PairFits(bytes, 1) {
        FreeNames();
        return Err(ValueOutOfBounds);
      }
      var check := IdentifiersCheck(bytes, PairAt(bytes, 1));
      if check.Some? || !PairFits(bytes, 2) {
        FreeNames();
        return Err(if check.Some? then check.value else ValueOutOfBounds);
      }
      name := NameField(bytes, PairAt(bytes, 2));
      if name.Err? {
        FreeNames();
        return Err(name.error);
      }
      muiName := name.value;
      if !PairFits(bytes, 3) {
        FreeNames();
        return Err(ValueOutOfBounds);
      }
      check := IdentifiersCheck(bytes, PairAt(bytes, 3));
      if check.Some? || !PairFits(bytes, 4) {
        FreeNames();
        return Err(if check.Some? then check.value else ValueOutOfBounds);
      }
      // The fifth pair is read here, and overwritten by the sixth before use.
      if !PairFits(bytes, 5) {
        FreeNames();
        return Err(ValueOutOfBounds);
      }
      name := NameField(bytes, PairAt(bytes, 5));
      if name.Err? {
        FreeNames();
        return Err(name.error);
      }
      language := name.value;
      fallbackLanguage := name.value;
      r := Ok(());
    }

    method GetFileType() returns (t: nat)
      ensures t == fileType
    {
      t := fileType;
    }

    /** The main name for the UTF-8 and UTF-16 getters; `None` when there is none. */
    method GetMainName() returns (t: Option<TextData>)
      ensures t == NameText(mainName)
    {
      t := NameText(mainName);
    }

    method GetMuiName() returns (t: Option<TextData>)
      ensures t == NameText(muiName)
    {
      t := NameText(muiName);
    }

    method GetLanguage() returns (t: Option<TextData>)
      ensures t == NameText(language)
    {
      t := NameText(language);
    }

    method GetFallbackLanguage() returns (t: Option<TextData>)
      ensures t == NameText(fallbackLanguage)
    {
      t := NameText(fallbackLanguage);
    }
  }
}
