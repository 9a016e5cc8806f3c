/**
 * The layout of a MUI resource and its decoding, stated as functions: an
 * 84-byte header starting with the signature `cd fe cd fe`, then six
 * (offset, size) pairs for the main name, the main identifier types, the
 * MUI name, the MUI identifier types, the language and the ultimate
 * fallback language. A region a pair names must start past the pairs, at
 * 0x84 or later, and lie inside the resource.
 */
module MuiLayout {
  import opened Bytes

  /** sizeof( wrc_mui_header_t ): signature, size, version, unknown, file type, system attributes, fallback location, two 16-byte checksums and 24 unknown bytes. */
  const HeaderSize: nat := 84
  /** The first offset a region may start at: just past the six pairs. */
  const RegionsOffset: nat := 0x84
  const Signature: seq<byte> := [0xcd, 0xfe, 0xcd, 0xfe]
  /** The byte offset of the file type in the header. */
  const FileTypeOffset: nat := 16

  /** An (offset, size) pair of the table after the header. */
  datatype Pair = Pair(offset: nat, size: nat)

  /** What a MUI resource holds: the file type and the four names as raw UTF-16LE bytes; `None` for an empty pair. */
  datatype MuiRecord = MuiRecord(
    fileType: nat,
    mainName: Option<seq<byte>>,
    muiName: Option<seq<byte>>,
    language: Option<seq<byte>>,
    fallbackLanguage: Option<seq<byte>>)

  /** The guard `data_offset > data_size - 8` before pair `k` passes: the pair lies inside the data. */
  predicate PairFits(data: seq<byte>, k: nat)
  {
    HeaderSize + 8 * k + 8 <= |data|
  }

  function PairAt(data: seq<byte>, k: nat): (p: Pair)
    requires PairFits(data, k)
    ensures p.offset < 0x1_0000_0000 && p.size < 0x1_0000_0000
  {
    Pair(U32(data, HeaderSize + 8 * k), U32(data, HeaderSize + 8 * k + 4))
  }

  predicate HeaderSigned(data: seq<byte>)
    requires |data| >= HeaderSize
  {
    data[..4] == Signature
  }

  /**
   * A name pair: empty is "no name"; otherwise its offset must lie in
   * [0x84, size of the data) and its size within the allocation limit and
   * the bytes after the offset. The name is the bytes themselves.
   */
  function NameField(data: seq<byte>, p: Pair): (r: Result<Option<seq<byte>>>)
    ensures r.Ok? && r.value.Some? ==>
      RegionsOffset <= p.offset && p.offset + p.size <= |data| && r.value.value == data[p.offset..p.offset + p.size]
      && 0 < |r.value.value| <= MaxAllocationSize
    ensures r.Ok? && r.value.None? <==> p.size == 0
  {
    if p.size == 0 then Ok(None)
    else if p.offset < RegionsOffset || p.offset >= |data| then Err(ValueOutOfBounds)
    else if p.size > MaxAllocationSize || p.size > |data| - p.offset then Err(ValueOutOfBounds)
    else Ok(Some(data[p.offset..p.offset + p.size]))
  }

  /** An identifier-types pair is checked the same way, but the region is not kept. */
  function IdentifiersCheck(data: seq<byte>, p: Pair): (r: Option<Error>)
    ensures r.None? <==> p.size == 0 || (RegionsOffset <= p.offset < |data| && p.offset + p.size <= |data|)
  {
    if p.size == 0 then None
    else if p.offset < RegionsOffset || p.offset >= |data| then Some(ValueOutOfBounds)
    else if p.offset + p.size > |data| then Some(ValueOutOfBounds)
    else None
  }

  /**
   * The decoding of both MUI readers. The fifth pair is read (its guard
   * applies) but then replaced by the sixth before it is used: the
   * language and the fallback language both come from the sixth pair.
   */
  function MuiDecode(data: seq<byte>): Result<MuiRecord>
  {
    if |data| < HeaderSize then Err(ValueOutOfBounds)
    else if !HeaderSigned(data) then Err(UnsupportedValue)
    else if U32(data, 4) > |data| then Err(ValueOutOfBounds)
    else if !PairFits(data, 0) then Err(ValueOutOfBounds)
    else
      var mainName := NameField(data, PairAt(data, 0));
      if mainName.Err? then Err(mainName.error)
      else if !PairFits(data, 1) then Err(ValueOutOfBounds)
      else if IdentifiersCheck(data, PairAt(data, 1)).Some? then Err(IdentifiersCheck(data, PairAt(data, 1)).value)
      else if !PairFits(data, 2) then Err(ValueOutOfBounds)
      else
        var muiName := NameField(data, PairAt(data, 2));
        if muiName.Err? then Err(muiName.error)
        else if !PairFits(data, 3) then Err(ValueOutOfBounds)
        else if IdentifiersCheck(data, PairAt(data, 3)).Some? then Err(IdentifiersCheck(data, PairAt(data, 3)).value)
        else if !PairFits(data, 4) || !PairFits(data, 5) then Err(ValueOutOfBounds)
        else
          var language := NameField(data, PairAt(data, 5));
          if language.Err? then Err(language.error)
          else
            Ok(MuiRecord(U32(data, FileTypeOffset), mainName.value, muiName.value, language.value, language.value))
  }

  /**
   * What a successful decoding means: a signed header whose declared size
   * fits, all six pairs inside the data, every name the exact bytes its
   * pair names, and the identifier regions inside the data.
   */
  lemma MuiDecodeMeaning(data: seq<byte>)
    ensures MuiDecode(data).Ok? ==>
      |data| >= HeaderSize && HeaderSigned(data) && U32(data, 4) <= |data| && PairFits(data, 5)
      && MuiDecode(data).value.fileType == U32(data, FileTypeOffset)
      && NameField(data, PairAt(data, 0)) == Ok(MuiDecode(data).value.mainName)
      && NameField(data, PairAt(data, 2)) == Ok(MuiDecode(data).value.muiName)
      && NameField(data, PairAt(data, 5)) == Ok(MuiDecode(data).value.language)
      && IdentifiersCheck(data, PairAt(data, 1)).None? && IdentifiersCheck(data, PairAt(data, 3)).None?
  {
  }

  /** The language and the fallback language of a decoded resource are always the same. */
  lemma LanguageIsFallbackLanguage(data: seq<byte>)
    ensures MuiDecode(data).Ok? ==> MuiDecode(data).value.language == MuiDecode(data).value.fallbackLanguage
  {
  }

  /** Two buffers that agree on four bytes read the same 32-bit value there. */
  lemma SameU32(a: seq<byte>, b: seq<byte>, at: nat)
    requires at + 4 <= |a| && at + 4 <= |b|
    requires a[at] == b[at] && a[at + 1] == b[at + 1] && a[at + 2] == b[at + 2] && a[at + 3] == b[at + 3]
    ensures U32(a, at) == U32(b, at)
  {
  }

  /** Whatever the fifth pair holds, only its guard matters: two resources that differ only there decode alike. */
  lemma FifthPairIgnored(data: seq<byte>, other: seq<byte>)
    requires PairFits(data, 5) && |other| == |data|
    requires forall i :: 0 <= i < |data| && !(HeaderSize + 32 <= i < HeaderSize + 40) ==> other[i] == data[i]
    ensures MuiDecode(other) == MuiDecode(data)
  {
    assert other[..4] == data[..4];
    SameU32(other, data, 4);
    SameU32(other, data, FileTypeOffset);
    SameU32(other, data, HeaderSize);
    SameU32(other, data, HeaderSize + 4);
    SameU32(other, data, HeaderSize + 8);
    SameU32(other, data, HeaderSize + 12);
    SameU32(other, data, HeaderSize + 16);
    SameU32(other, data, HeaderSize + 20);
    SameU32(other, data, HeaderSize + 24);
    SameU32(other, data, HeaderSize + 28);
    SameU32(other, data, HeaderSize + 40);
    SameU32(other, data, HeaderSize + 44);
    forall p: Pair
      ensures NameField(other, p) == NameField(data, p)
    {
      if p.size > 0 && RegionsOffset <= p.offset && p.offset + p.size <= |data| {
        assert other[p.offset..p.offset + p.size] == data[p.offset..p.offset + p.size];
      }
    }
  }
}
