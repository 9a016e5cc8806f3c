/**
 * libwrc_string_table_resource: the strings of one RT_STRING block, read
 * from an in-memory buffer into an append-only values array, and looked
 * up by index or by string identifier.
 */
module StringTableResource {
  import opened Bytes
  import opened StringTableLayout

  /** The search of get_index_by_identifier over the values from position `i` on. */
  function FindStringFrom(values: seq<StringValue>, identifier: nat, i: nat): (l: Lookup)
    ensures !l.NullEntry?
    ensures l.Found? ==> i <= l.index < |values| && values[l.index].identifier == identifier
    decreases |values| - i
  {
    if i >= |values| then NotFound
    else if values[i].identifier == identifier then Found(i)
    else FindStringFrom(values, identifier, i + 1)
  }

  /** No value in `values[lo..hi]` has the identifier. */
  ghost predicate NoStringBetween(values: seq<StringValue>, identifier: nat, lo: nat, hi: nat)
    requires lo <= hi <= |values|
  {
    forall j :: lo <= j < hi ==> values[j].identifier != identifier
  }

  /** The search finds the first value with the identifier, and reports "none" exactly when there is none. */
  lemma {:induction false} FindStringFromMeaning(values: seq<StringValue>, identifier: nat, i: nat)
    requires i <= |values|
    ensures FindStringFrom(values, identifier, i).Found? ==>
      NoStringBetween(values, identifier, i, FindStringFrom(values, identifier, i).index)
    ensures FindStringFrom(values, identifier, i).NotFound? <==> NoStringBetween(values, identifier, i, |values|)
    decreases |values| - i
  {
    if i < |values| && values[i].identifier != identifier {
      FindStringFromMeaning(values, identifier, i + 1);
    }
  }

  class StringTableResource {
    /** The values array, one UTF-16 string value per non-empty slot. */
    var values: seq<StringValue>

    constructor ()
      ensures values == []
    {
      values := [];
    }

    /**
     * libwrc_string_table_resource_read: appends one value per non-empty
     * slot; a value appended before an error stays in the array. `data`
     * is `None` for a NULL pointer.
     */
    method Read(data: Option<seq<byte>>, baseIdentifier: nat) returns (r: Result<()>)
      requires baseIdentifier < 0x1_0000_0000
      modifies this
      ensures data.None? ==> r == Err(InvalidArgument) && values == old(values)
      ensures data.Some? ==> values == old(values) + StringTable(data.value, baseIdentifier).items
      ensures data.Some? ==> r == StatusOf(StringTable(data.value, baseIdentifier))
    {
      if data.None? {
        return Err(InvalidArgument);
      }
      var bytes := data.value;
      if |bytes| < 2 || |bytes| > MaxAllocationSize {
        return Err(ValueOutOfBounds);
      }
      var high := PredecessorUint32(baseIdentifier);
      ghost var whole := TableFrom(bytes, high, 0, 0);
      ghost var before := values;
      ghost var appended: seq<StringValue> := [];
      var offset: nat := 0;
      var slot: nat := 0;
      while offset < |bytes| - 2
        invariant offset <= |bytes|
        invariant values == before + appended
        invariant whole == Prepend(appended, TableFrom(bytes, high, offset, slot))
        decreases |bytes| - offset
      {
        var next, value := ReadSlot(bytes, high, offset, slot);
        if next.Err? {
          assert whole == Parsed(appended, Some(ValueOutOfBounds)) && appended + [] == appended;
          return Err(ValueOutOfBounds);
        }
        if next.value == offset + 2 {
          assert TableFrom(bytes, high, offset, slot) == TableFrom(bytes, high, next.value, slot + 1);
        } else {
          AppendStep(whole, before, appended, value, TableFrom(bytes, high, next.value, slot + 1));
          appended := appended + [value];
        }
        offset, slot := next.value, slot + 1;
      }
      assert whole == Parsed(appended, None) && appended + [] == appended;
      r := Ok(());
    }

    /**
     * One slot of the read loop at `offset`: an empty slot is skipped, a
     * length beyond the remaining bytes is an error, and any other slot
     * appends its value; returns the offset of the next slot.
     */
    method ReadSlot(data: seq<byte>, high: nat, offset: nat, slot: nat) returns (next: Result<nat>, value: StringValue)
      requires offset + 2 < |data|
      modifies this
      ensures next.Err? ==>
        values == old(values) && next.error == ValueOutOfBounds
        && TableFrom(data, high, offset, slot) == Parsed([], Some(ValueOutOfBounds))
      ensures next.Ok? && next.value == offset + 2 ==>
        values == old(values)
        && TableFrom(data, high, offset, slot) == TableFrom(data, high, next.value, slot + 1)
      ensures next.Ok? && next.value != offset + 2 ==>
        offset + 2 < next.value <= |data|
        && values == old(values) + [value]
        && TableFrom(data, high, offset, slot) == Prepend([value], TableFrom(data, high, next.value, slot + 1))
      ensures next.Ok? ==> offset < next.value <= |data|
    {
      value := StringValue(0, TextData([], Utf16LittleEndian));
      var units := U16(data, offset);
      if units == 0 {
        return Ok(offset + 2), value;
      }
      if units > (|data| - (offset + 2)) / 2 {
        return Err(ValueOutOfBounds), value;
      }
      value := StringValue(StringIdentifier(high, slot), SlotText(data, offset + 2, units));
      values := values + [value];
      next := Ok(offset + 2 + 2 * units);
    }

    /** The number of strings read so far. */
    method GetNumberOfStrings() returns (count: nat)
      ensures count == |values|
    {
      count := |values|;
    }

    /** The 32-bit identifier of the string at `index`; an index outside the array is an error. */
    method GetIdentifier(index: int) returns (r: Result<nat>)
      ensures r.Ok? <==> 0 <= index < |values|
      ensures r.Err? ==> r.error == ValueOutOfBounds
      ensures r.Ok? ==> r.value == values[index].identifier
    {
      if !(0 <= index < |values|) {
        return Err(ValueOutOfBounds);
      }
      r := Ok(values[index].identifier);
    }

    /**
     * libwrc_string_table_resource_get_index_by_identifier: `Some(i)` for
     * the first string with the identifier (return value 1), `None` when
     * no string has it (return value 0, index not written).
     */
    method GetIndexByIdentifier(identifier: nat) returns (r: Option<nat>)
      ensures FindStringFrom(values, identifier, 0).Found? ==> r == Some(FindStringFrom(values, identifier, 0).index)
      ensures FindStringFrom(values, identifier, 0).NotFound? ==> r == None
      ensures r.Some? ==> r.value < |values| && values[r.value].identifier == identifier
    {
      var i := 0;
      while i < |values|
        invariant 0 <= i <= |values|
        invariant FindStringFrom(values, identifier, i) == FindStringFrom(values, identifier, 0)
      {
        if values[i].identifier == identifier {
          return Some(i);
        }
        i := i + 1;
      }
      r := None;
    }

    /**
     * The UTF-16LE text the UTF-8 and UTF-16 string getters hand to
     * libfvalue for conversion; an index outside the array is an error.
     */
    method GetText(index: int) returns (r: Result<TextData>)
      ensures r.Ok? <==> 0 <= index < |values|
      ensures r.Err? ==> r.error == ValueOutOfBounds
      ensures r.Ok? ==> r.value == values[index].text
    {
      if !(0 <= index < |values|) {
        return Err(ValueOutOfBounds);
      }
      r := Ok(values[index].text);
    }
  }
}
