/**
 * The layout of a string-table resource (the Win32 RT_STRING block) and
 * the decodings both string readers carry out over it, stated as
 * functions: a sequence of slots, each a 16-bit length L in UTF-16 code
 * units followed by 2·L bytes of UTF-16LE text. Only non-empty slots
 * yield a value; the slot number counts every slot.
 */
module StringTableLayout {
  import opened Bytes

  /** A decoded string: its identifier and the UTF-16LE text handed to libfvalue. */
  datatype StringValue = StringValue(identifier: nat, text: TextData)

  /** `high - 1` in 32-bit unsigned arithmetic: a base identifier of 0 wraps to 0xFFFFFFFF. */
  function PredecessorUint32(base: nat): (r: nat)
    requires base < 0x1_0000_0000
    ensures r < 0x1_0000_0000
    ensures base > 0 ==> r == base - 1
  {
    if base == 0 then 0xFFFF_FFFF else base - 1
  }

  /**
   * `(high << 4) | slot` on 32-bit unsigned integers: the upper bits of
   * `high` are shifted out, and a slot of 16 or more overlaps them.
   */
  function StringIdentifier(high: nat, slot: nat): nat
  {
    BitOr((16 * high) % 0x1_0000_0000, slot % 0x1_0000_0000)
  }

  /** For the 16 slots of a block, and a `high` that fits in 28 bits, the identifier is `16·high + slot`. */
  lemma StringIdentifierOfSlot(high: nat, slot: nat)
    requires high < 0x1000_0000 && slot < 16
    ensures StringIdentifier(high, slot) == 16 * high + slot
  {
    assert (16 * high) % 0x1_0000_0000 == 16 * high && slot % 0x1_0000_0000 == slot;
    assert Pow2(4) == 16;
    BitOrLowBits(high, slot, 4);
  }

  /** The text of a slot: the 2·L bytes after the length field, as UTF-16LE. */
  function SlotText(data: seq<byte>, start: nat, units: nat): TextData
    requires start + 2 * units <= |data|
  {
    TextData(data[start..start + 2 * units], Utf16LittleEndian)
  }

  /**
   * The slots of the in-memory reader from byte `offset` and slot `slot`
   * on: a slot is read only while more than 2 bytes remain, and a length
   * beyond the bytes left is an error.
   */
  function TableFrom(data: seq<byte>, high: nat, offset: nat, slot: nat): Parsed<StringValue>
    decreases |data| - offset
  {
    if offset + 2 >= |data| then Parsed([], None)
    else
      var units := U16(data, offset);
      var start := offset + 2;
      if units == 0 then TableFrom(data, high, start, slot + 1)
      else if units > (|data| - start) / 2 then Parsed([], Some(ValueOutOfBounds))
      else
        Prepend([StringValue(StringIdentifier(high, slot), SlotText(data, start, units))],
          TableFrom(data, high, start + 2 * units, slot + 1))
  }

  /**
   * libwrc_string_table_resource_read: fewer than 2 bytes or more than the
   * allocation limit is an error; identifiers are built from
   * `base_identifier - 1`.
   */
  function StringTable(data: seq<byte>, baseIdentifier: nat): Parsed<StringValue>
    requires baseIdentifier < 0x1_0000_0000
  {
    if |data| < 2 || |data| > MaxAllocationSize then Parsed([], Some(ValueOutOfBounds))
    else TableFrom(data, PredecessorUint32(baseIdentifier), 0, 0)
  }

  /**
   * The slots of the stream reader from byte `offset` on: a slot is read
   * while any byte remains. A single remaining byte cannot hold a length
   * and is an error here (see the findings).
   */
  function ValuesFrom(data: seq<byte>, high: nat, offset: nat, slot: nat): Parsed<StringValue>
    decreases |data| - offset
  {
    if offset >= |data| then Parsed([], None)
    else if offset + 2 > |data| then Parsed([], Some(ValueOutOfBounds))
    else
      var units := U16(data, offset);
      var start := offset + 2;
      if units == 0 then ValuesFrom(data, high, start, slot + 1)
      else if 2 * units > |data| - start then Parsed([], Some(ValueOutOfBounds))
      else
        Prepend([StringValue(StringIdentifier(high, slot), SlotText(data, start, units))],
          ValuesFrom(data, high, start + 2 * units, slot + 1))
  }

  /**
   * libwrc_string_values_read after the read: a size of 0 or above the
   * allocation limit is an error; `high` is the identifier the caller
   * passes, the string-block identifier minus one.
   */
  function StringValues(data: seq<byte>, high: nat): Parsed<StringValue>
  {
    if |data| == 0 || |data| > MaxAllocationSize then Parsed([], Some(ValueOutOfBounds))
    else ValuesFrom(data, high, 0, 0)
  }

  // ---------------------------------------------------------------------
  // The encoding both decoders invert

  /** A string of UTF-16 code units as bytes: an even number of them, fewer than 2^16 units. */
  predicate IsSlotString(s: seq<byte>)
  {
    |s| % 2 == 0 && |s| < 0x2_0000
  }

  /** One slot: the little-endian unit count, then the bytes. */
  function Slot(s: seq<byte>): (r: seq<byte>)
    requires IsSlotString(s)
    ensures |r| == 2 + |s|
  {
    [((|s| / 2) % 256) as byte, ((|s| / 2) / 256) as byte] + s
  }

  /** A block of slots, one per string, in order. */
  function Encode(strings: seq<seq<byte>>): (r: seq<byte>)
    requires forall k :: 0 <= k < |strings| ==> IsSlotString(strings[k])
    ensures |r| >= 2 * |strings|
  {
    if |strings| == 0 then [] else Slot(strings[0]) + Encode(strings[1..])
  }

  /** The values a block of strings should decode to: one per non-empty string, numbered by slot. */
  function Decoded(strings: seq<seq<byte>>, high: nat, slot: nat): seq<StringValue>
  {
    if |strings| == 0 then []
    else SlotValues(strings[0], high, slot) + Decoded(strings[1..], high, slot + 1)
  }

  /** The value a slot holding `s` should decode to: none for an empty string. */
  function SlotValues(s: seq<byte>, high: nat, slot: nat): seq<StringValue>
  {
    if |s| == 0 then [] else [StringValue(StringIdentifier(high, slot), TextData(s, Utf16LittleEndian))]
  }

  /** The slot at the front of `rest` reads back its unit count and its text. */
  lemma SlotReadsBack(prefix: seq<byte>, s: seq<byte>, rest: seq<byte>)
    requires IsSlotString(s)
    ensures var data := prefix + Slot(s) + rest;
      2 * U16(data, |prefix|) == |s|
      && data[|prefix| + 2..|prefix| + 2 + |s|] == s
  {
    var data := prefix + Slot(s) + rest;
    assert data[|prefix|] == ((|s| / 2) % 256) as byte;
    assert data[|prefix| + 1] == ((|s| / 2) / 256) as byte;
    assert data[|prefix| + 2..|prefix| + 2 + |s|] == s;
  }

  /** One step of the in-memory reader over a slot holding `s`. */
  lemma TableFromSlot(data: seq<byte>, high: nat, offset: nat, slot: nat, s: seq<byte>)
    requires IsSlotString(s) && offset + 2 + |s| <= |data|
    requires 2 * U16(data, offset) == |s| && data[offset + 2..offset + 2 + |s|] == s
    ensures TableFrom(data, high, offset, slot) == Prepend(SlotValues(s, high, slot), TableFrom(data, high, offset + 2 + |s|, slot + 1))
  {
  }

  /** One step of the stream reader over a slot holding `s`. */
  lemma ValuesFromSlot(data: seq<byte>, high: nat, offset: nat, slot: nat, s: seq<byte>)
    requires IsSlotString(s) && offset + 2 + |s| <= |data|
    requires 2 * U16(data, offset) == |s| && data[offset + 2..offset + 2 + |s|] == s
    ensures ValuesFrom(data, high, offset, slot) == Prepend(SlotValues(s, high, slot), ValuesFrom(data, high, offset + 2 + |s|, slot + 1))
  {
  }

  /** `data` holds, from `offset` to its end, one slot per string of `strings`. */
  ghost predicate SlotsAt(data: seq<byte>, offset: nat, strings: seq<seq<byte>>)
    decreases |strings|
  {
    if |strings| == 0 then offset == |data|
    else
      var s := strings[0];
      IsSlotString(s) && offset + 2 + |s| <= |data|
      && 2 * U16(data, offset) == |s| && data[offset + 2..offset + 2 + |s|] == s
      && SlotsAt(data, offset + 2 + |s|, strings[1..])
  }

  /** An encoded block, behind any prefix, holds the slots of its strings. */
  lemma {:induction false} EncodeSlots(prefix: seq<byte>, strings: seq<seq<byte>>)
    requires forall k :: 0 <= k < |strings| ==> IsSlotString(strings[k])
    ensures SlotsAt(prefix + Encode(strings), |prefix|, strings)
    decreases |strings|
  {
    if |strings| == 0 {
      assert prefix + Encode(strings) == prefix;
    } else {
      var s := strings[0];
      var rest := Encode(strings[1..]);
      assert Encode(strings) == Slot(s) + rest;
      ConcatAssociative(prefix, Slot(s), rest);
      SlotReadsBack(prefix, s, rest);
      EncodeSlots(prefix + Slot(s), strings[1..]);
    }
  }

  /** Over slots holding `strings`, the in-memory reader yields the values they should decode to. */
  lemma {:induction false} TableFromSlots(data: seq<byte>, offset: nat, strings: seq<seq<byte>>, high: nat, slot: nat)
    requires SlotsAt(data, offset, strings)
    ensures TableFrom(data, high, offset, slot) == Parsed(Decoded(strings, high, slot), None)
    decreases |strings|
  {
    if |strings| > 0 {
      var s := strings[0];
      TableFromSlot(data, high, offset, slot, s);
      TableFromSlots(data, offset + 2 + |s|, strings[1..], high, slot + 1);
      assert Decoded(strings, high, slot) == SlotValues(s, high, slot) + Decoded(strings[1..], high, slot + 1);
    }
  }

  /** Over slots holding `strings`, the stream reader yields the values they should decode to. */
  lemma {:induction false} ValuesFromSlots(data: seq<byte>, offset: nat, strings: seq<seq<byte>>, high: nat, slot: nat)
    requires SlotsAt(data, offset, strings)
    ensures ValuesFrom(data, high, offset, slot) == Parsed(Decoded(strings, high, slot), None)
    decreases |strings|
  {
    if |strings| > 0 {
      var s := strings[0];
      ValuesFromSlot(data, high, offset, slot, s);
      ValuesFromSlots(data, offset + 2 + |s|, strings[1..], high, slot + 1);
      assert Decoded(strings, high, slot) == SlotValues(s, high, slot) + Decoded(strings[1..], high, slot + 1);
    }
  }

  /** Any block of strings the resource can hold decodes, in memory, to its non-empty strings. */
  lemma StringTableRoundTrip(strings: seq<seq<byte>>, baseIdentifier: nat)
    requires forall k :: 0 <= k < |strings| ==> IsSlotString(strings[k])
    requires |strings| >= 1 && |Encode(strings)| <= MaxAllocationSize && baseIdentifier < 0x1_0000_0000
    ensures StringTable(Encode(strings), baseIdentifier)
      == Parsed(Decoded(strings, PredecessorUint32(baseIdentifier), 0), None)
  {
    EncodeSlots([], strings);
    assert [] + Encode(strings) == Encode(strings);
    TableFromSlots(Encode(strings), 0, strings, PredecessorUint32(baseIdentifier), 0);
  }

  /** Any non-empty block of strings decodes, from the stream, to its non-empty strings. */
  lemma StringValuesRoundTrip(strings: seq<seq<byte>>, high: nat)
    requires forall k :: 0 <= k < |strings| ==> IsSlotString(strings[k])
    requires |strings| >= 1 && |Encode(strings)| <= MaxAllocationSize
    ensures StringValues(Encode(strings), high) == Parsed(Decoded(strings, high, 0), None)
  {
    EncodeSlots([], strings);
    assert [] + Encode(strings) == Encode(strings);
    ValuesFromSlots(Encode(strings), 0, strings, high, 0);
  }

  /** A decoded value is `2·L` bytes of UTF-16LE text with `L > 0`. */
  ghost predicate WellFormedValues(values: seq<StringValue>)
  {
    forall k :: 0 <= k < |values| ==>
      values[k].text.encoding == Utf16LittleEndian
      && |values[k].text.bytes| > 0 && |values[k].text.bytes| % 2 == 0
  }

  /** Every value of the in-memory reader is well formed, whatever the data. */
  lemma {:induction false} TableFromWellFormed(data: seq<byte>, high: nat, offset: nat, slot: nat)
    ensures WellFormedValues(TableFrom(data, high, offset, slot).items)
    decreases |data| - offset
  {
    if offset + 2 < |data| {
      var units := U16(data, offset);
      if units == 0 {
        TableFromWellFormed(data, high, offset + 2, slot + 1);
      } else if units <= (|data| - offset - 2) / 2 {
        TableFromWellFormed(data, high, offset + 2 + 2 * units, slot + 1);
      }
    }
  }

  /** Every value of the stream reader is well formed, whatever the data. */
  lemma {:induction false} ValuesFromWellFormed(data: seq<byte>, high: nat, offset: nat, slot: nat)
    ensures WellFormedValues(ValuesFrom(data, high, offset, slot).items)
    decreases |data| - offset
  {
    if offset + 2 <= |data| {
      var units := U16(data, offset);
      if units == 0 {
        ValuesFromWellFormed(data, high, offset + 2, slot + 1);
      } else if 2 * units <= |data| - offset - 2 {
        ValuesFromWellFormed(data, high, offset + 2 + 2 * units, slot + 1);
      }
    }
  }
}
