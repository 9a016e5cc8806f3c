/**
 * libwrc_language_entry: the values of one resource for one language
 * identifier, kept in an append-only array, together with the function
 * that releases a value.
 */
module LanguageEntries {
  import opened Bytes

  /** The value free function of an entry, named by the C function it points to. */
  datatype FreeFunction = FreeFunction(name: string)

  class LanguageEntry<V> {
    /** The language identifier (LCID) the values belong to. */
    const identifier: nat
    /** The function that releases a value when the entry is freed. */
    const freeFunction: FreeFunction
    /** The values array, in append order. */
    var values: seq<V>

    constructor (identifier: nat, freeFunction: FreeFunction)
      ensures this.identifier == identifier && this.freeFunction == freeFunction
      ensures values == []
    {
      this.identifier := identifier;
      this.freeFunction := freeFunction;
      values := [];
    }

    /** Appends a value at the end of the array and reports the index it got. */
    method AppendValue(value: V) returns (index: nat)
      modifies this
      ensures values == old(values) + [value]
      ensures index == |old(values)| && values[index] == value
    {
      index := |values|;
      values := values + [value];
    }

    /** The number of values appended so far. */
    method GetNumberOfValues() returns (count: nat)
      ensures count == |values|
    {
      count := |values|;
    }

    /** The value at `index`; an index outside the array is an error. */
    method GetValueByIndex(index: int) returns (r: Result<V>)
      ensures 0 <= index < |values| ==> r == Ok(values[index])
      ensures !(0 <= index < |values|) ==> r == Err(ValueOutOfBounds)
    {
      if 0 <= index < |values| {
        r := Ok(values[index]);
      } else {
        r := Err(ValueOutOfBounds);
      }
    }

    /**
     * Frees the values array: every value is handed, in array order, to the
     * entry's free function; the entry holds no value afterwards.
     */
    method Free() returns (released: seq<V>)
      modifies this
      ensures released == old(values)
      ensures values == []
    {
      released := values;
      values := [];
    }
  }

  /**
   * libwrc_language_entry_initialize: fails when the target already holds an
   * entry or when no free function is given; otherwise a new entry with the
   * language identifier and an empty values array.
   */
  method Initialize<V>(existing: LanguageEntry?<V>, identifier: nat, freeFunction: Option<FreeFunction>)
    returns (r: Result<LanguageEntry<V>>)
    ensures existing != null ==> r == Err(AlreadySet)
    ensures existing == null && freeFunction.None? ==> r == Err(InvalidArgument)
    ensures r.Ok? <==> existing == null && freeFunction.Some?
    ensures r.Ok? ==> fresh(r.value) && r.value.values == []
    ensures r.Ok? ==> r.value.identifier == identifier && Some(r.value.freeFunction) == freeFunction
  {
    if existing != null {
      return Err(AlreadySet);
    }
    if freeFunction.None? {
      return Err(InvalidArgument);
    }
    var entry := new LanguageEntry(identifier, freeFunction.value);
    r := Ok(entry);
  }
}
