/**
 * libwrc_language_table: the language entries of one resource, kept in an
 * append-only array and searched front to back by language identifier.
 */
module LanguageTables {
  import opened Bytes
  import opened LanguageEntries

  /** The search of libwrc_language_table_get_entry_by_identifier, from position `i` on. */
  function FindFrom<V>(entries: seq<LanguageEntry?<V>>, identifier: nat, i: nat): (l: Lookup)
    ensures l.Found? ==>
      i <= l.index < |entries| && entries[l.index] != null && entries[l.index].identifier == identifier
    ensures l.NullEntry? ==> i <= l.index < |entries| && entries[l.index] == null
    decreases |entries| - i
  {
    if i >= |entries| then NotFound
    else if entries[i] == null then NullEntry(i)
    else if entries[i].identifier == identifier then Found(i)
    else FindFrom(entries, identifier, i + 1)
  }

  function Find<V>(entries: seq<LanguageEntry?<V>>, identifier: nat): (l: Lookup)
    ensures l.Found? ==>
      l.index < |entries| && entries[l.index] != null && entries[l.index].identifier == identifier
    ensures l.NullEntry? ==> l.index < |entries| && entries[l.index] == null
  {
    FindFrom(entries, identifier, 0)
  }

  /** Every entry in `entries[lo..hi]` is present and carries another identifier. */
  ghost predicate NoMatchBetween<V>(entries: seq<LanguageEntry?<V>>, identifier: nat, lo: nat, hi: nat)
    requires lo <= hi <= |entries|
  {
    forall j :: lo <= j < hi ==> entries[j] != null && entries[j].identifier != identifier
  }

  /**
   * What the search answers: the entry found is the first with the
   * identifier, the NULL entry reported is met before any match, and "not
   * found" means every entry is present and carries another identifier.
   */
  lemma {:induction false} FindFromMeaning<V>(entries: seq<LanguageEntry?<V>>, identifier: nat, i: nat)
    requires i <= |entries|
    ensures FindFrom(entries, identifier, i).Found? ==>
      NoMatchBetween(entries, identifier, i, FindFrom(entries, identifier, i).index)
    ensures FindFrom(entries, identifier, i).NullEntry? ==>
      NoMatchBetween(entries, identifier, i, FindFrom(entries, identifier, i).index)
    ensures FindFrom(entries, identifier, i).NotFound? <==> NoMatchBetween(entries, identifier, i, |entries|)
    decreases |entries| - i
  {
    if i < |entries| && entries[i] != null && entries[i].identifier != identifier {
      FindFromMeaning(entries, identifier, i + 1);
    }
  }

  /**
   * Appending an entry never changes an answer already reached in the
   * table; only a table without a match can find the new entry.
   */
  lemma {:induction false} FindFromAppend<V>(entries: seq<LanguageEntry?<V>>, entry: LanguageEntry?<V>, identifier: nat, i: nat)
    requires i <= |entries|
    ensures FindFrom(entries, identifier, i) != NotFound ==>
      FindFrom(entries + [entry], identifier, i) == FindFrom(entries, identifier, i)
    ensures FindFrom(entries, identifier, i) == NotFound ==>
      FindFrom(entries + [entry], identifier, i) ==
        if entry == null then NullEntry(|entries|)
        else if entry.identifier == identifier then Found(|entries|)
        else NotFound
    decreases |entries| - i
  {
    var extended := entries + [entry];
    if i < |entries| {
      assert extended[i] == entries[i];
      if entries[i] != null && entries[i].identifier != identifier {
        FindFromAppend(entries, entry, identifier, i + 1);
      }
    } else {
      assert extended[i] == entry;
      assert FindFrom(extended, identifier, i + 1) == NotFound;
    }
  }

  class LanguageTable<V> {
    /** The entries array; libcdata arrays may hold NULL entries. */
    var entries: seq<LanguageEntry?<V>>

    /** libwrc_language_table_initialize: a table without entries. */
    constructor ()
      ensures entries == []
    {
      entries := [];
    }

    method GetNumberOfEntries() returns (count: nat)
      ensures count == |entries|
    {
      count := |entries|;
    }

    /** Appends an entry, which may be NULL, without looking for duplicates. */
    method AppendEntry(entry: LanguageEntry?<V>) returns (index: nat)
      modifies this
      ensures entries == old(entries) + [entry]
      ensures index == |old(entries)|
    {
      index := |entries|;
      entries := entries + [entry];
    }

    /** The language identifier of the entry at `index`. */
    method GetIdentifier(index: int) returns (r: Result<nat>)
      ensures !(0 <= index < |entries|) ==> r == Err(ValueOutOfBounds)
      ensures 0 <= index < |entries| && entries[index] == null ==> r == Err(ValueMissing)
      ensures r.Ok? <==> 0 <= index < |entries| && entries[index] != null
      ensures r.Ok? ==> r.value == entries[index].identifier
    {
      if !(0 <= index < |entries|) {
        return Err(ValueOutOfBounds);
      }
      var entry := entries[index];
      if entry == null {
        return Err(ValueMissing);
      }
      r := Ok(entry.identifier);
    }

    /**
     * libwrc_language_table_get_entry_by_identifier: `Ok(Some(e))` for the
     * return value 1, `Ok(None)` for 0 (no entry has the identifier), an
     * error when a NULL entry is met first.
     */
    method GetEntryByIdentifier(identifier: nat) returns (r: Result<Option<LanguageEntry<V>>>)
      ensures Find(entries, identifier).Found? ==> r == Ok(Some(entries[Find(entries, identifier).index]))
      ensures Find(entries, identifier).NotFound? ==> r == Ok(None)
      ensures Find(entries, identifier).NullEntry? ==> r == Err(ValueMissing)
      ensures r.Ok? && r.value.Some? ==> r.value.value.identifier == identifier
    {
      var i := 0;
      while i < |entries|
        invariant 0 <= i <= |entries|
        invariant FindFrom(entries, identifier, i) == Find(entries, identifier)
      {
        var entry := entries[i];
        if entry == null {
          return Err(ValueMissing);
        }
        if entry.identifier == identifier {
          return Ok(Some(entry));
        }
        i := i + 1;
      }
      r := Ok(None);
    }

    /** The number of values of the entry with the language identifier; a missing language is an error. */
    method GetNumberOfValues(identifier: nat) returns (r: Result<nat>)
      ensures !Find(entries, identifier).Found? ==> r.Err?
      ensures Find(entries, identifier).Found? ==>
        r == Ok(|entries[Find(entries, identifier).index].values|)
    {
      var lookup := GetEntryByIdentifier(identifier);
      if lookup.Err? || lookup.value.None? {
        return Err(ValueMissing);
      }
      var count := lookup.value.value.GetNumberOfValues();
      r := Ok(count);
    }

    /**
     * The language grouping of libwrc_resource_read_value for one language
     * of a resource: a string resource (`reuse`) takes the entry that
     * already has the language identifier, if there is one; otherwise, and
     * for every other kind of resource, a new entry is created. `read` says
     * whether reading the resource values into that entry succeeds; only
     * then is a new entry appended to the table. The values the reader
     * appends to the entry are not part of this method.
     */
    method EntryForLanguage(identifier: nat, reuse: bool, freeFunction: FreeFunction, read: bool)
      returns (r: Result<LanguageEntry<V>>)
      modifies this
      ensures reuse && Find(old(entries), identifier).NullEntry? ==> r == Err(ValueMissing)
      ensures !(reuse && Find(old(entries), identifier).NullEntry?) && !read ==> r == Err(ReadFailed)
      ensures reuse && Find(old(entries), identifier).Found? && read ==>
        r.Ok? && r.value == old(entries)[Find(old(entries), identifier).index]
      ensures (!reuse || Find(old(entries), identifier).NotFound?) && read ==>
        r.Ok? && fresh(r.value) && r.value.values == [] && r.value.freeFunction == freeFunction
      ensures r.Ok? ==> r.value.identifier == identifier
      ensures r.Ok? && fresh(r.value) ==> entries == old(entries) + [r.value]
      ensures !(r.Ok? && fresh(r.value)) ==> entries == old(entries)
    {
      var existing: LanguageEntry?<V> := null;
      if reuse {
        var lookup := GetEntryByIdentifier(identifier);
        if lookup.Err? {
          return Err(lookup.error);
        }
        if lookup.value.Some? {
          existing := lookup.value.value;
        }
      }
      var entry: LanguageEntry<V>;
      if existing != null {
        entry := existing;
      } else {
        entry := new LanguageEntry(identifier, freeFunction);
      }
      if !read {
        // on_error: a new entry is freed, not appended
        return Err(ReadFailed);
      }
      if entry != existing {
        var _ := AppendEntry(entry);
      }
      r := Ok(entry);
    }
  }
}
