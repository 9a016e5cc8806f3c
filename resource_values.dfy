/**
 * libwrc_resource_values: what the library keeps of one resource of the
 * directory tree: its identifier, offset, name, type and data descriptor.
 * Resources are ordered by identifier.
 */
module ResourceValues {
  import opened Bytes

  /** The things libwrc_resource_values_free releases besides the structure itself. */
  datatype Allocation = DataDescriptor | NameString

  datatype ResourceValues = ResourceValues(
    identifier: nat,
    offset: nat,
    name: Option<seq<byte>>,
    kind: int,
    hasDataDescriptor: bool)

  /** libwrc_resource_values_initialize: a zeroed structure. */
  const Initial: ResourceValues := ResourceValues(0, 0, None, 0, false)

  /** libwrc_resource_values_compare: `None` is a NULL argument; values are ordered by identifier only. */
  function Compare(first: Option<ResourceValues>, second: Option<ResourceValues>): (r: Result<Ordering>)
    ensures first.None? || second.None? ==> r == Err(InvalidArgument)
    ensures first.Some? && second.Some? ==> r.Ok?
    ensures r.Ok? ==> (r.value == Less <==> first.value.identifier < second.value.identifier)
    ensures r.Ok? ==> (r.value == Greater <==> first.value.identifier > second.value.identifier)
    ensures r.Ok? ==> (r.value == Equal <==> first.value.identifier == second.value.identifier)
  {
    if first.None? || second.None? then Err(InvalidArgument)
    else Ok(CompareIdentifiers(first.value.identifier, second.value.identifier))
  }

  /** Two freshly initialised values compare equal, and swapping the arguments reverses the order. */
  lemma CompareProperties(first: ResourceValues, second: ResourceValues)
    ensures Compare(Some(Initial), Some(Initial)) == Ok(Equal)
    ensures Compare(Some(first), Some(second)) == Ok(Less) <==> Compare(Some(second), Some(first)) == Ok(Greater)
  {
  }

  /** libwrc_resource_values_get_identifier: `None` is a NULL argument. */
  function GetIdentifier(values: Option<ResourceValues>): (r: Result<nat>)
    ensures values.None? ==> r == Err(InvalidArgument)
    ensures values.Some? ==> r == Ok(values.value.identifier)
  {
    match values
    case None => Err(InvalidArgument)
    case Some(v) => Ok(v.identifier)
  }

  /** libwrc_resource_values_get_type: `None` is a NULL argument. */
  function GetType(values: Option<ResourceValues>): (r: Result<int>)
    ensures values.None? ==> r == Err(InvalidArgument)
    ensures values.Some? ==> r == Ok(values.value.kind)
  {
    match values
    case None => Err(InvalidArgument)
    case Some(v) => Ok(v.kind)
  }

  /** The `libwrc_resource_values_t **` that libwrc_resource_values_free takes. */
  class ResourceValuesReference {
    var values: Option<ResourceValues>

    constructor (values: Option<ResourceValues>)
      ensures this.values == values
    {
      this.values := values;
    }
  }

  /**
   * What freeing releases besides the structure: the data descriptor and
   * the name, each when it is set.
   */
  function Released(v: ResourceValues): (a: seq<Allocation>)
    ensures DataDescriptor in a <==> v.hasDataDescriptor
    ensures NameString in a <==> v.name.Some?
    ensures |a| <= 2
  {
    (if v.hasDataDescriptor then [DataDescriptor] else []) + (if v.name.Some? then [NameString] else [])
  }

  /**
   * libwrc_resource_values_free: a NULL reference is an error; otherwise
   * the values it points to, if any, are released and the pointer is set
   * to NULL.
   */
  method Free(reference: ResourceValuesReference?) returns (r: Result<()>, released: seq<Allocation>)
    modifies reference
    ensures reference == null ==> r == Err(InvalidArgument) && released == []
    ensures reference != null ==> r == Ok(()) && reference.values.None?
    ensures reference != null && old(reference.values).None? ==> released == []
    ensures reference != null && old(reference.values).Some? ==> released == Released(old(reference.values).value)
  {
    if reference == null {
      return Err(InvalidArgument), [];
    }
    released := [];
    if reference.values.Some? {
      released := Released(reference.values.value);
      reference.values := None;
    }
    r := Ok(());
  }
}
