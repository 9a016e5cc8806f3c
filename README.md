# libwrc resource decoders, modelled in Dafny

This project models the core of libwrc, the library that reads the Windows
resources of a PE/COFF `.rsrc` section. It models:

- the decoders that turn the payload of one resource into values:
  message tables (MESSAGE_RESOURCE_DATA), string-table blocks (RT_STRING),
  manifests, MUI resources and VERSIONINFO resources;
- both readers of each payload: the in-memory `*_resource_read` and the
  per-language `*_values_read`;
- the records of the resource directory (IMAGE_RESOURCE_DIRECTORY and
  IMAGE_RESOURCE_DIRECTORY_ENTRY, section 6.9 ".rsrc Section" of the
  Microsoft PE/COFF specification);
- the containers the decoders fill (language entries and language tables)
  and the set-once table entry;
- the configuration and open/close state of a stream.

The shape of the model:

- **Decoding functions.** Each decoder is a function on `seq<byte>` in a
  `*Layout` module. It returns the values the C reader appends and the
  error it stops with (`Parsed`). Values appended before an error stay
  appended, as in the C code.
- **Imperative readers.** The C readers are methods of classes whose fields
  are the C structure's fields. Their loops carry the invariants that tie
  each step to the decoding function, and their `ensures` give the new
  state in terms of that function.
- **Properties.** Lemmas beside each function state what the source
  promises: round trips, counts, identifier numbering, first-match
  lookups, trimming, the agreement of the two readers of a payload and the
  library's own test vectors.
- **External libraries.** Text conversion by libuna, libfvalue and
  libclocale is represented by the bytes and the encoding handed to it
  (`TextData`).
- **File reads.** A read through libbfio is a parameter: the bytes it
  delivered, or the outcome it reports.

The files, one module each:

- `bytes.dfy`: bytes, little-endian readers, results, encodings and the
  allocation limit.
- `message_table_layout.dfy`, `message_table_resource.dfy`,
  `message_table_values.dfy` and `message_table_sample.dfy`: message tables.
- `string_table_layout.dfy`, `string_table_resource.dfy`,
  `string_values.dfy` and `string_table_sample.dfy`: string tables.
- `manifest_resource.dfy`: manifests.
- `mui_layout.dfy`, `mui_resource.dfy`, `mui_values.dfy` and
  `mui_sample.dfy`: MUI resources.
- `version_layout.dfy`, `version_walkers.dfy`,
  `version_information_resource.dfy`, `version_values.dfy` and
  `version_sample.dfy`: VERSIONINFO resources.
- `resource_node_header.dfy`, `resource_node_entry.dfy` and
  `resource_values.dfy`: the directory records.
- `language_entry.dfy`, `language_table.dfy` and `table_entry.dfy`: the
  containers and the table entry.
- `stream.dfy`: the stream.
- `*_findings.dfy`: the departures listed under "Findings".

Where a check's input is bytes, the model follows the C code:

- the same checks, in the same order;
- an error of the matching kind (`Error`), a coarser classification than
  libcerror's domains and codes (see "Left out");
- 16-bit storage of the message block count;
- 32-bit identifier arithmetic.

The model departs from the code in three ways:

- **Corrected checks.** "Findings" lists where the code reads past its
  buffer, lets a 32-bit identifier wrap so a loop never ends, or makes a
  check that can never fire. In each case the model uses the corrected
  check. On those inputs the model gives an error, or a bounded result,
  where the code accepts the input, reads out of bounds or loops.
- **The version values reader's key check.** The model checks the key
  the way the resource reader does, not through libfvalue (see
  "Left out").
- **Open errors.** The stream's open reports every inner error as
  `OpenFailed`.

## Model

| member | source | states |
|---|---|---|
| Bytes.CompareIdentifiers | libwrc/libwrc_resource_node_entry.c:523-531 | Less, Greater and Equal each hold exactly when the first identifier is below, above or equal to the second |
| Bytes.U32OfLE32 | libwrc/libwrc_resource_node_entry.c:219-225 | reading four little-endian bytes back at any offset gives the 32-bit value written |
| Bytes.ToUint16 | libwrc/libwrc_message_table_resource.c:249-251 | assignment to `uint16_t` keeps a value below 2^16 unchanged and otherwise differs by a multiple of 2^16 |
| Bytes.BitOrLowBits | libwrc/libwrc_string_table_resource.c:258 | OR-ing a value below 2^k into a multiple of 2^k adds it, so `(high << 4) \| slot` is `16·high + slot` |
| Bytes.AddUint32 | libwrc/libwrc_mui_resource.c:630-654 | 32-bit unsigned addition equals the sum when that fits, and is smaller than the first operand when it wraps |
| MessageTableLayout.ByteStreamKeptMeaning | libwrc/libwrc_message_table_resource.c:465-479 | byte-stream trimming strips only zero bytes and keeps at least one byte, and the last byte kept is non-zero unless it is the only one |
| MessageTableLayout.Utf16KeptMeaning | libwrc/libwrc_message_table_resource.c:480-495 | UTF-16 trimming strips whole zero byte pairs from the end and keeps at least one unit, and the last pair kept is non-zero |
| MessageTableLayout.DescriptorsFitByCount | libwrc/libwrc_message_table_resource.c:267-277 | the count check `count > (size - 4) / 12` admits only counts whose descriptors all lie in the data |
| MessageTableLayout.BlockCount | libwrc/libwrc_message_table_resource.c:195 | the block count is the 32-bit little-endian value at 0 stored in a 16-bit variable, so it is below 2^16 |
| MessageTableLayout.MessageTableBlocks | libwrc/libwrc_message_table_resource.c:225-278 | a resource of 4 bytes up to the allocation limit whose count passes the check decodes as its blocks in descriptor order |
| MessageTableLayout.BlockFromCount | libwrc/libwrc_message_table_resource.c:330-568 | a block that decodes without error yields exactly `last - first + 1` values |
| MessageTableLayout.BlockFromIdentifiers | libwrc/libwrc_message_table_resource.c:396-450 | the k-th value of a block carries identifier `first + k` |
| MessageTableLayout.BlocksFromCount | libwrc/libwrc_message_table_resource.c:278-571 | a read that succeeds yields the sum over the descriptors of `last - first + 1` values |
| MessageTableLayout.MessageTableCount | libwrc/libwrc_message_table_resource.c:278-571 | a whole resource that decodes without error holds one value per identifier its descriptors declare |
| MessageTableLayout.InvertedBlockFails | libwrc/libwrc_message_table_resource.c:332-342 | any descriptor whose first identifier exceeds its last makes the read fail |
| MessageTableLayout.BlockFromWithoutLowerBound | libwrc/libwrc_message_table_values.c:266-276 | a block read with the resource reader's lower bound reads the same without it |
| MessageTableLayout.BlocksFromWithoutLowerBound | libwrc/libwrc_message_table_values.c:264-489 | blocks that pass with the lower bound give the same values without it |
| MessageTableLayout.MessageTableWithoutLowerBound | libwrc/libwrc_message_table_values.c:41-509 | a resource that the in-memory reader reads without error is read alike by the values reader |
| MessageTableResource.TrimByteStream | libwrc/libwrc_message_table_resource.c:465-479 | the trimming loop keeps the number of bytes `ByteStreamKept` gives |
| MessageTableResource.TrimUtf16 | libwrc/libwrc_message_table_resource.c:480-495 | the trimming loop keeps the number of bytes `Utf16Kept` gives |
| MessageTableResource.ReadEntry | libwrc/libwrc_message_table_resource.c:372-500 | reading an entry gives its size field and, for more than 4 bytes, the trimmed text under the codepage or UTF-16LE that flag bit 0 selects |
| MessageTableResource.FindMessageFromMeaning | libwrc/libwrc_message_table_resource.c:780-849 | the search finds the first message with the identifier, reports a NULL value met before it, and reports "none" exactly when no message has it |
| MessageTableResource.MessageTableResource.Read | libwrc/libwrc_message_table_resource.c:177-581 | NULL data is InvalidArgument with nothing appended; otherwise the values array gets the decoded values of the resource appended, and the status is that of the decoding |
| MessageTableResource.MessageTableResource.ReadBlock | libwrc/libwrc_message_table_resource.c:345-568 | the per-identifier loop appends the values of the block numbered `first` to `last`, entries packed one after the other, and returns the block's status |
| MessageTableResource.MessageTableResource.GetNumberOfMessages | libwrc/libwrc_message_table_resource.c:586-622 | the count is the number of values read |
| MessageTableResource.MessageTableResource.GetIdentifier | libwrc/libwrc_message_table_resource.c:627-722 | an index out of range is ValueOutOfBounds and a NULL value is ValueMissing; otherwise the identifier of the value |
| MessageTableResource.MessageTableResource.GetIndexByIdentifier | libwrc/libwrc_message_table_resource.c:727-850 | the first index with the identifier, "none" (return 0) when no value has it, an error at a NULL value met first |
| MessageTableResource.MessageTableResource.GetText | libwrc/libwrc_message_table_resource.c:855-1098 | the string getters convert exactly the stored text of the message at the index, with the errors of GetIdentifier |
| MessageTableSample.SampleDescriptors | tests/wrc_test_message_table_resource.c:38-46 | the test resource holds two blocks: identifiers 1 to 2 at offset 28, and 0x3e8 at offset 84 |
| MessageTableSample.SampleDecodes | tests/wrc_test_message_table_resource.c:464-467 | the test resource decodes to 3 messages, with index 2 holding identifier 0x3e8 and each text trimmed of its trailing zeros |
| MessageTableValues.Read | libwrc/libwrc_message_table_values.c:41-509 | a size of 0 or over the limit and a short read fail without appending; otherwise the decoded values of the resource, without lower bound, are appended and the status is the decoding's |
| MessageTableValues.ReadBlock | libwrc/libwrc_message_table_values.c:264-489 | the per-identifier loop appends the block's values to the language entry and returns its status |
| MessageTableValues.DescriptorChecksAgree | libwrc/libwrc_message_table_values.c:182-198 | the check `count * 12 > remaining` refuses exactly the counts the in-memory reader refuses |
| StringTableLayout.PredecessorUint32 | libwrc/libwrc_string_table_resource.c:258 | `base_identifier - 1` in 32 bits is the predecessor of a non-zero base and stays below 2^32 |
| StringTableLayout.StringIdentifierOfSlot | libwrc/libwrc_string_table_resource.c:258 | the identifier of slot `slot` is `16·high + slot` for the 16 slots of a block |
| StringTableLayout.StringTableRoundTrip | libwrc/libwrc_string_table_resource.c:174-401 | any block of slots written out decodes in memory to one value per non-empty string, numbered by slot from `base - 1` |
| StringTableLayout.StringValuesRoundTrip | libwrc/libwrc_string_values.c:39-328 | any block of slots written out decodes from the stream to one value per non-empty string, numbered by slot |
| StringTableLayout.TableFromWellFormed | libwrc/libwrc_string_table_resource.c:316-332 | every value the in-memory reader yields has a non-empty even number of bytes, whatever the data |
| StringTableLayout.ValuesFromWellFormed | libwrc/libwrc_string_values.c:235-297 | every value the stream reader yields has a non-empty even number of bytes, whatever the data |
| StringTableResource.FindStringFromMeaning | libwrc/libwrc_string_table_resource.c:600-669 | the search finds the first string with the identifier and reports "none" exactly when no string has it |
| StringTableResource.StringTableResource.Read | libwrc/libwrc_string_table_resource.c:174-401 | NULL data is InvalidArgument with nothing appended; otherwise the values array gets the decoded strings of the block appended, and the status is that of the decoding |
| StringTableResource.StringTableResource.ReadSlot | libwrc/libwrc_string_table_resource.c:245-390 | one slot: a length beyond the bytes left is an error, an empty slot appends nothing, any other appends its value, and the next offset is past the text |
| StringTableResource.StringTableResource.GetNumberOfStrings | libwrc/libwrc_string_table_resource.c:406-442 | the count is the number of strings read |
| StringTableResource.StringTableResource.GetIdentifier | libwrc/libwrc_string_table_resource.c:447-542 | an index out of range is ValueOutOfBounds; otherwise the identifier of the string |
| StringTableResource.StringTableResource.GetIndexByIdentifier | libwrc/libwrc_string_table_resource.c:547-670 | the first index with the identifier, or "none" (return 0, index not written) |
| StringTableResource.StringTableResource.GetText | libwrc/libwrc_string_table_resource.c:675-918 | the string getters convert exactly the stored UTF-16LE bytes of the string at the index |
| StringTableSample.SampleDecodes | tests/wrc_test_string_table_resource.c:38-42 | the test block read with base 63 yields one string, identifier 0x3e8, holding "My string"; 0x3e8 is found at index 0 and 0x1234 is not found |
| StringValues.Read | libwrc/libwrc_string_values.c:39-328 | a size of 0 or over the limit and a short read fail without appending; otherwise the decoded strings are appended and the status is the decoding's |
| ManifestResource.ManifestResource.Read | libwrc/libwrc_manifest_resource.c:146-257 | set-once: a held string is AlreadySet, NULL data InvalidArgument, a size of 0 or over the limit ValueOutOfBounds; on success the bytes and their size are stored, and a failed copy leaves NULL and size 0 |
| ManifestResource.ManifestResource.GetText | libwrc/libwrc_manifest_resource.c:262-429 | the getters convert exactly the stored bytes as UTF-8, and have nothing to convert while no string is held |
| MuiLayout.NameField | libwrc/libwrc_mui_resource.c:432-499 | a non-empty name pair yields exactly its bytes and only when its offset lies in [0x84, size) and its size fits; an empty pair means no name |
| MuiLayout.IdentifiersCheck | libwrc/libwrc_mui_resource.c:630-654 | an identifier-types pair passes exactly when it is empty or its region lies in [0x84, size) |
| MuiLayout.MuiDecodeMeaning | libwrc/libwrc_mui_resource.c:258-1060 | a successful decoding has a signed header, the file type from byte 16, and each name the exact bytes its pair names, with the identifier regions inside the data |
| MuiLayout.LanguageIsFallbackLanguage | libwrc/libwrc_mui_resource.c:950-1060 | the language and the fallback language of a decoded resource are always the same, both from the sixth pair |
| MuiLayout.FifthPairIgnored | libwrc/libwrc_mui_resource.c:939-991 | two resources that differ only in the fifth pair decode alike |
| MuiResource.NameText | libwrc/libwrc_mui_resource.c:1434-1470 | a name getter has text exactly for a present non-empty name, and converts its bytes as UTF-16LE |
| MuiResource.MuiResource.Read | libwrc/libwrc_mui_resource.c:170-1389 | a held name refuses the read; then NULL data is InvalidArgument with nothing changed; a short header is an error; on success the record is the decoding; on failure every name is freed, and the file type stays once the signature matched |
| MuiResource.MuiResource.FreeNames | libwrc/libwrc_mui_resource.c:1352-1386 | the error path frees all four name buffers and keeps the file type |
| MuiResource.MuiResource.GetFileType | libwrc/libwrc_mui_resource.c:1394-1429 | the file type stored by the read |
| MuiResource.MuiResource.GetMainName | libwrc/libwrc_mui_resource.c:1434-1695 | the main-name getters convert the main name, or report "not available" |
| MuiResource.MuiResource.GetMuiName | libwrc/libwrc_mui_resource.c:1696-1957 | the MUI-name getters convert the MUI name, or report "not available" |
| MuiResource.MuiResource.GetLanguage | libwrc/libwrc_mui_resource.c:1958-2219 | the language getters convert the language, or report "not available" |
| MuiResource.MuiResource.GetFallbackLanguage | libwrc/libwrc_mui_resource.c:2220-2477 | the fallback-language getters convert the fallback language, or report "not available" |
| MuiSample.SampleDecodes | tests/wrc_test_mui_resource.c:38-53 | the test resource decodes to file type 17, the main name at 0x88, the MUI name at 0xc0 and "en-US" as both languages |
| MuiValues.Read | libwrc/libwrc_mui_values.c:171-1346 | a size of 0 or over the limit, a short read and a failed decoding append nothing; a successful decoding appends exactly its record |
| MuiValues.GetFileType | libwrc/libwrc_mui_values.c:1351-1383 | the file type of the record |
| VersionLayout.ScanEndMeaning | libwrc/libwrc_version_information_resource.c:1513-1557 | the key scan passes no 00 00 unit and stops after the first one, or at the end of the data |
| VersionLayout.ScanFindsTerminator | libwrc/libwrc_version_information_resource.c:1518-1557 | a scan over non-zero units up to a 00 00 unit ends just past it |
| VersionLayout.KeyAcceptedMeaning | libwrc/libwrc_version_information_resource.c:1513-1580 | the key check accepts exactly the resources holding "VS_VERSION_INFO\0" at byte 6 with data after it |
| VersionLayout.ComposeVersionSplits | libwrc/libwrc_version_information_resource.c:1637-1657 | `(high << 32) \| low` is `high·2^32 + low`, fits in 64 bits and splits back into its halves |
| VersionLayout.Align | libwrc/libwrc_version_information_resource.c:1581-1609 | alignment lands on the next multiple of 4, and fails exactly when checked and the padding exceeds the bytes left |
| VersionLayout.Padding | libwrc/libwrc_version_information_resource.c:1581-1583 | the padding is below 4, brings the offset to a multiple of 4, and is 0 exactly for an aligned offset |
| VersionLayout.BlockSize | libwrc/libwrc_version_information_resource.c:201-253 | a block needs two bytes at its start, and a non-zero size must be at least 8 and fit in the rest; both directions |
| VersionLayout.LeafBlock | libwrc/libwrc_version_information_resource.c:686-934 | read_string and read_variable return the declared size, and fail with the size check's error |
| VersionLayout.VersionDecode | libwrc/libwrc_version_information_resource.c:1412-1846 | a read without error has the key; the versions, when present, come from a fixed information of at least 52 bytes inside the resource, present exactly when the value data size is not zero |
| VersionLayout.VersionDecodeUnchecked | libwrc/libwrc_version_values.c:151-695 | a resource read without error by the checked walkers reads the same, with the same versions, by the unchecked ones |
| VersionWalkers.ScanString | libwrc/libwrc_version_information_resource.c:1518-1557 | the scan loop ends where `ScanEnd` says |
| VersionWalkers.ReadKey | libwrc/libwrc_version_information_resource.c:283-320 | a block's key scan and alignment end where `Align` of `ScanEnd` says |
| VersionWalkers.ReadLeafBlock | libwrc/libwrc_version_information_resource.c:686-934 | read_string and read_variable return what `LeafBlock` says |
| VersionWalkers.ReadStringTableChildren | libwrc/libwrc_version_information_resource.c:595-656 | the String-children loop ends as `StringTableChildren` says |
| VersionWalkers.ReadStringTable | libwrc/libwrc_version_information_resource.c:389-681 | read_string_table returns what `StringTableBlock` says |
| VersionWalkers.ReadStringFileInformation | libwrc/libwrc_version_information_resource.c:149-384 | read_string_file_information returns what `StringFileInfoBlock` says |
| VersionWalkers.ReadVariableChildren | libwrc/libwrc_version_information_resource.c:1135-1160 | the Var-children loop ends as `VarFileInfoChildren` says |
| VersionWalkers.ReadVariableFileInformation | libwrc/libwrc_version_information_resource.c:939-1182 | read_variable_file_information returns what `VarFileInfoBlock` says |
| VersionWalkers.ReadVersion | libwrc/libwrc_version_information_resource.c:1412-1846 | the whole walk yields the versions and status `VersionDecode` says |
| VersionInformationResource.VersionInformationResource.Read | libwrc/libwrc_version_information_resource.c:1412-1846 | NULL data is InvalidArgument with the versions unchanged; otherwise the status is the checked decoding's, the versions are stored when the fixed information was read, and are otherwise unchanged |
| VersionInformationResource.VersionInformationResource.GetFileVersion | libwrc/libwrc_version_information_resource.c:1851-1886 | the stored file version |
| VersionInformationResource.VersionInformationResource.GetProductVersion | libwrc/libwrc_version_information_resource.c:1891-1926 | the stored product version |
| VersionSample.SampleVersions | tests/wrc_test_version_information_resource.c:38-86 | any resource starting with the test resource's head has its key accepted and file and product versions 0x1000000000000 (1.0.0.0) |
| VersionValues.Read | libwrc/libwrc_version_values.c:151-695 | a size of 0 or over the limit and a short read fail; otherwise the status is the unchecked decoding's, and only a read without error appends exactly one object |
| VersionValues.HeaderAndKeyOnlyRefused | libwrc/libwrc_version_values.c:332-392 | a 38-byte resource holding exactly the value header and the key is refused as an unsupported signature, since the resource reader's scan needs a byte after the key |
| VersionValues.GetFileVersion | libwrc/libwrc_version_values.c:1897-1929 | the file version of the object |
| VersionValues.GetProductVersion | libwrc/libwrc_version_values.c:1934-1966 | the product version of the object |
| ResourceNodeHeader.FieldsOfEncodeHeader | libwrc/libwrc_resource_node_header.c:199-209 | read_data takes back the flags and both counts of any header written out, whatever its time stamp and version |
| ResourceNodeHeader.SampleHeaderFields | tests/wrc_test_resource_node_header.c:40-41 | the test header has flags 0, version 4.0, no named entries and three unnamed ones |
| ResourceNodeHeader.ResourceNodeHeader.ReadData | libwrc/libwrc_resource_node_header.c:140-273 | NULL data and fewer than 16 bytes fail untouched; otherwise the fields are read, and non-zero flags are an error that keeps them |
| ResourceNodeHeader.ResourceNodeHeader.ReadFileIoHandle | libwrc/libwrc_resource_node_header.c:278-346 | a short read fails untouched; a full read stores the fields and reports a refused header as a failed read |
| ResourceNodeEntry.FieldsOfEncodeEntry | libwrc/libwrc_resource_node_entry.c:219-225 | read_data takes back the identifier and offset of any entry written out |
| ResourceNodeEntry.SampleEntryFields | tests/wrc_test_resource_node_entry.c:40-41 | the test entry has identifier 6, offset 0x80000028 and no name |
| ResourceNodeEntry.NameOffset | libwrc/libwrc_resource_node_entry.c:357-361 | `identifier & 0x7fffffff` clears the name flag and keeps the other bits |
| ResourceNodeEntry.NameSize | libwrc/libwrc_resource_node_entry.c:393-419 | the name size is twice the 16-bit unit count, even and below 2^17 |
| ResourceNodeEntry.ResourceNodeEntry.ReadData | libwrc/libwrc_resource_node_entry.c:164-254 | NULL data and fewer than 8 bytes fail untouched; otherwise identifier and offset are the little-endian values at 0 and 4 |
| ResourceNodeEntry.ResourceNodeEntry.ReadFileIoHandle | libwrc/libwrc_resource_node_entry.c:259-329 | a short read fails untouched; a full read stores the fields |
| ResourceNodeEntry.ResourceNodeEntry.ReadName | libwrc/libwrc_resource_node_entry.c:334-489 | without the name flag it answers "no name" and reads nothing; otherwise a short read or size 0 fails and frees the name, and a full read stores the name |
| ResourceNodeEntry.ResourceNodeEntry.SetNameString | libwrc/libwrc_resource_node_entry.c:537-633 | set-once: a held name is AlreadySet, NULL InvalidArgument, size 0 or over the limit ValueOutOfBounds; success stores the bytes and size, a failed copy resets both |
| ResourceNodeEntry.ResourceNodeEntry.GetIdentifier | libwrc/libwrc_resource_node_entry.c:638-670 | the stored 32-bit identifier |
| ResourceNodeEntry.ResourceNodeEntry.GetType | libwrc/libwrc_resource_node_entry.c:929-961 | the stored type |
| ResourceNodeEntry.ResourceNodeEntry.NameText | libwrc/libwrc_resource_node_entry.c:676-924 | the name getters have text exactly for a present non-empty name, converted as UTF-16LE |
| ResourceNodeEntry.Compare | libwrc/libwrc_resource_node_entry.c:494-532 | a NULL argument is an error; otherwise entries are ordered by identifier only |
| ResourceNodeEntry.NameTextOfSetName | libwrc/libwrc_resource_node_entry.c:537-924 | a name that was set reads back through the getters as the UTF-16LE bytes given |
| ResourceValues.Compare | libwrc/libwrc_resource_values.c:156-194 | a NULL argument is an error; otherwise Less, Greater and Equal each hold exactly when the identifiers are so ordered |
| ResourceValues.CompareProperties | libwrc/libwrc_resource_values.c:185-193 | two fresh values compare Equal, and swapping the arguments turns Less into Greater both ways |
| ResourceValues.GetIdentifier | libwrc/libwrc_resource_values.c:199-231 | NULL is an error; otherwise the stored identifier |
| ResourceValues.GetType | libwrc/libwrc_resource_values.c:236-268 | NULL is an error; otherwise the stored type |
| ResourceValues.Released | libwrc/libwrc_resource_values.c:114-150 | freeing releases the data descriptor exactly when one is set and the name exactly when one is set |
| ResourceValues.Free | libwrc/libwrc_resource_values.c:107-151 | a NULL reference is an error; otherwise what it points to is released and the pointer becomes NULL |
| TableEntry.EncodingOf | libwrc/libwrc_table_entry.c:264-281 | the getters convert from UTF-16LE exactly for that codepage, and from a byte stream of the stored codepage otherwise |
| TableEntry.TableEntry.SetString | libwrc/libwrc_table_entry.c:141-240 | set-once: a held string is AlreadySet, NULL InvalidArgument, size 0 or over the limit ValueOutOfBounds; success stores bytes, size and codepage, a failed copy resets string and size |
| TableEntry.TableEntry.Text | libwrc/libwrc_table_entry.c:245-462 | the four getters convert exactly the stored bytes, from UTF-16LE when the codepage says so and from the codepage's byte stream otherwise |
| TableEntry.TextOfSetString | tests/wrc_test_table_entry.c:304-318 | a string that was set is converted exactly as given under its codepage; "test\0" with codepage 1252 as a windows-1252 byte stream |
| LanguageEntries.Initialize | libwrc/libwrc_language_entry.c:36-141 | an existing entry is AlreadySet and a missing free function InvalidArgument; otherwise a new entry with the language identifier and no values |
| LanguageEntries.LanguageEntry.constructor | libwrc/libwrc_language_entry.c:112-127 | a new entry holds the identifier, the free function and no values |
| LanguageEntries.LanguageEntry.AppendValue | libwrc/libwrc_language_entry.c:270-306 | the value is added at the end and its index is the old count |
| LanguageEntries.LanguageEntry.GetNumberOfValues | libwrc/libwrc_language_entry.c:191-224 | the count is the number of values appended |
| LanguageEntries.LanguageEntry.GetValueByIndex | libwrc/libwrc_language_entry.c:229-265 | the value at the index, ValueOutOfBounds outside the array |
| LanguageEntries.LanguageEntry.Free | libwrc/libwrc_language_entry.c:146-186 | every value is handed, in order, to the free function, and none remain |
| LanguageTables.FindFromMeaning | libwrc/libwrc_language_table.c:322-361 | the entry found is the first with the identifier, a NULL entry reported comes before any match, and "not found" means every entry is present and differs |
| LanguageTables.FindFromAppend | libwrc/libwrc_language_table.c:367-402 | appending an entry keeps every answer already reached, and only a table without a match can find the new entry |
| LanguageTables.LanguageTable.constructor | libwrc/libwrc_language_table.c:35-121 | a new table has no entries |
| LanguageTables.LanguageTable.GetNumberOfEntries | libwrc/libwrc_language_table.c:171-204 | the count is the number of entries appended |
| LanguageTables.LanguageTable.AppendEntry | libwrc/libwrc_language_table.c:367-402 | the entry is added at the end, without a duplicate check, and its index is the old count |
| LanguageTables.LanguageTable.GetIdentifier | libwrc/libwrc_language_table.c:209-271 | the language identifier of the entry at the index; out of range and NULL entries are errors |
| LanguageTables.LanguageTable.GetEntryByIdentifier | libwrc/libwrc_language_table.c:276-362 | the first entry with the identifier (1), none (0), or an error at a NULL entry met first |
| LanguageTables.LanguageTable.GetNumberOfValues | libwrc/libwrc_language_table.c:407-458 | an absent language is an error; otherwise the number of values of its entry |
| LanguageTables.LanguageTable.EntryForLanguage | libwrc/libwrc_resource.c:771-830 | string resources reuse the entry with the language and other resources always get a new one; a new entry is appended only after a successful read |
| Stream.UnsupportedCodepages | libwrc/libwrc_codepage.h:46-80 | the ISO-8859 and KOI8 codepages are refused, and the default 1252 is accepted |
| Stream.Stream.constructor | libwrc/libwrc_stream.c:46-130 | a new stream has no handle, address 0, no abort, and codepage 1252 |
| Stream.Stream.SignalAbort | libwrc/libwrc_stream.c:198-232 | abort is set and nothing else changes |
| Stream.Stream.GetAsciiCodepage | libwrc/libwrc_stream.c:883-929 | the IO handle's codepage |
| Stream.Stream.SetAsciiCodepage | libwrc/libwrc_stream.c:934-994 | exactly ASCII, 874, 932, 936, 949, 950 and 1250 to 1258 are stored; any other is UnsupportedValue and keeps the old codepage; nothing else changes |
| Stream.Stream.GetVirtualAddress | libwrc/libwrc_stream.c:999-1034 | the stored virtual address |
| Stream.Stream.SetVirtualAddress | libwrc/libwrc_stream.c:1039-1063 | any 32-bit address is stored and nothing else changes |
| Stream.Stream.OpenRead | libwrc/libwrc_stream.c:781-878 | abort is cleared and the virtual address copied into the IO handle even on failure; the size is taken when known; success exactly when the size is known and the tree reads |
| Stream.Stream.OpenFileIoHandle | libwrc/libwrc_stream.c:517-654 | an attached handle, NULL, no read access or write access are refused; an unopened handle is opened by the library; only success attaches the handle, and then abort is cleared, the virtual address is in the IO handle and the stream size is set |
| Stream.Stream.Open | libwrc/libwrc_stream.c:237-370 | a NULL filename and wrong access are refused; the library owns the handle it creates only when the open succeeds, opened it exactly when it was not open, and leaves abort cleared, the virtual address in the IO handle and the stream size set |
| Stream.Stream.Close | libwrc/libwrc_stream.c:659-776 | no attached handle is ValueMissing and changes nothing; otherwise the handle is detached and the IO handle cleared, so the codepage is 1252 again; a failing step is reported but the others run |
| MessageTableFindings.AcceptedEntryOffsetOverruns | libwrc/libwrc_message_table_resource.c:345-378 | in both readers the offset check as written admits an entry offset one byte before the end, whose 4-byte header lies past it; the corrected decoding refuses it |
| MessageTableFindings.EntryAtReadsInside | libwrc/libwrc_message_table_resource.c:372-451 | the corrected entry decoding reads its header and its whole declared text inside the data |
| MessageTableFindings.WrappingBlockNeverEnds | libwrc/libwrc_message_table_resource.c:568 | with last 0xFFFFFFFF the 32-bit identifier wraps and the block as written never ends, whatever the fuel |
| MessageTableFindings.WrappingSampleNeverEnds | libwrc/libwrc_message_table_resource.c:568 | the 20-byte resource with one block {0xFFFFFFFF, 0xFFFFFFFF} does not end when read as written, by either reader |
| MessageTableFindings.BlockAsWrittenAgrees | libwrc/libwrc_message_table_resource.c:278-571 | below the wrap, the block loop as written reads what the corrected BlockFrom reads |
| MessageTableFindings.ShortValuesResourceAccepted | libwrc/libwrc_message_table_values.c:102-198 | a 1-byte resource passes the size check as written and the bytes left wrap to 2^64 - 3; the corrected decoding refuses it |
| MessageTableFindings.MessageTableRejectsShort | libwrc/libwrc_message_table_resource.c:225-236 | the corrected decoding refuses every resource of fewer than 4 bytes before any value |
| StringFindings.OddTrailingByteOverruns | libwrc/libwrc_string_values.c:156-163 | with one byte left the length is read past the data and the count of bytes left wraps to 2^64 - 1; the corrected decoding refuses the odd byte |
| StringFindings.OneByteResource | libwrc/libwrc_string_values.c:156-163 | the one-byte resource `00` shows it from the first slot on |
| StringFindings.ValuesFromNeedsEvenSize | libwrc/libwrc_string_values.c:156-191 | the corrected stream decoding succeeds only when no odd byte is left |
| MuiFindings.SignatureOnlyResourceOverruns | libwrc/libwrc_mui_values.c:308-428 | the 4-byte resource `cd fe cd fe` passes the size check and the signature as written, then the header is read past its end; the corrected decoding refuses it |
| MuiFindings.MuiDecodeReadsInside | libwrc/libwrc_mui_values.c:409-952 | the corrected decoding succeeds only when the header and all six pairs are inside the data |
| MuiFindings.WrappingIdentifierRegionAccepted | libwrc/libwrc_mui_resource.c:630-654 | in a 256-byte resource the pair (0x84, 0xFFFFFFFF) passes the 32-bit check as written; the corrected check refuses it |
| MuiFindings.IdentifiersAgreeWithoutWrap | libwrc/libwrc_mui_resource.c:630-654 | where the 32-bit sum does not wrap, the check as written is the corrected one, both ways |
| VersionFindings.HeaderReadEndAsWritten | libwrc/libwrc_version_values.c:220-293 | as written, only a size of 0 or over the allocation limit is refused before the 6-byte value header is read |
| VersionFindings.AcceptedHeaderOverruns | libwrc/libwrc_version_values.c:220-293 | as written, every resource of 1 to 5 bytes has its header read past its end; the corrected decoding refuses it |
| VersionFindings.ShortHeaderResourceOverruns | libwrc/libwrc_version_values.c:220-293 | the 5-byte example is read up to byte 6 as written and refused by the corrected decoding |
| VersionFindings.HeaderReadsInside | libwrc/libwrc_version_information_resource.c:1454-1464 | with the corrected check, a decoding that gets past the header has all 6 bytes of it |
| VersionFindings.FixedInfoReadEndAsWritten | libwrc/libwrc_version_values.c:428-473 | as written, a value data size over the resource size is the only error, and a non-zero one has the versions read up to byte 64 |
| VersionFindings.AcceptedFixedInfoOverruns | libwrc/libwrc_version_values.c:428-473 | as written, every resource under 64 bytes with a non-zero value data size that fits is read past its end |
| VersionFindings.ShortFixedInfoResourceOverruns | libwrc/libwrc_version_values.c:428-473 | a 40-byte resource passes the key check and as written is read up to byte 64; the corrected check refuses it before reading versions |
| VersionFindings.FixedInfoReadsInside | libwrc/libwrc_version_information_resource.c:1611-1657 | with the corrected check, versions are only taken from inside the resource |
| VersionFindings.ReadStringAlignAsWritten | libwrc/libwrc_version_information_resource.c:854-867 | as written, read_string compares the stale padding value with the bytes left, and only then computes the padding |
| VersionFindings.ReadStringAlignAsWrittenUnchecked | libwrc/libwrc_version_information_resource.c:854-867 | with the stale value 0 the check never fires, so read_string as written aligns like the unchecked walkers |
| VersionFindings.UnterminatedStringPadding | libwrc/libwrc_version_information_resource.c:828-867 | an 11-byte unterminated String block is accepted as written with size 8 and refused by the corrected check |

## Left out

- Text conversion by libuna, libfvalue and libclocale is not modelled. The model stops at the bytes and encoding handed over, so the UTF-8 and UTF-16 sizes the tests report are not derived: manifest size 382, MUI language size 6, "test" size 5 and "My string" size 10.
- Reads through libbfio are parameters: the bytes a read delivered, or the outcome it reported. Seeking, the read syscalls and their partial failures are not modelled.
- The checks for a NULL `this` object, a NULL output pointer and a NULL object argument (language entry, IO handle, file IO handle, data descriptor) are not modelled; a Dafny reference or out-parameter cannot be NULL. NULL data buffers and strings are modelled as `Option` where the source checks them: the data of the five resource readers and of the node readers, and the strings of the set-once copies.
- Error kinds: `Error` keeps one kind per kind of failure, not libcerror's domains and codes. ARGUMENT VALUE_TOO_SMALL and VALUE_EXCEEDS_MAXIMUM, and RUNTIME VALUE_OUT_OF_BOUNDS, all become ValueOutOfBounds. This covers the MUI header-size check, the version alignment guard and the walkers' SSIZE_MAX check. ARGUMENT INVALID_VALUE becomes InvalidArgument, and RUNTIME VALUE_ALREADY_SET becomes AlreadySet.
- TableEntry.Codepage: the number of LIBUNA_CODEPAGE_UTF16_LITTLE_ENDIAN is defined in libuna, which is not part of this model. So `ByteCodepage(n)` with that number is kept apart from `Utf16LittleEndianCodepage`, where the C comparison would treat the two alike.
- Allocation failures are modelled only as the `copied` flags of the set-once copies. Elsewhere memory_allocate, memset and libcdata allocation are taken to succeed.
- Debug output (HAVE_DEBUG_OUTPUT) is left out; it changes no state.
- Concurrency is left out, and so is the read/write lock the stream takes when built with multi-threading support.
- The resource directory tree is left out: libwrc_resource_node_tree.c, the io_handle's read of nodes and data descriptors, and the value dispatcher of libwrc_resource.c. They walk libcdata trees interleaved with reads.
- Stream.Stream.Open: libwrc_stream_open_wide is not modelled; it differs from open only in its wide-character filename.
- The stream's get_resource_by_* functions and libwrc_resource_item.c are left out; they are walks over the tree.
- The thin wrappers of libwrc_message_table.c, libwrc_string.c, libwrc_mui.c, libwrc_manifest.c, libwrc_version.c and libwrc_wevt_*.c are left out. So are libwrc_data_descriptor.c, pywrc and wrctools.
- The byte-level layout of libfvalue values is left out. A message or string value is its identifier and its `TextData`, and the 4-byte identifier libfvalue copies is the same number.
- VersionValues.Read: the key check of libwrc_version_values.c:332-392 goes through libfvalue_value_type_set_data_string, which is not part of this model. The model uses the resource reader's scan instead (`KeyAccepted`). That scan needs a byte after the key, so a resource that ends with the key is refused (`HeaderAndKeyOnlyRefused`), though the C code may accept it. The C code also hands libfvalue the whole resource size from offset 6, a bound past the end of the buffer. The model does not capture that.
- VersionWalkers.ReadLeafBlock: the value after the key of a String or Var block is scanned by the C code only for debug output; the model skips it.
- VersionSample.SampleVersions: covers the head of the 764-byte test resource: the header, key and fixed file information. The String and Var blocks that follow are not decoded from the test bytes.
- MuiResource.MuiResource.Read: the name sizes are the lengths of the stored sequences, not separate fields.
- LanguageTables.LanguageTable.EntryForLanguage: the values the reader appends to the entry, and the release of a new entry after a failed read, are not part of this method. The reader's outcome is the `read` parameter.
- Stream.Stream.Close: the release of the resource tree and of the resource values is not modelled.
- Stream.Stream.OpenRead: the errors of libbfio and of the tree reader are all reported as OpenFailed.
- Only the stream-facing fields of io_handle are modelled: virtual address, stream size, codepage and abort. libwrc_io_handle.c's other functions read the tree and are left out above.
- Access flags are two booleans, read and write. The other bits of the flags word are not modelled.
- ResourceNodeEntry.ResourceNodeEntry.ReadName: a successful read over a name already set replaces it; the C code leaks the old buffer then, and the model has no memory to leak.
- The node entry's type field is assigned by the tree reader, which is left out. The model keeps the field and its getter.
- The string identifier for a slot of 16 or more overlaps the block bits, as in the C code, which does not bound the slot count. StringTableLayout.StringIdentifierOfSlot states the identifier only for the 16 slots of a block.

## Findings

| source | as written | input that shows it | evidently intended | confidence | as-written member | corrected member |
|---|---|---|---|---|---|---|
| libwrc/libwrc_message_table_resource.c:345-378 | an entry offset is checked only to be below the data size, then the 4-byte entry header is read (TODO at line 451) | a 17-byte resource with an entry offset of 16 | the header and text lie inside the data | not executed | MessageTableFindings.AcceptedEntryOffsetOverruns | MessageTableFindings.EntryAtReadsInside |
| libwrc/libwrc_message_table_values.c:264-298 | the values reader also checks an entry offset only to be below the data size before reading the 4-byte entry header (TODO at line 371) | a 17-byte resource with an entry offset of 16 | the header and text lie inside the data | not executed | MessageTableFindings.AcceptedEntryOffsetOverruns | MessageTableFindings.EntryAtReadsInside |
| libwrc/libwrc_message_table_resource.c:568 | `first_message_identifier++` on a 32-bit value, loop `while first <= last` | a block {0xFFFFFFFF, 0xFFFFFFFF, 16} above a zero-size entry | the block ends after identifier 0xFFFFFFFF | not executed | MessageTableFindings.WrappingSampleNeverEnds | MessageTableFindings.BlockAsWrittenAgrees |
| libwrc/libwrc_message_table_values.c:488 | the values reader also increments the 32-bit `first_message_identifier` under `while first <= last` | a block {0xFFFFFFFF, 0xFFFFFFFF, 16} above a zero-size entry | the block ends after identifier 0xFFFFFFFF | not executed | MessageTableFindings.WrappingSampleNeverEnds | MessageTableFindings.BlockAsWrittenAgrees |
| libwrc/libwrc_message_table_values.c:102-198 | only a size of 0 is refused, then `size - 4` is computed in `size_t` | a 1-byte resource | fewer than 4 bytes is an error | not executed | MessageTableFindings.ShortValuesResourceAccepted | MessageTableFindings.MessageTableRejectsShort |
| libwrc/libwrc_string_values.c:156-163 | the loop runs while any byte remains and reads a 2-byte length | the 1-byte resource `00` | a single trailing byte is an error | not executed | StringFindings.OneByteResource | StringFindings.ValuesFromNeedsEvenSize |
| libwrc/libwrc_mui_values.c:308-428 | the signature and the six pairs are read with no header-length check | the 4-byte resource `cd fe cd fe` | fewer than 0x84 bytes is an error | not executed | MuiFindings.SignatureOnlyResourceOverruns | MuiFindings.MuiDecodeReadsInside |
| libwrc/libwrc_mui_resource.c:630-654 | `offset + size` computed in 32 bits before the comparison with the data size | a 256-byte resource with identifier pair (0x84, 0xFFFFFFFF) | the region lies inside the data | not executed | MuiFindings.WrappingIdentifierRegionAccepted | MuiFindings.IdentifiersAgreeWithoutWrap |
| libwrc/libwrc_mui_values.c:634-660 | the values reader also computes `offset + size` of the identifier pairs in 32 bits, here and at lines 884-905 | a 256-byte resource with identifier pair (0x84, 0xFFFFFFFF) | the region lies inside the data | not executed | MuiFindings.WrappingIdentifierRegionAccepted | MuiFindings.IdentifiersAgreeWithoutWrap |
| libwrc/libwrc_version_values.c:220-293 | after the size checks the 6-byte value header is read with no check that the resource holds it | a 5-byte resource | fewer than 6 bytes is an error, as in the resource reader | not executed | VersionFindings.ShortHeaderResourceOverruns | VersionFindings.HeaderReadsInside |
| libwrc/libwrc_version_values.c:428-473 | a non-zero value data size is checked only against the resource size before the versions are read at +8 to +24 | a 40-byte resource with value data size 1 | the fixed information is at least 52 bytes and lies inside the resource | not executed | VersionFindings.ShortFixedInfoResourceOverruns | VersionFindings.FixedInfoReadsInside |
| libwrc/libwrc_version_information_resource.c:854-867 | read_string compares the padding variable with the bytes left before assigning it | an 11-byte String block of size 8 with an unterminated key | padding past the data is an error, as in the other walkers | not executed | VersionFindings.UnterminatedStringPadding | VersionLayout.LeafBlock |
