# Shim-database reader (apphelp)

A Dafny model of the reader for Windows shim databases (SDB files) in `dlls/apphelp/apphelp.c`.
An SDB file is a 12-byte header (major version, minor version, the magic `"sdbf"`)
followed by a flat stream of records. Each record starts with a 16-bit tag. The tag's top
nibble is the record type (NULL, BYTE, WORD, DWORD, QWORD, STRINGREF, LIST, STRING, BINARY,
nibbles 1..9). Fixed-size records carry their payload after the tag. LIST, STRING and
BINARY records store a 4-byte length and then that many payload bytes. A record is
addressed by its byte offset, its TAGID. A LIST's children follow its 6-byte head. One
top-level LIST, the string table, holds STRING items, and STRINGREF records point into it.

The model is an immutable byte sequence (its length a DWORD) plus the `stringtable` field.
Every operation is a pure function, and every DWORD sum wraps modulo 2^32 as it does in C.

| file | module | models |
|---|---|---|
| `words.dfy` | `Words` | BYTE/WORD/DWORD as bounded integers; wrapping add and double; little-endian loads |
| `wrappers.dfy` | `Wrappers` | `Option` |
| `tags.dfy` | `Tags` | record types, the tag fields, `SdbTagToString` and its name tables |
| `store.dfy` | `Store` | the loaded database, `SdbSafeAdd`, `SdbReadData` |
| `navigation.dfy` | `Navigation` | `SdbGetTagFromTagID`, `SdbGetTagSize`, `SdbGetFirstChild`, `SdbGetNextChild` |
| `open.dfy` | `Open` | the header checks and the string-table loop of `SdbOpenDatabase` |
| `strings.dfy` | `Strings` | `SdbGetString`, `SdbReadStringTag` |
| `scenario.dfy` | `Scenario` | the file the conformance test writes, and what the reader returns on it |

Several behaviours of the code are modelled as written, because callers see them:

- **Parent bound.** `SdbGetNextChild` bounds a child by `parent + size(parent) + 6`, but the size
  already counts the 6-byte head. So a record just past a LIST's end is still returned as its
  child (`Scenario.NextChildPastListEnd`).
- **STRINGREF size.** For a STRINGREF, `SdbGetString` overwrites `tagid` with the relative
  offset and then reads the string size at `relative offset + 2`. That is an offset into
  the file, not into the string table, so on the test file the size comes from the header's
  magic (`Scenario.TestFileStringRefSize`). A string-table item's own length field is at
  `stringtable + relative offset + 2`; the code reads `relative offset + 2` instead, and the
  model follows the code.
- **Unchecked payload.** `SdbReadStringTag` copies the string's bytes without checking their
  end against the database size. The model makes that copy an explicit `OverRead` outcome;
  a string of size 0 copies nothing and succeeds wherever it starts
  (`Scenario.EmptyStringPastEnd`).
- **Wrap-around.** Sizes and offsets are DWORD sums that wrap. One consequence: a BINARY
  record whose stored length is `0xFFFFFFF4` has size -6, and the loop `SdbOpenDatabase` runs
  to find the string table then cycles forever (`Open.OpenNeverEndsOnCyclicFile`). The loop
  is therefore a fuel-bounded function, and `OpenDatabase` answers `Unfinished` when the fuel
  runs out. The loop terminates on every file where no record the top-level walk steps from
  has an end `prev + size(prev)` at or above 2^32 (`Open.OpenFinishesWithoutWrap`).

The constants `TAGID_NULL` = `TAGID_ROOT` = 0, `_TAGID_ROOT` = 12, the type masks and the tag
values `TAG_SIZE` = 0x4001, `TAG_FLAG_LUA` = 0x5010, `TAG_NAME` = 0x6001,
`TAG_STRINGTABLE` = 0x7801 and `TAG_STRINGTABLE_ITEM` = 0x8801 are defined in `apphelp.h`. That
file is not part of this model; the values used are those of the Windows SDK, and they agree
with the test's expectations.

## Model

| member | source | states |
|---|---|---|
| Words.Add32 | dlls/apphelp/apphelp.c:362-365 | a DWORD sum is the integer sum when below 2^32, and the sum less 2^32 otherwise |
| Words.Double32 | dlls/apphelp/apphelp.c:720 | `size * sizeof(WCHAR)` on a 32-bit target is twice the count, less 2^32 when that reaches 2^32 |
| Tags.TypeOfNibble | dlls/apphelp/apphelp.c:346-347 | each type nibble 1..9 selects the record type whose nibble it is (types and nibbles correspond one to one) |
| Tags.SdbWellShaped | dlls/apphelp/apphelp.c:106-323 | the name tables have nine rows each, and every limit stays within its row, so no lookup that passes the bound check indexes outside a table |
| Tags.FieldsOfComposedTag | dlls/apphelp/apphelp.c:337-350 | the mask-and-shift extraction of the type nibble, the 0x800 range bits and the low byte recovers the fields a tag was built from |
| Tags.NameOfCataloguedTag | dlls/apphelp/apphelp.c:346-357 | a tag whose type nibble is 1..9, whose bits 8-11 are 0x0 or 0x8 and whose id is 1..limit gets entry [type-1][id-1] of `table`, or of `table2` for the 0x800 range |
| Tags.NameOfUncataloguedTag | dlls/apphelp/apphelp.c:335-354 | every other nonzero tag gets "InvalidTag": the low 12 bits or the type nibble are zero, bits 8-11 are neither 0x0 nor 0x8, the type index is 9 or more, or the id index reaches the limit, with id 0 wrapping to 0xFFFF |
| Tags.NameIn | dlls/apphelp/apphelp.c:331-357 | on any well-shaped catalogue: "NULL" for tag 0, and "InvalidTag" for a nonzero tag whose low 12 bits are zero, whose type nibble is 0 or above 9, or whose bits 8-11 are neither 0x0 nor 0x8 |
| Tags.TagToString | dlls/apphelp/apphelp.c:103-358 | `SdbTagToString` on its real tables: "NULL" for tag 0, and "InvalidTag" for every nonzero tag the bit-field checks reject |
| Tags.NameInRange | dlls/apphelp/apphelp.c:331-357 | every answer is "NULL", "InvalidTag" or an entry that a lookup within the row limits reaches, so the decoder is total and never indexes outside its tables |
| Tags.TagToStringOfCataloguedTag | dlls/apphelp/apphelp.c:103-358 | `SdbTagToString` returns the catalogue entry for every tag of its real tables |
| Tags.TagToStringOfUncataloguedTag | dlls/apphelp/apphelp.c:103-358 | `SdbTagToString` returns "InvalidTag" for every nonzero tag outside its real tables |
| Tags.ExpectedTagNames | dlls/apphelp/tests/apphelp.c:194-213 | tag 0 is named "NULL"; `TAG_SIZE` is "SIZE" and `TAG_FLAG_LUA` is "FLAG_LUA", as the test expects |
| Tags.ExpectedInvalidTags | dlls/apphelp/tests/apphelp.c:119-136 | each of the test's nine invalid tags is named "InvalidTag" |
| Store.SafeAdd | dlls/apphelp/apphelp.c:360-368 | the add succeeds exactly when the integer sum is below 2^32, and then yields that sum |
| Store.ReadBytes | dlls/apphelp/apphelp.c:370-389 | a read succeeds exactly when `offset + num` is within the database, and then yields bytes `offset..offset+num` |
| Store.ReadData | dlls/apphelp/apphelp.c:370-389 | `SdbReadData` succeeds exactly when the add succeeds and the end is within the database; on success the destination's first `num` bytes are the data's bytes and the rest is kept; on failure the destination is unchanged |
| Store.ReadWord | dlls/apphelp/apphelp.c:370-389 | a 2-byte read succeeds exactly when it fits, and yields the little-endian WORD at the offset |
| Store.ReadDword | dlls/apphelp/apphelp.c:370-389 | a 4-byte read succeeds exactly when it fits, and yields the little-endian DWORD at the offset |
| Navigation.TypeOfLittleEndianTag | dlls/apphelp/apphelp.c:462 | the type nibble of a little-endian tag is the high nibble of its second byte |
| Navigation.TagFromTagId | dlls/apphelp/apphelp.c:404-416 | the tag is the little-endian WORD at the TAGID when both bytes are inside the database, and TAG_NULL otherwise; its type nibble is the one stored in the second byte |
| Navigation.FirstChild | dlls/apphelp/apphelp.c:431-449 | below the root: TAGID_NULL for a header-only database, else 12; below a non-LIST record: TAGID_NULL; below a LIST: the offset 6 bytes on, exactly `parent + 6` when that does not wrap |
| Navigation.TagSize | dlls/apphelp/apphelp.c:451-482 | the record size equals the size defined from the raw bytes: 0 for a type nibble of 0 (an unreadable tag included); 2, 3, 4, 6, 10, 6 for NULL..STRINGREF; otherwise the stored length plus 6 modulo 2^32, or 0 when the length is unreadable |
| Navigation.NextChild | dlls/apphelp/apphelp.c:498-534 | a non-null result is inside the database, is `prev + size(prev)` (wrapping) with a nonzero size and, below a real parent, lies before `parent + size(parent) + 6`; conversely, when all those checks pass the result is exactly `prev + size(prev)` |
| Open.CheckHeader | dlls/apphelp/apphelp.c:608-627 | a file shorter than 12 bytes is unreadable; otherwise bytes 8..11 other than "sdbf" are a bad magic, then a first DWORD other than 2 is a bad version; otherwise the header is accepted |
| Open.ScanLoop | dlls/apphelp/apphelp.c:629-643 | whatever the loop finds is an offset inside the database whose tag is `TAG_STRINGTABLE` |
| Open.ScanStringTable | dlls/apphelp/apphelp.c:629-643 | the loop over the real tag reader and top-level successor finds only `TAG_STRINGTABLE` records inside the database |
| Open.OpenDatabase | dlls/apphelp/apphelp.c:608-645 | the file is rejected exactly when the header check fails, with that check's error; an opened database keeps the file's bytes; a recorded string table is a `TAG_STRINGTABLE` record inside the file; an opened database means the loop finished within the steps allowed |
| Open.ScanFindsFirstStringTable | dlls/apphelp/apphelp.c:629-643 | a found string table is the first on the walk: every offset the loop visits before it is inside the database, has another tag and has a non-null successor |
| Open.OpenFindsFirstStringTable | dlls/apphelp/apphelp.c:629-643 | the string table `SdbOpenDatabase` records is the first `TAG_STRINGTABLE` record on the top-level walk from the first record |
| Open.WalkStep | dlls/apphelp/apphelp.c:638 | the offset after k + 1 steps of the walk is the successor of the offset after k steps |
| Open.PassesThroughSuccessor | dlls/apphelp/apphelp.c:631-643 | the loop passes k + 1 offsets from `iter` exactly when it passes `iter` and then k offsets from its successor |
| Open.ScanFindsReachedStringTable | dlls/apphelp/apphelp.c:631-637 | a `TAG_STRINGTABLE` record that the walk reaches within the steps allowed, after passing every earlier offset, is what the loop finds |
| Open.OpenRecordsReachedStringTable | dlls/apphelp/apphelp.c:629-645 | an accepted file whose top-level walk reaches a `TAG_STRINGTABLE` record within the steps allowed opens with that record as its string table |
| Open.HeaderIsNoStringTable | dlls/apphelp/apphelp.c:622-627 | the first two bytes of an accepted header (the low half of version 2) are not `TAG_STRINGTABLE` |
| Open.OpenWithoutStringTable | dlls/apphelp/apphelp.c:629-645 | when the string table stays TAGID_NULL, no offset the loop visits within the steps allowed holds a `TAG_STRINGTABLE` record |
| Open.ScanFuelIrrelevant | dlls/apphelp/apphelp.c:631-643 | a loop that finished gives the same answer with more steps allowed |
| Open.OpenFuelIrrelevant | dlls/apphelp/apphelp.c:608-645 | an open that finished gives the same result with more steps allowed |
| Open.ScanFinishesWhenAdvancing | dlls/apphelp/apphelp.c:631-643 | when every step the loop takes moves forward, as many steps as bytes remain always finish the loop |
| Open.OpenFinishesWhenWalkAdvances | dlls/apphelp/apphelp.c:608-645 | `SdbOpenDatabase` returns on a file whose top-level walk moves forward at every step the loop takes |
| Open.AdvancesWithoutWrap | dlls/apphelp/apphelp.c:498-513 | when no record the walk steps from has a wrapping `prev + size(prev)`, every step the loop takes moves forward |
| Open.OpenFinishesWithoutWrap | dlls/apphelp/apphelp.c:608-645 | `SdbOpenDatabase` returns on every file in which no record the top-level walk steps from ends at or above 2^32 |
| Open.CyclicFileWalk | dlls/apphelp/apphelp.c:498-513 | on a 24-byte file with a BINARY record of stored length 0xFFFFFFF4, the top-level walk goes 12, 18, 12 |
| Open.ScanNeverEndsOnCyclicFile | dlls/apphelp/apphelp.c:631-643 | on that file the loop is still running after any number of steps |
| Open.OpenNeverEndsOnCyclicFile | dlls/apphelp/apphelp.c:608-645 | `SdbOpenDatabase` accepts that file's header and then never returns |
| Strings.GetString | dlls/apphelp/apphelp.c:648-689 | any type other than STRING or STRINGREF fails. A STRING resolves to `tagid + 6`, with the size at `tagid + 2`, failing only when the size is wanted and unreadable. A STRINGREF fails without a string table or a readable relative offset `rel`; otherwise it resolves to `stringtable + rel + 6`, with the size read at `rel + 2` |
| Strings.ReadStringTag | dlls/apphelp/apphelp.c:711-729 | FALSE with the buffer untouched when the string does not resolve or its size exceeds twice the character count (as a wrapping DWORD); `OverRead` exactly when a nonempty string fits the buffer but runs past the database; otherwise TRUE, with the string's bytes at the front of the buffer and the rest kept (an empty string copies nothing) |
| Strings.ReadResolvedStringRef | dlls/apphelp/apphelp.c:648-729 | through a STRINGREF, a string whose size (read at `rel + 2`) fits the buffer and whose bytes from `stringtable + rel + 6` lie inside the database is copied whole |
| Strings.ReadWellFormedString | dlls/apphelp/apphelp.c:711-729 | a STRING record whose length fits both the buffer and the database is copied whole |
| Strings.ReadStringTooLong | dlls/apphelp/apphelp.c:720-724 | a STRING longer than twice the character count is refused and nothing is copied |
| Scenario.TestFileWalk | dlls/apphelp/tests/apphelp.c:172-224 | on the test's file the first top-level record is at 12 with `TAG_SIZE`; the next are 18 (`TAG_FLAG_LUA`), 28 (`TAG_NAME`) and 34 (`TAG_STRINGTABLE`), whose first child 40 is `TAG_STRINGTABLE_ITEM` |
| Scenario.TestFileOpens | dlls/apphelp/tests/apphelp.c:172-189 | the test's file opens with its string table at 34 |
| Scenario.TestFileReadsItem | dlls/apphelp/tests/apphelp.c:224-231 | the item's 10-byte "temp" is copied into a 6-character buffer and refused by a 3-character one |
| Scenario.TestFileStringRefSize | dlls/apphelp/apphelp.c:657-688 | the test's STRINGREF resolves to the item's characters at 46, but its size is read from the header's magic (0x66626473), so copying through it fails even into a buffer that holds the string |
| Scenario.EmptyStringPastEnd | dlls/apphelp/apphelp.c:720-728 | a STRINGREF whose string starts past the end of the file but has size 0 is copied as nothing, and the call succeeds |
| Scenario.NextChildPastListEnd | dlls/apphelp/apphelp.c:515-531 | below a LIST that ends at 20, `SdbGetNextChild` still returns the record at 20 |

## Left out

- File and OS plumbing in `SdbOpenDatabase` (path conversion, opening, sizing and reading the file, heap allocation) and `SdbAlloc`/`SdbCloseDatabase`: the model starts from the loaded bytes, and they do no offset arithmetic.
- `DllMain`, `ApphelpCheckInstallShieldPackage`, `ApphelpCheckMsiPackage`, `ApphelpCheckShellObject`, `SdbCreateDatabase`: stubs returning constants.
- `SdbReadDWORDTag`, `SdbReadQWORDTag`, `SdbGetStringTagPtr`, the writers and the matching code: their bodies are not part of this model, so the test's checks of the values 5 and 0xDEADBEEF and of `SdbGetStringTagPtr` are modelled only as far as the tags and offsets go.
- Name tables: the row shapes and limits are exact; the names are transcribed from the tables, but only "NULL", "InvalidTag", "SIZE" and "FLAG_LUA" are stated in lemmas.
- Open.OpenDatabase: the `while` loop has no bound in C; the model bounds it by fuel, and `Unfinished` marks a run still going when the fuel is spent. The lemmas show the fuel does not change a finished result and that files without wrapping sizes finish.
- Words.Double32: `size * sizeof(WCHAR)` is a DWORD product on a 32-bit build; a 64-bit build would compute it without wrap-around.
- Strings.ReadStringTag: the copy writes into a caller buffer of `size` characters, modelled as a byte sequence of at least `2 * size` bytes; what `memcpy` reads past the database is not modelled, only that it happens (`OverRead`).
- Strings.GetString: returns an offset, not a pointer; an offset past the database is returned as computed, as the C pointer would be.
