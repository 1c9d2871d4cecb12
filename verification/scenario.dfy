/** The database the apphelp conformance test writes, and the answers the reader gives on it;
    plus a small file showing how far past a LIST record its children may run. */
module Scenario {
  import opened Words
  import opened Wrappers
  import opened Tags
  import opened Store
  import opened Navigation
  import opened Open
  import opened Strings

  /** Version 2.1 and the magic "sdbf". */
  const Header: seq<byte> := [0x02, 0x00, 0x00, 0x00, 0x01, 0x00, 0x00, 0x00, 0x73, 0x64, 0x62, 0x66]
  /** At 12: TAG_SIZE, a DWORD record holding 5. */
  const SizeRecord: seq<byte> := [0x01, 0x40, 0x05, 0x00, 0x00, 0x00]
  /** At 18: TAG_FLAG_LUA, a QWORD record holding 0xDEADBEEF. */
  const FlagRecord: seq<byte> := [0x10, 0x50, 0xEF, 0xBE, 0xAD, 0xDE, 0x00, 0x00, 0x00, 0x00]
  /** At 28: TAG_NAME, a STRINGREF record pointing 6 bytes into the string table. */
  const NameRecord: seq<byte> := [0x01, 0x60, 0x06, 0x00, 0x00, 0x00]
  /** At 34: TAG_STRINGTABLE, a LIST record of 16 bytes. */
  const TableRecord: seq<byte> := [0x01, 0x78, 0x10, 0x00, 0x00, 0x00]
  /** At 40: TAG_STRINGTABLE_ITEM, a STRING record of 10 bytes. */
  const ItemHead: seq<byte> := [0x01, 0x88, 0x0A, 0x00, 0x00, 0x00]
  /** At 46: "temp" and its terminator in UTF-16LE. */
  const Temp: seq<byte> := [0x74, 0x00, 0x65, 0x00, 0x6D, 0x00, 0x70, 0x00, 0x00, 0x00]

  const TestFile: Bytes := Header + SizeRecord + FlagRecord + NameRecord + TableRecord + ItemHead + Temp

  /** The test file as SdbOpenDatabase leaves it: string table at 34. */
  const TestDb: Database := Database(TestFile, 34)

  /** The bytes of TestFile, record by record. */
  lemma TestFileLayout()
    ensures |TestFile| == 56
    ensures TestFile[0..12] == Header && TestFile[12..18] == SizeRecord && TestFile[18..28] == FlagRecord
    ensures TestFile[28..34] == NameRecord && TestFile[34..40] == TableRecord
    ensures TestFile[40..46] == ItemHead && TestFile[46..56] == Temp
  {
  }

  /** The top-level walk the test performs (the names of the first two tags are in
      ExpectedTagNames): TAG_SIZE at 12, TAG_FLAG_LUA at 18, the STRINGREF at 28
      and the string table at 34, whose first child is the item at 40. */
  lemma TestFileWalk(stringtable: u32)
    ensures var db := Database(TestFile, stringtable);
            && FirstChild(db, TagIdRoot) == HeaderSize
            && TagFromTagId(db, 12) == TagSizeTag
            && NextChild(db, TagIdRoot, 12) == 18
            && TagFromTagId(db, 18) == TagFlagLua
            && NextChild(db, TagIdRoot, 18) == 28
            && TagFromTagId(db, 28) == TagName
            && NextChild(db, TagIdRoot, 28) == 34
            && TagFromTagId(db, 34) == TagStringTable
            && FirstChild(db, 34) == 40
            && TagFromTagId(db, 40) == TagStringTableItem
  {
    var db := Database(TestFile, stringtable);
    TestFileLayout();
    assert TagSize(db, 12) == 6;
    assert TagSize(db, 18) == 10;
    assert TagSize(db, 28) == 6;
  }

  /** SdbOpenDatabase accepts the test file and finds its string table at 34 after three
      steps of its loop. */
  lemma TestFileOpens(fuel: nat)
    requires fuel >= 3
    ensures OpenDatabase(TestFile, fuel) == Opened(TestDb)
  {
    var db := Database(TestFile, TagIdNull);
    TestFileLayout();
    TestFileWalk(TagIdNull);
    assert CheckHeader(TestFile).None? by {
      assert TestFile[8..12] == Magic;
      assert TestFile[0..4] == [2, 0, 0, 0];
    }
    assert ScanStringTable(db, 34, fuel - 3) == Found(34);
    assert ScanStringTable(db, 28, fuel - 2) == Found(34);
    assert ScanStringTable(db, 18, fuel - 1) == Found(34);
    assert ScanStringTable(db, 12, fuel) == Found(34);
  }

  /** The string-table item at 40 holds "temp": SdbReadStringTag copies its 10 bytes into a
      buffer of 6 characters and refuses a buffer of 3. */
  lemma TestFileReadsItem(buffer: seq<byte>)
    requires |buffer| == 12
    ensures GetString(TestDb, 40, true) == Some(StringLoc(46, Some(10)))
    ensures ReadStringTag(TestDb, 40, buffer, 6) == Returned(true, Temp + buffer[10..])
    ensures ReadStringTag(TestDb, 40, buffer, 3) == Returned(false, buffer)
  {
    TestFileLayout();
    TestFileWalk(34);
    assert StoredLength(TestDb, 40) == 10;
    ReadWellFormedString(TestDb, 40, buffer, 6);
    ReadStringTooLong(TestDb, 40, buffer, 3);
  }

  /** The STRINGREF at 28 resolves to the same characters at 46, but the size read for it
      comes from offset 6 + 2 = 8, the header's magic: 0x66626473 bytes. So SdbReadStringTag
      through the reference refuses a buffer that holds the string. */
  lemma TestFileStringRefSize(buffer: seq<byte>)
    requires |buffer| == 12
    ensures GetString(TestDb, 28, false) == Some(StringLoc(46, None))
    ensures GetString(TestDb, 28, true) == Some(StringLoc(46, Some(0x6662_6473)))
    ensures ReadStringTag(TestDb, 28, buffer, 6) == Returned(false, buffer)
  {
  }

  /** The test file with the STRINGREF at 28 pointing 22 bytes into the string table. */
  const ShiftedRefFile: Bytes :=
    Header + SizeRecord + FlagRecord + [0x01, 0x60, 0x16, 0x00, 0x00, 0x00] + TableRecord + ItemHead + Temp

  /** Through that STRINGREF the string starts at 62, past the 56-byte file, and its size,
      read at 22 + 2 = 24 in the QWORD's zero high half, is 0: SdbReadStringTag copies
      nothing and returns TRUE. */
  lemma EmptyStringPastEnd(buffer: seq<byte>)
    requires |buffer| == 12
    ensures GetString(Database(ShiftedRefFile, 34), 28, true) == Some(StringLoc(62, Some(0)))
    ensures ReadStringTag(Database(ShiftedRefFile, 34), 28, buffer, 6) == Returned(true, buffer)
  {
    var db := Database(ShiftedRefFile, 34);
    assert ShiftedRefFile[28..34] == [0x01, 0x60, 0x16, 0x00, 0x00, 0x00];
    assert ShiftedRefFile[24..28] == [0x00, 0x00, 0x00, 0x00];
    assert StoredLength(db, 28) == 22;
  }

  /** A LIST record at 12 with 2 bytes of content (ending at 20), holding a NULL-type record
      at 18, followed by a top-level DWORD record at 20. */
  const ListFile: Bytes := Header + [
    0x01, 0x70, 0x02, 0x00, 0x00, 0x00,
    0x01, 0x10,
    0x01, 0x40, 0x07, 0x00, 0x00, 0x00
  ]

  /** Because the bound on a child adds the 6-byte head to a size that already counts it,
      SdbGetNextChild returns the top-level record at 20 as a child of the LIST ending at 20;
      the next step, which would start at 26, is refused. */
  lemma NextChildPastListEnd()
    ensures var db := Database(ListFile, TagIdNull);
            && TagSize(db, 12) == 8
            && FirstChild(db, 12) == 18
            && NextChild(db, 12, 18) == 20
            && 20 == 12 + TagSize(db, 12)
            && NextChild(db, 12, 20) == TagIdNull
  {
    var db := Database(ListFile, TagIdNull);
    assert ListFile[12..14] == [0x01, 0x70] && ListFile[14..18] == [0x02, 0x00, 0x00, 0x00];
    assert ListFile[18..20] == [0x01, 0x10] && ListFile[20..22] == [0x01, 0x40];
    assert StoredLength(db, 12) == 2;
  }
}
