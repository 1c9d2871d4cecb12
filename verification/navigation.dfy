/** Tree navigation over the record stream: the tag at a TAGID, the size of its record and
    the first/next-child walk (SdbGetTagFromTagID, SdbGetTagSize, SdbGetFirstChild,
    SdbGetNextChild). */
module Navigation {
  import opened Words
  import opened Wrappers
  import opened Tags
  import opened Store

  /** TAGID_NULL: "no record". */
  const TagIdNull: u32 := 0
  /** TAGID_ROOT: the synthetic parent of the top-level records. */
  const TagIdRoot: u32 := 0
  /** _TAGID_ROOT: the offset of the first real record, just past the 12-byte header. */
  const HeaderSize: u32 := 12

  /** The type nibble of the record at tagid, read from the raw bytes: the high nibble of
      the tag's second (high-order) byte, or 0 when the tag does not fit in the buffer. */
  function TypeAt(db: Database, tagid: u32): (n: int)
    ensures 0 <= n < 16
  {
    if tagid + 2 <= |db.data| then db.data[tagid + 1] / 0x10 else 0
  }

  /** The LE DWORD stored at tagid + 2: a LIST, STRING or BINARY record's payload length. */
  function StoredLength(db: Database, tagid: u32): (length: u32)
    requires tagid + 6 <= |db.data|
  {
    Le32(db.data[tagid + 2..tagid + 6])
  }

  lemma TypeOfLittleEndianTag(lo: byte, hi: byte)
    ensures (lo as int + 0x100 * (hi as int)) / 0x1000 == hi / 0x10
  {
  }

  /** SdbGetTagFromTagID: the tag stored little-endian at tagid, or TAG_NULL when its two
      bytes are not inside the buffer. */
  function TagFromTagId(db: Database, tagid: u32): (tag: u16)
    ensures tagid + 2 <= |db.data| ==> tag == db.data[tagid] as int + 0x100 * (db.data[tagid + 1] as int)
    ensures tagid + 2 > |db.data| ==> tag == TagNull
    ensures TypeNibble(tag) == TypeAt(db, tagid)
  {
    match ReadWord(db, tagid)
    case None => TagNull
    case Some(word) =>
      TypeOfLittleEndianTag(db.data[tagid], db.data[tagid + 1]);
      word
  }

  /** SdbGetFirstChild: below the root, the first record after the header; below a LIST
      record, the record 6 bytes in, right after its tag and length; otherwise nothing. */
  function FirstChild(db: Database, parent: u32): (child: u32)
    ensures parent == TagIdRoot && |db.data| <= HeaderSize ==> child == TagIdNull
    ensures parent == TagIdRoot && |db.data| > HeaderSize ==> child == HeaderSize
    ensures parent != TagIdRoot && TypeAt(db, parent) != Nibble(ListType) ==> child == TagIdNull
    ensures parent != TagIdRoot && TypeAt(db, parent) == Nibble(ListType) ==> child == Add32(parent, 6)
    ensures parent != TagIdRoot && TypeAt(db, parent) == Nibble(ListType) && |db.data| < Two32 - 4 ==>
              child == parent + 6
  {
    if parent == TagIdRoot then
      if |db.data| <= HeaderSize then TagIdNull else HeaderSize
    else if TypeNibble(TagFromTagId(db, parent)) != Nibble(ListType) then TagIdNull
    else Add32(parent, 6)
  }

  /** sizes[6]: the record sizes, tag included, of the types NULL..STRINGREF. */
  const FixedSizes: seq<u32> := [0 + 2, 1 + 2, 2 + 2, 4 + 2, 8 + 2, 4 + 2]

  /** The size, tag included, of the record at tagid as the format defines it from the raw
      bytes: 0 when the tag is unreadable or its type nibble is 0; 2 plus the payload width
      for the fixed-size types NULL..STRINGREF; otherwise the stored length plus 6, as a
      wrapping DWORD sum, or 0 when that length is not inside the buffer. */
  function RecordSize(db: Database, tagid: u32): (size: u32)
  {
    var ty := TypeAt(db, tagid);
    if ty == 0 then 0
    else if ty <= 6 then 2 + FixedPayload(TypeOfNibble(ty)).value
    else if tagid + 6 > |db.data| then 0
    else Add32(StoredLength(db, tagid), 6)
  }

  /** SdbGetTagSize: the byte size of the record at tagid, or 0 when it cannot be
      determined. The undefined type nibbles 10..15 are sized like LIST, STRING and BINARY. */
  function TagSize(db: Database, tagid: u32): (size: u32)
    ensures size == RecordSize(db, tagid)
  {
    var ty := TypeNibble(TagFromTagId(db, tagid));
    if ty == 0 then 0
    else if ty <= Nibble(StringRefType) then FixedSizes[ty - 1]
    else
      match ReadDword(db, Add32(tagid, 2))
      case None => 0
      case Some(length) => Add32(Add32(length, 2), 4)
  }

  /** SdbGetNextChild: the record after prev, when prev has a size, the record starts inside
      the buffer and, below a real parent, it starts before parent + size(parent) + 6. */
  function NextChild(db: Database, parent: u32, prev: u32): (next: u32)
    ensures next != TagIdNull ==> next < |db.data|
    ensures next != TagIdNull ==> TagSize(db, prev) != 0 && next == Add32(prev, TagSize(db, prev))
    ensures next != TagIdNull && parent != TagIdRoot ==>
              TagSize(db, parent) != 0 && next < Add32(Add32(parent, TagSize(db, parent)), 6)
    ensures TagSize(db, prev) != 0 && Add32(prev, TagSize(db, prev)) < |db.data| &&
            (parent == TagIdRoot ||
             (TagSize(db, parent) != 0 &&
              Add32(prev, TagSize(db, prev)) < Add32(Add32(parent, TagSize(db, parent)), 6))) ==>
              next == Add32(prev, TagSize(db, prev))
  {
    var prevSize := TagSize(db, prev);
    if prevSize == 0 then TagIdNull
    else
      var candidate := Add32(prev, prevSize);
      if candidate >= |db.data| then TagIdNull
      else if parent == TagIdRoot then candidate
      else
        var parentSize := TagSize(db, parent);
        if parentSize == 0 then TagIdNull
        else if candidate >= Add32(Add32(parent, parentSize), 6) then TagIdNull
        else candidate
  }
}
