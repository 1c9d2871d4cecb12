/** String records: locating a string (SdbGetString) and copying it out (SdbReadStringTag).
    A STRING record holds its UTF-16 text inline after a 6-byte head; a STRINGREF record holds
    the offset of a string-table item relative to the string-table record. */
module Strings {
  import opened Words
  import opened Wrappers
  import opened Tags
  import opened Store
  import opened Navigation

  /** What SdbGetString hands back: the offset of the first character in the data, and the
      byte size read for it when the caller asked for one. */
  datatype StringLoc = StringLoc(offset: u32, size: Option<u32>)

  /** SdbGetString: where the string of the record at tagid starts, and optionally its size.
      For a STRING record both come from the record itself. For a STRINGREF record the
      relative offset rel at tagid + 2 gives the start stringtable + rel + 6, but the size is
      read at rel + 2, an offset from the start of the file, not from the string table. */
  function GetString(db: Database, tagid: u32, wantSize: bool): (r: Option<StringLoc>)
    ensures TypeAt(db, tagid) != Nibble(StringRefType) && TypeAt(db, tagid) != Nibble(StringType) ==>
              r.None?
    ensures TypeAt(db, tagid) == Nibble(StringType) ==>
              (r.Some? <==> !wantSize || tagid + 6 <= |db.data|)
    ensures TypeAt(db, tagid) == Nibble(StringType) && r.Some? ==>
              r.value.offset == Add32(tagid, 6) &&
              r.value.size == (if wantSize then Some(StoredLength(db, tagid)) else None)
    ensures TypeAt(db, tagid) == Nibble(StringRefType) ==>
              (r.Some? <==> db.stringtable != TagIdNull && tagid + 6 <= |db.data| &&
                            (!wantSize || Add32(StoredLength(db, tagid), 2) + 4 <= |db.data|))
    ensures TypeAt(db, tagid) == Nibble(StringRefType) && r.Some? ==>
              var rel := StoredLength(db, tagid);
              && r.value.offset == Add32(Add32(db.stringtable, rel), 6)
              && r.value.size == (if wantSize then Some(Le32(db.data[Add32(rel, 2)..Add32(rel, 2) + 4])) else None)
  {
    var tag := TagFromTagId(db, tagid);
    if tag == TagNull then None
    else
      var located: Option<(u32, u32)> :=
        if TypeNibble(tag) == Nibble(StringRefType) then
          if db.stringtable == TagIdNull then None
          else
            match ReadDword(db, Add32(tagid, 2))
            case None => None
            case Some(rel) => Some((rel, Add32(Add32(db.stringtable, rel), 6)))
        else if TypeNibble(tag) == Nibble(StringType) then Some((tagid, Add32(tagid, 6)))
        else None;
      match located
      case None => None
      case Some((sizeAt, offset)) =>
        if !wantSize then Some(StringLoc(offset, None))
        else
          match ReadDword(db, Add32(sizeAt, 2))
          case None => None
          case Some(size) => Some(StringLoc(offset, Some(size)))
  }

  /** The caller's buffer after SdbReadStringTag and its BOOL result, or OverRead when the
      copy reads past the end of the data: the payload itself is never bounds-checked. */
  datatype StringCopy = Returned(ok: bool, buffer: seq<byte>) | OverRead

  /** SdbReadStringTag: copy the string's bytes into the front of a buffer of size characters,
      failing without copying anything when the string does not resolve or does not fit.
      A string of size 0 copies nothing, wherever it starts. */
  function ReadStringTag(db: Database, tagid: u32, buffer: seq<byte>, size: u32): (r: StringCopy)
    requires 2 * size <= |buffer|
    ensures GetString(db, tagid, true).None? ==> r == Returned(false, buffer)
    ensures GetString(db, tagid, true).Some? ==>
              var loc := GetString(db, tagid, true).value;
              && (Double32(size) < loc.size.value ==> r == Returned(false, buffer))
              && (loc.size.value <= Double32(size) && (loc.size.value == 0 || loc.offset + loc.size.value <= |db.data|) ==>
                    r.Returned? && r.ok)
              && (r.OverRead? <==>
                    0 < loc.size.value <= Double32(size) && loc.offset + loc.size.value > |db.data|)
              && (r.Returned? && r.ok ==>
                    && |r.buffer| == |buffer|
                    && loc.size.value <= 2 * size
                    && r.buffer[loc.size.value..] == buffer[loc.size.value..])
              && (r.Returned? && r.ok && loc.size.value > 0 ==>
                    && loc.offset + loc.size.value <= |db.data|
                    && r.buffer[..loc.size.value] == db.data[loc.offset..loc.offset + loc.size.value])
    ensures r.Returned? && !r.ok ==> r.buffer == buffer
  {
    match GetString(db, tagid, true)
    case None => Returned(false, buffer)
    case Some(loc) =>
      var length := loc.size.value;
      if Double32(size) < length then Returned(false, buffer)
      else if length == 0 then Returned(true, buffer)
      else if loc.offset + length > |db.data| then OverRead
      else Returned(true, db.data[loc.offset..loc.offset + length] + buffer[length..])
  }

  /** A STRING record whose stored length fits both the caller's buffer and the data is
      copied whole: the length's bytes from tagid + 6 on, the rest of the buffer untouched. */
  lemma ReadWellFormedString(db: Database, tagid: u32, buffer: seq<byte>, size: u32)
    requires 2 * size <= |buffer|
    requires TypeAt(db, tagid) == Nibble(StringType) && tagid + 6 <= |db.data|
    requires tagid + 6 + StoredLength(db, tagid) <= |db.data|
    requires StoredLength(db, tagid) <= Double32(size)
    ensures ReadStringTag(db, tagid, buffer, size) ==
              Returned(true, db.data[tagid + 6..tagid + 6 + StoredLength(db, tagid)] + buffer[StoredLength(db, tagid)..])
  {
  }

  /** A string longer than the caller's buffer is refused and nothing is copied. */
  lemma ReadStringTooLong(db: Database, tagid: u32, buffer: seq<byte>, size: u32)
    requires 2 * size <= |buffer|
    requires TypeAt(db, tagid) == Nibble(StringType) && tagid + 6 <= |db.data|
    requires 2 * size < StoredLength(db, tagid)
    ensures ReadStringTag(db, tagid, buffer, size) == Returned(false, buffer)
  {
  }

  /** Through a STRINGREF, a string whose size fits the buffer and whose bytes lie inside the
      data is copied whole, from stringtable + rel + 6 on, with the size read at rel + 2. */
  lemma ReadResolvedStringRef(db: Database, tagid: u32, buffer: seq<byte>, size: u32)
    requires 2 * size <= |buffer|
    requires TypeAt(db, tagid) == Nibble(StringRefType) && db.stringtable != TagIdNull && tagid + 6 <= |db.data|
    requires Add32(StoredLength(db, tagid), 2) + 4 <= |db.data|
    requires var rel := StoredLength(db, tagid);
             var length := Le32(db.data[Add32(rel, 2)..Add32(rel, 2) + 4]);
             length <= Double32(size) && Add32(Add32(db.stringtable, rel), 6) + length <= |db.data|
    ensures var rel := StoredLength(db, tagid);
            var length := Le32(db.data[Add32(rel, 2)..Add32(rel, 2) + 4]);
            var start := Add32(Add32(db.stringtable, rel), 6);
            ReadStringTag(db, tagid, buffer, size) == Returned(true, db.data[start..start + length] + buffer[length..])
  {
    var r := ReadStringTag(db, tagid, buffer, size);
    var length := GetString(db, tagid, true).value.size.value;
    assert r.buffer == r.buffer[..length] + r.buffer[length..];
  }
}
