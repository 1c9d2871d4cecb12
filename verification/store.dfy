/** The loaded database: its bytes, with the overflow-checked reads every accessor goes
    through (SdbSafeAdd, SdbReadData). */
module Store {
  import opened Words
  import opened Wrappers

  /** The database contents; their length is db->size, a DWORD. */
  type Bytes = s: seq<byte> | |s| < 0x1_0000_0000

  /** An opened database: the file's bytes and the TAGID of its string table
      (TAGID_NULL, that is 0, when Open found none). */
  datatype Database = Database(data: Bytes, stringtable: u32)

  /** SdbSafeAdd: the DWORD sum, or None when it wraps around. */
  function SafeAdd(a: u32, b: u32): (r: Option<u32>)
    ensures r.Some? <==> a + b < Two32
    ensures r.Some? ==> r.value == a + b
  {
    var sum := Add32(a, b);
    if sum >= a then Some(sum) else None
  }

  /** The num bytes SdbReadData copies out at offset, or None when it refuses. */
  function ReadBytes(db: Database, offset: u32, num: u32): (r: Option<seq<byte>>)
    ensures r.Some? <==> offset + num <= |db.data|
    ensures r.Some? ==> r.value == db.data[offset..offset + num]
  {
    match SafeAdd(offset, num)
    case None => None
    case Some(end) => if |db.data| < end then None else Some(db.data[offset..end])
  }

  /** The destination buffer after SdbReadData, and its BOOL result. */
  datatype Copy = Copy(ok: bool, dest: seq<byte>)

  /** SdbReadData: copy num bytes at offset into the front of dest, all or nothing. */
  function ReadData(db: Database, dest: seq<byte>, offset: u32, num: u32): (r: Copy)
    requires num <= |dest|
    ensures r.ok <==> SafeAdd(offset, num).Some? && offset + num <= |db.data|
    ensures r.ok ==> r.dest == db.data[offset..offset + num] + dest[num..]
    ensures !r.ok ==> r.dest == dest
  {
    match ReadBytes(db, offset, num)
    case None => Copy(false, dest)
    case Some(bytes) => Copy(true, bytes + dest[num..])
  }

  /** The little-endian WORD at offset, when SdbReadData can read it. */
  function ReadWord(db: Database, offset: u32): (r: Option<u16>)
    ensures r.Some? <==> offset + 2 <= |db.data|
    ensures r.Some? ==> r.value == db.data[offset] as int + 0x100 * (db.data[offset + 1] as int)
  {
    match ReadBytes(db, offset, 2)
    case None => None
    case Some(bytes) => Some(Le16(bytes))
  }

  /** The little-endian DWORD at offset, when SdbReadData can read it. */
  function ReadDword(db: Database, offset: u32): (r: Option<u32>)
    ensures r.Some? <==> offset + 4 <= |db.data|
    ensures r.Some? ==> r.value == Le32(db.data[offset..offset + 4])
  {
    match ReadBytes(db, offset, 4)
    case None => None
    case Some(bytes) => Some(Le32(bytes))
  }
}
