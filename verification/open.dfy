/** What SdbOpenDatabase does once the file is in memory: the header checks, then the scan
    of the top-level records for the string table. */
module Open {
  import opened Words
  import opened Wrappers
  import opened Tags
  import opened Store
  import opened Navigation

  /** The magic "sdbf" at header bytes 8..11. */
  const Magic: seq<byte> := [0x73, 0x64, 0x62, 0x66]
  /** The only major version accepted, stored as the header's first DWORD. */
  const MajorVersion: u32 := 2

  /** Why SdbOpenDatabase closes the database and returns NULL after reading the file. */
  datatype OpenError = HeaderUnreadable | BadMagic | BadVersion

  /** The header checks, in the order the code makes them; None when the header is accepted. */
  function CheckHeader(data: Bytes): (r: Option<OpenError>)
    ensures |data| < 12 ==> r == Some(HeaderUnreadable)
    ensures |data| >= 12 && data[8..12] != Magic ==> r == Some(BadMagic)
    ensures |data| >= 12 && data[8..12] == Magic && Le32(data[0..4]) != 2 ==> r == Some(BadVersion)
    ensures |data| >= 12 && data[8..12] == Magic && Le32(data[0..4]) == 2 ==> r.None?
  {
    match ReadBytes(Database(data, TagIdNull), 0, 12)
    case None => Some(HeaderUnreadable)
    case Some(header) =>
      if header[8..12] != Magic then Some(BadMagic)
      else if Le32(header[0..4]) != MajorVersion then Some(BadVersion)
      else None
  }

  /** Where the string-table loop stops: at a TAG_STRINGTABLE record, at the end of the walk,
      or (a model artefact) still running when the fuel is spent. */
  datatype ScanResult = Found(at: u32) | NotFound | OutOfFuel

  /** The string-table loop of SdbOpenDatabase from iter on, allowed fuel more steps, over a
      buffer of the given size whose tags tagAt reads and whose top-level successor is next:
      stop outside the buffer, at a TAG_STRINGTABLE record, or when next yields TAGID_NULL. */
  function ScanLoop(size: int, tagAt: u32 -> u16, next: u32 -> u32, iter: u32, fuel: nat): (r: ScanResult)
    ensures r.Found? ==> r.at < size && tagAt(r.at) == TagStringTable
    decreases fuel
  {
    if iter >= size then NotFound
    else if tagAt(iter) == TagStringTable then Found(iter)
    else if fuel == 0 then OutOfFuel
    else if next(iter) == TagIdNull then NotFound
    else ScanLoop(size, tagAt, next, next(iter), fuel - 1)
  }

  /** SdbGetTagFromTagID on db, as the loop's tag reader. */
  function TopTags(db: Database): (tagAt: u32 -> u16) {
    x => TagFromTagId(db, x)
  }

  /** SdbGetNextChild below TAGID_ROOT on db, as the loop's successor. */
  function TopNext(db: Database): (next: u32 -> u32) {
    x => NextChild(db, TagIdRoot, x)
  }

  /** The loop as SdbOpenDatabase runs it over the top-level records of db. */
  function ScanStringTable(db: Database, iter: u32, fuel: nat): (r: ScanResult)
    ensures r.Found? ==> r.at < |db.data| && TagFromTagId(db, r.at) == TagStringTable
  {
    ScanLoop(|db.data|, TopTags(db), TopNext(db), iter, fuel)
  }

  /** The outcome of SdbOpenDatabase on a loaded file; Unfinished stands for a call whose
      string-table loop is still going after the given number of steps. */
  datatype Opened = Opened(db: Database) | Rejected(error: OpenError) | Unfinished

  /** SdbOpenDatabase after ReadFile: reject a bad header, otherwise record the first
      top-level TAG_STRINGTABLE record (the database starts zeroed, so TAGID_NULL if none). */
  function OpenDatabase(data: Bytes, fuel: nat): (r: Opened)
    ensures r.Rejected? <==> CheckHeader(data).Some?
    ensures r.Rejected? ==> r.error == CheckHeader(data).value
    ensures r.Opened? ==> r.db.data == data
    ensures r.Opened? && r.db.stringtable != TagIdNull ==>
              r.db.stringtable < |data| && TagFromTagId(r.db, r.db.stringtable) == TagStringTable
    ensures r.Opened? && r.db.stringtable == TagIdNull ==>
              ScanStringTable(Database(data, TagIdNull), FirstChild(Database(data, TagIdNull), TagIdRoot), fuel) != OutOfFuel
  {
    match CheckHeader(data)
    case Some(error) => Rejected(error)
    case None =>
      var db := Database(data, TagIdNull);
      match ScanStringTable(db, FirstChild(db, TagIdRoot), fuel)
      case Found(at) => Opened(db.(stringtable := at))
      case NotFound => Opened(db)
      case OutOfFuel => Unfinished
  }

  /** The offset the loop reaches after k steps from start, ignoring its exits. */
  ghost function Walk(next: u32 -> u32, start: u32, k: nat): (at: u32)
    decreases k
  {
    if k == 0 then start else Walk(next, next(start), k - 1)
  }

  /** Step j of the walk neither leaves the buffer, nor finds the string table, nor ends. */
  ghost predicate PassesStep(size: int, tagAt: u32 -> u16, next: u32 -> u32, start: u32, j: nat) {
    && Walk(next, start, j) < size
    && tagAt(Walk(next, start, j)) != TagStringTable
    && Walk(next, start, j + 1) != TagIdNull
  }

  /** The loop runs through its first k offsets without stopping. */
  ghost predicate PassesThrough(size: int, tagAt: u32 -> u16, next: u32 -> u32, start: u32, k: nat) {
    forall j :: 0 <= j < k ==> PassesStep(size, tagAt, next, start, j)
  }

  /** A found string table is the first TAG_STRINGTABLE record on the walk: the loop passes
      every offset before it. */
  lemma {:induction false} ScanFindsFirstStringTable(
    size: int, tagAt: u32 -> u16, next: u32 -> u32, iter: u32, fuel: nat)
    requires ScanLoop(size, tagAt, next, iter, fuel).Found?
    ensures exists k :: 0 <= k <= fuel && PassesThrough(size, tagAt, next, iter, k) &&
              Walk(next, iter, k) == ScanLoop(size, tagAt, next, iter, fuel).at
    decreases fuel
  {
    var found := ScanLoop(size, tagAt, next, iter, fuel).at;
    if iter < size && tagAt(iter) == TagStringTable {
      assert PassesThrough(size, tagAt, next, iter, 0) && Walk(next, iter, 0) == found;
    } else {
      var succ := next(iter);
      assert ScanLoop(size, tagAt, next, iter, fuel) == ScanLoop(size, tagAt, next, succ, fuel - 1);
      ScanFindsFirstStringTable(size, tagAt, next, succ, fuel - 1);
      var k :| 0 <= k <= fuel - 1 && PassesThrough(size, tagAt, next, succ, k) &&
               Walk(next, succ, k) == found;
      assert Walk(next, iter, k + 1) == found;
      forall j | 0 <= j < k + 1
        ensures PassesStep(size, tagAt, next, iter, j)
      {
        if j > 0 {
          assert PassesStep(size, tagAt, next, succ, j - 1);
        }
      }
    }
  }

  /** Walking one step further applies the successor once more. */
  lemma {:induction false} WalkStep(next: u32 -> u32, start: u32, k: nat)
    ensures Walk(next, start, k + 1) == next(Walk(next, start, k))
    decreases k
  {
    if k > 0 {
      WalkStep(next, next(start), k - 1);
    }
  }

  /** Passing k + 1 offsets from iter is passing the first, then k offsets from its successor. */
  lemma PassesThroughSuccessor(size: int, tagAt: u32 -> u16, next: u32 -> u32, iter: u32, k: nat)
    ensures PassesThrough(size, tagAt, next, iter, k + 1) <==>
              PassesStep(size, tagAt, next, iter, 0) && PassesThrough(size, tagAt, next, next(iter), k)
  {
    if PassesThrough(size, tagAt, next, iter, k + 1) {
      forall j | 0 <= j < k
        ensures PassesStep(size, tagAt, next, next(iter), j)
      {
        assert PassesStep(size, tagAt, next, iter, j + 1);
      }
    }
    if PassesStep(size, tagAt, next, iter, 0) && PassesThrough(size, tagAt, next, next(iter), k) {
      forall j | 0 <= j < k + 1
        ensures PassesStep(size, tagAt, next, iter, j)
      {
        if j > 0 {
          assert PassesStep(size, tagAt, next, next(iter), j - 1);
        }
      }
    }
  }

  /** Conversely, a TAG_STRINGTABLE record the walk reaches within the steps allowed, having
      passed every offset before it, is what the loop finds. */
  lemma {:induction false} ScanFindsReachedStringTable(
    size: int, tagAt: u32 -> u16, next: u32 -> u32, iter: u32, fuel: nat, k: nat)
    requires k <= fuel && PassesThrough(size, tagAt, next, iter, k)
    requires Walk(next, iter, k) < size && tagAt(Walk(next, iter, k)) == TagStringTable
    ensures ScanLoop(size, tagAt, next, iter, fuel) == Found(Walk(next, iter, k))
    decreases k
  {
    if k > 0 {
      PassesThroughSuccessor(size, tagAt, next, iter, k - 1);
      assert PassesStep(size, tagAt, next, iter, 0);
      assert Walk(next, iter, 1) == Walk(next, next(iter), 0);
      assert ScanLoop(size, tagAt, next, iter, fuel) == ScanLoop(size, tagAt, next, next(iter), fuel - 1);
      ScanFindsReachedStringTable(size, tagAt, next, next(iter), fuel - 1, k - 1);
    }
  }

  /** More fuel never changes a scan that has already finished. */
  lemma {:induction false} ScanFuelIrrelevant(
    size: int, tagAt: u32 -> u16, next: u32 -> u32, iter: u32, fuel: nat, more: nat)
    requires fuel <= more && ScanLoop(size, tagAt, next, iter, fuel) != OutOfFuel
    ensures ScanLoop(size, tagAt, next, iter, more) == ScanLoop(size, tagAt, next, iter, fuel)
    decreases fuel
  {
    if iter < size && tagAt(iter) != TagStringTable && next(iter) != TagIdNull {
      ScanFuelIrrelevant(size, tagAt, next, next(iter), fuel - 1, more - 1);
    }
  }

  /** Every step the loop takes from start moves forward: what rules out revisiting an offset. */
  ghost predicate WalkAdvances(size: int, tagAt: u32 -> u16, next: u32 -> u32, start: u32) {
    forall k: nat :: PassesThrough(size, tagAt, next, start, k) && PassesStep(size, tagAt, next, start, k) ==>
      Walk(next, start, k) < Walk(next, start, k + 1)
  }

  /** When the walk only moves forward, as many steps as bytes remain always finish the scan. */
  lemma {:induction false} ScanFinishesWhenAdvancing(
    size: int, tagAt: u32 -> u16, next: u32 -> u32, iter: u32, fuel: nat)
    requires WalkAdvances(size, tagAt, next, iter) && iter + fuel >= size
    ensures ScanLoop(size, tagAt, next, iter, fuel) != OutOfFuel
    decreases fuel
  {
    if iter < size && tagAt(iter) != TagStringTable && next(iter) != TagIdNull {
      assert PassesThrough(size, tagAt, next, iter, 0) && PassesStep(size, tagAt, next, iter, 0);
      forall k: nat | PassesThrough(size, tagAt, next, next(iter), k) && PassesStep(size, tagAt, next, next(iter), k)
        ensures Walk(next, next(iter), k) < Walk(next, next(iter), k + 1)
      {
        PassesThroughSuccessor(size, tagAt, next, iter, k);
        assert PassesStep(size, tagAt, next, iter, k + 1);
      }
      ScanFinishesWhenAdvancing(size, tagAt, next, next(iter), fuel - 1);
    }
  }

  /** SdbOpenDatabase returns on every file whose top-level walk moves forward at each step
      it takes, given as many steps as the file has bytes. */
  lemma OpenFinishesWhenWalkAdvances(data: Bytes)
    requires var db := Database(data, TagIdNull);
             WalkAdvances(|data|, TopTags(db), TopNext(db), FirstChild(db, TagIdRoot))
    ensures OpenDatabase(data, |data|) != Unfinished
  {
    var db := Database(data, TagIdNull);
    ScanFinishesWhenAdvancing(|data|, TopTags(db), TopNext(db), FirstChild(db, TagIdRoot), |data|);
  }

  /** At every record the top-level walk steps from, prev + SdbGetTagSize(prev) stays below
      2^32, so no DWORD sum of the walk wraps. */
  ghost predicate WalkDoesNotWrap(db: Database) {
    var start := FirstChild(db, TagIdRoot);
    forall k: nat :: PassesThrough(|db.data|, TopTags(db), TopNext(db), start, k) &&
                     PassesStep(|db.data|, TopTags(db), TopNext(db), start, k) ==>
      Walk(TopNext(db), start, k) + TagSize(db, Walk(TopNext(db), start, k)) < Two32
  }

  /** Without wrapping sums every step of the top-level walk moves forward. */
  lemma AdvancesWithoutWrap(db: Database)
    requires WalkDoesNotWrap(db)
    ensures WalkAdvances(|db.data|, TopTags(db), TopNext(db), FirstChild(db, TagIdRoot))
  {
    var start := FirstChild(db, TagIdRoot);
    forall k: nat | PassesThrough(|db.data|, TopTags(db), TopNext(db), start, k) &&
                    PassesStep(|db.data|, TopTags(db), TopNext(db), start, k)
      ensures Walk(TopNext(db), start, k) < Walk(TopNext(db), start, k + 1)
    {
      WalkStep(TopNext(db), start, k);
    }
  }

  /** SdbOpenDatabase returns on every file whose top-level walk has no wrapping record end. */
  lemma OpenFinishesWithoutWrap(data: Bytes)
    requires WalkDoesNotWrap(Database(data, TagIdNull))
    ensures OpenDatabase(data, |data|) != Unfinished
  {
    AdvancesWithoutWrap(Database(data, TagIdNull));
    OpenFinishesWhenWalkAdvances(data);
  }

  /** SdbOpenDatabase records a TAG_STRINGTABLE record that the top-level walk from the first
      record reaches within the steps allowed. */
  lemma OpenRecordsReachedStringTable(data: Bytes, fuel: nat, k: nat)
    requires CheckHeader(data).None? && k <= fuel
    requires var db := Database(data, TagIdNull);
             var start := FirstChild(db, TagIdRoot);
             && PassesThrough(|data|, TopTags(db), TopNext(db), start, k)
             && Walk(TopNext(db), start, k) < |data|
             && TagFromTagId(db, Walk(TopNext(db), start, k)) == TagStringTable
    ensures var db := Database(data, TagIdNull);
            OpenDatabase(data, fuel) == Opened(Database(data, Walk(TopNext(db), FirstChild(db, TagIdRoot), k)))
  {
    var db := Database(data, TagIdNull);
    ScanFindsReachedStringTable(|data|, TopTags(db), TopNext(db), FirstChild(db, TagIdRoot), fuel, k);
  }

  /** An accepted header starts with the version DWORD 2, so its first two bytes are no
      TAG_STRINGTABLE. */
  lemma HeaderIsNoStringTable(data: Bytes)
    requires CheckHeader(data).None?
    ensures TagFromTagId(Database(data, TagIdNull), 0) != TagStringTable
  {
    assert data[0..4][1] == data[1];
  }

  /** When SdbOpenDatabase leaves the string table at TAGID_NULL, no offset the loop visits
      within the steps allowed holds a TAG_STRINGTABLE record. */
  lemma OpenWithoutStringTable(data: Bytes, fuel: nat)
    requires OpenDatabase(data, fuel) == Opened(Database(data, TagIdNull))
    ensures var db := Database(data, TagIdNull);
            var start := FirstChild(db, TagIdRoot);
            forall k: nat | k <= fuel && PassesThrough(|data|, TopTags(db), TopNext(db), start, k) &&
                            Walk(TopNext(db), start, k) < |data| ::
              TagFromTagId(db, Walk(TopNext(db), start, k)) != TagStringTable
  {
    var db := Database(data, TagIdNull);
    var start := FirstChild(db, TagIdRoot);
    HeaderIsNoStringTable(data);
    forall k: nat | k <= fuel && PassesThrough(|data|, TopTags(db), TopNext(db), start, k) &&
                    Walk(TopNext(db), start, k) < |data|
      ensures TagFromTagId(db, Walk(TopNext(db), start, k)) != TagStringTable
    {
      if k > 0 {
        assert PassesStep(|data|, TopTags(db), TopNext(db), start, k - 1);
      }
      if TagFromTagId(db, Walk(TopNext(db), start, k)) == TagStringTable {
        assert Walk(TopNext(db), start, k) != TagIdNull;
        OpenRecordsReachedStringTable(data, fuel, k);
        assert false;
      }
    }
  }

  /** The string table SdbOpenDatabase records is the first TAG_STRINGTABLE record among the
      top-level records: every record the loop visits before it is inside the file, carries
      another tag and has a successor. */
  lemma OpenFindsFirstStringTable(data: Bytes, fuel: nat)
    requires OpenDatabase(data, fuel).Opened? && OpenDatabase(data, fuel).db.stringtable != TagIdNull
    ensures var db := Database(data, TagIdNull);
            exists k :: 0 <= k <= fuel && PassesThrough(|data|, TopTags(db), TopNext(db), FirstChild(db, TagIdRoot), k) &&
              Walk(TopNext(db), FirstChild(db, TagIdRoot), k) == OpenDatabase(data, fuel).db.stringtable
  {
    var db := Database(data, TagIdNull);
    ScanFindsFirstStringTable(|data|, TopTags(db), TopNext(db), FirstChild(db, TagIdRoot), fuel);
  }

  /** Allowing SdbOpenDatabase's loop more steps than it needed changes nothing. */
  lemma OpenFuelIrrelevant(data: Bytes, fuel: nat, more: nat)
    requires fuel <= more && OpenDatabase(data, fuel) != Unfinished
    ensures OpenDatabase(data, more) == OpenDatabase(data, fuel)
  {
    var db := Database(data, TagIdNull);
    if CheckHeader(data).None? {
      ScanFuelIrrelevant(|data|, TopTags(db), TopNext(db), FirstChild(db, TagIdRoot), fuel, more);
    }
  }

  /** A 24-byte file with a valid header, a DWORD record at 12 and a BINARY record at 18
      whose stored length 0xFFFFFFF4 makes its DWORD size 0xFFFFFFFA, i.e. -6. */
  const CyclicFile: Bytes := [
    0x02, 0x00, 0x00, 0x00, 0x01, 0x00, 0x00, 0x00, 0x73, 0x64, 0x62, 0x66,
    0x01, 0x40, 0x00, 0x00, 0x00, 0x00,
    0x02, 0x90, 0xF4, 0xFF, 0xFF, 0xFF
  ]

  /** On CyclicFile the top-level walk goes 12, 18, 12, 18, ... */
  lemma CyclicFileWalk()
    ensures CheckHeader(CyclicFile).None?
    ensures FirstChild(Database(CyclicFile, TagIdNull), TagIdRoot) == 12
    ensures NextChild(Database(CyclicFile, TagIdNull), TagIdRoot, 12) == 18
    ensures NextChild(Database(CyclicFile, TagIdNull), TagIdRoot, 18) == 12
  {
    var db := Database(CyclicFile, TagIdNull);
    assert CyclicFile[0..4] == [2, 0, 0, 0];
    assert CyclicFile[8..12] == Magic;
    assert TagSize(db, 12) == 6;
    assert StoredLength(db, 18) == 0xFFFF_FFF4;
  }

  /** The loop meant to stop on malformed files never stops on CyclicFile. */
  lemma {:induction false} ScanNeverEndsOnCyclicFile(fuel: nat)
    ensures ScanStringTable(Database(CyclicFile, TagIdNull), 12, fuel) == OutOfFuel
    ensures ScanStringTable(Database(CyclicFile, TagIdNull), 18, fuel) == OutOfFuel
  {
    var db := Database(CyclicFile, TagIdNull);
    CyclicFileWalk();
    assert TagFromTagId(db, 12) == 0x4001;
    assert TagFromTagId(db, 18) == 0x9002;
    if fuel > 0 {
      ScanNeverEndsOnCyclicFile(fuel - 1);
      assert ScanStringTable(db, 12, fuel) == ScanStringTable(db, 18, fuel - 1);
      assert ScanStringTable(db, 18, fuel) == ScanStringTable(db, 12, fuel - 1);
    }
  }

  /** SdbOpenDatabase does not return on CyclicFile, however many steps are allowed. */
  lemma OpenNeverEndsOnCyclicFile(fuel: nat)
    ensures OpenDatabase(CyclicFile, fuel) == Unfinished
  {
    CyclicFileWalk();
    ScanNeverEndsOnCyclicFile(fuel);
  }
}
