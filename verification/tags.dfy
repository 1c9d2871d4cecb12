/** The tag codec: a 16-bit tag is a type nibble (bits 12-15), an extension nibble
    (bits 8-11, 0x0 for the primary catalogue and 0x8 for the small alternate one)
    and an id (bits 0-7). SdbTagToString maps a tag to its catalogue name. */
module Tags {
  import opened Words
  import opened Wrappers

  /** The record types, in the order of their type nibbles 1..9. */
  datatype TagType =
    | NullType | ByteType | WordType | DwordType | QwordType
    | StringRefType | ListType | StringType | BinaryType

  /** The value a tag of type t carries in its top nibble (TAG_TYPE_NULL >> 12 and so on). */
  function Nibble(t: TagType): (n: int)
    ensures 1 <= n <= 9
  {
    match t
    case NullType => 1
    case ByteType => 2
    case WordType => 3
    case DwordType => 4
    case QwordType => 5
    case StringRefType => 6
    case ListType => 7
    case StringType => 8
    case BinaryType => 9
  }

  /** The record type a nibble in 1..9 selects. */
  function TypeOfNibble(n: int): (t: TagType)
    requires 1 <= n <= 9
    ensures Nibble(t) == n
  {
    if n == 1 then NullType
    else if n == 2 then ByteType
    else if n == 3 then WordType
    else if n == 4 then DwordType
    else if n == 5 then QwordType
    else if n == 6 then StringRefType
    else if n == 7 then ListType
    else if n == 8 then StringType
    else BinaryType
  }

  /** How many payload bytes follow the 2-byte tag in a record of a fixed-size type;
      None for LIST, STRING and BINARY, whose records store their payload length. */
  function FixedPayload(t: TagType): (width: Option<int>)
  {
    match t
    case NullType => Some(0)
    case ByteType => Some(1)
    case WordType => Some(2)
    case DwordType => Some(4)
    case QwordType => Some(8)
    case StringRefType => Some(4)
    case ListType => None
    case StringType => None
    case BinaryType => None
  }

  /** The tag's top nibble, i.e. (tag & TAG_TYPE_MASK) >> 12. */
  function TypeNibble(tag: u16): (n: int)
    ensures 0 <= n < 16
  {
    tag / 0x1000
  }

  /** TAG_NULL: the "no tag" value, also what an unreadable offset yields. */
  const TagNull: u16 := 0
  /** TAG_SIZE, the first DWORD tag. */
  const TagSizeTag: u16 := 0x4001
  /** TAG_FLAG_LUA, the sixteenth QWORD tag. */
  const TagFlagLua: u16 := 0x5010
  /** TAG_NAME, the first STRINGREF tag. */
  const TagName: u16 := 0x6001
  /** TAG_STRINGTABLE, the first LIST tag of the alternate range. */
  const TagStringTable: u16 := 0x7801
  /** TAG_STRINGTABLE_ITEM, the first STRING tag of the alternate range. */
  const TagStringTableItem: u16 := 0x8801

  const NullName: string := "NULL"
  const InvalidName: string := "InvalidTag"

  /** Names of NULL-typed tags, by id - 1 (apphelp.c table). */
  const PrimaryNull: seq<string> :=
    ["INCLUDE", "GENERAL", "MATCH_LOGIC_NOT", "APPLY_ALL_SHIMS", "USE_SERVICE_PACK_FILES", "MITIGATION_OS", "BLOCK_UPGRADE", "INCLUDEEXCLUDEDLL"]
    + ["RAC_EVENT_OFF", "TELEMETRY_OFF", "SHIM_ENGINE_OFF", "LAYER_PROPAGATION_OFF", "REINSTALL_UPGRADE"]

  /** Names of BYTE-typed tags, by id - 1 (apphelp.c table). */
  const PrimaryByte: seq<string> := [
    "InvalidTag"
  ]

  /** Names of WORD-typed tags, by id - 1 (apphelp.c table). */
  const PrimaryWord: seq<string> := [
    "MATCH_MODE"
  ]

  /** Names of DWORD-typed tags, by id - 1 (apphelp.c table). */
  const PrimaryDword: seq<string> :=
    ["SIZE", "OFFSET", "CHECKSUM", "SHIM_TAGID", "PATCH_TAGID", "MODULE_TYPE", "VERDATEHI", "VERDATELO"]
    + ["VERFILEOS", "VERFILETYPE", "PE_CHECKSUM", "PREVOSMAJORVER", "PREVOSMINORVER", "PREVOSPLATFORMID", "PREVOSBUILDNO", "PROBLEMSEVERITY"]
    + ["LANGID", "VER_LANGUAGE", "InvalidTag", "ENGINE", "HTMLHELPID", "INDEX_FLAGS", "FLAGS", "DATA_VALUETYPE"]
    + ["DATA_DWORD", "LAYER_TAGID", "MSI_TRANSFORM_TAGID", "LINKER_VERSION", "LINK_DATE", "UPTO_LINK_DATE", "OS_SERVICE_PACK", "FLAG_TAGID"]
    + ["RUNTIME_PLATFORM", "OS_SKU", "OS_PLATFORM", "APP_NAME_RC_ID", "VENDOR_NAME_RC_ID", "SUMMARY_MSG_RC_ID", "VISTA_SKU", "DESCRIPTION_RC_ID"]
    + ["PARAMETER1_RC_ID", "InvalidTag", "InvalidTag", "InvalidTag", "InvalidTag", "InvalidTag", "InvalidTag", "CONTEXT_TAGID"]
    + ["EXE_WRAPPER"]

  /** Names of QWORD-typed tags, by id - 1 (apphelp.c table). */
  const PrimaryQword: seq<string> :=
    ["TIME", "BIN_FILE_VERSION", "BIN_PRODUCT_VERSION", "MODTIME", "FLAG_MASK_KERNEL", "UPTO_BIN_PRODUCT_VERSION", "DATA_QWORD", "FLAG_MASK_USER"]
    + ["FLAGS_NTVDM1", "FLAGS_NTVDM2", "FLAGS_NTVDM3", "FLAG_MASK_SHELL", "UPTO_BIN_FILE_VERSION", "FLAG_MASK_FUSION", "FLAG_PROCESSPARAM", "FLAG_LUA"]
    + ["FLAG_INSTALL"]

  /** Names of STRINGREF-typed tags, by id - 1 (apphelp.c table). */
  const PrimaryStringRef: seq<string> :=
    ["NAME", "DESCRIPTION", "MODULE", "API", "VENDOR", "APP_NAME", "InvalidTag", "COMMAND_LINE"]
    + ["COMPANY_NAME", "DLLFILE", "WILDCARD_NAME", "InvalidTag", "InvalidTag", "InvalidTag", "InvalidTag", "PRODUCT_NAME"]
    + ["PRODUCT_VERSION", "FILE_DESCRIPTION", "FILE_VERSION", "ORIGINAL_FILENAME", "INTERNAL_NAME", "LEGAL_COPYRIGHT", "16BIT_DESCRIPTION", "APPHELP_DETAILS"]
    + ["LINK_URL", "LINK_TEXT", "APPHELP_TITLE", "APPHELP_CONTACT", "SXS_MANIFEST", "DATA_STRING", "MSI_TRANSFORM_FILE", "16BIT_MODULE_NAME"]
    + ["LAYER_DISPLAYNAME", "COMPILER_VERSION", "ACTION_TYPE", "EXPORT_NAME"]

  /** Names of LIST-typed tags, by id - 1 (apphelp.c table). */
  const PrimaryList: seq<string> :=
    ["DATABASE", "LIBRARY", "INEXCLUDE", "SHIM", "PATCH", "APP", "EXE", "MATCHING_FILE"]
    + ["SHIM_REF", "PATCH_REF", "LAYER", "FILE", "APPHELP", "LINK", "DATA", "MSI_TRANSFORM"]
    + ["MSI_TRANSFORM_REF", "MSI_PACKAGE", "FLAG", "MSI_CUSTOM_ACTION", "FLAG_REF", "ACTION", "LOOKUP", "CONTEXT"]
    + ["CONTEXT_REF"]

  /** Names of STRING-typed tags, by id - 1 (apphelp.c table). */
  const PrimaryString: seq<string> := [
    "InvalidTag"
  ]

  /** Names of BINARY-typed tags, by id - 1 (apphelp.c table). */
  const PrimaryBinary: seq<string> :=
    ["InvalidTag", "PATCH_BITS", "FILE_BITS", "EXE_ID", "DATA_BITS", "MSI_PACKAGE_ID", "DATABASE_ID", "CONTEXT_PLATFORM_ID"]
    + ["CONTEXT_BRANCH_ID", "InvalidTag", "InvalidTag", "InvalidTag", "InvalidTag", "InvalidTag", "InvalidTag", "FIX_ID"]
    + ["APP_ID"]

  /** Names of NULL-typed tags in the 0x800 range, by id - 1. */
  const AlternateNull: seq<string> := [
    "InvalidTag"
  ]

  /** Names of BYTE-typed tags in the 0x800 range, by id - 1. */
  const AlternateByte: seq<string> := [
    "InvalidTag"
  ]

  /** Names of WORD-typed tags in the 0x800 range, by id - 1. */
  const AlternateWord: seq<string> := [
    "TAG",
    "INDEX_TAG",
    "INDEX_KEY"
  ]

  /** Names of DWORD-typed tags in the 0x800 range, by id - 1. */
  const AlternateDword: seq<string> := [
    "TAGID"
  ]

  /** Names of QWORD-typed tags in the 0x800 range, by id - 1. */
  const AlternateQword: seq<string> := [
    "InvalidTag"
  ]

  /** Names of STRINGREF-typed tags in the 0x800 range, by id - 1. */
  const AlternateStringRef: seq<string> := [
    "InvalidTag"
  ]

  /** Names of LIST-typed tags in the 0x800 range, by id - 1. */
  const AlternateList: seq<string> := [
    "STRINGTABLE",
    "INDEXES",
    "INDEX"
  ]

  /** Names of STRING-typed tags in the 0x800 range, by id - 1. */
  const AlternateString: seq<string> := [
    "STRINGTABLE_ITEM"
  ]

  /** Names of BINARY-typed tags in the 0x800 range, by id - 1. */
  const AlternateBinary: seq<string> := [
    "INDEX_BITS"
  ]

  /** The tables SdbTagToString consults: primary and alternate names by type index and
      id index, and how many entries of each row are in use. */
  datatype Catalogue = Catalogue(
    primary: seq<seq<string>>, alternate: seq<seq<string>>,
    limits: seq<int>, limits2: seq<int>)
  {
    /** Nine rows per table, and every limit a WORD within its row, so each bound-checked lookup is in range. */
    ghost predicate WellShaped() {
      && |primary| == |alternate| == |limits| == |limits2| == 9
      && (forall i :: 0 <= i < 9 ==> 0 <= limits[i] <= |primary[i]| && limits[i] < Two16)
      && (forall i :: 0 <= i < 9 ==> 0 <= limits2[i] <= |alternate[i]| && limits2[i] < Two16)
    }

    /** The row limit in use for a type index and a choice of table. */
    function Bound(alternate': bool, typeIndex: int): (limit: int)
      requires WellShaped() && 0 <= typeIndex < 9
    {
      if alternate' then limits2[typeIndex] else limits[typeIndex]
    }

    /** name is an entry of the catalogue that some bound-checked lookup reaches. */
    ghost predicate Names(name: string)
      requires WellShaped()
    {
      exists alternate', typeIndex, index ::
        0 <= typeIndex < 9 && 0 <= index < Bound(alternate', typeIndex) && name == Entry(alternate', typeIndex, index)
    }

    /** table[typeIndex][index] or table2[typeIndex][index]. */
    function Entry(alternate': bool, typeIndex: int, index: int): (name: string)
      requires WellShaped() && 0 <= typeIndex < 9 && 0 <= index < Bound(alternate', typeIndex)
    {
      if alternate' then alternate[typeIndex][index] else primary[typeIndex][index]
    }
  }

  /** The catalogue of apphelp.c: table, table2, limits and limits2. The limits are the low
      bytes of the last tag of each type (TAG_REINSTALL_UPGRADE & 0xFF, 1, TAG_MATCH_MODE & 0xFF,
      ...), which equal the number of names listed per type. */
  const Sdb: Catalogue := Catalogue(
    [ PrimaryNull, PrimaryByte, PrimaryWord, PrimaryDword, PrimaryQword,
      PrimaryStringRef, PrimaryList, PrimaryString, PrimaryBinary ],
    [ AlternateNull, AlternateByte, AlternateWord, AlternateDword, AlternateQword,
      AlternateStringRef, AlternateList, AlternateString, AlternateBinary ],
    [13, 1, 1, 49, 17, 36, 25, 1, 17],
    [0, 0, 3, 1, 0, 0, 3, 1, 1])

  lemma SdbWellShaped()
    ensures Sdb.WellShaped()
  {
  }

  /** The bit-field checks alone reject the tag: the low 12 bits are zero, the type nibble is
      0 or above 9, or bits 8-11 are neither 0x0 nor 0x8. */
  predicate RejectedByFields(tag: u16) {
    || tag % 0x1000 == 0
    || TypeNibble(tag) == 0
    || TypeNibble(tag) > 9
    || ((tag / 0x100) % 0x10 != 0 && (tag / 0x100) % 0x10 != 8)
  }

  /** The name SdbTagToString's algorithm finds for a tag in catalogue c. */
  function NameIn(c: Catalogue, tag: u16): (name: string)
    requires c.WellShaped()
    ensures tag == TagNull ==> name == NullName
    ensures tag != TagNull && RejectedByFields(tag) ==> name == InvalidName
  {
    if tag == TagNull then NullName
    else if tag % 0x1000 == 0 || tag / 0x1000 == 0 then InvalidName
    else
      var extension := (tag / 0x100) % 0x10;
      if extension != 0x8 && extension != 0 then InvalidName
      else
        var alternate := extension == 0x8;
        // both are WORDs; the type nibble is at least 1 here, the low byte may be 0
        var typeIndex := tag / 0x1000 - 1;
        var index := (tag % 0x100 - 1) % Two16;
        if typeIndex >= 9 || index >= c.Bound(alternate, typeIndex) then InvalidName
        else c.Entry(alternate, typeIndex, index)
  }

  /** SdbTagToString: the catalogue name of a tag, "NULL" for TAG_NULL and "InvalidTag"
      for everything the bit-field checks or the table bounds reject. */
  function TagToString(tag: u16): (name: string)
    ensures tag == TagNull ==> name == NullName
    ensures tag != TagNull && RejectedByFields(tag) ==> name == InvalidName
  {
    SdbWellShaped();
    NameIn(Sdb, tag)
  }

  /** The tag with type t, in the primary or alternate range, with the given id. */
  function MakeTag(t: TagType, alternate: bool, id: int): (tag: u16)
    requires 0 <= id < 0x100
  {
    Nibble(t) * 0x1000 + (if alternate then 0x800 else 0) + id
  }

  /** The (type, range, id) triples catalogue c names. */
  ghost predicate Catalogued(c: Catalogue, t: TagType, alternate: bool, id: int) {
    c.WellShaped() && 1 <= id < 0x100 && id <= c.Bound(alternate, Nibble(t) - 1)
  }

  /** Splitting a tag into its three fields undoes composing it. */
  lemma FieldsOfComposedTag(n: int, e: int, id: int)
    requires 0 <= n < 0x10 && 0 <= e < 0x10 && 0 <= id < 0x100
    ensures (n * 0x1000 + e * 0x100 + id) / 0x1000 == n
    ensures (n * 0x1000 + e * 0x100 + id) % 0x1000 == e * 0x100 + id
    ensures ((n * 0x1000 + e * 0x100 + id) / 0x100) % 0x10 == e
    ensures (n * 0x1000 + e * 0x100 + id) % 0x100 == id
  {
  }

  /** Every catalogued tag is decoded to its own entry: the type nibble picks the row, the
      0x800 bit picks the table and the low byte, less one, the column. */
  lemma NameOfCataloguedTag(c: Catalogue, t: TagType, alternate: bool, id: int)
    requires Catalogued(c, t, alternate, id)
    ensures NameIn(c, MakeTag(t, alternate, id)) == c.Entry(alternate, Nibble(t) - 1, id - 1)
  {
    var e := if alternate then 8 else 0;
    FieldsOfComposedTag(Nibble(t), e, id);
    assert MakeTag(t, alternate, id) == Nibble(t) * 0x1000 + e * 0x100 + id;
  }

  /** A nonzero tag that composes no catalogued triple decodes to "InvalidTag"; with
      NameOfCataloguedTag this pins the decoder down on every 16-bit input. */
  lemma NameOfUncataloguedTag(c: Catalogue, tag: u16)
    requires c.WellShaped() && tag != TagNull
    requires forall t, alternate, id :: Catalogued(c, t, alternate, id) ==> MakeTag(t, alternate, id) != tag
    ensures NameIn(c, tag) == InvalidName
  {
    var n := tag / 0x1000;
    var e := (tag / 0x100) % 0x10;
    var id := tag % 0x100;
    assert tag == n * 0x1000 + e * 0x100 + id;
    FieldsOfComposedTag(n, e, id);
    if tag % 0x1000 != 0 && 1 <= n <= 9 && (e == 0 || e == 8) {
      var t := TypeOfNibble(n);
      var alternate := e == 8;
      assert MakeTag(t, alternate, id) == tag;
      assert !Catalogued(c, t, alternate, id);
    }
  }

  /** Every answer is "NULL", "InvalidTag" or an entry a bound-checked lookup reaches. */
  lemma NameInRange(c: Catalogue, tag: u16)
    requires c.WellShaped()
    ensures NameIn(c, tag) == NullName || NameIn(c, tag) == InvalidName || c.Names(NameIn(c, tag))
  {
  }

  /** SdbTagToString on a tag of the real catalogue returns that tag's entry. */
  lemma TagToStringOfCataloguedTag(t: TagType, alternate: bool, id: int)
    requires Catalogued(Sdb, t, alternate, id)
    ensures TagToString(MakeTag(t, alternate, id)) == Sdb.Entry(alternate, Nibble(t) - 1, id - 1)
  {
    NameOfCataloguedTag(Sdb, t, alternate, id);
  }

  /** SdbTagToString returns "InvalidTag" for every nonzero tag outside the real catalogue. */
  lemma TagToStringOfUncataloguedTag(tag: u16)
    requires tag != TagNull
    requires forall t, alternate, id :: Catalogued(Sdb, t, alternate, id) ==> MakeTag(t, alternate, id) != tag
    ensures TagToString(tag) == InvalidName
  {
    SdbWellShaped();
    NameOfUncataloguedTag(Sdb, tag);
  }

  /** The name of TAG_NULL, and the names the test suite expects for TAG_SIZE and TAG_FLAG_LUA. */
  lemma ExpectedTagNames()
    ensures TagToString(TagNull) == "NULL"
    ensures TagToString(TagSizeTag) == "SIZE"
    ensures TagToString(TagFlagLua) == "FLAG_LUA"
  {
  }

  /** The nine tags the test suite expects to be rejected. */
  const ExpectedInvalid: seq<u16> := [1, 0x3000, 0xF000, 0x40FF, 0x48EE, 0x900, 0xFFFF, 0xDEAD, 0xBEEF]

  /** Each of the test suite's invalid tags decodes to "InvalidTag". */
  lemma ExpectedInvalidTags(tag: u16)
    requires tag in ExpectedInvalid
    ensures TagToString(tag) == InvalidName
  {
  }
}
