/** The settings registry: the flat table of setting descriptors generated at
    build time, name lookup and matching for the command line, the owning
    parameter group of a descriptor, and the size, location and bounds of
    its value. The generated tables are a parameter, `Tables`. */
module Settings {
  import opened Common
  import opened NameCodec
  import opened NameWords
  import opened NameBuffer

  // ---------------------------------------------------------------------
  // Descriptors and the generated tables
  // ---------------------------------------------------------------------

  /** SETTING_TYPE: the C type of a setting's value. */
  datatype VarType = UInt8 | Int8 | UInt16 | Int16 | UInt32 | Float

  /** SETTING_SECTION: how the value is duplicated across profiles. */
  datatype Section = Master | Profile | ControlRate

  /** The bound references of a descriptor; the variant is SETTING_MODE.
      A numeric setting holds two indices into settingMinMaxTable, a
      LOOKUP setting an index into settingLookupTables. */
  datatype Bounds =
    | MinMax(minIndex: nat, maxIndex: nat)
    | Lookup(tableIndex: nat)

  /** `setting_t`. */
  datatype Setting = Setting(encodedName: seq<byte>, varType: VarType, section: Section,
                             offset: u16, bounds: Bounds)

  /** An enumeration of `settingLookupTables`: its labels, counted by
      `valueCount`. */
  datatype LookupTable = LookupTable(values: seq<string>)
  {
    function valueCount(): nat { |values| }
  }

  /** The contents of settings_generated.c. `maxNameLength` is
      SETTING_MAX_NAME_LENGTH, the size of the name buffer. */
  datatype Tables = Tables(
    words: Dictionary,                // settingNamesWords
    encoding: NameEncoding,           // SETTING_ENCODED_NAME_USES_BYTE_INDEXING
    settings: seq<Setting>,           // settingsTable
    pgnCounts: seq<byte>,             // settingsPgnCounts
    pgns: seq<u16>,                   // settingsPgn
    minMax: seq<int>,                 // settingMinMaxTable
    lookupTables: seq<LookupTable>,   // settingLookupTables
    maxNameLength: nat)

  // ---------------------------------------------------------------------
  // Names
  // ---------------------------------------------------------------------

  /** Setting `i` has a name `setting_get_name` can write into a buffer of
      SETTING_MAX_NAME_LENGTH characters, terminator included. */
  predicate NameFits(t: Tables, i: nat)
  {
    i < |t.settings|
    && |t.settings[i].encodedName| < 0x100
    && Resolvable(t.words, Indices(t.encoding, t.settings[i].encodedName))
    && |DecodedName(t.encoding, t.words, t.settings[i].encodedName)| < t.maxNameLength
    && t.maxNameLength <= 0x100
  }

  predicate NamesFit(t: Tables)
  {
    forall i :: 0 <= i < |t.settings| ==> NameFits(t, i)
  }

  /** The decoded name of setting `i`. */
  function Name(t: Tables, i: nat): CString
    requires NameFits(t, i)
  {
    DecodedName(t.encoding, t.words, t.settings[i].encodedName)
  }

  /** No two settings have the same name. */
  predicate NamesUnique(t: Tables)
    requires NamesFit(t)
  {
    forall i, j :: 0 <= i < j < |t.settings| ==> Name(t, i) != Name(t, j)
  }

  /** The first setting at or after `from` whose name is `name`. */
  function FirstNamed(t: Tables, name: CString, from: nat): (r: Option<nat>)
    requires NamesFit(t)
    ensures r.Some? ==> from <= r.value < |t.settings| && Name(t, r.value) == name
    ensures r.Some? ==> forall j :: from <= j < r.value ==> Name(t, j) != name
    ensures r.None? ==> forall j :: from <= j < |t.settings| ==> Name(t, j) != name
    decreases |t.settings| - from
  {
    if from >= |t.settings| then None
    else if Name(t, from) == name then Some(from)
    else FirstNamed(t, name, from + 1)
  }

  /** `setting_find`: the first setting whose decoded name is `name`
      (compared with `strcmp`), or NULL. */
  method Find(t: Tables, name: CString) returns (r: Option<nat>)
    requires NamesFit(t)
    ensures r == FirstNamed(t, name, 0)
  {
    var buf := new char[t.maxNameLength];
    var ii := 0;
    while ii < |t.settings|
      invariant 0 <= ii <= |t.settings|
      invariant forall j :: 0 <= j < ii ==> Name(t, j) != name
    {
      assert NameFits(t, ii);
      GetName(t.encoding, t.words, t.settings[ii].encodedName, buf);
      CStrOfTerminated(buf[..], Name(t, ii));
      if CStr(buf[..]) == name {
        return Some(ii);
      }
      ii := ii + 1;
    }
    return None;
  }

  /** With unique names, looking a setting up by its own name finds it. */
  lemma FindOwnName(t: Tables, i: nat)
    requires NamesFit(t) && NamesUnique(t)
    requires i < |t.settings|
    ensures FirstNamed(t, Name(t, i), 0) == Some(i)
  {
  }

  /** C `strstr(hay, needle) != NULL`. */
  function Occurs(needle: string, hay: string): bool
    decreases |hay|
  {
    if |needle| > |hay| then false
    else hay[..|needle|] == needle || (hay != [] && Occurs(needle, hay[1..]))
  }

  /** `needle` is the slice of `hay` that starts at `k`. */
  predicate OccursAt(needle: string, hay: string, k: nat)
  {
    k + |needle| <= |hay| && hay[k..k + |needle|] == needle
  }

  /** `Occurs` finds exactly the positions where `needle` is a slice of
      `hay`. */
  lemma {:induction false} OccursIff(needle: string, hay: string)
    ensures Occurs(needle, hay) <==> exists k: nat :: OccursAt(needle, hay, k)
    decreases |hay|
  {
    if |needle| <= |hay| {
      if hay[..|needle|] == needle {
        assert OccursAt(needle, hay, 0);
      } else if hay == [] {
        assert false;
      } else {
        OccursIff(needle, hay[1..]);
        if Occurs(needle, hay[1..]) {
          var k: nat :| OccursAt(needle, hay[1..], k);
          assert hay[1..][k..k + |needle|] == hay[k + 1..k + 1 + |needle|];
          assert OccursAt(needle, hay, k + 1);
        }
        if exists k: nat :: OccursAt(needle, hay, k) {
          var k: nat :| OccursAt(needle, hay, k);
          assert k != 0;
          assert hay[1..][k - 1..k - 1 + |needle|] == hay[k..k + |needle|];
          assert OccursAt(needle, hay[1..], k - 1);
        }
      }
    }
  }

  /** `setting_name_contains`: writes the name of setting `i` into `buf`
      and tells whether `cmdline` occurs in it (case-sensitive). */
  method NameContains(t: Tables, i: nat, buf: array<char>, cmdline: CString) returns (r: bool)
    requires NameFits(t, i)
    requires |Name(t, i)| < buf.Length
    modifies buf
    ensures r == Occurs(cmdline, Name(t, i))
    ensures buf[..|Name(t, i)|] == Name(t, i) && buf[|Name(t, i)|] == '\0'
  {
    GetName(t.encoding, t.words, t.settings[i].encodedName, buf);
    CStrOfTerminated(buf[..], Name(t, i));
    r := Occurs(cmdline, CStr(buf[..]));
  }

  /** `sl_tolower`: ASCII upper-case letters to lower case. */
  function Lower(c: char): char
  {
    if 'A' <= c <= 'Z' then (c as int + 32) as char else c
  }

  /** The character at the start of a C string: its terminator when empty. */
  function Head(s: CString): char
  {
    if s == [] then '\0' else s[0]
  }

  /** C `sl_strncasecmp(a, b, n) == 0`: the first `n` characters agree
      ignoring case, or both strings end together before that. */
  function StrNCaseEq(a: CString, b: CString, n: nat): bool
    decreases n
  {
    if n == 0 then true
    else if a == [] || b == [] then Lower(Head(a)) == Lower(Head(b))
    else Lower(a[0]) == Lower(b[0]) && StrNCaseEq(a[1..], b[1..], n - 1)
  }

  /** Comparing over the length of `b` succeeds exactly when `a` starts
      with `b` ignoring case. */
  lemma {:induction false} StrNCaseEqIff(a: CString, b: CString)
    ensures StrNCaseEq(a, b, |b|)
        <==> |a| >= |b| && forall k :: 0 <= k < |b| ==> Lower(a[k]) == Lower(b[k])
    decreases |b|
  {
    if b != [] {
      if a == [] {
        assert Lower(Head(b)) != '\0';
      } else {
        StrNCaseEqIff(a[1..], b[1..]);
        if |a| >= |b| && forall k :: 0 <= k < |b| ==> Lower(a[k]) == Lower(b[k]) {
          assert forall k :: 0 <= k < |b| - 1 ==> Lower(a[1..][k]) == Lower(b[1..][k]) by {
            forall k | 0 <= k < |b| - 1 ensures Lower(a[1..][k]) == Lower(b[1..][k]) {
              assert Lower(a[k + 1]) == Lower(b[k + 1]);
            }
          }
        }
      }
    }
  }

  /** `setting_name_exact_match`: writes the name of setting `i` into `buf`
      and tells whether `varNameLength` is its length and `cmdline` starts
      with it, ignoring case. */
  method NameExactMatch(t: Tables, i: nat, buf: array<char>, cmdline: CString, varNameLength: byte)
    returns (r: bool)
    requires NameFits(t, i)
    requires |Name(t, i)| < buf.Length
    modifies buf
    ensures r <==> varNameLength == |Name(t, i)| && StrNCaseEq(cmdline, Name(t, i), |Name(t, i)|)
    ensures buf[..|Name(t, i)|] == Name(t, i) && buf[|Name(t, i)|] == '\0'
  {
    GetName(t.encoding, t.words, t.settings[i].encodedName, buf);
    CStrOfTerminated(buf[..], Name(t, i));
    var len := StrLen(buf);
    assert len == |Name(t, i)|;
    r := StrNCaseEq(cmdline, CStr(buf[..]), len) && varNameLength as int == len;
  }

  // ---------------------------------------------------------------------
  // Value size
  // ---------------------------------------------------------------------

  /** `setting_get_value_size`: the bytes a value of the type occupies.
      The switch covers every type, so the 0 after it is never returned. */
  function ValueSize(v: VarType): (r: nat)
    ensures r == 1 || r == 2 || r == 4
  {
    match v
    case UInt8 | Int8 => 1
    case UInt16 | Int16 => 2
    case UInt32 | Float => 4
  }

  /** The values of an integer type, from `lo` to `hi`. The float type has
      none: only its size matters here. */
  function IntRange(v: VarType): Option<(int, int)>
  {
    match v
    case UInt8 => Some((0, 0xFF))
    case Int8 => Some((-0x80, 0x7F))
    case UInt16 => Some((0, 0xFFFF))
    case Int16 => Some((-0x8000, 0x7FFF))
    case UInt32 => Some((0, 0xFFFF_FFFF))
    case Float => None
  }

  /** The size of an integer type holds exactly its values: 2 to the power
      of eight times the size. The float type is the 32-bit one. */
  lemma ValueSizeHoldsType(v: VarType)
    ensures IntRange(v).Some? ==>
      IntRange(v).value.1 - IntRange(v).value.0 + 1 == Pow2(8 * ValueSize(v))
    ensures v == Float ==> 8 * ValueSize(v) == 32
  {
    match v
    case UInt8 | Int8 => Pow2Of8();
    case UInt16 | Int16 => Pow2Of16();
    case UInt32 => Pow2Of32();
    case Float =>
  }

  lemma Pow2Of8()
    ensures Pow2(8) == 0x100
  {
    assert Pow2(4) == 16;
  }

  lemma Pow2Of16()
    ensures Pow2(16) == 0x1_0000
  {
    Pow2Of8();
    Pow2Sum(8, 8);
  }

  lemma Pow2Of32()
    ensures Pow2(32) == 0x1_0000_0000
  {
    Pow2Of16();
    Pow2Sum(16, 16);
  }

  lemma {:induction false} Pow2Sum(a: nat, b: nat)
    ensures Pow2(a + b) == Pow2(a) * Pow2(b)
    decreases a
  {
    if a > 0 {
      Pow2Sum(a - 1, b);
    }
  }

  // ---------------------------------------------------------------------
  // Parameter groups
  // ---------------------------------------------------------------------

  /** The `uint16_t` running total of the first `i` group counts. */
  function Acc(counts: seq<byte>, i: nat): u16
    requires i <= |counts|
  {
    if i == 0 then 0 else ToU16(Acc(counts, i - 1) + counts[i - 1])
  }

  /** The first group at or after `from` whose running total exceeds
      `pos`. */
  function OwnerFrom(counts: seq<byte>, pos: u16, from: nat): (r: Option<nat>)
    requires from <= |counts|
    ensures r.Some? ==> from <= r.value < |counts| && Acc(counts, r.value + 1) > pos
    ensures r.Some? ==> forall j :: from < j <= r.value ==> Acc(counts, j) <= pos
    ensures r.None? ==> forall j :: from < j <= |counts| ==> Acc(counts, j) <= pos
    decreases |counts| - from
  {
    if from == |counts| then None
    else if Acc(counts, from + 1) > pos then Some(from)
    else OwnerFrom(counts, pos, from + 1)
  }

  /** The group that owns setting `index`, if any: `pos` is a `uint16_t`.
      There is none exactly when no running total exceeds the position,
      and a group found is one of settingsPgn. */
  function PgnOf(t: Tables, index: nat): (r: Option<u16>)
    requires |t.pgns| == |t.pgnCounts|
    ensures r.None? ==>
      forall j :: 0 < j <= |t.pgnCounts| ==> Acc(t.pgnCounts, j) <= ToU16(index)
    ensures r.Some? ==>
      exists j :: 0 < j <= |t.pgnCounts| && Acc(t.pgnCounts, j) > ToU16(index)
    ensures r.Some? ==> r.value in t.pgns
  {
    match OwnerFrom(t.pgnCounts, ToU16(index), 0)
    case None => None
    case Some(g) =>
      assert 0 < g + 1 <= |t.pgnCounts| && Acc(t.pgnCounts, g + 1) > ToU16(index);
      Some(t.pgns[g])
  }

  /** `setting_get_pgn`: the group of the first running total of
      settingsPgnCounts that exceeds the setting's position, or -1 (here
      `None`). The loop counter is a `uint8_t`, so there are fewer than
      256 groups. */
  method GetPgn(t: Tables, index: nat) returns (r: Option<u16>)
    requires index < |t.settings|
    requires |t.pgnCounts| < 0x100 && |t.pgns| == |t.pgnCounts|
    ensures r == PgnOf(t, index)
  {
    var pos: u16 := ToU16(index);
    var acc: u16 := 0;
    var ii := 0;
    while ii < |t.pgnCounts|
      invariant 0 <= ii <= |t.pgnCounts|
      invariant acc == Acc(t.pgnCounts, ii)
      invariant OwnerFrom(t.pgnCounts, pos, ii) == OwnerFrom(t.pgnCounts, pos, 0)
    {
      acc := ToU16(acc + t.pgnCounts[ii]);
      if acc > pos {
        return Some(t.pgns[ii]);
      }
      ii := ii + 1;
    }
    return None;
  }

  /** The exact sum of some group counts. */
  function Total(counts: seq<byte>): nat
  {
    if counts == [] then 0 else Total(counts[..|counts| - 1]) + counts[|counts| - 1]
  }

  lemma {:induction false} TotalMonotone(counts: seq<byte>, i: nat, j: nat)
    requires i <= j <= |counts|
    ensures Total(counts[..i]) <= Total(counts[..j])
    decreases j - i
  {
    if i < j {
      TotalMonotone(counts, i, j - 1);
      assert counts[..j][..j - 1] == counts[..j - 1];
    }
  }

  /** While the counts sum to less than 2^16 the `uint16_t` total does not
      wrap. */
  lemma {:induction false} AccIsTotal(counts: seq<byte>, i: nat)
    requires i <= |counts| && Total(counts) < 0x1_0000
    ensures Acc(counts, i) == Total(counts[..i])
  {
    if i > 0 {
      AccIsTotal(counts, i - 1);
      TotalMonotone(counts, i, |counts|);
      assert counts[..|counts|] == counts;
      assert counts[..i][..i - 1] == counts[..i - 1];
      ToU16Fits(Acc(counts, i - 1) + counts[i - 1]);
    }
  }

  /** When the counts sum to the table length (below 2^16 settings), every
      position resolves, and to the one group whose slice of the table,
      between the totals before and after it, holds the position. */
  lemma GroupCoverage(counts: seq<byte>, pos: nat)
    requires Total(counts) < 0x1_0000 && pos < Total(counts)
    ensures OwnerFrom(counts, pos, 0).Some?
    ensures var g := OwnerFrom(counts, pos, 0).value;
      Total(counts[..g]) <= pos < Total(counts[..g + 1])
    ensures forall h :: 0 <= h < |counts| && Total(counts[..h]) <= pos < Total(counts[..h + 1]) ==>
      OwnerFrom(counts, pos, 0) == Some(h)
  {
    var c := |counts|;
    AccIsTotal(counts, c);
    assert counts[..c] == counts;
    var r := OwnerFrom(counts, pos, 0);
    if r.None? {
      assert false;
    }
    var g := r.value;
    AccIsTotal(counts, g + 1);
    if g > 0 {
      AccIsTotal(counts, g);
    }
    forall h | 0 <= h < |counts| && Total(counts[..h]) <= pos < Total(counts[..h + 1])
      ensures r == Some(h)
    {
      AccIsTotal(counts, h + 1);
      if g < h {
        TotalMonotone(counts, g + 1, h);
      }
    }
  }

  /** With group counts that sum to the table length, every setting has a
      group. */
  lemma EverySettingHasGroup(t: Tables, index: nat)
    requires |t.pgns| == |t.pgnCounts|
    requires Total(t.pgnCounts) == |t.settings| < 0x1_0000
    requires index < |t.settings|
    ensures PgnOf(t, index).Some?
  {
    ToU16Fits(index);
    GroupCoverage(t.pgnCounts, index);
  }

  // ---------------------------------------------------------------------
  // Value location
  // ---------------------------------------------------------------------

  /** `sizeof(pidProfile_t)` and `sizeof(controlRateConfig_t)`. */
  datatype ProfileLayout = ProfileLayout(pidProfileSize: nat, controlRateSize: nat)

  /** The size of one profile's copy of the structure the section lives in;
      a MASTER value is not duplicated. */
  function StructSize(layout: ProfileLayout, section: Section): nat
  {
    match section
    case Master => 0
    case Profile => layout.pidProfileSize
    case ControlRate => layout.controlRateSize
  }

  /** `getValueOffset`: the offset of the value in its group for the
      current profile, truncated to the `uint16_t` result. All three
      sections skip one structure per preceding profile, a MASTER
      structure having size 0. */
  function ValueOffset(s: Setting, layout: ProfileLayout, profile: nat): (r: u16)
    ensures r == ToU16(s.offset + StructSize(layout, s.section) * profile)
  {
    match s.section
    case Master => s.offset
    case Profile => ToU16(s.offset + layout.pidProfileSize * profile)
    case ControlRate => ToU16(s.offset + layout.controlRateSize * profile)
  }

  /** The offset at the next profile is one structure further on (modulo
      2^16); a MASTER offset does not depend on the profile. */
  lemma OffsetStepsByStructSize(s: Setting, layout: ProfileLayout, profile: nat)
    ensures ValueOffset(s, layout, profile + 1)
         == ToU16(ValueOffset(s, layout, profile) + StructSize(layout, s.section))
    ensures s.section == Master ==> ValueOffset(s, layout, profile) == s.offset
  {
    var size := StructSize(layout, s.section);
    var x := s.offset + size * profile;
    assert s.offset + size * (profile + 1) == x + size;
    ModAddMod(x, size);
  }

  lemma ModAddMod(x: nat, y: nat)
    ensures (x % 0x1_0000 + y) % 0x1_0000 == (x + y) % 0x1_0000
  {
  }

  /** While it fits in 16 bits, the offset is the descriptor's offset plus
      one structure per preceding profile. */
  lemma OffsetWithoutWrap(s: Setting, layout: ProfileLayout, profile: nat)
    requires s.offset + StructSize(layout, s.section) * profile < 0x1_0000
    ensures ValueOffset(s, layout, profile) == s.offset + StructSize(layout, s.section) * profile
  {
  }

  /** The live and shadow base addresses of a parameter group. */
  datatype PgRegion = PgRegion(address: nat, copy: nat)

  /** `pgFind` over the parameter-group registry. */
  type PgRegistry = map<u16, PgRegion>

  /** Setting `index` has a group, and the registry knows it. */
  predicate Locatable(t: Tables, pgs: PgRegistry, index: nat)
  {
    |t.pgns| == |t.pgnCounts| && index < |t.settings|
    && PgnOf(t, index).Some? && PgnOf(t, index).value in pgs
  }

  /** `setting_get_value_pointer`: the live address of the value, within
      the 2^16 bytes a `uint16_t` offset reaches from the group's base. */
  function ValuePointer(t: Tables, pgs: PgRegistry, layout: ProfileLayout, profile: nat,
                        index: nat): (r: nat)
    requires Locatable(t, pgs, index)
    ensures var base := pgs[PgnOf(t, index).value].address; base <= r < base + 0x1_0000
  {
    pgs[PgnOf(t, index).value].address + ValueOffset(t.settings[index], layout, profile)
  }

  /** `setting_get_copy_value_pointer`: the shadow address of the value,
      within 2^16 bytes of the group's shadow base. */
  function CopyPointer(t: Tables, pgs: PgRegistry, layout: ProfileLayout, profile: nat,
                       index: nat): (r: nat)
    requires Locatable(t, pgs, index)
    ensures var base := pgs[PgnOf(t, index).value].copy; base <= r < base + 0x1_0000
  {
    pgs[PgnOf(t, index).value].copy + ValueOffset(t.settings[index], layout, profile)
  }

  /** For a duplicated value whose offsets do not wrap, the next profile's
      copy lies exactly one structure further on, in both regions. */
  lemma NextProfileAddress(t: Tables, pgs: PgRegistry, layout: ProfileLayout, profile: nat,
                           index: nat)
    requires Locatable(t, pgs, index)
    requires var s := t.settings[index];
      s.offset + StructSize(layout, s.section) * (profile + 1) < 0x1_0000
    ensures var size := StructSize(layout, t.settings[index].section);
      ValuePointer(t, pgs, layout, profile + 1, index)
        == ValuePointer(t, pgs, layout, profile, index) + size
      && CopyPointer(t, pgs, layout, profile + 1, index)
        == CopyPointer(t, pgs, layout, profile, index) + size
  {
    var s := t.settings[index];
    var size := StructSize(layout, s.section);
    var before := s.offset + size * profile;
    assert before + size == s.offset + size * (profile + 1);
    OffsetWithoutWrap(s, layout, profile);
    OffsetWithoutWrap(s, layout, profile + 1);
    assert ValueOffset(s, layout, profile + 1) == ValueOffset(s, layout, profile) + size;
  }

  // ---------------------------------------------------------------------
  // Bounds
  // ---------------------------------------------------------------------

  /** The bound references of setting `s` point into the tables. */
  predicate BoundsInRange(t: Tables, s: Setting)
  {
    match s.bounds
    case MinMax(lo, hi) => lo < |t.minMax| && hi < |t.minMax|
    case Lookup(k) => k < |t.lookupTables|
  }

  /** `setting_get_min`: the first ordinal of a LOOKUP setting, else an
      entry of the one settingMinMaxTable. */
  function GetMin(t: Tables, s: Setting): (r: int)
    requires BoundsInRange(t, s)
    ensures s.bounds.Lookup? ==> r == 0
    ensures s.bounds.MinMax? ==> r in t.minMax
  {
    match s.bounds
    case Lookup(_) => 0
    case MinMax(lo, _) => t.minMax[lo]
  }

  /** `setting_get_max`: the last ordinal of a LOOKUP setting, one below
      the number of labels, else an entry of the same settingMinMaxTable
      the minimum comes from. */
  function GetMax(t: Tables, s: Setting): (r: int)
    requires BoundsInRange(t, s)
    ensures s.bounds.Lookup? ==> r + 1 == |t.lookupTables[s.bounds.tableIndex].values|
    ensures s.bounds.MinMax? ==> r in t.minMax
  {
    match s.bounds
    case Lookup(k) => t.lookupTables[k].valueCount() - 1
    case MinMax(_, hi) => t.minMax[hi]
  }

  /** The bounds of a LOOKUP setting admit exactly the ordinals of its
      enumeration, each of which names a label. */
  lemma LookupBoundsAreOrdinals(t: Tables, s: Setting, v: int)
    requires BoundsInRange(t, s) && s.bounds.Lookup?
    ensures GetMin(t, s) <= v <= GetMax(t, s)
        <==> 0 <= v < |t.lookupTables[s.bounds.tableIndex].values|
  {
  }
}
