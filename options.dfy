/**
 * The option tables of the libpinyin bridge: the fuzzy-pinyin table that maps
 * the input method's option bits onto libpinyin's ambiguity toggles, the
 * double-pinyin and zhuyin keyboard tables, and the custom settings value the
 * bridge builds from an option mask.
 */
module LibPinyinOptions {
  import opened Wrappers

  /** libpinyin's individual ambiguity toggles (PinyinAmbiguity without AmbAny). */
  datatype Ambiguity =
    | AmbCiChi | AmbChiCi | AmbZiZhi | AmbZhiZi | AmbSiShi | AmbShiSi
    | AmbLeNe | AmbNeLe | AmbFoHe | AmbHeFo | AmbLeRi | AmbRiLe
    | AmbKeGe | AmbGeKe | AmbAnAng | AmbAngAn | AmbEnEng | AmbEngEn
    | AmbInIng | AmbIngIn

  /** The argument of set_use_ambiguities: one toggle, or AmbAny for all of them. */
  datatype AmbiguitySelector = AmbAny | One(ambiguity: Ambiguity)

  /** The right-hand column of the fuzzy table, in table order. */
  const AmbiguityOrder: seq<Ambiguity> := [
    AmbCiChi, AmbChiCi, AmbZiZhi, AmbZhiZi, AmbSiShi,
    AmbShiSi, AmbLeNe, AmbNeLe, AmbFoHe, AmbHeFo,
    AmbLeRi, AmbRiLe, AmbKeGe, AmbGeKe, AmbAnAng,
    AmbAngAn, AmbEnEng, AmbEngEn, AmbInIng, AmbIngIn
  ]

  const AllAmbiguities: set<Ambiguity> := set a | a in AmbiguityOrder

  /** The row of the fuzzy table that carries toggle `a`. */
  function RowOf(a: Ambiguity): (r: nat)
    ensures r < |AmbiguityOrder| && AmbiguityOrder[r] == a
  {
    match a
    case AmbCiChi => 0   case AmbChiCi => 1   case AmbZiZhi => 2   case AmbZhiZi => 3
    case AmbSiShi => 4   case AmbShiSi => 5   case AmbLeNe => 6    case AmbNeLe => 7
    case AmbFoHe => 8    case AmbHeFo => 9    case AmbLeRi => 10   case AmbRiLe => 11
    case AmbKeGe => 12   case AmbGeKe => 13   case AmbAnAng => 14  case AmbAngAn => 15
    case AmbEnEng => 16  case AmbEngEn => 17  case AmbInIng => 18  case AmbIngIn => 19
  }

  /** Each toggle sits on exactly one row: the table has no duplicate toggle. */
  lemma RowOfInverse(i: nat)
    requires i < |AmbiguityOrder|
    ensures RowOf(AmbiguityOrder[i]) == i
  {
  }

  /**
   * The numeric values of the option bits, which live in a header that is not
   * part of this model: `fuzzy[i]` is the PINYIN_FUZZY_* constant of row `i`,
   * `incomplete` is PINYIN_INCOMPLETE_PINYIN.
   */
  datatype OptionBits = OptionBits(fuzzy: seq<bv32>, incomplete: bv32) {
    predicate WellFormed() { |fuzzy| == |AmbiguityOrder| }
  }

  datatype FuzzyRow = FuzzyRow(flag: bv32, ambiguity: Ambiguity)

  /** The fuzzy_options table: option bit of row i paired with toggle of row i. */
  function FuzzyTable(bits: OptionBits): seq<FuzzyRow>
    requires bits.WellFormed()
  {
    seq(|AmbiguityOrder|, i requires 0 <= i < |AmbiguityOrder| => FuzzyRow(bits.fuzzy[i], AmbiguityOrder[i]))
  }

  /** Whether `flag` shares a bit with `mask` (C's `mask & flag` used as a condition). */
  predicate HasBit(mask: bv32, flag: bv32)
  {
    mask & flag != 0
  }

  /** The toggles of exactly the rows whose bit is set in `option`. */
  function Enabled(option: bv32, table: seq<FuzzyRow>): set<Ambiguity>
  {
    set i | 0 <= i < |table| && HasBit(option, table[i].flag) :: table[i].ambiguity
  }

  /** PinyinCustomSettings: the incomplete-pinyin switch and the set of toggles that are on. */
  datatype CustomSettings = CustomSettings(useIncomplete: bool, ambiguities: set<Ambiguity>) {

    // The two setters spell out the assumed behaviour of libpinyin's
    // set_use_incomplete and set_use_ambiguities, whose code is not part of this model.

    function SetUseIncomplete(value: bool): (r: CustomSettings)
      ensures r.useIncomplete == value && r.ambiguities == ambiguities
    {
      this.(useIncomplete := value)
    }

    function SetUseAmbiguities(selector: AmbiguitySelector, value: bool): (r: CustomSettings)
      ensures r.useIncomplete == useIncomplete
      ensures selector.AmbAny? ==> r.ambiguities == (if value then AllAmbiguities else {})
      ensures selector.One? ==> forall a :: a in r.ambiguities <==> (if a == selector.ambiguity then value else a in ambiguities)
    {
      match selector
      case AmbAny => this.(ambiguities := if value then AllAmbiguities else {})
      case One(a) => this.(ambiguities := if value then ambiguities + {a} else ambiguities - {a})
    }
  }

  /** The settings setFuzzyOptions hands to libpinyin for option mask `option`. */
  function FuzzySettings(option: bv32, bits: OptionBits): CustomSettings
    requires bits.WellFormed()
  {
    CustomSettings(HasBit(option, bits.incomplete), Enabled(option, FuzzyTable(bits)))
  }

  /** Adding one row to the table adds its toggle exactly when its bit is set. */
  lemma EnabledExtend(option: bv32, table: seq<FuzzyRow>, i: nat)
    requires i < |table|
    ensures Enabled(option, table[..i + 1])
         == Enabled(option, table[..i]) + (if HasBit(option, table[i].flag) then {table[i].ambiguity} else {})
  {
  }

  /**
   * setFuzzyOptions' settings loop: set the incomplete switch, clear every
   * toggle, then switch on the toggle of each row whose bit is set. The result
   * does not depend on what the settings object held before (`unset`).
   */
  method BuildFuzzySettings(option: bv32, bits: OptionBits, unset: CustomSettings) returns (custom: CustomSettings)
    requires bits.WellFormed()
    ensures custom == FuzzySettings(option, bits)
  {
    var table := FuzzyTable(bits);
    custom := unset.SetUseIncomplete(HasBit(option, bits.incomplete));
    custom := custom.SetUseAmbiguities(AmbAny, false);
    assert table[..0] == [];
    for i := 0 to |table|
      invariant custom.useIncomplete == (HasBit(option, bits.incomplete))
      invariant custom.ambiguities == Enabled(option, table[..i])
    {
      EnabledExtend(option, table, i);
      if HasBit(option, table[i].flag) {
        custom := custom.SetUseAmbiguities(One(table[i].ambiguity), true);
      }
    }
    assert table[..|table|] == table;
  }

  /**
   * No extras, no omissions: after setFuzzyOptions a toggle is on exactly when
   * the option bit of its row is set, and the incomplete switch is on exactly
   * when the incomplete bit is set.
   */
  lemma FuzzyToggleExactly(option: bv32, bits: OptionBits, a: Ambiguity)
    requires bits.WellFormed()
    ensures a in FuzzySettings(option, bits).ambiguities <==> HasBit(option, bits.fuzzy[RowOf(a)])
    ensures FuzzySettings(option, bits).useIncomplete <==> HasBit(option, bits.incomplete)
  {
    var table := FuzzyTable(bits);
    var k := RowOf(a);
    assert table[k] == FuzzyRow(bits.fuzzy[k], a);
    if a in Enabled(option, table) {
      var j :| 0 <= j < |table| && HasBit(option, table[j].flag) && table[j].ambiguity == a;
      assert table[j] == FuzzyRow(bits.fuzzy[j], AmbiguityOrder[j]);
      RowOfInverse(j);
    }
  }

  /** Bits that overlap neither each other nor the incomplete bit. */
  predicate DisjointBits(bits: OptionBits)
    requires bits.WellFormed()
  {
    && (forall i, j :: 0 <= i < j < |bits.fuzzy| ==> Disjoint(bits.fuzzy[i], bits.fuzzy[j]))
    && (forall i :: 0 <= i < |bits.fuzzy| ==> Disjoint(bits.fuzzy[i], bits.incomplete))
  }

  /** `x` and `y` have no bit in common. */
  predicate Disjoint(x: bv32, y: bv32)
  {
    x & y == 0
  }

  /** C's `x | y`. */
  function Union(x: bv32, y: bv32): bv32
  {
    x | y
  }

  /** A non-zero bit survives in any mask it is or-ed into. */
  lemma HasOwnBit(x: bv32, y: bv32)
    requires x != 0
    ensures HasBit(Union(x, y), x) && HasBit(Union(y, x), x)
  {
  }

  /** A flag that overlaps neither operand does not overlap their union. */
  lemma NoSharedBit(x: bv32, y: bv32, flag: bv32)
    requires Disjoint(x, flag) && Disjoint(flag, y)
    ensures !HasBit(Union(x, y), flag)
  {
  }

  /**
   * A mask holding only the c/ch bit and the incomplete bit yields exactly
   * use_incomplete and AmbCiChi.
   */
  lemma CiChiWithIncomplete(bits: OptionBits)
    requires bits.WellFormed() && DisjointBits(bits)
    requires bits.fuzzy[0] != 0 && bits.incomplete != 0
    ensures FuzzySettings(Union(bits.fuzzy[0], bits.incomplete), bits) == CustomSettings(true, {AmbCiChi})
  {
    var option := Union(bits.fuzzy[0], bits.incomplete);
    forall a
      ensures a in FuzzySettings(option, bits).ambiguities <==> a == AmbCiChi
    {
      FuzzyToggleExactly(option, bits, a);
      var k := RowOf(a);
      if k == 0 {
        HasOwnBit(bits.fuzzy[0], bits.incomplete);
      } else {
        NoSharedBit(bits.fuzzy[0], bits.incomplete, bits.fuzzy[k]);
      }
    }
    FuzzyToggleExactly(option, bits, AmbCiChi);
    HasOwnBit(bits.incomplete, bits.fuzzy[0]);
  }

  /** A row of a keyboard table: configured index and libpinyin scheme. */
  datatype SchemeRow<V> = SchemeRow(key: int, scheme: V)

  /**
   * The scheme the bridge ends up setting for `key`: the loops call the setter
   * on every matching row, so the last matching row wins; None when no row
   * matches and no setter is called.
   */
  function LastMatch<V>(table: seq<SchemeRow<V>>, key: int): (r: Option<V>)
    ensures r.None? <==> forall i :: 0 <= i < |table| ==> table[i].key != key
    ensures r.Some? ==> exists i :: 0 <= i < |table| && table[i] == SchemeRow(key, r.value)
                                    && forall j :: i < j < |table| ==> table[j].key != key
  {
    if table == [] then None
    else if table[|table| - 1].key == key then Some(table[|table| - 1].scheme)
    else LastMatch(table[..|table| - 1], key)
  }

  /** A table whose keys are 0, 1, ..., n-1 in order. */
  predicate KeyedByIndex<V>(table: seq<SchemeRow<V>>)
  {
    forall i :: 0 <= i < |table| ==> table[i].key == i
  }

  /** In a table keyed by index, index k selects row k and any other index selects nothing. */
  lemma LastMatchByIndex<V>(table: seq<SchemeRow<V>>, key: int)
    requires KeyedByIndex(table)
    ensures LastMatch(table, key) == if 0 <= key < |table| then Some(table[key].scheme) else None
  {
  }

  datatype ShuangPinScheme =
    ShuangPinMs | ShuangPinZrm | ShuangPinAbc | ShuangPinZiguang | ShuangPinPyjj | ShuangPinXhe

  /** shuang_pin_options: double-pinyin keyboard index to libpinyin scheme. */
  const ShuangPinTable: seq<SchemeRow<ShuangPinScheme>> := [
    SchemeRow(0, ShuangPinMs), SchemeRow(1, ShuangPinZrm), SchemeRow(2, ShuangPinAbc),
    SchemeRow(3, ShuangPinZiguang), SchemeRow(4, ShuangPinPyjj), SchemeRow(5, ShuangPinXhe)
  ]

  datatype ZhuYinScheme = ZhuYinStandard | ZhuYinGinYieh | ZhuYinEt26 | ZhuYinIbm

  /** chewing_options: bopomofo keyboard index to libpinyin scheme. */
  const ZhuYinTable: seq<SchemeRow<ZhuYinScheme>> := [
    SchemeRow(0, ZhuYinStandard), SchemeRow(1, ZhuYinGinYieh), SchemeRow(2, ZhuYinEt26), SchemeRow(3, ZhuYinIbm)
  ]

  /** shuang_pin_options lists indices 0..5 in order. */
  lemma ShuangPinKeyed()
    ensures KeyedByIndex(ShuangPinTable)
  {
  }

  /** chewing_options lists indices 0..3 in order. */
  lemma ZhuYinKeyed()
    ensures KeyedByIndex(ZhuYinTable)
  {
  }

  /** Indices 0..5 select a double-pinyin scheme (2 selects ABC); any other index selects none. */
  lemma ShuangPinLookup(index: int)
    ensures 0 <= index <= 5 ==> LastMatch(ShuangPinTable, index) == Some(ShuangPinTable[index].scheme)
    ensures !(0 <= index <= 5) ==> LastMatch(ShuangPinTable, index) == None
    ensures index == 2 ==> LastMatch(ShuangPinTable, index) == Some(ShuangPinAbc)
  {
    ShuangPinKeyed();
    LastMatchByIndex(ShuangPinTable, index);
  }

  /** Indices 0..3 select a zhuyin keyboard scheme; any other index selects none. */
  lemma ZhuYinLookup(index: int)
    ensures 0 <= index <= 3 ==> LastMatch(ZhuYinTable, index) == Some(ZhuYinTable[index].scheme)
    ensures !(0 <= index <= 3) ==> LastMatch(ZhuYinTable, index) == None
  {
    ZhuYinKeyed();
    LastMatchByIndex(ZhuYinTable, index);
  }
}
