/**
 * The dataset (`program_imunisasi`) and the filtered views the filter-change
 * handler builds from it: each source array either goes through the record
 * filter or, when its category is switched off, is replaced by `[]`; each
 * UCI source array is read from a fixed calendar year and lands in a fixed
 * year slot.
 */
module Views {
  import opened JsValues
  import opened RecordFilter

  datatype HpvSource = HpvSource(kelas5: Option<seq<Record>>, kelas6: Option<seq<Record>>, kelas9: Option<seq<Record>>)

  /** `program_imunisasi.bias`; a missing array is None, a missing `hpv` object is None. */
  datatype BiasSource = BiasSource(
    campak: Option<seq<Record>>,
    dt: Option<seq<Record>>,
    td: Option<seq<Record>>,
    hpv: Option<HpvSource>)

  /** Arrays of records keyed by calendar year ("2017", "2024", ...). */
  type YearTable = map<string, seq<Record>>

  /**
   * `program_imunisasi.uci`. Every read goes through optional chaining, so a
   * missing intermediate object (`antigen`, `baduta`, `booster`, a family)
   * reads exactly like an empty one and is modelled as the empty map.
   */
  datatype UciSource = UciSource(
    antigen: map<string, YearTable>,
    booster: YearTable,
    hb0Bcg: YearTable,
    tt: YearTable)

  /** `program_imunisasi`; reading a missing `bias` or `uci` subtree throws. */
  datatype Dataset = Dataset(bias: Option<BiasSource>, uci: Option<UciSource>)

  /** `table?.[year]` */
  function Lookup(t: YearTable, year: string): Option<seq<Record>> {
    if year in t then Some(t[year]) else None
  }

  /** `uciSource.antigen?.[name]` */
  function Family(src: UciSource, name: string): YearTable {
    if name in src.antigen then src.antigen[name] else map[]
  }

  function HpvClass(src: BiasSource, kelas: int): Option<seq<Record>> {
    match src.hpv
    case None => None
    case Some(h) => if kelas == 5 then h.kelas5 else if kelas == 6 then h.kelas6 else h.kelas9
  }

  /** The filtered BIAS arrays (`filteredBias`). */
  datatype BiasView = BiasView(
    campak: seq<Record>,
    dt: seq<Record>,
    td: seq<Record>,
    kelas5: seq<Record>,
    kelas6: seq<Record>,
    kelas9: seq<Record>)

  /** A two-slot group `{ t1, t2 }`; `Values()` is `Object.values` of it. */
  datatype Pair = Pair(t1: seq<Record>, t2: seq<Record>) {
    function Values(): seq<seq<Record>> { [t1, t2] }
  }

  /** The three-slot `baduta.booster` group `{ t1, t2, t3 }`. */
  datatype Triple = Triple(t1: seq<Record>, t2: seq<Record>, t3: seq<Record>) {
    function Values(): seq<seq<Record>> { [t1, t2, t3] }
  }

  /** The filtered UCI arrays (`filteredUci`). */
  datatype UciView = UciView(
    rv: Pair, rotarix: Pair, pcv: Pair, je: Pair, heksavalen: Pair,
    booster: Triple, hb0Bcg: Pair, tt: Pair)

  const EMPTY_BIAS: BiasView := BiasView([], [], [], [], [], [])
  const EMPTY_PAIR: Pair := Pair([], [])
  const EMPTY_UCI: UciView :=
    UciView(EMPTY_PAIR, EMPTY_PAIR, EMPTY_PAIR, EMPTY_PAIR, EMPTY_PAIR, Triple([], [], []), EMPTY_PAIR, EMPTY_PAIR)

  predicate BiasActive(category: string) {
    category == ALL || category == "bias"
  }

  predicate UciActive(category: string) {
    category == ALL || category == "uci"
  }

  /** `isActive ? filterArray(arr, yearContext) : []` */
  function Gate(active: bool, arr: Option<seq<Record>>, sel: Selection, yearContext: string): seq<Record> {
    if active then FilterArray(arr, sel, yearContext) else []
  }

  function BuildBiasView(src: BiasSource, category: string, sel: Selection): BiasView {
    var on := BiasActive(category);
    BiasView(
      Gate(on, src.campak, sel, ALL),
      Gate(on, src.dt, sel, ALL),
      Gate(on, src.td, sel, ALL),
      Gate(on, HpvClass(src, 5), sel, ALL),
      Gate(on, HpvClass(src, 6), sel, ALL),
      Gate(on, HpvClass(src, 9), sel, ALL))
  }

  /** One table read at a fixed calendar year, filtered with that year as context. */
  function Slot(on: bool, t: YearTable, year: string, sel: Selection): seq<Record> {
    Gate(on, Lookup(t, year), sel, year)
  }

  /** An antigen family: slot t1 is 2017, slot t2 is 2024. */
  function AntigenPair(on: bool, src: UciSource, name: string, sel: Selection): Pair {
    Pair(Slot(on, Family(src, name), "2017", sel), Slot(on, Family(src, name), "2024", sel))
  }

  function BuildUciView(src: UciSource, category: string, sel: Selection): UciView {
    var on := UciActive(category);
    UciView(
      AntigenPair(on, src, "rv", sel),
      AntigenPair(on, src, "rotarix", sel),
      AntigenPair(on, src, "pcv", sel),
      AntigenPair(on, src, "je", sel),
      AntigenPair(on, src, "heksavalen", sel),
      Triple(Slot(on, src.booster, "2017", sel), Slot(on, src.booster, "2022", sel), Slot(on, src.booster, "2023", sel)),
      Pair(Slot(on, src.hb0Bcg, "2024", sel), Slot(on, src.hb0Bcg, "2025", sel)),
      Pair(Slot(on, src.tt, "2024", sel), Slot(on, src.tt, "2025", sel)))
  }

  // ---------------------------------------------------------------------
  // Properties of the view construction

  /** A category other than 'all' or 'bias' empties every BIAS array. */
  lemma BiasViewGatedOff(src: BiasSource, category: string, sel: Selection)
    requires !BiasActive(category)
    ensures BuildBiasView(src, category, sel) == EMPTY_BIAS
  {
  }

  /** A category other than 'all' or 'uci' empties every UCI slot. */
  lemma UciViewGatedOff(src: UciSource, category: string, sel: Selection)
    requires !UciActive(category)
    ensures BuildUciView(src, category, sel) == EMPTY_UCI
  {
  }

  /** With every centre selected, the BIAS view is the raw data (missing arrays read as `[]`), whatever the year. */
  lemma BiasViewSelectAll(src: BiasSource, category: string, sel: Selection)
    requires BiasActive(category) && sel.puskesmas == ALL
    ensures BuildBiasView(src, category, sel) ==
            BiasView(src.campak.GetOr([]), src.dt.GetOr([]), src.td.GetOr([]),
                     HpvClass(src, 5).GetOr([]), HpvClass(src, 6).GetOr([]), HpvClass(src, 9).GetOr([]))
  {
    FilterAllIsIdentity(src.campak.GetOr([]), sel, ALL);
    FilterAllIsIdentity(src.dt.GetOr([]), sel, ALL);
    FilterAllIsIdentity(src.td.GetOr([]), sel, ALL);
    FilterAllIsIdentity(HpvClass(src, 5).GetOr([]), sel, ALL);
    FilterAllIsIdentity(HpvClass(src, 6).GetOr([]), sel, ALL);
    FilterAllIsIdentity(HpvClass(src, 9).GetOr([]), sel, ALL);
  }

  /** The raw content of a slot: the table's array for that year, or `[]`. */
  function RawSlot(t: YearTable, year: string): seq<Record> {
    Lookup(t, year).GetOr([])
  }

  function RawAntigenPair(src: UciSource, name: string): Pair {
    Pair(RawSlot(Family(src, name), "2017"), RawSlot(Family(src, name), "2024"))
  }

  /** The UCI view of the whole dataset: every slot is the raw array of its year. */
  function RawUciView(src: UciSource): UciView {
    UciView(
      RawAntigenPair(src, "rv"), RawAntigenPair(src, "rotarix"), RawAntigenPair(src, "pcv"),
      RawAntigenPair(src, "je"), RawAntigenPair(src, "heksavalen"),
      Triple(RawSlot(src.booster, "2017"), RawSlot(src.booster, "2022"), RawSlot(src.booster, "2023")),
      Pair(RawSlot(src.hb0Bcg, "2024"), RawSlot(src.hb0Bcg, "2025")),
      Pair(RawSlot(src.tt, "2024"), RawSlot(src.tt, "2025")))
  }

  lemma SlotSelectAll(t: YearTable, year: string, sel: Selection)
    requires sel.puskesmas == ALL && sel.year == ALL
    ensures Slot(true, t, year, sel) == RawSlot(t, year)
  {
    FilterAllIsIdentity(RawSlot(t, year), sel, year);
  }

  /** With every centre and every year selected, the UCI view is the raw data. */
  lemma UciViewSelectAll(src: UciSource, category: string, sel: Selection)
    requires UciActive(category) && sel.puskesmas == ALL && sel.year == ALL
    ensures BuildUciView(src, category, sel) == RawUciView(src)
  {
    forall t: YearTable, year: string ensures Slot(true, t, year, sel) == RawSlot(t, year) {
      SlotSelectAll(t, year, sel);
    }
  }

  /** Selecting a concrete year empties every slot that holds another year: only 2024 slots survive a 2024 selection. */
  lemma UciViewYear2024(src: UciSource, category: string, sel: Selection)
    requires sel.year == "2024"
    ensures var v := BuildUciView(src, category, sel);
            && v.rv.t1 == [] && v.rotarix.t1 == [] && v.pcv.t1 == [] && v.je.t1 == [] && v.heksavalen.t1 == []
            && v.booster == Triple([], [], []) && v.hb0Bcg.t2 == [] && v.tt.t2 == []
  {
    var on := UciActive(category);
    OtherYearSlot(on, Family(src, "rv"), "2017", sel);
    OtherYearSlot(on, Family(src, "rotarix"), "2017", sel);
    OtherYearSlot(on, Family(src, "pcv"), "2017", sel);
    OtherYearSlot(on, Family(src, "je"), "2017", sel);
    OtherYearSlot(on, Family(src, "heksavalen"), "2017", sel);
    OtherYearSlot(on, src.booster, "2017", sel);
    OtherYearSlot(on, src.booster, "2022", sel);
    OtherYearSlot(on, src.booster, "2023", sel);
    OtherYearSlot(on, src.hb0Bcg, "2025", sel);
    OtherYearSlot(on, src.tt, "2025", sel);
  }

  lemma OtherYearSlot(on: bool, t: YearTable, year: string, sel: Selection)
    requires sel.year == "2024" && (year == "2017" || year == "2022" || year == "2023" || year == "2025")
    ensures Slot(on, t, year, sel) == []
  {
    assert year != sel.year && year != ALL;
    if on { FilterOtherYearIsEmpty(RawSlot(t, year), sel, year); }
  }
}
